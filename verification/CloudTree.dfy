/** The remote drive: entries by id, the plain walk along a path, and the three remote updates. */
module CloudTree {
  import opened Basics

  const ROOT: Id := "root"

  datatype Entry = Entry(name: Name, folder: bool, kids: seq<Id>)

  type Cloud = map<Id, Entry>

  /** Every listed child exists and is listed once, by one folder; the root is nobody's child. */
  ghost predicate WellFormed(c: Cloud) {
    && ROOT in c && c[ROOT].folder
    && (forall i :: i in c ==> NoDup(c[i].kids))
    && (forall i :: i in c && !c[i].folder ==> c[i].kids == [])
    && (forall i, k :: i in c && k in c[i].kids ==> k in c && k != ROOT)
    && (forall i, j, k :: i in c && j in c && k in c[i].kids && k in c[j].kids ==> i == j)
  }

  ghost predicate UniqueNames(c: Cloud) {
    forall i, k, l :: i in c && k in c[i].kids && l in c[i].kids && k in c && l in c && c[k].name == c[l].name ==>
      k == l
  }

  /** The first listed child of that name. */
  function Lookup(c: Cloud, kids: seq<Id>, x: Name): (r: Option<Id>)
    ensures r.Some? ==> r.value in kids && r.value in c && c[r.value].name == x
    ensures r.None? ==> forall k :: k in kids && k in c ==> c[k].name != x
  {
    if kids == [] then None
    else if kids[0] in c && c[kids[0]].name == x then Some(kids[0])
    else Lookup(c, kids[1..], x)
  }

  /** The child of that name, if any. */
  function Child(c: Cloud, i: Id, x: Name): Option<Id> {
    if i in c then Lookup(c, c[i].kids, x) else None
  }

  /** The uncached walk: follow the first child of each name, asking the drive at every step. */
  function Walk(c: Cloud, i: Id, p: Path): Option<Id> {
    if i !in c then None
    else if p == [] then Some(i)
    else
      match Walk(c, i, p[..|p| - 1])
      case None => None
      case Some(j) => Child(c, j, p[|p| - 1])
  }

  lemma WalkStays(c: Cloud, i: Id, p: Path)
    ensures Walk(c, i, p).Some? ==> Walk(c, i, p).value in c
  {
  }

  lemma WalkRoot(c: Cloud)
    requires WellFormed(c)
    ensures ROOT in c && Walk(c, ROOT, []) == Some(ROOT)
  {
  }

  lemma WalkSnoc(c: Cloud, i: Id, p: Path, x: Name)
    ensures Walk(c, i, p + [x]) == if Walk(c, i, p).None? then None else Child(c, Walk(c, i, p).value, x)
  {
    assert (p + [x])[..|p + [x]| - 1] == p;
  }

  lemma {:induction false} WalkConcat(c: Cloud, i: Id, p: Path, q: Path)
    ensures Walk(c, i, p + q) == if Walk(c, i, p).None? then None else Walk(c, Walk(c, i, p).value, q)
    decreases |q|
  {
    WalkStays(c, i, p);
    if q == [] {
      assert p + q == p;
    } else {
      var q', x := q[..|q| - 1], q[|q| - 1];
      assert p + q == (p + q') + [x] && q == q' + [x];
      WalkConcat(c, i, p, q');
      WalkSnoc(c, i, p + q', x);
      if Walk(c, i, p).Some? {
        WalkSnoc(c, Walk(c, i, p).value, q', x);
      }
    }
  }

  /** From the root down: each entry lists the next one, which has the path's next name. */
  ghost predicate Descends(c: Cloud, ids: seq<Id>, p: Path) {
    && |ids| == |p| + 1 && ids[0] == ROOT && (forall k :: 0 <= k < |ids| ==> ids[k] in c)
    && forall k :: 0 <= k < |p| ==> ids[k + 1] in c[ids[k]].kids && c[ids[k + 1]].name == p[k]
  }

  /** Where names are unique, the walk gives the end of the one descent along the path. */
  lemma WalkDescends(c: Cloud, p: Path, i: Id)
    requires WellFormed(c) && UniqueNames(c)
    ensures Walk(c, ROOT, p) == Some(i) <==> exists ids :: Descends(c, ids, p) && ids[|p|] == i
  {
    hide WellFormed, UniqueNames, Walk;
    if Walk(c, ROOT, p) == Some(i) { var ids := Descent(c, p, i); }
    forall ids | Descends(c, ids, p) && ids[|p|] == i
      ensures Walk(c, ROOT, p) == Some(i)
    {
      DescentWalks(c, ids, p);
    }
  }

  lemma {:induction false} Descent(c: Cloud, p: Path, i: Id) returns (ids: seq<Id>)
    requires Walk(c, ROOT, p) == Some(i)
    ensures Descends(c, ids, p) && ids[|p|] == i
    decreases |p|
  {
    WalkStays(c, ROOT, p);
    if p == [] {
      ids := [ROOT];
    } else {
      var n := |p| - 1;
      var up := p[..n];
      var front := Descent(c, up, Walk(c, ROOT, up).value);
      ids := front + [i];
      assert forall k :: 0 <= k < n ==> ids[k] == front[k] && p[k] == up[k];
      assert ids[n] == front[n] && ids[n + 1] == i;
    }
  }

  lemma {:induction false} DescentWalks(c: Cloud, ids: seq<Id>, p: Path)
    requires WellFormed(c) && UniqueNames(c) && Descends(c, ids, p)
    ensures Walk(c, ROOT, p) == Some(ids[|p|])
    decreases |p|
  {
    hide WellFormed, UniqueNames;
    if p != [] {
      var n := |p| - 1;
      assert Descends(c, ids[..n + 1], p[..n]);
      DescentWalks(c, ids[..n + 1], p[..n]);
      ChildIs(c, ids[n], ids[n + 1]);
    }
  }

  /** A drive entry lies at one path only, even where siblings share names. */
  lemma {:induction false} WalkInjective(c: Cloud, p: Path, q: Path)
    requires WellFormed(c)
    requires Walk(c, ROOT, p).Some? && Walk(c, ROOT, p) == Walk(c, ROOT, q)
    ensures p == q
    decreases |p|
  {
    if p != [] && q != [] {
      var p', q' := p[..|p| - 1], q[..|q| - 1];
      WalkStays(c, ROOT, p');
      WalkStays(c, ROOT, q');
      WalkInjective(c, p', q');
      assert p == p' + [p[|p| - 1]] && q == q' + [q[|q| - 1]];
    }
  }

  lemma ChildIs(c: Cloud, i: Id, k: Id)
    requires UniqueNames(c) && i in c && k in c[i].kids && k in c
    ensures Child(c, i, c[k].name) == Some(k)
  {
    assert Lookup(c, c[i].kids, c[k].name).Some?;
  }

  // ---------- the subtree of an entry ----------

  ghost predicate ClosedUnder(c: Cloud, s: set<Id>) {
    forall i, k :: i in s && i in c && k in c[i].kids && k in c ==> k in s
  }

  function Spread(c: Cloud, s: set<Id>): (r: set<Id>)
    requires s <= c.Keys
    ensures s <= r <= c.Keys && ClosedUnder(c, r)
    decreases c.Keys - s
  {
    var t := s + set i, k | i in s && k in c[i].kids && k in c :: k;
    if t == s then s
    else
      assert c.Keys - t < c.Keys - s by {
        var k :| k in t && k !in s;
        assert k in c.Keys - s && k !in c.Keys - t;
      }
      Spread(c, t)
  }

  /** The entry and everything listed, directly or not, below it. */
  function Below(c: Cloud, i: Id): (r: set<Id>)
    requires i in c
    ensures i in r && r <= c.Keys && ClosedUnder(c, r)
  {
    Spread(c, {i})
  }

  lemma {:induction false} SpreadLeast(c: Cloud, s: set<Id>, t: set<Id>)
    requires s <= c.Keys && s <= t && ClosedUnder(c, t)
    ensures Spread(c, s) <= t
    decreases c.Keys - s
  {
    var u := s + set i, k | i in s && k in c[i].kids && k in c :: k;
    if u != s {
      var k :| k in u && k !in s;
      assert k in c.Keys - s && k !in c.Keys - u;
      SpreadLeast(c, u, t);
    }
  }

  lemma BelowLeast(c: Cloud, i: Id, t: set<Id>)
    requires i in c && i in t && ClosedUnder(c, t)
    ensures Below(c, i) <= t
  {
    SpreadLeast(c, {i}, t);
  }

  lemma BelowEntered(c: Cloud, i: Id, k: Id)
    requires WellFormed(c) && i in c && k in Below(c, i) && k != i
    ensures exists j :: j in Below(c, i) && k in c[j].kids
  {
    if forall j :: j in Below(c, i) ==> k !in c[j].kids {
      BelowLeast(c, i, Below(c, i) - {k});
    }
  }

  /** Only the entry itself is listed from outside its subtree. */
  lemma OutsideLists(c: Cloud, i: Id, j: Id, k: Id)
    requires WellFormed(c) && i in c && j in c && j !in Below(c, i) && k in c[j].kids && k != i
    ensures k !in Below(c, i)
  {
    if k in Below(c, i) {
      BelowEntered(c, i, k);
    }
  }

  lemma {:induction false} WalkGoesBelow(c: Cloud, i: Id, q: Path)
    requires i in c && Walk(c, i, q).Some?
    ensures Walk(c, i, q).value in Below(c, i)
    decreases |q|
  {
    if q != [] {
      WalkStays(c, i, q[..|q| - 1]);
      WalkGoesBelow(c, i, q[..|q| - 1]);
    }
  }

  /** With unique sibling names the subtree is exactly what walks from the entry reach. */
  lemma BelowIsWalked(c: Cloud, i: Id, j: Id)
    requires WellFormed(c) && UniqueNames(c) && i in c && j in Below(c, i)
    ensures exists q :: Walk(c, i, q) == Some(j)
  {
    assert Walk(c, i, []) == Some(i);
    hide WellFormed, UniqueNames, Walk, Below;
    var t := set k | k in c && exists q :: Walk(c, i, q) == Some(k);
    assert i in t;
    forall a, k | a in t && a in c && k in c[a].kids && k in c
      ensures k in t
    {
      var q :| Walk(c, i, q) == Some(a);
      WalkSnoc(c, i, q, c[k].name);
      ChildIs(c, a, k);
    }
    BelowLeast(c, i, t);
  }

  /** An entry at path p has exactly the entries at p and further along in its subtree. */
  lemma BelowByPath(c: Cloud, p: Path, q: Path)
    requires WellFormed(c) && UniqueNames(c)
    requires Walk(c, ROOT, p).Some? && Walk(c, ROOT, q).Some?
    ensures Walk(c, ROOT, p).value in c && (Walk(c, ROOT, q).value in Below(c, Walk(c, ROOT, p).value) <==> p <= q)
  {
    WalkStays(c, ROOT, p);
    var i, j := Walk(c, ROOT, p).value, Walk(c, ROOT, q).value;
    if p <= q {
      assert p + q[|p|..] == q;
      WalkConcat(c, ROOT, p, q[|p|..]);
      WalkGoesBelow(c, i, q[|p|..]);
    }
    if j in Below(c, i) {
      BelowIsWalked(c, i, j);
      var r :| Walk(c, i, r) == Some(j);
      WalkConcat(c, ROOT, p, r);
      WalkInjective(c, p + r, q);
    }
  }
}
