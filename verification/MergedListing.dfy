/** Listing a directory with mounts in it: the underlying entries that no mount hides, then the mounts by name. */
module MergedListing {
  import opened Basics
  import opened MountTree

  /** What a lookup or a listing hands out: a node of the mount tree, or a node of a mounted file system. */
  datatype Item = Joint(node: JoinedNode) | Under(id: Id)

  datatype Entry = Entry(name: Name, item: Item)

  // ---------- the order of names ----------

  /** The order of the mount map: by characters, a shorter name before its extensions. */
  predicate Before(a: Name, b: Name) {
    b != "" && (a == "" || a[0] < b[0] || (a[0] == b[0] && Before(a[1..], b[1..])))
  }

  lemma {:induction false} BeforeTotal(a: Name, b: Name)
    ensures a == b || Before(a, b) || Before(b, a)
    ensures !(Before(a, b) && Before(b, a))
  {
    if a != "" && b != "" {
      BeforeTotal(a[1..], b[1..]);
      assert a[0] == b[0] && a[1..] == b[1..] ==> a == [a[0]] + a[1..] == [b[0]] + b[1..] == b;
    }
  }

  lemma {:induction false} BeforeTransitive(a: Name, b: Name, c: Name)
    requires Before(a, b) && Before(b, c)
    ensures Before(a, c)
  {
    if a != "" && a[0] == b[0] && b[0] == c[0] { BeforeTransitive(a[1..], b[1..], c[1..]); }
  }

  /** At the first difference the smaller character, or else the shorter name, comes first. */
  ghost predicate DiffersAt(a: Name, b: Name, k: nat) {
    k <= |a| && k < |b| && a[..k] == b[..k] && (k == |a| || a[k] < b[k])
  }

  ghost predicate Precedes(a: Name, b: Name) {
    exists k: nat :: DiffersAt(a, b, k)
  }

  lemma {:induction false} BeforeIs(a: Name, b: Name)
    ensures Before(a, b) <==> Precedes(a, b)
  {
    if a == "" || b == "" || a[0] != b[0] {
      assert a[..0] == b[..0];
      assert Before(a, b) ==> DiffersAt(a, b, 0);
      forall k: nat | DiffersAt(a, b, k)
        ensures k == 0
      {
        HeadsOf(a, b, k);
      }
    } else {
      BeforeIs(a[1..], b[1..]);
      forall k: nat | DiffersAt(a[1..], b[1..], k)
        ensures DiffersAt(a, b, k + 1)
      {
        assert a[..k + 1] == [a[0]] + a[1..][..k] && b[..k + 1] == [b[0]] + b[1..][..k];
      }
      forall k: nat | DiffersAt(a, b, k)
        ensures k > 0 && DiffersAt(a[1..], b[1..], k - 1)
      {
        assert k > 0;
        assert a[1..][..k - 1] == a[..k][1..] && b[1..][..k - 1] == b[..k][1..];
      }
    }
  }

  lemma HeadsOf(a: Name, b: Name, k: nat)
    requires k <= |a| && k <= |b| && a[..k] == b[..k]
    ensures k > 0 ==> a[0] == b[0]
  {
    if k > 0 {
      assert a[0] == a[..k][0] && b[0] == b[..k][0];
    }
  }

  ghost predicate Sorted(es: seq<Entry>) {
    forall i, j :: 0 <= i < j < |es| ==> Before(es[i].name, es[j].name)
  }

  /** Every name differs first from each later one at a smaller character, or starts it. */
  ghost predicate Lexicographic(es: seq<Entry>) {
    forall i, j :: 0 <= i < j < |es| ==> Precedes(es[i].name, es[j].name)
  }

  lemma SortedIs(es: seq<Entry>)
    ensures Sorted(es) <==> Lexicographic(es)
  {
    forall i, j | 0 <= i < j < |es|
      ensures Before(es[i].name, es[j].name) <==> Precedes(es[i].name, es[j].name)
    {
      BeforeIs(es[i].name, es[j].name);
    }
  }

  lemma HeadFirst(a: seq<Entry>, e: Entry)
    requires Sorted(a) && e in a
    ensures e == a[0] || Before(a[0].name, e.name)
  {
    var j :| 0 <= j < |a| && a[j] == e;
    assert j > 0 ==> Before(a[0].name, a[j].name);
  }

  lemma HeadsMeet(a: seq<Entry>, b: seq<Entry>)
    requires Sorted(a) && Sorted(b) && a != [] && b != [] && forall e :: e in a <==> e in b
    ensures a[0] == b[0]
  {
    HeadFirst(a, b[0]);
    HeadFirst(b, a[0]);
    BeforeTotal(a[0].name, b[0].name);
  }

  lemma NoRepeat(a: seq<Entry>, e: Entry)
    requires Sorted(a) && a != []
    ensures e in a[1..] <==> e in a && e != a[0]
  {
    forall j | 0 < j < |a|
      ensures a[j] != a[0]
    {
      BeforeTotal(a[0].name, a[j].name);
    }
    assert a == [a[0]] + a[1..];
  }

  /** Strictly sorted lists with the same entries are the same list. */
  lemma {:induction false} SortedUnique(a: seq<Entry>, b: seq<Entry>)
    requires Sorted(a) && Sorted(b) && forall e :: e in a <==> e in b
    ensures a == b
  {
    assert a != [] ==> a[0] in b;
    assert b != [] ==> b[0] in a;
    if a != [] {
      HeadsMeet(a, b);
      forall e
        ensures e in a[1..] <==> e in b[1..]
      {
        NoRepeat(a, e);
        NoRepeat(b, e);
      }
      SortedUnique(a[1..], b[1..]);
      assert a == [a[0]] + a[1..] && b == [b[0]] + b[1..];
    }
  }

  // ---------- the map of mounts ----------

  function Names(es: seq<Entry>): set<Name> {
    set e | e in es :: e.name
  }

  /** Inserting does nothing if the name is there already. */
  method InsertMount(mounts: seq<Entry>, e: Entry) returns (r: seq<Entry>)
    requires Sorted(mounts)
    ensures Sorted(r)
    ensures e.name in Names(mounts) ==> r == mounts
    ensures e.name !in Names(mounts) ==> forall x :: x in r <==> x in mounts || x == e
  {
    var i := 0;
    while i < |mounts| && Before(mounts[i].name, e.name)
      invariant 0 <= i <= |mounts|
      invariant forall k :: 0 <= k < i ==> Before(mounts[k].name, e.name)
    {
      i := i + 1;
    }
    InsertPlace(mounts, e, i);
    if i < |mounts| && mounts[i].name == e.name { return mounts; }
    r := mounts[..i] + [e] + mounts[i..];
  }

  lemma InsertPlace(mounts: seq<Entry>, e: Entry, i: nat)
    requires Sorted(mounts) && i <= |mounts| && forall k :: 0 <= k < i ==> Before(mounts[k].name, e.name)
    requires i < |mounts| ==> !Before(mounts[i].name, e.name)
    ensures e.name in Names(mounts) <==> i < |mounts| && mounts[i].name == e.name
    ensures e.name !in Names(mounts) ==> Sorted(mounts[..i] + [e] + mounts[i..])
    ensures forall x :: x in mounts[..i] + [e] + mounts[i..] <==> x in mounts || x == e
  {
    forall k | i <= k < |mounts| && mounts[i].name != e.name
      ensures Before(e.name, mounts[k].name)
    {
      BeforeTotal(mounts[i].name, e.name);
      if k > i { BeforeTransitive(e.name, mounts[i].name, mounts[k].name); }
    }
    forall k | 0 <= k < |mounts|
      ensures mounts[k].name == e.name ==> k == i
    {
      BeforeTotal(mounts[k].name, e.name);
      BeforeTotal(e.name, e.name);
    }
    assert mounts == mounts[..i] + mounts[i..];
  }

  ghost predicate FirstOfName(children: seq<Entry>, k: int) {
    0 <= k < |children| && forall j :: 0 <= j < k ==> children[j].name != children[k].name
  }

  lemma EarlierNames(children: seq<Entry>, k: nat)
    requires k < |children|
    ensures FirstOfName(children, k) <==> children[k].name !in Names(children[..k])
  {
    forall j | 0 <= j < k
      ensures children[j].name in Names(children[..k])
    {
      assert children[j] == children[..k][j];
    }
  }

  /** The children by name, the first one for each name. */
  ghost predicate MountMap(mounts: seq<Entry>, children: seq<Entry>) {
    && Sorted(mounts)
    && (forall e :: e in mounts ==> exists k :: FirstOfName(children, k) && children[k] == e)
    && (forall k :: FirstOfName(children, k) ==> children[k] in mounts)
  }

  lemma MapNames(mounts: seq<Entry>, children: seq<Entry>)
    requires MountMap(mounts, children)
    ensures Names(mounts) == Names(children)
  {
    forall n | n in Names(children)
      ensures n in Names(mounts)
    {
      FirstNamed(children, n);
    }
  }

  lemma {:induction false} FirstNamed(children: seq<Entry>, n: Name)
    requires n in Names(children)
    ensures exists k :: FirstOfName(children, k) && children[k].name == n
  {
    var init, last := children[..|children| - 1], children[|children| - 1];
    if n in Names(init) {
      FirstNamed(init, n);
      var k :| FirstOfName(init, k) && init[k].name == n;
      assert FirstOfName(children, k);
    } else {
      EarlierNames(children, |children| - 1);
      assert children == init + [last];
    }
  }

  /** There is only one such list. */
  lemma MountMapUnique(a: seq<Entry>, b: seq<Entry>, children: seq<Entry>)
    requires MountMap(a, children) && MountMap(b, children)
    ensures a == b
  {
    SortedUnique(a, b);
  }

  lemma MapSorted(mounts: seq<Entry>, children: seq<Entry>)
    requires MountMap(mounts, children)
    ensures Sorted(mounts)
  {
  }

  lemma EmptyMap()
    ensures MountMap([], [])
  {
  }

  method CollectMounts(children: seq<Entry>) returns (mounts: seq<Entry>)
    ensures MountMap(mounts, children) && Lexicographic(mounts)
  {
    hide Lexicographic, MountMap, FirstOfName, Names;
    EmptyMap();
    mounts := [];
    var i := 0;
    while i < |children|
      invariant 0 <= i <= |children| && MountMap(mounts, children[..i])
    {
      MapNames(mounts, children[..i]);
      MapSorted(mounts, children[..i]);
      ghost var before := mounts;
      mounts := InsertMount(mounts, children[i]);
      MapStep(before, mounts, children, i);
      i := i + 1;
    }
    assert children[..i] == children;
    MapSorted(mounts, children);
    SortedIs(mounts);
  }

  lemma MapStep(before: seq<Entry>, after: seq<Entry>, children: seq<Entry>, i: nat)
    requires i < |children| && MountMap(before, children[..i]) && Sorted(after)
    requires children[i].name in Names(children[..i]) ==> after == before
    requires children[i].name !in Names(children[..i]) ==> forall x :: x in after <==> x in before || x == children[i]
    ensures MountMap(after, children[..i + 1])
  {
    hide Sorted, Names;
    var a, b := children[..i], children[..i + 1];
    forall k
      ensures FirstOfName(b, k) <==> FirstOfName(a, k) || (k == i && children[i].name !in Names(a))
    {
      EarlierNames(children, i);
    }
    hide FirstOfName;
    forall e | e in after
      ensures exists k :: FirstOfName(b, k) && b[k] == e
    {
      if e in before {
        var k :| FirstOfName(a, k) && a[k] == e;
        assert FirstOfName(b, k) && b[k] == e;
      } else {
        assert FirstOfName(b, i) && b[i] == e;
      }
    }
  }

  // ---------- the iterators ----------

  class UnderIt {
    var rest: seq<Entry>

    constructor (entries: seq<Entry>)
      ensures rest == entries
    {
      rest := entries;
    }

    method HasNext() returns (r: bool)
      ensures r <==> rest != []
    {
      r := rest != [];
    }

    method Next() returns (e: Entry)
      requires rest != []
      modifies this
      ensures old(rest) == [e] + rest
    {
      e, rest := rest[0], rest[1..];
    }
  }

  /** The entries whose names are not among those of the mounts. */
  function Unshadowed(es: seq<Entry>, names: set<Name>): seq<Entry> {
    if es == [] then []
    else if es[0].name in names then Unshadowed(es[1..], names)
    else [es[0]] + Unshadowed(es[1..], names)
  }

  class MergeIt {
    const under: UnderIt?
    const mounts: seq<Entry>
    var at: nat
    var mode: nat
    var res: Option<Entry>

    /** What is still to come after the entry already fetched. */
    ghost function Pending(): seq<Entry>
      reads this, under
      requires at <= |mounts|
    {
      (if mode == 2 && under != null then Unshadowed(under.rest, Names(mounts)) else [])
      + (if mode >= 1 then mounts[at..] else [])
    }

    ghost predicate Ok()
      reads this
    {
      at <= |mounts| && mode <= 2 && (mode == 2 ==> under != null)
    }

    ghost predicate Valid()
      reads this, under
    {
      Ok() && (res == None ==> Pending() == [])
    }

    ghost function Remaining(): seq<Entry>
      reads this, under
      requires Ok()
    {
      (if res.Some? then [res.value] else []) + Pending()
    }

    constructor (under: UnderIt?, mounts: seq<Entry>)
      modifies under
      ensures Valid() && this.under == under && this.mounts == mounts
      ensures Remaining() == (if under == null then [] else Unshadowed(old(under.rest), Names(mounts))) + mounts
    {
      this.under, this.mounts, at, mode, res := under, mounts, 0, 2, None;
      new;
      if under == null { mode := 1; }
      res := ReadNext();
    }

    method HasNext() returns (r: bool)
      requires Valid()
      ensures r <==> Remaining() != []
    {
      r := res.Some?;
    }

    method Next() returns (e: Option<Entry>)
      requires Valid()
      modifies this, under
      ensures Valid()
      ensures old(Remaining()) == [] ==> e == None && Remaining() == []
      ensures old(Remaining()) != [] ==> e.Some? && old(Remaining()) == [e.value] + Remaining()
    {
      e := res;
      res := ReadNext();
    }

    /** Mode 2 reads the underlying listing, mode 1 the mounts, mode 0 is the end. */
    method ReadNext() returns (n: Option<Entry>)
      requires Ok()
      modifies this`at, this`mode, under
      ensures Ok()
      ensures old(Pending()) == [] ==> n == None && Pending() == []
      ensures old(Pending()) != [] ==> n.Some? && old(Pending()) == [n.value] + Pending()
    {
      n := None;
      if mode == 2 {
        var more := under.HasNext();
        while more
          invariant n == None && Ok() && mode == 2 && at == old(at) && (more <==> under.rest != [])
          invariant Unshadowed(under.rest, Names(mounts)) == Unshadowed(old(under.rest), Names(mounts))
          decreases |under.rest|
        {
          ghost var rest := under.rest;
          var e := under.Next();
          assert rest[0] == e && rest[1..] == under.rest;
          if e.name !in Names(mounts) {
            n := Some(e);
            break;
          }
          more := under.HasNext();
        }
        if n == None { mode := mode - 1; }
      }
      if n == None && mode == 1 {
        if at != |mounts| {
          n := Some(mounts[at]);
          at := at + 1;
        } else {
          mode := mode - 1;
        }
      }
    }
  }

  /** Calling next while there is one more ends, and delivers what was to come. */
  method Drain(it: MergeIt) returns (all: seq<Entry>)
    requires it.Valid()
    modifies it, it.under
    ensures all == old(it.Remaining())
  {
    hide Unshadowed, Names;
    all := [];
    var more := it.HasNext();
    while more
      invariant it.Valid() && (more <==> it.Remaining() != [])
      invariant all + it.Remaining() == old(it.Remaining())
      decreases |it.Remaining()|
    {
      var e := it.Next();
      assert all + ([e.value] + it.Remaining()) == all + [e.value] + it.Remaining();
      all := all + [e.value];
      more := it.HasNext();
    }
  }

  /** The listing run to its end: what is not shadowed, in its order, then every mount by name. */
  method ListAll(under: UnderIt?, children: seq<Entry>) returns (all: seq<Entry>, ghost mounts: seq<Entry>)
    modifies under
    ensures MountMap(mounts, children) && Lexicographic(mounts) && forall ms :: MountMap(ms, children) ==> ms == mounts
    ensures all == (if under == null then [] else Unshadowed(old(under.rest), Names(children))) + mounts
  {
    var map_ := CollectMounts(children);
    MapNames(map_, children);
    mounts := map_;
    var it := new MergeIt(under, map_);
    all := Drain(it);
    forall ms | MountMap(ms, children)
      ensures ms == mounts
    {
      MountMapUnique(ms, mounts, children);
    }
  }

  /** The unshadowed entries stay, each as often as it was, */
  lemma {:induction false} UnshadowedIs(es: seq<Entry>, names: set<Name>, e: Entry)
    ensures multiset(Unshadowed(es, names))[e] == if e.name in names then 0 else multiset(es)[e]
    ensures e in Unshadowed(es, names) <==> e in es && e.name !in names
  {
    if es != [] {
      UnshadowedIs(es[1..], names, e);
      assert es == [es[0]] + es[1..];
      assert e in es <==> e == es[0] || e in es[1..];
    }
  }

  /** and in the order in which they were. */
  lemma {:induction false} UnshadowedJoin(a: seq<Entry>, b: seq<Entry>, names: set<Name>)
    ensures Unshadowed(a + b, names) == Unshadowed(a, names) + Unshadowed(b, names)
  {
    if a == [] {
      assert a + b == b;
    } else {
      UnshadowedJoin(a[1..], b, names);
      assert (a + b)[0] == a[0] && (a + b)[1..] == a[1..] + b;
      var rest, more := Unshadowed(a[1..], names), Unshadowed(b, names);
      assert [a[0]] + (rest + more) == [a[0]] + rest + more;
    }
  }
}
