/** What the drive does when a node is created, updated or removed, and what each update does to every path. */
module CloudUpdates {
  import opened Basics
  import opened CloudTree

  // ---------- the remote updates ----------

  function Created(c: Cloud, par: Id, i: Id, x: Name, folder: bool): Cloud
    requires par in c
  {
    c[par := c[par].(kids := c[par].kids + [i])][i := Entry(x, folder, [])]
  }

  /** Removing an entry takes everything below it along. */
  function Removed(c: Cloud, i: Id): Cloud
    requires i in c
  {
    var gone := Below(c, i);
    map j | j in c && j !in gone :: c[j].(kids := Without(c[j].kids, i))
  }

  function Renamed(c: Cloud, i: Id, x: Name): Cloud
    requires i in c
  {
    c[i := c[i].(name := x)]
  }

  /** The parent field of a patch: one folder lists the entry afterwards. */
  function Reparented(c: Cloud, i: Id, par: Id): Cloud {
    map j | j in c :: c[j].(kids := if j == par then Without(c[j].kids, i) + [i] else Without(c[j].kids, i))
  }

  /** An update request carries the new name and, when the folder changes, the new parent. */
  function Updated(c: Cloud, i: Id, x: Name, par: Option<Id>): Cloud
    requires i in c
  {
    var named := Renamed(c, i, x);
    match par
    case None => named
    case Some(p) => Reparented(named, i, p)
  }

  lemma NobodysChild(c: Cloud, i: Id)
    requires WellFormed(c) && (i !in c || i == ROOT)
    ensures forall j :: j in c ==> i !in c[j].kids
  {
  }

  lemma CreatedWellFormed(c: Cloud, par: Id, i: Id, x: Name, folder: bool)
    requires WellFormed(c) && par in c && c[par].folder && i !in c
    ensures WellFormed(Created(c, par, i, x, folder))
  {
    NobodysChild(c, i);
  }

  lemma CreatedUniqueNames(c: Cloud, par: Id, i: Id, x: Name, folder: bool)
    requires WellFormed(c) && UniqueNames(c) && par in c && i !in c
    requires Child(c, par, x) == None
    ensures UniqueNames(Created(c, par, i, x, folder))
  {
    NobodysChild(c, i);
    hide WellFormed;
  }

  lemma RemovedWellFormed(c: Cloud, i: Id)
    requires WellFormed(c) && i in c && i != ROOT
    ensures WellFormed(Removed(c, i))
    ensures UniqueNames(c) ==> UniqueNames(Removed(c, i))
  {
    var d := Removed(c, i);
    assert ROOT !in Below(c, i) by {
      if ROOT in Below(c, i) { BelowEntered(c, i, ROOT); }
    }
    forall j, k | j in d && k in d[j].kids
      ensures k in d && k != ROOT
    {
      OutsideLists(c, i, j, k);
    }
  }

  lemma UpdatedWellFormed(c: Cloud, i: Id, x: Name, par: Option<Id>)
    requires WellFormed(c) && i in c && i != ROOT
    requires par.Some? ==> par.value in c && c[par.value].folder
    ensures WellFormed(Updated(c, i, x, par))
  {
    RenamedIsTree(c, i, x);
    if par.Some? { ReparentedIsTree(Renamed(c, i, x), i, par.value); }
    hide WellFormed, Reparented;
  }

  lemma RenamedIsTree(c: Cloud, i: Id, x: Name)
    requires WellFormed(c) && i in c && i != ROOT
    ensures WellFormed(Renamed(c, i, x))
  {
  }

  lemma ReparentedIsTree(c: Cloud, i: Id, par: Id)
    requires WellFormed(c) && i in c && i != ROOT && par in c && c[par].folder
    ensures WellFormed(Reparented(c, i, par))
  {
    var e := Reparented(c, i, par);
    forall j | j in e
      ensures NoDup(e[j].kids)
    {
      assert i !in Without(c[j].kids, i);
    }
  }

  lemma RemovedEntry(c: Cloud, i: Id, j: Id)
    requires i in c && j in c && j !in Below(c, i)
    ensures j in Removed(c, i) && Removed(c, i)[j] == c[j].(kids := Without(c[j].kids, i))
  {
  }

  lemma BelowAfterPart(c: Cloud, part: Id, whole: Id)
    requires whole in c && part in Below(c, whole) && part != whole && whole !in Below(c, part)
    ensures whole in Removed(c, part) && Below(Removed(c, part), whole) == Below(c, whole) - Below(c, part)
  {
    var d := Removed(c, part);
    BelowLeast(c, whole, Below(d, whole) + Below(c, part));
    BelowLeast(d, whole, Below(c, whole) - Below(c, part));
  }

  /** Removing part of a subtree first makes no difference to removing the whole of it. */
  lemma RemovalAbsorbs(c: Cloud, part: Id, whole: Id)
    requires WellFormed(c) && whole in c && part in Below(c, whole) && part != whole
    requires whole !in Below(c, part)
    ensures whole in Removed(c, part) && Removed(Removed(c, part), whole) == Removed(c, whole)
  {
    hide Below, ClosedUnder, Without;
    BelowAfterPart(c, part, whole);
    BelowLeast(c, part, Below(c, whole));
    forall j | j in c && j !in Below(c, whole)
      ensures part !in c[j].kids
    {
      if part in c[j].kids { OutsideLists(c, whole, j, part); }
    }
  }

  // ---------- the remote updates, one name at a time ----------

  lemma LookupSame(c: Cloud, d: Cloud, kids: seq<Id>, y: Name)
    requires forall k :: k in kids ==> k in c && k in d && c[k].name == d[k].name
    ensures Lookup(d, kids, y) == Lookup(c, kids, y)
  {
  }

  lemma LookupAppended(c: Cloud, kids: seq<Id>, i: Id, y: Name)
    requires i in c
    ensures Lookup(c, kids + [i], y) ==
            if Lookup(c, kids, y).Some? then Lookup(c, kids, y) else if c[i].name == y then Some(i) else None
  {
    if kids != [] {
      assert (kids + [i])[1..] == kids[1..] + [i];
      LookupAppended(c, kids[1..], i, y);
    }
  }

  lemma LookupWithout(c: Cloud, kids: seq<Id>, i: Id, y: Name)
    requires Lookup(c, kids, y) != Some(i)
    ensures Lookup(c, Without(kids, i), y) == Lookup(c, kids, y)
  {
    if kids != [] && kids[0] != i && !(kids[0] in c && c[kids[0]].name == y) {
      assert Without(kids, i)[1..] == Without(kids[1..], i);
      LookupWithout(c, kids[1..], i, y);
    }
  }

  lemma ChildAfterCreate(c: Cloud, par: Id, i: Id, x: Name, folder: bool, j: Id, y: Name)
    requires WellFormed(c) && par in c && i !in c && Child(c, par, x) == None
    ensures Child(Created(c, par, i, x, folder), j, y) == if j == par && y == x then Some(i) else Child(c, j, y)
  {
    var d := Created(c, par, i, x, folder);
    NobodysChild(c, i);
    if j in c {
      LookupSame(c, d, c[j].kids, y);
      if j == par { LookupAppended(d, c[j].kids, i, y); }
    }
  }

  lemma ChildAfterRemove(c: Cloud, i: Id, j: Id, y: Name)
    requires WellFormed(c) && UniqueNames(c) && i in c && j in c && j !in Below(c, i)
    ensures Child(Removed(c, i), j, y) == if Child(c, j, y) == Some(i) then None else Child(c, j, y)
  {
    var d := Removed(c, i);
    forall k | k in d[j].kids
      ensures k in c && k in d && k != i
    {
      OutsideLists(c, i, j, k);
    }
    LookupSame(c, d, d[j].kids, y);
    hide WellFormed;
    if Child(c, j, y) != Some(i) {
      LookupWithout(c, c[j].kids, i, y);
    } else if Child(d, j, y).Some? {
      ChildIs(c, j, i);
    }
  }

  // ---------- the remote updates, path by path ----------

  /** Creating a child of a folder adds that one path and moves no other. */
  lemma {:induction false} WalkAfterCreate(c: Cloud, at: Path, par: Id, i: Id, x: Name, folder: bool, p: Path)
    requires WellFormed(c) && i !in c
    requires Walk(c, ROOT, at) == Some(par) && par in c && Child(c, par, x) == None
    ensures Walk(Created(c, par, i, x, folder), ROOT, p) == if p == at + [x] then Some(i) else Walk(c, ROOT, p)
    decreases |p|
  {
    var d := Created(c, par, i, x, folder);
    assert i != ROOT && ROOT in c;
    if p != [] {
      var q, y := p[..|p| - 1], p[|p| - 1];
      assert p == q + [y];
      WalkAfterCreate(c, at, par, i, x, folder, q);
      WalkSnoc(c, ROOT, q, y);
      WalkSnoc(d, ROOT, q, y);
      WalkSnoc(c, ROOT, at, x);
      if Walk(d, ROOT, q).Some? {
        var j := Walk(d, ROOT, q).value;
        ChildAfterCreate(c, par, i, x, folder, j, y);
        if j == par && q != at + [x] { WalkInjective(c, q, at); }
      }
    }
  }

  /** Removing the entry at a path ends every path at or below it and moves no other. */
  /** Nothing is left at or below the path, and the rest is where it was. */
  ghost predicate PathGone(c: Cloud, d: Cloud, path: Path) {
    && (forall p :: Walk(d, ROOT, p) == if path <= p then None else Walk(c, ROOT, p))
    && forall i :: i in d ==> i in c && d[i].folder == c[i].folder
  }

  lemma {:induction false} WalkAfterRemove(c: Cloud, at: Path, i: Id, p: Path)
    requires WellFormed(c) && UniqueNames(c) && at != []
    requires Walk(c, ROOT, at) == Some(i) && i in c
    ensures Walk(Removed(c, i), ROOT, p) == if at <= p then None else Walk(c, ROOT, p)
    decreases |p|
  {
    var d := Removed(c, i);
    BelowByPath(c, at, []);
    if p != [] {
      var q, y := p[..|p| - 1], p[|p| - 1];
      assert p == q + [y];
      WalkAfterRemove(c, at, i, q);
      WalkSnoc(c, ROOT, q, y);
      WalkSnoc(d, ROOT, q, y);
      PrefixOfSnoc(at, q, y);
      if !(at <= q) && Walk(c, ROOT, q).Some? {
        var j := Walk(c, ROOT, q).value;
        BelowByPath(c, at, q);
        WalkStays(c, ROOT, q);
        ChildAfterRemove(c, i, j, y);
        if Child(c, j, y) == Some(i) { WalkInjective(c, at, p); }
      }
    }
  }
}
