/** Renaming on the drive: one update request, then the removal of what stood at the dst path. */
module CloudRename {
  import opened Basics
  import opened CloudTree
  import opened CloudUpdates

  /** The update request of a rename: the parent field is sent only when the folder changes. */
  function UpdateFor(c: Cloud, i: Id, oldPar: Id, newPar: Id, x: Name): Cloud
    requires i in c
  {
    Updated(c, i, x, if newPar == oldPar then None else Some(newPar))
  }

  function RenamedTree(c: Cloud, i: Id, oldPar: Id, newPar: Id, x: Name): Cloud
    requires i in c
  {
    var d := UpdateFor(c, i, oldPar, newPar, x);
    match Child(c, newPar, x)
    case None => d
    case Some(y) => if y in d then Removed(d, y) else d
  }

  /** Entry i at path src moves to the free or occupied name `Last(dst)` of the folder at the parent of dst. */
  ghost predicate RenameSetup(c: Cloud, src: Path, dst: Path, i: Id, oldPar: Id, newPar: Id) {
    && WellFormed(c) && UniqueNames(c)
    && src != [] && dst != [] && !(src <= dst)
    && Walk(c, ROOT, src) == Some(i) && i in c
    && Walk(c, ROOT, src[..|src| - 1]) == Some(oldPar) && oldPar in c
    && Walk(c, ROOT, dst[..|dst| - 1]) == Some(newPar) && newPar in c && c[newPar].folder
  }

  lemma SetupFacts(c: Cloud, src: Path, dst: Path, i: Id, oldPar: Id, newPar: Id)
    requires RenameSetup(c, src, dst, i, oldPar, newPar)
    ensures i != ROOT && i in c[oldPar].kids
    ensures newPar !in Below(c, i) && oldPar !in Below(c, i)
    ensures var x := dst[|dst| - 1];
            Walk(c, ROOT, dst) == Child(c, newPar, x) && Child(c, newPar, x) != Some(i)
  {
    hide WellFormed, UniqueNames, Walk, Below;
    var x, z := dst[|dst| - 1], src[|src| - 1];
    assert dst == dst[..|dst| - 1] + [x] && src == src[..|src| - 1] + [z];
    WalkSnoc(c, ROOT, dst[..|dst| - 1], x);
    WalkSnoc(c, ROOT, src[..|src| - 1], z);
    BelowByPath(c, src, dst[..|dst| - 1]);
    BelowByPath(c, src, src[..|src| - 1]);
    PrefixOfSnoc(src, dst[..|dst| - 1], x);
    NeverAChild(c, oldPar, z);
    if Child(c, newPar, x) == Some(i) { WalkInjective(c, src, dst); }
  }

  lemma NeverAChild(c: Cloud, j: Id, z: Name)
    requires WellFormed(c)
    ensures Child(c, j, z) != Some(ROOT)
  {
  }

  lemma UpdateKids(c: Cloud, i: Id, oldPar: Id, newPar: Id, x: Name, j: Id, k: Id)
    requires WellFormed(c) && i in c && oldPar in c && i in c[oldPar].kids && j in c
    ensures j in UpdateFor(c, i, oldPar, newPar, x)
    ensures k in UpdateFor(c, i, oldPar, newPar, x)[j].kids <==> if k == i then j == newPar else k in c[j].kids
  {
  }

  /** The replaced entry takes along what was below it, but never the moved entry. */
  lemma ReplacedSubtree(c: Cloud, src: Path, dst: Path, i: Id, oldPar: Id, newPar: Id, y: Id)
    requires RenameSetup(c, src, dst, i, oldPar, newPar)
    requires Walk(c, ROOT, dst) == Some(y)
    ensures var d := UpdateFor(c, i, oldPar, newPar, dst[|dst| - 1]);
            y in d && Below(d, y) <= Below(c, y) - Below(c, i)
  {
    SetupFacts(c, src, dst, i, oldPar, newPar);
    var x := dst[|dst| - 1];
    var d := UpdateFor(c, i, oldPar, newPar, x);
    WalkStays(c, ROOT, dst);
    BelowByPath(c, dst, dst[..|dst| - 1]);
    BelowByPath(c, src, dst);
    var t := Below(c, y) - Below(c, i);
    forall j, k | j in t && j in d && k in d[j].kids && k in d
      ensures k in t
    {
      UpdateKids(c, i, oldPar, newPar, x, j, k);
      if k in Below(c, i) { OutsideLists(c, i, j, k); }
    }
    BelowLeast(d, y, t);
  }

  /** The listings after a rename, as a condition on each single entry. */
  lemma RenamedKids(c: Cloud, src: Path, dst: Path, i: Id, oldPar: Id, newPar: Id, j: Id, k: Id)
    requires RenameSetup(c, src, dst, i, oldPar, newPar)
    requires j in RenamedTree(c, i, oldPar, newPar, dst[|dst| - 1])
    ensures j in c
    ensures k in RenamedTree(c, i, oldPar, newPar, dst[|dst| - 1])[j].kids <==>
            if k == i then j == newPar else k in c[j].kids && Some(k) != Walk(c, ROOT, dst)
  {
    SetupFacts(c, src, dst, i, oldPar, newPar);
    UpdateKids(c, i, oldPar, newPar, dst[|dst| - 1], j, k);
  }

  lemma RenamedDomain(c: Cloud, src: Path, dst: Path, i: Id, oldPar: Id, newPar: Id, j: Id)
    requires RenameSetup(c, src, dst, i, oldPar, newPar)
    requires j in c
    requires j in Below(c, i) || Walk(c, ROOT, dst).None?
             || (Walk(c, ROOT, dst).value in c && j !in Below(c, Walk(c, ROOT, dst).value))
    ensures var e := RenamedTree(c, i, oldPar, newPar, dst[|dst| - 1]);
            j in e && e[j].name == (if j == i then dst[|dst| - 1] else c[j].name) && e[j].folder == c[j].folder
  {
    SetupFacts(c, src, dst, i, oldPar, newPar);
    if Walk(c, ROOT, dst).Some? {
      ReplacedSubtree(c, src, dst, i, oldPar, newPar, Walk(c, ROOT, dst).value);
    }
  }

  lemma RenamedWellFormed(c: Cloud, src: Path, dst: Path, i: Id, oldPar: Id, newPar: Id)
    requires RenameSetup(c, src, dst, i, oldPar, newPar)
    ensures WellFormed(RenamedTree(c, i, oldPar, newPar, dst[|dst| - 1]))
  {
    var x := dst[|dst| - 1];
    SetupFacts(c, src, dst, i, oldPar, newPar);
    UpdatedWellFormed(c, i, x, if newPar == oldPar then None else Some(newPar));
    if Child(c, newPar, x).Some? {
      NobodysChild(c, ROOT);
      hide WellFormed;
      RemovedWellFormed(UpdateFor(c, i, oldPar, newPar, x), Child(c, newPar, x).value);
    }
  }

  lemma RenamedUniqueNames(c: Cloud, src: Path, dst: Path, i: Id, oldPar: Id, newPar: Id)
    requires RenameSetup(c, src, dst, i, oldPar, newPar)
    ensures UniqueNames(RenamedTree(c, i, oldPar, newPar, dst[|dst| - 1]))
  {
    var e := RenamedTree(c, i, oldPar, newPar, dst[|dst| - 1]);
    forall j, k, l | j in e && k in e[j].kids && l in e[j].kids && k in e && l in e && e[k].name == e[l].name
      ensures k == l
    {
      SiblingsDiffer(c, src, dst, i, oldPar, newPar, j, k, l);
    }
  }

  lemma SiblingsDiffer(c: Cloud, src: Path, dst: Path, i: Id, oldPar: Id, newPar: Id, j: Id, k: Id, l: Id)
    requires RenameSetup(c, src, dst, i, oldPar, newPar)
    requires var e := RenamedTree(c, i, oldPar, newPar, dst[|dst| - 1]);
             j in e && k in e[j].kids && l in e[j].kids && k in e && l in e && e[k].name == e[l].name
    ensures k == l
  {
    SetupFacts(c, src, dst, i, oldPar, newPar);
    KidAfterRename(c, src, dst, i, oldPar, newPar, j, k);
    KidAfterRename(c, src, dst, i, oldPar, newPar, j, l);
    hide WellFormed, UniqueNames, RenamedTree, Below;
    if k != i { ChildIs(c, j, k); }
    if l != i { ChildIs(c, j, l); }
  }

  lemma KidAfterRename(c: Cloud, src: Path, dst: Path, i: Id, oldPar: Id, newPar: Id, j: Id, k: Id)
    requires RenameSetup(c, src, dst, i, oldPar, newPar)
    requires var e := RenamedTree(c, i, oldPar, newPar, dst[|dst| - 1]); j in e && k in e[j].kids && k in e
    ensures var e := RenamedTree(c, i, oldPar, newPar, dst[|dst| - 1]);
            j in c && k in c && e[k].name == (if k == i then dst[|dst| - 1] else c[k].name)
    ensures if k == i then j == newPar else k in c[j].kids && Some(k) != Walk(c, ROOT, dst)
  {
    RenamedKids(c, src, dst, i, oldPar, newPar, j, k);
  }

  lemma ChildAfterRename(c: Cloud, src: Path, dst: Path, i: Id, oldPar: Id, newPar: Id, j: Id, z: Name)
    requires RenameSetup(c, src, dst, i, oldPar, newPar)
    requires j in RenamedTree(c, i, oldPar, newPar, dst[|dst| - 1])
    ensures Child(RenamedTree(c, i, oldPar, newPar, dst[|dst| - 1]), j, z) ==
            if j == newPar && z == dst[|dst| - 1] then Some(i)
            else if Child(c, j, z) == Some(i) then None
            else Child(c, j, z)
  {
    var x := dst[|dst| - 1];
    var e := RenamedTree(c, i, oldPar, newPar, x);
    RenamedWellFormed(c, src, dst, i, oldPar, newPar);
    RenamedUniqueNames(c, src, dst, i, oldPar, newPar);
    SetupFacts(c, src, dst, i, oldPar, newPar);
    RenamedDomain(c, src, dst, i, oldPar, newPar, i);
    RenamedKids(c, src, dst, i, oldPar, newPar, j, i);
    if j == newPar && z == x {
      hide WellFormed, UniqueNames, Below, RenamedTree;
      ChildIs(e, j, i);
    } else if Child(c, j, z).Some? && Child(c, j, z).value != i {
      var k := Child(c, j, z).value;
      RenamedKids(c, src, dst, i, oldPar, newPar, j, k);
      ChildFound(c, j, z);
      if Some(k) == Walk(c, ROOT, dst) { OneParent(c, j, newPar, k); }
      KidsExist(e, j, k);
      KidAfterRename(c, src, dst, i, oldPar, newPar, j, k);
      hide WellFormed, UniqueNames, Below, RenamedTree;
      ChildIs(e, j, k);
    } else if Child(e, j, z).Some? {
      var k := Child(e, j, z).value;
      hide WellFormed, UniqueNames, Below, RenamedTree;
      KidAfterRename(c, src, dst, i, oldPar, newPar, j, k);
      if k != i { ChildIs(c, j, k); }
    }
  }

  lemma ChildFound(c: Cloud, j: Id, z: Name)
    requires Child(c, j, z).Some?
    ensures j in c && Child(c, j, z).value in c[j].kids && Child(c, j, z).value in c
    ensures c[Child(c, j, z).value].name == z
  {
  }

  lemma OneParent(c: Cloud, j: Id, l: Id, k: Id)
    requires WellFormed(c) && j in c && l in c && k in c[j].kids && k in c[l].kids
    ensures j == l
  {
  }

  lemma KidsExist(c: Cloud, j: Id, k: Id)
    requires WellFormed(c) && j in c && k in c[j].kids
    ensures k in c
  {
  }

  lemma AtNewParent(c: Cloud, src: Path, dst: Path, i: Id, oldPar: Id, newPar: Id, q: Path)
    requires RenameSetup(c, src, dst, i, oldPar, newPar) && Walk(c, ROOT, q) == Some(newPar)
    ensures q + [dst[|dst| - 1]] == dst
  {
    hide WellFormed, UniqueNames, Walk;
    WalkInjective(c, q, dst[..|dst| - 1]);
  }

  lemma AtSource(c: Cloud, src: Path, dst: Path, i: Id, oldPar: Id, newPar: Id, q: Path, j: Id, z: Name)
    requires RenameSetup(c, src, dst, i, oldPar, newPar)
    requires Walk(c, ROOT, q) == Some(j) && Child(c, j, z) == Some(i)
    ensures q + [z] == src
  {
    hide WellFormed, UniqueNames, Walk, Child;
    WalkSnoc(c, ROOT, q, z);
    WalkInjective(c, q + [z], src);
  }

  lemma StepElsewhere(c: Cloud, src: Path, dst: Path, i: Id, oldPar: Id, newPar: Id, q: Path, z: Name)
    requires RenameSetup(c, src, dst, i, oldPar, newPar) && !(dst <= q + [z])
    requires Walk(RenamedTree(c, i, oldPar, newPar, dst[|dst| - 1]), ROOT, q) ==
             if src <= q then None else Walk(c, ROOT, q)
    ensures Walk(RenamedTree(c, i, oldPar, newPar, dst[|dst| - 1]), ROOT, q + [z]) ==
            if src <= q + [z] then None else Walk(c, ROOT, q + [z])
  {
    hide WellFormed, UniqueNames, Below, RenamedTree, Child, Walk;
    var e := RenamedTree(c, i, oldPar, newPar, dst[|dst| - 1]);
    PrefixOfSnoc(src, q, z);
    WalkSnoc(e, ROOT, q, z);
    WalkSnoc(c, ROOT, q, z);
    if Walk(e, ROOT, q).Some? {
      var j := Walk(e, ROOT, q).value;
      WalkStays(e, ROOT, q);
      ChildAfterRename(c, src, dst, i, oldPar, newPar, j, z);
      if j == newPar { AtNewParent(c, src, dst, i, oldPar, newPar, q); }
      if Child(c, j, z) == Some(i) { AtSource(c, src, dst, i, oldPar, newPar, q, j, z); }
    }
  }

  lemma {:induction false} WalkElsewhere(c: Cloud, src: Path, dst: Path, i: Id, oldPar: Id, newPar: Id, p: Path)
    requires RenameSetup(c, src, dst, i, oldPar, newPar) && !(dst <= p)
    ensures Walk(RenamedTree(c, i, oldPar, newPar, dst[|dst| - 1]), ROOT, p) ==
            if src <= p then None else Walk(c, ROOT, p)
    decreases |p|
  {
    hide WellFormed, UniqueNames, Below, RenamedTree, Child, Walk;
    if p == [] {
      RenamedWellFormed(c, src, dst, i, oldPar, newPar);
      WalkRoot(c);
      WalkRoot(RenamedTree(c, i, oldPar, newPar, dst[|dst| - 1]));
    } else {
      var q, z := p[..|p| - 1], p[|p| - 1];
      assert p == q + [z];
      PrefixOfSnoc(dst, q, z);
      WalkElsewhere(c, src, dst, i, oldPar, newPar, q);
      StepElsewhere(c, src, dst, i, oldPar, newPar, q, z);
    }
  }

  lemma StepInside(c: Cloud, src: Path, dst: Path, i: Id, oldPar: Id, newPar: Id, q: Path, z: Name)
    requires RenameSetup(c, src, dst, i, oldPar, newPar)
    requires Walk(RenamedTree(c, i, oldPar, newPar, dst[|dst| - 1]), ROOT, dst + q) == Walk(c, ROOT, src + q)
    ensures Walk(RenamedTree(c, i, oldPar, newPar, dst[|dst| - 1]), ROOT, (dst + q) + [z]) ==
            Walk(c, ROOT, (src + q) + [z])
  {
    hide WellFormed, UniqueNames, Below, RenamedTree, Child, Walk;
    var e := RenamedTree(c, i, oldPar, newPar, dst[|dst| - 1]);
    WalkSnoc(e, ROOT, dst + q, z);
    WalkSnoc(c, ROOT, src + q, z);
    if Walk(c, ROOT, src + q).Some? {
      var j := Walk(c, ROOT, src + q).value;
      WalkStays(e, ROOT, dst + q);
      ChildAfterRename(c, src, dst, i, oldPar, newPar, j, z);
      if j == newPar {
        assert src <= (src + q) + [dst[|dst| - 1]];
        AtNewParent(c, src, dst, i, oldPar, newPar, src + q);
      }
      if Child(c, j, z) == Some(i) {
        AtSource(c, src, dst, i, oldPar, newPar, src + q, j, z);
      }
    }
  }

  lemma {:induction false} WalkInside(c: Cloud, src: Path, dst: Path, i: Id, oldPar: Id, newPar: Id, r: Path)
    requires RenameSetup(c, src, dst, i, oldPar, newPar)
    ensures Walk(RenamedTree(c, i, oldPar, newPar, dst[|dst| - 1]), ROOT, dst + r) == Walk(c, ROOT, src + r)
    decreases |r|
  {
    hide WellFormed, UniqueNames, Below, RenamedTree, Child, Walk;
    if r == [] {
      var e := RenamedTree(c, i, oldPar, newPar, dst[|dst| - 1]);
      var up, x := dst[..|dst| - 1], dst[|dst| - 1];
      assert dst + r == dst == up + [x] && src + r == src;
      PrefixOfSnoc(src, up, x);
      WalkElsewhere(c, src, dst, i, oldPar, newPar, up);
      WalkSnoc(e, ROOT, up, x);
      WalkStays(e, ROOT, up);
      ChildAfterRename(c, src, dst, i, oldPar, newPar, newPar, x);
    } else {
      var q, z := r[..|r| - 1], r[|r| - 1];
      assert dst + r == (dst + q) + [z] && src + r == (src + q) + [z];
      WalkInside(c, src, dst, i, oldPar, newPar, q);
      StepInside(c, src, dst, i, oldPar, newPar, q, z);
    }
  }

  /** What was at or below src is at dst and below, what was at or below dst is gone, and the rest is where it was. */
  ghost predicate Substituted(c: Cloud, d: Cloud, src: Path, dst: Path) {
    && (forall p :: Walk(d, ROOT, p) ==
                    if dst <= p then Walk(c, ROOT, src + p[|dst|..]) else if src <= p then None else Walk(c, ROOT, p))
    && forall i :: i in d ==> i in c && d[i].folder == c[i].folder
  }

  /**
   * A rename is a substitution on paths: the subtree at src is found at dst, nothing is left at src,
   * what stood at dst is gone, and every other path leads where it led before.
   */
  lemma WalkAfterRename(c: Cloud, src: Path, dst: Path, i: Id, oldPar: Id, newPar: Id, p: Path)
    requires RenameSetup(c, src, dst, i, oldPar, newPar)
    ensures Walk(RenamedTree(c, i, oldPar, newPar, dst[|dst| - 1]), ROOT, p) ==
            if dst <= p then Walk(c, ROOT, src + p[|dst|..])
            else if src <= p then None
            else Walk(c, ROOT, p)
  {
    hide WellFormed, UniqueNames, RenamedTree, Walk;
    if dst <= p {
      assert dst + p[|dst|..] == p;
      WalkInside(c, src, dst, i, oldPar, newPar, p[|dst|..]);
    } else {
      WalkElsewhere(c, src, dst, i, oldPar, newPar, p);
    }
  }
}
