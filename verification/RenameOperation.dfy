/** Renaming as a whole: the moved subtree, the replaced one, and what the cache still knows. */
module RenameOperation {
  import opened Basics
  import opened CloudTree
  import opened CloudUpdates
  import opened CloudRename
  import opened LoadedTree
  import opened TreeUpdates
  import opened NodeCache
  import opened Loading
  import opened TreeRemoval
  import opened Removals
  import opened Operations

  /** The renamed node m, its folder p, the new folder q, and the node y standing at the new path, if any. */
  datatype Renaming = Renaming(src: Path, dst: Path, m: Node, p: Node, q: Node, y: Option<Node>)

  ghost function IdIn(t: Tree, n: Node): Id {
    if n in t then t[n].id else ROOT
  }

  ghost function NewName(r: Renaming): Name {
    if r.dst == [] then "" else r.dst[|r.dst| - 1]
  }

  ghost function NewUp(r: Renaming): Path {
    if r.dst == [] then [] else r.dst[..|r.dst| - 1]
  }

  ghost predicate Renames(c: Cloud, root: Node, s: Snapshot, r: Renaming) {
    && WellFormed(c) && UniqueNames(c) && Mirrored(c, root, s) && s.at.Keys == s.tree.Keys
    && r.src != [] && r.dst != [] && !(r.src <= r.dst)
    && r.m in s.tree && Walk(c, ROOT, r.src) == Some(s.tree[r.m].id) && s.tree[r.m].parent == r.p && r.p in s.tree
    && r.q in s.tree && Walk(c, ROOT, NewUp(r)) == Some(s.tree[r.q].id) && s.tree[r.q].filled
    && (match r.y
        case None => Walk(c, ROOT, r.dst) == None
        case Some(n) => n in s.tree && Walk(c, ROOT, r.dst) == Some(s.tree[n].id))
  }

  /** The drive right after the update request. */
  ghost function MovedCloud(c: Cloud, s: Snapshot, r: Renaming): Cloud {
    if IdIn(s.tree, r.m) in c
    then UpdateFor(c, IdIn(s.tree, r.m), IdIn(s.tree, r.p), IdIn(s.tree, r.q), NewName(r)) else c
  }

  /** Memory and cache right after the update request. */
  ghost function MovedSnap(s: Snapshot, r: Renaming): Snapshot {
    if r.m in s.tree && r.m in s.at && r.q in s.at && s.at[r.m] != []
    then Snapshot(MovedTree(s.tree, r.m, r.p, r.q, NewName(r)), MovedLineage(s.at, r.m, r.q),
                  Purged(s.maps, r.m, s.tree[r.m].id))
    else s
  }

  /** The drive once what stood at the new path is gone. */
  ghost function FinalCloud(c: Cloud, s: Snapshot, r: Renaming): Cloud {
    if IdIn(s.tree, r.m) in c
    then RenamedTree(c, IdIn(s.tree, r.m), IdIn(s.tree, r.p), IdIn(s.tree, r.q), NewName(r)) else c
  }

  ghost predicate DriveSetup(c: Cloud, s: Snapshot, r: Renaming) {
    RenameSetup(c, r.src, r.dst, IdIn(s.tree, r.m), IdIn(s.tree, r.p), IdIn(s.tree, r.q))
  }

  lemma RenamesFacts(c: Cloud, root: Node, s: Snapshot, r: Renaming)
    requires Renames(c, root, s, r)
    ensures WellFormed(c) && UniqueNames(c) && Mirrors(c, s.tree, root, s.at) && Mirrored(c, root, s)
    ensures r.dst == NewUp(r) + [NewName(r)] && r.src == r.src[..|r.src| - 1] + [r.src[|r.src| - 1]]
    ensures !(r.src <= NewUp(r)) && !(r.src <= r.dst)
  {
    hide WellFormed, UniqueNames, Mirrors, Agrees;
    PrefixOfSnoc(r.src, NewUp(r), NewName(r));
  }

  lemma MovedIsNotRoot(c: Cloud, root: Node, s: Snapshot, r: Renaming)
    requires Renames(c, root, s, r)
    ensures r.m != root && IdIn(s.tree, r.m) != ROOT && IdIn(s.tree, r.m) in c
  {
    RenamesFacts(c, root, s, r);
    AtRoot(c, root, s, r.m, r.src);
    FaithfulIds(c, root, s, r.m);
  }

  lemma FaithfulIds(c: Cloud, root: Node, s: Snapshot, n: Node)
    requires Mirrors(c, s.tree, root, s.at) && n in s.tree
    ensures s.tree[n].id in c && (s.tree[n].id == ROOT ==> n == root)
  {
    assert NodeOk(c, s.tree, root, s.at, n);
    IdsDiffer(c, s.tree, root, s.at, n, root);
  }

  lemma ParentsOnDrive(c: Cloud, root: Node, s: Snapshot, r: Renaming)
    requires Renames(c, root, s, r)
    ensures DriveSetup(c, s, r)
  {
    RenamesFacts(c, root, s, r);
    MovedIsNotRoot(c, root, s, r);
    hide WellFormed, UniqueNames, Mirrors, Mirrored, Walk;
    OwnerOnPath(c, s.tree, root, s.at, r.m, r.src[..|r.src| - 1], r.src[|r.src| - 1]);
    FaithfulIds(c, root, s, r.p);
    FilledIsFolder(c, root, s, r.q);
  }

  lemma OutsideMoved(c: Cloud, root: Node, s: Snapshot, r: Renaming)
    requires Renames(c, root, s, r)
    ensures MoveSetup(c, s.tree, root, s.at, r.m, r.p, r.q) && s.at[r.m] != []
  {
    RenamesFacts(c, root, s, r);
    MovedIsNotRoot(c, root, s, r);
    hide WellFormed, UniqueNames, Mirrors, Mirrored, Walk;
    PathsAndLineages(c, root, s, r.m, r.q, r.src, NewUp(r));
  }

  lemma OccupantFacts(c: Cloud, root: Node, s: Snapshot, r: Renaming)
    requires Renames(c, root, s, r) && r.y.Some?
    ensures var n := r.y.value; n in s.tree[r.q].next && n != r.m && n in s.at && !(s.at[r.m] <= s.at[n])
  {
    RenamesFacts(c, root, s, r);
    hide WellFormed, UniqueNames, Mirrors, Mirrored, Walk;
    var n := r.y.value;
    OwnerOnPath(c, s.tree, root, s.at, n, NewUp(r), NewName(r));
    var o: Node := s.tree[n].parent;
    IdsDiffer(c, s.tree, root, s.at, o, r.q);
    PathsAndLineages(c, root, s, r.m, n, r.src, r.dst);
  }

  /** The update request keeps memory a mirror of the drive. */
  lemma MoveKeepsStructured(c: Cloud, root: Node, s: Snapshot, r: Renaming)
    requires Renames(c, root, s, r)
    ensures Structured(MovedCloud(c, s, r), root, MovedSnap(s, r))
  {
    RenamesFacts(c, root, s, r);
    OutsideMoved(c, root, s, r);
    MovedIsNotRoot(c, root, s, r);
    FilledIsFolder(c, root, s, r.q);
    hide WellFormed, UniqueNames, Mirrors, Mirrored, Walk, UpdateFor, Purged, MovedTree, MovedLineage, MoveSetup;
    MoveMirrors(c, s.tree, root, s.at, r.m, r.p, r.q, NewName(r));
    MovedWellFormed(c, root, s, r);
  }

  lemma MovedIds(s: Snapshot, r: Renaming)
    ensures IdsOf(MovedTree(s.tree, r.m, r.p, r.q, NewName(r))) == IdsOf(s.tree)
  {
  }

  lemma MovedWellFormed(c: Cloud, root: Node, s: Snapshot, r: Renaming)
    requires WellFormed(c) && IdIn(s.tree, r.m) in c && IdIn(s.tree, r.m) != ROOT
    requires IdIn(s.tree, r.q) in c && c[IdIn(s.tree, r.q)].folder
    ensures WellFormed(MovedCloud(c, s, r))
  {
    var i, pi, qi := IdIn(s.tree, r.m), IdIn(s.tree, r.p), IdIn(s.tree, r.q);
    hide WellFormed, Updated;
    UpdatedWellFormed(c, i, NewName(r), if qi == pi then None else Some(qi));
  }

  lemma OccupantMoved(c: Cloud, root: Node, s: Snapshot, r: Renaming)
    requires Renames(c, root, s, r) && r.y.Some?
    ensures var t := MovedSnap(s, r);
            && r.q in t.tree && r.y.value in t.tree[r.q].next
            && r.y.value in t.tree && t.tree[r.y.value].id == s.tree[r.y.value].id
  {
    hide Mirrors, WellFormed, UniqueNames, Mirrored, Walk, MovedLineage;
    OccupantFacts(c, root, s, r);
    OutsideMoved(c, root, s, r);
    hide Renames;
  }

  /** The update request, then the removal of what stood at the new path. */
  ghost predicate RenameDone(c: Cloud, root: Node, s: Snapshot, r: Renaming, v: World, log: seq<Event>,
                             order: seq<Node>) {
    var w := World(MovedCloud(c, s, r), MovedSnap(s, r), log);
    match r.y
    case None => v == w && order == []
    case Some(n) => RemovedOne(root, w, v, r.q, n, order)
  }

  lemma DoneOnDrive(c: Cloud, root: Node, s: Snapshot, r: Renaming, v: World, log: seq<Event>, order: seq<Node>)
    requires Renames(c, root, s, r) && RenameDone(c, root, s, r, v, log, order)
    ensures v.cloud == FinalCloud(c, s, r) && Structured(v.cloud, root, v.snap)
  {
    ParentsOnDrive(c, root, s, r);
    SetupFacts(c, r.src, r.dst, IdIn(s.tree, r.m), IdIn(s.tree, r.p), IdIn(s.tree, r.q));
    MoveKeepsStructured(c, root, s, r);
    if r.y.Some? { OccupantMoved(c, root, s, r); }
    hide Structured, Removed, UpdateFor, Cut, PostOrder, WellFormed, UniqueNames, Mirrored, Walk, Child, Below,
      MovedSnap, RenameSetup;
  }

  /** The drive after a rename, path by path: the substitution of dst for src, and every entry is of its old kind. */
  lemma WalksAfter(c: Cloud, root: Node, s: Snapshot, r: Renaming, v: World, log: seq<Event>, order: seq<Node>)
    requires Renames(c, root, s, r) && RenameDone(c, root, s, r, v, log, order)
    ensures Substituted(c, v.cloud, r.src, r.dst)
  {
    hide Renames, RenameDone, Structured, Walk, FinalCloud;
    DoneOnDrive(c, root, s, r, v, log, order);
    ParentsOnDrive(c, root, s, r);
    forall p
      ensures Walk(v.cloud, ROOT, p) ==
              if r.dst <= p then Walk(c, ROOT, r.src + p[|r.dst|..])
              else if r.src <= p then None
              else Walk(c, ROOT, p)
    {
      FinalWalk(c, s, r, p);
    }
    FinalKinds(c, s, r);
  }

  lemma FinalKinds(c: Cloud, s: Snapshot, r: Renaming)
    requires DriveSetup(c, s, r)
    ensures forall k :: k in FinalCloud(c, s, r) ==> k in c && FinalCloud(c, s, r)[k].folder == c[k].folder
  {
    hide WellFormed, UniqueNames, Walk, Below, RenameSetup, Without;
    var i, oldPar, newPar := IdIn(s.tree, r.m), IdIn(s.tree, r.p), IdIn(s.tree, r.q);
    if i in c { RenamedKinds(c, i, oldPar, newPar, NewName(r)); }
  }

  lemma RenamedKinds(c: Cloud, i: Id, oldPar: Id, newPar: Id, x: Name)
    requires i in c
    ensures var d := RenamedTree(c, i, oldPar, newPar, x); forall k :: k in d ==> k in c && d[k].folder == c[k].folder
  {
    hide Below, Without, Child;
    var d := UpdateFor(c, i, oldPar, newPar, x);
    assert forall k :: k in d ==> k in c && d[k].folder == c[k].folder;
  }

  // ---------- who is left ----------

  /** In the moved state the subtree of the replaced node has lost the moved node and nothing else. */
  lemma MovedOutOfReach(c: Cloud, root: Node, s: Snapshot, r: Renaming, n: Node)
    requires Renames(c, root, s, r) && r.y.Some? && n in s.tree
    ensures var bt := MovedSnap(s, r).at;
            r.y.value in bt && n in bt && r.y.value in s.at &&
            (bt[r.y.value] <= bt[n] <==> s.at[r.y.value] <= s.at[n] && !(s.at[r.m] <= s.at[n]))
  {
    OccupantFacts(c, root, s, r);
    OutsideMoved(c, root, s, r);
    if s.at[r.m] <= s.at[n] { NotUnderOccupant(c, root, s, r, n); }
    hide Renames, MoveSetup;
  }

  lemma NotUnderOccupant(c: Cloud, root: Node, s: Snapshot, r: Renaming, n: Node)
    requires Renames(c, root, s, r) && r.y.Some? && n in s.tree && s.at[r.m] <= s.at[n]
    ensures var bt := MovedSnap(s, r).at; r.y.value in bt && n in bt && !(bt[r.y.value] <= bt[n])
  {
    RenamesFacts(c, root, s, r);
    ParentsOnDrive(c, root, s, r);
    MoveKeepsStructured(c, root, s, r);
    OccupantMoved(c, root, s, r);
    SameNodes(s, r, n);
    SameNodes(s, r, r.y.value);
    OutsideMoved(c, root, s, r);
    hide WellFormed, UniqueNames, Mirrors, Mirrored, Walk, UpdateFor, Below, RenameSetup,
      MoveSetup;
    LineageBelow(c, s.tree, root, s.at, r.m, n);
    var t, d := MovedSnap(s, r), MovedCloud(c, s, r);
    ReplacedSubtree(c, r.src, r.dst, IdIn(s.tree, r.m), IdIn(s.tree, r.p), IdIn(s.tree, r.q), IdIn(s.tree, r.y.value));
    StructuredKeys(d, root, t);
    if t.at[r.y.value] <= t.at[n] { LineageBelow(d, t.tree, root, t.at, r.y.value, n); }
  }

  lemma SameNodes(s: Snapshot, r: Renaming, n: Node)
    requires n in s.tree
    ensures n in MovedSnap(s, r).tree
    ensures MovedSnap(s, r).tree[n].id == s.tree[n].id && MovedSnap(s, r).tree[n].filled == s.tree[n].filled
    ensures MovedSnap(s, r).tree.Keys == s.tree.Keys
  {
  }

  /** All nodes survive but those the replaced node owned after the move; ids never change. */
  lemma Survivors(c: Cloud, root: Node, s: Snapshot, r: Renaming, v: World, log: seq<Event>, order: seq<Node>, n: Node)
    requires Renames(c, root, s, r) && RenameDone(c, root, s, r, v, log, order) && n in s.tree
    ensures n in v.snap.tree <==>
            r.y.None? || r.y.value !in s.at || s.at[r.m] <= s.at[n] || !(s.at[r.y.value] <= s.at[n])
    ensures n in v.snap.tree ==> v.snap.tree[n].id == s.tree[n].id
    ensures v.snap.tree.Keys <= s.tree.Keys
  {
    SameNodes(s, r, n);
    if r.y.Some? {
      MovedOutOfReach(c, root, s, r, n);
      OccupantMoved(c, root, s, r);
      hide Renames, MovedSnap, Structured, PostOrder, MapsWithout, Without;
      OneLeaves(root, s, r, MovedCloud(c, s, r), v, log, order);
    }
  }

  lemma OneLeaves(root: Node, s: Snapshot, r: Renaming, d: Cloud, v: World, log: seq<Event>, order: seq<Node>)
    requires r.y.Some? && RemovedOne(root, World(d, MovedSnap(s, r), log), v, r.q, r.y.value, order)
    ensures var t := MovedSnap(s, r);
            && r.y.value in t.at
            && v.snap.tree.Keys == t.tree.Keys - Subtree(t.at, r.y.value)
            && (forall n :: n in v.snap.tree ==> n in t.tree && v.snap.tree[n].id == t.tree[n].id)
            && (forall k :: k in order <==> k in Subtree(t.at, r.y.value))
            && SameCache(t.tree, t.maps, v.snap.maps, order)
  {
    hide Structured, PartOfRemoving, SameCache, SameLog, Without, MovedSnap;
  }

  /** Of live nodes the cache loses the renamed one and those that go, of paths only those they are filed under. */
  lemma CacheLess(c: Cloud, root: Node, s: Snapshot, r: Renaming, v: World, log: seq<Event>, order: seq<Node>, n: Node)
    requires Renames(c, root, s, r) && RenameDone(c, root, s, r, v, log, order) && n in s.tree
    ensures n in v.snap.maps.nodes <==> n in s.maps.nodes && n != r.m && n in v.snap.tree
    ensures n in v.snap.maps.nodes ==> v.snap.maps.nodes[n] == s.maps.nodes[n]
    ensures forall p :: p in v.snap.maps.paths ==> p in s.maps.paths && v.snap.maps.paths[p] == s.maps.paths[p]
    ensures n in s.maps.nodes && n !in v.snap.maps.nodes ==> s.maps.nodes[n] !in v.snap.maps.paths
  {
    hide Mirrors, Mirrored, Renames, WellFormed, UniqueNames, MovedTree, MovedLineage, MovedSnap, RemovedOne, Subtree;
    MovedCache(c, root, s, r);
    SameNodes(s, r, n);
    if r.y.Some? {
      var t := MovedSnap(s, r);
      OneLeaves(root, s, r, MovedCloud(c, s, r), v, log, order);
      PurgedLess(t.maps, t.tree, order);
    }
  }

  /** The cache loses the renamed node and the nodes that are gone, and nothing else. */
  lemma CacheAfter(c: Cloud, root: Node, s: Snapshot, r: Renaming, v: World, log: seq<Event>, order: seq<Node>, n: Node)
    requires Renames(c, root, s, r) && Faithful(c, root, s) && RenameDone(c, root, s, r, v, log, order)
    ensures n in v.snap.maps.nodes <==> n in s.maps.nodes && n != r.m && n in v.snap.tree
    ensures n in v.snap.maps.nodes ==> n in s.tree && v.snap.maps.nodes[n] == s.maps.nodes[n]
  {
    hide Mirrors, Mirrored, Renames, WellFormed, UniqueNames, Consistent, Agrees, TrueEntries, RenameDone;
    CachedAreLive(s, n);
    RenameMapsInStep(c, root, s, r, v, log, order);
    CachedAreLive(v.snap, n);
    if n in s.tree {
      CacheLess(c, root, s, r, v, log, order, n);
    } else {
      NobodyNew(c, root, s, r, v, log, order);
    }
  }

  lemma NobodyNew(c: Cloud, root: Node, s: Snapshot, r: Renaming, v: World, log: seq<Event>, order: seq<Node>)
    requires Renames(c, root, s, r) && RenameDone(c, root, s, r, v, log, order)
    ensures v.snap.tree.Keys <= s.tree.Keys
  {
    hide Renames, MovedSnap;
    SameNodes(s, r, r.m) by { RenamedIsThere(c, root, s, r); }
    if r.y.Some? {
      OneLeaves(root, s, r, MovedCloud(c, s, r), v, log, order);
    }
  }

  lemma RenamedIsThere(c: Cloud, root: Node, s: Snapshot, r: Renaming)
    requires Renames(c, root, s, r)
    ensures r.m in s.tree
  {
  }

  /** Three maps in step stay so. */
  lemma RenameMapsInStep(c: Cloud, root: Node, s: Snapshot, r: Renaming, v: World, log: seq<Event>, order: seq<Node>)
    requires Renames(c, root, s, r) && Faithful(c, root, s) && RenameDone(c, root, s, r, v, log, order)
    ensures Consistent(v.snap.maps, IdsOf(v.snap.tree))
  {
    hide Renames, Mirrors, WellFormed, UniqueNames, Agrees, TrueEntries, RemovedOne, MovedTree, MovedLineage, Walk,
      Consistent;
    OutsideMoved(c, root, s, r);
    MovedIds(s, r);
    RenamedIsThere(c, root, s, r);
    PurgeExact(s.maps, IdsOf(s.tree), r.m);
    if r.y.Some? {
      OneForgets(root, World(MovedCloud(c, s, r), MovedSnap(s, r), log), v, r.q, r.y.value, order);
    }
  }

  lemma MovedCache(c: Cloud, root: Node, s: Snapshot, r: Renaming)
    requires Renames(c, root, s, r)
    ensures r.m in s.tree && MovedSnap(s, r).maps == Purged(s.maps, r.m, s.tree[r.m].id)
  {
    hide WellFormed, UniqueNames, Mirrored, Walk, Mirrors, MovedTree, MovedLineage;
    OutsideMoved(c, root, s, r);
  }

  lemma CachedAreLive(s: Snapshot, n: Node)
    requires Consistent(s.maps, IdsOf(s.tree))
    ensures n in s.maps.nodes ==> n in s.tree
  {
  }

  // ---------- what the cache still says ----------

  /** A cached node that survives is still found at its cached path unless that path lies strictly below the old one. */
  lemma EntryAfter(c: Cloud, root: Node, s: Snapshot, r: Renaming, v: World, log: seq<Event>, order: seq<Node>, n: Node)
    requires Renames(c, root, s, r) && Faithful(c, root, s) && RenameDone(c, root, s, r, v, log, order)
    requires n in v.snap.maps.nodes
    ensures n in s.maps.nodes && v.snap.maps.nodes[n] == s.maps.nodes[n] && n in v.snap.tree
    ensures Walk(v.cloud, ROOT, s.maps.nodes[n]) == Some(v.snap.tree[n].id) <==> !StrictlyBelow(r.src, s.maps.nodes[n])
  {
    CacheAfter(c, root, s, r, v, log, order, n);
    Survivors(c, root, s, r, v, log, order, n);
    DoneOnDrive(c, root, s, r, v, log, order);
    ParentsOnDrive(c, root, s, r);
    RenamesFacts(c, root, s, r);
    var p := s.maps.nodes[n];
    assert Walk(c, ROOT, p) == Some(s.tree[n].id);
    hide WellFormed, UniqueNames, Mirrors, Consistent, Faithful, TrueEntries, Walk, RenameDone, Structured, FinalCloud;
    FinalWalk(c, s, r, p);
    IdsDiffer(c, s.tree, root, s.at, n, r.m);
    if r.dst <= p {
      EntryInReplaced(c, root, s, r, v, log, order, n);
    }
  }

  lemma FinalWalk(c: Cloud, s: Snapshot, r: Renaming, p: Path)
    requires DriveSetup(c, s, r)
    ensures Walk(FinalCloud(c, s, r), ROOT, p) ==
            if r.dst <= p then Walk(c, ROOT, r.src + p[|r.dst|..]) else if r.src <= p then None else Walk(c, ROOT, p)
  {
    hide WellFormed, UniqueNames, RenamedTree, Walk;
    WalkAfterRename(c, r.src, r.dst, IdIn(s.tree, r.m), IdIn(s.tree, r.p), IdIn(s.tree, r.q), p);
  }

  /** An entry at or below the new path survives only inside the moved subtree, and then it is stale. */
  lemma EntryInReplaced(c: Cloud, root: Node, s: Snapshot, r: Renaming, v: World, log: seq<Event>, order: seq<Node>,
                        n: Node)
    requires Renames(c, root, s, r) && RenameDone(c, root, s, r, v, log, order)
    requires n in s.maps.nodes && n in s.tree && n in v.snap.tree && n != r.m
    requires r.dst <= s.maps.nodes[n] && Walk(c, ROOT, s.maps.nodes[n]) == Some(s.tree[n].id)
    ensures StrictlyBelow(r.src, s.maps.nodes[n])
    ensures Walk(c, ROOT, r.src + s.maps.nodes[n][|r.dst|..]) != Some(s.tree[n].id)
  {
    hide WellFormed, UniqueNames, Mirrors, Mirrored, Walk, RenameDone;
    var p := s.maps.nodes[n];
    RenamesFacts(c, root, s, r);
    Survivors(c, root, s, r, v, log, order, n);
    assert p == r.dst + p[|r.dst|..];
    WalkPrefix(c, r.dst, p);
    PathsAndLineages(c, root, s, r.y.value, n, r.dst, p);
    PathsAndLineages(c, root, s, r.m, n, r.src, p);
    assert r.src <= p;
    if r.src == p { WalkInjective(c, r.src, p); IdsDiffer(c, s.tree, root, s.at, n, r.m); }
    var q := r.src + p[|r.dst|..];
    if Walk(c, ROOT, q) == Some(s.tree[n].id) {
      WalkInjective(c, q, p);
      SamePrefix(r.src, r.dst, p);
    }
  }

  lemma SamePrefix(a: Path, b: Path, p: Path)
    requires a <= p && b <= p && a + p[|b|..] == p
    ensures a == b
  {
    assert |a + p[|b|..]| == |p|;
  }

  lemma WalkPrefix(c: Cloud, p: Path, q: Path)
    requires p <= q && Walk(c, ROOT, q).Some?
    ensures Walk(c, ROOT, p).Some?
  {
    assert q[..|p|] == p;
    if Walk(c, ROOT, p).None? { WalkCut(c, q, |p|); }
  }

  lemma EntryIsTrue(c: Cloud, root: Node, s: Snapshot, n: Node)
    requires Faithful(c, root, s) && n in s.maps.nodes
    ensures n in s.tree && Walk(c, ROOT, s.maps.nodes[n]) == Some(s.tree[n].id)
  {
  }

  /** Entries strictly below the old path are never purged. */
  lemma StaleEntryStays(c: Cloud, root: Node, s: Snapshot, r: Renaming, v: World, log: seq<Event>, order: seq<Node>,
                        n: Node)
    requires Renames(c, root, s, r) && Faithful(c, root, s) && RenameDone(c, root, s, r, v, log, order)
    requires n in s.maps.nodes && StrictlyBelow(r.src, s.maps.nodes[n])
    ensures n in v.snap.maps.nodes
  {
    hide WellFormed, UniqueNames, Mirrors, Consistent, Faithful, TrueEntries, Walk, RenameDone;
    RenamesFacts(c, root, s, r);
    EntryIsTrue(c, root, s, n);
    if n == r.m { WalkInjective(c, r.src, s.maps.nodes[n]); }
    Survivors(c, root, s, r, v, log, order, n);
    CacheAfter(c, root, s, r, v, log, order, n);
    PathsAndLineages(c, root, s, r.m, n, r.src, s.maps.nodes[n]);
  }

  /** No cached path lies strictly below the renamed one. */
  ghost predicate NothingCachedBelow(s: Snapshot, src: Path) {
    forall p :: p in s.maps.paths ==> !StrictlyBelow(src, p)
  }

  /** Whatever the cache says, a rename keeps the drive a tree with unique names, and memory a mirror of it. */
  lemma RenameKeepsMirrored(c: Cloud, root: Node, s: Snapshot, r: Renaming, v: World, log: seq<Event>, order: seq<Node>)
    requires Renames(c, root, s, r) && RenameDone(c, root, s, r, v, log, order)
    ensures WellFormed(v.cloud) && UniqueNames(v.cloud) && Mirrored(v.cloud, root, v.snap)
  {
    hide WellFormed, UniqueNames, Mirrors, Agrees, Walk, RenameDone, Renames, FinalCloud;
    DoneOnDrive(c, root, s, r, v, log, order);
    ParentsOnDrive(c, root, s, r);
    StructuredKeys(v.cloud, root, v.snap);
    FinalUnique(c, s, r);
    UniqueNamesAgree(v.cloud, v.snap.tree, root, v.snap.at);
  }

  /**
   * After a rename, memory mirrors the drive and the three maps agree in any case; the cache tells the truth
   * exactly when no cached path lay strictly below the old one.
   */
  lemma RenameOutcome(c: Cloud, root: Node, s: Snapshot, r: Renaming, v: World, log: seq<Event>, order: seq<Node>)
    requires Renames(c, root, s, r) && Faithful(c, root, s) && RenameDone(c, root, s, r, v, log, order)
    ensures WellFormed(v.cloud) && UniqueNames(v.cloud) && Mirrors(v.cloud, v.snap.tree, root, v.snap.at)
    ensures Agrees(v.cloud, v.snap.tree) && Consistent(v.snap.maps, IdsOf(v.snap.tree))
    ensures Faithful(v.cloud, root, v.snap) <==> NothingCachedBelow(s, r.src)
  {
    hide WellFormed, UniqueNames, Mirrors, Agrees, RenameDone, Renames, TrueEntries, Consistent, NothingCachedBelow;
    RenameKeepsMirrored(c, root, s, r, v, log, order);
    RenameMapsInStep(c, root, s, r, v, log, order);
    CacheTruth(c, root, s, r, v, log, order);
  }

  ghost function CachedBelow(paths: map<Path, Node>, src: Path): set<Path> {
    set p | p in paths && StrictlyBelow(src, p)
  }

  /** What misleads afterwards is what misled before, or was cached strictly below the old path. */
  lemma RenameKeepsSound(c: Cloud, root: Node, s: Snapshot, r: Renaming, v: World, log: seq<Event>, order: seq<Node>,
                         stale: set<Path>)
    requires Renames(c, root, s, r) && RenameDone(c, root, s, r, v, log, order) && Sound(c, root, s, stale)
    ensures WellFormed(v.cloud) && UniqueNames(v.cloud)
    ensures Sound(v.cloud, root, v.snap, stale + CachedBelow(s.maps.paths, r.src))
    ensures v.snap.maps.paths.Keys <= s.maps.paths.Keys
  {
    hide WellFormed, UniqueNames, Mirrors, Agrees, Walk, RenameDone, Renames;
    RenameKeepsMirrored(c, root, s, r, v, log, order);
    RenamedIsThere(c, root, s, r);
    CacheLess(c, root, s, r, v, log, order, r.m);
    forall p | p in v.snap.maps.paths && p !in stale && p !in CachedBelow(s.maps.paths, r.src)
      ensures var n := v.snap.maps.paths[p];
              && n in v.snap.tree && n in v.snap.maps.nodes && v.snap.maps.nodes[n] == p
              && Walk(v.cloud, ROOT, p) == Some(v.snap.tree[n].id)
    {
      CacheLess(c, root, s, r, v, log, order, s.maps.paths[p]);
      StillThere(c, root, s, r, v, log, order, s.maps.paths[p]);
    }
  }

  /** A filed node that survives is found where it is filed unless that is strictly below the old path. */
  lemma StillThere(c: Cloud, root: Node, s: Snapshot, r: Renaming, v: World, log: seq<Event>, order: seq<Node>, n: Node)
    requires Renames(c, root, s, r) && RenameDone(c, root, s, r, v, log, order)
    requires n in s.tree && n in s.maps.nodes && n in v.snap.tree && n != r.m
    requires Walk(c, ROOT, s.maps.nodes[n]) == Some(s.tree[n].id) && !StrictlyBelow(r.src, s.maps.nodes[n])
    ensures Walk(v.cloud, ROOT, s.maps.nodes[n]) == Some(v.snap.tree[n].id)
  {
    hide WellFormed, UniqueNames, Mirrors, Mirrored, Walk, RenameDone, Renames, Structured, FinalCloud;
    var p := s.maps.nodes[n];
    Survivors(c, root, s, r, v, log, order, n);
    DoneOnDrive(c, root, s, r, v, log, order);
    ParentsOnDrive(c, root, s, r);
    RenamesFacts(c, root, s, r);
    RenamedWalk(c, root, s, r);
    FinalWalk(c, s, r, p);
    if r.dst <= p {
      EntryInReplaced(c, root, s, r, v, log, order, n);
    } else if r.src <= p {
      assert r.src == p;
      IdsDiffer(c, s.tree, root, s.at, n, r.m);
    }
  }

  lemma RenamedWalk(c: Cloud, root: Node, s: Snapshot, r: Renaming)
    requires Renames(c, root, s, r)
    ensures r.m in s.tree && Walk(c, ROOT, r.src) == Some(s.tree[r.m].id)
  {
  }

  lemma FinalUnique(c: Cloud, s: Snapshot, r: Renaming)
    requires DriveSetup(c, s, r)
    ensures WellFormed(FinalCloud(c, s, r)) && UniqueNames(FinalCloud(c, s, r))
  {
    hide WellFormed, UniqueNames, RenamedTree, Walk;
    RenamedWellFormed(c, r.src, r.dst, IdIn(s.tree, r.m), IdIn(s.tree, r.p), IdIn(s.tree, r.q));
    RenamedUniqueNames(c, r.src, r.dst, IdIn(s.tree, r.m), IdIn(s.tree, r.p), IdIn(s.tree, r.q));
  }

  lemma CacheTruth(c: Cloud, root: Node, s: Snapshot, r: Renaming, v: World, log: seq<Event>, order: seq<Node>)
    requires Renames(c, root, s, r) && Faithful(c, root, s) && RenameDone(c, root, s, r, v, log, order)
    ensures TrueEntries(v.cloud, v.snap.tree, v.snap.maps) <==> NothingCachedBelow(s, r.src)
    ensures forall n :: n in v.snap.maps.nodes && !StrictlyBelow(r.src, v.snap.maps.nodes[n]) ==>
              n in v.snap.tree && Walk(v.cloud, ROOT, v.snap.maps.nodes[n]) == Some(v.snap.tree[n].id)
  {
    RenamesFacts(c, root, s, r);
    hide WellFormed, UniqueNames, Mirrors, Agrees, Walk, RenameDone, Renames, Faithful;
    forall n | n in v.snap.maps.nodes
      ensures n in s.maps.nodes && v.snap.maps.nodes[n] == s.maps.nodes[n] && n in v.snap.tree
      ensures Walk(v.cloud, ROOT, s.maps.nodes[n]) == Some(v.snap.tree[n].id) <==>
              !StrictlyBelow(r.src, s.maps.nodes[n])
    {
      EntryAfter(c, root, s, r, v, log, order, n);
    }
    forall p | p in s.maps.paths && StrictlyBelow(r.src, p)
      ensures s.maps.paths[p] in s.maps.nodes && s.maps.nodes[s.maps.paths[p]] == p
      ensures s.maps.paths[p] in v.snap.maps.nodes
    {
      StaleEntryStays(c, root, s, r, v, log, order, s.maps.paths[p]);
    }
  }

  /** A node without loaded children, such as any file, has nothing cached below it. */
  lemma ChildlessIsSafe(c: Cloud, root: Node, s: Snapshot, r: Renaming)
    requires Renames(c, root, s, r) && Faithful(c, root, s) && s.tree[r.m].next == []
    ensures NothingCachedBelow(s, r.src)
  {
    RenamesFacts(c, root, s, r);
    forall p | p in s.maps.paths
      ensures !StrictlyBelow(r.src, p)
    {
      var n := s.maps.paths[p];
      assert n in s.maps.nodes && s.maps.nodes[n] == p;
      if StrictlyBelow(r.src, p) {
        ChildlessBelow(c, root, s, r, n, p);
      }
    }
  }

  lemma ChildlessBelow(c: Cloud, root: Node, s: Snapshot, r: Renaming, n: Node, p: Path)
    requires Renames(c, root, s, r) && n in s.tree && Walk(c, ROOT, p) == Some(s.tree[n].id) && StrictlyBelow(r.src, p)
    ensures s.tree[r.m].next != []
  {
    RenamesFacts(c, root, s, r);
    hide WellFormed, UniqueNames, Consistent, Faithful, TrueEntries, Walk;
    PathsAndLineages(c, root, s, r.m, n, r.src, p);
    PathsAndLineages(c, root, s, n, r.m, p, r.src);
    BelowAChild(c, s.tree, root, s.at, r.m, n);
  }

  // ---------- the lookups before a rename ----------

  lemma LookupsKeep(s: Snapshot, u: Snapshot, folders: set<Id>, n: Node)
    requires Loaded(s, u, folders) && n in s.tree
    ensures n in u.tree && u.tree[n].id == s.tree[n].id && u.tree[n].parent == s.tree[n].parent
  {
  }

  lemma LookupsCacheElsewhere(s: Snapshot, u: Snapshot, path: Path, folders: set<Id>, src: Path)
    requires LookedUp(s, u, path, folders) && !StrictlyBelow(src, path)
    ensures NothingCachedBelow(s, src) <==> NothingCachedBelow(u, src)
  {
    forall p | p in u.maps.paths && StrictlyBelow(src, p)
      ensures p in s.maps.paths
    {
      if p <= path { PrefixTransitive(src, p, path); }
    }
  }

  /** The folder of the occupant of a path is loaded and is the entry one step up. */
  lemma OccupantParent(c: Cloud, root: Node, s: Snapshot, y: Node, dst: Path)
    requires WellFormed(c) && Mirrored(c, root, s) && y in s.tree && Walk(c, ROOT, dst) == Some(s.tree[y].id)
    ensures dst == [] <==> s.tree[y].parent == null
    ensures dst != [] ==> var q := s.tree[y].parent;
              q != null && q in s.tree && s.tree[q].filled && Walk(c, ROOT, dst[..|dst| - 1]) == Some(s.tree[q].id)
  {
    hide WellFormed, Mirrors, Agrees, Walk;
    AtRoot(c, root, s, y, dst);
    if dst != [] {
      assert dst == dst[..|dst| - 1] + [dst[|dst| - 1]];
      OwnerOnPath(c, s.tree, root, s.at, y, dst[..|dst| - 1], dst[|dst| - 1]);
    }
  }

  /** A lookup of a path leaves the folder one step up filled. */
  lemma LookupFillsParent(c: Cloud, root: Node, s: Snapshot, u: Snapshot, path: Path)
    requires Loaded(s, u, FoldersAlong(c, path)) && path != [] && FolderAt(c, path[..|path| - 1])
    ensures Walk(c, ROOT, path[..|path| - 1]).value in FilledIds(u.tree)
  {
  }

  lemma FilledStays(s: Snapshot, u: Snapshot, folders: set<Id>, i: Id)
    requires Loaded(s, u, folders) && i in FilledIds(s.tree)
    ensures i in FilledIds(u.tree)
  {
  }

  lemma FilledNode(c: Cloud, root: Node, s: Snapshot, q: Node)
    requires Mirrored(c, root, s) && q in s.tree && s.tree[q].id in FilledIds(s.tree)
    ensures s.tree[q].filled
  {
    FilledById(c, root, s, q);
  }

  /** The fields the update request touches, node by node. */
  lemma MovedFields(c: Cloud, root: Node, s: Snapshot, r: Renaming)
    requires Renames(c, root, s, r)
    ensures var t := MovedSnap(s, r).tree;
            && t.Keys == s.tree.Keys && r.m != r.p && r.m != r.q
            && t[r.m] == s.tree[r.m].(name := NewName(r), parent := r.q)
            && t[r.q] == s.tree[r.q].(next := Without(s.tree[r.q].next, r.m) + [r.m])
            && (r.p != r.q ==> t[r.p] == s.tree[r.p].(next := Without(s.tree[r.p].next, r.m)))
            && (forall n :: n in s.tree && n != r.m && n != r.p && n != r.q ==> t[n] == s.tree[n])
    ensures r.p != r.q ==> r.m !in s.tree[r.q].next
  {
    RenamesFacts(c, root, s, r);
    OutsideMoved(c, root, s, r);
    OwnedNode(c, s.tree, root, s.at, r.q, r.m);
    LineageEnds(c, s.tree, root, s.at, r.m);
    hide WellFormed, UniqueNames, Mirrors, Mirrored, Walk, Purged, MovedLineage, MoveSetup;
  }

  lemma MovedRequest(c: Cloud, root: Node, s: Snapshot, r: Renaming)
    requires Renames(c, root, s, r)
    ensures IdIn(s.tree, r.m) in c
    ensures MovedCloud(c, s, r) ==
            Updated(c, IdIn(s.tree, r.m), NewName(r), if r.q == r.p then None else Some(IdIn(s.tree, r.q)))
    ensures MovedSnap(s, r).maps == Purged(s.maps, r.m, IdIn(s.tree, r.m))
  {
    hide WellFormed, UniqueNames, Mirrors, Mirrored, Walk, Updated, Purged, MovedLineage;
    RenamesFacts(c, root, s, r);
    OutsideMoved(c, root, s, r);
    MovedIsNotRoot(c, root, s, r);
    IdsDiffer(c, s.tree, root, s.at, r.p, r.q);
  }

  lemma ResolvedRenames(c: Cloud, root: Node, u: Snapshot, r: Renaming)
    requires WellFormed(c) && UniqueNames(c) && Mirrored(c, root, u)
    requires r.src != [] && r.dst != [] && !(r.src <= r.dst)
    requires r.m in u.tree && Walk(c, ROOT, r.src) == Some(u.tree[r.m].id) && u.tree[r.m].parent == r.p && r.p in u.tree
    requires r.q in u.tree && Walk(c, ROOT, NewUp(r)) == Some(u.tree[r.q].id) && u.tree[r.q].filled
    requires match r.y
             case None => Walk(c, ROOT, r.dst) == None
             case Some(n) => n in u.tree && Walk(c, ROOT, r.dst) == Some(u.tree[n].id)
    ensures Renames(c, root, u, r)
  {
    hide WellFormed, UniqueNames, Mirrors, Agrees, Walk;
    MirroredParts(c, root, u);
    LineageKeys(c, root, u);
  }

  /** Every cache entry of s is in u as well. */
  ghost predicate StillCached(s: Snapshot, u: Snapshot) {
    forall p :: p in s.maps.paths ==> p in u.maps.paths && u.maps.paths[p] == s.maps.paths[p]
  }

  lemma StillTwice(s: Snapshot, u: Snapshot, v: Snapshot)
    requires StillCached(s, u) && StillCached(u, v)
    ensures StillCached(s, v)
  {
  }

  lemma StaysCached(s: Snapshot, u: Snapshot, path: Path, folders: set<Id>)
    requires LookedUp(s, u, path, folders)
    ensures StillCached(s, u)
  {
  }

  /** A node cached strictly below the renamed path keeps its entry, and the entry is wrong: nothing is there now. */
  lemma StaysStale(c: Cloud, root: Node, s: Snapshot, r: Renaming, v: World, log: seq<Event>, order: seq<Node>, p: Path)
    requires Renames(c, root, s, r) && Faithful(c, root, s) && RenameDone(c, root, s, r, v, log, order)
    requires p in s.maps.paths && StrictlyBelow(r.src, p) && !(r.dst <= p)
    ensures p in v.snap.maps.paths && v.snap.maps.paths[p] == s.maps.paths[p]
    ensures Walk(v.cloud, ROOT, p) == None
  {
    RenamesFacts(c, root, s, r);
    RenameOutcome(c, root, s, r, v, log, order);
    DoneOnDrive(c, root, s, r, v, log, order);
    ParentsOnDrive(c, root, s, r);
    var n := s.maps.paths[p];
    hide WellFormed, UniqueNames, Mirrors, Agrees, Walk, RenameDone, Renames, FinalCloud;
    assert n in s.maps.nodes && s.maps.nodes[n] == p;
    assert n in s.tree && Walk(c, ROOT, p) == Some(s.tree[n].id);
    FinalWalk(c, s, r, p);
    StaleEntryStays(c, root, s, r, v, log, order, n);
    CacheAfter(c, root, s, r, v, log, order, n);
  }

  /** Where a node below the renamed one is now; a lookup there hits the cache only for an entry stale itself. */
  lemma NowAt(c: Cloud, root: Node, s: Snapshot, r: Renaming, v: World, log: seq<Event>, order: seq<Node>, p: Path)
    requires Renames(c, root, s, r) && Faithful(c, root, s) && RenameDone(c, root, s, r, v, log, order)
    requires p in s.maps.paths && StrictlyBelow(r.src, p)
    ensures var n, q := s.maps.paths[p], r.dst + p[|r.src|..];
            && n in v.snap.tree && Walk(v.cloud, ROOT, q) == Some(v.snap.tree[n].id)
            && (q in v.snap.maps.paths ==> StrictlyBelow(r.src, q))
  {
    hide WellFormed, UniqueNames, Mirrors, Agrees, Walk, RenameDone, Renames, FinalCloud, Consistent, Faithful;
    var n, q := s.maps.paths[p], r.dst + p[|r.src|..];
    DoneOnDrive(c, root, s, r, v, log, order);
    ParentsOnDrive(c, root, s, r);
    CachedTrue(c, root, s, p);
    FinalWalk(c, s, r, q);
    assert q[|r.dst|..] == p[|r.src|..] && r.src + p[|r.src|..] == p;
    StaleEntryStays(c, root, s, r, v, log, order, n);
    CacheAfter(c, root, s, r, v, log, order, n);
    Survivors(c, root, s, r, v, log, order, n);
    RenameOutcome(c, root, s, r, v, log, order);
    if q in v.snap.maps.paths {
      PathComesFrom(v.snap.maps, IdsOf(v.snap.tree), q);
      NewEntryBelow(c, root, s, r, v, log, order, v.snap.maps.paths[q], q);
    }
  }

  lemma NewEntryBelow(c: Cloud, root: Node, s: Snapshot, r: Renaming, v: World, log: seq<Event>, order: seq<Node>,
                      k: Node, q: Path)
    requires Renames(c, root, s, r) && Faithful(c, root, s) && RenameDone(c, root, s, r, v, log, order)
    requires k in v.snap.maps.nodes && v.snap.maps.nodes[k] == q && r.dst <= q
    ensures StrictlyBelow(r.src, q)
  {
    hide WellFormed, UniqueNames, Mirrors, Agrees, Walk, RenameDone, Renames, FinalCloud, Consistent, Faithful;
    CacheAfter(c, root, s, r, v, log, order, k);
    RenamesFacts(c, root, s, r);
    EntryIsTrue(c, root, s, k);
    EntryInReplaced(c, root, s, r, v, log, order, k);
  }

  /**
   * The worst a stale entry can do: a lookup at the new path misses the cache and files the node there; the old path
   * still leads to it, and goes on doing so when the node is removed and freed.
   */
  lemma StaleEntryDangles(c: Cloud, root: Node, s: Snapshot, r: Renaming, v: World, log: seq<Event>, order: seq<Node>,
                          p: Path)
    requires Renames(c, root, s, r) && Faithful(c, root, s) && RenameDone(c, root, s, r, v, log, order)
    requires p in s.maps.paths && StrictlyBelow(r.src, p) && !(r.dst <= p)
    ensures var n, q := s.maps.paths[p], r.dst + p[|r.src|..];
            && n in v.snap.tree && Walk(v.cloud, ROOT, q) == Some(v.snap.tree[n].id)
            && OnePathEach(v.snap.maps) && q !in v.snap.maps.paths
            && var found := Inserted(v.snap.maps, q, v.snap.tree[n].id, n);
            && !OnePathEach(found)
            && var gone := Purged(found, n, v.snap.tree[n].id);
            && n !in gone.nodes && q !in gone.paths && p in gone.paths && gone.paths[p] == n
  {
    hide WellFormed, UniqueNames, Mirrors, Agrees, Walk, RenameDone, Renames, Faithful;
    var n, q := s.maps.paths[p], r.dst + p[|r.src|..];
    NowAt(c, root, s, r, v, log, order, p);
    StaysStale(c, root, s, r, v, log, order, p);
    RenameOutcome(c, root, s, r, v, log, order);
    assert r.dst <= q;
    // both r.src and r.dst above q would put one of them above the other
    if StrictlyBelow(r.src, q) {
      RenamesFacts(c, root, s, r);
      PrefixesNest(r.src, r.dst, q, p);
    }
    assert OnePathEach(v.snap.maps);
    InsertKeepsOnePath(v.snap.maps, q, v.snap.tree[n].id, n);
  }

  lemma PrefixesNest(a: Path, b: Path, q: Path, p: Path)
    requires a <= q && b <= q && a <= p
    ensures a <= b || b <= p
  {
  }

  /** The lookups of a rename cache nothing strictly below the old path. */
  lemma ResolvedCache(c: Cloud, s: Snapshot, s1: Snapshot, s2: Snapshot, u: Snapshot, src: Path, dst: Path,
                      folders: set<Id>)
    requires dst != [] && !(src <= dst)
    requires LookedUp(s, s1, src, FoldersAlong(c, src)) && LookedUp(s1, s2, dst, FoldersAlong(c, dst))
    requires LookedUp(s2, u, dst[..|dst| - 1], folders)
    ensures NothingCachedBelow(s, src) <==> NothingCachedBelow(u, src)
    ensures StillCached(s, u)
  {
    StaysCached(s, s1, src, FoldersAlong(c, src));
    StaysCached(s1, s2, dst, FoldersAlong(c, dst));
    StaysCached(s2, u, dst[..|dst| - 1], folders);
    hide LookedUp, FoldersAlong, NothingCachedBelow;
    var up := dst[..|dst| - 1];
    assert dst == up + [dst[|dst| - 1]];
    PrefixOfSnoc(src, up, dst[|dst| - 1]);
    LookupsCacheElsewhere(s, s1, src, FoldersAlong(c, src), src);
    LookupsCacheElsewhere(s1, s2, dst, FoldersAlong(c, dst), src);
    LookupsCacheElsewhere(s2, u, up, folders, src);
  }

  lemma FilledAfterRename(c: Cloud, root: Node, s: Snapshot, r: Renaming, v: World, log: seq<Event>, order: seq<Node>)
    requires Renames(c, root, s, r) && RenameDone(c, root, s, r, v, log, order)
    ensures FilledIds(v.snap.tree) == FilledIds(s.tree) * v.cloud.Keys
  {
    MovedFilled(c, root, s, r);
    if r.y.Some? {
      hide Renames, RemovedOne, MovedSnap, MovedCloud;
      FilledAfterOne(root, World(MovedCloud(c, s, r), MovedSnap(s, r), log), v, r.q, r.y.value, order);
    }
  }

  lemma MovedFilled(c: Cloud, root: Node, s: Snapshot, r: Renaming)
    requires Renames(c, root, s, r)
    ensures FilledIds(MovedSnap(s, r).tree) == FilledIds(s.tree) && FilledIds(s.tree) <= MovedCloud(c, s, r).Keys
  {
    hide Renames, Mirrors, MovedSnap, MovedCloud, FilledIds, IdIn;
    MovedDomain(c, root, s, r);
    FilledOnDrive(c, root, s);
    forall n | n in s.tree
      ensures n in MovedSnap(s, r).tree && MovedSnap(s, r).tree[n].id == s.tree[n].id
      ensures MovedSnap(s, r).tree[n].filled == s.tree[n].filled
    {
      SameNodes(s, r, n);
    }
    FilledRestricted(s.tree, MovedSnap(s, r).tree, set n | n in s.tree :: s.tree[n].id);
  }

  lemma MovedDomain(c: Cloud, root: Node, s: Snapshot, r: Renaming)
    requires Renames(c, root, s, r)
    ensures Mirrors(c, s.tree, root, s.at) && MovedSnap(s, r).tree.Keys == s.tree.Keys
    ensures MovedCloud(c, s, r).Keys == c.Keys
  {
    RenamesFacts(c, root, s, r);
    SameNodes(s, r, r.m);
    hide Renames, Mirrors, MovedSnap;
  }

  lemma FilledOnDrive(c: Cloud, root: Node, s: Snapshot)
    requires Mirrors(c, s.tree, root, s.at)
    ensures FilledIds(s.tree) <= c.Keys && FilledIds(s.tree) <= (set n | n in s.tree :: s.tree[n].id)
  {
    forall n | n in s.tree
      ensures s.tree[n].id in c
    {
      FaithfulIds(c, root, s, n);
    }
  }

  // ---------- the cache after a rename that leaves it true ----------

  /** What the lookups of a rename leave behind. */
  ghost function RenameLooks(c: Cloud, k: Known, src: Path, dst: Path): Known {
    var a := Looked(c, k, src);
    if Walk(c, ROOT, src).None? then a
    else TargetLooks(c, a, dst)
  }

  ghost function TargetLooks(c: Cloud, k: Known, dst: Path): Known {
    var b := Looked(c, k, dst);
    if Walk(c, ROOT, dst).None? && dst != [] then Looked(c, b, dst[..|dst| - 1]) else b
  }

  /** With nothing cached below the old path, exactly the paths at and below the two paths leave the cache. */
  lemma RenamedPaths(c: Cloud, root: Node, s: Snapshot, r: Renaming, v: World, log: seq<Event>, order: seq<Node>)
    requires Renames(c, root, s, r) && Faithful(c, root, s) && RenameDone(c, root, s, r, v, log, order)
    requires NothingCachedBelow(s, r.src)
    ensures v.snap.maps.paths == map q | q in s.maps.paths && !(r.src <= q) && !(r.dst <= q) :: s.maps.paths[q]
  {
    hide Renames, RenameDone, Consistent, Mirrors, Agrees, WellFormed, UniqueNames, Faithful, NothingCachedBelow;
    RenameOutcome(c, root, s, r, v, log, order);
    MapsInStep(c, root, s);
    forall q
      ensures q in v.snap.maps.paths <==> q in s.maps.paths && !(r.src <= q) && !(r.dst <= q)
      ensures q in v.snap.maps.paths && q in s.maps.paths ==> v.snap.maps.paths[q] == s.maps.paths[q]
    {
      if q in v.snap.maps.paths {
        PathComesFrom(v.snap.maps, IdsOf(v.snap.tree), q);
        CacheAfter(c, root, s, r, v, log, order, v.snap.maps.paths[q]);
        NodePath(s.maps, IdsOf(s.tree), v.snap.maps.paths[q]);
      }
      if q in s.maps.paths {
        PathComesFrom(s.maps, IdsOf(s.tree), q);
        CacheAfter(c, root, s, r, v, log, order, s.maps.paths[q]);
        PathStays(c, root, s, r, v, log, order, q);
        if s.maps.paths[q] in v.snap.maps.nodes { NodePath(v.snap.maps, IdsOf(v.snap.tree), s.maps.paths[q]); }
      }
    }
  }

  lemma PathComesFrom(m: Maps<Node>, ids: map<Node, Id>, q: Path)
    requires Consistent(m, ids) && q in m.paths
    ensures m.paths[q] in m.nodes && m.nodes[m.paths[q]] == q
  {
  }

  lemma NodePath(m: Maps<Node>, ids: map<Node, Id>, n: Node)
    requires Consistent(m, ids) && n in m.nodes
    ensures m.nodes[n] in m.paths && m.paths[m.nodes[n]] == n
  {
  }

  lemma PathStays(c: Cloud, root: Node, s: Snapshot, r: Renaming, v: World, log: seq<Event>, order: seq<Node>, q: Path)
    requires Renames(c, root, s, r) && Faithful(c, root, s) && RenameDone(c, root, s, r, v, log, order)
    requires NothingCachedBelow(s, r.src)
    requires q in s.maps.paths
    ensures s.maps.paths[q] in v.snap.maps.nodes <==> !(r.src <= q) && !(r.dst <= q)
  {
    var n := s.maps.paths[q];
    RenamesFacts(c, root, s, r);
    ParentsOnDrive(c, root, s, r);
    CachedTrue(c, root, s, q);
    CacheAfter(c, root, s, r, v, log, order, n);
    Survivors(c, root, s, r, v, log, order, n);
    hide WellFormed, UniqueNames, Mirrors, Consistent, Faithful, TrueEntries, Walk, RenameDone;
    assert !StrictlyBelow(r.src, q);
    assert n == r.m ==> Walk(c, ROOT, q) == Walk(c, ROOT, r.src);
    if Walk(c, ROOT, q) == Walk(c, ROOT, r.src) {
      WalkInjective(c, q, r.src);
      IdsDiffer(c, s.tree, root, s.at, n, r.m);
    }
    PathsAndLineages(c, root, s, r.m, n, r.src, q);
    if r.y.Some? {
      PathsAndLineages(c, root, s, r.y.value, n, r.dst, q);
    } else if r.dst <= q {
      WalkPrefix(c, r.dst, q);
    }
  }
}
