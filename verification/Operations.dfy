/** What create, remove and rename do to the whole state: the mirror, the lookups and the cached paths. */
module Operations {
  import opened Basics
  import opened CloudTree
  import opened CloudUpdates
  import opened CloudRename
  import opened LoadedTree
  import opened TreeUpdates
  import opened NodeCache
  import opened Loading
  import opened TreeRemoval
  import opened Removals

  // ---------- paths and lineages ----------

  lemma LineageKeys(c: Cloud, root: Node, s: Snapshot)
    requires Mirrors(c, s.tree, root, s.at)
    ensures s.at.Keys == s.tree.Keys
  {
  }

  /** For loaded nodes, ownership in memory and order of paths say the same. */
  lemma PathsAndLineages(c: Cloud, root: Node, s: Snapshot, m: Node, k: Node, p: Path, q: Path)
    requires WellFormed(c) && UniqueNames(c) && Mirrors(c, s.tree, root, s.at) && m in s.tree && k in s.tree
    requires Walk(c, ROOT, p) == Some(s.tree[m].id) && Walk(c, ROOT, q) == Some(s.tree[k].id)
    ensures s.at[m] <= s.at[k] <==> p <= q
  {
    LineageKeys(c, root, s);
    hide WellFormed, UniqueNames, Mirrors, Walk, Below;
    BelowByPath(c, p, q);
    if p <= q { BelowLineage(c, s.tree, root, s.at, m, k); }
    if s.at[m] <= s.at[k] { LineageBelow(c, s.tree, root, s.at, m, k); }
  }

  lemma AtRoot(c: Cloud, root: Node, s: Snapshot, m: Node, p: Path)
    requires WellFormed(c) && Mirrors(c, s.tree, root, s.at) && m in s.tree && Walk(c, ROOT, p) == Some(s.tree[m].id)
    ensures m == root <==> p == []
    ensures s.tree[m].parent == null <==> m == root
  {
    WalkRoot(c);
    IdsDiffer(c, s.tree, root, s.at, m, root);
    if m == root { WalkInjective(c, p, []); }
    assert NodeOk(c, s.tree, root, s.at, m);
  }

  // ---------- create ----------

  /** The folder at the parent of the path is loaded. */
  ghost predicate ParentFilled(c: Cloud, s: Snapshot, path: Path) {
    path != [] && FolderAt(c, path[..|path| - 1]) && Walk(c, ROOT, path[..|path| - 1]).value in FilledIds(s.tree)
  }

  lemma FilledById(c: Cloud, root: Node, s: Snapshot, n: Node)
    requires Mirrors(c, s.tree, root, s.at) && n in s.tree
    ensures s.tree[n].id in FilledIds(s.tree) <==> s.tree[n].filled
  {
    hide Mirrors;
    if s.tree[n].id in FilledIds(s.tree) {
      var m :| m in s.tree && s.tree[m].filled && s.tree[m].id == s.tree[n].id;
      IdsDiffer(c, s.tree, root, s.at, n, m);
    }
  }

  /** If the folder at the end of a path is loaded, so is every folder on the way, and the way goes on. */
  lemma LoadedWayDown(c: Cloud, root: Node, s: Snapshot, up: Path, n: Node, k: nat)
    requires WellFormed(c) && Mirrored(c, root, s) && n in s.tree && k <= |up|
    requires FolderAt(c, up) && Walk(c, ROOT, up).value in FilledIds(s.tree)
    requires Walk(c, ROOT, up[..k]) == Some(s.tree[n].id)
    ensures s.tree[n].filled
    ensures k < |up| ==> Walk(c, ROOT, up[..k + 1]).Some?
  {
    var m :| m in s.tree && s.tree[m].filled && s.tree[m].id == Walk(c, ROOT, up).value;
    hide WellFormed, Mirrored, FoldersAlong, FolderAt;
    if k < |up| {
      SomeAncestors(c, root, s, m, up);
      AncestorStep(c, up, k);
      if Walk(c, ROOT, up[..k + 1]).None? { WalkCut(c, up, k + 1); }
    } else {
      assert up[..k] == up;
    }
    MirroredParts(c, root, s);
    FilledById(c, root, s, n);
  }

  lemma FaithfulMirrors(c: Cloud, root: Node, s: Snapshot)
    requires Faithful(c, root, s)
    ensures Mirrors(c, s.tree, root, s.at) && Agrees(c, s.tree) && Mirrored(c, root, s)
  {
  }

  lemma MirroredParts(c: Cloud, root: Node, s: Snapshot)
    requires Mirrored(c, root, s)
    ensures Mirrors(c, s.tree, root, s.at) && Agrees(c, s.tree)
  {
  }

  lemma SomeAncestors(c: Cloud, root: Node, s: Snapshot, m: Node, up: Path)
    requires WellFormed(c) && Mirrored(c, root, s) && m in s.tree && Walk(c, ROOT, up) == Some(s.tree[m].id)
    ensures FoldersAlong(c, up) <= FilledIds(s.tree)
  {
    AncestorsFilled(c, s.tree, root, s.at, m, up);
  }

  /** Once the parent is loaded, the search in memory stops one name short at most, at the filled parent. */
  lemma FindReachesParent(c: Cloud, root: Node, s: Snapshot, path: Path, n: Node, k: nat)
    requires WellFormed(c) && Mirrored(c, root, s) && ParentFilled(c, s, path) && n in s.tree
    requires k < |path| && Walk(c, ROOT, path[..k]) == Some(s.tree[n].id)
    requires Named(s.tree, s.tree[n].next, path[k]).None?
    ensures k == |path| - 1 && s.tree[n].filled && s.tree[n].id in c && Child(c, s.tree[n].id, path[k]) == None
    ensures Walk(c, ROOT, path) == None
  {
    hide WellFormed, Mirrored, FilledIds, FolderAt, Walk, Child;
    var up := path[..|path| - 1];
    assert up[..k] == path[..k];
    if k < |up| { assert up[..k + 1] == path[..k + 1]; }
    LoadedWayDown(c, root, s, up, n, k);
    MirroredParts(c, root, s);
    FilledIsFolder(c, root, s, n);
    StepDown(c, s.tree, root, s.at, n, path, k);
    assert path == up + [path[|path| - 1]];
    WalkSnoc(c, ROOT, up, path[|path| - 1]);
    assert path[..k + 1] == path;
  }

  lemma {:induction false} AncestorStep(c: Cloud, p: Path, k: nat)
    requires WellFormed(c) && k < |p| && Walk(c, ROOT, p).Some?
    ensures FolderAt(c, p[..k]) && Walk(c, ROOT, p[..k]).value in FoldersAlong(c, p)
    decreases |p|
  {
    var q := p[..|p| - 1];
    assert p == q + [p[|p| - 1]];
    WalkSnoc(c, ROOT, q, p[|p| - 1]);
    if k < |q| {
      assert q[..k] == p[..k];
      AncestorStep(c, q, k);
    } else {
      assert p[..k] == q;
    }
  }

  lemma CreateKeepsMirrored(c: Cloud, root: Node, s: Snapshot, at: Path, n: Node, m: Node, i: Id, x: Name, folder: bool)
    requires WellFormed(c) && UniqueNames(c) && Mirrored(c, root, s)
    requires n in s.tree && s.tree[n].filled && m !in s.tree && i !in c && s.tree[n].id in c
    requires Walk(c, ROOT, at) == Some(s.tree[n].id) && Child(c, s.tree[n].id, x) == None
    ensures var d := Created(c, s.tree[n].id, i, x, folder);
            && WellFormed(d) && UniqueNames(d)
            && Mirrored(d, root, Snapshot(AddedTree(s.tree, n, m, i, x, folder), s.at[m := s.at[n] + [i]], s.maps))
            && Walk(d, ROOT, at + [x]) == Some(i)
  {
    hide WellFormed, UniqueNames, NodeOk, Walk, Child, Created;
    var d := Created(c, s.tree[n].id, i, x, folder);
    assert c[s.tree[n].id].folder by { assert NodeOk(c, s.tree, root, s.at, n); FilledIsFolder(c, root, s, n); }
    CreatedWellFormed(c, s.tree[n].id, i, x, folder);
    CreatedUniqueNames(c, s.tree[n].id, i, x, folder);
    AddMirrors(c, s.tree, root, s.at, n, m, i, x, folder);
    UniqueNamesAgree(d, AddedTree(s.tree, n, m, i, x, folder), root, s.at[m := s.at[n] + [i]]);
    WalkAfterCreate(c, at, s.tree[n].id, i, x, folder, at + [x]);
    WalkSnoc(c, ROOT, at, x);
  }

  /** Where a path leads is not changed by a creation under a new name. */
  lemma CreateKeepsWalk(c: Cloud, root: Node, s: Snapshot, at: Path, n: Node, i: Id, x: Name, folder: bool, q: Path)
    requires WellFormed(c) && UniqueNames(c) && Mirrored(c, root, s)
    requires n in s.tree && s.tree[n].filled && i !in c && s.tree[n].id in c
    requires Walk(c, ROOT, at) == Some(s.tree[n].id) && Child(c, s.tree[n].id, x) == None
    requires Walk(c, ROOT, q).Some?
    ensures Walk(Created(c, s.tree[n].id, i, x, folder), ROOT, q) == Walk(c, ROOT, q)
  {
    hide WellFormed, UniqueNames, Mirrors, Agrees, Walk, Child, Created;
    FilledIsFolder(c, root, s, n);
    WalkAfterCreate(c, at, s.tree[n].id, i, x, folder, q);
    WalkSnoc(c, ROOT, at, x);
  }

  lemma CreateKeepsFaithful(c: Cloud, root: Node, s: Snapshot, at: Path, n: Node, m: Node, i: Id, x: Name, folder: bool)
    requires WellFormed(c) && UniqueNames(c) && Faithful(c, root, s)
    requires n in s.tree && s.tree[n].filled && m !in s.tree && i !in c && s.tree[n].id in c
    requires Walk(c, ROOT, at) == Some(s.tree[n].id) && Child(c, s.tree[n].id, x) == None
    ensures var d := Created(c, s.tree[n].id, i, x, folder);
            && WellFormed(d) && UniqueNames(d)
            && Faithful(d, root, Snapshot(AddedTree(s.tree, n, m, i, x, folder), s.at[m := s.at[n] + [i]], s.maps))
            && Walk(d, ROOT, at + [x]) == Some(i)
  {
    hide WellFormed, UniqueNames, Mirrors, Agrees, Walk, Child, Consistent, Created;
    CreateKeepsMirrored(c, root, s, at, n, m, i, x, folder);
    MoreLive(s.maps, IdsOf(s.tree), IdsOf(AddedTree(s.tree, n, m, i, x, folder)));
    forall k | k in s.maps.nodes
      ensures Walk(Created(c, s.tree[n].id, i, x, folder), ROOT, s.maps.nodes[k]) == Some(s.tree[k].id)
    {
      CreateKeepsWalk(c, root, s, at, n, i, x, folder, s.maps.nodes[k]);
    }
  }

  lemma CreateKeepsSound(c: Cloud, root: Node, s: Snapshot, at: Path, n: Node, m: Node, i: Id, x: Name, folder: bool,
                         stale: set<Path>)
    requires WellFormed(c) && UniqueNames(c) && Sound(c, root, s, stale)
    requires n in s.tree && s.tree[n].filled && m !in s.tree && i !in c && s.tree[n].id in c
    requires Walk(c, ROOT, at) == Some(s.tree[n].id) && Child(c, s.tree[n].id, x) == None
    ensures Sound(Created(c, s.tree[n].id, i, x, folder), root,
                  Snapshot(AddedTree(s.tree, n, m, i, x, folder), s.at[m := s.at[n] + [i]], s.maps), stale)
  {
    hide WellFormed, UniqueNames, Mirrors, Agrees, Walk, Child, Created;
    CreateKeepsMirrored(c, root, s, at, n, m, i, x, folder);
    forall p | p in s.maps.paths && p !in stale
      ensures Walk(Created(c, s.tree[n].id, i, x, folder), ROOT, p) == Walk(c, ROOT, p)
    {
      CreateKeepsWalk(c, root, s, at, n, i, x, folder, p);
    }
  }

  lemma FilledIsFolder(c: Cloud, root: Node, s: Snapshot, n: Node)
    requires Mirrors(c, s.tree, root, s.at) && n in s.tree && s.tree[n].filled
    ensures s.tree[n].id in c && c[s.tree[n].id].folder
  {
    assert NodeOk(c, s.tree, root, s.at, n);
  }

  // ---------- remove ----------

  ghost function DepthBound(at: Lineage): (b: nat)
    ensures forall k :: k in at ==> |at[k]| <= b
  {
    if at == map[] then 0
    else
      var k :| k in at;
      var rest := DepthBound(at - {k});
      assert forall l :: l in at && l != k ==> l in at - {k} && (at - {k})[l] == at[l];
      if |at[k]| <= rest then rest else |at[k]|
  }

  lemma RemoveReady(c: Cloud, root: Node, s: Snapshot, m: Node)
    requires WellFormed(c) && Mirrored(c, root, s) && m in s.tree && s.tree[m].parent != null
    ensures Structured(c, root, s) && s.at.Keys == s.tree.Keys
    ensures s.tree[m].parent in s.tree && m in s.tree[s.tree[m].parent].next
  {
    assert NodeOk(c, s.tree, root, s.at, m);
  }

  lemma RemoveKeepsMirrored(root: Node, w: World, v: World, n: Node, m: Node, order: seq<Node>, path: Path)
    requires UniqueNames(w.cloud) && Mirrored(w.cloud, root, w.snap)
    requires RemovedOne(root, w, v, n, m, order)
    requires Walk(w.cloud, ROOT, path) == Some(w.snap.tree[m].id)
    ensures WellFormed(v.cloud) && UniqueNames(v.cloud) && Mirrored(v.cloud, root, v.snap)
  {
    var c, s := w.cloud, w.snap;
    AtRoot(c, root, s, m, path);
    ChildLineage(c, s.tree, root, s.at, n, m);
    IdsDiffer(c, s.tree, root, s.at, m, root);
    RemovedWellFormed(c, s.tree[m].id);
    hide WellFormed, UniqueNames, Mirrors, Walk, PostOrder, Removed, Below, Cut, SameLog, SameCache;
    UniqueNamesAgree(v.cloud, v.snap.tree, root, v.snap.at);
  }

  /** A node that is found outside the removed path stays, and is found there still. */
  lemma OutsideStays(root: Node, w: World, v: World, n: Node, m: Node, order: seq<Node>, path: Path, k: Node, q: Path)
    requires UniqueNames(w.cloud) && RemovedOne(root, w, v, n, m, order)
    requires Walk(w.cloud, ROOT, path) == Some(w.snap.tree[m].id)
    requires k in w.snap.tree && Walk(w.cloud, ROOT, q) == Some(w.snap.tree[k].id)
    ensures k in Subtree(w.snap.at, m) <==> path <= q
    ensures k in v.snap.tree <==> !(path <= q)
    ensures k in v.snap.tree ==>
              v.snap.tree[k].id == w.snap.tree[k].id && Walk(v.cloud, ROOT, q) == Some(v.snap.tree[k].id)
  {
    var c, s := w.cloud, w.snap;
    OneLeft(root, w, v, n, m, order);
    OneKeepsRest(root, w, v, n, m, order);
    OneOnDrive(root, w, v, n, m, order);
    StructuredKeys(c, root, s);
    hide RemovedOne, WellFormed, UniqueNames, Mirrors, Walk, Structured, Subtree, Removed;
    PathsAndLineages(c, root, s, m, k, path, q);
    InSubtree(s.at, m, k);
    WalkAfterRemove(c, path, s.tree[m].id, q);
  }

  lemma OneOnDrive(root: Node, w: World, v: World, n: Node, m: Node, order: seq<Node>)
    requires RemovedOne(root, w, v, n, m, order)
    ensures m in w.snap.tree && w.snap.tree[m].id in w.cloud && v.cloud == Removed(w.cloud, w.snap.tree[m].id)
    ensures w.snap.tree[m].id != ROOT && m in w.snap.at && (set k | k in order) == Subtree(w.snap.at, m)
    ensures SameCache(w.snap.tree, w.snap.maps, v.snap.maps, order)
  {
    ChildLineage(w.cloud, w.snap.tree, root, w.snap.at, n, m);
    IdsDiffer(w.cloud, w.snap.tree, root, w.snap.at, m, root);
    hide Structured, Cut, SameLog, SameCache;
  }

  /** With the maps in step, the cache forgets exactly the nodes that are gone. */
  lemma OneForgets(root: Node, w: World, v: World, n: Node, m: Node, order: seq<Node>)
    requires RemovedOne(root, w, v, n, m, order) && Consistent(w.snap.maps, IdsOf(w.snap.tree))
    ensures v.snap.maps == MapsWithout(w.snap.maps, Subtree(w.snap.at, m))
    ensures Consistent(v.snap.maps, IdsOf(v.snap.tree))
  {
    hide RemovedOne, Structured, Subtree, Consistent, MapsWithout, Below, Removed;
    OneOnDrive(root, w, v, n, m, order);
    OneLeft(root, w, v, n, m, order);
    OneKeepsRest(root, w, v, n, m, order);
    PurgedTogether(w.snap.maps, w.snap.tree, order);
    StillConsistent(w.snap.maps, w.snap.tree, v.snap.tree, Subtree(w.snap.at, m));
  }

  lemma StillConsistent(m: Maps<Node>, t: Tree, u: Tree, gone: set<Node>)
    requires Consistent(MapsWithout(m, gone), IdsOf(t)) && u.Keys == t.Keys - gone
    requires forall k :: k in u ==> u[k].id == t[k].id
    ensures Consistent(MapsWithout(m, gone), IdsOf(u))
  {
  }

  lemma RemoveKeepsFaithful(root: Node, w: World, v: World, n: Node, m: Node, order: seq<Node>, path: Path)
    requires UniqueNames(w.cloud) && Faithful(w.cloud, root, w.snap)
    requires RemovedOne(root, w, v, n, m, order)
    requires Walk(w.cloud, ROOT, path) == Some(w.snap.tree[m].id)
    ensures WellFormed(v.cloud) && UniqueNames(v.cloud) && Faithful(v.cloud, root, v.snap)
  {
    hide RemovedOne, WellFormed, UniqueNames, Mirrors, Agrees, Walk, Consistent, Subtree;
    RemoveKeepsMirrored(root, w, v, n, m, order, path);
    OneForgets(root, w, v, n, m, order);
    forall k | k in v.snap.maps.nodes
      ensures k in v.snap.tree && Walk(v.cloud, ROOT, v.snap.maps.nodes[k]) == Some(v.snap.tree[k].id)
    {
      OutsideStays(root, w, v, n, m, order, path, k, w.snap.maps.nodes[k]);
    }
  }

  /** Whatever the cache says, a removal adds nothing that misleads. */
  lemma RemoveKeepsSound(root: Node, w: World, v: World, n: Node, m: Node, order: seq<Node>, path: Path,
                         stale: set<Path>)
    requires UniqueNames(w.cloud) && Sound(w.cloud, root, w.snap, stale)
    requires RemovedOne(root, w, v, n, m, order)
    requires Walk(w.cloud, ROOT, path) == Some(w.snap.tree[m].id)
    ensures WellFormed(v.cloud) && UniqueNames(v.cloud) && Sound(v.cloud, root, v.snap, stale)
    ensures v.snap.maps.paths.Keys <= w.snap.maps.paths.Keys
  {
    hide RemovedOne, WellFormed, UniqueNames, Mirrors, Agrees, Walk, Subtree;
    RemoveKeepsMirrored(root, w, v, n, m, order, path);
    OneOnDrive(root, w, v, n, m, order);
    PurgedLess(w.snap.maps, w.snap.tree, order);
    forall p | p in v.snap.maps.paths && p !in stale
      ensures var k := v.snap.maps.paths[p];
              && k in v.snap.tree && k in v.snap.maps.nodes && v.snap.maps.nodes[k] == p
              && Walk(v.cloud, ROOT, p) == Some(v.snap.tree[k].id)
    {
      OutsideStays(root, w, v, n, m, order, path, w.snap.maps.paths[p], p);
    }
  }

  /** A removal takes exactly the paths at and below its own out of the cache. */
  lemma RemovedPaths(root: Node, w: World, v: World, n: Node, m: Node, order: seq<Node>, path: Path)
    requires UniqueNames(w.cloud) && Faithful(w.cloud, root, w.snap) && RemovedOne(root, w, v, n, m, order)
    requires Walk(w.cloud, ROOT, path) == Some(w.snap.tree[m].id)
    ensures v.snap.maps.paths == map q | q in w.snap.maps.paths && !(path <= q) :: w.snap.maps.paths[q]
  {
    hide RemovedOne, Faithful, UniqueNames, Walk, Subtree, Consistent, WellFormed;
    OneLeft(root, w, v, n, m, order);
    MapsInStep(w.cloud, root, w.snap);
    OneForgets(root, w, v, n, m, order);
    forall q | q in w.snap.maps.paths
      ensures w.snap.maps.paths[q] in Subtree(w.snap.at, m) <==> path <= q
    {
      CachedTrue(w.cloud, root, w.snap, q);
      OutsideStays(root, w, v, n, m, order, path, w.snap.maps.paths[q], q);
    }
  }

  lemma MapsInStep(c: Cloud, root: Node, s: Snapshot)
    requires Faithful(c, root, s)
    ensures Consistent(s.maps, IdsOf(s.tree))
  {
  }

  lemma InSubtree(at: Lineage, m: Node, k: Node)
    requires m in at
    ensures k in Subtree(at, m) <==> k in at && at[m] <= at[k]
  {
  }

  lemma CachedTrue(c: Cloud, root: Node, s: Snapshot, q: Path)
    requires Faithful(c, root, s) && q in s.maps.paths
    ensures var k := s.maps.paths[q];
            && k in s.tree && s.at.Keys == s.tree.Keys && k in s.maps.nodes && s.maps.nodes[k] == q
            && Walk(c, ROOT, q) == Some(s.tree[k].id)
  {
    hide Agrees, Walk;
  }
}
