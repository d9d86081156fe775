/** Which folders a lookup has to load, and what the cache may say about them. */
module Loading {
  import opened Basics
  import opened CloudTree
  import opened CloudUpdates
  import opened LoadedTree
  import opened TreeUpdates
  import opened NodeCache

  ghost function IdsOf(t: Tree): map<Node, Id> {
    map n | n in t :: t[n].id
  }

  /** Every cached path leads, on the drive, to the entry of the cached node. */
  ghost predicate TrueEntries(c: Cloud, t: Tree, m: Maps<Node>) {
    forall n :: n in m.nodes ==> n in t && Walk(c, ROOT, m.nodes[n]) == Some(t[n].id)
  }

  /** Lookups only add nodes, and change a loaded node only by filling an unfilled folder. */
  ghost predicate Grew(t: Tree, u: Tree) {
    forall n :: n in t ==>
      n in u && (u[n] == t[n] || (!t[n].filled && u[n] == t[n].(filled := true, next := u[n].next)))
  }

  ghost predicate GrewAt(at: Lineage, bt: Lineage) {
    forall n :: n in at ==> n in bt && bt[n] == at[n]
  }

  /** The ids of the folders whose contents are loaded. */
  ghost function FilledIds(t: Tree): set<Id> {
    set n | n in t && t[n].filled :: t[n].id
  }

  ghost predicate FolderAt(c: Cloud, p: Path) {
    Walk(c, ROOT, p).Some? && Walk(c, ROOT, p).value in c && c[Walk(c, ROOT, p).value].folder
  }

  /** The folders met strictly before the end of the path. */
  ghost function FoldersAlong(c: Cloud, p: Path): set<Id> {
    if p == [] then {}
    else
      var q := p[..|p| - 1];
      FoldersAlong(c, q) + if FolderAt(c, q) then {Walk(c, ROOT, q).value} else {}
  }

  lemma FoldersSnoc(c: Cloud, p: Path, k: nat)
    requires k < |p|
    ensures FoldersAlong(c, p[..k + 1]) ==
            FoldersAlong(c, p[..k]) + if FolderAt(c, p[..k]) then {Walk(c, ROOT, p[..k]).value} else {}
  {
    assert p[..k + 1][..k] == p[..k];
  }

  lemma WalkCut(c: Cloud, p: Path, k: nat)
    requires k <= |p| && Walk(c, ROOT, p[..k]).None?
    ensures Walk(c, ROOT, p).None?
  {
    assert p[..k] + p[k..] == p;
    WalkConcat(c, ROOT, p[..k], p[k..]);
  }

  lemma {:induction false} FoldersStop(c: Cloud, p: Path, k: nat)
    requires k < |p| && Walk(c, ROOT, p[..k + 1]).None?
    ensures FoldersAlong(c, p) == FoldersAlong(c, p[..k + 1])
    decreases |p|
  {
    if k + 1 == |p| {
      assert p[..k + 1] == p;
    } else {
      var q := p[..|p| - 1];
      assert q[..k + 1] == p[..k + 1];
      FoldersStop(c, q, k);
      WalkCut(c, q, k + 1);
    }
  }

  /** The owner of a loaded node is the entry one step up its path, and it is filled. */
  lemma OwnerOnPath(c: Cloud, t: Tree, root: Node, at: Lineage, n: Node, p: Path, x: Name)
    requires WellFormed(c) && Mirrors(c, t, root, at) && n in t && Walk(c, ROOT, p + [x]) == Some(t[n].id)
    ensures n != root && t[n].parent != null && t[n].parent in t
    ensures t[t[n].parent].filled && Walk(c, ROOT, p) == Some(t[t[n].parent].id)
    ensures n in t[t[n].parent].next
  {
    WalkSnoc(c, ROOT, p, x);
    WalkStays(c, ROOT, p);
    assert NodeOk(c, t, root, at, n);
    assert t[root].id == ROOT;
    NobodysChild(c, ROOT);
    assert NodeOk(c, t, root, at, t[n].parent);
  }

  /** Whatever folder lies on the way to a loaded node has been loaded. */
  lemma {:induction false} AncestorsFilled(c: Cloud, t: Tree, root: Node, at: Lineage, n: Node, p: Path)
    requires WellFormed(c) && Mirrors(c, t, root, at) && n in t && Walk(c, ROOT, p) == Some(t[n].id)
    ensures FoldersAlong(c, p) <= FilledIds(t)
    decreases |p|
  {
    hide WellFormed, Mirrors;
    if p != [] {
      var k := |p| - 1;
      assert p == p[..k] + [p[k]] && p[..k + 1] == p;
      OwnerOnPath(c, t, root, at, n, p[..k], p[k]);
      AncestorsFilled(c, t, root, at, t[n].parent, p[..k]);
      FoldersSnoc(c, p, k);
    }
  }

  lemma OwnedLive(c: Cloud, t: Tree, root: Node, at: Lineage, n: Node)
    requires Mirrors(c, t, root, at) && n in t
    ensures forall m :: m in t[n].next ==> m in t
  {
    assert NodeOk(c, t, root, at, n);
  }

  /** The loaded child of that name is the entry one step further along the path. */
  lemma StepDown(c: Cloud, t: Tree, root: Node, at: Lineage, n: Node, path: Path, k: nat)
    requires Mirrors(c, t, root, at) && Agrees(c, t) && n in t && k < |path|
    requires Walk(c, ROOT, path[..k]) == Some(t[n].id)
    ensures t[n].filled || Named(t, t[n].next, path[k]).Some? ==>
              Walk(c, ROOT, path[..k + 1]) ==
              match Named(t, t[n].next, path[k])
              case None => None
              case Some(m) => Some(t[m].id)
  {
    assert path[..k + 1] == path[..k] + [path[k]];
    WalkSnoc(c, ROOT, path[..k], path[k]);
    assert NodeOk(c, t, root, at, n);
    if t[n].filled {
      assert AgreesOn(c, t, n, path[k]);
    }
  }

  // ---------- the whole state in memory ----------

  datatype Snapshot = Snapshot(tree: Tree, at: Lineage, maps: Maps<Node>)

  /** The loaded nodes mirror the drive and names find what it lists, whatever the cache says. */
  ghost predicate Mirrored(c: Cloud, root: Node, s: Snapshot) {
    Mirrors(c, s.tree, root, s.at) && Agrees(c, s.tree)
  }

  /** The loaded nodes mirror the drive, names find what the drive's listings find, and the cache tells the truth. */
  ghost predicate Faithful(c: Cloud, root: Node, s: Snapshot) {
    Mirrored(c, root, s) && Consistent(s.maps, IdsOf(s.tree)) && TrueEntries(c, s.tree, s.maps)
  }

  /** All cached paths but the stale ones lead to live nodes, and truly. */
  ghost predicate TrueBut(c: Cloud, t: Tree, paths: map<Path, Node>, stale: set<Path>) {
    forall p :: p in paths && p !in stale ==> paths[p] in t && Walk(c, ROOT, p) == Some(t[paths[p]].id)
  }

  /** They lead to nodes that are filed under them. */
  ghost predicate FiledBut(m: Maps<Node>, stale: set<Path>) {
    forall p :: p in m.paths && p !in stale ==> m.paths[p] in m.nodes && m.nodes[m.paths[p]] == p
  }

  /** Memory is a mirror, and of the cached paths only the stale ones may mislead. */
  ghost predicate Sound(c: Cloud, root: Node, s: Snapshot, stale: set<Path>) {
    Mirrored(c, root, s) && TrueBut(c, s.tree, s.maps.paths, stale) && FiledBut(s.maps, stale)
  }

  lemma FaithfulSound(c: Cloud, root: Node, s: Snapshot, stale: set<Path>)
    requires Faithful(c, root, s)
    ensures Sound(c, root, s, stale)
  {
  }

  /** Old cache entries stay as they are; new ones are at prefixes of the path. */
  ghost predicate CacheGrew(m: Maps<Node>, n: Maps<Node>, path: Path) {
    && (forall p :: p in m.paths ==> p in n.paths && n.paths[p] == m.paths[p])
    && (forall p :: p in n.paths ==> p in m.paths || p <= path)
  }

  /** What a lookup along the path may do: add nodes, fill exactly these folders, add cache entries on the path. */
  ghost predicate LookedUp(s: Snapshot, u: Snapshot, path: Path, folders: set<Id>) {
    Loaded(s, u, folders) && CacheGrew(s.maps, u.maps, path)
  }

  /** What it may do to the tree alone. */
  ghost predicate Loaded(s: Snapshot, u: Snapshot, folders: set<Id>) {
    Grew(s.tree, u.tree) && GrewAt(s.at, u.at) && FilledIds(u.tree) == FilledIds(s.tree) + folders
  }

  lemma LoadedTwice(s: Snapshot, u: Snapshot, v: Snapshot, a: set<Id>, b: set<Id>)
    requires Loaded(s, u, a) && Loaded(u, v, b)
    ensures Loaded(s, v, a + b)
  {
  }

  lemma LoadedAlready(s: Snapshot, maps: Maps<Node>, folders: set<Id>)
    requires folders <= FilledIds(s.tree)
    ensures Loaded(s, s.(maps := maps), folders)
  {
  }

  /** The predicates on trees do not depend on the cache. */
  lemma LoadedMaps(s: Snapshot, u: Snapshot, folders: set<Id>, m: Maps<Node>, n: Maps<Node>)
    requires Loaded(s, u, folders)
    ensures Loaded(s.(maps := m), u.(maps := n), folders)
  {
  }

  lemma LookedUpTwice(s: Snapshot, u: Snapshot, v: Snapshot, path: Path, a: set<Id>, b: set<Id>)
    requires LookedUp(s, u, path, a) && LookedUp(u, v, path, b)
    ensures LookedUp(s, v, path, a + b)
  {
  }

  lemma FillKeepsMirrored(c: Cloud, root: Node, s: Snapshot, u: Tree, n: Node, news: seq<Node>)
    requires WellFormed(c) && Mirrored(c, root, s) && FilledFrom(c, s.tree, u, n, news)
    requires s.tree[n].folder && !s.tree[n].filled
    ensures n in s.at && n in u && u[n].filled
    ensures forall m :: m in news ==> m in u && m !in s.tree && !u[m].filled
    ensures var v := Snapshot(u, LineageOf(s.at, u, n, news), s.maps);
            Mirrored(c, root, v) && Loaded(s, v, {u[n].id})
  {
    hide WellFormed, Mirrors, Agrees;
    FillMirrors(c, s.tree, u, root, s.at, n, news);
    FillAgrees(c, s.tree, u, root, s.at, n, news);
    FillGrows(c, s.tree, u, root, s.at, n, news);
  }

  /** Filling an unfilled folder, seen from the whole state. */
  lemma FillKeepsFaithful(c: Cloud, root: Node, s: Snapshot, u: Tree, n: Node, news: seq<Node>, path: Path)
    requires WellFormed(c) && Faithful(c, root, s) && FilledFrom(c, s.tree, u, n, news)
    requires s.tree[n].folder && !s.tree[n].filled
    ensures n in s.at && n in u && u[n].filled
    ensures forall m :: m in news ==> m in u && m !in s.maps.nodes && !u[m].filled
    ensures var v := Snapshot(u, LineageOf(s.at, u, n, news), s.maps);
            Faithful(c, root, v) && LookedUp(s, v, path, {u[n].id})
  {
    hide WellFormed, Mirrors, Agrees;
    FillMirrors(c, s.tree, u, root, s.at, n, news);
    FillAgrees(c, s.tree, u, root, s.at, n, news);
    FillGrows(c, s.tree, u, root, s.at, n, news);
    MoreLive(s.maps, IdsOf(s.tree), IdsOf(u));
  }

  lemma FillGrows(c: Cloud, t: Tree, u: Tree, root: Node, at: Lineage, n: Node, news: seq<Node>)
    requires Mirrors(c, t, root, at) && FilledFrom(c, t, u, n, news) && t[n].folder && !t[n].filled
    ensures n in at && forall m :: m in news ==> m in u && m !in t && !u[m].filled
    ensures Grew(t, u) && GrewAt(at, LineageOf(at, u, n, news)) && FilledIds(u) == FilledIds(t) + {u[n].id}
  {
    hide NodeOk;
    forall m | m in news
      ensures m in u && m !in t && !u[m].filled
    {
      var a :| 0 <= a < |news| && m == news[a];
    }
    assert n in u && u[n].filled;
    forall m | m in t && t[m].filled
      ensures m in u && u[m].filled && u[m].id == t[m].id
    {
    }
  }

  /** A node the cache does not hold, at its true path, is a fresh insert: path and node are both new. */
  lemma InsertIsFresh(c: Cloud, root: Node, s: Snapshot, path: Path, n: Node, along: Path)
    requires WellFormed(c) && Faithful(c, root, s) && n in s.tree && Walk(c, ROOT, path) == Some(s.tree[n].id)
    requires path !in s.maps.paths || n !in s.maps.nodes
    requires path <= along
    ensures path !in s.maps.paths && n !in s.maps.nodes
    ensures var u := s.(maps := Inserted(s.maps, path, s.tree[n].id, n));
            Faithful(c, root, u) && LookedUp(s, u, along, {})
  {
    hide WellFormed, NodeOk, Agrees, Mirrors, Walk;
    CachedOnce(c, root, s, path, n);
    hide Consistent, TrueEntries;
    SameIdSameNode(c, root, s, n);
    InsertConsistent(s.maps, IdsOf(s.tree), path, n);
    InsertTrue(c, s.tree, s.maps, path, n);
    hide LookedUp, Inserted;
    InsertGrows(s, path, s.tree[n].id, n, along);
  }

  /** Filing a live node truly misleads nobody, unless it is filed already under another path that does not. */
  lemma InsertSound(c: Cloud, root: Node, s: Snapshot, path: Path, n: Node, stale: set<Path>)
    requires Sound(c, root, s, stale) && n in s.tree && Walk(c, ROOT, path) == Some(s.tree[n].id)
    requires forall q :: q in s.maps.paths && q !in stale && s.maps.paths[q] == n ==> q == path
    ensures Sound(c, root, s.(maps := Inserted(s.maps, path, s.tree[n].id, n)), stale)
  {
    hide Mirrors, Agrees, Walk;
  }

  /** Nodes added to the tree mislead nobody. */
  lemma LoadedSound(c: Cloud, root: Node, s: Snapshot, u: Snapshot, folders: set<Id>, stale: set<Path>)
    requires Sound(c, root, s, stale) && Mirrored(c, root, u) && Loaded(s, u, folders) && u.maps == s.maps
    ensures Sound(c, root, u, stale)
  {
    hide Mirrored, Walk;
  }

  lemma InsertGrows(s: Snapshot, path: Path, i: Id, n: Node, along: Path)
    requires path !in s.maps.paths && path <= along
    ensures LookedUp(s, s.(maps := Inserted(s.maps, path, i, n)), along, {})
  {
  }

  lemma CachedOnce(c: Cloud, root: Node, s: Snapshot, path: Path, n: Node)
    requires WellFormed(c) && Faithful(c, root, s) && n in s.tree && Walk(c, ROOT, path) == Some(s.tree[n].id)
    ensures path in s.maps.paths <==> n in s.maps.nodes
  {
    hide WellFormed, Mirrors, Agrees, Walk;
    if path in s.maps.paths {
      IdsDiffer(c, s.tree, root, s.at, s.maps.paths[path], n);
    }
    if n in s.maps.nodes {
      WalkInjective(c, s.maps.nodes[n], path);
    }
  }

  lemma SameIdSameNode(c: Cloud, root: Node, s: Snapshot, n: Node)
    requires Mirrors(c, s.tree, root, s.at) && n in s.tree
    ensures forall l :: l in IdsOf(s.tree) && IdsOf(s.tree)[l] == IdsOf(s.tree)[n] ==> l == n
  {
    hide Mirrors;
    forall l | l in IdsOf(s.tree) && IdsOf(s.tree)[l] == IdsOf(s.tree)[n]
      ensures l == n
    {
      IdsDiffer(c, s.tree, root, s.at, l, n);
    }
  }

  lemma InsertTrue(c: Cloud, t: Tree, m: Maps<Node>, path: Path, n: Node)
    requires TrueEntries(c, t, m) && n in t && Walk(c, ROOT, path) == Some(t[n].id)
    ensures TrueEntries(c, t, Inserted(m, path, t[n].id, n))
  {
  }

  /** Nothing lies below a file. */
  lemma FileStops(c: Cloud, root: Node, s: Snapshot, n: Node, path: Path, k: nat)
    requires WellFormed(c) && Mirrored(c, root, s) && n in s.tree && k < |path| && !s.tree[n].folder
    requires Walk(c, ROOT, path[..k]) == Some(s.tree[n].id)
    ensures Walk(c, ROOT, path) == None && Walk(c, ROOT, path[..k + 1]) == None
    ensures FoldersAlong(c, path) == FoldersAlong(c, path[..k])
  {
    assert path[..k + 1] == path[..k] + [path[k]];
    WalkSnoc(c, ROOT, path[..k], path[k]);
    assert NodeOk(c, s.tree, root, s.at, n);
    FoldersSnoc(c, path, k);
    WalkCut(c, path, k + 1);
    FoldersStop(c, path, k);
  }

  /** In a filled folder the next name is found where the walk finds it, or the walk ends. */
  lemma FolderStep(c: Cloud, root: Node, s: Snapshot, n: Node, path: Path, k: nat)
    requires Mirrored(c, root, s) && n in s.tree && k < |path| && s.tree[n].filled
    requires Walk(c, ROOT, path[..k]) == Some(s.tree[n].id)
    ensures forall m :: m in s.tree[n].next ==> m in s.tree
    ensures FoldersAlong(c, path[..k + 1]) == FoldersAlong(c, path[..k]) + {s.tree[n].id}
    ensures match Named(s.tree, s.tree[n].next, path[k])
            case None =>
              && Walk(c, ROOT, path) == None && Walk(c, ROOT, path[..k + 1]) == None
              && FoldersAlong(c, path) == FoldersAlong(c, path[..k + 1])
            case Some(m) => m in s.tree[n].next && m in s.tree && Walk(c, ROOT, path[..k + 1]) == Some(s.tree[m].id)
  {
    OwnedLive(c, s.tree, root, s.at, n);
    StepDown(c, s.tree, root, s.at, n, path, k);
    assert NodeOk(c, s.tree, root, s.at, n);
    FoldersSnoc(c, path, k);
    if Named(s.tree, s.tree[n].next, path[k]).None? {
      WalkCut(c, path, k + 1);
      FoldersStop(c, path, k);
    }
  }

  lemma FilledMember(t: Tree, n: Node)
    requires n in t && t[n].filled
    ensures t[n].id in FilledIds(t)
  {
  }

  lemma LookedUpAlready(s: Snapshot, path: Path, folders: set<Id>)
    requires folders <= FilledIds(s.tree)
    ensures LookedUp(s, s, path, folders) && Loaded(s, s, folders)
  {
  }

  // ---------- what lookups leave behind ----------

  /** Which folders have been read, and which paths are cached. */
  datatype Known = Known(loaded: set<Id>, cached: set<Path>)

  /** The entry at a path is loaded: so is every folder whose listing has been read. */
  ghost predicate InMemory(c: Cloud, loaded: set<Id>, p: Path) {
    p == [] || (Walk(c, ROOT, p[..|p| - 1]).Some? && Walk(c, ROOT, p[..|p| - 1]).value in loaded)
  }

  ghost function Stretch(p: Path, from: nat, to: nat): set<Path>
    requires to <= |p|
  {
    set j | from < j <= to :: p[..j]
  }

  /**
   * The paths a lookup adds to the cache: its own if it ends in memory, else those of all entries it has to ask
   * the drive for.
   */
  ghost function CachedBy(c: Cloud, k: Known, p: Path): set<Path> {
    if p == [] || p in k.cached then {}
    else if Walk(c, ROOT, p).Some? && InMemory(c, k.loaded, p) then {p}
    else set j | 0 < j <= |p| && Walk(c, ROOT, p[..j]).Some? && !InMemory(c, k.loaded, p[..j]) :: p[..j]
  }

  ghost function Looked(c: Cloud, k: Known, p: Path): Known {
    Known(k.loaded + FoldersAlong(c, p), k.cached + CachedBy(c, k, p))
  }

  lemma {:induction false} FoldersMonotone(c: Cloud, p: Path, j: nat, k: nat)
    requires j <= k <= |p|
    ensures FoldersAlong(c, p[..j]) <= FoldersAlong(c, p[..k])
  {
    if j < k {
      FoldersMonotone(c, p, j, k - 1);
      FoldersSnoc(c, p, k - 1);
    }
  }

  lemma OnWalk(c: Cloud, p: Path, j: nat, k: nat)
    requires j <= k <= |p| && Walk(c, ROOT, p[..k]).Some?
    ensures Walk(c, ROOT, p[..j]).Some?
  {
    assert p[..k][..j] == p[..j];
    if Walk(c, ROOT, p[..j]).None? { WalkCut(c, p[..k], j); }
  }

  /** An entry with something below it is a folder on the way there. */
  lemma OnTheWayDown(c: Cloud, p: Path, j: nat, k: nat)
    requires WellFormed(c) && j < k <= |p| && Walk(c, ROOT, p[..k]).Some?
    ensures Walk(c, ROOT, p[..j]).Some? && Walk(c, ROOT, p[..j]).value in FoldersAlong(c, p[..k])
  {
    OnWalk(c, p, j + 1, k);
    assert p[..j + 1] == p[..j] + [p[j]];
    WalkSnoc(c, ROOT, p[..j], p[j]);
    var i := Walk(c, ROOT, p[..j]).value;
    assert i in c && c[i].kids != [];
    assert FolderAt(c, p[..j]);
    FoldersSnoc(c, p, j);
    FoldersMonotone(c, p, j + 1, k);
  }

  /** What lies on the way to a loaded node is in memory. */
  lemma WayInMemory(c: Cloud, t: Tree, root: Node, at: Lineage, n: Node, p: Path, k: nat, j: nat)
    requires WellFormed(c) && Mirrors(c, t, root, at) && n in t && 0 < j <= k <= |p|
    requires Walk(c, ROOT, p[..k]) == Some(t[n].id)
    ensures InMemory(c, FilledIds(t), p[..j])
  {
    AncestorsFilled(c, t, root, at, n, p[..k]);
    OnTheWayDown(c, p, j - 1, k);
    assert p[..j][..j - 1] == p[..j - 1];
  }

  /** What lies below an unfilled folder is not. */
  lemma NotInMemory(c: Cloud, t: Tree, root: Node, at: Lineage, n: Node, p: Path, k: nat, j: nat)
    requires WellFormed(c) && Mirrors(c, t, root, at) && n in t && !t[n].filled
    requires k < j <= |p| && Walk(c, ROOT, p[..k]) == Some(t[n].id) && Walk(c, ROOT, p[..j]).Some?
    ensures !InMemory(c, FilledIds(t), p[..j])
  {
    hide Mirrors, WellFormed;
    assert p[..j][..j - 1] == p[..j - 1];
    if InMemory(c, FilledIds(t), p[..j]) {
      var m :| m in t && t[m].filled && Walk(c, ROOT, p[..j - 1]) == Some(t[m].id);
      if j - 1 == k {
        IdsDiffer(c, t, root, at, n, m);
      } else {
        AncestorsFilled(c, t, root, at, m, p[..j - 1]);
        OnTheWayDown(c, p, k, j - 1);
        var l :| l in t && t[l].filled && t[l].id == t[n].id;
        IdsDiffer(c, t, root, at, n, l);
      }
      assert false;
    }
  }

  /** A search that ends in memory caches the path. */
  lemma CachedHere(c: Cloud, root: Node, s: Snapshot, n: Node, p: Path)
    requires WellFormed(c) && Mirrored(c, root, s) && n in s.tree && Walk(c, ROOT, p) == Some(s.tree[n].id)
    requires p != [] && p !in s.maps.paths
    ensures CachedBy(c, Known(FilledIds(s.tree), s.maps.paths.Keys), p) == {p}
  {
    assert p[..|p|] == p;
    WayInMemory(c, s.tree, root, s.at, n, p, |p|, |p|);
  }

  lemma NothingBeyond(c: Cloud, p: Path, k: nat, j: nat)
    requires k < j <= |p| && Walk(c, ROOT, p[..k + 1]).None?
    ensures Walk(c, ROOT, p[..j]).None?
  {
    assert p[..j][..k + 1] == p[..k + 1];
    WalkCut(c, p[..j], k + 1);
  }

  /** A search that goes on from an unfilled node to the k2-th name caches the stretch in between. */
  lemma CachedStretch(c: Cloud, root: Node, s: Snapshot, n: Node, p: Path, k: nat, k2: nat)
    requires WellFormed(c) && Mirrored(c, root, s) && n in s.tree && k <= k2 <= |p| && p != [] && p !in s.maps.paths
    requires Walk(c, ROOT, p[..k]) == Some(s.tree[n].id) && k < |p| && (!s.tree[n].filled || k2 == k)
    requires Walk(c, ROOT, p[..k2]).Some? && (k2 < |p| ==> Walk(c, ROOT, p[..k2 + 1]) == None)
    ensures CachedBy(c, Known(FilledIds(s.tree), s.maps.paths.Keys), p) == Stretch(p, k, k2)
  {
    MirroredTree(c, root, s);
    hide WellFormed, Mirrored, Mirrors, Walk, InMemory, FilledIds;
    var loaded := FilledIds(s.tree);
    forall j | 0 < j <= |p|
      ensures Walk(c, ROOT, p[..j]).Some? && !InMemory(c, loaded, p[..j]) <==> k < j <= k2
    {
      if j <= k {
        WayInMemory(c, s.tree, root, s.at, n, p, k, j);
      } else if j > k2 {
        NothingBeyond(c, p, k2, j);
      } else {
        OnWalk(c, p, j, k2);
        NotInMemory(c, s.tree, root, s.at, n, p, k, j);
      }
    }
    assert p[..|p|] == p;
    if k2 < |p| { NothingBeyond(c, p, k2, |p|); }
    StretchIs(c, Known(loaded, s.maps.paths.Keys), p, k, k2);
  }

  lemma StretchIs(c: Cloud, known: Known, p: Path, k: nat, k2: nat)
    requires k <= k2 <= |p| && k < |p| && p !in known.cached
    requires forall j :: 0 < j <= |p| ==>
               (Walk(c, ROOT, p[..j]).Some? && !InMemory(c, known.loaded, p[..j]) <==> k < j <= k2)
    requires k2 < |p| ==> Walk(c, ROOT, p) == None
    ensures CachedBy(c, known, p) == Stretch(p, k, k2)
  {
    hide Walk, InMemory;
    assert p[..|p|] == p;
    assert !(Walk(c, ROOT, p).Some? && InMemory(c, known.loaded, p));
  }

  lemma MirroredTree(c: Cloud, root: Node, s: Snapshot)
    requires Mirrored(c, root, s)
    ensures Mirrors(c, s.tree, root, s.at)
  {
  }
}
