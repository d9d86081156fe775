/** Short runs that end badly: creations below what was not looked up. */
module Mishaps {
  import opened Basics
  import opened CloudTree
  import opened CloudUpdates
  import opened LoadedTree
  import opened NodeCache
  import opened Loading
  import opened Lookups
  import opened Operations
  import opened Creation
  import opened CreationEffects
  import opened CloudFileSystem
  import opened Runs

  /** A drive with one folder in its root. */
  function OneFolder(f: Id, x: Name): Cloud {
    map[ROOT := Entry("/", true, [f]), f := Entry(x, true, [])]
  }

  lemma OneFolderFacts(f: Id, x: Name, y: Name)
    requires f != ROOT
    ensures var c := OneFolder(f, x);
            && WellFormed(c) && UniqueNames(c) && c.Keys == {ROOT, f} && c[ROOT].folder && c[f] == Entry(x, true, [])
            && Walk(c, ROOT, []) == Some(ROOT) && Walk(c, ROOT, [x]) == Some(f) && Walk(c, ROOT, [x, y]) == None
            && FolderAt(c, []) && FolderAt(c, [x])
  {
    OneFolderTree(f, x);
    OneFolderWalks(f, x, y);
    hide OneFolder, WellFormed, UniqueNames, Walk;
  }

  lemma OneFolderTree(f: Id, x: Name)
    requires f != ROOT
    ensures var c := OneFolder(f, x);
            && WellFormed(c) && UniqueNames(c) && c.Keys == {ROOT, f} && c[ROOT].folder && c[f] == Entry(x, true, [])
  {
  }

  lemma OneFolderWalks(f: Id, x: Name, y: Name)
    requires f != ROOT
    ensures var c := OneFolder(f, x);
            Walk(c, ROOT, []) == Some(ROOT) && Walk(c, ROOT, [x]) == Some(f) && Walk(c, ROOT, [x, y]) == None
  {
    hide WellFormed, UniqueNames;
    var c := OneFolder(f, x);
    assert CloudTree.Lookup(c, [f], x) == Some(f);
    assert [x][..0] == [] && [x, y][..1] == [x];
    assert Child(c, ROOT, x) == Some(f) && Child(c, f, y) == None;
  }

  // ---------- a folder made twice ----------

  lemma RootHasNothing(c: Cloud, root: Node, s: Snapshot, p: Path)
    requires WellFormed(c) && Faithful(c, root, s) && FilledIds(s.tree) == {} && p != []
    ensures root in s.tree && Reached(s.tree, root, p, 0) == (root, 0)
  {
    assert root in s.tree;
    if s.tree[root].filled { FilledMember(s.tree, root); }
    UnfilledIsEmpty(c, root, s, root);
  }

  lemma TwiceMade(c: Cloud, root: Node, s: Snapshot, did: Making, u: Snapshot, f: Id, a: Name)
    requires Walk(c, ROOT, [a]) == Some(f) && FolderAt(c, []) && Creates(c, root, s, did, u)
    requires |did.path| == 2 && did.path[0] == a && did.from == 0 && TrueBut(c, s.tree, s.maps.paths, {})
    ensures InFolder(c, did) && !NameIsNew(c, did) && Walk(DriveAfter(c, s, did), ROOT, [a]) == Some(f)
    ensures did.chain.ids != []
    ensures LookupAnswer(DriveAfter(c, s, did), u.tree, u.maps.paths, root, [a]) == Some(did.chain.ids[0])
    ensures [a] in u.maps.paths ==> u.maps.paths[[a]] in u.tree
  {
    hide WellFormed, UniqueNames, Walk, Creates, DriveAfter, FolderAt, LookupAnswer;
    assert Held(did) == [] && Onward(did) == [a];
    WrongAfter(c, root, s, did, u, {});
    CachedAfter(c, root, s, did, u, {});
  }

  /** Only the root is loaded when a path of two names is created. */
  method CreateBelowRoot(fs: FileSystem, a: Name, b: Name, x: Id, y: Id, ghost f: Id) returns (ghost did: Making)
    requires fs.Valid() && fs.root == null && UniqueNames(fs.cloud) && x != y && x !in fs.cloud && y !in fs.cloud
    requires Walk(fs.cloud, ROOT, [a]) == Some(f) && Walk(fs.cloud, ROOT, [a, b]) == None && FolderAt(fs.cloud, [])
    modifies fs, fs.cache
    ensures fresh(fs.live.Keys)
    ensures fs.Works() && fs.root != null && ([a] in fs.cache.pathNodes ==> fs.cache.pathNodes[[a]] in fs.live)
    ensures !UniqueNames(fs.cloud) && Walk(fs.cloud, ROOT, [a]) == Some(f) && Walk(fs.cloud, ROOT, [a, b]) == None
    ensures LookupAnswer(fs.cloud, fs.live, fs.cache.pathNodes, fs.root, [a]) == Some(x)
  {
    hide WellFormed, UniqueNames, Faithful, Walk, Right, Usable, AnswersRight, ListsOnce, TrueBut, Creates, FolderAt,
      Reached, LookupAnswer, DriveAfter, InFolder, NameIsNew, OneBelowFilled, FileSystem.Coupled, FilledIds,
      FileSystem.Adds;
    fs.ValidWorks([]);
    var top := fs.GetRoot();
    ghost var c, s := fs.cloud, fs.Snap();
    RootHasNothing(c, top, s, [a, b]);
    FaithfulSound(c, top, s, {});
    TruePaths(c, top, s, {});
    assert [a, b][0..] == [a, b];
    var status, r;
    status, r, did := fs.CreateNode([a, b], true, [x, y]);
    StopsAs(c, top, s, did, fs.Snap());
    TwiceMade(c, top, s, did, fs.Snap(), f, a);
  }

  lemma StopsAs(c: Cloud, root: Node, s: Snapshot, did: Making, u: Snapshot)
    requires Creates(c, root, s, did, u)
    ensures did.top == Reached(s.tree, root, did.path, 0).0 && did.from == Reached(s.tree, root, did.path, 0).1
  {
  }

  /**
   * Asked for /a/b with only the root loaded, a drive that has /a gets a second one; a lookup of /a then finds the new
   * folder, where the drive's own walk leads to the old one, and /a/b is not there.
   */
  method FolderMadeTwice(f: Id, a: Name, b: Name, x: Id, y: Id) returns (fs: FileSystem, found: Node?)
    requires f != ROOT && x != y && x !in {ROOT, f} && y !in {ROOT, f}
    ensures !UniqueNames(fs.cloud) && Walk(fs.cloud, ROOT, [a]) == Some(f) && Walk(fs.cloud, ROOT, [a, b]) == None
    ensures found != null && found.id == x
  {
    hide OneFolder, WellFormed, UniqueNames, Walk, Usable, LookupAnswer, FileSystem.Coupled, FileSystem.Works, FolderAt,
      Right, CacheGained, Stays, Faithful, LookedUp, Looked;
    OneFolderFacts(f, a, b);
    fs := new FileSystem(OneFolder(f, a));
    ghost var did := CreateBelowRoot(fs, a, b, x, y, f);
    found := fs.Get([a]);
    Recorded(fs, found);
  }

  lemma Recorded(fs: FileSystem, n: Node?)
    requires fs.Works()
    ensures n != null && n in fs.live ==> n.id == fs.live[n].id
  {
    if n != null && n in fs.live { fs.AsRecorded(n); }
  }

  // ---------- an entry listed twice ----------

  /** With the root listed and the folder not, the search for /x/y ends at the folder's node. */
  lemma OneShort(c: Cloud, root: Node, s: Snapshot, n: Node, f: Id, x: Name, y: Name)
    requires f != ROOT && c == OneFolder(f, x) && Faithful(c, root, s) && n in s.tree && s.tree[n].id == f
    requires FilledIds(s.tree) == FoldersAlong(c, [x])
    ensures !s.tree[n].filled && Reached(s.tree, root, [x, y], 0) == (n, 1)
  {
    OneFolderFacts(f, x, y);
    var p := [x, y];
    assert p[..0] == [] && p[..1] == [x] && p[..2] == p && [x][..0] == [];
    assert FoldersAlong(c, [x]) == {ROOT};
    if s.tree[n].filled { FilledMember(s.tree, n); }
    FaithfulMirrors(c, root, s);
    hide OneFolder, WellFormed, UniqueNames, Faithful, Mirrors, Walk, Reached, FolderAt, FilledIds, FoldersAlong, Stops;
    SearchStops(c, root, s, p);
    var r := Reached(s.tree, root, p, 0);
    StopsShort(c, root, s, p, r.0, r.1);
    StopsFacts(c, root, s, p, r.0, r.1);
    if r.1 == 0 { FilledById(c, root, s, r.0); } else { IdsDiffer(c, s.tree, root, s.at, r.0, n); }
  }

  lemma ListsTwice(c: Cloud, root: Node, s: Snapshot, did: Making, u: Snapshot, n: Node, f: Id, x: Name, y: Name)
    requires f in c && c[f] == Entry(x, true, []) && Creates(c, root, s, did, u) && did.path == [x, y]
    requires Walk(c, ROOT, [x, y]) == None && FolderAt(c, [x])
    requires did.top == n && did.from == 1 && n in s.tree && s.tree[n].id == f && !s.tree[n].filled
    ensures InFolder(c, did) && NameIsNew(c, did) && did.chain.ids != []
    ensures n in u.tree && u.tree[n].folder
    ensures ListedIds(DriveAfter(c, s, did), u.tree, n) == [did.chain.ids[0], did.chain.ids[0]]
  {
    hide WellFormed, UniqueNames, Faithful, Right, Mirrors, Chained, Reached, Walk, Creates, DriveAfter, FolderAt,
      ListedIds, Child;
    assert Held(did) == [x] && Onward(did) == [x, y];
    CreatesFacts(c, root, s, did, u);
    CreatesSizes(c, root, s, did, u);
    ChainedOld(s, u, did.top, did.made, did.chain, n);
    TopLists(c, root, s, did, u);
    BackedIn(c, root, s, n);
    var i := did.chain.ids[0];
    assert [i] + c[f].kids + [i] == [i, i];
  }

  /** A folder is looked up, and an entry created in it. */
  method CreateInFolder(fs: FileSystem, f: Id, x: Name, y: Name, i: Id) returns (n: Node)
    requires fs.Valid() && fs.root == null && f != ROOT && fs.cloud == OneFolder(f, x) && i !in {ROOT, f}
    modifies fs, fs.cache
    ensures fs.Works() && fs.root != null && Right(fs.cloud, fs.root, fs.live) && n in fs.live && fs.live[n].folder
    ensures TrueBut(fs.cloud, fs.live, fs.cache.pathNodes, {}) && Walk(fs.cloud, ROOT, [x, y]) == Some(i)
    ensures ListedIds(fs.cloud, fs.live, n) == [i, i] && fresh(fs.live.Keys)
  {
    hide OneFolder, WellFormed, UniqueNames, Faithful, Walk, Right, Usable, AnswersRight, ListsOnce, TrueBut, Creates,
      Reached, LookedUp, LookupAnswer, DriveAfter, InFolder, NameIsNew, OneBelowFilled, FoldersAlong, ListedIds,
      FilledIds, FolderAt, FileSystem.Coupled, FileSystem.Answered, FileSystem.Works, Looked, FileSystem.Adds;
    OneFolderFacts(f, x, y);
    ghost var c := fs.cloud;
    var found := fs.Get([x]);
    n := found;
    ghost var s := fs.Snap();
    LookupFilled(old(fs.Snap()), s, FoldersAlong(c, [x]));
    NothingFilled(old(fs.live), FoldersAlong(c, [x]));
    OneShort(c, fs.root, s, n, f, x, y);
    assert [x, y][1..] == [y];
    var status, r, did := fs.CreateNode([x, y], false, [i]);
    StopsAs(c, fs.root, s, did, fs.Snap());
    ListsTwice(c, fs.root, s, did, fs.Snap(), n, f, x, y);
    MadeId(c, fs.root, s, did, fs.Snap());
  }

  lemma MadeId(c: Cloud, root: Node, s: Snapshot, did: Making, u: Snapshot)
    requires Creates(c, root, s, did, u)
    ensures did.made != [] && did.made[|did.made| - 1] in u.tree && |did.made| <= |did.chain.ids|
    ensures u.tree[did.made[|did.made| - 1]].id == did.chain.ids[|did.made| - 1]
  {
    hide Stops, Chained, ChainOk;
    CreatesSizes(c, root, s, did, u);
    LinkNamed(s, u, did.top, did.made, did.chain, |did.made| - 1, "");
  }

  /**
   * Created in a folder that was looked up but not listed, an entry is listed twice, although every lookup goes on
   * being answered as the drive walks.
   */
  method ListedTwice(f: Id, x: Name, y: Name, i: Id) returns (fs: FileSystem, listed: seq<Row>)
    requires f != ROOT && i !in {ROOT, f}
    ensures fs.root != null && Right(fs.cloud, fs.root, fs.live) && TrueBut(fs.cloud, fs.live, fs.cache.pathNodes, {})
    ensures Walk(fs.cloud, ROOT, [x, y]) == Some(i) && |listed| == 2 && listed[0].id == i && listed[1].id == i
  {
    hide OneFolder, WellFormed, UniqueNames, Walk, Right, Usable, TrueBut, Stays, ListedIds, FileSystem.Coupled,
      FileSystem.Valid, FolderAt;
    OneFolderFacts(f, x, y);
    fs := new FileSystem(OneFolder(f, x));
    var n := CreateInFolder(fs, f, x, y, i);
    ghost var t, paths := fs.live, fs.cache.pathNodes;
    var items := fs.GetDirectoryIterator(n);
    StillTrue(fs.cloud, t, fs.live, paths);
    ItemsLive(fs, n);
    listed := RowsFrom(fs, items.value);
    RowIds(fs.live, items.value, listed);
  }

  lemma RowIds(t: Tree, nodes: seq<Node>, rows: seq<Row>)
    requires |rows| == |nodes| && forall a :: 0 <= a < |nodes| ==> nodes[a] in t && rows[a] == RowAt(t, nodes[a])
    ensures forall a :: 0 <= a < |nodes| ==> rows[a].id == IdsIn(t, nodes)[a]
  {
  }

  lemma ItemsLive(fs: FileSystem, n: Node)
    requires fs.Works() && fs.root != null && n in fs.live
    ensures fs.Coupled() && forall m :: m in fs.live[n].next ==> m in fs.live
  {
    fs.EntryKnown(n);
  }

  lemma NothingFilled(t: Tree, folders: set<Id>)
    requires t == map[]
    ensures FilledIds(t) + folders == folders
  {
  }

  lemma StillTrue(c: Cloud, t: Tree, u: Tree, paths: map<Path, Node>)
    requires TrueBut(c, t, paths, {}) && Stays(t, u)
    ensures TrueBut(c, u, paths, {})
  {
    hide Walk;
  }
}
