/** Whole runs: the file system with its lazy loading and its cache against a machine that has neither. */
module Runs {
  import opened Basics
  import opened CloudTree
  import opened CloudUpdates
  import opened CloudRename
  import opened LoadedTree
  import opened NodeCache
  import opened Loading
  import opened TreeRemoval
  import opened Removals
  import opened Operations
  import opened RenameOperation
  import opened Lookups
  import opened Creation
  import opened CreationEffects
  import opened CloudFileSystem
  import EventLog

  datatype Op =
    | Lookup(path: Path)
    | List(path: Path)
    | Create(path: Path, isDirectory: bool, serverId: Id)
    | Remove(path: Path)
    | Rename(src: Path, dst: Path)

  /** One line of a listing. */
  datatype Row = Row(id: Id, name: Name, folder: bool)

  datatype Answer =
    | AtPath(found: Option<Id>)
    | Listing(rows: Option<multiset<Row>>)
    | Opened(id: Id)
    | Made(id: Id)
    | IsDirectory
    | AlreadyExists
    | NotDirectory
    | RemoveAnswer(removal: RemoveStatus)
    | RenameAnswer(renaming: RenameStatus)

  /**
   * The plain machine: the drive alone. What the real one has read and cached is recorded, and never shows in an
   * answer.
   */
  datatype Plain = Plain(cloud: Cloud, known: Known)

  function Up(p: Path): Path {
    if p == [] then [] else p[..|p| - 1]
  }

  function Last(p: Path): Name {
    if p == [] then "" else p[|p| - 1]
  }

  function IdAt(c: Cloud, p: Path): Id {
    match Walk(c, ROOT, p)
    case None => ROOT
    case Some(i) => i
  }

  function RowOf(c: Cloud, i: Id): Row {
    if i in c then Row(i, c[i].name, c[i].folder) else Row(i, "", false)
  }

  /** The entries of a folder, each once, with name and kind. */
  function RowsOf(c: Cloud, ids: seq<Id>): (r: seq<Row>)
    ensures |r| == |ids|
  {
    seq(|ids|, a requires 0 <= a < |ids| => RowOf(c, ids[a]))
  }

  function ListingOf(c: Cloud, p: Path): multiset<Row> {
    if IdAt(c, p) in c then multiset(RowsOf(c, c[IdAt(c, p)].kids)) else multiset{}
  }

  ghost function Seen(s: Plain, p: Path): Plain {
    s.(known := Looked(s.cloud, s.known, p))
  }

  /** What is known of the paths that are left. */
  ghost function Keeping(k: Known, c: Cloud, gone: set<Path>): Known {
    Known(k.loaded * c.Keys, k.cached - gone)
  }

  ghost function BelowIn(paths: set<Path>, p: Path): set<Path> {
    set q | q in paths && StrictlyBelow(p, q)
  }

  ghost function AtOrBelow(cached: set<Path>, p: Path): set<Path> {
    set q | q in cached && p <= q
  }

  /** The drive after a request. */
  ghost function DriveNext(c: Cloud, op: Op): Cloud {
    match op
    case Create(p, isDirectory, i) =>
      if Walk(c, ROOT, p).None? && FolderAt(c, Up(p)) then Created(c, IdAt(c, Up(p)), i, Last(p), isDirectory) else c
    case Remove(p) =>
      if p != [] && Walk(c, ROOT, p).Some? && IdAt(c, p) in c then Removed(c, IdAt(c, p)) else c
    case Rename(src, dst) =>
      if RenameAnswerOf(c, src, dst) == Renamed && IdAt(c, src) in c
      then RenamedTree(c, IdAt(c, src), IdAt(c, Up(src)), IdAt(c, Up(dst)), Last(dst)) else c
    case _ => c
  }

  ghost function Next(s: Plain, op: Op): Plain {
    var c, d := s.cloud, DriveNext(s.cloud, op);
    match op
    case Lookup(p) => Seen(s, p)
    case List(p) =>
      var t := Seen(s, p);
      if FolderAt(c, p) then t.(known := Known(t.known.loaded + {IdAt(c, p)}, t.known.cached)) else t
    case Create(p, isDirectory, i) =>
      if Walk(c, ROOT, p).Some? then Seen(s, p) else Plain(d, Seen(Seen(s, p), Up(p)).known)
    case Remove(p) =>
      var t := Seen(s, p);
      if p != [] && Walk(c, ROOT, p).Some? && IdAt(c, p) in c
      then Plain(d, Keeping(t.known, d, AtOrBelow(t.known.cached, p))) else t
    case Rename(src, dst) =>
      var known := RenameLooks(c, s.known, src, dst);
      if RenameAnswerOf(c, src, dst) == Renamed && IdAt(c, src) in c
      then Plain(d, Keeping(known, d, AtOrBelow(known.cached, src) + AtOrBelow(known.cached, dst)))
      else s.(known := known)
  }

  /** What is known never changes what happens to the drive. */
  lemma NextDrive(s: Plain, op: Op)
    ensures Next(s, op).cloud == DriveNext(s.cloud, op)
  {
    hide Walk, Looked, FolderAt, RenameLooks, Created, Removed, RenamedTree;
  }

  function RenameAnswerOf(c: Cloud, src: Path, dst: Path): RenameStatus {
    if Walk(c, ROOT, src).None? then SourceMissing
    else if src == [] || dst == [] || Walk(c, ROOT, Up(dst)).None? then ParentMissing
    else Renamed
  }

  /** What the plain machine answers, from walks of the drive alone. */
  ghost function AnswerOf(c: Cloud, op: Op): Answer {
    match op
    case Lookup(p) => AtPath(Walk(c, ROOT, p))
    case List(p) => Listing(if FolderAt(c, p) then Some(ListingOf(c, p)) else None)
    case Create(p, isDirectory, i) =>
      if Walk(c, ROOT, p).Some? then
        if isDirectory then AlreadyExists else if FolderAt(c, p) then IsDirectory else Opened(IdAt(c, p))
      else if FolderAt(c, Up(p)) then Made(i) else NotDirectory
    case Remove(p) => RemoveAnswer(if p != [] && Walk(c, ROOT, p).Some? then RemoveSuccess else RemoveNotFound)
    case Rename(src, dst) => RenameAnswer(RenameAnswerOf(c, src, dst))
  }

  /**
   * What callers must respect in any case: fresh ids from the drive, an existing parent for a new name, and no rename
   * into the node itself or into a file.
   */
  ghost predicate Proper(c: Cloud, op: Op) {
    match op
    case Create(p, _, i) => i !in c && (Walk(c, ROOT, p).None? ==> p != [] && Walk(c, ROOT, Up(p)).Some?)
    case Rename(src, dst) =>
      && src != dst && (src == [] || !(src <= dst))
      && (dst != [] && Walk(c, ROOT, Up(dst)).Some? ==> FolderAt(c, Up(dst)))
    case _ => true
  }

  /** And renames only of nodes strictly below which no path is cached. */
  ghost predicate Legal(s: Plain, op: Op) {
    Proper(s.cloud, op) && (op.Rename? ==> forall q :: q in s.known.cached ==> !StrictlyBelow(op.src, q))
  }

  ghost predicate LegalRun(s: Plain, ops: seq<Op>)
    decreases |ops|
  {
    ops == [] || (Legal(s, ops[0]) && LegalRun(Next(s, ops[0]), ops[1..]))
  }

  ghost function Answers(c: Cloud, ops: seq<Op>): seq<Answer>
    decreases |ops|
  {
    if ops == [] then [] else [AnswerOf(c, ops[0])] + Answers(DriveNext(c, ops[0]), ops[1..])
  }

  ghost function After(s: Plain, ops: seq<Op>): Plain
    decreases |ops|
  {
    if ops == [] then s else After(Next(s, ops[0]), ops[1..])
  }

  /** The drive before each request of a run, and at its end. */
  ghost predicate Drives(c: Cloud, ops: seq<Op>, drives: seq<Cloud>) {
    && |drives| == |ops| + 1 && drives[0] == c
    && forall k :: 0 <= k < |ops| ==> drives[k + 1] == DriveNext(drives[k], ops[k])
  }

  /** The answers come in order, each from the drive as the requests before it have left it. */
  lemma {:induction false} AnswerAt(s: Plain, ops: seq<Op>, drives: seq<Cloud>)
    requires Drives(s.cloud, ops, drives)
    ensures |Answers(s.cloud, ops)| == |ops| && After(s, ops).cloud == drives[|ops|]
    ensures forall k :: 0 <= k < |ops| ==> Answers(s.cloud, ops)[k] == AnswerOf(drives[k], ops[k])
    decreases |ops|
  {
    hide AnswerOf, DriveNext, Next;
    if ops != [] {
      NextDrive(s, ops[0]);
      assert drives[0 + 1] == DriveNext(drives[0], ops[0]);
      AnswerAt(Next(s, ops[0]), ops[1..], drives[1..]);
    }
  }

  ghost function StateOf(fs: FileSystem): Plain
    reads fs, fs.cache
  {
    Plain(fs.cloud, fs.Knows())
  }

  /** Paths that stay cached keep their nodes, and the root stays. */
  ghost predicate Keeps(root: Node?, paths: map<Path, Node>, newRoot: Node?, newPaths: map<Path, Node>) {
    && (root != null ==> newRoot == root)
    && forall q :: q in paths && q in newPaths ==> newPaths[q] == paths[q]
  }

  lemma KeepsCached(s: Snapshot, u: Snapshot, root: Node?, newRoot: Node?)
    requires StillCached(s, u) && (root != null ==> newRoot == root)
    ensures Keeps(root, s.maps.paths, newRoot, u.maps.paths)
  {
  }

  // ---------- one request ----------

  method DoLookup(fs: FileSystem, p: Path, ghost stale: set<Path> := {}) returns (a: Answer)
    requires (fs.Valid() || (fs.SoundBut(stale) && p !in stale)) && UniqueNames(fs.cloud)
    modifies fs, fs.cache, fs.live.Keys
    ensures fs.SoundBut(stale) && UniqueNames(fs.cloud) && fresh(fs.live.Keys - old(fs.live.Keys))
    ensures a == AtPath(Walk(fs.cloud, ROOT, p)) && fs.cloud == old(fs.cloud)
    ensures a == AnswerOf(old(fs.cloud), Lookup(p)) && StateOf(fs) == Next(old(StateOf(fs)), Lookup(p))
    ensures old(fs.Valid()) ==>
              fs.Valid() && Keeps(old(fs.root), old(fs.cache.pathNodes), fs.root, fs.cache.pathNodes)
  {
    hide UniqueNames, WellFormed, Walk, FilledIds, FoldersAlong, Looked, LookedUp, Loaded, StillCached, Keeps,
      FileSystem.Coupled, FileSystem.Valid, FileSystem.Works, FileSystem.SoundBut, FileSystem.Answered;
    var n := fs.Get(p, stale);
    if old(fs.Valid()) { LookupKeeps(old(fs.Snap()), fs.Snap(), p, FoldersAlong(fs.cloud, p), old(fs.root), fs.root); }
    if n == null { return AtPath(None); }
    Recorded(fs, n);
    a := AtPath(Some(n.id));
  }

  lemma LookupKeeps(s: Snapshot, u: Snapshot, p: Path, folders: set<Id>, root: Node?, newRoot: Node?)
    requires LookedUp(s, u, p, folders) && (root != null ==> newRoot == root)
    ensures Keeps(root, s.maps.paths, newRoot, u.maps.paths) && StillCached(s, u)
  {
    hide Keeps;
    StaysCached(s, u, p, folders);
    KeepsCached(s, u, root, newRoot);
  }

  lemma Recorded(fs: FileSystem, n: Node)
    requires fs.Works() && n in fs.live
    ensures n.State() == fs.live[n]
  {
  }

  method DoList(fs: FileSystem, p: Path, ghost stale: set<Path> := {}) returns (a: Answer)
    requires (fs.Valid() || (fs.SoundBut(stale) && p !in stale)) && UniqueNames(fs.cloud)
    modifies fs, fs.cache, fs.live.Keys
    ensures fs.SoundBut(stale) && UniqueNames(fs.cloud) && fresh(fs.live.Keys - old(fs.live.Keys))
    ensures var w := Walk(fs.cloud, ROOT, p);
            && fs.cloud == old(fs.cloud) && a.Listing?
            && (a.rows.Some? <==> w.Some? && w.value in fs.cloud && fs.cloud[w.value].folder)
            && (a.rows.Some? ==> EachListed(fs.cloud, w.value, a.rows.value))
    ensures a == AnswerOf(old(fs.cloud), List(p)) && StateOf(fs) == Next(old(StateOf(fs)), List(p))
    ensures old(fs.Valid()) ==>
              fs.Valid() && Keeps(old(fs.root), old(fs.cache.pathNodes), fs.root, fs.cache.pathNodes)
  {
    hide UniqueNames, WellFormed, Walk, FilledIds, FoldersAlong, LookedUp, Loaded, Faithful, Looked, StillCached, Keeps,
      FileSystem.Coupled, FileSystem.Valid, FileSystem.Works, FileSystem.SoundBut, FileSystem.Answered;
    var n := fs.Get(p, stale);
    if old(fs.Valid()) { LookupKeeps(old(fs.Snap()), fs.Snap(), p, FoldersAlong(fs.cloud, p), old(fs.root), fs.root); }
    if n == null { return Listing(None); }
    var rows := ListNode(fs, n, p, stale);
    a := Listing(rows);
    fs.MirrorHere(stale);
    if FolderAt(fs.cloud, p) { ListingIs(fs.cloud, IdAt(fs.cloud, p)); }
  }

  /** Each entry of the folder is in the listing once, with its name and kind, and nothing else is. */
  ghost predicate EachListed(c: Cloud, i: Id, rows: multiset<Row>) {
    && i in c
    && (forall k :: k in c[i].kids ==> k in c && rows[Row(k, c[k].name, c[k].folder)] == 1)
    && forall r :: r in rows ==>
         r.id in c[i].kids && r.id in c && r.name == c[r.id].name && r.folder == c[r.id].folder
  }

  lemma ListingIs(c: Cloud, i: Id)
    requires WellFormed(c) && i in c
    ensures EachListed(c, i, multiset(RowsOf(c, c[i].kids)))
  {
    RowsDiffer(c, c[i].kids);
    hide WellFormed;
    var kids := c[i].kids;
    var rows := RowsOf(c, kids);
    forall k | k in kids
      ensures multiset(rows)[Row(k, c[k].name, c[k].folder)] == 1
    {
      var a :| 0 <= a < |kids| && kids[a] == k;
      assert rows[a] == Row(k, c[k].name, c[k].folder);
      OnceEach(rows, rows[a]);
    }
  }

  lemma RowsDiffer(c: Cloud, kids: seq<Id>)
    ensures NoDup(kids) ==> NoDup(RowsOf(c, kids))
  {
    assert forall a :: 0 <= a < |kids| ==> RowsOf(c, kids)[a].id == kids[a];
  }

  /** The listing of a node that a lookup has found. */
  method ListNode(fs: FileSystem, n: Node, p: Path, ghost stale: set<Path>) returns (rows: Option<multiset<Row>>)
    requires fs.SoundBut(stale) && fs.root != null && n in fs.live && Walk(fs.cloud, ROOT, p) == Some(fs.live[n].id)
    modifies fs`live, fs`at, fs`log, n
    ensures fs.SoundBut(stale) && fresh(fs.live.Keys - old(fs.live.Keys)) && (old(fs.Valid()) ==> fs.Valid())
    ensures rows == if FolderAt(fs.cloud, p) then Some(ListingOf(fs.cloud, p)) else None
    ensures FilledIds(fs.live) == FilledIds(old(fs.live)) + if FolderAt(fs.cloud, p) then {IdAt(fs.cloud, p)} else {}
  {
    hide WellFormed, Walk, FilledIds, LookedUp, Loaded, Mirrored, RowsOf, FolderAt, ListedIds, IdsIn, Right,
      FileSystem.Coupled, FileSystem.Valid, FileSystem.Works, FileSystem.SoundBut;
    ghost var s := fs.Snap();
    fs.MirrorHere(stale);
    fs.SoundWorks(stale, p);
    NodeKind(fs.cloud, fs.root, s, n, p);
    var items := fs.GetDirectoryIterator(n, stale);
    LookupsKeep(s, fs.Snap(), if s.tree[n].folder then {s.tree[n].id} else {}, n);
    LookupFilled(s, fs.Snap(), if s.tree[n].folder then {s.tree[n].id} else {});
    if items == None { return None; }
    fs.MirrorHere(stale);
    NextKnown(fs.cloud, fs.root, fs.Snap(), n);
    var lines := RowsFrom(fs, items.value);
    ListedRows(fs.cloud, fs.root, fs.Snap(), n, lines);
    rows := Some(multiset(lines));
  }

  method RowsFrom(fs: FileSystem, nodes: seq<Node>) returns (rows: seq<Row>)
    requires fs.Coupled() && forall m :: m in nodes ==> m in fs.live
    ensures |rows| == |nodes|
    ensures forall a :: 0 <= a < |nodes| ==> rows[a] == RowAt(fs.live, nodes[a])
  {
    rows := [];
    var i := 0;
    while i < |nodes|
      invariant |rows| == i <= |nodes|
      invariant forall a :: 0 <= a < i ==> rows[a] == RowAt(fs.live, nodes[a])
    {
      assert nodes[i] in nodes && nodes[i].State() == fs.live[nodes[i]];
      rows := rows + [Row(nodes[i].id, nodes[i].name, nodes[i].folder)];
      i := i + 1;
    }
  }

  ghost function RowAt(t: Tree, m: Node): Row {
    if m in t then Row(t[m].id, t[m].name, t[m].folder) else Row("", "", false)
  }

  lemma NodeKind(c: Cloud, root: Node, s: Snapshot, n: Node, p: Path)
    requires Mirrored(c, root, s) && n in s.tree && Walk(c, ROOT, p) == Some(s.tree[n].id)
    ensures FolderAt(c, p) <==> s.tree[n].folder
    ensures s.tree[n].id in c && s.tree[n].id == IdAt(c, p)
    ensures forall m :: m in s.tree[n].next ==> m in s.tree
  {
    assert NodeOk(c, s.tree, root, s.at, n);
  }

  lemma {:induction false} OnceEach<T>(s: seq<T>, x: T)
    requires NoDup(s)
    ensures multiset(s)[x] == if x in s then 1 else 0
  {
    if s != [] {
      assert NoDup(s[1..]) && s[0] !in s[1..] by {
        assert forall a :: 0 <= a < |s[1..]| ==> s[1..][a] == s[a + 1];
      }
      OnceEach(s[1..], x);
      assert s == [s[0]] + s[1..];
      assert multiset(s) == multiset{s[0]} + multiset(s[1..]);
    }
  }

  lemma SameOnce<T>(a: seq<T>, b: seq<T>)
    requires NoDup(a) && NoDup(b) && forall x :: x in a <==> x in b
    ensures multiset(a) == multiset(b)
  {
    forall x
      ensures multiset(a)[x] == multiset(b)[x]
    {
      OnceEach(a, x);
      OnceEach(b, x);
    }
  }

  /** A filled folder lists each entry of the drive once, with its name and kind. */
  lemma ListedRows(c: Cloud, root: Node, s: Snapshot, n: Node, rows: seq<Row>)
    requires WellFormed(c) && Mirrored(c, root, s) && n in s.tree && s.tree[n].filled && |rows| == |s.tree[n].next|
    requires forall a :: 0 <= a < |rows| ==> rows[a] == RowAt(s.tree, s.tree[n].next[a])
    ensures s.tree[n].id in c && multiset(rows) == multiset(RowsOf(c, c[s.tree[n].id].kids))
  {
    FolderFacts(c, root, s, n);
    var next, kids := s.tree[n].next, c[s.tree[n].id].kids;
    var want := RowsOf(c, kids);
    forall a | 0 <= a < |next|
      ensures rows[a].id in kids && rows[a] == RowOf(c, rows[a].id)
    {
      assert next[a] in next;
    }
    forall k | k in kids
      ensures exists a :: 0 <= a < |next| && rows[a].id == k
    {
      var m :| m in next && s.tree[m].id == k;
      var a :| 0 <= a < |next| && next[a] == m;
      assert rows[a].id == k;
    }
    forall a, b | 0 <= a < b < |next|
      ensures rows[a].id != rows[b].id
    {
      NextIdsDiffer(c, root, s, n, a, b);
    }
    hide Mirrored;
    SameRows(c, rows, kids);
  }

  lemma NextIdsDiffer(c: Cloud, root: Node, s: Snapshot, n: Node, a: nat, b: nat)
    requires Mirrored(c, root, s) && n in s.tree && a < b < |s.tree[n].next|
    ensures s.tree[n].next[a] in s.tree && s.tree[n].next[b] in s.tree
    ensures s.tree[s.tree[n].next[a]].id != s.tree[s.tree[n].next[b]].id
  {
    assert NodeOk(c, s.tree, root, s.at, n);
    hide NodeOk;
    assert s.tree[n].next[a] in s.tree[n].next && s.tree[n].next[b] in s.tree[n].next;
    NextKnown(c, root, s, n);
    IdsDiffer(c, s.tree, root, s.at, s.tree[n].next[a], s.tree[n].next[b]);
  }

  lemma NextKnown(c: Cloud, root: Node, s: Snapshot, n: Node)
    requires Mirrored(c, root, s) && n in s.tree
    ensures NoDup(s.tree[n].next) && forall m :: m in s.tree[n].next ==> m in s.tree
  {
    assert NodeOk(c, s.tree, root, s.at, n);
  }

  lemma FolderFacts(c: Cloud, root: Node, s: Snapshot, n: Node)
    requires WellFormed(c) && Mirrored(c, root, s) && n in s.tree && s.tree[n].filled
    ensures s.tree[n].id in c && NoDup(s.tree[n].next) && NoDup(c[s.tree[n].id].kids)
    ensures forall m :: m in s.tree[n].next ==>
              && m in s.tree && s.tree[m].id in c && s.tree[m].id in c[s.tree[n].id].kids
              && s.tree[m].name == c[s.tree[m].id].name && s.tree[m].folder == c[s.tree[m].id].folder
    ensures forall k :: k in c[s.tree[n].id].kids ==> exists m :: m in s.tree[n].next && s.tree[m].id == k
  {
    assert NodeOk(c, s.tree, root, s.at, n);
    forall m | m in s.tree[n].next
      ensures m in s.tree && s.tree[m].id in c
      ensures s.tree[m].name == c[s.tree[m].id].name && s.tree[m].folder == c[s.tree[m].id].folder
    {
      assert NodeOk(c, s.tree, root, s.at, m);
    }
    forall k | k in c[s.tree[n].id].kids
      ensures exists m :: m in s.tree[n].next && s.tree[m].id == k
    {
      assert Holds(s.tree, n, k);
      var m: Node :| m in s.tree[n].next && m in s.tree && s.tree[m].id == k;
    }
  }

  lemma SameRows(c: Cloud, rows: seq<Row>, kids: seq<Id>)
    requires forall a :: 0 <= a < |rows| ==>
               rows[a].id in kids && rows[a].id in c && rows[a] == RowOf(c, rows[a].id)
    requires forall k :: k in kids ==> exists a :: 0 <= a < |rows| && rows[a].id == k
    requires NoDup(kids) && forall a, b :: 0 <= a < b < |rows| ==> rows[a].id != rows[b].id
    ensures multiset(rows) == multiset(RowsOf(c, kids))
  {
    var want := RowsOf(c, kids);
    forall x
      ensures x in rows <==> x in want
    {
      if x in rows {
        var a :| 0 <= a < |rows| && rows[a] == x;
        var b :| 0 <= b < |kids| && kids[b] == x.id;
        assert want[b] == x;
      }
      if x in want {
        var b :| 0 <= b < |kids| && want[b] == x;
        assert kids[b] in kids;
        var a :| 0 <= a < |rows| && rows[a].id == kids[b];
        assert rows[a] == x;
      }
    }
    SameOnce(rows, want);
  }

  /**
   * Create as the mount front end does it for a file: look the path up, then its parent, then create. For a directory
   * the front end itself asks for nothing; here the same lookups come first.
   */
  method DoCreate(fs: FileSystem, p: Path, isDirectory: bool, serverId: Id, ghost stale: set<Path> := {})
    returns (a: Answer)
    requires (fs.Valid() || (fs.SoundBut(stale) && TargetClear(p, stale))) && UniqueNames(fs.cloud)
    requires Proper(fs.cloud, Create(p, isDirectory, serverId))
    modifies fs, fs.cache, fs.live.Keys
    ensures fs.SoundBut(stale) && UniqueNames(fs.cloud) && fresh(fs.live.Keys - old(fs.live.Keys))
    ensures var w := Walk(old(fs.cloud), ROOT, p);
            && (a == AlreadyExists <==> isDirectory && w.Some?)
            && (a == IsDirectory <==>
                  !isDirectory && w.Some? && w.value in old(fs.cloud) && old(fs.cloud)[w.value].folder)
            && (forall i :: a == Opened(i) <==>
                            !isDirectory && w == Some(i) && i in old(fs.cloud) && !old(fs.cloud)[i].folder)
    ensures var w, up := Walk(old(fs.cloud), ROOT, p), Walk(old(fs.cloud), ROOT, Up(p));
            && (a == NotDirectory <==> w.None? && up.value in old(fs.cloud) && !old(fs.cloud)[up.value].folder)
            && (forall i :: a == Made(i) <==>
                            i == serverId && w.None? && up.value in old(fs.cloud) && old(fs.cloud)[up.value].folder)
    ensures forall i :: a == Opened(i) || a == Made(i) ==>
              Walk(fs.cloud, ROOT, p) == Some(i) && i in fs.cloud && (fs.cloud[i].folder <==> isDirectory)
    ensures forall q :: q != p ==> Walk(fs.cloud, ROOT, q) == Walk(old(fs.cloud), ROOT, q)
    ensures forall i :: i in old(fs.cloud) ==> i in fs.cloud && fs.cloud[i].folder == old(fs.cloud)[i].folder
    ensures a.Made? || fs.cloud == old(fs.cloud)
    ensures a == AnswerOf(old(fs.cloud), Create(p, isDirectory, serverId))
    ensures StateOf(fs) == Next(old(StateOf(fs)), Create(p, isDirectory, serverId))
    ensures old(fs.Valid()) ==>
              fs.Valid() && Keeps(old(fs.root), old(fs.cache.pathNodes), fs.root, fs.cache.pathNodes)
  {
    hide UniqueNames, WellFormed, Walk, FilledIds, FoldersAlong, LookedUp, Loaded, Mirrored, Created, Looked,
      StillCached, Keeps, Sound, Faithful, FileSystem.Coupled, FileSystem.Valid, FileSystem.Works, FileSystem.SoundBut,
      FileSystem.Answered;
    WalkStays(fs.cloud, ROOT, Up(p));
    ghost var but := if fs.Valid() then {} else stale;
    var f := fs.Get(p, but);
    ghost var u := fs.Snap();
    if old(fs.Valid()) {
      LookupKeeps(old(fs.Snap()), u, p, FoldersAlong(fs.cloud, p), old(fs.root), fs.root);
      fs.ValidSound(stale);
    }
    if f != null {
      Recorded(fs, f);
      fs.MirrorHere(but);
      NodeKind(fs.cloud, fs.root, u, f, p);
      return if isDirectory then AlreadyExists else if f.folder then IsDirectory else Opened(f.id);
    }
    fs.MirrorHere(but);
    var made := CreateMissing(fs, p, isDirectory, serverId, old(fs.Snap()), but);
    if made { OneEntryMore(old(fs.cloud), p, isDirectory, serverId); }
    if old(fs.Valid()) {
      StillTwice(old(fs.Snap()), u, fs.Snap());
      KeepsCached(old(fs.Snap()), fs.Snap(), old(fs.root), fs.root);
      fs.ValidSound(stale);
    }
    a := if made then Made(serverId) else NotDirectory;
  }

  /** After a lookup that failed: look the parent up, and create below it if it is a folder. */
  method CreateMissing(fs: FileSystem, p: Path, isDirectory: bool, serverId: Id, ghost before: Snapshot,
                       ghost stale: set<Path>) returns (made: bool)
    requires fs.SoundBut(stale) && UniqueNames(fs.cloud) && serverId !in fs.cloud
    requires p != [] && Walk(fs.cloud, ROOT, p).None? && Walk(fs.cloud, ROOT, Up(p)).Some? && Up(p) !in stale
    requires Loaded(before, fs.Snap(), FoldersAlong(fs.cloud, p))
    modifies fs`root, fs`cloud, fs`live, fs`at, fs`log, fs.cache, fs.live.Keys
    ensures fs.SoundBut(stale) && UniqueNames(fs.cloud) && fresh(fs.live.Keys - old(fs.live.Keys))
    ensures made <==> FolderAt(old(fs.cloud), Up(p))
    ensures made ==> fs.cloud == Created(old(fs.cloud), IdAt(old(fs.cloud), Up(p)), serverId, Last(p), isDirectory)
    ensures !made ==> fs.cloud == old(fs.cloud)
    ensures fs.Knows() == Looked(old(fs.cloud), old(fs.Knows()), Up(p))
    ensures old(fs.root) != null ==> fs.root == old(fs.root)
    ensures old(fs.Valid()) ==> fs.Valid() && StillCached(old(fs.Snap()), fs.Snap())
  {
    hide UniqueNames, WellFormed, Walk, FilledIds, FoldersAlong, LookedUp, Loaded, Mirrored, Sound, Faithful, FolderAt,
      Created, ParentFilled, Looked, StillCached, FileSystem.Coupled, FileSystem.Valid, FileSystem.Works,
      FileSystem.SoundBut, FileSystem.Answered;
    ghost var s, up := fs.Snap(), p[..|p| - 1];
    var n := fs.Get(p[..|p| - 1], stale);
    ghost var u := fs.Snap();
    if old(fs.Valid()) { StaysCached(s, u, up, FoldersAlong(fs.cloud, up)); }
    fs.MirrorHere(stale);
    NodeKind(fs.cloud, fs.root, u, n, up);
    Recorded(fs, n);
    if !n.folder { return false; }
    ParentLoaded(fs.cloud, before, s, u, p);
    CreateOne(fs, p, isDirectory, serverId, stale);
    if old(fs.Valid()) { SamePaths(s, u, fs.Snap()); }
    made := true;
  }

  /** The creation itself, below a parent that is loaded. */
  method CreateOne(fs: FileSystem, p: Path, isDirectory: bool, serverId: Id, ghost stale: set<Path>)
    requires fs.SoundBut(stale) && UniqueNames(fs.cloud) && fs.root != null && serverId !in fs.cloud
    requires ParentFilled(fs.cloud, fs.Snap(), p) && Walk(fs.cloud, ROOT, p) == None
    modifies fs`cloud, fs`live, fs`at, fs.live.Keys
    ensures fs.SoundBut(stale) && UniqueNames(fs.cloud) && fresh(fs.live.Keys - old(fs.live.Keys))
    ensures fs.cloud == Created(old(fs.cloud), IdAt(old(fs.cloud), Up(p)), serverId, Last(p), isDirectory)
    ensures FilledIds(fs.live) == FilledIds(old(fs.live)) && (old(fs.Valid()) ==> fs.Valid())
  {
    hide UniqueNames, WellFormed, Walk, FilledIds, Mirrored, Sound, Faithful, FolderAt, Created, ParentFilled, Creates,
      Reached, DriveAfter, InFolder, NameIsNew, OneBelowFilled, Right, AnswersRight, ListsOnce, TrueBut, ChainOk,
      Usable, Onward, FileSystem.Coupled, FileSystem.Valid, FileSystem.Works, FileSystem.SoundBut, FileSystem.Adds;
    ghost var u := fs.Snap();
    fs.MirrorHere(stale);
    OneMissing(fs.cloud, fs.root, u, p, isDirectory, serverId);
    var status, r, did := fs.CreateNode(p, isDirectory, [serverId], stale);
    OneMade(old(fs.cloud), fs.root, u, did, fs.Snap(), p, isDirectory, serverId);
  }

  /** One new entry at its path, and no other path leads anywhere else. */
  lemma OneEntryMore(c: Cloud, p: Path, isDirectory: bool, i: Id)
    requires WellFormed(c) && i !in c && p != [] && Walk(c, ROOT, p).None? && Walk(c, ROOT, Up(p)).Some?
    requires FolderAt(c, Up(p))
    ensures var d := Created(c, IdAt(c, Up(p)), i, Last(p), isDirectory);
            && (forall q :: Walk(d, ROOT, q) == if q == p then Some(i) else Walk(c, ROOT, q))
            && i in d && (d[i].folder <==> isDirectory)
            && forall k :: k in c ==> k in d && d[k].folder == c[k].folder
  {
    hide WellFormed, Walk;
    var d := Created(c, IdAt(c, Up(p)), i, Last(p), isDirectory);
    assert p == Up(p) + [Last(p)];
    WalkSnoc(c, ROOT, Up(p), Last(p));
    forall q
      ensures Walk(d, ROOT, q) == if q == p then Some(i) else Walk(c, ROOT, q)
    {
      WalkAfterCreate(c, Up(p), IdAt(c, Up(p)), i, Last(p), isDirectory, q);
    }
  }

  /** With the parent loaded, one name is missing. */
  lemma OneMissing(c: Cloud, root: Node, u: Snapshot, p: Path, isDirectory: bool, serverId: Id)
    requires WellFormed(c) && UniqueNames(c) && Mirrored(c, root, u) && serverId !in c
    requires ParentFilled(c, u, p) && Walk(c, ROOT, p) == None
    ensures p != [] && Reached(u.tree, root, p, 0).1 == |p| - 1 && p[|p| - 1..] == [Last(p)]
    ensures ChainOk(c, Chain(p[Reached(u.tree, root, p, 0).1..], [serverId], isDirectory))
  {
    hide WellFormed, UniqueNames, Mirrored, Walk, Named, Reached, Stops;
    SearchStops(c, root, u, p);
    var r := Reached(u.tree, root, p, 0);
    assert p[..|p|] == p;
    StopsAtParent(c, root, u, p, r.0, r.1);
  }

  /** What was created is the one entry below the parent's, and memory goes on mirroring the drive. */
  lemma OneMade(c: Cloud, root: Node, u: Snapshot, did: Making, v: Snapshot, p: Path, isDirectory: bool, serverId: Id)
    requires Creates(c, root, u, did, v) && did.path == p && did.chain == Chain([Last(p)], [serverId], isDirectory)
    requires ParentFilled(c, u, p)
    ensures OneBelowFilled(u, did) && InFolder(c, did) && NameIsNew(c, did) && v.maps == u.maps
    ensures DriveAfter(c, u, did) == Created(c, IdAt(c, Up(p)), serverId, Last(p), isDirectory)
  {
    hide WellFormed, UniqueNames, Mirrored, Walk, Named, Reached, Stops, Mirrors, Right, Usable, Chained;
    CreatesFacts(c, root, u, did, v);
    CreatesSizes(c, root, u, did, v);
    StopsAtParent(c, root, u, p, did.top, did.from);
    CreationOutcome(c, root, u, did, v);
    SamePathsAfter(u, v, did.top, did.made, did.chain);
    GrownOnce(c, TopId(u, did), did.chain, 1);
  }

  lemma SamePaths(s: Snapshot, u: Snapshot, v: Snapshot)
    requires StillCached(s, u) && u.maps == v.maps
    ensures StillCached(s, v)
  {
  }

  lemma ParentLoaded(c: Cloud, s: Snapshot, u: Snapshot, v: Snapshot, p: Path)
    requires p != [] && FolderAt(c, p[..|p| - 1])
    requires Loaded(s, u, FoldersAlong(c, p)) && Loaded(u, v, FoldersAlong(c, p[..|p| - 1]))
    ensures ParentFilled(c, v, p)
  {
  }

  method DoRemove(fs: FileSystem, p: Path, ghost stale: set<Path> := {}) returns (a: Answer)
    requires (fs.Valid() || (fs.SoundBut(stale) && p !in stale)) && UniqueNames(fs.cloud)
    modifies fs, fs.cache, fs.live.Keys
    ensures fs.SoundBut(stale) && UniqueNames(fs.cloud) && fresh(fs.live.Keys - old(fs.live.Keys))
    ensures a == RemoveAnswer(RemoveSuccess) <==> p != [] && Walk(old(fs.cloud), ROOT, p).Some?
    ensures a == RemoveAnswer(RemoveNotFound) <==> p == [] || Walk(old(fs.cloud), ROOT, p).None?
    ensures if a == RemoveAnswer(RemoveSuccess) then PathGone(old(fs.cloud), fs.cloud, p) else fs.cloud == old(fs.cloud)
    ensures a == AnswerOf(old(fs.cloud), Remove(p)) && fs.cloud == DriveNext(old(fs.cloud), Remove(p))
    ensures fs.Knows().cached <= Looked(old(fs.cloud), old(fs.Knows()), p).cached
    ensures old(fs.Valid()) ==>
              && fs.Valid() && StateOf(fs) == Next(old(StateOf(fs)), Remove(p))
              && Keeps(old(fs.root), old(fs.cache.pathNodes), fs.root, fs.cache.pathNodes)
  {
    hide UniqueNames, WellFormed, Walk, FilledIds, FoldersAlong, LookedUp, Loaded, Faithful, FolderAt, Removed,
      Structured, Cut, PostOrder, SameLog, SameCache, Looked, StillCached, Keeps, FileSystem.Coupled, FileSystem.Valid,
      FileSystem.Works, FileSystem.SoundBut, EventLog.EachOnce, PathGone;
    var status, before, order := fs.RemoveNode(p, stale);
    if old(fs.Valid()) {
      KeepsLess(old(fs.Snap()), before, old(fs.root), fs.root, fs.cache.pathNodes);
      ghost var keys := before.maps.paths.Keys;
      assert status == RemoveSuccess ==> fs.cache.pathNodes.Keys == keys - AtOrBelow(keys, p);
    }
    a := RemoveAnswer(status);
  }

  lemma KeepsLess(s: Snapshot, u: Snapshot, root: Node?, newRoot: Node?, paths: map<Path, Node>)
    requires StillCached(s, u) && (root != null ==> newRoot == root)
    requires forall q :: q in paths ==> q in u.maps.paths && paths[q] == u.maps.paths[q]
    ensures Keeps(root, s.maps.paths, newRoot, paths)
  {
  }

  method DoRename(fs: FileSystem, src: Path, dst: Path, ghost stale: set<Path> := {}) returns (a: Answer)
    requires (fs.Valid() || (fs.SoundBut(stale) && Clear(src, dst, stale))) && UniqueNames(fs.cloud)
    requires Proper(fs.cloud, Rename(src, dst))
    modifies fs, fs.cache, fs.live.Keys
    ensures UniqueNames(fs.cloud) && fresh(fs.live.Keys - old(fs.live.Keys))
    ensures var known := RenameLooks(old(fs.cloud), old(fs.Knows()), src, dst);
            && fs.Knows().cached <= known.cached
            && fs.SoundBut(stale + if a == RenameAnswer(Renamed) then BelowIn(known.cached, src) else {})
    ensures a.RenameAnswer?
    ensures a == RenameAnswer(SourceMissing) <==> Walk(old(fs.cloud), ROOT, src).None?
    ensures a == RenameAnswer(Renamed) <==>
              && src != [] && Walk(old(fs.cloud), ROOT, src).Some?
              && dst != [] && Walk(old(fs.cloud), ROOT, Up(dst)).Some?
    ensures if a == RenameAnswer(Renamed) then Substituted(old(fs.cloud), fs.cloud, src, dst)
            else fs.cloud == old(fs.cloud)
    ensures a == AnswerOf(old(fs.cloud), Rename(src, dst)) && fs.cloud == DriveNext(old(fs.cloud), Rename(src, dst))
    ensures old(fs.Valid() && Legal(StateOf(fs), Rename(src, dst))) ==>
              && fs.Valid() && StateOf(fs) == Next(old(StateOf(fs)), Rename(src, dst))
              && Keeps(old(fs.root), old(fs.cache.pathNodes), fs.root, fs.cache.pathNodes)
  {
    hide UniqueNames, WellFormed, Walk, FilledIds, FoldersAlong, Faithful, FolderAt, Renames, RenameDone, RenameLooks,
      StillCached, Keeps, FileSystem.Coupled, FileSystem.Valid, FileSystem.Works, FileSystem.SoundBut, AtOrBelow,
      NothingCachedBelow, EventLog.EachOnce, Substituted;
    ghost var legal := fs.Valid() && Legal(StateOf(fs), Rename(src, dst));
    if legal { LegalRename(fs, src, dst); }
    var status, before, r, order := fs.RenameNode(src, dst, stale);
    assert CachedBelow(before.maps.paths, src) == BelowIn(before.maps.paths.Keys, src);
    assert stale + {} == stale;
    if status == Renamed {
      RenameOnDrive(old(fs.cloud), fs.root, before, r.value, fs.Now(), old(fs.log), order);
      if legal { PathsLeft(before.maps.paths, fs.cache.pathNodes, src, dst); }
    }
    if legal { KeepsLess(old(fs.Snap()), before, old(fs.root), fs.root, fs.cache.pathNodes); }
    a := RenameAnswer(status);
  }

  lemma LegalRename(fs: FileSystem, src: Path, dst: Path)
    requires Legal(StateOf(fs), Rename(src, dst))
    ensures NothingCachedBelow(fs.Snap(), src)
  {
    hide Proper;
  }

  lemma PathsLeft(paths: map<Path, Node>, left: map<Path, Node>, src: Path, dst: Path)
    requires left == map q | q in paths && !(src <= q) && !(dst <= q) :: paths[q]
    ensures left.Keys == paths.Keys - (AtOrBelow(paths.Keys, src) + AtOrBelow(paths.Keys, dst))
  {
  }

  lemma RenameOnDrive(c: Cloud, root: Node, s: Snapshot, r: Renaming, v: World, log: seq<Event>, order: seq<Node>)
    requires Renames(c, root, s, r) && RenameDone(c, root, s, r, v, log, order)
    ensures IdAt(c, r.src) in c
    ensures v.cloud == RenamedTree(c, IdAt(c, r.src), IdAt(c, Up(r.src)), IdAt(c, Up(r.dst)), Last(r.dst))
  {
    DoneOnDrive(c, root, s, r, v, log, order);
    ParentsOnDrive(c, root, s, r);
    RenamesFacts(c, root, s, r);
    hide WellFormed, UniqueNames, Faithful, Mirrors, Agrees, Consistent, RenameDone, TrueEntries, Structured;
  }

  // ---------- what a request asks for ----------

  /** The paths a request looks up. */
  function Uses(op: Op): set<Path> {
    match op
    case Create(p, _, _) => {p, Up(p)}
    case Rename(src, dst) => {src, dst, Up(dst)}
    case _ => {op.path}
  }

  /** All paths a request may leave in the cache: those it looks up, and all on the way there. */
  ghost function Asks(op: Op): set<Path> {
    match op
    case Rename(src, dst) => Stretch(src, 0, |src|) + Stretch(dst, 0, |dst|)
    case _ => Stretch(op.path, 0, |op.path|)
  }

  lemma LookedAsks(c: Cloud, k: Known, p: Path)
    ensures Looked(c, k, p).cached <= k.cached + Stretch(p, 0, |p|)
  {
    hide Walk, InMemory;
    assert p[..|p|] == p;
  }

  lemma UpAsks(p: Path)
    ensures Stretch(Up(p), 0, |Up(p)|) <= Stretch(p, 0, |p|)
  {
    forall j | 0 < j <= |Up(p)|
      ensures Up(p)[..j] in Stretch(p, 0, |p|)
    {
      assert Up(p)[..j] == p[..j];
    }
  }

  lemma RenameAsks(c: Cloud, k: Known, src: Path, dst: Path)
    ensures RenameLooks(c, k, src, dst).cached <= k.cached + Asks(Rename(src, dst))
  {
    hide Looked, Walk, Stretch;
    LookedAsks(c, k, src);
    LookedAsks(c, Looked(c, k, src), dst);
    if dst != [] {
      LookedAsks(c, Looked(c, Looked(c, k, src), dst), dst[..|dst| - 1]);
      UpAsks(dst);
    }
  }

  lemma NextAsks(s: Plain, op: Op)
    requires op.Lookup? || op.List? || op.Create?
    ensures Next(s, op).known.cached <= s.known.cached + Asks(op)
  {
    hide Looked, Walk, Stretch, FolderAt, Created;
    var p := op.path;
    LookedAsks(s.cloud, s.known, p);
    LookedAsks(s.cloud, Looked(s.cloud, s.known, p), Up(p));
    UpAsks(p);
  }

  // ---------- whole runs ----------

  /** What a request makes stale: with a rename, the paths asked for so far that lie strictly below the old one. */
  ghost function Stales(c: Cloud, asked: set<Path>, op: Op): set<Path> {
    if op.Rename? && RenameAnswerOf(c, op.src, op.dst) == Renamed then BelowIn(asked, op.src) else {}
  }

  method Execute(fs: FileSystem, op: Op, ghost stale: set<Path> := {}) returns (a: Answer)
    requires (fs.Valid() || (fs.SoundBut(stale) && Uses(op) !! stale)) && UniqueNames(fs.cloud) && Proper(fs.cloud, op)
    modifies fs, fs.cache, fs.live.Keys
    ensures UniqueNames(fs.cloud) && fresh(fs.live.Keys - old(fs.live.Keys))
    ensures a == AnswerOf(old(fs.cloud), op) && fs.cloud == DriveNext(old(fs.cloud), op)
    ensures var asked := old(fs.cache.pathNodes.Keys) + Asks(op);
            fs.cache.pathNodes.Keys <= asked && fs.SoundBut(stale + Stales(old(fs.cloud), asked, op))
    ensures old(fs.Valid() && Legal(StateOf(fs), op)) ==>
              && fs.Valid() && StateOf(fs) == Next(old(StateOf(fs)), op)
              && Keeps(old(fs.root), old(fs.cache.pathNodes), fs.root, fs.cache.pathNodes)
  {
    hide AnswerOf, Next, UniqueNames, StateOf, Keeps, DriveNext, Proper, Asks, Looked, RenameLooks, FileSystem.Valid,
      FileSystem.SoundBut, FileSystem.Coupled, Walk, FilledIds;
    ghost var c, k, s := fs.cloud, fs.Knows(), StateOf(fs);
    NextDrive(s, op);
    StateParts(fs);
    assert stale + {} == stale;
    match op {
      case Lookup(p) => a := DoLookup(fs, p, stale); NextAsks(s, op);
      case List(p) => a := DoList(fs, p, stale); NextAsks(s, op);
      case Create(p, isDirectory, serverId) => a := DoCreate(fs, p, isDirectory, serverId, stale); NextAsks(s, op);
      case Remove(p) => a := DoRemove(fs, p, stale); LookedAsks(c, k, p); AsksPath(op);
      case Rename(src, dst) =>
        a := DoRename(fs, src, dst, stale);
        RenameAsks(c, k, src, dst);
        RenameAnswered(c, src, dst);
        MoreStale(fs, stale, RenameLooks(c, k, src, dst).cached, k.cached + Asks(op), op);
    }
    StateParts(fs);
  }

  lemma StateParts(fs: FileSystem)
    ensures StateOf(fs) == Plain(fs.cloud, fs.Knows()) && fs.Knows().cached == fs.cache.pathNodes.Keys
  {
  }

  lemma AsksPath(op: Op)
    requires !op.Rename?
    ensures Asks(op) == Stretch(op.path, 0, |op.path|)
  {
  }

  lemma RenameAnswered(c: Cloud, src: Path, dst: Path)
    ensures AnswerOf(c, Rename(src, dst)) == RenameAnswer(RenameAnswerOf(c, src, dst))
  {
  }

  /** A state that is sound but for some paths is sound but for more. */
  lemma MoreStale(fs: FileSystem, stale: set<Path>, cached: set<Path>, asked: set<Path>, op: Op)
    requires op.Rename? && cached <= asked
    ensures fs.SoundBut(stale + BelowIn(cached, op.src)) ==> fs.SoundBut(stale + BelowIn(asked, op.src))
  {
    SoundMore(fs, stale + BelowIn(cached, op.src), stale + BelowIn(asked, op.src));
  }

  lemma SoundMore(fs: FileSystem, stale: set<Path>, more: set<Path>)
    requires stale <= more
    ensures fs.SoundBut(stale) ==> fs.SoundBut(more)
  {
    hide WellFormed, Mirrored, FileSystem.Coupled, Walk;
  }

  /**
   * Laziness and cache are invisible: over every legal run, from any state lookups work in, the answers are those
   * of the machine that walks the drive anew for each request, and the drive ends up the same.
   */
  method Run(fs: FileSystem, ops: seq<Op>) returns (answers: seq<Answer>)
    requires fs.Valid() && UniqueNames(fs.cloud) && LegalRun(StateOf(fs), ops)
    modifies fs, fs.cache, fs.live.Keys
    ensures fs.Valid() && UniqueNames(fs.cloud)
    ensures answers == Answers(old(fs.cloud), ops) && StateOf(fs) == After(old(StateOf(fs)), ops)
  {
    hide AnswerOf, Next, UniqueNames, Proper, FilledIds, Keeps, DriveNext, FileSystem.Valid, FileSystem.Coupled,
      FileSystem.SoundBut, Asks, Stales;
    answers := [];
    var i := 0;
    assert ops[0..] == ops;
    while i < |ops|
      invariant 0 <= i <= |ops| && fs.Valid() && UniqueNames(fs.cloud) && fresh(fs.live.Keys - old(fs.live.Keys))
      invariant LegalRun(StateOf(fs), ops[i..])
      invariant answers + Answers(fs.cloud, ops[i..]) == Answers(old(fs.cloud), ops)
      invariant After(StateOf(fs), ops[i..]) == After(old(StateOf(fs)), ops)
    {
      assert ops[i..][0] == ops[i] && ops[i..][1..] == ops[i + 1..];
      var a := Execute(fs, ops[i]);
      assert answers + ([a] + Answers(fs.cloud, ops[i + 1..])) == answers + [a] + Answers(fs.cloud, ops[i + 1..]);
      answers := answers + [a];
      i := i + 1;
    }
  }

  // ---------- runs that go on after any rename ----------

  /** The drive, the paths asked for so far, and those of them that a later rename of something above made stale. */
  datatype Marked = Marked(cloud: Cloud, asked: set<Path>, stale: set<Path>)

  ghost function NextMarked(s: Marked, op: Op): Marked {
    var asked := s.asked + Asks(op);
    Marked(DriveNext(s.cloud, op), asked, s.stale + Stales(s.cloud, asked, op))
  }

  /** Every request looks up paths that are not stale by then; renames are free. */
  ghost predicate CleanRun(s: Marked, ops: seq<Op>)
    decreases |ops|
  {
    ops == [] || (Proper(s.cloud, ops[0]) && Uses(ops[0]) !! s.stale && CleanRun(NextMarked(s, ops[0]), ops[1..]))
  }

  ghost function AfterMarked(s: Marked, ops: seq<Op>): Marked
    decreases |ops|
  {
    if ops == [] then s else AfterMarked(NextMarked(s, ops[0]), ops[1..])
  }

  /** The file system is in a state the marks describe. */
  ghost predicate Marks(fs: FileSystem, s: Marked)
    reads fs, fs.cache, fs.live.Keys
  {
    && fs.SoundBut(s.stale) && UniqueNames(fs.cloud)
    && s.cloud == fs.cloud && fs.cache.pathNodes.Keys <= s.asked
  }

  /**
   * A wrong answer needs a path that was asked for before something above it was renamed: over every run of requests
   * that look up no such path, whatever they rename, all answers are those of the plain walks, and so is the drive.
   */
  method RunOn(fs: FileSystem, ops: seq<Op>, ghost s: Marked) returns (answers: seq<Answer>)
    requires Marks(fs, s) && CleanRun(s, ops)
    modifies fs, fs.cache, fs.live.Keys
    ensures Marks(fs, AfterMarked(s, ops)) && answers == Answers(old(fs.cloud), ops)
  {
    hide AnswerOf, UniqueNames, Proper, DriveNext, FileSystem.Valid, FileSystem.Coupled, FileSystem.SoundBut, Asks,
      Uses, Next, Keeps, NextMarked, Stales;
    answers := [];
    ghost var now := s;
    var i := 0;
    assert ops[0..] == ops;
    while i < |ops|
      invariant 0 <= i <= |ops| && Marks(fs, now) && fresh(fs.live.Keys - old(fs.live.Keys))
      invariant CleanRun(now, ops[i..])
      invariant answers + Answers(fs.cloud, ops[i..]) == Answers(old(fs.cloud), ops)
      invariant AfterMarked(now, ops[i..]) == AfterMarked(s, ops)
    {
      assert ops[i..][0] == ops[i] && ops[i..][1..] == ops[i + 1..];
      ghost var cached := fs.cache.pathNodes.Keys;
      var a := Execute(fs, ops[i], now.stale);
      AskedMore(fs, now, cached, ops[i]);
      assert answers + ([a] + Answers(fs.cloud, ops[i + 1..])) == answers + [a] + Answers(fs.cloud, ops[i + 1..]);
      answers, now := answers + [a], NextMarked(now, ops[i]);
      i := i + 1;
    }
  }

  lemma AskedMore(fs: FileSystem, s: Marked, cached: set<Path>, op: Op)
    requires cached <= s.asked && fs.SoundBut(s.stale + Stales(s.cloud, cached + Asks(op), op))
    requires fs.cache.pathNodes.Keys <= cached + Asks(op)
    ensures fs.SoundBut(NextMarked(s, op).stale) && fs.cache.pathNodes.Keys <= NextMarked(s, op).asked
    ensures NextMarked(s, op).cloud == DriveNext(s.cloud, op)
  {
    hide FileSystem.SoundBut, Asks;
    SoundMore(fs, s.stale + Stales(s.cloud, cached + Asks(op), op), NextMarked(s, op).stale);
  }

  /** From any state lookups work in, with what the cache holds taken as asked for, and nothing as stale. */
  lemma MarksStart(fs: FileSystem)
    requires fs.Valid() && UniqueNames(fs.cloud)
    ensures Marks(fs, Marked(fs.cloud, fs.cache.pathNodes.Keys, {}))
  {
    fs.ValidSound({});
  }

  /** The same over any drive, with nothing loaded to begin with. */
  method RunFresh(drive: Cloud, ops: seq<Op>) returns (answers: seq<Answer>)
    requires WellFormed(drive) && UniqueNames(drive) && CleanRun(Marked(drive, {}, {}), ops)
    ensures answers == Answers(drive, ops)
  {
    hide WellFormed, UniqueNames, CleanRun, Answers, FileSystem.Coupled, Faithful;
    var fs := new FileSystem(drive);
    MarksStart(fs);
    answers := RunOn(fs, ops, Marked(drive, {}, {}));
  }

  // ---------- nodes stay ----------

  /** A removal or rename that concerns the path itself or something above it. */
  ghost predicate Touches(op: Op, p: Path) {
    match op
    case Remove(q) => q <= p
    case Rename(src, dst) => src <= p || dst <= p
    case _ => false
  }

  lemma CachedOn(s: Plain, op: Op, p: Path)
    requires p in s.known.cached && !Touches(op, p)
    ensures p in Next(s, op).known.cached
  {
    hide CachedBy, FoldersAlong, Walk;
  }

  /** A node found at a path, as the root or in the cache. */
  ghost predicate HeldAt(fs: FileSystem, p: Path, n: Node?)
    reads fs, fs.cache
  {
    n != null ==> if p == [] then n == fs.root else fs.cache.Holds(p, n)
  }

  /** Legal requests that do not touch the path leave its node where it is. */
  method LeaveAlone(fs: FileSystem, p: Path, ghost n: Node?, between: seq<Op>)
    requires fs.Valid() && UniqueNames(fs.cloud) && LegalRun(StateOf(fs), between)
    requires HeldAt(fs, p, n) && forall op :: op in between ==> !Touches(op, p)
    modifies fs, fs.cache, fs.live.Keys
    ensures fs.Valid() && UniqueNames(fs.cloud) && HeldAt(fs, p, n) && fresh(fs.live.Keys - old(fs.live.Keys))
    ensures old(fs.root) != null ==> fs.root == old(fs.root)
  {
    hide AnswerOf, UniqueNames, Proper, FilledIds, Walk, Next, DriveNext, Asks, Stales, Uses, FileSystem.Coupled,
      FileSystem.Valid, FileSystem.SoundBut, Touches;
    var i := 0;
    assert between[0..] == between;
    while i < |between|
      invariant 0 <= i <= |between| && fs.Valid() && UniqueNames(fs.cloud) && fresh(fs.live.Keys - old(fs.live.Keys))
      invariant LegalRun(StateOf(fs), between[i..]) && HeldAt(fs, p, n)
      invariant old(fs.root) != null ==> fs.root == old(fs.root)
    {
      ghost var s := StateOf(fs);
      assert between[i..][0] == between[i] && between[i..][1..] == between[i + 1..];
      var a := Execute(fs, between[i]);
      if n != null && p != [] { CachedOn(s, between[i], p); }
      i := i + 1;
    }
  }

  /** Whatever legal requests come in between, a path they do not touch keeps its node. */
  method StableLookup(fs: FileSystem, p: Path, between: seq<Op>) returns (first: Node?, again: Node?)
    requires fs.Valid() && UniqueNames(fs.cloud) && LegalRun(Next(StateOf(fs), Lookup(p)), between)
    requires forall op :: op in between ==> !Touches(op, p)
    modifies fs, fs.cache, fs.live.Keys
    ensures fs.Valid() && UniqueNames(fs.cloud)
    ensures first == null <==> Walk(old(fs.cloud), ROOT, p) == None
    ensures first != null ==> again == first
  {
    hide AnswerOf, UniqueNames, LegalRun, FilledIds, WellFormed, Faithful, Walk, LookedUp, Loaded, FoldersAlong, Next,
      FileSystem.Coupled, FileSystem.Valid, FileSystem.Works, FileSystem.SoundBut, FileSystem.Answered, Looked, Touches;
    LookupIsSeen(StateOf(fs), p);
    first := fs.Get(p);
    LeaveAlone(fs, p, first, between);
    again := fs.Get(p);
  }

  lemma LookupIsSeen(s: Plain, p: Path)
    ensures Next(s, Lookup(p)) == Plain(s.cloud, Looked(s.cloud, s.known, p))
  {
  }

  // ---------- what single lookups show ----------

  method LookAndList(fs: FileSystem, q: Path)
    requires fs.Valid() && fs.root != null
    modifies fs`root, fs`live, fs`at, fs`log, fs.cache, fs.live.Keys
    ensures fs.Valid() && fs.root == old(fs.root) && fs.log == old(fs.log) && fresh(fs.live.Keys - old(fs.live.Keys))
    ensures StillCached(old(fs.Snap()), fs.Snap())
  {
    hide WellFormed, Faithful, Walk, FoldersAlong, LookedUp, Loaded, StillCached, Right, Stays, ListedIds, IdsIn,
      FileSystem.Coupled, FileSystem.Valid, FileSystem.Works, FileSystem.SoundBut, FileSystem.Answered, Looked;
    var n := fs.Get(q);
    StaysCached(old(fs.Snap()), fs.Snap(), q, FoldersAlong(fs.cloud, q));
    if n != null {
      ghost var s, folders := fs.Snap(), if fs.live[n].folder then {fs.live[n].id} else {};
      var items := fs.GetDirectoryIterator(n);
      StaysCached(s, fs.Snap(), [], folders);
      StillTwice(old(fs.Snap()), s, fs.Snap());
    }
  }

  /** Whatever is looked up and listed in between, a lookup keeps returning the same node. */
  method RepeatedLookup(fs: FileSystem, p: Path, between: seq<Path>) returns (first: Node?, again: Node?)
    requires fs.Valid()
    modifies fs`root, fs`live, fs`at, fs`log, fs.cache, fs.live.Keys
    ensures fs.Valid() && again == first && fs.log == old(fs.log)
    ensures (first == null <==> Walk(fs.cloud, ROOT, p) == None) && (first != null ==> first in fs.live)
  {
    hide WellFormed, Faithful, Walk, FoldersAlong, LookedUp, Loaded, StillCached, FileSystem.Coupled, FileSystem.Valid,
      FileSystem.Works, FileSystem.SoundBut, FileSystem.Answered, Looked;
    first := fs.Get(p);
    ghost var root := fs.root;
    var i := 0;
    while i < |between|
      invariant 0 <= i <= |between| && fs.Valid() && fs.root == root && fs.log == old(fs.log)
      invariant fresh(fs.live.Keys - old(fs.live.Keys))
      invariant first == null <==> Walk(fs.cloud, ROOT, p) == None
      invariant if p == [] then first == root else first != null ==> fs.cache.Holds(p, first)
    {
      ghost var s := fs.Snap();
      LookAndList(fs, between[i]);
      CachedStill(s, fs.Snap(), p);
      i := i + 1;
    }
    again := fs.Get(p);
  }

  lemma CachedStill(s: Snapshot, u: Snapshot, p: Path)
    requires StillCached(s, u)
    ensures p in s.maps.paths ==> p in u.maps.paths && u.maps.paths[p] == s.maps.paths[p]
  {
  }

  /** After a folder is renamed, what had been looked up below it is still found, although gone. */
  method StaleLookup(fs: FileSystem, src: Path, dst: Path, p: Path) returns (found: Node?)
    requires fs.Valid() && UniqueNames(fs.cloud) && Walk(fs.cloud, ROOT, p).Some?
    requires src != [] && StrictlyBelow(src, p) && dst != [] && !(src <= dst) && !(dst <= p)
    requires FolderAt(fs.cloud, dst[..|dst| - 1])
    modifies fs, fs.cache, fs.live.Keys
    ensures found != null && Walk(fs.cloud, ROOT, p) == None
  {
    hide UniqueNames, WellFormed, Walk, FilledIds, FoldersAlong, Faithful, FolderAt, Renames, RenameDone,
      NothingCachedBelow, StillCached, Mirrors, Mirrored, Agrees, Consistent, LookedUp, Loaded, FileSystem.Coupled,
      FileSystem.Valid, FileSystem.Works, FileSystem.SoundBut, FileSystem.Answered, Looked, RenameLooks, CachedBelow,
      EventLog.EachOnce, Substituted;
    WalkReaches(fs.cloud, src, dst, p);
    ghost var c := fs.cloud;
    var n := fs.Get(p);
    ghost var s := fs.Snap();
    var status, before, r, order := fs.RenameNode(src, dst);
    CachedStill(s, before, p);
    StaysStale(c, fs.root, before, r.value, fs.Now(), old(fs.log), order, p);
    NowAt(c, fs.root, before, r.value, fs.Now(), old(fs.log), order, p);
    fs.SoundWorks({} + CachedBelow(before.maps.paths, src), p);
    found := fs.Get(p);
  }

  lemma WalkReaches(c: Cloud, src: Path, dst: Path, p: Path)
    requires Walk(c, ROOT, p).Some? && src <= p && dst != [] && FolderAt(c, dst[..|dst| - 1])
    ensures Walk(c, ROOT, src).Some? && Walk(c, ROOT, dst[..|dst| - 1]).Some?
  {
    WalkPrefix(c, src, p);
  }
}
