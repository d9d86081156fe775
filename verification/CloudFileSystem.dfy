/** The file system over a drive: lazily filled nodes, a path cache, and in-place updates. */
module CloudFileSystem {
  import opened Basics
  import opened CloudTree
  import opened CloudUpdates
  import opened CloudRename
  import opened LoadedTree
  import opened TreeUpdates
  import opened NodeCache
  import opened Loading
  import opened TreeRemoval
  import opened Removals
  import opened Operations
  import opened RenameOperation
  import opened EventLog
  import opened Lookups
  import opened Creation
  import opened CreationEffects

  class FileSystem {
    var cloud: Cloud
    var root: Node?
    const cache: Cache<Node>
    ghost var live: Tree
    ghost var at: Lineage
    ghost var log: seq<Event>

    ghost function Snap(): Snapshot
      reads this, cache
    {
      Snapshot(live, at, cache.State())
    }

    /** Which folders are filled and which paths are cached. */
    ghost function Knows(): Known
      reads this, cache
    {
      KnownIn(Snap())
    }

    /** The recorded state of every live node is its real one. */
    ghost predicate Coupled()
      reads this, live.Keys
    {
      forall n :: n in live ==> n.State() == live[n]
    }

    ghost predicate Valid()
      reads this, cache, live.Keys
    {
      && WellFormed(cloud) && Coupled()
      && (root == null ==> Snap() == Snapshot(map[], map[], Maps(map[], map[], map[])))
      && (root != null ==> Faithful(cloud, root, Snap()))
    }

    /** Enough for lookups and listings to run: memory and drive know of each other, whatever the cache says. */
    ghost predicate Works()
      reads this, cache, live.Keys
    {
      && WellFormed(cloud) && Coupled()
      && (root == null ==> Snap() == Snapshot(map[], map[], Maps(map[], map[], map[])))
      && (root != null ==> Usable(cloud, root, live))
    }

    /** Memory mirrors the drive, and of the cached paths only the stale ones may mislead. */
    ghost predicate SoundBut(stale: set<Path>)
      reads this, cache, live.Keys
    {
      && WellFormed(cloud) && Coupled()
      && (root == null ==> Snap() == Snapshot(map[], map[], Maps(map[], map[], map[])))
      && (root != null ==> Sound(cloud, root, Snap(), stale))
    }

    lemma ValidSound(stale: set<Path>)
      requires Valid()
      ensures SoundBut(stale)
    {
      hide WellFormed, Faithful, Sound;
      if root != null { FaithfulSound(cloud, root, Snap(), stale); }
    }

    lemma SoundWorks(stale: set<Path>, path: Path)
      requires SoundBut(stale)
      ensures Works() && (path in cache.pathNodes && path !in stale ==> cache.pathNodes[path] in live)
    {
      hide WellFormed, Mirrors, Agrees;
      if root != null { MirrorUsable(cloud, root, Snap()); }
    }

    lemma MirrorHere(stale: set<Path>)
      requires SoundBut(stale) && root != null
      ensures WellFormed(cloud) && Coupled() && Sound(cloud, root, Snap(), stale) && Mirrored(cloud, root, Snap())
      ensures Valid() <==> Faithful(cloud, root, Snap())
    {
      hide WellFormed, Faithful, Mirrored, TrueBut, FiledBut, Coupled;
    }

    lemma ValidWorks(path: Path)
      requires Valid()
      ensures Works() && (path in cache.pathNodes ==> cache.pathNodes[path] in live)
    {
      ValidSound({});
      SoundWorks({}, path);
    }

    constructor (drive: Cloud)
      requires WellFormed(drive)
      ensures Valid() && cloud == drive && log == [] && root == null && fresh(cache)
    {
      cloud, root := drive, null;
      cache := new Cache<Node>();
      live, at, log := map[], map[], [];
    }

    // ---------- requests to the drive ----------

    method CloudFetchMeta(n: Node)
      requires n.id in cloud
      modifies n
      ensures n.State() == old(n.State()).(name := cloud[old(n.id)].name, folder := cloud[old(n.id)].folder)
    {
      n.name, n.folder := cloud[n.id].name, cloud[n.id].folder;
    }

    method CloudFetchChildrenList(id: Id) returns (kids: seq<Id>)
      requires id in cloud
      ensures kids == cloud[id].kids
    {
      kids := cloud[id].kids;
    }

    // ---------- loading ----------

    method GetRoot() returns (r: Node)
      requires Works()
      modifies this`root, this`live, this`at
      ensures Works() && root == r && r in live && live[r].id == ROOT && (old(Valid()) ==> Valid())
      ensures old(root) == null ==> Valid() && fresh(live.Keys) && FilledIds(live) == {}
      ensures old(root) != null ==> root == old(root) && Snap() == old(Snap())
    {
      hide Faithful, Usable, FilledIds;
      if root == null {
        var n := new Node(null);
        n.id := ROOT;
        CloudFetchMeta(n);
        n.id := ROOT;
        n.name := "/";
        root := n;
        live, at := map[n := n.State()], map[n := []];
        RootIsFaithful(cloud, n, live);
        ValidWorks([]);
        NoneFilled(n, live);
      } else {
        RootLoaded();
      }
      r := root;
    }

    lemma RootLoaded()
      requires Works() && root != null
      ensures root in live && live[root].id == ROOT
    {
    }

    method FindChild(next: seq<Node>, x: Name) returns (r: Node?)
      requires Coupled() && forall m :: m in next ==> m in live
      ensures match Named(live, next, x)
              case None => r == null
              case Some(m) => r == m
    {
      var i := 0;
      while i < |next|
        invariant 0 <= i <= |next|
        invariant Named(live, next[i..], x) == Named(live, next, x)
      {
        assert next[i..][0] == next[i] && next[i..][1..] == next[i + 1..];
        assert next[i].State() == live[next[i]];
        if next[i].name == x { return next[i]; }
        i := i + 1;
      }
      r := null;
    }

    /** The node and the number of names at which the search in memory ends, walking down as far as the names match. */
    method Find(start: Node, path: Path) returns (n: Node, k: nat)
      requires Works() && root == start
      ensures k <= |path| && n in live && Reached(live, start, path, 0) == (n, k)
      ensures k == |path| || Named(live, live[n].next, path[k]).None?
      ensures Right(cloud, start, live) ==> Walk(cloud, ROOT, path[..k]) == Some(live[n].id)
    {
      hide WellFormed, Right, Walk, Named;
      n, k := start, 0;
      while k < |path|
        invariant k <= |path| && n in live
        invariant Reached(live, n, path, k) == Reached(live, start, path, 0)
      {
        assert Backed(cloud, live, n);
        AsRecorded(n);
        var m := FindChild(n.next, path[k]);
        if m == null { break; }
        n, k := m, k + 1;
      }
      if Right(cloud, start, live) { SearchedRight(cloud, start, live, path); }
    }

    /** Fills a folder, after the nodes it may hold already; a folder filled before is emptied first. */
    method FillDir(dir: Node, ghost along: Path) returns (ghost news: seq<Node>)
      requires Works() && root != null && dir in live
      modifies this`live, this`at, this`log, dir
      ensures old(!dir.folder) ==> Snap() == old(Snap()) && log == old(log) && unchanged(dir)
      ensures old(dir.folder && !dir.filled) ==>
                && Works() && log == old(log) && FilledFrom(cloud, old(live), live, dir, news)
                && fresh(live.Keys - old(live.Keys))
      ensures old(dir.folder && !dir.filled && Mirrored(cloud, root, Snap())) ==>
                && Mirrored(cloud, root, Snap()) && live[dir].filled && live[dir].id == old(live)[dir].id
                && Loaded(old(Snap()), Snap(), {live[dir].id})
      ensures old(dir.folder && !dir.filled && Valid()) ==>
              Valid() && LookedUp(old(Snap()), Snap(), along, {live[dir].id})
      ensures old(dir.folder && dir.filled) ==>
                && dir.id in cloud && log == old(log) + [Cleared(dir.id)] && Snap() == old(Snap())
                && dir.filled && |dir.next| == |cloud[dir.id].kids|
                && forall a :: 0 <= a < |dir.next| ==> fresh(dir.next[a]) && dir.next[a].id == cloud[dir.id].kids[a]
    {
      hide WellFormed, Faithful, Mirrored, Loaded, LookedUp, Usable, FilledFrom, NewNodes, Works, Valid, Coupled;
      EntryKnown(dir);
      WorksCoupled();
      AsRecorded(dir);
      news := [];
      if !dir.folder { return; }
      if dir.filled {
        // refilling frees the old contents
        log := log + [Cleared(dir.id)];
        dir.next := [];
        dir.filled := false;
        ghost var more;
        news, more := LoadChildren(dir);
        assert dir.next == news;
        NewIds(cloud, dir, cloud[dir.id].kids, news, more);
      } else {
        news := FillUnfilled(dir, along);
      }
    }

    lemma WorksCoupled()
      requires Works()
      ensures Coupled()
    {
    }

    lemma EntryKnown(n: Node)
      requires Works() && root != null && n in live
      ensures Backed(cloud, live, n) && live[n].id in cloud && forall k :: k in cloud[live[n].id].kids ==> k in cloud
    {
    }

    method FillUnfilled(dir: Node, ghost along: Path) returns (ghost news: seq<Node>)
      requires Works() && root != null && dir in live && dir.folder && !dir.filled
      modifies this`live, this`at, dir
      ensures Works() && FilledFrom(cloud, old(live), live, dir, news) && fresh(live.Keys - old(live.Keys))
      ensures old(Mirrored(cloud, root, Snap())) ==>
                && Mirrored(cloud, root, Snap()) && live[dir].filled && live[dir].id == old(live)[dir].id
                && Loaded(old(Snap()), Snap(), {live[dir].id})
      ensures old(Valid()) ==> Valid() && LookedUp(old(Snap()), Snap(), along, {live[dir].id})
    {
      hide WellFormed, Faithful, Mirrored, LookedUp, Loaded, NewContents, Adopted, Usable, FilledFrom;
      EntryKnown(dir);
      AsRecorded(dir);
      ghost var mirror, valid, s := Mirrored(cloud, root, Snap()), Valid(), Snap();
      ghost var more;
      news, more := LoadChildren(dir);
      AdoptedFills(cloud, root, s, dir, news, more);
      if mirror { AdoptedMirrored(cloud, root, s, dir, news, more); }
      if valid { AdoptedFaithful(cloud, root, s, dir, news, more, along); }
      Adopt(dir, news, more);
    }

    /** Records that the nodes just created are among the contents of the folder. */
    ghost method Adopt(dir: Node, news: seq<Node>, more: Tree)
      requires dir in live && dir.State() == live[dir].(filled := true, next := live[dir].next + news)
      requires forall n :: n in live && n != dir ==> n.State() == live[n]
      requires forall n :: n in more ==> n !in live && n.State() == more[n]
      modifies this`live, this`at
      ensures Coupled() && Snap() == Adopted(old(Snap()), dir, news, more)
    {
      ghost var s := Snap();
      live, at := Adopted(s, dir, news, more).tree, Adopted(s, dir, news, more).at;
      forall n | n in live
        ensures n.State() == live[n]
      {
        if n !in more && n != dir { assert n in s.tree && live[n] == s.tree[n]; }
      }
    }

    /** Creates one node for each listed id and hands it to the folder, in listing order. */
    method LoadChildren(dir: Node) returns (ghost news: seq<Node>, ghost more: Tree)
      requires dir.id in cloud && forall k :: k in cloud[dir.id].kids ==> k in cloud
      modifies dir
      ensures dir.State() == old(dir.State()).(filled := true, next := old(dir.next) + news)
      ensures fresh(more.Keys) && NewContents(cloud, dir.id, dir, news, more)
      ensures forall m :: m in more ==> m.State() == more[m]
    {
      hide NewNodes;
      NoNewNodes(cloud, dir);
      var kids := CloudFetchChildrenList(dir.id);
      news, more := [], map[];
      var i := 0;
      while i < |kids|
        invariant 0 <= i <= |kids| && dir.State() == old(dir.State()).(next := old(dir.next) + news)
        invariant fresh(more.Keys) && NewNodes(cloud, kids[..i], dir, news, more)
        invariant forall m :: m in more ==> m.State() == more[m]
      {
        var n := LoadChild(dir, kids[i]);
        OneMoreNew(cloud, kids[..i], dir, news, more, kids[i], n);
        assert kids[..i + 1] == kids[..i] + [kids[i]];
        assert old(dir.next) + news + [n] == old(dir.next) + (news + [n]);
        news, more := news + [n], more[n := n.State()];
        i := i + 1;
      }
      assert kids[..i] == kids;
      dir.filled := true;
    }

    /** One node for a listed id, at the end of the list. */
    method LoadChild(dir: Node, i: Id) returns (n: Node)
      requires i in cloud
      modifies dir
      ensures fresh(n) && n.State() == NodeState(i, cloud[i].name, cloud[i].folder, false, [], dir)
      ensures dir.State() == old(dir.State()).(next := old(dir.next) + [n])
    {
      n := new Node(dir);
      n.id := i;
      CloudFetchMeta(n);
      dir.next := dir.next + [n];
    }

    lemma AsRecorded(n: Node)
      requires Coupled() && n in live
      ensures n.State() == live[n]
    {
    }

    /** Where a lookup stands after k names while memory mirrors the drive. */
    ghost predicate OnTheWay(n: Node, path: Path, k: nat, first: Snapshot)
      requires k <= |path|
      reads this, cache
    {
      && root != null && Mirrored(cloud, root, Snap()) && n in live && Walk(cloud, ROOT, path[..k]) == Some(live[n].id)
      && Loaded(first, Snap(), FoldersAlong(cloud, path[..k]))
    }

    /** Nothing is left to look up: the drive lists no such name. */
    ghost predicate AtTheEnd(path: Path, k: nat, first: Snapshot)
      requires k < |path|
      reads this, cache
    {
      && root != null && Mirrored(cloud, root, Snap()) && Walk(cloud, ROOT, path[..k]).Some?
      && Walk(cloud, ROOT, path[..k + 1]) == None && Walk(cloud, ROOT, path) == None
      && Loaded(first, Snap(), FoldersAlong(cloud, path))
    }

    /** Fills a folder on the path and steps to the next node, which is cached; null if the drive lists no such name. */
    method LoadStep(n: Node, path: Path, k: nat, ghost first: Snapshot, ghost mirror: bool) returns (m: Node?)
      requires Works() && root != null && n in live && n.folder && !n.filled && k < |path|
      requires Named(live, live[n].next, path[k]) == None && (mirror ==> OnTheWay(n, path, k, first))
      modifies this`live, this`at, this`log, n, cache
      ensures Works() && log == old(log) && fresh(live.Keys - old(live.Keys)) && Stays(old(live), live)
      ensures n in old(live)
      ensures m == null ==> Child(cloud, old(live)[n].id, path[k]) == None && cache.State() == old(cache.State())
      ensures m != null ==>
                && m in live && m !in old(live) && live[m].next == [] && !live[m].filled
                && Child(cloud, old(live)[n].id, path[k]) == Some(live[m].id)
                && cache.State() == Inserted(old(cache.State()), path[..k + 1], live[m].id, m)
      ensures old(Right(cloud, root, live)) ==> Right(cloud, root, live)
      ensures mirror ==> if m == null then AtTheEnd(path, k, first) else OnTheWay(m, path, k + 1, first)
    {
      hide WellFormed, Mirrored, Loaded, LookedUp, FilledIds, FoldersAlong, Walk, Named, Child, Right, Usable,
        FilledFrom, Stays, Coupled, Valid;
      ghost var t := live;
      AsRecorded(n);
      ghost var news := FillDir(n, path);
      Filled(t, n, news, path[k]);
      AsRecorded(n);
      ghost var u := Snap();
      m := FindChild(n.next, path[k]);
      if m != null {
        AsRecorded(m);
        cache.Insert(path[..k + 1], m.id, m);
      }
      if mirror {
        Stepped(cloud, root, first, old(Snap()), u, n, m, path, k);
        SameTree(cloud, root, u, cache.State());
        LoadedMaps(first, u, FoldersAlong(cloud, path[..k + 1]), first.maps, cache.State());
      }
    }

    /** What a folder just filled holds under a name that it did not hold before. */
    lemma Filled(t: Tree, n: Node, news: seq<Node>, x: Name)
      requires Works() && root != null && Usable(cloud, root, t) && FilledFrom(cloud, t, live, n, news) && t[n].folder
      requires Named(t, t[n].next, x) == None
      ensures n in live && (forall m :: m in live[n].next ==> m in live) && Stays(t, live)
      ensures match Named(live, live[n].next, x)
              case None => Child(cloud, t[n].id, x) == None
              case Some(m) =>
                && m in live && m !in t && Child(cloud, t[n].id, x) == Some(live[m].id)
                && live[m].next == [] && !live[m].filled
      ensures Right(cloud, root, t) ==> Right(cloud, root, live)
    {
      hide WellFormed, Right, Child;
      FilledNames(cloud, root, t, live, n, news, x);
      FilledNews(cloud, t, live, n, news, x);
      FillStays(cloud, root, t, live, n, news);
      EntryKnown(n);
      if Right(cloud, root, t) { FillRight(cloud, root, t, live, n, news); }
    }

    /** Loads folder after folder along the path. */
    method LoadAlong(start: Node, path: Path, from: nat, ghost mirror: bool)
      returns (n: Node, k: nat, ghost made: seq<Filing>)
      requires Works() && root != null && start in live && !start.filled && from < |path|
      requires Named(live, live[start].next, path[from]) == None
      requires mirror ==> OnTheWay(start, path, from, Snap())
      modifies this`live, this`at, this`log, cache, live.Keys
      ensures Works() && log == old(log) && fresh(live.Keys - old(live.Keys)) && Stays(old(live), live)
      ensures k == from + |made| <= |path| && n in live && start in old(live)
      ensures Walk(cloud, old(live)[start].id, path[from..]) == if k == |path| then Some(live[n].id) else None
      ensures k > from ==> n == made[|made| - 1].node
      ensures Along(cloud, old(live)[start].id, path, from, made, old(live), live)
      ensures cache.State() == Filed(old(cache.State()), path, from, made)
      ensures old(Right(cloud, root, live)) ==> Right(cloud, root, live)
      ensures mirror ==> if k < |path| then AtTheEnd(path, k, old(Snap())) else OnTheWay(n, path, k, old(Snap()))
    {
      hide WellFormed, Mirrored, Loaded, LookedUp, FilledIds, FoldersAlong, Walk, Named, Coupled, Right, Usable, Along,
        Stays, OnTheWay, AtTheEnd, Child, Filed, Inserted, Course;
      n, k, made := start, from, [];
      ghost var t, m, i, missing := live, cache.State(), live[start].id, false;
      AsRecorded(n);
      EntryKnown(n);
      CourseStarts(cloud, path, from, n, t, m);
      while k < |path| && n.folder
        invariant k == from + |made| <= |path| && Works() && log == old(log) && root == old(root) && !missing
        invariant n in live && n.State() == live[n] && !n.filled && fresh(live.Keys - old(live.Keys))
        invariant k < |path| ==> Named(live, live[n].next, path[k]) == None
        invariant Course(cloud, i, path, from, made, n, t, live, m, cache.State())
        invariant old(Right(cloud, root, live)) ==> Right(cloud, root, live)
        invariant mirror ==> OnTheWay(n, path, k, old(Snap()))
      {
        ghost var u, now := live, cache.State();
        var next := LoadStep(n, path, k, old(Snap()), mirror);
        if next == null {
          CourseEnds(cloud, i, path, from, made, n, t, u, live, m, now);
          missing := true;
          break;
        }
        CourseOn(cloud, i, path, from, made, n, t, u, live, m, now, next);
        n, k, made := next, k + 1, made + [Filing(next, live[next].id)];
        AsRecorded(n);
      }
      if k < |path| && !missing {
        NothingBelow(n, path, k);
        StaysSame(live);
        CourseEnds(cloud, i, path, from, made, n, t, live, live, m, cache.State());
        if mirror { FileEnds(n, path, k, old(Snap())); }
      }
      CourseParts(i, path, from, made, n, t, m);
    }

    lemma CourseParts(i: Id, path: Path, from: nat, made: seq<Filing>, n: Node, t: Tree, m: Maps<Node>)
      requires Course(cloud, i, path, from, made, n, t, live, m, cache.State())
      ensures Along(cloud, i, path, from, made, t, live) && Stays(t, live)
      ensures cache.State() == Filed(m, path, from, made)
      ensures n in live && (made != [] ==> n == made[|made| - 1].node)
      ensures from + |made| == |path| ==> Walk(cloud, i, path[from..]) == Some(live[n].id)
    {
      assert path[from..|path|] == path[from..];
    }

    lemma NothingBelow(n: Node, path: Path, k: nat)
      requires Works() && root != null && n in live && !live[n].folder && k < |path|
      ensures Child(cloud, live[n].id, path[k]) == None
    {
      assert Backed(cloud, live, n);
    }

    lemma FileEnds(n: Node, path: Path, k: nat, first: Snapshot)
      requires k < |path| && OnTheWay(n, path, k, first) && !live[n].folder && Works()
      ensures AtTheEnd(path, k, first)
    {
      hide WellFormed, Mirrored, Loaded, Walk, FoldersAlong;
      FileStops(cloud, root, Snap(), n, path, k);
    }

    /**
     * The node at a path, from the cache, the loaded part, or the drive. Whatever state memory is in, the answer is
     * that of the cache or of the search that goes on with the drive's listings. While memory mirrors the drive and
     * the path is not a stale one, it is that of the uncached walk; exactly the folders along the path get loaded, no
     * node is freed, and the cache gains exactly the entries that were asked for. A valid state stays valid.
     */
    method Get(path: Path, ghost stale: set<Path> := {}) returns (r: Node?)
      requires Valid() || (SoundBut(stale) && path !in stale) ||
               (Works() && (path in cache.pathNodes ==> cache.pathNodes[path] in live))
      modifies this`root, this`live, this`at, this`log, cache, live.Keys
      ensures Works() && log == old(log) && root != null && (old(root) != null ==> root == old(root))
      ensures fresh(live.Keys - old(live.Keys)) && (path == [] ==> r == root)
      ensures r != null ==> r in live && (path != [] ==> cache.Holds(path, r))
      ensures old(root) != null ==> Answered(path, r, old(live), old(cache.pathNodes))
      ensures old(root) != null && path != [] && path in old(cache.pathNodes) ==> r == old(cache.pathNodes[path])
      ensures old(Valid() || (SoundBut(stale) && path !in stale)) ==>
                && SoundBut(stale) && (r == null <==> Walk(cloud, ROOT, path) == None)
                && (r != null ==> Walk(cloud, ROOT, path) == Some(live[r].id))
                && Loaded(old(Snap()), Snap(), FoldersAlong(cloud, path))
                && Knows() == Looked(cloud, old(Knows()), path)
      ensures old(Valid()) ==> Valid() && LookedUp(old(Snap()), Snap(), path, FoldersAlong(cloud, path))
    {
      hide WellFormed, Faithful, Sound, Loaded, LookedUp, FilledIds, FoldersAlong, Walk, Named, InMemory, Usable,
        Coupled, Right, Stays, CacheGained, Sought, CachedBy;
      ghost var valid, sound, first := Valid(), Valid() || (SoundBut(stale) && path !in stale), Snap();
      ghost var but := if valid then {} else stale;
      if valid { ValidSound({}); }
      if sound { SoundWorks(but, path); }
      if path == [] {
        r := GetRoot();
        WalkRoot(cloud);
        RootSought(cloud, live, root);
        if sound { LookedAtRoot(cloud, first, Snap()); RootStands(first, but); }
        if valid { ValidSound(stale); }
        return;
      }
      var hit := cache.FindByPath(path);
      if hit.Some? {
        NothingGained(cloud, live, root, cache.pathNodes);
        if sound { CacheHit(cloud, root, Snap(), path, but); }
        if valid { ValidSound(stale); }
        return hit.value;
      }
      var top := GetRoot();
      ghost var s := Snap();
      if sound { RootStands(first, but); }
      r := Search(top, path, but);
      if sound { LookedFromRoot(cloud, first, s, Snap(), path); }
      if valid { ValidSound(stale); }
    }

    /** With its root made, memory is as sound as before. */
    lemma RootStands(first: Snapshot, but: set<Path>)
      requires root != null && Works() && RootMade(first, Snap())
      requires first == Snap() ==> Valid() || Sound(cloud, root, first, but)
      requires first != Snap() ==> Valid()
      ensures SoundBut(but) && root in live && Walk(cloud, ROOT, []) == Some(live[root].id)
    {
      hide WellFormed, Sound, Faithful;
      if Valid() { ValidSound(but); }
      WalkRoot(cloud);
    }

    /** The answer, and what the lookup has done to memory and cache. */
    ghost predicate Answered(path: Path, r: Node?, t: Tree, paths: map<Path, Node>)
      reads this, cache
    {
      && root != null && (r != null ==> r in live)
      && LookupAnswer(cloud, t, paths, root, path) == (if r == null then None else Some(live[r].id))
      && Stays(t, live) && CacheGained(cloud, t, root, paths, live, cache.pathNodes)
      && (Right(cloud, root, t) ==> Right(cloud, root, live))
    }

    /** The part of a lookup behind the cache. */
    method Search(top: Node, path: Path, ghost stale: set<Path>) returns (r: Node?)
      requires Works() && root == top && path !in cache.pathNodes && path != []
      modifies this`live, this`at, this`log, cache, live.Keys
      ensures Works() && log == old(log) && fresh(live.Keys - old(live.Keys))
      ensures Answered(path, r, old(live), old(cache.pathNodes)) && (r != null ==> cache.Holds(path, r))
      ensures old(SoundBut(stale)) ==>
                && SoundBut(stale) && (r == null <==> Walk(cloud, ROOT, path) == None)
                && (r != null ==> Walk(cloud, ROOT, path) == Some(live[r].id))
                && Loaded(old(Snap()), Snap(), FoldersAlong(cloud, path))
                && Knows() == Looked(cloud, old(Knows()), path)
      ensures old(Valid()) ==> Valid() && LookedUp(old(Snap()), Snap(), path, FoldersAlong(cloud, path))
    {
      hide WellFormed, Faithful, Sound, Mirrored, Loaded, LookedUp, FilledIds, FoldersAlong, Walk, Named, CachedBy,
        Usable, Coupled, Right, Stays, CacheGained, CachedAlong, Reached, OnTheWay, AtTheEnd, Along, Filed;
      ghost var s, mirror, sound, valid := Snap(), Mirrored(cloud, root, Snap()), SoundBut(stale), Valid();
      if valid { ValidSound(stale); }
      if sound { SoundMirrored(cloud, root, s, stale); }
      var n, k := Find(top, path);
      AsRecorded(n);
      EntryKnown(n);
      if mirror { FoundSoFar(n, path, k); }
      if k == |path| {
        assert path[..k] == path;
        InsertGained(cloud, live, top, cache.pathNodes, path, n);
        if sound { FoundInMemory(cloud, root, s, n, path, stale); }
        cache.Insert(path, n.id, n);
        return n;
      }
      if !n.filled {
        ghost var from, start, made := k, n, [];
        n, k, made := LoadAlong(n, path, k, mirror);
        FiledCached(cloud, s.tree[start].id, path, from, made, s.maps, s.tree, live);
        AlongGains(cloud, s.tree, top, path, k, s.maps.paths, live, cache.pathNodes);
        LastFiled(path, from, made, s.maps);
        if sound { LoadedFurther(start, path, from, n, k, made, s, stale); }
        r := if k == |path| then n else null;
      } else {
        NothingGained(cloud, live, top, cache.pathNodes);
        if sound { SearchedFilled(cloud, root, s, n, path, k); }
        r := null;
      }
    }

    /** The node filed last is at the end of the path. */
    lemma LastFiled(path: Path, from: nat, made: seq<Filing>, m: Maps<Node>)
      requires from + |made| <= |path| && cache.State() == Filed(m, path, from, made)
      ensures made != [] ==> cache.Holds(path[..from + |made|], made[|made| - 1].node)
      ensures path[..|path|] == path
    {
    }

    /** What the search in memory means while that mirrors the drive. */
    lemma FoundSoFar(n: Node, path: Path, k: nat)
      requires WellFormed(cloud) && root != null && Mirrored(cloud, root, Snap()) && n in live && k <= |path|
      requires Right(cloud, root, live) ==> Walk(cloud, ROOT, path[..k]) == Some(live[n].id)
      ensures Walk(cloud, ROOT, path[..k]) == Some(live[n].id) && OnTheWay(n, path, k, Snap())
    {
      hide WellFormed, Mirrored, Loaded, Walk, Right, FoldersAlong;
      MirroredParts(cloud, root, Snap());
      MirrorRight(cloud, root, Snap());
      LoadedAlong(cloud, root, Snap(), n, path, k);
      LoadedAlready(Snap(), cache.State(), FoldersAlong(cloud, path[..k]));
    }

    /** What loading on from there has added. */
    lemma LoadedFurther(start: Node, path: Path, from: nat, n: Node, k: nat, made: seq<Filing>, s: Snapshot,
                        stale: set<Path>)
      requires root != null && Sound(cloud, root, s, stale) && Works() && start in s.tree && !s.tree[start].filled
      requires from < |path| && k == from + |made| <= |path| && path != [] && path !in s.maps.paths
      requires Walk(cloud, ROOT, path[..from]) == Some(s.tree[start].id)
      requires Along(cloud, s.tree[start].id, path, from, made, s.tree, live)
      requires cache.State() == Filed(s.maps, path, from, made)
      requires if k < |path| then AtTheEnd(path, k, s) else OnTheWay(n, path, k, s)
      ensures SoundBut(stale) && Loaded(s, Snap(), FoldersAlong(cloud, path))
      ensures if k < |path| then Walk(cloud, ROOT, path) == None else Walk(cloud, ROOT, path) == Some(live[n].id)
      ensures Knows() == Looked(cloud, KnownIn(s), path)
      ensures Faithful(cloud, root, s) ==> Valid() && LookedUp(s, Snap(), path, FoldersAlong(cloud, path))
    {
      hide WellFormed, Faithful, Sound, Mirrored, Loaded, Walk, FoldersAlong, CachedBy, Along, Filed, Usable, Coupled;
      var i := s.tree[start].id;
      assert path[..|path|] == path;
      SoundMirrored(cloud, root, s, stale);
      CachedStretch(cloud, root, s, start, path, from, k);
      FiledPaths(s.maps, path, from, made);
      FiledSound(cloud, root, s, Snap(), FoldersAlong(cloud, path), i, path, from, made, stale);
      if Faithful(cloud, root, s) {
        FiledFaithful(cloud, root, s, Snap(), FoldersAlong(cloud, path), i, path, from, made);
      }
      LookupFilled(s, Snap(), FoldersAlong(cloud, path));
    }

    /** The entries of a folder, loaded on first need; a file has no listing. */
    method GetDirectoryIterator(n: Node, ghost stale: set<Path> := {}) returns (items: Option<seq<Node>>)
      requires (Valid() || Works()) && root != null && n in live
      modifies this`live, this`at, this`log, n
      ensures Works() && log == old(log) && fresh(live.Keys - old(live.Keys)) && Stays(old(live), live) && n in live
      ensures items.Some? <==> old(live)[n].folder
      ensures items.Some? ==>
                && live[n].filled && items == Some(live[n].next)
                && IdsIn(live, items.value) == ListedIds(cloud, old(live), n)
      ensures old(Right(cloud, root, live)) ==> Right(cloud, root, live)
      ensures old(SoundBut(stale)) ==>
                && SoundBut(stale)
                && Loaded(old(Snap()), Snap(), if old(live)[n].folder then {old(live)[n].id} else {})
      ensures old(Valid()) ==>
                && Valid()
                && LookedUp(old(Snap()), Snap(), [], if old(live)[n].folder then {old(live)[n].id} else {})
    {
      hide WellFormed, Faithful, Sound, Mirrored, Loaded, LookedUp, FilledIds, Usable, Right, Stays, Coupled,
        FilledFrom, ListedIds;
      ghost var valid, sound, t, s := Valid(), SoundBut(stale), live, Snap();
      if valid { ValidWorks([]); }
      if sound { SoundMirrored(cloud, root, s, stale); }
      AsRecorded(n);
      StaysSame(live);
      if !n.folder {
        LookedUpAlready(Snap(), [], {});
        return None;
      }
      if n.filled {
        ListedSame(cloud, live, n);
        FilledMember(live, n);
        LookedUpAlready(Snap(), [], {n.id});
      } else {
        ghost var news := FillDir(n, []);
        ListedFilled(cloud, root, t, live, n, news);
        if sound { LoadedSound(cloud, root, s, Snap(), {t[n].id}, stale); }
        AsRecorded(n);
      }
      items := Some(n.next);
    }

    // ---------- removal ----------

    ghost function Now(): World
      reads this, cache
    {
      World(cloud, Snap(), log)
    }

    /** These nodes are recorded as they really are. */
    ghost predicate CoupledOn(nodes: set<Node>)
      reads this, nodes
    {
      forall k :: k in nodes ==> k in live && k.State() == live[k]
    }

    /** Removes one owned node with everything below it, children first; the list it stood in is left to the caller. */
    method RemoveOne(n: Node, m: Node, ghost bound: nat) returns (ghost order: seq<Node>)
      requires root != null && Structured(cloud, root, Snap())
      requires n in live && m in live[n].next && m in at && CoupledOn(Subtree(at, m))
      requires NoDeeper(at, bound) && |at[m]| <= bound
      modifies this`cloud, this`live, this`at, this`log, cache, Subtree(at, m)
      ensures RemovedOne(root, old(Now()), Now(), n, m, order)
      ensures old(log) <= log && EachOnce(old(live), old(live).Keys - live.Keys, log[|old(log)|..])
      decreases bound - |at[m]|, 2
    {
      hide Structured, RemovedOne, RemovedAll, Removed, Below, LeafDropped, Purged, NoDeeper, EachOnce;
      order := RemoveNodes(m, null, bound);
      ghost var u := Now();
      AllReady(root, old(Now()), u, n, m, order);
      AllThenOne(root, old(Now()), u, n, m, order);
      AllKeepsRest(root, old(Now()), u, m, order);
      SayFarewell(m);
      order := order + [m];
      RemovalTold(root, old(Now()), Now(), n, m, order);
    }

    /** The drive deletes the entry, then the local copy and the subscribers follow. */
    method SayFarewell(m: Node)
      requires m in live && m.State() == live[m] && live[m].parent != null && live[m].parent in live && m in at
      requires live[m].id in cloud
      modifies this`cloud, this`live, this`at, this`log, cache
      ensures Now() == LeafStep(old(Now()), m)
    {
      hide Removed, Below, LeafDropped, Purged;
      var i := m.id;
      cloud := Removed(cloud, i);
      log := log + [RemoteRemoved(i)];
      if !m.folder {
        log := log + [LocalDeleted(i)];
      }
      log := log + [Notified(i)];
      cache.SlotNodeRemoved(m, i);
      live, at := LeafDropped(live, m), at - {m};
    }

    /** Removes all children (what == null) or one particular child, each with everything below it. */
    method RemoveNodes(n: Node, what: Node?, ghost bound: nat) returns (ghost order: seq<Node>)
      requires root != null && Structured(cloud, root, Snap())
      requires n in live && n in at && CoupledOn(Subtree(at, n)) && (what != null ==> what in live[n].next)
      requires NoDeeper(at, bound) && |at[n]| <= bound
      modifies this`cloud, this`live, this`at, this`log, cache, Subtree(at, n)
      ensures what == null ==> RemovedAll(root, old(Now()), Now(), n, order)
      ensures what != null ==> RemovedOne(root, old(Now()), Now(), n, what, order)
      ensures n in at && CoupledOn(Subtree(at, n))
      decreases bound - |at[n]|, 1
    {
      hide Structured, RemovedOne, RemovedAll, Subtree, NoDeeper;
      if what != null {
        order := RemoveChild(n, what, bound);
      } else {
        SubtreeShrinks(at, at, n);
        order := RemoveAll(n, bound);
        AllKeepsRest(root, old(Now()), Now(), n, order);
        n.next := [];
      }
    }

    /** Removes one child and takes it off the list. */
    method RemoveChild(n: Node, child: Node, ghost bound: nat) returns (ghost order: seq<Node>)
      requires root != null && Structured(cloud, root, Snap())
      requires n in live && n in at && CoupledOn(Subtree(at, n)) && child in live[n].next
      requires NoDeeper(at, bound) && |at[n]| <= bound
      modifies this`cloud, this`live, this`at, this`log, cache, Subtree(at, n)
      ensures RemovedOne(root, old(Now()), Now(), n, child, order)
      ensures n in at && CoupledOn(Subtree(at, n))
      decreases bound - |at[n]|, 0
    {
      hide Structured, RemovedOne, RemovedAll, Subtree, NoDeeper, EachOnce;
      SubtreeShrinks(at, at, n);
      assert n.State() == live[n];
      ChildInside(cloud, root, Snap(), n, child);
      NoDeeperAt(at, at, bound, child);
      order := RemoveOne(n, child, bound);
      LeftBelow(old(Now()), n, child, order);
      TakeOff(n, child);
    }

    /** Takes a removed child off the list, which the rest of the tree already shows. */
    method TakeOff(n: Node, child: Node)
      requires n in at && n in live && CoupledOn(Subtree(at, n) - {n})
      requires live[n] == n.State().(next := Without(n.next, child))
      modifies n
      ensures CoupledOn(Subtree(at, n))
    {
      n.next := Without(n.next, child);
    }

    /** What a removal leaves below n is recorded as it really is, but for n itself. */
    lemma LeftBelow(w: World, n: Node, m: Node, order: seq<Node>)
      requires root != null && RemovedOne(root, w, Now(), n, m, order) && n in w.snap.at && m in w.snap.at
      requires forall k :: k in Subtree(w.snap.at, n) && k !in Subtree(w.snap.at, m) ==>
                 k in w.snap.tree && k.State() == w.snap.tree[k]
      ensures n in w.snap.tree && n in live && n in at && CoupledOn(Subtree(at, n) - {n})
      ensures live[n] == w.snap.tree[n].(next := Without(w.snap.tree[n].next, m))
    {
      OneKeepsRest(root, w, Now(), n, m, order);
      hide RemovedOne, Subtree;
      forall k | k in Subtree(at, n) - {n}
        ensures k in live && k.State() == live[k]
      {
        OneLeavesBelow(root, w, Now(), n, m, order, k);
      }
    }

    /** The first i children are gone; what is left is as it was, and recorded as it really is. */
    ghost predicate Midway(w: World, n: Node, i: nat, order: seq<Node>)
      reads this, cache, n, live.Keys
    {
      && root != null && n in w.snap.tree && n in w.snap.at && RemovedSome(root, w, Now(), n, i, order)
      && n.State() == w.snap.tree[n]
      && (forall k :: k in at ==> k in w.snap.at && at[k] == w.snap.at[k])
      && (forall k :: k in live && k != n && k in Subtree(w.snap.at, n) ==> k.State() == live[k])
    }

    /** One more child. */
    method RemoveNext(n: Node, i: nat, ghost bound: nat, ghost w: World, ghost order: seq<Node>)
      returns (ghost more: seq<Node>)
      requires Midway(w, n, i, order) && i < |n.next|
      requires NoDeeper(w.snap.at, bound) && |w.snap.at[n]| <= bound
      modifies this`cloud, this`live, this`at, this`log, cache, Subtree(w.snap.at, n) - {n}
      ensures Midway(w, n, i + 1, order + more)
      decreases bound - |w.snap.at[n]| - 1, 3
    {
      hide Structured, RemovedOne, RemovedAll, RemovedSome, Subtree, NoDeeper, EachOnce;
      ghost var u := Now();
      SomeNext(root, w, u, n, i, order);
      SubtreeShrinks(w.snap.at, at, n);
      SubtreeShrinks(at, at, n.next[i]);
      NoDeeperAt(w.snap.at, at, bound, n.next[i]);
      var m := n.next[i];
      more := RemoveOne(n, m, bound);
      assert n.State() == w.snap.tree[n];
      OneKeepsRest(root, u, Now(), n, m, more);
      SomeStep(root, w, u, Now(), n, i, order, more);
      forall k | k in live && k != n && k in Subtree(w.snap.at, n)
        ensures k.State() == live[k]
      {
        assert k in u.snap.tree && live[k] == u.snap.tree[k] && k !in Subtree(u.snap.at, m);
      }
    }

    /** Removes one child after the other; the list itself is cleared by the caller. */
    method RemoveAll(n: Node, ghost bound: nat) returns (ghost order: seq<Node>)
      requires root != null && Structured(cloud, root, Snap())
      requires n in live && n in at && CoupledOn(Subtree(at, n))
      requires NoDeeper(at, bound) && |at[n]| <= bound
      modifies this`cloud, this`live, this`at, this`log, cache, Subtree(at, n) - {n}
      ensures RemovedAll(root, old(Now()), Now(), n, order)
      decreases bound - |at[n]|, 0
    {
      hide Structured, RemovedOne, RemovedAll, RemovedSome, NoDeeper;
      ghost var w := Now();
      SomeStart(root, w, n);
      order := [];
      var i := 0;
      while i < |n.next|
        invariant 0 <= i <= |n.next| == |w.snap.tree[n].next|
        invariant Midway(w, n, i, order)
      {
        ghost var more := RemoveNext(n, i, bound, w, order);
        order := order + more;
        i := i + 1;
      }
      SomeDone(root, w, Now(), n, order);
    }

    /**
     * Removes the node at a path. On the drive that is one deletion; in memory and for the subscribers every
     * loaded node below goes first, each once; `before` is the state after the lookup.
     */
    method RemoveNode(path: Path, ghost stale: set<Path> := {})
      returns (status: RemoveStatus, ghost before: Snapshot, ghost order: seq<Node>)
      requires (Valid() || (SoundBut(stale) && path !in stale)) && UniqueNames(cloud)
      modifies this, cache, live.Keys
      ensures SoundBut(stale) && UniqueNames(cloud) && root != null && fresh(live.Keys - old(live.Keys))
      ensures Loaded(old(Snap()), before, FoldersAlong(old(cloud), path))
      ensures status == RemoveSuccess <==> path != [] && Walk(old(cloud), ROOT, path).Some?
      ensures status == RemoveNotFound ==> cloud == old(cloud) && Snap() == before && log == old(log)
      ensures status == RemoveSuccess ==>
                exists n, m :: n in before.tree && m in before.tree &&
                  before.tree[m].id == Walk(old(cloud), ROOT, path).value &&
                  RemovedOne(root, World(old(cloud), before, old(log)), Now(), n, m, order)
      ensures status == RemoveSuccess ==>
                && PathGone(old(cloud), cloud, path)
                && old(log) <= log && EachOnce(before.tree, before.tree.Keys - live.Keys, log[|old(log)|..])
                && forall k :: k in before.tree ==> (k in live <==> before.tree[k].id in cloud)
      ensures status == RemoveSuccess ==> FilledIds(live) == FilledIds(before.tree) * cloud.Keys
      ensures KnownIn(before) == Looked(old(cloud), old(Knows()), path)
      ensures cache.pathNodes.Keys <= before.maps.paths.Keys && (old(root) != null ==> root == old(root))
      ensures old(Valid()) ==>
                && Valid() && LookedUp(old(Snap()), before, path, FoldersAlong(old(cloud), path))
                && StillCached(old(Snap()), before)
      ensures old(Valid()) && status == RemoveSuccess ==>
                cache.pathNodes == map q | q in before.maps.paths && !(path <= q) :: before.maps.paths[q]
    {
      hide WellFormed, UniqueNames, Faithful, Sound, Loaded, LookedUp, FoldersAlong, Walk, Structured, RemovedOne,
        RemovedAll, Mirrors, Mirrored, CachedBy, FilledIds, StillCached, Coupled, EachOnce,
        PathGone;
      order := [];
      ghost var valid := Valid();
      ghost var but := if valid then {} else stale;
      var m := Get(path, but);
      before := Snap();
      if valid {
        StaysCached(old(Snap()), before, path, FoldersAlong(cloud, path));
        ValidSound(stale);
      }
      if m == null { return RemoveNotFound, before, order; }
      SoundMirrored(cloud, root, before, but);
      MirroredParts(cloud, root, before);
      AtRoot(cloud, root, before, m, path);
      AsRecorded(m);
      var n := m.parent;
      if n == null { return RemoveNotFound, before, order; }
      ghost var w := Now();
      order := RemoveFound(n, m, path, but);
      RemovalTold(root, w, Now(), n, m, order);
      StayOnDrive(root, w, Now(), n, m, order);
      RemovedWalks(root, w, Now(), n, m, order, path);
      status := RemoveSuccess;
      if valid { ValidSound(stale); }
    }

    /** The removal proper, in a state where lookups work, and keeping it so. */
    method RemoveFound(n: Node, m: Node, path: Path, ghost stale: set<Path>) returns (ghost order: seq<Node>)
      requires SoundBut(stale) && UniqueNames(cloud) && root != null
      requires m in live && live[m].parent == n && Walk(cloud, ROOT, path) == Some(live[m].id)
      modifies this`cloud, this`live, this`at, this`log, cache, live.Keys
      ensures SoundBut(stale) && UniqueNames(cloud) && live.Keys <= old(live.Keys)
      ensures n in old(live) && RemovedOne(root, old(Now()), Now(), n, m, order)
      ensures FilledIds(live) == FilledIds(old(live)) * cloud.Keys
      ensures cache.pathNodes.Keys <= old(cache.pathNodes.Keys)
      ensures old(Valid()) ==>
                && Valid()
                && cache.pathNodes == map q | q in old(cache.pathNodes) && !(path <= q) :: old(cache.pathNodes)[q]
    {
      hide WellFormed, UniqueNames, Faithful, Sound, Mirrored, Walk, Structured, RemovedOne, RemovedAll, FilledIds;
      ghost var w, valid := Now(), Valid();
      SoundMirrored(cloud, root, Snap(), stale);
      RemoveReady(cloud, root, Snap(), m);
      order := RemoveNodes(n, m, DepthBound(at));
      RemoveKeepsSound(root, w, Now(), n, m, order, path, stale);
      if valid {
        RemoveKeepsFaithful(root, w, Now(), n, m, order, path);
        RemovedPaths(root, w, Now(), n, m, order, path);
      }
      FilledAfterOne(root, w, Now(), n, m, order);
      AllRecorded(w, n, m, order);
    }

    /** After a removal every node left is recorded as it really is, at n and below and elsewhere. */
    lemma AllRecorded(w: World, n: Node, m: Node, order: seq<Node>)
      requires root != null && RemovedOne(root, w, Now(), n, m, order) && n in w.snap.at
      requires n in at && CoupledOn(Subtree(at, n))
      requires forall k :: k in w.snap.tree && k !in Subtree(w.snap.at, n) ==> k.State() == w.snap.tree[k]
      ensures Coupled() && live.Keys <= w.snap.tree.Keys
    {
      OneKeepsRest(root, w, Now(), n, m, order);
      hide RemovedOne, Subtree;
      forall k | k in live
        ensures k.State() == live[k]
      {
        SubtreeSame(w.snap.at, at, n, k);
        SubtreeShrinks(w.snap.at, at, n);
      }
    }

    // ---------- creation ----------

    /** The drive stores a new entry under the given server-chosen id. */
    method CloudCreateMeta(n: Node, par: Id, serverId: Id)
      requires par in cloud
      modifies this`cloud, n
      ensures cloud == Created(old(cloud), par, serverId, old(n.name), old(n.folder))
      ensures n.State() == old(n.State()).(id := serverId)
    {
      cloud := Created(cloud, par, serverId, n.name, n.folder);
      n.id := serverId;
    }

    /** The names of the path that memory lacks, and the ids the drive will give them. */
    ghost function Missing(path: Path, isDirectory: bool, ids: seq<Id>): Chain
      requires root != null
      reads this
    {
      Chain(path[Reached(live, root, path, 0).1..], ids, isDirectory)
    }

    /** Part of the way: as many requests made as there are new nodes, and nothing else changed. */
    ghost predicate PartWay(c: Cloud, s: Snapshot, n: Node, made: seq<Node>, ch: Chain)
      reads this, cache, live.Keys
    {
      && n in s.tree && |made| <= |ch.names| <= |ch.ids| && Coupled()
      && cloud == Grown(c, s.tree[n].id, ch, |made|) && Chained(s, Snap(), n, made, ch)
    }

    /**
     * What a creation leaves. Memory goes on mirroring the drive exactly if one name was missing below a filled folder;
     * below a folder, listings then are right exactly in the same case, and lookups exactly if the first of the names
     * was new on the drive, stale paths aside.
     */
    ghost predicate Leaves(c: Cloud, s: Snapshot, did: Making, stale: set<Path>)
      reads this, cache, live.Keys
    {
      && root != null && did.chain.ids != [] && |did.made| <= |did.chain.ids| && did.made != []
      && (WellFormed(cloud) && Mirrored(cloud, root, Snap()) <==> OneBelowFilled(s, did))
      && (OneBelowFilled(s, did) ==> SoundBut(stale))
      && (InFolder(c, did) ==>
            && Works() && (UniqueNames(cloud) <==> NameIsNew(c, did))
            && Walk(cloud, ROOT, did.path) ==
               (if NameIsNew(c, did) then Some(did.chain.ids[|did.made| - 1]) else Walk(c, ROOT, did.path))
            && (ListsOnce(cloud, live) <==> OneBelowFilled(s, did))
            && (NameIsNew(c, did) ==>
                  && AnswersRight(cloud, root, live, cache.pathNodes, stale)
                  && Right(cloud, root, live) && TrueBut(cloud, live, cache.pathNodes, stale))
            && (AnswersRight(cloud, root, live, cache.pathNodes, stale) && Onward(did) !in stale ==> NameIsNew(c, did)))
    }

    /**
     * The names that memory lacked are on the drive now, one entry each below the node where the search ended, and the
     * last node has the last id. If the drive lacked the first of them too, below a folder, their paths lead to the new
     * entries, and all other paths where they led.
     */
    ghost predicate Adds(c: Cloud, t: Tree, did: Making)
      reads this
    {
      && did.from < |did.path| && |did.path| - did.from == |did.chain.names| <= |did.chain.ids| && did.top in t
      && Walk(c, ROOT, did.path[..did.from]) == Some(t[did.top].id)
      && MadeSoFar(c, cloud, t[did.top].id, did.chain, |did.chain.names|)
      && LastOf(did.top, did.made) in live
      && live[LastOf(did.top, did.made)].id == did.chain.ids[|did.chain.names| - 1]
      && (FolderAt(c, did.path[..did.from]) && Walk(c, ROOT, did.path[..did.from + 1]).None? ==>
            PathAdded(c, cloud, did.path, did.from, did.chain.ids))
    }

    /**
     * Creates every name of the path that the search in memory does not find, the last one of the kind asked for,
     * below the node where the search ends; nothing is loaded for it. A valid state stays valid exactly if one name
     * was missing below a filled folder.
     */
    method CreateNode(path: Path, isDirectory: bool, ids: seq<Id>, ghost stale: set<Path> := {})
      returns (status: CreateStatus, r: Node?, ghost did: Making)
      requires (Valid() || SoundBut(stale)) && UniqueNames(cloud) && root != null
      requires ChainOk(cloud, Missing(path, isDirectory, ids))
      modifies this`cloud, this`live, this`at, live.Keys
      ensures fresh(live.Keys - old(live.Keys)) && FilledIds(live) == FilledIds(old(live)) && Coupled()
      ensures status == CreateAlreadyExists <==> Reached(old(live), root, path, 0).1 == |path|
      ensures status == CreateAlreadyExists ==>
              r == null && Now() == old(Now()) && Walk(cloud, ROOT, path).Some? && SoundBut(stale)
      ensures status == CreateAlreadyExists && old(Valid()) ==> Valid()
      ensures status == CreateSuccess ==>
                && did.path == path && did.chain == old(Missing(path, isDirectory, ids))
                && Creates(old(cloud), root, old(Snap()), did, Snap())
                && cloud == DriveAfter(old(cloud), old(Snap()), did)
                && did.made != [] && r == did.made[|did.made| - 1] && r in live
                && (old(Valid()) ==> (Valid() <==> OneBelowFilled(old(Snap()), did)))
                && Leaves(old(cloud), old(Snap()), did, stale)
      ensures status == CreateSuccess ==>
                && did.from < |path| && did.chain == Chain(path[did.from..], ids, isDirectory)
                && Adds(old(cloud), old(live), did)
    {
      hide WellFormed, UniqueNames, Faithful, Sound, Mirrored, Walk, FilledIds, FolderAt, Stops, Reached, ChainOk,
        PartWay, Creates, OneBelowFilled, DriveAfter, Usable, Coupled, Valid, Works, SoundBut, Leaves, Adds;
      if Valid() { ValidSound(stale); }
      MirrorHere(stale);
      SearchStops(cloud, root, Snap(), path);
      SoundWorks(stale, path);
      var n, k := Find(root, path);
      var entries := |path| - k;
      did := Making(path, k, n, [], Missing(path, isDirectory, ids));
      if entries == 0 {
        assert path[..|path|] == path;
        return CreateAlreadyExists, null, did;
      }
      ghost var s, c := Snap(), cloud;
      ChainLengths(c, did.chain);
      StopsFacts(c, root, s, path, n, k);
      StartOfWay(n, did.chain);
      ghost var made;
      n, made := CreateRest(n, path, k, isDirectory, ids, c, s, did.chain);
      did := did.(made := made);
      EndOfWay(c, s, did, stale);
      CreationAdds(c, s, did);
      return CreateSuccess, n, did;
    }

    /** Where the new entries begin, and the walks they add. */
    lemma CreationAdds(c: Cloud, s: Snapshot, did: Making)
      requires root != null && Creates(c, root, s, did, Snap()) && cloud == DriveAfter(c, s, did)
      ensures Adds(c, s.tree, did) && did.from < |did.path| && did.chain.names == did.path[did.from..]
    {
      hide WellFormed, UniqueNames, Mirrored, Walk, Mirrors, Right, Usable, Chained, Creates, DriveAfter, FolderAt,
        MadeSoFar, Coupled, LastOf, Reached, PathAdded;
      CreationEntries(c, root, s, did, Snap());
      CreatesFacts(c, root, s, did, Snap());
      CreatesSizes(c, root, s, did, Snap());
      CreatedNames(c, root, s, did, Snap());
      if InFolder(c, did) && NameIsNew(c, did) { CreationWalks(c, root, s, did, Snap()); }
      assert |did.path| - did.from == |did.chain.names|;
    }

    /** The rest of the names, one below the other. */
    method CreateRest(top: Node, path: Path, from: nat, isDirectory: bool, ids: seq<Id>, ghost c: Cloud,
                      ghost s: Snapshot, ghost ch: Chain) returns (n: Node, ghost made: seq<Node>)
      requires from < |path| && ch == Chain(path[from..], ids, isDirectory) && ChainOk(c, ch)
      requires PartWay(c, s, top, [], ch) && top in live && s.tree[top].id in c
      modifies this`cloud, this`live, this`at, live.Keys
      ensures PartWay(c, s, top, made, ch) && |made| == |ch.names| && n == LastOf(top, made) && n in live
      ensures fresh(live.Keys - old(live.Keys))
    {
      hide PartWay, ChainOk;
      n, made := top, [];
      var k, entries, asked := from, |path| - from, 0;
      ChainLengths(c, ch);
      while entries > 0
        invariant 0 <= entries == |path| - k && asked == |made| == k - from
        invariant PartWay(c, s, top, made, ch) && n == LastOf(top, made) && n in live
        invariant fresh(live.Keys - old(live.Keys))
      {
        // intermediate names become folders, the last one what was asked for
        var kind := !(entries == 1 && !isDirectory);
        n := CreateNext(n, path[k], kind, ids[asked], c, s, top, made, ch);
        made := made + [n];
        asked, entries, k := asked + 1, entries - 1, k + 1;
      }
    }

    lemma StartOfWay(n: Node, ch: Chain)
      requires Coupled() && n in live && at.Keys == live.Keys && |ch.names| <= |ch.ids|
      ensures PartWay(cloud, Snap(), n, [], ch)
    {
    }

    /** One more entry on the drive and one more node, below the one made before. */
    method CreateNext(n: Node, x: Name, folder: bool, serverId: Id, ghost c: Cloud, ghost s: Snapshot, ghost top: Node,
                      ghost made: seq<Node>, ghost ch: Chain) returns (m: Node)
      requires PartWay(c, s, top, made, ch) && n == LastOf(top, made) && ChainOk(c, ch) && |made| < |ch.names|
      requires x == ch.names[|made|] && serverId == ch.ids[|made|] && folder == KindAt(ch, |made|)
      requires s.tree[top].id in c
      modifies this`cloud, this`live, this`at, n
      ensures PartWay(c, s, top, made + [m], ch) && fresh(m) && live.Keys == old(live.Keys) + {m}
    {
      hide Chained, AddedTree, KindAt, Grown;
      ghost var u, par := Snap(), s.tree[top].id;
      ChainedLast(s, u, top, made, ch);
      GrownKeys(c, par, ch, |made|);
      m := NewChild(n, x, folder, serverId);
      ChainedOn(s, u, top, made, ch, m);
      GrownOnce(c, par, ch, |made| + 1);
      AddedFilled(u.tree, n, m, serverId, x, folder);
    }

    lemma EndOfWay(c: Cloud, s: Snapshot, r: Making, stale: set<Path>)
      requires root != null && Sound(c, root, s, stale) && Stops(c, root, s, r.path, r.top, r.from)
      requires r.chain.names == r.path[r.from..]
      requires ChainOk(c, r.chain) && PartWay(c, s, r.top, r.made, r.chain) && |r.made| == |r.chain.names|
      ensures Creates(c, root, s, r, Snap()) && cloud == DriveAfter(c, s, r) && Coupled()
      ensures r.made != [] && LastOf(r.top, r.made) == r.made[|r.made| - 1] && LastOf(r.top, r.made) in live
      ensures FilledIds(live) == FilledIds(s.tree) && (Faithful(c, root, s) ==> (Valid() <==> OneBelowFilled(s, r)))
      ensures Leaves(c, s, r, stale) && LastOf(r.top, r.made) in live
    {
      hide WellFormed, UniqueNames, Faithful, Sound, Mirrored, Walk, FilledIds, Stops, Chained, Grown, ChainOk,
        InFolder, NameIsNew, OneBelowFilled, Right, AnswersRight, ListsOnce, TrueBut, Usable;
      CreatesSizes(c, root, s, r, Snap());
      CreatesFacts(c, root, s, r, Snap());
      ChainedLast(s, Snap(), r.top, r.made, r.chain);
      assert cloud == DriveAfter(c, s, r);
      hide DriveAfter, Creates, Coupled;
      CreationOutcome(c, root, s, r, Snap());
      if OneBelowFilled(s, r) { OneKeepsTrue(c, root, s, r, Snap(), stale); }
      if Valid() { FaithfulMirrors(cloud, root, Snap()); }
      TruePaths(c, root, s, stale);
      if InFolder(c, r) {
        CreationOnDrive(c, root, s, r, Snap());
        UsableAfter(c, root, s, r, Snap());
        LookupsAfter(c, root, s, r, Snap(), stale);
        ListingsAfter(c, root, s, r, Snap());
      }
    }

    /** Creates the node, has the drive store it, and appends it. */
    method NewChild(n: Node, x: Name, folder: bool, serverId: Id) returns (m: Node)
      requires Coupled() && n in live && n in at && live[n].id in cloud
      modifies this`cloud, this`live, this`at, n
      ensures fresh(m) && Coupled() && cloud == Created(old(cloud), old(live)[n].id, serverId, x, folder)
      ensures Snap() ==
              Snapshot(AddedTree(old(live), n, m, serverId, x, folder), old(at)[m := old(at)[n] + [serverId]],
                       cache.State())
    {
      hide Created;
      m := new Node(n);
      m.name, m.folder := x, folder;
      AsRecorded(n);
      CloudCreateMeta(m, n.id, serverId);
      n.next := n.next + [m];
      Record(n, m, serverId, x, folder);
    }

    /** Records a node just appended. */
    ghost method Record(n: Node, m: Node, serverId: Id, x: Name, folder: bool)
      requires n in live && n in at && m !in live && n.State() == live[n].(next := live[n].next + [m])
      requires m.State() == NodeState(serverId, x, folder, false, [], n)
      requires forall k :: k in live && k != n ==> k.State() == live[k]
      modifies this`live, this`at
      ensures Coupled() && live == AddedTree(old(live), n, m, serverId, x, folder)
      ensures at == old(at)[m := old(at)[n] + [serverId]]
    {
      live, at := AddedTree(live, n, m, serverId, x, folder), at[m := at[n] + [serverId]];
    }

    // ---------- renaming ----------

    method DetachNode(p: Node, m: Node) returns (found: bool)
      modifies p, m
      ensures found <==> m in old(p.next)
      ensures !found ==> unchanged(p, m)
      ensures found && m != p ==> p.State() == old(p.State()).(next := Without(old(p.next), m))
      ensures found && m != p ==> m.State() == old(m.State()).(parent := null)
      ensures found && m == p ==> p.State() == old(p.State()).(next := Without(old(p.next), m), parent := null)
    {
      found := m in p.next;
      if found {
        m.parent := null;
        p.next := Without(p.next, m);
      }
    }

    method AttachNode(q: Node, m: Node)
      requires m != q
      modifies q, m
      ensures if m in old(q.next) then unchanged(q, m) else
                q.State() == old(q.State()).(next := old(q.next) + [m]) && m.State() == old(m.State()).(parent := q)
    {
      if m !in q.next {
        m.parent := q;
        q.next := q.next + [m];
      }
    }

    method Relink(m: Node, p: Node, q: Node, x: Name)
      requires m in p.next && m != p && m != q && (p != q ==> m !in q.next)
      modifies m, p, q
      ensures m.State() == old(m.State()).(name := x, parent := q)
      ensures q.State() == old(q.State()).(next := Without(old(q.next), m) + [m])
      ensures p != q ==> p.State() == old(p.State()).(next := Without(old(p.next), m))
    {
      var detached := DetachNode(p, m);
      assert detached;
      m.name := x;
      AttachNode(q, m);
    }

    /**
     * The same lines when assertions are compiled out, and the detaching with them: the node is owned once, by the
     * node its parent link names, exactly if the parent stays the same.
     */
    method RelinkUnasserted(m: Node, p: Node, q: Node, x: Name)
      requires m in p.next && m.parent == p && m != p && m != q && (p != q ==> m !in q.next)
      modifies m, p, q
      ensures m.name == x && m.parent == q && m in p.next && m in q.next
      ensures (forall n :: n in {p, q} && m in n.next ==> n == m.parent) <==> p == q
    {
      m.name := x;
      AttachNode(q, m);
      assert p in {p, q} && m in p.next;
    }

    /** In memory the move is exactly the one recorded. */
    method MoveInMemory(m: Node, p: Node, q: Node, x: Name, ghost r: Renaming)
      requires Coupled() && root != null && Renames(cloud, root, Snap(), r)
      requires r.m == m && r.p == p && r.q == q && NewName(r) == x
      modifies m, p, q
      ensures MovedSnap(Snap(), r).tree.Keys == live.Keys
      ensures forall k :: k in MovedSnap(Snap(), r).tree ==> k.State() == MovedSnap(Snap(), r).tree[k]
      ensures m.id == old(m.id) && q.id == old(q.id) && m.id == IdIn(live, m) && q.id == IdIn(live, q) && m.name == x
    {
      hide Renames, Faithful, WellFormed, MovedSnap;
      ghost var t := MovedSnap(Snap(), r).tree;
      MovedFields(cloud, root, Snap(), r);
      RenamedIsOwned(cloud, root, Snap(), r);
      assert m.State() == live[m] && p.State() == live[p] && q.State() == live[q];
      Relink(m, p, q, x);
      assert m.State() == t[m] && q.State() == t[q] && p.State() == t[p];
      forall k | k in live
        ensures k in t && k.State() == t[k]
      {
        if k != m && k != p && k != q { assert t[k] == live[k] && k.State() == live[k]; }
      }
    }

    /** Moves the node in memory, then tells the drive and the cache. */
    method MoveNode(m: Node, p: Node, q: Node, x: Name, ghost r: Renaming)
      requires Coupled() && root != null && Renames(cloud, root, Snap(), r)
      requires r.m == m && r.p == p && r.q == q && NewName(r) == x
      modifies this`cloud, this`live, this`at, cache, m, p, q
      ensures cloud == MovedCloud(old(cloud), old(Snap()), r) && Snap() == MovedSnap(old(Snap()), r) && Coupled()
    {
      hide Renames, Faithful, WellFormed, MovedCloud, MovedSnap, Updated, Purged;
      ghost var s := Snap();
      MovedRequest(cloud, root, s, r);
      MoveInMemory(m, p, q, x, r);
      cloud := Updated(cloud, m.id, m.name, if q == p then None else Some(q.id));
      cache.SlotNodeChanged(m, m.id);
      live, at := MovedSnap(s, r).tree, MovedSnap(s, r).at;
    }

    /** Moves the node, then removes what stood at the new path, completely, from drive and tree. */
    method RenameFound(m: Node, p: Node, q: Node, y: Node?, x: Name, ghost r: Renaming) returns (ghost order: seq<Node>)
      requires Coupled() && root != null && Renames(cloud, root, Snap(), r)
      requires r.m == m && r.p == p && r.q == q && NewName(r) == x
      requires (if y == null then r.y == None else r.y == Some(y))
      modifies this`cloud, this`live, this`at, this`log, cache, live.Keys
      ensures RenameDone(old(cloud), root, old(Snap()), r, Now(), old(log), order) && Coupled()
      ensures live.Keys <= old(live.Keys)
    {
      hide Renames, Faithful, WellFormed, MovedCloud, MovedSnap, RemovedOne, Structured;
      RenamedIsOwned(cloud, root, Snap(), r);
      SameNodes(Snap(), r, m);
      MoveNode(m, p, q, x, r);
      order := [];
      if y != null {
        order := ClearTarget(q, y, old(cloud), old(Snap()), r);
      }
    }

    method ClearTarget(q: Node, y: Node, ghost c: Cloud, ghost s: Snapshot, ghost r: Renaming)
      returns (ghost order: seq<Node>)
      requires Coupled() && root != null && Renames(c, root, s, r) && r.q == q && r.y == Some(y)
      requires cloud == MovedCloud(c, s, r) && Snap() == MovedSnap(s, r)
      modifies this`cloud, this`live, this`at, this`log, cache, live.Keys
      ensures Coupled() && RemovedOne(root, old(Now()), Now(), q, y, order) && live.Keys <= old(live.Keys)
    {
      hide Renames, MovedCloud, MovedSnap, RemovedOne, RemovedAll, Structured, WellFormed, Faithful, Subtree;
      ghost var w := Now();
      OccupantMoved(c, root, s, r);
      MoveKeepsStructured(c, root, s, r);
      StructuredKeys(cloud, root, Snap());
      SubtreeShrinks(at, at, q);
      order := RemoveNodes(q, y, DepthBound(at));
      AllRecorded(w, q, y, order);
    }

    /** The lookups of a rename: the node, its folder, the new folder, and the node at the new path, if any. */
    method Resolve(src: Path, dst: Path, ghost stale: set<Path> := {})
      returns (status: RenameStatus, m: Node?, p: Node?, q: Node?, y: Node?)
      requires (Valid() || (SoundBut(stale) && Clear(src, dst, stale))) && UniqueNames(cloud)
      requires src != dst && (src == [] || !(src <= dst))
      requires dst != [] && Walk(cloud, ROOT, dst[..|dst| - 1]).Some? ==> FolderAt(cloud, dst[..|dst| - 1])
      modifies this`root, this`live, this`at, this`log, cache, live.Keys
      ensures SoundBut(stale) && log == old(log) && fresh(live.Keys - old(live.Keys))
      ensures FilledIds(live) == FilledIds(old(live)) + FoldersAlong(cloud, src)
                                 + if Walk(cloud, ROOT, src).None? then {} else FoldersAlong(cloud, dst)
      ensures status == SourceMissing <==> Walk(cloud, ROOT, src).None?
      ensures status == Renamed <==>
                src != [] && Walk(cloud, ROOT, src).Some? && dst != [] && Walk(cloud, ROOT, dst[..|dst| - 1]).Some?
      ensures status == Renamed ==>
                && root != null && m != null && p != null && q != null
                && Renames(cloud, root, Snap(), Renaming(src, dst, m, p, q, if y == null then None else Some(y)))
      ensures old(root) != null ==> root == old(root)
      ensures Knows() == RenameLooks(cloud, old(Knows()), src, dst)
      ensures old(Valid()) ==>
                && Valid() && StillCached(old(Snap()), Snap())
                && (status == Renamed ==> (NothingCachedBelow(old(Snap()), src) <==> NothingCachedBelow(Snap(), src)))
    {
      hide Renames, Faithful, Sound, Mirrored, WellFormed, UniqueNames, Loaded, LookedUp, FoldersAlong, FolderAt, Walk,
        NothingCachedBelow, StillCached, FilledIds, Looked, TargetLooks, Coupled, Valid, Works, SoundBut, Answered;
      ghost var valid := Valid();
      ghost var but := if valid then {} else stale;
      p, q, y := null, null, null;
      m := Get(src, but);
      ghost var s1 := Snap();
      LookupFilled(old(Snap()), s1, FoldersAlong(cloud, src));
      if valid {
        StaysCached(old(Snap()), s1, src, FoldersAlong(cloud, src));
        ValidSound(stale);
      }
      if m == null { return SourceMissing, null, null, null, null; }
      ghost var s2, folders;
      y, q, s2, folders := ResolveTarget(dst, m, but);
      if valid {
        StillTwice(old(Snap()), s1, Snap());
        ValidSound(stale);
      }
      if q == null { return ParentMissing, m, null, null, y; }
      MirrorHere(but);
      OccupantParent(cloud, root, Snap(), m, src);
      AsRecorded(m);
      p := m.parent;
      if p == null { return ParentMissing, m, null, q, y; }
      ResolvedRenames(cloud, root, Snap(), Renaming(src, dst, m, p, q, if y == null then None else Some(y)));
      if valid { ResolvedCache(cloud, old(Snap()), s1, s2, Snap(), src, dst, folders); }
      status := Renamed;
    }

    method ResolveTarget(dst: Path, ghost m: Node, ghost stale: set<Path>)
      returns (y: Node?, q: Node?, ghost seen: Snapshot, ghost folders: set<Id>)
      requires SoundBut(stale) && TargetClear(dst, stale) && root != null && m in live
      requires dst != [] && Walk(cloud, ROOT, dst[..|dst| - 1]).Some? ==> FolderAt(cloud, dst[..|dst| - 1])
      modifies this`root, this`live, this`at, this`log, cache, live.Keys
      ensures SoundBut(stale) && log == old(log) && root == old(root) && fresh(live.Keys - old(live.Keys))
      ensures m in live && live[m].id == old(live)[m].id
      ensures y == null <==> Walk(cloud, ROOT, dst) == None
      ensures y != null ==> y in live && Walk(cloud, ROOT, dst) == Some(live[y].id)
      ensures q != null <==> dst != [] && Walk(cloud, ROOT, dst[..|dst| - 1]).Some?
      ensures q != null ==> q in live && live[q].filled && Walk(cloud, ROOT, dst[..|dst| - 1]) == Some(live[q].id)
      ensures FilledIds(live) == FilledIds(old(live)) + FoldersAlong(cloud, dst)
      ensures Knows() == TargetLooks(cloud, old(Knows()), dst)
      ensures old(Valid()) ==>
                && Valid() && LookedUp(old(Snap()), seen, dst, FoldersAlong(cloud, dst))
                && (dst != [] ==> LookedUp(seen, Snap(), dst[..|dst| - 1], folders)) && StillCached(old(Snap()), Snap())
    {
      hide Faithful, Sound, Mirrored, WellFormed, Loaded, LookedUp, FoldersAlong, FolderAt, Walk, FilledIds,
        StillCached, CachedBy, Coupled, Valid, Works, SoundBut, Answered;
      ghost var valid := Valid();
      y := Get(dst, stale);
      seen, folders := Snap(), {};
      if valid { StaysCached(old(Snap()), seen, dst, FoldersAlong(cloud, dst)); }
      LookupFilled(old(Snap()), seen, FoldersAlong(cloud, dst));
      LookupsKeep(old(Snap()), Snap(), FoldersAlong(cloud, dst), m);
      if y != null {
        MirrorHere(stale);
        AsRecorded(y);
        OccupantParent(cloud, root, Snap(), y, dst);
        LookedUpAlready(Snap(), if dst == [] then [] else dst[..|dst| - 1], {});
        q := y.parent;
      } else {
        MirrorHere(stale);
        WalkRoot(cloud);
        ghost var up := dst[..|dst| - 1];
        folders := FoldersAlong(cloud, up);
        q := Get(dst[..|dst| - 1], stale);
        if valid {
          StaysCached(seen, Snap(), up, folders);
          StillTwice(old(Snap()), seen, Snap());
        }
        LookupFilled(seen, Snap(), folders);
        FoldersNested(cloud, dst);
        LookupsKeep(seen, Snap(), folders, m);
        if q != null {
          LookupFillsParent(cloud, root, old(Snap()), seen, dst);
          FilledStays(seen, Snap(), folders, live[q].id);
          MirrorHere(stale);
          FilledNode(cloud, root, Snap(), q);
        }
      }
    }

    /**
     * Renames a node with everything below it. On the drive this is one update request, and one deletion if the
     * new path was taken; every path then leads where the substitution of `dst` for `src` says. What misleads
     * afterwards was stale before or cached strictly below the old path; a valid state stays valid exactly if nothing
     * was.
     */
    method RenameNode(src: Path, dst: Path, ghost stale: set<Path> := {})
      returns (status: RenameStatus, ghost before: Snapshot, ghost r: Option<Renaming>, ghost order: seq<Node>)
      requires (Valid() || (SoundBut(stale) && Clear(src, dst, stale))) && UniqueNames(cloud)
      requires src != dst && (src == [] || !(src <= dst))
      requires dst != [] && Walk(cloud, ROOT, dst[..|dst| - 1]).Some? ==> FolderAt(cloud, dst[..|dst| - 1])
      modifies this, cache, live.Keys
      ensures fresh(live.Keys - old(live.Keys)) && UniqueNames(cloud) && (old(root) != null ==> root == old(root))
      ensures status == SourceMissing <==> Walk(old(cloud), ROOT, src).None?
      ensures status == Renamed <==>
                && src != [] && Walk(old(cloud), ROOT, src).Some?
                && dst != [] && Walk(old(cloud), ROOT, dst[..|dst| - 1]).Some?
      ensures status != Renamed ==> SoundBut(stale) && cloud == old(cloud) && log == old(log) && Snap() == before
      ensures status == Renamed ==>
                && root != null && r.Some? && r.value.src == src && r.value.dst == dst
                && Renames(old(cloud), root, before, r.value)
                && RenameDone(old(cloud), root, before, r.value, Now(), old(log), order)
                && SoundBut(stale + CachedBelow(before.maps.paths, src))
                && cache.pathNodes.Keys <= before.maps.paths.Keys
      ensures status == Renamed ==>
                && Substituted(old(cloud), cloud, src, dst)
                && old(log) <= log && EachOnce(before.tree, before.tree.Keys - live.Keys, log[|old(log)|..])
                && forall k :: k in before.tree ==> (k in live <==> before.tree[k].id in cloud)
      ensures KnownIn(before) == RenameLooks(old(cloud), old(Knows()), src, dst)
      ensures old(Valid()) ==> StillCached(old(Snap()), before) && (status != Renamed ==> Valid())
      ensures old(Valid()) && status == Renamed ==>
                && Consistent(cache.State(), IdsOf(live)) && Faithful(old(cloud), root, before)
                && (Valid() <==> NothingCachedBelow(old(Snap()), src))
                && (NothingCachedBelow(before, src) <==> NothingCachedBelow(old(Snap()), src))
      ensures old(Valid()) && status == Renamed && NothingCachedBelow(old(Snap()), src) ==>
                cache.pathNodes == map q | q in before.maps.paths && !(src <= q) && !(dst <= q) :: before.maps.paths[q]
      ensures var seen := FilledIds(old(live)) + FoldersAlong(old(cloud), src)
                          + if Walk(old(cloud), ROOT, src).None? then {} else FoldersAlong(old(cloud), dst);
              FilledIds(before.tree) == seen && FilledIds(live) == if status == Renamed then seen * cloud.Keys else seen
    {
      hide Renames, RenameDone, Faithful, Sound, Mirrored, WellFormed, UniqueNames, Mirrors, Agrees, Consistent,
        FolderAt, Walk, NothingCachedBelow, StillCached, FilledIds, FoldersAlong, RenameLooks, CachedBelow, EachOnce,
        Substituted;
      ghost var valid := Valid();
      ghost var but := if valid then {} else stale;
      var m, p, q, y;
      status, m, p, q, y := Resolve(src, dst, but);
      before, r, order := Snap(), None, [];
      if valid { ValidSound(stale); }
      if status != Renamed { return; }
      r := Some(Renaming(src, dst, m, p, q, if y == null then None else Some(y)));
      order := RenameFound(m, p, q, y, dst[|dst| - 1], r.value);
      RenameKeepsSound(old(cloud), root, before, r.value, Now(), old(log), order, stale);
      FilledAfterRename(old(cloud), root, before, r.value, Now(), old(log), order);
      RenameTold(old(cloud), root, before, r.value, Now(), old(log), order);
      WalksAfter(old(cloud), root, before, r.value, Now(), old(log), order);
      if valid {
        RenameOutcome(old(cloud), root, before, r.value, Now(), old(log), order);
        if NothingCachedBelow(before, src) {
          RenamedPaths(old(cloud), root, before, r.value, Now(), old(log), order);
        }
      }
    }
  }

  /** None of the paths a rename looks up is a stale one. */
  predicate Clear(src: Path, dst: Path, stale: set<Path>) {
    src !in stale && TargetClear(dst, stale)
  }

  predicate TargetClear(dst: Path, stale: set<Path>) {
    dst !in stale && (dst != [] ==> dst[..|dst| - 1] !in stale)
  }

  lemma TruePaths(c: Cloud, root: Node, s: Snapshot, stale: set<Path>)
    requires Sound(c, root, s, stale)
    ensures TrueBut(c, s.tree, s.maps.paths, stale)
  {
  }

  datatype RenameStatus = Renamed | SourceMissing | ParentMissing

  datatype CreateStatus = CreateSuccess | CreateAlreadyExists

  datatype RemoveStatus = RemoveSuccess | RemoveNotFound

  ghost predicate NewContents(c: Cloud, i: Id, n: Node, news: seq<Node>, more: Tree) {
    i in c && NewNodes(c, c[i].kids, n, news, more)
  }

  /** One new node below n for each of the ids, in order. */
  ghost predicate NewNodes(c: Cloud, kids: seq<Id>, n: Node, news: seq<Node>, more: Tree) {
    && NoDup(news) && more.Keys == (set m | m in news) && |news| == |kids|
    && (forall a :: 0 <= a < |kids| ==>
          kids[a] in c && more[news[a]] == NodeState(kids[a], c[kids[a]].name, c[kids[a]].folder, false, [], n))
  }

  lemma NoNewNodes(c: Cloud, n: Node)
    ensures NewNodes(c, [], n, [], map[])
  {
  }

  lemma NewIds(c: Cloud, n: Node, kids: seq<Id>, news: seq<Node>, more: Tree)
    requires NewNodes(c, kids, n, news, more)
    ensures |news| == |kids| && forall a :: 0 <= a < |news| ==> news[a] in more && more[news[a]].id == kids[a]
  {
  }

  lemma OneMoreNew(c: Cloud, kids: seq<Id>, n: Node, news: seq<Node>, more: Tree, k: Id, m: Node)
    requires NewNodes(c, kids, n, news, more) && k in c && m !in more
    ensures NewNodes(c, kids + [k], n, news + [m], more[m := NodeState(k, c[k].name, c[k].folder, false, [], n)])
  {
  }

  ghost function Adopted(s: Snapshot, n: Node, news: seq<Node>, more: Tree): Snapshot
    requires n in s.tree
  {
    var u := s.tree[n := s.tree[n].(filled := true, next := s.tree[n].next + news)] + more;
    Snapshot(u, if n in s.at && (forall m :: m in news ==> m in u) then LineageOf(s.at, u, n, news) else s.at, s.maps)
  }

  lemma AdoptedFills(c: Cloud, root: Node, s: Snapshot, n: Node, news: seq<Node>, more: Tree)
    requires Usable(c, root, s.tree) && n in s.tree && s.tree[n].folder && s.tree[n].id in c
    requires more.Keys !! s.tree.Keys && NewContents(c, s.tree[n].id, n, news, more)
    ensures var v := Adopted(s, n, news, more);
            && FilledFrom(c, s.tree, v.tree, n, news) && Usable(c, root, v.tree)
            && v.tree.Keys == s.tree.Keys + more.Keys && v.maps == s.maps
  {
    var v := Adopted(s, n, news, more);
    assert FilledFrom(c, s.tree, v.tree, n, news);
    FillUsable(c, root, s.tree, v.tree, n, news);
  }

  lemma AdoptedMirrored(c: Cloud, root: Node, s: Snapshot, n: Node, news: seq<Node>, more: Tree)
    requires WellFormed(c) && Mirrored(c, root, s) && n in s.tree && s.tree[n].folder && !s.tree[n].filled
    requires more.Keys !! s.tree.Keys && NewContents(c, s.tree[n].id, n, news, more)
    ensures var v := Adopted(s, n, news, more);
            && Mirrored(c, root, v) && Loaded(s, v, {s.tree[n].id})
            && n in v.tree && v.tree[n].filled && v.tree[n].id == s.tree[n].id
  {
    var u := Adopted(s, n, news, more).tree;
    FilledBy(s.tree, c, n, news, more);
    KidsKnown(c, root, s, n);
    assert [] + news == news;
    hide WellFormed, Mirrored, Loaded, NewContents;
    FillKeepsMirrored(c, root, s, u, n, news);
  }

  lemma AdoptedFaithful(c: Cloud, root: Node, s: Snapshot, n: Node, news: seq<Node>, more: Tree, along: Path)
    requires WellFormed(c) && Faithful(c, root, s) && n in s.tree && s.tree[n].folder && !s.tree[n].filled
    requires more.Keys !! s.tree.Keys && NewContents(c, s.tree[n].id, n, news, more)
    ensures var v := Adopted(s, n, news, more); Faithful(c, root, v) && LookedUp(s, v, along, {s.tree[n].id})
  {
    var u := Adopted(s, n, news, more).tree;
    FilledBy(s.tree, c, n, news, more);
    KidsKnown(c, root, s, n);
    assert [] + news == news;
    hide WellFormed, Faithful, LookedUp, NewContents;
    FillKeepsFaithful(c, root, s, u, n, news, along);
  }

  lemma FilledBy(t: Tree, c: Cloud, n: Node, news: seq<Node>, more: Tree)
    requires n in t && more.Keys !! t.Keys
    requires NewContents(c, t[n].id, n, news, more)
    ensures FilledFrom(c, t, t[n := t[n].(filled := true, next := t[n].next + news)] + more, n, news)
  {
  }

  lemma KidsKnown(c: Cloud, root: Node, s: Snapshot, n: Node)
    requires WellFormed(c) && Mirrored(c, root, s) && n in s.tree
    ensures s.tree[n].id in c && (forall k :: k in c[s.tree[n].id].kids ==> k in c)
    ensures !s.tree[n].filled ==> s.tree[n].next == []
  {
    assert NodeOk(c, s.tree, root, s.at, n);
  }

  lemma NoneFilled(n: Node, t: Tree)
    requires t.Keys == {n} && !t[n].filled
    ensures FilledIds(t) == {}
  {
  }

  lemma RootIsFaithful(c: Cloud, n: Node, t: Tree)
    requires WellFormed(c) && t == map[n := NodeState(ROOT, "/", c[ROOT].folder, false, [], null)]
    ensures Faithful(c, n, Snapshot(t, map[n := []], Maps(map[], map[], map[])))
  {
    NewIsComplete(c, t, n);
  }

  /** Asking for the root only creates its node; with a root already there, nothing changes. */
  ghost predicate RootMade(s: Snapshot, u: Snapshot) {
    s == u || (s == Snapshot(map[], map[], Maps(map[], map[], map[])) && u.maps == s.maps && FilledIds(u.tree) == {})
  }

  lemma RootLookup(s: Snapshot, u: Snapshot, path: Path)
    requires RootMade(s, u)
    ensures LookedUp(s, u, path, {}) && Loaded(s, u, {}) && KnownIn(s) == KnownIn(u)
  {
  }

  lemma LoadedAlong(c: Cloud, root: Node, s: Snapshot, n: Node, path: Path, k: nat)
    requires WellFormed(c) && Mirrored(c, root, s) && n in s.tree && k <= |path|
    requires Walk(c, ROOT, path[..k]) == Some(s.tree[n].id)
    ensures FoldersAlong(c, path[..k]) <= FilledIds(s.tree)
    ensures k < |path| && s.tree[n].filled ==> FoldersAlong(c, path[..k + 1]) <= FilledIds(s.tree)
  {
    AncestorsFilled(c, s.tree, root, s.at, n, path[..k]);
    if k < |path| && s.tree[n].filled {
      FoldersSnoc(c, path, k);
    }
  }

  lemma RenamedIsOwned(c: Cloud, root: Node, s: Snapshot, r: Renaming)
    requires Renames(c, root, s, r)
    ensures r.m in s.tree && r.p in s.tree && r.q in s.tree && r.m in s.tree[r.p].next
  {
    assert NodeOk(c, s.tree, root, s.at, r.m);
    MovedIsNotRoot(c, root, s, r);
  }

  lemma AddedFilled(t: Tree, n: Node, m: Node, i: Id, x: Name, folder: bool)
    requires n in t && m !in t
    ensures FilledIds(AddedTree(t, n, m, i, x, folder)) == FilledIds(t)
    ensures AddedTree(t, n, m, i, x, folder).Keys == t.Keys + {m}
    ensures AddedTree(t, n, m, i, x, folder)[m] == NodeState(i, x, folder, false, [], n)
  {
    var u := AddedTree(t, n, m, i, x, folder);
    forall k | k in t && t[k].filled
      ensures k in u && u[k].filled && u[k].id == t[k].id
    {
    }
  }

  lemma LookupFilled(s: Snapshot, u: Snapshot, folders: set<Id>)
    requires Loaded(s, u, folders)
    ensures FilledIds(u.tree) == FilledIds(s.tree) + folders
  {
  }

  lemma FoldersNested(c: Cloud, p: Path)
    requires p != []
    ensures FoldersAlong(c, p[..|p| - 1]) <= FoldersAlong(c, p)
  {
  }

  // ---------- one lookup ----------

  ghost function KnownIn(s: Snapshot): Known {
    Known(FilledIds(s.tree), s.maps.paths.Keys)
  }

  lemma StaysSame(t: Tree)
    ensures Stays(t, t)
  {
  }

  lemma NothingGained(c: Cloud, t: Tree, root: Node, paths: map<Path, Node>)
    ensures Stays(t, t) && CacheGained(c, t, root, paths, t, paths)
  {
  }

  lemma InsertGained(c: Cloud, t: Tree, root: Node, paths: map<Path, Node>, path: Path, n: Node)
    requires n in t && Reached(t, root, path, 0) == (n, |path|)
    ensures Stays(t, t) && CacheGained(c, t, root, paths, t, paths[path := n])
  {
    hide Reached;
  }

  lemma RootSought(c: Cloud, t: Tree, root: Node)
    requires root in t
    ensures Sought(c, t, root, []) == Some(t[root].id) && Stays(t, t)
    ensures forall paths: map<Path, Node> :: CacheGained(c, t, root, paths, t, paths)
  {
  }

  lemma LookedAtRoot(c: Cloud, s: Snapshot, u: Snapshot)
    requires RootMade(s, u)
    ensures LookedUp(s, u, [], FoldersAlong(c, [])) && Loaded(s, u, FoldersAlong(c, []))
    ensures KnownIn(u) == Looked(c, KnownIn(s), [])
  {
    RootLookup(s, u, []);
  }

  /** A cached path that is not a stale one: nothing is loaded, and nothing cached. */
  lemma CacheHit(c: Cloud, root: Node, s: Snapshot, path: Path, stale: set<Path>)
    requires WellFormed(c) && Sound(c, root, s, stale) && path in s.maps.paths && path !in stale
    ensures var n := s.maps.paths[path]; n in s.tree && Walk(c, ROOT, path) == Some(s.tree[n].id)
    ensures Loaded(s, s, FoldersAlong(c, path)) && LookedUp(s, s, path, FoldersAlong(c, path))
    ensures KnownIn(s) == Looked(c, KnownIn(s), path)
  {
    hide WellFormed, Mirrors, FoldersAlong;
    AncestorsFilled(c, s.tree, root, s.at, s.maps.paths[path], path);
    LookedUpAlready(s, path, FoldersAlong(c, path));
  }

  lemma LookedFromRoot(c: Cloud, s: Snapshot, u: Snapshot, v: Snapshot, path: Path)
    requires RootMade(s, u) && Loaded(u, v, FoldersAlong(c, path)) && KnownIn(v) == Looked(c, KnownIn(u), path)
    ensures Loaded(s, v, FoldersAlong(c, path)) && KnownIn(v) == Looked(c, KnownIn(s), path)
    ensures LookedUp(u, v, path, FoldersAlong(c, path)) ==> LookedUp(s, v, path, FoldersAlong(c, path))
  {
    hide FoldersAlong, Loaded, LookedUp;
    RootLookup(s, u, path);
    assert {} + FoldersAlong(c, path) == FoldersAlong(c, path);
    LoadedTwice(s, u, v, {}, FoldersAlong(c, path));
    if LookedUp(u, v, path, FoldersAlong(c, path)) { LookedUpTwice(s, u, v, path, {}, FoldersAlong(c, path)); }
  }

  /** The whole path is in memory: the lookup only caches it. */
  lemma FoundInMemory(c: Cloud, root: Node, s: Snapshot, n: Node, path: Path, stale: set<Path>)
    requires WellFormed(c) && Sound(c, root, s, stale) && n in s.tree && Walk(c, ROOT, path) == Some(s.tree[n].id)
    requires path !in s.maps.paths && path != []
    ensures var u := s.(maps := Inserted(s.maps, path, s.tree[n].id, n));
            && Sound(c, root, u, stale) && Loaded(s, u, FoldersAlong(c, path))
            && KnownIn(u) == Looked(c, KnownIn(s), path)
            && (Faithful(c, root, s) ==> Faithful(c, root, u) && LookedUp(s, u, path, FoldersAlong(c, path)))
  {
    hide WellFormed, Faithful, Sound, Mirrored, Walk, CachedBy, LookedUp, Loaded, FoldersAlong;
    var u := s.(maps := Inserted(s.maps, path, s.tree[n].id, n));
    assert path[..|path|] == path;
    SoundMirrored(c, root, s, stale);
    LoadedAlong(c, root, s, n, path, |path|);
    OnePath(c, root, s, n, path, stale);
    InsertSound(c, root, s, path, n, stale);
    LoadedAlready(s, u.maps, FoldersAlong(c, path));
    CachedHere(c, root, s, n, path);
    LookupFilled(s, u, FoldersAlong(c, path));
    if Faithful(c, root, s) {
      InsertIsFresh(c, root, s, path, n, path);
      LookedUpAlready(s, path, FoldersAlong(c, path));
      assert FoldersAlong(c, path) + {} == FoldersAlong(c, path);
      LookedUpTwice(s, s, u, path, FoldersAlong(c, path), {});
    }
  }

  /** Two cached paths, neither stale, lead to one node only if they are the same. */
  lemma OnePath(c: Cloud, root: Node, s: Snapshot, n: Node, path: Path, stale: set<Path>)
    requires WellFormed(c) && Sound(c, root, s, stale) && n in s.tree && Walk(c, ROOT, path) == Some(s.tree[n].id)
    ensures forall q :: q in s.maps.paths && q !in stale && s.maps.paths[q] == n ==> q == path
  {
    hide WellFormed, Mirrored, Walk;
    forall q | q in s.maps.paths && q !in stale && s.maps.paths[q] == n
      ensures q == path
    {
      WalkInjective(c, q, path);
    }
  }

  lemma SoundMirrored(c: Cloud, root: Node, s: Snapshot, stale: set<Path>)
    requires Sound(c, root, s, stale)
    ensures Mirrored(c, root, s)
  {
  }

  lemma SameTree(c: Cloud, root: Node, s: Snapshot, m: Maps<Node>)
    requires Mirrored(c, root, s)
    ensures Mirrored(c, root, s.(maps := m))
  {
  }

  /** The search ends at a filled folder: the drive has no such name, and nothing changes. */
  lemma SearchedFilled(c: Cloud, root: Node, s: Snapshot, n: Node, path: Path, k: nat)
    requires WellFormed(c) && Mirrored(c, root, s) && n in s.tree && s.tree[n].filled && k < |path|
    requires path != [] && path !in s.maps.paths
    requires Walk(c, ROOT, path[..k]) == Some(s.tree[n].id) && Named(s.tree, s.tree[n].next, path[k]) == None
    ensures Walk(c, ROOT, path) == None && KnownIn(s) == Looked(c, KnownIn(s), path)
    ensures LookedUp(s, s, path, FoldersAlong(c, path)) && Loaded(s, s, FoldersAlong(c, path))
  {
    hide WellFormed, Mirrored, Walk, CachedBy, FoldersAlong, Named;
    FolderStep(c, root, s, n, path, k);
    LoadedAlong(c, root, s, n, path, k);
    LookedUpAlready(s, path, FoldersAlong(c, path));
    CachedStretch(c, root, s, n, path, k, k);
  }

  /** One step of loading: the folder is filled, and there is a next node or not. */
  lemma Stepped(c: Cloud, root: Node, first: Snapshot, s: Snapshot, u: Snapshot, n: Node, m: Node?, path: Path, k: nat)
    requires WellFormed(c) && Mirrored(c, root, u) && n in u.tree && u.tree[n].filled && k < |path|
    requires Walk(c, ROOT, path[..k]) == Some(u.tree[n].id)
    requires Loaded(first, s, FoldersAlong(c, path[..k])) && Loaded(s, u, {u.tree[n].id})
    requires Named(u.tree, u.tree[n].next, path[k]) == if m == null then None else Some(m)
    ensures m == null ==>
              && Walk(c, ROOT, path[..k + 1]) == None && Walk(c, ROOT, path) == None
              && Loaded(first, u, FoldersAlong(c, path))
    ensures m != null ==> m in u.tree && Walk(c, ROOT, path[..k + 1]) == Some(u.tree[m].id)
    ensures Loaded(first, u, FoldersAlong(c, path[..k + 1]))
  {
    hide WellFormed, Mirrored, Loaded, FoldersAlong, Walk, Named;
    FolderStep(c, root, u, n, path, k);
    LoadedTwice(first, s, u, FoldersAlong(c, path[..k]), {u.tree[n].id});
  }

  lemma ListedSame(c: Cloud, t: Tree, n: Node)
    requires n in t && t[n].filled
    ensures ListedIds(c, t, n) == IdsIn(t, t[n].next)
  {
    assert IdsIn(t, t[n].next) + [] == IdsIn(t, t[n].next);
  }

  /** A folder filled for a listing hands out what it held and then the drive's listing. */
  lemma ListedFilled(c: Cloud, root: Node, t: Tree, u: Tree, n: Node, news: seq<Node>)
    requires Usable(c, root, t) && FilledFrom(c, t, u, n, news) && !t[n].filled && t[n].folder
    ensures Stays(t, u) && n in u && u[n].filled && IdsIn(u, u[n].next) == ListedIds(c, t, n)
    ensures Right(c, root, t) ==> Right(c, root, u)
  {
    FillStays(c, root, t, u, n, news);
    if Right(c, root, t) { FillRight(c, root, t, u, n, news); }
    assert Backed(c, t, n);
    var next, kids := t[n].next, c[t[n].id].kids;
    assert u[n].next == next + news;
    forall a | 0 <= a < |next| + |news|
      ensures IdsIn(u, next + news)[a] == (IdsIn(t, next) + kids)[a]
    {
      if a < |next| { assert next[a] in next; }
    }
  }
}
