/** Several file systems behind one tree of mount points: routing of paths, and listings that agree with it. */
module JoinedFileSystem {
  import opened Basics
  import opened MountTree
  import opened MergedListing
  import CloudTree

  ghost function LookedUpIn(fs: Fs, rest: Path): Option<Item> {
    match fs.lookup(rest)
    case None => None
    case Some(i) => Some(Under(i))
  }

  /** Lookup on the mount tree alone: the longest mounted part of the path answers for the rest of it. */
  ghost function Found(t: Layout, root: JoinedNode, p: Path): Option<Item> {
    if p == [] then Some(Joint(root))
    else
      match MountDepth(t, root, p, |p|)
      case None => None
      case Some(at) =>
        if at == |p| then Some(Joint(WalkTo(t, root, p[..at]).value))
        else LookedUpIn(MountAt(t, root, p[..at]).value, p[at..])
  }

  /** Who is asked about a path, and for what. */
  ghost function Responsible(t: Layout, root: JoinedNode, p: Path): (r: Option<(Fs, Path)>)
    ensures r.Some? ==> p != [] && Found(t, root, p) == LookedUpIn(r.value.0, r.value.1)
  {
    match MountDepth(t, root, p, |p|)
    case None => None
    case Some(at) => if at == |p| then None else Some((MountAt(t, root, p[..at]).value, p[at..]))
  }

  /** On the table: the file system mounted at q is asked about p, and gets what is left of p below q. */
  ghost predicate Owns(table: map<Path, Fs>, p: Path, q: Path) {
    LongestIn(table, p, q) && q != p
  }

  ghost predicate HasAt(table: map<Path, Fs>, p: Path) {
    exists q :: Owns(table, p, q) && table[q].lookup(p[|q|..]) != None
  }

  lemma OwnedByTable(t: Layout, root: JoinedNode, table: map<Path, Fs>, p: Path, mp: JoinedNode?, at: nat)
    requires Carries(t, root, table) && Deepest(t, root, p, |p|, mp, at)
    ensures mp == null || at == |p| <==> p in table || forall q :: q in table ==> !(q <= p)
    ensures forall q :: Owns(table, p, q) ==>
              mp != null && at == |q| < |p| && p[..at] == q && MountAt(t, root, p[..at]) == Some(table[q])
    ensures mp != null && at != |p| ==> Owns(table, p, p[..at])
  {
    DeepestIsLongest(t, root, table, p, mp, at);
    assert p in table ==> p <= p;
    if mp != null {
      forall q | Owns(table, p, q)
        ensures at == |q| < |p| && p[..at] == q
      {
        assert p[..|q|] == q;
      }
    }
  }

  /** No mounted file system answers for the path, or the one that does finds nothing. */
  ghost predicate NobodyHas(t: Layout, root: JoinedNode, p: Path) {
    var r := Responsible(t, root, p);
    r == None || r.value.0.lookup(r.value.1) == None
  }

  ghost predicate AllMounted(t: Layout, root: JoinedNode) {
    forall n :: n in t && n != root ==> t[n].fs.Some?
  }

  ghost predicate Shallow(mounts: seq<Mount>) {
    forall m :: m in mounts ==> |m.path| <= 1
  }

  lemma {:induction false} RootAlone(t: Layout, root: JoinedNode, q: Path)
    requires t == map[root := Shape(null, "/", [], None)]
    ensures WalkTo(t, root, q) == if q == [] then Some(root) else None
  {
    if q != [] { RootAlone(t, root, q[..|q| - 1]); }
  }

  lemma RootOnly(t: Layout, root: JoinedNode)
    requires t == map[root := Shape(null, "/", [], None)]
    ensures Linked(t, root, map[root := []]) && Carries(t, root, map[]) && AllMounted(t, root)
  {
    forall q
      ensures MountAt(t, root, q) == None
    {
      RootAlone(t, root, q);
    }
  }

  lemma ShallowStep(t: Layout, u: Layout, root: JoinedNode, place: map<JoinedNode, Path>, b: Branch,
                    table: map<Path, Fs>)
    requires Linked(t, root, place) && Carries(t, root, table) && AllMounted(t, root)
    requires Branched(t, u, root, b) && |b.path| <= 1
    ensures Linked(u, root, NewPlaces(place, b)) && Carries(u, root, table[b.path := b.fs]) && AllMounted(u, root)
  {
    hide Linked, Carries, WalkTo, NewOk;
    ShallowLinked(t, u, root, place, b);
    CarriesOneMore(t, u, root, place, b, table);
    if |b.path| == 1 && b.depth == 0 { SingleMade(t, u, root, b); }
    forall n | n in u && n != root
      ensures u[n].fs.Some?
    {
      if n in t { BranchedOld(t, u, root, b, n); } else { BranchedNew(t, u, root, b, n); }
    }
  }

  /** At each path the file system mounted there last, and nothing anywhere else. */
  ghost predicate LastWins(t: Layout, root: JoinedNode, mounts: seq<Mount>) {
    forall p ::
      && (MountAt(t, root, p) != None <==> exists i :: LastAt(mounts, i) && mounts[i].path == p)
      && forall i :: LastAt(mounts, i) && mounts[i].path == p ==> MountAt(t, root, p) == Some(mounts[i].fs)
  }

  lemma LastMounts(t: Layout, root: JoinedNode, mounts: seq<Mount>)
    ensures Carries(t, root, Table(mounts)) ==> LastWins(t, root, mounts)
  {
    hide MountAt, Table;
    if Carries(t, root, Table(mounts)) {
      forall p
        ensures MountAt(t, root, p) != None <==> exists i :: LastAt(mounts, i) && mounts[i].path == p
        ensures forall i :: LastAt(mounts, i) && mounts[i].path == p ==> MountAt(t, root, p) == Some(mounts[i].fs)
      {
        TableIs(mounts, p);
      }
    }
  }

  datatype Route =
    | Nothing
    | NoSource
    | SourceIsMount
    | NoTarget
    | TargetIsMount
    | Within(fs: Fs, oldRest: Path, newRest: Path)
    | Across

  function UnderEntries(fs: Fs): seq<Entry> {
    seq(|fs.entries|, i requires 0 <= i < |fs.entries| => Entry(fs.entries[i].name, Under(fs.entries[i].id)))
  }

  function ChildEntries(ns: seq<JoinedNode>): seq<Entry> {
    seq(|ns|, i requires 0 <= i < |ns| => Entry(ns[i].name, Joint(ns[i])))
  }

  lemma NoMounts(es: seq<Entry>)
    ensures Names(ChildEntries([])) == {} && Unshadowed(es, {}) == es && MountMap([], ChildEntries([]))
  {
    if es != [] {
      NoMounts(es[1..]);
      assert es == [es[0]] + es[1..];
    }
  }

  lemma ServedRoot(t: Layout, root: JoinedNode, table: map<Path, Fs>)
    requires OwnedInside(t, root) && Carries(t, root, table)
    ensures root in t && t[root].fs == if [] in table then Some(table[[]]) else None
  {
    assert MountAt(t, root, []) == t[root].fs;
  }

  lemma InTree(t: Layout, root: JoinedNode)
    requires OwnedInside(t, root)
    ensures root in t
  {
  }

  class Joined {
    var mountedRoot: JoinedNode?
    ghost var nodes: set<JoinedNode>
    ghost var place: map<JoinedNode, Path>

    ghost function T(): Layout
      reads this, nodes
    {
      map n | n in nodes :: n.State()
    }

    ghost predicate Valid()
      reads this, nodes
    {
      mountedRoot == null || OwnedInside(T(), mountedRoot)
    }

    /** The tree is well-formed and carries exactly these mounts. */
    ghost predicate Serves(mounts: seq<Mount>)
      reads this, nodes
    {
      && (mountedRoot == null <==> mounts == [])
      && (mountedRoot != null ==>
            Linked(T(), mountedRoot, place) && Carries(T(), mountedRoot, Table(mounts)) && AllMounted(T(), mountedRoot))
    }

    ghost predicate Built(mounts: seq<Mount>)
      reads this, nodes
    {
      && mountedRoot != null && OwnedInside(T(), mountedRoot)
      && (Shallow(mounts) ==>
            Linked(T(), mountedRoot, place) && Carries(T(), mountedRoot, Table(mounts)) && AllMounted(T(), mountedRoot))
    }

    /** Builds the tree from a list of mounts; a later mount on the same path replaces an earlier one. */
    constructor (mounts: seq<Mount>)
      ensures Valid() && fresh(nodes) && (Shallow(mounts) ==> Serves(mounts))
      ensures mountedRoot == null <==> mounts == []
      ensures mounts != [] && Shallow(mounts) ==> LastWins(T(), mountedRoot, mounts)
    {
      mountedRoot, nodes, place := null, {}, map[];
      new;
      if mounts != [] {
        var root := new JoinedNode(null, "/");
        mountedRoot, nodes, place := root, {root}, map[root := []];
        RootOnly(T(), root);
        AddMounts(mounts);
        LastMounts(T(), mountedRoot, mounts);
      }
    }

    method AddMounts(mounts: seq<Mount>)
      requires Built([])
      modifies this`nodes, this`place, nodes
      ensures Built(mounts) && fresh(nodes - old(nodes))
    {
      hide Built;
      var i := 0;
      while i < |mounts|
        invariant 0 <= i <= |mounts| && Built(mounts[..i]) && fresh(nodes - old(nodes))
      {
        AddMount(mounts[i], mounts[..i]);
        assert mounts[..i + 1] == mounts[..i] + [mounts[i]];
        i := i + 1;
      }
      assert mounts[..i] == mounts;
    }

    method AddMount(m: Mount, ghost earlier: seq<Mount>)
      requires Built(earlier)
      modifies this`nodes, this`place, nodes
      ensures Built(earlier + [m]) && fresh(nodes - old(nodes))
    {
      hide OwnedInside, Linked, Carries, AllMounted, Branched, MountAt;
      ghost var t := T();
      ghost var b := BuildBranch(m.path, m.fs);
      BranchClosed(t, T(), mountedRoot, b);
      ghost var all := earlier + [m];
      if Shallow(all) {
        assert m in all && all[..|all| - 1] == earlier;
        assert forall k :: k in earlier ==> k in all;
        ShallowStep(t, T(), mountedRoot, place, b, Table(earlier));
        ghost var u := T();
        place := NewPlaces(place, b);
        assert T() == u;
      }
    }

    method FindChild(n: JoinedNode, x: Name) returns (c: JoinedNode?)
      requires mountedRoot != null && Valid() && n in nodes
      ensures c == null ==> First(T(), n.next, x) == None
      ensures c != null ==> First(T(), n.next, x) == Some(c) && c in nodes
    {
      var i := 0;
      while i < |n.next|
        invariant 0 <= i <= |n.next|
        invariant First(T(), n.next[i..], x) == First(T(), n.next, x)
      {
        c := n.next[i];
        assert T()[n] == n.State() && c in T()[n].next && T()[c] == c.State();
        assert n.next[i..][0] == c && n.next[i..][1..] == n.next[i + 1..];
        if c.name == x { return c; }
        i := i + 1;
      }
      c := null;
    }

    /** As in the source, every new node goes into the list of the node the search began at. */
    method BuildBranch(p: Path, fs: Fs) returns (ghost b: Branch)
      requires mountedRoot != null && Valid()
      modifies this`nodes, nodes
      ensures mountedRoot == old(mountedRoot) && fresh(nodes - old(nodes))
      ensures Branched(old(T()), T(), mountedRoot, b) && b.path == p && b.fs == fs
    {
      hide OwnedInside, Growing, First, Branched, Appended;
      ghost var t := T();
      ghost var root: JoinedNode := mountedRoot;
      var curr := mountedRoot;
      b := Branch([], fs, 0, root, [], root);
      GrowStart(t, root, fs);
      var it := 0;
      while it < |p|
        invariant 0 <= it <= |p| && mountedRoot == root && b.path == p[..it] && b.fs == fs && curr == b.tip
        invariant fresh(nodes - old(nodes)) && Growing(t, T(), root, b)
      {
        GrowClosed(t, T(), root, b);
        GrowInside(t, T(), root, b);
        assert T()[curr] == curr.State() && p[..it] + [p[it]] == p[..it + 1];
        var c := FindChild(curr, p[it]);
        if c == null {
          ghost var u := T();
          curr := Append(curr, p[it]);
          GrowNew(t, u, root, b, p[it], curr);
          b := Extended(b, p[it], curr);
        } else {
          curr := c;
          GrowDown(t, T(), root, b, p[it], curr);
          b := Branch(p[..it + 1], fs, b.depth + 1, curr, [], curr);
        }
        it := it + 1;
      }
      GrowInside(t, T(), root, b);
      ghost var u := T();
      curr.fs := Some(fs);
      assert p[..it] == p;
      assert forall k :: k in nodes && k != curr ==> k.State() == u[k];
      GrowMount(t, u, T(), root, b);
    }

    method Append(parent: JoinedNode, x: Name) returns (n: JoinedNode)
      requires mountedRoot != null && mountedRoot in nodes
      modifies this`nodes, mountedRoot`next
      ensures mountedRoot == old(mountedRoot) && n !in old(nodes) && fresh(n) && nodes == old(nodes) + {n}
      ensures var u, root := old(T()), mountedRoot;
              root in u && T() == Appended(u, root, parent, x, n)
    {
      ghost var u := T();
      n := new JoinedNode(parent, x);
      mountedRoot.next := mountedRoot.next + [n];
      nodes := nodes + {n};
      assert forall k :: k in u && k != mountedRoot ==> k.State() == u[k];
    }

    /** The deepest mount point along the path, and how far the path leads to it. */
    method FindMountPoint(p: Path) returns (mp: JoinedNode?, at: nat)
      requires mountedRoot != null && Valid()
      ensures Deepest(T(), mountedRoot, p, |p|, mp, at) && at <= |p|
      ensures mp == null ==> at == |p|
      ensures mp != null ==> mp in nodes && mp.fs.Some? && MountAt(T(), mountedRoot, p[..at]) == mp.fs
    {
      hide OwnedInside, First;
      ghost var t := T();
      InTree(t, mountedRoot);
      mp, at := null, |p|;
      var curr := mountedRoot;
      var it := 0;
      assert p[..0] == [];
      if curr.fs.Some? { mp, at := curr, it; }
      while it < |p|
        invariant 0 <= it <= |p| && curr in nodes && WalkTo(t, mountedRoot, p[..it]) == Some(curr)
        invariant Deepest(t, mountedRoot, p, it, mp, at)
        invariant mp == null ==> at == |p|
        invariant mp != null ==> at <= it && mp in nodes && mp.fs.Some? && MountAt(t, mountedRoot, p[..at]) == mp.fs
      {
        var c := FindChild(curr, p[it]);
        assert p[..it + 1][..it] == p[..it] && ChildrenOf(t, curr) == curr.next;
        if c == null {
          break;
        }
        curr := c;
        it := it + 1;
        if curr.fs.Some? { mp, at := curr, it; }
      }
      DeepestStops(t, mountedRoot, p, it, mp, at);
    }

    /** Climbs the parent links to the nearest mount point above a node. */
    method FindPrevMountPoint(n: JoinedNode) returns (mp: JoinedNode?)
      requires mountedRoot != null && Linked(T(), mountedRoot, place) && n in nodes
      ensures n == mountedRoot ==> mp == null
      ensures n != mountedRoot ==> var p := PlaceOf(place, n);
                p != [] && Deepest(T(), mountedRoot, p[..|p| - 1], |p| - 1, mp, StepsTo(place, mp))
    {
      ghost var t := T();
      ParentOrRoot(t, mountedRoot, place, n);
      hide Linked, Deepest, Climbing, MountAt, WalkTo;
      assert t[n] == n.State();
      if n.parent == null { return null; }
      ClimbStart(t, mountedRoot, place, n);
      mp := ClimbFrom(n.parent, PlaceOf(place, n)[..|PlaceOf(place, n)| - 1]);
    }

    method ClimbFrom(start: JoinedNode, ghost q: Path) returns (mp: JoinedNode?)
      requires mountedRoot != null && Linked(T(), mountedRoot, place) && Climbing(T(), mountedRoot, place, q, start)
      ensures Deepest(T(), mountedRoot, q, |q|, mp, StepsTo(place, mp))
    {
      hide Linked, Deepest, Climbing, MountAt, WalkTo;
      ghost var t := T();
      var upper := start;
      ClimbInside(t, mountedRoot, place, q, upper);
      while upper.fs.Some? || upper.parent != null
        invariant upper in nodes && Climbing(t, mountedRoot, place, q, upper)
        decreases |PlaceOf(place, upper)|
      {
        assert t[upper] == upper.State();
        if upper.fs.Some? {
          ClimbFound(t, mountedRoot, place, q, upper);
          return upper;
        }
        ClimbUp(t, mountedRoot, place, q, upper);
        upper := upper.parent;
        ClimbInside(t, mountedRoot, place, q, upper);
      }
      assert t[upper] == upper.State();
      ClimbEnd(t, mountedRoot, place, q, upper);
      return null;
    }

    /** The root answers for itself; otherwise the deepest mount point, or its file system for the rest of the path. */
    method Get(p: Path, ghost table: map<Path, Fs> := map[]) returns (r: Option<Item>)
      requires Valid()
      ensures r == if mountedRoot == null then None else Found(T(), mountedRoot, p)
      ensures p == [] ==> r == if mountedRoot == null then None else Some(Joint(mountedRoot))
      ensures mountedRoot != null && p != [] && Carries(T(), mountedRoot, table) ==>
                && (p in table <==> r.Some? && r.value.Joint?)
                && (p in table ==> WalkTo(T(), mountedRoot, p) == Some(r.value.node))
                && ((forall q :: q in table ==> !(q <= p)) ==> r == None)
                && forall q, i :: Owns(table, p, q) ==> (r == Some(Under(i)) <==> table[q].lookup(p[|q|..]) == Some(i))
    {
      if mountedRoot == null { return None; }
      if p == [] { return Some(Joint(mountedRoot)); }
      var mp, at := FindMountPoint(p);
      DeepestDepth(T(), mountedRoot, p, |p|, mp, at);
      if Carries(T(), mountedRoot, table) { OwnedByTable(T(), mountedRoot, table, p, mp, at); }
      hide Carries, LongestIn, Deepest, OwnedInside;
      assert p[..|p|] == p;
      if mp != null {
        if at == |p| { return Some(Joint(mp)); }
        var i := mp.fs.value.lookup(p[at..]);
        return if i == None then None else Some(Under(i.value));
      }
      r := None;
    }

    /** The file system that is responsible for a path, and the rest of the path; none for a mount point itself. */
    method GetFS(p: Path, ghost table: map<Path, Fs> := map[]) returns (r: Option<(Fs, Path)>)
      requires Valid() && mountedRoot != null
      ensures r == Responsible(T(), mountedRoot, p) && (r.Some? ==> r.value.1 != [])
      ensures Carries(T(), mountedRoot, table) ==>
                && (forall q :: Owns(table, p, q) ==> r == Some((table[q], p[|q|..])))
                && (r == None <==> p in table || forall q :: q in table ==> !(q <= p))
                && (r.Some? ==> exists q :: Owns(table, p, q))
    {
      var mp, at := FindMountPoint(p);
      if Carries(T(), mountedRoot, table) { OwnedByTable(T(), mountedRoot, table, p, mp, at); }
      hide Carries, LongestIn;
      DeepestDepth(T(), mountedRoot, p, |p|, mp, at);
      hide Deepest, OwnedInside;
      r := if mp != null && at != |p| then Some((mp.fs.value, p[at..])) else None;
    }

    /** Where a rename goes: the checks in the source's order. */
    method RenameRoute(src: Path, dst: Path, ghost table: map<Path, Fs> := map[]) returns (r: Route)
      requires Valid() && mountedRoot != null
      ensures r == Nothing <==> src == dst
      ensures !r.SourceIsMount? && !r.TargetIsMount?
      ensures r == NoSource <==> src != dst && NobodyHas(T(), mountedRoot, src)
      ensures r == NoTarget <==>
                src != dst && !NobodyHas(T(), mountedRoot, src) && Responsible(T(), mountedRoot, dst) == None
      ensures r.Within? ==>
                && Responsible(T(), mountedRoot, src) == Some((r.fs, r.oldRest))
                && Responsible(T(), mountedRoot, dst).Some? && Responsible(T(), mountedRoot, dst).value.1 == r.newRest
      ensures r.Within? || r == Across ==>
                var from, to := Responsible(T(), mountedRoot, src), Responsible(T(), mountedRoot, dst);
                from.Some? && to.Some? && (r.Within? <==> from.value.0.key == to.value.0.key)
      ensures Carries(T(), mountedRoot, table) && src != dst ==>
                && (r == NoSource <==> !HasAt(table, src))
                && (r == NoTarget <==> HasAt(table, src) && forall q :: !Owns(table, dst, q))
                && forall q, o :: HasAt(table, src) && Owns(table, src, q) && Owns(table, dst, o) ==>
                     r == if table[q].key == table[o].key then Within(table[q], src[|q|..], dst[|o|..]) else Across
    {
      hide Carries, Owns, OwnedInside, Responsible;
      if src == dst { return Nothing; }
      var from := GetFS(src, table);
      if from == None || from.value.0.lookup(from.value.1) == None { return NoSource; }
      if from.value.1 == [] { return SourceIsMount; }
      var to := GetFS(dst, table);
      if to == None { return NoTarget; }
      if to.value.1 == [] { return TargetIsMount; }
      if from.value.0.key == to.value.0.key {
        return Within(from.value.0, from.value.1, to.value.1);
      }
      r := Across;
    }

    /** Without mounts below the node its own listing is handed out as it is. */
    method ListDirectory(n: JoinedNode) returns (r: Option<seq<Entry>>, ghost mounts: seq<Entry>)
      requires Valid() && mountedRoot != null && n in nodes
      ensures r == None <==> n.fs == None && n.next == []
      ensures r.Some? ==> Lists(T(), n, r.value, mounts)
      ensures n.fs.Some? && n.next == [] ==>
                && r.Some? && |r.value| == |n.fs.value.entries|
                && forall k :: 0 <= k < |r.value| ==>
                     r.value[k] == Entry(n.fs.value.entries[k].name, Under(n.fs.value.entries[k].id))
    {
      assert T()[n] == n.State();
      mounts := [];
      var under: UnderIt? := null;
      if n.fs.Some? { under := new UnderIt(UnderEntries(n.fs.value)); }
      if n.next == [] {
        if under == null { return None, []; }
        NoMounts(under.rest);
        return Some(under.rest), [];
      }
      var all: seq<Entry>;
      all, mounts := ListAll(under, ChildEntries(n.next));
      r := Some(all);
    }

    /** A listing of the root and a lookup of any name in it, side by side. */
    method ListAndGet(x: Name, ghost mounted: seq<Mount>) returns (list: seq<Entry>, r: Option<Item>)
      requires Serves(mounted) && mounted != [] && Shallow(mounted)
      requires [] in Table(mounted) ==> FsAgrees(Table(mounted)[[]])
      ensures r == Found(T(), mountedRoot, [x]) && forall item :: Entry(x, item) in list <==> r == Some(item)
    {
      hide Carries, Owns, LongestIn, Lists, FsAgrees, Table;
      ghost var t, root := T(), mountedRoot;
      ServedRoot(t, root, Table(mounted));
      assert t[root] == root.State();
      ghost var ms: seq<Entry>;
      var l: Option<seq<Entry>>;
      l, ms := ListDirectory(mountedRoot);
      r := Get([x]);
      if l == None {
        FoundAtRoot(t, root, place, x);
        return [], r;
      }
      list := l.value;
      forall item
        ensures Entry(x, item) in list <==> r == Some(item)
      {
        ListingMeetsLookup(t, root, place, list, ms, x, item);
      }
    }

    /** Climbing from a node finds what descending along its parent's path finds. */
    method ClimbMeetsDescent(n: JoinedNode, parentPath: Path) returns (up: JoinedNode?, down: JoinedNode?)
      requires mountedRoot != null && Linked(T(), mountedRoot, place) && n in nodes
      requires PlaceOf(place, n) == parentPath + [n.name]
      ensures up == down && Deepest(T(), mountedRoot, parentPath, |parentPath|, up, StepsTo(place, up))
    {
      hide Linked, Deepest, MountAt, WalkTo, OwnedInside;
      NotRoot(T(), mountedRoot, place, n, parentPath);
      up := FindPrevMountPoint(n);
      var j: nat;
      down, j := FindMountPoint(parentPath);
      DeepestUnique(T(), mountedRoot, parentPath, |parentPath|, up, StepsTo(place, up), down, j);
    }
  }

  // ---------- a mount more than one level down ----------

  /** Mounted at /a/b beside a root mount, g is found at /b, and /a/b still goes to the root mount. */
  method DeepMount(f: Fs, g: Fs) returns (deep: Option<Item>, misplaced: Option<Item>)
    ensures deep == LookedUpIn(f, ["a", "b"])
    ensures misplaced.Some? && misplaced.value.Joint? && misplaced.value.node.fs == Some(g)
  {
    hide OwnedInside, Linked, Carries, AllMounted, Branched, Found;
    var j := new Joined([Mount([], f)]);
    TableOfOne(Mount([], f));
    ghost var t := j.T();
    ServedTree(t, j.mountedRoot, j.place);
    ghost var b := j.BuildBranch(["a", "b"], g);
    DeepBranch(t, j.T(), j.mountedRoot, b, f);
    BranchClosed(t, j.T(), j.mountedRoot, b);
    deep := j.Get(["a", "b"]);
    misplaced := j.Get(["b"]);
    assert j.T()[b.tip] == b.tip.State();
  }

  lemma TableOfOne(m: Mount)
    ensures Table([m]) == map[m.path := m.fs] && (Shallow([m]) <==> |m.path| <= 1)
  {
    assert [m][..0] == [];
    assert Table([m]) == Table([])[m.path := m.fs];
    assert m in [m];
  }

  lemma ServedTree(t: Layout, root: JoinedNode, place: map<JoinedNode, Path>)
    requires Linked(t, root, place)
    ensures OwnedInside(t, root)
  {
  }

  lemma OnlyRoot(t: Layout, root: JoinedNode, f: Fs, x: Name)
    requires OwnedInside(t, root) && AllMounted(t, root) && Carries(t, root, map[[] := f])
    ensures WalkTo(t, root, [x]) == None && MountAt(t, root, []) == Some(f)
  {
    WalkInside(t, root, [x]);
    assert MountAt(t, root, [x]) == None;
  }

  lemma DeepBranch(t: Layout, u: Layout, root: JoinedNode, b: Branch, f: Fs)
    requires OwnedInside(t, root) && AllMounted(t, root) && Carries(t, root, map[[] := f])
    requires Branched(t, u, root, b) && b.path == ["a", "b"]
    ensures Found(u, root, ["a", "b"]) == LookedUpIn(f, ["a", "b"])
    ensures Found(u, root, ["b"]) == Some(Joint(b.tip)) && b.tip in u && u[b.tip].fs == Some(b.fs)
  {
    var p, up, tail: Path := ["a", "b"], ["a"], ["b"];
    assert p[..1] == up && p[..0] == [] && p[..2] == p && up[..0] == [] && tail[..1] == tail;
    OnlyRoot(t, root, f, "a");
    OnlyRoot(t, root, f, "b");
    WalkStops(t, root, p, 1, 2);
    TwoMade(t, u, root, b);
    BranchWalks(t, u, root, b, []);
    BranchWalks(t, u, root, b, up);
    BranchWalks(t, u, root, b, tail);
    BranchWalks(t, u, root, b, p);
    BranchedOld(t, u, root, b, root);
    hide Branched, WalkTo, OwnedInside, Carries, AllMounted;
    assert MountAt(u, root, up) == None && MountAt(u, root, p) == None && MountAt(u, root, []) == Some(f);
    assert MountDepth(u, root, p, 1) == MountDepth(u, root, p, 0) == Some(0);
  }

  lemma TwoMade(t: Layout, u: Layout, root: JoinedNode, b: Branch)
    requires OwnedInside(t, root) && Branched(t, u, root, b) && b.path == ["a", "b"] && WalkTo(t, root, ["a"]) == None
    ensures |b.made| == 2 && b.tip == b.made[1] && b.tip != root
    ensures b.made[0] in u && u[b.made[0]].fs == None && b.tip in u && u[b.tip].fs == Some(b.fs)
    ensures First(u, b.made, "a") == Some(b.made[0]) && First(u, b.made, "b") == Some(b.tip)
  {
    var p, m := ["a", "b"], b.made;
    assert p[..1] == ["a"] && p[..2] == p;
    if b.depth > 0 { WalkStops(t, root, p, 1, b.depth); }
    assert NewOk(u, b, 0, true) && NewOk(u, b, 1, true);
    assert m[0] != m[1] by { assert u[m[0]].name == "a" && u[m[1]].name == "b" && "a"[0] != "b"[0]; }
    assert First(u, m[1..], "b") == Some(m[1]);
  }

  // ---------- routing and listing ----------

  /**
   * On the table of mounts: the longest mounted path that p goes through decides, and the file system there gets
   * exactly the rest of p.
   */
  lemma RoutedByTable(t: Layout, root: JoinedNode, table: map<Path, Fs>, p: Path, q: Path)
    requires Carries(t, root, table) && p != []
    ensures (forall r :: r in table ==> !(r <= p)) ==> Found(t, root, p) == None
    ensures LongestIn(table, p, q) && q != p ==>
              && (Found(t, root, p) == None <==> table[q].lookup(p[|q|..]) == None)
              && forall i :: Found(t, root, p) == Some(i) <==> i.Under? && table[q].lookup(p[|q|..]) == Some(i.id)
    ensures LongestIn(table, p, p) ==>
            WalkTo(t, root, p).Some? && Found(t, root, p) == Some(Joint(WalkTo(t, root, p).value))
  {
    hide Carries, MountAt, WalkTo, MountDepth;
    DepthByTable(t, root, table, p);
    assert p[..|p|] == p;
    if LongestIn(table, p, q) {
      assert p[..|q|] == q;
      assert MountDepth(t, root, p, |p|) == Some(|q|);
    }
  }

  lemma DepthByTable(t: Layout, root: JoinedNode, table: map<Path, Fs>, p: Path)
    requires Carries(t, root, table)
    ensures var d := MountDepth(t, root, p, |p|);
            && (d.Some? ==>
                  && d.value <= |p| && p[..d.value] in table
                  && MountAt(t, root, p[..d.value]) == Some(table[p[..d.value]]))
            && (forall r :: r in table && r <= p ==> d.Some? && |r| <= d.value)
    ensures p in table ==> WalkTo(t, root, p).Some?
  {
    var d := MountDepth(t, root, p, |p|);
    hide MountDepth;
    forall r | r in table && r <= p
      ensures d.Some? && |r| <= d.value
    {
      assert p[..|r|] == r && MountAt(t, root, r).Some?;
    }
  }

  /** The file systems' own promise: at their root, what is listed is what is found. */
  ghost predicate FsAgrees(fs: Fs) {
    forall x, i :: fs.lookup([x]) == Some(i) <==> Listed(x, i) in fs.entries
  }

  /** A drive keeps that promise if names are unique in its root folder. */
  function DriveFs(c: CloudTree.Cloud): Fs
    requires CloudTree.ROOT in c && forall k :: k in c[CloudTree.ROOT].kids ==> k in c
  {
    var kids := c[CloudTree.ROOT].kids;
    Fs(0, seq(|kids|, i requires 0 <= i < |kids| => Listed(c[kids[i]].name, kids[i])),
       p => CloudTree.Walk(c, CloudTree.ROOT, p))
  }

  lemma DriveAgrees(c: CloudTree.Cloud)
    requires CloudTree.WellFormed(c) && CloudTree.UniqueNames(c)
    ensures FsAgrees(DriveFs(c))
  {
    var fs, kids := DriveFs(c), c[CloudTree.ROOT].kids;
    forall x, i
      ensures fs.lookup([x]) == Some(i) <==> Listed(x, i) in fs.entries
    {
      CloudTree.WalkRoot(c);
      CloudTree.WalkSnoc(c, CloudTree.ROOT, [], x);
      assert [] + [x] == [x];
      if Listed(x, i) in fs.entries {
        var k :| 0 <= k < |kids| && fs.entries[k] == Listed(x, i);
        CloudTree.ChildIs(c, CloudTree.ROOT, kids[k]);
      }
      if fs.lookup([x]) == Some(i) {
        var k :| 0 <= k < |kids| && kids[k] == i;
        assert fs.entries[k] == Listed(x, i);
      }
    }
  }

  ghost function FsOf(t: Layout, root: JoinedNode): Option<Fs> {
    if root in t then t[root].fs else None
  }

  /** What a node lists: the entries of the file system mounted there that no mount hides, then the mounts. */
  ghost predicate Lists(t: Layout, root: JoinedNode, list: seq<Entry>, mounts: seq<Entry>) {
    && root in t && MountMap(mounts, ChildEntries(t[root].next))
    && var own := FsOf(t, root);
       list == (if own == None then [] else Unshadowed(UnderEntries(own.value), Names(ChildEntries(t[root].next))))
               + mounts
  }

  ghost predicate TrueNames(t: Layout) {
    forall n :: n in t ==> t[n].name == n.name
  }

  /** A one-component lookup goes to the mount of that name, or else to the file system at the root. */
  lemma FoundAtRoot(t: Layout, root: JoinedNode, place: map<JoinedNode, Path>, x: Name)
    requires Linked(t, root, place) && AllMounted(t, root)
    ensures match WalkTo(t, root, [x])
            case Some(c) => c in t && c in t[root].next && t[c].name == x && Found(t, root, [x]) == Some(Joint(c))
            case None =>
              && (forall c :: c in t[root].next ==> t[c].name != x)
              && Found(t, root, [x]) == if t[root].fs == None then None else LookedUpIn(t[root].fs.value, [x])
  {
    WalkIsPlace(t, root, place, [x]);
    assert [x][..0] == [] && [x][..1] == [x] && [x][0..] == [x];
    FirstIs(t, ChildrenOf(t, root), x);
    assert MountDepth(t, root, [x], 0) == if t[root].fs.Some? then Some(0) else None;
    if WalkTo(t, root, [x]).Some? {
      assert WalkTo(t, root, [x]).value != root;
    }
  }

  lemma UnderEntryIs(fs: Fs, x: Name, item: Item)
    ensures Entry(x, item) in UnderEntries(fs) <==> item.Under? && Listed(x, item.id) in fs.entries
  {
    var es := UnderEntries(fs);
    if item.Under? && Listed(x, item.id) in fs.entries {
      var k :| 0 <= k < |fs.entries| && fs.entries[k] == Listed(x, item.id);
      assert es[k] == Entry(x, item);
    }
    if Entry(x, item) in es {
      var k :| 0 <= k < |es| && es[k] == Entry(x, item);
      assert fs.entries[k] == Listed(x, item.id);
    }
  }

  /** The mount map of a well-formed node holds each child under its name. */
  lemma MountEntryIs(t: Layout, root: JoinedNode, place: map<JoinedNode, Path>, mounts: seq<Entry>, x: Name, item: Item)
    requires Linked(t, root, place) && TrueNames(t) && MountMap(mounts, ChildEntries(t[root].next))
    ensures Entry(x, item) in mounts <==> item.Joint? && item.node in t[root].next && item.node.name == x
    ensures x in Names(ChildEntries(t[root].next)) <==> exists c :: c in t[root].next && c.name == x
  {
    hide Linked, Sorted, TrueNames, PlaceOf;
    OwnEntries(t, root, place);
    var ns := t[root].next;
    var es := ChildEntries(ns);
    if x in Names(es) {
      var k :| 0 <= k < |es| && es[k].name == x;
      assert ns[k] in ns && ns[k].name == x;
    }
    if item.Joint? && item.node in ns && item.node.name == x {
      var k :| 0 <= k < |ns| && ns[k] == item.node;
      assert es[k] in es && es[k].name == x;
      FirstNamed(es, x);
      var j :| FirstOfName(es, j) && es[j].name == x;
      assert es[j] == es[k];
    }
    if Entry(x, item) in mounts {
      var j :| FirstOfName(es, j) && es[j] == Entry(x, item);
      assert ns[j] in ns;
    }
    if exists c :: c in ns && c.name == x {
      var c :| c in ns && c.name == x;
      var k :| 0 <= k < |ns| && ns[k] == c;
      assert es[k] in es;
    }
  }

  lemma OwnEntries(t: Layout, root: JoinedNode, place: map<JoinedNode, Path>)
    requires Linked(t, root, place) && TrueNames(t)
    ensures root in t
    ensures var es := ChildEntries(t[root].next);
            forall j, k :: 0 <= j < |es| && 0 <= k < |es| && es[j].name == es[k].name ==> es[j] == es[k]
  {
    var ns := t[root].next;
    forall k | 0 <= k < |ns|
      ensures ns[k] in t && PlaceOf(place, ns[k]) == [ns[k].name]
    {
      assert ns[k] in ns && ChildOk(t, place, root, ns[k]);
    }
  }

  /** Listing and lookup agree at the root, mounts included: an entry is listed exactly if lookup finds it. */
  lemma ListingMeetsLookup(t: Layout, root: JoinedNode, place: map<JoinedNode, Path>, list: seq<Entry>,
                           mounts: seq<Entry>, x: Name, item: Item)
    requires Linked(t, root, place) && AllMounted(t, root) && TrueNames(t) && Lists(t, root, list, mounts)
    requires FsOf(t, root).Some? ==> FsAgrees(FsOf(t, root).value)
    ensures Entry(x, item) in list <==> Found(t, root, [x]) == Some(item)
  {
    FoundAtRoot(t, root, place, x);
    MountEntryIs(t, root, place, mounts, x, item);
    var names := Names(ChildEntries(t[root].next));
    if FsOf(t, root).Some? {
      UnshadowedIs(UnderEntries(FsOf(t, root).value), names, Entry(x, item));
      UnderEntryIs(FsOf(t, root).value, x, item);
    }
    ChildNames(t, root, place, x);
    hide Linked, MountMap, ChildEntries, Found, Unshadowed, Names;
  }

  lemma ChildNames(t: Layout, root: JoinedNode, place: map<JoinedNode, Path>, x: Name)
    requires Linked(t, root, place) && TrueNames(t)
    ensures root in t && forall c :: c in t[root].next ==> c in t && t[c].name == c.name
    ensures forall c, d :: c in t[root].next && d in t[root].next && c.name == d.name ==> c == d
  {
    forall c | c in t[root].next
      ensures c in t && t[c].name == c.name && PlaceOf(place, c) == [c.name]
    {
      assert ChildOk(t, place, root, c);
    }
  }

  lemma NotRoot(t: Layout, root: JoinedNode, place: map<JoinedNode, Path>, n: JoinedNode, up: Path)
    requires Linked(t, root, place) && PlaceOf(place, n) == up + [n.name]
    ensures n != root && OwnedInside(t, root) && PlaceOf(place, n)[..|up|] == up
  {
  }

  lemma ParentOrRoot(t: Layout, root: JoinedNode, place: map<JoinedNode, Path>, n: JoinedNode)
    requires Linked(t, root, place) && n in t
    ensures n == root <==> t[n].parent == null
  {
    if n != root { assert ParentOk(t, n); }
  }

  lemma ClimbInside(t: Layout, root: JoinedNode, place: map<JoinedNode, Path>, q: Path, upper: JoinedNode)
    requires Climbing(t, root, place, q, upper)
    ensures upper in t
  {
  }
}
