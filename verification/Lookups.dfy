/**
 * What a lookup answers and what a folder lists, in any state of memory: also in states a creation or a rename leaves
 * behind in which memory is no mirror of the drive, or the cache tells no longer the truth.
 */
module Lookups {
  import opened Basics
  import opened CloudTree
  import opened CloudUpdates
  import opened LoadedTree
  import opened NodeCache
  import opened Loading

  /** Every loaded node is some entry of the drive, of the same kind, and owns loaded nodes. */
  ghost predicate Backed(c: Cloud, t: Tree, n: Node) {
    && n in t && t[n].id in c && t[n].folder == c[t[n].id].folder && (t[n].filled ==> t[n].folder)
    && forall m :: m in t[n].next ==> m in t
  }

  ghost predicate Usable(c: Cloud, root: Node, t: Tree) {
    root in t && t[root].id == ROOT && forall n :: n in t ==> Backed(c, t, n)
  }

  // ---------- the answer of a lookup ----------

  /** The node where the search in memory for the path ends, and how many names lead there. */
  ghost function Reached(t: Tree, n: Node, p: Path, k: nat): (r: (Node, nat))
    requires k <= |p|
    ensures k <= r.1 <= |p|
    decreases |p| - k
  {
    if k == |p| || n !in t || Named(t, t[n].next, p[k]).None? then (n, k)
    else Reached(t, Named(t, t[n].next, p[k]).value, p, k + 1)
  }

  /** The search in memory; where it ends at a folder not filled, the listings of the drive from there on. */
  ghost function Sought(c: Cloud, t: Tree, root: Node, p: Path): Option<Id> {
    var r := Reached(t, root, p, 0);
    if r.0 !in t then None
    else if r.1 == |p| then Some(t[r.0].id)
    else if t[r.0].filled then None
    else Walk(c, t[r.0].id, p[r.1..])
  }

  /** The cache is asked first. */
  ghost function LookupAnswer(c: Cloud, t: Tree, paths: map<Path, Node>, root: Node, p: Path): Option<Id> {
    if p != [] && p in paths then (if paths[p] in t then Some(t[paths[p]].id) else None) else Sought(c, t, root, p)
  }

  lemma {:induction false} ReachedIn(c: Cloud, root: Node, t: Tree, n: Node, p: Path, k: nat)
    requires Usable(c, root, t) && n in t && k <= |p|
    ensures var r := Reached(t, n, p, k); r.0 in t && (r.1 < |p| ==> Named(t, t[r.0].next, p[r.1]).None?)
    decreases |p| - k
  {
    if k < |p| && Named(t, t[n].next, p[k]).Some? {
      assert Backed(c, t, n);
      ReachedIn(c, root, t, Named(t, t[n].next, p[k]).value, p, k + 1);
    }
  }

  /** The search takes the same way for a longer and a shorter path, as far as both go. */
  lemma {:induction false} ReachedPrefix(t: Tree, n: Node, p: Path, k: nat, j: nat)
    requires k <= j <= |p| && Reached(t, n, p, k).1 <= j
    ensures Reached(t, n, p[..j], k) == Reached(t, n, p, k)
    decreases |p| - k
  {
    if k < j && n in t && Named(t, t[n].next, p[k]).Some? {
      ReachedPrefix(t, Named(t, t[n].next, p[k]).value, p, k + 1, j);
    }
  }

  // ---------- memory that finds what the drive finds ----------

  /** A name found among the loaded children is the drive's first; in a filled folder a name not found is not there. */
  ghost predicate FindsRight(c: Cloud, t: Tree, n: Node, x: Name)
    requires n in t
  {
    match Named(t, t[n].next, x)
    case Some(m) => Child(c, t[n].id, x) == Some(t[m].id)
    case None => t[n].filled ==> Child(c, t[n].id, x) == None
  }

  ghost predicate Right(c: Cloud, root: Node, t: Tree) {
    Usable(c, root, t) && forall n, x :: n in t ==> FindsRight(c, t, n, x)
  }

  lemma RightUsable(c: Cloud, root: Node, t: Tree)
    requires Right(c, root, t)
    ensures Usable(c, root, t)
  {
  }

  lemma MirrorUsable(c: Cloud, root: Node, s: Snapshot)
    requires WellFormed(c) && Mirrors(c, s.tree, root, s.at)
    ensures Usable(c, root, s.tree)
  {
    forall n | n in s.tree
      ensures Backed(c, s.tree, n)
    {
      assert NodeOk(c, s.tree, root, s.at, n);
    }
  }

  lemma MirrorRight(c: Cloud, root: Node, s: Snapshot)
    requires WellFormed(c) && Mirrors(c, s.tree, root, s.at) && Agrees(c, s.tree)
    ensures Right(c, root, s.tree)
  {
    MirrorUsable(c, root, s);
    forall n, x | n in s.tree
      ensures FindsRight(c, s.tree, n, x)
    {
      assert NodeOk(c, s.tree, root, s.at, n);
      if s.tree[n].filled { assert AgreesOn(c, s.tree, n, x); }
    }
  }

  lemma {:induction false} ReachedRight(c: Cloud, root: Node, t: Tree, n: Node, p: Path, k: nat)
    requires Right(c, root, t) && n in t && k <= |p| && Walk(c, ROOT, p[..k]) == Some(t[n].id)
    ensures var r := Reached(t, n, p, k);
            && r.0 in t && Walk(c, ROOT, p[..r.1]) == Some(t[r.0].id)
            && (r.1 < |p| && t[r.0].filled ==> Walk(c, ROOT, p[..r.1 + 1]) == None)
    decreases |p| - k
  {
    if k < |p| {
      assert FindsRight(c, t, n, p[k]) && p[..k + 1] == p[..k] + [p[k]];
      WalkSnoc(c, ROOT, p[..k], p[k]);
      if Named(t, t[n].next, p[k]).Some? {
        assert Backed(c, t, n);
        hide Right, Walk;
        ReachedRight(c, root, t, Named(t, t[n].next, p[k]).value, p, k + 1);
      }
    }
  }

  lemma SearchedRight(c: Cloud, root: Node, t: Tree, p: Path)
    requires WellFormed(c) && Right(c, root, t)
    ensures var r := Reached(t, root, p, 0); r.0 in t && Walk(c, ROOT, p[..r.1]) == Some(t[r.0].id)
  {
    WalkRoot(c);
    assert p[..0] == [];
    ReachedRight(c, root, t, root, p, 0);
  }

  /** In such a state the search answers every path as the uncached walk does. */
  lemma SoughtWalks(c: Cloud, root: Node, t: Tree, p: Path)
    requires WellFormed(c) && Right(c, root, t)
    ensures Sought(c, t, root, p) == Walk(c, ROOT, p)
  {
    hide Right, WellFormed, Walk, Reached;
    RootAtStart(c, root, t);
    assert p[..0] == [] && p[..|p|] == p;
    ReachedRight(c, root, t, root, p, 0);
    var r := Reached(t, root, p, 0);
    if r.1 < |p| {
      assert p[..r.1] + p[r.1..] == p;
      WalkConcat(c, ROOT, p[..r.1], p[r.1..]);
      if t[r.0].filled { WalkCut(c, p, r.1 + 1); }
    }
  }

  lemma RootAtStart(c: Cloud, root: Node, t: Tree)
    requires WellFormed(c) && Right(c, root, t)
    ensures root in t && Walk(c, ROOT, []) == Some(t[root].id)
  {
    WalkRoot(c);
  }

  ghost predicate AnswersRight(c: Cloud, root: Node, t: Tree, paths: map<Path, Node>, stale: set<Path>) {
    forall q :: q !in stale ==> LookupAnswer(c, t, paths, root, q) == Walk(c, ROOT, q)
  }

  lemma AnswerWalks(c: Cloud, root: Node, t: Tree, paths: map<Path, Node>, stale: set<Path>, p: Path)
    requires WellFormed(c) && Right(c, root, t) && TrueBut(c, t, paths, stale) && p !in stale
    ensures LookupAnswer(c, t, paths, root, p) == Walk(c, ROOT, p)
  {
    hide WellFormed, Right;
    SoughtWalks(c, root, t, p);
  }

  // ---------- what a lookup changes ----------

  /** Live nodes stay what they are, but for what they own. */
  ghost predicate Stays(t: Tree, u: Tree) {
    forall n :: n in t ==> n in u && u[n].id == t[n].id && u[n].folder == t[n].folder
  }

  /** A new cache entry is what a search for its path would have answered; the others stay. */
  ghost predicate CacheGained(c: Cloud, t: Tree, root: Node, was: map<Path, Node>, u: Tree, now: map<Path, Node>) {
    forall q :: q in now ==>
      || (q in was && now[q] == was[q])
      || (now[q] in u && Sought(c, t, root, q) == Some(u[now[q]].id))
  }

  /** What loading from the entry i on adds to the cache: the stretch of the path it gets along. */
  ghost predicate CachedAlong(c: Cloud, i: Id, p: Path, from: nat, k: nat, was: map<Path, Node>, u: Tree,
                              now: map<Path, Node>)
    requires k <= |p|
  {
    && now.Keys == was.Keys + Stretch(p, from, k)
    && (forall q :: q in now && q !in Stretch(p, from, k) ==> now[q] == was[q])
    && forall j :: from < j <= k ==> now[p[..j]] in u && Walk(c, i, p[from..j]) == Some(u[now[p[..j]]].id)
  }

  lemma StaysTwice(t: Tree, u: Tree, v: Tree)
    requires Stays(t, u) && Stays(u, v)
    ensures Stays(t, v)
  {
  }

  /** Loading from where the search in memory ends makes the entries the search stands for. */
  lemma AlongGains(c: Cloud, t: Tree, root: Node, p: Path, k: nat, was: map<Path, Node>, u: Tree, now: map<Path, Node>)
    requires var r := Reached(t, root, p, 0);
             && r.0 in t && r.1 <= k <= |p| && !t[r.0].filled && t[r.0].id in c
             && CachedAlong(c, t[r.0].id, p, r.1, k, was, u, now)
    ensures CacheGained(c, t, root, was, u, now)
  {
    var r := Reached(t, root, p, 0);
    hide Reached, Walk;
    forall q | q in now
      ensures (q in was && now[q] == was[q]) || (now[q] in u && Sought(c, t, root, q) == Some(u[now[q]].id))
    {
      if q in Stretch(p, r.1, k) {
        var j :| r.1 < j <= k && q == p[..j];
        ReachedPrefix(t, root, p, 0, j);
        assert p[..j][r.1..] == p[r.1..j];
      }
    }
  }

  /** True entries stay true, and new ones are, in a memory that finds what the drive finds. */
  lemma GainedTrue(c: Cloud, t: Tree, root: Node, was: map<Path, Node>, u: Tree, now: map<Path, Node>, stale: set<Path>)
    requires WellFormed(c) && Right(c, root, t) && Stays(t, u) && CacheGained(c, t, root, was, u, now)
    requires TrueBut(c, t, was, stale)
    ensures TrueBut(c, u, now, stale)
  {
    hide Right, WellFormed, Walk, Sought;
    forall p | p in now && p !in stale
      ensures now[p] in u && Walk(c, ROOT, p) == Some(u[now[p]].id)
    {
      SoughtWalks(c, root, t, p);
    }
  }

  // ---------- filing what was loaded ----------

  /** A node just loaded, with its id. */
  datatype Filing = Filing(node: Node, id: Id)

  /** The cache once the nodes are filed under the prefixes of the path that follow the first `from` names. */
  function Filed(m: Maps<Node>, p: Path, from: nat, made: seq<Filing>): Maps<Node>
    requires from + |made| <= |p|
  {
    if made == [] then m
    else
      var k := |made| - 1;
      Inserted(Filed(m, p, from, made[..k]), p[..from + k + 1], made[k].id, made[k].node)
  }

  /** Different new nodes, one for each name that follows, where the drive has them. */
  ghost predicate Along(c: Cloud, i: Id, p: Path, from: nat, made: seq<Filing>, t: Tree, u: Tree) {
    && from + |made| <= |p|
    && (forall j :: 0 <= j < |made| ==> made[j].node in u && made[j].node !in t && u[made[j].node].id == made[j].id)
    && (forall j :: 0 <= j < |made| ==> Walk(c, i, p[from..from + j + 1]) == Some(made[j].id))
    && (forall j, k :: 0 <= j < k < |made| ==> made[j].node != made[k].node)
  }

  lemma AlongStill(c: Cloud, i: Id, p: Path, from: nat, made: seq<Filing>, t: Tree, u: Tree, v: Tree)
    requires Along(c, i, p, from, made, t, u) && Stays(u, v)
    ensures Along(c, i, p, from, made, t, v)
  {
    hide Walk;
  }

  lemma AlongOnward(c: Cloud, i: Id, p: Path, from: nat, made: seq<Filing>, t: Tree, u: Tree, v: Tree, m: Node)
    requires Along(c, i, p, from, made, t, u) && Stays(t, u) && Stays(u, v) && from + |made| < |p|
    requires m in v && m !in u && Walk(c, i, p[from..from + |made| + 1]) == Some(v[m].id)
    ensures Along(c, i, p, from, made + [Filing(m, v[m].id)], t, v)
  {
    hide Walk;
  }

  lemma FiledNothing(m: Maps<Node>, p: Path, from: nat)
    requires from <= |p|
    ensures Filed(m, p, from, []) == m && Stretch(p, from, from) == {}
  {
  }

  lemma FiledOnward(m: Maps<Node>, p: Path, from: nat, made: seq<Filing>, f: Filing)
    requires from + |made| < |p|
    ensures Filed(m, p, from, made + [f]) == Inserted(Filed(m, p, from, made), p[..from + |made| + 1], f.id, f.node)
  {
    assert (made + [f])[..|made|] == made;
  }

  /** Loading has got to n, has filed what it made, and has changed nothing else. */
  ghost predicate Course(c: Cloud, i: Id, p: Path, from: nat, made: seq<Filing>, n: Node, t: Tree, u: Tree,
                         m: Maps<Node>, now: Maps<Node>) {
    && Along(c, i, p, from, made, t, u) && Stays(t, u) && n in u && now == Filed(m, p, from, made)
    && Walk(c, i, p[from..from + |made|]) == Some(u[n].id) && (made != [] ==> n == made[|made| - 1].node)
  }

  lemma CourseStarts(c: Cloud, p: Path, from: nat, n: Node, t: Tree, m: Maps<Node>)
    requires n in t && t[n].id in c && from <= |p|
    ensures Course(c, t[n].id, p, from, [], n, t, t, m, m)
  {
  }

  lemma CourseOn(c: Cloud, i: Id, p: Path, from: nat, made: seq<Filing>, n: Node, t: Tree, u: Tree, v: Tree,
                 m: Maps<Node>, now: Maps<Node>, x: Node)
    requires Course(c, i, p, from, made, n, t, u, m, now) && from + |made| < |p| && Stays(u, v)
    requires x in v && x !in u && Child(c, u[n].id, p[from + |made|]) == Some(v[x].id)
    ensures Course(c, i, p, from, made + [Filing(x, v[x].id)], x, t, v, m,
                   Inserted(now, p[..from + |made| + 1], v[x].id, x))
  {
    hide Walk, Along, Stays, Filed, Child, Inserted;
    AlongBounds(c, i, p, from, made, t, u);
    AlongStep(c, i, u[n].id, p, from, from + |made|);
    StaysTwice(t, u, v);
    AlongOnward(c, i, p, from, made, t, u, v, x);
    FiledOnward(m, p, from, made, Filing(x, v[x].id));
  }

  /** The drive has no such name: the walk of the whole rest fails. */
  lemma CourseEnds(c: Cloud, i: Id, p: Path, from: nat, made: seq<Filing>, n: Node, t: Tree, u: Tree, v: Tree,
                   m: Maps<Node>, now: Maps<Node>)
    requires Course(c, i, p, from, made, n, t, u, m, now) && from + |made| < |p| && Stays(u, v)
    requires Child(c, u[n].id, p[from + |made|]) == None
    ensures Course(c, i, p, from, made, n, t, v, m, now) && Walk(c, i, p[from..]) == None
  {
    hide Walk, Along, Filed, Child;
    AlongBounds(c, i, p, from, made, t, u);
    AlongStep(c, i, u[n].id, p, from, from + |made|);
    AlongStill(c, i, p, from, made, t, u, v);
  }

  lemma AlongBounds(c: Cloud, i: Id, p: Path, from: nat, made: seq<Filing>, t: Tree, u: Tree)
    requires Along(c, i, p, from, made, t, u)
    ensures from + |made| <= |p|
  {
  }

  lemma AlongStep(c: Cloud, i: Id, j: Id, path: Path, from: nat, k: nat)
    requires from <= k < |path| && Walk(c, i, path[from..k]) == Some(j)
    ensures Walk(c, i, path[from..k + 1]) == Child(c, j, path[k])
    ensures Child(c, j, path[k]) == None ==> Walk(c, i, path[from..]) == None
  {
    assert path[from..k + 1] == path[from..k] + [path[k]];
    WalkSnoc(c, i, path[from..k], path[k]);
    assert path[from..] == path[from..k + 1] + path[k + 1..];
    WalkConcat(c, i, path[from..k + 1], path[k + 1..]);
  }

  lemma {:induction false} FiledPaths(m: Maps<Node>, p: Path, from: nat, made: seq<Filing>)
    requires from + |made| <= |p|
    ensures var now := Filed(m, p, from, made).paths;
            && now.Keys == m.paths.Keys + Stretch(p, from, from + |made|)
            && (forall q :: q in now && q !in Stretch(p, from, from + |made|) ==> now[q] == m.paths[q])
            && (forall j :: from < j <= from + |made| ==> now[p[..j]] == made[j - from - 1].node)
  {
    hide Filed, Stretch, Inserted;
    if made == [] {
      FiledNothing(m, p, from);
    } else {
      var k := |made| - 1;
      FiledPaths(m, p, from, made[..k]);
      FiledLast(m, p, from, made);
      var was := Filed(m, p, from, made[..k]).paths;
      PathPut(m.paths, was, p, from, from + k, made[k].node);
      StretchHas(p, from, from + k);
      forall j | from < j <= from + k
        ensures was[p[..from + k + 1] := made[k].node][p[..j]] == made[j - from - 1].node
      {
        assert |p[..j]| < |p[..from + k + 1]| && was[p[..j]] == made[..k][j - from - 1].node;
      }
    }
  }

  lemma FiledLast(m: Maps<Node>, p: Path, from: nat, made: seq<Filing>)
    requires made != [] && from + |made| <= |p|
    ensures var k := |made| - 1;
            Filed(m, p, from, made).paths == Filed(m, p, from, made[..k]).paths[p[..from + k + 1] := made[k].node]
  {
  }

  lemma PathPut(first: map<Path, Node>, was: map<Path, Node>, p: Path, from: nat, k: nat, n: Node)
    requires from <= k < |p| && was.Keys == first.Keys + Stretch(p, from, k)
    requires forall q :: q in was && q !in Stretch(p, from, k) ==> was[q] == first[q]
    ensures var now := was[p[..k + 1] := n];
            && now.Keys == first.Keys + Stretch(p, from, k + 1) && p[..k + 1] in Stretch(p, from, k + 1)
            && forall q :: q in now && q !in Stretch(p, from, k + 1) ==> now[q] == first[q]
  {
    StretchOn(p, from, k);
    hide Stretch;
  }

  lemma StretchHas(p: Path, from: nat, to: nat)
    requires to <= |p|
    ensures forall j :: from < j <= to ==> p[..j] in Stretch(p, from, to)
  {
  }

  lemma StretchOn(p: Path, from: nat, k: nat)
    requires from <= k < |p|
    ensures Stretch(p, from, k + 1) == Stretch(p, from, k) + {p[..k + 1]}
  {
  }

  lemma {:induction false} FiledNodes(m: Maps<Node>, p: Path, from: nat, made: seq<Filing>)
    requires from + |made| <= |p|
    ensures forall n :: n in Filed(m, p, from, made).nodes ==>
              n in m.nodes || exists j :: 0 <= j < |made| && made[j].node == n
  {
    if made != [] {
      var k := |made| - 1;
      FiledNodes(m, p, from, made[..k]);
      assert made[k] == made[|made| - 1];
    }
  }

  /** What loading adds to the cache, path by path. */
  lemma FiledCached(c: Cloud, i: Id, p: Path, from: nat, made: seq<Filing>, m: Maps<Node>, t: Tree, u: Tree)
    requires Along(c, i, p, from, made, t, u)
    ensures CachedAlong(c, i, p, from, from + |made|, m.paths, u, Filed(m, p, from, made).paths)
  {
    hide Walk;
    FiledPaths(m, p, from, made);
    forall j | from < j <= from + |made|
      ensures var now := Filed(m, p, from, made).paths;
              now[p[..j]] in u && Walk(c, i, p[from..j]) == Some(u[now[p[..j]]].id)
    {
      assert made[j - from - 1].node in u;
    }
  }

  /** The walk to the node filed last. */
  lemma AlongWalk(c: Cloud, i: Id, p: Path, from: nat, made: seq<Filing>, t: Tree, u: Tree)
    requires Along(c, i, p, from, made, t, u) && made != [] && Walk(c, ROOT, p[..from]) == Some(i)
    ensures from + |made| <= |p|
    ensures var k := |made| - 1;
            && Walk(c, ROOT, p[..from + k + 1]) == Some(made[k].id) && Along(c, i, p, from, made[..k], t, u)
            && made[k].node in u && made[k].node !in t && u[made[k].node].id == made[k].id
            && forall j :: 0 <= j < k ==> made[..k][j].node != made[k].node
  {
    hide Walk;
    var k := |made| - 1;
    assert p[..from + k + 1] == p[..from] + p[from..from + k + 1];
    WalkConcat(c, ROOT, p[..from], p[from..from + k + 1]);
  }

  /** In a state where the cache is true, filing what was loaded keeps it so. */
  lemma {:induction false} FiledFaithful(c: Cloud, root: Node, s: Snapshot, v: Snapshot, folders: set<Id>, i: Id,
                                         p: Path, from: nat, made: seq<Filing>)
    requires WellFormed(c) && Faithful(c, root, s) && Mirrored(c, root, v) && Loaded(s, v, folders)
    requires Along(c, i, p, from, made, s.tree, v.tree) && Walk(c, ROOT, p[..from]) == Some(i)
    ensures Faithful(c, root, v.(maps := Filed(s.maps, p, from, made)))
    ensures CacheGrew(s.maps, Filed(s.maps, p, from, made), p)
    decreases |made|
  {
    hide WellFormed, Mirrored, Walk, Along, Faithful, LookedUp, Loaded, Inserted;
    if made == [] {
      StillFaithful(c, root, s, v, folders);
    } else {
      var k := |made| - 1;
      AlongWalk(c, i, p, from, made, s.tree, v.tree);
      FiledFaithful(c, root, s, v, folders, i, p, from, made[..k]);
      FiledNodes(s.maps, p, from, made[..k]);
      OnFileLive(c, root, s, made[k].node);
      var w := v.(maps := Filed(s.maps, p, from, made[..k]));
      InsertIsFresh(c, root, w, p[..from + k + 1], made[k].node, p);
      GrewOn(s.maps, w.maps, p, p[..from + k + 1], made[k]);
    }
  }

  lemma StillFaithful(c: Cloud, root: Node, s: Snapshot, v: Snapshot, folders: set<Id>)
    requires Faithful(c, root, s) && Mirrored(c, root, v) && Loaded(s, v, folders)
    ensures Faithful(c, root, v.(maps := s.maps)) && CacheGrew(s.maps, s.maps, [])
  {
    hide Mirrors, Agrees, Walk;
    MoreLive(s.maps, IdsOf(s.tree), IdsOf(v.tree));
  }

  lemma OnFileLive(c: Cloud, root: Node, s: Snapshot, n: Node)
    requires Faithful(c, root, s)
    ensures n in s.maps.nodes ==> n in s.tree
  {
  }

  lemma GrewOn(m: Maps<Node>, n: Maps<Node>, p: Path, q: Path, f: Filing)
    requires CacheGrew(m, n, p) && q <= p && q !in n.paths
    ensures CacheGrew(m, Inserted(n, q, f.id, f.node), p)
  {
  }

  /** Whatever misled before, filing what was loaded adds nothing that does. */
  lemma {:induction false} FiledSound(c: Cloud, root: Node, s: Snapshot, v: Snapshot, folders: set<Id>, i: Id, p: Path,
                                      from: nat, made: seq<Filing>, stale: set<Path>)
    requires Sound(c, root, s, stale) && Mirrored(c, root, v) && Loaded(s, v, folders)
    requires Along(c, i, p, from, made, s.tree, v.tree) && Walk(c, ROOT, p[..from]) == Some(i)
    ensures Sound(c, root, v.(maps := Filed(s.maps, p, from, made)), stale)
    decreases |made|
  {
    hide Mirrors, Agrees, Walk, Along, Inserted;
    if made != [] {
      var k := |made| - 1;
      AlongWalk(c, i, p, from, made, s.tree, v.tree);
      FiledSound(c, root, s, v, folders, i, p, from, made[..k], stale);
      FiledPaths(s.maps, p, from, made[..k]);
      var w := v.(maps := Filed(s.maps, p, from, made[..k]));
      forall q | q in w.maps.paths && q !in stale
        ensures w.maps.paths[q] != made[k].node
      {
        if q in Stretch(p, from, from + k) {
          var j :| from < j <= from + k && q == p[..j];
          assert w.maps.paths[q] == made[..k][j - from - 1].node;
        }
      }
      InsertSound(c, root, w, p[..from + k + 1], made[k].node, stale);
    }
  }

  // ---------- filling, whatever the folder holds ----------

  lemma {:induction false} NamedAppend(t: Tree, a: seq<Node>, b: seq<Node>, x: Name)
    ensures Named(t, a + b, x) == if Named(t, a, x).Some? then Named(t, a, x) else Named(t, b, x)
  {
    if a == [] {
      assert a + b == b;
    } else {
      assert (a + b)[1..] == a[1..] + b;
      NamedAppend(t, a[1..], b, x);
    }
  }

  lemma FilledNews(c: Cloud, t: Tree, u: Tree, n: Node, news: seq<Node>, x: Name)
    requires FilledFrom(c, t, u, n, news)
    ensures match Named(u, news, x)
            case None => Child(c, t[n].id, x) == None
            case Some(m) =>
              && m in u && m !in t && Child(c, t[n].id, x) == Some(u[m].id)
              && u[m].next == [] && !u[m].filled && u[m].id in c && u[m].folder == c[u[m].id].folder
  {
    NamedFollowsLookup(c, u, news, c[t[n].id].kids, x);
    if Named(u, news, x).Some? {
      var a :| 0 <= a < |news| && news[a] == Named(u, news, x).value;
    }
  }

  /** In the filled folder a name is found where it was found before, or else where the drive's listing has it. */
  lemma FilledNames(c: Cloud, root: Node, t: Tree, u: Tree, n: Node, news: seq<Node>, x: Name)
    requires Usable(c, root, t) && FilledFrom(c, t, u, n, news)
    ensures u[n].next == t[n].next + news
    ensures Named(u, u[n].next, x) == if Named(t, t[n].next, x).Some? then Named(t, t[n].next, x) else Named(u, news, x)
  {
    assert Backed(c, t, n);
    NamedSame(t, u, t[n].next, x);
    NamedAppend(u, t[n].next, news, x);
  }

  lemma FillUsable(c: Cloud, root: Node, t: Tree, u: Tree, n: Node, news: seq<Node>)
    requires Usable(c, root, t) && FilledFrom(c, t, u, n, news) && t[n].folder
    ensures Usable(c, root, u)
  {
    forall m | m in u
      ensures Backed(c, u, m)
    {
      if m in t {
        assert Backed(c, t, m);
      } else {
        var a :| 0 <= a < |news| && news[a] == m;
      }
    }
  }

  lemma FillStays(c: Cloud, root: Node, t: Tree, u: Tree, n: Node, news: seq<Node>)
    requires FilledFrom(c, t, u, n, news)
    ensures Stays(t, u)
  {
  }

  /** Filling keeps the answers right, even where the folder already held nodes. */
  lemma FillRight(c: Cloud, root: Node, t: Tree, u: Tree, n: Node, news: seq<Node>)
    requires Right(c, root, t) && FilledFrom(c, t, u, n, news) && t[n].folder
    ensures Right(c, root, u)
  {
    FillUsable(c, root, t, u, n, news);
    forall m, x | m in u
      ensures FindsRight(c, u, m, x)
    {
      if m == n {
        FilledNames(c, root, t, u, n, news, x);
        FilledNews(c, t, u, n, news, x);
        assert FindsRight(c, t, n, x);
      } else if m in t {
        assert FindsRight(c, t, m, x) && Backed(c, t, m);
        NamedSame(t, u, t[m].next, x);
      } else {
        var a :| 0 <= a < |news| && news[a] == m;
      }
    }
  }

  // ---------- listings ----------

  function IdsIn(t: Tree, next: seq<Node>): (r: seq<Id>)
    ensures |r| == |next|
  {
    seq(|next|, a requires 0 <= a < |next| => if next[a] in t then t[next[a]].id else "")
  }

  /** The ids a listing hands out: those of the children in memory, and the drive's after them if it is asked. */
  ghost function ListedIds(c: Cloud, t: Tree, n: Node): seq<Id>
    requires n in t
  {
    IdsIn(t, t[n].next) + if t[n].filled || t[n].id !in c then [] else c[t[n].id].kids
  }

  /** No folder lists an entry twice. */
  ghost predicate ListsOnce(c: Cloud, t: Tree) {
    forall n :: n in t && t[n].folder ==> NoDup(ListedIds(c, t, n))
  }

  lemma MirrorListsOnce(c: Cloud, root: Node, s: Snapshot, n: Node)
    requires WellFormed(c) && Mirrors(c, s.tree, root, s.at) && n in s.tree
    ensures NoDup(ListedIds(c, s.tree, n)) && forall i :: i in IdsIn(s.tree, s.tree[n].next) ==> i in c
  {
    assert NodeOk(c, s.tree, root, s.at, n);
    var next := s.tree[n].next;
    var ids := IdsIn(s.tree, next);
    forall a | 0 <= a < |next|
      ensures next[a] in s.tree && s.tree[next[a]].id in c
    {
      assert next[a] in next;
      assert NodeOk(c, s.tree, root, s.at, next[a]);
    }
    forall a, b | 0 <= a < b < |next|
      ensures ids[a] != ids[b]
    {
      IdsDiffer(c, s.tree, root, s.at, next[a], next[b]);
    }
    if s.tree[n].filled {
      assert ids + [] == ids;
    } else {
      assert ids == [] && [] + c[s.tree[n].id].kids == c[s.tree[n].id].kids;
    }
  }
}
