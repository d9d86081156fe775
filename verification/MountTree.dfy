/** Mount points as a tree of nodes linked both ways: where a walk leads, and what adding a branch does to it. */
module MountTree {
  import opened Basics

  datatype Listed = Listed(name: Name, id: Id)

  /** A mounted file system as its callers see it: what its root lists, and what a lookup finds. */
  datatype Fs = Fs(key: nat, entries: seq<Listed>, lookup: Path -> Option<Id>)

  class JoinedNode {
    const parent: JoinedNode?
    const name: Name
    var next: seq<JoinedNode>
    var fs: Option<Fs>

    constructor (parent: JoinedNode?, name: Name)
      ensures State() == Shape(parent, name, [], None)
    {
      this.parent, this.name, next, fs := parent, name, [], None;
    }

    ghost function State(): Shape
      reads this
    {
      Shape(parent, name, next, fs)
    }
  }

  datatype Shape = Shape(parent: JoinedNode?, name: Name, next: seq<JoinedNode>, fs: Option<Fs>)

  type Layout = map<JoinedNode, Shape>

  ghost predicate OwnedInside(t: Layout, root: JoinedNode) {
    && root in t && t[root].parent == null
    && forall n, m :: n in t && m in t[n].next ==> m in t && m != root
  }

  ghost function ChildrenOf(t: Layout, n: JoinedNode): seq<JoinedNode> {
    if n in t then t[n].next else []
  }

  ghost predicate Called(t: Layout, n: JoinedNode, name: Name) {
    n in t && t[n].name == name
  }

  /** The first of the nodes with that name. */
  ghost function First(t: Layout, ns: seq<JoinedNode>, name: Name): Option<JoinedNode> {
    if ns == [] then None else if Called(t, ns[0], name) then Some(ns[0]) else First(t, ns[1..], name)
  }

  /** Where a path leads, going down from the root. */
  ghost function WalkTo(t: Layout, root: JoinedNode, p: Path): Option<JoinedNode> {
    if p == [] then Some(root)
    else
      match WalkTo(t, root, p[..|p| - 1])
      case None => None
      case Some(n) => First(t, ChildrenOf(t, n), p[|p| - 1])
  }

  /** The file system mounted exactly at a path. */
  ghost function MountAt(t: Layout, root: JoinedNode, p: Path): Option<Fs> {
    match WalkTo(t, root, p)
    case None => None
    case Some(n) => if n in t then t[n].fs else None
  }

  lemma {:induction false} FirstIs(t: Layout, ns: seq<JoinedNode>, name: Name)
    ensures match First(t, ns, name)
            case None => forall n :: n in ns ==> !Called(t, n, name)
            case Some(n) => n in ns && Called(t, n, name)
  {
    if ns != [] { FirstIs(t, ns[1..], name); }
  }

  lemma {:induction false} FirstAppend(t: Layout, a: seq<JoinedNode>, b: seq<JoinedNode>, name: Name)
    ensures First(t, a + b, name) == if First(t, a, name).Some? then First(t, a, name) else First(t, b, name)
  {
    if a == [] {
      assert a + b == b;
    } else {
      assert (a + b)[1..] == a[1..] + b;
      FirstAppend(t, a[1..], b, name);
    }
  }

  lemma {:induction false} FirstSame(t: Layout, u: Layout, ns: seq<JoinedNode>, name: Name)
    requires forall n :: n in ns ==> (Called(t, n, name) <==> Called(u, n, name))
    ensures First(t, ns, name) == First(u, ns, name)
  {
    if ns != [] { FirstSame(t, u, ns[1..], name); }
  }

  lemma {:induction false} WalkInside(t: Layout, root: JoinedNode, p: Path)
    requires OwnedInside(t, root)
    ensures WalkTo(t, root, p).Some? ==> WalkTo(t, root, p).value in t
    ensures WalkTo(t, root, p) == Some(root) ==> p == []
  {
    if p != [] {
      WalkInside(t, root, p[..|p| - 1]);
      var up := WalkTo(t, root, p[..|p| - 1]);
      if up.Some? { FirstIs(t, ChildrenOf(t, up.value), p[|p| - 1]); }
    }
  }

  lemma {:induction false} WalkStops(t: Layout, root: JoinedNode, p: Path, k: nat, j: nat)
    requires k <= j <= |p| && WalkTo(t, root, p[..k]).None?
    ensures WalkTo(t, root, p[..j]).None?
  {
    if k < j {
      assert p[..j][..j - 1] == p[..j - 1];
      WalkStops(t, root, p, k, j - 1);
    }
  }

  // ---------- routing ----------

  /** Among the first k steps along p, mp is the deepest node with a mount, reached after `at` steps. */
  ghost predicate Deepest(t: Layout, root: JoinedNode, p: Path, k: nat, mp: JoinedNode?, at: nat) {
    && k <= |p|
    && (mp == null ==> forall j :: 0 <= j <= k ==> MountAt(t, root, p[..j]) == None)
    && (mp != null ==>
          && at <= k && WalkTo(t, root, p[..at]) == Some(mp) && MountAt(t, root, p[..at]).Some?
          && forall j :: at < j <= k ==> MountAt(t, root, p[..j]) == None)
  }

  lemma DeepestUnique(t: Layout, root: JoinedNode, p: Path, k: nat, a: JoinedNode?, i: nat, b: JoinedNode?, j: nat)
    requires Deepest(t, root, p, k, a, i) && Deepest(t, root, p, k, b, j)
    ensures a == b && (a != null ==> i == j)
  {
  }

  /** How many of the first k steps lead to the deepest mount point. */
  ghost function MountDepth(t: Layout, root: JoinedNode, p: Path, k: nat): (r: Option<nat>)
    requires k <= |p|
    ensures r.Some? ==> r.value <= k && MountAt(t, root, p[..r.value]).Some?
    ensures forall j :: (if r.Some? then r.value + 1 else 0) <= j <= k ==> MountAt(t, root, p[..j]) == None
  {
    if MountAt(t, root, p[..k]).Some? then Some(k) else if k == 0 then None else MountDepth(t, root, p, k - 1)
  }

  lemma DeepestDepth(t: Layout, root: JoinedNode, p: Path, k: nat, mp: JoinedNode?, at: nat)
    requires Deepest(t, root, p, k, mp, at)
    ensures MountDepth(t, root, p, k) == if mp == null then None else Some(at)
  {
  }

  /** Where the walk ends there is nothing deeper. */
  lemma DeepestStops(t: Layout, root: JoinedNode, p: Path, k: nat, mp: JoinedNode?, at: nat)
    requires Deepest(t, root, p, k, mp, at) && (k < |p| ==> WalkTo(t, root, p[..k + 1]) == None)
    ensures Deepest(t, root, p, |p|, mp, at)
  {
    forall j | k < j <= |p|
      ensures MountAt(t, root, p[..j]) == None
    {
      WalkStops(t, root, p, k + 1, j);
    }
  }

  // ---------- well-formed trees ----------

  ghost function PlaceOf(place: map<JoinedNode, Path>, n: JoinedNode): Path {
    if n in place then place[n] else []
  }

  ghost function StepsTo(place: map<JoinedNode, Path>, n: JoinedNode?): nat {
    if n == null then 0 else |PlaceOf(place, n)|
  }

  ghost predicate ChildOk(t: Layout, place: map<JoinedNode, Path>, n: JoinedNode, m: JoinedNode) {
    m in t && t[m].parent == n && PlaceOf(place, m) == PlaceOf(place, n) + [t[m].name]
  }

  ghost predicate ParentOk(t: Layout, n: JoinedNode) {
    n in t && t[n].parent != null && t[n].parent in t && n in t[t[n].parent].next
  }

  ghost predicate OwnPlaces(t: Layout, place: map<JoinedNode, Path>) {
    forall a, b :: a in t && b in t && PlaceOf(place, a) == PlaceOf(place, b) ==> a == b
  }

  /** Parent links and child lists agree, and every node has its own path. */
  ghost predicate Linked(t: Layout, root: JoinedNode, place: map<JoinedNode, Path>) {
    && OwnedInside(t, root) && PlaceOf(place, root) == [] && OwnPlaces(t, place)
    && (forall n, m :: n in t && m in t[n].next ==> ChildOk(t, place, n, m))
    && (forall n :: n in t && n != root ==> ParentOk(t, n))
  }

  /** In a well-formed tree a walk ends at the one node with that path. */
  lemma {:induction false} WalkIsPlace(t: Layout, root: JoinedNode, place: map<JoinedNode, Path>, p: Path)
    requires Linked(t, root, place)
    ensures match WalkTo(t, root, p)
            case Some(n) => n in t && PlaceOf(place, n) == p
            case None => forall n :: n in t ==> PlaceOf(place, n) != p
  {
    if p != [] {
      var up, name := p[..|p| - 1], p[|p| - 1];
      assert p == up + [name];
      WalkIsPlace(t, root, place, up);
      if WalkTo(t, root, up).Some? {
        FirstIs(t, ChildrenOf(t, WalkTo(t, root, up).value), name);
      }
      if WalkTo(t, root, p).None? {
        forall n | n in t
          ensures PlaceOf(place, n) != p
        {
          if n != root { ParentPlace(t, root, place, n); }
        }
      }
    }
  }

  lemma ParentPlace(t: Layout, root: JoinedNode, place: map<JoinedNode, Path>, n: JoinedNode)
    requires Linked(t, root, place) && n in t && (n != root || t[n].parent != null)
    ensures t[n].parent != null && t[n].parent in t && n in t[t[n].parent].next
    ensures var q := PlaceOf(place, n);
            q != [] && PlaceOf(place, t[n].parent) == q[..|q| - 1] && t[n].name == q[|q| - 1]
  {
    assert ParentOk(t, n) && ChildOk(t, place, t[n].parent, n);
  }

  // ---------- climbing ----------

  /** Going up the parent links along the path q, with no mount point passed. */
  ghost predicate Climbing(t: Layout, root: JoinedNode, place: map<JoinedNode, Path>, q: Path, upper: JoinedNode) {
    var u := PlaceOf(place, upper);
    && upper in t && |u| <= |q| && q[..|u|] == u
    && forall j :: |u| < j <= |q| ==> MountAt(t, root, q[..j]) == None
  }

  lemma ClimbStart(t: Layout, root: JoinedNode, place: map<JoinedNode, Path>, n: JoinedNode)
    requires Linked(t, root, place) && n in t && t[n].parent != null
    ensures PlaceOf(place, n) != []
    ensures Climbing(t, root, place, PlaceOf(place, n)[..|PlaceOf(place, n)| - 1], t[n].parent)
  {
    ParentPlace(t, root, place, n);
  }

  lemma ClimbFound(t: Layout, root: JoinedNode, place: map<JoinedNode, Path>, q: Path, upper: JoinedNode)
    requires Linked(t, root, place) && Climbing(t, root, place, q, upper) && t[upper].fs.Some?
    ensures Deepest(t, root, q, |q|, upper, |PlaceOf(place, upper)|)
  {
    WalkIsPlace(t, root, place, PlaceOf(place, upper));
  }

  lemma Unmounted(t: Layout, root: JoinedNode, place: map<JoinedNode, Path>, n: JoinedNode)
    requires Linked(t, root, place) && n in t && t[n].fs == None
    ensures MountAt(t, root, PlaceOf(place, n)) == None
  {
    WalkIsPlace(t, root, place, PlaceOf(place, n));
  }

  lemma ClimbUp(t: Layout, root: JoinedNode, place: map<JoinedNode, Path>, q: Path, upper: JoinedNode)
    requires Linked(t, root, place) && Climbing(t, root, place, q, upper) && t[upper].fs == None
    requires t[upper].parent != null
    ensures Climbing(t, root, place, q, t[upper].parent) && |PlaceOf(place, t[upper].parent)| < |PlaceOf(place, upper)|
  {
    hide Linked, WalkTo, PlaceOf, MountAt;
    var u := PlaceOf(place, upper);
    ParentPlace(t, root, place, upper);
    Unmounted(t, root, place, upper);
    assert q[..|u| - 1] == u[..|u| - 1];
  }

  /** A climb that ends without a mount point ends at the root. */
  lemma ClimbEnd(t: Layout, root: JoinedNode, place: map<JoinedNode, Path>, q: Path, upper: JoinedNode)
    requires Linked(t, root, place) && Climbing(t, root, place, q, upper) && t[upper].fs == None
    requires t[upper].parent == null
    ensures Deepest(t, root, q, |q|, null, 0)
  {
    assert upper != root ==> ParentOk(t, upper);
    assert q[..0] == [];
  }

  // ---------- adding a branch ----------

  /**
   * Adding a branch for a path: the walk gets as far as `base` after `depth` steps, and `made` holds one new node
   * per further component; the file system is mounted at `tip`, the last of them.
   */
  datatype Branch = Branch(path: Path, fs: Fs, depth: nat, base: JoinedNode, made: seq<JoinedNode>, tip: JoinedNode)

  ghost predicate Fits(t: Layout, root: JoinedNode, b: Branch) {
    && b.depth <= |b.path| && |b.made| == |b.path| - b.depth
    && WalkTo(t, root, b.path[..b.depth]) == Some(b.base)
    && (b.depth < |b.path| ==> WalkTo(t, root, b.path[..b.depth + 1]) == None)
    && (forall m :: m in b.made ==> m !in t)
    && b.tip == (if b.made == [] then b.base else b.made[|b.made| - 1])
  }

  /** All new nodes are listed under the root, whatever their parents. */
  ghost function OldShape(t: Layout, root: JoinedNode, b: Branch, n: JoinedNode): Shape
    requires n in t
  {
    t[n].(next := if n == root then t[root].next + b.made else t[n].next,
          fs := if n == b.tip then Some(b.fs) else t[n].fs)
  }

  ghost function NewShape(b: Branch, i: nat): Shape
    requires i < |b.made| && b.depth + i < |b.path|
  {
    Shape(if i == 0 then b.base else b.made[i - 1], b.path[b.depth + i], [],
          if b.made[i] == b.tip then Some(b.fs) else None)
  }

  ghost predicate NewOk(u: Layout, b: Branch, i: nat, mounted: bool) {
    i < |b.made| && b.depth + i < |b.path| ==>
      b.made[i] in u && u[b.made[i]] == if mounted then NewShape(b, i) else NewShape(b, i).(fs := None)
  }

  ghost predicate Branched(t: Layout, u: Layout, root: JoinedNode, b: Branch) {
    && Fits(t, root, b) && u.Keys == t.Keys + (set m | m in b.made)
    && (forall n :: n in t ==> u[n] == OldShape(t, root, b, n))
    && (forall i: nat :: NewOk(u, b, i, true))
  }

  // ---------- the branch while it grows ----------

  /** A node of the old tree while new ones are being added to the root's list. */
  ghost function Listing(t: Layout, root: JoinedNode, made: seq<JoinedNode>, n: JoinedNode): Shape
    requires n in t
  {
    t[n].(next := if n == root then t[n].next + made else t[n].next)
  }

  /** The branch for the part of the path walked so far, with nothing mounted yet. */
  ghost predicate Growing(t: Layout, u: Layout, root: JoinedNode, b: Branch) {
    && Fits(t, root, b) && u.Keys == t.Keys + (set m | m in b.made)
    && (forall n :: n in t ==> u[n] == Listing(t, root, b.made, n))
    && (forall i: nat :: NewOk(u, b, i, false))
  }

  lemma GrowStart(t: Layout, root: JoinedNode, fs: Fs)
    requires OwnedInside(t, root)
    ensures Growing(t, t, root, Branch([], fs, 0, root, [], root))
  {
  }

  lemma GrowInside(t: Layout, u: Layout, root: JoinedNode, b: Branch)
    requires OwnedInside(t, root) && Growing(t, u, root, b)
    ensures b.base in t && b.tip in u && root in u && (forall m :: m in b.made ==> m in u && m !in t && u[m].next == [])
    ensures b.made != [] ==> u[b.tip].next == []
    ensures b.made == [] ==> u == t && b.depth == |b.path| && b.tip == b.base && WalkTo(t, root, b.path) == Some(b.tip)
  {
    WalkInside(t, root, b.path[..b.depth]);
    assert b.path[..|b.path|] == b.path;
    if b.made == [] {
      forall n | n in t
        ensures u[n] == t[n]
      {
        assert t[n].next + b.made == t[n].next;
      }
    }
    forall m | m in b.made
      ensures m in u && u[m].next == []
    {
      var i: nat :| i < |b.made| && b.made[i] == m;
      assert NewOk(u, b, i, false);
    }
  }

  lemma GrowClosed(t: Layout, u: Layout, root: JoinedNode, b: Branch)
    requires OwnedInside(t, root) && Growing(t, u, root, b)
    ensures OwnedInside(u, root)
  {
    GrowInside(t, u, root, b);
    hide Fits, NewShape;
    forall n, m | n in u && m in u[n].next
      ensures m in u && m != root
    {
      if n in t { assert u[n] == Listing(t, root, b.made, n); }
    }
  }

  lemma GrowDown(t: Layout, u: Layout, root: JoinedNode, b: Branch, x: Name, c: JoinedNode)
    requires OwnedInside(t, root) && Growing(t, u, root, b) && First(u, ChildrenOf(u, b.tip), x) == Some(c)
    ensures Growing(t, u, root, Branch(b.path + [x], b.fs, b.depth + 1, c, [], c))
  {
    GrowInside(t, u, root, b);
    var p := b.path + [x];
    assert p[..|p|] == p && p[..|p| - 1] == b.path;
  }

  ghost function Appended(u: Layout, root: JoinedNode, parent: JoinedNode, x: Name, n: JoinedNode): Layout
    requires root in u
  {
    u[root := u[root].(next := u[root].next + [n])][n := Shape(parent, x, [], None)]
  }

  ghost function Extended(b: Branch, x: Name, n: JoinedNode): Branch {
    Branch(b.path + [x], b.fs, b.depth, b.base, b.made + [n], n)
  }

  lemma GrowNewShape(t: Layout, u: Layout, root: JoinedNode, b: Branch, x: Name, n: JoinedNode, i: nat)
    requires root in t && root in u && Growing(t, u, root, b) && n !in u
    ensures NewOk(Appended(u, root, b.tip, x, n), Extended(b, x, n), i, false)
  {
    hide OwnedInside, First, WalkTo;
    if i < |b.made| {
      assert b.made[i] in b.made && NewOk(u, b, i, false);
    }
  }

  lemma GrowOldShape(t: Layout, u: Layout, root: JoinedNode, b: Branch, x: Name, n: JoinedNode, k: JoinedNode)
    requires root in t && root in u && Growing(t, u, root, b) && n !in u && k in t
    ensures k in Appended(u, root, b.tip, x, n)
    ensures Appended(u, root, b.tip, x, n)[k] == Listing(t, root, b.made + [n], k)
  {
    hide Fits, NewShape;
    assert u[k] == Listing(t, root, b.made, k);
    assert t[k].next + b.made + [n] == t[k].next + (b.made + [n]);
  }

  lemma GrowNew(t: Layout, u: Layout, root: JoinedNode, b: Branch, x: Name, n: JoinedNode)
    requires OwnedInside(t, root) && Growing(t, u, root, b) && First(u, ChildrenOf(u, b.tip), x) == None
    requires n !in u && root in u
    ensures Growing(t, Appended(u, root, b.tip, x, n), root, Extended(b, x, n))
  {
    GrowFits(t, u, root, b, x, n);
    var v, d := Appended(u, root, b.tip, x, n), Extended(b, x, n);
    assert d.made == b.made + [n] && v.Keys == t.Keys + set m | m in d.made;
    hide Fits, OwnedInside, First, NewOk, Appended, Extended;
    forall i: nat
      ensures NewOk(v, d, i, false)
    {
      GrowNewShape(t, u, root, b, x, n, i);
    }
    forall k | k in t
      ensures v[k] == Listing(t, root, d.made, k)
    {
      GrowOldShape(t, u, root, b, x, n, k);
    }
  }

  lemma GrowFits(t: Layout, u: Layout, root: JoinedNode, b: Branch, x: Name, n: JoinedNode)
    requires OwnedInside(t, root) && Growing(t, u, root, b) && First(u, ChildrenOf(u, b.tip), x) == None && n !in u
    ensures Fits(t, root, Extended(b, x, n))
  {
    GrowInside(t, u, root, b);
    var p := b.path + [x];
    assert p[..b.depth] == b.path[..b.depth];
    if b.made == [] {
      assert p[..b.depth + 1] == p && p[..|p| - 1] == b.path;
    } else {
      assert p[..b.depth + 1] == b.path[..b.depth + 1];
    }
  }

  lemma GrowMount(t: Layout, u: Layout, v: Layout, root: JoinedNode, b: Branch)
    requires Growing(t, u, root, b) && b.tip in u && v == u[b.tip := u[b.tip].(fs := Some(b.fs))]
    ensures Branched(t, v, root, b)
  {
    hide WalkTo;
    forall n | n in t
      ensures v[n] == OldShape(t, root, b, n)
    {
      assert u[n] == Listing(t, root, b.made, n);
    }
    forall i: nat
      ensures NewOk(v, b, i, true)
    {
      assert NewOk(u, b, i, false);
    }
  }

  // ---------- what the finished branch changes ----------

  lemma BranchedOld(t: Layout, u: Layout, root: JoinedNode, b: Branch, n: JoinedNode)
    requires Branched(t, u, root, b) && n in t
    ensures n in u && u[n] == OldShape(t, root, b, n)
  {
  }

  lemma BranchedNew(t: Layout, u: Layout, root: JoinedNode, b: Branch, m: JoinedNode)
    requires Branched(t, u, root, b) && m in b.made
    ensures m in u && m !in t && u[m].next == []
  {
    var i: nat :| i < |b.made| && b.made[i] == m;
    assert NewOk(u, b, i, true);
  }

  lemma BranchedChildren(t: Layout, u: Layout, root: JoinedNode, b: Branch, n: JoinedNode, x: Name)
    requires OwnedInside(t, root) && Branched(t, u, root, b) && n in t
    ensures First(u, ChildrenOf(u, n), x) ==
            if First(t, ChildrenOf(t, n), x).Some? then First(t, ChildrenOf(t, n), x)
            else if n == root then First(u, b.made, x) else None
  {
    BranchedOld(t, u, root, b, n);
    forall m | m in t[n].next
      ensures Called(t, m, x) <==> Called(u, m, x)
    {
      BranchedOld(t, u, root, b, m);
    }
    hide Branched;
    FirstSame(t, u, t[n].next, x);
    FirstAppend(u, t[n].next, b.made, x);
  }

  /** Exactly how the walks change: old ones stay, and the new nodes are found directly below the root only. */
  lemma {:induction false} BranchWalks(t: Layout, u: Layout, root: JoinedNode, b: Branch, q: Path)
    requires OwnedInside(t, root) && Branched(t, u, root, b)
    ensures WalkTo(u, root, q) ==
            if WalkTo(t, root, q).Some? then WalkTo(t, root, q) else if |q| == 1 then First(u, b.made, q[0]) else None
    decreases |q|
  {
    hide Branched, OwnedInside;
    if q != [] {
      var up, x := q[..|q| - 1], q[|q| - 1];
      BranchWalks(t, u, root, b, up);
      WalkInside(t, root, up);
      if WalkTo(t, root, up).Some? {
        BranchedChildren(t, u, root, b, WalkTo(t, root, up).value, x);
      } else if |up| == 1 && First(u, b.made, up[0]).Some? {
        FirstIs(u, b.made, up[0]);
        BranchedNew(t, u, root, b, First(u, b.made, up[0]).value);
      }
    }
  }

  /** The mounted node is found at its path if it was there already or the path has one component; never otherwise. */
  lemma BranchReached(t: Layout, u: Layout, root: JoinedNode, b: Branch)
    requires OwnedInside(t, root) && Branched(t, u, root, b)
    ensures WalkTo(u, root, b.path) == Some(b.tip) <==> WalkTo(t, root, b.path).Some? || |b.path| <= 1
  {
    BranchWalks(t, u, root, b, b.path);
    if |b.path| == 1 && b.depth == 0 { SingleMade(t, u, root, b); }
    FitsPath(t, root, b);
    hide Branched, WalkTo, OwnedInside, First;
  }

  lemma FitsPath(t: Layout, root: JoinedNode, b: Branch)
    requires OwnedInside(t, root) && Fits(t, root, b)
    ensures b.depth == |b.path| ==> b.made == [] && WalkTo(t, root, b.path) == Some(b.tip)
    ensures b.depth < |b.path| ==> WalkTo(t, root, b.path) == None
    ensures b.depth <= |b.path| && (b.path == [] ==> b.depth == 0)
  {
    assert b.path[..|b.path|] == b.path;
    if b.depth < |b.path| { WalkStops(t, root, b.path, b.depth + 1, |b.path|); }
  }

  lemma SingleMade(t: Layout, u: Layout, root: JoinedNode, b: Branch)
    requires Branched(t, u, root, b) && |b.path| == 1 && b.depth == 0
    ensures b.base == root && b.made == [b.tip] && b.tip in u && b.tip !in t
    ensures u[b.tip] == Shape(root, b.path[0], [], Some(b.fs))
    ensures forall x :: First(u, b.made, x) == if x == b.path[0] then Some(b.tip) else None
  {
    assert NewOk(u, b, 0, true);
    assert b.made[1..] == [];
  }

  lemma BranchClosed(t: Layout, u: Layout, root: JoinedNode, b: Branch)
    requires OwnedInside(t, root) && Branched(t, u, root, b)
    ensures OwnedInside(u, root)
  {
    BranchedOld(t, u, root, b, root);
    forall n, m | n in u && m in u[n].next
      ensures m in u && m != root
    {
      if n in t {
        BranchedOld(t, u, root, b, n);
        if m !in t[n].next { BranchedNew(t, u, root, b, m); }
      } else {
        BranchedNew(t, u, root, b, n);
      }
    }
  }

  /** A mount point of at most one component adds exactly that mount. */
  lemma ShallowMounts(t: Layout, u: Layout, root: JoinedNode, place: map<JoinedNode, Path>, b: Branch, q: Path)
    requires Linked(t, root, place) && Branched(t, u, root, b) && |b.path| <= 1
    ensures MountAt(u, root, q) == if q == b.path then Some(b.fs) else MountAt(t, root, q)
  {
    WalkIsPlace(t, root, place, q);
    WalkIsPlace(t, root, place, b.path);
    BranchWalks(t, u, root, b, q);
    BranchReached(t, u, root, b);
    WalkInside(t, root, q);
    if WalkTo(t, root, q).Some? { BranchedOld(t, u, root, b, WalkTo(t, root, q).value); }
    ShallowTip(t, u, root, b);
    hide Branched, WalkTo, OwnedInside, Linked;
    if |q| == 1 { assert q == [q[0]]; }
  }

  lemma ShallowTip(t: Layout, u: Layout, root: JoinedNode, b: Branch)
    requires OwnedInside(t, root) && Branched(t, u, root, b) && |b.path| <= 1
    ensures b.tip in u && u[b.tip].fs == Some(b.fs)
    ensures b.depth == |b.path| ==> b.tip == b.base && b.base in t && b.made == []
    ensures b.depth < |b.path| ==>
              && b.path == [b.path[0]] && WalkTo(t, root, b.path) == None
              && forall x :: First(u, b.made, x) == if x == b.path[0] then Some(b.tip) else None
    ensures b.depth == |b.path| ==> WalkTo(t, root, b.path) == Some(b.tip) && forall x :: First(u, b.made, x) == None
  {
    assert b.path[..|b.path|] == b.path;
    if b.depth < |b.path| {
      SingleMade(t, u, root, b);
    } else {
      WalkInside(t, root, b.path);
      BranchedOld(t, u, root, b, b.base);
    }
  }

  ghost function NewPlaces(place: map<JoinedNode, Path>, b: Branch): map<JoinedNode, Path> {
    if b.made == [] then place else place[b.tip := b.path]
  }

  /** The tree u is t with one more child of the root, in a place of its own. */
  ghost predicate OneMore(t: Layout, u: Layout, root: JoinedNode, place: map<JoinedNode, Path>, b: Branch) {
    && |b.path| == 1 && b.made == [b.tip] && b.tip !in t && root in t
    && u.Keys == t.Keys + {b.tip} && u[b.tip] == Shape(root, b.path[0], [], Some(b.fs))
    && (forall n :: n in t ==> u[n] == OldShape(t, root, b, n))
    && (forall n :: n in t ==> PlaceOf(place, n) != b.path)
  }

  lemma OneMoreChild(t: Layout, u: Layout, root: JoinedNode, place: map<JoinedNode, Path>, b: Branch, n: JoinedNode,
                     m: JoinedNode)
    requires Linked(t, root, place) && OneMore(t, u, root, place, b) && n in u && m in u[n].next
    ensures ChildOk(u, place[b.tip := b.path], n, m)
  {
    assert n in t ==> u[n] == OldShape(t, root, b, n);
    assert n in t && m in t[n].next ==> ChildOk(t, place, n, m) && u[m] == OldShape(t, root, b, m);
    assert b.path == [b.path[0]];
  }

  lemma OneMoreParent(t: Layout, u: Layout, root: JoinedNode, place: map<JoinedNode, Path>, b: Branch, n: JoinedNode)
    requires Linked(t, root, place) && OneMore(t, u, root, place, b) && n in u && n != root
    ensures ParentOk(u, n)
  {
    assert u[root] == OldShape(t, root, b, root);
    if n in t {
      assert ParentOk(t, n);
      assert u[n] == OldShape(t, root, b, n) && u[t[n].parent] == OldShape(t, root, b, t[n].parent);
    }
  }

  lemma OneMorePlace(t: Layout, u: Layout, root: JoinedNode, place: map<JoinedNode, Path>, b: Branch)
    requires OwnPlaces(t, place) && OneMore(t, u, root, place, b)
    ensures OwnPlaces(u, place[b.tip := b.path])
  {
    hide OldShape;
    var places := place[b.tip := b.path];
    assert forall n :: n in t ==> PlaceOf(places, n) == PlaceOf(place, n);
  }

  lemma OneMoreLinked(t: Layout, u: Layout, root: JoinedNode, place: map<JoinedNode, Path>, b: Branch)
    requires Linked(t, root, place) && OwnedInside(u, root) && OneMore(t, u, root, place, b)
    ensures Linked(u, root, place[b.tip := b.path])
  {
    OneMorePlace(t, u, root, place, b);
    forall n, m | n in u && m in u[n].next
      ensures ChildOk(u, place[b.tip := b.path], n, m)
    {
      OneMoreChild(t, u, root, place, b, n, m);
    }
    forall n | n in u && n != root
      ensures ParentOk(u, n)
    {
      OneMoreParent(t, u, root, place, b, n);
    }
    hide OwnedInside, OwnPlaces, ChildOk, ParentOk;
  }

  lemma OneMoreFits(t: Layout, u: Layout, root: JoinedNode, place: map<JoinedNode, Path>, b: Branch)
    requires Linked(t, root, place) && Branched(t, u, root, b) && |b.path| == 1 && b.depth == 0
    ensures OneMore(t, u, root, place, b)
  {
    SingleMade(t, u, root, b);
    WalkIsPlace(t, root, place, b.path);
    assert b.path[..1] == b.path;
  }

  lemma SameShapeLinked(t: Layout, u: Layout, root: JoinedNode, place: map<JoinedNode, Path>, b: Branch)
    requires Linked(t, root, place) && Branched(t, u, root, b) && b.made == []
    ensures Linked(u, root, place)
  {
    BranchClosed(t, u, root, b);
    forall n | n in t
      ensures n in u && u[n].parent == t[n].parent && u[n].name == t[n].name && u[n].next == t[n].next
    {
      BranchedOld(t, u, root, b, n);
      assert t[n].next + b.made == t[n].next;
    }
    assert u.Keys == t.Keys;
    hide Branched, OwnedInside, Linked;
    SameLinksLinked(t, u, root, place);
  }

  ghost predicate SameLinks(t: Layout, u: Layout) {
    && t.Keys == u.Keys
    && forall n :: n in t ==> u[n].parent == t[n].parent && u[n].name == t[n].name && u[n].next == t[n].next
  }

  lemma SameLinksLinked(t: Layout, u: Layout, root: JoinedNode, place: map<JoinedNode, Path>)
    requires Linked(t, root, place) && OwnedInside(u, root) && SameLinks(t, u)
    ensures Linked(u, root, place)
  {
    forall n, m | n in u && m in u[n].next
      ensures ChildOk(u, place, n, m)
    {
      assert ChildOk(t, place, n, m);
    }
    forall n | n in u && n != root
      ensures ParentOk(u, n)
    {
      assert ParentOk(t, n);
    }
  }

  /** A mount point of at most one component keeps the tree well-formed. */
  lemma ShallowLinked(t: Layout, u: Layout, root: JoinedNode, place: map<JoinedNode, Path>, b: Branch)
    requires Linked(t, root, place) && Branched(t, u, root, b) && |b.path| <= 1
    ensures Linked(u, root, NewPlaces(place, b))
  {
    hide Linked;
    if b.made == [] {
      SameShapeLinked(t, u, root, place, b);
    } else {
      OneMoreFits(t, u, root, place, b);
      ClosedOf(t, root, place);
      BranchClosed(t, u, root, b);
      OneMoreLinked(t, u, root, place, b);
    }
  }

  lemma ClosedOf(t: Layout, root: JoinedNode, place: map<JoinedNode, Path>)
    requires Linked(t, root, place)
    ensures OwnedInside(t, root)
  {
  }

  // ---------- several mounts ----------

  datatype Mount = Mount(path: Path, fs: Fs)

  /** The file system mounted last at each path. */
  ghost function Table(mounts: seq<Mount>): map<Path, Fs> {
    if mounts == [] then map[] else Table(mounts[..|mounts| - 1])[mounts[|mounts| - 1].path := mounts[|mounts| - 1].fs]
  }

  ghost predicate LastAt(mounts: seq<Mount>, i: int) {
    0 <= i < |mounts| && forall j :: i < j < |mounts| ==> mounts[j].path != mounts[i].path
  }

  /** Of several mounts on one path the last one counts. */
  lemma {:induction false} TableIs(mounts: seq<Mount>, p: Path)
    ensures p in Table(mounts) <==> exists i :: LastAt(mounts, i) && mounts[i].path == p
    ensures forall i :: LastAt(mounts, i) && mounts[i].path == p ==> Table(mounts)[p] == mounts[i].fs
  {
    if mounts != [] {
      var n := |mounts| - 1;
      TableIs(mounts[..n], p);
      assert LastAt(mounts, n);
      forall i | LastAt(mounts[..n], i) && mounts[i].path != mounts[n].path
        ensures LastAt(mounts, i)
      {
      }
    }
  }

  ghost predicate Carries(t: Layout, root: JoinedNode, table: map<Path, Fs>) {
    forall q :: MountAt(t, root, q) == if q in table then Some(table[q]) else None
  }

  lemma CarriesOneMore(t: Layout, u: Layout, root: JoinedNode, place: map<JoinedNode, Path>, b: Branch,
                       table: map<Path, Fs>)
    requires Linked(t, root, place) && Branched(t, u, root, b) && |b.path| <= 1 && Carries(t, root, table)
    ensures Carries(u, root, table[b.path := b.fs])
  {
    hide Linked, Branched, MountAt;
    forall q
      ensures MountAt(u, root, q) == if q in table[b.path := b.fs] then Some(table[b.path := b.fs][q]) else None
    {
      ShallowMounts(t, u, root, place, b, q);
    }
  }

  /** The longest path in the table that p goes through. */
  ghost predicate LongestIn(table: map<Path, Fs>, p: Path, q: Path) {
    q in table && q <= p && forall r :: r in table && r <= p ==> |r| <= |q|
  }

  /** On the table, the deepest mount point is the longest prefix. */
  lemma DeepestIsLongest(t: Layout, root: JoinedNode, table: map<Path, Fs>, p: Path, mp: JoinedNode?, at: nat)
    requires Carries(t, root, table) && Deepest(t, root, p, |p|, mp, at)
    ensures mp == null ==> forall r :: r in table ==> !(r <= p)
    ensures mp != null ==> LongestIn(table, p, p[..at])
  {
    forall r | r in table && r <= p
      ensures mp != null && |r| <= at
    {
      assert p[..|r|] == r && MountAt(t, root, r).Some?;
    }
  }
}
