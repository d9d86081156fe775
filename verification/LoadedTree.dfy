/** The nodes kept in memory, and how they mirror the part of the drive loaded so far. */
module LoadedTree {
  import opened Basics
  import opened CloudTree
  import opened CloudUpdates

  class Node {
    var id: Id
    var name: Name
    var folder: bool
    var filled: bool
    var next: seq<Node>
    var parent: Node?

    constructor (parent: Node?)
      ensures this.parent == parent && !filled && !folder && next == [] && id == "" && name == ""
    {
      id, name, folder, filled, next, this.parent := "", "", false, false, [], parent;
    }

    ghost function State(): NodeState
      reads this
    {
      NodeState(id, name, folder, filled, next, parent)
    }
  }

  datatype NodeState = NodeState(id: Id, name: Name, folder: bool, filled: bool, next: seq<Node>, parent: Node?)

  /** The fields of every live node. */
  type Tree = map<Node, NodeState>

  /** For every live node the ids met on the way down from the root, its own last. */
  type Lineage = map<Node, seq<Id>>

  /** The node shows what the drive says about its id; only folders are ever filled, unfilled ones hold nothing. */
  ghost predicate Shows(c: Cloud, t: Tree, root: Node, n: Node)
    requires n in t
  {
    && t[n].id in c && t[n].folder == c[t[n].id].folder && (n != root ==> t[n].name == c[t[n].id].name)
    && (if t[n].filled then t[n].folder else t[n].next == [])
  }

  /** Each owned node points back to its owner, extends its lineage and is listed under it by the drive. */
  ghost predicate Owns(c: Cloud, t: Tree, root: Node, at: Lineage, n: Node)
    requires n in t && t[n].id in c && at.Keys == t.Keys
  {
    && NoDup(t[n].next)
    && (forall m :: m in t[n].next ==>
          m in t && m != root && t[m].parent == n && at[m] == at[n] + [t[m].id] && t[m].id in c[t[n].id].kids)
  }

  /** A filled folder misses none of the entries the drive lists. */
  ghost predicate Complete(c: Cloud, t: Tree, n: Node)
    requires n in t && t[n].id in c
  {
    t[n].filled ==> forall k :: k in c[t[n].id].kids ==> Holds(t, n, k)
  }

  /** Every node but the root is owned by the node it names as its parent. */
  ghost predicate Attached(t: Tree, root: Node, n: Node)
    requires n in t
  {
    n != root ==> t[n].parent != null && t[n].parent in t && n in t[t[n].parent].next
  }

  ghost predicate NodeOk(c: Cloud, t: Tree, root: Node, at: Lineage, n: Node)
    requires n in t && at.Keys == t.Keys
  {
    Shows(c, t, root, n) && Owns(c, t, root, at, n) && Complete(c, t, n) && Attached(t, root, n)
  }

  ghost predicate Holds(t: Tree, n: Node, k: Id)
    requires n in t
  {
    exists m :: m in t[n].next && m in t && t[m].id == k
  }

  /** The first loaded child of that name. */
  ghost function Named(t: Tree, next: seq<Node>, x: Name): (r: Option<Node>)
    ensures r.Some? ==> r.value in next && r.value in t && t[r.value].name == x
    ensures r.None? ==> forall m :: m in next && m in t ==> t[m].name != x
  {
    if next == [] then None
    else if next[0] in t && t[next[0]].name == x then Some(next[0])
    else Named(t, next[1..], x)
  }

  /** In a filled folder a name finds the node of the entry that the drive's own listing finds. */
  ghost predicate Agrees(c: Cloud, t: Tree) {
    forall n, x :: n in t && t[n].filled ==> AgreesOn(c, t, n, x)
  }

  ghost predicate AgreesOn(c: Cloud, t: Tree, n: Node, x: Name)
    requires n in t
  {
    match Named(t, t[n].next, x)
    case None => Child(c, t[n].id, x) == None
    case Some(m) => Child(c, t[n].id, x) == Some(t[m].id)
  }

  ghost predicate SameId(t: Tree, n: Node, m: Node) {
    n in t && m in t && t[n].id == t[m].id
  }

  /**
   * The loaded nodes are a faithful partial expansion of the drive: a tree under the root, each node in
   * order, no id loaded twice; lineages grow along ownership, so there is no cycle.
   */
  ghost predicate Mirrors(c: Cloud, t: Tree, root: Node, at: Lineage) {
    && root in t && t[root].id == ROOT && t[root].parent == null
    && at.Keys == t.Keys && at[root] == []
    && (forall n, m {:trigger SameId(t, n, m)} :: n in t && m in t && SameId(t, n, m) ==> n == m)
    && (forall n {:trigger NodeOk(c, t, root, at, n)} :: n in t ==> NodeOk(c, t, root, at, n))
  }

  lemma IdsDiffer(c: Cloud, t: Tree, root: Node, at: Lineage, n: Node, m: Node)
    requires Mirrors(c, t, root, at) && n in t && m in t
    ensures t[n].id == t[m].id ==> n == m
  {
    hide NodeOk;
    assert SameId(t, n, m) == (t[n].id == t[m].id);
  }

  /** With unique sibling names the listing order does not matter. */
  lemma UniqueNamesAgree(c: Cloud, t: Tree, root: Node, at: Lineage)
    requires UniqueNames(c) && WellFormed(c) && Mirrors(c, t, root, at)
    ensures Agrees(c, t)
  {
    forall n, x | n in t && t[n].filled
      ensures AgreesOn(c, t, n, x)
    {
      assert NodeOk(c, t, root, at, n);
      var r := Named(t, t[n].next, x);
      if r.Some? {
        assert NodeOk(c, t, root, at, r.value);
        ChildIs(c, t[n].id, t[r.value].id);
      } else {
        NoNamedChild(c, t, root, at, n, x);
      }
    }
  }

  lemma NoNamedChild(c: Cloud, t: Tree, root: Node, at: Lineage, n: Node, x: Name)
    requires WellFormed(c) && Mirrors(c, t, root, at) && n in t && t[n].filled
    requires Named(t, t[n].next, x).None?
    ensures t[n].id in c && Child(c, t[n].id, x) == None
  {
    assert NodeOk(c, t, root, at, n);
    forall k | k in c[t[n].id].kids && k in c
      ensures c[k].name != x
    {
      assert Holds(t, n, k);
      var m :| m in t[n].next && m in t && t[m].id == k;
      assert NodeOk(c, t, root, at, m);
    }
  }

  // ---------- filling a folder ----------

  /** Tree u is t with the new nodes `news`, one for each listed id, put after whatever the folder n held before. */
  ghost predicate FilledFrom(c: Cloud, t: Tree, u: Tree, n: Node, news: seq<Node>) {
    && n in t && t[n].id in c
    && var kids := c[t[n].id].kids;
    && |news| == |kids| && NoDup(news) && (forall m :: m in news ==> m !in t)
    && u.Keys == t.Keys + (set m | m in news)
    && (forall m :: m in t ==>
          m in u && u[m] == if m == n then t[n].(filled := true, next := t[n].next + news) else t[m])
    && (forall a :: 0 <= a < |news| ==>
          kids[a] in c && news[a] in u &&
          u[news[a]] == NodeState(kids[a], c[kids[a]].name, c[kids[a]].folder, false, [], n))
  }

  ghost function LineageOf(at: Lineage, u: Tree, n: Node, news: seq<Node>): Lineage
    requires n in at && forall m :: m in news ==> m in u
  {
    at + map m | m in news :: at[n] + [u[m].id]
  }

  /** The children of an unfilled folder are not loaded anywhere else. */
  lemma UnfilledKidsAreNew(c: Cloud, t: Tree, root: Node, at: Lineage, n: Node, k: Id, m: Node)
    requires WellFormed(c) && Mirrors(c, t, root, at)
    requires n in t && !t[n].filled && t[n].id in c && k in c[t[n].id].kids && m in t
    ensures t[m].id != k
  {
    assert NodeOk(c, t, root, at, n);
    assert NodeOk(c, t, root, at, m);
    if t[m].id == k && m != root {
      assert NodeOk(c, t, root, at, t[m].parent);
      assert SameId(t, n, t[m].parent);
    }
  }

  lemma NewNodeOk(c: Cloud, t: Tree, u: Tree, root: Node, at: Lineage, n: Node, news: seq<Node>, m: Node)
    requires WellFormed(c) && Mirrors(c, t, root, at) && FilledFrom(c, t, u, n, news) && !t[n].filled && t[n].folder
    requires m in news
    ensures LineageOf(at, u, n, news).Keys == u.Keys && NodeOk(c, u, root, LineageOf(at, u, n, news), m)
  {
    hide WellFormed;
    var a :| 0 <= a < |news| && m == news[a];
  }

  lemma HoldsStays(t: Tree, u: Tree, n: Node, m: Node, k: Id)
    requires n in t && m in u && Holds(t, n, k)
    requires forall l :: l in t[n].next && l in t && t[l].id == k ==> l in u[m].next && l in u && u[l].id == k
    ensures Holds(u, m, k)
  {
    var l :| l in t[n].next && l in t && t[l].id == k;
    assert l in u[m].next;
  }

  lemma OldNodeOk(c: Cloud, t: Tree, u: Tree, root: Node, at: Lineage, n: Node, news: seq<Node>, m: Node)
    requires WellFormed(c) && Mirrors(c, t, root, at) && FilledFrom(c, t, u, n, news) && !t[n].filled && t[n].folder
    requires m in t && m != n
    ensures LineageOf(at, u, n, news).Keys == u.Keys && NodeOk(c, u, root, LineageOf(at, u, n, news), m)
  {
    hide WellFormed, Holds;
    assert NodeOk(c, t, root, at, m);
    assert NodeOk(c, t, root, at, n);
    if t[m].filled {
      forall k | k in c[t[m].id].kids
        ensures Holds(u, m, k)
      {
        HoldsStays(t, u, m, m, k);
      }
    }
  }

  lemma UnfilledHolds(c: Cloud, t: Tree, u: Tree, root: Node, at: Lineage, n: Node, news: seq<Node>)
    requires Mirrors(c, t, root, at) && FilledFrom(c, t, u, n, news) && !t[n].filled
    ensures n in u && u[n] == t[n].(filled := true, next := news) && t[n].next == []
  {
    assert NodeOk(c, t, root, at, n);
    assert [] + news == news;
  }

  lemma FilledOwns(c: Cloud, t: Tree, u: Tree, root: Node, at: Lineage, n: Node, news: seq<Node>)
    requires WellFormed(c) && Mirrors(c, t, root, at) && FilledFrom(c, t, u, n, news) && !t[n].filled && t[n].folder
    ensures LineageOf(at, u, n, news).Keys == u.Keys && n in u && u[n].id in c
    ensures Owns(c, u, root, LineageOf(at, u, n, news), n)
  {
    hide WellFormed;
    var kids := c[t[n].id].kids;
    UnfilledHolds(c, t, u, root, at, n, news);
    forall m | m in news
      ensures m in u && u[m].parent == n && u[m].id in kids && m != root
    {
      var a :| 0 <= a < |news| && m == news[a];
    }
  }

  lemma FilledNodeOk(c: Cloud, t: Tree, u: Tree, root: Node, at: Lineage, n: Node, news: seq<Node>)
    requires WellFormed(c) && Mirrors(c, t, root, at) && FilledFrom(c, t, u, n, news) && !t[n].filled && t[n].folder
    ensures LineageOf(at, u, n, news).Keys == u.Keys && NodeOk(c, u, root, LineageOf(at, u, n, news), n)
  {
    hide WellFormed, Owns, LineageOf;
    FilledOwns(c, t, u, root, at, n, news);
    UnfilledHolds(c, t, u, root, at, n, news);
    assert NodeOk(c, t, root, at, n);
    var kids := c[t[n].id].kids;
    forall k | k in kids
      ensures Holds(u, n, k)
    {
      var a :| 0 <= a < |kids| && k == kids[a];
      assert news[a] in u[n].next && u[news[a]].id == k;
    }
    if n != root {
      assert NodeOk(c, t, root, at, t[n].parent);
    }
  }

  lemma KidsOnce(c: Cloud, i: Id)
    requires WellFormed(c)
    ensures i in c ==> NoDup(c[i].kids)
  {
  }

  lemma FilledIdsDiffer(c: Cloud, t: Tree, u: Tree, root: Node, at: Lineage, n: Node, news: seq<Node>, l: Node, m: Node)
    requires WellFormed(c) && Mirrors(c, t, root, at) && FilledFrom(c, t, u, n, news) && !t[n].filled && t[n].folder
    requires SameId(u, l, m)
    ensures l == m
  {
    KidsOnce(c, t[n].id);
    hide WellFormed;
    var kids := c[t[n].id].kids;
    if l in t && m in t {
      assert SameId(t, l, m);
    } else if l in t {
      var b :| 0 <= b < |news| && m == news[b];
      UnfilledKidsAreNew(c, t, root, at, n, kids[b], l);
    } else if m in t {
      var a :| 0 <= a < |news| && l == news[a];
      UnfilledKidsAreNew(c, t, root, at, n, kids[a], m);
    } else {
      var a :| 0 <= a < |news| && l == news[a];
      var b :| 0 <= b < |news| && m == news[b];
      assert kids[a] == kids[b] && NoDup(kids);
    }
  }

  /** Filling an unfilled folder keeps the mirror, whatever the drive lists in it. */
  lemma FillMirrors(c: Cloud, t: Tree, u: Tree, root: Node, at: Lineage, n: Node, news: seq<Node>)
    requires WellFormed(c) && Mirrors(c, t, root, at) && FilledFrom(c, t, u, n, news) && !t[n].filled && t[n].folder
    ensures Mirrors(c, u, root, LineageOf(at, u, n, news))
  {
    hide WellFormed;
    forall m | m in u
      ensures LineageOf(at, u, n, news).Keys == u.Keys && NodeOk(c, u, root, LineageOf(at, u, n, news), m)
    {
      if m in news {
        NewNodeOk(c, t, u, root, at, n, news, m);
      } else if m == n {
        FilledNodeOk(c, t, u, root, at, n, news);
      } else {
        OldNodeOk(c, t, u, root, at, n, news, m);
      }
    }
    forall l, m | SameId(u, l, m)
      ensures l == m
    {
      FilledIdsDiffer(c, t, u, root, at, n, news, l, m);
    }
  }

  lemma {:induction false} NamedFollowsLookup(c: Cloud, u: Tree, news: seq<Node>, kids: seq<Id>, x: Name)
    requires |news| == |kids|
    requires forall a :: 0 <= a < |news| ==>
               kids[a] in c && news[a] in u && u[news[a]].id == kids[a] && u[news[a]].name == c[kids[a]].name
    ensures match Named(u, news, x)
            case None => Lookup(c, kids, x) == None
            case Some(m) => m in u && Lookup(c, kids, x) == Some(u[m].id)
  {
    if news != [] && u[news[0]].name != x {
      NamedFollowsLookup(c, u, news[1..], kids[1..], x);
    }
  }

  lemma NamedSame(t: Tree, u: Tree, next: seq<Node>, x: Name)
    requires forall m :: m in next ==> m in t && m in u && t[m].name == u[m].name
    ensures Named(u, next, x) == Named(t, next, x)
  {
  }

  /** A fresh listing finds the same child for every name, even where siblings share names. */
  lemma FillAgrees(c: Cloud, t: Tree, u: Tree, root: Node, at: Lineage, n: Node, news: seq<Node>)
    requires WellFormed(c) && Mirrors(c, t, root, at) && FilledFrom(c, t, u, n, news) && !t[n].filled && Agrees(c, t)
    ensures Agrees(c, u)
  {
    hide WellFormed;
    UnfilledHolds(c, t, u, root, at, n, news);
    forall m | m in news
      ensures !u[m].filled
    {
      var a :| 0 <= a < |news| && m == news[a];
    }
    forall m, x | m in u && u[m].filled
      ensures AgreesOn(c, u, m, x)
    {
      if m == n {
        NamedFollowsLookup(c, u, news, c[t[n].id].kids, x);
      } else if m in t {
        assert AgreesOn(c, t, m, x);
        assert NodeOk(c, t, root, at, m);
        NamedSame(t, u, t[m].next, x);
      }
    }
  }
}
