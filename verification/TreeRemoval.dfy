/** Removing loaded subtrees: what disappears, in which order, and what the drive is left with. */
module TreeRemoval {
  import opened Basics
  import opened CloudTree
  import opened CloudUpdates
  import opened LoadedTree
  import opened TreeUpdates
  import opened NodeCache
  import opened Loading

  /** What reaches the drive, the local store and the subscribers, and nodes freed by a refill, in order. */
  datatype Event = RemoteRemoved(id: Id) | LocalDeleted(id: Id) | Notified(id: Id) | Cleared(id: Id)

  /** Enough structure to remove nodes; names may clash for a moment, and the cache may say anything. */
  ghost predicate Structured(c: Cloud, root: Node, s: Snapshot) {
    WellFormed(c) && Mirrors(c, s.tree, root, s.at)
  }

  lemma StructuredKeys(c: Cloud, root: Node, s: Snapshot)
    requires Structured(c, root, s)
    ensures s.at.Keys == s.tree.Keys && WellFormed(c) && Mirrors(c, s.tree, root, s.at)
  {
  }

  /** The node and everything it owns, directly or not. */
  ghost function Subtree(at: Lineage, n: Node): set<Node>
    requires n in at
  {
    set k | k in at && at[n] <= at[k]
  }

  /** State u is s without the nodes in `gone`; only n lost children. */
  ghost predicate Cut(s: Snapshot, u: Snapshot, gone: set<Node>, n: Node, rest: seq<Node>) {
    && u.tree == (map k | k in s.tree && k !in gone :: if k == n then s.tree[k].(next := rest) else s.tree[k])
    && u.at == s.at - gone
  }

  /** The requests and notifications for one removed node. */
  ghost function Farewell(s: NodeState): seq<Event> {
    [RemoteRemoved(s.id)] + (if s.folder then [] else [LocalDeleted(s.id)]) + [Notified(s.id)]
  }

  ghost function Trace(t: Tree, order: seq<Node>): seq<Event>
    requires forall k :: k in order ==> k in t
  {
    if order == [] then [] else Trace(t, order[..|order| - 1]) + Farewell(t[order[|order| - 1]])
  }

  /** Each of the nodes once, no node before anything it owns. */
  ghost predicate PostOrder(at: Lineage, order: seq<Node>, nodes: set<Node>) {
    && NoDup(order) && (forall k :: k in order ==> k in nodes) && (forall k :: k in nodes ==> k in order)
    && (forall k :: k in order ==> k in at)
    && (forall a, b :: 0 <= a < b < |order| ==> !(at[order[a]] <= at[order[b]]))
  }

  /** In memory and on the drive, what lies below a node is what its lineage starts. */
  lemma {:induction false} BelowLineage(c: Cloud, t: Tree, root: Node, at: Lineage, m: Node, k: Node)
    requires WellFormed(c) && Mirrors(c, t, root, at) && m in t && k in t
    requires t[m].id in c && t[k].id in Below(c, t[m].id)
    ensures at[m] <= at[k]
    decreases |at[k]|
  {
    IdsDiffer(c, t, root, at, m, k);
    if k != m {
      BelowEntered(c, t[m].id, t[k].id);
      var j :| j in Below(c, t[m].id) && t[k].id in c[j].kids;
      NobodysChild(c, ROOT);
      assert k != root;
      LineageEnds(c, t, root, at, k);
      OwnedNode(c, t, root, at, t[k].parent, k);
      assert Attached(t, root, k) by { assert NodeOk(c, t, root, at, k); }
      BelowLineage(c, t, root, at, m, t[k].parent);
    }
  }

  /** Anything strictly below a node is in the subtree of one of its children. */
  lemma {:induction false} BelowAChild(c: Cloud, t: Tree, root: Node, at: Lineage, n: Node, k: Node)
    requires Mirrors(c, t, root, at) && n in t && k in t && StrictlyBelow(at[n], at[k])
    ensures exists m :: m in t[n].next && m in at && at[m] <= at[k]
    decreases |at[k]|
  {
    LineageEnds(c, t, root, at, k);
    var p: Node := t[k].parent;
    assert NodeOk(c, t, root, at, k);
    PrefixOfSnoc(at[n], at[p], t[k].id);
    if at[p] == at[n] {
      LineageInjective(c, t, root, at, p, n);
      assert k in t[n].next && at[k] <= at[k];
    } else {
      BelowAChild(c, t, root, at, n, p);
      var m :| m in t[n].next && m in at && at[m] <= at[p];
      PrefixTransitive(at[m], at[p], at[k]);
    }
  }

  lemma ChildLineage(c: Cloud, t: Tree, root: Node, at: Lineage, n: Node, m: Node)
    requires Mirrors(c, t, root, at) && n in t && m in t[n].next
    ensures m in t && m in at && at[m] == at[n] + [t[m].id] && t[n].id in c && t[m].id in c
    ensures t[m].id in c[t[n].id].kids
    ensures m != root && m != n && t[m].parent == n
  {
    assert NodeOk(c, t, root, at, n);
    assert NodeOk(c, t, root, at, m);
  }

  lemma SiblingsApart(c: Cloud, t: Tree, root: Node, at: Lineage, n: Node, l: Node, m: Node, k: Node)
    requires Mirrors(c, t, root, at) && n in t && l in t[n].next && m in t[n].next && l != m && k in at
    ensures l in at && m in at && !(at[l] <= at[k] && at[m] <= at[k])
  {
    ChildLineage(c, t, root, at, n, l);
    ChildLineage(c, t, root, at, n, m);
    IdsDiffer(c, t, root, at, l, m);
    assert at[l][|at[n]|] == t[l].id && at[m][|at[n]|] == t[m].id;
  }

  /** The drive cannot delete a loaded node along with one of its loaded children. */
  lemma ParentOutside(c: Cloud, t: Tree, root: Node, at: Lineage, n: Node, m: Node)
    requires WellFormed(c) && Mirrors(c, t, root, at) && n in t && m in t[n].next
    ensures m in t && t[m].id in c && t[n].id in c && t[n].id !in Below(c, t[m].id)
    ensures t[m].id in Below(c, t[n].id) && t[m].id != t[n].id
  {
    ChildLineage(c, t, root, at, n, m);
    IdsDiffer(c, t, root, at, n, m);
    if t[n].id in Below(c, t[m].id) {
      BelowLineage(c, t, root, at, m, n);
    }
  }

  ghost predicate NoDeeper(at: Lineage, bound: nat) {
    forall k :: k in at ==> |at[k]| <= bound
  }

  lemma NoDeeperAt(at: Lineage, less: Lineage, bound: nat, k: Node)
    requires NoDeeper(at, bound) && k in less && forall l :: l in less ==> l in at && at[l] == less[l]
    ensures NoDeeper(less, bound) && |less[k]| <= bound
  {
  }

  lemma SubtreeSame(at: Lineage, less: Lineage, n: Node, k: Node)
    requires n in at && n in less && forall l :: l in less ==> l in at && at[l] == less[l]
    ensures k in less ==> (k in Subtree(less, n) <==> k in Subtree(at, n))
  {
  }

  lemma SubtreeShrinks(at: Lineage, less: Lineage, n: Node)
    requires n in at && n in less && forall k :: k in less ==> k in at && at[k] == less[k]
    ensures Subtree(less, n) <= Subtree(at, n) && Subtree(less, n) <= less.Keys && n in Subtree(less, n)
  {
  }

  // ---------- one childless node ----------

  lemma LeafCut(c: Cloud, root: Node, s: Snapshot, m: Node)
    requires Structured(c, root, s) && m in s.tree && m != root && s.tree[m].next == []
    ensures s.tree[m].parent != null && s.tree[m].parent in s.tree && s.tree[m].id in c
    ensures var u := Snapshot(LeafDropped(s.tree, m), s.at - {m}, Purged(s.maps, m, s.tree[m].id));
            && Structured(Removed(c, s.tree[m].id), root, u)
            && Cut(s, u, {m}, s.tree[m].parent, Without(s.tree[s.tree[m].parent].next, m))
  {
    hide WellFormed, NodeOk, Removed, Purged, Cut;
    LineageEnds(c, s.tree, root, s.at, m);
    assert s.tree[m].parent != m;
    LeafMirrors(c, s.tree, root, s.at, m);
    IdsDiffer(c, s.tree, root, s.at, m, root);
    RemovedWellFormed(c, s.tree[m].id);
    LeafCutOnly(s, m);
  }

  lemma LeafCutOnly(s: Snapshot, m: Node)
    requires m in s.tree && s.tree[m].parent != null && s.tree[m].parent in s.tree && s.tree[m].parent != m
    ensures Cut(s, Snapshot(LeafDropped(s.tree, m), s.at - {m}, Purged(s.maps, m, s.tree[m].id)),
                {m}, s.tree[m].parent, Without(s.tree[s.tree[m].parent].next, m))
  {
  }

  // ---------- composing removals ----------

  lemma CutMeans(s: Snapshot, u: Snapshot, gone: set<Node>, n: Node, rest: seq<Node>)
    requires Cut(s, u, gone, n, rest) && n in s.tree && n !in gone && s.at.Keys == s.tree.Keys
    ensures u.at.Keys == u.tree.Keys == s.tree.Keys - gone
    ensures forall k :: k in u.tree ==>
              k in s.tree && k !in gone && u.at[k] == s.at[k] &&
              u.tree[k] == if k == n then s.tree[n].(next := rest) else s.tree[k]
  {
  }

  /** First everything below m, then m itself. */
  lemma CutThenLeaf(s: Snapshot, u: Snapshot, v: Snapshot, m: Node, n: Node)
    requires m in s.tree && n in s.tree && m != n && s.at.Keys == s.tree.Keys && m in s.tree[n].next
    requires !(s.at[m] <= s.at[n])
    requires Cut(s, u, Subtree(s.at, m) - {m}, m, [])
    requires Cut(u, v, {m}, n, Without(s.tree[n].next, m))
    ensures Cut(s, v, Subtree(s.at, m), n, Without(s.tree[n].next, m))
  {
    var gone := Subtree(s.at, m) - {m};
    assert m in Subtree(s.at, m);
    assert gone + {m} == Subtree(s.at, m);
    assert v.at == s.at - Subtree(s.at, m);
  }

  lemma CutTwice(s: Snapshot, u: Snapshot, v: Snapshot, n: Node, a: set<Node>, b: set<Node>, r: seq<Node>, q: seq<Node>)
    requires n in s.tree && n !in a && n !in b
    requires Cut(s, u, a, n, r) && Cut(u, v, b, n, q)
    ensures Cut(s, v, a + b, n, q)
  {
    assert v.at == s.at - (a + b);
  }

  lemma CutNothing(s: Snapshot, n: Node)
    requires n in s.tree
    ensures Cut(s, s, {}, n, s.tree[n].next)
  {
  }

  lemma {:induction false} TraceConcat(t: Tree, a: seq<Node>, b: seq<Node>)
    requires forall k :: k in a || k in b ==> k in t
    ensures Trace(t, a + b) == Trace(t, a) + Trace(t, b)
  {
    if b == [] {
      assert a + b == a;
    } else {
      assert (a + b)[..|a + b| - 1] == a + b[..|b| - 1];
      TraceConcat(t, a, b[..|b| - 1]);
    }
  }

  lemma {:induction false} TraceSame(t: Tree, u: Tree, order: seq<Node>)
    requires forall k :: k in order ==> k in t && k in u && t[k].id == u[k].id && t[k].folder == u[k].folder
    ensures Trace(t, order) == Trace(u, order)
  {
    if order != [] {
      TraceSame(t, u, order[..|order| - 1]);
    }
  }

  // ---------- what the cache forgets ----------

  /** The cache after the nodes have left one after the other. */
  ghost function PurgedAll(m: Maps<Node>, t: Tree, order: seq<Node>): Maps<Node>
    requires forall k :: k in order ==> k in t
  {
    if order == [] then m
    else Purged(PurgedAll(m, t, order[..|order| - 1]), order[|order| - 1], t[order[|order| - 1]].id)
  }

  lemma {:induction false} PurgedConcat(m: Maps<Node>, t: Tree, a: seq<Node>, b: seq<Node>)
    requires forall k :: k in a || k in b ==> k in t
    ensures PurgedAll(m, t, a + b) == PurgedAll(PurgedAll(m, t, a), t, b)
  {
    if b == [] {
      assert a + b == a;
    } else {
      assert (a + b)[..|a + b| - 1] == a + b[..|b| - 1];
      PurgedConcat(m, t, a, b[..|b| - 1]);
    }
  }

  lemma {:induction false} PurgedSame(m: Maps<Node>, t: Tree, u: Tree, order: seq<Node>)
    requires forall k :: k in order ==> k in t && k in u && t[k].id == u[k].id
    ensures PurgedAll(m, t, order) == PurgedAll(m, u, order)
  {
    if order != [] { PurgedSame(m, t, u, order[..|order| - 1]); }
  }

  ghost function MapsWithout(m: Maps<Node>, gone: set<Node>): Maps<Node> {
    Maps(map p | p in m.paths && m.paths[p] !in gone :: m.paths[p],
         map i | i in m.ids && m.ids[i] !in gone :: m.ids[i],
         m.nodes - gone)
  }

  /** While the three maps are in step, they forget exactly the nodes that have left. */
  lemma {:induction false} PurgedTogether(m: Maps<Node>, t: Tree, order: seq<Node>)
    requires Consistent(m, IdsOf(t)) && forall k :: k in order ==> k in t
    ensures PurgedAll(m, t, order) == MapsWithout(m, (set k | k in order))
    ensures Consistent(PurgedAll(m, t, order), IdsOf(t))
  {
    if order == [] {
      assert MapsWithout(m, {}) == m;
    } else {
      var rest, k := order[..|order| - 1], order[|order| - 1];
      PurgedTogether(m, t, rest);
      PurgeExact(PurgedAll(m, t, rest), IdsOf(t), k);
      WithoutOneMore(m, (set l | l in rest), k);
      assert (set l | l in order) == (set l | l in rest) + {k};
      PurgeIsCut(PurgedAll(m, t, rest), IdsOf(t), k);
    }
  }

  lemma WithoutOneMore(m: Maps<Node>, gone: set<Node>, k: Node)
    ensures MapsWithout(MapsWithout(m, gone), {k}) == MapsWithout(m, gone + {k})
  {
  }

  lemma PurgeIsCut(m: Maps<Node>, idOf: map<Node, Id>, n: Node)
    requires Consistent(m, idOf) && n in idOf
    ensures Purged(m, n, idOf[n]) == MapsWithout(m, {n})
  {
    PurgeExact(m, idOf, n);
    hide Consistent, Purged;
  }

  /** A purge loses the path its node is filed under, and touches no other path; other nodes stay on file. */
  lemma {:induction false} PurgedLess(m: Maps<Node>, t: Tree, order: seq<Node>)
    requires forall k :: k in order ==> k in t
    ensures var u := PurgedAll(m, t, order);
            && u.nodes == m.nodes - (set k | k in order)
            && (forall p :: p in u.paths ==> p in m.paths && u.paths[p] == m.paths[p])
            && (forall k :: k in order && k in m.nodes ==> m.nodes[k] !in u.paths)
  {
    if order != [] {
      PurgedLess(m, t, order[..|order| - 1]);
      assert order == order[..|order| - 1] + [order[|order| - 1]];
    }
  }

  lemma LeafAfterCut(c: Cloud, root: Node, s: Snapshot, u: Snapshot, n: Node, m: Node)
    requires Structured(c, root, s) && n in s.tree && m in s.tree[n].next && m in s.at
    requires Cut(s, u, Subtree(s.at, m) - {m}, m, [])
    ensures m in s.tree && m in u.tree && u.tree[m] == s.tree[m].(next := []) && m != root && m != n
    ensures u.tree[m].parent == n && n in u.tree && u.tree[n] == s.tree[n] && !(s.at[m] <= s.at[n])
  {
    hide WellFormed;
    ChildLineage(c, s.tree, root, s.at, n, m);
  }

  lemma PostOrderLast(c: Cloud, root: Node, s: Snapshot, order: seq<Node>, m: Node)
    requires Structured(c, root, s) && m in s.tree && PostOrder(s.at, order, Subtree(s.at, m) - {m})
    requires forall k :: k in order ==> k in s.tree
    ensures PostOrder(s.at, order + [m], Subtree(s.at, m))
    ensures Trace(s.tree, order + [m]) == Trace(s.tree, order) + Farewell(s.tree[m])
  {
    hide WellFormed, NodeOk;
    forall k | k in order
      ensures !(s.at[k] <= s.at[m])
    {
      if s.at[k] <= s.at[m] {
        assert s.at[k] == s.at[m];
        LineageInjective(c, s.tree, root, s.at, k, m);
      }
    }
    assert (order + [m])[..|order|] == order;
  }

  // ---------- the children of one folder, one after the other ----------

  /** The nodes in the subtrees of the first i children. */
  ghost function FirstSubtrees(at: Lineage, next: seq<Node>, i: nat): set<Node>
    requires i <= |next| && forall m :: m in next ==> m in at
  {
    if i == 0 then {} else FirstSubtrees(at, next, i - 1) + Subtree(at, next[i - 1])
  }

  lemma {:induction false} FirstSubtreesMember(at: Lineage, next: seq<Node>, i: nat, k: Node)
    requires i <= |next| && forall m :: m in next ==> m in at
    ensures k in FirstSubtrees(at, next, i) ==> k in at && exists j :: 0 <= j < i && at[next[j]] <= at[k]
  {
    if i > 0 {
      FirstSubtreesMember(at, next, i - 1, k);
      if k in Subtree(at, next[i - 1]) { assert at[next[i - 1]] <= at[k]; }
    }
  }

  lemma {:induction false} FirstSubtreesIn(at: Lineage, next: seq<Node>, i: nat, j: nat, k: Node)
    requires j < i <= |next| && forall m :: m in next ==> m in at
    requires k in Subtree(at, next[j])
    ensures k in FirstSubtrees(at, next, i)
  {
    if j < i - 1 {
      FirstSubtreesIn(at, next, i - 1, j, k);
    }
  }

  lemma AllSubtrees(c: Cloud, root: Node, s: Snapshot, n: Node)
    requires Structured(c, root, s) && n in s.tree
    ensures forall m :: m in s.tree[n].next ==> m in s.at
    ensures FirstSubtrees(s.at, s.tree[n].next, |s.tree[n].next|) == Subtree(s.at, n) - {n}
  {
    hide WellFormed;
    var next := s.tree[n].next;
    forall m | m in next
      ensures m in s.at && s.at[n] <= s.at[m]
    {
      ChildLineage(c, s.tree, root, s.at, n, m);
    }
    forall k | k in FirstSubtrees(s.at, next, |next|)
      ensures k in Subtree(s.at, n) && k != n
    {
      FirstSubtreesMember(s.at, next, |next|, k);
      var j :| 0 <= j < |next| && s.at[next[j]] <= s.at[k];
      ChildLineage(c, s.tree, root, s.at, n, next[j]);
      PrefixTransitive(s.at[n], s.at[next[j]], s.at[k]);
    }
    forall k | k in Subtree(s.at, n) && k != n
      ensures k in FirstSubtrees(s.at, next, |next|)
    {
      if s.at[k] == s.at[n] { LineageInjective(c, s.tree, root, s.at, k, n); }
      BelowAChild(c, s.tree, root, s.at, n, k);
      var m :| m in next && m in s.at && s.at[m] <= s.at[k];
      var j :| 0 <= j < |next| && next[j] == m;
      FirstSubtreesIn(s.at, next, |next|, j, k);
    }
  }

  /** Subtrees of different children do not meet. */
  lemma NextSubtreeApart(c: Cloud, root: Node, s: Snapshot, n: Node, i: nat)
    requires Structured(c, root, s) && n in s.tree && i < |s.tree[n].next|
    requires forall m :: m in s.tree[n].next ==> m in s.at
    ensures FirstSubtrees(s.at, s.tree[n].next, i) !! Subtree(s.at, s.tree[n].next[i])
    ensures forall j, k :: 0 <= j < i && k in s.at && s.at[s.tree[n].next[j]] <= s.at[k] ==>
              !(s.at[s.tree[n].next[i]] <= s.at[k])
  {
    var next := s.tree[n].next;
    assert NoDup(next) by { assert NodeOk(c, s.tree, root, s.at, n); }
    hide WellFormed, Mirrors;
    forall j, k | 0 <= j < i && k in s.at && s.at[next[j]] <= s.at[k]
      ensures !(s.at[next[i]] <= s.at[k])
    {
      SiblingsApart(c, s.tree, root, s.at, n, next[j], next[i], k);
    }
    forall k | k in FirstSubtrees(s.at, next, i)
      ensures k !in Subtree(s.at, next[i])
    {
      FirstSubtreesMember(s.at, next, i, k);
    }
  }

  lemma PostOrderNext(c: Cloud, root: Node, s: Snapshot, n: Node, i: nat, order: seq<Node>, more: seq<Node>)
    requires Structured(c, root, s) && n in s.tree && i < |s.tree[n].next|
    requires forall m :: m in s.tree[n].next ==> m in s.at
    requires PostOrder(s.at, order, FirstSubtrees(s.at, s.tree[n].next, i))
    requires PostOrder(s.at, more, Subtree(s.at, s.tree[n].next[i]))
    ensures PostOrder(s.at, order + more, FirstSubtrees(s.at, s.tree[n].next, i + 1))
  {
    hide Structured;
    var next := s.tree[n].next;
    NextSubtreeApart(c, root, s, n, i);
    forall a, b | a in order && b in more
      ensures !(s.at[a] <= s.at[b])
    {
      FirstSubtreesMember(s.at, next, i, a);
      var j :| 0 <= j < i && s.at[next[j]] <= s.at[a];
      NotPrefix(s.at[next[j]], s.at[a], s.at[b]);
    }
  }

  /** One more child removed, seen from the state before the first one was. */
  lemma RemovalStep(c: Cloud, root: Node, s: Snapshot, u: Snapshot, v: Snapshot, n: Node, i: nat)
    requires Structured(c, root, s) && n in s.tree && i < |s.tree[n].next|
    requires forall m :: m in s.tree[n].next ==> m in s.at
    requires var next := s.tree[n].next;
             && Cut(s, u, FirstSubtrees(s.at, next, i), n, next[i..])
             && next[i] in u.at && Cut(u, v, Subtree(u.at, next[i]), n, Without(next[i..], next[i]))
    ensures var next := s.tree[n].next; Cut(s, v, FirstSubtrees(s.at, next, i + 1), n, next[i + 1..])
  {
    var next := s.tree[n].next;
    NextSubtreeApart(c, root, s, n, i);
    SubtreeKept(s, u, n, next, i);
    assert NoDup(next) by { assert NodeOk(c, s.tree, root, s.at, n); }
    OwnSubtreeApart(c, root, s, n, i);
    WithoutHead(next, i);
    hide Structured, Cut, Subtree;
    CutTwice(s, u, v, n, FirstSubtrees(s.at, next, i), Subtree(u.at, next[i]), next[i..], next[i + 1..]);
  }

  lemma CutKeeps(s: Snapshot, u: Snapshot, gone: set<Node>, n: Node, rest: seq<Node>)
    requires Cut(s, u, gone, n, rest)
    ensures forall k :: k in u.tree ==>
              k in s.tree && s.tree[k].id == u.tree[k].id && s.tree[k].folder == u.tree[k].folder
    ensures forall k :: k in u.at ==> k in s.at && s.at[k] == u.at[k]
  {
  }

  lemma OrderGoesOn(c: Cloud, root: Node, s: Snapshot, u: Snapshot, n: Node, i: nat, order: seq<Node>, more: seq<Node>)
    requires Structured(c, root, s) && n in s.tree && i < |s.tree[n].next|
    requires forall m :: m in s.tree[n].next ==> m in s.at
    requires Cut(s, u, FirstSubtrees(s.at, s.tree[n].next, i), n, s.tree[n].next[i..]) && s.tree[n].next[i] in u.at
    requires PostOrder(s.at, order, FirstSubtrees(s.at, s.tree[n].next, i))
    requires PostOrder(u.at, more, Subtree(u.at, s.tree[n].next[i]))
    ensures PostOrder(s.at, order + more, FirstSubtrees(s.at, s.tree[n].next, i + 1))
  {
    hide Structured, Mirrors, WellFormed, PostOrder;
    StructuredKeys(c, root, s);
    var next := s.tree[n].next;
    NextSubtreeApart(c, root, s, n, i);
    SubtreeKept(s, u, n, next, i);
    OwnSubtreeApart(c, root, s, n, i);
    CutKeeps(s, u, FirstSubtrees(s.at, next, i), n, next[i..]);
    OrderKept(s, u, more, Subtree(u.at, next[i]));
    PostOrderNext(c, root, s, n, i, order, more);
  }

  lemma OrderKept(s: Snapshot, u: Snapshot, more: seq<Node>, nodes: set<Node>)
    requires PostOrder(u.at, more, nodes) && forall k :: k in u.at ==> k in s.at && s.at[k] == u.at[k]
    ensures PostOrder(s.at, more, nodes)
  {
  }

  lemma SubtreeKept(s: Snapshot, u: Snapshot, n: Node, next: seq<Node>, i: nat)
    requires i < |next| && (forall m :: m in next ==> m in s.at) && s.at.Keys == s.tree.Keys
    requires Cut(s, u, FirstSubtrees(s.at, next, i), n, next[i..])
    requires FirstSubtrees(s.at, next, i) !! Subtree(s.at, next[i])
    requires next[i] in u.at
    ensures Subtree(u.at, next[i]) == Subtree(s.at, next[i])
  {
    forall k | k in Subtree(s.at, next[i])
      ensures k in Subtree(u.at, next[i])
    {
    }
  }

  lemma OwnSubtreeApart(c: Cloud, root: Node, s: Snapshot, n: Node, i: nat)
    requires Structured(c, root, s) && n in s.tree && i < |s.tree[n].next|
    requires forall m :: m in s.tree[n].next ==> m in s.at
    ensures n !in FirstSubtrees(s.at, s.tree[n].next, i) && n !in Subtree(s.at, s.tree[n].next[i])
  {
    var next := s.tree[n].next;
    forall j | 0 <= j <= i
      ensures !(s.at[next[j]] <= s.at[n])
    {
      ChildLineage(c, s.tree, root, s.at, n, next[j]);
    }
    FirstSubtreesMember(s.at, next, i, n);
  }

  lemma WithoutHead(next: seq<Node>, i: nat)
    requires i < |next| && NoDup(next)
    ensures Without(next[i..], next[i]) == next[i + 1..]
  {
    assert next[i..][1..] == next[i + 1..];
    assert next[i] !in next[i + 1..];
  }
}
