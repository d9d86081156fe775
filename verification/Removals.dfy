/** Whole removals: everything that changes, in memory, in the cache, on the drive and in the event log. */
module Removals {
  import opened Basics
  import opened CloudTree
  import opened CloudUpdates
  import opened LoadedTree
  import opened TreeUpdates
  import opened NodeCache
  import opened Loading
  import opened TreeRemoval

  datatype World = World(cloud: Cloud, snap: Snapshot, log: seq<Event>)

  /** The drive's deletions so far are part of deleting the whole entry i. */
  ghost predicate PartOfRemoving(i: Id, c: Cloud, d: Cloud) {
    i in c && i in d && Removed(d, i) == Removed(c, i)
  }

  ghost predicate SameLog(t: Tree, before: seq<Event>, after: seq<Event>, order: seq<Node>) {
    (forall k :: k in order ==> k in t) && after == before + Trace(t, order)
  }

  ghost predicate SameCache(t: Tree, before: Maps<Node>, after: Maps<Node>, order: seq<Node>) {
    (forall k :: k in order ==> k in t) && after == PurgedAll(before, t, order)
  }

  /** The first i children of n are gone, each with everything below it. */
  ghost predicate RemovedSome(root: Node, w: World, v: World, n: Node, i: nat, order: seq<Node>) {
    && Structured(w.cloud, root, w.snap) && Structured(v.cloud, root, v.snap)
    && n in w.snap.tree && i <= |w.snap.tree[n].next|
    && (forall m :: m in w.snap.tree[n].next ==> m in w.snap.at)
    && var gone := FirstSubtrees(w.snap.at, w.snap.tree[n].next, i);
    && Cut(w.snap, v.snap, gone, n, w.snap.tree[n].next[i..])
    && PostOrder(w.snap.at, order, gone) && SameLog(w.snap.tree, w.log, v.log, order)
    && SameCache(w.snap.tree, w.snap.maps, v.snap.maps, order)
    && PartOfRemoving(w.snap.tree[n].id, w.cloud, v.cloud)
  }

  /** Everything below n is gone. */
  ghost predicate RemovedAll(root: Node, w: World, v: World, n: Node, order: seq<Node>) {
    && Structured(w.cloud, root, w.snap) && Structured(v.cloud, root, v.snap) && n in w.snap.tree && n in w.snap.at
    && var gone := Subtree(w.snap.at, n) - {n};
    && Cut(w.snap, v.snap, gone, n, [])
    && PostOrder(w.snap.at, order, gone) && SameLog(w.snap.tree, w.log, v.log, order)
    && SameCache(w.snap.tree, w.snap.maps, v.snap.maps, order)
    && PartOfRemoving(w.snap.tree[n].id, w.cloud, v.cloud)
  }

  /** The child m of n is gone with everything below it; on the drive this is one removal. */
  ghost predicate RemovedOne(root: Node, w: World, v: World, n: Node, m: Node, order: seq<Node>) {
    && Structured(w.cloud, root, w.snap) && Structured(v.cloud, root, v.snap)
    && n in w.snap.tree && m in w.snap.tree[n].next && m in w.snap.tree && m in w.snap.at
    && var gone := Subtree(w.snap.at, m);
    && Cut(w.snap, v.snap, gone, n, Without(w.snap.tree[n].next, m))
    && PostOrder(w.snap.at, order, gone) && SameLog(w.snap.tree, w.log, v.log, order)
    && SameCache(w.snap.tree, w.snap.maps, v.snap.maps, order)
    && w.snap.tree[m].id in w.cloud && v.cloud == Removed(w.cloud, w.snap.tree[m].id)
  }

  lemma EntryKnown(c: Cloud, root: Node, s: Snapshot, m: Node)
    requires Structured(c, root, s) && m in s.tree
    ensures s.tree[m].id in c && s.at.Keys == s.tree.Keys
  {
    assert NodeOk(c, s.tree, root, s.at, m);
  }

  /** A child's subtree lies properly inside its owner's. */
  lemma ChildInside(c: Cloud, root: Node, s: Snapshot, n: Node, m: Node)
    requires Structured(c, root, s) && n in s.tree && m in s.tree[n].next
    ensures m in s.tree && s.at.Keys == s.tree.Keys && |s.at[m]| == |s.at[n]| + 1
    ensures Subtree(s.at, m) <= Subtree(s.at, n) - {n} && m in Subtree(s.at, m)
  {
    ChildLineage(c, s.tree, root, s.at, n, m);
    forall k | k in Subtree(s.at, m)
      ensures k in Subtree(s.at, n)
    {
      PrefixTransitive(s.at[n], s.at[m], s.at[k]);
    }
  }

  lemma SomeStart(root: Node, w: World, n: Node)
    requires Structured(w.cloud, root, w.snap) && n in w.snap.tree
    ensures RemovedSome(root, w, w, n, 0, [])
  {
    EntryKnown(w.cloud, root, w.snap, n);
    AllSubtrees(w.cloud, root, w.snap, n);
    hide Structured;
    assert w.snap.tree[n].next[0..] == w.snap.tree[n].next;
    CutNothing(w.snap, n);
    assert PostOrder(w.snap.at, [], {});
  }

  lemma SomeNext(root: Node, w: World, u: World, n: Node, i: nat, order: seq<Node>)
    requires RemovedSome(root, w, u, n, i, order) && i < |w.snap.tree[n].next|
    ensures var m := w.snap.tree[n].next[i];
            && Structured(u.cloud, root, u.snap) && n in u.snap.tree && m in u.snap.tree[n].next && m in u.snap.tree
            && u.snap.at.Keys == u.snap.tree.Keys && |u.snap.at[m]| == |u.snap.at[n]| + 1
            && Subtree(u.snap.at, m) <= Subtree(u.snap.at, n) - {n} && m in Subtree(u.snap.at, m)
  {
    OwnSubtreeApart(w.cloud, root, w.snap, n, i);
    EntryKnown(w.cloud, root, w.snap, n);
    hide Structured;
    var m := w.snap.tree[n].next[i];
    assert w.snap.tree[n].next[i..][0] == m;
    ChildInside(u.cloud, root, u.snap, n, m);
  }

  lemma SomeStep(root: Node, w: World, u: World, v: World, n: Node, i: nat, order: seq<Node>, more: seq<Node>)
    requires RemovedSome(root, w, u, n, i, order) && i < |w.snap.tree[n].next|
    requires RemovedOne(root, u, v, n, w.snap.tree[n].next[i], more)
    ensures RemovedSome(root, w, v, n, i + 1, order + more)
  {
    hide Structured, Cut, PostOrder, Removed, Below, SameCache, SameLog, Trace;
    var m := w.snap.tree[n].next[i];
    CutKeepsState(root, w, u, n, i, order);
    RemovalStep(w.cloud, root, w.snap, u.snap, v.snap, n, i);
    OrderGoesOn(w.cloud, root, w.snap, u.snap, n, i, order, more);
    LogStep(w, u, v, n, i, order, more);
    CacheStep(w, u, v, n, i, order, more);
    EntryKnown(u.cloud, root, u.snap, n);
    ParentRemains(u.cloud, root, u.snap, n, m);
  }

  lemma LogStep(w: World, u: World, v: World, n: Node, i: nat, order: seq<Node>, more: seq<Node>)
    requires n in w.snap.tree && i <= |w.snap.tree[n].next| && forall m :: m in w.snap.tree[n].next ==> m in w.snap.at
    requires Cut(w.snap, u.snap, FirstSubtrees(w.snap.at, w.snap.tree[n].next, i), n, w.snap.tree[n].next[i..])
    requires SameLog(w.snap.tree, w.log, u.log, order) && SameLog(u.snap.tree, u.log, v.log, more)
    ensures SameLog(w.snap.tree, w.log, v.log, order + more)
  {
    hide Cut, Trace, FirstSubtrees;
    CutKeeps(w.snap, u.snap, FirstSubtrees(w.snap.at, w.snap.tree[n].next, i), n, w.snap.tree[n].next[i..]);
    TraceConcat(w.snap.tree, order, more);
    TraceSame(w.snap.tree, u.snap.tree, more);
    var a, b := Trace(w.snap.tree, order), Trace(u.snap.tree, more);
    assert w.log + a + b == w.log + (a + b);
  }

  lemma CacheStep(w: World, u: World, v: World, n: Node, i: nat, order: seq<Node>, more: seq<Node>)
    requires n in w.snap.tree && i <= |w.snap.tree[n].next| && forall m :: m in w.snap.tree[n].next ==> m in w.snap.at
    requires Cut(w.snap, u.snap, FirstSubtrees(w.snap.at, w.snap.tree[n].next, i), n, w.snap.tree[n].next[i..])
    requires SameCache(w.snap.tree, w.snap.maps, u.snap.maps, order)
    requires SameCache(u.snap.tree, u.snap.maps, v.snap.maps, more)
    ensures SameCache(w.snap.tree, w.snap.maps, v.snap.maps, order + more)
  {
    CutKeeps(w.snap, u.snap, FirstSubtrees(w.snap.at, w.snap.tree[n].next, i), n, w.snap.tree[n].next[i..]);
    hide Cut;
    PurgedSame(u.snap.maps, w.snap.tree, u.snap.tree, more);
    PurgedConcat(w.snap.maps, w.snap.tree, order, more);
  }

  lemma CutKeepsState(root: Node, w: World, u: World, n: Node, i: nat, order: seq<Node>)
    requires RemovedSome(root, w, u, n, i, order) && i < |w.snap.tree[n].next|
    ensures n in u.snap.tree && u.snap.tree[n] == w.snap.tree[n].(next := w.snap.tree[n].next[i..])
  {
    OwnSubtreeApart(w.cloud, root, w.snap, n, i);
  }

  lemma ParentRemains(c: Cloud, root: Node, s: Snapshot, n: Node, m: Node)
    requires Structured(c, root, s) && n in s.tree && m in s.tree[n].next && m in s.tree
    ensures s.tree[m].id in c && PartOfRemoving(s.tree[n].id, c, Removed(c, s.tree[m].id))
  {
    ParentOutside(c, s.tree, root, s.at, n, m);
    RemovalAbsorbs(c, s.tree[m].id, s.tree[n].id);
  }

  lemma SomeDone(root: Node, w: World, v: World, n: Node, order: seq<Node>)
    requires n in w.snap.tree && RemovedSome(root, w, v, n, |w.snap.tree[n].next|, order)
    ensures RemovedAll(root, w, v, n, order)
  {
    AllSubtrees(w.cloud, root, w.snap, n);
    EntryKnown(w.cloud, root, w.snap, n);
    assert w.snap.tree[n].next[|w.snap.tree[n].next|..] == [];
    hide Structured, Cut, PostOrder, Removed;
  }

  /** The last requests for a node whose children are gone. */
  ghost function LeafStep(u: World, m: Node): World
    requires m in u.snap.tree && u.snap.tree[m].parent != null && u.snap.tree[m].parent in u.snap.tree
    requires u.snap.tree[m].id in u.cloud
  {
    var i := u.snap.tree[m].id;
    World(Removed(u.cloud, i),
          Snapshot(LeafDropped(u.snap.tree, m), u.snap.at - {m}, Purged(u.snap.maps, m, i)),
          u.log + Farewell(u.snap.tree[m]))
  }

  lemma AllReady(root: Node, w: World, u: World, n: Node, m: Node, order: seq<Node>)
    requires RemovedAll(root, w, u, m, order) && n in w.snap.tree && m in w.snap.tree[n].next
    ensures m in u.snap.tree && u.snap.tree[m] == w.snap.tree[m].(next := []) && u.snap.tree[m].parent == n
    ensures n in u.snap.tree && u.snap.tree[m].id in u.cloud && m in u.snap.at && u.snap.at.Keys == u.snap.tree.Keys
  {
    LeafAfterCut(w.cloud, root, w.snap, u.snap, n, m);
    EntryKnown(u.cloud, root, u.snap, m);
  }

  lemma AllThenOne(root: Node, w: World, u: World, n: Node, m: Node, order: seq<Node>)
    requires RemovedAll(root, w, u, m, order) && n in w.snap.tree && m in w.snap.tree[n].next
    requires m in u.snap.tree && u.snap.tree[m].parent == n && n in u.snap.tree && u.snap.tree[m].id in u.cloud
    ensures RemovedOne(root, w, LeafStep(u, m), n, m, order + [m])
  {
    hide Structured, PostOrder, Removed, Below, Cut, Purged, LeafDropped, SameLog, SameCache, Farewell;
    LeafAfterCut(w.cloud, root, w.snap, u.snap, n, m);
    LeafCut(u.cloud, root, u.snap, m);
    EntryKnown(w.cloud, root, w.snap, m);
    LastLogged(w.snap.tree, w.log, u.log, order, m, u.snap.tree[m]);
    LastPurged(w.snap.tree, w.snap.maps, u.snap.maps, order, m);
    CutThenLeaf(w.snap, u.snap, LeafStep(u, m).snap, m, n);
    PostOrderLast(w.cloud, root, w.snap, order, m);
  }

  lemma LastLogged(t: Tree, before: seq<Event>, after: seq<Event>, order: seq<Node>, m: Node, s: NodeState)
    requires SameLog(t, before, after, order) && m in t && s.id == t[m].id && s.folder == t[m].folder
    ensures SameLog(t, before, after + Farewell(s), order + [m])
  {
    var all := order + [m];
    assert all[..|all| - 1] == order;
    assert before + Trace(t, order) + Farewell(s) == before + (Trace(t, order) + Farewell(s));
  }

  lemma LastPurged(t: Tree, before: Maps<Node>, after: Maps<Node>, order: seq<Node>, m: Node)
    requires SameCache(t, before, after, order) && m in t
    ensures SameCache(t, before, Purged(after, m, t[m].id), order + [m])
  {
    hide Purged;
    var all := order + [m];
    assert all[..|all| - 1] == order;
  }

  /** What is left is untouched, and lies outside the removed subtree. */
  lemma OneKeepsRest(root: Node, w: World, v: World, n: Node, m: Node, order: seq<Node>)
    requires RemovedOne(root, w, v, n, m, order)
    ensures Structured(v.cloud, root, v.snap) && v.snap.at.Keys == v.snap.tree.Keys && n in v.snap.tree
    ensures v.snap.tree[n] == w.snap.tree[n].(next := Without(w.snap.tree[n].next, m))
    ensures forall k :: k in v.snap.tree ==>
              k in w.snap.tree && k !in Subtree(w.snap.at, m) && v.snap.at[k] == w.snap.at[k]
    ensures forall k :: k in v.snap.tree && k != n ==> v.snap.tree[k] == w.snap.tree[k]
  {
    ChildInside(w.cloud, root, w.snap, n, m);
    hide Structured, PostOrder;
    CutMeans(w.snap, v.snap, Subtree(w.snap.at, m), n, Without(w.snap.tree[n].next, m));
  }

  /** What is left below n was there before, outside the removed subtree, in the same state. */
  lemma OneLeavesBelow(root: Node, w: World, v: World, n: Node, m: Node, order: seq<Node>, k: Node)
    requires RemovedOne(root, w, v, n, m, order) && n in v.snap.at && k in Subtree(v.snap.at, n)
    ensures n in w.snap.at && m in w.snap.at && k in v.snap.tree && k in w.snap.tree
    ensures k in Subtree(w.snap.at, n) && k !in Subtree(w.snap.at, m) && (k != n ==> v.snap.tree[k] == w.snap.tree[k])
  {
    OneKeepsRest(root, w, v, n, m, order);
    OneLeft(root, w, v, n, m, order);
    hide RemovedOne, Structured;
  }

  lemma AllKeepsRest(root: Node, w: World, v: World, n: Node, order: seq<Node>)
    requires RemovedAll(root, w, v, n, order)
    ensures Structured(v.cloud, root, v.snap) && v.snap.at.Keys == v.snap.tree.Keys && n in v.snap.tree
    ensures v.snap.tree[n] == w.snap.tree[n].(next := []) && v.snap.at[n] == w.snap.at[n]
    ensures Subtree(v.snap.at, n) == {n}
  {
    EntryKnown(w.cloud, root, w.snap, n);
    EntryKnown(v.cloud, root, v.snap, root);
    hide Structured, PostOrder;
    CutMeans(w.snap, v.snap, Subtree(w.snap.at, n) - {n}, n, []);
    assert n in Subtree(v.snap.at, n);
  }

  /** What a node owns in memory lies below its entry on the drive. */
  lemma {:induction false} LineageBelow(c: Cloud, t: Tree, root: Node, at: Lineage, m: Node, k: Node)
    requires WellFormed(c) && Mirrors(c, t, root, at) && m in t && k in t && at[m] <= at[k]
    ensures t[m].id in c && t[k].id in Below(c, t[m].id)
    decreases |at[k]|
  {
    assert NodeOk(c, t, root, at, m);
    if at[m] == at[k] {
      LineageInjective(c, t, root, at, m, k);
    } else {
      LineageEnds(c, t, root, at, k);
      PrefixOfSnoc(at[m], at[t[k].parent], t[k].id);
      LineageBelow(c, t, root, at, m, t[k].parent);
      assert NodeOk(c, t, root, at, k);
      OwnedNode(c, t, root, at, t[k].parent, k);
    }
  }

  lemma FilledRestricted(t: Tree, u: Tree, ids: set<Id>)
    requires forall k :: k in u ==> k in t && u[k].id == t[k].id && u[k].filled == t[k].filled
    requires forall k :: k in t ==> (k in u <==> t[k].id in ids)
    ensures FilledIds(u) == FilledIds(t) * ids
  {
    forall i | i in FilledIds(t) && i in ids
      ensures i in FilledIds(u)
    {
      var k :| k in t && t[k].filled && t[k].id == i;
      assert k in u && u[k].filled && u[k].id == i;
    }
  }

  /** The loaded folders that are left are those whose entries the drive still has. */
  lemma FilledAfterOne(root: Node, w: World, v: World, n: Node, m: Node, order: seq<Node>)
    requires RemovedOne(root, w, v, n, m, order)
    ensures FilledIds(v.snap.tree) == FilledIds(w.snap.tree) * v.cloud.Keys
  {
    hide RemovedOne, Below, Removed, Subtree, FilledIds, Structured;
    OneKeepsRest(root, w, v, n, m, order);
    StayOnDrive(root, w, v, n, m, order);
    FilledRestricted(w.snap.tree, v.snap.tree, v.cloud.Keys);
  }

  /** The nodes that stay in memory are those whose entries are still on the drive. */
  lemma StayOnDrive(root: Node, w: World, v: World, n: Node, m: Node, order: seq<Node>)
    requires RemovedOne(root, w, v, n, m, order)
    ensures forall k :: k in w.snap.tree ==> (k in v.snap.tree <==> w.snap.tree[k].id in v.cloud)
  {
    hide RemovedOne, Below, Subtree, Structured;
    OneLeft(root, w, v, n, m, order);
    forall k | k in w.snap.tree
      ensures k in v.snap.tree <==> w.snap.tree[k].id in v.cloud
    {
      EntryKnown(w.cloud, root, w.snap, k);
      SubtreeOnDrive(w.cloud, root, w.snap, m, k);
    }
  }

  /** The drive after a removal, path by path. */
  lemma RemovedWalks(root: Node, w: World, v: World, n: Node, m: Node, order: seq<Node>, path: Path)
    requires RemovedOne(root, w, v, n, m, order) && UniqueNames(w.cloud)
    requires m in w.snap.tree && Walk(w.cloud, ROOT, path) == Some(w.snap.tree[m].id)
    ensures PathGone(w.cloud, v.cloud, path)
  {
    hide Removed, Below, Walk, PostOrder, SameLog, SameCache, Cut, Subtree, UniqueNames, WellFormed, Mirrors;
    var i := w.snap.tree[m].id;
    NotTheRoot(w.cloud, root, w.snap, n, m);
    WalkRoot(w.cloud);
    forall p
      ensures Walk(v.cloud, ROOT, p) == if path <= p then None else Walk(w.cloud, ROOT, p)
    {
      WalkAfterRemove(w.cloud, path, i, p);
    }
    RemovedKinds(w.cloud, i);
  }

  lemma NotTheRoot(c: Cloud, root: Node, s: Snapshot, n: Node, m: Node)
    requires Structured(c, root, s) && n in s.tree && m in s.tree[n].next && m in s.tree
    ensures s.tree[m].id != ROOT
  {
    ChildLineage(c, s.tree, root, s.at, n, m);
    IdsDiffer(c, s.tree, root, s.at, root, m);
  }

  lemma RemovedKinds(c: Cloud, i: Id)
    requires i in c
    ensures forall k :: k in Removed(c, i) ==> k in c && Removed(c, i)[k].folder == c[k].folder
  {
    hide Below;
  }

  lemma OneLeft(root: Node, w: World, v: World, n: Node, m: Node, order: seq<Node>)
    requires RemovedOne(root, w, v, n, m, order)
    ensures Structured(w.cloud, root, w.snap) && m in w.snap.tree && m in w.snap.at
    ensures w.snap.tree[m].id in w.cloud && v.cloud.Keys == w.cloud.Keys - Below(w.cloud, w.snap.tree[m].id)
    ensures v.snap.tree.Keys == w.snap.tree.Keys - Subtree(w.snap.at, m)
  {
    hide Structured, PostOrder;
  }

  lemma SubtreeOnDrive(c: Cloud, root: Node, s: Snapshot, m: Node, k: Node)
    requires Structured(c, root, s) && m in s.tree && k in s.tree
    ensures s.tree[m].id in c && m in s.at && (k in Subtree(s.at, m) <==> s.tree[k].id in Below(c, s.tree[m].id))
  {
    EntryKnown(c, root, s, m);
    hide WellFormed, Mirrors, Below;
    if k in Subtree(s.at, m) {
      LineageBelow(c, s.tree, root, s.at, m, k);
    }
    if s.tree[k].id in Below(c, s.tree[m].id) {
      BelowLineage(c, s.tree, root, s.at, m, k);
    }
  }
}
