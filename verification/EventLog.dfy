/** What the drive, the local store and the subscribers are told of removed nodes: each once, in the right order. */
module EventLog {
  import opened Basics
  import opened CloudTree
  import opened CloudUpdates
  import opened LoadedTree
  import opened TreeUpdates
  import opened NodeCache
  import opened Loading
  import opened TreeRemoval
  import opened Removals
  import opened RenameOperation

  /** One deletion on the drive and one notification, and one local deletion if it is a file. */
  ghost predicate ToldOnce(s: NodeState, events: seq<Event>) {
    && multiset(events)[RemoteRemoved(s.id)] == 1 && multiset(events)[Notified(s.id)] == 1
    && multiset(events)[LocalDeleted(s.id)] == if s.folder then 0 else 1
  }

  ghost predicate SpeaksOf(t: Tree, gone: set<Node>, e: Event) {
    !e.Cleared? && exists k :: k in gone && k in t && t[k].id == e.id
  }

  /** Everything due for these nodes is in the list, once, and nothing else. */
  ghost predicate Told(t: Tree, gone: set<Node>, events: seq<Event>) {
    && (forall k :: k in gone ==> k in t && ToldOnce(t[k], events))
    && (forall e :: e in events ==> SpeaksOf(t, gone, e))
  }

  /** For each node the drive comes first and the subscribers last. */
  ghost predicate DriveFirst(events: seq<Event>) {
    forall a, b :: 0 <= a < |events| && 0 <= b < |events| && events[a].id == events[b].id && events[a] != events[b] ==>
      (events[a].RemoteRemoved? || events[b].Notified? ==> a < b)
  }

  /** Everything about a node comes before anything about its parent. */
  ghost predicate ChildFirst(t: Tree, gone: set<Node>, events: seq<Event>) {
    forall k, l, a, b :: k in gone && l in gone && k in t && l in t && t[l].parent == k ==>
      (0 <= a < |events| && 0 <= b < |events| && events[a].id == t[l].id && events[b].id == t[k].id ==> a < b)
  }

  ghost predicate IdsApart(t: Tree) {
    forall k, l :: k in t && l in t && t[k].id == t[l].id ==> k == l
  }

  /** No parent stands before its child. */
  ghost predicate ChildrenLead(t: Tree, order: seq<Node>) {
    && NoDup(order) && (forall k :: k in order ==> k in t)
    && forall a, b :: 0 <= a < b < |order| ==> t[order[b]].parent != order[a]
  }

  ghost function AsSet(order: seq<Node>): set<Node> {
    set k | k in order
  }

  lemma FarewellIs(s: NodeState, e: Event)
    ensures multiset(Farewell(s))[e] ==
            if e.id == s.id && !e.Cleared? && !(e.LocalDeleted? && s.folder) then 1 else 0
    ensures e in Farewell(s) ==> e.id == s.id && !e.Cleared?
  {
    var f := Farewell(s);
    if s.folder {
      assert f == [RemoteRemoved(s.id), Notified(s.id)];
    } else {
      assert f == [RemoteRemoved(s.id), LocalDeleted(s.id), Notified(s.id)];
    }
  }

  lemma CountsAdd(events: seq<Event>, s: NodeState, e: Event)
    ensures multiset(events + Farewell(s))[e] == multiset(events)[e] + multiset(Farewell(s))[e]
    ensures e !in events ==> multiset(events)[e] == 0
  {
  }

  lemma OneMoreTold(t: Tree, gone: set<Node>, events: seq<Event>, m: Node)
    requires IdsApart(t) && Told(t, gone, events) && m in t && m !in gone
    ensures Told(t, gone + {m}, events + Farewell(t[m]))
  {
    hide Farewell;
    var all := events + Farewell(t[m]);
    forall k | k in gone + {m}
      ensures k in t && ToldOnce(t[k], all)
    {
      var i := t[k].id;
      forall e | e in [RemoteRemoved(i), LocalDeleted(i), Notified(i)]
        ensures multiset(all)[e] == multiset(events)[e] + multiset(Farewell(t[m]))[e]
        ensures k == m ==> e !in events
      {
        CountsAdd(events, t[m], e);
        FarewellIs(t[m], e);
        assert e in events ==> SpeaksOf(t, gone, e);
      }
      FarewellIs(t[m], RemoteRemoved(i));
      FarewellIs(t[m], LocalDeleted(i));
      FarewellIs(t[m], Notified(i));
      assert RemoteRemoved(i) in [RemoteRemoved(i), LocalDeleted(i), Notified(i)];
      assert LocalDeleted(i) in [RemoteRemoved(i), LocalDeleted(i), Notified(i)];
      assert Notified(i) in [RemoteRemoved(i), LocalDeleted(i), Notified(i)];
    }
    forall e | e in all
      ensures SpeaksOf(t, gone + {m}, e)
    {
      FarewellIs(t[m], e);
      assert e in events ==> SpeaksOf(t, gone, e);
    }
  }

  lemma {:induction false} TraceTold(t: Tree, order: seq<Node>)
    requires IdsApart(t) && ChildrenLead(t, order)
    ensures Told(t, AsSet(order), Trace(t, order))
  {
    hide Farewell;
    if order != [] {
      var n := |order| - 1;
      var init, m := order[..n], order[n];
      TraceTold(t, init);
      assert order == init + [m] && AsSet(order) == AsSet(init) + {m};
      OneMoreTold(t, AsSet(init), Trace(t, init), m);
    }
  }

  lemma OneMoreInOrder(t: Tree, gone: set<Node>, events: seq<Event>, m: Node)
    requires Told(t, gone, events) && m in t && m !in gone && IdsApart(t)
    requires DriveFirst(events)
    ensures DriveFirst(events + Farewell(t[m]))
  {
    var all := events + Farewell(t[m]);
    forall a, b | 0 <= a < |all| && 0 <= b < |all| && all[a].id == all[b].id && all[a] != all[b]
      ensures all[a].RemoteRemoved? || all[b].Notified? ==> a < b
    {
      Whose(t, gone, events, m, a);
      Whose(t, gone, events, m, b);
    }
  }

  /** The list without the last node's part is about other nodes only. */
  lemma Whose(t: Tree, gone: set<Node>, events: seq<Event>, m: Node, a: nat)
    requires Told(t, gone, events) && m in t && m !in gone && IdsApart(t)
    requires a < |events + Farewell(t[m])|
    ensures var e := (events + Farewell(t[m]))[a]; (e.id == t[m].id <==> a >= |events|)
  {
    hide Farewell;
    if a < |events| {
      assert SpeaksOf(t, gone, events[a]);
    } else {
      FarewellIs(t[m], Farewell(t[m])[a - |events|]);
    }
  }

  lemma OneMoreChild(t: Tree, gone: set<Node>, events: seq<Event>, m: Node)
    requires Told(t, gone, events) && m in t && m !in gone && IdsApart(t)
    requires ChildFirst(t, gone, events) && t[m].parent != m && forall k :: k in gone ==> t[m].parent != k
    ensures ChildFirst(t, gone + {m}, events + Farewell(t[m]))
  {
    hide Farewell, Told;
    var all := events + Farewell(t[m]);
    forall k, l, a, b |
      k in gone + {m} && l in gone + {m} && k in t && l in t && t[l].parent == k && 0 <= a < |all| && 0 <= b < |all|
      && all[a].id == t[l].id && all[b].id == t[k].id
      ensures a < b
    {
      Whose(t, gone, events, m, a);
      Whose(t, gone, events, m, b);
    }
  }

  lemma {:induction false} TraceInOrder(t: Tree, order: seq<Node>)
    requires IdsApart(t) && ChildrenLead(t, order) && forall k :: k in order ==> t[k].parent != k
    ensures DriveFirst(Trace(t, order)) && ChildFirst(t, AsSet(order), Trace(t, order))
  {
    hide Farewell, DriveFirst, ChildFirst, Told;
    if order != [] {
      var n := |order| - 1;
      var init, m := order[..n], order[n];
      TraceInOrder(t, init);
      TraceTold(t, init);
      assert order == init + [m] && AsSet(order) == AsSet(init) + {m};
      OneMoreInOrder(t, AsSet(init), Trace(t, init), m);
      OneMoreChild(t, AsSet(init), Trace(t, init), m);
    } else {
      Nothing(t);
    }
  }

  lemma Nothing(t: Tree)
    ensures Told(t, {}, []) && DriveFirst([]) && ChildFirst(t, {}, []) && AsSet([]) == {}
  {
  }

  // ---------- removals and renames ----------

  ghost predicate EachOnce(t: Tree, gone: set<Node>, events: seq<Event>) {
    Told(t, gone, events) && DriveFirst(events) && ChildFirst(t, gone, events)
  }

  lemma OrderLeads(root: Node, w: World, v: World, n: Node, m: Node, order: seq<Node>)
    requires RemovedOne(root, w, v, n, m, order)
    ensures IdsApart(w.snap.tree) && ChildrenLead(w.snap.tree, order)
    ensures forall k :: k in order ==> w.snap.tree[k].parent != k
  {
    hide RemovedOne, SameLog, Mirrors, WellFormed, Structured, Subtree;
    var c, s := w.cloud, w.snap;
    OrderInside(root, w, v, n, m, order);
    StructuredKeys(c, root, s);
    ChildLineage(c, s.tree, root, s.at, n, m);
    forall k, l | k in s.tree && l in s.tree && s.tree[k].id == s.tree[l].id
      ensures k == l
    {
      IdsDiffer(c, s.tree, root, s.at, k, l);
    }
    forall k | k in order
      ensures k in s.tree && k != root && s.tree[k].parent != null && s.tree[k].parent in s.tree
      ensures s.at[s.tree[k].parent] <= s.at[k] && s.tree[k].parent != k
    {
      RootLineage(c, root, s, k, m);
      LineageEnds(c, s.tree, root, s.at, k);
    }
  }

  lemma RootLineage(c: Cloud, root: Node, s: Snapshot, k: Node, m: Node)
    requires Structured(c, root, s) && m in s.at && k in Subtree(s.at, m) && s.at[m] != []
    ensures k in s.tree && k in s.at && k != root
  {
  }

  lemma OrderInside(root: Node, w: World, v: World, n: Node, m: Node, order: seq<Node>)
    requires RemovedOne(root, w, v, n, m, order)
    ensures Structured(w.cloud, root, w.snap) && n in w.snap.tree && m in w.snap.tree[n].next
    ensures m in w.snap.at && PostOrder(w.snap.at, order, Subtree(w.snap.at, m))
    ensures SameLog(w.snap.tree, w.log, v.log, order)
    ensures v.snap.tree.Keys == w.snap.tree.Keys - Subtree(w.snap.at, m) && Subtree(w.snap.at, m) <= w.snap.tree.Keys
  {
    OneLeft(root, w, v, n, m, order);
    StructuredKeys(w.cloud, root, w.snap);
    hide Structured, PostOrder, SameLog, SameCache, Cut;
  }

  /** What a removal adds to the log is one farewell for each node that has gone. */
  lemma RemovalTold(root: Node, w: World, v: World, n: Node, m: Node, order: seq<Node>)
    requires RemovedOne(root, w, v, n, m, order)
    ensures v.snap.tree.Keys <= w.snap.tree.Keys && w.log <= v.log
    ensures EachOnce(w.snap.tree, w.snap.tree.Keys - v.snap.tree.Keys, v.log[|w.log|..])
  {
    hide RemovedOne, Structured, Told, ChildFirst, DriveFirst, IdsApart, ChildrenLead, Trace, Subtree;
    OrderLeads(root, w, v, n, m, order);
    OrderInside(root, w, v, n, m, order);
    SetOfOrder(w.snap.at, order, Subtree(w.snap.at, m));
    hide PostOrder;
    TraceTold(w.snap.tree, order);
    TraceInOrder(w.snap.tree, order);
    assert AsSet(order) == w.snap.tree.Keys - v.snap.tree.Keys;
    assert v.log[|w.log|..] == Trace(w.snap.tree, order);
  }

  lemma SetOfOrder(at: Lineage, order: seq<Node>, nodes: set<Node>)
    requires PostOrder(at, order, nodes)
    ensures AsSet(order) == nodes
  {
  }

  lemma SameFarewells(t: Tree, u: Tree, gone: set<Node>, events: seq<Event>)
    requires EachOnce(t, gone, events)
    requires forall k :: k in gone ==>
               k in t && k in u && t[k].id == u[k].id && t[k].folder == u[k].folder && t[k].parent == u[k].parent
    ensures EachOnce(u, gone, events)
  {
    forall e | e in events
      ensures SpeaksOf(u, gone, e)
    {
      assert SpeaksOf(t, gone, e);
    }
  }

  /** What a rename adds to the log is one farewell for each node of what stood at the new path. */
  lemma RenameTold(c: Cloud, root: Node, s: Snapshot, r: Renaming, v: World, log: seq<Event>, order: seq<Node>)
    requires Renames(c, root, s, r) && RenameDone(c, root, s, r, v, log, order)
    ensures v.snap.tree.Keys <= s.tree.Keys && log <= v.log
    ensures EachOnce(s.tree, s.tree.Keys - v.snap.tree.Keys, v.log[|log|..])
    ensures forall k :: k in s.tree ==> (k in v.snap.tree <==> s.tree[k].id in v.cloud)
  {
    var w := World(MovedCloud(c, s, r), MovedSnap(s, r), log);
    hide Renames, RemovedOne, MovedSnap, MovedCloud, EachOnce;
    MovedDomain(c, root, s, r);
    if r.y.Some? {
      RenamedLineage(c, root, s, r, v, log, order);
      RemovalTold(root, w, v, r.q, r.y.value, order);
      StayOnDrive(root, w, v, r.q, r.y.value, order);
      var gone := s.tree.Keys - v.snap.tree.Keys;
      forall k | k in s.tree
        ensures k in w.snap.tree && w.snap.tree[k].id == s.tree[k].id && w.snap.tree[k].folder == s.tree[k].folder
        ensures k in gone ==> w.snap.tree[k].parent == s.tree[k].parent
      {
        OnlyMovedChanges(s, r, k);
      }
      SameFarewells(w.snap.tree, s.tree, gone, v.log[|log|..]);
    } else {
      NothingOnce(s.tree);
      assert s.tree.Keys - v.snap.tree.Keys == {} && v.log[|log|..] == [];
      forall k | k in s.tree
        ensures s.tree[k].id in v.cloud
      {
        FaithfulIds(c, root, s, k);
      }
    }
  }

  lemma NothingOnce(t: Tree)
    ensures EachOnce(t, {}, [])
  {
    Nothing(t);
  }

  lemma RenamedLineage(c: Cloud, root: Node, s: Snapshot, r: Renaming, v: World, log: seq<Event>, order: seq<Node>)
    requires Renames(c, root, s, r) && RenameDone(c, root, s, r, v, log, order)
    ensures r.m in s.tree && r.m in v.snap.tree
  {
    RenamesFacts(c, root, s, r);
    hide RenameDone;
    Survivors(c, root, s, r, v, log, order, r.m);
  }

  lemma OnlyMovedChanges(s: Snapshot, r: Renaming, k: Node)
    requires k in s.tree
    ensures var t := MovedSnap(s, r).tree;
            && k in t && t[k].id == s.tree[k].id && t[k].folder == s.tree[k].folder
            && (k != r.m ==> t[k].parent == s.tree[k].parent)
  {
  }
}
