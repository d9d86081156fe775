/** Creating, removing and moving nodes in memory, in step with the same update on the drive. */
module TreeUpdates {
  import opened Basics
  import opened CloudTree
  import opened CloudUpdates
  import opened CloudRename
  import opened LoadedTree

  // ---------- a new child of a filled folder ----------

  ghost function AddedTree(t: Tree, n: Node, m: Node, i: Id, x: Name, folder: bool): Tree
    requires n in t
  {
    t[n := t[n].(next := t[n].next + [m])][m := NodeState(i, x, folder, false, [], n)]
  }

  ghost predicate AddSetup(c: Cloud, t: Tree, root: Node, at: Lineage, n: Node, m: Node, i: Id) {
    && WellFormed(c) && Mirrors(c, t, root, at)
    && n in t && t[n].filled && m !in t && i !in c
  }

  lemma AddedComplete(c: Cloud, t: Tree, root: Node, at: Lineage, n: Node, m: Node, i: Id, x: Name, folder: bool,
                      l: Node)
    requires AddSetup(c, t, root, at, n, m, i) && l in t
    ensures t[n].id in c && t[l].id in c
    ensures Complete(Created(c, t[n].id, i, x, folder), AddedTree(t, n, m, i, x, folder), l)
  {
    NobodysChild(c, i);
    hide WellFormed, Holds, Owns, Attached;
    assert NodeOk(c, t, root, at, n);
    assert NodeOk(c, t, root, at, l);
    IdsDiffer(c, t, root, at, n, l);
    var u := AddedTree(t, n, m, i, x, folder);
    if t[l].filled {
      forall k | k in Created(c, t[n].id, i, x, folder)[t[l].id].kids
        ensures Holds(u, l, k)
      {
        if k == i { NewIsHeld(u, n, m); } else { HoldsStays(t, u, l, l, k); }
      }
    }
  }

  lemma AddedNodeOk(c: Cloud, t: Tree, root: Node, at: Lineage, n: Node, m: Node, i: Id, x: Name, folder: bool, l: Node)
    requires AddSetup(c, t, root, at, n, m, i) && l in AddedTree(t, n, m, i, x, folder)
    ensures t[n].id in c
    ensures NodeOk(Created(c, t[n].id, i, x, folder), AddedTree(t, n, m, i, x, folder), root, at[m := at[n] + [i]], l)
  {
    hide WellFormed, Complete, Mirrors, NodeOk;
    AddedAmong(c, t, root, at, n, m, i, l);
    if l == m {
      AddedNewOk(c, t, root, at, n, m, i, x, folder);
    } else {
      AddedOldOk(c, t, root, at, n, m, i, x, folder, l);
    }
  }

  lemma AddedNewOk(c: Cloud, t: Tree, root: Node, at: Lineage, n: Node, m: Node, i: Id, x: Name, folder: bool)
    requires AddSetup(c, t, root, at, n, m, i)
    ensures t[n].id in c
    ensures NodeOk(Created(c, t[n].id, i, x, folder), AddedTree(t, n, m, i, x, folder), root, at[m := at[n] + [i]], m)
  {
    hide WellFormed, Complete, Mirrors;
    AddedAmong(c, t, root, at, n, m, i, n);
    NewIsComplete(Created(c, t[n].id, i, x, folder), AddedTree(t, n, m, i, x, folder), m);
  }

  lemma AddedOldOk(c: Cloud, t: Tree, root: Node, at: Lineage, n: Node, m: Node, i: Id, x: Name, folder: bool, l: Node)
    requires AddSetup(c, t, root, at, n, m, i) && l in t
    ensures t[n].id in c
    ensures NodeOk(Created(c, t[n].id, i, x, folder), AddedTree(t, n, m, i, x, folder), root, at[m := at[n] + [i]], l)
  {
    hide WellFormed, Complete, Mirrors;
    AddedAmong(c, t, root, at, n, m, i, l);
    IdsDiffer(c, t, root, at, n, l);
    AddedComplete(c, t, root, at, n, m, i, x, folder, l);
  }

  lemma AddedAmong(c: Cloud, t: Tree, root: Node, at: Lineage, n: Node, m: Node, i: Id, l: Node)
    requires AddSetup(c, t, root, at, n, m, i)
    ensures WellFormed(c) && Mirrors(c, t, root, at) && at.Keys == t.Keys && root in t && NodeOk(c, t, root, at, n)
    ensures l in t ==> NodeOk(c, t, root, at, l)
  {
    hide WellFormed, NodeOk;
  }

  lemma NewIsComplete(c: Cloud, t: Tree, m: Node)
    requires m in t && !t[m].filled && t[m].id in c
    ensures Complete(c, t, m)
  {
  }

  lemma NewIsHeld(u: Tree, n: Node, m: Node)
    requires n in u && m in u && m in u[n].next
    ensures Holds(u, n, u[m].id)
  {
  }

  lemma AddMirrors(c: Cloud, t: Tree, root: Node, at: Lineage, n: Node, m: Node, i: Id, x: Name, folder: bool)
    requires AddSetup(c, t, root, at, n, m, i)
    ensures t[n].id in c
    ensures Mirrors(Created(c, t[n].id, i, x, folder), AddedTree(t, n, m, i, x, folder), root, at[m := at[n] + [i]])
  {
    hide WellFormed;
    var u := AddedTree(t, n, m, i, x, folder);
    AddedNodeOk(c, t, root, at, n, m, i, x, folder, n);
    forall l | l in u
      ensures NodeOk(Created(c, t[n].id, i, x, folder), u, root, at[m := at[n] + [i]], l)
    {
      AddedNodeOk(c, t, root, at, n, m, i, x, folder, l);
    }
    forall k, l | k in u && l in u && SameId(u, k, l)
      ensures k == l
    {
      if k in t { assert NodeOk(c, t, root, at, k); }
      if l in t { assert NodeOk(c, t, root, at, l); }
      if k in t && l in t { assert SameId(t, k, l); }
    }
  }

  // ---------- a node without loaded children disappears ----------

  ghost function LeafDropped(t: Tree, m: Node): Tree
    requires m in t && t[m].parent != null && t[m].parent in t
  {
    var p := t[m].parent;
    t[p := t[p].(next := Without(t[p].next, m))] - {m}
  }

  ghost predicate LeafSetup(c: Cloud, t: Tree, root: Node, at: Lineage, m: Node) {
    && WellFormed(c) && Mirrors(c, t, root, at)
    && m in t && m != root && t[m].next == []
  }

  /** The drive deletes a whole subtree, but none of its other entries is loaded. */
  lemma OthersOutside(c: Cloud, t: Tree, root: Node, at: Lineage, m: Node)
    requires LeafSetup(c, t, root, at, m)
    ensures t[m].id in c
    ensures forall l :: l in t && l != m ==> t[l].id !in Below(c, t[m].id)
  {
    assert NodeOk(c, t, root, at, m);
    var i := t[m].id;
    var rest := set l | l in t && l != m :: t[l].id;
    assert i !in rest by {
      if i in rest {
        var l :| l in t && l != m && t[l].id == i;
        IdsDiffer(c, t, root, at, l, m);
      }
    }
    var s := Below(c, i) - rest;
    forall j, k | j in s && j in c && k in c[j].kids && k in c
      ensures k in s
    {
      if k in rest {
        var l :| l in t && l != m && t[l].id == k;
        LeafChildless(c, t, root, at, m, j, l);
      }
    }
    hide WellFormed;
    BelowLeast(c, i, s);
  }

  lemma LeafChildless(c: Cloud, t: Tree, root: Node, at: Lineage, m: Node, j: Id, l: Node)
    requires LeafSetup(c, t, root, at, m) && l in t && j in c && t[l].id in c[j].kids
    ensures exists p :: p in t && p != m && t[p].id == j
  {
    assert NodeOk(c, t, root, at, l);
    assert t[root].id == ROOT;
    var p := t[l].parent;
    assert NodeOk(c, t, root, at, p);
    assert t[p].id == j;
  }

  lemma DroppedComplete(c: Cloud, t: Tree, root: Node, at: Lineage, m: Node, l: Node)
    requires LeafSetup(c, t, root, at, m) && l in t && l != m
    ensures t[m].parent != null && t[m].parent in t && t[m].id in c && t[l].id in Removed(c, t[m].id)
    ensures l in LeafDropped(t, m) && Complete(Removed(c, t[m].id), LeafDropped(t, m), l)
  {
    hide WellFormed, Holds, Below, Removed;
    OthersOutside(c, t, root, at, m);
    assert NodeOk(c, t, root, at, m);
    assert NodeOk(c, t, root, at, l);
    RemovedEntry(c, t[m].id, t[l].id);
    var u, i := LeafDropped(t, m), t[m].id;
    if t[l].filled {
      forall k | k in Without(c[t[l].id].kids, i)
        ensures Holds(u, l, k)
      {
        hide Attached;
        HoldsStays(t, u, l, l, k);
      }
    }
  }

  lemma DroppedNodeOk(c: Cloud, t: Tree, root: Node, at: Lineage, m: Node, l: Node)
    requires LeafSetup(c, t, root, at, m) && l in t && l != m
    ensures t[m].parent != null && t[m].parent in t && t[m].id in c
    ensures l in LeafDropped(t, m) && NodeOk(Removed(c, t[m].id), LeafDropped(t, m), root, at - {m}, l)
  {
    hide WellFormed, Holds, Below, Removed, Complete;
    OthersOutside(c, t, root, at, m);
    assert NodeOk(c, t, root, at, m);
    assert NodeOk(c, t, root, at, l);
    RemovedEntry(c, t[m].id, t[l].id);
    DroppedComplete(c, t, root, at, m, l);
    forall k | k in LeafDropped(t, m)[l].next
      ensures k in t && k != m && t[k].id != t[m].id
    {
      IdsDiffer(c, t, root, at, k, m);
    }
  }

  lemma LeafLineage(c: Cloud, t: Tree, root: Node, at: Lineage, m: Node)
    requires LeafSetup(c, t, root, at, m)
    ensures t[m].parent != null && t[m].parent in t && t[m].parent != m
  {
    assert NodeOk(c, t, root, at, m);
    assert NodeOk(c, t, root, at, t[m].parent);
  }

  /** Dropping the node while the drive removes its entry keeps the mirror. */
  lemma LeafMirrors(c: Cloud, t: Tree, root: Node, at: Lineage, m: Node)
    requires LeafSetup(c, t, root, at, m)
    ensures t[m].parent != null && t[m].parent in t && t[m].id in c
    ensures Mirrors(Removed(c, t[m].id), LeafDropped(t, m), root, at - {m})
  {
    hide WellFormed, NodeOk, Removed;
    LeafLineage(c, t, root, at, m);
    DroppedNodeOk(c, t, root, at, m, root);
    var u := LeafDropped(t, m);
    forall l | l in u
      ensures NodeOk(Removed(c, t[m].id), u, root, at - {m}, l)
    {
      DroppedNodeOk(c, t, root, at, m, l);
    }
    forall k, l | k in u && l in u && SameId(u, k, l)
      ensures k == l
    {
      assert SameId(t, k, l);
    }
  }

  // ---------- a node moves, with all it owns, to another folder or name ----------

  ghost predicate MoveSetup(c: Cloud, t: Tree, root: Node, at: Lineage, m: Node, p: Node, q: Node) {
    && WellFormed(c) && Mirrors(c, t, root, at)
    && m in t && m != root && t[m].parent == p && p in t
    && q in t && t[q].filled && !(at[m] <= at[q])
  }

  ghost function MovedState(t: Tree, m: Node, p: Node, q: Node, x: Name, n: Node): NodeState
    requires n in t
  {
    if n == m then t[n].(name := x, parent := q)
    else if n == q then t[n].(next := Without(t[n].next, m) + [m])
    else if n == p then t[n].(next := Without(t[n].next, m))
    else t[n]
  }

  ghost function MovedTree(t: Tree, m: Node, p: Node, q: Node, x: Name): Tree {
    map n | n in t :: MovedState(t, m, p, q, x, n)
  }

  /** The moved subtree hangs below its new folder; everything else keeps its lineage. */
  ghost function MovedLineage(at: Lineage, m: Node, q: Node): Lineage
    requires m in at && q in at && at[m] != []
  {
    map n | n in at :: if at[m] <= at[n] then at[q] + at[n][|at[m]| - 1..] else at[n]
  }

  lemma LineageEnds(c: Cloud, t: Tree, root: Node, at: Lineage, m: Node)
    requires Mirrors(c, t, root, at) && m in t && m != root
    ensures t[m].parent != null && t[m].parent in t && at[m] == at[t[m].parent] + [t[m].id]
  {
    assert NodeOk(c, t, root, at, m);
    assert NodeOk(c, t, root, at, t[m].parent);
  }

  lemma LineageInjective(c: Cloud, t: Tree, root: Node, at: Lineage, l: Node, m: Node)
    requires Mirrors(c, t, root, at) && l in t && m in t && at[l] == at[m]
    ensures l == m
  {
    if l != root { LineageEnds(c, t, root, at, l); }
    if m != root { LineageEnds(c, t, root, at, m); }
    IdsDiffer(c, t, root, at, l, m);
    hide NodeOk;
    if l != root && m != root {
      assert at[l][|at[l]| - 1] == t[l].id && at[m][|at[m]| - 1] == t[m].id;
    }
  }

  lemma MovedLineageStep(c: Cloud, t: Tree, root: Node, at: Lineage, m: Node, p: Node, q: Node, x: Name, n: Node,
                         l: Node)
    requires MoveSetup(c, t, root, at, m, p, q)
    requires n in t && l in MovedState(t, m, p, q, x, n).next
    ensures at[m] != [] && l in at && MovedLineage(at, m, q)[l] == MovedLineage(at, m, q)[n] + [t[l].id]
  {
    hide WellFormed, Holds;
    LineageEnds(c, t, root, at, m);
    if l != m {
      assert NodeOk(c, t, root, at, n);
      PrefixOfSnoc(at[m], at[n], t[l].id);
      if at[m] == at[l] { LineageInjective(c, t, root, at, l, m); }
      if at[m] <= at[n] {
        assert (at[n] + [t[l].id])[|at[m]| - 1..] == at[n][|at[m]| - 1..] + [t[l].id];
      }
    } else {
      assert at[m][|at[m]| - 1..] == [t[m].id];
    }
  }

  lemma MovedKid(c: Cloud, t: Tree, root: Node, at: Lineage, m: Node, p: Node, q: Node, x: Name, n: Node, k: Id)
    requires MoveSetup(c, t, root, at, m, p, q) && n in t
    ensures t[m].id in c && t[p].id in c && t[q].id in c && t[n].id in c
    ensures var d := UpdateFor(c, t[m].id, t[p].id, t[q].id, x);
            t[n].id in d && (k in d[t[n].id].kids <==> if k == t[m].id then n == q else k in c[t[n].id].kids)
  {
    assert NodeOk(c, t, root, at, m);
    assert NodeOk(c, t, root, at, p);
    assert NodeOk(c, t, root, at, q);
    assert NodeOk(c, t, root, at, n);
    hide WellFormed, Holds;
    UpdateKids(c, t[m].id, t[p].id, t[q].id, x, t[n].id, k);
    IdsDiffer(c, t, root, at, n, q);
  }

  lemma MovedNext(c: Cloud, t: Tree, root: Node, at: Lineage, m: Node, p: Node, q: Node, x: Name, n: Node, l: Node)
    requires MoveSetup(c, t, root, at, m, p, q) && n in t
    ensures NoDup(MovedState(t, m, p, q, x, n).next)
    ensures l in MovedState(t, m, p, q, x, n).next <==> if l == m then n == q else l in t[n].next
  {
    hide WellFormed, Holds;
    assert NodeOk(c, t, root, at, n);
    if n == m && m in t[m].next { LineageEnds(c, t, root, at, m); }
    assert m in t[n].next ==> t[m].parent == n;
    if n == q { assert m !in Without(t[n].next, m); }
  }

  lemma MovedShows(c: Cloud, t: Tree, root: Node, at: Lineage, m: Node, p: Node, q: Node, x: Name, n: Node)
    requires MoveSetup(c, t, root, at, m, p, q) && n in t
    ensures t[m].id in c
    ensures Shows(UpdateFor(c, t[m].id, t[p].id, t[q].id, x), MovedTree(t, m, p, q, x), root, n)
  {
    hide WellFormed, Complete;
    assert NodeOk(c, t, root, at, n);
    assert NodeOk(c, t, root, at, m);
    assert NodeOk(c, t, root, at, p);
    IdsDiffer(c, t, root, at, n, m);
  }

  lemma MovedOwnedKid(c: Cloud, t: Tree, root: Node, at: Lineage, m: Node, p: Node, q: Node, x: Name, n: Node, l: Node)
    requires MoveSetup(c, t, root, at, m, p, q) && n in t
    requires l in MovedState(t, m, p, q, x, n).next
    ensures at[m] != [] && l in t && l != root && MovedState(t, m, p, q, x, l).parent == n
    ensures MovedLineage(at, m, q)[l] == MovedLineage(at, m, q)[n] + [t[l].id]
    ensures t[m].id in c && t[n].id in UpdateFor(c, t[m].id, t[p].id, t[q].id, x)
    ensures t[l].id in UpdateFor(c, t[m].id, t[p].id, t[q].id, x)[t[n].id].kids
  {
    hide WellFormed, NodeOk, UpdateFor, MovedLineage;
    MovedLineageStep(c, t, root, at, m, p, q, x, n, l);
    MovedNext(c, t, root, at, m, p, q, x, n, l);
    MovedKid(c, t, root, at, m, p, q, x, n, t[l].id);
    IdsDiffer(c, t, root, at, l, m);
    OwnedNode(c, t, root, at, n, l);
  }

  lemma MovedOwns(c: Cloud, t: Tree, root: Node, at: Lineage, m: Node, p: Node, q: Node, x: Name, n: Node)
    requires MoveSetup(c, t, root, at, m, p, q) && n in t
    ensures at[m] != [] && t[m].id in c && MovedLineage(at, m, q).Keys == MovedTree(t, m, p, q, x).Keys
    ensures t[n].id in UpdateFor(c, t[m].id, t[p].id, t[q].id, x)
    ensures Owns(UpdateFor(c, t[m].id, t[p].id, t[q].id, x), MovedTree(t, m, p, q, x), root, MovedLineage(at, m, q), n)
  {
    hide WellFormed, NodeOk, UpdateFor, Mirrors, MovedLineage;
    MovedKeys(c, t, root, at, m, p, q, x);
    LineageEnds(c, t, root, at, m);
    MovedKid(c, t, root, at, m, p, q, x, n, t[m].id);
    MovedNext(c, t, root, at, m, p, q, x, n, m);
    forall l | l in MovedTree(t, m, p, q, x)[n].next
      ensures l in t && l != root && MovedState(t, m, p, q, x, l).parent == n
      ensures MovedLineage(at, m, q)[l] == MovedLineage(at, m, q)[n] + [t[l].id]
      ensures t[l].id in UpdateFor(c, t[m].id, t[p].id, t[q].id, x)[t[n].id].kids
    {
      MovedOwnedKid(c, t, root, at, m, p, q, x, n, l);
    }
  }

  lemma MovedKeys(c: Cloud, t: Tree, root: Node, at: Lineage, m: Node, p: Node, q: Node, x: Name)
    requires MoveSetup(c, t, root, at, m, p, q)
    ensures at.Keys == t.Keys && m in at && q in at && at[m] != []
    ensures MovedLineage(at, m, q).Keys == MovedTree(t, m, p, q, x).Keys == t.Keys
  {
    hide WellFormed, NodeOk;
    LineageEnds(c, t, root, at, m);
  }

  lemma OwnedNode(c: Cloud, t: Tree, root: Node, at: Lineage, n: Node, l: Node)
    requires Mirrors(c, t, root, at) && n in t
    ensures t[n].id in c
    ensures l in t[n].next ==> l in t && l != root && t[l].parent == n && t[l].id in c[t[n].id].kids
  {
    assert NodeOk(c, t, root, at, n);
  }

  lemma MovedAttached(c: Cloud, t: Tree, root: Node, at: Lineage, m: Node, p: Node, q: Node, x: Name, n: Node)
    requires MoveSetup(c, t, root, at, m, p, q) && n in t
    ensures Attached(MovedTree(t, m, p, q, x), root, n)
  {
    hide WellFormed, Owns, Shows, Complete;
    assert NodeOk(c, t, root, at, n);
    if n != root {
      MovedNext(c, t, root, at, m, p, q, x, if n == m then q else t[n].parent, n);
    }
  }

  lemma MovedComplete(c: Cloud, t: Tree, root: Node, at: Lineage, m: Node, p: Node, q: Node, x: Name, n: Node)
    requires MoveSetup(c, t, root, at, m, p, q) && n in t
    ensures t[m].id in c && t[n].id in UpdateFor(c, t[m].id, t[p].id, t[q].id, x)
    ensures Complete(UpdateFor(c, t[m].id, t[p].id, t[q].id, x), MovedTree(t, m, p, q, x), n)
  {
    MovedKid(c, t, root, at, m, p, q, x, n, t[m].id);
    hide WellFormed, Owns, Shows, Holds, UpdateFor;
    if t[n].filled {
      forall k | k in UpdateFor(c, t[m].id, t[p].id, t[q].id, x)[t[n].id].kids
        ensures Holds(MovedTree(t, m, p, q, x), n, k)
      {
        MovedHolds(c, t, root, at, m, p, q, x, n, k);
      }
    }
  }

  lemma MovedNodeOk(c: Cloud, t: Tree, root: Node, at: Lineage, m: Node, p: Node, q: Node, x: Name, n: Node)
    requires MoveSetup(c, t, root, at, m, p, q) && n in t
    ensures at[m] != [] && t[m].id in c && MovedLineage(at, m, q).Keys == MovedTree(t, m, p, q, x).Keys
    ensures NodeOk(UpdateFor(c, t[m].id, t[p].id, t[q].id, x), MovedTree(t, m, p, q, x), root,
                   MovedLineage(at, m, q), n)
  {
    hide WellFormed, Owns, Attached, Shows, Complete, UpdateFor;
    MovedOwns(c, t, root, at, m, p, q, x, n);
    MovedShows(c, t, root, at, m, p, q, x, n);
    MovedAttached(c, t, root, at, m, p, q, x, n);
    MovedComplete(c, t, root, at, m, p, q, x, n);
  }

  lemma MovedHolds(c: Cloud, t: Tree, root: Node, at: Lineage, m: Node, p: Node, q: Node, x: Name, n: Node, k: Id)
    requires MoveSetup(c, t, root, at, m, p, q) && n in t && t[n].filled
    requires t[m].id in c && t[n].id in c && k in UpdateFor(c, t[m].id, t[p].id, t[q].id, x)[t[n].id].kids
    ensures Holds(MovedTree(t, m, p, q, x), n, k)
  {
    hide WellFormed, Owns, Attached, UpdateFor, Holds;
    MovedKid(c, t, root, at, m, p, q, x, n, k);
    assert NodeOk(c, t, root, at, n);
    var u := MovedTree(t, m, p, q, x);
    if k == t[m].id {
      MovedNext(c, t, root, at, m, p, q, x, n, m);
      NewIsHeld(u, n, m);
    } else {
      forall l | l in t[n].next && l in t && t[l].id == k
        ensures l in u[n].next && l in u && u[l].id == k
      {
        MovedNext(c, t, root, at, m, p, q, x, n, l);
      }
      HoldsStays(t, u, n, n, k);
    }
  }

  /** Moving a node with its whole subtree, while the drive gets one update request, keeps the mirror. */
  lemma MoveMirrors(c: Cloud, t: Tree, root: Node, at: Lineage, m: Node, p: Node, q: Node, x: Name)
    requires MoveSetup(c, t, root, at, m, p, q)
    ensures at[m] != [] && t[m].id in c
    ensures Mirrors(UpdateFor(c, t[m].id, t[p].id, t[q].id, x), MovedTree(t, m, p, q, x), root, MovedLineage(at, m, q))
  {
    hide WellFormed, NodeOk, UpdateFor;
    LineageEnds(c, t, root, at, m);
    MovedNodeOk(c, t, root, at, m, p, q, x, root);
    var u, at' := MovedTree(t, m, p, q, x), MovedLineage(at, m, q);
    forall n | n in u
      ensures NodeOk(UpdateFor(c, t[m].id, t[p].id, t[q].id, x), u, root, at', n)
    {
      MovedNodeOk(c, t, root, at, m, p, q, x, n);
    }
    forall k, l | k in u && l in u && SameId(u, k, l)
      ensures k == l
    {
      assert SameId(t, k, l);
    }
  }
}
