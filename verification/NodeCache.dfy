/** The path cache: three maps that must stay views of one relation between nodes, paths and ids. */
module NodeCache {
  import opened Basics

  datatype Maps<N(==)> = Maps(paths: map<Path, N>, ids: map<Id, N>, nodes: map<N, Path>)

  /**
   * `paths` and `nodes` are inverse bijections, and `ids` holds the same nodes under their ids
   * (`idOf` gives the id of every live node, so only live nodes are cached).
   */
  ghost predicate Consistent<N>(s: Maps<N>, idOf: map<N, Id>) {
    && (forall p :: p in s.paths ==> s.paths[p] in s.nodes && s.nodes[s.paths[p]] == p)
    && (forall n :: n in s.nodes ==> s.nodes[n] in s.paths && s.paths[s.nodes[n]] == n)
    && (forall n :: n in s.nodes ==> n in idOf && idOf[n] in s.ids && s.ids[idOf[n]] == n)
    && (forall i :: i in s.ids ==> s.ids[i] in s.nodes && s.ids[i] in idOf && idOf[s.ids[i]] == i)
  }

  function Inserted<N(==)>(s: Maps<N>, path: Path, id: Id, node: N): Maps<N> {
    Maps(s.paths[path := node], s.ids[id := node], s.nodes[node := path])
  }

  /** The state without a node, its path and its id. */
  function Purged<N(==)>(s: Maps<N>, node: N, id: Id): Maps<N> {
    if node in s.nodes then Maps(s.paths - {s.nodes[node]}, s.ids - {id}, s.nodes - {node}) else s
  }

  class Cache<N(==)> {
    var pathNodes: map<Path, N>
    var idNodes: map<Id, N>
    var nodes: map<N, Path>

    constructor ()
      ensures State() == Maps(map[], map[], map[])
    {
      pathNodes, idNodes, nodes := map[], map[], map[];
    }

    function State(): Maps<N>
      reads this
    {
      Maps(pathNodes, idNodes, nodes)
    }

    predicate Holds(path: Path, n: N)
      reads this
    {
      path in pathNodes && pathNodes[path] == n
    }

    method FindByPath(path: Path) returns (r: Option<N>)
      ensures r == if path in pathNodes then Some(pathNodes[path]) else None
    {
      if path in pathNodes { return Some(pathNodes[path]); }
      return None;
    }

    method Insert(path: Path, id: Id, node: N)
      modifies this
      ensures State() == Inserted(old(State()), path, id, node)
      ensures pathNodes == old(pathNodes)[path := node] && idNodes == old(idNodes)[id := node]
      ensures nodes == old(nodes)[node := path]
    {
      pathNodes := pathNodes[path := node];
      idNodes := idNodes[id := node];
      nodes := nodes[node := path];
    }

    method SlotNodeRemoved(node: N, id: Id)
      modifies this
      ensures State() == Purged(old(State()), node, id)
      ensures if node in old(nodes) then
                && nodes == old(nodes) - {node} && idNodes == old(idNodes) - {id}
                && pathNodes == old(pathNodes) - {old(nodes)[node]}
              else nodes == old(nodes) && idNodes == old(idNodes) && pathNodes == old(pathNodes)
    {
      if node in nodes {
        if nodes[node] in pathNodes {
          pathNodes := pathNodes - {nodes[node]};
        }
        if id in idNodes {
          idNodes := idNodes - {id};
        }
        nodes := nodes - {node};
      }
    }

    /** Any change of a node, including a new name or parent, drops it from the cache. */
    method SlotNodeChanged(node: N, id: Id)
      modifies this
      ensures State() == Purged(old(State()), node, id)
    {
      SlotNodeRemoved(node, id);
    }
  }

  /** An insert keeps the three maps in step exactly when it adds a new node at a new path, or repeats an entry. */
  lemma InsertConsistent<N>(s: Maps<N>, idOf: map<N, Id>, path: Path, node: N)
    requires Consistent(s, idOf) && node in idOf
    requires forall n :: n in idOf && idOf[n] == idOf[node] ==> n == node
    ensures Consistent(Inserted(s, path, idOf[node], node), idOf) <==>
            if path in s.paths then s.paths[path] == node else node !in s.nodes
  {
    var u := Inserted(s, path, idOf[node], node);
    if path in s.paths && s.paths[path] != node {
      assert u.nodes[s.paths[path]] == path;
    } else if path !in s.paths && node in s.nodes {
      assert u.paths[s.nodes[node]] == node;
    }
  }

  /** A purge drops the node from all three maps, touches no other entry, and forgets it for good. */
  lemma PurgeExact<N>(s: Maps<N>, idOf: map<N, Id>, node: N)
    requires Consistent(s, idOf) && node in idOf
    ensures var u := Purged(s, node, idOf[node]);
            && Consistent(u, idOf) && Consistent(u, idOf - {node})
            && u.nodes == s.nodes - {node}
            && u.paths == (map p | p in s.paths && s.paths[p] != node :: s.paths[p])
            && u.ids == (map i | i in s.ids && s.ids[i] != node :: s.ids[i])
  {
  }

  // ---------- nodes that are gone ----------

  /** Every path leads to a node filed under that path, and under no other. */
  ghost predicate OnePathEach<N>(s: Maps<N>) {
    forall p :: p in s.paths ==> s.paths[p] in s.nodes && s.nodes[s.paths[p]] == p
  }

  ghost predicate Unreached<N>(s: Maps<N>, node: N) {
    forall p :: p in s.paths ==> s.paths[p] != node
  }

  /** No purged node is ever found again exactly if each is filed under the one path that leads to it. */
  lemma NoneDangles<N>(s: Maps<N>, idOf: map<N, Id>)
    requires forall p :: p in s.paths ==> s.paths[p] in idOf
    ensures OnePathEach(s) <==> forall n :: n in idOf ==> Unreached(Purged(s, n, idOf[n]), n)
  {
    if !OnePathEach(s) {
      var p :| p in s.paths && !(s.paths[p] in s.nodes && s.nodes[s.paths[p]] == p);
      var n := s.paths[p];
      assert p in Purged(s, n, idOf[n]).paths && Purged(s, n, idOf[n]).paths[p] == n;
      assert !Unreached(Purged(s, n, idOf[n]), n);
    }
  }

  /** An insert keeps that unless the node is on file under another path that still leads to it. */
  lemma InsertKeepsOnePath<N>(s: Maps<N>, path: Path, id: Id, node: N)
    requires OnePathEach(s)
    ensures OnePathEach(Inserted(s, path, id, node)) <==>
            (node in s.nodes && s.nodes[node] != path ==> s.nodes[node] !in s.paths || s.paths[s.nodes[node]] != node)
  {
    var u := Inserted(s, path, id, node);
    if node in s.nodes && s.nodes[node] != path && s.nodes[node] in s.paths {
      assert u.paths[s.nodes[node]] == s.paths[s.nodes[node]];
    }
  }

  lemma MoreLive<N>(s: Maps<N>, idOf: map<N, Id>, more: map<N, Id>)
    requires Consistent(s, idOf)
    requires forall n :: n in idOf ==> n in more && more[n] == idOf[n]
    ensures Consistent(s, more)
  {
  }
}
