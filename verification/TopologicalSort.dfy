/** The work-list topological sort of `compileRenderPlan`. */
module TopologicalSort {
  import opened Ordered
  import opened Graph

  /** The ordering edges into `n` whose source has not been visited yet. */
  function Pending(edges: set<(NodeId, NodeId)>, n: NodeId, done: set<NodeId>): set<(NodeId, NodeId)> {
    set e | e in edges && e.1 == n && e.0 !in done
  }

  ghost predicate ListsSuccessors(edges: set<(NodeId, NodeId)>, successors: map<NodeId, seq<NodeId>>) {
    && (forall s :: s in successors ==> Distinct(successors[s]))
    && (forall s, d :: s in successors && d in successors[s] ==> (s, d) in edges)
    && (forall e :: e in edges ==> e.0 in successors && e.1 in successors[e.0])
  }

  /** `inDegree` counts the unvisited predecessors of every node. */
  ghost predicate Counts(nodes: set<NodeId>, edges: set<(NodeId, NodeId)>, inDegree: map<NodeId, int>,
    done: set<NodeId>)
  {
    && inDegree.Keys == nodes
    && (forall n :: n in nodes ==> inDegree[n] == |Pending(edges, n, done)|)
  }

  /** Visited and waiting nodes are exactly those with no unvisited predecessor. */
  ghost predicate Frontier(nodes: set<NodeId>, inDegree: map<NodeId, int>, order: seq<NodeId>, ready: seq<NodeId>)
    requires inDegree.Keys == nodes
  {
    && Distinct(order + ready)
    && (forall n :: n in order + ready <==> n in nodes && inDegree[n] == 0)
  }

  lemma AddSuccessor(seen: set<(NodeId, NodeId)>, successors: map<NodeId, seq<NodeId>>, e: (NodeId, NodeId))
    requires ListsSuccessors(seen, successors) && e !in seen
    ensures var known := if e.0 in successors then successors[e.0] else [];
            ListsSuccessors(seen + {e}, successors[e.0 := known + [e.1]])
  {
    var known := if e.0 in successors then successors[e.0] else [];
    var updated := successors[e.0 := known + [e.1]];
    assert e == (e.0, e.1);
    assert e.1 in known ==> (e.0, e.1) in seen;
    forall s, d | s in updated && d in updated[s] ensures (s, d) in seen + {e} {
      if s == e.0 && d !in known { assert d == e.1; }
    }
  }

  lemma AddCount(nodes: set<NodeId>, seen: set<(NodeId, NodeId)>, inDegree: map<NodeId, int>, e: (NodeId, NodeId))
    requires Counts(nodes, seen, inDegree, {}) && e !in seen && e.1 in nodes
    ensures Counts(nodes, seen + {e}, inDegree[e.1 := inDegree[e.1] + 1], {})
  {
    assert Pending(seen + {e}, e.1, {}) == Pending(seen, e.1, {}) + {e};
    forall n | n in nodes && n != e.1 ensures Pending(seen + {e}, n, {}) == Pending(seen, n, {}) {}
  }

  method SortedEdges(t: Topology) returns (edges: seq<(NodeId, NodeId)>)
    ensures Distinct(edges) && Elements(edges) == Edges(t)
    ensures forall i, j :: 0 <= i < j < |edges| ==> EdgeLess(edges[i], edges[j])
  {
    edges := SortedElements(Edges(t), EdgeLess);
  }

  /** Builds the adjacency lists and in-degrees from the deduplicated ordering edges. */
  method CountEdges(t: Topology) returns (successors: map<NodeId, seq<NodeId>>, inDegree: map<NodeId, int>)
    requires WellBuilt(t)
    ensures ListsSuccessors(Edges(t), successors)
    ensures Counts(t.nodes, Edges(t), inDegree, {})
  {
    successors := map[];
    inDegree := map n | n in t.nodes :: 0;
    var edges := SortedEdges(t);
    ghost var seen: set<(NodeId, NodeId)> := {};
    var k := 0;
    while k < |edges|
      invariant 0 <= k <= |edges|
      invariant seen == Elements(edges[..k])
      invariant ListsSuccessors(seen, successors)
      invariant Counts(t.nodes, seen, inDegree, {})
    {
      var edge := edges[k];
      NextElement(edges, k);
      assert edge in Elements(edges);
      assert edge in Edges(t) && edge.1 in t.nodes;
      AddSuccessor(seen, successors, edge);
      AddCount(t.nodes, seen, inDegree, edge);
      seen := seen + {edge};
      var known := if edge.0 in successors then successors[edge.0] else [];
      successors := successors[edge.0 := known + [edge.1]];
      inDegree := inDegree[edge.1 := inDegree[edge.1] + 1];
      k := k + 1;
    }
    assert edges[..k] == edges;
    assert seen == Edges(t);
  }

  /** Part way through the successors of `id`: those already visited no longer count it. */
  ghost predicate PartlyVisited(
    nodes: set<NodeId>, edges: set<(NodeId, NodeId)>, inDegree: map<NodeId, int>,
    done: set<NodeId>, id: NodeId, visited: seq<NodeId>)
  {
    && inDegree.Keys == nodes
    && (forall n :: n in nodes && n in visited ==> inDegree[n] == |Pending(edges, n, done + {id})|)
    && (forall n :: n in nodes && n !in visited ==> inDegree[n] == |Pending(edges, n, done)|)
  }

  lemma VisitOne(
    nodes: set<NodeId>, edges: set<(NodeId, NodeId)>, inDegree: map<NodeId, int>,
    done: set<NodeId>, id: NodeId, visited: seq<NodeId>, next: NodeId)
    requires PartlyVisited(nodes, edges, inDegree, done, id, visited)
    requires id !in done && next !in visited && (id, next) in edges && next in nodes
    ensures inDegree[next] > 0
    ensures PartlyVisited(nodes, edges, inDegree[next := inDegree[next] - 1], done, id, visited + [next])
  {
    assert (id, next) in Pending(edges, next, done);
    assert Pending(edges, next, done + {id}) == Pending(edges, next, done) - {(id, next)};
  }

  lemma AllVisited(
    nodes: set<NodeId>, edges: set<(NodeId, NodeId)>, inDegree: map<NodeId, int>,
    done: set<NodeId>, id: NodeId, next: seq<NodeId>)
    requires PartlyVisited(nodes, edges, inDegree, done, id, next)
    requires forall d :: d in next <==> (id, d) in edges
    ensures Counts(nodes, edges, inDegree, done + {id})
  {
    forall n | n in nodes ensures inDegree[n] == |Pending(edges, n, done + {id})| {
      if n !in next {
        assert (id, n) !in edges;
        assert Pending(edges, n, done + {id}) == Pending(edges, n, done);
      }
    }
  }

  lemma LowerOne(nodes: set<NodeId>, inDegree: map<NodeId, int>, order: seq<NodeId>, ready: seq<NodeId>, n: NodeId)
    requires inDegree.Keys == nodes && Frontier(nodes, inDegree, order, ready)
    requires n in nodes && inDegree[n] > 0
    ensures var lowered := inDegree[n := inDegree[n] - 1];
            Frontier(nodes, lowered, order, if lowered[n] == 0 then ready + [n] else ready)
  {
    assert n !in order + ready;
    assert order + (ready + [n]) == (order + ready) + [n];
  }

  /** Marks `id` visited for each of its successors in turn, queueing those that become ready. */
  method VisitSuccessors(
    nodes: set<NodeId>, ghost edges: set<(NodeId, NodeId)>, next: seq<NodeId>, id: NodeId,
    ghost done: set<NodeId>, ghost order: seq<NodeId>, inDegree0: map<NodeId, int>, ready0: seq<NodeId>)
    returns (inDegree: map<NodeId, int>, ready: seq<NodeId>)
    requires id !in done && Distinct(next)
    requires forall d :: d in next <==> (id, d) in edges
    requires forall e :: e in edges ==> e.0 in nodes && e.1 in nodes
    requires Counts(nodes, edges, inDegree0, done)
    requires Frontier(nodes, inDegree0, order, ready0)
    ensures Counts(nodes, edges, inDegree, done + {id})
    ensures Frontier(nodes, inDegree, order, ready)
  {
    inDegree, ready := inDegree0, ready0;
    var k := 0;
    while k < |next|
      invariant 0 <= k <= |next|
      invariant PartlyVisited(nodes, edges, inDegree, done, id, next[..k])
      invariant Frontier(nodes, inDegree, order, ready)
    {
      var successor := next[k];
      assert next[..k + 1] == next[..k] + [successor];
      assert (id, successor) in edges;
      VisitOne(nodes, edges, inDegree, done, id, next[..k], successor);
      LowerOne(nodes, inDegree, order, ready, successor);
      inDegree := inDegree[successor := inDegree[successor] - 1];
      if inDegree[successor] == 0 {
        ready := ready + [successor];
      }
      k := k + 1;
    }
    assert next[..k] == next;
    AllVisited(nodes, edges, inDegree, done, id, next);
  }

  /** The nodes without predecessors, queued in increasing order. */
  method InitiallyReady(nodes: set<NodeId>, inDegree: map<NodeId, int>) returns (ready: seq<NodeId>)
    requires inDegree.Keys == nodes
    ensures Frontier(nodes, inDegree, [], ready)
    ensures Increasing(ready)
  {
    var sorted := SortedNodes(nodes);
    ready := [];
    ghost var seen: set<NodeId> := {};
    var k := 0;
    while k < |sorted|
      invariant 0 <= k <= |sorted|
      invariant seen == Elements(sorted[..k])
      invariant Increasing(ready)
      invariant forall n :: n in ready <==> n in seen && n in nodes && inDegree[n] == 0
    {
      var node := sorted[k];
      assert sorted[..k + 1] == sorted[..k] + [node];
      assert node in sorted;
      forall n | n in seen ensures n < node {
        var i :| 0 <= i < k && sorted[..k][i] == n;
        assert sorted[i] == n;
      }
      if inDegree[node] == 0 {
        forall i | 0 <= i < |ready| ensures ready[i] < node { assert ready[i] in seen; }
        ready := ready + [node];
      }
      seen := seen + {node};
      k := k + 1;
    }
    assert sorted[..k] == sorted;
    assert seen == nodes;
    assert [] + ready == ready;
  }

  method SortedNodes(nodes: set<NodeId>) returns (sorted: seq<NodeId>)
    ensures Increasing(sorted) && Elements(sorted) == nodes
  {
    sorted := SortedElements(nodes, NodeLess);
    forall i, j | 0 <= i < j < |sorted| ensures sorted[i] < sorted[j] {
      assert NodeLess(sorted[i], sorted[j]);
    }
  }

  ghost predicate Increasing(s: seq<NodeId>) {
    forall i, j :: 0 <= i < j < |s| ==> s[i] < s[j]
  }

  /** What one round of the work-list loop starts from. */
  ghost predicate Sorting(t: Topology, inDegree: map<NodeId, int>, order: seq<NodeId>, ready: seq<NodeId>) {
    && Counts(t.nodes, Edges(t), inDegree, Elements(order))
    && Frontier(t.nodes, inDegree, order, ready)
    && LeadsForward(Edges(t), order)
  }

  /** One round: pops the front of the queue and visits its successors. */
  method VisitFront(t: Topology, successors: map<NodeId, seq<NodeId>>, inDegree0: map<NodeId, int>, order0: seq<NodeId>,
    ready0: seq<NodeId>)
    returns (inDegree: map<NodeId, int>, order: seq<NodeId>, ready: seq<NodeId>)
    requires WellBuilt(t) && ListsSuccessors(Edges(t), successors)
    requires Sorting(t, inDegree0, order0, ready0) && ready0 != []
    ensures Sorting(t, inDegree, order, ready)
    ensures order == order0 + [ready0[0]] && |order0| < |t.nodes|
  {
    var id := ready0[0];
    PopFront(t, inDegree0, order0, ready0);
    order := order0 + [id];
    var next := if id in successors then successors[id] else [];
    assert forall d :: d in next ==> (id, d) in Edges(t);
    forall d | (id, d) in Edges(t) ensures d in next { assert (id, d).0 in successors; }
    inDegree, ready := VisitSuccessors(t.nodes, Edges(t), next, id, Elements(order0), order, inDegree0, ready0[1..]);
    ElementsOfLonger(order0, id);
    ExtendForward(Edges(t), order0, id);
  }

  lemma ElementsOfLonger(order: seq<NodeId>, id: NodeId)
    ensures Elements(order + [id]) == Elements(order) + {id}
  {}

  lemma PopFront(t: Topology, inDegree: map<NodeId, int>, order: seq<NodeId>, ready: seq<NodeId>)
    requires Sorting(t, inDegree, order, ready) && ready != []
    ensures ready[0] in t.nodes && ready[0] !in order
    ensures Frontier(t.nodes, inDegree, order + [ready[0]], ready[1..])
    ensures forall e :: e in Edges(t) && e.1 == ready[0] ==> e.0 in order
    ensures |order| < |t.nodes|
  {
    assert order + ready == (order + [ready[0]]) + ready[1..];
    assert (order + ready)[|order|] == ready[0];
    assert ready[0] in order + ready;
    assert ready[0] !in order by {
      forall i | 0 <= i < |order| ensures order[i] != ready[0] { assert (order + ready)[i] == order[i]; }
    }
    ReadyHasNoPredecessor(Edges(t), inDegree, t.nodes, order, ready[0]);
    OrderFits(t.nodes, inDegree, order, ready);
  }

  /** Orders the nodes; the order is complete exactly when the graph has no cycle. */
  method TopologicalOrder(t: Topology) returns (order: seq<NodeId>)
    requires WellBuilt(t)
    ensures Distinct(order) && forall n :: n in order ==> n in t.nodes
    ensures |order| == |t.nodes| <==> !HasCycle(t)
    ensures |order| == |t.nodes| ==> IsTopologicalOrder(t, order)
  {
    var successors, inDegree := CountEdges(t);
    var ready := InitiallyReady(t.nodes, inDegree);
    order := [];
    assert Elements(order) == {};
    while ready != []
      invariant Sorting(t, inDegree, order, ready)
      decreases |t.nodes| - |order|
    {
      inDegree, order, ready := VisitFront(t, successors, inDegree, order, ready);
    }
    assert order + ready == order;
    DrainedOrder(t, inDegree, order);
  }

  /** Once the queue is empty, the visited nodes decide whether there is a cycle. */
  lemma DrainedOrder(t: Topology, inDegree: map<NodeId, int>, order: seq<NodeId>)
    requires WellBuilt(t) && Sorting(t, inDegree, order, [])
    ensures Distinct(order) && forall n :: n in order ==> n in t.nodes
    ensures |order| == |t.nodes| <==> !HasCycle(t)
    ensures |order| == |t.nodes| ==> IsTopologicalOrder(t, order)
  {
    assert order + [] == order;
    DistinctLength(order);
    assert Elements(order) <= t.nodes;
    SubsetSize(Elements(order), t.nodes);
    if |order| == |t.nodes| {
      TopologicalOrderHasNoCycle(t, order);
    } else {
      var blocked := t.nodes - Elements(order);
      forall n | n in blocked ensures HasPredecessorIn(t, blocked, n) {
        assert n !in order && inDegree[n] != 0;
        assert Pending(Edges(t), n, Elements(order)) != {};
        var e :| e in Pending(Edges(t), n, Elements(order));
        assert e == (e.0, n);
        assert e.0 in t.nodes;
        assert e.0 in blocked && (e.0, n) in Edges(t);
      }
      assert blocked != {};
      BlockedNodesHaveCycle(t, blocked);
    }
  }

  lemma OrderFits(nodes: set<NodeId>, inDegree: map<NodeId, int>, order: seq<NodeId>, ready: seq<NodeId>)
    requires inDegree.Keys == nodes && Frontier(nodes, inDegree, order, ready) && ready != []
    ensures |order| < |nodes|
  {
    DistinctLength(order + ready);
    assert Elements(order + ready) <= nodes;
    SubsetSize(Elements(order + ready), nodes);
  }

  lemma ReadyHasNoPredecessor(edges: set<(NodeId, NodeId)>, inDegree: map<NodeId, int>, nodes: set<NodeId>,
    order: seq<NodeId>, id: NodeId)
    requires Counts(nodes, edges, inDegree, Elements(order))
    requires id in nodes && inDegree[id] == 0
    ensures forall e :: e in edges && e.1 == id ==> e.0 in order
  {
    assert Pending(edges, id, Elements(order)) == {};
    forall e | e in edges && e.1 == id ensures e.0 in order {
      assert e !in Pending(edges, id, Elements(order));
    }
  }
}
