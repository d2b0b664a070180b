/** The mutable control-thread topology (`GraphDescription`), its invariant, and the
    graph-theoretic vocabulary used to state what the compiler promises. */
module Graph {
  import opened Ordered

  type NodeId = nat

  const MIDI_LANE := -1

  datatype Connection = Connection(
    sourceNode: NodeId,
    sourceChannel: int,
    destinationNode: NodeId,
    destinationChannel: int
  ) {
    predicate IsMidi() {
      sourceChannel == MIDI_LANE && destinationChannel == MIDI_LANE
    }

    predicate HasMixedLaneTypes() {
      (sourceChannel == MIDI_LANE) != (destinationChannel == MIDI_LANE)
    }

    predicate Touches(id: NodeId) {
      sourceNode == id || destinationNode == id
    }
  }

  /** One node's output channel; the compiler's key for an audio signal. */
  datatype Signal = Signal(node: NodeId, channel: int)

  /** The value of a `GraphDescription`. */
  datatype Topology = Topology(nodes: set<NodeId>, connections: set<Connection>)

  predicate NodeLess(a: NodeId, b: NodeId) { a < b }

  predicate SignalLess(a: Signal, b: Signal) {
    if a.node != b.node then a.node < b.node else a.channel < b.channel
  }

  predicate EdgeLess(a: (NodeId, NodeId), b: (NodeId, NodeId)) {
    if a.0 != b.0 then a.0 < b.0 else a.1 < b.1
  }

  predicate ConnectionLess(a: Connection, b: Connection) {
    if a.sourceNode != b.sourceNode then a.sourceNode < b.sourceNode
    else if a.sourceChannel != b.sourceChannel then a.sourceChannel < b.sourceChannel
    else if a.destinationNode != b.destinationNode then a.destinationNode < b.destinationNode
    else a.destinationChannel < b.destinationChannel
  }

  /** What `addNode` and `addConnection` guarantee of every graph they build. */
  ghost predicate WellBuilt(t: Topology) {
    && 0 !in t.nodes
    && (forall c :: c in t.connections ==> Admissible(t.nodes, c))
  }

  predicate Admissible(nodes: set<NodeId>, c: Connection) {
    && c.sourceNode != c.destinationNode
    && !c.HasMixedLaneTypes()
    && (c.IsMidi() || (c.sourceChannel >= 0 && c.destinationChannel >= 0))
    && c.sourceNode in nodes
    && c.destinationNode in nodes
  }

  // ----- edges, paths and cycles

  function EdgeOf(c: Connection): (NodeId, NodeId) {
    (c.sourceNode, c.destinationNode)
  }

  function Edges(t: Topology): set<(NodeId, NodeId)> {
    set c | c in t.connections :: EdgeOf(c)
  }

  ghost predicate IsPath(t: Topology, path: seq<NodeId>) {
    && |path| > 0
    && (forall i :: 0 <= i < |path| ==> path[i] in t.nodes)
    && (forall i :: 0 <= i < |path| - 1 ==> (path[i], path[i + 1]) in Edges(t))
  }

  ghost predicate IsCycle(t: Topology, path: seq<NodeId>) {
    IsPath(t, path) && |path| >= 2 && path[0] == path[|path| - 1]
  }

  ghost predicate HasCycle(t: Topology) {
    exists path :: IsCycle(t, path)
  }

  /** `order` visits every node once, and every edge leads forward. */
  ghost predicate IsTopologicalOrder(t: Topology, order: seq<NodeId>) {
    && Distinct(order)
    && (forall n :: n in order <==> n in t.nodes)
    && (forall i, j :: 0 <= i < |order| && 0 <= j < |order| && (order[i], order[j]) in Edges(t) ==> i < j)
  }

  /** A topological order rules out cycles. */
  lemma TopologicalOrderHasNoCycle(t: Topology, order: seq<NodeId>)
    requires IsTopologicalOrder(t, order)
    ensures !HasCycle(t)
  {
    if path :| IsCycle(t, path) {
      var i :| 0 <= i < |order| && order[i] == path[0];
      var j := PathLeadsForward(t, order, path, i, |path| - 1);
    }
  }

  lemma {:induction false} PathLeadsForward(t: Topology, order: seq<NodeId>, path: seq<NodeId>, i: nat, k: nat)
    returns (j: nat)
    requires IsTopologicalOrder(t, order) && IsPath(t, path) && k < |path|
    requires i < |order| && order[i] == path[0]
    ensures j < |order| && order[j] == path[k] && j >= i + k
  {
    if k == 0 {
      j := i;
    } else {
      var h := PathLeadsForward(t, order, path, i, k - 1);
      assert path[k] in order;
      j :| 0 <= j < |order| && order[j] == path[k];
      assert (path[k - 1], path[k - 1 + 1]) in Edges(t);
    }
  }

  ghost predicate HasPredecessorIn(t: Topology, blocked: set<NodeId>, n: NodeId) {
    exists p :: p in blocked && (p, n) in Edges(t)
  }

  /** If every remaining node has a remaining predecessor, walking backwards must revisit a node. */
  lemma BlockedNodesHaveCycle(t: Topology, blocked: set<NodeId>)
    requires blocked != {} && blocked <= t.nodes
    requires forall n {:trigger HasPredecessorIn(t, blocked, n)} :: n in blocked ==> HasPredecessorIn(t, blocked, n)
    ensures HasCycle(t)
  {
    var path := WalkBack(t, blocked, |blocked| + 1);
    var i, j := Pigeonhole(path, blocked);
    var cycle := path[i..j + 1];
    forall k | 0 <= k < |cycle| - 1 ensures (cycle[k], cycle[k + 1]) in Edges(t) {
      assert cycle[k] == path[i + k] && cycle[k + 1] == path[i + k + 1];
    }
    assert IsCycle(t, cycle);
  }

  lemma {:induction false} WalkBack(t: Topology, blocked: set<NodeId>, length: nat) returns (path: seq<NodeId>)
    requires blocked != {} && blocked <= t.nodes && length >= 1
    requires forall n {:trigger HasPredecessorIn(t, blocked, n)} :: n in blocked ==> HasPredecessorIn(t, blocked, n)
    ensures IsPath(t, path) && |path| == length
    ensures forall k :: 0 <= k < |path| ==> path[k] in blocked
  {
    if length == 1 {
      var n :| n in blocked;
      path := [n];
    } else {
      var tail := WalkBack(t, blocked, length - 1);
      assert HasPredecessorIn(t, blocked, tail[0]);
      var p :| p in blocked && (p, tail[0]) in Edges(t);
      path := [p] + tail;
      assert forall k :: 1 <= k < |path| ==> path[k] == tail[k - 1];
      forall k | 0 <= k < |path| - 1 ensures (path[k], path[k + 1]) in Edges(t) {
        if k > 0 { assert (tail[k - 1], tail[k - 1 + 1]) in Edges(t); }
      }
    }
  }

  // ----- the class

  class GraphDescription {
    var nodes: set<NodeId>
    var connections: set<Connection>

    function Value(): Topology
      reads this
    {
      Topology(nodes, connections)
    }

    ghost predicate Valid()
      reads this
    {
      WellBuilt(Value())
    }

    constructor ()
      ensures Valid() && Value() == Topology({}, {})
    {
      nodes, connections := {}, {};
    }

    method Clear()
      modifies this
      ensures Valid() && Value() == Topology({}, {})
    {
      nodes, connections := {}, {};
    }

    method AddNode(id: NodeId) returns (added: bool)
      requires Valid()
      modifies this`nodes
      ensures Valid()
      ensures added <==> id != 0 && id !in old(nodes)
      ensures nodes == if added then old(nodes) + {id} else old(nodes)
    {
      added := id != 0 && id !in nodes;
      if added {
        nodes := nodes + {id};
      }
    }

    /** Removes the node and, one by one, every connection that touches it. */
    method RemoveNode(id: NodeId) returns (removed: bool)
      requires Valid()
      modifies this
      ensures Valid()
      ensures removed <==> id in old(nodes)
      ensures nodes == old(nodes) - {id}
      ensures connections == set c | c in old(connections) && !(removed && c.Touches(id))
    {
      removed := id in nodes;
      if !removed {
        assert nodes == old(nodes) - {id};
        return;
      }
      nodes := nodes - {id};
      var order := SortedConnections(connections);
      var k := 0;
      while k < |order|
        invariant 0 <= k <= |order|
        invariant nodes == old(nodes) - {id}
        invariant connections == set c | c in old(connections) && !(c in order[..k] && c.Touches(id))
      {
        if order[k].Touches(id) {
          connections := connections - {order[k]};
        }
        k := k + 1;
      }
      assert order[..k] == order;
    }

    method AddConnection(connection: Connection) returns (added: bool)
      requires Valid()
      modifies this`connections
      ensures Valid()
      ensures added <==> Admissible(nodes, connection) && connection !in old(connections)
      ensures connections == if added then old(connections) + {connection} else old(connections)
    {
      if connection.sourceNode == connection.destinationNode
         || connection.HasMixedLaneTypes()
         || (!connection.IsMidi() && (connection.sourceChannel < 0 || connection.destinationChannel < 0))
         || connection.sourceNode !in nodes
         || connection.destinationNode !in nodes
      {
        return false;
      }
      added := connection !in connections;
      connections := connections + {connection};
    }

    method RemoveConnection(connection: Connection) returns (removed: bool)
      requires Valid()
      modifies this`connections
      ensures Valid()
      ensures removed <==> connection in old(connections)
      ensures connections == old(connections) - {connection}
    {
      removed := connection in connections;
      connections := connections - {connection};
    }
  }

  /** The connections in the order in which a `std::set` of them is traversed. */
  method SortedConnections(connections: set<Connection>) returns (sorted: seq<Connection>)
    ensures Distinct(sorted) && Elements(sorted) == connections
    ensures forall i, j :: 0 <= i < j < |sorted| ==> ConnectionLess(sorted[i], sorted[j])
  {
    sorted := SortedElements(connections, ConnectionLess);
  }

  /** The first nodes of an order: edges lead forward, and no predecessor is missing. */
  ghost predicate LeadsForward(edges: set<(NodeId, NodeId)>, order: seq<NodeId>) {
    && (forall i, j :: 0 <= i < |order| && 0 <= j < |order| && (order[i], order[j]) in edges ==> i < j)
    && (forall e :: e in edges && e.1 in order ==> e.0 in order)
  }

  lemma ExtendForward(edges: set<(NodeId, NodeId)>, order: seq<NodeId>, id: NodeId)
    requires LeadsForward(edges, order) && id !in order
    requires forall e :: e in edges && e.1 == id ==> e.0 in order
    ensures LeadsForward(edges, order + [id])
  {
    var longer := order + [id];
    forall i, j | 0 <= i < |longer| && 0 <= j < |longer| && (longer[i], longer[j]) in edges
      ensures i < j
    {
      if j < |order| {
        assert longer[i] in order;
        assert i < |order|;
      } else {
        assert longer[i] in order;
      }
    }
  }
}
