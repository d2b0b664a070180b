/** What the recorded latencies mean: longest audio paths, and compensation that makes every path
    between two nodes equally long. */
module Latency {
  import opened Ordered
  import opened Graph
  import opened RenderPlans
  import opened Alignment

  /** Consecutive audio connections, the first leaving `from` and the last entering `to`. */
  ghost predicate IsAudioPath(t: Topology, path: seq<Connection>, from: NodeId, to: NodeId)
    decreases |path|
  {
    if path == [] then from == to && from in t.nodes
    else
      var last := path[|path| - 1];
      last in t.connections && IsAudioInto(last, to) && IsAudioPath(t, path[..|path| - 1], from, last.sourceNode)
  }

  /** The latencies of the nodes the signal passes through before it reaches the end of the path. */
  ghost function PathLatency(info: NodeInfoMap, path: seq<Connection>): int
    requires forall c :: c in path ==> c.sourceNode in info
  {
    if path == [] then 0
    else PathLatency(info, path[..|path| - 1]) + info[path[|path| - 1].sourceNode].latencySamples
  }

  /** The delays that the code of a plan inserts along a path. */
  ghost function PathDelay(plan: RenderPlan, path: seq<Connection>): int {
    if path == [] then 0 else PathDelay(plan, path[..|path| - 1]) + InsertedDelay(plan, path[|path| - 1])
  }

  lemma {:induction false} PathStaysInside(t: Topology, info: NodeInfoMap, arrival: map<NodeId, int>,
    path: seq<Connection>, from: NodeId, to: NodeId)
    requires WellBuilt(t) && WellFormed(t, info) && arrival.Keys == t.nodes
    requires IsAudioPath(t, path, from, to)
    ensures from in t.nodes && to in t.nodes
    ensures forall c :: c in path ==> c.sourceNode in arrival && c.destinationNode in arrival && c.sourceNode in info
    decreases |path|
  {
    if path != [] {
      var last := path[|path| - 1];
      assert Admissible(t.nodes, last);
      PathStaysInside(t, info, arrival, path[..|path| - 1], from, last.sourceNode);
      assert path == path[..|path| - 1] + [last];
    }
  }

  /** Along any audio path, node latencies plus the delays in the code total what the plan records for its ends: every
      path between two nodes is equally long. */
  lemma {:induction false} CompensationIsPathIndependent(plan: RenderPlan, t: Topology, info: NodeInfoMap,
    path: seq<Connection>, from: NodeId, to: NodeId)
    requires WellBuilt(t) && WellFormed(t, info) && AllInStep(plan, t, info) && IsAudioPath(t, path, from, to)
    ensures from in t.nodes && to in t.nodes && forall c :: c in path ==> c.sourceNode in info
    ensures PathLatency(info, path) + PathDelay(plan, path)
         == (plan.latencyAtNode[to] - info[to].latencySamples) - (plan.latencyAtNode[from] - info[from].latencySamples)
    ensures PathDelay(plan, path) >= 0
    decreases |path|
  {
    PathStaysInside(t, info, plan.latencyAtNode, path, from, to);
    if path != [] {
      var last := path[|path| - 1];
      CompensationIsPathIndependent(plan, t, info, path[..|path| - 1], from, last.sourceNode);
      ConnectionLinesUp(plan, t, info, last);
    }
  }

  /** No audio path into a node is longer than its recorded arrival. */
  lemma {:induction false} ArrivalBoundsEveryPath(t: Topology, info: NodeInfoMap, arrival: map<NodeId, int>,
    path: seq<Connection>, from: NodeId, to: NodeId)
    requires WellBuilt(t) && WellFormed(t, info) && IsArrival(t, info, arrival)
    requires IsAudioPath(t, path, from, to)
    ensures to in arrival && forall c :: c in path ==> c.sourceNode in info
    ensures PathLatency(info, path) <= arrival[to]
    decreases |path|
  {
    PathStaysInside(t, info, arrival, path, from, to);
    assert IsArrivalAt(t, info, arrival, to);
    if path != [] {
      var last := path[|path| - 1];
      ArrivalBoundsEveryPath(t, info, arrival, path[..|path| - 1], from, last.sourceNode);
    }
  }

  /** Some audio path into the node is exactly that long. */
  lemma {:induction false} ArrivalIsAttained(t: Topology, info: NodeInfoMap, arrival: map<NodeId, int>,
    order: seq<NodeId>, k: nat)
    returns (path: seq<Connection>, from: NodeId)
    requires WellBuilt(t) && WellFormed(t, info) && IsArrival(t, info, arrival)
    requires IsTopologicalOrder(t, order) && k < |order|
    ensures order[k] in arrival && IsAudioPath(t, path, from, order[k])
    ensures forall c :: c in path ==> c.sourceNode in info
    ensures PathLatency(info, path) == arrival[order[k]]
    decreases k
  {
    var n := order[k];
    assert n in order && IsArrivalAt(t, info, arrival, n);
    if arrival[n] == 0 {
      path, from := [], n;
    } else {
      var c :| Attains(t, info, arrival, n, c);
      assert Admissible(t.nodes, c) && EdgeOf(c) in Edges(t) && c.sourceNode in order;
      var i :| 0 <= i < |order| && order[i] == c.sourceNode;
      assert (order[i], order[k]) in Edges(t);
      var before;
      before, from := ArrivalIsAttained(t, info, arrival, order, i);
      path := before + [c];
      assert path[..|path| - 1] == before;
      PathIsShort(t, info, arrival, before, from, c.sourceNode);
    }
  }

  lemma PathIsShort(t: Topology, info: NodeInfoMap, arrival: map<NodeId, int>, before: seq<Connection>, from: NodeId,
    to: NodeId)
    requires WellBuilt(t) && WellFormed(t, info) && IsArrival(t, info, arrival)
    requires IsAudioPath(t, before, from, to)
    ensures forall c :: c in before ==> c.sourceNode in info
    ensures PathLatency(info, before) <= arrival[to]
  {
    ArrivalBoundsEveryPath(t, info, arrival, before, from, to);
  }

  // ----- every acyclic graph can be ordered

  /** A graph without cycles has a topological order. */
  lemma AcyclicHasOrder(t: Topology) returns (order: seq<NodeId>)
    requires WellBuilt(t) && !HasCycle(t)
    ensures IsTopologicalOrder(t, order)
  {
    order := ExtendOrder(t, []);
  }

  ghost predicate OrdersPrefix(t: Topology, order: seq<NodeId>) {
    && Distinct(order)
    && (forall n :: n in order ==> n in t.nodes)
    && LeadsForward(Edges(t), order)
  }

  lemma {:induction false} ExtendOrder(t: Topology, prefix: seq<NodeId>) returns (order: seq<NodeId>)
    requires WellBuilt(t) && !HasCycle(t) && OrdersPrefix(t, prefix)
    ensures IsTopologicalOrder(t, order)
    decreases |t.nodes - Elements(prefix)|
  {
    var rest := t.nodes - Elements(prefix);
    if rest == {} {
      order := prefix;
      forall n ensures n in order <==> n in t.nodes { assert n in t.nodes ==> n in Elements(prefix); }
    } else {
      var n := FirstReady(t, rest);
      var longer := prefix + [n];
      forall e | e in Edges(t) && e.1 == n ensures e.0 in prefix { assert e.0 in t.nodes; }
      ExtendForward(Edges(t), prefix, n);
      assert Elements(longer) == Elements(prefix) + {n};
      assert t.nodes - Elements(longer) == rest - {n};
      order := ExtendOrder(t, longer);
    }
  }

  lemma FirstReady(t: Topology, rest: set<NodeId>) returns (n: NodeId)
    requires WellBuilt(t) && !HasCycle(t) && rest != {} && rest <= t.nodes
    ensures n in rest && forall e :: e in Edges(t) && e.1 == n ==> e.0 !in rest
  {
    if forall n {:trigger HasPredecessorIn(t, rest, n)} :: n in rest ==> HasPredecessorIn(t, rest, n) {
      BlockedNodesHaveCycle(t, rest);
      assert false;
    }
    n :| n in rest && !HasPredecessorIn(t, rest, n);
    forall e | e in Edges(t) && e.1 == n ensures e.0 !in rest {
      assert e == (e.0, n);
    }
  }

  /** An arrival is the length of the longest audio path into the node. */
  ghost predicate IsLongest(t: Topology, info: NodeInfoMap, n: NodeId, arrival: int) {
    && (exists path: seq<Connection>, from: NodeId ::
          IsAudioPath(t, path, from, n) && InsideInfo(info, path) && PathLatency(info, path) == arrival)
    && (forall path: seq<Connection>, from: NodeId :: IsAudioPath(t, path, from, n) ==>
      InsideInfo(info, path) && PathLatency(info, path) <= arrival)
  }

  ghost predicate InsideInfo(info: NodeInfoMap, path: seq<Connection>) {
    forall c :: c in path ==> c.sourceNode in info
  }

  lemma ArrivalIsLongest(t: Topology, info: NodeInfoMap, arrival: map<NodeId, int>, order: seq<NodeId>, n: NodeId)
    requires WellBuilt(t) && WellFormed(t, info) && IsArrival(t, info, arrival) && IsTopologicalOrder(t, order)
      && n in t.nodes
    ensures n in arrival && IsLongest(t, info, n, arrival[n])
  {
    assert n in order;
    var k :| 0 <= k < |order| && order[k] == n;
    var path, from := ArrivalIsAttained(t, info, arrival, order, k);
    assert InsideInfo(info, path);
    forall other: seq<Connection>, start: NodeId | IsAudioPath(t, other, start, n)
      ensures InsideInfo(info, other) && PathLatency(info, other) <= arrival[n]
    {
      ArrivalBoundsEveryPath(t, info, arrival, other, start, n);
    }
  }

  ghost predicate AllLongest(t: Topology, info: NodeInfoMap, arrival: map<NodeId, int>)
    requires arrival.Keys == t.nodes
  {
    forall n :: n in t.nodes ==> IsLongest(t, info, n, arrival[n])
  }

  ghost predicate HasOrder(t: Topology) {
    exists order :: IsTopologicalOrder(t, order)
  }

  lemma ArrivalsAreLongest(t: Topology, info: NodeInfoMap, arrival: map<NodeId, int>)
    requires WellBuilt(t) && WellFormed(t, info) && !HasCycle(t) && IsArrival(t, info, arrival)
    ensures AllLongest(t, info, arrival) == true && HasOrder(t) == true
  {
    var order := AcyclicHasOrder(t);
    forall n | n in t.nodes ensures IsLongest(t, info, n, arrival[n]) {
      ArrivalIsLongest(t, info, arrival, order, n);
    }
  }

  /** The latency recorded for a node is its own plus that of the longest audio path into it. */
  lemma RecordedLatencyIsLongestPath(t: Topology, info: NodeInfoMap, plan: RenderPlan, n: NodeId)
    requires Implements(plan, t, info) && n in t.nodes
    ensures IsLongest(t, info, n, plan.latencyAtNode[n] - info[n].latencySamples)
  {
    var order := AcyclicHasOrder(t);
    ArrivalIsLongest(t, info, ArrivalIn(plan, info), order, n);
  }
}
