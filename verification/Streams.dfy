/** The meaning of a graph as streams of samples: every node is a state machine that consumes one frame
    of all its channels at a time, and every symbolic term denotes a sample for each point in time. */
module Streams {
  import opened Ordered
  import opened Graph
  import opened RenderPlans

  /** Samples with `zero` and `add` (no algebraic laws), per-frame MIDI with `noMidi` and `merge`, and one
      state machine per node. `next`, `out` and `midiOut` take the absolute frame number, which stands for
      everything that reaches the node from outside the graph (transport, parameters). Nodes outside
      `resolved` have no processor and pass their channels through. */
  datatype Machine<!S, !St, !M> = Machine(
    zero: S,
    add: (S, S) -> S,
    noMidi: M,
    merge: (M, M) -> M,
    start: NodeId -> St,
    next: (NodeId, nat, St, seq<S>, M) -> St,
    out: (NodeId, nat, St, seq<S>, M, nat) -> S,
    midiOut: (NodeId, nat, St, seq<S>, M) -> M,
    resolved: set<NodeId>
  ) {
    function Next(n: NodeId, t: nat, s: St, audio: seq<S>, midi: M): St {
      if n in resolved then next(n, t, s, audio, midi) else s
    }

    function Out(n: NodeId, t: nat, s: St, audio: seq<S>, midi: M, channel: nat): S
      requires channel < |audio|
    {
      if n in resolved then out(n, t, s, audio, midi, channel) else audio[channel]
    }

    function MidiOut(n: NodeId, t: nat, s: St, audio: seq<S>, midi: M): M {
      if n in resolved then midiOut(n, t, s, audio, midi) else midi
    }
  }

  /** A system of stream equations: the input of every node, and a rank that bounds which nodes it mentions. */
  datatype Net = Net(inputs: map<NodeId, NodeInput>, rank: map<NodeId, nat>)

  ghost function Bound(net: Net, term: Term): nat {
    match term
    case Silence => 0
    case Output(n, _) => if n in net.rank then net.rank[n] + 1 else 0
    case Delayed(u, _) => Bound(net, u)
    case Sum(l, r) => var a, b := Bound(net, l), Bound(net, r); if a < b then b else a
  }

  ghost function MidiBound(net: Net, term: MidiTerm): nat {
    match term
    case NoEvents => 0
    case NodeEvents(n) => if n in net.rank then net.rank[n] + 1 else 0
    case Merged(l, r) => var a, b := MidiBound(net, l), MidiBound(net, r); if a < b then b else a
  }

  /** Every node's input mentions only nodes of lower rank. */
  ghost predicate WellRanked(net: Net) {
    && net.rank.Keys == net.inputs.Keys
    && (forall n :: n in net.inputs ==> NodeRanked(net, n))
  }

  ghost predicate NodeRanked(net: Net, n: NodeId)
    requires n in net.inputs && n in net.rank
  {
    && (forall k :: 0 <= k < |net.inputs[n].audio| ==> Bound(net, net.inputs[n].audio[k]) <= net.rank[n])
    && MidiBound(net, net.inputs[n].midi) <= net.rank[n]
  }

  // ----- denotation

  /** The sample of a stream at time `t`; silence before time zero. */
  ghost function AudioAt<S, St, M>(m: Machine<S, St, M>, net: Net, term: Term, t: nat): S
    requires WellRanked(net)
    decreases Bound(net, term), 0, 0, term
  {
    match term
    case Silence => m.zero
    case Output(n, k) =>
      if n in net.inputs && 0 <= k < |net.inputs[n].audio| then OutputAt(m, net, n, t, k) else m.zero
    case Delayed(u, d) => if 0 <= d <= t then AudioAt(m, net, u, t - d) else m.zero
    case Sum(l, r) => m.add(AudioAt(m, net, l, t), AudioAt(m, net, r, t))
  }

  ghost function MidiAt<S, St, M>(m: Machine<S, St, M>, net: Net, term: MidiTerm, t: nat): M
    requires WellRanked(net)
    decreases MidiBound(net, term), 0, 0, term
  {
    match term
    case NoEvents => m.noMidi
    case NodeEvents(n) => if n in net.inputs then MidiOutAt(m, net, n, t) else m.noMidi
    case Merged(l, r) => m.merge(MidiAt(m, net, l, t), MidiAt(m, net, r, t))
  }

  /** What node `n` receives in frame `t`. */
  ghost function InputsAt<S, St, M>(m: Machine<S, St, M>, net: Net, n: NodeId, t: nat): (frame: seq<S>)
    requires WellRanked(net) && n in net.inputs
    ensures |frame| == |net.inputs[n].audio|
    decreases net.rank[n], 0, 1
  {
    assert NodeRanked(net, n);
    seq(|net.inputs[n].audio|, k requires 0 <= k < |net.inputs[n].audio| => AudioAt(m, net, net.inputs[n].audio[k], t))
  }

  ghost function MidiInAt<S, St, M>(m: Machine<S, St, M>, net: Net, n: NodeId, t: nat): M
    requires WellRanked(net) && n in net.inputs
    decreases net.rank[n], 0, 1
  {
    assert NodeRanked(net, n);
    MidiAt(m, net, net.inputs[n].midi, t)
  }

  /** The state of node `n` before frame `t`. */
  ghost function StateAt<S, St, M>(m: Machine<S, St, M>, net: Net, n: NodeId, t: nat): St
    requires WellRanked(net) && n in net.inputs
    decreases net.rank[n], t, 2
  {
    if t == 0 then m.start(n)
    else m.Next(n, t - 1, StateAt(m, net, n, t - 1), InputsAt(m, net, n, t - 1), MidiInAt(m, net, n, t - 1))
  }

  ghost function OutputAt<S, St, M>(m: Machine<S, St, M>, net: Net, n: NodeId, t: nat, channel: nat): S
    requires WellRanked(net) && n in net.inputs && channel < |net.inputs[n].audio|
    decreases net.rank[n], t + 1, 3
  {
    m.Out(n, t, StateAt(m, net, n, t), InputsAt(m, net, n, t), MidiInAt(m, net, n, t), channel)
  }

  ghost function MidiOutAt<S, St, M>(m: Machine<S, St, M>, net: Net, n: NodeId, t: nat): M
    requires WellRanked(net) && n in net.inputs
    decreases net.rank[n], t + 1, 3
  {
    m.MidiOut(n, t, StateAt(m, net, n, t), InputsAt(m, net, n, t), MidiInAt(m, net, n, t))
  }

  // ----- the net of a graph

  ghost function GraphNet(t: Topology, info: NodeInfoMap, arrival: map<NodeId, int>, order: seq<NodeId>): Net
    requires WellBuilt(t) && WellFormed(t, info) && arrival.Keys == t.nodes && IsTopologicalOrder(t, order)
  {
    Net(map n | n in t.nodes :: GraphInput(t, info, arrival, n), map n | n in t.nodes :: PositionOf(order, n))
  }

  ghost function PositionOf(order: seq<NodeId>, n: NodeId): (i: nat)
    ensures n in order ==> i < |order| && order[i] == n
  {
    if n in order then var i :| 0 <= i < |order| && order[i] == n; i else 0
  }

  lemma EdgeRaisesRank(t: Topology, order: seq<NodeId>, c: Connection)
    requires WellBuilt(t) && IsTopologicalOrder(t, order) && c in t.connections
    ensures PositionOf(order, c.sourceNode) + 1 <= PositionOf(order, c.destinationNode)
  {
    assert Admissible(t.nodes, c) && EdgeOf(c) in Edges(t);
    assert c.sourceNode in order && c.destinationNode in order;
    var i, j := PositionOf(order, c.sourceNode), PositionOf(order, c.destinationNode);
    assert (order[i], order[j]) in Edges(t);
  }

  lemma {:induction false} MixBound(net: Net, info: NodeInfoMap, arrival: map<NodeId, int>, n: NodeId,
    sources: seq<Signal>, limit: nat)
    requires n in arrival && forall s :: s in sources ==> s.node in arrival && s.node in info
    requires forall s :: s in sources ==> s.node in net.rank && net.rank[s.node] + 1 <= limit
    ensures Bound(net, Mix(info, arrival, n, sources)) <= limit
  {
    if sources != [] {
      var last := |sources| - 1;
      assert sources[last] in sources;
      assert forall s :: s in sources[..last] ==> s in sources;
      MixBound(net, info, arrival, n, sources[..last], limit);
      assert Bound(net, AlignedSource(info, arrival, n, sources[last])) <= limit;
    }
  }

  lemma {:induction false} MergeBound(net: Net, sources: seq<NodeId>, limit: nat)
    requires forall s :: s in sources ==> s in net.rank && net.rank[s] + 1 <= limit
    ensures MidiBound(net, MergeAll(sources)) <= limit
  {
    if sources != [] {
      var last := |sources| - 1;
      assert sources[last] in sources;
      MergeBound(net, sources[..last], limit);
    }
  }

  /** The equations of an acyclic graph have a well-founded solution. */
  lemma GraphNetIsRanked(t: Topology, info: NodeInfoMap, arrival: map<NodeId, int>, order: seq<NodeId>)
    requires WellBuilt(t) && WellFormed(t, info) && arrival.Keys == t.nodes && IsTopologicalOrder(t, order)
    ensures WellRanked(GraphNet(t, info, arrival, order))
  {
    var net := GraphNet(t, info, arrival, order);
    forall n | n in net.inputs ensures NodeRanked(net, n) {
      forall k | 0 <= k < |net.inputs[n].audio| ensures Bound(net, net.inputs[n].audio[k]) <= net.rank[n] {
        ChannelBound(t, info, arrival, order, n, k);
      }
      MidiInputBound(t, info, arrival, order, n);
    }
  }

  lemma ChannelBound(t: Topology, info: NodeInfoMap, arrival: map<NodeId, int>, order: seq<NodeId>, n: NodeId, k: nat)
    requires WellBuilt(t) && WellFormed(t, info) && arrival.Keys == t.nodes && IsTopologicalOrder(t, order)
      && n in t.nodes
    ensures Bound(GraphNet(t, info, arrival, order), GraphChannel(t, info, arrival, n, k)) <= PositionOf(order, n)
  {
    var net := GraphNet(t, info, arrival, order);
    var sources := SortedSources(t, n, k);
    SourcesAreNodes(t, n, k);
    forall s | s in sources ensures s.node in net.rank && net.rank[s.node] + 1 <= PositionOf(order, n) {
      assert s in Elements(sources);
      var c :| c in t.connections && !c.IsMidi() && c.destinationNode == n && c.destinationChannel == k
        && s == Signal(c.sourceNode, c.sourceChannel);
      EdgeRaisesRank(t, order, c);
    }
    MixBound(net, info, arrival, n, sources, PositionOf(order, n));
  }

  lemma MidiInputBound(t: Topology, info: NodeInfoMap, arrival: map<NodeId, int>, order: seq<NodeId>, n: NodeId)
    requires WellBuilt(t) && WellFormed(t, info) && arrival.Keys == t.nodes && IsTopologicalOrder(t, order)
      && n in t.nodes
    ensures MidiBound(GraphNet(t, info, arrival, order), MergeAll(SortedMidiSources(t, n))) <= PositionOf(order, n)
  {
    var net := GraphNet(t, info, arrival, order);
    var sources := SortedMidiSources(t, n);
    forall s | s in sources ensures s in net.rank && net.rank[s] + 1 <= PositionOf(order, n) {
      assert s in Elements(sources);
      var c :| c in t.connections && c.IsMidi() && c.destinationNode == n && c.sourceNode == s;
      EdgeRaisesRank(t, order, c);
      assert Admissible(t.nodes, c);
    }
    MergeBound(net, sources, PositionOf(order, n));
  }

  // ----- the denotation does not depend on the ranking

  /** Two rankings of the same equations denote the same streams. */
  lemma {:induction false} SameAudio<S, St, M>(m: Machine<S, St, M>, a: Net, b: Net, term: Term, t: nat)
    requires WellRanked(a) && WellRanked(b) && a.inputs == b.inputs
    ensures AudioAt(m, a, term, t) == AudioAt(m, b, term, t)
    decreases Bound(a, term), 0, 0, term
  {
    match term
    case Silence =>
    case Output(n, k) =>
      if n in a.inputs && 0 <= k < |a.inputs[n].audio| { SameNode(m, a, b, n, t); }
    case Delayed(u, d) => if 0 <= d <= t { SameAudio(m, a, b, u, t - d); }
    case Sum(l, r) => SameAudio(m, a, b, l, t); SameAudio(m, a, b, r, t);
  }

  lemma {:induction false} SameMidi<S, St, M>(m: Machine<S, St, M>, a: Net, b: Net, term: MidiTerm, t: nat)
    requires WellRanked(a) && WellRanked(b) && a.inputs == b.inputs
    ensures MidiAt(m, a, term, t) == MidiAt(m, b, term, t)
    decreases MidiBound(a, term), 0, 0, term
  {
    match term
    case NoEvents =>
    case NodeEvents(n) => if n in a.inputs { SameNode(m, a, b, n, t); }
    case Merged(l, r) => SameMidi(m, a, b, l, t); SameMidi(m, a, b, r, t);
  }

  lemma {:induction false} SameInputs<S, St, M>(m: Machine<S, St, M>, a: Net, b: Net, n: NodeId, t: nat)
    requires WellRanked(a) && WellRanked(b) && a.inputs == b.inputs && n in a.inputs
    ensures InputsAt(m, a, n, t) == InputsAt(m, b, n, t)
    ensures MidiInAt(m, a, n, t) == MidiInAt(m, b, n, t)
    decreases a.rank[n], 0, 1
  {
    assert NodeRanked(a, n);
    forall k | 0 <= k < |a.inputs[n].audio|
      ensures AudioAt(m, a, a.inputs[n].audio[k], t) == AudioAt(m, b, a.inputs[n].audio[k], t)
    {
      SameAudio(m, a, b, a.inputs[n].audio[k], t);
    }
    SameMidi(m, a, b, a.inputs[n].midi, t);
  }

  lemma {:induction false} SameState<S, St, M>(m: Machine<S, St, M>, a: Net, b: Net, n: NodeId, t: nat)
    requires WellRanked(a) && WellRanked(b) && a.inputs == b.inputs && n in a.inputs
    ensures StateAt(m, a, n, t) == StateAt(m, b, n, t)
    decreases a.rank[n], t, 2
  {
    if t > 0 {
      SameState(m, a, b, n, t - 1);
      SameInputs(m, a, b, n, t - 1);
    }
  }

  lemma {:induction false} SameNode<S, St, M>(m: Machine<S, St, M>, a: Net, b: Net, n: NodeId, t: nat)
    requires WellRanked(a) && WellRanked(b) && a.inputs == b.inputs && n in a.inputs
    ensures forall k :: 0 <= k < |a.inputs[n].audio| ==> OutputAt(m, a, n, t, k) == OutputAt(m, b, n, t, k)
    ensures MidiOutAt(m, a, n, t) == MidiOutAt(m, b, n, t)
    decreases a.rank[n], t + 1, 3
  {
    SameState(m, a, b, n, t);
    SameInputs(m, a, b, n, t);
  }
}
