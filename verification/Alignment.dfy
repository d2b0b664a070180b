/** What a node hears, read off the code of a plan: the sources that sound in a term, each with the delays above it. */
module Alignment {
  import opened Ordered
  import opened Graph
  import opened RenderPlans

  /** A signal that sounds in a term, and by how many samples it is held back there. */
  datatype Leaf = Leaf(source: Signal, delay: int)

  ghost function Leaves(term: Term): seq<Leaf> {
    match term
    case Silence => []
    case Output(n, channel) => [Leaf(Signal(n, channel), 0)]
    case Delayed(u, samples) => HeldBack(Leaves(u), samples)
    case Sum(l, r) => Leaves(l) + Leaves(r)
  }

  ghost function HeldBack(leaves: seq<Leaf>, samples: int): seq<Leaf> {
    seq(|leaves|, i requires 0 <= i < |leaves| => Leaf(leaves[i].source, leaves[i].delay + samples))
  }

  /** The sources are added one after the other, the first one taken as it is. */
  ghost predicate AddedInTurn(term: Term) {
    term.Sum? ==> |Leaves(term.right)| == 1 && |Leaves(term.left)| > 0 && AddedInTurn(term.left)
  }

  /** The given sources sound, in this order, all at the arrival of node `n`. */
  ghost predicate InStep(info: NodeInfoMap, arrival: map<NodeId, int>, n: NodeId, sources: seq<Signal>, term: Term)
    requires n in arrival && forall s :: s in sources ==> s.node in arrival && s.node in info
  {
    && AddedInTurn(term) && |Leaves(term)| == |sources|
    && forall i :: 0 <= i < |sources| ==>
         Leaves(term)[i].source == sources[i] && Leaves(term)[i].delay >= 0
         && arrival[sources[i].node] + info[sources[i].node].latencySamples + Leaves(term)[i].delay == arrival[n]
  }

  lemma {:induction false} MixIsInStep(info: NodeInfoMap, arrival: map<NodeId, int>, n: NodeId, sources: seq<Signal>)
    requires n in arrival && forall s :: s in sources ==>
      s.node in arrival && s.node in info && arrival[s.node] + info[s.node].latencySamples <= arrival[n]
    ensures InStep(info, arrival, n, sources, Mix(info, arrival, n, sources))
  {
    if sources != [] {
      var last := |sources| - 1;
      assert sources[last] in sources;
      SourceIsInStep(info, arrival, n, sources[last]);
      if last > 0 { MixIsInStep(info, arrival, n, sources[..last]); }
    }
  }

  lemma SourceIsInStep(info: NodeInfoMap, arrival: map<NodeId, int>, n: NodeId, s: Signal)
    requires n in arrival && s.node in arrival && s.node in info
    requires arrival[s.node] + info[s.node].latencySamples <= arrival[n]
    ensures var term := AlignedSource(info, arrival, n, s);
      !term.Sum? && Leaves(term) == [Leaf(s, arrival[n] - arrival[s.node] - info[s.node].latencySamples)]
  {}

  // ----- the same of a plan

  /** The term in an input channel of a node, where the code of the plan processes the node. */
  ghost function InputTerm(plan: RenderPlan, n: NodeId, channel: int): Term {
    var inputs := Run(plan.channelBuffers, plan.operations).inputs;
    if n in inputs && 0 <= channel < |inputs[n].audio| then inputs[n].audio[channel] else Silence
  }

  /** An audio connection leads from the signal to the input channel. */
  ghost predicate Connected(t: Topology, s: Signal, n: NodeId, channel: int) {
    channel >= 0 && Connection(s.node, s.channel, n, channel) in t.connections
  }

  /** A list of signals without repetition, by node and then by channel. */
  ghost predicate InOrder(leaves: seq<Leaf>) {
    forall i, j :: 0 <= i < j < |leaves| ==>
      leaves[i].source.node < leaves[j].source.node
      || (leaves[i].source.node == leaves[j].source.node && leaves[i].source.channel < leaves[j].source.channel)
  }

  ghost predicate Sounds(leaves: seq<Leaf>, s: Signal) {
    exists i :: 0 <= i < |leaves| && leaves[i].source == s
  }

  /** The code feeds the channel the sum of exactly the connected signals, each once and in order, and holds each back
      so far that its total latency is that of the node without the node's own. */
  ghost predicate HearsInStep(plan: RenderPlan, t: Topology, info: NodeInfoMap, n: NodeId, channel: int)
    requires n in plan.latencyAtNode && n in info
  {
    var term := InputTerm(plan, n, channel);
    && AddedInTurn(term) && InOrder(Leaves(term))
    && (forall s :: Sounds(Leaves(term), s) <==> Connected(t, s, n, channel))
    && (forall i :: 0 <= i < |Leaves(term)| ==> LinesUp(plan, info, n, Leaves(term)[i]))
  }

  ghost predicate LinesUp(plan: RenderPlan, info: NodeInfoMap, n: NodeId, leaf: Leaf)
    requires n in plan.latencyAtNode && n in info
  {
    && leaf.delay >= 0 && leaf.source.node in plan.latencyAtNode
    && plan.latencyAtNode[leaf.source.node] + leaf.delay == plan.latencyAtNode[n] - info[n].latencySamples
  }

  ghost function MidiLeaves(term: MidiTerm): seq<NodeId> {
    match term
    case NoEvents => []
    case NodeEvents(n) => [n]
    case Merged(l, r) => MidiLeaves(l) + MidiLeaves(r)
  }

  /** The code merges the events of exactly the connected nodes, each once and in order. */
  ghost predicate MergesAll(plan: RenderPlan, t: Topology, n: NodeId) {
    var inputs := Run(plan.channelBuffers, plan.operations).inputs;
    n in inputs && var sources := MidiLeaves(inputs[n].midi);
    && (forall i, j :: 0 <= i < j < |sources| ==> sources[i] < sources[j])
    && (forall m :: m in sources <==> Connection(m, MIDI_LANE, n, MIDI_LANE) in t.connections)
  }

  /** Every input of every node. */
  ghost predicate AllInStep(plan: RenderPlan, t: Topology, info: NodeInfoMap) {
    && plan.latencyAtNode.Keys == t.nodes
    && (forall n :: n in t.nodes ==> n in info && MergesAll(plan, t, n))
    && (forall n, channel :: n in t.nodes && 0 <= channel < info[n].ChannelCount() ==>
      HearsInStep(plan, t, info, n, channel))
  }

  lemma {:induction false} MergedInOrder(sources: seq<NodeId>)
    ensures MidiLeaves(MergeAll(sources)) == sources
  {
    if sources != [] {
      MergedInOrder(sources[..|sources| - 1]);
      assert sources == sources[..|sources| - 1] + [sources[|sources| - 1]];
    }
  }

  lemma MidiIsMerged(plan: RenderPlan, t: Topology, info: NodeInfoMap, n: NodeId)
    requires Implements(plan, t, info) && n in t.nodes
    ensures MergesAll(plan, t, n)
  {
    var sources := SortedMidiSources(t, n);
    MergedInOrder(sources);
    forall m ensures m in sources <==> Connection(m, MIDI_LANE, n, MIDI_LANE) in t.connections {
      assert m in sources <==> m in Elements(sources);
      if Connection(m, MIDI_LANE, n, MIDI_LANE) in t.connections {
        assert Connection(m, MIDI_LANE, n, MIDI_LANE).IsMidi();
      }
      if m in MidiSourceSet(t, n) {
        var c :| c in t.connections && c.IsMidi() && c.destinationNode == n && c.sourceNode == m;
        assert c == Connection(m, MIDI_LANE, n, MIDI_LANE);
      }
    }
    assert Run(plan.channelBuffers, plan.operations).inputs[n] == GraphInput(t, info, ArrivalIn(plan, info), n);
  }

  /** Sources of a channel and connections to it are the same. */
  lemma SourcesAreConnected(t: Topology, n: NodeId, channel: int, s: Signal)
    requires WellBuilt(t) && channel >= 0
    ensures s in SourceSet(t, n, channel) <==> Connected(t, s, n, channel)
  {
    if Connected(t, s, n, channel) {
      var c := Connection(s.node, s.channel, n, channel);
      assert c in t.connections && !c.IsMidi();
    }
    if s in SourceSet(t, n, channel) {
      var c :| c in t.connections && !c.IsMidi() && c.destinationNode == n && c.destinationChannel == channel
        && Signal(c.sourceNode, c.sourceChannel) == s;
      assert c == Connection(s.node, s.channel, n, channel);
    }
  }

  lemma ChannelIsInStep(plan: RenderPlan, t: Topology, info: NodeInfoMap, n: NodeId, channel: int)
    requires Implements(plan, t, info) && n in t.nodes && 0 <= channel < info[n].ChannelCount()
    ensures HearsInStep(plan, t, info, n, channel)
  {
    var arrival, sources := ArrivalIn(plan, info), SortedSources(t, n, channel);
    SourcesAreNodes(t, n, channel);
    forall s | s in sources ensures arrival[s.node] + info[s.node].latencySamples <= arrival[n] {
      assert s in Elements(sources);
      SourcesAreConnected(t, n, channel, s);
      assert IsArrivalAt(t, info, arrival, n) && IsAudioInto(Connection(s.node, s.channel, n, channel), n);
    }
    MixIsInStep(info, arrival, n, sources);
    assert Run(plan.channelBuffers, plan.operations).inputs[n] == GraphInput(t, info, arrival, n);
    assert InputTerm(plan, n, channel) == Mix(info, arrival, n, sources);
    TermInStep(plan, t, info, n, channel, sources, Mix(info, arrival, n, sources));
  }

  lemma TermInStep(plan: RenderPlan, t: Topology, info: NodeInfoMap, n: NodeId, channel: int, sources: seq<Signal>,
    term: Term)
    requires WellBuilt(t) && WellFormed(t, info) && plan.latencyAtNode.Keys == t.nodes && n in t.nodes && channel >= 0
    requires SortedSignals(sources) && Elements(sources) == SourceSet(t, n, channel)
    requires (forall s :: s in sources ==> s.node in t.nodes) && term == InputTerm(plan, n, channel)
    requires InStep(info, ArrivalIn(plan, info), n, sources, term)
    ensures HearsInStep(plan, t, info, n, channel)
  {
    var leaves := Leaves(term);
    forall s ensures Sounds(leaves, s) <==> Connected(t, s, n, channel) {
      SourcesAreConnected(t, n, channel, s);
      assert s in sources <==> s in Elements(sources);
      if s in sources {
        var i :| 0 <= i < |sources| && sources[i] == s;
        assert leaves[i].source == s;
      }
    }
    forall i | 0 <= i < |leaves| ensures LinesUp(plan, info, n, leaves[i]) {
      assert sources[i] in sources;
    }
  }

  /** A plan that implements a graph keeps everything in step. */
  lemma PlanIsInStep(plan: RenderPlan, t: Topology, info: NodeInfoMap)
    requires Implements(plan, t, info)
    ensures AllInStep(plan, t, info)
  {
    forall n | n in t.nodes ensures n in info && MergesAll(plan, t, n) {
      MidiIsMerged(plan, t, info, n);
    }
    forall n, channel | n in t.nodes && 0 <= channel < info[n].ChannelCount()
      ensures HearsInStep(plan, t, info, n, channel) {
      ChannelIsInStep(plan, t, info, n, channel);
    }
  }

  // ----- what the code inserts on one connection

  ghost function DelayOf(leaves: seq<Leaf>, s: Signal): int {
    if leaves == [] then 0 else if leaves[0].source == s then leaves[0].delay else DelayOf(leaves[1..], s)
  }

  /** By how many samples the code holds back the source of an audio connection at its destination. */
  ghost function InsertedDelay(plan: RenderPlan, c: Connection): int {
    DelayOf(Leaves(InputTerm(plan, c.destinationNode, c.destinationChannel)), Signal(c.sourceNode, c.sourceChannel))
  }

  lemma {:induction false} DelayIsThatOfLeaf(leaves: seq<Leaf>, s: Signal)
    requires Sounds(leaves, s)
    ensures Leaf(s, DelayOf(leaves, s)) in leaves
  {
    if leaves[0].source != s {
      var i :| 0 <= i < |leaves| && leaves[i].source == s;
      assert leaves[1..][i - 1].source == s;
      DelayIsThatOfLeaf(leaves[1..], s);
    }
  }

  /** Every audio connection sounds exactly once at its destination, held back to the arrival of the node. */
  lemma ConnectionLinesUp(plan: RenderPlan, t: Topology, info: NodeInfoMap, c: Connection)
    requires WellBuilt(t) && WellFormed(t, info) && AllInStep(plan, t, info) && c in t.connections && !c.IsMidi()
    ensures var leaves, s := Leaves(InputTerm(plan, c.destinationNode, c.destinationChannel)),
      Signal(c.sourceNode, c.sourceChannel);
      && Leaf(s, InsertedDelay(plan, c)) in leaves
      && (forall i, j :: 0 <= i < j < |leaves| ==> !(leaves[i].source == s == leaves[j].source))
    ensures c.sourceNode in plan.latencyAtNode && c.destinationNode in plan.latencyAtNode && c.destinationNode in info
    ensures InsertedDelay(plan, c) >= 0
    ensures plan.latencyAtNode[c.sourceNode] + InsertedDelay(plan, c)
         == plan.latencyAtNode[c.destinationNode] - info[c.destinationNode].latencySamples
  {
    var leaves, s := Leaves(InputTerm(plan, c.destinationNode, c.destinationChannel)), Signal(c.sourceNode,
      c.sourceChannel);
    assert Admissible(t.nodes, c) && PortsKnown(c, info);
    assert HearsInStep(plan, t, info, c.destinationNode, c.destinationChannel);
    assert c == Connection(s.node, s.channel, c.destinationNode, c.destinationChannel);
    assert Connected(t, s, c.destinationNode, c.destinationChannel);
    DelayIsThatOfLeaf(leaves, s);
    var i :| 0 <= i < |leaves| && leaves[i] == Leaf(s, InsertedDelay(plan, c));
    assert LinesUp(plan, info, c.destinationNode, leaves[i]);
  }
}
