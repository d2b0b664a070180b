/** The streams of a graph without terms: what every node hears in every frame, said of the outputs of its sources. */
module Hearing {
  import opened Ordered
  import opened Graph
  import opened RenderPlans
  import opened Streams

  /** The sample a signal had `samples` frames ago; silence before the first frame. */
  ghost function Ago<S, St, M>(m: Machine<S, St, M>, net: Net, s: Signal, samples: int, t: nat): S
    requires WellRanked(net)
  {
    if 0 <= samples <= t && s.node in net.inputs && 0 <= s.channel < |net.inputs[s.node].audio|
    then OutputAt(m, net, s.node, t - samples, s.channel)
    else m.zero
  }

  /** How many frames a source is ahead of node `n`. */
  ghost function Lead(info: NodeInfoMap, arrival: map<NodeId, int>, n: NodeId, s: Signal): int
    requires n in arrival && s.node in arrival && s.node in info
  {
    arrival[n] - arrival[s.node] - info[s.node].latencySamples
  }

  /** The sum of the sources, in order, each as it was when the node's frame left it. */
  ghost function HeardSum<S, St, M>(m: Machine<S, St, M>, net: Net, info: NodeInfoMap, arrival: map<NodeId, int>,
    n: NodeId, sources: seq<Signal>, t: nat): S
    requires WellRanked(net) && n in arrival && forall s :: s in sources ==> s.node in arrival && s.node in info
  {
    if sources == [] then m.zero
    else
      var last := |sources| - 1;
      var sample := Ago(m, net, sources[last], Lead(info, arrival, n, sources[last]), t);
      if last == 0 then sample else m.add(HeardSum(m, net, info, arrival, n, sources[..last], t), sample)
  }

  /** The events of the sources of a node in one frame, merged in order. */
  ghost function HeardEvents<S, St, M>(m: Machine<S, St, M>, net: Net, sources: seq<NodeId>, t: nat): M
    requires WellRanked(net) && forall s :: s in sources ==> s in net.inputs
  {
    if sources == [] then m.noMidi
    else
      var last := |sources| - 1;
      assert sources[last] in sources;
      m.merge(HeardEvents(m, net, sources[..last], t), MidiOutAt(m, net, sources[last], t))
  }

  /** Channel by channel and frame by frame, every node hears its connected sources in step. */
  ghost predicate HearsGraph<S, St, M>(m: Machine<S, St, M>, net: Net, t: Topology, info: NodeInfoMap,
    arrival: map<NodeId, int>)
    requires WellRanked(net) && net.inputs.Keys == t.nodes && WellBuilt(t) && WellFormed(t, info)
      && arrival.Keys == t.nodes
  {
    forall n, time: nat :: n in t.nodes ==> HearsFrame(m, net, t, info, arrival, n, time)
  }

  ghost predicate HearsFrame<S, St, M>(m: Machine<S, St, M>, net: Net, t: Topology, info: NodeInfoMap,
    arrival: map<NodeId, int>, n: NodeId, time: nat)
    requires WellRanked(net) && net.inputs.Keys == t.nodes && WellBuilt(t) && WellFormed(t, info)
      && arrival.Keys == t.nodes
    requires n in t.nodes
  {
    SourcesAreKnown(t, n);
    var frame := InputsAt(m, net, n, time);
    && |frame| == info[n].ChannelCount()
    && (forall k :: 0 <= k < |frame| ==> frame[k] == HeardSum(m, net, info, arrival, n, SortedSources(t, n, k), time))
    && MidiInAt(m, net, n, time) == HeardEvents(m, net, SortedMidiSources(t, n), time)
  }

  lemma SourcesAreKnown(t: Topology, n: NodeId)
    requires WellBuilt(t)
    ensures forall channel, s :: s in SortedSources(t, n, channel) ==> s.node in t.nodes
    ensures forall s :: s in SortedMidiSources(t, n) ==> s in t.nodes
  {
    forall channel, s | s in SortedSources(t, n, channel) ensures s.node in t.nodes {
      SourcesAreNodes(t, n, channel);
    }
    forall s | s in SortedMidiSources(t, n) ensures s in t.nodes {
      assert s in Elements(SortedMidiSources(t, n));
      var c :| c in t.connections && c.IsMidi() && c.destinationNode == n && c.sourceNode == s;
      assert Admissible(t.nodes, c);
    }
  }

  lemma SourceIsHeard<S, St, M>(m: Machine<S, St, M>, net: Net, info: NodeInfoMap, arrival: map<NodeId, int>,
    n: NodeId, s: Signal, t: nat)
    requires WellRanked(net) && n in arrival && s.node in arrival && s.node in info && Lead(info, arrival, n, s) >= 0
    ensures AudioAt(m, net, AlignedSource(info, arrival, n, s), t) == Ago(m, net, s, Lead(info, arrival, n, s), t)
  {}

  lemma {:induction false} MixIsHeard<S, St, M>(m: Machine<S, St, M>, net: Net, info: NodeInfoMap,
    arrival: map<NodeId, int>, n: NodeId, sources: seq<Signal>, t: nat)
    requires WellRanked(net) && n in arrival
    requires forall s :: s in sources ==> s.node in arrival && s.node in info && Lead(info, arrival, n, s) >= 0
    ensures AudioAt(m, net, Mix(info, arrival, n, sources), t) == HeardSum(m, net, info, arrival, n, sources, t)
  {
    if sources != [] {
      var last := |sources| - 1;
      assert sources[last] in sources;
      SourceIsHeard(m, net, info, arrival, n, sources[last], t);
      if last > 0 { MixIsHeard(m, net, info, arrival, n, sources[..last], t); }
    }
  }

  lemma {:induction false} MergeIsHeard<S, St, M>(m: Machine<S, St, M>, net: Net, sources: seq<NodeId>, t: nat)
    requires WellRanked(net) && forall s :: s in sources ==> s in net.inputs
    ensures MidiAt(m, net, MergeAll(sources), t) == HeardEvents(m, net, sources, t)
  {
    if sources != [] {
      var last := |sources| - 1;
      assert sources[last] in sources;
      MergeIsHeard(m, net, sources[..last], t);
    }
  }

  lemma NodeHears<S, St, M>(m: Machine<S, St, M>, t: Topology, info: NodeInfoMap, arrival: map<NodeId, int>,
    order: seq<NodeId>, n: NodeId, time: nat)
    requires WellBuilt(t) && WellFormed(t, info) && IsArrival(t, info, arrival) && IsTopologicalOrder(t, order)
      && n in t.nodes
    ensures WellRanked(GraphNet(t, info, arrival, order))
    ensures HearsFrame(m, GraphNet(t, info, arrival, order), t, info, arrival, n, time)
  {
    GraphNetIsRanked(t, info, arrival, order);
    var net := GraphNet(t, info, arrival, order);
    SourcesAreKnown(t, n);
    forall k | 0 <= k < info[n].ChannelCount()
      ensures InputsAt(m, net, n, time)[k] == HeardSum(m, net, info, arrival, n, SortedSources(t, n, k), time)
    {
      LeadsAreKnown(t, info, arrival, n, k);
      MixIsHeard(m, net, info, arrival, n, SortedSources(t, n, k), time);
    }
    MergeIsHeard(m, net, SortedMidiSources(t, n), time);
  }

  lemma LeadsAreKnown(t: Topology, info: NodeInfoMap, arrival: map<NodeId, int>, n: NodeId, channel: nat)
    requires WellBuilt(t) && WellFormed(t, info) && IsArrival(t, info, arrival) && n in t.nodes
    ensures forall s :: s in SortedSources(t, n, channel) ==> s.node in t.nodes && Lead(info, arrival, n, s) >= 0
  {
    SourcesAreNodes(t, n, channel);
    forall s | s in SortedSources(t, n, channel) ensures Lead(info, arrival, n, s) >= 0 {
      assert s in Elements(SortedSources(t, n, channel));
      var c :| c in t.connections && !c.IsMidi() && c.destinationNode == n && c.destinationChannel == channel
        && s == Signal(c.sourceNode, c.sourceChannel);
      assert IsArrivalAt(t, info, arrival, n) && IsAudioInto(c, n);
    }
  }

  /** The streams of a graph are the ones in which every node hears its sources in step. */
  lemma GraphIsHeard<S, St, M>(m: Machine<S, St, M>, t: Topology, info: NodeInfoMap, arrival: map<NodeId, int>,
    order: seq<NodeId>)
    requires WellBuilt(t) && WellFormed(t, info) && IsArrival(t, info, arrival) && IsTopologicalOrder(t, order)
    ensures WellRanked(GraphNet(t, info, arrival, order))
    ensures HearsGraph(m, GraphNet(t, info, arrival, order), t, info, arrival) == true
  {
    GraphNetIsRanked(t, info, arrival, order);
    forall n, time: nat | n in t.nodes
      ensures HearsFrame(m, GraphNet(t, info, arrival, order), t, info, arrival, n, time) {
      NodeHears(m, t, info, arrival, order, n, time);
    }
  }
}
