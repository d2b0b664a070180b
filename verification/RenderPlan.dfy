/** The flat render plan, what the compiler must put into it, and its symbolic meaning:
    running the operations once over symbolic streams instead of samples. */
module RenderPlans {
  import opened Ordered
  import opened Graph

  datatype NodeInfo = NodeInfo(audioInputCount: int, audioOutputCount: int, latencySamples: int) {
    function ChannelCount(): int {
      if audioInputCount > audioOutputCount then audioInputCount else audioOutputCount
    }
  }

  type NodeInfoMap = map<NodeId, NodeInfo>

  datatype RenderOp =
    | Clear(destination: int)
    | Copy(source: int, destination: int)
    | Add(source: int, destination: int)
    | Delay(destination: int, line: int, samples: int)
    | MidiClear(destination: int)
    | MidiMerge(source: int, destination: int)
    | Process(node: NodeId, firstChannel: int, channelCount: int, midi: int)

  datatype CompileError =
    | NoError
    | MissingNodeInfo(node: NodeId)
    | InvalidMetadata(node: NodeId)
    | PortOutsideLayout
    | GraphHasCycle

  datatype RenderPlan = RenderPlan(
    operations: seq<RenderOp>,
    channelBuffers: seq<int>,
    bufferCount: int,
    delayLineCount: int,
    maximumDelaySamples: int,
    midiBufferCount: int,
    latencyAtNode: map<NodeId, int>,
    valid: bool,
    error: CompileError
  )

  const EMPTY_PLAN := RenderPlan([], [], 0, 0, 0, 0, map[], false, NoError)

  // ----- operand checks made before a plan may be published

  predicate OperandsInRange(op: RenderOp, buffers: int, lines: int, midis: int, channels: int) {
    match op
    case Clear(d) => 0 <= d < buffers
    case Copy(s, d) => 0 <= s < buffers && 0 <= d < buffers
    case Add(s, d) => 0 <= s < buffers && 0 <= d < buffers
    case Delay(d, l, n) => 0 <= d < buffers && 0 <= l < lines && n > 0
    case MidiClear(d) => 0 <= d < midis
    case MidiMerge(s, d) => 0 <= s < midis && 0 <= d < midis
    case Process(_, first, count, m) => 0 <= first && 0 <= count && first + count <= channels && 0 <= m < midis
  }

  ghost predicate PassesOperandChecks(plan: RenderPlan) {
    && (forall k :: 0 <= k < |plan.channelBuffers| ==> 0 <= plan.channelBuffers[k] < plan.bufferCount)
    && (forall k :: 0 <= k < |plan.operations| ==>
          OperandsInRange(plan.operations[k], plan.bufferCount, plan.delayLineCount, plan.midiBufferCount,
            |plan.channelBuffers|))
  }

  function MaximumDelay(ops: seq<RenderOp>): int {
    if ops == [] then 0
    else
      var before := MaximumDelay(ops[..|ops| - 1]);
      var op := ops[|ops| - 1];
      if op.Delay? && op.samples > before then op.samples else before
  }

  // ----- symbolic streams

  /** An audio stream described by where it comes from. */
  datatype Term =
    | Silence
    | Output(node: NodeId, channel: int)
    | Delayed(of: Term, samples: int)
    | Sum(left: Term, right: Term)

  datatype MidiTerm =
    | NoEvents
    | NodeEvents(node: NodeId)
    | Merged(left: MidiTerm, right: MidiTerm)

  /** What a `Process` operation finds in its channels and in its MIDI buffer. */
  datatype NodeInput = NodeInput(audio: seq<Term>, midi: MidiTerm)

  /** The stream a delay line is fed, and its length. */
  datatype DelayUse = DelayUse(input: Term, samples: int)

  /** `ok` means that no operation so far read an unwritten buffer, reused a delay line, processed
      a node twice or processed it on overlapping channels. */
  datatype Symbolic = Symbolic(
    ok: bool,
    audio: map<int, Term>,
    midi: map<int, MidiTerm>,
    inputs: map<NodeId, NodeInput>,
    lines: map<int, DelayUse>
  )

  const NOTHING_RUN := Symbolic(true, map[], map[], map[], map[])

  ghost function IndexOf(s: seq<int>, x: int): (i: nat)
    requires x in s
    ensures i < |s| && s[i] == x
  {
    if s[0] == x then 0 else 1 + IndexOf(s[1..], x)
  }

  ghost function WriteOutputs(audio: map<int, Term>, channels: seq<int>, node: NodeId): map<int, Term>
  {
    map b | b in audio.Keys + Elements(channels) ::
      if b in channels then Output(node, IndexOf(channels, b)) else audio[b]
  }

  ghost function ChannelTerms(audio: map<int, Term>, channels: seq<int>): seq<Term> {
    seq(|channels|, k requires 0 <= k < |channels| => if channels[k] in audio then audio[channels[k]] else Silence)
  }

  ghost predicate CanProcess(s: Symbolic, channels: seq<int>, node: NodeId, midi: int) {
    && Distinct(channels)
    && (forall b :: b in channels ==> b in s.audio)
    && node !in s.inputs
    && midi in s.midi
  }

  ghost function Fail(s: Symbolic): Symbolic {
    s.(ok := false)
  }

  ghost function Step(table: seq<int>, s: Symbolic, op: RenderOp): Symbolic {
    match op
    case Clear(d) => s.(audio := s.audio[d := Silence])
    case Copy(b, d) => if b in s.audio then s.(audio := s.audio[d := s.audio[b]]) else Fail(s)
    case Add(b, d) =>
      if b in s.audio && d in s.audio then s.(audio := s.audio[d := Sum(s.audio[d], s.audio[b])]) else Fail(s)
    case Delay(d, l, n) =>
      if d in s.audio && l !in s.lines then
        s.(audio := s.audio[d := Delayed(s.audio[d], n)], lines := s.lines[l := DelayUse(s.audio[d], n)])
      else Fail(s)
    case MidiClear(d) => s.(midi := s.midi[d := NoEvents])
    case MidiMerge(b, d) =>
      if b in s.midi && d in s.midi && b != d then s.(midi := s.midi[d := Merged(s.midi[d], s.midi[b])]) else Fail(s)
    case Process(node, first, count, m) =>
      if !(0 <= first && 0 <= count && first + count <= |table|) then Fail(s)
      else
        var channels := table[first..first + count];
        if CanProcess(s, channels, node, m) then
          s.(audio := WriteOutputs(s.audio, channels, node),
             midi := s.midi[m := NodeEvents(node)],
             inputs := s.inputs[node := NodeInput(ChannelTerms(s.audio, channels), s.midi[m])])
        else Fail(s)
  }

  /** A step that processes a node is possible. */
  lemma ProcessIsPossible(table: seq<int>, s: Symbolic, op: RenderOp)
    requires op.Process? && s.ok && Step(table, s, op).ok
    ensures 0 <= op.firstChannel && 0 <= op.channelCount && op.firstChannel + op.channelCount <= |table|
    ensures CanProcess(s, table[op.firstChannel..op.firstChannel + op.channelCount], op.node, op.midi) == true
  {}

  /** It records an input with as many channels as it was given. */
  lemma ProcessRecords(table: seq<int>, s: Symbolic, op: RenderOp)
    requires op.Process? && s.ok && Step(table, s, op).ok
    ensures op.node in Step(table, s, op).inputs && |Step(table, s, op).inputs[op.node].audio| == op.channelCount
  {}

  ghost function Run(table: seq<int>, ops: seq<RenderOp>): Symbolic {
    if ops == [] then NOTHING_RUN else Step(table, Run(table, ops[..|ops| - 1]), ops[|ops| - 1])
  }

  lemma RunAppend(table: seq<int>, ops: seq<RenderOp>, op: RenderOp)
    ensures Run(table, ops + [op]) == Step(table, Run(table, ops), op)
  {
    assert (ops + [op])[..|ops|] == ops;
  }

  /** Appending to the channel table changes nothing for operations already emitted. */
  lemma {:induction false} RunExtendTable(table: seq<int>, more: seq<int>, ops: seq<RenderOp>)
    requires forall k :: 0 <= k < |ops| && ops[k].Process? ==>
      0 <= ops[k].firstChannel && 0 <= ops[k].channelCount && ops[k].firstChannel + ops[k].channelCount <= |table|
    ensures Run(table + more, ops) == Run(table, ops)
  {
    if ops != [] {
      var last := |ops| - 1;
      RunExtendTable(table, more, ops[..last]);
      var op := ops[last];
      if op.Process? {
        var first, end := op.firstChannel, op.firstChannel + op.channelCount;
        assert (table + more)[first..end] == table[first..end];
      }
    }
  }

  // ----- what the graph asks for

  /** Ports and metadata are usable; the cases in which compilation may proceed to sorting. */
  ghost predicate WellFormed(t: Topology, info: NodeInfoMap) {
    && (forall n :: n in t.nodes ==> n in info && GoodMetadata(info[n]))
    && (forall c :: c in t.connections && !c.IsMidi() ==> PortsKnown(c, info))
  }

  predicate GoodMetadata(i: NodeInfo) {
    i.audioInputCount >= 0 && i.audioOutputCount >= 0 && i.latencySamples >= 0
  }

  predicate PortsKnown(c: Connection, info: NodeInfoMap) {
    && c.sourceNode in info && c.destinationNode in info
    && c.sourceChannel < info[c.sourceNode].audioOutputCount
    && c.destinationChannel < info[c.destinationNode].audioInputCount
  }

  predicate IsAudioInto(c: Connection, n: NodeId) {
    !c.IsMidi() && c.destinationNode == n
  }

  /** The longest latency of the audio arriving at each node, as the unique solution of its recurrence:
      an upper bound on every incoming connection that some connection attains (zero when there is none). */
  ghost predicate IsArrival(t: Topology, info: NodeInfoMap, arrival: map<NodeId, int>)
    requires WellFormed(t, info)
  {
    && arrival.Keys == t.nodes
    && (forall n :: n in t.nodes ==> IsArrivalAt(t, info, arrival, n))
  }

  ghost predicate Attains(t: Topology, info: NodeInfoMap, arrival: map<NodeId, int>, n: NodeId, c: Connection)
    requires WellFormed(t, info) && n in arrival
  {
    && c in t.connections && IsAudioInto(c, n) && c.sourceNode in arrival
    && arrival[c.sourceNode] + info[c.sourceNode].latencySamples == arrival[n]
  }

  ghost predicate IsArrivalAt(t: Topology, info: NodeInfoMap, arrival: map<NodeId, int>, n: NodeId)
    requires WellFormed(t, info) && n in arrival
  {
    && arrival[n] >= 0
    && (forall c :: c in t.connections && IsAudioInto(c, n) && c.sourceNode in arrival ==>
          arrival[c.sourceNode] + info[c.sourceNode].latencySamples <= arrival[n])
    && (arrival[n] == 0 || exists c :: Attains(t, info, arrival, n, c))
  }

  /** The signals connected to one input channel. */
  function SourceSet(t: Topology, n: NodeId, channel: int): set<Signal> {
    set c | c in t.connections && !c.IsMidi() && c.destinationNode == n && c.destinationChannel == channel
      :: Signal(c.sourceNode, c.sourceChannel)
  }

  function MidiSourceSet(t: Topology, n: NodeId): set<NodeId> {
    set c | c in t.connections && c.IsMidi() && c.destinationNode == n :: c.sourceNode
  }

  ghost predicate SortedSignals(s: seq<Signal>) {
    forall i, j :: 0 <= i < j < |s| ==> SignalLess(s[i], s[j])
  }

  ghost predicate SortedNodeIds(s: seq<NodeId>) {
    forall i, j :: 0 <= i < j < |s| ==> s[i] < s[j]
  }

  ghost function SortedSources(t: Topology, n: NodeId, channel: int): (s: seq<Signal>)
    ensures SortedSignals(s) && Elements(s) == SourceSet(t, n, channel)
  {
    SignalListingExists(SourceSet(t, n, channel));
    var s :| SortedSignals(s) && Elements(s) == SourceSet(t, n, channel);
    s
  }

  ghost function SortedMidiSources(t: Topology, n: NodeId): (s: seq<NodeId>)
    ensures SortedNodeIds(s) && Elements(s) == MidiSourceSet(t, n)
  {
    NodeListingExists(MidiSourceSet(t, n));
    var s: seq<NodeId> :| SortedNodeIds(s) && Elements(s) == MidiSourceSet(t, n);
    s
  }

  lemma ConsElements<T>(x: T, s: seq<T>)
    ensures Elements([x] + s) == {x} + Elements(s)
    ensures forall k :: 0 <= k < |s| ==> s[k] in Elements(s) && ([x] + s)[k + 1] == s[k]
    ensures forall k :: 1 <= k < |s| + 1 ==> ([x] + s)[k] in Elements(s)
  {
    forall y ensures y in [x] + s <==> y == x || y in s {
      if y in s { var k :| 0 <= k < |s| && s[k] == y; assert ([x] + s)[k + 1] == y; }
    }
    forall k | 1 <= k < |s| + 1 ensures ([x] + s)[k] in Elements(s) {
      assert ([x] + s)[k] == s[k - 1];
    }
  }

  lemma LeastSignal(signals: set<Signal>) returns (x: Signal)
    requires signals != {}
    ensures x in signals && forall y :: y in signals - {x} ==> SignalLess(x, y)
  {
    LeastExists(signals, SignalLess);
    x :| x in signals && forall y :: y in signals ==> y == x || SignalLess(x, y);
  }

  lemma LeastNode(nodes: set<NodeId>) returns (x: NodeId)
    requires nodes != {}
    ensures x in nodes && forall y :: y in nodes - {x} ==> x < y
  {
    LeastExists(nodes, NodeLess);
    x :| x in nodes && forall y :: y in nodes ==> y == x || NodeLess(x, y);
  }

  lemma PrependLeastSignal(x: Signal, s: seq<Signal>, signals: set<Signal>)
    requires SortedSignals(s) && Elements(s) == signals - {x} && x in signals
    requires forall y :: y in signals - {x} ==> SignalLess(x, y)
    ensures SortedSignals([x] + s) && Elements([x] + s) == signals
  {
    ConsElements(x, s);
    forall i, j | 0 <= i < j < |s| + 1 ensures SignalLess(([x] + s)[i], ([x] + s)[j]) {
      if i > 0 { assert SignalLess(s[i - 1], s[j - 1]); } else { assert s[j - 1] in signals - {x}; }
    }
  }

  lemma {:induction false} SignalListingExists(signals: set<Signal>)
    ensures exists s :: SortedSignals(s) && Elements(s) == signals
    decreases |signals|
  {
    if signals == {} {
      assert SortedSignals([]) && Elements<Signal>([]) == signals;
    } else {
      var x := LeastSignal(signals);
      SignalListingExists(signals - {x});
      var s :| SortedSignals(s) && Elements(s) == signals - {x};
      PrependLeastSignal(x, s, signals);
    }
  }

  lemma PrependLeast(x: NodeId, s: seq<NodeId>, nodes: set<NodeId>)
    requires SortedNodeIds(s) && Elements(s) == nodes - {x} && x in nodes
    requires forall y :: y in nodes - {x} ==> x < y
    ensures SortedNodeIds([x] + s) && Elements([x] + s) == nodes
  {
    ConsElements(x, s);
    forall i, j | 0 <= i < j < |s| + 1 ensures ([x] + s)[i] < ([x] + s)[j] {
      if i > 0 { assert s[i - 1] < s[j - 1]; } else { assert s[j - 1] in nodes - {x}; }
    }
  }

  lemma {:induction false} NodeListingExists(nodes: set<NodeId>)
    ensures exists s: seq<NodeId> :: SortedNodeIds(s) && Elements(s) == nodes
    decreases |nodes|
  {
    if nodes == {} {
      assert SortedNodeIds([]) && Elements<NodeId>([]) == nodes;
    } else {
      var x := LeastNode(nodes);
      NodeListingExists(nodes - {x});
      var s: seq<NodeId> :| SortedNodeIds(s) && Elements(s) == nodes - {x};
      PrependLeast(x, s, nodes);
    }
  }

  lemma SignalListingUnique(a: seq<Signal>, b: seq<Signal>)
    requires SortedSignals(a) && SortedSignals(b) && Elements(a) == Elements(b)
    ensures a == b
  {
    forall x ensures x in a <==> x in Elements(a) {}
    forall x ensures x in b <==> x in Elements(a) {
      assert x in b <==> x in Elements(b);
    }
    ListingIsUnique(a, b, Elements(a), SignalLess);
  }

  lemma NodeListingUnique(a: seq<NodeId>, b: seq<NodeId>)
    requires SortedNodeIds(a) && SortedNodeIds(b) && Elements(a) == Elements(b)
    ensures a == b
  {
    forall x ensures x in a <==> x in Elements(a) {}
    forall x ensures x in b <==> x in Elements(a) {
      assert x in b <==> x in Elements(b);
    }
    ListingIsUnique(a, b, Elements(a), NodeLess);
  }

  // ----- the input every node must see

  /** One source's output, held back so that it lines up with the latest arrival at node `n`. */
  ghost function AlignedSource(info: NodeInfoMap, arrival: map<NodeId, int>, n: NodeId, s: Signal): Term
    requires n in arrival && s.node in arrival && s.node in info
  {
    var compensation := arrival[n] - (arrival[s.node] + info[s.node].latencySamples);
    if compensation > 0 then Delayed(Output(s.node, s.channel), compensation) else Output(s.node, s.channel)
  }

  /** The left fold over the sources: the first is taken as it is, the others are added in order. */
  ghost function Mix(info: NodeInfoMap, arrival: map<NodeId, int>, n: NodeId, sources: seq<Signal>): Term
    requires n in arrival
    requires forall s :: s in sources ==> s.node in arrival && s.node in info
  {
    if sources == [] then Silence
    else
      var last := |sources| - 1;
      var term := AlignedSource(info, arrival, n, sources[last]);
      if last == 0 then term else Sum(Mix(info, arrival, n, sources[..last]), term)
  }

  ghost function MergeAll(sources: seq<NodeId>): MidiTerm {
    if sources == [] then NoEvents
    else Merged(MergeAll(sources[..|sources| - 1]), NodeEvents(sources[|sources| - 1]))
  }

  ghost function GraphInput(t: Topology, info: NodeInfoMap, arrival: map<NodeId, int>, n: NodeId): NodeInput
    requires WellBuilt(t) && WellFormed(t, info) && arrival.Keys == t.nodes && n in t.nodes
  {
    NodeInput(
      seq(info[n].ChannelCount(), channel requires 0 <= channel => GraphChannel(t, info, arrival, n, channel)),
      MergeAll(SortedMidiSources(t, n)))
  }

  ghost function GraphChannel(t: Topology, info: NodeInfoMap, arrival: map<NodeId, int>, n: NodeId, channel: int): Term
    requires WellBuilt(t) && WellFormed(t, info) && arrival.Keys == t.nodes && n in t.nodes
  {
    SourcesAreNodes(t, n, channel);
    Mix(info, arrival, n, SortedSources(t, n, channel))
  }

  lemma SourcesAreNodes(t: Topology, n: NodeId, channel: int)
    requires WellBuilt(t)
    ensures forall s :: s in SourceSet(t, n, channel) ==> s.node in t.nodes
    ensures forall s :: s in SortedSources(t, n, channel) ==> s.node in t.nodes
  {
    forall s | s in SourceSet(t, n, channel) ensures s.node in t.nodes {
      var c :| c in t.connections && !c.IsMidi() && c.destinationNode == n && c.destinationChannel == channel
        && s == Signal(c.sourceNode, c.sourceChannel);
      assert Admissible(t.nodes, c);
    }
    forall s | s in SortedSources(t, n, channel) ensures s.node in t.nodes {
      assert s in Elements(SortedSources(t, n, channel));
    }
  }

  // ----- the compiler's promise

  function ArrivalIn(plan: RenderPlan, info: NodeInfoMap): (arrival: map<NodeId, int>)
    requires forall n :: n in plan.latencyAtNode ==> n in info
  {
    map n | n in plan.latencyAtNode :: plan.latencyAtNode[n] - info[n].latencySamples
  }

  /** A plan that computes the graph: its recorded latencies are the longest-path ones, its operands are in
      range, no step of it is unsound, and every node is processed once, on exactly the graph's input. */
  ghost predicate Implements(plan: RenderPlan, t: Topology, info: NodeInfoMap) {
    && WellBuilt(t) && WellFormed(t, info) && !HasCycle(t)
    && plan.latencyAtNode.Keys == t.nodes
    && IsArrival(t, info, ArrivalIn(plan, info))
    && PassesOperandChecks(plan)
    && plan.maximumDelaySamples == MaximumDelay(plan.operations)
    && plan.bufferCount >= 0 && plan.delayLineCount >= 0 && plan.midiBufferCount == |t.nodes|
    && Run(plan.channelBuffers, plan.operations).ok
    && FeedsEveryNode(t, info, ArrivalIn(plan, info), Run(plan.channelBuffers, plan.operations).inputs)
  }

  /** MIDI buffer `b` holds what node `n` produced. */
  ghost predicate HoldsEvents(run: Symbolic, n: NodeId, b: int) {
    b in run.midi && run.midi[b] == NodeEvents(n)
  }

  /** No MIDI buffer of a processed node is taken by another node. */
  ghost predicate KeepsEvents(plan: RenderPlan, nodes: set<NodeId>) {
    forall n :: n in nodes ==> exists b :: HoldsEvents(Run(plan.channelBuffers, plan.operations), n, b)
  }

  ghost predicate FeedsEveryNode(t: Topology, info: NodeInfoMap, arrival: map<NodeId, int>,
    inputs: map<NodeId, NodeInput>)
    requires WellBuilt(t) && WellFormed(t, info) && arrival.Keys == t.nodes
  {
    && inputs.Keys == t.nodes
    && (forall n :: n in t.nodes ==> inputs[n] == GraphInput(t, info, arrival, n))
  }
}
