/** Buffer allocation and code emission, node by node. The invariants follow the symbolic meaning of
    the operations emitted so far. */
module Emission {
  import opened Ordered
  import opened Graph
  import opened RenderPlans
  import opened BufferPools
  import opened Compiler
  import opened Alignment
  import opened TopologicalSort

  /** Everything the emission pass reads. */
  datatype Context = Context(
    t: Topology,
    info: NodeInfoMap,
    order: seq<NodeId>,
    position: map<NodeId, int>,
    audioInputs: map<Signal, seq<Signal>>,
    midiInputs: map<NodeId, seq<NodeId>>,
    lastConsumer: map<Signal, int>,
    arrival: map<NodeId, int>,
    midiBufferForNode: map<NodeId, int>
  )

  ghost predicate Planned(c: Context) {
    && WellBuilt(c.t) && WellFormed(c.t, c.info)
    && IsTopologicalOrder(c.t, c.order)
    && Indexes(c.order, c.position, c.t.nodes)
    && Indexes(c.order, c.midiBufferForNode, c.t.nodes)
    && CanonicalAudio(c.t, c.audioInputs)
    && CanonicalMidi(c.t, c.midiInputs)
    && LastUses(c.t.connections, c.position, c.lastConsumer)
    && IsArrival(c.t, c.info, c.arrival)
  }

  ghost predicate Indexes(order: seq<NodeId>, index: map<NodeId, int>, nodes: set<NodeId>) {
    && index.Keys == nodes
    && (forall i :: 0 <= i < |order| ==> order[i] in index && index[order[i]] == i)
  }

  function Emit(plan: RenderPlan, op: RenderOp): RenderPlan {
    plan.(operations := plan.operations + [op])
  }

  function EmitDelay(plan: RenderPlan, buffer: int, samples: int): RenderPlan {
    plan.(
      operations := plan.operations + [Delay(buffer, plan.delayLineCount, samples)],
      delayLineCount := plan.delayLineCount + 1,
      maximumDelaySamples := Max(plan.maximumDelaySamples, samples))
  }

  ghost function Meaning(plan: RenderPlan): Symbolic {
    Run(plan.channelBuffers, plan.operations)
  }

  /** The emitted code is sound and in range so far. */
  ghost predicate Booked(plan: RenderPlan, buffers: int) {
    && (forall k :: 0 <= k < |plan.operations| ==>
          OperandsInRange(plan.operations[k], buffers, plan.delayLineCount, plan.midiBufferCount,
            |plan.channelBuffers|))
    && (forall k :: 0 <= k < |plan.channelBuffers| ==> 0 <= plan.channelBuffers[k] < buffers)
    && plan.maximumDelaySamples == MaximumDelay(plan.operations)
    && plan.delayLineCount >= 0
    && Meaning(plan).ok
    && (forall l :: l in Meaning(plan).lines ==> 0 <= l < plan.delayLineCount)
  }

  /** Nothing but the emitted code differs. */
  ghost predicate OnlyCodeAdded(before: RenderPlan, after: RenderPlan) {
    && after == before.(operations := after.operations, channelBuffers := after.channelBuffers,
         delayLineCount := after.delayLineCount, maximumDelaySamples := after.maximumDelaySamples)
  }

  lemma BookOp(plan: RenderPlan, op: RenderOp, buffers: int)
    requires Booked(plan, buffers) && !op.Delay?
    requires OperandsInRange(op, buffers, plan.delayLineCount, plan.midiBufferCount, |plan.channelBuffers|)
    requires Step(plan.channelBuffers, Meaning(plan), op).ok
    ensures Booked(Emit(plan, op), buffers)
    ensures Meaning(Emit(plan, op)) == Step(plan.channelBuffers, Meaning(plan), op)
  {
    RunAppend(plan.channelBuffers, plan.operations, op);
    assert (plan.operations + [op])[..|plan.operations|] == plan.operations;
  }

  lemma BookDelay(plan: RenderPlan, buffer: int, samples: int, buffers: int)
    requires Booked(plan, buffers) && 0 <= buffer < buffers && samples > 0
    requires buffer in Meaning(plan).audio
    ensures Booked(EmitDelay(plan, buffer, samples), buffers)
    ensures Meaning(EmitDelay(plan, buffer, samples))
      == Step(plan.channelBuffers, Meaning(plan), Delay(buffer, plan.delayLineCount, samples))
  {
    var op := Delay(buffer, plan.delayLineCount, samples);
    RunAppend(plan.channelBuffers, plan.operations, op);
    assert (plan.operations + [op])[..|plan.operations|] == plan.operations;
  }

  lemma BookChannel(plan: RenderPlan, buffer: int, buffers: int)
    requires Booked(plan, buffers) && 0 <= buffer < buffers
    ensures var extended := plan.(channelBuffers := plan.channelBuffers + [buffer]);
            Booked(extended, buffers) && Meaning(extended) == Meaning(plan)
  {
    RunExtendTable(plan.channelBuffers, [buffer], plan.operations);
  }

  lemma BookMore(plan: RenderPlan, buffers: int, more: int)
    requires Booked(plan, buffers) && buffers <= more
    ensures Booked(plan, more)
  {}

  /** `destination` now carries `term`; no other buffer that was in use changed. */
  ghost predicate Wrote(before: Symbolic, after: Symbolic, taken: set<int>, destination: int, term: Term) {
    && after.inputs == before.inputs
    && after.midi == before.midi
    && destination in after.audio && after.audio[destination] == term
    && (forall b :: b in taken && b in before.audio && b != destination ==>
          b in after.audio && after.audio[b] == before.audio[b])
  }

  ghost function Aligned(term: Term, compensation: int): Term {
    if compensation > 0 then Delayed(term, compensation) else term
  }

  lemma ClearWrites(plan: RenderPlan, destination: int, buffers: int, taken: set<int>)
    requires Booked(plan, buffers) && 0 <= destination < buffers
    ensures Booked(Emit(plan, Clear(destination)), buffers)
    ensures Wrote(Meaning(plan), Meaning(Emit(plan, Clear(destination))), taken, destination, Silence)
  {
    BookOp(plan, Clear(destination), buffers);
  }

  lemma CopyWrites(plan: RenderPlan, source: int, destination: int, buffers: int, taken: set<int>)
    requires Booked(plan, buffers) && 0 <= source < buffers && 0 <= destination < buffers
    requires source in Meaning(plan).audio
    ensures Booked(Emit(plan, Copy(source, destination)), buffers)
    ensures Wrote(Meaning(plan), Meaning(Emit(plan, Copy(source, destination))), taken, destination,
      Meaning(plan).audio[source])
  {
    BookOp(plan, Copy(source, destination), buffers);
  }

  lemma AddWrites(plan: RenderPlan, source: int, destination: int, buffers: int, taken: set<int>)
    requires Booked(plan, buffers) && 0 <= source < buffers && 0 <= destination < buffers
    requires source in Meaning(plan).audio && destination in Meaning(plan).audio
    ensures Booked(Emit(plan, Add(source, destination)), buffers)
    ensures Wrote(Meaning(plan), Meaning(Emit(plan, Add(source, destination))), taken, destination,
              Sum(Meaning(plan).audio[destination], Meaning(plan).audio[source]))
  {
    BookOp(plan, Add(source, destination), buffers);
  }

  lemma DelayWrites(plan: RenderPlan, buffer: int, samples: int, buffers: int, taken: set<int>)
    requires Booked(plan, buffers) && 0 <= buffer < buffers && samples > 0
    requires buffer in Meaning(plan).audio
    ensures Booked(EmitDelay(plan, buffer, samples), buffers)
    ensures Wrote(Meaning(plan), Meaning(EmitDelay(plan, buffer, samples)), taken, buffer,
      Delayed(Meaning(plan).audio[buffer], samples))
  {
    BookDelay(plan, buffer, samples, buffers);
  }

  /** A signal copied to a scratch buffer, delayed there and added to the destination. */
  lemma ScratchWrites(plan: RenderPlan, source: int, scratch: int, destination: int, samples: int, buffers: int,
    taken: set<int>)
    returns (result: RenderPlan)
    requires Booked(plan, buffers) && samples > 0
    requires 0 <= source < buffers && 0 <= destination < buffers && 0 <= scratch < buffers
    requires source in Meaning(plan).audio && destination in Meaning(plan).audio
    requires scratch !in taken && destination in taken
    ensures result == Emit(EmitDelay(Emit(plan, Copy(source, scratch)), scratch, samples), Add(scratch, destination))
    ensures Booked(result, buffers)
    ensures Wrote(Meaning(plan), Meaning(result), taken, destination,
              Sum(Meaning(plan).audio[destination], Delayed(Meaning(plan).audio[source], samples)))
  {
    CopyWrites(plan, source, scratch, buffers, taken);
    var copied := Emit(plan, Copy(source, scratch));
    DelayWrites(copied, scratch, samples, buffers, taken);
    var delayed := EmitDelay(copied, scratch, samples);
    AddWrites(delayed, scratch, destination, buffers, taken);
    result := Emit(delayed, Add(scratch, destination));
  }

  /** Emits one source of a channel: copied when it is the first, added otherwise; delayed through the
      destination itself or through a scratch buffer when it arrives early. */
  method EmitSource(plan0: RenderPlan, pool: BufferPool, source: int, destination: int, compensation: int,
    firstSource: bool)
    returns (plan: RenderPlan)
    requires pool.Valid() && Booked(plan0, pool.highWater)
    requires source in pool.Taken() && destination in pool.Taken() && source != destination
    requires source in Meaning(plan0).audio && (firstSource || destination in Meaning(plan0).audio)
    requires compensation >= 0
    modifies pool
    ensures pool.Valid() && pool.Taken() == old(pool.Taken()) && pool.highWater >= old(pool.highWater)
    ensures Booked(plan, pool.highWater)
    ensures OnlyCodeAdded(plan0, plan) && plan.channelBuffers == plan0.channelBuffers
    ensures var term := Aligned(Meaning(plan0).audio[source], compensation);
            Wrote(Meaning(plan0), Meaning(plan), pool.Taken(), destination,
              if firstSource then term else Sum(Meaning(plan0).audio[destination], term))
  {
    if firstSource {
      CopyWrites(plan0, source, destination, pool.highWater, pool.Taken());
      plan := Emit(plan0, Copy(source, destination));
      if compensation > 0 {
        DelayWrites(plan, destination, compensation, pool.highWater, pool.Taken());
        plan := EmitDelay(plan, destination, compensation);
      }
    } else if compensation == 0 {
      AddWrites(plan0, source, destination, pool.highWater, pool.Taken());
      plan := Emit(plan0, Add(source, destination));
    } else {
      var scratch := pool.Acquire();
      BookMore(plan0, old(pool.highWater), pool.highWater);
      ghost var result := ScratchWrites(plan0, source, scratch, destination, compensation, pool.highWater,
        old(pool.Taken()));
      plan := Emit(plan0, Copy(source, scratch));
      plan := EmitDelay(plan, scratch, compensation);
      plan := Emit(plan, Add(scratch, destination));
      pool.Release(scratch);
    }
  }

  // ----- live signals

  /** The buffers in use are those of the live signals and those of the node being emitted, all different. */
  ghost predicate Allocated(signals: map<Signal, int>, own: seq<int>, taken: set<int>) {
    && (forall s :: s in signals ==> signals[s] in taken && signals[s] !in own)
    && (forall k :: 0 <= k < |own| ==> own[k] in taken)
    && (forall b :: b in taken ==> b in own || exists s :: s in signals && signals[s] == b)
    && (forall r, s :: r in signals && s in signals && signals[r] == signals[s] ==> r == s)
    && Distinct(own)
  }

  /** Exactly the signals produced before `step` and still wanted at `step` or later are live. */
  ghost predicate Live(c: Context, step: int, signals: map<Signal, int>) {
    forall s :: s in signals <==>
      s in c.lastConsumer && s.node in c.position && c.position[s.node] < step <= c.lastConsumer[s]
  }

  /** Each live signal's buffer carries that signal. */
  ghost predicate Carries(run: Symbolic, signals: map<Signal, int>) {
    forall s :: s in signals ==> signals[s] in run.audio && run.audio[signals[s]] == Output(s.node, s.channel)
  }

  /** A source of the node being emitted is always live: the "no buffer" case cannot occur. */
  lemma SourceIsLive(c: Context, step: nat, signals: map<Signal, int>, channel: int, s: Signal)
    requires Planned(c) && step < |c.order| && Live(c, step, signals)
    requires s in SourceSet(c.t, c.order[step], channel)
    ensures s in signals && s.node in c.t.nodes
    ensures c.arrival[s.node] + c.info[s.node].latencySamples <= c.arrival[c.order[step]]
  {
    var n := c.order[step];
    var e :| e in c.t.connections && !e.IsMidi() && e.destinationNode == n && e.destinationChannel == channel
      && SourceOf(e) == s;
    assert Admissible(c.t.nodes, e) && EdgeOf(e) in Edges(c.t);
    assert s.node in c.order;
    var i :| 0 <= i < |c.order| && c.order[i] == s.node;
    assert (c.order[i], c.order[step]) in Edges(c.t);
    assert c.position[s.node] == i && c.position[n] == step;
    assert IsArrivalAt(c.t, c.info, c.arrival, n);
    assert IsAudioInto(e, n);
  }

  /** Node `id` and all its sources have a known arrival, and no source arrives after the node. */
  ghost predicate Arrived(info: NodeInfoMap, arrival: map<NodeId, int>, id: NodeId, sources: seq<Signal>) {
    id in arrival && forall s :: s in sources ==> ArrivesInTime(info, arrival, id, s)
  }

  ghost predicate ArrivesInTime(info: NodeInfoMap, arrival: map<NodeId, int>, id: NodeId, s: Signal)
    requires id in arrival
  {
    s.node in arrival && s.node in info && arrival[s.node] + info[s.node].latencySamples <= arrival[id]
  }

  /** Half-way through a channel: its buffer carries the mix of the first `k` sources. */
  ghost predicate Mixing(info: NodeInfoMap, arrival: map<NodeId, int>, id: NodeId, sources: seq<Signal>, k: nat,
    start: Symbolic, run: Symbolic, taken: set<int>, buffer: int)
    requires k <= |sources| && Arrived(info, arrival, id, sources)
  {
    assert forall s :: s in sources[..k] ==> s in sources && ArrivesInTime(info, arrival, id, s);
    if k == 0 then run == start
    else Wrote(start, run, taken, buffer, Mix(info, arrival, id, sources[..k]))
  }

  lemma MixOneMore(info: NodeInfoMap, arrival: map<NodeId, int>, id: NodeId, sources: seq<Signal>, k: nat,
    start: Symbolic, before: Symbolic, after: Symbolic, taken: set<int>, buffer: int, term: Term)
    requires k < |sources| && Arrived(info, arrival, id, sources) && buffer !in taken
    requires Mixing(info, arrival, id, sources, k, start, before, taken, buffer) == true
    requires sources[k] in sources && ArrivesInTime(info, arrival, id, sources[k])
    requires term == AlignedSource(info, arrival, id, sources[k])
    requires k == 0 || buffer in before.audio
    requires Wrote(before, after, taken, buffer, if k == 0 then term else Sum(before.audio[buffer], term))
    ensures Mixing(info, arrival, id, sources, k + 1, start, after, taken, buffer) == true
  {
    assert sources[..k + 1][..k] == sources[..k];
  }

  /** Emits the sources of one channel in sorted order. */
  method EmitSources(info: NodeInfoMap, arrival: map<NodeId, int>, id: NodeId, sources: seq<Signal>,
    plan0: RenderPlan, pool: BufferPool, signals: map<Signal, int>, buffer: int)
    returns (plan: RenderPlan)
    requires pool.Valid() && Booked(plan0, pool.highWater) && buffer in pool.Taken()
    requires Arrived(info, arrival, id, sources) && sources != []
    requires Carries(Meaning(plan0), signals)
    requires forall s :: s in signals ==> signals[s] in pool.Taken() && signals[s] != buffer
    requires forall s :: s in sources ==> s in signals
    modifies pool
    ensures pool.Valid() && Booked(plan, pool.highWater) && pool.Taken() == old(pool.Taken())
    ensures OnlyCodeAdded(plan0, plan) && plan.channelBuffers == plan0.channelBuffers
    ensures Wrote(Meaning(plan0), Meaning(plan), pool.Taken() - {buffer}, buffer, Mix(info, arrival, id, sources))
  {
    plan := plan0;
    ghost var start, taken := Meaning(plan0), pool.Taken() - {buffer};
    var k := 0;
    while k < |sources|
      invariant 0 <= k <= |sources|
      invariant pool.Valid() && Booked(plan, pool.highWater) == true
        && pool.Taken() == old(pool.Taken()) == taken + {buffer}
      invariant OnlyCodeAdded(plan0, plan) == true && plan.channelBuffers == plan0.channelBuffers
      invariant Mixing(info, arrival, id, sources, k, start, Meaning(plan), taken, buffer) == true
    {
      plan := EmitNextSource(info, arrival, id, sources, plan, pool, signals, buffer, k, start);
      k := k + 1;
    }
    assert sources[..k] == sources;
  }

  /** Copies or adds one source, aligned. */
  method EmitNextSource(info: NodeInfoMap, arrival: map<NodeId, int>, id: NodeId, sources: seq<Signal>,
    plan0: RenderPlan, pool: BufferPool, signals: map<Signal, int>, buffer: int, k: nat, ghost start: Symbolic)
    returns (plan: RenderPlan)
    requires pool.Valid() && Booked(plan0, pool.highWater) == true && buffer in pool.Taken() && k < |sources|
    requires Arrived(info, arrival, id, sources)
    requires forall s :: s in signals ==> signals[s] in pool.Taken() && signals[s] != buffer
    requires sources[k] in signals && Carries(start, signals) == true
    requires Mixing(info, arrival, id, sources, k, start, Meaning(plan0), pool.Taken() - {buffer}, buffer) == true
    modifies pool
    ensures pool.Valid() && Booked(plan, pool.highWater) == true && pool.Taken() == old(pool.Taken())
    ensures OnlyCodeAdded(plan0, plan) == true && plan.channelBuffers == plan0.channelBuffers
    ensures Mixing(info, arrival, id, sources, k + 1, start, Meaning(plan), pool.Taken() - {buffer}, buffer) == true
  {
    var s := sources[k];
    ghost var taken := pool.Taken() - {buffer};
    assert ArrivesInTime(info, arrival, id, s);
    var compensation := arrival[id] - (arrival[s.node] + info[s.node].latencySamples);
    ghost var before := Meaning(plan0);
    assert before.audio[signals[s]] == Output(s.node, s.channel);
    plan := EmitSource(plan0, pool, signals[s], buffer, compensation, k == 0);
    MixOneMore(info, arrival, id, sources, k, start, before, Meaning(plan), taken, buffer,
      Aligned(Output(s.node, s.channel), compensation));
  }

  /** Acquires a channel buffer and fills it with the mix of the sources; silence when there are none. */
  method EmitMix(info: NodeInfoMap, arrival: map<NodeId, int>, id: NodeId, sources: seq<Signal>,
    plan0: RenderPlan, pool: BufferPool, signals: map<Signal, int>)
    returns (plan: RenderPlan, buffer: int)
    requires pool.Valid() && Booked(plan0, pool.highWater)
    requires Arrived(info, arrival, id, sources) && forall s :: s in sources ==> s in signals
    requires Carries(Meaning(plan0), signals)
    requires forall s :: s in signals ==> signals[s] in pool.Taken()
    modifies pool
    ensures pool.Valid() && Booked(plan, pool.highWater)
    ensures buffer !in old(pool.Taken()) && pool.Taken() == old(pool.Taken()) + {buffer}
    ensures OnlyCodeAdded(plan0, plan) && plan.channelBuffers == plan0.channelBuffers + [buffer]
    ensures forall s :: s in sources ==> ArrivesInTime(info, arrival, id, s)
    ensures Wrote(Meaning(plan0), Meaning(plan), old(pool.Taken()), buffer, Mix(info, arrival, id, sources))
    ensures buffer in Meaning(plan).audio && InStep(info, arrival, id, sources, Meaning(plan).audio[buffer]) == true
  {
    MixIsInStep(info, arrival, id, sources);
    buffer := pool.Acquire();
    BookMore(plan0, old(pool.highWater), pool.highWater);
    BookChannel(plan0, buffer, pool.highWater);
    plan := plan0.(channelBuffers := plan0.channelBuffers + [buffer]);
    if sources == [] {
      ClearWrites(plan, buffer, pool.highWater, old(pool.Taken()));
      plan := Emit(plan, Clear(buffer));
    } else {
      plan := EmitSources(info, arrival, id, sources, plan, pool, signals, buffer);
      assert pool.Taken() - {buffer} == old(pool.Taken());
    }
  }

  /** The sources of a channel, in the order in which they are mixed. */
  function FanIn(audioInputs: map<Signal, seq<Signal>>, id: NodeId, channel: int): seq<Signal> {
    if Signal(id, channel) in audioInputs then audioInputs[Signal(id, channel)] else []
  }

  /** All sources of a channel are at hand, and none arrives after the node. */
  ghost predicate ChannelReady(info: NodeInfoMap, arrival: map<NodeId, int>, id: NodeId, sources: seq<Signal>,
    signals: map<Signal, int>)
  {
    Arrived(info, arrival, id, sources) && forall s :: s in sources ==> s in signals
  }

  ghost function MixOf(info: NodeInfoMap, arrival: map<NodeId, int>, id: NodeId, sources: seq<Signal>,
    signals: map<Signal, int>): (term: Term)
    requires ChannelReady(info, arrival, id, sources, signals)
    ensures forall s :: s in sources ==> ArrivesInTime(info, arrival, id, s)
    ensures InStep(info, arrival, id, sources, term) == true
  {
    assert forall s :: s in sources ==> ArrivesInTime(info, arrival, id, s);
    MixIsInStep(info, arrival, id, sources);
    Mix(info, arrival, id, sources)
  }

  lemma ChannelsAreReady(c: Context, step: nat, signals: map<Signal, int>, channel: int)
    requires Planned(c) && step < |c.order| && Live(c, step, signals) && c.order[step] in c.t.nodes
    ensures ChannelReady(c.info, c.arrival, c.order[step], FanIn(c.audioInputs, c.order[step], channel), signals)
    ensures MixOf(c.info, c.arrival, c.order[step], FanIn(c.audioInputs, c.order[step], channel), signals)
         == GraphChannel(c.t, c.info, c.arrival, c.order[step], channel)
  {
    var id := c.order[step];
    FanInOf(c, id, channel, FanIn(c.audioInputs, id, channel));
    SourcesAreLive(c, step, signals, channel, FanIn(c.audioInputs, id, channel));
    SourcesAreNodes(c.t, id, channel);
  }

  lemma SourcesAreLive(c: Context, step: nat, signals: map<Signal, int>, channel: int, sources: seq<Signal>)
    requires Planned(c) && step < |c.order| && Live(c, step, signals) && c.order[step] in c.t.nodes
    requires Elements(sources) == SourceSet(c.t, c.order[step], channel)
    ensures Arrived(c.info, c.arrival, c.order[step], sources)
    ensures forall s :: s in sources ==> s in signals
  {
    forall s | s in sources ensures s in signals && ArrivesInTime(c.info, c.arrival, c.order[step], s) {
      assert s in Elements(sources);
      SourceIsLive(c, step, signals, channel, s);
    }
  }

  lemma FanInOf(c: Context, id: NodeId, channel: int, sources: seq<Signal>)
    requires Planned(c)
    requires sources == if Signal(id, channel) in c.audioInputs then c.audioInputs[Signal(id, channel)] else []
    ensures sources == SortedSources(c.t, id, channel) && Elements(sources) == SourceSet(c.t, id, channel)
  {
    if Signal(id, channel) !in c.audioInputs {
      forall s ensures s !in SourceSet(c.t, id, channel) {
        NoSourceUnlessListed(c, id, channel, s);
      }
      NoElements(SortedSources(c.t, id, channel));
    }
  }

  lemma NoElements<T>(s: seq<T>)
    ensures Elements(s) == {} <==> s == []
  {
    if s != [] { assert s[0] in Elements(s); }
  }

  lemma NoSourceUnlessListed(c: Context, id: NodeId, channel: int, s: Signal)
    requires Planned(c)
    ensures s in SourceSet(c.t, id, channel) ==> Signal(id, channel) in c.audioInputs
  {
    if s in SourceSet(c.t, id, channel) {
      var e :| e in c.t.connections && !e.IsMidi() && e.destinationNode == id && e.destinationChannel == channel;
      assert DestinationOf(e) == Signal(id, channel);
    }
  }

  // ----- one node

  /** The node's channels filled so far carry `terms`, and nothing else in use changed. */
  ghost predicate Filled(before: Symbolic, after: Symbolic, own: seq<int>, terms: seq<Term>) {
    && after.inputs == before.inputs && after.midi == before.midi
    && |own| == |terms|
    && (forall k :: 0 <= k < |own| ==> own[k] in after.audio && after.audio[own[k]] == terms[k])
  }

  lemma FillOneMore(start: Symbolic, before: Symbolic, after: Symbolic, own: seq<int>, terms: seq<Term>,
    taken: set<int>, signals: map<Signal, int>, buffer: int, term: Term)
    requires Filled(start, before, own, terms) && Carries(before, signals) && Allocated(signals, own, taken)
    requires buffer !in taken && Wrote(before, after, taken, buffer, term)
    ensures Filled(start, after, own + [buffer], terms + [term])
    ensures Carries(after, signals) && Allocated(signals, own + [buffer], taken + {buffer})
  {
    forall k | 0 <= k < |own| ensures own[k] in after.audio && after.audio[own[k]] == terms[k] {
      var b := own[k];
      assert b in taken && b in before.audio && b != buffer;
      assert b in after.audio && after.audio[b] == before.audio[b];
    }
    assert forall b :: b in own + [buffer] <==> b in own || b == buffer;
  }

  lemma OneMoreBuffer(table: seq<int>, own: seq<int>, buffer: int)
    ensures table + (own + [buffer]) == (table + own) + [buffer]
  {}

  lemma OneMoreTerm(terms: seq<Term>, k: nat)
    requires k < |terms|
    ensures terms[..k + 1] == terms[..k] + [terms[k]]
  {}

  /** Acquires and fills every channel of node `id`. */
  method EmitChannels(info: NodeInfoMap, arrival: map<NodeId, int>, id: NodeId, audioInputs: map<Signal, seq<Signal>>,
    channelCount: int, plan0: RenderPlan, pool: BufferPool, signals: map<Signal, int>)
    returns (plan: RenderPlan, own: seq<int>)
    requires pool.Valid() && Booked(plan0, pool.highWater) && channelCount >= 0
    requires forall k :: 0 <= k < channelCount ==> ChannelReady(info, arrival, id, FanIn(audioInputs, id, k), signals)
    requires Carries(Meaning(plan0), signals) && Allocated(signals, [], pool.Taken())
    modifies pool
    ensures pool.Valid() && Booked(plan, pool.highWater)
    ensures OnlyCodeAdded(plan0, plan) && plan.channelBuffers == plan0.channelBuffers + own
    ensures Filled(Meaning(plan0), Meaning(plan), own,
              seq(channelCount, k requires 0 <= k < channelCount => MixOf(info, arrival, id, FanIn(audioInputs, id, k),
                signals)))
    ensures Carries(Meaning(plan), signals) && Allocated(signals, own, pool.Taken())
  {
    plan, own := plan0, [];
    ghost var terms := seq(channelCount,
      k requires 0 <= k < channelCount => MixOf(info, arrival, id, FanIn(audioInputs, id, k), signals));
    ghost var start := Meaning(plan0);
    assert terms[..0] == [];
    var channel := 0;
    while channel < channelCount
      invariant 0 <= channel <= channelCount
      invariant pool.Valid() && Booked(plan, pool.highWater)
      invariant OnlyCodeAdded(plan0, plan) && plan.channelBuffers == plan0.channelBuffers + own
      invariant Filled(start, Meaning(plan), own, terms[..channel])
      invariant Carries(Meaning(plan), signals) && Allocated(signals, own, pool.Taken())
    {
      ghost var before, taken := Meaning(plan), pool.Taken();
      assert ChannelReady(info, arrival, id, FanIn(audioInputs, id, channel), signals);
      var buffer;
      plan, buffer := EmitMix(info, arrival, id, FanIn(audioInputs, id, channel), plan, pool, signals);
      FillOneMore(start, before, Meaning(plan), own, terms[..channel], taken, signals, buffer, terms[channel]);
      OneMoreBuffer(plan0.channelBuffers, own, buffer);
      OneMoreTerm(terms, channel);
      own := own + [buffer];
      channel := channel + 1;
    }
    assert terms[..channel] == terms;
  }

  /** The node's MIDI buffer carries the node's events. */
  ghost predicate MidiHeld(run: Symbolic, midiBufferForNode: map<NodeId, int>, s: NodeId) {
    s in midiBufferForNode && midiBufferForNode[s] in run.midi && run.midi[midiBufferForNode[s]] == NodeEvents(s)
  }

  ghost predicate MidiReady(run: Symbolic, midiBufferForNode: map<NodeId, int>, sources: seq<NodeId>, own: int) {
    forall s :: s in sources ==> MidiHeld(run, midiBufferForNode, s) && midiBufferForNode[s] != own
  }

  /** Clears the node's MIDI buffer and merges its sources into it, in sorted order. */
  method EmitMidi(plan0: RenderPlan, ghost buffers: int, midiBufferForNode: map<NodeId, int>, sources: seq<NodeId>,
    midiBuffer: int)
    returns (plan: RenderPlan)
    requires Booked(plan0, buffers) && 0 <= midiBuffer < plan0.midiBufferCount
    requires MidiReady(Meaning(plan0), midiBufferForNode, sources, midiBuffer)
    requires forall s :: s in midiBufferForNode ==> 0 <= midiBufferForNode[s] < plan0.midiBufferCount
    ensures Booked(plan, buffers)
    ensures OnlyCodeAdded(plan0, plan) && plan.channelBuffers == plan0.channelBuffers
    ensures Meaning(plan).audio == Meaning(plan0).audio && Meaning(plan).inputs == Meaning(plan0).inputs
    ensures Meaning(plan).midi == Meaning(plan0).midi[midiBuffer := MergeAll(sources)]
  {
    BookOp(plan0, MidiClear(midiBuffer), buffers);
    plan := Emit(plan0, MidiClear(midiBuffer));
    var k := 0;
    while k < |sources|
      invariant 0 <= k <= |sources|
      invariant Booked(plan, buffers)
      invariant OnlyCodeAdded(plan0, plan) && plan.channelBuffers == plan0.channelBuffers
      invariant Meaning(plan).audio == Meaning(plan0).audio && Meaning(plan).inputs == Meaning(plan0).inputs
      invariant Meaning(plan).midi == Meaning(plan0).midi[midiBuffer := MergeAll(sources[..k])]
    {
      var source := sources[k];
      assert source in sources;
      assert sources[..k + 1][..k] == sources[..k];
      BookOp(plan, MidiMerge(midiBufferForNode[source], midiBuffer), buffers);
      plan := Emit(plan, MidiMerge(midiBufferForNode[source], midiBuffer));
      k := k + 1;
    }
    assert sources[..k] == sources;
  }

  lemma ProcessWrites(plan: RenderPlan, buffers: int, first: int, own: seq<int>, node: NodeId, midiBuffer: int,
    input: NodeInput)
    requires Booked(plan, buffers) && 0 <= first && plan.channelBuffers[..] == plan.channelBuffers
    requires first + |own| <= |plan.channelBuffers| && plan.channelBuffers[first..first + |own|] == own
    requires 0 <= midiBuffer < plan.midiBufferCount
    requires Distinct(own) && node !in Meaning(plan).inputs
    requires |own| == |input.audio|
    requires forall k :: 0 <= k < |own| ==>
      own[k] in Meaning(plan).audio && Meaning(plan).audio[own[k]] == input.audio[k]
    requires midiBuffer in Meaning(plan).midi && Meaning(plan).midi[midiBuffer] == input.midi
    ensures var after := Emit(plan, Process(node, first, |own|, midiBuffer));
            && Booked(after, buffers)
            && Meaning(after).inputs == Meaning(plan).inputs[node := input]
            && Meaning(after).midi == Meaning(plan).midi[midiBuffer := NodeEvents(node)]
            && Meaning(after).audio == WriteOutputs(Meaning(plan).audio, own, node)
  {
    var op := Process(node, first, |own|, midiBuffer);
    var run := Meaning(plan);
    forall b | b in own ensures b in run.audio {
      var k :| 0 <= k < |own| && own[k] == b;
    }
    assert CanProcess(run, own, node, midiBuffer);
    assert ChannelTerms(run.audio, own) == input.audio;
    BookOp(plan, op, buffers);
  }

  /** After processing, each channel carries the node's output; other signals are untouched. */
  lemma OutputsCarried(audio: map<int, Term>, own: seq<int>, node: NodeId, signals: map<Signal, int>, taken: set<int>,
    before: Symbolic, after: Symbolic)
    requires Allocated(signals, own, taken) && Carries(before, signals)
    requires after.audio == WriteOutputs(before.audio, own, node)
    ensures Carries(after, signals)
    ensures forall k :: 0 <= k < |own| ==> own[k] in after.audio && after.audio[own[k]] == Output(node, k)
  {
    forall k | 0 <= k < |own| ensures own[k] in after.audio && after.audio[own[k]] == Output(node, k) {
      assert own[k] in own && IndexOf(own, own[k]) == k;
    }
  }

  // ----- register allocation: publishing a node's outputs and retiring dead signals

  predicate StillPublished(s: Signal, id: NodeId, channels: int, outputs: int, lastConsumer: map<Signal, int>, k: int) {
    s.node == id && 0 <= s.channel < outputs && s.channel < channels && (s.channel >= k || s in lastConsumer)
  }

  /** Part way through releasing a node's channels (those below `k` are settled). */
  ghost predicate Settling(signals0: map<Signal, int>, signals: map<Signal, int>, id: NodeId, own: seq<int>,
    outputs: int, lastConsumer: map<Signal, int>, k: int, taken: set<int>)
  {
    && KeysSettled(signals0, signals, id, |own|, outputs, lastConsumer, k)
    && (forall s :: s in signals0 ==> s in signals && signals[s] == signals0[s])
    && (forall s :: s in signals && s !in signals0 ==> 0 <= s.channel < |own| && signals[s] == own[s.channel])
    && (forall s :: s in signals ==> signals[s] in taken)
    && (forall j :: 0 <= k <= j < |own| ==> own[j] in taken)
    && (forall b :: b in taken ==> InUse(signals, own, k, b))
  }

  ghost predicate KeysSettled(signals0: map<Signal, int>, signals: map<Signal, int>, id: NodeId, channels: int,
    outputs: int, lastConsumer: map<Signal, int>, k: int)
  {
    forall s :: s in signals <==> s in signals0 || StillPublished(s, id, channels, outputs, lastConsumer, k)
  }

  /** Buffer `b` belongs to a live signal or to a channel not settled yet. */
  ghost predicate InUse(signals: map<Signal, int>, own: seq<int>, k: int, b: int) {
    (exists s :: s in signals && signals[s] == b) || (exists j :: 0 <= k <= j < |own| && own[j] == b)
  }

  method PublishOutputs(signals0: map<Signal, int>, id: NodeId, own: seq<int>, outputs: int,
    ghost lastConsumer: map<Signal, int>, ghost taken: set<int>)
    returns (signals: map<Signal, int>)
    requires Allocated(signals0, own, taken) && outputs >= 0
    requires forall s :: s in signals0 ==> s.node != id
    ensures Settling(signals0, signals, id, own, outputs, lastConsumer, 0, taken)
  {
    signals := signals0;
    var channel := 0;
    while channel < outputs && channel < |own|
      invariant 0 <= channel && (channel <= outputs && channel <= |own|)
      invariant forall s :: s in signals <==> s in signals0 || (s.node == id && 0 <= s.channel < channel)
      invariant forall s :: s in signals0 ==> signals[s] == signals0[s]
      invariant forall s :: s in signals && s !in signals0 ==> 0 <= s.channel < |own| && signals[s] == own[s.channel]
    {
      signals := signals[Signal(id, channel) := own[channel]];
      channel := channel + 1;
    }
    forall b | b in taken
      ensures InUse(signals, own, 0, b)
    {
      if b !in own {
        var s :| s in signals0 && signals0[s] == b;
        assert signals[s] == b;
      }
    }
  }

  /** Releases the channels that carry no consumed output. */
  method ReleaseUnused(signals0: map<Signal, int>, signals1: map<Signal, int>, id: NodeId, own: seq<int>, outputs: int,
    lastConsumer: map<Signal, int>, pool: BufferPool)
    returns (signals: map<Signal, int>)
    requires pool.Valid() && Distinct(own)
    requires forall s :: s in signals0 ==> s.node != id && signals0[s] !in own
    requires Settling(signals0, signals1, id, own, outputs, lastConsumer, 0, pool.Taken())
    modifies pool
    ensures pool.Valid() && pool.highWater == old(pool.highWater)
    ensures Settling(signals0, signals, id, own, outputs, lastConsumer, |own|, pool.Taken())
  {
    signals := signals1;
    var channel := 0;
    // Compared with `true` so that the verifier carries the predicate as one unit.
    while channel < |own|
      invariant 0 <= channel <= |own|
      invariant pool.Valid() && pool.highWater == old(pool.highWater)
      invariant Settling(signals0, signals, id, own, outputs, lastConsumer, channel, pool.Taken()) == true
    {
      signals := SettleChannel(signals0, signals, id, own, outputs, lastConsumer, channel, pool);
      channel := channel + 1;
    }
  }

  method SettleChannel(ghost signals0: map<Signal, int>, signals1: map<Signal, int>, id: NodeId, own: seq<int>,
    outputs: int, lastConsumer: map<Signal, int>, channel: nat, pool: BufferPool)
    returns (signals: map<Signal, int>)
    requires pool.Valid() && Distinct(own) && channel < |own|
    requires forall s :: s in signals0 ==> s.node != id && signals0[s] !in own
    requires Settling(signals0, signals1, id, own, outputs, lastConsumer, channel, pool.Taken())
    modifies pool
    ensures pool.Valid() && pool.highWater == old(pool.highWater)
    ensures Settling(signals0, signals, id, own, outputs, lastConsumer, channel + 1, pool.Taken())
  {
    var signal := Signal(id, channel);
    var isOutput := channel < outputs;
    if !isOutput || signal !in lastConsumer {
      SettleDropped(signals0, signals1, id, own, outputs, lastConsumer, channel, pool.Taken());
      pool.Release(own[channel]);
      signals := signals1 - {signal};
    } else {
      SettleKept(signals0, signals1, id, own, outputs, lastConsumer, channel, pool.Taken());
      signals := signals1;
    }
  }

  lemma SettleDropped(signals0: map<Signal, int>, signals: map<Signal, int>, id: NodeId, own: seq<int>, outputs: int,
    lastConsumer: map<Signal, int>, k: nat, taken: set<int>)
    requires Distinct(own) && k < |own| && forall s :: s in signals0 ==> signals0[s] !in own
    requires forall s :: s in signals0 ==> s.node != id
    requires Settling(signals0, signals, id, own, outputs, lastConsumer, k, taken)
    requires !(k < outputs) || Signal(id, k) !in lastConsumer
    ensures own[k] in taken
    ensures Settling(signals0, signals - {Signal(id, k)}, id, own, outputs, lastConsumer, k + 1, taken - {own[k]})
  {
    var after := signals - {Signal(id, k)};
    assert own[k] in own;
    DropKey(signals0, signals, id, |own|, outputs, lastConsumer, k);
    forall b | b in taken - {own[k]}
      ensures InUse(after, own, k + 1, b)
    {
      OtherIsStillUsed(signals0, signals, id, own, outputs, lastConsumer, k, taken, b);
    }
    forall s | s in after ensures after[s] in taken - {own[k]} {
      DroppedIsNotUsed(signals0, signals, id, own, outputs, lastConsumer, k, taken, s);
    }
  }

  lemma DropKey(signals0: map<Signal, int>, signals: map<Signal, int>, id: NodeId, channels: int, outputs: int,
    lastConsumer: map<Signal, int>, k: nat)
    requires KeysSettled(signals0, signals, id, channels, outputs, lastConsumer, k)
    requires forall s :: s in signals0 ==> s.node != id
    requires !(k < outputs) || Signal(id, k) !in lastConsumer
    ensures KeysSettled(signals0, signals - {Signal(id, k)}, id, channels, outputs, lastConsumer, k + 1)
  {
    assert Signal(id, k) !in signals0;
  }

  lemma OtherIsStillUsed(signals0: map<Signal, int>, signals: map<Signal, int>, id: NodeId, own: seq<int>, outputs: int,
    lastConsumer: map<Signal, int>, k: nat, taken: set<int>, b: int)
    requires k < |own| && Settling(signals0, signals, id, own, outputs, lastConsumer, k, taken)
    requires forall s :: s in signals0 ==> s.node != id
    requires b in taken && b != own[k]
    ensures InUse(signals - {Signal(id, k)}, own, k + 1, b)
  {
    var after := signals - {Signal(id, k)};
    if s :| s in signals && signals[s] == b {
      assert Signal(id, k) in signals ==> Signal(id, k) !in signals0;
      assert s in after && after[s] == b;
    } else {
      var j :| 0 <= k <= j < |own| && own[j] == b;
      assert 0 <= k + 1 <= j < |own| && own[j] == b;
    }
  }

  lemma DroppedIsNotUsed(signals0: map<Signal, int>, signals: map<Signal, int>, id: NodeId, own: seq<int>, outputs: int,
    lastConsumer: map<Signal, int>, k: nat, taken: set<int>, s: Signal)
    requires Distinct(own) && k < |own| && forall s :: s in signals0 ==> signals0[s] !in own
    requires Settling(signals0, signals, id, own, outputs, lastConsumer, k, taken)
    requires s in signals && s != Signal(id, k)
    ensures signals[s] in taken && signals[s] != own[k]
  {
    if s in signals0 {
      assert own[k] in own;
    } else {
      assert s.channel != k;
    }
  }

  lemma SettleKept(signals0: map<Signal, int>, signals: map<Signal, int>, id: NodeId, own: seq<int>, outputs: int,
    lastConsumer: map<Signal, int>, k: nat, taken: set<int>)
    requires k < |own| && k < outputs && Signal(id, k) in lastConsumer
    requires forall s :: s in signals0 ==> s.node != id
    requires Settling(signals0, signals, id, own, outputs, lastConsumer, k, taken)
    ensures Settling(signals0, signals, id, own, outputs, lastConsumer, k + 1, taken)
  {
    var kept := Signal(id, k);
    assert kept in signals && signals[kept] == own[k];
    forall b | b in taken
      ensures InUse(signals, own, k + 1, b)
    {
      if !exists s :: s in signals && signals[s] == b {
        var j :| 0 <= k <= j < |own| && own[j] == b;
        assert j != k;
      }
    }
  }

  lemma Settled(signals0: map<Signal, int>, signals: map<Signal, int>, id: NodeId, own: seq<int>, outputs: int,
    lastConsumer: map<Signal, int>, taken0: set<int>, taken: set<int>)
    requires Allocated(signals0, own, taken0)
    requires Settling(signals0, signals, id, own, outputs, lastConsumer, |own|, taken)
    ensures Allocated(signals, [], taken)
  {
    assert forall j :: 0 <= j < |own| ==> own[j] in own;
  }

  /** Gives back the buffers of the signals whose last consumer has just run. */
  method RetireConsumed(signals0: map<Signal, int>, lastConsumer: map<Signal, int>, step: int, pool: BufferPool)
    returns (signals: map<Signal, int>)
    requires pool.Valid() && Allocated(signals0, [], pool.Taken())
    modifies pool
    ensures pool.Valid() && pool.highWater == old(pool.highWater)
    ensures Allocated(signals, [], pool.Taken())
    ensures forall s :: s in signals <==> s in signals0 && !(s in lastConsumer && lastConsumer[s] == step)
    ensures forall s :: s in signals ==> signals[s] == signals0[s]
  {
    signals := signals0;
    var rest := signals0.Keys;
    while rest != {}
      invariant rest <= signals0.Keys && rest <= signals.Keys
      invariant pool.Valid() && pool.highWater == old(pool.highWater)
      invariant Allocated(signals, [], pool.Taken())
      invariant forall s :: s in signals <==>
        s in signals0 && (s in rest || !(s in lastConsumer && lastConsumer[s] == step))
      invariant forall s :: s in signals ==> signals[s] == signals0[s]
      decreases |rest|
    {
      var signal :| signal in rest;
      if signal in lastConsumer && lastConsumer[signal] == step {
        RetireOne(signals, signal, pool.Taken());
        pool.Release(signals[signal]);
        signals := signals - {signal};
      }
      rest := rest - {signal};
    }
  }

  lemma RetireOne(signals: map<Signal, int>, signal: Signal, taken: set<int>)
    requires Allocated(signals, [], taken) && signal in signals
    ensures Allocated(signals - {signal}, [], taken - {signals[signal]})
  {
    var after := signals - {signal};
    forall b | b in taken - {signals[signal]} ensures exists s :: s in after && after[s] == b {
      var s :| s in signals && signals[s] == b;
      assert s in after;
    }
  }

  // ----- the emission loop

  /** The mix of every channel of a node. */
  ghost function Mixes(info: NodeInfoMap, arrival: map<NodeId, int>, id: NodeId, audioInputs: map<Signal, seq<Signal>>,
    channelCount: nat, signals: map<Signal, int>): seq<Term>
    requires forall k :: 0 <= k < channelCount ==> ChannelReady(info, arrival, id, FanIn(audioInputs, id, k), signals)
  {
    seq(channelCount, k requires 0 <= k < channelCount => MixOf(info, arrival, id, FanIn(audioInputs, id, k), signals))
  }

  /** Code for one node: fill the channels, merge the MIDI, process. */
  method EmitNodeCode(info: NodeInfoMap, arrival: map<NodeId, int>, id: NodeId, audioInputs: map<Signal, seq<Signal>>,
    channelCount: nat, midiBufferForNode: map<NodeId, int>, midiSources: seq<NodeId>, plan0: RenderPlan,
    pool: BufferPool, signals: map<Signal, int>)
    returns (plan: RenderPlan, own: seq<int>)
    requires pool.Valid() && Booked(plan0, pool.highWater)
    requires forall k :: 0 <= k < channelCount ==> ChannelReady(info, arrival, id, FanIn(audioInputs, id, k), signals)
    requires Carries(Meaning(plan0), signals) && Allocated(signals, [], pool.Taken())
    requires forall s :: s in midiBufferForNode ==> 0 <= midiBufferForNode[s] < plan0.midiBufferCount
    requires id in midiBufferForNode && id !in Meaning(plan0).inputs
    requires MidiReady(Meaning(plan0), midiBufferForNode, midiSources, midiBufferForNode[id])
    modifies pool
    ensures pool.Valid() && Booked(plan, pool.highWater)
    ensures OnlyCodeAdded(plan0, plan)
    ensures |own| == channelCount && Allocated(signals, own, pool.Taken()) && Carries(Meaning(plan), signals)
    ensures forall k :: 0 <= k < |own| ==> own[k] in Meaning(plan).audio && Meaning(plan).audio[own[k]] == Output(id, k)
    ensures Meaning(plan).inputs
      == Meaning(plan0).inputs[id := NodeInput(Mixes(info, arrival, id, audioInputs, channelCount, signals),
        MergeAll(midiSources))]
    ensures Meaning(plan).midi == Meaning(plan0).midi[midiBufferForNode[id] := NodeEvents(id)]
  {
    var firstChannel := |plan0.channelBuffers|;
    ghost var terms := Mixes(info, arrival, id, audioInputs, channelCount, signals);
    plan, own := EmitChannels(info, arrival, id, audioInputs, channelCount, plan0, pool, signals);
    assert plan.channelBuffers[firstChannel..firstChannel + |own|] == own;
    plan := EmitProcess(plan, pool.highWater, id, midiBufferForNode, midiSources, firstChannel, own, terms, signals,
      pool.Taken());
  }

  /** Merges the MIDI and processes, once the channels are filled. */
  method EmitProcess(plan0: RenderPlan, ghost buffers: int, id: NodeId, midiBufferForNode: map<NodeId, int>,
    midiSources: seq<NodeId>, firstChannel: nat, own: seq<int>, ghost terms: seq<Term>, ghost signals: map<Signal, int>,
    ghost taken: set<int>)
    returns (plan: RenderPlan)
    requires Booked(plan0, buffers) == true && id in midiBufferForNode && id !in Meaning(plan0).inputs
    requires forall s :: s in midiBufferForNode ==> 0 <= midiBufferForNode[s] < plan0.midiBufferCount
    requires MidiReady(Meaning(plan0), midiBufferForNode, midiSources, midiBufferForNode[id]) == true
    requires firstChannel + |own| <= |plan0.channelBuffers|
      && plan0.channelBuffers[firstChannel..firstChannel + |own|] == own
    requires |own| == |terms| && forall k :: 0 <= k < |own| ==>
      own[k] in Meaning(plan0).audio && Meaning(plan0).audio[own[k]] == terms[k]
    requires Allocated(signals, own, taken) == true && Carries(Meaning(plan0), signals) == true
    ensures Booked(plan, buffers) == true && OnlyCodeAdded(plan0, plan) == true
      && Carries(Meaning(plan), signals) == true
    ensures forall k :: 0 <= k < |own| ==> own[k] in Meaning(plan).audio && Meaning(plan).audio[own[k]] == Output(id, k)
    ensures Meaning(plan).inputs == Meaning(plan0).inputs[id := NodeInput(terms, MergeAll(midiSources))]
    ensures Meaning(plan).midi == Meaning(plan0).midi[midiBufferForNode[id] := NodeEvents(id)]
  {
    plan := EmitMidi(plan0, buffers, midiBufferForNode, midiSources, midiBufferForNode[id]);
    ghost var before := Meaning(plan);
    ProcessWrites(plan, buffers, firstChannel, own, id, midiBufferForNode[id], NodeInput(terms, MergeAll(midiSources)));
    plan := Emit(plan, Process(id, firstChannel, |own|, midiBufferForNode[id]));
    OutputsCarried(before.audio, own, id, signals, taken, before, Meaning(plan));
  }

  /** Register allocation after a node has run. */
  method UpdateSignals(id: NodeId, own: seq<int>, outputs: nat, lastConsumer: map<Signal, int>, step: int,
    signals0: map<Signal, int>, pool: BufferPool)
    returns (signals: map<Signal, int>)
    requires pool.Valid() && Allocated(signals0, own, pool.Taken())
    requires forall s :: s in signals0 ==> s.node != id
    modifies pool
    ensures pool.Valid() && pool.highWater == old(pool.highWater)
    ensures Allocated(signals, [], pool.Taken())
    ensures forall s :: s in signals <==>
      (s in signals0 || StillPublished(s, id, |own|, outputs, lastConsumer, |own|))
        && !(s in lastConsumer && lastConsumer[s] == step)
    ensures forall s :: s in signals ==>
      if s in signals0 then signals[s] == signals0[s] else 0 <= s.channel < |own| && signals[s] == own[s.channel]
  {
    ghost var taken := pool.Taken();
    signals := PublishOutputs(signals0, id, own, outputs, lastConsumer, pool.Taken());
    signals := ReleaseUnused(signals0, signals, id, own, outputs, lastConsumer, pool);
    Settled(signals0, signals, id, own, outputs, lastConsumer, taken, pool.Taken());
    signals := RetireConsumed(signals, lastConsumer, step, pool);
  }

  ghost predicate Processed(c: Context, step: nat, run: Symbolic)
    requires Planned(c) && step <= |c.order|
  {
    && run.inputs.Keys == Elements(c.order[..step])
    && InputsCorrect(c.t, c.info, c.arrival, run.inputs)
    && (forall n :: n in run.inputs ==> MidiHeld(run, c.midiBufferForNode, n))
  }

  ghost predicate InputsCorrect(t: Topology, info: NodeInfoMap, arrival: map<NodeId, int>,
    inputs: map<NodeId, NodeInput>)
    requires WellBuilt(t) && WellFormed(t, info) && arrival.Keys == t.nodes
  {
    forall n :: n in inputs ==> n in t.nodes && inputs[n] == GraphInput(t, info, arrival, n)
  }

  lemma OneMoreCorrect(t: Topology, info: NodeInfoMap, arrival: map<NodeId, int>, inputs: map<NodeId, NodeInput>,
    n: NodeId)
    requires WellBuilt(t) && WellFormed(t, info) && arrival.Keys == t.nodes && n in t.nodes
    requires InputsCorrect(t, info, arrival, inputs)
    ensures InputsCorrect(t, info, arrival, inputs[n := GraphInput(t, info, arrival, n)])
  {}

  /** The state between two nodes. */
  ghost predicate Emitted(c: Context, step: nat, plan: RenderPlan, signals: map<Signal, int>, taken: set<int>,
    highWater: int)
  {
    && Planned(c) && step <= |c.order|
    && Booked(plan, highWater) && plan.midiBufferCount == |c.order|
    && Live(c, step, signals) && Carries(Meaning(plan), signals) && Allocated(signals, [], taken)
    && Processed(c, step, Meaning(plan))
  }

  /** Audio side of a node about to be emitted. */
  lemma AudioFacts(c: Context, step: nat, signals: map<Signal, int>)
    requires Planned(c) && step < |c.order| && c.order[step] in c.t.nodes && Live(c, step, signals)
    ensures var id := c.order[step];
         && GoodMetadata(c.info[id]) && c.info[id].ChannelCount() >= 0
         && (forall k :: 0 <= k < c.info[id].ChannelCount() ==>
           ChannelReady(c.info, c.arrival, id, FanIn(c.audioInputs, id, k), signals))
         && Mixes(c.info, c.arrival, id, c.audioInputs, c.info[id].ChannelCount(), signals)
           == GraphInput(c.t, c.info, c.arrival, id).audio
    ensures forall s :: s in signals ==> s.node != c.order[step]
  {
    var id := c.order[step];
    forall k ensures ChannelReady(c.info, c.arrival, id, FanIn(c.audioInputs, id, k), signals)
      && MixOf(c.info, c.arrival, id, FanIn(c.audioInputs, id, k), signals)
        == GraphChannel(c.t, c.info, c.arrival, id, k)
    {
      ChannelsAreReady(c, step, signals, k);
    }
    assert c.position[id] == step;
  }

  /** MIDI side of a node about to be emitted. */
  lemma MidiFacts(c: Context, step: nat, run: Symbolic, midiSources: seq<NodeId>)
    requires Planned(c) && step < |c.order| && Processed(c, step, run)
    requires midiSources == if c.order[step] in c.midiInputs then c.midiInputs[c.order[step]] else []
    ensures c.order[step] in c.midiBufferForNode && c.order[step] !in run.inputs
    ensures MergeAll(midiSources) == MergeAll(SortedMidiSources(c.t, c.order[step]))
    ensures forall s :: s in c.midiBufferForNode ==> 0 <= c.midiBufferForNode[s] < |c.order|
    ensures MidiReady(run, c.midiBufferForNode, midiSources, c.midiBufferForNode[c.order[step]])
  {
    var id := c.order[step];
    NextElement(c.order, step);
    MidiFanIn(c, step, midiSources);
    forall s | s in c.midiBufferForNode ensures 0 <= c.midiBufferForNode[s] < |c.order| {
      assert s in c.order;
      var i :| 0 <= i < |c.order| && c.order[i] == s;
    }
    forall s | s in midiSources
      ensures MidiHeld(run, c.midiBufferForNode, s) && c.midiBufferForNode[s] != c.midiBufferForNode[id] {
      var i :| 0 <= i < step && c.order[i] == s;
      assert c.order[..step][i] == s && s in run.inputs;
      assert c.midiBufferForNode[s] == i && c.midiBufferForNode[id] == step;
    }
  }

  lemma MidiFanIn(c: Context, step: nat, midiSources: seq<NodeId>)
    requires Planned(c) && step < |c.order|
    requires midiSources == if c.order[step] in c.midiInputs then c.midiInputs[c.order[step]] else []
    ensures midiSources == SortedMidiSources(c.t, c.order[step])
    ensures forall s :: s in midiSources ==> exists i :: 0 <= i < step && c.order[i] == s
  {
    var id := c.order[step];
    if id !in c.midiInputs {
      forall s ensures s !in MidiSourceSet(c.t, id) {
        NoMidiUnlessListed(c, id, s);
      }
      NoElements(SortedMidiSources(c.t, id));
    }
    forall s | s in midiSources ensures exists i :: 0 <= i < step && c.order[i] == s {
      assert s in Elements(midiSources);
      var e :| e in c.t.connections && e.IsMidi() && e.destinationNode == id && e.sourceNode == s;
      ProducerIsEarlier(c.t, c.order, step, e);
      var i :| 0 <= i < step && c.order[..step][i] == s;
      assert c.order[i] == s;
    }
  }

  lemma NoMidiUnlessListed(c: Context, id: NodeId, s: NodeId)
    requires Planned(c)
    ensures s in MidiSourceSet(c.t, id) ==> id in c.midiInputs
  {}

  lemma StillLive(c: Context, step: nat, channels: int, signals0: map<Signal, int>, signals: map<Signal, int>)
    requires Planned(c) && step < |c.order| && c.order[step] in c.info
      && channels == c.info[c.order[step]].ChannelCount()
    requires Live(c, step, signals0)
    requires forall s :: s in signals <==>
      (s in signals0 || StillPublished(s, c.order[step], channels, c.info[c.order[step]].audioOutputCount,
        c.lastConsumer, channels))
      && !(s in c.lastConsumer && c.lastConsumer[s] == step)
    ensures Live(c, step + 1, signals)
  {
    var id := c.order[step];
    forall s ensures s in signals <==>
      s in c.lastConsumer && s.node in c.position && c.position[s.node] < step + 1 <= c.lastConsumer[s]
    {
      if s in c.lastConsumer {
        ConsumedSignal(c, s);
        if c.position[s.node] == step { assert s.node == id; }
        if s.node == id { assert c.position[s.node] == step; }
      }
    }
  }

  /** A consumed signal is a real output, and its last consumer runs after its producer. */
  lemma ConsumedSignal(c: Context, s: Signal)
    requires Planned(c) && s in c.lastConsumer
    ensures s.node in c.info && s.node in c.position && 0 <= s.channel < c.info[s.node].audioOutputCount
    ensures c.position[s.node] < c.lastConsumer[s] < |c.order|
    ensures 0 <= c.position[s.node] && c.order[c.position[s.node]] == s.node
  {
    var e :| IsLastUse(c.t.connections, c.position, c.lastConsumer, s, e);
    assert Admissible(c.t.nodes, e) && PortsKnown(e, c.info) && EdgeOf(e) in Edges(c.t);
    assert s.node in c.order && e.destinationNode in c.order;
    var i :| 0 <= i < |c.order| && c.order[i] == s.node;
    var j :| 0 <= j < |c.order| && c.order[j] == e.destinationNode;
    assert (c.order[i], c.order[j]) in Edges(c.t);
  }

  lemma MidiStillHeld(c: Context, step: nat, before: Symbolic, after: Symbolic, n: NodeId)
    requires Indexes(c.order, c.midiBufferForNode, c.t.nodes) && step < |c.order| && n in Elements(c.order[..step])
    requires MidiHeld(before, c.midiBufferForNode, n)
    requires after.midi == before.midi[c.midiBufferForNode[c.order[step]] := NodeEvents(c.order[step])]
    ensures MidiHeld(after, c.midiBufferForNode, n)
  {
    var i :| 0 <= i < step && c.order[..step][i] == n;
    assert c.order[i] == n && c.midiBufferForNode[n] == i;
  }

  lemma ProcessedOneMore(c: Context, step: nat, before: Symbolic, after: Symbolic)
    requires Planned(c) && step < |c.order| && Processed(c, step, before) && c.order[step] in c.t.nodes
    requires after.inputs == before.inputs[c.order[step] := GraphInput(c.t, c.info, c.arrival, c.order[step])]
    requires after.midi == before.midi[c.midiBufferForNode[c.order[step]] := NodeEvents(c.order[step])]
    ensures Processed(c, step + 1, after)
  {
    NextElement(c.order, step);
    OneMoreCorrect(c.t, c.info, c.arrival, before.inputs, c.order[step]);
    MidiAllHeld(c, step, before, after);
  }

  lemma MidiAllHeld(c: Context, step: nat, before: Symbolic, after: Symbolic)
    requires Indexes(c.order, c.midiBufferForNode, c.t.nodes) && step < |c.order| && Distinct(c.order)
    requires before.inputs.Keys == Elements(c.order[..step])
    requires forall n :: n in before.inputs ==> MidiHeld(before, c.midiBufferForNode, n)
    requires after.inputs.Keys == before.inputs.Keys + {c.order[step]}
    requires after.midi == before.midi[c.midiBufferForNode[c.order[step]] := NodeEvents(c.order[step])]
    ensures forall n :: n in after.inputs ==> MidiHeld(after, c.midiBufferForNode, n)
  {
    forall n | n in after.inputs ensures MidiHeld(after, c.midiBufferForNode, n) {
      if n != c.order[step] {
        MidiStillHeld(c, step, before, after, n);
      }
    }
  }

  method EmitNode(c: Context, step: nat, plan0: RenderPlan, pool: BufferPool, signals0: map<Signal, int>)
    returns (plan: RenderPlan, signals: map<Signal, int>)
    requires pool.Valid() && Emitted(c, step, plan0, signals0, pool.Taken(), pool.highWater) && step < |c.order|
    modifies pool
    ensures pool.Valid() && Emitted(c, step + 1, plan, signals, pool.Taken(), pool.highWater)
    ensures OnlyCodeAdded(plan0, plan)
  {
    var id := c.order[step];
    var midiSources := if id in c.midiInputs then c.midiInputs[id] else [];
    assert id in c.order;
    AudioFacts(c, step, signals0);
    MidiFacts(c, step, Meaning(plan0), midiSources);
    var own;
    plan, own := EmitNodeCode(c.info, c.arrival, id, c.audioInputs, c.info[id].ChannelCount(), c.midiBufferForNode,
      midiSources, plan0, pool, signals0);
    ProcessedOneMore(c, step, Meaning(plan0), Meaning(plan));
    signals := UpdateSignals(id, own, c.info[id].audioOutputCount, c.lastConsumer, step, signals0, pool);
    StillLive(c, step, |own|, signals0, signals);
    SignalsCarried(Meaning(plan), own, id, c.info[id].audioOutputCount, c.lastConsumer, signals0, signals);
  }

  lemma SignalsCarried(run: Symbolic, own: seq<int>, id: NodeId, outputs: nat, lastConsumer: map<Signal, int>,
    signals0: map<Signal, int>, signals: map<Signal, int>)
    requires Carries(run, signals0) == true
    requires forall k :: 0 <= k < |own| ==> own[k] in run.audio && run.audio[own[k]] == Output(id, k)
    requires forall s :: s in signals ==> s in signals0 || StillPublished(s, id, |own|, outputs, lastConsumer, |own|)
    requires forall s :: s in signals ==>
      if s in signals0 then signals[s] == signals0[s] else 0 <= s.channel < |own| && signals[s] == own[s.channel]
    ensures Carries(run, signals) == true
  {}

  // ----- the compiler

  /** Positions of the nodes in an order; used for the order itself and for the MIDI buffers. */
  method IndexOrder(order: seq<NodeId>, ghost nodes: set<NodeId>) returns (index: map<NodeId, int>)
    requires Distinct(order) && Elements(order) == nodes
    ensures Indexes(order, index, nodes)
    ensures forall n :: n in index ==> index[n] >= 0
  {
    index := map[];
    var k := 0;
    while k < |order|
      invariant 0 <= k <= |order|
      invariant index.Keys == Elements(order[..k])
      invariant forall i :: 0 <= i < k ==> order[i] in index && index[order[i]] == i
      invariant forall n :: n in index ==> index[n] >= 0
    {
      NextElement(order, k);
      index := index[order[k] := k];
      k := k + 1;
    }
    assert order[..k] == order;
  }

  /** When emission ends no signal is live, so every buffer of the pool is free again. */
  lemma EverythingReleased(c: Context, plan: RenderPlan, signals: map<Signal, int>, taken: set<int>, highWater: int)
    requires Emitted(c, |c.order|, plan, signals, taken, highWater)
    ensures signals == map[] && taken == {}
  {
    forall s ensures s !in signals {
      if s in c.lastConsumer { ConsumedSignal(c, s); }
    }
    assert signals.Keys == {};
  }

  lemma WholeOrder(c: Context)
    requires Planned(c) == true
    ensures Elements(c.order) == c.t.nodes && |c.order| == |c.t.nodes| && !HasCycle(c.t)
  {
    assert Elements(c.order) == c.t.nodes;
    DistinctLength(c.order);
    TopologicalOrderHasNoCycle(c.t, c.order);
  }

  lemma AllProcessed(c: Context, run: Symbolic)
    requires Planned(c) == true && Processed(c, |c.order|, run) == true
    ensures FeedsEveryNode(c.t, c.info, c.arrival, run.inputs) == true
  {
    WholeOrder(c);
    WholeSequence(c.order);
    AllInputsCorrect(c.t, c.info, c.arrival, run.inputs);
  }

  lemma WholeSequence<T>(s: seq<T>)
    ensures s[..|s|] == s
  {}

  lemma EmissionIsCorrect(c: Context, plan: RenderPlan, signals: map<Signal, int>, taken: set<int>, highWater: int)
    requires Emitted(c, |c.order|, plan, signals, taken, highWater) && highWater >= 0
    requires plan.latencyAtNode.Keys == c.t.nodes
    requires forall n :: n in c.t.nodes ==> plan.latencyAtNode[n] == c.arrival[n] + c.info[n].latencySamples
    ensures Implements(plan.(bufferCount := highWater, valid := true), c.t, c.info) == true
  {
    WholeOrder(c);
    AllProcessed(c, Meaning(plan));
    BookedImplements(c.t, c.info, c.arrival, plan, highWater);
  }

  lemma BookedImplements(t: Topology, info: NodeInfoMap, arrival: map<NodeId, int>, plan: RenderPlan, highWater: int)
    requires (WellBuilt(t) && WellFormed(t, info)) == true && !HasCycle(t) && IsArrival(t, info, arrival) == true
    requires Booked(plan, highWater) == true && highWater >= 0 && plan.midiBufferCount == |t.nodes|
    requires plan.latencyAtNode.Keys == t.nodes
    requires forall n :: n in t.nodes ==> plan.latencyAtNode[n] == arrival[n] + info[n].latencySamples
    requires FeedsEveryNode(t, info, arrival, Meaning(plan).inputs) == true
    ensures Implements(plan.(bufferCount := highWater, valid := true), t, info) == true
  {
    var done := plan.(bufferCount := highWater, valid := true);
    ArrivalRecorded(info, done, arrival);
    BookedPasses(plan, highWater);
  }

  lemma AllFree(pool: BufferPool)
    requires pool.Valid() && pool.Taken() == {}
    ensures forall b :: b in pool.free <==> 0 <= b < pool.highWater
  {
    assert pool.free == pool.free + pool.Taken();
  }

  lemma ArrivalRecorded(info: NodeInfoMap, plan: RenderPlan, arrival: map<NodeId, int>)
    requires plan.latencyAtNode.Keys == arrival.Keys
    requires forall n :: n in arrival ==> n in info && plan.latencyAtNode[n] == arrival[n] + info[n].latencySamples
    ensures ArrivalIn(plan, info) == arrival
  {}

  lemma BookedPasses(plan: RenderPlan, buffers: int)
    requires Booked(plan, buffers)
    ensures PassesOperandChecks(plan.(bufferCount := buffers, valid := true))
      && plan.maximumDelaySamples == MaximumDelay(plan.operations)
    ensures Run(plan.channelBuffers, plan.operations).ok
  {}

  lemma AllInputsCorrect(t: Topology, info: NodeInfoMap, arrival: map<NodeId, int>, inputs: map<NodeId, NodeInput>)
    requires WellBuilt(t) && WellFormed(t, info) && arrival.Keys == t.nodes
    requires InputsCorrect(t, info, arrival, inputs) == true && inputs.Keys == t.nodes
    ensures FeedsEveryNode(t, info, arrival, inputs) == true
  {}

  /** Compiles the graph, or says why it cannot. Compilation succeeds exactly on well-formed acyclic graphs, and
      then the plan implements the graph and no two nodes share a MIDI buffer. */
  method CompileRenderPlan(graph: GraphDescription, nodeInfo: NodeInfoMap) returns (plan: RenderPlan)
    requires graph.Valid()
    ensures plan.valid <==> WellFormed(graph.Value(), nodeInfo) && !HasCycle(graph.Value())
    ensures plan.valid ==>
      plan.error == NoError && Implements(plan, graph.Value(), nodeInfo) && KeepsEvents(plan, graph.nodes)
    ensures plan.valid ==> AllInStep(plan, graph.Value(), nodeInfo) == true
    ensures plan.error == GraphHasCycle <==> WellFormed(graph.Value(), nodeInfo) && HasCycle(graph.Value())
    ensures plan.error.MissingNodeInfo? ==> plan.error.node in graph.nodes && plan.error.node !in nodeInfo
    ensures plan.error.InvalidMetadata? ==>
      plan.error.node in graph.nodes && plan.error.node in nodeInfo && !GoodMetadata(nodeInfo[plan.error.node])
    ensures plan.error == PortOutsideLayout ==>
      forall n :: n in graph.nodes ==> n in nodeInfo && GoodMetadata(nodeInfo[n])
  {
    plan := EMPTY_PLAN;
    var t := graph.Value();
    var error := CheckNodes(t, nodeInfo);
    if error == NoError {
      error := CheckPorts(t, nodeInfo);
    }
    if error != NoError {
      return plan.(error := error);
    }
    var order := TopologicalOrder(t);
    if |order| != |t.nodes| {
      return plan.(error := GraphHasCycle);
    }
    plan := CompileOrdered(t, nodeInfo, order);
    PlanIsInStep(plan, t, nodeInfo);
  }

  method CompileOrdered(t: Topology, info: NodeInfoMap, order: seq<NodeId>) returns (plan: RenderPlan)
    requires WellBuilt(t) && WellFormed(t, info) && IsTopologicalOrder(t, order)
    ensures plan.valid && plan.error == NoError && Implements(plan, t, info) && KeepsEvents(plan, t.nodes)
  {
    assert Elements(order) == t.nodes;
    var position := IndexOrder(order, t.nodes);
    var audioInputs, midiInputs, lastConsumer := GatherInputs(t, position);
    audioInputs := SortAudioInputs(t, audioInputs);
    midiInputs := SortMidiInputs(t, midiInputs);
    var arrival, latency := ComputeArrivals(t, info, order);
    var midiBufferForNode := IndexOrder(order, t.nodes);
    var c := Context(t, info, order, position, audioInputs, midiInputs, lastConsumer, arrival, midiBufferForNode);
    assert Planned(c);
    plan := EMPTY_PLAN.(latencyAtNode := latency, midiBufferCount := |order|);
    plan := EmitAll(c, plan);
  }

  method EmitAll(c: Context, plan0: RenderPlan) returns (plan: RenderPlan)
    requires Planned(c)
    requires plan0 == EMPTY_PLAN.(latencyAtNode := plan0.latencyAtNode, midiBufferCount := |c.order|)
    requires plan0.latencyAtNode.Keys == c.t.nodes
    requires forall n :: n in c.t.nodes ==> plan0.latencyAtNode[n] == c.arrival[n] + c.info[n].latencySamples
    ensures plan.valid && plan.error == NoError && Implements(plan, c.t, c.info) && KeepsEvents(plan, c.t.nodes)
  {
    plan := plan0;
    var pool := new BufferPool();
    var signals: map<Signal, int> := map[];
    NothingEmitted(c, plan);
    var step := 0;
    while step < |c.order|
      invariant 0 <= step <= |c.order| && fresh(pool)
      invariant pool.Valid() && Emitted(c, step, plan, signals, pool.Taken(), pool.highWater)
      invariant OnlyCodeAdded(plan0, plan)
    {
      plan, signals := EmitNode(c, step, plan, pool, signals);
      step := step + 1;
    }
    EverythingReleased(c, plan, signals, pool.Taken(), pool.highWater);
    AllFree(pool);
    EmissionIsCorrect(c, plan, signals, pool.Taken(), pool.highWater);
    EventsAreKept(c, plan);
    plan := plan.(bufferCount := pool.highWater, valid := true);
  }

  lemma EventsAreKept(c: Context, plan: RenderPlan)
    requires Planned(c) && Processed(c, |c.order|, Meaning(plan)) == true
    ensures KeepsEvents(plan, c.t.nodes)
  {
    WholeOrder(c);
    forall n | n in c.t.nodes ensures exists b :: HoldsEvents(Meaning(plan), n, b) {
      assert MidiHeld(Meaning(plan), c.midiBufferForNode, n);
      assert HoldsEvents(Meaning(plan), n, c.midiBufferForNode[n]);
    }
  }

  lemma NothingEmitted(c: Context, plan: RenderPlan)
    requires Planned(c)
    requires plan == EMPTY_PLAN.(latencyAtNode := plan.latencyAtNode, midiBufferCount := |c.order|)
    ensures Emitted(c, 0, plan, map[], {}, 0)
  {
    forall s ensures !(s in c.lastConsumer && s.node in c.position && c.position[s.node] < 0 <= c.lastConsumer[s]) {
      if s in c.lastConsumer { ConsumedSignal(c, s); }
    }
  }
}
