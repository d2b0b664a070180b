/** The whole pipeline in one contract: compile a graph, prepare the plan, render it block by block. */
module EndToEnd {
  import opened Graph
  import opened RenderPlans
  import opened Emission
  import opened Streams
  import opened Execution
  import opened Executor
  import opened Prepare
  import opened Latency
  import opened Alignment
  import opened Hearing
  import opened Soundness

  /** The frames captured in one block, channel by channel. */
  method CapturedBlock<S, St, M>(p: PreparedRenderPlan<S, St, M>, frames: nat) returns (block: seq<seq<S>>)
    requires p.Valid() && frames <= p.maximumBlockSize
    ensures |block| == p.outputCount && forall c :: 0 <= c < |block| ==> block[c] == p.Value().output[c][..frames]
  {
    block := seq(p.outputCount, c requires 0 <= c < p.outputCount && p.Valid() reads p, p.outputStorage =>
      seq(frames, f requires 0 <= f < frames && c < p.outputStorage.Length0 && f < p.outputStorage.Length1 reads p,
        p.outputStorage => p.outputStorage[c, f]));
  }

  /** Renders a prepared plan over a list of blocks. */
  method RenderBlocks<S, St, M>(p: PreparedRenderPlan<S, St, M>, machine: Machine<S, St, M>, blocks: seq<nat>)
    returns (output: seq<seq<S>>)
    requires Runnable(p) && Fit(p.Config(), blocks)
    modifies p, p.audioStorage, p.midiBuffers, p.outputStorage, p.delayStorage
    ensures Runnable(p) && p.Value() == RunAll(machine, p.Config(), old(p.Value()), p.operations, blocks)
    ensures |output| == p.outputCount
    ensures forall c :: 0 <= c < |output| ==>
      output[c] == Rendered(machine, p.Config(), old(p.Value()), p.operations, blocks, c)
  {
    ghost var start := p.Value();
    output := seq(p.outputCount, _ => []);
    var position: nat := 0;
    var k := 0;
    assert blocks[..0] == [];
    while k < |blocks|
      invariant 0 <= k <= |blocks| && Fit(p.Config(), blocks[..k])
      invariant Runnable(p) && p.Value() == RunAll(machine, p.Config(), start, p.operations, blocks[..k])
      invariant position == Total(blocks[..k])
      invariant |output| == p.outputCount
      invariant forall c :: 0 <= c < |output| ==>
        output[c] == Rendered(machine, p.Config(), start, p.operations, blocks[..k], c)
    {
      assert blocks[..k + 1][..k] == blocks[..k];
      ghost var before := p.Value();
      p.Execute(machine, position, blocks[k]);
      StillExecutable(machine, p.Config(), before, p.operations, position, blocks[k]);
      var block := CapturedBlock(p, blocks[k]);
      output := seq(p.outputCount,
        c requires 0 <= c < p.outputCount && c < |output| && c < |block| => output[c] + block[c]);
      position := position + blocks[k];
      k := k + 1;
    }
    assert blocks[..k] == blocks;
  }

  /** The output is the output node's stream, where every node hears its sources in step, behind the longest path into
      it; and the stream is the same for every topological order one may rank the nodes by, of which there is one. */
  ghost predicate RendersGraph<S, St, M>(machine: Machine<S, St, M>, t: Topology, nodeInfo: NodeInfoMap,
    arrival: map<NodeId, int>, outputNode: NodeId, output: seq<seq<S>>, frames: nat)
    requires WellBuilt(t) && WellFormed(t, nodeInfo) && arrival.Keys == t.nodes
  {
    && outputNode in t.nodes && |output| <= nodeInfo[outputNode].ChannelCount()
    && AllLongest(t, nodeInfo, arrival) && HasOrder(t)
    && HearsInEveryOrder(machine, t, nodeInfo, arrival)
    && IsStreamInEveryOrder(machine, t, nodeInfo, arrival, outputNode, output, frames)
  }

  ghost predicate IsStreamInEveryOrder<S, St, M>(machine: Machine<S, St, M>, t: Topology, nodeInfo: NodeInfoMap,
    arrival: map<NodeId, int>, outputNode: NodeId, output: seq<seq<S>>, frames: nat)
    requires WellBuilt(t) && WellFormed(t, nodeInfo) && arrival.Keys == t.nodes
    requires outputNode in t.nodes && |output| <= nodeInfo[outputNode].ChannelCount()
  {
    forall order, c :: IsTopologicalOrder(t, order) && 0 <= c < |output| ==>
      output[c] == StreamUpTo(machine, RankedNet(t, nodeInfo, arrival, order), outputNode, c, frames)
  }

  ghost predicate HearsInEveryOrder<S, St, M>(machine: Machine<S, St, M>, t: Topology, nodeInfo: NodeInfoMap,
    arrival: map<NodeId, int>)
    requires WellBuilt(t) && WellFormed(t, nodeInfo) && arrival.Keys == t.nodes
  {
    forall order :: IsTopologicalOrder(t, order) ==>
      HearsGraph(machine, RankedNet(t, nodeInfo, arrival, order), t, nodeInfo, arrival)
  }

  lemma EveryOrderIsHeard<S, St, M>(machine: Machine<S, St, M>, t: Topology, nodeInfo: NodeInfoMap,
    arrival: map<NodeId, int>)
    requires WellBuilt(t) && WellFormed(t, nodeInfo) && IsArrival(t, nodeInfo, arrival)
    ensures HearsInEveryOrder(machine, t, nodeInfo, arrival) == true
  {
    forall order | IsTopologicalOrder(t, order)
      ensures HearsGraph(machine, RankedNet(t, nodeInfo, arrival, order), t, nodeInfo, arrival)
    {
      GraphIsHeard(machine, t, nodeInfo, arrival, order);
    }
  }

  /** Prepares and renders a sound plan, from the fresh memory `mem`. */
  method RenderSound<S, St, M>(plan: RenderPlan, info: PrepareInfo, live: LiveFormat, machine: Machine<S, St, M>,
    blocks: seq<nat>)
    returns (error: PrepareError, output: seq<seq<S>>, ghost mem: Memory<S, St, M>)
    requires plan.valid && PassesOperandChecks(plan) && Run(plan.channelBuffers, plan.operations).ok
    requires plan.bufferCount >= 0 && plan.delayLineCount >= 0 && plan.midiBufferCount >= 0
    requires forall k :: 0 <= k < |blocks| ==> blocks[k] <= info.maximumBlockSize
    ensures error == Prepared <==>
      info.maximumBlockSize > 0 && info.outputChannelCount > 0 && KeepsFormat(live, info)
      && CapturesOutput(plan.operations, info)
    ensures error == Prepared ==> RenderedFrom(plan, info, machine, blocks, output, mem)
  {
    var prepared;
    error, prepared := PreparePlan(plan, info, live, machine);
    if error != Prepared {
      mem := Memory([], [], [], map[], []);
      return error, [], mem;
    }
    mem := prepared.Value();
    output := RenderBlocks(prepared, machine, blocks);
  }

  ghost function SetupOf(plan: RenderPlan, info: PrepareInfo): Setup
    requires info.maximumBlockSize > 0 && info.outputChannelCount > 0
  {
    Setup(plan.channelBuffers, info.outputNode, info.outputChannelCount, info.maximumBlockSize)
  }

  /** The output is what the plan renders from a fresh memory. */
  ghost predicate RenderedFrom<S, St, M>(plan: RenderPlan, info: PrepareInfo, machine: Machine<S, St, M>,
    blocks: seq<nat>, output: seq<seq<S>>, mem: Memory<S, St, M>)
    requires info.maximumBlockSize > 0 && info.outputChannelCount > 0
  {
    && FreshFor(machine, SetupOf(plan, info), plan, mem)
    && AllExecutable(SetupOf(plan, info), mem, plan.operations)
    && Fit(SetupOf(plan, info), blocks)
    && |output| == info.outputChannelCount
    && (forall c :: 0 <= c < |output| ==>
      output[c] == Rendered(machine, SetupOf(plan, info), mem, plan.operations, blocks, c))
  }

  lemma RenderedIsGraph<S, St, M>(machine: Machine<S, St, M>, t: Topology, nodeInfo: NodeInfoMap, plan: RenderPlan,
    c: Setup, mem: Memory<S, St, M>, blocks: seq<nat>, output: seq<seq<S>>)
    requires Implements(plan, t, nodeInfo) && FreshFor(machine, c, plan, mem) && AllExecutable(c, mem, plan.operations)
    requires c.outputNode in t.nodes && c.outputCount <= nodeInfo[c.outputNode].ChannelCount() && Fit(c, blocks)
    requires |output| == c.outputCount
    requires forall k :: 0 <= k < |output| ==> output[k] == Rendered(machine, c, mem, plan.operations, blocks, k)
    ensures RendersGraph(machine, t, nodeInfo, ArrivalIn(plan, nodeInfo), c.outputNode, output, Total(blocks)) == true
  {
    var arrival := ArrivalIn(plan, nodeInfo);
    ArrivalsAreLongest(t, nodeInfo, arrival);
    EveryOrderIsHeard(machine, t, nodeInfo, arrival);
    EveryOrderIsRendered(machine, t, nodeInfo, plan, c, mem, blocks, output, arrival);
  }

  lemma EveryOrderIsRendered<S, St, M>(machine: Machine<S, St, M>, t: Topology, nodeInfo: NodeInfoMap,
    plan: RenderPlan, c: Setup, mem: Memory<S, St, M>, blocks: seq<nat>, output: seq<seq<S>>, arrival: map<NodeId, int>)
    requires Implements(plan, t, nodeInfo) && FreshFor(machine, c, plan, mem) && AllExecutable(c, mem, plan.operations)
    requires c.outputNode in t.nodes && c.outputCount <= nodeInfo[c.outputNode].ChannelCount() && Fit(c, blocks)
    requires |output| == c.outputCount && arrival == ArrivalIn(plan, nodeInfo)
    requires forall k :: 0 <= k < |output| ==> output[k] == Rendered(machine, c, mem, plan.operations, blocks, k)
    ensures IsStreamInEveryOrder(machine, t, nodeInfo, arrival, c.outputNode, output, Total(blocks)) == true
  {
    forall order, channel | IsTopologicalOrder(t, order) && 0 <= channel < |output|
      ensures output[channel]
        == StreamUpTo(machine, RankedNet(t, nodeInfo, arrival, order), c.outputNode, channel, Total(blocks))
    {
      RenderedInOrder(machine, t, nodeInfo, plan, c, mem, blocks, arrival, order, channel);
    }
  }

  lemma RenderedInOrder<S, St, M>(machine: Machine<S, St, M>, t: Topology, nodeInfo: NodeInfoMap, plan: RenderPlan,
    c: Setup, mem: Memory<S, St, M>, blocks: seq<nat>, arrival: map<NodeId, int>, order: seq<NodeId>, channel: nat)
    requires Implements(plan, t, nodeInfo) && FreshFor(machine, c, plan, mem) && AllExecutable(c, mem, plan.operations)
      && IsTopologicalOrder(t, order)
    requires c.outputNode in t.nodes && channel < c.outputCount <= nodeInfo[c.outputNode].ChannelCount()
      && Fit(c, blocks)
    requires arrival == ArrivalIn(plan, nodeInfo)
    ensures Rendered(machine, c, mem, plan.operations, blocks, channel)
         == StreamUpTo(machine, RankedNet(t, nodeInfo, arrival, order), c.outputNode, channel, Total(blocks))
  {
    CompiledPlanRendersGraph(machine, t, nodeInfo, plan, order, c, mem, blocks, channel);
  }

  /** Compiles, prepares and renders: the result is the output node's stream of the graph. */
  method CompileAndRender<S, St, M>(graph: GraphDescription, nodeInfo: NodeInfoMap, info: PrepareInfo, live: LiveFormat,
    machine: Machine<S, St, M>, blocks: seq<nat>)
    returns (plan: RenderPlan, error: PrepareError, output: seq<seq<S>>)
    requires graph.Valid() && forall k :: 0 <= k < |blocks| ==> blocks[k] <= info.maximumBlockSize
    ensures plan.valid <==> WellFormed(graph.Value(), nodeInfo) && !HasCycle(graph.Value())
    ensures plan.valid ==> plan.latencyAtNode.Keys == graph.nodes && AllInStep(plan, graph.Value(), nodeInfo) == true
    ensures error == Prepared <==>
      plan.valid && info.maximumBlockSize > 0 && info.outputChannelCount > 0 && KeepsFormat(live, info)
      && info.outputNode in graph.nodes && info.outputChannelCount <= nodeInfo[info.outputNode].ChannelCount()
    ensures error == Prepared ==>
      |output| == info.outputChannelCount
        && RendersGraph(machine, graph.Value(), nodeInfo, ArrivalIn(plan, nodeInfo), info.outputNode, output,
          Total(blocks))
  {
    plan := CompileRenderPlan(graph, nodeInfo);
    if !plan.valid {
      return plan, InvalidPlan, [];
    }
    ghost var mem;
    error, output, mem := RenderSound(plan, info, live, machine, blocks);
    OutputNodeIsProcessed(plan, graph.Value(), nodeInfo, info);
    if error == Prepared {
      RenderedIsGraph(machine, graph.Value(), nodeInfo, plan, SetupOf(plan, info), mem, blocks, output);
    }
  }

  ghost function RankedNet(t: Topology, info: NodeInfoMap, arrival: map<NodeId, int>, order: seq<NodeId>): (net: Net)
    requires WellBuilt(t) && WellFormed(t, info) && arrival.Keys == t.nodes && IsTopologicalOrder(t, order)
    ensures WellRanked(net) && net.inputs.Keys == t.nodes && net == GraphNet(t, info, arrival, order)
    ensures forall n :: n in t.nodes ==> |net.inputs[n].audio| == info[n].ChannelCount()
  {
    GraphNetIsRanked(t, info, arrival, order);
    GraphNet(t, info, arrival, order)
  }

  /** Whether the plan captures the output can be said of the graph. */
  lemma OutputNodeIsProcessed(plan: RenderPlan, t: Topology, nodeInfo: NodeInfoMap, info: PrepareInfo)
    requires Implements(plan, t, nodeInfo)
    ensures CapturesOutput(plan.operations, info) <==>
      info.outputNode in t.nodes && info.outputChannelCount <= nodeInfo[info.outputNode].ChannelCount()
  {
    var ops := plan.operations;
    forall k | 0 <= k < |ops| && ops[k].Process?
      ensures ops[k].node in t.nodes && ops[k].channelCount == nodeInfo[ops[k].node].ChannelCount()
    {
      ProcessedChannels(plan, t, nodeInfo, k);
    }
    if info.outputNode in t.nodes {
      var k := ProcessedSomewhere(plan.channelBuffers, ops, info.outputNode);
    }
  }

  lemma ProcessedChannels(plan: RenderPlan, t: Topology, nodeInfo: NodeInfoMap, k: nat)
    requires Implements(plan, t, nodeInfo) && k < |plan.operations| && plan.operations[k].Process?
    ensures plan.operations[k].node in t.nodes
      && plan.operations[k].channelCount == nodeInfo[plan.operations[k].node].ChannelCount()
  {
    var ops := plan.operations;
    ProcessAt(plan.channelBuffers, ops, k);
    ProcessRecords(plan.channelBuffers, Run(plan.channelBuffers, ops[..k]), ops[k]);
    var input := Run(plan.channelBuffers, ops).inputs[ops[k].node];
    assert input == GraphInput(t, nodeInfo, ArrivalIn(plan, nodeInfo), ops[k].node);
  }

  /** Only processing a node records its input. */
  lemma {:induction false} ProcessedSomewhere(table: seq<int>, ops: seq<RenderOp>, n: NodeId) returns (k: nat)
    requires n in Run(table, ops).inputs
    ensures k < |ops| && ops[k].Process? && ops[k].node == n
  {
    var last := |ops| - 1;
    if n in Run(table, ops[..last]).inputs {
      k := ProcessedSomewhere(table, ops[..last], n);
    } else {
      k := last;
    }
  }
}
