/** A graph of automated processors from its description to its output, in one contract. */
module AutomatedGraphs {
  import opened Graph
  import opened RenderPlans
  import opened Streams
  import opened Execution
  import opened Soundness
  import opened Executor
  import opened Emission
  import opened Prepare
  import opened EndToEnd
  import opened Latency
  import opened Automation
  import opened ParameterEvents
  import opened ParameterRouting
  import BlockCuts

  /** What a machine starts from does not depend on its events. */
  lemma SameStart<S, St, M>(a: Machine<S, St, M>, b: Machine<S, St, M>, c: Setup, plan: RenderPlan,
    mem: Memory<S, St, M>)
    requires a.zero == b.zero && a.start == b.start && FreshFor(a, c, plan, mem)
    ensures FreshFor(b, c, plan, mem)
  {}

  lemma AllHaveRoutes(plan: RenderPlan, t: Topology, nodeInfo: NodeInfoMap)
    requires Implements(plan, t, nodeInfo) && KeepsEvents(plan, t.nodes)
    ensures HasRoutes(ProcessedNodes(plan.operations), RouteIds(plan.operations, plan.midiBufferCount)) == true
  {
    forall n | n in ProcessedNodes(plan.operations)
      ensures RouteOf(RouteIds(plan.operations, plan.midiBufferCount), n) < plan.midiBufferCount {
      NodesHaveRoutes(plan, t, nodeInfo, n);
    }
  }

  /** What a run of a compiled plan leaves is the stream of the graph. */
  lemma RanIsGraph<S, St, M>(a: Machine<S, St, M>, machine: Machine<S, St, M>, t: Topology, nodeInfo: NodeInfoMap,
    plan: RenderPlan, c: Setup, mem: Memory<S, St, M>, blocks: seq<BlockCuts.Block>, now: Memory<S, St, M>,
    output: seq<seq<S>>)
    requires Implements(plan, t, nodeInfo) && FreshFor(a, c, plan, mem) && AllExecutable(c, mem, plan.operations)
    requires a.zero == machine.zero && a.start == machine.start
    requires c.outputNode in t.nodes && c.outputCount <= nodeInfo[c.outputNode].ChannelCount() && Fit(c, Sizes(blocks))
    requires Ran(machine, c, mem, plan.operations, Sizes(blocks), now, output)
    ensures |output| == c.outputCount
    ensures RendersGraph(machine, t, nodeInfo, ArrivalIn(plan, nodeInfo), c.outputNode, output,
      BlockCuts.Frames(blocks)) == true
  {
    SameStart(a, machine, c, plan, mem);
    SizesAreFrames(blocks);
    RenderedIsGraph(machine, t, nodeInfo, plan, c, mem, Sizes(blocks), output);
  }

  /** A queue of its own for the routes of a plan. */
  method NewPath<S, St, M>(p: PreparedRenderPlan<S, St, M>, capacity: nat) returns (path: ParameterPath)
    requires capacity > 0 && |p.parameterNodeIds| == |p.parameterBuffers| && BuffersValid(p.parameterBuffers)
    requires p.delayStorage as object !in Arrays(p.parameterBuffers)
    ensures path.Valid() == true && fresh(path) && fresh(path.queue) && fresh(path.queue.storage)
      && Apart(p, path) == true
    ensures path.ids == p.parameterNodeIds && path.buffers == p.parameterBuffers
    ensures path.accepted == [] && path.nextSequence == 1 && path.counters == Counters(0, 0, 0, 0, 0, 0)
  {
    path := new ParameterPath(capacity, p.parameterNodeIds, p.parameterBuffers);
  }

  /** The first run of an executor: nothing has been counted or accepted before. */
  method FirstRun<S(!new), St(!new), M(!new)>(p: PreparedRenderPlan<S, St, M>, path: ParameterPath,
    q: Processors<S, St, M>, blocks: seq<BlockCuts.Block>, start: int)
    returns (output: seq<seq<S>>)
    requires Runnable(p) == true && path.Valid() == true && Apart(p, path) == true
      && HasRoutes(ProcessedNodes(p.operations), path.ids) == true
    requires forall k :: 0 <= k < |blocks| ==> 0 < blocks[k].frames <= p.maximumBlockSize
    requires start + BlockCuts.Frames(blocks) <= MAXIMUM_POSITION
    requires path.accepted == [] && path.nextSequence == 1 && path.counters == Counters(0, 0, 0, 0, 0, 0)
    modifies path`lastEnqueuedSample, path`nextSequence, path`counters, path`accepted, path.queue, path.queue.storage
    modifies path.buffers, Arrays(path.buffers), p, p.audioStorage, p.midiBuffers, p.outputStorage, p.delayStorage
    ensures p.Valid() == true && Fit(p.Config(), Sizes(blocks)) == true
    ensures path.counters.late == 0 && path.counters.overflow == 0 ==>
      Ran(InRun(q, path.accepted, start), p.Config(), old(p.Value()), p.operations, Sizes(blocks), p.Value(), output)
        == true
    ensures Received(Requests(blocks), path.accepted, path.counters) == true
  {
    output := RenderAutomated(p, path, q, blocks, start);
    FreshRun(path.accepted, path.nextSequence, path.counters, Requests(blocks));
  }

  /** The accepted events stem from the requests, and those that are missing have been counted. */
  ghost predicate Received(requests: seq<BlockCuts.Request>, accepted: seq<ScheduledEvent>, counters: Counters) {
    && BlockCuts.Drawn(accepted, requests) && |accepted| + BlockCuts.Refusals(counters) == |requests|
    && (counters.invalid + counters.rejected == 0 ==>
          |accepted| == |requests| && forall k :: 0 <= k < |requests| ==>
            BlockCuts.Asked(requests[k], accepted[k]) && accepted[k].sequence == k + 1)
  }

  lemma FreshRun(accepted: seq<ScheduledEvent>, next: nat, counters: Counters, requests: seq<BlockCuts.Request>)
    requires BlockCuts.Taken([], 1, 0, requests, accepted, next, counters) == true
    ensures BlockCuts.Later(accepted, 0) == accepted && Received(requests, accepted, counters) == true
  {}

  /** Renders a fresh plan with the events that arrive between the blocks. */
  method AutomateFresh<S(!new), St(!new), M(!new)>(p: PreparedRenderPlan<S, St, M>, q: Processors<S, St, M>,
    capacity: nat, blocks: seq<BlockCuts.Block>, start: int)
    returns (output: seq<seq<S>>, counters: Counters, ghost accepted: seq<ScheduledEvent>)
    requires Runnable(p) == true && capacity > 0 && |p.parameterNodeIds| == |p.parameterBuffers|
      && BuffersValid(p.parameterBuffers) == true
    requires HasRoutes(ProcessedNodes(p.operations), p.parameterNodeIds) == true
      && p.delayStorage as object !in Arrays(p.parameterBuffers)
    requires forall k :: 0 <= k < |blocks| ==> 0 < blocks[k].frames <= p.maximumBlockSize
    requires start + BlockCuts.Frames(blocks) <= MAXIMUM_POSITION
    modifies p.parameterBuffers, Arrays(p.parameterBuffers), p, p.audioStorage, p.midiBuffers, p.outputStorage,
      p.delayStorage
    ensures p.Valid() == true && Fit(p.Config(), Sizes(blocks)) == true
    ensures counters.late == 0 && counters.overflow == 0 ==>
      Ran(InRun(q, accepted, start), p.Config(), old(p.Value()), p.operations, Sizes(blocks), p.Value(), output) == true
    ensures Received(Requests(blocks), accepted, counters) == true
  {
    var path := NewPath(p, capacity);
    output := FirstRun(p, path, q, blocks, start);
    counters, accepted := path.counters, path.accepted;
  }

  /** Prepares a compiled plan and renders it with the events that arrive between the blocks. */
  method PrepareAndAutomate<S(!new), St(!new), M(!new)>(plan: RenderPlan, ghost t: Topology,
    ghost nodeInfo: NodeInfoMap, info: PrepareInfo, live: LiveFormat, q: Processors<S, St, M>, capacity: nat,
    blocks: seq<BlockCuts.Block>, start: int)
    returns (error: PrepareError, output: seq<seq<S>>, counters: Counters, ghost accepted: seq<ScheduledEvent>)
    requires plan.valid && Implements(plan, t, nodeInfo) && KeepsEvents(plan, t.nodes) && capacity > 0
    requires forall k :: 0 <= k < |blocks| ==> 0 < blocks[k].frames <= info.maximumBlockSize
    requires start + BlockCuts.Frames(blocks) <= MAXIMUM_POSITION
    ensures error == Prepared <==>
      info.maximumBlockSize > 0 && info.outputChannelCount > 0 && KeepsFormat(live, info)
      && info.outputNode in t.nodes && info.outputChannelCount <= nodeInfo[info.outputNode].ChannelCount()
    ensures error == Prepared && counters.late == 0 && counters.overflow == 0 ==>
      |output| == info.outputChannelCount
      && RendersGraph(InRun(q, accepted, start), t, nodeInfo, ArrivalIn(plan, nodeInfo), info.outputNode, output,
        BlockCuts.Frames(blocks)) == true
    ensures error == Prepared ==> Received(Requests(blocks), accepted, counters) == true
  {
    var prepared;
    var silent := InRun(q, [], start);
    error, prepared := PreparePlan(plan, info, live, silent);
    OutputNodeIsProcessed(plan, t, nodeInfo, info);
    if error != Prepared {
      return error, [], Counters(0, 0, 0, 0, 0, 0), [];
    }
    AllHaveRoutes(plan, t, nodeInfo);
    ghost var mem := prepared.Value();
    output, counters, accepted := AutomateFresh(prepared, q, capacity, blocks, start);
    if counters.late == 0 && counters.overflow == 0 {
      RanIsGraph(silent, InRun(q, accepted, start), t, nodeInfo, plan, prepared.Config(), mem, blocks, prepared.Value(),
        output);
    }
  }

  /** Compiles a graph, prepares it and renders it with the events that arrive between the blocks. If no event was late
      and none was refused by a buffer, the output is the output node's stream of the graph whose nodes find every
      accepted event at its own frame; and all requests were accepted unless some were counted as refused. */
  method CompileAndAutomate<S(!new), St(!new), M(!new)>(graph: GraphDescription, nodeInfo: NodeInfoMap,
    info: PrepareInfo, live: LiveFormat, q: Processors<S, St, M>, capacity: nat, blocks: seq<BlockCuts.Block>,
    start: int)
    returns (plan: RenderPlan, error: PrepareError, output: seq<seq<S>>, counters: Counters,
      ghost accepted: seq<ScheduledEvent>)
    requires graph.Valid() && capacity > 0
    requires forall k :: 0 <= k < |blocks| ==> 0 < blocks[k].frames <= info.maximumBlockSize
    requires start + BlockCuts.Frames(blocks) <= MAXIMUM_POSITION
    ensures plan.valid <==> WellFormed(graph.Value(), nodeInfo) && !HasCycle(graph.Value())
    ensures plan.valid ==> plan.latencyAtNode.Keys == graph.nodes
    ensures error == Prepared <==>
      plan.valid && info.maximumBlockSize > 0 && info.outputChannelCount > 0 && KeepsFormat(live, info)
      && info.outputNode in graph.nodes && info.outputChannelCount <= nodeInfo[info.outputNode].ChannelCount()
    ensures error == Prepared && counters.late == 0 && counters.overflow == 0 ==>
      |output| == info.outputChannelCount
      && RendersGraph(InRun(q, accepted, start), graph.Value(), nodeInfo, ArrivalIn(plan, nodeInfo), info.outputNode,
        output, BlockCuts.Frames(blocks)) == true
    ensures error == Prepared ==> Received(Requests(blocks), accepted, counters) == true
  {
    plan := CompileRenderPlan(graph, nodeInfo);
    if !plan.valid {
      return plan, InvalidPlan, [], Counters(0, 0, 0, 0, 0, 0), [];
    }
    error, output, counters, accepted := PrepareAndAutomate(plan, graph.Value(), nodeInfo, info, live, q, capacity,
      blocks, start);
  }

  lemma LongestIsUnique(t: Topology, nodeInfo: NodeInfoMap, a: map<NodeId, int>, b: map<NodeId, int>)
    requires a.Keys == t.nodes && b.Keys == t.nodes && AllLongest(t, nodeInfo, a) == true
      && AllLongest(t, nodeInfo, b) == true
    ensures a == b
  {
    forall n | n in t.nodes ensures a[n] == b[n] {
      assert IsLongest(t, nodeInfo, n, a[n]) && IsLongest(t, nodeInfo, n, b[n]);
    }
  }

  /** Two runs of a graph with the same events, cut into blocks in any two ways, have the same output. */
  lemma CutsOfAGraphDoNotMatter<S, St, M>(machine: Machine<S, St, M>, t: Topology, nodeInfo: NodeInfoMap,
    a: map<NodeId, int>, b: map<NodeId, int>, outputNode: NodeId, x: seq<seq<S>>, y: seq<seq<S>>, frames: nat)
    requires WellBuilt(t) && WellFormed(t, nodeInfo) && a.Keys == t.nodes && b.Keys == t.nodes && |x| == |y|
    requires RendersGraph(machine, t, nodeInfo, a, outputNode, x, frames)
      && RendersGraph(machine, t, nodeInfo, b, outputNode, y, frames)
    ensures x == y
  {
    LongestIsUnique(t, nodeInfo, a, b);
    SameStream(machine, t, nodeInfo, a, outputNode, x, y, frames);
  }

  lemma SameStream<S, St, M>(machine: Machine<S, St, M>, t: Topology, nodeInfo: NodeInfoMap, arrival: map<NodeId, int>,
    outputNode: NodeId, x: seq<seq<S>>, y: seq<seq<S>>, frames: nat)
    requires WellBuilt(t) && WellFormed(t, nodeInfo) && arrival.Keys == t.nodes && |x| == |y|
    requires RendersGraph(machine, t, nodeInfo, arrival, outputNode, x, frames)
      && RendersGraph(machine, t, nodeInfo, arrival, outputNode, y, frames)
    ensures x == y
  {
    var order :| IsTopologicalOrder(t, order);
    forall c | 0 <= c < |x| ensures x[c] == y[c] {
      assert x[c] == StreamUpTo(machine, RankedNet(t, nodeInfo, arrival, order), outputNode, c, frames);
    }
  }
}
