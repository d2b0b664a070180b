/** `prepareAndPublish` and `renderTo`: a compiled plan becomes runtime storage, is run block by block and
    copied to the device; end to end this renders the graph. */
module Prepare {
  import opened Ordered
  import opened Graph
  import opened RenderPlans
  import opened Streams
  import opened Execution
  import opened Rows
  import opened Executor
  import opened Soundness
  import opened ParameterEvents
  import opened ParameterRouting

  /** Delay-line lengths are the longest delay any operation asks of the line. */
  ghost predicate LengthsOf(ops: seq<RenderOp>, lengths: seq<nat>) {
    && (forall k :: 0 <= k < |ops| && ops[k].Delay? && 0 <= ops[k].line < |lengths| ==>
      ops[k].samples <= lengths[ops[k].line])
    && (forall l :: 0 <= l < |lengths| ==>
      lengths[l] == 0 || exists k :: 0 <= k < |ops| && IsDelay(ops[k], l, lengths[l]))
  }

  ghost predicate IsDelay(op: RenderOp, l: int, samples: int) {
    op.Delay? && op.line == l && op.samples == samples
  }

  method DelayLengths(ops: seq<RenderOp>, lineCount: nat) returns (lengths: seq<nat>)
    ensures |lengths| == lineCount && LengthsOf(ops, lengths)
  {
    lengths := seq(lineCount, _ => 0);
    var k := 0;
    while k < |ops|
      invariant 0 <= k <= |ops| && |lengths| == lineCount
      invariant LengthsOf(ops[..k], lengths)
    {
      var before := lengths;
      if ops[k].Delay? && 0 <= ops[k].line < lineCount && ops[k].samples > lengths[ops[k].line] {
        lengths := lengths[ops[k].line := ops[k].samples];
      }
      LengthsGrow(ops, k, before, lengths);
      k := k + 1;
    }
    assert ops[..k] == ops;
  }

  lemma LengthsGrow(ops: seq<RenderOp>, k: nat, before: seq<nat>, after: seq<nat>)
    requires k < |ops| && LengthsOf(ops[..k], before)
    requires after == if ops[k].Delay? && 0 <= ops[k].line < |before| && ops[k].samples > before[ops[k].line]
                      then before[ops[k].line := ops[k].samples] else before
    ensures LengthsOf(ops[..k + 1], after)
  {
    var ops1 := ops[..k + 1];
    assert forall i :: 0 <= i < k ==> ops1[i] == ops[..k][i];
    forall l | 0 <= l < |after| && after[l] != 0 ensures exists i :: 0 <= i < |ops1| && IsDelay(ops1[i], l, after[l]) {
      if after[l] == before[l] {
        var i :| 0 <= i < k && IsDelay(ops[..k][i], l, before[l]);
        assert IsDelay(ops1[i], l, after[l]);
      } else {
        assert IsDelay(ops1[k], l, after[l]);
      }
    }
  }

  /** Lines are laid out one after the other. */
  method PlaceLines(lengths: seq<nat>) returns (layout: Layout)
    ensures LaidOut(layout) && layout.lengths == lengths
  {
    var offsets: seq<nat> := [];
    var total: nat := 0;
    var k := 0;
    while k < |lengths|
      invariant 0 <= k <= |lengths| && |offsets| == k
      invariant forall i :: 0 <= i < k ==> offsets[i] + lengths[i] <= total
      invariant forall i, j :: 0 <= i < j < k ==> offsets[i] + lengths[i] <= offsets[j]
    {
      offsets := offsets + [total];
      total := total + lengths[k];
      k := k + 1;
    }
    layout := Layout(offsets, lengths, total);
  }

  /** In a sound plan no two operations share a delay line, so every line has its operation's length. */
  lemma SoundLinesAreUnique(table: seq<int>, ops: seq<RenderOp>, i: nat, j: nat)
    requires Run(table, ops).ok && i < |ops| && j < |ops|
    requires ops[i].Delay? && ops[j].Delay? && ops[i].line == ops[j].line
    ensures i == j
  {
    if i < j {
      LineTakenOnce(table, ops, i, j);
    } else if j < i {
      LineTakenOnce(table, ops, j, i);
    }
  }

  lemma LineTakenOnce(table: seq<int>, ops: seq<RenderOp>, i: nat, j: nat)
    requires Run(table, ops).ok && i < j < |ops| && ops[i].Delay? && ops[j].Delay?
    ensures ops[i].line != ops[j].line
  {
    PrefixOfRun(table, ops, j);
    DelayTakesLine(table, ops, j);
    assert ops[..j][i] == ops[i];
    DelayTakesLine(table, ops[..j], i);
  }

  /** A delay takes a line that was not in use, for good. */
  lemma DelayTakesLine(table: seq<int>, ops: seq<RenderOp>, i: nat)
    requires Run(table, ops).ok && i < |ops| && ops[i].Delay?
    ensures ops[i].line !in Run(table, ops[..i]).lines && ops[i].line in Run(table, ops).lines
  {
    PrefixOfRun(table, ops, i + 1);
    assert ops[..i + 1][..i] == ops[..i];
  }

  /** In a sound plan every node is processed on distinct channels. */
  lemma SoundChannelsAreDistinct(table: seq<int>, ops: seq<RenderOp>, k: nat)
    requires Run(table, ops).ok && k < |ops| && ops[k].Process?
    ensures 0 <= ops[k].firstChannel && 0 <= ops[k].channelCount && ops[k].firstChannel + ops[k].channelCount <= |table|
    ensures Distinct(table[ops[k].firstChannel..ops[k].firstChannel + ops[k].channelCount])
  {
    StepOfRun(table, ops, k);
    ProcessIsPossible(table, Run(table, ops[..k]), ops[k]);
  }

  /** In a sound plan every step is possible. */
  lemma StepOfRun(table: seq<int>, ops: seq<RenderOp>, k: nat)
    requires Run(table, ops).ok && k < |ops|
    ensures Run(table, ops[..k]).ok && Step(table, Run(table, ops[..k]), ops[k]).ok
  {
    PrefixOfRun(table, ops, k);
    PrefixOfRun(table, ops, k + 1);
    assert ops[..k + 1][..k] == ops[..k];
  }

  /** The output node is processed, always on enough channels. */
  ghost predicate CapturesOutput(ops: seq<RenderOp>, info: PrepareInfo) {
    && (exists k :: 0 <= k < |ops| && ops[k].Process? && ops[k].node == info.outputNode)
    && (forall k :: 0 <= k < |ops| && ops[k].Process? && ops[k].node == info.outputNode ==>
      info.outputChannelCount <= ops[k].channelCount)
  }

  method CheckOperations(plan: RenderPlan, info: PrepareInfo) returns (error: PrepareError)
    ensures error == Prepared <==>
      (forall k :: 0 <= k < |plan.operations| ==>
        OperandsInRange(plan.operations[k], plan.bufferCount, plan.delayLineCount, plan.midiBufferCount,
          |plan.channelBuffers|))
      && CapturesOutput(plan.operations, info)
  {
    var foundOutputNode := false;
    ghost var found := 0;
    var k := 0;
    while k < |plan.operations|
      invariant 0 <= k <= |plan.operations|
      invariant forall i :: 0 <= i < k ==>
        OperandsInRange(plan.operations[i], plan.bufferCount, plan.delayLineCount, plan.midiBufferCount,
          |plan.channelBuffers|)
      invariant foundOutputNode ==>
        0 <= found < k && plan.operations[found].Process? && plan.operations[found].node == info.outputNode
      invariant forall i :: 0 <= i < k && plan.operations[i].Process? && plan.operations[i].node == info.outputNode ==>
        foundOutputNode && info.outputChannelCount <= plan.operations[i].channelCount
    {
      var operation := plan.operations[k];
      if !OperandsInRange(operation, plan.bufferCount, plan.delayLineCount, plan.midiBufferCount, |plan.channelBuffers|) {
        return BadOperand(k);
      }
      if operation.Process? && operation.node == info.outputNode {
        foundOutputNode, found := true, k;
        if operation.channelCount < info.outputChannelCount {
          return TooFewOutputChannels(k);
        }
      }
      k := k + 1;
    }
    return if foundOutputNode then Prepared else OutputNodeAbsent;
  }

  // ----- parameter routes

  /** The node whose events the parameter buffer beside each MIDI buffer takes: the one processed with it last. */
  function RouteIds(ops: seq<RenderOp>, count: nat): (ids: seq<NodeId>)
    ensures |ids| == count
  {
    if ops == [] then seq(count, _ => 0)
    else
      var ids, op := RouteIds(ops[..|ops| - 1], count), ops[|ops| - 1];
      if op.Process? && 0 <= op.midi < count then ids[op.midi := op.node] else ids
  }

  method AssignRoutes(ops: seq<RenderOp>, count: nat) returns (ids: seq<NodeId>)
    ensures ids == RouteIds(ops, count)
  {
    ids := seq(count, _ => 0);
    var k := 0;
    while k < |ops|
      invariant 0 <= k <= |ops| && ids == RouteIds(ops[..k], count)
    {
      assert ops[..k + 1][..k] == ops[..k];
      if ops[k].Process? && 0 <= ops[k].midi < count {
        ids := ids[ops[k].midi := ops[k].node];
      }
      k := k + 1;
    }
    assert ops[..k] == ops;
  }

  ghost predicate Reserved(buffers: seq<ParameterEventBuffer>, count: nat, maximumEvents: int)
    reads buffers
  {
    && |buffers| == count && BuffersValid(buffers)
    && (forall k :: 0 <= k < |buffers| ==>
          buffers[k].eventCount == 0 && buffers[k].events.Length == if maximumEvents < 0 then 0 else maximumEvents)
  }

  method ReserveBuffers(count: nat, maximumEvents: int) returns (buffers: seq<ParameterEventBuffer>)
    ensures Reserved(buffers, count, maximumEvents) && fresh(buffers) && fresh(Arrays(buffers))
  {
    buffers := [];
    while |buffers| < count
      invariant |buffers| <= count && Reserved(buffers, |buffers|, maximumEvents)
      invariant forall b :: b in buffers ==> fresh(b) && fresh(b.events)
    {
      var buffer := new ParameterEventBuffer.Reserve(maximumEvents);
      buffers := buffers + [buffer];
    }
  }

  /** A node that has a route has been processed. */
  lemma {:induction false} RoutedIsProcessed(table: seq<int>, ops: seq<RenderOp>, count: nat, b: nat)
    requires Run(table, ops).ok && b < count && RouteIds(ops, count)[b] != 0
    ensures RouteIds(ops, count)[b] in Run(table, ops).inputs
  {
    var last := |ops| - 1;
    PrefixOfRun(table, ops, last);
    if !(ops[last].Process? && ops[last].midi == b) {
      RoutedIsProcessed(table, ops[..last], count, b);
    }
  }

  /** A node is processed once, so its route is the one of the operation that processes it. */
  lemma {:induction false} RouteIsOwn(table: seq<int>, ops: seq<RenderOp>, count: nat, k: nat, b: nat)
    requires Run(table, ops).ok && k < |ops| && ops[k].Process? && ops[k].node != 0
    requires b < count && RouteIds(ops, count)[b] == ops[k].node
    ensures ops[k].midi == b
  {
    var last := |ops| - 1;
    PrefixOfRun(table, ops, last);
    if k == last {
      if ops[k].midi != b {
        RoutedIsProcessed(table, ops[..last], count, b);
        assert false;
      }
    } else {
      ProcessedStays(table, ops[..last], k);
      assert ops[..last][k] == ops[k];
      RouteIsOwn(table, ops[..last], count, k, b);
    }
  }

  lemma ProcessedStays(table: seq<int>, ops: seq<RenderOp>, k: nat)
    requires Run(table, ops).ok && k < |ops| && ops[k].Process?
    ensures ops[k].node in Run(table, ops).inputs
  {
    PrefixOfRun(table, ops, k + 1);
    assert ops[..k + 1][..k] == ops[..k];
  }

  /** Only processing a node puts its events into a MIDI buffer. */
  lemma HeldBefore(table: seq<int>, s: Symbolic, op: RenderOp, n: NodeId, b: int)
    requires HoldsEvents(Step(table, s, op), n, b) && Step(table, s, op).ok
    ensures if op.Process? && op.midi == b then op.node == n else HoldsEvents(s, n, b)
  {}

  /** A MIDI buffer that holds a node's events has that node as its route. */
  lemma {:induction false} HeldIsRouted(table: seq<int>, ops: seq<RenderOp>, count: nat, n: NodeId, b: int)
    requires Run(table, ops).ok && HoldsEvents(Run(table, ops), n, b)
    requires forall k :: 0 <= k < |ops| && ops[k].Process? ==> 0 <= ops[k].midi < count
    ensures 0 <= b < count && RouteIds(ops, count)[b] == n
  {
    var last := |ops| - 1;
    PrefixOfRun(table, ops, last);
    HeldBefore(table, Run(table, ops[..last]), ops[last], n, b);
    if !(ops[last].Process? && ops[last].midi == b) {
      assert forall k :: 0 <= k < last ==> ops[..last][k] == ops[k];
      HeldIsRouted(table, ops[..last], count, n, b);
    }
  }

  /** In a compiled plan every processed node has a route. */
  lemma NodesHaveRoutes(plan: RenderPlan, t: Topology, nodeInfo: NodeInfoMap, n: NodeId)
    requires Implements(plan, t, nodeInfo) && KeepsEvents(plan, t.nodes) && n in ProcessedNodes(plan.operations)
    ensures RouteOf(RouteIds(plan.operations, plan.midiBufferCount), n) < plan.midiBufferCount
  {
    var k :| 0 <= k < |plan.operations| && plan.operations[k].Process? && plan.operations[k].node == n;
    ProcessedStays(plan.channelBuffers, plan.operations, k);
    var b :| HoldsEvents(Run(plan.channelBuffers, plan.operations), n, b);
    MidiInRange(plan);
    HeldIsRouted(plan.channelBuffers, plan.operations, plan.midiBufferCount, n, b);
  }

  lemma MidiInRange(plan: RenderPlan)
    requires PassesOperandChecks(plan)
    ensures forall k :: 0 <= k < |plan.operations| && plan.operations[k].Process? ==>
      0 <= plan.operations[k].midi < plan.midiBufferCount
  {
    forall k | 0 <= k < |plan.operations| && plan.operations[k].Process?
      ensures 0 <= plan.operations[k].midi < plan.midiBufferCount {
      assert OperandsInRange(plan.operations[k], plan.bufferCount, plan.delayLineCount, plan.midiBufferCount,
        |plan.channelBuffers|);
    }
  }

  /** In a compiled plan the events of a node go to the buffer its own operation is given. */
  lemma OwnRoute(plan: RenderPlan, t: Topology, nodeInfo: NodeInfoMap, k: nat)
    requires Implements(plan, t, nodeInfo) && KeepsEvents(plan, t.nodes)
    requires k < |plan.operations| && plan.operations[k].Process? && plan.operations[k].node != 0
    ensures RouteOf(RouteIds(plan.operations, plan.midiBufferCount), plan.operations[k].node) == plan.operations[k].midi
  {
    var ops, n := plan.operations, plan.operations[k].node;
    ProcessedStays(plan.channelBuffers, ops, k);
    var b :| HoldsEvents(Run(plan.channelBuffers, ops), n, b);
    MidiInRange(plan);
    HeldIsRouted(plan.channelBuffers, ops, plan.midiBufferCount, n, b);
    RouteIsOwn(plan.channelBuffers, ops, plan.midiBufferCount, k, b);
    var i := RouteOf(RouteIds(ops, plan.midiBufferCount), n);
    RouteIsOwn(plan.channelBuffers, ops, plan.midiBufferCount, k, i);
  }

  method CheckChannels(plan: RenderPlan) returns (inPool: bool)
    ensures inPool <==> forall k :: 0 <= k < |plan.channelBuffers| ==> 0 <= plan.channelBuffers[k] < plan.bufferCount
  {
    var k := 0;
    while k < |plan.channelBuffers|
      invariant 0 <= k <= |plan.channelBuffers|
      invariant forall i :: 0 <= i < k ==> 0 <= plan.channelBuffers[i] < plan.bufferCount
    {
      if plan.channelBuffers[k] < 0 || plan.channelBuffers[k] >= plan.bufferCount {
        return false;
      }
      k := k + 1;
    }
    return true;
  }

  function ProcessedNodes(ops: seq<RenderOp>): set<NodeId> {
    set k | 0 <= k < |ops| && ops[k].Process? :: ops[k].node
  }

  /** The operations of a prepared plan may be executed as they stand. */
  ghost predicate Runnable<S, St, M>(p: PreparedRenderPlan<S, St, M>)
    reads p, p.audioStorage, p.midiBuffers, p.outputStorage, p.delayStorage
  {
    && p.Valid() && AllExecutable(p.Config(), p.Value(), p.operations)
    && (forall k :: 0 <= k < |p.operations| ==> p.Fits(p.operations[k]))
  }

  /** Prepares a plan for execution, or says what is wrong with it. */
  method PreparePlan<S, St, M>(plan: RenderPlan, info: PrepareInfo, live: LiveFormat, machine: Machine<S, St, M>)
    returns (error: PrepareError, prepared: PreparedRenderPlan?<S, St, M>)
    requires plan.bufferCount >= 0 && plan.delayLineCount >= 0 && plan.midiBufferCount >= 0
    ensures error == Prepared <==>
      plan.valid && info.maximumBlockSize > 0 && info.outputChannelCount > 0
      && (live == NothingLive || live == Format(info.outputChannelCount, info.maximumBlockSize))
      && PassesOperandChecks(plan) && CapturesOutput(plan.operations, info)
    ensures error == Prepared <==> prepared != null
    ensures error == Prepared ==>
      fresh(prepared.audioStorage) && fresh(prepared.midiBuffers) && fresh(prepared.outputStorage)
        && fresh(prepared.delayStorage)
    ensures error == Prepared ==> fresh(prepared) && prepared.Valid() && prepared.operations == plan.operations
    ensures error == Prepared ==> prepared.parameterNodeIds == RouteIds(plan.operations, plan.midiBufferCount)
    ensures error == Prepared ==>
      Reserved(prepared.parameterBuffers, plan.midiBufferCount, info.maximumParameterEventsPerNode)
    ensures error == Prepared ==> fresh(prepared.parameterBuffers) && fresh(Arrays(prepared.parameterBuffers))
    ensures error == Prepared ==> prepared.delayStorage as object !in Arrays(prepared.parameterBuffers)
    ensures error == Prepared ==>
      prepared.Config() == Setup(plan.channelBuffers, info.outputNode, info.outputChannelCount, info.maximumBlockSize)
    ensures error == Prepared && Run(plan.channelBuffers, plan.operations).ok ==>
      Runnable(prepared) && FreshFor(machine, prepared.Config(), plan, prepared.Value())
  {
    prepared := null;
    if !plan.valid { return InvalidPlan, null; }
    if info.maximumBlockSize <= 0 { return BadBlockSize, null; }
    if info.outputChannelCount <= 0 { return BadOutputChannelCount, null; }
    if !KeepsFormat(live, info) { return DeviceFormatChanged, null; }
    var inPool := CheckChannels(plan);
    if !inPool { return BufferOutsidePool, null; }
    var lengths := DelayLengths(plan.operations, plan.delayLineCount);
    var layout := PlaceLines(lengths);
    error := CheckOperations(plan, info);
    if error != Prepared { return error, null; }
    prepared := BuildPlan(plan, info, machine, layout);
    if Run(plan.channelBuffers, plan.operations).ok {
      SoundPlanIsRunnable(plan, info, machine, prepared, lengths);
    }
  }

  /** The storage of a plan that has passed the checks. */
  method BuildPlan<S, St, M>(plan: RenderPlan, info: PrepareInfo, machine: Machine<S, St, M>, layout: Layout)
    returns (prepared: PreparedRenderPlan<S, St, M>)
    requires plan.bufferCount >= 0 && plan.midiBufferCount >= 0 && LaidOut(layout) && info.maximumBlockSize > 0
      && info.outputChannelCount > 0
    ensures fresh(prepared) && prepared.Valid() && prepared.operations == plan.operations && prepared.layout == layout
    ensures fresh(prepared.audioStorage) && fresh(prepared.midiBuffers) && fresh(prepared.outputStorage)
      && fresh(prepared.delayStorage)
    ensures prepared.parameterNodeIds == RouteIds(plan.operations, plan.midiBufferCount)
    ensures Reserved(prepared.parameterBuffers, plan.midiBufferCount, info.maximumParameterEventsPerNode)
    ensures fresh(prepared.parameterBuffers) && fresh(Arrays(prepared.parameterBuffers))
    ensures prepared.delayStorage as object !in Arrays(prepared.parameterBuffers)
    ensures prepared.Config()
      == Setup(plan.channelBuffers, info.outputNode, info.outputChannelCount, info.maximumBlockSize)
    ensures |prepared.Value().audio| == plan.bufferCount && |prepared.Value().midi| == plan.midiBufferCount
    ensures |prepared.Value().lines| == |layout.lengths|
    ensures forall l :: 0 <= l < |layout.lengths| ==>
      prepared.Value().lines[l] == Repeat(machine.zero, layout.lengths[l])
    ensures prepared.Value().states == map n | n in ProcessedNodes(plan.operations) :: machine.start(n)
  {
    var states := map n | n in ProcessedNodes(plan.operations) :: machine.start(n);
    var ids := AssignRoutes(plan.operations, plan.midiBufferCount);
    var buffers := ReserveBuffers(plan.midiBufferCount, info.maximumParameterEventsPerNode);
    prepared := new PreparedRenderPlan(machine, plan.operations, plan.channelBuffers, plan.bufferCount,
      plan.midiBufferCount,
                                       layout, ids, buffers, info, states);
  }

  lemma SoundLengths(plan: RenderPlan, lengths: seq<nat>, k: nat)
    requires PassesOperandChecks(plan) && Run(plan.channelBuffers, plan.operations).ok && k < |plan.operations|
      && plan.operations[k].Delay?
    requires |lengths| == plan.delayLineCount && LengthsOf(plan.operations, lengths)
    ensures 0 <= plan.operations[k].line < |lengths|
      && lengths[plan.operations[k].line] == plan.operations[k].samples > 0
  {
    var l := plan.operations[k].line;
    assert OperandsInRange(plan.operations[k], plan.bufferCount, plan.delayLineCount, plan.midiBufferCount,
      |plan.channelBuffers|);
    var j :| 0 <= j < |plan.operations| && IsDelay(plan.operations[j], l, lengths[l]);
    SoundLinesAreUnique(plan.channelBuffers, plan.operations, j, k);
  }

  lemma SoundPlanIsRunnable<S, St, M>(plan: RenderPlan, info: PrepareInfo, machine: Machine<S, St, M>,
    p: PreparedRenderPlan<S, St, M>, lengths: seq<nat>)
    requires PassesOperandChecks(plan) && CapturesOutput(plan.operations, info) == true
    requires Run(plan.channelBuffers, plan.operations).ok
    requires info.maximumBlockSize > 0 && info.outputChannelCount > 0
    requires |lengths| == plan.delayLineCount && LengthsOf(plan.operations, lengths) == true
    requires p.Valid() && p.operations == plan.operations && p.layout.lengths == lengths
    requires p.Config() == Setup(plan.channelBuffers, info.outputNode, info.outputChannelCount, info.maximumBlockSize)
    requires |p.Value().audio| == plan.bufferCount && |p.Value().midi| == plan.midiBufferCount
    requires |p.Value().lines| == |lengths|
    requires forall l :: 0 <= l < |p.Value().lines| ==> p.Value().lines[l] == Repeat(machine.zero, lengths[l])
    requires p.Value().states == map n | n in ProcessedNodes(plan.operations) :: machine.start(n)
    ensures Runnable(p) && FreshFor(machine, p.Config(), plan, p.Value()) == true
  {
    PreparedIsExecutable(plan, info, machine, p.Config(), p.Value());
    PreparedIsFresh(plan, info, machine, p.Config(), p.Value(), lengths);
    DelaysFit(plan, lengths);
    ProcessesFit(plan);
  }

  lemma PreparedIsExecutable<S, St, M>(plan: RenderPlan, info: PrepareInfo, machine: Machine<S, St, M>, c: Setup,
    mem: Memory<S, St, M>)
    requires PassesOperandChecks(plan) && CapturesOutput(plan.operations, info)
    requires info.maximumBlockSize > 0 && info.outputChannelCount > 0
    requires c == Setup(plan.channelBuffers, info.outputNode, info.outputChannelCount, info.maximumBlockSize)
    requires |mem.audio| == plan.bufferCount && |mem.midi| == plan.midiBufferCount
    requires |mem.lines| == plan.delayLineCount
    requires mem.states == map n | n in ProcessedNodes(plan.operations) :: machine.start(n)
    ensures AllExecutable(c, mem, plan.operations) == true
  {
    forall k | 0 <= k < |plan.operations| ensures Executable(c, mem, plan.operations[k]) {
      assert OperandsInRange(plan.operations[k], plan.bufferCount, plan.delayLineCount, plan.midiBufferCount,
        |plan.channelBuffers|);
      assert plan.operations[k].Process? ==> plan.operations[k].node in ProcessedNodes(plan.operations);
    }
  }

  lemma PreparedIsFresh<S, St, M>(plan: RenderPlan, info: PrepareInfo, machine: Machine<S, St, M>, c: Setup,
    mem: Memory<S, St, M>, lengths: seq<nat>)
    requires PassesOperandChecks(plan) == true && CapturesOutput(plan.operations, info)
    requires Run(plan.channelBuffers, plan.operations).ok
    requires info.maximumBlockSize > 0 && info.outputChannelCount > 0 && Shaped(c, mem) == true
    requires |lengths| == plan.delayLineCount && LengthsOf(plan.operations, lengths) == true
    requires c == Setup(plan.channelBuffers, info.outputNode, info.outputChannelCount, info.maximumBlockSize)
    requires |mem.audio| == plan.bufferCount && |mem.midi| == plan.midiBufferCount && |mem.lines| == |lengths|
    requires forall l :: 0 <= l < |mem.lines| ==> mem.lines[l] == Repeat(machine.zero, lengths[l])
    requires mem.states == map n | n in ProcessedNodes(plan.operations) :: machine.start(n)
    ensures FreshFor(machine, c, plan, mem) == true
  {
    DelaysFit(plan, lengths);
    ProcessesFit(plan);
  }

  lemma DelaysFit(plan: RenderPlan, lengths: seq<nat>)
    requires PassesOperandChecks(plan) && Run(plan.channelBuffers, plan.operations).ok
    requires |lengths| == plan.delayLineCount && LengthsOf(plan.operations, lengths)
    ensures forall k :: 0 <= k < |plan.operations| && plan.operations[k].Delay? ==>
      0 <= plan.operations[k].line < |lengths| && lengths[plan.operations[k].line] == plan.operations[k].samples > 0
  {
    forall k | 0 <= k < |plan.operations| && plan.operations[k].Delay?
      ensures 0 <= plan.operations[k].line < |lengths|
        && lengths[plan.operations[k].line] == plan.operations[k].samples > 0
    {
      SoundLengths(plan, lengths, k);
    }
  }

  lemma ProcessesFit(plan: RenderPlan)
    requires Run(plan.channelBuffers, plan.operations).ok
    ensures forall k :: 0 <= k < |plan.operations| && plan.operations[k].Process? ==>
      var op := plan.operations[k];
      && 0 <= op.firstChannel && 0 <= op.channelCount && op.firstChannel + op.channelCount <= |plan.channelBuffers|
      && Distinct(plan.channelBuffers[op.firstChannel..op.firstChannel + op.channelCount])
      && op.node in ProcessedNodes(plan.operations)
  {
    forall k | 0 <= k < |plan.operations| && plan.operations[k].Process?
      ensures var op := plan.operations[k];
        && 0 <= op.firstChannel && 0 <= op.channelCount && op.firstChannel + op.channelCount <= |plan.channelBuffers|
        && Distinct(plan.channelBuffers[op.firstChannel..op.firstChannel + op.channelCount])
    {
      SoundChannelsAreDistinct(plan.channelBuffers, plan.operations, k);
    }
  }

  // ----- rendering blocks

  /** `process`: runs one block, shortened to the prepared maximum; nothing for an empty block. */
  method ProcessBlock<S, St, M>(p: PreparedRenderPlan<S, St, M>, machine: Machine<S, St, M>, frameCount: int, t: nat)
    requires Runnable(p)
    modifies p, p.audioStorage, p.midiBuffers, p.outputStorage, p.delayStorage
    ensures Runnable(p)
    ensures frameCount <= 0 ==> p.Value() == old(p.Value())
    ensures frameCount > 0 ==>
      p.Value() == RunBlock(machine, p.Config(), old(p.Value()), p.operations, t,
        if frameCount < p.maximumBlockSize then frameCount else p.maximumBlockSize)
  {
    if frameCount <= 0 {
      return;
    }
    var frames := frameCount;
    if frames > p.maximumBlockSize {
      frames := p.maximumBlockSize;
    }
    ghost var before := p.Value();
    p.Execute(machine, t, frames);
    StillExecutable(machine, p.Config(), before, p.operations, t, frames);
  }

  lemma StillExecutable<S, St, M>(m: Machine<S, St, M>, c: Setup, mem: Memory<S, St, M>, ops: seq<RenderOp>, t: nat,
    frames: nat)
    requires Shaped(c, mem) && AllExecutable(c, mem, ops) && frames <= c.block
    ensures AllExecutable(c, RunBlock(m, c, mem, ops, t, frames), ops)
  {
    forall k | 0 <= k < |ops| ensures Executable(c, RunBlock(m, c, mem, ops, t, frames), ops[k]) {
      assert Executable(c, mem, ops[k]);
    }
  }

  /** What one channel of the device buffer receives: the rendered frames, then silence. */
  ghost function DeviceRow<S>(zero: S, output: seq<seq<S>>, channel: nat, rendered: nat, requested: nat): seq<S>
    requires rendered <= requested && forall k :: 0 <= k < |output| ==> rendered <= |output[k]|
  {
    (if channel < |output| then output[channel][..rendered] else Repeat(zero, rendered)) + Repeat(zero, requested - rendered)
  }

  /** `renderTo`: one block, copied to the caller's buffer; missing channels and frames are silent. */
  method RenderTo<S, St, M>(p: PreparedRenderPlan<S, St, M>, machine: Machine<S, St, M>, destination: array2<S>, t: nat)
    requires Runnable(p) && destination != p.audioStorage && destination != p.outputStorage
      && destination as object != p.midiBuffers as object
    modifies p, p.audioStorage, p.midiBuffers, p.outputStorage, p.delayStorage, destination
    ensures Runnable(p)
    ensures var rendered := if destination.Length1 < p.maximumBlockSize then destination.Length1 else p.maximumBlockSize;
      && p.Value() == (if rendered == 0 then old(p.Value()) else RunBlock(machine, p.Config(), old(p.Value()), p.operations, t, rendered))
      && forall c, f :: 0 <= c < destination.Length0 && 0 <= f < destination.Length1 ==>
           destination[c, f] == if c < p.outputCount && f < rendered then p.outputStorage[c, f] else machine.zero
  {
    ProcessBlock(p, machine, destination.Length1, t);
    var rendered := if destination.Length1 < p.maximumBlockSize then destination.Length1 else p.maximumBlockSize;
    var channel := 0;
    ghost var value := p.Value();
    while channel < destination.Length0
      invariant 0 <= channel <= destination.Length0
      invariant Runnable(p) && p.Value() == value
      invariant forall c :: 0 <= c < channel ==>
        RowsOf(destination)[c] == DeviceRow(machine.zero, value.output, c, rendered, destination.Length1)
    {
      ghost var rows := RowsOf(destination);
      FillRow(destination, channel, destination.Length1, machine.zero);
      if channel < p.outputCount {
        CopyAcross(p.outputStorage, channel, destination, channel, rendered);
      }
      assert RowsOf(destination)[channel]
        == DeviceRow(machine.zero, value.output, channel, rendered, destination.Length1);
      channel := channel + 1;
    }
    DeviceCells(destination, p.outputStorage, machine.zero, rendered);
  }

  /** The device buffer, frame by frame. */
  lemma DeviceCells<S>(a: array2<S>, output: array2<S>, zero: S, rendered: nat)
    requires rendered <= a.Length1 && rendered <= output.Length1
    requires forall c :: 0 <= c < a.Length0 ==>
      RowsOf(a)[c] == DeviceRow(zero, RowsOf(output), c, rendered, a.Length1)
    ensures forall c, f :: 0 <= c < a.Length0 && 0 <= f < a.Length1 ==>
      a[c, f] == if c < output.Length0 && f < rendered then output[c, f] else zero
  {
    forall c, f | 0 <= c < a.Length0 && 0 <= f < a.Length1
      ensures a[c, f] == if c < output.Length0 && f < rendered then output[c, f] else zero
    {
      assert RowsOf(a)[c][f] == a[c, f];
    }
  }
}
