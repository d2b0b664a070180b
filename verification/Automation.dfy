/** Automation of a whole graph: the compiled plan run block by block, each processor with the events that the router
    put into its buffer for the block. The output does not depend on the blocks. */
module Automation {
  import opened Graph
  import opened RenderPlans
  import opened Streams
  import opened Execution
  import opened Soundness
  import opened Executor
  import opened Prepare
  import opened EndToEnd
  import opened Agreement
  import opened ParameterEvents
  import opened ParameterRouting
  import TrackNodes
  import BlockCuts

  /** Processors whose frames also take the events of the frame. */
  datatype Processors<!S, !St, !M> = Processors(
    zero: S,
    add: (S, S) -> S,
    noMidi: M,
    merge: (M, M) -> M,
    start: NodeId -> St,
    next: (NodeId, nat, St, seq<S>, M, seq<NodeEvent>) -> St,
    out: (NodeId, nat, St, seq<S>, M, seq<NodeEvent>, nat) -> S,
    midiOut: (NodeId, nat, St, seq<S>, M, seq<NodeEvent>) -> M,
    resolved: set<NodeId>
  )

  /** The same processors once the events of every node in every frame are known. */
  function Given<S, St, M>(p: Processors<S, St, M>, events: (NodeId, nat) -> seq<NodeEvent>): Machine<S, St, M> {
    Machine(p.zero, p.add, p.noMidi, p.merge, p.start,
      (n, t, s, audio, midi) => p.next(n, t, s, audio, midi, events(n, t)),
      (n, t, s, audio, midi, c) => p.out(n, t, s, audio, midi, events(n, t), c),
      (n, t, s, audio, midi) => p.midiOut(n, t, s, audio, midi, events(n, t)),
      p.resolved)
  }

  /** What the buffer of a node's route holds. */
  function Delivered(ids: seq<nat>, contents: seq<seq<NodeEvent>>, n: NodeId): seq<NodeEvent> {
    if RouteOf(ids, n) < |contents| then contents[RouteOf(ids, n)] else []
  }

  /** The events of a block that begins with frame `t0`: a node reads the buffer of its route. */
  function BlockEvents(ids: seq<nat>, contents: seq<seq<NodeEvent>>, t0: nat): (NodeId, nat) -> seq<NodeEvent> {
    (n: NodeId, t: nat) => TrackNodes.AtFrame(Delivered(ids, contents, n), t - t0)
  }

  function InBlock<S, St, M>(p: Processors<S, St, M>, ids: seq<nat>, contents: seq<seq<NodeEvent>>,
    t0: nat): Machine<S, St, M>
  {
    Given(p, BlockEvents(ids, contents, t0))
  }

  /** The events of a run from position `start` on, each at its own frame. No blocks occur in it. */
  function RunEvents(events: seq<ScheduledEvent>, start: int): (NodeId, nat) -> seq<NodeEvent> {
    (n: NodeId, t: nat) => BlockCuts.AtPosition(events, n, start + t)
  }

  function InRun<S, St, M>(p: Processors<S, St, M>, events: seq<ScheduledEvent>, start: int): Machine<S, St, M> {
    Given(p, RunEvents(events, start))
  }

  // ----- blocks and runs give the nodes the same events

  lemma GivenTheSame<S(!new), St(!new), M(!new)>(p: Processors<S, St, M>, a: (NodeId, nat) -> seq<NodeEvent>,
    b: (NodeId, nat) -> seq<NodeEvent>, nodes: set<NodeId>, t: nat, end: nat)
    requires forall n, f: nat :: n in nodes && t <= f < end ==> a(n, f) == b(n, f)
    ensures Agree(Given(p, a), Given(p, b), nodes, t, end) == true
  {
    forall n, f: nat | n in nodes && t <= f < end ensures AgreeAt(Given(p, a), Given(p, b), n, f) {
      assert a(n, f) == b(n, f);
    }
  }

  /** The frames of a run, seen from its two parts. */
  lemma EventsOfParts(gone: seq<ScheduledEvent>, due: seq<ScheduledEvent>, n: NodeId, start: int, a: nat, f: nat)
    requires forall k :: 0 <= k < |gone| ==> start <= gone[k].samplePosition < start + a
    requires forall k :: 0 <= k < |due| ==> start + a <= due[k].samplePosition
    ensures BlockCuts.AtPosition(gone + due, n, start + f)
         == if f < a then BlockCuts.AtPosition(gone, n, start + f) else BlockCuts.AtPosition(due, n, start + f)
  {
    BlockCuts.AtPositionConcat(gone, due, n, start + f);
    if f < a {
      BlockCuts.NothingAtPosition(due, n, start + f);
    } else {
      BlockCuts.NothingAtPosition(gone, n, start + f);
    }
  }

  /** Every node has its events of the block in the buffer of its route, one by one and field by field. */
  ghost predicate DeliversTo(nodes: set<NodeId>, ids: seq<nat>, contents: seq<seq<NodeEvent>>, due: seq<ScheduledEvent>,
    blockStart: int)
  {
    forall n :: n in nodes ==> CarriesAll(Delivered(ids, contents, n), Targeted(due, n), blockStart)
  }

  ghost predicate HasRoutes(nodes: set<NodeId>, ids: seq<nat>) {
    forall n :: n in nodes ==> RouteOf(ids, n) < |ids|
  }

  /** Nothing late, nothing refused: the buffers hold exactly the events of the block. */
  lemma CleanBlockDelivers(nodes: set<NodeId>, ids: seq<nat>, room: seq<nat>, due: seq<ScheduledEvent>, blockStart: int)
    requires HasRoutes(nodes, ids) && |ids| == |room| && Ascending(due) == true && forall k :: 0 <= k < |due| ==>
      Sound(due[k])
    requires RouteAll(due, ids, room, blockStart).late == 0 && RouteAll(due, ids, room, blockStart).overflow == 0
    ensures DeliversTo(nodes, ids, RouteAll(due, ids, room, blockStart).contents, due, blockStart)
    ensures forall k :: 0 <= k < |due| ==> due[k].samplePosition >= blockStart
  {
    BlockCuts.NoneLate(due, ids, room, blockStart);
    forall n | n in nodes
      ensures CarriesAll(Delivered(ids, RouteAll(due, ids, room, blockStart).contents, n), Targeted(due, n), blockStart)
    {
      RoutedCarries(due, ids, room, blockStart, RouteOf(ids, n));
    }
  }

  lemma EarlierFramesKeep<S(!new), St(!new), M(!new)>(p: Processors<S, St, M>, gone: seq<ScheduledEvent>,
    due: seq<ScheduledEvent>, nodes: set<NodeId>, start: int, a: nat)
    requires forall k :: 0 <= k < |gone| ==> start <= gone[k].samplePosition < start + a
    requires forall k :: 0 <= k < |due| ==> start + a <= due[k].samplePosition
    ensures Agree(InRun(p, gone, start), InRun(p, gone + due, start), nodes, 0, a) == true
  {
    forall n, f: nat | n in nodes && 0 <= f < a
      ensures RunEvents(gone, start)(n, f) == RunEvents(gone + due, start)(n, f)
    {
      EventsOfParts(gone, due, n, start, a, f);
    }
    GivenTheSame(p, RunEvents(gone, start), RunEvents(gone + due, start), nodes, 0, a);
  }

  lemma BlockIsPartOfRun<S(!new), St(!new), M(!new)>(p: Processors<S, St, M>, gone: seq<ScheduledEvent>,
    due: seq<ScheduledEvent>, nodes: set<NodeId>, ids: seq<nat>, contents: seq<seq<NodeEvent>>, start: int, a: nat,
    b: nat)
    requires forall k :: 0 <= k < |gone| ==> start <= gone[k].samplePosition < start + a
    requires forall k :: 0 <= k < |due| ==> start + a <= due[k].samplePosition
    requires DeliversTo(nodes, ids, contents, due, start + a)
    ensures Agree(InBlock(p, ids, contents, a), InRun(p, gone + due, start), nodes, a, a + b) == true
  {
    forall n, f: nat | n in nodes && a <= f < a + b
      ensures BlockEvents(ids, contents, a)(n, f) == RunEvents(gone + due, start)(n, f)
    {
      EventsOfParts(gone, due, n, start, a, f);
      BlockCuts.FrameOfHeld(Delivered(ids, contents, n), due, n, start + a, f - a);
    }
    GivenTheSame(p, BlockEvents(ids, contents, a), RunEvents(gone + due, start), nodes, a, a + b);
  }

  // ----- the run so far

  /** Storage and output are what the machine makes of the blocks in `sizes`. */
  ghost predicate Ran<S, St, M>(m: Machine<S, St, M>, c: Setup, mem: Memory<S, St, M>, ops: seq<RenderOp>,
    sizes: seq<nat>, now: Memory<S, St, M>, output: seq<seq<S>>)
    requires Shaped(c, mem) && AllExecutable(c, mem, ops) && Fit(c, sizes)
  {
    && now == RunAll(m, c, mem, ops, sizes) && |output| == c.outputCount
    && forall k :: 0 <= k < |output| ==> output[k] == Rendered(m, c, mem, ops, sizes, k)
  }

  /** The frames of a block follow what was captured before. */
  ghost predicate Follows<S, St, M>(output: seq<seq<S>>, block: Memory<S, St, M>, b: nat, longer: seq<seq<S>>) {
    |longer| == |output| && |output| <= |block.output|
    && forall k :: 0 <= k < |output| ==> b <= |block.output[k]| && longer[k] == output[k] + block.output[k][..b]
  }

  lemma RanOn<S, St, M>(m: Machine<S, St, M>, c: Setup, mem: Memory<S, St, M>, ops: seq<RenderOp>, sizes: seq<nat>,
    now: Memory<S, St, M>, output: seq<seq<S>>, t: nat, b: nat, after: Memory<S, St, M>, longer: seq<seq<S>>,
      more: seq<nat>)
    requires Shaped(c, mem) && AllExecutable(c, mem, ops) && Fit(c, sizes) && b <= c.block && t == Total(sizes)
      && more == sizes + [b]
    requires Ran(m, c, mem, ops, sizes, now, output) && Shaped(c, now) && AllExecutable(c, now, ops)
    requires after == RunBlock(m, c, now, ops, t, b) && Follows(output, after, b, longer)
    ensures Fit(c, more) && Total(more) == t + b && Ran(m, c, mem, ops, more, after, longer) == true
  {
    assert more[..|more| - 1] == sizes;
  }

  lemma RanAlike<S(!new), St(!new), M(!new)>(a: Machine<S, St, M>, b: Machine<S, St, M>, c: Setup,
    mem: Memory<S, St, M>, ops: seq<RenderOp>, sizes: seq<nat>, now: Memory<S, St, M>, output: seq<seq<S>>)
    requires Shaped(c, mem) && AllExecutable(c, mem, ops) && Fit(c, sizes)
    requires Agree(a, b, ProcessedNodes(ops), 0, Total(sizes)) == true && Ran(a, c, mem, ops, sizes, now, output)
    ensures Ran(b, c, mem, ops, sizes, now, output) == true
  {
    RunsAgree(a, b, c, mem, ops, sizes);
  }

  /** Events within the first `t` frames. */
  ghost predicate Within(events: seq<ScheduledEvent>, start: int, end: int) {
    forall k :: 0 <= k < |events| ==> start <= events[k].samplePosition < end
  }

  /** One block with exactly its own events in the buffers. */
  lemma RunGoesOn<S(!new), St(!new), M(!new)>(p: Processors<S, St, M>, c: Setup, mem: Memory<S, St, M>,
    ops: seq<RenderOp>, sizes: seq<nat>, gone: seq<ScheduledEvent>, start: int, now: Memory<S, St, M>,
    output: seq<seq<S>>, due: seq<ScheduledEvent>, ids: seq<nat>, contents: seq<seq<NodeEvent>>, t: nat, b: nat,
    after: Memory<S, St, M>, longer: seq<seq<S>>, more: seq<nat>, all: seq<ScheduledEvent>)
    requires Shaped(c, mem) && AllExecutable(c, mem, ops) && Fit(c, sizes) && b <= c.block
    requires t == Total(sizes) && more == sizes + [b] && all == gone + due
    requires (Within(gone, start, start + t) && Ran(InRun(p, gone, start), c, mem, ops, sizes, now, output)) == true
    requires Within(due, start + t, start + t + b) == true
      && DeliversTo(ProcessedNodes(ops), ids, contents, due, start + t) == true
    requires Shaped(c, now) && AllExecutable(c, now, ops)
    requires after == RunBlock(InBlock(p, ids, contents, t), c, now, ops, t, b) && Follows(output, after, b, longer)
    ensures Fit(c, more) && Total(more) == t + b
    ensures (Within(all, start, start + t + b) && Ran(InRun(p, all, start), c, mem, ops, more, after, longer)) == true
  {
    var m := InRun(p, all, start);
    EarlierFramesKeep(p, gone, due, ProcessedNodes(ops), start, t);
    RanAlike(InRun(p, gone, start), m, c, mem, ops, sizes, now, output);
    BlockIsPartOfRun(p, gone, due, ProcessedNodes(ops), ids, contents, start, t, b);
    BlockAgrees(InBlock(p, ids, contents, t), m, c, now, ops, ProcessedNodes(ops), t, b);
    RanOn(m, c, mem, ops, sizes, now, output, t, b, after, longer, more);
  }

  // ----- whatever the counters say

  /** What is known after the blocks in `sizes`, when the events in `gone` have left the queue. */
  ghost predicate Underway<S, St, M>(before: Counters, counters: Counters, p: Processors<S, St, M>, c: Setup,
    mem: Memory<S, St, M>, ops: seq<RenderOp>, sizes: seq<nat>, gone: seq<ScheduledEvent>, start: int, t: nat,
    now: Memory<S, St, M>, output: seq<seq<S>>)
    requires Shaped(c, mem) && AllExecutable(c, mem, ops) && Fit(c, sizes)
  {
    && t == Total(sizes) && |output| == c.outputCount && counters.late >= before.late
      && counters.overflow >= before.overflow
    && (BlockCuts.Clean(before, counters) ==>
      Within(gone, start, start + t) && Ran(InRun(p, gone, start), c, mem, ops, sizes, now, output))
  }

  lemma UnderwayMeans<S, St, M>(before: Counters, counters: Counters, p: Processors<S, St, M>, c: Setup,
    mem: Memory<S, St, M>, ops: seq<RenderOp>, sizes: seq<nat>, gone: seq<ScheduledEvent>, start: int, t: nat,
    now: Memory<S, St, M>, output: seq<seq<S>>)
    requires Shaped(c, mem) && AllExecutable(c, mem, ops) && Fit(c, sizes)
    requires Underway(before, counters, p, c, mem, ops, sizes, gone, start, t, now, output) == true
    ensures t == Total(sizes) && |output| == c.outputCount && counters.late >= before.late
      && counters.overflow >= before.overflow
    ensures BlockCuts.Clean(before, counters) ==>
      (Within(gone, start, start + t) && Ran(InRun(p, gone, start), c, mem, ops, sizes, now, output)) == true
  {}

  lemma IsUnderway<S, St, M>(before: Counters, counters: Counters, p: Processors<S, St, M>, c: Setup,
    mem: Memory<S, St, M>, ops: seq<RenderOp>, sizes: seq<nat>, gone: seq<ScheduledEvent>, start: int, t: nat,
    now: Memory<S, St, M>, output: seq<seq<S>>)
    requires Shaped(c, mem) && AllExecutable(c, mem, ops) && Fit(c, sizes)
    requires t == Total(sizes) && |output| == c.outputCount && counters.late >= before.late
      && counters.overflow >= before.overflow
    requires BlockCuts.Clean(before, counters) ==>
      (Within(gone, start, start + t) && Ran(InRun(p, gone, start), c, mem, ops, sizes, now, output)) == true
    ensures Underway(before, counters, p, c, mem, ops, sizes, gone, start, t, now, output) == true
  {}

  lemma DueOfCleanBlock(nodes: set<NodeId>, waiting: seq<ScheduledEvent>, due: seq<ScheduledEvent>,
    rest: seq<ScheduledEvent>, ids: seq<nat>, room: seq<nat>, blockStart: int, end: int)
    requires |ids| == |room| && BlockCuts.Parts(waiting, due, rest, end) == true && HasRoutes(nodes, ids) == true
    requires RouteAll(due, ids, room, blockStart).late == 0 && RouteAll(due, ids, room, blockStart).overflow == 0
    ensures Within(due, blockStart, end) == true
    ensures DeliversTo(nodes, ids, RouteAll(due, ids, room, blockStart).contents, due, blockStart) == true
  {
    BlockCuts.PartsAreAscending(waiting, due, rest, end);
    CleanBlockDelivers(nodes, ids, room, due, blockStart);
  }

  lemma CleanBlock<S(!new), St(!new), M(!new)>(p: Processors<S, St, M>, c: Setup, mem: Memory<S, St, M>,
    ops: seq<RenderOp>, sizes: seq<nat>, gone: seq<ScheduledEvent>, start: int, now: Memory<S, St, M>,
    output: seq<seq<S>>, waiting: seq<ScheduledEvent>, due: seq<ScheduledEvent>, rest: seq<ScheduledEvent>,
    ids: seq<nat>, room: seq<nat>, t: nat, b: nat, after: Memory<S, St, M>, longer: seq<seq<S>>, more: seq<nat>,
    all: seq<ScheduledEvent>)
    requires (Shaped(c, mem) && AllExecutable(c, mem, ops) && Fit(c, sizes)) == true && b <= c.block && |ids| == |room|
    requires t == Total(sizes) && more == sizes + [b] && all == gone + due
    requires (Within(gone, start, start + t) && Ran(InRun(p, gone, start), c, mem, ops, sizes, now, output)) == true
    requires BlockCuts.Parts(waiting, due, rest, start + t + b) == true && HasRoutes(ProcessedNodes(ops), ids) == true
    requires RouteAll(due, ids, room, start + t).late == 0 && RouteAll(due, ids, room, start + t).overflow == 0
    requires (Shaped(c, now) && AllExecutable(c, now, ops)) == true
    requires after == RunBlock(InBlock(p, ids, RouteAll(due, ids, room, start + t).contents, t), c, now, ops, t, b)
      && Follows(output, after, b, longer) == true
    ensures Fit(c, more) && Total(more) == t + b
    ensures (Within(all, start, start + t + b) && Ran(InRun(p, all, start), c, mem, ops, more, after, longer)) == true
  {
    DueOfCleanBlock(ProcessedNodes(ops), waiting, due, rest, ids, room, start + t, start + t + b);
    RunGoesOn(p, c, mem, ops, sizes, gone, start, now, output, due, ids, RouteAll(due, ids, room, start + t).contents,
      t, b, after, longer, more, all);
  }

  lemma BlockUnderway<S(!new), St(!new), M(!new)>(before: Counters, from: Counters, counters: Counters,
    p: Processors<S, St, M>, c: Setup, mem: Memory<S, St, M>, ops: seq<RenderOp>, sizes: seq<nat>,
    gone: seq<ScheduledEvent>, start: int, now: Memory<S, St, M>, output: seq<seq<S>>,
    waiting: seq<ScheduledEvent>, due: seq<ScheduledEvent>, rest: seq<ScheduledEvent>, ids: seq<nat>, room: seq<nat>,
    t: nat, b: nat, after: Memory<S, St, M>, longer: seq<seq<S>>, more: seq<nat>, all: seq<ScheduledEvent>)
    requires (Shaped(c, mem) && AllExecutable(c, mem, ops) && Fit(c, sizes)) == true && b <= c.block && |ids| == |room|
    requires more == sizes + [b] && all == gone + due
    requires Underway(before, from, p, c, mem, ops, sizes, gone, start, t, now, output) == true
    requires BlockCuts.Parts(waiting, due, rest, start + t + b) == true && HasRoutes(ProcessedNodes(ops), ids) == true
    requires counters == Plus(from, RouteAll(due, ids, room, start + t))
    requires (Shaped(c, now) && AllExecutable(c, now, ops)) == true
    requires after == RunBlock(InBlock(p, ids, RouteAll(due, ids, room, start + t).contents, t), c, now, ops, t, b)
      && Follows(output, after, b, longer) == true
    ensures Fit(c, more) && Underway(before, counters, p, c, mem, ops, more, all, start, t + b, after, longer) == true
  {
    UnderwayMeans(before, from, p, c, mem, ops, sizes, gone, start, t, now, output);
    BlockCuts.RoutedOnCounters(before, from, counters, RouteAll(due, ids, room, start + t));
    TotalGrows(sizes, b, more);
    if BlockCuts.Clean(before, counters) {
      CleanBlock(p, c, mem, ops, sizes, gone, start, now, output, waiting, due, rest, ids, room, t, b, after, longer,
        more, all);
    }
    IsUnderway(before, counters, p, c, mem, ops, more, all, start, t + b, after, longer);
  }

  lemma TotalGrows(sizes: seq<nat>, b: nat, more: seq<nat>)
    requires more == sizes + [b]
    ensures Total(more) == Total(sizes) + b
  {
    assert more[..|more| - 1] == sizes;
  }

  // ----- the run itself

  /** The plan's storage and the router's are different memory. */
  ghost predicate Apart<S, St, M>(p: PreparedRenderPlan<S, St, M>, path: ParameterPath) {
    p.delayStorage as object != path.queue.storage as object && p.delayStorage as object !in Arrays(path.buffers)
  }

  method ReadBuffers(buffers: seq<ParameterEventBuffer>, ghost held: seq<seq<NodeEvent>>)
    returns (contents: seq<seq<NodeEvent>>)
    requires BuffersValid(buffers) && BuffersHold(buffers, held)
    ensures contents == held
  {
    contents := [];
    while |contents| < |buffers|
      invariant |contents| <= |buffers| && contents == held[..|contents|]
    {
      var buffer := buffers[|contents|];
      contents := contents + [buffer.events[..buffer.eventCount]];
    }
  }

  /** Routes the events of a block; `contents` is what the buffers hold then. */
  method RouteBuffers(path: ParameterPath, frames: nat, blockStart: int)
    returns (contents: seq<seq<NodeEvent>>, ghost due: seq<ScheduledEvent>, ghost room: seq<nat>)
    requires path.Valid() && blockStart + frames <= MAXIMUM_POSITION
    modifies path`counters, path.queue`readPosition, path.queue`queued, path.buffers, Arrays(path.buffers)
    ensures path.Valid() && path.accepted == old(path.accepted)
    ensures BlockCuts.Parts(old(path.queue.Contents()), due, path.queue.Contents(), blockStart + frames) == true
    ensures |room| == |path.ids| && path.counters == Plus(old(path.counters), RouteAll(due, path.ids, room, blockStart))
    ensures contents == RouteAll(due, path.ids, room, blockStart).contents
  {
    due, room := BlockCuts.RouteDue(path, frames, blockStart);
    contents := ReadBuffers(path.buffers, RouteAll(due, path.ids, room, blockStart).contents);
  }

  /** Runs the operations over a block and captures its output. */
  method ExecuteWith<S, St, M>(p: PreparedRenderPlan<S, St, M>, machine: Machine<S, St, M>, t: nat, frames: nat,
    output: seq<seq<S>>)
    returns (longer: seq<seq<S>>)
    requires Runnable(p) && frames <= p.maximumBlockSize && |output| == p.outputCount
    modifies p, p.audioStorage, p.midiBuffers, p.outputStorage, p.delayStorage
    ensures Runnable(p) && p.Value() == RunBlock(machine, p.Config(), old(p.Value()), p.operations, t, frames)
    ensures Follows(output, p.Value(), frames, longer) == true
  {
    ghost var before := p.Value();
    p.Execute(machine, t, frames);
    StillExecutable(machine, p.Config(), before, p.operations, t, frames);
    var block := CapturedBlock(p, frames);
    longer := seq(|output|, c requires 0 <= c < |output| && c < |block| => output[c] + block[c]);
  }

  /** What a block does: it takes the due events from the queue and runs the operations with them. */
  ghost predicate BlockRan<S, St, M>(from: Counters, counters: Counters, p: Processors<S, St, M>, c: Setup,
    ops: seq<RenderOp>, now: Memory<S, St, M>, output: seq<seq<S>>, waiting: seq<ScheduledEvent>,
    due: seq<ScheduledEvent>, rest: seq<ScheduledEvent>, ids: seq<nat>, room: seq<nat>, blockStart: int, t: nat, b: nat,
    after: Memory<S, St, M>, longer: seq<seq<S>>)
  {
    && Shaped(c, now) && AllExecutable(c, now, ops) && b <= c.block && |ids| == |room|
    && BlockCuts.Parts(waiting, due, rest, blockStart + b)
    && counters == Plus(from, RouteAll(due, ids, room, blockStart))
    && after == RunBlock(InBlock(p, ids, RouteAll(due, ids, room, blockStart).contents, t), c, now, ops, t, b)
    && Follows(output, after, b, longer)
  }

  lemma BlockMeans<S, St, M>(from: Counters, counters: Counters, p: Processors<S, St, M>, c: Setup, ops: seq<RenderOp>,
    now: Memory<S, St, M>, output: seq<seq<S>>, waiting: seq<ScheduledEvent>, due: seq<ScheduledEvent>,
      rest: seq<ScheduledEvent>,
    ids: seq<nat>, room: seq<nat>, blockStart: int, t: nat, b: nat, after: Memory<S, St, M>, longer: seq<seq<S>>)
    requires BlockRan(from, counters, p, c, ops, now, output, waiting, due, rest, ids, room, blockStart, t, b, after,
      longer) == true
    ensures (Shaped(c, now) && AllExecutable(c, now, ops)) == true && b <= c.block && |ids| == |room|
    ensures BlockCuts.Parts(waiting, due, rest, blockStart + b) == true
      && counters == Plus(from, RouteAll(due, ids, room, blockStart))
    ensures after == RunBlock(InBlock(p, ids, RouteAll(due, ids, room, blockStart).contents, t), c, now, ops, t, b)
      && Follows(output, after, b, longer) == true
  {}

  /** `execute`: the events of the block are routed, then the operations run. */
  method ExecuteBlock<S, St, M>(p: PreparedRenderPlan<S, St, M>, path: ParameterPath, q: Processors<S, St, M>, t: nat,
    frames: nat, blockStart: int, output: seq<seq<S>>)
    returns (longer: seq<seq<S>>, ghost due: seq<ScheduledEvent>, ghost room: seq<nat>)
    requires Runnable(p) && path.Valid() && Apart(p, path)
    requires frames <= p.maximumBlockSize && blockStart + frames <= MAXIMUM_POSITION && |output| == p.outputCount
    modifies path`counters, path.queue`readPosition, path.queue`queued, path.buffers, Arrays(path.buffers)
    modifies p, p.audioStorage, p.midiBuffers, p.outputStorage, p.delayStorage
    ensures Runnable(p) && path.Valid() && path.accepted == old(path.accepted)
    ensures BlockRan(old(path.counters), path.counters, q, p.Config(), p.operations, old(p.Value()), output,
      old(path.queue.Contents()), due,
                     path.queue.Contents(), path.ids, room, blockStart, t, frames, p.Value(), longer) == true
  {
    var contents;
    contents, due, room := RouteBuffers(path, frames, blockStart);
    longer := ExecuteWith(p, InBlock(q, path.ids, contents, t), t, frames, output);
  }

  /** The same seen from the accepted events: those that left the queue since the first `base` ones. */
  lemma NextUnderway<S(!new), St(!new), M(!new)>(before: Counters, from: Counters, counters: Counters,
    p: Processors<S, St, M>, c: Setup, mem: Memory<S, St, M>, ops: seq<RenderOp>, sizes: seq<nat>,
    accepted: seq<ScheduledEvent>, base: nat, start: int, now: Memory<S, St, M>, output: seq<seq<S>>,
    waiting: seq<ScheduledEvent>, due: seq<ScheduledEvent>, rest: seq<ScheduledEvent>, ids: seq<nat>, room: seq<nat>,
    t: nat, b: nat, after: Memory<S, St, M>, longer: seq<seq<S>>, more: seq<nat>)
    requires (Shaped(c, mem) && AllExecutable(c, mem, ops) && Fit(c, sizes)) == true && more == sizes + [b]
    requires |waiting| <= |accepted| && waiting == accepted[|accepted| - |waiting|..] && base <= |accepted| - |waiting|
    requires Underway(before, from, p, c, mem, ops, sizes, BlockCuts.Gone(accepted, waiting, base), start, t, now,
      output) == true
    requires HasRoutes(ProcessedNodes(ops), ids) == true
    requires BlockRan(from, counters, p, c, ops, now, output, waiting, due, rest, ids, room, start + t, t, b, after,
      longer) == true
    ensures Fit(c, more) == true && |rest| <= |waiting| && BlockCuts.Refusals(counters) == BlockCuts.Refusals(from)
    ensures Underway(before, counters, p, c, mem, ops, more, BlockCuts.Gone(accepted, rest, base), start, t + b, after,
      longer) == true
    ensures forall k :: 0 <= k < |rest| ==> rest[k].samplePosition >= start + t + b
  {
    BlockMeans(from, counters, p, c, ops, now, output, waiting, due, rest, ids, room, start + t, t, b, after, longer);
    BlockCuts.PartsSplit(waiting, due, rest, start + t + b);
    BlockCuts.GoneGrows(accepted, waiting, due, rest, base);
    BlockUnderway(before, from, counters, p, c, mem, ops, sizes, BlockCuts.Gone(accepted, waiting, base), start, now,
      output, waiting, due, rest, ids, room, t, b, after, longer, more, BlockCuts.Gone(accepted, rest, base));
  }

  method RenderNext<S(!new), St(!new), M(!new)>(p: PreparedRenderPlan<S, St, M>, path: ParameterPath,
    q: Processors<S, St, M>, frames: nat, t: nat, start: int, output: seq<seq<S>>, ghost mem: Memory<S, St, M>,
    ghost sizes: seq<nat>, ghost more: seq<nat>, ghost base: nat, ghost before: Counters)
    returns (longer: seq<seq<S>>)
    requires Runnable(p) && path.Valid() && Apart(p, path) && HasRoutes(ProcessedNodes(p.operations), path.ids) == true
    requires frames <= p.maximumBlockSize && start + t + frames <= MAXIMUM_POSITION && |output| == p.outputCount
    requires (Shaped(p.Config(), mem) && AllExecutable(p.Config(), mem, p.operations) && Fit(p.Config(), sizes)) == true
      && more == sizes + [frames]
    requires base <= |path.accepted| - |path.queue.Contents()|
    requires Underway(before, path.counters, q, p.Config(), mem, p.operations, sizes,
      BlockCuts.Gone(path.accepted, path.queue.Contents(), base),
                      start, t, p.Value(), output) == true
    modifies path`counters, path.queue`readPosition, path.queue`queued, path.buffers, Arrays(path.buffers)
    modifies p, p.audioStorage, p.midiBuffers, p.outputStorage, p.delayStorage
    ensures Runnable(p) && path.Valid() && path.accepted == old(path.accepted)
      && base <= |path.accepted| - |path.queue.Contents()|
    ensures Fit(p.Config(), more) == true && BlockCuts.Refusals(path.counters) == old(BlockCuts.Refusals(path.counters))
    ensures Underway(before, path.counters, q, p.Config(), mem, p.operations, more,
      BlockCuts.Gone(path.accepted, path.queue.Contents(), base),
                     start, t + frames, p.Value(), longer) == true
    ensures forall k :: 0 <= k < |path.queue.Contents()| ==>
      path.queue.Contents()[k].samplePosition >= start + t + frames
  {
    ghost var waiting, from, now := path.queue.Contents(), path.counters, p.Value();
    path.WaitingIsAccepted();
    ghost var due, room;
    longer, due, room := ExecuteBlock(p, path, q, t, frames, start + t, output);
    NextUnderway(before, from, path.counters, q, p.Config(), mem, p.operations, sizes, path.accepted, base, start, now,
      output, waiting, due, path.queue.Contents(), path.ids, room, t, frames, p.Value(), longer, more);
  }

  /** The requests that arrive before a block, then the block. */
  method NextBlock<S(!new), St(!new), M(!new)>(p: PreparedRenderPlan<S, St, M>, path: ParameterPath,
    q: Processors<S, St, M>, block: BlockCuts.Block, t: nat, start: int, output: seq<seq<S>>,
    ghost mem: Memory<S, St, M>, ghost sizes: seq<nat>, ghost more: seq<nat>, ghost base: nat, ghost before: Counters)
    returns (longer: seq<seq<S>>)
    requires Runnable(p) && path.Valid() && Apart(p, path) && HasRoutes(ProcessedNodes(p.operations), path.ids) == true
    requires block.frames <= p.maximumBlockSize && start + t + block.frames <= MAXIMUM_POSITION
      && |output| == p.outputCount
    requires (Shaped(p.Config(), mem) && AllExecutable(p.Config(), mem, p.operations) && Fit(p.Config(), sizes)) == true
      && more == sizes + [block.frames]
    requires base <= |path.accepted| - |path.queue.Contents()|
    requires Underway(before, path.counters, q, p.Config(), mem, p.operations, sizes,
      BlockCuts.Gone(path.accepted, path.queue.Contents(), base),
                      start, t, p.Value(), output) == true
    modifies path`lastEnqueuedSample, path`nextSequence, path`counters, path`accepted, path.queue, path.queue.storage
    modifies path.buffers, Arrays(path.buffers), p, p.audioStorage, p.midiBuffers, p.outputStorage, p.delayStorage
    ensures Runnable(p) && path.Valid() && old(path.accepted) <= path.accepted
      && base <= |path.accepted| - |path.queue.Contents()|
    ensures Fit(p.Config(), more) == true
    ensures Underway(before, path.counters, q, p.Config(), mem, p.operations, more,
      BlockCuts.Gone(path.accepted, path.queue.Contents(), base),
                     start, t + block.frames, p.Value(), longer) == true
    ensures forall k :: 0 <= k < |path.queue.Contents()| ==>
      path.queue.Contents()[k].samplePosition >= start + t + block.frames
    ensures BlockCuts.Taken(old(path.accepted), old(path.nextSequence), old(BlockCuts.Refusals(path.counters)),
      block.requests,
                               path.accepted, path.nextSequence, path.counters) == true
  {
    BlockCuts.EnqueueAll(path, block.requests, base);
    ghost var counters := path.counters;
    longer := RenderNext(p, path, q, block.frames, t, start, output, mem, sizes, more, base, before);
    BlockCuts.SameRefusals(old(path.accepted), old(path.nextSequence), old(BlockCuts.Refusals(path.counters)),
      block.requests, path.accepted, path.nextSequence, counters, path.counters);
  }

  // ----- any blocks

  function Sizes(blocks: seq<BlockCuts.Block>): seq<nat> {
    seq(|blocks|, k requires 0 <= k < |blocks| => blocks[k].frames)
  }

  /** All requests of a run, in the order in which they arrive. */
  function Requests(blocks: seq<BlockCuts.Block>): seq<BlockCuts.Request> {
    if blocks == [] then [] else Requests(blocks[..|blocks| - 1]) + blocks[|blocks| - 1].requests
  }

  lemma Longer(blocks: seq<BlockCuts.Block>, b: BlockCuts.Block, more: seq<BlockCuts.Block>)
    requires more == blocks + [b]
    ensures Sizes(more) == Sizes(blocks) + [b.frames] && Requests(more) == Requests(blocks) + b.requests
  {
    assert more[..|more| - 1] == blocks;
  }

  lemma {:induction false} SizesAreFrames(blocks: seq<BlockCuts.Block>)
    ensures Total(Sizes(blocks)) == BlockCuts.Frames(blocks)
  {
    if blocks != [] {
      var last := |blocks| - 1;
      SizesAreFrames(blocks[..last]);
      assert Sizes(blocks)[..last] == Sizes(blocks[..last]);
    }
  }

  lemma RunBegins<S, St, M>(before: Counters, p: Processors<S, St, M>, c: Setup, mem: Memory<S, St, M>,
    ops: seq<RenderOp>, start: int, output: seq<seq<S>>)
    requires Shaped(c, mem) && AllExecutable(c, mem, ops) && output == seq(c.outputCount, _ => [])
    ensures Underway(before, before, p, c, mem, ops, [], [], start, 0, mem, output) == true
  {}

  lemma RunIsOver<S(!new), St(!new), M(!new)>(before: Counters, counters: Counters, p: Processors<S, St, M>, c: Setup,
    mem: Memory<S, St, M>, ops: seq<RenderOp>, sizes: seq<nat>, accepted: seq<ScheduledEvent>,
    waiting: seq<ScheduledEvent>, base: nat, start: int, t: nat, now: Memory<S, St, M>, output: seq<seq<S>>)
    requires (Shaped(c, mem) && AllExecutable(c, mem, ops) && Fit(c, sizes)) == true
      && BlockCuts.Clean(before, counters)
    requires |waiting| <= |accepted| && waiting == accepted[|accepted| - |waiting|..] && base <= |accepted| - |waiting|
    requires Underway(before, counters, p, c, mem, ops, sizes, BlockCuts.Gone(accepted, waiting, base), start, t, now,
      output) == true
    requires t == 0 || forall k :: 0 <= k < |waiting| ==> waiting[k].samplePosition >= start + t
    ensures Ran(InRun(p, BlockCuts.Later(accepted, base), start), c, mem, ops, sizes, now, output) == true
  {
    var gone := BlockCuts.Gone(accepted, waiting, base);
    UnderwayMeans(before, counters, p, c, mem, ops, sizes, gone, start, t, now, output);
    assert accepted[base..] == gone + waiting;
    var a, b := InRun(p, gone, start), InRun(p, gone + waiting, start);
    if t == 0 {
      GivenTheSameOnNothing(a, b, ProcessedNodes(ops));
    } else {
      EarlierFramesKeep(p, gone, waiting, ProcessedNodes(ops), start, t);
    }
    RanAlike(a, b, c, mem, ops, sizes, now, output);
  }

  lemma GivenTheSameOnNothing<S(!new), St(!new), M(!new)>(a: Machine<S, St, M>, b: Machine<S, St, M>,
    nodes: set<NodeId>)
    requires SameMaterial(a, b)
    ensures Agree(a, b, nodes, 0, 0) == true
  {}

  method RenderAll<S(!new), St(!new), M(!new)>(p: PreparedRenderPlan<S, St, M>, path: ParameterPath,
    q: Processors<S, St, M>, blocks: seq<BlockCuts.Block>, start: int, ghost base: nat)
    returns (output: seq<seq<S>>)
    requires Runnable(p) && path.Valid() && Apart(p, path) && HasRoutes(ProcessedNodes(p.operations), path.ids) == true
    requires forall k :: 0 <= k < |blocks| ==> 0 < blocks[k].frames <= p.maximumBlockSize
    requires start + BlockCuts.Frames(blocks) <= MAXIMUM_POSITION && base == |path.accepted| - |path.queue.Contents()|
    modifies path`lastEnqueuedSample, path`nextSequence, path`counters, path`accepted, path.queue, path.queue.storage
    modifies path.buffers, Arrays(path.buffers), p, p.audioStorage, p.midiBuffers, p.outputStorage, p.delayStorage
    ensures Runnable(p) && path.Valid() && old(path.accepted) <= path.accepted
      && base <= |path.accepted| - |path.queue.Contents()|
    ensures Fit(p.Config(), Sizes(blocks)) == true
    ensures Underway(old(path.counters), path.counters, q, p.Config(), old(p.Value()), p.operations, Sizes(blocks),
                     BlockCuts.Gone(path.accepted, path.queue.Contents(), base), start, BlockCuts.Frames(blocks),
                       p.Value(), output) == true
    ensures blocks == [] || forall k :: 0 <= k < |path.queue.Contents()| ==>
      path.queue.Contents()[k].samplePosition >= start + BlockCuts.Frames(blocks)
    ensures BlockCuts.Taken(old(path.accepted), old(path.nextSequence), old(BlockCuts.Refusals(path.counters)),
      Requests(blocks),
                               path.accepted, path.nextSequence, path.counters) == true
  {
    ghost var mem, before, accepted0, first := p.Value(), path.counters, path.accepted, path.nextSequence;
    output := seq(p.outputCount, _ => []);
    RunBegins(before, q, p.Config(), mem, p.operations, start, output);
    assert BlockCuts.Gone(path.accepted, path.queue.Contents(), base) == [];
    assert blocks[..0] == [];
    var k, t := 0, 0;
    while k < |blocks|
      invariant 0 <= k <= |blocks| && t == BlockCuts.Frames(blocks[..k]) <= BlockCuts.Frames(blocks)
      invariant Runnable(p) && path.Valid() && accepted0 <= path.accepted
        && base <= |path.accepted| - |path.queue.Contents()|
      invariant Fit(p.Config(), Sizes(blocks[..k])) == true && |output| == p.outputCount
      invariant Underway(before, path.counters, q, p.Config(), mem, p.operations, Sizes(blocks[..k]),
                         BlockCuts.Gone(path.accepted, path.queue.Contents(), base), start, t, p.Value(), output)
                           == true
      invariant k == 0 || forall j :: 0 <= j < |path.queue.Contents()| ==>
        path.queue.Contents()[j].samplePosition >= start + t
      invariant BlockCuts.Taken(accepted0, first, BlockCuts.Refusals(before), Requests(blocks[..k]), path.accepted,
        path.nextSequence, path.counters) == true
    {
      BlockCuts.FramesGrow(blocks, k);
      Longer(blocks[..k], blocks[k], blocks[..k + 1]);
      ghost var accepted, next, counters := path.accepted, path.nextSequence, path.counters;
      ghost var sizes := Sizes(blocks[..k + 1]);
      output := NextBlock(p, path, q, blocks[k], t, start, output, mem, Sizes(blocks[..k]), sizes, base, before);
      UnderwayMeans(before, path.counters, q, p.Config(), mem, p.operations, sizes,
        BlockCuts.Gone(path.accepted, path.queue.Contents(), base), start, t + blocks[k].frames, p.Value(), output);
      BlockCuts.TakenJoin(accepted0, first, BlockCuts.Refusals(before), Requests(blocks[..k]), accepted, next, counters,
        blocks[k].requests, path.accepted, path.nextSequence, path.counters, Requests(blocks[..k + 1]));
      t := t + blocks[k].frames;
      k := k + 1;
    }
    BlockCuts.AllBlocks(blocks);
  }

  /** A prepared plan rendered block by block, through the queue, the router, the buffers of the routes and the
      operations. If no event was late and none was refused by a buffer, then storage and output are those of the
      processors that find every accepted event at its own frame: they do not depend on the blocks. */
  method RenderAutomated<S(!new), St(!new), M(!new)>(p: PreparedRenderPlan<S, St, M>, path: ParameterPath,
    q: Processors<S, St, M>, blocks: seq<BlockCuts.Block>, start: int)
    returns (output: seq<seq<S>>)
    requires Runnable(p) && path.Valid() && Apart(p, path) && HasRoutes(ProcessedNodes(p.operations), path.ids) == true
    requires forall k :: 0 <= k < |blocks| ==> 0 < blocks[k].frames <= p.maximumBlockSize
    requires start + BlockCuts.Frames(blocks) <= MAXIMUM_POSITION
    modifies path`lastEnqueuedSample, path`nextSequence, path`counters, path`accepted, path.queue, path.queue.storage
    modifies path.buffers, Arrays(path.buffers), p, p.audioStorage, p.midiBuffers, p.outputStorage, p.delayStorage
    ensures Runnable(p) && path.Valid() && old(path.accepted) <= path.accepted
    ensures Fit(p.Config(), Sizes(blocks)) == true
    ensures BlockCuts.Clean(old(path.counters), path.counters) ==>
      Ran(InRun(q, BlockCuts.Later(path.accepted, old(Counted(path.counters))), start), p.Config(), old(p.Value()),
        p.operations, Sizes(blocks),
          p.Value(), output) == true
    ensures BlockCuts.Taken(old(path.accepted), old(path.nextSequence), old(BlockCuts.Refusals(path.counters)),
      Requests(blocks),
                               path.accepted, path.nextSequence, path.counters) == true
  {
    path.WaitingIsAccepted();
    path.EveryEventIsCounted();
    ghost var before, base, mem := path.counters, Counted(path.counters), p.Value();
    output := RenderAll(p, path, q, blocks, start, base);
    path.WaitingIsAccepted();
    if BlockCuts.Clean(before, path.counters) {
      RunIsOver(before, path.counters, q, p.Config(), mem, p.operations, Sizes(blocks), path.accepted,
        path.queue.Contents(), base, start, BlockCuts.Frames(blocks), p.Value(), output);
    }
  }
}
