/** Parameter events from acceptance by the control thread to the buffer of their node in one audio block. */
module ParameterRouting {
  import opened ParameterEvents
  import opened SpscQueues

  datatype ScheduledEvent = ScheduledEvent(
    targetNode: nat,
    parameter: nat,
    samplePosition: int,
    value: real,
    kind: EventKind,
    duration: int,
    sequence: nat
  )

  const MAXIMUM_POSITION: int := 0x7FFF_FFFF_FFFF_FFFF

  // ----- one event

  /** The first position after the block; positions are 64-bit signed numbers and do not overflow. */
  function BlockEnd(blockStart: int, frameCount: nat): int {
    if blockStart > MAXIMUM_POSITION - frameCount then MAXIMUM_POSITION else blockStart + frameCount
  }

  function OffsetIn(e: ScheduledEvent, blockStart: int): int {
    if e.samplePosition < blockStart then 0 else e.samplePosition - blockStart
  }

  function ToNode(e: ScheduledEvent, blockStart: int): NodeEvent {
    NodeEvent(e.parameter, OffsetIn(e, blockStart), e.value, e.kind, e.duration, e.sequence)
  }

  /** The first route to a node; the length when there is none. */
  function RouteOf(ids: seq<nat>, node: nat): (i: nat)
    ensures i <= |ids| && (i < |ids| ==> ids[i] == node) && forall k :: 0 <= k < i ==> ids[k] != node
  {
    if ids == [] || ids[0] == node then 0 else
      var rest := RouteOf(ids[1..], node);
      assert forall k :: 1 <= k < 1 + rest ==> ids[k] == ids[1..][k - 1];
      1 + rest
  }

  // ----- one block

  datatype Routing = Routing(contents: seq<seq<NodeEvent>>, routed: nat, late: nat, unknown: nat, overflow: nat)

  function RouteOne(r: Routing, e: ScheduledEvent, ids: seq<nat>, room: seq<nat>, blockStart: int): (next: Routing)
    requires |r.contents| == |ids| == |room|
    ensures |next.contents| == |ids|
      && next.routed + next.unknown + next.overflow == r.routed + r.unknown + r.overflow + 1
    ensures next.routed >= r.routed && next.late >= r.late && next.unknown >= r.unknown && next.overflow >= r.overflow
  {
    var i, n := RouteOf(ids, e.targetNode), ToNode(e, blockStart);
    var late := r.late + if e.samplePosition < blockStart then 1 else 0;
    if i == |ids| then r.(late := late, unknown := r.unknown + 1)
    else if !Acceptable(n) || |r.contents[i]| >= room[i] then r.(late := late, overflow := r.overflow + 1)
    else r.(late := late, contents := r.contents[i := Insert(r.contents[i], n)], routed := r.routed + 1)
  }

  function RouteAll(events: seq<ScheduledEvent>, ids: seq<nat>, room: seq<nat>, blockStart: int): (r: Routing)
    requires |ids| == |room|
    ensures |r.contents| == |ids|
  {
    if events == [] then Routing(seq(|ids|, _ => []), 0, 0, 0, 0)
    else RouteOne(RouteAll(events[..|events| - 1], ids, room, blockStart), events[|events| - 1], ids, room, blockStart)
  }

  /** How many events at the front of the queue are before the end of the block. */
  function DueCount(events: seq<ScheduledEvent>, blockEnd: int): (n: nat)
    ensures n <= |events| && (forall k :: 0 <= k < n ==> events[k].samplePosition < blockEnd)
    ensures n < |events| ==> events[n].samplePosition >= blockEnd
  {
    if events == [] || events[0].samplePosition >= blockEnd then 0
    else
      var rest := DueCount(events[1..], blockEnd);
      assert forall k :: 1 <= k < 1 + rest ==> events[k] == events[1..][k - 1];
      1 + rest
  }

  lemma DueIsDetermined(events: seq<ScheduledEvent>, blockEnd: int, n: nat)
    requires n <= |events| && (forall k :: 0 <= k < n ==> events[k].samplePosition < blockEnd)
    requires n < |events| ==> events[n].samplePosition >= blockEnd
    ensures DueCount(events, blockEnd) == n
  {}

  // ----- what routing means

  /** Events are numbered in the order of acceptance and their positions never decrease. */
  ghost predicate Ascending(events: seq<ScheduledEvent>) {
    && (forall i, j :: 0 <= i < j < |events| ==> events[i].sequence < events[j].sequence)
    && (forall i, j :: 0 <= i <= j < |events| ==> events[i].samplePosition <= events[j].samplePosition)
  }

  /** Every routed event is counted once: delivered, for an unknown node, or without room. */
  lemma {:induction false} RoutingCounts(events: seq<ScheduledEvent>, ids: seq<nat>, room: seq<nat>, blockStart: int)
    requires |ids| == |room|
    ensures var r := RouteAll(events, ids, room, blockStart);
      r.routed + r.unknown + r.overflow == |events| && r.late <= |events|
  {
    if events != [] { RoutingCounts(events[..|events| - 1], ids, room, blockStart); }
  }

  /** In an ascending queue the events left behind are exactly those at or after the end of the block. */
  lemma DueIsExact(events: seq<ScheduledEvent>, blockEnd: int)
    requires Ascending(events)
    ensures forall k :: 0 <= k < |events| ==> (k < DueCount(events, blockEnd) <==> events[k].samplePosition < blockEnd)
  {}

  /** The positions of the elements with a property. */
  function Where<T>(p: T -> bool, s: seq<T>): set<nat> { set k: nat | k < |s| && p(s[k]) }

  lemma WhereGrows<T>(p: T -> bool, s: seq<T>)
    requires s != []
    ensures |Where(p, s)| == |Where(p, s[..|s| - 1])| + if p(s[|s| - 1]) then 1 else 0
  {
    var last := |s| - 1;
    assert Where(p, s) == Where(p, s[..last]) + if p(s[last]) then {last} else {};
  }

  function LateCount(events: seq<ScheduledEvent>, blockStart: int): nat {
    |Where((e: ScheduledEvent) => e.samplePosition < blockStart, events)|
  }

  function StrayCount(events: seq<ScheduledEvent>, ids: seq<nat>): nat {
    |Where((e: ScheduledEvent) => e.targetNode !in ids, events)|
  }

  lemma OneTells(r: Routing, e: ScheduledEvent, ids: seq<nat>, room: seq<nat>, blockStart: int)
    requires |r.contents| == |ids| == |room|
    ensures var next := RouteOne(r, e, ids, room, blockStart);
      && next.late == r.late + (if e.samplePosition < blockStart then 1 else 0)
      && next.unknown == r.unknown + if e.targetNode !in ids then 1 else 0
  {}

  /** Late events are those before the block, unknown ones those for a node without a route. */
  lemma {:induction false} RoutingTells(events: seq<ScheduledEvent>, ids: seq<nat>, room: seq<nat>, blockStart: int)
    requires |ids| == |room|
    ensures var r := RouteAll(events, ids, room, blockStart);
      r.late == LateCount(events, blockStart) && r.unknown == StrayCount(events, ids)
  {
    if events != [] {
      var before, e := events[..|events| - 1], events[|events| - 1];
      RoutingTells(before, ids, room, blockStart);
      OneTells(RouteAll(before, ids, room, blockStart), e, ids, room, blockStart);
      WhereGrows((e: ScheduledEvent) => e.samplePosition < blockStart, events);
      WhereGrows((e: ScheduledEvent) => e.targetNode !in ids, events);
    }
  }

  /** The first events are those before the end of the block, which is a 64-bit position. */
  ghost predicate Parted(events: seq<ScheduledEvent>, due: nat, blockStart: int, frameCount: nat) {
    forall k :: 0 <= k < |events| ==>
      (k < due <==> events[k].samplePosition < blockStart + frameCount && events[k].samplePosition < 0x7FFF_FFFF_FFFF_FFFF)
  }

  /** What a block adds to the counters. */
  ghost predicate Tallied(before: Counters, events: seq<ScheduledEvent>, ids: seq<nat>, blockStart: int,
    after: Counters) {
    && after.invalid == before.invalid && after.rejected == before.rejected
    && after.late == before.late + LateCount(events, blockStart)
    && after.unknown == before.unknown + StrayCount(events, ids)
    && after.routed + after.unknown + after.overflow == before.routed + before.unknown + before.overflow + |events|
  }

  lemma BlockIsParted(events: seq<ScheduledEvent>, due: nat, blockStart: int, frameCount: nat)
    requires Ascending(events) && due == DueCount(events, BlockEnd(blockStart, frameCount))
    ensures Parted(events, due, blockStart, frameCount) == true
  {
    DueIsExact(events, BlockEnd(blockStart, frameCount));
  }

  lemma BlockIsTallied(before: Counters, events: seq<ScheduledEvent>, ids: seq<nat>, room: seq<nat>, blockStart: int,
    after: Counters)
    requires |ids| == |room| && after == Plus(before, RouteAll(events, ids, room, blockStart))
    ensures Tallied(before, events, ids, blockStart, after) == true
  {
    RoutingCounts(events, ids, room, blockStart);
    RoutingTells(events, ids, room, blockStart);
  }

  /** Blocks that follow each other: after a block nothing that is still queued is late for the next one. */
  lemma NothingLateInTheNextBlock(events: seq<ScheduledEvent>, blockStart: int, frameCount: nat, ids: seq<nat>,
    room: seq<nat>, more: seq<ScheduledEvent>, next: nat)
    requires |ids| == |room| && blockStart + frameCount <= MAXIMUM_POSITION
    requires Ascending(events) && events[DueCount(events, blockStart + frameCount)..] == more && next <= |more|
    ensures RouteAll(more[..next], ids, room, blockStart + frameCount).late == 0
  {
    DueIsExact(events, blockStart + frameCount);
    forall k | 0 <= k < |more| ensures more[k].samplePosition >= blockStart + frameCount {
      assert more[k] == events[DueCount(events, blockStart + frameCount) + k];
    }
    PunctualEvents(more[..next], blockStart + frameCount, ids, room);
  }

  lemma {:induction false} PunctualEvents(events: seq<ScheduledEvent>, blockStart: int, ids: seq<nat>, room: seq<nat>)
    requires |ids| == |room| && forall k :: 0 <= k < |events| ==> events[k].samplePosition >= blockStart
    ensures RouteAll(events, ids, room, blockStart).late == 0
  {
    if events != [] { PunctualEvents(events[..|events| - 1], blockStart, ids, room); }
  }

  /** The events of a list that go to a route, as their node sees them. */
  function ForRoute(events: seq<ScheduledEvent>, ids: seq<nat>, route: nat, blockStart: int): seq<NodeEvent> {
    if events == [] then []
    else
      var before, e := ForRoute(events[..|events| - 1], ids, route, blockStart), events[|events| - 1];
      if RouteOf(ids, e.targetNode) == route then before + [ToNode(e, blockStart)] else before
  }

  /** A buffer receives, in order, only events for its node, each at its own sample inside the block or, when it is
      late, at the first; and all of them while there is room. */
  lemma {:induction false} BufferHolds(events: seq<ScheduledEvent>, ids: seq<nat>, room: seq<nat>, blockStart: int,
    frameCount: nat, i: nat)
    requires |ids| == |room| && i < |ids| && frameCount > 0
    requires forall k :: 0 <= k < |events| ==> events[k].samplePosition < blockStart + frameCount && Sound(events[k])
    ensures var buffer := RouteAll(events, ids, room, blockStart).contents[i];
      && InOrder(buffer) && |buffer| <= room[i]
      && (forall k :: 0 <= k < |buffer| ==> 0 <= buffer[k].sampleOffset < frameCount)
      && (|ForRoute(events, ids, i, blockStart)| <= room[i] ==>
        multiset(buffer) == multiset(ForRoute(events, ids, i, blockStart)))
      && |buffer| == if |ForRoute(events, ids, i, blockStart)| <= room[i] then |ForRoute(events, ids, i, blockStart)| else room[i]
  {
    if events != [] {
      var before, e := events[..|events| - 1], events[|events| - 1];
      BufferHolds(before, ids, room, blockStart, frameCount, i);
      var buffer := RouteAll(before, ids, room, blockStart).contents[i];
      InsertKeepsOrder(buffer, ToNode(e, blockStart));
      InsertAddsOne(buffer, ToNode(e, blockStart));
      InsertedOffsets(buffer, ToNode(e, blockStart), frameCount);
    }
  }

  /** In the order of acceptance no event has to be moved: with room for all, the buffer is the list itself. */
  lemma {:induction false} BufferIsInAcceptanceOrder(events: seq<ScheduledEvent>, ids: seq<nat>, room: seq<nat>,
    blockStart: int, i: nat)
    requires |ids| == |room| && i < |ids| && Ascending(events)
    requires forall k :: 0 <= k < |events| ==> Sound(events[k])
    requires |ForRoute(events, ids, i, blockStart)| <= room[i]
    ensures RouteAll(events, ids, room, blockStart).contents[i] == ForRoute(events, ids, i, blockStart)
  {
    if events != [] {
      var before, e := events[..|events| - 1], events[|events| - 1];
      assert Ascending(before);
      BufferIsInAcceptanceOrder(before, ids, room, blockStart, i);
      NextIsLast(events, ids, i, blockStart);
    }
  }

  /** The last event comes behind everything its node got before. */
  lemma NextIsLast(events: seq<ScheduledEvent>, ids: seq<nat>, i: nat, blockStart: int)
    requires Ascending(events) && events != []
    ensures var buffer, n := ForRoute(events[..|events| - 1], ids, i, blockStart),
      ToNode(events[|events| - 1], blockStart);
      Insert(buffer, n) == buffer + [n]
  {
    var before, e := events[..|events| - 1], events[|events| - 1];
    RoutedFrom(before, ids, i, blockStart);
    var buffer := ForRoute(before, ids, i, blockStart);
    if buffer != [] {
      assert buffer[|buffer| - 1] in buffer;
      var k :| 0 <= k < |before| && buffer[|buffer| - 1] == ToNode(before[k], blockStart);
      assert events[k].sequence < e.sequence && events[k].samplePosition <= e.samplePosition;
    }
  }

  lemma {:induction false} RoutedFrom(events: seq<ScheduledEvent>, ids: seq<nat>, i: nat, blockStart: int)
    ensures forall n :: n in ForRoute(events, ids, i, blockStart) ==>
      exists k :: 0 <= k < |events| && n == ToNode(events[k], blockStart)
  {
    if events != [] {
      var before := events[..|events| - 1];
      RoutedFrom(before, ids, i, blockStart);
      forall n | n in ForRoute(events, ids, i, blockStart)
        ensures exists k :: 0 <= k < |events| && n == ToNode(events[k], blockStart) {
        if n in ForRoute(before, ids, i, blockStart) {
          var k :| 0 <= k < |before| && n == ToNode(before[k], blockStart);
          assert events[k] == before[k];
        } else {
          assert n == ToNode(events[|events| - 1], blockStart);
        }
      }
    }
  }

  // ----- what a buffer holds, said of the events themselves

  /** The events for one node, in order. */
  function Targeted(events: seq<ScheduledEvent>, node: nat): seq<ScheduledEvent> {
    if events == [] then []
    else
      var before, last := Targeted(events[..|events| - 1], node), events[|events| - 1];
      if last.targetNode == node then before + [last] else before
  }

  /** The events for a route: those for its node, unless an earlier route has the same node. */
  function TargetedAt(events: seq<ScheduledEvent>, ids: seq<nat>, i: nat): seq<ScheduledEvent>
    requires i < |ids|
  {
    if RouteOf(ids, ids[i]) == i then Targeted(events, ids[i]) else []
  }

  /** Everything an event carries, at the given sample. */
  predicate Carries(n: NodeEvent, e: ScheduledEvent, offset: int) {
    && n.parameter == e.parameter && n.value == e.value && n.kind == e.kind && n.duration == e.duration
    && n.sequence == e.sequence && n.sampleOffset == offset
  }

  /** One by one, each event at its own sample of the block that begins at `blockStart`, a late one at the first. */
  ghost predicate CarriesAll(buffer: seq<NodeEvent>, events: seq<ScheduledEvent>, blockStart: int) {
    && |buffer| == |events|
    && forall j :: 0 <= j < |buffer| ==>
         Carries(buffer[j], events[j],
           if events[j].samplePosition < blockStart then 0 else events[j].samplePosition - blockStart)
  }

  lemma {:induction false} ForRouteCarries(events: seq<ScheduledEvent>, ids: seq<nat>, i: nat, blockStart: int)
    requires i < |ids|
    ensures CarriesAll(ForRoute(events, ids, i, blockStart), TargetedAt(events, ids, i), blockStart)
  {
    if events != [] {
      ForRouteCarries(events[..|events| - 1], ids, i, blockStart);
    }
  }

  /** No overflow: every buffer had room for all its events. */
  lemma {:induction false} NoneOverflowed(events: seq<ScheduledEvent>, ids: seq<nat>, room: seq<nat>, start: int,
    i: nat)
    requires |ids| == |room| && i < |ids| && RouteAll(events, ids, room, start).overflow == 0
    ensures |RouteAll(events, ids, room, start).contents[i]| == |ForRoute(events, ids, i, start)| <= room[i]
  {
    if events != [] {
      NoneOverflowed(events[..|events| - 1], ids, room, start, i);
      InsertAddsOne(RouteAll(events[..|events| - 1], ids, room, start).contents[i],
        ToNode(events[|events| - 1], start));
    }
  }

  /** With room for all, the buffer of a route holds the events for its node, one by one and field by field. */
  lemma RoutedCarries(events: seq<ScheduledEvent>, ids: seq<nat>, room: seq<nat>, blockStart: int, i: nat)
    requires |ids| == |room| && i < |ids| && Ascending(events) && forall k :: 0 <= k < |events| ==> Sound(events[k])
    requires RouteAll(events, ids, room, blockStart).overflow == 0
    ensures CarriesAll(RouteAll(events, ids, room, blockStart).contents[i], TargetedAt(events, ids, i), blockStart)
  {
    NoneOverflowed(events, ids, room, blockStart, i);
    BufferIsInAcceptanceOrder(events, ids, room, blockStart, i);
    ForRouteCarries(events, ids, i, blockStart);
  }

  /** The same of all routes of a block. */
  ghost predicate AllCarried(contents: seq<seq<NodeEvent>>, due: seq<ScheduledEvent>, ids: seq<nat>, blockStart: int) {
    |contents| == |ids| && forall i :: 0 <= i < |ids| ==> CarriesAll(contents[i], TargetedAt(due, ids, i), blockStart)
  }

  lemma BlockCarries(events: seq<ScheduledEvent>, due: nat, ids: seq<nat>, room: seq<nat>, blockStart: int)
    requires |ids| == |room| && due <= |events| && RouteAll(events[..due], ids, room, blockStart).overflow == 0
    requires Ascending(events) && forall k :: 0 <= k < |events| ==> Sound(events[k])
    ensures AllCarried(RouteAll(events[..due], ids, room, blockStart).contents, events[..due], ids, blockStart) == true
  {
    assert forall k :: 0 <= k < due ==> events[..due][k] == events[k];
    forall i | 0 <= i < |ids|
      ensures CarriesAll(RouteAll(events[..due], ids, room, blockStart).contents[i], TargetedAt(events[..due], ids, i),
        blockStart)
    {
      RoutedCarries(events[..due], ids, room, blockStart, i);
    }
  }

  /** Whatever the room, a buffer holds nothing but events for its node, with all that they carry. */
  lemma {:induction false} NothingIsInvented(events: seq<ScheduledEvent>, ids: seq<nat>, room: seq<nat>,
    blockStart: int, i: nat)
    requires |ids| == |room| && i < |ids|
    ensures forall n :: n in RouteAll(events, ids, room, blockStart).contents[i] ==>
      Stems(n, events, ids[i], blockStart)
  {
    if events != [] {
      var before, e := events[..|events| - 1], events[|events| - 1];
      NothingIsInvented(before, ids, room, blockStart, i);
      var buffer := RouteAll(before, ids, room, blockStart).contents[i];
      InsertAddsOne(buffer, ToNode(e, blockStart));
      forall n | n in RouteAll(events, ids, room, blockStart).contents[i] ensures Stems(n, events, ids[i], blockStart) {
        if n in buffer {
          var k :| 0 <= k < |before| && StemsFrom(n, before[k], ids[i], blockStart);
          assert StemsFrom(n, events[k], ids[i], blockStart);
        } else {
          assert n in multiset(Insert(buffer, ToNode(e, blockStart)));
          assert StemsFrom(n, events[|events| - 1], ids[i], blockStart);
        }
      }
    }
  }

  ghost predicate Stems(n: NodeEvent, events: seq<ScheduledEvent>, node: nat, blockStart: int) {
    exists k :: 0 <= k < |events| && StemsFrom(n, events[k], node, blockStart)
  }

  predicate StemsFrom(n: NodeEvent, e: ScheduledEvent, node: nat, blockStart: int) {
    e.targetNode == node
    && Carries(n, e, if e.samplePosition < blockStart then 0 else e.samplePosition - blockStart)
  }

  lemma InsertedOffsets(s: seq<NodeEvent>, e: NodeEvent, frameCount: nat)
    requires InOrder(s) && 0 <= e.sampleOffset < frameCount && forall k :: 0 <= k < |s| ==>
      0 <= s[k].sampleOffset < frameCount
    ensures forall k :: 0 <= k < |Insert(s, e)| ==> 0 <= Insert(s, e)[k].sampleOffset < frameCount
  {
    InsertKeepsOrder(s, e);
  }

  /** What acceptance checks of an event. */
  predicate Sound(e: ScheduledEvent) {
    e.targetNode != 0 && e.parameter != 0 && e.samplePosition >= 0 && ValidDuration(e.kind, e.duration)
  }

  // ----- the path itself

  ghost predicate BuffersValid(buffers: seq<ParameterEventBuffer>)
    reads buffers
  {
    && (forall i :: 0 <= i < |buffers| ==> buffers[i].Valid())
    && (forall i, j :: 0 <= i < j < |buffers| ==> buffers[i] != buffers[j] && buffers[i].events != buffers[j].events)
  }

  ghost function Arrays(buffers: seq<ParameterEventBuffer>): set<object> {
    set b | b in buffers :: b.events as object
  }

  ghost predicate BuffersHold(buffers: seq<ParameterEventBuffer>, contents: seq<seq<NodeEvent>>)
    requires BuffersValid(buffers)
    reads buffers, Arrays(buffers)
  {
    |contents| == |buffers| && forall i :: 0 <= i < |buffers| ==> buffers[i].Contents() == contents[i]
  }

  ghost function Rooms(buffers: seq<ParameterEventBuffer>): (room: seq<nat>)
    ensures |room| == |buffers|
  {
    seq(|buffers|, i requires 0 <= i < |buffers| => buffers[i].events.Length)
  }

  datatype Counters = Counters(invalid: nat, rejected: nat, routed: nat, late: nat, unknown: nat, overflow: nat)

  method ClearAll(buffers: seq<ParameterEventBuffer>)
    requires BuffersValid(buffers)
    modifies buffers
    ensures BuffersValid(buffers) && forall i :: 0 <= i < |buffers| ==> buffers[i].Contents() == []
  {
    var k := 0;
    while k < |buffers|
      invariant 0 <= k <= |buffers| && BuffersValid(buffers)
      invariant forall i :: 0 <= i < k ==> buffers[i].Contents() == []
    {
      buffers[k].Clear();
      k := k + 1;
    }
  }

  /** Adds an event to one buffer; the others stay as they are. */
  method DeliverTo(buffers: seq<ParameterEventBuffer>, i: nat, n: NodeEvent, ghost contents: seq<seq<NodeEvent>>)
    returns (ok: bool)
    requires BuffersValid(buffers) && BuffersHold(buffers, contents) && i < |buffers|
    modifies buffers[i], buffers[i].events
    ensures BuffersValid(buffers)
    ensures ok <==> Acceptable(n) && |contents[i]| < buffers[i].events.Length
    ensures BuffersHold(buffers, if ok then contents[i := Insert(contents[i], n)] else contents) == true
  {
    ok := buffers[i].Add(n);
    forall j | 0 <= j < |buffers| && j != i ensures buffers[j].Contents() == contents[j] {
      assert buffers[j] != buffers[i] && buffers[j].events != buffers[i].events;
    }
  }

  /** Routes one event. */
  method RouteEvent(buffers: seq<ParameterEventBuffer>, ids: seq<nat>, e: ScheduledEvent, blockStart: int,
    ghost r: Routing, tally: Counters)
    returns (now: Counters, ghost next: Routing)
    requires BuffersValid(buffers) && BuffersHold(buffers, r.contents) && |ids| == |buffers|
    modifies buffers, Arrays(buffers)
    ensures BuffersValid(buffers)
    ensures next == RouteOne(r, e, ids, Rooms(buffers), blockStart) && BuffersHold(buffers, next.contents) == true
    ensures now == Added(tally, r, next)
  {
    next := RouteOne(r, e, ids, Rooms(buffers), blockStart);
    now := tally;
    var offset := 0;
    if e.samplePosition < blockStart {
      now := now.(late := now.late + 1);
    } else {
      offset := e.samplePosition - blockStart;
    }
    var n := NodeEvent(e.parameter, offset, e.value, e.kind, e.duration, e.sequence);
    var route := FindRoute(ids, e.targetNode);
    OneRouted(r, e, ids, Rooms(buffers), blockStart, tally);
    if route == |ids| {
      now := now.(unknown := now.unknown + 1);
      return;
    }
    var ok := DeliverTo(buffers, route, n, r.contents);
    now := if ok then now.(routed := now.routed + 1) else now.(overflow := now.overflow + 1);
  }

  lemma OneRouted(r: Routing, e: ScheduledEvent, ids: seq<nat>, room: seq<nat>, blockStart: int, tally: Counters)
    requires |r.contents| == |ids| == |room|
    ensures var next, i, n := RouteOne(r, e, ids, room, blockStart), RouteOf(ids, e.targetNode), ToNode(e, blockStart);
      var ok, late := i < |ids| && Acceptable(n)
        && |r.contents[i]| < room[i], tally.late + if e.samplePosition < blockStart then 1 else 0;
      && next.contents == (if ok then r.contents[i := Insert(r.contents[i], n)] else r.contents)
      && Added(tally, r, next) ==
         if ok then tally.(late := late, routed := tally.routed + 1)
         else if i < |ids| then tally.(late := late, overflow := tally.overflow + 1) else tally.(late := late, unknown := tally.unknown + 1)
  {}

  /** Counters that have seen what happened between two states of a block. */
  function Added(tally: Counters, r: Routing, next: Routing): Counters
    requires next.routed >= r.routed && next.late >= r.late && next.unknown >= r.unknown && next.overflow >= r.overflow
  {
    tally.(routed := tally.routed + (next.routed - r.routed), late := tally.late + (next.late - r.late),
           unknown := tally.unknown + (next.unknown - r.unknown),
             overflow := tally.overflow + (next.overflow - r.overflow))
  }

  method FindRoute(ids: seq<nat>, node: nat) returns (route: nat)
    ensures route == RouteOf(ids, node)
  {
    route := 0;
    while route < |ids| && ids[route] != node
      invariant 0 <= route <= |ids| && forall k :: 0 <= k < route ==> ids[k] != node
    {
      route := route + 1;
    }
  }

  /** The events taken from a queue are the due ones at its front. */
  ghost predicate TakesDue(events: seq<ScheduledEvent>, taken: seq<ScheduledEvent>, rest: seq<ScheduledEvent>,
    blockEnd: int)
  {
    events == taken + rest && forall k :: 0 <= k < |taken| ==> taken[k].samplePosition < blockEnd
  }

  lemma TakesOneMore(events: seq<ScheduledEvent>, taken: seq<ScheduledEvent>, e: ScheduledEvent,
    rest: seq<ScheduledEvent>, blockEnd: int)
    requires TakesDue(events, taken, [e] + rest, blockEnd) == true && e.samplePosition < blockEnd
    ensures TakesDue(events, taken + [e], rest, blockEnd) == true
  {}

  lemma TakenIsDue(events: seq<ScheduledEvent>, taken: seq<ScheduledEvent>, rest: seq<ScheduledEvent>, blockEnd: int)
    requires TakesDue(events, taken, rest, blockEnd) == true && (rest == [] || rest[0].samplePosition >= blockEnd)
    ensures |taken| == DueCount(events, blockEnd) && taken == events[..|taken|] && rest == events[|taken|..]
  {
    DueIsDetermined(events, blockEnd, |taken|);
  }

  /** Routes every due event at the front of the queue. */
  method RouteDue(queue: SpscQueue<ScheduledEvent>, buffers: seq<ParameterEventBuffer>, ids: seq<nat>, blockStart: int,
    blockEnd: int, before: Counters)
    returns (tally: Counters, ghost taken: seq<ScheduledEvent>)
    requires queue.Valid() && BuffersValid(buffers) && |ids| == |buffers|
    requires forall i :: 0 <= i < |buffers| ==> buffers[i].Contents() == []
    modifies queue`readPosition, queue`queued, buffers, Arrays(buffers)
    ensures queue.Valid() && BuffersValid(buffers)
    ensures TakesDue(old(queue.Contents()), taken, queue.Contents(), blockEnd) == true
    ensures queue.Contents() == [] || queue.Contents()[0].samplePosition >= blockEnd
    ensures Routed(buffers, ids, taken, blockStart, before, tally) == true
  {
    taken := [];
    tally := before;
    var more, head := queue.TryPeek();
    while more && head.samplePosition < blockEnd
      invariant queue.Valid() && BuffersValid(buffers)
      invariant TakesDue(old(queue.Contents()), taken, queue.Contents(), blockEnd) == true
      invariant more == (queue.Contents() != []) && (more ==> head == queue.Contents()[0])
      invariant Routed(buffers, ids, taken, blockStart, before, tally) == true
      decreases |queue.Contents()|
    {
      tally, taken := RouteHead(queue, buffers, ids, old(queue.Contents()), taken, blockStart, blockEnd, before, tally);
      more, head := queue.TryPeek();
    }
  }

  /** Takes the event at the front of the queue, which is due, and routes it. */
  method RouteHead(queue: SpscQueue<ScheduledEvent>, buffers: seq<ParameterEventBuffer>, ids: seq<nat>,
    ghost events: seq<ScheduledEvent>, ghost taken: seq<ScheduledEvent>, blockStart: int, ghost blockEnd: int,
    ghost before: Counters, tally: Counters)
    returns (now: Counters, ghost longer: seq<ScheduledEvent>)
    requires queue.Valid() && BuffersValid(buffers) && |ids| == |buffers|
      && Routed(buffers, ids, taken, blockStart, before, tally) == true
    requires TakesDue(events, taken, queue.Contents(), blockEnd) == true && queue.Contents() != []
      && queue.Contents()[0].samplePosition < blockEnd
    modifies queue`readPosition, queue`queued, buffers, Arrays(buffers)
    ensures queue.Valid() && |queue.Contents()| < |old(queue.Contents())|
    ensures BuffersValid(buffers)
    ensures (TakesDue(events, longer, queue.Contents(), blockEnd)
      && Routed(buffers, ids, longer, blockStart, before, now)) == true
  {
    var popped, e := queue.TryPop();
    TakesOneMore(events, taken, e, queue.Contents(), blockEnd);
    now := RouteNext(buffers, ids, taken, e, blockStart, before, tally);
    longer := taken + [e];
  }

  /** Empties the buffers and routes what is due before the end of the block. */
  method RouteBlock(queue: SpscQueue<ScheduledEvent>, buffers: seq<ParameterEventBuffer>, ids: seq<nat>,
    frameCount: nat, blockStart: int, before: Counters)
    returns (tally: Counters, ghost due: nat)
    requires queue.Valid() && BuffersValid(buffers) && |ids| == |buffers|
    modifies queue`readPosition, queue`queued, buffers, Arrays(buffers)
    ensures queue.Valid() && BuffersValid(buffers)
    ensures due == DueCount(old(queue.Contents()), BlockEnd(blockStart, frameCount))
      && queue.Contents() == old(queue.Contents())[due..]
    ensures forall i :: 0 <= i < |buffers| ==>
      buffers[i].Contents() == RouteAll(old(queue.Contents())[..due], ids, Rooms(buffers), blockStart).contents[i]
    ensures tally == Plus(before, RouteAll(old(queue.Contents())[..due], ids, Rooms(buffers), blockStart))
  {
    ClearAll(buffers);
    ghost var taken;
    tally, taken := RouteDue(queue, buffers, ids, blockStart, BlockEnd(blockStart, frameCount), before);
    due := |taken|;
    TakenIsDue(old(queue.Contents()), taken, queue.Contents(), BlockEnd(blockStart, frameCount));
    RoutedCounts(buffers, ids, taken, blockStart, before, tally);
  }

  lemma RoutedCounts(buffers: seq<ParameterEventBuffer>, ids: seq<nat>, events: seq<ScheduledEvent>, blockStart: int,
    before: Counters, tally: Counters)
    requires BuffersValid(buffers) && |ids| == |buffers|
      && Routed(buffers, ids, events, blockStart, before, tally) == true
    ensures tally == Plus(before, RouteAll(events, ids, Rooms(buffers), blockStart))
    ensures forall i :: 0 <= i < |buffers| ==>
      buffers[i].Contents() == RouteAll(events, ids, Rooms(buffers), blockStart).contents[i]
  {}

  /** The buffers and the counters after routing a list of events into empty buffers. */
  ghost predicate Routed(buffers: seq<ParameterEventBuffer>, ids: seq<nat>, events: seq<ScheduledEvent>,
    blockStart: int, before: Counters, tally: Counters)
    requires BuffersValid(buffers) && |ids| == |buffers|
    reads buffers, Arrays(buffers)
  {
    var r := RouteAll(events, ids, Rooms(buffers), blockStart);
    BuffersHold(buffers, r.contents) && tally == Plus(before, r)
  }

  method RouteNext(buffers: seq<ParameterEventBuffer>, ids: seq<nat>, ghost events: seq<ScheduledEvent>,
    e: ScheduledEvent, blockStart: int, ghost before: Counters, tally: Counters)
    returns (now: Counters)
    requires BuffersValid(buffers) && |ids| == |buffers|
      && Routed(buffers, ids, events, blockStart, before, tally) == true
    modifies buffers, Arrays(buffers)
    ensures BuffersValid(buffers)
    ensures Routed(buffers, ids, events + [e], blockStart, before, now) == true
  {
    ghost var room := Rooms(buffers);
    ghost var next;
    now, next := RouteEvent(buffers, ids, e, blockStart, RouteAll(events, ids, room, blockStart), tally);
    assert (events + [e])[..|events|] == events;
  }

  function Plus(c: Counters, r: Routing): Counters {
    Counters(c.invalid, c.rejected, c.routed + r.routed, c.late + r.late, c.unknown + r.unknown,
      c.overflow + r.overflow)
  }

  /** Accepted events are sound, numbered below `next` and ascending; the last of them wait in the queue, and every
      other one has been counted exactly once. (Behind a quantifier so that methods carry it as one fact.) */
  ghost predicate History(accepted: seq<ScheduledEvent>, last: int, next: nat, waiting: seq<ScheduledEvent>,
    counted: nat)
  {
    (forall seal: bool {:trigger HistoryFacts(accepted, last, next, waiting, counted, seal)} :: HistoryFacts(accepted,
      last, next, waiting, counted, seal)) == true
  }

  ghost predicate HistoryFacts(accepted: seq<ScheduledEvent>, last: int, next: nat, waiting: seq<ScheduledEvent>,
    counted: nat, seal: bool)
  {
    && Ascending(accepted) && (forall k :: 0 <= k < |accepted| ==> Sound(accepted[k]) && accepted[k].sequence < next)
    && last == (if accepted == [] then -1 else accepted[|accepted| - 1].samplePosition)
    && |waiting| <= |accepted| && waiting == accepted[|accepted| - |waiting|..]
    && |accepted| == counted + |waiting|
  }

  lemma NoHistory()
    ensures History([], -1, 1, [], 0)
  {}

  lemma HistoryGrows(accepted: seq<ScheduledEvent>, last: int, next: nat, waiting: seq<ScheduledEvent>, counted: nat,
    e: ScheduledEvent)
    requires History(accepted, last, next, waiting, counted) && Sound(e) && e.sequence == next
      && e.samplePosition >= last
    ensures History(accepted + [e], e.samplePosition, next + 1, waiting + [e], counted)
    ensures History(accepted, last, next + 1, waiting, counted)
  {
    assert HistoryFacts(accepted, last, next, waiting, counted, true);
    forall k | 0 <= k < |accepted| ensures accepted[k].samplePosition <= e.samplePosition {
      assert accepted[k].samplePosition <= accepted[|accepted| - 1].samplePosition;
    }
  }

  lemma HistoryMoves(accepted: seq<ScheduledEvent>, last: int, next: nat, waiting: seq<ScheduledEvent>, counted: nat,
    done: nat)
    requires History(accepted, last, next, waiting, counted) == true && done <= |waiting|
    ensures History(accepted, last, next, waiting[done..], counted + done) == true
  {
    assert HistoryFacts(accepted, last, next, waiting, counted, true);
    assert accepted[|accepted| - |waiting|..][done..] == accepted[|accepted| - |waiting[done..]|..];
  }

  /** Routing `done` events counts each of them once. */
  lemma RoutingMovesHistory(accepted: seq<ScheduledEvent>, last: int, next: nat, waiting: seq<ScheduledEvent>,
    before: Counters, done: nat, ids: seq<nat>, room: seq<nat>, blockStart: int, tally: Counters,
    rest: seq<ScheduledEvent>)
    requires History(accepted, last, next, waiting, Counted(before)) == true && done <= |waiting| && |ids| == |room|
      && rest == waiting[done..]
    requires tally == Plus(before, RouteAll(waiting[..done], ids, room, blockStart))
    ensures History(accepted, last, next, rest, Counted(tally)) == true
    ensures tally.routed - before.routed == RouteAll(waiting[..done], ids, room, blockStart).routed
  {
    RoutingCounts(waiting[..done], ids, room, blockStart);
    HistoryMoves(accepted, last, next, waiting, Counted(before), done);
  }

  function Counted(c: Counters): nat {
    c.routed + c.unknown + c.overflow
  }

  class ParameterPath {
    const queue: SpscQueue<ScheduledEvent>
    const ids: seq<nat>
    const buffers: seq<ParameterEventBuffer>
    var lastEnqueuedSample: int
    var nextSequence: nat
    var counters: Counters
    ghost var accepted: seq<ScheduledEvent>

    constructor (capacity: nat, ids: seq<nat>, buffers: seq<ParameterEventBuffer>)
      requires capacity > 0 && |ids| == |buffers| && BuffersValid(buffers)
      ensures Valid() && fresh(queue) && fresh(queue.storage) && accepted == [] && this.ids == ids
        && this.buffers == buffers
      ensures counters == Counters(0, 0, 0, 0, 0, 0) && nextSequence == 1
    {
      queue := new SpscQueue(capacity);
      this.ids, this.buffers := ids, buffers;
      lastEnqueuedSample, nextSequence, counters, accepted := -1, 1, Counters(0, 0, 0, 0, 0, 0), [];
      NoHistory();
    }

    ghost predicate Valid()
      reads this, queue, queue.storage, buffers
    {
      && queue.Valid() && |ids| == |buffers| && BuffersValid(buffers)
      && History(accepted, lastEnqueuedSample, nextSequence, queue.Contents(), Counted(counters)) == true
    }

    /** Nothing is lost: accepted events are delivered, unknown, overflowed or still queued. */
    lemma EveryEventIsCounted()
      requires Valid()
      ensures |accepted| == counters.routed + counters.unknown + counters.overflow + |queue.Contents()|
    {
      assert HistoryFacts(accepted, lastEnqueuedSample, nextSequence, queue.Contents(), Counted(counters), true);
    }

    /** What waits is the end of what was accepted. */
    lemma WaitingIsAccepted()
      requires Valid()
      ensures |queue.Contents()| <= |accepted| && queue.Contents() == accepted[|accepted| - |queue.Contents()|..]
      ensures Ascending(queue.Contents()) && forall k :: 0 <= k < |queue.Contents()| ==> Sound(queue.Contents()[k])
    {
      assert HistoryFacts(accepted, lastEnqueuedSample, nextSequence, queue.Contents(), Counted(counters), true);
    }

    /** `enqueueParameterChange`: accepts a sound event that is not before the last accepted one, while the queue has
        room. */
    method Enqueue(targetNode: nat, parameter: nat, samplePosition: int, value: real, kind: EventKind, duration: int)
      returns (ok: bool)
      requires Valid()
      modifies this`lastEnqueuedSample, this`nextSequence, this`counters, this`accepted, queue, queue.storage
      ensures Valid()
      ensures var e := ScheduledEvent(targetNode, parameter, samplePosition, value, kind, duration, old(nextSequence));
        && (ok <==> Sound(e) && samplePosition >= old(lastEnqueuedSample) && |old(queue.Contents())| < queue.capacity)
        && accepted == (if ok then old(accepted) + [e] else old(accepted))
        && queue.Contents() == (if ok then old(queue.Contents()) + [e] else old(queue.Contents()))
      ensures counters == old(counters).(invalid := counters.invalid, rejected := counters.rejected)
      ensures counters.invalid + counters.rejected
        == old(counters).invalid + old(counters).rejected + if ok then 0 else 1
      ensures ok ==> nextSequence == old(nextSequence) + 1
    {
      var e := ScheduledEvent(targetNode, parameter, samplePosition, value, kind, duration, nextSequence);
      if targetNode == 0 || parameter == 0 || samplePosition < 0 || !ValidDuration(kind, duration) || samplePosition < lastEnqueuedSample {
        counters := counters.(invalid := counters.invalid + 1);
        return false;
      }
      HistoryGrows(accepted, lastEnqueuedSample, nextSequence, queue.Contents(), Counted(counters), e);
      nextSequence := nextSequence + 1;
      ok := queue.TryPush(e);
      if !ok {
        counters := counters.(rejected := counters.rejected + 1);
        return;
      }
      accepted := accepted + [e];
      lastEnqueuedSample := samplePosition;
    }

    /** `routeParameterEvents`: takes exactly the due events from the queue and puts each where it belongs. */
    method RouteParameterEvents(frameCount: nat, blockStart: int) returns (routed: nat)
      requires Valid()
      modifies this`counters, queue`readPosition, queue`queued, buffers, Arrays(buffers)
      ensures Valid() && accepted == old(accepted)
      ensures var events := old(queue.Contents()); var due := DueCount(events, BlockEnd(blockStart, frameCount));
        var r := RouteAll(events[..due], ids, Rooms(buffers), blockStart);
        && queue.Contents() == events[due..] && counters == Plus(old(counters), r) && routed == r.routed
        && (forall i :: 0 <= i < |buffers| ==> buffers[i].Contents() == r.contents[i])
        && (counters.overflow == old(counters).overflow ==>
          AllCarried(r.contents, events[..due], ids, blockStart) == true)
        && Parted(events, due, blockStart, frameCount) == true
        && Tallied(old(counters), events[..due], ids, blockStart, counters) == true
    {
      var before := counters;
      ghost var events := queue.Contents();
      WaitingIsAccepted();
      ghost var due;
      counters, due := RouteBlock(queue, buffers, ids, frameCount, blockStart, counters);
      RoutingMovesHistory(accepted, lastEnqueuedSample, nextSequence, events, before, due, ids, Rooms(buffers),
        blockStart, counters, queue.Contents());
      if counters.overflow == before.overflow { BlockCarries(events, due, ids, Rooms(buffers), blockStart); }
      BlockIsParted(events, due, blockStart, frameCount);
      BlockIsTallied(before, events[..due], ids, Rooms(buffers), blockStart, counters);
      routed := counters.routed - before.routed;
    }
  }
}
