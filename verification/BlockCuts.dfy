/** Parameter automation across block boundaries: a track rendered block by block, with events arriving between the
    blocks, sounds as if it had been rendered in one piece. */
module BlockCuts {
  import opened ParameterEvents
  import opened ParameterRouting
  import opened TrackNodes

  // ----- routing two stretches

  lemma {:induction false} ForRouteConcat(a: seq<ScheduledEvent>, b: seq<ScheduledEvent>, ids: seq<nat>, i: nat,
    start: int)
    ensures ForRoute(a + b, ids, i, start) == ForRoute(a, ids, i, start) + ForRoute(b, ids, i, start)
  {
    if b == [] {
      assert a + b == a;
    } else {
      ForRouteConcat(a, b[..|b| - 1], ids, i, start);
      assert (a + b)[..|a + b| - 1] == a + b[..|b| - 1];
    }
  }

  lemma {:induction false} AtFrameConcat(a: seq<NodeEvent>, b: seq<NodeEvent>, f: int)
    ensures AtFrame(a + b, f) == AtFrame(a, f) + AtFrame(b, f)
  {
    if b == [] {
      assert a + b == a;
    } else {
      AtFrameConcat(a, b[..|b| - 1], f);
      assert (a + b)[..|a + b| - 1] == a + b[..|b| - 1];
    }
  }

  /** Events outside a frame's position leave the frame empty. */
  lemma {:induction false} NothingAtFrame(events: seq<ScheduledEvent>, ids: seq<nat>, i: nat, start: int, f: nat)
    requires forall k :: 0 <= k < |events| ==>
      events[k].samplePosition >= start && events[k].samplePosition != start + f
    ensures AtFrame(ForRoute(events, ids, i, start), f) == []
  {
    if events != [] { NothingAtFrame(events[..|events| - 1], ids, i, start, f); }
  }

  /** A frame of a later block, counted from the start of the run or from the start of the block. */
  lemma {:induction false} FrameOfLaterBlock(events: seq<ScheduledEvent>, ids: seq<nat>, i: nat, start: int, a: nat,
    f: nat)
    requires forall k :: 0 <= k < |events| ==> events[k].samplePosition >= start + a
    ensures AtFrame(ForRoute(events, ids, i, start), a + f) == AtFrame(ForRoute(events, ids, i, start + a), f)
  {
    if events != [] { FrameOfLaterBlock(events[..|events| - 1], ids, i, start, a, f); }
  }

  /** Events of the first `a` frames and events of the following `b` frames make up the timeline of both. */
  lemma BlocksJoin(gone: seq<ScheduledEvent>, due: seq<ScheduledEvent>, ids: seq<nat>, i: nat, start: int, a: nat,
    b: nat, total: nat)
    requires total == a + b
    requires forall k :: 0 <= k < |gone| ==> start <= gone[k].samplePosition < start + a
    requires forall k :: 0 <= k < |due| ==> start + a <= due[k].samplePosition
    ensures Timeline(ForRoute(gone + due, ids, i, start), total)
         == Timeline(ForRoute(gone, ids, i, start), a) + Timeline(ForRoute(due, ids, i, start + a), b)
  {
    var first, second := ForRoute(gone, ids, i, start), ForRoute(due, ids, i, start);
    ForRouteConcat(gone, due, ids, i, start);
    forall f | 0 <= f < total
      ensures AtFrame(first + second, f)
        == if f < a then AtFrame(first, f) else AtFrame(ForRoute(due, ids, i, start + a), f - a)
    {
      AtFrameConcat(first, second, f);
      if f < a {
        NothingAtFrame(due, ids, i, start, f);
      } else {
        NothingAtFrame(gone, ids, i, start, f);
        FrameOfLaterBlock(due, ids, i, start, a, f - a);
      }
    }
  }

  /** Events at or after the end of the run are not part of it. */
  lemma LaterEventsDoNotMatter(gone: seq<ScheduledEvent>, more: seq<ScheduledEvent>, ids: seq<nat>, i: nat, start: int,
    a: nat)
    requires forall k :: 0 <= k < |gone| ==> start <= gone[k].samplePosition < start + a
    requires a == 0 || forall k :: 0 <= k < |more| ==> start + a <= more[k].samplePosition
    ensures Timeline(ForRoute(gone + more, ids, i, start), a) == Timeline(ForRoute(gone, ids, i, start), a)
  {
    if a > 0 {
      BlocksJoin(gone, more, ids, i, start, a, 0, a);
      assert Timeline(ForRoute(more, ids, i, start + a), 0) == [];
    }
  }

  // ----- the events of a frame, said of the accepted events

  /** The events for a node at one position, in order, with all that they carry. */
  function AtPosition(events: seq<ScheduledEvent>, node: nat, position: int): seq<NodeEvent> {
    if events == [] then []
    else
      var before, e := AtPosition(events[..|events| - 1], node, position), events[|events| - 1];
      if e.targetNode == node && e.samplePosition == position
      then before + [NodeEvent(e.parameter, 0, e.value, e.kind, e.duration, e.sequence)]
      else before
  }

  /** The events a function above picks. */
  function Chosen(events: seq<ScheduledEvent>, node: nat, position: int): seq<ScheduledEvent> {
    if events == [] then []
    else
      var before, e := Chosen(events[..|events| - 1], node, position), events[|events| - 1];
      if e.targetNode == node && e.samplePosition == position then before + [e] else before
  }

  /** Exactly the accepted events for the node at the position, in the order of acceptance, field by field. */
  lemma {:induction false} AtPositionCarries(events: seq<ScheduledEvent>, node: nat, position: int)
    ensures var frame, chosen := AtPosition(events, node, position), Chosen(events, node, position);
      && |frame| == |chosen| && (forall j :: 0 <= j < |frame| ==> Carries(frame[j], chosen[j], 0))
      && (forall e :: e in chosen <==> e in events && e.targetNode == node && e.samplePosition == position)
      && (Ascending(events) ==> forall i, j :: 0 <= i < j < |chosen| ==> chosen[i].sequence < chosen[j].sequence)
  {
    if events != [] {
      var last := |events| - 1;
      AtPositionCarries(events[..last], node, position);
      assert forall e :: e in events <==> e in events[..last] || e == events[last];
    }
  }

  lemma {:induction false} AtPositionConcat(a: seq<ScheduledEvent>, b: seq<ScheduledEvent>, node: nat, position: int)
    ensures AtPosition(a + b, node, position) == AtPosition(a, node, position) + AtPosition(b, node, position)
  {
    if b == [] {
      assert a + b == a;
    } else {
      AtPositionConcat(a, b[..|b| - 1], node, position);
      assert (a + b)[..|a + b| - 1] == a + b[..|b| - 1];
    }
  }

  lemma {:induction false} NothingAtPosition(events: seq<ScheduledEvent>, node: nat, position: int)
    requires forall k :: 0 <= k < |events| ==> events[k].samplePosition != position
    ensures AtPosition(events, node, position) == []
  {
    if events != [] { NothingAtPosition(events[..|events| - 1], node, position); }
  }

  /** A buffer that carries the events of a node gives each frame those at its position. */
  lemma {:induction false} FrameOfHeld(buffer: seq<NodeEvent>, events: seq<ScheduledEvent>, node: nat, start: int,
    f: nat)
    requires CarriesAll(buffer, Targeted(events, node), start)
    requires forall k :: 0 <= k < |events| ==> events[k].samplePosition >= start
    ensures AtFrame(buffer, f) == AtPosition(events, node, start + f)
  {
    if events != [] {
      var last := |events| - 1;
      if events[last].targetNode == node {
        FrameOfHeld(buffer[..|buffer| - 1], events[..last], node, start, f);
      } else {
        FrameOfHeld(buffer, events[..last], node, start, f);
      }
    }
  }

  /** The events of each frame of a run for the node of a route. */
  function RunFrames(events: seq<ScheduledEvent>, ids: seq<nat>, i: nat, start: int, length: nat): seq<seq<NodeEvent>>
    requires i < |ids|
  {
    seq(length, f requires 0 <= f < length => if RouteOf(ids, ids[i]) == i then AtPosition(events, ids[i], start + f) else [])
  }

  lemma FramesOfRoute(events: seq<ScheduledEvent>, ids: seq<nat>, i: nat, start: int, length: nat)
    requires i < |ids| && forall k :: 0 <= k < |events| ==> events[k].samplePosition >= start
    ensures Timeline(ForRoute(events, ids, i, start), length) == RunFrames(events, ids, i, start, length)
  {
    ForRouteCarries(events, ids, i, start);
    if RouteOf(ids, ids[i]) == i {
      forall f | 0 <= f < length
        ensures AtFrame(ForRoute(events, ids, i, start), f) == AtPosition(events, ids[i], start + f) {
        FrameOfHeld(ForRoute(events, ids, i, start), events, ids[i], start, f);
      }
    }
  }

  // ----- what the counters say

  /** Nothing late: every routed event is at or after the start of the block. */
  lemma {:induction false} NoneLate(events: seq<ScheduledEvent>, ids: seq<nat>, room: seq<nat>, start: int)
    requires |ids| == |room| && RouteAll(events, ids, room, start).late == 0
    ensures forall k :: 0 <= k < |events| ==> events[k].samplePosition >= start
  {
    if events != [] { NoneLate(events[..|events| - 1], ids, room, start); }
  }

  // ----- rendering two stretches

  /** What a track makes of its input when the events of every frame are known. */
  ghost predicate Rendered(s: TrackState, frames: seq<seq<NodeEvent>>, input: seq<seq<real>>, output: seq<seq<real>>,
    channels: nat)
  {
    && |output| == |input|
    && forall c :: 0 <= c < |input| ==>
         |input[c]| == |output[c]| == |frames| && RowRendered(s, frames, input[c], output[c], c, channels)
  }

  ghost predicate RowRendered(s: TrackState, frames: seq<seq<NodeEvent>>, input: seq<real>, output: seq<real>, c: nat,
    channels: nat)
    requires |input| == |output| == |frames|
  {
    forall k :: 0 <= k < |frames| ==>
      output[k] == if c < channels then Shaped(After(s, frames[..k + 1]), c, input[k]) else input[k]
  }

  /** The output is determined. */
  lemma RenderingIsUnique(s: TrackState, frames: seq<seq<NodeEvent>>, input: seq<seq<real>>, a: seq<seq<real>>,
    b: seq<seq<real>>, channels: nat)
    requires Rendered(s, frames, input, a, channels) && Rendered(s, frames, input, b, channels)
    ensures a == b
  {
    forall c | 0 <= c < |a| ensures a[c] == b[c] {
      assert RowRendered(s, frames, input[c], a[c], c, channels) && RowRendered(s, frames, input[c], b[c], c, channels);
    }
  }

  lemma RowsJoin(s: TrackState, first: seq<seq<NodeEvent>>, second: seq<seq<NodeEvent>>, a: seq<real>, x: seq<real>,
    b: seq<real>, y: seq<real>, c: nat, channels: nat)
    requires |a| == |x| == |first| && |b| == |y| == |second|
    requires RowRendered(s, first, a, x, c, channels) && RowRendered(After(s, first), second, b, y, c, channels)
    ensures RowRendered(s, first + second, a + b, x + y, c, channels)
  {
    forall k | 0 <= k < |first + second|
      ensures (x + y)[k] == if c < channels then Shaped(After(s, (first + second)[..k + 1]), c, (a + b)[k]) else (a + b)[k]
    {
      if k < |first| {
        assert (first + second)[..k + 1] == first[..k + 1];
      } else {
        assert (first + second)[..k + 1] == first + second[..k + 1 - |first|];
        RunsCompose(s, first, second[..k + 1 - |first|]);
      }
    }
  }

  function Appended(a: seq<seq<real>>, b: seq<seq<real>>): seq<seq<real>>
    requires |a| == |b|
  {
    seq(|a|, c requires 0 <= c < |a| => a[c] + b[c])
  }

  function Stretch(rows: seq<seq<real>>, from: nat, to: nat): seq<seq<real>>
    requires from <= to && forall c :: 0 <= c < |rows| ==> to <= |rows[c]|
  {
    seq(|rows|, c requires 0 <= c < |rows| => rows[c][from..to])
  }

  lemma RenderingJoins(s: TrackState, first: seq<seq<NodeEvent>>, second: seq<seq<NodeEvent>>, input: seq<seq<real>>,
    x: seq<seq<real>>, y: seq<seq<real>>, channels: nat, total: nat)
    requires total == |first| + |second| && forall c :: 0 <= c < |input| ==> total <= |input[c]|
    requires Rendered(s, first, Stretch(input, 0, |first|), x, channels) == true
    requires Rendered(After(s, first), second, Stretch(input, |first|, total), y, channels) == true
    ensures |x| == |y| && Rendered(s, first + second, Stretch(input, 0, total), Appended(x, y), channels) == true
  {
    var a, b, both := Stretch(input, 0, |first|), Stretch(input, |first|, total), Stretch(input, 0, total);
    forall c | 0 <= c < |input|
      ensures |both[c]| == |first + second| && RowRendered(s, first + second, both[c], Appended(x, y)[c], c, channels)
    {
      assert RowRendered(s, first, a[c], x[c], c, channels)
        && RowRendered(After(s, first), second, b[c], y[c], c, channels);
      RowsJoin(s, first, second, a[c], x[c], b[c], y[c], c, channels);
      assert both[c] == a[c] + b[c];
    }
  }

  // ----- the run so far

  /** After `done` frames: the routed events lie in them, and the track has rendered them with these events. */
  ghost predicate RunSoFar(s: TrackState, gone: seq<ScheduledEvent>, done: nat, ids: seq<nat>, i: nat, start: int,
    now: TrackState, input: seq<seq<real>>, output: seq<seq<real>>, channels: nat)
    requires forall c :: 0 <= c < |input| ==> done <= |input[c]|
  {
    var frames := Timeline(ForRoute(gone, ids, i, start), done);
    && (forall k :: 0 <= k < |gone| ==> start <= gone[k].samplePosition < start + done)
    && now == After(s, frames) && Rendered(s, frames, Stretch(input, 0, done), output, channels)
  }

  lemma RunStarts(s: TrackState, ids: seq<nat>, i: nat, start: int, input: seq<seq<real>>, channels: nat)
    ensures RunSoFar(s, [], 0, ids, i, start, s, input, seq(|input|, _ => []), channels)
  {}

  /** One block, with nothing late and room for everything. */
  lemma RunGoesOn(s: TrackState, gone: seq<ScheduledEvent>, done: nat, ids: seq<nat>, i: nat, start: int,
    now: TrackState, input: seq<seq<real>>, output: seq<seq<real>>, channels: nat, due: seq<ScheduledEvent>, b: nat,
    total: nat, later: TrackState, block: seq<seq<real>>)
    requires Settled(s) && total == done + b && forall c :: 0 <= c < |input| ==> total <= |input[c]|
    requires RunSoFar(s, gone, done, ids, i, start, now, input, output, channels) == true
    requires forall k :: 0 <= k < |due| ==> start + done <= due[k].samplePosition < start + done + b
    requires var frames := Timeline(ForRoute(due, ids, i, start + done), b);
      later == After(Begin(now), frames)
        && Rendered(Begin(now), frames, Stretch(input, done, done + b), block, channels) == true
    ensures |output| == |block|
      && RunSoFar(s, gone + due, total, ids, i, start, later, input, Appended(output, block), channels) == true
  {
    var first, second := Timeline(ForRoute(gone, ids, i, start), done), Timeline(ForRoute(due, ids, i, start + done),
      b);
    FramesKeepSettled(s, first);
    BeginIsIdle(now);
    BlocksJoin(gone, due, ids, i, start, done, b, total);
    RunsCompose(s, first, second);
    RenderingJoins(s, first, second, input, output, block, channels, total);
    StretchJoins(gone, due, start, done, b, total);
    IsRunSoFar(s, gone + due, total, ids, i, start, later, input, Appended(output, block), channels, first + second);
  }

  lemma IsRunSoFar(s: TrackState, gone: seq<ScheduledEvent>, done: nat, ids: seq<nat>, i: nat, start: int,
    now: TrackState, input: seq<seq<real>>, output: seq<seq<real>>, channels: nat, frames: seq<seq<NodeEvent>>)
    requires forall c :: 0 <= c < |input| ==> done <= |input[c]|
    requires frames == Timeline(ForRoute(gone, ids, i, start), done) && now == After(s, frames)
    requires forall k :: 0 <= k < |gone| ==> start <= gone[k].samplePosition < start + done
    requires Rendered(s, frames, Stretch(input, 0, done), output, channels) == true
    ensures RunSoFar(s, gone, done, ids, i, start, now, input, output, channels) == true
  {}

  lemma StretchJoins(gone: seq<ScheduledEvent>, due: seq<ScheduledEvent>, start: int, a: nat, b: nat, total: nat)
    requires total == a + b
    requires forall k :: 0 <= k < |gone| ==> start <= gone[k].samplePosition < start + a
    requires forall k :: 0 <= k < |due| ==> start + a <= due[k].samplePosition < start + a + b
    ensures forall k :: 0 <= k < |gone + due| ==> start <= (gone + due)[k].samplePosition < start + total
  {}

  /** At the end: events that are still waiting belong to later frames. */
  lemma RunEnds(s: TrackState, gone: seq<ScheduledEvent>, more: seq<ScheduledEvent>, done: nat, ids: seq<nat>, i: nat,
    start: int, now: TrackState, input: seq<seq<real>>, output: seq<seq<real>>, channels: nat)
    requires forall c :: 0 <= c < |input| ==> |input[c]| == done
    requires RunSoFar(s, gone, done, ids, i, start, now, input, output, channels) == true
    requires done == 0 || forall k :: 0 <= k < |more| ==> start + done <= more[k].samplePosition
    ensures var frames := Timeline(ForRoute(gone + more, ids, i, start), done);
      now == After(s, frames) && Rendered(s, frames, input, output, channels) == true
  {
    WholeStretch(input, done);
    LaterEventsDoNotMatter(gone, more, ids, i, start, done);
  }

  lemma WholeStretch(input: seq<seq<real>>, length: nat)
    requires forall c :: 0 <= c < |input| ==> |input[c]| == length
    ensures Stretch(input, 0, length) == input
  {
    forall c | 0 <= c < |input| ensures Stretch(input, 0, length)[c] == input[c] {}
  }

  // ----- the run itself

  /** What the control thread asks for. */
  datatype Request = Request(targetNode: nat, parameter: nat, samplePosition: int, value: real, kind: EventKind, duration: int)

  /** A block of frames, and the requests that reach the queue before it. */
  datatype Block = Block(requests: seq<Request>, frames: nat)

  function Frames(blocks: seq<Block>): nat {
    if blocks == [] then 0 else Frames(blocks[..|blocks| - 1]) + blocks[|blocks| - 1].frames
  }

  /** The accepted events that have left the queue, without the first `base`. */
  function Gone(accepted: seq<ScheduledEvent>, waiting: seq<ScheduledEvent>, base: nat): seq<ScheduledEvent>
    requires base <= |accepted| - |waiting|
  {
    accepted[base..|accepted| - |waiting|]
  }

  function AsEvent(r: Request, sequence: nat): ScheduledEvent {
    ScheduledEvent(r.targetNode, r.parameter, r.samplePosition, r.value, r.kind, r.duration, sequence)
  }

  /** The event has what the request asks for, field by field. */
  predicate Asked(r: Request, e: ScheduledEvent) {
    && e.targetNode == r.targetNode && e.parameter == r.parameter && e.samplePosition == r.samplePosition
    && e.value == r.value && e.kind == r.kind && e.duration == r.duration
  }

  /** The requests as events, numbered from `first` on. */
  function Scheduled(requests: seq<Request>, first: nat): seq<ScheduledEvent> {
    seq(|requests|, k requires 0 <= k < |requests| => AsEvent(requests[k], first + k))
  }

  function Refusals(c: Counters): nat { c.invalid + c.rejected }

  /** The events stem from some of the requests, in their order. */
  ghost predicate Drawn(events: seq<ScheduledEvent>, requests: seq<Request>)
    decreases |requests|
  {
    if requests == [] then events == []
    else
      var last, end := |requests| - 1, |events| - 1;
      Drawn(events, requests[..last])
      || (events != [] && Asked(requests[last], events[end])
        && Drawn(events[..end], requests[..last]))
  }

  /** Every request has been accepted or counted as refused, and if none was refused all have been numbered in their order. */
  ghost predicate Taken(accepted0: seq<ScheduledEvent>, first: nat, refusals: nat, requests: seq<Request>,
    accepted: seq<ScheduledEvent>, next: nat, counters: Counters)
  {
    && accepted0 <= accepted && Drawn(accepted[|accepted0|..], requests)
    && |accepted| - |accepted0| + Refusals(counters) - refusals == |requests| && refusals <= Refusals(counters)
    && (refusals == Refusals(counters) ==>
      accepted == accepted0 + Scheduled(requests, first) && next == first + |requests|)
  }

  lemma OneMoreTaken(accepted0: seq<ScheduledEvent>, first: nat, refusals: nat, requests: seq<Request>,
    accepted: seq<ScheduledEvent>, next: nat, counters: Counters, r: Request, more: seq<Request>, ok: bool,
    later: seq<ScheduledEvent>, after: nat, now: Counters)
    requires Taken(accepted0, first, refusals, requests, accepted, next, counters) == true && more == requests + [r]
    requires Refusals(now) == Refusals(counters) + if ok then 0 else 1
    requires later == if ok then accepted + [AsEvent(r, next)] else accepted
    requires ok ==> after == next + 1
    ensures Taken(accepted0, first, refusals, more, later, after, now) == true
  {
    assert more[..|more| - 1] == requests;
    if ok {
      assert later[|accepted0|..] == accepted[|accepted0|..] + [AsEvent(r, next)];
      assert later[|accepted0|..][..|accepted| - |accepted0|] == accepted[|accepted0|..];
    }
    if refusals == Refusals(now) {
      assert Scheduled(more, first) == Scheduled(requests, first) + [AsEvent(r, next)];
    }
  }

  lemma {:induction false} DrawnConcat(a: seq<ScheduledEvent>, x: seq<Request>, b: seq<ScheduledEvent>, y: seq<Request>)
    requires Drawn(a, x) && Drawn(b, y)
    ensures Drawn(a + b, x + y)
    decreases |y|
  {
    if y == [] {
      assert a + b == a && x + y == x;
    } else {
      var last, end := |y| - 1, |b| - 1;
      assert (x + y)[..|x + y| - 1] == x + y[..last];
      if Drawn(b, y[..last]) {
        DrawnConcat(a, x, b, y[..last]);
      } else {
        DrawnConcat(a, x, b[..end], y[..last]);
        assert (a + b)[..|a + b| - 1] == a + b[..end];
      }
    }
  }

  lemma TakenJoin(accepted0: seq<ScheduledEvent>, first: nat, refusals: nat, a: seq<Request>,
    accepted1: seq<ScheduledEvent>, next1: nat, counters1: Counters, b: seq<Request>, accepted2: seq<ScheduledEvent>,
    next2: nat, counters2: Counters, all: seq<Request>)
    requires Taken(accepted0, first, refusals, a, accepted1, next1, counters1) == true && all == a + b
    requires Taken(accepted1, next1, Refusals(counters1), b, accepted2, next2, counters2) == true
    ensures Taken(accepted0, first, refusals, all, accepted2, next2, counters2) == true
  {
    DrawnConcat(accepted1[|accepted0|..], a, accepted2[|accepted1|..], b);
    assert accepted2[|accepted0|..] == accepted1[|accepted0|..] + accepted2[|accepted1|..];
    if refusals == Refusals(counters2) {
      assert Scheduled(all, first) == Scheduled(a, first) + Scheduled(b, next1);
    }
  }

  /** Other counters do not matter. */
  lemma SameRefusals(accepted0: seq<ScheduledEvent>, first: nat, refusals: nat, requests: seq<Request>,
    accepted: seq<ScheduledEvent>, next: nat, counters: Counters, now: Counters)
    requires Taken(accepted0, first, refusals, requests, accepted, next, counters) == true
      && Refusals(now) == Refusals(counters)
    ensures Taken(accepted0, first, refusals, requests, accepted, next, now) == true
  {}

  method EnqueueAll(path: ParameterPath, requests: seq<Request>, ghost base: nat)
    requires path.Valid() && base <= |path.accepted| - |path.queue.Contents()|
    modifies path`lastEnqueuedSample, path`nextSequence, path`counters, path`accepted, path.queue, path.queue.storage
    ensures path.Valid() && old(path.accepted) <= path.accepted
    ensures path.counters == old(path.counters).(invalid := path.counters.invalid, rejected := path.counters.rejected)
    ensures |path.accepted| - |path.queue.Contents()| == old(|path.accepted| - |path.queue.Contents()|)
    ensures Gone(path.accepted, path.queue.Contents(), base) == old(Gone(path.accepted, path.queue.Contents(), base))
    ensures Taken(old(path.accepted), old(path.nextSequence), old(Refusals(path.counters)), requests, path.accepted,
      path.nextSequence, path.counters) == true
  {
    var k := 0;
    while k < |requests|
      invariant 0 <= k <= |requests| && path.Valid() && old(path.accepted) <= path.accepted
      invariant path.counters
        == old(path.counters).(invalid := path.counters.invalid, rejected := path.counters.rejected)
      invariant |path.accepted| - |path.queue.Contents()| == old(|path.accepted| - |path.queue.Contents()|)
      invariant Taken(old(path.accepted), old(path.nextSequence), old(Refusals(path.counters)), requests[..k],
        path.accepted, path.nextSequence, path.counters) == true
    {
      var r := requests[k];
      ghost var accepted, next, counters := path.accepted, path.nextSequence, path.counters;
      var ok := path.Enqueue(r.targetNode, r.parameter, r.samplePosition, r.value, r.kind, r.duration);
      OneMoreTaken(old(path.accepted), old(path.nextSequence), old(Refusals(path.counters)), requests[..k], accepted,
        next, counters, r, requests[..k + 1], ok, path.accepted, path.nextSequence, path.counters);
      k := k + 1;
    }
    assert requests[..k] == requests;
  }

  /** A stretch of the input in buffers of its own. */
  method CopyRows(input: seq<seq<real>>, from: nat, frames: nat) returns (audio: seq<array<real>>)
    requires forall c :: 0 <= c < |input| ==> from + frames <= |input[c]|
    ensures |audio| == |input| && (forall c :: 0 <= c < |audio| ==> fresh(audio[c])) && Separate(audio, frames)
    ensures forall c :: 0 <= c < |audio| ==> audio[c][..] == input[c][from..from + frames]
  {
    audio := [];
    while |audio| < |input|
      invariant |audio| <= |input| && (forall c :: 0 <= c < |audio| ==> fresh(audio[c])) && Separate(audio, frames)
      invariant forall c :: 0 <= c < |audio| ==> audio[c][..] == input[c][from..from + frames]
    {
      var row := input[|audio|];
      var copy := new real[frames](f requires 0 <= f < frames => if from + f < |row| then row[from + f] else 0.0);
      assert copy[..] == row[from..from + frames];
      audio := audio + [copy];
    }
  }

  method ReadRows(audio: seq<array<real>>) returns (output: seq<seq<real>>)
    ensures output == Rows(audio)
  {
    output := [];
    while |output| < |audio|
      invariant |output| <= |audio| && output == Rows(audio)[..|output|]
    {
      output := output + [audio[|output|][..]];
    }
  }

  /** The track renders one block with the events in its buffer. */
  method RenderRows(node: TrackNode, events: ParameterEventBuffer, input: seq<seq<real>>, from: nat, frames: nat)
    returns (output: seq<seq<real>>)
    requires node.Valid() && forall c :: 0 <= c < |input| ==> from + frames <= |input[c]|
    requires events.Valid() && InOrder(events.Contents()) && forall k :: 0 <= k < |events.Contents()| ==>
      0 <= events.Contents()[k].sampleOffset < frames
    modifies node, node.gainState, node.panState
    ensures var s, timeline := Begin(old(node.State())), Timeline(events.Contents(), frames);
      node.State() == After(s, timeline)
        && Rendered(s, timeline, Stretch(input, from, from + frames), output, node.channelCount) == true
  {
    var audio := CopyRows(input, from, frames);
    assert Rows(audio) == Stretch(input, from, from + frames);
    node.Process(audio, frames, events);
    output := ReadRows(audio);
    ShapedIsRendered(Begin(old(node.State())), Timeline(events.Contents(), frames), Stretch(input, from, from + frames),
      output, node.channelCount);
  }

  lemma ShapedIsRendered(s: TrackState, frames: seq<seq<NodeEvent>>, before: seq<seq<real>>, after: seq<seq<real>>,
    channels: nat)
    requires ShapedUpTo(s, frames, before, after, channels, |frames|) == true && forall c :: 0 <= c < |before| ==>
      |before[c]| == |frames|
    ensures Rendered(s, frames, before, after, channels) == true
  {
    forall c | 0 <= c < |before|
      ensures |before[c]| == |after[c]| == |frames| && RowRendered(s, frames, before[c], after[c], c, channels) {
      assert ChannelShaped(s, frames, before[c], after[c], c, if c < channels then |frames| else 0);
    }
  }

  /** Routes what is due before the end of a block. */
  method RouteDue(path: ParameterPath, frames: nat, blockStart: int)
    returns (ghost due: seq<ScheduledEvent>, ghost room: seq<nat>)
    requires path.Valid() && blockStart + frames <= MAXIMUM_POSITION
    modifies path`counters, path.queue`readPosition, path.queue`queued, path.buffers, Arrays(path.buffers)
    ensures path.Valid() && path.accepted == old(path.accepted)
    ensures Parts(old(path.queue.Contents()), due, path.queue.Contents(), blockStart + frames) == true
    ensures |room| == |path.ids| && path.counters == Plus(old(path.counters), RouteAll(due, path.ids, room, blockStart))
    ensures BuffersHold(path.buffers, RouteAll(due, path.ids, room, blockStart).contents) == true
  {
    ghost var waiting := path.queue.Contents();
    path.WaitingIsAccepted();
    var routed := path.RouteParameterEvents(frames, blockStart);
    room := Rooms(path.buffers);
    due := waiting[..DueCount(waiting, BlockEnd(blockStart, frames))];
    DueOfBlock(waiting, blockStart, frames);
  }

  /** The same, with what the buffer of route `i` gets of it. */
  method RouteFor(path: ParameterPath, i: nat, frames: nat, blockStart: int)
    returns (ghost due: seq<ScheduledEvent>, ghost room: seq<nat>, ghost events: seq<NodeEvent>)
    requires path.Valid() && i < |path.buffers| && 0 < frames && blockStart + frames <= MAXIMUM_POSITION
    modifies path`counters, path.queue`readPosition, path.queue`queued, path.buffers, Arrays(path.buffers)
    ensures path.Valid() && path.accepted == old(path.accepted)
    ensures Parts(old(path.queue.Contents()), due, path.queue.Contents(), blockStart + frames) == true
    ensures |room| == |path.ids| && path.counters == Plus(old(path.counters), RouteAll(due, path.ids, room, blockStart))
    ensures events == RouteAll(due, path.ids, room, blockStart).contents[i]
    ensures path.buffers[i].Valid() && path.buffers[i].Contents() == events && InsideBlock(events, frames) == true
  {
    ghost var waiting := path.queue.Contents();
    due, room := RouteDue(path, frames, blockStart);
    events := RouteAll(due, path.ids, room, blockStart).contents[i];
    BufferInside(waiting, due, path.queue.Contents(), path.ids, room, blockStart, frames, i);
  }

  ghost predicate InsideBlock(events: seq<NodeEvent>, frames: nat) {
    InOrder(events) && forall k :: 0 <= k < |events| ==> 0 <= events[k].sampleOffset < frames
  }

  lemma DueParts(events: seq<ScheduledEvent>, end: int)
    requires Ascending(events) == true && forall k :: 0 <= k < |events| ==> Sound(events[k])
    ensures var n := DueCount(events, end); Parts(events, events[..n], events[n..], end) == true
  {
    DueIsExact(events, end);
    SplitParts(events, DueCount(events, end), end);
  }

  lemma DueOfBlock(events: seq<ScheduledEvent>, blockStart: int, frames: nat)
    requires blockStart + frames <= MAXIMUM_POSITION
    requires Ascending(events) == true && forall k :: 0 <= k < |events| ==> Sound(events[k])
    ensures var n := DueCount(events, BlockEnd(blockStart, frames));
      Parts(events, events[..n], events[n..], blockStart + frames) == true
  {
    DueParts(events, BlockEnd(blockStart, frames));
  }

  lemma SplitParts(events: seq<ScheduledEvent>, n: nat, end: int)
    requires n <= |events| && Ascending(events) == true && forall k :: 0 <= k < |events| ==> Sound(events[k])
    requires forall k :: 0 <= k < |events| ==> (k < n <==> events[k].samplePosition < end)
    ensures Parts(events, events[..n], events[n..], end) == true
  {}

  lemma BufferInside(events: seq<ScheduledEvent>, due: seq<ScheduledEvent>, waiting: seq<ScheduledEvent>,
                     ids: seq<nat>, room: seq<nat>, blockStart: int, frames: nat, i: nat)
    requires |ids| == |room| && i < |ids| && 0 < frames && Parts(events, due, waiting, blockStart + frames) == true
    ensures InsideBlock(RouteAll(due, ids, room, blockStart).contents[i], frames) == true
  {
    forall k | 0 <= k < |due| ensures Sound(due[k]) { assert due[k] == events[k]; }
    BufferHolds(due, ids, room, blockStart, frames, i);
  }

  /** One block of the track of a route: its due events are routed, then it renders with what its buffer got. */
  method RenderBlock(path: ParameterPath, i: nat, node: TrackNode, input: seq<seq<real>>, from: nat, frames: nat,
    blockStart: int)
    returns (output: seq<seq<real>>, ghost due: seq<ScheduledEvent>, ghost room: seq<nat>)
    requires path.Valid() && i < |path.buffers| && node.Valid() && 0 < frames && blockStart + frames <= MAXIMUM_POSITION
    requires forall c :: 0 <= c < |input| ==> from + frames <= |input[c]|
    modifies path`counters, path.queue`readPosition, path.queue`queued, path.buffers, Arrays(path.buffers), node,
      node.gainState, node.panState
    ensures path.Valid() && path.accepted == old(path.accepted)
    ensures Parts(old(path.queue.Contents()), due, path.queue.Contents(), blockStart + frames) == true
    ensures |room| == |path.ids| && path.counters == Plus(old(path.counters), RouteAll(due, path.ids, room, blockStart))
    ensures RendersWith(old(node.State()), node.State(), RouteAll(due, path.ids, room, blockStart).contents[i],
                        Stretch(input, from, from + frames), output, frames, node.channelCount) == true
  {
    ghost var events;
    due, room, events := RouteFor(path, i, frames, blockStart);
    output := RenderRows(node, path.buffers[i], input, from, frames);
  }

  /** The queue before the end of a block, split into what is due and what goes on waiting. */
  ghost predicate Parts(events: seq<ScheduledEvent>, due: seq<ScheduledEvent>, waiting: seq<ScheduledEvent>, end: int) {
    && events == due + waiting && Ascending(events) && (forall k :: 0 <= k < |events| ==> Sound(events[k]))
    && (forall k :: 0 <= k < |due| ==> due[k].samplePosition < end)
    && (forall k :: 0 <= k < |waiting| ==> waiting[k].samplePosition >= end)
  }

  ghost predicate RendersWith(before: TrackState, after: TrackState, events: seq<NodeEvent>, input: seq<seq<real>>,
    output: seq<seq<real>>, frames: nat, channels: nat)
  {
    after == After(Begin(before), Timeline(events, frames))
      && Rendered(Begin(before), Timeline(events, frames), input, output, channels)
  }

  // ----- any blocks

  /** Nothing was late and nothing was refused by a buffer: the engine's own counters say so. */
  predicate Clean(before: Counters, now: Counters) {
    now.late == before.late && now.overflow == before.overflow
  }

  /** What is known after `done` frames. */
  ghost predicate Underway(before: Counters, counters: Counters, gone: seq<ScheduledEvent>, ids: seq<nat>, i: nat,
    s: TrackState, done: nat, start: int, now: TrackState, input: seq<seq<real>>, output: seq<seq<real>>, channels: nat)
    requires forall c :: 0 <= c < |input| ==> done <= |input[c]|
  {
    && |output| == |input| && counters.late >= before.late && counters.overflow >= before.overflow
    && (Clean(before, counters) ==> RunSoFar(s, gone, done, ids, i, start, now, input, output, channels))
  }

  /** The events taken from the queue in a block join those that were gone before. */
  lemma GoneGrows(accepted: seq<ScheduledEvent>, waiting: seq<ScheduledEvent>, due: seq<ScheduledEvent>,
    rest: seq<ScheduledEvent>, base: nat)
    requires |waiting| <= |accepted| && waiting == accepted[|accepted| - |waiting|..] && waiting == due + rest
    requires base <= |accepted| - |waiting|
    ensures Gone(accepted, rest, base) == Gone(accepted, waiting, base) + due
  {
    assert accepted == accepted[..|accepted| - |waiting|] + due + rest;
  }

  /** One block, if it adds nothing to the counters of late and refused events. */
  lemma CleanBlock(s: TrackState, gone: seq<ScheduledEvent>, done: nat, ids: seq<nat>, i: nat, start: int,
    now: TrackState, input: seq<seq<real>>, output: seq<seq<real>>, channels: nat, waiting: seq<ScheduledEvent>,
    due: seq<ScheduledEvent>, rest: seq<ScheduledEvent>, room: seq<nat>, b: nat, total: nat, later: TrackState,
    block: seq<seq<real>>)
    requires Settled(s) && total == done + b && (forall c :: 0 <= c < |input| ==> total <= |input[c]|)
      && |ids| == |room| && i < |ids|
    requires RunSoFar(s, gone, done, ids, i, start, now, input, output, channels) == true
    requires Parts(waiting, due, rest, start + done + b) == true
    requires RouteAll(due, ids, room, start + done).late == 0 && RouteAll(due, ids, room, start + done).overflow == 0
    requires RendersWith(now, later, RouteAll(due, ids, room, start + done).contents[i], Stretch(input, done, done + b),
      block, b, channels) == true
    ensures |output| == |block|
      && RunSoFar(s, gone + due, total, ids, i, start, later, input, Appended(output, block), channels) == true
  {
    NoneLate(due, ids, room, start + done);
    NoneOverflowed(due, ids, room, start + done, i);
    PartsAreAscending(waiting, due, rest, start + done + b);
    BufferIsInAcceptanceOrder(due, ids, room, start + done, i);
    RunGoesOn(s, gone, done, ids, i, start, now, input, output, channels, due, b, total, later, block);
  }

  lemma PartsAreAscending(events: seq<ScheduledEvent>, due: seq<ScheduledEvent>, rest: seq<ScheduledEvent>, end: int)
    requires Parts(events, due, rest, end) == true
    ensures Ascending(due) == true && forall k :: 0 <= k < |due| ==> Sound(due[k]) && due[k].samplePosition < end
  {
    assert forall k :: 0 <= k < |due| ==> due[k] == events[k];
  }

  lemma RoutedOnCounters(before: Counters, from: Counters, counters: Counters, r: Routing)
    requires counters == Plus(from, r) && from.late >= before.late && from.overflow >= before.overflow
    ensures counters.late >= before.late && counters.overflow >= before.overflow
    ensures Clean(before, counters) ==> Clean(before, from) && r.late == 0 && r.overflow == 0
  {}

  lemma UnderwayMeans(before: Counters, counters: Counters, gone: seq<ScheduledEvent>, ids: seq<nat>, i: nat,
    s: TrackState, done: nat, start: int, now: TrackState, input: seq<seq<real>>, output: seq<seq<real>>, channels: nat)
    requires forall c :: 0 <= c < |input| ==> done <= |input[c]|
    requires Underway(before, counters, gone, ids, i, s, done, start, now, input, output, channels) == true
    ensures |output| == |input| && counters.late >= before.late && counters.overflow >= before.overflow
    ensures Clean(before, counters) ==> RunSoFar(s, gone, done, ids, i, start, now, input, output, channels) == true
  {}

  lemma IsUnderway(before: Counters, counters: Counters, gone: seq<ScheduledEvent>, ids: seq<nat>, i: nat,
    s: TrackState, done: nat, start: int, now: TrackState, input: seq<seq<real>>, output: seq<seq<real>>, channels: nat)
    requires forall c :: 0 <= c < |input| ==> done <= |input[c]|
    requires |output| == |input| && counters.late >= before.late && counters.overflow >= before.overflow
    requires Clean(before, counters) ==> RunSoFar(s, gone, done, ids, i, start, now, input, output, channels) == true
    ensures Underway(before, counters, gone, ids, i, s, done, start, now, input, output, channels) == true
  {}

  lemma SameUnderway(before: Counters, counters: Counters, gone: seq<ScheduledEvent>, same: seq<ScheduledEvent>,
    ids: seq<nat>, i: nat, s: TrackState, done: nat, start: int, now: TrackState, input: seq<seq<real>>,
    output: seq<seq<real>>, channels: nat)
    requires gone == same && forall c :: 0 <= c < |input| ==> done <= |input[c]|
    requires Underway(before, counters, gone, ids, i, s, done, start, now, input, output, channels) == true
    ensures Underway(before, counters, same, ids, i, s, done, start, now, input, output, channels) == true
  {}

  lemma RendersRows(before: TrackState, after: TrackState, events: seq<NodeEvent>, input: seq<seq<real>>,
    output: seq<seq<real>>, frames: nat, channels: nat)
    requires RendersWith(before, after, events, input, output, frames, channels) == true
    ensures |output| == |input|
  {}

  /** One block, whatever the counters say. */
  lemma BlockUnderway(before: Counters, from: Counters, counters: Counters, s: TrackState, gone: seq<ScheduledEvent>,
    done: nat, ids: seq<nat>, i: nat, start: int, now: TrackState, input: seq<seq<real>>, output: seq<seq<real>>,
    channels: nat, waiting: seq<ScheduledEvent>, due: seq<ScheduledEvent>, rest: seq<ScheduledEvent>, room: seq<nat>,
    b: nat, total: nat, later: TrackState, block: seq<seq<real>>)
    requires Settled(s) && total == done + b && (forall c :: 0 <= c < |input| ==> total <= |input[c]|)
      && |ids| == |room| && i < |ids|
    requires Underway(before, from, gone, ids, i, s, done, start, now, input, output, channels) == true
    requires Parts(waiting, due, rest, start + done + b) == true
    requires counters == Plus(from, RouteAll(due, ids, room, start + done))
    requires RendersWith(now, later, RouteAll(due, ids, room, start + done).contents[i], Stretch(input, done, done + b),
      block, b, channels) == true
    ensures |output| == |block|
    ensures Underway(before, counters, gone + due, ids, i, s, total, start, later, input, Appended(output, block),
      channels) == true
  {
    UnderwayMeans(before, from, gone, ids, i, s, done, start, now, input, output, channels);
    var r := RouteAll(due, ids, room, start + done);
    RoutedOnCounters(before, from, counters, r);
    RendersRows(now, later, r.contents[i], Stretch(input, done, done + b), block, b, channels);
    if Clean(before, counters) {
      CleanBlock(s, gone, done, ids, i, start, now, input, output, channels, waiting, due, rest, room, b, total, later,
        block);
    }
    IsUnderway(before, counters, gone + due, ids, i, s, total, start, later, input, Appended(output, block), channels);
  }

  lemma PartsSplit(events: seq<ScheduledEvent>, due: seq<ScheduledEvent>, rest: seq<ScheduledEvent>, end: int)
    requires Parts(events, due, rest, end) == true
    ensures events == due + rest && |rest| <= |events| && forall k :: 0 <= k < |rest| ==> rest[k].samplePosition >= end
  {}

  /** The same seen from the accepted events: those that left the queue since the first `base` ones. */
  method NextUnderway(ghost before: Counters, ghost from: Counters, ghost counters: Counters, ghost s: TrackState,
    ghost accepted: seq<ScheduledEvent>, ghost base: nat, ghost done: nat, ghost ids: seq<nat>, ghost i: nat,
    ghost start: int, ghost now: TrackState, ghost input: seq<seq<real>>, output: seq<seq<real>>, ghost channels: nat,
    ghost waiting: seq<ScheduledEvent>, ghost due: seq<ScheduledEvent>, ghost rest: seq<ScheduledEvent>,
    ghost room: seq<nat>, ghost b: nat, ghost total: nat, ghost later: TrackState, block: seq<seq<real>>)
    returns (longer: seq<seq<real>>)
    requires Settled(s) && total == done + b && (forall c :: 0 <= c < |input| ==> total <= |input[c]|)
      && |ids| == |room| && i < |ids|
    requires |waiting| <= |accepted| && waiting == accepted[|accepted| - |waiting|..] && base <= |accepted| - |waiting|
    requires Underway(before, from, Gone(accepted, waiting, base), ids, i, s, done, start, now, input, output, channels)
      == true
    requires Parts(waiting, due, rest, start + done + b) == true
      && counters == Plus(from, RouteAll(due, ids, room, start + done))
    requires RendersWith(now, later, RouteAll(due, ids, room, start + done).contents[i], Stretch(input, done, done + b),
      block, b, channels) == true
    ensures |rest| <= |waiting| && forall k :: 0 <= k < |rest| ==> rest[k].samplePosition >= start + total
    ensures Underway(before, counters, Gone(accepted, rest, base), ids, i, s, total, start, later, input, longer,
      channels) == true
  {
    PartsSplit(waiting, due, rest, start + done + b);
    GoneGrows(accepted, waiting, due, rest, base);
    ghost var gone := Gone(accepted, waiting, base);
    BlockUnderway(before, from, counters, s, gone, done, ids, i, start, now, input, output, channels, waiting, due,
      rest, room, b, total, later, block);
    longer := Appended(output, block);
    SameUnderway(before, counters, gone + due, Gone(accepted, rest, base), ids, i, s, total, start, later, input,
      longer, channels);
  }

  /** The requests that arrive before a block, then the block. */
  method OneBlock(path: ParameterPath, i: nat, node: TrackNode, block: Block, done: nat, total: nat, start: int,
    input: seq<seq<real>>, output: seq<seq<real>>, ghost base: nat, ghost before: Counters, ghost s: TrackState)
    returns (longer: seq<seq<real>>)
    requires path.Valid() && i < |path.buffers| && node.Valid() && Settled(s)
      && base <= |path.accepted| - |path.queue.Contents()|
    requires 0 < block.frames && total == done + block.frames && start + total <= MAXIMUM_POSITION
    requires forall c :: 0 <= c < |input| ==> total <= |input[c]|
    requires Underway(before, path.counters, Gone(path.accepted, path.queue.Contents(), base), path.ids, i, s, done,
      start, node.State(), input, output, node.channelCount) == true
    modifies path`lastEnqueuedSample, path`nextSequence, path`counters, path`accepted, path.queue, path.queue.storage
    modifies path.buffers, Arrays(path.buffers), node, node.gainState, node.panState
    ensures path.Valid() && old(path.accepted) <= path.accepted && base <= |path.accepted| - |path.queue.Contents()|
    ensures Underway(before, path.counters, Gone(path.accepted, path.queue.Contents(), base), path.ids, i, s, total,
      start, node.State(), input, longer, node.channelCount) == true
    ensures forall k :: 0 <= k < |path.queue.Contents()| ==> path.queue.Contents()[k].samplePosition >= start + total
  {
    EnqueueAll(path, block.requests, base);
    longer := RenderNext(path, i, node, block.frames, done, total, start, input, output, base, before, s);
  }

  method RenderNext(path: ParameterPath, i: nat, node: TrackNode, frames: nat, done: nat, total: nat, start: int,
    input: seq<seq<real>>, output: seq<seq<real>>, ghost base: nat, ghost before: Counters, ghost s: TrackState)
    returns (longer: seq<seq<real>>)
    requires path.Valid() && i < |path.buffers| && node.Valid() && Settled(s)
      && base <= |path.accepted| - |path.queue.Contents()|
    requires 0 < frames && total == done + frames && start + total <= MAXIMUM_POSITION
    requires forall c :: 0 <= c < |input| ==> total <= |input[c]|
    requires Underway(before, path.counters, Gone(path.accepted, path.queue.Contents(), base), path.ids, i, s, done,
      start, node.State(), input, output, node.channelCount) == true
    modifies path`counters, path.queue`readPosition, path.queue`queued, path.buffers, Arrays(path.buffers), node,
      node.gainState, node.panState
    ensures path.Valid() && path.accepted == old(path.accepted) && base <= |path.accepted| - |path.queue.Contents()|
    ensures Underway(before, path.counters, Gone(path.accepted, path.queue.Contents(), base), path.ids, i, s, total,
      start, node.State(), input, longer, node.channelCount) == true
    ensures forall k :: 0 <= k < |path.queue.Contents()| ==> path.queue.Contents()[k].samplePosition >= start + total
  {
    ghost var waiting, from, now := path.queue.Contents(), path.counters, node.State();
    path.WaitingIsAccepted();
    var rendered;
    ghost var due, room;
    rendered, due, room := RenderBlock(path, i, node, input, done, frames, start + done);
    longer := NextUnderway(before, from, path.counters, s, path.accepted, base, done, path.ids, i, start, now, input,
      output, node.channelCount, waiting, due, path.queue.Contents(), room, frames, total, node.State(), rendered);
  }

  /** The accepted events without the first `n`. */
  function Later(accepted: seq<ScheduledEvent>, n: nat): seq<ScheduledEvent> {
    if n <= |accepted| then accepted[n..] else []
  }

  /** What a run must have made of the state and the input of a track: one stretch, with each event at its own frame. */
  ghost predicate RenderedWhole(events: seq<ScheduledEvent>, ids: seq<nat>, i: nat, start: int, before: TrackState,
    after: TrackState, input: seq<seq<real>>, output: seq<seq<real>>, length: nat,
    channels: nat)
    requires i < |ids|
  {
    var frames := RunFrames(events, ids, i, start, length);
    after == After(before, frames) && Rendered(before, frames, input, output, channels)
  }

  /** A track rendered block by block, through the queue, the router, the node's event buffer and the node's frame
      loop. If no event was late and none was refused by a buffer, then state and output are those of one run over
      all events accepted and not routed before, each at its own frame: they do not depend on the blocks, nor on when
      between the blocks an event was accepted. */
  method RenderStream(path: ParameterPath, i: nat, node: TrackNode, blocks: seq<Block>, start: int,
    input: seq<seq<real>>)
    returns (output: seq<seq<real>>)
    requires path.Valid() && i < |path.buffers| && node.Valid() && Settled(node.State())
    requires (forall k :: 0 <= k < |blocks| ==> 0 < blocks[k].frames) && start + Frames(blocks) <= MAXIMUM_POSITION
    requires forall c :: 0 <= c < |input| ==> |input[c]| == Frames(blocks)
    modifies path`lastEnqueuedSample, path`nextSequence, path`counters, path`accepted, path.queue, path.queue.storage
    modifies path.buffers, Arrays(path.buffers), node, node.gainState, node.panState
    ensures path.Valid() && old(path.accepted) <= path.accepted
    ensures Clean(old(path.counters), path.counters) ==>
      RenderedWhole(Later(path.accepted, Counted(old(path.counters))), path.ids, i, start, old(node.State()),
        node.State(),
                    input, output, Frames(blocks), node.channelCount) == true
  {
    path.WaitingIsAccepted();
    path.EveryEventIsCounted();
    ghost var before, s := path.counters, node.State();
    output := seq(|input|, _ => []);
    RunStarts(s, path.ids, i, start, input, node.channelCount);
    assert Gone(path.accepted, path.queue.Contents(), Counted(before)) == [];
    IsUnderway(before, before, [], path.ids, i, s, 0, start, s, input, output, node.channelCount);
    output := RenderBlocks(path, i, node, blocks, start, input, output, Counted(before), before, s);
    path.WaitingIsAccepted();
    if Clean(before, path.counters) {
      RunIsOver(before, path.counters, path.accepted, path.queue.Contents(), Counted(before), path.ids, i, s,
        Frames(blocks), start, node.State(), input, output, node.channelCount);
    }
  }

  method RenderBlocks(path: ParameterPath, i: nat, node: TrackNode, blocks: seq<Block>, start: int,
    input: seq<seq<real>>, none: seq<seq<real>>, ghost base: nat, ghost before: Counters, ghost s: TrackState)
    returns (output: seq<seq<real>>)
    requires path.Valid() && i < |path.buffers| && node.Valid() && Settled(s)
      && base <= |path.accepted| - |path.queue.Contents()|
    requires (forall k :: 0 <= k < |blocks| ==> 0 < blocks[k].frames) && start + Frames(blocks) <= MAXIMUM_POSITION
    requires forall c :: 0 <= c < |input| ==> |input[c]| == Frames(blocks)
    requires Underway(before, path.counters, Gone(path.accepted, path.queue.Contents(), base), path.ids, i, s, 0, start,
      node.State(), input, none, node.channelCount) == true
    modifies path`lastEnqueuedSample, path`nextSequence, path`counters, path`accepted, path.queue, path.queue.storage
    modifies path.buffers, Arrays(path.buffers), node, node.gainState, node.panState
    ensures path.Valid() && old(path.accepted) <= path.accepted && base <= |path.accepted| - |path.queue.Contents()|
    ensures Underway(before, path.counters, Gone(path.accepted, path.queue.Contents(), base), path.ids, i, s,
      Frames(blocks), start, node.State(), input, output, node.channelCount) == true
    ensures Frames(blocks) == 0 || forall j :: 0 <= j < |path.queue.Contents()| ==>
      path.queue.Contents()[j].samplePosition >= start + Frames(blocks)
  {
    output := none;
    var k, done := 0, 0;
    while k < |blocks|
      invariant 0 <= k <= |blocks| && done == Frames(blocks[..k]) <= Frames(blocks)
      invariant path.Valid() && old(path.accepted) <= path.accepted && base <= |path.accepted| - |path.queue.Contents()|
      invariant Underway(before, path.counters, Gone(path.accepted, path.queue.Contents(), base), path.ids, i, s, done,
        start, node.State(), input, output, node.channelCount) == true
      invariant k == 0 || forall j :: 0 <= j < |path.queue.Contents()| ==>
        path.queue.Contents()[j].samplePosition >= start + done
    {
      FramesGrow(blocks, k);
      var total := done + blocks[k].frames;
      output := OneBlock(path, i, node, blocks[k], done, total, start, input, output, base, before, s);
      k, done := k + 1, total;
    }
    AllBlocks(blocks);
  }

  /** Two runs over the same events, cut in any two ways, give the same state and the same output. */
  lemma CutsDoNotMatter(events: seq<ScheduledEvent>, ids: seq<nat>, i: nat, start: int, before: TrackState,
    a: TrackState, b: TrackState, input: seq<seq<real>>, x: seq<seq<real>>, y: seq<seq<real>>, length: nat,
    channels: nat)
    requires i < |ids| && RenderedWhole(events, ids, i, start, before, a, input, x, length, channels)
    requires RenderedWhole(events, ids, i, start, before, b, input, y, length, channels)
    ensures a == b && x == y
  {
    RenderingIsUnique(before, RunFrames(events, ids, i, start, length), input, x, y, channels);
  }

  lemma {:induction false} FramesGrow(blocks: seq<Block>, k: nat)
    requires k < |blocks|
    ensures Frames(blocks[..k + 1]) == Frames(blocks[..k]) + blocks[k].frames <= Frames(blocks)
    decreases |blocks|
  {
    assert blocks[..k + 1][..k] == blocks[..k];
    if k + 1 == |blocks| {
      assert blocks[..k + 1] == blocks;
    } else {
      FramesGrow(blocks[..|blocks| - 1], k);
      assert blocks[..|blocks| - 1][..k + 1] == blocks[..k + 1] && blocks[..|blocks| - 1][..k] == blocks[..k];
    }
  }

  lemma AllBlocks(blocks: seq<Block>)
    ensures blocks[..|blocks|] == blocks
  {}

  lemma FramesOfRun(gone: seq<ScheduledEvent>, waiting: seq<ScheduledEvent>, ids: seq<nat>, i: nat, start: int,
    done: nat)
    requires i < |ids| && forall k :: 0 <= k < |gone| ==> start <= gone[k].samplePosition
    requires done == 0 || forall k :: 0 <= k < |waiting| ==> waiting[k].samplePosition >= start + done
    ensures Timeline(ForRoute(gone + waiting, ids, i, start), done) == RunFrames(gone + waiting, ids, i, start, done)
  {
    if done > 0 { FramesOfRoute(gone + waiting, ids, i, start, done); }
  }

  lemma RunIsOver(before: Counters, counters: Counters, accepted: seq<ScheduledEvent>, waiting: seq<ScheduledEvent>,
    base: nat, ids: seq<nat>, i: nat, s: TrackState, done: nat, start: int, now: TrackState, input: seq<seq<real>>,
    output: seq<seq<real>>, channels: nat)
    requires i < |ids| && |waiting| <= |accepted| && waiting == accepted[|accepted| - |waiting|..]
      && base <= |accepted| - |waiting|
    requires (forall c :: 0 <= c < |input| ==> |input[c]| == done) && Clean(before, counters)
    requires Underway(before, counters, Gone(accepted, waiting, base), ids, i, s, done, start, now, input, output,
      channels) == true
    requires done == 0 || forall k :: 0 <= k < |waiting| ==> waiting[k].samplePosition >= start + done
    ensures RenderedWhole(Later(accepted, base), ids, i, start, s, now, input, output, done, channels) == true
  {
    var gone := Gone(accepted, waiting, base);
    UnderwayMeans(before, counters, gone, ids, i, s, done, start, now, input, output, channels);
    RunEnds(s, gone, waiting, done, ids, i, start, now, input, output, channels);
    assert accepted[base..] == gone + waiting;
    FramesOfRun(gone, waiting, ids, i, start, done);
  }
}
