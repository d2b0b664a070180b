/** Parameter events inside a block: the bounded per-node buffer kept in order by insertion. */
module ParameterEvents {
  datatype EventKind = Value | LinearRamp | Modulation

  datatype NodeEvent = NodeEvent(parameter: nat, sampleOffset: int, value: real, kind: EventKind, duration: int, sequence: nat)

  const NO_EVENT := NodeEvent(0, 0, 0.0, Value, 0, 0)

  predicate ValidDuration(kind: EventKind, duration: int) {
    if kind == LinearRamp then duration > 0 else duration == 0
  }

  predicate Acceptable(e: NodeEvent) {
    e.parameter != 0 && e.sampleOffset >= 0 && ValidDuration(e.kind, e.duration)
  }

  /** By sample offset, then in the order of acceptance. */
  predicate Before(a: NodeEvent, b: NodeEvent) {
    a.sampleOffset < b.sampleOffset || (a.sampleOffset == b.sampleOffset && a.sequence < b.sequence)
  }

  ghost predicate InOrder(s: seq<NodeEvent>) {
    forall i, j :: 0 <= i < j < |s| ==> !Before(s[j], s[i])
  }

  /** Insertion from the back, behind the last event that comes before `e`. */
  function Insert(s: seq<NodeEvent>, e: NodeEvent): seq<NodeEvent> {
    if s == [] || Before(s[|s| - 1], e) then s + [e] else Insert(s[..|s| - 1], e) + [s[|s| - 1]]
  }

  lemma {:induction false} InsertAddsOne(s: seq<NodeEvent>, e: NodeEvent)
    ensures |Insert(s, e)| == |s| + 1 && multiset(Insert(s, e)) == multiset(s) + multiset{e}
  {
    if s != [] && !Before(s[|s| - 1], e) {
      InsertAddsOne(s[..|s| - 1], e);
      assert s == s[..|s| - 1] + [s[|s| - 1]];
    }
  }

  lemma {:induction false} InsertKeepsOrder(s: seq<NodeEvent>, e: NodeEvent)
    requires InOrder(s)
    ensures InOrder(Insert(s, e))
    ensures forall k :: 0 <= k < |Insert(s, e)| ==> Insert(s, e)[k] == e || Insert(s, e)[k] in s
  {
    if s == [] {
    } else if Before(s[|s| - 1], e) {
      forall i | 0 <= i < |s| ensures !Before(e, s[i]) {
        assert i < |s| - 1 ==> !Before(s[|s| - 1], s[i]);
      }
    } else {
      var shorter, last := s[..|s| - 1], s[|s| - 1];
      InsertKeepsOrder(shorter, e);
      var rest := Insert(shorter, e);
      forall i | 0 <= i < |rest| ensures !Before(last, rest[i]) {
        if rest[i] != e {
          var k :| 0 <= k < |shorter| && shorter[k] == rest[i];
          assert !Before(s[|s| - 1], s[k]);
        }
      }
    }
  }

  /** Where insertion puts an event. */
  lemma {:induction false} InsertionPoint(s: seq<NodeEvent>, e: NodeEvent, index: nat)
    requires index <= |s| && (index == 0 || Before(s[index - 1], e))
    requires forall k :: index <= k < |s| ==> !Before(s[k], e)
    ensures Insert(s, e) == s[..index] + [e] + s[index..]
    decreases |s|
  {
    if index == |s| {
      assert s[..index] == s;
    } else {
      var shorter := s[..|s| - 1];
      InsertionPoint(shorter, e, index);
      assert s[index..] == shorter[index..] + [s[|s| - 1]];
      assert s[..index] == shorter[..index];
    }
  }

  class ParameterEventBuffer {
    const events: array<NodeEvent>
    var eventCount: nat
    var droppedEvents: nat

    constructor Reserve(maximumEvents: int)
      ensures Valid() && fresh(events) && Contents() == [] && droppedEvents == 0
      ensures events.Length == if maximumEvents < 0 then 0 else maximumEvents
    {
      events := new NodeEvent[if maximumEvents < 0 then 0 else maximumEvents](_ => NO_EVENT);
      eventCount, droppedEvents := 0, 0;
    }

    ghost predicate Valid()
      reads this
    {
      eventCount <= events.Length
    }

    ghost function Contents(): (s: seq<NodeEvent>)
      requires Valid()
      reads this, events
      ensures |s| == eventCount
    {
      events[..eventCount]
    }

    method Clear()
      requires Valid()
      modifies this`eventCount
      ensures Valid() && Contents() == []
    {
      eventCount := 0;
    }

    /** Takes an acceptable event exactly while there is room, and puts it in its place. */
    method Add(e: NodeEvent) returns (ok: bool)
      requires Valid()
      modifies this`eventCount, this`droppedEvents, events
      ensures Valid()
      ensures ok <==> Acceptable(e) && old(eventCount) < events.Length
      ensures Contents() == if ok then Insert(old(Contents()), e) else old(Contents())
      ensures droppedEvents == old(droppedEvents) + if ok then 0 else 1
    {
      if !Acceptable(e) || eventCount >= events.Length {
        droppedEvents := droppedEvents + 1;
        return false;
      }
      ghost var s := Contents();
      var index := eventCount;
      assert s[..index] == s;
      while index > 0 && !Before(events[index - 1], e)
        invariant 0 <= index <= eventCount == |s| < events.Length
        invariant events[..index] == s[..index]
        invariant forall k :: index < k <= eventCount ==> events[k] == s[k - 1]
        invariant forall k :: index <= k < eventCount ==> !Before(s[k], e)
        modifies events
      {
        assert events[index - 1] == events[..index][index - 1];
        events[index] := events[index - 1];
        index := index - 1;
      }
      assert index > 0 ==> events[index - 1] == events[..index][index - 1];
      InsertionPoint(s, e, index);
      events[index] := e;
      eventCount := eventCount + 1;
      assert events[..eventCount] == s[..index] + [e] + s[index..];
      ok := true;
    }

    method Event(index: int) returns (e: NodeEvent)
      requires Valid()
      ensures e == if 0 <= index < eventCount then Contents()[index] else NO_EVENT
    {
      e := if index < 0 || index >= eventCount then NO_EVENT else events[index];
    }
  }
}
