/** The rings between the host and a plugin process: 32-bit positions that wrap, slots picked by masking, and events
    applied by the block that contains them. */
module PluginBridges {
  import opened SessionDocuments
  import opened SpscQueues

  const WRAP: nat := 0x1_0000_0000
  const MAXIMUM_QUEUE_CAPACITY: nat := 4_096
  const TIME_WRAP: nat := 0x1_0000_0000_0000_0000

  // ----- powers of two and masks

  function Pow2(k: nat): (p: nat)
    ensures p > 0
  {
    if k == 0 then 1 else 2 * Pow2(k - 1)
  }

  /** Bitwise and. */
  function And(a: nat, b: nat): nat {
    if a == 0 || b == 0 then 0 else (if a % 2 == 1 && b % 2 == 1 then 1 else 0) + 2 * And(a / 2, b / 2)
  }

  /** Masking with a power of two less one takes the remainder. */
  lemma {:induction false} MaskIsRemainder(x: nat, k: nat)
    ensures And(x, Pow2(k) - 1) == x % Pow2(k)
    decreases k
  {
    if k > 0 {
      var half := Pow2(k - 1);
      MaskIsRemainder(x / 2, k - 1);
      assert (2 * half - 1) / 2 == half - 1 && (half > 0 ==> (2 * half - 1) % 2 == 1);
      HalfRemainder(x, half);
      if x == 0 { SmallRemainder(0, Pow2(k)); }
    }
  }

  lemma HalfRemainder(x: nat, half: nat)
    requires half > 0
    ensures x % (2 * half) == x % 2 + 2 * ((x / 2) % half)
  {
    var q, r := (x / 2) / half, (x / 2) % half;
    assert x == 2 * (x / 2) + x % 2;
    assert x / 2 == half * q + r;
    assert x == (2 * half) * q + (2 * r + x % 2);
    RemainderIs(x, 2 * half, q, 2 * r + x % 2);
  }

  /** The remainder is what is left of a multiple. */
  lemma RemainderIs(x: nat, c: nat, q: nat, r: nat)
    requires 0 <= r < c && x == c * q + r
    ensures x % c == r
  {
    var p, s := x / c, x % c;
    assert x == c * p + s;
    MultiplesAreApart(c, p, q);
    MultiplesAreApart(c, q, p);
    assert c * q - c * p == s - r;
  }

  lemma SmallRemainder(x: nat, c: nat)
    requires x < c
    ensures x % c == x
  {
    RemainderIs(x, c, 0, x);
  }

  lemma Division(n: nat, m: nat)
    requires m > 0
    ensures n == m * (n / m) + n % m && 0 <= n % m < m
  {}

  lemma Distribute(c: nat, a: nat, b: nat)
    ensures c * (a + b) == c * a + c * b
  {}

  lemma Associate(a: nat, b: nat, c: nat)
    ensures (a * b) * c == a * (b * c)
  {}

  /** Wrapping first does not change the remainder by a divisor of the wrap. */
  lemma WrappedRemainder(n: nat, c: nat, m: nat, factor: nat)
    requires c > 0 && m > 0 && m == c * factor
    ensures (n % m) % c == n % c
  {
    var q, r := n / m, n % m;
    Division(n, m);
    var p, s := r / c, r % c;
    Division(r, c);
    Associate(c, factor, q);
    var t: nat := factor * q;
    Distribute(c, t, p);
    RemainderIs(n, c, t + p, s);
  }

  lemma {:induction false} Pow2Divides(j: nat, k: nat)
    requires j <= k
    ensures Pow2(k) == Pow2(j) * Pow2(k - j)
    decreases k
  {
    if j < k { Pow2Divides(j, k - 1); }
  }

  lemma WrapIsPow2()
    ensures Pow2(32) == WRAP
  {
    assert Pow2(8) == 256;
    Pow2Divides(8, 16);
    Pow2Divides(16, 32);
  }

  const HALF_WRAP: nat := 0x8000_0000

  /** `roundUpToPowerOfTwo`: the smallest power of two that is not smaller. The loop ends exactly for values up to 2^31
      (beyond them it doubles to zero, `DoublingNeverReaches`); its callers ask for at most 4096. */
  method RoundUpToPowerOfTwo(value: u32) returns (result: u32, ghost exponent: nat)
    requires value <= HALF_WRAP
    ensures result == Pow2(exponent) && value <= result && exponent <= 31
    ensures result == 1 || result < 2 * value
    ensures value <= MAXIMUM_QUEUE_CAPACITY ==> result <= MAXIMUM_QUEUE_CAPACITY && exponent <= 12
  {
    result, exponent := 1, 0;
    while result < value
      invariant result == Pow2(exponent) <= HALF_WRAP && exponent <= 31 && (result == 1 || result < 2 * value)
      decreases HALF_WRAP - result
    {
      Around(31, exponent + 1);
      SmallRemainder(2 * result, WRAP);
      result, exponent := Wrapped(2 * result), exponent + 1;
    }
    Around(12, exponent);
  }

  /** Above 2^31 no power of two is reached before the doubling wraps to zero. */
  lemma DoublingNeverReaches(value: u32, k: nat)
    requires value > HALF_WRAP
    ensures Wrapped(Pow2(k)) < value
  {
    if k <= 31 {
      Around(31, k);
      SmallRemainder(Pow2(k), WRAP);
    } else {
      WrapIsPow2();
      Pow2Divides(32, k);
      RemainderIs(Pow2(k), WRAP, Pow2(k - 32), 0);
    }
  }

  /** 2^12 is the maximum queue capacity and 2^31 half the range of an index; the other powers are on either side. */
  lemma Around(e: nat, k: nat)
    requires e == 12 || e == 31
    ensures Pow2(e) == if e == 12 then MAXIMUM_QUEUE_CAPACITY else HALF_WRAP
    ensures if k <= e then Pow2(k) <= Pow2(e) else Pow2(k) >= 2 * Pow2(e)
  {
    KnownPowers();
    if k <= e { Pow2Grows(k, e); } else { Pow2Grows(e, k); }
  }

  lemma {:induction false} Pow2Grows(j: nat, k: nat)
    requires j <= k
    ensures Pow2(j) <= Pow2(k) && (j < k ==> 2 * Pow2(j) <= Pow2(k))
    decreases k
  {
    if j < k { Pow2Grows(j, k - 1); }
  }

  lemma KnownPowers()
    ensures Pow2(12) == MAXIMUM_QUEUE_CAPACITY && Pow2(31) == HALF_WRAP
  {
    assert Pow2(6) == 64;
    Pow2Divides(6, 12);
    WrapIsPow2();
  }

  // ----- the shared ring

  /** A 32-bit index. */
  function Wrapped(position: int): u32 {
    position % 0x1_0000_0000
  }

  datatype TimedEvent<T> = TimedEvent(sampleTime: u64, value: T)

  datatype SendStatus = Accepted | OutOfOrder | QueueFull | Unavailable

  ghost predicate Timely<T>(events: seq<TimedEvent<T>>) {
    forall i, j :: 0 <= i <= j < |events| ==> events[i].sampleTime <= events[j].sampleTime
  }

  /** How many events at the front come before the end of a block. */
  function DueCount<T>(events: seq<TimedEvent<T>>, blockEnd: nat): (n: nat)
    ensures n <= |events| && (forall k :: 0 <= k < n ==> events[k].sampleTime < blockEnd)
    ensures n < |events| ==> events[n].sampleTime >= blockEnd
  {
    if events == [] || events[0].sampleTime >= blockEnd then 0
    else
      var rest := DueCount(events[1..], blockEnd);
      assert forall k :: 1 <= k < 1 + rest ==> events[k] == events[1..][k - 1];
      1 + rest
  }

  /** The end of a block; sample positions are 64-bit numbers. */
  function BlockEnd(blockStart: u64, frames: u32): nat {
    (blockStart + frames) % TIME_WRAP
  }

  /** In a timely ring a drain takes exactly the events before the end of the block. */
  lemma DueIsExact<T>(events: seq<TimedEvent<T>>, blockEnd: nat)
    requires Timely(events)
    ensures forall k :: 0 <= k < |events| ==> (k < DueCount(events, blockEnd) <==> events[k].sampleTime < blockEnd)
  {}

  /** Inside a drain: nothing, reading up to the write index it loaded, or done reading and about to publish. */
  datatype ReaderPoint<T> =
    | Between
    | Reading(blockStart: u64, blockEnd: nat, readIndex: u32, writeIndex: u32, applied: seq<TimedEvent<T>>, late: nat)
    | Finished(blockStart: u64, blockEnd: nat, readIndex: u32, writeIndex: u32, applied: seq<TimedEvent<T>>, late: nat)

  /** The two sides of a ring, one atomic step at a time. */
  datatype RingStep<T> = SendStep(sampleTime: u64, value: T) | LoadStep(blockStart: u64, frames: u32) | ReadStep | StoreStep

  /** A drain has applied due events of those it saw, in order; when it is finished, all of them. */
  ghost predicate Underway<T>(sent: seq<TimedEvent<T>>, taken: nat, visible: nat, p: ReaderPoint<T>) {
    p.Between? ||
    (&& taken + |p.applied| <= visible <= |sent|
     && p.writeIndex == Wrapped(visible) && p.readIndex == Wrapped(taken + |p.applied|)
     && Progress(sent[taken..visible], p.applied, p.late, p.blockStart, p.blockEnd)
     && (p.Finished? ==> |p.applied| == DueCount(sent[taken..visible], p.blockEnd)))
  }

  lemma StillUnderway<T>(sent: seq<TimedEvent<T>>, taken: nat, visible: nat, p: ReaderPoint<T>, e: TimedEvent<T>)
    requires Underway(sent, taken, visible, p) == true
    ensures Underway(sent + [e], taken, visible, p) == true
  {
    if !p.Between? { assert (sent + [e])[taken..visible] == sent[taken..visible]; }
  }

  lemma UnderwayMeans<T>(sent: seq<TimedEvent<T>>, taken: nat, visible: nat, p: ReaderPoint<T>)
    requires Underway(sent, taken, visible, p) == true && !p.Between?
    ensures taken + |p.applied| <= visible <= |sent| && p.applied == sent[taken..taken + |p.applied|]
    ensures p.writeIndex == Wrapped(visible) && p.readIndex == Wrapped(taken + |p.applied|)
      && p.late == LateCount(p.applied, p.blockStart)
    ensures p.Finished? ==> |p.applied| == DueCount(sent[taken..visible], p.blockEnd)
  {
    assert sent[taken..visible][..|p.applied|] == sent[taken..taken + |p.applied|];
  }

  lemma UnderwayStarts<T>(sent: seq<TimedEvent<T>>, taken: nat, blockStart: u64, blockEnd: nat)
    requires taken <= |sent|
    ensures Underway(sent, taken, |sent|, Reading(blockStart, blockEnd, Wrapped(taken), Wrapped(|sent|), [], 0)) == true
  {}

  /** One event further. */
  function OneMore<T>(p: ReaderPoint<T>, e: TimedEvent<T>, next: u32): ReaderPoint<T>
    requires p.Reading?
  {
    Reading(p.blockStart, p.blockEnd, next, p.writeIndex, p.applied + [e],
      p.late + if e.sampleTime < p.blockStart then 1 else 0)
  }

  function Ended<T>(p: ReaderPoint<T>): ReaderPoint<T>
    requires p.Reading?
  {
    Finished(p.blockStart, p.blockEnd, p.readIndex, p.writeIndex, p.applied, p.late)
  }

  lemma UnderwayReads<T>(sent: seq<TimedEvent<T>>, taken: nat, visible: nat, p: ReaderPoint<T>, e: TimedEvent<T>,
    next: u32)
    requires Underway(sent, taken, visible, p) == true && p.Reading? && taken + |p.applied| < visible
    requires e == sent[taken + |p.applied|] && e.sampleTime < p.blockEnd && next == Wrapped(taken + |p.applied| + 1)
    ensures Underway(sent, taken, visible, OneMore(p, e, next)) == true
  {
    ProgressGrows(sent[taken..visible], p.applied, p.late, p.blockStart, p.blockEnd, e);
  }

  lemma UnderwayFinishes<T>(sent: seq<TimedEvent<T>>, taken: nat, visible: nat, p: ReaderPoint<T>)
    requires Underway(sent, taken, visible, p) == true && p.Reading?
    requires taken + |p.applied| == visible || sent[taken + |p.applied|].sampleTime >= p.blockEnd
    ensures Underway(sent, taken, visible, Ended(p)) == true
  {
    DueIsDetermined(sent[taken..visible], p.blockEnd, |p.applied|);
  }

  /** Positions grow without bound in the ghost and wrap in the shared indices. */
  class SharedRing<T(0)> {
    const capacity: nat
    ghost const exponent: nat
    const slots: array<TimedEvent<T>>
    var write: u32
    var read: u32
    var hasTime: bool
    var lastTime: u64
    var sentCount: nat
    var appliedCount: nat
    var lateCount: nat
    var overflows: nat
    var outOfOrder: nat
    ghost var sent: seq<TimedEvent<T>>
    ghost var taken: nat
    /** Where the drain is, and the position up to which it sees events. */
    var point: ReaderPoint<T>
    ghost var visible: nat

    constructor (requested: nat)
      requires 0 < requested <= MAXIMUM_QUEUE_CAPACITY
      ensures Valid() && fresh(slots) && sent == [] && capacity >= requested && point == Between
    {
      var result;
      ghost var power;
      result, power := RoundUpToPowerOfTwo(requested);
      capacity, exponent := result, power;
      slots := new TimedEvent<T>[result];
      write, read, hasTime, lastTime := 0, 0, false, 0;
      sentCount, appliedCount, lateCount, overflows, outOfOrder := 0, 0, 0, 0, 0;
      sent, taken, point, visible := [], 0, Between, 0;
    }

    /** The indices are the true positions, wrapped, and the slots hold what was sent and not taken. */
    ghost predicate Valid()
      reads this, slots
    {
      && capacity == Pow2(exponent) == slots.Length && exponent <= 12 && capacity <= MAXIMUM_QUEUE_CAPACITY
      && taken <= |sent| <= taken + capacity
      && write == Wrapped(|sent|) && read == Wrapped(taken)
      && SlotsHold(sent)
      && sentCount == |sent| && appliedCount == taken
      && InTime(sent, hasTime, lastTime)
      && Underway(sent, taken, visible, point) == true
    }

    ghost predicate SlotsHold(events: seq<TimedEvent<T>>)
      requires capacity == slots.Length > 0
      reads this, slots
    {
      forall i :: taken <= i < |events| ==> slots[i % capacity] == events[i]
    }

    /** The queue the ring stands for. */
    ghost function Contents(): (s: seq<TimedEvent<T>>)
      requires Valid()
      reads this, slots
      ensures |s| == sentCount - appliedCount
    {
      sent[taken..]
    }

    /** The difference of the wrapped indices is the true size. */
    lemma SizeIsTrue()
      requires Valid()
      ensures Wrapped(write - read) == |sent| - taken
    {
      var size := |sent| - taken;
      var p, q := |sent| / WRAP, taken / WRAP;
      assert |sent| == WRAP * p + write && taken == WRAP * q + read;
      if write >= read {
        RemainderIs(write - read, WRAP, 0, write - read);
        MultiplesAreApart(WRAP, p, q);
        MultiplesAreApart(WRAP, q, p);
        RemainderIs(size, WRAP, p - q, write - read);
      } else {
        RemainderIs(size, WRAP, p - q - 1, write - read + WRAP);
      }
      SmallRemainder(size, WRAP);
    }

    /** Masking a wrapped index finds the slot of the true position. */
    lemma MaskFindsSlot(position: nat)
      requires Valid()
      ensures And(Wrapped(position), capacity - 1) == position % capacity
    {
      MaskIsRemainder(Wrapped(position), exponent);
      WrapIsPow2();
      Pow2Divides(exponent, 32);
      WrappedRemainder(position, capacity, WRAP, Pow2(32 - exponent));
    }

    /** `setParameterById` and `enqueueMidiEvent` of a started bridge: an event that is not before the last accepted one
        is queued while there is room; otherwise the refusal is counted and nothing changes. */
    method Send(sampleTime: u64, value: T) returns (status: SendStatus)
      requires Valid()
      modifies this, slots
      ensures Valid()
      ensures status == if old(hasTime) && sampleTime < old(lastTime) then OutOfOrder
                        else if |old(Contents())| >= capacity then QueueFull else Accepted
      ensures Contents() == if status == Accepted then old(Contents()) + [TimedEvent(sampleTime, value)] else old(Contents())
      ensures sent == if status == Accepted then old(sent) + [TimedEvent(sampleTime, value)] else old(sent)
      ensures appliedCount == old(appliedCount) && taken == old(taken) && point == old(point) && visible == old(visible)
    {
      if hasTime && sampleTime < lastTime {
        outOfOrder := outOfOrder + 1;
        return OutOfOrder;
      }
      SizeIsTrue();
      if Wrapped(write - read) >= capacity {
        overflows := overflows + 1;
        return QueueFull;
      }
      Append(TimedEvent(sampleTime, value));
      status := Accepted;
    }

    /** Writes the slot behind the last one and publishes it. */
    method Append(e: TimedEvent<T>)
      requires Valid() && |sent| - taken < capacity && (hasTime ==> lastTime <= e.sampleTime)
      modifies this`write, this`sent, this`sentCount, this`hasTime, this`lastTime, slots
      ensures Valid() && sent == old(sent) + [e] && Contents() == old(Contents()) + [e]
    {
      NextIndex(write, |sent|);
      TimeGrows(sent, hasTime, lastTime, e);
      StillUnderway(sent, taken, visible, point, e);
      ghost var longer := sent + [e];
      WriteSlot(e);
      sent := longer;
      write := Wrapped(write + 1);
      sentCount := sentCount + 1;
      lastTime, hasTime := e.sampleTime, true;
    }

    method WriteSlot(e: TimedEvent<T>)
      requires Valid() && |sent| - taken < capacity
      modifies slots
      ensures SlotsHold(sent + [e])
    {
      MaskFindsSlot(|sent|);
      forall i | taken <= i < |sent|
        ensures i % capacity != |sent| % capacity
      {
        NextSlotIsFree(0, i, |sent|, capacity);
      }
      slots[And(write, capacity - 1)] := e;
    }

    /** The event at an index, and the next index. */
    method Fetch(index: u32, ghost position: nat) returns (e: TimedEvent<T>, next: u32)
      requires Valid() && taken <= position < |sent| && index == Wrapped(position)
      ensures e == sent[position] && next == Wrapped(position + 1)
    {
      MaskFindsSlot(position);
      NextIndex(index, position);
      e := slots[And(index, capacity - 1)];
      next := Wrapped(index + 1);
    }

    // ----- the drain, step by step

    /** A drain loads the read and the write index once; later events are for the next one. */
    method DoLoad(blockStart: u64, frames: u32)
      requires Valid() && point.Between?
      modifies this`point, this`visible
      ensures Valid()
        && point == Reading(blockStart, (blockStart + frames) % 0x1_0000_0000_0000_0000, read, write, [], 0)
        && visible == |sent|
    {
      UnderwayStarts(sent, taken, blockStart, BlockEnd(blockStart, frames));
      visible := |sent|;
      point := Reading(blockStart, BlockEnd(blockStart, frames), read, write, [], 0);
    }

    /** Applies the next event it sees, or finds that there is none or that it belongs to a later block. */
    method DoRead()
      requires Valid() && point.Reading?
      modifies this`point
      ensures Valid() && (point.Reading? || point.Finished?) && old(point).applied <= point.applied
      ensures point.blockStart == old(point).blockStart && point.blockEnd == old(point).blockEnd
      ensures point.Reading? ==> |point.applied| == |old(point).applied| + 1
    {
      var p := point;
      UnderwayMeans(sent, taken, visible, p);
      SameIndex(taken + |p.applied|, visible);
      if p.readIndex == p.writeIndex {
        UnderwayFinishes(sent, taken, visible, p);
        point := Ended(p);
      } else {
        point := ReadNext(p);
      }
    }

    method ReadNext(p: ReaderPoint<T>) returns (q: ReaderPoint<T>)
      requires Valid() && p.Reading? && Underway(sent, taken, visible, p) == true
        && taken + |p.applied| < visible <= |sent|
      requires p.readIndex == Wrapped(taken + |p.applied|)
      ensures Underway(sent, taken, visible, q) == true && (q.Reading? || q.Finished?) && p.applied <= q.applied
      ensures q.blockStart == p.blockStart && q.blockEnd == p.blockEnd
      ensures q.Reading? ==> |q.applied| == |p.applied| + 1
    {
      var e, next := Fetch(p.readIndex, taken + |p.applied|);
      if e.sampleTime >= p.blockEnd {
        UnderwayFinishes(sent, taken, visible, p);
        q := Ended(p);
      } else {
        UnderwayReads(sent, taken, visible, p, e, next);
        q := OneMore(p, e, next);
      }
    }

    /** Publishes the read index, if there was anything to read: of the events it saw, exactly the due ones are taken. */
    method DoStore() returns (applied: seq<TimedEvent<T>>)
      requires Valid() && point.Finished?
      modifies this`point, this`read, this`taken, this`appliedCount, this`lateCount
      ensures Valid() && point == Between && sent == old(sent) && applied == old(point).applied
      ensures old(taken) <= old(visible) <= |sent|
      ensures taken == old(taken) + |applied| && applied == sent[old(taken)..taken]
      ensures Served(sent[old(taken)..old(visible)], applied, old(point).blockStart, old(point).blockEnd,
        lateCount - old(lateCount)) == true
    {
      var p := point;
      ghost var events, first := sent, taken;
      UnderwayMeans(events, first, visible, p);
      IsServed(events, first, visible, hasTime, lastTime, p);
      applied := p.applied;
      Retire(|applied|, p.readIndex, p.late);
      assert sent == events && taken == first + |applied|;
    }

    /** Ends a drain and gives the slots of the first events back, if there are any. */
    method Retire(count: nat, index: u32, late: nat)
      requires Valid() && taken + count <= |sent| && index == Wrapped(taken + count)
      requires count == 0 ==> late == 0
      modifies this`point, this`read, this`taken, this`appliedCount, this`lateCount
      ensures Valid() && point == Between && taken == old(taken) + count && lateCount == old(lateCount) + late
    {
      point := Between;
      if count != 0 {
        read := index;
        taken := taken + count;
        appliedCount := appliedCount + count;
        lateCount := lateCount + late;
      }
    }

    /** The drain loop of the plugin process, with nothing sent meanwhile: it applies, in order, exactly the events before
        the end of the block, and counts those that should have been applied earlier. Sent events are applied or still
        queued. */
    method Drain(blockStart: u64, frames: u32) returns (applied: seq<TimedEvent<T>>)
      requires Valid() && point.Between?
      modifies this`point, this`visible, this`read, this`taken, this`appliedCount, this`lateCount
      ensures Valid() && point.Between? && sent == old(sent) && sentCount == appliedCount + |Contents()|
      ensures old(Contents()) == applied + Contents()
      ensures Served(old(Contents()), applied, blockStart, (blockStart + frames) % 0x1_0000_0000_0000_0000,
        lateCount - old(lateCount)) == true
    {
      ghost var events, first, tally := sent, taken, lateCount;
      applied := DrainAll(blockStart, frames);
      TakenAway(events, first, taken, applied);
      ServedWhole(events, first, |events|, applied, blockStart, (blockStart + frames) % 0x1_0000_0000_0000_0000,
        lateCount - tally);
    }

    method DrainAll(blockStart: u64, frames: u32) returns (applied: seq<TimedEvent<T>>)
      requires Valid() && point.Between?
      modifies this`point, this`visible, this`read, this`taken, this`appliedCount, this`lateCount
      ensures Valid() && point.Between? && sent == old(sent)
      ensures old(taken) <= taken <= |sent| && applied == sent[old(taken)..taken]
      ensures Served(sent[old(taken)..|sent|], applied, blockStart, (blockStart + frames) % 0x1_0000_0000_0000_0000,
        lateCount - old(lateCount)) == true
    {
      DoLoad(blockStart, frames);
      ReadAll();
      applied := DoStore();
    }

    method ReadAll()
      requires Valid() && point.Reading?
      modifies this`point
      ensures Valid() && point.Finished? && point.blockStart == old(point).blockStart
        && point.blockEnd == old(point).blockEnd
      ensures taken + |point.applied| <= visible <= |sent|
    {
      UnderwayMeans(sent, taken, visible, point);
      while point.Reading?
        invariant Valid() && !point.Between? && point.blockStart == old(point).blockStart
          && point.blockEnd == old(point).blockEnd
        invariant taken + |point.applied| <= visible
        decreases visible - |point.applied|, point.Reading?
      {
        DoRead();
        UnderwayMeans(sent, taken, visible, point);
      }
    }

    /** One step of either side, if it can take it now; `more` is what a drain that ends has applied. */
    method OneStep(step: RingStep<T>) returns (more: seq<TimedEvent<T>>)
      requires Valid()
      modifies this, slots
      ensures Valid() && old(sent) <= sent && old(taken) <= taken && more == sent[old(taken)..taken]
    {
      more := [];
      match step {
        case SendStep(sampleTime, value) => var status := Send(sampleTime, value);
        case LoadStep(blockStart, frames) => if point.Between? { DoLoad(blockStart, frames); }
        case ReadStep => if point.Reading? { DoRead(); }
        case StoreStep => if point.Finished? { more := DoStore(); }
      }
    }

    /** Any interleaving of sends with the steps of drains; a step its side cannot take now is skipped. Whatever was sent
        was applied, once and in order, or is still queued. */
    method Run(steps: seq<RingStep<T>>) returns (applied: seq<TimedEvent<T>>)
      requires Valid()
      modifies this, slots
      ensures Valid() && old(sent) <= sent && sentCount == appliedCount + |Contents()|
      ensures old(taken) <= |sent| && applied + Contents() == sent[old(taken)..]
    {
      applied := [];
      var k := 0;
      while k < |steps|
        invariant Valid() && old(sent) <= sent && old(taken) <= taken && applied == sent[old(taken)..taken]
      {
        ghost var before, from := sent, taken;
        var more := OneStep(steps[k]);
        SlicesJoin(before, sent, old(taken), from, taken);
        applied := applied + more;
        k := k + 1;
      }
      TakenAway(sent, old(taken), taken, applied);
    }

    /** Positions the ring holds at once share their index only if they are equal. */
    lemma SameIndex(a: nat, b: nat)
      requires Valid() && taken <= a <= b <= |sent|
      ensures Wrapped(a) == Wrapped(b) <==> a == b
    {
      if a < b { NextSlotIsFree(0, a, b, WRAP); }
    }

  }

  lemma TakenAway<T>(events: seq<TimedEvent<T>>, from: nat, to: nat, applied: seq<TimedEvent<T>>)
    requires from <= to <= |events| && applied == events[from..to]
    ensures events[from..] == applied + events[to..] && events[from..|events|] == events[from..]
  {}

  lemma SlicesJoin<T>(before: seq<TimedEvent<T>>, events: seq<TimedEvent<T>>, a: nat, b: nat, c: nat)
    requires before <= events && a <= b <= |before| && b <= c <= |events|
    ensures before[a..b] + events[b..c] == events[a..c]
  {}

  function LateCount<T>(events: seq<TimedEvent<T>>, blockStart: nat): nat {
    if events == [] then 0
    else LateCount(events[..|events| - 1], blockStart) + if events[|events| - 1].sampleTime < blockStart then 1 else 0
  }

  /** Of the events a drain saw, exactly those before the end of the block were applied; the first `late` of them should
      have been applied before the block, and no others. */
  ghost predicate Served<T>(seen: seq<TimedEvent<T>>, applied: seq<TimedEvent<T>>, blockStart: nat, blockEnd: nat,
    late: int)
  {
    && applied <= seen && (forall k :: 0 <= k < |seen| ==> (k < |applied| <==> seen[k].sampleTime < blockEnd))
    && late <= |applied| && (forall k :: 0 <= k < |applied| ==> (k < late <==> applied[k].sampleTime < blockStart))
  }

  lemma {:induction false} LateIsExact<T>(events: seq<TimedEvent<T>>, blockStart: nat)
    requires Timely(events)
    ensures LateCount(events, blockStart) <= |events|
    ensures forall k :: 0 <= k < |events| ==> (k < LateCount(events, blockStart) <==> events[k].sampleTime < blockStart)
  {
    if events != [] {
      var last := |events| - 1;
      LateIsExact(events[..last], blockStart);
      assert forall k :: 0 <= k < last ==> events[..last][k] == events[k];
    }
  }

  lemma IsServed<T>(sent: seq<TimedEvent<T>>, taken: nat, visible: nat, hasTime: bool, lastTime: u64, p: ReaderPoint<T>)
    requires Underway(sent, taken, visible, p) == true && p.Finished? && InTime(sent, hasTime, lastTime) == true
    ensures taken <= visible <= |sent|
    ensures Served(sent[taken..visible], p.applied, p.blockStart, p.blockEnd, p.late) == true
  {
    UnderwayMeans(sent, taken, visible, p);
    var seen := sent[taken..visible];
    assert p.applied == seen[..|p.applied|];
    DueIsExact(seen, p.blockEnd);
    LateIsExact(p.applied, p.blockStart);
  }

  lemma ServedWhole<T>(sent: seq<TimedEvent<T>>, taken: nat, visible: nat, applied: seq<TimedEvent<T>>,
    blockStart: nat, blockEnd: nat, late: int)
    requires taken <= visible == |sent| && Served(sent[taken..visible], applied, blockStart, blockEnd, late) == true
    ensures Served(sent[taken..], applied, blockStart, blockEnd, late) == true
  {
    assert sent[taken..visible] == sent[taken..];
  }

  /** The events applied so far, all due, and how many of them were late. */
  ghost predicate Progress<T>(events: seq<TimedEvent<T>>, applied: seq<TimedEvent<T>>, late: nat, blockStart: nat,
    blockEnd: nat)
  {
    && |applied| <= |events| && applied == events[..|applied|] && late == LateCount(applied, blockStart)
    && forall k :: 0 <= k < |applied| ==> applied[k].sampleTime < blockEnd
  }

  lemma ProgressGrows<T>(events: seq<TimedEvent<T>>, applied: seq<TimedEvent<T>>, late: nat, blockStart: nat,
    blockEnd: nat, e: TimedEvent<T>)
    requires Progress(events, applied, late, blockStart, blockEnd) == true && |applied| < |events|
      && e == events[|applied|] && e.sampleTime < blockEnd
    ensures Progress(events, applied + [e],
      late + if e.sampleTime < blockStart then 1 else 0, blockStart, blockEnd) == true
  {
    assert (applied + [e])[..|applied|] == applied;
  }

  lemma DueIsDetermined<T>(events: seq<TimedEvent<T>>, blockEnd: nat, n: nat)
    requires n <= |events| && (forall k :: 0 <= k < n ==> events[k].sampleTime < blockEnd)
    requires n < |events| ==> events[n].sampleTime >= blockEnd
    ensures DueCount(events, blockEnd) == n
  {}

  lemma NextIndex(index: u32, position: nat)
    requires index == Wrapped(position)
    ensures Wrapped(index + 1) == Wrapped(position + 1)
  {
    var q := position / WRAP;
    assert position == WRAP * q + index;
    if index + 1 < WRAP {
      SmallRemainder(index + 1, WRAP);
      RemainderIs(position + 1, WRAP, q, index + 1);
    } else {
      RemainderIs(index + 1, WRAP, 1, 0);
      RemainderIs(position + 1, WRAP, q + 1, 0);
    }
  }

  /** Events were accepted in the order of their times; the last one's is remembered. */
  ghost predicate InTime<T>(events: seq<TimedEvent<T>>, hasTime: bool, lastTime: u64) {
    Timely(events) && hasTime == (events != []) && (hasTime ==> lastTime == events[|events| - 1].sampleTime)
  }

  lemma TimeGrows<T>(events: seq<TimedEvent<T>>, hasTime: bool, lastTime: u64, e: TimedEvent<T>)
    requires InTime(events, hasTime, lastTime) == true && (hasTime ==> lastTime <= e.sampleTime)
    ensures InTime(events + [e], true, e.sampleTime) == true
  {
    forall i | 0 <= i < |events| ensures events[i].sampleTime <= e.sampleTime {
      assert events[i].sampleTime <= events[|events| - 1].sampleTime;
    }
  }
}
