/** The bounded ring between the control thread and the audio thread. Each operation takes effect at its single
    store, so it is one step here; the position counters do not wrap. */
module SpscQueues {
  lemma MultiplesAreApart(capacity: nat, p: int, q: int)
    ensures !(0 < capacity * q - capacity * p < capacity)
  {
    if q > p {
      MultipleGrows(capacity, p, q - p);
    } else {
      MultipleGrows(capacity, q, p - q);
    }
  }

  lemma {:induction false} MultipleGrows(capacity: nat, p: int, more: nat)
    ensures capacity * (p + more) >= capacity * p + if more > 0 then capacity else 0
  {
    if more > 0 {
      MultipleGrows(capacity, p, more - 1);
      NextMultiple(capacity, p + more - 1);
    }
  }

  lemma NextMultiple(capacity: nat, p: int)
    ensures capacity * (p + 1) == capacity * p + capacity
  {}

  /** Fewer than `capacity` consecutive positions use different slots. */
  lemma NextSlotIsFree(position: nat, j: nat, k: nat, capacity: nat)
    requires 0 <= j < k < j + capacity
    ensures (position + j) % capacity != (position + k) % capacity
  {
    var x, y := position + j, position + k;
    MultiplesAreApart(capacity, x / capacity, y / capacity);
  }

  /** Where the value of a position is kept. */
  function SlotOf(position: nat, capacity: nat): (slot: nat)
    requires capacity > 0
    ensures slot < capacity
  {
    position % capacity
  }

  class SpscQueue<T(0)> {
    const capacity: nat
    const storage: array<T>
    var readPosition: nat
    var writePosition: nat
    var rejectedPushes: nat
    /** The queued values, oldest first. */
    ghost var queued: seq<T>

    ghost predicate Valid()
      reads this, storage
    {
      && 0 < capacity == storage.Length && readPosition <= writePosition <= readPosition + capacity
      && |queued| == writePosition - readPosition
      && (forall p {:trigger SlotOf(p, capacity)} :: readPosition <= p < writePosition ==>
        storage[SlotOf(p, capacity)] == queued[p - readPosition])
    }

    ghost function Contents(): (s: seq<T>)
      reads this
    {
      queued
    }

    constructor (capacity: nat)
      requires capacity > 0
      ensures Valid() && fresh(storage) && this.capacity == capacity && Contents() == [] && rejectedPushes == 0
    {
      this.capacity := capacity;
      storage := new T[capacity];
      readPosition, writePosition, rejectedPushes := 0, 0, 0;
      queued := [];
    }

    /** Adds at the back exactly when there is room; a refusal is counted. */
    method TryPush(value: T) returns (ok: bool)
      requires Valid()
      modifies this, storage
      ensures Valid() && ok == (|old(Contents())| < capacity)
      ensures Contents() == if ok then old(Contents()) + [value] else old(Contents())
      ensures rejectedPushes == old(rejectedPushes) + if ok then 0 else 1
      ensures readPosition == old(readPosition)
    {
      if writePosition - readPosition >= capacity {
        rejectedPushes := rejectedPushes + 1;
        return false;
      }
      forall p | readPosition <= p < writePosition ensures SlotOf(p, capacity) != SlotOf(writePosition, capacity) {
        NextSlotIsFree(0, p, writePosition, capacity);
      }
      storage[SlotOf(writePosition, capacity)] := value;
      queued := queued + [value];
      writePosition := writePosition + 1;
      ok := true;
    }

    method TryPeek() returns (ok: bool, value: T)
      requires Valid()
      ensures ok == (Contents() != [])
      ensures ok ==> value == Contents()[0]
    {
      value := storage[SlotOf(readPosition, capacity)];
      ok := readPosition != writePosition;
    }

    /** Removes from the front. */
    method TryPop() returns (ok: bool, value: T)
      requires Valid()
      modifies this`readPosition, this`queued
      ensures Valid() && ok == (old(Contents()) != [])
      ensures if ok then old(Contents()) == [value] + Contents() else Contents() == old(Contents())
    {
      value := storage[SlotOf(readPosition, capacity)];
      if readPosition == writePosition {
        return false, value;
      }
      readPosition := readPosition + 1;
      queued := queued[1..];
      ok := true;
    }

    predicate Full()
      requires Valid()
      reads this, storage
      ensures Full() <==> |Contents()| == capacity
    {
      writePosition - readPosition >= capacity
    }
  }
}
