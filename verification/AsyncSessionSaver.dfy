/** The save pipeline's ring: a producer, a worker and a consumer share its slots through three indices, one atomic
    step at a time, in any interleaving. */
module AsyncSessionSavers {
  import opened SpscQueues
  import opened SessionDocuments

  datatype Completion = Completion(revision: u64, committed: bool)

  datatype Slot = Slot(revision: u64, snapshot: SessionDocument, completion: Completion)

  /** Inside `trySubmit`: nothing, a slot reserved, a slot filled. */
  datatype ProducerPoint = Ready | Reserved(snapshot: SessionDocument) | Filled(snapshot: SessionDocument)

  /** Inside `run`: at the loop condition, at its second load, in the loop body, saving a slot, its completion written,
      or returned. */
  datatype WorkerPoint = Looping | StopSeen | Entered | Saving | Written | Returned

  /** Inside `tryPopCompletion`: nothing, a completed slot found, its completion copied. */
  datatype ConsumerPoint = Waiting | Found | Copied(completion: Completion)

  datatype Step =
    | Reserve(snapshot: SessionDocument) | Fill | Submit
    | LookAtStop | LookAtIndex | Enter | Save(committed: bool) | Finish
    | Find | Copy | Deliver
    | RequestStop

  class AsyncSessionSaver {
    const capacity: nat
    const slots: array<Slot>
    var writeIndex: nat
    var processIndex: nat
    var readIndex: nat
    var lastSubmittedRevision: u64
    var stopRequested: bool
    var producer: ProducerPoint
    var worker: WorkerPoint
    var consumer: ConsumerPoint
    var rejected: nat
    ghost var accepted: seq<SessionDocument>
    ghost var completed: seq<Completion>
    ghost var delivered: seq<Completion>

    constructor (capacity: nat, blank: SessionDocument)
      requires capacity > 0
      ensures Valid() && fresh(slots) && accepted == [] && !stopRequested
    {
      this.capacity := capacity;
      slots := new Slot[capacity](_ => Slot(0, blank, Completion(0, false)));
      writeIndex, processIndex, readIndex, lastSubmittedRevision, stopRequested, rejected := 0, 0, 0, 0, false, 0;
      producer, worker, consumer := Ready, Looping, Waiting;
      accepted, completed, delivered := [], [], [];
    }

    /** The slot each party is touching; positions past the ring for a party that touches none. */
    function ProducerSlot(): nat
      requires capacity > 0
      reads this
    { if producer.Ready? then capacity else writeIndex % capacity }

    function WorkerSlot(): nat
      requires capacity > 0
      reads this
    { if worker.Saving? || worker.Written? then processIndex % capacity else capacity + 1 }

    function ConsumerSlot(): nat
      requires capacity > 0
      reads this
    { if consumer.Waiting? then capacity + 2 else readIndex % capacity }

    ghost predicate Ordered()
      reads this
    {
      && 0 < capacity == slots.Length && readIndex <= processIndex <= writeIndex <= readIndex + capacity
      && |accepted| == writeIndex && |completed| == processIndex && |delivered| == readIndex
      && delivered == completed[..readIndex]
    }

    /** Each party is where its slot is its own. */
    ghost predicate PartiesInPlace()
      reads this
    {
      && (!producer.Ready? ==> writeIndex < readIndex + capacity && producer.snapshot.revision > lastSubmittedRevision && !stopRequested)
      && (worker.Saving? || worker.Written? ==> processIndex < writeIndex)
      && (!consumer.Waiting? ==> readIndex < processIndex)
      && (worker.StopSeen? || worker.Returned? ==> stopRequested)
      && (worker.Returned? ==> processIndex == writeIndex)
    }

    /** Submitted snapshots wait in their slots, finished ones have left their completion. */
    ghost predicate SlotsHold()
      requires Ordered() && PartiesInPlace()
      reads this, slots
    {
      && (forall i :: processIndex <= i < writeIndex ==> Queued(slots[i % capacity], accepted[i]))
      && (forall i :: readIndex <= i < processIndex ==> slots[i % capacity].completion == completed[i])
      && (producer.Filled? ==> Queued(slots[writeIndex % capacity], producer.snapshot))
      && (worker.Written? ==> slots[processIndex % capacity].completion.revision == accepted[processIndex].revision)
      && (consumer.Copied? ==> consumer.completion == completed[readIndex])
    }

    /** One completion per accepted snapshot, in the order of acceptance; revisions increase. */
    ghost predicate InOrder()
      requires Ordered()
      reads this
    {
      && (forall i :: 0 <= i < processIndex ==> completed[i].revision == accepted[i].revision)
      && (forall i, j :: 0 <= i < j < writeIndex ==> accepted[i].revision < accepted[j].revision)
      && lastSubmittedRevision == (if accepted == [] then 0 else accepted[writeIndex - 1].revision)
    }

    ghost predicate Valid()
      reads this, slots
    {
      Ordered() && PartiesInPlace() && SlotsHold() && InOrder()
    }

    /** No slot is touched by two parties at once. */
    lemma SlotsAreDisjoint()
      requires Valid()
      ensures ProducerSlot() != WorkerSlot() && WorkerSlot() != ConsumerSlot() && ProducerSlot() != ConsumerSlot()
    {
      if !producer.Ready? && (worker.Saving? || worker.Written?) { NextSlotIsFree(0, processIndex, writeIndex, capacity); }
      if (worker.Saving? || worker.Written?) && !consumer.Waiting? { NextSlotIsFree(0, readIndex, processIndex, capacity); }
      if !producer.Ready? && !consumer.Waiting? { NextSlotIsFree(0, readIndex, writeIndex, capacity); }
    }

    /** A ring never holds two of its positions in one slot. */
    lemma OwnSlots(j: nat)
      requires Valid()
      ensures forall i :: readIndex <= i < readIndex + capacity && readIndex <= j < readIndex + capacity && i != j ==>
        i % capacity != j % capacity
    {
      forall i | readIndex <= i < readIndex + capacity && readIndex <= j < readIndex + capacity && i != j
        ensures i % capacity != j % capacity {
        if i < j { NextSlotIsFree(0, i, j, capacity); } else { NextSlotIsFree(0, j, i, capacity); }
      }
    }

    // ----- the producer

    /** The checks of `trySubmit`; a refused submission is counted. */
    method DoReserve(snapshot: SessionDocument)
      requires Valid() && producer.Ready?
      modifies this`producer, this`rejected
      ensures Valid()
      ensures producer == if Admits(snapshot) then Reserved(snapshot) else Ready
    {
      if stopRequested || snapshot.revision == 0 || snapshot.revision <= lastSubmittedRevision || writeIndex - readIndex >= capacity {
        rejected := rejected + 1;
      } else {
        producer := Reserved(snapshot);
      }
    }

    /** A newer revision is admitted while there is room and no stop was requested. */
    predicate Admits(snapshot: SessionDocument)
      reads this
    {
      !stopRequested && snapshot.revision != 0 && snapshot.revision > lastSubmittedRevision
        && writeIndex - readIndex < capacity
    }

    method DoFill()
      requires Valid() && producer.Reserved?
      modifies this`producer, slots
      ensures Valid() && producer == Filled(old(producer.snapshot))
    {
      OwnSlots(writeIndex);
      var index := writeIndex % capacity;
      slots[index] := slots[index].(revision := producer.snapshot.revision, snapshot := producer.snapshot);
      producer := Filled(producer.snapshot);
    }

    method DoSubmit()
      requires Valid() && producer.Filled?
      modifies this`producer, this`writeIndex, this`lastSubmittedRevision, this`accepted
      ensures Valid() && accepted == old(accepted) + [old(producer.snapshot)] && producer.Ready?
    {
      accepted := accepted + [producer.snapshot];
      lastSubmittedRevision := producer.snapshot.revision;
      writeIndex := writeIndex + 1;
      producer := Ready;
    }

    // ----- the worker

    /** The loop condition loads the stop flag first. */
    method DoLookAtStop()
      requires Valid() && worker.Looping?
      modifies this`worker
      ensures Valid() && worker == if stopRequested then StopSeen else Entered
    {
      worker := if stopRequested then StopSeen else Entered;
    }

    /** Only after a stop was seen does it load the write index: nothing can be submitted in between that this load
        would not see. */
    method DoLookAtIndex()
      requires Valid() && worker.StopSeen?
      modifies this`worker
      ensures Valid() && worker == if processIndex < writeIndex then Entered else Returned
    {
      worker := if processIndex < writeIndex then Entered else Returned;
    }

    /** The loop body takes the next slot, or waits for one. */
    method DoEnter()
      requires Valid() && worker.Entered?
      modifies this`worker
      ensures Valid() && worker == if processIndex < writeIndex then Saving else Looping
    {
      worker := if processIndex == writeIndex then Looping else Saving;
    }

    method DoSave(committed: bool)
      requires Valid() && worker.Saving?
      modifies this`worker, slots
      ensures Valid() && worker == Written
      ensures slots[processIndex % capacity].completion == Completion(accepted[processIndex].revision, committed)
    {
      OwnSlots(processIndex);
      var index := processIndex % capacity;
      slots[index] := slots[index].(completion := Completion(slots[index].revision, committed));
      worker := Written;
    }

    method DoFinish()
      requires Valid() && worker.Written?
      modifies this`worker, this`processIndex, this`completed
      ensures Valid() && worker == Looping
        && completed == old(completed) + [slots[old(processIndex) % capacity].completion]
    {
      completed := completed + [slots[processIndex % capacity].completion];
      processIndex := processIndex + 1;
      worker := Looping;
    }

    // ----- the consumer

    method DoFind()
      requires Valid() && consumer.Waiting?
      modifies this`consumer
      ensures Valid() && consumer == if readIndex < processIndex then Found else Waiting
    {
      if readIndex != processIndex {
        consumer := Found;
      }
    }

    method DoCopy()
      requires Valid() && consumer.Found?
      modifies this`consumer
      ensures Valid() && consumer == Copied(completed[readIndex])
    {
      consumer := Copied(slots[readIndex % capacity].completion);
    }

    method DoDeliver()
      requires Valid() && consumer.Copied?
      modifies this`consumer, this`readIndex, this`delivered
      ensures Valid() && delivered == old(delivered) + [old(consumer.completion)] && readIndex == old(readIndex) + 1
        && consumer.Waiting?
    {
      delivered := delivered + [consumer.completion];
      readIndex := readIndex + 1;
      consumer := Waiting;
    }

    /** `stop` is called by the producer's thread, between submissions. */
    method DoRequestStop()
      requires Valid() && producer.Ready?
      modifies this`stopRequested
      ensures Valid() && stopRequested
    {
      stopRequested := true;
    }

    /** Joining the worker: once it has returned, every accepted snapshot has been processed. */
    lemma StoppedIsDrained()
      requires Valid() && worker.Returned?
      ensures |completed| == |accepted| && forall i :: 0 <= i < |accepted| ==>
        completed[i].revision == accepted[i].revision
    {}

    /** What has been completed and read has been delivered. */
    lemma AllDelivered()
      requires Valid() && readIndex == processIndex
      ensures delivered == completed
    {}

    // ----- whole calls, while the other parties rest

    /** `trySubmit`. */
    method TrySubmit(snapshot: SessionDocument) returns (ok: bool)
      requires Valid() && producer.Ready?
      modifies this, slots
      ensures Valid() && producer.Ready? && ok == old(Admits(snapshot))
      ensures accepted == if ok then old(accepted) + [snapshot] else old(accepted)
      ensures worker == old(worker) && consumer == old(consumer) && processIndex == old(processIndex)
        && readIndex == old(readIndex)
      ensures completed == old(completed) && delivered == old(delivered) && stopRequested == old(stopRequested)
    {
      DoReserve(snapshot);
      ok := producer.Reserved?;
      if ok {
        DoFill();
        DoSubmit();
      }
    }

    /** `tryPopCompletion`. */
    method TryPopCompletion() returns (ok: bool, completion: Completion)
      requires Valid() && consumer.Waiting?
      modifies this`consumer, this`readIndex, this`delivered
      ensures Valid() && consumer.Waiting? && ok == (old(readIndex) < processIndex)
      ensures readIndex == old(readIndex) + if ok then 1 else 0
      ensures ok ==> completion == completed[old(readIndex)] && delivered == old(delivered) + [completion]
      ensures !ok ==> delivered == old(delivered)
    {
      DoFind();
      if consumer.Waiting? {
        return false, Completion(0, false);
      }
      ok := true;
      completion := TakeFound();
    }

    method TakeFound() returns (completion: Completion)
      requires Valid() && consumer.Found?
      modifies this`consumer, this`readIndex, this`delivered
      ensures Valid() && consumer.Waiting? && readIndex == old(readIndex) + 1
      ensures completion == completed[old(readIndex)] && delivered == old(delivered) + [completion]
    {
      DoCopy();
      completion := consumer.completion;
      DoDeliver();
    }

    /** The worker goes once around its loop. */
    method WorkerTurn(committed: bool)
      requires Valid() && worker.Looping?
      modifies this`worker, this`processIndex, this`completed, slots
      ensures Valid() && (worker.Looping? || worker.Returned?)
      ensures old(processIndex) < writeIndex ==> worker.Looping? && processIndex == old(processIndex) + 1
      ensures old(processIndex) < writeIndex ==>
        completed == old(completed) + [Completion(accepted[old(processIndex)].revision, committed)]
      ensures old(processIndex) == writeIndex ==>
        processIndex == old(processIndex) && completed == old(completed)
          && (stopRequested && producer.Ready? ==> worker.Returned?)
    {
      DoLookAtStop();
      if worker.StopSeen? {
        DoLookAtIndex();
      }
      if worker.Entered? {
        DoEnter();
      }
      if worker.Saving? {
        DoSave(committed);
        DoFinish();
      }
    }

    /** The rest of `stop`: the worker ends its saves, all with the same outcome, and returns. */
    method JoinWorker(committed: bool)
      requires Valid() && worker.Looping? && stopRequested && producer.Ready?
      modifies this`worker, this`processIndex, this`completed, slots
      ensures Valid() && worker.Returned? && processIndex == writeIndex && old(completed) <= completed
      ensures forall i :: old(processIndex) <= i < processIndex ==>
        completed[i] == Completion(accepted[i].revision, committed)
    {
      while processIndex < writeIndex
        invariant Valid() && worker.Looping? && old(completed) <= completed
        invariant forall i :: old(processIndex) <= i < processIndex ==>
          completed[i] == Completion(accepted[i].revision, committed)
      {
        WorkerTurn(committed);
      }
      WorkerTurn(committed);
    }

    /** Any interleaving of the three parties; a step that its party cannot take now is skipped. Every delivered
        completion answers the accepted snapshot of the same number. */
    method Run(steps: seq<Step>)
      requires Valid()
      modifies this, slots
      ensures Valid() && readIndex <= processIndex <= writeIndex <= readIndex + capacity
      ensures forall i :: 0 <= i < |delivered| ==> i < |accepted| && delivered[i].revision == accepted[i].revision
    {
      var k := 0;
      while k < |steps|
        invariant Valid()
      {
        match steps[k] {
          case Reserve(snapshot) => if producer.Ready? { DoReserve(snapshot); }
          case Fill => if producer.Reserved? { DoFill(); }
          case Submit => if producer.Filled? { DoSubmit(); }
          case LookAtStop => if worker.Looping? { DoLookAtStop(); }
          case LookAtIndex => if worker.StopSeen? { DoLookAtIndex(); }
          case Enter => if worker.Entered? { DoEnter(); }
          case Save(committed) => if worker.Saving? { DoSave(committed); }
          case Finish => if worker.Written? { DoFinish(); }
          case Find => if consumer.Waiting? { DoFind(); }
          case Copy => if consumer.Found? { DoCopy(); }
          case Deliver => if consumer.Copied? { DoDeliver(); }
          case RequestStop => if producer.Ready? { DoRequestStop(); }
        }
        k := k + 1;
      }
    }
  }

  predicate Queued(slot: Slot, snapshot: SessionDocument) {
    slot.revision == snapshot.revision && slot.snapshot == snapshot
  }
}
