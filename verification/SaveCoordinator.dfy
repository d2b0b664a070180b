/** The coalescing save coordinator over a pipeline of one slot: at most one save is in flight, and only the newest
    requested snapshot waits behind it. */
module SaveCoordinators {
  import opened SessionDocuments
  import opened Codecs
  import opened AsyncSessionSavers

  datatype RequestStatus = Accepted | Coalesced | AlreadyRequested | InvalidRevision | Stopped

  datatype QueryStatus = Committed | Failed | Pending | Unknown

  /** What the worker did since the last call: nothing, or its save ended. */
  type Progress = Option<bool>

  function Max(a: u64, b: u64): u64 { if a < b then b else a }

  /** The durable revision after some saves have ended. */
  function DurableAfter(initial: u64, ended: seq<Completion>): u64 {
    if ended == [] then initial
    else
      var before, last := DurableAfter(initial, ended[..|ended| - 1]), ended[|ended| - 1];
      if last.committed then Max(before, last.revision) else before
  }

  /** The revision of the last save, if that one failed. */
  function FailedAfter(ended: seq<Completion>): u64 {
    if ended == [] || ended[|ended| - 1].committed then 0 else ended[|ended| - 1].revision
  }

  /** It is the largest of the initial revision and those of the saves that were committed. */
  lemma {:induction false} DurableIsMaximum(initial: u64, ended: seq<Completion>)
    ensures var durable := DurableAfter(initial, ended);
      && initial <= durable
      && (forall k :: 0 <= k < |ended| && ended[k].committed ==> ended[k].revision <= durable)
      && (durable == initial || exists k :: 0 <= k < |ended| && ended[k] == Completion(durable, true))
  {
    if ended != [] {
      var last := |ended| - 1;
      DurableIsMaximum(initial, ended[..last]);
      assert forall k :: 0 <= k < last ==> ended[..last][k] == ended[k];
    }
  }

  /** The revisions are those that the ended saves tell. (Behind a quantifier so that methods carry it as one fact.) */
  ghost predicate Remembers(initial: u64, ended: seq<Completion>, durable: u64, failed: u64) {
    forall seal: bool {:trigger RevisionsTold(initial, ended, durable, failed, seal)} ::
      RevisionsTold(initial, ended, durable, failed, seal)
  }

  ghost predicate RevisionsTold(initial: u64, ended: seq<Completion>, durable: u64, failed: u64, seal: bool) {
    durable == DurableAfter(initial, ended) && failed == FailedAfter(ended)
  }

  /** What that means: the durable revision is the largest of the initial one and those of the committed saves, and the
      failed one is that of the last save, if it was not committed. */
  lemma RememberedRevisions(initial: u64, ended: seq<Completion>, durable: u64, failed: u64)
    requires Remembers(initial, ended, durable, failed)
    ensures initial <= durable && forall k :: 0 <= k < |ended| && ended[k].committed ==> ended[k].revision <= durable
    ensures durable == initial || exists k :: 0 <= k < |ended| && ended[k] == Completion(durable, true)
    ensures failed == if ended != [] && !ended[|ended| - 1].committed then ended[|ended| - 1].revision else 0
  {
    assert RevisionsTold(initial, ended, durable, failed, true);
    DurableIsMaximum(initial, ended);
  }

  lemma RemembersOneMore(initial: u64, ended: seq<Completion>, durable: u64, failed: u64, c: Completion,
    more: seq<Completion>)
    requires Remembers(initial, ended, durable, failed) == true && more == ended + [c]
    ensures Remembers(initial, more,
      if c.committed then Max(durable, c.revision) else durable, if c.committed then 0 else c.revision) == true
  {
    assert RevisionsTold(initial, ended, durable, failed, true);
    assert more[..|more| - 1] == ended;
  }

  /** The completions of `more` have come behind those of `before`. */
  ghost predicate Grown(before: seq<Completion>, more: seq<Completion>, after: seq<Completion>) {
    after == before + more
  }

  lemma GrownTwice(a: seq<Completion>, x: seq<Completion>, b: seq<Completion>, y: seq<Completion>, c: seq<Completion>,
    all: seq<Completion>)
    requires Grown(a, x, b) == true && Grown(b, y, c) == true && all == x + y
    ensures Grown(a, all, c) == true
  {
    assert a + (x + y) == (a + x) + y;
  }

  /** How a save in flight ends, if there is one. */
  function Ended(revision: u64, committed: bool): seq<Completion> {
    if revision == 0 then [] else [Completion(revision, committed)]
  }

  lemma NothingGrown(a: seq<Completion>)
    ensures Grown(a, [], a) == true
  {}

  class SessionSaveCoordinator {
    const saver: AsyncSessionSaver
    ghost const initialRevision: u64
    var pending: Option<SessionDocument>
    var requestedRevision: u64
    var durableRevision: u64
    var failedRevision: u64
    var inFlightRevision: u64
    var submittedCount: nat
    var coalescedCount: nat
    var stopped: bool

    constructor (saver: AsyncSessionSaver, initialDurableRevision: u64)
      requires saver.Valid() && saver.capacity == 1 && saver.accepted == [] && saver.producer.Ready?
        && saver.consumer.Waiting?
      requires saver.worker.Looping? && !saver.stopRequested
      ensures Valid() && this.saver == saver && durableRevision == initialDurableRevision && requestedRevision == 0
        && !stopped && initialRevision == initialDurableRevision
    {
      this.saver := saver;
      initialRevision := initialDurableRevision;
      pending, requestedRevision, durableRevision, failedRevision, inFlightRevision := None, 0, initialDurableRevision,
        0, 0;
      submittedCount, coalescedCount, stopped := 0, 0, false;
    }

    /** The revision of the last submitted snapshot has been answered. */
    predicate Resolved(revision: u64)
      reads this`durableRevision, this`failedRevision
    {
      revision == 0 || durableRevision >= revision || failedRevision == revision
    }

    /** The revisions remembered here are those the delivered completions tell. */
    ghost predicate Recorded()
      reads this`durableRevision, this`failedRevision, saver`delivered
    {
      Remembers(initialRevision, saver.delivered, durableRevision, failedRevision) == true
    }

    /** One slot, with this object as its only producer and consumer; the save in it is the one in flight, and it is
        the last one submitted. */
    ghost predicate Pipeline()
      reads this`inFlightRevision, this`durableRevision, this`failedRevision, this`submittedCount, saver, saver.slots
    {
      && saver.Valid() && saver.capacity == 1 && saver.producer.Ready? && saver.consumer.Waiting?
      && (inFlightRevision != 0 <==> saver.readIndex < saver.writeIndex)
      && (inFlightRevision != 0 ==> inFlightRevision == saver.lastSubmittedRevision)
      && (inFlightRevision == 0 ==> Resolved(saver.lastSubmittedRevision))
      && submittedCount == |saver.accepted| && Recorded()
    }

    /** What waits is the newest request, newer than everything submitted. */
    ghost predicate Requests()
      reads this`pending, this`requestedRevision, saver`lastSubmittedRevision
    {
      && (pending.Some? ==> saver.lastSubmittedRevision < pending.value.revision == requestedRevision)
      && (pending.None? ==> requestedRevision == saver.lastSubmittedRevision)
    }

    ghost predicate Running()
      reads this, saver, saver.slots
    {
      Pipeline() == true && Requests() && !stopped && !saver.stopRequested && saver.worker.Looping?
    }

    /** After every public call before `stop`: something only waits behind a save in flight. */
    ghost predicate Valid()
      reads this, saver, saver.slots
    {
      if stopped then Drained()
      else Running() && saver.readIndex == saver.processIndex && (pending.Some? ==> inFlightRevision != 0)
    }

    /** After `stop`: nothing waits or is in flight, and the newest request is answered. */
    ghost predicate Drained()
      reads this`pending, this`inFlightRevision, this`requestedRevision, this`durableRevision, this`failedRevision,
        saver
    {
      pending.None? && inFlightRevision == 0 && Resolved(requestedRevision)
        && |saver.completed| == |saver.accepted| == |saver.delivered| && Recorded()
    }

    method ApplyCompletion(c: Completion)
      modifies this`inFlightRevision, this`durableRevision, this`failedRevision
      ensures inFlightRevision == 0 && Resolved(c.revision)
      ensures durableRevision == if c.committed then Max(old(durableRevision), c.revision) else old(durableRevision)
      ensures failedRevision == if c.committed then 0 else c.revision
    {
      inFlightRevision := 0;
      if c.committed {
        durableRevision := Max(durableRevision, c.revision);
        failedRevision := 0;
      } else {
        failedRevision := c.revision;
      }
    }

    /** Submits what waits once nothing is in flight; the pipeline never refuses it. */
    method SubmitPending()
      requires Running() && saver.readIndex == saver.processIndex
      modifies this`pending, this`inFlightRevision, this`submittedCount, saver, saver.slots
      ensures saver.delivered == old(saver.delivered)
      ensures Valid() && !stopped && requestedRevision == old(requestedRevision)
      ensures old(pending.Some? && inFlightRevision == 0) ==>
        pending.None? && inFlightRevision == requestedRevision
          && saver.accepted == old(saver.accepted) + [old(pending).value]
      ensures !old(pending.Some? && inFlightRevision == 0) ==>
        pending == old(pending) && inFlightRevision == old(inFlightRevision)
      ensures old(inFlightRevision) != 0 || old(pending).None? ==>
        saver.processIndex == old(saver.processIndex) && saver.writeIndex == old(saver.writeIndex)
    {
      if pending.None? || inFlightRevision != 0 || stopped {
        return;
      }
      var revision := pending.value.revision;
      var ok := saver.TrySubmit(pending.value);
      if ok {
        inFlightRevision := revision;
        pending := None;
        submittedCount := submittedCount + 1;
      }
    }

    /** Takes the next completion, if there is one. */
    method TakeNext() returns (ok: bool)
      requires Pipeline() == true
      modifies this`inFlightRevision, this`durableRevision, this`failedRevision, saver`consumer, saver`readIndex,
        saver`delivered
      ensures Pipeline() == true && ok == old(saver.readIndex < saver.processIndex)
        && durableRevision >= old(durableRevision)
      ensures saver.readIndex == old(saver.readIndex) + if ok then 1 else 0
      ensures inFlightRevision == if ok then 0 else old(inFlightRevision)
    {
      ghost var told := saver.delivered;
      var completion;
      ok, completion := saver.TryPopCompletion();
      if ok {
        RemembersOneMore(initialRevision, told, durableRevision, failedRevision, completion, saver.delivered);
        ApplyCompletion(completion);
      }
    }

    /** Takes every completion there is: at most the one in flight. */
    method DrainCompletions()
      requires Pipeline() == true
      modifies this`inFlightRevision, this`durableRevision, this`failedRevision, saver`consumer, saver`readIndex,
        saver`delivered
      ensures Pipeline() == true && saver.readIndex == saver.processIndex && durableRevision >= old(durableRevision)
      ensures saver.delivered == saver.completed
      ensures inFlightRevision == if old(saver.readIndex < saver.processIndex) then 0 else old(inFlightRevision)
    {
      var more := TakeNext();
      while more
        invariant Pipeline() == true && durableRevision >= old(durableRevision)
        invariant saver.readIndex == saver.processIndex
        invariant inFlightRevision == if old(saver.readIndex < saver.processIndex) then 0 else old(inFlightRevision)
        decreases more
      {
        more := TakeNext();
      }
      saver.AllDelivered();
    }

    /** What the worker's progress will tell: how the save in flight ended. */
    ghost function Told(progress: Progress): seq<Completion>
      reads this
    {
      if !stopped && progress.Some? && inFlightRevision != 0 then [Completion(inFlightRevision, progress.value)] else []
    }

    /** `pump`. */
    method Pump(progress: Progress)
      requires Valid()
      modifies this, saver, saver.slots
      ensures Valid() && stopped == old(stopped) && requestedRevision == old(requestedRevision)
        && durableRevision >= old(durableRevision)
      ensures Recorded() && Grown(old(saver.delivered), old(Told(progress)), saver.delivered) == true
      ensures !stopped && progress.Some? && old(inFlightRevision) != 0 ==>
        pending.None? && inFlightRevision == if old(pending).Some? then requestedRevision else 0
      ensures !stopped && progress.None? ==> pending == old(pending) && inFlightRevision == old(inFlightRevision)
    {
      NothingGrown(saver.delivered);
      if stopped {
        return;
      }
      Settle(progress);
      SubmitPending();
    }

    /** Lets the worker make its progress and takes its completion. */
    method Settle(progress: Progress)
      requires Running() && saver.readIndex == saver.processIndex
      modifies this`inFlightRevision, this`durableRevision, this`failedRevision, saver, saver.slots
      ensures saver.readIndex == saver.processIndex
        && Grown(old(saver.delivered), old(Told(progress)), saver.delivered) == true
      ensures Running() && durableRevision >= old(durableRevision)
      ensures inFlightRevision == if progress.Some? then 0 else old(inFlightRevision)
    {
      saver.AllDelivered();
      TurnWorker(progress);
      DrainCompletions();
    }

    /** Lets the worker end the save in flight, if it makes progress. */
    method TurnWorker(progress: Progress)
      requires Running() && saver.readIndex == saver.processIndex
      modifies saver`worker, saver`processIndex, saver`completed, saver.slots
      ensures Pipeline() == true && saver.worker.Looping?
        && Grown(old(saver.completed), old(Told(progress)), saver.completed) == true
      ensures saver.readIndex < saver.processIndex <==> progress.Some? && inFlightRevision != 0
    {
      if progress.Some? {
        saver.WorkerTurn(progress.value);
      }
    }

    /** `requestSave`: takes a snapshot newer than the newest request, and lets it wait if a save is in flight. */
    method RequestSave(snapshot: SessionDocument, progress: Progress) returns (status: RequestStatus)
      requires Valid()
      modifies this, saver, saver.slots
      ensures Valid() && stopped == old(stopped) && durableRevision >= old(durableRevision)
      ensures Recorded()
        && Grown(old(saver.delivered),
          if snapshot.revision == 0 then [] else old(Told(progress)), saver.delivered) == true
      ensures status == Stopped <==> stopped
      ensures status == InvalidRevision <==>
        !stopped && (snapshot.revision == 0 || snapshot.revision < old(requestedRevision)
          || snapshot.revision < durableRevision)
      ensures status == AlreadyRequested <==>
        !stopped && snapshot.revision != 0 && snapshot.revision >= durableRevision
          && snapshot.revision == old(requestedRevision)
      ensures status == Accepted || status == Coalesced <==> requestedRevision > old(requestedRevision)
      ensures requestedRevision
        == if status == Accepted || status == Coalesced then snapshot.revision else old(requestedRevision)
      ensures status == Accepted ==> inFlightRevision == snapshot.revision && pending.None?
      ensures status == Coalesced ==> pending == Some(snapshot) && inFlightRevision != 0
    {
      NothingGrown(saver.delivered);
      if stopped {
        return Stopped;
      }
      if snapshot.revision == 0 {
        return InvalidRevision;
      }
      Pump(progress);
      if snapshot.revision < requestedRevision || snapshot.revision < durableRevision {
        return InvalidRevision;
      }
      if snapshot.revision == requestedRevision {
        return AlreadyRequested;
      }
      status := Enqueue(snapshot);
    }

    method Enqueue(snapshot: SessionDocument) returns (status: RequestStatus)
      requires Valid() && !stopped && snapshot.revision > requestedRevision
      modifies this`pending, this`requestedRevision, this`coalescedCount, this`inFlightRevision, this`submittedCount,
        saver, saver.slots
      ensures Valid() && !stopped && requestedRevision == snapshot.revision && saver.delivered == old(saver.delivered)
      ensures status == if old(inFlightRevision) != 0 then Coalesced else Accepted
      ensures status == Accepted ==> inFlightRevision == snapshot.revision && pending.None?
      ensures status == Coalesced ==> pending == Some(snapshot) && inFlightRevision != 0
    {
      var waits := pending.Some? || inFlightRevision != 0;
      pending := Some(snapshot);
      requestedRevision := snapshot.revision;
      if waits {
        coalescedCount := coalescedCount + 1;
      }
      SubmitPending();
      status := if waits then Coalesced else Accepted;
    }

    /** `query`: a revision up to the newest request is committed, failed or pending. */
    method Query(revision: u64, progress: Progress) returns (status: QueryStatus)
      requires Valid()
      modifies this, saver, saver.slots
      ensures Valid() && requestedRevision == old(requestedRevision) && durableRevision >= old(durableRevision)
      ensures Recorded() && Grown(old(saver.delivered), old(Told(progress)), saver.delivered) == true
      ensures status == Unknown <==> revision == 0 || revision > requestedRevision
      ensures status == Committed <==> 0 < revision <= requestedRevision && durableRevision >= revision
      ensures status == Failed <==>
        0 < revision <= requestedRevision && durableRevision < revision && failedRevision == revision
      ensures stopped && revision == requestedRevision ==> status != Pending
    {
      Pump(progress);
      if revision == 0 || revision > requestedRevision {
        return Unknown;
      }
      status := if durableRevision >= revision then Committed else if failedRevision == revision then Failed else Pending;
    }

    /** How the saves end that are in flight or waiting when `stop` is called. */
    ghost function Remaining(first: bool, second: bool): seq<Completion>
      reads this
    {
      if stopped || inFlightRevision == 0 then []
      else if pending.None? then [Completion(inFlightRevision, second)]
      else [Completion(inFlightRevision, first), Completion(requestedRevision, second)]
    }

    /** `stop`: lets what waits follow the save in flight, then drains the pipeline. The worker ends its save after
        `polls` looks; `first` and `second` are how the save in flight and the last one end. */
    method Stop(polls: nat, first: bool, second: bool)
      requires Valid()
      modifies this, saver, saver.slots
      ensures Valid() && stopped && requestedRevision == old(requestedRevision)
        && durableRevision >= old(durableRevision)
      ensures Recorded() && Grown(old(saver.delivered), old(Remaining(first, second)), saver.delivered) == true
    {
      NothingGrown(saver.delivered);
      if stopped {
        return;
      }
      ghost var told, revision := saver.delivered, inFlightRevision;
      ghost var waits := pending.Some?;
      AwaitSlot(polls, first);
      ghost var between := saver.delivered;
      EndPipeline(second);
      GrownTwice(told, if waits then [Completion(revision, first)] else [], between,
        Ended(if waits then requestedRevision else revision, second), saver.delivered, old(Remaining(first, second)));
    }

    /** Waits until nothing waits behind the save in flight. */
    method AwaitSlot(polls: nat, outcome: bool)
      requires Valid() && !stopped
      modifies this, saver, saver.slots
      ensures Valid() && !stopped && pending.None? && requestedRevision == old(requestedRevision)
        && durableRevision >= old(durableRevision)
      ensures inFlightRevision == if old(pending).Some? then requestedRevision else old(inFlightRevision)
      ensures Grown(old(saver.delivered),
        if old(pending).Some? then [Completion(old(inFlightRevision), outcome)] else [],
        saver.delivered) == true
    {
      NothingGrown(saver.delivered);
      var left := polls;
      while pending.Some? && inFlightRevision != 0
        invariant Valid() && !stopped && requestedRevision == old(requestedRevision)
          && durableRevision >= old(durableRevision)
        invariant pending.Some? ==>
          pending == old(pending) && inFlightRevision == old(inFlightRevision)
            && saver.delivered == old(saver.delivered)
        invariant pending.None? ==>
          && inFlightRevision == (if old(pending).Some? then requestedRevision else old(inFlightRevision))
          && Grown(old(saver.delivered),
            if old(pending).Some? then [Completion(old(inFlightRevision), outcome)] else [],
               saver.delivered) == true
        decreases pending.Some?, left
      {
        if left > 0 {
          Pump(None);
          left := left - 1;
        } else {
          Pump(Some(outcome));
        }
      }
    }

    /** The end of `stop`: the save in flight is drained. */
    method EndPipeline(outcome: bool)
      requires Valid() && !stopped && pending.None?
      modifies this, saver, saver.slots
      ensures Valid() && stopped && requestedRevision == old(requestedRevision)
        && durableRevision >= old(durableRevision)
      ensures Grown(old(saver.delivered), Ended(old(inFlightRevision), outcome), saver.delivered) == true
    {
      SubmitPending();
      DrainPipeline(outcome);
      stopped := true;
    }

    method DrainPipeline(outcome: bool)
      requires Running() && pending.None? && saver.readIndex == saver.processIndex
      modifies this`inFlightRevision, this`durableRevision, this`failedRevision, saver, saver.slots
      ensures Drained() == true && durableRevision >= old(durableRevision)
      ensures Grown(old(saver.delivered), Ended(old(inFlightRevision), outcome), saver.delivered) == true
    {
      saver.AllDelivered();
      StopSaver(outcome);
      DrainCompletions();
      EndIsDrained();
    }

    lemma EndIsDrained()
      requires Pipeline() && Requests() && pending.None? && inFlightRevision == 0
      requires saver.readIndex == saver.processIndex == saver.writeIndex
      ensures Drained() == true
    {}

    /** `AsyncSessionSaver::stop`: the worker returns once every accepted snapshot is processed. */
    method StopSaver(outcome: bool)
      requires Running() && pending.None? && saver.readIndex == saver.processIndex
      modifies saver`worker, saver`processIndex, saver`completed, saver`stopRequested, saver.slots
      ensures Pipeline() == true && Requests() && saver.worker.Returned? && saver.processIndex == saver.writeIndex
      ensures Grown(old(saver.completed), Ended(inFlightRevision, outcome), saver.completed) == true
    {
      saver.DoRequestStop();
      saver.JoinWorker(outcome);
    }
  }
}
