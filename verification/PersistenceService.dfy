/** The autosave service: tracks the newest unsaved snapshot, asks for a save when its deadline passes, and hands the
    last one over when it stops. Its methods and its worker's rounds exclude each other by one lock. */
module PersistenceServices {
  import opened SessionDocuments
  import opened Codecs
  import opened AsyncSessionSavers
  import opened SaveCoordinators

  datatype DirtyStatus = Tracked | Replaced | AlreadyTracked | AlreadyDurable | NoRevision | ServiceStopped

  /** How a snapshot is tracked beside the one tracked before, which counts only while it is not durable. */
  predicate Judged(before: Option<SessionDocument>, snapshot: SessionDocument, durable: u64, status: DirtyStatus,
    after: Option<SessionDocument>)
  {
    var tracked := if before.Some? && before.value.revision > durable then before else None;
    if snapshot.revision <= durable then status == AlreadyDurable && after == tracked
    else if tracked.None? then status == Tracked && after == Some(snapshot)
    else if snapshot.revision <= tracked.value.revision then status == AlreadyTracked && after == tracked
    else status == Replaced && after == Some(snapshot)
  }

  class SessionPersistenceService {
    const coordinator: SessionSaveCoordinator
    const autosaveInterval: nat
    var dirtySnapshot: Option<SessionDocument>
    var autosaveDeadline: int
    var deadlineArmed: bool
    var autosaveRequestCount: nat
    var dirtyReplacementCount: nat
    var started: bool
    var stopRequested: bool
    var stopped: bool

    constructor (coordinator: SessionSaveCoordinator, autosaveInterval: nat)
      requires coordinator.Valid() && !coordinator.stopped && autosaveInterval > 0
      ensures Valid() && !started && !stopped && this.coordinator == coordinator && dirtySnapshot.None?
    {
      this.coordinator, this.autosaveInterval := coordinator, autosaveInterval;
      dirtySnapshot, autosaveDeadline, deadlineArmed := None, 0, false;
      autosaveRequestCount, dirtyReplacementCount := 0, 0;
      started, stopRequested, stopped := false, false, false;
    }

    /** A deadline is armed exactly while a snapshot is tracked; the coordinator runs as long as the service does. */
    ghost predicate Valid()
      reads this, coordinator, coordinator.saver, coordinator.saver.slots
    {
      && coordinator.Valid() && (coordinator.stopped <==> stopped)
      && (deadlineArmed <==> dirtySnapshot.Some?) && (dirtySnapshot.Some? ==> dirtySnapshot.value.revision != 0)
    }

    /** A tracked snapshot is newer than what is durable. */
    ghost predicate Reconciled()
      reads this, coordinator
    {
      dirtySnapshot.Some? ==> dirtySnapshot.value.revision > coordinator.durableRevision
    }

    method ReconcileDurableState()
      requires Valid()
      modifies this`dirtySnapshot, this`deadlineArmed
      ensures Valid() && Reconciled()
      ensures dirtySnapshot ==
        if old(dirtySnapshot.Some? && dirtySnapshot.value.revision <= coordinator.durableRevision)
        then None else old(dirtySnapshot)
    {
      if dirtySnapshot.Some? && coordinator.durableRevision >= dirtySnapshot.value.revision {
        dirtySnapshot := None;
        deadlineArmed := false;
      }
    }

    method Start() returns (ok: bool)
      requires Valid()
      modifies this`started
      ensures Valid() && ok == (!stopped && !stopRequested && !old(started)) && started == (old(started) || ok)
    {
      ok := !stopped && !stopRequested && !started;
      started := started || ok;
    }

    /** `markDirty`: tracks a snapshot newer than the durable and the tracked one; the first one arms the deadline. */
    method MarkDirty(snapshot: SessionDocument, now: int, progress: Progress) returns (status: DirtyStatus)
      requires Valid()
      modifies this`dirtySnapshot, this`autosaveDeadline, this`deadlineArmed, this`dirtyReplacementCount, coordinator,
        coordinator.saver, coordinator.saver.slots
      ensures Valid()
      ensures coordinator.requestedRevision == old(coordinator.requestedRevision)
        && coordinator.durableRevision >= old(coordinator.durableRevision)
      ensures status == NoRevision <==> snapshot.revision == 0
      ensures status == ServiceStopped <==> snapshot.revision != 0 && (stopped || stopRequested)
      ensures status == NoRevision || status == ServiceStopped ==> dirtySnapshot == old(dirtySnapshot)
      ensures status != NoRevision && status != ServiceStopped ==>
        Reconciled() && Judged(old(dirtySnapshot), snapshot, coordinator.durableRevision, status, dirtySnapshot)
      ensures status == Tracked ==> autosaveDeadline == now + autosaveInterval
      ensures status == Replaced ==> autosaveDeadline == old(autosaveDeadline)
      ensures Grown(old(coordinator.saver.delivered),
        if status == NoRevision || status == ServiceStopped then [] else old(coordinator.Told(progress)),
        coordinator.saver.delivered) == true
    {
      NothingGrown(coordinator.saver.delivered);
      if snapshot.revision == 0 {
        return NoRevision;
      }
      if stopped || stopRequested {
        return ServiceStopped;
      }
      coordinator.Pump(progress);
      status := Judge(snapshot, now);
    }

    /** Drops what has become durable and tracks the snapshot if it is newer than that and than what is tracked. */
    method Judge(snapshot: SessionDocument, now: int) returns (status: DirtyStatus)
      requires Valid() && snapshot.revision != 0
      modifies this`dirtySnapshot, this`autosaveDeadline, this`deadlineArmed, this`dirtyReplacementCount
      ensures Valid() && Reconciled()
      ensures Judged(old(dirtySnapshot), snapshot, coordinator.durableRevision, status, dirtySnapshot)
      ensures status == Tracked ==> autosaveDeadline == now + autosaveInterval
      ensures status == Replaced ==> autosaveDeadline == old(autosaveDeadline)
    {
      ReconcileDurableState();
      if snapshot.revision <= coordinator.durableRevision {
        return AlreadyDurable;
      }
      if dirtySnapshot.Some? && snapshot.revision <= dirtySnapshot.value.revision {
        return AlreadyTracked;
      }
      status := Track(snapshot, now);
    }

    method Track(snapshot: SessionDocument, now: int) returns (status: DirtyStatus)
      requires Valid() && snapshot.revision > 0
      modifies this`dirtySnapshot, this`autosaveDeadline, this`deadlineArmed, this`dirtyReplacementCount
      ensures Valid() && dirtySnapshot == Some(snapshot)
      ensures status == if old(dirtySnapshot).Some? then Replaced else Tracked
      ensures autosaveDeadline == if status == Tracked then now + autosaveInterval else old(autosaveDeadline)
    {
      status := if dirtySnapshot.Some? then Replaced else Tracked;
      if dirtySnapshot.Some? {
        dirtyReplacementCount := dirtyReplacementCount + 1;
      }
      dirtySnapshot := Some(snapshot);
      if !deadlineArmed {
        autosaveDeadline := now + autosaveInterval;
        deadlineArmed := true;
      }
    }

    /** `requestSave`: an explicit save postpones the autosave of a tracked snapshot. */
    method RequestSave(snapshot: SessionDocument, now: int, progress: Progress) returns (status: RequestStatus)
      requires Valid()
      modifies this`autosaveDeadline, this`deadlineArmed, coordinator, coordinator.saver, coordinator.saver.slots
      ensures Valid() && coordinator.durableRevision >= old(coordinator.durableRevision)
      ensures status == Stopped <==> stopped || stopRequested
      ensures status == InvalidRevision <==>
        status != Stopped && (snapshot.revision == 0 || snapshot.revision < old(coordinator.requestedRevision)
          || snapshot.revision < coordinator.durableRevision)
      ensures status == AlreadyRequested <==>
        status != Stopped && snapshot.revision != 0 && snapshot.revision >= coordinator.durableRevision
        && snapshot.revision == old(coordinator.requestedRevision)
      ensures coordinator.requestedRevision ==
        if status == Accepted || status == Coalesced then snapshot.revision else old(coordinator.requestedRevision)
      ensures autosaveDeadline ==
        if status in {Accepted, Coalesced, AlreadyRequested} && dirtySnapshot.Some? then now + autosaveInterval
        else old(autosaveDeadline)
    {
      if stopped || stopRequested {
        return Stopped;
      }
      status := coordinator.RequestSave(snapshot, progress);
      if status == Accepted || status == Coalesced || status == AlreadyRequested {
        if dirtySnapshot.Some? {
          autosaveDeadline := now + autosaveInterval;
          deadlineArmed := true;
        }
      }
    }

    /** One round of the worker: a tracked snapshot whose deadline has passed is requested. */
    method Round(now: int, progress: Progress, later: Progress)
      requires Valid() && started && !stopRequested && !stopped
      modifies this`dirtySnapshot, this`deadlineArmed, this`autosaveDeadline, this`autosaveRequestCount, coordinator,
        coordinator.saver, coordinator.saver.slots
      ensures Valid() && coordinator.durableRevision >= old(coordinator.durableRevision)
      ensures coordinator.requestedRevision >= old(coordinator.requestedRevision)
      ensures dirtySnapshot.Some? && now >= old(autosaveDeadline) ==>
        Asked(dirtySnapshot.value.revision) && autosaveDeadline == now + autosaveInterval
      ensures autosaveRequestCount > old(autosaveRequestCount) ==>
        old(dirtySnapshot).Some? && coordinator.requestedRevision == old(dirtySnapshot).value.revision
      ensures now < old(autosaveDeadline) || old(dirtySnapshot).None? ==>
        coordinator.requestedRevision == old(coordinator.requestedRevision)
        && autosaveDeadline == old(autosaveDeadline) && autosaveRequestCount == old(autosaveRequestCount)
      ensures dirtySnapshot == old(dirtySnapshot)
        || (dirtySnapshot.None? && old(dirtySnapshot).value.revision <= coordinator.durableRevision)
    {
      coordinator.Pump(progress);
      ReconcileDurableState();
      RequestTracked(now, later);
    }

    /** Requests the tracked snapshot once its deadline has passed. */
    method RequestTracked(now: int, later: Progress)
      requires Valid() && !stopped
      modifies this`autosaveDeadline, this`autosaveRequestCount, coordinator, coordinator.saver, coordinator.saver.slots
      ensures Valid() && coordinator.durableRevision >= old(coordinator.durableRevision)
      ensures coordinator.requestedRevision >= old(coordinator.requestedRevision)
      ensures dirtySnapshot.Some? && now >= old(autosaveDeadline) ==>
        Asked(dirtySnapshot.value.revision) && autosaveDeadline == now + autosaveInterval
      ensures autosaveRequestCount > old(autosaveRequestCount) ==>
        dirtySnapshot.Some? && coordinator.requestedRevision == dirtySnapshot.value.revision
      ensures now < old(autosaveDeadline) || dirtySnapshot.None? ==>
        coordinator.requestedRevision == old(coordinator.requestedRevision)
        && autosaveDeadline == old(autosaveDeadline) && autosaveRequestCount == old(autosaveRequestCount)
    {
      if dirtySnapshot.Some? && deadlineArmed && now >= autosaveDeadline {
        var status := coordinator.RequestSave(dirtySnapshot.value, later);
        if status == Accepted || status == Coalesced {
          autosaveRequestCount := autosaveRequestCount + 1;
        }
        if status != Stopped {
          autosaveDeadline := now + autosaveInterval;
        }
      }
    }

    /** A save of this revision or a newer one has been requested or is durable. */
    ghost predicate Asked(revision: u64)
      reads this, coordinator
    {
      revision <= coordinator.requestedRevision || revision <= coordinator.durableRevision
    }

    /** The worker's last request. */
    method HandOver(progress: Progress, later: Progress)
      requires Valid() && !stopped
      modifies this`dirtySnapshot, this`deadlineArmed, coordinator, coordinator.saver, coordinator.saver.slots
      ensures Valid() && coordinator.durableRevision >= old(coordinator.durableRevision)
      ensures dirtySnapshot.Some? ==> Asked(dirtySnapshot.value.revision)
    {
      coordinator.Pump(progress);
      ReconcileDurableState();
      if dirtySnapshot.Some? && dirtySnapshot.value.revision > coordinator.durableRevision {
        var status := coordinator.RequestSave(dirtySnapshot.value, later);
      }
    }

    /** `stop`. A started service requests its tracked snapshot once more and drains the pipeline: no tracked snapshot
        is newer than both the newest request and what is durable, and that request is answered. */
    method Stop(progress: Progress, later: Progress, polls: nat, first: bool, second: bool)
      requires Valid() && (stopRequested ==> stopped)
      modifies this`dirtySnapshot, this`deadlineArmed, this`stopRequested, this`stopped, coordinator, coordinator.saver,
        coordinator.saver.slots
      ensures Valid() && stopped && coordinator.Drained()
        && coordinator.durableRevision >= old(coordinator.durableRevision)
      ensures started && !old(stopped) ==> Reconciled() && (dirtySnapshot.Some? ==> Asked(dirtySnapshot.value.revision))
      ensures !started ==>
        dirtySnapshot == old(dirtySnapshot) && coordinator.requestedRevision == old(coordinator.requestedRevision)
    {
      if stopped {
        return;
      }
      if !started {
        coordinator.Stop(polls, first, second);
        stopped := true;
        return;
      }
      stopRequested := true;
      HandOver(progress, later);
      coordinator.Stop(polls, first, second);
      stopped := true;
      ReconcileDurableState();
    }
  }
}
