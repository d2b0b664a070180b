/** The journaled session: every edit, undo and redo is appended to the journal before it is acknowledged, a
    checkpoint rewrites the journal, and opening replays it. */
module JournaledSessions {
  import opened SessionDocuments
  import opened SessionEditing
  import opened SessionHistory
  import opened Checkpoints
  import opened Framing
  import opened JournalFile
  import opened JournalDisk
  import opened CommandRecords
  import opened Chronicles

  datatype JournaledStatus =
    | Committed
    | Conflict
    | Invalid
    | NotFound
    | AllocationFailure
    | JournalFailure
    | NothingToUndo
    | NothingToRedo

  datatype JournaledResult = JournaledResult(status: JournaledStatus, revision: u64, entityId: u64)

  function MapStatus(s: EditStatus): JournaledStatus {
    match s
    case Applied => Committed
    case RevisionConflict => Conflict
    case InvalidArgument => Invalid
    case EntityNotFound => NotFound
  }

  // ----- what edits and history actions answer

  /** A new track without an identity gets the next free one. */
  ghost function Completed(d: SessionDocument, c: SessionCommand): SessionCommand
    requires Editable(d)
  {
    if c.kind == AddTrack && c.entityId == 0 then c.(entityId := Largest(StableIds(d)) + 1) else c
  }

  /** The answer to an edit if the journal accepts it. */
  ghost function EditAnswer(d: SessionDocument, expectedRevision: u64, c: SessionCommand): JournaledStatus {
    if expectedRevision != d.revision then Conflict
    else if !Editable(d) then AllocationFailure
    else if ApplyStatus(d, Completed(d, c)) != EditStatus.Applied then MapStatus(ApplyStatus(d, Completed(d, c)))
    else if c.kind == RemoveTrack then Invalid
    else Committed
  }

  /** Each answer to an edit, when it is given. */
  lemma EditAnswersInFields(d: SessionDocument, expectedRevision: u64, c: SessionCommand)
    ensures var answer := EditAnswer(d, expectedRevision, c);
      && (answer == Conflict <==> expectedRevision != d.revision)
      && (answer == AllocationFailure <==> expectedRevision == d.revision && !Editable(d))
      && (answer == NotFound <==>
            expectedRevision == d.revision && Editable(d) && d.revision < U64_MAX && NoTrackHas(d, c.entityId)
            && (c.kind == RemoveTrack || (c.kind == RenameTrack && 1 <= |c.name| <= 1024)))
      && (answer == Committed <==>
            expectedRevision == d.revision && Editable(d) && d.revision < U64_MAX && c.kind != RemoveTrack
            && (c.kind == SetTempo ==> 0 < c.tempo <= 0x408F_4000_0000_0000)
            && (c.kind != SetTempo ==> 1 <= |c.name| <= 1024)
            && (c.kind == RenameTrack ==> !NoTrackHas(d, c.entityId))
            && (c.kind == AddTrack ==>
                  1 <= c.trackType <= 5
                  && if c.entityId == 0 then Largest(StableIds(d)) + 1 < U64_MAX
                     else c.entityId < U64_MAX && NoTrackHas(d, c.entityId)))
      && answer != JournalFailure && answer != NothingToUndo && answer != NothingToRedo
  {
    if Editable(d) {
      AnswersInFields(d, Completed(d, c));
      LargestBounds(StableIds(d));
      assert forall k :: 0 <= k < |d.tracks| ==> StableIds(d)[k] == d.tracks[k].stableId;
    }
  }

  /** The answer to an undo or a redo if the journal accepts it. */
  ghost function HistoryAnswer(live: Live, expectedRevision: u64, action: Action): JournaledStatus {
    var source := Source(live, action);
    if expectedRevision != live.document.revision then Conflict
    else if source == [] then if action == Undo then NothingToUndo else NothingToRedo
    else if !Editable(live.document) then AllocationFailure
    else MapStatus(ApplyStatus(live.document, CommandOf(action, Top(source))))
  }

  /** Whatever is answered, the journal has the last word: a record that was not flushed is not acknowledged. */
  function Final(answer: JournaledStatus, reopen: bool, end: AppendEnd): JournaledStatus {
    if reopen then JournalFailure else if answer == Committed && !end.Flushed? then JournalFailure else answer
  }

  // ----- the parts of a commit

  /** The entity a command is about. */
  function EntityOf(c: SessionCommand): u64 {
    if c.kind == CommandKind.SetTempo then 0 else c.entityId
  }

  /** What an acknowledged edit has done, field by field; a new track has the answered identity, which is the requested
      one or, if none was requested, one that nothing in the document had. */
  ghost predicate EditedInFields(before: SessionDocument, command: SessionCommand, entityId: u64,
    after: SessionDocument) {
    match command.kind
    case SetTempo => TempoIs(before, after, command.tempo) && entityId == 0
    case AddTrack =>
      && AppendsTrack(before, after, entityId, command.trackType, command.color, command.name)
      && entityId != 0 && if command.entityId == 0 then entityId !in StableIds(before) else entityId == command.entityId
    case RenameTrack => RenamesOnly(before, after, command.entityId, command.name) && entityId == command.entityId
    case RemoveTrack => false
  }

  /** An edit comes onto the undo stack and empties the other; undo and redo move the top entry from one to the other. */
  ghost predicate StacksMove(before: Live, action: Action, after: Live) {
    match action
    case Edit => after.undo != [] && after.undo[..|after.undo| - 1] == before.undo && after.redo == []
    case Undo =>
      && before.undo != [] && after.undo == before.undo[..|before.undo| - 1]
      && after.redo == before.redo + [before.undo[|before.undo| - 1]]
    case Redo =>
      && before.redo != [] && after.redo == before.redo[..|before.redo| - 1]
      && after.undo == before.undo + [before.redo[|before.redo| - 1]]
  }

  lemma CommittedInFields(before: Live, h: Chronicle, command: SessionCommand, after: Live, now: Chronicle)
    requires CommittedEdit(before, h, command, after, now) == true
    ensures EditedInFields(before.document, command, EntityOf(Completed(before.document, command)), after.document)
      == true
    ensures StacksMove(before, Edit, after) == true
  {
    var c := Completed(before.document, command);
    ApplyInFields(before.document, c);
    if command.kind == AddTrack && command.entityId == 0 { LargestBounds(StableIds(before.document)); }
  }

  lemma ActionInFields(before: Live, h: Chronicle, action: Action, after: Live, now: Chronicle)
    requires CommittedAction(before, h, action, after, now) == true
    ensures StacksMove(before, action, after) == true && Source(before, action) != []
      && DoneInFields(before.document, after.document, CommandOf(action, Top(Source(before, action)))) == true
  {
    ApplyInFields(before.document, CommandOf(action, Top(Source(before, action))));
  }

  /** The document a command leads to, built on a copy. */
  method PrepareEdit(before: SessionDocument, expectedRevision: u64, command: SessionCommand)
    returns (answer: JournaledStatus, candidate: SessionController?, c: SessionCommand, entityId: u64)
    requires expectedRevision == before.revision
    ensures answer == EditAnswer(before, expectedRevision, command)
    ensures answer == Committed ==>
      candidate != null && fresh(candidate) && EditLeadsTo(before, command, c, candidate.document) == true
      && entityId == EntityOf(c)
  {
    c, entityId := command, 0;
    candidate := SessionController.FromDocument(before);
    if candidate == null {
      return AllocationFailure, null, c, 0;
    }
    var applied;
    applied, c := ApplyCompleted(candidate, command);
    answer := MapStatus(applied.status);
    entityId := applied.entityId;
    if applied.status == EditStatus.Applied && command.kind == RemoveTrack {
      answer := Invalid;
    }
  }

  /** Applies a command; a new track without an identity gets the next free one. */
  method ApplyCompleted(candidate: SessionController, command: SessionCommand)
    returns (applied: EditResult, c: SessionCommand)
    requires Editable(candidate.document) && candidate.nextStableId == Largest(StableIds(candidate.document)) + 1
    modifies candidate
    ensures c == Completed(old(candidate.document), command)
      && applied.status == ApplyStatus(old(candidate.document), c)
    ensures applied.status == EditStatus.Applied ==>
      candidate.document == Apply(old(candidate.document), c) && applied.entityId == EntityOf(c)
  {
    c := command;
    if command.kind == AddTrack && command.entityId == 0 {
      c := command.(entityId := candidate.nextStableId);
      OnlyItsFields(candidate.document, c);
      applied := candidate.AddTrack(candidate.document.revision, command.trackType, command.name, command.color);
    } else {
      applied := candidate.ApplyCommand(candidate.document.revision, command);
    }
  }

  lemma OnlyItsFields(d: SessionDocument, c: SessionCommand)
    requires c.kind == AddTrack
    ensures var plain := BLANK.(kind := CommandKind.AddTrack, entityId := c.entityId, trackType := c.trackType,
      color := c.color, name := c.name);
      ApplyStatus(d, plain) == ApplyStatus(d, c)
        && (ApplyStatus(d, c) == EditStatus.Applied ==> Apply(d, plain) == Apply(d, c))
  {}

  ghost predicate EditLeadsTo(before: SessionDocument, command: SessionCommand, c: SessionCommand,
    after: SessionDocument)
  {
    && Editable(before) && c == Completed(before, command) && c.kind != RemoveTrack
    && ApplyStatus(before, c) == EditStatus.Applied && after == Apply(before, c)
  }

  /** Appends a record behind those of a log; a failure leaves the log, or the log with the record. */
  method AppendRecord(journal: CommandJournal, ghost log: seq<Logged>, revision: u64, r: Record, end: AppendEnd)
    returns (ok: bool)
    requires journal.Valid() && Holds(journal.crc, journal.file.bytes, log) && Writable(r)
    requires LastSequence(ToCommands(log), 0) < revision
    modifies journal, journal.file
    ensures ok <==> end.Flushed?
    ensures ok ==> journal.Valid() && Holds(journal.crc, journal.file.bytes, log + [Logged(revision, r)])
    ensures !ok ==>
      Holds(journal.crc, journal.file.bytes, log) || Holds(journal.crc, journal.file.bytes, log + [Logged(revision, r)])
  {
    RecordSize(r);
    ok := journal.Append(revision, EncodeRecord(r), end);
    LongerJournal(log, Logged(revision, r));
  }

  lemma LongerJournal(log: seq<Logged>, l: Logged)
    requires AllWritable(log) && Writable(l.record)
    ensures AllWritable(log + [l])
      && ToCommands(log + [l]) == ToCommands(log) + [JournalCommand(l.sequence, ToCommand(l).payload)]
  {}

  /** The stacks after an action. */
  method ShiftStacks(action: Action, e: HistoryEntry, undo: seq<HistoryEntry>, redo: seq<HistoryEntry>)
    returns (stacks: (seq<HistoryEntry>, seq<HistoryEntry>))
    requires Moves(action, e, undo, redo)
    ensures stacks == Shift(action, e, undo, redo)
  {
    match action {
      case Edit => stacks := (undo + [e], []);
      case Undo => stacks := (undo[..|undo| - 1], redo + [undo[|undo| - 1]]);
      case Redo => stacks := (undo + [redo[|redo| - 1]], redo[..|redo| - 1]);
    }
  }

  class JournaledSession {
    const crc: Checksum
    const file: DiskFile
    const journal: CommandJournal
    var controller: SessionController
    var undo: seq<HistoryEntry>
    var redo: seq<HistoryEntry>
    var snapshotRevision: u64
    var checkpointRevision: u64
    var requiresReopen: bool

    ghost var history: Chronicle
    /** After a failed append: the session that reopening may give instead. */
    ghost var attempt: Live
    ghost var attemptHistory: Chronicle

    constructor (crc: Checksum, file: DiskFile, controller: SessionController, undo: seq<HistoryEntry>,
      redo: seq<HistoryEntry>, checkpointRevision: u64, snapshotRevision: u64, ghost history: Chronicle)
      ensures this.crc == crc && this.file == file && this.controller == controller && fresh(journal)
      ensures this.undo == undo && this.redo == redo && this.history == history && !requiresReopen
      ensures this.checkpointRevision == checkpointRevision && this.snapshotRevision == snapshotRevision
      ensures (Sane(Live(controller.document, undo, redo), history) && Holds(crc, file.bytes, history.log)) == true ==>
        Valid() == true
    {
      this.crc := crc;
      this.file := file;
      this.controller := controller;
      journal := new CommandJournal(crc, file);
      this.undo, this.redo := undo, redo;
      this.checkpointRevision, this.snapshotRevision := checkpointRevision, snapshotRevision;
      requiresReopen := false;
      this.history := history;
    }

    ghost function State(): Live
      reads this, controller
    {
      Live(controller.document, undo, redo)
    }

    /** The session is sane; while it works, the journal holds exactly its records; after a failed append it
        holds these, or those of the attempted action. */
    ghost predicate Valid()
      reads this, controller, journal, file
    {
      journal.crc == crc && journal.file == file && Sane(State(), history) && OnDisk()
    }

    ghost predicate OnDisk()
      requires journal.file == file
      reads this, controller, journal, file
    {
      if requiresReopen then Holds(crc, file.bytes, history.log) || HoldsAttempt()
      else journal.Valid() && Holds(crc, file.bytes, history.log)
    }

    /** A session that must be reopened no longer touches its file. */
    twostate predicate NothingMoved()
      reads this, file
    {
      file.bytes == old(file.bytes) && attempt == old(attempt) && attemptHistory == old(attemptHistory)
    }

    ghost predicate HoldsAttempt()
      reads this, controller, file
    {
      && Sane(attempt, attemptHistory) && Holds(crc, file.bytes, attemptHistory.log)
      && Follows(State(), history, attempt, attemptHistory)
    }

    /** Takes over the effect of an action once its record is on disk. */
    method TakeOver(action: Action, e: HistoryEntry, candidate: SessionController, ghost chronicle: Chronicle)
      requires Leads(State(), action, e, candidate.document) == true && Sane(Act(State(), action, e), chronicle) == true
      requires journal.crc == crc && journal.file == file && journal.Valid()
        && Holds(crc, file.bytes, chronicle.log) == true
      requires !requiresReopen
      modifies this`controller, this`undo, this`redo, this`history
      ensures Valid() && State() == Act(old(State()), action, e) && history == chronicle
    {
      var stacks := ShiftStacks(action, e, undo, redo);
      Install(candidate, stacks.0, stacks.1, chronicle);
    }

    method Install(candidate: SessionController, undo: seq<HistoryEntry>, redo: seq<HistoryEntry>,
      ghost chronicle: Chronicle)
      requires journal.crc == crc && journal.file == file && journal.Valid()
        && Holds(crc, file.bytes, chronicle.log) == true
      requires Sane(Live(candidate.document, undo, redo), chronicle) == true && !requiresReopen
      modifies this`controller, this`undo, this`redo, this`history
      ensures Valid() && State() == Live(candidate.document, undo, redo) && history == chronicle
    {
      controller := candidate;
      this.undo, this.redo := undo, redo;
      history := chronicle;
    }

    /** Journals an action whose effect is ready, and only then takes it over. */
    method Commit(action: Action, e: HistoryEntry, candidate: SessionController, entityId: u64, end: AppendEnd)
      returns (result: JournaledResult)
      requires Valid() && !requiresReopen
      requires Leads(State(), action, e, candidate.document) == true
      modifies this, journal, file
      ensures Valid() && result.revision == controller.document.revision && requiresReopen == !end.Flushed?
      ensures result.status == if end.Flushed? then Committed else JournalFailure
      ensures result.entityId == if end.Flushed? then entityId else 0
      ensures end.Flushed? ==> Moved(old(State()), old(history), action, e, State(), history) == true
      ensures !end.Flushed? ==> State() == old(State()) && history == old(history) && controller == old(controller)
      ensures !end.Flushed? ==> Moved(old(State()), old(history), action, e, attempt, attemptHistory) == true
      ensures checkpointRevision == old(checkpointRevision) && snapshotRevision == old(snapshotRevision)
    {
      result := JournalThenTakeOver(action, e, candidate, entityId, end);
    }

    method JournalThenTakeOver(action: Action, e: HistoryEntry, candidate: SessionController, entityId: u64,
      end: AppendEnd)
      returns (result: JournaledResult)
      requires Valid() && !requiresReopen
      requires Leads(State(), action, e, candidate.document) == true
      modifies this`controller, this`undo, this`redo, this`history, this`requiresReopen, this`attempt,
        this`attemptHistory, journal, file
      ensures Valid() && result.revision == controller.document.revision && requiresReopen == !end.Flushed?
      ensures result.status == if end.Flushed? then Committed else JournalFailure
      ensures result.entityId == if end.Flushed? then entityId else 0
      ensures end.Flushed? ==> Moved(old(State()), old(history), action, e, State(), history) == true
      ensures !end.Flushed? ==> State() == old(State()) && history == old(history) && controller == old(controller)
      ensures !end.Flushed? ==> Moved(old(State()), old(history), action, e, attempt, attemptHistory) == true
    {
      ghost var live, told := State(), history;
      ghost var after, chronicle := Act(live, action, e), Advance(told, action, e, candidate.document);
      LeadsFurther(live, told, action, e, candidate.document);
      var ok := JournalAction(candidate.document.revision, Change(action, e), after, chronicle, end);
      if !ok {
        return JournaledResult(JournalFailure, controller.document.revision, 0);
      }
      TakeOver(action, e, candidate, chronicle);
      result := JournaledResult(Committed, controller.document.revision, entityId);
    }

    /** Appends the record that leads to `after`; when that fails, the session must be reopened. */
    method JournalAction(revision: u64, r: Record, ghost after: Live, ghost chronicle: Chronicle, end: AppendEnd)
      returns (ok: bool)
      requires Valid() && !requiresReopen && Writable(r) && revision == controller.document.revision + 1
      requires Sane(after, chronicle) == true && chronicle.log == history.log + [Logged(revision, r)]
        && Follows(State(), history, after, chronicle) == true
      modifies this`requiresReopen, this`attempt, this`attemptHistory, journal, file
      ensures ok <==> end.Flushed?
      ensures requiresReopen == !ok && (!ok ==> Valid() && attempt == after && attemptHistory == chronicle)
      ensures ok ==> journal.Valid() && Holds(crc, file.bytes, chronicle.log)
      ensures State() == old(State()) && checkpointRevision == old(checkpointRevision)
        && snapshotRevision == old(snapshotRevision)
    {
      JournalEnds(State(), history);
      ok := AppendRecord(journal, history.log, revision, r, end);
      if !ok {
        Lock(after, chronicle);
      }
    }

    /** After a failed append only reopening tells which of two sessions is on disk. */
    method Lock(ghost after: Live, ghost chronicle: Chronicle)
      requires journal.crc == crc && journal.file == file && Sane(State(), history) == true
      requires Sane(after, chronicle) == true && Follows(State(), history, after, chronicle) == true
      requires Holds(crc, file.bytes, history.log) == true || Holds(crc, file.bytes, chronicle.log) == true
      modifies this`requiresReopen, this`attempt, this`attemptHistory
      ensures Valid() && requiresReopen && attempt == after && attemptHistory == chronicle
    {
      requiresReopen := true;
      attempt, attemptHistory := after, chronicle;
    }

    /** `commitEdit` for a command with only the fields its kind uses. */
    method CommitEdit(expectedRevision: u64, command: SessionCommand, end: AppendEnd) returns (result: JournaledResult)
      requires Valid() && Plain(command)
      modifies this, journal, file
      ensures Valid() && result.revision == controller.document.revision
      ensures result.status
        == Final(EditAnswer(old(controller.document), expectedRevision, command), old(requiresReopen), end)
      ensures requiresReopen == (old(requiresReopen) || result.status == JournalFailure)
      ensures result.status == Committed ==>
        CommittedEdit(old(State()), old(history), command, State(), history) == true
      ensures result.status == Committed ==>
        EditedInFields(old(controller.document), command, result.entityId, controller.document) == true
        && StacksMove(old(State()), Edit, State()) == true
      ensures result.status != Committed ==>
        State() == old(State()) && history == old(history) && controller == old(controller)
      ensures result.status == JournalFailure && !old(requiresReopen) ==>
        CommittedEdit(old(State()), old(history), command, attempt, attemptHistory) == true
      ensures old(requiresReopen) ==> NothingMoved()
      ensures checkpointRevision == old(checkpointRevision) && snapshotRevision == old(snapshotRevision)
    {
      if requiresReopen {
        return JournaledResult(JournalFailure, controller.document.revision, 0);
      }
      if expectedRevision != controller.document.revision {
        return JournaledResult(Conflict, controller.document.revision, 0);
      }
      var before := controller.document;
      var answer, candidate, c, entityId := PrepareEdit(before, expectedRevision, command);
      if answer != Committed {
        return JournaledResult(answer, controller.document.revision, entityId);
      }
      var e := HistoryEntry(c, InverseOf(before, c));
      EditLeads(State(), command, c, candidate.document);
      ghost var live, h := State(), history;
      result := Commit(Edit, e, candidate, entityId, end);
      if end.Flushed? {
        EditMoved(live, h, command, c, State(), history);
        CommittedInFields(live, h, command, State(), history);
      } else {
        EditMoved(live, h, command, c, attempt, attemptHistory);
      }
    }

    /** `commitHistoryAction`: undo or redo of the entry on top of its stack. */
    method CommitHistoryAction(expectedRevision: u64, action: Action, end: AppendEnd) returns (result: JournaledResult)
      requires Valid() && action != Edit
      modifies this, journal, file
      ensures Valid() && result.revision == controller.document.revision
      ensures result.status == Final(HistoryAnswer(old(State()), expectedRevision, action), old(requiresReopen), end)
      ensures requiresReopen == (old(requiresReopen) || result.status == JournalFailure)
      ensures result.status == Committed ==>
        CommittedAction(old(State()), old(history), action, State(), history) == true
      ensures result.status == Committed ==>
        StacksMove(old(State()), action, State()) == true && Source(old(State()), action) != []
        && DoneInFields(old(controller.document), controller.document,
             CommandOf(action, Top(Source(old(State()), action)))) == true
      ensures result.status != Committed ==>
        State() == old(State()) && history == old(history) && controller == old(controller)
      ensures result.status == JournalFailure && !old(requiresReopen) ==>
        CommittedAction(old(State()), old(history), action, attempt, attemptHistory) == true
      ensures old(requiresReopen) ==> NothingMoved()
      ensures checkpointRevision == old(checkpointRevision) && snapshotRevision == old(snapshotRevision)
    {
      if requiresReopen {
        return JournaledResult(JournalFailure, controller.document.revision, 0);
      }
      var answer, e, candidate, entityId := PrepareTop(controller.document, undo, redo, expectedRevision, action);
      if answer != Committed {
        return JournaledResult(answer, controller.document.revision, entityId);
      }
      TopLeads(State(), history, action, e, candidate.document);
      ghost var live, h := State(), history;
      result := Commit(action, e, candidate, entityId, end);
      if end.Flushed? {
        TopMoved(live, h, action, e, State(), history);
        ActionInFields(live, h, action, State(), history);
      } else {
        TopMoved(live, h, action, e, attempt, attemptHistory);
      }
    }

    /** Replaces the journal by the compacted history. */
    method RewriteJournal(end: ReplaceEnd) returns (ok: bool)
      requires Valid() && !requiresReopen
      modifies this`history, file
      ensures Valid() && RecordCount(State()) <= controller.document.revision
      ensures ok <==> end.Replaced?
      ensures history == if end.NotReplaced? then old(history) else Compact(State(), old(history))
    {
      RoomForCheckpoint(State(), history);
      CompactedJournal(State(), history);
      JournalEnds(State(), history);
      var records := CompactRecords(State(), undo, redo, controller.document.revision);
      ok := RewriteCommandJournal(crc, file, records, end);
      if !end.NotReplaced? {
        Rebase();
      }
    }

    /** The rewritten journal means the same with the present revision as its baseline. */
    method Rebase()
      requires journal.crc == crc && journal.file == file && Sane(State(), history) == true && !requiresReopen
      requires RecordCount(State()) <= controller.document.revision && AllWritable(Compacted(State())) == true
      requires file.bytes == EncodeAll(JournalFormat(crc), ToCommands(Compacted(State())))
      requires journal.initialized ==> journal.lastSequence == controller.document.revision
      modifies this`history
      ensures Valid() && history == Compact(State(), old(history))
    {
      ghost var live, before := State(), history;
      CompactedJournal(live, before);
      RewrittenJournal(crc, file.bytes, live, before);
      history := Compact(live, before);
      assert State() == live;
    }

    /** `checkpoint`: compacts the journal, once the current revision is durable. The refusal of a history that
        cannot fit below the revision is not reached. */
    method Checkpoint(durableRevision: u64, end: ReplaceEnd) returns (ok: bool)
      requires Valid()
      modifies this`checkpointRevision, this`snapshotRevision, this`history, file
      ensures Valid() && State() == old(State()) && RecordCount(State()) <= controller.document.revision
      ensures ok <==>
        !requiresReopen
        && (durableRevision == old(checkpointRevision)
          || (durableRevision == controller.document.revision && end.Replaced?))
      ensures history ==
        if Compacts(requiresReopen, old(checkpointRevision), durableRevision, State(), end)
        then Compact(State(), old(history)) else old(history)
      ensures (checkpointRevision, snapshotRevision)
        == if ok && durableRevision != old(checkpointRevision)
           then (durableRevision, durableRevision) else old((checkpointRevision, snapshotRevision))
    {
      RoomForCheckpoint(State(), history);
      if requiresReopen {
        return false;
      }
      if durableRevision == checkpointRevision {
        return true;
      }
      if durableRevision == 0 || durableRevision != controller.document.revision {
        return false;
      }
      if |undo| + |redo| + |redo| + 1 > durableRevision {
        return false;
      }
      ok := RewriteJournal(end);
      if ok {
        checkpointRevision, snapshotRevision := durableRevision, durableRevision;
      }
    }
  }

  /** The document an undo or redo leads to, built on a copy. */
  method PrepareHistoryAction(before: SessionDocument, c: SessionCommand)
    returns (answer: JournaledStatus, candidate: SessionController?, entityId: u64)
    ensures answer == if !Editable(before) then AllocationFailure else MapStatus(ApplyStatus(before, c))
    ensures answer == Committed ==>
      candidate != null && fresh(candidate) && ApplyStatus(before, c) == EditStatus.Applied
      && candidate.document == Apply(before, c)
  {
    candidate := SessionController.FromDocument(before);
    if candidate == null {
      return AllocationFailure, null, 0;
    }
    var applied := candidate.ApplyCommand(before.revision, c);
    answer, entityId := MapStatus(applied.status), applied.entityId;
  }

  /** The entry on top of the stack an undo or redo takes from, and the document it leads to. */
  method PrepareTop(before: SessionDocument, undo: seq<HistoryEntry>, redo: seq<HistoryEntry>, expectedRevision: u64,
    action: Action)
    returns (answer: JournaledStatus, e: HistoryEntry, candidate: SessionController?, entityId: u64)
    ensures answer == HistoryAnswer(Live(before, undo, redo), expectedRevision, action)
    ensures answer == Committed ==>
      candidate != null && fresh(candidate)
      && TopLeadsTo(Live(before, undo, redo), action, e, candidate.document) == true
  {
    e, candidate, entityId := HistoryEntry(BLANK, BLANK), null, 0;
    if expectedRevision != before.revision {
      return Conflict, e, null, 0;
    }
    var source := if action == Undo then undo else redo;
    if source == [] {
      return if action == Undo then NothingToUndo else NothingToRedo, e, null, 0;
    }
    e := source[|source| - 1];
    answer, candidate, entityId := PrepareHistoryAction(before, CommandOf(action, e));
    TopAnswer(Live(before, undo, redo), expectedRevision, action, e, answer);
    if answer == Committed {
      IsTop(Live(before, undo, redo), action, e, candidate.document);
    }
  }

  lemma TopAnswer(live: Live, expectedRevision: u64, action: Action, e: HistoryEntry, answer: JournaledStatus)
    requires expectedRevision == live.document.revision && Source(live, action) != [] && e == Top(Source(live, action))
    requires answer == if !Editable(live.document) then AllocationFailure else MapStatus(ApplyStatus(live.document, CommandOf(action, e)))
    ensures answer == HistoryAnswer(live, expectedRevision, action)
  {}

  lemma IsTop(live: Live, action: Action, e: HistoryEntry, after: SessionDocument)
    requires Source(live, action) != [] && e == Top(Source(live, action))
    requires ApplyStatus(live.document, CommandOf(action, e)) == EditStatus.Applied
      && after == Apply(live.document, CommandOf(action, e))
    ensures TopLeadsTo(live, action, e, after) == true
  {}

  ghost predicate TopLeadsTo(live: Live, action: Action, e: HistoryEntry, after: SessionDocument) {
    && Source(live, action) != [] && e == Top(Source(live, action))
    && ApplyStatus(live.document, CommandOf(action, e)) == EditStatus.Applied
      && after == Apply(live.document, CommandOf(action, e))
  }

  /** One action later: the same versions of the document and one more. */
  ghost predicate Follows(before: Live, h: Chronicle, after: Live, now: Chronicle) {
    && now.baseline == h.baseline && after.document.revision == before.document.revision + 1
    && now.documents == h.documents[after.document.revision as int := after.document]
  }

  /** An acknowledged edit is the action the command stands for. */
  ghost predicate CommittedEdit(before: Live, h: Chronicle, command: SessionCommand, after: Live, now: Chronicle) {
    && Editable(before.document)
    && var c := Completed(before.document, command);
       && c.kind != RemoveTrack && ApplyStatus(before.document, c) == EditStatus.Applied
       && var e := EntryOf(before.document, c);
          after == Act(before, Edit, e) && now == Advance(h, Edit, e, after.document)
  }

  /** An acknowledged undo or redo moves the entry on top of its stack. */
  ghost predicate CommittedAction(before: Live, h: Chronicle, action: Action, after: Live, now: Chronicle) {
    && action != Edit
    && var source := Source(before, action);
       && source != [] && ApplyStatus(before.document, CommandOf(action, Top(source))) == EditStatus.Applied
       && after == Act(before, action, Top(source)) && now == Advance(h, action, Top(source), after.document)
  }

  ghost predicate Compacts(reopen: bool, checkpoint: u64, durableRevision: u64, live: Live, end: ReplaceEnd) {
    !reopen && durableRevision != checkpoint && durableRevision == live.document.revision && !end.NotReplaced?
  }

  /** An action is ready: it moves a sound entry, and its command leads to `after`. */
  ghost predicate Leads(live: Live, action: Action, e: HistoryEntry, after: SessionDocument) {
    && Moves(action, e, live.undo, live.redo) && Clean(e) && WritableEntry(e)
    && ApplyStatus(live.document, CommandOf(action, e)) == EditStatus.Applied
      && after == Apply(live.document, CommandOf(action, e))
  }

  /** An action is done, in the session and in its chronicle. */
  ghost predicate Moved(before: Live, h: Chronicle, action: Action, e: HistoryEntry, after: Live, now: Chronicle) {
    Leads(before, action, e, after.document) && after == Act(before, action, e)
      && now == Advance(h, action, e, after.document)
  }

  lemma LeadsFurther(live: Live, h: Chronicle, action: Action, e: HistoryEntry, after: SessionDocument)
    requires Sane(live, h) && Leads(live, action, e, after) == true
    ensures var next, later := Act(live, action, e), Advance(h, action, e, after);
      && Moved(live, h, action, e, next, later) == true && Sane(next, later) == true
      && Follows(live, h, next, later) == true && next.document == after && after.revision == live.document.revision + 1
      && later.log == h.log + [Logged(after.revision, Change(action, e))] && Writable(Change(action, e))
  {
    ActionKeepsSane(live, h, action, e);
    AdvancedLog(h, action, e, after);
  }

  lemma EditLeads(live: Live, command: SessionCommand, c: SessionCommand, after: SessionDocument)
    requires Plain(command) && EditLeadsTo(live.document, command, c, after) == true
    ensures Leads(live, Edit, HistoryEntry(c, InverseOf(live.document, c)), after) == true
  {
    EditEntryIsClean(live.document, c);
    EntryLeads(live, Edit, HistoryEntry(c, InverseOf(live.document, c)), c, after);
  }

  lemma EntryLeads(live: Live, action: Action, e: HistoryEntry, c: SessionCommand, after: SessionDocument)
    requires (Moves(action, e, live.undo, live.redo) && Clean(e) && WritableEntry(e)) == true
      && c == CommandOf(action, e)
    requires ApplyStatus(live.document, c) == EditStatus.Applied && after == Apply(live.document, c)
    ensures Leads(live, action, e, after) == true
  {}

  lemma EditMoved(before: Live, h: Chronicle, command: SessionCommand, c: SessionCommand, after: Live, now: Chronicle)
    requires Editable(before.document) && c == Completed(before.document, command) && c.kind != RemoveTrack
    requires ApplyStatus(before.document, c) == EditStatus.Applied
    requires Moved(before, h, Edit, HistoryEntry(c, InverseOf(before.document, c)), after, now) == true
    ensures CommittedEdit(before, h, command, after, now) == true
  {}

  lemma TopLeads(live: Live, h: Chronicle, action: Action, e: HistoryEntry, after: SessionDocument)
    requires Sane(live, h) && action != Edit && TopLeadsTo(live, action, e, after) == true
    ensures Leads(live, action, e, after) == true
  {
    Facts(live, h);
  }

  lemma TopMoved(before: Live, h: Chronicle, action: Action, e: HistoryEntry, after: Live, now: Chronicle)
    requires action != Edit && TopLeadsTo(before, action, e, after.document) == true
      && Moved(before, h, action, e, after, now) == true
    ensures CommittedAction(before, h, action, after, now) == true
  {}

  /** The stack an undo or redo takes its entry from. */
  ghost function Source(live: Live, action: Action): seq<HistoryEntry> {
    if action == Undo then live.undo else live.redo
  }

  lemma RoomForCheckpoint(live: Live, h: Chronicle)
    requires Sane(live, h)
    ensures live.document.revision != 0 && RecordCount(live) <= live.document.revision
    ensures EntriesWritable(live.undo) && EntriesWritable(live.redo)
  {
    Facts(live, h);
  }

  /** The compacted journal can be written, and ends at the present revision like the one it replaces. */
  lemma CompactedJournal(live: Live, h: Chronicle)
    requires Sane(live, h) && RecordCount(live) <= live.document.revision
    ensures Sane(live, Compact(live, h)) == true
    ensures AllWritable(Compacted(live)) == true && Ascending(ToCommands(Compacted(live)), 0) == true
    ensures LastSequence(ToCommands(Compacted(live)), 0) == live.document.revision
  {
    CompactKeepsSane(live, h);
    RoomForCheckpoint(live, h);
    CompactedIsWritable(live);
    CompactedAscends(live);
  }

  lemma CompactedAscends(live: Live)
    requires RecordCount(live) <= live.document.revision && AllWritable(Compacted(live)) == true
    ensures Ascending(ToCommands(Compacted(live)), 0) == true
    ensures LastSequence(ToCommands(Compacted(live)), 0) == live.document.revision
  {
    assert forall k :: 0 <= k < |Compacted(live)| ==>
      ToCommands(Compacted(live))[k].sequence == Compacted(live)[k].sequence;
  }

  /** The rewritten file holds the compacted records, and a journal object that was in step with the old file is
      in step with the new one. */
  lemma RewrittenJournal(crc: Checksum, bytes: seq<byte>, live: Live, h: Chronicle)
    requires Sane(live, h) && RecordCount(live) <= live.document.revision
    requires AllWritable(Compacted(live)) && bytes == EncodeAll(JournalFormat(crc), ToCommands(Compacted(live)))
    ensures Holds(crc, bytes, Compacted(live)) == true && Whole(crc, bytes)
    ensures LastSequence(Commands(crc, bytes), 0) == live.document.revision
  {
    CompactedJournal(live, h);
    WrittenIsWhole(crc, ToCommands(Compacted(live)));
  }

  lemma AdvancedLog(h: Chronicle, action: Action, e: HistoryEntry, after: SessionDocument)
    ensures var now := Advance(h, action, e, after);
      now.log == h.log + [Logged(after.revision, Change(action, e))] && now.baseline == h.baseline
        && now.documents == h.documents[after.revision as int := after]
  {}

  lemma JournalEnds(live: Live, h: Chronicle)
    requires Sane(live, h)
    ensures AllWritable(h.log) && LastSequence(ToCommands(h.log), 0) == live.document.revision
  {
    Facts(live, h);
  }

  // ----- compaction

  /** The undo stack followed by the redo stack from its top. */
  method LinearHistory(undo: seq<HistoryEntry>, redo: seq<HistoryEntry>) returns (linear: seq<HistoryEntry>)
    ensures linear == undo + Reverse(redo)
  {
    linear := undo;
    var k := |redo|;
    while k > 0
      invariant 0 <= k <= |redo| && linear == undo + Reverse(redo)[..|redo| - k]
    {
      k := k - 1;
      linear := linear + [redo[k]];
    }
  }

  /** The records of a checkpoint of `live`. */
  method CompactRecords(ghost live: Live, undo: seq<HistoryEntry>, redo: seq<HistoryEntry>, revision: u64)
    returns (records: seq<JournalCommand>)
    requires live.undo == undo && live.redo == redo && live.document.revision == revision
    requires EntriesWritable(undo) && EntriesWritable(redo) && RecordCount(live) <= revision
    ensures AllWritable(Compacted(live)) && records == ToCommands(Compacted(live))
  {
    var linear := LinearHistory(undo, redo);
    var count := |linear| + |redo| + 1;
    CompactedIsWritable(live);
    ghost var log := Compacted(live);
    var first := revision - count + 1;
    records := [];
    while |records| < count
      invariant |records| <= count && records == ToCommands(log)[..|records|]
      decreases count - |records|
    {
      var l := CompactRecord(live, linear, redo, revision, first, |records|);
      NextCommand(log, |records|);
      records := records + [ToCommand(l)];
    }
  }

  /** One record of a checkpoint. */
  method CompactRecord(ghost live: Live, linear: seq<HistoryEntry>, redo: seq<HistoryEntry>, revision: u64, first: nat,
    k: nat)
    returns (l: Logged)
    requires live.redo == redo && live.document.revision == revision && linear == Linear(live)
    requires RecordCount(live) <= revision && first == revision - RecordCount(live) + 1 && k < RecordCount(live)
    ensures l == Compacted(live)[k]
  {
    CompactedAt(live, linear, k);
    var r := if k == 0 then Baseline(revision) else if k <= |linear| then Change(Edit, linear[k - 1]) else Change(Undo, redo[k - 1 - |linear|]);
    l := Logged(first + k, r);
  }

  lemma CompactedAt(live: Live, linear: seq<HistoryEntry>, k: nat)
    requires RecordCount(live) <= live.document.revision && linear == Linear(live) && k < RecordCount(live)
    ensures Compacted(live)[k].sequence == live.document.revision - RecordCount(live) + 1 + k
    ensures Compacted(live)[k].record
         == if k == 0 then Baseline(live.document.revision)
            else if k <= |linear| then Change(Edit, linear[k - 1])
            else Change(Undo, live.redo[k - 1 - |linear|])
  {}

  lemma NextCommand(log: seq<Logged>, k: nat)
    requires AllWritable(log) && k < |log|
    ensures Writable(log[k].record)
    ensures ToCommands(log)[..k + 1] == ToCommands(log)[..k] + [ToCommand(log[k])]
  {
    CommandAt(log, k);
    NextSlice(ToCommands(log), k);
  }

  lemma CommandAt(log: seq<Logged>, k: nat)
    requires AllWritable(log) && k < |log|
    ensures Writable(log[k].record) && ToCommands(log)[k] == ToCommand(log[k])
  {}

  lemma NextSlice<T>(s: seq<T>, k: nat)
    requires k < |s|
    ensures s[..k + 1] == s[..k] + [s[k]]
  {}
}
