/** Opening a journaled session: replay of the journal on a snapshot, and what reopening gives after any run
    and any failure. */
module SessionRecovery {
  import opened SessionDocuments
  import opened SessionEditing
  import opened EditValidity
  import opened SessionHistory
  import opened Checkpoints
  import opened UndoRedo
  import opened Codecs
  import opened Framing
  import opened JournalFile
  import opened JournalDisk
  import opened CommandRecords
  import opened Chronicles
  import opened JournaledSessions

  /** Decoding and replaying record by record. */
  function ReplayCommands(d: SessionDocument, commands: seq<JournalCommand>, last: u64): Option<Rebuilt> {
    if commands == [] then Some(Rebuilt(Live(d, [], []), 0))
    else
      match ReplayCommands(d, commands[..|commands| - 1], last)
      case None => None
      case Some(s) => ReplayCommand(s, commands[|commands| - 1], |commands| == 1, last)
  }

  function ReplayCommand(s: Rebuilt, c: JournalCommand, first: bool, last: u64): Option<Rebuilt> {
    match DecodeRecord(c.payload)
    case None => None
    case Some(r) => Survivor(ReplayRecord(s, Logged(c.sequence, r), first, last))
  }

  lemma {:induction false} LogOfPrefix(commands: seq<JournalCommand>)
    ensures ToLog(commands).Some? ==> |ToLog(commands).value| == |commands|
    ensures forall k :: 0 <= k < |commands| && ToLog(commands).Some? ==>
      ToLog(commands).value[k].sequence == commands[k].sequence
  {
    if commands != [] {
      LogOfPrefix(commands[..|commands| - 1]);
    }
  }

  /** Record by record or all at once, the outcome is the same. */
  lemma {:induction false} ReplayIsStepwise(d: SessionDocument, commands: seq<JournalCommand>, last: u64)
    ensures ReplayCommands(d, commands, last)
      == if ToLog(commands).Some? then Survivor(ReplayAll(d, ToLog(commands).value, last)) else None
  {
    if commands != [] {
      var before, c := commands[..|commands| - 1], commands[|commands| - 1];
      ReplayIsStepwise(d, before, last);
      LogOfPrefix(before);
      if ToLog(before).Some? && DecodeRecord(c.payload).Some? {
        var log, l := ToLog(before).value, Logged(c.sequence, DecodeRecord(c.payload).value);
        assert (log + [l])[..|log|] == log;
      }
    }
  }

  /** A record that fails makes the whole replay fail. */
  lemma {:induction false} FailureIsFinal(d: SessionDocument, commands: seq<JournalCommand>, last: u64, k: nat)
    requires k <= |commands| && ReplayCommands(d, commands[..k], last) == None
    ensures ReplayCommands(d, commands, last) == None
    decreases |commands|
  {
    if k < |commands| {
      assert commands[..|commands| - 1][..k] == commands[..k];
      FailureIsFinal(d, commands[..|commands| - 1], last, k);
    } else {
      assert commands[..k] == commands;
    }
  }

  /** One record: a baseline is checked, a newer command is applied, and the history moves. */
  method ReplayOne(controller: SessionController, c: JournalCommand, first: bool, last: u64,
                   undo: seq<HistoryEntry>, redo: seq<HistoryEntry>, checkpoint: u64)
    returns (ok: bool, undone: seq<HistoryEntry>, redone: seq<HistoryEntry>, baseline: u64)
    modifies controller
    ensures var outcome := ReplayCommand(Rebuilt(Live(old(controller.document), undo, redo), checkpoint), c, first,
      last);
      outcome == if ok then Some(Rebuilt(Live(controller.document, undone, redone), baseline)) else None
  {
    undone, redone, baseline := undo, redo, checkpoint;
    var decoded := DecodeRecord(c.payload);
    if decoded.None? {
      return false, undone, redone, baseline;
    }
    var r := decoded.value;
    if r.Baseline? {
      ok := first && r.revision != 0 && c.sequence <= r.revision && last >= r.revision
        && controller.document.revision >= r.revision;
      baseline := r.revision;
      return;
    }
    if c.sequence > controller.document.revision {
      if c.sequence != controller.document.revision + 1 {
        return false, undone, redone, baseline;
      }
      var applied := controller.ApplyCommand(controller.document.revision, CommandOf(r.action, r.entry));
      if applied.status != EditStatus.Applied || applied.revision != c.sequence {
        return false, undone, redone, baseline;
      }
    }
    ok := true;
    match r.action {
      case Edit =>
        undone, redone := undo + [r.entry], [];
      case Undo =>
        ok := undo != [] && EntryEquals(undo[|undo| - 1], r.entry);
        if ok { undone, redone := undo[..|undo| - 1], redo + [undo[|undo| - 1]]; }
      case Redo =>
        ok := redo != [] && EntryEquals(redo[|redo| - 1], r.entry);
        if ok { undone, redone := undo + [redo[|redo| - 1]], redo[..|redo| - 1]; }
    }
  }

  /** `replay`: rebuilds document and history from the recovered records. */
  method ReplayJournal(controller: SessionController, commands: seq<JournalCommand>)
    returns (ok: bool, undo: seq<HistoryEntry>, redo: seq<HistoryEntry>, checkpoint: u64)
    modifies controller
    ensures RebuiltFrom(old(controller.document), commands)
      == if ok then Some(Rebuilt(Live(controller.document, undo, redo), checkpoint)) else None
  {
    var base := controller.document.revision;
    undo, redo, checkpoint := [], [], 0;
    var last: u64 := if commands == [] then 0 else commands[|commands| - 1].sequence;
    ghost var start := controller.document;
    var k := 0;
    while k < |commands|
      invariant 0 <= k <= |commands|
      invariant ReplayCommands(start, commands[..k], last)
        == Some(Rebuilt(Live(controller.document, undo, redo), checkpoint))
    {
      assert commands[..k + 1][..k] == commands[..k];
      ok, undo, redo, checkpoint := ReplayOne(controller, commands[k], k == 0, last, undo, redo, checkpoint);
      if !ok {
        FailureIsFinal(start, commands, last, k + 1);
        ReplayIsStepwise(start, commands, last);
        RebuiltStepwise(start, commands);
        return;
      }
      k := k + 1;
    }
    assert commands[..k] == commands;
    ReplayIsStepwise(start, commands, last);
    RebuiltStepwise(start, commands);
    ok := commands == [] || base <= last;
  }

  lemma RebuiltStepwise(d: SessionDocument, commands: seq<JournalCommand>)
    ensures var last := if commands == [] then 0 else commands[|commands| - 1].sequence;
      RebuiltFrom(d, commands) ==
        if ToLog(commands).None? || (commands != [] && d.revision > last) then None
        else Survivor(ReplayAll(d, ToLog(commands).value, last))
  {
    LogOfPrefix(commands);
  }

  // ----- opening

  ghost function NewJournal(crc: Checksum, d: SessionDocument): seq<byte>
    requires d.revision != 0
  {
    EncodeAll(JournalFormat(crc), ToCommands(Fresh(d).log))
  }

  lemma NewJournalHolds(crc: Checksum, d: SessionDocument)
    requires d.revision != 0
    ensures Holds(crc, NewJournal(crc, d), Fresh(d).log)
    ensures Restored(crc, NewJournal(crc, d), d) == Some(Rebuilt(Live(d, [], []), d.revision))
  {
    var log := Fresh(d).log;
    assert Ascending(ToCommands(log), 0);
    WrittenIsWhole(crc, ToCommands(log));
    FreshIsSane(d);
    RecoveryIsExact(crc, NewJournal(crc, d), Live(d, [], []), Fresh(d), d.revision);
  }

  /** The journal a session is opened on: an empty one is first given its baseline. */
  ghost function OpenedJournal(crc: Checksum, bytes: seq<byte>, d: SessionDocument, end: ReplaceEnd): seq<byte> {
    if Commands(crc, bytes) == [] && Editable(d) && !end.NotReplaced? then NewJournal(crc, d) else bytes
  }

  /** Starts a journal with the baseline of a snapshot. */
  method WriteBaseline(crc: Checksum, d: SessionDocument, file: DiskFile, end: ReplaceEnd) returns (ok: bool)
    requires d.revision != 0
    modifies file
    ensures ok <==> end.Replaced?
    ensures file.bytes == if end.NotReplaced? then old(file.bytes) else NewJournal(crc, d)
  {
    var baseline := Logged(d.revision, Baseline(d.revision));
    CommandAt(Fresh(d).log, 0);
    assert ToCommands(Fresh(d).log) == [ToCommand(baseline)];
    ok := RewriteCommandJournal(crc, file, [ToCommand(baseline)], end);
  }

  /** Replays the journal in the file on an editable snapshot. */
  method OpenJournal(crc: Checksum, controller: SessionController, file: DiskFile, snapshotRevision: u64,
    ghost live: Live, ghost h: Chronicle)
    returns (session: JournaledSession?)
    modifies controller
    ensures session != null <==> Restored(crc, file.bytes, old(controller.document)).Some?
    ensures session != null ==>
      Opened(session, crc, file, snapshotRevision) && session.controller == controller && fresh(session)
      && fresh(session.journal)
    ensures session != null ==>
      Restored(crc, file.bytes, old(controller.document)) == Some(Rebuilt(session.State(), session.checkpointRevision))
    ensures session != null && session.State() == live && (Sane(live, h) && Holds(crc, file.bytes, h.log)) == true ==>
      session.Valid() && session.history == h
  {
    var recovered := RecoverCommandJournal(crc, file.bytes);
    var ok, undo, redo, checkpoint := ReplayJournal(controller, recovered.commands);
    if !ok {
      return null;
    }
    session := new JournaledSession(crc, file, controller, undo, redo, checkpoint, snapshotRevision, h);
  }

  /** `createFromDocument`: opens a snapshot with its journal. The session is told which snapshot it comes from; the
      ghost arguments name the session that is expected there, if any. */
  method CreateFromDocument(crc: Checksum, document: SessionDocument, file: DiskFile, end: ReplaceEnd,
    snapshotRevision: u64, ghost live: Live, ghost h: Chronicle)
    returns (session: JournaledSession?)
    modifies file
    ensures file.bytes == OpenedJournal(crc, old(file.bytes), document, end)
    ensures session != null <==>
      Editable(document) && (old(Commands(crc, file.bytes)) == [] ==> end.Replaced?)
        && Restored(crc, file.bytes, document).Some?
    ensures session != null ==>
      Opened(session, crc, file, snapshotRevision) && fresh(session) && fresh(session.journal)
      && fresh(session.controller)
    ensures session != null ==>
      Restored(crc, file.bytes, document) == Some(Rebuilt(session.State(), session.checkpointRevision))
    ensures session != null && session.State() == live && Sane(live, h) && Holds(crc, file.bytes, h.log) ==>
      session.Valid() && session.history == h
  {
    var controller := SessionController.FromDocument(document);
    if controller == null {
      return null;
    }
    var recovered := RecoverCommandJournal(crc, file.bytes);
    if recovered.commands == [] {
      var written := WriteBaseline(crc, document, file, end);
      if !written {
        return null;
      }
    }
    session := OpenJournal(crc, controller, file, snapshotRevision, live, h);
  }

  ghost predicate Opened(session: JournaledSession, crc: Checksum, file: DiskFile, snapshotRevision: u64)
    reads session
  {
    session.crc == crc && session.file == file && !session.requiresReopen
      && session.snapshotRevision == snapshotRevision
  }

  // ----- what acknowledged calls keep

  /** The name an edit replaces fits a journal record. */
  predicate OldNameReadable(d: SessionDocument, c: SessionCommand)
    requires StatusOn(d, c) == EditStatus.Applied && c.kind != RemoveTrack
  {
    |InverseOf(d, c).name| <= MAXIMUM_COMMAND_NAME_BYTES
  }

  /** An acknowledged edit can be recovered if and only if the name it replaced is at most 1024 bytes long. */
  lemma EditKeepsReadable(before: Live, h: Chronicle, command: SessionCommand, after: Live, now: Chronicle)
    requires CommittedEdit(before, h, command, after, now) && Plain(command) && Readable(before, h)
    ensures Readable(after, now) <==> OldNameReadable(before.document, Completed(before.document, command))
    ensures AllDecodable(now.log) <==> OldNameReadable(before.document, Completed(before.document, command))
  {
    var c := Completed(before.document, command);
    EditEntryIsClean(before.document, c);
    if OldNameReadable(before.document, c) {
      ActionKeepsReadable(before, h, Edit, EntryOf(before.document, c));
    } else {
      UnreadableEdit(before, h, EntryOf(before.document, c));
    }
  }

  lemma TidyNameIsReadable(d: SessionDocument, c: SessionCommand)
    requires StatusOn(d, c) == EditStatus.Applied && c.kind != RemoveTrack && OldNameEditable(d, c)
    ensures OldNameReadable(d, c)
  {}

  lemma CompletedIsNew(d: SessionDocument, command: SessionCommand)
    requires Editable(d) == true && (command.kind == AddTrack ==> command.entityId == 0)
    ensures var c := Completed(d, command); c.kind == AddTrack ==> c.entityId !in StableIds(d)
  {
    NextIdIsNew(d);
  }

  lemma EditKeepsTidySession(before: Live, h: Chronicle, command: SessionCommand, after: Live, now: Chronicle)
    requires CommittedEdit(before, h, command, after, now) && Plain(command) && Tidy(before, h)
    requires command.kind == AddTrack ==> command.entityId == 0
    ensures OldNameReadable(before.document, Completed(before.document, command))
    ensures Tidy(after, now) || |after.document.tracks| > MAXIMUM_TRACK_COUNT
  {
    var c := Completed(before.document, command);
    LiveIsTidy(before, h);
    CompletedIsNew(before.document, command);
    TidyNamesAfterEdit(before.document, c);
    TidyNameIsReadable(before.document, c);
    EditKeepsEditable(before.document, c);
    if Editable(after.document) {
      EditKeepsTidy(before, h, c);
    }
  }

  lemma HistoryActionKeeps(before: Live, h: Chronicle, action: Action, after: Live, now: Chronicle)
    requires CommittedAction(before, h, action, after, now)
    ensures Readable(before, h) ==> Readable(after, now)
    ensures Tidy(before, h) ==> Tidy(after, now)
  {
    var e := Top(if action == Undo then before.undo else before.redo);
    if Readable(before, h) {
      ActionKeepsReadable(before, h, action, e);
    }
    if Tidy(before, h) {
      if action == Undo { UndoKeepsTidy(before, h); } else { RedoKeepsTidy(before, h); }
    }
  }

  /** In a tidy session the refusal "history command no longer applies" is not reached before the revision
      counter is exhausted. */
  lemma HistoryAlwaysApplies(live: Live, h: Chronicle, action: Action)
    requires Sane(live, h) && Tidy(live, h) && action != Edit && live.document.revision < U64_MAX
    requires (if action == Undo then live.undo else live.redo) != []
    ensures HistoryAnswer(live, live.document.revision, action) == Committed
  {
    RoomForCheckpoint(live, h);
    LiveIsTidy(live, h);
    if action == Undo { UndoKeepsTidy(live, h); } else { RedoKeepsTidy(live, h); }
  }

  lemma CheckpointKeeps(live: Live, h: Chronicle)
    requires Sane(live, h)
    ensures RecordCount(live) <= live.document.revision
    ensures Readable(live, h) ==> Readable(live, Compact(live, h))
    ensures Tidy(live, h) ==> Tidy(live, Compact(live, h))
  {
    RoomForCheckpoint(live, h);
    if Readable(live, h) { CompactKeepsReadable(live, h); }
  }
}
