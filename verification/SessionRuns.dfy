/** Any run of a journaled session: calls, failures, snapshot saves and checkpoints in any order. */
module SessionRuns {
  import opened SessionDocuments
  import opened SessionEditing
  import opened EditValidity
  import opened SessionHistory
  import opened Checkpoints
  import opened UndoRedo
  import opened Codecs
  import opened Framing
  import opened JournalDisk
  import opened CommandRecords
  import opened Chronicles
  import opened JournaledSessions
  import opened SessionRecovery
  import opened ProjectFile
  import opened ProjectStore

  /** What a client may do, and how the disk answers: edits, undo and redo, capturing the document for a save, the
      captured document becoming durable, and a checkpoint at the durable revision. */
  datatype Call =
    | EditCall(expectedRevision: u64, command: SessionCommand, append: AppendEnd)
    | HistoryCall(expectedRevision: u64, action: Action, append: AppendEnd)
    | CaptureCall
    | SaveCall(save: SaveEnd)
    | CheckpointCall(replace: ReplaceEnd)

  /** The public edits: setting the tempo, adding a track without an identity, renaming a track. */
  predicate Offered(call: Call) {
    match call
    case EditCall(_, c, _) => Plain(c) && c.kind != RemoveTrack && (c.kind == AddTrack ==> c.entityId == 0)
    case HistoryCall(_, action, _) => action != Edit
    case CaptureCall => true
    case SaveCall(_) => true
    case CheckpointCall(_) => true
  }

  // ----- what the calls mean

  /** What a client knows of a session: its live state, and the outcome of an unacknowledged action once an append
      has failed. */
  datatype Seen = Seen(live: Live, attempt: Option<Live>)

  /** An action that may be journaled: acknowledged if its record is flushed, otherwise only attempted. */
  function Attempted(live: Live, action: Action, e: HistoryEntry, end: AppendEnd): Seen
    requires Moves(action, e, live.undo, live.redo)
      && ApplyStatus(live.document, CommandOf(action, e)) == EditStatus.Applied
  {
    if end.Flushed? then Seen(Act(live, action, e), None) else Seen(live, Some(Act(live, action, e)))
  }

  /** One call: only acknowledged edits, undos and redos change the live state, and nothing does once an append has
      failed. */
  ghost function AfterCall(m: Seen, call: Call): Seen {
    if m.attempt.Some? then m
    else
      match call
      case EditCall(expected, c, end) =>
        if EditAnswer(m.live.document, expected, c) != JournaledStatus.Committed then m
        else Attempted(m.live, Edit, EntryOf(m.live.document, Completed(m.live.document, c)), end)
      case HistoryCall(expected, action, end) =>
        if action == Edit || HistoryAnswer(m.live, expected, action) != JournaledStatus.Committed then m
        else Attempted(m.live, action, Top(Source(m.live, action)), end)
      case _ => m
  }

  ghost function AfterCalls(m: Seen, calls: seq<Call>): Seen {
    if calls == [] then m else AfterCall(AfterCalls(m, calls[..|calls| - 1]), calls[|calls| - 1])
  }

  lemma OneMoreCall(m: Seen, calls: seq<Call>, k: nat)
    requires k < |calls|
    ensures AfterCalls(m, calls[..k + 1]) == AfterCall(AfterCalls(m, calls[..k]), calls[k])
  {
    assert calls[..k + 1][..k] == calls[..k];
  }

  lemma AllCalls(calls: seq<Call>)
    ensures calls[..|calls|] == calls
  {}

  ghost function Observed(s: JournaledSession): Seen
    reads s, s.controller
  {
    Seen(s.State(), if s.requiresReopen then Some(s.attempt) else None)
  }

  // ----- what the calls keep

  /** Everything can be recovered, and undo and redo are exact unless one track too many has been added. */
  ghost predicate Kept(live: Live, h: Chronicle) {
    Readable(live, h) && (Tidy(live, h) || |live.document.tracks| > MAXIMUM_TRACK_COUNT)
  }

  /** A snapshot of the document as it was at an admissible revision. */
  ghost predicate Anchored(live: Live, h: Chronicle, snapshot: SessionDocument) {
    && h.baseline <= snapshot.revision <= live.document.revision
    && snapshot.revision in h.documents && h.documents[snapshot.revision] == snapshot
    && Saveable(snapshot)
  }

  /** What opening a snapshot with the journal file gives: the live session, or, after a failed append only, the
      session with the attempted action. */
  ghost predicate Reopens(s: JournaledSession, snapshot: SessionDocument)
    reads s, s.controller, s.file
  {
    var restored := Restored(s.crc, s.file.bytes, snapshot);
    || restored == Some(Rebuilt(s.State(), s.history.baseline))
    || (s.requiresReopen && restored == Some(Rebuilt(s.attempt, s.history.baseline)))
  }

  /** In every valid state, reopening loses nothing that was acknowledged. */
  lemma ReopensSafely(s: JournaledSession, snapshot: SessionDocument)
    requires s.Valid() && Readable(s.State(), s.history) && Anchored(s.State(), s.history, snapshot)
    requires s.requiresReopen ==> Readable(s.attempt, s.attemptHistory)
    ensures Reopens(s, snapshot) == true
  {
    if Holds(s.crc, s.file.bytes, s.history.log) {
      RecoveryIsExact(s.crc, s.file.bytes, s.State(), s.history, snapshot.revision);
    } else {
      RecoveryIsExact(s.crc, s.file.bytes, s.attempt, s.attemptHistory, snapshot.revision);
    }
  }

  lemma ManyTracksAreNotSaved(d: SessionDocument)
    requires |d.tracks| > MAXIMUM_TRACK_COUNT
    ensures Saveable(d)
  {}

  /** Capturing the live document. */
  lemma LiveIsAnchored(live: Live, h: Chronicle)
    requires Sane(live, h) && Kept(live, h)
    ensures Anchored(live, h, live.document)
  {
    Facts(live, h);
    if Tidy(live, h) {
      LiveIsTidy(live, h);
      EditableIsOpenable(live.document);
    } else {
      ManyTracksAreNotSaved(live.document);
    }
  }

  /** Both snapshots, the captured and the durable one, stay admissible. */
  ghost predicate BothAnchored(live: Live, h: Chronicle, captured: SessionDocument, durable: SessionDocument) {
    Anchored(live, h, captured) && Anchored(live, h, durable) && durable.revision <= captured.revision
      && Openable(durable)
  }

  /** A session that can be recovered as it is. */
  ghost predicate Sound(live: Live, h: Chronicle, captured: SessionDocument, durable: SessionDocument) {
    Kept(live, h) && BothAnchored(live, h, captured, durable)
  }

  /** After a failed append the session with the attempted action is just as sound: reopening may give it. */
  ghost predicate AttemptSound(s: JournaledSession, captured: SessionDocument, durable: SessionDocument)
    reads s, s.controller
  {
    s.requiresReopen ==> Follows(s.State(), s.history, s.attempt, s.attemptHistory) && Sound(s.attempt, s.attemptHistory, captured, durable)
  }

  ghost predicate Steady(s: JournaledSession, captured: SessionDocument, durable: SessionDocument)
    reads s, s.controller, s.journal, s.file
  {
    s.Valid() && Sound(s.State(), s.history, captured, durable) && AttemptSound(s, captured, durable)
  }

  method CallEdit(s: JournaledSession, call: Call, ghost captured: SessionDocument, ghost durable: SessionDocument)
    requires call.EditCall? && Offered(call) && Steady(s, captured, durable) == true
    modifies s, s.journal, s.file
    ensures Steady(s, captured, durable) == true && Observed(s) == AfterCall(old(Observed(s)), call)
  {
    ghost var before, h := s.State(), s.history;
    var result := s.CommitEdit(call.expectedRevision, call.command, call.append);
    if !old(s.requiresReopen) {
      ghost var done, now := if s.requiresReopen then s.attempt else s.State(), if s.requiresReopen then s.attemptHistory else s.history;
      if result.status == JournaledStatus.Committed || s.requiresReopen {
        EditStays(before, h, call.command, done, now, captured, durable);
      }
      EditMeans(before, h, call, result.status, done, now, Observed(s));
    }
  }

  lemma EditMeans(before: Live, h: Chronicle, call: Call, status: JournaledStatus, done: Live, now: Chronicle,
    after: Seen)
    requires call.EditCall?
      && status == Final(EditAnswer(before.document, call.expectedRevision, call.command), false, call.append)
    requires status == JournaledStatus.Committed || status == JournalFailure ==>
      CommittedEdit(before, h, call.command, done, now) == true
    requires after == Known(before, status, done)
    ensures after == AfterCall(Seen(before, None), call)
  {}

  /** What is known after a call that would lead to `done`. */
  function Known(before: Live, status: JournaledStatus, done: Live): Seen {
    if status == JournaledStatus.Committed then Seen(done, None)
    else if status == JournalFailure then Seen(before, Some(done)) else Seen(before, None)
  }

  lemma EditStays(before: Live, h: Chronicle, c: SessionCommand, after: Live, now: Chronicle, captured: SessionDocument,
    durable: SessionDocument)
    requires CommittedEdit(before, h, c, after, now) == true && Plain(c) && (c.kind == AddTrack ==> c.entityId == 0)
    requires Sound(before, h, captured, durable) == true
    ensures Sound(after, now, captured, durable) == true && Follows(before, h, after, now)
    ensures after == Act(before, Edit, EntryOf(before.document, Completed(before.document, c)))
  {
    EditKeepsTidySession(before, h, c, after, now);
    EditKeepsReadable(before, h, c, after, now);
    AnchorsStay(before, h, after, now, captured, durable);
  }

  method CallHistory(s: JournaledSession, call: Call, ghost captured: SessionDocument, ghost durable: SessionDocument)
    requires call.HistoryCall? && Offered(call) && Steady(s, captured, durable) == true
    modifies s, s.journal, s.file
    ensures Steady(s, captured, durable) == true && Observed(s) == AfterCall(old(Observed(s)), call)
  {
    ghost var before, h := s.State(), s.history;
    var result := s.CommitHistoryAction(call.expectedRevision, call.action, call.append);
    if !old(s.requiresReopen) {
      ghost var done, now := if s.requiresReopen then s.attempt else s.State(), if s.requiresReopen then s.attemptHistory else s.history;
      if result.status == JournaledStatus.Committed || s.requiresReopen {
        WasEditable(before, call, result.status);
        HistoryStays(before, h, call.action, done, now, captured, durable);
      }
      HistoryMeans(before, h, call, result.status, done, now, Observed(s));
    }
  }

  lemma HistoryMeans(before: Live, h: Chronicle, call: Call, status: JournaledStatus, done: Live, now: Chronicle,
    after: Seen)
    requires call.HistoryCall? && call.action != Edit
    requires status == Final(HistoryAnswer(before, call.expectedRevision, call.action), false, call.append)
    requires status == JournaledStatus.Committed || status == JournalFailure ==>
      CommittedAction(before, h, call.action, done, now) == true
    requires after == Known(before, status, done)
    ensures after == AfterCall(Seen(before, None), call)
  {}

  lemma WasEditable(before: Live, call: Call, status: JournaledStatus)
    requires call.HistoryCall?
      && status == Final(HistoryAnswer(before, call.expectedRevision, call.action), false, call.append)
    requires status == JournaledStatus.Committed || status == JournalFailure
    ensures Editable(before.document) == true
  {}

  lemma HistoryStays(before: Live, h: Chronicle, action: Action, after: Live, now: Chronicle, captured: SessionDocument,
    durable: SessionDocument)
    requires CommittedAction(before, h, action, after, now) == true && Editable(before.document) == true
    requires Sound(before, h, captured, durable) == true
    ensures Sound(after, now, captured, durable) == true && Follows(before, h, after, now)
    ensures after == Act(before, action, Top(Source(before, action)))
  {
    TracksCanBeEdited(before.document);
    HistoryActionKeeps(before, h, action, after, now);
    AnchorsStay(before, h, after, now, captured, durable);
  }

  lemma TracksCanBeEdited(d: SessionDocument)
    requires Editable(d)
    ensures |d.tracks| <= MAXIMUM_TRACK_COUNT
  {}

  lemma AnchorsStay(live: Live, h: Chronicle, after: Live, now: Chronicle, captured: SessionDocument,
    durable: SessionDocument)
    requires Follows(live, h, after, now) && BothAnchored(live, h, captured, durable)
    ensures BothAnchored(after, now, captured, durable) == true
  {}

  /** The live document becomes the captured one. */
  lemma CaptureStays(s: JournaledSession, captured: SessionDocument, durable: SessionDocument)
    requires Steady(s, captured, durable)
    ensures Steady(s, s.controller.document, durable)
  {
    LiveIsAnchored(s.State(), s.history);
    if s.requiresReopen {
      AnchorsStay(s.State(), s.history, s.attempt, s.attemptHistory, s.controller.document, durable);
    }
  }

  method CallCheckpoint(s: JournaledSession, call: Call, ghost captured: SessionDocument,
    ghost durable: SessionDocument, reported: u64)
    requires call.CheckpointCall? && Steady(s, captured, durable) && reported <= durable.revision
    modifies s, s.file
    ensures Steady(s, captured, durable) == true && Observed(s) == old(Observed(s))
  {
    CheckpointStays(s.State(), s.history, captured, durable, reported);
    var ok := s.Checkpoint(reported, call.replace);
  }

  lemma CheckpointStays(live: Live, h: Chronicle, captured: SessionDocument, durable: SessionDocument, reported: u64)
    requires Sane(live, h) && Sound(live, h, captured, durable) == true && reported <= durable.revision
    ensures RecordCount(live) <= live.document.revision
    ensures reported == live.document.revision ==> Sound(live, Compact(live, h), captured, durable) == true
  {
    CheckpointKeeps(live, h);
  }

  /** The project file holds the durable snapshot. */
  ghost predicate OnFile(files: ProjectFiles, durable: SessionDocument)
    reads files
  {
    IsSnapshot(files.crc, files.target, durable)
  }

  /** The captured document is serialised and saved; it is durable once it has replaced the project file, even
      when that is reported as failed. */
  method CallSave(s: JournaledSession, files: ProjectFiles, call: Call, captured: SessionDocument,
    ghost durable: SessionDocument, reported: u64)
    returns (ghost saved: SessionDocument, now: u64)
    requires call.SaveCall? && Steady(s, captured, durable) && OnFile(files, durable) && reported <= durable.revision
    modifies files
    ensures Steady(s, captured, saved) && OnFile(files, saved) && now <= saved.revision
  {
    saved, now := durable, reported;
    var ok;
    ghost var replaced;
    ok, replaced := SaveDocument(files, captured, call.save);
    if replaced {
      saved := captured;
    }
    if ok {
      now := captured.revision;
    }
  }

  /** A call that does not touch the project file. */
  method Converse(s: JournaledSession, call: Call, captured: SessionDocument, ghost durable: SessionDocument,
    reported: u64)
    returns (now: SessionDocument)
    requires Offered(call) && !call.SaveCall? && Steady(s, captured, durable) == true && reported <= durable.revision
    modifies s, s.journal, s.file
    ensures Steady(s, now, durable) == true && Observed(s) == AfterCall(old(Observed(s)), call)
  {
    now := captured;
    match call {
      case EditCall(_, _, _) => CallEdit(s, call, captured, durable);
      case HistoryCall(_, _, _) => CallHistory(s, call, captured, durable);
      case CaptureCall =>
        CaptureStays(s, captured, durable);
        now := s.controller.document;
      case CheckpointCall(_) => CallCheckpoint(s, call, captured, durable, reported);
    }
  }

  /** One call. */
  method Perform(s: JournaledSession, files: ProjectFiles, call: Call, captured: SessionDocument,
    ghost durable: SessionDocument, reported: u64)
    returns (now: SessionDocument, ghost stored: SessionDocument, known: u64)
    requires Offered(call) && Steady(s, captured, durable) == true && OnFile(files, durable) == true
      && reported <= durable.revision
    modifies s, s.journal, s.file, files
    ensures Steady(s, now, stored) == true && OnFile(files, stored) == true && known <= stored.revision
    ensures Observed(s) == AfterCall(old(Observed(s)), call)
  {
    now, stored, known := captured, durable, reported;
    if call.SaveCall? {
      stored, known := CallSave(s, files, call, captured, durable, reported);
    } else {
      now := Converse(s, call, captured, durable, reported);
      assert files.target == old(files.target);
    }
  }

  /** Whatever a client does and however the disk fails, starting from a session whose track names are all 1 to
      1024 bytes long: the live session is what the acknowledged calls make of it, and the project file holds a
      snapshot which, with the journal, gives that session with both history stacks; only after a failed append may
      it give the session with the one attempted action. */
  method Drive(s: JournaledSession, files: ProjectFiles, calls: seq<Call>, start: SessionDocument)
    returns (ghost durable: SessionDocument, captured: SessionDocument)
    requires forall k :: 0 <= k < |calls| ==> Offered(calls[k])
    requires Steady(s, start, start) && OnFile(files, start)
    modifies s, s.journal, s.file, files
    ensures (Steady(s, captured, durable) && OnFile(files, durable) && Reopens(s, durable)) == true
    ensures Observed(s) == AfterCalls(old(Observed(s)), calls)
  {
    captured := start;
    durable := start;
    var reported: u64 := start.revision;
    var k := 0;
    while k < |calls|
      invariant 0 <= k <= |calls|
      invariant (Steady(s, captured, durable) && OnFile(files, durable)) == true && reported <= durable.revision
      invariant Observed(s) == AfterCalls(old(Observed(s)), calls[..k])
    {
      OneMoreCall(old(Observed(s)), calls, k);
      captured, durable, reported := Perform(s, files, calls[k], captured, durable, reported);
      k := k + 1;
    }
    AllCalls(calls);
    ReopensSafely(s, durable);
  }

  // ----- a checkpoint whose directory entry may be lost

  lemma RevisionTells(m: Seen, call: Call)
    ensures AfterCall(m, call).live == m.live
      || AfterCall(m, call).live.document.revision == m.live.document.revision + 1
  {}

  lemma {:induction false} RevisionsTell(m: Seen, calls: seq<Call>)
    ensures var now := AfterCalls(m, calls).live;
      now.document.revision >= m.live.document.revision
        && (now == m.live <==> now.document.revision == m.live.document.revision)
  {
    if calls != [] {
      RevisionsTell(m, calls[..|calls| - 1]);
      RevisionTells(AfterCalls(m, calls[..|calls| - 1]), calls[|calls| - 1]);
    }
  }

  /** A checkpoint that replaces the journal without flushing the directory is reported as failed, and the session goes
      on. If a power loss later brings the old journal and the old snapshot back, they give the session of the
      checkpoint: everything acknowledged survives if and only if nothing was acknowledged since. */
  method UnsyncedCheckpoint(s: JournaledSession, files: ProjectFiles, calls: seq<Call>, start: SessionDocument)
    returns (ok: bool, ghost replaced: seq<byte>)
    requires forall k :: 0 <= k < |calls| ==> Offered(calls[k])
    requires Steady(s, start, start) == true && OnFile(files, start) == true && !s.requiresReopen
    requires start.revision == s.controller.document.revision != s.checkpointRevision
    modifies s, s.journal, s.file, files
    ensures !ok && replaced == old(s.file.bytes)
    ensures Restored(s.crc, replaced, start) == Some(Rebuilt(old(s.State()), old(s.history).baseline))
    ensures Observed(s) == AfterCalls(old(Observed(s)), calls)
    ensures s.State() == old(s.State()) <==> s.State().document.revision == old(s.State()).document.revision
  {
    replaced := s.file.bytes;
    ghost var m := Observed(s);
    OldJournalRestores(s, start);
    CheckpointKeeps(s.State(), s.history);
    ok := s.Checkpoint(start.revision, ReplacedUnsynced);
    assert files.target == old(files.target);
    ghost var durable;
    var captured;
    durable, captured := Drive(s, files, calls, start);
    RevisionsTell(m, calls);
  }

  lemma OldJournalRestores(s: JournaledSession, start: SessionDocument)
    requires Steady(s, start, start) == true && !s.requiresReopen
    ensures Restored(s.crc, s.file.bytes, start) == Some(Rebuilt(s.State(), s.history.baseline))
  {
    RecoveryIsExact(s.crc, s.file.bytes, s.State(), s.history, start.revision);
  }

  // ----- where the assumptions are needed

  /** A valid document whose only track has a name of 1025 bytes. */
  function LongNamed(): SessionDocument {
    UnnamedTrack().(tracks := [Track(1, 5, ONE, 0, seq(1_025, _ => 65))])
  }

  lemma LongNamedIsEditable()
    ensures Editable(LongNamed()) == true
  {
    assert StableIds(LongNamed()) == [1];
    LargestBounds([1]);
    LongNamedIsWhole();
  }

  lemma LongNamedIsWhole()
    ensures ValidEntities(LongNamed()) == true
  {}

  /** Documents allow names of up to 4096 bytes, journal records only 1024: renaming a track with a longer name is
      acknowledged, and its record can then not be read back. */
  lemma RenamingALongNameCannotBeRecovered()
    ensures var d, c := LongNamed(), BLANK.(kind := RenameTrack, entityId := 1, name := [65]);
      && Editable(d) && ApplyStatus(d, c) == EditStatus.Applied
      && DecodeRecord(EncodeRecord(Change(Edit, EntryOf(d, c)))) == None
  {
    var d, c := LongNamed(), BLANK.(kind := RenameTrack, entityId := 1, name := [65]);
    LongNamedIsEditable();
    assert TrackIndex(d.tracks, 1) == 0;
    var r := Change(Edit, EntryOf(d, c));
    assert !DecodableCommand(r.entry.inverse);
    RecordReadsBack(r);
  }

  /** A document with `n` tracks, numbered from 1. */
  function Numbered(n: nat): SessionDocument
    requires n <= MAXIMUM_TRACK_COUNT
  {
    UnnamedTrack().(tracks := seq(n, k requires 0 <= k < n => Track(1 + k, 5, ONE, 0, [65])))
  }

  lemma NumberedIsEditable(n: nat)
    requires 0 < n <= MAXIMUM_TRACK_COUNT
    ensures Editable(Numbered(n)) && TidyNames(Numbered(n)) && Largest(StableIds(Numbered(n))) == n
  {
    var ids := StableIds(Numbered(n));
    assert forall k :: 0 <= k < |ids| ==> ids[k] == k + 1;
    LargestBounds(ids);
  }

  /** A document with a track, a media source and a clip of it on the track. */
  function OneClip(): SessionDocument {
    UnnamedTrack().(tracks := [Track(1, 5, ONE, 0, [65])], mediaSources := [MediaSource(2, 0, 0, 0, 0, [], [])],
                    clips := [Clip(3, 1, 2, 0, 1, 0, ONE, false, [])])
  }

  lemma OneClipIsEditable()
    ensures Editable(OneClip()) == true && TidyNames(OneClip()) && StableIds(OneClip()) == [1, 2, 3]
  {
    assert StableIds(OneClip()) == [1, 2, 3];
    LargestBounds([1, 2, 3]);
    OneClipRefers();
  }

  lemma OneClipRefers()
    ensures ValidEntities(OneClip()) == true
  {
    var d := OneClip();
    assert d.tracks[0] in d.tracks && d.mediaSources[0] in d.mediaSources;
    assert TrackIds(d) == {1} && SourceIds(d) == {2};
  }

  /** A track under the identity of the clip is accepted, and leaves a document that is not valid. */
  lemma TrackUnderTheIdentityOfAClip()
    ensures var d, c := OneClip(), BLANK.(kind := AddTrack, entityId := 3, trackType := 1, name := [65]);
      Editable(d) && ApplyStatus(d, c) == EditStatus.Applied && !ValidDocument(Apply(d, c))
  {
    OneClipIsEditable();
    AddCollides(OneClip(), BLANK.(kind := AddTrack, entityId := 3, trackType := 1, name := [65]));
  }

  /** With 100000 tracks one more is acknowledged, and the document can then not be edited, undone, saved or
      opened. */
  lemma OneTrackTooMany(d: SessionDocument)
    requires Editable(d) && |d.tracks| == MAXIMUM_TRACK_COUNT && d.revision < U64_MAX
      && Largest(StableIds(d)) + 1 < U64_MAX
    ensures var c := BLANK.(kind := AddTrack, entityId := Largest(StableIds(d)) + 1, name := [65]);
      ApplyStatus(d, c) == EditStatus.Applied && !Editable(Apply(d, c))
  {
    var c := BLANK.(kind := AddTrack, entityId := Largest(StableIds(d)) + 1, name := [65]);
    NextIdIsNew(d);
    AbsentTrack(d, c.entityId);
    EditKeepsEditable(d, c);
  }

  lemma AbsentTrack(d: SessionDocument, id: u64)
    requires id !in StableIds(d)
    ensures TrackIndex(d.tracks, id) == |d.tracks|
  {
    assert forall k :: 0 <= k < |d.tracks| ==> StableIds(d)[k] == d.tracks[k].stableId;
  }

  /** There is such a document, with tidy names. */
  lemma OneTrackTooManyLocksTheSession()
    ensures var d := Numbered(MAXIMUM_TRACK_COUNT);
      && Editable(d) && TidyNames(d)
      && var c := BLANK.(kind := AddTrack, entityId := Largest(StableIds(d)) + 1, name := [65]);
         ApplyStatus(d, c) == EditStatus.Applied && !Editable(Apply(d, c))
  {
    NumberedIsEditable(MAXIMUM_TRACK_COUNT);
    OneTrackTooMany(Numbered(MAXIMUM_TRACK_COUNT));
  }
}
