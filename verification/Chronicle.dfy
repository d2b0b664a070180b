/** What a journaled session keeps true from action to action: its journal replays to it, its records can be
    read back, and its undo and redo walk through known contents. */
module Chronicles {
  import opened SessionDocuments
  import opened SessionEditing
  import opened EditValidity
  import opened SessionHistory
  import opened Checkpoints
  import opened UndoRedo
  import opened Codecs
  import opened Framing
  import opened JournalFile
  import opened JournalDisk
  import opened CommandRecords

  /** The meaning of the journal, every version of the document since the baseline, and the contents that undo
      and redo lead to. */
  datatype Chronicle = Chronicle(log: seq<Logged>, baseline: u64, documents: map<int, SessionDocument>,
                                 past: seq<SessionDocument>, future: seq<SessionDocument>)

  ghost predicate EntriesWritable(s: seq<HistoryEntry>) {
    forall k :: 0 <= k < |s| ==> WritableEntry(s[k])
  }

  predicate WritableEntry(e: HistoryEntry) {
    |e.forward.name| <= MAXIMUM_NAME_BYTES && |e.inverse.name| <= MAXIMUM_NAME_BYTES
  }

  predicate ReadableEntry(e: HistoryEntry) {
    DecodableCommand(e.forward) && DecodableCommand(e.inverse)
  }

  ghost predicate EntriesReadable(s: seq<HistoryEntry>) {
    forall k :: 0 <= k < |s| ==> ReadableEntry(s[k])
  }

  /** Holds in every reachable state: the facts below, behind a quantifier so that proofs which only pass them on
      carry them as one. */
  ghost predicate Sane(live: Live, h: Chronicle) {
    (forall seal: bool {:trigger Sealed(live, h, seal)} :: Sealed(live, h, seal)) == true
  }

  ghost predicate Sealed(live: Live, h: Chronicle, seal: bool) {
    SaneFacts(live, h)
  }

  lemma Facts(live: Live, h: Chronicle)
    requires Sane(live, h)
    ensures SaneFacts(live, h)
  {
    assert Sealed(live, h, true);
  }

  ghost predicate SaneFacts(live: Live, h: Chronicle) {
    && Faithful(live, h.log, h.baseline, h.documents)
    && RecordCount(live) <= live.document.revision
    && AllWritable(h.log) && EntriesWritable(live.undo) && EntriesWritable(live.redo)
  }

  /** Every record, in the journal or in the history, can be read back. */
  ghost predicate Readable(live: Live, h: Chronicle) {
    AllDecodable(h.log) && EntriesReadable(live.undo) && EntriesReadable(live.redo)
  }

  /** Every track has a name an edit accepts: 1 to 1024 bytes. */
  ghost predicate TidyNames(d: SessionDocument) {
    forall k :: 0 <= k < |d.tracks| ==> EditableName(d.tracks[k].name)
  }

  ghost predicate AllTidy(s: seq<SessionDocument>) {
    forall k :: 0 <= k < |s| ==> Editable(s[k]) && TidyNames(s[k])
  }

  /** Undo and redo lead exactly through the recorded contents, all of which can be edited. */
  ghost predicate Tidy(live: Live, h: Chronicle) {
    && Exact(live, h.past, h.future) && AllTidy(h.past) && AllTidy(h.future)
  }

  /** The chronicle after an action that led to `after`. */
  function Advance(h: Chronicle, action: Action, e: HistoryEntry, after: SessionDocument): Chronicle {
    var log := h.log + [Logged(after.revision, Change(action, e))];
    var documents := h.documents[after.revision as int := after];
    match action
    case Edit => Chronicle(log, h.baseline, documents, h.past + [after], [after])
    case Undo =>
      if |h.past| < 2 then Chronicle(log, h.baseline, documents, h.past, h.future)
      else Chronicle(log, h.baseline, documents, h.past[..|h.past| - 1], h.future + [h.past[|h.past| - 2]])
    case Redo =>
      if |h.future| < 2 then Chronicle(log, h.baseline, documents, h.past, h.future)
      else Chronicle(log, h.baseline, documents, h.past + [h.future[|h.future| - 2]], h.future[..|h.future| - 1])
  }

  // ----- every action

  lemma ActionKeepsSane(live: Live, h: Chronicle, action: Action, e: HistoryEntry)
    requires Sane(live, h) && Moves(action, e, live.undo, live.redo) && Clean(e) && WritableEntry(e)
    requires ApplyStatus(live.document, CommandOf(action, e)) == EditStatus.Applied
    ensures Sane(Act(live, action, e), Advance(h, action, e, Act(live, action, e).document))
  {
    Facts(live, h);
    ChangeKeepsFaithful(live, h.log, h.baseline, h.documents, action, e);
    ActionsKeepRoom(live, action, e);
  }

  lemma ActionKeepsReadable(live: Live, h: Chronicle, action: Action, e: HistoryEntry)
    requires Moves(action, e, live.undo, live.redo)
    requires ApplyStatus(live.document, CommandOf(action, e)) == EditStatus.Applied
    requires Readable(live, h) && ReadableEntry(e)
    ensures Readable(Act(live, action, e), Advance(h, action, e, Act(live, action, e).document))
  {}

  lemma UnreadableEdit(live: Live, h: Chronicle, e: HistoryEntry)
    requires ApplyStatus(live.document, e.forward) == EditStatus.Applied && !ReadableEntry(e)
    ensures !AllDecodable(Advance(h, Edit, e, Act(live, Edit, e).document).log)
  {
    var log := Advance(h, Edit, e, Act(live, Edit, e).document).log;
    assert !Decodable(log[|log| - 1].record);
  }

  // ----- edits

  /** The entry an edit adds to the history. */
  function EntryOf(d: SessionDocument, c: SessionCommand): HistoryEntry
    requires StatusOn(d, c) == EditStatus.Applied && c.kind != RemoveTrack
  {
    HistoryEntry(c, InverseOf(d, c))
  }

  /** Every field of a command that its kind does not use has its initial value. */
  predicate Plain(c: SessionCommand) {
    match c.kind
    case SetTempo => c == BLANK.(kind := SetTempo, tempo := c.tempo)
    case AddTrack => c == BLANK.(kind := AddTrack, entityId := c.entityId, trackType := c.trackType, color := c.color,
      name := c.name)
    case RenameTrack => c == BLANK.(kind := RenameTrack, entityId := c.entityId, name := c.name)
    case RemoveTrack => c == BLANK.(kind := RemoveTrack, entityId := c.entityId)
  }

  lemma EditEntryIsClean(d: SessionDocument, c: SessionCommand)
    requires ValidDocument(d) && StatusOn(d, c) == EditStatus.Applied && c.kind != RemoveTrack && Plain(c)
    ensures Clean(EntryOf(d, c)) && WritableEntry(EntryOf(d, c)) && DecodableCommand(c)
    ensures ReadableEntry(EntryOf(d, c)) <==> |InverseOf(d, c).name| <= MAXIMUM_COMMAND_NAME_BYTES
    ensures OldNameEditable(d, c) ==> ReadableEntry(EntryOf(d, c))
  {
    match c.kind {
      case SetTempo =>
      case AddTrack =>
      case RenameTrack =>
        assert ValidTrack(d.tracks[TrackIndex(d.tracks, c.entityId)]);
    }
  }

  lemma TidyNamesAfterEdit(d: SessionDocument, c: SessionCommand)
    requires TidyNames(d) && ApplyStatus(d, c) == EditStatus.Applied && c.kind != RemoveTrack
    ensures TidyNames(Apply(d, c)) && OldNameEditable(d, c)
  {
    var e := Apply(d, c);
    forall k | 0 <= k < |e.tracks| ensures EditableName(e.tracks[k].name) {
      if k < |d.tracks| { assert EditableName(d.tracks[k].name); }
    }
  }

  lemma NamesAreContent(a: SessionDocument, b: SessionDocument)
    requires Content(a) == Content(b)
    ensures TidyNames(a) <==> TidyNames(b)
  {
    assert a.tracks == b.tracks;
  }

  /** On a tidy session the live document is editable with tidy names. */
  lemma LiveIsTidy(live: Live, h: Chronicle)
    requires Tidy(live, h) && live.document.revision != 0
    ensures Editable(live.document) && TidyNames(live.document)
  {
    var now := h.past[|live.undo|];
    assert Editable(now) && TidyNames(now);
    EditableContent(now, live.document);
    NamesAreContent(now, live.document);
  }

  lemma TidyPush(s: seq<SessionDocument>, d: SessionDocument)
    requires AllTidy(s) && Editable(d) && TidyNames(d)
    ensures AllTidy(s + [d]) && AllTidy([d])
  {}

  /** An edit keeps a session tidy as long as the tracks stay within the limit. */
  lemma EditKeepsTidy(live: Live, h: Chronicle, c: SessionCommand)
    requires Tidy(live, h) && ApplyStatus(live.document, c) == EditStatus.Applied && c.kind != RemoveTrack
    requires live.document.revision != 0 && (c.kind == AddTrack ==> c.entityId !in StableIds(live.document))
    requires |Apply(live.document, c).tracks| <= MAXIMUM_TRACK_COUNT
    ensures var e := EntryOf(live.document, c);
      Tidy(Act(live, Edit, e), Advance(h, Edit, e, Act(live, Edit, e).document))
  {
    LiveIsTidy(live, h);
    TidyNamesAfterEdit(live.document, c);
    EditKeepsEditable(live.document, c);
    EditKeepsExact(live, c, h.past, h.future);
    TidyPush(h.past, Apply(live.document, c));
  }

  // ----- undo and redo

  lemma TidyShift(from: seq<SessionDocument>, to: seq<SessionDocument>)
    requires AllTidy(from) && AllTidy(to) && |from| >= 2
    ensures AllTidy(from[..|from| - 1]) && AllTidy(to + [from[|from| - 2]])
  {}

  lemma UndoKeepsTidy(live: Live, h: Chronicle)
    requires Tidy(live, h) && live.undo != [] && live.document.revision < U64_MAX
    ensures ApplyStatus(live.document, Top(live.undo).inverse) == EditStatus.Applied
    ensures Tidy(Act(live, Undo, Top(live.undo)),
      Advance(h, Undo, Top(live.undo), Act(live, Undo, Top(live.undo)).document))
    ensures Content(Act(live, Undo, Top(live.undo)).document) == Content(h.past[|live.undo| - 1])
  {
    UndoIsExact(live, h.past, h.future);
    TidyShift(h.past, h.future);
  }

  lemma RedoKeepsTidy(live: Live, h: Chronicle)
    requires Tidy(live, h) && live.redo != [] && live.document.revision < U64_MAX
    ensures ApplyStatus(live.document, Top(live.redo).forward) == EditStatus.Applied
    ensures Tidy(Act(live, Redo, Top(live.redo)),
      Advance(h, Redo, Top(live.redo), Act(live, Redo, Top(live.redo)).document))
    ensures Content(Act(live, Redo, Top(live.redo)).document) == Content(h.future[|live.redo| - 1])
  {
    RedoIsExact(live, h.past, h.future);
    TidyShift(h.future, h.past);
  }

  // ----- checkpoints

  function Compact(live: Live, h: Chronicle): Chronicle
    requires RecordCount(live) <= live.document.revision
  {
    h.(log := Compacted(live), baseline := live.document.revision)
  }

  lemma CompactKeepsSane(live: Live, h: Chronicle)
    requires Sane(live, h)
    ensures RecordCount(live) <= live.document.revision && Sane(live, Compact(live, h))
  {
    Facts(live, h);
    CheckpointKeepsFaithful(live, h.log, h.baseline, h.documents);
    CompactedIsWritable(live);
  }

  lemma CompactedIsWritable(live: Live)
    requires EntriesWritable(live.undo) && EntriesWritable(live.redo) && RecordCount(live) <= live.document.revision
    ensures AllWritable(Compacted(live))
  {
    forall k | 0 <= k < |Compacted(live)| ensures Writable(Compacted(live)[k].record) {
      CompactedRecord(live, k);
    }
  }

  lemma CompactKeepsReadable(live: Live, h: Chronicle)
    requires Readable(live, h) && RecordCount(live) <= live.document.revision
    ensures Readable(live, Compact(live, h))
  {
    forall k | 0 <= k < |Compacted(live)| ensures Decodable(Compacted(live)[k].record) {
      CompactedRecord(live, k);
    }
  }

  /** Every compacted record is the baseline or carries an entry of one of the stacks. */
  lemma CompactedRecord(live: Live, k: nat)
    requires RecordCount(live) <= live.document.revision && k < |Compacted(live)|
    ensures var r := Compacted(live)[k].record;
      r == Baseline(live.document.revision) || (r.Change? && (r.entry in live.undo || r.entry in live.redo))
  {
    var linear := Linear(live);
    if 0 < k <= |linear| && k - 1 >= |live.undo| {
      assert linear[k - 1] == live.redo[|live.redo| - 1 - (k - 1 - |live.undo|)];
    }
  }

  // ----- a fresh session

  function Fresh(d: SessionDocument): Chronicle {
    Chronicle([Logged(d.revision, Baseline(d.revision))], d.revision, map[d.revision as int := d], [d], [d])
  }

  lemma FreshIsSane(d: SessionDocument)
    requires d.revision != 0
    ensures Sane(Live(d, [], []), Fresh(d)) && Readable(Live(d, [], []), Fresh(d))
    ensures Editable(d) && TidyNames(d) ==> Tidy(Live(d, [], []), Fresh(d))
  {
    FreshIsFaithful(d);
    FreshIsExact(d);
  }

  // ----- recovery

  function Survivor(r: Replayed): Option<Rebuilt> {
    if r.Rebuild? then Some(r.state) else None
  }

  /** What a snapshot and recovered records give. */
  function RebuiltFrom(d: SessionDocument, commands: seq<JournalCommand>): Option<Rebuilt> {
    match ToLog(commands)
    case None => None
    case Some(log) => Survivor(Replay(d, log))
  }

  /** What a snapshot and a journal file give. */
  ghost function Restored(crc: Checksum, bytes: seq<byte>, d: SessionDocument): Option<Rebuilt> {
    RebuiltFrom(d, Commands(crc, bytes))
  }

  /** The file holds exactly the records of a log. */
  ghost predicate Holds(crc: Checksum, bytes: seq<byte>, log: seq<Logged>) {
    AllWritable(log) && Commands(crc, bytes) == ToCommands(log)
  }

  /** The snapshot of any revision since the baseline, together with the journal, gives exactly the live session,
      if and only if every record of the journal can be read back; otherwise it gives none. */
  lemma RecoveryIsExact(crc: Checksum, bytes: seq<byte>, live: Live, h: Chronicle, revision: int)
    requires Sane(live, h) && Holds(crc, bytes, h.log) && h.baseline <= revision <= live.document.revision
    ensures revision in h.documents
    ensures Restored(crc, bytes, h.documents[revision])
      == if AllDecodable(h.log) then Some(Rebuilt(live, h.baseline)) else None
  {
    Facts(live, h);
    JournalReadsBack(h.log);
    assert Rebuilds(h.documents, revision, h.log, live, h.baseline);
  }
}
