/** The command log of a session: what each journal record means, how replay rebuilds a session from a
    snapshot, and why that is the live session again. */
module SessionHistory {
  import opened SessionDocuments
  import opened SessionEditing

  datatype HistoryEntry = HistoryEntry(forward: SessionCommand, inverse: SessionCommand)

  datatype Action = Edit | Undo | Redo

  datatype Record = Change(action: Action, entry: HistoryEntry) | Baseline(revision: u64)

  /** A decoded journal record. */
  datatype Logged = Logged(sequence: u64, record: Record)

  /** The state replay must rebuild; the last entry of each stack is its top. */
  datatype Live = Live(document: SessionDocument, undo: seq<HistoryEntry>, redo: seq<HistoryEntry>)

  // ----- edits, undo and redo on the live state

  /** The command that takes back an edit made on document `d`. */
  function InverseOf(d: SessionDocument, c: SessionCommand): SessionCommand
    requires StatusOn(d, c) == Applied && c.kind != RemoveTrack
  {
    match c.kind
    case SetTempo => BLANK.(kind := SetTempo, tempo := d.tempo)
    case AddTrack => BLANK.(kind := RemoveTrack, entityId := c.entityId)
    case RenameTrack =>
      var track := d.tracks[TrackIndex(d.tracks, c.entityId)];
      BLANK.(kind := RenameTrack, entityId := track.stableId, name := track.name)
  }

  function Top(stack: seq<HistoryEntry>): HistoryEntry
    requires stack != []
  {
    stack[|stack| - 1]
  }

  function Pop(stack: seq<HistoryEntry>): seq<HistoryEntry>
    requires stack != []
  {
    stack[..|stack| - 1]
  }

  /** The command an action executes. */
  function CommandOf(action: Action, e: HistoryEntry): SessionCommand {
    if action == Undo then e.inverse else e.forward
  }

  /** The stacks after an action with its entry. */
  function Shift(action: Action, e: HistoryEntry, undo: seq<HistoryEntry>, redo: seq<HistoryEntry>): (seq<HistoryEntry>,
    seq<HistoryEntry>)
    requires action == Undo ==> undo != []
    requires action == Redo ==> redo != []
  {
    match action
    case Edit => (undo + [e], [])
    case Undo => (Pop(undo), redo + [Top(undo)])
    case Redo => (undo + [Top(redo)], Pop(redo))
  }

  /** The entry is the one the action would move. */
  predicate Moves(action: Action, e: HistoryEntry, undo: seq<HistoryEntry>, redo: seq<HistoryEntry>) {
    match action
    case Edit => true
    case Undo => undo != [] && Top(undo) == e
    case Redo => redo != [] && Top(redo) == e
  }

  /** The live state after an action. */
  function Act(live: Live, action: Action, e: HistoryEntry): Live
    requires Moves(action, e, live.undo, live.redo)
    requires ApplyStatus(live.document, CommandOf(action, e)) == Applied
  {
    var stacks := Shift(action, e, live.undo, live.redo);
    Live(Apply(live.document, CommandOf(action, e)), stacks.0, stacks.1)
  }

  // ----- replay

  datatype ReplayError =
    | BaselineConflict
    | RevisionGap
    | CommandFailed
    | HistoryMismatch
    | SnapshotTooNew

  /** The session being rebuilt, with the checkpoint baseline met so far (zero before any). */
  datatype Rebuilt = Rebuilt(live: Live, checkpoint: u64)

  datatype Replayed = Rebuild(state: Rebuilt) | Reject(error: ReplayError)

  predicate EntryEquals(a: HistoryEntry, b: HistoryEntry) {
    CommandEquals(a.forward, b.forward) && CommandEquals(a.inverse, b.inverse)
  }

  /** The stack movement of one record; undo and redo must name the entry on top. */
  function ReplayStacks(live: Live, action: Action, e: HistoryEntry): Replayed {
    match action
    case Edit => Rebuild(Rebuilt(Live(live.document, live.undo + [e], []), 0))
    case Undo =>
      if live.undo == [] || !EntryEquals(Top(live.undo), e) then Reject(HistoryMismatch)
      else Rebuild(Rebuilt(Live(live.document, Pop(live.undo), live.redo + [Top(live.undo)]), 0))
    case Redo =>
      if live.redo == [] || !EntryEquals(Top(live.redo), e) then Reject(HistoryMismatch)
      else Rebuild(Rebuilt(Live(live.document, live.undo + [Top(live.redo)], Pop(live.redo)), 0))
  }

  /** One record: a baseline is only checked; a change newer than the document is applied; every change
      moves the history. */
  function ReplayRecord(s: Rebuilt, r: Logged, first: bool, last: u64): Replayed {
    var d := s.live.document;
    match r.record
    case Baseline(b) =>
      if !first || b == 0 || r.sequence > b || last < b || d.revision < b then Reject(BaselineConflict)
      else Rebuild(s.(checkpoint := b))
    case Change(action, e) =>
      if r.sequence > d.revision && r.sequence != d.revision + 1 then Reject(RevisionGap)
      else if r.sequence > d.revision && ApplyStatus(d, CommandOf(action, e)) != Applied then Reject(CommandFailed)
      else
        var now := if r.sequence > d.revision then Apply(d, CommandOf(action, e)) else d;
        match ReplayStacks(s.live.(document := now), action, e)
        case Reject(error) => Reject(error)
        case Rebuild(moved) => Rebuild(Rebuilt(moved.live, s.checkpoint))
  }

  function ReplayAll(d: SessionDocument, log: seq<Logged>, last: u64): Replayed {
    if log == [] then Rebuild(Rebuilt(Live(d, [], []), 0))
    else
      match ReplayAll(d, log[..|log| - 1], last)
      case Reject(error) => Reject(error)
      case Rebuild(s) => ReplayRecord(s, log[|log| - 1], |log| == 1, last)
  }

  /** Replays a journal on a snapshot. */
  function Replay(d: SessionDocument, log: seq<Logged>): Replayed {
    if log == [] then Rebuild(Rebuilt(Live(d, [], []), 0))
    else
      var last := log[|log| - 1].sequence;
      match ReplayAll(d, log, last)
      case Reject(error) => Reject(error)
      case Rebuild(s) => if d.revision > last then Reject(SnapshotTooNew) else Rebuild(s)
  }

  // ----- the invariant of a journaled session

  predicate Clean(e: HistoryEntry) {
    !IsNaN(e.forward.tempo) && !IsNaN(e.inverse.tempo)
  }

  ghost predicate AllClean(s: seq<HistoryEntry>) {
    forall k :: 0 <= k < |s| ==> Clean(s[k])
  }

  ghost predicate Increasing(log: seq<Logged>) {
    forall i, j :: 0 <= i < j < |log| ==> log[i].sequence < log[j].sequence
  }

  /** A journal that starts with its baseline and ends at the live revision. */
  ghost predicate LogShape(log: seq<Logged>, baseline: u64, revision: u64) {
    && log != [] && log[0].record == Baseline(baseline)
    && 0 < log[0].sequence <= baseline <= revision
    && log[|log| - 1].sequence == revision
    && Increasing(log)
  }

  /** Every version of the document since the baseline, by revision. */
  ghost predicate Versions(documents: map<int, SessionDocument>, baseline: u64, live: SessionDocument) {
    && live.revision in documents && documents[live.revision] == live
    && (forall s :: baseline <= s <= live.revision ==> s in documents && documents[s].revision == s)
  }

  /** Replaying the journal on the document as it was at any revision since the baseline rebuilds exactly the
      live document and both history stacks. */
  ghost predicate Faithful(live: Live, log: seq<Logged>, baseline: u64, documents: map<int, SessionDocument>) {
    && LogShape(log, baseline, live.document.revision)
    && Versions(documents, baseline, live.document)
    && AllClean(live.undo) && AllClean(live.redo)
    && (forall s :: baseline <= s <= live.document.revision ==> Rebuilds(documents, s, log, live, baseline))
  }

  ghost predicate Rebuilds(documents: map<int, SessionDocument>, s: int, log: seq<Logged>, live: Live, baseline: u64) {
    s in documents && Replay(documents[s], log) == Rebuild(Rebuilt(live, baseline))
  }

  lemma EqualsItself(e: HistoryEntry)
    requires Clean(e)
    ensures EntryEquals(e, e)
  {}

  /** A later end of the journal does not change how its beginning replays. */
  lemma {:induction false} LaterEnd(d: SessionDocument, log: seq<Logged>, last: u64, later: u64)
    requires last <= later && ReplayAll(d, log, last).Rebuild?
    ensures ReplayAll(d, log, later) == ReplayAll(d, log, last)
  {
    if log != [] {
      LaterEnd(d, log[..|log| - 1], last, later);
    }
  }

  ghost predicate AllUpTo(log: seq<Logged>, revision: int) {
    forall k :: 0 <= k < |log| ==>
      log[k].sequence <= revision && (log[k].record.Baseline? ==> log[k].record.revision <= revision)
  }

  /** On a document at least as new as every record, replay leaves the document alone and rebuilds the stacks
      the records describe, whatever the document is. */
  lemma {:induction false} OldRecordsOnlyMoveHistory(d: SessionDocument, e: SessionDocument, log: seq<Logged>,
    last: u64)
    requires AllUpTo(log, d.revision) && AllUpTo(log, e.revision)
    requires ReplayAll(d, log, last).Rebuild?
    ensures ReplayAll(d, log, last).state.live.document == d
    ensures ReplayAll(e, log, last)
         == Rebuild(ReplayAll(d, log, last).state.(live := ReplayAll(d, log, last).state.live.(document := e)))
  {
    if log != [] {
      var before := log[..|log| - 1];
      assert AllUpTo(before, d.revision) && AllUpTo(before, e.revision);
      assert ReplayAll(d, before, last).Rebuild?;
      OldRecordsOnlyMoveHistory(d, e, before, last);
    }
  }

  lemma ShapeIsUpTo(log: seq<Logged>, baseline: u64, revision: u64, d: SessionDocument, last: u64)
    requires LogShape(log, baseline, revision) && ReplayAll(d, log, last).Rebuild?
    ensures AllUpTo(log, revision)
  {
    forall k | 0 <= k < |log|
      ensures log[k].sequence <= revision && (log[k].record.Baseline? ==> log[k].record.revision <= revision) {
      if k < |log| - 1 { assert log[k].sequence < log[|log| - 1].sequence; }
      if k > 0 { LaterRecordsAreChanges(d, log, last, k); }
    }
  }

  lemma {:induction false} LaterRecordsAreChanges(d: SessionDocument, log: seq<Logged>, last: u64, k: nat)
    requires ReplayAll(d, log, last).Rebuild? && 0 < k < |log|
    ensures log[k].record.Change?
  {
    if k < |log| - 1 {
      assert log[..|log| - 1][k] == log[k];
      LaterRecordsAreChanges(d, log[..|log| - 1], last, k);
    }
  }

  /** Replaying one more change, on a state that is the live state before it. */
  lemma ReplayChange(live: Live, checkpoint: u64, action: Action, e: HistoryEntry, last: u64)
    requires Moves(action, e, live.undo, live.redo) && Clean(e)
    requires live.document.revision < U64_MAX && ApplyStatus(live.document, CommandOf(action, e)) == Applied
    ensures ReplayRecord(Rebuilt(live, checkpoint), Logged(live.document.revision + 1, Change(action, e)), false, last)
         == Rebuild(Rebuilt(Act(live, action, e), checkpoint))
  {
    EqualsItself(e);
  }

  /** Replaying it on the state whose document already contains it only moves the history. */
  lemma ReplayOldChange(live: Live, checkpoint: u64, action: Action, e: HistoryEntry, last: u64, d: SessionDocument)
    requires Moves(action, e, live.undo, live.redo) && Clean(e)
    requires live.document.revision < U64_MAX && ApplyStatus(live.document, CommandOf(action, e)) == Applied
    requires d == Act(live, action, e).document
    ensures ReplayRecord(Rebuilt(live.(document := d), checkpoint),
      Logged(live.document.revision + 1, Change(action, e)), false, last)
         == Rebuild(Rebuilt(Act(live, action, e), checkpoint))
  {
    EqualsItself(e);
  }

  /** Logging an edit, an undo or a redo keeps every earlier snapshot sufficient, and adds the new one. */
  lemma ChangeKeepsFaithful(live: Live, log: seq<Logged>, baseline: u64, documents: map<int, SessionDocument>,
    action: Action, e: HistoryEntry)
    requires Faithful(live, log, baseline, documents)
    requires Moves(action, e, live.undo, live.redo) && Clean(e)
    requires ApplyStatus(live.document, CommandOf(action, e)) == Applied
    ensures var after := Act(live, action, e);
            Faithful(after, log + [Logged(live.document.revision + 1, Change(action, e))], baseline,
              documents[after.document.revision := after.document])
  {
    var after := Act(live, action, e);
    var r := Logged(live.document.revision + 1, Change(action, e));
    var longer := log + [r];
    var versions := documents[after.document.revision := after.document];
    forall s | baseline <= s <= after.document.revision ensures Rebuilds(versions, s, longer, after, baseline) {
      if s <= live.document.revision {
        EarlierSnapshotSuffices(live, log, baseline, documents, action, e, s);
      } else {
        NewSnapshotSuffices(live, log, baseline, documents, action, e);
      }
    }
    assert AllClean(after.undo) && AllClean(after.redo);
    assert LogShape(longer, baseline, after.document.revision);
  }

  lemma EarlierSnapshotSuffices(live: Live, log: seq<Logged>, baseline: u64, documents: map<int, SessionDocument>,
    action: Action, e: HistoryEntry, s: int)
    requires Faithful(live, log, baseline, documents) && baseline <= s <= live.document.revision
    requires Moves(action, e, live.undo, live.redo) && Clean(e)
    requires ApplyStatus(live.document, CommandOf(action, e)) == Applied
    ensures s in documents
    ensures Replay(documents[s], log + [Logged(live.document.revision + 1, Change(action, e))])
         == Rebuild(Rebuilt(Act(live, action, e), baseline))
  {
    var r := Logged(live.document.revision + 1, Change(action, e));
    var longer, last := log + [r], live.document.revision;
    assert Rebuilds(documents, s, log, live, baseline);
    LaterEnd(documents[s], log, last, r.sequence);
    ReplayChange(live, baseline, action, e, r.sequence);
    assert longer[..|longer| - 1] == log;
  }

  lemma NewSnapshotSuffices(live: Live, log: seq<Logged>, baseline: u64, documents: map<int, SessionDocument>,
    action: Action, e: HistoryEntry)
    requires Faithful(live, log, baseline, documents)
    requires Moves(action, e, live.undo, live.redo) && Clean(e)
    requires ApplyStatus(live.document, CommandOf(action, e)) == Applied
    ensures Replay(Act(live, action, e).document, log + [Logged(live.document.revision + 1, Change(action, e))])
         == Rebuild(Rebuilt(Act(live, action, e), baseline))
  {
    var after := Act(live, action, e);
    var r := Logged(live.document.revision + 1, Change(action, e));
    var longer, last := log + [r], live.document.revision;
    assert Rebuilds(documents, live.document.revision, log, live, baseline);
    ShapeIsUpTo(log, baseline, live.document.revision, live.document, last);
    LaterEnd(live.document, log, last, r.sequence);
    OldRecordsOnlyMoveHistory(live.document, after.document, log, r.sequence);
    ReplayOldChange(live, baseline, action, e, r.sequence, after.document);
    assert longer[..|longer| - 1] == log;
  }
}
