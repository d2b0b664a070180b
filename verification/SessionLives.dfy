/** The lives of a project: every life opens the files the last one left, takes any calls, and ends anywhere. */
module SessionLives {
  import opened SessionDocuments
  import opened SessionEditing
  import opened EditValidity
  import opened SessionHistory
  import opened Codecs
  import opened JournalFile
  import opened JournalDisk
  import opened Chronicles
  import opened JournaledSessions
  import opened SessionRecovery
  import opened ProjectFile
  import opened ProjectStore
  import opened SessionRuns

  // ----- opening

  /** How opening fares with the disk: moving a staging file over the target, removing one that is left over, and
      replacing an empty journal. */
  datatype OpenEnds = OpenEnds(load: ReplaceEnd, removed: bool, journal: ReplaceEnd)

  /** `open` of a project whose snapshot can be loaded: load, decode, replay. The ghost arguments name the session
      that is expected there, if any. */
  method OpenProject(crc: Checksum, files: ProjectFiles, file: DiskFile, ends: OpenEnds, ghost live: Live,
    ghost h: Chronicle)
    returns (session: JournaledSession?, document: Option<SessionDocument>)
    modifies files, file
    ensures Finds(LoadedPayload(files.crc, old(files.target), old(files.staging), ends.load), document) == true
    ensures PayloadOf(files.crc, old(files.target)).Some? ==> files.target == old(files.target)
    ensures document.None? ==> session == null && file.bytes == old(file.bytes)
    ensures document.Some? ==> OpenedFrom(session, crc, document.value, old(file.bytes), file, ends.journal) == true
    ensures session != null ==> fresh(session) && fresh(session.journal) && fresh(session.controller)
    ensures session != null && session.State() == live && Sane(live, h) && Holds(crc, file.bytes, h.log) ==>
      session.Valid() && session.history == h
  {
    document := LoadDocument(files, ends.load, ends.removed);
    if document.None? {
      return null, document;
    }
    session := CreateFromDocument(crc, document.value, file, ends.journal, document.value.revision, live, h);
  }

  /** Opening `d` with a journal that held `bytes` before. */
  ghost predicate OpenedFrom(session: JournaledSession?, crc: Checksum, d: SessionDocument, bytes: seq<byte>,
    file: DiskFile, end: ReplaceEnd)
    reads session, if session == null then {} else {session.controller}, file
  {
    && file.bytes == OpenedJournal(crc, bytes, d, end)
    && (session != null <==>
          Editable(d) && (Commands(crc, bytes) == [] ==> end.Replaced?) && Restored(crc, file.bytes, d).Some?)
    && (session != null ==>
          && Opened(session, crc, file, d.revision)
          && Restored(crc, file.bytes, d) == Some(Rebuilt(session.State(), session.checkpointRevision)))
  }

  // ----- from one life to the next

  /** The state of the next life: the live one, or with the attempted action if its record reached the disk. */
  function Woken(m: Seen, survived: bool): Live {
    if survived && m.attempt.Some? then m.attempt.value else m.live
  }

  /** The session that opening the durable snapshot with the file gives. */
  lemma Expected(s: JournaledSession, captured: SessionDocument, durable: SessionDocument)
    returns (live: Live, h: Chronicle, survived: bool)
    requires Steady(s, captured, durable)
    ensures Sane(live, h) && Holds(s.crc, s.file.bytes, h.log) && Commands(s.crc, s.file.bytes) != []
    ensures Restored(s.crc, s.file.bytes, durable) == Some(Rebuilt(live, h.baseline)) && Openable(durable)
    ensures live == Woken(Observed(s), survived) && Kept(live, h) == true
      && BothAnchored(live, h, durable, durable) == true
  {
    live, h, survived := s.State(), s.history, false;
    if !Holds(s.crc, s.file.bytes, s.history.log) {
      live, h, survived := s.attempt, s.attemptHistory, true;
    }
    RecoveryIsExact(s.crc, s.file.bytes, live, h, durable.revision);
    Facts(live, h);
  }

  /** Opens the bytes a life left behind, which must give `live`. */
  method OpenBytes(crc: Checksum, target: Option<seq<byte>>, staging: Option<seq<byte>>, bytes: seq<byte>,
    ends: OpenEnds, ghost durable: SessionDocument, ghost live: Live, ghost h: Chronicle)
    returns (session: JournaledSession?, files: ProjectFiles, document: SessionDocument)
    requires Openable(durable) && IsSnapshot(crc, target, durable)
    requires Sane(live, h) && Holds(crc, bytes, h.log) && Commands(crc, bytes) != []
    requires Restored(crc, bytes, durable) == Some(Rebuilt(live, h.baseline))
    ensures session != null && fresh(session) && fresh(session.journal) && fresh(session.file) && fresh(files)
    ensures session.Valid() && !session.requiresReopen && session.State() == live && session.history == h
      && session.crc == crc
    ensures files.crc == crc && files.target == target && document == durable
  {
    files := new ProjectFiles(crc, target, staging);
    var file := new DiskFile(bytes);
    OpenableIsEditable(durable);
    SnapshotIsReadable(crc, target, durable);
    var found;
    session, found := OpenProject(crc, files, file, ends, live, h);
    SnapshotIsFound(crc, target, staging, ends.load, durable, found);
    document := found.value;
  }

  /** After any life the project opens again from the bytes of its three files, ready for the next one. */
  method Reopen(s: JournaledSession, files: ProjectFiles, ends: OpenEnds, ghost captured: SessionDocument,
    ghost durable: SessionDocument)
    returns (again: JournaledSession, next: ProjectFiles, document: SessionDocument, ghost survived: bool)
    requires Steady(s, captured, durable) && OnFile(files, durable) && files.crc == s.crc
    ensures fresh(again) && fresh(again.journal) && fresh(again.file) && fresh(next)
    ensures document == durable && Steady(again, document, document) == true && OnFile(next, document) == true
      && next.crc == again.crc
    ensures Observed(again) == Seen(Woken(Observed(s), survived), None)
  {
    ghost var live, h;
    live, h, survived := Expected(s, captured, durable);
    again, next, document := OpenBytes(s.crc, files.target, files.staging, s.file.bytes, ends, durable, live, h);
    IsSteady(again, live, h, document);
  }

  lemma IsSteady(s: JournaledSession, live: Live, h: Chronicle, durable: SessionDocument)
    requires s.Valid() == true && !s.requiresReopen && s.State() == live && s.history == h
    requires Kept(live, h) == true && BothAnchored(live, h, durable, durable) == true
    ensures Steady(s, durable, durable) == true && Observed(s) == Seen(live, None)
  {}

  /** One life and the opening after it: nothing acknowledged is lost. */
  method DriveAndReopen(s: JournaledSession, files: ProjectFiles, calls: seq<Call>, start: SessionDocument,
    ends: OpenEnds)
    returns (again: JournaledSession, next: ProjectFiles, document: SessionDocument, ghost survived: bool)
    requires CallsOffered(calls) == true
    requires Steady(s, start, start) == true && OnFile(files, start) == true && files.crc == s.crc
    modifies s, s.journal, s.file, files
    ensures fresh(again) && fresh(again.journal) && fresh(again.file) && fresh(next)
    ensures (Steady(again, document, document) && OnFile(next, document)) == true && next.crc == again.crc
      && !again.requiresReopen
    ensures Observed(again) == Seen(Woken(AfterCalls(old(Observed(s)), calls), survived), None)
  {
    ghost var durable;
    var captured;
    durable, captured := Drive(s, files, calls, start);
    again, next, document, survived := Reopen(s, files, ends, captured, durable);
  }

  /** A life: its calls, and how the opening after it fares. */
  datatype Life = Life(calls: seq<Call>, reopening: OpenEnds)

  /** The live state after a list of lives: all acknowledged actions of each, and at its end the one attempted
      action if it survived. */
  ghost function AfterLives(live: Live, lives: seq<Life>, survived: seq<bool>): Live
    requires |lives| == |survived|
    decreases |lives|
  {
    if lives == [] then live
    else AfterLives(Woken(AfterCalls(Seen(live, None), lives[0].calls), survived[0]), lives[1..], survived[1..])
  }

  ghost predicate AllOffered(lives: seq<Life>) {
    forall i :: 0 <= i < |lives| ==> CallsOffered(lives[i].calls)
  }

  ghost predicate CallsOffered(calls: seq<Call>) {
    forall k :: 0 <= k < |calls| ==> Offered(calls[k])
  }

  lemma OfferedLater(lives: seq<Life>)
    requires AllOffered(lives) == true && lives != []
    ensures AllOffered(lives[1..]) == true && CallsOffered(lives[0].calls) == true
  {}

  /** A project is open: its session works, in the given state, and could be recovered; its snapshot is the document. */
  ghost predicate IsOpen(s: JournaledSession, files: ProjectFiles, document: SessionDocument, live: Live)
    reads s, s.controller, s.journal, s.file, files
  {
    && Steady(s, document, document) && OnFile(files, document) && files.crc == s.crc
    && !s.requiresReopen && s.State() == live
  }

  lemma OpenMeans(s: JournaledSession, files: ProjectFiles, document: SessionDocument, live: Live)
    requires IsOpen(s, files, document, live) == true
    ensures Steady(s, document, document) == true && OnFile(files, document) == true && files.crc == s.crc
    ensures Observed(s) == Seen(live, None)
  {}

  /** One life and the opening after it. */
  method LiveOnce(s: JournaledSession, files: ProjectFiles, life: Life, start: SessionDocument, ghost live: Live)
    returns (again: JournaledSession, next: ProjectFiles, document: SessionDocument, ghost survived: bool,
      ghost now: Live)
    requires CallsOffered(life.calls) == true && IsOpen(s, files, start, live) == true
    modifies s, s.journal, s.file, files
    ensures fresh(again) && fresh(again.journal) && fresh(again.file) && fresh(next)
    ensures now == Woken(AfterCalls(Seen(live, None), life.calls), survived)
      && IsOpen(again, next, document, now) == true
  {
    OpenMeans(s, files, start, live);
    again, next, document, survived := DriveAndReopen(s, files, life.calls, start, life.reopening);
    now := again.State();
  }

  /** However many lives a project has and however each of them ends, every acknowledged action survives all of
      them, in order, with both history stacks; nothing else is added but at most the last attempted action of a
      life that ended in a failed append. */
  method Lifetimes(s: JournaledSession, files: ProjectFiles, lives: seq<Life>, start: SessionDocument, ghost live: Live)
    returns (last: JournaledSession, lastFiles: ProjectFiles, document: SessionDocument, ghost survived: seq<bool>,
      ghost now: Live)
    requires AllOffered(lives) == true && IsOpen(s, files, start, live) == true
    modifies s, s.journal, s.file, files
    ensures |survived| == |lives| && now == AfterLives(live, lives, survived)
      && IsOpen(last, lastFiles, document, now) == true
    decreases |lives|
  {
    if lives == [] {
      return s, files, start, [], live;
    }
    OfferedLater(lives);
    var again, next, loaded;
    ghost var first, rest, woken;
    again, next, loaded, first, woken := LiveOnce(s, files, lives[0], start, live);
    last, lastFiles, document, rest, now := Lifetimes(again, next, lives[1..], loaded, woken);
    survived := [first] + rest;
    OneLifeMore(live, lives, first, rest);
  }

  lemma OneLifeMore(live: Live, lives: seq<Life>, first: bool, rest: seq<bool>)
    requires lives != [] && |lives| == |rest| + 1
    ensures AfterLives(live, lives, [first] + rest)
      == AfterLives(Woken(AfterCalls(Seen(live, None), lives[0].calls), first), lives[1..], rest)
  {
    assert ([first] + rest)[1..] == rest;
  }

  /** Lives can start: opening a saved document with tidy names on an empty journal. */
  method OpenNew(files: ProjectFiles, d: SessionDocument, file: DiskFile) returns (s: JournaledSession?)
    requires Editable(d) && TidyNames(d) && OnFile(files, d) == true && Commands(files.crc, file.bytes) == []
    modifies file
    ensures s != null && fresh(s) && IsOpen(s, files, d, Live(d, [], [])) == true
  {
    FreshIsKept(d);
    NewJournalHolds(files.crc, d);
    s := CreateFromDocument(files.crc, d, file, Replaced, d.revision, Live(d, [], []), Fresh(d));
    assert files.target == old(files.target);
    BecomesOpen(s, files, Live(d, [], []), Fresh(d), d);
  }

  lemma BecomesOpen(s: JournaledSession, files: ProjectFiles, live: Live, h: Chronicle, d: SessionDocument)
    requires s.Valid() == true && !s.requiresReopen && s.State() == live && s.history == h && s.crc == files.crc
    requires Kept(live, h) == true && BothAnchored(live, h, d, d) == true && OnFile(files, d) == true
    ensures IsOpen(s, files, d, live) == true
  {
    IsSteady(s, live, h, d);
  }

  lemma FreshIsKept(d: SessionDocument)
    requires Editable(d) && TidyNames(d)
    ensures var live, h := Live(d, [], []), Fresh(d);
      Sane(live, h) && Kept(live, h) == true && BothAnchored(live, h, d, d) == true
  {
    FreshIsSane(d);
    EditableIsOpenable(d);
  }
}
