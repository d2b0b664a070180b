/** Undo and redo are exact inverses on content. */
module UndoRedo {
  import opened SessionDocuments
  import opened SessionEditing
  import opened SessionHistory

  /** The commands of an entry lead from one content to another and back. */
  ghost predicate Inverts(before: SessionDocument, e: HistoryEntry, after: SessionDocument) {
    && StatusOn(before, e.forward) == Applied && Content(ChangedBy(before, e.forward)) == Content(after)
    && StatusOn(after, e.inverse) == Applied && Content(ChangedBy(after, e.inverse)) == Content(before)
  }

  /** `trail` lists the contents the undo stack leads back through; it ends at the present content. */
  ghost predicate Trail(stack: seq<HistoryEntry>, trail: seq<SessionDocument>) {
    |trail| == |stack| + 1 && forall k :: 0 <= k < |stack| ==> Inverts(trail[k], stack[k], trail[k + 1])
  }

  /** Undoing walks back through exactly `past` and redoing forward through exactly `future`. */
  ghost predicate Exact(live: Live, past: seq<SessionDocument>, future: seq<SessionDocument>) {
    && Trail(live.undo, past) && Content(past[|live.undo|]) == Content(live.document)
    && |future| == |live.redo| + 1 && Content(future[|live.redo|]) == Content(live.document)
    && (forall k :: 0 <= k < |live.redo| ==> Inverts(future[k + 1], live.redo[k], future[k]))
  }

  // ----- commands depend on the content only

  lemma ContentDecides(a: SessionDocument, b: SessionDocument, c: SessionCommand)
    requires Content(a) == Content(b)
    ensures StatusOn(a, c) == StatusOn(b, c)
    ensures StatusOn(a, c) == Applied ==> Content(ChangedBy(a, c)) == Content(ChangedBy(b, c))
  {
    assert a.tracks == b.tracks && a.clips == b.clips && a.routes == b.routes
      && a.automationLanes == b.automationLanes && a.plugins == b.plugins;
  }

  lemma InvertsDependsOnContent(a: SessionDocument, b: SessionDocument, e: HistoryEntry, c: SessionDocument,
    d: SessionDocument)
    requires Content(a) == Content(c) && Content(b) == Content(d)
    ensures Inverts(a, e, b) <==> Inverts(c, e, d)
  {
    ContentDecides(a, c, e.forward);
    ContentDecides(b, d, e.inverse);
  }

  // ----- what the inverse of an edit restores

  /** The name an edit replaces could itself have been typed in an edit. */
  predicate OldNameEditable(d: SessionDocument, c: SessionCommand)
    requires StatusOn(d, c) == Applied
  {
    c.kind == RenameTrack ==> EditableName(d.tracks[TrackIndex(d.tracks, c.entityId)].name)
  }

  lemma NewTrackIsLast(d: SessionDocument, c: SessionCommand)
    requires StatusOn(d, c) == Applied && c.kind == AddTrack
    ensures TrackIndex(ChangedBy(d, c).tracks, c.entityId) == |d.tracks|
  {
    var tracks := ChangedBy(d, c).tracks;
    var i := TrackIndex(tracks, c.entityId);
    assert forall k :: 0 <= k < |d.tracks| ==> tracks[k] == d.tracks[k] && d.tracks[k].stableId != c.entityId;
    assert tracks[|d.tracks|].stableId == c.entityId;
  }

  lemma RenamedTrackStays(d: SessionDocument, c: SessionCommand)
    requires StatusOn(d, c) == Applied && c.kind == RenameTrack
    ensures TrackIndex(ChangedBy(d, c).tracks, c.entityId) == TrackIndex(d.tracks, c.entityId)
  {
    var i, j := TrackIndex(d.tracks, c.entityId), TrackIndex(ChangedBy(d, c).tracks, c.entityId);
    var after := ChangedBy(d, c).tracks;
    assert after[i].stableId == c.entityId;
    assert forall k :: 0 <= k < i ==> after[k] == d.tracks[k];
  }

  /** An edit on a valid document is undone exactly by its inverse if and only if the name it replaced is one
      an edit accepts (1 to 1024 bytes); for tempo changes and new tracks always. */
  lemma InverseUndoesEdit(d: SessionDocument, c: SessionCommand)
    requires ValidDocument(d) && StatusOn(d, c) == Applied && c.kind != RemoveTrack
    ensures Inverts(d, HistoryEntry(c, InverseOf(d, c)), ChangedBy(d, c)) <==> OldNameEditable(d, c)
    ensures !OldNameEditable(d, c) ==> StatusOn(ChangedBy(d, c), InverseOf(d, c)) == InvalidArgument
  {
    var after, inverse := ChangedBy(d, c), InverseOf(d, c);
    match c.kind {
      case SetTempo =>
      case AddTrack =>
        NewTrackIsLast(d, c);
        NewTrackIsUnreferenced(d, c.entityId);
        assert ChangedBy(after, inverse).tracks == d.tracks;
      case RenameTrack =>
        RenamedTrackStays(d, c);
        var i := TrackIndex(d.tracks, c.entityId);
        if EditableName(d.tracks[i].name) {
          assert ChangedBy(after, inverse).tracks == d.tracks;
        }
    }
  }

  /** In a valid document nothing refers to a track that is not there. */
  lemma NewTrackIsUnreferenced(d: SessionDocument, id: u64)
    requires ValidDocument(d) && !HasTrack(d, id)
    ensures !Referenced(d, id)
  {
    assert id !in TrackIds(d) by {
      forall t | t in d.tracks ensures t.stableId != id {
        var k :| 0 <= k < |d.tracks| && d.tracks[k] == t;
      }
    }
    forall k | 0 <= k < |d.clips| ensures d.clips[k].trackId != id {
      assert ValidClip(d.clips[k], TrackIds(d), SourceIds(d));
    }
    forall k | 0 <= k < |d.routes| ensures d.routes[k].sourceTrackId != id && d.routes[k].destinationTrackId != id {
      assert ValidRoute(d.routes[k], TrackIds(d));
    }
    forall k | 0 <= k < |d.automationLanes| ensures d.automationLanes[k].targetTrackId != id {
      assert ValidLane(d.automationLanes[k], TrackIds(d));
    }
    forall k | 0 <= k < |d.plugins| ensures d.plugins[k].targetTrackId != id {
      assert ValidPlugin(d.plugins[k], TrackIds(d));
    }
  }

  // ----- histories

  /** Nothing to undo or redo. */
  lemma FreshIsExact(d: SessionDocument)
    ensures Exact(Live(d, [], []), [d], [d])
  {}

  /** An edit extends the past and drops the future. */
  lemma EditKeepsExact(live: Live, c: SessionCommand, past: seq<SessionDocument>, future: seq<SessionDocument>)
    requires Exact(live, past, future) && ValidDocument(live.document)
    requires ApplyStatus(live.document, c) == Applied && c.kind != RemoveTrack && OldNameEditable(live.document, c)
    ensures var after := Act(live, Edit, HistoryEntry(c, InverseOf(live.document, c)));
            Exact(after, past + [after.document], [after.document])
  {
    var e := HistoryEntry(c, InverseOf(live.document, c));
    var after := Act(live, Edit, e);
    InverseUndoesEdit(live.document, c);
    InvertsDependsOnContent(live.document, ChangedBy(live.document, c), e, past[|live.undo|], after.document);
  }

  /** On an exact history, below the last revision, undo always applies; it brings back the previous content
      and leaves an exact history. */
  lemma UndoIsExact(live: Live, past: seq<SessionDocument>, future: seq<SessionDocument>)
    requires Exact(live, past, future) && live.undo != [] && live.document.revision < U64_MAX
    ensures ApplyStatus(live.document, Top(live.undo).inverse) == Applied
    ensures Content(Act(live, Undo, Top(live.undo)).document) == Content(past[|live.undo| - 1])
    ensures Exact(Act(live, Undo, Top(live.undo)), past[..|past| - 1], future + [past[|live.undo| - 1]])
  {
    var n := |live.undo|;
    var e := Top(live.undo);
    assert Inverts(past[n - 1], e, past[n]);
    ContentDecides(past[n], live.document, e.inverse);
    var after := Act(live, Undo, e);
    InvertsDependsOnContent(past[n - 1], past[n], e, past[n - 1], future[|live.redo|]);
    var shorter, longer := past[..|past| - 1], future + [past[n - 1]];
    forall k | 0 <= k < |after.redo| ensures Inverts(longer[k + 1], after.redo[k], longer[k]) {
      if k < |live.redo| { assert after.redo[k] == live.redo[k]; }
    }
    forall k | 0 <= k < |after.undo| ensures Inverts(shorter[k], after.undo[k], shorter[k + 1]) {
      assert Inverts(past[k], live.undo[k], past[k + 1]);
    }
  }

  /** Redo likewise walks forward again. */
  lemma RedoIsExact(live: Live, past: seq<SessionDocument>, future: seq<SessionDocument>)
    requires Exact(live, past, future) && live.redo != [] && live.document.revision < U64_MAX
    ensures ApplyStatus(live.document, Top(live.redo).forward) == Applied
    ensures Content(Act(live, Redo, Top(live.redo)).document) == Content(future[|live.redo| - 1])
    ensures Exact(Act(live, Redo, Top(live.redo)), past + [future[|live.redo| - 1]], future[..|future| - 1])
  {
    var n := |live.redo|;
    var e := Top(live.redo);
    assert Inverts(future[n], e, future[n - 1]);
    ContentDecides(future[n], live.document, e.forward);
    var after := Act(live, Redo, e);
    InvertsDependsOnContent(future[n], future[n - 1], e, past[|live.undo|], future[n - 1]);
    var longer, shorter := past + [future[n - 1]], future[..|future| - 1];
    forall k | 0 <= k < |after.undo| ensures Inverts(longer[k], after.undo[k], longer[k + 1]) {
      if k < |live.undo| { assert Inverts(past[k], live.undo[k], past[k + 1]); }
    }
    forall k | 0 <= k < |after.redo| ensures Inverts(shorter[k + 1], after.redo[k], shorter[k]) {
      assert Inverts(future[k + 1], live.redo[k], future[k]);
    }
  }

  /** Undo then redo restores the content and the two stacks; only the revision moves. */
  lemma UndoThenRedo(live: Live, past: seq<SessionDocument>, future: seq<SessionDocument>)
    requires Exact(live, past, future) && live.undo != [] && live.document.revision + 1 < U64_MAX
    ensures ApplyStatus(live.document, Top(live.undo).inverse) == Applied
    ensures var undone := Act(live, Undo, Top(live.undo));
      && undone.redo != [] && ApplyStatus(undone.document, Top(undone.redo).forward) == Applied
      && var again := Act(undone, Redo, Top(undone.redo));
         Content(again.document) == Content(live.document) && again.undo == live.undo && again.redo == live.redo
         && again.document.revision == live.document.revision + 2
  {
    UndoIsExact(live, past, future);
    var undone := Act(live, Undo, Top(live.undo));
    RedoIsExact(undone, past[..|past| - 1], future + [past[|live.undo| - 1]]);
    assert Inverts(past[|live.undo| - 1], Top(live.undo), past[|live.undo|]);
    ContentDecides(past[|live.undo| - 1], undone.document, Top(live.undo).forward);
  }

  /** And so does redo then undo. */
  lemma RedoThenUndo(live: Live, past: seq<SessionDocument>, future: seq<SessionDocument>)
    requires Exact(live, past, future) && live.redo != [] && live.document.revision + 1 < U64_MAX
    ensures ApplyStatus(live.document, Top(live.redo).forward) == Applied
    ensures var redone := Act(live, Redo, Top(live.redo));
      && redone.undo != [] && ApplyStatus(redone.document, Top(redone.undo).inverse) == Applied
      && var again := Act(redone, Undo, Top(redone.undo));
         Content(again.document) == Content(live.document) && again.undo == live.undo && again.redo == live.redo
         && again.document.revision == live.document.revision + 2
  {
    RedoIsExact(live, past, future);
    var redone := Act(live, Redo, Top(live.redo));
    UndoIsExact(redone, past + [future[|live.redo| - 1]], future[..|future| - 1]);
  }

  /** A valid document with a single, unnamed track. */
  function UnnamedTrack(): SessionDocument {
    SessionDocument(1, 48_000, 0x405E_0000_0000_0000, [Track(1, 5, ONE, 0, [])], [], [], [], [], [], [],
      DeviceConfiguration(1, 0, 0, 0, 0, [], []))
  }

  /** Documents allow an empty track name, edits do not: renaming such a track is accepted, and undoing the
      rename is then refused. */
  lemma RenamingAnUnnamedTrackCannotBeUndone()
    ensures var d, c := UnnamedTrack(), BLANK.(kind := RenameTrack, entityId := 1, name := [65]);
      && ValidDocument(d) && StatusOn(d, c) == Applied && StatusOn(ChangedBy(d, c), InverseOf(d, c)) == InvalidArgument
  {
    var d := UnnamedTrack();
    assert TrackIndex(d.tracks, 1) == 0;
    assert StableIds(d) == [1];
  }
}
