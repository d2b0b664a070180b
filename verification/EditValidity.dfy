/** What edits do to the validity of a document. */
module EditValidity {
  import opened Ordered
  import opened SessionDocuments
  import opened Validation
  import opened SessionEditing

  lemma IdsAreNew(d: SessionDocument)
    ensures UniqueIds(d) <==> NewIds(IdsOfTracks(d.tracks), {}) && NewIds(OtherIds(d), Elements(IdsOfTracks(d.tracks)))
    ensures Elements(StableIds(d)) == Elements(IdsOfTracks(d.tracks)) + Elements(OtherIds(d))
  {
    NewIdsConcat(IdsOfTracks(d.tracks), OtherIds(d), {});
    assert UniqueIds(d) <==> NewIds(StableIds(d), {});
  }

  lemma TrackIdsAreElements(d: SessionDocument)
    ensures TrackIds(d) == Elements(IdsOfTracks(d.tracks))
  {
    var ids := IdsOfTracks(d.tracks);
    forall t | t in d.tracks ensures t.stableId in ids {
      var k :| 0 <= k < |d.tracks| && d.tracks[k] == t;
      assert ids[k] == t.stableId;
    }
    forall id | id in ids ensures id in TrackIds(d) {
      var k :| 0 <= k < |ids| && ids[k] == id;
      assert d.tracks[k] in d.tracks;
    }
  }

  // ----- one edit

  lemma MoreTracksKeepReferences(d: SessionDocument, e: SessionDocument)
    requires ValidReferences(d, TrackIds(d), SourceIds(d)) && TrackIds(d) <= TrackIds(e)
    requires d.clips == e.clips && d.routes == e.routes && d.automationLanes == e.automationLanes
      && d.plugins == e.plugins
      && d.mediaSources == e.mediaSources && d.midiSequences == e.midiSequences
    ensures ValidReferences(e, TrackIds(e), SourceIds(e))
  {
    forall k | 0 <= k < |e.clips|
      ensures ValidClip(e.clips[k], TrackIds(e), SourceIds(e))
    {
      assert ValidClip(d.clips[k], TrackIds(d), SourceIds(d));
    }
    forall k | 0 <= k < |e.routes|
      ensures ValidRoute(e.routes[k], TrackIds(e))
    {
      assert ValidRoute(d.routes[k], TrackIds(d));
    }
    forall k | 0 <= k < |e.automationLanes|
      ensures ValidLane(e.automationLanes[k], TrackIds(e))
    {
      assert ValidLane(d.automationLanes[k], TrackIds(d));
    }
    forall k | 0 <= k < |e.plugins|
      ensures ValidPlugin(e.plugins[k], TrackIds(e))
    {
      assert ValidPlugin(d.plugins[k], TrackIds(d));
    }
  }

  ghost predicate ValidTracks(d: SessionDocument) {
    forall k :: 0 <= k < |d.tracks| ==> ValidTrack(d.tracks[k])
  }

  lemma EntitiesStayValid(d: SessionDocument, e: SessionDocument)
    requires (ValidEntities(d) && ValidTracks(e)) == true && TrackIds(d) <= TrackIds(e)
    requires d.clips == e.clips && d.routes == e.routes && d.automationLanes == e.automationLanes
      && d.plugins == e.plugins
      && d.mediaSources == e.mediaSources && d.midiSequences == e.midiSequences && d.device == e.device
    ensures ValidEntities(e) == true
  {
    MoreTracksKeepReferences(d, e);
  }

  lemma AddedTracksAreValid(d: SessionDocument, e: SessionDocument, t: Track)
    requires (ValidTracks(d) && ValidTrack(t)) == true && e.tracks == d.tracks + [t]
    ensures ValidTracks(e) == true
  {
    forall k | 0 <= k < |e.tracks| ensures ValidTrack(e.tracks[k]) {
      if k < |d.tracks| { assert e.tracks[k] == d.tracks[k]; }
    }
  }

  lemma AddedTrackIds(d: SessionDocument, e: SessionDocument, t: Track)
    requires e.tracks == d.tracks + [t] && OtherIds(e) == OtherIds(d)
    requires UniqueIds(d) == true && t.stableId != 0 && t.stableId !in StableIds(d)
    ensures UniqueIds(e) == true && TrackIds(e) == TrackIds(d) + {t.stableId}
    ensures Elements(StableIds(e)) == Elements(StableIds(d)) + {t.stableId}
  {
    var ids, more := IdsOfTracks(d.tracks), IdsOfTracks(e.tracks);
    assert more == ids + [t.stableId];
    NewIdsConcat(ids, [t.stableId], {});
    IdsAreNew(d);
    IdsAreNew(e);
    assert t.stableId !in Elements(StableIds(d));
    TrackIdsAreElements(d);
    TrackIdsAreElements(e);
  }

  lemma LargestBelowMaximum(a: seq<u64>, b: seq<u64>, id: u64)
    requires Largest(a) < U64_MAX && id < U64_MAX && Elements(b) <= Elements(a) + {id}
    ensures Largest(b) < U64_MAX
  {
    LargestBounds(a);
    LargestBounds(b);
    if Largest(b) != 0 {
      assert Largest(b) in Elements(b);
    }
  }

  lemma AddKeepsEditable(d: SessionDocument, c: SessionCommand)
    requires Editable(d) == true && c.kind == AddTrack && ApplyStatus(d, c) == Applied && c.entityId !in StableIds(d)
    ensures Editable(Apply(d, c)) == (|d.tracks| < MAXIMUM_TRACK_COUNT)
  {
    TrackAdded(d, Apply(d, c), Track(c.entityId, c.trackType, ONE, c.color, c.name));
  }

  /** Everything but the tracks, the tempo and the revision is the same. */
  predicate SameRest(d: SessionDocument, e: SessionDocument) {
    && d.clips == e.clips && d.routes == e.routes && d.automationLanes == e.automationLanes && d.plugins == e.plugins
    && d.mediaSources == e.mediaSources && d.midiSequences == e.midiSequences && d.device == e.device
    && d.sampleRate == e.sampleRate
  }

  lemma TrackAdded(d: SessionDocument, e: SessionDocument, t: Track)
    requires Editable(d) == true && SameRest(d, e) && e.tempo == d.tempo && e.revision != 0
    requires e.tracks == d.tracks + [t] && ValidTrack(t) && 0 < t.stableId < U64_MAX && t.stableId !in StableIds(d)
    ensures Editable(e) == (|d.tracks| < MAXIMUM_TRACK_COUNT)
  {
    AddedTrackIds(d, e, t);
    AddedTracksAreValid(d, e, t);
    EntitiesStayValid(d, e);
    LargestBelowMaximum(StableIds(d), StableIds(e), t.stableId);
    StaysEditable(d, e);
  }

  /** What decides about the edited document: its limits. */
  lemma StaysEditable(d: SessionDocument, e: SessionDocument)
    requires Editable(d) == true && e.revision != 0 && e.sampleRate == d.sampleRate && ValidTempo(e.tempo)
    requires (UniqueIds(e) && ValidEntities(e)) == true && Largest(StableIds(e)) < U64_MAX
    ensures Editable(e) == WithinLimits(e)
  {}

  lemma RenameKeepsEditable(d: SessionDocument, c: SessionCommand)
    requires Editable(d) == true && c.kind == RenameTrack && ApplyStatus(d, c) == Applied
    ensures Editable(Apply(d, c)) == true
  {
    RenamedTracks(d, c);
    TracksRenamed(d, Apply(d, c));
  }

  lemma TracksRenamed(d: SessionDocument, e: SessionDocument)
    requires Editable(d) == true && SameRest(d, e) && e.tempo == d.tempo && e.revision != 0
    requires ValidTracks(e) == true && IdsOfTracks(e.tracks) == IdsOfTracks(d.tracks)
    ensures Editable(e) == true
  {
    assert |e.tracks| == |IdsOfTracks(e.tracks)| == |d.tracks|;
    SameIds(d, e);
    EntitiesStayValid(d, e);
    StaysEditable(d, e);
  }

  lemma SameIds(d: SessionDocument, e: SessionDocument)
    requires IdsOfTracks(e.tracks) == IdsOfTracks(d.tracks) && OtherIds(e) == OtherIds(d)
    ensures StableIds(e) == StableIds(d) && TrackIds(e) == TrackIds(d)
  {
    TrackIdsAreElements(d);
    TrackIdsAreElements(e);
  }

  lemma RenamedTracks(d: SessionDocument, c: SessionCommand)
    requires ValidTracks(d) == true && c.kind == RenameTrack && ApplyStatus(d, c) == Applied
    ensures ValidTracks(Apply(d, c)) == true && IdsOfTracks(Apply(d, c).tracks) == IdsOfTracks(d.tracks)
  {}

  lemma TempoKeepsEditable(d: SessionDocument, c: SessionCommand)
    requires Editable(d) == true && c.kind == SetTempo && ApplyStatus(d, c) == Applied
    ensures Editable(Apply(d, c)) == true
  {
    var e := Apply(d, c);
    SameIds(d, e);
    EntitiesStayValid(d, e);
    StaysEditable(d, e);
  }

  /** A new track under the identity of something that is not a track is accepted, and makes the document invalid. */
  lemma AddCollides(d: SessionDocument, c: SessionCommand)
    requires c.kind == AddTrack && ApplyStatus(d, c) == Applied && c.entityId in StableIds(d)
    ensures !UniqueIds(Apply(d, c))
  {
    var ids, others, more := IdsOfTracks(d.tracks), OtherIds(d), StableIds(Apply(d, c));
    forall k | 0 <= k < |ids| ensures ids[k] != c.entityId { assert ids[k] == d.tracks[k].stableId; }
    var j :| 0 <= j < |others| && others[j] == c.entityId;
    assert IdsOfTracks(Apply(d, c).tracks) == ids + [c.entityId] && OtherIds(Apply(d, c)) == others;
    assert more[|ids|] == more[|ids| + 1 + j] == c.entityId;
  }

  /** A track that nothing refers to can go. */
  lemma RemoveKeepsEditable(d: SessionDocument, c: SessionCommand)
    requires Editable(d) == true && c.kind == RemoveTrack && ApplyStatus(d, c) == Applied
    ensures Editable(Apply(d, c)) == true
  {
    var e, i := Apply(d, c), TrackIndex(d.tracks, c.entityId);
    RemovedIds(d, e, i);
    LargestBounds(StableIds(d));
    assert c.entityId in StableIds(d) by { assert StableIds(d)[i] == c.entityId; }
    LargestBelowMaximum(StableIds(d), StableIds(e), c.entityId);
    RemovedReferences(d, e, i);
    StaysEditable(d, e);
    assert WithinLimits(e);
  }

  lemma RemovedIds(d: SessionDocument, e: SessionDocument, i: nat)
    requires UniqueIds(d) == true && i < |d.tracks| && e.tracks == d.tracks[..i] + d.tracks[i + 1..]
      && OtherIds(e) == OtherIds(d)
    ensures UniqueIds(e) == true && Elements(StableIds(e)) <= Elements(StableIds(d))
  {
    var ids, fewer := StableIds(d), StableIds(e);
    assert |fewer| == |ids| - 1;
    forall k | 0 <= k < |fewer| ensures fewer[k] == ids[if k < i then k else k + 1] {}
  }

  lemma RemovedReferences(d: SessionDocument, e: SessionDocument, i: nat)
    requires ValidEntities(d) == true && i < |d.tracks| && e.tracks == d.tracks[..i] + d.tracks[i + 1..]
    requires d.clips == e.clips && d.routes == e.routes && d.automationLanes == e.automationLanes
      && d.plugins == e.plugins
    requires d.mediaSources == e.mediaSources && d.midiSequences == e.midiSequences && d.device == e.device
    requires !Referenced(d, d.tracks[i].stableId)
    ensures ValidEntities(e) == true
  {
    forall id | id in TrackIds(d) && id != d.tracks[i].stableId ensures id in TrackIds(e) {
      var k :| 0 <= k < |d.tracks| && d.tracks[k].stableId == id;
      assert e.tracks[if k < i then k else k - 1] == d.tracks[k];
    }
    forall k | 0 <= k < |e.tracks|
      ensures ValidTrack(e.tracks[k])
    {
      assert e.tracks[k] == d.tracks[if k < i then k else k + 1];
    }
    UnreferencedTrack(d, e, d.tracks[i].stableId);
  }

  lemma UnreferencedTrack(d: SessionDocument, e: SessionDocument, id: u64)
    requires ValidReferences(d, TrackIds(d), SourceIds(d)) == true && !Referenced(d, id)
    requires forall other :: other in TrackIds(d) && other != id ==> other in TrackIds(e)
    requires d.clips == e.clips && d.routes == e.routes && d.automationLanes == e.automationLanes
      && d.plugins == e.plugins
    requires d.mediaSources == e.mediaSources && d.midiSequences == e.midiSequences
    ensures ValidReferences(e, TrackIds(e), SourceIds(e)) == true
  {
    forall k | 0 <= k < |e.clips| ensures ValidClip(e.clips[k], TrackIds(e), SourceIds(e)) {
      assert ValidClip(d.clips[k], TrackIds(d), SourceIds(d));
    }
    forall k | 0 <= k < |e.routes|
      ensures ValidRoute(e.routes[k], TrackIds(e))
    {
      assert ValidRoute(d.routes[k], TrackIds(d));
    }
    forall k | 0 <= k < |e.automationLanes| ensures ValidLane(e.automationLanes[k], TrackIds(e)) {
      assert ValidLane(d.automationLanes[k], TrackIds(d));
    }
    forall k | 0 <= k < |e.plugins|
      ensures ValidPlugin(e.plugins[k], TrackIds(e))
    {
      assert ValidPlugin(d.plugins[k], TrackIds(d));
    }
  }

  /** An edit of an editable document leads to an editable one if and only if it does not add a track beyond the
      limit of 100000 or under the identity of something that is not a track: neither is checked, and the document
      can then not be opened again. */
  lemma EditKeepsEditable(d: SessionDocument, c: SessionCommand)
    requires Editable(d) == true && ApplyStatus(d, c) == Applied
    ensures Editable(Apply(d, c)) <==>
      (c.kind == AddTrack ==> |d.tracks| < MAXIMUM_TRACK_COUNT && c.entityId !in StableIds(d))
  {
    match c.kind {
      case SetTempo => TempoKeepsEditable(d, c);
      case AddTrack => if c.entityId in StableIds(d) { AddCollides(d, c); } else { AddKeepsEditable(d, c); }
      case RenameTrack => RenameKeepsEditable(d, c);
      case RemoveTrack => RemoveKeepsEditable(d, c);
    }
  }

  /** The identity given to a new track is not in use. */
  lemma NextIdIsNew(d: SessionDocument)
    requires Editable(d)
    ensures Largest(StableIds(d)) + 1 !in StableIds(d)
  {
    LargestBounds(StableIds(d));
  }

  /** Validity does not depend on the revision, as long as there is one. */
  lemma EditableContent(a: SessionDocument, b: SessionDocument)
    requires Content(a) == Content(b) && a.revision != 0 && b.revision != 0
    ensures Editable(a) <==> Editable(b)
  {
    assert a == b.(revision := a.revision);
    if Editable(a) { SameContentSameValidity(a, b); }
    if Editable(b) { SameContentSameValidity(b, a); }
  }

  lemma SameContentSameValidity(a: SessionDocument, b: SessionDocument)
    requires b == a.(revision := b.revision) && b.revision != 0 && Editable(a)
    ensures Editable(b)
  {
    assert StableIds(b) == StableIds(a) && TrackIds(b) == TrackIds(a) && SourceIds(b) == SourceIds(a);
    EntitiesStayValid(a, b);
  }

  // ----- validity carried as one fact

  /** An editable document; behind a quantifier so that proofs which only pass it on carry it as one fact. */
  ghost predicate Openable(d: SessionDocument) {
    (forall seal: bool {:trigger OpenableFacts(d, seal)} :: OpenableFacts(d, seal)) == true
  }

  ghost predicate OpenableFacts(d: SessionDocument, seal: bool) {
    Editable(d)
  }

  /** A document that can be edited if it can be saved at all. */
  ghost predicate Saveable(d: SessionDocument) {
    (forall seal: bool {:trigger SaveableFacts(d, seal)} :: SaveableFacts(d, seal)) == true
  }

  ghost predicate SaveableFacts(d: SessionDocument, seal: bool) {
    ValidDocument(d) ==> Editable(d)
  }

  lemma OpenableIsEditable(d: SessionDocument)
    requires Openable(d)
    ensures Editable(d)
  {
    assert OpenableFacts(d, true);
  }

  lemma EditableIsOpenable(d: SessionDocument)
    requires Editable(d)
    ensures Openable(d) && Saveable(d)
  {}

  lemma ValidIsOpenable(d: SessionDocument)
    requires ValidDocument(d) && Saveable(d)
    ensures Openable(d)
  {
    assert SaveableFacts(d, true);
  }
}
