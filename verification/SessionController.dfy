/** The editable session: edits on the document, guarded by the expected revision. */
module SessionEditing {
  import opened SessionDocuments
  import opened Validation

  const MAXIMUM_EDIT_NAME_BYTES := 1_024

  datatype EditStatus = Applied | RevisionConflict | InvalidArgument | EntityNotFound

  datatype EditResult = EditResult(status: EditStatus, revision: u64, entityId: u64)

  datatype CommandKind = SetTempo | AddTrack | RenameTrack | RemoveTrack

  /** A session command carries every field, used or not, as it is journaled. */
  datatype SessionCommand = SessionCommand(kind: CommandKind, entityId: u64, trackType: u32, color: u32, tempo: u64, name: Text)

  const BLANK := SessionCommand(SetTempo, 0, 1, 0, 0, [])

  /** `==` on commands, field by field; the tempo is compared as a double. */
  predicate CommandEquals(a: SessionCommand, b: SessionCommand) {
    && a.kind == b.kind && a.entityId == b.entityId && a.trackType == b.trackType && a.color == b.color
    && DoubleEquals(a.tempo, b.tempo) && a.name == b.name
  }

  // ----- edits as functions of the document

  /** Position of the first track with the given identity; the length when there is none. */
  function TrackIndex(tracks: seq<Track>, id: u64): (i: nat)
    ensures i <= |tracks|
    ensures i < |tracks| ==> tracks[i].stableId == id
    ensures forall k :: 0 <= k < i ==> tracks[k].stableId != id
  {
    if tracks == [] then 0
    else if tracks[0].stableId == id then 0
    else
      var rest := TrackIndex(tracks[1..], id);
      assert forall k :: 1 <= k < 1 + rest ==> tracks[k] == tracks[1..][k - 1];
      1 + rest
  }

  predicate HasTrack(d: SessionDocument, id: u64) {
    TrackIndex(d.tracks, id) < |d.tracks|
  }

  /** Something other than the track list mentions the track. */
  predicate Referenced(d: SessionDocument, id: u64) {
    || (exists k :: 0 <= k < |d.clips| && d.clips[k].trackId == id)
    || (exists k :: 0 <= k < |d.routes| && (d.routes[k].sourceTrackId == id || d.routes[k].destinationTrackId == id))
    || (exists k :: 0 <= k < |d.automationLanes| && d.automationLanes[k].targetTrackId == id)
    || (exists k :: 0 <= k < |d.plugins| && d.plugins[k].targetTrackId == id)
  }

  predicate EditableName(name: Text) {
    1 <= |name| <= MAXIMUM_EDIT_NAME_BYTES
  }

  /** Whether a command applies to a document whose revision can still grow. */
  function StatusOn(d: SessionDocument, c: SessionCommand): EditStatus {
    match c.kind
    case SetTempo => if ValidTempo(c.tempo) then Applied else InvalidArgument
    case AddTrack =>
      if !EditableName(c.name) || c.trackType < 1 || c.trackType > 5 || c.entityId == 0 || c.entityId == U64_MAX then InvalidArgument
      else if HasTrack(d, c.entityId) then InvalidArgument
      else Applied
    case RenameTrack =>
      if !EditableName(c.name) then InvalidArgument
      else if !HasTrack(d, c.entityId) then EntityNotFound
      else Applied
    case RemoveTrack =>
      if !HasTrack(d, c.entityId) then EntityNotFound
      else if Referenced(d, c.entityId) then InvalidArgument
      else Applied
  }

  /** The content after an applicable command. */
  function ChangedBy(d: SessionDocument, c: SessionCommand): SessionDocument
    requires StatusOn(d, c) == Applied
  {
    match c.kind
    case SetTempo => d.(tempo := c.tempo)
    case AddTrack => d.(tracks := d.tracks + [Track(c.entityId, c.trackType, ONE, c.color, c.name)])
    case RenameTrack =>
      var i := TrackIndex(d.tracks, c.entityId);
      d.(tracks := d.tracks[i := d.tracks[i].(name := c.name)])
    case RemoveTrack =>
      var i := TrackIndex(d.tracks, c.entityId);
      d.(tracks := d.tracks[..i] + d.tracks[i + 1..])
  }

  /** The bits of 1.0f, the gain of a new track. */
  const ONE: u32 := 0x3F80_0000

  /** An exhausted revision counter refuses every command. */
  function ApplyStatus(d: SessionDocument, c: SessionCommand): EditStatus {
    if d.revision == U64_MAX then InvalidArgument else StatusOn(d, c)
  }

  /** The document after an applied command: new content, next revision. */
  function Apply(d: SessionDocument, c: SessionCommand): SessionDocument
    requires ApplyStatus(d, c) == Applied
  {
    ChangedBy(d, c).(revision := d.revision + 1)
  }

  // ----- what an edit does, field by field

  /** Nothing but the tempo and the revision has changed, and the tempo is the given one. */
  ghost predicate TempoIs(before: SessionDocument, after: SessionDocument, tempo: u64) {
    && after.tempo == tempo && after.revision == before.revision + 1
    && after.(tempo := before.tempo, revision := before.revision) == before
  }

  /** Nothing but the tracks and the revision has changed. */
  ghost predicate OnlyTracks(before: SessionDocument, after: SessionDocument) {
    && after.revision == before.revision + 1
    && after.(tracks := before.tracks, revision := before.revision) == before
  }

  /** One track with the given fields and gain 1.0 has come behind the others. */
  ghost predicate AppendsTrack(before: SessionDocument, after: SessionDocument, id: u64, kind: u32, color: u32,
    name: Text) {
    && OnlyTracks(before, after) && |after.tracks| == |before.tracks| + 1
    && (forall k :: 0 <= k < |before.tracks| ==> after.tracks[k] == before.tracks[k])
    && var t := after.tracks[|before.tracks|];
       t.stableId == id && t.kind == kind && t.color == color && t.name == name && t.gain == 0x3F80_0000
  }

  /** Track `i`, the first with the identity, has the given name; the other tracks and its other fields are as before. */
  ghost predicate RenamesAt(before: seq<Track>, after: seq<Track>, i: nat, id: u64, name: Text) {
    && |after| == |before| && i < |before| && before[i].stableId == id
    && (forall k :: 0 <= k < i ==> before[k].stableId != id)
    && after[i].name == name && after[i].(name := before[i].name) == before[i]
    && (forall k :: 0 <= k < |before| && k != i ==> after[k] == before[k])
  }

  ghost predicate RenamesOnly(before: SessionDocument, after: SessionDocument, id: u64, name: Text) {
    OnlyTracks(before, after) && exists i: nat :: RenamesAt(before.tracks, after.tracks, i, id, name)
  }

  /** Track `i`, the first with the identity, is gone; the others are there in the same order. */
  ghost predicate DropsAt(before: seq<Track>, after: seq<Track>, i: nat, id: u64) {
    && |after| + 1 == |before| && i < |before| && before[i].stableId == id
    && (forall k :: 0 <= k < i ==> before[k].stableId != id && after[k] == before[k])
    && (forall k :: i <= k < |after| ==> after[k] == before[k + 1])
  }

  ghost predicate DropsOnly(before: SessionDocument, after: SessionDocument, id: u64) {
    OnlyTracks(before, after) && exists i: nat :: DropsAt(before.tracks, after.tracks, i, id)
  }

  ghost predicate DoneInFields(before: SessionDocument, after: SessionDocument, c: SessionCommand) {
    match c.kind
    case SetTempo => TempoIs(before, after, c.tempo)
    case AddTrack => AppendsTrack(before, after, c.entityId, c.trackType, c.color, c.name)
    case RenameTrack => RenamesOnly(before, after, c.entityId, c.name)
    case RemoveTrack => DropsOnly(before, after, c.entityId)
  }

  lemma ApplyInFields(d: SessionDocument, c: SessionCommand)
    requires ApplyStatus(d, c) == Applied
    ensures DoneInFields(d, Apply(d, c), c) == true
  {
    var i, after := TrackIndex(d.tracks, c.entityId), Apply(d, c);
    match c.kind
    case SetTempo =>
    case AddTrack =>
    case RenameTrack => assert RenamesAt(d.tracks, after.tracks, i, c.entityId, c.name);
    case RemoveTrack => assert DropsAt(d.tracks, after.tracks, i, c.entityId);
  }

  // ----- when an edit applies, field by field

  ghost predicate NoTrackHas(d: SessionDocument, id: u64) {
    forall k :: 0 <= k < |d.tracks| ==> d.tracks[k].stableId != id
  }

  /** A clip, a route, a lane or a plugin names the track. */
  ghost predicate NamedElsewhere(d: SessionDocument, id: u64) {
    || (exists c :: c in d.clips && c.trackId == id)
    || (exists r :: r in d.routes && (r.sourceTrackId == id || r.destinationTrackId == id))
    || (exists l :: l in d.automationLanes && l.targetTrackId == id)
    || (exists p :: p in d.plugins && p.targetTrackId == id)
  }

  /** Each answer, when it is given. */
  lemma AnswersInFields(d: SessionDocument, c: SessionCommand)
    ensures ApplyStatus(d, c) != RevisionConflict
    ensures ApplyStatus(d, c) == EntityNotFound <==>
      d.revision < U64_MAX && NoTrackHas(d, c.entityId)
      && (c.kind == RemoveTrack || (c.kind == RenameTrack && 1 <= |c.name| <= 1024))
    ensures ApplyStatus(d, c) == Applied <==>
      && d.revision < U64_MAX
      && (c.kind == SetTempo ==> 0 < c.tempo <= 0x408F_4000_0000_0000)
      && (c.kind == AddTrack || c.kind == RenameTrack ==> 1 <= |c.name| <= 1024)
      && (c.kind == AddTrack ==>
            1 <= c.trackType <= 5 && 0 < c.entityId < U64_MAX && NoTrackHas(d, c.entityId))
      && (c.kind == RenameTrack || c.kind == RemoveTrack ==> !NoTrackHas(d, c.entityId))
      && (c.kind == RemoveTrack ==> !NamedElsewhere(d, c.entityId))
  {
    assert HasTrack(d, c.entityId) <==> !NoTrackHas(d, c.entityId);
    assert Referenced(d, c.entityId) <==> NamedElsewhere(d, c.entityId);
  }

  // ----- the mutable controller

  function Largest(ids: seq<u64>): u64 {
    if ids == [] then 0
    else
      var rest := Largest(ids[..|ids| - 1]);
      if ids[|ids| - 1] > rest then ids[|ids| - 1] else rest
  }

  lemma {:induction false} LargestBounds(ids: seq<u64>)
    ensures forall k :: 0 <= k < |ids| ==> ids[k] <= Largest(ids)
    ensures Largest(ids) == 0 || Largest(ids) in ids
  {
    if ids != [] {
      LargestBounds(ids[..|ids| - 1]);
      assert ids == ids[..|ids| - 1] + [ids[|ids| - 1]];
    }
  }

  /** The largest identity in use, found by visiting every entity. */
  method MaximumStableId(d: SessionDocument) returns (maximum: u64)
    ensures maximum == Largest(StableIds(d))
  {
    var ids := StableIds(d);
    maximum := 0;
    var k := 0;
    while k < |ids|
      invariant 0 <= k <= |ids|
      invariant maximum == Largest(ids[..k])
    {
      assert ids[..k + 1][..k] == ids[..k];
      if ids[k] > maximum {
        maximum := ids[k];
      }
      k := k + 1;
    }
    assert ids[..k] == ids;
  }

  /** A document that can be opened for editing: valid, with identities left to give out. */
  ghost predicate Editable(d: SessionDocument) {
    ValidDocument(d) && Largest(StableIds(d)) < U64_MAX
  }

  class SessionController {
    var document: SessionDocument
    var nextStableId: u64

    /** `fromDocument`: null for a document that cannot be edited. */
    static method FromDocument(document: SessionDocument) returns (controller: SessionController?)
      ensures controller != null <==> Editable(document)
      ensures controller != null ==>
        fresh(controller) && controller.document == document
        && controller.nextStableId == Largest(StableIds(document)) + 1
    {
      var valid := ValidateDocument(document);
      if !valid {
        return null;
      }
      var maximum := MaximumStableId(document);
      if maximum == U64_MAX {
        return null;
      }
      controller := new SessionController(document, maximum + 1);
    }

    constructor (document: SessionDocument, nextStableId: u64)
      ensures this.document == document && this.nextStableId == nextStableId
    {
      this.document := document;
      this.nextStableId := nextStableId;
    }

    method FindTrack(id: u64) returns (index: nat)
      ensures index == TrackIndex(document.tracks, id)
    {
      index := 0;
      while index < |document.tracks| && document.tracks[index].stableId != id
        invariant 0 <= index <= |document.tracks|
        invariant forall k :: 0 <= k < index ==> document.tracks[k].stableId != id
      {
        index := index + 1;
      }
    }

    method SetTempo(expectedRevision: u64, tempo: u64) returns (result: EditResult)
      modifies this
      ensures var c := BLANK.(kind := CommandKind.SetTempo, tempo := tempo);
              Outcome(old(document), document, expectedRevision, c, result, 0)
      ensures nextStableId == old(nextStableId)
      ensures result.status == Applied ==> TempoIs(old(document), document, tempo) == true
    {
      if expectedRevision != document.revision {
        return EditResult(RevisionConflict, document.revision, 0);
      }
      if !ValidTempo(tempo) || document.revision == U64_MAX {
        return EditResult(InvalidArgument, document.revision, 0);
      }
      document := document.(tempo := tempo, revision := document.revision + 1);
      result := EditResult(Applied, document.revision, 0);
    }

    method AddTrackWithStableId(expectedRevision: u64, stableId: u64, kind: u32, name: Text, color: u32)
      returns (result: EditResult)
      modifies this
      ensures var c := BLANK.(kind := CommandKind.AddTrack, entityId := stableId, trackType := kind, color := color,
        name := name);
              Outcome(old(document), document, expectedRevision, c, result, stableId)
      ensures nextStableId >= old(nextStableId) && (result.status == Applied ==> nextStableId > stableId)
      ensures result.status == Applied ==> AppendsTrack(old(document), document, stableId, kind, color, name) == true
    {
      if expectedRevision != document.revision {
        return EditResult(RevisionConflict, document.revision, 0);
      }
      if !EditableName(name) || kind < 1 || kind > 5 || stableId == 0 || stableId == U64_MAX || document.revision == U64_MAX {
        return EditResult(InvalidArgument, document.revision, 0);
      }
      var duplicate := FindTrack(stableId);
      if duplicate < |document.tracks| {
        return EditResult(InvalidArgument, document.revision, 0);
      }
      document := document.(tracks := document.tracks + [Track(stableId, kind, ONE, color, name)],
        revision := document.revision + 1);
      nextStableId := if nextStableId < stableId + 1 then stableId + 1 else nextStableId;
      result := EditResult(Applied, document.revision, stableId);
    }

    method AddTrack(expectedRevision: u64, kind: u32, name: Text, color: u32) returns (result: EditResult)
      modifies this
      ensures var c := BLANK.(kind := CommandKind.AddTrack, entityId := old(nextStableId), trackType := kind,
        color := color, name := name);
              Outcome(old(document), document, expectedRevision, c, result, old(nextStableId))
      ensures result.status == Applied ==>
        AppendsTrack(old(document), document, old(nextStableId), kind, color, name) == true
    {
      result := AddTrackWithStableId(expectedRevision, nextStableId, kind, name, color);
    }

    method RenameTrack(expectedRevision: u64, trackId: u64, name: Text) returns (result: EditResult)
      modifies this
      ensures var c := BLANK.(kind := CommandKind.RenameTrack, entityId := trackId, name := name);
              Outcome(old(document), document, expectedRevision, c, result, trackId)
      ensures nextStableId == old(nextStableId)
      ensures result.status == Applied ==> RenamesOnly(old(document), document, trackId, name) == true
    {
      if expectedRevision != document.revision {
        return EditResult(RevisionConflict, document.revision, 0);
      }
      if !EditableName(name) || document.revision == U64_MAX {
        return EditResult(InvalidArgument, document.revision, 0);
      }
      var track := FindTrack(trackId);
      if track == |document.tracks| {
        return EditResult(EntityNotFound, document.revision, 0);
      }
      document := document.(tracks := document.tracks[track := document.tracks[track].(name := name)],
        revision := document.revision + 1);
      assert RenamesAt(old(document).tracks, document.tracks, track, trackId, name);
      result := EditResult(Applied, document.revision, trackId);
    }

    method RemoveTrack(expectedRevision: u64, trackId: u64) returns (result: EditResult)
      modifies this
      ensures var c := BLANK.(kind := CommandKind.RemoveTrack, entityId := trackId);
              Outcome(old(document), document, expectedRevision, c, result, trackId)
      ensures nextStableId == old(nextStableId)
      ensures result.status == Applied ==> DropsOnly(old(document), document, trackId) == true
    {
      if expectedRevision != document.revision {
        return EditResult(RevisionConflict, document.revision, 0);
      }
      if document.revision == U64_MAX {
        return EditResult(InvalidArgument, document.revision, 0);
      }
      var track := FindTrack(trackId);
      if track == |document.tracks| {
        return EditResult(EntityNotFound, document.revision, 0);
      }
      if Referenced(document, trackId) {
        return EditResult(InvalidArgument, document.revision, 0);
      }
      document := document.(tracks := document.tracks[..track] + document.tracks[track + 1..],
        revision := document.revision + 1);
      assert DropsAt(old(document).tracks, document.tracks, track, trackId);
      result := EditResult(Applied, document.revision, trackId);
    }

    /** Dispatches a journaled command. */
    method ApplyCommand(expectedRevision: u64, c: SessionCommand) returns (result: EditResult)
      modifies this
      ensures Outcome(old(document), document, expectedRevision, c, result,
        if c.kind == CommandKind.SetTempo then 0 else c.entityId)
      ensures result.status == Applied ==> DoneInFields(old(document), document, c) == true
    {
      match c.kind {
        case SetTempo => result := SetTempo(expectedRevision, c.tempo);
        case AddTrack => result := AddTrackWithStableId(expectedRevision, c.entityId, c.trackType, c.name, c.color);
        case RenameTrack => result := RenameTrack(expectedRevision, c.entityId, c.name);
        case RemoveTrack => result := RemoveTrack(expectedRevision, c.entityId);
      }
    }
  }

  /** What an edit does: a stale revision or a refused command changes nothing, an applied one yields `Apply`. */
  ghost predicate Outcome(before: SessionDocument, after: SessionDocument, expectedRevision: u64, c: SessionCommand,
    result: EditResult, entityId: u64)
  {
    && result.revision == after.revision
    && (if expectedRevision != before.revision then result.status == RevisionConflict else result.status == ApplyStatus(before, c))
    && (if result.status == Applied then after == Apply(before, c) && result.entityId == entityId else after == before && result.entityId == 0)
  }
}
