/** Serialisation of session documents: the current schema is a bijection on valid documents, older schemas are
    migrated on reading, and an export to them reloads to the same document. */
module SessionCodec {
  import opened Ordered
  import opened SessionDocuments
  import opened Validation
  import opened EditValidity
  import opened Bytes
  import opened Codecs
  import opened DocumentFormat
  import opened DocumentCodec

  // ----- migration and export

  function Placeholder(id: u64): MediaSource {
    MediaSource(id, 0, 0, 0, 0, [], [])
  }

  function ClipSources(clips: seq<Clip>): set<u64> {
    set c | c in clips :: c.sourceId
  }

  /** One placeholder per source a clip mentions, in the order of first mention. */
  function Placeholders(clips: seq<Clip>): seq<MediaSource> {
    if clips == [] then []
    else
      var before, last := clips[..|clips| - 1], clips[|clips| - 1];
      if last.sourceId in ClipSources(before) then Placeholders(before) else Placeholders(before) + [Placeholder(last.sourceId)]
  }

  function Migrate(schema: u32, d: SessionDocument): SessionDocument {
    if schema < 4 then d.(mediaSources := Placeholders(d.clips)) else d
  }

  function Uncolored(tracks: seq<Track>): seq<Track> {
    seq(|tracks|, k requires 0 <= k < |tracks| => tracks[k].(color := 0))
  }

  /** What a schema stores of a document. */
  function Strip(schema: u32, d: SessionDocument): SessionDocument {
    d.(sampleRate := if schema < 2 then MIGRATED_SAMPLE_RATE else d.sampleRate,
       tracks := if schema < 2 then Uncolored(d.tracks) else d.tracks,
       mediaSources := if schema < 4 then [] else d.mediaSources)
  }

  /** An export to an older schema must not discard sections that schema does not have. */
  predicate ExportPermitted(schema: u32, d: SessionDocument) {
    && MINIMUM_SCHEMA <= schema <= CURRENT_SCHEMA
    && (schema < 3 ==> d.clips == [] && d.routes == [] && d.automationLanes == [])
    && (schema < 4 ==> OnlyPlaceholders(d) && d.midiSequences == [] && d.plugins == [] && d.device == DEFAULT_DEVICE)
  }

  predicate OnlyPlaceholders(d: SessionDocument) {
    forall k :: 0 <= k < |d.mediaSources| ==>
      d.mediaSources[k] == Placeholder(d.mediaSources[k].stableId) && d.mediaSources[k].stableId in ClipSources(d.clips)
  }

  function Preamble(schema: u32): (bytes: seq<byte>)
    ensures |bytes| == 8
  {
    SESSION_MAGIC + EncodeU32(schema)
  }

  function Encode(schema: u32, d: SessionDocument): seq<byte> {
    Preamble(schema) + BodyFormat(schema).encode(Strip(schema, d))
  }

  ghost function Accept(d: SessionDocument): Option<SessionDocument> {
    if ValidDocument(d) then Some(d) else None
  }

  ghost function DecodeBody(schema: u32, body: seq<byte>): Option<SessionDocument> {
    match DecodeWhole(BodyFormat(schema), body)
    case None => None
    case Some(d) => Accept(Migrate(schema, d))
  }

  ghost function Decode(bytes: seq<byte>): Option<SessionDocument> {
    if |bytes| < 8 || bytes[..4] != SESSION_MAGIC then None
    else
      var schema := DecodeU32(bytes[4..8]);
      if schema < MINIMUM_SCHEMA || schema > CURRENT_SCHEMA then None else DecodeBody(schema, bytes[8..])
  }

  lemma ReadsPreamble(schema: u32, body: seq<byte>)
    ensures var bytes := Preamble(schema) + body;
      |bytes| >= 8 && bytes[..4] == SESSION_MAGIC && DecodeU32(bytes[4..8]) == schema && bytes[8..] == body
  {
    var bytes := Preamble(schema) + body;
    RoundTripU32(schema);
    assert bytes[4..8] == EncodeU32(schema);
  }

  lemma PreambleIsDetermined(bytes: seq<byte>)
    requires |bytes| >= 8 && bytes[..4] == SESSION_MAGIC
    ensures bytes == Preamble(DecodeU32(bytes[4..8])) + bytes[8..]
  {
    CanonicalU32(bytes[4..8]);
    assert bytes == bytes[..4] + bytes[4..8] + bytes[8..];
  }

  // ----- storable documents

  lemma ValidTracksAreStorable(schema: u32, d: SessionDocument)
    requires ValidDocument(d)
    ensures StorableList(0, schema, TrackFormat(schema), MAXIMUM_TRACK_COUNT, Strip(schema, d).tracks)
  {
    var tracks := Strip(schema, d).tracks;
    forall k | 0 <= k < |tracks| ensures TrackFormat(schema).valid(tracks[k]) {
      assert ValidTrack(d.tracks[k]);
      StorableTrack(schema, tracks[k]);
    }
  }

  lemma ValidArrangementIsStorable(schema: u32, d: SessionDocument)
    requires ValidDocument(d) && ExportPermitted(schema, d)
    ensures StorableArrangement(schema, d) == true
  {
    ValidClipsAreStorable(d);
    forall k | 0 <= k < |d.routes| ensures ROUTE.valid(d.routes[k]) { StorableRoute(d.routes[k]); }
    forall k | 0 <= k < |d.automationLanes| ensures LANE.valid(d.automationLanes[k]) {
      PointsGrow(d.automationLanes, k);
      StorableLane(d.automationLanes[k]);
    }
  }

  lemma ValidClipsAreStorable(d: SessionDocument)
    requires ValidDocument(d) == true
    ensures forall k :: 0 <= k < |d.clips| ==> CLIP.valid(d.clips[k])
  {
    forall k | 0 <= k < |d.clips| ensures CLIP.valid(d.clips[k]) {
      assert ValidClip(d.clips[k], TrackIds(d), SourceIds(d));
      StorableClip(d.clips[k]);
    }
  }

  lemma ValidResourcesAreStorable(schema: u32, d: SessionDocument)
    requires ValidDocument(d) == true && schema >= 4
    ensures StorableResources(schema, d) == true
  {
    ValidMediaIsStorable(schema, d);
    ValidMidiIsStorable(schema, d);
    ValidPluginsAreStorable(schema, d);
    ValidDeviceIsStorable(d);
  }

  lemma ValidDeviceIsStorable(d: SessionDocument)
    requires ValidDocument(d) == true
    ensures DEVICE.valid(d.device) == true
  {
    StorableDevice(d.device);
  }

  lemma ValidMediaIsStorable(schema: u32, d: SessionDocument)
    requires ValidDocument(d) == true && schema >= 4
    ensures StorableList(4, schema, MEDIA, MAXIMUM_MEDIA_SOURCE_COUNT, d.mediaSources) == true
  {
    forall k | 0 <= k < |d.mediaSources| ensures MEDIA.valid(d.mediaSources[k]) {
      assert ValidMediaSource(d.mediaSources[k]);
      StorableMedia(d.mediaSources[k]);
    }
  }

  lemma ValidMidiIsStorable(schema: u32, d: SessionDocument)
    requires ValidDocument(d) == true && schema >= 4
    ensures StorableList(4, schema, MIDI, MAXIMUM_MIDI_SEQUENCE_COUNT, d.midiSequences) == true
  {
    forall k | 0 <= k < |d.midiSequences| ensures MIDI.valid(d.midiSequences[k]) {
      assert ValidMidiSequence(d.midiSequences[k]);
      NotesGrow(d.midiSequences, k);
      StorableMidi(d.midiSequences[k]);
    }
  }

  lemma ValidPluginsAreStorable(schema: u32, d: SessionDocument)
    requires ValidDocument(d) == true && schema >= 4
    ensures StorableList(4, schema, PLUGIN, MAXIMUM_PLUGIN_COUNT, d.plugins) == true
  {
    forall k | 0 <= k < |d.plugins| ensures PLUGIN.valid(d.plugins[k]) {
      assert ValidPlugin(d.plugins[k], TrackIds(d));
      StorablePlugin(d.plugins[k]);
    }
  }

  lemma ValidIsStorable(schema: u32, d: SessionDocument)
    requires ValidDocument(d) && ExportPermitted(schema, d)
    ensures Storable(schema, Strip(schema, d))
  {
    ValidTracksAreStorable(schema, d);
    ValidArrangementIsStorable(schema, d);
    if schema == 4 {
      ValidResourcesAreStorable(schema, d);
    }
  }

  lemma BodyReadsBack(schema: u32, d: SessionDocument)
    requires Storable(schema, d)
    ensures DecodeWhole(BodyFormat(schema), BodyFormat(schema).encode(d)) == Some(d)
  {
    BodyValidity(schema, d);
    BodyFormatIsGood(schema);
    WholeIsBijective(BodyFormat(schema));
  }

  lemma DecodeBehindPreamble(schema: u32, body: seq<byte>)
    requires MINIMUM_SCHEMA <= schema <= CURRENT_SCHEMA
    ensures Decode(Preamble(schema) + body) == DecodeBody(schema, body)
  {
    ReadsPreamble(schema, body);
  }

  lemma DecodedBody(schema: u32, body: seq<byte>, d: SessionDocument)
    requires DecodeWhole(BodyFormat(schema), body) == Some(d)
    ensures DecodeBody(schema, body) == Accept(Migrate(schema, d))
  {}

  /** Reading an export gives what the schema stores, migrated, if that is valid. */
  lemma ExportReadsBack(schema: u32, d: SessionDocument)
    requires ValidDocument(d) && ExportPermitted(schema, d)
    ensures Decode(Encode(schema, d)) == Accept(Migrate(schema, Strip(schema, d)))
  {
    ValidIsStorable(schema, d);
    var stored := Strip(schema, d);
    var body := BodyFormat(schema).encode(stored);
    BodyReadsBack(schema, stored);
    DecodedBody(schema, body, stored);
    DecodeBehindPreamble(schema, body);
  }

  /** The current schema: reading a saved valid document gives it back. */
  lemma CurrentRoundTrip(d: SessionDocument)
    requires ValidDocument(d)
    ensures Decode(Encode(CURRENT_SCHEMA, d)) == Some(d)
  {
    ExportReadsBack(CURRENT_SCHEMA, d);
  }

  // ----- accepted bytes

  lemma ReadBody(schema: u32, body: seq<byte>)
    requires DecodeWhole(BodyFormat(schema), body).Some?
    ensures var d := DecodeWhole(BodyFormat(schema), body).value;
      Storable(schema, d) && BodyFormat(schema).encode(d) == body
  {
    BodyFormatIsGood(schema);
    WholeIsBijective(BodyFormat(schema));
    BodyValidity(schema, DecodeWhole(BodyFormat(schema), body).value);
  }

  lemma PlaceholdersAreMentioned(clips: seq<Clip>)
    ensures forall k :: 0 <= k < |Placeholders(clips)| ==>
      Placeholders(clips)[k] == Placeholder(Placeholders(clips)[k].stableId)
        && Placeholders(clips)[k].stableId in ClipSources(clips)
  {
    PlaceholderIds(clips);
    forall k | 0 <= k < |Placeholders(clips)| ensures Placeholders(clips)[k].stableId in ClipSources(clips) {
      assert IdsOfMedia(Placeholders(clips))[k] in Elements(IdsOfMedia(Placeholders(clips)));
    }
  }

  /** The placeholders name each mentioned source once. */
  lemma {:induction false} PlaceholderIds(clips: seq<Clip>)
    ensures Elements(IdsOfMedia(Placeholders(clips))) == ClipSources(clips)
    ensures Distinct(IdsOfMedia(Placeholders(clips)))
    ensures forall k :: 0 <= k < |Placeholders(clips)| ==>
      Placeholders(clips)[k] == Placeholder(Placeholders(clips)[k].stableId)
  {
    if clips != [] {
      var before, last := clips[..|clips| - 1], clips[|clips| - 1];
      PlaceholderIds(before);
      assert clips == before + [last];
      assert ClipSources(clips) == ClipSources(before) + {last.sourceId} by {
        forall id | id in ClipSources(before) ensures id in ClipSources(clips) {
          var c :| c in before && c.sourceId == id;
          assert c in clips;
        }
        assert last in clips;
      }
      if last.sourceId !in ClipSources(before) {
        var ids := IdsOfMedia(Placeholders(before));
        assert IdsOfMedia(Placeholders(clips)) == ids + [last.sourceId];
        assert forall i :: 0 <= i < |ids| ==> ids[i] in Elements(ids);
      }
    }
  }

  lemma MigratedIsExportable(schema: u32, d: SessionDocument)
    requires MINIMUM_SCHEMA <= schema <= CURRENT_SCHEMA && Storable(schema, d)
    ensures ExportPermitted(schema, Migrate(schema, d)) && Strip(schema, Migrate(schema, d)) == d
  {
    if schema < 4 {
      PlaceholdersAreMentioned(d.clips);
    }
    if schema < 2 {
      forall k | 0 <= k < |d.tracks| ensures d.tracks[k].color == 0 { StorableTrack(schema, d.tracks[k]); }
      assert Uncolored(d.tracks) == d.tracks;
    }
  }

  lemma AcceptedParts(schema: u32, body: seq<byte>)
    requires DecodeBody(schema, body).Some?
    ensures DecodeWhole(BodyFormat(schema), body).Some?
    ensures var d := DecodeWhole(BodyFormat(schema), body).value;
      DecodeBody(schema, body).value == Migrate(schema, d) && ValidDocument(Migrate(schema, d))
  {}

  lemma EncodeMigrated(schema: u32, d: SessionDocument, body: seq<byte>)
    requires MINIMUM_SCHEMA <= schema <= CURRENT_SCHEMA && Storable(schema, d) && BodyFormat(schema).encode(d) == body
    ensures ExportPermitted(schema, Migrate(schema, d)) && Encode(schema, Migrate(schema, d)) == Preamble(schema) + body
  {
    MigratedIsExportable(schema, d);
  }

  lemma AcceptedBody(schema: u32, body: seq<byte>)
    requires MINIMUM_SCHEMA <= schema <= CURRENT_SCHEMA && DecodeBody(schema, body).Some?
    ensures var d := DecodeBody(schema, body).value;
      (ValidDocument(d) && ExportPermitted(schema, d)) == true && Encode(schema, d) == Preamble(schema) + body
  {
    AcceptedParts(schema, body);
    ReadBody(schema, body);
    EncodeMigrated(schema, DecodeWhole(BodyFormat(schema), body).value, body);
  }

  /** Whatever is accepted is valid, and saving it in its own schema gives the same bytes. */
  lemma AcceptedIsCanonical(bytes: seq<byte>)
    requires Decode(bytes).Some?
    ensures var d, schema := Decode(bytes).value, DecodeU32(bytes[4..8]);
      (ValidDocument(d) && ExportPermitted(schema, d)) == true && Encode(schema, d) == bytes
  {
    var schema, body := DecodeU32(bytes[4..8]), bytes[8..];
    PreambleIsDetermined(bytes);
    AcceptedBody(schema, body);
  }

  // ----- exports to older schemas

  lemma SameIdsSameSources(a: seq<MediaSource>, b: seq<MediaSource>)
    requires Distinct(IdsOfMedia(a)) && Distinct(IdsOfMedia(b)) && Elements(IdsOfMedia(a)) == Elements(IdsOfMedia(b))
    requires forall k :: 0 <= k < |a| ==> a[k] == Placeholder(a[k].stableId)
    requires forall k :: 0 <= k < |b| ==> b[k] == Placeholder(b[k].stableId)
    ensures multiset(a) == multiset(b)
  {
    forall x: MediaSource ensures multiset(a)[x] == multiset(b)[x] {
      CountOfPlaceholder(a, x);
      CountOfPlaceholder(b, x);
    }
  }

  lemma {:induction false} CountOfPlaceholder(s: seq<MediaSource>, x: MediaSource)
    requires Distinct(IdsOfMedia(s)) && forall k :: 0 <= k < |s| ==> s[k] == Placeholder(s[k].stableId)
    ensures multiset(s)[x] == if x == Placeholder(x.stableId) && x.stableId in Elements(IdsOfMedia(s)) then 1 else 0
  {
    if s != [] {
      var before, last := s[..|s| - 1], s[|s| - 1];
      var ids := IdsOfMedia(s);
      assert IdsOfMedia(before) == ids[..|s| - 1];
      CountOfPlaceholder(before, x);
      assert s == before + [last];
      assert ids == IdsOfMedia(before) + [last.stableId];
      assert last.stableId !in Elements(IdsOfMedia(before)) by {
        forall i | 0 <= i < |before| ensures IdsOfMedia(before)[i] != last.stableId { assert ids[i] != ids[|s| - 1]; }
      }
    }
  }

  /** In an exportable document the media sources are the sources its clips mention. */
  lemma ExportableSources(schema: u32, d: SessionDocument)
    requires ValidDocument(d) && ExportPermitted(schema, d) && schema < 4
    ensures Elements(IdsOfMedia(d.mediaSources)) == ClipSources(d.clips)
    ensures SourceIds(d) == ClipSources(d.clips)
  {
    var ids := IdsOfMedia(d.mediaSources);
    SourceIdsAreElements(d);
    forall id | id in ids ensures id in ClipSources(d.clips) {
      var k :| 0 <= k < |ids| && ids[k] == id;
      assert d.mediaSources[k].stableId == id;
    }
    ClipSourcesAreSources(d);
  }

  lemma ClipSourcesAreSources(d: SessionDocument)
    requires ValidDocument(d) == true
    ensures ClipSources(d.clips) <= SourceIds(d)
  {
    forall id | id in ClipSources(d.clips) ensures id in SourceIds(d) {
      var c :| c in d.clips && c.sourceId == id;
      var k :| 0 <= k < |d.clips| && d.clips[k] == c;
      assert ValidClip(d.clips[k], TrackIds(d), SourceIds(d));
    }
  }

  lemma ReloadedSources(schema: u32, d: SessionDocument)
    requires (ValidDocument(d) && ExportPermitted(schema, d)) == true && schema < 4
    ensures multiset(Placeholders(d.clips)) == multiset(d.mediaSources)
    ensures |Placeholders(d.clips)| == |d.mediaSources|
    ensures Elements(IdsOfMedia(Placeholders(d.clips))) == Elements(IdsOfMedia(d.mediaSources)) == SourceIds(d)
  {
    ExportableSources(schema, d);
    PlaceholderIds(d.clips);
    IdsSplit(d);
    SameIdsSameSources(Placeholders(d.clips), d.mediaSources);
    assert |Placeholders(d.clips)| == |multiset(Placeholders(d.clips))|;
  }

  lemma ReloadedIds(schema: u32, d: SessionDocument, e: SessionDocument)
    requires (ValidDocument(d) && ExportPermitted(schema, d)) == true && schema < 4
      && e == Migrate(schema, Strip(schema, d))
    ensures UniqueIds(e) && TrackIds(e) == TrackIds(d) && SourceIds(e) == SourceIds(d)
  {
    ReloadedSources(schema, d);
    PlaceholderIds(d.clips);
    assert IdsOfTracks(e.tracks) == IdsOfTracks(d.tracks);
    TrackIdsAreElements(d);
    TrackIdsAreElements(e);
    IdsSplit(d);
    IdsSplit(e);
    SourceIdsAreElements(e);
    SameElementsAreNew(IdsOfMedia(d.mediaSources), IdsOfMedia(e.mediaSources), Elements(IdsOfTracks(d.tracks)));
  }

  lemma SameElementsAreNew(a: seq<u64>, b: seq<u64>, seen: set<u64>)
    requires NewIds(a, seen) && Distinct(b) && Elements(a) == Elements(b)
    ensures NewIds(b, seen)
  {
    forall k | 0 <= k < |b| ensures b[k] !in seen && b[k] != 0 {
      assert b[k] in Elements(a);
    }
  }

  lemma SourceIdsAreElements(d: SessionDocument)
    requires d.midiSequences == []
    ensures SourceIds(d) == Elements(IdsOfMedia(d.mediaSources))
  {
    var ids := IdsOfMedia(d.mediaSources);
    forall s | s in d.mediaSources ensures s.stableId in ids {
      var k :| 0 <= k < |d.mediaSources| && d.mediaSources[k] == s;
      assert ids[k] == s.stableId;
    }
    forall id | id in ids ensures id in SourceIds(d) {
      var k :| 0 <= k < |ids| && ids[k] == id;
      assert d.mediaSources[k] in d.mediaSources;
    }
  }

  lemma ReloadedEntities(schema: u32, d: SessionDocument, e: SessionDocument)
    requires (ValidDocument(d) && ExportPermitted(schema, d)) == true && schema < 4
      && e == Migrate(schema, Strip(schema, d))
    requires TrackIds(e) == TrackIds(d) && SourceIds(e) == SourceIds(d)
    ensures ValidEntities(e)
  {
    forall k | 0 <= k < |e.tracks| ensures ValidTrack(e.tracks[k]) { assert ValidTrack(d.tracks[k]); }
    PlaceholderIds(d.clips);
    forall k | 0 <= k < |e.mediaSources| ensures ValidMediaSource(e.mediaSources[k]) {
      assert e.mediaSources[k] == Placeholder(e.mediaSources[k].stableId);
    }
    assert ValidReferences(e, TrackIds(e), SourceIds(e));
  }

  /** What a reloaded export looks like: its media sources are in the order in which the clips mention them, and
      schema 1 has also lost the sample rate and the track colours. */
  function Reloaded(schema: u32, d: SessionDocument): SessionDocument {
    var e := d.(mediaSources := Placeholders(d.clips));
    if schema == 1 then e.(sampleRate := MIGRATED_SAMPLE_RATE, tracks := Uncolored(d.tracks)) else e
  }

  lemma MigrateReloads(schema: u32, d: SessionDocument)
    requires ExportPermitted(schema, d) && schema < CURRENT_SCHEMA
    ensures Migrate(schema, Strip(schema, d)) == Reloaded(schema, d)
  {}

  lemma ReloadIsValid(schema: u32, d: SessionDocument)
    requires (ValidDocument(d) && ExportPermitted(schema, d)) == true && schema < CURRENT_SCHEMA
    ensures Migrate(schema, Strip(schema, d)) == Reloaded(schema, d) && ValidDocument(Reloaded(schema, d)) == true
  {
    MigrateReloads(schema, d);
    var e := Migrate(schema, Strip(schema, d));
    ReloadedSources(schema, d);
    ReloadedIds(schema, d, e);
    ReloadedEntities(schema, d, e);
  }

  /** A permitted export to an older schema reloads: from schemas 2 and 3 to the same document up to the order of
      its media sources; from schema 1 the track colours and the sample rate are lost as well. */
  lemma LegacyReload(schema: u32, d: SessionDocument)
    requires ValidDocument(d) && ExportPermitted(schema, d) && schema < CURRENT_SCHEMA
    ensures Decode(Encode(schema, d)) == Some(Reloaded(schema, d))
    ensures multiset(Reloaded(schema, d).mediaSources) == multiset(d.mediaSources)
  {
    ReloadedSources(schema, d);
    ReloadIsValid(schema, d);
    ExportReadsBack(schema, d);
  }
}
