/** Session documents as bytes: the current schema, migration from the older ones and export to them. */
module DocumentCodec {
  import opened SessionDocuments
  import opened Codecs
  import opened DocumentFormat

  const SESSION_MAGIC: seq<byte> := [0x49, 0x52, 0x53, 0x44]
  const MINIMUM_SCHEMA: u32 := 1
  const CURRENT_SCHEMA: u32 := 4
  const MIGRATED_SAMPLE_RATE: u32 := 48_000

  // ----- the sections after the schema number

  type HeaderFields = (u64, (u32, u64))
  type ArrangementFields = (seq<Clip>, (seq<Route>, seq<AutomationLane>))
  type EquipmentFields = (seq<MidiSequence>, (DeviceConfiguration, seq<Plugin>))
  type ResourceFields = (seq<MediaSource>, EquipmentFields)
  type DocumentFields = (HeaderFields, (seq<Track>, (ArrangementFields, ResourceFields)))

  function FromDocument(d: SessionDocument): DocumentFields {
    ((d.revision, (d.sampleRate, d.tempo)),
     (d.tracks, ((d.clips, (d.routes, d.automationLanes)), (d.mediaSources, (d.midiSequences, (d.device, d.plugins))))))
  }

  function ToDocument(f: DocumentFields): SessionDocument {
    SessionDocument(f.0.0, f.0.1.0, f.0.1.1, f.1.0, f.1.1.0.0, f.1.1.0.1.0, f.1.1.0.1.1, f.1.1.1.0, f.1.1.1.1.0,
      f.1.1.1.1.1.1, f.1.1.1.1.1.0)
  }

  function HeaderFormat(schema: u32): Codec<HeaderFields> {
    Three(NUMBER64, Since(2, schema, NUMBER32, MIGRATED_SAMPLE_RATE), NUMBER64)
  }

  function TracksFormat(schema: u32): Codec<seq<Track>> { List(TrackFormat(schema), MAXIMUM_TRACK_COUNT) }

  function ArrangementFormat(schema: u32): Codec<ArrangementFields> {
    Three(Since(3, schema, List(CLIP, MAXIMUM_CLIP_COUNT), []), Since(3, schema, List(ROUTE, MAXIMUM_ROUTE_COUNT), []),
          Since(3, schema, List(LANE, MAXIMUM_LANE_COUNT), []))
  }

  function EquipmentFormat(schema: u32): Codec<EquipmentFields> {
    Three(Since(4, schema, List(MIDI, MAXIMUM_MIDI_SEQUENCE_COUNT), []), Since(4, schema, DEVICE, DEFAULT_DEVICE),
          Since(4, schema, List(PLUGIN, MAXIMUM_PLUGIN_COUNT), []))
  }

  function ResourceFormat(schema: u32): Codec<ResourceFields> {
    Pair(Since(4, schema, List(MEDIA, MAXIMUM_MEDIA_SOURCE_COUNT), []), EquipmentFormat(schema))
  }

  function BodyFields(schema: u32): Codec<DocumentFields> {
    Pair(HeaderFormat(schema), Three(TracksFormat(schema), ArrangementFormat(schema), ResourceFormat(schema)))
  }

  function BodyFormat(schema: u32): Codec<SessionDocument> {
    Fields(BodyFields(schema), (d: SessionDocument) => FromDocument(d), (f: DocumentFields) => ToDocument(f))
  }

  lemma HeaderFormatIsGood(schema: u32)
    ensures Good(HeaderFormat(schema))
  {
    Number64IsGood();
    Number32IsGood();
    SinceIsGood(2, schema, NUMBER32, MIGRATED_SAMPLE_RATE);
    ThreeIsGood(NUMBER64, Since(2, schema, NUMBER32, MIGRATED_SAMPLE_RATE), NUMBER64);
  }

  lemma ArrangementFormatIsGood(schema: u32)
    ensures Good(ArrangementFormat(schema))
  {
    ClipIsGood();
    RouteIsGood();
    LaneIsGood();
    var clips, routes, lanes := List(CLIP, MAXIMUM_CLIP_COUNT), List(ROUTE, MAXIMUM_ROUTE_COUNT), List(LANE,
      MAXIMUM_LANE_COUNT);
    ListIsGood(CLIP, MAXIMUM_CLIP_COUNT);
    ListIsGood(ROUTE, MAXIMUM_ROUTE_COUNT);
    ListIsGood(LANE, MAXIMUM_LANE_COUNT);
    SinceIsGood(3, schema, clips, []);
    SinceIsGood(3, schema, routes, []);
    SinceIsGood(3, schema, lanes, []);
    ThreeIsGood(Since(3, schema, clips, []), Since(3, schema, routes, []), Since(3, schema, lanes, []));
  }

  lemma ResourceFormatIsGood(schema: u32)
    ensures Good(ResourceFormat(schema))
  {
    MediaIsGood();
    MidiIsGood();
    DeviceIsGood();
    PluginIsGood();
    var media, midi, plugins := List(MEDIA, MAXIMUM_MEDIA_SOURCE_COUNT), List(MIDI,
      MAXIMUM_MIDI_SEQUENCE_COUNT), List(PLUGIN, MAXIMUM_PLUGIN_COUNT);
    ListIsGood(MEDIA, MAXIMUM_MEDIA_SOURCE_COUNT);
    ListIsGood(MIDI, MAXIMUM_MIDI_SEQUENCE_COUNT);
    ListIsGood(PLUGIN, MAXIMUM_PLUGIN_COUNT);
    SinceIsGood(4, schema, media, []);
    SinceIsGood(4, schema, midi, []);
    SinceIsGood(4, schema, DEVICE, DEFAULT_DEVICE);
    SinceIsGood(4, schema, plugins, []);
    ThreeIsGood(Since(4, schema, midi, []), Since(4, schema, DEVICE, DEFAULT_DEVICE), Since(4, schema, plugins, []));
    PairIsGood(Since(4, schema, media, []), EquipmentFormat(schema));
  }

  lemma BodyFormatIsGood(schema: u32)
    ensures Good(BodyFormat(schema))
  {
    HeaderFormatIsGood(schema);
    TrackFormatIsGood(schema);
    ListIsGood(TrackFormat(schema), MAXIMUM_TRACK_COUNT);
    ArrangementFormatIsGood(schema);
    ResourceFormatIsGood(schema);
    ThreeIsGood(TracksFormat(schema), ArrangementFormat(schema), ResourceFormat(schema));
    PairIsGood(HeaderFormat(schema), Three(TracksFormat(schema), ArrangementFormat(schema), ResourceFormat(schema)));
    FieldsIsGood(BodyFields(schema), (d: SessionDocument) => FromDocument(d), (f: DocumentFields) => ToDocument(f));
  }

  lemma BodyEncoding(schema: u32, d: SessionDocument)
    ensures BodyFormat(schema).encode(d)
         == HeaderFormat(schema).encode((d.revision, (d.sampleRate, d.tempo)))
          + (TracksFormat(schema).encode(d.tracks)
             + (ArrangementFormat(schema).encode((d.clips, (d.routes, d.automationLanes)))
                + ResourceFormat(schema).encode((d.mediaSources, (d.midiSequences, (d.device, d.plugins))))))
  {
    var header, arrangement, resources :=
      (d.revision, (d.sampleRate, d.tempo)), (d.clips, (d.routes, d.automationLanes)),
        (d.mediaSources, (d.midiSequences, (d.device, d.plugins)));
    PairEncoding(HeaderFormat(schema), Three(TracksFormat(schema), ArrangementFormat(schema), ResourceFormat(schema)),
      header, (d.tracks, (arrangement, resources)));
    PairEncoding(TracksFormat(schema), Pair(ArrangementFormat(schema), ResourceFormat(schema)), d.tracks,
      (arrangement, resources));
    PairEncoding(ArrangementFormat(schema), ResourceFormat(schema), arrangement, resources);
    FieldsEncoding(BodyFields(schema), (e: SessionDocument) => FromDocument(e), (f: DocumentFields) => ToDocument(f),
      d);
  }

  // ----- what a body can hold

  ghost predicate StorableHeader(schema: u32, d: SessionDocument) {
    schema < 2 ==> d.sampleRate == MIGRATED_SAMPLE_RATE
  }

  ghost predicate StorableList<T>(since: u32, schema: u32, c: Codec<T>, limit: nat, xs: seq<T>) {
    if schema >= since then |xs| <= limit && |xs| <= U32_MAX && ValidItems(c, xs) else xs == []
  }

  ghost predicate StorableArrangement(schema: u32, d: SessionDocument) {
    && StorableList(3, schema, CLIP, MAXIMUM_CLIP_COUNT, d.clips)
    && StorableList(3, schema, ROUTE, MAXIMUM_ROUTE_COUNT, d.routes)
    && StorableList(3, schema, LANE, MAXIMUM_LANE_COUNT, d.automationLanes)
  }

  ghost predicate StorableResources(schema: u32, d: SessionDocument) {
    && StorableList(4, schema, MEDIA, MAXIMUM_MEDIA_SOURCE_COUNT, d.mediaSources)
    && StorableList(4, schema, MIDI, MAXIMUM_MIDI_SEQUENCE_COUNT, d.midiSequences)
    && (if schema < 4 then d.device == DEFAULT_DEVICE else DEVICE.valid(d.device))
    && StorableList(4, schema, PLUGIN, MAXIMUM_PLUGIN_COUNT, d.plugins)
  }

  ghost predicate Storable(schema: u32, d: SessionDocument) {
    && StorableHeader(schema, d) && StorableList(0, schema, TrackFormat(schema), MAXIMUM_TRACK_COUNT, d.tracks)
    && StorableArrangement(schema, d) && StorableResources(schema, d)
  }

  lemma SinceListValidity<T>(since: u32, schema: u32, c: Codec<T>, limit: nat, xs: seq<T>)
    ensures Since(since, schema, List(c, limit), []).valid(xs) <==> StorableList(since, schema, c, limit, xs)
  {}

  lemma ThreeValidity<A, B, C>(a: Codec<A>, b: Codec<B>, c: Codec<C>, x: A, y: B, z: C)
    ensures Three(a, b, c).valid((x, (y, z))) <==> a.valid(x) && b.valid(y) && c.valid(z)
  {}

  lemma ArrangementValidity(schema: u32, d: SessionDocument)
    ensures ArrangementFormat(schema).valid((d.clips, (d.routes, d.automationLanes))) <==>
      StorableArrangement(schema, d)
  {
    SinceListValidity(3, schema, CLIP, MAXIMUM_CLIP_COUNT, d.clips);
    SinceListValidity(3, schema, ROUTE, MAXIMUM_ROUTE_COUNT, d.routes);
    SinceListValidity(3, schema, LANE, MAXIMUM_LANE_COUNT, d.automationLanes);
    ThreeValidity(Since(3, schema, List(CLIP, MAXIMUM_CLIP_COUNT), []),
      Since(3, schema, List(ROUTE, MAXIMUM_ROUTE_COUNT), []), Since(3, schema, List(LANE, MAXIMUM_LANE_COUNT), []),
      d.clips, d.routes, d.automationLanes);
  }

  lemma ResourceValidity(schema: u32, d: SessionDocument)
    ensures ResourceFormat(schema).valid((d.mediaSources, (d.midiSequences, (d.device, d.plugins)))) <==>
      StorableResources(schema, d)
  {
    SinceListValidity(4, schema, MEDIA, MAXIMUM_MEDIA_SOURCE_COUNT, d.mediaSources);
    SinceListValidity(4, schema, MIDI, MAXIMUM_MIDI_SEQUENCE_COUNT, d.midiSequences);
    SinceListValidity(4, schema, PLUGIN, MAXIMUM_PLUGIN_COUNT, d.plugins);
    ThreeValidity(Since(4, schema, List(MIDI, MAXIMUM_MIDI_SEQUENCE_COUNT), []),
      Since(4, schema, DEVICE, DEFAULT_DEVICE), Since(4, schema, List(PLUGIN, MAXIMUM_PLUGIN_COUNT), []),
      d.midiSequences, d.device, d.plugins);
  }

  lemma HeaderValidity(schema: u32, d: SessionDocument)
    ensures HeaderFormat(schema).valid((d.revision, (d.sampleRate, d.tempo))) <==> StorableHeader(schema, d)
  {}

  lemma PairValidity<A, B>(a: Codec<A>, b: Codec<B>, x: A, y: B)
    ensures Pair(a, b).valid((x, y)) <==> a.valid(x) && b.valid(y)
  {}

  lemma BodyFieldsValidity(schema: u32, d: SessionDocument)
    ensures BodyFields(schema).valid(FromDocument(d)) <==> Storable(schema, d)
  {
    HeaderValidity(schema, d);
    ArrangementValidity(schema, d);
    ResourceValidity(schema, d);
    SinceListValidity(0, schema, TrackFormat(schema), MAXIMUM_TRACK_COUNT, d.tracks);
    var arrangement, resources := (d.clips, (d.routes, d.automationLanes)),
      (d.mediaSources, (d.midiSequences, (d.device, d.plugins)));
    ThreeValidity(TracksFormat(schema), ArrangementFormat(schema), ResourceFormat(schema), d.tracks, arrangement,
      resources);
    PairValidity(HeaderFormat(schema), Three(TracksFormat(schema), ArrangementFormat(schema), ResourceFormat(schema)),
      (d.revision, (d.sampleRate, d.tempo)), (d.tracks, (arrangement, resources)));
  }

  lemma FieldsValidity<A, B>(a: Codec<A>, to: B -> A, from: A -> B, y: B)
    ensures Fields(a, to, from).valid(y) <==> a.valid(to(y))
  {}

  lemma BodyValidity(schema: u32, d: SessionDocument)
    ensures BodyFormat(schema).valid(d) <==> Storable(schema, d)
  {
    BodyFieldsValidity(schema, d);
    FieldsValidity(BodyFields(schema), (e: SessionDocument) => FromDocument(e), (f: DocumentFields) => ToDocument(f),
      d);
  }
}
