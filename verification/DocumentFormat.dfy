/** The stored form of a session document, section by section, for schema versions 1 to 4. A section an older
    schema does not have is absent from it. */
module DocumentFormat {
  import opened SessionDocuments
  import opened Codecs

  const NAME: Codec<Text> := Blob(MAXIMUM_NAME_BYTES)

  lemma NameIsGood()
    ensures Good(NAME)
  {
    BlobIsGood(MAXIMUM_NAME_BYTES);
  }

  /** Stored from schema `since` on; before, it has its initial value. */
  function Since<T(==)>(since: u32, schema: u32, stored: Codec<T>, initial: T): Codec<T> {
    if schema >= since then stored else Absent(initial)
  }

  lemma SinceIsGood<T(!new)>(since: u32, schema: u32, stored: Codec<T>, initial: T)
    requires Good(stored)
    ensures Good(Since(since, schema, stored, initial))
  {
    AbsentIsGood(initial);
  }

  lemma SinceEncoding<T>(since: u32, schema: u32, c: Codec<T>, initial: T, x: T)
    ensures Since(since, schema, c, initial).encode(x) == if schema >= since then c.encode(x) else []
  {}

  // ----- tracks

  type TrackFields = (u64, (u32, (u32, (u32, Text))))

  function FromTrack(t: Track): TrackFields { (t.stableId, (t.kind, (t.gain, (t.color, t.name)))) }
  function ToTrack(f: TrackFields): Track { Track(f.0, f.1.0, f.1.1.0, f.1.1.1.0, f.1.1.1.1) }

  function TrackFormat(schema: u32): Codec<Track> {
    Fields(Five(NUMBER64, NUMBER32, NUMBER32, Since(2, schema, NUMBER32, 0), NAME), (t: Track) => FromTrack(t),
      (f: TrackFields) => ToTrack(f))
  }

  lemma TrackFormatIsGood(schema: u32)
    ensures Good(TrackFormat(schema))
  {
    Number64IsGood();
    Number32IsGood();
    SinceIsGood(2, schema, NUMBER32, 0);
    NameIsGood();
    FiveIsGood(NUMBER64, NUMBER32, NUMBER32, Since(2, schema, NUMBER32, 0), NAME);
    FieldsIsGood(Five(NUMBER64, NUMBER32, NUMBER32, Since(2, schema, NUMBER32, 0), NAME), (t: Track) => FromTrack(t),
      (f: TrackFields) => ToTrack(f));
  }

  lemma StorableTrack(schema: u32, t: Track)
    ensures TrackFormat(schema).valid(t) <==> |t.name| <= MAXIMUM_NAME_BYTES && (schema < 2 ==> t.color == 0)
  {}

  // ----- clips

  type ClipFields = ((u64, (u64, (u64, (u64, u64)))), (u64, (u32, (bool, Text))))

  function FromClip(c: Clip): ClipFields {
    ((c.stableId, (c.trackId, (c.sourceId, (c.startFrame, c.lengthFrames)))),
      (c.sourceOffsetFrames, (c.gain, (c.muted, c.name))))
  }

  function ToClip(f: ClipFields): Clip {
    Clip(f.0.0, f.0.1.0, f.0.1.1.0, f.0.1.1.1.0, f.0.1.1.1.1, f.1.0, f.1.1.0, f.1.1.1.0, f.1.1.1.1)
  }

  const CLIP_FIELDS: Codec<ClipFields> :=
    Pair(Five(NUMBER64, NUMBER64, NUMBER64, NUMBER64, NUMBER64), Pair(NUMBER64, Three(NUMBER32, FLAG, NAME)))

  const CLIP: Codec<Clip> := Fields(CLIP_FIELDS, (c: Clip) => FromClip(c), (f: ClipFields) => ToClip(f))

  lemma ClipIsGood()
    ensures Good(CLIP)
  {
    Number64IsGood();
    Number32IsGood();
    FlagIsGood();
    NameIsGood();
    FiveIsGood(NUMBER64, NUMBER64, NUMBER64, NUMBER64, NUMBER64);
    ThreeIsGood(NUMBER32, FLAG, NAME);
    PairIsGood(NUMBER64, Three(NUMBER32, FLAG, NAME));
    PairIsGood(Five(NUMBER64, NUMBER64, NUMBER64, NUMBER64, NUMBER64), Pair(NUMBER64, Three(NUMBER32, FLAG, NAME)));
    FieldsIsGood(CLIP_FIELDS, (c: Clip) => FromClip(c), (f: ClipFields) => ToClip(f));
  }

  lemma StorableClip(c: Clip)
    ensures CLIP.valid(c) <==> |c.name| <= MAXIMUM_NAME_BYTES
  {}

  // ----- routes

  type RouteFields = (u64, (u64, (u64, (u32, bool))))

  function FromRoute(r: Route): RouteFields {
    (r.stableId, (r.sourceTrackId, (r.destinationTrackId, (r.gain, r.enabled))))
  }

  function ToRoute(f: RouteFields): Route { Route(f.0, f.1.0, f.1.1.0, f.1.1.1.0, f.1.1.1.1) }

  const ROUTE: Codec<Route> := Fields(Five(NUMBER64, NUMBER64, NUMBER64, NUMBER32, FLAG), (r: Route) => FromRoute(r),
    (f: RouteFields) => ToRoute(f))

  lemma RouteIsGood()
    ensures Good(ROUTE)
  {
    Number64IsGood();
    Number32IsGood();
    FlagIsGood();
    FiveIsGood(NUMBER64, NUMBER64, NUMBER64, NUMBER32, FLAG);
    FieldsIsGood(Five(NUMBER64, NUMBER64, NUMBER64, NUMBER32, FLAG), (r: Route) => FromRoute(r),
      (f: RouteFields) => ToRoute(f));
  }

  lemma StorableRoute(r: Route)
    ensures ROUTE.valid(r)
  {}

  // ----- automation

  type PointFields = (u64, u32)

  const POINT: Codec<AutomationPoint> :=
    Fields(Pair(NUMBER64, NUMBER32), (p: AutomationPoint) => (p.samplePosition, p.value),
      (f: PointFields) => AutomationPoint(f.0, f.1))

  lemma PointIsGood()
    ensures Good(POINT)
  {
    Number64IsGood();
    Number32IsGood();
    PairIsGood(NUMBER64, NUMBER32);
    FieldsIsGood(Pair(NUMBER64, NUMBER32), (p: AutomationPoint) => (p.samplePosition, p.value),
      (f: PointFields) => AutomationPoint(f.0, f.1));
  }

  type LaneFields = (u64, (u64, (u32, seq<AutomationPoint>)))

  function FromLane(l: AutomationLane): LaneFields { (l.stableId, (l.targetTrackId, (l.parameter, l.points))) }
  function ToLane(f: LaneFields): AutomationLane { AutomationLane(f.0, f.1.0, f.1.1.0, f.1.1.1) }

  const LANE_FIELDS: Codec<LaneFields> := Pair(NUMBER64, Three(NUMBER64, NUMBER32, List(POINT, MAXIMUM_POINT_COUNT)))

  const LANE: Codec<AutomationLane> := Fields(LANE_FIELDS, (l: AutomationLane) => FromLane(l),
    (f: LaneFields) => ToLane(f))

  lemma LaneIsGood()
    ensures Good(LANE)
  {
    Number64IsGood();
    Number32IsGood();
    PointIsGood();
    ListIsGood(POINT, MAXIMUM_POINT_COUNT);
    ThreeIsGood(NUMBER64, NUMBER32, List(POINT, MAXIMUM_POINT_COUNT));
    PairIsGood(NUMBER64, Three(NUMBER64, NUMBER32, List(POINT, MAXIMUM_POINT_COUNT)));
    FieldsIsGood(LANE_FIELDS, (l: AutomationLane) => FromLane(l), (f: LaneFields) => ToLane(f));
  }

  lemma StorableLane(l: AutomationLane)
    ensures LANE.valid(l) <==> |l.points| <= MAXIMUM_POINT_COUNT
  {
    assert forall p: AutomationPoint :: POINT.valid(p);
  }

  // ----- media sources

  type MediaFields = ((u64, (u64, u64)), (u32, (u32, (Text, Text))))

  function FromMedia(m: MediaSource): MediaFields {
    ((m.stableId, (m.contentHash, m.frameCount)), (m.sampleRate, (m.channelCount, (m.path, m.name))))
  }

  function ToMedia(f: MediaFields): MediaSource {
    MediaSource(f.0.0, f.0.1.0, f.0.1.1, f.1.0, f.1.1.0, f.1.1.1.0, f.1.1.1.1)
  }

  const MEDIA_FIELDS: Codec<MediaFields> := Pair(Three(NUMBER64, NUMBER64, NUMBER64),
    Pair(NUMBER32, Three(NUMBER32, NAME, NAME)))

  const MEDIA: Codec<MediaSource> := Fields(MEDIA_FIELDS, (m: MediaSource) => FromMedia(m),
    (f: MediaFields) => ToMedia(f))

  lemma MediaIsGood()
    ensures Good(MEDIA)
  {
    Number64IsGood();
    Number32IsGood();
    NameIsGood();
    ThreeIsGood(NUMBER64, NUMBER64, NUMBER64);
    ThreeIsGood(NUMBER32, NAME, NAME);
    PairIsGood(NUMBER32, Three(NUMBER32, NAME, NAME));
    PairIsGood(Three(NUMBER64, NUMBER64, NUMBER64), Pair(NUMBER32, Three(NUMBER32, NAME, NAME)));
    FieldsIsGood(MEDIA_FIELDS, (m: MediaSource) => FromMedia(m), (f: MediaFields) => ToMedia(f));
  }

  lemma StorableMedia(m: MediaSource)
    ensures MEDIA.valid(m) <==> |m.path| <= MAXIMUM_NAME_BYTES && |m.name| <= MAXIMUM_NAME_BYTES
  {}

  // ----- MIDI

  type NoteFields = (u64, (u64, (u32, (u32, u32))))

  function FromNote(n: MidiNote): NoteFields { (n.startFrame, (n.lengthFrames, (n.channel, (n.key, n.velocity)))) }
  function ToNote(f: NoteFields): MidiNote { MidiNote(f.0, f.1.0, f.1.1.0, f.1.1.1.0, f.1.1.1.1) }

  const NOTE: Codec<MidiNote> := Fields(Five(NUMBER64, NUMBER64, NUMBER32, NUMBER32, NUMBER32),
    (n: MidiNote) => FromNote(n), (f: NoteFields) => ToNote(f))

  lemma NoteIsGood()
    ensures Good(NOTE)
  {
    Number64IsGood();
    Number32IsGood();
    FiveIsGood(NUMBER64, NUMBER64, NUMBER32, NUMBER32, NUMBER32);
    FieldsIsGood(Five(NUMBER64, NUMBER64, NUMBER32, NUMBER32, NUMBER32), (n: MidiNote) => FromNote(n),
      (f: NoteFields) => ToNote(f));
  }

  type MidiFields = (u64, (Text, seq<MidiNote>))

  function FromMidi(m: MidiSequence): MidiFields { (m.stableId, (m.name, m.notes)) }
  function ToMidi(f: MidiFields): MidiSequence { MidiSequence(f.0, f.1.0, f.1.1) }

  const MIDI: Codec<MidiSequence> :=
    Fields(Three(NUMBER64, NAME, List(NOTE, MAXIMUM_NOTE_COUNT)), (m: MidiSequence) => FromMidi(m),
      (f: MidiFields) => ToMidi(f))

  lemma MidiIsGood()
    ensures Good(MIDI)
  {
    Number64IsGood();
    NameIsGood();
    NoteIsGood();
    ListIsGood(NOTE, MAXIMUM_NOTE_COUNT);
    ThreeIsGood(NUMBER64, NAME, List(NOTE, MAXIMUM_NOTE_COUNT));
    FieldsIsGood(Three(NUMBER64, NAME, List(NOTE, MAXIMUM_NOTE_COUNT)), (m: MidiSequence) => FromMidi(m),
      (f: MidiFields) => ToMidi(f));
  }

  lemma StorableMidi(m: MidiSequence)
    ensures MIDI.valid(m) <==> |m.name| <= MAXIMUM_NAME_BYTES && |m.notes| <= MAXIMUM_NOTE_COUNT
  {
    assert forall n: MidiNote :: NOTE.valid(n);
  }

  // ----- the device

  type DeviceFields = ((u32, (u32, (u32, (u32, u32)))), (Text, Text))

  function FromDevice(d: DeviceConfiguration): DeviceFields {
    ((d.backend, (d.sampleRate, (d.bufferFrames, (d.inputChannelCount, d.outputChannelCount)))),
      (d.inputDeviceId, d.outputDeviceId))
  }

  function ToDevice(f: DeviceFields): DeviceConfiguration {
    DeviceConfiguration(f.0.0, f.0.1.0, f.0.1.1.0, f.0.1.1.1.0, f.0.1.1.1.1, f.1.0, f.1.1)
  }

  const DEVICE_FIELDS: Codec<DeviceFields> := Pair(Five(NUMBER32, NUMBER32, NUMBER32, NUMBER32, NUMBER32),
    Pair(NAME, NAME))

  const DEVICE: Codec<DeviceConfiguration> :=
    Fields(DEVICE_FIELDS, (d: DeviceConfiguration) => FromDevice(d), (f: DeviceFields) => ToDevice(f))

  const DEFAULT_DEVICE := DeviceConfiguration(1, 0, 0, 0, 0, [], [])

  lemma DeviceIsGood()
    ensures Good(DEVICE)
  {
    Number32IsGood();
    NameIsGood();
    FiveIsGood(NUMBER32, NUMBER32, NUMBER32, NUMBER32, NUMBER32);
    PairIsGood(NAME, NAME);
    PairIsGood(Five(NUMBER32, NUMBER32, NUMBER32, NUMBER32, NUMBER32), Pair(NAME, NAME));
    FieldsIsGood(DEVICE_FIELDS, (d: DeviceConfiguration) => FromDevice(d), (f: DeviceFields) => ToDevice(f));
  }

  lemma StorableDevice(d: DeviceConfiguration)
    ensures DEVICE.valid(d) <==> |d.inputDeviceId| <= MAXIMUM_NAME_BYTES && |d.outputDeviceId| <= MAXIMUM_NAME_BYTES
  {}

  // ----- plugins

  type PluginStored = ((u64, (u64, (u32, (u32, bool)))), (Text, (Text, seq<byte>)))

  function FromPlugin(p: Plugin): PluginStored {
    ((p.stableId, (p.targetTrackId, (p.format, (p.slotIndex, p.bypassed)))), (p.identifier, (p.name, p.state)))
  }

  function ToPlugin(f: PluginStored): Plugin {
    Plugin(f.0.0, f.0.1.0, f.0.1.1.0, f.0.1.1.1.0, f.0.1.1.1.1, f.1.0, f.1.1.0, f.1.1.1)
  }

  const PLUGIN_FIELDS: Codec<PluginStored> :=
    Pair(Five(NUMBER64, NUMBER64, NUMBER32, NUMBER32, FLAG), Three(NAME, NAME, Blob(MAXIMUM_STATE_BYTES)))

  const PLUGIN: Codec<Plugin> := Fields(PLUGIN_FIELDS, (p: Plugin) => FromPlugin(p), (f: PluginStored) => ToPlugin(f))

  lemma PluginIsGood()
    ensures Good(PLUGIN)
  {
    Number64IsGood();
    Number32IsGood();
    FlagIsGood();
    NameIsGood();
    BlobIsGood(MAXIMUM_STATE_BYTES);
    FiveIsGood(NUMBER64, NUMBER64, NUMBER32, NUMBER32, FLAG);
    ThreeIsGood(NAME, NAME, Blob(MAXIMUM_STATE_BYTES));
    PairIsGood(Five(NUMBER64, NUMBER64, NUMBER32, NUMBER32, FLAG), Three(NAME, NAME, Blob(MAXIMUM_STATE_BYTES)));
    FieldsIsGood(PLUGIN_FIELDS, (p: Plugin) => FromPlugin(p), (f: PluginStored) => ToPlugin(f));
  }

  lemma StorablePlugin(p: Plugin)
    ensures PLUGIN.valid(p) <==>
      |p.identifier| <= MAXIMUM_NAME_BYTES && |p.name| <= MAXIMUM_NAME_BYTES && |p.state| <= MAXIMUM_STATE_BYTES
  {}
}
