/** The bytes of a stored session document, written out field by field: little-endian numbers, byte strings behind
    their length, lists behind their count, section after section. */
module DocumentLayout {
  import opened SessionDocuments
  import opened Bytes
  import opened Codecs
  import opened DocumentFormat
  import opened DocumentCodec
  import opened SessionCodec
  import opened Ordered

  // ----- the layout

  function Bit(b: bool): seq<byte> { [if b then 1 else 0, 0, 0, 0] }

  function Sized(s: seq<byte>): seq<byte> { Bytes4(|s|) + s }

  function Each<T>(bytes: T -> seq<byte>, xs: seq<T>): seq<byte> {
    if xs == [] then [] else bytes(xs[0]) + Each(bytes, xs[1..])
  }

  function Counted<T>(bytes: T -> seq<byte>, xs: seq<T>): seq<byte> { Bytes4(|xs|) + Each(bytes, xs) }

  function TrackBytes(schema: u32, t: Track): seq<byte> {
    Bytes8(t.stableId) + Bytes4(t.kind) + Bytes4(t.gain) + (if schema >= 2 then Bytes4(t.color) else [])
    + Sized(t.name)
  }

  function ClipBytes(c: Clip): seq<byte> {
    Bytes8(c.stableId) + Bytes8(c.trackId) + Bytes8(c.sourceId) + Bytes8(c.startFrame) + Bytes8(c.lengthFrames)
    + Bytes8(c.sourceOffsetFrames) + Bytes4(c.gain) + Bit(c.muted) + Sized(c.name)
  }

  function RouteBytes(r: Route): seq<byte> {
    Bytes8(r.stableId) + Bytes8(r.sourceTrackId) + Bytes8(r.destinationTrackId) + Bytes4(r.gain) + Bit(r.enabled)
  }

  function PointBytes(p: AutomationPoint): seq<byte> { Bytes8(p.samplePosition) + Bytes4(p.value) }

  function LaneBytes(l: AutomationLane): seq<byte> {
    Bytes8(l.stableId) + Bytes8(l.targetTrackId) + Bytes4(l.parameter)
    + Counted((p: AutomationPoint) => PointBytes(p), l.points)
  }

  function MediaBytes(m: MediaSource): seq<byte> {
    Bytes8(m.stableId) + Bytes8(m.contentHash) + Bytes8(m.frameCount) + Bytes4(m.sampleRate) + Bytes4(m.channelCount)
    + Sized(m.path) + Sized(m.name)
  }

  function NoteBytes(n: MidiNote): seq<byte> {
    Bytes8(n.startFrame) + Bytes8(n.lengthFrames) + Bytes4(n.channel) + Bytes4(n.key) + Bytes4(n.velocity)
  }

  function MidiBytes(m: MidiSequence): seq<byte> {
    Bytes8(m.stableId) + Sized(m.name) + Counted((n: MidiNote) => NoteBytes(n), m.notes)
  }

  function DeviceBytes(d: DeviceConfiguration): seq<byte> {
    Bytes4(d.backend) + Bytes4(d.sampleRate) + Bytes4(d.bufferFrames) + Bytes4(d.inputChannelCount)
    + Bytes4(d.outputChannelCount) + Sized(d.inputDeviceId) + Sized(d.outputDeviceId)
  }

  function PluginBytes(p: Plugin): seq<byte> {
    Bytes8(p.stableId) + Bytes8(p.targetTrackId) + Bytes4(p.format) + Bytes4(p.slotIndex) + Bit(p.bypassed)
    + Sized(p.identifier) + Sized(p.name) + Sized(p.state)
  }

  function HeaderBytes(schema: u32, d: SessionDocument): seq<byte> {
    Bytes8(d.revision) + (if schema >= 2 then Bytes4(d.sampleRate) else []) + Bytes8(d.tempo)
  }

  /** From schema 3 on. */
  function ArrangementBytes(d: SessionDocument): seq<byte> {
    Counted((c: Clip) => ClipBytes(c), d.clips) + Counted((r: Route) => RouteBytes(r), d.routes)
    + Counted((l: AutomationLane) => LaneBytes(l), d.automationLanes)
  }

  /** From schema 4 on. */
  function ResourceBytes(d: SessionDocument): seq<byte> {
    Counted((m: MediaSource) => MediaBytes(m), d.mediaSources) + EquipmentBytes(d)
  }

  function EquipmentBytes(d: SessionDocument): seq<byte> {
    Counted((m: MidiSequence) => MidiBytes(m), d.midiSequences) + DeviceBytes(d.device)
    + Counted((p: Plugin) => PluginBytes(p), d.plugins)
  }

  function DocumentBytes(schema: u32, d: SessionDocument): seq<byte> {
    [0x49, 0x52, 0x53, 0x44] + Bytes4(schema) + HeaderBytes(schema, d)
    + Counted((t: Track) => TrackBytes(schema, t), d.tracks)
    + (if schema >= 3 then ArrangementBytes(d) else []) + (if schema >= 4 then ResourceBytes(d) else [])
  }

  // ----- parts

  lemma Flat3<T>(a: seq<T>, b: seq<T>, c: seq<T>)
    ensures a + (b + c) == a + b + c
  {}

  lemma Flat4<T>(a: seq<T>, b: seq<T>, c: seq<T>, d: seq<T>)
    ensures a + (b + (c + d)) == a + b + c + d
  {
    Flat3(b, c, d);
  }

  lemma Flat5<T>(a: seq<T>, b: seq<T>, c: seq<T>, d: seq<T>, e: seq<T>)
    ensures a + (b + (c + (d + e))) == a + b + c + d + e
  {
    Flat4(b, c, d, e);
  }

  lemma NameLayout(limit: nat, s: seq<byte>)
    requires |s| <= U32_MAX
    ensures Blob(limit).encode(s) == Sized(s)
  {
    FourBytes(|s|);
  }

  lemma BitLayout(b: bool)
    ensures FLAG.encode(b) == Bit(b)
  {
    FourBytes(if b then 1 else 0);
  }

  lemma {:induction false} EachLayout<T>(c: Codec<T>, bytes: T -> seq<byte>, xs: seq<T>)
    requires forall k :: 0 <= k < |xs| ==> c.encode(xs[k]) == bytes(xs[k])
    ensures EncodeItems(c, xs) == Each(bytes, xs)
  {
    if xs != [] {
      assert c.encode(xs[0]) == bytes(xs[0]);
      EachLayout(c, bytes, xs[1..]);
    }
  }

  lemma ListLayout<T>(c: Codec<T>, limit: nat, bytes: T -> seq<byte>, xs: seq<T>)
    requires |xs| <= U32_MAX && forall k :: 0 <= k < |xs| ==> c.encode(xs[k]) == bytes(xs[k])
    ensures List(c, limit).encode(xs) == Counted(bytes, xs)
  {
    ListEncoding(c, limit, xs);
    FourBytes(|xs|);
    EachLayout(c, bytes, xs);
  }

  lemma NumberLayout()
    ensures forall v: u32 :: NUMBER32.encode(v) == Bytes4(v)
    ensures forall v: u64 :: NUMBER64.encode(v) == Bytes8(v)
  {
    forall v: u32 ensures NUMBER32.encode(v) == Bytes4(v) { FourBytes(v); }
    forall v: u64 ensures NUMBER64.encode(v) == Bytes8(v) { EightBytes(v); }
  }

  // ----- entities

  lemma TrackLayout(schema: u32, t: Track)
    requires |t.name| <= U32_MAX
    ensures TrackFormat(schema).encode(t) == TrackBytes(schema, t)
  {
    var color := Since(2, schema, NUMBER32, 0);
    NumberLayout();
    NameLayout(MAXIMUM_NAME_BYTES, t.name);
    SinceEncoding(2, schema, NUMBER32, 0, t.color);
    FiveEncoding(NUMBER64, NUMBER32, NUMBER32, color, NAME, t.stableId, t.kind, t.gain, t.color, t.name);
    FieldsEncoding(Five(NUMBER64, NUMBER32, NUMBER32, color, NAME), (t: Track) => FromTrack(t),
      (f: TrackFields) => ToTrack(f), t);
    Flat5(Bytes8(t.stableId), Bytes4(t.kind), Bytes4(t.gain), color.encode(t.color), Sized(t.name));
  }

  lemma ClipHeadLayout(c: Clip)
    ensures Five(NUMBER64, NUMBER64, NUMBER64, NUMBER64, NUMBER64).encode(FromClip(c).0)
         == Bytes8(c.stableId) + Bytes8(c.trackId) + Bytes8(c.sourceId) + Bytes8(c.startFrame) + Bytes8(c.lengthFrames)
  {
    NumberLayout();
    FiveEncoding(NUMBER64, NUMBER64, NUMBER64, NUMBER64, NUMBER64, c.stableId, c.trackId, c.sourceId, c.startFrame,
      c.lengthFrames);
    Flat5(Bytes8(c.stableId), Bytes8(c.trackId), Bytes8(c.sourceId), Bytes8(c.startFrame), Bytes8(c.lengthFrames));
  }

  lemma ClipTailLayout(c: Clip)
    requires |c.name| <= U32_MAX
    ensures Pair(NUMBER64, Three(NUMBER32, FLAG, NAME)).encode(FromClip(c).1)
         == Bytes8(c.sourceOffsetFrames) + (Bytes4(c.gain) + (Bit(c.muted) + Sized(c.name)))
  {
    NumberLayout();
    BitLayout(c.muted);
    NameLayout(MAXIMUM_NAME_BYTES, c.name);
    ThreeEncoding(NUMBER32, FLAG, NAME, c.gain, c.muted, c.name, Bytes4(c.gain), Bit(c.muted), Sized(c.name));
    PairEncoding(NUMBER64, Three(NUMBER32, FLAG, NAME), c.sourceOffsetFrames, (c.gain, (c.muted, c.name)));
  }

  lemma ClipLayout(c: Clip)
    requires |c.name| <= U32_MAX
    ensures CLIP.encode(c) == ClipBytes(c)
  {
    ClipHeadLayout(c);
    ClipTailLayout(c);
    PairEncoding(Five(NUMBER64, NUMBER64, NUMBER64, NUMBER64, NUMBER64), Pair(NUMBER64, Three(NUMBER32, FLAG, NAME)),
      FromClip(c).0, FromClip(c).1);
    FieldsEncoding(CLIP_FIELDS, (c: Clip) => FromClip(c), (f: ClipFields) => ToClip(f), c);
    Flat5(Bytes8(c.stableId) + Bytes8(c.trackId) + Bytes8(c.sourceId) + Bytes8(c.startFrame) + Bytes8(c.lengthFrames),
      Bytes8(c.sourceOffsetFrames), Bytes4(c.gain), Bit(c.muted), Sized(c.name));
  }

  lemma RouteLayout(r: Route)
    ensures ROUTE.encode(r) == RouteBytes(r)
  {
    NumberLayout();
    BitLayout(r.enabled);
    FiveEncoding(NUMBER64, NUMBER64, NUMBER64, NUMBER32, FLAG, r.stableId, r.sourceTrackId, r.destinationTrackId,
      r.gain, r.enabled);
    FieldsEncoding(Five(NUMBER64, NUMBER64, NUMBER64, NUMBER32, FLAG), (r: Route) => FromRoute(r),
      (f: RouteFields) => ToRoute(f), r);
    Flat5(Bytes8(r.stableId), Bytes8(r.sourceTrackId), Bytes8(r.destinationTrackId), Bytes4(r.gain), Bit(r.enabled));
  }

  lemma PointLayout(p: AutomationPoint)
    ensures POINT.encode(p) == PointBytes(p)
  {
    NumberLayout();
    PairEncoding(NUMBER64, NUMBER32, p.samplePosition, p.value);
    FieldsEncoding(Pair(NUMBER64, NUMBER32), (p: AutomationPoint) => (p.samplePosition, p.value),
      (f: PointFields) => AutomationPoint(f.0, f.1), p);
  }

  lemma PointsLayout(points: seq<AutomationPoint>)
    requires |points| <= U32_MAX
    ensures List(POINT, MAXIMUM_POINT_COUNT).encode(points) == Counted((p: AutomationPoint) => PointBytes(p), points)
  {
    var bytes := (p: AutomationPoint) => PointBytes(p);
    forall k | 0 <= k < |points| ensures POINT.encode(points[k]) == bytes(points[k]) { PointLayout(points[k]); }
    ListLayout(POINT, MAXIMUM_POINT_COUNT, bytes, points);
  }

  lemma LaneLayout(l: AutomationLane)
    requires |l.points| <= U32_MAX
    ensures LANE.encode(l) == LaneBytes(l)
  {
    var points := List(POINT, MAXIMUM_POINT_COUNT);
    NumberLayout();
    PointsLayout(l.points);
    ThreeEncoding(NUMBER64, NUMBER32, points, l.targetTrackId, l.parameter, l.points, Bytes8(l.targetTrackId),
      Bytes4(l.parameter), points.encode(l.points));
    PairEncoding(NUMBER64, Three(NUMBER64, NUMBER32, points), l.stableId, FromLane(l).1);
    FieldsEncoding(LANE_FIELDS, (l: AutomationLane) => FromLane(l), (f: LaneFields) => ToLane(f), l);
    Flat4(Bytes8(l.stableId), Bytes8(l.targetTrackId), Bytes4(l.parameter), points.encode(l.points));
  }

  lemma MediaLayout(m: MediaSource)
    requires |m.path| <= U32_MAX && |m.name| <= U32_MAX
    ensures MEDIA.encode(m) == MediaBytes(m)
  {
    var head, tail := Three(NUMBER64, NUMBER64, NUMBER64), Three(NUMBER32, NAME, NAME);
    NumberLayout();
    NameLayout(MAXIMUM_NAME_BYTES, m.path);
    NameLayout(MAXIMUM_NAME_BYTES, m.name);
    ThreeEncoding(NUMBER64, NUMBER64, NUMBER64, m.stableId, m.contentHash, m.frameCount, Bytes8(m.stableId),
      Bytes8(m.contentHash), Bytes8(m.frameCount));
    ThreeEncoding(NUMBER32, NAME, NAME, m.channelCount, m.path, m.name, Bytes4(m.channelCount), Sized(m.path),
      Sized(m.name));
    PairEncoding(NUMBER32, tail, m.sampleRate, FromMedia(m).1.1);
    PairEncoding(head, Pair(NUMBER32, tail), FromMedia(m).0, FromMedia(m).1);
    FieldsEncoding(MEDIA_FIELDS, (m: MediaSource) => FromMedia(m), (f: MediaFields) => ToMedia(f), m);
    Flat3(Bytes8(m.stableId), Bytes8(m.contentHash), Bytes8(m.frameCount));
    Flat5(Bytes8(m.stableId) + Bytes8(m.contentHash) + Bytes8(m.frameCount), Bytes4(m.sampleRate),
      Bytes4(m.channelCount), Sized(m.path), Sized(m.name));
  }

  lemma NoteLayout(n: MidiNote)
    ensures NOTE.encode(n) == NoteBytes(n)
  {
    NumberLayout();
    FiveEncoding(NUMBER64, NUMBER64, NUMBER32, NUMBER32, NUMBER32, n.startFrame, n.lengthFrames, n.channel, n.key,
      n.velocity);
    FieldsEncoding(Five(NUMBER64, NUMBER64, NUMBER32, NUMBER32, NUMBER32), (n: MidiNote) => FromNote(n),
      (f: NoteFields) => ToNote(f), n);
    Flat5(Bytes8(n.startFrame), Bytes8(n.lengthFrames), Bytes4(n.channel), Bytes4(n.key), Bytes4(n.velocity));
  }

  lemma NotesLayout(notes: seq<MidiNote>)
    requires |notes| <= U32_MAX
    ensures List(NOTE, MAXIMUM_NOTE_COUNT).encode(notes) == Counted((n: MidiNote) => NoteBytes(n), notes)
  {
    var bytes := (n: MidiNote) => NoteBytes(n);
    forall k | 0 <= k < |notes| ensures NOTE.encode(notes[k]) == bytes(notes[k]) { NoteLayout(notes[k]); }
    ListLayout(NOTE, MAXIMUM_NOTE_COUNT, bytes, notes);
  }

  lemma MidiLayout(m: MidiSequence)
    requires |m.name| <= U32_MAX && |m.notes| <= U32_MAX
    ensures MIDI.encode(m) == MidiBytes(m)
  {
    var notes := List(NOTE, MAXIMUM_NOTE_COUNT);
    NumberLayout();
    NameLayout(MAXIMUM_NAME_BYTES, m.name);
    NotesLayout(m.notes);
    ThreeEncoding(NUMBER64, NAME, notes, m.stableId, m.name, m.notes, Bytes8(m.stableId), Sized(m.name),
      notes.encode(m.notes));
    FieldsEncoding(Three(NUMBER64, NAME, notes), (m: MidiSequence) => FromMidi(m), (f: MidiFields) => ToMidi(f), m);
    Flat3(Bytes8(m.stableId), Sized(m.name), notes.encode(m.notes));
  }

  lemma DeviceLayout(d: DeviceConfiguration)
    requires |d.inputDeviceId| <= U32_MAX && |d.outputDeviceId| <= U32_MAX
    ensures DEVICE.encode(d) == DeviceBytes(d)
  {
    var head := Five(NUMBER32, NUMBER32, NUMBER32, NUMBER32, NUMBER32);
    NumberLayout();
    NameLayout(MAXIMUM_NAME_BYTES, d.inputDeviceId);
    NameLayout(MAXIMUM_NAME_BYTES, d.outputDeviceId);
    FiveEncoding(NUMBER32, NUMBER32, NUMBER32, NUMBER32, NUMBER32, d.backend, d.sampleRate, d.bufferFrames,
      d.inputChannelCount, d.outputChannelCount);
    PairEncoding(NAME, NAME, d.inputDeviceId, d.outputDeviceId);
    PairEncoding(head, Pair(NAME, NAME), FromDevice(d).0, FromDevice(d).1);
    FieldsEncoding(DEVICE_FIELDS, (d: DeviceConfiguration) => FromDevice(d), (f: DeviceFields) => ToDevice(f), d);
    Flat5(Bytes4(d.backend), Bytes4(d.sampleRate), Bytes4(d.bufferFrames), Bytes4(d.inputChannelCount),
      Bytes4(d.outputChannelCount));
    Flat3(Bytes4(d.backend) + Bytes4(d.sampleRate) + Bytes4(d.bufferFrames) + Bytes4(d.inputChannelCount)
      + Bytes4(d.outputChannelCount), Sized(d.inputDeviceId), Sized(d.outputDeviceId));
  }

  lemma PluginLayout(p: Plugin)
    requires |p.identifier| <= U32_MAX && |p.name| <= U32_MAX && |p.state| <= U32_MAX
    ensures PLUGIN.encode(p) == PluginBytes(p)
  {
    var head, state := Five(NUMBER64, NUMBER64, NUMBER32, NUMBER32, FLAG), Blob(MAXIMUM_STATE_BYTES);
    NumberLayout();
    BitLayout(p.bypassed);
    NameLayout(MAXIMUM_NAME_BYTES, p.identifier);
    NameLayout(MAXIMUM_NAME_BYTES, p.name);
    NameLayout(MAXIMUM_STATE_BYTES, p.state);
    FiveEncoding(NUMBER64, NUMBER64, NUMBER32, NUMBER32, FLAG, p.stableId, p.targetTrackId, p.format, p.slotIndex,
      p.bypassed);
    ThreeEncoding(NAME, NAME, state, p.identifier, p.name, p.state, Sized(p.identifier), Sized(p.name), Sized(p.state));
    PairEncoding(head, Three(NAME, NAME, state), FromPlugin(p).0, FromPlugin(p).1);
    FieldsEncoding(PLUGIN_FIELDS, (p: Plugin) => FromPlugin(p), (f: PluginStored) => ToPlugin(f), p);
    Flat5(Bytes8(p.stableId), Bytes8(p.targetTrackId), Bytes4(p.format), Bytes4(p.slotIndex), Bit(p.bypassed));
    Flat4(Bytes8(p.stableId) + Bytes8(p.targetTrackId) + Bytes4(p.format) + Bytes4(p.slotIndex) + Bit(p.bypassed),
      Sized(p.identifier), Sized(p.name), Sized(p.state));
  }

  // ----- sections

  lemma HeaderLayout(schema: u32, d: SessionDocument)
    ensures HeaderFormat(schema).encode((d.revision, (d.sampleRate, d.tempo))) == HeaderBytes(schema, d)
  {
    var rate := Since(2, schema, NUMBER32, MIGRATED_SAMPLE_RATE);
    NumberLayout();
    SinceEncoding(2, schema, NUMBER32, MIGRATED_SAMPLE_RATE, d.sampleRate);
    ThreeEncoding(NUMBER64, rate, NUMBER64, d.revision, d.sampleRate, d.tempo, Bytes8(d.revision),
      rate.encode(d.sampleRate), Bytes8(d.tempo));
    Flat3(Bytes8(d.revision), rate.encode(d.sampleRate), Bytes8(d.tempo));
  }

  lemma TracksLayout(schema: u32, tracks: seq<Track>)
    requires StorableList(0, schema, TrackFormat(schema), MAXIMUM_TRACK_COUNT, tracks)
    ensures TracksFormat(schema).encode(tracks) == Counted((t: Track) => TrackBytes(schema, t), tracks)
  {
    var bytes := (t: Track) => TrackBytes(schema, t);
    forall k | 0 <= k < |tracks| ensures TrackFormat(schema).encode(tracks[k]) == bytes(tracks[k]) {
      StorableTrack(schema, tracks[k]);
      TrackLayout(schema, tracks[k]);
    }
    ListLayout(TrackFormat(schema), MAXIMUM_TRACK_COUNT, bytes, tracks);
  }

  lemma {:induction false} EachSame<T>(bytes: T -> seq<byte>, xs: seq<T>, ys: seq<T>)
    requires |xs| == |ys| && forall k :: 0 <= k < |xs| ==> bytes(xs[k]) == bytes(ys[k])
    ensures Each(bytes, xs) == Each(bytes, ys)
  {
    if xs != [] {
      assert bytes(xs[0]) == bytes(ys[0]);
      EachSame(bytes, xs[1..], ys[1..]);
    }
  }

  lemma StrippedTrackBytes(schema: u32, d: SessionDocument)
    ensures Counted((t: Track) => TrackBytes(schema, t), Strip(schema, d).tracks)
         == Counted((t: Track) => TrackBytes(schema, t), d.tracks)
  {
    var bytes := (t: Track) => TrackBytes(schema, t);
    EachSame(bytes, Strip(schema, d).tracks, d.tracks);
  }

  lemma ClipsLayout(clips: seq<Clip>)
    requires StorableList(3, 3, CLIP, MAXIMUM_CLIP_COUNT, clips)
    ensures List(CLIP, MAXIMUM_CLIP_COUNT).encode(clips) == Counted((c: Clip) => ClipBytes(c), clips)
  {
    var bytes := (c: Clip) => ClipBytes(c);
    forall k | 0 <= k < |clips| ensures CLIP.encode(clips[k]) == bytes(clips[k]) {
      StorableClip(clips[k]);
      ClipLayout(clips[k]);
    }
    ListLayout(CLIP, MAXIMUM_CLIP_COUNT, bytes, clips);
  }

  lemma RoutesLayout(routes: seq<Route>)
    requires |routes| <= U32_MAX
    ensures List(ROUTE, MAXIMUM_ROUTE_COUNT).encode(routes) == Counted((r: Route) => RouteBytes(r), routes)
  {
    var bytes := (r: Route) => RouteBytes(r);
    forall k | 0 <= k < |routes| ensures ROUTE.encode(routes[k]) == bytes(routes[k]) { RouteLayout(routes[k]); }
    ListLayout(ROUTE, MAXIMUM_ROUTE_COUNT, bytes, routes);
  }

  lemma LanesLayout(lanes: seq<AutomationLane>)
    requires StorableList(3, 3, LANE, MAXIMUM_LANE_COUNT, lanes)
    ensures List(LANE, MAXIMUM_LANE_COUNT).encode(lanes) == Counted((l: AutomationLane) => LaneBytes(l), lanes)
  {
    var bytes := (l: AutomationLane) => LaneBytes(l);
    forall k | 0 <= k < |lanes| ensures LANE.encode(lanes[k]) == bytes(lanes[k]) {
      StorableLane(lanes[k]);
      LaneLayout(lanes[k]);
    }
    ListLayout(LANE, MAXIMUM_LANE_COUNT, bytes, lanes);
  }

  lemma SourcesLayout(sources: seq<MediaSource>)
    requires StorableList(4, 4, MEDIA, MAXIMUM_MEDIA_SOURCE_COUNT, sources)
    ensures List(MEDIA, MAXIMUM_MEDIA_SOURCE_COUNT).encode(sources)
      == Counted((m: MediaSource) => MediaBytes(m), sources)
  {
    var bytes := (m: MediaSource) => MediaBytes(m);
    forall k | 0 <= k < |sources| ensures MEDIA.encode(sources[k]) == bytes(sources[k]) {
      StorableMedia(sources[k]);
      MediaLayout(sources[k]);
    }
    ListLayout(MEDIA, MAXIMUM_MEDIA_SOURCE_COUNT, bytes, sources);
  }

  lemma SequencesLayout(sequences: seq<MidiSequence>)
    requires StorableList(4, 4, MIDI, MAXIMUM_MIDI_SEQUENCE_COUNT, sequences)
    ensures List(MIDI, MAXIMUM_MIDI_SEQUENCE_COUNT).encode(sequences)
         == Counted((m: MidiSequence) => MidiBytes(m), sequences)
  {
    var bytes := (m: MidiSequence) => MidiBytes(m);
    forall k | 0 <= k < |sequences| ensures MIDI.encode(sequences[k]) == bytes(sequences[k]) {
      StorableMidi(sequences[k]);
      MidiLayout(sequences[k]);
    }
    ListLayout(MIDI, MAXIMUM_MIDI_SEQUENCE_COUNT, bytes, sequences);
  }

  lemma PluginsLayout(plugins: seq<Plugin>)
    requires StorableList(4, 4, PLUGIN, MAXIMUM_PLUGIN_COUNT, plugins)
    ensures List(PLUGIN, MAXIMUM_PLUGIN_COUNT).encode(plugins) == Counted((p: Plugin) => PluginBytes(p), plugins)
  {
    var bytes := (p: Plugin) => PluginBytes(p);
    forall k | 0 <= k < |plugins| ensures PLUGIN.encode(plugins[k]) == bytes(plugins[k]) {
      StorablePlugin(plugins[k]);
      PluginLayout(plugins[k]);
    }
    ListLayout(PLUGIN, MAXIMUM_PLUGIN_COUNT, bytes, plugins);
  }

  lemma SinceList<T>(since: u32, schema: u32, c: Codec<T>, limit: nat, xs: seq<T>, bytes: seq<byte>)
    requires schema >= since ==> List(c, limit).encode(xs) == bytes
    ensures Since(since, schema, List(c, limit), []).encode(xs) == if schema >= since then bytes else []
  {}

  lemma ArrangementLayout(schema: u32, d: SessionDocument)
    requires StorableArrangement(schema, d)
    ensures ArrangementFormat(schema).encode((d.clips, (d.routes, d.automationLanes)))
         == if schema >= 3 then ArrangementBytes(d) else []
  {
    var clips, routes, lanes := Counted((c: Clip) => ClipBytes(c), d.clips),
      Counted((r: Route) => RouteBytes(r), d.routes), Counted((l: AutomationLane) => LaneBytes(l), d.automationLanes);
    if schema >= 3 {
      ClipsLayout(d.clips);
      RoutesLayout(d.routes);
      LanesLayout(d.automationLanes);
      Flat3(clips, routes, lanes);
    }
    SinceList(3, schema, CLIP, MAXIMUM_CLIP_COUNT, d.clips, clips);
    SinceList(3, schema, ROUTE, MAXIMUM_ROUTE_COUNT, d.routes, routes);
    SinceList(3, schema, LANE, MAXIMUM_LANE_COUNT, d.automationLanes, lanes);
    var empty: seq<byte> := [];
    ThreeEncoding(Since(3, schema, List(CLIP, MAXIMUM_CLIP_COUNT), []),
      Since(3, schema, List(ROUTE, MAXIMUM_ROUTE_COUNT), []), Since(3, schema, List(LANE, MAXIMUM_LANE_COUNT), []),
      d.clips, d.routes, d.automationLanes, if schema >= 3 then clips else empty,
      if schema >= 3 then routes else empty, if schema >= 3 then lanes else empty);
  }

  lemma StoredDevice(schema: u32, d: DeviceConfiguration)
    requires schema >= 4 ==> DEVICE.valid(d)
    ensures Since(4, schema, DEVICE, DEFAULT_DEVICE).encode(d) == if schema >= 4 then DeviceBytes(d) else []
  {
    SinceEncoding(4, schema, DEVICE, DEFAULT_DEVICE, d);
    if schema >= 4 {
      StorableDevice(d);
      DeviceLayout(d);
    }
  }

  lemma StoredLists(schema: u32, midi: seq<MidiSequence>, plugins: seq<Plugin>)
    requires StorableList(4, schema, MIDI, MAXIMUM_MIDI_SEQUENCE_COUNT, midi)
    requires StorableList(4, schema, PLUGIN, MAXIMUM_PLUGIN_COUNT, plugins)
    ensures Since(4, schema, List(MIDI, MAXIMUM_MIDI_SEQUENCE_COUNT), []).encode(midi)
         == if schema >= 4 then Counted((m: MidiSequence) => MidiBytes(m), midi) else []
    ensures Since(4, schema, List(PLUGIN, MAXIMUM_PLUGIN_COUNT), []).encode(plugins)
         == if schema >= 4 then Counted((p: Plugin) => PluginBytes(p), plugins) else []
  {
    if schema >= 4 {
      SequencesLayout(midi);
      PluginsLayout(plugins);
    }
    SinceList(4, schema, MIDI, MAXIMUM_MIDI_SEQUENCE_COUNT, midi, Counted((m: MidiSequence) => MidiBytes(m), midi));
    SinceList(4, schema, PLUGIN, MAXIMUM_PLUGIN_COUNT, plugins, Counted((p: Plugin) => PluginBytes(p), plugins));
  }

  lemma EquipmentLayout(schema: u32, d: SessionDocument)
    requires StorableResources(schema, d)
    ensures EquipmentFormat(schema).encode((d.midiSequences, (d.device, d.plugins)))
         == if schema >= 4 then EquipmentBytes(d) else []
  {
    var midi, device, plugins := Since(4, schema, List(MIDI, MAXIMUM_MIDI_SEQUENCE_COUNT), []),
      Since(4, schema, DEVICE, DEFAULT_DEVICE), Since(4, schema, List(PLUGIN, MAXIMUM_PLUGIN_COUNT), []);
    StoredLists(schema, d.midiSequences, d.plugins);
    StoredDevice(schema, d.device);
    ThreeEncoding(midi, device, plugins, d.midiSequences, d.device, d.plugins, midi.encode(d.midiSequences),
      device.encode(d.device), plugins.encode(d.plugins));
    if schema >= 4 {
      Flat3(midi.encode(d.midiSequences), DeviceBytes(d.device), plugins.encode(d.plugins));
    }
  }

  lemma ResourceLayout(schema: u32, d: SessionDocument)
    requires StorableResources(schema, d)
    ensures ResourceFormat(schema).encode((d.mediaSources, (d.midiSequences, (d.device, d.plugins))))
         == if schema >= 4 then ResourceBytes(d) else []
  {
    var media := Counted((m: MediaSource) => MediaBytes(m), d.mediaSources);
    if schema >= 4 {
      SourcesLayout(d.mediaSources);
    }
    EquipmentLayout(schema, d);
    SinceList(4, schema, MEDIA, MAXIMUM_MEDIA_SOURCE_COUNT, d.mediaSources, media);
    PairEncoding(Since(4, schema, List(MEDIA, MAXIMUM_MEDIA_SOURCE_COUNT), []), EquipmentFormat(schema), d.mediaSources,
      (d.midiSequences, (d.device, d.plugins)));
  }

  // ----- the document

  lemma Sections(schema: u32, d: SessionDocument, header: seq<byte>, tracks: seq<byte>, arrangement: seq<byte>,
    resources: seq<byte>)
    requires var e := Strip(schema, d);
      && header == HeaderFormat(schema).encode((e.revision, (e.sampleRate, e.tempo)))
      && tracks == TracksFormat(schema).encode(e.tracks)
      && arrangement == ArrangementFormat(schema).encode((e.clips, (e.routes, e.automationLanes)))
      && resources == ResourceFormat(schema).encode((e.mediaSources, (e.midiSequences, (e.device, e.plugins))))
    ensures Preamble(schema) + (header + (tracks + (arrangement + resources))) == Encode(schema, d)
  {
    BodyEncoding(schema, Strip(schema, d));
  }


  lemma StoredHeader(schema: u32, d: SessionDocument)
    ensures var e := Strip(schema, d);
      HeaderFormat(schema).encode((e.revision, (e.sampleRate, e.tempo))) == HeaderBytes(schema, d)
  {
    HeaderLayout(schema, Strip(schema, d));
  }

  lemma StoredTracks(schema: u32, d: SessionDocument)
    requires Storable(schema, Strip(schema, d)) == true
    ensures TracksFormat(schema).encode(Strip(schema, d).tracks)
      == Counted((t: Track) => TrackBytes(schema, t), d.tracks)
  {
    TracksLayout(schema, Strip(schema, d).tracks);
    StrippedTrackBytes(schema, d);
  }

  lemma StoredArrangement(schema: u32, d: SessionDocument)
    requires Storable(schema, Strip(schema, d)) == true
    ensures var e := Strip(schema, d);
      ArrangementFormat(schema).encode((e.clips, (e.routes, e.automationLanes)))
      == if schema >= 3 then ArrangementBytes(d) else []
  {
    ArrangementLayout(schema, Strip(schema, d));
  }

  lemma StoredResources(schema: u32, d: SessionDocument)
    requires Storable(schema, Strip(schema, d)) == true
    ensures var e := Strip(schema, d);
      ResourceFormat(schema).encode((e.mediaSources, (e.midiSequences, (e.device, e.plugins))))
      == if schema >= 4 then ResourceBytes(d) else []
  {
    ResourceLayout(schema, Strip(schema, d));
  }

  lemma Assembled(schema: u32, d: SessionDocument, header: seq<byte>, tracks: seq<byte>, arrangement: seq<byte>,
    resources: seq<byte>)
    requires header == HeaderBytes(schema, d)
    requires tracks == Counted((t: Track) => TrackBytes(schema, t), d.tracks)
    requires arrangement == (if schema >= 3 then ArrangementBytes(d) else [])
    requires resources == (if schema >= 4 then ResourceBytes(d) else [])
    ensures Preamble(schema) + (header + (tracks + (arrangement + resources))) == DocumentBytes(schema, d)
  {
    FourBytes(schema);
    Flat5(SESSION_MAGIC + Bytes4(schema), header, tracks, arrangement, resources);
  }

  /** What is written for a document that a schema can hold is its layout. */
  lemma EncodeLayout(schema: u32, d: SessionDocument)
    requires (ValidDocument(d) && ExportPermitted(schema, d)) == true
    ensures Encode(schema, d) == DocumentBytes(schema, d)
  {
    ValidIsStorable(schema, d);
    StoredHeader(schema, d);
    StoredTracks(schema, d);
    StoredArrangement(schema, d);
    StoredResources(schema, d);
    var e := Strip(schema, d);
    var header := HeaderFormat(schema).encode((e.revision, (e.sampleRate, e.tempo)));
    var tracks := TracksFormat(schema).encode(e.tracks);
    var arrangement := ArrangementFormat(schema).encode((e.clips, (e.routes, e.automationLanes)));
    var resources := ResourceFormat(schema).encode((e.mediaSources, (e.midiSequences, (e.device, e.plugins))));
    Sections(schema, d, header, tracks, arrangement, resources);
    Assembled(schema, d, header, tracks, arrangement, resources);
  }

  // ----- accepted bytes

  /** A valid document that a schema can hold, and the bytes that hold it. */
  ghost predicate Holds(bytes: seq<byte>, schema: u32, d: SessionDocument) {
    Permitted(schema, d) == true && bytes == DocumentBytes(schema, d)
  }

  ghost predicate Permitted(schema: u32, d: SessionDocument) { ValidDocument(d) && ExportPermitted(schema, d) }

  /** One source was mentioned before the first mention of another. */
  ghost predicate MentionedBefore(clips: seq<Clip>, id: u64, other: u64) {
    exists c :: 0 <= c < |clips| && clips[c].sourceId == id && forall e :: 0 <= e <= c ==> clips[e].sourceId != other
  }

  ghost predicate Mentions(clips: seq<Clip>, id: u64) { exists c :: c in clips && c.sourceId == id }
  ghost predicate Names(sources: seq<MediaSource>, id: u64) { exists s :: s in sources && s.stableId == id }

  /** One source of unknown content for each identity the clips mention, in the order of first mention. */
  ghost predicate Declares(clips: seq<Clip>, sources: seq<MediaSource>) {
    && (forall id :: Names(sources, id) <==> Mentions(clips, id))
    && (forall i, j :: 0 <= i < j < |sources| ==> MentionedBefore(clips, sources[i].stableId, sources[j].stableId))
    && (forall k :: 0 <= k < |sources| ==> Unknown(sources[k]))
  }

  /** What reading puts in place of what an older schema does not store. */
  ghost predicate Filled(schema: u32, d: SessionDocument) {
    && (schema < 4 ==> Declares(d.clips, d.mediaSources))
    && (schema < 2 ==> d.sampleRate == 48_000 && forall k :: 0 <= k < |d.tracks| ==> d.tracks[k].color == 0)
  }

  predicate Unknown(s: MediaSource) {
    && s.contentHash == 0 && s.frameCount == 0 && s.sampleRate == 0 && s.channelCount == 0
    && s.path == [] && s.name == []
  }

  lemma {:induction false} PlaceholdersInOrder(clips: seq<Clip>)
    ensures var s := Placeholders(clips); forall i, j :: 0 <= i < j < |s| ==>
      MentionedBefore(clips, s[i].stableId, s[j].stableId)
  {
    if clips != [] {
      var before, last := clips[..|clips| - 1], clips[|clips| - 1];
      var s, t := Placeholders(clips), Placeholders(before);
      PlaceholdersInOrder(before);
      PlaceholderIds(before);
      PlaceholdersAreMentioned(before);
      forall i, j | 0 <= i < j < |s| ensures MentionedBefore(clips, s[i].stableId, s[j].stableId) {
        if j < |t| {
          assert MentionedBefore(before, t[i].stableId, t[j].stableId);
          MentionedStill(before, last, t[i].stableId, t[j].stableId);
        } else {
          var c :| c in before && c.sourceId == t[i].stableId;
          var k :| 0 <= k < |before| && before[k] == c;
          assert clips[k] == c && forall e :: 0 <= e <= k ==> clips[e] in before;
        }
      }
    }
  }

  lemma MentionedStill(clips: seq<Clip>, last: Clip, id: u64, other: u64)
    requires MentionedBefore(clips, id, other)
    ensures MentionedBefore(clips + [last], id, other)
  {
    var c :| 0 <= c < |clips| && clips[c].sourceId == id && forall e :: 0 <= e <= c ==> clips[e].sourceId != other;
    assert (clips + [last])[c].sourceId == id;
  }

  lemma PlaceholdersDeclare(clips: seq<Clip>)
    ensures Declares(clips, Placeholders(clips))
  {
    var s := Placeholders(clips);
    PlaceholdersInOrder(clips);
    PlaceholderIds(clips);
    PlaceholdersAreMentioned(clips);
    forall id ensures Names(s, id) <==> Mentions(clips, id) {
      if Mentions(clips, id) {
        assert id in Elements(IdsOfMedia(s));
        var k :| 0 <= k < |s| && IdsOfMedia(s)[k] == id;
        assert s[k] in s;
      }
    }
  }

  lemma FilledIn(schema: u32, e: SessionDocument)
    requires Storable(schema, e) == true
    ensures Filled(schema, Migrate(schema, e))
  {
    PlaceholdersDeclare(e.clips);
    if schema < 2 { StoredColours(schema, e); }
  }

  lemma StoredColours(schema: u32, e: SessionDocument)
    requires Storable(schema, e) && schema < 2
    ensures e.sampleRate == 48_000 && forall k :: 0 <= k < |e.tracks| ==> e.tracks[k].color == 0
  {
    forall k | 0 <= k < |e.tracks| ensures e.tracks[k].color == 0 { StorableTrack(schema, e.tracks[k]); }
  }

  lemma AcceptedIsFilled(schema: u32, body: seq<byte>)
    requires DecodeBody(schema, body).Some?
    ensures Filled(schema, DecodeBody(schema, body).value)
  {
    AcceptedParts(schema, body);
    StoredBody(schema, body);
    FilledIn(schema, DecodeWhole(BodyFormat(schema), body).value);
  }

  lemma StoredBody(schema: u32, body: seq<byte>)
    requires DecodeWhole(BodyFormat(schema), body).Some?
    ensures Storable(schema, DecodeWhole(BodyFormat(schema), body).value) == true
  {
    ReadBody(schema, body);
  }

  lemma AcceptedBytes(bytes: seq<byte>)
    requires Decode(bytes).Some?
    ensures Holds(bytes, DecodeU32(bytes[4..8]), Decode(bytes).value)
  {
    AcceptedIsCanonical(bytes);
    EncodeLayout(DecodeU32(bytes[4..8]), Decode(bytes).value);
  }

  lemma ExportIsLayout(schema: u32, d: SessionDocument)
    requires Permitted(schema, d) == true
    ensures Encode(schema, d) == DocumentBytes(schema, d) && MINIMUM_SCHEMA <= schema <= CURRENT_SCHEMA
  {
    EncodeLayout(schema, d);
  }

  lemma ExportIsRead(schema: u32, d: SessionDocument) returns (e: seq<byte>, r: SessionDocument)
    requires Permitted(schema, d) == true
    ensures e == DocumentBytes(schema, d) && Decode(e) == Some(r) && (schema == 4 ==> r == d)
  {
    if schema == CURRENT_SCHEMA {
      e := CurrentRead(d);
      r := d;
    } else {
      e, r := OlderRead(schema, d);
    }
  }

  lemma CurrentRead(d: SessionDocument) returns (e: seq<byte>)
    requires Permitted(CURRENT_SCHEMA, d) == true
    ensures e == DocumentBytes(CURRENT_SCHEMA, d) && Decode(e) == Some(d)
  {
    e := Encode(CURRENT_SCHEMA, d);
    EncodeLayout(CURRENT_SCHEMA, d);
    CurrentRoundTrip(d);
  }

  lemma OlderRead(schema: u32, d: SessionDocument) returns (e: seq<byte>, r: SessionDocument)
    requires Permitted(schema, d) == true && schema != CURRENT_SCHEMA
    ensures e == DocumentBytes(schema, d) && Decode(e) == Some(r)
  {
    e, r := Encode(schema, d), Reloaded(schema, d);
    EncodeLayout(schema, d);
    LegacyReload(schema, d);
  }

  /** The layout of a document is accepted, and under the current schema it decodes to that document. */
  lemma LayoutIsAccepted(bytes: seq<byte>, schema: u32, d: SessionDocument)
    requires Holds(bytes, schema, d)
    ensures Gives(Decode(bytes), schema, d)
  {
    var e, r := ExportIsRead(schema, d);
    assert e == bytes;
  }

  ghost predicate Gives(result: Option<SessionDocument>, schema: u32, d: SessionDocument) {
    result.Some? && (schema == 4 ==> result.value == d)
  }

  /** The bytes of a document, with what its schema does not store filled in. */
  ghost predicate Stands(bytes: seq<byte>, d: SessionDocument) {
    exists schema: u32 :: Holds(bytes, schema, d) && Filled(schema, d)
  }

  lemma AcceptedStands(bytes: seq<byte>)
    requires Decode(bytes).Some?
    ensures Stands(bytes, Decode(bytes).value)
  {
    var schema := DecodeU32(bytes[4..8]);
    AcceptedBytes(bytes);
    AcceptedIsFilled(schema, bytes[8..]);
    assert Holds(bytes, schema, Decode(bytes).value) && Filled(schema, Decode(bytes).value);
  }

  /** What a reader answers: accepted bytes are the layout of the document, and every layout is accepted. */
  ghost predicate Answers(bytes: seq<byte>, result: Option<SessionDocument>) {
    && (result.Some? ==> Stands(bytes, result.value))
    && (forall schema, d :: Holds(bytes, schema, d) ==> Gives(result, schema, d))
  }

  lemma DecodedLayout(bytes: seq<byte>, result: Option<SessionDocument>)
    requires result == Decode(bytes)
    ensures Answers(bytes, result)
  {
    if result.Some? { AcceptedStands(bytes); }
    forall schema, d | Holds(bytes, schema, d) ensures Gives(result, schema, d) { LayoutIsAccepted(bytes, schema, d); }
  }
}
