/** The session document and the rules a stored document obeys. */
module SessionDocuments {
  import opened Ordered

  type byte = n: int | 0 <= n < 0x100
  type u32 = n: int | 0 <= n < 0x1_0000_0000
  type u64 = n: int | 0 <= n < 0x1_0000_0000_0000_0000

  const U32_MAX: u32 := 0xFFFF_FFFF
  const U64_MAX: u64 := 0xFFFF_FFFF_FFFF_FFFF

  /** Strings are byte strings; enumerations keep their stored number; floating-point values keep their bits. */
  type Text = seq<byte>

  datatype Track = Track(stableId: u64, kind: u32, gain: u32, color: u32, name: Text)
  datatype Clip = Clip(stableId: u64, trackId: u64, sourceId: u64, startFrame: u64, lengthFrames: u64,
                       sourceOffsetFrames: u64, gain: u32, muted: bool, name: Text)
  datatype Route = Route(stableId: u64, sourceTrackId: u64, destinationTrackId: u64, gain: u32, enabled: bool)
  datatype AutomationPoint = AutomationPoint(samplePosition: u64, value: u32)
  datatype AutomationLane = AutomationLane(stableId: u64, targetTrackId: u64, parameter: u32, points: seq<AutomationPoint>)
  datatype MediaSource = MediaSource(stableId: u64, contentHash: u64, frameCount: u64, sampleRate: u32, channelCount: u32, path: Text, name: Text)
  datatype MidiNote = MidiNote(startFrame: u64, lengthFrames: u64, channel: u32, key: u32, velocity: u32)
  datatype MidiSequence = MidiSequence(stableId: u64, name: Text, notes: seq<MidiNote>)
  datatype DeviceConfiguration = DeviceConfiguration(backend: u32, sampleRate: u32, bufferFrames: u32, inputChannelCount: u32,
                                                     outputChannelCount: u32, inputDeviceId: Text, outputDeviceId: Text)
  datatype Plugin = Plugin(stableId: u64, targetTrackId: u64, format: u32, slotIndex: u32, bypassed: bool, identifier: Text, name: Text, state: seq<byte>)

  datatype SessionDocument = SessionDocument(
    revision: u64,
    sampleRate: u32,
    tempo: u64,
    tracks: seq<Track>,
    clips: seq<Clip>,
    routes: seq<Route>,
    automationLanes: seq<AutomationLane>,
    mediaSources: seq<MediaSource>,
    midiSequences: seq<MidiSequence>,
    plugins: seq<Plugin>,
    device: DeviceConfiguration
  )

  const MAXIMUM_TRACK_COUNT := 100_000
  const MAXIMUM_CLIP_COUNT := 1_000_000
  const MAXIMUM_ROUTE_COUNT := 1_000_000
  const MAXIMUM_LANE_COUNT := 100_000
  const MAXIMUM_POINT_COUNT := 10_000_000
  const MAXIMUM_NAME_BYTES := 4_096
  const MAXIMUM_MEDIA_SOURCE_COUNT := 1_000_000
  const MAXIMUM_MIDI_SEQUENCE_COUNT := 1_000_000
  const MAXIMUM_NOTE_COUNT := 10_000_000
  const MAXIMUM_PLUGIN_COUNT := 100_000
  const MAXIMUM_CHANNEL_COUNT := 1_024
  const MAXIMUM_BUFFER_FRAMES := 65_536
  const MAXIMUM_STATE_BYTES := 16_777_216
  const MAXIMUM_TOTAL_STATE_BYTES := 268_435_456

  // ----- IEEE 754 values by their bits

  predicate FiniteFloat(bits: u32) {
    (bits / 0x80_0000) % 0x100 != 0xFF
  }

  /** Finite, greater than zero and at most 1000: positive doubles are ordered like their bits. */
  predicate ValidTempo(bits: u64) {
    0 < bits <= 0x408F_4000_0000_0000
  }

  /** Finite, greater than zero and at most one. */
  predicate ValidVelocity(bits: u32) {
    0 < bits <= 0x3F80_0000
  }

  predicate IsNaN(bits: u64) {
    (bits / 0x10_0000_0000_0000) % 0x800 == 0x7FF && bits % 0x10_0000_0000_0000 != 0
  }

  /** `==` on doubles: unordered values differ from everything, the two zeros are equal. */
  predicate DoubleEquals(a: u64, b: u64) {
    !IsNaN(a) && !IsNaN(b) && (a == b || (a % 0x8000_0000_0000_0000 == 0 && b % 0x8000_0000_0000_0000 == 0))
  }

  // ----- validation

  function TrackIds(d: SessionDocument): set<u64> {
    set t | t in d.tracks :: t.stableId
  }

  function SourceIds(d: SessionDocument): set<u64> {
    (set s | s in d.mediaSources :: s.stableId) + (set s | s in d.midiSequences :: s.stableId)
  }

  function IdsOfTracks(s: seq<Track>): seq<u64> { seq(|s|, k requires 0 <= k < |s| => s[k].stableId) }
  function IdsOfClips(s: seq<Clip>): seq<u64> { seq(|s|, k requires 0 <= k < |s| => s[k].stableId) }
  function IdsOfRoutes(s: seq<Route>): seq<u64> { seq(|s|, k requires 0 <= k < |s| => s[k].stableId) }
  function IdsOfLanes(s: seq<AutomationLane>): seq<u64> { seq(|s|, k requires 0 <= k < |s| => s[k].stableId) }
  function IdsOfMedia(s: seq<MediaSource>): seq<u64> { seq(|s|, k requires 0 <= k < |s| => s[k].stableId) }
  function IdsOfMidi(s: seq<MidiSequence>): seq<u64> { seq(|s|, k requires 0 <= k < |s| => s[k].stableId) }
  function IdsOfPlugins(s: seq<Plugin>): seq<u64> { seq(|s|, k requires 0 <= k < |s| => s[k].stableId) }

  /** The identities of everything that is not a track. */
  function OtherIds(d: SessionDocument): seq<u64> {
    IdsOfMedia(d.mediaSources) + IdsOfMidi(d.midiSequences) + IdsOfClips(d.clips) + IdsOfRoutes(d.routes)
    + IdsOfLanes(d.automationLanes) + IdsOfPlugins(d.plugins)
  }

  /** All identities, in the order in which validation meets them. */
  function StableIds(d: SessionDocument): seq<u64> {
    IdsOfTracks(d.tracks) + OtherIds(d)
  }

  predicate ValidOptionalSampleRate(rate: u32) {
    rate == 0 || 8_000 <= rate <= 768_000
  }

  predicate ValidTrack(t: Track) {
    1 <= t.kind <= 5 && FiniteFloat(t.gain) && |t.name| <= MAXIMUM_NAME_BYTES
  }

  predicate ValidMediaSource(s: MediaSource) {
    && ValidOptionalSampleRate(s.sampleRate) && s.channelCount <= MAXIMUM_CHANNEL_COUNT
    && |s.path| <= MAXIMUM_NAME_BYTES && |s.name| <= MAXIMUM_NAME_BYTES
  }

  predicate ValidNote(n: MidiNote) {
    n.lengthFrames != 0 && n.startFrame + n.lengthFrames <= U64_MAX && n.channel <= 15 && n.key <= 127
      && ValidVelocity(n.velocity)
  }

  predicate NoteLess(a: MidiNote, b: MidiNote) {
    if a.startFrame != b.startFrame then a.startFrame < b.startFrame
    else if a.channel != b.channel then a.channel < b.channel
    else a.key < b.key
  }

  predicate ValidMidiSequence(s: MidiSequence) {
    && |s.name| <= MAXIMUM_NAME_BYTES
    && (forall k :: 0 <= k < |s.notes| ==> ValidNote(s.notes[k]))
    && (forall k :: 0 < k < |s.notes| ==> NoteLess(s.notes[k - 1], s.notes[k]))
  }

  predicate ValidClip(c: Clip, trackIds: set<u64>, sourceIds: set<u64>) {
    && c.trackId in trackIds && c.sourceId in sourceIds
    && c.lengthFrames != 0 && c.startFrame + c.lengthFrames <= U64_MAX
    && FiniteFloat(c.gain) && |c.name| <= MAXIMUM_NAME_BYTES
  }

  predicate ValidRoute(r: Route, trackIds: set<u64>) {
    r.sourceTrackId in trackIds && r.destinationTrackId in trackIds && r.sourceTrackId != r.destinationTrackId
      && FiniteFloat(r.gain)
  }

  predicate ValidLane(l: AutomationLane, trackIds: set<u64>) {
    && l.targetTrackId in trackIds && 1 <= l.parameter <= 3
    && (forall k :: 0 <= k < |l.points| ==> FiniteFloat(l.points[k].value))
    && (forall k :: 0 < k < |l.points| ==> l.points[k - 1].samplePosition < l.points[k].samplePosition)
  }

  predicate ValidPlugin(p: Plugin, trackIds: set<u64>) {
    && p.targetTrackId in trackIds && 1 <= p.format <= 3
    && 1 <= |p.identifier| <= MAXIMUM_NAME_BYTES && |p.name| <= MAXIMUM_NAME_BYTES && |p.state| <= MAXIMUM_STATE_BYTES
  }

  predicate ValidDevice(d: DeviceConfiguration) {
    && 1 <= d.backend <= 6 && ValidOptionalSampleRate(d.sampleRate)
    && d.bufferFrames <= MAXIMUM_BUFFER_FRAMES
    && d.inputChannelCount <= MAXIMUM_CHANNEL_COUNT && d.outputChannelCount <= MAXIMUM_CHANNEL_COUNT
    && |d.inputDeviceId| <= MAXIMUM_NAME_BYTES && |d.outputDeviceId| <= MAXIMUM_NAME_BYTES
    && (d.backend == 1 ==> d.inputDeviceId == [] && d.outputDeviceId == [])
  }

  function NoteTotal(s: seq<MidiSequence>): nat {
    if s == [] then 0 else NoteTotal(s[..|s| - 1]) + |s[|s| - 1].notes|
  }

  function PointTotal(s: seq<AutomationLane>): nat {
    if s == [] then 0 else PointTotal(s[..|s| - 1]) + |s[|s| - 1].points|
  }

  function StateTotal(s: seq<Plugin>): nat {
    if s == [] then 0 else StateTotal(s[..|s| - 1]) + |s[|s| - 1].state|
  }

  predicate WithinLimits(d: SessionDocument) {
    && |d.tracks| <= MAXIMUM_TRACK_COUNT
    && |d.clips| <= MAXIMUM_CLIP_COUNT && |d.routes| <= MAXIMUM_ROUTE_COUNT
    && |d.automationLanes| <= MAXIMUM_LANE_COUNT && PointTotal(d.automationLanes) <= MAXIMUM_POINT_COUNT
    && |d.mediaSources| <= MAXIMUM_MEDIA_SOURCE_COUNT
    && |d.midiSequences| <= MAXIMUM_MIDI_SEQUENCE_COUNT && NoteTotal(d.midiSequences) <= MAXIMUM_NOTE_COUNT
    && |d.plugins| <= MAXIMUM_PLUGIN_COUNT && StateTotal(d.plugins) <= MAXIMUM_TOTAL_STATE_BYTES
  }

  /** Identities are non-zero and globally unique. */
  ghost predicate UniqueIds(d: SessionDocument) {
    Distinct(StableIds(d)) && 0 !in StableIds(d)
  }

  ghost predicate ValidHeader(d: SessionDocument) {
    d.revision != 0 && 8_000 <= d.sampleRate <= 768_000 && ValidTempo(d.tempo)
  }

  /** Everything but the tracks is well formed and refers to existing tracks and sources. */
  ghost predicate ValidReferences(d: SessionDocument, trackIds: set<u64>, sourceIds: set<u64>) {
    && (forall k :: 0 <= k < |d.clips| ==> ValidClip(d.clips[k], trackIds, sourceIds))
    && (forall k :: 0 <= k < |d.routes| ==> ValidRoute(d.routes[k], trackIds))
    && (forall k :: 0 <= k < |d.automationLanes| ==> ValidLane(d.automationLanes[k], trackIds))
    && (forall k :: 0 <= k < |d.plugins| ==> ValidPlugin(d.plugins[k], trackIds))
  }

  ghost predicate ValidEntities(d: SessionDocument) {
    && (forall k :: 0 <= k < |d.tracks| ==> ValidTrack(d.tracks[k]))
    && (forall k :: 0 <= k < |d.mediaSources| ==> ValidMediaSource(d.mediaSources[k]))
    && (forall k :: 0 <= k < |d.midiSequences| ==> ValidMidiSequence(d.midiSequences[k]))
    && ValidReferences(d, TrackIds(d), SourceIds(d))
    && (forall i, j :: 0 <= i < j < |d.plugins| ==>
          d.plugins[i].targetTrackId != d.plugins[j].targetTrackId || d.plugins[i].slotIndex != d.plugins[j].slotIndex)
    && ValidDevice(d.device)
  }

  /** What validation accepts. */
  ghost predicate ValidDocument(d: SessionDocument) {
    ValidHeader(d) && WithinLimits(d) && UniqueIds(d) && ValidEntities(d)
  }

  /** The content of a document: everything but its revision. */
  function Content(d: SessionDocument): SessionDocument {
    d.(revision := 1)
  }
}
