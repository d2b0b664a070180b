/** The rules of a session document one by one, in numbers and by position, and that they are what validation tests. */
module DocumentRules {
  import opened SessionDocuments
  import opened FloatingPoint

  // ----- references and order

  predicate HasTrack(d: SessionDocument, id: u64) {
    exists k :: 0 <= k < |d.tracks| && d.tracks[k].stableId == id
  }

  predicate HasSource(d: SessionDocument, id: u64) {
    || (exists k :: 0 <= k < |d.mediaSources| && d.mediaSources[k].stableId == id)
    || (exists k :: 0 <= k < |d.midiSequences| && d.midiSequences[k].stableId == id)
  }

  /** A note starts before another, or is on a lower channel at the same frame, or on a lower key of that channel. */
  predicate Earlier(a: MidiNote, b: MidiNote) {
    || a.startFrame < b.startFrame
    || (a.startFrame == b.startFrame && a.channel < b.channel)
    || (a.startFrame == b.startFrame && a.channel == b.channel && a.key < b.key)
  }

  predicate Span(start: u64, length: u64) { length >= 1 && start + length < 0x1_0000_0000_0000_0000 }

  function Sum(counts: seq<nat>): nat { if counts == [] then 0 else counts[0] + Sum(counts[1..]) }

  // ----- the rules

  predicate TrackRule(t: Track) {
    t.kind in {1, 2, 3, 4, 5} && Finite(SINGLE, t.gain) && |t.name| <= 4_096
  }

  predicate RateRule(rate: u32) { rate == 0 || 8_000 <= rate <= 768_000 }

  predicate MediaRule(m: MediaSource) {
    RateRule(m.sampleRate) && m.channelCount <= 1_024 && |m.path| <= 4_096 && |m.name| <= 4_096
  }

  predicate NoteRule(n: MidiNote) {
    && Span(n.startFrame, n.lengthFrames) && n.channel < 16 && n.key < 128
    && Finite(SINGLE, n.velocity) && 0.0 < Value(SINGLE, n.velocity) <= 1.0
  }

  predicate MidiRule(m: MidiSequence) {
    && |m.name| <= 4_096
    && (forall k :: 0 <= k < |m.notes| ==> NoteRule(m.notes[k]))
    && (forall i, j :: 0 <= i < j < |m.notes| ==> Earlier(m.notes[i], m.notes[j]))
  }

  predicate ClipRule(d: SessionDocument, c: Clip) {
    && HasTrack(d, c.trackId) && HasSource(d, c.sourceId) && Span(c.startFrame, c.lengthFrames)
    && Finite(SINGLE, c.gain) && |c.name| <= 4_096
  }

  predicate RouteRule(d: SessionDocument, r: Route) {
    && HasTrack(d, r.sourceTrackId) && HasTrack(d, r.destinationTrackId) && r.sourceTrackId != r.destinationTrackId
    && Finite(SINGLE, r.gain)
  }

  predicate LaneRule(d: SessionDocument, l: AutomationLane) {
    && HasTrack(d, l.targetTrackId) && l.parameter in {1, 2, 3}
    && (forall k :: 0 <= k < |l.points| ==> Finite(SINGLE, l.points[k].value))
    && (forall i, j :: 0 <= i < j < |l.points| ==> l.points[i].samplePosition < l.points[j].samplePosition)
  }

  predicate PluginRule(d: SessionDocument, p: Plugin) {
    && HasTrack(d, p.targetTrackId) && p.format in {1, 2, 3} && 1 <= |p.identifier| <= 4_096
    && |p.name| <= 4_096 && |p.state| <= 16_777_216
  }

  /** A plugin slot of a track is taken once. */
  predicate SlotRule(plugins: seq<Plugin>) {
    forall i, j :: 0 <= i < |plugins| && 0 <= j < |plugins| && i != j ==>
      !(plugins[i].targetTrackId == plugins[j].targetTrackId && plugins[i].slotIndex == plugins[j].slotIndex)
  }

  predicate DeviceRule(c: DeviceConfiguration) {
    && c.backend in {1, 2, 3, 4, 5, 6} && RateRule(c.sampleRate) && c.bufferFrames <= 65_536
    && c.inputChannelCount <= 1_024 && c.outputChannelCount <= 1_024
    && |c.inputDeviceId| <= 4_096 && |c.outputDeviceId| <= 4_096
    && (c.inputDeviceId != [] || c.outputDeviceId != [] ==> c.backend != 1)
  }

  predicate HeaderRule(d: SessionDocument) {
    && d.revision >= 1 && 8_000 <= d.sampleRate <= 768_000
    && Finite(DOUBLE, d.tempo) && 0.0 < Value(DOUBLE, d.tempo) <= 1_000.0
  }

  predicate SizeRule(d: SessionDocument) {
    && |d.tracks| <= 100_000 && |d.clips| <= 1_000_000 && |d.routes| <= 1_000_000 && |d.automationLanes| <= 100_000
    && |d.mediaSources| <= 1_000_000 && |d.midiSequences| <= 1_000_000 && |d.plugins| <= 100_000
    && Sum(PointCounts(d.automationLanes)) <= 10_000_000 && Sum(NoteCounts(d.midiSequences)) <= 10_000_000
    && Sum(StateSizes(d.plugins)) <= 268_435_456
  }

  function PointCounts(s: seq<AutomationLane>): seq<nat> { seq(|s|, k requires 0 <= k < |s| => |s[k].points|) }
  function NoteCounts(s: seq<MidiSequence>): seq<nat> { seq(|s|, k requires 0 <= k < |s| => |s[k].notes|) }
  function StateSizes(s: seq<Plugin>): seq<nat> { seq(|s|, k requires 0 <= k < |s| => |s[k].state|) }

  predicate EntityRule(d: SessionDocument) {
    && (forall k :: 0 <= k < |d.tracks| ==> TrackRule(d.tracks[k]))
    && (forall k :: 0 <= k < |d.mediaSources| ==> MediaRule(d.mediaSources[k]))
    && (forall k :: 0 <= k < |d.midiSequences| ==> MidiRule(d.midiSequences[k]))
    && (forall k :: 0 <= k < |d.clips| ==> ClipRule(d, d.clips[k]))
    && (forall k :: 0 <= k < |d.routes| ==> RouteRule(d, d.routes[k]))
    && (forall k :: 0 <= k < |d.automationLanes| ==> LaneRule(d, d.automationLanes[k]))
    && (forall k :: 0 <= k < |d.plugins| ==> PluginRule(d, d.plugins[k]))
    && SlotRule(d.plugins) && DeviceRule(d.device)
  }

  function Ids<T>(id: T -> u64, s: seq<T>): seq<u64> { seq(|s|, k requires 0 <= k < |s| => id(s[k])) }

  /** Every identity of the document, kind by kind. */
  function Identities(d: SessionDocument): seq<u64> {
    Ids((t: Track) => t.stableId, d.tracks) + Ids((m: MediaSource) => m.stableId, d.mediaSources)
    + Ids((m: MidiSequence) => m.stableId, d.midiSequences) + Ids((c: Clip) => c.stableId, d.clips)
    + Ids((r: Route) => r.stableId, d.routes) + Ids((l: AutomationLane) => l.stableId, d.automationLanes)
    + Ids((p: Plugin) => p.stableId, d.plugins)
  }

  predicate IdentityRule(d: SessionDocument) {
    && (forall k :: 0 <= k < |Identities(d)| ==> Identities(d)[k] >= 1)
    && (forall i, j :: 0 <= i < |Identities(d)| && 0 <= j < |Identities(d)| && i != j ==>
          Identities(d)[i] != Identities(d)[j])
  }

  predicate Obeys(d: SessionDocument) {
    HeaderRule(d) && SizeRule(d) && IdentityRule(d) && EntityRule(d)
  }

  // ----- that these are the rules of validation

  lemma TrackIsThere(d: SessionDocument, id: u64)
    ensures id in TrackIds(d) <==> HasTrack(d, id)
  {
    if id in TrackIds(d) {
      var t :| t in d.tracks && t.stableId == id;
      var k :| 0 <= k < |d.tracks| && d.tracks[k] == t;
      assert d.tracks[k].stableId == id;
    }
    if HasTrack(d, id) {
      var k :| 0 <= k < |d.tracks| && d.tracks[k].stableId == id;
      assert d.tracks[k] in d.tracks;
    }
  }

  lemma SourceIsThere(d: SessionDocument, id: u64)
    ensures id in SourceIds(d) <==> HasSource(d, id)
  {
    if HasSource(d, id) {
      if k :| 0 <= k < |d.mediaSources| && d.mediaSources[k].stableId == id {
        assert d.mediaSources[k] in d.mediaSources;
      } else {
        var k :| 0 <= k < |d.midiSequences| && d.midiSequences[k].stableId == id;
        assert d.midiSequences[k] in d.midiSequences;
      }
    }
    if id in SourceIds(d) {
      if s :| s in d.mediaSources && s.stableId == id {
        var k :| 0 <= k < |d.mediaSources| && d.mediaSources[k] == s;
        assert d.mediaSources[k].stableId == id;
      } else {
        var s :| s in d.midiSequences && s.stableId == id;
        var k :| 0 <= k < |d.midiSequences| && d.midiSequences[k] == s;
        assert d.midiSequences[k].stableId == id;
      }
    }
  }

  lemma {:induction false} NotesInOrder(notes: seq<MidiNote>, i: nat, j: nat)
    requires forall k :: 0 < k < |notes| ==> NoteLess(notes[k - 1], notes[k])
    requires i < j < |notes|
    ensures Earlier(notes[i], notes[j])
    decreases j
  {
    assert NoteLess(notes[j - 1], notes[j]);
    if i < j - 1 { NotesInOrder(notes, i, j - 1); }
  }

  lemma NoteIsValid(n: MidiNote)
    ensures ValidNote(n) <==> NoteRule(n)
  {
    VelocityIsInRange(n.velocity);
  }

  lemma MidiIsValid(m: MidiSequence)
    ensures ValidMidiSequence(m) <==> MidiRule(m)
  {
    forall k | 0 <= k < |m.notes| ensures ValidNote(m.notes[k]) <==> NoteRule(m.notes[k]) { NoteIsValid(m.notes[k]); }
    if ValidMidiSequence(m) {
      forall i, j | 0 <= i < j < |m.notes| ensures Earlier(m.notes[i], m.notes[j]) { NotesInOrder(m.notes, i, j); }
    }
    if MidiRule(m) {
      forall k | 0 < k < |m.notes| ensures NoteLess(m.notes[k - 1], m.notes[k]) {
        assert Earlier(m.notes[k - 1], m.notes[k]);
      }
    }
  }

  lemma TrackIsValid(t: Track)
    ensures ValidTrack(t) <==> TrackRule(t)
  {
    FloatIsFinite(t.gain);
  }

  lemma MediaIsValid(m: MediaSource)
    ensures ValidMediaSource(m) <==> MediaRule(m)
  {}

  lemma ClipIsValid(d: SessionDocument, c: Clip)
    ensures ValidClip(c, TrackIds(d), SourceIds(d)) <==> ClipRule(d, c)
  {
    TrackIsThere(d, c.trackId);
    SourceIsThere(d, c.sourceId);
    FloatIsFinite(c.gain);
  }

  lemma RouteIsValid(d: SessionDocument, r: Route)
    ensures ValidRoute(r, TrackIds(d)) <==> RouteRule(d, r)
  {
    TrackIsThere(d, r.sourceTrackId);
    TrackIsThere(d, r.destinationTrackId);
    FloatIsFinite(r.gain);
  }

  lemma {:induction false} PointsInOrder(points: seq<AutomationPoint>, i: nat, j: nat)
    requires forall k :: 0 < k < |points| ==> points[k - 1].samplePosition < points[k].samplePosition
    requires i < j < |points|
    ensures points[i].samplePosition < points[j].samplePosition
    decreases j
  {
    assert points[j - 1].samplePosition < points[j].samplePosition;
    if i < j - 1 { PointsInOrder(points, i, j - 1); }
  }

  lemma LaneIsValid(d: SessionDocument, l: AutomationLane)
    ensures ValidLane(l, TrackIds(d)) <==> LaneRule(d, l)
  {
    TrackIsThere(d, l.targetTrackId);
    forall k | 0 <= k < |l.points| ensures FiniteFloat(l.points[k].value) <==> Finite(SINGLE, l.points[k].value) {
      FloatIsFinite(l.points[k].value);
    }
    if ValidLane(l, TrackIds(d)) {
      forall i, j | 0 <= i < j < |l.points| ensures l.points[i].samplePosition < l.points[j].samplePosition {
        PointsInOrder(l.points, i, j);
      }
    }
  }

  lemma PluginIsValid(d: SessionDocument, p: Plugin)
    ensures ValidPlugin(p, TrackIds(d)) <==> PluginRule(d, p)
  {
    TrackIsThere(d, p.targetTrackId);
  }

  lemma SlotsAreValid(plugins: seq<Plugin>)
    ensures SlotRule(plugins) <==> forall i, j :: 0 <= i < j < |plugins| ==>
      plugins[i].targetTrackId != plugins[j].targetTrackId || plugins[i].slotIndex != plugins[j].slotIndex
  {}

  lemma DeviceIsValid(c: DeviceConfiguration)
    ensures ValidDevice(c) <==> DeviceRule(c)
  {}

  lemma ReferencesAreValid(d: SessionDocument)
    ensures ValidReferences(d, TrackIds(d), SourceIds(d)) <==>
      && (forall k :: 0 <= k < |d.clips| ==> ClipRule(d, d.clips[k]))
      && (forall k :: 0 <= k < |d.routes| ==> RouteRule(d, d.routes[k]))
      && (forall k :: 0 <= k < |d.automationLanes| ==> LaneRule(d, d.automationLanes[k]))
      && (forall k :: 0 <= k < |d.plugins| ==> PluginRule(d, d.plugins[k]))
  {
    var tracks, sources := TrackIds(d), SourceIds(d);
    forall k | 0 <= k < |d.clips| ensures ValidClip(d.clips[k], tracks, sources) <==> ClipRule(d, d.clips[k]) {
      ClipIsValid(d, d.clips[k]);
    }
    forall k | 0 <= k < |d.routes| ensures ValidRoute(d.routes[k], tracks) <==> RouteRule(d, d.routes[k]) {
      RouteIsValid(d, d.routes[k]);
    }
    forall k | 0 <= k < |d.automationLanes|
      ensures ValidLane(d.automationLanes[k], tracks) <==> LaneRule(d, d.automationLanes[k])
    {
      LaneIsValid(d, d.automationLanes[k]);
    }
    forall k | 0 <= k < |d.plugins| ensures ValidPlugin(d.plugins[k], tracks) <==> PluginRule(d, d.plugins[k]) {
      PluginIsValid(d, d.plugins[k]);
    }
  }

  lemma EntitiesAreValid(d: SessionDocument)
    ensures ValidEntities(d) <==> EntityRule(d)
  {
    forall k | 0 <= k < |d.tracks| ensures ValidTrack(d.tracks[k]) <==> TrackRule(d.tracks[k]) {
      TrackIsValid(d.tracks[k]);
    }
    forall k | 0 <= k < |d.mediaSources| ensures ValidMediaSource(d.mediaSources[k]) <==> MediaRule(d.mediaSources[k]) {
      MediaIsValid(d.mediaSources[k]);
    }
    forall k | 0 <= k < |d.midiSequences|
      ensures ValidMidiSequence(d.midiSequences[k]) <==> MidiRule(d.midiSequences[k])
    {
      MidiIsValid(d.midiSequences[k]);
    }
    ReferencesAreValid(d);
    SlotsAreValid(d.plugins);
    DeviceIsValid(d.device);
  }

  lemma {:induction false} SumOfMore(counts: seq<nat>, last: nat)
    ensures Sum(counts + [last]) == Sum(counts) + last
  {
    if counts != [] {
      SumOfMore(counts[1..], last);
      assert (counts + [last])[1..] == counts[1..] + [last];
    }
  }

  lemma {:induction false} PointsAreSum(s: seq<AutomationLane>)
    ensures PointTotal(s) == Sum(PointCounts(s))
  {
    if s != [] {
      var n := |s| - 1;
      PointsAreSum(s[..n]);
      SumOfMore(PointCounts(s[..n]), |s[n].points|);
      assert PointCounts(s) == PointCounts(s[..n]) + [|s[n].points|];
    }
  }

  lemma {:induction false} NotesAreSum(s: seq<MidiSequence>)
    ensures NoteTotal(s) == Sum(NoteCounts(s))
  {
    if s != [] {
      var n := |s| - 1;
      NotesAreSum(s[..n]);
      SumOfMore(NoteCounts(s[..n]), |s[n].notes|);
      assert NoteCounts(s) == NoteCounts(s[..n]) + [|s[n].notes|];
    }
  }

  lemma {:induction false} StatesAreSum(s: seq<Plugin>)
    ensures StateTotal(s) == Sum(StateSizes(s))
  {
    if s != [] {
      var n := |s| - 1;
      StatesAreSum(s[..n]);
      SumOfMore(StateSizes(s[..n]), |s[n].state|);
      assert StateSizes(s) == StateSizes(s[..n]) + [|s[n].state|];
    }
  }

  lemma SizesAreLimits(d: SessionDocument)
    ensures WithinLimits(d) <==> SizeRule(d)
  {
    PointsAreSum(d.automationLanes);
    NotesAreSum(d.midiSequences);
    StatesAreSum(d.plugins);
  }

  lemma IdentitiesAreUnique(d: SessionDocument)
    ensures UniqueIds(d) <==> IdentityRule(d)
  {
    assert IdsOfTracks(d.tracks) == Ids((t: Track) => t.stableId, d.tracks);
    assert IdsOfMedia(d.mediaSources) == Ids((m: MediaSource) => m.stableId, d.mediaSources);
    assert IdsOfMidi(d.midiSequences) == Ids((m: MidiSequence) => m.stableId, d.midiSequences);
    assert IdsOfClips(d.clips) == Ids((c: Clip) => c.stableId, d.clips);
    assert IdsOfRoutes(d.routes) == Ids((r: Route) => r.stableId, d.routes);
    assert IdsOfLanes(d.automationLanes) == Ids((l: AutomationLane) => l.stableId, d.automationLanes);
    assert IdsOfPlugins(d.plugins) == Ids((p: Plugin) => p.stableId, d.plugins);
    assert StableIds(d) == Identities(d);
  }

  lemma HeaderIsValid(d: SessionDocument)
    ensures ValidHeader(d) <==> HeaderRule(d)
  {
    TempoIsInRange(d.tempo);
  }

  /** A document is valid if and only if it obeys every rule. */
  lemma ValidMeansObeying(d: SessionDocument)
    ensures ValidDocument(d) <==> Obeys(d)
  {
    HeaderIsValid(d);
    SizesAreLimits(d);
    IdentitiesAreUnique(d);
    EntitiesAreValid(d);
  }
}
