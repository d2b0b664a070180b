/** Validation of a document, pass by pass over its entities. */
module Validation {
  import opened Ordered
  import opened SessionDocuments
  import opened DocumentRules

  // ----- identities

  /** The identities are non-zero, differ from each other and from those seen before. */
  ghost predicate NewIds(ids: seq<u64>, seen: set<u64>) {
    Distinct(ids) && 0 !in ids && forall k :: 0 <= k < |ids| ==> ids[k] !in seen
  }

  lemma NewIdsStep(ids: seq<u64>, k: nat, seen: set<u64>)
    requires k < |ids| && NewIds(ids[..k], seen)
    ensures NewIds(ids[..k + 1], seen) <==> ids[k] != 0 && ids[k] !in seen + Elements(ids[..k])
    ensures Elements(ids[..k + 1]) == Elements(ids[..k]) + {ids[k]}
    ensures !NewIds(ids[..k + 1], seen) ==> !NewIds(ids, seen)
  {
    var longer := ids[..k + 1];
    assert longer[k] == ids[k] && longer[..k] == ids[..k];
    assert longer == ids[..k] + [ids[k]];
    if ids[k] != 0 && ids[k] !in seen + Elements(ids[..k]) {
      forall i, j | 0 <= i < j < |longer| ensures longer[i] != longer[j] {
        if j == k { assert ids[..k][i] in Elements(ids[..k]); }
      }
    }
    if ids[k] in Elements(ids[..k]) {
      var i :| 0 <= i < k && ids[..k][i] == ids[k];
      assert longer[i] == longer[k] && ids[i] == ids[k];
    }
    if NewIds(ids, seen) {
      forall i, j | 0 <= i < j < |longer| ensures longer[i] != longer[j] { assert longer[i] == ids[i]; }
    }
  }

  lemma NewIdsConcat(a: seq<u64>, b: seq<u64>, seen: set<u64>)
    ensures NewIds(a + b, seen) <==> NewIds(a, seen) && NewIds(b, seen + Elements(a))
    ensures Elements(a + b) == Elements(a) + Elements(b)
  {
    var c := a + b;
    forall k | 0 <= k < |a| ensures c[k] == a[k] && a[k] in Elements(a) {}
    forall k | 0 <= k < |b| ensures c[|a| + k] == b[k] {}
    if NewIds(c, seen) {
      forall i, j | 0 <= i < j < |a| ensures a[i] != a[j] { assert c[i] != c[j]; }
      forall i, j | 0 <= i < j < |b| ensures b[i] != b[j] { assert c[|a| + i] != c[|a| + j]; }
      forall k | 0 <= k < |b| ensures b[k] !in seen + Elements(a) {
        forall i | 0 <= i < |a| ensures a[i] != b[k] { assert c[i] != c[|a| + k]; }
      }
      assert forall k :: 0 <= k < |a| ==> c[k] !in seen;
    }
    if NewIds(a, seen) && NewIds(b, seen + Elements(a)) {
      forall i, j | 0 <= i < j < |c| ensures c[i] != c[j] {
        if i < |a| <= j { assert c[i] in Elements(a); }
      }
    }
  }

  // ----- entities

  method CheckTracks(tracks: seq<Track>, seen: set<u64>) returns (ok: bool, now: set<u64>)
    ensures ok <==> (forall k :: 0 <= k < |tracks| ==> ValidTrack(tracks[k])) && NewIds(IdsOfTracks(tracks), seen)
    ensures ok ==> now == seen + Elements(IdsOfTracks(tracks))
  {
    ghost var ids := IdsOfTracks(tracks);
    now := seen;
    var k := 0;
    while k < |tracks|
      invariant 0 <= k <= |tracks|
      invariant NewIds(ids[..k], seen) && now == seen + Elements(ids[..k])
      invariant forall j :: 0 <= j < k ==> ValidTrack(tracks[j])
    {
      NewIdsStep(ids, k, seen);
      if tracks[k].stableId == 0 || tracks[k].stableId in now || !ValidTrack(tracks[k]) {
        return false, now;
      }
      now := now + {tracks[k].stableId};
      k := k + 1;
    }
    assert ids[..k] == ids;
    ok := true;
  }

  method CheckMediaSources(sources: seq<MediaSource>, seen: set<u64>) returns (ok: bool, now: set<u64>)
    ensures ok <==>
      (forall k :: 0 <= k < |sources| ==> ValidMediaSource(sources[k])) && NewIds(IdsOfMedia(sources), seen)
    ensures ok ==> now == seen + Elements(IdsOfMedia(sources))
  {
    ghost var ids := IdsOfMedia(sources);
    now := seen;
    var k := 0;
    while k < |sources|
      invariant 0 <= k <= |sources|
      invariant NewIds(ids[..k], seen) && now == seen + Elements(ids[..k])
      invariant forall j :: 0 <= j < k ==> ValidMediaSource(sources[j])
    {
      NewIdsStep(ids, k, seen);
      if sources[k].stableId == 0 || sources[k].stableId in now || !ValidMediaSource(sources[k]) {
        return false, now;
      }
      now := now + {sources[k].stableId};
      k := k + 1;
    }
    assert ids[..k] == ids;
    ok := true;
  }

  method CheckNotes(notes: seq<MidiNote>) returns (ok: bool)
    ensures ok <==>
      (forall k :: 0 <= k < |notes| ==> ValidNote(notes[k]))
        && (forall k :: 0 < k < |notes| ==> NoteLess(notes[k - 1], notes[k]))
  {
    var k := 0;
    while k < |notes|
      invariant 0 <= k <= |notes|
      invariant forall j :: 0 <= j < k ==> ValidNote(notes[j])
      invariant forall j :: 0 < j < k ==> NoteLess(notes[j - 1], notes[j])
    {
      if !ValidNote(notes[k]) || (k > 0 && !NoteLess(notes[k - 1], notes[k])) {
        return false;
      }
      k := k + 1;
    }
    ok := true;
  }

  lemma {:induction false} NotesGrow(s: seq<MidiSequence>, k: nat)
    requires k < |s|
    ensures NoteTotal(s[..k + 1]) == NoteTotal(s[..k]) + |s[k].notes| <= NoteTotal(s)
    decreases |s| - k
  {
    assert s[..k + 1][..k] == s[..k];
    if k + 1 == |s| {
      assert s[..k + 1] == s;
    } else {
      NotesGrow(s, k + 1);
    }
  }

  method CheckMidiSequences(sequences: seq<MidiSequence>, seen: set<u64>) returns (ok: bool, now: set<u64>)
    ensures ok <==>
      (forall k :: 0 <= k < |sequences| ==> ValidMidiSequence(sequences[k])) && NewIds(IdsOfMidi(sequences), seen)
                    && NoteTotal(sequences) <= MAXIMUM_NOTE_COUNT
    ensures ok ==> now == seen + Elements(IdsOfMidi(sequences))
  {
    ghost var ids := IdsOfMidi(sequences);
    now := seen;
    var total, k := 0, 0;
    while k < |sequences|
      invariant 0 <= k <= |sequences|
      invariant NewIds(ids[..k], seen) && now == seen + Elements(ids[..k])
      invariant forall j :: 0 <= j < k ==> ValidMidiSequence(sequences[j])
      invariant total == NoteTotal(sequences[..k]) <= MAXIMUM_NOTE_COUNT
    {
      NewIdsStep(ids, k, seen);
      NotesGrow(sequences, k);
      var s := sequences[k];
      if s.stableId == 0 || s.stableId in now || |s.name| > MAXIMUM_NAME_BYTES || |s.notes| > MAXIMUM_NOTE_COUNT - total {
        return false, now;
      }
      var ordered := CheckNotes(s.notes);
      if !ordered {
        return false, now;
      }
      now := now + {s.stableId};
      total := total + |s.notes|;
      k := k + 1;
    }
    assert ids[..k] == ids && sequences[..k] == sequences;
    ok := true;
  }

  method CheckClips(clips: seq<Clip>, seen: set<u64>, trackIds: set<u64>, sourceIds: set<u64>)
    returns (ok: bool, now: set<u64>)
    ensures ok <==>
      (forall k :: 0 <= k < |clips| ==> ValidClip(clips[k], trackIds, sourceIds)) && NewIds(IdsOfClips(clips), seen)
    ensures ok ==> now == seen + Elements(IdsOfClips(clips))
  {
    ghost var ids := IdsOfClips(clips);
    now := seen;
    var k := 0;
    while k < |clips|
      invariant 0 <= k <= |clips|
      invariant NewIds(ids[..k], seen) && now == seen + Elements(ids[..k])
      invariant forall j :: 0 <= j < k ==> ValidClip(clips[j], trackIds, sourceIds)
    {
      NewIdsStep(ids, k, seen);
      if clips[k].stableId == 0 || clips[k].stableId in now || !ValidClip(clips[k], trackIds, sourceIds) {
        return false, now;
      }
      now := now + {clips[k].stableId};
      k := k + 1;
    }
    assert ids[..k] == ids;
    ok := true;
  }

  method CheckRoutes(routes: seq<Route>, seen: set<u64>, trackIds: set<u64>) returns (ok: bool, now: set<u64>)
    ensures ok <==>
      (forall k :: 0 <= k < |routes| ==> ValidRoute(routes[k], trackIds)) && NewIds(IdsOfRoutes(routes), seen)
    ensures ok ==> now == seen + Elements(IdsOfRoutes(routes))
  {
    ghost var ids := IdsOfRoutes(routes);
    now := seen;
    var k := 0;
    while k < |routes|
      invariant 0 <= k <= |routes|
      invariant NewIds(ids[..k], seen) && now == seen + Elements(ids[..k])
      invariant forall j :: 0 <= j < k ==> ValidRoute(routes[j], trackIds)
    {
      NewIdsStep(ids, k, seen);
      if routes[k].stableId == 0 || routes[k].stableId in now || !ValidRoute(routes[k], trackIds) {
        return false, now;
      }
      now := now + {routes[k].stableId};
      k := k + 1;
    }
    assert ids[..k] == ids;
    ok := true;
  }

  method CheckPoints(points: seq<AutomationPoint>) returns (ok: bool)
    ensures ok <==> (forall k :: 0 <= k < |points| ==> FiniteFloat(points[k].value))
                    && (forall k :: 0 < k < |points| ==> points[k - 1].samplePosition < points[k].samplePosition)
  {
    var k := 0;
    while k < |points|
      invariant 0 <= k <= |points|
      invariant forall j :: 0 <= j < k ==> FiniteFloat(points[j].value)
      invariant forall j :: 0 < j < k ==> points[j - 1].samplePosition < points[j].samplePosition
    {
      if !FiniteFloat(points[k].value) || (k > 0 && points[k].samplePosition <= points[k - 1].samplePosition) {
        return false;
      }
      k := k + 1;
    }
    ok := true;
  }

  lemma {:induction false} PointsGrow(s: seq<AutomationLane>, k: nat)
    requires k < |s|
    ensures PointTotal(s[..k + 1]) == PointTotal(s[..k]) + |s[k].points| <= PointTotal(s)
    decreases |s| - k
  {
    assert s[..k + 1][..k] == s[..k];
    if k + 1 == |s| {
      assert s[..k + 1] == s;
    } else {
      PointsGrow(s, k + 1);
    }
  }

  method CheckLanes(lanes: seq<AutomationLane>, seen: set<u64>, trackIds: set<u64>) returns (ok: bool, now: set<u64>)
    ensures ok <==> (forall k :: 0 <= k < |lanes| ==> ValidLane(lanes[k], trackIds)) && NewIds(IdsOfLanes(lanes), seen)
                    && PointTotal(lanes) <= MAXIMUM_POINT_COUNT
    ensures ok ==> now == seen + Elements(IdsOfLanes(lanes))
  {
    ghost var ids := IdsOfLanes(lanes);
    now := seen;
    var total, k := 0, 0;
    while k < |lanes|
      invariant 0 <= k <= |lanes|
      invariant NewIds(ids[..k], seen) && now == seen + Elements(ids[..k])
      invariant forall j :: 0 <= j < k ==> ValidLane(lanes[j], trackIds)
      invariant total == PointTotal(lanes[..k]) <= MAXIMUM_POINT_COUNT
    {
      NewIdsStep(ids, k, seen);
      PointsGrow(lanes, k);
      var l := lanes[k];
      if l.stableId == 0 || l.stableId in now || l.targetTrackId !in trackIds || l.parameter < 1 || l.parameter > 3
         || |l.points| > MAXIMUM_POINT_COUNT - total {
        return false, now;
      }
      var ordered := CheckPoints(l.points);
      if !ordered {
        return false, now;
      }
      now := now + {l.stableId};
      total := total + |l.points|;
      k := k + 1;
    }
    assert ids[..k] == ids && lanes[..k] == lanes;
    ok := true;
  }

  lemma {:induction false} StatesGrow(s: seq<Plugin>, k: nat)
    requires k < |s|
    ensures StateTotal(s[..k + 1]) == StateTotal(s[..k]) + |s[k].state| <= StateTotal(s)
    decreases |s| - k
  {
    assert s[..k + 1][..k] == s[..k];
    if k + 1 == |s| {
      assert s[..k + 1] == s;
    } else {
      StatesGrow(s, k + 1);
    }
  }

  ghost predicate OwnSlots(plugins: seq<Plugin>) {
    forall i, j :: 0 <= i < j < |plugins| ==>
      plugins[i].targetTrackId != plugins[j].targetTrackId || plugins[i].slotIndex != plugins[j].slotIndex
  }

  function SlotsOf(plugins: seq<Plugin>): seq<(u64, u32)> {
    seq(|plugins|, k requires 0 <= k < |plugins| => (plugins[k].targetTrackId, plugins[k].slotIndex))
  }

  lemma DistinctSlots(plugins: seq<Plugin>)
    ensures OwnSlots(plugins) <==> Distinct(SlotsOf(plugins))
  {
    var slots := SlotsOf(plugins);
    if OwnSlots(plugins) {
      assert Distinct(slots);
    }
    if Distinct(slots) {
      forall i, j | 0 <= i < j < |plugins|
        ensures plugins[i].targetTrackId != plugins[j].targetTrackId || plugins[i].slotIndex != plugins[j].slotIndex
      {
        assert slots[i] != slots[j];
      }
    }
  }

  lemma DistinctStep<T>(s: seq<T>, k: nat)
    requires k < |s| && Distinct(s[..k])
    ensures Elements(s[..k + 1]) == Elements(s[..k]) + {s[k]}
    ensures Distinct(s[..k + 1]) <==> s[k] !in Elements(s[..k])
    ensures !Distinct(s[..k + 1]) ==> !Distinct(s)
  {
    var longer := s[..k + 1];
    assert longer == s[..k] + [s[k]];
    if s[k] !in Elements(s[..k]) {
      forall i, j | 0 <= i < j < |longer| ensures longer[i] != longer[j] {
        if j == k { assert s[..k][i] in Elements(s[..k]); }
      }
    } else {
      var i :| 0 <= i < k && s[..k][i] == s[k];
      assert longer[i] == longer[k];
    }
    if Distinct(s) {
      forall i, j | 0 <= i < j < |longer| ensures longer[i] != longer[j] { assert longer[i] == s[i]; }
    }
  }

  /** A plugin's own fields; together with the budget for all states they make it valid. */
  predicate PluginFields(p: Plugin, trackIds: set<u64>) {
    && p.targetTrackId in trackIds && 1 <= p.format <= 3 && p.identifier != [] && |p.identifier| <= MAXIMUM_NAME_BYTES
    && |p.name| <= MAXIMUM_NAME_BYTES && |p.state| <= MAXIMUM_STATE_BYTES
  }

  method CheckPlugins(plugins: seq<Plugin>, seen: set<u64>, trackIds: set<u64>) returns (ok: bool, now: set<u64>)
    ensures ok <==>
      (forall k :: 0 <= k < |plugins| ==> ValidPlugin(plugins[k], trackIds)) && NewIds(IdsOfPlugins(plugins), seen)
                    && StateTotal(plugins) <= MAXIMUM_TOTAL_STATE_BYTES && OwnSlots(plugins)
    ensures ok ==> now == seen + Elements(IdsOfPlugins(plugins))
  {
    ghost var ids, taken := IdsOfPlugins(plugins), SlotsOf(plugins);
    DistinctSlots(plugins);
    now := seen;
    var slots: set<(u64, u32)> := {};
    var total, k := 0, 0;
    while k < |plugins|
      invariant 0 <= k <= |plugins|
      invariant NewIds(ids[..k], seen) && now == seen + Elements(ids[..k])
      invariant forall j :: 0 <= j < k ==> ValidPlugin(plugins[j], trackIds)
      invariant total == StateTotal(plugins[..k]) <= MAXIMUM_TOTAL_STATE_BYTES
      invariant Distinct(taken[..k]) && slots == Elements(taken[..k])
    {
      NewIdsStep(ids, k, seen);
      StatesGrow(plugins, k);
      DistinctStep(taken, k);
      var p := plugins[k];
      if p.stableId == 0 || p.stableId in now || !PluginFields(p, trackIds) || |p.state| > MAXIMUM_TOTAL_STATE_BYTES - total
         || (p.targetTrackId, p.slotIndex) in slots {
        return false, now;
      }
      now := now + {p.stableId};
      slots := slots + {(p.targetTrackId, p.slotIndex)};
      total := total + |p.state|;
      k := k + 1;
    }
    assert ids[..k] == ids && plugins[..k] == plugins && taken[..k] == taken;
    ok := true;
  }

  /** The passes over the entities, in the order of validation. */
  method CheckEntities(d: SessionDocument) returns (ok: bool)
    ensures ok <==>
      UniqueIds(d) && ValidEntities(d) && PointTotal(d.automationLanes) <= MAXIMUM_POINT_COUNT
      && NoteTotal(d.midiSequences) <= MAXIMUM_NOTE_COUNT && StateTotal(d.plugins) <= MAXIMUM_TOTAL_STATE_BYTES
  {
    var trackIds, sourceIds := TrackIds(d), SourceIds(d);
    IdsSplit(d);
    var seen: set<u64> := {};
    ok, seen := CheckTracks(d.tracks, seen);
    if !ok { return; }
    ok, seen := CheckMediaSources(d.mediaSources, seen);
    if !ok { return; }
    ok, seen := CheckMidiSequences(d.midiSequences, seen);
    if !ok { return; }
    ok, seen := CheckClips(d.clips, seen, trackIds, sourceIds);
    if !ok { return; }
    ok, seen := CheckRoutes(d.routes, seen, trackIds);
    if !ok { return; }
    ok, seen := CheckLanes(d.automationLanes, seen, trackIds);
    if !ok { return; }
    ok, seen := CheckPlugins(d.plugins, seen, trackIds);
    if !ok { return; }
    ok := ValidDevice(d.device);
  }

  /** `validateDocument`: accepts exactly the documents that obey every rule. */
  method ValidateDocument(d: SessionDocument) returns (ok: bool)
    ensures ok == ValidDocument(d)
    ensures ok <==> Obeys(d) == true
  {
    ValidMeansObeying(d);
    if d.revision == 0 || d.sampleRate < 8_000 || d.sampleRate > 768_000 || !ValidTempo(d.tempo) {
      return false;
    }
    if |d.tracks| > MAXIMUM_TRACK_COUNT || |d.clips| > MAXIMUM_CLIP_COUNT || |d.routes| > MAXIMUM_ROUTE_COUNT
       || |d.automationLanes| > MAXIMUM_LANE_COUNT || |d.mediaSources| > MAXIMUM_MEDIA_SOURCE_COUNT
       || |d.midiSequences| > MAXIMUM_MIDI_SEQUENCE_COUNT || |d.plugins| > MAXIMUM_PLUGIN_COUNT {
      return false;
    }
    ok := CheckEntities(d);
  }

  /** Global uniqueness, pass by pass. */
  lemma IdsSplit(d: SessionDocument)
    ensures var tracks := Elements(IdsOfTracks(d.tracks));
      var media := tracks + Elements(IdsOfMedia(d.mediaSources));
      var midi := media + Elements(IdsOfMidi(d.midiSequences));
      var clips := midi + Elements(IdsOfClips(d.clips));
      var routes := clips + Elements(IdsOfRoutes(d.routes));
      var lanes := routes + Elements(IdsOfLanes(d.automationLanes));
      UniqueIds(d) <==>
        (NewIds(IdsOfTracks(d.tracks), {}) && NewIds(IdsOfMedia(d.mediaSources), tracks)
          && NewIds(IdsOfMidi(d.midiSequences), media)
         && NewIds(IdsOfClips(d.clips), midi) && NewIds(IdsOfRoutes(d.routes), clips)
           && NewIds(IdsOfLanes(d.automationLanes), routes)
         && NewIds(IdsOfPlugins(d.plugins), lanes))
  {
    var none: set<u64> := {};
    var a, b, c, e, f, g, h := IdsOfTracks(d.tracks), IdsOfMedia(d.mediaSources), IdsOfMidi(d.midiSequences),
      IdsOfClips(d.clips),
      IdsOfRoutes(d.routes), IdsOfLanes(d.automationLanes), IdsOfPlugins(d.plugins);
    assert StableIds(d) == a + b + c + e + f + g + h;
    assert UniqueIds(d) <==> NewIds(StableIds(d), none);
    NewIdsConcat(a + b + c + e + f + g, h, none);
    NewIdsConcat(a + b + c + e + f, g, none);
    NewIdsConcat(a + b + c + e, f, none);
    NewIdsConcat(a + b + c, e, none);
    NewIdsConcat(a + b, c, none);
    NewIdsConcat(a, b, none);
  }
}
