/** Writing a session document by appending section after section, and reading one by advancing through the bytes. */
module SessionSerializer {
  import opened SessionDocuments
  import opened Validation
  import opened Bytes
  import opened Codecs
  import opened DocumentFormat
  import opened DocumentCodec
  import opened SessionCodec
  import opened DocumentLayout

  // ----- writing

  lemma {:induction false} ItemsAppend<T>(c: Codec<T>, xs: seq<T>, k: nat)
    requires k < |xs|
    ensures EncodeItems(c, xs[..k + 1]) == EncodeItems(c, xs[..k]) + c.encode(xs[k])
    decreases k
  {
    if k > 0 {
      ItemsAppend(c, xs[1..], k - 1);
      assert xs[..k + 1][1..] == xs[1..][..k] && xs[..k][1..] == xs[1..][..k - 1];
    } else {
      assert xs[..1][1..] == [];
    }
  }

  /** Appends a count and that many items. */
  method WriteList<T>(c: Codec<T>, xs: seq<T>, bytes: seq<byte>) returns (longer: seq<byte>)
    requires |xs| <= U32_MAX
    ensures longer == bytes + (EncodeU32(|xs|) + EncodeItems(c, xs))
  {
    longer := bytes + EncodeU32(|xs|);
    var k := 0;
    assert xs[..0] == [];
    while k < |xs|
      invariant 0 <= k <= |xs| && longer == bytes + (EncodeU32(|xs|) + EncodeItems(c, xs[..k]))
    {
      ItemsAppend(c, xs, k);
      longer := longer + c.encode(xs[k]);
      k := k + 1;
    }
    assert xs[..k] == xs;
  }

  /** A schema without colours writes the same bytes whatever the colours are. */
  lemma {:induction false} ColoursAreNotStored(tracks: seq<Track>)
    ensures EncodeItems(TrackFormat(1), tracks) == EncodeItems(TrackFormat(1), Uncolored(tracks))
  {
    if tracks != [] {
      ColoursAreNotStored(tracks[1..]);
      assert Uncolored(tracks)[1..] == Uncolored(tracks[1..]);
      ColourIsNotStored(tracks[0]);
    }
  }

  lemma ColourIsNotStored(t: Track)
    ensures TrackFormat(1).encode(t) == TrackFormat(1).encode(t.(color := 0))
  {}

  method WriteTracks(schema: u32, d: SessionDocument) returns (bytes: seq<byte>)
    requires |d.tracks| <= U32_MAX && MINIMUM_SCHEMA <= schema
    ensures bytes == TracksFormat(schema).encode(Strip(schema, d).tracks)
  {
    bytes := WriteList(TrackFormat(schema), d.tracks, []);
    StrippedTracks(schema, d);
  }

  lemma StrippedTracks(schema: u32, d: SessionDocument)
    requires |d.tracks| <= U32_MAX && MINIMUM_SCHEMA <= schema
    ensures TracksFormat(schema).encode(Strip(schema, d).tracks)
         == EncodeU32(|d.tracks|) + EncodeItems(TrackFormat(schema), d.tracks)
  {
    if schema < 2 { ColoursAreNotStored(d.tracks); }
    ListEncoding(TrackFormat(schema), MAXIMUM_TRACK_COUNT, Strip(schema, d).tracks);
  }

  /** Writes a list from schema `since` on. */
  method WriteListSince<T(==)>(since: u32, schema: u32, c: Codec<T>, limit: nat, xs: seq<T>) returns (bytes: seq<byte>)
    requires |xs| <= U32_MAX
    ensures bytes == Since(since, schema, List(c, limit), []).encode(xs)
  {
    bytes := [];
    if schema >= since {
      bytes := WriteList(c, xs, bytes);
      ListEncoding(c, limit, xs);
    }
  }

  method WriteArrangement(schema: u32, d: SessionDocument) returns (bytes: seq<byte>)
    requires WithinLimits(d)
    ensures var e := Strip(schema, d);
      bytes == ArrangementFormat(schema).encode((e.clips, (e.routes, e.automationLanes)))
  {
    var clips := WriteListSince(3, schema, CLIP, MAXIMUM_CLIP_COUNT, d.clips);
    var routes := WriteListSince(3, schema, ROUTE, MAXIMUM_ROUTE_COUNT, d.routes);
    var lanes := WriteListSince(3, schema, LANE, MAXIMUM_LANE_COUNT, d.automationLanes);
    ThreeEncoding(Since(3, schema, List(CLIP, MAXIMUM_CLIP_COUNT), []),
      Since(3, schema, List(ROUTE, MAXIMUM_ROUTE_COUNT), []), Since(3, schema, List(LANE, MAXIMUM_LANE_COUNT), []),
      d.clips, d.routes, d.automationLanes, clips, routes, lanes);
    bytes := clips + (routes + lanes);
  }

  method WriteEquipment(schema: u32, d: SessionDocument) returns (bytes: seq<byte>)
    requires WithinLimits(d)
    ensures bytes == EquipmentFormat(schema).encode((d.midiSequences, (d.device, d.plugins)))
  {
    var midi := WriteListSince(4, schema, MIDI, MAXIMUM_MIDI_SEQUENCE_COUNT, d.midiSequences);
    var device := if schema >= 4 then DEVICE.encode(d.device) else [];
    var plugins := WriteListSince(4, schema, PLUGIN, MAXIMUM_PLUGIN_COUNT, d.plugins);
    SinceEncoding(4, schema, DEVICE, DEFAULT_DEVICE, d.device);
    ThreeEncoding(Since(4, schema, List(MIDI, MAXIMUM_MIDI_SEQUENCE_COUNT), []),
      Since(4, schema, DEVICE, DEFAULT_DEVICE), Since(4, schema, List(PLUGIN, MAXIMUM_PLUGIN_COUNT), []),
      d.midiSequences, d.device, d.plugins, midi, device, plugins);
    bytes := midi + (device + plugins);
  }

  method WriteResources(schema: u32, d: SessionDocument) returns (bytes: seq<byte>)
    requires WithinLimits(d)
    ensures var e := Strip(schema, d);
      bytes == ResourceFormat(schema).encode((e.mediaSources, (e.midiSequences, (e.device, e.plugins))))
  {
    var sources := if schema < 4 then [] else d.mediaSources;
    var media := WriteListSince(4, schema, MEDIA, MAXIMUM_MEDIA_SOURCE_COUNT, sources);
    var equipment := WriteEquipment(schema, d);
    PairEncoding(Since(4, schema, List(MEDIA, MAXIMUM_MEDIA_SOURCE_COUNT), []), EquipmentFormat(schema), sources,
      (d.midiSequences, (d.device, d.plugins)));
    bytes := media + equipment;
  }

  method WriteHeader(schema: u32, d: SessionDocument) returns (bytes: seq<byte>)
    ensures var e := Strip(schema, d); bytes == HeaderFormat(schema).encode((e.revision, (e.sampleRate, e.tempo)))
  {
    var rate := if schema >= 2 then EncodeU32(d.sampleRate) else [];
    bytes := EncodeU64(d.revision) + (rate + EncodeU64(d.tempo));
  }

  method WriteDocument(d: SessionDocument, schema: u32) returns (bytes: seq<byte>)
    requires WithinLimits(d) && MINIMUM_SCHEMA <= schema
    ensures bytes == Encode(schema, d)
  {
    var header := WriteHeader(schema, d);
    var tracks := WriteTracks(schema, d);
    var arrangement := WriteArrangement(schema, d);
    var resources := WriteResources(schema, d);
    Sections(schema, d, header, tracks, arrangement, resources);
    bytes := Preamble(schema) + (header + (tracks + (arrangement + resources)));
  }

  method WritePermitted(d: SessionDocument, schema: u32) returns (bytes: seq<byte>)
    requires Permitted(schema, d) == true
    ensures bytes == DocumentBytes(schema, d)
  {
    PermittedLimits(schema, d);
    bytes := WriteDocument(d, schema);
    ExportIsLayout(schema, d);
  }

  lemma PermittedLimits(schema: u32, d: SessionDocument)
    requires Permitted(schema, d) == true
    ensures WithinLimits(d) == true && MINIMUM_SCHEMA <= schema
  {}

  /** `serializeSessionDocument`: nothing for a document that is invalid or that the schema cannot hold. */
  method SerializeSessionDocument(d: SessionDocument, schema: u32) returns (bytes: seq<byte>)
    ensures bytes == if Permitted(schema, d) == true then DocumentBytes(schema, d) else []
  {
    if !ExportPermitted(schema, d) {
      return [];
    }
    var valid := ValidateDocument(d);
    if !valid {
      return [];
    }
    bytes := WritePermitted(d, schema);
  }

  // ----- reading

  /** What a reader at `offset` finds, and where it stands afterwards. */
  function ReadAt<T>(c: Codec<T>, bytes: seq<byte>, offset: nat): Option<(T, nat)>
    requires offset <= |bytes|
  {
    match c.decode(bytes[offset..])
    case None => None
    case Some((x, n)) => if n > |bytes| - offset then None else Some((x, offset + n))
  }

  /** `count` items from `offset` on. */
  method ReadItems<T>(c: Codec<T>, count: nat, bytes: seq<byte>, offset: nat) returns (read: Option<(seq<T>, nat)>)
    requires offset <= |bytes|
    ensures read
      == match DecodeItems(c, count, bytes[offset..]) case None => None case Some((xs, n)) => Some((xs, offset + n))
    ensures read.Some? ==> read.value.1 <= |bytes|
  {
    var items: seq<T> := [];
    var position, left := offset, count;
    while left > 0
      invariant offset <= position <= |bytes| && 0 <= left <= count
      invariant Remaining(c, count, bytes[offset..])
        == Remaining(c, left, bytes[position..]).Prepend(items, position - offset)
    {
      var one := ReadAt(c, bytes, position);
      RemainingStep(c, left, bytes, position, items, position - offset);
      if one.None? {
        return None;
      }
      items, position, left := items + [one.value.0], one.value.1, left - 1;
    }
    assert items + [] == items;
    read := Some((items, position));
  }

  /** The outcome of reading items, and the outcome with more items before them. */
  datatype Items<T> = Stuck | Items(values: seq<T>, size: nat) {
    function Prepend(before: seq<T>, size: nat): Items<T> {
      if this.Stuck? then Stuck else Items(before + values, size + this.size)
    }
  }

  function Remaining<T>(c: Codec<T>, count: nat, bytes: seq<byte>): Items<T> {
    match DecodeItems(c, count, bytes)
    case None => Stuck
    case Some((xs, n)) => Items(xs, n)
  }

  lemma RemainingStep<T>(c: Codec<T>, left: nat, bytes: seq<byte>, position: nat, items: seq<T>, size: nat)
    requires 0 < left && position <= |bytes|
    ensures match ReadAt(c, bytes, position)
      case None => Remaining(c, left, bytes[position..]) == Stuck
      case Some((x, next)) =>
        && position <= next <= |bytes|
        && Remaining(c, left, bytes[position..]).Prepend(items, size)
           == Remaining(c, left - 1, bytes[next..]).Prepend(items + [x], size + next - position)
  {
    var one := ReadAt(c, bytes, position);
    if one.Some? {
      var next := one.value.1;
      assert bytes[position..][next - position..] == bytes[next..];
      var rest := Remaining(c, left - 1, bytes[next..]);
      if rest.Items? {
        assert items + ([one.value.0] + rest.values) == (items + [one.value.0]) + rest.values;
      }
    }
  }

  /** A count and that many items from `offset` on. */
  method ReadList<T>(c: Codec<T>, limit: nat, bytes: seq<byte>, offset: nat) returns (read: Option<(seq<T>, nat)>)
    requires offset <= |bytes|
    ensures read == ReadAt(List(c, limit), bytes, offset)
  {
    if |bytes| - offset < 4 {
      return None;
    }
    var count := DecodeU32(bytes[offset..offset + 4]);
    assert bytes[offset..][..4] == bytes[offset..offset + 4];
    if count > limit {
      return None;
    }
    assert bytes[offset..][4..] == bytes[offset + 4..];
    read := ReadItems(c, count, bytes, offset + 4);
  }

  method ReadListSince<T(==)>(since: u32, schema: u32, c: Codec<T>, limit: nat, bytes: seq<byte>, offset: nat)
    returns (read: Option<(seq<T>, nat)>)
    requires offset <= |bytes|
    ensures read == ReadAt(Since(since, schema, List(c, limit), []), bytes, offset)
  {
    if schema < since {
      return Some(([], offset));
    }
    read := ReadList(c, limit, bytes, offset);
  }

  /** One part after the other. */
  lemma PairAt<A, B>(a: Codec<A>, b: Codec<B>, bytes: seq<byte>, offset: nat)
    requires offset <= |bytes|
    ensures ReadAt(a, bytes, offset).Some? ==> offset <= ReadAt(a, bytes, offset).value.1 <= |bytes|
    ensures ReadAt(Pair(a, b), bytes, offset) == Then(ReadAt(a, bytes, offset), b, bytes)
  {
    if ReadAt(a, bytes, offset).Some? {
      var next := ReadAt(a, bytes, offset).value.1;
      assert bytes[offset..][next - offset..] == bytes[next..];
    }
  }

  function Then<A, B>(first: Option<(A, nat)>, b: Codec<B>, bytes: seq<byte>): Option<((A, B), nat)> {
    match first
    case None => None
    case Some((x, next)) => if next > |bytes| then None else Joined(x, ReadAt(b, bytes, next))
  }

  function Joined<A, B>(x: A, second: Option<(B, nat)>): Option<((A, B), nat)> {
    match second
    case None => None
    case Some((y, next)) => Some(((x, y), next))
  }

  /** Three parts, read one after the other. */
  lemma ThreeAt<A, B, C>(a: Codec<A>, b: Codec<B>, c: Codec<C>, bytes: seq<byte>, offset: nat)
    requires offset <= |bytes|
    ensures ReadAt(Three(a, b, c), bytes, offset) == Then(ReadAt(a, bytes, offset), Pair(b, c), bytes)
    ensures ReadAt(a, bytes, offset).Some? ==>
      var next := ReadAt(a, bytes, offset).value.1;
      next <= |bytes| && ReadAt(Pair(b, c), bytes, next) == Then(ReadAt(b, bytes, next), c, bytes)
    ensures ReadAt(a, bytes, offset).Some? ==>
      var next := ReadAt(a, bytes, offset).value.1;
      next <= |bytes| && (ReadAt(b, bytes, next).Some? ==> ReadAt(b, bytes, next).value.1 <= |bytes|)
  {
    PairAt(a, Pair(b, c), bytes, offset);
    if ReadAt(a, bytes, offset).Some? {
      PairAt(b, c, bytes, ReadAt(a, bytes, offset).value.1);
    }
  }

  method ReadArrangement(schema: u32, bytes: seq<byte>, offset: nat) returns (read: Option<(ArrangementFields, nat)>)
    requires offset <= |bytes|
    ensures read == ReadAt(ArrangementFormat(schema), bytes, offset)
  {
    ThreeAt(Since(3, schema, List(CLIP, MAXIMUM_CLIP_COUNT), []),
      Since(3, schema, List(ROUTE, MAXIMUM_ROUTE_COUNT), []), Since(3, schema, List(LANE, MAXIMUM_LANE_COUNT), []),
      bytes, offset);
    var clips := ReadListSince(3, schema, CLIP, MAXIMUM_CLIP_COUNT, bytes, offset);
    if clips.None? {
      return None;
    }
    var routes := ReadListSince(3, schema, ROUTE, MAXIMUM_ROUTE_COUNT, bytes, clips.value.1);
    if routes.None? {
      return None;
    }
    var lanes := ReadListSince(3, schema, LANE, MAXIMUM_LANE_COUNT, bytes, routes.value.1);
    if lanes.None? {
      return None;
    }
    read := Some(((clips.value.0, (routes.value.0, lanes.value.0)), lanes.value.1));
  }

  method ReadEquipment(schema: u32, bytes: seq<byte>, offset: nat) returns (read: Option<(EquipmentFields, nat)>)
    requires offset <= |bytes|
    ensures read == ReadAt(EquipmentFormat(schema), bytes, offset)
  {
    ThreeAt(Since(4, schema, List(MIDI, MAXIMUM_MIDI_SEQUENCE_COUNT), []), Since(4, schema, DEVICE, DEFAULT_DEVICE),
      Since(4, schema, List(PLUGIN, MAXIMUM_PLUGIN_COUNT), []), bytes, offset);
    var midi := ReadListSince(4, schema, MIDI, MAXIMUM_MIDI_SEQUENCE_COUNT, bytes, offset);
    if midi.None? {
      return None;
    }
    var device := ReadAt(Since(4, schema, DEVICE, DEFAULT_DEVICE), bytes, midi.value.1);
    if device.None? {
      return None;
    }
    var plugins := ReadListSince(4, schema, PLUGIN, MAXIMUM_PLUGIN_COUNT, bytes, device.value.1);
    if plugins.None? {
      return None;
    }
    read := Some(((midi.value.0, (device.value.0, plugins.value.0)), plugins.value.1));
  }

  method ReadResources(schema: u32, bytes: seq<byte>, offset: nat) returns (read: Option<(ResourceFields, nat)>)
    requires offset <= |bytes|
    ensures read == ReadAt(ResourceFormat(schema), bytes, offset)
  {
    PairAt(Since(4, schema, List(MEDIA, MAXIMUM_MEDIA_SOURCE_COUNT), []), EquipmentFormat(schema), bytes, offset);
    var media := ReadListSince(4, schema, MEDIA, MAXIMUM_MEDIA_SOURCE_COUNT, bytes, offset);
    if media.None? {
      return None;
    }
    var equipment := ReadEquipment(schema, bytes, media.value.1);
    if equipment.None? {
      return None;
    }
    read := Some(((media.value.0, equipment.value.0), equipment.value.1));
  }

  /** Header, tracks, arrangement and resources, one after the other. */
  method ReadBody(schema: u32, bytes: seq<byte>, offset: nat) returns (read: Option<(DocumentFields, nat)>)
    requires offset <= |bytes|
    ensures read == ReadAt(BodyFields(schema), bytes, offset)
  {
    PairAt(HeaderFormat(schema), Three(TracksFormat(schema), ArrangementFormat(schema), ResourceFormat(schema)), bytes,
      offset);
    var header := ReadAt(HeaderFormat(schema), bytes, offset);
    if header.None? {
      return None;
    }
    ThreeAt(TracksFormat(schema), ArrangementFormat(schema), ResourceFormat(schema), bytes, header.value.1);
    var tracks := ReadList(TrackFormat(schema), MAXIMUM_TRACK_COUNT, bytes, header.value.1);
    if tracks.None? {
      return None;
    }
    var arrangement := ReadArrangement(schema, bytes, tracks.value.1);
    if arrangement.None? {
      return None;
    }
    var resources := ReadResources(schema, bytes, arrangement.value.1);
    if resources.None? {
      return None;
    }
    read := Some(((header.value.0, (tracks.value.0, (arrangement.value.0, resources.value.0))), resources.value.1));
  }

  /** Names every source the clips mention once. */
  method DeclareSources(clips: seq<Clip>) returns (sources: seq<MediaSource>)
    ensures sources == Placeholders(clips)
  {
    var declared: set<u64> := {};
    sources := [];
    var k := 0;
    while k < |clips|
      invariant 0 <= k <= |clips|
      invariant sources == Placeholders(clips[..k]) && declared == ClipSources(clips[..k])
    {
      assert clips[..k + 1][..k] == clips[..k];
      MoreSources(clips[..k], clips[k]);
      assert clips[..k + 1] == clips[..k] + [clips[k]];
      if clips[k].sourceId !in declared {
        sources := sources + [Placeholder(clips[k].sourceId)];
        declared := declared + {clips[k].sourceId};
      }
      k := k + 1;
    }
    assert clips[..k] == clips;
  }

  lemma MoreSources(clips: seq<Clip>, c: Clip)
    ensures ClipSources(clips + [c]) == ClipSources(clips) + {c.sourceId}
  {
    forall id | id in ClipSources(clips) ensures id in ClipSources(clips + [c]) {
      var e :| e in clips && e.sourceId == id;
      assert e in clips + [c];
    }
    assert c in clips + [c];
  }

  lemma WholeBody(schema: u32, bytes: seq<byte>)
    requires |bytes| >= 8
    ensures DecodeWhole(BodyFormat(schema), bytes[8..])
         == match ReadAt(BodyFields(schema), bytes, 8)
            case None => None
            case Some((f, next)) => if next == |bytes| then Some(ToDocument(f)) else None
  {
    FieldsWhole(BodyFields(schema), (e: SessionDocument) => FromDocument(e), (f: DocumentFields) => ToDocument(f),
      bytes);
  }

  lemma FieldsWhole<A, B>(a: Codec<A>, to: B -> A, from: A -> B, bytes: seq<byte>)
    requires |bytes| >= 8
    ensures DecodeWhole(Fields(a, to, from), bytes[8..])
         == match ReadAt(a, bytes, 8)
            case None => None
            case Some((f, next)) => if next == |bytes| then Some(from(f)) else None
  {}

  /** The sections of a known schema, migrated and validated. */
  method DeserializeBody(schema: u32, bytes: seq<byte>) returns (result: Option<SessionDocument>)
    requires |bytes| >= 8
    ensures result == DecodeBody(schema, bytes[8..])
  {
    WholeBody(schema, bytes);
    var body := ReadBody(schema, bytes, 8);
    if body.None? || body.value.1 != |bytes| {
      return None;
    }
    var d := ToDocument(body.value.0);
    if schema < 4 {
      var sources := DeclareSources(d.clips);
      d := d.(mediaSources := sources);
    }
    var valid := ValidateDocument(d);
    result := if valid then Some(d) else None;
  }

  method DeserializeBytes(bytes: seq<byte>) returns (result: Option<SessionDocument>)
    ensures result == Decode(bytes)
  {
    if |bytes| < 8 || bytes[..4] != SESSION_MAGIC {
      return None;
    }
    var schema := DecodeU32(bytes[4..8]);
    if schema < MINIMUM_SCHEMA || schema > CURRENT_SCHEMA {
      return None;
    }
    result := DeserializeBody(schema, bytes);
  }

  /** `deserializeSessionDocument`: accepts exactly the bytes that are the layout of a valid document. */
  method DeserializeSessionDocument(bytes: seq<byte>) returns (result: Option<SessionDocument>)
    ensures result == Decode(bytes)
    ensures Answers(bytes, result) == true
  {
    result := DeserializeBytes(bytes);
    DecodedLayout(bytes, result);
  }
}
