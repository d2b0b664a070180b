/** The project snapshot on disk: an envelope around a payload, saved through a staging file and an atomic
    replacement, and loaded with recovery from a staging file left behind. */
module ProjectFile {
  import opened SessionDocuments
  import opened Bytes
  import opened Codecs
  import opened JournalFile
  import opened JournalDisk

  type ProjectPayload = s: seq<byte> | |s| <= U64_MAX

  const PROJECT_MAGIC: seq<byte> := [0x49, 0x52, 0x50, 0x58]
  const PROJECT_VERSION: u32 := 1
  const PROJECT_HEADER_SIZE := 20

  function EnvelopeHeader(crc: Checksum, payload: ProjectPayload): (bytes: seq<byte>)
    ensures |bytes| == PROJECT_HEADER_SIZE
  {
    PROJECT_MAGIC + EncodeU32(PROJECT_VERSION) + EncodeU64(|payload|) + EncodeU32(crc(payload))
  }

  /** Magic, version, payload size, payload checksum, payload. */
  function Envelope(crc: Checksum, payload: ProjectPayload): (bytes: seq<byte>)
    ensures |bytes| == PROJECT_HEADER_SIZE + |payload|
  {
    EnvelopeHeader(crc, payload) + payload
  }

  function DecodeProject(crc: Checksum, bytes: seq<byte>): Option<ProjectPayload> {
    if |bytes| < PROJECT_HEADER_SIZE || bytes[..4] != PROJECT_MAGIC || DecodeU32(bytes[4..8]) != PROJECT_VERSION
       || DecodeU64(bytes[8..16]) != |bytes| - PROJECT_HEADER_SIZE
         || crc(bytes[PROJECT_HEADER_SIZE..]) != DecodeU32(bytes[16..20])
    then None
    else Some(bytes[PROJECT_HEADER_SIZE..])
  }

  lemma HeaderParts(magic: seq<byte>, version: seq<byte>, size: seq<byte>, checksum: seq<byte>)
    requires |magic| == 4 && |version| == 4 && |size| == 8 && |checksum| == 4
    ensures var h := magic + version + size + checksum;
      h[..4] == magic && h[4..8] == version && h[8..16] == size && h[16..20] == checksum
  {}

  lemma EnvelopeFields(crc: Checksum, payload: ProjectPayload)
    ensures var h := EnvelopeHeader(crc, payload);
      h[..4] == PROJECT_MAGIC && DecodeU32(h[4..8]) == PROJECT_VERSION && DecodeU64(h[8..16]) == |payload|
        && DecodeU32(h[16..20]) == crc(payload)
  {
    RoundTripU32(PROJECT_VERSION);
    RoundTripU64(|payload|);
    RoundTripU32(crc(payload));
    HeaderParts(PROJECT_MAGIC, EncodeU32(PROJECT_VERSION), EncodeU64(|payload|), EncodeU32(crc(payload)));
  }

  lemma SameHeader(a: seq<byte>, b: seq<byte>)
    requires |a| >= PROJECT_HEADER_SIZE && |b| == PROJECT_HEADER_SIZE && a[..PROJECT_HEADER_SIZE] == b
    ensures a[..4] == b[..4] && a[4..8] == b[4..8] && a[8..16] == b[8..16] && a[16..20] == b[16..20]
  {
    var h := a[..PROJECT_HEADER_SIZE];
    assert a[..4] == h[..4] && a[4..8] == h[4..8] && a[8..16] == h[8..16] && a[16..20] == h[16..20];
  }

  /** A whole envelope is read back; cut anywhere, it is refused. */
  lemma EnvelopeReadsBack(crc: Checksum, payload: ProjectPayload, cut: nat)
    requires cut <= PROJECT_HEADER_SIZE + |payload|
    ensures DecodeProject(crc, Envelope(crc, payload)[..cut])
      == if cut == PROJECT_HEADER_SIZE + |payload| then Some(payload) else None
  {
    if cut >= PROJECT_HEADER_SIZE {
      var bytes := Envelope(crc, payload)[..cut];
      EnvelopeFields(crc, payload);
      assert bytes[..PROJECT_HEADER_SIZE] == EnvelopeHeader(crc, payload);
      SameHeader(bytes, EnvelopeHeader(crc, payload));
      if cut == PROJECT_HEADER_SIZE + |payload| {
        assert bytes[PROJECT_HEADER_SIZE..] == payload;
      }
    }
  }

  /** How a save ends: the staging file could not be opened, part of it arrived, all of it arrived, the target was
      replaced but that was reported as failed, or everything was flushed. */
  datatype SaveEnd = NotStaged | StagingTorn(written: nat) | StagingFlushed | SwappedUnsynced | Saved

  /** The payload of a file, if it can be read. */
  function PayloadOf(crc: Checksum, file: Option<seq<byte>>): Option<ProjectPayload> {
    match file
    case None => None
    case Some(bytes) => DecodeProject(crc, bytes)
  }

  /** What can be loaded: the target, or else a complete staging file. */
  function LoadablePayload(crc: Checksum, target: Option<seq<byte>>,
    staging: Option<seq<byte>>): Option<ProjectPayload>
  {
    if PayloadOf(crc, target).Some? then PayloadOf(crc, target) else PayloadOf(crc, staging)
  }

  /** What loading gives: a staging file only if it could replace the target. */
  function LoadedPayload(crc: Checksum, target: Option<seq<byte>>, staging: Option<seq<byte>>,
    end: ReplaceEnd): Option<ProjectPayload>
  {
    if PayloadOf(crc, target).Some? then PayloadOf(crc, target) else if end.Replaced? then PayloadOf(crc, staging) else None
  }

  /** The two files of a project by their durable bytes. */
  class ProjectFiles {
    const crc: Checksum
    var target: Option<seq<byte>>
    var staging: Option<seq<byte>>

    constructor (crc: Checksum, target: Option<seq<byte>>, staging: Option<seq<byte>>)
      ensures this.crc == crc && this.target == target && this.staging == staging
    {
      this.crc := crc;
      this.target := target;
      this.staging := staging;
    }

    /** `saveProjectSnapshot`: at every point where it may be cut off, the target is what it was or the complete
        new envelope, and a torn staging file is never taken for a snapshot. */
    method SaveProjectSnapshot(payload: ProjectPayload, end: SaveEnd) returns (ok: bool)
      modifies this
      ensures ok <==> end.Saved?
      ensures if end.Saved? || end.SwappedUnsynced? then PayloadOf(crc, target) == Some(payload) && staging == None else target == old(target)
      ensures var before, now := old(LoadablePayload(crc, target, staging)), LoadablePayload(crc, target, staging);
        && (now == before || now == Some(payload) || old(PayloadOf(crc, target)).None?)
        && (old(PayloadOf(crc, target)).None? ==>
          now == None || now == Some(payload) || (end.NotStaged? && staging == old(staging)))
    {
      if end.NotStaged? {
        return false;
      }
      var envelope := Envelope(crc, payload);
      var arrived := if end.StagingTorn? && end.written < |envelope| then end.written else |envelope|;
      EnvelopeReadsBack(crc, payload, arrived);
      staging := Some(envelope[..arrived]);
      if end.StagingTorn? || end.StagingFlushed? {
        return false;
      }
      assert envelope[..arrived] == envelope;
      target, staging := staging, None;
      ok := end.Saved?;
    }

    /** `loadProjectSnapshot`: removes a staging file, which may fail unnoticed, or completes an interrupted save with
        it. However that ends, the same snapshot can be loaded afterwards. */
    method LoadProjectSnapshot(end: ReplaceEnd, removed: bool) returns (loaded: Option<ProjectPayload>)
      modifies this
      ensures loaded == LoadedPayload(crc, old(target), old(staging), end)
      ensures LoadablePayload(crc, target, staging) == old(LoadablePayload(crc, target, staging))
      ensures loaded.Some? ==> PayloadOf(crc, target) == loaded
      ensures old(PayloadOf(crc, target)).Some? ==> target == old(target) && loaded == old(PayloadOf(crc, target))
      ensures old(PayloadOf(crc, target)).None? && end.Replaced? ==> loaded == old(PayloadOf(crc, staging))
      ensures old(PayloadOf(crc, target)).None? && !end.Replaced? ==> loaded.None?
      ensures old(PayloadOf(crc, target)).None? && old(PayloadOf(crc, staging)).Some? && !end.NotReplaced? ==>
        target == old(staging) && staging.None?
    {
      loaded := PayloadOf(crc, target);
      if loaded.Some? {
        if removed { staging := None; }
        return;
      }
      loaded := PayloadOf(crc, staging);
      if loaded.None? {
        return;
      }
      if !end.NotReplaced? {
        target, staging := staging, None;
      }
      if !end.Replaced? {
        loaded := None;
      }
    }
  }
}
