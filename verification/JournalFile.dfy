/** The command journal on disk: record envelopes, recovery, and the appending journal object. */
module JournalFile {
  import opened SessionDocuments
  import opened Bytes
  import opened Framing

  /** The CRC-32 of section 8 of RFC 1952 in the program; any function of the bytes here. */
  type Checksum = seq<byte> -> u32

  datatype Recovery = Recovery(commands: seq<JournalCommand>, validBytes: nat, discardedInvalidTail: bool)

  const JOURNAL_MAGIC: seq<byte> := [0x49, 0x52, 0x4A, 0x43]
  const FORMAT_VERSION: u32 := 1
  const HEADER_SIZE := 24

  function Header(crc: Checksum, c: JournalCommand): (bytes: seq<byte>)
    ensures |bytes| == HEADER_SIZE
  {
    JOURNAL_MAGIC + EncodeU32(FORMAT_VERSION) + EncodeU64(c.sequence) + EncodeU32(|c.payload|) + EncodeU32(crc(c.payload))
  }

  /** Magic, version, sequence, payload size, payload checksum, payload. */
  function EncodeCommand(crc: Checksum, c: JournalCommand): (bytes: seq<byte>)
    ensures |bytes| == HEADER_SIZE + |c.payload|
  {
    Header(crc, c) + c.payload
  }

  /** Reads one record from the front of `bytes`; it must follow `previous`. */
  function ParseCommand(crc: Checksum, bytes: seq<byte>, previous: u64): Parsed {
    if |bytes| < HEADER_SIZE
       || bytes[..4] != JOURNAL_MAGIC
       || DecodeU32(bytes[4..8]) != FORMAT_VERSION
       || DecodeU64(bytes[8..16]) <= previous
       || DecodeU32(bytes[16..20]) > |bytes| - HEADER_SIZE
    then Broken
    else
      var payload := bytes[HEADER_SIZE..HEADER_SIZE + DecodeU32(bytes[16..20])];
      if crc(payload) != DecodeU32(bytes[20..24]) then Broken
      else Intact(JournalCommand(DecodeU64(bytes[8..16]), payload), HEADER_SIZE + |payload|)
  }

  function JournalFormat(crc: Checksum): Format {
    Format(c => EncodeCommand(crc, c), (bytes: seq<byte>, previous: u64) => ParseCommand(crc, bytes, previous))
  }

  lemma HeaderFields(crc: Checksum, c: JournalCommand)
    ensures var h := Header(crc, c);
      && h[..4] == JOURNAL_MAGIC && DecodeU32(h[4..8]) == FORMAT_VERSION && DecodeU64(h[8..16]) == c.sequence
      && DecodeU32(h[16..20]) == |c.payload| && DecodeU32(h[20..24]) == crc(c.payload)
  {
    RoundTripU32(FORMAT_VERSION);
    RoundTripU64(c.sequence);
    RoundTripU32(|c.payload|);
    RoundTripU32(crc(c.payload));
    var h := Header(crc, c);
    assert h[4..8] == EncodeU32(FORMAT_VERSION);
    assert h[8..16] == EncodeU64(c.sequence);
    assert h[16..20] == EncodeU32(|c.payload|);
    assert h[20..24] == EncodeU32(crc(c.payload));
  }

  lemma SamePrefix(a: seq<byte>, b: seq<byte>)
    requires |a| >= HEADER_SIZE && |b| >= HEADER_SIZE && a[..HEADER_SIZE] == b[..HEADER_SIZE]
    ensures a[..4] == b[..4] && a[4..8] == b[4..8] && a[8..16] == b[8..16] && a[16..20] == b[16..20]
      && a[20..24] == b[20..24]
  {
    assert a[..4] == a[..HEADER_SIZE][..4] && a[4..8] == a[..HEADER_SIZE][4..8] && a[8..16] == a[..HEADER_SIZE][8..16];
    assert a[16..20] == a[..HEADER_SIZE][16..20] && a[20..24] == a[..HEADER_SIZE][20..24];
    assert b[..4] == b[..HEADER_SIZE][..4] && b[4..8] == b[..HEADER_SIZE][4..8] && b[8..16] == b[..HEADER_SIZE][8..16];
    assert b[16..20] == b[..HEADER_SIZE][16..20] && b[20..24] == b[..HEADER_SIZE][20..24];
  }

  /** A whole record parses back, whatever follows it. */
  lemma ParseEncoded(crc: Checksum, c: JournalCommand, rest: seq<byte>, previous: u64)
    requires c.sequence > previous
    ensures ParseCommand(crc, EncodeCommand(crc, c) + rest, previous) == Intact(c, HEADER_SIZE + |c.payload|)
  {
    var h, bytes := Header(crc, c), EncodeCommand(crc, c) + rest;
    HeaderFields(crc, c);
    assert bytes[..HEADER_SIZE] == h == h[..HEADER_SIZE];
    SamePrefix(bytes, h);
    assert bytes[HEADER_SIZE..HEADER_SIZE + |c.payload|] == c.payload;
  }

  /** A proper prefix of a record does not parse. */
  lemma ParseTorn(crc: Checksum, c: JournalCommand, cut: nat, previous: u64)
    requires cut < HEADER_SIZE + |c.payload|
    ensures ParseCommand(crc, EncodeCommand(crc, c)[..cut], previous) == Broken
  {
    if cut >= HEADER_SIZE {
      var h, bytes := Header(crc, c), EncodeCommand(crc, c)[..cut];
      HeaderFields(crc, c);
      assert bytes[..HEADER_SIZE] == h == h[..HEADER_SIZE];
      SamePrefix(bytes, h);
    }
  }

  lemma FieldU32(bytes: seq<byte>, v: u32)
    requires |bytes| == 4 && DecodeU32(bytes) == v
    ensures bytes == EncodeU32(v)
  {
    CanonicalU32(bytes);
  }

  lemma FieldU64(bytes: seq<byte>, v: u64)
    requires |bytes| == 8 && DecodeU64(bytes) == v
    ensures bytes == EncodeU64(v)
  {
    CanonicalU64(bytes);
  }

  lemma SplitHeader(h: seq<byte>)
    requires |h| == HEADER_SIZE
    ensures h == h[..4] + h[4..8] + h[8..16] + h[16..20] + h[20..24]
  {}

  lemma HeaderIsDetermined(crc: Checksum, h: seq<byte>, c: JournalCommand)
    requires |h| == HEADER_SIZE && h[..4] == JOURNAL_MAGIC && DecodeU32(h[4..8]) == FORMAT_VERSION
    requires DecodeU64(h[8..16]) == c.sequence && DecodeU32(h[16..20]) == |c.payload|
      && DecodeU32(h[20..24]) == crc(c.payload)
    ensures h == Header(crc, c)
  {
    FieldU32(h[4..8], FORMAT_VERSION);
    FieldU64(h[8..16], c.sequence);
    FieldU32(h[16..20], |c.payload|);
    FieldU32(h[20..24], crc(c.payload));
    SplitHeader(h);
  }

  lemma ParsedFields(crc: Checksum, bytes: seq<byte>, previous: u64)
    requires ParseCommand(crc, bytes, previous).Intact?
    ensures var p := ParseCommand(crc, bytes, previous);
      && |bytes| >= HEADER_SIZE && p.size == HEADER_SIZE + |p.command.payload| <= |bytes|
      && bytes[HEADER_SIZE..p.size] == p.command.payload && p.command.sequence > previous
      && bytes[..4] == JOURNAL_MAGIC && DecodeU32(bytes[4..8]) == FORMAT_VERSION
        && DecodeU64(bytes[8..16]) == p.command.sequence
      && DecodeU32(bytes[16..20]) == |p.command.payload| && DecodeU32(bytes[20..24]) == crc(p.command.payload)
  {}

  /** What parses is a whole record. */
  lemma ParsedIsEncoded(crc: Checksum, bytes: seq<byte>, previous: u64)
    requires ParseCommand(crc, bytes, previous).Intact?
    ensures var p := ParseCommand(crc, bytes, previous);
      0 < p.size <= |bytes| && EncodeCommand(crc, p.command) == bytes[..p.size] && p.command.sequence > previous
  {
    ParsedFields(crc, bytes, previous);
    var p, h := ParseCommand(crc, bytes, previous), bytes[..HEADER_SIZE];
    assert h[..HEADER_SIZE] == h;
    SamePrefix(bytes, h);
    HeaderIsDetermined(crc, h, p.command);
    assert bytes[..p.size] == h + p.command.payload;
  }

  lemma FormatIsSound(crc: Checksum)
    ensures Sound(JournalFormat(crc))
  {
    var f := JournalFormat(crc);
    forall c: JournalCommand, rest, previous | c.sequence > previous
      ensures f.parse(f.encode(c) + rest, previous) == Intact(c, |f.encode(c)|) {
      ParseEncoded(crc, c, rest, previous);
    }
    forall c: JournalCommand, cut, previous | 0 <= cut < |f.encode(c)|
      ensures f.parse(f.encode(c)[..cut], previous) == Broken {
      ParseTorn(crc, c, cut, previous);
    }
    forall bytes, previous | f.parse(bytes, previous).Intact? ensures ParsedWhole(f, bytes, previous) {
      ParsedIsEncoded(crc, bytes, previous);
    }
  }

  // ----- recovery

  ghost function Recovered(crc: Checksum, bytes: seq<byte>): Recovery {
    FormatIsSound(crc);
    var scan := Scan(JournalFormat(crc), bytes, 0);
    Recovery(scan.0, scan.1, scan.1 != |bytes|)
  }

  /** `recoverCommandJournal`: reads records until the first one that is torn, corrupt or out of order. */
  method RecoverCommandJournal(crc: Checksum, bytes: seq<byte>) returns (result: Recovery)
    ensures result == Recovered(crc, bytes)
  {
    FormatIsSound(crc);
    result := ReadRecords(JournalFormat(crc), bytes);
  }

  /** The reading loop; `f.parse` is `ParseCommand`. */
  method ReadRecords(f: Format, bytes: seq<byte>) returns (result: Recovery)
    requires Sound(f)
    ensures result == Recovery(Scan(f, bytes, 0).0, Scan(f, bytes, 0).1, Scan(f, bytes, 0).1 != |bytes|)
  {
    var commands: seq<JournalCommand> := [];
    var offset := 0;
    var previous: u64 := 0;
    var discarded := false;
    assert bytes[0..] == bytes;
    while offset < |bytes| && !discarded
      invariant 0 <= offset <= |bytes|
      invariant Scan(f, bytes, 0).0 == commands + Scan(f, bytes[offset..], previous).0
      invariant Scan(f, bytes, 0).1 == offset + Scan(f, bytes[offset..], previous).1
      invariant discarded ==> offset < |bytes| && Scan(f, bytes[offset..], previous) == ([], 0)
      decreases |bytes| - offset, !discarded
    {
      var parsed := f.parse(bytes[offset..], previous);
      if parsed.Broken? {
        discarded := true;
      } else {
        ScanStep(f, bytes, offset, previous, commands);
        commands := commands + [parsed.command];
        previous := parsed.command.sequence;
        offset := offset + parsed.size;
      }
    }
    ScanNothing(f, previous);
    result := Recovery(commands, offset, discarded);
  }

  /** Torn-tail recovery is exact: cut anywhere, precisely the records that end by the cut come back, and the
      valid length is the end of the last of them. */
  lemma RecoverTorn(crc: Checksum, commands: seq<JournalCommand>, cut: nat)
    requires Ascending(commands, 0) && cut <= |EncodeAll(JournalFormat(crc), commands)|
    ensures var f := JournalFormat(crc); var n := Surviving(f, commands, cut);
      && SizeOfAll(f, commands[..n]) <= cut && (n < |commands| ==> cut < SizeOfAll(f, commands[..n + 1]))
      && Recovered(crc, EncodeAll(f, commands)[..cut])
        == Recovery(commands[..n], SizeOfAll(f, commands[..n]), SizeOfAll(f, commands[..n]) != cut)
  {
    FormatIsSound(crc);
    ScanTorn(JournalFormat(crc), commands, cut, 0);
    SurvivingIsExact(JournalFormat(crc), commands, cut);
  }
}
