/** The bytes of journal records and project files, written out field by field, and that exactly these are read. */
module FileLayout {
  import opened SessionDocuments
  import opened SessionEditing
  import opened SessionHistory
  import opened Bytes
  import opened Codecs
  import opened Framing
  import opened JournalFile
  import opened CommandRecords
  import opened ProjectFile

  // ----- session commands

  function CommandBytes(c: SessionCommand): seq<byte> {
    Bytes4(match c.kind case SetTempo => 1 case AddTrack => 2 case RenameTrack => 3 case RemoveTrack => 4)
    + Bytes8(c.entityId) + Bytes4(c.trackType) + Bytes4(c.color) + Bytes8(c.tempo) + Bytes4(|c.name|) + c.name
  }

  function EntryBytes(e: HistoryEntry): seq<byte> { CommandBytes(e.forward) + CommandBytes(e.inverse) }

  function ActionBytes(r: Record): seq<byte> {
    Bytes4(match r case Change(Edit, _) => 1 case Change(Undo, _) => 2 case Change(Redo, _) => 3 case Baseline(_) => 4)
  }

  function RecordBytes(r: Record): seq<byte> {
    [0x49, 0x53, 0x43, 0x31] + Bytes4(1) + ActionBytes(r)
    + match r case Change(_, e) => EntryBytes(e) case Baseline(revision) => Bytes8(revision)
  }

  lemma CommandLayout(c: SessionCommand)
    requires |c.name| <= U32_MAX
    ensures CommandFormat().encode(c) == CommandBytes(c)
  {
    StoredEncoding(c);
    FourBytes(KindNumber(c.kind));
    EightBytes(c.entityId);
    FourBytes(c.trackType);
    FourBytes(c.color);
    EightBytes(c.tempo);
    FourBytes(|c.name|);
  }

  lemma EntryLayout(e: HistoryEntry)
    requires |e.forward.name| <= U32_MAX && |e.inverse.name| <= U32_MAX
    ensures EntryFormat().encode((e.forward, e.inverse)) == EntryBytes(e)
  {
    CommandLayout(e.forward);
    CommandLayout(e.inverse);
    PairEncoding(CommandFormat(), CommandFormat(), e.forward, e.inverse);
  }

  lemma BodyLayout(r: Record)
    requires Writable(r)
    ensures EncodeBody(r) == match r case Change(_, e) => EntryBytes(e) case Baseline(revision) => Bytes8(revision)
  {
    if r.Baseline? { EightBytes(r.revision); } else { EntryLayout(r.entry); }
  }

  lemma PreambleLayout(r: Record)
    ensures Preamble(ActionField(r)) == [0x49, 0x53, 0x43, 0x31] + Bytes4(1) + ActionBytes(r)
  {
    FourBytes(COMMAND_SCHEMA_VERSION);
    FourBytes(ActionField(r));
  }

  /** What is written for a record is its layout. */
  lemma RecordLayout(r: Record)
    requires Writable(r)
    ensures EncodeRecord(r) == RecordBytes(r)
  {
    PreambleLayout(r);
    BodyLayout(r);
  }

  /** A record is read from its layout and from nothing else, if its names and track types can be read at all. */
  lemma RecordIsItsLayout(bytes: seq<byte>, r: Record)
    requires Writable(r)
    ensures DecodeRecord(bytes) == Some(r) <==> Decodable(r) && bytes == RecordBytes(r)
  {
    RecordLayout(r);
    RecordReadsBack(r);
    if DecodeRecord(bytes) == Some(r) {
      ReadRecordIsCanonical(bytes);
    }
  }

  // ----- journal records

  function JournalRecordBytes(crc: Checksum, c: JournalCommand): seq<byte> {
    [0x49, 0x52, 0x4A, 0x43] + Bytes4(1) + Bytes8(c.sequence) + Bytes4(|c.payload|) + Bytes4(crc(c.payload)) + c.payload
  }

  lemma JournalRecordLayout(crc: Checksum, c: JournalCommand)
    ensures EncodeCommand(crc, c) == JournalRecordBytes(crc, c)
  {
    FourBytes(FORMAT_VERSION);
    EightBytes(c.sequence);
    FourBytes(|c.payload|);
    FourBytes(crc(c.payload));
  }

  /** A record is found at the front of exactly the bytes that start with its layout, if it is newer. */
  lemma JournalRecordIsItsLayout(crc: Checksum, bytes: seq<byte>, previous: u64, c: JournalCommand)
    ensures ParseCommand(crc, bytes, previous) == Intact(c, |JournalRecordBytes(crc, c)|) <==>
      c.sequence > previous && JournalRecordBytes(crc, c) <= bytes
  {
    JournalRecordLayout(crc, c);
    var layout := JournalRecordBytes(crc, c);
    if ParseCommand(crc, bytes, previous) == Intact(c, |layout|) {
      ParsedIsEncoded(crc, bytes, previous);
    }
    if c.sequence > previous && layout <= bytes {
      ParseEncoded(crc, c, bytes[|layout|..], previous);
      assert layout + bytes[|layout|..] == bytes;
    }
  }

  // ----- project files

  function EnvelopeBytes(crc: Checksum, payload: ProjectPayload): seq<byte> {
    [0x49, 0x52, 0x50, 0x58] + Bytes4(1) + Bytes8(|payload|) + Bytes4(crc(payload)) + payload
  }

  lemma EnvelopeLayout(crc: Checksum, payload: ProjectPayload)
    ensures Envelope(crc, payload) == EnvelopeBytes(crc, payload)
  {
    FourBytes(PROJECT_VERSION);
    EightBytes(|payload|);
    FourBytes(crc(payload));
  }

  /** A payload is read from its envelope and from nothing else. */
  lemma EnvelopeIsItsLayout(crc: Checksum, bytes: seq<byte>, payload: ProjectPayload)
    ensures DecodeProject(crc, bytes) == Some(payload) <==> bytes == EnvelopeBytes(crc, payload)
  {
    EnvelopeLayout(crc, payload);
    EnvelopeReadsBack(crc, payload, PROJECT_HEADER_SIZE + |payload|);
    assert Envelope(crc, payload)[..PROJECT_HEADER_SIZE + |payload|] == Envelope(crc, payload);
    if DecodeProject(crc, bytes) == Some(payload) {
      ReadEnvelopeIsCanonical(crc, bytes, payload);
    }
  }

  lemma ReadEnvelopeIsCanonical(crc: Checksum, bytes: seq<byte>, payload: ProjectPayload)
    requires DecodeProject(crc, bytes) == Some(payload)
    ensures bytes == Envelope(crc, payload)
  {
    FieldU32(bytes[4..8], PROJECT_VERSION);
    FieldU64(bytes[8..16], |payload|);
    FieldU32(bytes[16..20], crc(payload));
    assert bytes == bytes[..4] + bytes[4..8] + bytes[8..16] + bytes[16..20] + bytes[20..];
  }
}
