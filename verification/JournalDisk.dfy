/** The appending journal object and the rewriting of a journal, over a file that may be torn by a failure. */
module JournalDisk {
  import opened SessionDocuments
  import opened Framing
  import opened JournalFile

  /** A file by its durable bytes; an absent file is an empty one. */
  class DiskFile {
    var bytes: seq<byte>

    constructor (bytes: seq<byte>)
      ensures this.bytes == bytes
    {
      this.bytes := bytes;
    }
  }

  /** How an append ends: the file could not be opened or repaired, some bytes arrived before a failure or a
      crash, or the record was flushed. */
  datatype AppendEnd = Unopened | Torn(written: nat) | Flushed

  /** How a rewrite through a staging file ends: before the replacement, after it but reported as failed, or
      done. Replacing is atomic. */
  datatype ReplaceEnd = NotReplaced | ReplacedUnsynced | Replaced

  ghost function Commands(crc: Checksum, bytes: seq<byte>): seq<JournalCommand> {
    Recovered(crc, bytes).commands
  }

  /** Every byte belongs to a readable record. */
  ghost predicate Whole(crc: Checksum, bytes: seq<byte>) {
    Recovered(crc, bytes).validBytes == |bytes|
  }

  lemma WrittenIsWhole(crc: Checksum, commands: seq<JournalCommand>)
    requires Ascending(commands, 0)
    ensures Commands(crc, EncodeAll(JournalFormat(crc), commands)) == commands
    ensures Whole(crc, EncodeAll(JournalFormat(crc), commands))
  {
    FormatIsSound(crc);
    ScanIntact(JournalFormat(crc), commands);
  }

  lemma ValidPrefixIsWhole(crc: Checksum, bytes: seq<byte>)
    ensures var r := Recovered(crc, bytes);
      && r.validBytes <= |bytes| && Ascending(r.commands, 0)
      && bytes[..r.validBytes] == EncodeAll(JournalFormat(crc), r.commands)
      && Commands(crc, bytes[..r.validBytes]) == r.commands && Whole(crc, bytes[..r.validBytes])
  {
    FormatIsSound(crc);
    ScanIsSound(JournalFormat(crc), bytes, 0);
    WrittenIsWhole(crc, Recovered(crc, bytes).commands);
  }

  /** What a reader finds after part of a record, or all of it, was added to a whole file. */
  lemma AppendedPart(crc: Checksum, bytes: seq<byte>, c: JournalCommand, written: nat)
    requires Whole(crc, bytes) && c.sequence > LastSequence(Commands(crc, bytes), 0)
      && written <= |EncodeCommand(crc, c)|
    ensures Commands(crc, bytes + EncodeCommand(crc, c)[..written])
         == if written == |EncodeCommand(crc, c)| then Commands(crc, bytes) + [c] else Commands(crc, bytes)
    ensures written == |EncodeCommand(crc, c)| ==> Whole(crc, bytes + EncodeCommand(crc, c)[..written])
  {
    var f := JournalFormat(crc);
    var commands := Commands(crc, bytes);
    FormatIsSound(crc);
    ValidPrefixIsWhole(crc, bytes);
    assert bytes[..|bytes|] == bytes;
    AppendCrash(f, commands, c, written);
    if written == |EncodeCommand(crc, c)| {
      assert EncodeCommand(crc, c)[..written] == f.encode(c);
      TruncateThenAppend(f, bytes, c, bytes, bytes + EncodeCommand(crc, c)[..written]);
    }
  }

  /** The whole records at the front of a file. */
  ghost function WholeFront(crc: Checksum, bytes: seq<byte>): seq<byte> {
    ValidPrefixIsWhole(crc, bytes);
    bytes[..Recovered(crc, bytes).validBytes]
  }

  /** The bytes of one record have come behind the whole ones; a torn tail is gone. */
  ghost predicate WrittenBehind(crc: Checksum, before: seq<byte>, c: JournalCommand, after: seq<byte>) {
    after == WholeFront(crc, before) + EncodeCommand(crc, c)
  }

  class CommandJournal {
    const crc: Checksum
    const file: DiskFile
    var lastSequence: u64
    var initialized: bool

    constructor (crc: Checksum, file: DiskFile)
      ensures this.crc == crc && this.file == file && !initialized
    {
      this.crc := crc;
      this.file := file;
      lastSequence := 0;
      initialized := false;
    }

    /** Once initialised, the file ends with a whole record, numbered `lastSequence`. */
    ghost predicate Valid()
      reads this, file
    {
      initialized ==> Whole(crc, file.bytes) && lastSequence == LastSequence(Commands(crc, file.bytes), 0)
    }

    /** Cuts a torn tail off and finds the last sequence. */
    method Initialize()
      modifies this, file
      ensures Valid() && initialized && Commands(crc, file.bytes) == old(Commands(crc, file.bytes))
      ensures file.bytes == WholeFront(crc, old(file.bytes))
    {
      var recovered := RecoverCommandJournal(crc, file.bytes);
      ValidPrefixIsWhole(crc, file.bytes);
      if recovered.discardedInvalidTail {
        file.bytes := file.bytes[..recovered.validBytes];
      }
      lastSequence := if recovered.commands == [] then 0 else recovered.commands[|recovered.commands| - 1].sequence;
      initialized := true;
    }

    /** Adds a record behind all others. A failure leaves the readable records as they were or, when all bytes
        arrived, with the new one; after a torn write the journal must not be used again. */
    method Append(sequence: u64, payload: Payload, end: AppendEnd) returns (ok: bool)
      requires Valid()
      modifies this, file
      ensures var before := old(Commands(crc, file.bytes));
        && (ok <==> end.Flushed? && sequence > LastSequence(before, 0))
        && (ok ==> Commands(crc, file.bytes) == before + [JournalCommand(sequence, payload)])
        && (!ok ==> Commands(crc, file.bytes) == before || (end.Torn? && Commands(crc, file.bytes) == before + [JournalCommand(sequence, payload)]))
      ensures !end.Torn? ==> Valid()
      ensures ok ==> WrittenBehind(crc, old(file.bytes), JournalCommand(sequence, payload), file.bytes) == true
    {
      if end.Unopened? {
        return false;
      }
      if !initialized {
        Initialize();
      }
      if sequence <= lastSequence {
        return false;
      }
      assert file.bytes == WholeFront(crc, old(file.bytes));
      var c := JournalCommand(sequence, payload);
      var record := EncodeCommand(crc, c);
      var arrived := if end.Torn? && end.written < |record| then end.written else |record|;
      AppendedPart(crc, file.bytes, c, arrived);
      file.bytes := file.bytes + record[..arrived];
      if end.Torn? {
        return false;
      }
      lastSequence := sequence;
      ok := true;
      assert record[..arrived] == record;
    }
  }

  /** Sequences are non-zero and strictly increase. */
  method CheckSequences(commands: seq<JournalCommand>) returns (ok: bool)
    ensures ok <==> Ascending(commands, 0)
  {
    var previous: u64 := 0;
    var k := 0;
    while k < |commands|
      invariant 0 <= k <= |commands|
      invariant Ascending(commands[..k], 0) && previous == LastSequence(commands[..k], 0)
    {
      if commands[k].sequence <= previous {
        if k > 0 { assert commands[..k][k - 1] == commands[k - 1]; }
        return false;
      }
      AscendingAppend(commands[..k], commands[k]);
      assert commands[..k + 1] == commands[..k] + [commands[k]];
      previous := commands[k].sequence;
      k := k + 1;
    }
    assert commands[..k] == commands;
    ok := true;
  }

  /** Replaces a journal by another one, through a staging file: afterwards the file holds the old bytes or
      exactly the new records. */
  method RewriteCommandJournal(crc: Checksum, file: DiskFile, commands: seq<JournalCommand>, end: ReplaceEnd)
    returns (ok: bool)
    modifies file
    ensures ok <==> Ascending(commands, 0) && end.Replaced?
    ensures file.bytes == if Ascending(commands, 0) && !end.NotReplaced? then EncodeAll(JournalFormat(crc), commands) else old(file.bytes)
  {
    ok := CheckSequences(commands);
    if !ok {
      return;
    }
    var staging: seq<byte> := [];
    var k := 0;
    while k < |commands|
      invariant 0 <= k <= |commands|
      invariant staging == EncodeAll(JournalFormat(crc), commands[..k])
      invariant file.bytes == old(file.bytes)
    {
      EncodeConcat(JournalFormat(crc), commands[..k], [commands[k]]);
      assert [commands[k]][1..] == [];
      assert commands[..k + 1] == commands[..k] + [commands[k]];
      staging := staging + EncodeCommand(crc, commands[k]);
      k := k + 1;
    }
    assert commands[..k] == commands;
    if !end.NotReplaced? {
      file.bytes := staging;
    }
    ok := end.Replaced?;
  }
}
