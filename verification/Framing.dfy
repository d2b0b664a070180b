/** Files that are a run of self-delimiting records: reading, torn tails, truncation and append, for any
    record format with the three properties of `Sound`. */
module Framing {
  import opened SessionDocuments

  /** A record body; the format stores its size in 32 bits. */
  type Payload = s: seq<byte> | |s| <= U32_MAX

  datatype JournalCommand = JournalCommand(sequence: u64, payload: Payload)

  datatype Parsed = Intact(command: JournalCommand, size: nat) | Broken

  /** How one record is written, and read from the front of a byte string after a record numbered `previous`. */
  datatype Format = Format(encode: JournalCommand -> seq<byte>, parse: (seq<byte>, u64) -> Parsed)

  /** Whole records parse back whatever follows, torn ones do not parse, and what parses is a whole record. */
  ghost predicate Sound(f: Format) {
    && (forall c :: |f.encode(c)| > 0)
    && (forall c: JournalCommand, rest, previous :: c.sequence > previous ==>
      f.parse(f.encode(c) + rest, previous) == Intact(c, |f.encode(c)|))
    && (forall c, cut, previous :: 0 <= cut < |f.encode(c)| ==> f.parse(f.encode(c)[..cut], previous) == Broken)
    && (forall bytes, previous :: f.parse(bytes, previous).Intact? ==> ParsedWhole(f, bytes, previous))
  }

  ghost predicate ParsedWhole(f: Format, bytes: seq<byte>, previous: u64)
    requires f.parse(bytes, previous).Intact?
  {
    var p := f.parse(bytes, previous);
    0 < p.size <= |bytes| && f.encode(p.command) == bytes[..p.size] && p.command.sequence > previous
  }

  ghost predicate Ascending(commands: seq<JournalCommand>, previous: u64) {
    && (forall k :: 0 <= k < |commands| ==> commands[k].sequence > previous)
    && (forall i, j :: 0 <= i < j < |commands| ==> commands[i].sequence < commands[j].sequence)
  }

  function EncodeAll(f: Format, commands: seq<JournalCommand>): seq<byte> {
    if commands == [] then [] else f.encode(commands[0]) + EncodeAll(f, commands[1..])
  }

  function SizeOfAll(f: Format, commands: seq<JournalCommand>): nat {
    if commands == [] then 0 else |f.encode(commands[0])| + SizeOfAll(f, commands[1..])
  }

  function LastSequence(commands: seq<JournalCommand>, previous: u64): u64 {
    if commands == [] then previous else commands[|commands| - 1].sequence
  }

  /** The records readable from the front of `bytes`, and where they end. */
  ghost function Scan(f: Format, bytes: seq<byte>, previous: u64): (seq<JournalCommand>, nat)
    requires Sound(f)
    decreases |bytes|
  {
    match f.parse(bytes, previous)
    case Broken => ([], 0)
    case Intact(c, size) =>
      assert ParsedWhole(f, bytes, previous);
      var rest := Scan(f, bytes[size..], c.sequence);
      ([c] + rest.0, size + rest.1)
  }

  /** The records that end at or before the cut. */
  function Surviving(f: Format, commands: seq<JournalCommand>, cut: nat): (n: nat)
    ensures n <= |commands|
  {
    if commands == [] || cut < |f.encode(commands[0])| then 0
    else 1 + Surviving(f, commands[1..], cut - |f.encode(commands[0])|)
  }

  /** What `Surviving` means: those records fit below the cut, one more would not. */
  lemma {:induction false} SurvivingIsExact(f: Format, commands: seq<JournalCommand>, cut: nat)
    ensures var n := Surviving(f, commands, cut);
      SizeOfAll(f, commands[..n]) <= cut && (n < |commands| ==> cut < SizeOfAll(f, commands[..n + 1]))
  {
    if commands != [] && cut >= |f.encode(commands[0])| {
      SurvivingIsExact(f, commands[1..], cut - |f.encode(commands[0])|);
      var n := Surviving(f, commands, cut);
      assert commands[..n][1..] == commands[1..][..n - 1];
      if n < |commands| { assert commands[..n + 1][1..] == commands[1..][..n]; }
    } else if commands != [] {
      assert commands[..1][0] == commands[0] && commands[..1][1..] == [];
    }
  }

  lemma {:induction false} EncodedLength(f: Format, commands: seq<JournalCommand>)
    ensures |EncodeAll(f, commands)| == SizeOfAll(f, commands)
  {
    if commands != [] { EncodedLength(f, commands[1..]); }
  }

  lemma {:induction false} EncodeConcat(f: Format, a: seq<JournalCommand>, b: seq<JournalCommand>)
    ensures EncodeAll(f, a + b) == EncodeAll(f, a) + EncodeAll(f, b)
  {
    if a == [] {
      assert a + b == b;
    } else {
      EncodeConcat(f, a[1..], b);
      assert (a + b)[1..] == a[1..] + b;
    }
  }

  lemma AscendingTail(commands: seq<JournalCommand>, previous: u64)
    requires Ascending(commands, previous) && commands != []
    ensures Ascending(commands[1..], commands[0].sequence)
    ensures LastSequence(commands[1..], commands[0].sequence) == LastSequence(commands, previous)
  {}

  /** A run of whole records is read back, and reading goes on with what follows. */
  lemma {:induction false} ScanWhole(f: Format, commands: seq<JournalCommand>, rest: seq<byte>, previous: u64)
    requires Sound(f) && Ascending(commands, previous)
    ensures Scan(f, EncodeAll(f, commands) + rest, previous).0
      == commands + Scan(f, rest, LastSequence(commands, previous)).0
    ensures Scan(f, EncodeAll(f, commands) + rest, previous).1
      == SizeOfAll(f, commands) + Scan(f, rest, LastSequence(commands, previous)).1
  {
    if commands == [] {
      assert [] + rest == rest;
      assert [] + Scan(f, rest, previous).0 == Scan(f, rest, previous).0;
    } else {
      var c, tail := commands[0], commands[1..];
      AscendingTail(commands, previous);
      ScanWhole(f, tail, rest, c.sequence);
      var after := EncodeAll(f, tail) + rest;
      assert EncodeAll(f, commands) + rest == f.encode(c) + after;
      assert (f.encode(c) + after)[|f.encode(c)|..] == after;
      assert [c] + (tail + Scan(f, rest, LastSequence(tail, c.sequence)).0)
        == commands + Scan(f, rest, LastSequence(commands, previous)).0;
    }
  }

  /** One step of a reader that keeps its position in the file. */
  lemma ScanStep(f: Format, bytes: seq<byte>, offset: nat, previous: u64, commands: seq<JournalCommand>)
    requires Sound(f) && offset <= |bytes| && f.parse(bytes[offset..], previous).Intact?
    ensures var p := f.parse(bytes[offset..], previous);
      && 0 < p.size && offset + p.size <= |bytes|
      && commands + Scan(f, bytes[offset..], previous).0
        == (commands + [p.command]) + Scan(f, bytes[offset + p.size..], p.command.sequence).0
      && offset + Scan(f, bytes[offset..], previous).1
        == (offset + p.size) + Scan(f, bytes[offset + p.size..], p.command.sequence).1
  {
    var p := f.parse(bytes[offset..], previous);
    assert ParsedWhole(f, bytes[offset..], previous);
    assert bytes[offset..][p.size..] == bytes[offset + p.size..];
    var rest := Scan(f, bytes[offset + p.size..], p.command.sequence).0;
    assert commands + ([p.command] + rest) == (commands + [p.command]) + rest;
  }

  lemma ScanNothing(f: Format, previous: u64)
    requires Sound(f)
    ensures Scan(f, [], previous) == ([], 0)
  {
    assert f.parse([], previous).Intact? ==> ParsedWhole(f, [], previous);
  }

  /** A whole file is read back exactly. */
  lemma ScanIntact(f: Format, commands: seq<JournalCommand>)
    requires Sound(f) && Ascending(commands, 0) == true
    ensures Scan(f, EncodeAll(f, commands), 0) == (commands, |EncodeAll(f, commands)|)
  {
    ScanWhole(f, commands, [], 0);
    ScanNothing(f, LastSequence(commands, 0));
    EncodedLength(f, commands);
    assert commands + [] == commands;
    assert EncodeAll(f, commands) + [] == EncodeAll(f, commands);
  }

  /** A whole record is read, whatever follows. */
  lemma ScanRecord(f: Format, c: JournalCommand, after: seq<byte>, previous: u64, bytes: seq<byte>)
    requires Sound(f) && c.sequence > previous && bytes == f.encode(c) + after
    ensures Scan(f, bytes, previous)
         == ([c] + Scan(f, after, c.sequence).0, |f.encode(c)| + Scan(f, after, c.sequence).1)
  {
    assert bytes[|f.encode(c)|..] == after;
  }

  /** A cut record is not read. */
  lemma ScanCutRecord(f: Format, c: JournalCommand, previous: u64, bytes: seq<byte>)
    requires Sound(f) && c.sequence > previous && |bytes| < |f.encode(c)| && bytes == f.encode(c)[..|bytes|]
    ensures Scan(f, bytes, previous) == ([], 0)
  {}

  /** Cut anywhere, precisely the records that end by the cut are read back. */
  lemma {:induction false} ScanTorn(f: Format, commands: seq<JournalCommand>, cut: nat, previous: u64)
    requires Sound(f) && Ascending(commands, previous) && cut <= |EncodeAll(f, commands)|
    ensures var n := Surviving(f, commands, cut);
      Scan(f, EncodeAll(f, commands)[..cut], previous) == (commands[..n], SizeOfAll(f, commands[..n]))
  {
    if commands == [] {
      ScanNothing(f, previous);
    } else {
      var c, tail := commands[0], commands[1..];
      var size, bytes := |f.encode(c)|, EncodeAll(f, commands)[..cut];
      CutOfHead(f.encode(c), EncodeAll(f, tail), cut);
      if cut < size {
        ScanCutRecord(f, c, previous, bytes);
      } else {
        AscendingTail(commands, previous);
        ScanTorn(f, tail, cut - size, c.sequence);
        ScanRecord(f, c, EncodeAll(f, tail)[..cut - size], previous, bytes);
        HeadAndTail(f, commands, Surviving(f, commands, cut));
      }
    }
  }

  lemma CutOfHead<T>(head: seq<T>, tail: seq<T>, cut: nat)
    requires cut <= |head + tail|
    ensures (head + tail)[..cut] == if cut < |head| then head[..cut] else head + tail[..cut - |head|]
  {}

  lemma HeadAndTail(f: Format, commands: seq<JournalCommand>, n: nat)
    requires 0 < n <= |commands|
    ensures commands[..n] == [commands[0]] + commands[1..][..n - 1]
    ensures SizeOfAll(f, commands[..n]) == |f.encode(commands[0])| + SizeOfAll(f, commands[1..][..n - 1])
  {
    assert commands[..n][1..] == commands[1..][..n - 1];
  }

  /** Whatever the file holds, the part that was read is the encoding of what was read. */
  lemma {:induction false} ScanIsSound(f: Format, bytes: seq<byte>, previous: u64)
    requires Sound(f)
    ensures var s := Scan(f, bytes, previous);
      s.1 <= |bytes| && Ascending(s.0, previous) && EncodeAll(f, s.0) == bytes[..s.1]
    decreases |bytes|
  {
    if f.parse(bytes, previous).Intact? {
      var p := f.parse(bytes, previous);
      assert ParsedWhole(f, bytes, previous);
      ScanIsSound(f, bytes[p.size..], p.command.sequence);
      var rest := Scan(f, bytes[p.size..], p.command.sequence);
      assert ([p.command] + rest.0)[1..] == rest.0;
      assert bytes[..p.size + rest.1] == bytes[..p.size] + bytes[p.size..][..rest.1];
    }
  }

  lemma AscendingAppend(commands: seq<JournalCommand>, c: JournalCommand)
    requires Ascending(commands, 0) == true && c.sequence > LastSequence(commands, 0)
    ensures Ascending(commands + [c], 0) == true
  {
    forall k | 0 <= k < |commands| ensures commands[k].sequence < c.sequence {
      if k < |commands| - 1 { assert commands[k].sequence < commands[|commands| - 1].sequence; }
    }
  }

  /** Truncating any file to its readable part and appending a newer record reads back the old records
      followed by the new one. */
  lemma TruncateThenAppend(f: Format, bytes: seq<byte>, c: JournalCommand, kept: seq<byte>, longer: seq<byte>)
    requires Sound(f) == true && c.sequence > LastSequence(Scan(f, bytes, 0).0, 0)
    requires kept <= bytes && |kept| == Scan(f, bytes, 0).1 && longer == kept + f.encode(c)
    ensures Scan(f, longer, 0) == (Scan(f, bytes, 0).0 + [c], |longer|)
  {
    ScanIsSound(f, bytes, 0);
    assert kept == bytes[..|kept|];
    LongerIsRead(f, Scan(f, bytes, 0).0, c, longer, Scan(f, bytes, 0).0 + [c]);
  }

  lemma LongerIsRead(f: Format, commands: seq<JournalCommand>, c: JournalCommand, bytes: seq<byte>,
    more: seq<JournalCommand>)
    requires Sound(f) == true && Ascending(commands, 0) == true && c.sequence > LastSequence(commands, 0)
    requires bytes == EncodeAll(f, commands) + f.encode(c) && more == commands + [c]
    ensures Scan(f, bytes, 0) == (more, |bytes|)
  {
    AscendingAppend(commands, c);
    EncodeOneMore(f, commands, c);
    ScanEncoded(f, bytes, more);
  }

  lemma ScanEncoded(f: Format, bytes: seq<byte>, commands: seq<JournalCommand>)
    requires Sound(f) == true && Ascending(commands, 0) == true && bytes == EncodeAll(f, commands)
    ensures Scan(f, bytes, 0) == (commands, |bytes|)
  {
    ScanIntact(f, commands);
  }

  lemma EncodeOneMore(f: Format, commands: seq<JournalCommand>, c: JournalCommand)
    ensures EncodeAll(f, commands + [c]) == EncodeAll(f, commands) + f.encode(c)
  {
    EncodeConcat(f, commands, [c]);
    assert [c][1..] == [];
    assert EncodeAll(f, [c]) == f.encode(c);
  }

  /** A crash during an append leaves a prefix of the new record: reading finds either the old records or the
      old records and the whole new one. */
  lemma AppendCrash(f: Format, commands: seq<JournalCommand>, c: JournalCommand, written: nat)
    requires Sound(f) && Ascending(commands, 0) && c.sequence > LastSequence(commands, 0) && written <= |f.encode(c)|
    ensures Scan(f, EncodeAll(f, commands) + f.encode(c)[..written], 0).0
      == if written == |f.encode(c)| then commands + [c] else commands
  {
    ScanWhole(f, commands, f.encode(c)[..written], 0);
    if written == |f.encode(c)| {
      assert f.encode(c)[..written] == f.encode(c) + [];
      ScanNothing(f, c.sequence);
      assert (f.encode(c) + [])[|f.encode(c)|..] == [];
    }
  }
}
