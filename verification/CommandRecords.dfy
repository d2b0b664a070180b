/** Journal payloads: session commands and checkpoint baselines as bytes, and exactly which of them can be
    read back. */
module CommandRecords {
  import opened SessionDocuments
  import opened SessionEditing
  import opened SessionHistory
  import opened Bytes
  import opened Framing
  import opened Codecs

  const COMMAND_MAGIC: seq<byte> := [0x49, 0x53, 0x43, 0x31]
  const COMMAND_SCHEMA_VERSION: u32 := 1
  const BASELINE_ACTION: u32 := 4
  const MAXIMUM_COMMAND_NAME_BYTES := 1_024

  // ----- commands

  function KindNumber(k: CommandKind): u32 {
    match k
    case SetTempo => 1
    case AddTrack => 2
    case RenameTrack => 3
    case RemoveTrack => 4
  }

  function KindOf(n: u32): Option<CommandKind> {
    if n == 1 then Some(SetTempo)
    else if n == 2 then Some(AddTrack)
    else if n == 3 then Some(RenameTrack)
    else if n == 4 then Some(RemoveTrack)
    else None
  }

  /** The stored fields of a command, in file order. */
  type StoredCommand = ((u32, u64), ((u32, u32), (u64, seq<byte>)))

  function Stored(c: SessionCommand): StoredCommand {
    ((KindNumber(c.kind), c.entityId), ((c.trackType, c.color), (c.tempo, c.name)))
  }

  function FromStored(s: StoredCommand): Option<SessionCommand> {
    match KindOf(s.0.0)
    case None => None
    case Some(kind) =>
      if s.1.0.0 < 1 || s.1.0.0 > 5 then None
      else Some(SessionCommand(kind, s.0.1, s.1.0.0, s.1.0.1, s.1.1.0, s.1.1.1))
  }

  function StoredFormat(): Codec<StoredCommand> {
    Pair(Pair(NUMBER32, NUMBER64), Pair(Pair(NUMBER32, NUMBER32), Pair(NUMBER64, Blob(MAXIMUM_COMMAND_NAME_BYTES))))
  }

  function CommandFormat(): Codec<SessionCommand> {
    View(StoredFormat(), (c: SessionCommand) => DecodableCommand(c), (c: SessionCommand) => Stored(c),
      (s: StoredCommand) => FromStored(s))
  }

  /** Reading accepts a command whose name is at most 1024 bytes long and whose track type exists. */
  predicate DecodableCommand(c: SessionCommand) {
    |c.name| <= MAXIMUM_COMMAND_NAME_BYTES && 1 <= c.trackType <= 5
  }

  lemma StoredFormatIsGood()
    ensures Good(StoredFormat())
  {
    Number32IsGood();
    Number64IsGood();
    BlobIsGood(MAXIMUM_COMMAND_NAME_BYTES);
    PairIsGood(NUMBER32, NUMBER64);
    PairIsGood(NUMBER32, NUMBER32);
    PairIsGood(NUMBER64, Blob(MAXIMUM_COMMAND_NAME_BYTES));
    PairIsGood(Pair(NUMBER32, NUMBER32), Pair(NUMBER64, Blob(MAXIMUM_COMMAND_NAME_BYTES)));
    PairIsGood(Pair(NUMBER32, NUMBER64),
      Pair(Pair(NUMBER32, NUMBER32), Pair(NUMBER64, Blob(MAXIMUM_COMMAND_NAME_BYTES))));
  }

  lemma StoredValidity(s: StoredCommand)
    ensures StoredFormat().valid(s) <==> |s.1.1.1| <= MAXIMUM_COMMAND_NAME_BYTES
  {}

  lemma StoredReadsBack(c: SessionCommand)
    requires DecodableCommand(c)
    ensures FromStored(Stored(c)) == Some(c)
  {}

  lemma ReadIsStored(s: StoredCommand)
    requires |s.1.1.1| <= MAXIMUM_COMMAND_NAME_BYTES && FromStored(s).Some?
    ensures DecodableCommand(FromStored(s).value) && Stored(FromStored(s).value) == s
  {}

  lemma CommandFormatIsGood()
    ensures Good(CommandFormat())
  {
    StoredFormatIsGood();
    CommandsAreFaithful(StoredFormat());
    ViewIsGood(StoredFormat(), (c: SessionCommand) => DecodableCommand(c), (c: SessionCommand) => Stored(c),
      (s: StoredCommand) => FromStored(s));
  }

  lemma CommandsAreFaithful(f: Codec<StoredCommand>)
    requires f == StoredFormat()
    ensures Represents(f, (c: SessionCommand) => DecodableCommand(c), (c: SessionCommand) => Stored(c),
      (s: StoredCommand) => FromStored(s))
  {
    forall c: SessionCommand | DecodableCommand(c) ensures f.valid(Stored(c)) && FromStored(Stored(c)) == Some(c) {
      StoredValidity(Stored(c));
      StoredReadsBack(c);
    }
    forall s: StoredCommand | f.valid(s) && FromStored(s).Some?
      ensures DecodableCommand(FromStored(s).value) && Stored(FromStored(s).value) == s {
      StoredValidity(s);
      ReadIsStored(s);
    }
  }

  // ----- records

  function ActionNumber(a: Action): u32 {
    match a
    case Edit => 1
    case Undo => 2
    case Redo => 3
  }

  function ActionOf(n: u32): Option<Action> {
    if n == 1 then Some(Edit) else if n == 2 then Some(Undo) else if n == 3 then Some(Redo) else None
  }

  function Preamble(action: u32): (bytes: seq<byte>)
    ensures |bytes| == 12
  {
    COMMAND_MAGIC + EncodeU32(COMMAND_SCHEMA_VERSION) + EncodeU32(action)
  }

  function EncodeBody(r: Record): seq<byte> {
    match r
    case Baseline(revision) => EncodeU64(revision)
    case Change(_, e) => EntryFormat().encode((e.forward, e.inverse))
  }

  function ActionField(r: Record): u32 {
    if r.Baseline? then BASELINE_ACTION else ActionNumber(r.action)
  }

  function EncodeRecord(r: Record): seq<byte> {
    Preamble(ActionField(r)) + EncodeBody(r)
  }

  function DecodeBaseline(body: seq<byte>): Option<Record> {
    match DecodeWhole(NUMBER64, body)
    case None => None
    case Some(revision) => if revision == 0 then None else Some(Baseline(revision))
  }

  function DecodeEntry(body: seq<byte>): Option<HistoryEntry> {
    match DecodeWhole(EntryFormat(), body)
    case None => None
    case Some(p) => Some(HistoryEntry(p.0, p.1))
  }

  function DecodeBody(action: u32, body: seq<byte>): Option<Record> {
    if action == BASELINE_ACTION then DecodeBaseline(body)
    else
      match ActionOf(action)
      case None => None
      case Some(a) =>
        match DecodeEntry(body)
        case None => None
        case Some(e) => Some(Change(a, e))
  }

  function DecodeRecord(bytes: seq<byte>): Option<Record> {
    if |bytes| < 12 || bytes[..4] != COMMAND_MAGIC || DecodeU32(bytes[4..8]) != COMMAND_SCHEMA_VERSION then None
    else DecodeBody(DecodeU32(bytes[8..12]), bytes[12..])
  }

  /** What a reader accepts of what a writer may write. */
  predicate Decodable(r: Record) {
    match r
    case Baseline(revision) => revision != 0
    case Change(_, e) => DecodableCommand(e.forward) && DecodableCommand(e.inverse)
  }

  /** Names short enough for their 32-bit size. */
  predicate Writable(r: Record) {
    r.Change? ==> |r.entry.forward.name| <= MAXIMUM_NAME_BYTES && |r.entry.inverse.name| <= MAXIMUM_NAME_BYTES
  }

  lemma PreambleFields(action: u32, body: seq<byte>)
    ensures var bytes := Preamble(action) + body;
      && |bytes| >= 12 && bytes[..4] == COMMAND_MAGIC && DecodeU32(bytes[4..8]) == COMMAND_SCHEMA_VERSION
      && DecodeU32(bytes[8..12]) == action && bytes[12..] == body
  {
    var bytes := Preamble(action) + body;
    RoundTripU32(COMMAND_SCHEMA_VERSION);
    RoundTripU32(action);
    assert bytes[4..8] == EncodeU32(COMMAND_SCHEMA_VERSION);
    assert bytes[8..12] == EncodeU32(action);
  }

  lemma PreambleIsDetermined(bytes: seq<byte>)
    requires |bytes| >= 12 && bytes[..4] == COMMAND_MAGIC && DecodeU32(bytes[4..8]) == COMMAND_SCHEMA_VERSION
    ensures bytes == Preamble(DecodeU32(bytes[8..12])) + bytes[12..]
  {
    CanonicalU32(bytes[4..8]);
    CanonicalU32(bytes[8..12]);
    assert bytes == bytes[..4] + bytes[4..8] + bytes[8..12] + bytes[12..];
  }

  lemma StoredEncoding(c: SessionCommand)
    requires |c.name| <= U32_MAX
    ensures CommandFormat().encode(c)
         == EncodeU32(KindNumber(c.kind)) + EncodeU64(c.entityId) + EncodeU32(c.trackType) + EncodeU32(c.color) + EncodeU64(c.tempo)
          + EncodeU32(|c.name|) + c.name
  {
    var first := EncodeU32(KindNumber(c.kind)) + EncodeU64(c.entityId);
    var second := EncodeU32(c.trackType) + EncodeU32(c.color);
    var third := EncodeU64(c.tempo) + (EncodeU32(|c.name|) + c.name);
    assert CommandFormat().encode(c) == first + (second + third);
    SevenParts(EncodeU32(KindNumber(c.kind)), EncodeU64(c.entityId), EncodeU32(c.trackType), EncodeU32(c.color),
      EncodeU64(c.tempo), EncodeU32(|c.name|), c.name);
  }

  lemma SevenParts<T>(a: seq<T>, b: seq<T>, c: seq<T>, d: seq<T>, e: seq<T>, f: seq<T>, g: seq<T>)
    ensures (a + b) + ((c + d) + (e + (f + g))) == a + b + c + d + e + f + g
  {}

  /** A command that breaks the reader's rules is refused, whatever follows it. */
  lemma UndecodableCommandIsRefused(c: SessionCommand, rest: seq<byte>)
    requires !DecodableCommand(c) && |c.name| <= U32_MAX
    ensures CommandFormat().decode(CommandFormat().encode(c) + rest) == None
  {
    NamesReadBack(c, rest);
  }

  lemma PairReadsFirst<A(!new), B(!new)>(a: Codec<A>, b: Codec<B>, x: A, tail: seq<byte>)
    requires Good(a) && a.valid(x)
    ensures Pair(a, b).decode(a.encode(x) + tail)
         == match b.decode(tail) case None => None case Some((y, k)) => Some(((x, y), |a.encode(x)| + k))
  {
    assert (a.encode(x) + tail)[|a.encode(x)|..] == tail;
  }

  lemma NamesReadBack(c: SessionCommand, rest: seq<byte>)
    requires |c.name| <= U32_MAX
    ensures StoredFormat().decode(CommandFormat().encode(c) + rest)
         == if |c.name| <= MAXIMUM_COMMAND_NAME_BYTES then Some((Stored(c), |CommandFormat().encode(c)|)) else None
  {
    if |c.name| <= MAXIMUM_COMMAND_NAME_BYTES {
      StoredFormatIsGood();
      assert StoredFormat().valid(Stored(c));
    } else {
      LongNameIsRefused(c, rest);
    }
  }

  lemma DeepRefusal<A(!new), B(!new), C(!new), D(!new)>(a: Codec<A>, b: Codec<B>, c: Codec<C>, d: Codec<D>, x: A, y: B,
    z: C, tail: seq<byte>)
    requires Good(a) && Good(b) && Good(c) && a.valid(x) && b.valid(y) && c.valid(z) && d.decode(tail) == None
    ensures Pair(a, Pair(b, Pair(c, d))).decode(a.encode(x) + (b.encode(y) + (c.encode(z) + tail))) == None
  {
    PairReadsFirst(c, d, z, tail);
    PairReadsFirst(b, Pair(c, d), y, c.encode(z) + tail);
    PairReadsFirst(a, Pair(b, Pair(c, d)), x, b.encode(y) + (c.encode(z) + tail));
  }

  lemma LongBlobIsRefused(name: seq<byte>, rest: seq<byte>)
    requires MAXIMUM_COMMAND_NAME_BYTES < |name| <= U32_MAX
    ensures Blob(MAXIMUM_COMMAND_NAME_BYTES).decode(EncodeU32(|name|) + name + rest) == None
  {
    PrefixReadBack(|name|, name + rest);
    assert EncodeU32(|name|) + name + rest == EncodeU32(|name|) + (name + rest);
  }

  lemma LongNameIsRefused(c: SessionCommand, rest: seq<byte>)
    requires MAXIMUM_COMMAND_NAME_BYTES < |c.name| <= U32_MAX
    ensures StoredFormat().decode(CommandFormat().encode(c) + rest) == None
  {
    var tail := EncodeU32(|c.name|) + c.name + rest;
    LongBlobIsRefused(c.name, rest);
    Number32IsGood();
    Number64IsGood();
    PairIsGood(NUMBER32, NUMBER64);
    PairIsGood(NUMBER32, NUMBER32);
    DeepRefusal(Pair(NUMBER32, NUMBER64), Pair(NUMBER32, NUMBER32), NUMBER64, Blob(MAXIMUM_COMMAND_NAME_BYTES),
      (KindNumber(c.kind), c.entityId), (c.trackType, c.color), c.tempo, tail);
    EncodingWithRest(c, rest);
  }

  lemma EncodingWithRest(c: SessionCommand, rest: seq<byte>)
    requires |c.name| <= U32_MAX
    ensures CommandFormat().encode(c) + rest
         == Pair(NUMBER32, NUMBER64).encode((KindNumber(c.kind), c.entityId))
          + (Pair(NUMBER32, NUMBER32).encode((c.trackType,
            c.color)) + (NUMBER64.encode(c.tempo) + (EncodeU32(|c.name|) + c.name + rest)))
  {
    StoredEncoding(c);
    var a, b, d, e, f := EncodeU32(KindNumber(c.kind)), EncodeU64(c.entityId), EncodeU32(c.trackType),
      EncodeU32(c.color), EncodeU64(c.tempo);
    Reassociate(a, b, d, e, f, EncodeU32(|c.name|), c.name, rest);
  }

  lemma Reassociate(a: seq<byte>, b: seq<byte>, d: seq<byte>, e: seq<byte>, f: seq<byte>, g: seq<byte>, h: seq<byte>,
    rest: seq<byte>)
    ensures a + b + d + e + f + g + h + rest == (a + b) + ((d + e) + (f + (g + h + rest)))
  {}

  function EntryFormat(): Codec<(SessionCommand, SessionCommand)> {
    Pair(CommandFormat(), CommandFormat())
  }

  lemma EntryFormatIsGood()
    ensures Good(EntryFormat())
  {
    CommandFormatIsGood();
    PairIsGood(CommandFormat(), CommandFormat());
  }

  lemma EntryValidity(e: HistoryEntry)
    ensures EntryFormat().valid((e.forward, e.inverse)) <==> DecodableCommand(e.forward) && DecodableCommand(e.inverse)
  {}

  lemma EntryReadsBack(e: HistoryEntry)
    requires |e.forward.name| <= MAXIMUM_NAME_BYTES && |e.inverse.name| <= MAXIMUM_NAME_BYTES
    ensures DecodeWhole(EntryFormat(), EntryFormat().encode((e.forward, e.inverse)))
         == if DecodableCommand(e.forward) && DecodableCommand(e.inverse) then Some((e.forward, e.inverse)) else None
  {
    if DecodableCommand(e.forward) && DecodableCommand(e.inverse) {
      EntryFormatIsGood();
      EntryValidity(e);
      ReadsBackWhole(EntryFormat(), (e.forward, e.inverse));
    } else {
      UndecodableEntryIsRefused(e);
    }
  }

  lemma ReadsBackWhole<T(!new)>(c: Codec<T>, x: T)
    requires Good(c) && c.valid(x)
    ensures DecodeWhole(c, c.encode(x)) == Some(x)
  {
    WholeIsBijective(c);
  }

  lemma ReadWholeIsCanonical<T(!new)>(c: Codec<T>, bytes: seq<byte>)
    requires Good(c) && DecodeWhole(c, bytes).Some?
    ensures c.valid(DecodeWhole(c, bytes).value) && c.encode(DecodeWhole(c, bytes).value) == bytes
  {
    WholeIsBijective(c);
  }

  lemma UndecodableEntryIsRefused(e: HistoryEntry)
    requires !DecodableCommand(e.forward) || !DecodableCommand(e.inverse)
    requires |e.forward.name| <= MAXIMUM_NAME_BYTES && |e.inverse.name| <= MAXIMUM_NAME_BYTES
    ensures DecodeWhole(EntryFormat(), EntryFormat().encode((e.forward, e.inverse))) == None
  {
    var second := CommandFormat().encode(e.inverse);
    if DecodableCommand(e.forward) {
      CommandFormatIsGood();
      PairReadsFirst(CommandFormat(), CommandFormat(), e.forward, second);
      UndecodableCommandIsRefused(e.inverse, []);
      assert second + [] == second;
    } else {
      UndecodableCommandIsRefused(e.forward, second);
    }
  }

  lemma BaselineReadsBack(revision: u64)
    ensures DecodeBaseline(EncodeU64(revision)) == if revision != 0 then Some(Baseline(revision)) else None
  {
    Number64IsGood();
    ReadsBackWhole(NUMBER64, revision);
  }

  lemma DecodedEntry(e: HistoryEntry)
    requires |e.forward.name| <= MAXIMUM_NAME_BYTES && |e.inverse.name| <= MAXIMUM_NAME_BYTES
    ensures DecodeEntry(EntryFormat().encode((e.forward, e.inverse)))
         == if DecodableCommand(e.forward) && DecodableCommand(e.inverse) then Some(e) else None
  {
    EntryReadsBack(e);
  }

  /** A body that holds an entry, or none that can be read, behind the action of a change. */
  lemma ChangeBody(a: Action, body: seq<byte>, read: Option<HistoryEntry>)
    requires DecodeEntry(body) == read
    ensures DecodeBody(ActionNumber(a), body) == if read.Some? then Some(Change(a, read.value)) else None
  {
    assert ActionOf(ActionNumber(a)) == Some(a);
  }

  lemma BaselineBody(body: seq<byte>, read: Option<Record>)
    requires DecodeBaseline(body) == read
    ensures DecodeBody(BASELINE_ACTION, body) == read
  {}

  lemma BodyReadsBack(r: Record)
    requires Writable(r)
    ensures DecodeBody(ActionField(r), EncodeBody(r)) == if Decodable(r) then Some(r) else None
  {
    var readable := if Decodable(r) then Some(r) else None;
    if r.Baseline? {
      BaselineReadsBack(r.revision);
      BaselineBody(EncodeU64(r.revision), readable);
    } else {
      DecodedEntry(r.entry);
      ChangeBody(r.action, EntryFormat().encode((r.entry.forward, r.entry.inverse)),
        if Decodable(r) then Some(r.entry) else None);
    }
  }

  /** A written record is read back exactly when its names are at most 1024 bytes, its track types exist and
      its baseline is not zero; otherwise it is refused. */
  lemma RecordReadsBack(r: Record)
    requires Writable(r)
    ensures DecodeRecord(EncodeRecord(r)) == if Decodable(r) then Some(r) else None
  {
    var action, body := ActionField(r), EncodeBody(r);
    BodyReadsBack(r);
    ReadsBackBehindPreamble(action, body);
  }

  lemma ReadsBackBehindPreamble(action: u32, body: seq<byte>)
    ensures DecodeRecord(Preamble(action) + body) == DecodeBody(action, body)
  {
    PreambleFields(action, body);
  }

  lemma ReadBaselineIsCanonical(body: seq<byte>)
    requires DecodeBaseline(body).Some?
    ensures var r := DecodeBaseline(body).value; r.Baseline? && r.revision != 0 && EncodeU64(r.revision) == body
  {
    Number64IsGood();
    ReadWholeIsCanonical(NUMBER64, body);
  }

  lemma ReadEntryIsCanonical(body: seq<byte>)
    requires DecodeEntry(body).Some?
    ensures var e := DecodeEntry(body).value;
      DecodableCommand(e.forward) && DecodableCommand(e.inverse) && EntryFormat().encode((e.forward, e.inverse)) == body
  {
    EntryFormatIsGood();
    ReadWholeIsCanonical(EntryFormat(), body);
    EntryValidity(DecodeEntry(body).value);
  }

  lemma ReadBodyCases(action: u32, body: seq<byte>)
    requires DecodeBody(action, body).Some?
    ensures action == BASELINE_ACTION ==> DecodeBaseline(body) == DecodeBody(action, body)
    ensures action != BASELINE_ACTION ==>
      ActionOf(action).Some? && DecodeEntry(body).Some?
        && DecodeBody(action, body) == Some(Change(ActionOf(action).value, DecodeEntry(body).value))
  {}

  lemma ReadBodyIsCanonical(action: u32, body: seq<byte>)
    requires DecodeBody(action, body).Some?
    ensures var r := DecodeBody(action, body).value; Decodable(r) && ActionField(r) == action && EncodeBody(r) == body
  {
    ReadBodyCases(action, body);
    if action == BASELINE_ACTION {
      ReadBaselineIsCanonical(body);
    } else {
      ReadEntryIsCanonical(body);
      ChangeIsCanonical(action, ActionOf(action).value, DecodeEntry(body).value, body);
    }
  }

  lemma ChangeIsCanonical(action: u32, a: Action, e: HistoryEntry, body: seq<byte>)
    requires ActionOf(action) == Some(a) && DecodableCommand(e.forward) && DecodableCommand(e.inverse)
    requires EntryFormat().encode((e.forward, e.inverse)) == body
    ensures Decodable(Change(a, e)) && ActionField(Change(a, e)) == action && EncodeBody(Change(a, e)) == body
  {}

  /** Whatever is read is a record the reader's rules allow, and writing it gives the same bytes. */
  lemma ReadRecordIsCanonical(bytes: seq<byte>)
    requires DecodeRecord(bytes).Some?
    ensures Decodable(DecodeRecord(bytes).value) && EncodeRecord(DecodeRecord(bytes).value) == bytes
  {
    PreambleIsDetermined(bytes);
    ReadBodyIsCanonical(DecodeU32(bytes[8..12]), bytes[12..]);
  }

  // ----- whole journals

  function ToCommand(l: Logged): JournalCommand
    requires Writable(l.record)
  {
    RecordSize(l.record);
    JournalCommand(l.sequence, EncodeRecord(l.record))
  }

  lemma RecordSize(r: Record)
    requires Writable(r)
    ensures |EncodeRecord(r)| <= 10_000
  {
    if r.Change? {
      StoredEncoding(r.entry.forward);
      StoredEncoding(r.entry.inverse);
    }
  }

  ghost predicate AllWritable(log: seq<Logged>) {
    forall k :: 0 <= k < |log| ==> Writable(log[k].record)
  }

  ghost predicate AllDecodable(log: seq<Logged>) {
    forall k :: 0 <= k < |log| ==> Decodable(log[k].record)
  }

  ghost function ToCommands(log: seq<Logged>): (commands: seq<JournalCommand>)
    requires AllWritable(log)
    ensures |commands| == |log|
  {
    seq(|log|, k requires 0 <= k < |log| => ToCommand(log[k]))
  }

  /** The meaning of a recovered journal; nothing when one of its records is not a session command. */
  function ToLog(commands: seq<JournalCommand>): Option<seq<Logged>> {
    if commands == [] then Some([])
    else
      match ToLog(commands[..|commands| - 1])
      case None => None
      case Some(log) =>
        match DecodeRecord(commands[|commands| - 1].payload)
        case None => None
        case Some(r) => Some(log + [Logged(commands[|commands| - 1].sequence, r)])
  }

  /** A journal is understood if and only if every record in it can be decoded, and then it means what was
      logged. */
  lemma {:induction false} JournalReadsBack(log: seq<Logged>)
    requires AllWritable(log)
    ensures ToLog(ToCommands(log)) == if AllDecodable(log) then Some(log) else None
  {
    if log != [] {
      var n := |log| - 1;
      JournalReadsBack(log[..n]);
      assert ToCommands(log)[..n] == ToCommands(log[..n]);
      LastReadsBack(log[n]);
      LastOne(log);
      ToLogGrows(ToCommands(log), ToLog(ToCommands(log[..n])), DecodeRecord(ToCommand(log[n]).payload));
      DecodableGrows(log);
    }
  }

  lemma ToLogGrows(commands: seq<JournalCommand>, before: Option<seq<Logged>>, r: Option<Record>)
    requires commands != [] && ToLog(commands[..|commands| - 1]) == before
      && DecodeRecord(commands[|commands| - 1].payload) == r
    ensures ToLog(commands) == if before.Some? && r.Some? then Some(before.value + [Logged(commands[|commands| - 1].sequence, r.value)]) else None
  {}

  lemma DecodableGrows(log: seq<Logged>)
    requires log != []
    ensures AllDecodable(log) == (AllDecodable(log[..|log| - 1]) && Decodable(log[|log| - 1].record))
  {}

  lemma LastOne<T>(s: seq<T>)
    requires s != []
    ensures s == s[..|s| - 1] + [s[|s| - 1]]
  {}

  lemma LastReadsBack(l: Logged)
    requires Writable(l.record)
    ensures ToCommand(l).sequence == l.sequence
    ensures DecodeRecord(ToCommand(l).payload) == if Decodable(l.record) then Some(l.record) else None
  {
    RecordReadsBack(l.record);
  }
}
