/** Little-endian numbers in byte strings. */
module Bytes {
  import opened SessionDocuments

  function Pow256(n: nat): nat
    ensures Pow256(n) > 0
  {
    if n == 0 then 1 else 256 * Pow256(n - 1)
  }

  /** The `n` low bytes of a number, lowest first. */
  function LittleEndian(v: nat, n: nat): (bytes: seq<byte>)
    ensures |bytes| == n
    decreases v, n
  {
    if n == 0 then [] else [v % 256] + LittleEndian(v / 256, n - 1)
  }

  function Number(bytes: seq<byte>): (v: nat)
    ensures v < Pow256(|bytes|)
  {
    if bytes == [] then 0 else bytes[0] + 256 * Number(bytes[1..])
  }

  lemma {:induction false} NumberOfLittleEndian(v: nat, n: nat)
    requires v < Pow256(n)
    ensures Number(LittleEndian(v, n)) == v
    decreases n
  {
    if n > 0 {
      NumberOfLittleEndian(v / 256, n - 1);
      assert LittleEndian(v, n)[1..] == LittleEndian(v / 256, n - 1);
    }
  }

  lemma {:induction false} LittleEndianOfNumber(bytes: seq<byte>)
    ensures LittleEndian(Number(bytes), |bytes|) == bytes
  {
    if bytes != [] {
      LittleEndianOfNumber(bytes[1..]);
      var v := Number(bytes);
      assert v % 256 == bytes[0] && v / 256 == Number(bytes[1..]);
    }
  }

  lemma Widths()
    ensures Pow256(4) == 0x1_0000_0000 && Pow256(8) == 0x1_0000_0000_0000_0000
  {
    assert Pow256(2) == 0x1_0000;
    assert Pow256(4) == 0x1_0000_0000;
    assert Pow256(6) == 0x1_0000_0000_0000;
  }

  function EncodeU32(v: u32): seq<byte> { LittleEndian(v, 4) }
  function EncodeU64(v: u64): seq<byte> { LittleEndian(v, 8) }

  function DecodeU32(bytes: seq<byte>): u32
    requires |bytes| == 4
  {
    Widths();
    Number(bytes)
  }

  function DecodeU64(bytes: seq<byte>): u64
    requires |bytes| == 8
  {
    Widths();
    Number(bytes)
  }

  lemma RoundTripU32(v: u32)
    ensures |EncodeU32(v)| == 4 && DecodeU32(EncodeU32(v)) == v
  {
    Widths();
    NumberOfLittleEndian(v, 4);
  }

  lemma RoundTripU64(v: u64)
    ensures |EncodeU64(v)| == 8 && DecodeU64(EncodeU64(v)) == v
  {
    Widths();
    NumberOfLittleEndian(v, 8);
  }

  lemma CanonicalU32(bytes: seq<byte>)
    requires |bytes| == 4
    ensures EncodeU32(DecodeU32(bytes)) == bytes
  {
    LittleEndianOfNumber(bytes);
  }

  lemma CanonicalU64(bytes: seq<byte>)
    requires |bytes| == 8
    ensures EncodeU64(DecodeU64(bytes)) == bytes
  {
    LittleEndianOfNumber(bytes);
  }

  // ----- the bytes of a number, one by one

  /** The four low bytes, lowest first. */
  function Bytes4(v: nat): seq<byte> {
    [v % 0x100, v / 0x100 % 0x100, v / 0x1_0000 % 0x100, v / 0x100_0000 % 0x100]
  }

  /** The eight low bytes, lowest first. */
  function Bytes8(v: nat): seq<byte> {
    [v % 0x100, v / 0x100 % 0x100, v / 0x1_0000 % 0x100, v / 0x100_0000 % 0x100, v / 0x1_0000_0000 % 0x100,
      v / 0x100_0000_0000 % 0x100, v / 0x1_0000_0000_0000 % 0x100, v / 0x100_0000_0000_0000 % 0x100]
  }

  lemma LowestFirst(v: nat, n: nat)
    ensures LittleEndian(v, n + 1) == [v % 0x100] + LittleEndian(v / 0x100, n)
  {}

  lemma DividedAgain(v: nat)
    ensures v / 0x100 / 0x100 == v / 0x1_0000
    ensures v / 0x1_0000 / 0x100 == v / 0x100_0000
    ensures v / 0x100_0000 / 0x100 == v / 0x1_0000_0000
  {}

  lemma FourLowest(v: nat, n: nat)
    ensures LittleEndian(v, n + 4) == Bytes4(v) + LittleEndian(v / 0x1_0000_0000, n)
  {
    DividedAgain(v);
    StepByStep(v, v / 0x100, v / 0x1_0000, v / 0x100_0000, v / 0x1_0000_0000, n);
  }

  lemma StepByStep(v: nat, b: nat, c: nat, d: nat, e: nat, n: nat)
    requires b == v / 0x100 && c == b / 0x100 && d == c / 0x100 && e == d / 0x100
    ensures LittleEndian(v, n + 4) == [v % 0x100, b % 0x100, c % 0x100, d % 0x100] + LittleEndian(e, n)
  {
    LowestFirst(v, n + 3);
    LowestFirst(b, n + 2);
    LowestFirst(c, n + 1);
    LowestFirst(d, n);
  }

  lemma FourBytes(v: u32)
    ensures EncodeU32(v) == Bytes4(v)
  {
    FourLowest(v, 0);
  }

  lemma EightBytes(v: u64)
    ensures EncodeU64(v) == Bytes8(v)
  {
    var high := v / 0x1_0000_0000;
    FourLowest(v, 4);
    FourLowest(high, 0);
    assert high / 0x100 == v / 0x100_0000_0000 && high / 0x1_0000 == v / 0x1_0000_0000_0000
      && high / 0x100_0000 == v / 0x100_0000_0000_0000;
    assert LittleEndian(high / 0x1_0000_0000, 0) == [];
  }
}
