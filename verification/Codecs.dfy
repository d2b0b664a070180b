/** Binary formats as pairs of a printer and a parser, built from small parts; every combinator keeps the
    two laws that make a format a bijection between valid values and accepted byte strings. */
module Codecs {
  import opened SessionDocuments
  import opened Bytes

  datatype Option<+T> = None | Some(value: T)

  /** `decode` reads a value from the front of a byte string and says how many bytes it took. */
  datatype Codec<!T> = Codec(valid: T -> bool, encode: T -> seq<byte>, decode: seq<byte> -> Option<(T, nat)>)

  /** A valid value is read back whatever follows it, and whatever is read is the encoding of a valid value. */
  ghost predicate Good<T(!new)>(c: Codec<T>) {
    && (forall x, rest :: c.valid(x) ==> c.decode(c.encode(x) + rest) == Some((x, |c.encode(x)|)))
    && (forall bytes :: c.decode(bytes).Some? ==> ReadWhole(c, bytes))
  }

  ghost predicate ReadWhole<T>(c: Codec<T>, bytes: seq<byte>)
    requires c.decode(bytes).Some?
  {
    var (x, n) := c.decode(bytes).value;
    n <= |bytes| && c.valid(x) && c.encode(x) == bytes[..n]
  }

  // ----- numbers

  const NUMBER32: Codec<u32> := Codec(_ => true, (v: u32) => EncodeU32(v),
    (bytes: seq<byte>) => if |bytes| < 4 then None else Some((DecodeU32(bytes[..4]), 4)))

  const NUMBER64: Codec<u64> := Codec(_ => true, (v: u64) => EncodeU64(v),
    (bytes: seq<byte>) => if |bytes| < 8 then None else Some((DecodeU64(bytes[..8]), 8)))

  lemma Number32IsGood()
    ensures Good(NUMBER32)
  {
    forall x: u32, rest ensures NUMBER32.decode(NUMBER32.encode(x) + rest) == Some((x, |NUMBER32.encode(x)|)) {
      RoundTripU32(x);
      assert (EncodeU32(x) + rest)[..4] == EncodeU32(x);
    }
    forall bytes: seq<byte> | NUMBER32.decode(bytes).Some? ensures ReadWhole(NUMBER32, bytes) {
      CanonicalU32(bytes[..4]);
    }
  }

  lemma Number64IsGood()
    ensures Good(NUMBER64)
  {
    forall x: u64, rest ensures NUMBER64.decode(NUMBER64.encode(x) + rest) == Some((x, |NUMBER64.encode(x)|)) {
      RoundTripU64(x);
      assert (EncodeU64(x) + rest)[..8] == EncodeU64(x);
    }
    forall bytes: seq<byte> | NUMBER64.decode(bytes).Some? ensures ReadWhole(NUMBER64, bytes) {
      CanonicalU64(bytes[..8]);
    }
  }

  // ----- products and views

  function DecodePair<A, B>(a: Codec<A>, b: Codec<B>, bytes: seq<byte>): Option<((A, B), nat)> {
    match a.decode(bytes)
    case None => None
    case Some((x, n)) =>
      if n > |bytes| then None
      else
        match b.decode(bytes[n..])
        case None => None
        case Some((y, k)) => Some(((x, y), n + k))
  }

  /** One value after the other. */
  function Pair<A, B>(a: Codec<A>, b: Codec<B>): Codec<(A, B)> {
    Codec((p: (A, B)) => a.valid(p.0) && b.valid(p.1), (p: (A, B)) => a.encode(p.0) + b.encode(p.1),
          (bytes: seq<byte>) => DecodePair(a, b, bytes))
  }

  lemma PairIsGood<A(!new), B(!new)>(a: Codec<A>, b: Codec<B>)
    requires Good(a) && Good(b)
    ensures Good(Pair(a, b))
  {
    var c := Pair(a, b);
    forall p: (A, B), rest | c.valid(p) ensures c.decode(c.encode(p) + rest) == Some((p, |c.encode(p)|)) {
      var first, second := a.encode(p.0), b.encode(p.1);
      assert c.encode(p) + rest == first + (second + rest);
      assert (first + (second + rest))[|first|..] == second + rest;
    }
    forall bytes | c.decode(bytes).Some? ensures ReadWhole(c, bytes) {
      assert ReadWhole(a, bytes);
      var n := a.decode(bytes).value.1;
      assert ReadWhole(b, bytes[n..]);
      var k := b.decode(bytes[n..]).value.1;
      assert bytes[..n + k] == bytes[..n] + bytes[n..][..k];
    }
  }

  function DecodeView<A, B>(a: Codec<A>, from: A -> Option<B>, bytes: seq<byte>): Option<(B, nat)> {
    match a.decode(bytes)
    case None => None
    case Some((x, n)) =>
      match from(x)
      case None => None
      case Some(y) => Some((y, n))
  }

  /** A value stored as another one; `from` refuses stored values that stand for nothing. */
  function View<A, B>(a: Codec<A>, valid: B -> bool, to: B -> A, from: A -> Option<B>): Codec<B> {
    Codec(valid, (y: B) => a.encode(to(y)), (bytes: seq<byte>) => DecodeView(a, from, bytes))
  }

  ghost predicate Represents<A(!new), B(!new)>(a: Codec<A>, valid: B -> bool, to: B -> A, from: A -> Option<B>) {
    && (forall y :: valid(y) ==> a.valid(to(y)) && from(to(y)) == Some(y))
    && (forall x :: a.valid(x) && from(x).Some? ==> valid(from(x).value) && to(from(x).value) == x)
  }

  lemma ViewIsGood<A(!new), B(!new)>(a: Codec<A>, valid: B -> bool, to: B -> A, from: A -> Option<B>)
    requires Good(a) && Represents(a, valid, to, from)
    ensures Good(View(a, valid, to, from))
  {
    var c := View(a, valid, to, from);
    forall y: B, rest | c.valid(y) ensures c.decode(c.encode(y) + rest) == Some((y, |c.encode(y)|)) {
      assert a.decode(a.encode(to(y)) + rest) == Some((to(y), |a.encode(to(y))|));
    }
    forall bytes | c.decode(bytes).Some? ensures ReadWhole(c, bytes) {
      assert ReadWhole(a, bytes);
    }
  }

  // ----- longer products and records

  function Three<A, B, C>(a: Codec<A>, b: Codec<B>, c: Codec<C>): Codec<(A, (B, C))> { Pair(a, Pair(b, c)) }

  function Five<A, B, C, D, E>(a: Codec<A>, b: Codec<B>, c: Codec<C>, d: Codec<D>, e: Codec<E>):
    Codec<(A, (B, (C, (D, E))))>
  {
    Three(a, b, Three(c, d, e))
  }

  lemma ThreeIsGood<A(!new), B(!new), C(!new)>(a: Codec<A>, b: Codec<B>, c: Codec<C>)
    requires Good(a) && Good(b) && Good(c)
    ensures Good(Three(a, b, c))
  {
    PairIsGood(b, c);
    PairIsGood(a, Pair(b, c));
  }

  lemma FiveIsGood<A(!new), B(!new), C(!new), D(!new), E(!new)>(a: Codec<A>, b: Codec<B>, c: Codec<C>, d: Codec<D>,
    e: Codec<E>)
    requires Good(a) && Good(b) && Good(c) && Good(d) && Good(e)
    ensures Good(Five(a, b, c, d, e))
  {
    ThreeIsGood(c, d, e);
    ThreeIsGood(a, b, Three(c, d, e));
  }

  /** A record stored as a tuple of its fields. */
  function Fields<A, B>(a: Codec<A>, to: B -> A, from: A -> B): Codec<B> {
    View(a, (y: B) => a.valid(to(y)), to, (x: A) => Some(from(x)))
  }

  ghost predicate Inverse<A(!new), B(!new)>(to: B -> A, from: A -> B) {
    (forall y :: from(to(y)) == y) && (forall x :: to(from(x)) == x)
  }

  lemma FieldsIsGood<A(!new), B(!new)>(a: Codec<A>, to: B -> A, from: A -> B)
    requires Good(a) && Inverse(to, from)
    ensures Good(Fields(a, to, from))
  {
    ViewIsGood(a, (y: B) => a.valid(to(y)), to, (x: A) => Some(from(x)));
  }

  /** A field an older version of the format does not store. */
  function Absent<T(==)>(value: T): Codec<T> {
    Codec((x: T) => x == value, (x: T) => [], (bytes: seq<byte>) => Some((value, 0)))
  }

  lemma AbsentIsGood<T(!new)>(value: T)
    ensures Good(Absent(value))
  {}

  const FLAG: Codec<bool> := View(NUMBER32, (b: bool) => true, (b: bool) => if b then 1 else 0,
    (n: u32) => if n == 0 then Some(false) else if n == 1 then Some(true) else None)

  lemma FlagIsGood()
    ensures Good(FLAG)
  {
    Number32IsGood();
    ViewIsGood(NUMBER32, (b: bool) => true, (b: bool) => if b then 1 else 0,
      (n: u32) => if n == 0 then Some(false) else if n == 1 then Some(true) else None);
  }

  // ----- byte strings and lists

  function DecodeBlob(limit: nat, bytes: seq<byte>): Option<(seq<byte>, nat)> {
    if |bytes| < 4 then None
    else
      var size := DecodeU32(bytes[..4]);
      if size > limit || size > |bytes| - 4 then None else Some((bytes[4..4 + size], 4 + size))
  }

  /** A byte string behind its 32-bit size. */
  function Blob(limit: nat): Codec<seq<byte>> {
    Codec((s: seq<byte>) => |s| <= limit && |s| <= U32_MAX,
          (s: seq<byte>) => EncodeU32(if |s| <= U32_MAX then |s| else 0) + s,
          (bytes: seq<byte>) => DecodeBlob(limit, bytes))
  }

  /** A 32-bit prefix is read back and leaves the rest. */
  lemma PrefixReadBack(v: u32, tail: seq<byte>)
    ensures var bytes := EncodeU32(v) + tail;
      |bytes| == 4 + |tail| && DecodeU32(bytes[..4]) == v && bytes[4..] == tail
  {
    RoundTripU32(v);
    var bytes := EncodeU32(v) + tail;
    assert bytes[..4] == EncodeU32(v);
  }

  lemma BlobReadsBack(limit: nat, s: seq<byte>, rest: seq<byte>)
    requires |s| <= limit && |s| <= U32_MAX
    ensures DecodeBlob(limit, EncodeU32(|s|) + s + rest) == Some((s, 4 + |s|))
  {
    var bytes := EncodeU32(|s|) + (s + rest);
    PrefixReadBack(|s|, s + rest);
    assert EncodeU32(|s|) + s + rest == bytes;
    assert bytes[4..4 + |s|] == bytes[4..][..|s|];
  }

  lemma BlobReadWhole(limit: nat, bytes: seq<byte>)
    requires DecodeBlob(limit, bytes).Some?
    ensures var (s, n) := DecodeBlob(limit, bytes).value;
      |s| <= limit && |s| <= U32_MAX && n <= |bytes| && EncodeU32(|s|) + s == bytes[..n]
  {
    var size: nat := DecodeU32(bytes[..4]);
    CanonicalU32(bytes[..4]);
    assert bytes[..4 + size] == bytes[..4] + bytes[4..4 + size];
  }

  lemma BlobIsGood(limit: nat)
    ensures Good(Blob(limit))
  {
    var c := Blob(limit);
    forall s: seq<byte>, rest | c.valid(s) ensures c.decode(c.encode(s) + rest) == Some((s, |c.encode(s)|)) {
      BlobReadsBack(limit, s, rest);
    }
    forall bytes | c.decode(bytes).Some? ensures ReadWhole(c, bytes) {
      BlobReadWhole(limit, bytes);
    }
  }

  function EncodeItems<T>(c: Codec<T>, xs: seq<T>): seq<byte> {
    if xs == [] then [] else c.encode(xs[0]) + EncodeItems(c, xs[1..])
  }

  function DecodeItems<T>(c: Codec<T>, count: nat, bytes: seq<byte>): Option<(seq<T>, nat)>
    decreases count
  {
    if count == 0 then Some(([], 0))
    else
      match c.decode(bytes)
      case None => None
      case Some((x, n)) =>
        if n > |bytes| then None
        else
          match DecodeItems(c, count - 1, bytes[n..])
          case None => None
          case Some((rest, k)) => Some(([x] + rest, n + k))
  }

  lemma {:induction false} ItemsReadBack<T(!new)>(c: Codec<T>, xs: seq<T>, rest: seq<byte>)
    requires Good(c) && forall k :: 0 <= k < |xs| ==> c.valid(xs[k])
    ensures DecodeItems(c, |xs|, EncodeItems(c, xs) + rest) == Some((xs, |EncodeItems(c, xs)|))
  {
    if xs != [] {
      var first, after := c.encode(xs[0]), EncodeItems(c, xs[1..]) + rest;
      ItemsReadBack(c, xs[1..], rest);
      assert EncodeItems(c, xs) + rest == first + after;
      assert (first + after)[|first|..] == after;
      assert [xs[0]] + xs[1..] == xs;
    }
  }

  lemma {:induction false} ItemsReadWhole<T(!new)>(c: Codec<T>, count: nat, bytes: seq<byte>)
    requires Good(c) && DecodeItems(c, count, bytes).Some?
    ensures var (xs, n) := DecodeItems(c, count, bytes).value;
      |xs| == count && n <= |bytes| && (forall k :: 0 <= k < |xs| ==> c.valid(xs[k]))
        && EncodeItems(c, xs) == bytes[..n]
    decreases count
  {
    if count > 0 {
      assert ReadWhole(c, bytes);
      var (x, n) := c.decode(bytes).value;
      ItemsReadWhole(c, count - 1, bytes[n..]);
      var (rest, k) := DecodeItems(c, count - 1, bytes[n..]).value;
      assert ([x] + rest)[1..] == rest;
      assert bytes[..n + k] == bytes[..n] + bytes[n..][..k];
    }
  }

  function DecodeList<T>(c: Codec<T>, limit: nat, bytes: seq<byte>): Option<(seq<T>, nat)> {
    if |bytes| < 4 then None
    else
      var count := DecodeU32(bytes[..4]);
      if count > limit then None
      else
        match DecodeItems(c, count, bytes[4..])
        case None => None
        case Some((xs, n)) => Some((xs, 4 + n))
  }

  ghost predicate ValidItems<T>(c: Codec<T>, xs: seq<T>) {
    forall k :: 0 <= k < |xs| ==> c.valid(xs[k])
  }

  /** A list behind its 32-bit count. */
  function List<T>(c: Codec<T>, limit: nat): Codec<seq<T>> {
    Codec((xs: seq<T>) => |xs| <= limit && |xs| <= U32_MAX && forall k | 0 <= k < |xs| :: c.valid(xs[k]),
          (xs: seq<T>) => EncodeU32(if |xs| <= U32_MAX then |xs| else 0) + EncodeItems(c, xs),
          (bytes: seq<byte>) => DecodeList(c, limit, bytes))
  }

  lemma ListReadsBack<T(!new)>(c: Codec<T>, limit: nat, xs: seq<T>, rest: seq<byte>)
    requires Good(c) && |xs| <= limit && |xs| <= U32_MAX && ValidItems(c, xs)
    ensures DecodeList(c, limit, EncodeU32(|xs|) + EncodeItems(c, xs) + rest) == Some((xs, 4 + |EncodeItems(c, xs)|))
  {
    var items := EncodeItems(c, xs);
    PrefixReadBack(|xs|, items + rest);
    ItemsReadBack(c, xs, rest);
    assert EncodeU32(|xs|) + items + rest == EncodeU32(|xs|) + (items + rest);
  }

  lemma ListReadWhole<T(!new)>(c: Codec<T>, limit: nat, bytes: seq<byte>)
    requires Good(c) && DecodeList(c, limit, bytes).Some?
    ensures var (xs, n) := DecodeList(c, limit, bytes).value;
      |xs| <= limit && |xs| <= U32_MAX && ValidItems(c, xs) && n <= |bytes|
        && EncodeU32(|xs|) + EncodeItems(c, xs) == bytes[..n]
  {
    var count: nat := DecodeU32(bytes[..4]);
    CanonicalU32(bytes[..4]);
    ItemsReadWhole(c, count, bytes[4..]);
    var n := DecodeItems(c, count, bytes[4..]).value.1;
    assert bytes[..4 + n] == bytes[..4] + bytes[4..][..n];
  }

  lemma ListIsGood<T(!new)>(c: Codec<T>, limit: nat)
    requires Good(c)
    ensures Good(List(c, limit))
  {
    var l := List(c, limit);
    forall xs: seq<T>, rest | l.valid(xs) ensures l.decode(l.encode(xs) + rest) == Some((xs, |l.encode(xs)|)) {
      ListReadsBack(c, limit, xs, rest);
    }
    forall bytes | l.decode(bytes).Some? ensures ReadWhole(l, bytes) {
      ListReadWhole(c, limit, bytes);
    }
  }

  // ----- what the parts write

  lemma PairEncoding<A, B>(a: Codec<A>, b: Codec<B>, x: A, y: B)
    ensures Pair(a, b).encode((x, y)) == a.encode(x) + b.encode(y)
  {}

  lemma ThreeEncoding<A, B, C>(a: Codec<A>, b: Codec<B>, c: Codec<C>, x: A, y: B, z: C, first: seq<byte>,
    second: seq<byte>, third: seq<byte>)
    requires first == a.encode(x) && second == b.encode(y) && third == c.encode(z)
    ensures Three(a, b, c).encode((x, (y, z))) == first + (second + third)
  {}

  lemma FiveEncoding<A, B, C, D, E>(a: Codec<A>, b: Codec<B>, c: Codec<C>, d: Codec<D>, e: Codec<E>, u: A, v: B,
    x: C, y: D, z: E)
    ensures Five(a, b, c, d, e).encode((u, (v, (x, (y, z)))))
         == a.encode(u) + (b.encode(v) + (c.encode(x) + (d.encode(y) + e.encode(z))))
  {
    ThreeEncoding(c, d, e, x, y, z, c.encode(x), d.encode(y), e.encode(z));
    ThreeEncoding(a, b, Three(c, d, e), u, v, (x, (y, z)), a.encode(u), b.encode(v),
      Three(c, d, e).encode((x, (y, z))));
  }

  lemma FieldsEncoding<A, B>(a: Codec<A>, to: B -> A, from: A -> B, y: B)
    ensures Fields(a, to, from).encode(y) == a.encode(to(y))
  {}

  lemma ListEncoding<T>(c: Codec<T>, limit: nat, xs: seq<T>)
    requires |xs| <= U32_MAX
    ensures List(c, limit).encode(xs) == EncodeU32(|xs|) + EncodeItems(c, xs)
  {}

  // ----- whole messages

  /** Reads a message that must take all of the bytes. */
  function DecodeWhole<T>(c: Codec<T>, bytes: seq<byte>): Option<T> {
    match c.decode(bytes)
    case Some((x, n)) => if n == |bytes| then Some(x) else None
    case None => None
  }

  /** Printing and parsing are inverse to each other, both ways. */
  lemma WholeIsBijective<T(!new)>(c: Codec<T>)
    requires Good(c)
    ensures forall x :: c.valid(x) ==> DecodeWhole(c, c.encode(x)) == Some(x)
    ensures forall bytes :: DecodeWhole(c, bytes).Some? ==>
      c.valid(DecodeWhole(c, bytes).value) && c.encode(DecodeWhole(c, bytes).value) == bytes
  {
    forall x | c.valid(x) ensures DecodeWhole(c, c.encode(x)) == Some(x) {
      assert c.encode(x) + [] == c.encode(x);
    }
    forall bytes | DecodeWhole(c, bytes).Some?
      ensures c.valid(DecodeWhole(c, bytes).value) && c.encode(DecodeWhole(c, bytes).value) == bytes
    {
      assert ReadWhole(c, bytes);
      assert bytes[..|bytes|] == bytes;
    }
  }
}
