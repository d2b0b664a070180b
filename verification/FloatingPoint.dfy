/** Floating-point numbers by their bits, and what the tests on bits in this model mean for their values (IEEE 754,
    binary32 and binary64). */
module FloatingPoint {
  import opened SessionDocuments

  function PowerOf2(e: int): (p: real)
    ensures p > 0.0
    decreases if e < 0 then -e else e
  {
    if e == 0 then 1.0 else if e > 0 then 2.0 * PowerOf2(e - 1) else PowerOf2(e + 1) / 2.0
  }

  lemma NextPower(e: int)
    ensures PowerOf2(e + 1) == 2.0 * PowerOf2(e)
  {}

  /** The size of the fraction, the number of finite exponents and what the stored exponent exceeds the power of the
      last fraction bit by. */
  datatype Format = Format(fraction: nat, exponents: nat, bias: int)

  const DOUBLE := Format(0x10_0000_0000_0000, 0x7FF, 1_075)
  const SINGLE := Format(0x80_0000, 0xFF, 150)

  function SignBit(f: Format): nat { f.fraction * (f.exponents + 1) }

  function Magnitude(f: Format, bits: nat): nat { if bits < SignBit(f) then bits else bits - SignBit(f) }

  predicate Finite(f: Format, bits: nat)
    requires f.fraction > 0
  {
    Magnitude(f, bits) / f.fraction < f.exponents
  }

  function Unsigned(f: Format, magnitude: nat): real
    requires f.fraction > 0
  {
    Parts(f, magnitude / f.fraction, magnitude % f.fraction)
  }

  function Parts(f: Format, exponent: nat, fraction: nat): real {
    if exponent == 0 then (fraction as real) * PowerOf2(1 - f.bias)
    else ((f.fraction + fraction) as real) * PowerOf2(exponent - f.bias)
  }

  /** The value of finite bits. */
  function Value(f: Format, bits: nat): real
    requires f.fraction > 0
  {
    if bits < SignBit(f) then Unsigned(f, bits) else -Unsigned(f, bits - SignBit(f))
  }

  lemma NextFraction(f: Format, exponent: nat, fraction: nat)
    ensures Parts(f, exponent, fraction) < Parts(f, exponent, fraction + 1)
  {
    Grows(fraction, PowerOf2(1 - f.bias));
    Grows(f.fraction + fraction, PowerOf2(exponent - f.bias));
  }

  lemma NextExponent(f: Format, exponent: nat)
    requires f.fraction > 0
    ensures Parts(f, exponent, f.fraction - 1) < Parts(f, exponent + 1, 0)
  {
    var last := f.fraction - 1;
    if exponent == 0 {
      Grows(last, PowerOf2(1 - f.bias));
    } else {
      NextPower(exponent - f.bias);
      Grows(f.fraction + last, PowerOf2(exponent - f.bias));
      Twice(f.fraction, PowerOf2(exponent - f.bias));
    }
  }

  lemma NextParts(f: Format, exponent: nat, fraction: nat, nextExponent: nat, nextFraction: nat)
    requires f.fraction > 0 && fraction < f.fraction
    requires if fraction + 1 < f.fraction then nextExponent == exponent && nextFraction == fraction + 1
      else nextExponent == exponent + 1 && nextFraction == 0
    ensures Parts(f, exponent, fraction) < Parts(f, nextExponent, nextFraction)
  {
    if fraction + 1 < f.fraction { NextFraction(f, exponent, fraction); } else { NextExponent(f, exponent); }
  }

  lemma NextSplit(m: nat, d: nat)
    requires d > 0
    ensures if m % d + 1 < d then (m + 1) / d == m / d && (m + 1) % d == m % d + 1
      else (m + 1) / d == m / d + 1 && (m + 1) % d == 0
  {
    Divided(m, d);
    OneMore(d, m / d);
    if m % d + 1 < d { Quotient(m + 1, d, m / d, m % d + 1); } else { Quotient(m + 1, d, m / d + 1, 0); }
  }

  lemma NextIsLarger(f: Format, m: nat)
    requires f.fraction > 0
    ensures Unsigned(f, m) < Unsigned(f, m + 1)
  {
    NextSplit(m, f.fraction);
    NextParts(f, m / f.fraction, m % f.fraction, (m + 1) / f.fraction, (m + 1) % f.fraction);
  }

  lemma Grows(x: nat, p: real)
    requires p > 0.0
    ensures (x as real) * p < ((x + 1) as real) * p
  {
    assert ((x + 1) as real) * p == (x as real) * p + p;
  }

  lemma Twice(x: nat, p: real)
    ensures ((x + x) as real) * p == (x as real) * (2.0 * p)
  {}

  lemma Divided(v: nat, d: nat)
    requires d > 0
    ensures v == d * (v / d) + v % d && 0 <= v % d < d
  {}

  lemma OneMore(d: nat, q: int)
    ensures d * (q + 1) == d * q + d
  {}

  lemma NotSmaller(d: nat, a: int, b: int)
    requires a <= b
    ensures d * a <= d * b
  {}

  lemma Quotient(v: nat, d: nat, q: nat, r: nat)
    requires d > 0 && v == d * q + r && r < d
    ensures v / d == q && v % d == r
  {
    var a := v / d;
    Divided(v, d);
    OneMore(d, a);
    OneMore(d, q);
    if a < q { NotSmaller(d, a + 1, q); }
    if q < a { NotSmaller(d, q + 1, a); }
  }

  /** Magnitudes are ordered like their values. */
  lemma {:induction false} Increasing(f: Format, a: nat, b: nat)
    requires f.fraction > 0 && a < b
    ensures Unsigned(f, a) < Unsigned(f, b)
    decreases b
  {
    NextIsLarger(f, b - 1);
    if a < b - 1 { Increasing(f, a, b - 1); }
  }

  lemma Ordered(f: Format, a: nat, b: nat)
    requires f.fraction > 0
    ensures a < b <==> Unsigned(f, a) < Unsigned(f, b)
  {
    if a < b { Increasing(f, a, b); }
    if b < a { Increasing(f, b, a); }
  }

  lemma ZeroIsZero(f: Format)
    requires f.fraction > 0
    ensures Unsigned(f, 0) == 0.0
  {}

  /** A range that starts above zero, by its last bits. */
  lemma PositiveRange(f: Format, bits: nat, last: nat, bound: real)
    requires f.fraction > 0 && last < f.fraction * f.exponents && Unsigned(f, last) == bound
    ensures 0 < bits <= last <==> Finite(f, bits) && 0.0 < Value(f, bits) <= bound
  {
    ZeroIsZero(f);
    Ordered(f, 0, Magnitude(f, bits));
    Ordered(f, last, bits);
    if 0 < bits <= last {
      BelowInfinity(f, bits);
    }
  }

  lemma BelowInfinity(f: Format, m: nat)
    requires f.fraction > 0 && m < f.fraction * f.exponents
    ensures m / f.fraction < f.exponents && m < SignBit(f)
  {
    Divided(m, f.fraction);
    OneMore(f.fraction, f.exponents);
    if m / f.fraction >= f.exponents { NotSmaller(f.fraction, f.exponents, m / f.fraction); }
  }

  lemma Thousand()
    ensures Unsigned(DOUBLE, 0x408F_4000_0000_0000) == 1_000.0
  {
    assert PowerOf2(-3) == 1.0 / 8.0;
    assert PowerOf2(-8) == 1.0 / 256.0;
    assert PowerOf2(-13) == 1.0 / 8_192.0;
    assert PowerOf2(-18) == 1.0 / 262_144.0;
    assert PowerOf2(-23) == 1.0 / 8_388_608.0;
    assert PowerOf2(-28) == 1.0 / 268_435_456.0;
    assert PowerOf2(-33) == 1.0 / 8_589_934_592.0;
    assert PowerOf2(-38) == 1.0 / 274_877_906_944.0;
    assert PowerOf2(-43) == 1.0 / 8_796_093_022_208.0;
  }

  lemma OneSingle()
    ensures Unsigned(SINGLE, 0x3F80_0000) == 1.0
  {
    assert PowerOf2(-3) == 1.0 / 8.0;
    assert PowerOf2(-8) == 1.0 / 256.0;
    assert PowerOf2(-13) == 1.0 / 8_192.0;
    assert PowerOf2(-18) == 1.0 / 262_144.0;
    assert PowerOf2(-23) == 1.0 / 8_388_608.0;
  }

  /** The test of a tempo accepts exactly the finite numbers above 0 and up to 1000. */
  lemma TempoIsInRange(bits: u64)
    ensures ValidTempo(bits) <==> Finite(DOUBLE, bits) && 0.0 < Value(DOUBLE, bits) <= 1_000.0
  {
    Thousand();
    PositiveRange(DOUBLE, bits, 0x408F_4000_0000_0000, 1_000.0);
  }

  /** The test of a velocity accepts exactly the finite numbers above 0 and up to 1. */
  lemma VelocityIsInRange(bits: u32)
    ensures ValidVelocity(bits) <==> Finite(SINGLE, bits) && 0.0 < Value(SINGLE, bits) <= 1.0
  {
    OneSingle();
    PositiveRange(SINGLE, bits, 0x3F80_0000, 1.0);
  }

  lemma FloatIsFinite(bits: u32)
    ensures FiniteFloat(bits) <==> Finite(SINGLE, bits)
  {
    var e := bits / 0x80_0000;
    assert bits < 0x8000_0000 ==> e < 0x100;
    assert bits >= 0x8000_0000 ==> (bits - 0x8000_0000) / 0x80_0000 == e - 0x100;
  }

  /** Finite doubles are equal exactly if their values are. */
  lemma EqualMeansSameValue(a: u64, b: u64)
    requires Finite(DOUBLE, a) && Finite(DOUBLE, b)
    ensures DoubleEquals(a, b) <==> Value(DOUBLE, a) == Value(DOUBLE, b)
  {
    var x, y := Magnitude(DOUBLE, a), Magnitude(DOUBLE, b);
    EqualBits(a, b);
    Apart(x, y);
    WithSigns(a, b, x, y, Unsigned(DOUBLE, x), Unsigned(DOUBLE, y));
  }

  lemma EqualBits(a: u64, b: u64)
    requires Finite(DOUBLE, a) && Finite(DOUBLE, b)
    ensures DoubleEquals(a, b) <==> a == b || (Magnitude(DOUBLE, a) == 0 && Magnitude(DOUBLE, b) == 0)
  {
    NotNaN(a);
    NotNaN(b);
  }

  lemma Apart(x: nat, y: nat)
    ensures var u, v := Unsigned(DOUBLE, x), Unsigned(DOUBLE, y);
      0.0 <= u && 0.0 <= v && (x == 0 <==> u == 0.0) && (y == 0 <==> v == 0.0) && (x == y <==> u == v)
  {
    ZeroIsZero(DOUBLE);
    Ordered(DOUBLE, 0, x);
    Ordered(DOUBLE, 0, y);
    Ordered(DOUBLE, x, y);
    Ordered(DOUBLE, y, x);
  }

  lemma WithSigns(a: u64, b: u64, x: nat, y: nat, u: real, v: real)
    requires x == (if a < 0x8000_0000_0000_0000 then a else a - 0x8000_0000_0000_0000)
    requires y == (if b < 0x8000_0000_0000_0000 then b else b - 0x8000_0000_0000_0000)
    requires 0.0 <= u && 0.0 <= v && (x == 0 <==> u == 0.0) && (y == 0 <==> v == 0.0) && (x == y <==> u == v)
    ensures (a == b || (x == 0 && y == 0)) <==>
      (if a < 0x8000_0000_0000_0000 then u else -u) == (if b < 0x8000_0000_0000_0000 then v else -v)
  {}

  lemma NotNaN(bits: u64)
    requires Finite(DOUBLE, bits)
    ensures !IsNaN(bits)
  {
    var e := bits / 0x10_0000_0000_0000;
    assert bits < 0x8000_0000_0000_0000 ==> e < 0x800;
    assert bits >= 0x8000_0000_0000_0000 ==> (bits - 0x8000_0000_0000_0000) / 0x10_0000_0000_0000 == e - 0x800;
  }
}
