/** The conversions round correctly, and crossing a stage boundary twice is crossing it once. */
module Rounding {
  import opened Numbers
  import opened Binary
  import opened Half

  // ---------------------------------------------------------------------------- widening

  /** Widening a finite half is exact. */
  lemma WidenIsExact(value: Bits16)
    requires Finite(Float16, Magnitude16(value))
    ensures Finite(Float32, Magnitude32(Widen(value)))
    ensures Value(Float32, Magnitude32(Widen(value))) == Value(Float16, Magnitude16(value))
  {
    var n := Magnitude16(value);
    if n == 0 {
      WidenZero(value);
      ValueOfZero(Float32);
      ValueOfZero(Float16);
    } else if n < 0x400 {
      WidenSubnormal(value);
    } else {
      WidenNormal(value);
    }
  }

  /** Widening keeps the sign, takes infinities to infinities and NaNs to NaNs with the payload in
      the leading mantissa bits. */
  lemma WidenKeepsClass(value: Bits16)
    ensures Sign32(Widen(value)) == WidenSign(value)
    ensures !Finite(Float16, Magnitude16(value)) ==>
              Magnitude32(Widen(value)) == Float32.Infinity() + (Magnitude16(value) - Float16.Infinity()) * 0x2000
  {}

  lemma WidenZero(value: Bits16)
    requires Magnitude16(value) == 0
    ensures Magnitude32(Widen(value)) == 0
  {}

  lemma WidenSubnormal(value: Bits16)
    requires 0 < Magnitude16(value) < 0x400
    ensures Finite(Float32, Magnitude32(Widen(value)))
    ensures Value(Float32, Magnitude32(Widen(value))) == Value(Float16, Magnitude16(value))
  {
    var n := Magnitude16(value);
    var (normalized, unbiased) := Normalize(n, -14);
    assert normalized % 0x400 == normalized - 0x400;
    WidenedValue(Magnitude32(Widen(value)), unbiased + 127, normalized - 0x400);
    assert Value(Float16, n) == n * Pow2(125);
  }

  lemma WidenNormal(value: Bits16)
    requires 0x400 <= Magnitude16(value) < 0x7c00
    ensures Finite(Float32, Magnitude32(Widen(value)))
    ensures Value(Float32, Magnitude32(Widen(value))) == Value(Float16, Magnitude16(value))
  {
    var n := Magnitude16(value);
    WidenedValue(Magnitude32(Widen(value)), n / 0x400 + 112, n % 0x400);
    ScaleUp(0x400 + n % 0x400, 125, n / 0x400 - 1);
  }

  lemma WidenedValue(magnitude: nat, exponent: nat, mantissa: nat)
    requires 0 < exponent < 0xff && mantissa < 0x400
    requires magnitude == exponent * 0x80_0000 + mantissa * 0x2000
    ensures Finite(Float32, magnitude)
    ensures Value(Float32, magnitude) == (0x400 + mantissa) * Pow2(exponent + 12)
  {
    assert Float32.Exponent(magnitude) == exponent && Float32.Mantissa(magnitude) == mantissa * 0x2000;
    Pow2Of13();
    ScaleUp(0x400 + mantissa, exponent - 1, 13);
  }

  lemma ScaleUp(significand: nat, exponent: nat, count: nat)
    ensures (significand * Pow2(count)) * Pow2(exponent) == significand * Pow2(exponent + count)
  {
    Pow2Add(exponent, count);
    Associate(significand, Pow2(count), Pow2(exponent));
  }

  // ---------------------------------------------------------------------------- narrowing

  lemma NarrowFields(bits: Bits32)
    ensures Sign16(Narrow(bits)) == NarrowSign(bits)
    ensures Magnitude16(Narrow(bits)) == NarrowMagnitude(bits)
  {}

  /** Every finite binary32 value narrows to the nearest half, ties to even, through subnormals and up
      to overflow; the sign is kept. */
  lemma NarrowIsNearestEven(bits: Bits32)
    requires Finite(Float32, Magnitude32(bits))
    ensures NearestEven(Float16, Value(Float32, Magnitude32(bits)), Magnitude16(Narrow(bits)))
    ensures Sign16(Narrow(bits)) == NarrowSign(bits)
  {
    NarrowFields(bits);
    var exponent := Magnitude32(bits) / 0x80_0000;
    if exponent >= 143 {
      NarrowOverflow(bits);
    } else if exponent < 102 {
      NarrowUnderflow(bits);
    } else if exponent <= 112 {
      NarrowToSubnormal(bits);
    } else {
      NarrowToNormal(bits);
    }
  }

  lemma NormalValue32(m: nat, e: nat, low: nat)
    requires e > 0 && low < 0x80_0000 && m == e * 0x80_0000 + low
    ensures Value(Float32, m) == (0x80_0000 + low) * Pow2(e - 1)
  {
    assert Float32.Exponent(m) == e && Float32.Mantissa(m) == low;
  }

  lemma SubnormalValue16(n: nat)
    requires n < 0x400
    ensures Value(Float16, n) == n * Pow2(125) && Spacing(Float16, n) * Float16.Unit() == Pow2(125)
  {
    assert Float16.Exponent(n) == 0 && Float16.Mantissa(n) == n;
  }

  lemma InfinityValue16()
    ensures Value(Float16, Float16.Infinity()) == 0x80_0000 * Pow2(142)
  {
    ScaleUp(0x400, 125, 30);
    ScaleUp(0x400, 142, 13);
    Pow2Of13();
  }

  lemma NarrowOverflow(bits: Bits32)
    requires Finite(Float32, Magnitude32(bits)) && Magnitude32(bits) / 0x80_0000 >= 143
    ensures NearestEven(Float16, Value(Float32, Magnitude32(bits)), NarrowMagnitude(bits))
  {
    hide Value, Pow2, NearestEven;
    var m := Magnitude32(bits);
    NormalValue32(m, m / 0x80_0000, m % 0x80_0000);
    InfinityValue16();
    Pow2Grows(142, m / 0x80_0000 - 1);
    ProductGrows(0x80_0000, Pow2(142), 0x80_0000 + m % 0x80_0000, Pow2(m / 0x80_0000 - 1));
    OverflowIsNearest(Float16, Value(Float32, m));
  }

  lemma ProductGrows(a: nat, b: nat, c: nat, d: nat)
    requires a <= c && b <= d
    ensures a * b <= c * d
  {
    assert c * d == a * b + (c - a) * b + c * (d - b);
  }

  lemma NarrowUnderflow(bits: Bits32)
    requires Magnitude32(bits) / 0x80_0000 < 102
    ensures NearestEven(Float16, Value(Float32, Magnitude32(bits)), NarrowMagnitude(bits))
  {
    hide Value, Pow2, NearestEven;
    SubnormalValue16(0);
    SubnormalValue16(1);
    BelowHalfUnit(Magnitude32(bits), 102);
    BracketIsNearest(Float16, Value(Float32, Magnitude32(bits)), 0, 0);
  }

  lemma BelowHalfUnit(m: nat, limit: nat)
    requires m / 0x80_0000 < limit && limit > 1
    ensures 2 * Value(Float32, m) < Pow2(limit + 23)
  {
    var e, u := m / 0x80_0000, Pow2(limit - 2);
    var significand := if e == 0 then m % 0x80_0000 else 0x80_0000 + m % 0x80_0000;
    Pow2Grows(0, limit - 2);
    if e > 0 {
      Pow2Grows(e - 1, limit - 2);
    }
    ProductGrows(significand, if e == 0 then 1 else Pow2(e - 1), significand, u);
    MultiplyLess(significand, 0x100_0000, u);
    Pow2Of13();
    Pow2Add(11, 13);
    ScaleUp(1, limit - 2, 24);
    assert Pow2(limit + 23) == 2 * Pow2(limit + 22);
  }

  lemma NarrowToSubnormal(bits: Bits32)
    requires 102 <= Magnitude32(bits) / 0x80_0000 <= 112
    ensures NearestEven(Float16, Value(Float32, Magnitude32(bits)), NarrowMagnitude(bits))
  {
    hide Value, Pow2, NearestEven, Spacing, ShiftRight, LowBits;
    var m := Magnitude32(bits);
    var e := m / 0x80_0000;
    var normalized, shift := m % 0x80_0000 + 0x80_0000, 126 - e;
    var rounded := ShiftRight(normalized, shift);
    SubnormalBound(normalized, shift);
    ShiftSplits(normalized, shift);
    HalfOf(shift);
    Pow2Add(shift, e - 1);
    NormalValue32(m, e, m % 0x80_0000);
    SubnormalValue16(rounded);
    DiscardedBitsRound(Float16, Value(Float32, m), rounded, NarrowMagnitude(bits),
                       rounded, LowBits(normalized, shift), Pow2(shift - 1), Pow2(e - 1));
  }

  lemma HalfOf(n: nat)
    requires n > 0
    ensures Pow2(n) == 2 * Pow2(n - 1)
  {}

  lemma NarrowToNormal(bits: Bits32)
    requires 112 < Magnitude32(bits) / 0x80_0000 < 143
    ensures NearestEven(Float16, Value(Float32, Magnitude32(bits)), NarrowMagnitude(bits))
  {
    var m := Magnitude32(bits);
    var e, high := m / 0x80_0000, m % 0x80_0000 / 0x2000;
    NormalRounding(bits, (e - 112) * 0x400 + high);
    NormalCase(m, NarrowMagnitude(bits), e, high, m % 0x2000);
  }

  lemma NormalCase(m: nat, n: nat, e: nat, high: nat, rest: nat)
    requires 112 < e < 143 && high < 0x400 && rest < 0x2000
    requires m == e * 0x80_0000 + high * 0x2000 + rest
    requires var base := (e - 112) * 0x400 + high;
             n == if rest > 0x1000 || (rest == 0x1000 && high % 2 == 1) then base + 1 else base
    ensures NearestEven(Float16, Value(Float32, m), n)
  {
    hide Value, Pow2, NearestEven, Spacing;
    var base := (e - 112) * 0x400 + high;
    NormalValue32(m, e, high * 0x2000 + rest);
    NormalGrid(e - 112, high, base);
    DiscardedBitsRound(Float16, Value(Float32, m), base, n, 0x400 + high, rest, 0x1000, Pow2(e - 1));
  }

  lemma NormalGrid(exponent: nat, mantissa: nat, n: nat)
    requires exponent > 0 && mantissa < 0x400 && n == exponent * 0x400 + mantissa
    ensures Spacing(Float16, n) * Float16.Unit() == 0x2000 * Pow2(exponent + 111)
    ensures Value(Float16, n) == (0x400 + mantissa) * (0x2000 * Pow2(exponent + 111))
  {
    assert Float16.Exponent(n) == exponent && Float16.Mantissa(n) == mantissa;
    Pow2Of13();
    Pow2Add(exponent - 1, 125);
    Pow2Add(13, exponent + 111);
    Associate(0x400 + mantissa, Pow2(exponent - 1), Pow2(125));
  }

  lemma NormalRounding(bits: Bits32, base: nat)
    requires 112 < Magnitude32(bits) / 0x80_0000 < 143
    requires base == (Magnitude32(bits) / 0x80_0000 - 112) * 0x400 + Magnitude32(bits) % 0x80_0000 / 0x2000
    ensures var high, rest := Magnitude32(bits) % 0x80_0000 / 0x2000, Magnitude32(bits) % 0x2000;
            NarrowMagnitude(bits) == if rest > 0x1000 || (rest == 0x1000 && high % 2 == 1) then base + 1 else base
  {}

  // ---------------------------------------------------------------------------- laws of the pair

  /** Narrowing a widened half gives it back, except that a NaN comes back with its low bit set. */
  lemma NarrowUndoesWiden(value: Bits16)
    ensures Narrow(Widen(value)) == if NaN(Float16, Magnitude16(value)) && value % 2 == 0 then value + 1 else value
  {
    NarrowUndoesWidenMagnitude(value);
    WidenKeepsClass(value);
  }

  lemma NarrowUndoesWidenMagnitude(value: Bits16)
    ensures var n := Magnitude16(value);
            NarrowMagnitude(Widen(value)) == if NaN(Float16, n) && n % 2 == 0 then n + 1 else n
  {
    WidenKeepsClass(value);
    if Finite(Float16, Magnitude16(value)) {
      FiniteRoundTrip(value);
    } else {
      NarrowSpecial(Widen(value), Magnitude16(value) - 0x7c00);
    }
  }

  lemma FiniteRoundTrip(value: Bits16)
    requires Finite(Float16, Magnitude16(value))
    ensures NarrowMagnitude(Widen(value)) == Magnitude16(value)
  {
    var n := Magnitude16(value);
    WidenIsExact(value);
    NarrowFields(Widen(value));
    NarrowIsNearestEven(Widen(value));
    ExactIsNearest(Float16, n);
    NearestIsUnique(Float16, Value(Float16, n), n, NarrowMagnitude(Widen(value)));
  }

  lemma NarrowSpecial(bits: Bits32, payload: nat)
    requires payload < 0x400 && Magnitude32(bits) == 0x7f80_0000 + payload * 0x2000
    ensures NarrowMagnitude(bits) == if payload == 0 then 0x7c00 else 0x7c00 + payload / 2 * 2 + 1
  {
    assert Magnitude32(bits) / 0x80_0000 == 0xff && Magnitude32(bits) % 0x80_0000 == payload * 0x2000;
  }

  /** A second crossing sends the same half as the first, whatever the element was, so it changes nothing. */
  lemma QuantizeIsIdempotent(bits: Bits32)
    ensures Narrow(Quantize(bits)) == Narrow(bits)
  {
    NarrowUndoesWiden(Narrow(bits));
    NarrowFields(bits);
    NarrowNaN(bits);
  }

  lemma NarrowNaN(bits: Bits32)
    ensures NaN(Float16, NarrowMagnitude(bits)) <==> NaN(Float32, Magnitude32(bits))
    ensures NaN(Float16, NarrowMagnitude(bits)) ==> NarrowMagnitude(bits) % 2 == 1
  {
    var m := Magnitude32(bits);
    if Finite(Float32, m) {
      NarrowFields(bits);
      NarrowIsNearestEven(bits);
    }
  }

  function SignedValue(f: Format, value: Bits16): int {
    Signed(value >= 0x8000, Value(f, Magnitude16(value)))
  }

  function SignedValue32(bits: Bits32): int {
    Signed(bits >= 0x8000_0000, Value(Float32, Magnitude32(bits)))
  }

  /** Narrowing never reverses the order of two finite values. */
  lemma NarrowIsMonotone(a: Bits32, b: Bits32)
    requires Finite(Float32, Magnitude32(a)) && Finite(Float32, Magnitude32(b))
    requires SignedValue32(a) <= SignedValue32(b)
    ensures SignedValue(Float16, Narrow(a)) <= SignedValue(Float16, Narrow(b))
  {
    NarrowIsNearestEven(a);
    NarrowIsNearestEven(b);
    SignedRoundingIsMonotone(Float16, a >= 0x8000_0000, Value(Float32, Magnitude32(a)), Magnitude16(Narrow(a)),
                             b >= 0x8000_0000, Value(Float32, Magnitude32(b)), Magnitude16(Narrow(b)));
  }

  /** A finite value overflows to infinity exactly from the midpoint above the greatest finite half. */
  lemma NarrowOverflowsExactly(bits: Bits32)
    requires Finite(Float32, Magnitude32(bits))
    ensures Finite(Float16, Magnitude16(Narrow(bits))) <==>
              2 * Value(Float32, Magnitude32(bits)) < Value(Float16, 0x7bff) + Value(Float16, 0x7c00)
  {
    NarrowIsNearestEven(bits);
    var x, n := Value(Float32, Magnitude32(bits)), Magnitude16(Narrow(bits));
    ValueIncreases(Float16, 0x7bff, 0x7c00);
    assert NoBetter(Float16, x, n, 0x7bff) && NoBetter(Float16, x, n, 0x7c00);
    if n < 0x7bff {
      ValueIncreases(Float16, n, 0x7bff);
    }
  }

  // ---------------------------------------------------------------------------- bfloat16

  lemma WidenBrainIsExact(value: Bits16)
    ensures Sign32(WidenBrain(value)) == WidenSign(value)
    ensures Finite(BFloat16, Magnitude16(value)) <==> Finite(Float32, Magnitude32(WidenBrain(value)))
    ensures NaN(BFloat16, Magnitude16(value)) <==> NaN(Float32, Magnitude32(WidenBrain(value)))
    ensures Value(Float32, Magnitude32(WidenBrain(value))) == Value(BFloat16, Magnitude16(value))
  {
    var n: nat := Magnitude16(value);
    var wide := n * 0x1_0000;
    assert Magnitude32(WidenBrain(value)) == wide;
    assert Float32.Exponent(wide) == n / 0x80 && Float32.Mantissa(wide) == n % 0x80 * 0x1_0000;
    if n / 0x80 > 0 {
      Associate(0x1_0000, 0x80 + n % 0x80, Pow2(n / 0x80 - 1));
    }
  }

  /** What rounding adds to the upper half. */
  function BrainCarry(q: nat, r: nat): nat {
    if r > 0x8000 || (r == 0x8000 && q % 2 == 1) then 1 else 0
  }

  lemma NarrowBrainFields(bits: Bits32)
    ensures Sign16(NarrowBrain(bits)) == NarrowSign(bits)
    ensures NaN(BFloat16, Magnitude16(NarrowBrain(bits))) <==> NaN(Float32, Magnitude32(bits))
    ensures !NaN(Float32, Magnitude32(bits)) ==>
              Magnitude16(NarrowBrain(bits)) ==
                var q, r := Magnitude32(bits) / 0x1_0000, Magnitude32(bits) % 0x1_0000; q + BrainCarry(q, r)
  {
    var s, q, r := bits / 0x8000_0000, Magnitude32(bits) / 0x1_0000, Magnitude32(bits) % 0x1_0000;
    if NaN(Float32, Magnitude32(bits)) {
      BrainNaN(bits, s, q, r);
    } else {
      BrainNumber(bits, s, q, r);
    }
  }

  lemma BrainNaN(bits: Bits32, s: nat, q: nat, r: nat)
    requires s <= 1 && r < 0x1_0000 && bits == s * 0x8000_0000 + q * 0x1_0000 + r && 0x7f80 <= q < 0x8000
    requires NaN(Float32, Magnitude32(bits))
    ensures NarrowBrain(bits) == s * 0x8000 + if q / 0x40 % 2 == 1 then q else q + 0x40
  {
    assert bits / 0x1_0000 == s * 0x8000 + q;
  }

  lemma BrainNumber(bits: Bits32, s: nat, q: nat, r: nat)
    requires s <= 1 && r < 0x1_0000 && bits == s * 0x8000_0000 + q * 0x1_0000 + r && (q < 0x7f80 || (q == 0x7f80 && r == 0))
    requires !NaN(Float32, Magnitude32(bits))
    ensures NarrowBrain(bits) == s * 0x8000 + (q + BrainCarry(q, r)) && q + BrainCarry(q, r) <= 0x7f80
  {
    assert bits / 0x1_0000 == s * 0x8000 + q;
    Quotient(s * 0x8000 + q + BrainCarry(q, r), r + 0x7fff + q % 2 - BrainCarry(q, r) * 0x1_0000);
  }

  lemma Quotient(q: nat, r: nat)
    requires r < 0x1_0000 && q < 0x1_0000
    ensures (q * 0x1_0000 + r) % 0x1_0000_0000 / 0x1_0000 == q
  {}

  lemma NarrowBrainIsNearestEven(bits: Bits32)
    requires Finite(Float32, Magnitude32(bits))
    ensures NearestEven(BFloat16, Value(Float32, Magnitude32(bits)), Magnitude16(NarrowBrain(bits)))
    ensures Sign16(NarrowBrain(bits)) == NarrowSign(bits)
  {
    var m := Magnitude32(bits);
    hide NarrowBrain, Value, NearestEven;
    NarrowBrainFields(bits);
    BrainGrid(m, m / 0x1_0000, m % 0x1_0000, Magnitude16(NarrowBrain(bits)));
  }

  lemma BrainGrid(m: nat, q: nat, r: nat, n: nat)
    requires m < 0x7f80_0000 && m == q * 0x1_0000 + r && r < 0x1_0000
    requires n == q + BrainCarry(q, r)
    ensures NearestEven(BFloat16, Value(Float32, m), n)
  {
    var e, low := q / 0x80, q % 0x80;
    assert Float32.Exponent(m) == e && Float32.Mantissa(m) == low * 0x1_0000 + r;
    BrainValue(q, e, low);
    var significand, u := if e == 0 then q else 0x80 + low, if e == 0 then 1 else Pow2(e - 1);
    DiscardedBitsRound(BFloat16, Value(Float32, m), q, n, significand, r, 0x8000, u);
  }

  lemma BrainValue(q: nat, e: nat, low: nat)
    requires q == e * 0x80 + low && low < 0x80
    ensures var significand, u := if e == 0 then q else 0x80 + low, if e == 0 then 1 else Pow2(e - 1);
            Value(BFloat16, q) == significand * (0x1_0000 * u)
            && Spacing(BFloat16, q) * BFloat16.Unit() == 0x1_0000 * u
            && significand % 2 == q % 2
  {
    assert BFloat16.Exponent(q) == e && BFloat16.Mantissa(q) == low;
    if e > 0 {
      Associate(0x1_0000, 0x80 + low, Pow2(e - 1));
    }
  }

  lemma NarrowBrainIsMonotone(a: Bits32, b: Bits32)
    requires Finite(Float32, Magnitude32(a)) && Finite(Float32, Magnitude32(b))
    requires SignedValue32(a) <= SignedValue32(b)
    ensures SignedValue(BFloat16, NarrowBrain(a)) <= SignedValue(BFloat16, NarrowBrain(b))
  {
    NarrowBrainIsNearestEven(a);
    NarrowBrainIsNearestEven(b);
    SignedRoundingIsMonotone(BFloat16, a >= 0x8000_0000, Value(Float32, Magnitude32(a)), Magnitude16(NarrowBrain(a)),
                             b >= 0x8000_0000, Value(Float32, Magnitude32(b)), Magnitude16(NarrowBrain(b)));
  }

  /** Narrowing undoes widening for every bfloat16 that is not a signalling NaN, which becomes quiet. */
  lemma NarrowBrainUndoesWiden(value: Bits16)
    ensures NarrowBrain(WidenBrain(value)) ==
              if NaN(BFloat16, Magnitude16(value)) && value / 0x40 % 2 == 0 then value + 0x40 else value
  {
    hide NaN, NarrowBrain, Value;
    WidenBrainIsExact(value);
    NarrowBrainOfWhole(value);
  }

  lemma NarrowBrainOfWhole(value: Bits16)
    ensures NarrowBrain(value * 0x1_0000) ==
              if NaN(Float32, Magnitude32(value * 0x1_0000)) && value / 0x40 % 2 == 0 then value + 0x40 else value
  {}
}
