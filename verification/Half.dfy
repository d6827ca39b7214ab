/** Conversions between binary32, binary16 and bfloat16 encodings (IEEE 754-2019, sections 3.4 and 3.6). */
module Half {
  import opened Numbers
  import opened Binary

  type Bits16 = n: nat | n < 0x1_0000
  type Bits32 = n: nat | n < 0x1_0000_0000

  // Bit operations on naturals: masks and shifts by constants are remainders and divisions, and an
  // "or" of fields that share no bit is their sum. The top bit is the sign; the rest is the magnitude.

  function Sign16(value: Bits16): Bits16 {
    if value < 0x8000 then 0 else 0x8000
  }

  function Magnitude16(value: Bits16): Bits16 {
    value - Sign16(value)
  }

  function Sign32(bits: Bits32): Bits32 {
    if bits < 0x8000_0000 then 0 else 0x8000_0000
  }

  function Magnitude32(bits: Bits32): Bits32 {
    bits - Sign32(bits)
  }

  function WidenSign(value: Bits16): Bits32 {
    Sign16(value) * 0x1_0000
  }

  function NarrowSign(bits: Bits32): Bits16 {
    if bits < 0x8000_0000 then 0 else 0x8000
  }

  predicate Finite(f: Format, magnitude: nat) {
    magnitude < f.Infinity()
  }

  predicate NaN(f: Format, magnitude: nat) {
    magnitude > f.Infinity()
  }

  function Compose(sign: Bits32, exponent: nat, mantissa: nat): (bits: Bits32)
    requires sign in {0, 0x8000_0000} && exponent < 0x100 && mantissa < 0x80_0000
    ensures Sign32(bits) == sign && Magnitude32(bits) == exponent * 0x80_0000 + mantissa
  {
    sign + exponent * 0x80_0000 + mantissa
  }

  // ---------------------------------------------------------------------------- widening

  predicate Normalizable(mantissa: nat, exponent: int) {
    -24 <= exponent <= -14 && Pow2(-14 - exponent) <= mantissa < 0x800
  }

  /** Shifts a subnormal binary16 mantissa up until its leading bit is explicit, lowering the
      exponent by one each time. */
  function Normalize(mantissa: nat, exponent: int): (r: (nat, int))
    requires Normalizable(mantissa, exponent)
    ensures 0x400 <= r.0 < 0x800 && -24 <= r.1 <= exponent
    ensures r.0 * Pow2(r.1 + 139) == mantissa * Pow2(exponent + 139)
    decreases 0x400 - mantissa
  {
    if mantissa >= 0x400 then (mantissa, exponent)
    else
      NormalizeStep(mantissa, exponent);
      Normalize(2 * mantissa, exponent - 1)
  }

  lemma NormalizeStep(mantissa: nat, exponent: int)
    requires Normalizable(mantissa, exponent) && mantissa < 0x400
    ensures Normalizable(2 * mantissa, exponent - 1)
    ensures (2 * mantissa) * Pow2(exponent - 1 + 139) == mantissa * Pow2(exponent + 139)
  {
    assert Pow2(10) == 0x400;
    assert (2 * mantissa) * Pow2(exponent - 1 + 139) == mantissa * (2 * Pow2(exponent - 1 + 139));
  }

  /** The loop's test of the hidden bit. */
  lemma BitTen(mantissa: nat, exponent: int)
    requires Normalizable(mantissa, exponent)
    ensures mantissa / 0x400 % 2 == 0 <==> mantissa < 0x400
  {}

  function Widen(value: Bits16): Bits32 {
    var sign := WidenSign(value);
    var exponent, mantissa := Magnitude16(value) / 0x400, Magnitude16(value) % 0x400;
    if exponent == 0 then
      if mantissa == 0 then sign
      else
        var (normalized, unbiased) := Normalize(mantissa, -14);
        Compose(sign, unbiased + 127, normalized % 0x400 * 0x2000)
    else if exponent == 0x1f then Compose(sign, 0xff, mantissa * 0x2000)
    else Compose(sign, exponent + 127 - 15, mantissa * 0x2000)
  }

  /** The normalization loop. */
  method NormalizeLoop(subnormal: nat) returns (mantissa: nat, exponent: int)
    requires Normalizable(subnormal, -14)
    ensures (mantissa, exponent) == Normalize(subnormal, -14)
    ensures Normalizable(mantissa, exponent) && mantissa >= 0x400
  {
    hide Pow2;
    mantissa, exponent := subnormal, -14;
    while mantissa / 0x400 % 2 == 0
      invariant Normalizable(mantissa, exponent) && Normalize(mantissa, exponent) == Normalize(subnormal, -14)
      decreases 0x400 - mantissa
    {
      BitTen(mantissa, exponent);
      NormalizeStep(mantissa, exponent);
      mantissa := mantissa * 2;
      exponent := exponent - 1;
    }
    BitTen(mantissa, exponent);
  }

  /** The widening conversion. */
  method Float16ToFloat(value: Bits16) returns (bits: Bits32)
    ensures bits == Widen(value)
  {
    hide Compose, Normalize;
    var sign := WidenSign(value);
    var exponent := Magnitude16(value) / 0x400;
    var mantissa := Magnitude16(value) % 0x400;
    if exponent == 0 {
      if mantissa == 0 {
        bits := sign;
      } else {
        var unbiased;
        mantissa, unbiased := NormalizeLoop(mantissa);
        mantissa := mantissa % 0x400;
        exponent := unbiased + 127;
        bits := Compose(sign, exponent, mantissa * 0x2000);
      }
    } else if exponent == 0x1f {
      bits := Compose(sign, 0xff, mantissa * 0x2000);
    } else {
      exponent := exponent + 127 - 15;
      bits := Compose(sign, exponent, mantissa * 0x2000);
    }
  }

  lemma Pow2Of13()
    ensures Pow2(13) == 0x2000
  {
    assert Pow2(7) == 0x80;
  }

  // ---------------------------------------------------------------------------- narrowing

  /** Shifts: whole part, discarded bits. */
  function ShiftRight(x: nat, count: nat): nat {
    if count == 0 then x else ShiftRight(x / 2, count - 1)
  }

  function LowBits(x: nat, count: nat): nat {
    if count == 0 then 0 else x % 2 + 2 * LowBits(x / 2, count - 1)
  }

  lemma {:induction false} ShiftSplits(x: nat, count: nat)
    ensures x == ShiftRight(x, count) * Pow2(count) + LowBits(x, count)
    ensures LowBits(x, count) < Pow2(count)
  {
    if count > 0 {
      ShiftSplits(x / 2, count - 1);
      DoubledSplit(x, ShiftRight(x / 2, count - 1), Pow2(count - 1), LowBits(x / 2, count - 1));
    }
  }

  lemma DoubledSplit(x: nat, high: nat, p: nat, low: nat)
    requires x / 2 == high * p + low
    ensures x == high * (2 * p) + (x % 2 + 2 * low)
  {
    assert high * (2 * p) == 2 * (high * p);
  }

  lemma SubnormalBound(normalized: nat, shift: nat)
    requires 14 <= shift && normalized < 0x100_0000
    ensures ShiftRight(normalized, shift) < 0x400
  {
    ShiftSplits(normalized, shift);
    Pow2Of13();
    Pow2Grows(14, shift);
    var rounded := ShiftRight(normalized, shift);
    if rounded >= 0x400 {
      MultiplyLess(0x3ff, rounded, Pow2(shift));
    }
  }

  lemma {:induction false} Pow2Grows(a: nat, b: nat)
    requires a <= b
    ensures Pow2(a) <= Pow2(b)
  {
    if a < b {
      Pow2Grows(a, b - 1);
    }
  }

  function NarrowMagnitude(bits: Bits32): (r: Bits16)
    ensures r < 0x8000
  {
    var exponent, mantissa := Magnitude32(bits) / 0x80_0000, Magnitude32(bits) % 0x80_0000;
    if exponent == 0xff then
      if mantissa == 0 then 0x7c00 else 0x7c00 + mantissa / 0x2000 / 2 * 2 + 1
    else
      var halfExponent := exponent - 127 + 15;
      if halfExponent >= 31 then 0x7c00
      else if halfExponent <= 0 then
        if halfExponent < -10 then 0
        else
          var normalized, shift := mantissa + 0x80_0000, 14 - halfExponent;
          var rounded, remainder, halfway := ShiftRight(normalized, shift), LowBits(normalized, shift), Pow2(shift - 1);
          SubnormalBound(normalized, shift);
          if remainder > halfway || (remainder == halfway && rounded % 2 == 1) then rounded + 1 else rounded
      else
        var rounded, remainder := mantissa / 0x2000, mantissa % 0x2000;
        if remainder > 0x1000 || (remainder == 0x1000 && rounded % 2 == 1) then
          if rounded + 1 == 0x400 then
            if halfExponent + 1 >= 31 then 0x7c00 else (halfExponent + 1) * 0x400
          else halfExponent * 0x400 + (rounded + 1)
        else halfExponent * 0x400 + rounded
  }

  function Narrow(bits: Bits32): Bits16 {
    NarrowSign(bits) + NarrowMagnitude(bits)
  }

  /** What a tensor element becomes by crossing a stage boundary as a half. */
  function Quantize(bits: Bits32): Bits32 {
    Widen(Narrow(bits))
  }

  // ---------------------------------------------------------------------------- bfloat16

  function WidenBrain(value: Bits16): Bits32 {
    value * 0x1_0000
  }

  function NarrowBrain(bits: Bits32): Bits16 {
    if NaN(Float32, Magnitude32(bits)) then
      // Sets the quiet bit, so that no NaN loses its whole payload.
      if bits / 0x1_0000 / 0x40 % 2 == 1 then bits / 0x1_0000 else bits / 0x1_0000 + 0x40
    else
      (bits + 0x7fff + bits / 0x1_0000 % 2) % 0x1_0000_0000 / 0x1_0000
  }
}
