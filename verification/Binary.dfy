/** Powers of two, and the integer view of binary floating-point magnitudes. */
module Binary {
  import opened Numbers

  function Pow2(n: nat): (r: nat)
    ensures r > 0
  {
    if n == 0 then 1 else 2 * Pow2(n - 1)
  }

  lemma {:induction false} Pow2Add(a: nat, b: nat)
    ensures Pow2(a + b) == Pow2(a) * Pow2(b)
  {
    if a != 0 {
      Pow2Add(a - 1, b);
      Associate(2, Pow2(a - 1), Pow2(b));
    }
  }

  /** The three binary interchange formats the runtime converts between. Each magnitude (an encoding
      without its sign bit) is an exponent field above a mantissa field. */
  datatype Format = Float16 | BFloat16 | Float32 {
    /** One past the greatest mantissa. */
    function Base(): nat {
      match this
      case Float16 => 0x400
      case BFloat16 => 0x80
      case Float32 => 0x80_0000
    }

    /** The encoding of infinity, which follows the greatest finite one. */
    function Infinity(): nat {
      match this
      case Float16 => 0x7c00
      case BFloat16 => 0x7f80
      case Float32 => 0x7f80_0000
    }

    function Exponent(n: nat): nat {
      match this
      case Float16 => n / 0x400
      case BFloat16 => n / 0x80
      case Float32 => n / 0x80_0000
    }

    function Mantissa(n: nat): nat {
      match this
      case Float16 => n % 0x400
      case BFloat16 => n % 0x80
      case Float32 => n % 0x80_0000
    }

    /** The least subnormal, in units of the least binary32 subnormal. */
    function Unit(): nat {
      match this
      case Float16 => Pow2(125)
      case BFloat16 => 0x1_0000
      case Float32 => 1
    }
  }

  function Scaled(base: nat, exponent: nat, mantissa: nat): nat {
    if exponent == 0 then mantissa else (base + mantissa) * Pow2(exponent - 1)
  }

  /** The value of a magnitude, in units of the format's least subnormal. The encoding of infinity
      gets the value at which the next binade would start. */
  function Magnitude(f: Format, n: nat): nat {
    Scaled(f.Base(), f.Exponent(n), f.Mantissa(n))
  }

  /** The distance from encoding `n` to encoding `n + 1`. */
  function Spacing(f: Format, n: nat): (r: nat)
    ensures r > 0
  {
    if f.Exponent(n) == 0 then 1 else Pow2(f.Exponent(n) - 1)
  }

  lemma OneMore(n: nat, p: nat)
    ensures (n + 1) * p == n * p + p
  {}

  lemma Doubled(n: nat, p: nat)
    ensures (n + n) * p == n * (2 * p)
  {
    assert (n + n) * p == n * p + n * p;
  }

  lemma ScaledStep(base: nat, e: nat, m: nat)
    requires m < base
    ensures var gap := if e == 0 then 1 else Pow2(e - 1);
            Scaled(base, e, m) + gap == if m + 1 < base then Scaled(base, e, m + 1) else Scaled(base, e + 1, 0)
  {
    if e > 0 {
      OneMore(base + m, Pow2(e - 1));
      if m + 1 == base {
        Doubled(base, Pow2(e - 1));
      }
    }
  }

  lemma FieldsStep(f: Format, n: nat)
    ensures f.Mantissa(n) < f.Base()
    ensures f.Mantissa(n) + 1 < f.Base() ==> f.Exponent(n + 1) == f.Exponent(n) && f.Mantissa(n + 1) == f.Mantissa(n) + 1
    ensures f.Mantissa(n) + 1 == f.Base() ==> f.Exponent(n + 1) == f.Exponent(n) + 1 && f.Mantissa(n + 1) == 0
  {}

  lemma MagnitudeStep(f: Format, n: nat)
    ensures Magnitude(f, n + 1) == Magnitude(f, n) + Spacing(f, n)
  {
    FieldsStep(f, n);
    ScaledStep(f.Base(), f.Exponent(n), f.Mantissa(n));
  }

  /** Larger encodings have larger values. */
  lemma {:induction false} MagnitudeIncreases(f: Format, a: nat, b: nat)
    requires a < b
    ensures Magnitude(f, a) < Magnitude(f, b)
    decreases b
  {
    MagnitudeStep(f, b - 1);
    if a < b - 1 {
      MagnitudeIncreases(f, a, b - 1);
    }
  }

  /** The value of a magnitude on the scale all formats share: units of the least binary32 subnormal. */
  function Value(f: Format, n: nat): nat {
    Magnitude(f, n) * f.Unit()
  }

  lemma ValueOfZero(f: Format)
    ensures Value(f, 0) == 0
  {
    assert Magnitude(f, 0) == 0;
    Nullify(f.Unit());
  }

  lemma Nullify(u: int)
    ensures 0 * u == 0
  {}

  lemma ValueStep(f: Format, n: nat)
    ensures f.Unit() > 0 && Value(f, n + 1) == Value(f, n) + Spacing(f, n) * f.Unit()
  {
    MagnitudeStep(f, n);
    Distribute(Magnitude(f, n), Spacing(f, n), f.Unit());
  }

  lemma ValueIncreases(f: Format, a: nat, b: nat)
    requires a < b
    ensures Value(f, a) < Value(f, b)
  {
    MagnitudeIncreases(f, a, b);
    MultiplyLess(Magnitude(f, a), Magnitude(f, b), f.Unit());
  }

  function Distance(a: int, b: int): nat {
    if a < b then b - a else a - b
  }

  /** `k` is not a better choice than `n` for `x`: it is no nearer, and as near only if `n` is even. */
  predicate NoBetter(f: Format, x: nat, n: nat, k: nat) {
    var chosen, other := Distance(x, Value(f, n)), Distance(x, Value(f, k));
    chosen <= other && (chosen == other && k != n ==> n % 2 == 0)
  }

  /** Round to nearest, ties to even, over the finite encodings and infinity. */
  ghost predicate NearestEven(f: Format, x: nat, n: nat) {
    n <= f.Infinity() && forall k: nat :: k <= f.Infinity() ==> NoBetter(f, x, n, k)
  }

  /** Comparing `x` with the midpoint of the two encodings around it is enough. */
  ghost predicate RoundsInBracket(f: Format, x: nat, base: nat, n: nat) {
    var low, high := Value(f, base), Value(f, base + 1);
    && base < f.Infinity()
    && low <= x < high
    && n == (if x - low > high - x || (x - low == high - x && base % 2 == 1) then base + 1 else base)
  }

  lemma BracketNoBetter(f: Format, x: nat, base: nat, n: nat, k: nat)
    requires RoundsInBracket(f, x, base, n)
    ensures NoBetter(f, x, n, k)
  {
    hide Value;
    if k < base {
      ValueIncreases(f, k, base);
    } else if k > base + 1 {
      ValueIncreases(f, base + 1, k);
    }
  }

  lemma BracketIsNearest(f: Format, x: nat, base: nat, n: nat)
    requires RoundsInBracket(f, x, base, n)
    ensures NearestEven(f, x, n)
  {
    forall k: nat | k <= f.Infinity()
      ensures NoBetter(f, x, n, k)
    {
      BracketNoBetter(f, x, base, n, k);
    }
  }

  /** There is one correctly rounded encoding. */
  lemma NearestIsUnique(f: Format, x: nat, n: nat, k: nat)
    requires NearestEven(f, x, n) && NearestEven(f, x, k)
    ensures n == k
  {
    if n < k {
      NearestIsNotAfter(f, x, n, k);
    } else if k < n {
      NearestIsNotAfter(f, x, k, n);
    }
  }

  lemma NearestIsNotAfter(f: Format, x: nat, n: nat, k: nat)
    requires NearestEven(f, x, n) && n < k <= f.Infinity()
    ensures !NearestEven(f, x, k)
  {
    assert NoBetter(f, x, n, k);
    if NoBetter(f, x, k, n) {
      MiddleIsBetter(f, x, n, k);
    }
  }

  /** Two equally near encodings are both even, and the encoding between them is nearer. */
  lemma MiddleIsBetter(f: Format, x: nat, n: nat, k: nat)
    requires n < k && NoBetter(f, x, n, k) && NoBetter(f, x, k, n)
    ensures n + 1 < k && !NoBetter(f, x, n, n + 1)
  {
    hide Value;
    assert n % 2 == 0 && k % 2 == 0;
    ValueIncreases(f, n, n + 1);
    ValueIncreases(f, n + 1, k);
  }

  /** Correct rounding preserves order. */
  lemma NearestIsMonotone(f: Format, x: nat, y: nat, n: nat, k: nat)
    requires x <= y && NearestEven(f, x, n) && NearestEven(f, y, k)
    ensures n <= k
  {
    if k < n {
      ValueIncreases(f, k, n);
      assert NoBetter(f, x, n, k) && NoBetter(f, y, k, n);
      assert x == y;
      NearestIsUnique(f, x, n, k);
    }
  }

  /** A representable value rounds to its own encoding. */
  lemma ExactIsNearest(f: Format, n: nat)
    requires n <= f.Infinity()
    ensures NearestEven(f, Value(f, n), n)
  {
    forall k: nat | k <= f.Infinity()
      ensures NoBetter(f, Value(f, n), n, k)
    {
      if k < n {
        ValueIncreases(f, k, n);
      } else if n < k {
        ValueIncreases(f, n, k);
      }
    }
  }

  /** Rounding `(quotient * step + rest) * u` to a multiple of `step * u` by comparing the discarded
      bits with half a step. */
  lemma DiscardedBitsRound(f: Format, x: nat, base: nat, n: nat, quotient: nat, rest: nat, half: nat, u: nat)
    requires base < f.Infinity() && u > 0 && rest < 2 * half && base % 2 == quotient % 2
    requires x == (quotient * (2 * half) + rest) * u
    requires Value(f, base) == quotient * ((2 * half) * u)
    requires Spacing(f, base) * f.Unit() == (2 * half) * u
    requires n == if rest > half || (rest == half && quotient % 2 == 1) then base + 1 else base
    ensures NearestEven(f, x, n)
  {
    ValueStep(f, base);
    Distribute(quotient * (2 * half), rest, u);
    Associate(quotient, 2 * half, u);
    Distribute(half, half, u);
    assert x == Value(f, base) + rest * u && Value(f, base + 1) == Value(f, base) + 2 * (half * u);
    if rest > half {
      MultiplyLess(half, rest, u);
    } else if rest < half {
      MultiplyLess(rest, half, u);
    }
    MultiplyLess(rest, 2 * half, u);
    BracketIsNearest(f, x, base, n);
  }

  /** Everything from the value of infinity's encoding upwards overflows. */
  lemma OverflowIsNearest(f: Format, x: nat)
    requires x >= Value(f, f.Infinity())
    ensures NearestEven(f, x, f.Infinity())
  {
    forall k: nat | k <= f.Infinity()
      ensures NoBetter(f, x, f.Infinity(), k)
    {
      if k < f.Infinity() {
        ValueIncreases(f, k, f.Infinity());
      }
    }
  }

  function Signed(negative: bool, magnitude: nat): int {
    if negative then -(magnitude as int) else magnitude
  }

  /** Rounding the magnitude and keeping the sign preserves the order of signed values. */
  lemma SignedRoundingIsMonotone(f: Format, below: bool, x: nat, n: nat, above: bool, y: nat, k: nat)
    requires NearestEven(f, x, n) && NearestEven(f, y, k)
    requires Signed(below, x) <= Signed(above, y)
    ensures Signed(below, Value(f, n)) <= Signed(above, Value(f, k))
  {
    ValueOfZero(f);
    ExactIsNearest(f, 0);
    if x <= y {
      NearestIsMonotone(f, x, y, n, k);
      if n < k { ValueIncreases(f, n, k); }
    }
    if y <= x {
      NearestIsMonotone(f, y, x, k, n);
      if k < n { ValueIncreases(f, k, n); }
    }
    if !below && above {
      NearestIsUnique(f, 0, 0, n);
      NearestIsUnique(f, 0, 0, k);
    }
  }
}
