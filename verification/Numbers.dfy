/** Sizes as the runtime counts them, and a few laws of multiplication. */
module Numbers {
  /** The largest value of the runtime's 64-bit sizes. */
  const MAXIMUM_SIZE: nat := 0xffff_ffff_ffff_ffff

  function Least(a: nat, b: nat): nat {
    if a < b then a else b
  }

  function Larger(a: nat, b: nat): nat {
    if a < b then b else a
  }

  /** The rows of one prefill input: zero, or anything at least as long, is the whole sequence. */
  function QueryRows(tokens: nat, chunk: nat): nat {
    if chunk == 0 || chunk > tokens then tokens else chunk
  }

  /** The largest size that exceeds neither the sequence nor the limit asked for. */
  lemma QueryRowsIsLargest(tokens: nat, chunk: nat, n: nat)
    ensures n <= QueryRows(tokens, chunk) <==> n <= tokens && (chunk == 0 || n <= chunk)
  {}

  lemma Associate(a: int, b: int, c: int)
    ensures (a * b) * c == a * (b * c)
  {}

  lemma Distribute(a: int, b: int, u: int)
    ensures (a + b) * u == a * u + b * u
  {}

  lemma {:induction false} MultiplyLess(a: int, b: int, u: int)
    requires a < b && u > 0
    ensures a * u + u <= b * u
    decreases b - a
  {
    assert b * u == (b - 1) * u + u;
    if a < b - 1 {
      MultiplyLess(a, b - 1, u);
    }
  }

  lemma QuotientBound(n: nat, d: nat, limit: nat)
    requires d > 0
    ensures n <= limit / d <==> n * d <= limit
  {
    var q := limit / d;
    assert limit == q * d + limit % d;
    if n < q {
      MultiplyLess(n, q, d);
    } else if n > q {
      MultiplyLess(q, n, d);
    }
  }
}
