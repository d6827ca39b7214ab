/** The CPU reference's loops for one decoder layer, against the row-by-row meaning of the layer. */
module Kernels {
  import opened Numbers
  import opened Results
  import opened Transformer
  import opened ChunkedPrefill
  import opened Matrices
  import opened KvCache

  // ---------------------------------------------------------------------------- head normalization

  /** Head `h` of width `width`. */
  function Part(x: Row, width: nat, h: nat): (r: Row)
    requires h * width + width <= |x|
    ensures |r| == width
  {
    x[h * width..h * width + width]
  }

  /** Head `h` of `y` is head `h` of `x`, normalized. */
  predicate HeadNormalized(ar: Arith, x: Row, y: Row, weights: Row, epsilon: Scalar, h: nat) {
    && |x| == |y| && h * |weights| + |weights| <= |y|
    && Part(y, |weights|, h) == NormHead(ar, x, h * |weights|, weights, epsilon)
  }

  /** Later elements do not matter to an earlier head. */
  lemma HeadKept(ar: Arith, x: Row, y: Row, z: Row, weights: Row, epsilon: Scalar, h: nat, n: nat)
    requires HeadNormalized(ar, x, y, weights, epsilon, h) && h < n && n * |weights| <= |y| == |z|
    requires y[..n * |weights|] == z[..n * |weights|]
    ensures HeadNormalized(ar, x, z, weights, epsilon, h)
  {
    HeadFits(h, n, |weights|);
    assert Part(y, |weights|, h) == Part(y[..n * |weights|], |weights|, h);
    assert Part(z, |weights|, h) == Part(z[..n * |weights|], |weights|, h);
  }

  lemma {:induction false} NormHeadsAre(ar: Arith, x: Row, heads: nat, weights: Row, epsilon: Scalar, y: Row)
    requires heads * |weights| <= |x| == |y| && forall h: nat :: h < heads ==> HeadNormalized(ar, x, y, weights, epsilon, h)
    ensures y[..heads * |weights|] == NormHeads(ar, x, heads, weights, epsilon)
  {
    hide NormHead;
    if heads > 0 {
      var w := |weights|;
      Distribute(heads - 1, 1, w);
      NormHeadsAre(ar, x, heads - 1, weights, epsilon, y);
      assert HeadNormalized(ar, x, y, weights, epsilon, heads - 1);
      assert y[..heads * w] == y[..(heads - 1) * w] + Part(y, w, heads - 1);
    }
  }

  lemma {:induction false} DotMoves(ar: Arith, a: Row, from: nat, b: Row, start: nat, x: Row, f: nat, y: Row, s: nat, count: nat)
    requires from + count <= |a| && start + count <= |b| && f + count <= |x| && s + count <= |y|
    requires a[from..from + count] == x[f..f + count] && b[start..start + count] == y[s..s + count]
    ensures Dot(ar, a, from, b, start, count) == Dot(ar, x, f, y, s, count)
  {
    if count > 0 {
      assert a[from..from + (count - 1)] == a[from..from + count][..count - 1];
      assert x[f..f + (count - 1)] == x[f..f + count][..count - 1];
      assert b[start..start + (count - 1)] == b[start..start + count][..count - 1];
      assert y[s..s + (count - 1)] == y[s..s + count][..count - 1];
      DotMoves(ar, a, from, b, start, x, f, y, s, count - 1);
      assert a[from + count - 1] == a[from..from + count][count - 1] == x[f + count - 1];
      assert b[start + count - 1] == b[start..start + count][count - 1] == y[s + count - 1];
    }
  }

  /** Normalizing a head only looks at the head. */
  lemma NormHeadMoves(ar: Arith, a: Row, from: nat, x: Row, f: nat, weights: Row, epsilon: Scalar)
    requires from + |weights| <= |a| && f + |weights| <= |x| && a[from..from + |weights|] == x[f..f + |weights|]
    ensures NormHead(ar, a, from, weights, epsilon) == NormHead(ar, x, f, weights, epsilon)
  {
    var n := |weights|;
    DotMoves(ar, a, from, a, from, x, f, x, f, n);
    assert InverseRms(ar, a, from, n, epsilon) == InverseRms(ar, x, f, n, epsilon);
    hide InverseRms;
    forall d | 0 <= d < n
      ensures NormHead(ar, a, from, weights, epsilon)[d] == NormHead(ar, x, f, weights, epsilon)[d]
    {
      SameEntry(a, from, x, f, n, d);
    }
  }

  lemma SameEntry(a: Row, from: nat, x: Row, f: nat, n: nat, d: nat)
    requires from + n <= |a| && f + n <= |x| && a[from..from + n] == x[f..f + n] && d < n
    ensures a[from + d] == x[f + d]
  {
    assert a[from..from + n][d] == a[from + d] && x[f..f + n][d] == x[f + d];
  }

  /** One head, in place. */
  method NormalizeHead(ar: Arith, values: array<Scalar>, offset: nat, weights: Row, epsilon: Scalar)
    requires offset + |weights| <= values.Length
    modifies values
    ensures values[..offset] == old(values[..offset]) && values[offset + |weights|..] == old(values[offset + |weights|..])
    ensures values[offset..offset + |weights|] == NormHead(ar, old(values[..]), offset, weights, epsilon)
  {
    var width := |weights|;
    ghost var x := values[..];
    var sum := ZERO;
    for dimension := 0 to width
      invariant sum == Dot(ar, x, offset, x, offset, dimension) && values[..] == x
    {
      var value := values[offset + dimension];
      sum := ar.add(sum, ar.mul(value, value));
    }
    var inverse := ar.div(ONE, ar.sqrt(ar.add(ar.div(sum, ar.fromNat(width)), epsilon)));
    assert inverse == InverseRms(ar, x, offset, width, epsilon);
    ScaleHead(ar, values, offset, weights, inverse);
    assert values[offset..offset + width] == NormHead(ar, x, offset, weights, epsilon);
  }

  method ScaleHead(ar: Arith, values: array<Scalar>, offset: nat, weights: Row, inverse: Scalar)
    requires offset + |weights| <= values.Length
    modifies values
    ensures values[..offset] == old(values[..offset]) && values[offset + |weights|..] == old(values[offset + |weights|..])
    ensures forall d :: 0 <= d < |weights| ==> values[offset + d] == ar.mul(old(values[offset + d]), ar.mul(inverse, weights[d]))
  {
    for dimension := 0 to |weights|
      invariant forall k :: 0 <= k < offset || offset + dimension <= k < values.Length ==> values[k] == old(values[k])
      invariant forall d :: 0 <= d < dimension ==> values[offset + d] == ar.mul(old(values[offset + d]), ar.mul(inverse, weights[d]))
    {
      values[offset + dimension] := ar.mul(values[offset + dimension], ar.mul(inverse, weights[dimension]));
    }
  }

  /** The flat loop over all heads of all rows. */
  method NormalizeHeadsFlat(ar: Arith, values: array<Scalar>, weights: Row, epsilon: Scalar, ghost total: nat)
    requires |weights| > 0 && values.Length == total * |weights|
    modifies values
    ensures forall h: nat :: h < total ==> HeadNormalized(ar, old(values[..]), values[..], weights, epsilon, h)
  {
    hide HeadNormalized;
    var width := |weights|;
    var offset: nat := 0;
    ghost var x, n := values[..], 0;
    while offset < values.Length
      invariant n <= total && offset == n * width <= values.Length
      invariant forall h: nat :: h < n ==> HeadNormalized(ar, x, values[..], weights, epsilon, h)
      invariant values[offset..] == x[offset..]
      decreases values.Length - offset
    {
      NextHead(n, total, width);
      ghost var before := values[..];
      NormalizeHead(ar, values, offset, weights, epsilon);
      HeadDone(ar, x, before, values[..], weights, epsilon, n);
      forall h: nat | h < n
        ensures HeadNormalized(ar, x, values[..], weights, epsilon, h)
      {
        HeadKept(ar, x, before, values[..], weights, epsilon, h, n);
      }
      TailKept(x, before, values[..], offset, width);
      offset := offset + width;
      n := n + 1;
    }
    WholeHeads(n, total, width);
  }

  lemma TailKept(x: Row, before: Row, after: Row, offset: nat, width: nat)
    requires |x| == |before| == |after| && offset + width <= |x|
    requires before[offset..] == x[offset..] && after[offset + width..] == before[offset + width..]
    ensures after[offset + width..] == x[offset + width..]
  {
    assert before[offset + width..] == before[offset..][width..] && x[offset + width..] == x[offset..][width..];
  }

  lemma HeadDone(ar: Arith, x: Row, before: Row, after: Row, weights: Row, epsilon: Scalar, n: nat)
    requires |x| == |before| == |after| && n * |weights| + |weights| <= |x| && before[n * |weights|..] == x[n * |weights|..]
    requires after[n * |weights|..n * |weights| + |weights|] == NormHead(ar, before, n * |weights|, weights, epsilon)
    ensures HeadNormalized(ar, x, after, weights, epsilon, n)
  {
    var from, w := n * |weights|, |weights|;
    assert before[from..from + w] == before[from..][..w] && x[from..from + w] == x[from..][..w];
    NormHeadMoves(ar, before, from, x, from, weights, epsilon);
  }

  lemma NextHead(n: nat, total: nat, width: nat)
    requires n <= total && n * width < total * width
    ensures n < total && n * width + width <= total * width && (n + 1) * width == n * width + width
  {
    HeadFits(n, total, width);
  }

  lemma WholeHeads(n: nat, total: nat, width: nat)
    requires n <= total && n * width >= total * width && width > 0
    ensures n == total
  {
    if n < total {
      HeadFits(n, total, width);
    }
  }

  function NormHeadRows(ar: Arith, x: seq<Row>, heads: nat, weights: Row, epsilon: Scalar): (y: seq<Row>)
    requires Wide(x, heads * |weights|)
    ensures |y| == |x| && Wide(y, heads * |weights|)
  {
    seq(|x|, r requires 0 <= r < |x| => NormHeads(ar, x[r], heads, weights, epsilon))
  }

  /** A learned vector shared by all heads, each head normalized by itself, in place. */
  method NormalizeHeads(ar: Arith, m: Matrix, heads: nat, weights: Row, epsilon: Scalar)
    requires m.Valid() && m.columns == heads * |weights| && |weights| > 0
    modifies m.values
    ensures m.View() == NormHeadRows(ar, old(m.View()), heads, weights, epsilon)
  {
    hide HeadNormalized;
    ghost var x, flat, w := m.View(), m.values[..], |weights|;
    Associate(m.rows, heads, w);
    forall r | 0 <= r < m.rows
      ensures IsRow(flat, m.rows, m.columns, r, x[r])
    {
      RowOfFlat(m, r);
    }
    NormalizeHeadsFlat(ar, m.values, weights, epsilon, m.rows * heads);
    forall r | 0 <= r < m.rows
      ensures m.View()[r] == NormHeads(ar, x[r], heads, weights, epsilon)
    {
      RowOfFlat(m, r);
      RowIsNormalized(ar, flat, m.values[..], m.rows, heads, weights, epsilon, r, x[r], m.View()[r]);
    }
  }

  /** Row `r` of a flat array of rows. */
  predicate IsRow(flat: Row, rows: nat, columns: nat, r: nat, x: Row) {
    && Index(columns, r, 0) + columns <= |flat| && r < rows
    && x == flat[Index(columns, r, 0)..Index(columns, r, 0) + columns]
  }

  lemma RowIsNormalized(ar: Arith, flat: Row, after: Row, rows: nat, heads: nat, weights: Row, epsilon: Scalar, r: nat, x: Row, y: Row)
    requires IsRow(flat, rows, heads * |weights|, r, x) && IsRow(after, rows, heads * |weights|, r, y)
    requires forall h: nat :: h < rows * heads ==> HeadNormalized(ar, flat, after, weights, epsilon, h)
    ensures y == NormHeads(ar, x, heads, weights, epsilon)
  {
    hide HeadNormalized;
    var w := |weights|;
    forall h: nat | h < heads
      ensures HeadNormalized(ar, x, y, weights, epsilon, h)
    {
      FlatHead(r, rows, h, heads, w);
      assert HeadNormalized(ar, flat, after, weights, epsilon, r * heads + h);
      RowHead(ar, flat, after, rows, heads, weights, epsilon, r, x, y, h);
    }
    NormHeadsAre(ar, x, heads, weights, epsilon, y);
    assert y[..heads * w] == y;
  }

  lemma RowHead(ar: Arith, flat: Row, after: Row, rows: nat, heads: nat, weights: Row, epsilon: Scalar, r: nat, x: Row, y: Row, h: nat)
    requires IsRow(flat, rows, heads * |weights|, r, x) && IsRow(after, rows, heads * |weights|, r, y) && h < heads
    requires HeadNormalized(ar, flat, after, weights, epsilon, r * heads + h)
    ensures HeadNormalized(ar, x, y, weights, epsilon, h)
  {
    hide Index, HeadNormalized;
    var w, base := |weights|, Index(heads * |weights|, r, 0);
    FlatHead(r, rows, h, heads, w);
    HeadFits(h, heads, w);
    SameLength(ar, flat, after, weights, epsilon, r * heads + h);
    SlicedHead(ar, flat, after, base, heads * w, weights, epsilon, r * heads + h, h);
  }

  lemma SameLength(ar: Arith, x: Row, y: Row, weights: Row, epsilon: Scalar, h: nat)
    requires HeadNormalized(ar, x, y, weights, epsilon, h)
    ensures |x| == |y|
  {}

  lemma FlatHead(r: nat, rows: nat, h: nat, heads: nat, w: nat)
    requires r < rows && h < heads
    ensures r * heads + h < rows * heads && (r * heads + h) * w == Index(heads * w, r, 0) + h * w
  {
    HeadFits(r, rows, heads);
    Distribute(r * heads, h, w);
    Associate(r, heads, w);
  }

  lemma SliceOfSlice(s: Row, base: nat, width: nat, from: nat, w: nat)
    requires base + width <= |s| && from + w <= width
    ensures s[base..base + width][from..from + w] == s[base + from..base + from + w]
  {
    var inner, outer := s[base..base + width][from..from + w], s[base + from..base + from + w];
    assert |inner| == |outer|;
    assert forall i :: 0 <= i < w ==> inner[i] == outer[i];
  }

  lemma SlicedHead(ar: Arith, flat: Row, after: Row, base: nat, width: nat, weights: Row, epsilon: Scalar, k: nat, h: nat)
    requires base + width <= |flat| == |after| && h * |weights| + |weights| <= width && k * |weights| == base + h * |weights|
    requires HeadNormalized(ar, flat, after, weights, epsilon, k)
    ensures HeadNormalized(ar, flat[base..base + width], after[base..base + width], weights, epsilon, h)
  {
    hide NormHead;
    var w, from, x, y := |weights|, h * |weights|, flat[base..base + width], after[base..base + width];
    SliceOfSlice(flat, base, width, from, w);
    SliceOfSlice(after, base, width, from, w);
    NormHeadMoves(ar, flat, base + from, x, from, weights, epsilon);
  }
}
