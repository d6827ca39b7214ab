/** Rotary position embedding in place, against its meaning row by row. */
module Rotation {
  import opened Numbers
  import opened Results
  import opened Transformer
  import opened ChunkedPrefill
  import opened Matrices
  import opened KvCache

  /** Entry `e` of a head and its partner in the other half are turned, or untouched. */
  predicate PairIs(ar: Arith, x: Row, y: Row, offset: nat, dimension: nat, position: nat, theta: Scalar, e: nat, done: nat)
    requires |y| == |x| && offset + dimension <= |x| && dimension % 2 == 0
  {
    e < dimension / 2 ==>
      if e < done
      then y[offset + e] == RotateAt(ar, x, offset, dimension, position, theta, e)
           && y[offset + dimension / 2 + e] == RotateAt(ar, x, offset, dimension, position, theta, dimension / 2 + e)
      else y[offset + e] == x[offset + e] && y[offset + dimension / 2 + e] == x[offset + dimension / 2 + e]
  }

  /** A partly rotated head: the pairs before `done` are turned. */
  predicate Turning(ar: Arith, x: Row, y: Row, offset: nat, dimension: nat, position: nat, theta: Scalar, done: nat) {
    && |y| == |x| && offset + dimension <= |x| && dimension % 2 == 0 && done <= dimension / 2
    && (forall k :: 0 <= k < |x| && (k < offset || k >= offset + dimension) ==> y[k] == x[k])
    && forall e: nat :: e < dimension / 2 ==> PairIs(ar, x, y, offset, dimension, position, theta, e, done)
  }

  lemma TurnsOne(ar: Arith, x: Row, y: Row, z: Row, offset: nat, dimension: nat, position: nat, theta: Scalar, d: nat)
    requires Turning(ar, x, y, offset, dimension, position, theta, d) && d < dimension / 2 && |z| == |y|
    requires z[offset + d] == RotateAt(ar, x, offset, dimension, position, theta, d)
    requires z[offset + dimension / 2 + d] == RotateAt(ar, x, offset, dimension, position, theta, dimension / 2 + d)
    requires forall k :: 0 <= k < |y| && k != offset + d && k != offset + dimension / 2 + d ==> z[k] == y[k]
    ensures Turning(ar, x, z, offset, dimension, position, theta, d + 1)
  {
    hide RotateAt;
    var next := d + 1;
    forall e: nat | e < dimension / 2
      ensures PairIs(ar, x, z, offset, dimension, position, theta, e, next)
    {
      assert PairIs(ar, x, y, offset, dimension, position, theta, e, d);
    }
  }

  lemma Turned(ar: Arith, x: Row, y: Row, offset: nat, dimension: nat, position: nat, theta: Scalar)
    requires Turning(ar, x, y, offset, dimension, position, theta, dimension / 2)
    ensures y[..offset] == x[..offset] && y[offset + dimension..] == x[offset + dimension..]
    ensures y[offset..offset + dimension] == RotateHead(ar, x, offset, dimension, position, theta)
  {
    hide RotateAt;
    var half := dimension / 2;
    forall d | 0 <= d < dimension
      ensures y[offset + d] == RotateAt(ar, x, offset, dimension, position, theta, d)
    {
      var e := if d < half then d else d - half;
      assert PairIs(ar, x, y, offset, dimension, position, theta, e, half);
    }
  }

  /** One head of one row, in place. */
  method RotateHeadInto(ar: Arith, m: Matrix, token: nat, offset: nat, dimension: nat, position: nat, theta: Scalar)
    requires m.Valid() && token < m.rows && dimension % 2 == 0 && offset + dimension <= m.columns
    modifies m.values
    ensures forall k :: 0 <= k < m.rows && k != token ==> m.View()[k] == old(m.View())[k]
    ensures var x, y := old(m.View())[token], m.View()[token];
            && y[..offset] == x[..offset] && y[offset + dimension..] == x[offset + dimension..]
            && y[offset..offset + dimension] == RotateHead(ar, x, offset, dimension, position, theta)
  {
    hide Turning;
    var half := dimension / 2;
    ghost var before := m.View();
    ghost var x := before[token];
    TurningStarts(ar, x, offset, dimension, position, theta);
    for d := 0 to half
      invariant Turning(ar, x, m.View()[token], offset, dimension, position, theta, d)
      invariant forall k :: 0 <= k < m.rows && k != token ==> m.View()[k] == before[k]
    {
      TurnPair(ar, m, token, offset, dimension, position, theta, d, x);
    }
    Turned(ar, x, m.View()[token], offset, dimension, position, theta);
  }

  /** Entry `d` and its partner, in place. */
  method TurnPair(ar: Arith, m: Matrix, token: nat, offset: nat, dimension: nat, position: nat, theta: Scalar, d: nat, ghost x: Row)
    requires m.Valid() && token < m.rows && d < dimension / 2
    requires Turning(ar, x, m.View()[token], offset, dimension, position, theta, d)
    modifies m.values
    ensures forall k :: 0 <= k < m.rows && k != token ==> m.View()[k] == old(m.View())[k]
    ensures Turning(ar, x, m.View()[token], offset, dimension, position, theta, d + 1)
  {
    hide Turning, RotateAt, Written, Angle, Matrix.View;
    var half := dimension / 2;
    ghost var v := m.View();
    ghost var y := v[token];
    NotYetTurned(ar, x, y, offset, dimension, position, theta, d);
    m.Seen(token, offset + d);
    m.Seen(token, offset + half + d);
    var a, b := Turn(ar, m.Get(token, offset + d), m.Get(token, offset + half + d), dimension, position, theta, d);
    TurnedPair(ar, x, offset, dimension, position, theta, d);
    SetTwo(m, token, offset + d, a, offset + half + d, b);
    TurnsOne(ar, x, y, m.View()[token], offset, dimension, position, theta, d);
  }

  /** Two coordinates, turned. */
  method Turn(ar: Arith, first: Scalar, second: Scalar, dimension: nat, position: nat, theta: Scalar, d: nat) returns (a: Scalar, b: Scalar)
    ensures var angle := Angle(ar, dimension, d, position, theta);
            && a == ar.sub(ar.mul(first, ar.cos(angle)), ar.mul(second, ar.sin(angle)))
            && b == ar.add(ar.mul(second, ar.cos(angle)), ar.mul(first, ar.sin(angle)))
  {
    var exponent := ar.div(ar.fromNat(2 * d), ar.fromNat(dimension));
    var angle := ar.div(ar.fromNat(position), ar.pow(theta, exponent));
    var cosine, sine := ar.cos(angle), ar.sin(angle);
    a, b := ar.sub(ar.mul(first, cosine), ar.mul(second, sine)), ar.add(ar.mul(second, cosine), ar.mul(first, sine));
  }

  method SetTwo(m: Matrix, token: nat, c: nat, a: Scalar, d: nat, b: Scalar)
    requires m.Valid() && token < m.rows && c < d < m.columns
    modifies m.values
    ensures forall k :: 0 <= k < m.rows && k != token ==> m.View()[k] == old(m.View())[k]
    ensures m.View()[token][c] == a && m.View()[token][d] == b
    ensures forall k :: 0 <= k < m.columns && k != c && k != d ==> m.View()[token][k] == old(m.View())[token][k]
  {
    hide Written;
    ghost var v := m.View();
    m.Set(token, c, a);
    m.Set(token, d, b);
    WrittenTwice(v, token, c, a, d, b);
  }

  lemma WrittenTwice(v: seq<Row>, r: nat, c: nat, a: Scalar, d: nat, b: Scalar)
    requires r < |v| && c < d < |v[r]|
    ensures var z := Written(Written(v, r, c, a), r, d, b)[r];
            z[c] == a && z[d] == b && forall k :: 0 <= k < |z| && k != c && k != d ==> z[k] == v[r][k]
  {}

  lemma TurnedPair(ar: Arith, x: Row, offset: nat, dimension: nat, position: nat, theta: Scalar, d: nat)
    requires offset + dimension <= |x| && dimension % 2 == 0 && d < dimension / 2
    ensures var half, angle := dimension / 2, Angle(ar, dimension, d, position, theta);
            var first, second := x[offset + d], x[offset + half + d];
            && RotateAt(ar, x, offset, dimension, position, theta, d) == ar.sub(ar.mul(first, ar.cos(angle)), ar.mul(second, ar.sin(angle)))
            && RotateAt(ar, x, offset, dimension, position, theta, half + d)
               == ar.add(ar.mul(second, ar.cos(angle)), ar.mul(first, ar.sin(angle)))
  {}

  lemma TurningStarts(ar: Arith, x: Row, offset: nat, dimension: nat, position: nat, theta: Scalar)
    requires dimension % 2 == 0 && offset + dimension <= |x|
    ensures Turning(ar, x, x, offset, dimension, position, theta, 0)
  {}

  lemma NotYetTurned(ar: Arith, x: Row, y: Row, offset: nat, dimension: nat, position: nat, theta: Scalar, d: nat)
    requires Turning(ar, x, y, offset, dimension, position, theta, d) && d < dimension / 2
    ensures |y| == |x| && offset + dimension <= |x| && dimension % 2 == 0
    ensures y[offset + d] == x[offset + d] && y[offset + dimension / 2 + d] == x[offset + dimension / 2 + d]
  {
    hide RotateAt;
    assert PairIs(ar, x, y, offset, dimension, position, theta, d, d);
  }

  lemma RotateNext(ar: Arith, x: Row, before: Row, after: Row, head: nat, dimension: nat, position: nat, theta: Scalar)
    requires dimension % 2 == 0 && (head + 1) * dimension == head * dimension + dimension <= |x| == |before| == |after|
    requires before[..head * dimension] == RotateHeads(ar, x, head, dimension, position, theta)
    requires before[head * dimension..] == x[head * dimension..]
    requires after[..head * dimension] == before[..head * dimension]
    requires after[head * dimension + dimension..] == before[head * dimension + dimension..]
    requires after[head * dimension..head * dimension + dimension] == RotateHead(ar, before, head * dimension, dimension, position, theta)
    ensures after[..(head + 1) * dimension] == RotateHeads(ar, x, head + 1, dimension, position, theta)
    ensures after[(head + 1) * dimension..] == x[(head + 1) * dimension..]
  {
    hide RotateAt;
    var o := head * dimension;
    forall d | 0 <= d < dimension
      ensures RotateAt(ar, before, o, dimension, position, theta, d) == RotateAt(ar, x, o, dimension, position, theta, d)
    {
      RotateMoves(ar, before, x, o, dimension, position, theta, d);
    }
    assert RotateHead(ar, before, o, dimension, position, theta) == RotateHead(ar, x, o, dimension, position, theta);
    assert after[..o + dimension] == after[..o] + after[o..o + dimension];
    assert after[o + dimension..] == before[o..][dimension..];
    assert x[o + dimension..] == x[o..][dimension..];
  }

  /** Rotating a head only looks at the head. */
  lemma RotateMoves(ar: Arith, a: Row, b: Row, offset: nat, dimension: nat, position: nat, theta: Scalar, d: nat)
    requires |a| == |b| && offset + dimension <= |a| && dimension % 2 == 0 && d < dimension && a[offset..] == b[offset..]
    ensures RotateAt(ar, a, offset, dimension, position, theta, d) == RotateAt(ar, b, offset, dimension, position, theta, d)
  {
    var half := dimension / 2;
    var e := if d < half then d else d - half;
    assert a[offset + e] == a[offset..][e] == b[offset + e];
    assert a[offset + half + e] == a[offset..][half + e] == b[offset + half + e];
  }

  method RotateRow(ar: Arith, m: Matrix, token: nat, heads: nat, dimension: nat, position: nat, theta: Scalar)
    requires m.Valid() && token < m.rows && dimension % 2 == 0 && heads * dimension == m.columns
    modifies m.values
    ensures OnlyRow(old(m.View()), m.View(), token, RotateHeads(ar, old(m.View())[token], heads, dimension, position, theta))
  {
    ghost var before := m.View();
    ghost var x := before[token];
    for head := 0 to heads
      invariant head * dimension <= m.columns
      invariant forall k :: 0 <= k < m.rows && k != token ==> m.View()[k] == before[k]
      invariant m.View()[token][..head * dimension] == RotateHeads(ar, x, head, dimension, position, theta)
      invariant m.View()[token][head * dimension..] == x[head * dimension..]
    {
      HeadFits(head, heads, dimension);
      Distribute(head, 1, dimension);
      ghost var y := m.View()[token];
      RotateHeadInto(ar, m, token, head * dimension, dimension, position, theta);
      RotateNext(ar, x, y, m.View()[token], head, dimension, position, theta);
    }
    assert m.View()[token][..heads * dimension] == m.View()[token];
  }

  function RotateRows(ar: Arith, x: seq<Row>, heads: nat, dimension: nat, first: nat, theta: Scalar): (y: seq<Row>)
    requires Wide(x, heads * dimension) && dimension % 2 == 0
    ensures |y| == |x| && Wide(y, heads * dimension)
  {
    seq(|x|, t requires 0 <= t < |x| => RotateHeads(ar, x[t], heads, dimension, first + t, theta))
  }

  /** Every row, in place. */
  method RotateEach(ar: Arith, m: Matrix, heads: nat, dimension: nat, first: nat, theta: Scalar)
    requires m.Valid() && dimension % 2 == 0 && heads * dimension == m.columns
    modifies m.values
    ensures m.View() == RotateRows(ar, old(m.View()), heads, dimension, first, theta)
  {
    hide RotateHeads, Matrix.View;
    ghost var x := m.View();
    ghost var turned := RotateRows(ar, x, heads, dimension, first, theta);
    for token := 0 to m.rows
      invariant forall k :: 0 <= k < token ==> m.View()[k] == turned[k]
      invariant forall k :: token <= k < m.rows ==> m.View()[k] == x[k]
    {
      RotateRow(ar, m, token, heads, dimension, first + token, theta);
      assert m.View()[token] == turned[token];
    }
    assert m.View() == turned;
  }

  /** Entry `d` of the head at `from` and the entry half a head further on are the coordinates that are turned, by an
      angle that grows with the position and shrinks with `d`. */
  predicate PairTurned(ar: Arith, x: Row, y: Row, from: nat, dimension: nat, position: nat, theta: Scalar, d: nat)
    requires |x| == |y| && from + dimension <= |x| && d < dimension / 2
  {
    var low, high := from + d, from + dimension / 2 + d;
    var angle := ar.div(ar.fromNat(position), ar.pow(theta, ar.div(ar.fromNat(2 * d), ar.fromNat(dimension))));
    && y[low] == ar.sub(ar.mul(x[low], ar.cos(angle)), ar.mul(x[high], ar.sin(angle)))
    && y[high] == ar.add(ar.mul(x[high], ar.cos(angle)), ar.mul(x[low], ar.sin(angle)))
  }

  /** Every pair of every head of the row is turned. */
  ghost predicate HeadsTurned(ar: Arith, x: Row, y: Row, heads: nat, dimension: nat, position: nat, theta: Scalar) {
    && |x| == |y| == heads * dimension
    && forall h: nat :: h < heads ==> HeadTurned(ar, x, y, h, dimension, position, theta)
  }

  predicate HeadTurned(ar: Arith, x: Row, y: Row, h: nat, dimension: nat, position: nat, theta: Scalar)
    requires |x| == |y|
  {
    && h * dimension + dimension <= |x|
    && forall d: nat :: d < dimension / 2 ==> PairTurned(ar, x, y, h * dimension, dimension, position, theta, d)
  }

  lemma {:induction false} HeadIsTurned(ar: Arith, x: Row, heads: nat, dimension: nat, position: nat, theta: Scalar, h: nat)
    requires heads * dimension <= |x| && dimension % 2 == 0 && h < heads
    ensures h * dimension + dimension <= heads * dimension
    ensures RotateHeads(ar, x, heads, dimension, position, theta)[h * dimension..h * dimension + dimension]
            == RotateHead(ar, x, h * dimension, dimension, position, theta)
  {
    hide RotateHead;
    HeadFits(h, heads, dimension);
    Distribute(heads - 1, 1, dimension);
    if h < heads - 1 {
      HeadIsTurned(ar, x, heads - 1, dimension, position, theta, h);
    }
  }

  lemma TurnsHeads(ar: Arith, x: Row, heads: nat, dimension: nat, position: nat, theta: Scalar)
    requires heads * dimension == |x| && dimension % 2 == 0
    ensures HeadsTurned(ar, x, RotateHeads(ar, x, heads, dimension, position, theta), heads, dimension, position, theta)
  {
    hide RotateHeads, RotateHead, HeadTurned;
    var y := RotateHeads(ar, x, heads, dimension, position, theta);
    forall h: nat | h < heads
      ensures HeadTurned(ar, x, y, h, dimension, position, theta)
    {
      HeadIsTurned(ar, x, heads, dimension, position, theta, h);
      TurnsHead(ar, x, y, h, dimension, position, theta);
    }
  }

  lemma TurnsHead(ar: Arith, x: Row, y: Row, h: nat, dimension: nat, position: nat, theta: Scalar)
    requires |x| == |y| && h * dimension + dimension <= |x| && dimension % 2 == 0
    requires y[h * dimension..h * dimension + dimension] == RotateHead(ar, x, h * dimension, dimension, position, theta)
    ensures HeadTurned(ar, x, y, h, dimension, position, theta)
  {
    hide RotateHead, PairTurned;
    forall d: nat | d < dimension / 2
      ensures PairTurned(ar, x, y, h * dimension, dimension, position, theta, d)
    {
      EntriesTurned(ar, x, y, h * dimension, dimension, position, theta, d);
    }
  }

  lemma EntriesTurned(ar: Arith, x: Row, y: Row, from: nat, dimension: nat, position: nat, theta: Scalar, d: nat)
    requires |x| == |y| && from + dimension <= |x| && dimension % 2 == 0 && d < dimension / 2
    requires y[from..from + dimension] == RotateHead(ar, x, from, dimension, position, theta)
    ensures PairTurned(ar, x, y, from, dimension, position, theta, d)
  {
    var low, high := d, dimension / 2 + d;
    assert y[from + low] == y[from..from + dimension][low] && y[from + high] == y[from..from + dimension][high];
  }

  /** Row `t` is turned as position `first + t`. */
  method ApplyRope(ar: Arith, m: Matrix, heads: nat, dimension: nat, first: nat, theta: Scalar) returns (error: Option<Error>)
    requires m.Valid()
    modifies m.values
    ensures error.None? <==> heads > 0 && dimension > 0 && dimension % 2 == 0 && heads * dimension == m.columns && ar.positive(theta)
    ensures error.Some? ==> error == Some(Internal) && m.View() == old(m.View())
    ensures error.None? ==> m.View() == RotateRows(ar, old(m.View()), heads, dimension, first, theta)
    ensures error.None? ==>
              forall t :: 0 <= t < m.rows ==> HeadsTurned(ar, old(m.View())[t], m.View()[t], heads, dimension, first + t, theta)
  {
    hide Matrix.View, HeadsTurned, RotateHeads;
    if heads == 0 || dimension == 0 || dimension % 2 != 0 || heads * dimension != m.columns || !ar.positive(theta) {
      return Some(Internal);
    }
    ghost var x := m.View();
    RotateEach(ar, m, heads, dimension, first, theta);
    forall t | 0 <= t < m.rows
      ensures HeadsTurned(ar, x[t], m.View()[t], heads, dimension, first + t, theta)
    {
      TurnsHeads(ar, x[t], heads, dimension, first + t, theta);
    }
    error := None;
  }
}
