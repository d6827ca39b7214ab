/** What one decoder layer computes, row by row, over scalars whose arithmetic is a parameter. */
module Transformer {
  import opened Numbers
  import Half

  /** A binary32 encoding. Nothing is assumed of the operations on it. */
  type Scalar = Half.Bits32
  type Row = seq<Scalar>

  datatype Arith = Arith(
    add: (Scalar, Scalar) -> Scalar,
    sub: (Scalar, Scalar) -> Scalar,
    mul: (Scalar, Scalar) -> Scalar,
    div: (Scalar, Scalar) -> Scalar,
    less: (Scalar, Scalar) -> bool,
    neg: Scalar -> Scalar,
    exp: Scalar -> Scalar,
    sqrt: Scalar -> Scalar,
    pow: (Scalar, Scalar) -> Scalar,
    cos: Scalar -> Scalar,
    sin: Scalar -> Scalar,
    fromNat: nat -> Scalar,
    positive: Scalar -> bool)

  const ZERO: Scalar := 0
  const ONE: Scalar := 0x3f80_0000
  const NEGATIVE_INFINITY: Scalar := 0xff80_0000

  datatype Config = Config(
    hidden: nat, intermediate: nat, heads: nat, keyValueHeads: nat, headDimension: nat,
    maximumLength: nat, epsilon: Scalar, theta: Scalar, queryKeyNorm: bool)

  datatype Weights = Weights(
    inputNorm: Row, query: seq<Row>, key: seq<Row>, value: seq<Row>, attentionOutput: seq<Row>,
    postAttentionNorm: Row, gate: seq<Row>, up: seq<Row>, down: seq<Row>,
    queryNorm: Row, keyNorm: Row)

  predicate ValidConfig(ar: Arith, c: Config) {
    && c.hidden > 0 && c.intermediate > 0 && c.heads > 0 && c.keyValueHeads > 0
    && c.headDimension > 0 && c.maximumLength > 0
    && ar.positive(c.epsilon) && ar.positive(c.theta)
    && c.heads % c.keyValueHeads == 0 && c.headDimension % 2 == 0
    && c.heads * c.headDimension <= MAXIMUM_SIZE
  }

  predicate Shaped(m: seq<Row>, rows: nat, columns: nat) {
    |m| == rows && forall r :: 0 <= r < rows ==> |m[r]| == columns
  }

  predicate ValidWeights(w: Weights, c: Config) {
    var attentionWidth, keyValueWidth := c.heads * c.headDimension, c.keyValueHeads * c.headDimension;
    && (if c.queryKeyNorm then |w.queryNorm| == c.headDimension == |w.keyNorm| else w.queryNorm == [] == w.keyNorm)
    && |w.inputNorm| == c.hidden && |w.postAttentionNorm| == c.hidden
    && Shaped(w.query, attentionWidth, c.hidden)
    && Shaped(w.key, keyValueWidth, c.hidden)
    && Shaped(w.value, keyValueWidth, c.hidden)
    && Shaped(w.attentionOutput, c.hidden, attentionWidth)
    && Shaped(w.gate, c.intermediate, c.hidden)
    && Shaped(w.up, c.intermediate, c.hidden)
    && Shaped(w.down, c.hidden, c.intermediate)
  }

  // ---------------------------------------------------------------------------- row operations

  /** The accumulation loop of a matrix product: left to right from zero. */
  function Dot(ar: Arith, a: Row, from: nat, b: Row, start: nat, count: nat): Scalar
    requires from + count <= |a| && start + count <= |b|
  {
    if count == 0 then ZERO
    else ar.add(Dot(ar, a, from, b, start, count - 1), ar.mul(a[from + count - 1], b[start + count - 1]))
  }

  function LinearRow(ar: Arith, x: Row, weights: seq<Row>): (y: Row)
    requires forall r :: 0 <= r < |weights| ==> |weights[r]| == |x|
    ensures |y| == |weights|
  {
    seq<Scalar>(|weights|, o requires 0 <= o < |weights| => Dot(ar, x, 0, weights[o], 0, |x|))
  }

  function InverseRms(ar: Arith, x: Row, from: nat, count: nat, epsilon: Scalar): Scalar
    requires from + count <= |x|
  {
    ar.div(ONE, ar.sqrt(ar.add(ar.div(Dot(ar, x, from, x, from, count), ar.fromNat(count)), epsilon)))
  }

  function NormRow(ar: Arith, x: Row, weights: Row, epsilon: Scalar): (y: Row)
    requires |x| == |weights|
    ensures |y| == |x|
  {
    var inverse := InverseRms(ar, x, 0, |x|, epsilon);
    seq<Scalar>(|x|, c requires 0 <= c < |x| => ar.mul(ar.mul(x[c], inverse), weights[c]))
  }

  function NormHead(ar: Arith, x: Row, from: nat, weights: Row, epsilon: Scalar): (y: Row)
    requires from + |weights| <= |x|
    ensures |y| == |weights|
  {
    var inverse := InverseRms(ar, x, from, |weights|, epsilon);
    seq<Scalar>(|weights|, d requires 0 <= d < |weights| => ar.mul(x[from + d], ar.mul(inverse, weights[d])))
  }

  /** The first `heads` heads of `x`, each normalized by itself. */
  function NormHeads(ar: Arith, x: Row, heads: nat, weights: Row, epsilon: Scalar): (y: Row)
    requires heads * |weights| <= |x|
    ensures |y| == heads * |weights|
  {
    if heads == 0 then []
    else
      Distribute(heads - 1, 1, |weights|);
      NormHeads(ar, x, heads - 1, weights, epsilon) + NormHead(ar, x, (heads - 1) * |weights|, weights, epsilon)
  }

  function Angle(ar: Arith, dimension: nat, d: nat, position: nat, theta: Scalar): Scalar {
    ar.div(ar.fromNat(position), ar.pow(theta, ar.div(ar.fromNat(2 * d), ar.fromNat(dimension))))
  }

  /** Entry `d` of a rotated head: the two halves of the head are the coordinates being turned. */
  function RotateAt(ar: Arith, x: Row, from: nat, dimension: nat, position: nat, theta: Scalar, d: nat): Scalar
    requires from + dimension <= |x| && dimension % 2 == 0 && d < dimension
  {
    var half := dimension / 2;
    var e := if d < half then d else d - half;
    var angle := Angle(ar, dimension, e, position, theta);
    var first, second := x[from + e], x[from + half + e];
    if d < half then ar.sub(ar.mul(first, ar.cos(angle)), ar.mul(second, ar.sin(angle)))
    else ar.add(ar.mul(second, ar.cos(angle)), ar.mul(first, ar.sin(angle)))
  }

  function RotateHead(ar: Arith, x: Row, from: nat, dimension: nat, position: nat, theta: Scalar): (y: Row)
    requires from + dimension <= |x| && dimension % 2 == 0
    ensures |y| == dimension
  {
    seq<Scalar>(dimension, d requires 0 <= d < dimension => RotateAt(ar, x, from, dimension, position, theta, d))
  }

  /** Rotary position embedding of the first `heads` heads of `x`. */
  function RotateHeads(ar: Arith, x: Row, heads: nat, dimension: nat, position: nat, theta: Scalar): (y: Row)
    requires heads * dimension <= |x| && dimension % 2 == 0
    ensures |y| == heads * dimension
  {
    if heads == 0 then []
    else
      Distribute(heads - 1, 1, dimension);
      RotateHeads(ar, x, heads - 1, dimension, position, theta)
      + RotateHead(ar, x, (heads - 1) * dimension, dimension, position, theta)
  }

  // ---------------------------------------------------------------------------- attention

  function Scores(ar: Arith, q: Row, from: nat, keys: seq<Row>, start: nat, dimension: nat, scale: Scalar): (s: Row)
    requires from + dimension <= |q| && forall p :: 0 <= p < |keys| ==> start + dimension <= |keys[p]|
    ensures |s| == |keys|
  {
    seq<Scalar>(|keys|, p requires 0 <= p < |keys| => ar.mul(Dot(ar, q, from, keys[p], start, dimension), scale))
  }

  function Maximum(ar: Arith, s: Row): Scalar {
    if s == [] then NEGATIVE_INFINITY
    else
      var before, last := Maximum(ar, s[..|s| - 1]), s[|s| - 1];
      if ar.less(before, last) then last else before
  }

  function RowSum(ar: Arith, s: Row): Scalar {
    if s == [] then ZERO else ar.add(RowSum(ar, s[..|s| - 1]), s[|s| - 1])
  }

  function Exponentials(ar: Arith, s: Row): (e: Row)
    ensures |e| == |s|
  {
    seq<Scalar>(|s|, p requires 0 <= p < |s| => ar.exp(ar.sub(s[p], Maximum(ar, s))))
  }

  function Blend(ar: Arith, e: Row, denominator: Scalar, values: seq<Row>, column: nat, count: nat): Scalar
    requires count <= |e| && count <= |values| && forall p :: 0 <= p < count ==> column < |values[p]|
  {
    if count == 0 then ZERO
    else ar.add(Blend(ar, e, denominator, values, column, count - 1),
                ar.mul(ar.div(e[count - 1], denominator), values[count - 1][column]))
  }

  function AttendHead(ar: Arith, q: Row, from: nat, keys: seq<Row>, values: seq<Row>, start: nat, dimension: nat): (y: Row)
    requires |keys| == |values| && from + dimension <= |q|
    requires forall p :: 0 <= p < |keys| ==> start + dimension <= |keys[p]| && start + dimension <= |values[p]|
    ensures |y| == dimension
  {
    var scale := ar.div(ONE, ar.sqrt(ar.fromNat(dimension)));
    var e := Exponentials(ar, Scores(ar, q, from, keys, start, dimension, scale));
    seq<Scalar>(dimension, d requires 0 <= d < dimension => Blend(ar, e, RowSum(ar, e), values, start + d, |values|))
  }

  /** Head `h` of `heads` heads of width `dimension` fits. */
  lemma HeadFits(h: nat, heads: nat, dimension: nat)
    requires h < heads
    ensures h * dimension + dimension <= heads * dimension
  {
    if dimension > 0 {
      MultiplyLess(h, heads, dimension);
    }
  }

  /** The key/value head that query head `h` reads. */
  function SharedHead(c: Config, h: nat): (k: nat)
    requires c.keyValueHeads > 0 && c.heads % c.keyValueHeads == 0 && h < c.heads
    ensures k < c.keyValueHeads
  {
    SharedHeadExists(c.heads, c.keyValueHeads, h);
    h / (c.heads / c.keyValueHeads)
  }

  lemma SharedHeadExists(heads: nat, groups: nat, h: nat)
    requires groups > 0 && heads % groups == 0 && h < heads
    ensures heads / groups > 0 && 0 <= h / (heads / groups) < groups
  {
    var size := heads / groups;
    assert heads == groups * size;
    QuotientBelow(h, size, groups);
  }

  lemma QuotientBelow(n: nat, d: nat, q: nat)
    requires n < q * d
    ensures d > 0 && 0 <= n / d < q
  {
    assert d > 0;
    assert n == d * (n / d) + n % d;
    assert d * (n / d) < q * d;
  }

  predicate Wide(rows: seq<Row>, width: nat) {
    forall p :: 0 <= p < |rows| ==> |rows[p]| == width
  }

  function AttendHeads(ar: Arith, c: Config, q: Row, keys: seq<Row>, values: seq<Row>, heads: nat): (y: Row)
    requires c.keyValueHeads > 0 && c.heads % c.keyValueHeads == 0 && heads <= c.heads
    requires |q| == c.heads * c.headDimension && |keys| == |values|
    requires Wide(keys, c.keyValueHeads * c.headDimension) && Wide(values, c.keyValueHeads * c.headDimension)
    ensures |y| == heads * c.headDimension
  {
    if heads == 0 then []
    else
      Distribute(heads - 1, 1, c.headDimension);
      AttendHeads(ar, c, q, keys, values, heads - 1) + AttendShared(ar, c, q, keys, values, heads - 1)
  }

  /** Query head `h`, on the key/value head it shares. */
  function AttendShared(ar: Arith, c: Config, q: Row, keys: seq<Row>, values: seq<Row>, h: nat): (y: Row)
    requires c.keyValueHeads > 0 && c.heads % c.keyValueHeads == 0 && h < c.heads
    requires |q| == c.heads * c.headDimension && |keys| == |values|
    requires Wide(keys, c.keyValueHeads * c.headDimension) && Wide(values, c.keyValueHeads * c.headDimension)
    ensures |y| == c.headDimension
  {
    var shared := SharedHead(c, h);
    HeadFits(h, c.heads, c.headDimension);
    HeadFits(shared, c.keyValueHeads, c.headDimension);
    AttendHead(ar, q, h * c.headDimension, keys, values, shared * c.headDimension, c.headDimension)
  }

  // ---------------------------------------------------------------------------- one layer

  function AddRow(ar: Arith, x: Row, y: Row): (z: Row)
    requires |x| == |y|
    ensures |z| == |x|
  {
    seq<Scalar>(|x|, i requires 0 <= i < |x| => ar.add(x[i], y[i]))
  }

  function Gated(ar: Arith, value: Scalar, up: Scalar): Scalar {
    ar.mul(ar.div(value, ar.add(ONE, ar.exp(ar.neg(value)))), up)
  }

  function GateRow(ar: Arith, gate: Row, up: Row): (z: Row)
    requires |gate| == |up|
    ensures |z| == |gate|
  {
    seq<Scalar>(|gate|, i requires 0 <= i < |gate| => Gated(ar, gate[i], up[i]))
  }

  /** The query or key vector of a row at a position: projected, optionally normalized, rotated. */
  function Rotated(ar: Arith, c: Config, x: Row, projection: seq<Row>, norm: Row, heads: nat, position: nat): (y: Row)
    requires c.headDimension % 2 == 0 && Shaped(projection, heads * c.headDimension, |x|)
    requires c.queryKeyNorm ==> |norm| == c.headDimension
    ensures |y| == heads * c.headDimension
  {
    var projected := LinearRow(ar, x, projection);
    var normed := if c.queryKeyNorm then NormHeads(ar, projected, heads, norm, c.epsilon) else projected;
    RotateHeads(ar, normed, heads, c.headDimension, position, c.theta)
  }

  function QueryRow(ar: Arith, c: Config, w: Weights, x: Row, position: nat): (y: Row)
    requires ValidConfig(ar, c) && ValidWeights(w, c) && |x| == c.hidden
    ensures |y| == c.heads * c.headDimension
  {
    Rotated(ar, c, NormRow(ar, x, w.inputNorm, c.epsilon), w.query, w.queryNorm, c.heads, position)
  }

  function KeyRow(ar: Arith, c: Config, w: Weights, x: Row, position: nat): (y: Row)
    requires ValidConfig(ar, c) && ValidWeights(w, c) && |x| == c.hidden
    ensures |y| == c.keyValueHeads * c.headDimension
  {
    Rotated(ar, c, NormRow(ar, x, w.inputNorm, c.epsilon), w.key, w.keyNorm, c.keyValueHeads, position)
  }

  function ValueRow(ar: Arith, c: Config, w: Weights, x: Row): (y: Row)
    requires ValidConfig(ar, c) && ValidWeights(w, c) && |x| == c.hidden
    ensures |y| == c.keyValueHeads * c.headDimension
  {
    LinearRow(ar, NormRow(ar, x, w.inputNorm, c.epsilon), w.value)
  }

  /** The attention half of a layer: the row plus what it gathers from the keys and values in view. */
  function AttendedRow(ar: Arith, c: Config, w: Weights, x: Row, position: nat, keys: seq<Row>, values: seq<Row>): (y: Row)
    requires ValidConfig(ar, c) && ValidWeights(w, c) && |x| == c.hidden && |keys| == |values|
    requires Wide(keys, c.keyValueHeads * c.headDimension) && Wide(values, c.keyValueHeads * c.headDimension)
    ensures |y| == c.hidden
  {
    var attended := AttendHeads(ar, c, QueryRow(ar, c, w, x, position), keys, values, c.heads);
    AddRow(ar, LinearRow(ar, attended, w.attentionOutput), x)
  }

  /** The feed-forward half. */
  function FeedForwardRow(ar: Arith, c: Config, w: Weights, h: Row): (y: Row)
    requires ValidConfig(ar, c) && ValidWeights(w, c) && |h| == c.hidden
    ensures |y| == c.hidden
  {
    var n := NormRow(ar, h, w.postAttentionNorm, c.epsilon);
    var gated := GateRow(ar, LinearRow(ar, n, w.gate), LinearRow(ar, n, w.up));
    AddRow(ar, h, LinearRow(ar, gated, w.down))
  }

  function LayerRow(ar: Arith, c: Config, w: Weights, x: Row, position: nat, keys: seq<Row>, values: seq<Row>): (y: Row)
    requires ValidConfig(ar, c) && ValidWeights(w, c) && |x| == c.hidden && |keys| == |values|
    requires Wide(keys, c.keyValueHeads * c.headDimension) && Wide(values, c.keyValueHeads * c.headDimension)
    ensures |y| == c.hidden
  {
    FeedForwardRow(ar, c, w, AttendedRow(ar, c, w, x, position, keys, values))
  }
}
