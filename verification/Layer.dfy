/** One decoder layer as the CPU reference runs it: it computes, row for row, what the layer means. */
module Layer {
  import opened Results
  import opened Transformer
  import opened ChunkedPrefill
  import opened Matrices
  import opened KvCache
  import opened Kernels
  import opened Rotation
  import opened Attention

  ghost function RotatedRows(ar: Arith, c: Config, x: seq<Row>, projection: seq<Row>, norm: Row, heads: nat, first: nat): (y: seq<Row>)
    requires c.headDimension % 2 == 0 && Wide(x, c.hidden) && Shaped(projection, heads * c.headDimension, c.hidden)
    requires c.queryKeyNorm ==> |norm| == c.headDimension
    ensures |y| == |x| && Wide(y, heads * c.headDimension)
  {
    seq(|x|, t requires 0 <= t < |x| => Rotated(ar, c, x[t], projection, norm, heads, first + t))
  }

  /** The queries or the keys: projected, optionally normalized, rotated. */
  method Project(ar: Arith, c: Config, normalized: Matrix, projection: seq<Row>, norm: Row, heads: nat, first: nat) returns (m: Matrix)
    requires normalized.Valid() && normalized.columns == c.hidden && ar.positive(c.theta)
    requires c.headDimension > 0 && c.headDimension % 2 == 0 && heads > 0 && Shaped(projection, heads * c.headDimension, c.hidden)
    requires c.queryKeyNorm ==> |norm| == c.headDimension
    ensures fresh(m) && fresh(m.values) && m.Valid() && m.rows == normalized.rows && m.columns == heads * c.headDimension
    ensures m.View() == RotatedRows(ar, c, normalized.View(), projection, norm, heads, first)
  {
    hide Matrix.View, LinearRow, NormHeads, RotateHeads;
    ghost var x := normalized.View();
    var projected := Linear(ar, normalized, projection);
    m := projected.value;
    if c.queryKeyNorm {
      NormalizeHeads(ar, m, heads, norm, c.epsilon);
    }
    var error := ApplyRope(ar, m, heads, c.headDimension, first, c.theta);
    assert m.View() == RotatedRows(ar, c, x, projection, norm, heads, first);
  }

  /** What attention adds to the rows. */
  ghost function AttendedRows(ar: Arith, c: Config, w: Weights, x: seq<Row>, first: nat, cache: Cache): (y: seq<Row>)
    requires ValidLayer(ar, c, w) && Wide(x, c.hidden) && cache.Valid(c) && first + |x| <= |cache.keys|
    ensures |y| == |x| && Wide(y, c.hidden)
  {
    seq(|x|, t requires 0 <= t < |x| =>
      AttendedRow(ar, c, w, x[t], first + t, cache.keys[..first + t + 1], cache.values[..first + t + 1]))
  }

  /** The queries of the rows, each as its position sees them. */
  predicate AreQueries(ar: Arith, c: Config, w: Weights, x: seq<Row>, first: nat, q: seq<Row>)
    requires ValidLayer(ar, c, w) && Wide(x, c.hidden)
  {
    |q| == |x| && forall t :: 0 <= t < |x| ==> q[t] == QueryRow(ar, c, w, x[t], first + t)
  }

  method AttentionHalf(ar: Arith, c: Config, w: Weights, input: Matrix, queries: Matrix, first: nat, cache: LayerKvCache)
    returns (hidden: Matrix)
    requires ValidLayer(ar, c, w) && input.Valid() && input.columns == c.hidden && input.rows == queries.rows
    requires Attends(queries, c, first, cache) && AreQueries(ar, c, w, input.View(), first, queries.View())
    ensures fresh(hidden) && fresh(hidden.values) && hidden.Valid() && hidden.rows == input.rows && hidden.columns == c.hidden
    ensures cache.View().Valid(c) && hidden.View() == AttendedRows(ar, c, w, input.View(), first, cache.View())
  {
    hide Matrix.View, LayerKvCache.View, LinearRow, AttendHeads, QueryRow, ValidConfig, ValidWeights;
    WeightShapes(ar, c, w);
    ghost var x, q, view := input.View(), queries.View(), cache.View();
    var attended := Attend(ar, c, queries, first, cache);
    var projected := Linear(ar, attended, w.attentionOutput);
    hidden := projected.value;
    var error := AddInPlace(ar, hidden, input);
    assert hidden.View() == AttendedRows(ar, c, w, x, first, view);
  }

  lemma WeightShapes(ar: Arith, c: Config, w: Weights)
    requires ValidLayer(ar, c, w)
    ensures Wide(w.attentionOutput, c.heads * c.headDimension) && |w.attentionOutput| == c.hidden
    ensures Wide(w.gate, c.hidden) && |w.gate| == c.intermediate && Wide(w.up, c.hidden) && |w.up| == c.intermediate
    ensures Wide(w.down, c.intermediate) && |w.down| == c.hidden && |w.postAttentionNorm| == c.hidden && |w.inputNorm| == c.hidden
    ensures Shaped(w.query, c.heads * c.headDimension, c.hidden) && Shaped(w.key, c.keyValueHeads * c.headDimension, c.hidden)
    ensures Shaped(w.value, c.keyValueHeads * c.headDimension, c.hidden) && Wide(w.value, c.hidden)
    ensures c.queryKeyNorm ==> |w.queryNorm| == c.headDimension == |w.keyNorm|
    ensures ar.positive(c.epsilon) && ar.positive(c.theta) && c.headDimension > 0 && c.headDimension % 2 == 0
    ensures c.heads > 0 && c.keyValueHeads > 0 && c.heads % c.keyValueHeads == 0
  {}

  ghost function FeedForwardRows(ar: Arith, c: Config, w: Weights, h: seq<Row>): (y: seq<Row>)
    requires ValidLayer(ar, c, w) && Wide(h, c.hidden)
    ensures |y| == |h| && Wide(y, c.hidden)
  {
    seq(|h|, t requires 0 <= t < |h| => FeedForwardRow(ar, c, w, h[t]))
  }

  method FeedForwardHalf(ar: Arith, c: Config, w: Weights, hidden: Matrix)
    requires ValidLayer(ar, c, w) && hidden.Valid() && hidden.columns == c.hidden
    modifies hidden.values
    ensures hidden.View() == FeedForwardRows(ar, c, w, old(hidden.View()))
  {
    hide Matrix.View, LinearRow, NormRow, ValidConfig, ValidWeights;
    WeightShapes(ar, c, w);
    ghost var h := hidden.View();
    var normed := RmsNorm(ar, hidden, w.postAttentionNorm, c.epsilon);
    var gate := Linear(ar, normed.value, w.gate);
    var up := Linear(ar, normed.value, w.up);
    var gated := gate.value;
    Gate(ar, gated, up.value);
    var down := Linear(ar, gated, w.down);
    var error := AddInPlace(ar, hidden, down.value);
    assert hidden.View() == FeedForwardRows(ar, c, w, h);
  }

  /** What the layer demands of its input and its cache. */
  predicate LayerAccepts(ar: Arith, c: Config, w: Weights, input: Matrix, first: nat, cache: LayerKvCache)
    reads cache
  {
    && ValidLayer(ar, c, w) && input.columns == c.hidden && input.rows > 0
    && cache.heads == c.keyValueHeads && cache.width == c.headDimension && cache.length <= cache.capacity
    && first == cache.length && first <= c.maximumLength && input.rows <= c.maximumLength - first
    && input.rows <= cache.capacity - cache.length
  }

  /** One layer over the rows that follow the cached positions. It refuses, leaving the cache alone, or
      it extends the cache by the rows' keys and values and returns the rows' outputs. */
  method TransformerLayer(ar: Arith, c: Config, w: Weights, input: Matrix, first: nat, cache: LayerKvCache) returns (r: Result<Matrix>)
    requires input.Valid() && cache.Valid() && input.values !in {cache.keys, cache.values}
    modifies cache`length, cache.keys, cache.values
    ensures cache.Valid() && input.View() == old(input.View())
    ensures r.Ok? <==> old(LayerAccepts(ar, c, w, input, first, cache))
    ensures r.Err? ==> r.error == Internal && cache.View() == old(cache.View())
    ensures r.Ok? ==>
              var x, before := old(input.View()), old(cache.View());
              && before.Valid(c) && Wide(x, c.hidden)
              && fresh(r.value) && fresh(r.value.values) && r.value.Valid() && r.value.rows == input.rows && r.value.columns == c.hidden
              && cache.View() == Extended(ar, c, w, x, before)
              && r.value.View() == LayerOutput(ar, c, w, x, before)
  {
    hide Matrix.View, LayerKvCache.View, ValidConfig, ValidWeights, LinearRow, NormRow, Extended, LayerOutput, KeyRows, ValueRows, RotatedRows;
    if !ValidConfig(ar, c) || !ValidWeights(w, c) || input.columns != c.hidden || input.rows == 0 || cache.heads != c.keyValueHeads
       || cache.width != c.headDimension || first != cache.length || first > c.maximumLength || input.rows > c.maximumLength - first {
      return Err(Internal);
    }
    WeightShapes(ar, c, w);
    ghost var x, before := input.View(), cache.View();
    var normalized := RmsNorm(ar, input, w.inputNorm, c.epsilon);
    var queries := Project(ar, c, normalized.value, w.query, w.queryNorm, c.heads, first);
    var keys := Project(ar, c, normalized.value, w.key, w.keyNorm, c.keyValueHeads, first);
    var values := Linear(ar, normalized.value, w.value);
    var appended := cache.Append(first, keys, values.value);
    if appended.Some? {
      return Err(appended.value);
    }
    RowsProjected(ar, c, w, x, first, queries.View(), keys.View(), values.value.View());
    ExtendedIs(ar, c, w, x, before);
    var hidden := Gathered(ar, c, w, input, queries, first, cache, before);
    r := Ok(hidden);
  }

  /** Both halves of the layer, once the cache has been extended. */
  method Gathered(ar: Arith, c: Config, w: Weights, input: Matrix, queries: Matrix, first: nat, cache: LayerKvCache, ghost before: Cache)
    returns (hidden: Matrix)
    requires ValidLayer(ar, c, w) && input.Valid() && queries.Valid() && cache.Valid() && input.columns == c.hidden && input.rows > 0
    requires before.Valid(c) && first == |before.keys| && cache.View() == Extended(ar, c, w, input.View(), before)
    requires queries.rows == input.rows && Attends(queries, c, first, cache)
    requires AreQueries(ar, c, w, input.View(), first, queries.View())
    ensures fresh(hidden) && fresh(hidden.values) && hidden.Valid() && hidden.rows == input.rows && hidden.columns == c.hidden
    ensures hidden.View() == LayerOutput(ar, c, w, input.View(), before)
  {
    hide Matrix.View, LayerKvCache.View, ValidConfig, ValidWeights, Extended, LayerOutput;
    ghost var x := input.View();
    hidden := AttentionHalf(ar, c, w, input, queries, first, cache);
    FeedForwardHalf(ar, c, w, hidden);
    LayerIs(ar, c, w, x, before, hidden.View());
  }

  /** The projections are the queries, keys and values of the rows. */
  lemma RowsProjected(ar: Arith, c: Config, w: Weights, x: seq<Row>, first: nat, q: seq<Row>, k: seq<Row>, v: seq<Row>)
    requires ValidLayer(ar, c, w) && Wide(x, c.hidden) && |w.inputNorm| == c.hidden
    requires Shaped(w.query, c.heads * c.headDimension, c.hidden) && Shaped(w.key, c.keyValueHeads * c.headDimension, c.hidden)
    requires Wide(w.value, c.hidden) && c.headDimension % 2 == 0 && (c.queryKeyNorm ==> |w.queryNorm| == c.headDimension == |w.keyNorm|)
    requires var n := NormRows(ar, x, w.inputNorm, c.epsilon);
             && q == RotatedRows(ar, c, n, w.query, w.queryNorm, c.heads, first)
             && k == RotatedRows(ar, c, n, w.key, w.keyNorm, c.keyValueHeads, first)
             && v == LinearRows(ar, n, w.value)
    ensures AreQueries(ar, c, w, x, first, q) && k == KeyRows(ar, c, w, x, first) && v == ValueRows(ar, c, w, x)
  {
    hide ValidConfig, ValidWeights, Rotated, LinearRow, NormRow;
  }

  lemma ExtendedIs(ar: Arith, c: Config, w: Weights, x: seq<Row>, before: Cache)
    requires ValidLayer(ar, c, w) && Wide(x, c.hidden) && before.Valid(c)
    ensures Extended(ar, c, w, x, before)
            == Cache(before.keys + KeyRows(ar, c, w, x, |before.keys|), before.values + ValueRows(ar, c, w, x))
  {}

  lemma LayerIs(ar: Arith, c: Config, w: Weights, x: seq<Row>, before: Cache, y: seq<Row>)
    requires ValidLayer(ar, c, w) && Wide(x, c.hidden) && before.Valid(c)
    requires y == FeedForwardRows(ar, c, w, AttendedRows(ar, c, w, x, |before.keys|, Extended(ar, c, w, x, before)))
    ensures y == LayerOutput(ar, c, w, x, before)
  {
    hide ValidConfig, ValidWeights, FeedForwardRow, AttendedRow, Extended;
  }
}
