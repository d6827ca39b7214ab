/** Causal attention over the cache, against its meaning row by row. */
module Attention {
  import opened Numbers
  import opened Results
  import opened Transformer
  import opened ChunkedPrefill
  import opened Matrices
  import opened KvCache

  /** The cache holds rows for the configured heads. */
  predicate Serves(cache: LayerKvCache, c: Config)
    reads cache
  {
    cache.Valid() && cache.heads == c.keyValueHeads && cache.width == c.headDimension
  }

  method Score(ar: Arith, queries: Matrix, token: nat, offset: nat, cache: LayerKvCache, position: nat, head: nat)
    returns (score: Scalar)
    requires queries.Valid() && token < queries.rows && cache.Valid() && offset + cache.width <= queries.columns
    requires position < cache.length && head < cache.heads
    ensures head * cache.width + cache.width <= cache.Columns()
    ensures score == Dot(ar, queries.View()[token], offset, cache.View().keys[position], head * cache.width, cache.width)
  {
    hide LayerKvCache.View, Matrix.View, Matrix.Get, Index;
    HeadFits(head, cache.heads, cache.width);
    ghost var q, k, start := queries.View()[token], cache.View().keys[position], head * cache.width;
    score := ZERO;
    for dimension := 0 to cache.width
      invariant score == Dot(ar, q, offset, k, start, dimension)
    {
      var key := cache.Key(position, head, dimension);
      assert key.value == k[start + dimension];
      queries.Seen(token, offset + dimension);
      score := ar.add(score, ar.mul(queries.Get(token, offset + dimension), key.value));
    }
  }

  lemma KeysFit(cache: LayerKvCache, head: nat, n: nat)
    requires cache.Valid() && head < cache.heads && n <= cache.length
    ensures forall p :: 0 <= p < n ==> head * cache.width + cache.width <= |cache.View().keys[..n][p]|
    ensures forall p :: 0 <= p < n ==> head * cache.width + cache.width <= |cache.View().values[..n][p]|
  {
    HeadFits(head, cache.heads, cache.width);
  }

  /** The scaled scores of one query head, and the largest. */
  method HeadScores(ar: Arith, queries: Matrix, token: nat, offset: nat, cache: LayerKvCache, head: nat, count: nat, scale: Scalar)
    returns (scores: seq<Scalar>, maximum: Scalar)
    requires queries.Valid() && token < queries.rows && cache.Valid() && offset + cache.width <= queries.columns
    requires count <= cache.length && head < cache.heads
    ensures forall p :: 0 <= p < count ==> head * cache.width + cache.width <= |cache.View().keys[..count][p]|
    ensures scores == Scores(ar, queries.View()[token], offset, cache.View().keys[..count], head * cache.width, cache.width, scale)
    ensures maximum == Maximum(ar, scores)
  {
    KeysFit(cache, head, count);
    ghost var all := Scores(ar, queries.View()[token], offset, cache.View().keys[..count], head * cache.width, cache.width, scale);
    scores, maximum := [], NEGATIVE_INFINITY;
    for position := 0 to count
      invariant |scores| == position && scores == all[..position] && maximum == Maximum(ar, scores)
    {
      var dot := Score(ar, queries, token, offset, cache, position, head);
      var score := ar.mul(dot, scale);
      assert score == all[position];
      scores := scores + [score];
      assert scores[..position] == all[..position];
      maximum := if ar.less(maximum, score) then score else maximum;
    }
  }

  /** Exponentials of the scores less the largest, and their sum. */
  method Weigh(ar: Arith, scores: Row, maximum: Scalar) returns (weights: seq<Scalar>, denominator: Scalar)
    requires maximum == Maximum(ar, scores)
    ensures weights == Exponentials(ar, scores) && denominator == RowSum(ar, weights)
  {
    weights, denominator := [], ZERO;
    ghost var all := Exponentials(ar, scores);
    for i := 0 to |scores|
      invariant |weights| == i && weights == all[..i] && denominator == RowSum(ar, weights)
    {
      var score := ar.exp(ar.sub(scores[i], maximum));
      weights := weights + [score];
      assert weights[..i] == all[..i];
      denominator := ar.add(denominator, score);
    }
  }

  method Mix(ar: Arith, weights: Row, denominator: Scalar, cache: LayerKvCache, head: nat, dimension: nat) returns (result: Scalar)
    requires cache.Valid() && |weights| <= cache.length && head < cache.heads && dimension < cache.width
    ensures head * cache.width + dimension < cache.Columns()
    ensures result == Blend(ar, weights, denominator, cache.View().values[..|weights|], head * cache.width + dimension, |weights|)
  {
    HeadFits(head, cache.heads, cache.width);
    result := ZERO;
    for position := 0 to |weights|
      invariant result == Blend(ar, weights, denominator, cache.View().values[..|weights|], head * cache.width + dimension, position)
    {
      var value := cache.Value(position, head, dimension);
      result := ar.add(result, ar.mul(ar.div(weights[position], denominator), value.value));
    }
  }

  /** The blended values of one head. */
  function Blends(ar: Arith, e: Row, denominator: Scalar, values: seq<Row>, start: nat, dimension: nat): (y: Row)
    requires |e| == |values| && forall p :: 0 <= p < |values| ==> start + dimension <= |values[p]|
    ensures |y| == dimension
  {
    seq<Scalar>(dimension, d requires 0 <= d < dimension => Blend(ar, e, denominator, values, start + d, |values|))
  }

  method MixInto(ar: Arith, weights: Row, denominator: Scalar, cache: LayerKvCache, head: nat, offset: nat, output: Matrix, token: nat)
    requires output.Valid() && token < output.rows && cache.Valid() && offset + cache.width <= output.columns
    requires |weights| <= cache.length && head < cache.heads && output.values !in {cache.keys, cache.values}
    modifies output.values
    ensures forall k :: 0 <= k < output.rows && k != token ==> output.View()[k] == old(output.View())[k]
    ensures forall p :: 0 <= p < |weights| ==> head * cache.width + cache.width <= |cache.View().values[..|weights|][p]|
    ensures var x, y := old(output.View())[token], output.View()[token];
            && y[..offset] == x[..offset] && y[offset + cache.width..] == x[offset + cache.width..]
            && y[offset..offset + cache.width]
               == Blends(ar, weights, denominator, cache.View().values[..|weights|], head * cache.width, cache.width)
  {
    hide LayerKvCache.View, Matrix.View, Written, Filling, Blend;
    KeysFit(cache, head, |weights|);
    var width := cache.width;
    ghost var view, before := cache.View(), output.View();
    ghost var all := Blends(ar, weights, denominator, view.values[..|weights|], head * width, width);
    NothingFilled(before[token], offset, all);
    for dimension := 0 to width
      invariant cache.View() == view
      invariant forall k :: 0 <= k < output.rows && k != token ==> output.View()[k] == before[k]
      invariant Filling(before[token], output.View()[token], offset, all, dimension)
    {
      var result := Mix(ar, weights, denominator, cache, head, dimension);
      ghost var v := output.View();
      output.Set(token, offset + dimension, result);
      WrittenKeeps(v, token, offset + dimension, result);
      FillsOne(before[token], v, token, offset, all, dimension);
    }
    AllFilled(before[token], output.View()[token], offset, all);
  }

  /** One query head of one row. */
  method AttendHeadInto(ar: Arith, queries: Matrix, token: nat, offset: nat, cache: LayerKvCache, head: nat, count: nat, output: Matrix)
    requires queries.Valid() && output.Valid() && token < queries.rows == output.rows && output.columns == queries.columns
    requires cache.Valid() && offset + cache.width <= queries.columns && count <= cache.length && head < cache.heads
    requires output.values !in {queries.values, cache.keys, cache.values}
    modifies output.values
    ensures forall k :: 0 <= k < output.rows && k != token ==> output.View()[k] == old(output.View())[k]
    ensures var x, y := old(output.View())[token], output.View()[token];
            && y[..offset] == x[..offset] && y[offset + cache.width..] == x[offset + cache.width..]
    ensures forall p :: 0 <= p < count ==> head * cache.width + cache.width <= |cache.View().keys[..count][p]|
    ensures forall p :: 0 <= p < count ==> head * cache.width + cache.width <= |cache.View().values[..count][p]|
    ensures output.View()[token][offset..offset + cache.width]
            == AttendHead(ar, queries.View()[token], offset, cache.View().keys[..count], cache.View().values[..count],
                          head * cache.width, cache.width)
  {
    hide LayerKvCache.View, Matrix.View, AttendHead, Scores, Exponentials, Blends;
    KeysFit(cache, head, count);
    var width := cache.width;
    ghost var q, view := queries.View()[token], cache.View();
    var scale := ar.div(ONE, ar.sqrt(ar.fromNat(width)));
    var scores, maximum := HeadScores(ar, queries, token, offset, cache, head, count, scale);
    var weights, denominator := Weigh(ar, scores, maximum);
    MixInto(ar, weights, denominator, cache, head, offset, output, token);
    AttendBlends(ar, q, offset, view.keys[..count], view.values[..count], head * width, width);
  }

  lemma WrittenKeeps(v: seq<Row>, r: nat, c: nat, x: Scalar)
    requires r < |v| && c < |v[r]|
    ensures var w := Written(v, r, c, x); |w| == |v| && |w[r]| == |v[r]| && forall k :: 0 <= k < |v| && k != r ==> w[k] == v[k]
  {}

  lemma NothingFilled(x: Row, offset: nat, part: Row)
    requires offset + |part| <= |x|
    ensures Filling(x, x, offset, part, 0)
  {}

  lemma AllFilled(x: Row, y: Row, offset: nat, part: Row)
    requires Filling(x, y, offset, part, |part|)
    ensures |x| == |y| && offset + |part| <= |x| && y[..offset] == x[..offset] && y[offset + |part|..] == x[offset + |part|..]
    ensures y[offset..offset + |part|] == part
  {}

  /** `y` is `x` with the first `done` entries of `part` put in from `offset` on. */
  predicate Filling(x: Row, y: Row, offset: nat, part: Row, done: nat) {
    && |x| == |y| && offset + |part| <= |x| && done <= |part|
    && y[..offset] == x[..offset] && y[offset..offset + done] == part[..done] && y[offset + done..] == x[offset + done..]
  }

  lemma FillsOne(x: Row, v: seq<Row>, token: nat, offset: nat, part: Row, done: nat)
    requires token < |v| && done < |part| && Filling(x, v[token], offset, part, done)
    ensures Filling(x, Written(v, token, offset + done, part[done])[token], offset, part, done + 1)
  {
    var y, z := v[token], Written(v, token, offset + done, part[done])[token];
    assert forall k :: 0 <= k < |y| && k != offset + done ==> z[k] == y[k];
    assert z[..offset] == y[..offset];
    assert z[offset..offset + done] == y[offset..offset + done];
    assert z[offset..offset + (done + 1)] == z[offset..offset + done] + [z[offset + done]];
    assert part[..done + 1] == part[..done] + [part[done]];
    assert y[offset + (done + 1)..] == y[offset + done..][1..] && x[offset + (done + 1)..] == x[offset + done..][1..];
    assert z[offset + (done + 1)..] == y[offset + (done + 1)..];
  }

  lemma AttendBlends(ar: Arith, q: Row, from: nat, keys: seq<Row>, values: seq<Row>, start: nat, dimension: nat)
    requires |keys| == |values| && from + dimension <= |q|
    requires forall p :: 0 <= p < |keys| ==> start + dimension <= |keys[p]| && start + dimension <= |values[p]|
    ensures var e := Exponentials(ar, Scores(ar, q, from, keys, start, dimension, ar.div(ONE, ar.sqrt(ar.fromNat(dimension)))));
            AttendHead(ar, q, from, keys, values, start, dimension)
            == Blends(ar, e, RowSum(ar, e), values, start, dimension)
  {
    hide Exponentials, Scores;
  }

  // ---------------------------------------------------------------------------- all heads, all rows

  /** The inputs of attention fit together, and row `t` may look at the first `first + t + 1` positions. */
  predicate Attends(queries: Matrix, c: Config, first: nat, cache: LayerKvCache)
    reads cache
  {
    && queries.Valid() && Serves(cache, c) && c.keyValueHeads > 0 && c.heads % c.keyValueHeads == 0
    && queries.columns == c.heads * c.headDimension && first + queries.rows <= cache.length
  }

  ghost function AttendedAt(ar: Arith, c: Config, queries: seq<Row>, first: nat, cache: Cache, t: nat): (y: Row)
    requires c.keyValueHeads > 0 && c.heads % c.keyValueHeads == 0 && t < |queries| && first + |queries| <= |cache.keys|
    requires Wide(queries, c.heads * c.headDimension) && cache.Valid(c)
    ensures |y| == c.heads * c.headDimension
  {
    AttendHeads(ar, c, queries[t], cache.keys[..first + t + 1], cache.values[..first + t + 1], c.heads)
  }

  lemma AttendNext(ar: Arith, c: Config, q: Row, keys: seq<Row>, values: seq<Row>, head: nat, x: Row, y: Row)
    requires c.keyValueHeads > 0 && c.heads % c.keyValueHeads == 0 && head < c.heads
    requires |q| == c.heads * c.headDimension == |x| == |y| && |keys| == |values|
    requires Wide(keys, c.keyValueHeads * c.headDimension) && Wide(values, c.keyValueHeads * c.headDimension)
    requires (head + 1) * c.headDimension == head * c.headDimension + c.headDimension <= |x|
    requires x[..head * c.headDimension] == AttendHeads(ar, c, q, keys, values, head)
    requires y[..head * c.headDimension] == x[..head * c.headDimension]
    requires SharedHead(c, head) * c.headDimension + c.headDimension <= c.keyValueHeads * c.headDimension
    requires y[head * c.headDimension..head * c.headDimension + c.headDimension]
             == AttendHead(ar, q, head * c.headDimension, keys, values, SharedHead(c, head) * c.headDimension, c.headDimension)
    ensures y[..(head + 1) * c.headDimension] == AttendHeads(ar, c, q, keys, values, head + 1)
  {
    hide AttendHead;
    var o := head * c.headDimension;
    assert y[..o + c.headDimension] == y[..o] + y[o..o + c.headDimension];
  }

  method AttendRow(ar: Arith, c: Config, queries: Matrix, token: nat, first: nat, cache: LayerKvCache, output: Matrix)
    requires Attends(queries, c, first, cache) && token < queries.rows == output.rows && output.Valid() && output.columns == queries.columns
    requires output.values !in {queries.values, cache.keys, cache.values}
    modifies output.values
    ensures cache.View().Valid(c)
    ensures OnlyRow(old(output.View()), output.View(), token, AttendedAt(ar, c, queries.View(), first, cache.View(), token))
  {
    hide LayerKvCache.View, Matrix.View, AttendHead, AttendHeads, SharedHead;
    ghost var q, view, before := queries.View()[token], cache.View(), output.View();
    ghost var keys, values := view.keys[..first + token + 1], view.values[..first + token + 1];
    AttendNothing(ar, c, q, keys, values);
    for head := 0 to c.heads
      invariant head * c.headDimension <= output.columns
      invariant queries.View()[token] == q && cache.View() == view
      invariant forall k :: 0 <= k < output.rows && k != token ==> output.View()[k] == before[k]
      invariant output.View()[token][..head * c.headDimension] == AttendHeads(ar, c, q, keys, values, head)
    {
      HeadFits(head, c.heads, c.headDimension);
      Distribute(head, 1, c.headDimension);
      var shared := SharedHead(c, head);
      HeadFits(shared, c.keyValueHeads, c.headDimension);
      ghost var x := output.View()[token];
      AttendHeadInto(ar, queries, token, head * c.headDimension, cache, shared, first + token + 1, output);
      AttendNext(ar, c, q, keys, values, head, x, output.View()[token]);
    }
    assert output.View()[token][..c.heads * c.headDimension] == output.View()[token];
  }

  /** Query head `h` of the row reads the columns of key/value head `g`. */
  ghost predicate HeadReads(ar: Arith, c: Config, q: Row, keys: seq<Row>, values: seq<Row>, h: nat, g: nat, y: Row)
    requires h < c.heads && g < c.keyValueHeads && |q| == |y| == c.heads * c.headDimension && |keys| == |values|
    requires Wide(keys, c.keyValueHeads * c.headDimension) && Wide(values, c.keyValueHeads * c.headDimension)
  {
    HeadFits(h, c.heads, c.headDimension);
    HeadFits(g, c.keyValueHeads, c.headDimension);
    var from, width := h * c.headDimension, c.headDimension;
    y[from..from + width] == AttendHead(ar, q, from, keys, values, g * width, width)
  }

  /** Query heads share key/value heads in consecutive groups of equal size. */
  ghost predicate AttendsInGroups(ar: Arith, c: Config, q: Row, keys: seq<Row>, values: seq<Row>, y: Row)
    requires c.keyValueHeads > 0 && |q| == |y| == c.heads * c.headDimension && |keys| == |values|
    requires Wide(keys, c.keyValueHeads * c.headDimension) && Wide(values, c.keyValueHeads * c.headDimension)
  {
    var size := c.heads / c.keyValueHeads;
    forall g: nat, h: nat :: g < c.keyValueHeads && h < c.heads && g * size <= h < (g + 1) * size ==>
      HeadReads(ar, c, q, keys, values, h, g, y)
  }

  lemma GroupOf(heads: nat, groups: nat, g: nat, h: nat)
    requires groups > 0 && heads % groups == 0 && g * (heads / groups) <= h < (g + 1) * (heads / groups)
    ensures h / (heads / groups) == g
  {
    var size := heads / groups;
    Distribute(g, 1, size);
    QuotientIs(h, size, g, h - g * size);
  }

  lemma QuotientIs(n: nat, d: nat, q: nat, r: nat)
    requires n == q * d + r && r < d
    ensures n / d == q
  {
    QuotientBound(q, d, n);
    if n / d > q {
      QuotientBound(q + 1, d, n);
      Distribute(q, 1, d);
    }
  }

  lemma {:induction false} AttendHeadsAt(ar: Arith, c: Config, q: Row, keys: seq<Row>, values: seq<Row>, heads: nat, h: nat)
    requires c.keyValueHeads > 0 && c.heads % c.keyValueHeads == 0 && h < heads <= c.heads
    requires |q| == c.heads * c.headDimension && |keys| == |values|
    requires Wide(keys, c.keyValueHeads * c.headDimension) && Wide(values, c.keyValueHeads * c.headDimension)
    ensures h * c.headDimension + c.headDimension <= heads * c.headDimension
    ensures AttendHeads(ar, c, q, keys, values, heads)[h * c.headDimension..h * c.headDimension + c.headDimension]
            == AttendShared(ar, c, q, keys, values, h)
  {
    hide AttendShared;
    HeadFits(h, heads, c.headDimension);
    Distribute(heads - 1, 1, c.headDimension);
    if h < heads - 1 {
      AttendHeadsAt(ar, c, q, keys, values, heads - 1, h);
    }
  }

  lemma SharedByGroup(ar: Arith, c: Config, q: Row, keys: seq<Row>, values: seq<Row>, g: nat, h: nat)
    requires c.keyValueHeads > 0 && c.heads % c.keyValueHeads == 0 && h < c.heads && g < c.keyValueHeads
    requires |q| == c.heads * c.headDimension && |keys| == |values|
    requires Wide(keys, c.keyValueHeads * c.headDimension) && Wide(values, c.keyValueHeads * c.headDimension)
    requires g * (c.heads / c.keyValueHeads) <= h < (g + 1) * (c.heads / c.keyValueHeads)
    ensures HeadReads(ar, c, q, keys, values, h, g, AttendHeads(ar, c, q, keys, values, c.heads))
  {
    hide AttendHead, AttendHeads;
    GroupOf(c.heads, c.keyValueHeads, g, h);
    AttendHeadsAt(ar, c, q, keys, values, c.heads, h);
  }

  lemma AttendedInGroups(ar: Arith, c: Config, queries: seq<Row>, first: nat, cache: Cache, t: nat)
    requires c.keyValueHeads > 0 && c.heads % c.keyValueHeads == 0 && t < |queries| && first + |queries| <= |cache.keys|
    requires Wide(queries, c.heads * c.headDimension) && cache.Valid(c)
    ensures AttendsInGroups(ar, c, queries[t], cache.keys[..first + t + 1], cache.values[..first + t + 1],
                            AttendedAt(ar, c, queries, first, cache, t))
  {
    hide AttendHeads, HeadReads;
    var q, keys, values := queries[t], cache.keys[..first + t + 1], cache.values[..first + t + 1];
    var size := c.heads / c.keyValueHeads;
    forall g: nat, h: nat | g < c.keyValueHeads && h < c.heads && g * size <= h < (g + 1) * size
      ensures HeadReads(ar, c, q, keys, values, h, g, AttendedAt(ar, c, queries, first, cache, t))
    {
      SharedByGroup(ar, c, q, keys, values, g, h);
    }
  }

  lemma AttendNothing(ar: Arith, c: Config, q: Row, keys: seq<Row>, values: seq<Row>)
    requires c.keyValueHeads > 0 && c.heads % c.keyValueHeads == 0 && |q| == c.heads * c.headDimension && |keys| == |values|
    requires Wide(keys, c.keyValueHeads * c.headDimension) && Wide(values, c.keyValueHeads * c.headDimension)
    ensures AttendHeads(ar, c, q, keys, values, 0) == []
  {}

  method Attend(ar: Arith, c: Config, queries: Matrix, first: nat, cache: LayerKvCache) returns (output: Matrix)
    requires Attends(queries, c, first, cache)
    ensures fresh(output) && fresh(output.values) && output.Valid() && output.rows == queries.rows && output.columns == queries.columns
    ensures cache.View().Valid(c)
    ensures forall t :: 0 <= t < queries.rows ==> output.View()[t] == AttendedAt(ar, c, queries.View(), first, cache.View(), t)
    ensures forall t :: 0 <= t < queries.rows ==>
              AttendsInGroups(ar, c, queries.View()[t], cache.View().keys[..first + t + 1], cache.View().values[..first + t + 1],
                              output.View()[t])
  {
    hide LayerKvCache.View, Matrix.View, AttendedAt, AttendsInGroups;
    output := new Matrix(queries.rows, c.heads * c.headDimension);
    ghost var q, view := queries.View(), cache.View();
    for token := 0 to queries.rows
      invariant queries.View() == q && cache.View() == view
      invariant forall t :: 0 <= t < token ==> output.View()[t] == AttendedAt(ar, c, q, first, view, t)
    {
      AttendRow(ar, c, queries, token, first, cache, output);
    }
    forall t | 0 <= t < queries.rows
      ensures AttendsInGroups(ar, c, q[t], view.keys[..first + t + 1], view.values[..first + t + 1], output.View()[t])
    {
      AttendedInGroups(ar, c, q, first, view, t);
    }
  }
}
