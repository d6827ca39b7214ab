/** Running a stack of layers over a sequence in pieces, with cached keys and values. */
module ChunkedPrefill {
  import opened Transformer

  /** What one layer remembers of the positions it has seen. */
  datatype Cache = Cache(keys: seq<Row>, values: seq<Row>) {
    predicate Valid(c: Config) {
      && |keys| == |values|
      && Wide(keys, c.keyValueHeads * c.headDimension)
      && Wide(values, c.keyValueHeads * c.headDimension)
    }
  }

  predicate ValidLayer(ar: Arith, c: Config, w: Weights) {
    ValidConfig(ar, c) && ValidWeights(w, c)
  }

  function KeyRows(ar: Arith, c: Config, w: Weights, x: seq<Row>, first: nat): (r: seq<Row>)
    requires ValidLayer(ar, c, w) && Wide(x, c.hidden)
    ensures |r| == |x| && Wide(r, c.keyValueHeads * c.headDimension)
  {
    seq(|x|, i requires 0 <= i < |x| => KeyRow(ar, c, w, x[i], first + i))
  }

  function ValueRows(ar: Arith, c: Config, w: Weights, x: seq<Row>): (r: seq<Row>)
    requires ValidLayer(ar, c, w) && Wide(x, c.hidden)
    ensures |r| == |x| && Wide(r, c.keyValueHeads * c.headDimension)
  {
    seq(|x|, i requires 0 <= i < |x| => ValueRow(ar, c, w, x[i]))
  }

  /** The cache after a layer has seen rows `x`. */
  function Extended(ar: Arith, c: Config, w: Weights, x: seq<Row>, cache: Cache): (r: Cache)
    requires ValidLayer(ar, c, w) && Wide(x, c.hidden) && cache.Valid(c)
    ensures r.Valid(c) && |r.keys| == |cache.keys| + |x|
  {
    Cache(cache.keys + KeyRows(ar, c, w, x, |cache.keys|), cache.values + ValueRows(ar, c, w, x))
  }

  /** The output at one position, which looks at the cache only up to that position. */
  function OutputAt(ar: Arith, c: Config, w: Weights, x: Row, position: nat, cache: Cache): (r: Row)
    requires ValidLayer(ar, c, w) && |x| == c.hidden && cache.Valid(c) && position < |cache.keys|
    ensures |r| == c.hidden
  {
    LayerRow(ar, c, w, x, position, cache.keys[..position + 1], cache.values[..position + 1])
  }

  /** One layer over rows that follow the cached positions. */
  function LayerOutput(ar: Arith, c: Config, w: Weights, x: seq<Row>, cache: Cache): (r: seq<Row>)
    requires ValidLayer(ar, c, w) && Wide(x, c.hidden) && cache.Valid(c)
    ensures |r| == |x| && Wide(r, c.hidden)
  {
    var next := Extended(ar, c, w, x, cache);
    seq(|x|, i requires 0 <= i < |x| => OutputAt(ar, c, w, x[i], |cache.keys| + i, next))
  }

  lemma ExtendedSplits(ar: Arith, c: Config, w: Weights, x: seq<Row>, y: seq<Row>, cache: Cache)
    requires ValidLayer(ar, c, w) && Wide(x, c.hidden) && Wide(y, c.hidden) && cache.Valid(c)
    ensures Wide(x + y, c.hidden)
    ensures Extended(ar, c, w, x + y, cache) == Extended(ar, c, w, y, Extended(ar, c, w, x, cache))
  {
    hide KeyRows, ValueRows;
    var first := |cache.keys|;
    RowsJoin(ar, c, w, x, y, first);
    Reassociate(cache.keys, KeyRows(ar, c, w, x, first), KeyRows(ar, c, w, y, first + |x|));
    Reassociate(cache.values, ValueRows(ar, c, w, x), ValueRows(ar, c, w, y));
  }

  lemma RowsJoin(ar: Arith, c: Config, w: Weights, x: seq<Row>, y: seq<Row>, first: nat)
    requires ValidLayer(ar, c, w) && Wide(x, c.hidden) && Wide(y, c.hidden)
    ensures Wide(x + y, c.hidden)
    ensures KeyRows(ar, c, w, x + y, first) == KeyRows(ar, c, w, x, first) + KeyRows(ar, c, w, y, first + |x|)
    ensures ValueRows(ar, c, w, x + y) == ValueRows(ar, c, w, x) + ValueRows(ar, c, w, y)
  {
    hide KeyRow, ValueRow;
  }

  lemma Reassociate<T>(a: seq<T>, b: seq<T>, c: seq<T>)
    ensures a + (b + c) == (a + b) + c
  {}

  /** Later positions do not change what an earlier one sees. */
  lemma OutputIgnoresLater(ar: Arith, c: Config, w: Weights, x: Row, position: nat, cache: Cache, y: seq<Row>)
    requires ValidLayer(ar, c, w) && |x| == c.hidden && cache.Valid(c) && position < |cache.keys| && Wide(y, c.hidden)
    ensures OutputAt(ar, c, w, x, position, Extended(ar, c, w, y, cache)) == OutputAt(ar, c, w, x, position, cache)
  {
    var later := Extended(ar, c, w, y, cache);
    assert later.keys[..position + 1] == cache.keys[..position + 1];
    assert later.values[..position + 1] == cache.values[..position + 1];
  }

  /** A layer over two pieces in turn is the layer over both at once. */
  lemma LayerSplits(ar: Arith, c: Config, w: Weights, x: seq<Row>, y: seq<Row>, cache: Cache)
    requires ValidLayer(ar, c, w) && Wide(x, c.hidden) && Wide(y, c.hidden) && Wide(x + y, c.hidden) && cache.Valid(c)
    ensures LayerOutput(ar, c, w, x + y, cache)
         == LayerOutput(ar, c, w, x, cache) + LayerOutput(ar, c, w, y, Extended(ar, c, w, x, cache))
  {
    hide LayerRow, KeyRow, ValueRow;
    ExtendedSplits(ar, c, w, x, y, cache);
    var middle := Extended(ar, c, w, x, cache);
    forall i | 0 <= i < |x|
      ensures LayerOutput(ar, c, w, x + y, cache)[i] == LayerOutput(ar, c, w, x, cache)[i]
    {
      OutputIgnoresLater(ar, c, w, x[i], |cache.keys| + i, middle, y);
    }
  }

  // ---------------------------------------------------------------------------- a stack of layers

  /** The layers a stage owns. */
  datatype Model = Model(ar: Arith, config: Config, layers: seq<Weights>) {
    predicate Valid() {
      ValidConfig(ar, config) && forall i :: 0 <= i < |layers| ==> ValidWeights(layers[i], config)
    }
  }

  predicate ValidCaches(m: Model, caches: seq<Cache>) {
    |caches| == |m.layers| && forall i :: 0 <= i < |caches| ==> caches[i].Valid(m.config)
  }

  /** Rows `x` through the first `n` layers. */
  function Through(m: Model, x: seq<Row>, caches: seq<Cache>, n: nat): (r: seq<Row>)
    requires m.Valid() && Wide(x, m.config.hidden) && ValidCaches(m, caches) && n <= |m.layers|
    ensures |r| == |x| && Wide(r, m.config.hidden)
  {
    if n == 0 then x
    else LayerOutput(m.ar, m.config, m.layers[n - 1], Through(m, x, caches, n - 1), caches[n - 1])
  }

  /** Every layer's cache after rows `x` went through the stack. */
  function CachesAfter(m: Model, x: seq<Row>, caches: seq<Cache>): (r: seq<Cache>)
    requires m.Valid() && Wide(x, m.config.hidden) && ValidCaches(m, caches)
    ensures ValidCaches(m, r)
    ensures forall i :: 0 <= i < |r| ==> |r[i].keys| == |caches[i].keys| + |x|
  {
    seq(|caches|, i requires 0 <= i < |caches| =>
      Extended(m.ar, m.config, m.layers[i], Through(m, x, caches, i), caches[i]))
  }

  lemma {:induction false} ThroughSplits(m: Model, x: seq<Row>, y: seq<Row>, caches: seq<Cache>, n: nat)
    requires m.Valid() && Wide(x, m.config.hidden) && Wide(y, m.config.hidden) && Wide(x + y, m.config.hidden)
    requires ValidCaches(m, caches) && n <= |m.layers|
    ensures Through(m, x + y, caches, n) == Through(m, x, caches, n) + Through(m, y, CachesAfter(m, x, caches), n)
  {
    hide LayerOutput, CachesAfter, ValidWeights, ValidConfig;
    if n > 0 {
      ThroughSplits(m, x, y, caches, n - 1);
      LastLayerSplits(m, x, y, caches, n - 1);
    }
  }

  lemma LastLayerSplits(m: Model, x: seq<Row>, y: seq<Row>, caches: seq<Cache>, n: nat)
    requires m.Valid() && Wide(x, m.config.hidden) && Wide(y, m.config.hidden) && Wide(x + y, m.config.hidden)
    requires ValidCaches(m, caches) && n < |m.layers|
    requires Through(m, x + y, caches, n) == Through(m, x, caches, n) + Through(m, y, CachesAfter(m, x, caches), n)
    ensures LayerOutput(m.ar, m.config, m.layers[n], Through(m, x + y, caches, n), caches[n])
         == LayerOutput(m.ar, m.config, m.layers[n], Through(m, x, caches, n), caches[n])
          + LayerOutput(m.ar, m.config, m.layers[n], Through(m, y, CachesAfter(m, x, caches), n), CachesAfter(m, x, caches)[n])
  {
    var low, high := Through(m, x, caches, n), Through(m, y, CachesAfter(m, x, caches), n);
    LayerSplits(m.ar, m.config, m.layers[n], low, high, caches[n]);
    assert CachesAfter(m, x, caches)[n] == Extended(m.ar, m.config, m.layers[n], low, caches[n]);
  }

  lemma CachesSplit(m: Model, x: seq<Row>, y: seq<Row>, caches: seq<Cache>)
    requires m.Valid() && Wide(x, m.config.hidden) && Wide(y, m.config.hidden) && Wide(x + y, m.config.hidden)
    requires ValidCaches(m, caches)
    ensures CachesAfter(m, x + y, caches) == CachesAfter(m, y, CachesAfter(m, x, caches))
  {
    forall i | 0 <= i < |caches|
      ensures CachesAfter(m, x + y, caches)[i] == CachesAfter(m, y, CachesAfter(m, x, caches))[i]
    {
      ThroughSplits(m, x, y, caches, i);
      ExtendedSplits(m.ar, m.config, m.layers[i], Through(m, x, caches, i),
                     Through(m, y, CachesAfter(m, x, caches), i), caches[i]);
    }
  }

  function Output(m: Model, x: seq<Row>, caches: seq<Cache>): (r: seq<Row>)
    requires m.Valid() && Wide(x, m.config.hidden) && ValidCaches(m, caches)
    ensures |r| == |x| && Wide(r, m.config.hidden)
  {
    Through(m, x, caches, |m.layers|)
  }

  // ---------------------------------------------------------------------------- chunks

  function Flatten<T>(chunks: seq<seq<T>>): seq<T> {
    if chunks == [] then [] else chunks[0] + Flatten(chunks[1..])
  }

  predicate AllWide(chunks: seq<seq<Row>>, width: nat) {
    forall k :: 0 <= k < |chunks| ==> Wide(chunks[k], width)
  }

  lemma {:induction false} FlattenIsWide(chunks: seq<seq<Row>>, width: nat)
    requires AllWide(chunks, width)
    ensures Wide(Flatten(chunks), width)
  {
    if chunks != [] {
      FlattenIsWide(chunks[1..], width);
    }
  }

  /** The rows a stack emits for consecutive chunks, and the caches it ends with. */
  function ChunkedOutput(m: Model, chunks: seq<seq<Row>>, caches: seq<Cache>): seq<Row>
    requires m.Valid() && AllWide(chunks, m.config.hidden) && ValidCaches(m, caches)
  {
    if chunks == [] then []
    else Output(m, chunks[0], caches) + ChunkedOutput(m, chunks[1..], CachesAfter(m, chunks[0], caches))
  }

  function ChunkedCaches(m: Model, chunks: seq<seq<Row>>, caches: seq<Cache>): seq<Cache>
    requires m.Valid() && AllWide(chunks, m.config.hidden) && ValidCaches(m, caches)
  {
    if chunks == [] then caches else ChunkedCaches(m, chunks[1..], CachesAfter(m, chunks[0], caches))
  }

  /** For any division of the rows into consecutive chunks, the concatenated outputs and the final
      caches are those of one call over all the rows. */
  lemma {:induction false} ChunksEqualWhole(m: Model, chunks: seq<seq<Row>>, caches: seq<Cache>)
    requires m.Valid() && AllWide(chunks, m.config.hidden) && ValidCaches(m, caches)
    ensures Wide(Flatten(chunks), m.config.hidden)
    ensures ChunkedOutput(m, chunks, caches) == Output(m, Flatten(chunks), caches)
    ensures ChunkedCaches(m, chunks, caches) == CachesAfter(m, Flatten(chunks), caches)
  {
    FlattenIsWide(chunks, m.config.hidden);
    if chunks == [] {
      NothingChanges(m, caches);
    } else {
      var rest := Flatten(chunks[1..]);
      FlattenIsWide(chunks[1..], m.config.hidden);
      ChunksEqualWhole(m, chunks[1..], CachesAfter(m, chunks[0], caches));
      ThroughSplits(m, chunks[0], rest, caches, |m.layers|);
      CachesSplit(m, chunks[0], rest, caches);
    }
  }

  lemma NothingChanges(m: Model, caches: seq<Cache>)
    requires m.Valid() && ValidCaches(m, caches)
    ensures Output(m, [], caches) == [] && CachesAfter(m, [], caches) == caches
  {
    forall i | 0 <= i < |caches|
      ensures CachesAfter(m, [], caches)[i] == caches[i]
    {
      var none: seq<Row> := [];
      assert Through(m, none, caches, i) == [];
      assert KeyRows(m.ar, m.config, m.layers[i], none, |caches[i].keys|) == [];
      assert ValueRows(m.ar, m.config, m.layers[i], none) == [];
    }
  }
}
