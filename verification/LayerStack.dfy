/** A stage's layers run one after another, each on its own cache. */
module LayerStack {
  import opened Results
  import opened Transformer
  import opened ChunkedPrefill
  import opened Matrices
  import opened KvCache
  import opened Layer

  /** The objects that the caches occupy. */
  function Footprint(caches: seq<LayerKvCache>): set<object> {
    (set i | 0 <= i < |caches| :: caches[i] as object) + Arrays(caches)
  }

  function Arrays(caches: seq<LayerKvCache>): set<object> {
    (set i | 0 <= i < |caches| :: caches[i].keys as object) + (set i | 0 <= i < |caches| :: caches[i].values as object)
  }

  /** No two layers share storage. */
  predicate Separate(caches: seq<LayerKvCache>) {
    forall i, j :: 0 <= i < j < |caches| ==>
      caches[i] != caches[j] && {caches[i].keys, caches[i].values} !! {caches[j].keys, caches[j].values}
  }

  /** One cache per layer, shaped for the model, all at the same position with the same capacity. */
  predicate Uniform(m: Model, caches: seq<LayerKvCache>, position: nat, capacity: nat)
    reads set i | 0 <= i < |caches| :: caches[i]
  {
    && |caches| == |m.layers|
    && forall i :: 0 <= i < |caches| ==>
         && caches[i].Valid() && caches[i].heads == m.config.keyValueHeads && caches[i].width == m.config.headDimension
         && caches[i].length == position && caches[i].capacity == capacity
  }

  ghost function Views(caches: seq<LayerKvCache>): (r: seq<Cache>)
    requires forall i :: 0 <= i < |caches| ==> caches[i].Valid()
    reads (set i | 0 <= i < |caches| :: caches[i]), Footprint(caches)
    ensures |r| == |caches| && forall i :: 0 <= i < |caches| ==> r[i] == caches[i].View()
  {
    seq(|caches|, i requires 0 <= i < |caches| && caches[i].Valid() reads Footprint(caches) => caches[i].View())
  }

  lemma ViewsFit(m: Model, caches: seq<LayerKvCache>, position: nat, capacity: nat)
    requires Uniform(m, caches, position, capacity)
    ensures ValidCaches(m, Views(caches)) && forall i :: 0 <= i < |caches| ==> |Views(caches)[i].keys| == position
  {}

  lemma LayerIsValid(m: Model, i: nat)
    requires m.Valid() && i < |m.layers|
    ensures ValidLayer(m.ar, m.config, m.layers[i])
  {}

  lemma ThroughNext(m: Model, x: seq<Row>, caches: seq<Cache>, n: nat)
    requires m.Valid() && Wide(x, m.config.hidden) && ValidCaches(m, caches) && n < |m.layers|
    ensures Through(m, x, caches, n + 1) == LayerOutput(m.ar, m.config, m.layers[n], Through(m, x, caches, n), caches[n])
    ensures CachesAfter(m, x, caches)[n] == Extended(m.ar, m.config, m.layers[n], Through(m, x, caches, n), caches[n])
  {
    hide LayerOutput, Extended;
  }

  /** Rows that follow the cached positions and fit. */
  predicate Fit(m: Model, rows: nat, position: nat, length: nat, capacity: nat) {
    position == length && rows > 0 && position + rows <= m.config.maximumLength && position + rows <= capacity
  }

  /** Layer `i` over the rows, unless they do not fit; the other layers' caches are not touched. */
  method ForwardLayer(m: Model, i: nat, hidden: Matrix, position: nat, caches: seq<LayerKvCache>) returns (r: Result<Matrix>)
    requires m.Valid() && hidden.Valid() && Separate(caches) && i < |caches| == |m.layers|
    requires forall j :: 0 <= j < |caches| ==> caches[j].Valid()
    requires caches[i].heads == m.config.keyValueHeads && caches[i].width == m.config.headDimension
    requires hidden.values !in Arrays(caches) && hidden.columns == m.config.hidden
    modifies caches[i], caches[i].keys, caches[i].values
    ensures forall j :: 0 <= j < |caches| ==> caches[j].Valid()
    ensures r.Ok? <==> Fit(m, hidden.rows, position, old(caches[i].length), caches[i].capacity)
    ensures r.Err? ==> r.error == Internal && Views(caches) == old(Views(caches))
    ensures r.Ok? ==>
              var x, before := old(hidden.View()), old(caches[i].View());
              && r.value.Valid() && r.value.rows == hidden.rows && r.value.columns == m.config.hidden && fresh(r.value.values)
              && ValidLayer(m.ar, m.config, m.layers[i]) && Wide(x, m.config.hidden) && before.Valid(m.config)
              && Views(caches) == old(Views(caches))[i := Extended(m.ar, m.config, m.layers[i], x, before)]
              && r.value.View() == LayerOutput(m.ar, m.config, m.layers[i], x, before)
  {
    hide Matrix.View, ValidConfig, ValidWeights, Extended, LayerOutput;
    LayerIsValid(m, i);
    r := TransformerLayer(m.ar, m.config, m.layers[i], hidden, position, caches[i]);
    forall j | 0 <= j < |caches| && j != i
      ensures caches[j].Valid() && caches[j].View() == old(caches[j].View())
    {}
  }

  /** The first `n` caches extended, the others as they were. */
  ghost function Partly(m: Model, x: seq<Row>, before: seq<Cache>, n: nat): (r: seq<Cache>)
    requires m.Valid() && Wide(x, m.config.hidden) && ValidCaches(m, before) && n <= |before|
    ensures |r| == |before|
  {
    CachesAfter(m, x, before)[..n] + before[n..]
  }

  lemma PartlyNext(m: Model, x: seq<Row>, before: seq<Cache>, n: nat)
    requires m.Valid() && Wide(x, m.config.hidden) && ValidCaches(m, before) && n < |before|
    ensures Partly(m, x, before, n)[n] == before[n]
    ensures Partly(m, x, before, n + 1)
            == Partly(m, x, before, n)[n := Extended(m.ar, m.config, m.layers[n], Through(m, x, before, n), before[n])]
  {
    hide Extended, Through;
  }

  lemma PartlyEnds(m: Model, x: seq<Row>, before: seq<Cache>)
    requires m.Valid() && Wide(x, m.config.hidden) && ValidCaches(m, before)
    ensures Partly(m, x, before, 0) == before && Partly(m, x, before, |before|) == CachesAfter(m, x, before)
  {}

  /** The rows through all layers, extending every cache. It refuses rows that do not fit before it has done
      anything, and gives up before the first layer at which the request is found cancelled. */
  method Forward(m: Model, input: Matrix, position: nat, caches: seq<LayerKvCache>, cancelled: nat -> bool,
                 ghost length: nat, ghost capacity: nat) returns (r: Result<Matrix>)
    requires m.Valid() && |m.layers| > 0 && input.Valid() && Separate(caches) && Uniform(m, caches, length, capacity)
    requires input.values !in Arrays(caches) && input.columns == m.config.hidden
    modifies Footprint(caches)
    ensures forall i :: 0 <= i < |caches| ==> caches[i].Valid()
    ensures r.Ok? <==> Fit(m, input.rows, position, length, capacity) && forall i: nat :: i < |m.layers| ==> !cancelled(i)
    ensures r.Err? ==> r.error == Internal
    ensures !Fit(m, input.rows, position, length, capacity) ==> Views(caches) == old(Views(caches))
    ensures r.Ok? ==>
              && r.value.Valid() && r.value.values !in Arrays(caches) && r.value.rows == input.rows && r.value.columns == m.config.hidden
              && Uniform(m, caches, position + input.rows, capacity)
              && ValidCaches(m, old(Views(caches))) && Wide(old(input.View()), m.config.hidden)
              && r.value.View() == Output(m, old(input.View()), old(Views(caches)))
              && Views(caches) == CachesAfter(m, old(input.View()), old(Views(caches)))
  {
    hide Matrix.View, LayerKvCache.View, ValidConfig, ValidWeights, Through, CachesAfter, Extended, LayerOutput, Model.Valid, Separate,
         Views, Partly, Footprint;
    ViewsFit(m, caches, length, capacity);
    ghost var x, before := input.View(), Views(caches);
    var output := input;
    ThroughNothing(m, x, before);
    PartlyEnds(m, x, before);
    for i := 0 to |m.layers|
      invariant output.Valid() && output.rows == input.rows && output.columns == m.config.hidden && output.values !in Arrays(caches)
      invariant output.View() == Through(m, x, before, i)
      invariant forall j :: 0 <= j < |caches| ==> caches[j].Valid()
      invariant Views(caches) == Partly(m, x, before, i)
      invariant i > 0 ==> Fit(m, input.rows, position, length, capacity)
      invariant forall j: nat :: j < i ==> !cancelled(j)
    {
      if cancelled(i) {
        return Err(Internal);
      }
      ThroughNext(m, x, before, i);
      PartlyNext(m, x, before, i);
      InFootprint(caches, i);
      assert caches[i].View() == before[i];
      var next := ForwardLayer(m, i, output, position, caches);
      if next.Err? {
        return next;
      }
      output := next.value;
    }
    r := Ok(output);
  }

  lemma InFootprint(caches: seq<LayerKvCache>, i: nat)
    requires i < |caches|
    ensures {caches[i] as object, caches[i].keys, caches[i].values} <= Footprint(caches)
  {}

  lemma ThroughNothing(m: Model, x: seq<Row>, caches: seq<Cache>)
    requires m.Valid() && Wide(x, m.config.hidden) && ValidCaches(m, caches)
    ensures Through(m, x, caches, 0) == x && Output(m, x, caches) == Through(m, x, caches, |m.layers|)
  {}
}
