/** One pipeline stage as the CPU reference backend runs it, and a split pipeline's meaning. */
module Stage {
  import opened Transformer
  import opened ChunkedPrefill
  import opened Results
  import Half
  import Rounding

  type Byte = n: nat | n < 0x100

  /** Host form of the activations that leave a stage: little-endian halves, row by row. */
  datatype Boundary = Boundary(tokens: nat, width: nat, payload: seq<Byte>)

  datatype Input = Tokens(ids: seq<nat>) | Activation(boundary: Boundary)

  datatype Output = Hidden(boundary: Boundary) | Sampled(token: nat) | Progress

  /** How a request samples; `draw` also takes the number of tokens drawn before. */
  datatype Sampler = Sampler(greedy: bool, best: Row -> Option<nat>, draw: (Row, nat) -> Option<nat>) {
    function Choose(logits: Row, drawn: nat): Option<nat> {
      if greedy then best(logits) else draw(logits, drawn)
    }

    /** What sampling promises: a token of the vocabulary. */
    ghost predicate Valid() {
      forall logits: Row, drawn: nat :: Choose(logits, drawn).Some? ==> Choose(logits, drawn).value < |logits|
    }
  }

  datatype Dense = Dense(
    model: Model, vocabulary: nat, embedding: seq<Row>, head: seq<Row>, norm: Row, first: bool, final: bool)
  {
    predicate Valid() {
      && model.Valid() && |model.layers| > 0 && vocabulary > 0
      && (first ==> Shaped(embedding, vocabulary, model.config.hidden))
      && (final ==> Shaped(head, vocabulary, model.config.hidden) && |norm| == model.config.hidden)
    }

    function Hidden(): nat {
      model.config.hidden
    }
  }

  /** The state a sequence keeps on one stage. */
  datatype State = State(caches: seq<Cache>, capacity: nat, prefilling: bool, prefillOnly: bool, drawn: nat)

  function Fresh(m: Model): (r: seq<Cache>)
    ensures |r| == |m.layers| && (m.Valid() ==> ValidCaches(m, r))
  {
    seq(|m.layers|, _ => Cache([], []))
  }

  /** A fresh sequence with room for `tokens` positions. */
  function AllocateSequence(d: Dense, tokens: nat): Result<State> {
    if tokens == 0 || tokens > d.model.config.maximumLength then Err(InvalidRequest)
    else Ok(State(Fresh(d.model), tokens, false, false, 0))
  }

  // ---------------------------------------------------------------------------- wire form

  function Encode(x: Row): (p: seq<Byte>)
    ensures |p| == 2 * |x|
  {
    seq(2 * |x|, j requires 0 <= j < 2 * |x| => ByteOf(Half.Narrow(x[j / 2]), j % 2))
  }

  function ByteOf(half: Half.Bits16, index: nat): Byte {
    if index == 0 then half % 0x100 else half / 0x100
  }

  function Decode(p: seq<Byte>): (x: Row)
    requires |p| % 2 == 0
    ensures |x| == |p| / 2
  {
    seq<Scalar>(|p| / 2, i requires 0 <= i < |p| / 2 => WidenBytes(p[2 * i], p[2 * i + 1]))
  }

  function WidenBytes(low: Byte, high: Byte): Scalar {
    Half.Widen(low + 0x100 * high)
  }

  function QuantizeRow(x: Row): (y: Row)
    ensures |y| == |x|
  {
    seq<Scalar>(|x|, i requires 0 <= i < |x| => Half.Quantize(x[i]))
  }

  lemma DecodeEncode(x: Row)
    ensures Decode(Encode(x)) == QuantizeRow(x)
  {
    hide Half.Narrow, Half.Widen;
    forall i | 0 <= i < |x|
      ensures Decode(Encode(x))[i] == Half.Quantize(x[i])
    {
      var half := Half.Narrow(x[i]);
      assert Encode(x)[2 * i] == half % 0x100 && Encode(x)[2 * i + 1] == half / 0x100;
    }
  }

  predicate FiniteHalf(x: Scalar) {
    Half.Finite(Half.Binary.Float16, Half.Magnitude16(Half.Narrow(x)))
  }

  predicate FiniteRow(x: Row) {
    forall i :: 0 <= i < |x| ==> FiniteHalf(x[i])
  }

  predicate FiniteRows(x: seq<Row>) {
    forall r :: 0 <= r < |x| ==> FiniteRow(x[r])
  }

  function QuantizeRows(x: seq<Row>): (y: seq<Row>)
    ensures |y| == |x|
  {
    seq(|x|, r requires 0 <= r < |x| => QuantizeRow(x[r]))
  }

  /** Cuts a flat activation into `rows` rows. */
  function Unflatten(flat: Row, width: nat, rows: nat): (x: seq<Row>)
    requires |flat| == rows * width
    ensures |x| == rows && Wide(x, width)
  {
    if rows == 0 then []
    else
      assert rows * width == width + (rows - 1) * width;
      [flat[..width]] + Unflatten(flat[width..], width, rows - 1)
  }

  // ---------------------------------------------------------------------------- one execution

  predicate FiniteScalars(x: Row) {
    forall i :: 0 <= i < |x| ==> Half.Finite(Half.Binary.Float32, Half.Magnitude32(x[i]))
  }

  function Embed(d: Dense, ids: seq<nat>): (x: seq<Row>)
    requires d.Valid() && d.first && forall i :: 0 <= i < |ids| ==> ids[i] < d.vocabulary
    ensures |x| == |ids| && Wide(x, d.Hidden())
  {
    seq(|ids|, i requires 0 <= i < |ids| => d.embedding[ids[i]])
  }

  /** The rows an input stands for. */
  function Incoming(d: Dense, input: Input): (r: Result<seq<Row>>)
    requires d.Valid()
    ensures r.Ok? ==> Wide(r.value, d.Hidden()) && r.value != []
  {
    match input
    case Tokens(ids) =>
      if !d.first || ids == [] || |ids| > d.model.config.maximumLength then Err(InvalidRequest)
      else if exists i :: 0 <= i < |ids| && ids[i] >= d.vocabulary then Err(InvalidRequest)
      else Ok(Embed(d, ids))
    case Activation(b) =>
      if d.first || b.width != d.Hidden() || b.tokens == 0 || |b.payload| != b.tokens * b.width * 2 then Err(InvalidRequest)
      else
        var flat := Decode(b.payload);
        if FiniteScalars(flat) then Ok(Unflatten(flat, b.width, b.tokens)) else Err(InvalidRequest)
  }

  /** Every layer takes `count` rows at `position`: they follow its cached positions and fit. */
  predicate Accepts(d: Dense, st: State, position: nat, count: nat) {
    && position + count <= d.model.config.maximumLength
    && position + count <= st.capacity
    && forall i :: 0 <= i < |st.caches| ==> |st.caches[i].keys| == position
  }

  function Logits(d: Dense, last: Row): (r: Row)
    requires d.Valid() && d.final && |last| == d.Hidden()
    ensures |r| == d.vocabulary
  {
    LinearRow(d.model.ar, NormRow(d.model.ar, last, d.norm, d.model.config.epsilon), d.head)
  }

  /** What the stage emits once its layers have made `out` of the input and `next` of the state. */
  function Emit(d: Dense, s: Sampler, out: seq<Row>, next: State): (r: Result<(Output, State)>)
    requires d.Valid() && out != [] && Wide(out, d.Hidden())
    ensures r.Ok? ==> r.value.1.caches == next.caches
  {
    if d.final then
      if next.prefillOnly then Ok((Progress, next))
      else
        match s.Choose(Logits(d, out[|out| - 1]), next.drawn)
        case None => Err(Internal)
        case Some(token) => Ok((Sampled(token), if s.greedy then next else next.(drawn := next.drawn + 1)))
    else if FiniteRows(out) then Ok((Hidden(Boundary(|out|, d.Hidden(), Encode(Flatten(out)))), next))
    else Err(Internal)
  }

  function Execute(d: Dense, s: Sampler, input: Input, position: nat, st: State): (r: Result<(Output, State)>)
    requires d.Valid() && ValidCaches(d.model, st.caches)
    ensures r.Ok? ==> ValidCaches(d.model, r.value.1.caches)
  {
    var rows :- Incoming(d, input);
    if !Accepts(d, st, position, |rows|) then Err(Internal)
    else
      Emit(d, s, ChunkedPrefill.Output(d.model, rows, st.caches), st.(caches := CachesAfter(d.model, rows, st.caches)))
  }

  // ---------------------------------------------------------------------------- handing a boundary over

  lemma {:induction false} FlattenLength(x: seq<Row>, width: nat)
    requires Wide(x, width)
    ensures |Flatten(x)| == |x| * width
  {
    if x != [] {
      FlattenLength(x[1..], width);
      assert |x| * width == width + (|x| - 1) * width;
    }
  }

  lemma {:induction false} UnflattenFlatten(x: seq<Row>, width: nat)
    requires Wide(x, width)
    ensures |Flatten(x)| == |x| * width && Unflatten(Flatten(x), width, |x|) == x
  {
    FlattenLength(x, width);
    if x != [] {
      UnflattenFlatten(x[1..], width);
      assert Flatten(x)[..width] == x[0] && Flatten(x)[width..] == Flatten(x[1..]);
    }
  }

  lemma QuantizeJoin(x: Row, y: Row)
    ensures QuantizeRow(x + y) == QuantizeRow(x) + QuantizeRow(y)
  {
    hide Half.Quantize;
    forall i | 0 <= i < |x + y|
      ensures QuantizeRow(x + y)[i] == (QuantizeRow(x) + QuantizeRow(y))[i]
    {
      assert QuantizeRow(x + y)[i] == Half.Quantize((x + y)[i]);
    }
  }

  lemma {:induction false} QuantizeFlatten(x: seq<Row>)
    ensures QuantizeRow(Flatten(x)) == Flatten(QuantizeRows(x))
  {
    hide QuantizeRow;
    if x == [] {
      QuantizeNothing();
    } else {
      QuantizeFlatten(x[1..]);
      QuantizeJoin(x[0], Flatten(x[1..]));
      assert QuantizeRows(x)[1..] == QuantizeRows(x[1..]);
    }
  }

  lemma QuantizeNothing()
    ensures QuantizeRow([]) == []
  {}

  /** Finite halves widen to finite scalars. */
  lemma QuantizedIsFinite(x: Row)
    requires FiniteRow(x)
    ensures FiniteScalars(QuantizeRow(x))
  {
    hide Half.Narrow, Half.Widen;
    forall i | 0 <= i < |x|
      ensures Half.Finite(Half.Binary.Float32, Half.Magnitude32(QuantizeRow(x)[i]))
    {
      Rounding.WidenIsExact(Half.Narrow(x[i]));
    }
  }

  lemma {:induction false} FiniteFlatten(x: seq<Row>)
    requires FiniteRows(x)
    ensures FiniteRow(Flatten(x))
  {
    if x != [] {
      FiniteFlatten(x[1..]);
    }
  }

  /** The boundary one stage emits is read by the next as the quantized rows. */
  lemma BoundaryIsQuantized(d: Dense, x: seq<Row>)
    requires d.Valid() && !d.first && x != [] && Wide(x, d.Hidden()) && FiniteRows(x)
    ensures Incoming(d, Activation(Boundary(|x|, d.Hidden(), Encode(Flatten(x))))) == Ok(QuantizeRows(x))
  {
    hide Encode, Decode, QuantizeRow, Unflatten, Flatten, FiniteScalars;
    var flat := Flatten(x);
    DecodeEncode(flat);
    FlattenLength(x, d.Hidden());
    FiniteFlatten(x);
    QuantizedIsFinite(flat);
    QuantizeFlatten(x);
    UnflattenFlatten(QuantizeRows(x), d.Hidden());
  }
}
