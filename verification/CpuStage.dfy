/** The CPU reference's stage: one execution, from its input to its output, on caches that change in place. */
module CpuStage {
  import opened Numbers
  import opened Results
  import opened Transformer
  import opened ChunkedPrefill
  import opened Stage
  import opened Matrices
  import opened KvCache
  import opened LayerStack
  import Half
  import Rounding

  /** The sequence state of one request on this stage. */
  class Sequence {
    const caches: seq<LayerKvCache>
    const capacity: nat
    var prefilling: bool
    var prefillOnly: bool
    var drawn: nat

    /** Positions that every layer has seen. */
    ghost function Length(): nat
      reads set i | 0 <= i < |caches| :: caches[i]
    {
      if caches == [] then 0 else caches[0].length
    }

    ghost predicate Valid(m: Model)
      reads set i | 0 <= i < |caches| :: caches[i]
    {
      Separate(caches) && Uniform(m, caches, Length(), capacity)
    }

    ghost function View(): State
      requires forall i :: 0 <= i < |caches| ==> caches[i].Valid()
      reads this, (set i | 0 <= i < |caches| :: caches[i]), Footprint(caches)
    {
      State(Views(caches), capacity, prefilling, prefillOnly, drawn)
    }

    constructor (caches: seq<LayerKvCache>, capacity: nat)
      ensures this.caches == caches && this.capacity == capacity && !prefilling && !prefillOnly && drawn == 0
    {
      this.caches, this.capacity := caches, capacity;
      prefilling, prefillOnly, drawn := false, false, 0;
    }
  }

  /** A cache for each layer, with room for `tokens` positions, unless a cache's size is not representable. */
  method Allocate(d: Dense, tokens: nat) returns (r: Result<Sequence>)
    requires d.Valid()
    ensures r.Ok? <==>
              AllocateSequence(d, tokens).Ok? && tokens * (d.model.config.keyValueHeads * d.model.config.headDimension) <= MAXIMUM_SIZE
    ensures r.Ok? ==> fresh(r.value) && r.value.Valid(d.model) && AllocateSequence(d, tokens) == Ok(r.value.View())
  {
    if tokens == 0 || tokens > d.model.config.maximumLength {
      return Err(InvalidRequest);
    }
    var caches: seq<LayerKvCache> := [];
    for i := 0 to |d.model.layers|
      invariant |caches| == i && Separate(caches)
      invariant forall j :: 0 <= j < i ==> fresh(caches[j]) && fresh(caches[j].keys) && fresh(caches[j].values)
      invariant forall j :: 0 <= j < i ==> NewFor(d.model.config, caches[j], tokens)
      invariant i > 0 ==> tokens * (d.model.config.keyValueHeads * d.model.config.headDimension) <= MAXIMUM_SIZE
    {
      var cache := NewCache(tokens, d.model.config.keyValueHeads, d.model.config.headDimension);
      if cache.Err? {
        return Err(cache.error);
      }
      caches := caches + [cache.value];
    }
    var sequence := new Sequence(caches, tokens);
    assert sequence.View().caches == Fresh(d.model);
    r := Ok(sequence);
  }

  ghost predicate NewFor(c: Config, cache: LayerKvCache, tokens: nat)
    reads cache, cache.keys, cache.values
  {
    cache.Valid() && cache.View() == Cache([], []) && cache.capacity == tokens && cache.heads == c.keyValueHeads && cache.width == c.headDimension
  }

  // ---------------------------------------------------------------------------- inputs

  /** Writes row `row`. */
  method SetRow(m: Matrix, row: nat, x: Row)
    requires m.Valid() && row < m.rows && |x| == m.columns
    modifies m.values
    ensures OnlyRow(old(m.View()), m.View(), row, x)
  {
    for c := 0 to |x|
      invariant forall k :: 0 <= k < m.rows && k != row ==> m.View()[k] == old(m.View())[k]
      invariant forall k :: 0 <= k < c ==> m.View()[row][k] == x[k]
    {
      m.Set(row, c, x[c]);
    }
    assert m.View()[row] == x;
  }

  /** The rows of the token table. */
  method EmbedTokens(d: Dense, ids: seq<nat>) returns (r: Result<Matrix>)
    requires d.Valid()
    ensures r.Ok? <==> Incoming(d, Tokens(ids)).Ok?
    ensures r.Err? ==> r.error == InvalidRequest
    ensures r.Ok? ==> IsInput(d, Tokens(ids), r.value) && fresh(r.value.values)
  {
    hide Matrix.View, Model.Valid;
    if !d.first || |ids| == 0 || |ids| > d.model.config.maximumLength {
      return Err(InvalidRequest);
    }
    var output := new Matrix(|ids|, d.Hidden());
    for row := 0 to |ids|
      invariant forall k :: 0 <= k < row ==> ids[k] < d.vocabulary && output.View()[k] == d.embedding[ids[k]]
    {
      if ids[row] >= d.vocabulary {
        return Err(InvalidRequest);
      }
      SetRow(output, row, d.embedding[ids[row]]);
    }
    assert output.View() == Embed(d, ids);
    r := Ok(output);
  }

  /** The matrix holds the rows that the input stands for. */
  ghost predicate IsInput(d: Dense, input: Input, m: Matrix)
    requires d.Valid()
    reads m.values
  {
    m.Valid() && m.columns == d.Hidden() && Incoming(d, input) == Ok(m.View())
  }

  lemma {:induction false} UnflattenAt(flat: Row, width: nat, rows: nat, r: nat)
    requires |flat| == rows * width && r < rows
    ensures r * width + width <= |flat| && Unflatten(flat, width, rows)[r] == flat[r * width..r * width + width]
    decreases rows
  {
    HeadFits(r, rows, width);
    HeadFits(0, rows, width);
    if r > 0 {
      Distribute(rows - 1, 1, width);
      Distribute(r - 1, 1, width);
      UnflattenAt(flat[width..], width, rows - 1, r - 1);
      assert flat[width..][(r - 1) * width..(r - 1) * width + width] == flat[r * width..r * width + width];
    }
  }

  /** A matrix is its flat array cut into rows. */
  lemma ViewUnflattens(m: Matrix)
    requires m.Valid()
    ensures m.View() == Unflatten(m.values[..], m.columns, m.rows)
  {
    forall r: nat | r < m.rows
      ensures m.View()[r] == Unflatten(m.values[..], m.columns, m.rows)[r]
    {
      RowOfFlat(m, r);
      UnflattenAt(m.values[..], m.columns, m.rows, r);
    }
  }

  /** The activation of a boundary message. */
  method FromWire(d: Dense, b: Boundary) returns (r: Result<Matrix>)
    requires d.Valid()
    ensures r.Ok? <==> Incoming(d, Activation(b)).Ok?
    ensures r.Err? ==> r.error == InvalidRequest
    ensures r.Ok? ==> IsInput(d, Activation(b), r.value) && fresh(r.value.values)
  {
    hide Matrix.View, Model.Valid, Half.Widen, Unflatten, Half.Finite;
    if d.first || b.width != d.Hidden() || b.tokens == 0 || |b.payload| != b.tokens * b.width * 2 {
      return Err(InvalidRequest);
    }
    ghost var flat := Decode(b.payload);
    var output := new Matrix(b.tokens, b.width);
    for i := 0 to output.values.Length
      invariant forall k :: 0 <= k < i ==> output.values[k] == flat[k] && FiniteScalar(flat[k])
    {
      var value := WidenBytes(b.payload[2 * i], b.payload[2 * i + 1]);
      output.values[i] := value;
      if !FiniteScalar(value) {
        assert flat[i] == value && !FiniteScalars(flat);
        return Err(InvalidRequest);
      }
    }
    assert output.values[..] == flat;
    ViewUnflattens(output);
    r := Ok(output);
  }

  predicate FiniteScalar(x: Scalar) {
    Half.Finite(Half.Binary.Float32, Half.Magnitude32(x))
  }

  // ---------------------------------------------------------------------------- outputs

  lemma {:induction false} FlattenUnflatten(flat: Row, width: nat, rows: nat)
    requires |flat| == rows * width
    ensures Flatten(Unflatten(flat, width, rows)) == flat
    decreases rows
  {
    if rows > 0 {
      Distribute(rows - 1, 1, width);
      HeadFits(0, rows, width);
      FlattenUnflatten(flat[width..], width, rows - 1);
      assert Unflatten(flat, width, rows)[1..] == Unflatten(flat[width..], width, rows - 1);
      assert flat == flat[..width] + flat[width..];
    }
  }

  /** A half is finite exactly if it widens to a finite value. */
  lemma FiniteWidened(half: Half.Bits16)
    ensures FiniteScalar(Half.Widen(half)) <==> Half.Finite(Half.Binary.Float16, Half.Magnitude16(half))
  {
    hide Half.Widen;
    Rounding.WidenKeepsClass(half);
    if Half.Finite(Half.Binary.Float16, Half.Magnitude16(half)) {
      Rounding.WidenIsExact(half);
    }
  }

  /** A stage takes the tokens of its vocabulary if it is the first, and otherwise activations of its width without
      an infinity or a NaN: no high byte has all the exponent's bits. */
  lemma TakesExactly(d: Dense, input: Input)
    requires d.Valid()
    ensures Incoming(d, input).Ok? <==>
              match input
              case Tokens(ids) =>
                && d.first && 0 < |ids| <= d.model.config.maximumLength
                && forall i :: 0 <= i < |ids| ==> ids[i] < d.vocabulary
              case Activation(b) =>
                && !d.first && b.width == d.Hidden() && b.tokens > 0 && |b.payload| == b.tokens * b.width * 2
                && forall k :: 0 <= k < |b.payload| && k % 2 == 1 ==> b.payload[k] / 4 % 32 != 31
  {
    hide Dense.Valid, FiniteScalars, Unflatten, Decode;
    if input.Activation? && |input.boundary.payload| % 2 == 0 {
      FiniteBytes(input.boundary.payload);
    }
  }

  lemma FiniteBytes(p: seq<Byte>)
    requires |p| % 2 == 0
    ensures FiniteScalars(Decode(p)) <==> forall k :: 0 <= k < |p| && k % 2 == 1 ==> p[k] / 4 % 32 != 31
  {
    hide Half.Widen, Half.Finite;
    var x := Decode(p);
    forall i | 0 <= i < |x|
      ensures FiniteScalar(x[i]) <==> p[2 * i + 1] / 4 % 32 != 31
    {
      FinitePair(p[2 * i], p[2 * i + 1]);
    }
    if FiniteScalars(x) {
      forall k | 0 <= k < |p| && k % 2 == 1
        ensures p[k] / 4 % 32 != 31
      {
        assert k == 2 * (k / 2) + 1 && FiniteScalar(x[k / 2]);
      }
    }
  }

  lemma FinitePair(low: Byte, high: Byte)
    ensures FiniteScalar(WidenBytes(low, high)) <==> high / 4 % 32 != 31
  {
    hide Half.Widen;
    FiniteWidened(low + 0x100 * high);
    HighByteIs(low, high);
  }

  lemma HighByteIs(low: Byte, high: Byte)
    ensures Half.Finite(Half.Binary.Float16, Half.Magnitude16(low + 0x100 * high)) <==> high / 4 % 32 != 31
  {}

  /** An execution that succeeds ran on as many cached positions as it was told, and left them and its own rows,
      within the model's and the sequence's length. */
  lemma ExecutesInPlace(d: Dense, s: Sampler, input: Input, position: nat, st: State)
    requires d.Valid() && ValidCaches(d.model, st.caches) && Execute(d, s, input, position, st).Ok?
    ensures Incoming(d, input).Ok?
    ensures var rows, after := |Incoming(d, input).value|, Execute(d, s, input, position, st).value.1;
            && position + rows <= d.model.config.maximumLength && position + rows <= st.capacity == after.capacity
            && |after.caches| == |st.caches|
            && forall i :: 0 <= i < |st.caches| ==> |st.caches[i].keys| == position && |after.caches[i].keys| == position + rows
  {
    hide Dense.Valid, FiniteScalars, Unflatten, Decode, Incoming, ChunkedPrefill.Output;
    var rows := Incoming(d, input).value;
    CachesLengthen(d, rows, st.caches);
  }

  lemma CachesLengthen(d: Dense, rows: seq<Row>, caches: seq<Cache>)
    requires d.Valid() && Wide(rows, d.Hidden()) && ValidCaches(d.model, caches)
    ensures var after := CachesAfter(d.model, rows, caches);
            |after| == |caches| && forall i :: 0 <= i < |caches| ==> |after[i].keys| == |caches[i].keys| + |rows|
  {}

  lemma {:induction false} FlatFinite(x: seq<Row>)
    ensures FiniteRows(x) <==> FiniteRow(Flatten(x))
  {
    if x != [] {
      FlatFinite(x[1..]);
      var flat := Flatten(x);
      assert flat == x[0] + Flatten(x[1..]);
      FiniteJoin(x[0], Flatten(x[1..]));
      assert FiniteRows(x) <==> FiniteRow(x[0]) && FiniteRows(x[1..]);
    }
  }

  lemma FiniteJoin(a: Row, b: Row)
    ensures FiniteRow(a + b) <==> FiniteRow(a) && FiniteRow(b)
  {
    hide FiniteHalf;
    if FiniteRow(a + b) {
      forall i | 0 <= i < |a|
        ensures FiniteHalf(a[i])
      {
        assert (a + b)[i] == a[i];
      }
      forall i | 0 <= i < |b|
        ensures FiniteHalf(b[i])
      {
        assert (a + b)[|a| + i] == b[i];
      }
    }
  }

  /** The boundary message of a stage's rows, if every element is finite as a half. */
  method ToWire(hidden: Matrix) returns (r: Result<Boundary>)
    requires hidden.Valid()
    ensures r.Ok? <==> FiniteRows(hidden.View())
    ensures r.Err? ==> r.error == Internal
    ensures r.Ok? ==> r.value == Boundary(hidden.rows, hidden.columns, Encode(Flatten(hidden.View())))
  {
    hide Matrix.View, Half.Widen, Half.Narrow, Half.Finite, Unflatten, Flatten, FiniteRows;
    ghost var flat := hidden.values[..];
    ViewUnflattens(hidden);
    FlattenUnflatten(flat, hidden.columns, hidden.rows);
    FlatFinite(hidden.View());
    var payload := new Byte[2 * hidden.values.Length](_ => 0);
    for i := 0 to hidden.values.Length
      invariant hidden.values[..] == flat
      invariant forall k :: 0 <= k < i ==> FiniteHalf(flat[k])
      invariant forall k :: 0 <= k < 2 * i ==> payload[k] == Encode(flat)[k]
    {
      var bits := Half.Narrow(hidden.values[i]);
      FiniteWidened(bits);
      if !FiniteScalar(Half.Widen(bits)) {
        return Err(Internal);
      }
      payload[2 * i] := bits % 0x100;
      payload[2 * i + 1] := bits / 0x100;
    }
    assert payload[..] == Encode(flat);
    r := Ok(Boundary(hidden.rows, hidden.columns, payload[..]));
  }

  /** The logits of the last row. */
  method LastLogits(d: Dense, hidden: Matrix) returns (logits: Row)
    requires d.Valid() && d.final && hidden.Valid() && hidden.rows > 0 && hidden.columns == d.Hidden()
    ensures logits == Logits(d, hidden.View()[hidden.rows - 1])
  {
    hide Matrix.View, Model.Valid, NormRow, LinearRow;
    ModelIsPositive(d.model);
    ghost var x := hidden.View()[hidden.rows - 1];
    var last := new Matrix(1, hidden.columns);
    for c := 0 to hidden.columns
      invariant hidden.View()[hidden.rows - 1] == x
      invariant forall k :: 0 <= k < c ==> last.View()[0][k] == x[k]
    {
      hidden.Seen(hidden.rows - 1, c);
      last.Set(0, c, hidden.Get(hidden.rows - 1, c));
    }
    assert last.View()[0] == x;
    assert last.View() == [x];
    var normalized := RmsNorm(d.model.ar, last, d.norm, d.model.config.epsilon);
    var product := Linear(d.model.ar, normalized.value, d.head);
    RowOfFlat(product.value, 0);
    logits := product.value.values[..];
  }

  lemma ModelIsPositive(m: Model)
    requires m.Valid()
    ensures m.ar.positive(m.config.epsilon)
  {}

  // ---------------------------------------------------------------------------- one execution

  lemma AcceptsFit(d: Dense, sequence: Sequence, position: nat, count: nat)
    requires d.Valid() && sequence.Valid(d.model) && count > 0
    ensures Accepts(d, sequence.View(), position, count) <==> Fit(d.model, count, position, sequence.Length(), sequence.capacity)
  {
    ViewsFit(d.model, sequence.caches, sequence.Length(), sequence.capacity);
    assert |sequence.View().caches| > 0 && |sequence.View().caches[0].keys| == sequence.Length();
  }

  /** Executes the stage. If the request is not found cancelled before any layer, the result and the state
      afterwards are those of `Execute`; otherwise it fails. */
  method Run(d: Dense, s: Sampler, input: Input, position: nat, sequence: Sequence, cancelled: nat -> bool) returns (r: Result<Output>)
    requires d.Valid() && sequence.Valid(d.model)
    modifies sequence, Footprint(sequence.caches)
    ensures ValidCaches(d.model, old(sequence.View()).caches)
    ensures (exists i: nat :: i < |d.model.layers| && cancelled(i)) ==> r.Err?
    ensures (forall i: nat :: i < |d.model.layers| ==> !cancelled(i)) ==>
              match Execute(d, s, input, position, old(sequence.View()))
              case Err(e) => r == Err(e)
              case Ok((output, after)) => r == Ok(output) && sequence.Valid(d.model) && sequence.View() == after
  {
    hide Matrix.View, Sequence.Valid, Sequence.Length, Sequence.View, Emit, Incoming, Accepts, Fit, Dense.Valid, ValidCaches, CachesAfter,
         ChunkedPrefill.Output;
    SequenceFits(d.model, sequence);
    var hidden := Read(d, input);
    if hidden.Err? {
      return Err(hidden.error);
    }
    AcceptsFit(d, sequence, position, hidden.value.rows);
    var forwarded := Advance(d, hidden.value, position, sequence, cancelled);
    if forwarded.Err? {
      return Err(forwarded.error);
    }
    r := Finish(d, s, forwarded.value, sequence);
  }

  lemma SequenceFits(m: Model, sequence: Sequence)
    requires sequence.Valid(m)
    ensures (forall i :: 0 <= i < |sequence.caches| ==> sequence.caches[i].Valid()) && ValidCaches(m, sequence.View().caches)
  {
    ViewsFit(m, sequence.caches, sequence.Length(), sequence.capacity);
  }

  method Read(d: Dense, input: Input) returns (r: Result<Matrix>)
    requires d.Valid()
    ensures match Incoming(d, input)
            case Err(e) => r == Err(e)
            case Ok(x) => r.Ok? && r.value.Valid() && r.value.columns == d.Hidden() && r.value.View() == x && fresh(r.value.values)
    ensures r.Ok? ==> r.value.rows > 0
  {
    hide Matrix.View, Dense.Valid;
    OnlyInvalid(d, input);
    match input {
      case Tokens(ids) => r := EmbedTokens(d, ids);
      case Activation(b) => r := FromWire(d, b);
    }
  }

  lemma OnlyInvalid(d: Dense, input: Input)
    requires d.Valid()
    ensures Incoming(d, input).Err? ==> Incoming(d, input).error == InvalidRequest
  {}

  /** The layers over the rows, on the sequence's caches. */
  method Advance(d: Dense, hidden: Matrix, position: nat, sequence: Sequence, cancelled: nat -> bool) returns (r: Result<Matrix>)
    requires d.Valid() && sequence.Valid(d.model)
    requires hidden.Valid() && hidden.rows > 0 && hidden.columns == d.Hidden() && hidden.values !in Arrays(sequence.caches)
    modifies Footprint(sequence.caches)
    ensures r.Ok? <==> Fit(d.model, hidden.rows, position, old(sequence.Length()), sequence.capacity) && forall i: nat :: i < |d.model.layers| ==> !cancelled(i)
    ensures r.Err? ==> r.error == Internal
    ensures ValidCaches(d.model, old(sequence.View()).caches) && Wide(old(hidden.View()), d.Hidden())
    ensures r.Ok? ==>
              && sequence.Valid(d.model) && r.value.Valid() && r.value.rows == hidden.rows && r.value.columns == d.Hidden()
              && r.value.View() == ChunkedPrefill.Output(d.model, old(hidden.View()), old(sequence.View()).caches)
              && sequence.View() == old(sequence.View()).(caches := CachesAfter(d.model, old(hidden.View()), old(sequence.View()).caches))
  {
    InNoFootprint(sequence);
    hide Matrix.View, Views, Separate, CachesAfter, ChunkedPrefill.Output, Model.Valid, Footprint;
    ViewsFit(d.model, sequence.caches, sequence.Length(), sequence.capacity);
    r := Forward(d.model, hidden, position, sequence.caches, cancelled, sequence.Length(), sequence.capacity);
  }

  lemma InNoFootprint(sequence: Sequence)
    ensures sequence !in Footprint(sequence.caches)
  {}

  /** The output of the rows that came through the layers. */
  method Finish(d: Dense, s: Sampler, hidden: Matrix, sequence: Sequence) returns (r: Result<Output>)
    requires d.Valid() && sequence.Valid(d.model)
    requires hidden.Valid() && hidden.rows > 0 && hidden.columns == d.Hidden()
    modifies sequence`drawn
    ensures sequence.Valid(d.model)
    ensures match Emit(d, s, hidden.View(), old(sequence.View()))
            case Err(e) => r == Err(e)
            case Ok((output, after)) => r == Ok(output) && sequence.View() == after
  {
    hide Matrix.View, Views, Separate, Model.Valid, Encode, Flatten, Logits, FiniteRows;
    if d.final {
      if sequence.prefillOnly {
        return Ok(Progress);
      }
      var logits := LastLogits(d, hidden);
      var token := s.Choose(logits, sequence.drawn);
      if token.None? {
        return Err(Internal);
      }
      if !s.greedy {
        sequence.drawn := sequence.drawn + 1;
      }
      return Ok(Sampled(token.value));
    }
    var boundary := ToWire(hidden);
    r := if boundary.Ok? then Ok(Hidden(boundary.value)) else Err(boundary.error);
  }
}
