/** Row-major matrices over one flat array, and the operations that write them. */
module Matrices {
  import opened Results
  import opened Transformer
  import opened ChunkedPrefill
  import Half
  import Rounding
  import Stage

  /** Where element (`r`, `c`) lies in a flat array of rows of `columns` elements. */
  function Index(columns: nat, r: nat, c: nat): nat {
    r * columns + c
  }

  lemma IndexWithin(rows: nat, columns: nat, r: nat, c: nat)
    requires r < rows && c < columns
    ensures Index(columns, r, c) < rows * columns && Index(columns, r, 0) + columns <= rows * columns
  {
    HeadFits(r, rows, columns);
  }

  lemma IndexApart(columns: nat, r: nat, c: nat, s: nat, d: nat)
    requires c < columns && d < columns && (r != s || c != d)
    ensures Index(columns, r, c) != Index(columns, s, d)
  {
    if r < s {
      HeadFits(r, s, columns);
    } else if s < r {
      HeadFits(s, r, columns);
    }
  }

  /** Rows `v` with one element replaced. */
  function Written(v: seq<Row>, r: nat, c: nat, x: Scalar): (w: seq<Row>)
    requires r < |v| && c < |v[r]|
    ensures |w| == |v| && forall k :: 0 <= k < |v| ==> |w[k]| == |v[k]| && (k != r ==> w[k] == v[k])
  {
    v[r := seq<Scalar>(|v[r]|, k requires 0 <= k < |v[r]| => if k == c then x else v[r][k])]
  }

  class Matrix {
    const rows: nat
    const columns: nat
    const values: array<Scalar>

    predicate Valid() {
      values.Length == rows * columns
    }

    /** The elements of a new matrix are zero. */
    constructor (rows: nat, columns: nat)
      ensures Valid() && this.rows == rows && this.columns == columns && fresh(values)
      ensures forall r, c :: 0 <= r < rows && 0 <= c < columns ==> Get(r, c) == ZERO
    {
      this.rows, this.columns := rows, columns;
      values := new Scalar[rows * columns](_ => ZERO);
      new;
      forall r, c | 0 <= r < rows && 0 <= c < columns
        ensures Get(r, c) == ZERO
      {
        IndexWithin(rows, columns, r, c);
      }
    }

    function Get(r: nat, c: nat): Scalar
      requires Valid() && r < rows && c < columns
      reads values
    {
      IndexWithin(rows, columns, r, c);
      values[Index(columns, r, c)]
    }

    ghost function View(): (v: seq<Row>)
      requires Valid()
      reads values
      ensures |v| == rows && Wide(v, columns)
    {
      seq(rows, r requires 0 <= r < rows reads values => seq<Scalar>(columns, c requires 0 <= c < columns reads values => Get(r, c)))
    }

    lemma Seen(r: nat, c: nat)
      requires Valid() && r < rows && c < columns
      ensures View()[r][c] == Get(r, c)
    {}

    /** Writing one element leaves all others alone. */
    method Set(r: nat, c: nat, x: Scalar)
      requires Valid() && r < rows && c < columns
      modifies values
      ensures View() == Written(old(View()), r, c, x)
    {
      IndexWithin(rows, columns, r, c);
      ghost var before := View();
      values[Index(columns, r, c)] := x;
      forall s, d | 0 <= s < rows && 0 <= d < columns
        ensures View()[s][d] == Written(before, r, c, x)[s][d]
      {
        IndexWithin(rows, columns, s, d);
        if s != r || d != c {
          IndexApart(columns, r, c, s, d);
        }
      }
      SameRows(View(), Written(before, r, c, x), columns);
    }
  }

  lemma SameRows(a: seq<Row>, b: seq<Row>, width: nat)
    requires |a| == |b| && Wide(a, width) && Wide(b, width)
    requires forall r, c :: 0 <= r < |a| && 0 <= c < width ==> a[r][c] == b[r][c]
    ensures a == b
  {
    forall r | 0 <= r < |a|
      ensures a[r] == b[r]
    {}
  }

  // ---------------------------------------------------------------------------- products

  /** The products of the rows with the weights. */
  function LinearRows(ar: Arith, x: seq<Row>, weights: seq<Row>): (y: seq<Row>)
    requires forall r :: 0 <= r < |x| ==> forall o :: 0 <= o < |weights| ==> |weights[o]| == |x[r]|
    ensures |y| == |x| && Wide(y, |weights|)
  {
    seq(|x|, r requires 0 <= r < |x| => LinearRow(ar, x[r], weights))
  }

  /** Row `row` of `after` is `y`, and the others are those of `before`. */
  predicate OnlyRow(before: seq<Row>, after: seq<Row>, row: nat, y: Row) {
    |after| == |before| && row < |after| && after[row] == y && forall k :: 0 <= k < |after| && k != row ==> after[k] == before[k]
  }

  method Product(ar: Arith, input: Matrix, row: nat, w: Row) returns (sum: Scalar)
    requires input.Valid() && row < input.rows && |w| == input.columns
    ensures sum == Dot(ar, input.View()[row], 0, w, 0, input.columns)
  {
    sum := ZERO;
    for inner := 0 to input.columns
      invariant sum == Dot(ar, input.View()[row], 0, w, 0, inner)
    {
      sum := ar.add(sum, ar.mul(input.Get(row, inner), w[inner]));
    }
  }

  method LinearInto(ar: Arith, input: Matrix, weights: seq<Row>, output: Matrix, row: nat)
    requires input.Valid() && output.Valid() && row < input.rows == output.rows && output.columns == |weights|
    requires Wide(weights, input.columns) && input.values != output.values
    modifies output.values
    ensures OnlyRow(old(output.View()), output.View(), row, LinearRow(ar, input.View()[row], weights))
  {
    ghost var x := input.View()[row];
    for out := 0 to |weights|
      invariant input.View()[row] == x
      invariant forall k :: 0 <= k < output.rows && k != row ==> output.View()[k] == old(output.View())[k]
      invariant forall o :: 0 <= o < out ==> output.View()[row][o] == Dot(ar, x, 0, weights[o], 0, input.columns)
    {
      var sum := Product(ar, input, row, weights[out]);
      output.Set(row, out, sum);
    }
    assert output.View()[row] == LinearRow(ar, x, weights);
  }

  method Linear(ar: Arith, input: Matrix, weights: seq<Row>) returns (r: Result<Matrix>)
    requires input.Valid()
    ensures r.Ok? <==> Wide(weights, input.columns)
    ensures r.Err? ==> r.error == Internal
    ensures r.Ok? ==>
              var output := r.value;
              && fresh(output) && fresh(output.values) && output.Valid() && output.rows == input.rows && output.columns == |weights|
              && output.View() == LinearRows(ar, input.View(), weights)
  {
    if !Wide(weights, input.columns) {
      return Err(Internal);
    }
    ghost var x := input.View();
    var output := new Matrix(input.rows, |weights|);
    for row := 0 to input.rows
      invariant forall k :: 0 <= k < row ==> output.View()[k] == LinearRow(ar, x[k], weights)
      invariant input.View() == x
    {
      LinearInto(ar, input, weights, output, row);
    }
    assert output.View() == LinearRows(ar, x, weights);
    r := Ok(output);
  }

  // ---------------------------------------------------------------------------- normalization

  function NormRows(ar: Arith, x: seq<Row>, weights: Row, epsilon: Scalar): (y: seq<Row>)
    requires Wide(x, |weights|)
    ensures |y| == |x| && Wide(y, |weights|)
  {
    seq(|x|, r requires 0 <= r < |x| => NormRow(ar, x[r], weights, epsilon))
  }

  method SquareSum(ar: Arith, input: Matrix, row: nat) returns (sum: Scalar)
    requires input.Valid() && row < input.rows
    ensures sum == Dot(ar, input.View()[row], 0, input.View()[row], 0, input.columns)
  {
    sum := ZERO;
    for column := 0 to input.columns
      invariant sum == Dot(ar, input.View()[row], 0, input.View()[row], 0, column)
    {
      var value := input.Get(row, column);
      sum := ar.add(sum, ar.mul(value, value));
    }
  }

  method NormInto(ar: Arith, input: Matrix, weights: Row, epsilon: Scalar, output: Matrix, row: nat)
    requires input.Valid() && output.Valid() && row < input.rows == output.rows && output.columns == input.columns == |weights|
    requires input.values != output.values
    modifies output.values
    ensures OnlyRow(old(output.View()), output.View(), row, NormRow(ar, input.View()[row], weights, epsilon))
  {
    ghost var x := input.View()[row];
    var sum := SquareSum(ar, input, row);
    var inverse := ar.div(ONE, ar.sqrt(ar.add(ar.div(sum, ar.fromNat(input.columns)), epsilon)));
    for column := 0 to input.columns
      invariant input.View()[row] == x
      invariant forall k :: 0 <= k < output.rows && k != row ==> output.View()[k] == old(output.View())[k]
      invariant forall c :: 0 <= c < column ==> output.View()[row][c] == ar.mul(ar.mul(x[c], inverse), weights[c])
    {
      output.Set(row, column, ar.mul(ar.mul(input.Get(row, column), inverse), weights[column]));
    }
    assert output.View()[row] == NormRow(ar, x, weights, epsilon);
  }

  method RmsNorm(ar: Arith, input: Matrix, weights: Row, epsilon: Scalar) returns (r: Result<Matrix>)
    requires input.Valid()
    ensures r.Ok? <==> |weights| == input.columns && ar.positive(epsilon)
    ensures r.Err? ==> r.error == Internal
    ensures r.Ok? ==>
              var output := r.value;
              && fresh(output) && fresh(output.values) && output.Valid() && output.rows == input.rows && output.columns == input.columns
              && output.View() == NormRows(ar, input.View(), weights, epsilon)
              && forall k, c :: 0 <= k < input.rows && 0 <= c < input.columns ==>
                   var x, n := input.View()[k], input.columns;
                   var mean := ar.div(Dot(ar, x, 0, x, 0, n), ar.fromNat(n));
                   output.View()[k][c] == ar.mul(ar.mul(x[c], ar.div(ONE, ar.sqrt(ar.add(mean, epsilon)))), weights[c])
  {
    if input.columns != |weights| || !ar.positive(epsilon) {
      return Err(Internal);
    }
    ghost var x := input.View();
    var output := new Matrix(input.rows, input.columns);
    for row := 0 to input.rows
      invariant forall k :: 0 <= k < row ==> output.View()[k] == NormRow(ar, x[k], weights, epsilon)
      invariant input.View() == x
    {
      NormInto(ar, input, weights, epsilon, output, row);
    }
    assert output.View() == NormRows(ar, x, weights, epsilon);
    r := Ok(output);
  }

  // ---------------------------------------------------------------------------- element by element

  /** Row `r` of a flat array is a slice of it. */
  lemma RowOfFlat(m: Matrix, r: nat)
    requires m.Valid() && r < m.rows
    ensures 0 <= Index(m.columns, r, 0) && Index(m.columns, r, 0) + m.columns <= m.values.Length
    ensures m.View()[r] == m.values[Index(m.columns, r, 0)..Index(m.columns, r, 0) + m.columns]
  {
    HeadFits(r, m.rows, m.columns);
    forall c | 0 <= c < m.columns
      ensures m.View()[r][c] == m.values[Index(m.columns, r, 0)..Index(m.columns, r, 0) + m.columns][c]
    {}
  }

  function AddRows(ar: Arith, x: seq<Row>, y: seq<Row>): (z: seq<Row>)
    requires |x| == |y| && forall r :: 0 <= r < |x| ==> |x[r]| == |y[r]|
    ensures |z| == |x|
  {
    seq(|x|, r requires 0 <= r < |x| => AddRow(ar, x[r], y[r]))
  }

  method AddInPlace(ar: Arith, destination: Matrix, source: Matrix) returns (error: Option<Error>)
    requires destination.Valid() && source.Valid() && destination.values != source.values
    modifies destination.values
    ensures error == if destination.rows == source.rows && destination.columns == source.columns then None else Some(Internal)
    ensures error.Some? ==> destination.View() == old(destination.View())
    ensures error.None? ==> destination.View() == AddRows(ar, old(destination.View()), source.View())
  {
    if destination.rows != source.rows || destination.columns != source.columns {
      return Some(Internal);
    }
    ghost var x, y := destination.View(), source.View();
    ghost var flat := destination.values[..];
    for index := 0 to destination.values.Length
      invariant forall k :: 0 <= k < index ==> destination.values[k] == ar.add(flat[k], source.values[k])
      invariant forall k :: index <= k < destination.values.Length ==> destination.values[k] == flat[k]
    {
      destination.values[index] := ar.add(destination.values[index], source.values[index]);
    }
    forall r, c | 0 <= r < destination.rows && 0 <= c < destination.columns
      ensures destination.View()[r][c] == ar.add(x[r][c], y[r][c])
    {
      IndexWithin(destination.rows, destination.columns, r, c);
    }
    SameRows(destination.View(), AddRows(ar, x, y), destination.columns);
    error := None;
  }

  function GateRows(ar: Arith, x: seq<Row>, y: seq<Row>): (z: seq<Row>)
    requires |x| == |y| && forall r :: 0 <= r < |x| ==> |x[r]| == |y[r]|
    ensures |z| == |x|
  {
    seq(|x|, r requires 0 <= r < |x| => GateRow(ar, x[r], y[r]))
  }

  /** The gated activation, in place. */
  method Gate(ar: Arith, gated: Matrix, up: Matrix)
    requires gated.Valid() && up.Valid() && gated.values != up.values && gated.rows == up.rows && gated.columns == up.columns
    modifies gated.values
    ensures gated.View() == GateRows(ar, old(gated.View()), up.View())
    ensures forall k, c :: 0 <= k < gated.rows && 0 <= c < gated.columns ==>
              var x := old(gated.View())[k][c];
              gated.View()[k][c] == ar.mul(ar.div(x, ar.add(ONE, ar.exp(ar.neg(x)))), up.View()[k][c])
  {
    ghost var x, y := gated.View(), up.View();
    ghost var flat := gated.values[..];
    for index := 0 to gated.values.Length
      invariant forall k :: 0 <= k < index ==> gated.values[k] == Gated(ar, flat[k], up.values[k])
      invariant forall k :: index <= k < gated.values.Length ==> gated.values[k] == flat[k]
    {
      var value := gated.values[index];
      gated.values[index] := ar.mul(ar.div(value, ar.add(ONE, ar.exp(ar.neg(value)))), up.values[index]);
    }
    forall r, c | 0 <= r < gated.rows && 0 <= c < gated.columns
      ensures gated.View()[r][c] == Gated(ar, x[r][c], y[r][c])
    {
      IndexWithin(gated.rows, gated.columns, r, c);
    }
    SameRows(gated.View(), GateRows(ar, x, y), gated.columns);
  }

  /** Rounding every element to half precision and back. */
  method QuantizeFloat16(input: Matrix) returns (output: Matrix)
    requires input.Valid()
    ensures fresh(output) && fresh(output.values) && output.Valid() && output.rows == input.rows && output.columns == input.columns
    ensures output.View() == Stage.QuantizeRows(input.View())
  {
    hide Half.Narrow, Half.Widen;
    output := new Matrix(input.rows, input.columns);
    for index := 0 to input.values.Length
      invariant forall k :: 0 <= k < index ==> output.values[k] == Half.Quantize(input.values[k])
    {
      output.values[index] := Half.Widen(Half.Narrow(input.values[index]));
    }
    forall r, c | 0 <= r < input.rows && 0 <= c < input.columns
      ensures output.View()[r][c] == Half.Quantize(input.View()[r][c])
    {
      IndexWithin(input.rows, input.columns, r, c);
    }
    SameRows(output.View(), Stage.QuantizeRows(input.View()), input.columns);
  }

  /** A second crossing of a stage boundary changes nothing. */
  lemma QuantizingTwice(x: seq<Row>)
    ensures Stage.QuantizeRows(Stage.QuantizeRows(x)) == Stage.QuantizeRows(x)
  {
    hide Half.Widen, Half.Narrow;
    var y := Stage.QuantizeRows(x);
    forall r | 0 <= r < |x|
      ensures Stage.QuantizeRows(y)[r] == y[r]
    {
      forall c | 0 <= c < |x[r]|
        ensures Stage.QuantizeRows(y)[r][c] == y[r][c]
      {
        Rounding.QuantizeIsIdempotent(x[r][c]);
        assert y[r][c] == Half.Quantize(x[r][c]);
      }
    }
  }
}
