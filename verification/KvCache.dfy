/** The key/value cache of one layer: two flat arrays that stand for growing sequences of rows. */
module KvCache {
  import opened Numbers
  import opened Results
  import opened Transformer
  import opened ChunkedPrefill
  import opened Matrices

  /** Where head `head`, entry `dimension` of position `position` is stored. */
  function Offset(heads: nat, width: nat, position: nat, head: nat, dimension: nat): nat {
    (position * heads + head) * width + dimension
  }

  /** The nested offset is the flat index of the head's column. */
  lemma OffsetIsIndex(heads: nat, width: nat, position: nat, head: nat, dimension: nat)
    ensures Offset(heads, width, position, head, dimension) == Index(heads * width, position, head * width + dimension)
  {
    Distribute(position * heads, head, width);
    Associate(position, heads, width);
  }

  lemma IndexIs(columns: nat, r: nat, c: nat)
    ensures Index(columns, r, c) == r * columns + c
  {}

  /** Offsets of positions within the capacity lie inside the arrays, and different entries are stored
      in different places. */
  lemma OffsetsAreDistinct(capacity: nat, heads: nat, width: nat, p: nat, h: nat, d: nat, q: nat, g: nat, e: nat)
    requires p < capacity && h < heads && d < width && q < capacity && g < heads && e < width
    ensures Offset(heads, width, p, h, d) < capacity * (heads * width)
    ensures Offset(heads, width, p, h, d) == Offset(heads, width, q, g, e) ==> p == q && h == g && d == e
  {
    hide Offset, Index;
    OffsetIsIndex(heads, width, p, h, d);
    OffsetIsIndex(heads, width, q, g, e);
    HeadFits(h, heads, width);
    HeadFits(g, heads, width);
    IndexWithin(capacity, heads * width, p, h * width + d);
    if p != q || h * width + d != g * width + e {
      IndexApart(heads * width, p, h * width + d, q, g * width + e);
    } else if h != g || d != e {
      IndexApart(width, h, d, g, e);
      IndexIs(width, h, d);
      IndexIs(width, g, e);
    }
  }

  /** The rows stored in the first `length` positions. */
  ghost function RowsOf(flat: seq<Scalar>, width: nat, length: nat): (r: seq<Row>)
    requires length * width <= |flat|
    ensures |r| == length && Wide(r, width)
  {
    seq(length, p requires 0 <= p < length => RowOf(flat, width, length, p))
  }

  ghost function RowOf(flat: seq<Scalar>, width: nat, length: nat, p: nat): (r: Row)
    requires length * width <= |flat| && p < length
    ensures |r| == width
  {
    HeadFits(p, length, width);
    flat[p * width..p * width + width]
  }

  class LayerKvCache {
    const capacity: nat
    const heads: nat
    const width: nat
    var length: nat
    const keys: array<Scalar>
    const values: array<Scalar>

    function Columns(): nat {
      heads * width
    }

    predicate Valid()
      reads this
    {
      length <= capacity && keys.Length == capacity * Columns() && values.Length == capacity * Columns() && keys != values
    }

    ghost function View(): (c: Cache)
      requires Valid()
      reads this, keys, values
      ensures |c.keys| == |c.values| == length && Wide(c.keys, Columns()) && Wide(c.values, Columns())
    {
      Fits(length, capacity, Columns());
      Cache(RowsOf(keys[..], Columns(), length), RowsOf(values[..], Columns(), length))
    }

    constructor (capacity: nat, heads: nat, width: nat)
      requires capacity > 0 && heads > 0 && width > 0 && capacity * (heads * width) <= MAXIMUM_SIZE
      ensures Valid() && fresh(keys) && fresh(values) && View() == Cache([], [])
      ensures this.capacity == capacity && this.heads == heads && this.width == width
    {
      this.capacity, this.heads, this.width, length := capacity, heads, width, 0;
      keys := new Scalar[capacity * (heads * width)](_ => ZERO);
      values := new Scalar[capacity * (heads * width)](_ => ZERO);
    }

    /** The place of an entry that has been appended; there is none for any other. */
    method Place(position: nat, head: nat, dimension: nat) returns (r: Result<nat>)
      requires Valid()
      ensures r.Ok? <==> position < length && head < heads && dimension < width
      ensures r.Ok? ==>
                && r.value == Offset(heads, width, position, head, dimension) < keys.Length
                && head * width + dimension < Columns()
                && keys[r.value] == View().keys[position][head * width + dimension]
                && values[r.value] == View().values[position][head * width + dimension]
    {
      if position >= length || head >= heads || dimension >= width {
        return Err(Internal);
      }
      OffsetsAreDistinct(capacity, heads, width, position, head, dimension, position, head, dimension);
      OffsetIsIndex(heads, width, position, head, dimension);
      HeadFits(head, heads, width);
      HeadFits(position, length, Columns());
      Fits(length, capacity, Columns());
      r := Ok((position * heads + head) * width + dimension);
    }

    method Key(position: nat, head: nat, dimension: nat) returns (r: Result<Scalar>)
      requires Valid()
      ensures r.Ok? <==> position < length && head < heads && dimension < width
      ensures r.Ok? ==> head * width + dimension < Columns() && r.value == View().keys[position][head * width + dimension]
    {
      var place := Place(position, head, dimension);
      r := if place.Ok? then Ok(keys[place.value]) else Err(place.error);
    }

    method Value(position: nat, head: nat, dimension: nat) returns (r: Result<Scalar>)
      requires Valid()
      ensures r.Ok? <==> position < length && head < heads && dimension < width
      ensures r.Ok? ==> head * width + dimension < Columns() && r.value == View().values[position][head * width + dimension]
    {
      var place := Place(position, head, dimension);
      r := if place.Ok? then Ok(values[place.value]) else Err(place.error);
    }

    /** Appends the rows at the end, or refuses and changes nothing. Earlier rows are never disturbed. */
    method Append(first: nat, newKeys: Matrix, newValues: Matrix) returns (error: Option<Error>)
      requires Valid() && newKeys.Valid() && newValues.Valid()
      requires {newKeys.values, newValues.values} !! {keys, values}
      modifies this`length, keys, values
      ensures Valid()
      ensures error.None? <==>
                && first == old(length) && newKeys.rows == newValues.rows
                && newKeys.columns == Columns() && newValues.columns == Columns() && newKeys.rows <= capacity - old(length)
      ensures error.Some? ==> View() == old(View()) && error == Some(Internal)
      ensures error.None? ==>
                View() == Cache(old(View()).keys + newKeys.View(), old(View()).values + newValues.View())
    {
      if first != length || newKeys.rows != newValues.rows || newKeys.columns != Columns() || newValues.columns != Columns()
         || newKeys.rows > capacity - length {
        return Some(Internal);
      }
      ghost var before, w := View(), Columns();
      Fits(length, capacity, w);
      for token := 0 to newKeys.rows
        invariant (length + token) * w <= keys.Length
        invariant RowsOf(keys[..], w, length + token) == before.keys + newKeys.View()[..token]
        invariant RowsOf(values[..], w, length + token) == before.values + newValues.View()[..token]
        invariant newKeys.View() == old(newKeys.View()) && newValues.View() == old(newValues.View())
      {
        Fits(length + token + 1, capacity, w);
        StoreRow(keys, values, length + token, newKeys, newValues, token);
        Push(before.keys, newKeys.View(), token);
        Push(before.values, newValues.View(), token);
      }
      assert newKeys.View()[..newKeys.rows] == newKeys.View() && newValues.View()[..newKeys.rows] == newValues.View();
      Fits(length + newKeys.rows, capacity, w);
      length := length + newKeys.rows;
      error := None;
    }
  }

  lemma Push(a: seq<Row>, b: seq<Row>, n: nat)
    requires n < |b|
    ensures a + b[..n + 1] == a + b[..n] + [b[n]]
  {}

  lemma RowsOfPush(flat: seq<Scalar>, width: nat, n: nat)
    requires n * width + width == (n + 1) * width <= |flat|
    ensures RowsOf(flat, width, n + 1) == RowsOf(flat, width, n) + [flat[n * width..n * width + width]]
  {
    forall p | 0 <= p < n
      ensures RowsOf(flat, width, n + 1)[p] == RowsOf(flat, width, n)[p]
    {}
  }

  lemma SlicesAgree(a: seq<Scalar>, b: seq<Scalar>, n: nat, at: nat, width: nat)
    requires n <= |a| && n <= |b| && a[..n] == b[..n] && at + width <= n
    ensures a[at..at + width] == b[at..at + width]
  {
    assert a[at..at + width] == a[..n][at..at + width];
    assert b[at..at + width] == b[..n][at..at + width];
  }

  lemma RowsOfPrefix(flat: seq<Scalar>, other: seq<Scalar>, width: nat, n: nat)
    requires n * width <= |flat| && n * width <= |other| && flat[..n * width] == other[..n * width]
    ensures RowsOf(flat, width, n) == RowsOf(other, width, n)
  {
    hide RowOf;
    forall p: nat | p < n
      ensures RowOf(flat, width, n, p) == RowOf(other, width, n, p)
    {
      RowOfPrefix(flat, other, width, n, p);
    }
  }

  lemma RowOfPrefix(flat: seq<Scalar>, other: seq<Scalar>, width: nat, n: nat, p: nat)
    requires p < n && n * width <= |flat| && n * width <= |other| && flat[..n * width] == other[..n * width]
    ensures RowOf(flat, width, n, p) == RowOf(other, width, n, p)
  {
    HeadFits(p, n, width);
    SlicesAgree(flat, other, n * width, p * width, width);
  }

  /** Copies row `token` of both matrices to the same place of the two arrays. */
  method CopyRow(keys: array<Scalar>, values: array<Scalar>, destination: nat, newKeys: Matrix, newValues: Matrix, token: nat)
    requires newKeys.Valid() && newValues.Valid() && newKeys.columns == newValues.columns && token < newKeys.rows == newValues.rows
    requires destination + newKeys.columns <= keys.Length && keys.Length == values.Length && keys != values
    requires {newKeys.values, newValues.values} !! {keys, values}
    modifies keys, values
    ensures keys[..destination] == old(keys[..destination]) && values[..destination] == old(values[..destination])
    ensures keys[destination..destination + newKeys.columns] == newKeys.View()[token]
    ensures values[destination..destination + newKeys.columns] == newValues.View()[token]
  {
    ghost var k, v := newKeys.View()[token], newValues.View()[token];
    for column := 0 to newKeys.columns
      invariant newKeys.View()[token] == k && newValues.View()[token] == v
      invariant forall i :: 0 <= i < destination ==> keys[i] == old(keys[i]) && values[i] == old(values[i])
      invariant forall c :: 0 <= c < column ==> keys[destination + c] == k[c] && values[destination + c] == v[c]
    {
      keys[destination + column] := newKeys.Get(token, column);
      values[destination + column] := newValues.Get(token, column);
    }
  }

  /** Stores row `token` of both matrices after the rows stored so far. */
  method StoreRow(keys: array<Scalar>, values: array<Scalar>, stored: nat, newKeys: Matrix, newValues: Matrix, token: nat)
    requires newKeys.Valid() && newValues.Valid() && newKeys.columns == newValues.columns && token < newKeys.rows == newValues.rows
    requires (stored + 1) * newKeys.columns <= keys.Length && keys.Length == values.Length && keys != values
    requires {newKeys.values, newValues.values} !! {keys, values}
    modifies keys, values
    ensures stored * newKeys.columns <= keys.Length
    ensures RowsOf(keys[..], newKeys.columns, stored + 1)
            == RowsOf(old(keys[..]), newKeys.columns, stored) + [newKeys.View()[token]]
    ensures RowsOf(values[..], newKeys.columns, stored + 1)
            == RowsOf(old(values[..]), newKeys.columns, stored) + [newValues.View()[token]]
  {
    var w := newKeys.columns;
    Distribute(stored, 1, w);
    CopyRow(keys, values, stored * w, newKeys, newValues, token);
    RowsOfPrefix(old(keys[..]), keys[..], w, stored);
    RowsOfPrefix(old(values[..]), values[..], w, stored);
    RowsOfPush(keys[..], w, stored);
    RowsOfPush(values[..], w, stored);
  }

  lemma Fits(a: nat, b: nat, c: nat)
    requires a <= b
    ensures a * c <= b * c
  {}

  /** A cache of positive dimensions whose size is representable. */
  method NewCache(capacity: nat, heads: nat, width: nat) returns (r: Result<LayerKvCache>)
    ensures r.Ok? <==> capacity > 0 && heads > 0 && width > 0 && capacity * (heads * width) <= MAXIMUM_SIZE
    ensures r.Ok? ==>
              && fresh(r.value) && fresh(r.value.keys) && fresh(r.value.values) && r.value.Valid() && r.value.View() == Cache([], [])
              && r.value.capacity == capacity && r.value.heads == heads && r.value.width == width
  {
    if capacity == 0 || heads == 0 || width == 0 || capacity * (heads * width) > MAXIMUM_SIZE {
      return Err(Internal);
    }
    var cache := new LayerKvCache(capacity, heads, width);
    r := Ok(cache);
  }
}
