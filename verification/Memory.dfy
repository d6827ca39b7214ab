/** Memory amounts by domain, and the largest workspaces any few requests can need. */
module Memory {
  import opened Numbers
  import opened Results

  datatype Domain = Host | Device | PinnedHost | Unified

  datatype Amounts = Amounts(host: nat, device: nat, pinned: nat, unified: nat) {
    function Of(d: Domain): nat {
      match d
      case Host => host
      case Device => device
      case PinnedHost => pinned
      case Unified => unified
    }

    /** Sizes that the runtime's 64-bit type can hold. */
    predicate Representable() {
      forall d: Domain :: Of(d) <= MAXIMUM_SIZE
    }
  }

  const NOTHING := Amounts(0, 0, 0, 0)

  /** Componentwise sum, as numbers. */
  function Plus(a: Amounts, b: Amounts): Amounts {
    Amounts(a.host + b.host, a.device + b.device, a.pinned + b.pinned, a.unified + b.unified)
  }

  /** The runtime's sum, which refuses to wrap around. */
  function AddMemory(a: Amounts, b: Amounts): Result<Amounts> {
    if Plus(a, b).Representable() then Ok(Plus(a, b)) else Err(ResourceExhausted)
  }

  predicate Within(used: Amounts, capacity: Amounts) {
    forall d: Domain :: used.Of(d) <= capacity.Of(d)
  }

  /** Pinned bytes also count as host bytes; every domain has its own limit. */
  function RequireMemory(used: Amounts, capacity: Amounts): Option<Error> {
    if used.pinned > used.host then Some(Internal)
    else if !Within(used, capacity) then Some(ResourceExhausted)
    else None
  }

  // ---------------------------------------------------------------------------- sums over sets

  ghost function Sum<K>(m: map<K, nat>, s: set<K>): nat
    requires s <= m.Keys
  {
    if s == {} then 0
    else
      var x :| x in s;
      m[x] + Sum(m, s - {x})
  }

  lemma {:induction false} SumRemove<K>(m: map<K, nat>, s: set<K>, x: K)
    requires s <= m.Keys && x in s
    ensures Sum(m, s) == m[x] + Sum(m, s - {x})
    decreases s
  {
    var y :| y in s && Sum(m, s) == m[y] + Sum(m, s - {y});
    if y != x {
      SumRemove(m, s - {y}, x);
      SumRemove(m, s - {x}, y);
      assert s - {y} - {x} == s - {x} - {y};
    }
  }

  lemma {:induction false} SumAgrees<K>(m: map<K, nat>, n: map<K, nat>, s: set<K>)
    requires s <= m.Keys && s <= n.Keys && forall k :: k in s ==> m[k] == n[k]
    ensures Sum(m, s) == Sum(n, s)
    decreases s
  {
    if s != {} {
      var x :| x in s;
      SumRemove(m, s, x);
      SumRemove(n, s, x);
      SumAgrees(m, n, s - {x});
    }
  }

  lemma {:induction false} SumGrows<K>(m: map<K, nat>, s: set<K>, t: set<K>)
    requires s <= t <= m.Keys
    ensures Sum(m, s) <= Sum(m, t)
    decreases t
  {
    if s != t {
      var x :| x in t && x !in s;
      SumRemove(m, t, x);
      SumGrows(m, s, t - {x});
    }
  }

  // ---------------------------------------------------------------------------- largest few

  ghost predicate Largest<K>(m: map<K, nat>, s: set<K>, x: K)
    requires s <= m.Keys
  {
    x in s && forall y :: y in s ==> m[y] <= m[x]
  }

  lemma {:induction false} LargestExists<K>(m: map<K, nat>, s: set<K>)
    requires s <= m.Keys && s != {}
    ensures exists x :: Largest(m, s, x)
    decreases s
  {
    var x :| x in s;
    if s == {x} {
      assert Largest(m, s, x);
    } else {
      LargestExists(m, s - {x});
      var y :| Largest(m, s - {x}, y);
      assert Largest(m, s, if m[x] < m[y] then y else x);
    }
  }

  /** The sum of the `rows` largest values. */
  ghost function Top<K>(m: map<K, nat>, s: set<K>, rows: nat): nat
    requires s <= m.Keys
    decreases rows
  {
    if rows == 0 || s == {} then 0
    else
      LargestExists(m, s);
      var x :| Largest(m, s, x);
      m[x] + Top(m, s - {x}, rows - 1)
  }

  /** It bounds the sum over every choice of at most `rows` members... */
  lemma {:induction false} TopBounds<K>(m: map<K, nat>, s: set<K>, rows: nat, chosen: set<K>)
    requires s <= m.Keys && chosen <= s && |chosen| <= rows
    ensures Sum(m, chosen) <= Top(m, s, rows)
    decreases rows
  {
    if chosen != {} {
      LargestExists(m, s);
      var x :| Largest(m, s, x) && Top(m, s, rows) == m[x] + Top(m, s - {x}, rows - 1);
      var y :| y in chosen && (x in chosen ==> y == x);
      SumRemove(m, chosen, y);
      TopBounds(m, s - {x}, rows - 1, chosen - {y});
    }
  }

  /** ...and is reached by one of them, so it is the largest such sum and nothing more. */
  lemma {:induction false} TopIsReached<K>(m: map<K, nat>, s: set<K>, rows: nat) returns (chosen: set<K>)
    requires s <= m.Keys
    ensures chosen <= s && |chosen| <= rows && Sum(m, chosen) == Top(m, s, rows)
    decreases rows
  {
    if rows == 0 || s == {} {
      chosen := {};
    } else {
      LargestExists(m, s);
      var x :| Largest(m, s, x) && Top(m, s, rows) == m[x] + Top(m, s - {x}, rows - 1);
      var rest := TopIsReached(m, s - {x}, rows - 1);
      hide Top, Largest, Sum;
      chosen := rest + {x};
      SumRemove(m, chosen, x);
      assert chosen - {x} == rest;
    }
  }

  /** Any largest member may be taken first. */
  lemma TopTakes<K>(m: map<K, nat>, s: set<K>, rows: nat, x: K)
    requires s <= m.Keys && rows > 0 && Largest(m, s, x)
    ensures Top(m, s, rows) == m[x] + Top(m, s - {x}, rows - 1)
  {
    var rest := TopIsReached(m, s - {x}, rows - 1);
    SumRemove(m, rest + {x}, x);
    assert rest + {x} - {x} == rest;
    TopBounds(m, s, rows, rest + {x});
    var all := TopIsReached(m, s, rows);
    if all == {} {
    } else {
      var y :| y in all && (x in all ==> y == x);
      SumRemove(m, all, y);
      TopBounds(m, s - {x}, rows - 1, all - {y});
    }
  }

  lemma TopShrinks<K>(m: map<K, nat>, s: set<K>, t: set<K>, rows: nat)
    requires s <= t <= m.Keys
    ensures Top(m, s, rows) <= Top(m, t, rows)
  {
    var chosen := TopIsReached(m, s, rows);
    TopBounds(m, t, rows, chosen);
  }

  lemma TopAgrees<K>(m: map<K, nat>, n: map<K, nat>, s: set<K>, rows: nat)
    requires s <= m.Keys && s <= n.Keys && forall k :: k in s ==> m[k] == n[k]
    ensures Top(m, s, rows) == Top(n, s, rows)
  {
    var a := TopIsReached(m, s, rows);
    var b := TopIsReached(n, s, rows);
    SumAgrees(m, n, a);
    SumAgrees(m, n, b);
    TopBounds(m, s, rows, b);
    TopBounds(n, s, rows, a);
  }

  // ---------------------------------------------------------------------------- the runtime's computation

  /** `values` lists `m` under the distinct keys `keys`. */
  ghost predicate Lists<K>(values: seq<nat>, keys: seq<K>, m: map<K, nat>) {
    && |values| == |keys|
    && (forall i, j :: 0 <= i < j < |keys| ==> keys[i] != keys[j])
    && forall i :: 0 <= i < |keys| ==> keys[i] in m && m[keys[i]] == values[i]
  }

  ghost function Elements<T>(s: seq<T>): set<T> {
    set i | 0 <= i < |s| :: s[i]
  }

  function Total(values: seq<nat>): nat {
    if values == [] then 0 else Total(values[..|values| - 1]) + values[|values| - 1]
  }

  function Swap<T>(s: seq<T>, i: nat, j: nat): (r: seq<T>)
    requires i < |s| && j < |s|
    ensures |r| == |s| && Elements(r) == Elements(s)
  {
    var r := s[i := s[j]][j := s[i]];
    assert forall k :: 0 <= k < |s| ==> s[k] == r[if k == i then j else if k == j then i else k];
    r
  }

  lemma TailWithoutHead<T>(s: seq<T>, i: nat)
    requires i < |s| && forall a, b :: 0 <= a < b < |s| ==> s[a] != s[b]
    ensures Elements(s[i..]) - {s[i]} == Elements(s[i + 1..])
    ensures s[i] in Elements(s[i..])
  {
    assert s[i] == s[i..][0];
    forall x | x in Elements(s[i + 1..])
      ensures x in Elements(s[i..]) && x != s[i]
    {
      var k :| 0 <= k < |s[i + 1..]| && s[i + 1..][k] == x;
      assert s[i..][k + 1] == x;
    }
    forall x | x in Elements(s[i..]) && x != s[i]
      ensures x in Elements(s[i + 1..])
    {
      var k :| 0 <= k < |s[i..]| && s[i..][k] == x;
      assert s[i + 1..][k - 1] == x;
    }
  }

  /** Position of a largest value from `start` on. */
  method IndexOfLargest(values: seq<nat>, start: nat) returns (best: nat)
    requires start < |values|
    ensures start <= best < |values| && forall k :: start <= k < |values| ==> values[k] <= values[best]
  {
    best := start;
    for k := start + 1 to |values|
      invariant start <= best < |values| && forall j :: start <= j < k ==> values[j] <= values[best]
    {
      if values[k] > values[best] {
        best := k;
      }
    }
  }

  ghost predicate Selected<K>(values: seq<nat>, keys: seq<K>, m: map<K, nat>, all: set<K>, rows: nat, count: nat) {
    && count <= |values| && count <= rows && Lists(values, keys, m) && Elements(keys) == all <= m.Keys
    && Elements(keys[count..]) <= m.Keys
    && Top(m, all, rows) == Total(values[..count]) + Top(m, Elements(keys[count..]), rows - count)
  }

  lemma SwappedLists<K>(values: seq<nat>, keys: seq<K>, m: map<K, nat>, i: nat, j: nat)
    requires Lists(values, keys, m) && i < |keys| && j < |keys|
    ensures Lists(Swap(values, i, j), Swap(keys, i, j), m)
  {}

  lemma LargestInTail<K>(values: seq<nat>, keys: seq<K>, m: map<K, nat>, count: nat, best: nat)
    requires Lists(values, keys, m) && count <= |keys| && Elements(keys[count..]) <= m.Keys
    requires count <= best < |values| && forall k :: count <= k < |values| ==> values[k] <= values[best]
    ensures Largest(m, Elements(keys[count..]), keys[best])
  {
    assert keys[best] == keys[count..][best - count];
    forall x | x in Elements(keys[count..])
      ensures m[x] <= m[keys[best]]
    {
      var k :| 0 <= k < |keys[count..]| && keys[count..][k] == x;
      assert m[keys[count + k]] == values[count + k];
    }
  }

  lemma SelectNext<K>(values: seq<nat>, keys: seq<K>, m: map<K, nat>, all: set<K>, rows: nat, count: nat, best: nat)
    requires Selected(values, keys, m, all, rows, count) && count < rows
    requires count <= best < |values| && forall k :: count <= k < |values| ==> values[k] <= values[best]
    ensures Selected(Swap(values, count, best), Swap(keys, count, best), m, all, rows, count + 1)
  {
    hide Lists, Largest;
    ListedLengths(values, keys, m);
    var v, o := Swap(values, count, best), Swap(keys, count, best);
    assert v[..count + 1][..count] == values[..count];
    SwappedLists(values, keys, m, count, best);
    ListedLengths(v, o, m);
    SwapInTail(keys, count, best);
    LargestInTail(values, keys, m, count, best);
    TailWithoutHead(o, count);
    TopTakes(m, Elements(keys[count..]), rows - count, keys[best]);
    ListedAt(values, keys, m, best);
  }

  lemma ListedLengths<K>(values: seq<nat>, keys: seq<K>, m: map<K, nat>)
    requires Lists(values, keys, m)
    ensures |values| == |keys| && forall i, j :: 0 <= i < j < |keys| ==> keys[i] != keys[j]
  {}

  lemma ListedAt<K>(values: seq<nat>, keys: seq<K>, m: map<K, nat>, i: nat)
    requires Lists(values, keys, m) && i < |keys|
    ensures |values| == |keys| && keys[i] in m && m[keys[i]] == values[i]
  {}

  lemma SwapInTail<T>(s: seq<T>, i: nat, j: nat)
    requires i <= j < |s|
    ensures Elements(Swap(s, i, j)[i..]) == Elements(s[i..])
  {
    assert Swap(s, i, j)[i..] == Swap(s[i..], 0, j - i);
  }

  /** Moves the `rows` largest values to the front and adds them up, refusing to wrap around: the
      result is the largest sum that any `rows` of the listed values have. */
  method LargestSum<K>(list: seq<nat>, rows: nat, ghost keys: seq<K>, ghost m: map<K, nat>) returns (r: Result<nat>)
    requires Lists(list, keys, m) && Elements(keys) <= m.Keys
    ensures r == if Top(m, Elements(keys), rows) <= MAXIMUM_SIZE then Ok(Top(m, Elements(keys), rows)) else Err(ResourceExhausted)
  {
    var values: seq<nat> := list;
    var count := if rows < |values| then rows else |values|;
    ghost var order, all := keys, Elements(keys);
    assert order[0..] == order;
    for i := 0 to count
      invariant |values| == |list| && Selected(values, order, m, all, rows, i)
    {
      var best := IndexOfLargest(values, i);
      SelectNext(values, order, m, all, rows, i, best);
      values := Swap(values, i, best);
      order := Swap(order, i, best);
    }
    SelectedAll(values, order, m, all, rows, count);
    hide Top, Total, Elements;
    r := AddFirst(values[..count]);
  }

  lemma SelectedAll<K>(values: seq<nat>, keys: seq<K>, m: map<K, nat>, all: set<K>, rows: nat, count: nat)
    requires Selected(values, keys, m, all, rows, count) && (count == rows || count == |values|)
    ensures all <= m.Keys && Top(m, all, rows) == Total(values[..count])
  {}

  /** Adds up, refusing to wrap around. */
  method AddFirst(values: seq<nat>) returns (r: Result<nat>)
    ensures r == if Total(values) <= MAXIMUM_SIZE then Ok(Total(values)) else Err(ResourceExhausted)
  {
    var total: nat := 0;
    for i := 0 to |values|
      invariant total == Total(values[..i]) <= MAXIMUM_SIZE
    {
      assert values[..i + 1][..i] == values[..i];
      if values[i] > MAXIMUM_SIZE - total {
        TotalGrows(values, i + 1);
        return Err(ResourceExhausted);
      }
      total := total + values[i];
    }
    assert values[..|values|] == values;
    r := Ok(total);
  }

  lemma {:induction false} TotalGrows(values: seq<nat>, n: nat)
    requires n <= |values|
    ensures Total(values[..n]) <= Total(values)
    decreases |values|
  {
    if n < |values| {
      TotalGrows(values[..|values| - 1], n);
      assert values[..|values| - 1][..n] == values[..n];
    } else {
      assert values[..n] == values;
    }
  }
}
