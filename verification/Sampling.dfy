/** Nucleus sampling, over exact reals: which tokens are kept, and which draw selects which token. */
module Sampling {
  import opened Results

  datatype Options = Options(temperature: real, topP: real, topK: nat, logprobs: bool, topLogprobs: nat) {
    predicate Valid() {
      && 0.0 <= temperature <= 100.0 && 0.0 < topP <= 1.0 && topLogprobs <= 5
      && (logprobs || topLogprobs == 0)
    }
  }

  // ---------------------------------------------------------------------------- ranking

  /** Token `a` ranks before token `b`: it weighs more, or the same and comes first. */
  predicate Before(weights: seq<real>, a: nat, b: nat)
    requires a < |weights| && b < |weights|
  {
    weights[a] > weights[b] || (weights[a] == weights[b] && a < b)
  }

  ghost predicate Ranked(weights: seq<real>, order: seq<nat>) {
    && (forall i :: 0 <= i < |order| ==> order[i] < |weights|)
    && forall i, j :: 0 <= i < j < |order| ==> Before(weights, order[i], order[j])
  }

  /** All tokens, ranked. */
  ghost predicate IsRanking(weights: seq<real>, order: seq<nat>) {
    Ranked(weights, order) && forall t: nat :: t < |weights| ==> t in order
  }

  lemma {:induction false} RankedAgree(weights: seq<real>, a: seq<nat>, b: seq<nat>)
    requires Ranked(weights, a) && Ranked(weights, b) && forall t: nat :: t in a <==> t in b
    ensures a == b
    decreases |a|
  {
    if a == [] {
      if b != [] {
        HasMember(b);
      }
    } else {
      assert a[0] in a && a[0] in b;
      assert b[0] in b && b[0] in a;
      var i :| 0 <= i < |a| && a[i] == b[0];
      var j :| 0 <= j < |b| && b[j] == a[0];
      assert i == 0;
      forall t: nat
        ensures t in a[1..] <==> t in b[1..]
      {
        TailHas(weights, a, t);
        TailHas(weights, b, t);
      }
      RankedAgree(weights, a[1..], b[1..]);
      assert a == [a[0]] + a[1..] && b == [b[0]] + b[1..];
    }
  }

  lemma HasMember(a: seq<nat>)
    requires a != []
    ensures exists t: nat :: t in a
  {
    assert a[0] in a;
  }

  lemma TailHas(weights: seq<real>, a: seq<nat>, t: nat)
    requires Ranked(weights, a) && a != []
    ensures t in a[1..] <==> t in a && t != a[0]
  {
    if t in a && t != a[0] {
      var i :| 0 <= i < |a| && a[i] == t;
      assert a[1..][i - 1] == t;
    }
    if t in a[1..] {
      var i :| 0 <= i < |a[1..]| && a[1..][i] == t;
      assert a[i + 1] == t && Before(weights, a[0], a[i + 1]);
    }
  }

  /** There is one ranking, whatever algorithm finds it. */
  lemma RankingIsUnique(weights: seq<real>, a: seq<nat>, b: seq<nat>)
    requires IsRanking(weights, a) && IsRanking(weights, b)
    ensures a == b
  {
    forall t: nat
      ensures t in a <==> t in b
    {}
    RankedAgree(weights, a, b);
  }

  lemma InsertedRanked(weights: seq<real>, order: seq<nat>, i: nat, t: nat)
    requires Ranked(weights, order) && i <= |order| && t < |weights|
    requires forall j :: 0 <= j < i ==> Before(weights, order[j], t)
    requires forall j :: i <= j < |order| ==> Before(weights, t, order[j])
    ensures Ranked(weights, order[..i] + [t] + order[i..])
  {
    var r := order[..i] + [t] + order[i..];
    forall a, b | 0 <= a < b < |r|
      ensures Before(weights, r[a], r[b])
    {
      var x := if a < i then a else a - 1;
      var y := if b < i then b else b - 1;
      if a != i && b != i {
        assert r[a] == order[x] && r[b] == order[y];
      }
    }
  }

  lemma InsertedMembers(order: seq<nat>, i: nat, t: nat)
    requires i <= |order|
    ensures forall k: nat :: k in order[..i] + [t] + order[i..] <==> k in order || k == t
  {
    assert order == order[..i] + order[i..];
  }

  method Insert(weights: seq<real>, order: seq<nat>, t: nat) returns (r: seq<nat>)
    requires Ranked(weights, order) && t < |weights| && forall k :: k in order ==> k < t
    ensures |r| == |order| + 1 && Ranked(weights, r) && forall k: nat :: k in r <==> k in order || k == t
  {
    var i := |order|;
    while i > 0 && weights[t] > weights[order[i - 1]]
      invariant 0 <= i <= |order| && forall j :: i <= j < |order| ==> Before(weights, t, order[j])
    {
      i := i - 1;
    }
    FrontIsBefore(weights, order, i, t);
    InsertedRanked(weights, order, i, t);
    InsertedMembers(order, i, t);
    r := order[..i] + [t] + order[i..];
  }

  lemma FrontIsBefore(weights: seq<real>, order: seq<nat>, i: nat, t: nat)
    requires Ranked(weights, order) && i <= |order| && t < |weights| && forall k :: k in order ==> k < t
    requires i > 0 ==> weights[t] <= weights[order[i - 1]]
    ensures forall j :: 0 <= j < i ==> Before(weights, order[j], t)
  {
    forall j | 0 <= j < i
      ensures Before(weights, order[j], t)
    {
      assert order[i - 1] in order && order[j] in order;
      assert j < i - 1 ==> Before(weights, order[j], order[i - 1]);
    }
  }

  /** The tokens by decreasing weight, equal weights by increasing token. */
  method Rank(weights: seq<real>) returns (order: seq<nat>)
    ensures IsRanking(weights, order)
    ensures |order| == |weights|
  {
    order := [];
    for t := 0 to |weights|
      invariant |order| == t && Ranked(weights, order) && forall k: nat :: k in order <==> k < t
    {
      order := Insert(weights, order, t);
    }
  }

  // ---------------------------------------------------------------------------- the kept prefix

  function Mass(weights: seq<real>, order: seq<nat>): real
    requires forall i :: 0 <= i < |order| ==> order[i] < |weights|
  {
    if order == [] then 0.0 else Mass(weights, order[..|order| - 1]) + weights[order[|order| - 1]]
  }

  /** A share of the whole. */
  function Part(share: real, whole: real): real {
    share * whole
  }

  /** The shortest nonempty prefix of the pool whose mass reaches the share. */
  ghost predicate Shortest(weights: seq<real>, pool: seq<nat>, share: real, count: nat)
    requires forall i :: 0 <= i < |pool| ==> pool[i] < |weights|
  {
    && 1 <= count <= |pool| && Mass(weights, pool[..count]) >= Part(share, Mass(weights, pool))
    && forall c :: 1 <= c < count ==> Mass(weights, pool[..c]) < Part(share, Mass(weights, pool))
  }

  /** A draw `u` of [0, 1) selects the token at `i` when it falls into the token's share of the kept mass. */
  ghost predicate Selects(weights: seq<real>, kept: seq<nat>, u: real, i: nat)
    requires forall k :: 0 <= k < |kept| ==> kept[k] < |weights|
  {
    i < |kept| && Mass(weights, kept[..i]) <= Part(u, Mass(weights, kept)) < Mass(weights, kept[..i + 1])
  }

  lemma {:induction false} MassGrows(weights: seq<real>, order: seq<nat>, n: nat)
    requires n <= |order| && forall i :: 0 <= i < |order| ==> order[i] < |weights|
    requires forall t :: 0 <= t < |weights| ==> weights[t] >= 0.0
    ensures Mass(weights, order[..n]) <= Mass(weights, order)
    decreases |order|
  {
    if n < |order| {
      MassGrows(weights, order[..|order| - 1], n);
      assert order[..|order| - 1][..n] == order[..n];
    } else {
      assert order[..n] == order;
    }
  }

  /** Each draw selects one token only. */
  lemma SelectionIsUnique(weights: seq<real>, kept: seq<nat>, u: real, i: nat, j: nat)
    requires forall k :: 0 <= k < |kept| ==> kept[k] < |weights|
    requires forall t :: 0 <= t < |weights| ==> weights[t] >= 0.0
    requires Selects(weights, kept, u, i) && Selects(weights, kept, u, j)
    ensures i == j
  {
    if i < j {
      assert kept[..j][..i + 1] == kept[..i + 1];
      MassGrows(weights, kept[..j], i + 1);
    } else if j < i {
      assert kept[..i][..j + 1] == kept[..j + 1];
      MassGrows(weights, kept[..i], j + 1);
    }
  }

  lemma ShortestIsUnique(weights: seq<real>, pool: seq<nat>, share: real, a: nat, b: nat)
    requires forall i :: 0 <= i < |pool| ==> pool[i] < |weights|
    requires Shortest(weights, pool, share, a) && Shortest(weights, pool, share, b)
    ensures a == b
  {}

  // ---------------------------------------------------------------------------- sampling

  /** The first of the largest logits. */
  predicate FirstMaximum(logits: seq<real>, t: nat) {
    t < |logits| && (forall k :: 0 <= k < |logits| ==> logits[k] <= logits[t]) && forall k :: 0 <= k < t ==> logits[k] < logits[t]
  }

  lemma FirstMaximumIsUnique(logits: seq<real>, a: nat, b: nat)
    requires FirstMaximum(logits, a) && FirstMaximum(logits, b)
    ensures a == b
  {
    assert logits[a] <= logits[b] && logits[b] <= logits[a];
  }

  /** The library's search for the largest element. */
  method MaxElement(logits: seq<real>) returns (best: nat)
    requires logits != []
    ensures FirstMaximum(logits, best)
  {
    best := 0;
    for i := 1 to |logits|
      invariant FirstMaximum(logits[..i], best)
    {
      if logits[best] < logits[i] {
        best := i;
      }
    }
    assert logits[..|logits|] == logits;
  }

  /** Relative weights of the tokens; `exp` stands for the library's exponential. */
  function Weights(exp: real -> real, logits: seq<real>, best: nat, temperature: real): (w: seq<real>)
    requires best < |logits| && temperature > 0.0
    ensures |w| == |logits|
  {
    seq(|logits|, i requires 0 <= i < |logits| => exp((logits[i] - logits[best]) / temperature))
  }

  /** What is used of the exponential: it is never negative, positive at zero, and turns sums into products. */
  ghost predicate Exponential(exp: real -> real) {
    && (forall x: real :: exp(x) >= 0.0) && exp(0.0) > 0.0
    && forall x: real, y: real :: exp(x + y) == exp(x) * exp(y)
  }

  /** Weights that are not all zero, and none of them negative. */
  predicate Positive(w: seq<real>) {
    (forall i :: 0 <= i < |w| ==> w[i] >= 0.0) && exists i :: 0 <= i < |w| && w[i] > 0.0
  }

  /** The weights stand in the ratios of the exponentials of the logits divided by the temperature. */
  ghost predicate Softmax(exp: real -> real, logits: seq<real>, temperature: real, w: seq<real>)
    requires temperature > 0.0
  {
    && |w| == |logits| && Positive(w)
    && forall i, j :: 0 <= i < |w| && 0 <= j < |w| ==> w[i] * exp(logits[j] / temperature) == w[j] * exp(logits[i] / temperature)
  }

  /** The exponentials themselves do, if there are any, */
  lemma SoftmaxExists(exp: real -> real, logits: seq<real>, temperature: real)
    requires Exponential(exp) && temperature > 0.0 && logits != []
    ensures Softmax(exp, logits, temperature, seq(|logits|, i requires 0 <= i < |logits| => exp(logits[i] / temperature)))
  {
    hide Exponential;
    var w := seq(|logits|, i requires 0 <= i < |logits| => exp(logits[i] / temperature));
    forall i | 0 <= i < |logits|
      ensures w[i] > 0.0
    {
      ExponentialIsPositive(exp, logits[i] / temperature);
    }
    assert w[0] > 0.0;
  }

  lemma ExponentialAdds(exp: real -> real, x: real, y: real)
    requires Exponential(exp)
    ensures exp(x + y) == exp(x) * exp(y)
  {}

  lemma ExponentialIsPositive(exp: real -> real, x: real)
    requires Exponential(exp)
    ensures exp(x) > 0.0
  {
    ExponentialAdds(exp, x, 0.0 - x);
  }

  /** and so do the weights that are computed. */
  lemma WeightsAreSoftmax(exp: real -> real, logits: seq<real>, best: nat, temperature: real)
    requires Exponential(exp) && best < |logits| && temperature > 0.0
    ensures Softmax(exp, logits, temperature, Weights(exp, logits, best, temperature))
    ensures Weights(exp, logits, best, temperature)[best] > 0.0
  {
    hide Exponential;
    var w := Weights(exp, logits, best, temperature);
    WeightsArePositive(exp, logits, best, temperature);
    forall i, j | 0 <= i < |w| && 0 <= j < |w|
      ensures w[i] * exp(logits[j] / temperature) == w[j] * exp(logits[i] / temperature)
    {
      DifferenceOfLogits(exp, logits[i], logits[best], temperature);
      DifferenceOfLogits(exp, logits[j], logits[best], temperature);
      SwapFactors(exp(logits[i] / temperature), exp(logits[j] / temperature), exp(0.0 - logits[best] / temperature));
    }
  }

  lemma WeightsArePositive(exp: real -> real, logits: seq<real>, best: nat, temperature: real)
    requires Exponential(exp) && best < |logits| && temperature > 0.0
    ensures Positive(Weights(exp, logits, best, temperature)) && Weights(exp, logits, best, temperature)[best] > 0.0
  {
    hide Exponential;
    var w := Weights(exp, logits, best, temperature);
    forall i | 0 <= i < |w|
      ensures w[i] > 0.0
    {
      ExponentialIsPositive(exp, (logits[i] - logits[best]) / temperature);
    }
    assert w[best] > 0.0;
  }

  lemma DifferenceOfLogits(exp: real -> real, x: real, best: real, temperature: real)
    requires Exponential(exp) && temperature > 0.0
    ensures exp((x - best) / temperature) == exp(x / temperature) * exp(0.0 - best / temperature)
  {
    hide Exponential;
    ExponentialAdds(exp, x / temperature, 0.0 - best / temperature);
    QuotientOfDifference(x, best, temperature);
  }

  lemma QuotientOfDifference(x: real, y: real, d: real)
    requires d > 0.0
    ensures (x - y) / d == x / d + (0.0 - y / d)
  {}

  lemma SwapFactors(x: real, y: real, c: real)
    ensures (x * c) * y == (y * c) * x
  {}

  /** How many of the ranked tokens the limit leaves; zero is no limit. */
  function PoolSize(count: nat, topK: nat): (size: nat)
    ensures size <= count
  {
    if topK != 0 && topK < count then topK else count
  }

  lemma PoolIsLargest(count: nat, topK: nat, n: nat)
    ensures n <= PoolSize(count, topK) <==> n <= count && (topK == 0 || n <= topK)
  {}

  /** The tokens a positive temperature can pick. */
  ghost predicate Kept(weights: seq<real>, o: Options, kept: seq<nat>) {
    exists order: seq<nat> :: IsRanking(weights, order) && KeptOf(weights, o, order, kept)
  }

  ghost predicate KeptOf(weights: seq<real>, o: Options, order: seq<nat>, kept: seq<nat>)
    requires Ranked(weights, order)
  {
    var pool := order[..PoolSize(|order|, o.topK)];
    |kept| <= |pool| && kept == pool[..|kept|] && Shortest(weights, pool, o.topP, |kept|)
  }

  lemma KeptIsUnique(weights: seq<real>, o: Options, a: seq<nat>, b: seq<nat>)
    requires Kept(weights, o, a) && Kept(weights, o, b)
    ensures a == b
  {
    var p :| IsRanking(weights, p) && KeptOf(weights, o, p, a);
    var q :| IsRanking(weights, q) && KeptOf(weights, o, q, b);
    RankingIsUnique(weights, p, q);
    ShortestIsUnique(weights, p[..PoolSize(|p|, o.topK)], o.topP, |a|, |b|);
  }

  // ---------------------------------------------------------------------------- only ratios matter

  /** Any two weights of `v` stand in the ratio of those of `w`. */
  predicate Proportional(v: seq<real>, w: seq<real>) {
    |v| == |w| && forall i, j :: 0 <= i < |v| && 0 <= j < |v| ==> v[i] * w[j] == v[j] * w[i]
  }

  predicate Scaled(v: seq<real>, w: seq<real>, c: real) {
    |v| == |w| && forall i :: 0 <= i < |v| ==> v[i] == Part(c, w[i])
  }

  lemma ProportionalIsScaled(v: seq<real>, w: seq<real>) returns (c: real)
    requires Proportional(v, w) && Positive(v) && Positive(w)
    ensures c > 0.0 && Scaled(v, w, c)
  {
    var b :| 0 <= b < |w| && w[b] > 0.0;
    var a :| 0 <= a < |v| && v[a] > 0.0;
    SignOf(v[a], w[b], v[b], w[a]);
    c := v[b] / w[b];
    forall i | 0 <= i < |v|
      ensures v[i] == Part(c, w[i])
    {
      Quotient(v[i], w[i], v[b], w[b]);
    }
  }

  lemma Quotient(x: real, y: real, p: real, q: real)
    requires q > 0.0 && x * q == p * y
    ensures x == (p / q) * y
  {
    assert (p / q) * y == (p * y) / q;
  }

  lemma SignOf(x: real, y: real, p: real, q: real)
    requires x > 0.0 && y > 0.0 && q >= 0.0 && p >= 0.0 && x * y == p * q
    ensures p > 0.0
  {
    assert x * y > 0.0;
  }

  lemma {:induction false} MassScales(v: seq<real>, w: seq<real>, c: real, order: seq<nat>)
    requires Scaled(v, w, c) && forall i :: 0 <= i < |order| ==> order[i] < |v|
    ensures Mass(v, order) == Part(c, Mass(w, order))
    decreases |order|
  {
    if order != [] {
      MassScales(v, w, c, order[..|order| - 1]);
    }
  }

  lemma PartScales(share: real, c: real, whole: real)
    ensures Part(share, Part(c, whole)) == Part(c, Part(share, whole))
  {}

  lemma OrderScales(c: real, x: real, y: real)
    requires c > 0.0
    ensures x < y <==> Part(c, x) < Part(c, y)
    ensures x == y <==> Part(c, x) == Part(c, y)
  {
    if x < y {
      assert c * (y - x) > 0.0;
    } else if y < x {
      assert c * (x - y) > 0.0;
    }
  }

  lemma RankingScales(v: seq<real>, w: seq<real>, c: real, order: seq<nat>)
    requires c > 0.0 && Scaled(v, w, c)
    ensures IsRanking(v, order) <==> IsRanking(w, order)
  {
    hide Part;
    forall a: nat, b: nat | a < |v| && b < |v|
      ensures Before(v, a, b) <==> Before(w, a, b)
    {
      OrderScales(c, w[b], w[a]);
    }
  }

  lemma ShortestScales(v: seq<real>, w: seq<real>, c: real, pool: seq<nat>, share: real, count: nat)
    requires c > 0.0 && Scaled(v, w, c) && forall i :: 0 <= i < |pool| ==> pool[i] < |v|
    requires Shortest(w, pool, share, count)
    ensures Shortest(v, pool, share, count)
  {
    hide Mass, Part;
    MassScales(v, w, c, pool);
    PartScales(share, c, Mass(w, pool));
    forall n: nat | n <= |pool|
      ensures Mass(v, pool[..n]) < Part(share, Mass(v, pool)) <==> Mass(w, pool[..n]) < Part(share, Mass(w, pool))
    {
      MassScales(v, w, c, pool[..n]);
      OrderScales(c, Mass(w, pool[..n]), Part(share, Mass(w, pool)));
    }
  }

  lemma SelectsScales(v: seq<real>, w: seq<real>, c: real, kept: seq<nat>, u: real, i: nat)
    requires c > 0.0 && Scaled(v, w, c) && forall k :: 0 <= k < |kept| ==> kept[k] < |v|
    requires Selects(w, kept, u, i)
    ensures Selects(v, kept, u, i)
  {
    hide Mass, Part;
    MassScales(v, w, c, kept);
    PartScales(u, c, Mass(w, kept));
    MassScales(v, w, c, kept[..i]);
    MassScales(v, w, c, kept[..i + 1]);
    OrderScales(c, Part(u, Mass(w, kept)), Mass(w, kept[..i]));
    OrderScales(c, Part(u, Mass(w, kept)), Mass(w, kept[..i + 1]));
  }

  /** Only the ratios of the weights decide what is kept, and what a draw selects. */
  lemma OnlyRatiosMatter(v: seq<real>, w: seq<real>, o: Options, kept: seq<nat>, u: real, i: nat)
    requires Proportional(v, w) && Positive(v) && Positive(w) && Kept(w, o, kept)
    ensures Kept(v, o, kept) && forall k :: 0 <= k < |kept| ==> kept[k] < |v|
    ensures Selects(w, kept, u, i) ==> Selects(v, kept, u, i)
  {
    hide Shortest, Selects, Before;
    var c := ProportionalIsScaled(v, w);
    var order :| IsRanking(w, order) && KeptOf(w, o, order, kept);
    RankingScales(v, w, c, order);
    var pool := order[..PoolSize(|order|, o.topK)];
    ShortestScales(v, w, c, pool, o.topP, |kept|);
    assert KeptOf(v, o, order, kept);
    if Selects(w, kept, u, i) {
      SelectsScales(v, w, c, kept, u, i);
    }
  }

  /** Two softmax weightings of the same logits have the same ratios. */
  lemma SoftmaxIsProportional(exp: real -> real, logits: seq<real>, temperature: real, v: seq<real>, w: seq<real>)
    requires Exponential(exp) && temperature > 0.0 && Softmax(exp, logits, temperature, v) && Softmax(exp, logits, temperature, w)
    ensures Proportional(v, w)
  {
    hide Exponential, Softmax;
    assert |v| == |w| == |logits| by {
      SoftmaxRatio(exp, logits, temperature, v);
      SoftmaxRatio(exp, logits, temperature, w);
    }
    forall i, j | 0 <= i < |v| && 0 <= j < |v|
      ensures v[i] * w[j] == v[j] * w[i]
    {
      ExponentialIsPositive(exp, logits[i] / temperature);
      ExponentialIsPositive(exp, logits[j] / temperature);
      SoftmaxRatio(exp, logits, temperature, v);
      SoftmaxRatio(exp, logits, temperature, w);
      CrossMultiply(v[i], v[j], w[i], w[j], exp(logits[i] / temperature), exp(logits[j] / temperature));
    }
  }

  lemma SoftmaxRatio(exp: real -> real, logits: seq<real>, temperature: real, w: seq<real>)
    requires temperature > 0.0 && Softmax(exp, logits, temperature, w)
    ensures |w| == |logits|
    ensures forall i, j :: 0 <= i < |w| && 0 <= j < |w| ==> w[i] * exp(logits[j] / temperature) == w[j] * exp(logits[i] / temperature)
  {}

  lemma CrossMultiply(a: real, b: real, c: real, d: real, x: real, y: real)
    requires x > 0.0 && y > 0.0 && a * y == b * x && c * y == d * x
    ensures a * d == b * c
  {
    var r := x / y;
    Quotient(a, b, x, y);
    Quotient(c, d, x, y);
    assert a == r * b && c == r * d;
    assert a * d == r * b * d == b * c;
  }

  method AddWeights(weights: seq<real>, order: seq<nat>) returns (total: real)
    requires forall i :: 0 <= i < |order| ==> order[i] < |weights|
    ensures total == Mass(weights, order)
  {
    total := 0.0;
    for i := 0 to |order|
      invariant total == Mass(weights, order[..i])
    {
      assert order[..i + 1][..i] == order[..i];
      total := total + weights[order[i]];
    }
    assert order[..|order|] == order;
  }

  /** Takes from the front until the share is reached. */
  method Retain(weights: seq<real>, pool: seq<nat>, share: real) returns (count: nat, retained: real)
    requires pool != [] && 0.0 < share <= 1.0 && forall i :: 0 <= i < |pool| ==> pool[i] < |weights|
    requires forall t :: 0 <= t < |weights| ==> weights[t] >= 0.0
    ensures Shortest(weights, pool, share, count) && retained == Mass(weights, pool[..count])
  {
    hide Mass, Part;
    var total := AddWeights(weights, pool);
    var threshold := Part(share, total);
    MassIsNonnegative(weights, pool);
    ShareOf(share, total);
    MassOfOne(weights, pool);
    retained := weights[pool[0]];
    count := 1;
    while retained < threshold && count < |pool|
      invariant 1 <= count <= |pool| && retained == Mass(weights, pool[..count])
      invariant forall c :: 1 <= c < count ==> Mass(weights, pool[..c]) < threshold
      decreases |pool| - count
    {
      MassNext(weights, pool, count);
      retained := retained + weights[pool[count]];
      count := count + 1;
    }
    assert pool[..|pool|] == pool;
  }

  lemma MassOfOne(weights: seq<real>, pool: seq<nat>)
    requires pool != [] && forall i :: 0 <= i < |pool| ==> pool[i] < |weights|
    ensures Mass(weights, pool[..1]) == weights[pool[0]]
  {
    assert pool[..1] == [pool[0]] && [pool[0]][..0] == [];
  }

  lemma MassNext(weights: seq<real>, order: seq<nat>, n: nat)
    requires n < |order| && forall i :: 0 <= i < |order| ==> order[i] < |weights|
    ensures Mass(weights, order[..n + 1]) == Mass(weights, order[..n]) + weights[order[n]]
  {
    assert order[..n + 1][..n] == order[..n];
  }

  lemma MassIsNonnegative(weights: seq<real>, order: seq<nat>)
    requires forall i :: 0 <= i < |order| ==> order[i] < |weights|
    requires forall t :: 0 <= t < |weights| ==> weights[t] >= 0.0
    ensures Mass(weights, order) >= 0.0
  {
    MassGrows(weights, order, 0);
  }

  lemma ShareOf(share: real, total: real)
    requires 0.0 <= share <= 1.0 && total >= 0.0
    ensures 0.0 <= Part(share, total) <= total
    ensures share < 1.0 && total > 0.0 ==> Part(share, total) < total
  {
    var rest := 1.0 - share;
    assert total == share * total + rest * total;
    assert rest * total >= 0.0;
    if share < 1.0 && total > 0.0 {
      assert rest * total > 0.0;
    }
  }

  /** Walks the kept tokens until the draw is used up. */
  method Walk(weights: seq<real>, kept: seq<nat>, drawn: real) returns (i: nat)
    requires forall k :: 0 <= k < |kept| ==> kept[k] < |weights|
    requires 0.0 <= drawn < Mass(weights, kept)
    ensures i < |kept| && Mass(weights, kept[..i]) <= drawn < Mass(weights, kept[..i + 1])
  {
    var target := drawn;
    MassOfNone(weights, kept);
    assert kept[..|kept|] == kept;
    hide Mass;
    i := 0;
    while i + 1 < |kept|
      invariant i < |kept| && target == drawn - Mass(weights, kept[..i]) >= 0.0
      decreases |kept| - i
    {
      MassNext(weights, kept, i);
      target := target - weights[kept[i]];
      if target < 0.0 {
        return;
      }
      i := i + 1;
    }
  }

  method Draw(weights: seq<real>, kept: seq<nat>, u: real) returns (i: nat)
    requires 0.0 <= u < 1.0 && forall k :: 0 <= k < |kept| ==> kept[k] < |weights|
    requires Mass(weights, kept) > 0.0
    ensures Selects(weights, kept, u, i)
  {
    hide Mass, Part;
    var retained := AddWeights(weights, kept);
    ShareOf(u, retained);
    i := Walk(weights, kept, Part(u, retained));
  }

  lemma MassOfNone(weights: seq<real>, order: seq<nat>)
    requires forall i :: 0 <= i < |order| ==> order[i] < |weights|
    ensures Mass(weights, order[..0]) == 0.0
  {}

  /** A logit as a backend computes it. */
  datatype Logit = Number(value: real) | NotFinite

  predicate AllFinite(raw: seq<Logit>) {
    forall i :: 0 <= i < |raw| ==> raw[i].Number?
  }

  function Values(raw: seq<Logit>): (logits: seq<real>)
    requires AllFinite(raw)
    ensures |logits| == |raw|
  {
    seq(|raw|, i requires 0 <= i < |raw| => raw[i].value)
  }

  method CheckFinite(raw: seq<Logit>) returns (ok: bool)
    ensures ok <==> AllFinite(raw)
  {
    for i := 0 to |raw|
      invariant AllFinite(raw[..i])
    {
      if raw[i].NotFinite? {
        return false;
      }
      assert raw[..i + 1] == raw[..i] + [raw[i]];
    }
    assert raw[..|raw|] == raw;
    ok := true;
  }

  /** What a draw may pick: at zero temperature the first largest logit; otherwise the tokens kept are the
      shortest ranked prefix with the required share of the `topK` heaviest, and the draw `u` selects among
      them in proportion to their weights. */
  ghost predicate Picks(exp: real -> real, logits: seq<real>, o: Options, u: real, token: nat, kept: seq<nat>, place: nat) {
    if o.temperature <= 0.0 then FirstMaximum(logits, token)
    else
      forall w :: Softmax(exp, logits, o.temperature, w) ==>
        Kept(w, o, kept) && (forall k :: 0 <= k < |kept| ==> kept[k] < |w|) && Selects(w, kept, u, place) && token == kept[place]
  }

  /** A token, or the reason why none is sampled. */
  method Sample(exp: real -> real, raw: seq<Logit>, o: Options, u: real) returns (r: Result<nat>, ghost kept: seq<nat>, ghost place: nat)
    requires Exponential(exp) && 0.0 <= u < 1.0
    ensures r == Err(InvalidRequest) <==>
              || o.temperature < 0.0 || o.temperature > 100.0 || o.topP <= 0.0 || o.topP > 1.0 || o.topLogprobs > 5
              || (!o.logprobs && o.topLogprobs != 0)
    ensures o.Valid() && (raw == [] || !AllFinite(raw)) ==> r == Err(Internal)
    ensures o.Valid() && raw != [] && AllFinite(raw) ==> r.Ok? && r.value < |raw| && Picks(exp, Values(raw), o, u, r.value, kept, place)
  {
    kept, place := [], 0;
    if !o.Valid() {
      return Err(InvalidRequest), kept, place;
    }
    if raw == [] {
      return Err(Internal), kept, place;
    }
    var finite := CheckFinite(raw);
    if !finite {
      return Err(Internal), kept, place;
    }
    var token;
    token, kept, place := SampleFinite(exp, Values(raw), o, u);
    r := Ok(token);
  }

  method SampleFinite(exp: real -> real, logits: seq<real>, o: Options, u: real) returns (token: nat, ghost kept: seq<nat>, ghost place: nat)
    requires Exponential(exp) && 0.0 <= u < 1.0 && o.Valid() && logits != []
    ensures token < |logits| && Picks(exp, logits, o, u, token, kept, place)
  {
    hide Exponential;
    kept, place := [], 0;
    var best := MaxElement(logits);
    if o.temperature == 0.0 {
      return best, kept, place;
    }
    var weights := Weights(exp, logits, best, o.temperature);
    WeightsAreSoftmax(exp, logits, best, o.temperature);
    var order := Rank(weights);
    var pool := order[..PoolSize(|order|, o.topK)];
    var count, retained := Retain(weights, pool, o.topP);
    kept := pool[..count];
    BestIsFirst(weights, order, best);
    KeptIsPositive(weights, order, pool, count);
    var i := Draw(weights, pool[..count], u);
    place := i;
    assert KeptOf(weights, o, order, kept);
    token := pool[i];
    SoftmaxPicks(exp, logits, o, u, weights, kept, place);
  }

  lemma SoftmaxPicks(exp: real -> real, logits: seq<real>, o: Options, u: real, weights: seq<real>, kept: seq<nat>, place: nat)
    requires Exponential(exp) && o.temperature > 0.0 && Softmax(exp, logits, o.temperature, weights)
    requires Kept(weights, o, kept) && (forall k :: 0 <= k < |kept| ==> kept[k] < |weights|) && Selects(weights, kept, u, place)
    ensures Picks(exp, logits, o, u, kept[place], kept, place)
  {
    hide Kept, Selects, Softmax, Exponential;
    forall w | Softmax(exp, logits, o.temperature, w)
      ensures Kept(w, o, kept) && (forall k :: 0 <= k < |kept| ==> kept[k] < |w|) && Selects(w, kept, u, place)
    {
      SoftmaxIsProportional(exp, logits, o.temperature, w, weights);
      SoftmaxIsPositive(exp, logits, o.temperature, w);
      SoftmaxIsPositive(exp, logits, o.temperature, weights);
      OnlyRatiosMatter(w, weights, o, kept, u, place);
    }
  }

  lemma SoftmaxIsPositive(exp: real -> real, logits: seq<real>, temperature: real, w: seq<real>)
    requires temperature > 0.0 && Softmax(exp, logits, temperature, w)
    ensures Positive(w)
  {}

  lemma BestIsFirst(weights: seq<real>, order: seq<nat>, best: nat)
    requires IsRanking(weights, order) && best < |weights| && weights[best] > 0.0
    ensures order != [] && weights[order[0]] > 0.0
  {
    assert best in order;
    var i :| 0 <= i < |order| && order[i] == best;
    assert i > 0 ==> Before(weights, order[0], order[i]);
  }

  lemma KeptIsPositive(weights: seq<real>, order: seq<nat>, pool: seq<nat>, count: nat)
    requires Ranked(weights, order) && 1 <= count <= |pool| <= |order| && pool == order[..|pool|]
    requires weights[order[0]] > 0.0 && forall t :: 0 <= t < |weights| ==> weights[t] >= 0.0
    ensures Mass(weights, pool[..count]) > 0.0
  {
    MassGrows(weights, pool[..count], 1);
    assert pool[..count][..1] == [order[0]] && [order[0]][..0] == [];
  }

  // ---------------------------------------------------------------------------- greedy sampling, log probabilities

  /** The CPU reference's own greedy choice, from the last row. */
  method GreedySampleLast(rows: seq<seq<Logit>>) returns (r: Result<nat>)
    requires forall k :: 0 <= k < |rows| ==> |rows[k]| == |rows[0]|
    ensures r.Ok? <==> rows != [] && rows[0] != [] && AllFinite(rows[|rows| - 1])
    ensures r.Ok? ==> FirstMaximum(Values(rows[|rows| - 1]), r.value)
  {
    if |rows| == 0 || |rows[0]| == 0 {
      return Err(Internal);
    }
    var finite := CheckFinite(rows[|rows| - 1]);
    if !finite {
      return Err(Internal);
    }
    var last := Values(rows[|rows| - 1]);
    var selected := 0;
    for token := 1 to |last|
      invariant FirstMaximum(last[..token], selected)
    {
      if last[token] > last[selected] {
        selected := token;
      }
    }
    assert last[..|last|] == last;
    r := Ok(selected);
  }

  /** The most probable tokens, best first. */
  method TopTokens(logits: seq<real>, wanted: nat) returns (top: seq<nat>)
    ensures |top| == (if wanted < |logits| then wanted else |logits|) && Ranked(logits, top)
    ensures forall t: nat, k: nat :: t < |logits| && t !in top && k in top ==> Before(logits, k, t)
    ensures top != [] ==> FirstMaximum(logits, top[0])
  {
    var order := Rank(logits);
    var count := if wanted < |logits| then wanted else |logits|;
    top := order[..count];
    forall t: nat, k: nat | t < |logits| && t !in top && k in top
      ensures Before(logits, k, t)
    {
      assert t in order;
      var i :| 0 <= i < |order| && order[i] == t;
      var j :| 0 <= j < |top| && top[j] == k;
      PrefixHas(order, count, i);
    }
    if top != [] {
      RankedFirst(logits, order);
    }
  }

  /** The logarithm of a token's share of the exponentials; `exp` and `log` stand for the library's. */
  function LogProbability(exp: real -> real, log: real -> real, logits: seq<real>, best: nat, t: nat): real
    requires best < |logits| && t < |logits|
  {
    logits[t] - logits[best] - log(SumExp(exp, logits, best, |logits|))
  }

  function SumExp(exp: real -> real, logits: seq<real>, best: nat, n: nat): real
    requires best < |logits| && n <= |logits|
  {
    if n == 0 then 0.0 else SumExp(exp, logits, best, n - 1) + exp(logits[n - 1] - logits[best])
  }

  /** The sum of all exponentials, as the softmax divides by it. */
  function Partition(exp: real -> real, logits: seq<real>, n: nat): real
    requires n <= |logits|
  {
    if n == 0 then 0.0 else Partition(exp, logits, n - 1) + exp(logits[n - 1])
  }

  lemma {:induction false} SumOfDifferences(exp: real -> real, logits: seq<real>, best: nat, n: nat)
    requires Exponential(exp) && best < |logits| && n <= |logits|
    ensures SumExp(exp, logits, best, n) == Partition(exp, logits, n) * exp(0.0 - logits[best])
    ensures Partition(exp, logits, n) >= 0.0 && (n > 0 ==> Partition(exp, logits, n) > 0.0)
  {
    hide Exponential;
    if n > 0 {
      SumOfDifferences(exp, logits, best, n - 1);
      ExponentialIsPositive(exp, logits[n - 1]);
      ExponentialAdds(exp, logits[n - 1], 0.0 - logits[best]);
      assert logits[n - 1] + (0.0 - logits[best]) == logits[n - 1] - logits[best];
      SumTimes(Partition(exp, logits, n - 1), exp(logits[n - 1]), exp(0.0 - logits[best]));
    }
  }

  lemma SumTimes(x: real, y: real, c: real)
    ensures (x + y) * c == x * c + y * c
  {}

  /** A token's log probability is the logarithm of its share of all exponentials. */
  lemma LogProbabilityIsShare(exp: real -> real, log: real -> real, logits: seq<real>, best: nat, t: nat)
    requires Exponential(exp) && (forall x: real :: x > 0.0 ==> exp(log(x)) == x) && best < |logits| && t < |logits|
    ensures exp(LogProbability(exp, log, logits, best, t)) * Partition(exp, logits, |logits|) == exp(logits[t])
  {
    hide Exponential, SumExp, Partition;
    var z, c := Partition(exp, logits, |logits|), exp(0.0 - logits[best]);
    var sum, l := SumExp(exp, logits, best, |logits|), LogProbability(exp, log, logits, best, t);
    SumOfDifferences(exp, logits, best, |logits|);
    ExponentialIsPositive(exp, 0.0 - logits[best]);
    assert z * c > 0.0;
    ExponentialAdds(exp, l, log(sum));
    assert l + log(sum) == logits[t] + (0.0 - logits[best]);
    ExponentialAdds(exp, logits[t], 0.0 - logits[best]);
    Cancel(exp(l), z, exp(logits[t]), c);
  }

  lemma Cancel(x: real, z: real, y: real, c: real)
    requires c > 0.0 && x * (z * c) == y * c
    ensures x * z == y
  {
    assert (x * z - y) * c == 0.0;
  }

  datatype Sampled = Sampled(token: nat, logprob: Option<real>, top: seq<(nat, real)>)

  /** A sampled token with, if asked for, its log probability and the most probable tokens with theirs. */
  method SampleToken(exp: real -> real, log: real -> real, raw: seq<Logit>, o: Options, u: real)
    returns (r: Result<Sampled>, ghost kept: seq<nat>, ghost place: nat)
    requires Exponential(exp) && 0.0 <= u < 1.0
    ensures r.Ok? <==> o.Valid() && raw != [] && AllFinite(raw)
    ensures r.Err? ==> r.error == if !o.Valid() then InvalidRequest else Internal
    ensures r.Ok? ==>
              && r.value.token < |raw| && Picks(exp, Values(raw), o, u, r.value.token, kept, place)
              && (!o.logprobs ==> r.value.logprob == None && r.value.top == [])
              && (o.logprobs ==> exists best :: FirstMaximum(Values(raw), best) && Reports(exp, log, Values(raw), best, o.topLogprobs, r.value))
  {
    var token;
    token, kept, place := Sample(exp, raw, o, u);
    if token.Err? {
      return Err(token.error), kept, place;
    }
    if !o.logprobs {
      return Ok(Sampled(token.value, None, [])), kept, place;
    }
    hide Picks, Reports, FirstMaximum;
    var sampled, best := AddLogProbabilities(exp, log, Values(raw), token.value, o.topLogprobs);
    r := Ok(sampled);
  }

  method AddLogProbabilities(exp: real -> real, log: real -> real, logits: seq<real>, token: nat, wanted: nat)
    returns (r: Sampled, ghost best: nat)
    requires token < |logits|
    ensures r.token == token && FirstMaximum(logits, best) && Reports(exp, log, logits, best, wanted, r)
  {
    hide FirstMaximum, Reports, SumExp;
    var maximum := MaxElement(logits);
    best := maximum;
    assert maximum < |logits| by {
      MaximumExists(logits, maximum);
    }
    var sum := AddExponentials(exp, logits, maximum);
    var scores := seq(|logits|, t requires 0 <= t < |logits| => logits[t] - logits[maximum] - log(sum));
    var top := TopTokens(scores, wanted);
    RankedBelow(scores, top);
    var listed := seq(|top|, i requires 0 <= i < |top| => (top[i], scores[top[i]]));
    r := Sampled(token, Some(scores[token]), listed);
    ScoresReport(exp, log, logits, maximum, wanted, scores, top, r);
  }

  method AddExponentials(exp: real -> real, logits: seq<real>, best: nat) returns (sum: real)
    requires best < |logits|
    ensures sum == SumExp(exp, logits, best, |logits|)
  {
    sum := 0.0;
    for i := 0 to |logits|
      invariant sum == SumExp(exp, logits, best, i)
    {
      sum := sum + exp(logits[i] - logits[best]);
    }
  }

  lemma MaximumExists(logits: seq<real>, t: nat)
    requires FirstMaximum(logits, t)
    ensures t < |logits|
  {}

  lemma ScoresReport(exp: real -> real, log: real -> real, logits: seq<real>, best: nat, wanted: nat,
                     scores: seq<real>, top: seq<nat>, r: Sampled)
    requires best < |logits| == |scores| && r.token < |logits|
    requires forall t: nat :: t < |logits| ==> scores[t] == LogProbability(exp, log, logits, best, t)
    requires Ranked(scores, top) && |top| == (if wanted < |logits| then wanted else |logits|)
    requires forall t: nat, k: nat :: t < |logits| && t !in top && k in top ==> Before(scores, k, t)
    requires r.logprob == Some(scores[r.token]) && |r.top| == |top|
    requires forall i :: 0 <= i < |top| ==> top[i] < |scores| && r.top[i] == (top[i], scores[top[i]])
    ensures Reports(exp, log, logits, best, wanted, r)
  {
    hide SumExp, Before;
    SameRanking(logits, scores, top, logits[best] + log(SumExp(exp, logits, best, |logits|)));
    assert top == seq(|r.top|, i requires 0 <= i < |r.top| => r.top[i].0);
  }

  lemma RankedBelow(weights: seq<real>, order: seq<nat>)
    requires Ranked(weights, order)
    ensures forall i :: 0 <= i < |order| ==> order[i] < |weights|
  {}

  /** The token's own log probability, and the `wanted` most probable tokens, best first, with theirs. */
  ghost predicate Reports(exp: real -> real, log: real -> real, logits: seq<real>, best: nat, wanted: nat, s: Sampled)
    requires best < |logits|
  {
    var top := seq(|s.top|, i requires 0 <= i < |s.top| => s.top[i].0);
    && s.token < |logits| && s.logprob == Some(LogProbability(exp, log, logits, best, s.token))
    && |top| == (if wanted < |logits| then wanted else |logits|) && Ranked(logits, top)
    && (forall t: nat, k: nat :: t < |logits| && t !in top && k in top ==> Before(logits, k, t))
    && forall i :: 0 <= i < |s.top| ==> s.top[i].0 < |logits| && s.top[i].1 == LogProbability(exp, log, logits, best, s.top[i].0)
  }

  /** Subtracting the same from all of them keeps the ranking. */
  lemma SameRanking(logits: seq<real>, scores: seq<real>, top: seq<nat>, d: real)
    requires |scores| == |logits| && forall t :: 0 <= t < |logits| ==> scores[t] == logits[t] - d
    requires Ranked(scores, top)
    ensures Ranked(logits, top)
    ensures forall a: nat, b: nat :: a < |logits| && b < |logits| ==> (Before(logits, a, b) <==> Before(scores, a, b))
  {
    forall i, j | 0 <= i < j < |top|
      ensures Before(logits, top[i], top[j])
    {
      assert Before(scores, top[i], top[j]);
    }
  }

  lemma PrefixHas(order: seq<nat>, count: nat, i: nat)
    requires count <= |order| && i < |order|
    ensures order[i] !in order[..count] ==> i >= count
  {
    if i < count {
      assert order[..count][i] == order[i];
    }
  }

  lemma RankedFirst(weights: seq<real>, order: seq<nat>)
    requires IsRanking(weights, order) && order != []
    ensures FirstMaximum(weights, order[0])
  {
    var first := order[0];
    forall t | 0 <= t < |weights|
      ensures weights[t] <= weights[first] && (t < first ==> weights[t] < weights[first])
    {
      var token: nat := t;
      assert token in order;
      var i :| 0 <= i < |order| && order[i] == token;
      assert i > 0 ==> Before(weights, order[0], order[i]);
    }
  }
}
