/** Enumerating, ranking and validating two-worker placements. */
module Planner {
  import opened Results

  // ---------------------------------------------------------------------------- stage weights

  datatype Role = TokenEmbedding | TransformerLayer | FinalNorm | LmHead | ArchitectureState

  datatype Tensor = Tensor(role: Role, layer: Option<nat>, elements: nat)

  datatype Range = Range(start: nat, end: nat, first: bool, final: bool)

  /** Whether a stage keeps the tensor resident. */
  predicate Resident(t: Tensor, tied: bool, r: Range) {
    match t.role
    case TransformerLayer => t.layer.Some? && r.start <= t.layer.value < r.end
    case TokenEmbedding => r.first || (r.final && tied)
    case FinalNorm => r.final
    case LmHead => r.final && !tied
    case ArchitectureState => true
  }

  /** What the two stages of a split keep: the first has the embedding and its layers, the second the rest of the
      layers, the final norm and the head, for which a tied model needs the embedding again. */
  lemma StagesKeep(t: Tensor, tied: bool, split: nat, layers: nat)
    requires split <= layers && (t.role == TransformerLayer ==> t.layer.Some? && t.layer.value < layers)
    ensures Resident(t, tied, Range(0, split, true, false)) <==>
              t.role == TokenEmbedding || t.role == ArchitectureState || (t.role == TransformerLayer && t.layer.value < split)
    ensures Resident(t, tied, Range(split, layers, false, true)) <==>
              || t.role == FinalNorm || t.role == ArchitectureState || (t.role == TransformerLayer && t.layer.value >= split)
              || (if tied then t.role == TokenEmbedding else t.role == LmHead)
  {}

  function WeightBytes(tensors: seq<Tensor>, tied: bool, bytes: nat, r: Range): nat {
    if tensors == [] then 0
    else
      var t := tensors[|tensors| - 1];
      WeightBytes(tensors[..|tensors| - 1], tied, bytes, r) + if Resident(t, tied, r) then t.elements * bytes else 0
  }

  method StageWeightBytes(tensors: seq<Tensor>, tied: bool, bytes: nat, r: Range) returns (total: nat)
    ensures total == WeightBytes(tensors, tied, bytes, r)
  {
    total := 0;
    for i := 0 to |tensors|
      invariant total == WeightBytes(tensors[..i], tied, bytes, r)
    {
      assert tensors[..i + 1][..i] == tensors[..i];
      var t := tensors[i];
      var kept := false;
      match t.role {
        case TransformerLayer => kept := t.layer.Some? && r.start <= t.layer.value < r.end;
        case TokenEmbedding => kept := r.first || (r.final && tied);
        case FinalNorm => kept := r.final;
        case LmHead => kept := r.final && !tied;
        case ArchitectureState => kept := true;
      }
      if kept {
        total := total + t.elements * bytes;
      }
    }
    assert tensors[..|tensors|] == tensors;
  }

  /** What both stages of a split keep: the embedding of a tied model, and architecture state. */
  function DuplicatedBytes(tensors: seq<Tensor>, tied: bool, bytes: nat): nat {
    if tensors == [] then 0
    else
      var t := tensors[|tensors| - 1];
      DuplicatedBytes(tensors[..|tensors| - 1], tied, bytes)
      + if t.role == ArchitectureState || (t.role == TokenEmbedding && tied) then t.elements * bytes else 0
  }

  /** Splitting loses no weight and duplicates exactly that. */
  lemma {:induction false} WeightsAreConserved(tensors: seq<Tensor>, tied: bool, bytes: nat, split: nat, layers: nat)
    requires split <= layers
    ensures WeightBytes(tensors, tied, bytes, Range(0, split, true, false)) + WeightBytes(tensors, tied, bytes, Range(split, layers, false, true))
            == WeightBytes(tensors, tied, bytes, Range(0, layers, true, true)) + DuplicatedBytes(tensors, tied, bytes)
    decreases |tensors|
  {
    if tensors != [] {
      WeightsAreConserved(tensors[..|tensors| - 1], tied, bytes, split, layers);
    }
  }

  // ---------------------------------------------------------------------------- candidate names

  function Digit(d: nat): char
    requires d < 10
  {
    ('0' as int + d) as char
  }

  function Decimal(n: nat): (s: string)
    ensures |s| > 0
  {
    if n < 10 then [Digit(n)] else Decimal(n / 10) + [Digit(n % 10)]
  }

  /** At least three digits. */
  function Padded(n: nat): string {
    var d := Decimal(n);
    if |d| >= 3 then d else seq(3 - |d|, _ => '0') + d
  }

  function ValueOf(s: string): int {
    if s == [] then 0 else ValueOf(s[..|s| - 1]) * 10 + (s[|s| - 1] as int - '0' as int)
  }

  lemma {:induction false} DecimalValue(n: nat)
    ensures ValueOf(Decimal(n)) == n
  {
    if n < 10 {
      assert [Digit(n)][..0] == [];
    } else {
      DecimalValue(n / 10);
      assert Decimal(n)[..|Decimal(n)| - 1] == Decimal(n / 10);
    }
  }

  lemma {:induction false} ZerosValue(zeros: nat, s: string)
    ensures ValueOf(seq(zeros, _ => '0') + s) == ValueOf(s)
    decreases zeros, |s|
  {
    var all := seq(zeros, _ => '0') + s;
    if s != [] {
      ZerosValue(zeros, s[..|s| - 1]);
      assert all[..|all| - 1] == seq(zeros, _ => '0') + s[..|s| - 1];
    } else if zeros > 0 {
      ZerosValue(zeros - 1, []);
      assert all[..|all| - 1] == seq(zeros - 1, _ => '0') + [];
    }
  }

  lemma PaddedIsInjective(m: nat, n: nat)
    ensures Padded(m) == Padded(n) ==> m == n
  {
    DecimalValue(m);
    DecimalValue(n);
    if |Decimal(m)| < 3 {
      ZerosValue(3 - |Decimal(m)|, Decimal(m));
    }
    if |Decimal(n)| < 3 {
      ZerosValue(3 - |Decimal(n)|, Decimal(n));
    }
  }

  function Joined(first: string, final: string): string {
    first + "--" + final
  }

  function Id(first: string, final: string, split: nat): string {
    Joined(first, final) + ("-m" + Padded(split))
  }

  lemma SplitPoint(a: string, b: string, c: string, d: string)
    requires |a| == |b| && a + c == b + d
    ensures a == b && c == d
  {
    assert a == (a + c)[..|a|] && b == (b + d)[..|b|];
    assert c == (a + c)[|a|..] && d == (b + d)[|b|..];
  }

  /** Two candidates share a name exactly when they have the same split and the worker names read the
      same joined in their two orders. */
  lemma SameName(a: string, b: string, c: string, d: string, s: nat, t: nat)
    requires |a| + |b| == |c| + |d|
    ensures Id(a, b, s) == Id(c, d, t) <==> s == t && Joined(a, b) == Joined(c, d)
  {
    if Id(a, b, s) == Id(c, d, t) {
      SplitPoint(Joined(a, b), Joined(c, d), "-m" + Padded(s), "-m" + Padded(t));
      SplitPoint("-m", "-m", Padded(s), Padded(t));
      PaddedIsInjective(s, t);
    }
  }

  /** Distinct worker names do not rule that out. */
  lemma NamesCanCollide()
    ensures "x" != "x--x" && Joined("x", "x--x") == Joined("x--x", "x")
  {
    assert "x" + "--" + "x--x" == "x--x" + "--" + "x";
  }

  // ---------------------------------------------------------------------------- enumeration and choice

  /** `score` is there if the candidate is feasible. */
  datatype Candidate = Candidate(first: string, final: string, split: nat, score: Option<real>) {
    function Name(): string {
      Id(first, final, split)
    }
  }

  /** How the planner judges a placement: memory, links, measurements. */
  type Judgement = (string, string, nat) -> Option<real>

  function InOrder(judge: Judgement, first: string, final: string, splits: nat): (r: seq<Candidate>)
    ensures |r| == splits
    ensures forall k :: 0 <= k < splits ==> r[k] == Candidate(first, final, k + 1, judge(first, final, k + 1))
  {
    seq(splits, k requires 0 <= k < splits => Candidate(first, final, k + 1, judge(first, final, k + 1)))
  }

  /** Both orders of the workers, and in each every split that leaves both a layer. */
  function Candidates(judge: Judgement, a: string, b: string, layers: nat): seq<Candidate> {
    var splits := if layers == 0 then 0 else layers - 1;
    InOrder(judge, a, b, splits) + InOrder(judge, b, a, splits)
  }

  /** Each order and split is there once. */
  lemma EveryPlacementOnce(judge: Judgement, a: string, b: string, layers: nat, swapped: bool, split: nat) returns (k: nat)
    requires a != b && 1 <= split < layers
    ensures var all, c := Candidates(judge, a, b, layers),
                          Candidate(if swapped then b else a, if swapped then a else b, split,
                                    judge(if swapped then b else a, if swapped then a else b, split));
            k < |all| && all[k] == c && forall j :: 0 <= j < |all| && all[j] == c ==> j == k
  {
    k := if swapped then layers - 1 + (split - 1) else split - 1;
  }

  method Enumerate(judge: Judgement, a: string, b: string, layers: nat) returns (all: seq<Candidate>)
    ensures all == Candidates(judge, a, b, layers)
    ensures forall k :: 0 <= k < |all| ==>
              var c := all[k];
              && ((c.first == a && c.final == b) || (c.first == b && c.final == a)) && 1 <= c.split < layers
              && c.score == judge(c.first, c.final, c.split)
  {
    all := [];
    var orders := [(a, b), (b, a)];
    for o := 0 to 2
      invariant all == if o == 0 then []
                       else if o == 1 then InOrder(judge, a, b, if layers == 0 then 0 else layers - 1)
                       else Candidates(judge, a, b, layers)
    {
      var (first, final) := orders[o];
      ghost var before := all;
      var split := 1;
      while split < layers
        invariant 1 <= split && if layers == 0 then split == 1 else split <= layers
        invariant all == before + InOrder(judge, first, final, split - 1)
        decreases layers - split
      {
        all := all + [Candidate(first, final, split, judge(first, final, split))];
        assert InOrder(judge, first, final, split) == InOrder(judge, first, final, split - 1)
               + [Candidate(first, final, split, judge(first, final, split))];
        split := split + 1;
      }
      assert split - 1 == if layers == 0 then 0 else layers - 1;
      assert o == 0 ==> before + InOrder(judge, first, final, split - 1) == InOrder(judge, a, b, split - 1);
    }
  }

  /** Lexicographic order of names by their characters. */
  predicate NameLess(a: string, b: string)
    decreases |a|
  {
    b != [] && (a == [] || a[0] < b[0] || (a[0] == b[0] && NameLess(a[1..], b[1..])))
  }

  /** The names agree up to a place where the first ends or has the smaller character. */
  predicate LessAt(a: string, b: string, i: nat) {
    i <= |a| && i < |b| && a[..i] == b[..i] && (i < |a| ==> a[i] < b[i])
  }

  lemma {:induction false} NameLessIs(a: string, b: string) returns (i: nat)
    ensures NameLess(a, b) ==> LessAt(a, b, i)
    ensures !NameLess(a, b) ==> forall k: nat :: !LessAt(a, b, k)
    decreases |a|
  {
    i := 0;
    var n := 0;
    if a != [] && b != [] && a[0] == b[0] {
      n := NameLessIs(a[1..], b[1..]);
      i := n + 1;
      LessFurther(a, b, i);
    }
    forall k: nat
      ensures LessAt(a, b, k) ==> NameLess(a, b)
    {
      if k > 0 {
        StartsAlike(a, b, k);
        if a != [] && b != [] && a[0] == b[0] {
          LessFurther(a, b, k);
        }
      }
    }
  }

  lemma LessFurther(a: string, b: string, k: nat)
    requires k > 0 && a != [] && b != [] && a[0] == b[0]
    ensures LessAt(a, b, k) <==> LessAt(a[1..], b[1..], k - 1)
  {
    if k <= |a| && k < |b| {
      assert a[1..][..k - 1] == a[..k][1..] && b[1..][..k - 1] == b[..k][1..];
      assert a[..k] == [a[0]] + a[..k][1..] && b[..k] == [b[0]] + b[..k][1..];
    }
  }

  lemma StartsAlike(a: string, b: string, k: nat)
    requires k > 0
    ensures LessAt(a, b, k) ==> a != [] && b != [] && a[0] == b[0]
  {
    if LessAt(a, b, k) {
      assert a[0] == a[..k][0] && b[0] == b[..k][0];
    }
  }

  lemma {:induction false} NameLessTotal(a: string, b: string)
    ensures a == b ==> !NameLess(a, b)
    ensures a != b ==> NameLess(a, b) || NameLess(b, a)
    ensures !(NameLess(a, b) && NameLess(b, a))
    decreases |a|
  {
    if a != [] && b != [] {
      NameLessTotal(a[1..], b[1..]);
      assert a == [a[0]] + a[1..] && b == [b[0]] + b[1..];
    }
  }

  lemma {:induction false} NameLessTransitive(a: string, b: string, c: string)
    requires NameLess(a, b) && NameLess(b, c)
    ensures NameLess(a, c)
    decreases |a|
  {
    if a != [] && a[0] == b[0] == c[0] {
      NameLessTransitive(a[1..], b[1..], c[1..]);
    }
  }

  /** By score, then by name. */
  predicate Better(c: Candidate, d: Candidate)
    requires c.score.Some? && d.score.Some?
  {
    c.score.value < d.score.value || (c.score.value == d.score.value && NameLess(c.Name(), d.Name()))
  }

  lemma BetterOrders(a: Candidate, b: Candidate, c: Candidate)
    requires a.score.Some? && b.score.Some? && c.score.Some?
    requires Better(b, a) && !Better(c, a)
    ensures !Better(c, b)
  {
    NameLessTotal(a.Name(), c.Name());
    NameLessTotal(b.Name(), c.Name());
    if Better(c, b) && a.score == b.score == c.score {
      NameLessTransitive(c.Name(), b.Name(), a.Name());
    }
  }

  /** No feasible candidate is better than the one at `k`. */
  ghost predicate LeastFeasible(all: seq<Candidate>, k: nat) {
    k < |all| && all[k].score.Some? && forall j :: 0 <= j < |all| && all[j].score.Some? ==> !Better(all[j], all[k])
  }

  /** The first of the sorted feasible candidates. */
  method Choose(all: seq<Candidate>) returns (best: Option<nat>)
    ensures best.None? <==> forall j :: 0 <= j < |all| ==> all[j].score.None?
    ensures best.Some? ==> LeastFeasible(all, best.value)
  {
    best := None;
    for i := 0 to |all|
      invariant best.None? <==> forall j :: 0 <= j < i ==> all[j].score.None?
      invariant best.Some? ==> best.value < i && LeastFeasible(all[..i], best.value)
    {
      if all[i].score.Some? {
        if best.None? || Better(all[i], all[best.value]) {
          if best.Some? {
            forall j | 0 <= j < i && all[j].score.Some?
              ensures !Better(all[j], all[i])
            {
              assert all[..i][j] == all[j];
              BetterOrders(all[best.value], all[i], all[j]);
            }
          }
          NameLessTotal(all[i].Name(), all[i].Name());
          best := Some(i);
        }
      }
    }
    assert all[..|all|] == all;
  }

  /** The candidate the plan is made from: the first with the chosen name. */
  method Find(all: seq<Candidate>, name: string) returns (k: nat)
    requires exists j :: 0 <= j < |all| && all[j].Name() == name
    ensures k < |all| && all[k].Name() == name && forall j :: 0 <= j < k ==> all[j].Name() != name
  {
    k := 0;
    while all[k].Name() != name
      invariant k < |all| && forall j :: 0 <= j < k ==> all[j].Name() != name
      invariant exists j :: k <= j < |all| && all[j].Name() == name
      decreases |all| - k
    {
      k := k + 1;
    }
  }

  ghost predicate FirstNamed(all: seq<Candidate>, k: nat, best: nat) {
    && k < |all| && best < |all| && all[k].Name() == all[best].Name()
    && forall j :: 0 <= j < k ==> all[j].Name() != all[best].Name()
  }

  method Select(judge: Judgement, a: string, b: string, layers: nat) returns (selected: Option<Candidate>, ghost k: nat, ghost best: nat)
    ensures selected.None? <==> forall c :: c in Candidates(judge, a, b, layers) ==> c.score.None?
    ensures selected.Some? ==> selected.value in Candidates(judge, a, b, layers)
    ensures var all := Candidates(judge, a, b, layers);
            selected.Some? ==> LeastFeasible(all, best) && FirstNamed(all, k, best) && selected.value == all[k]
  {
    k, best := 0, 0;
    var all := Enumerate(judge, a, b, layers);
    var chosen := Choose(all);
    if chosen.None? {
      return None, k, best;
    }
    best := chosen.value;
    var found := Find(all, all[chosen.value].Name());
    k := found;
    selected := Some(all[found]);
  }

  /** With names that cannot collide, the plan is made from the best candidate, which beats all others. */
  lemma SelectionIsLeast(judge: Judgement, a: string, b: string, layers: nat, k: nat, best: nat)
    requires Joined(a, b) != Joined(b, a)
    requires var all := Candidates(judge, a, b, layers); LeastFeasible(all, best) && FirstNamed(all, k, best)
    ensures k == best
    ensures var all := Candidates(judge, a, b, layers);
            forall j :: 0 <= j < |all| && all[j].score.Some? && j != best ==>
              || all[best].score.value < all[j].score.value
              || (all[best].score.value == all[j].score.value && NameLess(all[best].Name(), all[j].Name()))
  {
    var all := Candidates(judge, a, b, layers);
    NamesDiffer(judge, a, b, layers, k, best);
    forall j | 0 <= j < |all| && all[j].score.Some? && j != best
      ensures Better(all[best], all[j])
    {
      NamesDiffer(judge, a, b, layers, j, best);
      NameLessTotal(all[j].Name(), all[best].Name());
    }
  }

  lemma NamesDiffer(judge: Judgement, a: string, b: string, layers: nat, i: nat, j: nat)
    requires Joined(a, b) != Joined(b, a)
    requires i < |Candidates(judge, a, b, layers)| && j < |Candidates(judge, a, b, layers)|
    ensures Candidates(judge, a, b, layers)[i].Name() == Candidates(judge, a, b, layers)[j].Name() ==> i == j
  {
    hide Joined, Id;
    var c, d := Candidates(judge, a, b, layers)[i], Candidates(judge, a, b, layers)[j];
    SameName(c.first, c.final, d.first, d.final, c.split, d.split);
  }

  /** When names collide, some judgement makes the planner deploy a placement that it found infeasible. */
  lemma CollidingNamesMislead(a: string, b: string, layers: nat) returns (judge: Judgement, k: nat, best: nat)
    requires a != b && Joined(a, b) == Joined(b, a) && layers >= 2
    ensures var all := Candidates(judge, a, b, layers);
            LeastFeasible(all, best) && FirstNamed(all, k, best) && all[k].score.None?
  {
    judge := (first, final, split) => if first == b && split == 1 then Some(0.0) else None;
    k, best := 0, layers - 1;
    var all := Candidates(judge, a, b, layers);
    assert all[0] == Candidate(a, b, 1, None) && all[best] == Candidate(b, a, 1, Some(0.0));
    assert forall j :: 0 <= j < layers - 1 ==> all[j] == InOrder(judge, a, b, layers - 1)[j] && all[j].score.None?;
    assert forall j :: layers - 1 <= j < |all| ==> all[j] == InOrder(judge, b, a, layers - 1)[j - (layers - 1)];
    NameLessTotal(all[best].Name(), all[best].Name());
  }

  /** Whatever the judgement, the plan is made from a feasible candidate that none is better than. */
  ghost predicate Reliable(a: string, b: string, layers: nat) {
    forall judge: Judgement, k: nat, best: nat ::
      LeastFeasible(Candidates(judge, a, b, layers), best) && FirstNamed(Candidates(judge, a, b, layers), k, best) ==>
        LeastFeasible(Candidates(judge, a, b, layers), k)
  }

  /** The planner is reliable for exactly the pairs of workers whose names read differently when joined
      in their two orders. */
  lemma ReliableExactly(a: string, b: string, layers: nat)
    requires a != b && layers >= 2
    ensures Reliable(a, b, layers) <==> Joined(a, b) != Joined(b, a)
  {
    hide LeastFeasible, FirstNamed, Candidates, Joined;
    if Joined(a, b) == Joined(b, a) {
      var judge, k, best := CollidingNamesMislead(a, b, layers);
      InfeasibleIsNotLeast(Candidates(judge, a, b, layers), k, best);
      assert !Reliable(a, b, layers);
    } else {
      forall judge: Judgement, k: nat, best: nat
        | LeastFeasible(Candidates(judge, a, b, layers), best) && FirstNamed(Candidates(judge, a, b, layers), k, best)
        ensures LeastFeasible(Candidates(judge, a, b, layers), k)
      {
        SelectionIsLeast(judge, a, b, layers, k, best);
      }
    }
  }

  lemma InfeasibleIsNotLeast(all: seq<Candidate>, k: nat, best: nat)
    requires FirstNamed(all, k, best) && all[k].score.None?
    ensures !LeastFeasible(all, k)
  {}

  // ---------------------------------------------------------------------------- the plan's partition

  datatype Assignment = Assignment(
    index: nat, worker: string, start: nat, end: nat, embedding: bool, finalNorm: bool, head: bool, sampling: bool)

  function Assignments(c: Candidate, layers: nat): seq<Assignment> {
    [Assignment(0, c.first, 0, c.split, true, false, false, false), Assignment(1, c.final, c.split, layers, false, true, true, true)]
  }

  /** Stage `i` follows the one before, has a layer, and owns what its place calls for. */
  predicate StageFits(stages: seq<Assignment>, i: nat)
    requires i < |stages|
  {
    var s, last := stages[i], i == |stages| - 1;
    && s.index == i && s.start == (if i == 0 then 0 else stages[i - 1].end) && s.start < s.end
    && s.embedding == (i == 0) && s.finalNorm == last && s.head == last && s.sampling == last
  }

  /** The stages before `n` are in order, on distinct workers. */
  predicate Ranges(stages: seq<Assignment>, n: nat) {
    && n <= |stages|
    && (forall i: nat :: i < n ==> StageFits(stages, i))
    && forall i, j :: 0 <= i < j < n ==> stages[i].worker != stages[j].worker
  }

  /** Consecutive nonempty ranges from layer zero, distinct workers, and each part of the model owned by
      the stage it belongs to. */
  predicate Contiguous(stages: seq<Assignment>) {
    Ranges(stages, |stages|)
  }

  /** What the plan model demands of a plan. */
  predicate ModelAccepts(stages: seq<Assignment>, split: nat)
    requires |stages| > 0
  {
    Contiguous(stages) && split == if |stages| == 2 then stages[0].end else 0
  }

  /** Where a stage's worker is to be reached. */
  datatype Endpoint = Endpoint(stage: nat, worker: string, address: string)

  predicate EndpointFits(stages: seq<Assignment>, e: Endpoint) {
    e.stage < |stages| && e.address != "" && e.worker == stages[e.stage].worker
  }

  /** Each stage has its one endpoint, and no two share an address. */
  predicate Reachable(stages: seq<Assignment>, endpoints: seq<Endpoint>) {
    && |endpoints| == |stages|
    && (forall i :: 0 <= i < |endpoints| ==> EndpointFits(stages, endpoints[i]))
    && forall i, j :: 0 <= i < j < |endpoints| ==> endpoints[i].stage != endpoints[j].stage && endpoints[i].address != endpoints[j].address
  }

  const EMBEDDINGS := "token_embeddings"

  /** A load request: the plan's partition and duplicated groups, the model, and the way to the workers. */
  datatype LoadRequest = LoadRequest(
    stages: seq<Assignment>, split: nat, groups: seq<string>, layers: nat, tied: bool, stage: nat, endpoints: seq<Endpoint>)

  /** What worker `worker` demands of a load request. */
  predicate WorkerAccepts(r: LoadRequest, worker: string) {
    && PartitionAccepted(r.stages, r.split, r.layers, r.stage, worker)
    && Reachable(r.stages, r.endpoints)
    && (r.tied && |r.stages| == 2 ==> EMBEDDINGS in r.groups)
  }

  predicate PartitionAccepted(stages: seq<Assignment>, split: nat, layers: nat, stage: nat, worker: string) {
    && 1 <= |stages| <= 2 && stage < |stages|
    && Contiguous(stages) && (forall i :: 0 <= i < |stages| ==> stages[i].worker != "")
    && stages[|stages| - 1].end == layers && stages[stage].worker == worker
    && (|stages| == 2 ==> split == stages[0].end)
  }

  /** The plan model's check. */
  method ValidatePartition(stages: seq<Assignment>, split: nat) returns (ok: bool)
    requires 1 <= |stages| <= 2
    ensures ok <==> ModelAccepts(stages, split)
  {
    var end := 0;
    var workers: set<string> := {};
    for i := 0 to |stages|
      invariant end == if i == 0 then 0 else stages[i - 1].end
      invariant workers == set k | 0 <= k < i :: stages[k].worker
      invariant Ranges(stages, i)
    {
      var s := stages[i];
      var last := i == |stages| - 1;
      if s.index != i || s.start != end || s.end <= end || s.worker in workers || s.embedding != (i == 0)
         || s.finalNorm != last || s.head != last || s.sampling != last {
        NotContiguous(stages, i);
        return false;
      }
      end := s.end;
      workers := workers + {s.worker};
    }
    ok := split == if |stages| == 2 then stages[0].end else 0;
  }

  lemma NotContiguous(stages: seq<Assignment>, i: nat)
    requires i < |stages|
    requires !StageFits(stages, i) || exists k :: 0 <= k < i && stages[k].worker == stages[i].worker
    ensures !Contiguous(stages)
  {}

  /** The worker's check of a load request. */
  method ValidatePlan(r: LoadRequest, worker: string) returns (ok: bool)
    ensures ok <==> WorkerAccepts(r, worker)
  {
    hide PartitionAccepted, Reachable;
    ok := ValidateStages(r.stages, r.split, r.layers, r.stage, worker);
    if !ok {
      return;
    }
    ok := ValidateEndpoints(r.stages, r.endpoints);
    if !ok {
      return;
    }
    ok := !r.tied || |r.stages| != 2 || EMBEDDINGS in r.groups;
  }

  method ValidateEndpoints(stages: seq<Assignment>, endpoints: seq<Endpoint>) returns (ok: bool)
    ensures ok <==> Reachable(stages, endpoints)
  {
    if |endpoints| != |stages| {
      return false;
    }
    var indices: set<nat>, addresses: set<string> := {}, {};
    for i := 0 to |endpoints|
      invariant indices == set k | 0 <= k < i :: endpoints[k].stage
      invariant addresses == set k | 0 <= k < i :: endpoints[k].address
      invariant forall j :: 0 <= j < i ==> EndpointFits(stages, endpoints[j])
      invariant forall j, k :: 0 <= j < k < i ==> endpoints[j].stage != endpoints[k].stage && endpoints[j].address != endpoints[k].address
    {
      var e := endpoints[i];
      if !EndpointFits(stages, e) || e.stage in indices || e.address in addresses {
        return false;
      }
      indices, addresses := indices + {e.stage}, addresses + {e.address};
    }
    ok := true;
  }

  /** The worker's check of the same partition. */
  method ValidateStages(stages: seq<Assignment>, split: nat, layers: nat, stage: nat, worker: string) returns (ok: bool)
    ensures ok <==> PartitionAccepted(stages, split, layers, stage, worker)
  {
    if (|stages| != 1 && |stages| != 2) || stage >= |stages| {
      return false;
    }
    var end := 0;
    var workers: set<string> := {};
    for i := 0 to |stages|
      invariant end == if i == 0 then 0 else stages[i - 1].end
      invariant i > 0 ==> end <= layers
      invariant workers == set k | 0 <= k < i :: stages[k].worker
      invariant Ranges(stages, i) && forall k :: 0 <= k < i ==> stages[k].worker != ""
    {
      var s := stages[i];
      var first, last := i == 0, i == |stages| - 1;
      if s.index != i || s.start != end || s.end <= end || s.worker in workers
         || s.embedding != first || s.head != last || s.finalNorm != last || s.sampling != last {
        NotContiguous(stages, i);
        return false;
      }
      if s.worker == "" || s.end > layers {
        EndsGrow(stages, i);
        return false;
      }
      workers := workers + {s.worker};
      end := s.end;
    }
    if end != layers || stages[stage].worker != worker {
      return false;
    }
    ok := |stages| == 2 ==> split == stages[0].end;
  }

  lemma EndsGrow(stages: seq<Assignment>, i: nat)
    requires i < |stages| <= 2
    ensures Contiguous(stages) ==> stages[i].end <= stages[|stages| - 1].end
  {
    if Contiguous(stages) && i == 0 && |stages| == 2 {
      assert StageFits(stages, 1);
    }
  }

  /** In an accepted partition each layer has exactly one stage, each stage a layer and a worker of its own, and the
      first and the last stage own the ends of the model. */
  lemma PartitionCovers(r: LoadRequest, worker: string, layer: nat) returns (i: nat)
    requires WorkerAccepts(r, worker)
    ensures layer < r.layers ==>
              i < |r.stages| && forall k :: 0 <= k < |r.stages| ==> (r.stages[k].start <= layer < r.stages[k].end <==> k == i)
    ensures layer >= r.layers ==> forall k :: 0 <= k < |r.stages| ==> layer >= r.stages[k].end
    ensures forall k :: 0 <= k < |r.stages| ==>
              var s, last := r.stages[k], |r.stages| - 1;
              && s.index == k && s.start < s.end && s.worker != "" && (k == r.stage ==> s.worker == worker)
              && (s.embedding <==> k == 0) && (s.finalNorm <==> k == last) && (s.head <==> k == last) && (s.sampling <==> k == last)
              && (k == 0 && last == 1 ==> r.split == s.end && s.worker != r.stages[1].worker)
  {
    hide Reachable;
    assert StageFits(r.stages, 0) && (|r.stages| == 2 ==> StageFits(r.stages, 1));
    i := if |r.stages| == 2 && layer >= r.stages[0].end then 1 else 0;
  }

  /** And each stage has exactly one endpoint, which names its worker, at an address of its own. */
  lemma EndpointsReach(r: LoadRequest, worker: string, stage: nat) returns (i: nat)
    requires WorkerAccepts(r, worker) && stage < |r.stages|
    ensures i < |r.endpoints| && r.endpoints[i].worker == r.stages[stage].worker && r.endpoints[i].address != ""
    ensures forall k :: 0 <= k < |r.endpoints| ==> (r.endpoints[k].stage == stage <==> k == i)
    ensures forall k :: 0 <= k < |r.endpoints| && k != i ==> r.endpoints[k].address != r.endpoints[i].address
  {
    hide Contiguous;
    assert EndpointFits(r.stages, r.endpoints[0]) && (|r.stages| == 2 ==> EndpointFits(r.stages, r.endpoints[1]));
    i := if r.endpoints[0].stage == stage then 0 else 1;
  }

  /** What each worker of a placement is asked to load. */
  function LoadOf(c: Candidate, layers: nat, tied: bool, stage: nat, first: string, final: string): LoadRequest {
    LoadRequest(Assignments(c, layers), c.split, if tied then [EMBEDDINGS] else [], layers, tied, stage,
                [Endpoint(0, c.first, first), Endpoint(1, c.final, final)])
  }

  /** A plan made from an enumerated candidate passes both checks, on each of its two workers, once they are
      given different addresses. */
  lemma PlanPassesBoth(judge: Judgement, a: string, b: string, layers: nat, k: nat, tied: bool, first: string, final: string)
    requires a != b && a != "" && b != "" && k < |Candidates(judge, a, b, layers)|
    requires first != final && first != "" && final != ""
    ensures var c := Candidates(judge, a, b, layers)[k];
            && ModelAccepts(Assignments(c, layers), c.split)
            && WorkerAccepts(LoadOf(c, layers, tied, 0, first, final), c.first)
            && WorkerAccepts(LoadOf(c, layers, tied, 1, first, final), c.final)
            && {c.first, c.final} == {a, b}
  {
    var c := Candidates(judge, a, b, layers)[k];
    var stages := Assignments(c, layers);
    assert StageFits(stages, 0) && StageFits(stages, 1);
    assert EndpointFits(stages, Endpoint(0, c.first, first)) && EndpointFits(stages, Endpoint(1, c.final, final));
  }
}
