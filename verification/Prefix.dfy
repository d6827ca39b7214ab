/** What a pipeline computes for a whole token prefix, and how stage executions extend it. */
module Prefix {
  import opened Transformer
  import opened ChunkedPrefill
  import opened Results
  import opened Stage

  /** One worker running the whole model, or two splitting its layers. */
  datatype Pipeline = Whole(only: Dense) | Split(head: Dense, tail: Dense) {
    predicate Valid() {
      match this
      case Whole(only) => only.Valid() && only.first && only.final
      case Split(head, tail) =>
        && head.Valid() && head.first && !head.final
        && tail.Valid() && !tail.first && tail.final
        && head.Hidden() == tail.Hidden() && head.vocabulary == tail.vocabulary
        && head.model.config.maximumLength == tail.model.config.maximumLength
    }

    function First(): Dense {
      if Whole? then only else head
    }

    function Last(): Dense {
      if Whole? then only else tail
    }

    function Vocabulary(): nat {
      First().vocabulary
    }

    function MaximumLength(): nat {
      First().model.config.maximumLength
    }
  }

  predicate Tokens(pl: Pipeline, p: seq<nat>) {
    forall i :: 0 <= i < |p| ==> p[i] < pl.Vocabulary()
  }

  /** The rows the first stage emits for the whole prefix, recomputed from nothing. */
  function FirstRows(pl: Pipeline, p: seq<nat>): (r: seq<Row>)
    requires pl.Valid() && Tokens(pl, p)
    ensures |r| == |p| && Wide(r, pl.First().Hidden())
  {
    ChunkedPrefill.Output(pl.First().model, Embed(pl.First(), p), Fresh(pl.First().model))
  }

  function FirstCaches(pl: Pipeline, p: seq<nat>): (r: seq<Cache>)
    requires pl.Valid() && Tokens(pl, p)
    ensures ValidCaches(pl.First().model, r) && forall i :: 0 <= i < |r| ==> |r[i].keys| == |p|
  {
    CachesAfter(pl.First().model, Embed(pl.First(), p), Fresh(pl.First().model))
  }

  /** The rows the last stage emits for the whole prefix: a split pipeline hands them over as halves. */
  function LastRows(pl: Pipeline, p: seq<nat>): (r: seq<Row>)
    requires pl.Valid() && Tokens(pl, p)
    ensures |r| == |p| && Wide(r, pl.Last().Hidden())
  {
    if pl.Whole? then FirstRows(pl, p)
    else ChunkedPrefill.Output(pl.tail.model, QuantizeRows(FirstRows(pl, p)), Fresh(pl.tail.model))
  }

  function LastCaches(pl: Pipeline, p: seq<nat>): (r: seq<Cache>)
    requires pl.Valid() && Tokens(pl, p)
    ensures ValidCaches(pl.Last().model, r) && forall i :: 0 <= i < |r| ==> |r[i].keys| == |p|
  {
    if pl.Whole? then FirstCaches(pl, p)
    else CachesAfter(pl.tail.model, QuantizeRows(FirstRows(pl, p)), Fresh(pl.tail.model))
  }

  /** The prefix has a representation on the wire. */
  predicate Sendable(pl: Pipeline, p: seq<nat>)
    requires pl.Valid() && Tokens(pl, p)
  {
    pl.Whole? || FiniteRows(FirstRows(pl, p))
  }

  /** The token a whole-prefix computation picks after `drawn` earlier picks; none if an activation
      or a logit is not finite. */
  function NextToken(pl: Pipeline, s: Sampler, p: seq<nat>, drawn: nat): (r: Option<nat>)
    requires pl.Valid() && Tokens(pl, p) && p != []
    ensures s.Valid() && r.Some? ==> r.value < pl.Vocabulary()
  {
    if Sendable(pl, p) then s.Choose(Logits(pl.Last(), LastRows(pl, p)[|p| - 1]), drawn) else None
  }

  // ---------------------------------------------------------------------------- extending a prefix

  /** The rows the first stage emits when tokens `c` follow prefix `p`. */
  function NewFirstRows(pl: Pipeline, p: seq<nat>, c: seq<nat>): (r: seq<Row>)
    requires pl.Valid() && Tokens(pl, p) && Tokens(pl, c)
    ensures |r| == |c| && Wide(r, pl.First().Hidden())
  {
    ChunkedPrefill.Output(pl.First().model, Embed(pl.First(), c), FirstCaches(pl, p))
  }

  lemma StackAdvances(m: Model, x: seq<Row>, y: seq<Row>)
    requires m.Valid() && Wide(x, m.config.hidden) && Wide(y, m.config.hidden)
    ensures var caches := CachesAfter(m, x, Fresh(m));
            && Wide(x + y, m.config.hidden)
            && ChunkedPrefill.Output(m, x + y, Fresh(m))
               == ChunkedPrefill.Output(m, x, Fresh(m)) + ChunkedPrefill.Output(m, y, caches)
            && CachesAfter(m, x + y, Fresh(m)) == CachesAfter(m, y, caches)
  {
    ThroughSplits(m, x, y, Fresh(m), |m.layers|);
    CachesSplit(m, x, y, Fresh(m));
  }

  lemma FirstAdvances(pl: Pipeline, p: seq<nat>, c: seq<nat>)
    requires pl.Valid() && Tokens(pl, p) && Tokens(pl, c)
    ensures Tokens(pl, p + c)
    ensures FirstRows(pl, p + c) == FirstRows(pl, p) + NewFirstRows(pl, p, c)
    ensures FirstCaches(pl, p + c) == CachesAfter(pl.First().model, Embed(pl.First(), c), FirstCaches(pl, p))
  {
    hide ChunkedPrefill.Output, CachesAfter, Fresh;
    var x, y := Embed(pl.First(), p), Embed(pl.First(), c);
    assert Embed(pl.First(), p + c) == x + y;
    StackAdvances(pl.First().model, x, y);
  }

  /** The rows the last stage emits for the same step. */
  function NewLastRows(pl: Pipeline, p: seq<nat>, c: seq<nat>): (r: seq<Row>)
    requires pl.Valid() && Tokens(pl, p) && Tokens(pl, c)
    ensures |r| == |c| && Wide(r, pl.Last().Hidden())
  {
    if pl.Whole? then NewFirstRows(pl, p, c)
    else ChunkedPrefill.Output(pl.tail.model, QuantizeRows(NewFirstRows(pl, p, c)), LastCaches(pl, p))
  }

  lemma LastAdvances(pl: Pipeline, p: seq<nat>, c: seq<nat>)
    requires pl.Valid() && Tokens(pl, p) && Tokens(pl, c)
    ensures Tokens(pl, p + c)
    ensures LastRows(pl, p + c) == LastRows(pl, p) + NewLastRows(pl, p, c)
    ensures pl.Split? ==>
              LastCaches(pl, p + c) == CachesAfter(pl.tail.model, QuantizeRows(NewFirstRows(pl, p, c)), LastCaches(pl, p))
  {
    hide ChunkedPrefill.Output, CachesAfter, Fresh, FirstRows, NewFirstRows, QuantizeRow;
    FirstAdvances(pl, p, c);
    if pl.Split? {
      var x, y := QuantizeRows(FirstRows(pl, p)), QuantizeRows(NewFirstRows(pl, p, c));
      assert QuantizeRows(FirstRows(pl, p + c)) == x + y;
      StackAdvances(pl.tail.model, x, y);
    }
  }

  lemma SendableAdvances(pl: Pipeline, p: seq<nat>, c: seq<nat>)
    requires pl.Valid() && Tokens(pl, p) && Tokens(pl, c)
    ensures Tokens(pl, p + c)
    ensures Sendable(pl, p + c) <==> Sendable(pl, p) && (pl.Whole? || FiniteRows(NewFirstRows(pl, p, c)))
  {
    hide FirstRows, NewFirstRows;
    FirstAdvances(pl, p, c);
    if pl.Split? {
      var a, b := FirstRows(pl, p), NewFirstRows(pl, p, c);
      assert forall r :: 0 <= r < |a| ==> (a + b)[r] == a[r];
      assert forall r :: 0 <= r < |b| ==> (a + b)[|a| + r] == b[r];
    }
  }

  // ---------------------------------------------------------------------------- stage executions

  /** The wire form of the step's activation. */
  function StepBoundary(pl: Pipeline, p: seq<nat>, c: seq<nat>): Boundary
    requires pl.Valid() && Tokens(pl, p) && Tokens(pl, c)
  {
    Boundary(|c|, pl.First().Hidden(), Encode(Flatten(NewFirstRows(pl, p, c))))
  }

  /** The first of two stages turns the next tokens into their boundary, if it is finite. */
  lemma HeadExecutes(pl: Pipeline, s: Sampler, p: seq<nat>, c: seq<nat>, st: State)
    requires pl.Valid() && pl.Split? && Tokens(pl, p) && Tokens(pl, c) && c != []
    requires st.caches == FirstCaches(pl, p) && |p| + |c| <= st.capacity && |p| + |c| <= pl.MaximumLength()
    ensures Tokens(pl, p + c)
    ensures Execute(pl.head, s, Stage.Tokens(c), |p|, st) ==
              if FiniteRows(NewFirstRows(pl, p, c))
              then Ok((Hidden(StepBoundary(pl, p, c)), st.(caches := FirstCaches(pl, p + c))))
              else Err(Internal)
  {
    hide CachesAfter, FirstRows, Encode, Flatten, ChunkedPrefill.Output;
    FirstAdvances(pl, p, c);
    assert Incoming(pl.head, Stage.Tokens(c)) == Ok(Embed(pl.head, c));
    assert Accepts(pl.head, st, |p|, |c|);
  }

  function StepInput(pl: Pipeline, p: seq<nat>, c: seq<nat>): Input
    requires pl.Valid() && Tokens(pl, p) && Tokens(pl, c)
  {
    if pl.Whole? then Stage.Tokens(c) else Activation(StepBoundary(pl, p, c))
  }

  /** The rows the last stage reads in a step. */
  function StepRows(pl: Pipeline, p: seq<nat>, c: seq<nat>): (r: seq<Row>)
    requires pl.Valid() && Tokens(pl, p) && Tokens(pl, c)
    ensures |r| == |c| && Wide(r, pl.Last().Hidden())
  {
    if pl.Whole? then Embed(pl.only, c) else QuantizeRows(NewFirstRows(pl, p, c))
  }

  lemma StepInputReads(pl: Pipeline, p: seq<nat>, c: seq<nat>)
    requires pl.Valid() && Tokens(pl, p) && Tokens(pl, c) && c != []
    requires pl.Split? ==> FiniteRows(NewFirstRows(pl, p, c))
    requires |c| <= pl.MaximumLength()
    ensures Incoming(pl.Last(), StepInput(pl, p, c)) == Ok(StepRows(pl, p, c))
  {
    hide NewFirstRows, Encode, Flatten;
    if pl.Split? {
      BoundaryIsQuantized(pl.tail, NewFirstRows(pl, p, c));
    }
  }

  lemma StepOutput(pl: Pipeline, p: seq<nat>, c: seq<nat>)
    requires pl.Valid() && Tokens(pl, p) && Tokens(pl, c) && c != []
    ensures Tokens(pl, p + c)
    ensures ChunkedPrefill.Output(pl.Last().model, StepRows(pl, p, c), LastCaches(pl, p)) == NewLastRows(pl, p, c)
    ensures CachesAfter(pl.Last().model, StepRows(pl, p, c), LastCaches(pl, p)) == LastCaches(pl, p + c)
    ensures LastRows(pl, p + c)[|p + c| - 1] == NewLastRows(pl, p, c)[|c| - 1]
  {
    hide CachesAfter, ChunkedPrefill.Output;
    FirstAdvances(pl, p, c);
    LastAdvances(pl, p, c);
  }

  /** The last stage acknowledges a step inside the prompt, and otherwise picks the token that the
      whole prefix determines. */
  lemma LastExecutes(pl: Pipeline, s: Sampler, p: seq<nat>, c: seq<nat>, st: State)
    requires pl.Valid() && Tokens(pl, p) && Tokens(pl, c) && c != []
    requires st.caches == LastCaches(pl, p) && |p| + |c| <= st.capacity && |p| + |c| <= pl.MaximumLength()
    requires Sendable(pl, p) && (pl.Split? ==> FiniteRows(NewFirstRows(pl, p, c)))
    ensures Tokens(pl, p + c)
    ensures var after := st.(caches := LastCaches(pl, p + c));
            Execute(pl.Last(), s, StepInput(pl, p, c), |p|, st) ==
              if st.prefillOnly then Ok((Progress, after))
              else match NextToken(pl, s, p + c, st.drawn)
                   case None => Err(Internal)
                   case Some(t) => Ok((Sampled(t), if s.greedy then after else after.(drawn := st.drawn + 1)))
  {
    hide CachesAfter, FirstRows, NewFirstRows, Encode, Flatten, ChunkedPrefill.Output, Logits, Execute, Incoming, StepRows, StepInput;
    StepOutput(pl, p, c);
    SendableAdvances(pl, p, c);
    StepInputReads(pl, p, c);
    LastAccepts(pl, p, c, st);
    ExecutesTo(pl.Last(), s, StepInput(pl, p, c), |p|, st, StepRows(pl, p, c));
  }

  lemma LastAccepts(pl: Pipeline, p: seq<nat>, c: seq<nat>, st: State)
    requires pl.Valid() && Tokens(pl, p) && st.caches == LastCaches(pl, p)
    requires |p| + |c| <= st.capacity && |p| + |c| <= pl.MaximumLength()
    ensures ValidCaches(pl.Last().model, st.caches) && Accepts(pl.Last(), st, |p|, |c|)
  {
    hide LastCaches;
  }

  /** An execution of rows that are in order. */
  lemma ExecutesTo(d: Dense, s: Sampler, input: Input, position: nat, st: State, rows: seq<Row>)
    requires d.Valid() && ValidCaches(d.model, st.caches) && Incoming(d, input) == Ok(rows) && Accepts(d, st, position, |rows|)
    ensures Execute(d, s, input, position, st)
         == Emit(d, s, ChunkedPrefill.Output(d.model, rows, st.caches), st.(caches := CachesAfter(d.model, rows, st.caches)))
  {
    hide Emit, Incoming, Accepts, CachesAfter, ChunkedPrefill.Output;
  }
}
