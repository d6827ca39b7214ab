/** Token generation by the driver of a pipeline, with the downstream stage it may talk to. */
module Generation {
  import opened Numbers
  import opened ChunkedPrefill
  import opened Results
  import opened Stage
  import opened Prefix
  import opened Codec
  import opened FinalStage

  datatype Prompt = Prompt(tokens: seq<nat>, maximumNew: nat, stops: seq<nat>, chunk: nat)

  datatype Event = PrefillComplete(prompt: nat) | TokenEvent(token: nat, position: nat)
                 | Usage(prompt: nat, generated: nat) | Completed

  // ---------------------------------------------------------------------------- the reference

  /** Tokens generated, and whether generation ended at a stop token or at the requested length. */
  datatype Run = Run(tokens: seq<nat>, complete: bool)

  /** Plain autoregression: recompute the whole prefix for each token, append the token, repeat. */
  function Autoregressive(pl: Pipeline, s: Sampler, p: seq<nat>, generated: nat, request: Prompt): Run
    requires pl.Valid() && s.Valid() && Prefix.Tokens(pl, p) && p != []
    decreases request.maximumNew - generated
  {
    if generated >= request.maximumNew then Run([], true)
    else
      match NextToken(pl, s, p, generated)
      case None => Run([], false)
      case Some(t) =>
        if t in request.stops then Run([t], true)
        else
          TokensPushed(pl, p, t);
          var rest := Autoregressive(pl, s, p + [t], generated + 1, request);
          Run([t] + rest.tokens, rest.complete)
  }

  /** The token that a prefix determines, if there is one. */
  function Following(pl: Pipeline, s: Sampler, p: seq<nat>, generated: nat): Option<nat>
    requires pl.Valid() && s.Valid()
  {
    if p != [] && Prefix.Tokens(pl, p) then NextToken(pl, s, p, generated) else None
  }

  /** Each token is the one that the prompt and the tokens before it determine, only the last one can be a stop
      token, and the run is complete exactly at a stop token or at the requested length; otherwise nothing can follow. */
  predicate IsRun(pl: Pipeline, s: Sampler, p: seq<nat>, generated: nat, request: Prompt, run: Run)
    requires pl.Valid() && s.Valid()
  {
    && (run.tokens != [] ==> generated + |run.tokens| <= request.maximumNew)
    && (forall i :: 0 <= i < |run.tokens| ==> Following(pl, s, p + run.tokens[..i], generated + i) == Some(run.tokens[i]))
    && (forall i :: 0 <= i < |run.tokens| - 1 ==> run.tokens[i] !in request.stops)
    && (run.complete <==>
          generated + |run.tokens| >= request.maximumNew
          || (run.tokens != [] && run.tokens[|run.tokens| - 1] in request.stops))
    && (!run.complete ==> Following(pl, s, p + run.tokens, generated + |run.tokens|) == None)
  }

  /** The reference is the run of that description, */
  lemma {:induction false} ReferenceIsRun(pl: Pipeline, s: Sampler, p: seq<nat>, generated: nat, request: Prompt)
    requires pl.Valid() && s.Valid() && Prefix.Tokens(pl, p) && p != []
    ensures IsRun(pl, s, p, generated, request, Autoregressive(pl, s, p, generated, request))
    decreases request.maximumNew - generated
  {
    hide NextToken, Pipeline.Valid, Sampler.Valid, Prefix.Tokens, IsRun;
    if generated >= request.maximumNew || NextToken(pl, s, p, generated).None? {
      NoneFollow(pl, s, p, generated, request, generated >= request.maximumNew);
    } else {
      var t := NextToken(pl, s, p, generated).value;
      PickedIsToken(pl, s, p, generated);
      TokensPushed(pl, p, t);
      if t in request.stops {
        OneFollows(pl, s, p, generated, request, t);
      } else {
        ReferenceIsRun(pl, s, p + [t], generated + 1, request);
        RunExtends(pl, s, p, generated, request, t, Autoregressive(pl, s, p + [t], generated + 1, request));
      }
    }
  }

  lemma NoneFollow(pl: Pipeline, s: Sampler, p: seq<nat>, generated: nat, request: Prompt, complete: bool)
    requires pl.Valid() && s.Valid() && complete == (generated >= request.maximumNew)
    requires complete || Following(pl, s, p, generated) == None
    ensures IsRun(pl, s, p, generated, request, Run([], complete))
  {
    hide Following, Pipeline.Valid, Sampler.Valid;
    assert p + [] == p;
  }

  lemma OneFollows(pl: Pipeline, s: Sampler, p: seq<nat>, generated: nat, request: Prompt, t: nat)
    requires pl.Valid() && s.Valid() && generated < request.maximumNew && t in request.stops
    requires Following(pl, s, p, generated) == Some(t)
    ensures IsRun(pl, s, p, generated, request, Run([t], true))
  {
    hide Following, Pipeline.Valid, Sampler.Valid;
    assert p + [t][..0] == p;
  }

  lemma RunExtends(pl: Pipeline, s: Sampler, p: seq<nat>, generated: nat, request: Prompt, t: nat, rest: Run)
    requires pl.Valid() && s.Valid() && generated < request.maximumNew && t !in request.stops
    requires Following(pl, s, p, generated) == Some(t) && IsRun(pl, s, p + [t], generated + 1, request, rest)
    ensures IsRun(pl, s, p, generated, request, Run([t] + rest.tokens, rest.complete))
  {
    hide Following, Pipeline.Valid, Sampler.Valid;
    var all := [t] + rest.tokens;
    forall i | 0 <= i < |all|
      ensures Following(pl, s, p + all[..i], generated + i) == Some(all[i])
    {
      if i == 0 {
        assert p + all[..0] == p;
      } else {
        assert p + all[..i] == p + [t] + rest.tokens[..i - 1];
      }
    }
    assert p + all == p + [t] + rest.tokens;
  }

  /** and the only one. */
  lemma RunIsUnique(pl: Pipeline, s: Sampler, p: seq<nat>, generated: nat, request: Prompt, a: Run, b: Run)
    requires pl.Valid() && s.Valid() && IsRun(pl, s, p, generated, request, a) && IsRun(pl, s, p, generated, request, b)
    ensures a == b
  {
    hide Following, Pipeline.Valid, Sampler.Valid;
    var n := Least(|a.tokens|, |b.tokens|);
    RunsAgree(pl, s, p, generated, request, a, b, n);
    assert a.tokens[..n] == b.tokens[..n];
    assert a.tokens[..|a.tokens|] == a.tokens && b.tokens[..|b.tokens|] == b.tokens;
  }

  lemma {:induction false} RunsAgree(pl: Pipeline, s: Sampler, p: seq<nat>, generated: nat, request: Prompt, a: Run, b: Run, n: nat)
    requires pl.Valid() && s.Valid() && IsRun(pl, s, p, generated, request, a) && IsRun(pl, s, p, generated, request, b)
    requires n <= |a.tokens| && n <= |b.tokens|
    ensures a.tokens[..n] == b.tokens[..n]
  {
    hide Following, Pipeline.Valid, Sampler.Valid;
    if n > 0 {
      RunsAgree(pl, s, p, generated, request, a, b, n - 1);
      assert a.tokens[..n] == a.tokens[..n - 1] + [a.tokens[n - 1]] && b.tokens[..n] == b.tokens[..n - 1] + [b.tokens[n - 1]];
    }
  }

  function TokenEvents(prompt: nat, tokens: seq<nat>): (r: seq<Event>)
    ensures |r| == |tokens|
  {
    seq(|tokens|, i requires 0 <= i < |tokens| => TokenEvent(tokens[i], prompt + i))
  }

  /** What the client of a generation sees. */
  function Transcript(prompt: nat, run: Run): seq<Event> {
    (if run.tokens == [] then [] else [PrefillComplete(prompt)] + TokenEvents(prompt, run.tokens))
    + (if run.complete then [Usage(prompt, |run.tokens|), Completed] else [])
  }

  /** Event `k` of a run: that the prompt is complete, with the first token; the tokens at consecutive positions after
      the prompt; and if the run completes the counts and the end. */
  predicate Tells(prompt: nat, run: Run, k: nat, e: Event) {
    var n := |run.tokens|;
    var k := if n == 0 then k + 1 else k;
    && (k == 0 ==> e == PrefillComplete(prompt))
    && (1 <= k <= n ==> e == TokenEvent(run.tokens[k - 1], prompt + k - 1))
    && (k == n + 1 ==> run.complete && e == Usage(prompt, n))
    && (k == n + 2 ==> run.complete && e == Completed)
    && k <= n + 2
  }

  lemma TranscriptTells(prompt: nat, run: Run)
    ensures |Transcript(prompt, run)| == (if run.tokens == [] then 0 else |run.tokens| + 1) + (if run.complete then 2 else 0)
    ensures forall k: nat :: k < |Transcript(prompt, run)| ==> Tells(prompt, run, k, Transcript(prompt, run)[k])
  {}

  lemma PrefixTells(prompt: nat, run: Run, events: seq<Event>)
    requires events <= Transcript(prompt, run)
    ensures forall k: nat :: k < |events| ==> Tells(prompt, run, k, events[k])
  {
    hide Transcript, Tells;
    TranscriptTells(prompt, run);
  }

  // ---------------------------------------------------------------------------- admission of a prompt

  /** The most tokens of one prefill input. */
  function ChunkSize(request: Prompt): nat {
    if request.chunk == 0 then |request.tokens| else Least(request.chunk, |request.tokens|)
  }

  function TotalTokens(request: Prompt): nat {
    |request.tokens| + request.maximumNew
  }

  /** The driver's refusals of a leased request, in order. */
  function Refusal(pl: Pipeline, request: Prompt): Option<Error>
    requires pl.Valid()
  {
    if exists i :: 0 <= i < |request.stops| && request.stops[i] >= pl.Vocabulary() then Some(InvalidRequest)
    else if pl.Split? && ChunkSize(request) > MAXIMUM_RPC_BYTES / 4 / pl.First().Hidden() then Some(ResourceExhausted)
    else if !Prefix.Tokens(pl, request.tokens) then Some(InvalidRequest)
    else None
  }

  /** The chunk size is the largest that exceeds neither the prompt nor the size asked for. */
  lemma ChunkIsLargest(request: Prompt, n: nat)
    ensures n <= ChunkSize(request) <==> n <= |request.tokens| && (request.chunk == 0 || n <= request.chunk)
  {}

  /** When a request is refused, and how: stop tokens are looked at first, then what a step would send, then the prompt. */
  lemma RefusesExactly(pl: Pipeline, request: Prompt)
    requires pl.Valid()
    ensures var n := pl.Vocabulary();
            var stops := forall i :: 0 <= i < |request.stops| ==> request.stops[i] < n;
            var fits := pl.Split? ==> ChunkSize(request) * pl.First().Hidden() <= MAXIMUM_RPC_BYTES / 4;
            var tokens := forall i :: 0 <= i < |request.tokens| ==> request.tokens[i] < n;
            && (!stops ==> Refusal(pl, request) == Some(InvalidRequest))
            && (stops && !fits ==> Refusal(pl, request) == Some(ResourceExhausted))
            && (stops && fits && !tokens ==> Refusal(pl, request) == Some(InvalidRequest))
            && (stops && fits && tokens ==> Refusal(pl, request) == None && Prefix.Tokens(pl, request.tokens))
  {
    HiddenIsPositive(pl);
    hide Pipeline.Valid;
    QuotientBound(ChunkSize(request), pl.First().Hidden(), MAXIMUM_RPC_BYTES / 4);
  }

  lemma HiddenIsPositive(pl: Pipeline)
    requires pl.Valid()
    ensures pl.First().Hidden() > 0
  {}

  /** What `acquire` grants a request on one stage. */
  predicate Grants(d: Dense, request: Prompt, l: Lease) {
    && l.identity.Valid() && l.identity.maximumTokens == TotalTokens(request) && l.identity.hidden == d.Hidden()
    && l.maximumTokens == TotalTokens(request)
    && l.maximumQueryTokens == QueryRows(TotalTokens(request), request.chunk)
    && AllocateSequence(d, TotalTokens(request)) == Ok(l.sequence)
  }

  // ---------------------------------------------------------------------------- lockstep

  /** The driver and the downstream stage agree after the tokens `p` of one generation. */
  predicate InStep(pl: Pipeline, o: Opening, l: Lease, v: Counters, prompt: nat, p: seq<nat>)
    requires pl.Valid()
  {
    && Prefix.Tokens(pl, p) && v.position == |p| && v.prompt == prompt > 0 && !v.stopped
    && (v.step == 0 ==> p == [])
    && v.sequence.caches == LastCaches(pl, p)
    && v.sequence.capacity == l.maximumTokens == l.identity.maximumTokens == prompt + o.maximumNew
    && l.maximumTokens <= pl.MaximumLength()
    && l.identity.Valid() && l.identity.hidden == pl.Last().Hidden()
  }

  /** Tokens `c` are the next input after `p`: a chunk of the prompt, or one generated token. */
  predicate NextInput(o: Opening, l: Lease, prompt: nat, p: seq<nat>, c: seq<nat>) {
    && c != [] && |c| <= l.maximumQueryTokens
    && (if |p| < prompt then |p| + |c| <= prompt else |c| == 1)
    && |p| + |c| < prompt + o.maximumNew
  }

  /** A step's activation fits the transport. */
  lemma StepEncodes(pl: Pipeline, l: Lease, p: seq<nat>, c: seq<nat>, step: nat, prefilling: bool)
    requires pl.Valid() && pl.Split? && Prefix.Tokens(pl, p) && Prefix.Tokens(pl, c) && c != []
    requires FiniteRows(NewFirstRows(pl, p, c)) && l.identity.hidden == pl.First().Hidden() > 0
    requires |c| * pl.First().Hidden() <= MAXIMUM_RPC_BYTES / 4
    ensures Encoded(StepBoundary(pl, p, c), l.identity, step, |p|, prefilling).Ok?
  {
    hide NewFirstRows, Encode, Flatten, Encoded;
    var rows := NewFirstRows(pl, p, c);
    FlattenLength(rows, pl.First().Hidden());
    FiniteFlatten(rows);
    FiniteRowEncodes(Flatten(rows));
    EncodableExactly(StepBoundary(pl, p, c), l.identity, step, |p|, prefilling);
  }

  /** Where the downstream counters stand after an input is taken in. */
  function Moved(pl: Pipeline, s: Sampler, o: Opening, v: Counters, prompt: nat, p: seq<nat>, c: seq<nat>): Counters
    requires pl.Valid() && Prefix.Tokens(pl, p + c)
  {
    var next := |p| + |c|;
    var flagged := v.sequence.(prefilling := |p| < prompt, prefillOnly := next < prompt, caches := LastCaches(pl, p + c));
    if next < prompt then v.(sequence := flagged, position := next, step := v.step + 1)
    else
      var drawn := if s.greedy then v.sequence.drawn else v.sequence.drawn + 1;
      v.(sequence := flagged.(drawn := drawn), position := next, step := v.step + 1, generated := v.generated + 1)
  }

  /** In lockstep the downstream stage rejects nothing: it acknowledges a chunk inside the prompt, and
      otherwise answers with the token that the whole prefix determines. */
  lemma TensorAnswered(pl: Pipeline, s: Sampler, o: Opening, l: Lease, v: Counters, prompt: nat, p: seq<nat>, c: seq<nat>)
    requires pl.Valid() && pl.Split? && s.Valid() && Prefix.Tokens(pl, p) && Prefix.Tokens(pl, c)
    requires InStep(pl, o, l, v, prompt, p) && NextInput(o, l, prompt, p, c)
    requires Sendable(pl, p) && FiniteRows(NewFirstRows(pl, p, c)) && |c| * pl.First().Hidden() <= MAXIMUM_RPC_BYTES / 4
    ensures Prefix.Tokens(pl, p + c)
    ensures var sent := Encoded(StepBoundary(pl, p, c), l.identity, v.step, |p|, |p| < prompt);
            && sent.Ok?
            && var answer := OnTensor(pl.tail, s, o, l, v, sent.value);
               if |p| + |c| < prompt then
                 answer == Ok((PrefillProgress(l.identity, v.step, |p| + |c|), Moved(pl, s, o, v, prompt, p, c)))
               else
                 match NextToken(pl, s, p + c, v.sequence.drawn)
                 case None => answer == Err(Internal)
                 case Some(t) =>
                   var stopped := v.generated + 1 == o.maximumNew || t in o.stops;
                   answer == Ok((SampledToken(l.identity, v.step, |p| + |c|, t),
                                 Moved(pl, s, o, v, prompt, p, c).(stopped := stopped)))
  {
    hide NewFirstRows, LastCaches, Execute, NextToken, FiniteRows, Taken, Encoded, StepBoundary, Sendable, NextInput, InStep, Pipeline.Valid;
    TensorTaken(pl, o, l, v, prompt, p, c);
    StepKnows(pl, o, l, v, prompt, p, c);
    var flagged := v.sequence.(prefilling := |p| < prompt, prefillOnly := |p| + |c| < prompt);
    LastExecutes(pl, s, p, c, flagged);
  }

  /** The message of a step passes the receiver's checks. */
  lemma TensorTaken(pl: Pipeline, o: Opening, l: Lease, v: Counters, prompt: nat, p: seq<nat>, c: seq<nat>)
    requires pl.Valid() && pl.Split? && Prefix.Tokens(pl, p) && Prefix.Tokens(pl, c)
    requires InStep(pl, o, l, v, prompt, p) && NextInput(o, l, prompt, p, c)
    requires FiniteRows(NewFirstRows(pl, p, c)) && |c| * pl.First().Hidden() <= MAXIMUM_RPC_BYTES / 4
    ensures var sent, b := Encoded(StepBoundary(pl, p, c), l.identity, v.step, |p|, |p| < prompt), StepBoundary(pl, p, c);
            sent.Ok?
            && Taken(o, l, v, sent.value)
               == Ok((b, prompt, v.sequence.(prefilling := |p| < prompt, prefillOnly := |p| + |c| < prompt)))
  {
    hide NewFirstRows, LastCaches, Encode, Flatten, FiniteRows;
    StepEncodes(pl, l, p, c, v.step, |p| < prompt);
    DecodeUndoesEncode(StepBoundary(pl, p, c), l.identity, v.step, |p|, |p| < prompt);
  }

  /** What lockstep says about the state that a step runs on. */
  lemma StepKnows(pl: Pipeline, o: Opening, l: Lease, v: Counters, prompt: nat, p: seq<nat>, c: seq<nat>)
    requires pl.Valid() && pl.Split? && Prefix.Tokens(pl, p) && Prefix.Tokens(pl, c)
    requires InStep(pl, o, l, v, prompt, p) && NextInput(o, l, prompt, p, c)
    ensures c != [] && v.sequence.caches == LastCaches(pl, p) && v.position == |p| && v.prompt == prompt
    ensures |p| + |c| <= v.sequence.capacity && |p| + |c| <= pl.MaximumLength()
    ensures StepInput(pl, p, c) == Activation(StepBoundary(pl, p, c)) && StepBoundary(pl, p, c).tokens == |c|
    ensures pl.tail.Valid() && pl.Last() == pl.tail && pl.tail.vocabulary == pl.Vocabulary()
  {
    hide NewFirstRows, LastCaches, Encode, Flatten;
  }

  lemma PickedIsToken(pl: Pipeline, s: Sampler, p: seq<nat>, drawn: nat)
    requires pl.Valid() && s.Valid() && Prefix.Tokens(pl, p) && p != []
    ensures NextToken(pl, s, p, drawn).Some? ==> NextToken(pl, s, p, drawn).value < pl.Vocabulary()
  {
    if Sendable(pl, p) {
      var logits := Logits(pl.Last(), LastRows(pl, p)[|p| - 1]);
      assert s.Choose(logits, drawn).Some? ==> s.Choose(logits, drawn).value < |logits|;
    }
  }

  /** One write and one read on the downstream stream, with the driver's checks of the answer. */
  method Exchange(peer: Session, l: Lease, b: Boundary, step: nat, position: nat, prefilling: bool, prefillOnly: bool,
                  count: nat, vocabulary: nat, ghost pl: Pipeline, ghost prompt: nat, ghost p: seq<nat>, ghost c: seq<nat>)
    returns (r: Result<Option<nat>>)
    requires peer.Valid() && pl.Valid() && pl.Split? && peer.tail == pl.tail && peer.sampler.Valid() && vocabulary == pl.Vocabulary()
    requires Prefix.Tokens(pl, p) && Prefix.Tokens(pl, c)
    requires InStep(pl, peer.opening, peer.lease, peer.View(), prompt, p) && NextInput(peer.opening, peer.lease, prompt, p, c)
    requires Sendable(pl, p) && FiniteRows(NewFirstRows(pl, p, c)) && |c| * pl.First().Hidden() <= MAXIMUM_RPC_BYTES / 4
    requires b == StepBoundary(pl, p, c) && count == |c| && position == |p| && step == peer.step && l.identity == peer.lease.identity
    requires prefilling == (|p| < prompt) && prefillOnly == (|p| + |c| < prompt)
    modifies peer
    ensures peer.Valid() && Prefix.Tokens(pl, p + c)
    ensures
      if prefillOnly then r == Ok(None) && peer.View() == Moved(pl, peer.sampler, peer.opening, old(peer.View()), prompt, p, c)
      else match old(NextToken(pl, peer.sampler, p + c, peer.sequence.drawn))
           case None => r == Err(Internal)
           case Some(t) =>
             && r == Ok(Some(t)) && t < vocabulary
             && var stopped := old(peer.generated) + 1 == peer.opening.maximumNew || t in peer.opening.stops;
                peer.View() == Moved(pl, peer.sampler, peer.opening, old(peer.View()), prompt, p, c).(stopped := stopped)
    ensures r.Err? ==> peer.generated == old(peer.generated)
  {
    hide NewFirstRows, LastCaches, FirstCaches, FiniteRows, StepBoundary, Encoded, OnTensor, NextToken, Sendable;
    TensorAnswered(pl, peer.sampler, peer.opening, peer.lease, peer.View(), prompt, p, c);
    PickedIsToken(pl, peer.sampler, p + c, peer.sequence.drawn);
    var sent := EncodeTensor(b, l.identity, step, position, prefilling);
    var reply := peer.Receive(Request.Tensor(sent.value));
    if reply.Err? {
      return Err(reply.error);
    }
    if prefillOnly {
      if !reply.value.PrefillProgress? || reply.value.identity != l.identity || reply.value.sequence != step
         || reply.value.next != position + count {
        return Err(Internal);
      }
      return Ok(None);
    }
    if !reply.value.SampledToken? || reply.value.identity != l.identity || reply.value.sequence != step
       || reply.value.position != position + count || reply.value.token >= vocabulary {
      return Err(Internal);
    }
    return Ok(Some(reply.value.token));
  }

  // ---------------------------------------------------------------------------- the driver

  predicate Malformed(request: Prompt) {
    request.tokens == [] || request.maximumNew == 0 || TotalTokens(request) > MAXIMUM_SIZE
  }

  /** Putting already emitted tokens in front of the rest of a run. */
  function Prepend(emitted: seq<nat>, rest: Run): Run {
    Run(emitted + rest.tokens, rest.complete)
  }

  /** The driver's own place in a generation: which tokens it has consumed, and what it sends next. */
  ghost predicate DriverAt(pl: Pipeline, request: Prompt, emitted: seq<nat>, position: nat, tokens: seq<nat>)
    requires pl.Valid()
  {
    && Prefix.Tokens(pl, request.tokens) && Prefix.Tokens(pl, emitted) && request.tokens != []
    && |emitted| <= request.maximumNew
    && (if emitted == [] then position < |request.tokens|
        else position == |request.tokens| + |emitted| - 1 && tokens == [emitted[|emitted| - 1]])
  }

  function Consumed(request: Prompt, emitted: seq<nat>, position: nat): seq<nat> {
    (request.tokens + emitted)[..Least(position, |request.tokens| + |emitted|)]
  }

  /** The sampling counter only matters when sampling draws. */
  predicate DrawsCount(s: Sampler, st: State, generated: nat) {
    s.greedy || st.drawn == generated
  }

  lemma DrawnIsGenerated(pl: Pipeline, s: Sampler, p: seq<nat>, st: State, generated: nat)
    requires pl.Valid() && Prefix.Tokens(pl, p) && p != [] && DrawsCount(s, st, generated)
    ensures NextToken(pl, s, p, st.drawn) == NextToken(pl, s, p, generated)
  {}

  /** The tokens of the next step. */
  function StepTokens(request: Prompt, emitted: seq<nat>, position: nat): (c: seq<nat>) {
    if position < |request.tokens| then
      request.tokens[position..position + Least(ChunkSize(request), |request.tokens| - position)]
    else if emitted == [] then []
    else [emitted[|emitted| - 1]]
  }

  /** Tokens `c` may follow `p` as one input of the request. */
  predicate NextStep(request: Prompt, p: seq<nat>, c: seq<nat>) {
    && c != [] && |c| <= QueryRows(TotalTokens(request), request.chunk)
    && (if |p| < |request.tokens| then |p| + |c| <= |request.tokens| else |c| == 1)
    && |p| + |c| < TotalTokens(request)
  }

  /** The next step's tokens continue the consumed prefix and stay inside the reservation. */
  lemma StepContinues(pl: Pipeline, request: Prompt, emitted: seq<nat>, position: nat, tokens: seq<nat>)
    requires pl.Valid() && DriverAt(pl, request, emitted, position, tokens)
    requires |emitted| < request.maximumNew
    ensures var p, c := Consumed(request, emitted, position), StepTokens(request, emitted, position);
            && Prefix.Tokens(pl, p) && Prefix.Tokens(pl, c) && |p| == position
            && NextStep(request, p, c) && |c| <= ChunkSize(request)
            && p + c == Consumed(request, emitted, position + |c|)
            && (position + |c| >= |request.tokens| ==> p + c == request.tokens + emitted)
  {
    hide Pipeline.Valid, Consumed;
    var all, c := request.tokens + emitted, StepTokens(request, emitted, position);
    StepIsSlice(request, emitted, position);
    ConsumedIs(request, emitted, position);
    ConsumedIs(request, emitted, position + |c|);
    Joins(all, position, position + |c|);
    TokensJoined(pl, request.tokens, emitted, position, position + |c|);
    assert all[..|all|] == all;
  }

  lemma StepIsSlice(request: Prompt, emitted: seq<nat>, position: nat)
    requires request.tokens != [] && if emitted == [] then position < |request.tokens| else position == |request.tokens| + |emitted| - 1
    ensures var all, c := request.tokens + emitted, StepTokens(request, emitted, position);
            c != [] && position + |c| <= |all| && c == all[position..position + |c|]
  {
    var all, c := request.tokens + emitted, StepTokens(request, emitted, position);
    forall k | 0 <= k < |c|
      ensures c[k] == all[position + k]
    {}
  }

  lemma ConsumedIs(request: Prompt, emitted: seq<nat>, position: nat)
    requires position <= |request.tokens| + |emitted|
    ensures Consumed(request, emitted, position) == (request.tokens + emitted)[..position]
  {}

  lemma Joins(s: seq<nat>, a: nat, b: nat)
    requires a <= b <= |s|
    ensures s[..a] + s[a..b] == s[..b]
  {}

  lemma TokensJoined(pl: Pipeline, p: seq<nat>, q: seq<nat>, a: nat, b: nat)
    requires Prefix.Tokens(pl, p) && Prefix.Tokens(pl, q) && a <= b <= |p + q|
    ensures Prefix.Tokens(pl, (p + q)[..a]) && Prefix.Tokens(pl, (p + q)[a..b])
  {
    assert forall i :: 0 <= i < |p + q| ==> (p + q)[i] < pl.Vocabulary();
  }

  lemma FreshIsEmptyPrefix(pl: Pipeline)
    requires pl.Valid()
    ensures FirstCaches(pl, []) == Fresh(pl.First().model) && LastCaches(pl, []) == Fresh(pl.Last().model)
    ensures Sendable(pl, [])
  {
    hide CachesAfter, ChunkedPrefill.Output, Model.Valid;
    NothingChanges(pl.First().model, Fresh(pl.First().model));
    assert Embed(pl.First(), []) == [];
    assert FirstRows(pl, []) == [] && FirstCaches(pl, []) == Fresh(pl.First().model);
    if pl.Split? {
      NothingChanges(pl.tail.model, Fresh(pl.tail.model));
      assert QuantizeRows([]) == [] && FiniteRows([]);
    }
  }

  /** The driver's sequence state for a consumed prefix. */
  predicate Ready(pl: Pipeline, s: Sampler, st: State, p: seq<nat>, total: nat, generated: nat)
    requires pl.Valid()
  {
    && Prefix.Tokens(pl, p) && Sendable(pl, p)
    && st.caches == FirstCaches(pl, p) && st.capacity == total && (pl.Whole? ==> DrawsCount(s, st, generated))
  }

  /** What one iteration of the driver's loop obtains from the stages for the next tokens. */
  predicate StepResult(pl: Pipeline, s: Sampler, prompt: nat, p: seq<nat>, c: seq<nat>, generated: nat, r: Result<Option<nat>>)
    requires pl.Valid()
  {
    && Prefix.Tokens(pl, p + c) && c != []
    && if pl.Split? && !Sendable(pl, p + c) then r == Err(Internal)
    else if |p| + |c| < prompt then r == Ok(None)
    else match NextToken(pl, s, p + c, generated)
         case None => r == Err(Internal)
         case Some(t) => r == Ok(Some(t)) && t < pl.Vocabulary()
  }

  lemma WholeSharesCaches(pl: Pipeline, p: seq<nat>)
    requires pl.Valid() && pl.Whole? && Prefix.Tokens(pl, p)
    ensures FirstCaches(pl, p) == LastCaches(pl, p)
  {}

  /** A single stage's step. */
  method StepAlone(pl: Pipeline, s: Sampler, tokens: seq<nat>, position: nat, st: State,
                   ghost prompt: nat, ghost p: seq<nat>, ghost total: nat, ghost generated: nat)
    returns (r: Result<Option<nat>>, after: State)
    requires pl.Valid() && pl.Whole? && s.Valid() && Prefix.Tokens(pl, tokens) && tokens != []
    requires Ready(pl, s, st, p, total, generated) && position == |p| && |p| + |tokens| <= total <= pl.MaximumLength()
    requires st.prefillOnly == (|p| + |tokens| < prompt)
    ensures StepResult(pl, s, prompt, p, tokens, generated, r)
    ensures r.Ok? ==> Ready(pl, s, after, p + tokens, total, if r.value.Some? then generated + 1 else generated)
  {
    hide FirstCaches, LastCaches, NextToken, Execute;
    SendableAdvances(pl, p, tokens);
    WholeSharesCaches(pl, p);
    WholeSharesCaches(pl, p + tokens);
    LastExecutes(pl, s, p, tokens, st);
    PickedIsToken(pl, s, p + tokens, st.drawn);
    DrawnIsGenerated(pl, s, p + tokens, st, generated);
    var executed := Execute(pl.only, s, Input.Tokens(tokens), position, st);
    if executed.Err? {
      return Err(executed.error), st;
    }
    var output := executed.value.0;
    after := executed.value.1;
    if st.prefillOnly {
      if !output.Progress? {
        return Err(Internal), st;
      }
      return Ok(None), after;
    }
    if !output.Sampled? || output.token >= pl.Vocabulary() {
      return Err(Internal), st;
    }
    return Ok(Some(output.token)), after;
  }

  /** The downstream session that belongs to this generation, in lockstep with the driver. */
  ghost predicate Paired(pl: Pipeline, s: Sampler, request: Prompt, l: Lease, peer: Session, p: seq<nat>, step: nat, generated: nat)
    requires pl.Valid()
    reads peer
  {
    && pl.Split? && peer.Valid() && peer.tail == pl.tail && peer.sampler == s
    && peer.opening == Opening(1, 0, TotalTokens(request), |request.tokens|, request.maximumNew, request.stops)
    && peer.lease.identity == l.identity && peer.lease.maximumQueryTokens == QueryRows(TotalTokens(request), request.chunk)
    && InStep(pl, peer.opening, peer.lease, peer.View(), |request.tokens|, p)
    && peer.step == step && peer.generated == generated && DrawsCount(s, peer.sequence, generated) && !peer.released
  }

  /** The downstream session has sampled its last token and awaits the termination. */
  ghost predicate Closable(peer: Session, l: Lease, prompt: nat, generated: nat)
    reads peer
  {
    && peer.Valid() && peer.stopped && !peer.released && peer.prompt == prompt && peer.generated == generated
    && peer.lease.identity == l.identity
  }

  /** Opens the downstream stream, which refuses nothing the driver has validated. */
  method OpenDownstream(pl: Pipeline, s: Sampler, request: Prompt, l: Lease, downstream: Lease)
    returns (peer: Session, error: Option<Error>)
    requires pl.Valid() && pl.Split? && s.Valid() && !Malformed(request) && Refusal(pl, request).None?
    requires Grants(pl.tail, request, downstream) && downstream.identity == l.identity
    ensures error == None && fresh(peer) && Paired(pl, s, request, l, peer, [], 0, 0)
  {
    hide LastCaches, FirstCaches, Fresh;
    error := None;
    FreshIsEmptyPrefix(pl);
    var opening := Opening(1, 0, TotalTokens(request), |request.tokens|, request.maximumNew, request.stops);
    peer := new Session(pl.tail, s, opening, downstream);
    if !ValidOpening(opening, pl.tail, downstream) {
      error := Some(InvalidRequest);
    }
  }

  method CloseDownstream(peer: Session, l: Lease, prompt: nat, generated: nat) returns (error: Option<Error>)
    requires Closable(peer, l, prompt, generated)
    modifies peer
    ensures error == None && peer.released && peer.prompt == prompt && peer.generated == generated
  {
    var terminal := Terminate(l.identity.deployment, l.identity.version, l.identity.request, 0, true, prompt, generated);
    var ack := peer.Receive(terminal);
    if ack == Ok(Acknowledged(terminal)) {
      error := None;
    } else {
      error := Some(Internal);
    }
  }

  /** A split step: the first stage's activation goes to the peer, which answers. */
  method StepSplit(pl: Pipeline, s: Sampler, request: Prompt, l: Lease, peer: Session, tokens: seq<nat>, position: nat,
                   step: nat, st: State, ghost p: seq<nat>, ghost generated: nat)
    returns (r: Result<Option<nat>>, after: State)
    requires pl.Valid() && s.Valid() && Prefix.Tokens(pl, tokens)
    requires Paired(pl, s, request, l, peer, p, step, generated) && position == |p|
    requires NextStep(request, p, tokens)
    requires Ready(pl, s, st, p, TotalTokens(request), generated) && TotalTokens(request) <= pl.MaximumLength()
    requires |tokens| * pl.First().Hidden() <= MAXIMUM_RPC_BYTES / 4
    requires st.prefilling == (|p| < |request.tokens|) && st.prefillOnly == (|p| + |tokens| < |request.tokens|)
    modifies peer
    ensures StepResult(pl, s, |request.tokens|, p, tokens, generated, r)
    ensures r.Ok? ==>
              var made := if r.value.Some? then generated + 1 else generated;
              && Ready(pl, s, after, p + tokens, TotalTokens(request), made)
              && peer.step == step + 1 && peer.Valid()
              && if r.value.Some? && (made == request.maximumNew || r.value.value in request.stops)
                 then Closable(peer, l, |request.tokens|, made)
                 else Paired(pl, s, request, l, peer, p + tokens, step + 1, made)
    ensures r.Err? ==> peer.generated == generated
  {
    hide FirstCaches, LastCaches, NextToken, Execute, NewFirstRows, FirstRows, FiniteRows, Encode, Flatten, Encoded;
    SendableAdvances(pl, p, tokens);
    HeadExecutes(pl, s, p, tokens, st);
    DrawnIsGenerated(pl, s, p + tokens, peer.sequence, generated);
    var executed := Execute(pl.head, s, Input.Tokens(tokens), position, st);
    if executed.Err? {
      return Err(executed.error), st;
    }
    after := executed.value.1;
    if !executed.value.0.Hidden? || executed.value.0.boundary.tokens != |tokens| {
      return Err(Internal), after;
    }
    r := Exchange(peer, l, executed.value.0.boundary, step, position, st.prefilling, st.prefillOnly, |tokens|,
                  pl.Vocabulary(), pl, |request.tokens|, p, tokens);
  }

  /** What is known between iterations: the stages hold the consumed prefix, and the whole reference
      run is the emitted tokens followed by the reference run from here. */
  ghost predicate Underway(pl: Pipeline, s: Sampler, request: Prompt, emitted: seq<nat>, position: nat, tokens: seq<nat>, st: State)
    requires pl.Valid() && s.Valid()
  {
    && DriverAt(pl, request, emitted, position, tokens)
    && Ready(pl, s, st, Consumed(request, emitted, position), TotalTokens(request), |emitted|)
    && Autoregressive(pl, s, request.tokens, 0, request)
       == Prepend(emitted, Autoregressive(pl, s, request.tokens + emitted, |emitted|, request))
  }

  /** A prefix that cannot be sent ends every longer computation. */
  lemma {:induction false} UnsendableFails(pl: Pipeline, s: Sampler, request: Prompt, emitted: seq<nat>, p: seq<nat>, q: seq<nat>)
    requires pl.Valid() && s.Valid() && Prefix.Tokens(pl, p) && Prefix.Tokens(pl, q) && p + q == request.tokens + emitted
    requires request.tokens != [] && |emitted| < request.maximumNew && !Sendable(pl, p)
    ensures Prefix.Tokens(pl, request.tokens + emitted)
    ensures Autoregressive(pl, s, request.tokens + emitted, |emitted|, request) == Run([], false)
  {
    SendableAdvances(pl, p, q);
  }

  /** Emitting the token the reference picks next. */
  lemma Emitted(pl: Pipeline, s: Sampler, request: Prompt, emitted: seq<nat>, t: nat)
    requires pl.Valid() && s.Valid() && Prefix.Tokens(pl, request.tokens) && Prefix.Tokens(pl, emitted) && request.tokens != []
    requires Prefix.Tokens(pl, request.tokens + emitted)
    requires |emitted| < request.maximumNew && NextToken(pl, s, request.tokens + emitted, |emitted|) == Some(t)
    requires Autoregressive(pl, s, request.tokens, 0, request)
             == Prepend(emitted, Autoregressive(pl, s, request.tokens + emitted, |emitted|, request))
    ensures Prefix.Tokens(pl, emitted + [t]) && Prefix.Tokens(pl, request.tokens + (emitted + [t]))
    ensures Autoregressive(pl, s, request.tokens, 0, request)
            == if t in request.stops then Run(emitted + [t], true)
               else Prepend(emitted + [t], Autoregressive(pl, s, request.tokens + (emitted + [t]), |emitted| + 1, request))
  {
    hide NextToken, Autoregressive, Pipeline.Valid, Sampler.Valid, Prefix.Tokens, Prepend;
    PickedIsToken(pl, s, request.tokens + emitted, |emitted|);
    assert request.tokens + emitted + [t] == request.tokens + (emitted + [t]);
    TokensPushed(pl, emitted, t);
    TokensPushed(pl, request.tokens + emitted, t);
    GoesOn(pl, s, request.tokens + emitted, |emitted|, request, t);
    if t in request.stops {
      PrependedPush(emitted, t, Run([], true));
    } else {
      PrependedPush(emitted, t, Autoregressive(pl, s, request.tokens + (emitted + [t]), |emitted| + 1, request));
    }
  }

  lemma TokensPushed(pl: Pipeline, p: seq<nat>, t: nat)
    requires Prefix.Tokens(pl, p) && t < pl.Vocabulary()
    ensures Prefix.Tokens(pl, p + [t])
  {}

  lemma PrependedPush(emitted: seq<nat>, t: nat, rest: Run)
    ensures Prepend(emitted, Prepend([t], rest)) == Prepend(emitted + [t], rest)
    ensures rest.tokens == [] ==> Prepend(emitted, Prepend([t], rest)) == Run(emitted + [t], rest.complete)
    ensures rest.tokens == [] ==> Prepend([t], rest) == Run([t], rest.complete)
  {
    assert emitted + ([t] + rest.tokens) == (emitted + [t]) + rest.tokens;
  }

  lemma GoesOn(pl: Pipeline, s: Sampler, p: seq<nat>, generated: nat, request: Prompt, t: nat)
    requires pl.Valid() && s.Valid() && Prefix.Tokens(pl, p) && p != [] && Prefix.Tokens(pl, p + [t])
    requires generated < request.maximumNew && NextToken(pl, s, p, generated) == Some(t)
    ensures Autoregressive(pl, s, p, generated, request)
            == if t in request.stops then Run([t], true) else Prepend([t], Autoregressive(pl, s, p + [t], generated + 1, request))
  {
    hide NextToken, Pipeline.Valid, Sampler.Valid;
  }

  function Shown(prompt: nat, emitted: seq<nat>): seq<Event> {
    Transcript(prompt, Run(emitted, false))
  }

  lemma ShownGrows(prompt: nat, emitted: seq<nat>, t: nat)
    ensures Shown(prompt, emitted + [t])
            == Shown(prompt, emitted) + (if emitted == [] then [PrefillComplete(prompt)] else [])
               + [TokenEvent(t, prompt + |emitted|)]
  {
    assert TokenEvents(prompt, emitted + [t]) == TokenEvents(prompt, emitted) + [TokenEvent(t, prompt + |emitted|)];
  }

  /** Where the peer stands, if there is one. */
  ghost predicate PeerFollows(pl: Pipeline, s: Sampler, request: Prompt, l: Lease, peer: Session?, p: seq<nat>, step: nat, generated: nat)
    requires pl.Valid()
    reads peer
  {
    if pl.Whole? then peer == null else peer != null && Paired(pl, s, request, l, peer, p, step, generated)
  }

  ghost predicate PeerClosable(pl: Pipeline, request: Prompt, l: Lease, peer: Session?, generated: nat)
    reads peer
  {
    if pl.Whole? then peer == null else peer != null && Closable(peer, l, |request.tokens|, generated)
  }

  method Step(pl: Pipeline, s: Sampler, request: Prompt, l: Lease, peer: Session?, tokens: seq<nat>, position: nat,
              step: nat, st: State, ghost p: seq<nat>, ghost generated: nat)
    returns (r: Result<Option<nat>>, after: State)
    requires pl.Valid() && s.Valid() && Prefix.Tokens(pl, tokens)
    requires PeerFollows(pl, s, request, l, peer, p, step, generated) && position == |p|
    requires NextStep(request, p, tokens)
    requires Ready(pl, s, st, p, TotalTokens(request), generated) && TotalTokens(request) <= pl.MaximumLength()
    requires (pl.Split? ==> |tokens| * pl.First().Hidden() <= MAXIMUM_RPC_BYTES / 4)
    requires st.prefilling == (|p| < |request.tokens|) && st.prefillOnly == (|p| + |tokens| < |request.tokens|)
    modifies peer
    ensures StepResult(pl, s, |request.tokens|, p, tokens, generated, r)
    ensures r.Ok? ==>
              var made := if r.value.Some? then generated + 1 else generated;
              && Ready(pl, s, after, p + tokens, TotalTokens(request), made)
              && if r.value.Some? && (made == request.maximumNew || r.value.value in request.stops)
                 then PeerClosable(pl, request, l, peer, made)
                 else PeerFollows(pl, s, request, l, peer, p + tokens, step + 1, made)
    ensures r.Err? && peer != null ==> peer.generated == generated
  {
    hide FirstCaches, LastCaches, NextToken, Paired, StepResult, Ready, Closable;
    if peer != null {
      r, after := StepSplit(pl, s, request, l, peer, tokens, position, step, st, p, generated);
    } else {
      r, after := StepAlone(pl, s, tokens, position, st, |request.tokens|, p, TotalTokens(request), generated);
    }
  }

  /** Splits one step's outcome into what the loop needs next. */
  lemma StepOutcome(pl: Pipeline, s: Sampler, request: Prompt, emitted: seq<nat>, position: nat, tokens: seq<nat>, st: State,
                    c: seq<nat>, r: Result<Option<nat>>)
    requires pl.Valid() && s.Valid() && Underway(pl, s, request, emitted, position, tokens, st)
    requires |emitted| < request.maximumNew && c == StepTokens(request, emitted, position)
    requires StepResult(pl, s, |request.tokens|, Consumed(request, emitted, position), c, |emitted|, r)
    ensures r.Err? ==> r.error == Internal && Autoregressive(pl, s, request.tokens, 0, request) == Run(emitted, false)
    ensures r == Ok(None) ==> position + |c| < |request.tokens| && emitted == []
    ensures r.Ok? && r.value.Some? ==>
              && position + |c| == |request.tokens| + |emitted| && Prefix.Tokens(pl, request.tokens + emitted)
              && NextToken(pl, s, request.tokens + emitted, |emitted|) == r.value
    ensures r.Ok? ==> Sendable(pl, Consumed(request, emitted, position) + c)
  {
    hide NextToken, Sendable;
    StepContinues(pl, request, emitted, position, tokens);
    var p := Consumed(request, emitted, position) + c;
    var rest := (request.tokens + emitted)[position + |c|..];
    assert p + rest == request.tokens + emitted;
    if !Sendable(pl, p) {
      SendableOnlySplit(pl, p);
      UnsendableFails(pl, s, request, emitted, p, rest);
    }
    SendableWhenPicked(pl, s, p, |emitted|);
  }

  lemma SendableOnlySplit(pl: Pipeline, p: seq<nat>)
    requires pl.Valid() && Prefix.Tokens(pl, p) && !Sendable(pl, p)
    ensures pl.Split?
  {}

  lemma SendableWhenPicked(pl: Pipeline, s: Sampler, p: seq<nat>, drawn: nat)
    requires pl.Valid() && Prefix.Tokens(pl, p) && p != []
    ensures NextToken(pl, s, p, drawn).Some? ==> Sendable(pl, p)
  {}

  /** After a step that picked a token, the generation is finished or under way with it emitted. */
  lemma TokenTaken(pl: Pipeline, s: Sampler, request: Prompt, emitted: seq<nat>, position: nat, tokens: seq<nat>, st: State,
                   c: seq<nat>, t: nat, after: State)
    requires pl.Valid() && s.Valid() && Underway(pl, s, request, emitted, position, tokens, st)
    requires |emitted| < request.maximumNew && c == StepTokens(request, emitted, position)
    requires StepResult(pl, s, |request.tokens|, Consumed(request, emitted, position), c, |emitted|, Ok(Some(t)))
    requires Ready(pl, s, after, Consumed(request, emitted, position) + c, TotalTokens(request), |emitted| + 1)
    ensures position + |c| == |request.tokens| + |emitted|
    ensures Consumed(request, emitted + [t], position + |c|) == Consumed(request, emitted, position) + c
    ensures t in request.stops ==> Autoregressive(pl, s, request.tokens, 0, request) == Run(emitted + [t], true)
    ensures t !in request.stops ==> Underway(pl, s, request, emitted + [t], position + |c|, [t], after)
    ensures Shown(|request.tokens|, emitted + [t])
            == Shown(|request.tokens|, emitted) + (if emitted == [] then [PrefillComplete(|request.tokens|)] else [])
               + [TokenEvent(t, position + |c|)]
  {
    hide NextToken, Sendable, FirstCaches, Autoregressive, StepResult, Pipeline.Valid, Sampler.Valid, Ready, Shown, Prepend;
    StepContinues(pl, request, emitted, position, tokens);
    StepOutcome(pl, s, request, emitted, position, tokens, st, c, Ok(Some(t)));
    Emitted(pl, s, request, emitted, t);
    ShownGrows(|request.tokens|, emitted, t);
    assert Consumed(request, emitted + [t], position + |c|) == request.tokens + emitted;
  }

  /** After a chunk inside the prompt, the generation is under way further on. */
  lemma ChunkTaken(pl: Pipeline, s: Sampler, request: Prompt, emitted: seq<nat>, position: nat, tokens: seq<nat>, st: State,
                   c: seq<nat>, after: State)
    requires pl.Valid() && s.Valid() && Underway(pl, s, request, emitted, position, tokens, st)
    requires |emitted| < request.maximumNew && c == StepTokens(request, emitted, position)
    requires StepResult(pl, s, |request.tokens|, Consumed(request, emitted, position), c, |emitted|, Ok(None))
    requires Ready(pl, s, after, Consumed(request, emitted, position) + c, TotalTokens(request), |emitted|)
    ensures position + |c| < |request.tokens|
    ensures Consumed(request, emitted, position + |c|) == Consumed(request, emitted, position) + c
    ensures c != [] && emitted == [] && Underway(pl, s, request, emitted, position + |c|, tokens, after)
  {
    hide NextToken, Sendable, FirstCaches, Autoregressive;
    StepContinues(pl, request, emitted, position, tokens);
    StepOutcome(pl, s, request, emitted, position, tokens, st, c, Ok(None));
  }

  lemma LeaseCovers(pl: Pipeline, request: Prompt, l: Lease)
    requires pl.Valid() && Grants(pl.First(), request, l)
    ensures ChunkSize(request) <= l.maximumQueryTokens && TotalTokens(request) <= pl.MaximumLength()
    ensures AllocateSequence(pl.First(), TotalTokens(request)) == Ok(l.sequence)
  {}

  lemma GenerationStarts(pl: Pipeline, s: Sampler, request: Prompt, st: State)
    requires pl.Valid() && s.Valid() && Prefix.Tokens(pl, request.tokens) && request.tokens != []
    requires AllocateSequence(pl.First(), TotalTokens(request)) == Ok(st)
    ensures Underway(pl, s, request, [], 0, request.tokens, st) && Consumed(request, [], 0) == []
    ensures Shown(|request.tokens|, []) == []
    ensures LastCaches(pl, []) == Fresh(pl.Last().model)
  {
    hide FirstCaches, LastCaches, Autoregressive, Sendable, Fresh;
    FreshIsEmptyPrefix(pl);
    assert Consumed(request, [], 0) == [] && request.tokens + [] == request.tokens;
    var run := Autoregressive(pl, s, request.tokens, 0, request);
    assert [] + run.tokens == run.tokens;
  }

  lemma LengthReached(pl: Pipeline, s: Sampler, request: Prompt, emitted: seq<nat>, position: nat, tokens: seq<nat>, st: State)
    requires pl.Valid() && s.Valid() && Underway(pl, s, request, emitted, position, tokens, st)
    requires |emitted| == request.maximumNew
    ensures Autoregressive(pl, s, request.tokens, 0, request) == Run(emitted, true)
  {
    hide NextToken, Sendable, FirstCaches;
    assert emitted + [] == emitted;
  }

  lemma TranscriptEnds(prompt: nat, emitted: seq<nat>)
    ensures Transcript(prompt, Run(emitted, true)) == Shown(prompt, emitted) + [Usage(prompt, |emitted|), Completed]
    ensures Transcript(prompt, Run(emitted, false)) == Shown(prompt, emitted)
  {}

  lemma ChunkFits(pl: Pipeline, request: Prompt)
    requires pl.Valid() && Refusal(pl, request).None?
    ensures pl.Split? ==> ChunkSize(request) * pl.First().Hidden() <= MAXIMUM_RPC_BYTES / 4
  {
    QuotientBound(ChunkSize(request), pl.First().Hidden(), MAXIMUM_RPC_BYTES / 4);
  }

  /** What an iteration starts from. */
  lemma IterationReady(pl: Pipeline, s: Sampler, request: Prompt, emitted: seq<nat>, position: nat, queued: seq<nat>, held: State)
    requires pl.Valid() && s.Valid() && Underway(pl, s, request, emitted, position, queued, held) && |emitted| < request.maximumNew
    ensures var p, c := Consumed(request, emitted, position), StepTokens(request, emitted, position);
            && |p| == position && NextStep(request, p, c) && |c| <= ChunkSize(request) && Prefix.Tokens(pl, c)
            && Ready(pl, s, held, p, TotalTokens(request), |emitted|)
            && (position >= |request.tokens| ==> c == queued && |c| == 1)
  {
    hide Sendable, Autoregressive, FirstCaches;
    StepContinues(pl, request, emitted, position, queued);
  }

  lemma FlagsKeepReady(pl: Pipeline, s: Sampler, st: State, p: seq<nat>, total: nat, generated: nat, prefilling: bool, prefillOnly: bool)
    requires pl.Valid() && Ready(pl, s, st, p, total, generated)
    ensures Ready(pl, s, st.(prefilling := prefilling, prefillOnly := prefillOnly), p, total, generated)
  {}

  /** What an iteration has done, apart from the peer. */
  ghost predicate Iterated(pl: Pipeline, s: Sampler, request: Prompt, emitted: seq<nat>, position: nat, queued: seq<nat>,
                           r: Result<Option<nat>>, next: nat, st: State)
    requires pl.Valid() && s.Valid()
  {
    Prefix.Tokens(pl, request.tokens) && request.tokens != [] &&
    match r
    case Err(e) => e == Internal && Autoregressive(pl, s, request.tokens, 0, request) == Run(emitted, false)
    case Ok(None) =>
      position < next <= |request.tokens| && emitted == [] && Underway(pl, s, request, emitted, next, queued, st)
    case Ok(Some(t)) =>
      && next == |request.tokens| + |emitted|
      && if t in request.stops then Autoregressive(pl, s, request.tokens, 0, request) == Run(emitted + [t], true)
         else Underway(pl, s, request, emitted + [t], next, [t], st)
  }

  function Made(emitted: seq<nat>, r: Result<Option<nat>>): seq<nat> {
    if r.Ok? && r.value.Some? then emitted + [r.value.value] else emitted
  }

  lemma PromptIsTokens(pl: Pipeline, s: Sampler, request: Prompt, emitted: seq<nat>, position: nat, queued: seq<nat>, held: State)
    requires pl.Valid() && s.Valid() && Underway(pl, s, request, emitted, position, queued, held)
    ensures Prefix.Tokens(pl, request.tokens) && request.tokens != []
  {}

  lemma StepTaken(pl: Pipeline, s: Sampler, request: Prompt, emitted: seq<nat>, position: nat, queued: seq<nat>, held: State,
                  c: seq<nat>, r: Result<Option<nat>>, after: State)
    requires pl.Valid() && s.Valid() && Underway(pl, s, request, emitted, position, queued, held)
    requires |emitted| < request.maximumNew && c == StepTokens(request, emitted, position)
    requires StepResult(pl, s, |request.tokens|, Consumed(request, emitted, position), c, |emitted|, r)
    requires r.Ok? ==> Ready(pl, s, after, Consumed(request, emitted, position) + c, TotalTokens(request), |Made(emitted, r)|)
    ensures Iterated(pl, s, request, emitted, position, queued, r, position + |c|, after)
    ensures r.Ok? ==> Consumed(request, Made(emitted, r), position + |c|) == Consumed(request, emitted, position) + c
  {
    hide Sendable, Autoregressive, Consumed, Underway, Ready, StepResult, Pipeline.Valid, Sampler.Valid, Prefix.Tokens,
         StepTokens, Shown, NextToken, Transcript;
    PromptIsTokens(pl, s, request, emitted, position, queued, held);
    match r {
      case Err(_) => StepOutcome(pl, s, request, emitted, position, queued, held, c, r);
      case Ok(None) => ChunkTaken(pl, s, request, emitted, position, queued, held, c, after);
      case Ok(Some(t)) => TokenTaken(pl, s, request, emitted, position, queued, held, c, t, after);
    }
  }

  /** One iteration: take the next tokens of the prompt, or the last one generated, through the stages. */
  method Iterate(pl: Pipeline, s: Sampler, request: Prompt, lease: Lease, peer: Session?, queued: seq<nat>, position: nat,
                 step: nat, held: State, ghost emitted: seq<nat>)
    returns (r: Result<Option<nat>>, next: nat, st: State)
    requires pl.Valid() && s.Valid() && TotalTokens(request) <= pl.MaximumLength() && |emitted| < request.maximumNew
    requires pl.Split? ==> ChunkSize(request) * pl.First().Hidden() <= MAXIMUM_RPC_BYTES / 4
    requires Underway(pl, s, request, emitted, position, queued, held)
    requires PeerFollows(pl, s, request, lease, peer, Consumed(request, emitted, position), step, |emitted|)
    modifies peer
    ensures Iterated(pl, s, request, emitted, position, queued, r, next, st)
    ensures position < |request.tokens| ==> next == |request.tokens| || next == position + ChunkSize(request) < |request.tokens|
    ensures position >= |request.tokens| ==> next == position + 1
    ensures r.Ok? ==>
              if r.value.Some? && (|emitted| + 1 == request.maximumNew || r.value.value in request.stops)
              then PeerClosable(pl, request, lease, peer, |emitted| + 1)
              else PeerFollows(pl, s, request, lease, peer, Consumed(request, Made(emitted, r), next), step + 1, |Made(emitted, r)|)
    ensures r.Err? && peer != null ==> peer.generated == |emitted|
  {
    hide Sendable, Autoregressive, Consumed, Underway, Ready, PeerFollows, PeerClosable, StepResult, NextStep, Pipeline.Valid, Sampler.Valid,
         Prefix.Tokens, Iterated;
    var tokens := queued;
    var prefilling := position < |request.tokens|;
    if prefilling {
      var count := Least(ChunkSize(request), |request.tokens| - position);
      tokens := request.tokens[position..position + count];
    }
    ghost var p, c := Consumed(request, emitted, position), StepTokens(request, emitted, position);
    IterationReady(pl, s, request, emitted, position, queued, held);
    assert tokens == c;
    var prefillOnly := prefilling && position + |tokens| < |request.tokens|;
    FlagsKeepReady(pl, s, held, p, TotalTokens(request), |emitted|, prefilling, prefillOnly);
    st := held.(prefilling := prefilling, prefillOnly := prefillOnly);
    ChunkFitsWire(pl, request, |tokens|);
    r, st := Step(pl, s, request, lease, peer, tokens, position, step, st, p, |emitted|);
    next := position + |tokens|;
    StepTaken(pl, s, request, emitted, position, queued, held, c, r, st);
  }

  lemma ChunkFitsWire(pl: Pipeline, request: Prompt, count: nat)
    requires pl.Valid() && count <= ChunkSize(request)
    requires pl.Split? ==> ChunkSize(request) * pl.First().Hidden() <= MAXIMUM_RPC_BYTES / 4
    ensures pl.Split? ==> count * pl.First().Hidden() <= MAXIMUM_RPC_BYTES / 4
  {
    hide Pipeline.Valid;
    if pl.Split? && count < ChunkSize(request) && pl.First().Hidden() > 0 {
      MultiplyLess(count, ChunkSize(request), pl.First().Hidden());
    }
  }

  // ---------------------------------------------------------------------------- interruptions

  /** What becomes of one iteration, or of the closing exchange: a cancellation, a deadline, a lost peer or a
      client that went away stops it before the stages have done anything, after they have but before the
      client is told, or half-way through telling it. */
  datatype Fate = Proceeds | Halts(error: Error) | Loses(error: Error) | Mutes(error: Error)

  ghost predicate Undisturbed(fate: nat -> Fate) {
    forall step: nat :: fate(step).Proceeds?
  }

  /** `events` tell of the first `shown` tokens of the run, or at least that the prompt is complete. */
  ghost predicate ShowsPart(prompt: nat, run: Run, events: seq<Event>, shown: nat) {
    && shown <= |run.tokens|
    && (events == Shown(prompt, run.tokens[..shown]) || (shown == 0 && run.tokens != [] && events == [PrefillComplete(prompt)]))
  }

  lemma PartIsPrefix(prompt: nat, run: Run, events: seq<Event>, shown: nat)
    requires ShowsPart(prompt, run, events, shown)
    ensures events <= Transcript(prompt, run) && TokensIn(events) == shown
  {
    var part := run.tokens[..shown];
    assert TokenEvents(prompt, part) == TokenEvents(prompt, run.tokens)[..shown];
    TokensInEvents(prompt, part);
    if part != [] {
      TokensInJoin([PrefillComplete(prompt)], TokenEvents(prompt, part));
      assert Shown(prompt, part) == [PrefillComplete(prompt)] + TokenEvents(prompt, part);
    }
  }

  /** How many tokens the client has been told. */
  function TokensIn(events: seq<Event>): nat {
    if events == [] then 0 else (if events[0].TokenEvent? then 1 else 0) + TokensIn(events[1..])
  }

  lemma {:induction false} TokensInJoin(a: seq<Event>, b: seq<Event>)
    ensures TokensIn(a + b) == TokensIn(a) + TokensIn(b)
  {
    if a == [] {
      assert a + b == b;
    } else {
      assert (a + b)[1..] == a[1..] + b;
      TokensInJoin(a[1..], b);
    }
  }

  lemma {:induction false} TokensInEvents(prompt: nat, tokens: seq<nat>)
    ensures TokensIn(TokenEvents(prompt, tokens)) == |tokens|
    decreases |tokens|
  {
    if tokens != [] {
      TokensInEvents(prompt + 1, tokens[1..]);
      assert TokenEvents(prompt, tokens)[1..] == TokenEvents(prompt + 1, tokens[1..]);
    }
  }

  /** What has been emitted is the beginning of the reference run. */
  lemma UnderwayShows(pl: Pipeline, s: Sampler, request: Prompt, emitted: seq<nat>, position: nat, queued: seq<nat>, held: State)
    requires pl.Valid() && s.Valid() && Underway(pl, s, request, emitted, position, queued, held)
    ensures Prefix.Tokens(pl, request.tokens) && request.tokens != []
    ensures var run := Autoregressive(pl, s, request.tokens, 0, request);
            |emitted| <= |run.tokens| && run.tokens[..|emitted|] == emitted
  {
    hide Autoregressive, Ready, Pipeline.Valid, Sampler.Valid;
  }

  /** So is what an iteration is about to emit. */
  lemma IteratedShows(pl: Pipeline, s: Sampler, request: Prompt, emitted: seq<nat>, position: nat, queued: seq<nat>,
                      t: nat, next: nat, st: State)
    requires pl.Valid() && s.Valid() && Iterated(pl, s, request, emitted, position, queued, Ok(Some(t)), next, st)
    ensures Prefix.Tokens(pl, request.tokens) && request.tokens != []
    ensures var run := Autoregressive(pl, s, request.tokens, 0, request);
            |emitted| < |run.tokens| && run.tokens[..|emitted|] == emitted && run.tokens[|emitted|] == t
  {
    hide Autoregressive, Underway, Pipeline.Valid, Sampler.Valid;
    if t !in request.stops {
      UnderwayShows(pl, s, request, emitted + [t], next, [t], st);
    }
  }

  /** The peer has generated the tokens shown to the client, and perhaps one more. */
  ghost predicate PeerAgrees(peer: Session?, shown: nat)
    reads peer
  {
    peer != null ==> shown <= peer.generated <= shown + 1
  }

  lemma FollowerAgrees(pl: Pipeline, s: Sampler, request: Prompt, l: Lease, peer: Session?, p: seq<nat>, step: nat, generated: nat, shown: nat)
    requires pl.Valid() && PeerFollows(pl, s, request, l, peer, p, step, generated) && shown <= generated <= shown + 1
    ensures PeerAgrees(peer, shown)
  {}

  lemma ClosingAgrees(pl: Pipeline, request: Prompt, l: Lease, peer: Session?, generated: nat, shown: nat)
    requires PeerClosable(pl, request, l, peer, generated) && shown <= generated <= shown + 1
    ensures PeerAgrees(peer, shown)
  {}

  /** What holds between turns of the driver's loop. */
  ghost predicate AtTurn(pl: Pipeline, s: Sampler, request: Prompt, l: Lease, peer: Session?, emitted: seq<nat>, position: nat,
                         tokens: seq<nat>, st: State, step: nat, events: seq<Event>)
    requires pl.Valid() && s.Valid()
    reads peer
  {
    && |emitted| <= request.maximumNew && Underway(pl, s, request, emitted, position, tokens, st)
    && events == Shown(|request.tokens|, emitted)
    && if |emitted| < request.maximumNew then PeerFollows(pl, s, request, l, peer, Consumed(request, emitted, position), step, |emitted|)
       else PeerClosable(pl, request, l, peer, |emitted|)
  }

  /** What holds when the loop ends: `shown` tokens have been told, and if nothing failed all of them. */
  ghost predicate Over(pl: Pipeline, s: Sampler, request: Prompt, l: Lease, peer: Session?, events: seq<Event>, shown: nat,
                       error: Option<Error>, disturbed: bool)
    requires pl.Valid() && s.Valid() && Prefix.Tokens(pl, request.tokens) && request.tokens != []
    reads peer
  {
    var run := Autoregressive(pl, s, request.tokens, 0, request);
    && ShowsPart(|request.tokens|, run, events, shown) && PeerAgrees(peer, shown)
    && (error.None? ==> run.complete && shown == |run.tokens| && events == Shown(|request.tokens|, run.tokens)
                        && PeerClosable(pl, request, l, peer, shown))
    && (!disturbed ==> shown == |run.tokens| && events == Shown(|request.tokens|, run.tokens)
                       && error == if run.complete then None else Some(Internal))
  }

  /** One turn: another chunk of the prompt, or another token, or the end. */
  method Turn(pl: Pipeline, s: Sampler, request: Prompt, l: Lease, peer: Session?, queued: seq<nat>, at: nat, held: State, step: nat,
              told: seq<Event>, count: nat, fate: Fate, ghost emitted: seq<nat>)
    returns (events: seq<Event>, generated: nat, tokens: seq<nat>, position: nat, st: State, error: Option<Error>, over: bool,
             ghost after: seq<nat>)
    requires pl.Valid() && s.Valid() && Prefix.Tokens(pl, request.tokens) && request.tokens != [] && TotalTokens(request) <= pl.MaximumLength()
    requires pl.Split? ==> ChunkSize(request) * pl.First().Hidden() <= MAXIMUM_RPC_BYTES / 4
    requires AtTurn(pl, s, request, l, peer, emitted, at, queued, held, step, told) && count == |emitted| < request.maximumNew
    modifies peer
    ensures over ==> Over(pl, s, request, l, peer, events, generated, error, !fate.Proceeds?)
    ensures !over ==>
              && AtTurn(pl, s, request, l, peer, after, position, tokens, st, step + 1, events) && generated == |after| && error == None
              && (|after| > |emitted| || (after == emitted && at < position <= |request.tokens|))
              && (at < |request.tokens| ==> position == |request.tokens| || position == at + ChunkSize(request) < |request.tokens|)
  {
    hide Autoregressive, Shown, Consumed, Underway, PeerFollows, PeerClosable, PeerAgrees, Pipeline.Valid, Sampler.Valid,
         Iterated, ShowsPart, Prefix.Tokens;
    events, generated, tokens, position, st, error, over, after := told, count, queued, at, held, None, true, emitted;
    ghost var run := Autoregressive(pl, s, request.tokens, 0, request);
    UnderwayShows(pl, s, request, emitted, at, queued, held);
    SoFarShown(|request.tokens|, run, emitted);
    FollowerAgrees(pl, s, request, l, peer, Consumed(request, emitted, at), step, |emitted|, |emitted|);
    if fate.Halts? {
      error := Some(fate.error);
      return;
    }
    var r: Result<Option<nat>>;
    r, position, st := Iterate(pl, s, request, l, peer, queued, at, step, held, emitted);
    IterateAgrees(pl, s, request, l, peer, emitted, r, position, step + 1);
    if r.Err? {
      error := Some(r.error);
      IterateFails(pl, s, request, emitted, at, queued, r, position, st);
      return;
    }
    if fate.Loses? || (fate.Mutes? && r.value.None?) {
      error := Some(fate.error);
      return;
    }
    if r.value.None? {
      IterateContinues(pl, s, request, emitted, at, queued, position, st);
      over := false;
      return;
    }
    var token := r.value.value;
    IteratedShows(pl, s, request, emitted, at, queued, token, position, st);
    ShownGrows(|request.tokens|, emitted, token);
    if generated == 0 {
      events := events + [PrefillComplete(|request.tokens|)];
    }
    if fate.Mutes? {
      error := Some(fate.error);
      PartShown(|request.tokens|, run, emitted, events);
      return;
    }
    IterateGoesOn(pl, s, request, emitted, at, queued, token, position, st);
    events := events + [TokenEvent(token, position)];
    after := emitted + [token];
    generated := generated + 1;
    assert events == Shown(|request.tokens|, after);
    if token in request.stops {
      WholeShown(|request.tokens|, Run(after, true));
      return;
    }
    tokens := [token];
    over := false;
  }

  /** The driver's loop, telling the client about each token as it comes. */
  method EmitTokens(pl: Pipeline, s: Sampler, request: Prompt, lease: Lease, peer: Session?, fate: nat -> Fate)
    returns (events: seq<Event>, generated: nat, error: Option<Error>)
    requires pl.Valid() && s.Valid() && !Malformed(request) && Prefix.Tokens(pl, request.tokens)
    requires Refusal(pl, request).None?
    requires Grants(pl.First(), request, lease) && PeerFollows(pl, s, request, lease, peer, [], 0, 0)
    modifies peer
    ensures Over(pl, s, request, lease, peer, events, generated, error, !Undisturbed(fate))
  {
    hide AtTurn, Over, Grants, Refusal, PeerFollows, Pipeline.Valid, Sampler.Valid, Prefix.Tokens, Undisturbed;
    events, generated, error := [], 0, None;
    FirstTurn(pl, s, request, lease, peer);
    UndisturbedProceeds(fate);
    var st := lease.sequence;
    var tokens, step := request.tokens, 0;
    var position: nat := 0;
    ghost var emitted: seq<nat> := [];
    while generated < request.maximumNew
      invariant error == None && generated == |emitted| && AtTurn(pl, s, request, lease, peer, emitted, position, tokens, st, step, events)
      decreases request.maximumNew - generated, |request.tokens| - position
    {
      var over;
      events, generated, tokens, position, st, error, over, emitted :=
        Turn(pl, s, request, lease, peer, tokens, position, st, step, events, generated, fate(step), emitted);
      if over {
        OverAnyway(pl, s, request, lease, peer, events, generated, error, !fate(step).Proceeds?, !Undisturbed(fate));
        return;
      }
      step := step + 1;
    }
    AllShown(pl, s, request, lease, peer, emitted, position, tokens, st, step, events);
    OverAnyway(pl, s, request, lease, peer, events, generated, None, false, !Undisturbed(fate));
  }

  lemma FirstTurn(pl: Pipeline, s: Sampler, request: Prompt, l: Lease, peer: Session?)
    requires pl.Valid() && s.Valid() && !Malformed(request) && Prefix.Tokens(pl, request.tokens) && Refusal(pl, request).None?
    requires Grants(pl.First(), request, l) && PeerFollows(pl, s, request, l, peer, [], 0, 0)
    ensures request.tokens != [] && TotalTokens(request) <= pl.MaximumLength()
    ensures pl.Split? ==> ChunkSize(request) * pl.First().Hidden() <= MAXIMUM_RPC_BYTES / 4
    ensures AtTurn(pl, s, request, l, peer, [], 0, request.tokens, l.sequence, 0, [])
  {
    hide Underway, PeerFollows, Pipeline.Valid, Sampler.Valid, Refusal;
    LeaseCovers(pl, request, l);
    ChunkFits(pl, request);
    GenerationStarts(pl, s, request, l.sequence);
  }

  lemma OverAnyway(pl: Pipeline, s: Sampler, request: Prompt, l: Lease, peer: Session?, events: seq<Event>, shown: nat,
                   error: Option<Error>, here: bool, anywhere: bool)
    requires pl.Valid() && s.Valid() && Prefix.Tokens(pl, request.tokens) && request.tokens != []
    requires Over(pl, s, request, l, peer, events, shown, error, here) && (here ==> anywhere)
    ensures Over(pl, s, request, l, peer, events, shown, error, anywhere)
  {
    hide Autoregressive, Shown, PeerClosable, PeerAgrees, ShowsPart;
  }

  lemma AllShown(pl: Pipeline, s: Sampler, request: Prompt, l: Lease, peer: Session?, emitted: seq<nat>, position: nat,
                 tokens: seq<nat>, st: State, step: nat, events: seq<Event>)
    requires pl.Valid() && s.Valid() && Prefix.Tokens(pl, request.tokens) && request.tokens != []
    requires AtTurn(pl, s, request, l, peer, emitted, position, tokens, st, step, events) && |emitted| >= request.maximumNew
    ensures Over(pl, s, request, l, peer, events, |emitted|, None, false)
  {
    hide Autoregressive, Shown, PeerClosable, PeerAgrees, PeerFollows, ShowsPart, Underway, Consumed;
    LengthReached(pl, s, request, emitted, position, tokens, st);
    WholeShown(|request.tokens|, Run(emitted, true));
    ClosingAgrees(pl, request, l, peer, |emitted|, |emitted|);
  }

  lemma SoFarShown(prompt: nat, run: Run, emitted: seq<nat>)
    requires |emitted| <= |run.tokens| && run.tokens[..|emitted|] == emitted
    ensures ShowsPart(prompt, run, Shown(prompt, emitted), |emitted|)
  {}

  lemma UndisturbedProceeds(fate: nat -> Fate)
    ensures Undisturbed(fate) ==> forall step: nat :: fate(step).Proceeds?
  {}

  lemma PartShown(prompt: nat, run: Run, emitted: seq<nat>, events: seq<Event>)
    requires |emitted| < |run.tokens| && run.tokens[..|emitted|] == emitted
    requires events == Shown(prompt, emitted) + if emitted == [] then [PrefillComplete(prompt)] else []
    ensures ShowsPart(prompt, run, events, |emitted|)
  {}

  lemma WholeShown(prompt: nat, run: Run)
    ensures ShowsPart(prompt, run, Shown(prompt, run.tokens), |run.tokens|)
  {
    assert run.tokens[..|run.tokens|] == run.tokens;
  }

  lemma IterateAgrees(pl: Pipeline, s: Sampler, request: Prompt, l: Lease, peer: Session?, emitted: seq<nat>,
                      r: Result<Option<nat>>, next: nat, step: nat)
    requires pl.Valid() && s.Valid()
    requires r.Ok? ==>
               if r.value.Some? && (|emitted| + 1 == request.maximumNew || r.value.value in request.stops)
               then PeerClosable(pl, request, l, peer, |emitted| + 1)
               else PeerFollows(pl, s, request, l, peer, Consumed(request, Made(emitted, r), next), step, |Made(emitted, r)|)
    requires r.Err? && peer != null ==> peer.generated == |emitted|
    ensures PeerAgrees(peer, |emitted|)
    ensures r.Ok? && r.value.Some? ==> PeerAgrees(peer, |emitted| + 1)
  {
    hide Paired, Consumed, Pipeline.Valid, Sampler.Valid;
    if r.Ok? && !(r.value.Some? && (|emitted| + 1 == request.maximumNew || r.value.value in request.stops)) {
      FollowerAgrees(pl, s, request, l, peer, Consumed(request, Made(emitted, r), next), step, |Made(emitted, r)|, |emitted|);
      FollowerAgrees(pl, s, request, l, peer, Consumed(request, Made(emitted, r), next), step, |Made(emitted, r)|, |Made(emitted, r)|);
    }
  }

  lemma IterateFails(pl: Pipeline, s: Sampler, request: Prompt, emitted: seq<nat>, position: nat, queued: seq<nat>,
                     r: Result<Option<nat>>, next: nat, st: State)
    requires pl.Valid() && s.Valid() && r.Err? && Iterated(pl, s, request, emitted, position, queued, r, next, st)
    ensures Prefix.Tokens(pl, request.tokens) && request.tokens != []
    ensures r.error == Internal && Autoregressive(pl, s, request.tokens, 0, request) == Run(emitted, false)
  {
    hide Autoregressive, Pipeline.Valid, Sampler.Valid;
  }

  lemma IterateGoesOn(pl: Pipeline, s: Sampler, request: Prompt, emitted: seq<nat>, position: nat, queued: seq<nat>,
                      t: nat, next: nat, st: State)
    requires pl.Valid() && s.Valid() && Iterated(pl, s, request, emitted, position, queued, Ok(Some(t)), next, st)
    ensures Prefix.Tokens(pl, request.tokens) && request.tokens != [] && next == |request.tokens| + |emitted|
    ensures if t in request.stops then Autoregressive(pl, s, request.tokens, 0, request) == Run(emitted + [t], true)
            else Underway(pl, s, request, emitted + [t], next, [t], st)
  {
    hide Autoregressive, Underway, Pipeline.Valid, Sampler.Valid;
  }

  lemma IterateContinues(pl: Pipeline, s: Sampler, request: Prompt, emitted: seq<nat>, position: nat, queued: seq<nat>, next: nat, st: State)
    requires pl.Valid() && s.Valid() && Iterated(pl, s, request, emitted, position, queued, Ok(None), next, st)
    ensures position < next <= |request.tokens| && emitted == [] && Underway(pl, s, request, emitted, next, queued, st)
  {
    hide Autoregressive, Underway, Pipeline.Valid, Sampler.Valid;
  }

  /** What a request that is not refused comes to. */
  ghost predicate Generated(pl: Pipeline, s: Sampler, request: Prompt, fate: nat -> Fate, last: Fate, events: seq<Event>,
                            error: Option<Error>, peer: Session?)
    requires pl.Valid() && s.Valid() && Prefix.Tokens(pl, request.tokens) && request.tokens != []
    reads peer
  {
    var run := Autoregressive(pl, s, request.tokens, 0, request);
    && events <= Transcript(|request.tokens|, run)
    && (forall k: nat :: k < |events| ==> Tells(|request.tokens|, run, k, events[k]))
    && (error.None? ==> run.complete && events == Transcript(|request.tokens|, run))
    && (Undisturbed(fate) && last.Proceeds? ==>
          events == Transcript(|request.tokens|, run) && error == if run.complete then None else Some(Internal))
    && (pl.Split? ==> peer != null && PeerAgrees(peer, TokensIn(events)))
    && (pl.Split? && error.None? ==>
          peer.released && peer.prompt == |request.tokens| && peer.generated == |run.tokens|)
  }

  /** Generation of a request that is not refused. */
  method Produce(pl: Pipeline, s: Sampler, request: Prompt, lease: Lease, downstream: Lease, fate: nat -> Fate, last: Fate)
    returns (events: seq<Event>, error: Option<Error>, peer: Session?)
    requires pl.Valid() && s.Valid() && !Malformed(request) && Refusal(pl, request).None? && Prefix.Tokens(pl, request.tokens)
    requires Grants(pl.First(), request, lease)
    requires pl.Split? ==> Grants(pl.tail, request, downstream) && downstream.identity == lease.identity
    ensures request.tokens != [] && Generated(pl, s, request, fate, last, events, error, peer)
  {
    hide Autoregressive, Shown, Paired, Transcript, Refusal, InStep, Pipeline.Valid, Sampler.Valid, Grants, Undisturbed, TokensIn, ChunkSize,
         Tells, Prefix.Tokens;
    events, error, peer := [], None, null;
    LeaseCovers(pl, request, lease);
    if ChunkSize(request) > lease.maximumQueryTokens {
      error := Some(Internal);
      return;
    }
    if pl.Split? {
      peer, error := OpenDownstream(pl, s, request, lease, downstream);
      if error.Some? {
        return;
      }
    }
    var generated: nat;
    events, generated, error := EmitTokens(pl, s, request, lease, peer, fate);
    ghost var run := Autoregressive(pl, s, request.tokens, 0, request);
    TranscriptEnds(|request.tokens|, run.tokens);
    PartIsPrefix(|request.tokens|, run, events, generated);
    PrefixTells(|request.tokens|, run, events);
    if error.Some? {
      return;
    }
    if last.Halts? {
      error := Some(last.error);
      return;
    }
    if peer != null {
      error := CloseDownstream(peer, lease, |request.tokens|, generated);
      if error.Some? {
        return;
      }
    }
    if last.Loses? {
      error := Some(last.error);
      return;
    }
    TokensInJoin(events, [Usage(|request.tokens|, generated)]);
    NoTokens(|request.tokens|, generated);
    events := events + [Usage(|request.tokens|, generated)];
    PrefixTells(|request.tokens|, run, events);
    if last.Mutes? {
      error := Some(last.error);
      return;
    }
    TokensInJoin(events, [Completed]);
    events := events + [Completed];
    PrefixTells(|request.tokens|, run, events);
  }

  /** Generation, for every chunk size, one stage or two, is plain autoregression: the client sees the
      reference run's tokens in order at consecutive positions, up to the first stop token or the
      requested length, and only a non-finite activation or logit ends it early. A downstream stage
      rejects nothing and accepts the termination with the driver's own counts. If anything interrupts it,
      at whatever point, the client has seen the beginning of the same run, and the downstream stage has
      generated the tokens the client was shown and at most one more. */
  method Generate(pl: Pipeline, s: Sampler, request: Prompt, lease: Lease, downstream: Lease, fate: nat -> Fate, last: Fate)
    returns (events: seq<Event>, error: Option<Error>, peer: Session?)
    requires pl.Valid() && s.Valid()
    requires !Malformed(request) ==> Grants(pl.First(), request, lease)
    requires !Malformed(request) && pl.Split? ==>
               Grants(pl.tail, request, downstream) && downstream.identity == lease.identity
    ensures request.tokens == [] || request.maximumNew == 0 || |request.tokens| + request.maximumNew > MAXIMUM_SIZE ==>
              events == [] && error == Some(InvalidRequest) && peer == null
    ensures request.tokens != [] && request.maximumNew != 0 && |request.tokens| + request.maximumNew <= MAXIMUM_SIZE ==>
              var n := pl.Vocabulary();
              var stops := forall i :: 0 <= i < |request.stops| ==> request.stops[i] < n;
              var fits := pl.Split? ==> ChunkSize(request) * pl.First().Hidden() <= MAXIMUM_RPC_BYTES / 4;
              var tokens := forall i :: 0 <= i < |request.tokens| ==> request.tokens[i] < n;
              && (!stops ==> events == [] && error == Some(InvalidRequest) && peer == null)
              && (stops && !fits ==> events == [] && error == Some(ResourceExhausted) && peer == null)
              && (stops && fits && !tokens ==> events == [] && error == Some(InvalidRequest) && peer == null)
              && (stops && fits && tokens ==>
                    Prefix.Tokens(pl, request.tokens) && Generated(pl, s, request, fate, last, events, error, peer))
  {
    hide Autoregressive, Shown, Paired, Transcript, Refusal, InStep, Pipeline.Valid, Sampler.Valid, Grants, Undisturbed, Generated, ChunkSize;
    events, error, peer := [], None, null;
    RefusesExactly(pl, request);
    if Malformed(request) {
      error := Some(InvalidRequest);
      return;
    }
    error := Refusal(pl, request);
    if error.Some? {
      return;
    }
    events, error, peer := Produce(pl, s, request, lease, downstream, fate, last);
  }

  lemma NoTokens(prompt: nat, generated: nat)
    ensures TokensIn([Usage(prompt, generated)]) == 0 == TokensIn([Completed])
  {}
}
