/** The downstream side of split generation: one stream, from its opening to its termination. */
module FinalStage {
  import opened ChunkedPrefill
  import opened Results
  import opened Stage
  import opened Codec

  /** The opening message of a sequence. */
  datatype Opening = Opening(
    protocol: nat, microbatch: nat, total: nat, prompt: nat, maximumNew: nat, stops: seq<nat>)

  /** What the control service hands to the execution owner of a request. */
  datatype Lease = Lease(identity: Identity, maximumTokens: nat, maximumQueryTokens: nat, sequence: State)

  datatype Request = Tensor(envelope: Envelope)
                   | Terminate(deployment: string, version: nat, request: string, microbatch: nat, completed: bool,
                               prompt: nat, generated: nat)

  datatype Reply = PrefillProgress(identity: Identity, sequence: nat, next: nat)
                 | SampledToken(identity: Identity, sequence: nat, position: nat, token: nat)
                 | Acknowledged(message: Request)

  /** The counters the stream keeps. */
  datatype Counters = Counters(
    sequence: State, position: nat, step: nat, prompt: nat, generated: nat, stopped: bool, released: bool)

  /** The checks of an opening, before and after its lease is acquired. */
  predicate ValidOpening(o: Opening, tail: Dense, l: Lease) {
    && o.protocol == 1 && o.microbatch == 0 && 0 < o.maximumNew < o.total
    && (forall i :: 0 <= i < |o.stops| ==> o.stops[i] < tail.vocabulary)
    && o.prompt + o.maximumNew <= l.maximumTokens
  }

  /** The checks of a tensor message: its activation, the prompt's length, and the flags of its execution. */
  function Taken(o: Opening, l: Lease, v: Counters, e: Envelope): (r: Result<(Boundary, nat, State)>)
    ensures r.Ok? ==> r.value.2.caches == v.sequence.caches
  {
    if v.stopped then Err(InvalidRequest)
    else
      var prefilling := v.step == 0 || v.position < v.prompt;
      var input :- Decoded(e, l.identity, v.step, v.position, prefilling);
      var prompt := if v.step == 0 && v.prompt == 0 then input.tokens else v.prompt;
      if v.step == 0 && v.prompt == 0 && prompt + o.maximumNew > l.maximumTokens then Err(InvalidRequest)
      else if if prefilling then v.position + input.tokens > prompt else input.tokens != 1 then Err(InvalidRequest)
      else if input.tokens > l.maximumQueryTokens then Err(InvalidRequest)
      else Ok((input, prompt, v.sequence.(prefilling := prefilling, prefillOnly := prefilling && v.position + input.tokens < prompt)))
  }

  /** The reply to `count` rows that executed, and the counters after it. */
  function Answer(tail: Dense, o: Opening, l: Lease, v: Counters, count: nat, prompt: nat, prefillOnly: bool, output: Output, sequence: State)
    : Result<(Reply, Counters)>
  {
    var next := v.position + count;
    var moved := v.(sequence := sequence, position := next, step := v.step + 1, prompt := prompt);
    if prefillOnly then
      if output.Progress? then Ok((PrefillProgress(l.identity, v.step, next), moved)) else Err(Internal)
    else if output.Sampled? && output.token < tail.vocabulary then
      var stopped := v.generated + 1 == o.maximumNew || output.token in o.stops;
      Ok((SampledToken(l.identity, v.step, next, output.token), moved.(generated := v.generated + 1, stopped := stopped)))
    else Err(Internal)
  }

  /** The whole of a tensor message's handling. */
  function OnTensor(tail: Dense, s: Sampler, o: Opening, l: Lease, v: Counters, e: Envelope): Result<(Reply, Counters)>
    requires tail.Valid() && ValidCaches(tail.model, v.sequence.caches)
  {
    var (input, prompt, flagged) :- Taken(o, l, v, e);
    var (output, sequence) :- Execute(tail, s, Activation(input), v.position, flagged);
    Answer(tail, o, l, v, input.tokens, prompt, flagged.prefillOnly, output, sequence)
  }

  /** The activation the stream waits for next, if the message carries it. */
  function Awaited(l: Lease, v: Counters, e: Envelope): Result<Boundary> {
    Decoded(e, l.identity, v.step, v.position, v.step == 0 || v.position < v.prompt)
  }

  /** A tensor is taken exactly if the stream has not stopped, the message is the one awaited, its rows stay within
      what was reserved for one input, and they continue the prompt, or are the one row after it. A prompt whose
      length the opening left out is what the first message carries. */
  lemma TakesExactly(o: Opening, l: Lease, v: Counters, e: Envelope)
    ensures Taken(o, l, v, e).Ok? <==>
              && !v.stopped && Awaited(l, v, e).Ok?
              && var rows, next := Awaited(l, v, e).value.tokens, v.position + Awaited(l, v, e).value.tokens;
                 && rows <= l.maximumQueryTokens
                 && if v.step == 0 && v.prompt == 0 then v.position == 0 && rows + o.maximumNew <= l.maximumTokens
                    else if v.step == 0 || v.position < v.prompt then next <= v.prompt
                    else rows == 1
    ensures Taken(o, l, v, e).Err? ==> Taken(o, l, v, e).error == InvalidRequest
  {
    hide Decoded;
    if Awaited(l, v, e).Err? {
      RefusesInvalid(e, l.identity, v.step, v.position, v.step == 0 || v.position < v.prompt);
    }
  }

  lemma RefusesInvalid(e: Envelope, id: Identity, sequence: nat, position: nat, prefill: bool)
    requires Decoded(e, id, sequence, position, prefill).Err?
    ensures Decoded(e, id, sequence, position, prefill).error == InvalidRequest
  {}

  /** An answered tensor moves the stream on by one step and by its rows. Inside the prompt the answer says how far
      it has come; from its end on it is a token, which is counted, and the stream stops with the last token that the
      opening asked for, or at a stop token. */
  lemma AnswersAndMoves(tail: Dense, s: Sampler, o: Opening, l: Lease, v: Counters, e: Envelope)
    requires tail.Valid() && ValidCaches(tail.model, v.sequence.caches) && OnTensor(tail, s, o, l, v, e).Ok?
    ensures Awaited(l, v, e).Ok? && !v.stopped
    ensures var (reply, after) := OnTensor(tail, s, o, l, v, e).value;
            && after.step == v.step + 1 && after.position == v.position + Awaited(l, v, e).value.tokens
            && after.released == v.released
            && after.prompt == (if v.step == 0 && v.prompt == 0 then Awaited(l, v, e).value.tokens else v.prompt)
            && if after.position < after.prompt then
                 && reply == PrefillProgress(l.identity, v.step, after.position)
                 && after.generated == v.generated && !after.stopped
               else
                 && reply.SampledToken? && reply == SampledToken(l.identity, v.step, after.position, reply.token)
                 && reply.token < tail.vocabulary && after.generated == v.generated + 1
                 && (after.stopped <==> after.generated == o.maximumNew || reply.token in o.stops)
  {
    hide Decoded, Execute, Dense.Valid, ValidCaches;
  }

  // ---------------------------------------------------------------------------- whatever the driver sends

  /** The stream stays within its reservation: it has come no further than the prompt before the first token, one row
      further for each token after it, and no token beyond the last one asked for. */
  predicate Within(o: Opening, l: Lease, v: Counters) {
    && v.generated <= o.maximumNew && (v.generated == o.maximumNew ==> v.stopped)
    && (v.prompt > 0 ==> v.prompt + o.maximumNew <= l.maximumTokens)
    && (v.step == 0 ==> v.position == 0 && v.generated == 0)
    && (v.step > 0 ==>
          && v.prompt > 0
          && if v.position < v.prompt then v.generated == 0 else v.generated > 0 && v.position + 1 == v.prompt + v.generated)
  }

  lemma OpensWithin(o: Opening, tail: Dense, l: Lease)
    requires ValidOpening(o, tail, l)
    ensures Within(o, l, Counters(l.sequence, 0, 0, o.prompt, 0, false, false))
  {}

  lemma AnswerStaysWithin(tail: Dense, s: Sampler, o: Opening, l: Lease, v: Counters, e: Envelope)
    requires tail.Valid() && ValidCaches(tail.model, v.sequence.caches) && OnTensor(tail, s, o, l, v, e).Ok?
    requires Within(o, l, v) && o.maximumNew > 0
    ensures var after := OnTensor(tail, s, o, l, v, e).value.1;
            && Within(o, l, after) && ValidCaches(tail.model, after.sequence.caches) && after.position < l.maximumTokens
            && Awaited(l, v, e).Ok? && Awaited(l, v, e).value.tokens <= l.maximumQueryTokens
  {
    hide Awaited, Execute, Dense.Valid, ValidCaches;
    AnswersAndMoves(tail, s, o, l, v, e);
    TakesExactly(o, l, v, e);
    AwaitedHasRows(l, v, e);
  }

  lemma AwaitedHasRows(l: Lease, v: Counters, e: Envelope)
    ensures Awaited(l, v, e).Ok? ==> Awaited(l, v, e).value.tokens > 0
  {}

  /** The counters after a stream's tensors, or the first refusal. */
  function Served(tail: Dense, s: Sampler, o: Opening, l: Lease, v: Counters, es: seq<Envelope>): Result<Counters>
    requires tail.Valid() && ValidCaches(tail.model, v.sequence.caches)
    decreases |es|
  {
    if es == [] then Ok(v)
    else
      match OnTensor(tail, s, o, l, v, es[0])
      case Err(e) => Err(e)
      case Ok((_, after)) =>
        AnswerKeepsCaches(tail, s, o, l, v, es[0]);
        Served(tail, s, o, l, after, es[1..])
  }

  lemma AnswerKeepsCaches(tail: Dense, s: Sampler, o: Opening, l: Lease, v: Counters, e: Envelope)
    requires tail.Valid() && ValidCaches(tail.model, v.sequence.caches) && OnTensor(tail, s, o, l, v, e).Ok?
    ensures ValidCaches(tail.model, OnTensor(tail, s, o, l, v, e).value.1.sequence.caches)
  {
    hide Decoded, Execute, Dense.Valid, ValidCaches;
  }

  /** Whatever tensors a driver sends, in whatever order, the stage never executes beyond its reservation and never
      gives more tokens than the opening asked for. */
  lemma {:induction false} StreamStaysWithin(tail: Dense, s: Sampler, o: Opening, l: Lease, v: Counters, es: seq<Envelope>)
    requires tail.Valid() && ValidCaches(tail.model, v.sequence.caches) && Within(o, l, v) && o.maximumNew > 0
    requires Served(tail, s, o, l, v, es).Ok?
    ensures var after := Served(tail, s, o, l, v, es).value;
            Within(o, l, after) && (es != [] ==> after.position < l.maximumTokens && after.generated <= o.maximumNew)
    decreases |es|
  {
    hide OnTensor, Within, Dense.Valid, ValidCaches;
    if es != [] {
      AnswerStaysWithin(tail, s, o, l, v, es[0]);
      var after := OnTensor(tail, s, o, l, v, es[0]).value.1;
      WithinGives(o, l, after);
      StreamStaysWithin(tail, s, o, l, after, es[1..]);
    }
  }

  lemma WithinGives(o: Opening, l: Lease, v: Counters)
    requires Within(o, l, v)
    ensures v.generated <= o.maximumNew
  {}

  predicate Terminates(l: Lease, v: Counters, m: Request)
    requires m.Terminate?
  {
    && m.deployment == l.identity.deployment && m.version == l.identity.version && m.request == l.identity.request
    && m.microbatch == 0 && m.completed && v.stopped && m.prompt == v.prompt && m.generated == v.generated
  }

  class Session {
    const tail: Dense
    const sampler: Sampler
    const opening: Opening
    const lease: Lease
    var sequence: State
    var position: nat
    var step: nat
    var prompt: nat
    var generated: nat
    var stopped: bool
    var released: bool

    function View(): Counters
      reads this
    {
      Counters(sequence, position, step, prompt, generated, stopped, released)
    }

    predicate Valid()
      reads this
    {
      tail.Valid() && ValidCaches(tail.model, sequence.caches)
    }

    constructor (tail: Dense, sampler: Sampler, opening: Opening, lease: Lease)
      requires tail.Valid() && ValidCaches(tail.model, lease.sequence.caches)
      ensures Valid() && this.tail == tail && this.sampler == sampler && this.opening == opening && this.lease == lease
      ensures View() == Counters(lease.sequence, 0, 0, opening.prompt, 0, false, false)
    {
      this.tail, this.sampler, this.opening, this.lease := tail, sampler, opening, lease;
      sequence, position, step := lease.sequence, 0, 0;
      prompt, generated, stopped, released := opening.prompt, 0, false, false;
    }

    /** Handles the next message of the stream. A failure ends the stream; what counts the answers given, and
        the place of the last, are then left alone. */
    method Receive(m: Request) returns (r: Result<Reply>)
      requires Valid()
      modifies this
      ensures Valid()
      ensures m.Tensor? ==>
                match old(OnTensor(tail, sampler, opening, lease, View(), m.envelope))
                case Err(e) => r == Err(e)
                case Ok((reply, after)) => r == Ok(reply) && View() == after
      ensures r.Err? ==>
                && position == old(position) && step == old(step) && generated == old(generated)
                && stopped == old(stopped) && released == old(released)
      ensures m.Terminate? ==>
                if old(Terminates(lease, View(), m)) then r == Ok(Acknowledged(m)) && View() == old(View()).(released := true)
                else r == Err(InvalidRequest) && View() == old(View())
      ensures m.Terminate? ==>
                (r.Ok? <==>
                   && old(stopped) && m.completed && m.prompt == old(prompt) && m.generated == old(generated) && m.microbatch == 0
                   && (m.deployment, m.version, m.request)
                      == (lease.identity.deployment, lease.identity.version, lease.identity.request))
    {
      hide OnTensor;
      if m.Terminate? {
        r := End(m);
      } else {
        r := Handle(m.envelope);
      }
    }

    method End(m: Request) returns (r: Result<Reply>)
      requires Valid() && m.Terminate?
      modifies this
      ensures Valid()
      ensures if old(Terminates(lease, View(), m)) then r == Ok(Acknowledged(m)) && View() == old(View()).(released := true)
              else r == Err(InvalidRequest) && View() == old(View())
    {
      if m.deployment != lease.identity.deployment || m.version != lease.identity.version
         || m.request != lease.identity.request || m.microbatch != 0 {
        return Err(InvalidRequest);
      }
      if !m.completed || !stopped || m.prompt != prompt || m.generated != generated {
        return Err(InvalidRequest);
      }
      released := true;
      r := Ok(Acknowledged(m));
    }

    method Handle(e: Envelope) returns (r: Result<Reply>)
      requires Valid()
      modifies this
      ensures Valid()
      ensures match old(OnTensor(tail, sampler, opening, lease, View(), e))
              case Err(error) => r == Err(error)
              case Ok((reply, after)) => r == Ok(reply) && View() == after
      ensures r.Err? ==>
                && position == old(position) && step == old(step) && generated == old(generated)
                && stopped == old(stopped) && released == old(released)
    {
      hide Execute, Taken, Answer;
      ghost var v := View();
      var input := Take(e);
      if input.Err? {
        return Err(input.error);
      }
      var prefillOnly := sequence.prefillOnly;
      var executed := Execute(tail, sampler, Activation(input.value), position, sequence);
      if executed.Err? {
        return Err(executed.error);
      }
      sequence := executed.value.1;
      r := Respond(input.value.tokens, prefillOnly, executed.value.0, v);
    }

    /** Sets the prompt's length and the flags, if the message is in order. */
    method Take(e: Envelope) returns (r: Result<Boundary>)
      requires Valid()
      modifies this`prompt, this`sequence
      ensures Valid()
      ensures match old(Taken(opening, lease, View(), e))
              case Err(error) => r == Err(error)
              case Ok((input, length, flagged)) =>
                r == Ok(input) && View() == old(View()).(prompt := length, sequence := flagged)
    {
      hide Decoded, Dense.Valid, ValidCaches;
      if stopped {
        return Err(InvalidRequest);
      }
      var prefilling := step == 0 || position < prompt;
      var decoded := DecodeTensor(e, lease.identity, step, position, prefilling);
      if decoded.Err? {
        return Err(decoded.error);
      }
      var count := decoded.value.tokens;
      if step == 0 && prompt == 0 {
        if count + opening.maximumNew > lease.maximumTokens {
          return Err(InvalidRequest);
        }
        prompt := count;
      }
      if (prefilling && position + count > prompt) || (!prefilling && count != 1) {
        return Err(InvalidRequest);
      }
      if count > lease.maximumQueryTokens {
        return Err(InvalidRequest);
      }
      sequence := sequence.(prefilling := prefilling, prefillOnly := prefilling && position + count < prompt);
      r := decoded;
    }

    /** Counts the rows that executed and forms the reply. */
    method Respond(count: nat, prefillOnly: bool, output: Output, ghost v: Counters) returns (r: Result<Reply>)
      requires Valid() && View() == v.(prompt := prompt, sequence := sequence)
      modifies this
      ensures Valid() && sequence == old(sequence) && prompt == old(prompt)
      ensures match Answer(tail, opening, lease, v, count, old(prompt), prefillOnly, output, old(sequence))
              case Err(error) => r == Err(error) && View() == old(View())
              case Ok((reply, after)) => r == Ok(reply) && View() == after
    {
      hide Dense.Valid, ValidCaches;
      if prefillOnly {
        if !output.Progress? {
          return Err(Internal);
        }
        r := Ok(PrefillProgress(lease.identity, step, position + count));
        step := step + 1;
        position := position + count;
        return;
      }
      if !output.Sampled? || output.token >= tail.vocabulary {
        return Err(Internal);
      }
      r := Ok(SampledToken(lease.identity, step, position + count, output.token));
      step := step + 1;
      position := position + count;
      generated := generated + 1;
      stopped := generated == opening.maximumNew || output.token in opening.stops;
    }
  }
}
