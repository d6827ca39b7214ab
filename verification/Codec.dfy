/** The stage-boundary message: validation, encoding and decoding. */
module Codec {
  import opened Numbers
  import opened Results
  import opened Stage

  const MAXIMUM_RPC_BYTES: nat := 16 * 1024 * 1024

  datatype Phase = Prefill | Decode

  datatype Identity = Identity(
    deployment: string, version: nat, request: string, maximumTokens: nat, hidden: nat)
  {
    predicate Valid() {
      deployment != "" && version != 0 && request != "" && maximumTokens > 0 && hidden > 0
    }
  }

  datatype Envelope = Envelope(
    protocol: nat, deployment: string, version: nat, request: string, microbatch: nat, sequence: nat,
    phase: Phase, firstPosition: nat, sequenceLengths: seq<nat>, cacheSlots: seq<nat>, shape: seq<nat>,
    half: bool, layout: string, checksum: string, payload: seq<Byte>, payloadLength: nat)

  const DENSE_LAYOUT := "dense_row_major_le"

  function PhaseOf(sequence: nat, prefill: bool): Phase {
    if sequence == 0 || prefill then Phase.Prefill else Phase.Decode
  }

  /** All exponent bits of a little-endian half are set exactly when its high byte has these bits. */
  predicate NonFiniteHigh(high: Byte) {
    high / 4 % 0x20 == 0x1f
  }

  predicate FinitePayload(payload: seq<Byte>) {
    forall i :: 0 <= i < |payload| && i % 2 == 1 ==> !NonFiniteHigh(payload[i])
  }

  /** The checks of a received envelope against its limits: one sequence, halves, dense rows. */
  predicate ValidEnvelope(e: Envelope, received: nat, maximumLength: nat, hidden: nat, maximumPayload: nat) {
    && e.protocol == 1
    && e.deployment != "" && e.version != 0 && e.request != ""
    && maximumLength > 0 && hidden > 0 && maximumPayload > 0
    && e.layout == DENSE_LAYOUT && e.half
    && |e.shape| == 3
    && e.shape[0] == 1 && e.shape[1] > 0 && e.shape[2] == hidden
    && |e.sequenceLengths| == 1 && |e.cacheSlots| == 1
    && (e.phase == Phase.Decode ==> e.shape[1] == 1)
    && e.sequenceLengths[0] == e.shape[1] && e.firstPosition + e.shape[1] <= maximumLength
    && e.payloadLength == e.shape[1] * hidden * 2 == received <= maximumPayload
  }

  function Decoded(e: Envelope, id: Identity, sequence: nat, position: nat, prefill: bool): Result<Boundary> {
    if e.deployment != id.deployment || e.version != id.version || e.request != id.request || e.microbatch != 0 then
      Err(InvalidRequest)
    else if e.sequence != sequence || e.firstPosition != position || e.phase != PhaseOf(sequence, prefill)
            || !e.half || e.layout != DENSE_LAYOUT || e.checksum != "" then
      Err(InvalidRequest)
    else if !ValidEnvelope(e, |e.payload|, id.maximumTokens, id.hidden, MAXIMUM_RPC_BYTES / 2) then
      Err(InvalidRequest)
    else if e.cacheSlots != [0] || !FinitePayload(e.payload) then
      Err(InvalidRequest)
    else
      Ok(Boundary(e.shape[1], id.hidden, e.payload))
  }

  function Encoded(b: Boundary, id: Identity, sequence: nat, position: nat, prefill: bool): Result<Envelope> {
    if |b.payload| > MAXIMUM_RPC_BYTES / 2 then Err(ResourceExhausted)
    else if b.width == 0 || b.width != id.hidden || b.tokens == 0
            || b.tokens > MAXIMUM_RPC_BYTES / 4 / b.width || |b.payload| != b.tokens * b.width * 2
            || !FinitePayload(b.payload) then
      Err(Internal)
    else
      Ok(Envelope(1, id.deployment, id.version, id.request, 0, sequence, PhaseOf(sequence, prefill), position,
                  [b.tokens], [0], [1, b.tokens, b.width], true, DENSE_LAYOUT, "", b.payload, |b.payload|))
  }

  /** Looks at every second byte. */
  method ScanPayload(payload: seq<Byte>) returns (ok: bool)
    ensures ok <==> FinitePayload(payload)
  {
    var i := 1;
    while i < |payload|
      invariant i % 2 == 1 && i <= |payload| + 1
      invariant forall j :: 0 <= j < i && j < |payload| && j % 2 == 1 ==> !NonFiniteHigh(payload[j])
    {
      if NonFiniteHigh(payload[i]) {
        return false;
      }
      i := i + 2;
    }
    ok := true;
  }

  /** The sender's checks. */
  method EncodeTensor(b: Boundary, id: Identity, sequence: nat, position: nat, prefill: bool) returns (r: Result<Envelope>)
    ensures r == Encoded(b, id, sequence, position, prefill)
  {
    hide FinitePayload;
    if |b.payload| > MAXIMUM_RPC_BYTES / 2 {
      return Err(ResourceExhausted);
    }
    var phase := PhaseOf(sequence, prefill);
    if b.width == 0 || b.width != id.hidden || b.tokens == 0
       || b.tokens > MAXIMUM_RPC_BYTES / 4 / b.width || |b.payload| != b.tokens * b.width * 2 {
      return Err(Internal);
    }
    var finite := ScanPayload(b.payload);
    if !finite {
      return Err(Internal);
    }
    r := Ok(Envelope(1, id.deployment, id.version, id.request, 0, sequence, phase, position,
                     [b.tokens], [0], [1, b.tokens, b.width], true, DENSE_LAYOUT, "", b.payload, |b.payload|));
  }

  /** The receiver's checks. */
  method DecodeTensor(e: Envelope, id: Identity, sequence: nat, position: nat, prefill: bool) returns (r: Result<Boundary>)
    ensures r == Decoded(e, id, sequence, position, prefill)
  {
    hide FinitePayload;
    if e.deployment != id.deployment || e.version != id.version || e.request != id.request || e.microbatch != 0 {
      return Err(InvalidRequest);
    }
    if e.sequence != sequence || e.firstPosition != position || e.phase != PhaseOf(sequence, prefill)
       || !e.half || e.layout != DENSE_LAYOUT || e.checksum != "" {
      return Err(InvalidRequest);
    }
    if !ValidEnvelope(e, |e.payload|, id.maximumTokens, id.hidden, MAXIMUM_RPC_BYTES / 2) {
      return Err(InvalidRequest);
    }
    if |e.cacheSlots| != 1 || e.cacheSlots[0] != 0 {
      return Err(InvalidRequest);
    }
    var finite := ScanPayload(e.payload);
    if !finite {
      return Err(InvalidRequest);
    }
    r := Ok(Boundary(e.shape[1], id.hidden, e.payload));
  }

  /** What one side encodes the other decodes to the same activation: always for prefill, and for a
      single row in decode, as long as the rows fit the sequence. */
  lemma DecodeUndoesEncode(b: Boundary, id: Identity, sequence: nat, position: nat, prefill: bool)
    requires id.Valid() && Encoded(b, id, sequence, position, prefill).Ok?
    ensures var e := Encoded(b, id, sequence, position, prefill).value;
            Decoded(e, id, sequence, position, prefill) ==
              if position + b.tokens <= id.maximumTokens && (PhaseOf(sequence, prefill) == Phase.Prefill || b.tokens == 1)
              then Ok(b) else Err(InvalidRequest)
  {}

  /** The receiver accepts an envelope exactly if it is, in every field, what the sender makes of some activation for
      the same request, step and position, and the rows fit the sequence. */
  lemma AcceptsExactlyTheEncodings(e: Envelope, id: Identity, sequence: nat, position: nat, prefill: bool, b: Boundary)
    requires id.Valid()
    ensures Decoded(e, id, sequence, position, prefill) == Ok(b) <==>
              && Encoded(b, id, sequence, position, prefill) == Ok(e)
              && position + b.tokens <= id.maximumTokens && (PhaseOf(sequence, prefill) == Phase.Prefill || b.tokens == 1)
    ensures Decoded(e, id, sequence, position, prefill).Err? ==> Decoded(e, id, sequence, position, prefill).error == InvalidRequest
  {
    hide FinitePayload;
    if Encoded(b, id, sequence, position, prefill) == Ok(e) {
      DecodeUndoesEncode(b, id, sequence, position, prefill);
    }
    if Decoded(e, id, sequence, position, prefill) == Ok(b) {
      DecodedEncodes(e, id, sequence, position, prefill, b);
    }
  }

  lemma DecodedEncodes(e: Envelope, id: Identity, sequence: nat, position: nat, prefill: bool, b: Boundary)
    requires id.Valid() && Decoded(e, id, sequence, position, prefill) == Ok(b)
    ensures Encoded(b, id, sequence, position, prefill) == Ok(e)
  {
    hide FinitePayload;
    EncodableExactly(b, id, sequence, position, prefill);
    assert e.shape == [1, b.tokens, b.width] && e.sequenceLengths == [b.tokens] && e.cacheSlots == [0];
  }

  /** An envelope is accepted only by the request, step, position and phase it was encoded for, so a
      message that is late, repeated, reordered or meant for another request is refused. */
  lemma OnlyTheExpectedMessageDecodes(b: Boundary, id: Identity, sequence: nat, position: nat, prefill: bool,
                                      other: Identity, step: nat, first: nat, prefilling: bool)
    requires Encoded(b, id, sequence, position, prefill).Ok?
    requires Decoded(Encoded(b, id, sequence, position, prefill).value, other, step, first, prefilling).Ok?
    ensures other.deployment == id.deployment && other.version == id.version && other.request == id.request
    ensures step == sequence && first == position && PhaseOf(step, prefilling) == PhaseOf(sequence, prefill)
    ensures other.hidden == b.width && first + b.tokens <= other.maximumTokens
    ensures Decoded(Encoded(b, id, sequence, position, prefill).value, other, step, first, prefilling) == Ok(b)
  {}

  /** The sender can ship exactly the well-formed finite activations within the transport limit. */
  lemma EncodableExactly(b: Boundary, id: Identity, sequence: nat, position: nat, prefill: bool)
    ensures Encoded(b, id, sequence, position, prefill).Ok? <==>
              && b.tokens > 0 && b.width == id.hidden && b.width > 0
              && |b.payload| == b.tokens * b.width * 2
              && b.tokens * b.width * 2 <= MAXIMUM_RPC_BYTES / 2
              && FinitePayload(b.payload)
    ensures Encoded(b, id, sequence, position, prefill).Err? ==>
              Encoded(b, id, sequence, position, prefill).error
              == if |b.payload| > MAXIMUM_RPC_BYTES / 2 then ResourceExhausted else Internal
  {
    if b.width > 0 {
      QuotientBound(b.tokens, b.width, MAXIMUM_RPC_BYTES / 4);
    }
  }

  /** The most rows that the planner lets one boundary message carry. */
  function MaximumBoundaryTokens(hidden: nat, bytes: nat): nat
    requires hidden > 0 && bytes > 0
  {
    MAXIMUM_RPC_BYTES / 2 / (hidden * bytes)
  }

  /** The planner's limit is the sender's: a well-formed finite activation of halves can be shipped
      exactly when it has no more rows than that. */
  lemma PlannerLimitIsExact(b: Boundary, id: Identity, sequence: nat, position: nat, prefill: bool)
    requires b.tokens > 0 && b.width == id.hidden > 0 && |b.payload| == b.tokens * b.width * 2 && FinitePayload(b.payload)
    ensures Encoded(b, id, sequence, position, prefill).Ok? <==> b.tokens <= MaximumBoundaryTokens(id.hidden, 2)
  {
    hide Encoded, FinitePayload;
    EncodableExactly(b, id, sequence, position, prefill);
    QuotientBound(b.tokens, b.width * 2, MAXIMUM_RPC_BYTES / 2);
    assert b.tokens * (b.width * 2) == b.tokens * b.width * 2;
  }

  /** The codec's byte test is the stage's finiteness test. */
  lemma FiniteRowEncodes(x: Stage.Transformer.Row)
    ensures FinitePayload(Stage.Encode(x)) <==> FiniteRow(x)
  {
    hide Stage.Encode, NonFiniteHigh, FiniteHalf;
    EncodedLength(x);
    if FiniteRow(x) {
      forall j | 0 <= j < 2 * |x| && j % 2 == 1
        ensures !NonFiniteHigh(Stage.Encode(x)[j])
      {
        HighByteShowsFinite(x, j / 2);
      }
    } else {
      var i :| 0 <= i < |x| && !FiniteHalf(x[i]);
      HighByteShowsFinite(x, i);
    }
  }

  lemma EncodedLength(x: Stage.Transformer.Row)
    ensures |Stage.Encode(x)| == 2 * |x|
  {}

  lemma HighByteShowsFinite(x: Stage.Transformer.Row, i: nat)
    requires i < |x|
    ensures NonFiniteHigh(Stage.Encode(x)[2 * i + 1]) <==> !FiniteHalf(x[i])
  {
    hide Stage.Half.Narrow;
    FiniteBits(Stage.Half.Narrow(x[i]));
  }

  lemma FiniteBits(half: Stage.Half.Bits16)
    ensures NonFiniteHigh(half / 0x100) <==> !Stage.Half.Finite(Stage.Half.Binary.Float16, Stage.Half.Magnitude16(half))
  {}
}
