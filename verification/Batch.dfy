/** Joining the inputs of a decode batch into one, and cutting the joint output apart again. */
module Batch {
  import opened Numbers
  import opened Results
  import opened Memory
  import opened Stage

  /** One caller's work: `sequence` is the identity of the sequence state it runs on. */
  datatype Item = Item(input: Input, position: nat, sequence: nat, prefilling: bool, prefillOnly: bool) {
    /** Whether the scheduler treats this as prefill. */
    predicate Prefill() {
      position == 0 || prefilling
    }
  }

  const MAXIMUM_ITEMS: nat := 64

  predicate DecodeRow(item: Item) {
    && !item.Prefill() && !item.prefillOnly
    && match item.input
       case Tokens(ids) => |ids| == 1
       case Activation(b) => b.tokens == 1 && 0 < b.width && b.width * 2 <= MAXIMUM_SIZE && |b.payload| == b.width * 2
  }

  predicate SameForm(a: Input, b: Input) {
    a.Tokens? == b.Tokens? && (a.Activation? && b.Activation? ==> a.boundary.width == b.boundary.width)
  }

  predicate Independent(items: seq<Item>) {
    forall i, j :: 0 <= i < j < |items| ==> items[i].sequence != items[j].sequence
  }

  predicate Rows(items: seq<Item>) {
    forall i :: 0 <= i < |items| ==> DecodeRow(items[i]) && SameForm(items[i].input, items[0].input)
  }

  /** Independent sequences, each with one decode row, all of the same kind and width. */
  predicate Joinable(items: seq<Item>) {
    0 < |items| <= MAXIMUM_ITEMS && Independent(items) && Rows(items)
  }

  /** From 1 to 64 items, each a single row past the prompt, all tokens or all activations of one width, of distinct
      sequences. */
  lemma JoinableIs(items: seq<Item>)
    ensures Joinable(items) <==>
              && 1 <= |items| <= 64
              && (forall i :: 0 <= i < |items| ==>
                    var item, first := items[i], items[0].input;
                    && item.position != 0 && !item.prefilling && !item.prefillOnly && item.input.Tokens? == first.Tokens?
                    && (item.input.Tokens? ==> |item.input.ids| == 1)
                    && (item.input.Activation? ==>
                          var b := item.input.boundary;
                          b.tokens == 1 && 0 < b.width == first.boundary.width && |b.payload| == b.width * 2 <= MAXIMUM_SIZE))
              && forall i, j :: 0 <= i < j < |items| ==> items[i].sequence != items[j].sequence
  {}

  function Ids(items: seq<Item>): seq<nat> {
    if items == [] then []
    else
      var last := items[|items| - 1].input;
      Ids(items[..|items| - 1]) + if last.Tokens? then last.ids else []
  }

  function Payloads(items: seq<Item>): seq<Byte> {
    if items == [] then []
    else
      var last := items[|items| - 1].input;
      Payloads(items[..|items| - 1]) + if last.Activation? then last.boundary.payload else []
  }

  /** The rows of the batch, in order. */
  function Joined(items: seq<Item>): Input
    requires items != []
  {
    if items[0].input.Tokens? then Tokens(Ids(items))
    else Activation(Boundary(|items|, items[0].input.boundary.width, Payloads(items)))
  }

  /** A batch is combined exactly when its items are independent decode rows of one form. */
  method Combine(items: seq<Item>) returns (r: Result<Input>)
    ensures r.Ok? <==> Joinable(items)
    ensures r.Ok? ==> r.value == Joined(items)
    ensures r == Err(ResourceExhausted) ==>
              exists i :: 0 <= i < |items| && items[i].input.Activation? && items[i].input.boundary.width * 2 > MAXIMUM_SIZE
    ensures r.Err? ==> r.error == InvalidRequest || r.error == ResourceExhausted
  {
    if |items| == 0 || |items| > MAXIMUM_ITEMS {
      return Err(InvalidRequest);
    }
    var tokens := items[0].input.Tokens?;
    var sequences: set<nat> := {};
    var ids: seq<nat>, width: nat, payload: seq<Byte> := [], 0, [];
    for i := 0 to |items|
      invariant sequences == set k | 0 <= k < i :: items[k].sequence
      invariant Independent(items[..i]) && Rows(items[..i])
      invariant tokens ==> ids == Ids(items[..i])
      invariant !tokens ==> payload == Payloads(items[..i])
      invariant !tokens && i > 0 ==> width == items[0].input.boundary.width > 0
      invariant !tokens && i == 0 ==> width == 0
    {
      var item := items[i];
      assert items[..i + 1][..i] == items[..i];
      if item.Prefill() || item.prefillOnly || item.sequence in sequences || tokens != item.input.Tokens? {
        Unjoinable(items, i);
        return Err(InvalidRequest);
      }
      sequences := sequences + {item.sequence};
      if tokens {
        if |item.input.ids| != 1 {
          return Err(InvalidRequest);
        }
        ids := ids + item.input.ids;
      } else {
        var b := item.input.boundary;
        if b.tokens == 1 && b.width != 0 && b.width * 2 > MAXIMUM_SIZE {
          return Err(ResourceExhausted);
        }
        if b.tokens != 1 || b.width == 0 || |b.payload| != b.width * 2 || (width != 0 && width != b.width) {
          return Err(InvalidRequest);
        }
        width := b.width;
        payload := payload + b.payload;
      }
    }
    assert items[..|items|] == items;
    r := Ok(if tokens then Tokens(ids) else Activation(Boundary(|items|, width, payload)));
  }

  lemma Unjoinable(items: seq<Item>, i: nat)
    requires i < |items|
    requires || items[i].Prefill() || items[i].prefillOnly || items[i].input.Tokens? != items[0].input.Tokens?
             || exists k :: 0 <= k < i && items[k].sequence == items[i].sequence
    ensures !Joinable(items)
  {}

  /** Row `i` of a boundary. */
  function RowBytes(b: Boundary, i: nat): seq<Byte>
    requires i < b.tokens && |b.payload| == b.tokens * (b.width * 2)
  {
    WithinPayload(b, i);
    b.payload[i * (b.width * 2)..(i + 1) * (b.width * 2)]
  }

  lemma WithinPayload(b: Boundary, i: nat)
    requires i < b.tokens && |b.payload| == b.tokens * (b.width * 2)
    ensures 0 <= i * (b.width * 2) <= (i + 1) * (b.width * 2) <= |b.payload|
  {
    if b.width > 0 {
      MultiplyLess(i, b.tokens, b.width * 2);
    }
  }

  /** Cuts a joint output into one output per row. */
  method Split(output: Boundary) returns (r: Result<seq<Output>>)
    ensures r.Ok? <==> |output.payload| == output.tokens * (output.width * 2) <= MAXIMUM_SIZE && output.width * 2 <= MAXIMUM_SIZE
    ensures r.Ok? ==>
              && |r.value| == output.tokens
              && forall i :: 0 <= i < output.tokens ==> r.value[i] == Hidden(Boundary(1, output.width, RowBytes(output, i)))
  {
    var bytes := output.width * 2;
    if bytes > MAXIMUM_SIZE || output.tokens * bytes > MAXIMUM_SIZE {
      return Err(ResourceExhausted);
    }
    if |output.payload| != output.tokens * bytes {
      return Err(Internal);
    }
    var results: seq<Output> := [];
    for i := 0 to output.tokens
      invariant |results| == i
      invariant forall k :: 0 <= k < i ==> results[k] == Hidden(Boundary(1, output.width, RowBytes(output, k)))
    {
      WithinPayload(output, i);
      results := results + [Hidden(Boundary(1, output.width, output.payload[i * bytes..(i + 1) * bytes]))];
    }
    r := Ok(results);
  }

  lemma {:induction false} PayloadsAt(items: seq<Item>, bytes: nat, i: nat)
    requires forall k :: 0 <= k < |items| ==> items[k].input.Activation? && |items[k].input.boundary.payload| == bytes
    requires i < |items|
    ensures |Payloads(items)| == |items| * bytes
    ensures 0 <= i * bytes <= (i + 1) * bytes <= |Payloads(items)|
    ensures Payloads(items)[i * bytes..(i + 1) * bytes] == items[i].input.boundary.payload
    decreases |items|
  {
    var before, last := items[..|items| - 1], items[|items| - 1].input.boundary.payload;
    assert (|items| - 1) * bytes + bytes == |items| * bytes;
    if before == [] {
      assert Payloads(items) == last;
    } else if i < |before| {
      PayloadsAt(before, bytes, i);
    } else {
      PayloadsAt(before, bytes, 0);
    }
  }

  /** Splitting the joined boundary gives each item exactly its own bytes. */
  lemma SplitUndoesJoin(items: seq<Item>, i: nat)
    requires Joinable(items) && items[0].input.Activation? && i < |items|
    ensures Joined(items).Activation?
    ensures var b := Joined(items).boundary;
            && b.tokens == |items| && |b.payload| == b.tokens * (b.width * 2)
            && Activation(Boundary(1, b.width, RowBytes(b, i))) == items[i].input
  {
    PayloadsAt(items, items[0].input.boundary.width * 2, i);
  }

  /** A batch of tokens is the tokens themselves, in order. */
  lemma {:induction false} JoinedTokens(items: seq<Item>, i: nat)
    requires (forall k :: 0 <= k < |items| ==> items[k].input.Tokens? && |items[k].input.ids| == 1) && i < |items|
    ensures |Ids(items)| == |items| && items[i].input == Tokens([Ids(items)[i]])
    decreases |items|
  {
    var before := items[..|items| - 1];
    if before == [] {
      assert Ids(items) == items[0].input.ids;
    } else {
      JoinedTokens(before, if i < |before| then i else 0);
    }
  }
}
