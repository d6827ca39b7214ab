/** The compute probe's records, and the separately written validator that must accept them. */
module ComputeProbe {
  import opened Results

  datatype Component = SequenceAllocation | Stage | Embedding | FromWire | DecoderLayer | Validation | FinalNorm | LmHead | Sampling
                     | ToWire | RuntimeOverhead

  datatype Name = Name(component: Component, layer: Option<nat>)

  datatype Record = Record(
    cycle: nat, step: nat, position: nat, prefill: bool, name: Name, synchronized: bool, ms: real, chunk: Option<nat>)

  /** The workload, which part of the model the probed stage owns, and whether its backend looks for values
      that are not finite after the layers, which all but the CPU's do. */
  datatype Workload = Workload(
    prompt: nat, chunkTokens: nat, steps: nat, cycles: nat, first: bool, final: bool, layerStart: nat, layerEnd: nat,
    validates: bool)
  {
    predicate Valid() {
      prompt > 0 && steps > 0 && layerStart <= layerEnd
    }

    /** Tokens in one prefill input; zero asks for the whole prompt. */
    function Size(): (c: nat)
      requires Valid()
      ensures c > 0
    {
      if chunkTokens == 0 then prompt else chunkTokens
    }

    /** How many prefill inputs there are, rounding up. */
    function Chunks(): (n: nat)
      requires Valid()
    {
      if chunkTokens == 0 then 1 else (prompt + chunkTokens - 1) / chunkTokens
    }

    function Executions(): (n: nat)
      requires Valid()
    {
      Chunks() + (steps - 1)
    }
  }

  /** What the clock says: milliseconds of the allocation, of each execution, and of its `i`th region; and
      whether both ways of running execution `i` gave the same output. */
  datatype Clock = Clock(
    allocation: (nat, bool) -> real, total: (nat, bool, nat) -> real, region: (nat, bool, nat, nat) -> real,
    same: (nat, nat) -> bool)

  lemma RoundsUp(n: nat, c: nat)
    requires n > 0 && c > 0
    ensures var q := (n + c - 1) / c; q > 0 && (q - 1) * c < n <= q * c
  {
    var m := n + c - 1;
    var q := m / c;
    assert m == q * c + m % c;
    assert (q - 1) * c == q * c - c;
  }

  lemma ChunksCover(w: Workload)
    requires w.Valid()
    ensures w.Chunks() > 0 && (w.Chunks() - 1) * w.Size() < w.prompt <= w.Chunks() * w.Size()
  {
    if w.chunkTokens != 0 {
      RoundsUp(w.prompt, w.chunkTokens);
    }
  }

  /** Execution `i` is a prefill input exactly when its offset lies inside the prompt. */
  lemma InsidePrompt(w: Workload, i: nat)
    requires w.Valid()
    ensures i < w.Chunks() <==> i * w.Size() < w.prompt
    ensures i + 1 < w.Chunks() <==> (i + 1) * w.Size() < w.prompt
  {
    ChunksCover(w);
    Ordered(i, w.Chunks(), w.Size());
    Ordered(i + 1, w.Chunks(), w.Size());
    Ordered(i, w.Chunks() - 1, w.Size());
    Ordered(i + 1, w.Chunks() - 1, w.Size());
  }

  lemma Ordered(a: nat, b: nat, c: nat)
    ensures a <= b ==> a * c <= b * c
    ensures b <= a ==> b * c <= a * c
  {}

  // ---------------------------------------------------------------------------- the probe

  function Step(w: Workload, i: nat): nat
    requires w.Valid()
  {
    if i < w.Chunks() then 0 else i - w.Chunks() + 1
  }

  function Position(w: Workload, i: nat): nat
    requires w.Valid()
  {
    if i < w.Chunks() then i * w.Size() else w.prompt + (i - w.Chunks())
  }

  function ChunkOf(w: Workload, i: nat): Option<nat>
    requires w.Valid()
  {
    if w.chunkTokens != 0 && i < w.Chunks() then Some(i) else None
  }

  function LayerNames(start: nat, end: nat): seq<Name>
    requires start <= end
  {
    if start == end then [] else LayerNames(start, end - 1) + [Name(DecoderLayer, Some(end - 1))]
  }

  /** The regions that an instrumented execution of the stage marks, in order. */
  function Regions(w: Workload, prefillOnly: bool): seq<Name>
    requires w.Valid()
  {
    [Name(if w.first then Embedding else FromWire, None)] + LayerNames(w.layerStart, w.layerEnd)
    + (if w.validates then [Name(Validation, None)] else [])
    + if !w.final then [Name(ToWire, None)]
      else if prefillOnly then []
      else [Name(FinalNorm, None), Name(LmHead, None), Name(Sampling, None)]
  }

  function RecordOf(w: Workload, cycle: nat, sync: bool, i: nat, name: Name, ms: real): Record
    requires w.Valid()
  {
    Record(cycle, Step(w, i), Position(w, i), Step(w, i) == 0, name, sync, ms, ChunkOf(w, i))
  }

  function RegionRecords(w: Workload, clock: Clock, cycle: nat, sync: bool, i: nat, names: seq<Name>): (r: seq<Record>)
    requires w.Valid()
    ensures |r| == |names|
  {
    seq(|names|, k requires 0 <= k < |names| => RecordOf(w, cycle, sync, i, names[k], clock.region(cycle, sync, i, k)))
  }

  function Milliseconds(records: seq<Record>): real {
    if records == [] then 0.0 else Milliseconds(records[..|records| - 1]) + records[|records| - 1].ms
  }

  function Positive(x: real): real {
    if x < 0.0 then 0.0 else x
  }

  /** Sampling waits for the last prefill input. */
  predicate PrefillOnly(w: Workload, i: nat)
    requires w.Valid()
  {
    i + 1 < w.Chunks()
  }

  /** All that one execution records. */
  function ExecutionRecords(w: Workload, clock: Clock, cycle: nat, sync: bool, i: nat): seq<Record>
    requires w.Valid()
  {
    var total := clock.total(cycle, sync, i);
    [RecordOf(w, cycle, sync, i, Name(Stage, None), total)]
    + if !sync then []
      else
        var regions := RegionRecords(w, clock, cycle, sync, i, Regions(w, PrefillOnly(w, i)));
        regions + [RecordOf(w, cycle, sync, i, Name(RuntimeOverhead, None), Positive(total - Milliseconds(regions)))]
  }

  function AllocationRecord(w: Workload, clock: Clock, cycle: nat, sync: bool): Record
    requires w.Valid()
  {
    Record(cycle, 0, 0, true, Name(SequenceAllocation, None), sync, clock.allocation(cycle, sync),
           if w.chunkTokens != 0 then Some(0) else None)
  }

  function RunRecords(w: Workload, clock: Clock, cycle: nat, sync: bool, n: nat): seq<Record>
    requires w.Valid()
  {
    if n == 0 then [AllocationRecord(w, clock, cycle, sync)]
    else RunRecords(w, clock, cycle, sync, n - 1) + ExecutionRecords(w, clock, cycle, sync, n - 1)
  }

  /** Instrumented and plain runs take turns at going first. */
  function CycleRecords(w: Workload, clock: Clock, cycle: nat): seq<Record>
    requires w.Valid()
  {
    var early := cycle % 2 == 1;
    RunRecords(w, clock, cycle, early, w.Executions()) + RunRecords(w, clock, cycle, !early, w.Executions())
  }

  function AllRecords(w: Workload, clock: Clock, cycles: nat): seq<Record>
    requires w.Valid()
  {
    if cycles == 0 then [] else AllRecords(w, clock, cycles - 1) + CycleRecords(w, clock, cycles - 1)
  }

  /** The readings of one execution are not negative, and its regions do not overlap. */
  ghost predicate PlausibleExecution(w: Workload, clock: Clock, cycle: nat, sync: bool, i: nat)
    requires w.Valid()
  {
    && clock.total(cycle, sync, i) >= 0.0
    && (sync ==>
         && (forall k :: 0 <= k < |Regions(w, PrefillOnly(w, i))| ==> clock.region(cycle, sync, i, k) >= 0.0)
         && Attributed(w, clock, cycle, i) <= clock.total(cycle, sync, i) + TOLERANCE)
  }

  ghost predicate PlausibleRun(w: Workload, clock: Clock, cycle: nat, sync: bool, n: nat)
    requires w.Valid()
  {
    clock.allocation(cycle, sync) >= 0.0 && forall i: nat :: i < n ==> PlausibleExecution(w, clock, cycle, sync, i)
  }

  /** The first `n` executions of a cycle came out the same both ways. */
  ghost predicate Agree(clock: Clock, cycle: nat, n: nat) {
    forall i: nat :: i < n ==> clock.same(cycle, i)
  }

  /** The readings and outputs with which the probe completes. */
  ghost predicate Plausible(w: Workload, clock: Clock)
    requires w.Valid()
  {
    && (forall cycle: nat, sync: bool :: cycle < w.cycles ==> PlausibleRun(w, clock, cycle, sync, w.Executions()))
    && forall cycle: nat :: cycle < w.cycles ==> Agree(clock, cycle, w.Executions())
  }

  const TOLERANCE: real := 0.001

  function Attributed(w: Workload, clock: Clock, cycle: nat, i: nat): real
    requires w.Valid()
  {
    Milliseconds(RegionRecords(w, clock, cycle, true, i, Regions(w, PrefillOnly(w, i))))
  }

  // ---------------------------------------------------------------------------- the validator

  datatype Key = Key(cycle: nat, synchronized: bool, step: nat, chunk: Option<nat>)

  function KeyOf(r: Record): Key {
    Key(r.cycle, r.synchronized, r.step, r.chunk)
  }

  /** A record that fits the workload. */
  predicate FitsWorkload(w: Workload, r: Record)
    requires w.Valid()
  {
    && r.cycle < w.cycles && r.step < w.steps
    && (r.chunk.Some? <==> w.chunkTokens != 0 && r.step == 0)
    && (r.chunk.Some? ==> r.chunk.value < w.Chunks())
    && r.position == (if r.step == 0 then (if r.chunk.Some? then r.chunk.value else 0) * w.chunkTokens else w.prompt + r.step - 1)
    && r.prefill == (r.step == 0)
    && (r.name.component == DecoderLayer <==> r.name.layer.Some?)
  }

  function Rows(records: seq<Record>, key: Key): seq<Record> {
    if records == [] then []
    else
      var before, r := Rows(records[..|records| - 1], key), records[|records| - 1];
      if KeyOf(r) == key then before + [r] else before
  }

  function Names(rows: seq<Record>): (n: seq<Name>)
    ensures |n| == |rows|
  {
    seq(|rows|, i requires 0 <= i < |rows| => rows[i].name)
  }

  /** The components one execution must have. */
  function Expected(w: Workload, key: Key): seq<Name>
    requires w.Valid()
  {
    var sampled := key.step != 0 || key.chunk.None? || key.chunk.value == w.Chunks() - 1;
    [Name(Stage, None)]
    + (if key.step == 0 && (key.chunk.None? || key.chunk.value == 0) then [Name(SequenceAllocation, None)] else [])
    + if !key.synchronized then []
      else
        [Name(if w.first then Embedding else FromWire, None)] + LayerNames(w.layerStart, w.layerEnd)
        + (if w.validates then [Name(Validation, None)] else [])
        + (if !w.final then [Name(ToWire, None)]
           else if sampled then [Name(FinalNorm, None), Name(LmHead, None), Name(Sampling, None)] else [])
        + [Name(RuntimeOverhead, None)]
  }

  predicate SameNames(a: seq<Name>, b: seq<Name>) {
    |a| == |b| && (forall n :: n in a ==> n in b) && forall n :: n in b ==> n in a
  }

  predicate Counted(r: Record) {
    r.name.component != Stage && r.name.component != SequenceAllocation
  }

  function ComponentTotal(rows: seq<Record>): real {
    if rows == [] then 0.0
    else ComponentTotal(rows[..|rows| - 1]) + if Counted(rows[|rows| - 1]) then rows[|rows| - 1].ms else 0.0
  }

  function StageTotal(rows: seq<Record>): real {
    if rows == [] then 0.0
    else if rows[0].name.component == Stage then rows[0].ms else StageTotal(rows[1..])
  }

  predicate Reconciles(rows: seq<Record>) {
    -TOLERANCE <= StageTotal(rows) - ComponentTotal(rows) <= TOLERANCE
  }

  predicate Complete(w: Workload, rows: seq<Record>, key: Key)
    requires w.Valid()
  {
    SameNames(Names(rows), Expected(w, key)) && (key.synchronized ==> Reconciles(rows))
  }

  function ExecutionKey(w: Workload, cycle: nat, sync: bool, i: nat): Key
    requires w.Valid()
  {
    Key(cycle, sync, Step(w, i), ChunkOf(w, i))
  }

  /** What a run of the probe is recorded as: its records, the cycles whose outputs were the same both ways,
      and whether it failed. */
  datatype Measurement = Measurement(records: seq<Record>, pairs: seq<nat>, failed: bool)

  /** What the validator demands of a run. */
  ghost predicate Accepted(w: Workload, m: Measurement)
    requires w.Valid()
  {
    !m.failed && m.pairs == seq(w.cycles, c => c) && Whole(w, m.records)
  }

  /** Every record fits, and every execution has its components. */
  ghost predicate Whole(w: Workload, records: seq<Record>)
    requires w.Valid()
  {
    && (forall i :: 0 <= i < |records| ==> FitsWorkload(w, records[i]))
    && forall cycle: nat, sync: bool, i: nat :: cycle < w.cycles && i < w.Executions() ==>
         var key := ExecutionKey(w, cycle, sync, i); Complete(w, Rows(records, key), key)
  }
}
