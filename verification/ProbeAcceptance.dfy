/** Every run the probe completes is a run the validator accepts. */
module ProbeAcceptance {
  import opened Numbers
  import opened Results
  import opened ComputeProbe

  // ---------------------------------------------------------------------------- grouping records

  lemma {:induction false} RowsJoin(a: seq<Record>, b: seq<Record>, key: Key)
    ensures Rows(a + b, key) == Rows(a, key) + Rows(b, key)
    decreases |b|
  {
    if b == [] {
      assert a + b == a;
    } else {
      RowsJoin(a, b[..|b| - 1], key);
      assert (a + b)[..|a + b| - 1] == a + b[..|b| - 1];
    }
  }

  lemma {:induction false} RowsSame(a: seq<Record>, key: Key, other: Key)
    requires forall i :: 0 <= i < |a| ==> KeyOf(a[i]) == other
    ensures Rows(a, key) == if key == other then a else []
    decreases |a|
  {
    if a != [] {
      RowsSame(a[..|a| - 1], key, other);
    }
  }

  /** Executions are told apart by their keys. */
  lemma KeysDiffer(w: Workload, c: nat, s: bool, i: nat, d: nat, t: bool, j: nat)
    requires w.Valid()
    ensures ExecutionKey(w, c, s, i) == ExecutionKey(w, d, t, j) ==> c == d && s == t && i == j
  {}

  lemma ExecutionKeys(w: Workload, clock: Clock, cycle: nat, sync: bool, i: nat)
    requires w.Valid()
    ensures forall k :: 0 <= k < |ExecutionRecords(w, clock, cycle, sync, i)| ==>
              KeyOf(ExecutionRecords(w, clock, cycle, sync, i)[k]) == ExecutionKey(w, cycle, sync, i)
    ensures KeyOf(AllocationRecord(w, clock, cycle, sync)) == ExecutionKey(w, cycle, sync, 0)
  {
    ChunksCover(w);
    forall k | 0 <= k < |ExecutionRecords(w, clock, cycle, sync, i)|
      ensures KeyOf(ExecutionRecords(w, clock, cycle, sync, i)[k]) == ExecutionKey(w, cycle, sync, i)
    {
      ExecutionRecord(w, clock, cycle, sync, i, k);
    }
  }

  lemma RegionRecordsAre(w: Workload, clock: Clock, cycle: nat, sync: bool, i: nat, names: seq<Name>)
    requires w.Valid()
    ensures forall k :: 0 <= k < |names| ==>
              RegionRecords(w, clock, cycle, sync, i, names)[k] == RecordOf(w, cycle, sync, i, names[k], clock.region(cycle, sync, i, k))
    ensures Names(RegionRecords(w, clock, cycle, sync, i, names)) == names
  {}

  /** Every record of an execution is marked as one of it. */
  lemma ExecutionRecord(w: Workload, clock: Clock, cycle: nat, sync: bool, i: nat, k: nat)
    requires w.Valid() && k < |ExecutionRecords(w, clock, cycle, sync, i)|
    ensures var r := ExecutionRecords(w, clock, cycle, sync, i)[k];
            r == RecordOf(w, cycle, sync, i, r.name, r.ms) && (r.name.component == DecoderLayer <==> r.name.layer.Some?)
  {
    RegionsAreRegions(w, PrefillOnly(w, i));
    hide Regions, Milliseconds, Workload.Chunks, Step, Position, ChunkOf;
    if sync && 0 < k {
      var regions := RegionRecords(w, clock, cycle, sync, i, Regions(w, PrefillOnly(w, i)));
      RegionRecordsAre(w, clock, cycle, sync, i, Regions(w, PrefillOnly(w, i)));
      if k <= |regions| {
        assert ExecutionRecords(w, clock, cycle, sync, i)[k] == regions[k - 1];
      }
    }
  }

  /** The records of execution `i`, with the allocation in front of the first. */
  function Group(w: Workload, clock: Clock, cycle: nat, sync: bool, i: nat): seq<Record>
    requires w.Valid()
  {
    (if i == 0 then [AllocationRecord(w, clock, cycle, sync)] else []) + ExecutionRecords(w, clock, cycle, sync, i)
  }

  lemma {:induction false} RunRows(w: Workload, clock: Clock, c: nat, s: bool, n: nat, d: nat, t: bool, i: nat)
    requires w.Valid()
    ensures var here := c == d && s == t;
            Rows(RunRecords(w, clock, c, s, n), ExecutionKey(w, d, t, i))
            == (if here && i == 0 then [AllocationRecord(w, clock, c, s)] else [])
               + (if here && i < n then ExecutionRecords(w, clock, c, s, i) else [])
    decreases n
  {
    hide ExecutionRecords, ExecutionKey, AllocationRecord, Workload.Chunks;
    var key := ExecutionKey(w, d, t, i);
    var m := if n == 0 then 0 else n - 1;
    ExecutionKeys(w, clock, c, s, m);
    KeysDiffer(w, c, s, m, d, t, i);
    if n == 0 {
      RowsSame([AllocationRecord(w, clock, c, s)], key, ExecutionKey(w, c, s, 0));
    } else {
      RunRows(w, clock, c, s, m, d, t, i);
      RowsSame(ExecutionRecords(w, clock, c, s, m), key, ExecutionKey(w, c, s, m));
      RowsJoin(RunRecords(w, clock, c, s, m), ExecutionRecords(w, clock, c, s, m), key);
      hide Rows;
    }
  }

  lemma CycleRows(w: Workload, clock: Clock, c: nat, d: nat, t: bool, i: nat)
    requires w.Valid() && i < w.Executions()
    ensures Rows(CycleRecords(w, clock, c), ExecutionKey(w, d, t, i)) == if c == d then Group(w, clock, d, t, i) else []
  {
    hide ExecutionKey, ExecutionRecords, Rows, RunRecords, AllocationRecord, Workload.Executions;
    var early := c % 2 == 1;
    RunRows(w, clock, c, early, w.Executions(), d, t, i);
    RunRows(w, clock, c, !early, w.Executions(), d, t, i);
    RowsJoin(RunRecords(w, clock, c, early, w.Executions()), RunRecords(w, clock, c, !early, w.Executions()), ExecutionKey(w, d, t, i));
  }

  lemma RowsOfNone(key: Key)
    ensures Rows([], key) == []
  {}

  lemma {:induction false} AllRows(w: Workload, clock: Clock, cycles: nat, d: nat, t: bool, i: nat)
    requires w.Valid() && i < w.Executions()
    ensures Rows(AllRecords(w, clock, cycles), ExecutionKey(w, d, t, i)) == if d < cycles then Group(w, clock, d, t, i) else []
    decreases cycles
  {
    hide Group, ExecutionKey, CycleRecords, Workload.Chunks, Rows;
    if cycles == 0 {
      RowsOfNone(ExecutionKey(w, d, t, i));
    } else {
      AllRows(w, clock, cycles - 1, d, t, i);
      CycleRows(w, clock, cycles - 1, d, t, i);
      RowsJoin(AllRecords(w, clock, cycles - 1), CycleRecords(w, clock, cycles - 1), ExecutionKey(w, d, t, i));
    }
  }

  // ---------------------------------------------------------------------------- every record in its place

  lemma {:induction false} LayersAreLayers(start: nat, end: nat)
    requires start <= end
    ensures forall k :: 0 <= k < |LayerNames(start, end)| ==>
              LayerNames(start, end)[k].component == DecoderLayer && LayerNames(start, end)[k].layer.Some?
  {
    if start < end {
      LayersAreLayers(start, end - 1);
    }
  }

  lemma RegionsAreRegions(w: Workload, prefillOnly: bool)
    requires w.Valid()
    ensures forall k :: 0 <= k < |Regions(w, prefillOnly)| ==>
              var n := Regions(w, prefillOnly)[k];
              && (n.component == DecoderLayer <==> n.layer.Some?)
              && n.component != Stage && n.component != SequenceAllocation && n.component != RuntimeOverhead
  {
    LayersAreLayers(w.layerStart, w.layerEnd);
  }

  lemma RecordIsPlaced(w: Workload, cycle: nat, sync: bool, i: nat, name: Name, ms: real)
    requires w.Valid() && cycle < w.cycles && i < w.Executions() && (name.component == DecoderLayer <==> name.layer.Some?)
    ensures FitsWorkload(w, RecordOf(w, cycle, sync, i, name, ms))
  {
    ChunksCover(w);
  }

  lemma ExecutionIsPlaced(w: Workload, clock: Clock, cycle: nat, sync: bool, i: nat)
    requires w.Valid() && cycle < w.cycles && i < w.Executions()
    ensures forall k :: 0 <= k < |ExecutionRecords(w, clock, cycle, sync, i)| ==> FitsWorkload(w, ExecutionRecords(w, clock, cycle, sync, i)[k])
    ensures FitsWorkload(w, AllocationRecord(w, clock, cycle, sync))
  {
    ChunksCover(w);
    forall k | 0 <= k < |ExecutionRecords(w, clock, cycle, sync, i)|
      ensures FitsWorkload(w, ExecutionRecords(w, clock, cycle, sync, i)[k])
    {
      ExecutionRecord(w, clock, cycle, sync, i, k);
      var r := ExecutionRecords(w, clock, cycle, sync, i)[k];
      RecordIsPlaced(w, cycle, sync, i, r.name, r.ms);
    }
  }

  lemma {:induction false} RunIsPlaced(w: Workload, clock: Clock, cycle: nat, sync: bool, n: nat)
    requires w.Valid() && cycle < w.cycles && n <= w.Executions()
    ensures forall k :: 0 <= k < |RunRecords(w, clock, cycle, sync, n)| ==> FitsWorkload(w, RunRecords(w, clock, cycle, sync, n)[k])
    decreases n
  {
    ExecutionIsPlaced(w, clock, cycle, sync, if n == 0 then 0 else n - 1) by {
      ChunksCover(w);
    }
    hide FitsWorkload, ExecutionRecords;
    if n > 0 {
      RunIsPlaced(w, clock, cycle, sync, n - 1);
    }
  }

  lemma {:induction false} AllArePlaced(w: Workload, clock: Clock, cycles: nat)
    requires w.Valid() && cycles <= w.cycles
    ensures forall k :: 0 <= k < |AllRecords(w, clock, cycles)| ==> FitsWorkload(w, AllRecords(w, clock, cycles)[k])
    decreases cycles
  {
    if cycles > 0 {
      AllArePlaced(w, clock, cycles - 1);
      var early := (cycles - 1) % 2 == 1;
      RunIsPlaced(w, clock, cycles - 1, early, w.Executions());
      RunIsPlaced(w, clock, cycles - 1, !early, w.Executions());
      hide FitsWorkload, RunRecords;
    }
  }

  // ---------------------------------------------------------------------------- complete executions

  lemma NamesJoin(a: seq<Record>, b: seq<Record>)
    ensures Names(a + b) == Names(a) + Names(b)
  {}

  lemma GroupNames(w: Workload, clock: Clock, cycle: nat, sync: bool, i: nat)
    requires w.Valid()
    ensures Names(Group(w, clock, cycle, sync, i)) ==
              (if i == 0 then [Name(SequenceAllocation, None)] else []) + [Name(Stage, None)]
              + if sync then Regions(w, PrefillOnly(w, i)) + [Name(RuntimeOverhead, None)] else []
  {
    hide Regions, Milliseconds, Workload.Chunks;
    var front := if i == 0 then [AllocationRecord(w, clock, cycle, sync)] else [];
    NamesJoin(front, ExecutionRecords(w, clock, cycle, sync, i));
    var stage := [RecordOf(w, cycle, sync, i, Name(Stage, None), clock.total(cycle, sync, i))];
    assert Names(stage) == [Name(Stage, None)];
    if sync {
      var regions := RegionRecords(w, clock, cycle, sync, i, Regions(w, PrefillOnly(w, i)));
      var overhead := [RecordOf(w, cycle, sync, i, Name(RuntimeOverhead, None), Positive(clock.total(cycle, sync, i) - Milliseconds(regions)))];
      RegionRecordsAre(w, clock, cycle, sync, i, Regions(w, PrefillOnly(w, i)));
      assert Names(overhead) == [Name(RuntimeOverhead, None)];
      NamesJoin(regions, overhead);
      NamesJoin(stage, regions + overhead);
    }
  }

  /** The probe's names are the validator's, in another order. */
  lemma GroupIsExpected(w: Workload, clock: Clock, cycle: nat, sync: bool, i: nat)
    requires w.Valid() && i < w.Executions()
    ensures SameNames(Names(Group(w, clock, cycle, sync, i)), Expected(w, ExecutionKey(w, cycle, sync, i)))
  {
    ChunksCover(w);
    GroupNames(w, clock, cycle, sync, i);
    hide Group, LayerNames;
    var front := if i == 0 then [Name(SequenceAllocation, None)] else [];
    var rest := if sync then Regions(w, PrefillOnly(w, i)) + [Name(RuntimeOverhead, None)] else [];
    assert Expected(w, ExecutionKey(w, cycle, sync, i)) == [Name(Stage, None)] + front + rest;
    Swapped(front, [Name(Stage, None)], rest);
  }

  lemma Swapped(a: seq<Name>, b: seq<Name>, c: seq<Name>)
    ensures SameNames(a + b + c, b + a + c)
  {}

  lemma {:induction false} ComponentsJoin(a: seq<Record>, b: seq<Record>)
    ensures ComponentTotal(a + b) == ComponentTotal(a) + ComponentTotal(b)
    decreases |b|
  {
    if b == [] {
      assert a + b == a;
    } else {
      ComponentsJoin(a, b[..|b| - 1]);
      assert (a + b)[..|a + b| - 1] == a + b[..|b| - 1];
    }
  }

  lemma {:induction false} CountedTotal(a: seq<Record>)
    requires forall k :: 0 <= k < |a| ==> Counted(a[k])
    ensures ComponentTotal(a) == Milliseconds(a)
    decreases |a|
  {
    if a != [] {
      CountedTotal(a[..|a| - 1]);
    }
  }

  lemma ComponentOfOne(r: Record)
    ensures ComponentTotal([r]) == if Counted(r) then r.ms else 0.0
  {
    assert [r][..0] == [];
  }

  lemma GroupReconciles(w: Workload, clock: Clock, cycle: nat, i: nat)
    requires w.Valid() && Attributed(w, clock, cycle, i) <= clock.total(cycle, true, i) + TOLERANCE
    ensures Reconciles(Group(w, clock, cycle, true, i))
  {
    hide Regions, Milliseconds, Workload.Chunks;
    var total, regions := clock.total(cycle, true, i), RegionRecords(w, clock, cycle, true, i, Regions(w, PrefillOnly(w, i)));
    RegionsAreRegions(w, PrefillOnly(w, i));
    RegionRecordsAre(w, clock, cycle, true, i, Regions(w, PrefillOnly(w, i)));
    forall k | 0 <= k < |regions|
      ensures Counted(regions[k])
    {
      assert regions[k].name == Regions(w, PrefillOnly(w, i))[k];
    }
    CountedTotal(regions);
    var front := if i == 0 then [AllocationRecord(w, clock, cycle, true)] else [];
    var stage := RecordOf(w, cycle, true, i, Name(Stage, None), total);
    var overhead := RecordOf(w, cycle, true, i, Name(RuntimeOverhead, None), Positive(total - Milliseconds(regions)));
    assert Group(w, clock, cycle, true, i) == front + ([stage] + (regions + [overhead]));
    RowsReconcile(front, stage, regions, overhead);
  }

  /** The first record of the stage is the total, whatever allocation stands in front. */
  lemma StageTotalOf(front: seq<Record>, stage: Record, rest: seq<Record>)
    requires front == [] || (|front| == 1 && front[0].name.component == SequenceAllocation)
    requires stage.name.component == Stage
    ensures StageTotal(front + ([stage] + rest)) == stage.ms
  {
    var rows := [stage] + rest;
    if front == [] {
      assert front + rows == rows;
    } else {
      assert front + rows == [front[0]] + rows && (front + rows)[1..] == rows;
    }
  }

  lemma ComponentsOf(front: seq<Record>, stage: Record, regions: seq<Record>, overhead: Record)
    requires front == [] || (|front| == 1 && front[0].name.component == SequenceAllocation)
    requires stage.name.component == Stage && Counted(overhead)
    ensures ComponentTotal(front + ([stage] + (regions + [overhead]))) == ComponentTotal(regions) + overhead.ms
  {
    hide ComponentTotal;
    ComponentOfOne(stage);
    ComponentOfOne(overhead);
    if front != [] {
      assert front == [front[0]];
      ComponentOfOne(front[0]);
    } else {
      ComponentOfNone();
    }
    ComponentsJoin(regions, [overhead]);
    ComponentsJoin([stage], regions + [overhead]);
    ComponentsJoin(front, [stage] + (regions + [overhead]));
  }

  lemma ComponentOfNone()
    ensures ComponentTotal([]) == 0.0
  {}

  lemma RowsReconcile(front: seq<Record>, stage: Record, regions: seq<Record>, overhead: Record)
    requires front == [] || (|front| == 1 && front[0].name.component == SequenceAllocation)
    requires stage.name.component == Stage && Counted(overhead) && overhead.ms == Positive(stage.ms - ComponentTotal(regions))
    requires ComponentTotal(regions) <= stage.ms + TOLERANCE
    ensures Reconciles(front + ([stage] + (regions + [overhead])))
  {
    hide ComponentTotal, StageTotal;
    ComponentsOf(front, stage, regions, overhead);
    StageTotalOf(front, stage, regions + [overhead]);
  }

  /** The records of a completed run have every component of every execution exactly once, at the right
      place, and each execution's components add up to its total. */
  lemma ProbeIsAccepted(w: Workload, clock: Clock)
    requires w.Valid() && Plausible(w, clock)
    ensures Accepted(w, Measurement(AllRecords(w, clock, w.cycles), seq(w.cycles, c => c), false))
  {
    AllArePlaced(w, clock, w.cycles);
    forall cycle: nat, sync: bool, i: nat | cycle < w.cycles && i < w.Executions()
      ensures Complete(w, Rows(AllRecords(w, clock, w.cycles), ExecutionKey(w, cycle, sync, i)), ExecutionKey(w, cycle, sync, i))
    {
      AllRows(w, clock, w.cycles, cycle, sync, i);
      GroupIsExpected(w, clock, cycle, sync, i);
      if sync {
        assert PlausibleRun(w, clock, cycle, true, w.Executions());
        assert PlausibleExecution(w, clock, cycle, true, i);
        GroupReconciles(w, clock, cycle, i);
      }
    }
  }

  // ---------------------------------------------------------------------------- the probe's loops

  /** One execution per prefill input, then one per decode step. */
  method ListExecutions(w: Workload) returns (list: seq<(nat, nat)>)
    requires w.Valid()
    ensures |list| == w.Executions() && forall i :: 0 <= i < |list| ==> list[i] == (Step(w, i), Position(w, i))
  {
    hide Workload.Chunks;
    list := [];
    var position: nat := 0;
    ChunksCover(w);
    while position < w.prompt
      invariant |list| <= w.Chunks()
      invariant if |list| < w.Chunks() then position == |list| * w.Size() else position == w.prompt
      invariant forall i :: 0 <= i < |list| ==> list[i] == (Step(w, i), Position(w, i))
      decreases w.prompt - position
    {
      ghost var n := |list|;
      InsidePrompt(w, n);
      Next(n, w.Size());
      list := list + [(0, position)];
      position := position + Least(w.Size(), w.prompt - position);
    }
    InsidePrompt(w, |list|);
    for step := 1 to w.steps
      invariant |list| == w.Chunks() + step - 1
      invariant forall i :: 0 <= i < |list| ==> list[i] == (Step(w, i), Position(w, i))
    {
      list := list + [(step, w.prompt + step - 1)];
    }
  }

  lemma Next(n: nat, c: nat)
    ensures (n + 1) * c == n * c + c
  {}

  method AddMilliseconds(records: seq<Record>) returns (total: real)
    ensures total == Milliseconds(records)
  {
    total := 0.0;
    for i := 0 to |records|
      invariant total == Milliseconds(records[..i])
    {
      assert records[..i + 1][..i] == records[..i];
      total := total + records[i].ms;
    }
    assert records[..|records|] == records;
  }

  /** Times one execution, if the readings make sense. */
  method Execute(w: Workload, clock: Clock, cycle: nat, sync: bool, index: nat, step: nat, position: nat) returns (r: Option<seq<Record>>)
    requires w.Valid() && index < w.Executions() && step == Step(w, index) && position == Position(w, index)
    ensures r.Some? <==> PlausibleExecution(w, clock, cycle, sync, index)
    ensures r.Some? ==> r.value == ExecutionRecords(w, clock, cycle, sync, index)
  {
    hide Workload.Chunks, Regions;
    ChunksCover(w);
    InsidePrompt(w, index);
    Next(index, w.Size());
    var count := if step == 0 then Least(w.Size(), w.prompt - position) else 1;
    var chunk := if w.chunkTokens != 0 && step == 0 then Some(index) else None;
    var prefillOnly := step == 0 && position + count < w.prompt;
    assert prefillOnly == PrefillOnly(w, index);
    var total := clock.total(cycle, sync, index);
    if total < 0.0 {
      return None;
    }
    var records := [Record(cycle, step, position, step == 0, Name(Stage, None), sync, total, chunk)];
    if !sync {
      return Some(records);
    }
    var names := Regions(w, prefillOnly);
    var regions: seq<Record> := [];
    for k := 0 to |names|
      invariant |regions| == k && regions == RegionRecords(w, clock, cycle, sync, index, names)[..k]
      invariant forall j :: 0 <= j < k ==> clock.region(cycle, sync, index, j) >= 0.0
    {
      var ms := clock.region(cycle, sync, index, k);
      if ms < 0.0 {
        return None;
      }
      regions := regions + [Record(cycle, step, position, step == 0, names[k], sync, ms, chunk)];
    }
    ghost var all := RegionRecords(w, clock, cycle, sync, index, names);
    assert all[..|names|] == all;
    var attributed := AddMilliseconds(regions);
    if attributed > total + TOLERANCE {
      return None;
    }
    r := Some(records + (regions + [Record(cycle, step, position, step == 0, Name(RuntimeOverhead, None), sync, Positive(total - attributed), chunk)]));
  }

  /** Allocates a sequence and runs every execution on it; the cycle's second run compares the outputs with
      those of its first. */
  method RunOnce(w: Workload, clock: Clock, cycle: nat, sync: bool, second: bool) returns (r: Option<seq<Record>>)
    requires w.Valid()
    ensures r.Some? <==> PlausibleRun(w, clock, cycle, sync, w.Executions()) && (second ==> Agree(clock, cycle, w.Executions()))
    ensures r.Some? ==> r.value == RunRecords(w, clock, cycle, sync, w.Executions())
  {
    hide Workload.Chunks, ExecutionRecords, PlausibleExecution;
    var ms := clock.allocation(cycle, sync);
    if ms < 0.0 {
      return None;
    }
    var records := [Record(cycle, 0, 0, true, Name(SequenceAllocation, None), sync, ms, if w.chunkTokens != 0 then Some(0) else None)];
    var executions := ListExecutions(w);
    for index := 0 to |executions|
      invariant records == RunRecords(w, clock, cycle, sync, index) && PlausibleRun(w, clock, cycle, sync, index)
      invariant second ==> Agree(clock, cycle, index)
    {
      var (step, position) := executions[index];
      var more := Execute(w, clock, cycle, sync, index, step, position);
      if more.None? {
        return None;
      }
      if second && !clock.same(cycle, index) {
        return None;
      }
      records := records + more.value;
    }
    r := Some(records);
  }

  /** The whole probe: each cycle runs the stage both ways, and names the cycles whose outputs agreed. */
  method Probe(w: Workload, clock: Clock) returns (r: Option<Measurement>)
    requires w.Valid()
    ensures r.Some? <==> Plausible(w, clock)
    ensures r.Some? ==> r.value == Measurement(AllRecords(w, clock, w.cycles), seq(w.cycles, c => c), false)
  {
    hide RunRecords, PlausibleRun, Workload.Chunks, Agree;
    var records: seq<Record>, pairs: seq<nat> := [], [];
    for cycle := 0 to w.cycles
      invariant records == AllRecords(w, clock, cycle) && pairs == seq(cycle, c => c)
      invariant forall c: nat, s: bool :: c < cycle ==> PlausibleRun(w, clock, c, s, w.Executions())
      invariant forall c: nat :: c < cycle ==> Agree(clock, c, w.Executions())
    {
      var early := cycle % 2 == 1;
      var one := RunOnce(w, clock, cycle, early, false);
      if one.None? {
        return None;
      }
      var other := RunOnce(w, clock, cycle, !early, true);
      if other.None? {
        return None;
      }
      records := records + (one.value + other.value);
      pairs := pairs + [cycle];
    }
    r := Some(Measurement(records, pairs, false));
  }

  // ---------------------------------------------------------------------------- the validator's loops

  /** The records filed under their keys. */
  ghost predicate Filed(index: map<Key, seq<Record>>, records: seq<Record>) {
    forall key :: (if key in index then index[key] else []) == Rows(records, key)
  }

  method File(w: Workload, records: seq<Record>) returns (index: Option<map<Key, seq<Record>>>)
    requires w.Valid()
    ensures index.Some? <==> forall i :: 0 <= i < |records| ==> FitsWorkload(w, records[i])
    ensures index.Some? ==> Filed(index.value, records)
  {
    hide FitsWorkload;
    var filed: map<Key, seq<Record>> := map[];
    for i := 0 to |records|
      invariant Filed(filed, records[..i])
      invariant forall j :: 0 <= j < i ==> FitsWorkload(w, records[j])
    {
      assert records[..i + 1][..i] == records[..i];
      if !FitsWorkload(w, records[i]) {
        return None;
      }
      var key := KeyOf(records[i]);
      filed := filed[key := (if key in filed then filed[key] else []) + [records[i]]];
    }
    assert records[..|records|] == records;
    index := Some(filed);
  }

  /** Accepts exactly the runs that did not fail, came out the same both ways in every cycle, and have every
      component of every execution. */
  method Validate(w: Workload, m: Measurement) returns (ok: bool)
    requires w.Valid()
    ensures ok <==> Accepted(w, m)
  {
    hide FitsWorkload, Complete, Rows, Workload.Chunks;
    if m.failed || m.pairs != seq(w.cycles, c => c) {
      return false;
    }
    var records := m.records;
    var index := File(w, records);
    if index.None? {
      return false;
    }
    for cycle := 0 to w.cycles
      invariant forall c: nat, s: bool, i: nat :: c < cycle && i < w.Executions() ==>
                  Complete(w, Rows(records, ExecutionKey(w, c, s, i)), ExecutionKey(w, c, s, i))
    {
      for i := 0 to w.Executions()
        invariant forall s: bool, j: nat :: j < i ==>
                    Complete(w, Rows(records, ExecutionKey(w, cycle, s, j)), ExecutionKey(w, cycle, s, j))
      {
        var plain, full := ExecutionKey(w, cycle, false, i), ExecutionKey(w, cycle, true, i);
        var plainRows := if plain in index.value then index.value[plain] else [];
        var fullRows := if full in index.value then index.value[full] else [];
        if !Complete(w, plainRows, plain) || !Complete(w, fullRows, full) {
          return false;
        }
      }
    }
    ok := true;
  }

  /** Every record of an accepted run, but for the times, is one that the probe would have written: it belongs to one
      of the executions, at its position, and names one of its components. */
  lemma AcceptedRecord(w: Workload, m: Measurement, k: nat) returns (i: nat)
    requires w.Valid() && Accepted(w, m) && k < |m.records|
    ensures i < w.Executions() && m.records[k].cycle < w.cycles
    ensures var r := m.records[k];
            && r == Record(r.cycle, Step(w, i), Position(w, i), i < w.Chunks(), r.name, r.synchronized, r.ms, ChunkOf(w, i))
            && r.name in Expected(w, ExecutionKey(w, r.cycle, r.synchronized, i))
  {
    ChunksCover(w);
    hide Workload.Chunks, Expected, Complete, Rows;
    var r := m.records[k];
    assert FitsWorkload(w, r);
    i := if r.step == 0 then (if r.chunk.Some? then r.chunk.value else 0) else w.Chunks() + r.step - 1;
    OneChunk(w);
    var key := ExecutionKey(w, r.cycle, r.synchronized, i);
    assert KeyOf(r) == key;
    InRows(m.records, k);
    assert Complete(w, Rows(m.records, key), key);
    NamesExpected(w, Rows(m.records, key), key, r);
  }

  lemma OneChunk(w: Workload)
    requires w.Valid()
    ensures w.chunkTokens == 0 ==> w.Chunks() == 1
    ensures w.chunkTokens != 0 ==> w.Size() == w.chunkTokens
  {}

  lemma {:induction false} InRows(records: seq<Record>, k: nat)
    requires k < |records|
    ensures records[k] in Rows(records, KeyOf(records[k]))
    decreases |records|
  {
    var before := records[..|records| - 1];
    if k < |before| {
      InRows(before, k);
    }
  }

  lemma NamesExpected(w: Workload, rows: seq<Record>, key: Key, r: Record)
    requires w.Valid() && Complete(w, rows, key) && r in rows
    ensures r.name in Expected(w, key)
  {
    hide Expected, Reconciles;
    var i :| 0 <= i < |rows| && rows[i] == r;
    assert Names(rows)[i] == r.name;
  }
}
