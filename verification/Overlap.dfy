/** Deriving "these two requests overlapped on this worker" from polled reports of its bounded log. */
module Overlap {
  import opened Numbers
  import opened Results
  import opened Admission
  import opened Evolution

  /** A reported request; `cache` adds up its cache bytes over the domains. */
  datatype Row = Row(id: string, allocating: bool, cache: nat, admitted: nat)

  datatype Snapshot = Snapshot(available: bool, observed: Option<nat>, rows: seq<Row>, events: seq<Event>)

  datatype Pair = Pair(first: string, second: string) {
    predicate Has(id: string) {
      id == first || id == second
    }

    /** The members of the pair other than `id`. */
    function Others(id: string): set<string> {
      {first, second} - {id}
    }
  }

  datatype Proof = RetirementEvent | JointSnapshot

  datatype Interval = Interval(start: nat, end: nat, admission: Option<nat>, proof: Proof)

  // ---------------------------------------------------------------------------- gathering

  /** The reporting of `id` as a request that holds allocated cache. */
  predicate Holds(r: Row, id: string) {
    r.id == id && !r.allocating && r.cache > 0
  }

  function AllocatedRow(rows: seq<Row>, id: string): Option<Row>
  {
    if rows == [] then None else if Holds(rows[0], id) then Some(rows[0]) else AllocatedRow(rows[1..], id)
  }

  predicate Joint(s: Snapshot, pair: Pair) {
    s.available && AllocatedRow(s.rows, pair.first).Some? && AllocatedRow(s.rows, pair.second).Some?
  }

  function At(s: Snapshot): nat {
    if s.observed.Some? then s.observed.value else 0
  }

  /** Events keyed by their sequence numbers, kept in the order in which the keys first came. */
  datatype Ledger = Ledger(order: seq<nat>, events: map<nat, Event>) {
    predicate Valid() {
      forall i :: 0 <= i < |order| ==> order[i] in events
    }

    function Put(e: Event): (r: Ledger)
      requires Valid()
      ensures r.Valid()
    {
      Ledger(if e.sequence in events then order else order + [e.sequence], events[e.sequence := e])
    }

    function Values(): seq<Event>
      requires Valid()
    {
      seq(|order|, i requires 0 <= i < |order| => events[order[i]])
    }
  }

  function PutAll(log: Ledger, list: seq<Event>): (r: Ledger)
    requires log.Valid()
    ensures r.Valid()
    decreases |list|
  {
    if list == [] then log else PutAll(log, list[..|list| - 1]).Put(list[|list| - 1])
  }

  function Gather(snapshots: seq<Snapshot>): (r: Ledger)
    ensures r.Valid()
    decreases |snapshots|
  {
    if snapshots == [] then Ledger([], map[])
    else PutAll(Gather(snapshots[..|snapshots| - 1]), snapshots[|snapshots| - 1].events)
  }

  // ---------------------------------------------------------------------------- selecting

  function Select<T(!new)>(list: seq<T>, keep: T -> bool): (r: seq<T>)
    ensures forall x :: x in r <==> x in list && keep(x)
    decreases |list|
  {
    if list == [] then []
    else
      var before, x := Select(list[..|list| - 1], keep), list[|list| - 1];
      assert list == list[..|list| - 1] + [x];
      if keep(x) then before + [x] else before
  }

  /** The last admission of `id`. */
  function AdmissionOf(events: seq<Event>, id: string): (r: Option<Event>)
    ensures r.Some? ==> r.value in events && r.value.kind == Admitted && r.value.id == id
    ensures r.None? ==> forall e :: e in events ==> !(e.kind == Admitted && e.id == id)
    decreases |events|
  {
    if events == [] then None
    else
      var e := events[|events| - 1];
      assert events == events[..|events| - 1] + [e];
      if e.kind == Admitted && e.id == id then Some(e) else AdmissionOf(events[..|events| - 1], id)
  }

  /** The event with the least sequence number: the first once they are sorted. */
  function Earliest(events: seq<Event>): (r: Event)
    requires events != []
    ensures r in events && forall e :: e in events ==> r.sequence <= e.sequence
    decreases |events|
  {
    var last := events[|events| - 1];
    assert events == events[..|events| - 1] + [last];
    if |events| == 1 then last
    else
      var before := Earliest(events[..|events| - 1]);
      if last.sequence < before.sequence then last else before
  }

  function Latest(snapshots: seq<Snapshot>): (r: nat)
    requires snapshots != []
    ensures exists s :: s in snapshots && r == At(s)
    ensures forall s :: s in snapshots ==> At(s) <= r
    decreases |snapshots|
  {
    var last := snapshots[|snapshots| - 1];
    assert snapshots == snapshots[..|snapshots| - 1] + [last];
    if |snapshots| == 1 then At(last)
    else
      var before := Latest(snapshots[..|snapshots| - 1]);
      if before < At(last) then At(last) else before
  }

  /** A retirement of a member after both were admitted. */
  predicate Late(e: Event, pair: Pair, start: nat, admission: Option<nat>) {
    && e.kind == Retired && pair.Has(e.id) && e.at >= start
    && (admission.Some? ==> e.sequence > admission.value)
  }

  /** One that shows something: not a retirement because the allocation failed. */
  predicate Relevant(e: Event, pair: Pair, start: nat, admission: Option<nat>) {
    Late(e, pair, start, admission) && e.reason != "allocation-failed"
  }

  predicate Witness(e: Event, pair: Pair) {
    exists o :: o in pair.Others(e.id) && o in e.concurrent
  }

  /** Where the interval starts: at the later admission, or from a joint report if the log has lost them. */
  function Beginning(events: seq<Event>, joint: seq<Snapshot>, pair: Pair): (r: Option<(nat, Option<nat>)>)
    requires forall s :: s in joint ==> Joint(s, pair)
  {
    var a, b := AdmissionOf(events, pair.first), AdmissionOf(events, pair.second);
    if a.Some? && b.Some? && pair.first != pair.second then
      var later := if a.value.sequence < b.value.sequence then b.value else a.value;
      Some((later.at, Some(later.sequence)))
    else if joint != [] then
      assert joint[0] in joint && Joint(joint[0], pair);
      var first, second := AllocatedRow(joint[0].rows, pair.first).value, AllocatedRow(joint[0].rows, pair.second).value;
      Some((Larger(first.admitted, second.admitted), None))
    else None
  }

  function Ending(events: seq<Event>, joint: seq<Snapshot>, pair: Pair, start: nat, admission: Option<nat>): Option<Interval> {
    EndingAmong(Select(events, (e: Event) => Relevant(e, pair, start, admission)), joint, pair, start, admission)
  }

  /** Where the interval ends: at the first retirement that lists the other member, or else as joint reports say. */
  function EndingAmong(retirements: seq<Event>, joint: seq<Snapshot>, pair: Pair, start: nat, admission: Option<nat>): Option<Interval> {
    var after := Select(joint, (s: Snapshot) => At(s) >= start);
    var witnessed := Select(retirements, (e: Event) => Witness(e, pair));
    if witnessed != [] then Some(Interval(start, Larger(Earliest(witnessed).at, start), admission, RetirementEvent))
    else if after != [] then
      var end := if retirements != [] then Earliest(retirements).at else Latest(after);
      Some(Interval(start, Larger(end, start), admission, JointSnapshot))
    else None
  }

  function Derived(pair: Pair, snapshots: seq<Snapshot>): Option<Interval> {
    var events := Gather(snapshots).Values();
    var joint := Select(snapshots, (s: Snapshot) => Joint(s, pair));
    match Beginning(events, joint, pair)
    case None => None
    case Some((start, admission)) => Ending(events, joint, pair, start, admission)
  }

  // ---------------------------------------------------------------------------- the loops

  method FindAllocated(rows: seq<Row>, id: string) returns (r: Option<Row>)
    ensures r == AllocatedRow(rows, id)
  {
    for i := 0 to |rows|
      invariant AllocatedRow(rows, id) == AllocatedRow(rows[i..], id)
    {
      assert rows[i..][0] == rows[i] && rows[i..][1..] == rows[i + 1..];
      if Holds(rows[i], id) {
        return Some(rows[i]);
      }
    }
    r := None;
  }

  method GatherEvents(snapshots: seq<Snapshot>) returns (log: Ledger)
    ensures log == Gather(snapshots)
  {
    log := Ledger([], map[]);
    for i := 0 to |snapshots|
      invariant log == Gather(snapshots[..i])
    {
      var list := snapshots[i].events;
      for j := 0 to |list|
        invariant log == PutAll(Gather(snapshots[..i]), list[..j])
      {
        assert list[..j + 1][..j] == list[..j];
        log := log.Put(list[j]);
      }
      assert list[..|list|] == list;
      assert snapshots[..i + 1][..i] == snapshots[..i];
    }
    assert snapshots[..|snapshots|] == snapshots;
  }

  method Admissions(events: seq<Event>, pair: Pair) returns (admissions: map<string, Event>)
    ensures forall id :: pair.Has(id) ==>
              (id in admissions <==> AdmissionOf(events, id).Some?)
              && (id in admissions ==> Some(admissions[id]) == AdmissionOf(events, id))
    ensures forall id :: id in admissions ==> pair.Has(id)
  {
    admissions := map[];
    for i := 0 to |events|
      invariant forall id :: pair.Has(id) ==>
                  (id in admissions <==> AdmissionOf(events[..i], id).Some?)
                  && (id in admissions ==> Some(admissions[id]) == AdmissionOf(events[..i], id))
      invariant forall id :: id in admissions ==> pair.Has(id)
    {
      assert events[..i + 1][..i] == events[..i];
      if events[i].kind == Admitted && pair.Has(events[i].id) {
        admissions := admissions[events[i].id := events[i]];
      }
    }
    assert events[..|events|] == events;
  }

  method Filter<T(!new)>(list: seq<T>, keep: T -> bool) returns (r: seq<T>)
    ensures r == Select(list, keep)
  {
    r := [];
    for i := 0 to |list|
      invariant r == Select(list[..i], keep)
    {
      assert list[..i + 1][..i] == list[..i];
      if keep(list[i]) {
        r := r + [list[i]];
      }
    }
    assert list[..|list|] == list;
  }

  /** One worker's interval for one pair. */
  method Derive(pair: Pair, snapshots: seq<Snapshot>) returns (r: Option<Interval>)
    ensures r == Derived(pair, snapshots)
  {
    hide Gather, AllocatedRow, Select;
    var log := GatherEvents(snapshots);
    var events := log.Values();
    var admissions := Admissions(events, pair);
    var joint := Filter(snapshots, (s: Snapshot) => Joint(s, pair));
    var start, admission := 0, None;
    if pair.first != pair.second && pair.first in admissions && pair.second in admissions {
      var a, b := admissions[pair.first], admissions[pair.second];
      var later := if a.sequence < b.sequence then b else a;
      start, admission := later.at, Some(later.sequence);
    } else if joint != [] {
      assert joint[0] in joint;
      var first := FindAllocated(joint[0].rows, pair.first);
      var second := FindAllocated(joint[0].rows, pair.second);
      start := Larger(first.value.admitted, second.value.admitted);
    } else {
      return None;
    }
    assert Beginning(events, joint, pair) == Some((start, admission));
    var after := Filter(joint, (s: Snapshot) => At(s) >= start);
    var retirements := Filter(events, (e: Event) => Relevant(e, pair, start, admission));
    var witnessed := Filter(retirements, (e: Event) => Witness(e, pair));
    if witnessed != [] {
      return Some(Interval(start, Larger(Earliest(witnessed).at, start), admission, RetirementEvent));
    }
    if after != [] {
      var end := if retirements != [] then Earliest(retirements).at else Latest(after);
      return Some(Interval(start, Larger(end, start), admission, JointSnapshot));
    }
    r := None;
  }

  datatype Round = Round(serial: bool, pair: Pair)

  datatype Worker = Worker(id: string, snapshots: seq<Snapshot>)

  /** The evidence an interval is attached to. */
  datatype Finding = Finding(worker: string, pair: Pair, interval: Interval)

  function FindingsOf(workers: seq<Worker>, pair: Pair): seq<Finding>
    decreases |workers|
  {
    if workers == [] then []
    else
      var w := workers[|workers| - 1];
      FindingsOf(workers[..|workers| - 1], pair)
      + match Derived(pair, w.snapshots) case None => [] case Some(i) => [Finding(w.id, pair, i)]
  }

  function Findings(workers: seq<Worker>, rounds: seq<Round>): seq<Finding>
    decreases |rounds|
  {
    if rounds == [] then []
    else
      var r := rounds[|rounds| - 1];
      Findings(workers, rounds[..|rounds| - 1]) + if r.serial then [] else FindingsOf(workers, r.pair)
  }

  method DeriveOverlap(workers: seq<Worker>, rounds: seq<Round>) returns (intervals: seq<Finding>)
    ensures intervals == Findings(workers, rounds)
  {
    hide Derived;
    intervals := [];
    for i := 0 to |rounds|
      invariant intervals == Findings(workers, rounds[..i])
    {
      assert rounds[..i + 1][..i] == rounds[..i];
      if !rounds[i].serial {
        for j := 0 to |workers|
          invariant intervals == Findings(workers, rounds[..i]) + FindingsOf(workers[..j], rounds[i].pair)
        {
          assert workers[..j + 1][..j] == workers[..j];
          var interval := Derive(rounds[i].pair, workers[j].snapshots);
          if interval.Some? {
            intervals := intervals + [Finding(workers[j].id, rounds[i].pair, interval.value)];
          }
        }
        assert workers[..|workers|] == workers;
      }
    }
    assert rounds[..|rounds|] == rounds;
  }

  /** Every finding is the derivation for some worker and some round that ran its requests together. */
  lemma {:induction false} FindingsAreDerived(workers: seq<Worker>, rounds: seq<Round>, f: Finding)
    requires f in Findings(workers, rounds)
    ensures exists w :: w in workers && w.id == f.worker && Derived(f.pair, w.snapshots) == Some(f.interval)
    ensures exists r :: r in rounds && !r.serial && r.pair == f.pair
    decreases |rounds|
  {
    hide Derived;
    var before, r := rounds[..|rounds| - 1], rounds[|rounds| - 1];
    if f in Findings(workers, before) {
      FindingsAreDerived(workers, before, f);
    } else {
      FindingsOfAreDerived(workers, r.pair, f);
      assert r in rounds;
    }
  }

  /** And each such derivation is a finding. */
  lemma {:induction false} DerivedAreFindings(workers: seq<Worker>, rounds: seq<Round>, i: nat, j: nat)
    requires i < |rounds| && !rounds[i].serial && j < |workers| && Derived(rounds[i].pair, workers[j].snapshots).Some?
    ensures Finding(workers[j].id, rounds[i].pair, Derived(rounds[i].pair, workers[j].snapshots).value) in Findings(workers, rounds)
    decreases |rounds|
  {
    hide Derived;
    var before := rounds[..|rounds| - 1];
    if i < |before| {
      DerivedAreFindings(workers, before, i, j);
    } else {
      DerivedAreFindingsOf(workers, rounds[i].pair, j);
    }
  }

  lemma {:induction false} DerivedAreFindingsOf(workers: seq<Worker>, pair: Pair, j: nat)
    requires j < |workers| && Derived(pair, workers[j].snapshots).Some?
    ensures Finding(workers[j].id, pair, Derived(pair, workers[j].snapshots).value) in FindingsOf(workers, pair)
    decreases |workers|
  {
    hide Derived;
    var before := workers[..|workers| - 1];
    if j < |before| {
      DerivedAreFindingsOf(before, pair, j);
    }
  }

  lemma {:induction false} FindingsOfAreDerived(workers: seq<Worker>, pair: Pair, f: Finding)
    requires f in FindingsOf(workers, pair)
    ensures f.pair == pair && exists w :: w in workers && w.id == f.worker && Derived(pair, w.snapshots) == Some(f.interval)
    decreases |workers|
  {
    hide Derived;
    var before, w := workers[..|workers| - 1], workers[|workers| - 1];
    if f in FindingsOf(before, pair) {
      FindingsOfAreDerived(before, pair, f);
    } else {
      assert w in workers;
    }
  }
}
