/** Why a retirement for failed allocation must not count as evidence of overlap: a run in which such an
    event lists the other request, although the sequence state of the two never existed together. */
module FailedAllocation {
  import opened Results
  import opened Memory
  import opened Admission
  import opened AdmissionSafety
  import opened World
  import opened Overlap
  import opened OverlapSoundness
  import Scheduling

  const CONFIG := Config(2, 1, 0, true, NOTHING)
  const SPEC := Spec("plan", 1, 0, "")
  const STAGE := Deployment(0, SPEC, NOTHING, false)
  const ZERO: Readings := _ => 0
  const PAIR := Pair("a", "b")

  function AskFor(id: string): Ask {
    Ask(id, 1, 0, 0, Ok(Need(NOTHING, NOTHING)))
  }

  function Entry(serial: nat, sequence: Option<nat>, allocating: bool): Request {
    Request(serial, 1, 1, DEFAULT_PATIENCE, NOTHING, NOTHING, 0, sequence, false, NotStopped, allocating, false)
  }

  const ADMITTED_B := Event(Admitted, "b", 1, 0, {}, "")
  const ADMITTED_A := Event(Admitted, "a", 2, 0, {"b"}, "")
  const FAILED_A := Event(Retired, "a", 3, 0, {"b"}, "allocation-failed")

  function Table(i: nat): State {
    var b := Entry(0, if i < 3 then None else Some(0), i < 4);
    if i == 0 then EMPTY
    else if i == 1 then State(Some(STAGE), map[], 0, 1, [], 0)
    else if i < 4 then State(Some(STAGE), map["b" := b], 1, 1, [ADMITTED_B], 0)
    else if i == 4 then State(Some(STAGE), map["b" := b], 1, 1, [ADMITTED_B], 1)
    else if i == 5 then State(Some(STAGE), map["b" := b, "a" := Entry(1, None, true)], 2, 1, [ADMITTED_B, ADMITTED_A], 1)
    else State(Some(STAGE), map["b" := b], 2, 1, [ADMITTED_B, ADMITTED_A, FAILED_A], 1)
  }

  /** Load a stage; reserve and allocate for "b"; reserve for "a", whose allocation fails. */
  function Act(i: nat): Step {
    if i == 0 then Load(SPEC, Built(NOTHING, false), [], ZERO)
    else if i == 1 then Step.Reserve("plan", 1, None, AskFor("b"), [], ZERO, 0, 0)
    else if i == 2 then Allocate(0)
    else if i == 3 then Finish(0, 0, 0)
    else if i == 4 then Step.Reserve("plan", 1, None, AskFor("a"), [], ZERO, 0, 0)
    else Fail(1)
  }

  function Reservers(i: nat): map<nat, Reservation> {
    if i == 2 || i == 3 then map[0 := Reservation("b", 0, false, 1, 0)]
    else if i == 5 then map[1 := Reservation("a", 0, false, 1, 0)]
    else map[]
  }

  function Phase(i: nat): World {
    World(Table(i), Reservers(i), map[], map[], Scheduling.IDLE, 0)
  }

  lemma {:induction false} ZerosAdd<K>(m: map<K, nat>, s: set<K>)
    requires s <= m.Keys && forall k :: k in m ==> m[k] == 0
    ensures Sum(m, s) == 0
    decreases s
  {
    if s != {} {
      var x :| x in s;
      SumRemove(m, s, x);
      ZerosAdd(m, s - {x});
    }
  }

  lemma ZerosTop<K>(m: map<K, nat>, s: set<K>, rows: nat)
    requires s <= m.Keys && forall k :: k in m ==> m[k] == 0
    ensures Top(m, s, rows) == 0
  {
    var chosen := TopIsReached(m, s, rows);
    ZerosAdd(m, chosen);
  }

  lemma {:induction false} OnesAdd(m: map<string, nat>, s: set<string>)
    requires s <= m.Keys && forall k :: k in m ==> m[k] == 1
    ensures Sum(m, s) == |s|
    decreases s
  {
    if s != {} {
      var x :| x in s;
      SumRemove(m, s, x);
      OnesAdd(m, s - {x});
    }
  }

  lemma Affordable(s: State, grown: map<string, Request>)
    requires s.deployment == Some(STAGE) && |grown.Keys| <= 2
    requires forall k :: k in grown ==> grown[k].tokens == 1 && grown[k].cache == NOTHING && grown[k].workspace == NOTHING
    ensures OverBudget(CONFIG, s, grown) == None
  {
    OnesAdd(Lengths(grown), grown.Keys);
    forall d: Domain
      ensures Reserved(NOTHING, grown, PassRows(CONFIG, s), d) == 0
    {
      ZerosAdd(Caches(grown, d), grown.Keys);
      ZerosTop(Workspaces(grown, d), grown.Keys, PassRows(CONFIG, s));
    }
    hide Reserved, Sum, Top;
    assert ReservedAmounts(NOTHING, grown, PassRows(CONFIG, s)) == NOTHING;
  }

  lemma NothingToPrune(s: State)
    requires forall k :: k in s.active ==> s.active[k].deadline == DEFAULT_PATIENCE
    ensures PrunedBy(s, [], ZERO) && Prune(CONFIG, s, [], ZERO, 0) == s
  {
    assert Flagged(s.active, ZERO) == s.active;
  }

  lemma Granting(i: nat, id: string)
    requires (i == 1 && id == "b") || (i == 4 && id == "a")
    ensures Judge(CONFIG, Table(i), AskFor(id), 0) == Ok(Verdict.Reserve)
    ensures Granted(CONFIG, Table(i), AskFor(id), Verdict.Reserve, 0, 0, 0) == Table(i + 1)
  {
    hide OverBudget;
    var grown := Table(i).active[id := Candidate(Table(i), AskFor(id), DEFAULT_PATIENCE, 0)];
    assert grown == Table(i + 1).active;
    if i == 1 {
      assert grown.Keys == {"b"};
      assert Concurrent(grown, "b") == {};
    } else {
      assert grown.Keys == {"a", "b"};
      assert Concurrent(grown, "a") == {"b"};
    }
    Affordable(Table(i), grown);
  }

  lemma Reserves(i: nat, id: string)
    requires (i == 1 && id == "b") || (i == 4 && id == "a")
    ensures Enabled(Phase(i), Act(i)) && Next(CONFIG, Phase(i), Act(i), 0) == Phase(i + 1)
  {
    hide Judge, Granted, Prune, PrunedBy;
    NothingToPrune(Table(i));
    Granting(i, id);
  }

  lemma Finishes()
    ensures Enabled(Phase(3), Act(3)) && Next(CONFIG, Phase(3), Act(3), 0) == Phase(4)
  {
    var usable := Table(3).active["b" := Table(3).active["b"].(allocating := false)];
    assert usable == Table(4).active;
    assert (set k | k in usable && !usable[k].allocating) == {"b"};
    assert Finished(CONFIG, Table(3), "b", 0, 0, 0) == Table(4);
    assert Reservers(3) - {0} == map[];
  }

  lemma Fails()
    ensures Enabled(Phase(5), Act(5)) && Next(CONFIG, Phase(5), Act(5), 0) == Phase(6)
  {
    var rest := Table(5).active - {"a"};
    assert rest == Table(6).active;
    assert Concurrent(rest, "a") == {"b"};
    assert AllocationFailed(CONFIG, Table(5), "a", 0) == Table(6);
    assert Reservers(5) - {1} == map[];
  }

  lemma Loads()
    ensures Enabled(Phase(0), Act(0)) && Next(CONFIG, Phase(0), Act(0), 0) == Phase(1)
  {
    hide Prune;
    NothingToPrune(EMPTY);
  }

  lemma Acts(i: nat)
    requires i < 6
    ensures Enabled(Phase(i), Act(i)) && Next(CONFIG, Phase(i), Act(i), 0) == Phase(i + 1)
  {
    hide Enabled, Next;
    if i == 0 {
      Loads();
    } else if i == 1 {
      Reserves(1, "b");
    } else if i == 2 {
      Allocates();
    } else if i == 3 {
      Finishes();
    } else if i == 4 {
      Reserves(4, "a");
    } else {
      Fails();
    }
  }

  lemma Allocates()
    ensures Enabled(Phase(2), Act(2)) && Next(CONFIG, Phase(2), Act(2), 0) == Phase(3)
  {}

  // ---------------------------------------------------------------------------- what is derived from it

  /** The derivation, if it took every retirement after the admissions as evidence. */
  function Unfiltered(pair: Pair, snapshots: seq<Snapshot>): Option<Interval> {
    var events := Gather(snapshots).Values();
    var joint := Select(snapshots, (s: Snapshot) => Joint(s, pair));
    match Beginning(events, joint, pair)
    case None => None
    case Some((start, admission)) =>
      EndingAmong(Select(events, (e: Event) => Late(e, pair, start, admission)), joint, pair, start, admission)
  }

  const LOG := [ADMITTED_B, ADMITTED_A, FAILED_A]

  /** What a poll of the last world reports. */
  const REPORT := Snapshot(true, Some(0), [Row("b", false, 0, 0)], LOG)

  lemma ReportsLast()
    ensures Reports(CONFIG, Phase(6), REPORT)
  {
    assert Recent(Table(6).history) == LOG;
  }

  lemma GathersLog()
    ensures Gather([REPORT]).Values() == LOG
  {
    assert [REPORT][..0] == [];
    assert LOG[..2] == [ADMITTED_B, ADMITTED_A] && LOG[..2][..1] == [ADMITTED_B] && LOG[..2][..1][..0] == [];
    var none := Ledger([], map[]);
    assert PutAll(none, []) == none;
    assert PutAll(none, [ADMITTED_B]) == Ledger([1], map[1 := ADMITTED_B]);
    assert PutAll(none, LOG[..2]) == Ledger([1, 2], map[1 := ADMITTED_B, 2 := ADMITTED_A]);
    assert PutAll(none, LOG) == Ledger([1, 2, 3], map[1 := ADMITTED_B, 2 := ADMITTED_A, 3 := FAILED_A]);
  }

  lemma NothingJoint()
    ensures Select([REPORT], (s: Snapshot) => Joint(s, PAIR)) == []
  {
    assert !Joint(REPORT, PAIR);
  }

  lemma SecondAdmission()
    ensures Beginning(LOG, [], PAIR) == Some((0, Some(2)))
  {
    assert LOG[..2] == [ADMITTED_B, ADMITTED_A] && [ADMITTED_B, ADMITTED_A][..1] == [ADMITTED_B];
  }

  /** The last event is the only retirement, and it lists the other member. */
  lemma OnlyFailure(keep: Event -> bool)
    requires !keep(ADMITTED_B) && !keep(ADMITTED_A)
    ensures Select(LOG, keep) == if keep(FAILED_A) then [FAILED_A] else []
  {
    assert LOG[..2] == [ADMITTED_B, ADMITTED_A] && [ADMITTED_B, ADMITTED_A][..1] == [ADMITTED_B];
    assert Select([ADMITTED_B], keep) == [];
    assert Select([ADMITTED_B, ADMITTED_A], keep) == [];
  }

  lemma Witnessed()
    ensures Select([FAILED_A], (e: Event) => Witness(e, PAIR)) == [FAILED_A]
  {
    assert "b" in PAIR.Others("a");
    assert Witness(FAILED_A, PAIR);
  }

  lemma Derivations()
    ensures Derived(PAIR, [REPORT]) == None
    ensures Unfiltered(PAIR, [REPORT]) == Some(Interval(0, 0, Some(2), RetirementEvent))
  {
    hide Beginning, Gather, Select, Joint;
    GathersLog();
    NothingJoint();
    SecondAdmission();
    OnlyFailure((e: Event) => Late(e, PAIR, 0, Some(2)));
    OnlyFailure((e: Event) => Relevant(e, PAIR, 0, Some(2)));
    Witnessed();
    NoneSelected((s: Snapshot) => At(s) >= 0);
    NoneSelected((e: Event) => Witness(e, PAIR));
  }

  lemma NoneSelected<T(!new)>(keep: T -> bool)
    ensures Select([], keep) == []
  {}

  /** On this run the unfiltered derivation reports an overlap of two requests whose sequence state never
      existed together; the filtered one reports none. */
  lemma FilterIsEssential() returns (run: seq<World>)
    ensures Run(CONFIG, run) && |run| == 7 && Polled(CONFIG, run, [REPORT], [6])
    ensures Unfiltered(PAIR, [REPORT]) == Some(Interval(0, 0, Some(2), RetirementEvent)) && Derived(PAIR, [REPORT]) == None
    ensures forall i :: 0 <= i < |run| ==> !Together(run[i], PAIR)
  {
    hide Run, Polled, Unfiltered, Derived, Together, Phase;
    run := TheRun();
    RunIsARun();
    ReportsLast();
    Derivations();
    forall i | 0 <= i < |run|
      ensures !Together(run[i], PAIR)
    {
      NeverTogether(i);
    }
    PolledOnce(run);
  }

  function TheRun(): (run: seq<World>)
    ensures |run| == 7 && forall i :: 0 <= i < 7 ==> run[i] == Phase(i)
  {
    seq(7, i requires 0 <= i < 7 => Phase(i))
  }

  lemma RunIsARun()
    ensures Run(CONFIG, TheRun())
  {
    hide Next, Enabled;
    var run := TheRun();
    forall i | 0 <= i < 6
      ensures Steps(CONFIG, run[i], run[i + 1])
    {
      Acts(i);
      StepsTo(i);
    }
  }

  lemma StepsTo(i: nat)
    requires i < 6 && Enabled(Phase(i), Act(i)) && Next(CONFIG, Phase(i), Act(i), 0) == Phase(i + 1)
    ensures Steps(CONFIG, Phase(i), Phase(i + 1))
  {
    hide Next, Enabled;
    assert Phase(i).clock == 0;
  }

  lemma NeverTogether(i: nat)
    ensures !Together(Phase(i), PAIR)
  {}

  lemma PolledOnce(run: seq<World>)
    requires |run| == 7 && Reports(CONFIG, run[6], REPORT)
    ensures Polled(CONFIG, run, [REPORT], [6])
  {
    hide Reports;
  }
}
