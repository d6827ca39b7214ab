/** How long a record stays in the table, and that it never changes while it does. */
module Residence {
  import opened Results
  import opened Memory
  import opened Admission
  import opened AdmissionSafety
  import opened World
  import opened Ownership
  import opened WorldSafety
  import opened WorldEvolution

  /** Request `k` of `t` is the record that was there before. */
  predicate Remained(s: State, t: State, k: string)
    requires k in t.active
  {
    k in s.active && SameRecord(t.active[k], s.active[k])
  }

  /** Request `k` of `t` is a new record, with the next serial number, the time of its admission and the sizes that
      were asked for. */
  predicate Arrived(s: State, t: State, step: Step, k: string)
    requires k in t.active
  {
    && step.Reserve? && k == step.ask.id && t.active[k].serial == s.issued && t.active[k].admitted == step.admitted
    && step.ask.need == Ok(Need(t.active[k].cache, t.active[k].workspace))
    && LongAs(t.active[k], step.ask.tokens, step.ask.chunk)
  }

  /** Records never change, and new ones are numbered in order. */
  ghost predicate Records(s: State, t: State, step: Step) {
    && s.issued <= t.issued
    && forall k :: k in t.active ==> Remained(s, t, k) || Arrived(s, t, step, k)
  }

  lemma RetainedRecords(s: State, t: State, step: Step)
    requires Retains(s, t)
    ensures Records(s, t, step)
  {
    forall k | k in t.active
      ensures Remained(s, t, k)
    {
      assert SameOwner(s.active[k], t.active[k]);
    }
  }

  lemma LostRecords(s: State, t: State, step: Step, id: string, n: nat)
    requires Loses(s, t, id, n)
    ensures Records(s, t, step)
  {}

  lemma RecordsFurther(s: State, p: State, t: State, step: Step)
    requires Retains(s, p) && Records(p, t, step)
    ensures Records(s, t, step)
  {
    hide Arrived;
    forall k | k in t.active
      ensures Remained(s, t, k) || Arrived(s, t, step, k)
    {
      if Remained(p, t, k) {
        assert SameOwner(s.active[k], p.active[k]);
      } else {
        ArrivedAlike(s, p, t, step, k);
      }
    }
  }

  lemma ArrivedAlike(s: State, p: State, t: State, step: Step, k: string)
    requires k in t.active && Arrived(p, t, step, k) && p.issued == s.issued
    ensures Arrived(s, t, step, k)
  {}

  /** Sections that keep every record and add none. */
  predicate Keeps(s: State, t: State) {
    s.issued <= t.issued && forall k :: k in t.active ==> Remained(s, t, k)
  }

  lemma KeptRecords(s: State, t: State, step: Step)
    requires Keeps(s, t)
    ensures Records(s, t, step)
  {}

  lemma ReuseKeeps(cfg: Config, s: State, a: Ask, now: nat, admitted: nat, at: nat)
    requires Deadline(a, now).Ok? && a.id in s.active
    ensures Keeps(s, Granted(cfg, s, a, Reuse, now, admitted, at))
  {}

  lemma GrantArrives(cfg: Config, s: State, step: Step, at: nat)
    requires step.Reserve? && Deadline(step.ask, step.now).Ok? && step.ask.need.Ok?
    ensures Records(s, Granted(cfg, s, step.ask, Verdict.Reserve, step.now, step.admitted, at), step)
  {
    hide Log;
    var grown := s.(active := s.active[step.ask.id := Candidate(s, step.ask, Deadline(step.ask, step.now).value, step.admitted)],
                    issued := s.issued + 1);
    LogKeepsTable(cfg, grown, Admitted, step.ask.id, "", at);
  }

  lemma LogKeepsTable(cfg: Config, s: State, kind: Kind, id: string, reason: string, at: nat)
    ensures var t := Log(cfg, s, kind, id, reason, at); t.active == s.active && t.issued == s.issued
  {}

  lemma ClaimedRecords(s: State, w: World, id: string, tokens: nat, chunk: nat, step: Step)
    requires Records(s, w.control, step) && id in w.control.active && w.control.deployment.Some?
    ensures Records(s, Claiming(w, id, tokens, chunk).control, step)
  {
    hide Records;
    var t := Claiming(w, id, tokens, chunk).control;
    assert Keeps(w.control, t);
    RecordsThenKeeps(s, w.control, t, step);
  }

  lemma RecordsThenKeeps(s: State, p: State, t: State, step: Step)
    requires Records(s, p, step) && Keeps(p, t)
    ensures Records(s, t, step)
  {
    forall k | k in t.active
      ensures Remained(s, t, k) || Arrived(s, t, step, k)
    {
      assert Remained(p, t, k);
      assert Remained(s, p, k) || Arrived(s, p, step, k);
    }
  }

  lemma ReservingRecords(cfg: Config, w: World, step: Step, at: nat)
    requires Safe(cfg, w) && Enabled(w, step) && step.Reserve?
    ensures Records(w.control, Next(cfg, w, step, at).control, step)
  {
    hide Safe, Prune, Judge, Claiming, Granted, Records, Keeps, Retains;
    var a := step.ask;
    var p := Prune(cfg, w.control, step.order, step.seen, at);
    PruneRetains(cfg, w.control, step.order, step.seen, at);
    RetainedRecords(w.control, p, step);
    PrunedIsSafe(cfg, w, step.order, step.seen, at);
    SameRecords(w.control, step);
    if Serves(w.control, step.plan, step.version, step.stage) && Judge(cfg, p, a, step.now).Ok? {
      JudgedDeadline(cfg, p, a, step.now);
      var verdict := Judge(cfg, p, a, step.now).value;
      var t := Granted(cfg, p, a, verdict, step.now, step.admitted, at);
      if verdict.Reuse? {
        ReuseKeeps(cfg, p, a, step.now, step.admitted, at);
        KeptRecords(p, t, step);
        ReusedShape(cfg, p, a, step.now, step.admitted, at);
      } else {
        GrantArrives(cfg, p, step, at);
      }
      RecordsFurther(w.control, p, t, step);
      if verdict.Reuse? && step.stage.Some? {
        ClaimedRecords(w.control, w.(control := t), a.id, a.tokens, a.chunk, step);
      }
    }
  }

  lemma SameRecords(s: State, step: Step)
    ensures Records(s, s, step)
  {}

  lemma LoadedRecords(cfg: Config, w: World, p: State, spec: Spec, built: Built)
    ensures Keeps(p, Loaded(cfg, w, p, spec, built).control)
  {}

  lemma UnloadedRecords(w: World, p: State, plan: string, version: nat)
    ensures Keeps(p, Unloaded(w, p, plan, version).control)
  {}

  lemma PruningRecords(cfg: Config, w: World, step: Step, at: nat)
    requires Safe(cfg, w) && Enabled(w, step) && (step.Load? || step.Unload? || step.Poll?)
    ensures Records(w.control, Next(cfg, w, step, at).control, step)
  {
    hide Safe, Prune, Records, Keeps, Retains, Loaded, Unloaded;
    var p := Prune(cfg, w.control, step.order, step.seen, at);
    PruneRetains(cfg, w.control, step.order, step.seen, at);
    RetainedRecords(w.control, p, step);
    match step {
      case Load(spec, built, _, _) =>
        LoadedRecords(cfg, w, p, spec, built);
        RecordsThenKeeps(w.control, p, Next(cfg, w, step, at).control, step);
      case Unload(plan, version, _, _) =>
        UnloadedRecords(w, p, plan, version);
        RecordsThenKeeps(w.control, p, Next(cfg, w, step, at).control, step);
      case Poll(_, _) =>
    }
  }

  lemma FinishedRecords(cfg: Config, s: State, id: string, now: nat, later: nat, at: nat)
    requires id in s.active
    ensures Keeps(s, Finished(cfg, s, id, now, later, at))
  {
    hide Finished, Log, Count;
    FinishedShape(cfg, s, id, now, later, at);
  }

  lemma ReleaseRecords(cfg: Config, s: State, id: string, n: nat, completed: bool, now: nat, at: nat)
    ensures Keeps(s, Admission.Release(cfg, s, id, n, completed, now, at))
  {}

  lemma FailedRecords(cfg: Config, s: State, id: string, at: nat)
    ensures Keeps(s, AllocationFailed(cfg, s, id, at))
  {}

  lemma OwnRecords(cfg: Config, w: World, step: Step, at: nat)
    requires Safe(cfg, w) && Enabled(w, step)
    requires step.Allocate? || step.Fail? || step.Finish? || step.Release? || step.ReleaseAgain?
    ensures Records(w.control, Next(cfg, w, step, at).control, step)
  {
    hide Safe, Records, Finished, AllocationFailed, Admission.Release, Claiming;
    match step {
      case Allocate(n) => KeptRecords(w.control, Allocated(w.control, w.reserving[n].id, w.reserving[n].generation), step);
      case Fail(n) =>
        FailedRecords(cfg, w.control, w.reserving[n].id, at);
        KeptRecords(w.control, Next(cfg, w, step, at).control, step);
      case Finish(n, now, later) =>
        var r := w.reserving[n];
        FinishedRecords(cfg, w.control, r.id, now, later, at);
        var after := w.(control := Finished(cfg, w.control, r.id, now, later, at), reserving := w.reserving - {n});
        KeptRecords(w.control, after.control, step);
        if r.claim && r.id in after.control.active && after.control.deployment.Some? {
          ClaimedRecords(w.control, after, r.id, r.tokens, r.chunk, step);
        }
      case Release(n, completed, now) =>
        ReleaseRecords(cfg, w.control, w.leases[n].id, n, completed, now, at);
        KeptRecords(w.control, Next(cfg, w, step, at).control, step);
      case ReleaseAgain(n, completed, now) =>
        ReleaseRecords(cfg, w.control, w.returned[n], n, completed, now, at);
        KeptRecords(w.control, Next(cfg, w, step, at).control, step);
    }
  }

  /** One step of the worker changes no record; the only new one is the one it admits. */
  lemma StepRecords(cfg: Config, w: World, step: Step, at: nat)
    requires Safe(cfg, w) && Enabled(w, step)
    ensures Records(w.control, Next(cfg, w, step, at).control, step)
  {
    hide Safe, Records, Retains;
    if step.Reserve? {
      ReservingRecords(cfg, w, step, at);
    } else if step.Load? || step.Unload? || step.Poll? {
      PruningRecords(cfg, w, step, at);
    } else if step.Allocate? || step.Fail? || step.Finish? || step.Release? || step.ReleaseAgain? {
      OwnRecords(cfg, w, step, at);
    } else {
      SameRecords(w.control, step);
      if step.Cancel? {
        CancelRetains(cfg, w.control, step.id, at);
        RetainedRecords(w.control, Admission.Cancel(cfg, w.control, step.id, at), step);
      } else if step.Watch? {
        var id := if step.serial in w.leases then w.leases[step.serial].id else w.returned[step.serial];
        WatchedRetains(w.control, id, step.serial, step.cause);
        RetainedRecords(w.control, Watched(w.control, id, step.serial, step.cause), step);
      }
    }
  }

  // ---------------------------------------------------------------------------- whole runs

  /** Record `r` is in world `w` under the name `id`, whatever has happened to it. */
  predicate Resides(w: World, id: string, r: Request) {
    id in w.control.active && SameRecord(w.control.active[id], r)
  }

  /** World `first` is the first that record `r` is in, and its admission time lies within the section that led there. */
  predicate EntersAt(run: seq<World>, first: nat, id: string, r: Request) {
    && 0 < first < |run| && Resides(run[first], id, r) && run[first - 1].control.issued <= r.serial
    && run[first - 1].clock <= r.admitted <= run[first].clock
  }

  /** The record is what this step's caller asked for. */
  ghost predicate AskedBy(w: World, step: Step, id: string, r: Request) {
    && Enabled(w, step) && step.Reserve? && step.ask.id == id && step.admitted == r.admitted
    && step.ask.need == Ok(Need(r.cache, r.workspace)) && LongAs(r, step.ask.tokens, step.ask.chunk)
  }

  lemma RunRecords(cfg: Config, run: seq<World>, i: nat, id: string) returns (arrived: bool, asked: Step)
    requires Run(cfg, run) && i + 1 < |run| && id in run[i + 1].control.active
    ensures run[i].control.issued <= run[i + 1].control.issued
    ensures var r := run[i + 1].control.active[id];
            if arrived then EntersAt(run, i + 1, id, r) && AskedBy(run[i], asked, id, r) else Resides(run[i], id, r)
  {
    hide Run, Enabled, Records;
    var step := RunStep(cfg, run, i);
    var s, t := run[i].control, run[i + 1].control;
    arrived, asked := !Remained(s, t, id), step;
    RecordOf(s, t, step, id);
  }

  /** Each step of a run is in time and changes no record. */
  lemma RunStep(cfg: Config, run: seq<World>, i: nat) returns (step: Step)
    requires Run(cfg, run) && i + 1 < |run|
    ensures Enabled(run[i], step) && InTime(run[i], step, run[i + 1].clock)
    ensures Records(run[i].control, run[i + 1].control, step)
  {
    hide Safe, Run, Enabled, Next, Records;
    RunIsSafe(cfg, run, i);
    var at;
    step, at := StepOf(cfg, run, i);
    StepRecords(cfg, run[i], step, at);
    NextClock(cfg, run[i], step, at);
  }

  lemma RecordOf(s: State, t: State, step: Step, k: string)
    requires Records(s, t, step) && k in t.active
    ensures s.issued <= t.issued && (Remained(s, t, k) || Arrived(s, t, step, k))
  {}

  lemma StepOf(cfg: Config, run: seq<World>, i: nat) returns (step: Step, at: nat)
    requires Run(cfg, run) && i + 1 < |run|
    ensures Enabled(run[i], step) && InTime(run[i], step, at) && run[i + 1] == Next(cfg, run[i], step, at)
  {
    hide Enabled, Next;
    assert Steps(cfg, run[i], run[i + 1]);
    step, at :| Enabled(run[i], step) && InTime(run[i], step, at) && run[i + 1] == Next(cfg, run[i], step, at);
  }

  lemma NextClock(cfg: Config, w: World, step: Step, at: nat)
    requires Enabled(w, step)
    ensures Next(cfg, w, step, at).clock == at
  {}

  lemma StartIsEmpty(cfg: Config, run: seq<World>)
    requires Run(cfg, run)
    ensures run != [] && run[0].control.active == map[]
  {}

  /** A record in the table has been there, unchanged, since the world that its admission led to, and is as its
      reserver asked. */
  lemma {:induction false} ResidesSince(cfg: Config, run: seq<World>, m: nat, id: string) returns (first: nat, asked: Step)
    requires Run(cfg, run) && m < |run| && id in run[m].control.active
    ensures first <= m && EntersAt(run, first, id, run[m].control.active[id])
    ensures AskedBy(run[first - 1], asked, id, run[m].control.active[id])
    ensures forall i :: first <= i <= m ==> Resides(run[i], id, run[m].control.active[id])
  {
    hide Run, Enabled;
    if m == 0 {
      StartIsEmpty(cfg, run);
      assert false;
    } else {
      var arrived;
      arrived, asked := RunRecords(cfg, run, m - 1, id);
      first := m;
      if !arrived {
        first, asked := ResidesSince(cfg, run, m - 1, id);
      }
    }
  }

  lemma {:induction false} IssuedGrows(cfg: Config, run: seq<World>, i: nat, j: nat)
    requires Run(cfg, run) && i <= j < |run|
    ensures run[i].control.issued <= run[j].control.issued
    decreases j - i
  {
    hide Run, Enabled, Records;
    if i < j {
      IssuedGrows(cfg, run, i, j - 1);
      var step := RunStep(cfg, run, j - 1);
      RecordsIssue(run[j - 1].control, run[j].control, step);
    }
  }

  lemma RecordsIssue(s: State, t: State, step: Step)
    requires Records(s, t, step)
    ensures s.issued <= t.issued
  {}

  /** Over a whole run a serial number names one record: whenever it is in a table it has the same name, sizes
      and admission time. */
  lemma SerialIsIdentity(cfg: Config, run: seq<World>, i: nat, j: nat, id: string, name: string)
    requires Run(cfg, run) && i <= j < |run| && id in run[i].control.active && name in run[j].control.active
    requires run[i].control.active[id].serial == run[j].control.active[name].serial
    ensures id == name && SameRecord(run[i].control.active[id], run[j].control.active[name])
  {
    hide Run, Enabled, Safe, Invariant;
    var first, asked := ResidesSince(cfg, run, j, name);
    RunIsSafe(cfg, run, i);
    SafeIsInvariant(cfg, run[i]);
    SerialsDiffer(cfg, run[i].control);
    if i < first {
      IssuedGrows(cfg, run, i, first - 1);
    }
    assert Resides(run[i], name, run[j].control.active[name]);
  }
}
