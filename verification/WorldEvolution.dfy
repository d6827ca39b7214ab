/** How a worker's observable state changes from step to step, and over whole runs. */
module WorldEvolution {
  import opened Results
  import opened Memory
  import opened Admission
  import opened AdmissionSafety
  import opened Evolution
  import opened World
  import opened Ownership
  import opened WorldSafety
  import Scheduling

  // ---------------------------------------------------------------------------- one step

  lemma SameAfter(cfg: Config, s: State, p: State, t: State, at: nat)
    requires Evolves(cfg, s, p, at) && SameUse(p.active, t.active) && t.history == p.history && t.peak == p.peak
    ensures Evolves(cfg, s, t, at)
  {
    SameUseSameCount(p.active, t.active);
    hide Count, Truthful;
    if cfg.observations {
      forall k | k in s.active && k in t.active && !s.active[k].allocating && t.active[k].allocating
        ensures Readmitted(s, t, k)
      {
        assert Readmitted(s, p, k);
      }
    }
  }

  lemma NothingEvolves(cfg: Config, s: State, at: nat)
    requires Kept(cfg, s)
    ensures Evolves(cfg, s, s, at)
  {
    assert s.(active := s.active) == s;
    FlagsEvolve(cfg, s, s.active, at);
  }

  lemma ClaimingEvolves(cfg: Config, s: State, w: World, id: string, tokens: nat, chunk: nat, at: nat)
    requires Evolves(cfg, s, w.control, at) && id in w.control.active && w.control.deployment.Some?
    ensures Evolves(cfg, s, Claiming(w, id, tokens, chunk).control, at)
  {
    hide Evolves;
    SameAfter(cfg, s, w.control, Claiming(w, id, tokens, chunk).control, at);
  }

  lemma ReservingEvolves(cfg: Config, w: World, plan: string, version: nat, stage: Option<nat>, a: Ask,
                         order: seq<string>, seen: Readings, now: nat, admitted: nat, at: nat)
    requires Safe(cfg, w) && PrunedBy(w.control, order, seen)
    ensures Evolves(cfg, w.control, Reserving(cfg, w, plan, version, stage, a, order, seen, now, admitted, at).control, at)
  {
    hide Safe, Invariant, Evolves, Prune, Judge, Kept, Claiming, Granted;
    SafeIsInvariant(cfg, w);
    InvariantIsKept(cfg, w.control);
    NothingEvolves(cfg, w.control, at);
    PruneEvolves(cfg, w.control, order, seen, at);
    PrunedIsSafe(cfg, w, order, seen, at);
    var pruned := w.(control := Prune(cfg, w.control, order, seen, at));
    SafeIsInvariant(cfg, pruned);
    if Matches(w.control, plan, version) && Judge(cfg, pruned.control, a, now).Ok? {
      JudgedDeadline(cfg, pruned.control, a, now);
      var t := Granted(cfg, pruned.control, a, Judge(cfg, pruned.control, a, now).value, now, admitted, at);
      GrantedKeeps(cfg, pruned.control, a, now, admitted, at);
      if a.id in pruned.control.active {
        ReusedSame(cfg, pruned.control, a, now, admitted, at);
        SameAfter(cfg, w.control, pruned.control, t, at);
        if stage.Some? {
          ClaimingEvolves(cfg, w.control, pruned.(control := t), a.id, a.tokens, a.chunk, at);
        }
      } else {
        InvariantIsKept(cfg, pruned.control);
        InvariantIsKept(cfg, t);
        GrantedNext(cfg, pruned.control, a, now, admitted, at);
        EvolvesFurther(cfg, w.control, pruned.control, t, at);
      }
    }
  }

  lemma ReusedSame(cfg: Config, s: State, a: Ask, now: nat, admitted: nat, at: nat)
    requires Deadline(a, now).Ok? && a.id in s.active
    ensures var t := Granted(cfg, s, a, Reuse, now, admitted, at);
            && SameUse(s.active, t.active) && t.history == s.history && t.peak == s.peak
            && a.id in t.active && t.deployment == s.deployment
  {}

  lemma GrantedNext(cfg: Config, s: State, a: Ask, now: nat, admitted: nat, at: nat)
    requires Kept(cfg, s) && Deadline(a, now).Ok? && a.need.Ok? && a.id !in s.active
    requires Logged(cfg, Granted(cfg, s, a, Verdict.Reserve, now, admitted, at))
    ensures var t := Granted(cfg, s, a, Verdict.Reserve, now, admitted, at);
            Evolves(cfg, s, t, at) && NextEvent(cfg, s, t)
  {
    hide Logged, Count;
    var r := Candidate(s, a, Deadline(a, now).value, admitted);
    AdmissionEvolves(cfg, s, a.id, r, at);
    LogOnlyLogs(cfg, s.(active := s.active[a.id := r], issued := s.issued + 1), Admitted, a.id, "", at);
    hide Evolves, Log;
    EvolvesOnward(cfg, s, Granted(cfg, s, a, Verdict.Reserve, now, admitted, at), at);
  }

  lemma FinishedEvolves(cfg: Config, s: State, id: string, now: nat, later: nat, at: nat)
    requires Kept(cfg, s) && Held(s, id)
    ensures Evolves(cfg, s, Finished(cfg, s, id, now, later, at), at)
  {
    hide Kept, Evolves, Retire, Count;
    var active := s.active[id := s.active[id].(allocating := false)];
    if active[id].cancelled || now >= active[id].deadline {
      RetireEvolves(cfg, s, active, id, if later >= active[id].deadline then "expired" else "cancelled", at);
    } else {
      UsableEvolves(cfg, s, id, at);
    }
  }

  lemma LoadedSame(cfg: Config, w: World, p: State, spec: Spec, built: Built)
    ensures var t := Loaded(cfg, w, p, spec, built).control;
            SameUse(p.active, t.active) && t.history == p.history && t.peak == p.peak
  {}

  lemma UnloadedSame(w: World, p: State, plan: string, version: nat)
    ensures var t := Unloaded(w, p, plan, version).control;
            SameUse(p.active, t.active) && t.history == p.history && t.peak == p.peak
  {}

  lemma TableStepEvolves(cfg: Config, w: World, step: Step, at: nat)
    requires Safe(cfg, w) && Enabled(w, step) && (step.Load? || step.Unload? || step.Poll? || step.Reserve?)
    ensures Evolves(cfg, w.control, Next(cfg, w, step, at).control, at)
  {
    hide Safe, Invariant, Evolves, Prune, Reserving, Loaded, Unloaded, SameUse, Visits, Remains;
    SafeIsInvariant(cfg, w);
    match step {
      case Load(spec, built, order, seen) =>
        PruneEvolves(cfg, w.control, order, seen, at);
        LoadedSame(cfg, w, Prune(cfg, w.control, order, seen, at), spec, built);
        SameAfter(cfg, w.control, Prune(cfg, w.control, order, seen, at), Next(cfg, w, step, at).control, at);
      case Unload(plan, version, order, seen) =>
        PruneEvolves(cfg, w.control, order, seen, at);
        UnloadedSame(w, Prune(cfg, w.control, order, seen, at), plan, version);
        SameAfter(cfg, w.control, Prune(cfg, w.control, order, seen, at), Next(cfg, w, step, at).control, at);
      case Poll(order, seen) => PruneEvolves(cfg, w.control, order, seen, at);
      case Reserve(plan, version, stage, a, order, seen, now, admitted) =>
        ReservingEvolves(cfg, w, plan, version, stage, a, order, seen, now, admitted, at);
    }
  }

  lemma ReleaseEvolves(cfg: Config, s: State, id: string, n: nat, completed: bool, now: nat, at: nat)
    requires Kept(cfg, s) && (id in s.active && s.active[id].serial == n ==> Held(s, id))
    ensures Evolves(cfg, s, Admission.Release(cfg, s, id, n, completed, now, at), at)
  {
    hide Kept, Evolves, Retire;
    NothingEvolves(cfg, s, at);
    if id in s.active && s.active[id].serial == n {
      assert s.(active := s.active) == s;
      RetireEvolves(cfg, s, s.active, id, ReleaseReason(s.active[id], completed, now), at);
    }
  }

  lemma CancelEvolves(cfg: Config, s: State, id: string, at: nat)
    requires Invariant(cfg, s)
    ensures Evolves(cfg, s, Admission.Cancel(cfg, s, id, at), at)
  {
    hide Invariant, Evolves, Retire, Kept;
    InvariantIsKept(cfg, s);
    NothingEvolves(cfg, s, at);
    if id in s.active {
      ActiveIsValid(cfg, s, id);
      var stopped := s.active[id := Stop(s.active[id], Cancelled)];
      FlagsEvolve(cfg, s, stopped, at);
      if !s.active[id].running && !s.active[id].allocating {
        RetireEvolves(cfg, s, stopped, id, "cancelled", at);
      }
    }
  }

  lemma WatchedEvolves(cfg: Config, s: State, id: string, n: nat, cause: StopCause, at: nat)
    requires Kept(cfg, s)
    ensures Evolves(cfg, s, Watched(s, id, n, cause), at)
  {
    hide Kept, Evolves;
    NothingEvolves(cfg, s, at);
    if id in s.active {
      FlagsEvolve(cfg, s, s.active[id := Stop(s.active[id], cause)], at);
    }
  }

  lemma FailedEvolves(cfg: Config, s: State, id: string, at: nat)
    requires Kept(cfg, s) && id in s.active && s.active[id].allocating
    ensures Evolves(cfg, s, AllocationFailed(cfg, s, id, at), at)
  {
    hide Kept, Evolves, Retire;
    assert s.(active := s.active) == s;
    RetireEvolves(cfg, s, s.active, id, "allocation-failed", at);
  }

  lemma OwnStepEvolves(cfg: Config, w: World, step: Step, at: nat)
    requires Safe(cfg, w) && Enabled(w, step)
    requires step.Allocate? || step.Fail? || step.Finish? || step.Release? || step.ReleaseAgain?
    ensures Evolves(cfg, w.control, Next(cfg, w, step, at).control, at)
  {
    hide Safe, Invariant, Evolves, Kept, Finished, AllocationFailed, Admission.Release, Claiming;
    SafeIsInvariant(cfg, w);
    InvariantIsKept(cfg, w.control);
    match step {
      case Allocate(n) =>
        FlagsEvolve(cfg, w.control, Allocated(w.control, w.reserving[n].id, w.reserving[n].generation).active, at);
      case Fail(n) =>
        ReserverFinds(cfg, w, n);
        FailedEvolves(cfg, w.control, w.reserving[n].id, at);
      case Finish(n, now, later) =>
        var r := w.reserving[n];
        FinishedEvolves(cfg, w.control, r.id, now, later, at);
        var after := w.(control := Finished(cfg, w.control, r.id, now, later, at), reserving := w.reserving - {n});
        if r.claim && r.id in after.control.active && after.control.deployment.Some? {
          ClaimingEvolves(cfg, w.control, after, r.id, r.tokens, r.chunk, at);
        }
      case Release(n, completed, now) =>
        LeaseHolds(cfg, w, n);
        ReleaseEvolves(cfg, w.control, w.leases[n].id, n, completed, now, at);
      case ReleaseAgain(n, completed, now) =>
        SecondReleaseIsHarmless(cfg, w, n, completed, now, at);
        NothingEvolves(cfg, w.control, at);
    }
  }

  lemma LeaseHolds(cfg: Config, w: World, n: nat)
    requires Safe(cfg, w) && n in w.leases
    ensures Held(w.control, w.leases[n].id)
  {
    OwnerIsNoReserver(cfg, w.control, n, w.reserving, w.leases, w.returned);
  }

  lemma StepEvolves(cfg: Config, w: World, step: Step, at: nat)
    requires Safe(cfg, w) && Enabled(w, step)
    ensures Evolves(cfg, w.control, Next(cfg, w, step, at).control, at)
  {
    hide Safe, Invariant, Evolves, Kept;
    if step.Load? || step.Unload? || step.Poll? || step.Reserve? {
      TableStepEvolves(cfg, w, step, at);
    } else if step.Allocate? || step.Fail? || step.Finish? || step.Release? || step.ReleaseAgain? {
      OwnStepEvolves(cfg, w, step, at);
    } else {
      SafeIsInvariant(cfg, w);
      InvariantIsKept(cfg, w.control);
      NothingEvolves(cfg, w.control, at);
      if step.Cancel? {
        CancelEvolves(cfg, w.control, step.id, at);
      } else if step.Watch? {
        WatchedEvolves(cfg, w.control, if step.serial in w.leases then w.leases[step.serial].id else w.returned[step.serial], step.serial,
                       step.cause, at);
      }
    }
  }

  // ---------------------------------------------------------------------------- whole runs

  lemma RunEvolves(cfg: Config, run: seq<World>, i: nat)
    requires Run(cfg, run) && i + 1 < |run|
    ensures run[i].clock <= run[i + 1].clock && Evolves(cfg, run[i].control, run[i + 1].control, run[i + 1].clock)
    ensures Invariant(cfg, run[i].control) && Invariant(cfg, run[i + 1].control)
  {
    hide Safe, Invariant, Evolves, Enabled;
    RunIsSafe(cfg, run, i);
    RunIsSafe(cfg, run, i + 1);
    SafeIsInvariant(cfg, run[i]);
    SafeIsInvariant(cfg, run[i + 1]);
    assert Steps(cfg, run[i], run[i + 1]);
    var step, at :| Enabled(run[i], step) && InTime(run[i], step, at) && run[i + 1] == Next(cfg, run[i], step, at);
    StepEvolves(cfg, run[i], step, at);
  }

  lemma {:induction false} TimePasses(cfg: Config, run: seq<World>, i: nat, j: nat)
    requires Run(cfg, run) && i <= j < |run|
    ensures run[i].clock <= run[j].clock && run[i].control.history <= run[j].control.history
    decreases j - i
  {
    hide Run, Invariant, Truthful, StaysUsable, Count;
    if i < j {
      TimePasses(cfg, run, i, j - 1);
      RunEvolves(cfg, run, j - 1);
    }
  }

  /** The step that logged event `n`. */
  lemma {:induction false} LoggedWhen(cfg: Config, run: seq<World>, j: nat, n: nat) returns (i: nat)
    requires Run(cfg, run) && j < |run| && n < |run[j].control.history|
    ensures i < j && |run[i].control.history| <= n < |run[i + 1].control.history|
    ensures run[i + 1].control.history <= run[j].control.history
    ensures Truthful(run[i].control, run[i + 1].control.history, n, run[i + 1].clock)
  {
    hide Run, Invariant, Truthful;
    if j == 0 {
      StartIsQuiet(cfg, run);
    } else {
      RunEvolves(cfg, run, j - 1);
      if n < |run[j - 1].control.history| {
        i := LoggedWhen(cfg, run, j - 1, n);
      } else {
        i := j - 1;
      }
    }
  }

  lemma StartIsQuiet(cfg: Config, run: seq<World>)
    requires Run(cfg, run)
    ensures run[0].control == EMPTY
  {}

  /** The peak is the largest number of requests that ever held usable sequence state at once, over all
      the states in which the lock was free. */
  lemma {:induction false} PeakIsMaximum(cfg: Config, run: seq<World>, i: nat) returns (when: nat)
    requires Run(cfg, run) && i < |run|
    ensures forall j :: 0 <= j <= i ==> Count(run[j].control.active) <= run[i].control.peak
    ensures when <= i && Count(run[when].control.active) == run[i].control.peak
  {
    hide Run, Invariant, Count, Extends, StaysUsable;
    if i == 0 {
      StartIsQuiet(cfg, run);
      NothingCounts();
      when := 0;
    } else {
      when := PeakIsMaximum(cfg, run, i - 1);
      RunEvolves(cfg, run, i - 1);
      if Count(run[i].control.active) == run[i].control.peak {
        when := i;
      }
    }
  }

  lemma NothingCounts()
    ensures Count(map[]) == 0
  {}
}
