/** What each critical section leaves behind, request by request and event by event. */
module Outcomes {
  import opened Numbers
  import opened Results
  import opened Memory
  import opened Admission
  import opened AdmissionSafety

  /** The state `t` has one more event than `s`, which lists the others that hold allocated state in `t`; or none if
      nothing is observed. */
  ghost predicate LogsOne(cfg: Config, s: State, t: State, kind: Kind, id: string, reason: string, at: nat) {
    if !cfg.observations then t.history == s.history
    else
      && |t.history| == |s.history| + 1 && s.history <= t.history
      && var e := t.history[|s.history|];
         && e.kind == kind && e.id == id && e.reason == reason && e.at == at && e.sequence == |t.history|
         && forall k :: k in e.concurrent <==> k in t.active && k != id && !t.active[k].allocating
  }

  lemma LogLogsOne(cfg: Config, s: State, u: State, kind: Kind, id: string, reason: string, at: nat)
    requires u.history == s.history
    ensures LogsOne(cfg, s, Log(cfg, u, kind, id, reason, at), kind, id, reason, at)
  {}

  /** The request is gone, one event says why, and nothing else is different. */
  ghost predicate RetiredAs(cfg: Config, s: State, id: string, reason: string, at: nat, t: State) {
    && t == s.(active := t.active, history := t.history)
    && (forall k :: k in t.active <==> k in s.active && k != id) && (forall k :: k in t.active ==> t.active[k] == s.active[k])
    && LogsOne(cfg, s, t, Retired, id, reason, at)
  }

  lemma RetireRetires(cfg: Config, s: State, id: string, reason: string, at: nat)
    ensures RetiredAs(cfg, s, id, reason, at, Retire(cfg, s, id, reason, at))
  {
    LogLogsOne(cfg, s, s.(active := s.active - {id}), Retired, id, reason, at);
  }

  /** The request has a new record and nothing else is different. */
  predicate OnlyChanges(s: State, id: string, r: Request, t: State) {
    && t == s.(active := t.active) && t.active.Keys == s.active.Keys && id in t.active && t.active[id] == r
    && forall k :: k in t.active && k != id ==> t.active[k] == s.active[k]
  }

  /** A request told to stop keeps the first cause it was given. */
  predicate Stopped(r: Request, cause: StopCause, t: Request) {
    && t == r.(cancelled := true, cause := t.cause)
    && (r.cause == NotStopped ==> t.cause == cause) && (r.cause != NotStopped ==> t.cause == r.cause)
  }

  // ---------------------------------------------------------------------------- expiry

  /** Whoever is past its deadline when the section comes to it has been stopped, or is gone if nobody uses it. */
  ghost predicate PrunedAs(s: State, seen: Readings, t: State) {
    && t == s.(active := t.active, history := t.history)
    && (forall k :: k in t.active <==>
          k in s.active && (seen(k) < s.active[k].deadline || s.active[k].running || s.active[k].allocating))
    && forall k :: k in t.active ==>
         if seen(k) < s.active[k].deadline then t.active[k] == s.active[k] else Stopped(s.active[k], Expired, t.active[k])
  }

  predicate Expiry(e: Event, id: string, n: nat, at: nat) {
    e.kind == Retired && e.id == id && e.reason == "expired" && e.at == at && e.sequence == n
  }

  /** One event for each request that is gone, in the order of visiting. */
  predicate LogsExpiries(cfg: Config, s: State, order: seq<string>, at: nat, t: State) {
    if !cfg.observations then t.history == s.history
    else
      && |t.history| == |s.history| + |order| && s.history <= t.history
      && forall n :: |s.history| <= n < |t.history| ==> Expiry(t.history[n], order[n - |s.history|], n + 1, at)
  }

  lemma {:induction false} RetireAllLogs(cfg: Config, s: State, order: seq<string>, at: nat)
    ensures LogsExpiries(cfg, s, order, at, RetireAll(cfg, s, order, "expired", at))
    decreases |order|
  {
    hide LogsOne, Retire, RetiredAs, LogsExpiries;
    if order == [] {
      NoExpiries(cfg, s, at);
    } else {
      var next := Retire(cfg, s, order[0], "expired", at);
      RetireRetires(cfg, s, order[0], "expired", at);
      RetireAllLogs(cfg, next, order[1..], at);
      LogsOneMore(cfg, s, next, order, at, RetireAll(cfg, s, order, "expired", at));
    }
  }

  lemma NoExpiries(cfg: Config, s: State, at: nat)
    ensures LogsExpiries(cfg, s, [], at, s)
  {}

  lemma LogsOneMore(cfg: Config, s: State, next: State, order: seq<string>, at: nat, t: State)
    requires order != [] && RetiredAs(cfg, s, order[0], "expired", at, next) && LogsExpiries(cfg, next, order[1..], at, t)
    ensures LogsExpiries(cfg, s, order, at, t)
  {
    if cfg.observations {
      forall n | |s.history| <= n < |t.history|
        ensures Expiry(t.history[n], order[n - |s.history|], n + 1, at)
      {
        if n == |s.history| {
          assert t.history[n] == next.history[n];
        } else {
          assert order[n - |s.history|] == order[1..][n - |next.history|];
        }
      }
    }
  }

  lemma PruneIs(cfg: Config, s: State, order: seq<string>, seen: Readings, at: nat)
    requires Visits(order, Abandoned(s.active, seen))
    ensures PrunedAs(s, seen, Prune(cfg, s, order, seen, at))
    ensures LogsExpiries(cfg, s, order, at, Prune(cfg, s, order, seen, at))
  {
    PruneLogs(cfg, s, order, seen, at);
    PruneRemoves(cfg, s, order, seen, at);
    hide Prune, LogsExpiries, Visits;
  }

  lemma PruneLogs(cfg: Config, s: State, order: seq<string>, seen: Readings, at: nat)
    ensures LogsExpiries(cfg, s, order, at, Prune(cfg, s, order, seen, at))
  {
    hide Flagged, Expiry, RetireAll;
    RetireAllLogs(cfg, s.(active := Flagged(s.active, seen)), order, at);
  }

  // ---------------------------------------------------------------------------- after allocation

  /** The request is usable if it was neither cancelled nor too late; otherwise it is gone, and the caller is told which. */
  ghost predicate FinishedAs(cfg: Config, s: State, id: string, now: nat, later: nat, at: nat, t: State, error: Option<Error>)
    requires id in s.active
  {
    var r := s.active[id];
    if !r.cancelled && now < r.deadline then
      error == None && OnlyChanges(s.(peak := t.peak), id, r.(allocating := false), t)
    else if later >= r.deadline then error == Some(DeadlineExceeded) && RetiredAs(cfg, s, id, "expired", at, t)
    else error == Some(Error.Stopped) && RetiredAs(cfg, s, id, "cancelled", at, t)
  }

  lemma FinishedIs(cfg: Config, s: State, id: string, now: nat, later: nat, at: nat)
    requires id in s.active
    ensures var r := s.active[id];
            var error := if !r.cancelled && now < r.deadline then None
                         else if later >= r.deadline then Some(DeadlineExceeded) else Some(Error.Stopped);
            FinishedAs(cfg, s, id, now, later, at, Finished(cfg, s, id, now, later, at), error)
  {
    hide Retire, Count, LogsOne;
    var r := s.active[id];
    var usable := s.(active := s.active[id := r.(allocating := false)]);
    if r.cancelled || now >= r.deadline {
      RetiredEarlier(cfg, s, usable, id, if later >= r.deadline then "expired" else "cancelled", at);
    }
  }

  /** What the request itself looked like does not matter when it is gone. */
  lemma RetiredEarlier(cfg: Config, s: State, u: State, id: string, reason: string, at: nat)
    requires u == s.(active := u.active) && u.active.Keys == s.active.Keys && forall k :: k in s.active && k != id ==> u.active[k] == s.active[k]
    ensures RetiredAs(cfg, s, id, reason, at, Retire(cfg, u, id, reason, at))
  {
    RetireRetires(cfg, u, id, reason, at);
  }

  // ---------------------------------------------------------------------------- releases and cancellations

  /** A record that is not in the table any more is left alone. Otherwise it is gone, completed or for the first cause
      that stopped it, or else because its time had run out, or else because it failed. */
  ghost predicate ReleasedAs(cfg: Config, s: State, id: string, serial: nat, completed: bool, now: nat, at: nat, t: State) {
    if id !in s.active || s.active[id].serial != serial then t == s
    else
      var r := s.active[id];
      && (completed ==> RetiredAs(cfg, s, id, "completed", at, t))
      && (!completed && r.cause == Cancelled ==> RetiredAs(cfg, s, id, "cancelled", at, t))
      && (!completed && (r.cause == Expired || (r.cause == NotStopped && now >= r.deadline)) ==>
            RetiredAs(cfg, s, id, "expired", at, t))
      && (!completed && r.cause == NotStopped && now < r.deadline ==> RetiredAs(cfg, s, id, "failed", at, t))
  }

  lemma ReleaseIs(cfg: Config, s: State, id: string, serial: nat, completed: bool, now: nat, at: nat)
    ensures ReleasedAs(cfg, s, id, serial, completed, now, at, Release(cfg, s, id, serial, completed, now, at))
  {
    hide Retire, RetiredAs;
    if id in s.active {
      RetireRetires(cfg, s, id, ReleaseReason(s.active[id], completed, now), at);
    }
  }

  /** A request in use is told to stop, and one that nobody uses is gone. */
  ghost predicate CancelledAs(cfg: Config, s: State, id: string, at: nat, t: State) {
    if id !in s.active then t == s
    else if s.active[id].running || s.active[id].allocating then
      id in t.active && Stopped(s.active[id], Cancelled, t.active[id]) && OnlyChanges(s, id, t.active[id], t)
    else RetiredAs(cfg, s, id, "cancelled", at, t)
  }

  lemma CancelIs(cfg: Config, s: State, id: string, at: nat)
    ensures CancelledAs(cfg, s, id, at, Cancel(cfg, s, id, at))
  {
    hide Retire, RetiredAs;
    if id in s.active {
      RetiredEarlier(cfg, s, s.(active := s.active[id := Stop(s.active[id], Cancelled)]), id, "cancelled", at);
    }
  }

  /** A watchdog stops the record that it knows, and no other. */
  lemma WatchedIs(s: State, id: string, serial: nat, cause: StopCause)
    ensures var t := Watched(s, id, serial, cause);
            if id in s.active && s.active[id].serial == serial then
              id in t.active && Stopped(s.active[id], cause, t.active[id]) && OnlyChanges(s, id, t.active[id], t)
            else t == s
  {}

  // ---------------------------------------------------------------------------- loading and unloading

  /** What a load request leaves of a pruned state, and which error it gets. */
  predicate LoadedAs(cfg: Config, s: State, spec: Spec, built: Built, t: State, error: Option<Error>) {
    var room := 1 <= cfg.maximumDecodeBatch <= 8;
    && (s.deployment.Some? && s.deployment.value.spec == spec ==> error == None && t == s)
    && (s.deployment.Some? && s.deployment.value.spec != spec ==> error == Some(InvalidRequest) && t == s)
    && (s.deployment.None? ==>
          && (built.Invalid? ==> error == Some(built.error) && t == s)
          && (!built.Invalid? && !room ==> error == Some(InvalidRequest) && t == s)
          && (built.Failed? && room ==> error == Some(built.error) && t == s)
          && (built.Built? && room ==>
                var w := built.weights;
                && (w.pinned > w.host ==> error == Some(Internal) && t == s)
                && (w.pinned <= w.host && !(forall d: Domain :: w.Of(d) <= cfg.capacity.Of(d)) ==>
                      error == Some(ResourceExhausted) && t == s)
                && (w.pinned <= w.host && (forall d: Domain :: w.Of(d) <= cfg.capacity.Of(d)) ==>
                      && error == None && t.deployment == Some(Deployment(s.generations, spec, w, built.batches))
                      && t == s.(deployment := t.deployment, generations := s.generations + 1))))
  }

  lemma LoadIs(cfg: Config, s: State, spec: Spec, built: Built)
    ensures match Load(cfg, s, spec, built)
            case Ok(t) => LoadedAs(cfg, s, spec, built, t, None)
            case Err(e) => LoadedAs(cfg, s, spec, built, s, Some(e))
  {}

  /** The deployment named goes away if no request is there; nothing else goes. */
  predicate UnloadedAs(s: State, plan: string, version: nat, t: State, error: Option<Error>) {
    && (s.deployment.None? ==> error == None && t == s)
    && (s.deployment.Some? ==>
          var spec := s.deployment.value.spec;
          if spec.plan == plan && spec.version == version && s.active == map[]
          then error == None && t == s.(deployment := None)
          else error == Some(InvalidRequest) && t == s)
  }

  lemma UnloadIs(s: State, plan: string, version: nat)
    ensures match Unload(s, plan, version)
            case Ok(t) => UnloadedAs(s, plan, version, t, None)
            case Err(e) => UnloadedAs(s, plan, version, s, Some(e))
  {}
}
