/** What every critical section of the control service keeps. */
module AdmissionSafety {
  import opened Numbers
  import opened Results
  import opened Memory
  import opened Admission

  // ---------------------------------------------------------------------------- the log

  /** The requests that a log says are admitted and not retired. */
  function Replay(h: seq<Event>): set<string> {
    if h == [] then {}
    else
      var before, e := Replay(h[..|h| - 1]), h[|h| - 1];
      if e.kind == Admitted then before + {e.id} else before - {e.id}
  }

  /** Numbered from one without gaps; each request is admitted and retired alternately; every
      concurrent request was itself admitted and not retired at the time. */
  ghost predicate Exact(h: seq<Event>) {
    h == [] ||
    var before, e := h[..|h| - 1], h[|h| - 1];
    && Exact(before)
    && e.sequence == |h|
    && (e.kind == Retired <==> e.id in Replay(before))
    && e.id !in e.concurrent && e.concurrent <= Replay(before)
  }

  // ---------------------------------------------------------------------------- the invariant

  /** The cached tokens stay within their limit. */
  ghost predicate Short(cfg: Config, active: map<string, Request>) {
    var length := Sum(Lengths(active), active.Keys);
    length <= MAXIMUM_SIZE && (cfg.maximumCachedTokens != 0 ==> length <= cfg.maximumCachedTokens)
  }

  /** Weights, caches and the largest workspaces stay within every memory domain. */
  ghost predicate Fits(cfg: Config, s: State) {
    && Short(cfg, s.active)
    && (s.deployment.Some? ==>
         forall d: Domain :: Reserved(s.deployment.value.weights, s.active, PassRows(cfg, s), d) <= cfg.capacity.Of(d))
  }

  predicate ValidRequest(s: State, r: Request) {
    && r.serial < s.issued
    && (r.sequence.Some? ==> s.deployment.Some? && r.sequence.value == s.deployment.value.generation)
    && (r.allocating || r.sequence.Some?)
    && (r.running ==> !r.allocating)
    && (r.cancelled <==> r.cause != NotStopped)
  }

  predicate ValidDeployment(cfg: Config, s: State) {
    match s.deployment
    case None => s.active == map[]
    case Some(d) => d.generation < s.generations && 1 <= cfg.maximumDecodeBatch <= 8
  }

  /** Everything but the log. */
  ghost predicate Sound(cfg: Config, s: State) {
    && ValidDeployment(cfg, s)
    && (forall k :: k in s.active ==> ValidRequest(s, s.active[k]))
    && (forall j, k :: j in s.active && k in s.active && s.active[j].serial == s.active[k].serial ==> j == k)
    && |s.active| <= cfg.maximumActive
    && Fits(cfg, s)
    && Count(s.active) <= s.peak
  }

  ghost predicate Logged(cfg: Config, s: State) {
    if cfg.observations then Exact(s.history) && Replay(s.history) == s.active.Keys else s.history == []
  }

  ghost predicate Invariant(cfg: Config, s: State) {
    Sound(cfg, s) && Logged(cfg, s)
  }

  lemma EmptyIsValid(cfg: Config)
    ensures Invariant(cfg, EMPTY)
  {}

  /** The reservation only depends on the amounts, and shrinks with the set of requests. */
  lemma ReservedShrinks(weights: Amounts, small: map<string, Request>, large: map<string, Request>, rows: nat, d: Domain)
    requires small.Keys <= large.Keys
    requires forall k :: k in small ==> small[k].cache == large[k].cache && small[k].workspace == large[k].workspace
    ensures Reserved(weights, small, rows, d) <= Reserved(weights, large, rows, d)
  {
    SumAgrees(Caches(small, d), Caches(large, d), small.Keys);
    SumGrows(Caches(large, d), small.Keys, large.Keys);
    TopAgrees(Workspaces(small, d), Workspaces(large, d), small.Keys, rows);
    TopShrinks(Workspaces(large, d), small.Keys, large.Keys, rows);
  }

  lemma ShortShrinks(cfg: Config, small: map<string, Request>, large: map<string, Request>)
    requires Short(cfg, large) && small.Keys <= large.Keys && forall k :: k in small ==> small[k].tokens == large[k].tokens
    ensures Short(cfg, small)
  {
    SumAgrees(Lengths(small), Lengths(large), small.Keys);
    SumGrows(Lengths(large), small.Keys, large.Keys);
  }

  lemma CountGrows(small: map<string, Request>, large: map<string, Request>)
    requires forall k :: k in small && !small[k].allocating ==> k in large && !large[k].allocating
    ensures Count(small) <= Count(large)
  {
    SubsetSize(set k | k in small && !small[k].allocating, set k | k in large && !large[k].allocating);
  }

  lemma {:induction false} SubsetSize<T>(a: set<T>, b: set<T>)
    requires a <= b
    ensures |a| <= |b|
  {
    if a != {} {
      var x :| x in a;
      SubsetSize(a - {x}, b - {x});
    }
  }

  lemma SameSize<V, W>(a: map<string, V>, b: map<string, W>)
    requires a.Keys == b.Keys
    ensures |a| == |b|
  {
    assert |a| == |a.Keys| && |b| == |b.Keys|;
  }

  lemma SmallerFits(cfg: Config, s: State, active: map<string, Request>)
    requires s.deployment.Some? && Fits(cfg, s) && active.Keys <= s.active.Keys
    requires forall k :: k in active ==> SameRecord(active[k], s.active[k])
    ensures Fits(cfg, s.(active := active))
  {
    hide Short;
    ShortShrinks(cfg, active, s.active);
    forall d: Domain
      ensures Reserved(s.deployment.value.weights, active, PassRows(cfg, s), d) <= cfg.capacity.Of(d)
    {
      ReservedShrinks(s.deployment.value.weights, active, s.active, PassRows(cfg, s), d);
    }
  }

  predicate SameRecord(r: Request, q: Request) {
    && r.serial == q.serial && r.tokens == q.tokens && r.queryTokens == q.queryTokens && r.cache == q.cache
    && r.workspace == q.workspace && r.admitted == q.admitted
  }

  /** Changing requests' flags or shortening their deadlines keeps the invariant. */
  lemma UpdatesKeep(cfg: Config, s: State, active: map<string, Request>)
    requires Invariant(cfg, s) && active.Keys == s.active.Keys
    requires forall k :: k in active ==> SameRecord(active[k], s.active[k]) && ValidRequest(s, active[k])
    requires Count(active) <= s.peak
    ensures Invariant(cfg, s.(active := active))
  {
    if s.deployment.Some? {
      SmallerFits(cfg, s, active);
    } else {
      assert active.Keys == {};
      assert active == map[];
    }
    SameSize(active, s.active);
  }

  lemma SoundIgnoresLog(cfg: Config, s: State, history: seq<Event>)
    requires Sound(cfg, s)
    ensures Sound(cfg, s.(history := history))
  {}

  lemma RemovalKeepsSound(cfg: Config, s: State, id: string)
    requires Sound(cfg, s) && id in s.active
    ensures Sound(cfg, s.(active := s.active - {id}))
  {
    var active := s.active - {id};
    assert |active| == |active.Keys| && active.Keys == s.active.Keys - {id};
    SmallerFits(cfg, s, active);
    CountGrows(active, s.active);
  }

  lemma RetireKeeps(cfg: Config, s: State, id: string, reason: string, at: nat)
    requires Invariant(cfg, s) && id in s.active
    ensures Invariant(cfg, Retire(cfg, s, id, reason, at))
  {
    hide Sound, Exact;
    RemovalKeepsSound(cfg, s, id);
    var removed := s.(active := s.active - {id});
    LogKeepsExact(cfg, removed, Retired, id, reason, at, s.active.Keys);
    SoundIgnoresLog(cfg, removed, Log(cfg, removed, Retired, id, reason, at).history);
  }

  lemma LogKeepsExact(cfg: Config, s: State, kind: Kind, id: string, reason: string, at: nat, before: set<string>)
    requires if cfg.observations then Exact(s.history) && Replay(s.history) == before else s.history == []
    requires kind == Retired <==> id in before
    requires s.active.Keys == if kind == Admitted then before + {id} else before - {id}
    ensures var after := Log(cfg, s, kind, id, reason, at);
            && after == s.(history := after.history) && Logged(cfg, after)
  {
    if cfg.observations {
      var h := Log(cfg, s, kind, id, reason, at).history;
      assert h[..|h| - 1] == s.history;
    }
  }

  function Members(order: seq<string>): set<string> {
    set k | k in order
  }

  /** Retirement removes exactly the listed requests and touches nothing but the log. */
  lemma {:induction false} RetireAllRemoves(cfg: Config, s: State, order: seq<string>, reason: string, at: nat)
    ensures var after := RetireAll(cfg, s, order, reason, at);
            after == s.(active := s.active - Members(order), history := after.history)
    decreases |order|
  {
    if order == [] {
      assert s.active - {} == s.active;
    } else {
      RetireAllRemoves(cfg, Retire(cfg, s, order[0], reason, at), order[1..], reason, at);
      assert Members(order) == {order[0]} + Members(order[1..]);
      assert s.active - Members(order) == s.active - {order[0]} - Members(order[1..]);
    }
  }

  lemma {:induction false} RetireAllKeeps(cfg: Config, s: State, order: seq<string>, reason: string, at: nat)
    requires Invariant(cfg, s) && forall i :: 0 <= i < |order| ==> order[i] in s.active
    requires forall i, j :: 0 <= i < j < |order| ==> order[i] != order[j]
    ensures Invariant(cfg, RetireAll(cfg, s, order, reason, at))
    decreases |order|
  {
    hide Invariant;
    if order != [] {
      RetireKeeps(cfg, s, order[0], reason, at);
      RetireAllKeeps(cfg, Retire(cfg, s, order[0], reason, at), order[1..], reason, at);
    }
  }

  // ---------------------------------------------------------------------------- each section

  lemma FlaggedKeeps(cfg: Config, s: State, seen: Readings)
    requires Invariant(cfg, s)
    ensures Invariant(cfg, s.(active := Flagged(s.active, seen)))
  {
    hide Fits, Exact;
    var flagged := Flagged(s.active, seen);
    assert flagged.Keys == s.active.Keys;
    CountGrows(flagged, s.active);
    UpdatesKeep(cfg, s, flagged);
  }

  lemma PruneKeeps(cfg: Config, s: State, order: seq<string>, seen: Readings, at: nat)
    requires Invariant(cfg, s) && Visits(order, Abandoned(s.active, seen))
    ensures Invariant(cfg, Prune(cfg, s, order, seen, at))
  {
    hide Invariant;
    FlaggedKeeps(cfg, s, seen);
    forall i | 0 <= i < |order|
      ensures order[i] in Flagged(s.active, seen)
    {
      assert order[i] in Abandoned(s.active, seen);
    }
    RetireAllKeeps(cfg, s.(active := Flagged(s.active, seen)), order, "expired", at);
  }

  /** What a pruned state is: flagged, and without the abandoned requests. */
  lemma PruneRemoves(cfg: Config, s: State, order: seq<string>, seen: Readings, at: nat)
    requires Visits(order, Abandoned(s.active, seen))
    ensures var after := Prune(cfg, s, order, seen, at);
            after == s.(active := Flagged(s.active, seen) - Abandoned(s.active, seen), history := after.history)
  {
    RetireAllRemoves(cfg, s.(active := Flagged(s.active, seen)), order, "expired", at);
    assert Members(order) == Abandoned(s.active, seen);
  }

  lemma ReplaceKeeps(cfg: Config, s: State, id: string, r: Request)
    requires Invariant(cfg, s) && id in s.active
    requires SameRecord(r, s.active[id]) && ValidRequest(s, r) && (s.active[id].allocating ==> r.allocating)
    ensures Invariant(cfg, s.(active := s.active[id := r]))
  {
    var active := s.active[id := r];
    assert active.Keys == s.active.Keys;
    CountGrows(active, s.active);
    UpdatesKeep(cfg, s, active);
  }

  lemma ActiveIsValid(cfg: Config, s: State, id: string)
    requires Invariant(cfg, s) && id in s.active
    ensures ValidRequest(s, s.active[id]) && s.deployment.Some?
  {}

  lemma AffordableFits(cfg: Config, s: State, grown: map<string, Request>)
    requires s.deployment.Some? && OverBudget(cfg, s, grown).None?
    ensures Fits(cfg, s.(active := grown))
  {
    hide Sum, Top;
    var used := ReservedAmounts(s.deployment.value.weights, grown, PassRows(cfg, s));
    assert Within(used, cfg.capacity);
    forall d: Domain
      ensures Reserved(s.deployment.value.weights, grown, PassRows(cfg, s), d) <= cfg.capacity.Of(d)
    {
      assert used.Of(d) == Reserved(s.deployment.value.weights, grown, PassRows(cfg, s), d);
    }
  }

  lemma JudgedReserve(cfg: Config, s: State, a: Ask, now: nat)
    requires s.deployment.Some? && a.id !in s.active && Judge(cfg, s, a, now).Ok?
    ensures Judge(cfg, s, a, now) == Ok(Reserve) && Deadline(a, now).Ok? && a.need.Ok? && |s.active| < cfg.maximumActive
    ensures OverBudget(cfg, s, s.active[a.id := Candidate(s, a, Deadline(a, now).value, 0)]).None?
  {
    hide OverBudget;
  }

  /** The amounts judged are the amounts reserved: only the admission time is not yet known. */
  lemma JudgedFits(cfg: Config, s: State, a: Ask, now: nat, admitted: nat)
    requires s.deployment.Some? && a.id !in s.active && Judge(cfg, s, a, now).Ok?
    ensures Judge(cfg, s, a, now) == Ok(Reserve) && Deadline(a, now).Ok? && a.need.Ok? && |s.active| < cfg.maximumActive
    ensures var r := Candidate(s, a, Deadline(a, now).value, admitted);
            Fits(cfg, s.(active := s.active[a.id := r], issued := s.issued + 1))
  {
    hide OverBudget, Reserved, Judge;
    JudgedReserve(cfg, s, a, now);
    var deadline := Deadline(a, now).value;
    var judged := s.active[a.id := Candidate(s, a, deadline, 0)];
    var grown := s.active[a.id := Candidate(s, a, deadline, admitted)];
    AffordableFits(cfg, s, judged);
    ShortShrinks(cfg, grown, judged);
    var weights, rows := s.deployment.value.weights, PassRows(cfg, s);
    forall d: Domain
      ensures Reserved(weights, grown, rows, d) <= cfg.capacity.Of(d)
    {
      ReservedShrinks(weights, grown, judged, rows, d);
      assert PassRows(cfg, s.(active := judged)) == rows;
    }
  }

  lemma AdmissionKeeps(cfg: Config, s: State, a: Ask, r: Request, deadline: nat)
    requires Sound(cfg, s) && s.deployment.Some? && a.id !in s.active && |s.active| < cfg.maximumActive
    requires a.need.Ok? && r == Candidate(s, a, deadline, r.admitted)
    requires Fits(cfg, s.(active := s.active[a.id := r], issued := s.issued + 1))
    ensures Sound(cfg, s.(active := s.active[a.id := r], issued := s.issued + 1))
  {
    hide Fits;
    var grown := s.active[a.id := r];
    assert grown.Keys == s.active.Keys + {a.id};
    assert |grown| == |grown.Keys| && |s.active| == |s.active.Keys|;
    CountGrows(grown, s.active);
  }

  lemma JudgedDeadline(cfg: Config, s: State, a: Ask, now: nat)
    requires s.deployment.Some? && Judge(cfg, s, a, now).Ok?
    ensures Deadline(a, now).Ok? && (a.id in s.active <==> Judge(cfg, s, a, now).value == Reuse)
    ensures a.id in s.active ==>
              && !s.active[a.id].allocating && !s.active[a.id].cancelled
              && s.active[a.id].tokens == a.tokens && s.active[a.id].queryTokens == QueryRows(a.tokens, a.chunk)
    ensures a.id !in s.active ==> a.need.Ok?
  {
    hide OverBudget;
  }

  /** The state after a reservation request, refused or not. */
  ghost function Judged(cfg: Config, s: State, a: Ask, now: nat, admitted: nat, at: nat): State
    requires s.deployment.Some?
  {
    match Judge(cfg, s, a, now)
    case Err(_) => s
    case Ok(verdict) =>
      JudgedDeadline(cfg, s, a, now);
      Granted(cfg, s, a, verdict, now, admitted, at)
  }

  lemma GrantedKeeps(cfg: Config, s: State, a: Ask, now: nat, admitted: nat, at: nat)
    requires Invariant(cfg, s) && s.deployment.Some? && Judge(cfg, s, a, now).Ok?
    ensures Invariant(cfg, Granted(cfg, s, a, Judge(cfg, s, a, now).value, now, admitted, at))
  {
    hide Sound, Fits, Judge, OverBudget, Exact;
    JudgedDeadline(cfg, s, a, now);
    var deadline := Deadline(a, now).value;
    if a.id in s.active {
      ActiveIsValid(cfg, s, a.id);
      ReplaceKeeps(cfg, s, a.id, Shortened(s.active[a.id], deadline));
    } else {
      JudgedFits(cfg, s, a, now, admitted);
      AdmissionKeeps(cfg, s, a, Candidate(s, a, deadline, admitted), deadline);
      var grown := s.(active := s.active[a.id := Candidate(s, a, deadline, admitted)], issued := s.issued + 1);
      LogKeepsExact(cfg, grown, Admitted, a.id, "", at, s.active.Keys);
      SoundIgnoresLog(cfg, grown, Log(cfg, grown, Admitted, a.id, "", at).history);
    }
  }

  lemma AllocatedKeeps(cfg: Config, s: State, id: string, generation: nat)
    requires Invariant(cfg, s) && id in s.active && s.deployment.Some? && generation == s.deployment.value.generation
    ensures Invariant(cfg, Allocated(s, id, generation))
  {
    ReplaceKeeps(cfg, s, id, s.active[id].(sequence := Some(generation)));
  }

  lemma FinishedKeeps(cfg: Config, s: State, id: string, now: nat, later: nat, at: nat)
    requires Invariant(cfg, s) && id in s.active && s.active[id].sequence.Some?
    ensures Invariant(cfg, Finished(cfg, s, id, now, later, at))
  {
    hide Invariant, Count, ValidRequest, Retire;
    var active := s.active[id := s.active[id].(allocating := false)];
    if active[id].cancelled || now >= active[id].deadline {
      UsableRetires(cfg, s, id, if later >= active[id].deadline then "expired" else "cancelled", at);
    } else {
      UsableKeeps(cfg, s, id, if s.peak < Count(active) then Count(active) else s.peak);
    }
  }

  lemma UsableKeeps(cfg: Config, s: State, id: string, peak: nat)
    requires Invariant(cfg, s) && id in s.active && s.active[id].sequence.Some?
    requires s.peak <= peak && Count(s.active[id := s.active[id].(allocating := false)]) <= peak
    ensures Invariant(cfg, s.(active := s.active[id := s.active[id].(allocating := false)], peak := peak))
  {
    hide Exact, Count, Fits;
    var active := s.active[id := s.active[id].(allocating := false)];
    assert active.Keys == s.active.Keys;
    PeakKeeps(cfg, s, peak);
    UpdatesKeep(cfg, s.(peak := peak), active);
  }

  lemma PeakKeeps(cfg: Config, s: State, peak: nat)
    requires Invariant(cfg, s) && s.peak <= peak
    ensures Invariant(cfg, s.(peak := peak))
  {}

  /** A request leaving as it becomes usable never counted. */
  lemma UsableRetires(cfg: Config, s: State, id: string, reason: string, at: nat)
    requires Invariant(cfg, s) && id in s.active
    ensures Invariant(cfg, Retire(cfg, s.(active := s.active[id := s.active[id].(allocating := false)]), id, reason, at))
  {
    hide Sound, Logged;
    var usable := s.(active := s.active[id := s.active[id].(allocating := false)]);
    assert usable.active - {id} == s.active - {id};
    assert Concurrent(usable.active - {id}, id) == Concurrent(s.active - {id}, id);
    RetireKeeps(cfg, s, id, reason, at);
  }

  lemma AllocationFailedKeeps(cfg: Config, s: State, id: string, at: nat)
    requires Invariant(cfg, s)
    ensures Invariant(cfg, AllocationFailed(cfg, s, id, at))
  {
    hide Invariant;
    if id in s.active {
      RetireKeeps(cfg, s, id, "allocation-failed", at);
    }
  }

  lemma ClaimedKeeps(cfg: Config, s: State, id: string)
    requires Invariant(cfg, s) && id in s.active && !s.active[id].allocating
    ensures Invariant(cfg, Claimed(s, id))
  {
    ReplaceKeeps(cfg, s, id, s.active[id].(running := true));
  }

  lemma ReleaseKeeps(cfg: Config, s: State, id: string, serial: nat, completed: bool, now: nat, at: nat)
    requires Invariant(cfg, s)
    ensures Invariant(cfg, Release(cfg, s, id, serial, completed, now, at))
  {
    hide Invariant;
    if id in s.active && s.active[id].serial == serial {
      RetireKeeps(cfg, s, id, ReleaseReason(s.active[id], completed, now), at);
    }
  }

  lemma StopKeeps(cfg: Config, s: State, id: string, cause: StopCause)
    requires Invariant(cfg, s) && id in s.active && cause != NotStopped
    ensures Invariant(cfg, s.(active := s.active[id := Stop(s.active[id], cause)]))
  {
    ReplaceKeeps(cfg, s, id, Stop(s.active[id], cause));
  }

  lemma CancelKeeps(cfg: Config, s: State, id: string, at: nat)
    requires Invariant(cfg, s)
    ensures Invariant(cfg, Cancel(cfg, s, id, at))
  {
    hide Invariant;
    if id in s.active {
      StopKeeps(cfg, s, id, Cancelled);
      var stopped := s.(active := s.active[id := Stop(s.active[id], Cancelled)]);
      if !(stopped.active[id].running || stopped.active[id].allocating) {
        RetireKeeps(cfg, stopped, id, "cancelled", at);
      }
    }
  }

  lemma WatchedKeeps(cfg: Config, s: State, id: string, serial: nat, cause: StopCause)
    requires Invariant(cfg, s) && cause != NotStopped
    ensures Invariant(cfg, Watched(s, id, serial, cause))
  {
    hide Invariant;
    if id in s.active {
      StopKeeps(cfg, s, id, cause);
    }
  }

  lemma LoadKeeps(cfg: Config, s: State, spec: Spec, built: Built)
    requires Invariant(cfg, s)
    ensures Load(cfg, s, spec, built).Ok? ==> Invariant(cfg, Load(cfg, s, spec, built).value)
  {
    if s.deployment.None? && Load(cfg, s, spec, built).Ok? {
      var weights := built.weights;
      forall d: Domain
        ensures Reserved(weights, map[], PassRows(cfg, Load(cfg, s, spec, built).value), d) <= cfg.capacity.Of(d)
      {
        assert Within(weights, cfg.capacity);
      }
    }
  }

  lemma UnloadKeeps(cfg: Config, s: State, plan: string, version: nat)
    requires Invariant(cfg, s)
    ensures Unload(s, plan, version).Ok? ==> Invariant(cfg, Unload(s, plan, version).value)
  {}

  // ---------------------------------------------------------------------------- stale owners

  /** Returning a record that is no longer in the table, whatever has taken its place, changes nothing. */
  lemma StaleReleaseIsHarmless(cfg: Config, s: State, id: string, serial: nat, completed: bool, now: nat, at: nat)
    requires id in s.active ==> s.active[id].serial != serial
    ensures Release(cfg, s, id, serial, completed, now, at) == s
  {}
}
