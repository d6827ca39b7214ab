/** What holds in every reachable state of a worker, whatever its callers do and whenever they do it. */
module WorldSafety {
  import opened Results
  import opened Memory
  import opened Admission
  import opened AdmissionSafety
  import opened Evolution
  import opened World
  import opened Ownership
  import Batch
  import Scheduling
  import Stage

  // ---------------------------------------------------------------------------- callers and tickets

  predicate Waits(sched: Scheduling.Sched, leases: map<nat, Lease>, t: nat)
    requires t in sched.tickets
  {
    sched.tickets[t].item.sequence in leases && leases[sched.tickets[t].item.sequence].ticket == Some(t)
  }

  predicate Knows(sched: Scheduling.Sched, n: nat, l: Lease) {
    l.ticket.Some? ==> l.ticket.value in sched.tickets && sched.tickets[l.ticket.value].item.sequence == n
  }

  /** Each ticket is that of the one owner whose sequence it works on, and each owner waits for at most one. */
  ghost predicate Attached(sched: Scheduling.Sched, leases: map<nat, Lease>) {
    && (forall t :: t in sched.tickets ==> Waits(sched, leases, t))
    && forall n :: n in leases ==> Knows(sched, n, leases[n])
  }

  /** A pass takes no more requests than admission allows for. */
  predicate Sized(cfg: Config, s: State, sched: Scheduling.Sched) {
    s.deployment.Some? ==> sched.maximumDecodeBatch == cfg.maximumDecodeBatch && |sched.dispatch| <= PassRows(cfg, s)
  }

  ghost predicate Safe(cfg: Config, w: World) {
    && Invariant(cfg, w.control) && Owned(w.control, w.reserving, w.leases, w.returned)
    && Scheduling.Valid(w.sched) && Attached(w.sched, w.leases) && Sized(cfg, w.control, w.sched)
  }

  lemma StartIsSafe(cfg: Config)
    ensures Safe(cfg, START)
  {
    EmptyIsValid(cfg);
    Scheduling.IdleIsValid();
  }

  // ---------------------------------------------------------------------------- control sections

  lemma RetainingIsSafe(cfg: Config, w: World, t: State)
    requires Safe(cfg, w) && Invariant(cfg, t) && Retains(w.control, t)
    ensures Safe(cfg, w.(control := t))
  {
    hide Invariant, Owned, Scheduling.Valid, Attached;
    RetainsOwned(w.control, t, w.reserving, w.leases, w.returned);
  }

  lemma PrunedIsSafe(cfg: Config, w: World, order: seq<string>, seen: Readings, at: nat)
    requires Safe(cfg, w) && PrunedBy(w.control, order, seen)
    ensures Safe(cfg, w.(control := Prune(cfg, w.control, order, seen, at)))
    ensures Prune(cfg, w.control, order, seen, at).deployment == w.control.deployment
  {
    hide Safe, Prune, Invariant;
    SafeIsInvariant(cfg, w);
    PruneKeeps(cfg, w.control, order, seen, at);
    PruneRetains(cfg, w.control, order, seen, at);
    RetainingIsSafe(cfg, w, Prune(cfg, w.control, order, seen, at));
  }

  lemma SafeIsInvariant(cfg: Config, w: World)
    requires Safe(cfg, w)
    ensures Invariant(cfg, w.control)
  {}

  lemma SomebodyIsThere(cfg: Config, w: World)
    requires Safe(cfg, w) && (w.reserving != map[] || w.leases != map[] || w.sched.tickets != map[])
    ensures w.control.active != map[]
  {
    hide Invariant, Scheduling.Valid;
    if w.reserving != map[] {
      var n :| n in w.reserving;
      assert Reserver(w.control, n, w.reserving[n]);
    } else {
      var n: nat;
      if w.leases != map[] {
        n :| n in w.leases;
      } else {
        var t :| t in w.sched.tickets;
        assert Waits(w.sched, w.leases, t);
        n := w.sched.tickets[t].item.sequence;
      }
      assert Owner(w.control, n, w.leases[n]);
    }
  }

  /** With no request there is no reserver, no owner, and no ticket. */
  lemma NobodyIsThere(cfg: Config, w: World)
    requires Safe(cfg, w) && w.control.active == map[]
    ensures w.reserving == map[] && w.leases == map[] && w.sched.tickets == map[]
  {
    if w.reserving != map[] || w.leases != map[] || w.sched.tickets != map[] {
      SomebodyIsThere(cfg, w);
    }
  }

  lemma InactiveWithout(cfg: Config, s: State)
    requires Invariant(cfg, s) && s.deployment.None?
    ensures s.active == map[]
  {}

  lemma GoneStays(s: State, t: State, reserving: map<nat, Reservation>, leases: map<nat, Lease>, returned: map<nat, string>)
    requires Owned(s, reserving, leases, returned) && reserving == map[] && leases == map[]
    requires s.active == map[] && t.active == map[] && t.issued == s.issued
    ensures Owned(t, reserving, leases, returned)
  {
    forall n | n in returned
      ensures Gone(t, n)
    {
      assert Gone(s, n);
    }
  }

  lemma LoadedIsSafe(cfg: Config, w: World, spec: Spec, built: Built)
    requires Safe(cfg, w)
    ensures Safe(cfg, Loaded(cfg, w, w.control, spec, built))
  {
    hide Invariant, Owned;
    LoadKeeps(cfg, w.control, spec, built);
    if w.control.deployment.None? && Admission.Load(cfg, w.control, spec, built).Ok? {
      InactiveWithout(cfg, w.control);
      NobodyIsThere(cfg, w);
      var t := Admission.Load(cfg, w.control, spec, built).value;
      GoneStays(w.control, t, w.reserving, w.leases, w.returned);
      FreshScheduler(cfg.maximumDecodeBatch);
    }
  }

  lemma FreshScheduler(maximum: nat)
    requires 1 <= maximum <= 8
    ensures Scheduling.Valid(Scheduling.IDLE.(maximumDecodeBatch := maximum))
  {
    Scheduling.IdleIsValid();
    Scheduling.ConfigureKeeps(Scheduling.IDLE, maximum);
  }

  lemma UnloadedIsSafe(cfg: Config, w: World, plan: string, version: nat)
    requires Safe(cfg, w)
    ensures Safe(cfg, Unloaded(w, w.control, plan, version))
  {
    hide Invariant, Owned;
    UnloadKeeps(cfg, w.control, plan, version);
    if w.control.deployment.Some? && Admission.Unload(w.control, plan, version).Ok? {
      NobodyIsThere(cfg, w);
      GoneStays(w.control, w.control.(deployment := None), w.reserving, w.leases, w.returned);
      Scheduling.IdleIsValid();
    }
  }

  // ---------------------------------------------------------------------------- reservers and owners

  lemma NewOwnerAttached(sched: Scheduling.Sched, leases: map<nat, Lease>, n: nat, l: Lease)
    requires Attached(sched, leases) && n !in leases && l.ticket.None?
    ensures Attached(sched, leases[n := l])
  {
    var more := leases[n := l];
    forall t | t in sched.tickets
      ensures Waits(sched, more, t)
    {
      assert Waits(sched, leases, t);
    }
    forall m | m in more
      ensures Knows(sched, m, more[m])
    {
      assert m in leases ==> Knows(sched, m, leases[m]);
    }
  }

  lemma OwnerLeftAttached(sched: Scheduling.Sched, leases: map<nat, Lease>, n: nat)
    requires Attached(sched, leases) && (n in leases ==> leases[n].ticket.None?)
    ensures Attached(sched, leases - {n})
  {
    forall t | t in sched.tickets
      ensures Waits(sched, leases - {n}, t)
    {
      assert Waits(sched, leases, t);
    }
    forall m | m in leases && m != n
      ensures Knows(sched, m, leases[m])
    {}
  }

  lemma ClaimingIsSafe(cfg: Config, w: World, id: string, tokens: nat, chunk: nat)
    requires Safe(cfg, w) && id in w.control.active && !w.control.active[id].allocating && w.control.deployment.Some?
    requires LongAs(w.control.active[id], tokens, chunk)
    ensures Safe(cfg, Claiming(w, id, tokens, chunk))
  {
    hide Invariant, Owned, Scheduling.Valid, Attached;
    if !w.control.active[id].running {
      var n := w.control.active[id].serial;
      ClaimedKeeps(cfg, w.control, id);
      ClaimOwned(cfg, w.control, id, tokens, chunk, w.reserving, w.leases, w.returned);
      NewOwnerAttached(w.sched, w.leases, n, Lease(id, w.control.deployment.value.generation, None, tokens, chunk));
    }
  }

  lemma GrantedIsSafe(cfg: Config, w: World, a: Ask, claim: bool, now: nat, admitted: nat, at: nat)
    requires Safe(cfg, w) && w.control.deployment.Some? && Judge(cfg, w.control, a, now).Ok? && a.id !in w.control.active
    ensures Judge(cfg, w.control, a, now) == Ok(Verdict.Reserve) && Deadline(a, now).Ok? && a.need.Ok?
    ensures Safe(cfg, w.(control := Granted(cfg, w.control, a, Verdict.Reserve, now, admitted, at),
                         reserving := w.reserving[w.control.issued := Reservation(a.id, w.control.deployment.value.generation, claim, a.tokens, a.chunk)]))
  {
    hide Invariant, Owned, Scheduling.Valid, Attached, Judge, Granted;
    JudgedDeadline(cfg, w.control, a, now);
    GrantedKeeps(cfg, w.control, a, now, admitted, at);
    GrantOwned(cfg, w.control, a, now, admitted, at, claim, w.reserving, w.leases, w.returned);
    GrantShape(cfg, w.control, a, now, admitted, at);
  }

  lemma ReusedIsSafe(cfg: Config, w: World, a: Ask, now: nat, admitted: nat, at: nat)
    requires Safe(cfg, w) && w.control.deployment.Some? && Judge(cfg, w.control, a, now).Ok? && a.id in w.control.active
    ensures Judge(cfg, w.control, a, now) == Ok(Reuse) && Deadline(a, now).Ok?
    ensures var t := Granted(cfg, w.control, a, Reuse, now, admitted, at);
            && Safe(cfg, w.(control := t)) && t.deployment == w.control.deployment
            && a.id in t.active && !t.active[a.id].allocating && LongAs(t.active[a.id], a.tokens, a.chunk)
  {
    hide Invariant, Safe, Judge, Granted;
    SafeIsInvariant(cfg, w);
    JudgedDeadline(cfg, w.control, a, now);
    GrantedKeeps(cfg, w.control, a, now, admitted, at);
    ReuseRetains(cfg, w.control, a, now, admitted, at);
    RetainingIsSafe(cfg, w, Granted(cfg, w.control, a, Reuse, now, admitted, at));
    ReusedShape(cfg, w.control, a, now, admitted, at);
  }

  lemma ReusedShape(cfg: Config, s: State, a: Ask, now: nat, admitted: nat, at: nat)
    requires Deadline(a, now).Ok? && a.id in s.active
    ensures var t := Granted(cfg, s, a, Reuse, now, admitted, at);
            && a.id in t.active && t.active[a.id].allocating == s.active[a.id].allocating && t.deployment == s.deployment
            && t.active[a.id].tokens == s.active[a.id].tokens && t.active[a.id].queryTokens == s.active[a.id].queryTokens
  {}

  lemma ReservingIsSafe(cfg: Config, w: World, plan: string, version: nat, stage: Option<nat>, a: Ask,
                        order: seq<string>, seen: Readings, now: nat, admitted: nat, at: nat)
    requires Safe(cfg, w) && PrunedBy(w.control, order, seen)
    ensures Safe(cfg, Reserving(cfg, w, plan, version, stage, a, order, seen, now, admitted, at))
  {
    hide Safe, Prune, Granted, Judge, Claiming;
    PrunedIsSafe(cfg, w, order, seen, at);
    var pruned := w.(control := Prune(cfg, w.control, order, seen, at));
    if Matches(w.control, plan, version) && Judge(cfg, pruned.control, a, now).Ok? {
      if a.id in pruned.control.active {
        ReusedIsSafe(cfg, pruned, a, now, admitted, at);
        if stage.Some? {
          ClaimingIsSafe(cfg, pruned.(control := Granted(cfg, pruned.control, a, Reuse, now, admitted, at)), a.id, a.tokens, a.chunk);
        }
      } else {
        GrantedIsSafe(cfg, pruned, a, stage.Some?, now, admitted, at);
      }
    }
  }

  lemma AllocatedIsSafe(cfg: Config, w: World, n: nat)
    requires Safe(cfg, w) && n in w.reserving
    ensures w.reserving[n].id in w.control.active
    ensures Safe(cfg, w.(control := Allocated(w.control, w.reserving[n].id, w.reserving[n].generation)))
  {
    hide Invariant, Owned, Scheduling.Valid, Attached;
    AllocatedOwned(cfg, w.control, n, w.reserving, w.leases, w.returned);
    AllocatedKeeps(cfg, w.control, w.reserving[n].id, w.reserving[n].generation);
  }

  lemma LosingIsSafe(cfg: Config, w: World, t: State, id: string, n: nat)
    requires Safe(cfg, w) && Invariant(cfg, t) && Loses(w.control, t, id, n) && (n in w.leases ==> w.leases[n].ticket.None?)
    ensures Safe(cfg, w.(control := t, reserving := w.reserving - {n}, leases := w.leases - {n})) && Gone(t, n)
  {
    hide Invariant, Owned, Scheduling.Valid, Attached;
    LosesOwned(cfg, w.control, t, id, n, w.reserving, w.leases, w.returned);
    OwnerLeftAttached(w.sched, w.leases, n);
  }

  lemma ReserverFinds(cfg: Config, w: World, n: nat)
    requires Safe(cfg, w) && n in w.reserving
    ensures Reserver(w.control, n, w.reserving[n]) && n !in w.leases && w.leases - {n} == w.leases
  {
    ReserverIsNoOwner(cfg, w.control, n, w.reserving, w.leases, w.returned);
  }

  lemma RetireLoses(cfg: Config, s: State, id: string, reason: string, at: nat)
    requires id in s.active
    ensures Loses(s, Retire(cfg, s, id, reason, at), id, s.active[id].serial)
  {}

  lemma FailedIsSafe(cfg: Config, w: World, n: nat, at: nat)
    requires Safe(cfg, w) && n in w.reserving
    ensures Safe(cfg, w.(control := AllocationFailed(cfg, w.control, w.reserving[n].id, at), reserving := w.reserving - {n}))
  {
    hide Safe, Invariant, Loses;
    SafeIsInvariant(cfg, w);
    ReserverFinds(cfg, w, n);
    AllocationFailedKeeps(cfg, w.control, w.reserving[n].id, at);
    RetireLoses(cfg, w.control, w.reserving[n].id, "allocation-failed", at);
    LosingIsSafe(cfg, w, AllocationFailed(cfg, w.control, w.reserving[n].id, at), w.reserving[n].id, n);
  }

  /** After allocation the request is either gone or usable. */
  lemma FinishedShape(cfg: Config, s: State, id: string, now: nat, later: nat, at: nat)
    requires id in s.active
    ensures var t := Finished(cfg, s, id, now, later, at);
            && t.deployment == s.deployment
            && if id in t.active
               then t == s.(active := s.active[id := s.active[id].(allocating := false)], peak := t.peak)
               else Loses(s, t, id, s.active[id].serial)
  {
    hide Log;
    var usable := s.(active := s.active[id := s.active[id].(allocating := false)]);
    assert usable.active - {id} == s.active - {id};
    LogOnlyLogs(cfg, usable.(active := usable.active - {id}), Retired, id,
                if later >= usable.active[id].deadline then "expired" else "cancelled", at);
  }

  lemma FinishingIsSafe(cfg: Config, w: World, n: nat, now: nat, later: nat, at: nat)
    requires Safe(cfg, w) && n in w.reserving && w.reserving[n].id in w.control.active
    requires w.control.active[w.reserving[n].id].sequence.Some?
    ensures Safe(cfg, Finishing(cfg, w, n, now, later, at))
  {
    hide Invariant, Owned, Scheduling.Valid, Attached, Finished, Loses, Claiming;
    var r := w.reserving[n];
    var t := Finished(cfg, w.control, r.id, now, later, at);
    ReserverFinds(cfg, w, n);
    FinishedKeeps(cfg, w.control, r.id, now, later, at);
    FinishedShape(cfg, w.control, r.id, now, later, at);
    var after := w.(control := t, reserving := w.reserving - {n});
    if r.id in t.active {
      UsableOwned(cfg, w.control, n, t.peak, w.reserving, w.leases, w.returned);
      assert Safe(cfg, after);
      if r.claim {
        ClaimingIsSafe(cfg, after, r.id, r.tokens, r.chunk);
      }
    } else {
      LosingIsSafe(cfg, w, t, r.id, n);
    }
  }

  lemma ReturnedAs(s: State, reserving: map<nat, Reservation>, leases: map<nat, Lease>, returned: map<nat, string>, n: nat, id: string)
    requires Owned(s, reserving, leases, returned) && Gone(s, n)
    ensures Owned(s, reserving, leases, returned[n := id])
  {
    forall m | m in returned[n := id]
      ensures Gone(s, m)
    {}
  }

  lemma ReleasedIsSafe(cfg: Config, w: World, n: nat, completed: bool, now: nat, at: nat)
    requires Safe(cfg, w) && n in w.leases && w.leases[n].ticket.None?
    ensures Safe(cfg, w.(control := Admission.Release(cfg, w.control, w.leases[n].id, n, completed, now, at),
                         leases := w.leases - {n}, returned := w.returned[n := w.leases[n].id]))
  {
    hide Invariant, Owned, Scheduling.Valid, Attached, Retire, Loses, Gone;
    var id := w.leases[n].id;
    OwnerIsNoReserver(cfg, w.control, n, w.reserving, w.leases, w.returned);
    assert w.reserving - {n} == w.reserving;
    var t := Admission.Release(cfg, w.control, id, n, completed, now, at);
    ReleaseKeeps(cfg, w.control, id, n, completed, now, at);
    RetireLoses(cfg, w.control, id, ReleaseReason(w.control.active[id], completed, now), at);
    LosingIsSafe(cfg, w, t, id, n);
    ReturnedAs(t, w.reserving, w.leases - {n}, w.returned, n, id);
  }

  /** Giving a record back again never touches the table, even if a newer request has the same name. */
  lemma SecondReleaseIsHarmless(cfg: Config, w: World, n: nat, completed: bool, now: nat, at: nat)
    requires Safe(cfg, w) && n in w.returned
    ensures Admission.Release(cfg, w.control, w.returned[n], n, completed, now, at) == w.control
  {
    hide Invariant, Scheduling.Valid, Attached;
    assert Gone(w.control, n);
    StaleReleaseIsHarmless(cfg, w.control, w.returned[n], n, completed, now, at);
  }

  // ---------------------------------------------------------------------------- scheduler sections

  lemma SubmittedIsSafe(cfg: Config, w: World, n: nat, t: nat, item: Batch.Item)
    requires Safe(cfg, w) && n in w.leases && w.leases[n].ticket.None? && t !in w.sched.tickets && item.sequence == n
    ensures Safe(cfg, w.(sched := Scheduling.Enqueue(w.sched, t, item), leases := w.leases[n := w.leases[n].(ticket := Some(t))]))
  {
    hide Invariant, Scheduling.Valid;
    Scheduling.EnqueueKeeps(w.sched, t, item);
    TicketChanges(w.control, w.reserving, w.leases, w.returned, n, Some(t));
    hide Owned;
    var sched, leases := Scheduling.Enqueue(w.sched, t, item), w.leases[n := w.leases[n].(ticket := Some(t))];
    forall k | k in sched.tickets
      ensures Waits(sched, leases, k)
    {
      assert k != t ==> Waits(w.sched, w.leases, k);
    }
    forall m | m in leases
      ensures Knows(sched, m, leases[m])
    {
      assert Knows(w.sched, m, w.leases[m]);
    }
  }

  lemma TicketChanges(s: State, reserving: map<nat, Reservation>, leases: map<nat, Lease>, returned: map<nat, string>, n: nat, ticket: Option<nat>)
    requires Owned(s, reserving, leases, returned) && n in leases
    ensures Owned(s, reserving, leases[n := leases[n].(ticket := ticket)], returned)
  {
    var more := leases[n := leases[n].(ticket := ticket)];
    forall m | m in more
      ensures Owner(s, m, more[m])
    {
      assert Owner(s, m, leases[m]);
    }
    forall k | k in s.active && s.active[k].running
      ensures HasOwner(s, more, k)
    {
      assert HasOwner(s, leases, k);
    }
  }

  /** A caller goes away with its ticket. */
  lemma DetachedIsSafe(cfg: Config, w: World, t: nat, sched: Scheduling.Sched)
    requires Safe(cfg, w) && t in w.sched.tickets && Scheduling.Valid(sched) && Sized(cfg, w.control, sched)
    requires sched.tickets == w.sched.tickets - {t}
    ensures Safe(cfg, w.(sched := sched, leases := Detached(w, t)))
  {
    hide Invariant, Scheduling.Valid, Owned, Sized;
    assert Waits(w.sched, w.leases, t);
    var n := w.sched.tickets[t].item.sequence;
    TicketChanges(w.control, w.reserving, w.leases, w.returned, n, None);
    forall k | k in sched.tickets
      ensures Waits(sched, Detached(w, t), k)
    {
      assert Waits(w.sched, w.leases, k);
    }
    forall m | m in w.leases
      ensures Knows(sched, m, Detached(w, t)[m])
    {
      assert Knows(w.sched, m, w.leases[m]);
    }
  }

  /** The tickets stay, with their work. */
  lemma WorkingIsSafe(cfg: Config, w: World, sched: Scheduling.Sched)
    requires Safe(cfg, w) && Scheduling.Valid(sched) && Sized(cfg, w.control, sched)
    requires sched.tickets.Keys == w.sched.tickets.Keys
    requires forall t :: t in sched.tickets ==> sched.tickets[t].item == w.sched.tickets[t].item
    ensures Safe(cfg, w.(sched := sched))
  {
    hide Invariant, Scheduling.Valid, Owned, Sized;
    forall t | t in sched.tickets
      ensures Waits(sched, w.leases, t)
    {
      assert Waits(w.sched, w.leases, t);
    }
    forall m | m in w.leases
      ensures Knows(sched, m, w.leases[m])
    {
      assert Knows(w.sched, m, w.leases[m]);
    }
  }

  /** One pass serves at most the requests that admission allows for. */
  lemma LedIsSized(cfg: Config, w: World, t: nat, dead: Scheduling.Dead)
    requires Safe(cfg, w) && w.control.deployment.Some? && Scheduling.CanClaim(w.sched, t)
    ensures Sized(cfg, w.control, Scheduling.Claim(w.sched, t, w.control.deployment.value.batches, dead))
  {
    hide Invariant, Owned, Attached;
    var batches := w.control.deployment.value.batches;
    Scheduling.LimitIsPositive(w.sched, t, batches);
    Scheduling.ValidIsPlaced(w.sched);
    Scheduling.ScanTakesApart(Scheduling.QueueOf(w.sched, t), dead,
                              Scheduling.Limit(w.sched, w.sched.tickets[t].item.Prefill(), batches));
    hide Scheduling.Scan, Scheduling.Valid, Scheduling.Limit, Scheduling.Marked;
  }

  lemma ClaimKeepsItems(s: Scheduling.Sched, t: nat, batches: bool, dead: Scheduling.Dead)
    requires t in s.tickets
    ensures var after := Scheduling.Claim(s, t, batches, dead);
            && after.tickets.Keys == s.tickets.Keys
            && forall k :: k in s.tickets ==> after.tickets[k].item == s.tickets[k].item
  {}

  lemma LedIsSafe(cfg: Config, w: World, t: nat, dead: Scheduling.Dead)
    requires Safe(cfg, w) && w.control.deployment.Some? && Scheduling.CanClaim(w.sched, t)
    ensures Safe(cfg, w.(sched := Scheduling.Claim(w.sched, t, w.control.deployment.value.batches, dead)))
  {
    hide Invariant, Owned, Attached, Scheduling.Valid, Sized, Scheduling.Claim;
    LedIsSized(cfg, w, t, dead);
    ClaimKeepsItems(w.sched, t, w.control.deployment.value.batches, dead);
    Scheduling.ClaimKeeps(w.sched, t, w.control.deployment.value.batches, dead);
    WorkingIsSafe(cfg, w, Scheduling.Claim(w.sched, t, w.control.deployment.value.batches, dead));
  }

  lemma CompletedIsSafe(cfg: Config, w: World, outputs: Result<seq<Stage.Output>>)
    requires Safe(cfg, w)
    ensures Safe(cfg, w.(sched := Scheduling.Complete(w.sched, outputs)))
  {
    hide Invariant, Owned, Attached, Scheduling.Valid;
    Scheduling.CompleteKeeps(w.sched, outputs);
    WorkingIsSafe(cfg, w, Scheduling.Complete(w.sched, outputs));
  }

  lemma LeftIsSafe(cfg: Config, w: World, t: nat, given: bool)
    requires Safe(cfg, w) && t in w.sched.tickets
    requires if given then !w.sched.tickets[t].claimed else w.sched.tickets[t].done && w.sched.leader != Some(t)
    ensures Safe(cfg, w.(sched := if given then Scheduling.Abandon(w.sched, t) else Scheduling.Leave(w.sched, t), leases := Detached(w, t)))
  {
    hide Invariant, Owned, Attached, Scheduling.Valid;
    if given {
      Scheduling.AbandonKeeps(w.sched, t);
      DetachedIsSafe(cfg, w, t, Scheduling.Abandon(w.sched, t));
    } else {
      Scheduling.LeaveKeeps(w.sched, t);
      DetachedIsSafe(cfg, w, t, Scheduling.Leave(w.sched, t));
    }
  }

  // ---------------------------------------------------------------------------- every step

  lemma ClockIsFree(cfg: Config, w: World, at: nat)
    requires Safe(cfg, w)
    ensures Safe(cfg, w.(clock := at))
  {}

  lemma StepIsSafe(cfg: Config, w: World, step: Step, at: nat)
    requires Safe(cfg, w) && Enabled(w, step)
    ensures Safe(cfg, Next(cfg, w, step, at))
  {
    if step.Load? || step.Unload? || step.Poll? || step.Reserve? {
      TableStepIsSafe(cfg, w, step, at);
    } else if step.Cancel? || step.Watch? || step.ReleaseAgain? {
      OutsideStepIsSafe(cfg, w, step, at);
    } else if step.Allocate? || step.Fail? || step.Finish? || step.Release? {
      OwnStepIsSafe(cfg, w, step, at);
    } else {
      TicketStepIsSafe(cfg, w, step, at);
    }
  }

  lemma TableStepIsSafe(cfg: Config, w: World, step: Step, at: nat)
    requires Safe(cfg, w) && Enabled(w, step) && (step.Load? || step.Unload? || step.Poll? || step.Reserve?)
    ensures Safe(cfg, Next(cfg, w, step, at))
  {
    hide Safe, Prune, Reserving, Loaded, Unloaded;
    ClockIsFree(cfg, Next(cfg, w, step, at).(clock := w.clock), at) by {
      match step {
        case Load(spec, built, order, seen) =>
          PrunedIsSafe(cfg, w, order, seen, at);
          LoadedIsSafe(cfg, w.(control := Prune(cfg, w.control, order, seen, at)), spec, built);
          LoadedPruned(cfg, w, Prune(cfg, w.control, order, seen, at), spec, built);
        case Unload(plan, version, order, seen) =>
          PrunedIsSafe(cfg, w, order, seen, at);
          UnloadedIsSafe(cfg, w.(control := Prune(cfg, w.control, order, seen, at)), plan, version);
          UnloadedPruned(w, Prune(cfg, w.control, order, seen, at), plan, version);
        case Poll(order, seen) => PrunedIsSafe(cfg, w, order, seen, at);
        case Reserve(plan, version, stage, a, order, seen, now, admitted) =>
          ReservingIsSafe(cfg, w, plan, version, stage, a, order, seen, now, admitted, at);
          ReservingKeepsTime(cfg, w, plan, version, stage, a, order, seen, now, admitted, at);
      }
    }
  }

  lemma LoadedPruned(cfg: Config, w: World, s: State, spec: Spec, built: Built)
    ensures Loaded(cfg, w, s, spec, built) == Loaded(cfg, w.(control := s), s, spec, built)
    ensures Loaded(cfg, w, s, spec, built).clock == w.clock
  {}

  lemma UnloadedPruned(w: World, s: State, plan: string, version: nat)
    ensures Unloaded(w, s, plan, version) == Unloaded(w.(control := s), s, plan, version)
    ensures Unloaded(w, s, plan, version).clock == w.clock
  {}

  lemma ReservingKeepsTime(cfg: Config, w: World, plan: string, version: nat, stage: Option<nat>, a: Ask,
                           order: seq<string>, seen: Readings, now: nat, admitted: nat, at: nat)
    ensures Reserving(cfg, w, plan, version, stage, a, order, seen, now, admitted, at).clock == w.clock
  {
    hide Prune, Judge, Granted;
  }

  lemma OutsideStepIsSafe(cfg: Config, w: World, step: Step, at: nat)
    requires Safe(cfg, w) && Enabled(w, step) && (step.Cancel? || step.Watch? || step.ReleaseAgain?)
    ensures Safe(cfg, Next(cfg, w, step, at))
  {
    hide Safe, Invariant, Admission.Cancel, Admission.Release, Watched, Retains;
    SafeIsInvariant(cfg, w);
    match step {
      case Cancel(plan, version, id) =>
        CancelKeeps(cfg, w.control, id, at);
        CancelRetains(cfg, w.control, id, at);
        RetainingIsSafe(cfg, w, Admission.Cancel(cfg, w.control, id, at));
        ClockIsFree(cfg, w, at);
        ClockIsFree(cfg, w.(control := Admission.Cancel(cfg, w.control, id, at)), at);
      case Watch(n, cause) =>
        var id := if n in w.leases then w.leases[n].id else w.returned[n];
        WatchedKeeps(cfg, w.control, id, n, cause);
        WatchedRetains(w.control, id, n, cause);
        RetainingIsSafe(cfg, w, Watched(w.control, id, n, cause));
        ClockIsFree(cfg, w.(control := Watched(w.control, id, n, cause)), at);
      case ReleaseAgain(n, completed, now) =>
        SecondReleaseIsHarmless(cfg, w, n, completed, now, at);
        ClockIsFree(cfg, w, at);
    }
  }

  lemma OwnStepIsSafe(cfg: Config, w: World, step: Step, at: nat)
    requires Safe(cfg, w) && Enabled(w, step) && (step.Allocate? || step.Fail? || step.Finish? || step.Release?)
    ensures Safe(cfg, Next(cfg, w, step, at))
  {
    hide Safe, Allocated, AllocationFailed, Finishing, Admission.Release;
    ClockIsFree(cfg, Next(cfg, w, step, at).(clock := w.clock), at) by {
      match step {
        case Allocate(n) => AllocatedIsSafe(cfg, w, n);
        case Fail(n) => FailedIsSafe(cfg, w, n, at);
        case Finish(n, now, later) =>
          FinishingIsSafe(cfg, w, n, now, later, at);
          FinishingKeepsTime(cfg, w, n, now, later, at);
        case Release(n, completed, now) => ReleasedIsSafe(cfg, w, n, completed, now, at);
      }
    }
  }

  lemma FinishingKeepsTime(cfg: Config, w: World, n: nat, now: nat, later: nat, at: nat)
    requires n in w.reserving && w.reserving[n].id in w.control.active
    ensures Finishing(cfg, w, n, now, later, at).clock == w.clock
  {
    hide Finished;
  }

  lemma TicketStepIsSafe(cfg: Config, w: World, step: Step, at: nat)
    requires Safe(cfg, w) && Enabled(w, step)
    requires step.Submit? || step.GiveUp? || step.Lead? || step.Complete? || step.Leave?
    ensures Safe(cfg, Next(cfg, w, step, at))
  {
    hide Safe, Scheduling.Enqueue, Scheduling.Abandon, Scheduling.Claim, Scheduling.Complete, Scheduling.Leave, Detached, Scheduling.CanClaim;
    ClockIsFree(cfg, Next(cfg, w, step, at).(clock := w.clock), at) by {
      match step {
        case Submit(n, t, item) => SubmittedIsSafe(cfg, w, n, t, item);
        case GiveUp(t) => LeftIsSafe(cfg, w, t, true);
        case Lead(t, dead) => LedIsSafe(cfg, w, t, dead);
        case Complete(outputs) => CompletedIsSafe(cfg, w, outputs);
        case Leave(t) => LeftIsSafe(cfg, w, t, false);
      }
    }
  }

  /** Every world of every run is safe. */
  lemma {:induction false} RunIsSafe(cfg: Config, run: seq<World>, i: nat)
    requires Run(cfg, run) && i < |run|
    ensures Safe(cfg, run[i])
  {
    hide Safe, Enabled, Next;
    if i == 0 {
      StartIsSafe(cfg);
    } else {
      RunIsSafe(cfg, run, i - 1);
      assert Steps(cfg, run[i - 1], run[i - 1 + 1]);
      var step, at :| Enabled(run[i - 1], step) && InTime(run[i - 1], step, at) && run[i] == Next(cfg, run[i - 1], step, at);
      StepIsSafe(cfg, run[i - 1], step, at);
    }
  }

  // ---------------------------------------------------------------------------- the shared reservation

  /** The requests whose work the running pass has. */
  function InPass(w: World): set<string> {
    set t | t in w.sched.dispatch && t in w.sched.tickets && w.sched.tickets[t].item.sequence in w.leases ::
      w.leases[w.sched.tickets[t].item.sequence].id
  }

  function Image<T>(s: seq<nat>, f: map<nat, T>): set<T> {
    set t | t in s && t in f :: f[t]
  }

  lemma {:induction false} ImageIsSmall<T>(s: seq<nat>, f: map<nat, T>)
    ensures |Image(s, f)| <= |s|
  {
    if s == [] {
      assert Image(s, f) == {};
    } else {
      ImageIsSmall(s[1..], f);
      if s[0] in f {
        assert Image(s, f) == Image(s[1..], f) + {f[s[0]]};
      } else {
        assert Image(s, f) == Image(s[1..], f);
      }
    }
  }

  lemma PassIsActive(cfg: Config, w: World)
    requires Safe(cfg, w)
    ensures InPass(w) <= w.control.active.Keys && |InPass(w)| <= |w.sched.dispatch|
    ensures forall k :: k in InPass(w) ==> w.control.active[k].running && w.control.active[k].sequence.Some?
  {
    hide Invariant, Scheduling.Valid;
    forall k | k in InPass(w)
      ensures k in w.control.active && w.control.active[k].running && w.control.active[k].sequence.Some?
    {
      var t :| t in w.sched.dispatch && t in w.sched.tickets && w.sched.tickets[t].item.sequence in w.leases
               && w.leases[w.sched.tickets[t].item.sequence].id == k;
      assert Owner(w.control, w.sched.tickets[t].item.sequence, w.leases[w.sched.tickets[t].item.sequence]);
    }
    var names := map t | t in w.sched.tickets && w.sched.tickets[t].item.sequence in w.leases :: w.leases[w.sched.tickets[t].item.sequence].id;
    ImageIsSmall(w.sched.dispatch, names);
    assert InPass(w) == Image(w.sched.dispatch, names);
  }

  lemma SafeFits(cfg: Config, w: World, d: Domain)
    requires Safe(cfg, w) && w.control.deployment.Some?
    ensures Reserved(w.control.deployment.value.weights, w.control.active, PassRows(cfg, w.control), d) <= cfg.capacity.Of(d)
    ensures |w.sched.dispatch| <= PassRows(cfg, w.control)
  {
    hide Owned, Attached, Scheduling.Valid, Exact, Count, Reserved;
  }

  lemma PassIsDecode(cfg: Config, w: World)
    requires Safe(cfg, w) && |w.sched.dispatch| > 1
    ensures |w.sched.dispatch| <= 8
    ensures forall t :: t in w.sched.dispatch ==> t in w.sched.tickets && !w.sched.tickets[t].item.Prefill()
  {
    hide Invariant, Owned, Attached;
    forall t | t in w.sched.dispatch
      ensures t in w.sched.tickets && !w.sched.tickets[t].item.Prefill()
    {
      assert Scheduling.Running(w.sched, t);
    }
  }

  lemma TicketsApart(cfg: Config, w: World, j: nat, k: nat)
    requires Safe(cfg, w) && j < k < |w.sched.dispatch|
    ensures w.sched.dispatch[j] in w.sched.tickets && w.sched.dispatch[k] in w.sched.tickets
    ensures w.sched.tickets[w.sched.dispatch[j]].item.sequence != w.sched.tickets[w.sched.dispatch[k]].item.sequence
  {
    hide Invariant, Owned;
    var a, b := w.sched.dispatch[j], w.sched.dispatch[k];
    assert Scheduling.Running(w.sched, a) && Scheduling.Running(w.sched, b);
    assert Waits(w.sched, w.leases, a) && Waits(w.sched, w.leases, b);
  }

  // ---------------------------------------------------------------------------- the unlocked window

  lemma PlacedIsAttached(cfg: Config, w: World, t: nat)
    requires Safe(cfg, w) && (t in w.sched.prefills || t in w.sched.decodes || t in w.sched.dispatch)
    ensures t in w.sched.tickets && Waits(w.sched, w.leases, t)
    ensures w.leases[w.sched.tickets[t].item.sequence].id in w.control.active
  {
    hide Invariant, Sized;
    assert Scheduling.Waiting(w.sched, t, true) || Scheduling.Waiting(w.sched, t, false) || Scheduling.Running(w.sched, t);
    assert Waits(w.sched, w.leases, t);
    assert Owner(w.control, w.sched.tickets[t].item.sequence, w.leases[w.sched.tickets[t].item.sequence]);
  }

  lemma SafeLog(cfg: Config, w: World)
    requires Safe(cfg, w)
    ensures Logged(cfg, w.control)
  {}
}
