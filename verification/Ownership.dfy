/** Who may touch which admitted request: what the critical sections keep between records, reservers and owners. */
module Ownership {
  import opened Numbers
  import opened Results
  import opened Memory
  import opened Admission
  import opened AdmissionSafety
  import opened World

  /** The record has the lengths asked for. */
  predicate LongAs(r: Request, tokens: nat, chunk: nat) {
    r.tokens == tokens && r.queryTokens == QueryRows(tokens, chunk)
  }

  /** The reserver of record `n` will find its own record again, in the deployment it remembers. */
  predicate Reserver(s: State, n: nat, r: Reservation) {
    && r.id in s.active && s.active[r.id].serial == n && s.active[r.id].allocating && LongAs(s.active[r.id], r.tokens, r.chunk)
    && s.deployment.Some? && s.deployment.value.generation == r.generation
  }

  /** The owner of record `n` runs on sequence state of the deployment it remembers, which is the loaded one. */
  predicate Owner(s: State, n: nat, l: Lease) {
    && l.id in s.active && s.active[l.id].serial == n && s.active[l.id].running && LongAs(s.active[l.id], l.tokens, l.chunk)
    && s.active[l.id].sequence == Some(l.generation)
    && s.deployment.Some? && s.deployment.value.generation == l.generation
  }

  /** A record given back is never in the table again. */
  predicate Gone(s: State, n: nat) {
    n < s.issued && forall k :: k in s.active ==> s.active[k].serial != n
  }

  predicate HasReserver(s: State, reserving: map<nat, Reservation>, k: string)
    requires k in s.active
  {
    s.active[k].serial in reserving && reserving[s.active[k].serial].id == k
  }

  predicate HasOwner(s: State, leases: map<nat, Lease>, k: string)
    requires k in s.active
  {
    s.active[k].serial in leases && leases[s.active[k].serial].id == k
  }

  /** Exactly the allocating requests have a reserver, and exactly the running ones an owner. */
  ghost predicate Owned(s: State, reserving: map<nat, Reservation>, leases: map<nat, Lease>, returned: map<nat, string>) {
    && (forall n :: n in reserving ==> Reserver(s, n, reserving[n]))
    && (forall n :: n in leases ==> Owner(s, n, leases[n]))
    && (forall n :: n in returned ==> Gone(s, n))
    && (forall k :: k in s.active && s.active[k].allocating ==> HasReserver(s, reserving, k))
    && (forall k :: k in s.active && s.active[k].running ==> HasOwner(s, leases, k))
  }

  predicate SameOwner(r: Request, q: Request) {
    SameRecord(r, q) && r.allocating == q.allocating && r.running == q.running && r.sequence == q.sequence
  }

  /** Requests go away only while nobody uses them; the others stay as they are. */
  predicate Retains(s: State, t: State) {
    && t.deployment == s.deployment && t.issued == s.issued && t.active.Keys <= s.active.Keys
    && (forall k :: k in t.active ==> SameOwner(s.active[k], t.active[k]))
    && forall k :: k in s.active && (s.active[k].allocating || s.active[k].running) ==> k in t.active
  }

  lemma RetainsOwned(s: State, t: State, reserving: map<nat, Reservation>, leases: map<nat, Lease>, returned: map<nat, string>)
    requires Owned(s, reserving, leases, returned) && Retains(s, t)
    ensures Owned(t, reserving, leases, returned)
  {
    forall n | n in reserving
      ensures Reserver(t, n, reserving[n])
    {
      assert Reserver(s, n, reserving[n]);
      assert SameOwner(s.active[reserving[n].id], t.active[reserving[n].id]);
    }
    forall n | n in leases
      ensures Owner(t, n, leases[n])
    {
      assert Owner(s, n, leases[n]);
      assert SameOwner(s.active[leases[n].id], t.active[leases[n].id]);
    }
    forall n | n in returned
      ensures Gone(t, n)
    {
      assert Gone(s, n);
    }
    forall k | k in t.active
      ensures t.active[k].allocating ==> HasReserver(t, reserving, k)
      ensures t.active[k].running ==> HasOwner(t, leases, k)
    {
      assert SameOwner(s.active[k], t.active[k]);
    }
  }

  // ---------------------------------------------------------------------------- sections that retain

  lemma PruneRetains(cfg: Config, s: State, order: seq<string>, seen: Readings, at: nat)
    requires PrunedBy(s, order, seen)
    ensures Retains(s, Prune(cfg, s, order, seen, at))
  {
    PruneRemoves(cfg, s, order, seen, at);
  }

  lemma CancelRetains(cfg: Config, s: State, id: string, at: nat)
    ensures Retains(s, Admission.Cancel(cfg, s, id, at))
  {}

  lemma WatchedRetains(s: State, id: string, serial: nat, cause: StopCause)
    ensures Retains(s, Watched(s, id, serial, cause))
  {}

  lemma ReuseRetains(cfg: Config, s: State, a: Ask, now: nat, admitted: nat, at: nat)
    requires Deadline(a, now).Ok? && a.id in s.active
    ensures Retains(s, Granted(cfg, s, a, Reuse, now, admitted, at))
  {}

  // ---------------------------------------------------------------------------- sections of reservers and owners

  lemma GrantShape(cfg: Config, s: State, a: Ask, now: nat, admitted: nat, at: nat)
    requires Deadline(a, now).Ok? && a.need.Ok?
    ensures var t := Granted(cfg, s, a, Verdict.Reserve, now, admitted, at);
            && t.deployment == s.deployment && t.issued == s.issued + 1
            && a.id in t.active && t.active == s.active[a.id := t.active[a.id]]
            && t.active[a.id].serial == s.issued && t.active[a.id].allocating && !t.active[a.id].running
            && LongAs(t.active[a.id], a.tokens, a.chunk)
  {}

  lemma GrantOwned(cfg: Config, s: State, a: Ask, now: nat, admitted: nat, at: nat, claim: bool,
                   reserving: map<nat, Reservation>, leases: map<nat, Lease>, returned: map<nat, string>)
    requires Invariant(cfg, s) && s.deployment.Some? && Owned(s, reserving, leases, returned)
    requires Deadline(a, now).Ok? && a.need.Ok? && a.id !in s.active
    ensures Owned(Granted(cfg, s, a, Verdict.Reserve, now, admitted, at),
                  reserving[s.issued := Reservation(a.id, s.deployment.value.generation, claim, a.tokens, a.chunk)], leases, returned)
  {
    hide Sound, Logged, Granted, Invariant;
    GrantShape(cfg, s, a, now, admitted, at);
    var t := Granted(cfg, s, a, Verdict.Reserve, now, admitted, at);
    var more := reserving[s.issued := Reservation(a.id, s.deployment.value.generation, claim, a.tokens, a.chunk)];
    forall n | n in more
      ensures Reserver(t, n, more[n])
    {
      if n in reserving {
        assert Reserver(s, n, reserving[n]);
        ActiveIsValid(cfg, s, reserving[n].id);
      }
    }
    forall n | n in leases
      ensures Owner(t, n, leases[n])
    {
      assert Owner(s, n, leases[n]);
    }
    forall n | n in returned
      ensures Gone(t, n)
    {
      assert Gone(s, n);
    }
    forall k | k in t.active
      ensures t.active[k].allocating ==> HasReserver(t, more, k)
      ensures t.active[k].running ==> HasOwner(t, leases, k)
    {
      if k != a.id {
        ActiveIsValid(cfg, s, k);
      }
    }
  }

  lemma AllocatedOwned(cfg: Config, s: State, n: nat, reserving: map<nat, Reservation>, leases: map<nat, Lease>, returned: map<nat, string>)
    requires Invariant(cfg, s) && Owned(s, reserving, leases, returned) && n in reserving
    ensures reserving[n].id in s.active && s.deployment.Some? && s.deployment.value.generation == reserving[n].generation
    ensures Owned(Allocated(s, reserving[n].id, reserving[n].generation), reserving, leases, returned)
  {
    hide Fits, Exact, Count, Logged;
    var id := reserving[n].id;
    assert Reserver(s, n, reserving[n]);
    assert ValidRequest(s, s.active[id]);
    var t := Allocated(s, id, reserving[n].generation);
    forall m | m in reserving
      ensures Reserver(t, m, reserving[m])
    {
      assert Reserver(s, m, reserving[m]);
    }
    forall m | m in leases
      ensures Owner(t, m, leases[m])
    {
      assert Owner(s, m, leases[m]);
    }
    forall m | m in returned
      ensures Gone(t, m)
    {
      assert Gone(s, m);
    }
    forall k | k in t.active
      ensures t.active[k].allocating ==> HasReserver(t, reserving, k)
      ensures t.active[k].running ==> HasOwner(t, leases, k)
    {
      assert s.active[k].serial == t.active[k].serial && s.active[k].running == t.active[k].running;
    }
  }

  /** The table without the record of serial number `n`. */
  predicate Loses(s: State, t: State, id: string, n: nat) {
    && id in s.active && s.active[id].serial == n
    && t.deployment == s.deployment && t.issued == s.issued && t.active == s.active - {id}
  }

  /** Serial numbers tell records apart, and are below the next one to be issued. */
  lemma SerialsDiffer(cfg: Config, s: State)
    requires Invariant(cfg, s)
    ensures SerialsApart(s)
  {
    hide Fits, Exact, Count, Logged;
    assert forall k :: k in s.active ==> ValidRequest(s, s.active[k]);
  }

  lemma LosesOwned(cfg: Config, s: State, t: State, id: string, n: nat,
                   reserving: map<nat, Reservation>, leases: map<nat, Lease>, returned: map<nat, string>)
    requires Invariant(cfg, s) && Owned(s, reserving, leases, returned) && Loses(s, t, id, n)
    ensures Owned(t, reserving - {n}, leases - {n}, returned) && Gone(t, n)
  {
    SerialsDiffer(cfg, s);
    hide Invariant, Owned, Gone;
    LosesKeeps(s, t, id, n, reserving, leases, returned);
  }

  ghost predicate SerialsApart(s: State) {
    && (forall k :: k in s.active ==> s.active[k].serial < s.issued)
    && forall j, k :: j in s.active && k in s.active && s.active[j].serial == s.active[k].serial ==> j == k
  }

  lemma LosesKeeps(s: State, t: State, id: string, n: nat,
                   reserving: map<nat, Reservation>, leases: map<nat, Lease>, returned: map<nat, string>)
    requires SerialsApart(s) && Owned(s, reserving, leases, returned) && Loses(s, t, id, n)
    ensures Owned(t, reserving - {n}, leases - {n}, returned) && Gone(t, n)
  {
    assert n < s.issued;
    hide Reserver, Owner, Gone, HasReserver, HasOwner, Loses, SerialsApart;
    forall m | m in reserving && m != n
      ensures Reserver(t, m, reserving[m])
    {
      LosesAnother(s, t, id, n, m);
    }
    forall m | m in leases && m != n
      ensures Owner(t, m, leases[m])
    {
      LosesAnother(s, t, id, n, m);
    }
    forall m | m in returned
      ensures Gone(t, m)
    {
      LosesAnother(s, t, id, n, m);
    }
    LosesRecord(s, t, id, n);
    forall k | k in t.active
      ensures t.active[k].allocating ==> HasReserver(t, reserving - {n}, k)
      ensures t.active[k].running ==> HasOwner(t, leases - {n}, k)
    {
      LosesOther(s, t, id, n, k, reserving, leases);
    }
  }

  lemma LosesAnother(s: State, t: State, id: string, n: nat, m: nat)
    requires Loses(s, t, id, n)
    ensures forall r: Reservation :: Reserver(s, m, r) && m != n ==> Reserver(t, m, r)
    ensures forall l: Lease :: Owner(s, m, l) && m != n ==> Owner(t, m, l)
    ensures Gone(s, m) ==> Gone(t, m)
  {}

  lemma LosesRecord(s: State, t: State, id: string, n: nat)
    requires Loses(s, t, id, n) && SerialsApart(s)
    ensures Gone(t, n)
  {}

  lemma LosesOther(s: State, t: State, id: string, n: nat, k: string, reserving: map<nat, Reservation>, leases: map<nat, Lease>)
    requires Loses(s, t, id, n) && k in t.active && SerialsApart(s)
    ensures k in s.active && t.active[k] == s.active[k]
    ensures HasReserver(s, reserving, k) ==> HasReserver(t, reserving - {n}, k)
    ensures HasOwner(s, leases, k) ==> HasOwner(t, leases - {n}, k)
  {
    assert k != id && s.active[k].serial != n;
  }

  /** A reserver's record is not an owner's. */
  lemma ReserverIsNoOwner(cfg: Config, s: State, n: nat, reserving: map<nat, Reservation>, leases: map<nat, Lease>, returned: map<nat, string>)
    requires Invariant(cfg, s) && Owned(s, reserving, leases, returned) && n in reserving
    ensures n !in leases && n !in returned && Reserver(s, n, reserving[n])
  {
    hide Fits, Exact, Count, Logged;
    assert Reserver(s, n, reserving[n]);
    var id := reserving[n].id;
    forall m | m in leases
      ensures m != n
    {
      assert Owner(s, m, leases[m]) && ValidRequest(s, s.active[leases[m].id]);
    }
    forall m | m in returned
      ensures m != n
    {
      assert Gone(s, m);
    }
  }

  lemma OwnerIsNoReserver(cfg: Config, s: State, n: nat, reserving: map<nat, Reservation>, leases: map<nat, Lease>, returned: map<nat, string>)
    requires Invariant(cfg, s) && Owned(s, reserving, leases, returned) && n in leases
    ensures n !in reserving && Owner(s, n, leases[n])
  {
    assert Owner(s, n, leases[n]);
    forall m | m in reserving
      ensures m != n
    {
      ReserverIsNoOwner(cfg, s, m, reserving, leases, returned);
    }
  }

  /** A usable, free request with its state gets an owner. */
  lemma ClaimOwned(cfg: Config, s: State, id: string, tokens: nat, chunk: nat, reserving: map<nat, Reservation>, leases: map<nat, Lease>, returned: map<nat, string>)
    requires Invariant(cfg, s) && Owned(s, reserving, leases, returned)
    requires id in s.active && !s.active[id].allocating && !s.active[id].running && s.deployment.Some?
    requires LongAs(s.active[id], tokens, chunk)
    ensures var n := s.active[id].serial;
            && n !in leases
            && Owned(Claimed(s, id), reserving, leases[n := Lease(id, s.deployment.value.generation, None, tokens, chunk)], returned)
  {
    hide Invariant;
    var n := s.active[id].serial;
    ActiveIsValid(cfg, s, id);
    SerialsDiffer(cfg, s);
    var t, more := Claimed(s, id), leases[n := Lease(id, s.deployment.value.generation, None, tokens, chunk)];
    forall m | m in leases
      ensures m != n
    {
      assert Owner(s, m, leases[m]);
    }
    forall m | m in reserving
      ensures Reserver(t, m, reserving[m])
    {
      assert Reserver(s, m, reserving[m]);
    }
    forall m | m in more
      ensures Owner(t, m, more[m])
    {
      if m != n {
        assert Owner(s, m, leases[m]);
      }
    }
    forall m | m in returned
      ensures Gone(t, m)
    {
      assert Gone(s, m);
    }
    forall k | k in t.active
      ensures t.active[k].allocating ==> HasReserver(t, reserving, k)
      ensures t.active[k].running ==> HasOwner(t, more, k)
    {
      assert s.active[k].serial == t.active[k].serial && s.active[k].allocating == t.active[k].allocating;
    }
  }

  /** A request whose allocation is over is nobody's until it is claimed. */
  lemma UsableOwned(cfg: Config, s: State, n: nat, peak: nat,
                    reserving: map<nat, Reservation>, leases: map<nat, Lease>, returned: map<nat, string>)
    requires Invariant(cfg, s) && Owned(s, reserving, leases, returned) && n in reserving
    ensures reserving[n].id in s.active
    ensures var id := reserving[n].id;
            Owned(s.(active := s.active[id := s.active[id].(allocating := false)], peak := peak), reserving - {n}, leases, returned)
  {
    hide Fits, Exact, Count, Logged;
    var id := reserving[n].id;
    assert Reserver(s, n, reserving[n]);
    var t := s.(active := s.active[id := s.active[id].(allocating := false)], peak := peak);
    forall m | m in reserving && m != n
      ensures Reserver(t, m, reserving[m])
    {
      assert Reserver(s, m, reserving[m]);
    }
    forall m | m in leases
      ensures Owner(t, m, leases[m])
    {
      assert Owner(s, m, leases[m]);
    }
    forall m | m in returned
      ensures Gone(t, m)
    {
      assert Gone(s, m);
    }
    forall k | k in t.active
      ensures t.active[k].allocating ==> HasReserver(t, reserving - {n}, k)
      ensures t.active[k].running ==> HasOwner(t, leases, k)
    {
      assert s.active[k].serial == t.active[k].serial && s.active[k].running == t.active[k].running;
    }
  }
}
