/** How one critical section of the control service changes what can be observed of it. */
module Evolution {
  import opened Numbers
  import opened Results
  import opened Memory
  import opened Admission
  import opened AdmissionSafety

  /** The request's sequence state exists on this worker. */
  predicate Held(s: State, id: string) {
    id in s.active && s.active[id].sequence.Some?
  }

  /** The other requests, reserved after event `n`, that held usable sequence state in `s`. */
  function Live(s: State, h: seq<Event>, n: nat): set<string>
    requires n < |h|
  {
    set k | k in Replay(h[..n + 1]) && k != h[n].id && k in s.active && !s.active[k].allocating
  }

  /** A request retires with its sequence state in being, unless its allocation was what failed. */
  predicate Retirable(s: State, id: string, reason: string) {
    if reason == "allocation-failed" then id in s.active && s.active[id].allocating else Held(s, id)
  }

  /** What a new event says is true of the state `s` that the section found. */
  predicate Truthful(s: State, h: seq<Event>, n: nat, at: nat)
    requires n < |h|
  {
    && h[n].at == at && h[n].concurrent == Live(s, h, n)
    && (h[n].kind == Retired ==> Retirable(s, h[n].id, h[n].reason))
  }

  ghost predicate Readmitted(s: State, t: State, id: string) {
    exists n :: |s.history| <= n < |t.history| && t.history[n].kind == Admitted && t.history[n].id == id
  }

  ghost predicate Extends(s: State, t: State, at: nat) {
    && s.history <= t.history
    && forall n :: |s.history| <= n < |t.history| ==> Truthful(s, t.history, n, at)
  }

  /** Only a new admission makes a usable request unusable. */
  ghost predicate StaysUsable(cfg: Config, s: State, t: State) {
    cfg.observations ==>
      forall k :: k in s.active && k in t.active && !s.active[k].allocating && t.active[k].allocating ==> Readmitted(s, t, k)
  }

  ghost predicate Evolves(cfg: Config, s: State, t: State, at: nat) {
    Extends(s, t, at) && StaysUsable(cfg, s, t) && t.peak == Larger(s.peak, Count(t.active))
  }

  /** What an invariant state says about its log and its peak. */
  ghost predicate Kept(cfg: Config, s: State) {
    Logged(cfg, s) && Count(s.active) <= s.peak
  }

  lemma InvariantIsKept(cfg: Config, s: State)
    requires Invariant(cfg, s)
    ensures Kept(cfg, s)
  {}

  // ---------------------------------------------------------------------------- sections without events

  predicate SameUse(s: map<string, Request>, t: map<string, Request>) {
    s.Keys == t.Keys && forall k :: k in s ==> s[k].allocating == t[k].allocating
  }

  lemma SameUseSameCount(s: map<string, Request>, t: map<string, Request>)
    requires SameUse(s, t)
    ensures Count(s) == Count(t)
  {
    CountGrows(s, t);
    CountGrows(t, s);
  }

  lemma FlagsEvolve(cfg: Config, s: State, active: map<string, Request>, at: nat)
    requires Kept(cfg, s) && SameUse(s.active, active)
    ensures Evolves(cfg, s, s.(active := active), at)
  {
    hide Exact, Count;
    SameUseSameCount(s.active, active);
  }

  /** A request becoming usable raises the peak to the number of usable requests, if that is more. */
  lemma UsableEvolves(cfg: Config, s: State, id: string, at: nat)
    requires id in s.active
    ensures var active := s.active[id := s.active[id].(allocating := false)];
            Evolves(cfg, s, s.(active := active, peak := Larger(s.peak, Count(active))), at)
  {}

  lemma DeploymentEvolves(cfg: Config, s: State, t: State, at: nat)
    requires Kept(cfg, s) && t.active == s.active && t.history == s.history && t.peak == s.peak
    ensures Evolves(cfg, s, t, at)
  {
    hide Exact, Count;
  }

  // ---------------------------------------------------------------------------- sections with one event

  lemma LastEvent(cfg: Config, s: State, kind: Kind, id: string, reason: string, at: nat)
    requires cfg.observations
    ensures var h := Log(cfg, s, kind, id, reason, at).history;
            && |h| == |s.history| + 1 && s.history <= h && h[..|h| - 1] == s.history && h[..|s.history| + 1] == h
            && h[|h| - 1] == Event(kind, id, |h|, at, Concurrent(s.active, id), reason)
            && Replay(h) == if kind == Admitted then Replay(s.history) + {id} else Replay(s.history) - {id}
  {
    var h := Log(cfg, s, kind, id, reason, at).history;
    assert h[..|h|] == h && h[..|h| - 1] == s.history;
  }

  /** One event about `id`, when the other requests are those of `s`, unchanged in use. */
  lemma EventExtends(cfg: Config, s: State, u: State, kind: Kind, id: string, reason: string, at: nat)
    requires Logged(cfg, s) && u.history == s.history
    requires u.active.Keys == if kind == Admitted then s.active.Keys + {id} else s.active.Keys - {id}
    requires forall k :: k in u.active && k != id ==> u.active[k].allocating == s.active[k].allocating
    requires kind == Retired ==> Retirable(s, id, reason)
    ensures Extends(s, Log(cfg, u, kind, id, reason, at), at)
  {
    hide Exact, Log, Retirable;
    var t := Log(cfg, u, kind, id, reason, at);
    if cfg.observations {
      LastEvent(cfg, u, kind, id, reason, at);
      assert t.history[|s.history|].concurrent == Live(s, t.history, |s.history|);
    } else {
      UnobservedLog(cfg, u, kind, id, reason, at);
    }
  }

  lemma UnobservedLog(cfg: Config, s: State, kind: Kind, id: string, reason: string, at: nat)
    requires !cfg.observations
    ensures Log(cfg, s, kind, id, reason, at) == s
  {}

  lemma LogOnlyLogs(cfg: Config, s: State, kind: Kind, id: string, reason: string, at: nat)
    ensures var t := Log(cfg, s, kind, id, reason, at);
            t == s.(history := t.history) && |t.history| <= |s.history| + 1
  {}

  /** Retirement of `id` from a state that differs from `s` only in flags. */
  lemma RetireEvolves(cfg: Config, s: State, active: map<string, Request>, id: string, reason: string, at: nat)
    requires Kept(cfg, s) && id in s.active && active.Keys == s.active.Keys
    requires forall k :: k in active && k != id ==> active[k].allocating == s.active[k].allocating
    requires Retirable(s, id, reason)
    ensures Evolves(cfg, s, Retire(cfg, s.(active := active), id, reason, at), at)
  {
    hide Logged, Log, Retirable, Count;
    var removed := s.(active := active - {id});
    LogOnlyLogs(cfg, removed, Retired, id, reason, at);
    CountGrows(removed.active, s.active);
    EventExtends(cfg, s, removed, Retired, id, reason, at);
  }

  lemma AdmissionEvolves(cfg: Config, s: State, id: string, r: Request, at: nat)
    requires Kept(cfg, s) && id !in s.active && r.allocating
    ensures var grown := s.(active := s.active[id := r], issued := s.issued + 1);
            Evolves(cfg, s, Log(cfg, grown, Admitted, id, "", at), at)
  {
    hide Logged, Log, Retirable, Count;
    var grown := s.(active := s.active[id := r], issued := s.issued + 1);
    LogOnlyLogs(cfg, grown, Admitted, id, "", at);
    CountGrows(grown.active, s.active);
    EventExtends(cfg, s, grown, Admitted, id, "", at);
  }

  // ---------------------------------------------------------------------------- pruning

  /** `t` is `s` with its flags changed and some of its requests gone. */
  predicate Remains(s: State, t: State) {
    && t.active.Keys <= s.active.Keys && t.peak == s.peak
    && forall k :: k in t.active ==>
         t.active[k].allocating == s.active[k].allocating && t.active[k].sequence == s.active[k].sequence
  }

  /** At most one more event. */
  ghost predicate NextEvent(cfg: Config, p: State, t: State) {
    && Logged(cfg, p) && Logged(cfg, t) && p.history <= t.history && |t.history| <= |p.history| + 1
  }

  lemma LiveFurther(cfg: Config, s: State, p: State, t: State)
    requires cfg.observations && NextEvent(cfg, p, t) && Remains(s, p) && |t.history| == |p.history| + 1
    ensures Live(s, t.history, |p.history|) == Live(p, t.history, |p.history|)
  {
    hide Exact;
    assert t.history[..|p.history| + 1] == t.history && t.history[..|t.history| - 1] == p.history;
  }

  /** One more section that logs at most one event, after one that only took requests away. */
  lemma ExtendsFurther(cfg: Config, s: State, p: State, t: State, at: nat)
    requires NextEvent(cfg, p, t) && Remains(s, p) && Extends(s, p, at) && Extends(p, t, at)
    ensures Extends(s, t, at)
  {
    hide Live, Logged;
    forall n | |s.history| <= n < |t.history|
      ensures Truthful(s, t.history, n, at)
    {
      if n < |p.history| {
        assert Truthful(s, p.history, n, at);
        EarlierLive(s, p.history, t.history, n);
      } else {
        assert Truthful(p, t.history, n, at);
        ObservedIfLogged(cfg, t);
        LiveFurther(cfg, s, p, t);
      }
    }
  }

  lemma ObservedIfLogged(cfg: Config, t: State)
    requires Logged(cfg, t) && t.history != []
    ensures cfg.observations
  {}

  lemma EarlierLive(s: State, h: seq<Event>, longer: seq<Event>, n: nat)
    requires h <= longer && n < |h|
    ensures Live(s, h, n) == Live(s, longer, n)
  {
    assert h[..n + 1] == longer[..n + 1];
  }

  lemma StaysUsableFurther(cfg: Config, s: State, p: State, t: State)
    requires NextEvent(cfg, p, t) && Remains(s, p) && StaysUsable(cfg, p, t) && s.history <= p.history
    ensures StaysUsable(cfg, s, t)
  {
    hide Exact;
    if cfg.observations {
      forall k | k in s.active && k in t.active && !s.active[k].allocating && t.active[k].allocating
        ensures Readmitted(s, t, k)
      {
        if k in p.active {
          assert Readmitted(p, t, k);
        } else {
          assert k in Replay(t.history) && k !in Replay(p.history);
          assert t.history != p.history;
          assert t.history[..|t.history| - 1] == p.history;
          assert t.history[|t.history| - 1].kind == Admitted && t.history[|t.history| - 1].id == k;
        }
      }
    }
  }

  lemma EvolvesFurther(cfg: Config, s: State, p: State, t: State, at: nat)
    requires NextEvent(cfg, p, t) && Remains(s, p)
    requires Evolves(cfg, s, p, at) && Evolves(cfg, p, t, at)
    ensures Evolves(cfg, s, t, at)
  {
    hide Truthful, StaysUsable, Count;
    ExtendsFurther(cfg, s, p, t, at);
    StaysUsableFurther(cfg, s, p, t);
  }

  lemma {:induction false} RetireAllEvolves(cfg: Config, s: State, p: State, order: seq<string>, at: nat)
    requires Invariant(cfg, p) && Remains(s, p) && Evolves(cfg, s, p, at)
    requires forall i :: 0 <= i < |order| ==> Held(p, order[i])
    requires forall i, j :: 0 <= i < j < |order| ==> order[i] != order[j]
    ensures Evolves(cfg, s, RetireAll(cfg, p, order, "expired", at), at)
    ensures Remains(s, RetireAll(cfg, p, order, "expired", at))
    decreases |order|
  {
    hide Invariant, Evolves, Count, Log, Logged;
    if order != [] {
      var id := order[0];
      var q := Retire(cfg, p, id, "expired", at);
      LogOnlyLogs(cfg, p.(active := p.active - {id}), Retired, id, "expired", at);
      RetireKeeps(cfg, p, id, "expired", at);
      InvariantIsKept(cfg, p);
      InvariantIsKept(cfg, q);
      assert p == p.(active := p.active);
      RetireEvolves(cfg, p, p.active, id, "expired", at);
      EvolvesOnward(cfg, p, q, at);
      EvolvesFurther(cfg, s, p, q, at);
      RetireAllEvolves(cfg, s, q, order[1..], at);
    }
  }

  lemma EvolvesOnward(cfg: Config, p: State, q: State, at: nat)
    requires Evolves(cfg, p, q, at)
    ensures p.history <= q.history
  {}

  lemma AbandonedAreHeld(cfg: Config, s: State, order: seq<string>, seen: Readings)
    requires Invariant(cfg, s) && Visits(order, Abandoned(s.active, seen))
    ensures forall i :: 0 <= i < |order| ==> Held(s.(active := Flagged(s.active, seen)), order[i])
  {
    forall i | 0 <= i < |order|
      ensures Held(s.(active := Flagged(s.active, seen)), order[i])
    {
      assert order[i] in Abandoned(s.active, seen);
      ActiveIsValid(cfg, s, order[i]);
    }
  }

  lemma PruneEvolves(cfg: Config, s: State, order: seq<string>, seen: Readings, at: nat)
    requires Invariant(cfg, s) && Visits(order, Abandoned(s.active, seen))
    ensures Evolves(cfg, s, Prune(cfg, s, order, seen, at), at)
    ensures Remains(s, Prune(cfg, s, order, seen, at))
  {
    hide Invariant, Evolves, Abandoned, Held;
    var flagged := s.(active := Flagged(s.active, seen));
    InvariantIsKept(cfg, s);
    FlagsEvolve(cfg, s, flagged.active, at);
    FlaggedKeeps(cfg, s, seen);
    AbandonedAreHeld(cfg, s, order, seen);
    RetireAllEvolves(cfg, s, flagged, order, at);
  }
}
