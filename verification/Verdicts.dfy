/** When a reservation is refused, with what, and what a granted one enters: from the table and the request alone. */
module Verdicts {
  import opened Numbers
  import opened Results
  import opened Memory
  import opened Admission
  import opened AdmissionSafety
  import opened Outcomes

  // ---------------------------------------------------------------------------- the budget

  /** What one domain must hold if a request that takes `need` joins the table and any `rows` requests run at once. */
  ghost function Burden(s: State, id: string, need: Need, rows: nat, d: Domain): nat
    requires s.deployment.Some?
  {
    var workspaces := Workspaces(s.active, d)[id := need.workspace.Of(d)];
    s.deployment.value.weights.Of(d) + Sum(Caches(s.active, d), s.active.Keys) + need.cache.Of(d)
    + Top(workspaces, workspaces.Keys, rows)
  }

  /** In other words: whichever requests run, if there are at most `rows` of them, they fit. */
  lemma BurdenIsWorstPass(s: State, id: string, need: Need, rows: nat, d: Domain, limit: nat)
    requires s.deployment.Some?
    ensures var workspaces := Workspaces(s.active, d)[id := need.workspace.Of(d)];
            Burden(s, id, need, rows, d) <= limit <==>
              forall chosen :: chosen <= workspaces.Keys && |chosen| <= rows ==>
                s.deployment.value.weights.Of(d) + Sum(Caches(s.active, d), s.active.Keys) + need.cache.Of(d)
                + Sum(workspaces, chosen) <= limit
  {
    var workspaces := Workspaces(s.active, d)[id := need.workspace.Of(d)];
    var most := TopIsReached(workspaces, workspaces.Keys, rows);
    forall chosen | chosen <= workspaces.Keys && |chosen| <= rows
      ensures Sum(workspaces, chosen) <= Top(workspaces, workspaces.Keys, rows)
    {
      TopBounds(workspaces, workspaces.Keys, rows, chosen);
    }
  }

  lemma CachesGrow(s: State, id: string, r: Request, d: Domain)
    requires id !in s.active
    ensures var grown := s.active[id := r];
            Sum(Caches(grown, d), grown.Keys) == Sum(Caches(s.active, d), s.active.Keys) + r.cache.Of(d)
  {
    var grown := s.active[id := r];
    SumRemove(Caches(grown, d), grown.Keys, id);
    assert grown.Keys - {id} == s.active.Keys;
    SumAgrees(Caches(grown, d), Caches(s.active, d), s.active.Keys);
  }

  lemma WorkspacesGrow(s: State, id: string, r: Request, d: Domain)
    ensures var workspaces := Workspaces(s.active, d)[id := r.workspace.Of(d)];
            Workspaces(s.active[id := r], d) == workspaces && workspaces.Keys == s.active[id := r].Keys
  {}

  lemma BurdenIsReserved(s: State, id: string, r: Request, need: Need, rows: nat, d: Domain)
    requires s.deployment.Some? && id !in s.active && r.cache == need.cache && r.workspace == need.workspace
    ensures Reserved(s.deployment.value.weights, s.active[id := r], rows, d) == Burden(s, id, need, rows, d)
  {
    hide Sum, Top, Caches, Workspaces, Amounts.Of;
    CachesGrow(s, id, r, d);
    WorkspacesGrow(s, id, r, d);
  }

  lemma LengthGrows(s: State, id: string, r: Request)
    requires id !in s.active
    ensures var grown := s.active[id := r];
            Sum(Lengths(grown), grown.Keys) == Sum(Lengths(s.active), s.active.Keys) + r.tokens
  {
    var grown := s.active[id := r];
    SumRemove(Lengths(grown), grown.Keys, id);
    assert grown.Keys - {id} == s.active.Keys;
    SumAgrees(Lengths(grown), Lengths(s.active), s.active.Keys);
  }

  /** The tokens of all requests together exceed what the worker may cache. */
  ghost predicate TooLong(cfg: Config, s: State, a: Ask) {
    var length := Sum(Lengths(s.active), s.active.Keys) + a.tokens;
    length > MAXIMUM_SIZE || (cfg.maximumCachedTokens > 0 && length > cfg.maximumCachedTokens)
  }

  /** Some domain cannot hold what the requests take together. */
  ghost predicate TooLarge(cfg: Config, s: State, a: Ask)
    requires s.deployment.Some? && a.need.Ok?
  {
    var rows := if s.deployment.value.batches then cfg.maximumDecodeBatch else 1;
    exists d: Domain :: Burden(s, a.id, a.need.value, rows, d) > Least(cfg.capacity.Of(d), MAXIMUM_SIZE)
  }

  /** Pinned bytes are host bytes too; a backend that says otherwise is at fault. */
  ghost predicate Inconsistent(cfg: Config, s: State, a: Ask)
    requires s.deployment.Some? && a.need.Ok?
  {
    var rows := if s.deployment.value.batches then cfg.maximumDecodeBatch else 1;
    var need := a.need.value;
    && Burden(s, a.id, need, rows, PinnedHost) > Burden(s, a.id, need, rows, Host)
    && forall d: Domain :: Burden(s, a.id, need, rows, d) <= MAXIMUM_SIZE
  }

  // ---------------------------------------------------------------------------- the answer

  /** The request can be looked at: its name has 1 to 256 characters, and its deadline is ahead, by at most an hour. */
  predicate Sensible(a: Ask, now: nat) {
    0 < |a.id| <= 256 && (a.deadline == 0 || now < a.deadline <= now + 3_600_000)
  }

  /** The table has a request of this name that the retry agrees with. */
  predicate Agrees(r: Request, a: Ask) {
    r.tokens == a.tokens && r.queryTokens == QueryRows(a.tokens, a.chunk) && !r.cancelled
  }

  /** The answer `r` to request `a` on a pruned table: exactly when it is granted, and each refusal exactly when its
      reason is the first that applies. The backend is asked only once there is room. */
  ghost predicate Answered(cfg: Config, s: State, a: Ask, now: nat, r: Result<Verdict>)
    requires s.deployment.Some?
  {
    var named, known, room := 0 < |a.id| <= 256, a.id in s.active, |s.active| < cfg.maximumActive;
    var asked := Sensible(a, now) && !known && room;
    && (r == Ok(Reuse) <==> Sensible(a, now) && known && !s.active[a.id].allocating && Agrees(s.active[a.id], a))
    && (r == Ok(Reserve) <==>
          asked && a.need.Ok? && !TooLong(cfg, s, a) && !TooLarge(cfg, s, a) && !Inconsistent(cfg, s, a))
    && if asked && a.need.Err? then r == Err(a.need.error)
       else
         && (r == Err(DeadlineExceeded) <==> named && a.deadline != 0 && a.deadline <= now)
         && (r == Err(InvalidRequest) <==>
               || !named || (a.deadline > now + 3_600_000)
               || (Sensible(a, now) && known && !s.active[a.id].allocating && !Agrees(s.active[a.id], a)))
         && (r == Err(Internal) <==> asked && !TooLong(cfg, s, a) && Inconsistent(cfg, s, a))
         && (r == Err(ResourceExhausted) <==>
               Sensible(a, now)
               && if known then s.active[a.id].allocating
                  else !room || TooLong(cfg, s, a) || (TooLarge(cfg, s, a) && !Inconsistent(cfg, s, a)))
  }

  /** What forbids it, in terms of the sums. */
  lemma OverBudgetIs(cfg: Config, s: State, a: Ask, deadline: nat)
    requires s.deployment.Some? && a.need.Ok? && a.id !in s.active
    ensures var over := OverBudget(cfg, s, s.active[a.id := Candidate(s, a, deadline, 0)]);
            over == if TooLong(cfg, s, a) then Some(ResourceExhausted)
                    else if Inconsistent(cfg, s, a) then Some(Internal)
                    else if TooLarge(cfg, s, a) then Some(ResourceExhausted)
                    else None
  {
    hide Reserved, Burden, Sum, Top;
    var r := Candidate(s, a, deadline, 0);
    var grown, rows := s.active[a.id := r], PassRows(cfg, s);
    LengthGrows(s, a.id, r);
    forall d: Domain
      ensures Reserved(s.deployment.value.weights, grown, rows, d) == Burden(s, a.id, a.need.value, rows, d)
    {
      BurdenIsReserved(s, a.id, r, a.need.value, rows, d);
    }
    var used := ReservedAmounts(s.deployment.value.weights, grown, rows);
    forall d: Domain
      ensures used.Of(d) == Burden(s, a.id, a.need.value, rows, d)
    {}
    assert used.Representable() <==> forall d: Domain :: Burden(s, a.id, a.need.value, rows, d) <= MAXIMUM_SIZE;
    assert Within(used, cfg.capacity) <==> forall d: Domain :: Burden(s, a.id, a.need.value, rows, d) <= cfg.capacity.Of(d);
    assert used.pinned == used.Of(PinnedHost) && used.host == used.Of(Host);
  }

  /** Every reservation gets that answer. */
  lemma JudgeAnswers(cfg: Config, s: State, a: Ask, now: nat)
    requires s.deployment.Some?
    ensures Answered(cfg, s, a, now, Judge(cfg, s, a, now))
  {
    hide OverBudget, TooLong, TooLarge, Inconsistent, Candidate;
    if a.id !in s.active && a.need.Ok? && Deadline(a, now).Ok? {
      OverBudgetIs(cfg, s, a, Deadline(a, now).value);
    }
  }

  // ---------------------------------------------------------------------------- what is entered

  /** The deadline asked for. */
  function Wanted(a: Ask, now: nat): nat {
    if a.deadline == 0 then now + 60_000 else a.deadline
  }

  /** After a grant the request is in the table with the lengths asked for. A retry finds its record as it was, but
      for a deadline no later than the one it asks for, unless an owner is already running; a new request is the next
      record, and its admission is logged with the others that hold allocated state. Nothing else changes. */
  ghost predicate Entered(cfg: Config, s: State, a: Ask, verdict: Verdict, now: nat, admitted: nat, at: nat, t: State)
    requires a.need.Ok? || verdict.Reuse?
  {
    && a.id in t.active && Agrees(t.active[a.id], a) && t.active == s.active[a.id := t.active[a.id]]
    && var e := t.active[a.id];
       match verdict
       case Reuse =>
         && a.id in s.active && e == s.active[a.id].(deadline := e.deadline) && t == s.(active := t.active)
         && (e.running ==> e.deadline == s.active[a.id].deadline)
         && (!e.running ==> e.deadline == Least(s.active[a.id].deadline, Wanted(a, now)))
       case Reserve =>
         && a.id !in s.active && e.serial == s.issued && e.deadline == Wanted(a, now) && e.admitted == admitted
         && e.cache == a.need.value.cache && e.workspace == a.need.value.workspace
         && e.allocating && !e.running && e.sequence.None? && e.cause == NotStopped
         && t == s.(active := t.active, issued := s.issued + 1, history := t.history)
         && LogsOne(cfg, s, t, Admitted, a.id, "", at)
  }

  lemma EnteredAgrees(cfg: Config, s: State, a: Ask, verdict: Verdict, now: nat, admitted: nat, at: nat, t: State)
    requires (a.need.Ok? || verdict.Reuse?) && Entered(cfg, s, a, verdict, now, admitted, at, t)
    ensures a.id in t.active && Agrees(t.active[a.id], a)
    ensures !t.active[a.id].running ==> t.active[a.id].deadline <= Wanted(a, now)
  {}

  lemma GrantedEnters(cfg: Config, s: State, a: Ask, now: nat, admitted: nat, at: nat)
    requires s.deployment.Some? && Judge(cfg, s, a, now).Ok?
    ensures Deadline(a, now).Ok? && (a.id in s.active <==> Judge(cfg, s, a, now).value == Reuse) && (a.id !in s.active ==> a.need.Ok?)
    ensures var verdict := Judge(cfg, s, a, now).value;
            Entered(cfg, s, a, verdict, now, admitted, at, Granted(cfg, s, a, verdict, now, admitted, at))
  {
    hide Judge, OverBudget;
    JudgedDeadline(cfg, s, a, now);
    if a.id in s.active {
      ReusedEnters(cfg, s, a, now, admitted, at);
    } else {
      ReservedEnters(cfg, s, a, now, admitted, at);
    }
  }

  lemma ReusedEnters(cfg: Config, s: State, a: Ask, now: nat, admitted: nat, at: nat)
    requires Deadline(a, now).Ok? && a.id in s.active && Agrees(s.active[a.id], a)
    ensures Entered(cfg, s, a, Reuse, now, admitted, at, Granted(cfg, s, a, Reuse, now, admitted, at))
  {
    var t := Granted(cfg, s, a, Reuse, now, admitted, at);
    assert t.active == s.active[a.id := t.active[a.id]];
  }

  lemma ReservedEnters(cfg: Config, s: State, a: Ask, now: nat, admitted: nat, at: nat)
    requires Deadline(a, now).Ok? && a.need.Ok? && a.id !in s.active
    ensures Entered(cfg, s, a, Verdict.Reserve, now, admitted, at, Granted(cfg, s, a, Verdict.Reserve, now, admitted, at))
  {
    var t := Granted(cfg, s, a, Verdict.Reserve, now, admitted, at);
    assert t.active == s.active[a.id := t.active[a.id]];
    LogLogsOne(cfg, s, s.(active := t.active, issued := s.issued + 1), Admitted, a.id, "", at);
  }
}
