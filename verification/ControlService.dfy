/** The control service's own code: each critical section as a method on the fields its mutex protects. */
module ControlService {
  import opened Numbers
  import opened Results
  import opened Memory
  import opened Admission
  import opened AdmissionSafety
  import opened Evolution
  import opened Outcomes
  import opened Verdicts

  // ---------------------------------------------------------------------------- loops over the table

  /** The other requests that hold allocated state, found one by one. */
  method CollectConcurrent(active: map<string, Request>, id: string) returns (r: set<string>)
    ensures r == Concurrent(active, id)
  {
    var remaining := active.Keys;
    r := {};
    while remaining != {}
      invariant remaining <= active.Keys && r == set k | k in active && k !in remaining && k != id && !active[k].allocating
      decreases remaining
    {
      var k :| k in remaining;
      if k != id && !active[k].allocating {
        r := r + {k};
      }
      remaining := remaining - {k};
    }
  }

  /** Drops the oldest events past the limit. */
  method Trim(events: seq<Event>, ghost history: seq<Event>, ghost event: Event) returns (r: seq<Event>)
    requires events == Recent(history) + [event]
    ensures r == Recent(history + [event])
  {
    r := events;
    ghost var h := history + [event];
    assert r == h[|h| - |r|..];
    while |r| > HISTORY_LIMIT
      invariant |r| <= |h| && r == h[|h| - |r|..]
      invariant |r| >= HISTORY_LIMIT || |r| == |h|
    {
      r := r[1..];
    }
  }

  lemma RecentIsEnd(h: seq<Event>)
    ensures |Recent(h)| == Least(|h|, 256) && Recent(h) == h[|h| - |Recent(h)|..]
  {}

  /** A request as the memory report shows it. */
  datatype RequestRow = RequestRow(
    tokens: nat, admitted: nat, allocating: bool, running: bool, cancelled: bool, cache: Amounts, workspace: Amounts)

  datatype Observations = Observations(requests: map<string, RequestRow>, events: seq<Event>, total: nat, peak: nat)

  /** `domains` are those with any capacity, which alone are reported. */
  datatype Report = Report(
    weights: Amounts, cache: Amounts, workspace: Amounts, domains: set<Domain>, ids: set<string>, observations: Option<Observations>)

  function RowOf(r: Request): RequestRow {
    RequestRow(r.tokens, r.admitted, r.allocating, r.running, r.cancelled, r.cache, r.workspace)
  }

  method CollectRows(active: map<string, Request>) returns (rows: map<string, RequestRow>)
    ensures rows == map k | k in active :: RowOf(active[k])
  {
    var remaining := active.Keys;
    rows := map[];
    while remaining != {}
      invariant remaining <= active.Keys && rows == map k | k in active && k !in remaining :: RowOf(active[k])
      decreases remaining
    {
      var k :| k in remaining;
      rows := rows[k := RowOf(active[k])];
      remaining := remaining - {k};
    }
  }

  method CountAllocated(active: map<string, Request>) returns (count: nat)
    ensures count == Count(active)
  {
    var remaining := active.Keys;
    ghost var seen: set<string> := {};
    count := 0;
    while remaining != {}
      invariant remaining <= active.Keys && count == |seen|
      invariant seen == set k | k in active && k !in remaining && !active[k].allocating
      decreases remaining
    {
      var k :| k in remaining;
      if !active[k].allocating {
        count := count + 1;
        seen := seen + {k};
      }
      remaining := remaining - {k};
    }
    assert seen == set k | k in active && !active[k].allocating;
  }

  /** What admission adds up over the table. */
  datatype Totals = Totals(cache: Amounts, tokens: nat, workspaces: seq<Amounts>)

  function Column(list: seq<Amounts>, d: Domain): (r: seq<nat>)
    ensures |r| == |list|
  {
    seq(|list|, i requires 0 <= i < |list| => list[i].Of(d))
  }

  ghost predicate Totalled(active: map<string, Request>, seen: set<string>, order: seq<string>, t: Totals) {
    && seen <= active.Keys && Elements(order) == seen && |order| == |t.workspaces|
    && t.tokens == Sum(Lengths(active), seen)
    && (forall d: Domain :: t.cache.Of(d) == Sum(Caches(active, d), seen))
    && (forall i, j :: 0 <= i < j < |order| ==> order[i] != order[j])
    && forall i :: 0 <= i < |order| ==> order[i] in active && active[order[i]].workspace == t.workspaces[i]
  }

  lemma TotalledNext(active: map<string, Request>, seen: set<string>, order: seq<string>, t: Totals, k: string)
    requires Totalled(active, seen, order, t) && k in active && k !in seen
    ensures var r := active[k];
            Totalled(active, seen + {k}, order + [k], Totals(Plus(t.cache, r.cache), t.tokens + r.tokens, t.workspaces + [r.workspace]))
  {
    hide Sum, Elements;
    var grown := seen + {k};
    assert grown - {k} == seen;
    SumRemove(Lengths(active), grown, k);
    forall d: Domain
      ensures Sum(Caches(active, d), grown) == Sum(Caches(active, d), seen) + active[k].cache.Of(d)
    {
      SumRemove(Caches(active, d), grown, k);
    }
    ElementsPushed(order, k);
    InElements(order, k);
  }

  lemma InElements<T>(s: seq<T>, x: T)
    ensures x in s <==> x in Elements(s)
  {}

  lemma ElementsPushed<T>(s: seq<T>, x: T)
    ensures Elements(s + [x]) == Elements(s) + {x}
  {
    assert forall i :: 0 <= i < |s| ==> (s + [x])[i] == s[i];
    assert (s + [x])[|s|] == x;
    forall y | y in Elements(s)
      ensures y in Elements(s + [x])
    {
      var i :| 0 <= i < |s| && s[i] == y;
      assert (s + [x])[i] == y;
    }
  }

  lemma SumsGrow(active: map<string, Request>, seen: set<string>, order: seq<string>, t: Totals)
    requires Totalled(active, seen, order, t)
    ensures t.tokens <= Sum(Lengths(active), active.Keys)
    ensures forall d: Domain :: t.cache.Of(d) <= Sum(Caches(active, d), active.Keys)
  {
    SumGrows(Lengths(active), seen, active.Keys);
    forall d: Domain
      ensures t.cache.Of(d) <= Sum(Caches(active, d), active.Keys)
    {
      SumGrows(Caches(active, d), seen, active.Keys);
    }
  }

  /** Adds up caches and lengths, refusing to wrap around, and lists the workspaces. */
  method AddUp(active: map<string, Request>) returns (r: Result<Totals>, ghost order: seq<string>)
    ensures r.Ok? ==> Totalled(active, active.Keys, order, r.value) && r.value.tokens <= MAXIMUM_SIZE && r.value.cache.Representable()
    ensures r.Err? ==>
              && r.error == ResourceExhausted
              && (Sum(Lengths(active), active.Keys) > MAXIMUM_SIZE || exists d: Domain :: Sum(Caches(active, d), active.Keys) > MAXIMUM_SIZE)
  {
    var remaining := active.Keys;
    var t := Totals(NOTHING, 0, []);
    order := [];
    ghost var seen: set<string> := {};
    while remaining != {}
      invariant remaining !! seen && remaining + seen == active.Keys && Totalled(active, seen, order, t)
      invariant t.tokens <= MAXIMUM_SIZE && t.cache.Representable()
      decreases remaining
    {
      var k :| k in remaining;
      TotalledNext(active, seen, order, t, k);
      t := Totals(Plus(t.cache, active[k].cache), t.tokens + active[k].tokens, t.workspaces + [active[k].workspace]);
      seen := seen + {k};
      order := order + [k];
      if !t.cache.Representable() || t.tokens > MAXIMUM_SIZE {
        SumsGrow(active, seen, order, t);
        return Err(ResourceExhausted), order;
      }
      remaining := remaining - {k};
    }
    assert seen == active.Keys;
    r := Ok(t);
  }

  lemma TotalledLists(active: map<string, Request>, order: seq<string>, t: Totals, d: Domain)
    requires Totalled(active, active.Keys, order, t)
    ensures Lists(Column(t.workspaces, d), order, Workspaces(active, d)) && Elements(order) == active.Keys
  {}

  method LargestIn(t: Totals, d: Domain, rows: nat, ghost order: seq<string>, ghost active: map<string, Request>)
    returns (r: Result<nat>)
    requires Totalled(active, active.Keys, order, t)
    ensures var top := Top(Workspaces(active, d), active.Keys, rows);
            r == if top <= MAXIMUM_SIZE then Ok(top) else Err(ResourceExhausted)
  {
    hide Totalled, Lists;
    TotalledLists(active, order, t, d);
    r := LargestSum(Column(t.workspaces, d), rows, order, Workspaces(active, d));
  }

  /** The largest workspaces, domain by domain. */
  method LargestWorkspaces(t: Totals, rows: nat, ghost order: seq<string>, ghost active: map<string, Request>)
    returns (r: Result<Amounts>)
    requires Totalled(active, active.Keys, order, t)
    ensures r.Ok? ==> forall d: Domain :: r.value.Of(d) == Top(Workspaces(active, d), active.Keys, rows) <= MAXIMUM_SIZE
    ensures r.Err? ==> r.error == ResourceExhausted && exists d: Domain :: Top(Workspaces(active, d), active.Keys, rows) > MAXIMUM_SIZE
  {
    hide Totalled, Top, Workspaces;
    var host := LargestIn(t, Host, rows, order, active);
    var device := LargestIn(t, Device, rows, order, active);
    var pinned := LargestIn(t, PinnedHost, rows, order, active);
    var unified := LargestIn(t, Unified, rows, order, active);
    if host.Err? || device.Err? || pinned.Err? || unified.Err? {
      return Err(ResourceExhausted);
    }
    r := Ok(Amounts(host.value, device.value, pinned.value, unified.value));
  }

  /** Whether the given requests can be served together. */
  method CheckBudget(cfg: Config, active: map<string, Request>, weights: Amounts, rows: nat, ghost s: State) returns (e: Option<Error>)
    requires s.deployment.Some? && s.deployment.value.weights == weights && rows == PassRows(cfg, s)
    ensures e == OverBudget(cfg, s, active)
  {
    hide Totalled, Sum, Top, ReservedAmounts;
    var totals, order := AddUp(active);
    if totals.Err? {
      if Sum(Lengths(active), active.Keys) <= MAXIMUM_SIZE {
        ghost var d: Domain :| Sum(Caches(active, d), active.Keys) > MAXIMUM_SIZE;
        assert Reserved(weights, active, rows, d) > MAXIMUM_SIZE;
      }
      OverflowRefused(cfg, s, active);
      return Some(totals.error);
    }
    TotalledSums(active, order, totals.value);
    if cfg.maximumCachedTokens != 0 && totals.value.tokens > cfg.maximumCachedTokens {
      return Some(ResourceExhausted);
    }
    var workspace := LargestWorkspaces(totals.value, rows, order, active);
    if workspace.Err? {
      ghost var d: Domain :| Top(Workspaces(active, d), active.Keys, rows) > MAXIMUM_SIZE;
      assert Reserved(weights, active, rows, d) > MAXIMUM_SIZE;
      OverflowRefused(cfg, s, active);
      return Some(workspace.error);
    }
    var shared := AddMemory(totals.value.cache, workspace.value);
    if shared.Err? {
      ghost var d := TooLarge(totals.value.cache, workspace.value);
      assert Reserved(weights, active, rows, d) > MAXIMUM_SIZE;
      OverflowRefused(cfg, s, active);
      return Some(shared.error);
    }
    PlusOf(totals.value.cache, workspace.value);
    var used := AddMemory(weights, shared.value);
    if used.Err? {
      ghost var d := TooLarge(weights, shared.value);
      assert Reserved(weights, active, rows, d) > MAXIMUM_SIZE;
      OverflowRefused(cfg, s, active);
      return Some(used.error);
    }
    PlusOf(weights, shared.value);
    UsedIsReserved(weights, active, rows, used.value);
    e := RequireMemory(used.value, cfg.capacity);
  }

  lemma PlusOf(a: Amounts, b: Amounts)
    ensures forall d: Domain :: Plus(a, b).Of(d) == a.Of(d) + b.Of(d)
  {}

  lemma TooLarge(a: Amounts, b: Amounts) returns (d: Domain)
    requires AddMemory(a, b).Err?
    ensures a.Of(d) + b.Of(d) > MAXIMUM_SIZE
  {
    d :| Plus(a, b).Of(d) > MAXIMUM_SIZE;
  }

  lemma TotalledSums(active: map<string, Request>, order: seq<string>, t: Totals)
    requires Totalled(active, active.Keys, order, t)
    ensures t.tokens == Sum(Lengths(active), active.Keys)
    ensures forall d: Domain :: t.cache.Of(d) == Sum(Caches(active, d), active.Keys)
  {}

  lemma UsedIsReserved(weights: Amounts, active: map<string, Request>, rows: nat, used: Amounts)
    requires forall d: Domain :: used.Of(d) == Reserved(weights, active, rows, d)
    ensures used == ReservedAmounts(weights, active, rows)
  {
    assert used.Of(Host) == used.host && used.Of(Device) == used.device;
    assert used.Of(PinnedHost) == used.pinned && used.Of(Unified) == used.unified;
  }

  /** An amount that does not fit its type is refused, wherever in the sum it arises. */
  lemma OverflowRefused(cfg: Config, s: State, active: map<string, Request>)
    requires s.deployment.Some?
    requires Sum(Lengths(active), active.Keys) > MAXIMUM_SIZE
             || exists d: Domain :: Reserved(s.deployment.value.weights, active, PassRows(cfg, s), d) > MAXIMUM_SIZE
    ensures OverBudget(cfg, s, active) == Some(ResourceExhausted)
  {
    hide Sum, Reserved, PassRows, Amounts.Representable;
    if Sum(Lengths(active), active.Keys) <= MAXIMUM_SIZE {
      var d: Domain :| Reserved(s.deployment.value.weights, active, PassRows(cfg, s), d) > MAXIMUM_SIZE;
      Unrepresentable(s.deployment.value.weights, active, PassRows(cfg, s), d);
    }
  }

  lemma Unrepresentable(weights: Amounts, active: map<string, Request>, rows: nat, d: Domain)
    requires Reserved(weights, active, rows, d) > MAXIMUM_SIZE
    ensures !ReservedAmounts(weights, active, rows).Representable()
  {
    hide Reserved;
    assert ReservedAmounts(weights, active, rows).Of(d) > MAXIMUM_SIZE;
  }

  // ---------------------------------------------------------------------------- pruning

  lemma {:induction false} RetireAllPush(cfg: Config, s: State, order: seq<string>, id: string, reason: string, at: nat)
    ensures RetireAll(cfg, s, order + [id], reason, at) == Retire(cfg, RetireAll(cfg, s, order, reason, at), id, reason, at)
    decreases |order|
  {
    if order == [] {
      assert RetireAll(cfg, s, [id], reason, at) == RetireAll(cfg, Retire(cfg, s, id, reason, at), [], reason, at);
    } else {
      assert (order + [id])[1..] == order[1..] + [id];
      RetireAllPush(cfg, Retire(cfg, s, order[0], reason, at), order[1..], id, reason, at);
    }
  }

  /** What has been done to the table when the requests of `remaining` are still to be looked at. */
  ghost predicate Pruning(cfg: Config, s: State, seen: Readings, at: nat, remaining: set<string>, order: seq<string>, t: State) {
    && t == RetireAll(cfg, s.(active := Flagged(s.active, seen)), order, "expired", at).(active := t.active)
    && t.active.Keys == s.active.Keys - Members(order) && remaining <= t.active.Keys
    && (forall k :: k in t.active ==> t.active[k] == if k in remaining then s.active[k] else Flagged(s.active, seen)[k])
    && (forall i, j :: 0 <= i < j < |order| ==> order[i] != order[j])
    && forall k :: k in order <==> k in Abandoned(s.active, seen) && k !in remaining
  }

  lemma PruningStarts(cfg: Config, s: State, seen: Readings, at: nat)
    ensures Pruning(cfg, s, seen, at, s.active.Keys, [], s)
  {}

  lemma PruningFlags(cfg: Config, s: State, seen: Readings, at: nat, remaining: set<string>, order: seq<string>, t: State, k: string)
    requires Pruning(cfg, s, seen, at, remaining, order, t) && k in remaining && k !in Abandoned(s.active, seen)
    ensures Pruning(cfg, s, seen, at, remaining - {k}, order, t.(active := t.active[k := Flagged(s.active, seen)[k]]))
  {
    hide RetireAll;
  }

  lemma RetireAlike(cfg: Config, r: State, active: map<string, Request>, k: string, reason: string, at: nat)
    requires SameUse(r.active, active)
    ensures Retire(cfg, r.(active := active), k, reason, at) == Retire(cfg, r, k, reason, at).(active := active - {k})
  {
    assert Concurrent(active - {k}, k) == Concurrent(r.active - {k}, k);
  }

  lemma PruningAlike(cfg: Config, s: State, seen: Readings, at: nat, remaining: set<string>, order: seq<string>, t: State)
    requires Pruning(cfg, s, seen, at, remaining, order, t)
    ensures SameUse(RetireAll(cfg, s.(active := Flagged(s.active, seen)), order, "expired", at).active, t.active)
  {
    var flagged := s.(active := Flagged(s.active, seen));
    RetireAllRemoves(cfg, flagged, order, "expired", at);
    hide RetireAll;
    var r := RetireAll(cfg, flagged, order, "expired", at);
    assert r.active == flagged.active - Members(order);
  }

  lemma PruningRetires(cfg: Config, s: State, seen: Readings, at: nat, remaining: set<string>, order: seq<string>, t: State, k: string)
    requires Pruning(cfg, s, seen, at, remaining, order, t) && k in remaining && k in Abandoned(s.active, seen)
    ensures Pruning(cfg, s, seen, at, remaining - {k}, order + [k], Retire(cfg, t, k, "expired", at))
  {
    hide RetireAll, SameUse, Log, Abandoned, Flagged, Concurrent;
    var flagged := s.(active := Flagged(s.active, seen));
    var r := RetireAll(cfg, flagged, order, "expired", at);
    PruningAlike(cfg, s, seen, at, remaining, order, t);
    RetireAllPush(cfg, flagged, order, k, "expired", at);
    assert Members(order + [k]) == Members(order) + {k};
    RetireAlike(cfg, r, t.active, k, "expired", at);
    assert t == r.(active := t.active);
    RetireOnlyLogs(cfg, t, k, "expired", at);
  }

  lemma RetireOnlyLogs(cfg: Config, s: State, k: string, reason: string, at: nat)
    ensures var t := Retire(cfg, s, k, reason, at); t == s.(active := s.active - {k}, history := t.history)
  {}

  lemma PruningEnds(cfg: Config, s: State, seen: Readings, at: nat, order: seq<string>, t: State)
    requires Pruning(cfg, s, seen, at, {}, order, t)
    ensures t == Prune(cfg, s, order, seen, at) && Visits(order, Abandoned(s.active, seen))
  {
    var flagged := s.(active := Flagged(s.active, seen));
    RetireAllRemoves(cfg, flagged, order, "expired", at);
    hide RetireAll;
    assert t.active == flagged.active - Members(order);
  }

  lemma PruningKnows(cfg: Config, s: State, seen: Readings, at: nat, remaining: set<string>, order: seq<string>, t: State, k: string)
    requires Pruning(cfg, s, seen, at, remaining, order, t) && k in remaining
    ensures k in t.active && k in s.active && t.active[k] == s.active[k]
    ensures k in Abandoned(s.active, seen) <==> seen(k) >= t.active[k].deadline && !t.active[k].running && !t.active[k].allocating
    ensures k in Flagged(s.active, seen)
    ensures Flagged(s.active, seen)[k] == if seen(k) >= t.active[k].deadline then Stop(t.active[k], Expired) else t.active[k]
  {
    hide RetireAll;
  }

  lemma InvariantFits(cfg: Config, s: State)
    requires Invariant(cfg, s)
    ensures Sum(Lengths(s.active), s.active.Keys) <= MAXIMUM_SIZE
    ensures forall d: Domain ::
              && Sum(Caches(s.active, d), s.active.Keys) <= cfg.capacity.Of(d)
              && Top(Workspaces(s.active, d), s.active.Keys, PassRows(cfg, s)) <= cfg.capacity.Of(d)
  {
    hide Exact, Count;
    forall d: Domain
      ensures Sum(Caches(s.active, d), s.active.Keys) <= cfg.capacity.Of(d)
      ensures Top(Workspaces(s.active, d), s.active.Keys, PassRows(cfg, s)) <= cfg.capacity.Of(d)
    {
      if s.deployment.Some? {
        hide Sum, Top;
        assert Reserved(s.deployment.value.weights, s.active, PassRows(cfg, s), d) <= cfg.capacity.Of(d);
      } else {
        assert s.active == map[];
        NothingReserved(Caches(s.active, d), PassRows(cfg, s));
        NothingReserved(Workspaces(s.active, d), PassRows(cfg, s));
      }
    }
  }

  lemma NothingReserved<K>(m: map<K, nat>, rows: nat)
    ensures Sum(m, {}) == 0 && Top(m, {}, rows) == 0
  {}

  // ---------------------------------------------------------------------------- the service

  class Service {
    const cfg: Config
    var deployment: Option<Deployment>
    var active: map<string, Request>
    var issued: nat
    var generations: nat
    /** The end of the log, and how many events there have been. */
    var lifecycle: seq<Event>
    var lifecycleTotal: nat
    var peak: nat
    ghost var history: seq<Event>

    ghost function View(): State
      reads this
    {
      State(deployment, active, issued, generations, history, peak)
    }

    ghost predicate KeepsRecent()
      reads this
    {
      lifecycleTotal == |history| && lifecycle == Recent(history)
    }

    ghost predicate Valid()
      reads this
    {
      KeepsRecent() && Invariant(cfg, View())
    }

    constructor (cfg: Config)
      ensures this.cfg == cfg && Valid() && View() == EMPTY
    {
      this.cfg := cfg;
      deployment, active, issued, generations, peak := None, map[], 0, 0, 0;
      lifecycle, lifecycleTotal, history := [], 0, [];
      new;
      EmptyIsValid(cfg);
    }

    method RecordLifecycle(kind: Kind, id: string, reason: string, at: nat)
      requires KeepsRecent()
      modifies this
      ensures KeepsRecent() && View() == Log(cfg, old(View()), kind, id, reason, at)
    {
      hide Recent, Concurrent;
      if !cfg.observations {
        return;
      }
      lifecycleTotal := lifecycleTotal + 1;
      var concurrent := CollectConcurrent(active, id);
      var event := Event(kind, id, lifecycleTotal, at, concurrent, reason);
      lifecycle := Trim(lifecycle + [event], history, event);
      history := history + [event];
    }

    method RetireEntry(id: string, reason: string, at: nat)
      requires KeepsRecent()
      modifies this
      ensures KeepsRecent() && View() == Retire(cfg, old(View()), id, reason, at)
    {
      active := active - {id};
      RecordLifecycle(Retired, id, reason, at);
    }

    method PruneExpired(seen: Readings, at: nat) returns (ghost order: seq<string>)
      requires Valid()
      modifies this
      ensures Valid() && Visits(order, Abandoned(old(active), seen)) && View() == Prune(cfg, old(View()), order, seen, at)
      ensures PrunedAs(old(View()), seen, View()) && LogsExpiries(cfg, old(View()), order, at, View())
    {
      hide Invariant, Pruning, Visits, PrunedAs, LogsExpiries;
      ghost var before := View();
      var remaining := active.Keys;
      order := [];
      PruningStarts(cfg, before, seen, at);
      while remaining != {}
        invariant KeepsRecent() && Pruning(cfg, before, seen, at, remaining, order, View())
        decreases remaining
      {
        var id :| id in remaining;
        PruningKnows(cfg, before, seen, at, remaining, order, View(), id);
        if seen(id) >= active[id].deadline {
          if !active[id].running && !active[id].allocating {
            PruningRetires(cfg, before, seen, at, remaining, order, View(), id);
            order := order + [id];
            RetireEntry(id, "expired", at);
          } else {
            PruningFlags(cfg, before, seen, at, remaining, order, View(), id);
            active := active[id := Stop(active[id], Expired)];
          }
        } else {
          PruningFlags(cfg, before, seen, at, remaining, order, View(), id);
          assert View().active[id := active[id]] == active;
        }
        remaining := remaining - {id};
      }
      PruningEnds(cfg, before, seen, at, order, View());
      PruneIs(cfg, before, order, seen, at);
      PruneKeeps(cfg, before, order, seen, at);
    }

    method DeploymentMatches(plan: string, version: nat) returns (matches: bool)
      ensures matches == Matches(View(), plan, version)
    {
      matches := deployment.Some? && deployment.value.spec.plan == plan && deployment.value.spec.version == version;
    }

    method LoadStage(spec: Spec, built: Built, seen: Readings, at: nat) returns (error: Option<Error>, ghost order: seq<string>)
      requires Valid()
      modifies this
      ensures Valid() && Visits(order, Abandoned(old(active), seen))
      ensures var pruned := Prune(cfg, old(View()), order, seen, at);
              match Load(cfg, pruned, spec, built)
              case Ok(after) => error == None && View() == after
              case Err(e) => error == Some(e) && View() == pruned
      ensures LoadedAs(cfg, Prune(cfg, old(View()), order, seen, at), spec, built, View(), error)
    {
      hide Invariant, Prune, Visits, LoadedAs;
      order := PruneExpired(seen, at);
      LoadIs(cfg, View(), spec, built);
      LoadKeeps(cfg, View(), spec, built);
      if deployment.Some? {
        return if deployment.value.spec == spec then None else Some(InvalidRequest), order;
      }
      if built.Invalid? {
        return Some(built.error), order;
      }
      if cfg.maximumDecodeBatch == 0 || cfg.maximumDecodeBatch > 8 {
        return Some(InvalidRequest), order;
      }
      if built.Failed? {
        return Some(built.error), order;
      }
      error := RequireMemory(built.weights, cfg.capacity);
      if error.Some? {
        return;
      }
      deployment := Some(Deployment(generations, spec, built.weights, built.batches));
      generations := generations + 1;
    }

    method NewRequest(a: Ask, deadline: nat, admitted: nat) returns (r: Request)
      requires a.need.Ok?
      ensures r == Candidate(View(), a, deadline, admitted)
    {
      r := Request(issued, a.tokens, QueryRows(a.tokens, a.chunk), deadline, a.need.value.cache, a.need.value.workspace, admitted,
                   None, false, NotStopped, true, false);
    }

    /** The judgement of a reservation request, refusing for the first reason that applies. */
    method Decide(a: Ask, now: nat) returns (r: Result<Verdict>)
      requires deployment.Some?
      ensures r == Judge(cfg, View(), a, now) && Answered(cfg, View(), a, now, r)
    {
      hide OverBudget, Answered;
      JudgeAnswers(cfg, View(), a, now);
      if a.id == "" || |a.id| > 256 {
        return Err(InvalidRequest);
      }
      var deadline := Deadline(a, now);
      if deadline.Err? {
        return Err(deadline.error);
      }
      if a.id in active {
        var existing := active[a.id];
        if existing.allocating {
          return Err(ResourceExhausted);
        }
        if existing.tokens != a.tokens || existing.queryTokens != QueryRows(a.tokens, a.chunk) || existing.cancelled {
          return Err(InvalidRequest);
        }
        return Ok(Reuse);
      }
      if |active| >= cfg.maximumActive {
        return Err(ResourceExhausted);
      }
      if a.need.Err? {
        return Err(a.need.error);
      }
      var rows := if deployment.value.batches then cfg.maximumDecodeBatch else 1;
      var candidate := NewRequest(a, deadline.value, 0);
      var over := CheckBudget(cfg, active[a.id := candidate], deployment.value.weights, rows, View());
      r := if over.Some? then Err(over.value) else Ok(Reserve);
    }

    /** The locked part of a reservation, up to where the lock is dropped to allocate. */
    method BeginReserve(plan: string, version: nat, stage: Option<nat>, a: Ask, seen: Readings, now: nat, admitted: nat, at: nat)
      returns (r: Result<Verdict>, ghost order: seq<string>)
      requires Valid()
      modifies this
      ensures Valid()
      ensures !Serves(old(View()), plan, version, stage) ==> r == Err(InvalidRequest) && View() == old(View())
      ensures Serves(old(View()), plan, version, stage) <==>
                && old(deployment).Some? && var spec := old(deployment).value.spec;
                && spec.plan == plan && spec.version == version && (stage == Some(spec.stage) || stage == None)
      ensures Serves(old(View()), plan, version, stage) ==>
                var pruned := Prune(cfg, old(View()), order, seen, at);
                && Visits(order, Abandoned(old(active), seen)) && pruned.deployment.Some?
                && r == Judge(cfg, pruned, a, now) && View() == Judged(cfg, pruned, a, now, admitted, at)
                && Answered(cfg, pruned, a, now, r)
                && (r.Err? ==> View() == pruned)
                && (r.Ok? ==> (a.need.Ok? || r.value.Reuse?) && Entered(cfg, pruned, a, r.value, now, admitted, at, View()))
      ensures r.Ok? ==>
                && a.id in active && var e := active[a.id];
                && e.tokens == a.tokens && e.queryTokens == QueryRows(a.tokens, a.chunk) && !e.cancelled
                && (!e.running ==> e.deadline <= if a.deadline == 0 then now + 60_000 else a.deadline)
    {
      hide Invariant, Judge, Visits, Prune, Answered, Entered;
      order := [];
      var matches := DeploymentMatches(plan, version);
      if !matches || (stage.Some? && deployment.value.spec.stage != stage.value) {
        return Err(InvalidRequest), order;
      }
      order := PruneExpired(seen, at);
      PruneRemoves(cfg, old(View()), order, seen, at);
      r := Decide(a, now);
      if r.Err? {
        return;
      }
      JudgedDeadline(cfg, View(), a, now);
      GrantedEnters(cfg, View(), a, now, admitted, at);
      ghost var pruned := View();
      Grant(a, r.value, now, admitted, at);
      EnteredAgrees(cfg, pruned, a, r.value, now, admitted, at, View());
    }

    /** Shortens the deadline of a request that is there already, or enters a new one. */
    method Grant(a: Ask, verdict: Verdict, now: nat, admitted: nat, at: nat)
      requires Valid() && deployment.Some? && Judge(cfg, View(), a, now) == Ok(verdict)
      requires Deadline(a, now).Ok? && (verdict.Reuse? ==> a.id in active) && (verdict.Reserve? ==> a.need.Ok?)
      modifies this
      ensures Valid() && View() == Granted(cfg, old(View()), a, verdict, now, admitted, at)
    {
      hide Invariant, Judge, Recent;
      GrantedKeeps(cfg, View(), a, now, admitted, at);
      var deadline := Deadline(a, now).value;
      if verdict == Reuse {
        if !active[a.id].running && deadline < active[a.id].deadline {
          active := active[a.id := active[a.id].(deadline := deadline)];
        }
        assert old(active)[a.id := Shortened(old(active)[a.id], deadline)] == active;
      } else {
        var next := NewRequest(a, deadline, admitted);
        active := active[a.id := next];
        issued := issued + 1;
        RecordLifecycle(Admitted, a.id, "", at);
      }
    }

    /** The backend has allocated the sequence state, outside the lock. */
    method KeepSequence(id: string, generation: nat)
      requires Valid() && id in active && deployment.Some? && generation == deployment.value.generation
      modifies this
      ensures Valid() && View() == Allocated(old(View()), id, generation)
    {
      hide Invariant;
      AllocatedKeeps(cfg, View(), id, generation);
      active := active[id := active[id].(sequence := Some(generation))];
    }

    /** Back under the lock with sequence state. */
    method FinishReserve(id: string, now: nat, later: nat, at: nat) returns (error: Option<Error>)
      requires Valid() && id in active && active[id].sequence.Some?
      modifies this
      ensures Valid() && View() == Finished(cfg, old(View()), id, now, later, at)
      ensures FinishedAs(cfg, old(View()), id, now, later, at, View(), error)
    {
      hide Invariant, Count, FinishedAs;
      FinishedIs(cfg, View(), id, now, later, at);
      FinishedKeeps(cfg, View(), id, now, later, at);
      active := active[id := active[id].(allocating := false)];
      if active[id].cancelled || now >= active[id].deadline {
        var expired := later >= active[id].deadline;
        RetireEntry(id, if expired then "expired" else "cancelled", at);
        return Some(if expired then DeadlineExceeded else Error.Stopped);
      }
      var usable := CountAllocated(active);
      peak := if peak < usable then usable else peak;
      error := None;
    }

    /** Back under the lock without sequence state. */
    method AbortReserve(id: string, at: nat)
      requires Valid()
      modifies this
      ensures Valid() && View() == AllocationFailed(cfg, old(View()), id, at)
      ensures if id in old(active) then RetiredAs(cfg, old(View()), id, "allocation-failed", at, View()) else View() == old(View())
    {
      hide Invariant, RetiredAs;
      RetireRetires(cfg, View(), id, "allocation-failed", at);
      AllocationFailedKeeps(cfg, View(), id, at);
      if id in active {
        RetireEntry(id, "allocation-failed", at);
      }
    }

    /** One owner at a time executes a request. */
    method Claim(id: string) returns (error: Option<Error>)
      requires Valid() && id in active && !active[id].allocating
      modifies this
      ensures Valid()
      ensures error == if old(active[id]).running then Some(ResourceExhausted) else None
      ensures View() == if error.None? then Claimed(old(View()), id) else old(View())
      ensures error.None? ==> OnlyChanges(old(View()), id, old(active)[id].(running := true), View())
    {
      hide Invariant;
      if active[id].running {
        return Some(ResourceExhausted);
      }
      ClaimedKeeps(cfg, View(), id);
      active := active[id := active[id].(running := true)];
      error := None;
    }

    /** Called by the owner of record `serial`, more than once and possibly late. */
    method ReleaseRequest(id: string, serial: nat, completed: bool, now: nat, at: nat)
      requires Valid()
      modifies this
      ensures Valid() && View() == Release(cfg, old(View()), id, serial, completed, now, at)
      ensures ReleasedAs(cfg, old(View()), id, serial, completed, now, at, View())
    {
      hide Invariant, ReleasedAs;
      ReleaseIs(cfg, View(), id, serial, completed, now, at);
      ReleaseKeeps(cfg, View(), id, serial, completed, now, at);
      if id in active && active[id].serial == serial {
        var reason := "completed";
        if !completed {
          if active[id].cause == Cancelled {
            reason := "cancelled";
          } else if active[id].cause == Expired || now >= active[id].deadline {
            reason := "expired";
          } else {
            reason := "failed";
          }
        }
        RetireEntry(id, reason, at);
      }
    }

    method CancelRequest(plan: string, version: nat, id: string, at: nat) returns (error: Option<Error>)
      requires Valid()
      modifies this
      ensures Valid()
      ensures error == if Matches(old(View()), plan, version) then None else Some(InvalidRequest)
      ensures View() == if error.None? then Cancel(cfg, old(View()), id, at) else old(View())
      ensures error.None? ==> CancelledAs(cfg, old(View()), id, at, View())
    {
      hide Invariant, Log, Recent, CancelledAs;
      CancelIs(cfg, View(), id, at);
      var matches := DeploymentMatches(plan, version);
      if !matches {
        return Some(InvalidRequest);
      }
      CancelKeeps(cfg, View(), id, at);
      error := None;
      if id in active {
        active := active[id := Stop(active[id], Cancelled)];
        if !active[id].running && !active[id].allocating {
          RetireEntry(id, "cancelled", at);
        }
      }
    }

    method UnloadStage(plan: string, version: nat, seen: Readings, at: nat) returns (error: Option<Error>, ghost order: seq<string>)
      requires Valid()
      modifies this
      ensures Valid() && Visits(order, Abandoned(old(active), seen))
      ensures var pruned := Prune(cfg, old(View()), order, seen, at);
              match Unload(pruned, plan, version)
              case Ok(after) => error == None && View() == after
              case Err(e) => error == Some(e) && View() == pruned
      ensures UnloadedAs(Prune(cfg, old(View()), order, seen, at), plan, version, View(), error)
    {
      hide Invariant, Prune, Visits, UnloadedAs;
      order := PruneExpired(seen, at);
      UnloadIs(View(), plan, version);
      UnloadKeeps(cfg, View(), plan, version);
      error := None;
      if deployment.None? {
        return;
      }
      var matches := DeploymentMatches(plan, version);
      if !matches || active != map[] {
        return Some(InvalidRequest), order;
      }
      deployment := None;
    }

    /** The memory report: exactly the amounts admission checked, with the requests behind them and, if it is
        configured, the recent log. */
    method ReportMemory(seen: Readings, at: nat) returns (r: Result<Report>, ghost order: seq<string>)
      requires Valid()
      modifies this
      ensures Valid() && Visits(order, Abandoned(old(active), seen)) && View() == Prune(cfg, old(View()), order, seen, at)
      ensures cfg.capacity.Representable() ==> r.Ok?
      ensures r.Ok? ==> forall d: Domain ::
                && r.value.weights.Of(d) == (if deployment.Some? then deployment.value.weights.Of(d) else 0)
                && r.value.cache.Of(d) == Sum(Caches(active, d), active.Keys)
                && r.value.workspace.Of(d) == Top(Workspaces(active, d), active.Keys, PassRows(cfg, View()))
                && (d in r.value.domains <==> cfg.capacity.Of(d) != 0)
      ensures r.Ok? ==> r.value.ids == active.Keys
      ensures r.Ok? ==>
                r.value.observations ==
                  if cfg.observations then Some(Observations(map k | k in active :: RowOf(active[k]), Recent(history), |history|, peak))
                  else None
      ensures r.Ok? && cfg.observations ==>
                var shown := r.value.observations.value.events;
                |shown| == Least(|history|, 256) && shown == history[|history| - |shown|..]
    {
      hide Prune, Visits, Totalled, Sum, Top, Invariant, Recent;
      order := PruneExpired(seen, at);
      InvariantFits(cfg, View());
      var weights := if deployment.Some? then deployment.value.weights else NOTHING;
      var totals, listed := AddUp(active);
      if totals.Err? {
        return Err(totals.error), order;
      }
      TotalledSums(active, listed, totals.value);
      var rows := if deployment.Some? && deployment.value.batches then cfg.maximumDecodeBatch else 1;
      var workspace := LargestWorkspaces(totals.value, rows, listed, active);
      if workspace.Err? {
        return Err(workspace.error), order;
      }
      var observations := None;
      if cfg.observations {
        var requests := CollectRows(active);
        RecentIsEnd(history);
        observations := Some(Observations(requests, lifecycle, lifecycleTotal, peak));
      }
      var domains := set d: Domain | cfg.capacity.Of(d) != 0;
      r := Ok(Report(weights, totals.value.cache, workspace.value, domains, active.Keys, observations));
    }
  }
}
