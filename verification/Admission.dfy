/** The control service's critical sections, each as a function of the state its mutex protects. */
module Admission {
  import opened Numbers
  import opened Results
  import opened Memory

  datatype Config = Config(
    maximumActive: nat, maximumDecodeBatch: nat, maximumCachedTokens: nat, observations: bool, capacity: Amounts)

  datatype StopCause = NotStopped | Cancelled | Expired

  /** A load request: the names that later requests refer to it by, and the rest of what it says. */
  datatype Spec = Spec(plan: string, version: nat, stage: nat, rest: string)

  /** What validation of a load request and the backend factory make of it. */
  datatype Built = Invalid(error: Error) | Failed(error: Error) | Built(weights: Amounts, batches: bool)

  /** A loaded stage. Generations tell successive deployments apart, as their addresses do. */
  datatype Deployment = Deployment(generation: nat, spec: Spec, weights: Amounts, batches: bool)

  /** An admitted request. The serial number stands for the identity of the shared record, and
      `sequence` names the generation whose backend allocated the sequence state. */
  datatype Request = Request(
    serial: nat, tokens: nat, queryTokens: nat, deadline: nat, cache: Amounts, workspace: Amounts, admitted: nat,
    sequence: Option<nat>, cancelled: bool, cause: StopCause, allocating: bool, running: bool)

  datatype Kind = Admitted | Retired

  datatype Event = Event(kind: Kind, id: string, sequence: nat, at: nat, concurrent: set<string>, reason: string)

  /** `history` is the whole lifecycle log, of which the service keeps the last entries. */
  datatype State = State(
    deployment: Option<Deployment>, active: map<string, Request>, issued: nat, generations: nat,
    history: seq<Event>, peak: nat)

  const HISTORY_LIMIT: nat := 256

  const EMPTY := State(None, map[], 0, 0, [], 0)

  /** The end of the log that is kept. */
  function Recent(h: seq<Event>): seq<Event> {
    if |h| <= HISTORY_LIMIT then h else h[|h| - HISTORY_LIMIT..]
  }

  // ---------------------------------------------------------------------------- elementary updates

  /** The first cause wins; the flag that compute polls is set in any case. */
  function Stop(r: Request, cause: StopCause): Request {
    r.(cause := if r.cause == NotStopped then cause else r.cause, cancelled := true)
  }

  /** The other requests that hold allocated sequence state. */
  function Concurrent(active: map<string, Request>, id: string): set<string> {
    set k | k in active && k != id && !active[k].allocating
  }

  function Log(cfg: Config, s: State, kind: Kind, id: string, reason: string, at: nat): State {
    if cfg.observations then
      s.(history := s.history + [Event(kind, id, |s.history| + 1, at, Concurrent(s.active, id), reason)])
    else s
  }

  function Retire(cfg: Config, s: State, id: string, reason: string, at: nat): State {
    Log(cfg, s.(active := s.active - {id}), Retired, id, reason, at)
  }

  function RetireAll(cfg: Config, s: State, order: seq<string>, reason: string, at: nat): State
    decreases |order|
  {
    if order == [] then s else RetireAll(cfg, Retire(cfg, s, order[0], reason, at), order[1..], reason, at)
  }

  /** What the clock says when a section comes to each request. */
  type Readings = string -> nat

  /** Requests past their deadline are told to stop. */
  function Flagged(active: map<string, Request>, seen: Readings): map<string, Request> {
    map k | k in active :: if seen(k) >= active[k].deadline then Stop(active[k], Expired) else active[k]
  }

  /** Those past their deadline that nobody is using. */
  function Abandoned(active: map<string, Request>, seen: Readings): set<string> {
    set k | k in active && seen(k) >= active[k].deadline && !active[k].running && !active[k].allocating
  }

  /** `order` visits each member of `s` once. The map's own order is one such. */
  ghost predicate Visits(order: seq<string>, s: set<string>) {
    && (forall i, j :: 0 <= i < j < |order| ==> order[i] != order[j])
    && forall k :: k in s <==> k in order
  }

  function Prune(cfg: Config, s: State, order: seq<string>, seen: Readings, at: nat): State {
    RetireAll(cfg, s.(active := Flagged(s.active, seen)), order, "expired", at)
  }

  predicate Matches(s: State, plan: string, version: nat) {
    s.deployment.Some? && s.deployment.value.spec.plan == plan && s.deployment.value.spec.version == version
  }

  /** A reservation names the deployment; one that is to execute also names the stage it expects. */
  predicate Serves(s: State, plan: string, version: nat, stage: Option<nat>) {
    Matches(s, plan, version) && (stage.Some? ==> s.deployment.value.spec.stage == stage.value)
  }

  /** Requests one execution pass can serve. */
  function PassRows(cfg: Config, s: State): nat {
    if s.deployment.Some? && s.deployment.value.batches then cfg.maximumDecodeBatch else 1
  }

  // ---------------------------------------------------------------------------- reservation

  function Caches(active: map<string, Request>, d: Domain): map<string, nat> {
    map k | k in active :: active[k].cache.Of(d)
  }

  function Workspaces(active: map<string, Request>, d: Domain): map<string, nat> {
    map k | k in active :: active[k].workspace.Of(d)
  }

  function Lengths(active: map<string, Request>): map<string, nat> {
    map k | k in active :: active[k].tokens
  }

  /** What admission holds against the budget: weights, every cache, and the largest workspaces one
      pass can use at once. */
  ghost function Reserved(weights: Amounts, active: map<string, Request>, rows: nat, d: Domain): nat {
    weights.Of(d) + Sum(Caches(active, d), active.Keys) + Top(Workspaces(active, d), active.Keys, rows)
  }

  ghost function ReservedAmounts(weights: Amounts, active: map<string, Request>, rows: nat): Amounts {
    Amounts(Reserved(weights, active, rows, Host), Reserved(weights, active, rows, Device),
            Reserved(weights, active, rows, PinnedHost), Reserved(weights, active, rows, Unified))
  }

  /** What the backend says a sequence takes. */
  datatype Need = Need(cache: Amounts, workspace: Amounts)

  /** A reservation request, with the backend's answer for its sizes. */
  datatype Ask = Ask(id: string, tokens: nat, chunk: nat, deadline: nat, need: Result<Need>)

  const DEFAULT_PATIENCE: nat := 60_000
  const MAXIMUM_PATIENCE: nat := 3_600_000

  function Deadline(a: Ask, now: nat): Result<nat> {
    if a.deadline == 0 then Ok(now + DEFAULT_PATIENCE)
    else if a.deadline <= now then Err(DeadlineExceeded)
    else if a.deadline - now > MAXIMUM_PATIENCE then Err(InvalidRequest)
    else Ok(a.deadline)
  }

  function Candidate(s: State, a: Ask, deadline: nat, admitted: nat): Request
    requires a.need.Ok?
  {
    Request(s.issued, a.tokens, QueryRows(a.tokens, a.chunk), deadline, a.need.value.cache, a.need.value.workspace, admitted,
            None, false, NotStopped, true, false)
  }

  /** What forbids serving the requests `grown` together. */
  ghost function OverBudget(cfg: Config, s: State, grown: map<string, Request>): Option<Error>
    requires s.deployment.Some?
  {
    var length := Sum(Lengths(grown), grown.Keys);
    var used := ReservedAmounts(s.deployment.value.weights, grown, PassRows(cfg, s));
    if length > MAXIMUM_SIZE || (cfg.maximumCachedTokens != 0 && length > cfg.maximumCachedTokens) then
      Some(ResourceExhausted)
    else if !used.Representable() then Some(ResourceExhausted)
    else RequireMemory(used, cfg.capacity)
  }

  datatype Verdict = Reuse | Reserve

  /** What becomes of a reservation request on an already pruned state. */
  ghost function Judge(cfg: Config, s: State, a: Ask, now: nat): Result<Verdict>
    requires s.deployment.Some?
  {
    if a.id == "" || |a.id| > 256 then Err(InvalidRequest)
    else
      var deadline :- Deadline(a, now);
      if a.id in s.active then
        var existing := s.active[a.id];
        if existing.allocating then Err(ResourceExhausted)
        else if existing.tokens != a.tokens || existing.queryTokens != QueryRows(a.tokens, a.chunk) || existing.cancelled
        then Err(InvalidRequest)
        else Ok(Reuse)
      else if |s.active| >= cfg.maximumActive then Err(ResourceExhausted)
      else
        var _ :- a.need;
        match OverBudget(cfg, s, s.active[a.id := Candidate(s, a, deadline, 0)])
        case Some(e) => Err(e)
        case None => Ok(Reserve)
  }

  function Shortened(r: Request, deadline: nat): Request {
    if r.running || r.deadline <= deadline then r else r.(deadline := deadline)
  }

  /** The state after a reservation request that was not refused. */
  function Granted(cfg: Config, s: State, a: Ask, verdict: Verdict, now: nat, admitted: nat, at: nat): State
    requires Deadline(a, now).Ok? && (verdict.Reuse? ==> a.id in s.active) && (verdict.Reserve? ==> a.need.Ok?)
  {
    var deadline := Deadline(a, now).value;
    match verdict
    case Reuse => s.(active := s.active[a.id := Shortened(s.active[a.id], deadline)])
    case Reserve =>
      Log(cfg, s.(active := s.active[a.id := Candidate(s, a, deadline, admitted)], issued := s.issued + 1),
          Admitted, a.id, "", at)
  }

  /** The backend has answered with sequence state, outside the lock. */
  function Allocated(s: State, id: string, generation: nat): State
    requires id in s.active
  {
    s.(active := s.active[id := s.active[id].(sequence := Some(generation))])
  }

  function Count(active: map<string, Request>): nat {
    |set k | k in active && !active[k].allocating|
  }

  /** Back under the lock after allocation: the request becomes usable, or is retired if it was
      cancelled or ran out of time meanwhile. The clock is read again to tell which. */
  function Finished(cfg: Config, s: State, id: string, now: nat, later: nat, at: nat): State
    requires id in s.active
  {
    var usable := s.(active := s.active[id := s.active[id].(allocating := false)]);
    if usable.active[id].cancelled || now >= usable.active[id].deadline then
      Retire(cfg, usable, id, if later >= usable.active[id].deadline then "expired" else "cancelled", at)
    else
      var count := Count(usable.active);
      usable.(peak := if usable.peak < count then count else usable.peak)
  }

  function AllocationFailed(cfg: Config, s: State, id: string, at: nat): State {
    if id in s.active then Retire(cfg, s, id, "allocation-failed", at) else s
  }

  function Claimed(s: State, id: string): State
    requires id in s.active
  {
    s.(active := s.active[id := s.active[id].(running := true)])
  }

  function ReleaseReason(r: Request, completed: bool, now: nat): string {
    if completed then "completed"
    else if r.cause == Cancelled then "cancelled"
    else if r.cause == Expired || now >= r.deadline then "expired"
    else "failed"
  }

  /** The owner of record `serial` is done with it. */
  function Release(cfg: Config, s: State, id: string, serial: nat, completed: bool, now: nat, at: nat): State {
    if id in s.active && s.active[id].serial == serial then
      Retire(cfg, s, id, ReleaseReason(s.active[id], completed, now), at)
    else s
  }

  function Cancel(cfg: Config, s: State, id: string, at: nat): State {
    if id in s.active then
      var stopped := s.(active := s.active[id := Stop(s.active[id], Cancelled)]);
      if stopped.active[id].running || stopped.active[id].allocating then stopped
      else Retire(cfg, stopped, id, "cancelled", at)
    else s
  }

  /** A watchdog or request guard stops a request it still has a reference to. */
  function Watched(s: State, id: string, serial: nat, cause: StopCause): State {
    if id in s.active && s.active[id].serial == serial then s.(active := s.active[id := Stop(s.active[id], cause)]) else s
  }

  /** An exact retry keeps everything; another request is refused while a stage is loaded. The scheduler is
      configured before the stage is built. */
  function Load(cfg: Config, s: State, spec: Spec, built: Built): Result<State> {
    if s.deployment.Some? then
      if s.deployment.value.spec == spec then Ok(s) else Err(InvalidRequest)
    else if built.Invalid? then Err(built.error)
    else if cfg.maximumDecodeBatch == 0 || cfg.maximumDecodeBatch > 8 then Err(InvalidRequest)
    else if built.Failed? then Err(built.error)
    else match RequireMemory(built.weights, cfg.capacity)
         case Some(e) => Err(e)
         case None =>
           Ok(s.(deployment := Some(Deployment(s.generations, spec, built.weights, built.batches)), generations := s.generations + 1))
  }

  /** A deployment goes away only when nothing is active. */
  function Unload(s: State, plan: string, version: nat): Result<State> {
    if s.deployment.None? then Ok(s)
    else if !Matches(s, plan, version) || s.active != map[] then Err(InvalidRequest)
    else Ok(s.(deployment := None))
  }
}
