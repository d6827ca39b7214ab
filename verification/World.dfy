/** A worker: control service, stage scheduler and their callers, interleaved between lock acquisitions. */
module World {
  import opened Results
  import opened Memory
  import opened Admission
  import opened AdmissionSafety
  import Batch
  import Scheduling
  import Stage

  /** A thread that dropped the lock to allocate for a new request, with the deployment it remembers and the
      lengths it asked for. */
  datatype Reservation = Reservation(id: string, generation: nat, claim: bool, tokens: nat, chunk: nat)

  /** The owner of a running request, with the deployment it remembers, its ticket while it waits, and the lengths
      it asked for. */
  datatype Lease = Lease(id: string, generation: nat, ticket: Option<nat>, tokens: nat, chunk: nat)

  /** Reservers and owners are named by the serial numbers of their records; `returned` are the records
      whose owners have given them back and may still do so again. */
  datatype World = World(
    control: State, reserving: map<nat, Reservation>, leases: map<nat, Lease>, returned: map<nat, string>,
    sched: Scheduling.Sched, clock: nat)

  const START := World(EMPTY, map[], map[], map[], Scheduling.IDLE, 0)

  datatype Step =
    | Load(spec: Spec, built: Built, order: seq<string>, seen: Readings)
    | Unload(plan: string, version: nat, order: seq<string>, seen: Readings)
    | Poll(order: seq<string>, seen: Readings)
    | Reserve(plan: string, version: nat, stage: Option<nat>, ask: Ask, order: seq<string>, seen: Readings, now: nat,
              admitted: nat)
    | Allocate(serial: nat)
    | Fail(serial: nat)
    | Finish(serial: nat, now: nat, later: nat)
    | Release(serial: nat, completed: bool, now: nat)
    | ReleaseAgain(serial: nat, completed: bool, now: nat)
    | Cancel(plan: string, version: nat, id: string)
    | Watch(serial: nat, cause: StopCause)
    | Submit(serial: nat, ticket: nat, item: Batch.Item)
    | GiveUp(ticket: nat)
    | Lead(ticket: nat, dead: Scheduling.Dead)
    | Complete(outputs: Result<seq<Stage.Output>>)
    | Leave(ticket: nat)

  ghost predicate PrunedBy(s: State, order: seq<string>, seen: Readings) {
    Visits(order, Abandoned(s.active, seen))
  }

  /** What a caller can do next. */
  ghost predicate Enabled(w: World, step: Step) {
    match step
    case Load(_, _, order, seen) => PrunedBy(w.control, order, seen)
    case Unload(_, _, order, seen) => PrunedBy(w.control, order, seen)
    case Poll(order, seen) => PrunedBy(w.control, order, seen)
    case Reserve(_, _, _, _, order, seen, _, _) => PrunedBy(w.control, order, seen)
    case Allocate(n) => n in w.reserving && w.reserving[n].id in w.control.active && w.control.active[w.reserving[n].id].sequence.None?
    case Fail(n) => n in w.reserving && w.reserving[n].id in w.control.active && w.control.active[w.reserving[n].id].sequence.None?
    case Finish(n, _, _) => n in w.reserving && w.reserving[n].id in w.control.active && w.control.active[w.reserving[n].id].sequence.Some?
    case Release(n, _, _) => n in w.leases && w.leases[n].ticket.None?
    case ReleaseAgain(n, _, _) => n in w.returned
    case Cancel(_, _, _) => true
    case Watch(n, cause) => (n in w.leases || n in w.returned) && cause != NotStopped
    case Submit(n, t, item) => n in w.leases && w.leases[n].ticket.None? && t !in w.sched.tickets && item.sequence == n
    case GiveUp(t) => t in w.sched.tickets && !w.sched.tickets[t].claimed
    case Lead(t, _) => Scheduling.CanClaim(w.sched, t) && w.control.deployment.Some?
    case Complete(_) => w.sched.dispatch != []
    case Leave(t) => t in w.sched.tickets && w.sched.tickets[t].done && w.sched.leader != Some(t)
  }

  /** A request of a free owner that becomes its own. */
  function Claiming(w: World, id: string, tokens: nat, chunk: nat): World
    requires id in w.control.active && w.control.deployment.Some?
  {
    if w.control.active[id].running then w
    else w.(control := Claimed(w.control, id),
            leases := w.leases[w.control.active[id].serial := Lease(id, w.control.deployment.value.generation, None, tokens, chunk)])
  }

  ghost function Reserving(cfg: Config, w: World, plan: string, version: nat, stage: Option<nat>, a: Ask, order: seq<string>,
                           seen: Readings, now: nat, admitted: nat, at: nat): World
  {
    if !Serves(w.control, plan, version, stage) then w
    else
      var s := Prune(cfg, w.control, order, seen, at);
      var pruned := w.(control := s);
      if s.deployment.None? then pruned
      else match Judge(cfg, s, a, now)
           case Err(_) => pruned
           case Ok(verdict) =>
             JudgedDeadline(cfg, s, a, now);
             var granted := pruned.(control := Granted(cfg, s, a, verdict, now, admitted, at));
             if verdict.Reserve? then
               granted.(reserving := w.reserving[s.issued := Reservation(a.id, s.deployment.value.generation, stage.Some?, a.tokens, a.chunk)])
             else if stage.Some? then Claiming(granted, a.id, a.tokens, a.chunk)
             else granted
  }

  function Finishing(cfg: Config, w: World, n: nat, now: nat, later: nat, at: nat): World
    requires n in w.reserving && w.reserving[n].id in w.control.active
  {
    var r := w.reserving[n];
    var after := w.(control := Finished(cfg, w.control, r.id, now, later, at), reserving := w.reserving - {n});
    if r.claim && r.id in after.control.active && after.control.deployment.Some? then Claiming(after, r.id, r.tokens, r.chunk) else after
  }

  /** The owner of ticket `t` no longer waits. */
  function Detached(w: World, t: nat): map<nat, Lease> {
    if t in w.sched.tickets && w.sched.tickets[t].item.sequence in w.leases then
      var n := w.sched.tickets[t].item.sequence;
      w.leases[n := w.leases[n].(ticket := None)]
    else w.leases
  }

  function Loaded(cfg: Config, w: World, s: State, spec: Spec, built: Built): World {
    match Admission.Load(cfg, s, spec, built)
    case Err(_) => w.(control := s)
    case Ok(after) =>
      if s.deployment.Some? then w.(control := after)
      else w.(control := after, sched := Scheduling.IDLE.(maximumDecodeBatch := cfg.maximumDecodeBatch))
  }

  function Unloaded(w: World, s: State, plan: string, version: nat): World {
    match Admission.Unload(s, plan, version)
    case Err(_) => w.(control := s)
    case Ok(after) => w.(control := after, sched := if s.deployment.Some? then Scheduling.IDLE else w.sched)
  }

  ghost function Next(cfg: Config, w: World, step: Step, at: nat): World
    requires Enabled(w, step)
  {
    var s := w.control;
    var after :=
      match step
      case Load(spec, built, order, seen) => Loaded(cfg, w, Prune(cfg, s, order, seen, at), spec, built)
      case Unload(plan, version, order, seen) => Unloaded(w, Prune(cfg, s, order, seen, at), plan, version)
      case Poll(order, seen) => w.(control := Prune(cfg, s, order, seen, at))
      case Reserve(plan, version, stage, a, order, seen, now, admitted) =>
        Reserving(cfg, w, plan, version, stage, a, order, seen, now, admitted, at)
      case Allocate(n) => w.(control := Allocated(s, w.reserving[n].id, w.reserving[n].generation))
      case Fail(n) => w.(control := AllocationFailed(cfg, s, w.reserving[n].id, at), reserving := w.reserving - {n})
      case Finish(n, now, later) => Finishing(cfg, w, n, now, later, at)
      case Release(n, completed, now) =>
        w.(control := Admission.Release(cfg, s, w.leases[n].id, n, completed, now, at), leases := w.leases - {n},
           returned := w.returned[n := w.leases[n].id])
      case ReleaseAgain(n, completed, now) =>
        w.(control := Admission.Release(cfg, s, w.returned[n], n, completed, now, at))
      case Cancel(plan, version, id) => if Matches(s, plan, version) then w.(control := Admission.Cancel(cfg, s, id, at)) else w
      case Watch(n, cause) =>
        w.(control := Watched(s, if n in w.leases then w.leases[n].id else w.returned[n], n, cause))
      case Submit(n, t, item) =>
        w.(sched := Scheduling.Enqueue(w.sched, t, item), leases := w.leases[n := w.leases[n].(ticket := Some(t))])
      case GiveUp(t) => w.(sched := Scheduling.Abandon(w.sched, t), leases := Detached(w, t))
      case Lead(t, dead) => w.(sched := Scheduling.Claim(w.sched, t, s.deployment.value.batches, dead))
      case Complete(outputs) => w.(sched := Scheduling.Complete(w.sched, outputs))
      case Leave(t) => w.(sched := Scheduling.Leave(w.sched, t), leases := Detached(w, t));
    after.(clock := at)
  }

  /** The clock does not run backwards; an admission's time is read within its section. */
  predicate InTime(w: World, step: Step, at: nat) {
    w.clock <= at && (step.Reserve? ==> w.clock <= step.admitted <= at)
  }

  /** A finite run: every step is enabled and in time. */
  ghost predicate Steps(cfg: Config, w: World, v: World) {
    exists step, at :: Enabled(w, step) && InTime(w, step, at) && v == Next(cfg, w, step, at)
  }

  ghost predicate Run(cfg: Config, run: seq<World>) {
    && run != [] && run[0] == START
    && forall i :: 0 <= i < |run| - 1 ==> Steps(cfg, run[i], run[i + 1])
  }
}
