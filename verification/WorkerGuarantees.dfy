/** What a worker guarantees in every reachable state. */
module WorkerGuarantees {
  import opened Numbers
  import opened Results
  import opened Memory
  import opened Admission
  import opened AdmissionSafety
  import opened World
  import opened Ownership
  import opened WorldSafety
  import Batch
  import Scheduling

  /** What is in use while a pass runs: the weights, every admitted request's cache, and the workspaces of
      the requests in the pass. It never exceeds the capacity of any memory domain, although admission
      reserves workspaces for only as many requests as one pass can take. */
  lemma UsedMemoryFits(cfg: Config, run: seq<World>, i: nat, d: Domain)
    requires Run(cfg, run) && i < |run| && run[i].control.deployment.Some?
    ensures InPass(run[i]) <= run[i].control.active.Keys
    ensures var s := run[i].control;
            s.deployment.value.weights.Of(d) + Sum(Caches(s.active, d), s.active.Keys) + Sum(Workspaces(s.active, d), InPass(run[i]))
            <= cfg.capacity.Of(d)
  {
    RunIsSafe(cfg, run, i);
    PassIsActive(cfg, run[i]);
    SafeFits(cfg, run[i], d);
    var s := run[i].control;
    TopBounds(Workspaces(s.active, d), s.active.Keys, PassRows(cfg, s), InPass(run[i]));
  }

  /** A batch of decode rows that the handlers have formed well is one the backend can combine: its
      sequences are distinct because each owner has one ticket. */
  lemma PassIsJoinable(cfg: Config, run: seq<World>, i: nat, items: seq<Batch.Item>)
    requires Run(cfg, run) && i < |run| && |items| == |run[i].sched.dispatch| > 1
    requires forall k :: 0 <= k < |items| ==>
               run[i].sched.dispatch[k] in run[i].sched.tickets && items[k] == run[i].sched.tickets[run[i].sched.dispatch[k]].item
    requires forall k :: 0 <= k < |items| ==> !items[k].Prefill() ==> Batch.DecodeRow(items[k]) && Batch.SameForm(items[k].input, items[0].input)
    ensures Batch.Joinable(items)
  {
    hide Run, Safe, Batch.DecodeRow, Batch.SameForm;
    RunIsSafe(cfg, run, i);
    var w := run[i];
    PassIsDecode(cfg, w);
    forall j, k | 0 <= j < k < |items|
      ensures items[j].sequence != items[k].sequence
    {
      TicketsApart(cfg, w, j, k);
    }
    assert forall k :: 0 <= k < |items| ==> w.sched.dispatch[k] in w.sched.dispatch;
    assert forall k :: 0 <= k < |items| ==> !items[k].Prefill();
  }

  /** Between dropping the lock and taking it again a reserver's entry stays its own, still allocating,
      and the deployment stays the one it remembers, so its sequence state belongs to that deployment. */
  lemma ReserverIsUndisturbed(cfg: Config, run: seq<World>, i: nat, n: nat)
    requires Run(cfg, run) && i < |run| && n in run[i].reserving
    ensures var w, r := run[i], run[i].reserving[n];
            && r.id in w.control.active && w.control.active[r.id].serial == n && w.control.active[r.id].allocating
            && w.control.deployment.Some? && w.control.deployment.value.generation == r.generation
  {
    hide Run;
    RunIsSafe(cfg, run, i);
    ReserverFinds(cfg, run[i], n);
  }

  /** Every owner's record stays in the table, with the lengths the owner asked for and sequence state allocated by
      the owner's deployment, which stays loaded. */
  lemma LeaseIsGood(cfg: Config, run: seq<World>, i: nat, n: nat)
    requires Run(cfg, run) && i < |run| && n in run[i].leases
    ensures var w, l := run[i], run[i].leases[n];
            && l.id in w.control.active && w.control.active[l.id].serial == n && w.control.active[l.id].running
            && w.control.active[l.id].sequence == Some(l.generation)
            && w.control.active[l.id].tokens == l.tokens && w.control.active[l.id].queryTokens == QueryRows(l.tokens, l.chunk)
            && w.control.deployment.Some? && w.control.deployment.value.generation == l.generation
  {
    hide Run;
    RunIsSafe(cfg, run, i);
    OwnerIsNoReserver(cfg, run[i].control, n, run[i].reserving, run[i].leases, run[i].returned);
  }

  /** In every reachable world a repeated or late release leaves the whole control state alone. */
  lemma LateReleaseIsHarmless(cfg: Config, run: seq<World>, i: nat, n: nat, completed: bool, now: nat, at: nat)
    requires Run(cfg, run) && i < |run| && n in run[i].returned
    ensures Admission.Release(cfg, run[i].control, run[i].returned[n], n, completed, now, at) == run[i].control
  {
    hide Run;
    RunIsSafe(cfg, run, i);
    SecondReleaseIsHarmless(cfg, run[i], n, completed, now, at);
  }

  /** Whatever is in a queue or in the pass is the ticket of a caller still inside: the owner of the very
      request the ticket works on, who waits for this ticket and no other. */
  lemma TicketsHaveCallers(cfg: Config, run: seq<World>, i: nat, t: nat)
    requires Run(cfg, run) && i < |run|
    requires var sched := run[i].sched; t in sched.prefills || t in sched.decodes || t in sched.dispatch
    ensures t in run[i].sched.tickets
    ensures var n := run[i].sched.tickets[t].item.sequence;
            n in run[i].leases && run[i].leases[n].ticket == Some(t) && run[i].leases[n].id in run[i].control.active
  {
    hide Run;
    RunIsSafe(cfg, run, i);
    PlacedIsAttached(cfg, run[i], t);
  }

  /** Replaying the whole log gives the table, and the log is exact. */
  lemma LogIsExact(cfg: Config, run: seq<World>, i: nat)
    requires Run(cfg, run) && i < |run| && cfg.observations
    ensures Exact(run[i].control.history) && Replay(run[i].control.history) == run[i].control.active.Keys
  {
    hide Run;
    RunIsSafe(cfg, run, i);
    SafeLog(cfg, run[i]);
  }
}
