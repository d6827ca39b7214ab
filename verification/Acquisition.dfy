/** What an owner is handed for a request: the link between the worker's tables and generation. */
module Acquisition {
  import opened Numbers
  import opened Results
  import opened Admission
  import opened World
  import opened WorkerGuarantees
  import Stage
  import FinalStage
  import Generation

  /** The handler's view of an admitted record: the lengths it was admitted with, and sequence state for them. */
  predicate HandedOut(r: Request, d: Stage.Dense, l: FinalStage.Lease) {
    && l.maximumTokens == r.tokens && l.maximumQueryTokens == r.queryTokens
    && l.identity.Valid() && l.identity.maximumTokens == r.tokens && l.identity.hidden == d.Hidden()
    && Stage.AllocateSequence(d, r.tokens) == Ok(l.sequence)
  }

  /** In every reachable world, an owner that asked for a generation request's total length and chunk size, new or by a
      retry, is handed what generation relies on. */
  lemma OwnerIsGranted(cfg: Config, run: seq<World>, i: nat, n: nat, d: Stage.Dense, request: Generation.Prompt, l: FinalStage.Lease)
    requires Run(cfg, run) && i < |run| && n in run[i].leases
    requires run[i].leases[n].tokens == Generation.TotalTokens(request) && run[i].leases[n].chunk == request.chunk
    requires var id := run[i].leases[n].id; id in run[i].control.active ==> HandedOut(run[i].control.active[id], d, l)
    ensures Generation.Grants(d, request, l)
  {
    hide Run;
    LeaseIsGood(cfg, run, i, n);
  }
}
