# hLLM: a verified model of the native runtime

hLLM splits one decoder-only language model over two workers. This project models the parts of it whose
correctness depends on more than one function, and proves what they promise. `dafny verify dfyconfig.toml`
checks everything.

**Admission and scheduling.** `Admission` is the control service between lock acquisitions: every critical
section is a function of the state its mutex protects. `ControlService` is its code, a class whose methods are
proved equal to those functions, loops included; `Verdicts` and `Outcomes` say what each section answers and leaves
behind without referring to them. `Scheduling` and `StageScheduler` do the same for the stage scheduler's queues of
tickets, and `Fairness` has what its runs guarantee. `World` puts both together with their callers: a thread that reserves drops the lock while the backend allocates, an owner holds a lease and waits for at
most one ticket, records may be released twice or late, requests are cancelled and expire at any time. A run is any
sequence of such steps under a clock that does not run backwards. `Ownership` and `WorldSafety` prove the invariants
of every reachable state, `WorkerGuarantees` has what follows, and `Residence` follows each record from its admission
to its retirement. The main result is joint: admission reserves workspaces for only as many requests as one pass can
take, and the scheduler's passes are sets of distinct admitted requests no larger than that, so the memory in use never
exceeds any domain's capacity. A reserver's later steps are stated to be possible only while its entry is there;
`ReserverIsUndisturbed` shows that this excludes nothing.

**Overlap evidence.** `Overlap` is the derivation of "these two requests overlapped" from polled reports of the
bounded lifecycle log. `Evolution` and `WorldEvolution` say how one step of the worker changes what can be observed of
it; `OverlapMeaning` says what an interval claims in terms of the reports alone, `OverlapSoundness` proves that a
derived interval is always real, and `FailedAllocation` exhibits a run on which the derivation would be wrong without
its filter for failed allocations.

**Generation.** `Generation` and `FinalStage` are the driver and the downstream stage, two state machines that each
keep their own counters, and `Codec` is the message between them. The reference is plain autoregression: recompute
the whole prefix for every token. Generation emits exactly the reference's tokens, for every chunk size, on one stage
or two, and the downstream stage rejects nothing on the way. Anything may interrupt it at any point; the client has then
seen the beginning of the same run.

**The CPU reference.** `Transformer` and `ChunkedPrefill` give the meaning of a decoder layer row by row over scalars
whose arithmetic is a parameter, and prove that any division of a sequence into chunks, with cached keys and values,
computes what one call over all of it computes. `Matrices`, `KvCache`, `Kernels`, `Rotation`, `Attention`, `Layer`,
`LayerStack` and `CpuStage` are the loops over flat arrays, proved equal to that meaning. `Stage` and `Prefix` put the
stages together: what generation executes is what `CpuStage` computes.

**Arithmetic.** `Binary`, `Half` and `Rounding` prove that the conversions to binary16 and bfloat16 round correctly (IEEE 754-2019,
section 4.3.1) and that crossing a second stage boundary changes nothing. `Sampling` is nucleus sampling over reals.

**Other components.** `BufferPool` (a best-fit pool of host buffers), `ComputeProbe` and `ProbeAcceptance` (a
producer of timing records and the validator that must accept them), `Planner` (enumeration, ranking and validation of
placements), `Batch` (joining and splitting decode batches) and `HttpAdmission` (the HTTP server's queue).

Two results are negative. The planner looks its choice up again by name, and the names of two placements can collide
for distinct worker names (`x` and `x--x`): `CollidingNamesMislead` has it deploy a placement it found infeasible, and
`ReliableExactly` says for exactly which worker names this cannot happen. A half that is a NaN does not always survive
widening and narrowing: `NarrowUndoesWiden` says which bit changes.

Conventions: bit patterns are naturals, with masks and constant shifts written as remainders and divisions; sizes are
unbounded naturals with the runtime's 64-bit overflow checks written out; a shared record is named by a serial number
that stands for its identity; clock readings, the backend's answers, the sampler's draw and the readings of the probe
are parameters; exceptions are the `Err` of a `Result`.

## Model

| member | source | states |
|---|---|---|
| `WorkerGuarantees.UsedMemoryFits` | cpp/src/worker/control_service.cpp:430-455 | in every reachable state, per memory domain, weights plus all admitted caches plus the workspaces of the requests in the running pass stay within capacity |
| `WorldSafety.RunIsSafe` | cpp/src/worker/control_service.cpp:391-583 | every state of every run satisfies the joint invariant of control service, scheduler, reservers and owners |
| `WorldSafety.PassIsActive` | cpp/src/worker/scheduler.cpp:65-96 | a pass works on distinct admitted requests that are running and hold sequence state, no more of them than tickets |
| `WorldSafety.LedIsSized` | cpp/src/worker/control_service.cpp:489-492 | a claimed pass is never larger than the number of requests admission shares workspaces among |
| `WorkerGuarantees.TicketsHaveCallers` | cpp/src/worker/scheduler.cpp:34-59 | whatever is in a queue or pass is the ticket of a caller still inside, who owns the admitted request it works on |
| `WorkerGuarantees.PassIsJoinable` | cpp/src/decode_batch.cpp:8-39 | a pass of several well-formed decode rows is always accepted by the batch combiner: the sequences are distinct |
| `WorkerGuarantees.ReserverIsUndisturbed` | cpp/src/worker/control_service.cpp:454-486 | while the lock is dropped for allocation no step removes the entry, replaces its record or replaces the deployment |
| `WorkerGuarantees.LeaseIsGood` | cpp/src/worker/control_service.cpp:494-508 | each lease's record stays in the table with the lengths its owner asked for and sequence state allocated by the lease's own, still loaded, deployment |
| `Acquisition.OwnerIsGranted` | cpp/src/worker/execution_service.cpp:430-437 | in every reachable state an owner that asked for a generation request's lengths, new or by a retry, is handed what generation relies on |
| `Residence.StepRecords` | cpp/src/worker/control_service.cpp:446-455 | no step changes a record's name, number, sizes or admission time, and the only new one is as its reserver asked, numbered next |
| `Residence.ResidesSince` | cpp/src/worker/control_service.cpp:446-455 | every record in the table has been there unchanged since the one section that admitted it, whose times enclose its admission time |
| `Residence.SerialIsIdentity` | cpp/src/worker/control_service.cpp:446-455 | over a whole run one number names one record |
| `WorkerGuarantees.LateReleaseIsHarmless` | cpp/src/worker/control_service.cpp:509-530 | in every reachable state a second or late release changes nothing, even if a newer request has the same ID |
| `WorkerGuarantees.LogIsExact` | cpp/src/worker/control_service.cpp:308-330 | the log is numbered without gaps, admission and retirement alternate per ID, and replaying it gives the table |
| `WorldSafety.StepIsSafe` | cpp/src/worker/control_service.cpp:352-583 | each step of any caller keeps the joint invariant |
| `WorldEvolution.PeakIsMaximum` | cpp/src/worker/control_service.cpp:482-485 | the recorded peak is the maximum number of allocated requests over all states in which the lock was free |
| `WorldEvolution.StepEvolves` | cpp/src/worker/control_service.cpp:308-330 | each step only appends events that are true of the state it found: exact time, the other usable requests, sequence state held at retirement |
| `WorldEvolution.LoggedWhen` | cpp/src/worker/control_service.cpp:308-322 | every event of the log was written by one step of the run and was true then |
| `WorldEvolution.TimePasses` | cpp/src/worker/control_service.cpp:44-47 | over a run the clock and the log only grow |
| `AdmissionSafety.GrantedKeeps` | cpp/src/worker/control_service.cpp:414-455 | admitting or reusing a request keeps the reservation within capacity, the token limit, the request limit and the log exact |
| `AdmissionSafety.FinishedKeeps` | cpp/src/worker/control_service.cpp:470-486 | coming back with sequence state keeps the invariant, whether the request becomes usable or is retired |
| `AdmissionSafety.PruneKeeps` | cpp/src/worker/control_service.cpp:332-346 | expiry keeps the invariant in any order of visiting |
| `AdmissionSafety.ReleaseKeeps` | cpp/src/worker/control_service.cpp:509-530 | a release keeps the invariant |
| `AdmissionSafety.CancelKeeps` | cpp/src/worker/control_service.cpp:555-567 | a cancellation keeps the invariant |
| `AdmissionSafety.LoadKeeps` | cpp/src/worker/control_service.cpp:352-389 | loading keeps the invariant: a new stage's weights fit before it becomes the deployment |
| `AdmissionSafety.ReservedShrinks` | cpp/src/worker/control_service.cpp:22-25 | what is reserved never grows when requests go away, although the largest workspaces are shared |
| `Memory.TopBounds` | cpp/src/worker/control_service.cpp:22-42 | the sum of the `rows` largest bounds every choice of at most `rows` members |
| `Memory.TopIsReached` | cpp/src/worker/control_service.cpp:22-42 | some choice of at most `rows` members reaches it, so it is the least such bound |
| `Memory.TopShrinks` | cpp/src/worker/control_service.cpp:22-42 | it does not grow on a subset |
| `Memory.LargestSum` | cpp/src/worker/control_service.cpp:28-38 | partial sort and sum compute exactly that, refusing to wrap around |
| `ControlService.LargestWorkspaces` | cpp/src/worker/control_service.cpp:26-42 | the workspaces of the table's largest requests, domain by domain, or an overflow that is really there |
| `ControlService.AddUp` | cpp/src/worker/control_service.cpp:431-438 | one pass over the table gives the exact sums of caches and tokens and each workspace once, or a sum really overflows |
| `ControlService.CheckBudget` | cpp/src/worker/control_service.cpp:430-445 | the checks refuse exactly when the requests do not fit together |
| `ControlService.OverflowRefused` | cpp/include/hllm/runtime/memory.hpp:19-29 | an amount that does not fit 64 bits is refused wherever in the sum it arises |
| `ControlService.CollectConcurrent` | cpp/src/worker/control_service.cpp:313-319 | lists exactly the other requests that hold allocated state |
| `ControlService.Trim` | cpp/src/worker/control_service.cpp:320-321 | what is kept of the log is its last 256 events |
| `ControlService.Service.RecordLifecycle` | cpp/src/worker/control_service.cpp:308-322 | appends one event and keeps the recent log and the total in step |
| `ControlService.Service.PruneExpired` | cpp/src/worker/control_service.cpp:332-346 | erasing while iterating, in whatever order and with a clock reading for each request: an expired request that nobody uses is gone with one event, any other expired one is told to stop and keeps the first cause it was given, and the rest are untouched |
| `ControlService.Service.LoadStage` | cpp/src/worker/control_service.cpp:352-389 | an exact retry changes nothing, any other request is refused while a stage is loaded, the first of validation, configuration, build and budget that fails decides, and a failed load leaves the state pruned only |
| `ControlService.Service.Decide` | cpp/src/worker/control_service.cpp:396-445 | the answer of a reservation: granted exactly under its conditions, and each refusal exactly when its reason is the first that applies |
| `ControlService.Service.BeginReserve` | cpp/src/worker/control_service.cpp:494-502 | a stale deployment or wrong stage changes nothing; otherwise the table is pruned and the request gets that answer; a refusal enters nothing, and a grant leaves a record with the lengths asked for, not cancelled, and with a deadline no later than the one asked for unless its owner is running |
| `Verdicts.JudgeAnswers` | cpp/src/worker/control_service.cpp:396-445 | name, deadline, retry, request limit, backend, token limit, pinned bytes and budget, in this order: the first that fails gives its error, and if none does the reservation is granted |
| `Verdicts.BurdenIsWorstPass` | cpp/src/worker/control_service.cpp:430-445 | the budget test passes for a domain exactly if weights, caches and the workspaces of every choice of as many requests as one pass takes fit |
| `Verdicts.GrantedEnters` | cpp/src/worker/control_service.cpp:415-455 | a retry finds its record unchanged but for the deadline; a new request is the next record, with the sizes asked for, and its admission is logged with the others that hold allocated state |
| `Numbers.QueryRowsIsLargest` | cpp/include/hllm/runtime/stage_backend.hpp:61-67 | the rows of one prefill input are the most that exceed neither the sequence nor the size asked for |
| `ControlService.Service.Grant` | cpp/src/worker/control_service.cpp:415-455 | a retry only shortens the deadline of an idle request; a new request is entered, numbered and logged |
| `ControlService.Service.FinishReserve` | cpp/src/worker/control_service.cpp:470-486 | after allocation the request is usable exactly if it was neither cancelled nor too late; otherwise it is retired, and the caller told, with the right reason |
| `ControlService.Service.AbortReserve` | cpp/src/worker/control_service.cpp:463-469 | a failed allocation retires the entry |
| `ControlService.Service.Claim` | cpp/src/worker/control_service.cpp:503-507 | a request has one execution owner at a time |
| `ControlService.Service.ReleaseRequest` | cpp/src/worker/control_service.cpp:509-530 | retires the caller's own record only: completed, or for the first cause that stopped it, or because its time had run out, or because it failed |
| `ControlService.Service.CancelRequest` | cpp/src/worker/control_service.cpp:555-567 | stops the request, and retires it if nobody is using it |
| `Outcomes.WatchedIs` | cpp/src/worker/execution_service.cpp:95-127 | a watchdog stops the record it knows and no other, and the first cause stays |
| `ControlService.Service.UnloadStage` | cpp/src/worker/control_service.cpp:568-583 | a deployment goes away only with no request active |
| `ControlService.Service.ReportMemory` | cpp/src/worker/control_service.cpp:584-673 | reports exactly the weights, caches and shared workspaces that admission holds, every admitted request, and the last 256 events with their total and the peak; it never fails |
| `StageScheduler.Scheduler.Configure` | cpp/src/worker/scheduler.cpp:17-26 | refuses sizes outside 1 to 8 and an active scheduler |
| `StageScheduler.Scheduler.Next` | cpp/src/worker/scheduler.cpp:27-32 | some ticket exactly if any is unclaimed: the oldest prefill exactly if no decode waits or the streak is full, otherwise the oldest decode |
| `StageScheduler.Take` | cpp/src/worker/scheduler.cpp:69-89 | claims tickets from the front up to the limit, marking ended ones done with their error |
| `StageScheduler.Scheduler.Lead` | cpp/src/worker/scheduler.cpp:65-96 | one claim, keeping the scheduler's invariant: the front of the leader's queue, in order and as much of it as one pass may take |
| `StageScheduler.Scheduler.GiveUp` | cpp/src/worker/scheduler.cpp:52-59 | an unclaimed caller leaves its queue |
| `StageScheduler.Deliver` | cpp/src/worker/scheduler.cpp:117-122 | each member of the pass gets its own output, or the pass's error |
| `StageScheduler.Scheduler.Finish` | cpp/src/worker/scheduler.cpp:110-128 | completes a pass, counting its steps, its batch and the largest batch |
| `StageScheduler.Scheduler.Go` | cpp/src/worker/scheduler.cpp:131-132 | a done ticket's caller takes away its result or error |
| `Scheduling.ClaimKeeps` | cpp/src/worker/scheduler.cpp:65-96 | a claim keeps every ticket in exactly one place and the pass one prefill or at most the batch limit |
| `Scheduling.CompleteKeeps` | cpp/src/worker/scheduler.cpp:116-129 | so does completion |
| `Scheduling.AbandonKeeps` | cpp/src/worker/scheduler.cpp:52-59 | so does giving up |
| `Scheduling.ScanTakesApart` | cpp/src/worker/scheduler.cpp:69-85 | a claim takes a prefix of the queue apart into live, ended and remaining tickets, in order, and stops only at the limit or the end |
| `Scheduling.ClaimIsFront` | cpp/src/worker/scheduler.cpp:65-96 | a claim takes one prefill, or decodes up to the batch size and what the streak has left while a prefill waits, and no fewer unless the queue ends; those that have ended get their errors, the others run in order |
| `Scheduling.LimitIsPositive` | cpp/src/worker/scheduler.cpp:67-69 | the subtraction from the streak limit never underflows and leaves the leader a place |
| `Fairness.TicketsLive` | cpp/src/worker/scheduler.cpp:51-63 | a ticket goes away only unclaimed by its caller giving up, or done by its caller leaving; a claim is never withdrawn |
| `Fairness.AnswersAreFinal` | cpp/src/worker/scheduler.cpp:116-132 | over any run a claimed ticket is answered at most once, and its answer does not change |
| `Fairness.OwnAnswer` | cpp/src/worker/scheduler.cpp:110-122 | each member gets the output at its own place, or the one error; with a wrong output count nobody gets an output |
| `Fairness.DeadAnswer` | cpp/src/worker/scheduler.cpp:73-84 | a request that ended while queued gets its own error and does not run |
| `Fairness.ClaimsAreBounded` | cpp/src/worker/scheduler.cpp:51-95 | without arrivals every claim shortens the queues |
| `Fairness.PrefillWaits` | cpp/src/worker/scheduler.cpp:27-32 | while the prefill at index k waits, at most 8(k+1) decodes start |
| `Fairness.DecodeWaits` | cpp/src/worker/scheduler.cpp:67-96 | while a decode waits, at most one prefill starts before the next decode |
| `Overlap.Derive` | python/hllm_control/qualification/concurrent.py:524-602 | one worker's loops compute the derivation that the meaning and soundness theorems are about |
| `OverlapMeaning.DerivedStart` | python/hllm_control/qualification/concurrent.py:541-559 | an interval starts at the later of both members' last admissions, if they were gathered, and otherwise when the later of their rows in the first joint report was admitted |
| `OverlapMeaning.DerivedEnd` | python/hllm_control/qualification/concurrent.py:560-598 | it ends at the first retirement that proves the overlap; without one at the first retirement of a member; and without that at the latest joint report since the start |
| `OverlapMeaning.NothingDerived` | python/hllm_control/qualification/concurrent.py:541-586 | if there is a start but no interval, no event and no report since the start shows the two together |
| `OverlapMeaning.GatherCollects` | python/hllm_control/qualification/concurrent.py:526-529 | merging the reports keeps one event for each number, the last that carried it, in the order in which the numbers first came |
| `Overlap.DeriveOverlap` | python/hllm_control/qualification/concurrent.py:505-603 | every concurrent round and every worker, in order |
| `Overlap.FindingsAreDerived` | python/hllm_control/qualification/concurrent.py:520-603 | every interval returned is one derivation, for a round that was not serial |
| `Overlap.DerivedAreFindings` | python/hllm_control/qualification/concurrent.py:520-603 | and each derivation for such a round is returned |
| `Overlap.FindAllocated` | python/hllm_control/qualification/concurrent.py:494-502 | the first row that holds allocated cache |
| `OverlapSoundness.OverlapIsReal` | python/hllm_control/qualification/concurrent.py:508-519 | for any run and any reports polled from it, a derived interval implies a moment when both requests' sequence state existed together |
| `OverlapSoundness.ReservedThroughoutOverlap` | python/hllm_control/qualification/concurrent.py:541-601 | with single-use IDs and the pair's events retained, both requests are reserved from the interval's start to its end, and exist together at its end |
| `OverlapMeaning.RowsStartIsReal` | python/hllm_control/qualification/concurrent.py:553-559 | an interval that starts from report rows starts within the section that admitted the later request, and from there to the report both are reserved, the same records throughout, whatever the log has lost |
| `OverlapSoundness.GatherGenuine` | python/hllm_control/qualification/concurrent.py:526-529 | merging overlapping bounded logs yields only events of the one true log |
| `FailedAllocation.FilterIsEssential` | python/hllm_control/qualification/concurrent.py:560-578 | a run, and a report polled from it, on which the derivation without its filter returns an interval although the two requests never existed together; with the filter it returns none |
| `Generation.Generate` | cpp/src/worker/execution_service.cpp:410-638 | which requests are refused, with which error and in which order; any other, for every chunk size, one stage or two, shows the client exactly plain autoregression, and the downstream stage rejects nothing and accepts termination with equal counts; whatever interrupts it, at any point, the client has seen a prefix of that and the downstream stage generated at most one token more |
| `Generation.RefusesExactly` | cpp/src/worker/execution_service.cpp:416-459 | stop tokens, then the transport limit of a split deployment, then the prompt's tokens decide, and nothing else |
| `Generation.ChunkIsLargest` | cpp/src/worker/execution_service.cpp:441-446 | a chunk is the most tokens that exceed neither the prompt nor the size asked for |
| `Generation.ReferenceIsRun` | cpp/src/worker/execution_service.cpp:506-604 | each token of the reference is the one that the prompt and the tokens before it determine, only the last can be a stop token, and the run is complete exactly at a stop token or at the requested length |
| `Generation.RunIsUnique` | cpp/src/worker/execution_service.cpp:506-604 | only one run has that description |
| `Generation.TranscriptTells` | cpp/src/worker/execution_service.cpp:580-638 | what each event says: the prompt complete with the first token, tokens at consecutive positions, the counts, the end |
| `Generation.EmitTokens` | cpp/src/worker/execution_service.cpp:506-604 | the driver's loop emits the reference's tokens at consecutive positions, all of them or, if interrupted, the first ones |
| `Generation.Turn` | cpp/src/worker/execution_service.cpp:509-604 | one turn of the loop keeps both stages in lockstep and what was told to the client a beginning of the reference; it takes a whole chunk of the prompt unless the prompt ends |
| `Generation.PartIsPrefix` | cpp/src/worker/execution_service.cpp:580-597 | what an interrupted generation told the client is a prefix of the whole transcript, with as many tokens as counted |
| `Generation.TensorAnswered` | cpp/src/worker/execution_service.cpp:318-403 | in lockstep the downstream stage accepts every tensor, acknowledging inside the prompt and otherwise sampling what the whole prefix determines |
| `Generation.StepSplit` | cpp/src/worker/execution_service.cpp:524-564 | one exchange keeps step, position, prefill flag and counts equal on both sides |
| `Generation.OpenDownstream` | cpp/src/worker/execution_service.cpp:467-493 | the downstream stage refuses nothing that the driver has validated |
| `Generation.CloseDownstream` | cpp/src/worker/execution_service.cpp:605-623 | termination is acknowledged, with equal prompt and generated counts |
| `FinalStage.Session.Receive` | cpp/src/worker/execution_service.cpp:318-403 | the downstream handler of one message: every refusal, counter update and reply; a failure leaves position, step and counts alone |
| `FinalStage.TakesExactly` | cpp/src/worker/execution_service.cpp:335-355 | a tensor is taken exactly if the stream has not stopped, it is the message awaited, its rows fit what was reserved for one input, and they continue the prompt or are the one row after it |
| `FinalStage.AnswersAndMoves` | cpp/src/worker/execution_service.cpp:356-403 | an answered tensor moves step and position on; inside the prompt the answer is the progress, from its end on a token, counted, and the stream stops at the last one asked for or at a stop token |
| `FinalStage.StreamStaysWithin` | cpp/src/worker/execution_service.cpp:305-403 | whatever tensors a driver sends, in whatever order, the stage never executes beyond its reservation and gives no more tokens than the opening asked for |
| `Codec.EncodeTensor` | cpp/src/worker/boundary_codec.cpp:65-102 | the sender's checks and its scan of the bytes |
| `Codec.DecodeTensor` | cpp/src/worker/boundary_codec.cpp:15-63 | the receiver's checks and its scan of the bytes |
| `Codec.DecodeUndoesEncode` | cpp/src/worker/boundary_codec.cpp:15-102 | what is encoded decodes to the same activation under matching identity, step and position, exactly when it fits the sequence and phase |
| `Codec.AcceptsExactlyTheEncodings` | cpp/src/worker/boundary_codec.cpp:15-102 | the receiver accepts exactly the envelopes that the sender makes of some activation for the same request, step and position and that fit the sequence |
| `Codec.OnlyTheExpectedMessageDecodes` | cpp/src/worker/boundary_codec.cpp:18-27 | a late, repeated, reordered or foreign message is refused |
| `Codec.EncodableExactly` | cpp/src/worker/boundary_codec.cpp:65-98 | which activations can be sent |
| `Codec.PlannerLimitIsExact` | python/hllm_control/models.py:60-68 | the planner's token limit is exactly the sender's limit |
| `Codec.FiniteRowEncodes` | cpp/src/worker/boundary_codec.cpp:94-98 | the byte test finds exactly the non-finite halves |
| `ChunkedPrefill.ChunksEqualWhole` | cpp/src/cpu/stage.cpp:102-117 | for any division into consecutive chunks the outputs and final caches equal those of one call over all tokens |
| `ChunkedPrefill.LayerSplits` | cpp/src/cpu/llama.cpp:242-282 | one layer over two pieces in turn is the layer over both at once |
| `ChunkedPrefill.OutputIgnoresLater` | cpp/src/cpu/llama.cpp:76-83 | later positions do not change what an earlier one sees |
| `Prefix.LastExecutes` | cpp/src/cpu/stage.cpp:129-191 | the last stage answers a step with what recomputing the whole prefix, through the half-precision boundary, determines |
| `Prefix.HeadExecutes` | cpp/src/cpu/stage.cpp:179-190 | the first stage's message is the new rows of the whole prefix, or an error if they are not finite |
| `Stage.BoundaryIsQuantized` | cpp/src/cpu/stage.cpp:143-188 | the next stage reads a boundary as the quantized rows |
| `Stage.DecodeEncode` | cpp/src/cpu/stage.cpp:150-188 | encoding and decoding a row is quantizing it |
| `Layer.TransformerLayer` | cpp/src/cpu/llama.cpp:242-282 | accepts exactly the valid inputs, and then computes the layer's meaning and extends the cache; a refusal leaves the cache alone |
| `LayerStack.Forward` | cpp/src/cpu/stage.cpp:102-117 | the layers' loop computes the stack's output and final caches, exactly if the rows fit and the request is not found cancelled before a layer; rows that do not fit change nothing |
| `CpuStage.Run` | cpp/src/cpu/stage.cpp:129-191 | one execution on caches that change in place is the execution that generation is about: the same output, the same errors and the same state afterwards, unless it is cancelled |
| `CpuStage.ExecutesInPlace` | cpp/src/cpu/llama.cpp:170-191 | an execution succeeds only on as many cached positions as it is told, and leaves them and its own rows in every layer, within the model's and the sequence's length |
| `CpuStage.Allocate` | cpp/src/cpu/stage.cpp:73-81 | a fresh sequence with separate caches for all layers, exactly if the length is allowed and a cache's size representable |
| `CpuStage.EmbedTokens` | cpp/src/cpu/stage.cpp:82-97 | the rows of the token table, exactly for allowed inputs |
| `CpuStage.FromWire` | cpp/src/cpu/stage.cpp:140-159 | the byte loop reads exactly the activation that the payload stands for, and refuses what is not finite |
| `CpuStage.TakesExactly` | cpp/src/cpu/stage.cpp:82-159 | which inputs a stage takes: tokens of its vocabulary on the first, activations of its width without an infinity or a NaN on the others |
| `CpuStage.ToWire` | cpp/src/cpu/stage.cpp:179-190 | the byte loop writes the rows as halves, exactly if all are finite as halves |
| `CpuStage.LastLogits` | cpp/src/cpu/stage.cpp:167-173 | the logits are those of the last row |
| `Attention.Attend` | cpp/src/cpu/llama.cpp:67-112 | the nested loops compute each row's attention over the positions up to its own, each query head on the columns of its group's key/value head |
| `Attention.AttendedInGroups` | cpp/src/cpu/llama.cpp:71-81 | consecutive groups of query heads of equal size share a key/value head |
| `Rotation.ApplyRope` | cpp/src/cpu/llama.cpp:214-240 | turns each pair of entries half a head apart, in each head of each row, by the angle of the row's own position, in place, or refuses and changes nothing |
| `Rotation.TurnsHeads` | cpp/src/cpu/llama.cpp:222-239 | every pair of every head is turned, and nothing is turned twice |
| `Kernels.NormalizeHeads` | cpp/src/cpu/llama.cpp:114-130 | the flat loop normalizes every head of every row by itself |
| `Matrices.RmsNorm` | cpp/src/cpu/llama.cpp:193-212 | normalizes each row, or refuses |
| `Matrices.AddInPlace` | cpp/src/cpu/llama.cpp:132-139 | adds row by row, or refuses and changes nothing |
| `Matrices.Gate` | cpp/src/cpu/llama.cpp:268-281 | the gated activation, in place |
| `Matrices.Linear` | cpp/src/cpu/tensor.cpp:47-62 | the triple loop computes the products of the rows with the weights |
| `Matrices.QuantizeFloat16` | cpp/src/cpu/tensor.cpp:64-71 | quantizes every element |
| `Matrices.QuantizingTwice` | cpp/src/cpu/tensor.cpp:64-71 | a second boundary crossing changes no element of any matrix |
| `Matrices.Matrix.Set` | cpp/src/cpu/tensor.cpp:33-38 | writing one element leaves all others alone |
| `Matrices.IndexApart` | cpp/src/cpu/tensor.cpp:37 | different elements lie at different places of the flat array |
| `KvCache.LayerKvCache.Append` | cpp/src/cpu/llama.cpp:170-191 | accepts exactly rows that follow, fit and have the right shape, and then the cache is the old rows followed by the new ones |
| `KvCache.LayerKvCache.Key` | cpp/src/cpu/llama.cpp:160-163 | column head*width+dimension of the appended key row, or out of range |
| `KvCache.LayerKvCache.Value` | cpp/src/cpu/llama.cpp:165-168 | the same for values |
| `KvCache.OffsetsAreDistinct` | cpp/src/cpu/llama.cpp:152-158 | all offsets are in bounds and distinct |
| `KvCache.NewCache` | cpp/src/cpu/llama.cpp:143-150 | refuses empty dimensions |
| `Rounding.NarrowIsNearestEven` | cpp/src/half.cpp:36-88 | every finite binary32 becomes the nearest half, ties to even, through subnormals and up to overflow |
| `Rounding.NarrowOverflowsExactly` | cpp/src/half.cpp:46-88 | overflow happens exactly from the midpoint above the greatest half |
| `Rounding.NarrowIsMonotone` | cpp/src/half.cpp:36-88 | narrowing preserves order, signs included |
| `Rounding.WidenIsExact` | cpp/src/half.cpp:8-34 | widening a finite half keeps its value |
| `Rounding.WidenKeepsClass` | cpp/src/half.cpp:8-34 | widening keeps sign, infinities and NaN payloads |
| `Half.Float16ToFloat` | cpp/src/half.cpp:8-34 | the normalizing loop computes the widening |
| `Rounding.NarrowUndoesWiden` | cpp/src/half.cpp:8-88 | narrowing a widened half is the identity, except that a NaN comes back with its low bit set |
| `Rounding.QuantizeIsIdempotent` | cpp/src/cpu/tensor.cpp:64-71 | a second crossing sends the same half as the first, for every bit pattern |
| `Rounding.NarrowBrainIsNearestEven` | cpp/src/half.cpp:94-103 | every finite binary32 becomes the nearest bfloat16, ties to even |
| `Rounding.NarrowBrainIsMonotone` | cpp/src/half.cpp:94-103 | order is preserved |
| `Rounding.WidenBrainIsExact` | cpp/src/half.cpp:90-92 | widening a bfloat16 keeps value and class |
| `Rounding.NarrowBrainUndoesWiden` | cpp/src/half.cpp:90-103 | the identity, except that a signalling NaN becomes quiet |
| `Binary.NearestIsUnique` | cpp/src/half.cpp:36-88 | there is only one correctly rounded result, so the definition determines the conversion |
| `Sampling.Sample` | cpp/src/sampling.cpp:19-64 | refuses invalid options and logits that are not finite; keeps the shortest ranked prefix with the required share of the top-k total, and picks the token whose interval the draw falls into, for any weights in the ratios of the exponentials of the logits divided by the temperature; the first maximum at zero temperature |
| `Sampling.WeightsAreSoftmax` | cpp/src/sampling.cpp:34-37 | the computed weights stand in those ratios |
| `Sampling.SoftmaxExists` | cpp/src/sampling.cpp:34-37 | so do the exponentials of the logits divided by the temperature |
| `Sampling.OnlyRatiosMatter` | cpp/src/sampling.cpp:38-63 | weights in the same ratios keep the same tokens and let each draw select the same one |
| `Sampling.PoolIsLargest` | cpp/src/sampling.cpp:41-43 | the pool has as many of the ranked tokens as top-k allows, and all of them if it is zero |
| `Sampling.Retain` | cpp/src/sampling.cpp:44-51 | the loop stops at the shortest nonempty prefix that reaches the share |
| `Sampling.Walk` | cpp/src/sampling.cpp:58-63 | decrementing the draw finds the token whose interval contains it |
| `Sampling.Rank` | cpp/src/sampling.cpp:38-40 | all tokens by decreasing weight, equal weights by token |
| `Sampling.RankingIsUnique` | cpp/src/sampling.cpp:38-40 | the result does not depend on the sorting algorithm |
| `Sampling.SelectionIsUnique` | cpp/src/sampling.cpp:58-63 | a draw selects one token only |
| `Sampling.KeptIsUnique` | cpp/src/sampling.cpp:41-51 | options and weights determine what is kept |
| `Sampling.FirstMaximumIsUnique` | cpp/src/sampling.cpp:26-27 | the two greedy choices agree |
| `Sampling.GreedySampleLast` | cpp/src/cpu/llama.cpp:290-308 | the first maximum of the last row, or a refusal exactly if there is none or it is not finite |
| `Sampling.TopTokens` | cpp/src/sampling.cpp:76-85 | the reported tokens are the best ones, in order |
| `Sampling.SampleToken` | cpp/src/sampling.cpp:65-89 | the log probability of the sampled token and of the most probable ones, best first, if asked for |
| `Sampling.LogProbabilityIsShare` | cpp/src/sampling.cpp:68-72 | a reported log probability is the logarithm of the token's share of all exponentials |
| `Batch.Combine` | cpp/src/decode_batch.cpp:8-39 | succeeds exactly on independent single decode rows of one form, and joins them in order |
| `Batch.JoinableIs` | cpp/src/decode_batch.cpp:8-39 | what such items are: 1 to 64 of them, each one row past the prompt, all tokens or all activations of one width, of distinct sequences |
| `Batch.Split` | cpp/src/decode_batch.cpp:40-52 | succeeds exactly on a consistent payload, one output per row |
| `Batch.SplitUndoesJoin` | cpp/src/decode_batch.cpp:8-52 | splitting a joined boundary gives item i exactly its own bytes |
| `Batch.JoinedTokens` | cpp/src/decode_batch.cpp:21-25 | token i of the batch is item i's token |
| `BufferPool.Pool.Acquire` | cpp/src/buffer.cpp:128-170 | a smallest fitting cached block, the oldest of those, or a new one when none fits and the system has it; a request that fails changes nothing |
| `BufferPool.AlignmentIsPower` | cpp/src/buffer.cpp:20-23 | an accepted alignment is a power of two from 16 on |
| `BufferPool.MinElement` | cpp/src/buffer.cpp:141-155 | the ordering finds the best fit whenever something fits |
| `BufferPool.Pool.TakeBack` | cpp/src/buffer.cpp:94-117 | a block that comes back is cached or freed, once, and the cache stays within its bound |
| `BufferPool.Pool.ClearCached` | cpp/src/buffer.cpp:189-199 | frees the cached blocks and nothing else |
| `BufferPool.Pool.Drop` | cpp/src/buffer.cpp:94-117 | a pool may go away before its buffers |
| `BufferPool.Returned` | cpp/src/buffer.cpp:99-117 | every block stays in one place, the counters stay the sums, and nothing underflows |
| `BufferPool.Reused` | cpp/src/buffer.cpp:153-169 | the same for taking a cached block |
| `BufferPool.Buffer.Release` | cpp/src/buffer.cpp:94-123 | gives the block back to the pool it came from, once; an empty buffer does nothing; among any buffers of any pools blocks stay distinct |
| `BufferPool.Buffer.MoveFrom` | cpp/src/buffer.cpp:74-85 | between buffers of any pools: the old block goes back to its own pool, the other's changes hands, self-assignment does nothing, and blocks stay distinct |
| `BufferPool.MakeBuffer` | cpp/src/buffer.cpp:172-175 | a new buffer holds a block that no other buffer of any pool holds |
| `BufferPool.DropPool` | cpp/src/buffer.cpp:100-117 | buffers outlive their pool and keep their blocks |
| `BufferPool.FairGiven` | cpp/src/buffer.cpp:94-117 | giving one block back leaves every other buffer its own |
| `BufferPool.Buffer.Resize` | cpp/src/buffer.cpp:87-92 | refuses more than the capacity |
| `ProbeAcceptance.ProbeIsAccepted` | cpp/src/profiling/compute_probe.hpp:28-113 | the validator accepts every run the probe completes, for all prompt, chunk, step and cycle counts, with or without a validation region |
| `ProbeAcceptance.Probe` | cpp/src/profiling/compute_probe.hpp:38-112 | the loops emit exactly those records, or none if a reading makes no sense or the two ways of running disagree on an output |
| `ProbeAcceptance.ListExecutions` | cpp/src/profiling/compute_probe.hpp:64-71 | one execution per prefill chunk at its position, then one per decode step |
| `ProbeAcceptance.Validate` | python/hllm_control/profiling/models.py:409-469 | accepts exactly the runs that did not fail, agreed in every cycle, and have every component of every execution once, in place, adding up |
| `ProbeAcceptance.AcceptedRecord` | python/hllm_control/profiling/models.py:409-469 | each record of an accepted run is, but for its time, one that the probe would have written: it belongs to one of the executions, at its position, and names one of its components |
| `ComputeProbe.ChunksCover` | python/hllm_control/profiling/models.py:414-416 | the validator's rounded-up division is the number of chunks the probe's loop makes |
| `Planner.WeightsAreConserved` | python/hllm_control/planner/planner.py:44-70 | a split's weights are the whole model's plus exactly the tied embedding and architecture state |
| `Planner.StagesKeep` | python/hllm_control/planner/planner.py:53-70 | which tensors each of the two stages keeps |
| `Planner.StageWeightBytes` | python/hllm_control/planner/planner.py:53-70 | the loop adds up the resident tensors |
| `Planner.Enumerate` | python/hllm_control/planner/planner.py:281-341 | both orders and every split |
| `Planner.EveryPlacementOnce` | python/hllm_control/planner/planner.py:281-341 | each order and split is enumerated exactly once |
| `Planner.Select` | python/hllm_control/planner/planner.py:371-395 | ranks the feasible candidates, and looks the first up by name |
| `Planner.SelectionIsLeast` | python/hllm_control/planner/planner.py:371-395 | if names cannot collide the choice is the strict least by score and name |
| `Planner.NameLessIs` | python/hllm_control/planner/planner.py:371-395 | names are ordered by the first place where they differ |
| `Planner.ReliableExactly` | python/hllm_control/planner/planner.py:326-395 | the choice is always a least feasible candidate if and only if the joined worker names differ in the two orders |
| `Planner.CollidingNamesMislead` | python/hllm_control/planner/planner.py:326-395 | otherwise some judgement makes it an infeasible one |
| `Planner.SameName` | python/hllm_control/planner/planner.py:326 | when two candidate names are equal |
| `Planner.NamesCanCollide` | python/hllm_control/planner/planner.py:326 | distinct worker names whose joined names are the same in both orders |
| `Planner.ValidatePartition` | python/hllm_control/models.py:411-431 | the plan model's loop accepts exactly contiguous partitions with the right owners and split |
| `Planner.ValidatePlan` | cpp/src/worker/control_service.cpp:140-183 | the worker's loops accept exactly the same partitions, complete and for this worker, with one reachable endpoint for each stage and a tied embedding declared as duplicated |
| `Planner.PartitionCovers` | cpp/src/worker/control_service.cpp:140-165 | an accepted partition gives each layer exactly one stage, each stage a worker of its own, and the ends of the model to the first and the last |
| `Planner.EndpointsReach` | cpp/src/worker/control_service.cpp:166-183 | each stage has exactly one endpoint, which names its worker, at an address of its own |
| `Planner.PlanPassesBoth` | python/hllm_control/planner/planner.py:492-516 | every plan made from an enumerated candidate passes both checks on each of its workers, given two addresses |
| `HttpAdmission.RunKeeps` | python/hllm_control/serving/app.py:106-131 | in every interleaving active is the number of owned slots and at most the maximum, and active plus waiting at most maximum plus queued |
| `HttpAdmission.ArrivalOrder` | python/hllm_control/serving/app.py:118-131 | slots go out in arrival order among those that did not give up |
| `HttpAdmission.HeldUntilReleased` | python/hllm_control/serving/app.py:106-131 | over every interleaving a ticket that was granted a slot holds it exactly until it releases it |
| `HttpAdmission.NoSlotLeaks` | python/hllm_control/serving/app.py:270-276 | once every request that was granted a slot has released it, none is in use |
| `HttpAdmission.Admission.Arrive` | python/hllm_control/serving/app.py:115-131 | refuses exactly when full, and otherwise joins the queue and looks once |
| `HttpAdmission.Admission.Poll` | python/hllm_control/serving/app.py:120-131 | a waiter that wakes up gets a slot only at the front and below the maximum |
| `HttpAdmission.Completion.ReleaseSlot` | python/hllm_control/serving/app.py:270-276 | the flag makes the second of the two release sites do nothing |
| `HttpAdmission.Completion.EndStream` | python/hllm_control/serving/app.py:55-67 | however a stream ends, begun or not, its slot is given up, and once |

## Left out

- Transport, serialization, digests, configuration, JSON and file I/O: foreign libraries; messages are datatypes.
- Real time: the watchdog thread, polling intervals and condition variables. Clock readings are inputs. A request's end in the scheduler's queue is an input of the step that notices it.
- ControlService.Service.PruneExpired: the events of one critical section carry one time, where the source reads the clock for each.
- ControlService.Service.ReportMemory: the legacy totals over domains, which add three of the reported amounts, and the process's own identity and times.
- The watchdog's and guards' stops are steps of the owner or former owner that may happen at any time; how a cause maps to a transport status is not modelled.
- Iteration order of the request map: pruning is proved for every order; a lifecycle event's list of concurrent requests is a set.
- The scheduler of the loaded deployment only: a lease keeps its deployment alive in the source, and it is proved that no lease outlives the loaded one.
- Sequence state lives on in the source for as long as a late caller holds its record; the memory theorem counts admitted requests.
- Queue waiting times, pressure and process observations in reports and metrics.
- CUDA and MLX stages: only what the handlers check of a backend's outputs is used, and which regions they time.
- Floating-point arithmetic inside the kernels: it is a parameter, so equalities hold for whatever it is; batched decode is not claimed to equal single decode numerically.
- Generation.Generate: log probabilities and timings on token events, and which interruption gives which status; that anything can interrupt it at any point is modelled, and its effect on the worker's tables is in the worker's steps.
- Sampling.Sample: the draw is a parameter in [0, 1) instead of the mixing of seed and index; weights are reals, so rounding is not modelled.
- Stage's sampler is a parameter that picks a token from the logits and the number of tokens drawn; that this number is not advanced on the greedy path, which ignores it, is kept.
- Memory estimates of stages and of the planner: the planner's judgement of a placement is a parameter, which makes the ranking theorems hold for every judgement.
- Planner.ValidatePlan: the schema, dtype and digest checks before the partition's.
- BufferPool.Pool.Acquire: the small control object of a buffer is always available; in the source its allocation follows the counters' update, so that if it failed the block would stay counted as in use.
- Batch.Combine: items always name a sequence and a cancellation flag; the source also refuses null pointers to them.
- `SequenceTracker`, which nothing calls, safetensors checks, the memory guard, the link probe and the qualification scripts: easy or I/O.
