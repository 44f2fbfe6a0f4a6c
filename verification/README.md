# Verified model of the capivara job-delivery protocol

This project models, in Dafny, how the repository delivers jobs: the two brokers (in-process and
Redis), the worker that drains them, and the retry policy that links the two. It proves what every
interleaving of producers, workers, crashes, lease lapses and retries keeps.

Check it with `dafny verify dfyconfig.toml`.

## How it is built

| file | what it holds |
|---|---|
| Jobs.dfy | the job envelope, UUIDs, small helpers |
| Retry.dfy | backoff with jitter, with the machine's integer widths |
| BrokerSpec.dfy | the delivery contract: every accepted job is one entry with one place; its operations and invariant |
| BrokerHistory.dfy | runs of the contract: nothing is lost, who owns a claim, what happens at most once |
| BrokerOrder.dfy | runs of the contract: leases, delays, order, progress, producer keys |
| Memory.dfy | the in-process broker as a class whose collections are mutated in place, against the contract |
| RedisKeys.dfy | keys and sorted-set members as strings, and how the scripts split them |
| RedisSpec.dfy | the Lua scripts as functions on a structured database, and the step system of interleaved calls |
| RedisRefinement.dfy, RedisRuns.dfy | forward simulation of the contract by that step system, and what it gives |
| RedisServer.dfy | scripts and commands on the flat string key space, as methods proved against RedisSpec |
| RedisWorkers.dfy | many workers on the Redis step system, command by command: it simulates the worker machine, and gives result coherence and the retry budget end to end |
| WorkerSpec.dfy | many workers: each claim is a program counter over run, store, settle, store; a crash is possible between any two steps |
| WorkerProcess.dfy | the same processing as straight-line code, proved to be a run of that machine |
| WorkerRuns.dfy | result coherence and the retry budget over all runs of all workers |
| Drain.dfy | scheduling independence of a quiet drain, and its potential |
| DrainResults.dfy | what a quiet drain leaves in the result backend |
| WorkerBooks.dfy, WorkerLoop.dfy | the loop of `Worker::run` with its task set and permits, amid an environment that does anything in between |

The contract (BrokerSpec) is the meeting point. The in-process broker and the Redis broker are each
proved to implement it; the worker is modelled on top of it. A settle succeeds or answers
`JobNotFound`; a claim hands out a job or nothing; clocks, tokens, random draws and the order in
which a hash map is walked are parameters or nondeterministic choices.

## Hypotheses

* Job ids of newly accepted jobs are new, and every claim draws a new token. Both are random 128-bit
  UUIDs in the repository. In the worker loop a token already in use counts as a failed call. On Redis, a
  job sent again under a taken key must not have the id of a job that is still tracked
  (`RedisSpec.MaySend`); `RedisRuns.ResendHarmlessIff` shows that this is exactly what is needed.
* There is one clock. It never goes back, and a reading is passed to a broker operation at or after
  the moment it was taken.
* Queue names contain no U+001F in the lease and delayed members that a Redis sweep meets; the code does
  not check this. `RedisServer.RecoveredIff` and `RedisServer.PromotedIff` say exactly what goes wrong
  otherwise. No other Redis command depends on it.
* Claim counts stay below 2^32 on Redis, which casts them where the in-process broker saturates;
  `RedisSpec.CastSaturatesIff` says exactly when the two agree. The worker model uses saturation.
* Result coherence: every settle goes through the worker, all workers share one result backend that
  does not expire results, and, for the half about acknowledged jobs, every worker stores results.
* Handlers end. A task that never ends would keep the loop waiting for ever.

A *quiet* setting, used for termination and scheduling independence, adds: no new jobs arrive, the
policy asks for zero delay, leases outlast the drain, no delayed job falls due during it, and handler
outcomes are a function of the job and the attempt number. For the loop of one worker it also adds
that this worker is alone. A *reliable* setting excludes failing broker and backend calls and dying
processes.

## Where code and documentation differ

* `src/retry.rs:11-13` documents `min(max_delay, base_delay * 2^(attempt-1))`. The code jumps to
  `max_delay` when the product exceeds u64 nanoseconds; `Retry.RawIsDocumentedIff` is the exact
  condition, and it always holds for caps up to u64 nanoseconds (584 years).
* `src/broker/mod.rs:89-99` promises safe producer retries under an idempotency key. On Redis a send under
  a taken key deletes the body of the id it was sent with. That is harmless if and only if the id is not
  tracked (`RedisRuns.ResendHarmlessIff`): a producer that sends the very same job again, or reuses the id
  of any live job, makes that job disappear at its next claim (`RedisRuns.ResendLosesReadyJob`,
  `RedisRuns.SameJobTwiceIsLost`).
* Queue names may hold any character, but the sweeps split members at U+001F. A name with that character
  makes a swept job vanish from every list.
* The worker loop's exit on an empty task set at `src/worker/mod.rs:102-104` and its permit-leak error
  at `src/worker/mod.rs:119-124` cannot be reached; the model asserts so.

## Model

| member | source | states |
|---|---|---|
| Jobs.Requested | src/broker/memory.rs:119-123 | a claim that names no queue asks for the default queue, any other for the queues it names |
| Jobs.BlankIffTrimmedAway | src/broker/memory.rs:84-88 | a key is refused as blank exactly when trimming leaves nothing of it |
| Retry.DelayForAttempt | src/retry.rs:69-88 | any draw gives a delay in [floor(raw/2), 2*floor(raw/2)], exactly raw without jitter, never above max_delay, and the sum never overflows a Duration |
| Retry.PermittedBand | src/retry.rs:15-24 | every delay a call may return lies in the documented band, for all policies and attempts |
| Retry.SaturatingMulPow2Value | src/retry.rs:91-105 | the checked 128-bit arithmetic amounts to the unbounded product, or to Duration::MAX when that exceeds u64 nanoseconds |
| Retry.RawMonotone | src/retry.rs:69-71 | a later attempt never gets a shorter raw delay |
| Retry.RawIsDocumentedIff | src/retry.rs:11-13 | the raw delay equals the documented formula over unbounded integers if and only if no doubling happens, the product fits u64, or it reaches the cap |
| Retry.RawIsDocumentedForSmallCap | src/retry.rs:11-13 | for caps that fit u64 nanoseconds the formula always holds |
| Retry.RawCanMissTheFormula | src/retry.rs:95-104 | a policy for which the code gives 4 * u64::MAX nanoseconds where the formula gives half of that |
| Retry.BudgetIsDocumented | src/retry.rs:69-71 | the backoff budget is the sum of the documented delays when the cap fits u64 nanoseconds |
| BrokerSpec.EnqueueStores | src/broker/memory.rs:83-102 | a blank key is refused, a seen key answers the first id, and otherwise the very job becomes ready at the end of its own list, under its key; nothing else changes |
| BrokerSpec.PopTakes | src/broker/memory.rs:125-140 | a pop hands out the front of the list, counted and held under the given token until the given expiry; nothing else changes |
| BrokerSpec.SettleMoves | src/broker/memory.rs:155-209 | the holder's settle gives the job the place it asks for and keeps job and count; any other settle changes nothing |
| BrokerSpec.ApplyKeepsInv | src/broker/mod.rs:93-143 | every operation keeps: each accepted job has one place, ready and dead lists hold exactly the ready and dead jobs once and in their own queue, in-flight tokens were issued for their job, keys and keyed jobs determine each other |
| BrokerSpec.RequeueAllKeepsInv | src/broker/memory.rs:50-78 | a sweep moves exactly the listed jobs to ready, keeps counts and jobs, and only extends ready lists |
| BrokerSpec.PopKeepsInv | src/broker/memory.rs:125-140 | taking a job keeps the invariant and gives nothing exactly when the ready list is empty |
| BrokerSpec.SettleKeepsInv | src/broker/memory.rs:155-209 | settling in any way, held or not, keeps the invariant |
| BrokerHistory.RunKeepsInv | src/broker/mod.rs:93-143 | the invariant holds after every legal run |
| BrokerHistory.RunPreserves | src/broker/memory.rs:50-209 | conservation over runs: accepted jobs are never forgotten or changed, claim counts only grow, acked and dead are final, keys, issued tokens and dead lists only grow |
| BrokerHistory.OwnerHolds | src/broker/memory.rs:155-164 | the claim's holder in the state is the owner computed from the log of operations and answers alone |
| BrokerHistory.SettleIffOwner | src/broker/redis_broker.rs:109-163 | after any run a settle succeeds exactly when its token is the last one issued for the job and was neither recovered nor settled; otherwise it answers JobNotFound and changes nothing |
| BrokerHistory.TokenSettlesOnce | src/broker/mod.rs:25-28 | over any run each token settles at most once |
| BrokerHistory.JobEndsOnce | src/broker/memory.rs:155-209 | over any run each job is acknowledged or dead-lettered at most once, and is acked or dead exactly if that happened |
| BrokerOrder.RunHonoursLease | src/broker/memory.rs:50-64 | over any run a claimed job stays as it is until it is settled with its token or its lease has lapsed |
| BrokerOrder.NoSecondClaimBeforeExpiry | src/broker/memory.rs:116-139 | no second claim of a job before the recorded expiry of the first, unless that was settled |
| BrokerOrder.RunHonoursDelay | src/broker/memory.rs:66-78 | over any run a delayed job stays delayed until its due time |
| BrokerOrder.NoClaimBeforeDue | src/broker/memory.rs:184 | no claim of a nacked job before its recorded due time |
| BrokerOrder.ClaimNumbersIncrease | src/broker/memory.rs:128 | the claim numbers of a job strictly increase over any run |
| BrokerOrder.CountIsClaims | src/broker/memory.rs:128 | over any run a job's claim count is its starting count plus the claims granted |
| BrokerOrder.EnqueuedJobIsClaimed | src/broker/memory.rs:99-139 | from enqueue to claim, over any run in between: the claim hands out the very job enqueued, from its own queue, numbered by the claims before it |
| BrokerOrder.NeverOvertaken | src/broker/redis_broker.rs:89 | the job with i jobs ahead has i - n ahead after any run with n claims on its queue |
| BrokerOrder.NextClaimReturns | src/broker/memory.rs:125-140 | the job with i jobs ahead is what the (i+1)-th successful claim on its queue returns |
| BrokerOrder.PassMakesReady | src/broker/redis_broker.rs:479-482 | recover then promote makes ready exactly the pending, lapsed and due jobs, each in its own queue |
| BrokerOrder.ReadyJobIsHandedOut | src/broker/memory.rs:125-140 | a ready job is handed out by as many claims as there are jobs up to it |
| BrokerOrder.UnsettledJobIsHandedOut | docs/guarantees.md:16-20 | from every reachable state every job that is neither acked nor dead is handed out once time has passed its lease or due time, by the next pass and at most as many claims as its ready list is long |
| BrokerOrder.OneIdPerKey | src/broker/memory.rs:89-101 | whatever happens in between, a later enqueue under an accepted key gets the same id and changes nothing |
| BrokerOrder.OneJobPerKey | src/broker/memory.rs:90-98 | of all jobs ever accepted at most one has a given key |
| Memory.StoredOnce | src/broker/memory.rs:26-36 | an accepted, unacknowledged job is stored in exactly one of the four collections, at one position; any other id is in none |
| Memory.PendingOnce | src/broker/memory.rs:27-28 | a job is in a pending deque exactly when it is ready, at one position of its own queue's deque |
| Memory.DeadOnce | src/broker/memory.rs:32-33 | a job is in a dead list exactly when it was dead-lettered, at one position of its own queue's list |
| Memory.SplitLapsed | src/broker/memory.rs:50-64 | the recovery loop removes exactly the lapsed claims and appends each job to its deque, in any order |
| Memory.SplitDue | src/broker/memory.rs:66-78 | the promotion loop appends exactly the due jobs, in the order they were put aside, and keeps exactly the later ones, in order |
| Memory.DueIdsListDue | src/broker/memory.rs:69-76 | the promoted ids are all due jobs, each once |
| Memory.MemoryBroker.constructor | src/broker/memory.rs:44-47 | a new broker stands for the empty contract state |
| Memory.MemoryBroker.Enqueue | src/broker/memory.rs:83-102 | enqueue gives the contract's answer and new state: blank keys are refused, seen keys return the first id, a new job is stored as it came at the end of its queue's deque |
| Memory.MemoryBroker.RecoverExpired | src/broker/memory.rs:50-64 | in-place recovery is the contract's recovery of exactly the lapsed jobs |
| Memory.MemoryBroker.PromoteDelayed | src/broker/memory.rs:66-78 | in-place promotion is the contract's promotion of exactly the due jobs |
| Memory.MemoryBroker.TakeFirst | src/broker/memory.rs:125-142 | takes the front of the first nonempty requested deque, counts the attempt, records lease and token |
| Memory.MemoryBroker.Claim | src/broker/memory.rs:104-148 | a non-blocking claim is exactly a recovery, a promotion and at most one pop; it returns None exactly when no requested queue has a pending, lapsed or due job, and otherwise the front of the first queue that has one, as it was enqueued but for the saturated claim count |
| Memory.MemoryBroker.Ack | src/broker/memory.rs:155-164 | ack is the contract's settle: only the holder's token succeeds |
| Memory.MemoryBroker.Nack | src/broker/memory.rs:166-189 | nack is the contract's settle: at the back of the deque for zero delay, else put aside until now + delay, behind those put aside before |
| Memory.MemoryBroker.DeadLetter | src/broker/memory.rs:191-209 | dead_letter is the contract's settle: appended to the queue's dead list with its reason |
| Memory.MemoryBroker.ListDead | src/broker/memory.rs:211-214 | lists the contract's dead letters with their reasons, oldest first, each job as it was enqueued but for the saturated claim count |
| RedisKeys.TextRoundTrip | src/broker/redis_broker.rs:441-446 | an id that the broker displayed is read back as that id |
| RedisKeys.TextInjective | src/job.rs:25-29 | the displayed form of an id determines the id |
| RedisKeys.LeaseRoundTrip | src/broker/redis_broker.rs:208-217 | splitting a formatted lease member gives back queue and id exactly when the queue name has no separator |
| RedisKeys.DelayedSplit | src/broker/redis_broker.rs:176-179 | a delayed member splits into queue and id, or, for a name with a separator, into less than the queue and a text that is no id |
| RedisKeys.DelayedRoundTrip | src/broker/redis_broker.rs:176-179 | the same for delayed members |
| RedisKeys.LeaseMemberInjective | src/broker/redis_broker.rs:311-313 | lease members determine queue, id and token, for all queue names |
| RedisKeys.DelayedMemberInjective | src/broker/redis_broker.rs:316-318 | delayed members determine queue and id, for all queue names |
| RedisKeys.FullInjective | src/broker/redis_broker.rs:266-308 | under one prefix the eight key families are pairwise disjoint and each key determines what it was built from |
| RedisSpec.CastSaturatesIff | src/broker/redis_broker.rs:385 | when the cast of the attempt counter agrees with the saturating count, for all counters |
| RedisSpec.ClaimChanges | src/broker/redis_broker.rs:87-104 | a claim takes the oldest id, counts the attempt, records the lease and changes nothing else |
| RedisSpec.SettleChanges | src/broker/redis_broker.rs:109-163 | an ack deletes lease, body and counter; a burial deletes lease and counter, keeps the body and records the reason; a retry moves the id and deletes the lease only |
| RedisSpec.RecoverChanges | src/broker/redis_broker.rs:206-229 | a sweep rewrites no body, keeps the counter of every job with a body, drops that of an orphan, and removes exactly the swept members |
| RedisSpec.PromoteChanges | src/broker/redis_broker.rs:174-191 | the same for promotion |
| RedisServer.ListCommands | src/broker/redis_broker.rs:88-101 | a list grows at its head and is popped at its tail, and other lists stay |
| RedisServer.RedisServer.Claim | src/broker/redis_broker.rs:87-104 | the claim script on string keys is the structured claim |
| RedisServer.RedisServer.Ack | src/broker/redis_broker.rs:109-118 | the ack script on string keys is the structured settle: exactly when the lease was held it goes together with body and counter, and no other body or counter changes |
| RedisServer.RedisServer.Nack | src/broker/redis_broker.rs:124-142 | the nack script on string keys is the structured settle, in both modes, and touches no body and no counter |
| RedisServer.RedisServer.DeadLetter | src/broker/redis_broker.rs:148-163 | the dead-letter script on string keys is the structured settle: it keeps every body, stores the reason and drops the counter |
| RedisServer.RedisServer.Recover | src/broker/redis_broker.rs:201-232 | the recovery loop parses and pushes back exactly the lapsed members, lowest score first; for separator-free names that is the structured sweep to their own queues |
| RedisServer.SweepLeasesIsScript | src/broker/redis_broker.rs:206-229 | parsing lease members gives the structured sweep for any number of separator-free members |
| RedisServer.RedisServer.Promote | src/broker/redis_broker.rs:169-194 | the promotion loop parses and pushes back exactly the due members; for separator-free names that is the structured sweep to their own queues |
| RedisServer.SweepWaitsIsScript | src/broker/redis_broker.rs:174-191 | parsing delayed members gives the structured sweep for any number of separator-free members |
| RedisServer.RedisServer.Enqueue | src/broker/redis_broker.rs:419-461 | both enqueue paths on string keys are the structured enqueue and reply with the winning id, for all queue names |
| RedisServer.RedisServer.FetchQueue | src/broker/redis_broker.rs:401-413 | reading a job's body gives its queue, or nothing |
| RedisServer.RedisServer.Mirror | src/broker/redis_broker.rs:387-396 | the late SET replaces the body and nothing else |
| RedisServer.RedisServer.ListDead | src/broker/redis_broker.rs:594-630 | joins the reversed list with bodies and reasons, oldest first |
| RedisServer.RangeByScore | src/broker/redis_broker.rs:203 | a range query gives every member up to the score once, by score |
| RedisServer.SweptToOwnQueueIff | src/broker/redis_broker.rs:208-221 | what recovery parsed is pushed to the job's own ready list if and only if its queue name has no separator |
| RedisServer.RecoveredIff | src/broker/redis_broker.rs:206-228 | a recovered job reaches its own ready list if and only if its queue name has no separator; otherwise it reaches no list at all, unless the name continues with its own id |
| RedisServer.PromotedIff | src/broker/redis_broker.rs:174-190 | a promoted job reaches its own ready list if and only if its queue name has no separator; otherwise no list changes |
| RedisRefinement.EnqueueSimulates | src/broker/redis_broker.rs:240-251 | both enqueue paths simulate the contract's enqueue: for new ids, blank keys, and resends whose id is not tracked |
| RedisRefinement.ResendSimulatesIff | src/broker/redis_broker.rs:244-247 | a send under a taken key simulates the contract if and only if its id has no job, or an acked one |
| RedisRefinement.TrackedIff | src/broker/redis_broker.rs:87-251 | an id is in a list or sorted set exactly when its job was accepted and not acked |
| RedisRefinement.ClaimSimulates | src/broker/redis_broker.rs:87-104 | the claim script simulates the contract's pop with the same answer |
| RedisRefinement.SettleSimulates | src/broker/redis_broker.rs:109-163 | the three settle scripts simulate the contract's settle with the same answer |
| RedisRefinement.RecoverSimulates | src/broker/redis_broker.rs:201-232 | the recovery script simulates the contract's recovery in the same order |
| RedisRefinement.PromoteSimulates | src/broker/redis_broker.rs:169-194 | the promotion script simulates the contract's promotion in the same order |
| RedisRefinement.StepSimulates | src/broker/redis_broker.rs:359-414 | forward simulation of every step, including bodies fetched before a settle and mirror writes arbitrarily late |
| RedisRuns.Refinement | src/broker/redis_broker.rs:359-592 | every interleaving of broker calls, cut short at any point, gives the answers of a legal run of the contract and ends related to it |
| RedisRuns.BodiesPresent | src/broker/redis_broker.rs:94-97 | in every reachable database each id in a pending list, dead list, lease or delayed member has a body in that queue |
| RedisRuns.NoBodyIsMissing | src/broker/redis_broker.rs:131-134 | the missing-body branches of the claim, settle and sweep scripts are never taken |
| RedisRuns.BodiesAgree | src/broker/redis_broker.rs:389-396 | all bodies ever stored for one id agree on everything but attempts |
| RedisRuns.BodiesWritten | src/broker/redis_broker.rs:240-251 | exactly which steps write bodies, and what they write |
| RedisRuns.AckDropsBodyAndCounter | src/broker/redis_broker.rs:109-118 | over runs, an acknowledged job's counter is gone for good and its body until a late mirror write for it |
| RedisRuns.DeadHasNoCounter | src/broker/redis_broker.rs:148-163 | a dead-lettered job has no counter in any later state |
| RedisRuns.TakesCounted | src/broker/redis_broker.rs:99-101 | the contract's claim count is the number of claims that the script granted |
| RedisRuns.ClaimReturnsSent | src/broker/redis_broker.rs:359-399 | from send to claim, over any interleaving in between: the claim hands out the very job sent, from its own queue, numbered by the claims before it; the first is number one |
| RedisRuns.MirrorWritesCount | src/broker/redis_broker.rs:385-396 | however late, the mirror write leaves the body with the number of its claim |
| RedisRuns.StoredOnce | src/broker/redis_broker.rs:87-251 | conservation: an accepted, unacknowledged job is in exactly one list, lease or delayed member, once |
| RedisRuns.DeadLetterStays | src/broker/redis_broker.rs:148-163 | a dead letter, its body and its reason are there in every later state |
| RedisRuns.DeadListAgrees | src/broker/redis_broker.rs:594-630 | the listing skips nothing and is the contract's, in the same order, up to attempts |
| RedisRuns.NoKeyWithoutBody | src/broker/redis_broker.rs:234-251 | for an id without a body, every prefix of the enqueue script's commands adds a key only together with its body and leaves all other keys and bodies alone, in any database |
| RedisRuns.NewKeyHasBody | src/broker/redis_broker.rs:234-251 | so in every reachable database, for every id not accepted before |
| RedisRuns.ResendHarmlessIff | src/broker/redis_broker.rs:244-247 | in every reachable database a send under a taken key simulates the contract if and only if its id is not tracked |
| RedisRuns.ResendLosesReadyJob | src/broker/redis_broker.rs:93-97 | a send under a taken key that hits the next ready job loses it: the claim answers nothing and the job is in no list or sorted set |
| RedisRuns.SameJobTwiceIsLost | src/broker/redis_broker.rs:240-251 | the run in which one keyed job is sent twice: both sends are accepted and the job is lost |
| RedisWorkers.MoveCarried | src/worker/mod.rs:250-334 | forward simulation: every command of every worker on Redis, with dead processes whose settle still arrives, is zero to two steps of the worker machine |
| RedisWorkers.FleetRefines | src/worker/mod.rs:250-334 | every run of many workers on Redis, commands interleaved, is an allowed run of the worker machine with the same results |
| RedisWorkers.FailureIsBuried | src/worker/mod.rs:317-328 | over all those runs a stored Failure means the job is in its queue's dead list, with body and reason |
| RedisWorkers.AcknowledgedForGood | src/worker/mod.rs:297-305 | once the ack script confirmed, in every later state the job is in no list or sorted set, its result is no Failure, and it is a Success when every worker stores results |
| RedisWorkers.RetriesAgree | src/worker/mod.rs:306-316 | the retries and delays that the nack script confirms are those of the worker machine |
| RedisWorkers.FleetRetryBudget | src/worker/mod.rs:306-321 | over all those runs with one policy the nack script confirms at most max_attempts - 1 retries of a job, within the backoff budget |
| RedisWorkers.FleetBacksOff | src/worker/mod.rs:306-316 | over all those runs every confirmed retry waits for a delay within the policy's band, counted from the settle, and stays until then |
| WorkerSpec.RunIsSound | src/worker/mod.rs:250-334 | in every run of many workers each process works on the job its token was issued for and, while it holds the claim, knows its claim count |
| WorkerProcess.ProcessOne | src/worker/mod.rs:250-334 | straight-line processing of a claim is a run of the step machine; success is acked, failure with attempts left requeued after a delay that the policy permits and not before, terminal failure buried; a success is always stored, a failure only by the holder; a lost claim changes nothing in the broker |
| WorkerRuns.FailureMeansDead | src/worker/mod.rs:317-328 | over all runs of all workers a stored Failure means the job is on the dead list and was never acked |
| WorkerRuns.AckedIsNeverFailure | src/worker/mod.rs:297-331 | once a job is acked, no later state holds a Failure for it |
| WorkerRuns.AckedStaysSuccess | src/worker/mod.rs:297-305 | once an ack succeeded the stored result is a Success in every later state |
| WorkerRuns.NackSpends | src/worker/mod.rs:306-316 | a retry uses up a claim number below the limit, and asks for at most the raw delay |
| WorkerRuns.RetryBudget | src/worker/mod.rs:306-321 | over all runs of workers that share a policy a job is retried at most max_attempts - 1 times, and the delays asked for stay within the sum of the backoff formula |
| WorkerRuns.NackBacksOff | src/worker/mod.rs:306-316 | a retry that took effect leaves the job ready or delayed exactly as its delay says, and the delay lies in the policy's band |
| WorkerRuns.RetryWaits | src/worker/mod.rs:306-316 | over all runs the retried job stays aside until its delay is over, no sooner than the lower end of the band after the settle |
| Drain.QuietStays | src/worker/mod.rs:71-173 | every step of a quiet drain keeps it quiet: claims are held until settled, nothing lapses |
| Drain.FatesStay | src/worker/mod.rs:250-334 | no step short of a crash changes where any job will end up |
| Drain.PotentialFalls | src/worker/mod.rs:133-143 | each granted claim uses up one unit of the drain's potential and nothing else does, short of a crash |
| Drain.DrainPotential | src/worker/mod.rs:71-173 | over a quiet run the claims granted and the remaining potential never exceed the initial potential, and equal it without crashes |
| Drain.DrainOutcome | src/worker/mod.rs:71-173 | scheduling independence: whatever the interleaving, each ready job ends where retrying it alone would leave it, every other job stays, and the claims are the sum of the attempts |
| Drain.AttemptsBounded | src/worker/mod.rs:306-318 | that sum is at most the sum of max(1, max_attempts - attempts) over the ready jobs |
| DrainResults.DrainStores | src/worker/mod.rs:297-331 | after a quiet drain that stores results every job that was ready has the outcome of its last attempt, a success if and only if it was acked |
| DrainResults.AloneEndsAs | src/worker/mod.rs:297-331 | retrying a job on its own ends acked exactly when its last outcome is a success, and dead otherwise |
| DrainResults.NothingStored | src/worker/mod.rs:299-303 | workers without a backend store nothing |
| WorkerBooks.EventBalances | src/worker/mod.rs:71-173 | whatever happens around the loop keeps its books: permits, tasks, processed count, claims |
| WorkerBooks.GrantBalances | src/worker/mod.rs:133-143 | a granted claim moves the permit in hand into one new task |
| WorkerBooks.GrantSigned | src/worker/mod.rs:133-141 | every claim of the call is on one of its queues and carries its policy, its lease and its backend |
| WorkerBooks.JoinBalances | src/worker/mod.rs:224-247 | joining a finished task counts it and keeps the first error |
| WorkerBooks.ConcurrencyBounded | src/worker/mod.rs:72-73 | at most `concurrency` tasks are at work, and every claim of the call still in process is one of them |
| WorkerBooks.NoPermitLeak | src/worker/mod.rs:114-125 | with no task left all permits are free, so the permit-leak error cannot occur |
| WorkerBooks.QuietClaimsBounded | src/worker/mod.rs:71-173 | in a quiet setting the call's claims never exceed what the ready jobs need on their own |
| WorkerBooks.QuietDrain | src/worker/mod.rs:144-154 | books with no task, no error and empty queues mean the drained outcome |
| WorkerBooks.QuietResults | src/worker/mod.rs:135-141 | such books also mean that each ready job's result is stored when the call has a backend, and that nothing is stored otherwise |
| WorkerLoop.Worker.constructor | src/worker/mod.rs:72-82 | a call starts with all permits free, at least one, and nothing claimed |
| WorkerLoop.Worker.Join | src/worker/mod.rs:224-247 | account_join: one more processed, the first error kept |
| WorkerLoop.Worker.JoinNext | src/worker/mod.rs:106-108 | waits until a task has finished and joins exactly one |
| WorkerLoop.Worker.Reap | src/worker/mod.rs:86-88 | joins finished tasks without waiting until none is left; a task that failed shows as the first error |
| WorkerLoop.Worker.ClaimJob | src/broker/redis_broker.rs:477-497 | a non-atomic claim: recovers, promotes, tries the queues in order; grants from the first that has a job, leased from a clock reading of this pass, or found each empty, or failed before or after taking effect, which a reliable setting leaves to a token in use |
| WorkerLoop.Worker.Round | src/worker/mod.rs:84-162 | the course of a pass: it joins whatever has finished; after a failed task or at the limit it stops without claiming; with no permit or room it waits for one task; otherwise it makes one claim pass, and spawns, stops or waits by its answer. It keeps the books, the limit and the first error, and makes progress; it stops only on an error, at the limit, or with no task and a whole claim pass that found nothing |
| WorkerLoop.Worker.Run | src/worker/mod.rs:71-173 | with or without a limit, in any environment: the call ends with every task joined and every permit free, or its caller drops it after so many passes with the books balanced; it is Ok exactly when no claim call and no task failed, which always holds in a reliable setting without token clashes; then no claimed process was cut short, and it reports the number of claims, at most max_jobs; an error has a cause of its kind; every claim carries the call's queues, policy, lease and backend; below the limit the last claim pass found nothing; a limit ends it within 2 * max_jobs + 2 passes, a quiet setting within 2 passes per attempt and 2; in a quiet setting the queues are then drained with the sequential outcome, the sum of its attempts and, with a backend, the result of every last attempt |

## Left out

- WorkerLoop.Worker.Run: a producer that keeps sending can keep an unlimited call going for ever, so the caller's patience bounds the passes made; that it ends is stated for a limit and for a quiet setting.
- Drain.DrainOutcome: does not cover delays above zero, nor workers with different policies; any number of workers that share the policy may drain at once.
- RedisRuns.Refinement: does not cover a send that hits a tracked job, for which RedisRuns.ResendHarmlessIff shows that the simulation fails, nor queue names with a separator, for which RedisServer.RecoveredIff and RedisServer.PromotedIff show what happens.
- RedisServer.RedisServer.Recover: with a separator in a swept queue name the database no longer stands for a structured one; only the parsed sweep is stated then. The same holds for Promote.
- RedisWorkers.FleetRefines: leaves out claim counts of 2^32 and more, where the count is cast (RedisSpec.CastSaturatesIff).
- RedisServer.RedisServer.Claim: does not check that a key holds the expected Redis type; keys under the prefix are only written by the broker.
- Dead-lettered does not imply a stored Failure: a stale claim may still store Success, so only the other direction is stated.
- A stored body does not imply a live job on Redis: a late mirror write can bring back the body of an acked job, so only "tracked implies a body" is stated.
- Blocking claims (the sleep slices in `claim`): the worker only makes non-blocking ones.
- Result backends beyond a map, their time to live, and waiting for results.
- The builder methods of `src/app.rs`, the task registry and argument encoding: a handler is any outcome, and an unknown task is one of them.
- JSON, the Redis connection, network errors other than a call that fails before or after taking effect, and script caching.
- UUID generation and the distribution of the jitter: any value of the range.
- Truncation of leases and delays to milliseconds on Redis: expiry and due time are whatever number the call passes.
- Forms of a UUID other than the hyphenated one, which the broker would also accept but never writes.
- Ties in a sorted-set range: any order, which is weaker than the lexicographic order Redis uses.
- Instant and u64 overflow for absurd durations.
