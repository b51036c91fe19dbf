# Verified model of the access-aware admission control system

This project models the decision logic of a result-portal load experiment and proves what its design promises.
Clients join a queue; a controller admits them at a rate that follows the health of an origin server; a ticket
that misses its window is re-queued; an evaluation reads the event log. Three modes share the code: `none`
(admit everybody), `baseline` (a failed ticket goes to the tail) and `aaac` (it keeps its place, and its class
gets cheaper).

## How it is organised

| part | files |
|---|---|
| classes, windows, numbers, sequences | `Classes`, `Window`, `Numbers`, `Seqs` |
| the ticket store as a value, in memory, over Redis keys, and their agreement | `QueueStore`, `StoreLaws`, `InMemoryStore`, `RedisStore`, `StoreRefinement` |
| the admission service as a state machine and in place | `Admission`, `AdmissionService` |
| its invariants over runs: partition, log (I6), counters, class and place (I1, I2, I5, D2), capacity (I3), waiting time, rate control (I4) | `Invariants`, `EventReplay`, `Exactness`, `Ledger`, `Fairness`, `Downgrades`, `Capacity`, `BoundedWait`, `RateControl`; one call and one tick in the caller's terms: `Handlers`, `Tick`; what goes wrong without the conditions: `Failures` |
| the origin: health window and bounded queue | `Histogram`, `HealthRing`, `HealthTracker`, `OriginSlots` |
| event logger and client loop | `EventLog`, `ClientLoop` |
| evaluation: signed-rank test, fairness index, population, metrics | `Wilcoxon`, `SignedRanks`, `JainIndex`, `Population`, `Metrics` |

Objects that the source changes in place are classes here, with one method per handler or loop; each method is
proved against a function on values, and the theorems over runs are about that function. The control tick is
split into its count, its admission, its sweep, each re-queue and its end, and API calls interleave between these
steps. Each of the steps, and each API handler, is atomic, also where the source awaits inside it.

## What the proofs found

- Several promises hold only under a condition that the code does not check. Each is stated as an if-and-only-if:
  a call keeps the service invariant exactly when it arrives in time (`Exactness.KeepsIffInTime`); the two stores
  agree on a re-insertion exactly when the ticket is not waiting (`StoreRefinement.ReinsertAgreesIff`); the error
  window of the origin is exact for every history exactly when it is shorter than the ring
  (`HealthRing.ErrorWindowTrustedIff`); apportionment sums to n exactly when truncation left a shortfall between
  0 and the number of classes (`Population.SumsToNIff`).
- What a late report damages is `Failures.LateReportDamage`. Runs from the start of the service show it: a ticket
  queued twice (`Failures.FailureQueuesTwice`), a finished ticket admitted again (`Failures.FinishedIsAdmittedAgain`),
  a waiting client logged as admitted (`Failures.NoneAdmitsTheOther`), counters that no longer match the log
  (`Failures.NoneJoinUpsetsBooks`), and the two stores parting (`Failures.StoresPart`).
- The plain reading of I1, that a position never rises, is false (`Failures.PositionCanRise`): it rises exactly
  when a ticket that joined earlier is put back (`Fairness.PositionRisesIff`). What never rises is the set of
  unfinished tickets ahead.
- Closing the event logger while its timer's write is queued or running can lose or reorder lines
  (`EventLog.CloseCanLose`, `EventLog.CloseCanReorder`); `EventLog.InOrderIff` is the exact condition.
- A client can be counted both as classified and as never classified (`ClientLoop.FlagsCanClash`).
- The loader's tolerance on class shares is harmless for every mix exactly below a million clients
  (`Population.ToleranceIsSafeIff`, `Population.ToleranceBreaks`).
- The operator's counters balance against the queue and the log for exactly the runs whose joins fit
  (`Ledger.CountersBalanceIff`); late reports never upset them.
- `docs/SYSTEM.md` section 5 describes an older controller (a 0.3/0.7 estimate, an unconstrained cap before the
  first completion, an unchanged class in `baseline`). The model follows the code.

## Model

| member | source | states |
|---|---|---|
| Exactness.KeepsIffInTime | src/aaac/admission/api.py:335-383 | From any state that satisfies it, a step keeps the full invariant (partition, order, numbering, log replay, class grades) if and only if it arrives in time: a new id joins, in `none` mode on an empty queue, and an accepted report is about a ticket that is in flight. |
| Exactness.LateReportBreaks | src/aaac/admission/requeue.py:27-29 | Every accepted report on a ticket that is not in flight, success or failure, breaks the invariant. |
| Exactness.SecondJoinBreaks | src/aaac/admission/api.py:142-143 | Reusing a ticket id breaks the invariant, in every mode. |
| Exactness.NoneJoinBehindBreaks | src/aaac/admission/api.py:170-187 | In `none` mode a join behind a waiting ticket logs an ADMIT for a ticket that still waits. |
| Exactness.NoneJoinAdmitsOther | src/aaac/admission/api.py:170-171 | In `none` mode `admit_n(1)` leaves the joining ticket waiting whenever anybody waits ahead of it. |
| Exactness.RunKeeps | src/aaac/admission/store.py:276-395 | The invariant holds after every run of any length and interleaving whose calls arrive in time. |
| Exactness.LogReconciles | tests/admission/test_invariants.py:173-230 | I6: after any such run each ticket's lines have the promised shape and folding them rebuilds its state, attempt and class; at most two DOWNGRADE lines; attempt is one more than the TIMEOUT lines. |
| Exactness.AttemptsAreAdmissions | src/aaac/evaluation/metrics.py:86-89 | The ADMIT lines of a ticket, which the evaluation counts as its attempts, equal its attempt number in service or finished, and one less while it waits. |
| Failures.LateReportDamage | src/aaac/admission/requeue.py:27-29 | What a report on a ticket that is not in flight does, for every state and both outcomes: queued twice, finished but queued, revived, counted twice, or still on the sweep list. |
| Failures.PositionCanRise | src/aaac/admission/requeue.py:51-85 | Plain I1 fails, from the start of the service: a ticket joins at position 0 while another is in service, the other reports a failure, and the first stands at position 1. |
| Failures.FailureQueuesTwice | src/aaac/admission/store.py:343 | From the start: join, then a failure report before any admission, leaves one ticket with two entries in the list. |
| Failures.SuccessLeavesQueued | src/aaac/admission/store.py:383-390 | From the start: a ticket is re-queued, its success arrives late, and it is COMPLETED but still queued. |
| Failures.FinishedIsAdmittedAgain | src/aaac/admission/store.py:312-328 | And the next tick makes that ticket ADMITTED again. |
| Failures.NoneAdmitsTheOther | src/aaac/admission/api.py:170-187 | From the start, in `none` mode: a second join behind a re-queued ticket is logged as admitted, waits, and the first is in service again. |
| Failures.NoneJoinUpsetsBooks | src/aaac/admission/api.py:170-187 | From the start, the same run with a HIGH first client: the books of class LOW no longer balance. |
| EventReplay.HistoryShaped | src/aaac/admission/requeue.py:31-96 | Any log that does not garble a ticket reads JOIN ESTIMATE* (ADMIT TIMEOUT DOWNGRADE? REQUEUE)* and then nothing, ADMIT, or ADMIT COMPLETE; no ESTIMATE follows an ADMIT. |
| EventReplay.HistoryTallied | src/aaac/admission/requeue.py:51-61 | For any ticket whose lines are well formed: attempt equals one plus the timeouts, and the number of downgrades never exceeds the rank of the class. |
| EventReplay.HistoryAdmitted | src/aaac/admission/controller.py:221-236 | For any ticket whose lines are well formed: admissions and timeouts differ by exactly the attempt in progress or completed. |
| EventReplay.AtMostTwoDowngrades | src/aaac/common/classes.py:12-16 | A well-formed history has at most two DOWNGRADE lines. |
| EventReplay.GarbledStays | src/aaac/admission/requeue.py:27-29 | No later line repairs a history that was once garbled. |
| Invariants.JoinKeeps | src/aaac/admission/api.py:138-217 | A join in time keeps the whole invariant, in every mode. |
| Invariants.AdmitKeeps | src/aaac/admission/controller.py:217-236 | The admission of a tick keeps the whole invariant. |
| Invariants.AdmitLogged | src/aaac/admission/controller.py:221-236 | The ADMIT lines written after an admission bring every ticket's replay up to its new record. |
| Invariants.TimeoutKeeps | src/aaac/admission/requeue.py:27-96 | A timeout of a ticket in flight or swept keeps the whole invariant. |
| Invariants.TimeoutReplay | src/aaac/admission/requeue.py:42-96 | TIMEOUT, the optional DOWNGRADE and REQUEUE replay to exactly the re-queued record. |
| Invariants.CompleteKeeps | src/aaac/admission/api.py:362-376 | A success report on a ticket in flight keeps the whole invariant. |
| Invariants.EstimateKeeps | src/aaac/admission/api.py:236-278 | An estimate, accepted or refused, keeps the whole invariant. |
| Invariants.SweepKeeps | src/aaac/admission/store.py:371-381 | The sweep moves exactly the expired tickets from in flight to swept and keeps the whole invariant. |
| Invariants.SweepSplits | src/aaac/admission/controller.py:239-242 | After the sweep a ticket is still in flight or on the to-do list, exactly as its expiry says. |
| Invariants.RequeuedPartitioned | src/aaac/admission/store.py:330-346 | Re-queueing a ticket that is not waiting keeps every ticket in exactly one place. |
| Fairness.RunEvolves | tests/admission/test_invariants.py:123-170 | I2 over runs: once settled, a class never moves toward HIGH; attempts and join numbers never fall; completed records never change. |
| Fairness.ClassChangesOnlyBy | src/aaac/admission/api.py:235-278 | D2: a step changes a class only by an estimate on a waiting first attempt, or by a timeout that raises the attempt and puts the rank up by one, or to 2 from the limit on. |
| Tick.CheaperAttempts | src/aaac/admission/requeue.py:20-25 | C2 and C3 over runs, from one admission of a ticket to any later one: with non-decreasing kappa the window it is served for is at least as long as the last time, and its page at most as heavy. |
| Fairness.ClassesCheapen | src/aaac/admission/requeue.py:20-25 | The same of the windows and variants of its class. |
| Downgrades.FailureWorsens | src/aaac/admission/requeue.py:51-88 | C4, a reported failure from any state: one attempt more; below max_attempts the rank goes up by one but not above 2, from max_attempts on it is 2; the ticket waits, and nothing else about it or any other ticket changes. |
| Downgrades.SweepWorsens | src/aaac/admission/controller.py:239-242 | C4, a window that ran out: the same for the ticket that the sweep puts back. |
| Downgrades.RankOverRun | src/aaac/admission/requeue.py:58-61 | C4 over runs: k timeouts after its first admission a ticket's rank is the smaller of 2 and its rank then plus k, and 2 once the limit on attempts is exceeded. |
| Downgrades.AttemptsAreTimeouts | src/aaac/admission/requeue.py:42-51 | Between two states of a run in time, the attempts of a ticket grow by its TIMEOUT lines in between. |
| Downgrades.OtherwiseKept | src/aaac/admission/requeue.py:51-61 | No other step changes the class or the attempt of a settled ticket. |
| Downgrades.RanksAndVariants | src/aaac/common/classes.py:7-25 | Three ranks, and three variants in the opposite order of weight. |
| Fairness.RunAhead | tests/admission/test_invariants.py:109-118 | I1, exact: the set of unfinished tickets with a smaller join number only ever shrinks. |
| Fairness.PositionCounts | src/aaac/admission/store.py:356-361 | In `aaac` the position of a waiting ticket is the number of waiting tickets that joined before it. |
| Fairness.PositionBounded | tests/admission/test_invariants.py:109-118 | In `aaac` a ticket's position at any later time is at most the number of unfinished earlier joiners it had. |
| Fairness.AheadIsPositionIff | tests/admission/test_invariants.py:109-118 | That bound is the present position exactly when no earlier joiner is in service. |
| Fairness.NeverBehindJoinPosition | tests/admission/test_invariants.py:109-118 | A ticket seen while nobody is in service never stands further back later. |
| Fairness.PositionRisesIff | src/aaac/admission/requeue.py:51-85 | The plain form of I1 is false: a waiting ticket's position rises exactly when a step puts back a ticket that joined before it. |
| Fairness.RequeuePlace | src/aaac/admission/requeue.py:63-85 | I5 for a failed attempt: outside `aaac` the ticket goes to the tail; in `aaac` it lands behind exactly the waiting tickets that joined before it. |
| Fairness.SweptPlace | src/aaac/admission/controller.py:239-242 | I5 for a window that ran out: every ticket that the sweep puts back lands in the same place. |
| Fairness.JoinLeavesOthers | src/aaac/admission/api.py:137-217 | A join in time leaves every other record alone and takes the next number. |
| Fairness.JoinPosition | src/aaac/admission/api.py:208-221 | The position that a join reports is the length of the queue before it. |
| Handlers.JoinDoes | src/aaac/admission/api.py:137-217 | A join in time: waiting at the end of the queue as MEDIUM under the next number, or in `none` mode in service as HIGH for 3600 s; the log lines; nobody else changes. |
| Handlers.EstimateDoes | src/aaac/admission/api.py:235-278 | An estimate sets the class, and only that, exactly while the ticket waits for its first admission; otherwise nothing changes. |
| Handlers.ReportRefusedIff | src/aaac/admission/api.py:335-360 | A report changes nothing exactly when the ticket is unknown, the token is invalid or for another ticket, or a success comes without a token. |
| Handlers.SuccessFinishes | src/aaac/admission/api.py:362-376 | An accepted success: the ticket is COMPLETED and out of service, counted for the next tick and logged; nothing else changes. |
| AdmissionService.ReplyMeans | src/aaac/admission/api.py:192-228 | The reply to a join: the number, the place at the end of the queue, and that place over the rate, at least one, as waiting time. |
| Ledger.StepBalancesIff | src/aaac/admission/store.py:276-346 | A step keeps the books of a true class (waiting counter = queue entries = joins + timeouts - admissions in the log, and the other two counters) if and only if it fits. Only a join can fail to: a waiting id registered under another class, or in `none` mode a head of the queue of another class. Late reports never do. |
| Ledger.CountersBalanceIff | src/aaac/admission/store.py:276-389 | Over every run from the start, late reports and reused ids included: the books of a class balance after every step if and only if every join fits. |
| Ledger.InTimeFits | src/aaac/admission/api.py:142-187 | Every join in time fits, and outside `none` mode so does every new id, whoever waits. |
| Ledger.StepLined | src/aaac/admission/store.py:276-346 | After every step, whatever the calls, the queue is sorted and no score exceeds the last number given out. |
| Capacity.InflightBelowPeak | src/aaac/admission/controller.py:205-219 | I3: in the queueing modes in-flight never exceeds the largest C_max computed so far, over all interleavings. |
| Capacity.StepCapped | src/aaac/admission/controller.py:205-242 | Each step, late reports included, keeps in-flight below the larger of what the tick read and its cap. |
| Capacity.TickAdmits | src/aaac/admission/controller.py:211-219 | From its count on, whatever other handlers run in between, a tick admits the lowest scores, at most its quota, and leaves in flight no more than it read or its cap. |
| Capacity.AdmitTakesHead | src/aaac/admission/store.py:312-328 | An admission takes exactly the head of the queue, of the computed length, and marks it ADMITTED. |
| Capacity.QuotaPromises | src/aaac/admission/controller.py:211-217 | The quota exceeds neither the tokens, nor the room under the cap, nor the queue, and is positive exactly when somebody waits, in-flight is below C_max and alpha times the tick is at least 1. |
| Capacity.CountPromises | src/aaac/admission/controller.py:138-215 | For the rate and cap it has just set, a tick's quota exceeds neither its tokens, nor the room under the cap, nor whom it saw waiting, and is positive exactly when somebody waits, in-flight is below C_max and it has a token. |
| Capacity.QuotaIsAdmitted | src/aaac/admission/controller.py:217-236 | Whatever other handlers run between the count and the admission, exactly the quota is admitted, lowest scores first. |
| Tick.CountExhausts | src/aaac/admission/controller.py:211-215 | The quota of a tick is exhausted: never more than whom it saw waiting, the room under the cap and its tokens, and it stops only at one of the three. |
| Tick.TickExhausts | src/aaac/admission/controller.py:211-236 | And that many tickets go into service, whatever handlers run between the count and the admission. |
| Tick.CountSetsCap | src/aaac/admission/controller.py:171-208 | C_max is the least number that reaches a quarter of the origin's limit (at least 1) and the new estimate times the mean window, weighted by the shares of the mix, rounded down. |
| Tick.CountMovesRate | src/aaac/admission/controller.py:158-168 | I4 in one tick: within both targets the rate rises by the increment up to the maximum; otherwise, or with the origin out of reach, it is cut by the factor down to the minimum. |
| Tick.CountMovesEstimate | src/aaac/admission/controller.py:138-142 | A tick of at most 60 s adds a sixtieth per completion and fades the rest by its share of 60 s; completions are used up. |
| Tick.GrantCarriesWindow | src/aaac/admission/window.py:31-48 | C2: an admitted ticket is in service until now plus the window of its class, on its record and in the in-flight list: w_base outside `aaac`, the smaller of w_base times kappa and w_max inside it. |
| Tick.AdmitLeavesOthers | src/aaac/admission/store.py:312-328 | Whoever is not among the admitted keeps its record. |
| AdmissionService.TickReports | src/aaac/admission/controller.py:244-257 | The CONTROL line of a tick reports the rate and estimate it has set, the in-flight count it read and the cap it computed. |
| BoundedWait.NobodyStarves | src/aaac/admission/controller.py:205-242 | Bounded waiting in `baseline`, from the start of the service: with at least one token a tick and W <= R tick, whoever waits with k tickets ahead is admitted within (k+1)(R+1) further ticks, whatever fails or times out. |
| BoundedWait.AdmittedWithin | src/aaac/admission/controller.py:205-242 | The same from any state that satisfies the invariant. |
| BoundedWait.CannotWaitLonger | src/aaac/admission/controller.py:239-242 | No run keeps a ticket waiting through that many ticks. |
| BoundedWait.EnoughStep | src/aaac/admission/controller.py:211-242 | While the ticket waits, only a sweep uses up the budget, and by one. |
| BoundedWait.PositionStays | src/aaac/admission/requeue.py:63-73 | In `baseline` nothing but an admission changes the position of a waiting ticket. |
| BoundedWait.ClockedStep | src/aaac/admission/store.py:322-327 | Everything in flight expires within one window of the latest tick, after every step. |
| RateControl.UnhealthyDecay | src/aaac/admission/controller.py:163-168 | After k unhealthy ticks alpha is max(alpha_min, alpha_0 d^k). |
| RateControl.HealthyGrowth | src/aaac/admission/controller.py:163-168 | After k healthy ticks alpha is min(alpha_max, alpha_0 + k inc). |
| RateControl.AlphaStaysInRange | src/aaac/admission/controller.py:168 | Over every run alpha stays within its bounds. |
| RateControl.EstimateBetween | src/aaac/admission/controller.py:138-142 | mu_hat stays between the smallest and the largest observed rate. |
| RateControl.EstimateConverges | src/aaac/admission/controller.py:138-142 | At a steady completion rate the distance of mu_hat from it shrinks by the factor 1 - min(1, tick/60) every tick. |
| RateControl.IdleLoss | src/aaac/admission/controller.py:138-142 | k idle ticks cost mu_hat at most the fraction k tick/60 of its value. |
| RateControl.RunIsRateTrace | src/aaac/admission/controller.py:158-168 | The rates at the counts of any run of the service form such a sequence, whatever happens between the ticks. |
| RateControl.RunIsEstimateTrace | src/aaac/admission/controller.py:138-142 | So do the estimates at the counts of any run. |
| RateControl.RunDecays | src/aaac/admission/controller.py:163-168 | A run whose ticks all find the origin unhealthy ends with the decayed rate. |
| RateControl.RunGrows | src/aaac/admission/controller.py:163-168 | A run whose ticks all find it healthy ends with the grown rate. |
| RateControl.RunEstimates | src/aaac/admission/controller.py:138-142 | Over every run mu_hat stays between the smallest and the largest rate that a tick saw. |
| RateControl.RunIdles | src/aaac/admission/controller.py:138-142 | A run whose ticks see no completions loses at most that fraction of mu_hat. |
| RateControl.CapBetween | src/aaac/admission/controller.py:183-208 | C_max lies between its floor and the larger of the floor and the best rate times the longest window, rounded up. |
| Window.WeightedMeanBetween | src/aaac/admission/window.py:51-71 | The weighted mean window lies within any bounds of the class windows, and is defined for an empty queue. |
| Window.WindowGrowsWithRank | src/aaac/admission/window.py:31-39 | With non-decreasing kappa a worse class never gets a shorter window, in any mode. |
| InMemoryStore.InMemoryQueueStore.NextSeq | src/aaac/admission/store.py:276-279 | Issues the next number. |
| InMemoryStore.InMemoryQueueStore.CreateTicket | src/aaac/admission/store.py:281-296 | Whole new state: record, sorted list entry, counter. |
| InMemoryStore.InMemoryQueueStore.GetTicket | src/aaac/admission/store.py:298-310 | The record, or nothing. |
| InMemoryStore.InMemoryQueueStore.AdmitN | src/aaac/admission/store.py:312-328 | The pop-and-append loop equals moving the head of the queue at once: same store, same grants in the same order. |
| InMemoryStore.InMemoryQueueStore.Reinsert | src/aaac/admission/store.py:330-346 | Whole new state: class, attempt, both lists, both counters. |
| InMemoryStore.InMemoryQueueStore.UpdateClass | src/aaac/admission/store.py:348-354 | Changes the class of a known ticket and no counter. |
| InMemoryStore.InMemoryQueueStore.Position | src/aaac/admission/store.py:356-361 | Index of the first entry, 0 if there is none. |
| InMemoryStore.InMemoryQueueStore.WaitingCount | src/aaac/admission/store.py:363-365 | Length of the waiting list. |
| InMemoryStore.InMemoryQueueStore.InflightCount | src/aaac/admission/store.py:367-369 | Length of the in-flight list. |
| InMemoryStore.InMemoryQueueStore.ExpireInflight | src/aaac/admission/store.py:371-381 | Splits the in-flight list at `now`. |
| InMemoryStore.InMemoryQueueStore.Complete | src/aaac/admission/store.py:383-390 | Sets the state, counts a completion, leaves flight; an unknown id only leaves flight. |
| RedisStore.RedisQueueStore.NextSeq | src/aaac/admission/store.py:112-113 | Same number as the list store. |
| RedisStore.RedisQueueStore.CreateTicket | src/aaac/admission/store.py:115-132 | All keys afterwards, for any id and expiry; the agreement with the list store is kept unless the id was already waiting or the expiry is zero. |
| RedisStore.RedisQueueStore.GetTicket | src/aaac/admission/store.py:134-145 | Same record as the list store. |
| RedisStore.RedisQueueStore.PopMin | src/aaac/admission/store.py:75 | ZPOPMIN takes the head of the sorted list, in order. |
| RedisStore.RedisQueueStore.AdmitN | src/aaac/admission/store.py:63-103 | The admission script gives the same grants in the same order and keeps the agreement. |
| RedisStore.RedisQueueStore.AdmitPopped | src/aaac/admission/store.py:78-101 | The loop of the script does to the hashes and the in-flight set what admitting the popped entries does to the list store. |
| RedisStore.RedisQueueStore.Reinsert | src/aaac/admission/store.py:166-191 | All keys afterwards, for any ticket: for an unknown one a hash without a true class appears and class 0 is counted; for a known one the agreement is kept unless it was already waiting. |
| RedisStore.RedisQueueStore.UpdateClass | src/aaac/admission/store.py:193-206 | Keeps the agreement. |
| RedisStore.RedisQueueStore.Position | src/aaac/admission/store.py:208-210 | ZRANK is the index in the sorted list. |
| RedisStore.RedisQueueStore.WaitingCount | src/aaac/admission/store.py:212-213 | ZCARD is the length of the waiting list. |
| RedisStore.RedisQueueStore.InflightCount | src/aaac/admission/store.py:215-216 | ZCARD is the length of the in-flight list. |
| RedisStore.RedisQueueStore.ExpireInflight | src/aaac/admission/store.py:218-232 | Returns exactly the expired ids, each once, by expiry and then by member, and keeps the agreement. |
| RedisStore.ExpiredInSameOrder | src/aaac/admission/store.py:218-232 | Where no two tickets expire together, the two stores return the expired ids in the same order. |
| RedisStore.RedisQueueStore.Complete | src/aaac/admission/store.py:234-244 | All keys afterwards, for any ticket: for an unknown one a hash without a true class appears and a completion is counted for class 0; for a known one the agreement is kept. |
| StoreRefinement.RunBoth | src/aaac/admission/store.py:105-395 | Two stores that agree give, for every permitted call sequence, the same answers, namely those of the specification folded over the calls, and agree on the resulting store afterwards. |
| StoreRefinement.RunFresh | src/aaac/admission/store.py:105-395 | In particular two fresh stores do, from the empty store. |
| StoreRefinement.CallRedis | src/aaac/admission/store.py:105-260 | Each call on the Redis store answers as the specification and keeps the agreement. |
| StoreRefinement.CallInMemory | src/aaac/admission/store.py:262-395 | Each call on the list store answers as the specification. |
| StoreRefinement.PermittedKeepsOrder | src/aaac/admission/store.py:281-390 | Every permitted call keeps both lists sorted, free of repeats and disjoint. |
| StoreRefinement.ReinsertAgreesIff | src/aaac/admission/store.py:343 | Re-inserting leaves both stores with the same number of waiting entries if and only if the ticket was not already waiting. |
| StoreRefinement.CreateAgreesIff | src/aaac/admission/store.py:126 | Creating leaves both stores with the same number of entries and the same expiry if and only if the id was not waiting and the expiry is not zero. |
| Failures.StoresPart | src/aaac/admission/store.py:184 | A ticket created and put back while it waits: two entries in the list store, one in the sorted set. |
| StoreLaws.AdmitKeepsOrder | src/aaac/admission/store.py:312-328 | Admission keeps the order, and the ids stay in one list each. |
| StoreLaws.ReinsertKeepsOrder | src/aaac/admission/store.py:330-346 | So does re-insertion of a ticket that is not waiting under a fresh score. |
| StoreLaws.ExpiredMembers | src/aaac/admission/store.py:371-381 | The expired ids are exactly those of the dropped entries, each once. |
| QueueStore.PositionIn | src/aaac/admission/store.py:356-361 | The position is the first entry of the ticket, and 0 exactly when there is none or it is the first. |
| AdmissionService.HandleTimeout | src/aaac/admission/requeue.py:9-96 | Store and log after a timeout, in every mode, as the transition says; nothing for an unknown ticket. |
| AdmissionService.AdmissionController.RecordCompletion | src/aaac/admission/controller.py:91-94 | One more completion for the current tick. |
| AdmissionService.AdmissionController.Measure | src/aaac/admission/controller.py:138-215 | Estimate, rate, cap and quota of a tick, whole new state. |
| AdmissionService.AdmissionController.AdmitTickets | src/aaac/admission/controller.py:217-236 | Admission and its log lines, whole new state. |
| AdmissionService.AdmissionController.LogAdmitted | src/aaac/admission/controller.py:221-236 | One ADMIT line per granted ticket, in order. |
| AdmissionService.AdmissionController.Sweep | src/aaac/admission/controller.py:238-242 | Expiry and all re-queues, whole new state. |
| AdmissionService.AdmissionController.Tick | src/aaac/admission/controller.py:129-257 | A whole uninterrupted tick, whole new state. |
| AdmissionService.AdmissionController.QueueJoin | src/aaac/admission/api.py:137-229 | The join handler, both branches: whole new state, and the reply with number, position, estimated wait and poll interval. |
| AdmissionService.AdmissionController.QueueEstimate | src/aaac/admission/api.py:235-278 | The estimate handler: accepted exactly for a known WAITING first attempt. |
| AdmissionService.AdmissionController.QueueComplete | src/aaac/admission/api.py:335-383 | The report handler: refused exactly for an unknown ticket, a bad or foreign token, or a success without token. |
| AdmissionService.WholeTickIsRun | src/aaac/admission/controller.py:129-257 | An uninterrupted tick is one of the runs of the step machine, so every run theorem covers it. |
| Histogram.NeverUnderstatesIff | src/aaac/origin/health.py:43-53 | A bucket edge understates an observation exactly when it lies beyond the last edge. |
| Histogram.OverstatesByOneFactor | src/aaac/origin/health.py:43-53 | Above 0.5 ms an edge overstates by at most one growth factor. |
| Histogram.IndexMonotone | src/aaac/origin/health.py:43-46 | Larger durations never fall in lower buckets. |
| Histogram.QuantileMs | src/aaac/origin/health.py:144-155 | The loop returns the edge of the first non-empty bucket whose cumulative count reaches the target, 0 for no data. |
| Histogram.QuantileIsEdge | src/aaac/origin/health.py:144-155 | The reported quantile is the edge of the bucket of the nearest-rank order statistic. |
| Histogram.QuantileBrackets | src/aaac/origin/health.py:144-155 | It is at least the nearest-rank quantile exactly when that is within the histogram, and at most one growth factor above it. |
| Histogram.OrderStatisticExists | src/aaac/origin/health.py:147 | Every rank has an order statistic, so the statement above is never vacuous. |
| HealthRing.RingAgrees | src/aaac/origin/health.py:140-191 | Counts read from the ring equal counts over the full history on every window less than one turn old. |
| HealthRing.ErrorWindowTrustedIff | src/aaac/origin/health.py:175-180 | The error window agrees with the history for all histories if and only if it is shorter than the ring. |
| HealthRing.SlotFacts | src/aaac/origin/health.py:116-121 | A slot holds -1 or an epoch of its residue, and no recorded outcome that maps to it is newer. |
| HealthTracker.NewTracker | src/aaac/origin/health.py:95-112 | A tracker exists exactly for a positive window and at least one bucket; its buckets make up the window, and its error window is the number of buckets closest to one second. |
| HealthTracker.Tracker.Current | src/aaac/origin/health.py:116-121 | The current bucket summarises the current epoch; no other bucket changes. |
| HealthTracker.Tracker.Record | src/aaac/origin/health.py:123-136 | After any outcome each bucket again summarises exactly the history of its epoch. |
| HealthTracker.Tracker.LiveBuckets | src/aaac/origin/health.py:140-142 | Exactly the buckets whose epoch is in the span. |
| HealthTracker.Tracker.Stats | src/aaac/origin/health.py:157-191 | In seconds: everything at most the window less one bucket old is counted, nothing as old as the window; the error rate is the share of errors among requests one bucket to the error window old, and none older by another bucket; p50 and p99 bracket the nearest-rank quantiles. |
| HealthTracker.Tracker.EpochStats | src/aaac/origin/health.py:157-191 | In buckets: counts, merged histogram and quantiles equal those of the full history of the last n buckets; the error rate is that of the elapsed buckets when the error window is shorter than the ring. |
| HealthTracker.WindowInSeconds | src/aaac/origin/health.py:116-121 | For any property of outcomes, the last n buckets hold what is at most n - 1 widths old and nothing n widths old. |
| HealthTracker.ErrorWindowIsASecond | src/aaac/origin/health.py:110-112 | The error window is the number of buckets closest to one second, and at least one. |
| HealthTracker.ErrorsAre | src/aaac/origin/health.py:123-136 | Errors are the shed requests and those served badly, never more than the requests; a client that left is neither. |
| HealthTracker.RecordKeeps | src/aaac/origin/health.py:116-136 | Adding one outcome to its slot keeps every slot a summary of its epoch. |
| HealthTracker.QuantileOfHistory | src/aaac/origin/health.py:157-191 | A reported quantile bounds the nearest-rank quantile of the durations served in the window from above, unless that lies beyond the histogram, within one growth factor. |
| HealthTracker.QuantileBracketsHistory | src/aaac/origin/health.py:145-155 | Whenever the window holds a served request its nearest-rank quantile exists and is so bounded, for every quantile in (0, 1]. |
| Wilcoxon.RankTotal | src/aaac/evaluation/stats.py:253-263 | The doubled tie-averaged ranks sum to n(n+1), whatever the ties. |
| Wilcoxon.Ranks | src/aaac/evaluation/stats.py:253-263 | The nested loops fill in exactly the tie-averaged rank of every difference. |
| SignedRanks.RankCounts | src/aaac/evaluation/stats.py:253-263 | Twice a rank is one more than twice the number of smaller squares plus the number of equal squares. |
| SignedRanks.RanksFollowSize | src/aaac/evaluation/stats.py:253-263 | A rank is larger exactly for the larger square, and shared exactly for equal squares. |
| SignedRanks.PlusSumIsWalsh | src/aaac/evaluation/stats.py:265 | The rank sum of the positive differences is the number of pairwise sums that are positive, zero sums counting half. |
| SignedRanks.ResultCountsPairs | src/aaac/evaluation/stats.py:247-267 | The reported statistic is the smaller of the numbers of positive and negative pairwise sums of the non-zero differences; n and the dropped pairs add up; p is exact up to 20 pairs. |
| SignedRanks.ExactPIsPermutation | src/aaac/evaluation/stats.py:278-284 | The exact p is the share, among all ways to sign the differences, of those whose statistic is no larger. |
| SignedRanks.NonZeroKeeps | src/aaac/evaluation/stats.py:247 | Dropping zeros keeps all other differences, as often as they occur. |
| Wilcoxon.SignsComplete | src/aaac/evaluation/stats.py:280 | The enumeration contains every sign vector. |
| Wilcoxon.SignsDistinct | src/aaac/evaluation/stats.py:280 | It contains each once, 2^n in all. |
| Wilcoxon.AtLeastTwo | src/aaac/evaluation/stats.py:280-284 | The exact count is at least 2: the complement of the observed signs counts too. |
| Wilcoxon.FloorIffSameSign | src/aaac/evaluation/stats.py:280-284 | It is 2 exactly when all differences share a sign. |
| Wilcoxon.PFloor | src/aaac/evaluation/stats.py:233-237 | The exact p lies between the smallest achievable p and 1, and equals it exactly when all differences share a sign. |
| Wilcoxon.NoteIsRight | src/aaac/evaluation/stats.py:269-276 | Whenever a result carries the cannot-reject note, its p is exact and exceeds 0.05. |
| Wilcoxon.TestSymmetric | src/aaac/evaluation/stats.py:240-291 | Swapping the samples leaves the whole result unchanged: statistic, p, n, dropped pairs and note. |
| Wilcoxon.SignedRank | src/aaac/evaluation/stats.py:240-291 | The whole test: error cases, dropped zeros, statistic, note, exact p up to 20 pairs, and beyond them the argument of the normal tail. |
| Wilcoxon.NormalWellDefined | src/aaac/evaluation/stats.py:286-289 | The variance of the normal approximation is never zero, so its guard never applies, and the statistic never exceeds its mean n(n+1)/4. |
| Wilcoxon.CountExtreme | src/aaac/evaluation/stats.py:279-283 | The counting loop counts exactly the sign vectors at least as extreme as observed. |
| OriginSlots.BoundedAndConserved | src/aaac/origin/service.py:61-74 | For any interleaving of arrivals, wake-ups, departures and cancellations: queue and service stay within their limits and every arrival is accounted for. |
| OriginSlots.StepKeeps | src/aaac/origin/service.py:146-174 | Every step keeps free + handed-over + in-service permits equal to the limit, the queue fair, and no pending waiter unattended beside a free permit. |
| OriginSlots.RunKeeps | src/aaac/origin/service.py:61-74 | So does every run. |
| OriginSlots.WakeKeeps | src/aaac/origin/service.py:74 | A wake-up moves one permit to the first pending waiter and loses none. |
| OriginSlots.QueueOnlyWhenFull | src/aaac/origin/service.py:61-74 | Once every woken or cancelled waiter has run, requests queue only while all slots are busy. |
| OriginSlots.NoOvertaking | src/aaac/origin/service.py:61-74 | Over every run: while a request waits, nobody queued behind it or yet to arrive gets into service. |
| OriginSlots.ArrivalGoesWhere | src/aaac/origin/service.py:152-169 | An arrival is shed exactly when the queue is full; otherwise served at once exactly when a permit is free and nobody queues alive; else it queues last. |
| OriginSlots.CountedOnce | src/aaac/origin/service.py:61-74 | What every other step counts: served exactly for a completed departure, abandoned exactly for one whose client left, cancelled exactly for a waiter that runs after its cancellation. |
| OriginSlots.DeparturesCounted | src/aaac/origin/service.py:61-74 | Over every run the two counters are the completed and the abandoned departures. |
| OriginSlots.OriginState.Request | src/aaac/origin/service.py:152-169 | Arrival: rejected exactly when the queue is full; whole new state. |
| OriginSlots.OriginState.Resumed | src/aaac/origin/service.py:63-69 | A queued request runs again after a grant, a cancellation or both; whole new state. |
| OriginSlots.OriginState.Left | src/aaac/origin/service.py:72-74 | A request leaves service; whole new state. |
| OriginSlots.OriginState.WakeUp | src/aaac/origin/service.py:74 | The release wakes the first waiter that is not done. |
| EventLog.InOrderIff | src/aaac/common/events.py:80-87 | Exact condition: a step keeps file, batch and buffer equal to the accepted lines in order if and only if it does not cancel a coroutine whose write has not happened. |
| EventLog.RunInOrder | src/aaac/common/events.py:47-87 | Over every run without such a cancellation nothing is lost, repeated or reordered. |
| EventLog.CloseLeavesNothing | src/aaac/common/events.py:80-87 | When close returns after such a run, the file is exactly the accepted lines. |
| EventLog.StepShaped | src/aaac/common/events.py:47-62 | A non-empty buffer behind a free lock has a flush task pending unless closing; the buffer stays below 100 lines. |
| EventLog.PendingDrains | src/aaac/common/events.py:51-78 | While open, every schedule of the pending tasks is at most nine steps long, and where it can go no further the file holds every accepted line. |
| EventLog.AppendDoes | src/aaac/common/events.py:47-52 | A line given while the lock is free is accepted at once behind everything buffered; the hundredth is handed over with all before it; while the lock is held it waits. |
| EventLog.AppendedIsWritten | src/aaac/common/events.py:47-78 | A line given to an open logger with a free lock is last in the file once the pending tasks have run, in any order. |
| EventLog.CloseGoesOn | src/aaac/common/events.py:80-87 | Until it is closed, a closing logger always has a step left to take. |
| EventLog.RunConserved | src/aaac/common/events.py:64-78 | Whatever is cancelled, each line is in exactly one place, as often as it was accepted. |
| EventLog.NeverRepeated | src/aaac/common/events.py:64-78 | No line is ever written more often than it was accepted. |
| EventLog.CloseCanLose | src/aaac/common/events.py:82-85 | A close that cancels the timer's queued write returns with a line lost for good. |
| EventLog.CloseCanReorder | src/aaac/common/events.py:82-87 | A write that outlives the close lands behind a later line. |
| EventLog.LateLineStays | src/aaac/common/events.py:49-52 | A line accepted after close stays in the buffer over every later run without further lines, below a hundred of them. |
| EventLog.EventLogger.Accept | src/aaac/common/events.py:47-52 | Append, and flush or start the timer; whole new state. |
| EventLog.EventLogger.FlushTimer | src/aaac/common/events.py:54-62 | The flush task up to its next suspension; whole new state. |
| EventLog.EventLogger.FlushUnlocked | src/aaac/common/events.py:64-78 | The buffer becomes the batch; whole new state. |
| EventLog.EventLogger.StartClose | src/aaac/common/events.py:80-85 | Close up to its wait; whole new state. |
| EventLog.EventLogger.FinishClose | src/aaac/common/events.py:86-87 | The final flush; whole new state. |
| ClientLoop.PollsBounded | src/aaac/client/sdk.py:247-272 | With jitter below 1 the polls are bounded by the patience over the shortest sleep, and a longer run has ended; without jitter at most floor(abandon/0.05)+1. |
| ClientLoop.FullJitterSpins | src/aaac/client/sdk.py:497-502 | With jitter of 1 or more, every client whose join is answered in time has sessions of any number of polls in no time: the bound needs the condition. |
| ClientLoop.EndsBecause | src/aaac/client/sdk.py:248-312 | Exactly why a session ends at a turn: patience, a 404 whatever came before, or the fifteenth bad poll in a row. |
| ClientLoop.OutcomeIff | src/aaac/client/sdk.py:248-372 | For every outcome, the exact conditions on the poll, the status and the transfer under which a turn ends the session with it. |
| ClientLoop.SendsIff | src/aaac/client/sdk.py:325-338 | The estimate is sent exactly when a status says attempt 1, none was sent, and enough round trips were seen. |
| ClientLoop.ProbesAgainIff | src/aaac/client/sdk.py:317-324 | The link is probed again exactly when the probe is more than a minute old and none was repeated. |
| ClientLoop.FlaggedIff | src/aaac/client/probe.py:303-311 | The never-classified flag is raised exactly by a fetch, or an end for want of patience, ticket or future, with no estimate in. |
| ClientLoop.RequestsCounted | src/aaac/client/probe.py:185-199 | Every poll and probe is counted, and exactly the failed ones as failed. |
| ClientLoop.TurnClock | src/aaac/client/sdk.py:497-502 | A turn that goes on takes its requests plus the jittered interval, or nothing if that is negative, plus the lateness of the sleep. |
| ClientLoop.JoinDecides | src/aaac/client/sdk.py:207-240 | Without a usable answer to the join the session ends there without a poll; otherwise it has probed once and polls. |
| ClientLoop.UnavailableAfterFifteen | src/aaac/client/sdk.py:285-312 | Polls report an unavailable service only after fifteen failed or malformed ones in a row. |
| ClientLoop.OneEstimateTwoProbes | src/aaac/client/sdk.py:317-338 | Against any server: at most one estimate, only after a status with attempt 1 and enough round trips; at most two probes, the second only a minute after the first; every request counted. |
| ClientLoop.LiveTallies | src/aaac/client/sdk.py:315-372 | The attempts a session reports are the highest number any status has shown, and its failed transfers the admissions it missed. |
| ClientLoop.FlagsClashIff | src/aaac/client/probe.py:290-311 | The two flags of the gate become true together exactly when an estimate goes in after the session was counted as never qualified. |
| ClientLoop.FlagsCanClash | src/aaac/client/sdk.py:325-351 | A concrete session that is counted both as classified and as never classified. |
| ClientLoop.RunClient | src/aaac/client/sdk.py:207-372 | The whole session, over objects changed in place, ends as the specification says for every sequence of replies. |
| ClientLoop.ClientSession.Pass | src/aaac/client/sdk.py:248-372 | One pass of the loop, every branch; whole new state and outcome. |
| ClientLoop.ClientSession.AttemptTransfer | src/aaac/client/sdk.py:441-451 | The outcome of a transfer, or one more missed window. |
| ClientLoop.ClientSession.Answer | src/aaac/client/sdk.py:314-372 | What a status that parsed leads to; whole new state. |
| ClientLoop.LinkObservation.RecordRequest | src/aaac/client/probe.py:185-192 | Counts a request and keeps a positive round trip of a successful one. |
| ClientLoop.LinkObservation.RecordProbe | src/aaac/client/probe.py:194-199 | Counts a probe and stamps it. |
| ClientLoop.EstimateGate.MarkAdmittedWithoutEstimate | src/aaac/client/probe.py:303-311 | Flags a session that was served before it could be classified. |
| ClientLoop.IntervalMs | src/aaac/client/sdk.py:230-232 | The poll interval is the given one or the 50 ms floor, whichever is larger. |
| Population.ApportionmentIsFair | src/aaac/evaluation/population.py:86-102 | For shares that sum to one: counts sum to n, each is the floor or ceiling of its quota, a whole quota gets exactly itself. |
| Population.SumsToNIff | src/aaac/evaluation/population.py:94-101 | Exact condition for any shares: the counts sum to n if and only if truncation left between 0 and one client per class. |
| Population.ToleranceIsSafeBelowAMillion | src/aaac/origin/config.py:204-206 | With the millionth of slack that the loader accepts, counts still sum to n below a million clients. |
| Population.ToleranceIsSafeIff | src/aaac/origin/config.py:204-206 | A million is the exact boundary: all mixes that the loader accepts yield all n clients if and only if n is below a million. |
| Population.ToleranceBreaks | src/aaac/evaluation/population.py:100-101 | With that slack and two million clients the counts come out three too many. |
| Population.LargestRemainderFirst | src/aaac/evaluation/population.py:95-101 | Whoever is rounded up has at least the remainder of whoever is not. |
| Population.Apportion | src/aaac/evaluation/population.py:86-102 | The loops compute exactly the specified apportionment. |
| Population.Generate | src/aaac/evaluation/population.py:119-152 | A population exists exactly when labels and numbers match one to one, and is the built list sorted by arrival. |
| Population.ClassCountsExact | src/aaac/evaluation/population.py:121-146 | For any shuffle, every class has exactly its apportioned number of clients. |
| Population.IndexNumbersDistinct | src/aaac/evaluation/population.py:131-134 | For any shuffle, index numbers are distinct and fill the block. |
| Population.SeedsDistinct | src/aaac/evaluation/population.py:131-150 | Seeds are the run seed plus the index, distinct, and identify the client after sorting. |
| Population.StableBuilt | src/aaac/evaluation/population.py:152 | Clients are in order of arrival, ties by index. |
| Population.ByClassPartitions | src/aaac/evaluation/population.py:82-83 | Each client is selected by its own class, as often as it occurs, and by no other. |
| Metrics.ByTicket | src/aaac/evaluation/events.py:118-127 | Groups exactly the ticket events that name a ticket, in log order. |
| Metrics.BuildTraces | src/aaac/evaluation/metrics.py:92-153 | One trace per ticket, folded over its events in time order, and the unattributable count. |
| Metrics.TicketTrace.Mark | src/aaac/evaluation/metrics.py:110-146 | What the kind of an event adds to a trace; whole new state. |
| Metrics.TraceCounts | src/aaac/evaluation/metrics.py:97-148 | Counts and bytes of a trace are those of the ticket's events, whatever their order in the log. |
| Metrics.CompletionIsTimed | src/aaac/evaluation/metrics.py:80-84 | Time to completion runs from the earliest JOIN to the latest successful COMPLETE of the ticket. |
| Metrics.TracesAddUp | src/aaac/evaluation/metrics.py:92-153 | Events of all traces plus unattributable ones are all ticket events of the log; likewise the admissions. |
| Metrics.EveryEventCounted | src/aaac/evaluation/events.py:118-135 | The same for events selected by any condition. |
| Metrics.SuccessWithinTotal | src/aaac/evaluation/metrics.py:106-146 | Successful bytes never exceed all bytes of a ticket. |
| Metrics.RatesAreFractions | src/aaac/evaluation/metrics.py:282-316 | Completion rate and goodput of any group of traces from a log lie in [0,1]; goodput is undefined only when no bytes were won. |
| Metrics.MetricsMean | src/aaac/evaluation/metrics.py:282-316 | The metrics of a group of tickets, read off the log: completers, the ADMIT lines of each, bytes of all and of successful lines; the rates times their bases are these counts. |
| Metrics.TraceLabels | src/aaac/evaluation/metrics.py:97-148 | A ticket's class is the first that its events carry in order of time, its estimate the last; lines without outcome or bytes are noted. |
| Metrics.UsableIff | src/aaac/evaluation/metrics.py:394-410 | The usable tickets are those with a timed JOIN line. |
| Metrics.BytesBetween | src/aaac/evaluation/metrics.py:106-146 | The bytes of a line are its whole bytes; missing and negative amounts count as none. |
| Metrics.Ccdf | src/aaac/evaluation/metrics.py:271-279 | P(attempts > k) for k up to the maximum, empty for no completers. |
| Metrics.MeanIsTailSum | src/aaac/evaluation/metrics.py:271-279 | The mean number of attempts equals the sum of the CCDF, which never rises, ends at 0 and not before. |
| Metrics.ClassesCompleteIff | src/aaac/evaluation/metrics.py:394-444 | Class totals plus tickets without a class equal the usable tickets if and only if every label is a class. |
| Metrics.JudgementsAddUp | src/aaac/evaluation/metrics.py:361-363 | Correct, optimistic and pessimistic judgements partition the judged tickets. |
| Metrics.JudgedByPage | src/aaac/evaluation/metrics.py:361-363 | An optimistic error gives a heavier page than the link bears, a pessimistic one a lighter. |
| JainIndex.JainRange | src/aaac/evaluation/stats.py:176-187 | For non-negative values 1/n <= J <= 1; J is 1 exactly when all are equal, and 1/n exactly when one takes all. |
| JainIndex.CauchySchwarz | src/aaac/evaluation/stats.py:176-187 | n times the sum of squares is at least the square of the sum, equal exactly for equal values. |
| JainIndex.JainsIndex | src/aaac/evaluation/stats.py:176-187 | The loops compute the index; nothing for no values, 1 for all zero. |
| JainIndex.JainScaleFree | src/aaac/evaluation/stats.py:176-187 | The index does not depend on the unit of the values. |
| JainIndex.JainTimes | src/aaac/evaluation/stats.py:176-187 | The index times n times the sum of squares is the square of the sum. |

## Left out

- Admission.Next: each API handler is one atomic step; its awaits between store call and log line are not interleaved with other handlers.
- Admission.DoCount: the health request and the two counts of a tick are awaited inside this one step, so no handler runs between them.
- Admission.DoRequeue: the awaits of one re-queue, between its log lines and its store calls, are inside this one step; so are the log lines of one admission in Admission.DoAdmit.
- AdmissionService.AdmissionController.Tick: the in-place tick runs uninterrupted; interleaving is covered by the step machine, of which this is one run.
- RedisStore.RedisQueueStore.ExpireInflight: members that expire together come in the order of their ids as numbers, which stands for the order of their names; the list store orders them by admission.
- StoreRefinement.RunBoth: calls on which the stores differ (an id or score in use, a zero expiry, re-inserting a waiting ticket, completing an unknown one) are excluded; what each store does then is stated by the single calls.
- BoundedWait.NobodyStarves: stated for `baseline` only; in `aaac` a failing ticket keeps its place without limit, so no such bound holds unless the tickets ahead eventually complete, and `none` has no queue.
- HealthTracker.Tracker.Record: buckets are values in an array rather than objects; the clock is a non-decreasing parameter that starts at or after 0.
- Histogram.QuantileMs: the logarithm is replaced by powers of an abstract growth factor, so rounding at a bucket edge is not modelled.
- Wilcoxon.SignedRank: beyond 20 pairs the error function itself is not modelled, only its argument; ranks are doubled to stay integers.
- OriginSlots.StepKeeps: the semaphore is that of asyncio in Python 3.11 (first in, first out, permits handed to waiters); an arrival carries a fresh id.
- EventLog.RunInOrder: writes succeed; lines are opaque; waiting for the lock is not ordered beyond who appends first.
- ClientLoop.RunClient: an unexpected exception, which the source turns into an unavailable-service outcome, and a non-numeric poll interval are not modelled.
- ClientLoop.ClientSession.AttemptTransfer: the wall-clock deadline handed to a transfer is not modelled; how long it takes and how it ends are arbitrary.
- Population.Generate: the two shuffles and the arrival times are arbitrary inputs; client ids and the population hash are omitted.
- Metrics.BuildTraces: ticket ids and classes are numbers already, and of each line only the fields that the traces use are kept; `completion time` quantiles and origin stability figures are omitted.
- Floating-point rounding: all reals are exact.
- Log fields that carry measurements (position, bytes, duration, forced floor, p99) are not part of the admission events.
- Tokens are opaque: a token is absent, bad, or for one ticket; signatures, expiry and payload are not modelled, nor is the status endpoint, which only reads.
- HTTP, Redis networking, files, Docker, link shaping, the link classifier and its training, the t-test and bootstrap numerics, templates, dashboard and reports.
