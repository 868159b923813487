# Invoice approval services: a verified model

This project models the invoice approval system (Intake, Decision, Approval, Payment, Notification
and Audit, talking only through published events) and proves what it promises about money,
duplicates, authority and records over every run, however requests interleave, messages are
delayed or redelivered, and handlers fail.

`dafny verify dfyconfig.toml` checks everything.

## How it is built

- `Contracts.dfy`: invoices, decisions and the events on the wire; the dedup key.
- `OptimisticStore.dfy`: the key-value store with one etag a key, and the bounded
  read/decide/conditional-write loop as a step machine, generic in the operation. Every `await` is
  a place where any other call may move. The general results (linearisation, real-time order, the
  retry bound) are proved once here. `StateClient.dfy` is the client object the repositories call;
  between two calls it lets the rest of the system do an arbitrary script of moves.
- `BudgetRules.dfy`, `Budgets.dfy`, `BudgetGuarantees.dfy`, `IndexedRecords.dfy`, `RateLimiter.dfy`: the
  three users of that loop, each beside its in-memory counterpart.
- `PaymentSaga.dfy`, `SagaGuarantees.dfy`, `SagaHistories.dfy`: reserve, save, charge, compensate,
  publish, for any number of tracking ids at once, with a handler able to die at any await and the
  process able to restart and lose what its gateway holds in memory. The guarantees are about the
  state a run reaches, the histories about what it did on the way; these hold for any gateway.
- `SagaGateway.dfy`, `SagaProgress.dfy`, `SagaStuck.dfy`, `SagaReached.dfy`: the saga before a gateway
  that answers each invoice in one way, in whatever process it is asked, as the simulated one does;
  which payments can still be brought to an end there; and runs from nothing that reach the windows
  and the dead end that the other files speak of.
- `SagaOverStore.dfy` replaces the saga's single-step budget operations by calls of the store's loop.
  `PaymentService.dfy` has the handlers as they are written, on the simulated gateway object, proved
  to be runs of the saga. `Sums.dfy` adds up over sets.
- `Submissions.dfy`, `IntakeStore.dfy`, `IntakeLifecycle.dfy`, `IntakeSaves.dfy`, `IntakeService.dfy`: the
  two repositories, the life of a submission, what the repositories answer after the saves of a run, and
  the service's methods on the repository object.
- `Approval.dfy`, `Router.dfy`, `Notification.dfy`: the other services. Router and Decider are code
  proved against a table, and the table against the gates it stands for.
- `Choreography.dfy`: Intake, Decision, Approval and Payment together over sets of sent messages that
  only grow; a delivery picks any message already sent, any number of times.
  `DecisionAgreement.dfy` asks whether the services hold the same decision. `NotificationTriggers.dfy`,
  `NotificationClash.dfy`, `ClashAmongOthers.dfy`, `NotificationRuns.dfy` and `AuditGuarantees.dfy`
  draw the consequences for the two consumers at the end of the chain.
- `AuditProjection.dfy`, `AuditSummary.dfy`: the audit table in both stores, and the dashboard.

A class method that runs one handler returns, as a ghost, the machine moves it made, and ensures
that its new state is `Run(old state, moves)`, and what it achieves when no await of its script
fails, so it may not give up by itself. What is proved of all runs therefore holds of the
methods. The handlers' branches and values are their own; each awaited call of Payment, Intake,
Notification and the repositories is one move of the machine and demands the record, amount, event,
notice or operations that the machine has in hand at that point.
So a method that skipped a save, swapped two effects or took the wrong branch would be no run.

## Assumptions

- A request that raises a transport error committed nothing (the code's own assumption,
  services/payment/dapr_state_repository.py:136-140).
- Handlers of one tracking id do not overlap in Payment, in Approval's actions and in Intake's
  completes (accepted race, services/payment/service.py:82-85). Notification is modelled with
  overlap; each result says whether it needs its absence.
- Intake's dedup check and first save are one step (accepted gap,
  services/intake/dapr_state_repository.py:21-33); `process` runs once for a submission; a failed
  publish delivered nothing.
- Decimals are exact reals. Non-negative amounts are assumed only where a result says so, and the
  budget results say exactly what their absence breaks.
- Payment runs as one process, so one gateway memory is lost at a time. A restart is a move of its
  own, after the deaths of the handlers it takes with it. A dead handler sends no more requests, and one
  it had sent took effect before the death or not at all: a write that arrives later is excluded.
- The results that take a gateway as a function of the invoice hold for the simulated gateway, whose
  answer depends on nothing else (services/payment/accessors/simulated_gateway.py:26-49), and for one
  that keeps its idempotency keys. All others hold for a gateway that may answer anything.

## Where the code and its documentation differ

- services/payment/models.py:25-29 holds that a crash after the reserve leaves a RESERVED record and
  never reserves again. From the save on that is so (`StoredRecordNeverReservesAgain`,
  `RedeliveryResumesAtCharge`). Between the reserve and its save it is not, and a release has the same
  window (`DyingAfterReserveReservesTwice`, `DyingAfterReleaseCreditsTwice`). `EffectsAreCounted` says
  how many reserves and releases there were, and `ConservedThroughoutIffNothingStranded` exactly
  which deaths break a department's conservation.
- services/payment/models.py:29-34 holds that a resumed charge replays its outcome. The gateway the
  service starts with (services/payment/app.py:56) keeps its outcomes in the memory of the process, so
  a crash between the charge and the save charges again (`DyingAfterChargeChargesAgain`).
  `ChargedTwiceIffReplyForgotten` says exactly when. With the simulated gateway the second answer is the
  first, so a terminal record still agrees with every charge (`TerminalAgreesWithEveryCharge`).
- services/payment/models.py:25-29 makes RESERVED the point from which a crashed payment resumes. If
  the gateway declined it, the release was committed and the process died before the FAILED save, each
  resumption is refused its second release as corruption, and the record stays RESERVED
  (`StuckFromNothing`). `ReservedSettlesIff` says exactly which RESERVED records can still be settled.
- services/payment/dapr_state_repository.py:179-185 takes a failed seed write to mean that the
  department is seeded. That holds if the write was refused for its etag
  (`FinishedSeedLeavesDepartment`) and not if the request failed (`SwallowedFaultSeedsNothing`).
- services/notification/service.py:23-29 holds that at most one of three handlers fires for a
  tracking id. The Decision service keeps no record of its answers, so a redelivered submission can
  be rejected once and auto-approved once (`SameSubmissionDecidedTwoWays`). `ClashArisesIff` gives the
  exact condition in every reachable state, as long as no other payment takes money from its
  department; `ClashComesIff` the one with everybody else at work, where even a stuck payment can be
  freed by another's reserve; `ClashArisesIffRoutesDiffer` what it comes to before Payment and Approval
  have acted. One of the two notices is then never sent, and nobody is told
  (`SecondNoticeIsNeverSent`).
- services/intake/service.py:137-140 calls a different decision for a completed tracking id a bug that is
  not expected, and keeps the first. For the same reason Intake and the service that pays or escalates
  can come to hold different decisions; `ServicesDisagreeIffDivided` says exactly when.
- services/audit/repository.py:4-12 holds that order and redelivery do not matter because a later event
  only rewrites identical base fields, and the two audit stores are taken to mirror each other. For
  the same reason neither holds of every run. The tables are independent of the delivery if and only
  if each submission was answered once (`AuditIgnoresDeliveryIffAnsweredOnce`); the base fields are
  identical if and only if its decisions are (`BaseFieldsAgreeIffDecisionsDo`); the stores agree if
  and only if no recommendation is withdrawn (`StoresAgreeIffNoneWithdrawn`), which a run can do
  (`StoresDifferOnARun`).
- shared/contracts/models.py:204-213 means the key to stand for vendor, number and total. It does
  for an invoice none of whose three parts contains a `|`, and for no other
  (`KeyIsUniqueIffSeparatorFree`); totals count as they are printed, so 10.0 and 10.00 differ.
- shared/rate_limiter.py:74-77: the advertised wait is truncated to whole seconds, so waiting it out
  reaches the next window only if the clock read a whole second (`RetryAfterReachesNextBucket`).

## Model

| member | source | states |
|---|---|---|
| OptimisticStore.TransactionEffect | tests/unit/payment/test_dapr_state_repository.py:42-71 | a conditional transaction goes through exactly when the watched etag is the one that was read; then it writes all its keys, each with an etag never used before, and leaves every other key alone |
| OptimisticStore.EveryRunLinearises | services/payment/dapr_state_repository.py:216-277 | for any operation on the loop and any interleaving with any failures: the store is what the logged operations give one after another, each answer is the sequential one at its place in the log, and a call is logged once, during its run, if and only if it returned |
| OptimisticStore.RealTimeOrder | services/payment/dapr_state_repository.py:216-277 | a call that returned before another began comes before it in that sequential history |
| OptimisticStore.RetryBound | services/payment/dapr_state_repository.py:216-245 | a call refused on every try without a transport fault was beaten by at least as many different other calls, each of which committed to its key while it ran |
| OptimisticStore.FewRivalsNeverExhaust | shared/rate_limiter.py:168-202 | with no more overlapping committers than attempts, the call itself among them, a fault-free call is never refused to the end |
| OptimisticStore.UncontendedCallReturns | services/payment/dapr_state_repository.py:216-245 | left alone, a call returns at its next try with the sequential answer and effect |
| OptimisticStore.RivalsExhaust | services/payment/dapr_state_repository.py:216-245 | the retry bound is tight for any operation on the loop: as long as both sides keep attempting a write, one rival a remaining try, committing between its read and its write, exhausts a fault-free call |
| StateClients.StateClient.GetState | services/payment/dapr_state_repository.py:79-91 | a read is the machine's read after arbitrary moves of others; it returns the value and etag the call now holds, or fails and ends the call |
| StateClients.StateClient.ExecuteStateTransaction | services/payment/dapr_state_repository.py:79-91 | a conditional write is the machine's write after arbitrary moves of others; committed means the call has returned, otherwise it goes to its next try or is refused |
| BudgetRules.InMemoryBudgetRepository.EnsureSeeded | services/payment/repository.py:82-87 | seeds a department only when it is absent |
| BudgetRules.InMemoryBudgetRepository.ReserveAmount | services/payment/repository.py:92-101 | not found if and only if the department is absent, insufficient if and only if it has less than the amount; otherwise the amount is taken from remaining and nothing else changes |
| BudgetRules.InMemoryBudgetRepository.ReleaseAmount | services/payment/repository.py:103-115 | not found if and only if the department is absent, corruption if and only if remaining would exceed the total; otherwise the amount is given back and nothing else changes |
| Budgets.DaprStateBudgetRepository.EnsureSeeded | services/payment/dapr_state_repository.py:179-203 | is one seed call of the machine; raises only on a failed read; in a reachable store, if no request fails, the department is there afterwards, whoever seeded it |
| Budgets.DaprStateBudgetRepository.ReserveAmount | services/payment/dapr_state_repository.py:216-245 | is one reserve call of the machine, interleaved with anything, and reports how that call ended: its answer, or the repository error when it has none; without transport faults it is a fault-free call, so the retry bound applies |
| Budgets.DaprStateBudgetRepository.ReleaseAmount | services/payment/dapr_state_repository.py:247-277 | the same for release, corruption included |
| BudgetGuarantees.StoreRefinesInMemoryRepository | services/payment/dapr_state_repository.py:179-277 | any interleaving of seeds, reserves and releases, with any failures, ends in the budgets and gives the answers of the in-memory repository doing the logged operations in turn; a call without an answer changed nothing |
| BudgetGuarantees.Inv1014 | services/payment/dapr_state_repository.py:216-277 | in every reachable state: the total is the first seed's, remaining is the total less committed reserves plus committed releases, and 0 <= remaining <= total if no amount is negative |
| BudgetGuarantees.BoundsNeedNonNegativeAmounts | services/payment/repository.py:82-115 | an operation keeps every in-bounds budget in bounds if and only if its amount is not negative |
| BudgetGuarantees.GivingUpNeedsFiveRivals | services/payment/dapr_state_repository.py:63-63 | a fault-free reserve or release that exceeds its retries lost to five different calls that each succeeded on its department |
| BudgetGuarantees.FiveRivalsCanExhaust | services/payment/dapr_state_repository.py:216-245 | the bound is tight: from any state with a full department and a reserve about to read, five rivals, one between each read and write, exhaust it; a sixth try would need a sixth |
| BudgetGuarantees.FiveRivalsExhaustFromScratch | services/payment/dapr_state_repository.py:179-245 | and such a state is reachable: a run from the empty store with seven calls (seed, reserve, five rivals) exhausts a fault-free reserve |
| BudgetGuarantees.FinishedSeedLeavesDepartment | services/payment/dapr_state_repository.py:179-203 | in every run, a seed call that is over left its department in the store if it returned or none of its requests failed in transport; and in any case the department is there if and only if a seed of it is in the log |
| BudgetGuarantees.SwallowedFaultSeedsNothing | services/payment/dapr_state_repository.py:179-203 | the proviso is needed: a write request that fails in transport is taken for a refusal, and the department is not there |
| IndexedRecords.InMemoryRepository.Save | services/payment/repository.py:32-33 | a save replaces the record and keeps first-save order |
| IndexedRecords.InMemoryRepository.ListAll | services/payment/repository.py:38-39 | lists every record once, in first-save order |
| IndexedRecords.DaprStateRepository.Save | services/payment/dapr_state_repository.py:119-143 | is one save call of the machine: record and index written together under the index's etag, or the repository error |
| IndexedRecords.DaprStateRepository.ListAll | services/payment/dapr_state_repository.py:156-163 | reads the index and then each record it names, one state of the store a read, with other callers saving in between; raises if a read fails, or where an indexed key holds no record; undisturbed, it is the listing of the one state there is |
| IndexedRecords.ListingBesideWriters | services/payment/dapr_state_repository.py:156-163 | beside any concurrent saves, a listing whose reads go through returns each tracking id of the index as read, once and in first-save order, with the record it had when it was read; it raises if and only if it reads an id spelled "index" |
| IndexedRecords.IndexAgreesWithRecords | services/approval/dapr_state_repository.py:99-125 | under any interleaving of saves the store is the dictionary after the returned saves: no repeats in the index, exactly the ids that have a record, every returned save among them |
| IndexedRecords.IndexOnlyGrows | services/payment/dapr_state_repository.py:119-143 | every earlier index is a prefix of every later one |
| IndexedRecords.ListingMatchesMemoryIffNoIndexId | services/approval/dapr_state_repository.py:138-145 | with no concurrent writer listing equals the in-memory listing if and only if no tracking id is spelled "index", and otherwise fails |
| IndexedRecords.GivingUpNeedsFiveRivals | services/payment/dapr_state_repository.py:119-143 | a fault-free save that exceeds its retries lost to five different saves that each committed to the index while it ran |
| IndexedRecords.FiveRivalsExhaustFromScratch | services/payment/dapr_state_repository.py:119-143 | five suffice, whatever is saved: a run from the empty store with five rivals exhausts a save |
| RateLimiter.WindowMeetsTwoBuckets | shared/rate_limiter.py:74-77 | a stretch of one window length meets at most two buckets |
| RateLimiter.RetryAfterReachesNextBucket | shared/rate_limiter.py:74-77 | the advertised wait lies within the window; one second more always reaches the next bucket, the wait itself if and only if the clock read a whole second |
| RateLimiter.KeyNamesIdentityAndBucket | shared/rate_limiter.py:80-84 | within a scope, keys are equal if and only if identity and bucket are, for any identity text |
| RateLimiter.ScopesShareKeysIffOneExtendsOther | shared/rate_limiter.py:80-84 | two scopes can share a key if and only if one with its colon begins the other |
| RateLimiter.InMemoryRateLimiter.Hit | shared/rate_limiter.py:97-108 | refuses bad parameters unchanged; otherwise allows and counts a hit if and only if its counter is below the limit, and leaves the counter at it |
| RateLimiter.DaprStateRateLimiter.Hit | shared/rate_limiter.py:168-202 | refuses bad parameters; otherwise is one hit call of the machine and reports how it ended; a stored counter that is no number raises |
| RateLimiter.CountersAreExact | shared/rate_limiter.py:168-202 | under any interleaving the stored counters and the answers are the in-memory limiter's, and with one rule a colon-free scope a hit is allowed if and only if fewer hits of its identity and bucket were allowed before it than the limit, and a bucket's counter is the number of hits allowed in it |
| RateLimiter.TwiceTheLimit | shared/rate_limiter.py:14-17 | no half-open stretch of one window length sees more than twice the limit of allowed hits by one identity |
| RateLimiter.GivingUpNeedsFiveRivals | shared/rate_limiter.py:168-202 | a fault-free hit that exceeds its retries lost to five different hits on its counter, every one of them allowed |
| RateLimiter.FiveRivalsExhaustFromScratch | shared/rate_limiter.py:168-202 | five suffice: from the empty store, five other hits exhaust any hit whose limit is at least five |
| RateLimiter.HitGivesUpIffLimitFive | shared/rate_limiter.py:168-202 | with one rule a colon-free scope, whoever else is at work: a hit whose requests all go through can end in the limiter's error if and only if its limit is at least five |
| RateLimiter.GarbageRaises | shared/rate_limiter.py:180-185 | a stored counter that is no number is an error for whoever reads it, and stays as it is |
| PaymentSaga.RunKeepsSlots | services/payment/models.py:8-36 | in every run each tracking id's record, running handler, charges, remembered reply and published events fit together (the saga's invariant) |
| SagaGuarantees.EffectsAreExact | services/payment/service.py:76-173 | with handlers dying anywhere, restarts and redelivered events: COMPLETED means the last charge was accepted; FAILED means it was declined with that reason, or there was none and nothing is held; at most one event is published, with the record's invoice, decision, reason and outcome |
| SagaGuarantees.PublishedSaysWhatHappened | services/payment/service.py:159-173 | in every run, a published event says completed if and only if its record is COMPLETED, if and only if the last charge was accepted; it says failed if and only if the record is FAILED, with the last charge's decline, or with one of the two rejections where nothing was charged |
| SagaGuarantees.StatusOnlyMovesForward | services/payment/models.py:8-24 | every step moves a record only along none, RESERVED or FAILED, then terminal, changing nothing else of it, and never takes back a charge or an event |
| SagaGuarantees.TerminalIsForever | services/payment/service.py:76-80 | from a terminal record on, record and charges never change, and the published events gain at most the record's one outcome event |
| SagaHistories.RedeliveryResumesAtCharge | services/payment/models.py:26-36 | amid any moves of others, a redelivery to a RESERVED record reserves nothing and charges only if the gateway has no reply to replay; once its awaits have gone through, the record is COMPLETED or FAILED as that reply says and one event is published, unless its release was refused, and then nothing but the charge has happened |
| SagaHistories.EffectsAreCounted | services/payment/models.py:25-34 | in every run a tracking id's committed reserves are one if its record came from a reserve, one if its handler stands before saving it, and one for each handler that died there; its releases likewise |
| SagaHistories.RecordHasItsReserve | services/payment/service.py:81-114 | in every run, behind each record there is a reserve of its invoice's total, and what the budget was at that move decides which record it is: FAILED with "insufficient department budget" if the department had less, with "no budget configured" if it was not there, and otherwise the total is taken and held |
| SagaHistories.StoredRecordNeverReservesAgain | services/payment/models.py:25-29 | once a record is stored, no later step of any run reserves for its tracking id, whoever dies and whatever is redelivered |
| SagaHistories.ChargedTwiceIffReplyForgotten | services/payment/models.py:29-34 | a key is charged a second time if and only if some restart made the gateway forget its reply and a handler of that key reached the gateway after it |
| SagaHistories.ChargedOnceWithoutRestart | services/payment/accessors/payment_gateway.py:23-35 | for a gateway that may answer anything: in a run without a restart no key is charged twice, and a FAILED record was never accepted |
| SagaGateway.TerminalAgreesWithEveryCharge | services/payment/accessors/simulated_gateway.py:26-49 | with deaths, restarts and redeliveries anywhere, before a gateway that answers each invoice in one way: all charges of a key went the same way; COMPLETED means that there was one and every one was accepted, FAILED that none was, and its reason is the decline |
| SagaStuck.ReservedSettlesIff | services/payment/models.py:25-34 | in every reachable state before such a gateway, while no other payment takes money from its department, a RESERVED record can still be settled if and only if the gateway accepts its invoice, its handler is about to save the FAILED record, or the department has room for its release |
| SagaReached.StuckFromNothing | services/payment/service.py:126-136 | any declined payment within its budget can get stuck: a run from nothing, with nobody else about, leaves its record RESERVED and past settling |
| SagaHistories.DyingAfterChargeChargesAgain | services/payment/app.py:56 | a process that dies with its handlers anywhere between a charge and the save of its outcome, accepted or declined, restarts and gets the event again, charges that key again |
| SagaReached.ChargesTwiceFromNothing | services/payment/app.py:56 | that is reached from nothing by any payment within its budget, with any two replies |
| SagaGuarantees.DyingAfterReserveReservesTwice | services/payment/service.py:81-114 | a handler that dies between its reserve and its save reserves again at the next delivery |
| SagaReached.ReservesTwiceFromNothing | services/payment/service.py:81-114 | that is reached from nothing by any payment of at most half its budget: remaining is twice the amount down, and one record holds it once |
| SagaGuarantees.DyingAfterReleaseCreditsTwice | services/payment/service.py:127-136 | a handler that dies between its release and its save releases again at the next delivery |
| SagaReached.CreditsTwiceFromNothing | services/payment/service.py:127-136 | that is reached from nothing by two payments of one department: the declined one is given back twice, out of what the other holds |
| SagaGuarantees.MoneyIsAccounted | services/payment/service.py:86-136 | in every run: remaining, plus what live records and in-flight steps hold, plus what deaths in the two windows cost, is the department's total |
| SagaHistories.ConservedThroughoutIffNothingStranded | services/payment/service.py:86-136 | a department's money is conserved at every point of a run if and only if no move of the run kills a handler that holds some of it between a committed reserve or release and its save |
| SagaGuarantees.ConservationAtRest | services/payment/service.py:86-136 | with no handler running and none having died in the two windows, remaining plus the reserved amounts of RESERVED and COMPLETED records is the total |
| SagaOverStore.EveryRunIsASaga | services/payment/service.py:86-129 | with the budget operations as calls of the conditional-write loop, any requests failing and all calls interleaved, every run is answer for answer a run of the saga with single-step budgets, and its deaths cost the same |
| SagaOverStore.StoreConservesMoney | services/payment/service.py:86-136 | in every such run, what the store holds of a department plus what the slots hold plus what deaths between an answer and its save cost is the total |
| SagaOverStore.StoreConservedThroughoutIffNoDeathCosts | services/payment/service.py:86-136 | the store conserves a department's money at every point of such a run if and only if no handler dies holding some of it between the repository's answer and the save; failed requests alone never break it |
| SagaGuarantees.CorruptionIffOverCredited | services/payment/repository.py:103-115 | a compensating release is refused as corruption if and only if double credits exceed what the other records hold |
| SagaGuarantees.ReleaseNeverCorrupts | services/payment/service.py:127-129 | without deaths in the windows and with non-negative totals, release always succeeds |
| SagaOverStore.StoreCorruptionIffOverCredited | services/payment/dapr_state_repository.py:247-277 | over the conditional-write loop, a release that read the store now would be refused as corruption if and only if what deaths credited exceeds what the other slots hold |
| SagaOverStore.StoreReleaseNeverCorrupts | services/payment/dapr_state_repository.py:247-277 | so where deaths have credited the department nothing and no amount is negative, it is never refused |
| PaymentServices.SimulatedPaymentGateway.Charge | services/payment/accessors/simulated_gateway.py:35-49 | a known key replays its reply and executes nothing; a new one executes exactly once, and is accepted if and only if its invoice is not listed to fail |
| PaymentServices.PaymentService.Charge | services/payment/service.py:126-128 | asks the gateway object under the tracking id: a remembered reply is replayed, otherwise one charge is added, and the handler goes on with that reply; throughout, the object's results are exactly the replies the slots remember, its execution count is their number, and every charge ever made was answered as the object answers that invoice |
| PaymentServices.PaymentService.ExecuteCharge | services/payment/service.py:119-142 | from a RESERVED record, is a run of the machine's handler to its end: an accepted charge, replayed or new, leads to COMPLETED and one completed event; a declined one to FAILED with the gateway's words and one failed event with them; without a failing await only a refused release stops it |
| PaymentServices.PaymentService.RejectPayment | services/payment/service.py:144-157 | saves the FAILED record holding nothing, then publishes the failed event with that reason, unless an await fails |
| PaymentServices.PaymentService.RunSaga | services/payment/service.py:76-117 | is one handler of the machine from its delivery on, interleaved with other tracking ids; a terminal record stays as it was, any other slot gets one with its one event, completed for COMPLETED and failed for FAILED; without a failing await only a refused release stops it |
| PaymentServices.PaymentService.HandleDecisionCompleted | services/payment/service.py:63-68 | every route but AUTO_APPROVE changes nothing; AUTO_APPROVE runs the saga as above |
| PaymentServices.PaymentService.HandleApprovalCompleted | services/payment/service.py:70-74 | REJECTED changes nothing; APPROVED runs the saga as above |
| Contracts.KeyIsUniqueIffSeparatorFree | shared/contracts/models.py:204-213 | an invoice shares its key with no other vendor, number and printed total if and only if none of its three parts contains the separator |
| Contracts.FreeKeyNamesTheTriple | shared/contracts/models.py:204-213 | for a separator-free invoice, any invoice has the same key exactly if it has the same vendor, number and printed total |
| IntakeStore.InMemoryInvoiceRepository.Save | services/intake/repository.py:36-38 | files a submission under its id and its dedup key |
| IntakeStore.DaprStateInvoiceRepository.Save | services/intake/dapr_state_repository.py:86-100 | writes record and pointer together, or neither when the request fails |
| IntakeStore.DaprStateInvoiceRepository.Find | services/intake/dapr_state_repository.py:113-131 | pointer, then record; raises if either read fails, and on a pointer whose record is missing |
| IntakeStore.PointerStoreRefinesDictionaries | services/intake/dapr_state_repository.py:86-131 | for every sequence of saves in which ids keep their dedup key, every lookup answers what the two dictionaries answer and none raises |
| IntakeStore.AgreementSurvivesSaveIff | services/intake/dapr_state_repository.py:9-20 | one more save keeps the two alike if and only if no other key remembers its tracking id; the pointer dangles in neither case |
| IntakeSaves.LookupSeesEveryKey | services/intake/service.py:50-67 | for every run of Intake: the saves it makes keep each id's dedup key, so both repositories answer them alike, no lookup raises, the dedup lookup finds a submission exactly for the keys some submission of the run has, and every id reads back as it is |
| IntakeLifecycle.OneOriginalPerKey | services/intake/service.py:50-67 | of all submissions with one dedup key exactly one is not flagged a duplicate |
| IntakeLifecycle.DecisionNeverFindsReceived | services/intake/service.py:108-116 | a decision being completed finds PROCESSING or COMPLETED, never RECEIVED or FAILED; for a duplicate, its own decision already in place |
| IntakeLifecycle.CompletedIsForever | services/intake/service.py:126-164 | a COMPLETED submission never changes again, whatever is redelivered |
| IntakeLifecycle.IdentityIsForever | services/intake/dapr_state_repository.py:19-20 | id, invoice, dedup key and duplicate flag never change, which is what the stored pointer needs |
| IntakeLifecycle.SubmissionShowsItsStatus | services/intake/service.py:50-164 | in every run a submission has a decision if and only if it is COMPLETED: a duplicate its own, an original one that was delivered for it; and an error if and only if it is FAILED, and then it is an original of which nothing has left Intake |
| IntakeServices.IntakeService.SubmitInvoice | services/intake/service.py:50-67 | is one submit step of the machine, its duplicate flag set from the repository's lookup, so exactly if some submission had the key; if a read or the save fails it raises and nothing is submitted |
| IntakeServices.IntakeService.SaveSubmission | services/intake/dapr_state_repository.py:86-100 | one save by a handler, of exactly the submission it is due to save; it takes the handler to its next await, or ends it |
| IntakeServices.IntakeService.PublishInvoice | services/intake/service.py:115-124 | publishes the invoice of the submission that was read; then it is announced, or, if the publish failed, its FAILED save is due |
| IntakeServices.IntakeService.Process | services/intake/service.py:69-124 | is a run of the machine's process to its end; without a failing await a duplicate ends COMPLETED with the duplicate decision, an original PROCESSING and announced, or FAILED if its publish failed |
| IntakeServices.IntakeService.Complete | services/intake/service.py:126-164 | for an announced submission, is a run of the machine's complete; an unknown or completed one keeps what it has, any other gets COMPLETED with this decision unless an await fails. One that was never announced is completed too, over what was read of it |
| Approval.ApprovalService.HandleDecisionCompleted | services/approval/service.py:59-90 | creates a PENDING record of the event's invoice, decision and recommendation for a new HUMAN_REVIEW decision, raises if its save fails, and changes nothing otherwise |
| Approval.ApprovalService.Resolve | services/approval/service.py:101-126 | approve and reject: refused where not there or resolved, else saved as APPROVED or REJECTED and then published once with that resolution |
| Approval.ApprovalService.RequestMoreInfo | services/approval/service.py:128-136 | moves an actionable record to WAITING_INFO and changes nothing else; refused where not there or resolved |
| Approval.ApprovalService.AddAdditionalInfo | services/approval/service.py:138-153 | accepted in WAITING_INFO only; back to PENDING with exactly that text |
| Approval.PublishedOnceAsSaved | services/approval/service.py:111-126 | over every sequence of deliveries, actions and failures, approval.completed is published at most once for an id, with the saved resolution, and only escalated decisions have a record |
| Approval.ResolvedIsForever | services/approval/service.py:155-161 | APPROVED and REJECTED never change, information given is never cleared, invoice and decision never change |
| Approval.RedeliveryChangesNothing | services/approval/service.py:59-90 | over every sequence of deliveries, actions and failures: leaving out each delivery of a decision whose tracking id has a record by then changes no record and no published event |
| Approval.ResolutionHasItsAction | services/approval/service.py:101-126 | over every sequence of deliveries, actions and failures a resolved record was resolved by a human's approve or reject of it while it was open, and its event was lost if and only if the publish of that action failed |
| Approval.RecordHasItsDecision | services/approval/service.py:59-90 | every record was created by the first HUMAN_REVIEW decision delivered for it and still carries its invoice, decision and recommendation |
| Approval.InfoIsAskedAndGiven | services/approval/service.py:128-153 | in every run, a saved request on an open record leaves it WAITING_INFO and changes nothing else, and the answer after it is accepted and leaves it PENDING with exactly its text |
| Approval.RecordSaysLastAction | services/approval/service.py:101-161 | in every run a record's status is that of the last action saved on it, PENDING if there is none, and its information is the text of the last answer saved |
| Router.RouteDecision | services/decision/router/router.py:52-161 | computes the routing table's route and rules, in their order; a duplicate gets the canonical decision |
| Router.RoutesExactly | services/decision/router/router.py:52-161 | each of the four routes if and only if its gates say so; AUTO_APPROVE needs every hard stop passed, every cap kept and a confident approve |
| Router.HardStopNames | services/decision/router/router.py:68-78 | each hard stop is named if and only if its own condition fails, GLOBAL-MATH if and only if the lines' quantities times unit prices plus the tax do not add up to the total |
| Router.HardStopsInOrder | services/decision/router/router.py:68-78 | in the order of the checks, each at most once |
| Router.TotalAddsUp | services/decision/router/router.py:25-29 | no line comes to nothing, one line to its quantity times its unit price, two lists together to the sum of the two, in either order |
| Router.TotalIsSumOfLines | services/decision/router/router.py:25-29 | the loop's total is the sum over all lines |
| Router.AmountRuleNames | services/decision/router/router.py:36-49 | each amount rule is named if and only if its own cap is exceeded, a meal's by the total against the cap for all attendees; the ceiling comes first, and at most one category rule after it |
| Router.RulesExactly | services/decision/router/router.py:52-161 | what each decision names, by its gates: the failed hard stops, the severe cited rules or the unverified reject, the exceeded amounts, the agent's cited rules, the low confidence, or nothing |
| Router.NotesNeverMatter | services/decision/router/router.py:52-161 | with the recommendation fixed, free-text notes never move the decision |
| Router.LooseningKeepsAutoApprove | services/decision/router/router.py:113-161 | loosening thresholds never takes an AUTO_APPROVE away |
| Router.CollectSevere | services/decision/router/router.py:96-98 | keeps, in order, the cited rules that are configured as severe |
| Router.SevereKeepsOrder | services/decision/router/router.py:96-98 | a cited rule is kept if and only if it is severe, and lists keep their order and repetitions |
| Router.Classify | services/decision/agent/nodes.py:48-65 | a provider failure or an unparsable reply is an agent error; a parsed one is its recommendation |
| Router.Decide | services/decision/service/decider.py:32-105 | the recommendation is the parsed reply, none if the provider fails or the reply does not parse; the outcome is the router's verdict on it, and AUTO_APPROVE implies every gate |
| Choreography.RunKeepsInv | services/payment/service.py:63-117 | over all interleaved steps of the services and any delivery of sent messages, every message and record stays justified by what sent it |
| Choreography.NothingPaidWithoutAuthority | services/payment/service.py:63-117 | in every run each payment record carries the invoice and decision of an AUTO_APPROVE that passes every gate, or of a HUMAN_REVIEW that a human approved |
| Choreography.PaidOnlyAfterAnAct | services/payment/service.py:63-117 | behind every payment record there is a move of the run that answered AUTO_APPROVE to that invoice, or a human's approve of that tracking id |
| Choreography.OnePaymentPerDedupKey | services/intake/service.py:50-124 | in every run two payment records with one dedup key are the same, and flagged duplicates have none |
| Choreography.DecisionsFindTheirSubmission | services/intake/service.py:108-116 | when a decision has been sent, its submission is announced, past RECEIVED, not FAILED, and a duplicate if and only if the route says so |
| DecisionAgreement.ServicesAgreeUnlessDivided | services/intake/service.py:137-140 | in every run, Intake, Approval and Payment hold different decisions of an id only if two different ones were sent, one of which can be paid or escalated |
| DecisionAgreement.ServicesDisagreeIffDivided | services/intake/service.py:137-140 | and as long as none has been taken up, they can come to do so, with no further decision sent, if and only if that is the case |
| Choreography.ServicesRunTheirMachines | services/intake/service.py:4-10 | within the system each service only makes moves of its own machine, so all results above apply to it |
| NotificationTriggers.OneKindOfNotification | services/notification/service.py:23-29 | if all decisions of an id agree on the route, at most one of the three handlers ever sends for it |
| NotificationTriggers.SameSubmissionDecidedTwoWays | services/decision/service/decider.py:32-105 | one submission can be rejected once and auto-approved once |
| NotificationClash.ClashArisesIff | services/notification/service.py:23-29 | in every reachable state before a gateway that answers each invoice in one way: two kinds of notification can still arise for an id, with no further decision sent and no other payment taking money from its department, if and only if two of these hold: a decision declined it; a human declined it or still can; Payment reported, or its event is or can be there and it can settle |
| ClashAmongOthers.ClashComesIff | services/notification/service.py:23-29 | the same with everything else going on, new invoices submitted and paid included, and no negative totals: if and only if two of these hold: a decision declined it; a human declined it or still can; its payment reported, or is under way and not lost unpublished |
| NotificationClash.ClashArisesIffRoutesDiffer | services/notification/service.py:23-29 | before Payment and Approval have touched the id, that is so if and only if its decisions disagree on the route, where a payment counts only if it can settle |
| NotificationRuns.SecondNoticeIsNeverSent | services/notification/service.py:82-124 | in every run of the system with Notification behind it whose handlers of an id do not overlap: only what is due is sent, and unless a handler failed between its send and its mark, at most once; so where two kinds clash after one was sent, some notice of another kind is due and never sent |
| Notification.SendsAreAccounted | services/notification/service.py:111-124 | however handlers overlap and fail: sends equal lost marks plus written marks plus handlers about to mark, and a marked id was notified |
| Notification.SendsBetweenHandlers | services/notification/service.py:111-124 | without overlap, between handlers: sends equal failures after a send and before its mark, plus one if marked |
| Notification.MarkedIsFinal | services/notification/service.py:111-124 | once marked and idle, nothing more is sent for that id, even by overlapping handlers |
| Notification.OverlapSendsTwice | services/notification/service.py:16-21 | the accepted race: two overlapping deliveries send twice without any failure |
| Notification.NotificationService.Notify | services/notification/service.py:111-124 | skips when marked; else either sends once and marks, or raises with every send accounted for; never raises if every await goes through |
| Notification.NotificationService.HandleDecisionCompleted | services/notification/service.py:82-92 | REJECT and DUPLICATE send their one notice unless marked; AUTO_APPROVE and HUMAN_REVIEW change nothing |
| Notification.NotificationService.HandleApprovalCompleted | services/notification/service.py:94-101 | REJECTED sends its one notice unless marked; APPROVED changes nothing |
| Notification.NotificationService.HandlePaymentCompleted | services/notification/service.py:103-109 | every payment outcome sends its one notice, with its resolution and reason, unless marked |
| AuditProjection.OrderAndRedeliveryDoNotMatter | services/audit/repository.py:95-141 | for consistent events the final table depends only on which events arrived, and the database gives the same table |
| AuditProjection.StoresAgreeIffNoneWithdrawn | services/audit/postgres_repository.py:104-143 | for any events at all, dictionary and database agree if and only if no recommendation was given, then overwritten by none, and not given again |
| AuditProjection.DecisionsCommuteIff | services/audit/repository.py:95-103 | two decisions of one id commute if and only if they agree on the base fields and do not recommend differently |
| AuditProjection.RowSaysLastEvents | services/audit/repository.py:52-116 | for any events in any order, an id has a row if and only if some event is about it; its base columns are the own fields of the last such event's invoice and decision, its recommendation the last one given, its resolution the last approval's, its payment columns the last payment's |
| AuditGuarantees.AuditIgnoresDeliveryIffAnsweredOnce | services/audit/repository.py:4-12 | in every run of the system: any order and redelivery of the same emitted events, in the dictionary or the database, gives one and the same table, if and only if no submission was answered in two ways |
| AuditGuarantees.BaseFieldsAgreeIffDecisionsDo | services/audit/repository.py:4-12 | in every run, all emitted events of an id carry the same base fields if and only if all decisions sent for it are equal, whatever they recommend |
| AuditGuarantees.StoresDifferOnARun | services/audit/postgres_repository.py:104-143 | for any invoice there is a run whose events leave dictionary and database different: a recommendation, then an agent failure |
| AuditGuarantees.DashboardIgnoresOrder | services/audit/postgres_repository.py:147-152 | two stores listing the same rows in any order show the same dashboard |
| AuditSummary.InMemoryAuditRepository.UpsertDecision | services/audit/repository.py:95-103 | writes the event's own base columns and, if it has one, its recommendation; keeps what approval and payment wrote, and every other row |
| AuditSummary.InMemoryAuditRepository.UpsertApproval | services/audit/repository.py:105-109 | writes the event's own base columns and its resolution; keeps recommendation and payment, and every other row |
| AuditSummary.InMemoryAuditRepository.UpsertPayment | services/audit/repository.py:111-116 | writes the event's own base columns, its resolution and reason; keeps recommendation and approval, and every other row |
| AuditSummary.InMemoryAuditRepository.GetRouteSummary | services/audit/repository.py:121-135 | one group for each route, currency and approval resolution that some row has, with exactly those rows' count and total, and no row left out |
| AuditSummary.GroupRows | services/audit/repository.py:122-128 | the accumulated dictionary holds, for exactly the routes, currencies and resolutions of the rows, their count and total |
| AuditSummary.RowsAddUp | services/audit/repository.py:122-128 | a row counts one and adds its own total if it is wanted, and lists add up |
| AuditSummary.GroupingIsExact | services/audit/service.py:69-82 | however the rows were grouped, counting or summing the groups of any kind equals counting or summing the rows |
| AuditSummary.AuditService.GetSummary | services/audit/service.py:63-92 | the dashboard is what the rows' own columns say: counts, money by currency, counts by route, rates |
| AuditSummary.DashboardSays | services/audit/service.py:63-92 | read off the columns: money auto-approved in a currency is the total of the rows with route AUTO_APPROVE and that currency, money approved by humans that of the HUMAN_REVIEW rows resolved as approved in it, each listed if and only if there is such a row; a route's count is the number of its rows |
| AuditSummary.Summarise | services/audit/service.py:69-92 | the same from any grouping of the rows, so from the database's too |
| AuditSummary.CountsAddUp | services/audit/models.py:81-89 | counts by route add up to the number of invoices and contain the two shown separately |
| AuditSummary.RatesAreProportions | services/audit/models.py:81-89 | each rate times the number of rows is the number of its rows, 0 without rows; both lie in [0, 1] and together do not exceed 1 |

## Left out

- HTTP, FastAPI, Dapr subscriptions, publishers, configuration and secret loading, the UI: transport and plumbing.
- Authentication, password hashing and demo users: library calls.
- Policy retrieval (services/decision/service/policy_index.py): the router never reads its output; the retrieval fallback in the Decider goes with it.
- The agent graph: its two nodes are Classify and RouteDecision; a graph that ends without a decision (the RuntimeError branch) is not part of this model.
- Validation of a provider's reply as a recommendation: any parser will do, so `Decide` takes one as a parameter.
- Bulkhead (shared/bulkhead.py): semaphores and timeouts.
- Timestamps, log lines and message wording; the reason texts of the router are shortened. Records are values, so JSON round trips are not part of this model.
- Rounding: Decimals and floats are reals. `per_attendee` and the dashboard's rates are exact quotients; how a Decimal prints is only its text in the dedup key.
- SagaOverStore.EveryRunIsASaga: takes the budget operations apart, not the record ones; a record's only writer is its own handler, so its read and save stay single steps.
- IndexedRecords.DaprStateRepository.Save: each repository has a store to itself; the prefixes of the keys keep them apart in the shared one.
- Approval: its handlers are single steps with a place of failure, not split at each await, because actions on one tracking id do not overlap; a publish that arrives late is a message delivered late.
- Liveness: a crash after a terminal save and before its publish loses the event (README.md:738-741 of the repository), so publication is at most once.
- Intake's status query, which asks Approval for the live status (services/intake/service.py:166-195), and the read-only listings of the services.
- Choreography.NothingPaidWithoutAuthority: the thresholds stay fixed during a run.
