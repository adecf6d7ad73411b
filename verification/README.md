# TripWire: a verified model

TripWire turns payments and other on-chain events into webhooks, and sells tool calls to agents.
Its I/O is thin; what is hard is the set of protocols that run underneath it over shared tables, Redis
streams and counters. This project models these protocols in Dafny and proves what they keep.

Concurrency is modelled as steps: a step is what one request, worker or background task does between two
awaits, any number of them are interleaved in any order, and each may stop anywhere. Databases, Redis, RPC
heads, clocks and the delivery provider are tables, maps and the parameters of steps, and their calls may
fail, or take effect and lose their answer. Code that works in place (repositories, the worker, the pool,
the index, the session store, the circuit breaker, the dead-letter handler) is written as classes and
methods with loops, proved against the same functions the runs are made of.

## Modules

- `Finality`, `Dispatch`: confirmations, payload builders, and the ingest stage that matches endpoints,
  applies policy and gates by depth.
- `Tables`, `Lifecycle`: the nonce and event tables, and the life of a payment over them: facilitator post,
  Goldsky delivery, correlation and promotion, dynamic triggers, poller, reorg, sweeper.
- `LifecycleSafety`, `LifecycleClaims`, `LifecycleStatus`, `LifecycleExpiry`, `LifecycleLost`: what holds in every
  reachable state of it and over every run, and under which exact conditions; `LifecycleAnnounces`: that each
  step tells what it wrote; `LifecycleGaps`: concrete runs for what does not hold.
- `FinalityPoller`, `FinalityDrain`: one poll cycle, and how many of them settle every final row.
- `StreamWorker`, `StreamRuns`, `RetryBound`: the consumer group, its acknowledgements and its retries.
- `WorkerPool`, `EventBus`, `TriggerIndex`: who consumes which stream, where a log goes, which trigger it meets.
- `Session`, `SessionRuns`, `PaymentLock`, `Circuit`: metered calls.
- `SignatureHeader`, `IdempotencyKey`, `Pagination`, `DlqResend`: algorithms with a simple specification.
- `Wrappers`, `Seqs`, `Text`, `Arith`: helpers. `Text` follows Python's `int`, `strip` and `split`.

## What the code does not do

Where the code falls short of what one would expect, or of its own documentation, the model follows the code,
shows an input, and proves when the property does hold.

- `payment.finalized` looks at the chain default only. A safe payload respects the endpoint's own depth in all
  runs if and only if that depth is at most the chain default (`LifecycleGaps.OwnDepthRespectedIff`); every other
  type respects it always (`LifecycleSafety.SafeToExecuteIsBuried`).
- The poller's payload carries the depth stored before its own update, so one payload can say safe and not
  final at once: exactly when the stored depth was below the endpoint's
  (`LifecycleGaps.FinalizedContradictsItselfIff`).
- A delivery that arrives after the facilitator's claim and before its row is stored is dropped, and the paid
  row may later expire as failed (`LifecycleGaps.PaidYetFailed`); promotion lands if and only if the row is
  stored by then (`LifecycleGaps.PromotionLandsIff`).
- Expiry is unconditional. A promotion between the sweeper's read and its write is overwritten: the payment is
  on chain, its row is failed, and the poller never sees it again (`LifecycleGaps.ExpiryOverwritesPromotion`). In
  every run that happens exactly when the row's status at the write is neither pre-confirmed nor failed
  (`LifecycleExpiry.ExpiryOverwritesIff`), and it cannot happen next if and only if no promotion lands under a
  sweeper (`LifecycleExpiry.CalmSweepIff`).
- Promotion is unconditional. One that moves a row to a later block than a poller's snapshot shows can leave it
  finalized without the confirmations of its chain, whatever the later block
  (`LifecycleGaps.FinalizedRowNotBuried`). If no promotion moves a row past a poll that may finalize it, to a block
  not buried yet, finalized means buried (`LifecycleStatus.SafeStatusIsBuried`), and each promotion keeps to that
  if and only if no poller alone can then finalize a row too early (`LifecycleStatus.CalmIff`).
- Goldsky claims carry no event id. A reorg frees an authorization if and only if its nonce carries the reorged
  row's event id (`LifecycleClaims.ReorgFreesIff`), so theirs stay held for ever
  (`LifecycleClaims.AnonymousClaimIsForever`): the payment is reorged and never recorded again
  (`LifecycleGaps.ReorgedForGood`).
- A Goldsky delivery that stops after its claim, as a worker's timeout makes it, loses the payment: each redelivery
  is answered duplicate and counts as processed, and no run ever records it (`LifecycleLost.StoppedClaimIsLost`).
  So does a fast-path post that stops after its claim, or whose insert raises, which is only logged
  (`LifecycleLost.PostedClaimIsLost`). In every reachable state a payment without a row can still be recorded if
  and only if its nonce is free or a task that has claimed it has yet to insert (`LifecycleLost.RecordableIff`).
- The poller takes a leader lock by two remote calls that migration 028 drops. With that migration applied the call
  raises, and every cycle ends there (tripwire/ingestion/finality_poller.py:179-190): no row is advanced, no reorg
  is detected. The model describes the cycle behind the lock.
- The circuit breaker's comment promises one probe in the half-open state. It lets every request through
  (`Circuit.ManyProbes`), and its three states amount to one formula over the history (`Circuit.AdmittedIff`).
- A refund after a session is closed recreates a hash with nothing but the refund in it
  (`SessionRuns.RefundAfterClose`, `SessionRuns.BudgetLostByClose`). What a run loses is exactly what closes and
  expiries found in the hash, so the budget is conserved if and only if each of them found a zero balance
  (`SessionRuns.BudgetConservedIff`).
- A delivery without a local record is resent on every poll, for ever (`DlqResend.NoBoundWithoutRecord`). The
  table stores provider event ids (tripwire/api/routes/deliveries.py:264-266), while the handler looks up
  delivery ids.
- A page boundary between rows of equal creation time loses rows (`Pagination.WalkShows`).
- With fewer than five workers, discovery marks streams as known that no worker consumes; with five or more it
  never does (`WorkerPool.AlwaysOwnedIff`).

The text of an idempotency key is ambiguous where colons stand in one transaction hash and in the other endpoint
id (`IdempotencyKey.ColonsCollide`). Transaction hashes are hexadecimal and endpoint ids are generated, so this is
a limit of the lemma beside it and not an input the program receives.

## Model

| member | source | states |
|---|---|---|
| LifecycleSafety.SafeToExecuteIsBuried | tripwire/types/models.py:213-271 | In every run of every dispatch path (fast path, ingest, promotion, poller, sweeper, reorg, dynamic trigger, notify), a payload marked safe has an observed head past its block by the endpoint's effective depth, or by the chain default if it is `payment.finalized` |
| LifecycleSafety.SafeToExecuteMinimum | tripwire/ingestion/processor.py:393-406 | The bound common to all payloads: min(chain default, endpoint's depth), and never less than one confirmation |
| LifecycleSafety.PendingDepthIsReal | tripwire/ingestion/finality_poller.py:481-500 | A pending row's stored depth, if not 0, is the distance of an observed head from its own block |
| LifecycleSafety.EmissionJustified | tripwire/ingestion/handlers/trigger.py:617-650 | Whatever a task may emit from a safe state, through either channel, is justified by an observed head |
| LifecycleSafety.StepSafe | tripwire/ingestion/finality_poller.py:362-390 | Every step of every task keeps the rows, snapshots, checks and payloads justified |
| LifecycleClaims.OneClaimPerEpoch | tripwire/db/migrations/020_unified_event_lifecycle.sql:27-62 | Claims answered new are exactly the invalidations of that authorization, plus one while it is held |
| LifecycleClaims.RowsPerEpoch | tripwire/ingestion/processor.py:220-273 | An authorization has at most one event row per reorg epoch |
| LifecycleClaims.CorrelationUpdatesOwnRow | tripwire/ingestion/handlers/trigger.py:433-462 | A Goldsky delivery that met a facilitator claim inserts nothing, and the row it promotes belongs to the authorization it delivers |
| LifecycleClaims.AnonymousClaimIsForever | tripwire/db/repositories/nonces.py:110-127 | A claim without an event id stays held in every continuation of every run, and no later claim is answered new |
| LifecycleClaims.ReorgFreesIff | tripwire/ingestion/finality_poller.py:537-562 | Invalidation after a reorg frees a held authorization if and only if it is the reorged row's and its nonce carries the row's event id; no other authorization is freed |
| LifecycleLost.RecordableIff | tripwire/ingestion/handlers/trigger.py:433-462 | In every reachable state a payment without a row can be recorded by some continuation if and only if its nonce is free or some task that may insert for it is left |
| LifecycleLost.DeadForever | tripwire/db/migrations/020_unified_event_lifecycle.sql:27-62 | A nonce held by either path, without a row and without a task that may insert, keeps its claim in every continuation and never gets a row |
| LifecycleLost.AbandonedForever | tripwire/db/repositories/nonces.py:110-127 | A nonce held without an event id and with no task left that may insert, with rows or without: in no continuation does its authorization get another row |
| LifecycleLost.StoppedClaimIsLost | tripwire/ingestion/trigger_worker.py:286-302 | The state after a delivery that stopped behind its claim is reachable; every run from it answers redeliveries duplicate and records no row for the payment |
| LifecycleLost.PostedClaimIsLost | tripwire/ingestion/processor.py:936-946 | The states after a fast-path post that stopped behind its claim, and after one whose insert raised, are reachable; in every run from them later claims are answered with the event id, and no row is ever stored |
| LifecycleLost.StepLost | tripwire/ingestion/handlers/trigger.py:433-462 | No step of any task inserts for a held authorization that none works on, or makes a task that may |
| LifecycleStatus.SafeStatusIsBuried | tripwire/types/models.py:274-300 | In runs where no promotion moves a row past a poll that may finalize it, to a block not buried yet, a row the API calls safe has the chain default of confirmations behind it |
| LifecycleStatus.CalmIff | tripwire/ingestion/finality_poller.py:362-390 | After such a run the next event keeps to it if and only if afterwards no poller alone, asking for a head and writing its row, brings about a safe row that is not buried |
| LifecycleGaps.FinalizedIgnoresOwnDepth | tripwire/ingestion/processor.py:393-406 | A reachable safe payload whose endpoint asked for more confirmations than any observed head gives |
| LifecycleGaps.OwnDepthRespectedIff | tripwire/ingestion/processor.py:393-406 | Every safe payload for an endpoint has the endpoint's own depth behind it, in all runs, if and only if that depth is at most the chain default |
| LifecycleGaps.PromotionLandsIff | tripwire/ingestion/processor.py:350-391 | Promotion leaves the row confirmed at the delivered block if and only if the row is stored by then |
| LifecycleGaps.PaidYetFailed | tripwire/ingestion/ttl_sweeper.py:177-211 | A reachable state in which a payment was delivered and dropped, and its row failed by expiry |
| LifecycleGaps.ExpiryOverwritesPromotion | tripwire/ingestion/ttl_sweeper.py:177-194 | A reachable state in which a promoted payment's row is failed at its real block, out of the poller's sight |
| LifecycleGaps.ReorgedForGood | tripwire/db/repositories/nonces.py:110-127 | A reachable state in which a Goldsky payment's row is reorged and its nonce abandoned |
| LifecycleExpiry.ExpiryOverwritesIff | tripwire/ingestion/ttl_sweeper.py:177-194 | In every run an expiry meets a stored row, and overwrites a promotion of that run exactly when the status at the write is neither pre-confirmed nor failed |
| LifecycleExpiry.CalmExpirySpares | tripwire/ingestion/ttl_sweeper.py:152-194 | If no promotion lands on a row a sweeper has read, every expiry meets a row that is waiting or failed and was never promoted |
| LifecycleExpiry.CalmSweepIff | tripwire/db/repositories/events.py:235-275 | After a calm run the next event is calm if and only if no expiry that could follow it fails a promoted row |
| LifecycleExpiry.StepMarks | tripwire/ingestion/ttl_sweeper.py:103-194 | Every step keeps: a promoted row never waits again, and an unpromoted row under a sweeper is waiting or failed and under no poller |
| LifecycleGaps.FinalizedContradictsItselfIff | tripwire/ingestion/finality_poller.py:481-500 | The poller's finalized payload is safe and not final exactly when the stored depth was below the endpoint's |
| LifecycleGaps.FinalizedContradictsItself | tripwire/ingestion/finality_poller.py:406-500 | Such a payload is reachable: right after a promotion |
| LifecycleGaps.FinalizedRowNotBuried | tripwire/db/repositories/events.py:235-275 | For every promotion to a later block, a reachable row that is finalized and safe by its status without the chain default of confirmations |
| Finality.WebhookSafeIff | tripwire/types/models.py:235-271 | When exactly a webhook payload tells its consumer to act |
| Finality.WebhookTells | tripwire/types/models.py:213-271 | State, flag, trust, type and finality block of every webhook payload: reorged exactly for reorged and failed, provisional and of the facilitator exactly for pre-confirmed, finalized exactly if safe; the confirmations given, against the endpoint's own depth or the chain's |
| Finality.NotifyTells | tripwire/notify/realtime.py:102-165 | The same for realtime payloads, without the endpoint's depth, and when exactly they say safe |
| Finality.TriggerTells | tripwire/ingestion/handlers/trigger.py:617-650 | The same for the hand-built payload of a dynamic trigger |
| Finality.CheckCounts | tripwire/ingestion/finality.py:63-109 | Confirmations are the blocks past the event, never below none, against the depth asked for or 12, 3 and 1 |
| LifecycleAnnounces.PayloadAgreesWithStatus | tripwire/types/models.py:274-300 | What a payload tells equals what the API derives from the status written with it: always for pre-confirmed, reorged, failed and finalized rows, for confirmed and pending ones exactly if it does not say safe |
| LifecycleAnnounces.ReorgAndExpiryAgree | tripwire/ingestion/finality_poller.py:537-612 | Right after a reorg or an expiry every payload its task may send tells reorged, not safe, on chain, as the API does of the row |
| LifecycleAnnounces.PollSays | tripwire/ingestion/finality_poller.py:406-500 | The poller announces confirmed exactly if it wrote confirmed, finalized exactly if it wrote finalized, of its snapshot's transfer and stored depth |
| LifecycleAnnounces.ReorgSays | tripwire/ingestion/finality_poller.py:537-612 | The row is reorged before and after the nonce is freed, and the reorg is announced without finality |
| LifecycleAnnounces.ExpirySays | tripwire/ingestion/ttl_sweeper.py:177-211 | The row is failed and payment.failed announced of the snapshot's transfer |
| LifecycleAnnounces.PromotionSays | tripwire/ingestion/processor.py:393-406 | After promotion, finalized is announced exactly if the head is deep enough by the chain default |
| LifecycleAnnounces.PromotionWrites | tripwire/db/repositories/events.py:235-275 | Promotion confirms the row at the delivered block and keeps authorization, recipient and depth |
| LifecycleAnnounces.IngestSays | tripwire/ingestion/processor.py:881-946 | An ingested row is confirmed with payment.confirmed and pending with payment.pending, as its finality says |
| LifecycleAnnounces.PostSays | tripwire/ingestion/processor.py:198-273 | The fast path stores a pre-confirmed row under its claimed id and announces it without finality |
| LifecycleAnnounces.TriggerSays | tripwire/ingestion/handlers/trigger.py:740-770 | A dynamic trigger's row is finalized exactly if its payload says safe |
| LifecycleAnnounces.DeliveryClaims | tripwire/db/migrations/020_unified_event_lifecycle.sql:27-62 | A delivery takes a free nonce without an id, correlates with a facilitator's, and drops any other |
| LifecycleAnnounces.DeliveryChecks | tripwire/ingestion/finality.py:63-109 | What a delivery learns at a head, and that without a block or a head it learns nothing |
| LifecycleAnnounces.PostClaims | tripwire/ingestion/processor.py:220-273 | A post takes a free nonce with its event id, and ends at a held one |
| LifecycleAnnounces.TriggerClaims | tripwire/db/repositories/nonces.py:20-47 | A dynamic trigger takes a free nonce without an id, and drops a held one |
| LifecycleAnnounces.EmitsIff | tripwire/ingestion/processor.py:647-672 | Whom each kind of task may tell, by the endpoint's own fields |
| Dispatch.IngestExact | tripwire/ingestion/processor.py:647-698 | On the ingest path, without an override type, safe holds exactly when finality is known and confirmations reach the endpoint's depth; whoever is reached is in execute mode, allowed, and deep enough |
| Dispatch.PassesAgree | tripwire/ingestion/processor.py:565-698 | Filtering pass by pass reaches the same endpoints in the same order as one test |
| Dispatch.DispatchForTransfer | tripwire/ingestion/processor.py:565-797 | Whom one transfer reaches, by the endpoints' own fields: each endpoint of its recipient up to case, on its chain and active, is linked exactly as often as it was fetched, gets a webhook so if it is in execute mode, allowed, deep enough and has a project, and a notice so if it is in notify mode and subscribed; nobody else; with which type and row |
| Dispatch.RunStages | tripwire/ingestion/processor.py:565-797 | The stages in order, on each of the four branches, with the insert, the link or the notification raising |
| Dispatch.MatchEndpoints | tripwire/webhook/dispatcher.py:104-124 | The in-order selection of the endpoints that are active, list the chain and have the transfer's recipient up to case, each as often as it is listed |
| Dispatch.DispatchEvent | tripwire/webhook/dispatcher.py:184-262 | One payload with the endpoint's own depth for each endpoint that has a project, in order, and the message ids of the sends that went through; a failed send stops no other |
| Dispatch.MessageIdsMember | tripwire/webhook/dispatcher.py:230-262 | A message id is returned exactly if some endpoint with a project got it as its answer |
| Dispatch.RowAgreesWithPayload | tripwire/ingestion/processor.py:881-946 | The recorded row is confirmed exactly when a consumer at the chain default is told to act |
| Dispatch.GateByDepth | tripwire/ingestion/processor.py:647-672 | The in-order selection of endpoints that ask for no more confirmations than there are, by their own depth or the chain's |
| Tables.NonceRepository.RecordNonceOrCorrelate | tripwire/db/repositories/nonces.py:49-108 | Insert if absent, reclaim if reorged, otherwise who holds it; the whole new table |
| Tables.NonceRepository.RecordNonce | tripwire/db/migrations/018_nonce_reorg_support.sql:17-43 | The plain claim: same answer, no event id, source kept on a reclaim |
| Tables.NonceRepository.InvalidateByEventId | tripwire/db/repositories/nonces.py:110-127 | Marks reorged exactly the nonces that carry the event id, and changes nothing else |
| Tables.ReorgIff | tripwire/ingestion/finality_poller.py:289-300 | A reorg is two known block hashes that differ by more than case |
| Tables.KeyIff | tripwire/db/repositories/nonces.py:49-108 | Two transfers are one authorization exactly with the same chain, nonce and, up to case, authorizer |
| Tables.RowKeepsTransfer | tripwire/ingestion/finality_poller.py:614-637 | What is rebuilt from a stored row is the transfer it was stored for |
| Tables.EventRepository.Insert | tripwire/db/repositories/events.py:30-40 | Stores a row under an id not in use, and refuses a used one |
| Tables.EventRepository.UpdateStatus | tripwire/db/repositories/events.py:201-223 | Changes one row's status, whatever it was, and nothing else |
| Tables.EventRepository.UpdateFinality | tripwire/db/repositories/events.py:225-233 | Changes one row's depth and nothing else |
| Tables.EventRepository.PromoteToConfirmed | tripwire/db/repositories/events.py:235-275 | Copies the on-chain columns, keeps the authorization and the depth |
| FinalityPoller.Poller.PollChain | tripwire/ingestion/finality_poller.py:289-312 | One cycle over its snapshot, with any update of any row raising: the new events table, the freed nonces, and the payloads built for the linked endpoints, in order; no other row changes |
| FinalityPoller.Poller.ProcessEvent | tripwire/ingestion/finality_poller.py:345-404 | The new row of one event and its payloads: depth, and one step of status if final, each unless its update raises |
| FinalityPoller.Poller.HandleReorg | tripwire/ingestion/finality_poller.py:537-612 | Row reorged, exactly its nonces freed, and payment.reorged for the endpoints that could be looked up; nothing at all if the status update raises, no nonce if the invalidation does |
| FinalityPoller.Poller.TransitionEvent | tripwire/ingestion/finality_poller.py:406-535 | The status is written and the endpoints that could be looked up are told, with the depth stored before; or neither, if the update raises |
| FinalityPoller.ToldIffMoved | tripwire/ingestion/finality_poller.py:406-535 | A payload is built for an endpoint exactly when the turn changed the row's status and the endpoint is linked, could be looked up and has a project |
| FinalityPoller.CycleTells | tripwire/ingestion/finality_poller.py:289-312 | The payloads of a cycle are those of its rows, no more and no less |
| FinalityPoller.CycleSaysTheTruth | tripwire/ingestion/finality_poller.py:362-390 | Every payload of a cycle is about a fetched row whose status the cycle changed: confirmed, finalized or reorged as the row now is, with the row's own transfer and the depth stored before, to an endpoint looked up for it |
| FinalityPoller.StatusWritten | tripwire/ingestion/finality_poller.py:345-404 | The status a turn leaves, by the canonical hash, the head and the updates that raise |
| FinalityPoller.DepthWritten | tripwire/ingestion/finality_poller.py:345-404 | The depth a turn leaves, and that it changes no other column |
| FinalityPoller.FinalMeans | tripwire/ingestion/finality_poller.py:639-660 | Which rows count as final: open on the chain, in a real block, buried by the chain's depth |
| FinalityPoller.CycleFreesIff | tripwire/ingestion/finality_poller.py:537-562 | A cycle frees exactly the nonces that carry the id of a fetched row whose block was replaced |
| FinalityPoller.FinalFirst | tripwire/ingestion/finality_poller.py:639-660 | Oldest block first means that the 100 rows fetched hold every final row, or only final rows |
| FinalityPoller.PollAdvancesExactly | tripwire/ingestion/finality_poller.py:345-390 | With canonical hashes a poll reaches exactly min(100, final open rows) final rows and moves, by one step, exactly those whose updates succeed |
| FinalityDrain.PollWorks | tripwire/ingestion/finality_poller.py:289-302 | The work left (2 per final pending row, 1 per final confirmed one) falls by at least the rows reached |
| FinalityDrain.Drained | tripwire/ingestion/finality_poller.py:234-302 | All rows final at a head are settled once floor(W / 100) + 2 cycles without a failing update have gone by, at that head or later ones, with reorgs, with any failing cycles in between, and while the rest of the system writes rows that do not become final at that head |
| FinalityDrain.SettledDespiteArrivals | tripwire/ingestion/finality_poller.py:639-660 | Whatever arrives in between, also rows already final and at lower blocks, each row final at the start is settled within floor((W + A) / 100) + 2 cycles without a failing update, A being the steps the arrivals bring |
| FinalityDrain.CrowdedBound | tripwire/ingestion/finality_poller.py:639-660 | At most (W + A) / 100 clean cycles can find more than 100 final rows |
| FinalityDrain.ShallowWritesDrift | tripwire/ingestion/finality_poller.py:639-660 | Writes between cycles that leave a row closed or not yet final at the head are among those allowed |
| StreamRuns.NoSilentLoss | tripwire/ingestion/trigger_worker.py:246-349 | In every run with reads, stale claims, lost replies, timeouts, partial batch acks, crashes and restarts, a published message is in exactly one place, and an acknowledged one was processed to normal return, dead-lettered, or undecodable and neither |
| StreamRuns.StepInv | tripwire/ingestion/event_bus.py:264-278 | Every step keeps the accounting, also the acknowledgement of an undecodable entry whose answer is lost |
| StreamRuns.DeliverInv | tripwire/ingestion/event_bus.py:316-381 | Reading and claiming move messages between owners without losing one |
| StreamWorker.TriggerWorker.ProcessBatch | tripwire/ingestion/trigger_worker.py:286-343 | The loop's failure counts and totals, and that a message is in its acknowledgements if and only if some turn of it succeeded, or failed as at least its fifth failure with a dead-letter write that worked |
| StreamWorker.TriggerWorker.Account | tripwire/ingestion/trigger_worker.py:288-340 | One outcome: acknowledged exactly on success or at the fifth failure or later with a working dead-letter write, and then no counter is left; else one failure more with its time |
| StreamWorker.TriggerWorker.CleanupFailureCounts | tripwire/ingestion/trigger_worker.py:357-365 | Keeps exactly the counters at most 300 seconds old |
| StreamWorker.GroupedExactly | tripwire/ingestion/event_bus.py:298-309 | Grouping acknowledgements by stream neither loses nor invents one |
| StreamWorker.AckedForCause | tripwire/ingestion/trigger_worker.py:286-343 | A message in the acknowledgements succeeded, or was dead-lettered, at its own turn |
| StreamWorker.AckedIff | tripwire/ingestion/trigger_worker.py:286-343 | The acknowledgements of a batch, both ways, by outcomes and counters |
| StreamWorker.CountLaw | tripwire/ingestion/trigger_worker.py:300-342 | How one turn moves the counters, and that it moves no other message's |
| StreamRuns.FinishedIsAcked | tripwire/ingestion/event_bus.py:298-309 | In every run, once a worker's inbox is empty and its acknowledgements take effect in full, every message it finished in that iteration is acknowledged and pending no longer |
| StreamRuns.ReplyReachesInbox | tripwire/ingestion/event_bus.py:262-284 | A reply reaches the inbox entry by entry, in order, without its undecodable entries |
| StreamRuns.HistoryLaw | tripwire/ingestion/trigger_worker.py:286-343 | Which step processes a message, and which dead-letters it |
| StreamRuns.LostReply | tripwire/ingestion/trigger_worker.py:252-272 | A reply whose fetch raises is dropped whole, and its messages stay pending |
| StreamRuns.DeliversTo | tripwire/ingestion/event_bus.py:208-270 | Reading and claiming make exactly the named messages the worker's |
| RetryBound.FailuresBounded | tripwire/ingestion/trigger_worker.py:302-342 | Without success, dead-letter attempt, counter cleanup or a new process, at most workers * 4 attempts fail, across crashes and restarts; after that many, any failure tries the dead-letter stream |
| RetryBound.BoundIsReached | tripwire/ingestion/trigger_worker.py:528-537 | The bound is tight: some run fails exactly workers * 4 times |
| RetryBound.Pigeonhole | tripwire/ingestion/trigger_worker.py:302-342 | Counters below 5 sum to at most workers * 4, and to that only if each is 4 |
| WorkerPool.Reachable | tripwire/ingestion/trigger_worker.py:542-557 | After any start and any discoveries no stream is assigned twice, list lengths differ by at most one, owned streams are known, at most 500 are known, and how many are owned |
| WorkerPool.EveryStreamOwnedIff | tripwire/ingestion/trigger_worker.py:611-641 | Every known stream has an owner if and only if the known ones fit what the start assigned or the workers hold; always if workers * 100 >= 500 |
| WorkerPool.AlwaysOwnedIff | tripwire/ingestion/trigger_worker.py:542-557 | Every known stream has an owner after all starts and discoveries if and only if workers * 100 >= 500 |
| WorkerPool.OneRoundOwnedIff | tripwire/ingestion/trigger_worker.py:611-641 | One round that finds n streams leaves one unowned exactly when min(500, n + 1) exceeds what the workers hold |
| WorkerPool.OnePlace | tripwire/ingestion/trigger_worker.py:455-471 | Exclusive ownership said of positions: a stream never stands at two places |
| WorkerPool.RoundRobinDeals | tripwire/ingestion/trigger_worker.py:457-460 | Round-robin gives the first lists one stream more, the others the quotient |
| WorkerPool.RoundRobinPlaces | tripwire/ingestion/trigger_worker.py:457-460 | The i-th stream stands at place i / workers of worker i % workers |
| WorkerPool.CappedLaw | tripwire/ingestion/trigger_worker.py:437-453 | The start takes the first 500 streams found, or the default one |
| WorkerPool.KnownExactly | tripwire/ingestion/trigger_worker.py:542-557 | Which arrivals are known after a discovery |
| WorkerPool.FullIff | tripwire/ingestion/trigger_worker.py:627-639 | In balanced lists the least loaded worker is full exactly when all are |
| WorkerPool.TriggerWorkerPool.constructor | tripwire/ingestion/trigger_worker.py:424-471 | Default stream, cap and round-robin of the start |
| WorkerPool.TriggerWorkerPool.AddStream | tripwire/ingestion/trigger_worker.py:611-641 | The first least loaded worker gets the stream, unless it holds 100 |
| WorkerPool.TriggerWorkerPool.DiscoverStreams | tripwire/ingestion/trigger_worker.py:542-557 | New streams in order until 500 are known; a refused stream becomes known too |
| EventBus.RoutingStable | tripwire/ingestion/event_bus.py:63-85 | Logs of a run whose first topics agree up to case go to one stream, their own or `unknown`; to their own exactly if the run came to know it |
| EventBus.KnownGrows | tripwire/ingestion/event_bus.py:73-85 | Known streams only grow, and never pass max(500, their first number) |
| EventBus.OwnStreamIff | tripwire/ingestion/event_bus.py:63-70 | A log has its own stream exactly if its first topic is 0x and 64 hexadecimal digits in any case; every other log goes to `unknown` |
| EventBus.StreamsDistinct | tripwire/ingestion/event_bus.py:63-70 | Such topics share a stream only if they agree up to case |
| EventBus.TopicsMember | tripwire/ingestion/decoder.py:151-162 | The topics of a raw log in each of its formats |
| EventBus.CapLaw | tripwire/ingestion/event_bus.py:73-85 | Which keys keep their stream, and which are known afterwards |
| EventBus.Publisher.CheckStreamCap | tripwire/ingestion/event_bus.py:73-85 | The stream of one log and the new set of known streams |
| EventBus.Publisher.RouteBatch | tripwire/ingestion/event_bus.py:121-146 | The streams of a batch, in order |
| TriggerIndex.LookupIsScan | tripwire/ingestion/trigger_worker.py:79-104 | A lookup is the in-order selection, by lower-case key, of the whole list; keys without a trigger are absent |
| TriggerIndex.Registry.Refresh | tripwire/ingestion/trigger_worker.py:69-86 | The index becomes that of the queried list; a failed query keeps the old one |
| TriggerIndex.Registry.Match | tripwire/ingestion/trigger_worker.py:102-104 | The in-order selection from the active list |
| TriggerIndex.Registry.DetectEventType | tripwire/ingestion/processor.py:277-316 | Detection through the index gives what one scan of all active triggers gives: by topic, chains and contract of each, as often as it is active |
| SessionRuns.BudgetConserved | tripwire/session/manager.py:33-59 | Under any interleaving of calls, close and key expiry: what remains, what is paid and what closes and expiries discarded add up to the budget; 0 <= remaining <= total while the hash exists, paid charges never pass the budget, and no tool runs on a charge against a bare hash |
| SessionRuns.BudgetConservedIff | tripwire/session/manager.py:256-280 | What remains and what is paid is the whole budget in exactly those runs in which every close and expiry found a zero balance |
| SessionRuns.AccountsBalance | tripwire/session/manager.py:241-280 | The account of every run from every state, closed or not |
| SessionRuns.StepInv | tripwire/session/manager.py:201-254 | Every step of every call keeps the books |
| SessionRuns.RefundedAtMostOnce | tripwire/mcp/server.py:765-891 | A call is charged at most once, and refunded at most once and only after its charge |
| SessionRuns.Branches | tripwire/mcp/server.py:786-891 | A call is served exactly if its tool returned, after a passed gate; repaid exactly if a refund was applied, after a failed gate or a raising tool |
| SessionRuns.ExpiredNeverRuns | tripwire/session/manager.py:43-47 | A call charged after its complete session expired is turned, costs nothing, and in no continuation runs its tool |
| SessionRuns.ChargeLaw | tripwire/session/manager.py:33-59 | When a charge is turned away, by the hash, and that it otherwise pays its own price and nothing else |
| SessionRuns.PathLaw | tripwire/mcp/server.py:786-870 | Which step admits, runs or refunds |
| SessionRuns.EndLaw | tripwire/session/manager.py:256-280 | What a close and a stopped request do |
| SessionRuns.NoServiceAfterClose | tripwire/mcp/auth.py:207-219 | Once the session is gone, no call that was not admitted before ever runs its tool |
| SessionRuns.RefundAfterClose | tripwire/session/manager.py:241-280 | From any state with a refund to come, a close first leaves a bare hash with the refund, and the remainder is gone |
| SessionRuns.BudgetLostByClose | tripwire/session/manager.py:241-280 | Such a run from a new session, for every budget and price |
| Session.EffectiveBudget | tripwire/session/manager.py:124-130 | The clamped budget is at least 1, at most the maximum, and the asked one when that is in range |
| Session.EffectiveTtl | tripwire/session/manager.py:131-137 | The clamped lifetime is at least a minute, at most the maximum, and the asked one when that is in range |
| Session.SessionManager.Create | tripwire/session/manager.py:94-163 | A complete session with its whole clamped budget remaining, expiring after its clamped lifetime |
| Session.SessionManager.ValidateAndDecrement | tripwire/session/manager.py:33-59 | Not found exactly without a hash, expired exactly if a complete one is past its time, insufficient exactly if neither and less remains than the cost; else only the balance falls, by the cost; a bare hash is charged and then cannot be read |
| Session.SessionManager.Refund | tripwire/session/manager.py:241-254 | Adds the amount, creating a bare hash if there is none |
| Session.SessionManager.Close | tripwire/session/manager.py:256-280 | Removes a complete session only |
| Session.SessionManager.HandleToolCall | tripwire/mcp/server.py:744-891 | One call alone: served exactly if the session is complete, unexpired and sufficient, the gates pass and the tool returns; denied for the three reasons exactly; else the store is unchanged unless the refund is lost |
| PaymentLock.LockHolds | tripwire/mcp/auth.py:344-360 | In every run two calls on one proof and tool are never both between claim and release, nor both settled; a result without an error belongs to a call that settled |
| PaymentLock.GrantedIff | tripwire/mcp/auth.py:344-360 | A claim is granted exactly when no call on the same proof and tool is under way, settled or stuck |
| PaymentLock.ReleasesOwnClaim | tripwire/mcp/auth.py:385-430 | A release removes the claim of its own call and of no other |
| PaymentLock.Branches | tripwire/mcp/auth.py:598-661 | Settled exactly if the settlement went through, after a passed gate and a result without error; released only after one of the failures |
| PaymentLock.PathLaw | tripwire/mcp/auth.py:598-661 | Which ending each step leads to: the branches that let the payer retry release the claim, the others leave it |
| PaymentLock.VerifiedFirst | tripwire/mcp/auth.py:580-598 | Only a verified proof is ever claimed, only an answered claim gets to the gates; released exactly if a release took effect |
| PaymentLock.InvalidIsRefused | tripwire/mcp/auth.py:580-590 | An invalid proof is refused without touching a claim |
| PaymentLock.RefusedStays | tripwire/mcp/auth.py:580-598 | A refused call never goes on |
| PaymentLock.SpentForEver | tripwire/mcp/auth.py:495-522 | A settled or stuck proof stays spent: in every continuation no other call on it gets past its claim |
| PaymentLock.StepInv | tripwire/mcp/auth.py:530-661 | Every step keeps the lock exclusive, backed and paid for |
| PaymentLock.Executor.Execute | tripwire/mcp/auth.py:530-661 | Which reply one call gets, and which claim it leaves behind, on every ending of verification, claim, checks, tool, settlement and release, with lost answers, exceptions and cancellation |
| Circuit.AdmittedIff | tripwire/webhook/convoy_client.py:35-90 | Over any run with a clock that does not go back, a request is admitted exactly when fewer than five failures were recorded since the last success, or the latest failure is more than 30 seconds past |
| Circuit.ManyProbes | tripwire/webhook/convoy_client.py:50-60 | After five failures nothing is admitted for 30 seconds, and from then on any number of requests without an answer between them |
| Circuit.StateOf | tripwire/webhook/convoy_client.py:63-81 | The count is the failures since the last success, closed exactly below five, half-open exactly after a probe |
| Circuit.ConvoyCircuit.CheckCircuit | tripwire/webhook/convoy_client.py:44-60 | Admission and the new state |
| Circuit.ConvoyCircuit.RecordSuccess | tripwire/webhook/convoy_client.py:63-70 | Closed with no failures |
| Circuit.ConvoyCircuit.RecordFailure | tripwire/webhook/convoy_client.py:73-81 | One failure more, its time, open from the fifth on |
| SignatureHeader.RoundTrip | sdk/tripwire_sdk/verify.py:88-127 | Printing and parsing gives back time and signatures if and only if there is a signature and each is non-empty, free of commas and not ending in white space |
| SignatureHeader.VerifiesIff | sdk/tripwire_sdk/verify.py:130-170 | A header with rotated keys verifies exactly within 300 seconds and with this secret's signature among its entries |
| SignatureHeader.SignedVerifies | sdk/tripwire_sdk/verify.py:178-211 | A payload signed at t verifies under its secret exactly while abs(now - t) <= 300, and fails as too old otherwise |
| SignatureHeader.ContentInjective | sdk/tripwire_sdk/verify.py:156-158 | The signed content determines the time and the payload |
| SignatureHeader.ParseSignatureHeader | sdk/tripwire_sdk/verify.py:88-127 | The loop and its three errors, against the scan of the stripped parts |
| SignatureHeader.ParsedLaw | sdk/tripwire_sdk/verify.py:88-127 | Each of the three errors exactly, and of an accepted header the last time and exactly its signatures |
| SignatureHeader.VerifyReasons | sdk/tripwire_sdk/verify.py:130-170 | Each way to fail has its own reason, in the order of the checks |
| SignatureHeader.CompareLaw | sdk/tripwire_sdk/verify.py:160-164 | When the comparison of signatures succeeds, fails or raises |
| SignatureHeader.ScanFailsAt | sdk/tripwire_sdk/verify.py:103-111 | A timestamp that does not parse fails the header, whatever follows |
| IdempotencyKey.RawInjective | tripwire/webhook/dispatcher.py:37-47 | Key texts are equal exactly for the same chain, transaction hash up to case, log index, endpoint and type, if transaction hashes or endpoint ids hold no colon |
| IdempotencyKey.ColonsCollide | tripwire/webhook/dispatcher.py:37-47 | With a colon in one hash and in the other endpoint id, two deliveries collide |
| IdempotencyKey.SameKeyIff | tripwire/webhook/dispatcher.py:64-85 | Two payloads of one endpoint share a key text exactly for one log and one type |
| IdempotencyKey.KeySurvivesPromotion | tripwire/ingestion/finality_poller.py:614-637 | A promoted row is rebuilt to the same key text exactly when it is on the transfer's chain, as a row with the transfer's authorization is |
| Pagination.WalkShows | tripwire/db/repositories/webhooks.py:78-112 | Following cursors shows exactly the selected rows in order if and only if no page boundary splits a creation time; a complete walk has max(1, ceil(n / limit)) pages |
| Pagination.DistinctTimesWalk | tripwire/api/routes/deliveries.py:198-212 | With distinct creation times every walk is complete |
| Pagination.NextSelected | tripwire/db/repositories/webhooks.py:96-104 | The cursor's row is found again, and the next page is cut from the selected rows older than it |
| Pagination.ListDeliveries | tripwire/api/routes/deliveries.py:112-151 | The page: rows of the table that are owned, meet each filter given and are older than the cursor's, at most the limit; the last row's id as cursor exactly if there are more, and else all such rows |
| DlqResend.ResendBound | tripwire/webhook/dlq_handler.py:148-198 | Over any number of polls a delivery with a local record is resent at most as often as its count has room, and its count covers the resends and never passes the limit |
| DlqResend.PollCounts | tripwire/db/repositories/webhooks.py:114-136 | Within a poll the count covers the resends, and equals them if no table call raises |
| DlqResend.PollAccount | tripwire/webhook/dlq_handler.py:148-186 | A poll that gets through its list resends a delivery exactly as often as it appears and has room below the limit, dead-letters its other appearances, and counts each resend of a recorded one |
| DlqResend.MarkedIff | tripwire/webhook/dlq_handler.py:206-240 | Which deliveries a poll marks |
| DlqResend.RaisesIff | tripwire/webhook/dlq_handler.py:148-186 | What ends a poll early, what is counted then, and that nothing is resent |
| DlqResend.BlankIgnored | tripwire/webhook/dlq_handler.py:151-156 | Entries without an id are passed over |
| DlqResend.OnlyDeadLettered | tripwire/webhook/dlq_handler.py:167-177 | At the limit a delivery is never resent, and dead-lettered exactly if the poll lists it |
| DlqResend.NoBoundWithoutRecord | tripwire/webhook/dlq_handler.py:159-186 | Without a local record n polls resend n times |
| DlqResend.DLQHandler.ProcessEndpoint | tripwire/webhook/dlq_handler.py:130-204 | Counts, marked records, batch and alerts of one poll; an exception in the loop sends no batch |
| DlqResend.DLQHandler.DeadLetter | tripwire/webhook/dlq_handler.py:206-240 | Marks the local record if there is one and its update succeeds, and only that |

## Left out

- Finality.WebhookSafeIff: follows from the builders by case split alone; it is here because the ingest result uses it.
- Leader election of the poller: with its two calls in place one poller runs at a time; several interleave in the runs instead.
- Poll cycles in `Lifecycle` are as many tasks as rows fetched; the 100-row limit and its order are in `FinalityPoller`.
- FinalityDrain.Drained: an update whose answer is lost although it was applied counts as successful here.
- FinalityPoller.Poller.PollChain: no other task writes the table during a cycle, a payload whose send fails is built all the same, and delivery rows are left out; `Lifecycle` interleaves the cycle's steps with everything else.
- FinalityPoller.Poller.TransitionEvent: which of the built payloads the provider accepts, and the delivery rows.
- FinalityPoller.Poller.HandleReorg: which of the built payloads the provider accepts.
- Tables.EventRepository.UpdateStatus: does not model the confirmed_at column, which nothing here reads.
- Tables.EventRepository.PromoteToConfirmed: does not model the confirmed_at column either.
- Session.SessionManager.Create: the wallet, chain, reputation and class of a session are left out.
- PaymentLock.Executor.Execute: a release whose answer is lost counts as what it did; a request cancelled during a release ends like one that was not.
- DlqResend.DLQHandler.ProcessEndpoint: the text of an alert and whether it arrives.
- Delivery rows and which of them a failed webhook marks: they are matched by list index, so only counts mean something.
- Policies, subscriptions, payment gating, reputation and identity: abstract predicates and verdicts.
- Dynamic triggers beyond their claim, depth gate and payload: filters and decoders are foreign engines.
- Plain transfers without an authorization: decoding refuses an empty authorizer, so every modelled transfer has a key.
- Stream trimming, expiry of payment claims and of idle counters in Redis, archival of nonces and events.
- Restart backoff and shutdown of the pool: when a worker restarts is free in the runs.
- Sorting of discovered streams: the order is a parameter.
- `match_with_cache` of the trigger index: no caller.
- RetryBound.FailuresBounded: a new process forgets all counters, and the cleanup forgets old ones; the bound is for what lies between.
- PaymentLock.LockHolds: the expiry of a claim after 24 hours is left out, and payment proofs stand for their SHA-256 digests.
- SessionRuns.BudgetConserved: prices are smallest units already; the conversion from a price text goes through floating point.
- SignatureHeader.VerifiesIff: HMAC-SHA256 is any function of secret and content, payload bytes are text, and the interpreter's limit on the length of decimal texts is left out.
- IdempotencyKey.RawInjective: about the text before SHA-256; lower-casing is that of ASCII.
- Pagination.WalkShows: the table does not change during a walk, and rows of one creation time keep their order between queries.
- Pagination.ListDeliveries: ownership checks and the enrichment of rows are left out; the wallet's endpoints are a set in the query.
- Circuit.AdmittedIff: only connection errors and timeouts are recorded as failures, as in the code; other errors record nothing.
- Legacy handlers and the synchronous endpoint cache: they repeat the unified path.
