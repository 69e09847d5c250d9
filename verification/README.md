# The trip protocol, verified

Dafny model and proofs for the protocol by which the transport service and the fulfillment service
move shipments onto trips, dispatch them and deliver them, and for the messaging core both rely on.
The two services have separate databases. What ties them is a claim saga, a staged batch dispatch,
a transactional outbox and a canonical payload encoding; almost every guard in the code leans on
something another file keeps. The theorems here say what every interleaving keeps, why certain
`throw` branches cannot be reached, and in what sense the two databases agree.

`dafny verify dfyconfig.toml` checks the whole project.

## Layout

| files | content |
|---|---|
| `CanonicalJson.dfy` | the canonical text of a payload, a parser that undoes it, and the proof that equal text means equal JSON |
| `Outbox.dfy` | outbox rows, concurrent relays, the broker's log; the store and its flush loop as a class |
| `OutboxFeed.dfy` | shipment histories and trip transactions feed the outbox in the order it relies on |
| `Shipment.dfy` | one shipment row: lifecycle table, history, what a change may do |
| `Fulfillment.dfy` | fulfillment's tables and transactions as one step function each |
| `FulfillmentInvariant.dfy`, `FulfillmentRuns.dfy` | the invariant of those tables and the proof that every transaction keeps it |
| `FulfillmentProgress.dfy`, `FulfillmentIntents.dfy`, `ClaimLedger.dfy`, `ClaimVersions.dfy` | what never changes along a run; where intent ids come from; the claim ledger; how old a claim is |
| `FulfillmentOutcomes.dfy` | what each transaction leaves behind, told by the tables alone |
| `DeliveryRace.dfy` | delivery results written after something else was recorded of the shipment, and exactly what they break |
| `FulfillmentService.dfy` | the same transactions as a class that updates its tables, with the source's loops; every method keeps the invariant |
| `Trip.dfy` | one trip's rows and transactions: membership operations, route approval, dispatch, driving |
| `TripInvariant.dfy`, `TripSteps.dfy`, `TripTheorems.dfy` | the invariant of a trip, its preservation, the theorems about one trip |
| `TripOutcomes.dfy`, `TripRequests.dfy` | what each transaction of a trip leaves behind, told by its rows alone; whose requests the rows carry |
| `TripDesk.dfy` | the trip's transactions as a class, with the source's loops; every method keeps the invariant |
| `World.dfy` | both services together: calls whose replies may be lost, crashes, events |
| `WorldInvariant.dfy`, `WorldSteps.dfy`, `WorldCalls.dfy` | what ties the services together, and its preservation |
| `WorldTheorems.dfy`, `WorldDispatch.dfy`, `WorldReleases.dfy`, `WorldDelivery.dfy`, `WorldVersions.dfy`, `WorldTotals.dfy` | the cross-service theorems about claims, dispatch, releases, delivery results, versions and totals |
| `WorldExample.dfy` | one run, step by step, to the states in which a property needs its condition |

## How the system is modelled

- A database transaction is one atomic step, because it locks the shipment or trip row it reads
  before it reads it, or runs under the lease of its operation. A crash may happen between any two
  steps. One tenant is modelled.
- One transaction takes no such lock:
  `apps/fulfillment-service/src/shipments/shipment-delivery-events.service.ts:217-288` reads the
  shipment and later updates it by id. It is two steps here, `DoDeliver` for what it reads and
  files, `DoLand` for the write, or `DoAbandon` if it is rolled back. `DoLand` carries a hypothesis:
  the shipment is still DISPATCHED, so no other result of it was recorded in between. Everything
  said of fulfillment's invariant rests on it: the rows of `FulfillmentRuns`, `FulfillmentProgress`
  and `FulfillmentService` (the chain of histories, absorbing statuses and applied results above
  all) and the cross-service theorems. It is exact: the write keeps the invariant if and only if the
  hypothesis holds of it (`FulfillmentRuns.LandResultIff`), and a run without the hypothesis leaves
  every history unbroken if and only if every write met it (`DeliveryRace.HistoriesIff`).
  `WorldExample.RaceExample` is a reachable state in which it fails.
- A call between the services is applied and answered, or applied with the answer lost, or not
  applied. There are no late copies of old requests. A 4xx answer comes from the handler itself.
- One processor works on an operation at a time (the lease of
  `apps/transport-service/src/trips/trip-membership.service.ts:295-322`). Resumes of a dispatch have no
  lease: any number of them may hold a row's payload at once, and each goes on to call fulfillment
  whatever the row says by then. Only the write that rejects a dispatch carries a hypothesis: the
  stage is still the ACCEPTED it looked at, and no other resume of the row is at work.
  `WorldDispatch.LateRejectIff` drops it.
- Delivery events may say anything. Only the rows of `WorldDelivery` look at runs in which every
  event carries a result that a driver action announced.
- Generated ids are new. Hashes are injective on their canonical input, so a payload is compared
  instead of its hash. A preview token is an unforgeable record of the version it binds. The Order
  authority gives one fixed answer per request id.
- A refused transaction leaves the tables unchanged. Fulfillment's refusals are told apart by error;
  a trip transaction only says whether its guard held.
- Decimal weights and volumes are natural numbers, times are opaque, a stop is known by its shipment
  (`ux_trip_stop_shipment`), and a membership row has left exactly when it is RELEASED.
- Shipment transitions are the four the controllers call. Reads made outside a transaction (route
  input, dispatch selection, the order handler's first look at its cursor) are steps of their own,
  so anything may happen between the read and the transaction that uses it.
- Checks that only rule behaviour out are dropped where no theorem needs them: fulfillment's
  readiness answers to route input and selection, the stored plan a preview names, and the preview's
  own read. The model allows more runs than the code, and the theorems hold for all of them.

Four places where the code does less than its shape suggests, each with its exact condition:

- The handler for an invalid claim snapshot sits inside the inner `try` of `process`, but the error is
  thrown by the call outside it, so the operation is compensated without the receipt. The model has
  this as a step of its own. A released row's shipment is still claimed if and only if that step was
  taken on its grant (`WorldTheorems.LeakIff`, `WorldTheorems.LeaksAreDrops`), and then it stays
  claimed for good (`WorldTheorems.LeakStays`).
- A REMOVE, a CANCEL or the compensation of an ADD can stay pending for good. Its release is accepted
  if and only if it comes from the claiming actor and the shipment is still at the version it names
  (`WorldReleases.ReleaseAcceptedIff`), which is to say that the shipment was not canceled meanwhile
  (`WorldVersions.ReleaseWhen`). A compensation always asks in the claiming actor's name
  (`WorldVersions.CompensationAccepted`). A release that is not acceptable is never applied along any
  run and the trip stays locked (`WorldReleases.ReleaseStuck`), together with every row behind it
  (`WorldReleases.BehindStuck`). No general liveness is claimed.
- The write that rejects a dispatch looks neither at its stage nor at other resumes again. It is
  harmless along every run if and only if fulfillment has rejected the batch or holds the authority's
  refusal, or does not know the batch and either no other resume holds the payload or fulfillment
  cannot dispatch it (`WorldDispatch.LateRejectIff`). A stage that is still ACCEPTED guarantees that
  only while no other resume holds the payload (`WorldDispatch.AcceptedHarmless`,
  `WorldExample.OverlapExample`).
- A delivery result is written without looking at the shipment again. A history stays unbroken, and
  an absorbing status is not left, if and only if between read and write nothing but refused
  cancellations was recorded of the shipment (`DeliveryRace.HistoriesIff`, `DeliveryRace.RaceMeans`).

## Model

| member | source | states |
|---|---|---|
| `CanonicalJson.EncodeParses` | libs/messaging/src/interfaces/transport-hash.ts:12-33 | a parser written independently of the encoder reads every accepted value's text back wherever a value may stand |
| `CanonicalJson.RoundTrip` | libs/messaging/src/interfaces/transport-hash.ts:12-33 | parsing the canonical text of an accepted payload gives its meaning with nothing left over |
| `CanonicalJson.CanonicalIff` | libs/messaging/src/interfaces/transport-hash.ts:12-33 | two accepted payloads have the same text if and only if they are equal as JSON with objects as maps |
| `CanonicalJson.SameMeaningSameText` | libs/messaging/src/interfaces/transport-hash.ts:23-32 | property order never shows in the text |
| `CanonicalJson.SortSorts` | libs/messaging/src/interfaces/transport-hash.ts:27-32 | the properties are kept, and each comes before the next by the first difference of their keys: a proper prefix first, otherwise the smaller UTF-16 code unit |
| `CanonicalJson.SortedUnique` | libs/messaging/src/interfaces/transport-hash.ts:27-32 | there is only one listing of a set of properties in that order |
| `CanonicalJson.BeforeIff` | libs/messaging/src/interfaces/transport-hash.ts:28 | the sort's comparison is the order of the first differing code unit, a prefix first |
| `CanonicalJson.ShortestLiteral` | libs/messaging/src/interfaces/transport-hash.ts:12-15 | of all well-formed texts without bare control characters that spell a string, its literal is the shortest and the only one of its length |
| `CanonicalJson.ShortestNumber` | libs/messaging/src/interfaces/transport-hash.ts:16-21 | of all digit texts that read as a number, its own is the shortest and the only one of its length |
| `CanonicalJson.Vocabulary` | libs/messaging/src/interfaces/transport-hash.ts:12-33 | words and marks are those of JSON |
| `CanonicalJson.AcceptedIff` | libs/messaging/src/interfaces/transport-hash.ts:12-33 | the encoder throws exactly on values outside a separately defined acceptable class |
| `CanonicalJson.TextWellFormed` | libs/messaging/src/interfaces/transport-hash.ts:12-33 | the text never contains an unpaired surrogate |
| `Outbox.StepKeeps` | libs/messaging/src/prisma-outbox.store.ts:66-171 | every append, lock, publication, commit and rollback keeps locks, marks and log order consistent |
| `Outbox.BrokerOrder` | libs/messaging/src/outbox-relay.ts:88-128 | in every run, per aggregate the broker log never goes back in (version, occurredAt, id), and without repeats it is a prefix of the aggregate's events |
| `Outbox.LogIsPrefix` | libs/messaging/src/prisma-outbox.store.ts:66-90 | first appearances on the log are a prefix of the aggregate's events in order |
| `Outbox.OnePerAggregate` | libs/messaging/src/prisma-outbox.store.ts:66-90 | no two events of one aggregate are eligible at once |
| `Outbox.EventsListed` | libs/messaging/src/prisma-outbox.store.ts:66-90 | in every state an aggregate's events have an ordered listing |
| `Outbox.EligibleIff` | libs/messaging/src/prisma-outbox.store.ts:66-90 | a row may be locked if and only if it is unpublished, due, held by no relay, and the first unpublished one of its aggregate by version, time and id |
| `OutboxFeed.CreateAppends` | apps/fulfillment-service/src/shipments/shipment.persistence.ts:19-63 | a new shipment is the first event of its aggregate, and the outbox mirrors its history from then on |
| `OutboxFeed.RecordAppends` | apps/fulfillment-service/src/shipments/shipment.persistence.ts:19-63 | whatever is recorded of a shipment is appended after everything recorded of it before, and the outbox goes on mirroring its history |
| `OutboxFeed.FeedsKept` | libs/messaging/src/prisma-outbox.store.ts:145-171 | relays and other aggregates leave that mirror alone |
| `OutboxFeed.TripAppends` | apps/transport-service/src/driver/driver-trip.service.ts:345-420 | an approval, reopening, dispatch, driver action or finished cancellation is announced after everything announced of the trip before |
| `OutboxFeed.TripStaysAhead` | apps/transport-service/src/routes/route-domain.ts:11-34 | no transaction of a trip leaves an announcement ahead of it |
| `OutboxFeed.TripFeeds` | apps/transport-service/src/routes/route-approval.service.ts:108-166 | along every run of a trip each of its outbox rows meets the ordering condition of the broker theorem |
| `OutboxFeed.BehindKept` | libs/messaging/src/prisma-outbox.store.ts:145-171 | relays and other aggregates keep that |
| `Outbox.RetryDelayBacksOff` | libs/messaging/src/outbox-relay.ts:44-50 | the delay starts at the base, never shrinks, stops at the cap, and settles after the 31st attempt |
| `Outbox.RetryDelayDoubles` | libs/messaging/src/outbox-relay.ts:44-50 | up to the 31st attempt each delay is twice the one before, as far as the cap allows |
| `Outbox.Store.Select` | libs/messaging/src/prisma-outbox.store.ts:66-90 | the locked batch is the first `limit` eligible unlocked rows in (occurredAt, id) order |
| `Outbox.Store.PublishNext` | libs/messaging/src/outbox-relay.ts:92-122 | the row published next is the first of its aggregate that is not published, and all earlier ones are on the log already; rows, marks and log stay consistent |
| `Outbox.Store.Flush` | libs/messaging/src/outbox-relay.ts:88-128 | exactly the messages that were acknowledged or reached the broker before failing are on the log, in batch order; if the flush commits, each acknowledged row is published, each failed one is unpublished with one more attempt and the given due time, and no other row changes; if the database fails no row changes |
| `Shipments.RecordKeepsHistory` | apps/fulfillment-service/src/shipments/shipment.persistence.ts:19-63 | recording a lifecycle edge extends the from/to chain and its versions |
| `Shipments.VersionsIncrease` | apps/fulfillment-service/src/shipments/shipment.persistence.ts:19-63 | history and outbox versions of a shipment strictly increase |
| `Shipments.AbsorbingStatuses` | apps/fulfillment-service/src/shipments/shipment.domain.ts:83-103 | DELIVERED, FAILED and CANCELED are never left |
| `Shipments.Lifecycle` | apps/fulfillment-service/src/shipments/shipment.domain.ts:83-103 | the lifecycle graph, edge by edge, with the event each edge announces |
| `FulfillmentInvariant.ClaimKeeps` | apps/fulfillment-service/src/shipments/shipment-trip-claim.service.ts:174-267 | claiming keeps ledger, shipments, batches, orders and inbox consistent |
| `FulfillmentInvariant.ReleaseKeeps` | apps/fulfillment-service/src/shipments/shipment-trip-claim.service.ts:269-386 | releasing keeps them consistent |
| `FulfillmentInvariant.OrderTxKeeps` | apps/fulfillment-service/src/shipments/shipment-order-events.service.ts:144-297 | handling an order event keeps one shipment per order, covered events and final cancellations |
| `FulfillmentInvariant.UnparsedIsStale` | apps/fulfillment-service/src/shipments/shipment-order-events.service.ts:60-71 | a confirmation skipped by the early read is stale when its transaction runs, so it is never carried out as a cancellation |
| `FulfillmentInvariant.PrepareKeeps` | apps/fulfillment-service/src/shipments/shipment-dispatch-batch.service.ts:42-100 | preparing a batch holds every listed shipment or none |
| `FulfillmentInvariant.HoldAt` | apps/fulfillment-service/src/shipments/shipment-dispatch-batch.service.ts:80-90 | exactly the listed shipments get their own batch intent, nothing else changes |
| `FulfillmentRuns.BindingNeverChanges` | apps/fulfillment-service/src/shipments/shipment-dispatch-batch.service.ts:161-166 | BATCH_GRANTED_SHIPMENT_BINDING_CHANGED cannot be reached |
| `FulfillmentRuns.ListedById` | apps/fulfillment-service/src/shipments/shipment-dispatch-batch.service.ts:129-135 | an update by intent id touches exactly the shipments the batch lists |
| `FulfillmentRuns.PickSpeaks` | apps/fulfillment-service/src/shipments/shipment-delivery-events.service.ts:168-176 | whichever earlier receipt `findFirst` returns, it speaks for all receipts of the stop |
| `FulfillmentRuns.LandResultIff` | apps/fulfillment-service/src/shipments/shipment-delivery-events.service.ts:256-287 | the write of a result that was read as applicable keeps the invariant if and only if the shipment is still DISPATCHED; otherwise its history is broken |
| `FulfillmentRuns.StepKeeps` | apps/fulfillment-service/src/shipments/shipment-dispatch-batch.service.ts:42-184 | every transaction of the service keeps the whole invariant |
| `FulfillmentRuns.RunKeeps` | apps/fulfillment-service/src/shipments/shipment-order-events.service.ts:144-297 | so does every run |
| `FulfillmentProgress.RunOnward` | apps/fulfillment-service/src/shipments/shipment.persistence.ts:19-63 | along every run histories and the ledger only grow, settled batches and receipts stay, cursors strictly increase until canceled and then stop |
| `FulfillmentProgress.HeldIsFrozen` | apps/fulfillment-service/src/shipments/shipment-dispatch-batch.service.ts:140-184 | a shipment with a pending batch intent is unchanged by every run that neither decides nor commits that batch |
| `FulfillmentProgress.GrantedReceipts` | apps/transport-service/src/dispatch/trip-dispatch.service.ts:144-147 | every granted receipt carries exactly the requested shipment version plus one |
| `FulfillmentProgress.DeliveryResults` | apps/fulfillment-service/src/shipments/shipment-delivery-events.service.ts:141-296 | as long as no write is overtaken, receipts of one trip stop that are no conflicts agree, at most one is applied, and its outcome is the shipment's status from then on |
| `FulfillmentProgress.Histories` | apps/fulfillment-service/src/shipments/shipment.persistence.ts:19-63 | as long as no result's write is overtaken, every reachable history is an unbroken chain along the lifecycle graph ending at the status, and later states only extend it |
| `DeliveryRace.HistoriesIff` | apps/fulfillment-service/src/shipments/shipment-delivery-events.service.ts:217-284 | with the write allowed whatever happened since the read, all histories of a reachable state are unbroken if and only if no write of the run was overtaken by another result of its shipment |
| `DeliveryRace.RaceMeans` | apps/fulfillment-service/src/shipments/shipment-delivery-events.service.ts:237-258 | between read and write the shipment is still DISPATCHED if and only if nothing but refused cancellations was recorded of it |
| `FulfillmentProgress.OneShipmentPerOrder` | apps/fulfillment-service/src/shipments/shipment-order-events.service.ts:144-297 | at most one shipment exists per order |
| `FulfillmentProgress.CancellationWins` | apps/fulfillment-service/src/shipments/shipment-order-events.service.ts:144-297 | a cancellation later than every handled confirmation leaves, in any order and with any repetition, no shipment that is neither canceled nor dispatched, now and later |
| `FulfillmentProgress.ClaimIdempotent` | apps/fulfillment-service/src/shipments/shipment-trip-claim.service.ts:174-267 | a repeated claim gets its first response in every later state and changes nothing |
| `FulfillmentProgress.ReleaseIdempotent` | apps/fulfillment-service/src/shipments/shipment-trip-claim.service.ts:269-386 | the same for a release |
| `ClaimLedger.ReceiptsAlternate` | apps/fulfillment-service/src/shipments/shipment-trip-claim.service.ts:174-386 | receipts of a shipment alternate, and a release carries the claim id and trip of the claim before it |
| `ClaimLedger.FirstIsClaim` | apps/fulfillment-service/src/shipments/shipment-trip-claim.service.ts:174-267 | the first receipt of a shipment is a claim |
| `ClaimLedger.HeldOrReleased` | apps/fulfillment-service/src/shipments/shipment-trip-claim.service.ts:269-386 | a claim is held by its trip or has a stored release, never both |
| `ClaimLedger.ClaimStatusDecided` | apps/fulfillment-service/src/shipments/shipment-trip-claim.service.ts:396-436 | the "neither active nor released" branch is unreachable, and "released" is said exactly when a release is stored |
| `FulfillmentOutcomes.ClaimOutcome` | apps/fulfillment-service/src/shipments/shipment-trip-claim.service.ts:174-267 | a new claim is granted if and only if the shipment is known, at the version named, ready, free, idle and with a valid snapshot; then trip, claim, version and receipt are as requested and nothing else changes; an old request gets its own receipt or a conflict |
| `FulfillmentOutcomes.ReleaseOutcome` | apps/fulfillment-service/src/shipments/shipment-trip-claim.service.ts:269-386 | a new release is accepted if and only if a claim of that trip and actor is held at the version named with no dispatch under way; then the shipment is free, one version further |
| `FulfillmentOutcomes.CommandOutcome` | apps/fulfillment-service/src/shipments/shipment-command.service.ts:23-55 | a command goes through if and only if version and status are its own and no intent waits; status, history row and event are the ones it stands for |
| `FulfillmentOutcomes.IntendOutcome` | apps/fulfillment-service/src/shipments/shipment-dispatch.service.ts:80-118 | when an intent is stored, found stored, or refused |
| `FulfillmentOutcomes.RejectOutcome` | apps/fulfillment-service/src/shipments/shipment-dispatch.service.ts:150-160 | a definite refusal gives a waiting intent up and changes nothing else |
| `FulfillmentOutcomes.CompleteOutcome` | apps/fulfillment-service/src/shipments/shipment-dispatch.service.ts:176-206 | a granted dispatch makes a ready shipment leave: status, version, history row, issue mark and intent together |
| `FulfillmentOutcomes.PrepareOutcome` | apps/fulfillment-service/src/shipments/shipment-dispatch-batch.service.ts:42-100 | a new batch is pending with every listed shipment held under its own dispatch id if and only if all are ready, and rejected with none otherwise |
| `FulfillmentOutcomes.DecideOutcome` | apps/fulfillment-service/src/shipments/shipment-dispatch-batch.service.ts:112-138 | the stored decision is the one given; a refusal leaves the shipments alone, a grant marks exactly the listed ones |
| `FulfillmentOutcomes.DecisionIsFinal` | apps/fulfillment-service/src/shipments/shipment-dispatch-batch.service.ts:112-184 | along every run the first decision stays on record; a refused batch never dispatches a shipment, a granted one is never rejected |
| `FulfillmentOutcomes.CommitOutcome` | apps/fulfillment-service/src/shipments/shipment-dispatch-batch.service.ts:140-184 | a granted batch makes every listed shipment leave with its receipt, a refused one gives every listed intent up, and no other shipment changes |
| `FulfillmentOutcomes.OrderOutcome` | apps/fulfillment-service/src/shipments/shipment-order-events.service.ts:144-297 | what each event does to its order's cursor and one shipment, and that only a foreign reservation or a batch holding the shipment stand in the way |
| `FulfillmentOutcomes.DeliverOutcome` | apps/fulfillment-service/src/shipments/shipment-delivery-events.service.ts:153-254 | which outcome each delivery event is filed with, and which earlier receipt it turns into a conflict |
| `FulfillmentOutcomes.ApplyOutcome` | apps/fulfillment-service/src/shipments/shipment-delivery-events.service.ts:256-287 | an applied result makes the shipment DELIVERED if it says delivered and FAILED otherwise, with the matching history row |
| `ClaimVersions.RunAges` | apps/fulfillment-service/src/shipments/shipment-trip-claim.service.ts:174-267 | along every run a claimed shipment that is ready stands at the version of its claim, and a canceled one past it |
| `FulfillmentService.Service.ClaimShipment` | apps/fulfillment-service/src/shipments/shipment-trip-claim.service.ts:174-267 | keeps the invariant; a refusal changes nothing; a granted claim is on record, and repeating the request gets the same answer and changes nothing |
| `FulfillmentService.Service.ReleaseShipment` | apps/fulfillment-service/src/shipments/shipment-trip-claim.service.ts:269-386 | keeps the invariant; a refusal changes nothing; after an accepted release the claim counts as released, and repeating it gets the same answer and changes nothing |
| `FulfillmentService.Service.TransitionShipment` | apps/fulfillment-service/src/shipments/shipment-command.service.ts:23-55 | keeps the invariant; never leaves an absorbing status or a shipment a batch holds, and writes exactly one history row |
| `FulfillmentService.Service.IntendDispatch` | apps/fulfillment-service/src/shipments/shipment-dispatch.service.ts:80-118 | keeps the invariant; once an intent is stored every new trip claim of the shipment is refused |
| `FulfillmentService.Service.CompleteDispatch` | apps/fulfillment-service/src/shipments/shipment-dispatch.service.ts:130-208 | keeps the invariant; a granted dispatch goes through if and only if the shipment was not canceled meanwhile, and then it has left |
| `FulfillmentService.Service.RejectDispatch` | apps/fulfillment-service/src/shipments/shipment-dispatch.service.ts:150-160 | keeps the invariant; gives a waiting intent up and changes nothing else |
| `FulfillmentService.Service.PrepareBatch` | apps/fulfillment-service/src/shipments/shipment-dispatch-batch.service.ts:42-100 | keeps the invariant; both loops together hold all shipments or reject the batch |
| `FulfillmentService.Service.DecideBatch` | apps/fulfillment-service/src/shipments/shipment-dispatch-batch.service.ts:112-138 | keeps the invariant; the stored decision is the one given, a refusal leaves the shipments alone, a grant marks every listed intent granted and no other shipment |
| `FulfillmentService.IssueItems` | apps/fulfillment-service/src/shipments/shipment-dispatch-batch.service.ts:149-176 | the commit loop succeeds if and only if every binding is intact at the start, and then issues every item and lists its new version |
| `FulfillmentService.Service.CommitBatch` | apps/fulfillment-service/src/shipments/shipment-dispatch-batch.service.ts:140-184 | keeps the invariant; never throws, and settles a pending batch as completed if and only if it was granted |
| `FulfillmentService.Service.HandleOrder` | apps/fulfillment-service/src/shipments/shipment-order-events.service.ts:144-297 | keeps the invariant; every handled event is on record and covered by its order's cursor, and a canceled order has no shipment left that could still be dispatched |
| `FulfillmentService.Service.PersistOrApply` | apps/fulfillment-service/src/shipments/shipment-delivery-events.service.ts:141-254 | what the transaction reads and files: keeps the invariant; receipts that are not deferred never change, and every applied result is its shipment's status |
| `FulfillmentService.Service.ApplyResult` | apps/fulfillment-service/src/shipments/shipment-delivery-events.service.ts:256-287 | its write, if the shipment is still DISPATCHED: keeps the invariant; the shipment is DELIVERED if the result says delivered and FAILED otherwise, its last history row says the same, and the result is filed as applied |
| `TripInvariant.StepStable` | apps/transport-service/src/routes/route-domain.ts:11-34 | no transaction lowers the version; one that keeps it keeps the lock, and without a lock keeps the whole trip |
| `TripInvariant.VersionSound` | apps/transport-service/src/trips/trip-membership.service.ts:433-850 | two lock-free states of a run with the same version have identical rows, totals, stops, assignment, status and plan |
| `TripSteps.AddKeeps` | apps/transport-service/src/trips/trip-membership.service.ts:49-183 | starting an ADD keeps the trip invariant |
| `TripSteps.RemoveKeeps` | apps/transport-service/src/trips/trip-membership.service.ts:185-293 | starting a REMOVE keeps it |
| `TripSteps.RemoveLists` | apps/transport-service/src/trips/trip-membership.service.ts:233-266 | a REMOVE names exactly the shipments asked for |
| `TripSteps.CancelKeeps` | apps/transport-service/src/trips/trip-cancellation.service.ts:136-266 | starting a CANCEL keeps it |
| `TripSteps.ConsumeKeeps` | apps/transport-service/src/trips/shipment-canceled.consumer.ts:99-234 | taking a canceled shipment off keeps it |
| `TripSteps.PersistClaimKeeps` | apps/transport-service/src/trips/trip-membership.service.ts:433-545 | storing a claim keeps it |
| `TripSteps.CompensateKeeps` | apps/transport-service/src/trips/trip-membership.service.ts:571-625 | compensation keeps it |
| `TripSteps.CompensateTwice` | apps/transport-service/src/trips/trip-membership.service.ts:361-387 | compensating again from the outer handler changes no row |
| `TripSteps.PersistReleaseKeeps` | apps/transport-service/src/trips/trip-membership.service.ts:663-695 | storing a release keeps it |
| `TripSteps.FinalizeKeeps` | apps/transport-service/src/trips/trip-membership.service.ts:726-850 | finalizing keeps it |
| `TripSteps.PermutationExact` | apps/transport-service/src/routes/route-domain.ts:36-40 | the size comparisons and the search make a full permutation: nothing foreign is listed |
| `TripSteps.CapacityStillMet` | apps/transport-service/src/routes/route-approval.service.ts:46-136 | totals read before the approving transaction still fit the capacity inside it |
| `TripSteps.NextIsNext` | apps/transport-service/src/driver/driver-trip.service.ts:425-469 | the only actionable stop is the one after the finished prefix |
| `TripSteps.OpenDispatchBound` | apps/transport-service/src/dispatch/trip-dispatch.service.ts:168-184 | "Granted trip binding changed" is unreachable, and no operation holds the lock |
| `TripSteps.StepKeeps` | apps/transport-service/src/trips/trip-membership.service.ts:347-431 | every transaction of a trip keeps the whole invariant |
| `TripOutcomes.UpdateOutcome` | apps/transport-service/src/trips/trip-command.service.ts:212-296 | a field update goes through if and only if version and DRAFT hold and no operation is under way |
| `TripOutcomes.AddOutcome` | apps/transport-service/src/trips/trip-membership.service.ts:49-183 | when an ADD begins, and the row and request each of its lines becomes |
| `TripOutcomes.RemoveOutcome` | apps/transport-service/src/trips/trip-membership.service.ts:185-293 | when a REMOVE begins, and that exactly the rows asked for ask for their release, in its actor's name |
| `TripOutcomes.CancelOutcome` | apps/transport-service/src/trips/trip-cancellation.service.ts:136-266 | the same for a CANCEL and every active row |
| `TripOutcomes.ConsumeOutcome` | apps/transport-service/src/trips/shipment-canceled.consumer.ts:99-234 | when a canceled shipment is taken off, and what becomes of row, stops, plan, status and totals |
| `TripOutcomes.StoreClaimOutcome` | apps/transport-service/src/trips/trip-membership.service.ts:433-545 | the row takes claim, version and measures of the receipt, and its stop is live and waiting |
| `TripOutcomes.CompensateOutcome` | apps/transport-service/src/trips/trip-membership.service.ts:571-625 | each claimed row of the operation asks for its release in the name of the operation's actor and at the trip's version, each waiting one is released, and no other row changes |
| `TripOutcomes.StoreReleaseOutcome` | apps/transport-service/src/trips/trip-membership.service.ts:663-695 | the row is released and its own stop gone |
| `TripOutcomes.FinalizeOutcome` | apps/transport-service/src/trips/trip-membership.service.ts:726-850 | when an operation ends, as what, and which rows it reports |
| `TripOutcomes.ApproveOutcome` | apps/transport-service/src/routes/route-approval.service.ts:61-136 | an approval goes through if and only if version, rest and a full listing of the live stops hold, and places each stop |
| `TripOutcomes.ReopenOutcome` | apps/transport-service/src/routes/route-approval.service.ts:144-167 | when a route is reopened, and that every stop loses its place |
| `TripOutcomes.AcceptOutcome` | apps/transport-service/src/dispatch/trip-dispatch.service.ts:62-76 | when a dispatch is accepted, and the row it becomes |
| `TripOutcomes.DispatchOutcome` | apps/transport-service/src/dispatch/trip-dispatch.service.ts:168-206 | when a granted dispatch puts the trip on the road, and what it records |
| `TripOutcomes.DriveOutcome` | apps/transport-service/src/driver/driver-trip.service.ts:281-423 | the stop driven to is the foremost one and ends as the driver says, the attempt is recorded as made, and the trip ends with its last waiting stop |
| `TripRequests.StepNames` | apps/transport-service/src/trips/trip-membership.service.ts:571-625 | every transaction keeps it that a row's requests name its operation's actor and, while they wait, the trip's present version |
| `TripTheorems.VersionsSafe` | apps/transport-service/src/routes/route-domain.ts:11-34 | no run raises a trip's version above 2^53 - 1 |
| `TripTheorems.SagaOutcome` | apps/transport-service/src/trips/trip-membership.service.ts:347-431 | an operation is PENDING or COMPENSATING if and only if it holds the lock; its rows are the ones its payload names, and once finished it reports exactly those, in row order, which stands for (assignedAt, id) and need not be the payload's order: a COMPLETED ADD all ACTIVE, a REJECTED one all RELEASED |
| `TripTheorems.RunKeepsPayload` | apps/transport-service/src/trips/trip-membership.service.ts:726-850 | an operation keeps its payload along every run, and once finished its report |
| `TripTheorems.ManifestAgrees` | apps/transport-service/src/trips/trip-membership.service.ts:663-850 | without a lock, totals are the sums over ACTIVE rows and live stops match those rows one to one |
| `TripTheorems.CanceledIsEmpty` | apps/transport-service/src/trips/trip-membership.service.ts:757-776 | a CANCELED trip has no rows and no live stops, so its forced zero totals are the true sums |
| `TripTheorems.CapacityHolds` | apps/transport-service/src/routes/route-input.service.ts:50-57 | stored totals of an APPROVED or IN_PROGRESS trip never exceed its vehicle snapshot |
| `TripTheorems.DriverInOrder` | apps/transport-service/src/driver/driver-trip.service.ts:229-469 | places are a bijection onto 1..n, finished stops are the prefix 1..k with one attempt each, the version is the dispatched one plus k, COMPLETED if and only if k = n |
| `TripTheorems.DispatchedManifest` | apps/transport-service/src/dispatch/trip-dispatch.service.ts:208-241 | a dispatch that was not rejected lists exactly the trip's shipments, although it read them outside its transaction |
| `TripTheorems.FrozenWhileOpen` | apps/transport-service/src/routes/route-domain.ts:11-34 | while a dispatch is PENDING nothing of the trip changes by any path |
| `TripDesk.Totals` | apps/transport-service/src/trips/trip-membership.service.ts:697-724 | the loop sums weight and volume over the ACTIVE rows |
| `TripDesk.Report` | apps/transport-service/src/trips/trip-membership.service.ts:776-793 | the result lists the operation's rows with their states, in row order |
| `TripDesk.Remaining` | apps/transport-service/src/driver/driver-trip.service.ts:327-336 | whether any other live stop is still waiting |
| `TripDesk.GivePlaces` | apps/transport-service/src/routes/route-approval.service.ts:103-107 | clearing first and then counting gives each listed stop its place |
| `TripDesk.Desk.UpdateDetails` | apps/transport-service/src/trips/trip-command.service.ts:212-296 | keeps the invariant; the fields change, one version further, or nothing does |
| `TripDesk.Desk.AddShipments` | apps/transport-service/src/trips/trip-membership.service.ts:49-183 | keeps the invariant; the loop builds the rows of the ADD, or nothing changes when its guard fails |
| `TripDesk.Desk.RemoveShipments` | apps/transport-service/src/trips/trip-membership.service.ts:185-293 | keeps the invariant; the loop gives the picked rows their releases, or nothing changes |
| `TripDesk.Desk.Cancel` | apps/transport-service/src/trips/trip-cancellation.service.ts:136-266 | keeps the invariant; the loop gives every active row its release, or nothing changes |
| `TripDesk.Desk.ConsumeCanceled` | apps/transport-service/src/trips/shipment-canceled.consumer.ts:99-234 | keeps the invariant; row, stops, totals, status and lock change together or not at all |
| `TripDesk.Desk.StoreClaim` | apps/transport-service/src/trips/trip-membership.service.ts:433-545 | keeps the invariant; the row becomes ACTIVE, its stop live, the totals recounted |
| `TripDesk.Desk.BeginCompensation` | apps/transport-service/src/trips/trip-membership.service.ts:571-625 | keeps the invariant; the loop turns every row of the operation round, each claimed one asking for its release in the name of the operation's actor and at the trip's version, and the throw for a missing claim receipt is never reached |
| `TripDesk.Desk.StoreRelease` | apps/transport-service/src/trips/trip-membership.service.ts:663-695 | keeps the invariant; the row is RELEASED, its stop gone, the totals recounted |
| `TripDesk.Desk.FinalizeOperation` | apps/transport-service/src/trips/trip-membership.service.ts:726-850 | keeps the invariant; the operation reports exactly the shipments it was begun for and gives up the lock |
| `TripDesk.Desk.ApproveRoute` | apps/transport-service/src/routes/route-approval.service.ts:61-136 | keeps the invariant; the stored totals fit the capacity that was read before the transaction |
| `TripDesk.Desk.ReopenRoute` | apps/transport-service/src/routes/route-approval.service.ts:144-167 | keeps the invariant; after reopening no approval read before can still be used |
| `TripDesk.Desk.AcceptDispatch` | apps/transport-service/src/dispatch/trip-dispatch.service.ts:62-76 | keeps the invariant; a dispatch row is added if and only if the selection's version still stands on a trip at rest |
| `TripDesk.Desk.StoreReceipt` | apps/transport-service/src/dispatch/trip-dispatch.service.ts:137-150 | keeps the invariant; a grant moves the row to RECEIPTED, a refusal to REJECTED, and nothing else changes |
| `TripDesk.Desk.CommitDispatch` | apps/transport-service/src/dispatch/trip-dispatch.service.ts:168-206 | keeps the invariant; a receipted dispatch always finds the trip as it left it, so only the version bound can stop it |
| `TripDesk.Desk.ApplyDriver` | apps/transport-service/src/driver/driver-trip.service.ts:281-423 | keeps the invariant; the stop acted on is the next one of the approved order, it is dropped off if and only if the driver says so, and the attempt is recorded as made |
| `WorldCalls.StepKeeps` | apps/transport-service/src/trips/trip-membership.service.ts:347-431 | every step of either service, every lost reply and every crash keeps the agreement of the two databases |
| `WorldCalls.ClaimAnswer` | apps/transport-service/src/integrations/fulfillment.client.ts:226-236 | a definite refusal of the row being claimed means that it was never granted |
| `WorldTheorems.CallTells` | apps/transport-service/src/integrations/fulfillment.client.ts:153-239 | a call changes fulfillment whether or not its reply arrives, and what is remembered is the reply that did |
| `WorldTheorems.NoticedOnce` | apps/transport-service/src/trips/shipment-canceled.consumer.ts:60-98 | a cancellation handled once is not taken again, nor any earlier one of its shipment |
| `WorldVersions.RequestsNamed` | apps/transport-service/src/trips/trip-membership.service.ts:571-625 | in every reachable state waiting requests name operation actor, trip version and row version, and a row of an ADD is released in the name of the actor who had it claimed |
| `WorldTheorems.ActiveIsHeld` | apps/transport-service/src/trips/trip-membership.service.ts:433-545 | in every reachable state an ACTIVE row's claim is exactly the one its shipment holds for that trip, with the shipment's own weight and volume |
| `WorldTheorems.ReleasedIsFree` | apps/transport-service/src/trips/trip-membership.service.ts:571-695 | as long as every granted reply passes the schema, no claim granted to a RELEASED row is still held |
| `WorldTheorems.LeakIff` | apps/transport-service/src/trips/trip-membership.service.ts:361-387 | in every reachable state a RELEASED row's grant is still held if and only if it was dropped by a compensation without the receipt |
| `WorldTheorems.LeaksAreDrops` | apps/transport-service/src/trips/trip-membership.service.ts:380-387 | along every run the leaked requests are exactly those of such compensations |
| `WorldTheorems.LeakStays` | apps/transport-service/src/trips/trip-membership.service.ts:380-387 | a leaked claim stays held in every later state, and its row released |
| `WorldTheorems.OnlyFirstInDoubt` | apps/transport-service/src/trips/trip-membership.service.ts:347-387 | of the rows waiting for a claim only the first in processing order may hold one unknowingly |
| `WorldTheorems.HeldHasRow` | apps/fulfillment-service/src/shipments/shipment-trip-claim.service.ts:174-267 | every claim a shipment holds was granted to a row of that trip that is still there, or whose grant leaked |
| `WorldTheorems.ActiveOnce` | apps/transport-service/prisma/migrations/20260905131100_init_transport/migration.sql:138-141 | no shipment is ACTIVE on two trips, nor twice on one |
| `WorldTotals.TotalsAreAssigned` | apps/transport-service/src/trips/trip-membership.service.ts:697-724 | as long as every granted reply passes the schema, an unlocked trip carries exactly the shipments fulfillment has assigned to it, and its stored totals are the sums of their weights and volumes there |
| `WorldExample.LeakExample` | apps/transport-service/src/integrations/fulfillment.client.ts:170-171 | a reachable state in which a grant with an invalid snapshot is compensated and the shipment stays claimed |
| `WorldDispatch.RoadMeansDispatched` | apps/transport-service/src/dispatch/trip-dispatch.service.ts:95-206 | a trip is IN_PROGRESS or COMPLETED only if fulfillment dispatched every shipment of its payload under that batch, and the payload is what the trip carries |
| `WorldDispatch.RejectedMeansNone` | apps/transport-service/src/dispatch/trip-dispatch.service.ts:129-165 | a dispatch marked REJECTED dispatched no shipment |
| `WorldDispatch.ReceiptComplete` | apps/transport-service/src/dispatch/trip-dispatch.service.ts:144-147 | a granted receipt always passes transport's check: one entry per shipment of the payload, one version further than requested |
| `WorldDispatch.ReceiptChecked` | apps/transport-service/src/dispatch/trip-dispatch.service.ts:144-147 | a grant is taken only if its receipt has as many entries as the payload, and for each shipment one with its dispatch id and one version further |
| `WorldDispatch.LateRejectIff` | apps/transport-service/src/dispatch/trip-dispatch.service.ts:95-165 | after a resume writes REJECTED over an open dispatch, no shipment leaves under its batch along any run if and only if fulfillment rejected the batch or holds the authority's refusal, or does not know it and either no other resume holds the payload or the payload is not dispatchable |
| `WorldDispatch.AcceptedHarmless` | apps/transport-service/src/dispatch/trip-dispatch.service.ts:152-160 | while the stage is ACCEPTED and no other resume holds the row that condition holds |
| `WorldDispatch.UndispatchableDoomed` | apps/fulfillment-service/src/shipments/shipment-dispatch-batch.service.ts:52-79 | a payload of an open, unknown dispatch that is not dispatchable now never will be |
| `WorldVersions.DispatchWhen` | apps/fulfillment-service/src/shipments/shipment-dispatch-batch.service.ts:52-79 | an accepted payload that reaches fulfillment is dispatchable if and only if every shipment is still ready and named with its own order and reservation: claims, trip and versions are sure to fit |
| `WorldExample.OverlapExample` | apps/transport-service/src/dispatch/trip-dispatch.service.ts:118-131 | a reachable state with stage ACCEPTED and the batch unknown from which, after one resume's rejection, another resume dispatches the batch |
| `WorldExample.LateRejectExample` | apps/transport-service/src/dispatch/trip-dispatch.service.ts:152-165 | a reachable state in which such a late write contradicts a batch that has dispatched |
| `WorldDelivery.AnnouncedResult` | apps/transport-service/src/driver/driver-trip.service.ts:345-420 | a result a driver action announced is, in every later state, neither deferred nor a binding mismatch: it goes on to be applied if the shipment is DISPATCHED, is a duplicate if the stop has a receipt, and a conflict only if the shipment reached its end by other means |
| `WorldDelivery.GenuineInbox` | apps/fulfillment-service/src/shipments/shipment-delivery-events.service.ts:168-254 | where only announced results arrive no receipt is ever deferred, applied and duplicate ones are their shipment's status, and a conflict means a shipment at its end |
| `WorldDelivery.OneResult` | apps/transport-service/src/driver/driver-trip.service.ts:425-469 | a trip announces at most one result per stop |
| `WorldExample.RaceExample` | apps/fulfillment-service/src/shipments/shipment-delivery-events.service.ts:217-271 | a reachable state in which a shipment marked FAILED after the read of its driver's result is about to become DELIVERED, breaking its history |
| `WorldReleases.WaitingShipment` | apps/fulfillment-service/src/shipments/shipment-trip-claim.service.ts:329-338 | a shipment whose release is pending is still held by the trip, ready or canceled, and free of any dispatch |
| `WorldReleases.ReleaseAcceptedIff` | apps/fulfillment-service/src/shipments/shipment-trip-claim.service.ts:303-339 | an unanswered release is accepted if and only if it comes from the claiming actor and names the shipment's present version |
| `WorldVersions.ReleaseWhen` | apps/fulfillment-service/src/shipments/shipment-trip-claim.service.ts:303-339 | the release of a REMOVE, CANCEL or compensation is accepted if and only if the claiming actor asks for it and the shipment has not been canceled |
| `WorldVersions.CompensationAccepted` | apps/transport-service/src/trips/trip-membership.service.ts:596-612 | a compensation always asks in the claiming actor's name, so its release is accepted if and only if the shipment has not been canceled |
| `WorldReleases.CanceledReleaseAccepted` | apps/transport-service/src/trips/shipment-canceled.consumer.ts:129-183 | the release prepared for a canceled shipment is acceptable in every state until it is applied |
| `WorldReleases.ReleaseStuck` | apps/fulfillment-service/src/shipments/shipment-trip-claim.service.ts:317-339 | a release that is not acceptable is never applied along any run: the row stays as it is and the trip locked |
| `WorldReleases.BehindStuck` | apps/transport-service/src/trips/trip-membership.service.ts:411-420 | rows behind a stuck one are never released either |
| `WorldReleases.NextReleaseIff` | apps/fulfillment-service/src/shipments/shipment-trip-claim.service.ts:317-339 | the release to be sent next is applied in some run if and only if actor and version fit |
| `WorldExample.StuckExample` | apps/transport-service/src/trips/trip-membership.service.ts:185-293 | a reachable state in which another actor's removal waits for good |
| `WorldExample.StaleExample` | apps/transport-service/src/trips/shipment-canceled.consumer.ts:83-87 | a reachable state in which the claiming actor's own removal waits for good, because the order was canceled before the release was applied |

## Left out

- Security tokens, JWT, SHA-256 and UUID generation: abstracted to unforgeable records, injective hashes and new ids.
- Network clients, Kafka wiring, controllers, guards, the gateway, identity, admin and query services: I/O or read-only views.
- The Order and inventory services: an authority with one fixed answer per request.
- Address, customer and item snapshots and their format checks: a shipment's snapshot is valid or not, coordinates and decimals are not modelled.
- `plannedSequence`: a count plus one that repeats after removals; only the approved sequence carries a guarantee.
- One-to-one grant lists: the binding check allows surplus grants for one shipment, and the model keeps the decision only.
- Driver authorisation and replayed commands of the trip service by request id: the replay returns the stored answer without entering the transaction, and the model has nothing to add to that.
- Field-update operation rows: `updateFields` is modelled by its effect on the trip, not by the completed operation row it inserts.
- Trip error codes: a refused trip transaction is only told apart from an accepted one.
- The safe-integer bound on shipment versions: versions of shipments are unbounded, versions of trips stop at 2^53 - 1 as in the source.
- CanonicalJson.AcceptedIff: arrays are dense; the source encodes an array with holes without its holes, so a sparse array can share its text with a shorter dense one.
- Liveness, lease expiry while a processor runs, transaction timeouts and delayed duplicate messages: excluded by the hypotheses above.
- Forecast engine and route optimiser: floating point and library calls.
- Outbox.RetryDelayBacksOff: the source computes in doubles; the model is exact, which agrees for every delay below 2^53.
