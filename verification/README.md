# Cargo lifecycle, money and signup: a verified model

This project models the operational core of a multi-tenant freight platform and proves what its
services promise. `dafny verify dfyconfig.toml` checks everything.

**Cargo.** Items, shipments, containers, flights and other manifests are changed by `WarehouseService`,
`ContainersService`, `ManifestsService` and the single status writer of `ShipmentsService`. The tables of
one tenant are a value (`CargoState`), every operation is a function from tables to tables or a refusal
(`CargoSteps`), and a run is any interleaving of calls (`CargoRuns`). The services themselves are classes
that update the tables in place (`ShipmentsService`, `WarehouseService`, `ContainersService`,
`ManifestsService`); each method is proved to leave exactly the tables its function computes, and `CargoApi`
ties any stream of calls to a run. Eight shipment statuses are derived by rollups, each with its own guard;
the central result is that under no interleaving a guard loses a rollup (`Stranding`, `StrandingSteps`),
with the two places where the source asks for less worked out exactly (`LoadedGate`, `MissedGate`). The
converse (`Earning`), lockstep of items and transports (`Lockstep`, `LockstepSteps`, `Progress`), container
occupancy, the replay of the event log, monotone histories, notices and emails, inspections, item numbers
and frozen snapshots are invariants of the same runs, and so is where things stand (`Whereabouts`), who took
what (`Handoffs`) and when it was logged (`Timeline`). `Verdicts` says outright which status every accepted
call leaves a shipment in, `Acceptance` which calls are accepted and why the others are refused, `Journeys`
what the status lists behind the guards have in common. `MissedGate` and `MixedHandovers` are runs that show
each exact condition at work.

**Printed manifests.** `PrintDocument` is the snapshot builder and both renderings; `PrintDesk` sets the
texts of customers, shipments, items and containers beside the cargo tables, with the edits that change
them; `PrintRuns` proves over runs of calls and edits that a finalized manifest prints what was approved and
lists what it carries; `PrintLaws` what a draft prints, line by line, and what each edit changes.
`PrintService` does the same in place.

**Money and webhooks.** Invoices and payments in integer cents (`Payments`), what an invoice comes to and
what the desk accepts (`Invoicing`), what each online session charges and its fate (`OnlineSessions`),
signup, provisioning, promo caps and prices (`Provisioning`, `Slugs`), sessions from start to tenant
(`Signups`), what is charged against what is counted (`Charging`, `Promos`), and at-least-once webhooks with
a ledger that is written last (`Webhooks`), with the exact condition under which that is enough
(`LateRows`).

**Small cores.** The website agent's conversation store (`Conversations`) and when a conversation is still
there (`ConversationLives`), tracking numbers and item codes (`Numbering`), WhatsApp callbacks
(`Callbacks`).

How the proofs are built: `CargoEffects` says what each accepted call changes, table by table; an invariant
is then kept by a lemma about any two states so related, and one `match` over the calls collects the lemmas.
`hide` keeps definitions a step does not need out of its proof.

## Where the code and its own comments disagree

The code is modelled as it is.

- The completion email comment (notifications.service.ts:196-264) promises exactly one final message.
  A shipment that was partly delivered and ends with a pickup gets none. The exact condition is
  `ClosingDecision.ClosingEmailIsDecidedAtCompletion`, the run `MixedHandovers.MixedShipmentCanEndSilently`.
- The ledger comment (stripe-webhook-ledger.service.ts) relies on every handler being idempotent. No
  handler is, for an event handled before the rows it names exist: `LateRows.UnknownSessionIsHandledTwice`,
  `LateRows.UnknownTokenIsHandledTwice` and `LateRows.UnknownTenantIsHandledTwice`. For every other event
  each is: `LateRows.ReadyExactlyWhenNeverRepeated`.
- The payment comment (payments.service.ts:269-284) says a completed charge is never discarded. One on a
  superseded session is: `OnlineSessions.SupersededChargeIsLost`. The code relies on Stripe having expired
  that session, but a failure to expire it is only logged (stripe.service.ts:72-78). A charge is collected
  exactly when its session is known and was not superseded:
  `OnlineSessions.ChargeIsCollectedUnlessSuperseded`, `OnlineSessions.SessionFate`.
- The promo comment (promo-pricing.util.ts:3-21) says display, charge and count can never drift apart. The
  checkout and the webhook read the price at two times: `Charging.ChargedIsNotAlwaysCounted` and
  `Charging.MorePromosThanTheCap` are the runs, `Charging.CountedIsChargedExactlyWhen` and
  `Charging.PromoIsCountedExactlyWhen` the exact conditions.
- "All items loaded" means something else in the two consolidation rollups:
  `LoadedGate.SealLoadsUnlessSomeLeft`.

## Model

Rows that begin with "Refinement" are methods of the services in place: each leaves exactly the tables its
specification function computes, and supports the results of the other rows, which are about those functions.

| member | source | states |
|---|---|---|
| `StrandingSteps.NoShipmentStranded` | apps/api/src/warehouse/warehouse.service.ts:1111-1326 | For every interleaving of calls: a non-empty shipment whose items have all been received, processed, committed, departed, arrived, received at destination or handed over has at least the status of that stage, COMPLETED in the last case. |
| `StrandingSteps.RunsAreOrderly` | apps/api/src/warehouse/warehouse.service.ts:1381-1504 | Lockstep and the chain of rollup guarantees are kept by every call of a run, from any state that has them. |
| `StrandingSteps.StepKeepsChain` | apps/api/src/manifests/manifests.service.ts:1470-1625 | One call of any of the four services keeps the chain: each guard finds the shipment in a status it acts on because of the link before it. |
| `LoadedGate.SealLoadsUnlessSomeLeft` | apps/api/src/containers/containers.service.ts:475-521 | The exact condition of the missing LOADED link: after sealing, a shipment whose items are all loaded or further is at least LOADED if and only if it was already or none of its items had left on an earlier transport. |
| `LoadedGate.FlightAlwaysLoads` | apps/api/src/manifests/manifests.service.ts:1470-1534 | The near-duplicate rollup of flights asks for at-least-loaded and never misses LOADED. |
| `MissedGate.LoadedGateCanBeMissed` | apps/api/src/containers/containers.service.ts:510-521 | A run of twelve accepted calls ends with every item loaded or further and the shipment still CONSOLIDATED. |
| `LoadedGate.PickUpSendsOutOnlyWhenDone` | apps/api/src/warehouse/warehouse.service.ts:1158-1193 | The exact condition of the missing out-for-delivery link after a pickup, which calls the completion rollup only. |
| `MixedHandovers.PickUpCanLeaveShipmentBehind` | apps/api/src/warehouse/warehouse.service.ts:696-732 | A run of accepted calls ends with one parcel out for delivery, the other picked up, and the shipment still READY_FOR_PICKUP. |
| `Earning.EarnedExactlyWhenDisciplined` | apps/api/src/warehouse/warehouse.service.ts:1111-1145 | Rollup soundness, step by step: from a sound state a call keeps every status earned by all items if and only if it neither adds an item to a shipment already LOADED nor passes an inspected item of one as ready. |
| `MixedHandovers.AddedItemCanLag` | apps/api/src/shipments/shipments.service.ts:182-203 | A run of accepted calls ends by adding an item to a LOADED shipment, whose status that item has not earned. |
| `Earning.StatusesAreEarned` | apps/api/src/manifests/manifests.service.ts:1550-1625 | In every run of such calls: LOADED, DEPARTED, ARRIVED_DESTINATION and READY_FOR_PICKUP shipments have no item that lags behind unless it is on EXCEPTION, and a COMPLETED one has handed all its items over. |
| `Progress.ItemsAndTransportsAgree` | apps/api/src/containers/containers.service.ts:188-397 | Lockstep, both ways: an item is ASSIGNED_TO_CONTAINER, ASSIGNED_TO_MANIFEST, LOADED or DEPARTED_ORIGIN exactly when it actively rides a transport on that leg, and it rides at most one that has not arrived, containers and flights together. |
| `Progress.ContainersAndManifestsAgree` | apps/api/src/manifests/manifests.service.ts:712-858 | A container has departed, or arrived, exactly when its manifest has; before it is sealed it has none. |
| `LockstepSteps.StepKeepsLockstep` | apps/api/src/manifests/manifests.service.ts:712-1447 | Every call but a manual event keeps items, containers and manifests in lockstep. |
| `Progress.ManifestsMakeProgress` | apps/api/src/manifests/manifests.service.ts:1008-1406 | In every reachable state a DRAFT manifest finalizes exactly when it has a carrier, a destination, an origin location or warehouse, a flight by air, a vessel and a voyage otherwise, and carries something; a FINALIZED one departs, a DEPARTED one arrives, and what arrives was DEPARTED_ORIGIN although the ocean branch does not look. |
| `Whereabouts.FinalizedManifestsAreComplete` | apps/api/src/manifests/manifests.service.ts:1020-1040 | Manual events included: a manifest that is FINALIZED, DEPARTED or ARRIVED has a carrier, a destination, an origin, a flight if it is AIR, and a vessel and a voyage otherwise. |
| `Whereabouts.RidersStandWhereTheyStart` | apps/api/src/containers/containers.service.ts:229-233 | Over every run: what rides a container that has not arrived stands at the container's own, known warehouse; what rides a flight that has not arrived stands at its origin warehouse, if it names one. |
| `Whereabouts.ContainersStartAtTheOrigin` | apps/api/src/manifests/manifests.service.ts:743-762 | Over every run: a container on a manifest with an origin warehouse is one of that warehouse. |
| `Whereabouts.ItemsStandSomewhere` | apps/api/src/warehouse/warehouse.service.ts:696-699 | In every reachable state an item is at a known warehouse exactly while it is neither unreceived, nor on the road to its customer, nor handed over. |
| `Verdicts.EveryCallGivesItsVerdict` | apps/api/src/warehouse/warehouse.service.ts:1111-1504 | A second, flat account of all eight rollups: in every reachable state an accepted call leaves each shipment it concerns in the one status decided by its old status and its items as they are now, every other shipment as it was, and a new one a draft. |
| `Verdicts.SendOutMovesExactlyWhen` | apps/api/src/warehouse/warehouse.service.ts:1158-1193 | After an accepted dispatch the shipment is at least OUT_FOR_DELIVERY if and only if it already was or every item of it is out for delivery or handed over. |
| `Acceptance.StatusDecidesWarehouseCalls` | apps/api/src/warehouse/warehouse.service.ts:228-1092 | In every reachable state the seven warehouse calls are accepted exactly by the item's status, where it stands, and what the request says; the guards about the shipment never refuse. |
| `Acceptance.StatusDecidesTransportCalls` | apps/api/src/containers/containers.service.ts:188-441 | In every reachable state: a PROCESSED item boards exactly the open containers at its warehouse and the draft flights from there; what rides an open transport can leave it; sealed, free containers join draft manifests from their warehouse; arrived ones are opened and then closed. |
| `Acceptance.CancelledShipmentsRest` | apps/api/src/warehouse/warehouse.service.ts:238-240 | In every state: no item of a cancelled shipment is handled at a warehouse or put on a transport. |
| `Acceptance.NewRowsAreAcceptedExactlyWhenNew` | apps/api/src/containers/containers.service.ts:122-155 | In every state: rows are created exactly for fresh ids at known warehouses. |
| `Acceptance.ManualEventsAreTakenExactlyWhen` | apps/api/src/shipments/shipments.service.ts:242-281 | In every state: the public endpoint takes any event but a creation, about a known shipment, an item of it and a known warehouse. |
| `Acceptance.ManualEventsWriteWhatTheySay` | apps/api/src/shipments/shipments.service.ts:283-344 | It writes the statuses it is given and no other, and moves no transport. |
| `Acceptance.RefusalsSayWhy` | apps/api/src/warehouse/warehouse.service.ts:228-287 | In every state, whatever is called: an unknown subject is NOT_FOUND, NOT_FOUND always means an unknown id, BAD_REQUEST an incomplete request, and every other refusal is a CONFLICT. |
| `Progress.LoadingContainersSeal` | apps/api/src/containers/containers.service.ts:340-362 | A container can be sealed exactly while it is LOADING. |
| `Occupancy.BookedExactlyWhenEmpty` | apps/api/src/containers/containers.service.ts:264-362 | BOOKED containers are empty and all others are not, manual events included, so the empty-container guard of finalize is never the reason for a refusal. |
| `Histories.HistoriesAreMonotone` | apps/api/src/warehouse/warehouse.service.ts:1399-1504 | The only backward moves of a shipment are READY_FOR_CONSOLIDATION to PROCESSING and CONSOLIDATED to READY_FOR_CONSOLIDATION; past LOADED the rank only grows; no notifiable status is entered twice. |
| `Histories.StatusIsLastLogged` | apps/api/src/shipments/shipments.service.ts:283-344 | Manual events included: a shipment has the status of its last status-bearing event, and each notifiable status in its log has exactly one notice. |
| `Histories.EveryMoveHasItsName` | apps/api/src/warehouse/warehouse.service.ts:1399-1415 | In every run each status in a log was led to by the right kind of event, from a status it may follow, and the first is the draft of a new shipment. |
| `Histories.ToldOfExactlyTheseStatuses` | apps/api/src/notifications/notifications.service.ts:116-173 | Manual events included: customers are told of eight statuses, each exactly if the shipment was ever in it, and once. |
| `Histories.EmailsFollowTheLog` | apps/api/src/notifications/notifications.service.ts:601-690 | Manual events included: no email twice, each one backed by its notice and the preference, and every notice mailed but a completion. |
| `ChronicleSteps.StepGoesOn` | apps/api/src/shipments/shipments.service.ts:242-357 | Every call keeps log, notices and emails tied together, adds only legal moves, and only ever appends. |
| `ClosingRuns.AtMostOneClosingEmail` | apps/api/src/notifications/notifications.service.ts:255-264 | At most one closing email for each shipment, none before COMPLETED, none to a customer who wants no email. |
| `ClosingDecision.ClosingEmailIsDecidedAtCompletion` | apps/api/src/notifications/notifications.service.ts:255-264 | Every completed shipment whose customer wants email, items added later or not, by the handoffs up to its completion: the delivered email went out exactly when the last was a delivery, the picked-up email exactly when there was no delivery, none exactly when it was mixed and ended in a pickup. |
| `ClosingRuns.ClosingEmailExactlyWhen` | apps/api/src/notifications/notifications.service.ts:255-264 | If it got no item after completion, the same holds going by all its handoffs so far. |
| `MixedHandovers.MixedShipmentCanEndSilently` | apps/api/src/notifications/notifications.service.ts:255-264 | A run of accepted calls ends with a COMPLETED shipment, email wanted, and no closing email. |
| `FinalEmail.PickUpCloses` | apps/api/src/warehouse/warehouse.service.ts:696-725 | A completing pickup mails picked-up exactly when wanted and nothing was delivered before. |
| `FinalEmail.DeliveryCloses` | apps/api/src/warehouse/warehouse.service.ts:959-981 | A completing delivery mails delivered exactly when wanted, and its completion stays silent. |
| `ReplaySteps.LogRebuildsItems` | apps/api/src/shipments/shipments.service.ts:308-336 | In every reachable state the fold over an item's events gives its status, first receipt and current warehouse, and the log knows no item that does not exist. |
| `ReplaySteps.EveryEventIsDue` | apps/api/src/warehouse/warehouse.service.ts:624-868 | In every reachable log each event about an item comes when it is due: registered once before, at the stage the event presupposes, and at the warehouse where the item stood when it is worked on or leaves. |
| `Handoffs.RecordsAgreeWithItems` | apps/api/src/warehouse/warehouse.service.ts:701-723 | In every reachable state: an item is PICKED_UP, or DELIVERED, exactly if the last record of its handing over is a pickup, or a delivery; one on the road was dispatched last. |
| `Timeline.EventsCarryTheirTime` | apps/api/src/shipments/shipments.service.ts:283-306 | What a call writes to the log is appended, at the time of the call, and names a known warehouse or none. |
| `Journeys.ListsAreTheRestOfTheWay` | apps/api/src/warehouse/warehouse.service.ts:1111-1326 | Each of the hand-written status lists behind the rollups is the rest of the journey from its first status on, with one exception that no service writes. |
| `Journeys.LaterListsAreSmaller` | apps/api/src/manifests/manifests.service.ts:1470-1625 | So a later list is contained in every earlier one. |
| `ReplaySteps.StepReplays` | apps/api/src/warehouse/warehouse.service.ts:696-699 | Every call keeps the log faithful, the direct warehouse updates of pickup, dispatch and return included. |
| `Findings.NothingFlaggedShips` | apps/api/src/warehouse/warehouse.service.ts:340-446 | Every item at PROCESSED or later has a latest inspection that is READY, undamaged and without exception, through unload, reassign and return cycles. |
| `Sequences.NumbersAreExactlyOneToN` | apps/api/src/shipments/shipments.service.ts:155-200 | The item numbers of a shipment are exactly 1..n, each once, manual events included. |
| `Snapshots.SnapshotIsTheCargo` | apps/api/src/manifests/manifests.service.ts:1083-1095 | Once finalized, a manifest's snapshot never changes and stays equal to its live cargo list, whatever runs afterwards. |
| `ShipmentsServices.ShipmentsService.Record` | apps/api/src/shipments/shipments.service.ts:283-357 | Refinement: the single status writer appends the event, updates the shipment and item columns in place and notifies: exactly the tables of its specification. |
| `ShipmentsServices.ShipmentsService.CreateTrackingEvent` | apps/api/src/shipments/shipments.service.ts:242-357 | Refinement: the public endpoint: its refusals in order, and the same writes. |
| `ShipmentsServices.ShipmentsService.Create` | apps/api/src/shipments/shipments.service.ts:110-170 | Refinement: creating a shipment with its items in a loop leaves the specified tables, or none. |
| `ShipmentsServices.ShipmentsService.AddItemTo` | apps/api/src/shipments/shipments.service.ts:182-203 | Refinement: adding an item numbers it after the existing ones, with no look at the shipment's status. |
| `ShipmentsServices.ShipmentsService.RecordCargo` | apps/api/src/containers/containers.service.ts:376-391 | Refinement: the loop over the active rows writes what the row-by-row specification does. |
| `ShipmentsServices.ShipmentsService.AffectedShipments` | apps/api/src/containers/containers.service.ts:393-396 | Refinement: the loop collects the distinct shipments aboard, in order of first appearance. |
| `ShipmentsServices.NotificationsService.FireShipmentStatusChanged` | apps/api/src/notifications/notifications.service.ts:116-173 | Refinement: dedupe by key, then at most one email by template and preference. |
| `WarehouseServices.WarehouseService.ReceiveItem` | apps/api/src/warehouse/warehouse.service.ts:228-287 | Refinement: only a REGISTERED item of a shipment that is not cancelled, at a known warehouse, becomes RECEIVED_ORIGIN_WAREHOUSE there, with event, first receipt and receiving rollup; every refusal, in the order of the checks, writes nothing. |
| `WarehouseServices.WarehouseService.ProcessItem` | apps/api/src/warehouse/warehouse.service.ts:297-470 | Refinement: processing and explicit reinspection at the item's own warehouse: READY gives PROCESSED and is refused for damaged or flagged items, anything else gives EXCEPTION; inspection row and processing rollup follow. |
| `WarehouseServices.WarehouseService.DestinationReceiveItem` | apps/api/src/warehouse/warehouse.service.ts:482-600 | Refinement: only an ARRIVED_DESTINATION item is received; a damaged or flagged one ends on EXCEPTION and keeps its old warehouse pointer; inspection row and ready-for-pickup rollup follow either way. |
| `WarehouseServices.WarehouseService.PickupItem` | apps/api/src/warehouse/warehouse.service.ts:624-732 | Refinement: a pickup at the warehouse holding the item clears its warehouse, records the handoff and runs the completion rollup only. |
| `WarehouseServices.WarehouseService.DispatchItem` | apps/api/src/warehouse/warehouse.service.ts:747-868 | Refinement: a dispatch needs a carrier before anything is looked up, clears the warehouse, records the handoff and runs the out-for-delivery rollup; where that leaves the shipment is Verdicts.SendOutMovesExactlyWhen. |
| `WarehouseServices.WarehouseService.DeliverItem` | apps/api/src/warehouse/warehouse.service.ts:883-985 | Refinement: a delivery of an OUT_FOR_DELIVERY item records the handoff before the delivered and then the completion rollup run. |
| `WarehouseServices.WarehouseService.ReturnItem` | apps/api/src/warehouse/warehouse.service.ts:1025-1092 | Refinement: a failed delivery puts the item back at the warehouse named, on RECEIVED_DESTINATION_WAREHOUSE or EXCEPTION, with no rollup. |
| `WarehouseServices.WarehouseService.MaybeRollupShipmentStatus` | apps/api/src/warehouse/warehouse.service.ts:1381-1415 | Refinement: from a pre-receiving status to WAREHOUSE_RECEIVED exactly when the shipment has items and all are received. |
| `WarehouseServices.WarehouseService.MaybeRollupToReadyForConsolidation` | apps/api/src/warehouse/warehouse.service.ts:1438-1504 | Refinement: up to PROCESSING on any activity, on to READY_FOR_CONSOLIDATION when all are processed, back when one no longer is; the second decision reads the status the first one wrote. |
| `WarehouseServices.WarehouseService.MaybeRollupReadyForPickup` | apps/api/src/warehouse/warehouse.service.ts:1111-1145 | Refinement: ARRIVED_DESTINATION to READY_FOR_PICKUP when every item that is not cancelled, and at least one, is at the destination. |
| `WarehouseServices.WarehouseService.MaybeRollupOutForDelivery` | apps/api/src/warehouse/warehouse.service.ts:1158-1193 | Refinement: to OUT_FOR_DELIVERY from either eligible status when every applicable item is dispatched or further; Verdicts.EveryCallGivesItsVerdict states the outcome apart from this rule. |
| `WarehouseServices.WarehouseService.MaybeRollupDelivered` | apps/api/src/warehouse/warehouse.service.ts:1209-1247 | Refinement: to DELIVERED from three eligible statuses when every applicable item is handed off. |
| `WarehouseServices.WarehouseService.MaybeRollupCompletion` | apps/api/src/warehouse/warehouse.service.ts:1287-1326 | Refinement: to COMPLETED from four eligible statuses when every applicable item is handed off. |
| `ContainersServices.ContainersService.LoadItem` | apps/api/src/containers/containers.service.ts:188-283 | Refinement: a PROCESSED item at the container's warehouse boards a BOOKED or LOADING container: event, new row, BOOKED to LOADING, rollup; refusals in order write nothing. Acceptance.StatusDecidesTransportCalls and Whereabouts.RidersStandWhereTheyStart state its guards and what they keep. |
| `ContainersServices.ContainersService.UnloadItem` | apps/api/src/containers/containers.service.ts:285-330 | Refinement: the item's active row is retired, the item is PROCESSED again, the container BOOKED again when that emptied it, and the rollup runs. |
| `ContainersServices.ContainersService.Finalize` | apps/api/src/containers/containers.service.ts:340-399 | Refinement: sealing locks every active row's item as LOADED in one loop and then rolls up each distinct shipment once. |
| `ContainersServices.ContainersService.MaybeRollupShipmentConsolidation` | apps/api/src/containers/containers.service.ts:456-523 | Refinement: CONSOLIDATED when an item is assigned or loaded here, back when none is, LOADED when all are exactly LOADED; nothing outside the two eligible statuses. |
| `ManifestsServices.ManifestsService.AssignContainerTo` | apps/api/src/manifests/manifests.service.ts:712-808 | Refinement: only a sealed, unassigned container joins a draft manifest that is not a flight; its items get an event and no status. |
| `ManifestsServices.ManifestsService.AssignItemTo` | apps/api/src/manifests/manifests.service.ts:867-951 | Refinement: only a PROCESSED item joins a draft flight: event, row, flight rollup; refusals in order write nothing. |
| `ManifestsServices.ManifestsService.UnassignItemFrom` | apps/api/src/manifests/manifests.service.ts:954-994 | Refinement: while the flight is a draft the active row is retired, the item is PROCESSED again and the rollup runs. |
| `ManifestsServices.ManifestsService.Finalize` | apps/api/src/manifests/manifests.service.ts:1008-1161 | Refinement: all checks come before any write; the snapshot is the list of active rows; a flight's items are locked as LOADED and rolled up, ocean cargo only gets a note. Progress.ManifestsMakeProgress spells the checks out. |
| `ManifestsServices.ManifestsService.DepartManifest` | apps/api/src/manifests/manifests.service.ts:1193-1317 | Refinement: re-checks containers and items, moves both one leg, then the manifest, then rolls up each distinct shipment. |
| `ManifestsServices.ManifestsService.ArriveManifest` | apps/api/src/manifests/manifests.service.ts:1336-1447 | Refinement: the same one leg further, with the item check on flights only. |
| `ManifestsServices.ManifestsService.MaybeRollupShipmentConsolidation` | apps/api/src/manifests/manifests.service.ts:1470-1534 | Refinement: CONSOLIDATED when an item is committed anywhere or further, back when none is, LOADED when all are loaded or further. |
| `ManifestsServices.ManifestsService.MaybeRollupShipmentDeparture` | apps/api/src/manifests/manifests.service.ts:1550-1580 | Refinement: CONSOLIDATED or LOADED to DEPARTED when every item has departed or gone further. |
| `ManifestsServices.ManifestsService.MaybeRollupShipmentArrival` | apps/api/src/manifests/manifests.service.ts:1596-1625 | Refinement: DEPARTED or IN_TRANSIT to ARRIVED_DESTINATION when every item has arrived or gone further. |
| `CargoApis.CargoApi.Handle` | apps/api/src/manifests/manifests.controller.ts:116-182 | Refinement: whichever service a call goes to, the tables end as the run semantics says and a refusal writes nothing. |
| `CargoApis.CargoApi.Serve` | apps/api/src/warehouse/warehouse.controller.ts:88-171 | Refinement: any stream of calls takes the tables along the run the theorems are about. |
| `PrintDocument.BuildFinalizeSnapshot` | apps/api/src/manifests/manifests.service.ts:465-561 | The accumulators of the snapshot builder compute the frozen rows, counts, distinct customers and per-unit weights. |
| `PrintDocument.BuildPrintDataFromLive` | apps/api/src/manifests/manifests.service.ts:223-286 | The live rendering computes its lines and the same totals. |
| `PrintDocument.SnapshotPrintsLikeLive` | apps/api/src/manifests/manifests.service.ts:304-357 | The snapshot printed right after finalize equals the document printed live right before: containers, lines, counts, weights. |
| `PrintRuns.PrintsWhatWasApproved` | apps/api/src/manifests/manifests.service.ts:651-665 | After finalize, whatever calls and edits of items, shipments and customers follow, the manifest prints what its draft printed right before: containers, counts, weights and every line field but description and quantity, which are the item's present ones. |
| `PrintRuns.EveryRunPrintsWhatWasApproved` | apps/api/src/manifests/manifests.service.ts:1083-1095 | The same for every run from empty tables: any acts, an accepted finalize, any acts. |
| `PrintRuns.SnapshotListsTheCargo` | apps/api/src/manifests/manifests.service.ts:465-561 | In every run, once finalized: the stored snapshot lists, in order, the containers and items the manifest carries now, and the approval of the cargo tables is its projection on each unit. |
| `PrintRuns.FinalizePrintsTheSame` | apps/api/src/manifests/manifests.service.ts:651-665 | The call of finalize itself changes nothing about the printed document, which is read live before and from the snapshot after. |
| `PrintDocument.BuildPrintDataFromSnapshot` | apps/api/src/manifests/manifests.service.ts:304-357 | Rows are gathered from the snapshot, then each becomes a line with description and quantity looked up by id. |
| `PrintServices.PrintTables.GetPrintDocument` | apps/api/src/manifests/manifests.service.ts:651-665 | Refinement: from the snapshot if there is one, live otherwise, not found for an unknown manifest. |
| `PrintServices.PrintTables.HandleCargo` | apps/api/src/manifests/manifests.service.ts:1008-1095 | Refinement: the snapshot is built from the rows before the call and stored if the call is accepted; new rows get their texts, processing its measured weight. |
| `PrintServices.PrintTables.UpdateItemText` | apps/api/src/shipments/shipments.service.ts:205-214 | Refinement: the given fields of an item of this shipment change, whatever its status. |
| `PrintServices.PrintTables.Update` | apps/api/src/shipments/shipments.service.ts:172-179 | Refinement: the given destination of a shipment changes. |
| `PrintServices.PrintTables.UpdateCustomerName` | apps/api/src/customers/customers.service.ts:55-61 | Refinement: the name of a known customer changes. |
| `PrintDocument.WeightsNeverMix` | apps/api/src/manifests/manifests.service.ts:258-260 | The weight printed for a unit is the sum of the weights given in that unit, and no other unit is listed. |
| `PrintLaws.DraftsPrintTheirCargo` | apps/api/src/manifests/manifests.service.ts:223-286 | In every office a draft prints a head for each listed container and a line for each listed item, in order: the code reads back to tracking number and position, every other field is the one on record, and counts, distinct customers and weights are those of the listed items. |
| `PrintLaws.DraftsListWhatRides` | apps/api/src/manifests/manifests.service.ts:256-277 | In every run of calls and edits: an item is listed exactly when it has an active row on the flight or in a container of the manifest. |
| `PrintLaws.ListedExactlyWhenAboard` | apps/api/src/manifests/manifests.service.ts:256-277 | In every office: the container a listed item is shown in is the one it rides. |
| `PrintLaws.LabelJoinsWhatThereIs` | apps/api/src/manifests/manifests.service.ts:213-215 | The destination joins what there is of location and country. |
| `PrintLaws.ItemIsEditedExactlyThroughItsShipment` | apps/api/src/shipments/shipments.service.ts:205-214 | An item is edited exactly through its own shipment, the given fields change, the others stay, and so does every other row. |
| `PrintLaws.DestinationsAreEdited` | apps/api/src/shipments/shipments.service.ts:172-179 | A destination is changed for a shipment on file, if one is given, and nothing else. |
| `PrintLaws.NamesAreKept` | apps/api/src/customers/customers.service.ts:48-61 | A name is given to a new customer or changed for a known one, and nothing else. |
| `PrintLaws.CargoCallsKeepTexts` | apps/api/src/warehouse/warehouse.service.ts:419-427 | A cargo call is taken exactly when the cargo tables take it and a new shipment's customer is known; no text changes but the weight that processing measures. |
| `Payments.MoneyIsConserved` | apps/api/src/payments/payments.service.ts:103-314 | Over every run, for what was booked: amountPaid is the smaller of total and the sum of COMPLETED payments, PAID exactly when a positive total is collected, PARTIALLY_PAID exactly in between, at most one PENDING online payment of an invoice. Charges that were never booked are in no sum; the next rows say which. |
| `OnlineSessions.ChargeIsCollectedUnlessSuperseded` | apps/api/src/payments/payments.service.ts:285-314 | Over every run and session: reporting it as paid leaves its payment COMPLETED if and only if the session is known and was not superseded; a first report then adds the charge to the collected sum, every other one leaves the books as they are. |
| `OnlineSessions.SessionFate` | apps/api/src/payments/payments.service.ts:191-314 | Over every run: an online payment is FAILED exactly when a later checkout of its invoice passed the three guards before the session was reported as paid, COMPLETED exactly when it was reported and not superseded, PENDING otherwise. |
| `OnlineSessions.SessionChargesTheBalance` | apps/api/src/payments/payments.service.ts:204-240 | Over every run: when a session becomes known, its charge and what is paid already make the total of its invoice. |
| `OnlineSessions.ReportPaysTheInvoice` | apps/api/src/payments/payments.service.ts:285-314 | Over every run: the report of a session that was not superseded makes its invoice PAID, and what is collected is the total and the manual payments accepted since the checkout; exactly the total if and only if there was none. |
| `OnlineSessions.ChargeFillsUp` | apps/api/src/payments/payments.service.ts:204-250 | While a session is pending, its charge fills what is collected up to the total, and past it by exactly what was paid manually meanwhile. |
| `Invoicing.EveryLineCounts` | apps/api/src/invoices/invoices.service.ts:94-107 | Over every run: one more line adds exactly its quantity times its price to the total, and is accepted if and only if both are positive and neither it nor the new total exceeds 9,999,999,999.99. |
| `Invoicing.EmptyInvoiceIsTheTax` | apps/api/src/invoices/invoices.service.ts:101-107 | Over every run: an invoice without lines comes to its tax. |
| `Invoicing.InvoicesAdd` | apps/api/src/invoices/invoices.service.ts:101-103 | The lines of two invoices on one, with one tax, come to both totals together. |
| `Invoicing.TotalsNeverChange` | apps/api/src/invoices/invoices.service.ts:116-145 | Whatever is called afterwards, an invoice keeps the total it was created with. |
| `Invoicing.IssuedExactlyOnce` | apps/api/src/invoices/invoices.service.ts:192-212 | Over every run: an invoice is issued once, and stays issued. |
| `Invoicing.PaymentIsTakenExactlyWhen` | apps/api/src/payments/payments.service.ts:103-161 | Over every run: a manual payment is accepted if and only if the invoice is issued, the amount positive and no more than what is missing; then it adds its amount, else nothing changes. |
| `Invoicing.CheckoutOpensExactlyWhen` | apps/api/src/payments/payments.service.ts:191-250 | Over every run: a checkout opens if and only if the invoice is issued, something is missing, the provider answers and the session is new. |
| `Invoicing.RefusalsSayWhy` | apps/api/src/payments/payments.service.ts:103-128 | In every state: which refusal each call of the desk gives. |
| `OnlineSessions.SupersededChargeIsLost` | apps/api/src/payments/payments.service.ts:269-297 | The input that defeats the promise of keeping every completed charge: two checkouts of one invoice, then the first one is paid; its session is known and the books do not change. |
| `Payments.CheckoutKeeps` | apps/api/src/payments/payments.service.ts:191-250 | Superseding and opening a checkout keeps the books sound, also when the provider fails in between. |
| `Payments.CompleteKeeps` | apps/api/src/payments/payments.service.ts:285-314 | Completing keeps them sound, clamped against a manual payment recorded meanwhile. |
| `PaymentsServices.InvoicesService.Create` | apps/api/src/invoices/invoices.service.ts:75-155 | Refinement: totals are summed in a loop and checked against the column's range before anything is written; what they come to is Invoicing.EveryLineCounts and Invoicing.EmptyInvoiceIsTheTax. |
| `PaymentsServices.InvoicesService.IssueInvoice` | apps/api/src/invoices/invoices.service.ts:192-212 | Refinement: DRAFT to SENT, or a refusal. |
| `PaymentsServices.PaymentsService.Record` | apps/api/src/payments/payments.service.ts:103-161 | Refinement: a positive amount within the balance of a payable invoice is booked and the invoice becomes PAID exactly at its total; refusals write nothing. |
| `PaymentsServices.PaymentsService.CreateOnlineCheckoutSession` | apps/api/src/payments/payments.service.ts:191-250 | Refinement: the pending session is given up before the new one is opened, so a provider that fails leaves the old one FAILED and no new one; what a session charges is OnlineSessions.SessionChargesTheBalance. |
| `PaymentsServices.PaymentsService.CompleteOnlinePayment` | apps/api/src/payments/payments.service.ts:285-314 | Refinement: unknown, completed and superseded sessions are left alone; a pending one is applied. |
| `Provisioning.TenantsAreProvisionedOnce` | apps/api/src/tenant-provisioning/tenant-provisioning.service.ts:73-188 | Over all runs: completed signups map one to one to existing tenants, slugs and Stripe subscriptions are distinct, and the recorded redemptions of a promo never exceed its cap. |
| `Provisioning.OnePriceEverywhere` | apps/api/src/saas-plans/saas-plans.service.ts:62-101 | At any one time the lookup of the checkout and the lookup of the webhook find the same price row, because at most one price of a plan is active. At two times they may not: see the next rows. |
| `Charging.CountedIsChargedExactlyWhen` | apps/api/src/signup/signup.service.ts:116-164 | In every run: the price row on a new subscription is the one its customer was charged for at checkout if and only if no price of the plan was created, and that row not deactivated, between checkout and webhook. |
| `Charging.PromoIsCountedExactlyWhen` | apps/api/src/subscriptions/subscriptions.service.ts:113-130 | A customer charged the promo price is counted as a redemption if and only if that row was not replaced meanwhile and its window is open and its cap not reached when the webhook is handled. |
| `Charging.ActivatedIsChargedExactlyWhen` | apps/api/src/onboarding/onboarding.service.ts:189-219 | The same exact condition for a trial tenant that starts to pay. |
| `Charging.LookupsAgreeExactlyWhen` | apps/api/src/saas-plans/saas-plans.service.ts:99-101 | Over every run and plan, for a lookup at one time and one at a later time. |
| `Charging.ChargedIsNotAlwaysCounted` | apps/api/src/subscriptions/subscriptions.service.ts:113-130 | A run in which row 0 is charged and row 1 is recorded and counted. |
| `Charging.MorePromosThanTheCap` | apps/api/src/saas-plans/promo-pricing.util.ts:22-28 | A run in which two customers are charged a promo with one redemption left, and one is counted. |
| `Promos.RedemptionsAreCounted` | apps/api/src/tenant-provisioning/tenant-provisioning.service.ts:200-232 | Over every run: the redemption count of a price row is the number of visits in which a tenant, from a signup or a trial, started to pay on it while its promo was in force. |
| `Promos.RowsChargeAsCreated` | apps/api/src/saas-plans/promo-pricing.util.ts:22-43 | Over every run: a row asks the promo amounts it was created with exactly while that promo is switched on, its window open and its cap not reached, and its regular ones otherwise; a promo without a setup fee keeps the regular fee. |
| `Promos.TermsAreAsCreated` | apps/api/src/saas-plans/saas-plans.service.ts:62-88 | Over every run: a price row keeps the terms of the creation that made it, which named an existing plan. |
| `Signups.DetailsAreTakenExactlyWhenOpen` | apps/api/src/signup/signup.service.ts:185-208 | In every state: owner and company are written exactly while the session is neither completed nor lapsed, and nothing else is. |
| `Signups.CheckoutIsTakenExactlyWhen` | apps/api/src/signup/signup.service.ts:116-164 | Over every run: a checkout is accepted exactly for an open session with owner and company whose plan has a price in force, if a trial's tenant id is free or the provider answers. |
| `Signups.WebhookFailsExactlyWhen` | apps/api/src/tenant-provisioning/tenant-provisioning.service.ts:73-137 | In every state: a paid signup that is still waiting fails exactly for missing details or a taken tenant id. |
| `Signups.TenantsFollowTheirSession` | apps/api/src/tenant-provisioning/tenant-provisioning.service.ts:100-137 | Over every run: no session waits for payment or is completed without owner and company, and the tenant of a completed one is subscribed to the session's own plan. |
| `Signups.SessionsLapseExactlyWhen` | apps/api/src/signup/signup.service.ts:185-197 | Every visit, in every state: a session keeps its plan and its end, and is found lapsed exactly by the customer's visits after it, unless completed. |
| `Signups.SessionsLastTwoDays` | apps/api/src/signup/signup.service.ts:37-52 | Over every run: each session was started on its plan, and ends 48 hours after. |
| `Signups.RefusalsSayWhy` | apps/api/src/signup/signup.service.ts:116-208 | In every state: which refusal a signup or price request gives. |
| `Slugs.GenerateUniqueSlug` | apps/api/src/tenant-provisioning/tenant-provisioning.service.ts:361-372 | The search loop ends, at a free slug. |
| `Slugs.SlugIsFirstFree` | apps/api/src/tenant-provisioning/tenant-provisioning.service.ts:361-372 | It is the first free one of base, base-2, base-3 and so on. |
| `ProvisioningServices.TenantProvisioningService.ProvisionFromSignupSession` | apps/api/src/tenant-provisioning/tenant-provisioning.service.ts:73-137 | Refinement: a completed session or an attached subscription is a no-op, in that order; otherwise tenant, subscription, promo count and completion are written together or not at all. |
| `ProvisioningServices.TenantProvisioningService.ProvisionTrialFromSignupSession` | apps/api/src/tenant-provisioning/tenant-provisioning.service.ts:148-188 | Refinement: a completed session is a no-op, an incomplete one refused, any other gets its trial tenant with no Stripe subscription. |
| `ProvisioningServices.TenantProvisioningService.ActivateTrialSubscription` | apps/api/src/tenant-provisioning/tenant-provisioning.service.ts:200-242 | Refinement: only a tenant without a Stripe subscription is activated, and only by one no tenant has; the promo is counted with it. |
| `ProvisioningServices.TenantProvisioningService.CreateTenantCore` | apps/api/src/tenant-provisioning/tenant-provisioning.service.ts:256-309 | Refinement: tenant, subscription row and completed session, or nothing. |
| `ProvisioningServices.SubscriptionsService.HandleCheckoutCompleted` | apps/api/src/subscriptions/subscriptions.service.ts:79-130 | Refinement: activation first, then signup, with the price in force when the event is handled. |
| `ProvisioningServices.SignupService.CreateCheckoutSession` | apps/api/src/signup/signup.service.ts:116-164 | Refinement: trial plans are provisioned at once, others wait for payment; refusals in order. |
| `ProvisioningServices.SignupService.RequireEditableSession` | apps/api/src/signup/signup.service.ts:185-208 | Refinement: an overdue session is marked EXPIRED even though the request is refused. |
| `ProvisioningServices.SaasPlansService.AddPrice` | apps/api/src/saas-plans/saas-plans.service.ts:62-88 | Refinement: a new active price deactivates the plan's others. |
| `Webhooks.EffectsAreExactlyOnce` | apps/api/src/webhooks/webhooks.controller.ts:70-101 | Any interleaving of operations and deliveries, repeated or cut short before or after the handler, ends as if only first deliveries had run, provided an event names rows that exist, or a subscription already attached, when it is first handled. That the condition is exact is shown next. |
| `LateRows.ReadyExactlyWhenNeverRepeated` | apps/api/src/webhooks/webhooks.controller.ts:70-101 | For every kind of event and every sound state of a platform with a plan to sell: the condition holds if and only if no handling can be followed by operations after which handling the event again has an effect. |
| `LateRows.UnreadyRunsDiverge` | apps/api/src/webhooks/stripe-webhook-ledger.service.ts:8-42 | After any run that meets the condition, a next event that does not can be continued into a run whose effects differ from exactly once. |
| `Webhooks.StreamsAreExactlyOnce` | apps/api/src/webhooks/stripe-webhook-ledger.service.ts:8-42 | A stream of deliveries alone, repeated or cut short, has its effects exactly once from any sound state, whether the rows its events name exist or not. |
| `LateRows.UnknownSessionIsHandledTwice` | apps/api/src/payments/payments.service.ts:285-297 | From every state: a payment event handled while its session is unknown, left unmarked and delivered again after the checkout is recorded, pays the invoice. |
| `LateRows.UnknownTokenIsHandledTwice` | apps/api/src/subscriptions/subscriptions.service.ts:101-130 | From every state: a paid signup handled while its session is unknown makes the tenant when it is delivered again after the session is filled in. |
| `LateRows.UnknownTenantIsHandledTwice` | apps/api/src/subscriptions/subscriptions.service.ts:85-99 | From every sound state: an activation handled while its tenant is unknown attaches its subscription when it is delivered again after the tenant started a trial. |
| `Webhooks.HandlingSettles` | apps/api/src/tenant-provisioning/tenant-provisioning.service.ts:86-96 | One handling leaves nothing for another to do. |
| `Webhooks.OperatedKeeps` | apps/api/src/payments/payments.service.ts:285-297 | No later operation gives a settled event something to do again. |
| `WebhooksControllers.WebhooksController.HandleStripeWebhook` | apps/api/src/webhooks/webhooks.controller.ts:57-104 | Refinement: check the ledger, handle, mark last: exactly one step of the modelled world, crash points included. |
| `WebhooksControllers.StripeWebhookLedgerService.MarkProcessed` | apps/api/src/webhooks/stripe-webhook-ledger.service.ts:29-42 | Refinement: marking twice is no error. |
| `Conversations.HistoryIsTheLogsTail` | apps/api/src/public-ai-agent/conversation-store.service.ts:56-64 | A conversation that is still there has the last 6 messages of its full log, and there are never more than 2000. |
| `ConversationLives.HeldExactlyWhileActive` | apps/api/src/public-ai-agent/conversation-store.service.ts:38-82 | Whatever the order of uses and whatever the clock does: an id is held if and only if its last creation or message was never found more than thirty minutes old and the cap has not evicted it, and what is held carries the time of that activity. |
| `Conversations.CapEvictsTheOldest` | apps/api/src/public-ai-agent/conversation-store.service.ts:75-82 | Eviction removes only the least recently active. |
| `Conversations.CreateLosesOwnIdExactlyWhen` | apps/api/src/public-ai-agent/conversation-store.service.ts:38-44 | A fresh id is evicted by its own creation exactly when the store is full of conversations active later than now. |
| `Conversations.CreateKeepsItsId` | apps/api/src/public-ai-agent/conversation-store.service.ts:38-44 | With a clock that never goes back that does not happen. |
| `Conversations.PublicAgentConversationStore.Create` | apps/api/src/public-ai-agent/conversation-store.service.ts:38-44 | Refinement: sweep, set, cap: exactly the specified entries. |
| `Conversations.PublicAgentConversationStore.Append` | apps/api/src/public-ai-agent/conversation-store.service.ts:56-64 | Refinement: push, trim to six, stamp. |
| `Conversations.PublicAgentConversationStore.EnforceCap` | apps/api/src/public-ai-agent/conversation-store.service.ts:75-82 | Refinement: the deletions leave the specified survivors. |
| `Conversations.PublicAgentConversationStore.CleanupExpired` | apps/api/src/public-ai-agent/conversation-store.service.ts:66-73 | Refinement: only entries older than thirty minutes go. |
| `Numbering.TrackingNumberReadsBack` | packages/shared/src/constants.ts:27-29 | Prefix, year and sequence are recovered for every prefix and every natural number, past the pad width too. |
| `Numbering.ItemCodeReadsBack` | packages/shared/src/constants.ts:41-43 | Tracking number and position are recovered from the item code. |
| `Numbering.ItemCodesAreUnique` | apps/api/src/shipments/shipments.service.ts:365-394 | Distinct tracking numbers give globally distinct item codes in every run. |
| `Callbacks.FinalIsTheStrongest` | apps/api/src/notifications/notifications.service.ts:470-505 | READ if it was read, else FAILED if it failed, else unchanged. |
| `Callbacks.OrderAndRepetitionDoNotMatter` | apps/api/src/notifications/notifications.service.ts:470-505 | Reordering and repeating callbacks changes nothing. |
| `Callbacks.NotificationsTable.UpdateWhatsAppStatusFromWebhook` | apps/api/src/notifications/notifications.service.ts:470-505 | Refinement: one callback in place. |
| `WarehouseServices.WarehouseService.LeaveWarehouse` | apps/api/src/warehouse/warehouse.service.ts:696-723 | Refinement: the three writes of a pickup or dispatch: event, no warehouse, handoff record. |
| `ShipmentsServices.NotificationsService.GetOrCreateEvent` | apps/api/src/notifications/notifications.service.ts:601-632 | Refinement: a new dedupe key adds exactly one notice; a known one changes nothing and says so. |
| `ShipmentsServices.NotificationsService.NotifyCustomer` | apps/api/src/notifications/notifications.service.ts:634-690 | Refinement: an email exactly when the customer wants one and the content is not suppressed. |
| `ContainersServices.ContainersService.Create` | apps/api/src/containers/containers.service.ts:122-155 | Refinement: a new container is BOOKED and on no manifest; a known number is refused. |
| `ContainersServices.ContainersService.OpenForUnloading` | apps/api/src/containers/containers.service.ts:408-429 | Refinement: ARRIVED to UNLOADING and nothing else. |
| `ContainersServices.ContainersService.CloseUnloading` | apps/api/src/containers/containers.service.ts:431-441 | Refinement: UNLOADING to CLOSED and nothing else. |
| `ManifestsServices.ManifestsService.Create` | apps/api/src/manifests/manifests.service.ts:570-607 | Refinement: a new manifest is a draft without a snapshot. |
| `ManifestsServices.ManifestsService.UnassignContainerFrom` | apps/api/src/manifests/manifests.service.ts:812-858 | Refinement: only a container of this draft manifest leaves it; its items get an event and no status. |
| `ManifestsServices.ManifestsService.UpdateContainers` | apps/api/src/manifests/manifests.service.ts:1294-1297 | Refinement: exactly the containers of the manifest take the status, whatever order the loop visits them in. |
| `ManifestsServices.ManifestsService.ListApprovedCargo` | apps/api/src/manifests/manifests.service.ts:465-561 | Refinement: which cargo is frozen: each active row of the manifest, in order, and no other. What is kept of a row is PrintDocument.BuildFinalizeSnapshot's part. |
| `ProvisioningServices.SignupService.StartSignup` | apps/api/src/signup/signup.service.ts:37-52 | Refinement: a new session is a draft for an available plan and expires 48 hours later. |
| `ProvisioningServices.SignupService.SetOwnerDetails` | apps/api/src/signup/signup.service.ts:54-72 | Refinement: owner details are written to an editable session only. |
| `ProvisioningServices.SignupService.SetCompanyDetails` | apps/api/src/signup/signup.service.ts:74-96 | Refinement: company details are written to an editable session only. |
| `ProvisioningServices.SaasPlansService.Deactivate` | apps/api/src/saas-plans/saas-plans.service.ts:90-96 | Refinement: a price of the plan is switched off and nothing else changes. |
| `ProvisioningServices.SaasPlansService.FindActivePriceForPlan` | apps/api/src/saas-plans/saas-plans.service.ts:99-101 | Refinement: the active price created last, if there is one. |
| `WebhooksControllers.StripeWebhookLedgerService.HasProcessed` | apps/api/src/webhooks/stripe-webhook-ledger.service.ts:24-27 | Refinement: true exactly for marked events. |
| `Conversations.PublicAgentConversationStore.Has` | apps/api/src/public-ai-agent/conversation-store.service.ts:47-50 | Refinement: true exactly for ids that survive the sweep. |
| `Conversations.PublicAgentConversationStore.GetHistory` | apps/api/src/public-ai-agent/conversation-store.service.ts:52-54 | Refinement: the stored messages, or none. |

## Left out

- Atomicity: operations over many rows (seal, finalize, depart, arrive) are one step here; the source
  does not wrap them in one transaction, and crashes and races inside them are not modelled.
- Order of bulk writes: rows are visited in table order, and a manifest's containers are updated after
  its items; the source goes container by container. The resulting tables differ only in event order.
- Tables: rows of containers and of flights share one link table, told apart by their unit; actors, notes,
  seal numbers and timestamps other than the first receipt are dropped, and so are display fields that no
  printed manifest shows.
- Other tenants: one tenant's tables; every query of the source is scoped to one.
- Internal lookups: the services call the writer after their own lookups, so its lookups are repeated
  only for the public endpoint.
- Fresh ids are drawn by the database; here they are parameters, and a clash is refused.
- Customers: their email preference is fixed for each shipment; in-app, SMS and WhatsApp messages are
  not counted, and a failing provider is not modelled.
- Route checks and driver lookups appear as parameters that can refuse a call.
- The public tracking-event endpoint may write any status; it is a step of its own, excluded where a
  statement says so, since nothing about the lifecycle survives it.
- Container disruptions, searches, lists and printing layout. A customer's two names are one text.
- The printed header: tenant, transport and date fields are read live and hold no cargo.
- Printed order: containers and rows are read in the order of their tables; the source asks for none.
- Invoices: currency, due dates, the displayed OVERDUE status and fractions of a cent; no code writes
  OVERDUE or VOID. Refunds do not exist in the source.
- Stripe, email, storage and the language model are reduced to the results that matter as parameters.
- Signup: password hashing, the text of names and their slugging; a session is found by the token in the
  event, not by the provider's session id. Subscription status, periods and grace clocks are left out,
  and so are the events that only change them.
- Opening an activation checkout writes nothing, so it is a condition on the tables and no step of its own.
- Conversation ids are random in the source and parameters here; the sort that picks what to evict is
  modelled as repeatedly removing its first element.
- WhatsApp read times: of two read callbacks with different times the later delivered one wins.
- Document, lead, analytics, onboarding and hostname features have no part in these properties.
