/** WarehouseService: receiving, inspection and the last mile, with its six shipment rollups. */
module WarehouseServices {
  import opened Basics
  import opened Statuses
  import opened CargoState
  import opened CargoSteps
  import opened ShipmentsServices

  // A rollup's events are written one by one, the last one on top of all the others.
  lemma {:induction false} AdvanceAppended(s: State, sh: ShipmentId, moves: seq<Move>, m: Move, now: Time)
    requires sh in s.shipments
    ensures Advance(s, sh, moves + [m], now) ==
      Track(Advance(s, sh, moves, now), StatusEvent(sh, m.kind, m.status, now), None)
    decreases |moves|
  {
    if moves == [] {
      assert [m][1..] == [];
      assert moves + [m] == [m];
    } else {
      AdvanceAppended(Track(s, StatusEvent(sh, moves[0].kind, moves[0].status, now), None), sh, moves[1..], m, now);
      assert (moves + [m])[1..] == moves[1..] + [m];
    }
  }

  lemma AdvanceWhen(s: State, sh: ShipmentId, condition: bool, kind: EventType, st: ShipmentStatus, now: Time)
    requires sh in s.shipments
    ensures Advance(s, sh, When(condition, kind, st), now) ==
      if condition then Track(s, StatusEvent(sh, kind, st, now), None) else s
  {
    AdvanceAppended(s, sh, [], Move(kind, st), now);
    assert [] + [Move(kind, st)] == [Move(kind, st)];
  }

  class WarehouseService {
    const db: Database
    const shipments: ShipmentsService

    constructor (db: Database, shipments: ShipmentsService)
      requires shipments.Wired() && shipments.db == db
      ensures this.db == db && this.shipments == shipments && Wired()
    {
      this.db := db;
      this.shipments := shipments;
    }

    ghost predicate Wired() {
      shipments.Wired() && shipments.db == db
    }

    method ReceiveItem(i: ItemId, wh: WarehouseId, now: Time) returns (r: Result<()>)
      requires Wired() && Wf(db.View())
      modifies db
      ensures Follows(old(db.View()), Receive(old(db.View()), i, wh, now), db.View(), r)
    {
      hide Roll, Rolled, Track, TrackItem;
      if i !in db.items {
        return Err(NotFound);
      }
      var item := db.items[i];
      assert item.shipment in db.shipments;
      hide Wf;
      if db.shipments[item.shipment].status == ShipmentStatus.Cancelled {
        return Err(Conflict);
      }
      if item.status != Registered {
        return Err(Conflict);
      }
      if wh !in db.warehouses {
        return Err(NotFound);
      }
      shipments.RecordItem(i, EventType.ReceivedAtWarehouse, Some(ReceivedOriginWarehouse), Some(wh), now);
      MaybeRollupShipmentStatus(item.shipment, now);
      r := Ok(());
    }

    method ProcessItem(i: ItemId, wh: WarehouseId, reinspection: bool, f: Finding, now: Time) returns (r: Result<()>)
      requires Wired() && Wf(db.View())
      modifies db
      ensures Follows(old(db.View()), Process(old(db.View()), i, wh, reinspection, f, now), db.View(), r)
    {
      hide Roll, Rolled, Track, TrackItem;
      if i !in db.items {
        return Err(NotFound);
      }
      var item := db.items[i];
      assert item.shipment in db.shipments;
      hide Wf;
      if db.shipments[item.shipment].status == ShipmentStatus.Cancelled {
        return Err(Conflict);
      }
      var inspectedBefore := item.status == ItemStatus.Processed || item.status == ItemStatus.Exception;
      if inspectedBefore && !reinspection {
        return Err(Conflict);
      }
      if !inspectedBefore && item.status != ReceivedOriginWarehouse {
        return Err(Conflict);
      }
      if wh !in db.warehouses {
        return Err(NotFound);
      }
      if item.warehouse != Some(wh) {
        return Err(Conflict);
      }
      if f.hasException && !f.described {
        return Err(BadRequest);
      }
      if f.ready && (f.hasException || f.damaged) {
        return Err(BadRequest);
      }
      if f.ready {
        shipments.RecordItem(i, EventType.Processed, Some(ItemStatus.Processed), Some(wh), now);
      } else {
        shipments.RecordItem(i, EventType.Exception, Some(ItemStatus.Exception), Some(wh), now);
      }
      db.inspections := db.inspections + [Inspection(i, f.ready, f.damaged, f.hasException)];
      MaybeRollupToReadyForConsolidation(item.shipment, now);
      r := Ok(());
    }

    method DestinationReceiveItem(i: ItemId, wh: WarehouseId, damaged: bool, hasException: bool, described: bool, now: Time)
      returns (r: Result<()>)
      requires Wired() && Wf(db.View())
      modifies db
      ensures Follows(old(db.View()), DestinationReceive(old(db.View()), i, wh, damaged, hasException, described, now),
                      db.View(), r)
    {
      hide Roll, Rolled, Track, TrackItem;
      if i !in db.items {
        return Err(NotFound);
      }
      var item := db.items[i];
      assert item.shipment in db.shipments;
      hide Wf;
      if db.shipments[item.shipment].status == ShipmentStatus.Cancelled {
        return Err(Conflict);
      }
      if item.status != ItemStatus.ArrivedDestination {
        return Err(Conflict);
      }
      if wh !in db.warehouses {
        return Err(NotFound);
      }
      if hasException && !described {
        return Err(BadRequest);
      }
      var isGood := !hasException && !damaged;
      if isGood {
        shipments.RecordItem(i, EventType.ReceivedDestinationWarehouse, Some(ItemStatus.ReceivedDestinationWarehouse),
                             Some(wh), now);
      } else {
        shipments.RecordItem(i, EventType.Exception, Some(ItemStatus.Exception), Some(wh), now);
      }
      db.inspections := db.inspections + [Inspection(i, isGood, damaged, hasException)];
      MaybeRollupReadyForPickup(item.shipment, now);
      r := Ok(());
    }

    // The item leaves the building: its event, no current warehouse any more, and the handoff record.
    method LeaveWarehouse(i: ItemId, kind: EventType, st: ItemStatus, wh: WarehouseId, handoff: HandoffType, now: Time)
      requires Wired() && i in db.items && db.items[i].shipment in db.shipments
      modifies db
      ensures db.View() ==
        HandOver(SetWarehouse(TrackItem(old(db.View()), i, kind, Some(st), Some(wh), now), i, None), i, handoff)
    {
      shipments.RecordItem(i, kind, Some(st), Some(wh), now);
      db.items := db.items[i := db.items[i].(warehouse := None)];
      db.handoffs := db.handoffs + [Handoff(db.items[i].shipment, i, handoff)];
    }

    method PickupItem(i: ItemId, wh: WarehouseId, now: Time) returns (r: Result<()>)
      requires Wired() && Wf(db.View())
      modifies db
      ensures Follows(old(db.View()), PickUp(old(db.View()), i, wh, now), db.View(), r)
    {
      hide Roll, Rolled, Track, TrackItem;
      if i !in db.items {
        return Err(NotFound);
      }
      var item := db.items[i];
      assert item.shipment in db.shipments;
      hide Wf;
      if db.shipments[item.shipment].status == ShipmentStatus.Cancelled {
        return Err(Conflict);
      }
      if item.status != ItemStatus.ReceivedDestinationWarehouse {
        return Err(Conflict);
      }
      if wh !in db.warehouses {
        return Err(NotFound);
      }
      if item.warehouse != Some(wh) {
        return Err(Conflict);
      }
      LeaveWarehouse(i, EventType.PickedUp, ItemStatus.PickedUp, wh, Pickup, now);
      MaybeRollupCompletion(item.shipment, now);
      r := Ok(());
    }

    method DispatchItem(i: ItemId, wh: WarehouseId, carrier: Carrier, now: Time) returns (r: Result<()>)
      requires Wired() && Wf(db.View())
      modifies db
      ensures Follows(old(db.View()), SendOut(old(db.View()), i, wh, carrier, now), db.View(), r)
    {
      hide Roll, Rolled, Track, TrackItem;
      if carrier == Nobody {
        return Err(BadRequest);
      }
      if i !in db.items {
        return Err(NotFound);
      }
      var item := db.items[i];
      assert item.shipment in db.shipments;
      hide Wf;
      if db.shipments[item.shipment].status == ShipmentStatus.Cancelled {
        return Err(Conflict);
      }
      if item.status != ItemStatus.ReceivedDestinationWarehouse {
        return Err(Conflict);
      }
      if wh !in db.warehouses {
        return Err(NotFound);
      }
      if item.warehouse != Some(wh) {
        return Err(Conflict);
      }
      if carrier == UnknownDriver {
        return Err(NotFound);
      }
      LeaveWarehouse(i, EventType.OutForDelivery, ItemStatus.OutForDelivery, wh, Dispatch, now);
      MaybeRollupOutForDelivery(item.shipment, now);
      r := Ok(());
    }

    method DeliverItem(i: ItemId, wh: WarehouseId, carrier: Carrier, now: Time) returns (r: Result<()>)
      requires Wired() && Wf(db.View())
      modifies db
      ensures Follows(old(db.View()), Deliver(old(db.View()), i, wh, carrier, now), db.View(), r)
    {
      hide Roll, Rolled, Track, TrackItem;
      if i !in db.items {
        return Err(NotFound);
      }
      var item := db.items[i];
      assert item.shipment in db.shipments;
      hide Wf;
      if db.shipments[item.shipment].status == ShipmentStatus.Cancelled {
        return Err(Conflict);
      }
      if item.status != ItemStatus.OutForDelivery {
        return Err(Conflict);
      }
      if wh !in db.warehouses {
        return Err(NotFound);
      }
      if carrier == UnknownDriver {
        return Err(NotFound);
      }
      shipments.RecordItem(i, EventType.Delivered, Some(ItemStatus.Delivered), Some(wh), now);
      db.handoffs := db.handoffs + [Handoff(item.shipment, i, Delivery)];
      MaybeRollupDelivered(item.shipment, now);
      MaybeRollupCompletion(item.shipment, now);
      r := Ok(());
    }

    method ReturnItem(i: ItemId, wh: WarehouseId, hasException: bool, now: Time) returns (r: Result<()>)
      requires Wired() && Wf(db.View())
      modifies db
      ensures Follows(old(db.View()), Return(old(db.View()), i, wh, hasException, now), db.View(), r)
    {
      hide Roll, Rolled, Track, TrackItem;
      if i !in db.items {
        return Err(NotFound);
      }
      var item := db.items[i];
      assert item.shipment in db.shipments;
      hide Wf;
      if db.shipments[item.shipment].status == ShipmentStatus.Cancelled {
        return Err(Conflict);
      }
      if item.status != ItemStatus.OutForDelivery {
        return Err(Conflict);
      }
      if wh !in db.warehouses {
        return Err(NotFound);
      }
      if hasException {
        shipments.RecordItem(i, EventType.Exception, Some(ItemStatus.Exception), Some(wh), now);
      } else {
        shipments.RecordItem(i, ReturnedToWarehouse, Some(ItemStatus.ReceivedDestinationWarehouse), Some(wh), now);
      }
      db.items := db.items[i := db.items[i].(warehouse := Some(wh))];
      r := Ok(());
    }

    // --- Rollups --------------------------------------------------------------------------

    method MaybeRollupShipmentStatus(sh: ShipmentId, now: Time)
      requires Wired() && sh in db.shipments
      modifies db
      ensures db.View() == Roll(old(db.View()), ReceivingRollup, sh, now)
    {
      var st := db.shipments[sh].status;
      ghost var all := PreReceiving(st) && AllReceived(db.items, sh);
      AdvanceWhen(db.View(), sh, all, EventType.ReceivedAtWarehouse, WarehouseReceived, now);
      if !HasItems(db.items, sh) {
        return;
      }
      if !PreReceiving(st) {
        return;
      }
      if !AllReceived(db.items, sh) {
        return;
      }
      shipments.RecordStatus(sh, EventType.ReceivedAtWarehouse, WarehouseReceived, now);
    }

    method MaybeRollupToReadyForConsolidation(sh: ShipmentId, now: Time)
      requires Wired() && sh in db.shipments
      modifies db
      ensures db.View() == Roll(old(db.View()), ProcessingRollup, sh, now)
    {
      if !HasItems(db.items, sh) {
        return;
      }
      var currentStatus := db.shipments[sh].status;
      if currentStatus != WarehouseReceived && currentStatus != Processing && currentStatus != ReadyForConsolidation {
        return;
      }
      var anyProcessingActivity := AnyProcessingActivity(db.items, sh);
      ghost var start := currentStatus == WarehouseReceived && anyProcessingActivity;
      ghost var first := When(start, EventType.Processed, ShipmentStatus.Processing);
      AdvanceWhen(db.View(), sh, start, EventType.Processed, ShipmentStatus.Processing, now);
      if currentStatus == WarehouseReceived && anyProcessingActivity {
        shipments.RecordStatus(sh, EventType.Processed, Processing, now);
        currentStatus := Processing;
      }
      var allProcessed := AllReached(db.items, sh, AtLeastProcessed);
      if currentStatus == Processing && allProcessed {
        AdvanceAppended(old(db.View()), sh, first, Move(EventType.Processed, ReadyForConsolidation), now);
        shipments.RecordStatus(sh, EventType.Processed, ReadyForConsolidation, now);
      } else if currentStatus == ReadyForConsolidation && !allProcessed {
        AdvanceAppended(old(db.View()), sh, first, Move(EventType.Exception, ShipmentStatus.Processing), now);
        shipments.RecordStatus(sh, EventType.Exception, Processing, now);
      }
    }

    method MaybeRollupReadyForPickup(sh: ShipmentId, now: Time)
      requires Wired() && sh in db.shipments
      modifies db
      ensures db.View() == Roll(old(db.View()), ReadyForPickupRollup, sh, now)
    {
      var st := db.shipments[sh].status;
      var allAtDestination := ApplicableReached(db.items, sh, AtLeastAtDestination);
      AdvanceWhen(db.View(), sh, st.ArrivedDestination? && allAtDestination,
                  EventType.ReadyForPickup, ShipmentStatus.ReadyForPickup, now);
      if !HasItems(db.items, sh) || st != ShipmentStatus.ArrivedDestination || !allAtDestination {
        return;
      }
      shipments.RecordStatus(sh, EventType.ReadyForPickup, ShipmentStatus.ReadyForPickup, now);
    }

    method MaybeRollupOutForDelivery(sh: ShipmentId, now: Time)
      requires Wired() && sh in db.shipments
      modifies db
      ensures db.View() == Roll(old(db.View()), OutForDeliveryRollup, sh, now)
    {
      var st := db.shipments[sh].status;
      var eligible := st == ShipmentStatus.ArrivedDestination || st == ShipmentStatus.ReadyForPickup;
      var allOut := ApplicableReached(db.items, sh, AtLeastOutForDelivery);
      AdvanceWhen(db.View(), sh, eligible && allOut, EventType.OutForDelivery, ShipmentStatus.OutForDelivery, now);
      if !HasItems(db.items, sh) || !eligible || !allOut {
        return;
      }
      shipments.RecordStatus(sh, EventType.OutForDelivery, ShipmentStatus.OutForDelivery, now);
    }

    method MaybeRollupDelivered(sh: ShipmentId, now: Time)
      requires Wired() && sh in db.shipments
      modifies db
      ensures db.View() == Roll(old(db.View()), DeliveredRollup, sh, now)
    {
      var st := db.shipments[sh].status;
      var eligible := st == ShipmentStatus.ArrivedDestination || st == ShipmentStatus.ReadyForPickup
        || st == ShipmentStatus.OutForDelivery;
      var allHandedOff := ApplicableReached(db.items, sh, HandedOff);
      AdvanceWhen(db.View(), sh, eligible && allHandedOff, EventType.Delivered, ShipmentStatus.Delivered, now);
      if !HasItems(db.items, sh) || !eligible || !allHandedOff {
        return;
      }
      shipments.RecordStatus(sh, EventType.Delivered, ShipmentStatus.Delivered, now);
    }

    method MaybeRollupCompletion(sh: ShipmentId, now: Time)
      requires Wired() && sh in db.shipments
      modifies db
      ensures db.View() == Roll(old(db.View()), CompletionRollup, sh, now)
    {
      var st := db.shipments[sh].status;
      var eligible := st == ShipmentStatus.ArrivedDestination || st == ShipmentStatus.ReadyForPickup
        || st == ShipmentStatus.OutForDelivery || st == ShipmentStatus.Delivered;
      var allHandedOff := ApplicableReached(db.items, sh, HandedOff);
      AdvanceWhen(db.View(), sh, eligible && allHandedOff, EventType.Completed, ShipmentStatus.Completed, now);
      if !HasItems(db.items, sh) || !eligible || !allHandedOff {
        return;
      }
      shipments.RecordStatus(sh, EventType.Completed, ShipmentStatus.Completed, now);
    }
  }
}
