/** ContainersService: loading, sealing and opening containers, with its consolidation rollup. */
module ContainersServices {
  import opened Basics
  import opened Statuses
  import opened CargoState
  import opened CargoSteps
  import opened ShipmentsServices
  import opened WarehouseServices

  class ContainersService {
    const db: Database
    const shipments: ShipmentsService

    constructor (db: Database, shipments: ShipmentsService)
      requires shipments.Wired() && shipments.db == db
      ensures this.db == db && this.shipments == shipments && Wired()
    {
      this.db := db;
      this.shipments := shipments;
    }

    ghost predicate Wired() {
      shipments.Wired() && shipments.db == db
    }

    method Create(c: ContainerId, wh: Option<WarehouseId>) returns (r: Result<()>)
      requires Wf(db.View())
      modifies db
      ensures Follows(old(db.View()), CreateContainer(old(db.View()), c, wh), db.View(), r)
    {
      if wh != None && wh.value !in db.warehouses {
        return Err(NotFound);
      }
      if c in db.containers {
        return Err(Conflict);
      }
      db.containers := db.containers[c := Container(ContainerStatus.Booked, wh, None)];
      r := Ok(());
    }

    method LoadItem(c: ContainerId, i: ItemId, now: Time) returns (r: Result<()>)
      requires Wired() && Wf(db.View())
      modifies db
      ensures Follows(old(db.View()), Load(old(db.View()), c, i, now), db.View(), r)
    {
      hide Roll, Rolled, Track, TrackItem;
      if c !in db.containers {
        return Err(NotFound);
      }
      var container := db.containers[c];
      if !Accepting(container.status) {
        return Err(Conflict);
      }
      if container.warehouse == None {
        return Err(Conflict);
      }
      if i !in db.items {
        return Err(NotFound);
      }
      var item := db.items[i];
      if db.shipments[item.shipment].status == ShipmentStatus.Cancelled {
        return Err(Conflict);
      }
      if item.status != ItemStatus.Processed {
        return Err(Conflict);
      }
      if item.warehouse != container.warehouse {
        return Err(Conflict);
      }
      shipments.RecordItem(i, EventType.AssignedToContainer, Some(ItemStatus.AssignedToContainer), container.warehouse, now);
      db.links := db.links + [Link(InContainer(c), item.shipment, i, true)];
      if container.status == ContainerStatus.Booked {
        db.containers := db.containers[c := container.(status := ContainerStatus.Loading)];
      }
      MaybeRollupShipmentConsolidation(item.shipment, now);
      r := Ok(());
    }

    method UnloadItem(c: ContainerId, i: ItemId, now: Time) returns (r: Result<()>)
      requires Wired() && Wf(db.View())
      modifies db
      ensures Follows(old(db.View()), Unload(old(db.View()), c, i, now), db.View(), r)
    {
      hide Roll, Rolled, Track, TrackItem;
      if c !in db.containers {
        return Err(NotFound);
      }
      var container := db.containers[c];
      if !Accepting(container.status) {
        return Err(Conflict);
      }
      var k := shipments.FindActiveRow(InContainer(c), i);
      if k == |db.links| {
        return Err(NotFound);
      }
      var containerItem := db.links[k];
      db.links := db.links[k := containerItem.(active := false)];
      shipments.RecordItem(i, EventType.RemovedFromContainer, Some(ItemStatus.Processed), None, now);
      if NobodyAboard(db.links, {InContainer(c)}) && container.status == ContainerStatus.Loading {
        db.containers := db.containers[c := container.(status := ContainerStatus.Booked)];
      }
      MaybeRollupShipmentConsolidation(containerItem.shipment, now);
      r := Ok(());
    }

    method Finalize(c: ContainerId, now: Time) returns (r: Result<()>)
      requires Wired() && Wf(db.View())
      modifies db
      ensures Follows(old(db.View()), Seal(old(db.View()), c, now), db.View(), r)
    {
      hide Roll, TrackCargo, RollAll;
      if c !in db.containers {
        return Err(NotFound);
      }
      var container := db.containers[c];
      if container.status != ContainerStatus.Loading {
        return Err(Conflict);
      }
      var units := {InContainer(c)};
      if NobodyAboard(db.links, units) {
        return Err(BadRequest);
      }
      db.containers := db.containers[c := container.(status := ContainerStatus.Loaded)];
      shipments.RecordCargo(units, EventType.Loaded, Some(ItemStatus.Loaded), container.warehouse, now);
      RollUpAffected(units, now);
      r := Ok(());
    }

    method RollUpAffected(units: set<Unit>, now: Time)
      requires Wired() && Wf(db.View())
      modifies db
      ensures db.View() == RollAffected(old(db.View()), ContainerRollup, units, now)
    {
      hide Roll, Wf;
      ghost var start := db.View();
      var affected := shipments.AffectedShipments(units);
      AffectedExist(start, units);
      for k := 0 to |affected|
        invariant db.View() == RollAll(start, ContainerRollup, affected[..k], now)
      {
        assert affected[..k + 1][..k] == affected[..k];
        assert affected[k] in affected;
        MaybeRollupShipmentConsolidation(affected[k], now);
      }
      assert affected[..|affected|] == affected;
    }

    method OpenForUnloading(c: ContainerId) returns (r: Result<()>)
      requires Wf(db.View())
      modifies db
      ensures Follows(old(db.View()), OpenContainer(old(db.View()), c), db.View(), r)
    {
      if c !in db.containers {
        return Err(NotFound);
      }
      if db.containers[c].status != ContainerStatus.Arrived {
        return Err(Conflict);
      }
      db.containers := db.containers[c := db.containers[c].(status := Unloading)];
      r := Ok(());
    }

    method CloseUnloading(c: ContainerId) returns (r: Result<()>)
      requires Wf(db.View())
      modifies db
      ensures Follows(old(db.View()), CloseContainer(old(db.View()), c), db.View(), r)
    {
      if c !in db.containers {
        return Err(NotFound);
      }
      if db.containers[c].status != Unloading {
        return Err(Conflict);
      }
      db.containers := db.containers[c := db.containers[c].(status := Closed)];
      r := Ok(());
    }

    method MaybeRollupShipmentConsolidation(sh: ShipmentId, now: Time)
      requires Wired() && sh in db.shipments
      modifies db
      ensures db.View() == Roll(old(db.View()), ContainerRollup, sh, now)
    {
      hide Track;
      if !HasItems(db.items, sh) {
        return;
      }
      var currentStatus := db.shipments[sh].status;
      if currentStatus != ReadyForConsolidation && currentStatus != ShipmentStatus.Consolidated {
        return;
      }
      ghost var start := db.View();
      ghost var first: seq<Move> := [];
      var anyAssignedOrLoaded := AnyInContainer(db.items, sh);
      if currentStatus == ReadyForConsolidation && anyAssignedOrLoaded {
        first := [Move(EventType.Consolidated, ShipmentStatus.Consolidated)];
        shipments.RecordStatus(sh, EventType.Consolidated, ShipmentStatus.Consolidated, now);
        currentStatus := ShipmentStatus.Consolidated;
      } else if currentStatus == ShipmentStatus.Consolidated && !anyAssignedOrLoaded {
        first := [Move(EventType.RemovedFromContainer, ReadyForConsolidation)];
        shipments.RecordStatus(sh, EventType.RemovedFromContainer, ReadyForConsolidation, now);
        currentStatus := ReadyForConsolidation;
      }
      if first != [] { AdvanceWhen(start, sh, true, first[0].kind, first[0].status, now); }
      var allLoaded := AllExactlyLoaded(db.items, sh);
      if currentStatus == ShipmentStatus.Consolidated && allLoaded {
        AdvanceAppended(start, sh, first, Move(EventType.Loaded, ShipmentStatus.Loaded), now);
        shipments.RecordStatus(sh, EventType.Loaded, ShipmentStatus.Loaded, now);
      }
    }
  }

  lemma AffectedExist(s: State, units: set<Unit>)
    requires Wf(s)
    ensures forall sh :: sh in Affected(s.links, |s.links|, units) ==> sh in s.shipments
  {
  }
}
