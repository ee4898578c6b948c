/** ManifestsService: assignment, finalize, depart and arrive, with its three rollups. */
module ManifestsServices {
  import opened Basics
  import opened Statuses
  import opened CargoState
  import opened CargoSteps
  import opened ShipmentsServices
  import opened WarehouseServices
  import opened ContainersServices

  class ManifestsService {
    const db: Database
    const shipments: ShipmentsService

    constructor (db: Database, shipments: ShipmentsService)
      requires shipments.Wired() && shipments.db == db
      ensures this.db == db && this.shipments == shipments && Wired()
    {
      this.db := db;
      this.shipments := shipments;
    }

    ghost predicate Wired() {
      shipments.Wired() && shipments.db == db
    }

    method Create(m: ManifestId, mode: ShipmentMode, wh: Option<WarehouseId>, transport: Transport) returns (r: Result<()>)
      requires Wf(db.View())
      modifies db
      ensures Follows(old(db.View()), CreateManifest(old(db.View()), m, mode, wh, transport), db.View(), r)
    {
      if wh != None && wh.value !in db.warehouses {
        return Err(NotFound);
      }
      if m in db.manifests {
        return Err(Conflict);
      }
      db.manifests := db.manifests[m := Manifest(ManifestStatus.Draft, mode, wh, transport, None)];
      r := Ok(());
    }

    method AssignContainerTo(m: ManifestId, c: ContainerId, routeConflict: bool, now: Time) returns (r: Result<()>)
      requires Wired() && Wf(db.View())
      modifies db
      ensures Follows(old(db.View()), AssignContainer(old(db.View()), m, c, routeConflict, now), db.View(), r)
    {
      hide TrackCargo;
      if m !in db.manifests {
        return Err(NotFound);
      }
      var manifest := db.manifests[m];
      if manifest.status != ManifestStatus.Draft {
        return Err(Conflict);
      }
      if manifest.mode == Air {
        return Err(Conflict);
      }
      if c !in db.containers {
        return Err(NotFound);
      }
      var container := db.containers[c];
      if container.status != ContainerStatus.Loaded {
        return Err(Conflict);
      }
      if container.manifest != None {
        return Err(Conflict);
      }
      if manifest.originWarehouse != None && container.warehouse != manifest.originWarehouse {
        return Err(Conflict);
      }
      if routeConflict {
        return Err(Conflict);
      }
      db.containers := db.containers[c := container.(manifest := Some(m))];
      shipments.RecordCargo({InContainer(c)}, EventType.AssignedToManifest, None, None, now);
      r := Ok(());
    }

    method UnassignContainerFrom(m: ManifestId, c: ContainerId, now: Time) returns (r: Result<()>)
      requires Wired() && Wf(db.View())
      modifies db
      ensures Follows(old(db.View()), UnassignContainer(old(db.View()), m, c, now), db.View(), r)
    {
      hide TrackCargo;
      if m !in db.manifests {
        return Err(NotFound);
      }
      if db.manifests[m].status != ManifestStatus.Draft {
        return Err(Conflict);
      }
      if c !in db.containers || db.containers[c].manifest != Some(m) {
        return Err(NotFound);
      }
      db.containers := db.containers[c := db.containers[c].(manifest := None)];
      shipments.RecordCargo({InContainer(c)}, EventType.RemovedFromManifest, None, None, now);
      r := Ok(());
    }

    method AssignItemTo(m: ManifestId, i: ItemId, routeConflict: bool, now: Time) returns (r: Result<()>)
      requires Wired() && Wf(db.View())
      modifies db
      ensures Follows(old(db.View()), AssignItem(old(db.View()), m, i, routeConflict, now), db.View(), r)
    {
      hide Roll, Rolled, Track, TrackItem;
      if m !in db.manifests {
        return Err(NotFound);
      }
      var manifest := db.manifests[m];
      if manifest.status != ManifestStatus.Draft {
        return Err(Conflict);
      }
      if manifest.mode != Air {
        return Err(Conflict);
      }
      if i !in db.items {
        return Err(NotFound);
      }
      var item := db.items[i];
      if db.shipments[item.shipment].status == ShipmentStatus.Cancelled {
        return Err(Conflict);
      }
      if item.status != ItemStatus.Processed {
        return Err(Conflict);
      }
      if manifest.originWarehouse != None && item.warehouse != manifest.originWarehouse {
        return Err(Conflict);
      }
      if routeConflict {
        return Err(Conflict);
      }
      shipments.RecordItem(i, EventType.AssignedToManifest, Some(ItemStatus.AssignedToManifest), None, now);
      db.links := db.links + [Link(OnManifest(m), item.shipment, i, true)];
      MaybeRollupShipmentConsolidation(item.shipment, now);
      r := Ok(());
    }

    method UnassignItemFrom(m: ManifestId, i: ItemId, now: Time) returns (r: Result<()>)
      requires Wired() && Wf(db.View())
      modifies db
      ensures Follows(old(db.View()), UnassignItem(old(db.View()), m, i, now), db.View(), r)
    {
      hide Roll, Rolled, Track, TrackItem;
      if m !in db.manifests {
        return Err(NotFound);
      }
      if db.manifests[m].status != ManifestStatus.Draft {
        return Err(Conflict);
      }
      var k := shipments.FindActiveRow(OnManifest(m), i);
      if k == |db.links| {
        return Err(NotFound);
      }
      var manifestItem := db.links[k];
      db.links := db.links[k := manifestItem.(active := false)];
      shipments.RecordItem(i, EventType.RemovedFromManifest, Some(ItemStatus.Processed), None, now);
      MaybeRollupShipmentConsolidation(manifestItem.shipment, now);
      r := Ok(());
    }

    // Which cargo is to be frozen, row by row. What is kept of each row is up to PrintDocument.
    method ListApprovedCargo(units: set<Unit>) returns (frozen: Approval)
      ensures frozen == ApprovedCargo(db.links, |db.links|, units)
    {
      frozen := [];
      for k := 0 to |db.links|
        invariant frozen == ApprovedCargo(db.links, k, units)
      {
        if Carries(db.links[k], units) {
          frozen := frozen + [(db.links[k].unit, db.links[k].item)];
        }
      }
    }

    method Finalize(m: ManifestId, now: Time) returns (r: Result<()>)
      requires Wired() && Wf(db.View())
      modifies db
      ensures Follows(old(db.View()), FinalizeManifest(old(db.View()), m, now), db.View(), r)
    {
      hide TrackCargo, RollAffected, ApprovedCargo, EmptyManifest, ContainersAre, CargoIs;
      if m !in db.manifests {
        return Err(NotFound);
      }
      var manifest := db.manifests[m];
      if manifest.status != ManifestStatus.Draft {
        return Err(Conflict);
      }
      if !TransportComplete(manifest) {
        return Err(BadRequest);
      }
      if EmptyManifest(db.containers, db.links, m, manifest) {
        return Err(BadRequest);
      }
      var isAir := manifest.mode == Air;
      var units := UnitsOf(db.View(), m);
      if isAir {
        if !CargoIs(db.View(), units, ItemStatus.AssignedToManifest) {
          return Err(Conflict);
        }
      } else if !ContainersAre(db.View(), m, ContainerStatus.Loaded) || !CargoIs(db.View(), units, ItemStatus.Loaded) {
        return Err(Conflict);
      }
      var snapshot := ListApprovedCargo(units);
      db.manifests := db.manifests[m := manifest.(status := Finalized, snapshot := Some(snapshot))];
      if isAir {
        shipments.RecordCargo(units, EventType.Loaded, Some(ItemStatus.Loaded), None, now);
        RollUpAffected(ManifestRollup, units, now);
      } else {
        shipments.RecordCargo(units, NoteAdded, None, None, now);
      }
      r := Ok(());
    }

    // Every container of the manifest takes the status, one row at a time.
    method UpdateContainers(m: ManifestId, st: ContainerStatus)
      modifies db
      ensures db.View() == MoveContainers(old(db.View()), m, st)
    {
      ghost var start := db.View();
      var left: set<ContainerId> := set c | c in db.containers && db.containers[c].manifest == Some(m);
      while left != {}
        invariant db.View() == start.(containers := db.containers)
        invariant db.containers.Keys == start.containers.Keys
        invariant forall c :: c in left ==>
          c in start.containers && start.containers[c].manifest == Some(m) && db.containers[c] == start.containers[c]
        invariant forall c :: c in start.containers && c !in left ==>
          db.containers[c] ==
            if start.containers[c].manifest == Some(m) then start.containers[c].(status := st) else start.containers[c]
        decreases |left|
      {
        var c :| c in left;
        db.containers := db.containers[c := db.containers[c].(status := st)];
        left := left - {c};
      }
      assert db.containers == MoveContainers(start, m, st).containers;
    }

    method DepartManifest(m: ManifestId, now: Time) returns (r: Result<()>)
      requires Wired() && Wf(db.View())
      modifies db
      ensures Follows(old(db.View()), Depart(old(db.View()), m, now), db.View(), r)
    {
      hide TrackCargo, RollAffected, EmptyManifest, ContainersAre, CargoIs, UnitsOf, MoveContainers;
      if m !in db.manifests {
        return Err(NotFound);
      }
      var manifest := db.manifests[m];
      if manifest.status != Finalized {
        return Err(Conflict);
      }
      if EmptyManifest(db.containers, db.links, m, manifest) {
        return Err(Conflict);
      }
      var isAir := manifest.mode == Air;
      var units := UnitsOf(db.View(), m);
      if !isAir && !ContainersAre(db.View(), m, ContainerStatus.Loaded) {
        return Err(Conflict);
      }
      if !CargoIs(db.View(), units, ItemStatus.Loaded) {
        return Err(Conflict);
      }
      shipments.RecordCargo(units, EventType.DepartedOrigin, Some(ItemStatus.DepartedOrigin), None, now);
      if !isAir {
        UpdateContainers(m, ContainerStatus.Departed);
      }
      ghost var moved := db.View();
      db.manifests := db.manifests[m := manifest.(status := ManifestStatus.Departed)];
      assert db.View() == SetManifest(moved, m, manifest.(status := ManifestStatus.Departed));
      RollUpAffected(DepartureRollup, units, now);
      r := Ok(());
    }

    method ArriveManifest(m: ManifestId, now: Time) returns (r: Result<()>)
      requires Wired() && Wf(db.View())
      modifies db
      ensures Follows(old(db.View()), Arrive(old(db.View()), m, now), db.View(), r)
    {
      hide TrackCargo, RollAffected, EmptyManifest, ContainersAre, CargoIs, UnitsOf, MoveContainers;
      if m !in db.manifests {
        return Err(NotFound);
      }
      var manifest := db.manifests[m];
      if manifest.status != ManifestStatus.Departed {
        return Err(Conflict);
      }
      if EmptyManifest(db.containers, db.links, m, manifest) {
        return Err(Conflict);
      }
      var isAir := manifest.mode == Air;
      var units := UnitsOf(db.View(), m);
      if isAir && !CargoIs(db.View(), units, ItemStatus.DepartedOrigin) {
        return Err(Conflict);
      }
      if !isAir && !ContainersAre(db.View(), m, ContainerStatus.Departed) {
        return Err(Conflict);
      }
      shipments.RecordCargo(units, EventType.ArrivedDestination, Some(ItemStatus.ArrivedDestination), None, now);
      if !isAir {
        UpdateContainers(m, ContainerStatus.Arrived);
      }
      ghost var moved := db.View();
      db.manifests := db.manifests[m := manifest.(status := ManifestStatus.Arrived)];
      assert db.View() == SetManifest(moved, m, manifest.(status := ManifestStatus.Arrived));
      RollUpAffected(ArrivalRollup, units, now);
      r := Ok(());
    }

    // One of this service's rollups for every affected shipment.
    method RollUpAffected(rollup: Rollup, units: set<Unit>, now: Time)
      requires Wired() && Wf(db.View()) && (rollup.ManifestRollup? || rollup.DepartureRollup? || rollup.ArrivalRollup?)
      modifies db
      ensures db.View() == RollAffected(old(db.View()), rollup, units, now)
    {
      hide Roll, Rolled, Wf, Affected;
      ghost var start := db.View();
      var affected := shipments.AffectedShipments(units);
      AffectedExist(start, units);
      for k := 0 to |affected|
        invariant db.View() == RollAll(start, rollup, affected[..k], now)
      {
        assert affected[..k + 1][..k] == affected[..k];
        assert affected[k] in affected;
        match rollup {
          case ManifestRollup => MaybeRollupShipmentConsolidation(affected[k], now);
          case DepartureRollup => MaybeRollupShipmentDeparture(affected[k], now);
          case ArrivalRollup => MaybeRollupShipmentArrival(affected[k], now);
        }
      }
      assert affected[..|affected|] == affected;
    }

    method MaybeRollupShipmentConsolidation(sh: ShipmentId, now: Time)
      requires Wired() && sh in db.shipments
      modifies db
      ensures db.View() == Roll(old(db.View()), ManifestRollup, sh, now)
    {
      hide Track;
      if !HasItems(db.items, sh) {
        return;
      }
      var currentStatus := db.shipments[sh].status;
      if currentStatus != ReadyForConsolidation && currentStatus != ShipmentStatus.Consolidated {
        return;
      }
      ghost var start := db.View();
      ghost var first: seq<Move> := [];
      var anyCommitted := AnyReached(db.items, sh, AtLeastCommitted);
      if currentStatus == ReadyForConsolidation && anyCommitted {
        first := [Move(EventType.Consolidated, ShipmentStatus.Consolidated)];
        shipments.RecordStatus(sh, EventType.Consolidated, ShipmentStatus.Consolidated, now);
        currentStatus := ShipmentStatus.Consolidated;
      } else if currentStatus == ShipmentStatus.Consolidated && !anyCommitted {
        first := [Move(EventType.RemovedFromManifest, ReadyForConsolidation)];
        shipments.RecordStatus(sh, EventType.RemovedFromManifest, ReadyForConsolidation, now);
        currentStatus := ReadyForConsolidation;
      }
      if first != [] { AdvanceWhen(start, sh, true, first[0].kind, first[0].status, now); }
      var allLoaded := AllReached(db.items, sh, AtLeastLoaded);
      if currentStatus == ShipmentStatus.Consolidated && allLoaded {
        AdvanceAppended(start, sh, first, Move(EventType.Loaded, ShipmentStatus.Loaded), now);
        shipments.RecordStatus(sh, EventType.Loaded, ShipmentStatus.Loaded, now);
      }
    }

    method MaybeRollupShipmentDeparture(sh: ShipmentId, now: Time)
      requires Wired() && sh in db.shipments
      modifies db
      ensures db.View() == Roll(old(db.View()), DepartureRollup, sh, now)
    {
      var st := db.shipments[sh].status;
      var eligible := st == ShipmentStatus.Consolidated || st == ShipmentStatus.Loaded;
      var allDeparted := AllReached(db.items, sh, AtLeastDeparted);
      AdvanceWhen(db.View(), sh, eligible && allDeparted, EventType.DepartedOrigin, ShipmentStatus.Departed, now);
      if !HasItems(db.items, sh) || !eligible || !allDeparted {
        return;
      }
      shipments.RecordStatus(sh, EventType.DepartedOrigin, ShipmentStatus.Departed, now);
    }

    method MaybeRollupShipmentArrival(sh: ShipmentId, now: Time)
      requires Wired() && sh in db.shipments
      modifies db
      ensures db.View() == Roll(old(db.View()), ArrivalRollup, sh, now)
    {
      var st := db.shipments[sh].status;
      var eligible := st == ShipmentStatus.Departed || st == ShipmentStatus.InTransit;
      var allArrived := AllReached(db.items, sh, AtLeastArrived);
      AdvanceWhen(db.View(), sh, eligible && allArrived, EventType.ArrivedDestination, ShipmentStatus.ArrivedDestination, now);
      if !HasItems(db.items, sh) || !eligible || !allArrived {
        return;
      }
      shipments.RecordStatus(sh, EventType.ArrivedDestination, ShipmentStatus.ArrivedDestination, now);
    }
  }
}
