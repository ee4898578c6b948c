/** Every event carries the time of the call that caused it, and names a known warehouse or none. */
module Timeline {
  import opened Basics
  import opened Statuses
  import opened CargoState
  import opened CargoSteps
  import opened CargoRuns
  import opened CargoEffects
  import opened Whereabouts

  predicate Marked(e: Event, warehouses: set<WarehouseId>, now: Time) {
    e.at == now && (e.warehouse.Some? ==> e.warehouse.value in warehouses)
  }

  // The log goes on with events of this time.
  ghost predicate Continues(before: seq<Event>, after: seq<Event>, warehouses: set<WarehouseId>, now: Time) {
    before <= after && forall n :: |before| <= n < |after| ==> Marked(after[n], warehouses, now)
  }

  lemma ContinuesOn(a: seq<Event>, b: seq<Event>, c: seq<Event>, warehouses: set<WarehouseId>, now: Time)
    requires Continues(a, b, warehouses, now) && Continues(b, c, warehouses, now)
    ensures Continues(a, c, warehouses, now)
  {
  }

  lemma OneEventContinues(events: seq<Event>, e: Event, warehouses: set<WarehouseId>, now: Time)
    requires Marked(e, warehouses, now)
    ensures Continues(events, events + [e], warehouses, now)
  {
  }

  lemma {:induction false} AdvanceContinues(s: State, sh: ShipmentId, moves: seq<Move>, now: Time, warehouses: set<WarehouseId>)
    requires sh in s.shipments
    ensures Continues(s.events, Advance(s, sh, moves, now).events, warehouses, now)
    decreases |moves|
  {
    hide Continues, Notify;
    if moves == [] {
      NothingNew(s.events, warehouses, now);
    } else {
      var e := StatusEvent(sh, moves[0].kind, moves[0].status, now);
      OneEventContinues(s.events, e, warehouses, now);
      AdvanceContinues(Track(s, e, None), sh, moves[1..], now, warehouses);
      ContinuesOn(s.events, Track(s, e, None).events, Advance(s, sh, moves, now).events, warehouses, now);
    }
  }

  lemma NothingNew(events: seq<Event>, warehouses: set<WarehouseId>, now: Time)
    ensures Continues(events, events, warehouses, now)
  {
  }

  lemma RollContinues(s: State, rollup: Rollup, sh: ShipmentId, now: Time, warehouses: set<WarehouseId>)
    requires sh in s.shipments
    ensures Continues(s.events, Roll(s, rollup, sh, now).events, warehouses, now)
  {
    AdvanceContinues(s, sh, Moves(rollup, s.items, sh, s.shipments[sh].status), now, warehouses);
  }

  lemma {:induction false} RollAllContinues(s: State, rollup: Rollup, shs: seq<ShipmentId>, now: Time, warehouses: set<WarehouseId>)
    requires forall sh :: sh in shs ==> sh in s.shipments
    ensures Continues(s.events, RollAll(s, rollup, shs, now).events, warehouses, now)
  {
    hide Continues, Roll;
    if shs == [] {
      NothingNew(s.events, warehouses, now);
    } else {
      var n := |shs| - 1;
      RollAllContinues(s, rollup, shs[..n], now, warehouses);
      RollContinues(RollAll(s, rollup, shs[..n], now), rollup, shs[n], now, warehouses);
      ContinuesOn(s.events, RollAll(s, rollup, shs[..n], now).events, RollAll(s, rollup, shs, now).events, warehouses, now);
    }
  }

  lemma RollAffectedContinues(s: State, rollup: Rollup, units: set<Unit>, now: Time, warehouses: set<WarehouseId>)
    requires Wf(s)
    ensures Continues(s.events, RollAffected(s, rollup, units, now).events, warehouses, now)
  {
    RollAllContinues(s, rollup, Affected(s.links, |s.links|, units), now, warehouses);
  }

  // An item event, then a rollup on whatever else changed.
  lemma EventThenRollContinues(s: State, s2: State, rollup: Rollup, i: ItemId, kind: EventType, wh: Option<WarehouseId>,
                               sh: ShipmentId, now: Time, warehouses: set<WarehouseId>)
    requires i in s.items && sh in s2.shipments && (wh.Some? ==> wh.value in warehouses)
    requires s2.events == s.events + [ItemEvent(s, i, kind, wh, now)]
    ensures Continues(s.events, Roll(s2, rollup, sh, now).events, warehouses, now)
  {
    hide Continues, Roll;
    OneEventContinues(s.events, ItemEvent(s, i, kind, wh, now), warehouses, now);
    RollContinues(s2, rollup, sh, now, warehouses);
    ContinuesOn(s.events, s2.events, Roll(s2, rollup, sh, now).events, warehouses, now);
  }

  lemma {:induction false} CargoContinues(s: State, units: set<Unit>, n: nat, kind: EventType, itemStatus: Option<ItemStatus>,
                                          wh: Option<WarehouseId>, now: Time, warehouses: set<WarehouseId>)
    requires n <= |s.links| && Wf(s) && !Receiving(kind) && (wh.Some? ==> wh.value in warehouses)
    ensures Continues(s.events, TrackCargo(s, units, n, kind, itemStatus, wh, now).events, warehouses, now)
  {
    hide Continues, TrackItem, Receiving, Aboard, Carries;
    if n == 0 {
      NothingNew(s.events, warehouses, now);
    } else {
      var before := TrackCargo(s, units, n - 1, kind, itemStatus, wh, now);
      CargoContinues(s, units, n - 1, kind, itemStatus, wh, now, warehouses);
      if Carries(s.links[n - 1], units) {
        OneEventContinues(before.events, ItemEvent(before, s.links[n - 1].item, kind, wh, now), warehouses, now);
        ContinuesOn(s.events, before.events, TrackCargo(s, units, n, kind, itemStatus, wh, now).events, warehouses, now);
      }
    }
  }

  lemma {:induction false} CreationContinues(s: State, sh: ShipmentId, ids: seq<ItemId>, now: Time, warehouses: set<WarehouseId>)
    requires sh in s.shipments
    ensures Continues(s.events, CreateItems(s, sh, ids, now).events, warehouses, now)
  {
    hide Continues;
    if ids == [] {
      NothingNew(s.events, warehouses, now);
    } else {
      var n := |ids| - 1;
      var before := CreateItems(s, sh, ids[..n], now);
      CreationContinues(s, sh, ids[..n], now, warehouses);
      OneEventContinues(before.events, Event(sh, Some(ids[n]), ItemRegistered, None, None, now), warehouses, now);
      ContinuesOn(s.events, before.events, CreateItems(s, sh, ids, now).events, warehouses, now);
    }
  }

  // --- Call by call -----------------------------------------------------------------------------

  lemma InspectionContinues(s: State, t: State, call: Call)
    requires Wf(s) && Try(s, call) == Ok(t)
    requires call.step.ReceiveStep? || call.step.ProcessStep? || call.step.DestinationReceiveStep?
    ensures Continues(s.events, t.events, s.warehouses, call.now)
  {
    hide Continues, Roll, TrackItem;
    var now := call.now;
    match call.step {
      case ReceiveStep(i, wh) =>
        var s1 := TrackItem(s, i, EventType.ReceivedAtWarehouse, Some(ReceivedOriginWarehouse), Some(wh), now);
        EventThenRollContinues(s, s1, ReceivingRollup, i, EventType.ReceivedAtWarehouse, Some(wh), s.items[i].shipment, now,
                               s.warehouses);
      case ProcessStep(i, wh, _, f) =>
        var kind := if f.ready then EventType.Processed else EventType.Exception;
        var st := if f.ready then ItemStatus.Processed else ItemStatus.Exception;
        var s1 := TrackItem(s, i, kind, Some(st), Some(wh), now);
        var s2 := s1.(inspections := s1.inspections + [Inspection(i, f.ready, f.damaged, f.hasException)]);
        EventThenRollContinues(s, s2, ProcessingRollup, i, kind, Some(wh), s.items[i].shipment, now, s.warehouses);
      case DestinationReceiveStep(i, wh, damaged, flagged, _) =>
        var good := !flagged && !damaged;
        var kind := if good then EventType.ReceivedDestinationWarehouse else EventType.Exception;
        var st := if good then ItemStatus.ReceivedDestinationWarehouse else ItemStatus.Exception;
        var s1 := TrackItem(s, i, kind, Some(st), Some(wh), now);
        var s2 := s1.(inspections := s1.inspections + [Inspection(i, good, damaged, flagged)]);
        EventThenRollContinues(s, s2, ReadyForPickupRollup, i, kind, Some(wh), s.items[i].shipment, now, s.warehouses);
    }
  }

  lemma HandoverContinues(s: State, t: State, call: Call)
    requires Wf(s) && Try(s, call) == Ok(t)
    requires call.step.PickUpStep? || call.step.SendOutStep? || call.step.ReturnStep?
    ensures Continues(s.events, t.events, s.warehouses, call.now)
  {
    hide Continues, Roll, TrackItem;
    var now := call.now;
    match call.step {
      case PickUpStep(i, wh) =>
        var s1 := TrackItem(s, i, EventType.PickedUp, Some(ItemStatus.PickedUp), Some(wh), now);
        EventThenRollContinues(s, HandOver(SetWarehouse(s1, i, None), i, Pickup), CompletionRollup, i, EventType.PickedUp,
                               Some(wh), s.items[i].shipment, now, s.warehouses);
      case SendOutStep(i, wh, _) =>
        var s1 := TrackItem(s, i, EventType.OutForDelivery, Some(ItemStatus.OutForDelivery), Some(wh), now);
        EventThenRollContinues(s, HandOver(SetWarehouse(s1, i, None), i, Dispatch), OutForDeliveryRollup, i,
                               EventType.OutForDelivery, Some(wh), s.items[i].shipment, now, s.warehouses);
      case ReturnStep(i, wh, flagged) =>
        var kind := if flagged then EventType.Exception else ReturnedToWarehouse;
        OneEventContinues(s.events, ItemEvent(s, i, kind, Some(wh), now), s.warehouses, now);
    }
  }

  lemma DeliveryContinues(s: State, t: State, i: ItemId, wh: WarehouseId, carrier: Carrier, now: Time)
    requires Wf(s) && Deliver(s, i, wh, carrier, now) == Ok(t)
    ensures Continues(s.events, t.events, s.warehouses, now)
  {
    hide Continues, Roll, TrackItem;
    var sh := s.items[i].shipment;
    var s2 := HandOver(TrackItem(s, i, EventType.Delivered, Some(ItemStatus.Delivered), Some(wh), now), i, Delivery);
    EventThenRollContinues(s, s2, DeliveredRollup, i, EventType.Delivered, Some(wh), sh, now, s.warehouses);
    RollContinues(Roll(s2, DeliveredRollup, sh, now), CompletionRollup, sh, now, s.warehouses);
    ContinuesOn(s.events, Roll(s2, DeliveredRollup, sh, now).events, t.events, s.warehouses, now);
  }

  // Containers belong to known warehouses.
  ghost predicate ContainersKnown(s: State) {
    forall c :: c in s.containers && s.containers[c].warehouse.Some? ==> s.containers[c].warehouse.value in s.warehouses
  }

  lemma RowContinues(s: State, t: State, call: Call)
    requires Wf(s) && ContainersKnown(s) && Try(s, call) == Ok(t)
    requires call.step.LoadStep? || call.step.UnloadStep? || call.step.AssignItemStep? || call.step.UnassignItemStep?
    ensures Continues(s.events, t.events, s.warehouses, call.now)
  {
    hide Continues, Roll, TrackItem, NobodyAboard;
    var now := call.now;
    match call.step {
      case LoadStep(c, i) =>
        var sh, wh := s.items[i].shipment, s.containers[c].warehouse;
        var s1 := TrackItem(s, i, EventType.AssignedToContainer, Some(ItemStatus.AssignedToContainer), wh, now);
        var s2 := s1.(links := s1.links + [Link(InContainer(c), sh, i, true)]);
        var s3 := if s.containers[c].status.Booked? then SetContainerStatus(s2, c, ContainerStatus.Loading) else s2;
        EventThenRollContinues(s, s3, ContainerRollup, i, EventType.AssignedToContainer, wh, sh, now, s.warehouses);
      case UnloadStep(c, i) =>
        var k := FindRow(s.links, InContainer(c), i);
        var s1 := s.(links := Retire(s.links, k));
        var s2 := TrackItem(s1, i, EventType.RemovedFromContainer, Some(ItemStatus.Processed), None, now);
        var emptied := NobodyAboard(s2.links, {InContainer(c)}) && s.containers[c].status.Loading?;
        var s3 := if emptied then SetContainerStatus(s2, c, ContainerStatus.Booked) else s2;
        EventThenRollContinues(s1, s3, ContainerRollup, i, EventType.RemovedFromContainer, None, s.links[k].shipment, now,
                               s.warehouses);
      case AssignItemStep(m, i, _) =>
        var sh := s.items[i].shipment;
        var s1 := TrackItem(s, i, EventType.AssignedToManifest, Some(ItemStatus.AssignedToManifest), None, now);
        var s2 := s1.(links := s1.links + [Link(OnManifest(m), sh, i, true)]);
        EventThenRollContinues(s, s2, ManifestRollup, i, EventType.AssignedToManifest, None, sh, now, s.warehouses);
      case UnassignItemStep(m, i) =>
        var k := FindRow(s.links, OnManifest(m), i);
        var s1 := s.(links := Retire(s.links, k));
        var s2 := TrackItem(s1, i, EventType.RemovedFromManifest, Some(ItemStatus.Processed), None, now);
        EventThenRollContinues(s1, s2, ManifestRollup, i, EventType.RemovedFromManifest, None, s.links[k].shipment, now,
                               s.warehouses);
    }
  }

  // A bulk event for every row, then a rollup on whatever else changed.
  lemma BulkShapeContinues(s: State, units: set<Unit>, kind: EventType, itemStatus: Option<ItemStatus>, wh: Option<WarehouseId>,
                           now: Time, s2: State, rollup: Rollup, warehouses: set<WarehouseId>)
    requires Wf(s) && Wf(s2) && !Receiving(kind) && (wh.Some? ==> wh.value in warehouses)
    requires s2.events == TrackCargo(s, units, |s.links|, kind, itemStatus, wh, now).events
    ensures Continues(s.events, RollAffected(s2, rollup, units, now).events, warehouses, now)
  {
    hide Continues, TrackCargo, RollAffected;
    CargoContinues(s, units, |s.links|, kind, itemStatus, wh, now, warehouses);
    RollAffectedContinues(s2, rollup, units, now, warehouses);
    ContinuesOn(s.events, s2.events, RollAffected(s2, rollup, units, now).events, warehouses, now);
  }

  lemma SealContinues(s: State, t: State, c: ContainerId, now: Time)
    requires Wf(s) && ContainersKnown(s) && Seal(s, c, now) == Ok(t)
    ensures Continues(s.events, t.events, s.warehouses, now)
  {
    hide Continues, TrackCargo, RollAffected;
    var units, wh := {InContainer(c)}, s.containers[c].warehouse;
    var s1 := SetContainerStatus(s, c, ContainerStatus.Loaded);
    var s2 := TrackCargo(s1, units, |s.links|, EventType.Loaded, Some(ItemStatus.Loaded), wh, now);
    BulkShapeContinues(s1, units, EventType.Loaded, Some(ItemStatus.Loaded), wh, now, s2, ContainerRollup, s.warehouses);
  }

  lemma FinalizeContinues(s: State, t: State, m: ManifestId, now: Time)
    requires Wf(s) && FinalizeManifest(s, m, now) == Ok(t)
    ensures Continues(s.events, t.events, s.warehouses, now)
  {
    hide Continues, TrackCargo, RollAffected, CargoIs, EmptyManifest, ContainersAre;
    var units := UnitsOf(s, m);
    var frozen := ApprovedCargo(s.links, |s.links|, units);
    var s1 := SetManifest(s, m, s.manifests[m].(status := Finalized, snapshot := Some(frozen)));
    if s.manifests[m].mode.Air? {
      var s2 := TrackCargo(s1, units, |s.links|, EventType.Loaded, Some(ItemStatus.Loaded), None, now);
      BulkShapeContinues(s1, units, EventType.Loaded, Some(ItemStatus.Loaded), None, now, s2, ManifestRollup, s.warehouses);
    } else {
      CargoContinues(s1, units, |s.links|, NoteAdded, None, None, now, s.warehouses);
    }
  }

  lemma LegContinues(s: State, t: State, call: Call)
    requires Wf(s) && (call.step.DepartStep? || call.step.ArriveStep?) && Try(s, call) == Ok(t)
    ensures Continues(s.events, t.events, s.warehouses, call.now)
  {
    hide Continues, TrackCargo, RollAffected, CargoIs, EmptyManifest, ContainersAre;
    var m, now := call.step.manifest, call.now;
    var units := UnitsOf(s, m);
    match call.step {
      case DepartStep(_) =>
        var st := Some(ItemStatus.DepartedOrigin);
        var s1 := TrackCargo(s, units, |s.links|, EventType.DepartedOrigin, st, None, now);
        var s2 := if s.manifests[m].mode.Air? then s1 else MoveContainers(s1, m, ContainerStatus.Departed);
        var s3 := SetManifest(s2, m, s.manifests[m].(status := ManifestStatus.Departed));
        BulkShapeContinues(s, units, EventType.DepartedOrigin, st, None, now, s3, DepartureRollup, s.warehouses);
      case ArriveStep(_) =>
        var st := Some(ItemStatus.ArrivedDestination);
        var s1 := TrackCargo(s, units, |s.links|, EventType.ArrivedDestination, st, None, now);
        var s2 := if s.manifests[m].mode.Air? then s1 else MoveContainers(s1, m, ContainerStatus.Arrived);
        var s3 := SetManifest(s2, m, s.manifests[m].(status := ManifestStatus.Arrived));
        BulkShapeContinues(s, units, EventType.ArrivedDestination, st, None, now, s3, ArrivalRollup, s.warehouses);
    }
  }

  lemma QuietContinues(s: State, t: State, call: Call)
    requires Wf(s) && Try(s, call) == Ok(t)
    requires call.step.CreateShipmentStep? || call.step.AddItemStep? || call.step.AssignContainerStep?
      || call.step.UnassignContainerStep? || call.step.CreateContainerStep? || call.step.CreateManifestStep?
      || call.step.OpenStep? || call.step.CloseStep?
    ensures Continues(s.events, t.events, s.warehouses, call.now)
  {
    hide Continues, TrackCargo, CreateItems, FreshItems;
    var now := call.now;
    NothingNew(s.events, s.warehouses, now);
    match call.step {
      case CreateShipmentStep(sh, email, ids) =>
        var draft := OpenShipment(s, sh, email, now);
        OneEventContinues(s.events, Event(sh, None, ShipmentCreated, Some(ShipmentStatus.Draft), None, now), s.warehouses, now);
        CreationContinues(draft, sh, ids, now, s.warehouses);
        ContinuesOn(s.events, draft.events, t.events, s.warehouses, now);
      case AddItemStep(sh, i) =>
        OneEventContinues(s.events, Event(sh, Some(i), ItemRegistered, None, None, now), s.warehouses, now);
      case AssignContainerStep(m, c, _) =>
        CargoContinues(SetContainerManifest(s, c, Some(m)), {InContainer(c)}, |s.links|, EventType.AssignedToManifest, None, None,
                       now, s.warehouses);
      case UnassignContainerStep(m, c) =>
        CargoContinues(SetContainerManifest(s, c, None), {InContainer(c)}, |s.links|, EventType.RemovedFromManifest, None, None,
                       now, s.warehouses);
      case _ =>
    }
  }

  lemma CallContinues(s: State, t: State, call: Call)
    requires Wf(s) && ContainersKnown(s) && !call.step.ManualStep? && Try(s, call) == Ok(t)
    ensures Continues(s.events, t.events, s.warehouses, call.now)
  {
    hide Continues, ContainersKnown, Wf, Load, Unload, Seal, AssignItem, UnassignItem, FinalizeManifest, Depart, Arrive;
    hide CreateShipment, AddItem, AssignContainer, UnassignContainer, CreateContainer, CreateManifest, OpenContainer, CloseContainer;
    hide Receive, Process, DestinationReceive, PickUp, SendOut, Deliver, Return;
    match call.step {
      case ReceiveStep(_, _) => InspectionContinues(s, t, call);
      case ProcessStep(_, _, _, _) => InspectionContinues(s, t, call);
      case DestinationReceiveStep(_, _, _, _, _) => InspectionContinues(s, t, call);
      case PickUpStep(_, _) => HandoverContinues(s, t, call);
      case SendOutStep(_, _, _) => HandoverContinues(s, t, call);
      case ReturnStep(_, _, _) => HandoverContinues(s, t, call);
      case DeliverStep(i, wh, carrier) => DeliveryContinues(s, t, i, wh, carrier, call.now);
      case LoadStep(_, _) => RowContinues(s, t, call);
      case UnloadStep(_, _) => RowContinues(s, t, call);
      case AssignItemStep(_, _, _) => RowContinues(s, t, call);
      case UnassignItemStep(_, _) => RowContinues(s, t, call);
      case SealStep(c) => SealContinues(s, t, c, call.now);
      case FinalizeStep(m) => FinalizeContinues(s, t, m, call.now);
      case DepartStep(_) => LegContinues(s, t, call);
      case ArriveStep(_) => LegContinues(s, t, call);
      case _ => QuietContinues(s, t, call);
    }
  }

  // --- Over every run ---------------------------------------------------------------------------

  lemma NewContainersKnown(s: State, t: State, call: Call)
    requires Wf(s) && ContainersKnown(s) && Try(s, call) == Ok(t)
    ensures ContainersKnown(t)
  {
    hide Wf, Load, Unload, Seal, AssignItem, UnassignItem, FinalizeManifest, Depart, Arrive, UnassignContainer, AssignContainer;
    hide OneRolled, ItemChanged, CargoTook, CargoRolled, CargoIs, EmptyManifest, UnitsOf, ContainersAre, NobodyAboard, Fixed;
    CallFixes(s, t, call);
    FixedWarehouses(s, t);
    if DeskStep(call.step) {
      hide Try;
      DeskStepEffect(s, t, call);
      return;
    }
    match call.step {
      case LoadStep(c, i) => LoadEffect(s, t, c, i, call.now);
      case UnloadStep(c, i) => UnloadEffect(s, t, c, i, call.now);
      case AssignItemStep(n, i, conflict) => AssignItemEffect(s, t, n, i, conflict, call.now);
      case UnassignItemStep(n, i) => UnassignItemEffect(s, t, n, i, call.now);
      case SealStep(c) => SealEffect(s, t, c, call.now);
      case FinalizeStep(n) => FinalizeEffect(s, t, n, call.now);
      case DepartStep(n) => DepartEffect(s, t, n, call.now);
      case ArriveStep(n) => ArriveEffect(s, t, n, call.now);
      case AssignContainerStep(n, c, conflict) => AssignContainerEffect(s, t, n, c, conflict, call.now);
      case UnassignContainerStep(n, c) => UnassignContainerEffect(s, t, n, c, call.now);
      case _ =>
    }
  }

  lemma FixedWarehouses(s: State, t: State)
    requires Fixed(s, t)
    ensures t.warehouses == s.warehouses
  {
  }

  lemma {:induction false} RunsKnowContainers(warehouses: set<WarehouseId>, calls: seq<Call>)
    ensures ContainersKnown(Run(warehouses, calls))
  {
    if calls != [] {
      var n := |calls| - 1;
      RunsKnowContainers(warehouses, calls[..n]);
      hide Try, Wf, ContainersKnown;
      match Try(Run(warehouses, calls[..n]), calls[n]) {
        case Ok(t) => NewContainersKnown(Run(warehouses, calls[..n]), t, calls[n]);
        case Err(_) =>
      }
    }
  }

  // In every run, whatever a call writes to the log is appended, at the time of the call, and where it
  // names a warehouse that is one of the tenant's.
  lemma {:induction false} EventsCarryTheirTime(warehouses: set<WarehouseId>, calls: seq<Call>, call: Call, n: nat)
    requires !call.step.ManualStep? && n < |Run(warehouses, calls + [call]).events|
    ensures var before, after := Run(warehouses, calls).events, Run(warehouses, calls + [call]).events;
      && before <= after
      && (n >= |before| ==>
        after[n].at == call.now && (after[n].warehouse.Some? ==> after[n].warehouse.value in warehouses))
  {
    hide Try, Wf, ContainersKnown;
    var s := Run(warehouses, calls);
    assert (calls + [call])[..|calls|] == calls;
    RunsKnowContainers(warehouses, calls);
    SameWarehousesAll(warehouses, calls);
    match Try(s, call) {
      case Ok(t) => CallContinues(s, t, call);
      case Err(_) =>
    }
  }
}
