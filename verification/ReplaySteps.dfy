/** Every call but a manual event keeps the log faithful to the items. */
module ReplaySteps {
  import opened Basics
  import opened Statuses
  import opened CargoState
  import opened CargoSteps
  import opened CargoRuns
  import opened CargoEffects
  import opened Lockstep
  import opened LockstepSteps
  import opened Stranding
  import opened StrandingSteps
  import opened Earning
  import opened Replay

  // The written item row, once the direct warehouse update (if any) is in.
  lemma EventThenRollReplays(s: State, s2: State, rollup: Rollup, i: ItemId, e: Event, sh: ShipmentId, now: Time)
    requires Faithful(s.items, s.events) && i in s.items && i in s2.items && sh in s2.shipments
    requires e.item == Some(i) && !e.kind.ItemRegistered?
    requires s2.events == s.events + [e] && s2.items == s.items[i := s2.items[i]]
    requires TraceOf(s2.items[i]) == After(TraceOf(s.items[i]), e) && Due(TraceOf(s.items[i]), e)
    ensures Faithful(Roll(s2, rollup, sh, now).items, Roll(s2, rollup, sh, now).events)
  {
    hide Faithful, After, Due;
    ItemEventReplays(s.items, s.events, i, e, s2.items[i]);
    RollReplays(s2, rollup, sh, now);
  }

  lemma ReceiveReplays(s: State, t: State, i: ItemId, wh: WarehouseId, now: Time)
    requires Wf(s) && Faithful(s.items, s.events) && Receive(s, i, wh, now) == Ok(t)
    ensures Faithful(t.items, t.events)
  {
    hide Faithful, Roll, TrackItem;
    var s1 := TrackItem(s, i, EventType.ReceivedAtWarehouse, Some(ReceivedOriginWarehouse), Some(wh), now);
    EventThenRollReplays(s, s1, ReceivingRollup, i, ItemEvent(s, i, EventType.ReceivedAtWarehouse, Some(wh), now),
                         s.items[i].shipment, now);
  }

  lemma ProcessReplays(s: State, t: State, i: ItemId, wh: WarehouseId, again: bool, f: Finding, now: Time)
    requires Wf(s) && Faithful(s.items, s.events) && Process(s, i, wh, again, f, now) == Ok(t)
    ensures Faithful(t.items, t.events)
  {
    hide Faithful, Roll, TrackItem;
    var kind := if f.ready then EventType.Processed else EventType.Exception;
    var st := if f.ready then ItemStatus.Processed else ItemStatus.Exception;
    var s1 := TrackItem(s, i, kind, Some(st), Some(wh), now);
    var s2 := s1.(inspections := s1.inspections + [Inspection(i, f.ready, f.damaged, f.hasException)]);
    EventThenRollReplays(s, s2, ProcessingRollup, i, ItemEvent(s, i, kind, Some(wh), now), s.items[i].shipment, now);
  }

  lemma DestinationReplays(s: State, t: State, i: ItemId, wh: WarehouseId, damaged: bool, flagged: bool,
                           described: bool, now: Time)
    requires Wf(s) && Faithful(s.items, s.events)
    requires DestinationReceive(s, i, wh, damaged, flagged, described, now) == Ok(t)
    ensures Faithful(t.items, t.events)
  {
    hide Faithful, Roll, TrackItem;
    var good := !flagged && !damaged;
    var kind := if good then EventType.ReceivedDestinationWarehouse else EventType.Exception;
    var st := if good then ItemStatus.ReceivedDestinationWarehouse else ItemStatus.Exception;
    var s1 := TrackItem(s, i, kind, Some(st), Some(wh), now);
    var s2 := s1.(inspections := s1.inspections + [Inspection(i, good, damaged, flagged)]);
    EventThenRollReplays(s, s2, ReadyForPickupRollup, i, ItemEvent(s, i, kind, Some(wh), now), s.items[i].shipment, now);
  }

  lemma PickUpReplays(s: State, t: State, i: ItemId, wh: WarehouseId, now: Time)
    requires Wf(s) && Faithful(s.items, s.events) && PickUp(s, i, wh, now) == Ok(t)
    ensures Faithful(t.items, t.events)
  {
    hide Faithful, Roll, TrackItem;
    var s1 := TrackItem(s, i, EventType.PickedUp, Some(ItemStatus.PickedUp), Some(wh), now);
    EventThenRollReplays(s, HandOver(SetWarehouse(s1, i, None), i, Pickup), CompletionRollup, i,
                         ItemEvent(s, i, EventType.PickedUp, Some(wh), now), s.items[i].shipment, now);
  }

  lemma SendOutReplays(s: State, t: State, i: ItemId, wh: WarehouseId, carrier: Carrier, now: Time)
    requires Wf(s) && Faithful(s.items, s.events) && SendOut(s, i, wh, carrier, now) == Ok(t)
    ensures Faithful(t.items, t.events)
  {
    hide Faithful, Roll, TrackItem;
    var s1 := TrackItem(s, i, EventType.OutForDelivery, Some(ItemStatus.OutForDelivery), Some(wh), now);
    EventThenRollReplays(s, HandOver(SetWarehouse(s1, i, None), i, Dispatch), OutForDeliveryRollup, i,
                         ItemEvent(s, i, EventType.OutForDelivery, Some(wh), now), s.items[i].shipment, now);
  }

  lemma ReturnReplays(s: State, t: State, i: ItemId, wh: WarehouseId, flagged: bool, now: Time)
    requires Wf(s) && Faithful(s.items, s.events) && Return(s, i, wh, flagged, now) == Ok(t)
    ensures Faithful(t.items, t.events)
  {
    hide Faithful, TrackItem;
    var kind := if flagged then EventType.Exception else ReturnedToWarehouse;
    ItemEventReplays(s.items, s.events, i, ItemEvent(s, i, kind, Some(wh), now), t.items[i]);
    assert t.items == s.items[i := t.items[i]];
  }

  lemma DeliveryReplays(s: State, t: State, i: ItemId, wh: WarehouseId, carrier: Carrier, now: Time)
    requires Wf(s) && Faithful(s.items, s.events) && Deliver(s, i, wh, carrier, now) == Ok(t)
    ensures Faithful(t.items, t.events)
  {
    hide Faithful, Roll, TrackItem;
    var sh := s.items[i].shipment;
    var s2 := HandOver(TrackItem(s, i, EventType.Delivered, Some(ItemStatus.Delivered), Some(wh), now), i, Delivery);
    EventThenRollReplays(s, s2, DeliveredRollup, i, ItemEvent(s, i, EventType.Delivered, Some(wh), now), sh, now);
    RollReplays(Roll(s2, DeliveredRollup, sh, now), CompletionRollup, sh, now);
  }

  lemma WarehouseReplays(s: State, t: State, call: Call)
    requires Wf(s) && Faithful(s.items, s.events) && WarehouseStep(call.step) && Try(s, call) == Ok(t)
    ensures Faithful(t.items, t.events)
  {
    hide Faithful, Receive, Process, DestinationReceive, PickUp, SendOut, Deliver, Return;
    match call.step {
      case ReceiveStep(i, wh) => ReceiveReplays(s, t, i, wh, call.now);
      case ProcessStep(i, wh, again, f) => ProcessReplays(s, t, i, wh, again, f, call.now);
      case DestinationReceiveStep(i, wh, d, x, e) => DestinationReplays(s, t, i, wh, d, x, e, call.now);
      case PickUpStep(i, wh) => PickUpReplays(s, t, i, wh, call.now);
      case SendOutStep(i, wh, carrier) => SendOutReplays(s, t, i, wh, carrier, call.now);
      case DeliverStep(i, wh, carrier) => DeliveryReplays(s, t, i, wh, carrier, call.now);
      case ReturnStep(i, wh, x) => ReturnReplays(s, t, i, wh, x, call.now);
    }
  }

  lemma LoadReplays(s: State, t: State, c: ContainerId, i: ItemId, now: Time)
    requires Wf(s) && Faithful(s.items, s.events) && Load(s, c, i, now) == Ok(t)
    ensures Faithful(t.items, t.events)
  {
    hide Faithful, Roll, TrackItem;
    var sh := s.items[i].shipment;
    var wh := s.containers[c].warehouse;
    var s1 := TrackItem(s, i, EventType.AssignedToContainer, Some(ItemStatus.AssignedToContainer), wh, now);
    var s2 := s1.(links := s1.links + [Link(InContainer(c), sh, i, true)]);
    var s3 := if s.containers[c].status.Booked? then SetContainerStatus(s2, c, ContainerStatus.Loading) else s2;
    EventThenRollReplays(s, s3, ContainerRollup, i, ItemEvent(s, i, EventType.AssignedToContainer, wh, now), sh, now);
  }

  lemma UnloadReplays(s: State, t: State, c: ContainerId, i: ItemId, now: Time)
    requires Wf(s) && LinksAgree(s) && Faithful(s.items, s.events) && Unload(s, c, i, now) == Ok(t)
    ensures Faithful(t.items, t.events)
  {
    hide Faithful, Roll, TrackItem, LinksAgree;
    var k := FindRow(s.links, InContainer(c), i);
    RowFits(s, k);
    var s1 := s.(links := Retire(s.links, k));
    var s2 := TrackItem(s1, i, EventType.RemovedFromContainer, Some(ItemStatus.Processed), None, now);
    var emptied := NobodyAboard(s2.links, {InContainer(c)}) && s.containers[c].status.Loading?;
    var s3 := if emptied then SetContainerStatus(s2, c, ContainerStatus.Booked) else s2;
    EventThenRollReplays(s, s3, ContainerRollup, i, ItemEvent(s1, i, EventType.RemovedFromContainer, None, now),
                         s.links[k].shipment, now);
  }

  lemma ItemAssignmentReplays(s: State, t: State, call: Call)
    requires Wf(s) && Faithful(s.items, s.events) && call.step.AssignItemStep? && Try(s, call) == Ok(t)
    ensures Faithful(t.items, t.events)
  {
    hide Faithful, Roll, TrackItem;
    var m, i := call.step.manifest, call.step.item;
    var sh := s.items[i].shipment;
    var s1 := TrackItem(s, i, EventType.AssignedToManifest, Some(ItemStatus.AssignedToManifest), None, call.now);
    var s2 := s1.(links := s1.links + [Link(OnManifest(m), sh, i, true)]);
    EventThenRollReplays(s, s2, ManifestRollup, i, ItemEvent(s, i, EventType.AssignedToManifest, None, call.now), sh, call.now);
  }

  lemma ItemUnassignmentReplays(s: State, t: State, call: Call)
    requires Wf(s) && LinksAgree(s) && Faithful(s.items, s.events) && call.step.UnassignItemStep? && Try(s, call) == Ok(t)
    ensures Faithful(t.items, t.events)
  {
    hide Faithful, Roll, TrackItem, LinksAgree;
    var i := call.step.item;
    var k := FindRow(s.links, OnManifest(call.step.manifest), i);
    RowFits(s, k);
    var s1 := s.(links := Retire(s.links, k));
    var s2 := TrackItem(s1, i, EventType.RemovedFromManifest, Some(ItemStatus.Processed), None, call.now);
    EventThenRollReplays(s, s2, ManifestRollup, i, ItemEvent(s1, i, EventType.RemovedFromManifest, None, call.now),
                         s.links[k].shipment, call.now);
  }

  lemma AssignmentReplays(s: State, t: State, call: Call)
    requires Wf(s) && LinksAgree(s) && Faithful(s.items, s.events) && Try(s, call) == Ok(t)
    requires call.step.AssignItemStep? || call.step.UnassignItemStep?
    ensures Faithful(t.items, t.events)
  {
    hide Faithful, LinksAgree, Try, Wf;
    if call.step.AssignItemStep? { ItemAssignmentReplays(s, t, call); } else { ItemUnassignmentReplays(s, t, call); }
  }

  // --- Bulk steps -------------------------------------------------------------------------

  lemma SameCargoIsPlain(s: State, units: set<Unit>, kind: EventType, itemStatus: Option<ItemStatus>, st: ItemStatus)
    requires Wf(s) && CargoIs(s, units, st) && Plain(kind, itemStatus, st)
    ensures PlainCargo(s, units, kind, itemStatus)
  {
  }

  // On transports that have not arrived each item is met once.
  lemma CargoIsMetOnce(s: State, units: set<Unit>)
    requires Wf(s) && OneBerth(s)
    requires forall u :: u in units && UnitExists(s.containers, s.manifests, u) ==> !LegOf(s, u).Landed?
    ensures MetOnce(s.links, units)
  {
  }

  lemma SealReplays(s: State, t: State, c: ContainerId, now: Time)
    requires Wf(s) && InLockstep(s) && Faithful(s.items, s.events) && Seal(s, c, now) == Ok(t)
    ensures Faithful(t.items, t.events)
  {
    hide Faithful, TrackCargo, RollAffected, PlainCargo, LinksAgree, OneBerth, TiedItemsRide, CargoIs, MetOnce, Fleet;
    var units := {InContainer(c)};
    var s1 := SetContainerStatus(s, c, ContainerStatus.Loaded);
    var s2 := TrackCargo(s1, units, |s.links|, EventType.Loaded, Some(ItemStatus.Loaded), s.containers[c].warehouse, now);
    SealedCargo(s, c);
    CargoIsMetOnce(s, units);
    SameCargoIsPlain(s, units, EventType.Loaded, Some(ItemStatus.Loaded), ItemStatus.AssignedToContainer);
    PlainOnward(s, s1, units, EventType.Loaded, Some(ItemStatus.Loaded));
    CargoReplays(s1, units, |s.links|, EventType.Loaded, Some(ItemStatus.Loaded), s.containers[c].warehouse, now);
    RollAffectedReplays(s2, ContainerRollup, units, now);
  }

  lemma PlainOnward(s: State, s1: State, units: set<Unit>, kind: EventType, itemStatus: Option<ItemStatus>)
    requires Wf(s) && Wf(s1) && PlainCargo(s, units, kind, itemStatus) && s1.items == s.items && s1.links == s.links
    ensures PlainCargo(s1, units, kind, itemStatus)
  {
  }

  // What rides a manifest that is not at its destination has not arrived.
  lemma UnitsAreUnderway(s: State, m: ManifestId)
    requires Wf(s) && Fleet(s) && m in s.manifests
    requires s.manifests[m].status.Draft? || s.manifests[m].status.Finalized? || s.manifests[m].status.Departed?
    ensures forall u :: u in UnitsOf(s, m) && UnitExists(s.containers, s.manifests, u) ==> !LegOf(s, u).Landed?
  {
    forall u | u in UnitsOf(s, m) && UnitExists(s.containers, s.manifests, u)
      ensures !LegOf(s, u).Landed?
    {
      if u.InContainer? { assert Paired(s.containers[u.container], s.manifests); }
    }
  }

  lemma FinalizeReplays(s: State, t: State, m: ManifestId, now: Time)
    requires Wf(s) && InLockstep(s) && Faithful(s.items, s.events) && FinalizeManifest(s, m, now) == Ok(t)
    ensures Faithful(t.items, t.events)
  {
    hide Faithful, TrackCargo, RollAffected, CargoIs, EmptyManifest, PlainCargo, ContainersAre, Fleet, LinksAgree, MetOnce;
    var units := UnitsOf(s, m);
    var frozen := ApprovedCargo(s.links, |s.links|, units);
    var s1 := SetManifest(s, m, s.manifests[m].(status := Finalized, snapshot := Some(frozen)));
    UnitsAreUnderway(s, m);
    CargoIsMetOnce(s, units);
    if s.manifests[m].mode.Air? {
      var s2 := TrackCargo(s1, units, |s.links|, EventType.Loaded, Some(ItemStatus.Loaded), None, now);
      SameCargoIsPlain(s, units, EventType.Loaded, Some(ItemStatus.Loaded), ItemStatus.AssignedToManifest);
      PlainOnward(s, s1, units, EventType.Loaded, Some(ItemStatus.Loaded));
      CargoReplays(s1, units, |s.links|, EventType.Loaded, Some(ItemStatus.Loaded), None, now);
      RollAffectedReplays(s2, ManifestRollup, units, now);
    } else {
      SameCargoIsPlain(s, units, NoteAdded, None, ItemStatus.Loaded);
      PlainOnward(s, s1, units, NoteAdded, None);
      CargoReplays(s1, units, |s.links|, NoteAdded, None, None, now);
    }
  }

  lemma DepartReplays(s: State, t: State, m: ManifestId, now: Time)
    requires Wf(s) && InLockstep(s) && Faithful(s.items, s.events) && Depart(s, m, now) == Ok(t)
    ensures Faithful(t.items, t.events)
  {
    hide Faithful, TrackCargo, RollAffected, CargoIs, EmptyManifest, PlainCargo, ContainersAre, Fleet, LinksAgree, MetOnce;
    var units := UnitsOf(s, m);
    var st := Some(ItemStatus.DepartedOrigin);
    var s1 := TrackCargo(s, units, |s.links|, EventType.DepartedOrigin, st, None, now);
    var s2 := if s.manifests[m].mode.Air? then s1 else MoveContainers(s1, m, ContainerStatus.Departed);
    var s3 := SetManifest(s2, m, s.manifests[m].(status := ManifestStatus.Departed));
    UnitsAreUnderway(s, m);
    CargoIsMetOnce(s, units);
    SameCargoIsPlain(s, units, EventType.DepartedOrigin, st, ItemStatus.Loaded);
    CargoReplays(s, units, |s.links|, EventType.DepartedOrigin, st, None, now);
    RollAffectedReplays(s3, DepartureRollup, units, now);
  }

  lemma ArriveReplays(s: State, t: State, m: ManifestId, now: Time)
    requires Wf(s) && InLockstep(s) && Faithful(s.items, s.events) && Arrive(s, m, now) == Ok(t)
    ensures Faithful(t.items, t.events)
  {
    hide Faithful, TrackCargo, RollAffected, CargoIs, EmptyManifest, PlainCargo, Fleet, LinksAgree, MetOnce;
    var units := UnitsOf(s, m);
    var st := Some(ItemStatus.ArrivedDestination);
    var s1 := TrackCargo(s, units, |s.links|, EventType.ArrivedDestination, st, None, now);
    var s2 := if s.manifests[m].mode.Air? then s1 else MoveContainers(s1, m, ContainerStatus.Arrived);
    var s3 := SetManifest(s2, m, s.manifests[m].(status := ManifestStatus.Arrived));
    UnitsAreUnderway(s, m);
    CargoIsMetOnce(s, units);
    ArrivingCargo(s, m);
    SameCargoIsPlain(s, units, EventType.ArrivedDestination, st, ItemStatus.DepartedOrigin);
    CargoReplays(s, units, |s.links|, EventType.ArrivedDestination, st, None, now);
    RollAffectedReplays(s3, ArrivalRollup, units, now);
  }

  // A manifest event about a container is read as no change, since all its cargo is LOADED.
  lemma BoxedCargoIsPlain(s: State, s1: State, c: ContainerId, kind: EventType)
    requires Wf(s) && Wf(s1) && InLockstep(s) && c in s.containers && s.containers[c].status.Loaded?
    requires s1.items == s.items && s1.links == s.links && (kind.AssignedToManifest? || kind.RemovedFromManifest?)
    ensures PlainCargo(s1, {InContainer(c)}, kind, None)
  {
    forall k | 0 <= k < |s1.links| && Carries(s1.links[k], {InContainer(c)})
      ensures s1.items[s1.links[k].item].status.Loaded?
    {
      RowFits(s, k);
    }
  }

  lemma ContainerRowReplays(s: State, t: State, call: Call)
    requires Wf(s) && InLockstep(s) && Faithful(s.items, s.events) && Try(s, call) == Ok(t)
    requires call.step.AssignContainerStep? || call.step.UnassignContainerStep?
    ensures Faithful(t.items, t.events)
  {
    hide Faithful, TrackCargo, PlainCargo, LinksAgree, OneBerth, TiedItemsRide, MetOnce;
    match call.step {
      case AssignContainerStep(m, c, conflict) =>
        CargoIsMetOnce(s, {InContainer(c)});
        var s1 := SetContainerManifest(s, c, Some(m));
        BoxedCargoIsPlain(s, s1, c, EventType.AssignedToManifest);
        CargoReplays(s1, {InContainer(c)}, |s.links|, EventType.AssignedToManifest, None, None, call.now);
      case UnassignContainerStep(m, c) =>
        assert Paired(s.containers[c], s.manifests);
        CargoIsMetOnce(s, {InContainer(c)});
        var s1 := SetContainerManifest(s, c, None);
        BoxedCargoIsPlain(s, s1, c, EventType.RemovedFromManifest);
        CargoReplays(s1, {InContainer(c)}, |s.links|, EventType.RemovedFromManifest, None, None, call.now);
    }
  }

  lemma CreationReplays(s: State, t: State, call: Call)
    requires Wf(s) && Faithful(s.items, s.events) && Try(s, call) == Ok(t)
    requires call.step.CreateShipmentStep? || call.step.AddItemStep?
    ensures Faithful(t.items, t.events)
  {
    hide Faithful, CreateItems, CreateItem;
    match call.step {
      case CreateShipmentStep(sh, email, ids) =>
        ShipmentEventReplays(s.items, s.events, Event(sh, None, ShipmentCreated, Some(ShipmentStatus.Draft), None, call.now));
        assert FreshItems(OpenShipment(s, sh, email, call.now), ids);
        CreateItemsReplays(OpenShipment(s, sh, email, call.now), sh, ids, call.now);
      case AddItemStep(sh, i) =>
        CreateItemReplays(s, sh, i, |ItemsOf(s.items, sh)| + 1, call.now);
    }
  }

  lemma StepReplays(s: State, t: State, call: Call)
    requires Wf(s) && InLockstep(s) && Faithful(s.items, s.events) && !call.step.ManualStep? && Try(s, call) == Ok(t)
    ensures Faithful(t.items, t.events)
  {
    hide Faithful, InLockstep, TrackCargo, RollAffected;
    hide Load, Unload, Seal, AssignItem, UnassignItem, FinalizeManifest, Depart, Arrive, CreateShipment, AddItem;
    hide AssignContainer, UnassignContainer, Receive, Process, DestinationReceive, PickUp, SendOut, Deliver, Return;
    LockstepLinks(s);
    if WarehouseStep(call.step) {
      WarehouseReplays(s, t, call);
      return;
    }
    match call.step {
      case CreateShipmentStep(_, _, _) => CreationReplays(s, t, call);
      case AddItemStep(_, _) => CreationReplays(s, t, call);
      case LoadStep(c, i) => LoadReplays(s, t, c, i, call.now);
      case UnloadStep(c, i) => UnloadReplays(s, t, c, i, call.now);
      case AssignItemStep(_, _, _) => AssignmentReplays(s, t, call);
      case UnassignItemStep(_, _) => AssignmentReplays(s, t, call);
      case SealStep(c) => SealReplays(s, t, c, call.now);
      case FinalizeStep(m) => FinalizeReplays(s, t, m, call.now);
      case DepartStep(m) => DepartReplays(s, t, m, call.now);
      case ArriveStep(m) => ArriveReplays(s, t, m, call.now);
      case AssignContainerStep(_, _, _) => ContainerRowReplays(s, t, call);
      case UnassignContainerStep(_, _) => ContainerRowReplays(s, t, call);
      case _ =>
    }
  }

  lemma {:induction false} RunsReplay(warehouses: set<WarehouseId>, calls: seq<Call>)
    requires NoManualEvents(calls)
    ensures Faithful(Run(warehouses, calls).items, Run(warehouses, calls).events)
  {
    if calls != [] {
      var n := |calls| - 1;
      RunsReplay(warehouses, calls[..n]);
      EveryRunIsOrderly(warehouses, calls[..n]);
      hide Faithful, InLockstep, Chained, Try;
      var before := Run(warehouses, calls[..n]);
      match Try(before, calls[n]) {
        case Ok(t) => StepReplays(before, t, calls[n]);
        case Err(_) =>
      }
    }
  }

  // In every reachable log, every event about an item comes when it is due: the item was registered once
  // before, is at the stage the event presupposes, and at the warehouse where it is worked on or leaves.
  lemma EveryEventIsDue(warehouses: set<WarehouseId>, calls: seq<Call>, n: nat)
    requires NoManualEvents(calls) && n < |Run(warehouses, calls).events|
    requires Run(warehouses, calls).events[n].item.Some?
    ensures var events := Run(warehouses, calls).events;
      var before := Replayed(events[..n], events[n].item.value);
      if events[n].kind.ItemRegistered? then before.None? else before.Some? && Due(before.value, events[n])
  {
    RunsReplay(warehouses, calls);
    assert InTime(Run(warehouses, calls).events, n);
  }

  // In every reachable state the log rebuilds each item's status, first receipt and warehouse, and
  // mentions no item that does not exist.
  lemma LogRebuildsItems(warehouses: set<WarehouseId>, calls: seq<Call>, i: ItemId)
    requires NoManualEvents(calls)
    ensures var s := Run(warehouses, calls);
      Replayed(s.events, i) ==
        if i in s.items then Some(Trace(s.items[i].status, s.items[i].receivedAt, s.items[i].warehouse)) else None
  {
    RunsReplay(warehouses, calls);
  }
}
