/** Every call keeps the chronicle, and every call but a manual event keeps it lawful. */
module ChronicleSteps {
  import opened Basics
  import opened Statuses
  import opened CargoState
  import opened CargoSteps
  import opened CargoRuns
  import opened CargoEffects
  import opened Chronicle

  // The chronicle went on from s to t.
  ghost predicate GoesOn(s: State, t: State) {
    Chronicled(s) ==> Chronicled(t) && (Lawful(s.events) ==> Lawful(t.events)) && Sends(s, t)
  }

  lemma WritesGoOn(s: State, i: ItemId, kind: EventType, st: Option<ItemStatus>, wh: Option<WarehouseId>, now: Time)
    requires i in s.items && s.items[i].shipment in s.shipments
    ensures GoesOn(s, TrackItem(s, i, kind, st, wh, now))
  {
    hide Chronicled, Lawful, Sends, TrackItem;
    if Chronicled(s) { TrackItemChronicles(s, i, kind, st, wh, now); }
  }

  lemma RollsGoOn(s: State, rollup: Rollup, sh: ShipmentId, now: Time)
    requires sh in s.shipments
    ensures GoesOn(s, Roll(s, rollup, sh, now))
  {
    hide Chronicled, Lawful, Sends, Roll;
    if Chronicled(s) { RollChronicles(s, rollup, sh, now); }
  }

  // One event, one rollup, and in between only tables the chronicle does not speak of.
  lemma EventThenRoll(s: State, s1: State, s2: State, t: State)
    requires GoesOn(s, s1) && GoesOn(s2, t)
    requires s2.shipments == s1.shipments && s2.events == s1.events && s2.notices == s1.notices && s2.emails == s1.emails
    ensures GoesOn(s, t)
  {
    hide Told, Announced, Mailed, Lawful;
  }

  // Every operation of the shape "one event, then some rows, then one rollup".
  lemma ShapeGoesOn(s: State, i: ItemId, kind: EventType, st: Option<ItemStatus>, wh: Option<WarehouseId>, now: Time,
                    s2: State, rollup: Rollup, sh: ShipmentId)
    requires i in s.items && s.items[i].shipment in s.shipments && sh in s2.shipments
    requires var s1 := TrackItem(s, i, kind, st, wh, now);
      s2.shipments == s1.shipments && s2.events == s1.events && s2.notices == s1.notices && s2.emails == s1.emails
    ensures GoesOn(s, Roll(s2, rollup, sh, now))
  {
    hide GoesOn, TrackItem, Roll;
    WritesGoOn(s, i, kind, st, wh, now);
    RollsGoOn(s2, rollup, sh, now);
    EventThenRoll(s, TrackItem(s, i, kind, st, wh, now), s2, Roll(s2, rollup, sh, now));
  }

  // The transport link table and the container table are not spoken of either.
  lemma FramedGoesOn(s: State, s1: State, t: State)
    requires s1.shipments == s.shipments && s1.events == s.events && s1.notices == s.notices && s1.emails == s.emails
    requires GoesOn(s1, t)
    ensures GoesOn(s, t)
  {
    hide Told, Announced, Mailed, Lawful;
  }

  lemma InspectionGoesOn(s: State, t: State, call: Call)
    requires Wf(s) && Try(s, call) == Ok(t)
    requires call.step.ReceiveStep? || call.step.ProcessStep? || call.step.DestinationReceiveStep?
    ensures GoesOn(s, t)
  {
    hide GoesOn, Roll, TrackItem;
    var now := call.now;
    match call.step {
      case ReceiveStep(i, wh) =>
        var s1 := TrackItem(s, i, EventType.ReceivedAtWarehouse, Some(ReceivedOriginWarehouse), Some(wh), now);
        ShapeGoesOn(s, i, EventType.ReceivedAtWarehouse, Some(ReceivedOriginWarehouse), Some(wh), now,
                    s1, ReceivingRollup, s.items[i].shipment);
      case ProcessStep(i, wh, again, f) =>
        var kind := if f.ready then EventType.Processed else EventType.Exception;
        var st := if f.ready then ItemStatus.Processed else ItemStatus.Exception;
        var s1 := TrackItem(s, i, kind, Some(st), Some(wh), now);
        var s2 := s1.(inspections := s1.inspections + [Inspection(i, f.ready, f.damaged, f.hasException)]);
        ShapeGoesOn(s, i, kind, Some(st), Some(wh), now, s2, ProcessingRollup, s.items[i].shipment);
      case DestinationReceiveStep(i, wh, damaged, flagged, described) =>
        var good := !flagged && !damaged;
        var kind := if good then EventType.ReceivedDestinationWarehouse else EventType.Exception;
        var st := if good then ItemStatus.ReceivedDestinationWarehouse else ItemStatus.Exception;
        var s1 := TrackItem(s, i, kind, Some(st), Some(wh), now);
        var s2 := s1.(inspections := s1.inspections + [Inspection(i, good, damaged, flagged)]);
        ShapeGoesOn(s, i, kind, Some(st), Some(wh), now, s2, ReadyForPickupRollup, s.items[i].shipment);
    }
  }

  lemma DeliveryGoesOn(s: State, i: ItemId, wh: WarehouseId, carrier: Carrier, now: Time)
    requires Wf(s) && Deliver(s, i, wh, carrier, now).Ok?
    ensures GoesOn(s, Deliver(s, i, wh, carrier, now).value)
  {
    hide GoesOn, Roll, TrackItem;
    var sh := s.items[i].shipment;
    var s1 := TrackItem(s, i, EventType.Delivered, Some(ItemStatus.Delivered), Some(wh), now);
    var s2 := HandOver(s1, i, Delivery);
    ShapeGoesOn(s, i, EventType.Delivered, Some(ItemStatus.Delivered), Some(wh), now, s2, DeliveredRollup, sh);
    var s3 := Roll(s2, DeliveredRollup, sh, now);
    RollsGoOn(s3, CompletionRollup, sh, now);
    EventThenRoll(s, s3, s3, Roll(s3, CompletionRollup, sh, now));
  }

  lemma HandoffGoesOn(s: State, t: State, call: Call)
    requires Wf(s) && Try(s, call) == Ok(t)
    requires call.step.PickUpStep? || call.step.SendOutStep? || call.step.DeliverStep? || call.step.ReturnStep?
    ensures GoesOn(s, t)
  {
    hide GoesOn, Roll, TrackItem;
    var now := call.now;
    match call.step {
      case PickUpStep(i, wh) =>
        var s1 := TrackItem(s, i, EventType.PickedUp, Some(ItemStatus.PickedUp), Some(wh), now);
        ShapeGoesOn(s, i, EventType.PickedUp, Some(ItemStatus.PickedUp), Some(wh), now,
                    HandOver(SetWarehouse(s1, i, None), i, Pickup), CompletionRollup, s.items[i].shipment);
      case SendOutStep(i, wh, carrier) =>
        var s1 := TrackItem(s, i, EventType.OutForDelivery, Some(ItemStatus.OutForDelivery), Some(wh), now);
        ShapeGoesOn(s, i, EventType.OutForDelivery, Some(ItemStatus.OutForDelivery), Some(wh), now,
                    HandOver(SetWarehouse(s1, i, None), i, Dispatch), OutForDeliveryRollup, s.items[i].shipment);
      case DeliverStep(i, wh, carrier) => DeliveryGoesOn(s, i, wh, carrier, now);
      case ReturnStep(i, wh, flagged) =>
        var kind := if flagged then EventType.Exception else ReturnedToWarehouse;
        var st := if flagged then ItemStatus.Exception else ItemStatus.ReceivedDestinationWarehouse;
        WritesGoOn(s, i, kind, Some(st), Some(wh), now);
        SameChronicle(s, TrackItem(s, i, kind, Some(st), Some(wh), now), t);
    }
  }

  lemma SameChronicle(s: State, s1: State, t: State)
    requires GoesOn(s, s1)
    requires t.shipments == s1.shipments && t.events == s1.events && t.notices == s1.notices && t.emails == s1.emails
    ensures GoesOn(s, t)
  {
    hide Told, Announced, Mailed, Lawful;
  }

  lemma RowStepGoesOn(s: State, t: State, call: Call)
    requires Wf(s) && Try(s, call) == Ok(t)
    requires call.step.LoadStep? || call.step.UnloadStep? || call.step.AssignItemStep? || call.step.UnassignItemStep?
    ensures GoesOn(s, t)
  {
    hide GoesOn, Roll, TrackItem;
    var now := call.now;
    match call.step {
      case LoadStep(c, i) =>
        var sh := s.items[i].shipment;
        var wh := s.containers[c].warehouse;
        var s1 := TrackItem(s, i, EventType.AssignedToContainer, Some(ItemStatus.AssignedToContainer), wh, now);
        var s2 := s1.(links := s1.links + [Link(InContainer(c), sh, i, true)]);
        var s3 := if s.containers[c].status.Booked? then SetContainerStatus(s2, c, ContainerStatus.Loading) else s2;
        ShapeGoesOn(s, i, EventType.AssignedToContainer, Some(ItemStatus.AssignedToContainer), wh, now,
                    s3, ContainerRollup, sh);
      case UnloadStep(c, i) =>
        var k := FindRow(s.links, InContainer(c), i);
        var s1 := s.(links := Retire(s.links, k));
        var s2 := TrackItem(s1, i, EventType.RemovedFromContainer, Some(ItemStatus.Processed), None, now);
        var emptied := NobodyAboard(s2.links, {InContainer(c)}) && s.containers[c].status.Loading?;
        var s3 := if emptied then SetContainerStatus(s2, c, ContainerStatus.Booked) else s2;
        ShapeGoesOn(s1, i, EventType.RemovedFromContainer, Some(ItemStatus.Processed), None, now,
                    s3, ContainerRollup, s.links[k].shipment);
        FramedGoesOn(s, s1, t);
      case AssignItemStep(m, i, conflict) =>
        var sh := s.items[i].shipment;
        var s1 := TrackItem(s, i, EventType.AssignedToManifest, Some(ItemStatus.AssignedToManifest), None, now);
        var s2 := s1.(links := s1.links + [Link(OnManifest(m), sh, i, true)]);
        ShapeGoesOn(s, i, EventType.AssignedToManifest, Some(ItemStatus.AssignedToManifest), None, now,
                    s2, ManifestRollup, sh);
      case UnassignItemStep(m, i) =>
        var k := FindRow(s.links, OnManifest(m), i);
        var s1 := s.(links := Retire(s.links, k));
        var s2 := TrackItem(s1, i, EventType.RemovedFromManifest, Some(ItemStatus.Processed), None, now);
        ShapeGoesOn(s1, i, EventType.RemovedFromManifest, Some(ItemStatus.Processed), None, now,
                    s2, ManifestRollup, s.links[k].shipment);
        FramedGoesOn(s, s1, t);
    }
  }

  // --- Bulk steps -----------------------------------------------------------------------

  lemma CargoGoesOn(s: State, units: set<Unit>, kind: EventType, st: Option<ItemStatus>, wh: Option<WarehouseId>, now: Time)
    requires Wf(s) && !Receiving(kind)
    ensures GoesOn(s, TrackCargo(s, units, |s.links|, kind, st, wh, now))
  {
    hide Chronicled, Lawful, Sends, TrackCargo;
    if Chronicled(s) { TrackCargoChronicles(s, units, |s.links|, kind, st, wh, now); }
  }

  // Events for the cargo, then some rows, then the rollup of every shipment aboard.
  lemma BulkShapeGoesOn(s: State, units: set<Unit>, kind: EventType, st: Option<ItemStatus>, wh: Option<WarehouseId>,
                        now: Time, s2: State, rollup: Rollup)
    requires Wf(s) && !Receiving(kind) && Wf(s2)
    requires var s1 := TrackCargo(s, units, |s.links|, kind, st, wh, now);
      s2.shipments == s1.shipments && s2.events == s1.events && s2.notices == s1.notices && s2.emails == s1.emails
    ensures GoesOn(s, RollAffected(s2, rollup, units, now))
  {
    hide Chronicled, Lawful, Sends, TrackCargo, RollAffected;
    CargoGoesOn(s, units, kind, st, wh, now);
    if Chronicled(s2) { RollAffectedChronicles(s2, rollup, units, now); }
    assert GoesOn(s2, RollAffected(s2, rollup, units, now));
    EventThenRoll(s, TrackCargo(s, units, |s.links|, kind, st, wh, now), s2, RollAffected(s2, rollup, units, now));
  }

  lemma SealGoesOn(s: State, t: State, c: ContainerId, now: Time)
    requires Wf(s) && Seal(s, c, now) == Ok(t)
    ensures GoesOn(s, t)
  {
    hide GoesOn, TrackCargo, RollAffected;
    var units := {InContainer(c)};
    var s1 := SetContainerStatus(s, c, ContainerStatus.Loaded);
    var s2 := TrackCargo(s1, units, |s.links|, EventType.Loaded, Some(ItemStatus.Loaded), s.containers[c].warehouse, now);
    BulkShapeGoesOn(s1, units, EventType.Loaded, Some(ItemStatus.Loaded), s.containers[c].warehouse, now, s2, ContainerRollup);
    FramedGoesOn(s, s1, t);
  }

  lemma FinalizeGoesOn(s: State, t: State, m: ManifestId, now: Time)
    requires Wf(s) && FinalizeManifest(s, m, now) == Ok(t)
    ensures GoesOn(s, t)
  {
    hide GoesOn, TrackCargo, RollAffected, CargoIs, EmptyManifest;
    var units := UnitsOf(s, m);
    var frozen := ApprovedCargo(s.links, |s.links|, units);
    var s1 := SetManifest(s, m, s.manifests[m].(status := Finalized, snapshot := Some(frozen)));
    if s.manifests[m].mode.Air? {
      var s2 := TrackCargo(s1, units, |s.links|, EventType.Loaded, Some(ItemStatus.Loaded), None, now);
      BulkShapeGoesOn(s1, units, EventType.Loaded, Some(ItemStatus.Loaded), None, now, s2, ManifestRollup);
    } else {
      CargoGoesOn(s1, units, NoteAdded, None, None, now);
    }
    FramedGoesOn(s, s1, t);
  }

  lemma DepartGoesOn(s: State, t: State, m: ManifestId, now: Time)
    requires Wf(s) && Depart(s, m, now) == Ok(t)
    ensures GoesOn(s, t)
  {
    hide GoesOn, TrackCargo, RollAffected, CargoIs, EmptyManifest;
    var units := UnitsOf(s, m);
    var st := Some(ItemStatus.DepartedOrigin);
    var s1 := TrackCargo(s, units, |s.links|, EventType.DepartedOrigin, st, None, now);
    var s2 := if s.manifests[m].mode.Air? then s1 else MoveContainers(s1, m, ContainerStatus.Departed);
    var s3 := SetManifest(s2, m, s.manifests[m].(status := ManifestStatus.Departed));
    BulkShapeGoesOn(s, units, EventType.DepartedOrigin, st, None, now, s3, DepartureRollup);
  }

  lemma ArriveGoesOn(s: State, t: State, m: ManifestId, now: Time)
    requires Wf(s) && Arrive(s, m, now) == Ok(t)
    ensures GoesOn(s, t)
  {
    hide GoesOn, TrackCargo, RollAffected, CargoIs, EmptyManifest;
    var units := UnitsOf(s, m);
    var st := Some(ItemStatus.ArrivedDestination);
    var s1 := TrackCargo(s, units, |s.links|, EventType.ArrivedDestination, st, None, now);
    var s2 := if s.manifests[m].mode.Air? then s1 else MoveContainers(s1, m, ContainerStatus.Arrived);
    var s3 := SetManifest(s2, m, s.manifests[m].(status := ManifestStatus.Arrived));
    BulkShapeGoesOn(s, units, EventType.ArrivedDestination, st, None, now, s3, ArrivalRollup);
  }

  lemma ContainerRowGoesOn(s: State, t: State, call: Call)
    requires Wf(s) && Try(s, call) == Ok(t)
    requires call.step.AssignContainerStep? || call.step.UnassignContainerStep?
    ensures GoesOn(s, t)
  {
    hide GoesOn, TrackCargo;
    match call.step {
      case AssignContainerStep(m, c, conflict) =>
        var s1 := SetContainerManifest(s, c, Some(m));
        CargoGoesOn(s1, {InContainer(c)}, EventType.AssignedToManifest, None, None, call.now);
        FramedGoesOn(s, s1, t);
      case UnassignContainerStep(m, c) =>
        var s1 := SetContainerManifest(s, c, None);
        CargoGoesOn(s1, {InContainer(c)}, EventType.RemovedFromManifest, None, None, call.now);
        FramedGoesOn(s, s1, t);
    }
  }

  lemma CreationGoesOn(s: State, t: State, call: Call)
    requires Wf(s) && Try(s, call) == Ok(t)
    requires call.step.CreateShipmentStep? || call.step.AddItemStep?
    ensures GoesOn(s, t)
  {
    hide Chronicled, Lawful, Sends, CreateItems, CreateItem, OpenShipment;
    match call.step {
      case CreateShipmentStep(sh, email, ids) =>
        if Chronicled(s) {
          OpenShipmentChronicles(s, sh, email, call.now);
          CreateItemsChronicles(OpenShipment(s, sh, email, call.now), sh, ids, call.now);
          SendsOn(s, OpenShipment(s, sh, email, call.now), t);
        }
      case AddItemStep(sh, i) =>
        if Chronicled(s) {
          CreateItemChronicles(s, sh, i, |ItemsOf(s.items, sh)| + 1, call.now);
        }
    }
  }

  lemma StepGoesOn(s: State, t: State, call: Call)
    requires Wf(s) && !call.step.ManualStep? && Try(s, call) == Ok(t)
    ensures GoesOn(s, t)
  {
    hide GoesOn, TrackCargo, RollAffected;
    match call.step {
      case CreateShipmentStep(_, _, _) => CreationGoesOn(s, t, call);
      case AddItemStep(_, _) => CreationGoesOn(s, t, call);
      case ReceiveStep(_, _) => InspectionGoesOn(s, t, call);
      case ProcessStep(_, _, _, _) => InspectionGoesOn(s, t, call);
      case DestinationReceiveStep(_, _, _, _, _) => InspectionGoesOn(s, t, call);
      case PickUpStep(_, _) => HandoffGoesOn(s, t, call);
      case SendOutStep(_, _, _) => HandoffGoesOn(s, t, call);
      case DeliverStep(_, _, _) => HandoffGoesOn(s, t, call);
      case ReturnStep(_, _, _) => HandoffGoesOn(s, t, call);
      case LoadStep(_, _) => RowStepGoesOn(s, t, call);
      case UnloadStep(_, _) => RowStepGoesOn(s, t, call);
      case AssignItemStep(_, _, _) => RowStepGoesOn(s, t, call);
      case UnassignItemStep(_, _) => RowStepGoesOn(s, t, call);
      case SealStep(c) => SealGoesOn(s, t, c, call.now);
      case FinalizeStep(m) => FinalizeGoesOn(s, t, m, call.now);
      case DepartStep(m) => DepartGoesOn(s, t, m, call.now);
      case ArriveStep(m) => ArriveGoesOn(s, t, m, call.now);
      case AssignContainerStep(_, _, _) => ContainerRowGoesOn(s, t, call);
      case UnassignContainerStep(_, _) => ContainerRowGoesOn(s, t, call);
      case _ => NothingSaid(s, t);
    }
  }

  lemma NothingSaid(s: State, t: State)
    requires t.shipments == s.shipments && t.events == s.events && t.notices == s.notices && t.emails == s.emails
    ensures GoesOn(s, t)
  {
  }

  lemma {:induction false} RunsGoOn(warehouses: set<WarehouseId>, calls: seq<Call>)
    ensures Chronicled(Run(warehouses, calls))
    ensures NoManualEvents(calls) ==> Lawful(Run(warehouses, calls).events)
  {
    if calls != [] {
      var n := |calls| - 1;
      RunsGoOn(warehouses, calls[..n]);
      hide Chronicled, Lawful, Sends, Try;
      var before := Run(warehouses, calls[..n]);
      match Try(before, calls[n]) {
        case Ok(t) =>
          if calls[n].step.ManualStep? {
            ManualChronicles(before, t, calls[n]);
          } else {
            StepGoesOn(before, t, calls[n]);
          }
        case Err(_) =>
      }
    }
  }

  lemma ManualChronicles(s: State, t: State, call: Call)
    requires Wf(s) && call.step.ManualStep? && Try(s, call) == Ok(t) && Chronicled(s)
    ensures Chronicled(t)
  {
    hide Chronicled, Track;
    TrackChronicles(s, call.step.event, call.step.itemStatus);
  }
}
