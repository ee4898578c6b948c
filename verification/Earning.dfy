/**
 The converse of stranding: a shipment's status is earned by every one of its items. Two
 kinds of call can break this, and exactly those two: adding an item to a shipment that is
 already loaded, and passing a held item of such a shipment as ready.
 */
module Earning {
  import opened Basics
  import opened Statuses
  import opened CargoState
  import opened CargoSteps
  import opened CargoRuns
  import opened CargoEffects
  import opened Lockstep
  import opened Stranding
  import opened StrandingSteps

  // The item has come as far as its shipment says, or is held with an exception.
  predicate Earns(it: ItemStatus, st: ShipmentStatus) {
    && (Rank(st) >= Rank(ShipmentStatus.Loaded) ==> Reached(AtLeastLoaded, it) || it.Exception?)
    && (Rank(st) >= Rank(ShipmentStatus.Departed) ==> Reached(AtLeastDeparted, it) || it.Exception?)
    && (Rank(st) >= Rank(ShipmentStatus.ArrivedDestination) ==> Reached(AtLeastArrived, it) || it.Exception?)
    && (Rank(st) >= Rank(ShipmentStatus.ReadyForPickup) ==> Reached(AtLeastAtDestination, it) || it.Exception?)
    && (Rank(st) >= Rank(ShipmentStatus.Delivered) ==> Reached(HandedOff, it))
  }

  ghost predicate AllEarned(s: State)
    requires Wf(s)
  {
    forall i :: i in s.items ==> Earns(s.items[i].status, StatusOf(s, i))
  }

  // Checkable before the call: both breaking calls are refused once the shipment is loaded.
  predicate Disciplined(s: State, step: Step)
    requires Wf(s)
  {
    match step
    case AddItemStep(sh, _) => sh in s.shipments ==> Rank(s.shipments[sh].status) < Rank(ShipmentStatus.Loaded)
    case ProcessStep(i, _, _, f) => i in s.items && f.ready ==> Rank(StatusOf(s, i)) < Rank(ShipmentStatus.Loaded)
    case _ => true
  }

  // A rollup never promises more than each item of the shipment has earned.
  lemma RolledEarns(items: map<ItemId, Item>, sh: ShipmentId, rollup: Rollup, st: ShipmentStatus, i: ItemId)
    requires i in items && items[i].shipment == sh && RegularItem(items[i])
    requires RegularStatus(st) && Earns(items[i].status, st)
    ensures Earns(items[i].status, Rolled(rollup, items, sh, st))
  {
    assert HasItems(items, sh);
  }

  // One item changed to a status its shipment's old status allows; then the rollup.
  lemma OwnerEarns(s: State, t: State, i: ItemId, rollup: Rollup)
    requires Wf(s) && Wf(t) && Chained(s) && AllEarned(s) && RegularItems(t.items)
    requires ItemChanged(s, t, i) && OneRolled(s, t, rollup, s.items[i].shipment)
    requires Earns(t.items[i].status, StatusOf(s, i))
    ensures AllEarned(t)
  {
    hide Earns, Rolled;
    var sh := s.items[i].shipment;
    StatusIsRegular(s, sh);
    forall j | j in t.items
      ensures Earns(t.items[j].status, StatusOf(t, j))
    {
      assert Earns(s.items[j].status, StatusOf(s, j));
      if t.items[j].shipment == sh {
        RolledEarns(t.items, sh, rollup, s.shipments[sh].status, j);
      }
    }
  }

  // The changes a bulk step makes to the items aboard.
  predicate TransportChange(from: ItemStatus, to: ItemStatus) {
    || ((from.AssignedToContainer? || from.AssignedToManifest?) && to.Loaded?)
    || (from.Loaded? && to.DepartedOrigin?)
    || (from.DepartedOrigin? && to.ArrivedDestination?)
  }

  lemma TransportEarns(from: ItemStatus, to: ItemStatus, st: ShipmentStatus)
    requires TransportChange(from, to) && Earns(from, st)
    ensures Earns(to, st)
  {
  }

  lemma LoadEarns(s: State, t: State, units: set<Unit>, from: ItemStatus, to: ItemStatus, rollup: Rollup)
    requires Wf(s) && Wf(t) && Chained(s) && AllEarned(s) && RegularItems(t.items)
    requires CargoTook(s, t, units, to) && CargoIs(s, units, from)
    requires t.shipments.Keys == s.shipments.Keys && CargoRolled(s, t, units, rollup)
    requires TransportChange(from, to)
    ensures AllEarned(t)
  {
    hide Earns, Rolled;
    forall j | j in t.items
      ensures Earns(t.items[j].status, StatusOf(t, j))
    {
      var sh := t.items[j].shipment;
      StatusIsRegular(s, sh);
      assert Earns(s.items[j].status, StatusOf(s, j));
      if Aboard(s.links, |s.links|, units, j) {
        var k :| 0 <= k < |s.links| && Carries(s.links[k], units) && s.links[k].item == j;
        assert s.items[s.links[k].item].status == from;
        TransportEarns(from, to, s.shipments[sh].status);
      }
      if Touched(s.links, units, sh) {
        RolledEarns(t.items, sh, rollup, s.shipments[sh].status, j);
      }
    }
  }

  // The changes a warehouse call makes to the status of its item.
  predicate WarehouseChange(from: ItemStatus, to: ItemStatus, st: ShipmentStatus) {
    || (from.Registered? && to.ReceivedOriginWarehouse?)
    || ((from.ReceivedOriginWarehouse? || from.Processed? || from.Exception?)
        && (to.Exception? || (to.Processed? && Rank(st) < Rank(ShipmentStatus.Loaded))))
    || (from.ArrivedDestination? && (to.ReceivedDestinationWarehouse? || to.Exception?))
    || (from.ReceivedDestinationWarehouse? && (to.PickedUp? || to.OutForDelivery?))
    || (from.OutForDelivery? && (to.Delivered? || to.ReceivedDestinationWarehouse? || to.Exception?))
  }

  lemma ChangeEarns(from: ItemStatus, to: ItemStatus, st: ShipmentStatus)
    requires WarehouseChange(from, to, st) && Earns(from, st)
    ensures Earns(to, st)
  {
  }

  lemma FindingEarns(s: State, t: State, i: ItemId)
    requires Wf(s) && AllEarned(s) && ItemChanged(s, t, i)
    requires WarehouseChange(s.items[i].status, t.items[i].status, StatusOf(s, i))
    ensures Earns(t.items[i].status, StatusOf(s, i))
  {
    hide Earns;
    assert Earns(s.items[i].status, StatusOf(s, i));
    ChangeEarns(s.items[i].status, t.items[i].status, StatusOf(s, i));
  }

  lemma InspectionStepEarns(s: State, t: State, call: Call)
    requires Wf(s) && Wf(t) && Chained(s) && AllEarned(s) && RegularItems(t.items)
    requires call.step.ReceiveStep? || call.step.ProcessStep? || call.step.DestinationReceiveStep?
    requires Try(s, call) == Ok(t) && Disciplined(s, call.step)
    ensures AllEarned(t)
  {
    hide Chained, Rolled, AllEarned, Earns;
    match call.step {
      case ReceiveStep(i, wh) =>
        ReceiveEffect(s, t, i, wh, call.now);
        FindingEarns(s, t, i);
        OwnerEarns(s, t, i, ReceivingRollup);
      case ProcessStep(i, wh, again, f) =>
        ProcessEffect(s, t, i, wh, again, f, call.now);
        FindingEarns(s, t, i);
        OwnerEarns(s, t, i, ProcessingRollup);
      case DestinationReceiveStep(i, wh, d, x, e) =>
        DestinationReceiveEffect(s, t, i, wh, d, x, e, call.now);
        FindingEarns(s, t, i);
        OwnerEarns(s, t, i, ReadyForPickupRollup);
    }
  }

  lemma HandoffStepEarns(s: State, t: State, call: Call)
    requires Wf(s) && Wf(t) && Chained(s) && AllEarned(s) && RegularItems(t.items)
    requires call.step.PickUpStep? || call.step.SendOutStep? || call.step.DeliverStep? || call.step.ReturnStep?
    requires Try(s, call) == Ok(t)
    ensures AllEarned(t)
  {
    hide Chained, Rolled, AllEarned, Earns;
    match call.step {
      case PickUpStep(i, wh) =>
        PickUpEffect(s, t, i, wh, call.now);
        FindingEarns(s, t, i);
        OwnerEarns(s, t, i, CompletionRollup);
      case SendOutStep(i, wh, carrier) =>
        SendOutEffect(s, t, i, wh, carrier, call.now);
        FindingEarns(s, t, i);
        OwnerEarns(s, t, i, OutForDeliveryRollup);
      case DeliverStep(i, wh, carrier) =>
        DeliverEffect(s, t, i, wh, carrier, call.now);
        FindingEarns(s, t, i);
        DeliveryEarns(s, t, i);
      case ReturnStep(i, wh, x) =>
        ReturnEffect(s, t, i, wh, x, call.now);
        FindingEarns(s, t, i);
        ReturnEarns(s, t, i);
    }
  }

  // A return takes the item back, but its shipment was never past OUT_FOR_DELIVERY.
  lemma ReturnEarns(s: State, t: State, i: ItemId)
    requires Wf(s) && Wf(t) && AllEarned(s) && ItemChanged(s, t, i) && t.shipments == s.shipments
    requires Earns(t.items[i].status, StatusOf(s, i))
    ensures AllEarned(t)
  {
    hide Earns;
    forall j | j in t.items
      ensures Earns(t.items[j].status, StatusOf(t, j))
    {
      assert Earns(s.items[j].status, StatusOf(s, j));
    }
  }

  lemma ItemsAreRegular(s: State)
    requires Chained(s)
    ensures RegularItems(s.items)
  {
  }

  lemma DeliveryEarns(s: State, t: State, i: ItemId)
    requires Wf(s) && Wf(t) && Chained(s) && AllEarned(s) && RegularItems(t.items) && ItemChanged(s, t, i)
    requires var sh := s.items[i].shipment;
      t.shipments == s.shipments[sh := s.shipments[sh].(status := AfterDelivery(t.items, sh, s.shipments[sh].status))]
    requires Earns(t.items[i].status, StatusOf(s, i))
    ensures AllEarned(t)
  {
    hide Earns, Rolled;
    var sh := s.items[i].shipment;
    var st := s.shipments[sh].status;
    StatusIsRegular(s, sh);
    forall j | j in t.items
      ensures Earns(t.items[j].status, StatusOf(t, j))
    {
      assert Earns(s.items[j].status, StatusOf(s, j));
      if t.items[j].shipment == sh {
        RolledEarns(t.items, sh, DeliveredRollup, st, j);
        DeliveredIsRegular(t.items, sh, st);
        RolledEarns(t.items, sh, CompletionRollup, Rolled(DeliveredRollup, t.items, sh, st), j);
      }
    }
  }

  lemma DeliveredIsRegular(items: map<ItemId, Item>, sh: ShipmentId, st: ShipmentStatus)
    requires RegularStatus(st)
    ensures RegularStatus(Rolled(DeliveredRollup, items, sh, st))
  {
  }

  // Boarding starts from PROCESSED and leaving ends there, so neither shipment is loaded.
  lemma BoardingEarns(s: State, t: State, i: ItemId)
    requires Wf(s) && AllEarned(s) && ItemChanged(s, t, i)
    requires var from := s.items[i].status; from.Processed? || from.AssignedToContainer? || from.AssignedToManifest?
    ensures Earns(t.items[i].status, StatusOf(s, i))
  {
    assert Earns(s.items[i].status, StatusOf(s, i));
  }

  lemma RowStepEarns(s: State, t: State, call: Call)
    requires Wf(s) && Wf(t) && LinksAgree(s) && Chained(s) && AllEarned(s) && RegularItems(t.items)
    requires call.step.LoadStep? || call.step.UnloadStep? || call.step.AssignItemStep? || call.step.UnassignItemStep?
    requires Try(s, call) == Ok(t)
    ensures AllEarned(t)
  {
    hide Chained, Rolled, AllEarned, Earns, LinksAgree;
    match call.step {
      case LoadStep(c, i) =>
        LoadEffect(s, t, c, i, call.now);
        BoardingEarns(s, t, i);
        OwnerEarns(s, t, i, ContainerRollup);
      case UnloadStep(c, i) =>
        UnloadEffect(s, t, c, i, call.now);
        RowFits(s, FindRow(s.links, InContainer(c), i));
        BoardingEarns(s, t, i);
        OwnerEarns(s, t, i, ContainerRollup);
      case AssignItemStep(m, i, conflict) =>
        AssignItemEffect(s, t, m, i, conflict, call.now);
        BoardingEarns(s, t, i);
        OwnerEarns(s, t, i, ManifestRollup);
      case UnassignItemStep(m, i) =>
        UnassignItemEffect(s, t, m, i, call.now);
        RowFits(s, FindRow(s.links, OnManifest(m), i));
        BoardingEarns(s, t, i);
        OwnerEarns(s, t, i, ManifestRollup);
    }
  }

  lemma SealedCargo(s: State, c: ContainerId)
    requires Wf(s) && LinksAgree(s) && c in s.containers && s.containers[c].status.Loading?
    ensures CargoIs(s, {InContainer(c)}, ItemStatus.AssignedToContainer)
  {
  }

  lemma ManifestStepEarns(s: State, t: State, call: Call)
    requires Wf(s) && Wf(t) && LinksAgree(s) && Chained(s) && AllEarned(s) && RegularItems(t.items)
    requires call.step.FinalizeStep? || call.step.DepartStep? || call.step.ArriveStep?
    requires Try(s, call) == Ok(t)
    ensures AllEarned(t)
  {
    hide Load, Unload, Seal, AssignItem, UnassignItem, FinalizeManifest, Depart, Arrive, AssignContainer, UnassignContainer;
    hide Chained, Rolled, AllEarned, LinksAgree, CargoRolled;
    match call.step {
      case FinalizeStep(m) =>
        FinalizeEffect(s, t, m, call.now);
        if s.manifests[m].mode.Air? {
          LoadEarns(s, t, UnitsOf(s, m), ItemStatus.AssignedToManifest, ItemStatus.Loaded, ManifestRollup);
        } else {
          EarnedFramed(s, t);
        }
      case DepartStep(m) =>
        DepartEffect(s, t, m, call.now);
        LoadEarns(s, t, UnitsOf(s, m), ItemStatus.Loaded, ItemStatus.DepartedOrigin, DepartureRollup);
      case ArriveStep(m) =>
        ArriveEffect(s, t, m, call.now);
        ArrivingCargo(s, m);
        LoadEarns(s, t, UnitsOf(s, m), ItemStatus.DepartedOrigin, ItemStatus.ArrivedDestination, ArrivalRollup);
    }
  }

  lemma TransportStepEarns(s: State, t: State, call: Call)
    requires Wf(s) && Wf(t) && LinksAgree(s) && Chained(s) && AllEarned(s) && RegularItems(t.items)
    requires !DeskStep(call.step) && Try(s, call) == Ok(t)
    ensures AllEarned(t)
  {
    hide Load, Unload, Seal, AssignItem, UnassignItem, FinalizeManifest, Depart, Arrive, AssignContainer, UnassignContainer;
    hide Chained, Rolled, AllEarned, LinksAgree, CargoRolled;
    match call.step {
      case LoadStep(_, _) => RowStepEarns(s, t, call);
      case UnloadStep(_, _) => RowStepEarns(s, t, call);
      case AssignItemStep(_, _, _) => RowStepEarns(s, t, call);
      case UnassignItemStep(_, _) => RowStepEarns(s, t, call);
      case SealStep(c) =>
        SealEffect(s, t, c, call.now);
        SealedCargo(s, c);
        LoadEarns(s, t, {InContainer(c)}, ItemStatus.AssignedToContainer, ItemStatus.Loaded, ContainerRollup);
      case FinalizeStep(_) => ManifestStepEarns(s, t, call);
      case DepartStep(_) => ManifestStepEarns(s, t, call);
      case ArriveStep(_) => ManifestStepEarns(s, t, call);
      case AssignContainerStep(m, c, conflict) =>
        AssignContainerEffect(s, t, m, c, conflict, call.now);
        EarnedFramed(s, t);
      case UnassignContainerStep(m, c) =>
        UnassignContainerEffect(s, t, m, c, call.now);
        EarnedFramed(s, t);
      case _ => EarnedFramed(s, t);
    }
  }

  lemma EarnedFramed(s: State, t: State)
    requires Wf(s) && Wf(t) && AllEarned(s) && t.items == s.items && t.shipments == s.shipments
    ensures AllEarned(t)
  {
  }

  // An item nobody has received yet earns nothing past CONSOLIDATED.
  lemma AddedItemEarns(s: State, t: State, sh: ShipmentId, i: ItemId, now: Time)
    requires Wf(s) && Wf(t) && AllEarned(s) && AddItem(s, sh, i, now) == Ok(t)
    ensures AllEarned(t) <==> Rank(s.shipments[sh].status) < Rank(ShipmentStatus.Loaded)
  {
    AddItemEffect(s, t, sh, i, now);
    assert Earns(t.items[i].status, StatusOf(t, i)) <==> Rank(s.shipments[sh].status) < Rank(ShipmentStatus.Loaded);
    if Earns(t.items[i].status, StatusOf(t, i)) {
      forall j | j in t.items
        ensures Earns(t.items[j].status, StatusOf(t, j))
      {
        if j != i { assert Earns(s.items[j].status, StatusOf(s, j)); }
      }
    }
  }

  lemma CreatedShipmentEarns(s: State, t: State, sh: ShipmentId, email: bool, ids: seq<ItemId>, now: Time)
    requires Wf(s) && Wf(t) && AllEarned(s) && CreateShipment(s, sh, email, ids, now) == Ok(t)
    ensures AllEarned(t)
  {
    hide CreateShipment;
    CreateShipmentEffect(s, t, sh, email, ids, now);
    forall j | j in t.items
      ensures Earns(t.items[j].status, StatusOf(t, j))
    {
      if j in s.items { assert Earns(s.items[j].status, StatusOf(s, j)); }
    }
  }

  lemma ProcessingIdle(items: map<ItemId, Item>, sh: ShipmentId, st: ShipmentStatus)
    requires Rank(st) >= Rank(ShipmentStatus.Loaded)
    ensures Rolled(ProcessingRollup, items, sh, st) == st
  {
  }

  lemma PassedItemBreaks(s: State, t: State, i: ItemId, wh: WarehouseId, again: bool, f: Finding, now: Time)
    requires Wf(s) && Wf(t) && Process(s, i, wh, again, f, now) == Ok(t)
    requires f.ready && Rank(StatusOf(s, i)) >= Rank(ShipmentStatus.Loaded)
    ensures !AllEarned(t)
  {
    hide Rolled;
    ProcessEffect(s, t, i, wh, again, f, now);
    ProcessingIdle(t.items, s.items[i].shipment, StatusOf(s, i));
    assert StatusOf(t, i) == StatusOf(s, i);
    assert !Earns(t.items[i].status, StatusOf(t, i));
  }

  // From any state lockstep and the chain allow, a call keeps every status earned if and only if it
  // is disciplined.
  lemma {:induction false} EarnedExactlyWhenDisciplined(s: State, t: State, call: Call)
    requires Wf(s) && Wf(t) && Orderly(s) && AllEarned(s) && !call.step.ManualStep? && Try(s, call) == Ok(t)
    ensures AllEarned(t) <==> Disciplined(s, call.step)
  {
    hide Chained, InLockstep, LinksAgree, AllEarned;
    LockstepLinks(s);
    StepKeepsChain(s, t, call);
    ItemsAreRegular(t);
    match call.step {
      case AddItemStep(sh, i) => AddedItemEarns(s, t, sh, i, call.now);
      case CreateShipmentStep(sh, email, ids) => CreatedShipmentEarns(s, t, sh, email, ids, call.now);
      case ReceiveStep(_, _) => InspectionStepEarns(s, t, call);
      case ProcessStep(i, wh, again, f) =>
        if Disciplined(s, call.step) {
          InspectionStepEarns(s, t, call);
        } else {
          PassedItemBreaks(s, t, i, wh, again, f, call.now);
        }
      case DestinationReceiveStep(_, _, _, _, _) => InspectionStepEarns(s, t, call);
      case PickUpStep(_, _) => HandoffStepEarns(s, t, call);
      case SendOutStep(_, _, _) => HandoffStepEarns(s, t, call);
      case DeliverStep(_, _, _) => HandoffStepEarns(s, t, call);
      case ReturnStep(_, _, _) => HandoffStepEarns(s, t, call);
      case _ => TransportStepEarns(s, t, call);
    }
  }

  // Every accepted call of the run was disciplined.
  ghost predicate DisciplinedRun(s: State, calls: seq<Call>)
    requires Wf(s)
  {
    calls == [] ||
    (var n := |calls| - 1;
     var before := RunFrom(s, calls[..n]);
     DisciplinedRun(s, calls[..n]) && (Try(before, calls[n]).Ok? ==> Disciplined(before, calls[n].step)))
  }

  lemma {:induction false} DisciplinedRunsEarn(s: State, calls: seq<Call>)
    requires Wf(s) && Orderly(s) && AllEarned(s) && NoManualEvents(calls) && DisciplinedRun(s, calls)
    ensures AllEarned(RunFrom(s, calls))
  {
    hide Orderly, AllEarned;
    if calls != [] {
      var n := |calls| - 1;
      DisciplinedRunsEarn(s, calls[..n]);
      RunsAreOrderly(s, calls[..n]);
      var before := RunFrom(s, calls[..n]);
      match Try(before, calls[n]) {
        case Ok(t) => EarnedExactlyWhenDisciplined(before, t, calls[n]);
        case Err(_) =>
      }
    }
  }

  // In a disciplined run a loaded, departed, arrived, ready or completed shipment has no item that
  // lags behind unless it is held, and a completed one none at all.
  lemma {:induction false} StatusesAreEarned(warehouses: set<WarehouseId>, calls: seq<Call>, i: ItemId)
    requires NoManualEvents(calls) && DisciplinedRun(Empty(warehouses), calls)
    requires i in Run(warehouses, calls).items
    ensures var s := Run(warehouses, calls);
      var it, rank := s.items[i].status, Rank(StatusOf(s, i));
      && (rank >= Rank(ShipmentStatus.Loaded) ==> Reached(AtLeastLoaded, it) || it.Exception?)
      && (rank >= Rank(ShipmentStatus.Departed) ==> Reached(AtLeastDeparted, it) || it.Exception?)
      && (rank >= Rank(ShipmentStatus.ArrivedDestination) ==> Reached(AtLeastArrived, it) || it.Exception?)
      && (rank >= Rank(ShipmentStatus.ReadyForPickup) ==> Reached(AtLeastAtDestination, it) || it.Exception?)
      && (rank >= Rank(ShipmentStatus.Delivered) ==> it.PickedUp? || it.Delivered?)
  {
    DisciplinedRunsEarn(Empty(warehouses), calls);
  }
}
