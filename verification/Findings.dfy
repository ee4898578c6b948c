/** Nothing flagged ships: past processing, an item's latest inspection is always a clean one. */
module Findings {
  import opened Basics
  import opened Statuses
  import opened CargoState
  import opened CargoSteps
  import opened CargoRuns
  import opened CargoEffects
  import opened Lockstep
  import opened LockstepSteps
  import opened Stranding
  import opened StrandingSteps
  import opened Earning
  import opened ClosingRuns

  function Latest(inspections: seq<Inspection>, i: ItemId): Option<Inspection> {
    if inspections == [] then None
    else
      var n := |inspections| - 1;
      if inspections[n].item == i then Some(inspections[n]) else Latest(inspections[..n], i)
  }

  predicate CleanFinding(f: Option<Inspection>) {
    f.Some? && f.value.ready && !f.value.damaged && !f.value.hasException
  }

  ghost predicate Inspected(items: map<ItemId, Item>, inspections: seq<Inspection>) {
    forall i :: i in items && Reached(AtLeastProcessed, items[i].status) ==> CleanFinding(Latest(inspections, i))
  }

  lemma LatestAppended(inspections: seq<Inspection>, f: Inspection, i: ItemId)
    ensures Latest(inspections + [f], i) == if f.item == i then Some(f) else Latest(inspections, i)
  {
    assert (inspections + [f])[..|inspections|] == inspections;
  }

  // One item changed and got an inspection with it.
  lemma FoundKeeps(s: State, t: State, i: ItemId, f: Inspection)
    requires Inspected(s.items, s.inspections) && ItemChanged(s, t, i)
    requires f.item == i && t.inspections == s.inspections + [f]
    requires Reached(AtLeastProcessed, t.items[i].status) ==> CleanFinding(Some(f))
    ensures Inspected(t.items, t.inspections)
  {
    hide CleanFinding;
    forall j | j in t.items && Reached(AtLeastProcessed, t.items[j].status)
      ensures CleanFinding(Latest(t.inspections, j))
    {
      LatestAppended(s.inspections, f, j);
    }
  }

  // One item changed without one; it was past processing before if it is now.
  lemma MovedKeeps(s: State, t: State, i: ItemId)
    requires Inspected(s.items, s.inspections) && ItemChanged(s, t, i) && t.inspections == s.inspections
    requires Reached(AtLeastProcessed, t.items[i].status) ==> Reached(AtLeastProcessed, s.items[i].status)
    ensures Inspected(t.items, t.inspections)
  {
  }

  lemma CargoKeeps(s: State, t: State, units: set<Unit>, from: ItemStatus, to: ItemStatus)
    requires Wf(s) && CargoTook(s, t, units, to) && CargoIs(s, units, from) && Reached(AtLeastProcessed, from)
    requires Inspected(s.items, s.inspections) && t.inspections == s.inspections
    ensures Inspected(t.items, t.inspections)
  {
    hide CleanFinding;
    forall j | j in t.items && Reached(AtLeastProcessed, t.items[j].status)
      ensures CleanFinding(Latest(t.inspections, j))
    {
      if Aboard(s.links, |s.links|, units, j) { AboardIs(s, units, from, j); }
    }
  }

  lemma NewKeeps(s: State, t: State)
    requires Inspected(s.items, s.inspections) && t.inspections == s.inspections
    requires forall i :: i in t.items && Reached(AtLeastProcessed, t.items[i].status) ==>
      i in s.items && t.items[i] == s.items[i]
    ensures Inspected(t.items, t.inspections)
  {
  }

  // Which calls inspect, and what they write down.
  lemma InspectingCalls(s: State, t: State, call: Call)
    requires Wf(s) && WarehouseStep(call.step) && Try(s, call) == Ok(t)
    ensures call.step.ProcessStep? ==>
      var f := call.step.finding;
      t.inspections == s.inspections + [Inspection(call.step.item, f.ready, f.damaged, f.hasException)]
      && (f.ready ==> !f.damaged && !f.hasException)
    ensures call.step.DestinationReceiveStep? ==>
      var bad := call.step.damaged || call.step.hasException;
      t.inspections == s.inspections + [Inspection(call.step.item, !bad, call.step.damaged, call.step.hasException)]
    ensures !call.step.ProcessStep? && !call.step.DestinationReceiveStep? ==> t.inspections == s.inspections
  {
    hide Roll, TrackItem;
  }

  lemma WarehouseKeepsInspected(s: State, t: State, call: Call)
    requires Wf(s) && WarehouseStep(call.step) && Try(s, call) == Ok(t) && Inspected(s.items, s.inspections)
    ensures Inspected(t.items, t.inspections)
  {
    hide Receive, Process, DestinationReceive, PickUp, SendOut, Deliver, Return, Inspected, OneRolled, Rolled;
    InspectingCalls(s, t, call);
    match call.step {
      case ReceiveStep(i, wh) =>
        ReceiveEffect(s, t, i, wh, call.now);
        MovedKeeps(s, t, i);
      case ProcessStep(i, wh, again, f) =>
        ProcessEffect(s, t, i, wh, again, f, call.now);
        FoundKeeps(s, t, i, Inspection(i, f.ready, f.damaged, f.hasException));
      case DestinationReceiveStep(i, wh, d, x, e) =>
        DestinationReceiveEffect(s, t, i, wh, d, x, e, call.now);
        FoundKeeps(s, t, i, Inspection(i, !(d || x), d, x));
      case PickUpStep(i, wh) =>
        PickUpEffect(s, t, i, wh, call.now);
        MovedKeeps(s, t, i);
      case SendOutStep(i, wh, carrier) =>
        SendOutEffect(s, t, i, wh, carrier, call.now);
        MovedKeeps(s, t, i);
      case DeliverStep(i, wh, carrier) =>
        DeliverEffect(s, t, i, wh, carrier, call.now);
        MovedKeeps(s, t, i);
      case ReturnStep(i, wh, x) =>
        ReturnEffect(s, t, i, wh, x, call.now);
        MovedKeeps(s, t, i);
    }
  }

  lemma BulkInspections(s: State, t: State, call: Call)
    requires Wf(s) && Try(s, call) == Ok(t)
    requires call.step.SealStep? || call.step.FinalizeStep? || call.step.DepartStep? || call.step.ArriveStep?
    ensures t.inspections == s.inspections
  {
    hide TrackCargo, RollAffected, EmptyManifest, CargoIs, ContainersAre, ApprovedCargo, NobodyAboard, UnitsOf, Wf;
  }

  lemma RowInspections(s: State, t: State, call: Call)
    requires Wf(s) && Try(s, call) == Ok(t)
    requires call.step.LoadStep? || call.step.UnloadStep? || call.step.AssignItemStep? || call.step.UnassignItemStep?
    ensures t.inspections == s.inspections
  {
    hide Roll, TrackItem, FindRow, NobodyAboard, Rolled;
  }

  lemma RowKeepsInspected(s: State, t: State, call: Call)
    requires Wf(s) && LinksAgree(s) && Try(s, call) == Ok(t) && Inspected(s.items, s.inspections)
    requires call.step.LoadStep? || call.step.UnloadStep? || call.step.AssignItemStep? || call.step.UnassignItemStep?
    ensures Inspected(t.items, t.inspections)
  {
    hide Load, Unload, AssignItem, UnassignItem, Inspected, OneRolled, Rolled, LinksAgree;
    RowInspections(s, t, call);
    match call.step {
      case LoadStep(c, i) => LoadEffect(s, t, c, i, call.now);
      case UnloadStep(c, i) =>
        UnloadEffect(s, t, c, i, call.now);
        RowFits(s, FindRow(s.links, InContainer(c), i));
      case AssignItemStep(m, i, conflict) => AssignItemEffect(s, t, m, i, conflict, call.now);
      case UnassignItemStep(m, i) =>
        UnassignItemEffect(s, t, m, i, call.now);
        RowFits(s, FindRow(s.links, OnManifest(m), i));
    }
    MovedKeeps(s, t, call.step.item);
  }

  lemma BulkKeepsInspected(s: State, t: State, call: Call)
    requires Wf(s) && LinksAgree(s) && Try(s, call) == Ok(t) && Inspected(s.items, s.inspections)
    requires call.step.SealStep? || call.step.FinalizeStep? || call.step.DepartStep? || call.step.ArriveStep?
    ensures Inspected(t.items, t.inspections)
  {
    hide Seal, FinalizeManifest, Depart, Arrive, Inspected, CargoTook, CargoIs, CargoRolled, LinksAgree, EmptyManifest;
    BulkInspections(s, t, call);
    match call.step {
      case SealStep(c) =>
        SealEffect(s, t, c, call.now);
        SealedCargo(s, c);
        CargoKeeps(s, t, {InContainer(c)}, ItemStatus.AssignedToContainer, ItemStatus.Loaded);
      case FinalizeStep(m) =>
        FinalizeEffect(s, t, m, call.now);
        if s.manifests[m].mode.Air? {
          CargoKeeps(s, t, UnitsOf(s, m), ItemStatus.AssignedToManifest, ItemStatus.Loaded);
        }
      case DepartStep(m) =>
        DepartEffect(s, t, m, call.now);
        CargoKeeps(s, t, UnitsOf(s, m), ItemStatus.Loaded, ItemStatus.DepartedOrigin);
      case ArriveStep(m) =>
        ArriveEffect(s, t, m, call.now);
        ArrivingCargo(s, m);
        CargoKeeps(s, t, UnitsOf(s, m), ItemStatus.DepartedOrigin, ItemStatus.ArrivedDestination);
    }
  }

  lemma OtherInspections(s: State, t: State, call: Call)
    requires Wf(s) && Try(s, call) == Ok(t)
    requires call.step.AssignContainerStep? || call.step.UnassignContainerStep?
      || call.step.CreateShipmentStep? || call.step.AddItemStep?
    ensures t.inspections == s.inspections
  {
    hide TrackCargo, CreateItems, CreateItem, Wf;
  }

  lemma StepKeepsInspected(s: State, t: State, call: Call)
    requires Wf(s) && LinksAgree(s) && !call.step.ManualStep? && Try(s, call) == Ok(t) && Inspected(s.items, s.inspections)
    ensures Inspected(t.items, t.inspections)
  {
    hide Load, Unload, Seal, AssignItem, UnassignItem, FinalizeManifest, Depart, Arrive, CreateShipment, AddItem;
    hide AssignContainer, UnassignContainer, Inspected, LinksAgree;
    if WarehouseStep(call.step) {
      WarehouseKeepsInspected(s, t, call);
      return;
    }
    match call.step {
      case CreateShipmentStep(other, email, ids) =>
        CreateShipmentEffect(s, t, other, email, ids, call.now);
        OtherInspections(s, t, call);
        NewKeeps(s, t);
      case AddItemStep(other, i) =>
        AddItemEffect(s, t, other, i, call.now);
        OtherInspections(s, t, call);
        NewKeeps(s, t);
      case LoadStep(_, _) => RowKeepsInspected(s, t, call);
      case UnloadStep(_, _) => RowKeepsInspected(s, t, call);
      case AssignItemStep(_, _, _) => RowKeepsInspected(s, t, call);
      case UnassignItemStep(_, _) => RowKeepsInspected(s, t, call);
      case SealStep(_) => BulkKeepsInspected(s, t, call);
      case FinalizeStep(_) => BulkKeepsInspected(s, t, call);
      case DepartStep(_) => BulkKeepsInspected(s, t, call);
      case ArriveStep(_) => BulkKeepsInspected(s, t, call);
      case AssignContainerStep(m, c, conflict) =>
        AssignContainerEffect(s, t, m, c, conflict, call.now);
        OtherInspections(s, t, call);
      case UnassignContainerStep(m, c) =>
        UnassignContainerEffect(s, t, m, c, call.now);
        OtherInspections(s, t, call);
      case _ =>
    }
  }

  lemma {:induction false} RunsInspect(warehouses: set<WarehouseId>, calls: seq<Call>)
    requires NoManualEvents(calls)
    ensures Inspected(Run(warehouses, calls).items, Run(warehouses, calls).inspections)
  {
    if calls != [] {
      var n := |calls| - 1;
      RunsInspect(warehouses, calls[..n]);
      EveryRunIsOrderly(warehouses, calls[..n]);
      hide Inspected, InLockstep, Chained, Try;
      var before := Run(warehouses, calls[..n]);
      LockstepLinks(before);
      match Try(before, calls[n]) {
        case Ok(t) => StepKeepsInspected(before, t, calls[n]);
        case Err(_) =>
      }
    }
  }

  // Whatever cycles of unloading, reassigning and returning it went through, an item that is
  // committed, sealed, departed, arrived or handed over has a latest inspection that passed it.
  lemma NothingFlaggedShips(warehouses: set<WarehouseId>, calls: seq<Call>, i: ItemId)
    requires NoManualEvents(calls) && i in Run(warehouses, calls).items
    requires Reached(AtLeastProcessed, Run(warehouses, calls).items[i].status)
    ensures var found := Latest(Run(warehouses, calls).inspections, i);
      found.Some? && found.value.ready && !found.value.damaged && !found.value.hasException
  {
    RunsInspect(warehouses, calls);
  }
}
