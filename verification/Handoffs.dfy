/** The handoff records and the items agree on who took what. */
module Handoffs {
  import opened Basics
  import opened Statuses
  import opened CargoState
  import opened CargoSteps
  import opened CargoRuns
  import opened CargoEffects
  import opened Lockstep
  import opened LockstepSteps
  import opened Stranding
  import opened StrandingSteps
  import opened Earning
  import opened ClosingRuns

  function LastHandoff(handoffs: seq<Handoff>, i: ItemId): Option<Handoff> {
    if handoffs == [] then None
    else
      var n := |handoffs| - 1;
      if handoffs[n].item == i then Some(handoffs[n]) else LastHandoff(handoffs[..n], i)
  }

  lemma LastOfMore(handoffs: seq<Handoff>, h: Handoff, i: ItemId)
    ensures LastHandoff(handoffs + [h], i) == if h.item == i then Some(h) else LastHandoff(handoffs, i)
  {
    assert (handoffs + [h])[..|handoffs|] == handoffs;
  }

  // Handed over by a pickup or a delivery exactly if that is the last record, on the road only after a
  // dispatch; and the record is in the item's own shipment.
  predicate Agrees(it: Item, last: Option<Handoff>) {
    && (it.status.PickedUp? <==> last.Some? && last.value.kind.Pickup?)
    && (it.status.Delivered? <==> last.Some? && last.value.kind.Delivery?)
    && (it.status.OutForDelivery? ==> last.Some? && last.value.kind.Dispatch?)
    && (last.Some? ==> last.value.shipment == it.shipment)
  }

  ghost predicate AllAgree(items: map<ItemId, Item>, handoffs: seq<Handoff>) {
    && (forall i :: i in items ==> Agrees(items[i], LastHandoff(handoffs, i)))
    && (forall i :: LastHandoff(handoffs, i).Some? ==> i in items)
  }

  // A change between two statuses that no handoff decides.
  lemma SilentChange(s: State, t: State, i: ItemId)
    requires AllAgree(s.items, s.handoffs) && ItemChanged(s, t, i) && t.handoffs == s.handoffs
    requires !IsHandoff(s.items[i].status) && !IsHandoff(t.items[i].status) && !t.items[i].status.OutForDelivery?
    ensures AllAgree(t.items, t.handoffs)
  {
    hide LastHandoff;
  }

  predicate IsHandoff(st: ItemStatus) {
    st.PickedUp? || st.Delivered?
  }

  lemma RecordedChange(s: State, t: State, i: ItemId, h: Handoff)
    requires AllAgree(s.items, s.handoffs) && ItemChanged(s, t, i) && t.handoffs == s.handoffs + [h]
    requires h.item == i && Agrees(t.items[i], Some(h))
    ensures AllAgree(t.items, t.handoffs)
  {
    hide LastHandoff, Agrees;
    forall j
      ensures LastHandoff(t.handoffs, j) == if j == i then Some(h) else LastHandoff(s.handoffs, j)
    {
      LastOfMore(s.handoffs, h, j);
    }
  }

  lemma WarehouseAgrees(s: State, t: State, call: Call)
    requires Wf(s) && AllAgree(s.items, s.handoffs) && WarehouseStep(call.step) && Try(s, call) == Ok(t)
    ensures AllAgree(t.items, t.handoffs)
  {
    hide Receive, Process, DestinationReceive, PickUp, SendOut, Deliver, Return, OneRolled, AllAgree, Rolled;
    WarehouseHandoffs(s, t, call);
    match call.step {
      case ReceiveStep(i, wh) =>
        ReceiveEffect(s, t, i, wh, call.now);
        SilentChange(s, t, i);
      case ProcessStep(i, wh, again, f) =>
        ProcessEffect(s, t, i, wh, again, f, call.now);
        SilentChange(s, t, i);
      case DestinationReceiveStep(i, wh, d, x, e) =>
        DestinationReceiveEffect(s, t, i, wh, d, x, e, call.now);
        SilentChange(s, t, i);
      case PickUpStep(i, wh) =>
        PickUpEffect(s, t, i, wh, call.now);
        RecordedChange(s, t, i, Handoff(s.items[i].shipment, i, Pickup));
      case SendOutStep(i, wh, carrier) =>
        SendOutEffect(s, t, i, wh, carrier, call.now);
        RecordedChange(s, t, i, Handoff(s.items[i].shipment, i, Dispatch));
      case DeliverStep(i, wh, carrier) =>
        DeliverEffect(s, t, i, wh, carrier, call.now);
        RecordedChange(s, t, i, Handoff(s.items[i].shipment, i, Delivery));
      case ReturnStep(i, wh, x) =>
        ReturnEffect(s, t, i, wh, x, call.now);
        SilentChange(s, t, i);
    }
  }

  lemma RowAgrees(s: State, t: State, call: Call)
    requires Wf(s) && LinksAgree(s) && AllAgree(s.items, s.handoffs) && Try(s, call) == Ok(t)
    requires call.step.LoadStep? || call.step.UnloadStep? || call.step.AssignItemStep? || call.step.UnassignItemStep?
    ensures AllAgree(t.items, t.handoffs)
  {
    hide Load, Unload, AssignItem, UnassignItem, OneRolled, AllAgree, Rolled, LinksAgree, NobodyAboard;
    RowHandoffs(s, t, call);
    match call.step {
      case LoadStep(c, i) => LoadEffect(s, t, c, i, call.now);
      case UnloadStep(c, i) =>
        UnloadEffect(s, t, c, i, call.now);
        RowFits(s, FindRow(s.links, InContainer(c), i));
      case AssignItemStep(m, i, conflict) => AssignItemEffect(s, t, m, i, conflict, call.now);
      case UnassignItemStep(m, i) =>
        UnassignItemEffect(s, t, m, i, call.now);
        RowFits(s, FindRow(s.links, OnManifest(m), i));
    }
    SilentChange(s, t, call.step.item);
  }

  lemma CargoAgrees(s: State, t: State, units: set<Unit>, from: ItemStatus, to: ItemStatus)
    requires Wf(s) && AllAgree(s.items, s.handoffs) && CargoTook(s, t, units, to) && CargoIs(s, units, from)
    requires t.handoffs == s.handoffs && !IsHandoff(from) && !IsHandoff(to) && !to.OutForDelivery?
    ensures AllAgree(t.items, t.handoffs)
  {
    hide LastHandoff;
    forall i | i in t.items
      ensures Agrees(t.items[i], LastHandoff(t.handoffs, i))
    {
      assert Agrees(s.items[i], LastHandoff(s.handoffs, i));
      if Aboard(s.links, |s.links|, units, i) { AboardIs(s, units, from, i); }
    }
  }

  lemma BulkAgrees(s: State, t: State, call: Call)
    requires Wf(s) && LinksAgree(s) && AllAgree(s.items, s.handoffs) && Try(s, call) == Ok(t)
    requires call.step.SealStep? || call.step.FinalizeStep? || call.step.DepartStep? || call.step.ArriveStep?
    ensures AllAgree(t.items, t.handoffs)
  {
    hide Seal, FinalizeManifest, Depart, Arrive, CargoTook, CargoIs, CargoRolled, LinksAgree, EmptyManifest, AllAgree;
    BulkHandoffs(s, t, call);
    match call.step {
      case SealStep(c) =>
        SealEffect(s, t, c, call.now);
        SealedCargo(s, c);
        CargoAgrees(s, t, {InContainer(c)}, ItemStatus.AssignedToContainer, ItemStatus.Loaded);
      case FinalizeStep(m) =>
        FinalizeEffect(s, t, m, call.now);
        if s.manifests[m].mode.Air? {
          CargoAgrees(s, t, UnitsOf(s, m), ItemStatus.AssignedToManifest, ItemStatus.Loaded);
        }
      case DepartStep(m) =>
        DepartEffect(s, t, m, call.now);
        CargoAgrees(s, t, UnitsOf(s, m), ItemStatus.Loaded, ItemStatus.DepartedOrigin);
      case ArriveStep(m) =>
        ArriveEffect(s, t, m, call.now);
        ArrivingCargo(s, m);
        CargoAgrees(s, t, UnitsOf(s, m), ItemStatus.DepartedOrigin, ItemStatus.ArrivedDestination);
    }
  }

  lemma NewItemsAgree(s: State, t: State)
    requires AllAgree(s.items, s.handoffs) && t.handoffs == s.handoffs
    requires forall i :: i in s.items ==> i in t.items && t.items[i] == s.items[i]
    requires forall i :: i in t.items && i !in s.items ==> t.items[i].status.Registered?
    ensures AllAgree(t.items, t.handoffs)
  {
    hide LastHandoff;
  }

  lemma QuietItems(s: State, t: State, call: Call)
    requires Wf(s) && Try(s, call) == Ok(t)
    requires call.step.CreateShipmentStep? || call.step.AddItemStep? || call.step.AssignContainerStep?
      || call.step.UnassignContainerStep? || call.step.CreateContainerStep? || call.step.CreateManifestStep?
      || call.step.OpenStep? || call.step.CloseStep?
    ensures forall i :: i in s.items ==> i in t.items && t.items[i] == s.items[i]
    ensures forall i :: i in t.items && i !in s.items ==> t.items[i].status.Registered?
  {
    hide CreateShipment, AddItem, AssignContainer, UnassignContainer, Wf;
    match call.step {
      case CreateShipmentStep(sh, email, ids) => CreateShipmentEffect(s, t, sh, email, ids, call.now);
      case AddItemStep(sh, i) => AddItemEffect(s, t, sh, i, call.now);
      case AssignContainerStep(m, c, conflict) => AssignContainerEffect(s, t, m, c, conflict, call.now);
      case UnassignContainerStep(m, c) => UnassignContainerEffect(s, t, m, c, call.now);
      case _ =>
    }
  }

  lemma QuietAgrees(s: State, t: State, call: Call)
    requires Wf(s) && AllAgree(s.items, s.handoffs) && Try(s, call) == Ok(t)
    requires call.step.CreateShipmentStep? || call.step.AddItemStep? || call.step.AssignContainerStep?
      || call.step.UnassignContainerStep? || call.step.CreateContainerStep? || call.step.CreateManifestStep?
      || call.step.OpenStep? || call.step.CloseStep?
    ensures AllAgree(t.items, t.handoffs)
  {
    hide Try, Wf, AllAgree;
    QuietHandoffs(s, t, call);
    QuietItems(s, t, call);
    NewItemsAgree(s, t);
  }

  lemma CallAgrees(s: State, t: State, call: Call)
    requires Wf(s) && LinksAgree(s) && AllAgree(s.items, s.handoffs) && !call.step.ManualStep? && Try(s, call) == Ok(t)
    ensures AllAgree(t.items, t.handoffs)
  {
    hide Try, Wf, LinksAgree, AllAgree;
    if WarehouseStep(call.step) {
      WarehouseAgrees(s, t, call);
      return;
    }
    match call.step {
      case LoadStep(_, _) => RowAgrees(s, t, call);
      case UnloadStep(_, _) => RowAgrees(s, t, call);
      case AssignItemStep(_, _, _) => RowAgrees(s, t, call);
      case UnassignItemStep(_, _) => RowAgrees(s, t, call);
      case SealStep(_) => BulkAgrees(s, t, call);
      case FinalizeStep(_) => BulkAgrees(s, t, call);
      case DepartStep(_) => BulkAgrees(s, t, call);
      case ArriveStep(_) => BulkAgrees(s, t, call);
      case _ => QuietAgrees(s, t, call);
    }
  }

  lemma {:induction false} RunsAgree(warehouses: set<WarehouseId>, calls: seq<Call>)
    requires NoManualEvents(calls)
    ensures AllAgree(Run(warehouses, calls).items, Run(warehouses, calls).handoffs)
  {
    if calls != [] {
      var n := |calls| - 1;
      RunsAgree(warehouses, calls[..n]);
      EveryRunIsOrderly(warehouses, calls[..n]);
      var before := Run(warehouses, calls[..n]);
      LockstepLinks(before);
      hide Try, Wf, AllAgree, Orderly, LinksAgree;
      match Try(before, calls[n]) {
        case Ok(t) => CallAgrees(before, t, calls[n]);
        case Err(_) =>
      }
    }
  }

  // In every reachable state: an item is PICKED_UP, or DELIVERED, exactly if the last record of its handing
  // over is a pickup, or a delivery; one on the road was dispatched last; and every record is about an item
  // that exists, in its own shipment.
  lemma {:induction false} RecordsAgreeWithItems(warehouses: set<WarehouseId>, calls: seq<Call>, i: ItemId)
    requires NoManualEvents(calls)
    ensures var s := Run(warehouses, calls);
      var last := LastHandoff(s.handoffs, i);
      && (last.Some? ==> i in s.items && last.value.shipment == s.items[i].shipment)
      && (i in s.items ==>
        && (s.items[i].status.PickedUp? <==> last.Some? && last.value.kind.Pickup?)
        && (s.items[i].status.Delivered? <==> last.Some? && last.value.kind.Delivery?)
        && (s.items[i].status.OutForDelivery? ==> last.Some? && last.value.kind.Dispatch?))
  {
    RunsAgree(warehouses, calls);
    assert i in Run(warehouses, calls).items ==>
      Agrees(Run(warehouses, calls).items[i], LastHandoff(Run(warehouses, calls).handoffs, i));
  }
}
