/**
 Which calls are accepted: in every reachable state an item's status and whereabouts decide what
 can be done with it next, and the guards behind them never stand in the way.
 */
module Acceptance {
  import opened Basics
  import opened Statuses
  import opened CargoState
  import opened CargoSteps
  import opened CargoRuns
  import opened Stranding
  import opened StrandingSteps
  import opened Earning
  import opened Whereabouts
  import opened CargoEffects
  import opened Progress

  // What a reachable state gives: no shipment is cancelled, and items stand where they say.
  ghost predicate Calm(s: State, warehouses: set<WarehouseId>)
    requires Wf(s)
  {
    && s.warehouses == warehouses
    && AllStand(s)
    && (forall sh :: sh in s.shipments ==> RegularStatus(s.shipments[sh].status))
    && RegularItems(s.items)
  }

  lemma {:induction false} RunsAreCalm(warehouses: set<WarehouseId>, calls: seq<Call>)
    requires NoManualEvents(calls)
    ensures Calm(Run(warehouses, calls), warehouses)
  {
    EveryRunIsOrderly(warehouses, calls);
    RunsPlace(warehouses, calls);
    SameWarehousesAll(warehouses, calls);
    ItemsAreRegular(Run(warehouses, calls));
    hide RidersStand, FleetStands;
    forall sh | sh in Run(warehouses, calls).shipments
      ensures RegularStatus(Run(warehouses, calls).shipments[sh].status)
    {
      StatusIsRegular(Run(warehouses, calls), sh);
    }
  }

  // --- The warehouse ----------------------------------------------------------------------------

  lemma InspectionsAccept(s: State, warehouses: set<WarehouseId>, i: ItemId, wh: WarehouseId, now: Time)
    requires Wf(s) && Calm(s, warehouses) && i in s.items
    ensures Receive(s, i, wh, now).Ok? <==> s.items[i].status.Registered? && wh in warehouses
    ensures forall damaged, flagged, described :: DestinationReceive(s, i, wh, damaged, flagged, described, now).Ok? <==>
      s.items[i].status.ArrivedDestination? && wh in warehouses && (flagged ==> described)
  {
    hide Roll, TrackItem, AllStand;
  }

  lemma ProcessingAccepts(s: State, warehouses: set<WarehouseId>, i: ItemId, wh: WarehouseId, again: bool, f: Finding, now: Time)
    requires Wf(s) && Calm(s, warehouses) && i in s.items
    ensures Process(s, i, wh, again, f, now).Ok? <==>
      && s.items[i].warehouse == Some(wh)
      && (s.items[i].status.ReceivedOriginWarehouse?
          || (again && (s.items[i].status.Processed? || s.items[i].status.Exception?)))
      && (f.hasException ==> f.described)
      && (f.ready ==> !f.hasException && !f.damaged)
  {
    hide Roll, TrackItem;
    StandsHere(s, i);
  }

  lemma HandoversAccept(s: State, warehouses: set<WarehouseId>, i: ItemId, wh: WarehouseId, carrier: Carrier, now: Time)
    requires Wf(s) && Calm(s, warehouses) && i in s.items
    ensures PickUp(s, i, wh, now).Ok? <==>
      s.items[i].status.ReceivedDestinationWarehouse? && s.items[i].warehouse == Some(wh)
    ensures SendOut(s, i, wh, carrier, now).Ok? <==>
      carrier.Named? && s.items[i].status.ReceivedDestinationWarehouse? && s.items[i].warehouse == Some(wh)
    ensures Deliver(s, i, wh, carrier, now).Ok? <==>
      s.items[i].status.OutForDelivery? && wh in warehouses && !carrier.UnknownDriver?
    ensures forall flagged :: Return(s, i, wh, flagged, now).Ok? <==> s.items[i].status.OutForDelivery? && wh in warehouses
  {
    hide Roll, TrackItem;
    StandsHere(s, i);
  }

  // In every reachable state the warehouse's calls on an item are accepted exactly by its status, where it
  // stands, and what the request itself must say. Receiving and returning need a known warehouse; every
  // other call names the one where the item is.
  lemma {:induction false} StatusDecidesWarehouseCalls(warehouses: set<WarehouseId>, calls: seq<Call>, i: ItemId, wh: WarehouseId,
                                                       again: bool, f: Finding, carrier: Carrier, now: Time)
    requires NoManualEvents(calls) && i in Run(warehouses, calls).items
    ensures var s := Run(warehouses, calls);
      var it := s.items[i];
      var here := it.warehouse == Some(wh);
      && (Receive(s, i, wh, now).Ok? <==> it.status.Registered? && wh in warehouses)
      && (Process(s, i, wh, again, f, now).Ok? <==>
        && here && (f.hasException ==> f.described) && (f.ready ==> !f.hasException && !f.damaged)
        && (it.status.ReceivedOriginWarehouse? || (again && (it.status.Processed? || it.status.Exception?))))
      && (DestinationReceive(s, i, wh, f.damaged, f.hasException, f.described, now).Ok? <==>
        it.status.ArrivedDestination? && wh in warehouses && (f.hasException ==> f.described))
      && (PickUp(s, i, wh, now).Ok? <==> it.status.ReceivedDestinationWarehouse? && here)
      && (SendOut(s, i, wh, carrier, now).Ok? <==> carrier.Named? && it.status.ReceivedDestinationWarehouse? && here)
      && (Deliver(s, i, wh, carrier, now).Ok? <==>
        it.status.OutForDelivery? && wh in warehouses && !carrier.UnknownDriver?)
      && (Return(s, i, wh, f.hasException, now).Ok? <==> it.status.OutForDelivery? && wh in warehouses)
  {
    hide Run, Receive, Process, DestinationReceive, PickUp, SendOut, Deliver, Return, Calm;
    var s := Run(warehouses, calls);
    RunsAreCalm(warehouses, calls);
    InspectionsAccept(s, warehouses, i, wh, now);
    ProcessingAccepts(s, warehouses, i, wh, again, f, now);
    HandoversAccept(s, warehouses, i, wh, carrier, now);
  }

  // --- Transports -------------------------------------------------------------------------------

  ghost predicate RidesOn(s: State, u: Unit, i: ItemId) {
    exists k :: ActiveOn(s.links, k, u, i)
  }

  lemma FindsRider(s: State, u: Unit, i: ItemId)
    ensures FindRow(s.links, u, i) < |s.links| <==> RidesOn(s, u, i)
  {
    var k := FindRow(s.links, u, i);
    if k < |s.links| { assert ActiveOn(s.links, k, u, i); }
  }

  lemma BoardingAccepts(s: State, warehouses: set<WarehouseId>, c: ContainerId, m: ManifestId, i: ItemId, conflict: bool, now: Time)
    requires Wf(s) && Calm(s, warehouses)
    ensures Load(s, c, i, now).Ok? <==>
      && c in s.containers && i in s.items
      && (s.containers[c].status.Booked? || s.containers[c].status.Loading?)
      && s.items[i].status.Processed?
      && s.items[i].warehouse == s.containers[c].warehouse
    ensures AssignItem(s, m, i, conflict, now).Ok? <==>
      && m in s.manifests && i in s.items
      && s.manifests[m].status.Draft? && s.manifests[m].mode.Air?
      && s.items[i].status.Processed?
      && (s.manifests[m].originWarehouse.Some? ==> s.items[i].warehouse == s.manifests[m].originWarehouse)
      && !conflict
  {
    hide Roll, TrackItem;
    if i in s.items { StandsHere(s, i); }
  }

  lemma LeavingAccepts(s: State, c: ContainerId, m: ManifestId, i: ItemId, now: Time)
    requires Wf(s)
    ensures Unload(s, c, i, now).Ok? <==>
      && c in s.containers && (s.containers[c].status.Booked? || s.containers[c].status.Loading?)
      && RidesOn(s, InContainer(c), i)
    ensures UnassignItem(s, m, i, now).Ok? <==>
      m in s.manifests && s.manifests[m].status.Draft? && RidesOn(s, OnManifest(m), i)
  {
    hide Roll, TrackItem, NobodyAboard, RidesOn;
    FindsRider(s, InContainer(c), i);
    FindsRider(s, OnManifest(m), i);
  }

  lemma FleetAccepts(s: State, c: ContainerId, m: ManifestId, conflict: bool, now: Time)
    requires Wf(s)
    ensures AssignContainer(s, m, c, conflict, now).Ok? <==>
      && m in s.manifests && c in s.containers
      && s.manifests[m].status.Draft? && !s.manifests[m].mode.Air?
      && s.containers[c].status.Loaded? && s.containers[c].manifest.None?
      && (s.manifests[m].originWarehouse.Some? ==> s.containers[c].warehouse == s.manifests[m].originWarehouse)
      && !conflict
    ensures UnassignContainer(s, m, c, now).Ok? <==>
      m in s.manifests && c in s.containers && s.manifests[m].status.Draft? && s.containers[c].manifest == Some(m)
    ensures OpenContainer(s, c).Ok? <==> c in s.containers && s.containers[c].status.Arrived?
    ensures CloseContainer(s, c).Ok? <==> c in s.containers && s.containers[c].status.Unloading?
  {
    hide TrackCargo;
  }

  // In every reachable state: a PROCESSED item boards every open container at its warehouse and every draft
  // flight from there, and nothing else does; what rides an open transport can leave it; sealed containers
  // join draft manifests from their warehouse; arrived ones are opened and then closed.
  lemma {:induction false} StatusDecidesTransportCalls(warehouses: set<WarehouseId>, calls: seq<Call>, c: ContainerId,
                                                       m: ManifestId, i: ItemId, conflict: bool, now: Time)
    requires NoManualEvents(calls) && i in Run(warehouses, calls).items
    requires c in Run(warehouses, calls).containers && m in Run(warehouses, calls).manifests
    ensures var s := Run(warehouses, calls);
      var it, box, row := s.items[i], s.containers[c], s.manifests[m];
      var accepting := box.status.Booked? || box.status.Loading?;
      var draft := row.status.Draft?;
      && (Load(s, c, i, now).Ok? <==> accepting && it.status.Processed? && it.warehouse == box.warehouse)
      && (Unload(s, c, i, now).Ok? <==> accepting && RidesOn(s, InContainer(c), i))
      && (AssignItem(s, m, i, conflict, now).Ok? <==>
        && draft && row.mode.Air? && it.status.Processed? && !conflict
        && (row.originWarehouse.Some? ==> it.warehouse == row.originWarehouse))
      && (UnassignItem(s, m, i, now).Ok? <==> draft && RidesOn(s, OnManifest(m), i))
      && (AssignContainer(s, m, c, conflict, now).Ok? <==>
        && draft && !row.mode.Air? && box.status.Loaded? && box.manifest.None? && !conflict
        && (row.originWarehouse.Some? ==> box.warehouse == row.originWarehouse))
      && (UnassignContainer(s, m, c, now).Ok? <==> draft && box.manifest == Some(m))
      && (OpenContainer(s, c).Ok? <==> box.status.Arrived?)
      && (CloseContainer(s, c).Ok? <==> box.status.Unloading?)
  {
    hide Run, Load, Unload, AssignItem, UnassignItem, AssignContainer, UnassignContainer, OpenContainer, CloseContainer;
    hide Calm, RidesOn;
    var s := Run(warehouses, calls);
    RunsAreCalm(warehouses, calls);
    BoardingAccepts(s, warehouses, c, m, i, conflict, now);
    LeavingAccepts(s, c, m, i, now);
    FleetAccepts(s, c, m, conflict, now);
  }

  // In every state: no item of a cancelled shipment is handled at a warehouse or put on a transport.
  lemma {:induction false} CancelledShipmentsRest(s: State, call: Call)
    requires Wf(s)
    requires WarehouseStep(call.step) || call.step.LoadStep? || call.step.AssignItemStep?
    requires call.step.item in s.items && s.shipments[s.items[call.step.item].shipment].status.Cancelled?
    ensures Try(s, call).Err?
  {
    hide Roll, TrackItem;
  }

  // --- Creation and manual events ---------------------------------------------------------------

  // In every state: ids that are in use are never drawn again, and warehouses named are known ones.
  lemma {:induction false} NewRowsAreAcceptedExactlyWhenNew(s: State, sh: ShipmentId, email: bool, ids: seq<ItemId>, i: ItemId,
                                                            c: ContainerId, m: ManifestId, mode: ShipmentMode,
                                                            wh: Option<WarehouseId>, transport: Transport, now: Time)
    requires Wf(s)
    ensures CreateShipment(s, sh, email, ids, now).Ok? <==>
      && sh !in s.shipments
      && (forall k :: 0 <= k < |ids| ==> ids[k] !in s.items)
      && (forall j, k :: 0 <= j < k < |ids| ==> ids[j] != ids[k])
    ensures AddItem(s, sh, i, now).Ok? <==> sh in s.shipments && i !in s.items
    ensures CreateContainer(s, c, wh).Ok? <==> c !in s.containers && (wh.Some? ==> wh.value in s.warehouses)
    ensures CreateManifest(s, m, mode, wh, transport).Ok? <==> m !in s.manifests && (wh.Some? ==> wh.value in s.warehouses)
  {
    hide CreateItems, CreateItem, ItemsOf;
  }

  // In every state: the public endpoint takes any event but a creation, about a known shipment, an item of
  // it if one is named, and a known warehouse.
  lemma {:induction false} ManualEventsAreTakenExactlyWhen(s: State, e: Event, itemStatus: Option<ItemStatus>)
    requires Wf(s)
    ensures ManualEvent(s, e, itemStatus).Ok? <==>
      && !e.kind.ShipmentCreated? && !e.kind.ItemRegistered?
      && (itemStatus.Some? ==> e.item.Some?)
      && e.shipment in s.shipments
      && (e.item.Some? ==> e.item.value in s.items && s.items[e.item.value].shipment == e.shipment)
      && (e.warehouse.Some? ==> e.warehouse.value in s.warehouses)
  {
    hide Track;
  }

  // It writes the statuses it is given and no other, and moves no transport.
  lemma {:induction false} ManualEventsWriteWhatTheySay(s: State, t: State, e: Event, itemStatus: Option<ItemStatus>,
                                                        sh: ShipmentId, i: ItemId)
    requires Wf(s) && ManualEvent(s, e, itemStatus) == Ok(t) && sh in s.shipments && i in s.items
    ensures t.events == s.events + [e] && t.links == s.links && t.containers == s.containers && t.manifests == s.manifests
    ensures sh in t.shipments && i in t.items
    ensures t.shipments[sh].status == if sh == e.shipment && e.status.Some? then e.status.value else s.shipments[sh].status
    ensures t.items[i].status == if e.item == Some(i) && itemStatus.Some? then itemStatus.value else s.items[i].status
  {
    hide Notify;
  }

  // --- Refusals ---------------------------------------------------------------------------------

  // The request names something that is not there.
  predicate NamesUnknown(s: State, step: Step) {
    match step
    case CreateShipmentStep(_, _, _) => false
    case AddItemStep(sh, _) => sh !in s.shipments
    case ManualStep(e, _) =>
      || e.shipment !in s.shipments
      || (e.item.Some? && (e.item.value !in s.items || s.items[e.item.value].shipment != e.shipment))
      || (e.warehouse.Some? && e.warehouse.value !in s.warehouses)
    case ReceiveStep(i, wh) => i !in s.items || wh !in s.warehouses
    case ProcessStep(i, wh, _, _) => i !in s.items || wh !in s.warehouses
    case DestinationReceiveStep(i, wh, _, _, _) => i !in s.items || wh !in s.warehouses
    case PickUpStep(i, wh) => i !in s.items || wh !in s.warehouses
    case SendOutStep(i, wh, carrier) => i !in s.items || wh !in s.warehouses || carrier.UnknownDriver?
    case DeliverStep(i, wh, carrier) => i !in s.items || wh !in s.warehouses || carrier.UnknownDriver?
    case ReturnStep(i, wh, _) => i !in s.items || wh !in s.warehouses
    case CreateContainerStep(_, wh) => wh.Some? && wh.value !in s.warehouses
    case LoadStep(c, i) => c !in s.containers || i !in s.items
    case UnloadStep(c, i) => c !in s.containers || FindRow(s.links, InContainer(c), i) == |s.links|
    case SealStep(c) => c !in s.containers
    case OpenStep(c) => c !in s.containers
    case CloseStep(c) => c !in s.containers
    case CreateManifestStep(_, _, wh, _) => wh.Some? && wh.value !in s.warehouses
    case AssignContainerStep(m, c, _) => m !in s.manifests || c !in s.containers
    case UnassignContainerStep(m, c) => m !in s.manifests || c !in s.containers || s.containers[c].manifest != Some(m)
    case AssignItemStep(m, i, _) => m !in s.manifests || i !in s.items
    case UnassignItemStep(m, i) => m !in s.manifests || FindRow(s.links, OnManifest(m), i) == |s.links|
    case FinalizeStep(m) => m !in s.manifests
    case DepartStep(m) => m !in s.manifests
    case ArriveStep(m) => m !in s.manifests
  }

  // What the call is about is not there.
  predicate SubjectUnknown(s: State, step: Step) {
    match step
    case AddItemStep(sh, _) => sh !in s.shipments
    case ManualStep(e, _) => e.shipment !in s.shipments
    case LoadStep(c, _) => c !in s.containers
    case UnloadStep(c, _) => c !in s.containers
    case SealStep(c) => c !in s.containers
    case OpenStep(c) => c !in s.containers
    case CloseStep(c) => c !in s.containers
    case AssignContainerStep(m, _, _) => m !in s.manifests
    case UnassignContainerStep(m, _) => m !in s.manifests
    case AssignItemStep(m, _, _) => m !in s.manifests
    case UnassignItemStep(m, _) => m !in s.manifests
    case FinalizeStep(m) => m !in s.manifests
    case DepartStep(m) => m !in s.manifests
    case ArriveStep(m) => m !in s.manifests
    case _ => WarehouseStep(step) && step.item !in s.items
  }

  // The request does not say what it has to, or there is nothing to seal or approve.
  ghost predicate Incomplete(s: State, step: Step) {
    match step
    case ManualStep(e, itemStatus) => BadEvent(e, itemStatus)
    case ProcessStep(_, _, _, f) => (f.hasException && !f.described) || (f.ready && (f.hasException || f.damaged))
    case DestinationReceiveStep(_, _, _, flagged, described) => flagged && !described
    case SendOutStep(_, _, carrier) => carrier.Nobody?
    case SealStep(c) => !exists k :: 0 <= k < |s.links| && s.links[k].active && s.links[k].unit == InContainer(c)
    case FinalizeStep(m) => m in s.manifests && (!Complete(s.manifests[m]) || !HasCargo(s, m))
    case _ => false
  }

  predicate BadEvent(e: Event, itemStatus: Option<ItemStatus>) {
    e.kind.ShipmentCreated? || e.kind.ItemRegistered? || (itemStatus.Some? && e.item.None?)
  }

  // The two requests that are judged before anything is looked up.
  predicate JudgedFirst(step: Step) {
    || (step.SendOutStep? && step.carrier.Nobody?)
    || (step.ManualStep? && BadEvent(step.event, step.itemStatus))
  }

  ghost predicate Told(s: State, step: Step, r: Result<State>) {
    && (JudgedFirst(step) ==> r == Err(BadRequest))
    && (SubjectUnknown(s, step) && !JudgedFirst(step) ==> r == Err(NotFound))
    && (r == Err(NotFound) ==> NamesUnknown(s, step))
    && (r == Err(BadRequest) ==> Incomplete(s, step))
  }

  lemma DeskTells(s: State, call: Call)
    requires Wf(s) && WarehouseStep(call.step)
    ensures Told(s, call.step, Try(s, call))
  {
    hide Roll, TrackItem;
  }

  lemma RowsTell(s: State, call: Call)
    requires Wf(s)
    requires call.step.LoadStep? || call.step.UnloadStep? || call.step.AssignItemStep? || call.step.UnassignItemStep?
    ensures Told(s, call.step, Try(s, call))
  {
    hide Roll, TrackItem, FindRow, NobodyAboard;
  }

  lemma NothingToSeal(s: State, c: ContainerId)
    ensures NobodyAboard(s.links, {InContainer(c)}) <==>
      !exists k :: 0 <= k < |s.links| && s.links[k].active && s.links[k].unit == InContainer(c)
  {
    assert forall k :: 0 <= k < |s.links| ==>
      (Carries(s.links[k], {InContainer(c)}) <==> s.links[k].active && s.links[k].unit == InContainer(c));
  }

  lemma BulkTells(s: State, call: Call)
    requires Wf(s)
    requires call.step.SealStep? || call.step.FinalizeStep? || call.step.DepartStep? || call.step.ArriveStep?
    ensures Told(s, call.step, Try(s, call))
  {
    hide TrackCargo, RollAffected, EmptyManifest, NobodyAboard, CargoIs, ContainersAre, UnitsOf, ApprovedCargo, HasCargo, Wf;
    match call.step {
      case SealStep(c) => NothingToSeal(s, c);
      case FinalizeStep(m) => if m in s.manifests { CargoMeans(s, m); }
      case _ =>
    }
  }

  lemma OthersTell(s: State, call: Call)
    requires Wf(s)
    requires call.step.CreateShipmentStep? || call.step.AddItemStep? || call.step.ManualStep? || call.step.CreateContainerStep?
      || call.step.CreateManifestStep? || call.step.AssignContainerStep? || call.step.UnassignContainerStep?
      || call.step.OpenStep? || call.step.CloseStep?
    ensures Told(s, call.step, Try(s, call))
  {
    hide TrackCargo, CreateItems, CreateItem, Track, Wf;
    hide Seal, FinalizeManifest, Depart, Arrive, Load, Unload, AssignItem, UnassignItem;
    hide Receive, Process, DestinationReceive, PickUp, SendOut, Deliver, Return;
  }

  // In every state, whatever is called: what it is about is looked up first and NOT_FOUND if it is not
  // there, but for the two requests judged before; NOT_FOUND always means an unknown id, BAD_REQUEST an
  // incomplete request; every other refusal is a CONFLICT.
  lemma {:induction false} RefusalsSayWhy(s: State, call: Call)
    requires Wf(s)
    ensures JudgedFirst(call.step) ==> Try(s, call) == Err(BadRequest)
    ensures SubjectUnknown(s, call.step) && !JudgedFirst(call.step) ==> Try(s, call) == Err(NotFound)
    ensures Try(s, call) == Err(NotFound) ==> NamesUnknown(s, call.step)
    ensures Try(s, call) == Err(BadRequest) ==> Incomplete(s, call.step)
  {
    hide Try, Wf, NamesUnknown, SubjectUnknown, Incomplete, JudgedFirst;
    match call.step {
      case LoadStep(_, _) => RowsTell(s, call);
      case UnloadStep(_, _) => RowsTell(s, call);
      case AssignItemStep(_, _, _) => RowsTell(s, call);
      case UnassignItemStep(_, _) => RowsTell(s, call);
      case SealStep(_) => BulkTells(s, call);
      case FinalizeStep(_) => BulkTells(s, call);
      case DepartStep(_) => BulkTells(s, call);
      case ArriveStep(_) => BulkTells(s, call);
      case CreateShipmentStep(_, _, _) => OthersTell(s, call);
      case AddItemStep(_, _) => OthersTell(s, call);
      case ManualStep(_, _) => OthersTell(s, call);
      case CreateContainerStep(_, _) => OthersTell(s, call);
      case CreateManifestStep(_, _, _, _) => OthersTell(s, call);
      case AssignContainerStep(_, _, _) => OthersTell(s, call);
      case UnassignContainerStep(_, _) => OthersTell(s, call);
      case OpenStep(_) => OthersTell(s, call);
      case CloseStep(_) => OthersTell(s, call);
      case _ => DeskTells(s, call);
    }
  }
}
