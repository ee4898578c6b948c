/**
 Where things stand: an item that is not away is at a known warehouse, what it rides starts from
 there, and a manifest leaves its draft only with its papers complete.
 */
module Whereabouts {
  import opened Basics
  import opened Statuses
  import opened CargoState
  import opened CargoSteps
  import opened CargoRuns
  import opened CargoEffects
  import opened Lockstep
  import opened LockstepSteps
  import opened Stranding
  import opened StrandingSteps
  import opened Earning
  import opened ClosingRuns

  // --- What no call changes -----------------------------------------------------------------

  ghost predicate Fixed(s: State, t: State) {
    && t.warehouses == s.warehouses
    && (forall c :: c in s.containers ==> c in t.containers && t.containers[c].warehouse == s.containers[c].warehouse)
    && (forall m :: m in s.manifests ==> m in t.manifests && SameRoute(s.manifests[m], t.manifests[m]))
  }

  predicate SameRoute(a: Manifest, b: Manifest) {
    b == a.(status := b.status, snapshot := b.snapshot)
  }

  lemma InspectionWarehouses(s: State, t: State, call: Call)
    requires Wf(s) && Try(s, call) == Ok(t)
    requires call.step.ReceiveStep? || call.step.ProcessStep? || call.step.DestinationReceiveStep? || call.step.ManualStep?
    ensures t.warehouses == s.warehouses
  {
    hide Roll, Rolled, TrackItem, Track, Wf, PickUp, SendOut, Deliver, Return;
  }

  lemma HandoverWarehouses(s: State, t: State, call: Call)
    requires Wf(s) && Try(s, call) == Ok(t)
    requires call.step.PickUpStep? || call.step.SendOutStep? || call.step.DeliverStep? || call.step.ReturnStep?
    ensures t.warehouses == s.warehouses
  {
    hide Roll, Rolled, TrackItem, Wf, Receive, Process, DestinationReceive, ManualEvent;
  }

  lemma DeskWarehouses(s: State, t: State, call: Call)
    requires Wf(s) && (WarehouseStep(call.step) || call.step.ManualStep?) && Try(s, call) == Ok(t)
    ensures t.warehouses == s.warehouses
  {
    hide Try, Wf;
    if call.step.PickUpStep? || call.step.SendOutStep? || call.step.DeliverStep? || call.step.ReturnStep? {
      HandoverWarehouses(s, t, call);
    } else {
      InspectionWarehouses(s, t, call);
    }
  }

  lemma RowWarehouses(s: State, t: State, call: Call)
    requires Wf(s) && Try(s, call) == Ok(t)
    requires call.step.LoadStep? || call.step.UnloadStep? || call.step.AssignItemStep? || call.step.UnassignItemStep?
    ensures t.warehouses == s.warehouses
  {
    hide Roll, TrackItem, FindRow, NobodyAboard, Rolled;
  }

  lemma BulkWarehouses(s: State, t: State, call: Call)
    requires Wf(s) && Try(s, call) == Ok(t)
    requires call.step.SealStep? || call.step.FinalizeStep? || call.step.DepartStep? || call.step.ArriveStep?
    ensures t.warehouses == s.warehouses
  {
    hide TrackCargo, RollAffected, EmptyManifest, CargoIs, ContainersAre, ApprovedCargo, NobodyAboard, UnitsOf, Wf;
  }

  lemma QuietWarehouses(s: State, t: State, call: Call)
    requires Wf(s) && Try(s, call) == Ok(t)
    requires call.step.CreateShipmentStep? || call.step.AddItemStep? || call.step.AssignContainerStep?
      || call.step.UnassignContainerStep? || call.step.CreateContainerStep? || call.step.CreateManifestStep?
      || call.step.OpenStep? || call.step.CloseStep?
    ensures t.warehouses == s.warehouses
  {
    hide TrackCargo, CreateItems, CreateItem, Wf;
    hide Seal, FinalizeManifest, Depart, Arrive, Load, Unload, AssignItem, UnassignItem;
    hide Receive, Process, DestinationReceive, PickUp, SendOut, Deliver, Return, ManualEvent;
  }

  lemma RowFixed(s: State, t: State, call: Call)
    requires Wf(s) && Try(s, call) == Ok(t)
    requires call.step.LoadStep? || call.step.UnloadStep? || call.step.AssignItemStep? || call.step.UnassignItemStep?
    ensures Fixed(s, t)
  {
    hide Load, Unload, AssignItem, UnassignItem, OneRolled, ItemChanged, NobodyAboard, Wf;
    RowWarehouses(s, t, call);
    match call.step {
      case LoadStep(c, i) => LoadEffect(s, t, c, i, call.now);
      case UnloadStep(c, i) => UnloadEffect(s, t, c, i, call.now);
      case AssignItemStep(m, i, conflict) => AssignItemEffect(s, t, m, i, conflict, call.now);
      case UnassignItemStep(m, i) => UnassignItemEffect(s, t, m, i, call.now);
    }
  }

  lemma BulkFixed(s: State, t: State, call: Call)
    requires Wf(s) && Try(s, call) == Ok(t)
    requires call.step.SealStep? || call.step.FinalizeStep? || call.step.DepartStep? || call.step.ArriveStep?
    ensures Fixed(s, t)
  {
    hide Seal, FinalizeManifest, Depart, Arrive, CargoTook, CargoRolled, CargoIs, EmptyManifest, UnitsOf, ContainersAre, Wf;
    BulkWarehouses(s, t, call);
    match call.step {
      case SealStep(c) => SealEffect(s, t, c, call.now);
      case FinalizeStep(m) => FinalizeEffect(s, t, m, call.now);
      case DepartStep(m) => DepartEffect(s, t, m, call.now);
      case ArriveStep(m) => ArriveEffect(s, t, m, call.now);
    }
  }

  lemma QuietFixed(s: State, t: State, call: Call)
    requires Wf(s) && Try(s, call) == Ok(t)
    requires call.step.CreateContainerStep? || call.step.CreateManifestStep? || call.step.OpenStep? || call.step.CloseStep?
      || call.step.AssignContainerStep? || call.step.UnassignContainerStep?
    ensures Fixed(s, t)
  {
    hide AssignContainer, UnassignContainer, Wf;
    QuietWarehouses(s, t, call);
    match call.step {
      case AssignContainerStep(m, c, conflict) => AssignContainerEffect(s, t, m, c, conflict, call.now);
      case UnassignContainerStep(m, c) => UnassignContainerEffect(s, t, m, c, call.now);
      case _ =>
    }
  }

  lemma SameTransportsFixed(s: State, t: State)
    requires SameTransports(s, t) && t.warehouses == s.warehouses
    ensures Fixed(s, t)
  {
  }

  lemma CallFixes(s: State, t: State, call: Call)
    requires Wf(s) && Try(s, call) == Ok(t)
    ensures Fixed(s, t)
  {
    hide Try, Wf, Fixed;
    if DeskStep(call.step) {
      DeskStepEffect(s, t, call);
      if WarehouseStep(call.step) || call.step.ManualStep? { DeskWarehouses(s, t, call); } else { QuietWarehouses(s, t, call); }
      SameTransportsFixed(s, t);
      return;
    }
    match call.step {
      case LoadStep(_, _) => RowFixed(s, t, call);
      case UnloadStep(_, _) => RowFixed(s, t, call);
      case AssignItemStep(_, _, _) => RowFixed(s, t, call);
      case UnassignItemStep(_, _) => RowFixed(s, t, call);
      case SealStep(_) => BulkFixed(s, t, call);
      case FinalizeStep(_) => BulkFixed(s, t, call);
      case DepartStep(_) => BulkFixed(s, t, call);
      case ArriveStep(_) => BulkFixed(s, t, call);
      case _ => QuietFixed(s, t, call);
    }
  }

  // --- Papers ---------------------------------------------------------------------------------

  // A carrier, where it goes and where from; a flight number by air, a vessel and a voyage otherwise.
  predicate Complete(m: Manifest) {
    && m.transport.carrier
    && m.transport.destinationLocation
    && (m.transport.originLocation || m.originWarehouse.Some?)
    && (m.mode.Air? ==> m.transport.flight)
    && (!m.mode.Air? ==> m.transport.vessel && m.transport.voyage)
  }

  ghost predicate PapersComplete(s: State) {
    forall m :: m in s.manifests && !s.manifests[m].status.Draft? ==> Complete(s.manifests[m])
  }

  // Only finalize ends a draft, and only with complete papers.
  lemma DraftsEnd(s: State, t: State, call: Call, m: ManifestId)
    requires Wf(s) && Try(s, call) == Ok(t) && m in t.manifests && !t.manifests[m].status.Draft?
    ensures m in s.manifests
    ensures s.manifests[m].status.Draft? ==> call.step == FinalizeStep(m) && Complete(s.manifests[m])
  {
    hide Load, Unload, Seal, AssignItem, UnassignItem, Depart, Arrive, AssignContainer, UnassignContainer, Wf;
    hide OneRolled, ItemChanged, CargoTook, CargoRolled, CargoIs, EmptyManifest, UnitsOf, ContainersAre;
    if DeskStep(call.step) {
      hide Try;
      DeskStepEffect(s, t, call);
      return;
    }
    match call.step {
      case LoadStep(c, i) => LoadEffect(s, t, c, i, call.now);
      case UnloadStep(c, i) => UnloadEffect(s, t, c, i, call.now);
      case AssignItemStep(n, i, conflict) => AssignItemEffect(s, t, n, i, conflict, call.now);
      case UnassignItemStep(n, i) => UnassignItemEffect(s, t, n, i, call.now);
      case SealStep(c) => SealEffect(s, t, c, call.now);
      case FinalizeStep(n) =>
        FinalizeEffect(s, t, n, call.now);
        PapersAsked(s, t, n, call.now);
      case DepartStep(n) => DepartEffect(s, t, n, call.now);
      case ArriveStep(n) => ArriveEffect(s, t, n, call.now);
      case AssignContainerStep(n, c, conflict) => AssignContainerEffect(s, t, n, c, conflict, call.now);
      case UnassignContainerStep(n, c) => UnassignContainerEffect(s, t, n, c, call.now);
      case _ =>
    }
  }

  lemma PapersAsked(s: State, t: State, m: ManifestId, now: Time)
    requires Wf(s) && FinalizeManifest(s, m, now) == Ok(t)
    ensures m in s.manifests && Complete(s.manifests[m])
  {
    hide TrackCargo, RollAffected, EmptyManifest, CargoIs, ContainersAre, ApprovedCargo, UnitsOf, Wf;
  }

  lemma {:induction false} RunsHavePapers(warehouses: set<WarehouseId>, calls: seq<Call>)
    ensures PapersComplete(Run(warehouses, calls))
  {
    if calls != [] {
      var n := |calls| - 1;
      RunsHavePapers(warehouses, calls[..n]);
      hide Try, Wf;
      var before := Run(warehouses, calls[..n]);
      match Try(before, calls[n]) {
        case Ok(t) =>
          CallFixes(before, t, calls[n]);
          forall m | m in t.manifests && !t.manifests[m].status.Draft?
            ensures Complete(t.manifests[m])
          {
            DraftsEnd(before, t, calls[n], m);
          }
        case Err(_) =>
      }
    }
  }

  // Manual events included: a manifest that is finalized, departed or arrived has a carrier, a
  // destination, an origin, and the details of its mode.
  lemma {:induction false} FinalizedManifestsAreComplete(warehouses: set<WarehouseId>, calls: seq<Call>, m: ManifestId)
    requires m in Run(warehouses, calls).manifests
    ensures var row := Run(warehouses, calls).manifests[m];
      row.status.Finalized? || row.status.Departed? || row.status.Arrived? ==>
        && row.transport.carrier
        && row.transport.destinationLocation
        && (row.transport.originLocation || row.originWarehouse.Some?)
        && (if row.mode.Air? then row.transport.flight else row.transport.vessel && row.transport.voyage)
  {
    RunsHavePapers(warehouses, calls);
  }

  // --- Standing -------------------------------------------------------------------------------

  // Not yet here, on the road to the customer, or handed over.
  predicate Away(st: ItemStatus) {
    st.Registered? || st.OutForDelivery? || st.Delivered? || st.PickedUp?
  }

  // An item is at a known warehouse exactly while it is not away.
  predicate Stands(it: Item, warehouses: set<WarehouseId>) {
    if Away(it.status) then it.warehouse.None? else it.warehouse.Some? && it.warehouse.value in warehouses
  }

  ghost predicate AllStand(s: State) {
    forall i :: i in s.items ==> Stands(s.items[i], s.warehouses)
  }

  lemma InspectionStands(s: State, t: State, call: Call)
    requires Wf(s) && Try(s, call) == Ok(t)
    requires call.step.ReceiveStep? || call.step.ProcessStep? || call.step.DestinationReceiveStep?
    ensures call.step.item in s.items && call.step.item in t.items
    ensures Stands(s.items[call.step.item], s.warehouses) ==> Stands(t.items[call.step.item], s.warehouses)
    ensures call.step.ProcessStep? ==> s.items[call.step.item].warehouse == Some(call.step.wh)
  {
    hide Roll, Rolled, Wf, PickUp, SendOut, Deliver, Return;
  }

  lemma HandoverStands(s: State, t: State, call: Call)
    requires Wf(s) && Try(s, call) == Ok(t)
    requires call.step.PickUpStep? || call.step.SendOutStep? || call.step.DeliverStep? || call.step.ReturnStep?
    ensures call.step.item in s.items && call.step.item in t.items
    ensures Stands(s.items[call.step.item], s.warehouses) ==> Stands(t.items[call.step.item], s.warehouses)
    ensures call.step.PickUpStep? || call.step.SendOutStep? ==> s.items[call.step.item].warehouse == Some(call.step.wh)
  {
    hide Roll, Rolled, Wf, Receive, Process, DestinationReceive;
  }

  // The item is where the transport starts: a container at its warehouse, a flight at its origin
  // warehouse if it has one.
  predicate StartsHere(s: State, u: Unit, it: Item) {
    match u
    case InContainer(c) =>
      c in s.containers && s.containers[c].warehouse.Some? && it.warehouse == s.containers[c].warehouse
    case OnManifest(m) =>
      m in s.manifests && (s.manifests[m].originWarehouse.Some? ==> it.warehouse == s.manifests[m].originWarehouse)
  }

  // The item of a boarding or leaving call stays where it is.
  lemma RowStands(s: State, t: State, call: Call)
    requires Wf(s) && Try(s, call) == Ok(t)
    requires call.step.LoadStep? || call.step.UnloadStep? || call.step.AssignItemStep? || call.step.UnassignItemStep?
    ensures call.step.item in s.items && call.step.item in t.items
    ensures t.items[call.step.item].warehouse == s.items[call.step.item].warehouse
    ensures call.step.LoadStep? ==> StartsHere(s, InContainer(call.step.container), s.items[call.step.item])
    ensures call.step.AssignItemStep? ==> StartsHere(s, OnManifest(call.step.manifest), s.items[call.step.item])
  {
    hide Roll, Rolled, FindRow, NobodyAboard;
    if call.step.UnloadStep? { UnloadedRow(s, InContainer(call.step.container), call.step.item); }
    if call.step.UnassignItemStep? { UnloadedRow(s, OnManifest(call.step.manifest), call.step.item); }
  }

  lemma UnloadedRow(s: State, u: Unit, i: ItemId)
    requires Wf(s)
    ensures FindRow(s.links, u, i) < |s.links| ==> i in s.items
  {
  }

  lemma OneStands(s: State, t: State, i: ItemId)
    requires AllStand(s) && ItemChanged(s, t, i) && t.warehouses == s.warehouses && Stands(t.items[i], s.warehouses)
    ensures AllStand(t)
  {
    hide Stands;
  }

  lemma CargoStands(s: State, t: State, units: set<Unit>, from: ItemStatus, to: ItemStatus)
    requires Wf(s) && AllStand(s) && CargoTook(s, t, units, to) && CargoIs(s, units, from) && t.warehouses == s.warehouses
    requires !Away(from) && !Away(to)
    ensures AllStand(t)
  {
    forall i | i in t.items
      ensures Stands(t.items[i], t.warehouses)
    {
      assert Stands(s.items[i], s.warehouses);
      if Aboard(s.links, |s.links|, units, i) { AboardIs(s, units, from, i); }
    }
  }

  lemma DeskStands(s: State, t: State, call: Call)
    requires Wf(s) && AllStand(s) && WarehouseStep(call.step) && Try(s, call) == Ok(t)
    ensures AllStand(t)
  {
    hide Try, Wf, Stands;
    DeskWarehouses(s, t, call);
    WarehouseStepEffect(s, t, call);
    if call.step.ReceiveStep? || call.step.ProcessStep? || call.step.DestinationReceiveStep? {
      InspectionStands(s, t, call);
    } else {
      HandoverStands(s, t, call);
    }
    OneStands(s, t, call.step.item);
  }

  // It is at hand before and after.
  lemma RowAtHand(s: State, t: State, call: Call)
    requires Wf(s) && LinksAgree(s) && Try(s, call) == Ok(t)
    requires call.step.LoadStep? || call.step.UnloadStep? || call.step.AssignItemStep? || call.step.UnassignItemStep?
    ensures ItemChanged(s, t, call.step.item)
    ensures !Away(s.items[call.step.item].status) && !Away(t.items[call.step.item].status)
  {
    hide Load, Unload, AssignItem, UnassignItem, OneRolled, LinksAgree, NobodyAboard;
    var i := call.step.item;
    match call.step {
      case LoadStep(c, _) => LoadEffect(s, t, c, i, call.now);
      case UnloadStep(c, _) =>
        UnloadEffect(s, t, c, i, call.now);
        RowFits(s, FindRow(s.links, InContainer(c), i));
      case AssignItemStep(m, _, conflict) => AssignItemEffect(s, t, m, i, conflict, call.now);
      case UnassignItemStep(m, _) =>
        UnassignItemEffect(s, t, m, i, call.now);
        RowFits(s, FindRow(s.links, OnManifest(m), i));
    }
  }

  lemma BoardingStands(s: State, t: State, call: Call)
    requires Wf(s) && LinksAgree(s) && AllStand(s) && Try(s, call) == Ok(t)
    requires call.step.LoadStep? || call.step.UnloadStep? || call.step.AssignItemStep? || call.step.UnassignItemStep?
    ensures AllStand(t)
  {
    hide Try, LinksAgree, AllStand, Wf, ItemChanged;
    RowStands(s, t, call);
    RowWarehouses(s, t, call);
    RowAtHand(s, t, call);
    StandsHere(s, call.step.item);
    OneStands(s, t, call.step.item);
  }

  lemma StandsHere(s: State, i: ItemId)
    requires AllStand(s) && i in s.items
    ensures Stands(s.items[i], s.warehouses)
  {
  }

  lemma BulkStands(s: State, t: State, call: Call)
    requires Wf(s) && LinksAgree(s) && AllStand(s) && Try(s, call) == Ok(t)
    requires call.step.SealStep? || call.step.FinalizeStep? || call.step.DepartStep? || call.step.ArriveStep?
    ensures AllStand(t)
  {
    hide Seal, FinalizeManifest, Depart, Arrive, CargoTook, CargoIs, CargoRolled, LinksAgree, EmptyManifest, AllStand;
    BulkWarehouses(s, t, call);
    match call.step {
      case SealStep(c) =>
        SealEffect(s, t, c, call.now);
        SealedCargo(s, c);
        CargoStands(s, t, {InContainer(c)}, ItemStatus.AssignedToContainer, ItemStatus.Loaded);
      case FinalizeStep(m) =>
        FinalizeEffect(s, t, m, call.now);
        if s.manifests[m].mode.Air? {
          CargoStands(s, t, UnitsOf(s, m), ItemStatus.AssignedToManifest, ItemStatus.Loaded);
        } else {
          SameItemsStand(s, t);
        }
      case DepartStep(m) =>
        DepartEffect(s, t, m, call.now);
        CargoStands(s, t, UnitsOf(s, m), ItemStatus.Loaded, ItemStatus.DepartedOrigin);
      case ArriveStep(m) =>
        ArriveEffect(s, t, m, call.now);
        ArrivingCargo(s, m);
        CargoStands(s, t, UnitsOf(s, m), ItemStatus.DepartedOrigin, ItemStatus.ArrivedDestination);
    }
  }

  lemma SameItemsStand(s: State, t: State)
    requires AllStand(s) && t.items == s.items && t.warehouses == s.warehouses
    ensures AllStand(t)
  {
  }

  lemma QuietStands(s: State, t: State, call: Call)
    requires Wf(s) && AllStand(s) && Try(s, call) == Ok(t)
    requires call.step.CreateShipmentStep? || call.step.AddItemStep? || call.step.AssignContainerStep?
      || call.step.UnassignContainerStep? || call.step.CreateContainerStep? || call.step.CreateManifestStep?
      || call.step.OpenStep? || call.step.CloseStep?
    ensures AllStand(t)
  {
    hide AssignContainer, UnassignContainer, CreateShipment, AddItem;
    QuietWarehouses(s, t, call);
    match call.step {
      case CreateShipmentStep(sh, email, ids) =>
        CreateShipmentEffect(s, t, sh, email, ids, call.now);
        forall i | i in t.items && i !in s.items
          ensures t.items[i].warehouse.None? && t.items[i].status.Registered?
        {
          var k :| 0 <= k < |ids| && ids[k] == i;
        }
      case AddItemStep(sh, i) => AddItemEffect(s, t, sh, i, call.now);
      case AssignContainerStep(m, c, conflict) => AssignContainerEffect(s, t, m, c, conflict, call.now);
      case UnassignContainerStep(m, c) => UnassignContainerEffect(s, t, m, c, call.now);
      case _ =>
    }
  }

  lemma CallStands(s: State, t: State, call: Call)
    requires Wf(s) && LinksAgree(s) && AllStand(s) && !call.step.ManualStep? && Try(s, call) == Ok(t)
    ensures AllStand(t)
  {
    hide Try, Wf, AllStand, LinksAgree;
    if WarehouseStep(call.step) {
      DeskStands(s, t, call);
      return;
    }
    match call.step {
      case LoadStep(_, _) => BoardingStands(s, t, call);
      case UnloadStep(_, _) => BoardingStands(s, t, call);
      case AssignItemStep(_, _, _) => BoardingStands(s, t, call);
      case UnassignItemStep(_, _) => BoardingStands(s, t, call);
      case SealStep(_) => BulkStands(s, t, call);
      case FinalizeStep(_) => BulkStands(s, t, call);
      case DepartStep(_) => BulkStands(s, t, call);
      case ArriveStep(_) => BulkStands(s, t, call);
      case _ => QuietStands(s, t, call);
    }
  }

  // --- Riding -----------------------------------------------------------------------------------

  // What rides a transport that has not arrived stands where the transport starts.
  ghost predicate RiderStands(s: State, k: nat)
    requires Wf(s) && k < |s.links|
  {
    s.links[k].active && !LegOf(s, s.links[k].unit).Landed? ==> StartsHere(s, s.links[k].unit, s.items[s.links[k].item])
  }

  ghost predicate RidersStand(s: State)
    requires Wf(s)
  {
    forall k :: 0 <= k < |s.links| ==> RiderStands(s, k)
  }

  // Containers of a manifest start from its origin warehouse if it has one.
  ghost predicate FleetStands(s: State) {
    forall c, m :: c in s.containers && m in s.manifests && s.containers[c].manifest == Some(m) ==>
      ContainerStarts(s.containers[c], s.manifests[m])
  }

  predicate ContainerStarts(c: Container, m: Manifest) {
    m.originWarehouse.Some? ==> c.warehouse == m.originWarehouse
  }

  lemma SameStart(s: State, t: State, u: Unit, a: Item, b: Item)
    requires Fixed(s, t) && UnitExists(s.containers, s.manifests, u) && b.warehouse == a.warehouse
    ensures StartsHere(t, u, b) <==> StartsHere(s, u, a)
  {
  }

  // Row k is in both tables, on a unit that has not gone backward, and its item has not moved if it rode.
  lemma RiderStays(s: State, t: State, k: nat)
    requires Wf(s) && Wf(t) && Fixed(s, t) && RidersStand(s) && k < |s.links| && k < |t.links|
    requires t.links[k] == s.links[k] || !t.links[k].active
    requires UnitExists(t.containers, t.manifests, s.links[k].unit) && s.links[k].item in t.items
    requires LegOf(s, s.links[k].unit).Landed? ==> LegOf(t, s.links[k].unit).Landed?
    requires s.links[k].active && !LegOf(s, s.links[k].unit).Landed? ==>
      t.items[s.links[k].item].warehouse == s.items[s.links[k].item].warehouse
    ensures RiderStands(t, k)
  {
    assert RiderStands(s, k);
    if t.links[k].active && !LegOf(t, t.links[k].unit).Landed? {
      SameStart(s, t, s.links[k].unit, s.items[s.links[k].item], t.items[s.links[k].item]);
    }
  }

  // No item that rides is moved, and no unit goes back.
  ghost predicate RidesOn(s: State, t: State)
    requires Wf(s) && Wf(t)
  {
    && (forall u :: UnitExists(s.containers, s.manifests, u) ==>
      UnitExists(t.containers, t.manifests, u) && (LegOf(s, u).Landed? ==> LegOf(t, u).Landed?))
    && (forall i :: i in s.items ==> i in t.items)
    && (forall i :: i in s.items && Tied(s.items[i].status) ==> t.items[i].warehouse == s.items[i].warehouse)
  }

  lemma RidingGoesOn(s: State, t: State, n: nat)
    requires Wf(s) && Wf(t) && Fixed(s, t) && LinksAgree(s) && RidersStand(s) && RidesOn(s, t)
    requires n <= |s.links| && n <= |t.links| && forall k :: 0 <= k < n ==> t.links[k] == s.links[k] || !t.links[k].active
    ensures forall k :: 0 <= k < n ==> RiderStands(t, k)
  {
    hide Fixed, RiderStands, RidersStand, StartsHere;
    forall k | 0 <= k < n
      ensures RiderStands(t, k)
    {
      if s.links[k].active { RowFits(s, k); }
      RiderStays(s, t, k);
    }
  }

  lemma DeskRides(s: State, t: State, call: Call)
    requires Wf(s) && Wf(t) && LinksAgree(s) && RidersStand(s) && Fixed(s, t)
    requires WarehouseStep(call.step) && Try(s, call) == Ok(t)
    ensures RidersStand(t)
  {
    hide Try, Fixed, RiderStands, LinksAgree, Wf;
    WarehouseStepEffect(s, t, call);
    SameLegs(s, t);
    RidingGoesOn(s, t, |s.links|);
  }

  lemma NewItemsRide(s: State, t: State, call: Call)
    requires Wf(s) && Wf(t) && LinksAgree(s) && RidersStand(s) && Fixed(s, t)
    requires (call.step.CreateShipmentStep? || call.step.AddItemStep?) && Try(s, call) == Ok(t)
    ensures RidersStand(t)
  {
    hide CreateShipment, AddItem, Fixed, RiderStands, LinksAgree, Wf;
    match call.step {
      case CreateShipmentStep(sh, email, ids) => CreateShipmentEffect(s, t, sh, email, ids, call.now);
      case AddItemStep(sh, i) => AddItemEffect(s, t, sh, i, call.now);
    }
    SameLegs(s, t);
    RidingGoesOn(s, t, |s.links|);
  }

  lemma RowLegs(s: State, t: State, c: ContainerId)
    requires Wf(s) && t.manifests == s.manifests && c in s.containers && c in t.containers
    requires t.containers == s.containers[c := t.containers[c]]
    requires Accepting(s.containers[c].status) && Accepting(t.containers[c].status)
    ensures forall u :: UnitExists(s.containers, s.manifests, u) ==>
      UnitExists(t.containers, t.manifests, u) && LegOf(t, u) == LegOf(s, u)
  {
  }

  lemma BoardingRides(s: State, t: State, call: Call)
    requires Wf(s) && Wf(t) && LinksAgree(s) && RidersStand(s) && Fixed(s, t)
    requires (call.step.LoadStep? || call.step.AssignItemStep?) && Try(s, call) == Ok(t)
    ensures RidersStand(t)
  {
    hide Load, AssignItem, OneRolled, LinksAgree, Fixed, RiderStands, Wf, StartsHere;
    var i := call.step.item;
    RowStands(s, t, call);
    match call.step {
      case LoadStep(c, _) =>
        LoadEffect(s, t, c, i, call.now);
        RowLegs(s, t, c);
        SameStart(s, t, InContainer(c), s.items[i], t.items[i]);
        NewRiderStands(t, InContainer(c));
      case AssignItemStep(m, _, conflict) =>
        AssignItemEffect(s, t, m, i, conflict, call.now);
        SameStart(s, t, OnManifest(m), s.items[i], t.items[i]);
        NewRiderStands(t, OnManifest(m));
    }
    RidingGoesOn(s, t, |s.links|);
  }

  lemma NewRiderStands(t: State, u: Unit)
    requires Wf(t) && t.links != [] && t.links[|t.links| - 1].unit == u
    requires StartsHere(t, u, t.items[t.links[|t.links| - 1].item])
    ensures RiderStands(t, |t.links| - 1)
  {
  }

  lemma LeavingRides(s: State, t: State, call: Call)
    requires Wf(s) && Wf(t) && LinksAgree(s) && RidersStand(s) && Fixed(s, t)
    requires (call.step.UnloadStep? || call.step.UnassignItemStep?) && Try(s, call) == Ok(t)
    ensures RidersStand(t)
  {
    hide Unload, UnassignItem, OneRolled, LinksAgree, Fixed, RiderStands, Wf, NobodyAboard;
    var i := call.step.item;
    RowStands(s, t, call);
    match call.step {
      case UnloadStep(c, _) =>
        UnloadEffect(s, t, c, i, call.now);
        RowLegs(s, t, c);
      case UnassignItemStep(m, _) => UnassignItemEffect(s, t, m, i, call.now);
    }
    RidingGoesOn(s, t, |s.links|);
  }

  lemma SealRides(s: State, t: State, c: ContainerId, now: Time)
    requires Wf(s) && Wf(t) && LinksAgree(s) && RidersStand(s) && Fixed(s, t) && Seal(s, c, now) == Ok(t)
    ensures RidersStand(t)
  {
    hide Seal, CargoRolled, LinksAgree, Fixed, RiderStands, Wf, Aboard;
    SealEffect(s, t, c, now);
    RidingGoesOn(s, t, |s.links|);
  }

  lemma FinalizeRides(s: State, t: State, m: ManifestId, now: Time)
    requires Wf(s) && Wf(t) && LinksAgree(s) && RidersStand(s) && Fixed(s, t) && FinalizeManifest(s, m, now) == Ok(t)
    ensures RidersStand(t)
  {
    hide FinalizeManifest, CargoRolled, CargoIs, EmptyManifest, UnitsOf, ContainersAre, LinksAgree, Fixed, RiderStands, Wf, Aboard;
    FinalizeEffect(s, t, m, now);
    RidingGoesOn(s, t, |s.links|);
  }

  // The containers of a departing manifest were sealed, and a flight has none.
  lemma DepartingLegs(s: State, t: State, m: ManifestId)
    requires Wf(s) && m in s.manifests && s.manifests[m].status.Finalized?
    requires !s.manifests[m].mode.Air? ==> ContainersAre(s, m, ContainerStatus.Loaded)
    requires ContainersTook(s, t, m, ContainerStatus.Departed)
    requires t.manifests == s.manifests[m := s.manifests[m].(status := ManifestStatus.Departed)]
    ensures forall u :: UnitExists(s.containers, s.manifests, u) ==>
      UnitExists(t.containers, t.manifests, u) && (LegOf(s, u).Landed? ==> LegOf(t, u).Landed?)
  {
  }

  lemma LegRides(s: State, t: State, call: Call)
    requires Wf(s) && Wf(t) && LinksAgree(s) && RidersStand(s) && Fixed(s, t)
    requires (call.step.DepartStep? || call.step.ArriveStep?) && Try(s, call) == Ok(t)
    ensures RidersStand(t)
  {
    hide Depart, Arrive, CargoRolled, CargoIs, EmptyManifest, UnitsOf, ContainersAre, LinksAgree, Fixed, RiderStands, Wf, Aboard;
    match call.step {
      case DepartStep(m) =>
        DepartEffect(s, t, m, call.now);
        DepartingLegs(s, t, m);
      case ArriveStep(m) => ArriveEffect(s, t, m, call.now);
    }
    hide ContainersTook;
    RidingGoesOn(s, t, |s.links|);
  }

  lemma QuietRides(s: State, t: State, call: Call)
    requires Wf(s) && Wf(t) && LinksAgree(s) && RidersStand(s) && Fixed(s, t)
    requires call.step.AssignContainerStep? || call.step.UnassignContainerStep? || call.step.CreateContainerStep?
      || call.step.CreateManifestStep? || call.step.OpenStep? || call.step.CloseStep?
    requires Try(s, call) == Ok(t)
    ensures RidersStand(t)
  {
    hide AssignContainer, UnassignContainer, LinksAgree, Fixed, RiderStands, Wf;
    match call.step {
      case AssignContainerStep(m, c, conflict) => AssignContainerEffect(s, t, m, c, conflict, call.now);
      case UnassignContainerStep(m, c) => UnassignContainerEffect(s, t, m, c, call.now);
      case _ =>
    }
    RidingGoesOn(s, t, |s.links|);
  }

  lemma BulkRides(s: State, t: State, call: Call)
    requires Wf(s) && Wf(t) && LinksAgree(s) && RidersStand(s) && Fixed(s, t)
    requires (call.step.SealStep? || call.step.FinalizeStep?) && Try(s, call) == Ok(t)
    ensures RidersStand(t)
  {
    hide Seal, FinalizeManifest, Wf, LinksAgree, RidersStand, Fixed;
    match call.step {
      case SealStep(c) => SealRides(s, t, c, call.now);
      case FinalizeStep(m) => FinalizeRides(s, t, m, call.now);
    }
  }

  lemma CallRides(s: State, t: State, call: Call)
    requires Wf(s) && Wf(t) && LinksAgree(s) && RidersStand(s) && !call.step.ManualStep? && Try(s, call) == Ok(t)
    ensures RidersStand(t)
  {
    hide Try, Fixed, RidersStand, LinksAgree, Wf;
    CallFixes(s, t, call);
    if WarehouseStep(call.step) {
      DeskRides(s, t, call);
      return;
    }
    match call.step {
      case CreateShipmentStep(_, _, _) => NewItemsRide(s, t, call);
      case AddItemStep(_, _) => NewItemsRide(s, t, call);
      case LoadStep(_, _) => BoardingRides(s, t, call);
      case AssignItemStep(_, _, _) => BoardingRides(s, t, call);
      case UnloadStep(_, _) => LeavingRides(s, t, call);
      case UnassignItemStep(_, _) => LeavingRides(s, t, call);
      case SealStep(_) => BulkRides(s, t, call);
      case FinalizeStep(_) => BulkRides(s, t, call);
      case DepartStep(_) => LegRides(s, t, call);
      case ArriveStep(_) => LegRides(s, t, call);
      case _ => QuietRides(s, t, call);
    }
  }

  lemma BulkFleetStands(s: State, t: State, call: Call)
    requires Wf(s) && Wf(t) && FleetStands(s) && Try(s, call) == Ok(t)
    requires call.step.SealStep? || call.step.FinalizeStep? || call.step.DepartStep? || call.step.ArriveStep?
    ensures FleetStands(t)
  {
    hide Seal, FinalizeManifest, Depart, Arrive, CargoTook, CargoRolled, CargoIs, EmptyManifest, UnitsOf, ContainersAre, Wf;
    match call.step {
      case SealStep(c) => SealEffect(s, t, c, call.now);
      case FinalizeStep(n) => FinalizeEffect(s, t, n, call.now);
      case DepartStep(n) => DepartEffect(s, t, n, call.now);
      case ArriveStep(n) => ArriveEffect(s, t, n, call.now);
    }
  }

  // A container joins a manifest only where it starts from, and nothing of this changes.
  lemma CallFleetStands(s: State, t: State, call: Call)
    requires Wf(s) && Wf(t) && FleetStands(s) && Try(s, call) == Ok(t)
    ensures FleetStands(t)
  {
    hide Load, Unload, Seal, AssignItem, UnassignItem, FinalizeManifest, Depart, Arrive, UnassignContainer, OneRolled;
    hide CargoTook, CargoRolled, CargoIs, EmptyManifest, UnitsOf, ContainersAre, ItemChanged, NobodyAboard;
    if DeskStep(call.step) {
      hide Try;
      DeskStepEffect(s, t, call);
      return;
    }
    if call.step.SealStep? || call.step.FinalizeStep? || call.step.DepartStep? || call.step.ArriveStep? {
      BulkFleetStands(s, t, call);
      return;
    }
    match call.step {
      case LoadStep(c, i) => LoadEffect(s, t, c, i, call.now);
      case UnloadStep(c, i) => UnloadEffect(s, t, c, i, call.now);
      case AssignItemStep(n, i, conflict) => AssignItemEffect(s, t, n, i, conflict, call.now);
      case UnassignItemStep(n, i) => UnassignItemEffect(s, t, n, i, call.now);
      case AssignContainerStep(n, c, conflict) =>
        AssignContainerEffect(s, t, n, c, conflict, call.now);
        AssignedStarts(s, n, c, conflict, call.now);
      case UnassignContainerStep(n, c) => UnassignContainerEffect(s, t, n, c, call.now);
      case _ =>
    }
  }

  lemma AssignedStarts(s: State, m: ManifestId, c: ContainerId, conflict: bool, now: Time)
    requires Wf(s) && AssignContainer(s, m, c, conflict, now).Ok?
    ensures m in s.manifests && c in s.containers && ContainerStarts(s.containers[c], s.manifests[m])
  {
  }

  // --- Over every run ---------------------------------------------------------------------------

  ghost predicate Placed(s: State)
    requires Wf(s)
  {
    AllStand(s) && RidersStand(s) && FleetStands(s)
  }

  lemma CallPlaces(s: State, t: State, call: Call)
    requires Wf(s) && Wf(t) && Orderly(s) && Placed(s) && !call.step.ManualStep? && Try(s, call) == Ok(t)
    ensures Placed(t)
  {
    hide Try, Wf, AllStand, RidersStand, FleetStands, Chained;
    LockstepLinks(s);
    CallStands(s, t, call);
    CallRides(s, t, call);
    CallFleetStands(s, t, call);
  }

  lemma {:induction false} RunsPlace(warehouses: set<WarehouseId>, calls: seq<Call>)
    requires NoManualEvents(calls)
    ensures Placed(Run(warehouses, calls))
  {
    if calls != [] {
      var n := |calls| - 1;
      RunsPlace(warehouses, calls[..n]);
      EveryRunIsOrderly(warehouses, calls[..n]);
      hide Try, Wf, Placed, Orderly;
      var before := Run(warehouses, calls[..n]);
      match Try(before, calls[n]) {
        case Ok(t) => CallPlaces(before, t, calls[n]);
        case Err(_) =>
      }
    }
  }

  // In every reachable state an item is at a known warehouse exactly while it is neither unreceived, nor
  // on the road to its customer, nor handed over.
  lemma {:induction false} ItemsStandSomewhere(warehouses: set<WarehouseId>, calls: seq<Call>, i: ItemId)
    requires NoManualEvents(calls) && i in Run(warehouses, calls).items
    ensures var it := Run(warehouses, calls).items[i];
      && (it.warehouse.None? <==>
        it.status.Registered? || it.status.OutForDelivery? || it.status.Delivered? || it.status.PickedUp?)
      && (it.warehouse.Some? ==> it.warehouse.value in warehouses)
  {
    RunsPlace(warehouses, calls);
    SameWarehousesAll(warehouses, calls);
    StandsHere(Run(warehouses, calls), i);
  }

  lemma {:induction false} SameWarehousesAll(warehouses: set<WarehouseId>, calls: seq<Call>)
    ensures Run(warehouses, calls).warehouses == warehouses
  {
    if calls != [] {
      var n := |calls| - 1;
      SameWarehousesAll(warehouses, calls[..n]);
      hide Try, Wf;
      match Try(Run(warehouses, calls[..n]), calls[n]) {
        case Ok(t) => CallFixes(Run(warehouses, calls[..n]), t, calls[n]);
        case Err(_) =>
      }
    }
  }

  // What rides a container that has not arrived stands at the container's own warehouse; what rides a
  // flight that has not arrived stands at its origin warehouse, if it has one.
  lemma {:induction false} RidersStandWhereTheyStart(warehouses: set<WarehouseId>, calls: seq<Call>, k: nat)
    requires NoManualEvents(calls) && k < |Run(warehouses, calls).links| && Run(warehouses, calls).links[k].active
    ensures var s := Run(warehouses, calls);
      var it := s.items[s.links[k].item];
      match s.links[k].unit
      case InContainer(c) =>
        var row := s.containers[c];
        !(row.status.Arrived? || row.status.Unloading? || row.status.Closed?) ==>
          row.warehouse.Some? && it.warehouse == row.warehouse
      case OnManifest(m) =>
        !s.manifests[m].status.Arrived? && s.manifests[m].originWarehouse.Some? ==>
          it.warehouse == s.manifests[m].originWarehouse
  {
    EveryRunIsOrderly(warehouses, calls);
    RunsPlace(warehouses, calls);
    RiderMeans(Run(warehouses, calls), k);
  }

  lemma RiderMeans(s: State, k: nat)
    requires Wf(s) && Fleet(s) && RidersStand(s) && k < |s.links| && s.links[k].active
    ensures var it := s.items[s.links[k].item];
      match s.links[k].unit
      case InContainer(c) =>
        var row := s.containers[c];
        !(row.status.Arrived? || row.status.Unloading? || row.status.Closed?) ==>
          row.warehouse.Some? && it.warehouse == row.warehouse
      case OnManifest(m) =>
        !s.manifests[m].status.Arrived? && s.manifests[m].originWarehouse.Some? ==>
          it.warehouse == s.manifests[m].originWarehouse
  {
    assert RiderStands(s, k);
    match s.links[k].unit {
      case InContainer(c) => assert Paired(s.containers[c], s.manifests);
      case OnManifest(m) => assert s.manifests[m].status.Draft? || !EmptyManifest(s.containers, s.links, m, s.manifests[m]);
    }
  }

  // A container on a manifest with an origin warehouse is one of that warehouse.
  lemma {:induction false} ContainersStartAtTheOrigin(warehouses: set<WarehouseId>, calls: seq<Call>, c: ContainerId)
    requires NoManualEvents(calls) && c in Run(warehouses, calls).containers
    ensures var s := Run(warehouses, calls); var m := s.containers[c].manifest;
      && (m.Some? ==> m.value in s.manifests)
      && (m.Some? && s.manifests[m.value].originWarehouse.Some? ==>
        s.containers[c].warehouse == s.manifests[m.value].originWarehouse)
  {
    RunsPlace(warehouses, calls);
    var s := Run(warehouses, calls);
    if s.containers[c].manifest.Some? {
      assert ContainerStarts(s.containers[c], s.manifests[s.containers[c].manifest.value]);
    }
  }
}
