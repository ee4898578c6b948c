/** What each accepted call changes, table by table, without the order of the writes. */
module CargoEffects {
  import opened Basics
  import opened Statuses
  import opened CargoState
  import opened CargoSteps
  import opened CargoRuns

  // The transport tables are as they were.
  ghost predicate SameTransports(s: State, t: State) {
    t.links == s.links && t.containers == s.containers && t.manifests == s.manifests
  }

  // One item row changed, within its shipment.
  ghost predicate ItemChanged(s: State, t: State, i: ItemId) {
    && i in s.items
    && t.items.Keys == s.items.Keys
    && t.items[i].shipment == s.items[i].shipment
    && t.items[i].sequence == s.items[i].sequence
    && (forall j :: j in s.items && j != i ==> t.items[j] == s.items[j])
  }

  // The statuses that tie an item to a transport.
  predicate Tied(st: ItemStatus) {
    st.AssignedToContainer? || st.AssignedToManifest? || st.Loaded? || st.DepartedOrigin?
  }

  // One item moved between two statuses that tie it to nothing.
  ghost predicate LooseMove(s: State, t: State, i: ItemId) {
    && SameTransports(s, t)
    && ItemChanged(s, t, i)
    && !Tied(s.items[i].status)
    && !Tied(t.items[i].status)
  }

  // The shipment's status went through the rollup, judged on the new items; no other shipment changed.
  ghost predicate OneRolled(s: State, t: State, rollup: Rollup, sh: ShipmentId) {
    && sh in s.shipments
    && t.shipments == s.shipments[sh := s.shipments[sh].(
      status := Rolled(rollup, t.items, sh, s.shipments[sh].status))]
  }

  lemma ReceiveEffect(s: State, t: State, i: ItemId, wh: WarehouseId, now: Time)
    requires Wf(s) && Receive(s, i, wh, now) == Ok(t)
    ensures LooseMove(s, t, i) && OneRolled(s, t, ReceivingRollup, s.items[i].shipment)
    ensures s.items[i].status.Registered? && t.items[i].status.ReceivedOriginWarehouse? && t.items[i].receivedAt.Some?
  {
    hide Rolled;
  }

  lemma ProcessEffect(s: State, t: State, i: ItemId, wh: WarehouseId, again: bool, f: Finding, now: Time)
    requires Wf(s) && Process(s, i, wh, again, f, now) == Ok(t)
    ensures LooseMove(s, t, i) && OneRolled(s, t, ProcessingRollup, s.items[i].shipment)
    ensures var from := s.items[i].status; from.ReceivedOriginWarehouse? || from.Processed? || from.Exception?
    ensures t.items[i].status == if f.ready then ItemStatus.Processed else ItemStatus.Exception
    ensures t.items[i].receivedAt == s.items[i].receivedAt
  {
    hide Rolled;
  }

  lemma DestinationReceiveEffect(s: State, t: State, i: ItemId, wh: WarehouseId, damaged: bool, flagged: bool,
                                 described: bool, now: Time)
    requires Wf(s) && DestinationReceive(s, i, wh, damaged, flagged, described, now) == Ok(t)
    ensures LooseMove(s, t, i) && OneRolled(s, t, ReadyForPickupRollup, s.items[i].shipment)
    ensures s.items[i].status.ArrivedDestination?
    ensures t.items[i].status ==
      if damaged || flagged then ItemStatus.Exception else ItemStatus.ReceivedDestinationWarehouse
    ensures s.items[i].receivedAt.Some? ==> t.items[i].receivedAt == s.items[i].receivedAt
  {
    hide Rolled;
  }

  lemma PickUpEffect(s: State, t: State, i: ItemId, wh: WarehouseId, now: Time)
    requires Wf(s) && PickUp(s, i, wh, now) == Ok(t)
    ensures LooseMove(s, t, i) && OneRolled(s, t, CompletionRollup, s.items[i].shipment)
    ensures s.items[i].status.ReceivedDestinationWarehouse? && t.items[i].status.PickedUp?
    ensures t.items[i].receivedAt == s.items[i].receivedAt
  {
    hide Rolled;
  }

  lemma SendOutEffect(s: State, t: State, i: ItemId, wh: WarehouseId, carrier: Carrier, now: Time)
    requires Wf(s) && SendOut(s, i, wh, carrier, now) == Ok(t)
    ensures LooseMove(s, t, i) && OneRolled(s, t, OutForDeliveryRollup, s.items[i].shipment)
    ensures s.items[i].status.ReceivedDestinationWarehouse? && t.items[i].status.OutForDelivery?
    ensures t.items[i].receivedAt == s.items[i].receivedAt
  {
    hide Rolled;
  }

  // The status a delivery confirmation leaves: first the delivered rollup, then the completion rollup.
  function AfterDelivery(items: map<ItemId, Item>, sh: ShipmentId, st: ShipmentStatus): ShipmentStatus {
    Rolled(CompletionRollup, items, sh, Rolled(DeliveredRollup, items, sh, st))
  }

  lemma DeliverEffect(s: State, t: State, i: ItemId, wh: WarehouseId, carrier: Carrier, now: Time)
    requires Wf(s) && Deliver(s, i, wh, carrier, now) == Ok(t)
    ensures LooseMove(s, t, i)
    ensures var sh := s.items[i].shipment;
      t.shipments == s.shipments[sh := s.shipments[sh].(status := AfterDelivery(t.items, sh, s.shipments[sh].status))]
    ensures s.items[i].status.OutForDelivery? && t.items[i].status.Delivered?
    ensures t.items[i].receivedAt == s.items[i].receivedAt
  {
    hide Rolled;
    var sh := s.items[i].shipment;
    var s2 := HandOver(TrackItem(s, i, EventType.Delivered, Some(ItemStatus.Delivered), Some(wh), now), i, Delivery);
    var s3 := Roll(s2, DeliveredRollup, sh, now);
    assert t == Roll(s3, CompletionRollup, sh, now);
  }

  lemma ReturnEffect(s: State, t: State, i: ItemId, wh: WarehouseId, flagged: bool, now: Time)
    requires Wf(s) && Return(s, i, wh, flagged, now) == Ok(t)
    ensures LooseMove(s, t, i) && t.shipments == s.shipments
    ensures s.items[i].status.OutForDelivery?
    ensures t.items[i].status == if flagged then ItemStatus.Exception else ItemStatus.ReceivedDestinationWarehouse
    ensures t.items[i].receivedAt == s.items[i].receivedAt
  {
    hide Rolled;
  }

  // The steps of WarehouseService work on one item that is tied to no transport.
  predicate WarehouseStep(step: Step) {
    step.ReceiveStep? || step.ProcessStep? || step.DestinationReceiveStep? || step.PickUpStep?
    || step.SendOutStep? || step.DeliverStep? || step.ReturnStep?
  }

  lemma WarehouseStepEffect(s: State, t: State, call: Call)
    requires Wf(s) && WarehouseStep(call.step) && Try(s, call) == Ok(t)
    ensures LooseMove(s, t, call.step.item)
  {
    match call.step {
      case ReceiveStep(i, wh) => ReceiveEffect(s, t, i, wh, call.now);
      case ProcessStep(i, wh, again, f) => ProcessEffect(s, t, i, wh, again, f, call.now);
      case DestinationReceiveStep(i, wh, d, x, e) => DestinationReceiveEffect(s, t, i, wh, d, x, e, call.now);
      case PickUpStep(i, wh) => PickUpEffect(s, t, i, wh, call.now);
      case SendOutStep(i, wh, carrier) => SendOutEffect(s, t, i, wh, carrier, call.now);
      case DeliverStep(i, wh, carrier) => DeliverEffect(s, t, i, wh, carrier, call.now);
      case ReturnStep(i, wh, x) => ReturnEffect(s, t, i, wh, x, call.now);
    }
  }

  // The steps that leave the transport tables alone.
  predicate DeskStep(step: Step) {
    WarehouseStep(step) || step.CreateShipmentStep? || step.AddItemStep? || step.ManualStep?
  }

  lemma DeskStepEffect(s: State, t: State, call: Call)
    requires Wf(s) && DeskStep(call.step) && Try(s, call) == Ok(t)
    ensures SameTransports(s, t)
  {
    if WarehouseStep(call.step) {
      WarehouseStepEffect(s, t, call);
    }
  }

  lemma AddItemEffect(s: State, t: State, sh: ShipmentId, i: ItemId, now: Time)
    requires Wf(s) && AddItem(s, sh, i, now) == Ok(t)
    ensures SameTransports(s, t) && t.shipments == s.shipments && sh in s.shipments && i !in s.items
    ensures t.items == s.items[i := Item(sh, |ItemsOf(s.items, sh)| + 1, Registered, None, None)]
  {
  }

  lemma CreateShipmentEffect(s: State, t: State, sh: ShipmentId, email: bool, ids: seq<ItemId>, now: Time)
    requires Wf(s) && CreateShipment(s, sh, email, ids, now) == Ok(t)
    ensures SameTransports(s, t) && sh !in s.shipments
    ensures t.shipments == s.shipments[sh := Shipment(ShipmentStatus.Draft, email)]
    ensures t.items.Keys == s.items.Keys + (set i | i in ids)
    ensures forall i :: i in s.items ==> t.items[i] == s.items[i]
    ensures forall i :: i in t.items && i !in s.items ==>
      t.items[i].shipment == sh && t.items[i].status.Registered? && t.items[i].receivedAt.None?
    ensures forall k :: 0 <= k < |ids| ==> ids[k] !in s.items && t.items[ids[k]] == Item(sh, k + 1, Registered, None, None)
  {
    CreatedItems(OpenShipment(s, sh, email, now), sh, ids, now);
  }

  // --- Single-row transport steps -----------------------------------------------------

  lemma LoadEffect(s: State, t: State, c: ContainerId, i: ItemId, now: Time)
    requires Wf(s) && Load(s, c, i, now) == Ok(t)
    ensures ItemChanged(s, t, i) && OneRolled(s, t, ContainerRollup, s.items[i].shipment)
    ensures t.links == s.links + [Link(InContainer(c), s.items[i].shipment, i, true)] && t.manifests == s.manifests
    ensures c in s.containers && Accepting(s.containers[c].status)
    ensures t.containers == s.containers[c := s.containers[c].(status := ContainerStatus.Loading)]
    ensures s.items[i].status.Processed? && t.items[i].status.AssignedToContainer?
    ensures t.items[i].receivedAt == s.items[i].receivedAt
  {
    hide Rolled;
    if !s.containers[c].status.Booked? {
      assert s.containers == s.containers[c := s.containers[c].(status := ContainerStatus.Loading)];
    }
  }

  lemma UnloadEffect(s: State, t: State, c: ContainerId, i: ItemId, now: Time)
    requires Wf(s) && Unload(s, c, i, now) == Ok(t)
    ensures ItemChanged(s, t, i) && OneRolled(s, t, ContainerRollup, s.items[i].shipment)
    ensures var k := FindRow(s.links, InContainer(c), i); k < |s.links| && t.links == Retire(s.links, k)
    ensures t.manifests == s.manifests && c in s.containers && Accepting(s.containers[c].status)
    ensures t.containers ==
      if NobodyAboard(t.links, {InContainer(c)}) && s.containers[c].status.Loading?
      then s.containers[c := s.containers[c].(status := ContainerStatus.Booked)] else s.containers
    ensures t.items[i].status.Processed? && t.items[i].receivedAt == s.items[i].receivedAt
  {
    hide Rolled;
    var k := FindRow(s.links, InContainer(c), i);
    var s1 := s.(links := Retire(s.links, k));
    var s2 := TrackItem(s1, i, EventType.RemovedFromContainer, Some(ItemStatus.Processed), None, now);
    var emptied := NobodyAboard(s2.links, {InContainer(c)}) && s.containers[c].status.Loading?;
    var s3 := if emptied then SetContainerStatus(s2, c, ContainerStatus.Booked) else s2;
    assert s3.items == s2.items && s3.links == s1.links && s3.shipments == s.shipments;
    assert t == Roll(s3, ContainerRollup, s.links[k].shipment, now);
  }

  lemma AssignItemEffect(s: State, t: State, m: ManifestId, i: ItemId, conflict: bool, now: Time)
    requires Wf(s) && AssignItem(s, m, i, conflict, now) == Ok(t)
    ensures ItemChanged(s, t, i) && OneRolled(s, t, ManifestRollup, s.items[i].shipment)
    ensures t.links == s.links + [Link(OnManifest(m), s.items[i].shipment, i, true)]
    ensures t.manifests == s.manifests && t.containers == s.containers
    ensures m in s.manifests && s.manifests[m].mode.Air? && s.manifests[m].status.Draft?
    ensures s.items[i].status.Processed? && t.items[i].status.AssignedToManifest?
    ensures t.items[i].receivedAt == s.items[i].receivedAt
  {
    hide Rolled;
  }

  lemma UnassignItemEffect(s: State, t: State, m: ManifestId, i: ItemId, now: Time)
    requires Wf(s) && UnassignItem(s, m, i, now) == Ok(t)
    ensures ItemChanged(s, t, i) && OneRolled(s, t, ManifestRollup, s.items[i].shipment)
    ensures var k := FindRow(s.links, OnManifest(m), i); k < |s.links| && t.links == Retire(s.links, k)
    ensures t.manifests == s.manifests && t.containers == s.containers
    ensures m in s.manifests && s.manifests[m].status.Draft?
    ensures t.items[i].status.Processed? && t.items[i].receivedAt == s.items[i].receivedAt
  {
    hide Rolled;
  }

  // --- Bulk transport steps -----------------------------------------------------------

  // Every item aboard took the status; nothing else about any item changed.
  ghost predicate CargoTook(s: State, t: State, units: set<Unit>, st: ItemStatus) {
    && t.links == s.links
    && t.items.Keys == s.items.Keys
    && (forall i :: i in s.items ==>
      t.items[i] == if Aboard(s.links, |s.links|, units, i) then s.items[i].(status := st) else s.items[i])
  }

  // Every shipment with cargo aboard went through the rollup, and no other did.
  ghost predicate CargoRolled(s: State, t: State, units: set<Unit>, rollup: Rollup)
    requires t.shipments.Keys == s.shipments.Keys
  {
    forall sh :: sh in s.shipments ==>
      t.shipments[sh] == if Touched(s.links, units, sh)
        then s.shipments[sh].(status := Rolled(rollup, t.items, sh, s.shipments[sh].status))
        else s.shipments[sh]
  }

  ghost predicate Touched(links: seq<Link>, units: set<Unit>, sh: ShipmentId) {
    exists k :: 0 <= k < |links| && Carries(links[k], units) && links[k].shipment == sh
  }

  lemma {:induction false} RolledOnce(s: State, rollup: Rollup, shs: seq<ShipmentId>, now: Time)
    requires forall sh :: sh in shs ==> sh in s.shipments
    requires forall j, k :: 0 <= j < k < |shs| ==> shs[j] != shs[k]
    ensures var r := RollAll(s, rollup, shs, now);
      forall sh :: sh in s.shipments ==>
        r.shipments[sh] == if sh in shs
          then s.shipments[sh].(status := Rolled(rollup, s.items, sh, s.shipments[sh].status))
          else s.shipments[sh]
  {
    if shs != [] {
      var n := |shs| - 1;
      RolledOnce(s, rollup, shs[..n], now);
      assert shs == shs[..n] + [shs[n]];
      assert shs[n] !in shs[..n];
    }
  }

  lemma AffectedRolled(s: State, rollup: Rollup, units: set<Unit>, now: Time)
    requires Wf(s)
    ensures CargoRolled(s, RollAffected(s, rollup, units, now), units, rollup)
  {
    RolledOnce(s, rollup, Affected(s.links, |s.links|, units), now);
  }

  lemma SealEffect(s: State, t: State, c: ContainerId, now: Time)
    requires Wf(s) && Seal(s, c, now) == Ok(t)
    ensures CargoTook(s, t, {InContainer(c)}, ItemStatus.Loaded)
    ensures t.shipments.Keys == s.shipments.Keys && CargoRolled(s, t, {InContainer(c)}, ContainerRollup)
    ensures t.manifests == s.manifests && c in s.containers && s.containers[c].status.Loading?
    ensures t.containers == s.containers[c := s.containers[c].(status := ContainerStatus.Loaded)]
  {
    hide TrackCargo, RollAffected, CargoIs, EmptyManifest, ContainersAre, Aboard, Touched, NobodyAboard, Rolled;
    var units := {InContainer(c)};
    var s1 := SetContainerStatus(s, c, ContainerStatus.Loaded);
    var s2 := TrackCargo(s1, units, |s.links|, EventType.Loaded, Some(ItemStatus.Loaded), s.containers[c].warehouse, now);
    AffectedRolled(s2, ContainerRollup, units, now);
  }

  lemma FinalizeEffect(s: State, t: State, m: ManifestId, now: Time)
    requires Wf(s) && FinalizeManifest(s, m, now) == Ok(t)
    ensures m in s.manifests && s.manifests[m].status.Draft?
    ensures !EmptyManifest(s.containers, s.links, m, s.manifests[m])
    ensures t.containers == s.containers && t.links == s.links && t.shipments.Keys == s.shipments.Keys
    ensures t.manifests == s.manifests[m := s.manifests[m].(
      status := Finalized, snapshot := Some(ApprovedCargo(s.links, |s.links|, UnitsOf(s, m))))]
    ensures s.manifests[m].mode.Air? ==>
      && CargoIs(s, UnitsOf(s, m), ItemStatus.AssignedToManifest)
      && CargoTook(s, t, UnitsOf(s, m), ItemStatus.Loaded)
      && CargoRolled(s, t, UnitsOf(s, m), ManifestRollup)
    ensures !s.manifests[m].mode.Air? ==>
      ContainersAre(s, m, ContainerStatus.Loaded) && t.items == s.items && t.shipments == s.shipments
  {
    hide TrackCargo, RollAffected, CargoIs, EmptyManifest, ContainersAre, Aboard, Touched, NobodyAboard, Rolled;
    var units := UnitsOf(s, m);
    if s.manifests[m].mode.Air? {
      var frozen := ApprovedCargo(s.links, |s.links|, units);
      var s1 := SetManifest(s, m, s.manifests[m].(status := Finalized, snapshot := Some(frozen)));
      var s2 := TrackCargo(s1, units, |s.links|, EventType.Loaded, Some(ItemStatus.Loaded), None, now);
      AffectedRolled(s2, ManifestRollup, units, now);
    }
  }

  // The containers of m took the status.
  ghost predicate ContainersTook(s: State, t: State, m: ManifestId, st: ContainerStatus) {
    && t.containers.Keys == s.containers.Keys
    && (forall c :: c in s.containers ==>
      t.containers[c] == if s.containers[c].manifest == Some(m) then s.containers[c].(status := st) else s.containers[c])
  }

  lemma DepartEffect(s: State, t: State, m: ManifestId, now: Time)
    requires Wf(s) && Depart(s, m, now) == Ok(t)
    ensures m in s.manifests && s.manifests[m].status.Finalized?
    ensures !EmptyManifest(s.containers, s.links, m, s.manifests[m])
    ensures CargoIs(s, UnitsOf(s, m), ItemStatus.Loaded)
    ensures CargoTook(s, t, UnitsOf(s, m), ItemStatus.DepartedOrigin)
    ensures t.shipments.Keys == s.shipments.Keys && CargoRolled(s, t, UnitsOf(s, m), DepartureRollup)
    ensures t.manifests == s.manifests[m := s.manifests[m].(status := ManifestStatus.Departed)]
    ensures !s.manifests[m].mode.Air? ==> ContainersAre(s, m, ContainerStatus.Loaded)
    ensures ContainersTook(s, t, m, ContainerStatus.Departed)
  {
    hide TrackCargo, RollAffected, CargoIs, EmptyManifest, ContainersAre, Aboard, Touched, NobodyAboard, Rolled;
    var units := UnitsOf(s, m);
    var s1 := TrackCargo(s, units, |s.links|, EventType.DepartedOrigin, Some(ItemStatus.DepartedOrigin), None, now);
    var s2 := if s.manifests[m].mode.Air? then s1 else MoveContainers(s1, m, ContainerStatus.Departed);
    var s3 := SetManifest(s2, m, s.manifests[m].(status := ManifestStatus.Departed));
    AffectedRolled(s3, DepartureRollup, units, now);
  }

  lemma ArriveEffect(s: State, t: State, m: ManifestId, now: Time)
    requires Wf(s) && Arrive(s, m, now) == Ok(t)
    ensures m in s.manifests && s.manifests[m].status.Departed?
    ensures !EmptyManifest(s.containers, s.links, m, s.manifests[m])
    ensures CargoTook(s, t, UnitsOf(s, m), ItemStatus.ArrivedDestination)
    ensures t.shipments.Keys == s.shipments.Keys && CargoRolled(s, t, UnitsOf(s, m), ArrivalRollup)
    ensures t.manifests == s.manifests[m := s.manifests[m].(status := ManifestStatus.Arrived)]
    ensures !s.manifests[m].mode.Air? ==> ContainersAre(s, m, ContainerStatus.Departed)
    ensures ContainersTook(s, t, m, ContainerStatus.Arrived)
  {
    hide TrackCargo, RollAffected, CargoIs, EmptyManifest, ContainersAre, Aboard, Touched, NobodyAboard, Rolled;
    var units := UnitsOf(s, m);
    var s1 := TrackCargo(s, units, |s.links|, EventType.ArrivedDestination, Some(ItemStatus.ArrivedDestination), None, now);
    var s2 := if s.manifests[m].mode.Air? then s1 else MoveContainers(s1, m, ContainerStatus.Arrived);
    var s3 := SetManifest(s2, m, s.manifests[m].(status := ManifestStatus.Arrived));
    AffectedRolled(s3, ArrivalRollup, units, now);
  }

  lemma AssignContainerEffect(s: State, t: State, m: ManifestId, c: ContainerId, conflict: bool, now: Time)
    requires Wf(s) && AssignContainer(s, m, c, conflict, now) == Ok(t)
    ensures t.items == s.items && t.shipments == s.shipments && t.links == s.links && t.manifests == s.manifests
    ensures m in s.manifests && s.manifests[m].status.Draft? && !s.manifests[m].mode.Air?
    ensures c in s.containers && s.containers[c].status.Loaded? && s.containers[c].manifest.None?
    ensures t.containers == s.containers[c := s.containers[c].(manifest := Some(m))]
  {
  }

  lemma UnassignContainerEffect(s: State, t: State, m: ManifestId, c: ContainerId, now: Time)
    requires Wf(s) && UnassignContainer(s, m, c, now) == Ok(t)
    ensures t.items == s.items && t.shipments == s.shipments && t.links == s.links && t.manifests == s.manifests
    ensures m in s.manifests && s.manifests[m].status.Draft?
    ensures c in s.containers && s.containers[c].manifest == Some(m)
    ensures t.containers == s.containers[c := s.containers[c].(manifest := None)]
  {
  }
}
