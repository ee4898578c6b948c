/**
 A run that ends with every item of a shipment loaded or further and the shipment still
 CONSOLIDATED: one parcel flies ahead, the other follows in a container.
 */
module MissedGate {
  import opened Basics
  import opened Statuses
  import opened CargoState
  import opened CargoSteps
  import opened CargoRuns
  import opened CargoEffects

  const BY_AIR := Transport(true, true, false, false, true, true)
  const FIT := Finding(true, false, false, false)

  // A parcel as its status leaves it: not yet received, in the warehouse or on its way, or gone from it.
  function Parcel(sequence: nat, st: ItemStatus): Item {
    if st.Registered? then Item(0, sequence, st, None, None)
    else if st.OutForDelivery? || st.Delivered? || st.PickedUp? then Item(0, sequence, st, Some(0), None)
    else Item(0, sequence, st, Some(0), Some(0))
  }

  ghost predicate Parcels(items: map<ItemId, Item>, a: ItemStatus, b: ItemStatus) {
    items == map[0 := Parcel(1, a), 1 := Parcel(2, b)]
  }

  // One shipment with two parcels, and whatever transports there are.
  ghost predicate Staged(s: State, notify: bool, st: ShipmentStatus, a: ItemStatus, b: ItemStatus,
                         containers: map<ContainerId, Container>, flight: Option<ManifestStatus>, links: seq<Link>) {
    && s.warehouses == {0}
    && s.shipments == map[0 := Shipment(st, notify)]
    && Parcels(s.items, a, b)
    && s.containers == containers
    && s.manifests.Keys == (if flight.Some? then {0} else {})
    && (flight.Some? ==>
      && s.manifests[0].status == flight.value
      && s.manifests[0].mode.Air?
      && s.manifests[0].originWarehouse == None
      && s.manifests[0].transport == BY_AIR)
    && s.links == links
  }

  ghost predicate Scene(s: State, st: ShipmentStatus, a: ItemStatus, b: ItemStatus,
                        containers: map<ContainerId, Container>, flight: Option<ManifestStatus>, links: seq<Link>) {
    Staged(s, false, st, a, b, containers, flight, links)
  }

  const FLYING := Link(OnManifest(0), 0, 0, true)
  const BOXED := Link(InContainer(0), 0, 1, true)

  // What the rollups make of the two parcels, turn by turn.
  lemma ReceivingTurns(items: map<ItemId, Item>, b: ItemStatus)
    requires Parcels(items, ReceivedOriginWarehouse, b) && (b.Registered? || b.ReceivedOriginWarehouse?)
    ensures Rolled(ReceivingRollup, items, 0, ShipmentStatus.Draft) ==
      if b.Registered? then ShipmentStatus.Draft else WarehouseReceived
  {
    assert items[0].shipment == 0 && items[1].shipment == 0;
    assert AllReceived(items, 0) <==> !b.Registered?;
  }

  lemma ProcessingTurns(items: map<ItemId, Item>, b: ItemStatus)
    requires Parcels(items, ItemStatus.Processed, b) && (b.ReceivedOriginWarehouse? || b.Processed?)
    ensures b.Processed? ==> Rolled(ProcessingRollup, items, 0, Processing) == ReadyForConsolidation
    ensures !b.Processed? ==> Rolled(ProcessingRollup, items, 0, WarehouseReceived) == Processing
  {
    assert items[0].shipment == 0 && items[1].shipment == 0;
    assert AnyProcessingActivity(items, 0);
    assert AllReached(items, 0, AtLeastProcessed) <==> b.Processed?;
  }

  lemma BoardingTurns(items: map<ItemId, Item>)
    requires Parcels(items, ItemStatus.AssignedToManifest, ItemStatus.Processed)
    ensures Rolled(ManifestRollup, items, 0, ReadyForConsolidation) == ShipmentStatus.Consolidated
  {
    assert items[0].shipment == 0 && items[1].shipment == 0;
    assert AnyReached(items, 0, AtLeastCommitted);
    assert !AllReached(items, 0, AtLeastLoaded);
  }

  // One parcel short of a stage keeps the shipment where it is.
  lemma StillConsolidated(items: map<ItemId, Item>, st: ItemStatus)
    requires st.Loaded? || st.DepartedOrigin?
    requires Parcels(items, st, ItemStatus.Processed)
    ensures Rolled(ManifestRollup, items, 0, ShipmentStatus.Consolidated) == ShipmentStatus.Consolidated
    ensures Rolled(DepartureRollup, items, 0, ShipmentStatus.Consolidated) == ShipmentStatus.Consolidated
  {
    assert items[0].shipment == 0 && items[1].shipment == 0;
    assert AnyReached(items, 0, AtLeastCommitted);
    assert !AllReached(items, 0, AtLeastLoaded) && !AllReached(items, 0, AtLeastDeparted);
  }

  // The gate itself: the parcel that left is no longer exactly LOADED.
  lemma GateMissed(items: map<ItemId, Item>, b: ItemStatus)
    requires Parcels(items, ItemStatus.DepartedOrigin, b) && (b.AssignedToContainer? || b.Loaded?)
    ensures Rolled(ContainerRollup, items, 0, ShipmentStatus.Consolidated) == ShipmentStatus.Consolidated
  {
    assert items[0].shipment == 0 && items[1].shipment == 0;
    assert AnyInContainer(items, 0);
    assert !AllExactlyLoaded(items, 0);
  }

  lemma Created(s: State, notify: bool)
    requires s == Empty({0}) && Wf(s)
    ensures var r := CreateShipment(s, 0, notify, [0, 1], 0);
      r.Ok? && Staged(r.value, notify, ShipmentStatus.Draft, Registered, Registered, map[], None, [])
  {
    var ids: seq<ItemId> := [0, 1];
    var r := CreateShipment(s, 0, notify, ids, 0);
    assert FreshItems(s, ids);
    CreateShipmentEffect(s, r.value, 0, notify, ids, 0);
    assert ids[0] == 0 && ids[1] == 1;
    assert Parcels(r.value.items, Registered, Registered);
  }

  lemma ReceivedFirst(s: State, notify: bool)
    requires Wf(s) && Staged(s, notify, ShipmentStatus.Draft, Registered, Registered, map[], None, [])
    ensures var r := Receive(s, 0, 0, 0);
      r.Ok? && Staged(r.value, notify, ShipmentStatus.Draft, ReceivedOriginWarehouse, Registered, map[], None, [])
  {
    hide Rolled, Roll, TrackItem;
    var r := Receive(s, 0, 0, 0);
    ReceivingTurns(r.value.items, Registered);
  }

  lemma ReceivedSecond(s: State, notify: bool)
    requires Wf(s) && Staged(s, notify, ShipmentStatus.Draft, ReceivedOriginWarehouse, Registered, map[], None, [])
    ensures var r := Receive(s, 1, 0, 0);
      r.Ok? && Staged(r.value, notify, WarehouseReceived, ReceivedOriginWarehouse, ReceivedOriginWarehouse, map[], None, [])
  {
    hide Rolled, Roll, TrackItem;
    var r := Receive(s, 1, 0, 0);
    ReceivingTurns(r.value.items, ReceivedOriginWarehouse);
  }

  lemma ProcessedFirst(s: State, notify: bool)
    requires Wf(s)
    requires Staged(s, notify, WarehouseReceived, ReceivedOriginWarehouse, ReceivedOriginWarehouse, map[], None, [])
    ensures var r := Process(s, 0, 0, false, FIT, 0);
      r.Ok? && Staged(r.value, notify, Processing, ItemStatus.Processed, ReceivedOriginWarehouse, map[], None, [])
  {
    hide Rolled, Roll, TrackItem;
    var r := Process(s, 0, 0, false, FIT, 0);
    ProcessingTurns(r.value.items, ReceivedOriginWarehouse);
  }

  lemma ProcessedSecond(s: State, notify: bool)
    requires Wf(s) && Staged(s, notify, Processing, ItemStatus.Processed, ReceivedOriginWarehouse, map[], None, [])
    ensures var r := Process(s, 1, 0, false, FIT, 0);
      r.Ok? && Staged(r.value, notify, ReadyForConsolidation, ItemStatus.Processed, ItemStatus.Processed, map[], None, [])
  {
    hide Rolled, Roll, TrackItem;
    var r := Process(s, 1, 0, false, FIT, 0);
    ProcessingTurns(r.value.items, ItemStatus.Processed);
  }

  lemma FlightCreated(s: State)
    requires Wf(s) && Scene(s, ReadyForConsolidation, ItemStatus.Processed, ItemStatus.Processed, map[], None, [])
    ensures var r := CreateManifest(s, 0, Air, None, BY_AIR);
      && r.Ok?
      && Scene(r.value, ReadyForConsolidation, ItemStatus.Processed, ItemStatus.Processed, map[], Some(ManifestStatus.Draft), [])
  {
  }

  lemma FirstAssigned(s: State)
    requires Wf(s)
    requires Scene(s, ReadyForConsolidation, ItemStatus.Processed, ItemStatus.Processed, map[], Some(ManifestStatus.Draft), [])
    ensures var r := AssignItem(s, 0, 0, false, 0);
      && r.Ok?
      && Scene(r.value, ShipmentStatus.Consolidated, ItemStatus.AssignedToManifest, ItemStatus.Processed, map[],
               Some(ManifestStatus.Draft), [FLYING])
  {
    hide Rolled, Roll, TrackItem;
    var r := AssignItem(s, 0, 0, false, 0);
    BoardingTurns(r.value.items);
  }

  // The one parcel aboard the flight takes the status; the other stays.
  lemma OnlyFirst(s: State, t: State, from: ItemStatus, st: ItemStatus, rollup: Rollup)
    requires Wf(s) && s.links == [FLYING] && Parcels(s.items, from, ItemStatus.Processed)
    requires s.shipments.Keys == {0} && t.shipments.Keys == {0}
    requires CargoTook(s, t, {OnManifest(0)}, st) && CargoRolled(s, t, {OnManifest(0)}, rollup)
    requires (from.AssignedToManifest? || from.Loaded?) && (st.Loaded? || st.DepartedOrigin?)
    ensures Parcels(t.items, st, ItemStatus.Processed)
    ensures t.shipments[0] == s.shipments[0].(status := Rolled(rollup, t.items, 0, s.shipments[0].status))
  {
    hide Rolled, Wf;
    assert Carries(s.links[0], {OnManifest(0)}) && s.links[0].item == 0 && s.links[0].shipment == 0;
    assert Aboard(s.links, |s.links|, {OnManifest(0)}, 0);
    assert !Aboard(s.links, |s.links|, {OnManifest(0)}, 1);
    assert Touched(s.links, {OnManifest(0)}, 0);
  }

  lemma FlightFinalizes(s: State)
    requires Wf(s)
    requires Scene(s, ShipmentStatus.Consolidated, ItemStatus.AssignedToManifest, ItemStatus.Processed, map[],
                   Some(ManifestStatus.Draft), [FLYING])
    ensures FinalizeManifest(s, 0, 0).Ok? && UnitsOf(s, 0) == {OnManifest(0)}
    ensures FinalizeManifest(s, 0, 0).value.warehouses == s.warehouses
  {
    hide TrackCargo, RollAffected;
    assert Carries(s.links[0], {OnManifest(0)});
  }

  lemma FlightDeparts(s: State)
    requires Wf(s)
    requires Scene(s, ShipmentStatus.Consolidated, ItemStatus.Loaded, ItemStatus.Processed, map[], Some(Finalized), [FLYING])
    ensures Depart(s, 0, 0).Ok? && UnitsOf(s, 0) == {OnManifest(0)}
    ensures Depart(s, 0, 0).value.warehouses == s.warehouses
  {
    hide TrackCargo, RollAffected;
    assert Carries(s.links[0], {OnManifest(0)});
  }

  lemma ContainerSeals(s: State)
    requires Wf(s)
    requires Scene(s, ShipmentStatus.Consolidated, ItemStatus.DepartedOrigin, ItemStatus.AssignedToContainer,
                   map[0 := Container(ContainerStatus.Loading, Some(0), None)], Some(ManifestStatus.Departed), [FLYING, BOXED])
    ensures Seal(s, 0, 0).Ok? && Seal(s, 0, 0).value.warehouses == s.warehouses
  {
    hide TrackCargo, RollAffected;
    assert Carries(s.links[1], {InContainer(0)});
  }

  lemma OnlySecond(s: State, t: State)
    requires Wf(s) && s.links == [FLYING, BOXED]
    requires Parcels(s.items, ItemStatus.DepartedOrigin, ItemStatus.AssignedToContainer)
    requires s.shipments.Keys == {0} && t.shipments.Keys == {0}
    requires CargoTook(s, t, {InContainer(0)}, ItemStatus.Loaded) && CargoRolled(s, t, {InContainer(0)}, ContainerRollup)
    ensures Parcels(t.items, ItemStatus.DepartedOrigin, ItemStatus.Loaded)
    ensures t.shipments[0] == s.shipments[0].(status := Rolled(ContainerRollup, t.items, 0, s.shipments[0].status))
  {
    hide Rolled, Wf;
    var units := {InContainer(0)};
    assert Carries(s.links[1], units) && !Carries(s.links[0], units);
    assert Aboard(s.links, |s.links|, units, 1) && !Aboard(s.links, |s.links|, units, 0);
    assert Touched(s.links, units, 0) by { assert s.links[1].shipment == 0; }
  }

  lemma FlightFinalized(s: State)
    requires Wf(s)
    requires Scene(s, ShipmentStatus.Consolidated, ItemStatus.AssignedToManifest, ItemStatus.Processed, map[],
                   Some(ManifestStatus.Draft), [FLYING])
    ensures var r := FinalizeManifest(s, 0, 0);
      && r.Ok?
      && Scene(r.value, ShipmentStatus.Consolidated, ItemStatus.Loaded, ItemStatus.Processed, map[], Some(Finalized), [FLYING])
  {
    hide Rolled, CargoRolled, FinalizeManifest;
    FlightFinalizes(s);
    var r := FinalizeManifest(s, 0, 0);
    FinalizeEffect(s, r.value, 0, 0);
    OnlyFirst(s, r.value, ItemStatus.AssignedToManifest, ItemStatus.Loaded, ManifestRollup);
    StillConsolidated(r.value.items, ItemStatus.Loaded);
    assert r.value.shipments == map[0 := Shipment(ShipmentStatus.Consolidated, false)];
  }

  lemma FlightDeparted(s: State)
    requires Wf(s)
    requires Scene(s, ShipmentStatus.Consolidated, ItemStatus.Loaded, ItemStatus.Processed, map[], Some(Finalized), [FLYING])
    ensures var r := Depart(s, 0, 0);
      && r.Ok?
      && Scene(r.value, ShipmentStatus.Consolidated, ItemStatus.DepartedOrigin, ItemStatus.Processed, map[],
               Some(ManifestStatus.Departed), [FLYING])
  {
    hide Rolled, CargoRolled, Depart;
    FlightDeparts(s);
    var r := Depart(s, 0, 0);
    DepartEffect(s, r.value, 0, 0);
    OnlyFirst(s, r.value, ItemStatus.Loaded, ItemStatus.DepartedOrigin, DepartureRollup);
    StillConsolidated(r.value.items, ItemStatus.DepartedOrigin);
    assert r.value.shipments == map[0 := Shipment(ShipmentStatus.Consolidated, false)];
  }

  lemma ContainerCreated(s: State)
    requires Wf(s)
    requires Scene(s, ShipmentStatus.Consolidated, ItemStatus.DepartedOrigin, ItemStatus.Processed, map[],
                   Some(ManifestStatus.Departed), [FLYING])
    ensures var r := CreateContainer(s, 0, Some(0));
      && r.Ok?
      && Scene(r.value, ShipmentStatus.Consolidated, ItemStatus.DepartedOrigin, ItemStatus.Processed,
               map[0 := Container(ContainerStatus.Booked, Some(0), None)], Some(ManifestStatus.Departed), [FLYING])
  {
  }

  lemma SecondLoaded(s: State)
    requires Wf(s)
    requires Scene(s, ShipmentStatus.Consolidated, ItemStatus.DepartedOrigin, ItemStatus.Processed,
                   map[0 := Container(ContainerStatus.Booked, Some(0), None)], Some(ManifestStatus.Departed), [FLYING])
    ensures var r := Load(s, 0, 1, 0);
      && r.Ok?
      && Scene(r.value, ShipmentStatus.Consolidated, ItemStatus.DepartedOrigin, ItemStatus.AssignedToContainer,
               map[0 := Container(ContainerStatus.Loading, Some(0), None)], Some(ManifestStatus.Departed), [FLYING, BOXED])
  {
    hide Rolled, Roll, TrackItem;
    var r := Load(s, 0, 1, 0);
    LoadEffect(s, r.value, 0, 1, 0);
    GateMissed(r.value.items, ItemStatus.AssignedToContainer);
  }

  lemma ContainerSealed(s: State)
    requires Wf(s)
    requires Scene(s, ShipmentStatus.Consolidated, ItemStatus.DepartedOrigin, ItemStatus.AssignedToContainer,
                   map[0 := Container(ContainerStatus.Loading, Some(0), None)], Some(ManifestStatus.Departed), [FLYING, BOXED])
    ensures var r := Seal(s, 0, 0);
      && r.Ok?
      && Scene(r.value, ShipmentStatus.Consolidated, ItemStatus.DepartedOrigin, ItemStatus.Loaded,
               map[0 := Container(ContainerStatus.Loaded, Some(0), None)], Some(ManifestStatus.Departed), [FLYING, BOXED])
  {
    hide Rolled, CargoRolled, Seal;
    ContainerSeals(s);
    var r := Seal(s, 0, 0);
    SealEffect(s, r.value, 0, 0);
    OnlySecond(s, r.value);
    GateMissed(r.value.items, ItemStatus.Loaded);
    assert r.value.shipments == map[0 := Shipment(ShipmentStatus.Consolidated, false)];
  }

  ghost predicate AllLoadedYetConsolidated(s: State) {
    && 0 in s.shipments
    && HasItems(s.items, 0)
    && AllReached(s.items, 0, AtLeastLoaded)
    && s.shipments[0].status == ShipmentStatus.Consolidated
  }

  ghost predicate Reachable(s: State) {
    exists calls: seq<Call> :: NoManualEvents(calls) && Run({0}, calls) == s
  }

  lemma ReachNext(s: State, t: State, step: Step)
    requires Wf(s) && Reachable(s) && !step.ManualStep? && Try(s, Call(step, 0)) == Ok(t)
    ensures Reachable(t) && Wf(t)
  {
    var calls :| NoManualEvents(calls) && Run({0}, calls) == s;
    var more := calls + [Call(step, 0)];
    assert more[..|calls|] == calls;
    assert NoManualEvents(more) && Run({0}, more) == t;
  }

  // The twelve calls are all accepted, and LOADED is never reached.
  lemma LoadedGateCanBeMissed()
    ensures exists s: State :: Reachable(s) && AllLoadedYetConsolidated(s)
  {
    hide Receive, Process, CreateManifest, AssignItem, FinalizeManifest, Depart, CreateContainer, Load, Seal, CreateShipment;
    hide AddItem, ManualEvent, DestinationReceive, PickUp, SendOut, Deliver, Return, Unload, OpenContainer, CloseContainer;
    hide AssignContainer, UnassignContainer, UnassignItem, Arrive, Wf;
    hide Scene, Reachable;
    var s := FlightTakesOff();
    ContainerCreated(s); s := Taken(s, CreateContainerStep(0, Some(0)), CreateContainer(s, 0, Some(0)));
    SecondLoaded(s); s := Taken(s, LoadStep(0, 1), Load(s, 0, 1, 0));
    ContainerSealed(s); s := Taken(s, SealStep(0), Seal(s, 0, 0));
    MissedScene(s);
  }

  lemma BothProcessed(notify: bool) returns (s: State)
    ensures Wf(s) && Reachable(s)
    ensures Staged(s, notify, ReadyForConsolidation, ItemStatus.Processed, ItemStatus.Processed, map[], None, [])
  {
    hide Receive, Process, CreateManifest, AssignItem, FinalizeManifest, Depart, CreateContainer, Load, Seal, CreateShipment;
    hide AddItem, ManualEvent, DestinationReceive, PickUp, SendOut, Deliver, Return, Unload, OpenContainer, CloseContainer;
    hide AssignContainer, UnassignContainer, UnassignItem, Arrive, Wf;
    hide Staged;
    s := Empty({0});
    assert Run({0}, []) == s;
    hide Reachable;
    Created(s, notify); s := Taken(s, CreateShipmentStep(0, notify, [0, 1]), CreateShipment(s, 0, notify, [0, 1], 0));
    ReceivedFirst(s, notify); s := Taken(s, ReceiveStep(0, 0), Receive(s, 0, 0, 0));
    ReceivedSecond(s, notify); s := Taken(s, ReceiveStep(1, 0), Receive(s, 1, 0, 0));
    ProcessedFirst(s, notify); s := Taken(s, ProcessStep(0, 0, false, FIT), Process(s, 0, 0, false, FIT, 0));
    ProcessedSecond(s, notify); s := Taken(s, ProcessStep(1, 0, false, FIT), Process(s, 1, 0, false, FIT, 0));
  }

  lemma FlightTakesOff() returns (s: State)
    ensures Wf(s) && Reachable(s)
    ensures Scene(s, ShipmentStatus.Consolidated, ItemStatus.DepartedOrigin, ItemStatus.Processed, map[],
                  Some(ManifestStatus.Departed), [FLYING])
  {
    hide Receive, Process, CreateManifest, AssignItem, FinalizeManifest, Depart, CreateContainer, Load, Seal, CreateShipment;
    hide AddItem, ManualEvent, DestinationReceive, PickUp, SendOut, Deliver, Return, Unload, OpenContainer, CloseContainer;
    hide AssignContainer, UnassignContainer, UnassignItem, Arrive, Wf;
    hide Staged, Reachable;
    s := BothProcessed(false);
    hide Scene;
    FlightCreated(s); s := Taken(s, CreateManifestStep(0, Air, None, BY_AIR), CreateManifest(s, 0, Air, None, BY_AIR));
    FirstAssigned(s); s := Taken(s, AssignItemStep(0, 0, false), AssignItem(s, 0, 0, false, 0));
    FlightFinalized(s); s := Taken(s, FinalizeStep(0), FinalizeManifest(s, 0, 0));
    FlightDeparted(s); s := Taken(s, DepartStep(0), Depart(s, 0, 0));
  }

  lemma Taken(s: State, step: Step, r: Result<State>) returns (t: State)
    requires Wf(s) && Reachable(s) && !step.ManualStep? && Try(s, Call(step, 0)) == r && r.Ok?
    ensures Wf(t) && Reachable(t) && r == Ok(t)
  {
    t := r.value;
    ReachNext(s, t, step);
  }

  lemma MissedScene(s: State)
    requires Scene(s, ShipmentStatus.Consolidated, ItemStatus.DepartedOrigin, ItemStatus.Loaded,
                   map[0 := Container(ContainerStatus.Loaded, Some(0), None)], Some(ManifestStatus.Departed), [FLYING, BOXED])
    ensures AllLoadedYetConsolidated(s)
  {
    assert s.items[0].shipment == 0;
  }
}
