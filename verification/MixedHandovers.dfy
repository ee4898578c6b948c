/**
 Two parcels fly together and are handed over differently. Runs that show the exact conditions
 of the out-for-delivery rollup, the closing email and earned statuses are not idle.
 */
module MixedHandovers {
  import opened Basics
  import opened Statuses
  import opened CargoState
  import opened CargoSteps
  import opened CargoRuns
  import opened CargoEffects
  import opened Stranding
  import opened Earning
  import opened Chronicle
  import opened ChronicleSteps
  import opened FinalEmail
  import opened MissedGate

  const ALSO_FLYING := Link(OnManifest(0), 0, 1, true)

  // The customer wants email; both parcels are on the flight.
  ghost predicate Flown(s: State, st: ShipmentStatus, a: ItemStatus, b: ItemStatus, flight: ManifestStatus) {
    Staged(s, true, st, a, b, map[], Some(flight), [FLYING, ALSO_FLYING])
  }

  // --- What the rollups make of the two parcels ---------------------------------------------

  lemma TogetherTurns(items: map<ItemId, Item>, st: ItemStatus)
    requires Parcels(items, st, st)
    ensures st.AssignedToManifest? ==>
      Rolled(ManifestRollup, items, 0, ShipmentStatus.Consolidated) == ShipmentStatus.Consolidated
    ensures st.Loaded? ==> Rolled(ManifestRollup, items, 0, ShipmentStatus.Consolidated) == ShipmentStatus.Loaded
    ensures st.DepartedOrigin? ==> Rolled(DepartureRollup, items, 0, ShipmentStatus.Loaded) == ShipmentStatus.Departed
    ensures st.ArrivedDestination? ==>
      Rolled(ArrivalRollup, items, 0, ShipmentStatus.Departed) == ShipmentStatus.ArrivedDestination
    ensures st.ReceivedDestinationWarehouse? ==>
      Rolled(ReadyForPickupRollup, items, 0, ShipmentStatus.ArrivedDestination) == ShipmentStatus.ReadyForPickup
  {
    assert items[0].shipment == 0 && items[1].shipment == 0;
    assert HasItems(items, 0);
    assert AnyReached(items, 0, AtLeastCommitted) <==> Reached(AtLeastCommitted, st);
    assert forall stage :: AllReached(items, 0, stage) <==> Reached(stage, st);
  }

  // One parcel behind the other keeps the shipment where it is.
  lemma ApartTurns(items: map<ItemId, Item>, a: ItemStatus, b: ItemStatus)
    requires Parcels(items, a, b)
    ensures a.ReceivedDestinationWarehouse? && b.ArrivedDestination? ==>
      Rolled(ReadyForPickupRollup, items, 0, ShipmentStatus.ArrivedDestination) == ShipmentStatus.ArrivedDestination
    ensures a.OutForDelivery? && b.ReceivedDestinationWarehouse? ==>
      Rolled(OutForDeliveryRollup, items, 0, ShipmentStatus.ReadyForPickup) == ShipmentStatus.ReadyForPickup
    ensures a.OutForDelivery? && b.PickedUp? ==>
      Rolled(CompletionRollup, items, 0, ShipmentStatus.ReadyForPickup) == ShipmentStatus.ReadyForPickup
    ensures a.Delivered? && b.ReceivedDestinationWarehouse? ==>
      AfterDelivery(items, 0, ShipmentStatus.ReadyForPickup) == ShipmentStatus.ReadyForPickup
    ensures a.Delivered? && b.PickedUp? ==>
      Rolled(CompletionRollup, items, 0, ShipmentStatus.ReadyForPickup) == ShipmentStatus.Completed
  {
    assert items[0].shipment == 0 && items[1].shipment == 0;
    assert HasItems(items, 0);
  }

  // --- The flight ---------------------------------------------------------------------------

  lemma FlightOpened(s: State)
    requires Wf(s) && Staged(s, true, ReadyForConsolidation, ItemStatus.Processed, ItemStatus.Processed, map[], None, [])
    ensures var r := CreateManifest(s, 0, Air, None, BY_AIR);
      && r.Ok?
      && Staged(r.value, true, ReadyForConsolidation, ItemStatus.Processed, ItemStatus.Processed, map[],
                Some(ManifestStatus.Draft), [])
  {
  }

  lemma FirstBoards(s: State)
    requires Wf(s)
    requires Staged(s, true, ReadyForConsolidation, ItemStatus.Processed, ItemStatus.Processed, map[],
                    Some(ManifestStatus.Draft), [])
    ensures var r := AssignItem(s, 0, 0, false, 0);
      && r.Ok?
      && Staged(r.value, true, ShipmentStatus.Consolidated, ItemStatus.AssignedToManifest, ItemStatus.Processed, map[],
                Some(ManifestStatus.Draft), [FLYING])
  {
    hide Rolled, Roll, TrackItem;
    var r := AssignItem(s, 0, 0, false, 0);
    BoardingTurns(r.value.items);
  }

  lemma SecondBoards(s: State)
    requires Wf(s)
    requires Staged(s, true, ShipmentStatus.Consolidated, ItemStatus.AssignedToManifest, ItemStatus.Processed, map[],
                    Some(ManifestStatus.Draft), [FLYING])
    ensures var r := AssignItem(s, 0, 1, false, 0);
      && r.Ok?
      && Flown(r.value, ShipmentStatus.Consolidated, ItemStatus.AssignedToManifest, ItemStatus.AssignedToManifest,
               ManifestStatus.Draft)
  {
    hide Rolled, Roll, TrackItem;
    var r := AssignItem(s, 0, 1, false, 0);
    TogetherTurns(r.value.items, ItemStatus.AssignedToManifest);
  }

  // Both parcels aboard take the status.
  lemma BothTake(s: State, t: State, from: ItemStatus, st: ItemStatus, rollup: Rollup)
    requires Wf(s) && s.links == [FLYING, ALSO_FLYING] && Parcels(s.items, from, from)
    requires s.shipments.Keys == {0} && t.shipments.Keys == {0}
    requires CargoTook(s, t, {OnManifest(0)}, st) && CargoRolled(s, t, {OnManifest(0)}, rollup)
    requires (from.AssignedToManifest? || from.Loaded? || from.DepartedOrigin?)
    requires (st.Loaded? || st.DepartedOrigin? || st.ArrivedDestination?)
    ensures Parcels(t.items, st, st)
    ensures t.shipments[0] == s.shipments[0].(status := Rolled(rollup, t.items, 0, s.shipments[0].status))
  {
    hide Rolled, Wf;
    var units := {OnManifest(0)};
    assert Carries(s.links[0], units) && s.links[0].item == 0 && s.links[0].shipment == 0;
    assert Carries(s.links[1], units) && s.links[1].item == 1;
    assert Aboard(s.links, |s.links|, units, 0) && Aboard(s.links, |s.links|, units, 1);
    assert Touched(s.links, units, 0);
  }

  lemma Accepted(s: State)
    requires Wf(s)
    ensures Flown(s, ShipmentStatus.Consolidated, ItemStatus.AssignedToManifest, ItemStatus.AssignedToManifest,
                  ManifestStatus.Draft) ==>
      FinalizeManifest(s, 0, 0).Ok? && UnitsOf(s, 0) == {OnManifest(0)}
      && FinalizeManifest(s, 0, 0).value.warehouses == s.warehouses
    ensures Flown(s, ShipmentStatus.Loaded, ItemStatus.Loaded, ItemStatus.Loaded, Finalized) ==>
      Depart(s, 0, 0).Ok? && UnitsOf(s, 0) == {OnManifest(0)} && Depart(s, 0, 0).value.warehouses == s.warehouses
    ensures Flown(s, ShipmentStatus.Departed, ItemStatus.DepartedOrigin, ItemStatus.DepartedOrigin, ManifestStatus.Departed) ==>
      Arrive(s, 0, 0).Ok? && UnitsOf(s, 0) == {OnManifest(0)} && Arrive(s, 0, 0).value.warehouses == s.warehouses
  {
    hide TrackCargo, RollAffected;
    assert s.links == [FLYING, ALSO_FLYING] ==> Carries(s.links[0], {OnManifest(0)});
  }

  lemma BothFinalized(s: State)
    requires Wf(s)
    requires Flown(s, ShipmentStatus.Consolidated, ItemStatus.AssignedToManifest, ItemStatus.AssignedToManifest,
                   ManifestStatus.Draft)
    ensures var r := FinalizeManifest(s, 0, 0);
      r.Ok? && Flown(r.value, ShipmentStatus.Loaded, ItemStatus.Loaded, ItemStatus.Loaded, Finalized)
  {
    hide Rolled, CargoRolled, FinalizeManifest;
    Accepted(s);
    var r := FinalizeManifest(s, 0, 0);
    FinalizeEffect(s, r.value, 0, 0);
    BothTake(s, r.value, ItemStatus.AssignedToManifest, ItemStatus.Loaded, ManifestRollup);
    TogetherTurns(r.value.items, ItemStatus.Loaded);
    assert r.value.shipments == map[0 := Shipment(ShipmentStatus.Loaded, true)];
  }

  lemma BothDeparted(s: State)
    requires Wf(s) && Flown(s, ShipmentStatus.Loaded, ItemStatus.Loaded, ItemStatus.Loaded, Finalized)
    ensures var r := Depart(s, 0, 0);
      && r.Ok?
      && Flown(r.value, ShipmentStatus.Departed, ItemStatus.DepartedOrigin, ItemStatus.DepartedOrigin, ManifestStatus.Departed)
  {
    hide Rolled, CargoRolled, Depart;
    Accepted(s);
    var r := Depart(s, 0, 0);
    DepartEffect(s, r.value, 0, 0);
    BothTake(s, r.value, ItemStatus.Loaded, ItemStatus.DepartedOrigin, DepartureRollup);
    TogetherTurns(r.value.items, ItemStatus.DepartedOrigin);
    assert r.value.shipments == map[0 := Shipment(ShipmentStatus.Departed, true)];
  }

  lemma BothArrived(s: State)
    requires Wf(s)
    requires Flown(s, ShipmentStatus.Departed, ItemStatus.DepartedOrigin, ItemStatus.DepartedOrigin, ManifestStatus.Departed)
    ensures var r := Arrive(s, 0, 0);
      && r.Ok?
      && Flown(r.value, ShipmentStatus.ArrivedDestination, ItemStatus.ArrivedDestination, ItemStatus.ArrivedDestination,
               ManifestStatus.Arrived)
  {
    hide Rolled, CargoRolled, Arrive;
    Accepted(s);
    var r := Arrive(s, 0, 0);
    ArriveEffect(s, r.value, 0, 0);
    BothTake(s, r.value, ItemStatus.DepartedOrigin, ItemStatus.ArrivedDestination, ArrivalRollup);
    TogetherTurns(r.value.items, ItemStatus.ArrivedDestination);
    assert r.value.shipments == map[0 := Shipment(ShipmentStatus.ArrivedDestination, true)];
  }

  // --- At the destination -------------------------------------------------------------------

  ghost predicate There(s: State, st: ShipmentStatus, a: ItemStatus, b: ItemStatus) {
    Flown(s, st, a, b, ManifestStatus.Arrived)
  }

  lemma FirstThere(s: State)
    requires Wf(s)
    requires There(s, ShipmentStatus.ArrivedDestination, ItemStatus.ArrivedDestination, ItemStatus.ArrivedDestination)
    ensures var r := DestinationReceive(s, 0, 0, false, false, false, 0);
      && r.Ok?
      && There(r.value, ShipmentStatus.ArrivedDestination, ItemStatus.ReceivedDestinationWarehouse, ItemStatus.ArrivedDestination)
  {
    hide Rolled, Roll, TrackItem;
    var r := DestinationReceive(s, 0, 0, false, false, false, 0);
    ApartTurns(r.value.items, ItemStatus.ReceivedDestinationWarehouse, ItemStatus.ArrivedDestination);
  }

  lemma SecondThere(s: State)
    requires Wf(s)
    requires There(s, ShipmentStatus.ArrivedDestination, ItemStatus.ReceivedDestinationWarehouse, ItemStatus.ArrivedDestination)
    ensures var r := DestinationReceive(s, 1, 0, false, false, false, 0);
      && r.Ok?
      && There(r.value, ShipmentStatus.ReadyForPickup, ItemStatus.ReceivedDestinationWarehouse,
               ItemStatus.ReceivedDestinationWarehouse)
  {
    hide Rolled, Roll, TrackItem;
    var r := DestinationReceive(s, 1, 0, false, false, false, 0);
    TogetherTurns(r.value.items, ItemStatus.ReceivedDestinationWarehouse);
  }

  lemma FirstSentOut(s: State)
    requires Wf(s)
    requires There(s, ShipmentStatus.ReadyForPickup, ItemStatus.ReceivedDestinationWarehouse,
                   ItemStatus.ReceivedDestinationWarehouse)
    ensures var r := SendOut(s, 0, 0, Named, 0);
      && r.Ok?
      && There(r.value, ShipmentStatus.ReadyForPickup, ItemStatus.OutForDelivery, ItemStatus.ReceivedDestinationWarehouse)
  {
    hide Rolled, Roll, TrackItem;
    var r := SendOut(s, 0, 0, Named, 0);
    ApartTurns(r.value.items, ItemStatus.OutForDelivery, ItemStatus.ReceivedDestinationWarehouse);
  }

  lemma SecondPickedUp(s: State)
    requires Wf(s)
    requires There(s, ShipmentStatus.ReadyForPickup, ItemStatus.OutForDelivery, ItemStatus.ReceivedDestinationWarehouse)
    ensures var r := PickUp(s, 1, 0, 0);
      r.Ok? && There(r.value, ShipmentStatus.ReadyForPickup, ItemStatus.OutForDelivery, ItemStatus.PickedUp)
  {
    hide Rolled, Roll, TrackItem;
    var r := PickUp(s, 1, 0, 0);
    ApartTurns(r.value.items, ItemStatus.OutForDelivery, ItemStatus.PickedUp);
  }

  lemma FirstDelivered(s: State)
    requires Wf(s)
    requires There(s, ShipmentStatus.ReadyForPickup, ItemStatus.OutForDelivery, ItemStatus.ReceivedDestinationWarehouse)
    ensures var r := Deliver(s, 0, 0, Named, 0);
      && r.Ok?
      && There(r.value, ShipmentStatus.ReadyForPickup, ItemStatus.Delivered, ItemStatus.ReceivedDestinationWarehouse)
      && HasDelivery(r.value.handoffs, 0)
  {
    hide Rolled, Roll, TrackItem;
    var r := Deliver(s, 0, 0, Named, 0);
    DeliverEffect(s, r.value, 0, 0, Named, 0);
    ApartTurns(r.value.items, ItemStatus.Delivered, ItemStatus.ReceivedDestinationWarehouse);
    assert r.value.handoffs[|s.handoffs|] == Handoff(0, 0, Delivery);
  }

  lemma LastPickedUp(s: State)
    requires Wf(s) && HasDelivery(s.handoffs, 0)
    requires There(s, ShipmentStatus.ReadyForPickup, ItemStatus.Delivered, ItemStatus.ReceivedDestinationWarehouse)
    ensures var r := PickUp(s, 1, 0, 0);
      && r.Ok?
      && There(r.value, ShipmentStatus.Completed, ItemStatus.Delivered, ItemStatus.PickedUp)
      && HasDelivery(r.value.handoffs, 0)
  {
    hide Rolled, Roll, TrackItem;
    var r := PickUp(s, 1, 0, 0);
    ApartTurns(r.value.items, ItemStatus.Delivered, ItemStatus.PickedUp);
    var h :| h in s.handoffs && h.shipment == 0 && h.kind.Delivery?;
    assert h in r.value.handoffs;
  }

  // --- The runs -----------------------------------------------------------------------------

  lemma BothLoaded() returns (s: State)
    ensures Wf(s) && Reachable(s) && Flown(s, ShipmentStatus.Loaded, ItemStatus.Loaded, ItemStatus.Loaded, Finalized)
  {
    hide Receive, Process, CreateManifest, AssignItem, FinalizeManifest, Depart, CreateContainer, Load, Seal, CreateShipment;
    hide AddItem, ManualEvent, DestinationReceive, PickUp, SendOut, Deliver, Return, Unload, OpenContainer, CloseContainer;
    hide AssignContainer, UnassignContainer, UnassignItem, Arrive, Wf;
    hide Staged, Flown, Reachable;
    s := BothProcessed(true);
    FlightOpened(s); s := Taken(s, CreateManifestStep(0, Air, None, BY_AIR), CreateManifest(s, 0, Air, None, BY_AIR));
    FirstBoards(s); s := Taken(s, AssignItemStep(0, 0, false), AssignItem(s, 0, 0, false, 0));
    SecondBoards(s); s := Taken(s, AssignItemStep(0, 1, false), AssignItem(s, 0, 1, false, 0));
    BothFinalized(s); s := Taken(s, FinalizeStep(0), FinalizeManifest(s, 0, 0));
  }

  lemma OneSentOut() returns (s: State)
    ensures Wf(s) && Reachable(s)
    ensures There(s, ShipmentStatus.ReadyForPickup, ItemStatus.OutForDelivery, ItemStatus.ReceivedDestinationWarehouse)
  {
    hide Receive, Process, CreateManifest, AssignItem, FinalizeManifest, Depart, CreateContainer, Load, Seal, CreateShipment;
    hide AddItem, ManualEvent, DestinationReceive, PickUp, SendOut, Deliver, Return, Unload, OpenContainer, CloseContainer;
    hide AssignContainer, UnassignContainer, UnassignItem, Arrive, Wf;
    hide Flown, Reachable;
    s := BothLoaded();
    BothDeparted(s); s := Taken(s, DepartStep(0), Depart(s, 0, 0));
    BothArrived(s); s := Taken(s, ArriveStep(0), Arrive(s, 0, 0));
    FirstThere(s);
    s := Taken(s, DestinationReceiveStep(0, 0, false, false, false), DestinationReceive(s, 0, 0, false, false, false, 0));
    SecondThere(s);
    s := Taken(s, DestinationReceiveStep(1, 0, false, false, false), DestinationReceive(s, 1, 0, false, false, false, 0));
    FirstSentOut(s); s := Taken(s, SendOutStep(0, 0, Named), SendOut(s, 0, 0, Named, 0));
  }

  ghost predicate AllOutYetReady(s: State) {
    && 0 in s.shipments
    && HasItems(s.items, 0)
    && AllReached(s.items, 0, AtLeastOutForDelivery)
    && s.shipments[0].status == ShipmentStatus.ReadyForPickup
  }

  // One parcel on the road, the other picked up: the shipment still reads READY_FOR_PICKUP.
  lemma PickUpCanLeaveShipmentBehind()
    ensures exists s: State :: Reachable(s) && AllOutYetReady(s)
  {
    hide PickUp, Reachable, Wf, Staged;
    var s := OneSentOut();
    SecondPickedUp(s);
    s := PickedUpNext(s);
    AllAreOut(s);
  }

  lemma PickedUpNext(s: State) returns (t: State)
    requires Wf(s) && Reachable(s) && PickUp(s, 1, 0, 0).Ok?
    ensures Wf(t) && Reachable(t) && PickUp(s, 1, 0, 0) == Ok(t)
  {
    hide Receive, Process, CreateManifest, AssignItem, FinalizeManifest, Depart, CreateContainer, Load, Seal, CreateShipment;
    hide AddItem, ManualEvent, DestinationReceive, PickUp, SendOut, Deliver, Return, Unload, OpenContainer, CloseContainer;
    hide AssignContainer, UnassignContainer, UnassignItem, Arrive, Wf;
    hide Reachable;
    t := Taken(s, PickUpStep(1, 0), PickUp(s, 1, 0, 0));
  }

  lemma AllAreOut(s: State)
    requires There(s, ShipmentStatus.ReadyForPickup, ItemStatus.OutForDelivery, ItemStatus.PickedUp)
    ensures AllOutYetReady(s)
  {
    assert s.items[0].shipment == 0;
  }

  ghost predicate EndedSilently(s: State) {
    && 0 in s.shipments
    && s.shipments[0].status.Completed? && s.shipments[0].notifyByEmail
    && Email(0, DeliveredEmail) !in s.emails && Email(0, PickedUpEmail) !in s.emails
  }

  // One parcel delivered, the last one picked up: completed, email wanted, and none says so.
  lemma MixedShipmentCanEndSilently()
    ensures exists s: State :: Reachable(s) && EndedSilently(s)
  {
    hide PickUp, Deliver, Reachable, Wf, Staged, HasDelivery;
    var s := OneSentOut();
    FirstDelivered(s);
    s := DeliveredNext(s);
    LastPickedUp(s);
    var t := PickedUpNext(s);
    SilentEnd(s, t);
  }

  lemma DeliveredNext(s: State) returns (t: State)
    requires Wf(s) && Reachable(s) && Deliver(s, 0, 0, Named, 0).Ok?
    ensures Wf(t) && Reachable(t) && Deliver(s, 0, 0, Named, 0) == Ok(t)
  {
    hide Receive, Process, CreateManifest, AssignItem, FinalizeManifest, Depart, CreateContainer, Load, Seal, CreateShipment;
    hide AddItem, ManualEvent, DestinationReceive, PickUp, SendOut, Deliver, Return, Unload, OpenContainer, CloseContainer;
    hide AssignContainer, UnassignContainer, UnassignItem, Arrive, Wf;
    hide Reachable;
    t := Taken(s, DeliverStep(0, 0, Named), Deliver(s, 0, 0, Named, 0));
  }

  lemma ReachedStatesGoOn(s: State)
    requires Reachable(s)
    ensures Chronicled(s) && Lawful(s.events)
  {
    hide Chronicled, Lawful, Run;
    var calls :| NoManualEvents(calls) && Run({0}, calls) == s;
    RunsGoOn({0}, calls);
  }

  lemma SilentEnd(s: State, t: State)
    requires Wf(s) && Reachable(s) && PickUp(s, 1, 0, 0) == Ok(t) && HasDelivery(t.handoffs, 0)
    requires There(s, ShipmentStatus.ReadyForPickup, ItemStatus.Delivered, ItemStatus.ReceivedDestinationWarehouse)
    requires There(t, ShipmentStatus.Completed, ItemStatus.Delivered, ItemStatus.PickedUp)
    ensures EndedSilently(t)
  {
    hide PickUp, HasDelivery, Chronicled, Lawful, Reachable;
    ReachedStatesGoOn(s);
    PickUpCloses(s, t, 1, 0, 0);
  }

  ghost predicate LaggingBehind(s: State) {
    && Wf(s) && 2 in s.items
    && StatusOf(s, 2) == ShipmentStatus.Loaded
    && !Earns(s.items[2].status, StatusOf(s, 2))
  }

  // An item may be added to a shipment that is LOADED, and then that status is not earned.
  lemma AddedItemCanLag()
    ensures exists s: State :: Reachable(s) && LaggingBehind(s)
  {
    var s := BothLoaded();
    var t := AddedNext(s);
  }

  lemma AddedNext(s: State) returns (t: State)
    requires Wf(s) && Reachable(s) && Flown(s, ShipmentStatus.Loaded, ItemStatus.Loaded, ItemStatus.Loaded, Finalized)
    ensures Reachable(t) && LaggingBehind(t)
  {
    hide Receive, Process, CreateManifest, AssignItem, FinalizeManifest, Depart, CreateContainer, Load, Seal, CreateShipment;
    hide ManualEvent, DestinationReceive, PickUp, SendOut, Deliver, Return, Unload, OpenContainer, CloseContainer;
    hide AssignContainer, UnassignContainer, UnassignItem, Arrive;
    hide Reachable;
    t := Taken(s, AddItemStep(0, 2), AddItem(s, 0, 2, 0));
    assert t.items[2] == Item(0, |ItemsOf(s.items, 0)| + 1, Registered, None, None);
  }
}
