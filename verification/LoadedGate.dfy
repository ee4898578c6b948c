/**
 Two stages are missing from the chain, because two rollups ask for less than the rest.
 Sealing a container counts exactly LOADED items, and a pickup never asks whether the
 shipment is out for delivery. Here is exactly when each of them still keeps the promise.
 */
module LoadedGate {
  import opened Basics
  import opened Statuses
  import opened CargoState
  import opened CargoSteps
  import opened CargoRuns
  import opened CargoEffects
  import opened Lockstep
  import opened Stranding
  import opened StrandingSteps
  import opened Earning

  ghost predicate AtLeast(s: State, sh: ShipmentId, st: ShipmentStatus)
    requires sh in s.shipments
  {
    Rank(s.shipments[sh].status) >= Rank(st)
  }

  // The cargo of a sealed shipment was committed, so its shipment is ready for the gate if all of it was.
  lemma SealedShipment(s: State, t: State, c: ContainerId, sh: ShipmentId, now: Time)
    requires Wf(s) && LinksAgree(s) && Chained(s) && Seal(s, c, now) == Ok(t)
    requires sh in s.shipments && Touched(s.links, {InContainer(c)}, sh)
    ensures sh in t.shipments
    ensures CargoIs(s, {InContainer(c)}, ItemStatus.AssignedToContainer)
    ensures CargoTook(s, t, {InContainer(c)}, ItemStatus.Loaded)
    ensures t.shipments[sh].status == Rolled(ContainerRollup, t.items, sh, s.shipments[sh].status)
  {
    hide Chained, Seal, Rolled, LinksAgree, CargoIs;
    SealEffect(s, t, c, now);
    SealedCargo(s, c);
  }

  // What the container rollup makes of a shipment all of whose items are loaded or further.
  lemma ContainerGate(items: map<ItemId, Item>, sh: ShipmentId, st: ShipmentStatus)
    requires AnyInContainer(items, sh) && RegularStatus(st) && Rank(st) >= Rank(ShipmentStatus.Consolidated)
    ensures Rank(Rolled(ContainerRollup, items, sh, st)) >= Rank(ShipmentStatus.Loaded) <==>
      Rank(st) >= Rank(ShipmentStatus.Loaded) || AllExactlyLoaded(items, sh)
  {
    var i :| i in items && items[i].shipment == sh && (items[i].status.AssignedToContainer? || items[i].status.Loaded?);
    assert HasItems(items, sh);
  }

  // After sealing, a shipment whose items are all loaded or further is itself at least LOADED if and
  // only if it already was, or none of its items had left on an earlier transport.
  lemma SealLoadsUnlessSomeLeft(s: State, t: State, c: ContainerId, sh: ShipmentId, now: Time)
    requires Wf(s) && Orderly(s) && Seal(s, c, now) == Ok(t)
    requires sh in s.shipments && Touched(s.links, {InContainer(c)}, sh) && AllReached(t.items, sh, AtLeastLoaded)
    ensures sh in t.shipments
    ensures AtLeast(t, sh, ShipmentStatus.Loaded) <==>
      AtLeast(s, sh, ShipmentStatus.Loaded) || !AnyReached(s.items, sh, AtLeastDeparted)
  {
    hide Chained, Seal, Rolled, InLockstep;
    LockstepLinks(s);
    SealedShipment(s, t, c, sh, now);
    StatusIsRegular(s, sh);
    AllCommittedBefore(s, t, {InContainer(c)}, ItemStatus.AssignedToContainer, sh);
    CommittedOwes(s, sh);
    ContainerGate(t.items, sh, s.shipments[sh].status);
    NoneLeft(s, t, {InContainer(c)}, sh);
  }

  // The items ashore are as they were, so all were committed before.
  lemma AllCommittedBefore(s: State, t: State, units: set<Unit>, from: ItemStatus, sh: ShipmentId)
    requires Wf(s) && CargoTook(s, t, units, ItemStatus.Loaded) && CargoIs(s, units, from)
    requires from.AssignedToContainer? || from.AssignedToManifest?
    requires AllReached(t.items, sh, AtLeastLoaded) && Touched(s.links, units, sh)
    ensures AllReached(s.items, sh, AtLeastCommitted) && HasItems(s.items, sh)
    ensures exists i :: i in t.items && t.items[i].shipment == sh && t.items[i].status.Loaded?
  {
    var n :| 0 <= n < |s.links| && Carries(s.links[n], units) && s.links[n].shipment == sh;
    assert Aboard(s.links, |s.links|, units, s.links[n].item);
    assert t.items[s.links[n].item].shipment == sh;
    forall j | j in s.items && s.items[j].shipment == sh
      ensures Reached(AtLeastCommitted, s.items[j].status)
    {
      assert j in t.items && t.items[j].shipment == sh;
      if Aboard(s.links, |s.links|, units, j) {
        var k :| 0 <= k < |s.links| && Carries(s.links[k], units) && s.links[k].item == j;
        assert s.items[s.links[k].item].status == from;
      }
    }
  }

  lemma CommittedOwes(s: State, sh: ShipmentId)
    requires Wf(s) && Chained(s) && sh in s.shipments
    requires HasItems(s.items, sh) && AllReached(s.items, sh, AtLeastCommitted)
    ensures AtLeast(s, sh, ShipmentStatus.Consolidated)
  {
    assert Settled(MarksOf(s.items, sh), s.shipments[sh].status);
  }

  // When all have at least loaded, "exactly loaded" means none has left.
  lemma NoneLeft(s: State, t: State, units: set<Unit>, sh: ShipmentId)
    requires Wf(s) && CargoTook(s, t, units, ItemStatus.Loaded) && CargoIs(s, units, ItemStatus.AssignedToContainer)
    requires Chained(s) && AllReached(t.items, sh, AtLeastLoaded)
    ensures AllExactlyLoaded(t.items, sh) <==> !AnyReached(s.items, sh, AtLeastDeparted)
  {
    hide Chained, AllReached;
    forall j | j in s.items && s.items[j].shipment == sh
      ensures j in t.items && t.items[j].shipment == sh
      ensures t.items[j].status.Loaded? <==> !Reached(AtLeastDeparted, s.items[j].status)
    {
      NotLeft(s, t, units, sh, j);
    }
  }

  lemma NotLeft(s: State, t: State, units: set<Unit>, sh: ShipmentId, j: ItemId)
    requires Wf(s) && CargoTook(s, t, units, ItemStatus.Loaded) && CargoIs(s, units, ItemStatus.AssignedToContainer)
    requires AllReached(t.items, sh, AtLeastLoaded) && j in s.items && s.items[j].shipment == sh
    ensures t.items[j].shipment == sh
    ensures t.items[j].status.Loaded? <==> !Reached(AtLeastDeparted, s.items[j].status)
  {
    assert j in t.items && t.items[j].shipment == sh;
    if Aboard(s.links, |s.links|, units, j) {
      var k :| 0 <= k < |s.links| && Carries(s.links[k], units) && s.links[k].item == j;
      assert s.items[s.links[k].item].status.AssignedToContainer?;
    }
  }

  // The flight's rollup asks for "at least loaded" and never misses.
  lemma FlightAlwaysLoads(s: State, t: State, m: ManifestId, sh: ShipmentId, now: Time)
    requires Wf(s) && Orderly(s) && FinalizeManifest(s, m, now) == Ok(t) && s.manifests[m].mode.Air?
    requires sh in s.shipments && Touched(s.links, UnitsOf(s, m), sh) && AllReached(t.items, sh, AtLeastLoaded)
    ensures sh in t.shipments && AtLeast(t, sh, ShipmentStatus.Loaded)
  {
    hide Chained, InLockstep, FinalizeManifest, CargoIs, Rolled;
    FinalizeEffect(s, t, m, now);
    StatusIsRegular(s, sh);
    AllCommittedBefore(s, t, UnitsOf(s, m), ItemStatus.AssignedToManifest, sh);
    CommittedOwes(s, sh);
    FlightGate(t.items, sh, s.shipments[sh].status);
  }

  lemma FlightGate(items: map<ItemId, Item>, sh: ShipmentId, st: ShipmentStatus)
    requires exists i :: i in items && items[i].shipment == sh && items[i].status.Loaded?
    requires AllReached(items, sh, AtLeastLoaded) && RegularStatus(st) && Rank(st) >= Rank(ShipmentStatus.Consolidated)
    ensures Rank(Rolled(ManifestRollup, items, sh, st)) >= Rank(ShipmentStatus.Loaded)
  {
    var i :| i in items && items[i].shipment == sh && items[i].status.Loaded?;
    assert Reached(AtLeastCommitted, items[i].status);
    assert HasItems(items, sh) && AnyReached(items, sh, AtLeastCommitted);
  }

  // After a pickup, a shipment whose items are all out for delivery or handed over is itself at
  // least OUT_FOR_DELIVERY if and only if it already was, or nothing is left out on the road.
  lemma PickUpSendsOutOnlyWhenDone(s: State, t: State, i: ItemId, wh: WarehouseId, now: Time)
    requires Wf(s) && Orderly(s) && PickUp(s, i, wh, now) == Ok(t)
    requires AllReached(t.items, s.items[i].shipment, AtLeastOutForDelivery)
    ensures s.items[i].shipment in t.shipments
    ensures var sh := s.items[i].shipment;
      AtLeast(t, sh, ShipmentStatus.OutForDelivery) <==>
        AtLeast(s, sh, ShipmentStatus.OutForDelivery)
        || !(exists j :: j in s.items && s.items[j].shipment == sh && s.items[j].status.OutForDelivery?)
  {
    hide Chained, InLockstep, PickUp, Rolled, AllReached, ApplicableReached;
    PickUpEffect(s, t, i, wh, now);
    var sh := s.items[i].shipment;
    StatusIsRegular(s, sh);
    AllArrivedBefore(s, t, i);
    ArrivedOwesRank(s, sh);
    HandedOffMeans(s, t, i);
    assert HasItems(t.items, sh) by { assert t.items[i].shipment == sh; }
    CompletionGate(t.items, sh, s.shipments[sh].status);
  }

  lemma CompletionGate(items: map<ItemId, Item>, sh: ShipmentId, st: ShipmentStatus)
    requires HasItems(items, sh) && RegularStatus(st) && Rank(st) >= Rank(ShipmentStatus.ArrivedDestination)
    ensures Rank(Rolled(CompletionRollup, items, sh, st)) >= Rank(ShipmentStatus.OutForDelivery) <==>
      Rank(st) >= Rank(ShipmentStatus.OutForDelivery) || ApplicableReached(items, sh, HandedOff)
  {
  }

  lemma AllArrivedBefore(s: State, t: State, i: ItemId)
    requires ItemChanged(s, t, i) && s.items[i].status.ReceivedDestinationWarehouse?
    requires AllReached(t.items, s.items[i].shipment, AtLeastOutForDelivery)
    ensures AllReached(s.items, s.items[i].shipment, AtLeastArrived) && HasItems(s.items, s.items[i].shipment)
  {
    forall j | j in s.items && s.items[j].shipment == s.items[i].shipment && j != i
      ensures Reached(AtLeastArrived, s.items[j].status)
    {
      assert t.items[j].shipment == s.items[i].shipment;
    }
  }

  lemma ArrivedOwesRank(s: State, sh: ShipmentId)
    requires Wf(s) && Chained(s) && sh in s.shipments
    requires HasItems(s.items, sh) && AllReached(s.items, sh, AtLeastArrived)
    ensures AtLeast(s, sh, ShipmentStatus.ArrivedDestination)
  {
    assert Settled(MarksOf(s.items, sh), s.shipments[sh].status);
  }

  lemma HandedOffMeans(s: State, t: State, i: ItemId)
    requires ItemChanged(s, t, i) && s.items[i].status.ReceivedDestinationWarehouse? && t.items[i].status.PickedUp?
    requires AllReached(t.items, s.items[i].shipment, AtLeastOutForDelivery)
    ensures ApplicableReached(t.items, s.items[i].shipment, HandedOff) <==>
      !(exists j :: j in s.items && s.items[j].shipment == s.items[i].shipment && s.items[j].status.OutForDelivery?)
  {
    var sh := s.items[i].shipment;
    assert t.items[i].shipment == sh && !t.items[i].status.Cancelled?;
    forall j | j in s.items && s.items[j].shipment == sh && j != i
      ensures t.items[j] == s.items[j] && Reached(AtLeastOutForDelivery, t.items[j].status)
    {
      assert t.items[j].shipment == sh;
    }
    if j :| j in s.items && s.items[j].shipment == sh && s.items[j].status.OutForDelivery? {
      assert t.items[j].shipment == sh && !Reached(HandedOff, t.items[j].status);
    }
  }
}
