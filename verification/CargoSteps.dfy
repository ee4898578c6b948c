/**
 What each service operation does to the cargo tables: its checks, in the order the
 service makes them, and the state it leaves. A rejected operation writes nothing.
 */
module CargoSteps {
  import opened Basics
  import opened Statuses
  import opened CargoState

  // --- ShipmentsService ---------------------------------------------------------------

  function CreateItem(s: State, sh: ShipmentId, i: ItemId, sequence: nat, now: Time): (r: State)
    requires sh in s.shipments
    ensures r == s.(items := r.items, events := r.events)
    ensures r.items == s.items[i := Item(sh, sequence, Registered, None, None)]
  {
    s.(items := s.items[i := Item(sh, sequence, Registered, None, None)],
    events := s.events + [Event(sh, Some(i), ItemRegistered, None, None, now)])
  }

  function CreateItems(s: State, sh: ShipmentId, ids: seq<ItemId>, now: Time): (r: State)
    requires sh in s.shipments
    ensures r == s.(items := r.items, events := r.events)
  {
    if ids == [] then s
    else
      var n := |ids| - 1;
      CreateItem(CreateItems(s, sh, ids[..n], now), sh, ids[n], n + 1, now)
  }

  // Ids are drawn by the database; a clash is refused like any unique-key violation.
  predicate FreshItems(s: State, ids: seq<ItemId>) {
    && (forall k :: 0 <= k < |ids| ==> ids[k] !in s.items)
    && (forall j, k :: 0 <= j < k < |ids| ==> ids[j] != ids[k])
  }

  lemma {:induction false} CreatedItems(s: State, sh: ShipmentId, ids: seq<ItemId>, now: Time)
    requires sh in s.shipments && FreshItems(s, ids)
    ensures var r := CreateItems(s, sh, ids, now);
      && r.items.Keys == s.items.Keys + (set i | i in ids)
      && (forall i :: i in s.items ==> r.items[i] == s.items[i])
      && (forall k :: 0 <= k < |ids| ==> r.items[ids[k]] == Item(sh, k + 1, Registered, None, None))
  {
    if ids != [] {
      var n := |ids| - 1;
      CreatedItems(s, sh, ids[..n], now);
      assert ids == ids[..n] + [ids[n]];
      var before := CreateItems(s, sh, ids[..n], now);
      forall k | 0 <= k < n
        ensures CreateItems(s, sh, ids, now).items[ids[k]] == Item(sh, k + 1, Registered, None, None)
      {
        assert ids[..n][k] == ids[k];
      }
    }
  }

  function OpenShipment(s: State, sh: ShipmentId, notifyByEmail: bool, now: Time): (r: State)
    ensures r == s.(shipments := s.shipments[sh := Shipment(ShipmentStatus.Draft, notifyByEmail)], events := r.events)
  {
    s.(shipments := s.shipments[sh := Shipment(ShipmentStatus.Draft, notifyByEmail)],
    events := s.events + [Event(sh, None, ShipmentCreated, Some(ShipmentStatus.Draft), None, now)])
  }

  function CreateShipment(s: State, sh: ShipmentId, notifyByEmail: bool, ids: seq<ItemId>, now: Time): (r: Result<State>)
    requires Wf(s)
    ensures r.Ok? ==> Wf(r.value)
  {
    if sh in s.shipments || !FreshItems(s, ids) then Err(Conflict)
    else
      CreatedItems(OpenShipment(s, sh, notifyByEmail, now), sh, ids, now);
      Ok(CreateItems(OpenShipment(s, sh, notifyByEmail, now), sh, ids, now))
  }

  function ItemsOf(items: map<ItemId, Item>, sh: ShipmentId): set<ItemId> {
    set i | i in items && items[i].shipment == sh
  }

  // addItem checks nothing but that the shipment exists.
  function AddItem(s: State, sh: ShipmentId, i: ItemId, now: Time): (r: Result<State>)
    requires Wf(s)
    ensures r.Ok? ==> Wf(r.value)
  {
    if sh !in s.shipments then Err(NotFound)
    else if i in s.items then Err(Conflict)
    else Ok(CreateItem(s, sh, i, |ItemsOf(s.items, sh)| + 1, now))
  }

  // The public tracking-event endpoint: any status and any item status.
  function ManualEvent(s: State, e: Event, itemStatus: Option<ItemStatus>): (r: Result<State>)
    requires Wf(s)
    ensures r.Ok? ==> Wf(r.value)
  {
    if e.kind.ShipmentCreated? || e.kind.ItemRegistered? then Err(BadRequest)
    else if itemStatus.Some? && e.item.None? then Err(BadRequest)
    else if e.shipment !in s.shipments then Err(NotFound)
    else if e.item.Some? && (e.item.value !in s.items || s.items[e.item.value].shipment != e.shipment) then Err(NotFound)
    else if e.warehouse.Some? && e.warehouse.value !in s.warehouses then Err(NotFound)
    else Ok(Track(s, e, itemStatus))
  }

  // --- WarehouseService ---------------------------------------------------------------

  function StatusOf(s: State, i: ItemId): ShipmentStatus
    requires i in s.items && s.items[i].shipment in s.shipments
  {
    s.shipments[s.items[i].shipment].status
  }

  function Receive(s: State, i: ItemId, wh: WarehouseId, now: Time): (r: Result<State>)
    requires Wf(s)
    ensures r.Ok? ==> Wf(r.value)
  {
    if i !in s.items then Err(NotFound)
    else if StatusOf(s, i).Cancelled? then Err(Conflict)
    else if !s.items[i].status.Registered? then Err(Conflict)
    else if wh !in s.warehouses then Err(NotFound)
    else
      var s1 := TrackItem(s, i, EventType.ReceivedAtWarehouse, Some(ReceivedOriginWarehouse), Some(wh), now);
      Ok(Roll(s1, ReceivingRollup, s.items[i].shipment, now))
  }

  // One inspection request: the verdict and what was observed.
  datatype Finding = Finding(ready: bool, damaged: bool, hasException: bool, described: bool)

  function Process(s: State, i: ItemId, wh: WarehouseId, reinspection: bool, f: Finding, now: Time): (r: Result<State>)
    requires Wf(s)
    ensures r.Ok? ==> Wf(r.value)
  {
    if i !in s.items then Err(NotFound)
    else if StatusOf(s, i).Cancelled? then Err(Conflict)
    else if (s.items[i].status.Processed? || s.items[i].status.Exception?) && !reinspection then Err(Conflict)
    else if !(s.items[i].status.ReceivedOriginWarehouse? || s.items[i].status.Processed? || s.items[i].status.Exception?)
    then Err(Conflict)
    else if wh !in s.warehouses then Err(NotFound)
    else if s.items[i].warehouse != Some(wh) then Err(Conflict)
    else if f.hasException && !f.described then Err(BadRequest)
    else if f.ready && (f.hasException || f.damaged) then Err(BadRequest)
    else
      var kind := if f.ready then EventType.Processed else EventType.Exception;
      var st := if f.ready then ItemStatus.Processed else ItemStatus.Exception;
      var s1 := TrackItem(s, i, kind, Some(st), Some(wh), now);
      var s2 := s1.(inspections := s1.inspections + [Inspection(i, f.ready, f.damaged, f.hasException)]);
      Ok(Roll(s2, ProcessingRollup, s.items[i].shipment, now))
  }

  // A destination finding carries no verdict of its own: good means undamaged and unflagged.
  function DestinationReceive(s: State, i: ItemId, wh: WarehouseId, damaged: bool, hasException: bool,
                              described: bool, now: Time): (r: Result<State>)
    requires Wf(s)
    ensures r.Ok? ==> Wf(r.value)
  {
    if i !in s.items then Err(NotFound)
    else if StatusOf(s, i).Cancelled? then Err(Conflict)
    else if !s.items[i].status.ArrivedDestination? then Err(Conflict)
    else if wh !in s.warehouses then Err(NotFound)
    else if hasException && !described then Err(BadRequest)
    else
      var good := !hasException && !damaged;
      var kind := if good then EventType.ReceivedDestinationWarehouse else EventType.Exception;
      var st := if good then ItemStatus.ReceivedDestinationWarehouse else ItemStatus.Exception;
      var s1 := TrackItem(s, i, kind, Some(st), Some(wh), now);
      var s2 := s1.(inspections := s1.inspections + [Inspection(i, good, damaged, hasException)]);
      Ok(Roll(s2, ReadyForPickupRollup, s.items[i].shipment, now))
  }

  function HandOver(s: State, i: ItemId, kind: HandoffType): State
    requires i in s.items
  {
    s.(handoffs := s.handoffs + [Handoff(s.items[i].shipment, i, kind)])
  }

  function PickUp(s: State, i: ItemId, wh: WarehouseId, now: Time): (r: Result<State>)
    requires Wf(s)
    ensures r.Ok? ==> Wf(r.value)
  {
    if i !in s.items then Err(NotFound)
    else if StatusOf(s, i).Cancelled? then Err(Conflict)
    else if !s.items[i].status.ReceivedDestinationWarehouse? then Err(Conflict)
    else if wh !in s.warehouses then Err(NotFound)
    else if s.items[i].warehouse != Some(wh) then Err(Conflict)
    else
      var s1 := TrackItem(s, i, EventType.PickedUp, Some(ItemStatus.PickedUp), Some(wh), now);
      var s2 := HandOver(SetWarehouse(s1, i, None), i, Pickup);
      Ok(Roll(s2, CompletionRollup, s.items[i].shipment, now))
  }

  // Who takes the parcel: nobody named, an unknown driver id, or someone acceptable.
  datatype Carrier = Nobody | UnknownDriver | Named

  function SendOut(s: State, i: ItemId, wh: WarehouseId, carrier: Carrier, now: Time): (r: Result<State>)
    requires Wf(s)
    ensures r.Ok? ==> Wf(r.value)
  {
    if carrier.Nobody? then Err(BadRequest)
    else if i !in s.items then Err(NotFound)
    else if StatusOf(s, i).Cancelled? then Err(Conflict)
    else if !s.items[i].status.ReceivedDestinationWarehouse? then Err(Conflict)
    else if wh !in s.warehouses then Err(NotFound)
    else if s.items[i].warehouse != Some(wh) then Err(Conflict)
    else if carrier.UnknownDriver? then Err(NotFound)
    else
      var s1 := TrackItem(s, i, EventType.OutForDelivery, Some(ItemStatus.OutForDelivery), Some(wh), now);
      var s2 := HandOver(SetWarehouse(s1, i, None), i, Dispatch);
      Ok(Roll(s2, OutForDeliveryRollup, s.items[i].shipment, now))
  }

  function Deliver(s: State, i: ItemId, wh: WarehouseId, carrier: Carrier, now: Time): (r: Result<State>)
    requires Wf(s)
    ensures r.Ok? ==> Wf(r.value)
  {
    if i !in s.items then Err(NotFound)
    else if StatusOf(s, i).Cancelled? then Err(Conflict)
    else if !s.items[i].status.OutForDelivery? then Err(Conflict)
    else if wh !in s.warehouses then Err(NotFound)
    else if carrier.UnknownDriver? then Err(NotFound)
    else
      var sh := s.items[i].shipment;
      var s1 := TrackItem(s, i, EventType.Delivered, Some(ItemStatus.Delivered), Some(wh), now);
      var s2 := HandOver(s1, i, Delivery);
      Ok(Roll(Roll(s2, DeliveredRollup, sh, now), CompletionRollup, sh, now))
  }

  // A failed delivery attempt. No rollup is called.
  function Return(s: State, i: ItemId, wh: WarehouseId, hasException: bool, now: Time): (r: Result<State>)
    requires Wf(s)
    ensures r.Ok? ==> Wf(r.value)
  {
    if i !in s.items then Err(NotFound)
    else if StatusOf(s, i).Cancelled? then Err(Conflict)
    else if !s.items[i].status.OutForDelivery? then Err(Conflict)
    else if wh !in s.warehouses then Err(NotFound)
    else
      var kind := if hasException then EventType.Exception else ReturnedToWarehouse;
      var st := if hasException then ItemStatus.Exception else ItemStatus.ReceivedDestinationWarehouse;
      Ok(SetWarehouse(TrackItem(s, i, kind, Some(st), Some(wh), now), i, Some(wh)))
  }

  // --- ContainersService --------------------------------------------------------------

  function CreateContainer(s: State, c: ContainerId, wh: Option<WarehouseId>): (r: Result<State>)
    requires Wf(s)
    ensures r.Ok? ==> Wf(r.value)
  {
    if wh.Some? && wh.value !in s.warehouses then Err(NotFound)
    else if c in s.containers then Err(Conflict)
    else Ok(s.(containers := s.containers[c := Container(ContainerStatus.Booked, wh, None)]))
  }

  function SetContainerStatus(s: State, c: ContainerId, st: ContainerStatus): (r: State)
    requires c in s.containers
    ensures Wf(s) ==> Wf(r)
  {
    s.(containers := s.containers[c := s.containers[c].(status := st)])
  }

  predicate Accepting(st: ContainerStatus) {
    st.Booked? || st.Loading?
  }

  function Load(s: State, c: ContainerId, i: ItemId, now: Time): (r: Result<State>)
    requires Wf(s)
    ensures r.Ok? ==> Wf(r.value)
  {
    if c !in s.containers then Err(NotFound)
    else if !Accepting(s.containers[c].status) then Err(Conflict)
    else if s.containers[c].warehouse.None? then Err(Conflict)
    else if i !in s.items then Err(NotFound)
    else if StatusOf(s, i).Cancelled? then Err(Conflict)
    else if !s.items[i].status.Processed? then Err(Conflict)
    else if s.items[i].warehouse != s.containers[c].warehouse then Err(Conflict)
    else
      var sh := s.items[i].shipment;
      var s1 := TrackItem(s, i, EventType.AssignedToContainer, Some(ItemStatus.AssignedToContainer),
                          s.containers[c].warehouse, now);
      var s2 := s1.(links := s1.links + [Link(InContainer(c), sh, i, true)]);
      var s3 := if s.containers[c].status.Booked? then SetContainerStatus(s2, c, ContainerStatus.Loading) else s2;
      Ok(Roll(s3, ContainerRollup, sh, now))
  }

  predicate ActiveOn(links: seq<Link>, k: int, u: Unit, i: ItemId) {
    0 <= k < |links| && links[k].active && links[k].unit == u && links[k].item == i
  }

  // The first active row of the item on the unit, or the number of rows when there is none.
  function FindRow(links: seq<Link>, u: Unit, i: ItemId): (k: nat)
    ensures k <= |links|
    ensures k < |links| ==> ActiveOn(links, k, u, i)
    ensures forall j :: 0 <= j < k ==> !ActiveOn(links, j, u, i)
  {
    if links == [] then 0
    else
      var n := |links| - 1;
      var k := FindRow(links[..n], u, i);
      assert forall j :: 0 <= j < n ==> ActiveOn(links, j, u, i) == ActiveOn(links[..n], j, u, i);
      if k < n then k else if ActiveOn(links, n, u, i) then n else |links|
  }

  function Retire(links: seq<Link>, k: nat): seq<Link>
    requires k < |links|
  {
    links[k := links[k].(active := false)]
  }

  function Unload(s: State, c: ContainerId, i: ItemId, now: Time): (r: Result<State>)
    requires Wf(s)
    ensures r.Ok? ==> Wf(r.value)
  {
    if c !in s.containers then Err(NotFound)
    else if !Accepting(s.containers[c].status) then Err(Conflict)
    else
      var k := FindRow(s.links, InContainer(c), i);
      if k == |s.links| then Err(NotFound)
      else
        var s1 := s.(links := Retire(s.links, k));
        var s2 := TrackItem(s1, i, EventType.RemovedFromContainer, Some(ItemStatus.Processed), None, now);
        var s3 :=
          if NobodyAboard(s2.links, {InContainer(c)}) && s.containers[c].status.Loading?
          then SetContainerStatus(s2, c, ContainerStatus.Booked) else s2;
        Ok(Roll(s3, ContainerRollup, s.links[k].shipment, now))
  }

  function Seal(s: State, c: ContainerId, now: Time): (r: Result<State>)
    requires Wf(s)
    ensures r.Ok? ==> Wf(r.value)
  {
    if c !in s.containers then Err(NotFound)
    else if !s.containers[c].status.Loading? then Err(Conflict)
    else if NobodyAboard(s.links, {InContainer(c)}) then Err(BadRequest)
    else
      var units := {InContainer(c)};
      var s1 := SetContainerStatus(s, c, ContainerStatus.Loaded);
      var s2 := TrackCargo(s1, units, |s.links|, EventType.Loaded, Some(ItemStatus.Loaded), s.containers[c].warehouse, now);
      Ok(RollAffected(s2, ContainerRollup, units, now))
  }

  function OpenContainer(s: State, c: ContainerId): (r: Result<State>)
    requires Wf(s)
    ensures r.Ok? ==> Wf(r.value)
  {
    if c !in s.containers then Err(NotFound)
    else if !s.containers[c].status.Arrived? then Err(Conflict)
    else Ok(SetContainerStatus(s, c, Unloading))
  }

  function CloseContainer(s: State, c: ContainerId): (r: Result<State>)
    requires Wf(s)
    ensures r.Ok? ==> Wf(r.value)
  {
    if c !in s.containers then Err(NotFound)
    else if !s.containers[c].status.Unloading? then Err(Conflict)
    else Ok(SetContainerStatus(s, c, Closed))
  }

  // --- ManifestsService ---------------------------------------------------------------

  function CreateManifest(s: State, m: ManifestId, mode: ShipmentMode, wh: Option<WarehouseId>,
                          transport: Transport): (r: Result<State>)
    requires Wf(s)
    ensures r.Ok? ==> Wf(r.value)
  {
    if wh.Some? && wh.value !in s.warehouses then Err(NotFound)
    else if m in s.manifests then Err(Conflict)
    else Ok(s.(manifests := s.manifests[m := Manifest(ManifestStatus.Draft, mode, wh, transport, None)]))
  }

  function SetContainerManifest(s: State, c: ContainerId, m: Option<ManifestId>): State
    requires c in s.containers
  {
    s.(containers := s.containers[c := s.containers[c].(manifest := m)])
  }

  // `routeConflict`: a route is set and no item of the container goes to its destination.
  function AssignContainer(s: State, m: ManifestId, c: ContainerId, routeConflict: bool, now: Time): (r: Result<State>)
    requires Wf(s)
    ensures r.Ok? ==> Wf(r.value)
  {
    if m !in s.manifests then Err(NotFound)
    else if !s.manifests[m].status.Draft? then Err(Conflict)
    else if s.manifests[m].mode.Air? then Err(Conflict)
    else if c !in s.containers then Err(NotFound)
    else if !s.containers[c].status.Loaded? then Err(Conflict)
    else if s.containers[c].manifest.Some? then Err(Conflict)
    else if s.manifests[m].originWarehouse.Some? && s.containers[c].warehouse != s.manifests[m].originWarehouse
    then Err(Conflict)
    else if routeConflict then Err(Conflict)
    else
      Ok(TrackCargo(SetContainerManifest(s, c, Some(m)), {InContainer(c)}, |s.links|,
                    EventType.AssignedToManifest, None, None, now))
  }

  function UnassignContainer(s: State, m: ManifestId, c: ContainerId, now: Time): (r: Result<State>)
    requires Wf(s)
    ensures r.Ok? ==> Wf(r.value)
  {
    if m !in s.manifests then Err(NotFound)
    else if !s.manifests[m].status.Draft? then Err(Conflict)
    else if c !in s.containers || s.containers[c].manifest != Some(m) then Err(NotFound)
    else
      Ok(TrackCargo(SetContainerManifest(s, c, None), {InContainer(c)}, |s.links|,
                    EventType.RemovedFromManifest, None, None, now))
  }

  function AssignItem(s: State, m: ManifestId, i: ItemId, routeConflict: bool, now: Time): (r: Result<State>)
    requires Wf(s)
    ensures r.Ok? ==> Wf(r.value)
  {
    if m !in s.manifests then Err(NotFound)
    else if !s.manifests[m].status.Draft? then Err(Conflict)
    else if !s.manifests[m].mode.Air? then Err(Conflict)
    else if i !in s.items then Err(NotFound)
    else if StatusOf(s, i).Cancelled? then Err(Conflict)
    else if !s.items[i].status.Processed? then Err(Conflict)
    else if s.manifests[m].originWarehouse.Some? && s.items[i].warehouse != s.manifests[m].originWarehouse
    then Err(Conflict)
    else if routeConflict then Err(Conflict)
    else
      var sh := s.items[i].shipment;
      var s1 := TrackItem(s, i, EventType.AssignedToManifest, Some(ItemStatus.AssignedToManifest), None, now);
      var s2 := s1.(links := s1.links + [Link(OnManifest(m), sh, i, true)]);
      Ok(Roll(s2, ManifestRollup, sh, now))
  }

  function UnassignItem(s: State, m: ManifestId, i: ItemId, now: Time): (r: Result<State>)
    requires Wf(s)
    ensures r.Ok? ==> Wf(r.value)
  {
    if m !in s.manifests then Err(NotFound)
    else if !s.manifests[m].status.Draft? then Err(Conflict)
    else
      var k := FindRow(s.links, OnManifest(m), i);
      if k == |s.links| then Err(NotFound)
      else
        var s1 := s.(links := Retire(s.links, k));
        var s2 := TrackItem(s1, i, EventType.RemovedFromManifest, Some(ItemStatus.Processed), None, now);
        Ok(Roll(s2, ManifestRollup, s.links[k].shipment, now))
  }

  predicate TransportComplete(m: Manifest) {
    && m.transport.carrier
    && (if m.mode.Air? then m.transport.flight else m.transport.vessel && m.transport.voyage)
    && (m.transport.originLocation || m.originWarehouse.Some?)
    && m.transport.destinationLocation
  }

  // An air manifest carries rows of its own, any other one carries containers.
  predicate EmptyManifest(containers: map<ContainerId, Container>, links: seq<Link>, m: ManifestId, row: Manifest) {
    if row.mode.Air? then NobodyAboard(links, {OnManifest(m)})
    else forall c :: c in containers ==> containers[c].manifest != Some(m)
  }

  predicate ContainersAre(s: State, m: ManifestId, st: ContainerStatus) {
    forall c :: c in s.containers && s.containers[c].manifest == Some(m) ==> s.containers[c].status == st
  }

  // The cargo list that finalize freezes.
  function ApprovedCargo(links: seq<Link>, n: nat, units: set<Unit>): (r: Approval)
    requires n <= |links|
  {
    if n == 0 then []
    else
      var before := ApprovedCargo(links, n - 1, units);
      var l := links[n - 1];
      if Carries(l, units) then before + [(l.unit, l.item)] else before
  }

  function SetManifest(s: State, m: ManifestId, row: Manifest): (r: State)
    requires m in s.manifests && row.mode == s.manifests[m].mode
    ensures Wf(s) ==> Wf(r)
  {
    s.(manifests := s.manifests[m := row])
  }

  function FinalizeManifest(s: State, m: ManifestId, now: Time): (r: Result<State>)
    requires Wf(s)
    ensures r.Ok? ==> Wf(r.value)
  {
    if m !in s.manifests then Err(NotFound)
    else if !s.manifests[m].status.Draft? then Err(Conflict)
    else if !TransportComplete(s.manifests[m]) then Err(BadRequest)
    else if EmptyManifest(s.containers, s.links, m, s.manifests[m]) then Err(BadRequest)
    else
      var air := s.manifests[m].mode.Air?;
      var units := UnitsOf(s, m);
      var wanted := if air then ItemStatus.AssignedToManifest else ItemStatus.Loaded;
      if !air && !ContainersAre(s, m, ContainerStatus.Loaded) then Err(Conflict)
      else if !CargoIs(s, units, wanted) then Err(Conflict)
      else
        var frozen := ApprovedCargo(s.links, |s.links|, units);
        var s1 := SetManifest(s, m, s.manifests[m].(status := Finalized, snapshot := Some(frozen)));
        if air then
          var s2 := TrackCargo(s1, units, |s.links|, EventType.Loaded, Some(ItemStatus.Loaded), None, now);
          Ok(RollAffected(s2, ManifestRollup, units, now))
        else Ok(TrackCargo(s1, units, |s.links|, NoteAdded, None, None, now))
  }

  // Every container of the manifest takes the status.
  function MoveContainers(s: State, m: ManifestId, st: ContainerStatus): (r: State)
    ensures r == s.(containers := r.containers)
    ensures Wf(s) ==> Wf(r)
  {
    s.(containers := map c | c in s.containers ::
        if s.containers[c].manifest == Some(m) then s.containers[c].(status := st) else s.containers[c])
  }

  function Depart(s: State, m: ManifestId, now: Time): (r: Result<State>)
    requires Wf(s)
    ensures r.Ok? ==> Wf(r.value)
  {
    if m !in s.manifests then Err(NotFound)
    else if !s.manifests[m].status.Finalized? then Err(Conflict)
    else if EmptyManifest(s.containers, s.links, m, s.manifests[m]) then Err(Conflict)
    else
      var air := s.manifests[m].mode.Air?;
      var units := UnitsOf(s, m);
      if !air && !ContainersAre(s, m, ContainerStatus.Loaded) then Err(Conflict)
      else if !CargoIs(s, units, ItemStatus.Loaded) then Err(Conflict)
      else
        var s1 := TrackCargo(s, units, |s.links|, EventType.DepartedOrigin, Some(ItemStatus.DepartedOrigin), None, now);
        var s2 := if air then s1 else MoveContainers(s1, m, ContainerStatus.Departed);
        var s3 := SetManifest(s2, m, s.manifests[m].(status := ManifestStatus.Departed));
        Ok(RollAffected(s3, DepartureRollup, units, now))
  }

  // The air branch re-checks its items; the ocean branch re-checks its containers only.
  function Arrive(s: State, m: ManifestId, now: Time): (r: Result<State>)
    requires Wf(s)
    ensures r.Ok? ==> Wf(r.value)
  {
    if m !in s.manifests then Err(NotFound)
    else if !s.manifests[m].status.Departed? then Err(Conflict)
    else if EmptyManifest(s.containers, s.links, m, s.manifests[m]) then Err(Conflict)
    else
      var air := s.manifests[m].mode.Air?;
      var units := UnitsOf(s, m);
      if air && !CargoIs(s, units, ItemStatus.DepartedOrigin) then Err(Conflict)
      else if !air && !ContainersAre(s, m, ContainerStatus.Departed) then Err(Conflict)
      else
        var s1 := TrackCargo(s, units, |s.links|, EventType.ArrivedDestination, Some(ItemStatus.ArrivedDestination), None, now);
        var s2 := if air then s1 else MoveContainers(s1, m, ContainerStatus.Arrived);
        var s3 := SetManifest(s2, m, s.manifests[m].(status := ManifestStatus.Arrived));
        Ok(RollAffected(s3, ArrivalRollup, units, now))
  }
}
