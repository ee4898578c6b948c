/**
 The tables a printed manifest reads, beside the cargo tables: what customers, shipments, items
 and containers are called, the edits that change them, and the snapshot that finalize stores.
 */
module PrintDesk {
  import opened Basics
  import opened CargoState
  import opened CargoSteps
  import opened CargoRuns
  import opened CargoEffects
  import opened Numbering
  import opened PrintDocument

  datatype ItemText = ItemText(kind: string, description: Option<string>, quantity: nat, weight: Option<real>, weightUnit: string)
  datatype ShipmentText = ShipmentText(trackingNumber: string, country: string, location: Option<string>, customer: CustomerId)

  // Containers in the order of their table.
  datatype Box = Box(id: ContainerId, number: string, kind: string)

  datatype Office = Office(
    cargo: State,
    customers: map<CustomerId, string>,
    shipments: map<ShipmentId, ShipmentText>,
    items: map<ItemId, ItemText>,
    boxes: seq<Box>,
    snapshots: map<ManifestId, Snapshot>)

  // Every row has its texts.
  ghost predicate Synced(o: Office) {
    && Wf(o.cargo)
    && o.shipments.Keys == o.cargo.shipments.Keys
    && o.items.Keys == o.cargo.items.Keys
    && (forall sh :: sh in o.shipments ==> o.shipments[sh].customer in o.customers)
  }

  function Opening(warehouses: set<WarehouseId>): (o: Office) {
    Office(Empty(warehouses), map[], map[], map[], [], map[])
  }

  // --- What a manifest lists --------------------------------------------------------------

  datatype BoxList = BoxList(box: Box, items: seq<ItemId>)
  datatype Listing = Listing(boxes: seq<BoxList>, direct: seq<ItemId>)

  // The items on active rows of the unit, among the first n rows.
  function ItemsOn(s: State, n: nat, u: Unit): (r: seq<ItemId>)
    requires Wf(s) && n <= |s.links|
    ensures forall k :: 0 <= k < |r| ==> r[k] in s.items
  {
    if n == 0 then []
    else
      var before := ItemsOn(s, n - 1, u);
      if s.links[n - 1].active && s.links[n - 1].unit == u then before + [s.links[n - 1].item] else before
  }

  predicate BelongsTo(containers: map<ContainerId, Container>, c: ContainerId, m: ManifestId) {
    c in containers && containers[c].manifest == Some(m)
  }

  function BoxesOn(s: State, boxes: seq<Box>, m: ManifestId): (r: seq<BoxList>)
    requires Wf(s)
    ensures forall j, k :: 0 <= j < |r| && 0 <= k < |r[j].items| ==> r[j].items[k] in s.items
  {
    if boxes == [] then []
    else
      var n := |boxes| - 1;
      var before := BoxesOn(s, boxes[..n], m);
      if BelongsTo(s.containers, boxes[n].id, m)
      then before + [BoxList(boxes[n], ItemsOn(s, |s.links|, InContainer(boxes[n].id)))]
      else before
  }

  // A flight lists its own rows, any other manifest its containers.
  function ListingOf(s: State, boxes: seq<Box>, m: ManifestId): (r: Listing)
    requires Wf(s) && m in s.manifests
    ensures forall j, k :: 0 <= j < |r.boxes| && 0 <= k < |r.boxes[j].items| ==> r.boxes[j].items[k] in s.items
    ensures forall k :: 0 <= k < |r.direct| ==> r.direct[k] in s.items
  {
    if s.manifests[m].mode.Air? then Listing([], ItemsOn(s, |s.links|, OnManifest(m)))
    else Listing(BoxesOn(s, boxes, m), [])
  }

  // --- Joining the texts --------------------------------------------------------------------

  // An item row with its shipment and customer.
  function Joined(o: Office, i: ItemId): (r: CargoItem)
    requires Synced(o) && i in o.items
    ensures r.id == i && r.description == o.items[i].description && r.quantity == o.items[i].quantity
  {
    var row, sh := o.items[i], o.shipments[o.cargo.items[i].shipment];
    CargoItem(i, FormatItemCode(sh.trackingNumber, o.cargo.items[i].sequence), row.kind, row.description, row.quantity,
              row.weight, row.weightUnit, sh.trackingNumber, sh.country, sh.location, sh.customer, o.customers[sh.customer])
  }

  function AllJoined(o: Office, ids: seq<ItemId>): seq<CargoItem>
    requires Synced(o) && forall k :: 0 <= k < |ids| ==> ids[k] in o.items
  {
    seq(|ids|, k requires 0 <= k < |ids| => Joined(o, ids[k]))
  }

  function LiveBox(o: Office, entry: BoxList): LiveContainer
    requires Synced(o) && forall k :: 0 <= k < |entry.items| ==> entry.items[k] in o.items
  {
    LiveContainer(entry.box.id, entry.box.number, entry.box.kind, AllJoined(o, entry.items))
  }

  function LiveBoxes(o: Office, m: ManifestId): (r: seq<LiveContainer>)
    requires Synced(o) && m in o.cargo.manifests
  {
    var boxes := ListingOf(o.cargo, o.boxes, m).boxes;
    seq(|boxes|, k requires 0 <= k < |boxes| => LiveBox(o, boxes[k]))
  }

  function LiveItems(o: Office, m: ManifestId): (r: seq<CargoItem>)
    requires Synced(o) && m in o.cargo.manifests
  {
    AllJoined(o, ListingOf(o.cargo, o.boxes, m).direct)
  }

  function DetailsNow(o: Office): map<nat, Detail> {
    map i | i in o.items :: Detail(o.items[i].description, o.items[i].quantity)
  }

  // getPrintDocument: from the snapshot if there is one, else live.
  ghost function Printed(o: Office, m: ManifestId): Result<Document>
    requires Synced(o)
  {
    if m !in o.cargo.manifests then Err(NotFound)
    else if m in o.snapshots then Ok(FromSnapshot(o.snapshots[m], DetailsNow(o)))
    else Ok(LiveDocument(o.cargo.manifests[m].mode.Air?, LiveBoxes(o, m), LiveItems(o, m)))
  }

  // --- Operations ---------------------------------------------------------------------------

  // The fields an edit gives; the others stay.
  datatype Patch = Patch(
    kind: Option<string>, description: Option<string>, quantity: Option<nat>, weight: Option<real>, weightUnit: Option<string>)

  function Or<T>(given: Option<T>, present: T): T {
    if given.Some? then given.value else present
  }

  function Patched(row: ItemText, p: Patch): ItemText {
    ItemText(
      Or(p.kind, row.kind),
      if p.description.Some? then p.description else row.description,
      Or(p.quantity, row.quantity),
      if p.weight.Some? then p.weight else row.weight,
      Or(p.weightUnit, row.weightUnit))
  }

  // The texts of the rows a call creates, and the weight measured while processing.
  datatype Texts = Texts(
    shipment: ShipmentText,
    items: ItemId -> ItemText,
    number: string,
    kind: string,
    measured: Option<(real, Option<string>)>)

  datatype Act =
    | CreateCustomer(customer: CustomerId, name: string)
    | UpdateCustomer(customer: CustomerId, name: string)
    | UpdateShipment(sh: ShipmentId, location: Option<string>)
    | UpdateItem(owner: ShipmentId, item: ItemId, patch: Patch)
    | Cargo(call: Call, texts: Texts)

  // Only processing measures.
  function Measured(row: ItemText, step: Step, texts: Texts, i: ItemId): ItemText {
    if step.ProcessStep? && step.item == i && texts.measured.Some? then
      row.(weight := Some(texts.measured.value.0), weightUnit := Or(texts.measured.value.1, row.weightUnit))
    else row
  }

  // What a call leaves of rows, and what it adds.
  ghost predicate RowsGrow(s: State, t: State, step: Step) {
    && s.items.Keys <= t.items.Keys
    && s.shipments.Keys <= t.shipments.Keys
    && (step.CreateShipmentStep? || t.shipments.Keys == s.shipments.Keys)
  }

  lemma WarehouseGrows(s: State, t: State, call: Call)
    requires Wf(s) && WarehouseStep(call.step) && Try(s, call) == Ok(t)
    ensures RowsGrow(s, t, call.step)
  {
    hide Receive, Process, DestinationReceive, PickUp, SendOut, Deliver, Return, Rolled, AfterDelivery;
    match call.step {
      case ReceiveStep(i, wh) => ReceiveEffect(s, t, i, wh, call.now);
      case ProcessStep(i, wh, again, f) => ProcessEffect(s, t, i, wh, again, f, call.now);
      case DestinationReceiveStep(i, wh, d, x, e) => DestinationReceiveEffect(s, t, i, wh, d, x, e, call.now);
      case PickUpStep(i, wh) => PickUpEffect(s, t, i, wh, call.now);
      case SendOutStep(i, wh, carrier) => SendOutEffect(s, t, i, wh, carrier, call.now);
      case DeliverStep(i, wh, carrier) => DeliverEffect(s, t, i, wh, carrier, call.now);
      case ReturnStep(i, wh, x) => ReturnEffect(s, t, i, wh, x, call.now);
    }
  }

  lemma RowStepGrows(s: State, t: State, call: Call)
    requires Wf(s) && Try(s, call) == Ok(t)
    requires call.step.LoadStep? || call.step.UnloadStep? || call.step.AssignItemStep? || call.step.UnassignItemStep?
    ensures RowsGrow(s, t, call.step)
  {
    hide Load, Unload, AssignItem, UnassignItem, Rolled;
    match call.step {
      case LoadStep(c, i) => LoadEffect(s, t, c, i, call.now);
      case UnloadStep(c, i) => UnloadEffect(s, t, c, i, call.now);
      case AssignItemStep(m, i, conflict) => AssignItemEffect(s, t, m, i, conflict, call.now);
      case UnassignItemStep(m, i) => UnassignItemEffect(s, t, m, i, call.now);
    }
  }

  lemma BulkGrows(s: State, t: State, call: Call)
    requires Wf(s) && Try(s, call) == Ok(t)
    requires call.step.SealStep? || call.step.FinalizeStep? || call.step.DepartStep? || call.step.ArriveStep?
    ensures RowsGrow(s, t, call.step)
  {
    hide Seal, FinalizeManifest, Depart, Arrive, CargoRolled, CargoIs, EmptyManifest, UnitsOf, Aboard, ContainersAre;
    match call.step {
      case SealStep(c) => SealEffect(s, t, c, call.now);
      case FinalizeStep(m) => FinalizeEffect(s, t, m, call.now);
      case DepartStep(m) => DepartEffect(s, t, m, call.now);
      case ArriveStep(m) => ArriveEffect(s, t, m, call.now);
    }
  }

  lemma CallGrows(s: State, t: State, call: Call)
    requires Wf(s) && Try(s, call) == Ok(t)
    ensures RowsGrow(s, t, call.step)
  {
    hide Load, Unload, Seal, AssignItem, UnassignItem, FinalizeManifest, Depart, Arrive, AssignContainer, UnassignContainer;
    hide CreateShipment, AddItem;
    if WarehouseStep(call.step) {
      WarehouseGrows(s, t, call);
      return;
    }
    match call.step {
      case CreateShipmentStep(sh, email, ids) => CreateShipmentEffect(s, t, sh, email, ids, call.now);
      case AddItemStep(sh, i) => AddItemEffect(s, t, sh, i, call.now);
      case LoadStep(_, _) => RowStepGrows(s, t, call);
      case UnloadStep(_, _) => RowStepGrows(s, t, call);
      case AssignItemStep(_, _, _) => RowStepGrows(s, t, call);
      case UnassignItemStep(_, _) => RowStepGrows(s, t, call);
      case SealStep(_) => BulkGrows(s, t, call);
      case FinalizeStep(_) => BulkGrows(s, t, call);
      case DepartStep(_) => BulkGrows(s, t, call);
      case ArriveStep(_) => BulkGrows(s, t, call);
      case AssignContainerStep(m, c, conflict) => AssignContainerEffect(s, t, m, c, conflict, call.now);
      case UnassignContainerStep(m, c) => UnassignContainerEffect(s, t, m, c, call.now);
      case _ =>
    }
  }

  function FiledItems(rows: map<ItemId, ItemText>, t: State, step: Step, texts: Texts): (r: map<ItemId, ItemText>)
    ensures r.Keys == t.items.Keys
    ensures !step.ProcessStep? ==> forall i :: i in rows && i in t.items ==> r[i] == rows[i]
  {
    map i | i in t.items :: if i in rows then Measured(rows[i], step, texts, i) else texts.items(i)
  }

  function FiledShipments(rows: map<ShipmentId, ShipmentText>, t: State, texts: Texts): (r: map<ShipmentId, ShipmentText>)
    ensures r.Keys == t.shipments.Keys
    ensures forall sh :: sh in r ==> r[sh] == if sh in rows then rows[sh] else texts.shipment
  {
    map sh | sh in t.shipments :: if sh in rows then rows[sh] else texts.shipment
  }

  // The call's part of the office, once the cargo tables are t.
  ghost function Filed(o: Office, t: State, call: Call, texts: Texts): (r: Office)
    requires Synced(o) && Try(o.cargo, call) == Ok(t)
    requires call.step.CreateShipmentStep? ==> texts.shipment.customer in o.customers
    ensures Synced(r)
  {
    hide Try;
    CallGrows(o.cargo, t, call);
    Office(
      t,
      o.customers,
      FiledShipments(o.shipments, t, texts),
      FiledItems(o.items, t, call.step, texts),
      if call.step.CreateContainerStep? then o.boxes + [Box(call.step.container, texts.number, texts.kind)] else o.boxes,
      if call.step.FinalizeStep? && call.step.manifest in o.cargo.manifests
      then o.snapshots[call.step.manifest := Frozen(LiveBoxes(o, call.step.manifest), LiveItems(o, call.step.manifest))]
      else o.snapshots)
  }

  ghost function Perform(o: Office, act: Act): (r: Result<Office>)
    requires Synced(o)
    ensures r.Ok? ==> Synced(r.value)
  {
    match act
    case CreateCustomer(c, name) =>
      if c in o.customers then Err(Conflict) else Ok(o.(customers := o.customers[c := name]))
    case UpdateCustomer(c, name) =>
      if c !in o.customers then Err(NotFound) else Ok(o.(customers := o.customers[c := name]))
    case UpdateShipment(sh, location) =>
      if sh !in o.shipments then Err(NotFound)
      else if location.None? then Ok(o)
      else Ok(o.(shipments := o.shipments[sh := o.shipments[sh].(location := location)]))
    case UpdateItem(sh, i, patch) =>
      if i !in o.items || o.cargo.items[i].shipment != sh then Err(NotFound)
      else Ok(o.(items := o.items[i := Patched(o.items[i], patch)]))
    case Cargo(call, texts) =>
      if call.step.CreateShipmentStep? && texts.shipment.customer !in o.customers then Err(NotFound)
      else
        match Try(o.cargo, call)
        case Err(e) => Err(e)
        case Ok(t) => Ok(Filed(o, t, call, texts))
  }

  ghost function Worked(o: Office, act: Act): (r: Office)
    requires Synced(o)
    ensures Synced(r)
  {
    match Perform(o, act)
    case Ok(p) => p
    case Err(_) => o
  }

  // Any interleaving of cargo calls and edits.
  ghost function Onward(o: Office, acts: seq<Act>): (r: Office)
    requires Synced(o)
    ensures Synced(r)
  {
    if acts == [] then o else Worked(Onward(o, acts[..|acts| - 1]), acts[|acts| - 1])
  }

  ghost function RunOffice(warehouses: set<WarehouseId>, acts: seq<Act>): (r: Office)
    ensures Synced(r)
  {
    Onward(Opening(warehouses), acts)
  }
}
