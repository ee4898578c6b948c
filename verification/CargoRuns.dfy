/** Runs: any interleaving of service calls, each one atomic, starting from empty tables. */
module CargoRuns {
  import opened Basics
  import opened Statuses
  import opened CargoState
  import opened CargoSteps

  datatype Step =
    | CreateShipmentStep(sh: ShipmentId, notifyByEmail: bool, ids: seq<ItemId>)
    | AddItemStep(sh: ShipmentId, item: ItemId)
    | ManualStep(event: Event, itemStatus: Option<ItemStatus>)
    | ReceiveStep(item: ItemId, wh: WarehouseId)
    | ProcessStep(item: ItemId, wh: WarehouseId, reinspection: bool, finding: Finding)
    | DestinationReceiveStep(item: ItemId, wh: WarehouseId, damaged: bool, hasException: bool, described: bool)
    | PickUpStep(item: ItemId, wh: WarehouseId)
    | SendOutStep(item: ItemId, wh: WarehouseId, carrier: Carrier)
    | DeliverStep(item: ItemId, wh: WarehouseId, carrier: Carrier)
    | ReturnStep(item: ItemId, wh: WarehouseId, hasException: bool)
    | CreateContainerStep(container: ContainerId, at: Option<WarehouseId>)
    | LoadStep(container: ContainerId, item: ItemId)
    | UnloadStep(container: ContainerId, item: ItemId)
    | SealStep(container: ContainerId)
    | OpenStep(container: ContainerId)
    | CloseStep(container: ContainerId)
    | CreateManifestStep(manifest: ManifestId, mode: ShipmentMode, at: Option<WarehouseId>, transport: Transport)
    | AssignContainerStep(manifest: ManifestId, container: ContainerId, routeConflict: bool)
    | UnassignContainerStep(manifest: ManifestId, container: ContainerId)
    | AssignItemStep(manifest: ManifestId, item: ItemId, routeConflict: bool)
    | UnassignItemStep(manifest: ManifestId, item: ItemId)
    | FinalizeStep(manifest: ManifestId)
    | DepartStep(manifest: ManifestId)
    | ArriveStep(manifest: ManifestId)

  // A call and the clock reading it is made at.
  datatype Call = Call(step: Step, now: Time)

  function Try(s: State, call: Call): (r: Result<State>)
    requires Wf(s)
    ensures r.Ok? ==> Wf(r.value)
  {
    var now := call.now;
    match call.step
    case CreateShipmentStep(sh, email, ids) => CreateShipment(s, sh, email, ids, now)
    case AddItemStep(sh, i) => AddItem(s, sh, i, now)
    case ManualStep(e, itemStatus) => ManualEvent(s, e, itemStatus)
    case ReceiveStep(i, wh) => Receive(s, i, wh, now)
    case ProcessStep(i, wh, reinspection, f) => Process(s, i, wh, reinspection, f, now)
    case DestinationReceiveStep(i, wh, d, x, t) => DestinationReceive(s, i, wh, d, x, t, now)
    case PickUpStep(i, wh) => PickUp(s, i, wh, now)
    case SendOutStep(i, wh, carrier) => SendOut(s, i, wh, carrier, now)
    case DeliverStep(i, wh, carrier) => Deliver(s, i, wh, carrier, now)
    case ReturnStep(i, wh, x) => Return(s, i, wh, x, now)
    case CreateContainerStep(c, wh) => CreateContainer(s, c, wh)
    case LoadStep(c, i) => Load(s, c, i, now)
    case UnloadStep(c, i) => Unload(s, c, i, now)
    case SealStep(c) => Seal(s, c, now)
    case OpenStep(c) => OpenContainer(s, c)
    case CloseStep(c) => CloseContainer(s, c)
    case CreateManifestStep(m, mode, wh, t) => CreateManifest(s, m, mode, wh, t)
    case AssignContainerStep(m, c, conflict) => AssignContainer(s, m, c, conflict, now)
    case UnassignContainerStep(m, c) => UnassignContainer(s, m, c, now)
    case AssignItemStep(m, i, conflict) => AssignItem(s, m, i, conflict, now)
    case UnassignItemStep(m, i) => UnassignItem(s, m, i, now)
    case FinalizeStep(m) => FinalizeManifest(s, m, now)
    case DepartStep(m) => Depart(s, m, now)
    case ArriveStep(m) => Arrive(s, m, now)
  }

  // A rejected call leaves the tables as they were.
  function Next(s: State, call: Call): (r: State)
    requires Wf(s)
    ensures Wf(r)
  {
    match Try(s, call)
    case Ok(t) => t
    case Err(_) => s
  }

  lemma EmptyIsWf(warehouses: set<WarehouseId>)
    ensures Wf(Empty(warehouses))
  {
  }

  function RunFrom(s: State, calls: seq<Call>): (r: State)
    requires Wf(s)
    ensures Wf(r)
  {
    if calls == [] then s else Next(RunFrom(s, calls[..|calls| - 1]), calls[|calls| - 1])
  }

  // The state any sequence of calls reaches from empty tables.
  function Run(warehouses: set<WarehouseId>, calls: seq<Call>): (r: State)
    ensures Wf(r)
  {
    RunFrom(Empty(warehouses), calls)
  }

  // Runs that never use the public tracking-event endpoint.
  predicate NoManualEvents(calls: seq<Call>) {
    forall k :: 0 <= k < |calls| ==> !calls[k].step.ManualStep?
  }
}
