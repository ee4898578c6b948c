/**
 One tenant's cargo tables as a value, the single status writer
 (createTrackingEvent), the shipment rollups, and the row-by-row bulk writer.
 */
module CargoState {
  import opened Basics
  import opened Statuses

  type ShipmentId = nat
  type ItemId = nat
  type WarehouseId = nat
  type ContainerId = nat
  type ManifestId = nat
  type Time = nat

  datatype Shipment = Shipment(status: ShipmentStatus, notifyByEmail: bool)

  datatype Item = Item(
    shipment: ShipmentId,
    sequence: nat,
    status: ItemStatus,
    receivedAt: Option<Time>,
    warehouse: Option<WarehouseId>)

  datatype Container = Container(status: ContainerStatus, warehouse: Option<WarehouseId>, manifest: Option<ManifestId>)

  // Which transport fields are filled in; they never change after creation.
  datatype Transport = Transport(
    carrier: bool, flight: bool, vessel: bool, voyage: bool, originLocation: bool, destinationLocation: bool)

  // What finalize froze: one entry for each unit and item approved for transport.
  type Approval = seq<(Unit, ItemId)>

  datatype Manifest = Manifest(
    status: ManifestStatus,
    mode: ShipmentMode,
    originWarehouse: Option<WarehouseId>,
    transport: Transport,
    snapshot: Option<Approval>)

  // ContainerItem and ManifestItem rows share one table here, told apart by the unit.
  datatype Unit = InContainer(container: ContainerId) | OnManifest(manifest: ManifestId)

  // `active` is `removedAt == null`.
  datatype Link = Link(unit: Unit, shipment: ShipmentId, item: ItemId, active: bool)

  datatype Inspection = Inspection(item: ItemId, ready: bool, damaged: bool, hasException: bool)

  datatype HandoffType = Pickup | Dispatch | Delivery
  datatype Handoff = Handoff(shipment: ShipmentId, item: ItemId, kind: HandoffType)

  // A TrackingEvent row. It does not store the item status it caused.
  datatype Event = Event(
    shipment: ShipmentId,
    item: Option<ItemId>,
    kind: EventType,
    status: Option<ShipmentStatus>,
    warehouse: Option<WarehouseId>,
    at: Time)

  // A NotificationEvent row; (shipment, status) is its dedupe key.
  datatype Notice = Notice(shipment: ShipmentId, status: ShipmentStatus)

  datatype Template =
    | ReceivedEmail
    | DepartedEmail
    | ArrivedEmail
    | ReadyForPickupEmail
    | OutForDeliveryEmail
    | DeliveredEmail
    | PickedUpEmail
    | GenericEmail

  datatype Email = Email(shipment: ShipmentId, template: Template)

  datatype State = State(
    warehouses: set<WarehouseId>,
    shipments: map<ShipmentId, Shipment>,
    items: map<ItemId, Item>,
    containers: map<ContainerId, Container>,
    manifests: map<ManifestId, Manifest>,
    links: seq<Link>,
    inspections: seq<Inspection>,
    handoffs: seq<Handoff>,
    events: seq<Event>,
    notices: seq<Notice>,
    emails: seq<Email>)

  function Empty(warehouses: set<WarehouseId>): State {
    State(warehouses, map[], map[], map[], map[], [], [], [], [], [], [])
  }

  // --- Foreign keys -------------------------------------------------------------------

  predicate UnitExists(containers: map<ContainerId, Container>, manifests: map<ManifestId, Manifest>, u: Unit) {
    match u
    case InContainer(c) => c in containers
    case OnManifest(m) => m in manifests && manifests[m].mode.Air?
  }

  // What the database's foreign keys, and the mode checks of both assign operations, guarantee.
  ghost predicate Wf(s: State) {
    && (forall i :: i in s.items ==> s.items[i].shipment in s.shipments)
    && (forall k :: 0 <= k < |s.links| ==>
      && s.links[k].item in s.items
      && s.links[k].shipment == s.items[s.links[k].item].shipment
      && UnitExists(s.containers, s.manifests, s.links[k].unit))
    && (forall c :: c in s.containers && s.containers[c].manifest.Some? ==>
      s.containers[c].manifest.value in s.manifests && !s.manifests[s.containers[c].manifest.value].mode.Air?)
  }

  // --- Notifications ------------------------------------------------------------------

  predicate HasDelivery(handoffs: seq<Handoff>, sh: ShipmentId) {
    exists h :: h in handoffs && h.shipment == sh && h.kind.Delivery?
  }

  // buildShipmentEmailContent: nothing at all for a completion that follows a delivery.
  function EmailTemplate(handoffs: seq<Handoff>, sh: ShipmentId, st: ShipmentStatus): Option<Template> {
    match st
    case WarehouseReceived => Some(ReceivedEmail)
    case Departed => Some(DepartedEmail)
    case ArrivedDestination => Some(ArrivedEmail)
    case ReadyForPickup => Some(ReadyForPickupEmail)
    case OutForDelivery => Some(OutForDeliveryEmail)
    case Delivered => Some(DeliveredEmail)
    case Completed => if HasDelivery(handoffs, sh) then None else Some(PickedUpEmail)
    case _ => Some(GenericEmail)
  }

  // fireShipmentStatusChanged: the unique dedupe key makes a second notice a no-op.
  function Notify(s: State, sh: ShipmentId, st: ShipmentStatus): (r: State)
    requires sh in s.shipments
    ensures r == s.(notices := r.notices, emails := r.emails)
  {
    if !Notifiable(st) || Notice(sh, st) in s.notices then s
    else
      var template := EmailTemplate(s.handoffs, sh, st);
      s.(notices := s.notices + [Notice(sh, st)],
      emails := if s.shipments[sh].notifyByEmail && template.Some?
      then s.emails + [Email(sh, template.value)] else s.emails)
  }

  // --- The single status writer -------------------------------------------------------

  predicate Receiving(kind: EventType) {
    kind.ReceivedAtWarehouse? || kind.ReceivedDestinationWarehouse?
  }

  // The item columns one event writes.
  function Stamp(it: Item, e: Event, itemStatus: Option<ItemStatus>): (r: Item)
    ensures r.shipment == it.shipment && r.sequence == it.sequence
    ensures r.status == if itemStatus.Some? then itemStatus.value else it.status
  {
    it.(status := if itemStatus.Some? then itemStatus.value else it.status,
    receivedAt := if Receiving(e.kind) && it.receivedAt.None? then Some(e.at) else it.receivedAt,
    warehouse := if Receiving(e.kind) && e.warehouse.Some? then e.warehouse else it.warehouse)
  }

  predicate Recordable(s: State, e: Event) {
    && e.shipment in s.shipments
    && (e.item.Some? ==> e.item.value in s.items && s.items[e.item.value].shipment == e.shipment)
  }

  // createTrackingEvent once its lookups have succeeded.
  function Track(s: State, e: Event, itemStatus: Option<ItemStatus>): (r: State)
    requires Recordable(s, e)
    ensures r == s.(shipments := r.shipments, items := r.items, events := r.events, notices := r.notices, emails := r.emails)
    ensures r.shipments.Keys == s.shipments.Keys && r.items.Keys == s.items.Keys
    ensures forall i :: i in s.items ==> r.items[i].shipment == s.items[i].shipment
  {
    var logged := s.(events := s.events + [e]);
    var stamped :=
      if e.item.Some? then
        logged.(items := s.items[e.item.value := Stamp(s.items[e.item.value], e, itemStatus)])
      else logged;
    if e.status.Some? then
      Notify(stamped.(shipments := s.shipments[e.shipment := s.shipments[e.shipment].(status := e.status.value)]),
             e.shipment, e.status.value)
    else stamped
  }

  // The call every item operation makes.
  function TrackItem(s: State, i: ItemId, kind: EventType, itemStatus: Option<ItemStatus>,
                     wh: Option<WarehouseId>, now: Time): (r: State)
    requires i in s.items && s.items[i].shipment in s.shipments
    ensures r == s.(items := r.items, events := r.events)
    ensures r.items == s.items[i := Stamp(s.items[i], ItemEvent(s, i, kind, wh, now), itemStatus)]
    ensures r.events == s.events + [ItemEvent(s, i, kind, wh, now)]
  {
    Track(s, ItemEvent(s, i, kind, wh, now), itemStatus)
  }

  function ItemEvent(s: State, i: ItemId, kind: EventType, wh: Option<WarehouseId>, now: Time): Event
    requires i in s.items
  {
    Event(s.items[i].shipment, Some(i), kind, None, wh, now)
  }

  function StatusEvent(sh: ShipmentId, kind: EventType, st: ShipmentStatus, now: Time): Event {
    Event(sh, None, kind, Some(st), None, now)
  }

  // The direct `currentWarehouseId` update that pickup, dispatch and return make.
  function SetWarehouse(s: State, i: ItemId, wh: Option<WarehouseId>): State
    requires i in s.items
  {
    s.(items := s.items[i := s.items[i].(warehouse := wh)])
  }

  // --- Rollups ------------------------------------------------------------------------

  datatype Move = Move(kind: EventType, status: ShipmentStatus)

  datatype Rollup =
    | ReceivingRollup
    | ProcessingRollup
    | ContainerRollup
    | ManifestRollup
    | DepartureRollup
    | ArrivalRollup
    | ReadyForPickupRollup
    | OutForDeliveryRollup
    | DeliveredRollup
    | CompletionRollup

  predicate HasItems(items: map<ItemId, Item>, sh: ShipmentId) {
    exists i :: i in items && items[i].shipment == sh
  }

  predicate AllReceived(items: map<ItemId, Item>, sh: ShipmentId) {
    forall i :: i in items && items[i].shipment == sh ==> items[i].receivedAt.Some?
  }

  predicate AllReached(items: map<ItemId, Item>, sh: ShipmentId, stage: Stage) {
    forall i :: i in items && items[i].shipment == sh ==> Reached(stage, items[i].status)
  }

  predicate AnyReached(items: map<ItemId, Item>, sh: ShipmentId, stage: Stage) {
    exists i :: i in items && items[i].shipment == sh && Reached(stage, items[i].status)
  }

  // The last-mile rollups look past cancelled items, but need one that is not.
  predicate ApplicableReached(items: map<ItemId, Item>, sh: ShipmentId, stage: Stage) {
    && (exists i :: i in items && items[i].shipment == sh && !items[i].status.Cancelled?)
    && (forall i :: i in items && items[i].shipment == sh && !items[i].status.Cancelled? ==>
      Reached(stage, items[i].status))
  }

  predicate AnyInContainer(items: map<ItemId, Item>, sh: ShipmentId) {
    exists i :: i in items && items[i].shipment == sh && (items[i].status.AssignedToContainer? || items[i].status.Loaded?)
  }

  predicate AllExactlyLoaded(items: map<ItemId, Item>, sh: ShipmentId) {
    forall i :: i in items && items[i].shipment == sh ==> items[i].status.Loaded?
  }

  predicate AnyProcessingActivity(items: map<ItemId, Item>, sh: ShipmentId) {
    exists i :: i in items && items[i].shipment == sh &&
      (Reached(AtLeastProcessed, items[i].status) || items[i].status.Exception?)
  }

  // WarehouseService's processing rollup, from what it asks of the items.
  function ProcessingRule(st: ShipmentStatus, anyActivity: bool, allProcessed: bool): seq<Move> {
    if !(st.WarehouseReceived? || st.Processing? || st.ReadyForConsolidation?) then []
    else
      var first := When(st.WarehouseReceived? && anyActivity, EventType.Processed, ShipmentStatus.Processing);
      var current := Last(st, first);
      if current.Processing? && allProcessed then first + [Move(EventType.Processed, ReadyForConsolidation)]
      else if current.ReadyForConsolidation? && !allProcessed
      then first + [Move(EventType.Exception, ShipmentStatus.Processing)]
      else first
  }

  // The shared skeleton of the two consolidation rollups; they differ in what counts.
  function ConsolidationRule(st: ShipmentStatus, any: bool, all: bool, removed: EventType): seq<Move> {
    if !(st.ReadyForConsolidation? || st.Consolidated?) then []
    else
      var first :=
        if st.ReadyForConsolidation? && any then [Move(EventType.Consolidated, ShipmentStatus.Consolidated)]
        else When(st.Consolidated? && !any, removed, ReadyForConsolidation);
      var current := Last(st, first);
      if current.Consolidated? && all then first + [Move(EventType.Loaded, ShipmentStatus.Loaded)] else first
  }

  function When(condition: bool, kind: EventType, st: ShipmentStatus): seq<Move> {
    if condition then [Move(kind, st)] else []
  }

  predicate PreReceiving(st: ShipmentStatus) {
    st.Draft? || st.QuoteRequested? || st.AwaitingItems?
  }

  // The status changes each rollup makes. ContainersService's consolidation rollup looks for exact
  // statuses; ManifestsService's near-duplicate asks for "at least this far" on both checks.
  function Moves(rollup: Rollup, items: map<ItemId, Item>, sh: ShipmentId, st: ShipmentStatus): seq<Move> {
    if !HasItems(items, sh) then []
    else
      match rollup
      case ReceivingRollup =>
        When(PreReceiving(st) && AllReceived(items, sh), EventType.ReceivedAtWarehouse, WarehouseReceived)
      case ProcessingRollup =>
        ProcessingRule(st, AnyProcessingActivity(items, sh), AllReached(items, sh, AtLeastProcessed))
      case ContainerRollup =>
        ConsolidationRule(st, AnyInContainer(items, sh), AllExactlyLoaded(items, sh), EventType.RemovedFromContainer)
      case ManifestRollup =>
        ConsolidationRule(st, AnyReached(items, sh, AtLeastCommitted), AllReached(items, sh, AtLeastLoaded),
                          EventType.RemovedFromManifest)
      case DepartureRollup =>
        When((st.Consolidated? || st.Loaded?) && AllReached(items, sh, AtLeastDeparted),
             EventType.DepartedOrigin, ShipmentStatus.Departed)
      case ArrivalRollup =>
        When((st.Departed? || st.InTransit?) && AllReached(items, sh, AtLeastArrived),
             EventType.ArrivedDestination, ShipmentStatus.ArrivedDestination)
      case ReadyForPickupRollup =>
        When(st.ArrivedDestination? && ApplicableReached(items, sh, AtLeastAtDestination),
             EventType.ReadyForPickup, ShipmentStatus.ReadyForPickup)
      case OutForDeliveryRollup =>
        When((st.ArrivedDestination? || st.ReadyForPickup?) && ApplicableReached(items, sh, AtLeastOutForDelivery),
             EventType.OutForDelivery, ShipmentStatus.OutForDelivery)
      case DeliveredRollup =>
        When((st.ArrivedDestination? || st.ReadyForPickup? || st.OutForDelivery?) && ApplicableReached(items, sh, HandedOff),
             EventType.Delivered, ShipmentStatus.Delivered)
      case CompletionRollup =>
        When((st.ArrivedDestination? || st.ReadyForPickup? || st.OutForDelivery? || st.Delivered?)
             && ApplicableReached(items, sh, HandedOff),
             EventType.Completed, ShipmentStatus.Completed)
  }

  function Last(st: ShipmentStatus, moves: seq<Move>): ShipmentStatus {
    if moves == [] then st else moves[|moves| - 1].status
  }

  // Writes a rollup's shipment-level events, oldest first.
  function Advance(s: State, sh: ShipmentId, moves: seq<Move>, now: Time): (r: State)
    requires sh in s.shipments
    ensures r == s.(shipments := r.shipments, events := r.events, notices := r.notices, emails := r.emails)
    ensures r.shipments == s.shipments[sh := s.shipments[sh].(status := Last(s.shipments[sh].status, moves))]
    decreases |moves|
  {
    if moves == [] then s
    else
      Advance(Track(s, StatusEvent(sh, moves[0].kind, moves[0].status, now), None), sh, moves[1..], now)
  }

  function Roll(s: State, rollup: Rollup, sh: ShipmentId, now: Time): (r: State)
    requires sh in s.shipments
    ensures r == s.(shipments := r.shipments, events := r.events, notices := r.notices, emails := r.emails)
    ensures r.shipments ==
      s.shipments[sh := s.shipments[sh].(status := Rolled(rollup, s.items, sh, s.shipments[sh].status))]
  {
    Advance(s, sh, Moves(rollup, s.items, sh, s.shipments[sh].status), now)
  }

  // The status a rollup leaves.
  function Rolled(rollup: Rollup, items: map<ItemId, Item>, sh: ShipmentId, st: ShipmentStatus): ShipmentStatus {
    Last(st, Moves(rollup, items, sh, st))
  }

  // One rollup for each shipment of a list, in order.
  function RollAll(s: State, rollup: Rollup, shs: seq<ShipmentId>, now: Time): (r: State)
    requires forall sh :: sh in shs ==> sh in s.shipments
    ensures r == s.(shipments := r.shipments, events := r.events, notices := r.notices, emails := r.emails)
    ensures r.shipments.Keys == s.shipments.Keys
  {
    if shs == [] then s
    else
      var n := |shs| - 1;
      Roll(RollAll(s, rollup, shs[..n], now), rollup, shs[n], now)
  }

  // --- Bulk writing over the link table -----------------------------------------------

  predicate Carries(l: Link, units: set<Unit>) {
    l.active && l.unit in units
  }

  // Item i rides one of the units on one of the first n rows.
  predicate Aboard(links: seq<Link>, n: nat, units: set<Unit>, i: ItemId)
    requires n <= |links|
  {
    exists k :: 0 <= k < n && Carries(links[k], units) && links[k].item == i
  }

  lemma AboardNext(links: seq<Link>, n: nat, units: set<Unit>)
    requires 0 < n <= |links|
    ensures forall i :: Aboard(links, n, units, i) <==>
      Aboard(links, n - 1, units, i) || (Carries(links[n - 1], units) && links[n - 1].item == i)
  {
  }

  predicate NobodyAboard(links: seq<Link>, units: set<Unit>) {
    forall k :: 0 <= k < |links| ==> !Carries(links[k], units)
  }

  predicate CargoIs(s: State, units: set<Unit>, st: ItemStatus)
    requires forall k :: 0 <= k < |s.links| ==> s.links[k].item in s.items
  {
    forall k :: 0 <= k < |s.links| && Carries(s.links[k], units) ==> s.items[s.links[k].item].status == st
  }

  function UnitsOf(s: State, m: ManifestId): (r: set<Unit>)
    requires m in s.manifests
  {
    if s.manifests[m].mode.Air? then {OnManifest(m)}
    else set c | c in s.containers && s.containers[c].manifest == Some(m) :: InContainer(c)
  }

  // One event for each active row of the units among the first n rows.
  function TrackCargo(s: State, units: set<Unit>, n: nat, kind: EventType, itemStatus: Option<ItemStatus>,
                      wh: Option<WarehouseId>, now: Time): (r: State)
    requires n <= |s.links| && Wf(s) && !Receiving(kind)
    ensures Wf(r)
    ensures r == s.(items := r.items, events := r.events)
    ensures r.items.Keys == s.items.Keys
    ensures forall i :: i in s.items ==>
      r.items[i] ==
      if Aboard(s.links, n, units, i) && itemStatus.Some? then s.items[i].(status := itemStatus.value) else s.items[i]
  {
    if n == 0 then s
    else
      var before := TrackCargo(s, units, n - 1, kind, itemStatus, wh, now);
      var l := s.links[n - 1];
      AboardNext(s.links, n, units);
      if Carries(l, units) then TrackItem(before, l.item, kind, itemStatus, wh, now) else before
  }

  // The distinct shipments among the units' rows, in order of first appearance.
  function Affected(links: seq<Link>, n: nat, units: set<Unit>): (r: seq<ShipmentId>)
    requires n <= |links|
    ensures forall sh :: sh in r <==> exists k :: 0 <= k < n && Carries(links[k], units) && links[k].shipment == sh
    ensures forall j, k :: 0 <= j < k < |r| ==> r[j] != r[k]
  {
    if n == 0 then []
    else
      var before := Affected(links, n - 1, units);
      var l := links[n - 1];
      if Carries(l, units) && l.shipment !in before then before + [l.shipment] else before
  }

  // The rollup of every shipment with cargo on the units.
  function RollAffected(s: State, rollup: Rollup, units: set<Unit>, now: Time): (r: State)
    requires Wf(s)
    ensures Wf(r)
    ensures r == s.(shipments := r.shipments, events := r.events, notices := r.notices, emails := r.emails)
    ensures r.shipments.Keys == s.shipments.Keys
  {
    RollAll(s, rollup, Affected(s.links, |s.links|, units), now)
  }
}
