/**
 The append-only event log is enough to rebuild every item: folding its events gives the
 status, the first receipt and the current warehouse the item row has. And every event in it
 was due: it finds the item at the stage, and in the warehouse, that it presupposes.
 */
module Replay {
  import opened Basics
  import opened Statuses
  import opened CargoState
  import opened CargoSteps

  // What the log is supposed to remember about an item.
  datatype Trace = Trace(status: ItemStatus, receivedAt: Option<Time>, warehouse: Option<WarehouseId>)

  function TraceOf(it: Item): Trace {
    Trace(it.status, it.receivedAt, it.warehouse)
  }

  function First(earlier: Option<Time>, at: Time): Option<Time> {
    if earlier.None? then Some(at) else earlier
  }

  // How one event is to be read. Four kinds are ambiguous and take their meaning from the status
  // the item has when they are met: a manifest event may concern its container only, and an
  // exception raised on the road also says where the item was brought back to.
  function After(tr: Trace, e: Event): Trace {
    match e.kind
    case ReceivedAtWarehouse => Trace(ReceivedOriginWarehouse, First(tr.receivedAt, e.at), e.warehouse)
    case Processed => tr.(status := ItemStatus.Processed)
    case Exception =>
      if tr.status.OutForDelivery? then tr.(status := ItemStatus.Exception, warehouse := e.warehouse)
      else tr.(status := ItemStatus.Exception)
    case AssignedToContainer => tr.(status := ItemStatus.AssignedToContainer)
    case RemovedFromContainer => tr.(status := ItemStatus.Processed)
    case AssignedToManifest => if tr.status.Processed? then tr.(status := ItemStatus.AssignedToManifest) else tr
    case RemovedFromManifest => if tr.status.AssignedToManifest? then tr.(status := ItemStatus.Processed) else tr
    case Loaded => tr.(status := ItemStatus.Loaded)
    case DepartedOrigin => tr.(status := ItemStatus.DepartedOrigin)
    case ArrivedDestination => tr.(status := ItemStatus.ArrivedDestination)
    case ReceivedDestinationWarehouse =>
      Trace(ItemStatus.ReceivedDestinationWarehouse, First(tr.receivedAt, e.at), e.warehouse)
    case OutForDelivery => tr.(status := ItemStatus.OutForDelivery, warehouse := None)
    case PickedUp => tr.(status := ItemStatus.PickedUp, warehouse := None)
    case Delivered => tr.(status := ItemStatus.Delivered)
    case ReturnedToWarehouse => tr.(status := ItemStatus.ReceivedDestinationWarehouse, warehouse := e.warehouse)
    case _ => tr
  }

  // Here: at the warehouse the event names.
  predicate Here(tr: Trace, e: Event) {
    e.warehouse.Some? && tr.warehouse == e.warehouse
  }

  // What each kind of event presupposes of the item it is about.
  predicate Due(tr: Trace, e: Event) {
    match e.kind
    case ReceivedAtWarehouse => tr.status.Registered? && e.warehouse.Some?
    case Processed => (tr.status.ReceivedOriginWarehouse? || tr.status.Processed? || tr.status.Exception?) && Here(tr, e)
    case Exception =>
      || ((tr.status.ReceivedOriginWarehouse? || tr.status.Processed? || tr.status.Exception?) && Here(tr, e))
      || ((tr.status.ArrivedDestination? || tr.status.OutForDelivery?) && e.warehouse.Some?)
    case AssignedToContainer => tr.status.Processed? && Here(tr, e)
    case RemovedFromContainer => tr.status.AssignedToContainer?
    case AssignedToManifest => tr.status.Processed? || tr.status.Loaded?
    case RemovedFromManifest => tr.status.AssignedToManifest? || tr.status.Loaded?
    case Loaded => tr.status.AssignedToContainer? || tr.status.AssignedToManifest?
    case DepartedOrigin => tr.status.Loaded?
    case ArrivedDestination => tr.status.DepartedOrigin?
    case ReceivedDestinationWarehouse => tr.status.ArrivedDestination? && e.warehouse.Some?
    case OutForDelivery => tr.status.ReceivedDestinationWarehouse? && Here(tr, e)
    case PickedUp => tr.status.ReceivedDestinationWarehouse? && Here(tr, e)
    case Delivered => tr.status.OutForDelivery? && e.warehouse.Some?
    case ReturnedToWarehouse => tr.status.OutForDelivery? && e.warehouse.Some?
    case NoteAdded => tr.status.Loaded?
    case _ => false
  }

  // Reads the log from the beginning; the registration starts the item's trace.
  function Replayed(events: seq<Event>, i: ItemId): Option<Trace> {
    if events == [] then None
    else
      var n := |events| - 1;
      var before := Replayed(events[..n], i);
      if events[n].item != Some(i) then before
      else if events[n].kind.ItemRegistered? then Some(Trace(Registered, None, None))
      else if before.None? then None
      else Some(After(before.value, events[n]))
  }

  // The n-th event, if it is about an item: a registration is the first, any other one is due.
  ghost predicate InTime(events: seq<Event>, n: nat)
    requires n < |events|
  {
    events[n].item.Some? ==>
      var before := Replayed(events[..n], events[n].item.value);
      if events[n].kind.ItemRegistered? then before.None? else before.Some? && Due(before.value, events[n])
  }

  ghost predicate WellTold(events: seq<Event>) {
    forall n :: 0 <= n < |events| ==> InTime(events, n)
  }

  ghost predicate Rebuilds(items: map<ItemId, Item>, events: seq<Event>) {
    forall i :: Replayed(events, i) == if i in items then Some(TraceOf(items[i])) else None
  }

  // The log rebuilds every item, knows of no other, and was in time throughout.
  ghost predicate Faithful(items: map<ItemId, Item>, events: seq<Event>) {
    Rebuilds(items, events) && WellTold(events)
  }

  lemma ToldAppended(events: seq<Event>, e: Event)
    requires WellTold(events) && InTime(events + [e], |events|)
    ensures WellTold(events + [e])
  {
    forall n | 0 <= n < |events|
      ensures InTime(events + [e], n)
    {
      assert InTime(events, n);
      assert (events + [e])[..n] == events[..n];
    }
  }

  lemma ReplayedAppended(events: seq<Event>, e: Event, i: ItemId)
    ensures e.item != Some(i) ==> Replayed(events + [e], i) == Replayed(events, i)
    ensures e.item == Some(i) && e.kind.ItemRegistered? ==>
      Replayed(events + [e], i) == Some(Trace(Registered, None, None))
    ensures e.item == Some(i) && !e.kind.ItemRegistered? && Replayed(events, i).Some? ==>
      Replayed(events + [e], i) == Some(After(Replayed(events, i).value, e))
  {
    assert (events + [e])[..|events|] == events;
  }

  // --- One event ------------------------------------------------------------------------

  lemma ShipmentEventReplays(items: map<ItemId, Item>, events: seq<Event>, e: Event)
    requires Faithful(items, events) && e.item.None?
    ensures Faithful(items, events + [e])
  {
    forall i
      ensures Replayed(events + [e], i) == Replayed(events, i)
    {
      ReplayedAppended(events, e, i);
    }
    ToldAppended(events, e);
  }

  lemma ItemEventReplays(items: map<ItemId, Item>, events: seq<Event>, i: ItemId, e: Event, it: Item)
    requires Faithful(items, events) && e.item == Some(i) && i in items && !e.kind.ItemRegistered?
    requires TraceOf(it) == After(TraceOf(items[i]), e) && Due(TraceOf(items[i]), e)
    ensures Faithful(items[i := it], events + [e])
  {
    hide After, Due;
    assert (events + [e])[..|events|] == events;
    ToldAppended(events, e);
    forall j
      ensures Replayed(events + [e], j) == if j in items[i := it] then Some(TraceOf(items[i := it][j])) else None
    {
      ReplayedAppended(events, e, j);
    }
  }

  lemma RegistrationReplays(items: map<ItemId, Item>, events: seq<Event>, i: ItemId, e: Event, it: Item)
    requires Faithful(items, events) && e.item == Some(i) && e.kind.ItemRegistered?
    requires TraceOf(it) == Trace(Registered, None, None) && i !in items
    ensures Faithful(items[i := it], events + [e])
  {
    hide After, Due;
    assert (events + [e])[..|events|] == events;
    ToldAppended(events, e);
    forall j
      ensures Replayed(events + [e], j) == if j in items[i := it] then Some(TraceOf(items[i := it][j])) else None
    {
      ReplayedAppended(events, e, j);
    }
  }

  // --- Rollups and bulk writes ------------------------------------------------------------

  lemma {:induction false} AdvanceReplays(s: State, sh: ShipmentId, moves: seq<Move>, now: Time)
    requires sh in s.shipments && Faithful(s.items, s.events)
    ensures Faithful(s.items, Advance(s, sh, moves, now).events)
    decreases |moves|
  {
    hide Faithful, Notify;
    if moves != [] {
      var e := StatusEvent(sh, moves[0].kind, moves[0].status, now);
      ShipmentEventReplays(s.items, s.events, e);
      AdvanceReplays(Track(s, e, None), sh, moves[1..], now);
    }
  }

  lemma RollReplays(s: State, rollup: Rollup, sh: ShipmentId, now: Time)
    requires sh in s.shipments && Faithful(s.items, s.events)
    ensures Faithful(s.items, Roll(s, rollup, sh, now).events)
  {
    AdvanceReplays(s, sh, Moves(rollup, s.items, sh, s.shipments[sh].status), now);
  }

  lemma {:induction false} RollAllReplays(s: State, rollup: Rollup, shs: seq<ShipmentId>, now: Time)
    requires (forall sh :: sh in shs ==> sh in s.shipments) && Faithful(s.items, s.events)
    ensures Faithful(s.items, RollAll(s, rollup, shs, now).events)
  {
    hide Faithful, Roll;
    if shs != [] {
      var n := |shs| - 1;
      RollAllReplays(s, rollup, shs[..n], now);
      RollReplays(RollAll(s, rollup, shs[..n], now), rollup, shs[n], now);
    }
  }

  lemma RollAffectedReplays(s: State, rollup: Rollup, units: set<Unit>, now: Time)
    requires Wf(s) && Faithful(s.items, s.events)
    ensures Faithful(s.items, RollAffected(s, rollup, units, now).events)
  {
    RollAllReplays(s, rollup, Affected(s.links, |s.links|, units), now);
  }

  // The bulk events: three of them move every item, the others are read as no change.
  predicate Plain(kind: EventType, itemStatus: Option<ItemStatus>, st: ItemStatus) {
    || (kind.Loaded? && itemStatus == Some(ItemStatus.Loaded) && (st.AssignedToContainer? || st.AssignedToManifest?))
    || (kind.DepartedOrigin? && itemStatus == Some(ItemStatus.DepartedOrigin) && st.Loaded?)
    || (kind.ArrivedDestination? && itemStatus == Some(ItemStatus.ArrivedDestination) && st.DepartedOrigin?)
    || (kind.NoteAdded? && itemStatus.None? && st.Loaded?)
    || ((kind.AssignedToManifest? || kind.RemovedFromManifest?) && itemStatus.None? && st.Loaded?)
  }

  lemma PlainAfter(it: Item, e: Event, itemStatus: Option<ItemStatus>)
    requires Plain(e.kind, itemStatus, it.status)
    ensures TraceOf(Stamp(it, e, itemStatus)) == After(TraceOf(it), e) && Due(TraceOf(it), e)
  {
  }

  // No item has two active rows on the units.
  ghost predicate MetOnce(links: seq<Link>, units: set<Unit>) {
    forall j, k :: 0 <= j < k < |links| && Carries(links[j], units) && Carries(links[k], units) ==> links[j].item != links[k].item
  }

  ghost predicate PlainCargo(s: State, units: set<Unit>, kind: EventType, itemStatus: Option<ItemStatus>)
    requires Wf(s)
  {
    forall k :: 0 <= k < |s.links| && Carries(s.links[k], units) ==>
      Plain(kind, itemStatus, s.items[s.links[k].item].status)
  }

  lemma CargoRowReplays(s: State, i: ItemId, kind: EventType, itemStatus: Option<ItemStatus>, wh: Option<WarehouseId>, now: Time)
    requires i in s.items && s.items[i].shipment in s.shipments && !kind.ItemRegistered?
    requires Plain(kind, itemStatus, s.items[i].status) && Faithful(s.items, s.events)
    ensures var t := TrackItem(s, i, kind, itemStatus, wh, now); Faithful(t.items, t.events)
  {
    hide Faithful, TrackItem, After, Due, Plain;
    var e := ItemEvent(s, i, kind, wh, now);
    PlainAfter(s.items[i], e, itemStatus);
    ItemEventReplays(s.items, s.events, i, e, Stamp(s.items[i], e, itemStatus));
  }

  lemma {:induction false} CargoReplays(s: State, units: set<Unit>, n: nat, kind: EventType,
                                        itemStatus: Option<ItemStatus>, wh: Option<WarehouseId>, now: Time)
    requires n <= |s.links| && Wf(s) && !Receiving(kind) && !kind.ItemRegistered? && PlainCargo(s, units, kind, itemStatus)
    requires MetOnce(s.links, units)
    requires Faithful(s.items, s.events)
    ensures var t := TrackCargo(s, units, n, kind, itemStatus, wh, now); Faithful(t.items, t.events)
  {
    hide Faithful, TrackItem, PlainCargo, Receiving, Plain, Wf, Aboard, Carries, MetOnce;
    if n > 0 {
      CargoReplays(s, units, n - 1, kind, itemStatus, wh, now);
      if Carries(s.links[n - 1], units) {
        RowStaysPlain(s, units, n - 1, kind, itemStatus, wh, now);
        CargoRowReplays(TrackCargo(s, units, n - 1, kind, itemStatus, wh, now), s.links[n - 1].item, kind, itemStatus, wh, now);
      }
    }
  }

  lemma RowStaysPlain(s: State, units: set<Unit>, k: nat, kind: EventType,
                      itemStatus: Option<ItemStatus>, wh: Option<WarehouseId>, now: Time)
    requires k < |s.links| && Wf(s) && !Receiving(kind) && PlainCargo(s, units, kind, itemStatus)
    requires Carries(s.links[k], units) && MetOnce(s.links, units)
    ensures var before := TrackCargo(s, units, k, kind, itemStatus, wh, now); var i := s.links[k].item;
      i in before.items && before.items[i].shipment in before.shipments && Plain(kind, itemStatus, before.items[i].status)
  {
    hide Plain, TrackCargo;
    assert !Aboard(s.links, k, units, s.links[k].item);
  }

  lemma CreateItemReplays(s: State, sh: ShipmentId, i: ItemId, sequence: nat, now: Time)
    requires sh in s.shipments && i !in s.items && Faithful(s.items, s.events)
    ensures var t := CreateItem(s, sh, i, sequence, now); Faithful(t.items, t.events)
  {
    RegistrationReplays(s.items, s.events, i, Event(sh, Some(i), ItemRegistered, None, None, now),
                        Item(sh, sequence, Registered, None, None));
  }

  lemma {:induction false} CreateItemsReplays(s: State, sh: ShipmentId, ids: seq<ItemId>, now: Time)
    requires sh in s.shipments && FreshItems(s, ids) && Faithful(s.items, s.events)
    ensures var t := CreateItems(s, sh, ids, now); Faithful(t.items, t.events)
  {
    hide Faithful, CreateItem;
    if ids != [] {
      var n := |ids| - 1;
      CreateItemsReplays(s, sh, ids[..n], now);
      CreatedItems(s, sh, ids[..n], now);
      CreateItemReplays(CreateItems(s, sh, ids[..n], now), sh, ids[n], n + 1, now);
    }
  }
}
