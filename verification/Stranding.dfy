/**
 No shipment is stranded: once every item has reached a stage, the shipment's own status
 has at least the rank that goes with it. Every rollup relies on the previous link of this
 chain to find the shipment in a status it is willing to act on.
 */
module Stranding {
  import opened Basics
  import opened Statuses
  import opened CargoState
  import opened CargoEffects

  // An item no manual event has touched.
  predicate RegularItem(it: Item) {
    && !(it.status.Measured? || it.status.Consolidated? || it.status.InTransit? || it.status.ReadyForPickup?
         || it.status.Cancelled?)
    && (it.status.Registered? <==> it.receivedAt.None?)
  }

  // The statuses that only a manual event can write are excluded.
  predicate RegularStatus(st: ShipmentStatus) {
    !(st.QuoteRequested? || st.AwaitingItems? || st.Booked? || st.InTransit? || st.CustomsProcessing?
      || st.CustomsCleared? || st.Cancelled?)
  }

  ghost predicate RegularItems(items: map<ItemId, Item>) {
    forall i :: i in items ==> RegularItem(items[i])
  }

  // --- The chain, as a relation between what the items show and the shipment's status --

  datatype Marks = Marks(
    some: bool,
    received: bool,
    processed: bool,
    committed: bool,
    departed: bool,
    arrived: bool,
    atDestination: bool,
    handedOff: bool)

  ghost function MarksOf(items: map<ItemId, Item>, sh: ShipmentId): Marks {
    Marks(
      HasItems(items, sh),
      AllReceived(items, sh),
      AllReached(items, sh, AtLeastProcessed),
      AllReached(items, sh, AtLeastCommitted),
      AllReached(items, sh, AtLeastDeparted),
      AllReached(items, sh, AtLeastArrived),
      AllReached(items, sh, AtLeastAtDestination),
      AllReached(items, sh, HandedOff))
  }

  // What each mark stands for.
  lemma MarksMean(items: map<ItemId, Item>, sh: ShipmentId)
    ensures MarksOf(items, sh).some == HasItems(items, sh)
    ensures MarksOf(items, sh).received == AllReceived(items, sh)
    ensures MarksOf(items, sh).processed == AllReached(items, sh, AtLeastProcessed)
    ensures MarksOf(items, sh).departed == AllReached(items, sh, AtLeastDeparted)
    ensures MarksOf(items, sh).arrived == AllReached(items, sh, AtLeastArrived)
    ensures MarksOf(items, sh).atDestination == AllReached(items, sh, AtLeastAtDestination)
    ensures MarksOf(items, sh).handedOff == AllReached(items, sh, HandedOff)
  {
  }

  // The status a shipment owes its items, stage by stage.
  predicate Owed(m: Marks, st: ShipmentStatus) {
    m.some ==>
      && (m.received ==> Rank(st) >= Rank(WarehouseReceived))
      && (m.processed ==> Rank(st) >= Rank(ReadyForConsolidation))
      && (m.committed ==> Rank(st) >= Rank(ShipmentStatus.Consolidated))
      && (m.departed ==> Rank(st) >= Rank(ShipmentStatus.Departed))
      && (m.arrived ==> Rank(st) >= Rank(ShipmentStatus.ArrivedDestination))
      && (m.atDestination ==> Rank(st) >= Rank(ShipmentStatus.ReadyForPickup))
      && (m.handedOff ==> st.Completed?)
  }

  predicate Ordered(m: Marks) {
    && (m.handedOff ==> m.atDestination)
    && (m.atDestination ==> m.arrived)
    && (m.arrived ==> m.departed)
    && (m.departed ==> m.committed)
    && (m.committed ==> m.processed)
    && (m.processed ==> m.received)
  }

  // Where the changed item already was at a stage, "all are" afterwards means "all were".
  predicate Shrinks(b: Marks, a: Marks, from: Item) {
    && (a.received && from.receivedAt.Some? ==> b.received)
    && (a.processed && Reached(AtLeastProcessed, from.status) ==> b.processed)
    && (a.committed && Reached(AtLeastCommitted, from.status) ==> b.committed)
    && (a.departed && Reached(AtLeastDeparted, from.status) ==> b.departed)
    && (a.arrived && Reached(AtLeastArrived, from.status) ==> b.arrived)
    && (a.atDestination && Reached(AtLeastAtDestination, from.status) ==> b.atDestination)
    && (a.handedOff && Reached(HandedOff, from.status) ==> b.handedOff)
  }

  // The changed item itself holds its shipment back.
  predicate Bounded(a: Marks, to: Item) {
    && (a.received ==> to.receivedAt.Some?)
    && (a.processed ==> Reached(AtLeastProcessed, to.status))
    && (a.committed ==> Reached(AtLeastCommitted, to.status))
    && (a.departed ==> Reached(AtLeastDeparted, to.status))
    && (a.arrived ==> Reached(AtLeastArrived, to.status))
    && (a.atDestination ==> Reached(AtLeastAtDestination, to.status))
    && (a.handedOff ==> Reached(HandedOff, to.status))
  }

  // A change of one item from one status to another, before the rollup.
  predicate Turn(b: Marks, a: Marks, from: Item, to: Item, st: ShipmentStatus) {
    && b.some && a.some
    && Ordered(b) && Ordered(a)
    && Shrinks(b, a, from) && Bounded(a, to)
    && RegularStatus(st) && Owed(b, st)
  }

  predicate Settled(m: Marks, st: ShipmentStatus) {
    RegularStatus(st) && Owed(m, st)
  }

  // --- The links, each one rollup at a time --------------------------------------------

  lemma ReceivedOwes(b: Marks, a: Marks, from: Item, to: Item, st: ShipmentStatus)
    requires Turn(b, a, from, to, st) && to.status.ReceivedOriginWarehouse?
    ensures Settled(a, Last(st, When(PreReceiving(st) && a.received, EventType.ReceivedAtWarehouse, WarehouseReceived)))
  {
  }

  // All received puts the shipment past receiving, so all processed can make it ready.
  lemma ProcessedOwes(b: Marks, a: Marks, from: Item, to: Item, st: ShipmentStatus)
    requires Turn(b, a, from, to, st) && from.receivedAt.Some?
    requires to.status.Processed? || to.status.Exception?
    ensures Settled(a, Last(st, ProcessingRule(st, true, a.processed)))
  {
  }

  // Boarding: the rollup sees the item just committed.
  lemma BoardedOwes(b: Marks, a: Marks, from: Item, to: Item, st: ShipmentStatus, all: bool, removed: EventType)
    requires Turn(b, a, from, to, st) && from.status.Processed? && from.receivedAt.Some?
    requires to.status.AssignedToContainer? || to.status.AssignedToManifest?
    ensures Settled(a, Last(st, ConsolidationRule(st, true, all, removed)))
  {
  }

  // Leaving: whatever the rollup still sees, a processed shipment stays at least ready.
  lemma LeftOwes(b: Marks, a: Marks, from: Item, to: Item, st: ShipmentStatus, any: bool, all: bool, removed: EventType)
    requires Turn(b, a, from, to, st) && to.status.Processed? && from.receivedAt.Some?
    requires from.status.AssignedToContainer? || from.status.AssignedToManifest?
    ensures Settled(a, Last(st, ConsolidationRule(st, any, all, removed)))
  {
  }

  // Sealing and finalizing a flight change no mark.
  lemma SealedOwes(b: Marks, a: Marks, from: Item, to: Item, st: ShipmentStatus, all: bool, removed: EventType)
    requires Turn(b, a, from, to, st) && to.status.Loaded? && from.receivedAt.Some?
    requires from.status.AssignedToContainer? || from.status.AssignedToManifest?
    ensures Settled(a, Last(st, ConsolidationRule(st, true, all, removed)))
  {
  }

  // All departed were all committed before, so the shipment is consolidated and may depart.
  lemma DepartedOwes(b: Marks, a: Marks, from: Item, to: Item, st: ShipmentStatus)
    requires Turn(b, a, from, to, st) && from.receivedAt.Some?
    requires from.status.Loaded? && to.status.DepartedOrigin?
    ensures Settled(a, Last(st, When((st.Consolidated? || st.Loaded?) && a.departed,
                                     EventType.DepartedOrigin, ShipmentStatus.Departed)))
  {
  }

  lemma ArrivedOwes(b: Marks, a: Marks, from: Item, to: Item, st: ShipmentStatus)
    requires Turn(b, a, from, to, st) && from.receivedAt.Some?
    requires from.status.DepartedOrigin? && to.status.ArrivedDestination?
    ensures Settled(a, Last(st, When((st.Departed? || st.InTransit?) && a.arrived,
                                     EventType.ArrivedDestination, ShipmentStatus.ArrivedDestination)))
  {
  }

  lemma DestinationOwes(b: Marks, a: Marks, from: Item, to: Item, st: ShipmentStatus)
    requires Turn(b, a, from, to, st) && from.receivedAt.Some? && from.status.ArrivedDestination?
    requires to.status.ReceivedDestinationWarehouse? || to.status.Exception?
    ensures Settled(a, Last(st, When(st.ArrivedDestination? && a.atDestination,
                                     EventType.ReadyForPickup, ShipmentStatus.ReadyForPickup)))
  {
  }

  lemma PickedUpOwes(b: Marks, a: Marks, from: Item, to: Item, st: ShipmentStatus)
    requires Turn(b, a, from, to, st) && from.receivedAt.Some?
    requires from.status.ReceivedDestinationWarehouse? && to.status.PickedUp?
    ensures Settled(a, Completing(st, a.handedOff))
  {
  }

  lemma SentOutOwes(b: Marks, a: Marks, from: Item, to: Item, st: ShipmentStatus, out: bool)
    requires Turn(b, a, from, to, st) && from.receivedAt.Some?
    requires from.status.ReceivedDestinationWarehouse? && to.status.OutForDelivery?
    ensures Settled(a, Last(st, When((st.ArrivedDestination? || st.ReadyForPickup?) && out,
                                     EventType.OutForDelivery, ShipmentStatus.OutForDelivery)))
  {
  }

  lemma DeliveredOwes(b: Marks, a: Marks, from: Item, to: Item, st: ShipmentStatus)
    requires Turn(b, a, from, to, st) && from.receivedAt.Some?
    requires from.status.OutForDelivery? && to.status.Delivered?
    ensures Settled(a, Completing(Delivering(st, a.handedOff), a.handedOff))
  {
  }

  lemma ReturnedOwes(b: Marks, a: Marks, from: Item, to: Item, st: ShipmentStatus)
    requires Turn(b, a, from, to, st) && from.receivedAt.Some? && from.status.OutForDelivery?
    requires to.status.ReceivedDestinationWarehouse? || to.status.Exception?
    ensures Settled(a, st)
  {
  }

  function Delivering(st: ShipmentStatus, all: bool): ShipmentStatus {
    Last(st, When((st.ArrivedDestination? || st.ReadyForPickup? || st.OutForDelivery?) && all,
                  EventType.Delivered, ShipmentStatus.Delivered))
  }

  function Completing(st: ShipmentStatus, all: bool): ShipmentStatus {
    Last(st, When((st.ArrivedDestination? || st.ReadyForPickup? || st.OutForDelivery? || st.Delivered?) && all,
                  EventType.Completed, ShipmentStatus.Completed))
  }

  // --- One item changes ---------------------------------------------------------------

  lemma OthersUnmoved(s: State, t: State, i: ItemId, sh: ShipmentId)
    requires ItemChanged(s, t, i) && sh != s.items[i].shipment
    ensures MarksOf(t.items, sh) == MarksOf(s.items, sh)
  {
    assert forall j :: j in s.items && s.items[j].shipment == sh ==> t.items[j] == s.items[j];
    assert forall j :: j in t.items && t.items[j].shipment == sh ==> t.items[j] == s.items[j];
  }

  lemma WasReached(s: State, t: State, i: ItemId, stage: Stage)
    requires ItemChanged(s, t, i)
    requires AllReached(t.items, s.items[i].shipment, stage)
    ensures Reached(stage, t.items[i].status)
    ensures Reached(stage, s.items[i].status) ==> AllReached(s.items, s.items[i].shipment, stage)
  {
    var sh := s.items[i].shipment;
    assert t.items[i].shipment == sh;
    if Reached(stage, s.items[i].status) {
      forall j | j in s.items && s.items[j].shipment == sh
        ensures Reached(stage, s.items[j].status)
      {
        assert j in t.items && t.items[j].shipment == sh;
      }
    }
  }

  lemma WasReceived(s: State, t: State, i: ItemId)
    requires ItemChanged(s, t, i) && AllReceived(t.items, s.items[i].shipment)
    ensures t.items[i].receivedAt.Some?
    ensures s.items[i].receivedAt.Some? ==> AllReceived(s.items, s.items[i].shipment)
  {
    var sh := s.items[i].shipment;
    assert t.items[i].shipment == sh;
    forall j | j in s.items && s.items[j].shipment == sh && j != i
      ensures s.items[j].receivedAt.Some?
    {
      assert j in t.items && t.items[j].shipment == sh;
    }
  }

  lemma MarksOrdered(items: map<ItemId, Item>, sh: ShipmentId)
    requires RegularItems(items)
    ensures Ordered(MarksOf(items, sh))
  {
  }

  lemma MarksTurn(s: State, t: State, i: ItemId, st: ShipmentStatus)
    requires ItemChanged(s, t, i) && RegularItems(s.items) && RegularItems(t.items)
    requires Settled(MarksOf(s.items, s.items[i].shipment), st)
    ensures Turn(MarksOf(s.items, s.items[i].shipment), MarksOf(t.items, s.items[i].shipment), s.items[i], t.items[i], st)
  {
    var sh := s.items[i].shipment;
    var b, a := MarksOf(s.items, sh), MarksOf(t.items, sh);
    assert HasItems(s.items, sh) && HasItems(t.items, sh) by { assert t.items[i].shipment == sh; }
    MarksOrdered(s.items, sh);
    MarksOrdered(t.items, sh);
    if a.received { WasReceived(s, t, i); }
    if a.processed { WasReached(s, t, i, AtLeastProcessed); }
    if a.committed { WasReached(s, t, i, AtLeastCommitted); }
    if a.departed { WasReached(s, t, i, AtLeastDeparted); }
    if a.arrived { WasReached(s, t, i, AtLeastArrived); }
    if a.atDestination { WasReached(s, t, i, AtLeastAtDestination); }
    if a.handedOff { WasReached(s, t, i, HandedOff); }
  }

  // The last-mile rollups' filter is idle while nothing is cancelled.
  lemma NothingCancelled(items: map<ItemId, Item>, sh: ShipmentId, stage: Stage)
    requires RegularItems(items) && HasItems(items, sh)
    ensures ApplicableReached(items, sh, stage) == AllReached(items, sh, stage)
  {
    var i :| i in items && items[i].shipment == sh;
    assert !items[i].status.Cancelled?;
  }

  // --- A whole load changes -----------------------------------------------------------

  // Every item aboard had the status `from`; i is one of them and stands for all.
  lemma CargoWasReached(s: State, t: State, units: set<Unit>, from: ItemStatus, st: ItemStatus, i: ItemId, stage: Stage)
    requires Wf(s) && CargoTook(s, t, units, st) && CargoIs(s, units, from)
    requires i in s.items && Aboard(s.links, |s.links|, units, i)
    requires AllReached(t.items, s.items[i].shipment, stage)
    ensures Reached(stage, st)
    ensures Reached(stage, from) ==> AllReached(s.items, s.items[i].shipment, stage)
  {
    var sh := s.items[i].shipment;
    assert t.items[i].shipment == sh && t.items[i].status == st;
    forall j | j in s.items && s.items[j].shipment == sh && Reached(stage, from)
      ensures Reached(stage, s.items[j].status)
    {
      assert j in t.items && t.items[j].shipment == sh;
      if Aboard(s.links, |s.links|, units, j) {
        var k :| 0 <= k < |s.links| && Carries(s.links[k], units) && s.links[k].item == j;
        assert s.items[s.links[k].item].status == from;
      }
    }
  }

  lemma CargoKeepsReceipts(s: State, t: State, units: set<Unit>, to: ItemStatus, sh: ShipmentId)
    requires CargoTook(s, t, units, to)
    ensures AllReceived(t.items, sh) == AllReceived(s.items, sh)
    ensures HasItems(t.items, sh) == HasItems(s.items, sh)
  {
    assert forall j :: j in s.items ==>
      t.items[j].receivedAt == s.items[j].receivedAt && t.items[j].shipment == s.items[j].shipment;
    if HasItems(s.items, sh) {
      var j :| j in s.items && s.items[j].shipment == sh;
      assert j in t.items && t.items[j].shipment == sh;
    }
  }

  lemma CargoTurned(s: State, t: State, units: set<Unit>, from: ItemStatus, to: ItemStatus, i: ItemId)
    requires Wf(s) && CargoTook(s, t, units, to) && CargoIs(s, units, from)
    requires i in s.items && Aboard(s.links, |s.links|, units, i)
    ensures i in t.items && s.items[i].status == from && t.items[i].status == to
    ensures t.items[i].shipment == s.items[i].shipment && t.items[i].receivedAt == s.items[i].receivedAt
  {
    var k :| 0 <= k < |s.links| && Carries(s.links[k], units) && s.links[k].item == i;
    assert s.items[s.links[k].item].status == from;
  }

  lemma CargoTurn(s: State, t: State, units: set<Unit>, from: ItemStatus, to: ItemStatus, i: ItemId, st: ShipmentStatus)
    requires Wf(s) && CargoTook(s, t, units, to) && CargoIs(s, units, from)
    requires i in s.items && Aboard(s.links, |s.links|, units, i)
    requires RegularItems(s.items) && RegularItems(t.items)
    requires Settled(MarksOf(s.items, s.items[i].shipment), st)
    ensures s.items[i].status == from && t.items[i].status == to && t.items[i].shipment == s.items[i].shipment
    ensures Turn(MarksOf(s.items, s.items[i].shipment), MarksOf(t.items, s.items[i].shipment), s.items[i], t.items[i], st)
  {
    var sh := s.items[i].shipment;
    var b, a := MarksOf(s.items, sh), MarksOf(t.items, sh);
    CargoTurned(s, t, units, from, to, i);
    CargoKeepsReceipts(s, t, units, to, sh);
    assert HasItems(s.items, sh);
    MarksOrdered(s.items, sh);
    MarksOrdered(t.items, sh);
    if a.processed { CargoWasReached(s, t, units, from, to, i, AtLeastProcessed); }
    if a.committed { CargoWasReached(s, t, units, from, to, i, AtLeastCommitted); }
    if a.departed { CargoWasReached(s, t, units, from, to, i, AtLeastDeparted); }
    if a.arrived { CargoWasReached(s, t, units, from, to, i, AtLeastArrived); }
    if a.atDestination { CargoWasReached(s, t, units, from, to, i, AtLeastAtDestination); }
    if a.handedOff { CargoWasReached(s, t, units, from, to, i, HandedOff); }
  }

  // Shipments without cargo aboard see nothing.
  lemma AshoreUnmoved(s: State, t: State, units: set<Unit>, st: ItemStatus, sh: ShipmentId)
    requires Wf(s) && CargoTook(s, t, units, st) && !Touched(s.links, units, sh)
    ensures MarksOf(t.items, sh) == MarksOf(s.items, sh)
  {
    forall j | j in s.items && s.items[j].shipment == sh
      ensures t.items[j] == s.items[j]
    {
      assert !Aboard(s.links, |s.links|, units, j);
    }
    assert forall j :: j in t.items && t.items[j].shipment == sh ==> t.items[j] == s.items[j];
  }
}
