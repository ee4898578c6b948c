/**
 The event log as the record of a shipment: its statuses in order, the notices raised for
 them, and the emails those notices sent. The three are tied together by the single writer,
 so every operation that goes through it keeps them tied.
 */
module Chronicle {
  import opened Basics
  import opened Statuses
  import opened CargoState
  import opened CargoSteps

  // The statuses a shipment went through, oldest first.
  ghost function History(events: seq<Event>, sh: ShipmentId): seq<ShipmentStatus> {
    if events == [] then []
    else
      var n := |events| - 1;
      var before := History(events[..n], sh);
      if events[n].shipment == sh && events[n].status.Some? then before + [events[n].status.value] else before
  }

  lemma HistoryAppended(events: seq<Event>, e: Event, sh: ShipmentId)
    ensures History(events + [e], sh) ==
      if e.shipment == sh && e.status.Some? then History(events, sh) + [e.status.value] else History(events, sh)
  {
    assert (events + [e])[..|events|] == events;
  }

  // The shipment's status is the last one logged.
  ghost predicate Told(shipments: map<ShipmentId, Shipment>, events: seq<Event>) {
    forall sh :: if sh in shipments
      then History(events, sh) != [] && History(events, sh)[|History(events, sh)| - 1] == shipments[sh].status
      else History(events, sh) == []
  }

  // One notice for each shipment and notifiable status in the log, and no other.
  ghost predicate Announced(notices: seq<Notice>, events: seq<Event>) {
    && (forall j, k :: 0 <= j < k < |notices| ==> notices[j] != notices[k])
    && (forall sh, st :: Notice(sh, st) in notices <==> Notifiable(st) && st in History(events, sh))
  }

  // The status each email announces.
  function Behind(t: Template): ShipmentStatus {
    match t
    case ReceivedEmail => WarehouseReceived
    case DepartedEmail => ShipmentStatus.Departed
    case ArrivedEmail => ShipmentStatus.ArrivedDestination
    case ReadyForPickupEmail => ShipmentStatus.ReadyForPickup
    case OutForDeliveryEmail => ShipmentStatus.OutForDelivery
    case DeliveredEmail => ShipmentStatus.Delivered
    case PickedUpEmail => ShipmentStatus.Completed
    case GenericEmail => CustomsCleared
  }

  // No email twice; each one has its notice and a customer who wants email; and each such notice
  // was mailed, except that a completion may stay silent.
  ghost predicate Mailed(shipments: map<ShipmentId, Shipment>, notices: seq<Notice>, emails: seq<Email>) {
    && (forall j, k :: 0 <= j < k < |emails| ==> emails[j] != emails[k])
    && (forall m :: m in emails ==> Notice(m.shipment, Behind(m.template)) in notices)
    && (forall m :: m in emails ==> m.shipment in shipments && shipments[m.shipment].notifyByEmail)
    && (forall m :: Due(shipments, notices, m) ==> m in emails)
  }

  ghost predicate Due(shipments: map<ShipmentId, Shipment>, notices: seq<Notice>, m: Email) {
    && Notice(m.shipment, Behind(m.template)) in notices
    && m.shipment in shipments && shipments[m.shipment].notifyByEmail
    && !m.template.PickedUpEmail?
  }

  ghost predicate Chronicled(s: State) {
    && Told(s.shipments, s.events)
    && Announced(s.notices, s.events)
    && Mailed(s.shipments, s.notices, s.emails)
  }

  // Events, notices and emails are only ever added, and an email only together with its notice.
  ghost predicate Sends(s: State, t: State) {
    && s.events <= t.events
    && (forall n :: n in s.notices ==> n in t.notices)
    && (forall m :: m in s.emails ==> m in t.emails)
    && (forall m :: m in t.emails && m !in s.emails ==> Notice(m.shipment, Behind(m.template)) !in s.notices)
  }

  lemma SendsOn(s: State, s1: State, t: State)
    requires Sends(s, s1) && Sends(s1, t)
    ensures Sends(s, t)
  {
  }

  ghost predicate LawfulHistory(h: seq<ShipmentStatus>) {
    forall k :: 0 < k < |h| ==> LegalMove(h[k - 1], h[k])
  }

  // The statuses a rollup may lead from, and the kind of event that says so.
  predicate Titled(from: ShipmentStatus, kind: EventType, to: ShipmentStatus) {
    match to
    case WarehouseReceived => (from.Draft? || from.QuoteRequested? || from.AwaitingItems?) && kind.ReceivedAtWarehouse?
    case Processing => (from.WarehouseReceived? && kind.Processed?) || (from.ReadyForConsolidation? && kind.Exception?)
    case ReadyForConsolidation =>
      || (from.Processing? && kind.Processed?)
      || (from.Consolidated? && (kind.RemovedFromContainer? || kind.RemovedFromManifest?))
    case Consolidated => from.ReadyForConsolidation? && kind.Consolidated?
    case Loaded => from.Consolidated? && kind.Loaded?
    case Departed => (from.Consolidated? || from.Loaded?) && kind.DepartedOrigin?
    case ArrivedDestination => (from.Departed? || from.InTransit?) && kind.ArrivedDestination?
    case ReadyForPickup => from.ArrivedDestination? && kind.ReadyForPickup?
    case OutForDelivery => (from.ArrivedDestination? || from.ReadyForPickup?) && kind.OutForDelivery?
    case Delivered => (from.ArrivedDestination? || from.ReadyForPickup? || from.OutForDelivery?) && kind.Delivered?
    case Completed =>
      (from.ArrivedDestination? || from.ReadyForPickup? || from.OutForDelivery? || from.Delivered?) && kind.Completed?
    case _ => false
  }

  // The n-th event, if it bears a status: the creation of a draft, or a move that may be made and is
  // called by its name.
  ghost predicate Labelled(events: seq<Event>, n: nat)
    requires n < |events|
  {
    events[n].status.Some? ==>
      var h := History(events[..n], events[n].shipment);
      && events[n].item.None?
      && (if h == [] then events[n].kind.ShipmentCreated? && events[n].status.value.Draft?
          else Titled(h[|h| - 1], events[n].kind, events[n].status.value))
  }

  ghost predicate AllLabelled(events: seq<Event>) {
    forall n :: 0 <= n < |events| ==> Labelled(events, n)
  }

  // Every shipment only ever moved forward, or made one of the two backward moves, and each move is
  // called by its name.
  ghost predicate Lawful(events: seq<Event>) {
    (forall sh :: LawfulHistory(History(events, sh))) && AllLabelled(events)
  }

  lemma LabelledOn(events: seq<Event>, e: Event)
    requires AllLabelled(events) && Labelled(events + [e], |events|)
    ensures AllLabelled(events + [e])
  {
    forall n | 0 <= n < |events|
      ensures Labelled(events + [e], n)
    {
      assert Labelled(events, n);
      assert (events + [e])[..n] == events[..n];
    }
  }

  // A move that may be made, called by its name, about no item.
  predicate LegalEvent(from: ShipmentStatus, e: Event) {
    e.status.Some? ==> LegalMove(from, e.status.value) && Titled(from, e.kind, e.status.value) && e.item.None?
  }

  // --- The single writer --------------------------------------------------------------

  // An event without a status is invisible here.
  lemma SilentEvent(s: State, t: State, e: Event)
    requires e.status.None? && t.events == s.events + [e]
    requires t.shipments == s.shipments && t.notices == s.notices && t.emails == s.emails
    ensures Chronicled(s) ==> Chronicled(t)
    ensures Lawful(s.events) ==> Lawful(t.events)
  {
    forall sh
      ensures History(t.events, sh) == History(s.events, sh)
    {
      HistoryAppended(s.events, e, sh);
    }
    if AllLabelled(s.events) { LabelledOn(s.events, e); }
  }

  // A status-bearing event, before anyone is told.
  lemma StatusEventTold(s: State, t: State, e: Event)
    requires Told(s.shipments, s.events) && e.shipment in s.shipments && e.status.Some?
    requires t.events == s.events + [e]
    requires t.shipments == s.shipments[e.shipment := s.shipments[e.shipment].(status := e.status.value)]
    ensures Told(t.shipments, t.events)
    ensures Lawful(s.events) && LegalEvent(s.shipments[e.shipment].status, e) ==> Lawful(t.events)
  {
    hide History, LegalMove, Titled;
    forall sh
      ensures History(t.events, sh) ==
        if e.shipment == sh then History(s.events, sh) + [e.status.value] else History(s.events, sh)
    {
      HistoryAppended(s.events, e, sh);
    }
    if Lawful(s.events) && LegalEvent(s.shipments[e.shipment].status, e) {
      LawGoesOn(History(s.events, e.shipment), e.status.value);
      assert t.events[..|s.events|] == s.events;
      assert Labelled(t.events, |s.events|);
      LabelledOn(s.events, e);
    }
  }

  lemma LawGoesOn(h: seq<ShipmentStatus>, st: ShipmentStatus)
    requires h != [] && LegalMove(h[|h| - 1], st)
    ensures LawfulHistory(h) ==> LawfulHistory(h + [st])
  {
  }

  // What Notify does to notices and emails once the event is logged.
  lemma NotifyAnnounces(s: State, e: Event, logged: State)
    requires e.status.Some? && e.shipment in s.shipments && logged.events == s.events + [e]
    requires logged.notices == s.notices && logged.emails == s.emails
    requires logged.shipments == s.shipments[e.shipment := s.shipments[e.shipment].(status := e.status.value)]
    requires Announced(s.notices, s.events) && Mailed(s.shipments, s.notices, s.emails)
    ensures var r := Notify(logged, e.shipment, e.status.value);
      Announced(r.notices, r.events) && Mailed(r.shipments, r.notices, r.emails)
  {
    hide Mailed;
    var r := Notify(logged, e.shipment, e.status.value);
    forall sh, st
      ensures Notice(sh, st) in r.notices <==> Notifiable(st) && st in History(r.events, sh)
    {
      HistoryAppended(s.events, e, sh);
    }
    MailedFramed(s.shipments, s.notices, s.emails, e.shipment, e.status.value);
    NotifyMails(logged, e.shipment, e.status.value);
  }

  lemma NotifySends(s: State, sh: ShipmentId, st: ShipmentStatus)
    requires sh in s.shipments
    ensures Sends(s, Notify(s, sh, st))
  {
    if Notifiable(st) && Notice(sh, st) !in s.notices {
      var template := EmailTemplate(s.handoffs, sh, st);
      assert template.Some? ==> Behind(template.value) == st;
    }
  }

  lemma NotifyMails(s: State, sh: ShipmentId, st: ShipmentStatus)
    requires sh in s.shipments && Mailed(s.shipments, s.notices, s.emails)
    ensures var r := Notify(s, sh, st); Mailed(r.shipments, r.notices, r.emails)
  {
    if Notifiable(st) && Notice(sh, st) !in s.notices {
      var r := Notify(s, sh, st);
      var template := EmailTemplate(s.handoffs, sh, st);
      if template.Some? {
        assert Behind(template.value) == st;
        assert Email(sh, template.value) !in s.emails;
      }
      forall m | Due(r.shipments, r.notices, m)
        ensures m in r.emails
      {
        if Notice(m.shipment, Behind(m.template)) in s.notices {
          assert Due(s.shipments, s.notices, m);
        } else {
          assert m.shipment == sh && Behind(m.template) == st && m == Email(sh, template.value);
        }
      }
    }
  }

  // The status written does not matter to the mail.
  lemma MailedFramed(shipments: map<ShipmentId, Shipment>, notices: seq<Notice>, emails: seq<Email>,
                     sh: ShipmentId, st: ShipmentStatus)
    requires sh in shipments && Mailed(shipments, notices, emails)
    ensures Mailed(shipments[sh := shipments[sh].(status := st)], notices, emails)
  {
    forall m | Due(shipments[sh := shipments[sh].(status := st)], notices, m)
      ensures m in emails
    {
      assert Due(shipments, notices, m);
    }
  }

  lemma SentNothing(s: State, t: State)
    requires s.events <= t.events && t.notices == s.notices && t.emails == s.emails
    ensures Sends(s, t)
  {
  }

  lemma TrackChronicles(s: State, e: Event, itemStatus: Option<ItemStatus>)
    requires Recordable(s, e) && Chronicled(s)
    ensures Sends(s, Track(s, e, itemStatus))
    ensures Chronicled(Track(s, e, itemStatus))
    ensures Lawful(s.events) && LegalEvent(s.shipments[e.shipment].status, e) ==> Lawful(Track(s, e, itemStatus).events)
  {
    hide Told, Announced, Mailed, Lawful, Notify, Sends, Titled, LegalMove;
    var t := Track(s, e, itemStatus);
    if e.status.None? {
      SilentEvent(s, t, e);
      SentNothing(s, t);
    } else {
      var stamped := s.(events := s.events + [e], items := t.items);
      var logged := stamped.(
        shipments := s.shipments[e.shipment := s.shipments[e.shipment].(status := e.status.value)]);
      StatusEventTold(s, logged, e);
      NotifyAnnounces(s, e, logged);
      assert t == Notify(logged, e.shipment, e.status.value);
      NotifySends(logged, e.shipment, e.status.value);
      SentNothing(s, logged);
      SendsOn(s, logged, t);
    }
  }

  lemma TrackItemChronicles(s: State, i: ItemId, kind: EventType, itemStatus: Option<ItemStatus>,
                            wh: Option<WarehouseId>, now: Time)
    requires i in s.items && s.items[i].shipment in s.shipments && Chronicled(s)
    ensures Sends(s, TrackItem(s, i, kind, itemStatus, wh, now))
    ensures Chronicled(TrackItem(s, i, kind, itemStatus, wh, now))
    ensures Lawful(s.events) ==> Lawful(TrackItem(s, i, kind, itemStatus, wh, now).events)
  {
    TrackChronicles(s, ItemEvent(s, i, kind, wh, now), itemStatus);
  }

  // --- Rollups ------------------------------------------------------------------------

  // Each move of a rollup starts where the one before it ended.
  predicate LegalMoves(from: ShipmentStatus, moves: seq<Move>)
    decreases |moves|
  {
    moves == [] ||
    (LegalMove(from, moves[0].status) && Titled(from, moves[0].kind, moves[0].status) && LegalMoves(moves[0].status, moves[1..]))
  }

  lemma OneMoveIsLegal(from: ShipmentStatus, condition: bool, kind: EventType, to: ShipmentStatus)
    requires condition ==> LegalMove(from, to) && Titled(from, kind, to)
    ensures LegalMoves(from, When(condition, kind, to))
  {
  }

  lemma RulesAreLegal(st: ShipmentStatus, any: bool, all: bool, removed: EventType)
    ensures LegalMoves(st, ProcessingRule(st, any, all))
    ensures removed.RemovedFromContainer? || removed.RemovedFromManifest? ==>
      LegalMoves(st, ConsolidationRule(st, any, all, removed))
  {
    var p, c := ProcessingRule(st, any, all), ConsolidationRule(st, any, all, removed);
    if |p| == 2 {
      assert p[1..][0] == p[1] && p[1..][1..] == [];
    }
    if |c| == 2 {
      assert c[1..][0] == c[1] && c[1..][1..] == [];
    }
  }

  lemma MovesAreLegal(rollup: Rollup, items: map<ItemId, Item>, sh: ShipmentId, st: ShipmentStatus)
    ensures LegalMoves(st, Moves(rollup, items, sh, st))
  {
    hide AllReceived, AllReached, AnyReached, ApplicableReached, AnyInContainer, AllExactlyLoaded, AnyProcessingActivity;
    hide HasItems, ProcessingRule, ConsolidationRule;
    match rollup {
      case ProcessingRollup =>
        RulesAreLegal(st, AnyProcessingActivity(items, sh), AllReached(items, sh, AtLeastProcessed), NoteAdded);
      case ContainerRollup =>
        RulesAreLegal(st, AnyInContainer(items, sh), AllExactlyLoaded(items, sh), EventType.RemovedFromContainer);
      case ManifestRollup =>
        RulesAreLegal(st, AnyReached(items, sh, AtLeastCommitted), AllReached(items, sh, AtLeastLoaded),
                      EventType.RemovedFromManifest);
      case _ =>
    }
  }

  lemma {:induction false} AdvanceChronicles(s: State, sh: ShipmentId, moves: seq<Move>, now: Time)
    requires sh in s.shipments && Chronicled(s) && LegalMoves(s.shipments[sh].status, moves)
    ensures Sends(s, Advance(s, sh, moves, now))
    ensures Chronicled(Advance(s, sh, moves, now))
    ensures Lawful(s.events) ==> Lawful(Advance(s, sh, moves, now).events)
    decreases |moves|
  {
    hide Chronicled, Lawful, LegalMove, Titled, Sends;
    if moves == [] {
      SentNothing(s, s);
    } else {
      var e := StatusEvent(sh, moves[0].kind, moves[0].status, now);
      TrackChronicles(s, e, None);
      AdvanceChronicles(Track(s, e, None), sh, moves[1..], now);
      SendsOn(s, Track(s, e, None), Advance(s, sh, moves, now));
    }
  }

  lemma RollChronicles(s: State, rollup: Rollup, sh: ShipmentId, now: Time)
    requires sh in s.shipments && Chronicled(s)
    ensures Sends(s, Roll(s, rollup, sh, now))
    ensures Chronicled(Roll(s, rollup, sh, now))
    ensures Lawful(s.events) ==> Lawful(Roll(s, rollup, sh, now).events)
  {
    MovesAreLegal(rollup, s.items, sh, s.shipments[sh].status);
    AdvanceChronicles(s, sh, Moves(rollup, s.items, sh, s.shipments[sh].status), now);
  }

  lemma {:induction false} RollAllChronicles(s: State, rollup: Rollup, shs: seq<ShipmentId>, now: Time)
    requires (forall sh :: sh in shs ==> sh in s.shipments) && Chronicled(s)
    ensures Sends(s, RollAll(s, rollup, shs, now))
    ensures Chronicled(RollAll(s, rollup, shs, now))
    ensures Lawful(s.events) ==> Lawful(RollAll(s, rollup, shs, now).events)
  {
    hide Chronicled, Lawful, Roll, Sends;
    if shs == [] {
      SentNothing(s, s);
    } else {
      var n := |shs| - 1;
      RollAllChronicles(s, rollup, shs[..n], now);
      RollChronicles(RollAll(s, rollup, shs[..n], now), rollup, shs[n], now);
      SendsOn(s, RollAll(s, rollup, shs[..n], now), RollAll(s, rollup, shs, now));
    }
  }

  lemma RollAffectedChronicles(s: State, rollup: Rollup, units: set<Unit>, now: Time)
    requires Wf(s) && Chronicled(s)
    ensures Sends(s, RollAffected(s, rollup, units, now))
    ensures Chronicled(RollAffected(s, rollup, units, now))
    ensures Lawful(s.events) ==> Lawful(RollAffected(s, rollup, units, now).events)
  {
    RollAllChronicles(s, rollup, Affected(s.links, |s.links|, units), now);
  }

  // --- Bulk writing and creation --------------------------------------------------------

  lemma {:induction false} TrackCargoChronicles(s: State, units: set<Unit>, n: nat, kind: EventType,
                                                itemStatus: Option<ItemStatus>, wh: Option<WarehouseId>, now: Time)
    requires n <= |s.links| && Wf(s) && !Receiving(kind) && Chronicled(s)
    ensures Sends(s, TrackCargo(s, units, n, kind, itemStatus, wh, now))
    ensures Chronicled(TrackCargo(s, units, n, kind, itemStatus, wh, now))
    ensures Lawful(s.events) ==> Lawful(TrackCargo(s, units, n, kind, itemStatus, wh, now).events)
  {
    hide Chronicled, Lawful, TrackItem, Receiving, Aboard, Sends;
    if n == 0 {
      SentNothing(s, s);
    } else {
      TrackCargoChronicles(s, units, n - 1, kind, itemStatus, wh, now);
      var before := TrackCargo(s, units, n - 1, kind, itemStatus, wh, now);
      if Carries(s.links[n - 1], units) {
        TrackItemChronicles(before, s.links[n - 1].item, kind, itemStatus, wh, now);
        SendsOn(s, before, TrackCargo(s, units, n, kind, itemStatus, wh, now));
      }
    }
  }

  lemma CreateItemChronicles(s: State, sh: ShipmentId, i: ItemId, sequence: nat, now: Time)
    requires sh in s.shipments && Chronicled(s)
    ensures Sends(s, CreateItem(s, sh, i, sequence, now))
    ensures Chronicled(CreateItem(s, sh, i, sequence, now))
    ensures Lawful(s.events) ==> Lawful(CreateItem(s, sh, i, sequence, now).events)
  {
    SilentEvent(s, CreateItem(s, sh, i, sequence, now), Event(sh, Some(i), ItemRegistered, None, None, now));
  }

  lemma {:induction false} CreateItemsChronicles(s: State, sh: ShipmentId, ids: seq<ItemId>, now: Time)
    requires sh in s.shipments && Chronicled(s)
    ensures Sends(s, CreateItems(s, sh, ids, now))
    ensures Chronicled(CreateItems(s, sh, ids, now))
    ensures Lawful(s.events) ==> Lawful(CreateItems(s, sh, ids, now).events)
  {
    hide Chronicled, Lawful, CreateItem, Sends;
    if ids == [] {
      SentNothing(s, s);
    } else {
      var n := |ids| - 1;
      CreateItemsChronicles(s, sh, ids[..n], now);
      CreateItemChronicles(CreateItems(s, sh, ids[..n], now), sh, ids[n], n + 1, now);
      SendsOn(s, CreateItems(s, sh, ids[..n], now), CreateItems(s, sh, ids, now));
    }
  }

  lemma OpenedHistory(s: State, sh: ShipmentId, notifyByEmail: bool, now: Time, other: ShipmentId)
    requires sh !in s.shipments && Told(s.shipments, s.events)
    ensures History(OpenShipment(s, sh, notifyByEmail, now).events, other) ==
      if other == sh then [ShipmentStatus.Draft] else History(s.events, other)
  {
    HistoryAppended(s.events, Event(sh, None, ShipmentCreated, Some(ShipmentStatus.Draft), None, now), other);
    if other == sh { assert History(s.events, sh) == []; }
  }

  // Nobody was ever told about a shipment that did not exist.
  lemma OpenedMailed(s: State, sh: ShipmentId, row: Shipment)
    requires sh !in s.shipments && Chronicled(s)
    ensures Mailed(s.shipments[sh := row], s.notices, s.emails)
  {
    assert History(s.events, sh) == [];
    forall m | Due(s.shipments[sh := row], s.notices, m)
      ensures m in s.emails
    {
      assert m.shipment != sh;
      assert Due(s.shipments, s.notices, m);
    }
  }

  lemma OpenShipmentChronicles(s: State, sh: ShipmentId, notifyByEmail: bool, now: Time)
    requires sh !in s.shipments && Chronicled(s)
    ensures Sends(s, OpenShipment(s, sh, notifyByEmail, now))
    ensures Chronicled(OpenShipment(s, sh, notifyByEmail, now))
    ensures Lawful(s.events) ==> Lawful(OpenShipment(s, sh, notifyByEmail, now).events)
  {
    hide Mailed, History, LawfulHistory;
    var t := OpenShipment(s, sh, notifyByEmail, now);
    forall other
      ensures History(t.events, other) == if other == sh then [ShipmentStatus.Draft] else History(s.events, other)
    {
      OpenedHistory(s, sh, notifyByEmail, now, other);
    }
    assert History(s.events, sh) == [];
    OpenedMailed(s, sh, Shipment(ShipmentStatus.Draft, notifyByEmail));
    OneStatusIsLawful(ShipmentStatus.Draft);
    var e := Event(sh, None, ShipmentCreated, Some(ShipmentStatus.Draft), None, now);
    assert (s.events + [e])[..|s.events|] == s.events;
    if AllLabelled(s.events) { LabelledOn(s.events, e); }
    assert Told(t.shipments, t.events);
    assert Announced(t.notices, t.events);
  }

  lemma OneStatusIsLawful(st: ShipmentStatus)
    ensures LawfulHistory([st])
  {
  }
}
