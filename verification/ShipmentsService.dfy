/**
 The tables as the services update them in place, the notification writer, and
 ShipmentsService with the single status writer. Every method is proved to leave exactly the
 tables its specification function computes.
 */
module ShipmentsServices {
  import opened Basics
  import opened Statuses
  import opened CargoState
  import opened CargoSteps

  class Database {
    var warehouses: set<WarehouseId>
    var shipments: map<ShipmentId, Shipment>
    var items: map<ItemId, Item>
    var containers: map<ContainerId, Container>
    var manifests: map<ManifestId, Manifest>
    var links: seq<Link>
    var inspections: seq<Inspection>
    var handoffs: seq<Handoff>
    var events: seq<Event>
    var notices: seq<Notice>
    var emails: seq<Email>

    constructor (warehouses: set<WarehouseId>)
      ensures View() == Empty(warehouses)
    {
      this.warehouses := warehouses;
      shipments, items, containers, manifests := map[], map[], map[], map[];
      links, inspections, handoffs, events, notices, emails := [], [], [], [], [], [];
    }

    // The tables as one value.
    function View(): State
      reads this
    {
      State(warehouses, shipments, items, containers, manifests, links, inspections, handoffs, events, notices, emails)
    }
  }

  // A rejected operation has written nothing.
  ghost predicate Follows(before: State, spec: Result<State>, after: State, r: Result<()>) {
    match spec
    case Ok(t) => r == Ok(()) && after == t
    case Err(e) => r == Err(e) && after == before
  }

  // The next row of a bulk write, and that it can be written.
  lemma NextRow(s: State, units: set<Unit>, k: nat, kind: EventType, itemStatus: Option<ItemStatus>,
                wh: Option<WarehouseId>, now: Time)
    requires k < |s.links| && Wf(s) && !Receiving(kind)
    ensures var before, l := TrackCargo(s, units, k, kind, itemStatus, wh, now), s.links[k];
      && before.links == s.links
      && l.item in before.items && before.items[l.item].shipment in before.shipments
      && TrackCargo(s, units, k + 1, kind, itemStatus, wh, now) ==
        if Carries(l, units) then TrackItem(before, l.item, kind, itemStatus, wh, now) else before
  {
    hide TrackItem, Aboard;
  }

  lemma NoRowYet(s: State, units: set<Unit>, kind: EventType, itemStatus: Option<ItemStatus>,
                 wh: Option<WarehouseId>, now: Time)
    requires Wf(s) && !Receiving(kind)
    ensures TrackCargo(s, units, 0, kind, itemStatus, wh, now) == s
  {
  }

  class NotificationsService {
    const db: Database

    constructor (db: Database)
      ensures this.db == db
    {
      this.db := db;
    }

    // The unique dedupe key decides; false is a dedupe hit.
    method GetOrCreateEvent(n: Notice) returns (isNew: bool)
      modifies db
      ensures isNew <==> n !in old(db.notices)
      ensures db.View() == old(db.View()).(notices := if isNew then old(db.notices) + [n] else old(db.notices))
    {
      isNew := n !in db.notices;
      if isNew {
        db.notices := db.notices + [n];
      }
    }

    method NotifyCustomer(sh: ShipmentId, content: Option<Template>)
      requires sh in db.shipments
      modifies db
      ensures db.View() == old(db.View()).(emails :=
          if old(db.shipments)[sh].notifyByEmail && content.Some? then old(db.emails) + [Email(sh, content.value)]
          else old(db.emails))
    {
      if db.shipments[sh].notifyByEmail && content != None {
        db.emails := db.emails + [Email(sh, content.value)];
      }
    }

    method FireShipmentStatusChanged(sh: ShipmentId, st: ShipmentStatus)
      requires sh in db.shipments
      modifies db
      ensures db.View() == Notify(old(db.View()), sh, st)
    {
      if !Notifiable(st) {
        return;
      }
      var isNew := GetOrCreateEvent(Notice(sh, st));
      if !isNew {
        return;
      }
      NotifyCustomer(sh, EmailTemplate(db.handoffs, sh, st));
    }
  }

  class ShipmentsService {
    const db: Database
    const notifications: NotificationsService

    constructor (db: Database, notifications: NotificationsService)
      requires notifications.db == db
      ensures this.db == db && this.notifications == notifications
    {
      this.db := db;
      this.notifications := notifications;
    }

    ghost predicate Wired() {
      notifications.db == db
    }

    // The transaction of createTrackingEvent, and the notification fired after it commits.
    method Record(e: Event, itemStatus: Option<ItemStatus>)
      requires Wired() && Recordable(db.View(), e)
      modifies db
      ensures db.View() == Track(old(db.View()), e, itemStatus)
    {
      db.events := db.events + [e];
      if e.status != None {
        db.shipments := db.shipments[e.shipment := db.shipments[e.shipment].(status := e.status.value)];
      }
      if e.item != None {
        var row := db.items[e.item.value];
        if itemStatus != None {
          row := row.(status := itemStatus.value);
        }
        if Receiving(e.kind) && row.receivedAt == None {
          row := row.(receivedAt := Some(e.at));
        }
        if Receiving(e.kind) && e.warehouse != None {
          row := row.(warehouse := e.warehouse);
        }
        db.items := db.items[e.item.value := row];
      }
      if e.status != None {
        notifications.FireShipmentStatusChanged(e.shipment, e.status.value);
      }
    }

    // The public endpoint: any event a client may write.
    method CreateTrackingEvent(e: Event, itemStatus: Option<ItemStatus>) returns (r: Result<()>)
      requires Wired() && Wf(db.View())
      modifies db
      ensures Follows(old(db.View()), ManualEvent(old(db.View()), e, itemStatus), db.View(), r)
    {
      if e.kind == ShipmentCreated || e.kind == ItemRegistered {
        return Err(BadRequest);
      }
      if itemStatus != None && e.item == None {
        return Err(BadRequest);
      }
      if e.shipment !in db.shipments {
        return Err(NotFound);
      }
      if e.item != None && (e.item.value !in db.items || db.items[e.item.value].shipment != e.shipment) {
        return Err(NotFound);
      }
      if e.warehouse != None && e.warehouse.value !in db.warehouses {
        return Err(NotFound);
      }
      Record(e, itemStatus);
      r := Ok(());
    }

    // An item event of an internal caller, which has looked its rows up already.
    method RecordItem(i: ItemId, kind: EventType, itemStatus: Option<ItemStatus>, wh: Option<WarehouseId>, now: Time)
      requires Wired() && i in db.items && db.items[i].shipment in db.shipments
      modifies db
      ensures db.View() == TrackItem(old(db.View()), i, kind, itemStatus, wh, now)
    {
      Record(Event(db.items[i].shipment, Some(i), kind, None, wh, now), itemStatus);
    }

    // A rollup's event about the shipment itself.
    method RecordStatus(sh: ShipmentId, kind: EventType, st: ShipmentStatus, now: Time)
      requires Wired() && sh in db.shipments
      modifies db
      ensures db.View() == Track(old(db.View()), StatusEvent(sh, kind, st, now), None)
      ensures db.items == old(db.items)
    {
      Record(Event(sh, None, kind, Some(st), None, now), None);
    }

    // The loop every bulk operation runs: one event for each active row of its units.
    method RecordCargo(units: set<Unit>, kind: EventType, itemStatus: Option<ItemStatus>, wh: Option<WarehouseId>, now: Time)
      requires Wired() && Wf(db.View()) && !Receiving(kind)
      modifies db
      ensures db.View() == TrackCargo(old(db.View()), units, |old(db.links)|, kind, itemStatus, wh, now)
    {
      hide TrackItem, Track, TrackCargo, Wf, Aboard, Carries, Receiving;
      ghost var start := db.View();
      NoRowYet(start, units, kind, itemStatus, wh, now);
      for k := 0 to |db.links|
        invariant db.links == start.links
        invariant db.View() == TrackCargo(start, units, k, kind, itemStatus, wh, now)
      {
        NextRow(start, units, k, kind, itemStatus, wh, now);
        if Carries(db.links[k], units) {
          RecordItem(db.links[k].item, kind, itemStatus, wh, now);
        }
      }
    }

    // The distinct shipments among the active rows of the units.
    method AffectedShipments(units: set<Unit>) returns (shs: seq<ShipmentId>)
      ensures shs == Affected(db.links, |db.links|, units)
    {
      shs := [];
      for k := 0 to |db.links|
        invariant shs == Affected(db.links, k, units)
      {
        if Carries(db.links[k], units) && db.links[k].shipment !in shs {
          shs := shs + [db.links[k].shipment];
        }
      }
    }

    // The first active row of the item on the unit.
    method FindActiveRow(u: Unit, i: ItemId) returns (k: nat)
      ensures k == FindRow(db.links, u, i)
    {
      k := 0;
      while k < |db.links| && !ActiveOn(db.links, k, u, i)
        invariant k <= |db.links|
        invariant forall j :: 0 <= j < k ==> !ActiveOn(db.links, j, u, i)
      {
        k := k + 1;
      }
      ghost var found := FindRow(db.links, u, i);
      assert found == |db.links| || ActiveOn(db.links, found, u, i);
      assert k == |db.links| || ActiveOn(db.links, k, u, i);
    }

    method CreateItemWithinTransaction(sh: ShipmentId, i: ItemId, sequence: nat, now: Time)
      requires sh in db.shipments
      modifies db
      ensures db.View() == CreateItem(old(db.View()), sh, i, sequence, now)
    {
      db.items := db.items[i := Item(sh, sequence, Registered, None, None)];
      db.events := db.events + [Event(sh, Some(i), ItemRegistered, None, None, now)];
    }

    method Create(sh: ShipmentId, notifyByEmail: bool, ids: seq<ItemId>, now: Time) returns (r: Result<()>)
      requires Wf(db.View())
      modifies db
      ensures Follows(old(db.View()), CreateShipment(old(db.View()), sh, notifyByEmail, ids, now), db.View(), r)
    {
      if sh in db.shipments || !FreshItems(db.View(), ids) {
        return Err(Conflict);
      }
      db.shipments := db.shipments[sh := Shipment(ShipmentStatus.Draft, notifyByEmail)];
      db.events := db.events + [Event(sh, None, ShipmentCreated, Some(ShipmentStatus.Draft), None, now)];
      ghost var open := db.View();
      for index := 0 to |ids|
        invariant db.View() == CreateItems(open, sh, ids[..index], now)
      {
        CreateItemWithinTransaction(sh, ids[index], index + 1, now);
        assert ids[..index + 1][..index] == ids[..index];
      }
      assert ids[..|ids|] == ids;
      r := Ok(());
    }

    method AddItemTo(sh: ShipmentId, i: ItemId, now: Time) returns (r: Result<()>)
      requires Wf(db.View())
      modifies db
      ensures Follows(old(db.View()), AddItem(old(db.View()), sh, i, now), db.View(), r)
    {
      if sh !in db.shipments {
        return Err(NotFound);
      }
      if i in db.items {
        return Err(Conflict);
      }
      var existingCount := |ItemsOf(db.items, sh)|;
      CreateItemWithinTransaction(sh, i, existingCount + 1, now);
      r := Ok(());
    }
  }
}
