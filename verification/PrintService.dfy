/**
 The edits of ShipmentsService and CustomersService, and ManifestsService's printing, in place:
 the text tables beside the cargo tables, each method leaving what its specification says.
 */
module PrintServices {
  import opened Basics
  import opened Statuses
  import opened CargoState
  import opened CargoSteps
  import opened CargoRuns
  import opened CargoApis
  import opened PrintDocument
  import opened PrintDesk
  import ShipmentsServices

  // A refused act has changed nothing.
  ghost predicate Does(before: Office, act: Act, after: Office, r: Result<()>)
    requires Synced(before)
  {
    match Perform(before, act)
    case Ok(p) => r == Ok(()) && after == p
    case Err(e) => r == Err(e) && after == before
  }

  class PrintTables {
    const api: CargoApi
    var customers: map<CustomerId, string>
    var shipments: map<ShipmentId, ShipmentText>
    var items: map<ItemId, ItemText>
    var boxes: seq<Box>
    var snapshots: map<ManifestId, Snapshot>

    constructor (warehouses: set<WarehouseId>)
      ensures api.Wired() && View() == Opening(warehouses)
    {
      api := new CargoApi(warehouses);
      customers, shipments, items, boxes, snapshots := map[], map[], map[], [], map[];
    }

    function View(): Office
      reads this, api.db
    {
      Office(api.db.View(), customers, shipments, items, boxes, snapshots)
    }

    method UpdateCustomerName(c: CustomerId, name: string) returns (r: Result<()>)
      requires Synced(View())
      modifies this
      ensures Does(old(View()), UpdateCustomer(c, name), View(), r)
    {
      if c !in customers {
        return Err(NotFound);
      }
      customers := customers[c := name];
      r := Ok(());
    }

    method Update(sh: ShipmentId, location: Option<string>) returns (r: Result<()>)
      requires Synced(View())
      modifies this
      ensures Does(old(View()), UpdateShipment(sh, location), View(), r)
    {
      if sh !in shipments {
        return Err(NotFound);
      }
      if location != None {
        shipments := shipments[sh := shipments[sh].(location := location)];
      }
      r := Ok(());
    }

    // No look at the item's status, or at the manifest it is on.
    method UpdateItemText(sh: ShipmentId, i: ItemId, patch: Patch) returns (r: Result<()>)
      requires Synced(View())
      modifies this
      ensures Does(old(View()), UpdateItem(sh, i, patch), View(), r)
    {
      if i !in items || api.db.items[i].shipment != sh {
        return Err(NotFound);
      }
      items := items[i := Patched(items[i], patch)];
      r := Ok(());
    }

    // The rows of one unit with their texts, in the order of the table.
    method FindRows(u: Unit) returns (rows: seq<CargoItem>)
      requires Synced(View())
      ensures rows == AllJoined(View(), ItemsOn(api.db.View(), |api.db.links|, u))
    {
      rows := [];
      for k := 0 to |api.db.links|
        invariant rows == AllJoined(View(), ItemsOn(api.db.View(), k, u))
      {
        var l := api.db.links[k];
        if l.active && l.unit == u {
          rows := rows + [Joined(View(), l.item)];
        }
      }
    }

    method FindContainers(m: ManifestId) returns (containers: seq<LiveContainer>)
      requires Synced(View()) && m in api.db.manifests && !api.db.manifests[m].mode.Air?
      ensures containers == LiveBoxes(View(), m)
    {
      hide ItemsOn, Joined, Wf;
      containers := [];
      for k := 0 to |boxes|
        invariant |containers| == |BoxesOn(api.db.View(), boxes[..k], m)|
        invariant forall j :: 0 <= j < |containers| ==>
          containers[j] == LiveBox(View(), BoxesOn(api.db.View(), boxes[..k], m)[j])
      {
        var box := boxes[k];
        assert boxes[..k + 1][..k] == boxes[..k];
        if BelongsTo(api.db.containers, box.id, m) {
          var rows := FindRows(InContainer(box.id));
          containers := containers + [LiveContainer(box.id, box.number, box.kind, rows)];
        }
      }
      assert boxes[..|boxes|] == boxes;
    }

    method GetPrintDocument(m: ManifestId) returns (r: Result<Document>)
      requires Synced(View())
      ensures r == Printed(View(), m)
    {
      hide ItemsOn, Joined, BoxesOn, Synced;
      if m !in api.db.manifests {
        return Err(NotFound);
      }
      if m in snapshots {
        var doc := BuildPrintDataFromSnapshot(snapshots[m], DetailsNow(View()));
        return Ok(doc);
      }
      var containers: seq<LiveContainer>, direct: seq<CargoItem> := [], [];
      if api.db.manifests[m].mode == Air {
        direct := FindRows(OnManifest(m));
      } else {
        containers := FindContainers(m);
      }
      var doc := BuildPrintDataFromLive(api.db.manifests[m].mode == Air, containers, direct);
      r := Ok(doc);
    }

    // What finalize would freeze, from the rows as they are.
    method SnapshotFor(m: ManifestId) returns (snapshot: Snapshot)
      requires Synced(View()) && m in api.db.manifests
      ensures snapshot == Frozen(LiveBoxes(View(), m), LiveItems(View(), m))
    {
      hide ItemsOn, Joined, BoxesOn, Wf, Frozen;
      var containers: seq<LiveContainer>, direct: seq<CargoItem> := [], [];
      if api.db.manifests[m].mode == Air {
        direct := FindRows(OnManifest(m));
      } else {
        containers := FindContainers(m);
      }
      assert containers == LiveBoxes(View(), m) && direct == LiveItems(View(), m);
      snapshot := BuildFinalizeSnapshot(containers, direct);
    }

    // The snapshot is built before the call, and stored if the call is accepted.
    method HandleCargo(call: Call, texts: Texts) returns (r: Result<()>)
      requires Synced(View()) && api.Wired()
      modifies this, api.db
      ensures Does(old(View()), Cargo(call, texts), View(), r)
    {
      hide Try, Wf, Frozen, LiveBoxes, LiveItems, FiledItems, FiledShipments;
      if call.step.CreateShipmentStep? && texts.shipment.customer !in customers {
        return Err(NotFound);
      }
      var finalizing := call.step.FinalizeStep? && call.step.manifest in api.db.manifests;
      var stored := snapshots;
      if finalizing {
        var snapshot := SnapshotFor(call.step.manifest);
        stored := stored[call.step.manifest := snapshot];
      }
      ghost var before := View();
      r := api.Handle(call);
      if r.Ok? {
        shipments := FiledShipments(shipments, api.db.View(), texts);
        items := FiledItems(items, api.db.View(), call.step, texts);
        if call.step.CreateContainerStep? {
          boxes := boxes + [Box(call.step.container, texts.number, texts.kind)];
        }
        snapshots := stored;
      }
    }
  }
}
