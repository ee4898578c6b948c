/**
 The four services behind one door: whatever calls arrive, in whatever order, the tables are
 those of the run the theorems speak about.
 */
module CargoApis {
  import opened Basics
  import opened Statuses
  import opened CargoState
  import opened CargoSteps
  import opened CargoRuns
  import opened ShipmentsServices
  import opened WarehouseServices
  import opened ContainersServices
  import opened ManifestsServices

  class CargoApi {
    const db: Database
    const shipments: ShipmentsService
    const warehouse: WarehouseService
    const containers: ContainersService
    const manifests: ManifestsService

    constructor (warehouses: set<WarehouseId>)
      ensures Wired() && db.View() == Empty(warehouses)
    {
      var tables := new Database(warehouses);
      var notifications := new NotificationsService(tables);
      var writer := new ShipmentsService(tables, notifications);
      db := tables;
      shipments := writer;
      warehouse := new WarehouseService(tables, writer);
      containers := new ContainersService(tables, writer);
      manifests := new ManifestsService(tables, writer);
    }

    ghost predicate Wired() {
      && shipments.Wired() && shipments.db == db
      && warehouse.Wired() && warehouse.db == db
      && containers.Wired() && containers.db == db
      && manifests.Wired() && manifests.db == db
    }

    method HandleWarehouse(call: Call) returns (r: Result<()>)
      requires Wired() && Wf(db.View())
      requires call.step.ReceiveStep? || call.step.ProcessStep? || call.step.DestinationReceiveStep?
        || call.step.PickUpStep? || call.step.SendOutStep? || call.step.DeliverStep? || call.step.ReturnStep?
      modifies db
      ensures Follows(old(db.View()), Try(old(db.View()), call), db.View(), r)
    {
      hide Receive, Process, DestinationReceive, PickUp, SendOut, Deliver, Return, Wf, Follows;
      hide CreateShipment, AddItem, ManualEvent, CreateContainer, Load, Unload, Seal, OpenContainer, CloseContainer;
      hide CreateManifest, AssignContainer, UnassignContainer, AssignItem, UnassignItem, FinalizeManifest, Depart, Arrive;
      match call.step {
        case ReceiveStep(i, wh) => r := warehouse.ReceiveItem(i, wh, call.now);
        case ProcessStep(i, wh, again, f) => r := warehouse.ProcessItem(i, wh, again, f, call.now);
        case DestinationReceiveStep(i, wh, d, x, e) => r := warehouse.DestinationReceiveItem(i, wh, d, x, e, call.now);
        case PickUpStep(i, wh) => r := warehouse.PickupItem(i, wh, call.now);
        case SendOutStep(i, wh, carrier) => r := warehouse.DispatchItem(i, wh, carrier, call.now);
        case DeliverStep(i, wh, carrier) => r := warehouse.DeliverItem(i, wh, carrier, call.now);
        case ReturnStep(i, wh, x) => r := warehouse.ReturnItem(i, wh, x, call.now);
      }
    }

    method HandleManifests(call: Call) returns (r: Result<()>)
      requires Wired() && Wf(db.View())
      requires call.step.CreateManifestStep? || call.step.AssignContainerStep? || call.step.UnassignContainerStep?
        || call.step.AssignItemStep? || call.step.UnassignItemStep? || call.step.FinalizeStep?
        || call.step.DepartStep? || call.step.ArriveStep?
      modifies db
      ensures Follows(old(db.View()), Try(old(db.View()), call), db.View(), r)
    {
      hide Receive, Process, DestinationReceive, PickUp, SendOut, Deliver, Return, Wf, Follows;
      hide CreateShipment, AddItem, ManualEvent, CreateContainer, Load, Unload, Seal, OpenContainer, CloseContainer;
      hide CreateManifest, AssignContainer, UnassignContainer, AssignItem, UnassignItem, FinalizeManifest, Depart, Arrive;
      match call.step {
        case CreateManifestStep(m, mode, wh, t) => r := manifests.Create(m, mode, wh, t);
        case AssignContainerStep(m, c, conflict) => r := manifests.AssignContainerTo(m, c, conflict, call.now);
        case UnassignContainerStep(m, c) => r := manifests.UnassignContainerFrom(m, c, call.now);
        case AssignItemStep(m, i, conflict) => r := manifests.AssignItemTo(m, i, conflict, call.now);
        case UnassignItemStep(m, i) => r := manifests.UnassignItemFrom(m, i, call.now);
        case FinalizeStep(m) => r := manifests.Finalize(m, call.now);
        case DepartStep(m) => r := manifests.DepartManifest(m, call.now);
        case ArriveStep(m) => r := manifests.ArriveManifest(m, call.now);
      }
    }

    method Handle(call: Call) returns (r: Result<()>)
      requires Wired() && Wf(db.View())
      modifies db
      ensures Follows(old(db.View()), Try(old(db.View()), call), db.View(), r)
      ensures db.View() == Next(old(db.View()), call)
    {
      hide Receive, Process, DestinationReceive, PickUp, SendOut, Deliver, Return, Wf;
      hide CreateShipment, AddItem, ManualEvent, CreateContainer, Load, Unload, Seal, OpenContainer, CloseContainer;
      hide CreateManifest, AssignContainer, UnassignContainer, AssignItem, UnassignItem, FinalizeManifest, Depart, Arrive;
      match call.step {
        case CreateShipmentStep(sh, email, ids) => r := shipments.Create(sh, email, ids, call.now);
        case AddItemStep(sh, i) => r := shipments.AddItemTo(sh, i, call.now);
        case ManualStep(e, itemStatus) => r := shipments.CreateTrackingEvent(e, itemStatus);
        case CreateContainerStep(c, wh) => r := containers.Create(c, wh);
        case LoadStep(c, i) => r := containers.LoadItem(c, i, call.now);
        case UnloadStep(c, i) => r := containers.UnloadItem(c, i, call.now);
        case SealStep(c) => r := containers.Finalize(c, call.now);
        case OpenStep(c) => r := containers.OpenForUnloading(c);
        case CloseStep(c) => r := containers.CloseUnloading(c);
        case CreateManifestStep(_, _, _, _) => r := HandleManifests(call);
        case AssignContainerStep(_, _, _) => r := HandleManifests(call);
        case UnassignContainerStep(_, _) => r := HandleManifests(call);
        case AssignItemStep(_, _, _) => r := HandleManifests(call);
        case UnassignItemStep(_, _) => r := HandleManifests(call);
        case FinalizeStep(_) => r := HandleManifests(call);
        case DepartStep(_) => r := HandleManifests(call);
        case ArriveStep(_) => r := HandleManifests(call);
        case _ => r := HandleWarehouse(call);
      }
    }

    // Any stream of calls takes the tables along the run.
    method Serve(calls: seq<Call>)
      requires Wired() && Wf(db.View())
      modifies db
      ensures db.View() == RunFrom(old(db.View()), calls)
    {
      hide Wf, Next;
      for k := 0 to |calls|
        invariant db.View() == RunFrom(old(db.View()), calls[..k])
      {
        var _ := Handle(calls[k]);
        assert calls[..k + 1][..k] == calls[..k];
      }
      assert calls[..|calls|] == calls;
    }
  }
}
