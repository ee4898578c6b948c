/**
 The printed manifest over whole runs: cargo calls and edits of every text in any order. Once
 finalized, a manifest prints what was approved, and lists what it still carries.
 */
module PrintRuns {
  import opened Basics
  import opened Statuses
  import opened CargoState
  import opened CargoSteps
  import opened CargoRuns
  import opened CargoEffects
  import opened PrintDocument
  import opened PrintDesk
  import Snapshots

  // --- The moment of finalize ---------------------------------------------------------------

  ghost predicate IsJoined(o: Office, it: CargoItem)
    requires Synced(o)
  {
    it.id in o.items && it == Joined(o, it.id)
  }

  lemma {:induction false} BoxedAreJoined(o: Office, containers: seq<LiveContainer>, n: nat)
    requires Synced(o) && n <= |containers|
    requires forall j, i :: 0 <= j < |containers| && 0 <= i < |containers[j].items| ==> IsJoined(o, containers[j].items[i])
    ensures forall k :: 0 <= k < |Boxed(containers, n)| ==> IsJoined(o, Boxed(containers, n)[k].0)
  {
    hide IsJoined;
    if n > 0 {
      BoxedAreJoined(o, containers, n - 1);
      ContentsFreeze(containers[n - 1], |containers[n - 1].items|);
    }
  }

  // Every row of a live manifest is an item row joined with its texts.
  lemma {:induction false} RowsAreJoined(o: Office, m: ManifestId)
    requires Synced(o) && m in o.cargo.manifests
    ensures var rows := Listed(LiveBoxes(o, m), LiveItems(o, m));
      forall k :: 0 <= k < |rows| ==> IsJoined(o, rows[k].0)
  {
    hide ListingOf;
    var boxes, direct := LiveBoxes(o, m), LiveItems(o, m);
    forall j, i | 0 <= j < |boxes| && 0 <= i < |boxes[j].items|
      ensures IsJoined(o, boxes[j].items[i])
    {
    }
    BoxedAreJoined(o, boxes, |boxes|);
    LooseFreeze(direct, |direct|);
  }

  // The items the manifest lists have the same texts in p.
  lemma {:induction false} DetailsAgreeIn(o: Office, p: Office, m: ManifestId)
    requires Synced(o) && Synced(p) && m in o.cargo.manifests
    requires forall i :: i in o.items ==> i in p.items && p.items[i] == o.items[i]
    ensures DetailsAgree(Listed(LiveBoxes(o, m), LiveItems(o, m)), DetailsNow(p))
  {
    hide LiveBoxes, LiveItems, Listed;
    RowsAreJoined(o, m);
  }

  lemma {:induction false} ModeDecides(o: Office, m: ManifestId)
    requires Synced(o) && m in o.cargo.manifests
    ensures if o.cargo.manifests[m].mode.Air? then LiveBoxes(o, m) == [] else LiveItems(o, m) == []
  {
  }

  // --- What one call does to manifests ------------------------------------------------------

  // Past its draft a manifest keeps its containers and its mode; only finalize ends a draft.
  ghost predicate Settles(s: State, t: State, step: Step, m: ManifestId) {
    && (m in s.manifests && !s.manifests[m].status.Draft? ==>
      && m in t.manifests
      && !t.manifests[m].status.Draft?
      && t.manifests[m].mode == s.manifests[m].mode
      && (forall c :: BelongsTo(t.containers, c, m) <==> BelongsTo(s.containers, c, m)))
    && (m in t.manifests && !t.manifests[m].status.Draft? ==>
      (m in s.manifests && !s.manifests[m].status.Draft?) || step == FinalizeStep(m))
  }

  lemma SameTransportsSettle(s: State, t: State, step: Step, m: ManifestId)
    requires t.manifests == s.manifests && t.containers == s.containers
    ensures Settles(s, t, step, m)
  {
  }

  lemma OneContainerSettles(s: State, t: State, c: ContainerId, step: Step, m: ManifestId)
    requires c in s.containers && c in t.containers && t.containers == s.containers[c := t.containers[c]]
    requires t.manifests == s.manifests && t.containers[c].manifest == s.containers[c].manifest
    ensures Settles(s, t, step, m)
  {
  }

  lemma RowSettles(s: State, t: State, call: Call, m: ManifestId)
    requires Wf(s) && Try(s, call) == Ok(t)
    requires call.step.LoadStep? || call.step.UnloadStep? || call.step.AssignItemStep? || call.step.UnassignItemStep?
    ensures Settles(s, t, call.step, m)
  {
    hide Load, Unload, AssignItem, UnassignItem, OneRolled, ItemChanged, NobodyAboard;
    match call.step {
      case LoadStep(c, i) =>
        LoadEffect(s, t, c, i, call.now);
        OneContainerSettles(s, t, c, call.step, m);
      case UnloadStep(c, i) =>
        UnloadEffect(s, t, c, i, call.now);
        OneContainerSettles(s, t, c, call.step, m);
      case AssignItemStep(n, i, conflict) => AssignItemEffect(s, t, n, i, conflict, call.now);
      case UnassignItemStep(n, i) => UnassignItemEffect(s, t, n, i, call.now);
    }
  }

  lemma BulkSettles(s: State, t: State, call: Call, m: ManifestId)
    requires Wf(s) && Try(s, call) == Ok(t)
    requires call.step.SealStep? || call.step.FinalizeStep? || call.step.DepartStep? || call.step.ArriveStep?
    ensures Settles(s, t, call.step, m)
  {
    hide Seal, FinalizeManifest, Depart, Arrive, CargoRolled, CargoIs, CargoTook, EmptyManifest, UnitsOf, ContainersAre;
    match call.step {
      case SealStep(c) => SealEffect(s, t, c, call.now);
      case FinalizeStep(n) => FinalizeEffect(s, t, n, call.now);
      case DepartStep(n) => DepartEffect(s, t, n, call.now);
      case ArriveStep(n) => ArriveEffect(s, t, n, call.now);
    }
  }

  lemma AssignmentSettles(s: State, t: State, call: Call, m: ManifestId)
    requires Wf(s) && Try(s, call) == Ok(t)
    requires call.step.AssignContainerStep? || call.step.UnassignContainerStep?
    ensures Settles(s, t, call.step, m)
  {
    hide AssignContainer, UnassignContainer, Wf;
    match call.step {
      case AssignContainerStep(n, c, conflict) => AssignContainerEffect(s, t, n, c, conflict, call.now);
      case UnassignContainerStep(n, c) => UnassignContainerEffect(s, t, n, c, call.now);
    }
  }

  lemma ContainerSettles(s: State, t: State, call: Call, m: ManifestId)
    requires Wf(s) && Try(s, call) == Ok(t)
    requires call.step.CreateContainerStep? || call.step.OpenStep? || call.step.CloseStep? || call.step.CreateManifestStep?
    ensures Settles(s, t, call.step, m)
  {
  }

  lemma CallSettles(s: State, t: State, call: Call, m: ManifestId)
    requires Wf(s) && Try(s, call) == Ok(t)
    ensures Settles(s, t, call.step, m)
  {
    hide Try, Settles;
    if DeskStep(call.step) {
      DeskStepEffect(s, t, call);
      SameTransportsSettle(s, t, call.step, m);
      return;
    }
    match call.step {
      case LoadStep(_, _) => RowSettles(s, t, call, m);
      case UnloadStep(_, _) => RowSettles(s, t, call, m);
      case AssignItemStep(_, _, _) => RowSettles(s, t, call, m);
      case UnassignItemStep(_, _) => RowSettles(s, t, call, m);
      case SealStep(_) => BulkSettles(s, t, call, m);
      case FinalizeStep(_) => BulkSettles(s, t, call, m);
      case DepartStep(_) => BulkSettles(s, t, call, m);
      case ArriveStep(_) => BulkSettles(s, t, call, m);
      case AssignContainerStep(_, _, _) => AssignmentSettles(s, t, call, m);
      case UnassignContainerStep(_, _) => AssignmentSettles(s, t, call, m);
      case _ => ContainerSettles(s, t, call, m);
    }
  }

  // Finalize takes a draft and leaves none.
  lemma FinalizeEndsDraft(s: State, t: State, call: Call)
    requires Wf(s) && call.step.FinalizeStep? && Try(s, call) == Ok(t)
    ensures var m := call.step.manifest;
      && m in s.manifests && s.manifests[m].status.Draft?
      && m in t.manifests && !t.manifests[m].status.Draft?
      && t.items.Keys == s.items.Keys
  {
    hide FinalizeManifest, CargoRolled, CargoIs, EmptyManifest, UnitsOf, ContainersAre, Aboard;
    FinalizeEffect(s, t, call.step.manifest, call.now);
  }

  // --- Snapshots are stored once ------------------------------------------------------------

  // Exactly the manifests past their draft have a snapshot, and its items still have their rows.
  ghost predicate StoredFor(o: Office, m: ManifestId) {
    && (m in o.snapshots <==> m in o.cargo.manifests && !o.cargo.manifests[m].status.Draft?)
    && (m in o.snapshots ==> RowsExist(o, o.snapshots[m]))
  }

  ghost predicate RowsExist(o: Office, snapshot: Snapshot) {
    forall k :: 0 <= k < |AllFrozenRows(snapshot)| ==> AllFrozenRows(snapshot)[k].0.id in o.items
  }

  ghost predicate Stored(o: Office) {
    forall m :: StoredFor(o, m)
  }

  lemma {:induction false} FrozenRowsExist(o: Office, m: ManifestId)
    requires Synced(o) && m in o.cargo.manifests
    ensures RowsExist(o, Frozen(LiveBoxes(o, m), LiveItems(o, m)))
  {
    hide LiveBoxes, LiveItems, Listed, Frozen, AllFrozenRows;
    RowsAreJoined(o, m);
    RowsFreeze(LiveBoxes(o, m), LiveItems(o, m));
  }

  // What an act keeps of the snapshots that are there.
  ghost predicate Endures(o: Office, p: Office, m: ManifestId) {
    && o.items.Keys <= p.items.Keys
    && o.boxes <= p.boxes
    && (m in o.snapshots ==> m in p.snapshots && p.snapshots[m] == o.snapshots[m])
  }

  lemma {:induction false} FiledKeeps(o: Office, t: State, call: Call, texts: Texts, m: ManifestId)
    requires Synced(o) && StoredFor(o, m) && Try(o.cargo, call) == Ok(t)
    requires call.step.CreateShipmentStep? ==> texts.shipment.customer in o.customers
    ensures var p := Filed(o, t, call, texts); Endures(o, p, m) && StoredFor(p, m)
  {
    hide Try, RowsExist, Frozen, LiveBoxes, LiveItems;
    CallGrows(o.cargo, t, call);
    CallSettles(o.cargo, t, call, m);
    var p := Filed(o, t, call, texts);
    if m in o.snapshots { StillExist(o, p, o.snapshots[m]); }
    if call.step.FinalizeStep? {
      FinalizeEndsDraft(o.cargo, t, call);
      if call.step.manifest == m {
        FrozenRowsExist(o, m);
        StillExist(o, p, p.snapshots[m]);
      }
    }
  }

  lemma StillExist(o: Office, p: Office, snapshot: Snapshot)
    requires RowsExist(o, snapshot) && o.items.Keys <= p.items.Keys
    ensures RowsExist(p, snapshot)
  {
    hide AllFrozenRows;
  }

  lemma {:induction false} ActKeeps(o: Office, act: Act, m: ManifestId)
    requires Synced(o) && StoredFor(o, m)
    ensures var p := Worked(o, act); Endures(o, p, m) && StoredFor(p, m)
  {
    hide RowsExist, Filed, Try;
    match act {
      case Cargo(call, texts) =>
        if call.step.CreateShipmentStep? ==> texts.shipment.customer in o.customers {
          match Try(o.cargo, call) {
            case Ok(t) => FiledKeeps(o, t, call, texts, m);
            case Err(_) =>
          }
        }
      case UpdateItem(_, _, _) => if m in o.snapshots { StillExist(o, Worked(o, act), o.snapshots[m]); }
      case CreateCustomer(_, _) => if m in o.snapshots { StillExist(o, Worked(o, act), o.snapshots[m]); }
      case UpdateCustomer(_, _) => if m in o.snapshots { StillExist(o, Worked(o, act), o.snapshots[m]); }
      case UpdateShipment(_, _) => if m in o.snapshots { StillExist(o, Worked(o, act), o.snapshots[m]); }
    }
  }

  lemma {:induction false} RunsStore(o: Office, acts: seq<Act>, m: ManifestId)
    requires Synced(o) && StoredFor(o, m)
    ensures StoredFor(Onward(o, acts), m)
  {
    if acts != [] {
      hide StoredFor, Worked, Synced;
      RunsStore(o, acts[..|acts| - 1], m);
      ActKeeps(Onward(o, acts[..|acts| - 1]), acts[|acts| - 1], m);
    }
  }

  lemma {:induction false} EnduresOn(o: Office, p: Office, q: Office, m: ManifestId)
    requires Endures(o, p, m) && Endures(p, q, m)
    ensures Endures(o, q, m)
  {
  }

  lemma {:induction false} SnapshotIsKept(o: Office, acts: seq<Act>, m: ManifestId)
    requires Synced(o) && StoredFor(o, m)
    ensures Endures(o, Onward(o, acts), m)
  {
    if acts != [] {
      hide StoredFor, Worked, Synced, Endures;
      var before := acts[..|acts| - 1];
      SnapshotIsKept(o, before, m);
      RunsStore(o, before, m);
      ActKeeps(Onward(o, before), acts[|acts| - 1], m);
      EnduresOn(o, Onward(o, before), Onward(o, acts), m);
    }
  }

  lemma {:induction false} NothingStoredYet(warehouses: set<WarehouseId>, m: ManifestId)
    ensures StoredFor(Opening(warehouses), m)
  {
  }

  lemma {:induction false} OfficesStore(warehouses: set<WarehouseId>, acts: seq<Act>, m: ManifestId)
    ensures StoredFor(RunOffice(warehouses, acts), m)
  {
    hide StoredFor;
    NothingStoredYet(warehouses, m);
    RunsStore(Opening(warehouses), acts, m);
  }

  // --- The printed document over runs -------------------------------------------------------

  // Two lines that differ in nothing but what is read live.
  predicate SameButDetails(a: Line, b: Line) {
    a == b.(description := a.description, quantity := a.quantity)
  }

  // Containers, counts and weights, and every field of every line but description and quantity.
  ghost predicate SamePrint(a: Document, b: Document) {
    && a.containers == b.containers
    && a.summary == b.summary
    && |a.cargo| == |b.cargo|
    && (forall k :: 0 <= k < |a.cargo| ==> SameButDetails(a.cargo[k], b.cargo[k]))
  }

  // Each line shows description and quantity as the item has them now.
  ghost predicate ReadsLive(o: Office, snapshot: Snapshot, d: Document) {
    var rows := AllFrozenRows(snapshot);
    && |d.cargo| == |rows|
    && (forall k :: 0 <= k < |rows| ==>
      && rows[k].0.id in o.items
      && d.cargo[k].description == o.items[rows[k].0.id].description
      && d.cargo[k].quantity == o.items[rows[k].0.id].quantity)
  }

  lemma {:induction false} SnapshotPrints(o: Office, p: Office, m: ManifestId)
    requires Synced(o) && Synced(p) && StoredFor(o, m) && StoredFor(p, m)
    requires m in o.snapshots && m in p.snapshots && p.snapshots[m] == o.snapshots[m]
    ensures Printed(o, m).Ok? && Printed(p, m).Ok?
    ensures SamePrint(Printed(o, m).value, Printed(p, m).value)
    ensures ReadsLive(p, p.snapshots[m], Printed(p, m).value)
  {
    hide AllFrozenRows, Synced;
  }

  // What an accepted finalize of m leaves: the live rows frozen, and no text changed.
  ghost predicate Freezes(o: Office, f: Office, m: ManifestId)
    requires Synced(o)
  {
    && m !in o.snapshots
    && m in o.cargo.manifests
    && m in f.cargo.manifests
    && f.items == o.items
    && f.snapshots == o.snapshots[m := Frozen(LiveBoxes(o, m), LiveItems(o, m))]
  }

  lemma {:induction false} FinalizeFreezes(o: Office, f: Office, m: ManifestId, now: Time, texts: Texts)
    requires Synced(o) && StoredFor(o, m) && Perform(o, Cargo(Call(FinalizeStep(m), now), texts)) == Ok(f)
    ensures Freezes(o, f, m) && StoredFor(f, m)
  {
    hide Try, LiveBoxes, LiveItems, Frozen, RowsExist;
    var call := Call(FinalizeStep(m), now);
    var t := Try(o.cargo, call).value;
    FinalizeEndsDraft(o.cargo, t, call);
    CallGrows(o.cargo, t, call);
    FiledKeeps(o, t, call, texts, m);
  }

  // Finalizing changes nothing about the printed document: the snapshot prints what was printed live.
  lemma {:induction false} FinalizePrintsTheSame(o: Office, f: Office, m: ManifestId)
    requires Synced(o) && Synced(f) && Freezes(o, f, m)
    ensures Printed(o, m).Ok? && Printed(f, m) == Printed(o, m)
  {
    hide LiveBoxes, LiveItems, Listed, Frozen, LiveDocument, FromSnapshot;
    DetailsAgreeIn(o, f, m);
    ModeDecides(o, m);
    SnapshotPrintsLikeLive(o.cargo.manifests[m].mode.Air?, LiveBoxes(o, m), LiveItems(o, m), DetailsNow(f));
  }

  // The draft o and the later office p print the manifest alike.
  ghost predicate PrintsAlike(o: Office, p: Office, m: ManifestId)
    requires Synced(o) && Synced(p)
  {
    && m !in o.snapshots && m in p.snapshots
    && Printed(o, m).Ok? && Printed(p, m).Ok?
    && SamePrint(Printed(o, m).value, Printed(p, m).value)
    && ReadsLive(p, p.snapshots[m], Printed(p, m).value)
  }

  // Whatever calls and edits come after finalize, the manifest prints what its draft printed right
  // before: containers, counts, weights, and every line but description and quantity, which are the
  // item's present ones.
  lemma {:induction false} PrintsWhatWasApproved(o: Office, f: Office, m: ManifestId, more: seq<Act>)
    requires Synced(o) && Synced(f) && Freezes(o, f, m) && StoredFor(f, m)
    ensures PrintsAlike(o, Onward(f, more), m)
  {
    hide StoredFor, Printed, SamePrint, ReadsLive, Synced, Onward;
    FinalizePrintsTheSame(o, f, m);
    RunsStore(f, more, m);
    SnapshotIsKept(f, more, m);
    SnapshotPrints(f, Onward(f, more), m);
  }

  // So it is in every run: any acts, an accepted finalize, any acts.
  lemma {:induction false} EveryRunPrintsWhatWasApproved(warehouses: set<WarehouseId>, acts: seq<Act>, m: ManifestId,
                                                         now: Time, texts: Texts, more: seq<Act>)
    requires Perform(RunOffice(warehouses, acts), Cargo(Call(FinalizeStep(m), now), texts)).Ok?
    ensures PrintsAlike(RunOffice(warehouses, acts),
                        RunOffice(warehouses, acts + [Cargo(Call(FinalizeStep(m), now), texts)] + more), m)
  {
    hide Perform, StoredFor, PrintsAlike, Synced, Freezes;
    var finalize := Cargo(Call(FinalizeStep(m), now), texts);
    var o := RunOffice(warehouses, acts);
    var f := Perform(o, finalize).value;
    OpeningIsSynced(warehouses);
    OfficesStore(warehouses, acts, m);
    FinalizeFreezes(o, f, m, now, texts);
    PrintsWhatWasApproved(o, f, m, more);
    assert (acts + [finalize])[..|acts|] == acts;
    OnwardJoins(Opening(warehouses), acts + [finalize], more);
  }

  lemma OpeningIsSynced(warehouses: set<WarehouseId>)
    ensures Synced(Opening(warehouses))
  {
  }

  lemma {:induction false} OnwardJoins(o: Office, acts: seq<Act>, more: seq<Act>)
    requires Synced(o)
    ensures Onward(o, acts + more) == Onward(Onward(o, acts), more)
  {
    hide Worked, Synced;
    if more == [] {
      assert acts + more == acts;
    } else {
      var n := |more| - 1;
      OnwardJoins(o, acts, more[..n]);
      assert (acts + more)[..|acts| + n] == acts + more[..n];
    }
  }

  // --- The snapshot lists what is carried ---------------------------------------------------

  function Ids(items: seq<FrozenItem>): seq<nat> {
    seq(|items|, k requires 0 <= k < |items| => items[k].id)
  }

  function FrozenListing(snapshot: Snapshot): Listing {
    Listing(
      seq(|snapshot.containers|, k requires 0 <= k < |snapshot.containers| =>
        var c := snapshot.containers[k]; BoxList(Box(c.id, c.number, c.kind), Ids(c.items))),
      Ids(snapshot.items))
  }

  lemma {:induction false} JoinedIds(o: Office, ids: seq<ItemId>)
    requires Synced(o) && forall k :: 0 <= k < |ids| ==> ids[k] in o.items
    ensures Ids(FreezeAll(AllJoined(o, ids))) == ids
  {
  }

  lemma {:induction false} FrozenListsLive(o: Office, m: ManifestId)
    requires Synced(o) && m in o.cargo.manifests
    ensures FrozenListing(Frozen(LiveBoxes(o, m), LiveItems(o, m))) == ListingOf(o.cargo, o.boxes, m)
  {
    hide ListingOf, AllJoined, FreezeAll, Ids, Totals, Listed;
    var listing := ListingOf(o.cargo, o.boxes, m);
    JoinedIds(o, listing.direct);
    forall k | 0 <= k < |listing.boxes|
      ensures Ids(FreezeAll(AllJoined(o, listing.boxes[k].items))) == listing.boxes[k].items
    {
      JoinedIds(o, listing.boxes[k].items);
    }
  }

  // The entries of an approval that ride one unit.
  function OnUnit(approval: Approval, u: Unit): seq<ItemId> {
    if approval == [] then []
    else
      var n := |approval| - 1;
      if approval[n].0 == u then OnUnit(approval[..n], u) + [approval[n].1] else OnUnit(approval[..n], u)
  }

  lemma {:induction false} UnitRows(s: State, n: nat, u: Unit, units: set<Unit>)
    requires Wf(s) && n <= |s.links| && u in units
    ensures ItemsOn(s, n, u) == OnUnit(ApprovedCargo(s.links, n, units), u)
  {
    hide Wf;
    if n > 0 {
      UnitRows(s, n - 1, u, units);
      var before := ApprovedCargo(s.links, n - 1, units);
      var l := s.links[n - 1];
      assert (before + [(l.unit, l.item)])[..|before|] == before;
    }
  }

  lemma {:induction false} SameBoxes(s: State, t: State, boxes: seq<Box>, m: ManifestId)
    requires Wf(s) && Wf(t)
    requires forall c :: BelongsTo(t.containers, c, m) <==> BelongsTo(s.containers, c, m)
    requires forall c :: BelongsTo(s.containers, c, m) ==>
      ItemsOn(t, |t.links|, InContainer(c)) == ItemsOn(s, |s.links|, InContainer(c))
    ensures BoxesOn(t, boxes, m) == BoxesOn(s, boxes, m)
  {
    hide Wf, ItemsOn, BelongsTo;
    if boxes != [] {
      SameBoxes(s, t, boxes[..|boxes| - 1], m);
    }
  }

  lemma {:induction false} NoNewBox(s: State, boxes: seq<Box>, b: Box, m: ManifestId)
    requires Wf(s) && !BelongsTo(s.containers, b.id, m)
    ensures BoxesOn(s, boxes + [b], m) == BoxesOn(s, boxes, m)
  {
    assert (boxes + [b])[..|boxes|] == boxes;
  }

  // What an approved manifest carries is what it carried.
  lemma {:induction false} CarriedStays(s: State, t: State, call: Call, m: ManifestId)
    requires Wf(s) && Try(s, call) == Ok(t) && Snapshots.Frozen(s) && Snapshots.Frozen(t)
    requires m in s.manifests && !s.manifests[m].status.Draft?
    ensures m in t.manifests && Snapshots.Carried(t, m) == Snapshots.Carried(s, m)
  {
    hide Try;
    Snapshots.StepKeepsSnapshot(s, t, call, m);
    assert Snapshots.FrozenFor(s, m) && Snapshots.FrozenFor(t, m);
  }

  lemma {:induction false} ListingStays(s: State, t: State, call: Call, boxes: seq<Box>, m: ManifestId)
    requires Wf(s) && Try(s, call) == Ok(t) && Snapshots.Frozen(s) && Snapshots.Frozen(t)
    requires m in s.manifests && !s.manifests[m].status.Draft?
    ensures m in t.manifests && ListingOf(t, boxes, m) == ListingOf(s, boxes, m)
  {
    hide Try, Wf, ItemsOn, Snapshots.Frozen, ApprovedCargo, OnUnit;
    CarriedStays(s, t, call, m);
    CallSettles(s, t, call, m);
    SameUnitsOf(s, t, m);
    if s.manifests[m].mode.Air? {
      UnitRows(s, |s.links|, OnManifest(m), UnitsOf(s, m));
      UnitRows(t, |t.links|, OnManifest(m), UnitsOf(t, m));
    } else {
      forall c | BelongsTo(s.containers, c, m)
        ensures ItemsOn(t, |t.links|, InContainer(c)) == ItemsOn(s, |s.links|, InContainer(c))
      {
        UnitRows(s, |s.links|, InContainer(c), UnitsOf(s, m));
        UnitRows(t, |t.links|, InContainer(c), UnitsOf(t, m));
      }
      SameBoxes(s, t, boxes, m);
    }
  }

  lemma {:induction false} SameUnitsOf(s: State, t: State, m: ManifestId)
    requires m in s.manifests && m in t.manifests && t.manifests[m].mode == s.manifests[m].mode
    requires forall c :: BelongsTo(t.containers, c, m) <==> BelongsTo(s.containers, c, m)
    ensures UnitsOf(t, m) == UnitsOf(s, m)
    ensures s.manifests[m].mode.Air? ==> OnManifest(m) in UnitsOf(s, m)
    ensures !s.manifests[m].mode.Air? ==> forall c :: BelongsTo(s.containers, c, m) ==> InContainer(c) in UnitsOf(s, m)
  {
    UnitsWithin(s, t, m);
    UnitsWithin(t, s, m);
  }

  lemma {:induction false} UnitsWithin(s: State, t: State, m: ManifestId)
    requires m in s.manifests && m in t.manifests && t.manifests[m].mode == s.manifests[m].mode
    requires forall c :: BelongsTo(s.containers, c, m) ==> BelongsTo(t.containers, c, m)
    ensures UnitsOf(s, m) <= UnitsOf(t, m)
  {
    if !s.manifests[m].mode.Air? {
      forall u | u in UnitsOf(s, m)
        ensures u in UnitsOf(t, m)
      {
        assert BelongsTo(s.containers, u.container, m);
      }
    }
  }

  ghost predicate ListsCargo(o: Office, m: ManifestId)
    requires Synced(o)
  {
    m in o.snapshots && m in o.cargo.manifests ==> FrozenListing(o.snapshots[m]) == ListingOf(o.cargo, o.boxes, m)
  }

  predicate Manual(act: Act) {
    act.Cargo? && act.call.step.ManualStep?
  }

  predicate NoManualActs(acts: seq<Act>) {
    forall k :: 0 <= k < |acts| ==> !Manual(acts[k])
  }

  lemma {:induction false} FiledLists(o: Office, t: State, call: Call, texts: Texts, m: ManifestId)
    requires Synced(o) && StoredFor(o, m) && ListsCargo(o, m) && Try(o.cargo, call) == Ok(t)
    requires Snapshots.Frozen(o.cargo) && Snapshots.Frozen(t)
    requires call.step.CreateShipmentStep? ==> texts.shipment.customer in o.customers
    ensures ListsCargo(Filed(o, t, call, texts), m)
  {
    hide Try, RowsExist, Frozen, LiveBoxes, LiveItems, FrozenListing, Snapshots.Frozen;
    CallSettles(o.cargo, t, call, m);
    if call.step.FinalizeStep? { FinalizeEndsDraft(o.cargo, t, call); }
    if m in o.snapshots {
      ListingStays(o.cargo, t, call, o.boxes, m);
      if call.step.CreateContainerStep? {
        NewContainerIsFree(o.cargo, t, call, m);
        NoNewBox(t, o.boxes, Box(call.step.container, texts.number, texts.kind), m);
      }
    } else if call.step.FinalizeStep? && call.step.manifest == m {
      FrozenListsLive(o, m);
      FinalizedListing(o.cargo, t, call, o.boxes);
    }
  }

  lemma NewContainerIsFree(s: State, t: State, call: Call, m: ManifestId)
    requires Wf(s) && call.step.CreateContainerStep? && Try(s, call) == Ok(t)
    ensures !BelongsTo(t.containers, call.step.container, m)
  {
  }

  // Finalize leaves rows and containers alone.
  lemma {:induction false} FinalizedListing(s: State, t: State, call: Call, boxes: seq<Box>)
    requires Wf(s) && call.step.FinalizeStep? && Try(s, call) == Ok(t)
    ensures var m := call.step.manifest;
      m in s.manifests && m in t.manifests && ListingOf(t, boxes, m) == ListingOf(s, boxes, m)
  {
    hide FinalizeManifest, CargoRolled, CargoIs, CargoTook, EmptyManifest, UnitsOf, ContainersAre, ItemsOn, Wf;
    FinalizeEffect(s, t, call.step.manifest, call.now);
    forall u: Unit
      ensures ItemsOn(t, |t.links|, u) == ItemsOn(s, |s.links|, u)
    {
      SameItemsOn(s, t, |s.links|, u);
    }
    SameBoxes(s, t, boxes, call.step.manifest);
  }

  lemma {:induction false} SameItemsOn(s: State, t: State, n: nat, u: Unit)
    requires Wf(s) && Wf(t) && t.links == s.links && n <= |s.links|
    ensures ItemsOn(t, n, u) == ItemsOn(s, n, u)
  {
    hide Wf;
    if n > 0 {
      SameItemsOn(s, t, n - 1, u);
    }
  }

  lemma {:induction false} ActRuns(o: Office, act: Act)
    requires Synced(o)
    ensures Worked(o, act).cargo == if act.Cargo? && Perform(o, act).Ok? then Next(o.cargo, act.call) else o.cargo
  {
    hide Try;
  }

  // The cargo tables of an office are those of a run.
  lemma {:induction false} CargoIsARun(warehouses: set<WarehouseId>, acts: seq<Act>) returns (calls: seq<Call>)
    requires NoManualActs(acts)
    ensures NoManualEvents(calls) && RunOffice(warehouses, acts).cargo == Run(warehouses, calls)
  {
    if acts == [] {
      calls := [];
    } else {
      var n := |acts| - 1;
      calls := CargoIsARun(warehouses, acts[..n]);
      var o := RunOffice(warehouses, acts[..n]);
      hide Next, Run, Synced, Perform, Worked;
      ActRuns(o, acts[n]);
      if acts[n].Cargo? && Perform(o, acts[n]).Ok? {
        Snapshots.RunExtends(warehouses, calls, acts[n].call);
        calls := calls + [acts[n].call];
      }
    }
  }

  lemma {:induction false} OfficesFreeze(warehouses: set<WarehouseId>, acts: seq<Act>)
    requires NoManualActs(acts)
    ensures Snapshots.Frozen(RunOffice(warehouses, acts).cargo)
  {
    hide Snapshots.Frozen, RunOffice, Run;
    var calls := CargoIsARun(warehouses, acts);
    Snapshots.RunsFreeze(warehouses, calls);
  }

  lemma {:induction false} ActLists(o: Office, act: Act, m: ManifestId)
    requires Synced(o) && StoredFor(o, m) && ListsCargo(o, m)
    requires Snapshots.Frozen(o.cargo) && Snapshots.Frozen(Worked(o, act).cargo)
    ensures ListsCargo(Worked(o, act), m)
  {
    hide Try, Filed, Snapshots.Frozen, StoredFor, ListingOf, FrozenListing;
    if act.Cargo? && Perform(o, act).Ok? {
      var t := Try(o.cargo, act.call).value;
      assert Filed(o, t, act.call, act.texts).cargo == t by { FiledCargo(o, t, act.call, act.texts); }
      FiledLists(o, t, act.call, act.texts, m);
    }
  }

  lemma {:induction false} FiledCargo(o: Office, t: State, call: Call, texts: Texts)
    requires Synced(o) && Try(o.cargo, call) == Ok(t)
    requires call.step.CreateShipmentStep? ==> texts.shipment.customer in o.customers
    ensures Filed(o, t, call, texts).cargo == t
  {
    hide Try;
  }

  lemma {:induction false} RunsList(warehouses: set<WarehouseId>, acts: seq<Act>, m: ManifestId)
    requires NoManualActs(acts)
    ensures ListsCargo(RunOffice(warehouses, acts), m)
  {
    if acts != [] {
      hide StoredFor, Worked, Synced, Snapshots.Frozen, ListingOf, FrozenListing;
      var before := acts[..|acts| - 1];
      RunsList(warehouses, before, m);
      OfficesStore(warehouses, before, m);
      OfficesFreeze(warehouses, before);
      OfficesFreeze(warehouses, acts);
      ActLists(RunOffice(warehouses, before), acts[|acts| - 1], m);
    }
  }

  // In every run of calls and edits, once finalized: the stored snapshot lists the containers and items
  // the manifest carries now, in order, and the approval of the cargo model is its projection on each
  // unit.
  lemma {:induction false} SnapshotListsTheCargo(warehouses: set<WarehouseId>, acts: seq<Act>, m: ManifestId)
    requires NoManualActs(acts) && m in RunOffice(warehouses, acts).snapshots
    ensures var o := RunOffice(warehouses, acts);
      && m in o.cargo.manifests
      && o.cargo.manifests[m].snapshot.Some?
      && (var listing, approval := FrozenListing(o.snapshots[m]), o.cargo.manifests[m].snapshot.value;
          && listing == ListingOf(o.cargo, o.boxes, m)
          && (o.cargo.manifests[m].mode.Air? ==> listing.direct == OnUnit(approval, OnManifest(m)))
          && (forall k :: 0 <= k < |listing.boxes| ==>
            listing.boxes[k].items == OnUnit(approval, InContainer(listing.boxes[k].box.id))))
  {
    hide RunOffice, Synced, Snapshots.Frozen, FrozenListing;
    var o := RunOffice(warehouses, acts);
    OfficesStore(warehouses, acts, m);
    RunsList(warehouses, acts, m);
    OfficesFreeze(warehouses, acts);
    FrozenMeans(o.cargo, m);
    SynchedIsWf(o);
    hide ListingOf, UnitsOf;
    ListingOnUnits(o.cargo, o.boxes, m);
  }

  lemma SynchedIsWf(o: Office)
    requires Synced(o)
    ensures Wf(o.cargo)
  {
  }

  lemma FrozenMeans(s: State, m: ManifestId)
    requires Snapshots.Frozen(s) && m in s.manifests && !s.manifests[m].status.Draft?
    ensures s.manifests[m].snapshot == Some(Snapshots.Carried(s, m))
  {
    assert Snapshots.FrozenFor(s, m);
  }

  lemma {:induction false} ListingOnUnits(s: State, boxes: seq<Box>, m: ManifestId)
    requires Wf(s) && m in s.manifests
    ensures var listing, approval := ListingOf(s, boxes, m), Snapshots.Carried(s, m);
      && (s.manifests[m].mode.Air? ==> listing.direct == OnUnit(approval, OnManifest(m)))
      && (forall k :: 0 <= k < |listing.boxes| ==>
        listing.boxes[k].items == OnUnit(approval, InContainer(listing.boxes[k].box.id)))
  {
    hide Wf, ItemsOn, OnUnit, ApprovedCargo;
    if s.manifests[m].mode.Air? {
      UnitRows(s, |s.links|, OnManifest(m), UnitsOf(s, m));
    } else {
      var list := BoxesOn(s, boxes, m);
      BoxesBelong(s, boxes, m);
      SameUnitsOf(s, s, m);
      forall k | 0 <= k < |list|
        ensures list[k].items == OnUnit(Snapshots.Carried(s, m), InContainer(list[k].box.id))
      {
        assert Entered(s, boxes, m, list[k]);
        UnitRows(s, |s.links|, InContainer(list[k].box.id), UnitsOf(s, m));
      }
    }
  }

  // The entry is a container of the manifest with its rows.
  ghost predicate Entered(s: State, boxes: seq<Box>, m: ManifestId, entry: BoxList)
    requires Wf(s)
  {
    && entry.box in boxes
    && BelongsTo(s.containers, entry.box.id, m)
    && entry.items == ItemsOn(s, |s.links|, InContainer(entry.box.id))
  }

  lemma {:induction false} BoxesBelong(s: State, boxes: seq<Box>, m: ManifestId)
    requires Wf(s)
    ensures forall k :: 0 <= k < |BoxesOn(s, boxes, m)| ==> Entered(s, boxes, m, BoxesOn(s, boxes, m)[k])
  {
    if boxes != [] {
      var n := |boxes| - 1;
      BoxesBelong(s, boxes[..n], m);
      var before := BoxesOn(s, boxes[..n], m);
      forall k | 0 <= k < |before|
        ensures Entered(s, boxes, m, before[k])
      {
        assert Entered(s, boxes[..n], m, before[k]);
      }
    }
  }
}
