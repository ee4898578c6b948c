/**
 What a draft prints, line by line and in total, and what each edit changes of it.
 */
module PrintLaws {
  import opened Basics
  import opened CargoState
  import opened CargoSteps
  import opened CargoRuns
  import opened CargoEffects
  import opened Numbering
  import opened PrintDocument
  import opened PrintDesk

  // --- The destination --------------------------------------------------------------------

  function NonEmpty(parts: seq<string>): seq<string> {
    if parts == [] then [] else (if parts[0] == "" then [] else [parts[0]]) + NonEmpty(parts[1..])
  }

  function Join(parts: seq<string>, separator: string): string {
    if parts == [] then ""
    else if |parts| == 1 then parts[0]
    else parts[0] + separator + Join(parts[1..], separator)
  }

  function Present(location: Option<string>): string {
    if location.Some? then location.value else ""
  }

  // The label joins what there is of location and country.
  lemma {:induction false} LabelJoinsWhatThereIs(location: Option<string>, country: string)
    ensures DestinationLabel(location, country) == Join(NonEmpty([Present(location), country]), ", ")
  {
    var l := Present(location);
    assert [l, country][1..] == [country] && [country][1..] == [];
    assert NonEmpty([country]) == if country == "" then [] else [country];
    assert [l, country][1..] == [country];
  }

  // --- Lines ------------------------------------------------------------------------------

  type Row = (ItemId, Option<string>)

  // The items a listing names with the container they ride in, box by box.
  function Flat(listing: Listing): seq<Row> {
    BoxRows(listing.boxes, |listing.boxes|) + Rows(listing.direct, None)
  }

  function Rows(items: seq<ItemId>, container: Option<string>): (r: seq<Row>) {
    seq(|items|, k requires 0 <= k < |items| => (items[k], container))
  }

  function BoxRows(boxes: seq<BoxList>, n: nat): seq<Row>
    requires n <= |boxes|
  {
    if n == 0 then [] else BoxRows(boxes, n - 1) + Rows(boxes[n - 1].items, Some(boxes[n - 1].box.number))
  }

  // The line tells of the item: the code reads back to tracking number and position, and every other
  // field is the one on record.
  predicate Tells(o: Office, row: Row, line: Line) {
    && row.0 in o.items && row.0 in o.cargo.items
    && o.cargo.items[row.0].shipment in o.shipments
    && var item, shipment := o.items[row.0], o.shipments[o.cargo.items[row.0].shipment];
    && shipment.customer in o.customers
    && SplitNumber(line.code) == Some((shipment.trackingNumber, o.cargo.items[row.0].sequence))
    && line.trackingNumber == shipment.trackingNumber
    && line.customerName == o.customers[shipment.customer]
    && ItemText(line.kind, line.description, line.quantity, line.weight, line.weightUnit) == item
    && line.destination == Join(NonEmpty([Present(shipment.location), shipment.country]), ", ")
    && line.container == row.1
  }

  // The row of the document's source behind a listed item.
  ghost predicate Shown(o: Office, row: Row, r: (CargoItem, Option<string>))
    requires Synced(o)
  {
    row.0 in o.items && r == (Joined(o, row.0), row.1)
  }

  ghost predicate AllShown(o: Office, rows: seq<Row>, rs: seq<(CargoItem, Option<string>)>)
    requires Synced(o)
  {
    |rs| == |rows| && forall k :: 0 <= k < |rows| ==> Shown(o, rows[k], rs[k])
  }

  lemma {:induction false} ContentsShown(o: Office, entry: BoxList, n: nat)
    requires Synced(o) && n <= |entry.items| && forall k :: 0 <= k < |entry.items| ==> entry.items[k] in o.items
    ensures AllShown(o, Rows(entry.items[..n], Some(entry.box.number)), Contents(LiveBox(o, entry), n))
  {
    if n > 0 { ContentsShown(o, entry, n - 1); }
  }

  lemma {:induction false} LooseShown(o: Office, items: seq<ItemId>, n: nat)
    requires Synced(o) && n <= |items| && forall k :: 0 <= k < |items| ==> items[k] in o.items
    ensures AllShown(o, Rows(items[..n], None), Loose(AllJoined(o, items), n))
  {
    if n > 0 { LooseShown(o, items, n - 1); }
  }

  lemma {:induction false} BoxedShown(o: Office, boxes: seq<BoxList>, live: seq<LiveContainer>, n: nat)
    requires Synced(o) && n <= |boxes| == |live|
    requires forall j, k :: 0 <= j < |boxes| && 0 <= k < |boxes[j].items| ==> boxes[j].items[k] in o.items
    requires forall j :: 0 <= j < |boxes| ==> live[j] == LiveBox(o, boxes[j])
    ensures AllShown(o, BoxRows(boxes, n), Boxed(live, n))
  {
    if n > 0 {
      hide Synced, LiveBox;
      BoxedShown(o, boxes, live, n - 1);
      var entry := boxes[n - 1];
      ContentsShown(o, entry, |entry.items|);
      SameLength(o, entry);
      assert entry.items[..|entry.items|] == entry.items;
    }
  }

  lemma SameLength(o: Office, entry: BoxList)
    requires Synced(o) && forall k :: 0 <= k < |entry.items| ==> entry.items[k] in o.items
    ensures |LiveBox(o, entry).items| == |entry.items|
  {
  }

  // The rows a live document is made of are the listed items in order.
  lemma {:induction false} ListedShown(o: Office, m: ManifestId)
    requires Synced(o) && m in o.cargo.manifests
    ensures AllShown(o, Flat(ListingOf(o.cargo, o.boxes, m)), Listed(LiveBoxes(o, m), LiveItems(o, m)))
  {
    hide ListingOf;
    var listing := ListingOf(o.cargo, o.boxes, m);
    BoxedShown(o, listing.boxes, LiveBoxes(o, m), |listing.boxes|);
    LooseShown(o, listing.direct, |listing.direct|);
    assert listing.direct[..|listing.direct|] == listing.direct;
  }

  lemma {:induction false} LineTells(o: Office, row: Row, r: (CargoItem, Option<string>))
    requires Synced(o) && Shown(o, row, r)
    ensures Tells(o, row, LiveLine(r.0, r.1))
  {
    hide DestinationLabel, Join, NonEmpty, SplitNumber, FormatItemCode;
    var shipment := o.shipments[o.cargo.items[row.0].shipment];
    LabelJoinsWhatThereIs(shipment.location, shipment.country);
    ItemCodeReadsBack(shipment.trackingNumber, o.cargo.items[row.0].sequence);
  }

  // --- Totals -----------------------------------------------------------------------------

  function CustomerOf(o: Office, i: ItemId): Option<CustomerId> {
    if i in o.cargo.items && o.cargo.items[i].shipment in o.shipments
    then Some(o.shipments[o.cargo.items[i].shipment].customer)
    else None
  }

  ghost function CustomersOf(o: Office, rows: seq<Row>): set<Option<CustomerId>> {
    set k | 0 <= k < |rows| :: CustomerOf(o, rows[k].0)
  }

  // The weights of the items given in this unit, added up.
  function WeightOf(o: Office, rows: seq<Row>, unit: string): real {
    if rows == [] then 0.0
    else
      var n := |rows| - 1;
      var rest := WeightOf(o, rows[..n], unit);
      if rows[n].0 in o.items && o.items[rows[n].0].weightUnit == unit && o.items[rows[n].0].weight.Some?
      then rest + o.items[rows[n].0].weight.value
      else rest
  }

  lemma {:induction false} SameWeight(o: Office, rows: seq<Row>, rs: seq<(CargoItem, Option<string>)>, unit: string)
    requires Synced(o) && AllShown(o, rows, rs)
    ensures WeightIn(rs, unit) == WeightOf(o, rows, unit)
  {
    if rows != [] {
      var n := |rows| - 1;
      assert AllShown(o, rows[..n], rs[..n]);
      assert Shown(o, rows[n], rs[n]);
      SameWeight(o, rows[..n], rs[..n], unit);
    }
  }

  lemma {:induction false} SameCustomers(o: Office, rows: seq<Row>, rs: seq<(CargoItem, Option<string>)>)
    requires Synced(o) && AllShown(o, rows, rs)
    ensures CustomersOf(o, rows) == Wrapped(Customers(rs))
    ensures |CustomersOf(o, rows)| == |Customers(rs)|
  {
    forall k | 0 <= k < |rows|
      ensures CustomerOf(o, rows[k].0) == Some(rs[k].0.customer)
    {
      assert Shown(o, rows[k], rs[k]);
    }
    forall c | c in Customers(rs)
      ensures Some(c) in CustomersOf(o, rows)
    {
      var k :| 0 <= k < |rs| && rs[k].0.customer == c;
      assert CustomerOf(o, rows[k].0) == Some(c);
    }
    SameSize(Customers(rs));
  }

  ghost function Wrapped(cs: set<CustomerId>): set<Option<CustomerId>> {
    set c | c in cs :: Some(c)
  }

  lemma {:induction false} SameSize(cs: set<CustomerId>)
    ensures |Wrapped(cs)| == |cs|
  {
    if cs != {} {
      var c :| c in cs;
      SameSize(cs - {c});
      assert Wrapped(cs) == Wrapped(cs - {c}) + {Some(c)};
    }
  }

  // Counts and weights of the rows.
  ghost predicate Sums(o: Office, boxes: nat, rows: seq<Row>, summary: Summary) {
    && summary.containers == boxes
    && summary.items == |rows|
    && summary.customers == |CustomersOf(o, rows)|
    && (forall unit :: WeightOf(o, rows, unit) == if unit in summary.weightByUnit then summary.weightByUnit[unit] else 0.0)
  }

  lemma {:induction false} TotalsSum(o: Office, boxes: nat, rows: seq<Row>, rs: seq<(CargoItem, Option<string>)>)
    requires Synced(o) && AllShown(o, rows, rs)
    ensures Sums(o, boxes, rows, Totals(boxes, rs))
  {
    hide Synced;
    SameCustomers(o, rows, rs);
    forall unit
      ensures WeightOf(o, rows, unit) == if unit in Weights(rs) then Weights(rs)[unit] else 0.0
    {
      SameWeight(o, rows, rs, unit);
      WeightsNeverMix(rs, unit);
    }
  }

  // What a manifest prints: a head for each listed container, a line for each listed item, and totals.
  ghost predicate PrintsListing(o: Office, listing: Listing, d: Document) {
    var rows := Flat(listing);
    && |d.containers| == |listing.boxes|
    && (forall k :: 0 <= k < |listing.boxes| ==> d.containers[k] == (listing.boxes[k].box.number, listing.boxes[k].box.kind))
    && |d.cargo| == |rows|
    && (forall k :: 0 <= k < |rows| ==> Tells(o, rows[k], d.cargo[k]))
    && Sums(o, |listing.boxes|, rows, d.summary)
  }

  lemma {:induction false} LiveDocumentLists(o: Office, m: ManifestId)
    requires Synced(o) && m in o.cargo.manifests
    ensures LiveDocument(o.cargo.manifests[m].mode.Air?, LiveBoxes(o, m), LiveItems(o, m)) ==
      Document(Heads(LiveBoxes(o, m)), Lines(Listed(LiveBoxes(o, m), LiveItems(o, m))),
               Totals(|LiveBoxes(o, m)|, Listed(LiveBoxes(o, m), LiveItems(o, m))))
  {
    var rows := Listed(LiveBoxes(o, m), LiveItems(o, m));
    assert rows == if o.cargo.manifests[m].mode.Air? then Loose(LiveItems(o, m), |LiveItems(o, m)|)
                   else Boxed(LiveBoxes(o, m), |LiveBoxes(o, m)|);
  }

  // In every office: a draft prints the listed cargo, item by item and in order, with its totals.
  lemma {:induction false} DraftsPrintTheirCargo(o: Office, m: ManifestId)
    requires Synced(o) && m in o.cargo.manifests && m !in o.snapshots
    ensures Printed(o, m).Ok? && PrintsListing(o, ListingOf(o.cargo, o.boxes, m), Printed(o, m).value)
  {
    hide ListingOf, Tells, Sums, Flat, LiveLine, Totals, Listed;
    var listing := ListingOf(o.cargo, o.boxes, m);
    var rows, rs := Flat(listing), Listed(LiveBoxes(o, m), LiveItems(o, m));
    LiveDocumentLists(o, m);
    ListedShown(o, m);
    TotalsSum(o, |listing.boxes|, rows, rs);
    forall k | 0 <= k < |rows|
      ensures Tells(o, rows[k], Lines(rs)[k])
    {
      assert Shown(o, rows[k], rs[k]);
      LineTells(o, rows[k], rs[k]);
    }
  }

  // --- What is listed ---------------------------------------------------------------------

  // A row of this item is active on the unit.
  ghost predicate Rides(s: State, i: ItemId, u: Unit) {
    exists k :: 0 <= k < |s.links| && s.links[k].active && s.links[k].unit == u && s.links[k].item == i
  }

  lemma {:induction false} ItemsOnRide(s: State, n: nat, u: Unit, i: ItemId)
    requires Wf(s) && n <= |s.links|
    ensures i in ItemsOn(s, n, u) <==>
      exists k :: 0 <= k < n && s.links[k].active && s.links[k].unit == u && s.links[k].item == i
  {
    if n > 0 { ItemsOnRide(s, n - 1, u, i); }
  }

  lemma {:induction false} BoxListed(s: State, boxes: seq<Box>, m: ManifestId, b: Box)
    requires Wf(s)
    ensures BoxList(b, ItemsOn(s, |s.links|, InContainer(b.id))) in BoxesOn(s, boxes, m) <==>
      b in boxes && b.id in s.containers && s.containers[b.id].manifest == Some(m)
  {
    if boxes != [] { BoxListed(s, boxes[..|boxes| - 1], m, b); }
  }

  lemma {:induction false} BoxesHoldTheirItems(s: State, boxes: seq<Box>, m: ManifestId, entry: BoxList)
    requires Wf(s) && entry in BoxesOn(s, boxes, m)
    ensures entry.items == ItemsOn(s, |s.links|, InContainer(entry.box.id))
  {
    if boxes != [] && entry in BoxesOn(s, boxes[..|boxes| - 1], m) {
      BoxesHoldTheirItems(s, boxes[..|boxes| - 1], m, entry);
    }
  }

  lemma {:induction false} BoxRowsName(boxes: seq<BoxList>, n: nat, row: Row)
    requires n <= |boxes|
    ensures row in BoxRows(boxes, n) <==>
      exists k :: 0 <= k < n && row.0 in boxes[k].items && row.1 == Some(boxes[k].box.number)
  {
    if n > 0 {
      BoxRowsName(boxes, n - 1, row);
      var last := Rows(boxes[n - 1].items, Some(boxes[n - 1].box.number));
      if row.0 in boxes[n - 1].items {
        var k :| 0 <= k < |boxes[n - 1].items| && boxes[n - 1].items[k] == row.0;
        assert last[k] == (row.0, Some(boxes[n - 1].box.number));
      }
    }
  }

  // The item rides the manifest: directly on a flight, or in a container of it with this number.
  ghost predicate RidesManifest(o: Office, m: ManifestId, row: Row)
    requires m in o.cargo.manifests
  {
    if o.cargo.manifests[m].mode.Air? then row.1.None? && Rides(o.cargo, row.0, OnManifest(m))
    else exists b :: b in o.boxes && RidesBox(o, m, row, b)
  }

  predicate OfManifest(o: Office, m: ManifestId, c: ContainerId) {
    c in o.cargo.containers && o.cargo.containers[c].manifest == Some(m)
  }

  ghost predicate RidesBox(o: Office, m: ManifestId, row: Row, b: Box) {
    OfManifest(o, m, b.id) && row.1 == Some(b.number) && Rides(o.cargo, row.0, InContainer(b.id))
  }

  lemma {:induction false} BoxRowsRide(o: Office, m: ManifestId, row: Row)
    requires Synced(o) && m in o.cargo.manifests
    ensures var boxes := BoxesOn(o.cargo, o.boxes, m);
      row in BoxRows(boxes, |boxes|) <==> exists b :: b in o.boxes && RidesBox(o, m, row, b)
  {
    hide Synced, BoxesOn, ItemsOn, RidesBox;
    assert Wf(o.cargo) by { SyncedIsWf(o); }
    var boxes := BoxesOn(o.cargo, o.boxes, m);
    BoxRowsName(boxes, |boxes|, row);
    if row in BoxRows(boxes, |boxes|) {
      var k :| 0 <= k < |boxes| && row.0 in boxes[k].items && row.1 == Some(boxes[k].box.number);
      var b := boxes[k].box;
      BoxesHoldTheirItems(o.cargo, o.boxes, m, boxes[k]);
      BoxListed(o.cargo, o.boxes, m, b);
      BoxRides(o, m, row, b);
    }
    if b :| b in o.boxes && RidesBox(o, m, row, b) {
      BoxRides(o, m, row, b);
      BoxListed(o.cargo, o.boxes, m, b);
      var entry := BoxList(b, ItemsOn(o.cargo, |o.cargo.links|, InContainer(b.id)));
      var k :| 0 <= k < |boxes| && boxes[k] == entry;
      assert row.0 in boxes[k].items && row.1 == Some(boxes[k].box.number);
    }
  }

  lemma SyncedIsWf(o: Office)
    requires Synced(o)
    ensures Wf(o.cargo)
  {
  }

  lemma BoxRides(o: Office, m: ManifestId, row: Row, b: Box)
    requires Synced(o)
    ensures RidesBox(o, m, row, b) <==>
      OfManifest(o, m, b.id) && row.1 == Some(b.number) && row.0 in ItemsOn(o.cargo, |o.cargo.links|, InContainer(b.id))
  {
    hide ItemsOn;
    ItemsOnRide(o.cargo, |o.cargo.links|, InContainer(b.id), row.0);
  }

  // In every office: a manifest lists an item exactly when the item rides it.
  lemma {:induction false} ListedExactlyWhenAboard(o: Office, m: ManifestId, row: Row)
    requires Synced(o) && m in o.cargo.manifests
    ensures row in Flat(ListingOf(o.cargo, o.boxes, m)) <==> RidesManifest(o, m, row)
  {
    hide BoxesOn, ItemsOn, BoxRows;
    var s := o.cargo;
    if s.manifests[m].mode.Air? {
      ItemsOnRide(s, |s.links|, OnManifest(m), row.0);
      var direct := ItemsOn(s, |s.links|, OnManifest(m));
      assert Flat(ListingOf(s, o.boxes, m)) == Rows(direct, None) by { assert BoxRows([], 0) == [] by { NoBoxRows(); } }
      if row.0 in direct && row.1.None? {
        var k :| 0 <= k < |direct| && direct[k] == row.0;
        assert Rows(direct, None)[k] == row;
      }
    } else {
      BoxRowsRide(o, m, row);
      assert Rows([], None) == [];
    }
  }

  lemma NoBoxRows()
    ensures BoxRows([], 0) == []
  {
  }

  // --- Every container has its box --------------------------------------------------------

  // Only a creation adds a container, and a new one.
  ghost predicate Adds(s: State, t: State, step: Step) {
    && (forall c :: c in t.containers <==> c in s.containers || (step.CreateContainerStep? && step.container == c))
    && (step.CreateContainerStep? ==> step.container !in s.containers)
  }

  lemma RowAdds(s: State, t: State, call: Call)
    requires Wf(s) && Try(s, call) == Ok(t)
    requires call.step.LoadStep? || call.step.UnloadStep? || call.step.AssignItemStep? || call.step.UnassignItemStep?
    ensures Adds(s, t, call.step)
  {
    hide Load, Unload, AssignItem, UnassignItem, OneRolled, ItemChanged, NobodyAboard, Wf;
    match call.step {
      case LoadStep(c, i) => LoadEffect(s, t, c, i, call.now);
      case UnloadStep(c, i) => UnloadEffect(s, t, c, i, call.now);
      case AssignItemStep(m, i, conflict) => AssignItemEffect(s, t, m, i, conflict, call.now);
      case UnassignItemStep(m, i) => UnassignItemEffect(s, t, m, i, call.now);
    }
  }

  lemma BulkAdds(s: State, t: State, call: Call)
    requires Wf(s) && Try(s, call) == Ok(t)
    requires call.step.SealStep? || call.step.FinalizeStep? || call.step.DepartStep? || call.step.ArriveStep?
    ensures Adds(s, t, call.step)
  {
    hide Seal, FinalizeManifest, Depart, Arrive, CargoTook, CargoRolled, CargoIs, EmptyManifest, UnitsOf, ContainersAre, Wf;
    match call.step {
      case SealStep(c) => SealEffect(s, t, c, call.now);
      case FinalizeStep(m) => FinalizeEffect(s, t, m, call.now);
      case DepartStep(m) => DepartEffect(s, t, m, call.now);
      case ArriveStep(m) => ArriveEffect(s, t, m, call.now);
    }
  }

  lemma QuietAdds(s: State, t: State, call: Call)
    requires Wf(s) && Try(s, call) == Ok(t)
    requires call.step.CreateContainerStep? || call.step.CreateManifestStep? || call.step.OpenStep? || call.step.CloseStep?
      || call.step.AssignContainerStep? || call.step.UnassignContainerStep?
    ensures Adds(s, t, call.step)
  {
    hide AssignContainer, UnassignContainer, Wf;
    match call.step {
      case AssignContainerStep(m, c, conflict) => AssignContainerEffect(s, t, m, c, conflict, call.now);
      case UnassignContainerStep(m, c) => UnassignContainerEffect(s, t, m, c, call.now);
      case _ =>
    }
  }

  lemma CallAdds(s: State, t: State, call: Call)
    requires Wf(s) && Try(s, call) == Ok(t)
    ensures Adds(s, t, call.step)
  {
    hide Try, Wf;
    if DeskStep(call.step) {
      DeskStepEffect(s, t, call);
      return;
    }
    match call.step {
      case LoadStep(_, _) => RowAdds(s, t, call);
      case UnloadStep(_, _) => RowAdds(s, t, call);
      case AssignItemStep(_, _, _) => RowAdds(s, t, call);
      case UnassignItemStep(_, _) => RowAdds(s, t, call);
      case SealStep(_) => BulkAdds(s, t, call);
      case FinalizeStep(_) => BulkAdds(s, t, call);
      case DepartStep(_) => BulkAdds(s, t, call);
      case ArriveStep(_) => BulkAdds(s, t, call);
      case _ => QuietAdds(s, t, call);
    }
  }

  // Each container has one box, and each box its container.
  ghost predicate HasItsBox(o: Office) {
    && (forall c :: c in o.cargo.containers ==> BoxedAs(o, c))
    && (forall k :: 0 <= k < |o.boxes| ==> o.boxes[k].id in o.cargo.containers)
    && (forall j, k :: 0 <= j < k < |o.boxes| ==> o.boxes[j].id != o.boxes[k].id)
  }

  ghost predicate BoxedAs(o: Office, c: ContainerId) {
    exists k :: 0 <= k < |o.boxes| && o.boxes[k].id == c
  }

  lemma {:induction false} FiledBoxes(o: Office, t: State, call: Call, texts: Texts)
    requires Synced(o) && HasItsBox(o) && Try(o.cargo, call) == Ok(t)
    requires call.step.CreateShipmentStep? ==> texts.shipment.customer in o.customers
    ensures HasItsBox(Filed(o, t, call, texts))
  {
    hide Try;
    CallAdds(o.cargo, t, call);
    var p := Filed(o, t, call, texts);
    assert o.boxes <= p.boxes;
    forall c | c in t.containers
      ensures BoxedAs(p, c)
    {
      if c in o.cargo.containers {
        var k :| 0 <= k < |o.boxes| && o.boxes[k].id == c;
        assert p.boxes[k].id == c;
      } else {
        assert p.boxes[|o.boxes|].id == c;
      }
    }
  }

  lemma {:induction false} OfficesHaveBoxes(warehouses: set<WarehouseId>, acts: seq<Act>)
    ensures HasItsBox(RunOffice(warehouses, acts))
  {
    if acts != [] {
      hide HasItsBox, Try, Filed, Synced;
      var before := RunOffice(warehouses, acts[..|acts| - 1]);
      var act := acts[|acts| - 1];
      OfficesHaveBoxes(warehouses, acts[..|acts| - 1]);
      if act.Cargo? && Perform(before, act).Ok? {
        FiledBoxes(before, Try(before.cargo, act.call).value, act.call, act.texts);
      } else {
        SameBoxesStay(before, act);
      }
    } else {
      NoBoxesYet(warehouses);
    }
  }

  lemma NoBoxesYet(warehouses: set<WarehouseId>)
    ensures HasItsBox(Opening(warehouses))
  {
  }

  lemma SameBoxesStay(o: Office, act: Act)
    requires Synced(o) && HasItsBox(o) && !(act.Cargo? && Perform(o, act).Ok?)
    ensures HasItsBox(Worked(o, act))
  {
    hide Try, Filed;
  }

  // In every run of calls and edits: a draft's document has a line for an item exactly when the item has
  // an active row on the flight, or in a container of the manifest, whose number the line shows.
  lemma {:induction false} DraftsListWhatRides(warehouses: set<WarehouseId>, acts: seq<Act>, m: ManifestId, i: ItemId)
    requires m in RunOffice(warehouses, acts).cargo.manifests
    ensures var o := RunOffice(warehouses, acts);
      var rows := Flat(ListingOf(o.cargo, o.boxes, m));
      (exists k :: 0 <= k < |rows| && rows[k].0 == i) <==> exists u :: u in UnitsOf(o.cargo, m) && Rides(o.cargo, i, u)
  {
    hide RunOffice, Flat, ListingOf, RidesManifest;
    var o := RunOffice(warehouses, acts);
    OfficesHaveBoxes(warehouses, acts);
    var rows := Flat(ListingOf(o.cargo, o.boxes, m));
    if k :| 0 <= k < |rows| && rows[k].0 == i {
      ListedExactlyWhenAboard(o, m, rows[k]);
      RidesSomeUnit(o, m, rows[k]);
    }
    if u :| u in UnitsOf(o.cargo, m) && Rides(o.cargo, i, u) {
      var row := UnitHasRow(o, m, i, u);
      ListedExactlyWhenAboard(o, m, row);
      var k :| 0 <= k < |rows| && rows[k] == row;
    }
  }

  lemma RidesSomeUnit(o: Office, m: ManifestId, row: Row)
    requires m in o.cargo.manifests && RidesManifest(o, m, row)
    ensures exists u :: u in UnitsOf(o.cargo, m) && Rides(o.cargo, row.0, u)
  {
    hide Rides;
    if !o.cargo.manifests[m].mode.Air? {
      var b :| b in o.boxes && RidesBox(o, m, row, b);
      assert InContainer(b.id) in UnitsOf(o.cargo, m);
    }
  }

  lemma UnitHasRow(o: Office, m: ManifestId, i: ItemId, u: Unit) returns (row: Row)
    requires HasItsBox(o) && m in o.cargo.manifests && u in UnitsOf(o.cargo, m) && Rides(o.cargo, i, u)
    ensures row.0 == i && RidesManifest(o, m, row)
  {
    hide Rides;
    if o.cargo.manifests[m].mode.Air? {
      row := (i, None);
    } else {
      assert BoxedAs(o, u.container);
      var k :| 0 <= k < |o.boxes| && o.boxes[k].id == u.container;
      row := (i, Some(o.boxes[k].number));
      assert RidesBox(o, m, row, o.boxes[k]);
    }
  }

  // --- Edits ------------------------------------------------------------------------------

  // A field that is given is set, and one that is not stays.
  predicate SetTo<T(==)>(given: Option<T>, before: T, after: T) {
    match given
    case Some(value) => after == value
    case None => after == before
  }

  // The item's texts after the edit, field by field.
  predicate Edits(p: Patch, a: ItemText, b: ItemText) {
    && SetTo(p.kind, a.kind, b.kind)
    && SetTo(p.quantity, a.quantity, b.quantity)
    && SetTo(p.weightUnit, a.weightUnit, b.weightUnit)
    && b.description == (if p.description.None? then a.description else p.description)
    && b.weight == (if p.weight.None? then a.weight else p.weight)
  }

  // Only the texts of this item differ.
  ghost predicate OnlyItem(o: Office, p: Office, i: ItemId) {
    && i in o.items && i in p.items
    && p == o.(items := o.items[i := p.items[i]])
  }

  // In every office: an item is edited exactly through its own shipment, and the edit changes the given
  // fields of that item alone.
  lemma ItemIsEditedExactlyThroughItsShipment(o: Office, sh: ShipmentId, i: ItemId, patch: Patch)
    requires Synced(o)
    ensures var r := Perform(o, UpdateItem(sh, i, patch));
      && (r.Ok? <==> i in o.cargo.items && o.cargo.items[i].shipment == sh)
      && (r.Ok? ==> OnlyItem(o, r.value, i) && Edits(patch, o.items[i], r.value.items[i]))
      && (r.Err? ==> r.error == NotFound)
  {
    hide Try, Filed;
  }

  // A name is given to a new customer or changed for a known one, and nothing else changes.
  lemma NamesAreKept(o: Office, c: CustomerId, name: string)
    requires Synced(o)
    ensures var r := Perform(o, CreateCustomer(c, name));
      && (r.Ok? <==> c !in o.customers)
      && (r.Ok? ==> r.value == o.(customers := o.customers + map[c := name]))
      && (r.Err? ==> r.error == Conflict)
    ensures var r := Perform(o, UpdateCustomer(c, name));
      && (r.Ok? <==> c in o.customers)
      && (r.Ok? ==> r.value == o.(customers := o.customers + map[c := name]))
      && (r.Err? ==> r.error == NotFound)
  {
    hide Try, Filed;
  }

  // Only this shipment's destination differs, and only if one was given.
  ghost predicate Moves(o: Office, p: Office, sh: ShipmentId, location: Option<string>) {
    && sh in o.shipments && sh in p.shipments
    && p == o.(shipments := o.shipments[sh := p.shipments[sh]])
    && p.shipments[sh].(location := None) == o.shipments[sh].(location := None)
    && p.shipments[sh].location == (if location.Some? then location else o.shipments[sh].location)
  }

  // A destination is changed for a shipment on file, if one is given.
  lemma DestinationsAreEdited(o: Office, sh: ShipmentId, location: Option<string>)
    requires Synced(o)
    ensures var r := Perform(o, UpdateShipment(sh, location));
      && (r.Ok? <==> sh in o.cargo.shipments)
      && (r.Ok? ==> Moves(o, r.value, sh, location))
      && (r.Err? ==> r.error == NotFound)
  {
    hide Try, Filed;
  }

  // What a cargo call leaves of the texts of a row.
  ghost predicate TextAfter(o: Office, p: Office, call: Call, texts: Texts, i: ItemId)
    requires i in p.items
  {
    if i !in o.items then p.items[i] == texts.items(i)
    else if call.step.ProcessStep? && call.step.item == i && texts.measured.Some? then
      var measured := texts.measured.value;
      && p.items[i].(weight := o.items[i].weight, weightUnit := o.items[i].weightUnit) == o.items[i]
      && p.items[i].weight == Some(measured.0)
      && SetTo(measured.1, o.items[i].weightUnit, p.items[i].weightUnit)
    else p.items[i] == o.items[i]
  }

  // In every office: a cargo call is taken exactly when the cargo tables take it and a new shipment's
  // customer is known; no text of a row changes but the weight that processing measures.
  lemma {:induction false} CargoCallsKeepTexts(o: Office, call: Call, texts: Texts)
    requires Synced(o)
    ensures var r := Perform(o, Cargo(call, texts));
      && (r.Ok? <==>
        Try(o.cargo, call).Ok? && (call.step.CreateShipmentStep? ==> texts.shipment.customer in o.customers))
      && (call.step.CreateShipmentStep? && texts.shipment.customer !in o.customers ==> r == Err(NotFound))
      && (r.Err? && r.error != NotFound ==> Try(o.cargo, call) == Err(r.error))
      && (r.Ok? ==> r.value.customers == o.customers && r.value.items.Keys == r.value.cargo.items.Keys)
      && (r.Ok? ==> forall i :: i in r.value.items ==> TextAfter(o, r.value, call, texts, i))
      && (r.Ok? ==> forall sh :: sh in r.value.shipments ==>
        r.value.shipments[sh] == if sh in o.shipments then o.shipments[sh] else texts.shipment)
  {
    hide Try;
  }
}
