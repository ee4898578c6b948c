/**
 The printed cargo manifest: rendered live while a draft, from the frozen snapshot ever
 after. Both renderings, and the snapshot builder, run on accumulators.
 */
module PrintDocument {
  import opened Basics

  type CustomerId = nat

  // A live item row with what its shipment and customer contribute to the document.
  datatype CargoItem = CargoItem(
    id: nat,
    code: string,
    kind: string,
    description: Option<string>,
    quantity: nat,
    weight: Option<real>,
    weightUnit: string,
    trackingNumber: string,
    country: string,
    location: Option<string>,
    customer: CustomerId,
    customerName: string)

  datatype LiveContainer = LiveContainer(id: nat, number: string, kind: string, items: seq<CargoItem>)

  // What the snapshot keeps of an item: all but description and quantity.
  datatype FrozenItem = FrozenItem(
    id: nat,
    code: string,
    kind: string,
    weight: Option<real>,
    weightUnit: string,
    trackingNumber: string,
    country: string,
    location: Option<string>,
    customer: CustomerId,
    customerName: string)

  datatype FrozenContainer = FrozenContainer(id: nat, number: string, kind: string, items: seq<FrozenItem>)

  datatype Summary = Summary(containers: nat, items: nat, customers: nat, weightByUnit: map<string, real>)

  datatype Snapshot = Snapshot(containers: seq<FrozenContainer>, items: seq<FrozenItem>, summary: Summary)

  datatype Line = Line(
    code: string,
    trackingNumber: string,
    customerName: string,
    kind: string,
    description: Option<string>,
    quantity: nat,
    weight: Option<real>,
    weightUnit: string,
    destination: string,
    container: Option<string>)

  datatype Document = Document(containers: seq<(string, string)>, cargo: seq<Line>, summary: Summary)

  // Description and quantity, looked up live when a snapshot is printed.
  datatype Detail = Detail(description: Option<string>, quantity: nat)

  function DestinationLabel(location: Option<string>, country: string): string {
    match location
    case None => country
    case Some(l) => if l == "" then country else if country == "" then l else l + ", " + country
  }

  function Freeze(item: CargoItem): FrozenItem {
    FrozenItem(item.id, item.code, item.kind, item.weight, item.weightUnit, item.trackingNumber, item.country,
               item.location, item.customer, item.customerName)
  }

  function FreezeAll(items: seq<CargoItem>): (r: seq<FrozenItem>) {
    seq(|items|, k requires 0 <= k < |items| => Freeze(items[k]))
  }

  function FreezeBox(container: LiveContainer): FrozenContainer {
    FrozenContainer(container.id, container.number, container.kind, FreezeAll(container.items))
  }

  function LiveLine(item: CargoItem, container: Option<string>): Line {
    Line(item.code, item.trackingNumber, item.customerName, item.kind, item.description, item.quantity, item.weight,
         item.weightUnit, DestinationLabel(item.location, item.country), container)
  }

  function FrozenLine(item: FrozenItem, detail: Option<Detail>, container: Option<string>): Line {
    Line(item.code, item.trackingNumber, item.customerName, item.kind,
         if detail.Some? then detail.value.description else None,
         if detail.Some? then detail.value.quantity else 1,
         item.weight, item.weightUnit, DestinationLabel(item.location, item.country), container)
  }

  // --- What the accumulators add up ---------------------------------------------------

  // The items a document lists, container by container, and the direct ones of a flight.
  function Listed(containers: seq<LiveContainer>, direct: seq<CargoItem>): seq<(CargoItem, Option<string>)> {
    Boxed(containers, |containers|) + Loose(direct, |direct|)
  }

  function Boxed(containers: seq<LiveContainer>, n: nat): seq<(CargoItem, Option<string>)>
    requires n <= |containers|
  {
    if n == 0 then []
    else Boxed(containers, n - 1) + Contents(containers[n - 1], |containers[n - 1].items|)
  }

  function Contents(container: LiveContainer, n: nat): (r: seq<(CargoItem, Option<string>)>)
    requires n <= |container.items|
    ensures |r| == n
  {
    if n == 0 then [] else Contents(container, n - 1) + [(container.items[n - 1], Some(container.number))]
  }

  function Loose(items: seq<CargoItem>, n: nat): (r: seq<(CargoItem, Option<string>)>)
    requires n <= |items|
    ensures |r| == n
  {
    if n == 0 then [] else Loose(items, n - 1) + [(items[n - 1], None)]
  }

  function Customers(rows: seq<(CargoItem, Option<string>)>): set<CustomerId> {
    set k | 0 <= k < |rows| :: rows[k].0.customer
  }

  function AddWeight(weights: map<string, real>, item: CargoItem): map<string, real> {
    if item.weight.None? then weights
    else
      weights[item.weightUnit := (if item.weightUnit in weights then weights[item.weightUnit] else 0.0) + item.weight.value]
  }

  // Units are never mixed: each one has its own sum, in the order of the rows.
  function Weights(rows: seq<(CargoItem, Option<string>)>): map<string, real> {
    if rows == [] then map[] else AddWeight(Weights(rows[..|rows| - 1]), rows[|rows| - 1].0)
  }

  function Totals(containers: nat, rows: seq<(CargoItem, Option<string>)>): Summary {
    Summary(containers, |rows|, |Customers(rows)|, Weights(rows))
  }

  function Heads(containers: seq<LiveContainer>): seq<(string, string)> {
    seq(|containers|, k requires 0 <= k < |containers| => (containers[k].number, containers[k].kind))
  }

  // The running state of the summary, after some rows.
  ghost predicate Tallied(rows: seq<(CargoItem, Option<string>)>, count: nat, customers: set<CustomerId>,
                          weights: map<string, real>) {
    count == |rows| && customers == Customers(rows) && weights == Weights(rows)
  }

  lemma TallyNone()
    ensures Tallied([], 0, {}, map[])
  {
  }

  lemma TallyOne(rows: seq<(CargoItem, Option<string>)>, row: (CargoItem, Option<string>), count: nat,
                 customers: set<CustomerId>, weights: map<string, real>)
    requires Tallied(rows, count, customers, weights)
    ensures Tallied(rows + [row], count + 1, customers + {row.0.customer}, AddWeight(weights, row.0))
  {
    var all := rows + [row];
    assert all[..|all| - 1] == rows;
    forall c | c in Customers(rows) + {row.0.customer}
      ensures c in Customers(all)
    {
      if c in Customers(rows) {
        var k :| 0 <= k < |rows| && rows[k].0.customer == c;
        assert all[k].0.customer == c;
      } else {
        assert all[|rows|].0.customer == c;
      }
    }
  }

  lemma TallyMeans(containers: nat, rows: seq<(CargoItem, Option<string>)>, count: nat,
                   customers: set<CustomerId>, weights: map<string, real>)
    requires Tallied(rows, count, customers, weights)
    ensures Summary(containers, count, |customers|, weights) == Totals(containers, rows)
  {
  }

  // --- The snapshot builder -------------------------------------------------------------

  // What finalize must freeze.
  ghost function Frozen(containers: seq<LiveContainer>, direct: seq<CargoItem>): Snapshot {
    Snapshot(
      seq(|containers|, k requires 0 <= k < |containers| => FreezeBox(containers[k])),
      FreezeAll(direct),
      Totals(|containers|, Listed(containers, direct)))
  }

  method BuildFinalizeSnapshot(containers: seq<LiveContainer>, direct: seq<CargoItem>) returns (snapshot: Snapshot)
    ensures snapshot == Frozen(containers, direct)
  {
    hide Tallied, AddWeight, Freeze;
    TallyNone();
    var weightByUnit: map<string, real> := map[];
    var customerIds: set<CustomerId> := {};
    var itemCount := 0;
    var containerSnapshots: seq<FrozenContainer> := [];
    for c := 0 to |containers|
      invariant Tallied(Boxed(containers, c), itemCount, customerIds, weightByUnit)
      invariant |containerSnapshots| == c
      invariant forall k :: 0 <= k < c ==> containerSnapshots[k] == FreezeBox(containers[k])
    {
      var items := containers[c].items;
      assert Boxed(containers, c) + Contents(containers[c], 0) == Boxed(containers, c);
      for k := 0 to |items|
        invariant Tallied(Boxed(containers, c) + Contents(containers[c], k), itemCount, customerIds, weightByUnit)
      {
        TallyOne(Boxed(containers, c) + Contents(containers[c], k), (items[k], Some(containers[c].number)),
                 itemCount, customerIds, weightByUnit);
        itemCount := itemCount + 1;
        weightByUnit := AddWeight(weightByUnit, items[k]);
        customerIds := customerIds + {items[k].customer};
        assert Boxed(containers, c) + Contents(containers[c], k + 1) ==
          Boxed(containers, c) + Contents(containers[c], k) + [(items[k], Some(containers[c].number))];
      }
      containerSnapshots := containerSnapshots + [FreezeBox(containers[c])];
    }
    var itemSnapshots: seq<FrozenItem> := [];
    assert Boxed(containers, |containers|) + Loose(direct, 0) == Boxed(containers, |containers|);
    for k := 0 to |direct|
      invariant Tallied(Boxed(containers, |containers|) + Loose(direct, k), itemCount, customerIds, weightByUnit)
      invariant |itemSnapshots| == k && forall j :: 0 <= j < k ==> itemSnapshots[j] == Freeze(direct[j])
    {
      TallyOne(Boxed(containers, |containers|) + Loose(direct, k), (direct[k], None), itemCount, customerIds, weightByUnit);
      itemCount := itemCount + 1;
      weightByUnit := AddWeight(weightByUnit, direct[k]);
      customerIds := customerIds + {direct[k].customer};
      itemSnapshots := itemSnapshots + [Freeze(direct[k])];
      assert Boxed(containers, |containers|) + Loose(direct, k + 1) ==
        Boxed(containers, |containers|) + Loose(direct, k) + [(direct[k], None)];
    }
    TallyMeans(|containers|, Listed(containers, direct), itemCount, customerIds, weightByUnit);
    snapshot := Snapshot(containerSnapshots, itemSnapshots,
      Summary(|containers|, itemCount, |customerIds|, weightByUnit));
  }

  // --- The two renderings -----------------------------------------------------------------

  function Lines(rows: seq<(CargoItem, Option<string>)>): (r: seq<Line>) {
    seq(|rows|, k requires 0 <= k < |rows| => LiveLine(rows[k].0, rows[k].1))
  }

  // What a live document must show: a flight lists its items, any other manifest its containers.
  ghost function LiveDocument(air: bool, containers: seq<LiveContainer>, direct: seq<CargoItem>): Document {
    var boxes := if air then [] else containers;
    var rows := if air then Loose(direct, |direct|) else Boxed(containers, |containers|);
    Document(Heads(boxes), Lines(rows), Totals(|boxes|, rows))
  }

  method BuildPrintDataFromLive(air: bool, dbContainers: seq<LiveContainer>, manifestItems: seq<CargoItem>)
    returns (doc: Document)
    ensures doc == LiveDocument(air, dbContainers, manifestItems)
  {
    hide Tallied, AddWeight, LiveLine;
    TallyNone();
    var containers: seq<(string, string)> := [];
    var cargo: seq<Line> := [];
    var weightByUnit: map<string, real> := map[];
    var customerIds: set<CustomerId> := {};
    if air {
      for k := 0 to |manifestItems|
        invariant cargo == Lines(Loose(manifestItems, k))
        invariant Tallied(Loose(manifestItems, k), |cargo|, customerIds, weightByUnit)
      {
        TallyOne(Loose(manifestItems, k), (manifestItems[k], None), |cargo|, customerIds, weightByUnit);
        customerIds := customerIds + {manifestItems[k].customer};
        weightByUnit := AddWeight(weightByUnit, manifestItems[k]);
        cargo := cargo + [LiveLine(manifestItems[k], None)];
      }
    } else {
      for c := 0 to |dbContainers|
        invariant |containers| == c
        invariant forall j :: 0 <= j < c ==> containers[j] == (dbContainers[j].number, dbContainers[j].kind)
        invariant cargo == Lines(Boxed(dbContainers, c))
        invariant Tallied(Boxed(dbContainers, c), |cargo|, customerIds, weightByUnit)
      {
        var container := dbContainers[c];
        containers := containers + [(container.number, container.kind)];
        assert Boxed(dbContainers, c) + Contents(container, 0) == Boxed(dbContainers, c);
        for k := 0 to |container.items|
          invariant cargo == Lines(Boxed(dbContainers, c) + Contents(container, k))
          invariant Tallied(Boxed(dbContainers, c) + Contents(container, k), |cargo|, customerIds, weightByUnit)
        {
          var row := (container.items[k], Some(container.number));
          TallyOne(Boxed(dbContainers, c) + Contents(container, k), row, |cargo|, customerIds, weightByUnit);
          customerIds := customerIds + {container.items[k].customer};
          weightByUnit := AddWeight(weightByUnit, container.items[k]);
          cargo := cargo + [LiveLine(container.items[k], Some(container.number))];
          assert Boxed(dbContainers, c) + Contents(container, k + 1) ==
            Boxed(dbContainers, c) + Contents(container, k) + [row];
        }
      }
    }
    TallyMeans(|containers|, if air then Loose(manifestItems, |manifestItems|) else Boxed(dbContainers, |dbContainers|),
               |cargo|, customerIds, weightByUnit);
    doc := Document(containers, cargo, Summary(|containers|, |cargo|, |customerIds|, weightByUnit));
  }

  function FrozenRows(snapshot: Snapshot, n: nat): (r: seq<(FrozenItem, Option<string>)>)
    requires n <= |snapshot.containers|
  {
    if n == 0 then []
    else
      var c := snapshot.containers[n - 1];
      FrozenRows(snapshot, n - 1) + seq(|c.items|, k requires 0 <= k < |c.items| => (c.items[k], Some(c.number)))
  }

  function AllFrozenRows(snapshot: Snapshot): seq<(FrozenItem, Option<string>)> {
    FrozenRows(snapshot, |snapshot.containers|) +
    seq(|snapshot.items|, k requires 0 <= k < |snapshot.items| => (snapshot.items[k], None))
  }

  function Look(details: map<nat, Detail>, id: nat): Option<Detail> {
    if id in details then Some(details[id]) else None
  }

  function FrozenLines(rows: seq<(FrozenItem, Option<string>)>, details: map<nat, Detail>): seq<Line> {
    seq(|rows|, k requires 0 <= k < |rows| => FrozenLine(rows[k].0, Look(details, rows[k].0.id), rows[k].1))
  }

  // The rendering of a finalized manifest: rows are gathered first, then mapped to lines.
  function FromSnapshot(snapshot: Snapshot, details: map<nat, Detail>): Document {
    Document(
      seq(|snapshot.containers|, k requires 0 <= k < |snapshot.containers| =>
        (snapshot.containers[k].number, snapshot.containers[k].kind)),
      FrozenLines(AllFrozenRows(snapshot), details),
      snapshot.summary)
  }

  method BuildPrintDataFromSnapshot(snapshot: Snapshot, details: map<nat, Detail>) returns (doc: Document)
    ensures doc == FromSnapshot(snapshot, details)
  {
    var containers: seq<(string, string)> := [];
    var rows: seq<(FrozenItem, Option<string>)> := [];
    for c := 0 to |snapshot.containers|
      invariant |containers| == c
      invariant forall j :: 0 <= j < c ==> containers[j] == (snapshot.containers[j].number, snapshot.containers[j].kind)
      invariant rows == FrozenRows(snapshot, c)
    {
      var container := snapshot.containers[c];
      containers := containers + [(container.number, container.kind)];
      for k := 0 to |container.items|
        invariant rows == FrozenRows(snapshot, c) + seq(k, j requires 0 <= j < k => (container.items[j], Some(container.number)))
      {
        rows := rows + [(container.items[k], Some(container.number))];
      }
    }
    for k := 0 to |snapshot.items|
      invariant rows ==
        FrozenRows(snapshot, |snapshot.containers|) + seq(k, j requires 0 <= j < k => (snapshot.items[j], None))
    {
      rows := rows + [(snapshot.items[k], None)];
    }
    var cargo: seq<Line> := [];
    for k := 0 to |rows|
      invariant |cargo| == k
      invariant forall j :: 0 <= j < k ==> cargo[j] == FrozenLine(rows[j].0, Look(details, rows[j].0.id), rows[j].1)
    {
      cargo := cargo + [FrozenLine(rows[k].0, Look(details, rows[k].0.id), rows[k].1)];
    }
    doc := Document(containers, cargo, snapshot.summary);
  }

  // --- Agreement ----------------------------------------------------------------------------

  // The live details of an item, as the lookup by id finds them.
  ghost predicate DetailsAgree(rows: seq<(CargoItem, Option<string>)>, details: map<nat, Detail>) {
    forall k :: 0 <= k < |rows| ==>
      rows[k].0.id in details && details[rows[k].0.id] == Detail(rows[k].0.description, rows[k].0.quantity)
  }

  ghost function FreezeRows(rows: seq<(CargoItem, Option<string>)>): seq<(FrozenItem, Option<string>)> {
    seq(|rows|, k requires 0 <= k < |rows| => (Freeze(rows[k].0), rows[k].1))
  }

  lemma {:induction false} ContentsFreeze(container: LiveContainer, n: nat)
    requires n <= |container.items|
    ensures forall k :: 0 <= k < n ==> Contents(container, n)[k] == (container.items[k], Some(container.number))
  {
    if n > 0 {
      ContentsFreeze(container, n - 1);
    }
  }

  lemma {:induction false} LooseFreeze(items: seq<CargoItem>, n: nat)
    requires n <= |items|
    ensures forall k :: 0 <= k < n ==> Loose(items, n)[k] == (items[k], None)
  {
    if n > 0 {
      LooseFreeze(items, n - 1);
    }
  }

  lemma {:induction false} BoxedFreeze(containers: seq<LiveContainer>, direct: seq<CargoItem>, n: nat)
    requires n <= |containers|
    ensures FrozenRows(Frozen(containers, direct), n) == FreezeRows(Boxed(containers, n))
  {
    if n > 0 {
      BoxedFreeze(containers, direct, n - 1);
      ContentsFreeze(containers[n - 1], |containers[n - 1].items|);
    }
  }

  // The rows of the snapshot are the listed rows, frozen.
  lemma RowsFreeze(containers: seq<LiveContainer>, direct: seq<CargoItem>)
    ensures AllFrozenRows(Frozen(containers, direct)) == FreezeRows(Listed(containers, direct))
  {
    BoxedFreeze(containers, direct, |containers|);
    LooseFreeze(direct, |direct|);
  }

  lemma LinesAgree(rows: seq<(CargoItem, Option<string>)>, details: map<nat, Detail>)
    requires DetailsAgree(rows, details)
    ensures FrozenLines(FreezeRows(rows), details) == Lines(rows)
  {
    forall k | 0 <= k < |rows|
      ensures FrozenLines(FreezeRows(rows), details)[k] == Lines(rows)[k]
    {
    }
  }

  // Printing the snapshot right after finalize gives the very document that was printed live right
  // before: cargo lines, container list, counts and weights.
  lemma SnapshotPrintsLikeLive(air: bool, containers: seq<LiveContainer>, direct: seq<CargoItem>, details: map<nat, Detail>)
    requires if air then containers == [] else direct == []
    requires DetailsAgree(Listed(containers, direct), details)
    ensures FromSnapshot(Frozen(containers, direct), details) == LiveDocument(air, containers, direct)
  {
    var rows := Listed(containers, direct);
    RowsFreeze(containers, direct);
    LinesAgree(rows, details);
    assert rows == if air then Loose(direct, |direct|) else Boxed(containers, |containers|);
  }

  // The weight printed for a unit is the sum of the weights given in that unit.
  ghost function WeightIn(rows: seq<(CargoItem, Option<string>)>, unit: string): real {
    if rows == [] then 0.0
    else
      var it := rows[|rows| - 1].0;
      WeightIn(rows[..|rows| - 1], unit) + (if it.weight.Some? && it.weightUnit == unit then it.weight.value else 0.0)
  }

  ghost predicate Weighed(rows: seq<(CargoItem, Option<string>)>, unit: string) {
    exists k :: 0 <= k < |rows| && rows[k].0.weight.Some? && rows[k].0.weightUnit == unit
  }

  lemma {:induction false} WeightsNeverMix(rows: seq<(CargoItem, Option<string>)>, unit: string)
    ensures unit in Weights(rows) <==> Weighed(rows, unit)
    ensures WeightIn(rows, unit) == if unit in Weights(rows) then Weights(rows)[unit] else 0.0
  {
    if rows != [] {
      var n := |rows| - 1;
      WeightsNeverMix(rows[..n], unit);
      if Weighed(rows[..n], unit) {
        var k :| 0 <= k < n && rows[..n][k].0.weight.Some? && rows[..n][k].0.weightUnit == unit;
        assert rows[k].0.weight.Some? && rows[k].0.weightUnit == unit;
      }
      if Weighed(rows, unit) && !Weighed(rows[..n], unit) {
        assert forall k :: 0 <= k < n ==> rows[..n][k] == rows[k];
        assert rows[n].0.weight.Some? && rows[n].0.weightUnit == unit;
      }
    }
  }
}
