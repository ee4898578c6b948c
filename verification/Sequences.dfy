/** The item numbers of a shipment are always exactly 1..n, manual events included. */
module Sequences {
  import opened Basics
  import opened Statuses
  import opened CargoState
  import opened CargoSteps
  import opened CargoRuns
  import opened CargoEffects

  ghost predicate Numbered(items: map<ItemId, Item>, sh: ShipmentId) {
    && (forall i, j :: i in ItemsOf(items, sh) && j in ItemsOf(items, sh) && i != j ==>
      items[i].sequence != items[j].sequence)
    && (forall i :: i in ItemsOf(items, sh) ==> 1 <= items[i].sequence <= |ItemsOf(items, sh)|)
  }

  ghost predicate AllNumbered(items: map<ItemId, Item>) {
    forall sh :: Numbered(items, sh)
  }

  ghost predicate SameNumbers(s: State, t: State) {
    && t.items.Keys == s.items.Keys
    && (forall i :: i in s.items ==>
      t.items[i].shipment == s.items[i].shipment && t.items[i].sequence == s.items[i].sequence)
  }

  lemma SameNumbersKeep(s: State, t: State)
    requires AllNumbered(s.items) && SameNumbers(s, t)
    ensures AllNumbered(t.items)
  {
    forall sh
      ensures Numbered(t.items, sh)
    {
      assert Numbered(s.items, sh);
      assert ItemsOf(t.items, sh) == ItemsOf(s.items, sh);
    }
  }

  lemma AddedKeeps(s: State, t: State, sh: ShipmentId, i: ItemId)
    requires AllNumbered(s.items) && i !in s.items
    requires t.items == s.items[i := Item(sh, |ItemsOf(s.items, sh)| + 1, Registered, None, None)]
    ensures AllNumbered(t.items)
  {
    forall other
      ensures Numbered(t.items, other)
    {
      assert Numbered(s.items, other);
      if other == sh {
        assert ItemsOf(t.items, sh) == ItemsOf(s.items, sh) + {i};
      } else {
        assert ItemsOf(t.items, other) == ItemsOf(s.items, other);
      }
    }
  }

  function SetOf(ids: seq<ItemId>): set<ItemId> {
    set i | i in ids
  }

  lemma {:induction false} DistinctIds(ids: seq<ItemId>)
    requires forall j, k :: 0 <= j < k < |ids| ==> ids[j] != ids[k]
    ensures |SetOf(ids)| == |ids|
  {
    if ids == [] {
      assert SetOf(ids) == {};
    } else {
      var n := |ids| - 1;
      DistinctIds(ids[..n]);
      assert ids == ids[..n] + [ids[n]];
      assert SetOf(ids) == SetOf(ids[..n]) + {ids[n]};
    }
  }

  lemma CreatedKeeps(s: State, t: State, sh: ShipmentId, ids: seq<ItemId>)
    requires Wf(s) && AllNumbered(s.items) && sh !in s.shipments && FreshItems(s, ids)
    requires t.items.Keys == s.items.Keys + SetOf(ids)
    requires forall i :: i in s.items ==> t.items[i] == s.items[i]
    requires forall k :: 0 <= k < |ids| ==> t.items[ids[k]] == Item(sh, k + 1, Registered, None, None)
    ensures AllNumbered(t.items)
  {
    hide Numbered, ItemsOf;
    assert ItemsOf(t.items, sh) == SetOf(ids) by { OnlyTheNew(s, t, sh, ids); }
    forall other
      ensures Numbered(t.items, other)
    {
      if other == sh {
        NewNumbers(t.items, sh, ids);
      } else {
        OtherNumbers(s, t, sh, ids, other);
      }
    }
  }

  lemma OnlyTheNew(s: State, t: State, sh: ShipmentId, ids: seq<ItemId>)
    requires Wf(s) && sh !in s.shipments && t.items.Keys == s.items.Keys + SetOf(ids)
    requires forall i :: i in s.items ==> t.items[i] == s.items[i]
    requires forall k :: 0 <= k < |ids| ==> t.items[ids[k]] == Item(sh, k + 1, Registered, None, None)
    ensures ItemsOf(t.items, sh) == SetOf(ids)
  {
  }

  lemma OtherNumbers(s: State, t: State, sh: ShipmentId, ids: seq<ItemId>, other: ShipmentId)
    requires AllNumbered(s.items) && other != sh && t.items.Keys == s.items.Keys + SetOf(ids)
    requires forall i :: i in s.items ==> t.items[i] == s.items[i]
    requires forall k :: 0 <= k < |ids| ==> t.items[ids[k]] == Item(sh, k + 1, Registered, None, None)
    ensures Numbered(t.items, other)
  {
    assert Numbered(s.items, other);
    assert ItemsOf(t.items, other) == ItemsOf(s.items, other);
  }

  lemma NewNumbers(items: map<ItemId, Item>, sh: ShipmentId, ids: seq<ItemId>)
    requires forall j, k :: 0 <= j < k < |ids| ==> ids[j] != ids[k]
    requires forall k :: 0 <= k < |ids| ==> ids[k] in items && items[ids[k]] == Item(sh, k + 1, Registered, None, None)
    requires ItemsOf(items, sh) == SetOf(ids)
    ensures Numbered(items, sh)
  {
    DistinctIds(ids);
  }

  lemma WarehouseSameNumbers(s: State, t: State, call: Call)
    requires Wf(s) && WarehouseStep(call.step) && Try(s, call) == Ok(t)
    ensures SameNumbers(s, t)
  {
    WarehouseStepEffect(s, t, call);
  }

  lemma TransportSameNumbers(s: State, t: State, call: Call)
    requires Wf(s) && !DeskStep(call.step) && Try(s, call) == Ok(t)
    ensures SameNumbers(s, t)
  {
    hide Load, Unload, Seal, AssignItem, UnassignItem, FinalizeManifest, Depart, Arrive, AssignContainer, UnassignContainer;
    hide Rolled, CargoRolled, CargoIs, Wf, FindRow, EmptyManifest;
    match call.step {
      case LoadStep(c, i) => LoadEffect(s, t, c, i, call.now);
      case UnloadStep(c, i) => UnloadEffect(s, t, c, i, call.now);
      case AssignItemStep(m, i, conflict) => AssignItemEffect(s, t, m, i, conflict, call.now);
      case UnassignItemStep(m, i) => UnassignItemEffect(s, t, m, i, call.now);
      case SealStep(c) => SealEffect(s, t, c, call.now);
      case FinalizeStep(m) => FinalizeEffect(s, t, m, call.now);
      case DepartStep(m) => DepartEffect(s, t, m, call.now);
      case ArriveStep(m) => ArriveEffect(s, t, m, call.now);
      case AssignContainerStep(m, c, conflict) => AssignContainerEffect(s, t, m, c, conflict, call.now);
      case UnassignContainerStep(m, c) => UnassignContainerEffect(s, t, m, c, call.now);
      case _ =>
    }
  }

  lemma StepKeepsNumbers(s: State, t: State, call: Call)
    requires Wf(s) && AllNumbered(s.items) && Try(s, call) == Ok(t)
    ensures AllNumbered(t.items)
  {
    hide AllNumbered, SameNumbers, CreateShipment, AddItem;
    match call.step {
      case CreateShipmentStep(sh, email, ids) =>
        CreateShipmentEffect(s, t, sh, email, ids, call.now);
        CreatedAreFresh(s, sh, email, ids, call.now);
        assert t.items.Keys == s.items.Keys + SetOf(ids);
        CreatedKeeps(s, t, sh, ids);
      case AddItemStep(sh, i) =>
        AddItemEffect(s, t, sh, i, call.now);
        AddedKeeps(s, t, sh, i);
      case ManualStep(e, itemStatus) =>
        ManualSameNumbers(s, t, e, itemStatus);
        SameNumbersKeep(s, t);
      case _ =>
        if WarehouseStep(call.step) {
          WarehouseSameNumbers(s, t, call);
        } else {
          TransportSameNumbers(s, t, call);
        }
        SameNumbersKeep(s, t);
    }
  }

  lemma CreatedAreFresh(s: State, sh: ShipmentId, email: bool, ids: seq<ItemId>, now: Time)
    requires Wf(s) && CreateShipment(s, sh, email, ids, now).Ok?
    ensures FreshItems(s, ids)
  {
  }

  lemma ManualSameNumbers(s: State, t: State, e: Event, itemStatus: Option<ItemStatus>)
    requires Wf(s) && ManualEvent(s, e, itemStatus) == Ok(t)
    ensures SameNumbers(s, t)
  {
  }

  lemma {:induction false} RunsKeepNumbers(warehouses: set<WarehouseId>, calls: seq<Call>)
    ensures AllNumbered(Run(warehouses, calls).items)
  {
    if calls != [] {
      var n := |calls| - 1;
      RunsKeepNumbers(warehouses, calls[..n]);
      hide AllNumbered, Try;
      var before := Run(warehouses, calls[..n]);
      match Try(before, calls[n]) {
        case Ok(t) => StepKeepsNumbers(before, t, calls[n]);
        case Err(_) =>
      }
    }
  }

  ghost predicate Taken(items: map<ItemId, Item>, ids: set<ItemId>, k: int) {
    exists i :: i in ids && i in items && items[i].sequence == k
  }

  // Distinct numbers between 1 and n, n of them: every number is taken.
  lemma {:induction false} EveryNumberIsTaken(items: map<ItemId, Item>, ids: set<ItemId>, n: nat)
    requires forall i :: i in ids ==> i in items && 1 <= items[i].sequence <= n
    requires forall i, j :: i in ids && j in ids && i != j ==> items[i].sequence != items[j].sequence
    ensures |ids| <= n
    ensures |ids| == n ==> forall k :: 1 <= k <= n ==> Taken(items, ids, k)
    decreases n
  {
    if i :| i in ids && n > 0 && items[i].sequence == n {
      var rest := ids - {i};
      EveryNumberIsTaken(items, rest, n - 1);
      forall k | 1 <= k <= n && |ids| == n
        ensures Taken(items, ids, k)
      {
        if k < n { assert Taken(items, rest, k); }
      }
    } else if n > 0 {
      EveryNumberIsTaken(items, ids, n - 1);
    } else {
      assert forall i :: i !in ids;
      assert ids == {};
    }
  }

  // The items of a shipment carry exactly the numbers 1..n, each once.
  lemma NumbersAreExactlyOneToN(warehouses: set<WarehouseId>, calls: seq<Call>, sh: ShipmentId)
    ensures var items := Run(warehouses, calls).items; var mine := ItemsOf(items, sh);
      && (forall i :: i in mine ==> 1 <= items[i].sequence <= |mine|)
      && (forall i, j :: i in mine && j in mine && i != j ==> items[i].sequence != items[j].sequence)
      && (forall k :: 1 <= k <= |mine| ==> Taken(items, mine, k))
  {
    RunsKeepNumbers(warehouses, calls);
    var items := Run(warehouses, calls).items;
    assert Numbered(items, sh);
    EveryNumberIsTaken(items, ItemsOf(items, sh), |ItemsOf(items, sh)|);
  }
}
