/** What finalize froze is what the manifest carries, then and ever after. */
module Snapshots {
  import opened Basics
  import opened Statuses
  import opened CargoState
  import opened CargoSteps
  import opened CargoRuns
  import opened CargoEffects
  import opened Lockstep
  import opened Stranding
  import opened StrandingSteps

  function Carried(s: State, m: ManifestId): Approval
    requires m in s.manifests
  {
    ApprovedCargo(s.links, |s.links|, UnitsOf(s, m))
  }

  // Until it is finalized a manifest has no snapshot; from then on the snapshot is its cargo.
  ghost predicate FrozenFor(s: State, m: ManifestId)
    requires m in s.manifests
  {
    s.manifests[m].snapshot == if s.manifests[m].status.Draft? then None else Some(Carried(s, m))
  }

  ghost predicate Frozen(s: State) {
    forall m :: m in s.manifests ==> FrozenFor(s, m)
  }

  lemma {:induction false} SameRows(a: seq<Link>, b: seq<Link>, n: nat, units: set<Unit>)
    requires n <= |a| && n <= |b|
    requires forall k :: 0 <= k < n ==> RowsAlike(a[k], b[k], units)
    ensures ApprovedCargo(a, n, units) == ApprovedCargo(b, n, units)
  {
    if n > 0 {
      SameRows(a, b, n - 1, units);
    }
  }

  // To these units the two rows say the same.
  predicate RowsAlike(a: Link, b: Link, units: set<Unit>) {
    a == b || (!Carries(a, units) && !Carries(b, units))
  }

  lemma RowAppendedElsewhere(links: seq<Link>, l: Link, units: set<Unit>)
    requires l.unit !in units
    ensures ApprovedCargo(links + [l], |links + [l]|, units) == ApprovedCargo(links, |links|, units)
  {
    SameRows(links, links + [l], |links|, units);
  }

  lemma RowRetiredElsewhere(links: seq<Link>, k: nat, units: set<Unit>)
    requires k < |links| && links[k].unit !in units
    ensures ApprovedCargo(Retire(links, k), |links|, units) == ApprovedCargo(links, |links|, units)
  {
    SameRows(links, Retire(links, k), |links|, units);
  }

  // A manifest past its draft carries the same after the call as before.
  ghost predicate StillCarries(s: State, t: State, m: ManifestId) {
    && m in s.manifests && m in t.manifests
    && t.manifests[m].snapshot == s.manifests[m].snapshot
    && (t.manifests[m].status.Draft? <==> s.manifests[m].status.Draft?)
    && (!s.manifests[m].status.Draft? ==> Carried(t, m) == Carried(s, m))
  }

  lemma AllStillCarry(s: State, t: State)
    requires Frozen(s) && forall m :: m in t.manifests ==> StillCarries(s, t, m)
    ensures Frozen(t)
  {
    forall m | m in t.manifests
      ensures FrozenFor(t, m)
    {
      assert StillCarries(s, t, m) && FrozenFor(s, m);
    }
  }

  // Containers being loaded belong to no manifest, so their rows concern none.
  lemma UnassignedUnit(s: State, c: ContainerId, m: ManifestId)
    requires Wf(s) && Fleet(s) && c in s.containers && Accepting(s.containers[c].status) && m in s.manifests
    ensures InContainer(c) !in UnitsOf(s, m)
  {
    assert Paired(s.containers[c], s.manifests);
  }

  lemma SameUnits(s: State, t: State, m: ManifestId)
    requires m in s.manifests && m in t.manifests && t.manifests[m].mode == s.manifests[m].mode
    requires t.containers.Keys == s.containers.Keys
    requires forall c :: c in s.containers ==> (s.containers[c].manifest == Some(m) <==> t.containers[c].manifest == Some(m))
    ensures UnitsOf(t, m) == UnitsOf(s, m)
  {
  }

  lemma LoadStaysFrozen(s: State, t: State, c: ContainerId, i: ItemId, now: Time)
    requires Wf(s) && Fleet(s) && Frozen(s) && Load(s, c, i, now) == Ok(t)
    ensures Frozen(t)
  {
    hide Load, Fleet, UnitsOf, OneRolled, Frozen;
    LoadEffect(s, t, c, i, now);
    forall m | m in t.manifests
      ensures StillCarries(s, t, m)
    {
      UnassignedUnit(s, c, m);
      SameUnits(s, t, m);
      RowAppendedElsewhere(s.links, Link(InContainer(c), s.items[i].shipment, i, true), UnitsOf(s, m));
    }
    AllStillCarry(s, t);
  }

  lemma UnloadStaysFrozen(s: State, t: State, c: ContainerId, i: ItemId, now: Time)
    requires Wf(s) && Fleet(s) && Frozen(s) && Unload(s, c, i, now) == Ok(t)
    ensures Frozen(t)
  {
    hide Unload, Fleet, UnitsOf, OneRolled, Frozen;
    UnloadEffect(s, t, c, i, now);
    forall m | m in t.manifests
      ensures StillCarries(s, t, m)
    {
      UnassignedUnit(s, c, m);
      SameUnits(s, t, m);
      RowRetiredElsewhere(s.links, FindRow(s.links, InContainer(c), i), UnitsOf(s, m));
    }
    AllStillCarry(s, t);
  }

  lemma AssignItemStaysFrozen(s: State, t: State, m: ManifestId, i: ItemId, conflict: bool, now: Time)
    requires Wf(s) && Frozen(s) && AssignItem(s, m, i, conflict, now) == Ok(t)
    ensures Frozen(t)
  {
    hide AssignItem, OneRolled, Frozen;
    AssignItemEffect(s, t, m, i, conflict, now);
    forall n | n in t.manifests
      ensures StillCarries(s, t, n)
    {
      if n != m { RowAppendedElsewhere(s.links, Link(OnManifest(m), s.items[i].shipment, i, true), UnitsOf(s, n)); }
    }
    AllStillCarry(s, t);
  }

  lemma UnassignItemStaysFrozen(s: State, t: State, m: ManifestId, i: ItemId, now: Time)
    requires Wf(s) && Frozen(s) && UnassignItem(s, m, i, now) == Ok(t)
    ensures Frozen(t)
  {
    hide UnassignItem, OneRolled, Frozen;
    UnassignItemEffect(s, t, m, i, now);
    forall n | n in t.manifests
      ensures StillCarries(s, t, n)
    {
      if n != m { RowRetiredElsewhere(s.links, FindRow(s.links, OnManifest(m), i), UnitsOf(s, n)); }
    }
    AllStillCarry(s, t);
  }

  // Links unchanged, and no container of a manifest past its draft changed hands.
  lemma UnitsStayFrozen(s: State, t: State)
    requires Frozen(s) && t.links == s.links && t.manifests.Keys == s.manifests.Keys
    requires forall m :: m in s.manifests ==>
      && t.manifests[m].snapshot == s.manifests[m].snapshot
      && t.manifests[m].mode == s.manifests[m].mode
      && (t.manifests[m].status.Draft? <==> s.manifests[m].status.Draft?)
      && (!s.manifests[m].status.Draft? ==> UnitsOf(t, m) == UnitsOf(s, m))
    ensures Frozen(t)
  {
  }

  lemma FinalizeFreezes(s: State, t: State, m: ManifestId, now: Time)
    requires Wf(s) && Frozen(s) && FinalizeManifest(s, m, now) == Ok(t)
    ensures Frozen(t)
  {
    hide FinalizeManifest, CargoRolled, CargoIs, EmptyManifest;
    FinalizeEffect(s, t, m, now);
    forall n | n in t.manifests
      ensures FrozenFor(t, n)
    {
      assert FrozenFor(s, n);
      SameUnits(s, t, n);
    }
  }

  lemma MovesStayFrozen(s: State, t: State, call: Call)
    requires Wf(s) && Frozen(s) && (call.step.DepartStep? || call.step.ArriveStep?) && Try(s, call) == Ok(t)
    ensures Frozen(t)
  {
    hide Depart, Arrive, CargoRolled, CargoIs, EmptyManifest, UnitsOf, ContainersAre, Frozen;
    match call.step {
      case DepartStep(m) =>
        DepartEffect(s, t, m, call.now);
        KeptUnits(s, t, m, ContainerStatus.Departed);
      case ArriveStep(m) =>
        ArriveEffect(s, t, m, call.now);
        KeptUnits(s, t, m, ContainerStatus.Arrived);
    }
    UnitsStayFrozen(s, t);
  }

  lemma KeptUnits(s: State, t: State, m: ManifestId, st: ContainerStatus)
    requires ContainersTook(s, t, m, st) && m in s.manifests && m in t.manifests
    requires t.manifests == s.manifests[m := t.manifests[m]] && t.manifests[m].mode == s.manifests[m].mode
    ensures forall n :: n in s.manifests ==> n in t.manifests && UnitsOf(t, n) == UnitsOf(s, n)
  {
    forall n | n in s.manifests
      ensures n in t.manifests && UnitsOf(t, n) == UnitsOf(s, n)
    {
      SameUnits(s, t, n);
    }
  }

  lemma ContainerStepStaysFrozen(s: State, t: State, call: Call)
    requires Wf(s) && Frozen(s) && Try(s, call) == Ok(t)
    requires call.step.AssignContainerStep? || call.step.UnassignContainerStep? || call.step.SealStep?
      || call.step.OpenStep? || call.step.CloseStep?
    ensures Frozen(t)
  {
    hide AssignContainer, UnassignContainer, Seal, CargoRolled, Frozen, UnitsOf;
    match call.step {
      case AssignContainerStep(m, c, conflict) =>
        AssignContainerEffect(s, t, m, c, conflict, call.now);
        OneContainerKept(s, t, c, m);
      case UnassignContainerStep(m, c) =>
        UnassignContainerEffect(s, t, m, c, call.now);
        OneContainerKept(s, t, c, m);
      case SealStep(c) =>
        SealEffect(s, t, c, call.now);
        OneContainerMoved(s, t, c);
      case OpenStep(c) => OneContainerMoved(s, t, c);
      case CloseStep(c) => OneContainerMoved(s, t, c);
    }
    UnitsStayFrozen(s, t);
  }

  // The container went to or from manifest m; no other manifest sees a difference.
  lemma OneContainerKept(s: State, t: State, c: ContainerId, m: ManifestId)
    requires c in s.containers && c in t.containers && t.containers == s.containers[c := t.containers[c]]
    requires t.manifests == s.manifests
    requires s.containers[c].manifest == Some(m) || s.containers[c].manifest.None?
    requires t.containers[c].manifest == Some(m) || t.containers[c].manifest.None?
    ensures forall n :: n in s.manifests && n != m ==> UnitsOf(t, n) == UnitsOf(s, n)
  {
    forall n | n in s.manifests && n != m
      ensures UnitsOf(t, n) == UnitsOf(s, n)
    {
      SameUnits(s, t, n);
    }
  }

  lemma OneContainerMoved(s: State, t: State, c: ContainerId)
    requires c in s.containers && c in t.containers && t.containers == s.containers[c := t.containers[c]]
    requires t.manifests == s.manifests && t.containers[c].manifest == s.containers[c].manifest
    ensures forall n :: n in s.manifests ==> UnitsOf(t, n) == UnitsOf(s, n)
  {
    forall n | n in s.manifests
      ensures UnitsOf(t, n) == UnitsOf(s, n)
    {
      SameUnits(s, t, n);
    }
  }

  lemma NewContainerStaysFrozen(s: State, t: State, c: ContainerId, wh: Option<WarehouseId>)
    requires Wf(s) && Frozen(s) && CreateContainer(s, c, wh) == Ok(t)
    ensures Frozen(t)
  {
    forall n | n in s.manifests
      ensures UnitsOf(t, n) == UnitsOf(s, n)
    {
    }
    hide Frozen, UnitsOf;
    UnitsStayFrozen(s, t);
  }

  lemma StepStaysFrozen(s: State, t: State, call: Call)
    requires Wf(s) && Fleet(s) && Frozen(s) && !call.step.ManualStep? && Try(s, call) == Ok(t)
    ensures Frozen(t)
  {
    hide Fleet;
    if DeskStep(call.step) {
      DeskStepEffect(s, t, call);
      hide Try;
      UnitsStayFrozen(s, t);
      return;
    }
    hide Frozen, Load, Unload, Seal, AssignItem, UnassignItem, FinalizeManifest, Depart, Arrive;
    hide AssignContainer, UnassignContainer, UnitsOf;
    match call.step {
      case LoadStep(c, i) => LoadStaysFrozen(s, t, c, i, call.now);
      case UnloadStep(c, i) => UnloadStaysFrozen(s, t, c, i, call.now);
      case AssignItemStep(m, i, conflict) => AssignItemStaysFrozen(s, t, m, i, conflict, call.now);
      case UnassignItemStep(m, i) => UnassignItemStaysFrozen(s, t, m, i, call.now);
      case FinalizeStep(m) => FinalizeFreezes(s, t, m, call.now);
      case DepartStep(_) => MovesStayFrozen(s, t, call);
      case ArriveStep(_) => MovesStayFrozen(s, t, call);
      case CreateManifestStep(m, mode, wh, transport) => CreatedStaysFrozen(s, t, m, mode, wh, transport);
      case CreateContainerStep(c, wh) => NewContainerStaysFrozen(s, t, c, wh);
      case _ => ContainerStepStaysFrozen(s, t, call);
    }
  }

  lemma CreatedStaysFrozen(s: State, t: State, m: ManifestId, mode: ShipmentMode, wh: Option<WarehouseId>, transport: Transport)
    requires Wf(s) && Frozen(s) && CreateManifest(s, m, mode, wh, transport) == Ok(t)
    ensures Frozen(t)
  {
    forall n | n in t.manifests
      ensures FrozenFor(t, n)
    {
      if n != m {
        assert FrozenFor(s, n);
        SameUnits(s, t, n);
      }
    }
  }

  lemma {:induction false} RunsFreeze(warehouses: set<WarehouseId>, calls: seq<Call>)
    requires NoManualEvents(calls)
    ensures Frozen(Run(warehouses, calls))
  {
    if calls != [] {
      var n := |calls| - 1;
      RunsFreeze(warehouses, calls[..n]);
      EveryRunIsOrderly(warehouses, calls[..n]);
      hide Frozen, Berths, Fleet, Chained, Try;
      var before := Run(warehouses, calls[..n]);
      match Try(before, calls[n]) {
        case Ok(t) => StepStaysFrozen(before, t, calls[n]);
        case Err(_) =>
      }
    }
  }

  lemma RunExtends(warehouses: set<WarehouseId>, calls: seq<Call>, c: Call)
    ensures Run(warehouses, calls + [c]) == Next(Run(warehouses, calls), c)
  {
    assert (calls + [c])[..|calls|] == calls;
  }

  // A manifest past its draft stays past it, with the snapshot it has.
  lemma StepKeepsSnapshot(s: State, t: State, call: Call, m: ManifestId)
    requires Wf(s) && m in s.manifests && !s.manifests[m].status.Draft? && Try(s, call) == Ok(t)
    ensures m in t.manifests && !t.manifests[m].status.Draft? && t.manifests[m].snapshot == s.manifests[m].snapshot
  {
    hide Load, Unload, Seal, AssignItem, UnassignItem, FinalizeManifest, Depart, Arrive, AssignContainer, UnassignContainer;
    hide CargoRolled, CargoIs, EmptyManifest, OneRolled, UnitsOf;
    if DeskStep(call.step) {
      DeskStepEffect(s, t, call);
      return;
    }
    match call.step {
      case LoadStep(c, i) => LoadEffect(s, t, c, i, call.now);
      case UnloadStep(c, i) => UnloadEffect(s, t, c, i, call.now);
      case AssignItemStep(n, i, conflict) => AssignItemEffect(s, t, n, i, conflict, call.now);
      case UnassignItemStep(n, i) => UnassignItemEffect(s, t, n, i, call.now);
      case SealStep(c) => SealEffect(s, t, c, call.now);
      case FinalizeStep(n) => FinalizeEffect(s, t, n, call.now);
      case DepartStep(n) => DepartEffect(s, t, n, call.now);
      case ArriveStep(n) => ArriveEffect(s, t, n, call.now);
      case AssignContainerStep(n, c, conflict) => AssignContainerEffect(s, t, n, c, conflict, call.now);
      case UnassignContainerStep(n, c) => UnassignContainerEffect(s, t, n, c, call.now);
      case _ =>
    }
  }

  lemma NextKeepsSnapshot(s: State, call: Call, m: ManifestId)
    requires Wf(s) && m in s.manifests && !s.manifests[m].status.Draft?
    ensures var t := Next(s, call);
      m in t.manifests && !t.manifests[m].status.Draft? && t.manifests[m].snapshot == s.manifests[m].snapshot
  {
    hide Try;
    match Try(s, call) {
      case Ok(t) => StepKeepsSnapshot(s, t, call, m);
      case Err(_) =>
    }
  }

  lemma {:induction false} SnapshotStays(warehouses: set<WarehouseId>, calls: seq<Call>, more: seq<Call>, m: ManifestId)
    requires m in Run(warehouses, calls).manifests && !Run(warehouses, calls).manifests[m].status.Draft?
    ensures var s, t := Run(warehouses, calls), Run(warehouses, calls + more);
      m in t.manifests && !t.manifests[m].status.Draft? && t.manifests[m].snapshot == s.manifests[m].snapshot
  {
    hide Wf, Next, Run;
    if more == [] {
      assert calls + more == calls;
    } else {
      var n := |more| - 1;
      SnapshotStays(warehouses, calls, more[..n], m);
      RunExtends(warehouses, calls + more[..n], more[n]);
      assert calls + more == (calls + more[..n]) + [more[n]];
      NextKeepsSnapshot(Run(warehouses, calls + more[..n]), more[n], m);
    }
  }

  // Whatever happens after finalize, the snapshot stays the one it was, and it stays equal to the
  // live cargo list of the manifest.
  lemma SnapshotIsTheCargo(warehouses: set<WarehouseId>, calls: seq<Call>, more: seq<Call>, m: ManifestId)
    requires NoManualEvents(calls) && NoManualEvents(more)
    requires m in Run(warehouses, calls).manifests && !Run(warehouses, calls).manifests[m].status.Draft?
    ensures var s, t := Run(warehouses, calls), Run(warehouses, calls + more);
      && m in t.manifests
      && s.manifests[m].snapshot == Some(Carried(s, m))
      && t.manifests[m].snapshot == Some(Carried(s, m))
      && Carried(t, m) == Carried(s, m)
  {
    SnapshotStays(warehouses, calls, more, m);
    RunsFreeze(warehouses, calls);
    RunsFreeze(warehouses, calls + more);
    assert FrozenFor(Run(warehouses, calls), m) && FrozenFor(Run(warehouses, calls + more), m);
  }
}
