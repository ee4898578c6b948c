/** Every service call keeps lockstep, so every run without manual events is in lockstep. */
module LockstepSteps {
  import opened Basics
  import opened Statuses
  import opened CargoState
  import opened CargoSteps
  import opened CargoRuns
  import opened CargoEffects
  import opened Lockstep
  import opened Occupancy

  lemma LoadKeeps(s: State, t: State, c: ContainerId, i: ItemId, now: Time)
    requires Wf(s) && Wf(t) && InLockstep(s) && Load(s, c, i, now) == Ok(t)
    ensures InLockstep(t)
  {
    LoadEffect(s, t, c, i, now);
    LoadedKeeps(s, t, c, i);
  }

  lemma LoadedKeeps(s: State, t: State, c: ContainerId, i: ItemId)
    requires Wf(s) && Wf(t) && InLockstep(s) && ItemChanged(s, t, i)
    requires t.links == s.links + [Link(InContainer(c), s.items[i].shipment, i, true)] && t.manifests == s.manifests
    requires c in s.containers && Accepting(s.containers[c].status)
    requires t.containers == s.containers[c := s.containers[c].(status := ContainerStatus.Loading)]
    requires s.items[i].status.Processed? && t.items[i].status.AssignedToContainer?
    ensures InLockstep(t)
  {
    Boards(s, t, InContainer(c), i);
    LinkAppended(s, t, c);
  }

  lemma LinkAppended(s: State, t: State, c: ContainerId)
    requires Wf(s) && Fleet(s) && c in s.containers && Accepting(s.containers[c].status)
    requires t.manifests == s.manifests
    requires t.containers == s.containers[c := s.containers[c].(status := ContainerStatus.Loading)]
    requires exists i, sh :: t.links == s.links + [Link(InContainer(c), sh, i, true)]
    ensures Fleet(t)
  {
    RowAppended(s.links, t.links[|s.links|]);
    forall m | m in t.manifests && !t.manifests[m].status.Draft?
      ensures !EmptyManifest(t.containers, t.links, m, t.manifests[m])
    {
      assert !EmptyManifest(s.containers, s.links, m, s.manifests[m]);
      if !t.manifests[m].mode.Air? {
        var d :| d in s.containers && s.containers[d].manifest == Some(m);
        assert t.containers[d].manifest == Some(m);
      }
    }
  }

  lemma UnloadKeeps(s: State, t: State, c: ContainerId, i: ItemId, now: Time)
    requires Wf(s) && Wf(t) && InLockstep(s) && Unload(s, c, i, now) == Ok(t)
    ensures InLockstep(t)
  {
    UnloadEffect(s, t, c, i, now);
    UnloadedKeeps(s, t, c, i, FindRow(s.links, InContainer(c), i));
  }

  lemma UnloadedKeeps(s: State, t: State, c: ContainerId, i: ItemId, k: nat)
    requires Wf(s) && Wf(t) && InLockstep(s) && ItemChanged(s, t, i) && t.items[i].status.Processed?
    requires ActiveOn(s.links, k, InContainer(c), i) && t.links == Retire(s.links, k)
    requires t.manifests == s.manifests && c in s.containers && Accepting(s.containers[c].status)
    requires t.containers ==
      if NobodyAboard(t.links, {InContainer(c)}) && s.containers[c].status.Loading?
      then s.containers[c := s.containers[c].(status := ContainerStatus.Booked)] else s.containers
    ensures InLockstep(t)
  {
    Leaves(s, t, k);
    LinkRetired(s, t, c, k);
  }

  lemma LinkRetired(s: State, t: State, c: ContainerId, k: nat)
    requires Wf(s) && Fleet(s) && c in s.containers && Accepting(s.containers[c].status)
    requires k < |s.links| && Carries(s.links[k], {InContainer(c)})
    requires t.manifests == s.manifests && t.links == Retire(s.links, k)
    requires t.containers ==
      if NobodyAboard(t.links, {InContainer(c)}) && s.containers[c].status.Loading?
      then s.containers[c := s.containers[c].(status := ContainerStatus.Booked)] else s.containers
    ensures Fleet(t)
  {
    RowRetired(s.links, k);
    assert Paired(s.containers[c], s.manifests);
    forall m | m in t.manifests && !t.manifests[m].status.Draft?
      ensures !EmptyManifest(t.containers, t.links, m, t.manifests[m])
    {
      assert !EmptyManifest(s.containers, s.links, m, s.manifests[m]);
      if !t.manifests[m].mode.Air? {
        var d :| d in s.containers && s.containers[d].manifest == Some(m);
        assert t.containers[d].manifest == Some(m);
      }
    }
  }

  lemma AssignItemKeeps(s: State, t: State, m: ManifestId, i: ItemId, conflict: bool, now: Time)
    requires Wf(s) && Wf(t) && InLockstep(s) && AssignItem(s, m, i, conflict, now) == Ok(t)
    ensures InLockstep(t)
  {
    AssignItemEffect(s, t, m, i, conflict, now);
    AssignedKeeps(s, t, m, i);
  }

  lemma AssignedKeeps(s: State, t: State, m: ManifestId, i: ItemId)
    requires Wf(s) && Wf(t) && InLockstep(s) && ItemChanged(s, t, i)
    requires t.links == s.links + [Link(OnManifest(m), s.items[i].shipment, i, true)]
    requires t.manifests == s.manifests && t.containers == s.containers
    requires m in s.manifests && s.manifests[m].mode.Air? && s.manifests[m].status.Draft?
    requires s.items[i].status.Processed? && t.items[i].status.AssignedToManifest?
    ensures InLockstep(t)
  {
    Boards(s, t, OnManifest(m), i);
    RowAppended(s.links, t.links[|s.links|]);
  }

  lemma UnassignItemKeeps(s: State, t: State, m: ManifestId, i: ItemId, now: Time)
    requires Wf(s) && Wf(t) && InLockstep(s) && UnassignItem(s, m, i, now) == Ok(t)
    ensures InLockstep(t)
  {
    UnassignItemEffect(s, t, m, i, now);
    var k := FindRow(s.links, OnManifest(m), i);
    Leaves(s, t, k);
    RowRetired(s.links, k);
  }

  lemma SealKeeps(s: State, t: State, c: ContainerId, now: Time)
    requires Wf(s) && Wf(t) && InLockstep(s) && Seal(s, c, now) == Ok(t)
    ensures InLockstep(t)
  {
    SealEffect(s, t, c, now);
    SealedKeeps(s, t, c);
  }

  lemma SealedKeeps(s: State, t: State, c: ContainerId)
    requires Wf(s) && Wf(t) && InLockstep(s) && CargoTook(s, t, {InContainer(c)}, ItemStatus.Loaded)
    requires t.manifests == s.manifests && c in s.containers && s.containers[c].status.Loading?
    requires t.containers == s.containers[c := s.containers[c].(status := ContainerStatus.Loaded)]
    ensures InLockstep(t)
  {
    assert Paired(s.containers[c], s.manifests);
    UnitsMoveOn(s, t, {InContainer(c)}, ItemStatus.Loaded);
    ContainerUpdated(s, t, c);
  }

  // A container's own row changed; its links and every manifest did not.
  lemma ContainerUpdated(s: State, t: State, c: ContainerId)
    requires Wf(s) && Fleet(s) && c in s.containers && c in t.containers
    requires t.links == s.links && t.manifests == s.manifests
    requires t.containers == s.containers[c := t.containers[c]]
    requires Paired(t.containers[c], t.manifests)
    requires s.containers[c].manifest.Some? && !s.manifests[s.containers[c].manifest.value].status.Draft?
      ==> t.containers[c].manifest == s.containers[c].manifest
    ensures Fleet(t)
  {
    forall m | m in t.manifests && !t.manifests[m].status.Draft?
      ensures !EmptyManifest(t.containers, t.links, m, t.manifests[m])
    {
      assert !EmptyManifest(s.containers, s.links, m, s.manifests[m]);
      if !t.manifests[m].mode.Air? {
        var d :| d in s.containers && s.containers[d].manifest == Some(m);
        assert t.containers[d].manifest == Some(m);
      }
    }
  }

  // Only the manifest column of a sealed container, or the destination status of a landed one, changes.
  lemma ContainerStepKeeps(s: State, t: State, c: ContainerId)
    requires Wf(s) && Wf(t) && InLockstep(s) && c in s.containers && c in t.containers
    requires t.items == s.items && t.links == s.links && t.manifests == s.manifests
    requires t.containers == s.containers[c := t.containers[c]]
    requires Paired(t.containers[c], t.manifests)
    requires LegOf(t, InContainer(c)) == LegOf(s, InContainer(c)) && !LegOf(s, InContainer(c)).Boarding?
    requires s.containers[c].manifest.Some? && !s.manifests[s.containers[c].manifest.value].status.Draft?
      ==> t.containers[c].manifest == s.containers[c].manifest
    ensures InLockstep(t)
  {
    ContainerUpdated(s, t, c);
    BerthsFramed(s, t);
  }

  lemma BerthsFramed(s: State, t: State)
    requires Wf(s) && Wf(t) && Berths(s)
    requires t.items == s.items && t.links == s.links
    requires forall u :: UnitExists(s.containers, s.manifests, u) ==>
      UnitExists(t.containers, t.manifests, u) && LegOf(t, u) == LegOf(s, u)
    ensures Berths(t)
  {
    forall j | j in t.items && Tied(t.items[j].status)
      ensures HasBerth(t, j)
    {
      assert HasBerth(s, j);
      var k :| 0 <= k < |s.links| && s.links[k].active && s.links[k].item == j && !LegOf(s, s.links[k].unit).Landed?;
      assert t.links[k].active && t.links[k].item == j;
    }
  }

  lemma AssignContainerKeeps(s: State, t: State, m: ManifestId, c: ContainerId, conflict: bool, now: Time)
    requires Wf(s) && Wf(t) && InLockstep(s) && AssignContainer(s, m, c, conflict, now) == Ok(t)
    ensures InLockstep(t)
  {
    AssignContainerEffect(s, t, m, c, conflict, now);
    ContainerStepKeeps(s, t, c);
  }

  lemma UnassignContainerKeeps(s: State, t: State, m: ManifestId, c: ContainerId, now: Time)
    requires Wf(s) && Wf(t) && InLockstep(s) && UnassignContainer(s, m, c, now) == Ok(t)
    ensures InLockstep(t)
  {
    UnassignContainerEffect(s, t, m, c, now);
    assert Paired(s.containers[c], s.manifests);
    ContainerStepKeeps(s, t, c);
  }

  lemma UnitsOfMembers(s: State, m: ManifestId)
    requires Wf(s) && m in s.manifests
    ensures forall u :: UnitExists(s.containers, s.manifests, u) ==> (u in UnitsOf(s, m) <==>
      match u
      case InContainer(c) => s.containers[c].manifest == Some(m)
      case OnManifest(n) => n == m)
  {
  }

  lemma FinalizeKeeps(s: State, t: State, m: ManifestId, now: Time)
    requires Wf(s) && Wf(t) && InLockstep(s) && FinalizeManifest(s, m, now) == Ok(t)
    ensures InLockstep(t)
  {
    FinalizeEffect(s, t, m, now);
    FinalizedKeeps(s, t, m);
  }

  lemma FinalizedKeeps(s: State, t: State, m: ManifestId)
    requires Wf(s) && Wf(t) && InLockstep(s) && m in s.manifests && m in t.manifests && s.manifests[m].status.Draft?
    requires !EmptyManifest(s.containers, s.links, m, s.manifests[m])
    requires t.containers == s.containers && t.links == s.links && t.manifests == s.manifests[m := t.manifests[m]]
    requires t.manifests[m].status.Finalized? && t.manifests[m].mode == s.manifests[m].mode
    requires if s.manifests[m].mode.Air? then CargoTook(s, t, UnitsOf(s, m), ItemStatus.Loaded) else t.items == s.items
    ensures InLockstep(t)
  {
    if s.manifests[m].mode.Air? {
      ManifestMovesOn(s, t, m, ContainerStatus.Loaded, ItemStatus.Loaded);
    } else {
      BerthsFramed(s, t);
    }
    assert ContainersPaired(t.containers, t.manifests) by {
      assert forall c :: c in s.containers ==> Paired(s.containers[c], s.manifests);
    }
  }

  // A unit in motion goes to a leg that the item status st fits.
  ghost predicate Goes(s: State, t: State, u: Unit, st: ItemStatus) {
    && UnitExists(s.containers, s.manifests, u)
    && UnitExists(t.containers, t.manifests, u)
    && !LegOf(s, u).Landed?
    && Fits(u, LegOf(t, u), st)
    && (LegOf(t, u).Landed? ==> !Tied(st))
  }

  // The manifest goes one leg further with everything it carries.
  lemma ManifestMovesOn(s: State, t: State, m: ManifestId, onBoard: ContainerStatus, st: ItemStatus)
    requires Wf(s) && Wf(t) && Berths(s) && m in s.manifests && m in t.manifests
    requires CargoTook(s, t, UnitsOf(s, m), st)
    requires t.manifests == s.manifests[m := t.manifests[m]] && t.manifests[m].mode == s.manifests[m].mode
    requires ContainersTook(s, t, m, onBoard)
    requires s.manifests[m].mode.Air? ==> Goes(s, t, OnManifest(m), st)
    requires forall c :: c in s.containers && s.containers[c].manifest == Some(m) ==> Goes(s, t, InContainer(c), st)
    ensures Berths(t)
  {
    UnitsOfMembers(s, m);
    forall u | UnitExists(s.containers, s.manifests, u)
      ensures UnitExists(t.containers, t.manifests, u)
      ensures u !in UnitsOf(s, m) ==> LegOf(t, u) == LegOf(s, u)
      ensures u in UnitsOf(s, m) ==> Goes(s, t, u, st)
    {
      match u {
        case InContainer(c) =>
          if s.containers[c].manifest == Some(m) { assert u in UnitsOf(s, m); }
        case OnManifest(n) =>
      }
    }
    UnitsMoveOn(s, t, UnitsOf(s, m), st);
  }

  lemma DepartKeeps(s: State, t: State, m: ManifestId, now: Time)
    requires Wf(s) && Wf(t) && InLockstep(s) && Depart(s, m, now) == Ok(t)
    ensures InLockstep(t)
  {
    DepartEffect(s, t, m, now);
    DepartedKeeps(s, t, m);
  }

  lemma DepartedBerths(s: State, t: State, m: ManifestId)
    requires Wf(s) && Wf(t) && Berths(s) && m in s.manifests && s.manifests[m].status.Finalized?
    requires CargoTook(s, t, UnitsOf(s, m), ItemStatus.DepartedOrigin)
    requires t.manifests == s.manifests[m := s.manifests[m].(status := ManifestStatus.Departed)]
    requires ContainersAre(s, m, ContainerStatus.Loaded) && ContainersTook(s, t, m, ContainerStatus.Departed)
    ensures Berths(t)
  {
    forall c | c in s.containers && s.containers[c].manifest == Some(m)
      ensures Goes(s, t, InContainer(c), ItemStatus.DepartedOrigin)
    {
    }
    ManifestMovesOn(s, t, m, ContainerStatus.Departed, ItemStatus.DepartedOrigin);
  }

  lemma DepartedKeeps(s: State, t: State, m: ManifestId)
    requires Wf(s) && Wf(t) && InLockstep(s) && m in s.manifests && s.manifests[m].status.Finalized?
    requires !EmptyManifest(s.containers, s.links, m, s.manifests[m])
    requires CargoTook(s, t, UnitsOf(s, m), ItemStatus.DepartedOrigin)
    requires t.manifests == s.manifests[m := s.manifests[m].(status := ManifestStatus.Departed)]
    requires ContainersAre(s, m, ContainerStatus.Loaded) && ContainersTook(s, t, m, ContainerStatus.Departed)
    ensures InLockstep(t)
  {
    DepartedBerths(s, t, m);
    ManifestMoved(s, t, m, ContainerStatus.Departed);
  }

  lemma ArriveKeeps(s: State, t: State, m: ManifestId, now: Time)
    requires Wf(s) && Wf(t) && InLockstep(s) && Arrive(s, m, now) == Ok(t)
    ensures InLockstep(t)
  {
    ArriveEffect(s, t, m, now);
    ArrivedKeeps(s, t, m);
  }

  lemma ArrivedBerths(s: State, t: State, m: ManifestId)
    requires Wf(s) && Wf(t) && Berths(s) && m in s.manifests && s.manifests[m].status.Departed?
    requires CargoTook(s, t, UnitsOf(s, m), ItemStatus.ArrivedDestination)
    requires t.manifests == s.manifests[m := s.manifests[m].(status := ManifestStatus.Arrived)]
    requires ContainersAre(s, m, ContainerStatus.Departed) && ContainersTook(s, t, m, ContainerStatus.Arrived)
    ensures Berths(t)
  {
    forall c | c in s.containers && s.containers[c].manifest == Some(m)
      ensures Goes(s, t, InContainer(c), ItemStatus.ArrivedDestination)
    {
    }
    ManifestMovesOn(s, t, m, ContainerStatus.Arrived, ItemStatus.ArrivedDestination);
  }

  lemma ArrivedKeeps(s: State, t: State, m: ManifestId)
    requires Wf(s) && Wf(t) && InLockstep(s) && m in s.manifests && s.manifests[m].status.Departed?
    requires !EmptyManifest(s.containers, s.links, m, s.manifests[m])
    requires CargoTook(s, t, UnitsOf(s, m), ItemStatus.ArrivedDestination)
    requires t.manifests == s.manifests[m := s.manifests[m].(status := ManifestStatus.Arrived)]
    requires ContainersAre(s, m, ContainerStatus.Departed) && ContainersTook(s, t, m, ContainerStatus.Arrived)
    ensures InLockstep(t)
  {
    ArrivedBerths(s, t, m);
    ManifestMoved(s, t, m, ContainerStatus.Arrived);
  }

  // A manifest and its containers moved together.
  lemma ManifestMoved(s: State, t: State, m: ManifestId, onBoard: ContainerStatus)
    requires Wf(s) && Wf(t) && Fleet(s) && m in s.manifests && t.links == s.links
    requires m in t.manifests && t.manifests == s.manifests[m := t.manifests[m]] && t.manifests[m].mode == s.manifests[m].mode
    requires t.manifests[m].status.Departed? || t.manifests[m].status.Arrived?
    requires !EmptyManifest(s.containers, s.links, m, s.manifests[m])
    requires ContainersTook(s, t, m, onBoard) && Paired(Container(onBoard, None, Some(m)), t.manifests)
    ensures Fleet(t)
  {
    forall c | c in t.containers
      ensures Paired(t.containers[c], t.manifests)
    {
      assert Paired(s.containers[c], s.manifests);
    }
    forall n | n in t.manifests && !t.manifests[n].status.Draft?
      ensures !EmptyManifest(t.containers, t.links, n, t.manifests[n])
    {
      assert !EmptyManifest(s.containers, s.links, n, s.manifests[n]);
      if !t.manifests[n].mode.Air? {
        var d :| d in s.containers && s.containers[d].manifest == Some(n);
        assert t.containers[d].manifest == Some(n);
      }
    }
  }

  lemma CreateContainerKeeps(s: State, c: ContainerId, wh: Option<WarehouseId>)
    requires Wf(s) && InLockstep(s) && CreateContainer(s, c, wh).Ok?
    ensures InLockstep(CreateContainer(s, c, wh).value)
  {
    var t := CreateContainer(s, c, wh).value;
    BerthsFramed(s, t);
    forall m | m in t.manifests && !t.manifests[m].status.Draft?
      ensures !EmptyManifest(t.containers, t.links, m, t.manifests[m])
    {
      assert !EmptyManifest(s.containers, s.links, m, s.manifests[m]);
      if !t.manifests[m].mode.Air? {
        var d :| d in s.containers && s.containers[d].manifest == Some(m);
        assert t.containers[d].manifest == Some(m);
      }
    }
  }

  lemma CreateManifestKeeps(s: State, m: ManifestId, mode: ShipmentMode, wh: Option<WarehouseId>, transport: Transport)
    requires Wf(s) && InLockstep(s) && CreateManifest(s, m, mode, wh, transport).Ok?
    ensures InLockstep(CreateManifest(s, m, mode, wh, transport).value)
  {
    BerthsFramed(s, CreateManifest(s, m, mode, wh, transport).value);
  }

  lemma CreateShipmentKeeps(s: State, t: State, sh: ShipmentId, email: bool, ids: seq<ItemId>, now: Time)
    requires Wf(s) && Wf(t) && InLockstep(s) && CreateShipment(s, sh, email, ids, now) == Ok(t)
    ensures InLockstep(t)
  {
    CreateShipmentEffect(s, t, sh, email, ids, now);
    LooseItemsMove(s, t);
  }

  lemma WarehouseStepKeeps(s: State, t: State, call: Call)
    requires Wf(s) && Wf(t) && InLockstep(s) && WarehouseStep(call.step) && Try(s, call) == Ok(t)
    ensures InLockstep(t)
  {
    WarehouseStepEffect(s, t, call);
    LooseItemsMove(s, t);
  }

  lemma AddItemKeeps(s: State, t: State, sh: ShipmentId, i: ItemId, now: Time)
    requires Wf(s) && Wf(t) && InLockstep(s) && AddItem(s, sh, i, now) == Ok(t)
    ensures InLockstep(t)
  {
    AddItemEffect(s, t, sh, i, now);
    LooseItemsMove(s, t);
  }

  lemma StepKeepsLockstep(s: State, t: State, call: Call)
    requires Wf(s) && Wf(t) && InLockstep(s) && !call.step.ManualStep? && Try(s, call) == Ok(t)
    ensures InLockstep(t)
  {
    if WarehouseStep(call.step) {
      WarehouseStepKeeps(s, t, call);
    } else {
      match call.step {
        case CreateShipmentStep(sh, email, ids) => CreateShipmentKeeps(s, t, sh, email, ids, call.now);
        case AddItemStep(sh, i) => AddItemKeeps(s, t, sh, i, call.now);
        case CreateContainerStep(c, wh) => CreateContainerKeeps(s, c, wh);
        case LoadStep(c, i) => LoadKeeps(s, t, c, i, call.now);
        case UnloadStep(c, i) => UnloadKeeps(s, t, c, i, call.now);
        case SealStep(c) => SealKeeps(s, t, c, call.now);
        case OpenStep(c) => ContainerStepKeeps(s, t, c);
        case CloseStep(c) => ContainerStepKeeps(s, t, c);
        case CreateManifestStep(m, mode, wh, transport) => CreateManifestKeeps(s, m, mode, wh, transport);
        case AssignContainerStep(m, c, conflict) => AssignContainerKeeps(s, t, m, c, conflict, call.now);
        case UnassignContainerStep(m, c) => UnassignContainerKeeps(s, t, m, c, call.now);
        case AssignItemStep(m, i, conflict) => AssignItemKeeps(s, t, m, i, conflict, call.now);
        case UnassignItemStep(m, i) => UnassignItemKeeps(s, t, m, i, call.now);
        case FinalizeStep(m) => FinalizeKeeps(s, t, m, call.now);
        case DepartStep(m) => DepartKeeps(s, t, m, call.now);
        case ArriveStep(m) => ArriveKeeps(s, t, m, call.now);
      }
    }
  }
}
