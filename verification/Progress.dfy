/**
 What lockstep buys: item statuses and transports determine each other, an item is on one
 transport at a time, and no re-check of depart, arrive or finalize can fail once started.
 */
module Progress {
  import opened Basics
  import opened Statuses
  import opened CargoState
  import opened CargoSteps
  import opened CargoRuns
  import opened Lockstep
  import opened Stranding
  import opened StrandingSteps
  import opened Occupancy

  // An active row puts the item on such a unit, on that leg of its way.
  ghost predicate OnLeg(s: State, k: nat, i: ItemId, leg: Leg)
    requires Wf(s)
  {
    k < |s.links| && s.links[k].active && s.links[k].item == i && LegOf(s, s.links[k].unit) == leg
  }

  ghost predicate BoardsContainer(s: State, i: ItemId)
    requires Wf(s)
  {
    exists k: nat :: OnLeg(s, k, i, Boarding) && s.links[k].unit.InContainer?
  }

  ghost predicate BoardsFlight(s: State, i: ItemId)
    requires Wf(s)
  {
    exists k: nat :: OnLeg(s, k, i, Boarding) && s.links[k].unit.OnManifest?
  }

  ghost predicate Rides(s: State, i: ItemId, leg: Leg)
    requires Wf(s)
  {
    exists k: nat :: OnLeg(s, k, i, leg)
  }

  lemma RidersAgree(s: State, i: ItemId)
    requires Wf(s) && InLockstep(s) && i in s.items
    ensures BoardsContainer(s, i) ==> s.items[i].status.AssignedToContainer?
    ensures BoardsFlight(s, i) ==> s.items[i].status.AssignedToManifest?
    ensures Rides(s, i, Sealed) ==> s.items[i].status.Loaded?
    ensures Rides(s, i, Underway) ==> s.items[i].status.DepartedOrigin?
  {
    forall k: nat, leg | OnLeg(s, k, i, leg)
      ensures Fits(s.links[k].unit, leg, s.items[i].status)
    {
      RowFits(s, k);
    }
  }

  lemma TiedRide(s: State, i: ItemId)
    requires Wf(s) && InLockstep(s) && i in s.items
    ensures s.items[i].status.AssignedToContainer? ==> BoardsContainer(s, i)
    ensures s.items[i].status.AssignedToManifest? ==> BoardsFlight(s, i)
    ensures s.items[i].status.Loaded? ==> Rides(s, i, Sealed)
    ensures s.items[i].status.DepartedOrigin? ==> Rides(s, i, Underway)
  {
    var st := s.items[i].status;
    if st.AssignedToContainer? || st.AssignedToManifest? || st.Loaded? || st.DepartedOrigin? {
      assert HasBerth(s, i);
      var k :| 0 <= k < |s.links| && s.links[k].active && s.links[k].item == i && !LegOf(s, s.links[k].unit).Landed?;
      RowFits(s, k);
      assert OnLeg(s, k, i, LegOf(s, s.links[k].unit));
    }
  }

  // In every reachable state an item's status says exactly what it is riding and how far that has
  // come, and it rides at most one transport that has not arrived, containers and flights together.
  lemma ItemsAndTransportsAgree(warehouses: set<WarehouseId>, calls: seq<Call>, i: ItemId)
    requires NoManualEvents(calls) && i in Run(warehouses, calls).items
    ensures var s := Run(warehouses, calls); var st := s.items[i].status;
      && (st.AssignedToContainer? <==> BoardsContainer(s, i))
      && (st.AssignedToManifest? <==> BoardsFlight(s, i))
      && (st.Loaded? <==> Rides(s, i, Sealed))
      && (st.DepartedOrigin? <==> Rides(s, i, Underway))
      && (forall j: nat, k: nat, legJ, legK ::
            OnLeg(s, j, i, legJ) && OnLeg(s, k, i, legK) && !legJ.Landed? && !legK.Landed? ==> j == k)
  {
    EveryRunIsOrderly(warehouses, calls);
    RidersAgree(Run(warehouses, calls), i);
    TiedRide(Run(warehouses, calls), i);
  }

  // A container and its manifest: who is where, both ways.
  lemma ContainersAndManifestsAgree(warehouses: set<WarehouseId>, calls: seq<Call>, c: ContainerId)
    requires NoManualEvents(calls) && c in Run(warehouses, calls).containers
    ensures var s := Run(warehouses, calls); var row := s.containers[c];
      && (row.manifest.Some? ==> row.manifest.value in s.manifests)
      && (row.status.Booked? || row.status.Loading? ==> row.manifest.None?)
      && (row.status.Departed? <==> row.manifest.Some? && s.manifests[row.manifest.value].status.Departed?)
      && (row.status.Arrived? || row.status.Unloading? || row.status.Closed?
          <==> row.manifest.Some? && s.manifests[row.manifest.value].status.Arrived?)
  {
    EveryRunIsOrderly(warehouses, calls);
    assert Paired(Run(warehouses, calls).containers[c], Run(warehouses, calls).manifests);
  }

  // --- Progress -----------------------------------------------------------------------

  lemma ApprovedContainersAre(s: State, m: ManifestId)
    requires Wf(s) && Fleet(s) && m in s.manifests
    ensures s.manifests[m].status.Draft? || s.manifests[m].status.Finalized? ==> ContainersAre(s, m, ContainerStatus.Loaded)
    ensures s.manifests[m].status.Departed? ==> ContainersAre(s, m, ContainerStatus.Departed)
  {
    forall c | c in s.containers && s.containers[c].manifest == Some(m)
      ensures Paired(s.containers[c], s.manifests)
    {
    }
  }

  lemma ApprovedCargoIs(s: State, m: ManifestId)
    requires Wf(s) && InLockstep(s) && m in s.manifests
    ensures s.manifests[m].status.Draft? ==>
      CargoIs(s, UnitsOf(s, m), if s.manifests[m].mode.Air? then ItemStatus.AssignedToManifest else ItemStatus.Loaded)
    ensures s.manifests[m].status.Finalized? ==> CargoIs(s, UnitsOf(s, m), ItemStatus.Loaded)
    ensures s.manifests[m].status.Departed? ==> CargoIs(s, UnitsOf(s, m), ItemStatus.DepartedOrigin)
  {
    ApprovedContainersAre(s, m);
    forall k | 0 <= k < |s.links| && Carries(s.links[k], UnitsOf(s, m))
      ensures Fits(s.links[k].unit, LegOf(s, s.links[k].unit), s.items[s.links[k].item].status)
    {
      RowFits(s, k);
    }
  }

  // Something is aboard: an active row on a flight, a container on any other manifest.
  ghost predicate HasCargo(s: State, m: ManifestId)
    requires m in s.manifests
  {
    if s.manifests[m].mode.Air? then exists k :: 0 <= k < |s.links| && s.links[k].active && s.links[k].unit == OnManifest(m)
    else exists c :: c in s.containers && s.containers[c].manifest == Some(m)
  }

  lemma CargoMeans(s: State, m: ManifestId)
    requires m in s.manifests
    ensures EmptyManifest(s.containers, s.links, m, s.manifests[m]) <==> !HasCargo(s, m)
  {
    if s.manifests[m].mode.Air? {
      assert forall k :: 0 <= k < |s.links| ==>
        (Carries(s.links[k], {OnManifest(m)}) <==> s.links[k].active && s.links[k].unit == OnManifest(m));
    }
  }

  // In every reachable state: a draft manifest finalizes exactly when it has a carrier, a destination, an
  // origin and the details of its mode, and carries something; a finalized manifest departs, a departed
  // one arrives.
  lemma ManifestsMakeProgress(warehouses: set<WarehouseId>, calls: seq<Call>, m: ManifestId, now: Time)
    requires NoManualEvents(calls) && m in Run(warehouses, calls).manifests
    ensures var s := Run(warehouses, calls);
      && (s.manifests[m].status.Draft? ==>
        (FinalizeManifest(s, m, now).Ok? <==>
          var row := s.manifests[m];
          && row.transport.carrier
          && row.transport.destinationLocation
          && (row.transport.originLocation || row.originWarehouse.Some?)
          && (if row.mode.Air? then row.transport.flight else row.transport.vessel && row.transport.voyage)
          && HasCargo(s, m)))
      && (s.manifests[m].status.Finalized? ==> Depart(s, m, now).Ok?)
      && (s.manifests[m].status.Departed? ==> Arrive(s, m, now).Ok?)
      && (s.manifests[m].status.Departed? ==> CargoIs(s, UnitsOf(s, m), ItemStatus.DepartedOrigin))
  {
    hide Run, InLockstep, CargoIs, FinalizeManifest, Depart, Arrive, HasCargo;
    EveryRunIsOrderly(warehouses, calls);
    var s := Run(warehouses, calls);
    LockstepOf(s);
    ApprovedCargoIs(s, m);
    if s.manifests[m].status.Draft? { DraftFinalizes(s, m, now); }
    GoesOn(s, m, now);
  }

  lemma LockstepOf(s: State)
    requires Wf(s) && Orderly(s)
    ensures InLockstep(s)
  {
  }

  lemma DraftFinalizes(s: State, m: ManifestId, now: Time)
    requires Wf(s) && InLockstep(s) && m in s.manifests && s.manifests[m].status.Draft?
    ensures FinalizeManifest(s, m, now).Ok? <==>
      var row := s.manifests[m];
      && row.transport.carrier
      && row.transport.destinationLocation
      && (row.transport.originLocation || row.originWarehouse.Some?)
      && (if row.mode.Air? then row.transport.flight else row.transport.vessel && row.transport.voyage)
      && HasCargo(s, m)
  {
    hide InLockstep, ContainersAre, CargoIs, EmptyManifest, HasCargo, TrackCargo, RollAffected, Wf;
    FleetOf(s);
    ApprovedContainersAre(s, m);
    ApprovedCargoIs(s, m);
    CargoMeans(s, m);
  }

  lemma FleetOf(s: State)
    requires Wf(s) && InLockstep(s)
    ensures Fleet(s)
  {
  }

  lemma GoesOn(s: State, m: ManifestId, now: Time)
    requires Wf(s) && InLockstep(s) && m in s.manifests
    ensures s.manifests[m].status.Finalized? ==> Depart(s, m, now).Ok?
    ensures s.manifests[m].status.Departed? ==> Arrive(s, m, now).Ok?
  {
    hide InLockstep, ContainersAre, CargoIs, EmptyManifest, TrackCargo, RollAffected, MoveContainers, Wf;
    FleetOf(s);
    if !s.manifests[m].status.Draft? { Staffed(s, m); }
    ApprovedContainersAre(s, m);
    ApprovedCargoIs(s, m);
  }

  lemma Staffed(s: State, m: ManifestId)
    requires Wf(s) && Fleet(s) && m in s.manifests && !s.manifests[m].status.Draft?
    ensures !EmptyManifest(s.containers, s.links, m, s.manifests[m])
  {
  }

  // A container that is being loaded can always be sealed.
  lemma LoadingContainersSeal(warehouses: set<WarehouseId>, calls: seq<Call>, c: ContainerId, now: Time)
    requires c in Run(warehouses, calls).containers
    ensures Seal(Run(warehouses, calls), c, now).Ok? <==> Run(warehouses, calls).containers[c].status.Loading?
  {
    BookedExactlyWhenEmpty(warehouses, calls, c, now);
  }
}
