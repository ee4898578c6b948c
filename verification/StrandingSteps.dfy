/** Every service call keeps the chain, so no run without manual events strands a shipment. */
module StrandingSteps {
  import opened Basics
  import opened Statuses
  import opened CargoState
  import opened CargoSteps
  import opened CargoRuns
  import opened CargoEffects
  import opened Lockstep
  import opened LockstepSteps
  import opened Stranding

  ghost predicate Chained(s: State) {
    && RegularItems(s.items)
    && (forall sh :: sh in s.shipments ==> Settled(MarksOf(s.items, sh), s.shipments[sh].status))
  }

  // One item changed, and no status but its shipment's: it is enough to look there.
  ghost predicate OwnerSettled(s: State, t: State, i: ItemId) {
    && ItemChanged(s, t, i)
    && RegularItem(t.items[i])
    && s.items[i].shipment in t.shipments
    && t.shipments == s.shipments[s.items[i].shipment := t.shipments[s.items[i].shipment]]
    && Settled(MarksOf(t.items, s.items[i].shipment), t.shipments[s.items[i].shipment].status)
  }

  lemma OwnerSuffices(s: State, t: State, i: ItemId)
    requires Wf(s) && Chained(s) && OwnerSettled(s, t, i)
    ensures Chained(t)
  {
    hide MarksOf, Settled;
    forall sh | sh in t.shipments
      ensures Settled(MarksOf(t.items, sh), t.shipments[sh].status)
    {
      if sh != s.items[i].shipment {
        OthersUnmoved(s, t, i, sh);
      }
    }
  }

  // The premises every link needs.
  lemma Turned(s: State, t: State, i: ItemId)
    requires Wf(s) && Chained(s) && ItemChanged(s, t, i) && RegularItem(t.items[i])
    ensures var sh := s.items[i].shipment;
      Turn(MarksOf(s.items, sh), MarksOf(t.items, sh), s.items[i], t.items[i], s.shipments[sh].status)
    ensures HasItems(t.items, s.items[i].shipment) && RegularItem(s.items[i])
  {
    hide MarksOf, Settled, Turn;
    MarksTurn(s, t, i, s.shipments[s.items[i].shipment].status);
  }

  lemma ReceiveLink(s: State, t: State, i: ItemId)
    requires Wf(s) && Chained(s) && ItemChanged(s, t, i) && OneRolled(s, t, ReceivingRollup, s.items[i].shipment)
    requires t.items[i].status.ReceivedOriginWarehouse? && t.items[i].receivedAt.Some?
    ensures Chained(t)
  {
    hide MarksOf, AllReached, Settled, Turn;
    var sh := s.items[i].shipment;
    MarksMean(t.items, sh);
    Turned(s, t, i);
    ReceivedOwes(MarksOf(s.items, sh), MarksOf(t.items, sh), s.items[i], t.items[i], s.shipments[sh].status);
    OwnerSuffices(s, t, i);
  }

  lemma ProcessLink(s: State, t: State, i: ItemId)
    requires Wf(s) && Chained(s) && ItemChanged(s, t, i) && OneRolled(s, t, ProcessingRollup, s.items[i].shipment)
    requires !s.items[i].status.Registered? && t.items[i].receivedAt == s.items[i].receivedAt
    requires t.items[i].status.Processed? || t.items[i].status.Exception?
    ensures Chained(t)
  {
    hide MarksOf, AllReached, Settled, Turn;
    var sh := s.items[i].shipment;
    MarksMean(t.items, sh);
    assert RegularItem(s.items[i]);
    Turned(s, t, i);
    assert AnyProcessingActivity(t.items, sh) by { assert t.items[i].shipment == sh; }
    ProcessedOwes(MarksOf(s.items, sh), MarksOf(t.items, sh), s.items[i], t.items[i], s.shipments[sh].status);
    OwnerSuffices(s, t, i);
  }

  lemma LoadLink(s: State, t: State, i: ItemId)
    requires Wf(s) && Chained(s) && ItemChanged(s, t, i) && OneRolled(s, t, ContainerRollup, s.items[i].shipment)
    requires s.items[i].status.Processed? && t.items[i].status.AssignedToContainer?
    requires t.items[i].receivedAt == s.items[i].receivedAt
    ensures Chained(t)
  {
    hide MarksOf, AllReached, Settled, Turn;
    var sh := s.items[i].shipment;
    MarksMean(t.items, sh);
    assert RegularItem(s.items[i]);
    Turned(s, t, i);
    assert AnyInContainer(t.items, sh) by { assert t.items[i].shipment == sh; }
    BoardedOwes(MarksOf(s.items, sh), MarksOf(t.items, sh), s.items[i], t.items[i], s.shipments[sh].status,
                AllExactlyLoaded(t.items, sh), EventType.RemovedFromContainer);
    OwnerSuffices(s, t, i);
  }

  lemma UnloadLink(s: State, t: State, i: ItemId)
    requires Wf(s) && Chained(s) && ItemChanged(s, t, i) && OneRolled(s, t, ContainerRollup, s.items[i].shipment)
    requires s.items[i].status.AssignedToContainer? && t.items[i].status.Processed?
    requires t.items[i].receivedAt == s.items[i].receivedAt
    ensures Chained(t)
  {
    hide MarksOf, AllReached, Settled, Turn;
    var sh := s.items[i].shipment;
    MarksMean(t.items, sh);
    assert RegularItem(s.items[i]);
    Turned(s, t, i);
    LeftOwes(MarksOf(s.items, sh), MarksOf(t.items, sh), s.items[i], t.items[i], s.shipments[sh].status,
             AnyInContainer(t.items, sh), AllExactlyLoaded(t.items, sh), EventType.RemovedFromContainer);
    OwnerSuffices(s, t, i);
  }

  lemma AssignLink(s: State, t: State, i: ItemId)
    requires Wf(s) && Chained(s) && ItemChanged(s, t, i) && OneRolled(s, t, ManifestRollup, s.items[i].shipment)
    requires s.items[i].status.Processed? && t.items[i].status.AssignedToManifest?
    requires t.items[i].receivedAt == s.items[i].receivedAt
    ensures Chained(t)
  {
    hide MarksOf, AllReached, Settled, Turn;
    var sh := s.items[i].shipment;
    MarksMean(t.items, sh);
    assert RegularItem(s.items[i]);
    Turned(s, t, i);
    assert AnyReached(t.items, sh, AtLeastCommitted) by { assert t.items[i].shipment == sh; }
    BoardedOwes(MarksOf(s.items, sh), MarksOf(t.items, sh), s.items[i], t.items[i], s.shipments[sh].status,
                AllReached(t.items, sh, AtLeastLoaded), EventType.RemovedFromManifest);
    OwnerSuffices(s, t, i);
  }

  lemma UnassignLink(s: State, t: State, i: ItemId)
    requires Wf(s) && Chained(s) && ItemChanged(s, t, i) && OneRolled(s, t, ManifestRollup, s.items[i].shipment)
    requires s.items[i].status.AssignedToManifest? && t.items[i].status.Processed?
    requires t.items[i].receivedAt == s.items[i].receivedAt
    ensures Chained(t)
  {
    hide MarksOf, AllReached, Settled, Turn;
    var sh := s.items[i].shipment;
    MarksMean(t.items, sh);
    assert RegularItem(s.items[i]);
    Turned(s, t, i);
    LeftOwes(MarksOf(s.items, sh), MarksOf(t.items, sh), s.items[i], t.items[i], s.shipments[sh].status,
             AnyReached(t.items, sh, AtLeastCommitted), AllReached(t.items, sh, AtLeastLoaded),
             EventType.RemovedFromManifest);
    OwnerSuffices(s, t, i);
  }

  lemma DestinationLink(s: State, t: State, i: ItemId)
    requires Wf(s) && Chained(s) && ItemChanged(s, t, i) && OneRolled(s, t, ReadyForPickupRollup, s.items[i].shipment)
    requires s.items[i].status.ArrivedDestination? && t.items[i].receivedAt == s.items[i].receivedAt
    requires t.items[i].status.ReceivedDestinationWarehouse? || t.items[i].status.Exception?
    ensures Chained(t)
  {
    hide MarksOf, AllReached, Settled, Turn;
    var sh := s.items[i].shipment;
    MarksMean(t.items, sh);
    assert RegularItem(s.items[i]);
    Turned(s, t, i);
    NothingCancelled(t.items, sh, AtLeastAtDestination);
    DestinationOwes(MarksOf(s.items, sh), MarksOf(t.items, sh), s.items[i], t.items[i], s.shipments[sh].status);
    OwnerSuffices(s, t, i);
  }

  lemma PickUpLink(s: State, t: State, i: ItemId)
    requires Wf(s) && Chained(s) && ItemChanged(s, t, i) && OneRolled(s, t, CompletionRollup, s.items[i].shipment)
    requires s.items[i].status.ReceivedDestinationWarehouse? && t.items[i].status.PickedUp?
    requires t.items[i].receivedAt == s.items[i].receivedAt
    ensures Chained(t)
  {
    hide MarksOf, AllReached, Settled, Turn;
    var sh := s.items[i].shipment;
    MarksMean(t.items, sh);
    assert RegularItem(s.items[i]);
    Turned(s, t, i);
    NothingCancelled(t.items, sh, HandedOff);
    PickedUpOwes(MarksOf(s.items, sh), MarksOf(t.items, sh), s.items[i], t.items[i], s.shipments[sh].status);
    OwnerSuffices(s, t, i);
  }

  lemma SendOutLink(s: State, t: State, i: ItemId)
    requires Wf(s) && Chained(s) && ItemChanged(s, t, i) && OneRolled(s, t, OutForDeliveryRollup, s.items[i].shipment)
    requires s.items[i].status.ReceivedDestinationWarehouse? && t.items[i].status.OutForDelivery?
    requires t.items[i].receivedAt == s.items[i].receivedAt
    ensures Chained(t)
  {
    hide MarksOf, AllReached, Settled, Turn;
    var sh := s.items[i].shipment;
    MarksMean(t.items, sh);
    assert RegularItem(s.items[i]);
    Turned(s, t, i);
    SentOutOwes(MarksOf(s.items, sh), MarksOf(t.items, sh), s.items[i], t.items[i], s.shipments[sh].status,
                ApplicableReached(t.items, sh, AtLeastOutForDelivery));
    OwnerSuffices(s, t, i);
  }

  lemma DeliverLink(s: State, t: State, i: ItemId)
    requires Wf(s) && Chained(s) && ItemChanged(s, t, i)
    requires var sh := s.items[i].shipment;
      t.shipments == s.shipments[sh := s.shipments[sh].(status := AfterDelivery(t.items, sh, s.shipments[sh].status))]
    requires s.items[i].status.OutForDelivery? && t.items[i].status.Delivered?
    requires t.items[i].receivedAt == s.items[i].receivedAt
    ensures Chained(t)
  {
    hide MarksOf, AllReached, Settled, Turn;
    var sh := s.items[i].shipment;
    MarksMean(t.items, sh);
    assert RegularItem(s.items[i]);
    Turned(s, t, i);
    NothingCancelled(t.items, sh, HandedOff);
    DeliveredOwes(MarksOf(s.items, sh), MarksOf(t.items, sh), s.items[i], t.items[i], s.shipments[sh].status);
    OwnerSuffices(s, t, i);
  }

  lemma ReturnLink(s: State, t: State, i: ItemId)
    requires Wf(s) && Chained(s) && ItemChanged(s, t, i) && t.shipments == s.shipments
    requires s.items[i].status.OutForDelivery? && t.items[i].receivedAt == s.items[i].receivedAt
    requires t.items[i].status.ReceivedDestinationWarehouse? || t.items[i].status.Exception?
    ensures Chained(t)
  {
    hide MarksOf, AllReached, Settled, Turn;
    var sh := s.items[i].shipment;
    MarksMean(t.items, sh);
    assert RegularItem(s.items[i]);
    Turned(s, t, i);
    ReturnedOwes(MarksOf(s.items, sh), MarksOf(t.items, sh), s.items[i], t.items[i], s.shipments[sh].status);
    OwnerSuffices(s, t, i);
  }

  // --- Bulk links ---------------------------------------------------------------------

  // All the items aboard went from one regular status to another.
  ghost predicate LoadMoved(s: State, t: State, units: set<Unit>, from: ItemStatus, to: ItemStatus, rollup: Rollup)
    requires Wf(s)
  {
    && Chained(s)
    && CargoTook(s, t, units, to)
    && CargoIs(s, units, from)
    && t.shipments.Keys == s.shipments.Keys
    && CargoRolled(s, t, units, rollup)
  }

  lemma LoadStaysRegular(s: State, t: State, units: set<Unit>, from: ItemStatus, to: ItemStatus, rollup: Rollup)
    requires Wf(s) && LoadMoved(s, t, units, from, to, rollup)
    requires !from.Registered? && (to.Loaded? || to.DepartedOrigin? || to.ArrivedDestination?)
    ensures RegularItems(t.items)
  {
    forall i | i in t.items
      ensures RegularItem(t.items[i])
    {
      assert RegularItem(s.items[i]);
      if Aboard(s.links, |s.links|, units, i) {
        var k :| 0 <= k < |s.links| && Carries(s.links[k], units) && s.links[k].item == i;
        assert s.items[s.links[k].item].status == from;
      }
    }
  }

  // A shipment with cargo aboard, after the move and its rollup.
  lemma TouchedSettles(s: State, t: State, units: set<Unit>, from: ItemStatus, to: ItemStatus, rollup: Rollup, sh: ShipmentId)
    requires Wf(s) && LoadMoved(s, t, units, from, to, rollup) && RegularItems(t.items)
    requires sh in s.shipments && Touched(s.links, units, sh)
    requires
      || (from.AssignedToContainer? && to.Loaded? && rollup.ContainerRollup?)
      || (from.AssignedToManifest? && to.Loaded? && rollup.ManifestRollup?)
      || (from.Loaded? && to.DepartedOrigin? && rollup.DepartureRollup?)
      || (from.DepartedOrigin? && to.ArrivedDestination? && rollup.ArrivalRollup?)
    ensures Settled(MarksOf(t.items, sh), t.shipments[sh].status)
  {
    hide MarksOf, AllReached, Settled, Turn;
    MarksMean(t.items, sh);
    var k :| 0 <= k < |s.links| && Carries(s.links[k], units) && s.links[k].shipment == sh;
    var i := s.links[k].item;
    var st := s.shipments[sh].status;
    assert Aboard(s.links, |s.links|, units, i) && RegularItem(s.items[i]);
    CargoTurn(s, t, units, from, to, i, st);
    var b, a := MarksOf(s.items, sh), MarksOf(t.items, sh);
    match rollup {
      case ContainerRollup =>
        assert AnyInContainer(t.items, sh);
        SealedOwes(b, a, s.items[i], t.items[i], st, AllExactlyLoaded(t.items, sh), EventType.RemovedFromContainer);
      case ManifestRollup =>
        assert AnyReached(t.items, sh, AtLeastCommitted);
        SealedOwes(b, a, s.items[i], t.items[i], st, AllReached(t.items, sh, AtLeastLoaded), EventType.RemovedFromManifest);
      case DepartureRollup => DepartedOwes(b, a, s.items[i], t.items[i], st);
      case ArrivalRollup => ArrivedOwes(b, a, s.items[i], t.items[i], st);
      case _ =>
    }
  }

  lemma LoadLinks(s: State, t: State, units: set<Unit>, from: ItemStatus, to: ItemStatus, rollup: Rollup)
    requires Wf(s) && LoadMoved(s, t, units, from, to, rollup)
    requires
      || (from.AssignedToContainer? && to.Loaded? && rollup.ContainerRollup?)
      || (from.AssignedToManifest? && to.Loaded? && rollup.ManifestRollup?)
      || (from.Loaded? && to.DepartedOrigin? && rollup.DepartureRollup?)
      || (from.DepartedOrigin? && to.ArrivedDestination? && rollup.ArrivalRollup?)
    ensures Chained(t)
  {
    hide MarksOf, Settled;
    LoadStaysRegular(s, t, units, from, to, rollup);
    forall sh | sh in t.shipments
      ensures Settled(MarksOf(t.items, sh), t.shipments[sh].status)
    {
      if Touched(s.links, units, sh) {
        TouchedSettles(s, t, units, from, to, rollup, sh);
      } else {
        AshoreUnmoved(s, t, units, to, sh);
      }
    }
  }

  // --- Every step ---------------------------------------------------------------------

  // What lockstep says about an active row.
  lemma RowFits(s: State, k: nat)
    requires Wf(s) && LinksAgree(s) && k < |s.links| && s.links[k].active
    ensures Fits(s.links[k].unit, LegOf(s, s.links[k].unit), s.items[s.links[k].item].status)
  {
  }

  lemma ReceivedUnlessRegistered(s: State, i: ItemId)
    requires Chained(s) && i in s.items && !s.items[i].status.Registered?
    ensures s.items[i].receivedAt.Some?
  {
    assert RegularItem(s.items[i]);
  }

  lemma WarehouseStepKeepsChain(s: State, t: State, call: Call)
    requires Wf(s) && Chained(s) && WarehouseStep(call.step) && Try(s, call) == Ok(t)
    ensures Chained(t)
  {
    hide Chained;
    match call.step {
      case ReceiveStep(i, wh) =>
        ReceiveEffect(s, t, i, wh, call.now);
        ReceiveLink(s, t, i);
      case ProcessStep(i, wh, again, f) =>
        ProcessEffect(s, t, i, wh, again, f, call.now);
        ProcessLink(s, t, i);
      case DestinationReceiveStep(i, wh, d, x, e) =>
        assert s.items[i].receivedAt.Some? by { ReceivedUnlessRegistered(s, i); }
        DestinationReceiveEffect(s, t, i, wh, d, x, e, call.now);
        DestinationLink(s, t, i);
      case PickUpStep(i, wh) =>
        PickUpEffect(s, t, i, wh, call.now);
        PickUpLink(s, t, i);
      case SendOutStep(i, wh, carrier) =>
        SendOutEffect(s, t, i, wh, carrier, call.now);
        SendOutLink(s, t, i);
      case DeliverStep(i, wh, carrier) =>
        DeliverEffect(s, t, i, wh, carrier, call.now);
        DeliverLink(s, t, i);
      case ReturnStep(i, wh, x) =>
        ReturnEffect(s, t, i, wh, x, call.now);
        ReturnLink(s, t, i);
    }
  }

  lemma RowStepKeepsChain(s: State, t: State, call: Call)
    requires Wf(s) && LinksAgree(s) && Chained(s) && Try(s, call) == Ok(t)
    requires call.step.LoadStep? || call.step.UnloadStep? || call.step.AssignItemStep? || call.step.UnassignItemStep?
    ensures Chained(t)
  {
    hide Chained;
    match call.step {
      case LoadStep(c, i) =>
        LoadEffect(s, t, c, i, call.now);
        LoadLink(s, t, i);
      case UnloadStep(c, i) =>
        UnloadEffect(s, t, c, i, call.now);
        RowFits(s, FindRow(s.links, InContainer(c), i));
        UnloadLink(s, t, i);
      case AssignItemStep(m, i, conflict) =>
        AssignItemEffect(s, t, m, i, conflict, call.now);
        AssignLink(s, t, i);
      case UnassignItemStep(m, i) =>
        UnassignItemEffect(s, t, m, i, call.now);
        RowFits(s, FindRow(s.links, OnManifest(m), i));
        UnassignLink(s, t, i);
    }
  }

  lemma SealKeepsChain(s: State, t: State, c: ContainerId, now: Time)
    requires Wf(s) && LinksAgree(s) && Chained(s) && Seal(s, c, now) == Ok(t)
    ensures Chained(t)
  {
    SealEffect(s, t, c, now);
    hide Chained, Seal;
    assert CargoIs(s, {InContainer(c)}, ItemStatus.AssignedToContainer);
    LoadLinks(s, t, {InContainer(c)}, ItemStatus.AssignedToContainer, ItemStatus.Loaded, ContainerRollup);
  }

  // Arriving re-checks no item of a container, but lockstep makes them all DEPARTED_ORIGIN.
  lemma ArrivingCargo(s: State, m: ManifestId)
    requires Wf(s) && LinksAgree(s) && m in s.manifests && s.manifests[m].status.Departed?
    requires !s.manifests[m].mode.Air? ==> ContainersAre(s, m, ContainerStatus.Departed)
    ensures CargoIs(s, UnitsOf(s, m), ItemStatus.DepartedOrigin)
  {
    forall k | 0 <= k < |s.links| && Carries(s.links[k], UnitsOf(s, m))
      ensures s.items[s.links[k].item].status.DepartedOrigin?
    {
      RowFits(s, k);
    }
  }

  lemma ManifestStepKeepsChain(s: State, t: State, call: Call)
    requires Wf(s) && LinksAgree(s) && Chained(s) && Try(s, call) == Ok(t)
    requires call.step.FinalizeStep? || call.step.DepartStep? || call.step.ArriveStep?
    ensures Chained(t)
  {
    hide Chained, FinalizeManifest, Depart, Arrive, LinksAgree, EmptyManifest, ContainersAre, Rolled;
    var m := call.step.manifest;
    match call.step {
      case FinalizeStep(_) =>
        FinalizeEffect(s, t, m, call.now);
        if s.manifests[m].mode.Air? {
          LoadLinks(s, t, UnitsOf(s, m), ItemStatus.AssignedToManifest, ItemStatus.Loaded, ManifestRollup);
        } else {
          ChainFramed(s, t);
        }
      case DepartStep(_) =>
        DepartEffect(s, t, m, call.now);
        LoadLinks(s, t, UnitsOf(s, m), ItemStatus.Loaded, ItemStatus.DepartedOrigin, DepartureRollup);
      case ArriveStep(_) =>
        ArriveEffect(s, t, m, call.now);
        ArrivingCargo(s, m);
        LoadLinks(s, t, UnitsOf(s, m), ItemStatus.DepartedOrigin, ItemStatus.ArrivedDestination, ArrivalRollup);
    }
  }

  lemma ChainFramed(s: State, t: State)
    requires Chained(s) && t.items == s.items && t.shipments == s.shipments
    ensures Chained(t)
  {
  }

  // New items are registered and not received: they complete no stage.
  lemma RegistrationKeepsChain(s: State, t: State, sh: ShipmentId)
    requires Wf(s) && Chained(s) && sh in t.shipments && RegularStatus(t.shipments[sh].status)
    requires forall i :: i in s.items ==> i in t.items && t.items[i] == s.items[i]
    requires forall i :: i in t.items && i !in s.items ==>
      t.items[i].shipment == sh && t.items[i].status.Registered? && t.items[i].receivedAt.None?
    requires t.shipments == s.shipments[sh := t.shipments[sh]]
    requires sh in s.shipments ==> t.shipments[sh] == s.shipments[sh]
    ensures Chained(t)
  {
    forall other | other in t.shipments
      ensures Settled(MarksOf(t.items, other), t.shipments[other].status)
    {
      MarksOrdered(t.items, other);
      if i :| i in t.items && i !in s.items && t.items[i].shipment == other {
        assert !AllReceived(t.items, other);
      } else {
        assert forall i :: i in t.items && t.items[i].shipment == other ==> i in s.items;
        SameMarks(s, t, other);
        if other !in s.shipments {
          assert !HasItems(s.items, other);
        }
      }
    }
  }

  lemma SameMarks(s: State, t: State, sh: ShipmentId)
    requires forall i :: i in s.items ==> i in t.items && t.items[i] == s.items[i]
    requires forall i :: i in t.items && t.items[i].shipment == sh ==> i in s.items
    ensures MarksOf(t.items, sh) == MarksOf(s.items, sh)
  {
  }

  ghost predicate Orderly(s: State)
    requires Wf(s)
  {
    InLockstep(s) && Chained(s)
  }

  lemma {:induction false} StepKeepsChain(s: State, t: State, call: Call)
    requires Wf(s) && LinksAgree(s) && Chained(s) && !call.step.ManualStep? && Try(s, call) == Ok(t)
    ensures Chained(t)
  {
    hide Chained;
    if WarehouseStep(call.step) {
      WarehouseStepKeepsChain(s, t, call);
    } else {
      match call.step {
        case CreateShipmentStep(sh, email, ids) =>
          CreateShipmentEffect(s, t, sh, email, ids, call.now);
          RegistrationKeepsChain(s, t, sh);
        case AddItemStep(sh, i) =>
          AddItemEffect(s, t, sh, i, call.now);
          StatusIsRegular(s, sh);
          RegistrationKeepsChain(s, t, sh);
        case LoadStep(_, _) => RowStepKeepsChain(s, t, call);
        case UnloadStep(_, _) => RowStepKeepsChain(s, t, call);
        case AssignItemStep(_, _, _) => RowStepKeepsChain(s, t, call);
        case UnassignItemStep(_, _) => RowStepKeepsChain(s, t, call);
        case SealStep(c) => SealKeepsChain(s, t, c, call.now);
        case FinalizeStep(_) => ManifestStepKeepsChain(s, t, call);
        case DepartStep(_) => ManifestStepKeepsChain(s, t, call);
        case ArriveStep(_) => ManifestStepKeepsChain(s, t, call);
        case AssignContainerStep(m, c, conflict) =>
          AssignContainerEffect(s, t, m, c, conflict, call.now);
          ChainFramed(s, t);
        case UnassignContainerStep(m, c) =>
          UnassignContainerEffect(s, t, m, c, call.now);
          ChainFramed(s, t);
        case _ => ChainFramed(s, t);
      }
    }
  }

  lemma StatusIsRegular(s: State, sh: ShipmentId)
    requires Chained(s) && sh in s.shipments
    ensures RegularStatus(s.shipments[sh].status)
  {
  }

  lemma {:induction false} RunsAreOrderly(s: State, calls: seq<Call>)
    requires Wf(s) && Orderly(s) && NoManualEvents(calls)
    ensures Orderly(RunFrom(s, calls))
  {
    hide InLockstep, Chained;
    if calls != [] {
      var n := |calls| - 1;
      RunsAreOrderly(s, calls[..n]);
      var before := RunFrom(s, calls[..n]);
      match Try(before, calls[n]) {
        case Ok(t) =>
          LockstepLinks(before);
          StepKeepsLockstep(before, t, calls[n]);
          StepKeepsChain(before, t, calls[n]);
        case Err(_) =>
      }
    }
  }

  lemma LockstepLinks(s: State)
    requires Wf(s) && InLockstep(s)
    ensures LinksAgree(s)
  {
  }

  lemma EveryRunIsOrderly(warehouses: set<WarehouseId>, calls: seq<Call>)
    requires NoManualEvents(calls)
    ensures Orderly(Run(warehouses, calls))
  {
    RunsAreOrderly(Empty(warehouses), calls);
  }

  // In every state any interleaving of calls reaches, a shipment with items has a status of at
  // least the rank its slowest item has earned.
  lemma {:induction false} NoShipmentStranded(warehouses: set<WarehouseId>, calls: seq<Call>, sh: ShipmentId)
    requires NoManualEvents(calls)
    requires sh in Run(warehouses, calls).shipments && HasItems(Run(warehouses, calls).items, sh)
    ensures var s := Run(warehouses, calls); var rank := Rank(s.shipments[sh].status);
      && (AllReceived(s.items, sh) ==> rank >= Rank(WarehouseReceived))
      && (AllReached(s.items, sh, AtLeastProcessed) ==> rank >= Rank(ReadyForConsolidation))
      && (AllReached(s.items, sh, AtLeastCommitted) ==> rank >= Rank(ShipmentStatus.Consolidated))
      && (AllReached(s.items, sh, AtLeastDeparted) ==> rank >= Rank(ShipmentStatus.Departed))
      && (AllReached(s.items, sh, AtLeastArrived) ==> rank >= Rank(ShipmentStatus.ArrivedDestination))
      && (AllReached(s.items, sh, AtLeastAtDestination) ==> rank >= Rank(ShipmentStatus.ReadyForPickup))
      && (AllReached(s.items, sh, HandedOff) ==> s.shipments[sh].status.Completed?)
  {
    EveryRunIsOrderly(warehouses, calls);
    var s := Run(warehouses, calls);
    assert Settled(MarksOf(s.items, sh), s.shipments[sh].status);
  }
}
