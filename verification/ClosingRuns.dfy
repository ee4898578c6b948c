/** The closing email over whole runs. */
module ClosingRuns {
  import opened Basics
  import opened Statuses
  import opened CargoState
  import opened CargoSteps
  import opened CargoRuns
  import opened CargoEffects
  import opened Lockstep
  import opened LockstepSteps
  import opened Stranding
  import opened StrandingSteps
  import opened Earning
  import opened Chronicle
  import opened ChronicleSteps
  import opened Histories
  import opened FinalEmail

  function LastKind(handoffs: seq<Handoff>, sh: ShipmentId): Option<HandoffType> {
    if handoffs == [] then None
    else
      var n := |handoffs| - 1;
      if handoffs[n].shipment == sh then Some(handoffs[n].kind) else LastKind(handoffs[..n], sh)
  }

  // The handoff a call records, if it is one of the three that do.
  predicate Records(step: Step) {
    step.PickUpStep? || step.SendOutStep? || step.DeliverStep?
  }

  lemma SilentHandoffs(s: State, t: State, call: Call)
    requires Wf(s) && Try(s, call) == Ok(t)
    requires call.step.ReceiveStep? || call.step.ProcessStep? || call.step.DestinationReceiveStep? || call.step.ReturnStep?
    ensures call.step.item in s.items && t.shipments.Keys == s.shipments.Keys && t.handoffs == s.handoffs
  {
    hide Roll, Rolled, TrackItem, PickUp, SendOut, Deliver;
  }

  function KindOf(step: Step): HandoffType
    requires Records(step)
  {
    if step.PickUpStep? then Pickup else if step.SendOutStep? then Dispatch else Delivery
  }

  lemma RecordedHandoffs(s: State, t: State, call: Call)
    requires Wf(s) && Try(s, call) == Ok(t) && Records(call.step)
    ensures call.step.item in s.items && t.shipments.Keys == s.shipments.Keys
    ensures t.handoffs ==
      s.handoffs + [Handoff(s.items[call.step.item].shipment, call.step.item, KindOf(call.step))]
  {
    hide Roll, Rolled, TrackItem, Receive, Process, DestinationReceive, Return;
  }

  lemma WarehouseHandoffs(s: State, t: State, call: Call)
    requires Wf(s) && WarehouseStep(call.step) && Try(s, call) == Ok(t)
    ensures call.step.item in s.items && t.shipments.Keys == s.shipments.Keys
    ensures !Records(call.step) ==> t.handoffs == s.handoffs
    ensures Records(call.step) ==>
      t.handoffs == s.handoffs + [Handoff(s.items[call.step.item].shipment, call.step.item, KindOf(call.step))]
  {
    hide Try;
    if Records(call.step) {
      RecordedHandoffs(s, t, call);
    } else {
      SilentHandoffs(s, t, call);
    }
  }

  lemma BulkHandoffs(s: State, t: State, call: Call)
    requires Wf(s) && Try(s, call) == Ok(t)
    requires call.step.SealStep? || call.step.FinalizeStep? || call.step.DepartStep? || call.step.ArriveStep?
    ensures t.handoffs == s.handoffs && t.shipments.Keys == s.shipments.Keys
  {
    hide TrackCargo, RollAffected, EmptyManifest, CargoIs, ContainersAre, ApprovedCargo, NobodyAboard, UnitsOf, Wf;
  }

  lemma RowHandoffs(s: State, t: State, call: Call)
    requires Wf(s) && Try(s, call) == Ok(t)
    requires call.step.LoadStep? || call.step.UnloadStep? || call.step.AssignItemStep? || call.step.UnassignItemStep?
    ensures t.handoffs == s.handoffs && t.shipments.Keys == s.shipments.Keys
  {
    hide Roll, TrackItem, FindRow, NobodyAboard, Rolled;
  }

  lemma QuietHandoffs(s: State, t: State, call: Call)
    requires Wf(s) && Try(s, call) == Ok(t)
    requires call.step.CreateShipmentStep? || call.step.AddItemStep? || call.step.AssignContainerStep?
      || call.step.UnassignContainerStep? || call.step.CreateContainerStep? || call.step.CreateManifestStep?
      || call.step.OpenStep? || call.step.CloseStep?
    ensures t.handoffs == s.handoffs
    ensures !call.step.CreateShipmentStep? ==> t.shipments.Keys == s.shipments.Keys
  {
    hide TrackCargo, CreateItems, CreateItem, Wf;
    hide Seal, FinalizeManifest, Depart, Arrive, Load, Unload, AssignItem, UnassignItem;
    hide Receive, Process, DestinationReceive, PickUp, SendOut, Deliver, Return, ManualEvent;
  }

  lemma TransportHandoffs(s: State, t: State, call: Call)
    requires Wf(s) && !WarehouseStep(call.step) && !call.step.ManualStep? && Try(s, call) == Ok(t)
    ensures t.handoffs == s.handoffs
    ensures !call.step.CreateShipmentStep? ==> t.shipments.Keys == s.shipments.Keys
  {
    hide Try, Wf;
    match call.step {
      case LoadStep(_, _) => RowHandoffs(s, t, call);
      case UnloadStep(_, _) => RowHandoffs(s, t, call);
      case AssignItemStep(_, _, _) => RowHandoffs(s, t, call);
      case UnassignItemStep(_, _) => RowHandoffs(s, t, call);
      case SealStep(_) => BulkHandoffs(s, t, call);
      case FinalizeStep(_) => BulkHandoffs(s, t, call);
      case DepartStep(_) => BulkHandoffs(s, t, call);
      case ArriveStep(_) => BulkHandoffs(s, t, call);
      case _ => QuietHandoffs(s, t, call);
    }
  }

  // A finished item is never touched again.
  ghost predicate Finished(s: State, t: State, sh: ShipmentId) {
    AllReached(s.items, sh, HandedOff) ==> AllReached(t.items, sh, HandedOff)
  }

  lemma OneChangeFinished(s: State, t: State, i: ItemId, sh: ShipmentId)
    requires ItemChanged(s, t, i) && !Reached(HandedOff, s.items[i].status)
    ensures Finished(s, t, sh)
    ensures AllReached(s.items, sh, HandedOff) ==> s.items[i].shipment != sh
  {
    if AllReached(s.items, sh, HandedOff) {
      assert s.items[i].shipment != sh;
      forall j | j in t.items && t.items[j].shipment == sh
        ensures Reached(HandedOff, t.items[j].status)
      {
        assert j != i && t.items[j] == s.items[j];
      }
    }
  }

  lemma AboardIs(s: State, units: set<Unit>, st: ItemStatus, i: ItemId)
    requires Wf(s) && CargoIs(s, units, st) && Aboard(s.links, |s.links|, units, i)
    ensures i in s.items && s.items[i].status == st
  {
    var k :| 0 <= k < |s.links| && Carries(s.links[k], units) && s.links[k].item == i;
    assert s.items[s.links[k].item].status == st;
  }

  lemma LoadFinished(s: State, t: State, units: set<Unit>, from: ItemStatus, to: ItemStatus, sh: ShipmentId)
    requires Wf(s) && CargoTook(s, t, units, to) && CargoIs(s, units, from) && !Reached(HandedOff, from)
    ensures Finished(s, t, sh)
  {
    if AllReached(s.items, sh, HandedOff) {
      forall j | j in t.items && t.items[j].shipment == sh
        ensures Reached(HandedOff, t.items[j].status)
      {
        assert s.items[j].shipment == sh;
        if Aboard(s.links, |s.links|, units, j) {
          AboardIs(s, units, from, j);
          assert false;
        }
      }
    }
  }

  lemma SameItemsFinished(s: State, t: State, sh: ShipmentId)
    requires t.items == s.items
    ensures Finished(s, t, sh)
  {
  }

  lemma NewItemsFinished(s: State, t: State, sh: ShipmentId)
    requires forall i :: i in t.items && t.items[i].shipment == sh ==> i in s.items && t.items[i] == s.items[i]
    ensures Finished(s, t, sh)
  {
  }

  lemma WarehouseFinished(s: State, t: State, call: Call, sh: ShipmentId)
    requires Wf(s) && WarehouseStep(call.step) && Try(s, call) == Ok(t)
    ensures Finished(s, t, sh)
    ensures AllReached(s.items, sh, HandedOff) ==> s.items[call.step.item].shipment != sh
  {
    hide Receive, Process, DestinationReceive, PickUp, SendOut, Deliver, Return, Finished, OneRolled, AllReached, Rolled;
    match call.step {
      case ReceiveStep(i, wh) => ReceiveEffect(s, t, i, wh, call.now);
      case ProcessStep(i, wh, again, f) => ProcessEffect(s, t, i, wh, again, f, call.now);
      case DestinationReceiveStep(i, wh, d, x, e) => DestinationReceiveEffect(s, t, i, wh, d, x, e, call.now);
      case PickUpStep(i, wh) => PickUpEffect(s, t, i, wh, call.now);
      case SendOutStep(i, wh, carrier) => SendOutEffect(s, t, i, wh, carrier, call.now);
      case DeliverStep(i, wh, carrier) => DeliverEffect(s, t, i, wh, carrier, call.now);
      case ReturnStep(i, wh, x) => ReturnEffect(s, t, i, wh, x, call.now);
    }
    OneChangeFinished(s, t, call.step.item, sh);
  }

  lemma RowFinished(s: State, t: State, call: Call, sh: ShipmentId)
    requires Wf(s) && LinksAgree(s) && Try(s, call) == Ok(t)
    requires call.step.LoadStep? || call.step.UnloadStep? || call.step.AssignItemStep? || call.step.UnassignItemStep?
    ensures Finished(s, t, sh)
  {
    hide Load, Unload, AssignItem, UnassignItem, Finished, OneRolled, AllReached, Rolled, LinksAgree;
    match call.step {
      case LoadStep(c, i) => LoadEffect(s, t, c, i, call.now);
      case UnloadStep(c, i) =>
        UnloadEffect(s, t, c, i, call.now);
        RowFits(s, FindRow(s.links, InContainer(c), i));
      case AssignItemStep(m, i, conflict) => AssignItemEffect(s, t, m, i, conflict, call.now);
      case UnassignItemStep(m, i) =>
        UnassignItemEffect(s, t, m, i, call.now);
        RowFits(s, FindRow(s.links, OnManifest(m), i));
    }
    OneChangeFinished(s, t, call.step.item, sh);
  }

  lemma BulkFinished(s: State, t: State, call: Call, sh: ShipmentId)
    requires Wf(s) && LinksAgree(s) && Try(s, call) == Ok(t)
    requires call.step.SealStep? || call.step.FinalizeStep? || call.step.DepartStep? || call.step.ArriveStep?
    ensures Finished(s, t, sh)
  {
    hide Seal, FinalizeManifest, Depart, Arrive, Finished, CargoTook, CargoIs, CargoRolled, LinksAgree, EmptyManifest;
    match call.step {
      case SealStep(c) =>
        SealEffect(s, t, c, call.now);
        SealedCargo(s, c);
        LoadFinished(s, t, {InContainer(c)}, ItemStatus.AssignedToContainer, ItemStatus.Loaded, sh);
      case FinalizeStep(m) =>
        FinalizeEffect(s, t, m, call.now);
        if s.manifests[m].mode.Air? {
          LoadFinished(s, t, UnitsOf(s, m), ItemStatus.AssignedToManifest, ItemStatus.Loaded, sh);
        } else {
          SameItemsFinished(s, t, sh);
        }
      case DepartStep(m) =>
        DepartEffect(s, t, m, call.now);
        LoadFinished(s, t, UnitsOf(s, m), ItemStatus.Loaded, ItemStatus.DepartedOrigin, sh);
      case ArriveStep(m) =>
        ArriveEffect(s, t, m, call.now);
        ArrivingCargo(s, m);
        LoadFinished(s, t, UnitsOf(s, m), ItemStatus.DepartedOrigin, ItemStatus.ArrivedDestination, sh);
    }
  }

  lemma StepFinished(s: State, t: State, call: Call, sh: ShipmentId)
    requires Wf(s) && LinksAgree(s) && !call.step.ManualStep? && Try(s, call) == Ok(t) && sh in s.shipments
    requires call.step.AddItemStep? ==> call.step.sh != sh
    ensures Finished(s, t, sh)
  {
    hide Load, Unload, Seal, AssignItem, UnassignItem, FinalizeManifest, Depart, Arrive, CreateShipment, AddItem;
    hide AssignContainer, UnassignContainer, Finished, LinksAgree;
    if WarehouseStep(call.step) {
      WarehouseFinished(s, t, call, sh);
      return;
    }
    match call.step {
      case CreateShipmentStep(other, email, ids) =>
        CreateShipmentEffect(s, t, other, email, ids, call.now);
        NewItemsFinished(s, t, sh);
      case AddItemStep(other, i) =>
        AddItemEffect(s, t, other, i, call.now);
        NewItemsFinished(s, t, sh);
      case LoadStep(_, _) => RowFinished(s, t, call, sh);
      case UnloadStep(_, _) => RowFinished(s, t, call, sh);
      case AssignItemStep(_, _, _) => RowFinished(s, t, call, sh);
      case UnassignItemStep(_, _) => RowFinished(s, t, call, sh);
      case SealStep(_) => BulkFinished(s, t, call, sh);
      case FinalizeStep(_) => BulkFinished(s, t, call, sh);
      case DepartStep(_) => BulkFinished(s, t, call, sh);
      case ArriveStep(_) => BulkFinished(s, t, call, sh);
      case AssignContainerStep(m, c, conflict) =>
        AssignContainerEffect(s, t, m, c, conflict, call.now);
        SameItemsFinished(s, t, sh);
      case UnassignContainerStep(m, c) =>
        UnassignContainerEffect(s, t, m, c, call.now);
        SameItemsFinished(s, t, sh);
      case _ => SameItemsFinished(s, t, sh);
    }
  }

  // --- The mail of a shipment ---------------------------------------------------------

  lemma {:induction false} HistoryGrows(before: seq<Event>, events: seq<Event>, sh: ShipmentId)
    requires before <= events
    ensures History(before, sh) <= History(events, sh)
    decreases |events|
  {
    if |before| < |events| {
      HistoryGrows(before, events[..|events| - 1], sh);
    } else {
      assert before == events;
    }
  }

  // A completed shipment's mail is closed.
  lemma MailStays(s: State, t: State, sh: ShipmentId)
    requires Chronicled(s) && Chronicled(t) && Lawful(t.events) && Sends(s, t)
    requires sh in s.shipments && s.shipments[sh].status.Completed?
    requires sh in t.shipments && t.shipments[sh].status.Completed?
    ensures forall tpl :: Email(sh, tpl) in t.emails <==> Email(sh, tpl) in s.emails
  {
    var h, h' := History(s.events, sh), History(t.events, sh);
    HistoryGrows(s.events, t.events, sh);
    assert LawfulHistory(h');
    if |h| < |h'| {
      assert h'[|h| - 1] == h[|h| - 1];
      NeverBack(h', |h| - 1, |h'| - 1);
    }
    assert h == h';
    forall tpl | Email(sh, tpl) in t.emails
      ensures Email(sh, tpl) in s.emails
    {
      assert Notice(sh, Behind(tpl)) in t.notices;
      assert Notice(sh, Behind(tpl)) in s.notices <==> Notifiable(Behind(tpl)) && Behind(tpl) in h;
      assert Notice(sh, Behind(tpl)) in t.notices <==> Notifiable(Behind(tpl)) && Behind(tpl) in h';
      var m := Email(sh, tpl);
      assert Notice(m.shipment, Behind(m.template)) in s.notices;
    }
  }

  // A shipment still on its way has had no closing email.
  lemma NoMailYet(s: State, sh: ShipmentId)
    requires Chronicled(s) && Lawful(s.events) && sh in s.shipments && !Ends(s.shipments[sh].status)
    requires RegularStatus(s.shipments[sh].status)
    ensures ClosingMail(s, sh, false, false)
  {
    NotMailed(s, sh);
    NotYet(s, sh, ShipmentStatus.Completed);
    assert Behind(PickedUpEmail) == ShipmentStatus.Completed;
  }

  // The mail agrees with how the shipment ended, going by these handoffs.
  ghost predicate Matches(s: State, sh: ShipmentId, handoffs: seq<Handoff>)
    requires sh in s.shipments
  {
    if LastKind(handoffs, sh) == Some(Delivery) then
      ClosingMail(s, sh, s.shipments[sh].notifyByEmail, false)
    else ClosingMail(s, sh, false, s.shipments[sh].notifyByEmail && !HasDelivery(handoffs, sh))
  }

  ghost predicate MailFits(s: State, sh: ShipmentId)
    requires sh in s.shipments
  {
    Matches(s, sh, s.handoffs)
  }

  // `late`: items may have been added after completion, so the handoffs no longer tell.
  ghost predicate ClosedWell(s: State, sh: ShipmentId, late: bool)
    requires sh in s.shipments
  {
    var st := s.shipments[sh].status;
    && !st.Delivered?
    && (!st.Completed? ==> ClosingMail(s, sh, false, false))
    && (st.Completed? ==> !(Email(sh, DeliveredEmail) in s.emails && Email(sh, PickedUpEmail) in s.emails))
    && (st.Completed? && !late ==> AllReached(s.items, sh, HandedOff) && MailFits(s, sh))
  }

  lemma LastAppended(handoffs: seq<Handoff>, h: Handoff, sh: ShipmentId)
    ensures LastKind(handoffs + [h], sh) == if h.shipment == sh then Some(h.kind) else LastKind(handoffs, sh)
    ensures h.shipment != sh ==> (HasDelivery(handoffs + [h], sh) <==> HasDelivery(handoffs, sh))
  {
    assert (handoffs + [h])[..|handoffs|] == handoffs;
  }

  // The call that completes the shipment.
  lemma CompletingCall(s: State, t: State, call: Call, sh: ShipmentId)
    requires Wf(s) && Chronicled(s) && Lawful(s.events) && Try(s, call) == Ok(t)
    requires sh in s.shipments && !Ends(s.shipments[sh].status) && Hands(s, call.step, sh)
    requires sh in t.shipments && t.shipments[sh].status.Completed?
    requires t.shipments[sh].notifyByEmail == s.shipments[sh].notifyByEmail
    ensures MailFits(t, sh)
    ensures !(Email(sh, DeliveredEmail) in t.emails && Email(sh, PickedUpEmail) in t.emails)
  {
    hide Chronicled, Lawful, PickUp, Deliver, HasDelivery, Wf;
    WarehouseHandoffs(s, t, call);
    match call.step {
      case PickUpStep(i, wh) =>
        PickUpCloses(s, t, i, wh, call.now);
        LastAppended(s.handoffs, Handoff(sh, i, Pickup), sh);
      case DeliverStep(i, wh, carrier) =>
        DeliveryCloses(s, t, i, wh, carrier, call.now);
        LastAppended(s.handoffs, Handoff(sh, i, Delivery), sh);
    }
  }

  // After completion, nothing about the shipment's mail or handoffs moves.
  lemma AfterCompletion(s: State, t: State, call: Call, sh: ShipmentId)
    requires Wf(s) && LinksAgree(s) && !call.step.ManualStep? && Try(s, call) == Ok(t)
    requires sh in s.shipments && AllReached(s.items, sh, HandedOff)
    ensures LastKind(t.handoffs, sh) == LastKind(s.handoffs, sh)
    ensures HasDelivery(t.handoffs, sh) <==> HasDelivery(s.handoffs, sh)
  {
    hide HasDelivery, LinksAgree, Wf, AllReached;
    if WarehouseStep(call.step) {
      hide Try;
      WarehouseHandoffs(s, t, call);
      WarehouseFinished(s, t, call, sh);
      if Records(call.step) { LastAppended(s.handoffs, t.handoffs[|s.handoffs|], sh); }
    } else {
      hide Try;
      TransportHandoffs(s, t, call);
    }
  }

  // Adding an item to a completed shipment is what makes the handoffs stop telling.
  predicate Late(s: State, step: Step, sh: ShipmentId) {
    step.AddItemStep? && step.sh == sh && sh in s.shipments && s.shipments[sh].status.Completed?
  }

  lemma StepClosesWell(s: State, t: State, call: Call, sh: ShipmentId, late: bool)
    requires Wf(s) && Wf(t) && Orderly(s) && Chained(t) && Chronicled(s) && Lawful(s.events)
    requires !call.step.ManualStep? && Try(s, call) == Ok(t) && Chronicled(t) && Lawful(t.events) && Sends(s, t)
    requires sh in s.shipments && ClosedWell(s, sh, late) && (!late ==> !Late(s, call.step, sh))
    ensures sh in t.shipments && ClosedWell(t, sh, late)
  {
    hide Try, Chained, InLockstep, Chronicled, Lawful, Sends, MailFits, Ends, Hands, LinksAgree, Wf, ApplicableReached;
    StepEnds(s, t, call, sh);
    LockstepLinks(s);
    ItemsAreRegular(t);
    StatusIsRegular(t, sh);
    var from, to := s.shipments[sh].status, t.shipments[sh].status;
    assert Ends(from) <==> from.Completed? by { NotAtRest(from); }
    if !to.Completed? {
      NotAtRest(to);
      NoMailYet(t, sh);
    } else if from.Completed? {
      MailStays(s, t, sh);
      if !late {
        StepFinished(s, t, call, sh);
        AfterCompletion(s, t, call, sh);
        FitStays(s, t, sh);
      }
    } else {
      CompletingCall(s, t, call, sh);
      if !late { AllHandedOff(t, sh); }
    }
  }

  lemma NotAtRest(st: ShipmentStatus)
    requires !st.Delivered?
    ensures Ends(st) <==> st.Completed?
  {
  }

  lemma FitStays(s: State, t: State, sh: ShipmentId)
    requires sh in s.shipments && sh in t.shipments && t.shipments[sh].notifyByEmail == s.shipments[sh].notifyByEmail
    requires MailFits(s, sh)
    requires LastKind(t.handoffs, sh) == LastKind(s.handoffs, sh)
    requires HasDelivery(t.handoffs, sh) <==> HasDelivery(s.handoffs, sh)
    requires forall tpl :: Email(sh, tpl) in t.emails <==> Email(sh, tpl) in s.emails
    ensures MailFits(t, sh)
  {
    hide HasDelivery, LastKind;
  }

  lemma AllHandedOff(s: State, sh: ShipmentId)
    requires RegularItems(s.items) && ApplicableReached(s.items, sh, HandedOff)
    ensures AllReached(s.items, sh, HandedOff)
  {
    assert HasItems(s.items, sh);
    NothingCancelled(s.items, sh, HandedOff);
  }

  // Whether some accepted call of the run added an item to the shipment after it was completed.
  ghost predicate EverLate(s: State, calls: seq<Call>, sh: ShipmentId)
    requires Wf(s)
  {
    calls != [] &&
    (var n := |calls| - 1;
     EverLate(s, calls[..n], sh) || Late(RunFrom(s, calls[..n]), calls[n].step, sh))
  }

  lemma NextClosesWell(s: State, call: Call, sh: ShipmentId, before: bool, late: bool)
    requires Wf(s) && Orderly(s) && Orderly(Next(s, call)) && Chronicled(s) && Lawful(s.events)
    requires Chronicled(Next(s, call)) && Lawful(Next(s, call).events) && !call.step.ManualStep?
    requires sh in Next(s, call).shipments && (sh in s.shipments ==> ClosedWell(s, sh, before))
    requires late <==> before || Late(s, call.step, sh)
    ensures ClosedWell(Next(s, call), sh, late)
  {
    hide Try, Chained, InLockstep, Chronicled, Lawful, ClosedWell;
    match Try(s, call) {
      case Ok(t) =>
        StepGoesOn(s, t, call);
        if sh in s.shipments {
          Weakened(s, sh, before, late);
          StepClosesWell(s, t, call, sh, late);
        } else {
          BornWell(s, t, call, sh, late);
        }
      case Err(_) => Weakened(s, sh, before, late);
    }
  }

  lemma {:induction false} RunsCloseWell(warehouses: set<WarehouseId>, calls: seq<Call>, sh: ShipmentId)
    requires NoManualEvents(calls) && sh in Run(warehouses, calls).shipments
    ensures ClosedWell(Run(warehouses, calls), sh, EverLate(Empty(warehouses), calls, sh))
  {
    hide Orderly, Chronicled, Lawful, ClosedWell, Next, Late;
    if calls != [] {
      var n := |calls| - 1;
      var before := Run(warehouses, calls[..n]);
      EveryRunIsOrderly(warehouses, calls[..n]);
      EveryRunIsOrderly(warehouses, calls);
      RunsGoOn(warehouses, calls[..n]);
      RunsGoOn(warehouses, calls);
      if sh in before.shipments { RunsCloseWell(warehouses, calls[..n], sh); }
      NextClosesWell(before, calls[n], sh, EverLate(Empty(warehouses), calls[..n], sh),
                     EverLate(Empty(warehouses), calls, sh));
    }
  }

  lemma Weakened(s: State, sh: ShipmentId, late: bool, later: bool)
    requires sh in s.shipments && ClosedWell(s, sh, late) && (late ==> later)
    ensures ClosedWell(s, sh, later)
  {
  }

  lemma BornWell(s: State, t: State, call: Call, sh: ShipmentId, late: bool)
    requires Wf(s) && !call.step.ManualStep? && Try(s, call) == Ok(t) && Chronicled(t) && Lawful(t.events)
    requires sh !in s.shipments && sh in t.shipments
    ensures ClosedWell(t, sh, late)
  {
    assert t.shipments[sh].status.Draft? by { BornDraft(s, t, call, sh); }
    hide Chronicled, Lawful, Try;
    NoMailYet(t, sh);
  }

  lemma BornDraft(s: State, t: State, call: Call, sh: ShipmentId)
    requires Wf(s) && !call.step.ManualStep? && Try(s, call) == Ok(t) && sh !in s.shipments && sh in t.shipments
    ensures t.shipments[sh].status.Draft?
  {
    if call.step.CreateShipmentStep? {
      CreateShipmentEffect(s, t, call.step.sh, call.step.notifyByEmail, call.step.ids, call.now);
    } else {
      hide Try;
      if WarehouseStep(call.step) { WarehouseHandoffs(s, t, call); } else { TransportHandoffs(s, t, call); }
      assert false;
    }
  }

  // The email at this position of the outbox is a closing email of the shipment.
  predicate ClosesFor(s: State, k: int, sh: ShipmentId) {
    && 0 <= k < |s.emails|
    && s.emails[k].shipment == sh
    && (s.emails[k].template.DeliveredEmail? || s.emails[k].template.PickedUpEmail?)
  }

  // At most one closing email for each shipment, none before it is completed, none unless wanted.
  lemma {:induction false} AtMostOneClosingEmail(warehouses: set<WarehouseId>, calls: seq<Call>, sh: ShipmentId)
    requires NoManualEvents(calls) && sh in Run(warehouses, calls).shipments
    ensures var s := Run(warehouses, calls);
      && (forall j, k :: ClosesFor(s, j, sh) && ClosesFor(s, k, sh) ==> j == k)
      && (Email(sh, DeliveredEmail) in s.emails || Email(sh, PickedUpEmail) in s.emails ==>
        s.shipments[sh].status.Completed? && s.shipments[sh].notifyByEmail)
  {
    RunsCloseWell(warehouses, calls, sh);
    RunsGoOn(warehouses, calls);
    var s := Run(warehouses, calls);
    forall j, k | ClosesFor(s, j, sh) && ClosesFor(s, k, sh)
      ensures s.emails[j] == s.emails[k]
    {
      assert s.emails[j] == Email(sh, s.emails[j].template) && s.emails[k] == Email(sh, s.emails[k].template);
      assert !(Email(sh, DeliveredEmail) in s.emails && Email(sh, PickedUpEmail) in s.emails);
    }
  }

  // For a completed shipment whose customer wants email, and that got no item after completion, going
  // by all handoffs: a closing email went out if and only if the last handoff was a delivery or none was.
  lemma {:induction false} ClosingEmailExactlyWhen(warehouses: set<WarehouseId>, calls: seq<Call>, sh: ShipmentId)
    requires NoManualEvents(calls) && sh in Run(warehouses, calls).shipments
    requires Run(warehouses, calls).shipments[sh].status.Completed? && !EverLate(Empty(warehouses), calls, sh)
    requires Run(warehouses, calls).shipments[sh].notifyByEmail
    ensures var s := Run(warehouses, calls);
      && (Email(sh, DeliveredEmail) in s.emails <==> LastKind(s.handoffs, sh) == Some(Delivery))
      && (Email(sh, PickedUpEmail) in s.emails <==> !HasDelivery(s.handoffs, sh))
      && (Email(sh, DeliveredEmail) !in s.emails && Email(sh, PickedUpEmail) !in s.emails <==>
        HasDelivery(s.handoffs, sh) && LastKind(s.handoffs, sh) != Some(Delivery))
  {
    RunsCloseWell(warehouses, calls, sh);
    LastIsThere(Run(warehouses, calls).handoffs, sh);
  }

  lemma {:induction false} LastIsThere(handoffs: seq<Handoff>, sh: ShipmentId)
    ensures LastKind(handoffs, sh) == Some(Delivery) ==> HasDelivery(handoffs, sh)
  {
    if handoffs != [] {
      var n := |handoffs| - 1;
      LastIsThere(handoffs[..n], sh);
      assert handoffs[n] in handoffs;
      if HasDelivery(handoffs[..n], sh) {
        var h :| h in handoffs[..n] && h.shipment == sh && h.kind.Delivery?;
        assert h in handoffs;
      }
    }
  }
}
