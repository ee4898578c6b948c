/**
 The closing email of a shipment: "delivered" or "picked up", never both and never twice,
 and exactly when one is due.
 */
module FinalEmail {
  import opened Basics
  import opened Statuses
  import opened CargoState
  import opened CargoSteps
  import opened CargoRuns
  import opened CargoEffects
  import opened Lockstep
  import opened Stranding
  import opened StrandingSteps
  import opened Earning
  import opened Chronicle
  import opened ChronicleSteps
  import opened Histories

  // --- How a shipment gets to its end -------------------------------------------------

  predicate Ends(st: ShipmentStatus) {
    st.Delivered? || st.Completed?
  }

  // What may happen to a shipment's last statuses in one call; `completing` allows completion.
  predicate EndMove(from: ShipmentStatus, to: ShipmentStatus, completing: bool) {
    && (from.Completed? ==> to.Completed?)
    && (!from.Delivered? ==> !to.Delivered?)
    && (to.Completed? && !Ends(from) ==> completing)
  }

  predicate Ending(rollup: Rollup) {
    rollup.DeliveredRollup? || rollup.CompletionRollup?
  }

  lemma RolledEndMove(rollup: Rollup, items: map<ItemId, Item>, sh: ShipmentId, st: ShipmentStatus)
    requires !rollup.DeliveredRollup?
    ensures EndMove(st, Rolled(rollup, items, sh, st),
                    rollup.CompletionRollup? && ApplicableReached(items, sh, HandedOff))
  {
  }

  lemma DeliveryEndMove(items: map<ItemId, Item>, sh: ShipmentId, st: ShipmentStatus)
    ensures EndMove(st, AfterDelivery(items, sh, st), ApplicableReached(items, sh, HandedOff))
  {
  }

  predicate Hands(s: State, step: Step, sh: ShipmentId) {
    (step.PickUpStep? || step.DeliverStep?) && step.item in s.items && s.items[step.item].shipment == sh
  }

  ghost predicate EndMoves(s: State, t: State, sh: ShipmentId, completing: bool)
    requires sh in s.shipments
  {
    && sh in t.shipments
    && t.shipments[sh].notifyByEmail == s.shipments[sh].notifyByEmail
    && EndMove(s.shipments[sh].status, t.shipments[sh].status, completing)
  }

  lemma OneRolledEnds(s: State, t: State, rollup: Rollup, owner: ShipmentId, sh: ShipmentId)
    requires OneRolled(s, t, rollup, owner) && !rollup.DeliveredRollup? && sh in s.shipments
    ensures EndMoves(s, t, sh, rollup.CompletionRollup? && sh == owner && ApplicableReached(t.items, sh, HandedOff))
  {
    hide Rolled, ApplicableReached;
    if sh == owner { RolledEndMove(rollup, t.items, sh, s.shipments[sh].status); }
  }

  lemma CargoRolledEnds(s: State, t: State, units: set<Unit>, rollup: Rollup, sh: ShipmentId)
    requires t.shipments.Keys == s.shipments.Keys && CargoRolled(s, t, units, rollup)
    requires !Ending(rollup) && sh in s.shipments
    ensures EndMoves(s, t, sh, false)
  {
    hide Rolled, ApplicableReached;
    RolledEndMove(rollup, t.items, sh, s.shipments[sh].status);
  }

  lemma WarehouseStepEnds(s: State, t: State, call: Call, sh: ShipmentId)
    requires Wf(s) && WarehouseStep(call.step) && Try(s, call) == Ok(t) && sh in s.shipments
    ensures EndMoves(s, t, sh, Hands(s, call.step, sh) && ApplicableReached(t.items, sh, HandedOff))
  {
    hide Rolled, EndMove, ApplicableReached, OneRolled;
    hide Receive, Process, DestinationReceive, PickUp, SendOut, Deliver, Return;
    match call.step {
      case ReceiveStep(i, wh) =>
        ReceiveEffect(s, t, i, wh, call.now);
        OneRolledEnds(s, t, ReceivingRollup, s.items[i].shipment, sh);
      case ProcessStep(i, wh, again, f) =>
        ProcessEffect(s, t, i, wh, again, f, call.now);
        OneRolledEnds(s, t, ProcessingRollup, s.items[i].shipment, sh);
      case DestinationReceiveStep(i, wh, d, x, e) =>
        DestinationReceiveEffect(s, t, i, wh, d, x, e, call.now);
        OneRolledEnds(s, t, ReadyForPickupRollup, s.items[i].shipment, sh);
      case PickUpStep(i, wh) =>
        PickUpEffect(s, t, i, wh, call.now);
        OneRolledEnds(s, t, CompletionRollup, s.items[i].shipment, sh);
      case SendOutStep(i, wh, carrier) =>
        SendOutEffect(s, t, i, wh, carrier, call.now);
        OneRolledEnds(s, t, OutForDeliveryRollup, s.items[i].shipment, sh);
      case DeliverStep(i, wh, carrier) =>
        DeliverEffect(s, t, i, wh, carrier, call.now);
        DeliveryEndMove(t.items, s.items[i].shipment, s.shipments[s.items[i].shipment].status);
        StayedEndMove(s.shipments[sh].status);
      case ReturnStep(i, wh, x) =>
        ReturnEffect(s, t, i, wh, x, call.now);
        StayedEndMove(s.shipments[sh].status);
    }
  }

  lemma StayedEndMove(st: ShipmentStatus)
    ensures EndMove(st, st, false)
  {
  }

  lemma StayedEnds(s: State, t: State, sh: ShipmentId)
    requires sh in s.shipments && sh in t.shipments && t.shipments[sh] == s.shipments[sh]
    ensures EndMoves(s, t, sh, false)
  {
  }

  lemma BulkStepEnds(s: State, t: State, call: Call, sh: ShipmentId)
    requires Wf(s) && Try(s, call) == Ok(t) && sh in s.shipments
    requires call.step.SealStep? || call.step.FinalizeStep? || call.step.DepartStep? || call.step.ArriveStep?
    ensures EndMoves(s, t, sh, false)
  {
    hide EndMoves, CargoRolled, CargoTook, CargoIs, EmptyManifest, ContainersAre, Seal, FinalizeManifest, Depart, Arrive;
    match call.step {
      case SealStep(c) =>
        SealEffect(s, t, c, call.now);
        CargoRolledEnds(s, t, {InContainer(c)}, ContainerRollup, sh);
      case FinalizeStep(m) =>
        FinalizeEffect(s, t, m, call.now);
        if s.manifests[m].mode.Air? {
          CargoRolledEnds(s, t, UnitsOf(s, m), ManifestRollup, sh);
        } else {
          StayedEnds(s, t, sh);
        }
      case DepartStep(m) =>
        DepartEffect(s, t, m, call.now);
        CargoRolledEnds(s, t, UnitsOf(s, m), DepartureRollup, sh);
      case ArriveStep(m) =>
        ArriveEffect(s, t, m, call.now);
        CargoRolledEnds(s, t, UnitsOf(s, m), ArrivalRollup, sh);
    }
  }

  lemma RowStepEnds(s: State, t: State, call: Call, sh: ShipmentId)
    requires Wf(s) && Try(s, call) == Ok(t) && sh in s.shipments
    requires call.step.LoadStep? || call.step.UnloadStep? || call.step.AssignItemStep? || call.step.UnassignItemStep?
    ensures EndMoves(s, t, sh, false)
  {
    hide EndMoves, OneRolled, Rolled, Load, Unload, AssignItem, UnassignItem;
    match call.step {
      case LoadStep(c, i) =>
        LoadEffect(s, t, c, i, call.now);
        OneRolledEnds(s, t, ContainerRollup, s.items[i].shipment, sh);
      case UnloadStep(c, i) =>
        UnloadEffect(s, t, c, i, call.now);
        OneRolledEnds(s, t, ContainerRollup, s.items[i].shipment, sh);
      case AssignItemStep(m, i, conflict) =>
        AssignItemEffect(s, t, m, i, conflict, call.now);
        OneRolledEnds(s, t, ManifestRollup, s.items[i].shipment, sh);
      case UnassignItemStep(m, i) =>
        UnassignItemEffect(s, t, m, i, call.now);
        OneRolledEnds(s, t, ManifestRollup, s.items[i].shipment, sh);
    }
  }

  lemma QuietStepEnds(s: State, t: State, call: Call, sh: ShipmentId)
    requires Wf(s) && Try(s, call) == Ok(t) && sh in s.shipments
    requires call.step.CreateShipmentStep? || call.step.AddItemStep? || call.step.AssignContainerStep?
      || call.step.UnassignContainerStep? || call.step.CreateContainerStep? || call.step.CreateManifestStep?
      || call.step.OpenStep? || call.step.CloseStep?
    ensures EndMoves(s, t, sh, false)
  {
    hide EndMoves, CreateShipment, AddItem, AssignContainer, UnassignContainer;
    match call.step {
      case CreateShipmentStep(other, email, ids) => CreateShipmentEffect(s, t, other, email, ids, call.now);
      case AddItemStep(other, i) => AddItemEffect(s, t, other, i, call.now);
      case AssignContainerStep(m, c, conflict) => AssignContainerEffect(s, t, m, c, conflict, call.now);
      case UnassignContainerStep(m, c) => UnassignContainerEffect(s, t, m, c, call.now);
      case _ =>
    }
    StayedEnds(s, t, sh);
  }

  lemma LooserEnds(s: State, t: State, sh: ShipmentId, completing: bool)
    requires sh in s.shipments && EndMoves(s, t, sh, false)
    ensures EndMoves(s, t, sh, completing)
  {
  }

  lemma StepEnds(s: State, t: State, call: Call, sh: ShipmentId)
    requires Wf(s) && !call.step.ManualStep? && Try(s, call) == Ok(t) && sh in s.shipments
    ensures EndMoves(s, t, sh, Hands(s, call.step, sh) && ApplicableReached(t.items, sh, HandedOff))
  {
    hide EndMoves, ApplicableReached, Try;
    if WarehouseStep(call.step) {
      WarehouseStepEnds(s, t, call, sh);
    } else {
      match call.step {
        case LoadStep(_, _) => RowStepEnds(s, t, call, sh);
        case UnloadStep(_, _) => RowStepEnds(s, t, call, sh);
        case AssignItemStep(_, _, _) => RowStepEnds(s, t, call, sh);
        case UnassignItemStep(_, _) => RowStepEnds(s, t, call, sh);
        case SealStep(_) => BulkStepEnds(s, t, call, sh);
        case FinalizeStep(_) => BulkStepEnds(s, t, call, sh);
        case DepartStep(_) => BulkStepEnds(s, t, call, sh);
        case ArriveStep(_) => BulkStepEnds(s, t, call, sh);
        case _ => QuietStepEnds(s, t, call, sh);
      }
      LooserEnds(s, t, sh, Hands(s, call.step, sh) && ApplicableReached(t.items, sh, HandedOff));
    }
  }

  // --- What the completing call sends ---------------------------------------------------

  // A status that only a last-mile rollup reads was never passed before.
  lemma NotYet(s: State, sh: ShipmentId, st: ShipmentStatus)
    requires Chronicled(s) && Lawful(s.events) && sh in s.shipments
    requires Ends(st) && Rank(s.shipments[sh].status) < Rank(st)
    ensures st !in History(s.events, sh) && Notice(sh, st) !in s.notices
  {
    var h := History(s.events, sh);
    assert LawfulHistory(h) && h[|h| - 1] == s.shipments[sh].status;
    if j :| 0 <= j < |h| && h[j] == st {
      if j < |h| - 1 { NeverBack(h, j, |h| - 1); }
    }
    assert Notice(sh, st) in s.notices <==> Notifiable(st) && st in h;
  }

  lemma CompletionTracks(s: State, sh: ShipmentId, now: Time)
    requires sh in s.shipments && !s.shipments[sh].status.Completed?
    requires Roll(s, CompletionRollup, sh, now).shipments[sh].status.Completed?
    ensures Rank(ShipmentStatus.ArrivedDestination) <= Rank(s.shipments[sh].status) <= Rank(ShipmentStatus.Delivered)
    ensures Roll(s, CompletionRollup, sh, now) ==
      Track(s, StatusEvent(sh, EventType.Completed, ShipmentStatus.Completed, now), None)
  {
    hide Track, ApplicableReached;
    var moves := Moves(CompletionRollup, s.items, sh, s.shipments[sh].status);
    assert moves == [Move(EventType.Completed, ShipmentStatus.Completed)];
    var tracked := Track(s, StatusEvent(sh, EventType.Completed, ShipmentStatus.Completed, now), None);
    assert moves[1..] == [] && Advance(tracked, sh, moves[1..], now) == tracked;
  }

  // The completion notice carries an email exactly when the customer wants one and nothing of the
  // shipment was ever delivered.
  lemma CompletionMails(s: State, sh: ShipmentId, now: Time)
    requires Chronicled(s) && Lawful(s.events) && sh in s.shipments && !s.shipments[sh].status.Completed?
    requires Roll(s, CompletionRollup, sh, now).shipments[sh].status.Completed?
    ensures Email(sh, PickedUpEmail) in Roll(s, CompletionRollup, sh, now).emails <==>
      s.shipments[sh].notifyByEmail && !HasDelivery(s.handoffs, sh)
    ensures Email(sh, DeliveredEmail) in Roll(s, CompletionRollup, sh, now).emails <==> Email(sh, DeliveredEmail) in s.emails
  {
    hide Chronicled, Lawful, Roll, Track, HasDelivery;
    CompletionTracks(s, sh, now);
    NoPickedUpMail(s, sh);
    TrackCompletion(s, sh, now);
  }

  lemma NoPickedUpMail(s: State, sh: ShipmentId)
    requires Chronicled(s) && Lawful(s.events) && sh in s.shipments
    requires Rank(s.shipments[sh].status) < Rank(ShipmentStatus.Completed)
    ensures Notice(sh, ShipmentStatus.Completed) !in s.notices && Email(sh, PickedUpEmail) !in s.emails
  {
    NotYet(s, sh, ShipmentStatus.Completed);
    assert Behind(PickedUpEmail) == ShipmentStatus.Completed;
  }

  lemma TrackCompletion(s: State, sh: ShipmentId, now: Time)
    requires sh in s.shipments && Notice(sh, ShipmentStatus.Completed) !in s.notices
    ensures var t := Track(s, StatusEvent(sh, EventType.Completed, ShipmentStatus.Completed, now), None);
      t.emails == if s.shipments[sh].notifyByEmail && !HasDelivery(s.handoffs, sh)
        then s.emails + [Email(sh, PickedUpEmail)] else s.emails
  {
    hide HasDelivery;
  }

  // Same shipments table as far as the chronicle is concerned.
  lemma SameRecord(s: State, s2: State)
    requires Chronicled(s) && Lawful(s.events)
    requires s2.shipments == s.shipments && s2.events == s.events && s2.notices == s.notices && s2.emails == s.emails
    ensures Chronicled(s2) && Lawful(s2.events)
  {
  }

  ghost predicate ClosingMail(s: State, sh: ShipmentId, delivered: bool, pickedUp: bool) {
    && (Email(sh, DeliveredEmail) in s.emails <==> delivered)
    && (Email(sh, PickedUpEmail) in s.emails <==> pickedUp)
  }

  // A completion that no delivery led to.
  lemma BareCompletion(s: State, sh: ShipmentId, now: Time)
    requires Chronicled(s) && Lawful(s.events) && sh in s.shipments && !Ends(s.shipments[sh].status)
    requires Roll(s, CompletionRollup, sh, now).shipments[sh].status.Completed?
    ensures ClosingMail(Roll(s, CompletionRollup, sh, now), sh, false,
                        s.shipments[sh].notifyByEmail && !HasDelivery(s.handoffs, sh))
  {
    hide Chronicled, Lawful, HasDelivery, Roll;
    CompletionMails(s, sh, now);
    CompletionTracks(s, sh, now);
    NotMailed(s, sh);
  }

  // A completing pickup: the "picked up" email unless something was delivered before.
  lemma PickUpCloses(s: State, t: State, i: ItemId, wh: WarehouseId, now: Time)
    requires Wf(s) && Chronicled(s) && Lawful(s.events) && PickUp(s, i, wh, now) == Ok(t)
    requires var sh := s.items[i].shipment; !Ends(s.shipments[sh].status) && t.shipments[sh].status.Completed?
    ensures var sh := s.items[i].shipment;
      ClosingMail(t, sh, false, s.shipments[sh].notifyByEmail && !HasDelivery(t.handoffs, sh))
  {
    hide Chronicled, Lawful, Roll, HasDelivery, TrackItem, ClosingMail;
    var sh := s.items[i].shipment;
    var s1 := TrackItem(s, i, EventType.PickedUp, Some(ItemStatus.PickedUp), Some(wh), now);
    var s2 := HandOver(SetWarehouse(s1, i, None), i, Pickup);
    assert t == Roll(s2, CompletionRollup, sh, now);
    TrackItemChronicles(s, i, EventType.PickedUp, Some(ItemStatus.PickedUp), Some(wh), now);
    SameRecord(s1, s2);
    BareCompletion(s2, sh, now);
  }

  lemma NotMailed(s: State, sh: ShipmentId)
    requires Chronicled(s) && Lawful(s.events) && sh in s.shipments
    requires Rank(s.shipments[sh].status) < Rank(ShipmentStatus.Delivered)
    ensures Email(sh, DeliveredEmail) !in s.emails
  {
    NotYet(s, sh, ShipmentStatus.Delivered);
    assert Behind(DeliveredEmail) == ShipmentStatus.Delivered;
  }

  // A delivered shipment's customer was told.
  lemma DeliveredMailed(s: State, sh: ShipmentId)
    requires Chronicled(s) && sh in s.shipments && s.shipments[sh].status.Delivered?
    ensures Email(sh, DeliveredEmail) in s.emails <==> s.shipments[sh].notifyByEmail
  {
    var m := Email(sh, DeliveredEmail);
    var h := History(s.events, sh);
    assert h[|h| - 1] in h && Behind(m.template) == ShipmentStatus.Delivered;
    assert Notice(sh, ShipmentStatus.Delivered) in s.notices;
    if s.shipments[sh].notifyByEmail { assert Due(s.shipments, s.notices, m); }
  }

  // A completing delivery: the "delivered" email, and the completion itself stays silent.
  lemma DeliveryCloses(s: State, t: State, i: ItemId, wh: WarehouseId, carrier: Carrier, now: Time)
    requires Wf(s) && Chronicled(s) && Lawful(s.events) && Deliver(s, i, wh, carrier, now) == Ok(t)
    requires var sh := s.items[i].shipment; !Ends(s.shipments[sh].status) && t.shipments[sh].status.Completed?
    ensures var sh := s.items[i].shipment; ClosingMail(t, sh, s.shipments[sh].notifyByEmail, false)
  {
    hide Chronicled, Lawful, Roll, HasDelivery, TrackItem, ClosingMail;
    var sh := s.items[i].shipment;
    var s1 := TrackItem(s, i, EventType.Delivered, Some(ItemStatus.Delivered), Some(wh), now);
    var s2 := HandOver(s1, i, Delivery);
    assert t == Roll(Roll(s2, DeliveredRollup, sh, now), CompletionRollup, sh, now);
    TrackItemChronicles(s, i, EventType.Delivered, Some(ItemStatus.Delivered), Some(wh), now);
    SameRecord(s1, s2);
    assert HasDelivery(s2.handoffs, sh) by { DeliveryIsThere(s1, s2, i); }
    DeliveredCompletion(s2, sh, now);
  }

  lemma DeliveryIsThere(s1: State, s2: State, i: ItemId)
    requires i in s1.items && s2 == HandOver(s1, i, Delivery)
    ensures HasDelivery(s2.handoffs, s1.items[i].shipment)
  {
    assert Handoff(s1.items[i].shipment, i, Delivery) in s2.handoffs;
  }

  // Both rollups of a delivery that completes the shipment.
  lemma DeliveredCompletion(s: State, sh: ShipmentId, now: Time)
    requires Chronicled(s) && Lawful(s.events) && sh in s.shipments && !Ends(s.shipments[sh].status)
    requires HasDelivery(s.handoffs, sh)
    requires Roll(Roll(s, DeliveredRollup, sh, now), CompletionRollup, sh, now).shipments[sh].status.Completed?
    ensures ClosingMail(Roll(Roll(s, DeliveredRollup, sh, now), CompletionRollup, sh, now), sh,
                        s.shipments[sh].notifyByEmail, false)
  {
    hide Chronicled, Lawful, Roll, HasDelivery;
    var s3 := Roll(s, DeliveredRollup, sh, now);
    RollChronicles(s, DeliveredRollup, sh, now);
    BothOrNeither(s.items, sh, s.shipments[sh].status);
    DeliveredMailed(s3, sh);
    CompletionMails(s3, sh, now);
  }

  lemma BothOrNeither(items: map<ItemId, Item>, sh: ShipmentId, st: ShipmentStatus)
    requires !Ends(st) && AfterDelivery(items, sh, st).Completed?
    ensures Rolled(DeliveredRollup, items, sh, st).Delivered?
  {
  }
}
