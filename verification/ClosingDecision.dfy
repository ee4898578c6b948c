/**
 The closing email is decided by the call that completes the shipment, from the handoffs
 recorded up to it. What is added to the shipment afterwards changes nothing.
 */
module ClosingDecision {
  import opened Basics
  import opened Statuses
  import opened CargoState
  import opened CargoSteps
  import opened CargoRuns
  import opened CargoEffects
  import opened Lockstep
  import opened Stranding
  import opened StrandingSteps
  import opened Chronicle
  import opened ChronicleSteps
  import opened Histories
  import opened FinalEmail
  import opened ClosingRuns

  predicate Done(s: State, sh: ShipmentId) {
    sh in s.shipments && s.shipments[sh].status.Completed?
  }

  // The handoffs up to the call of the run that completed the shipment, that call's own included.
  function HandoffsAtCompletion(warehouses: set<WarehouseId>, calls: seq<Call>, sh: ShipmentId): seq<Handoff> {
    if calls != [] && Done(Run(warehouses, calls[..|calls| - 1]), sh)
    then HandoffsAtCompletion(warehouses, calls[..|calls| - 1], sh)
    else Run(warehouses, calls).handoffs
  }

  // One call: a completed shipment stays so and its mail still fits the same handoffs; one that is
  // completed now has the mail that fits the handoffs as they are now.
  lemma StepDecides(s: State, t: State, call: Call, sh: ShipmentId, ended: seq<Handoff>, late: bool)
    requires Wf(s) && Wf(t) && Chronicled(s) && Lawful(s.events) && Chronicled(t) && Lawful(t.events)
    requires !call.step.ManualStep? && Try(s, call) == Ok(t) && Sends(s, t)
    requires sh in s.shipments && ClosedWell(s, sh, late) && (Done(s, sh) ==> Matches(s, sh, ended))
    ensures sh in t.shipments
    ensures Done(s, sh) ==> Done(t, sh) && Matches(t, sh, ended)
    ensures !Done(s, sh) && Done(t, sh) ==> Matches(t, sh, t.handoffs)
  {
    hide Try, Chronicled, Lawful, Sends, MailFits, Hands, Wf, ApplicableReached, LastKind, HasDelivery, AllReached;
    StepEnds(s, t, call, sh);
    if Done(s, sh) {
      MailStays(s, t, sh);
    } else if Done(t, sh) {
      CompletingCall(s, t, call, sh);
      MatchesNow(t, sh);
    }
  }

  lemma MatchesNow(s: State, sh: ShipmentId)
    requires sh in s.shipments && MailFits(s, sh)
    ensures Matches(s, sh, s.handoffs)
  {
  }

  lemma NextDecides(s: State, call: Call, sh: ShipmentId, ended: seq<Handoff>, late: bool)
    requires Wf(s) && Chronicled(s) && Lawful(s.events) && Chronicled(Next(s, call)) && Lawful(Next(s, call).events)
    requires !call.step.ManualStep?
    requires sh in s.shipments && ClosedWell(s, sh, late) && (Done(s, sh) ==> Matches(s, sh, ended))
    ensures var t := Next(s, call);
      && sh in t.shipments
      && (Done(s, sh) ==> Done(t, sh) && Matches(t, sh, ended))
      && (!Done(s, sh) && Done(t, sh) ==> Matches(t, sh, t.handoffs))
  {
    hide Try, Chronicled, Lawful, ClosedWell, Matches;
    match Try(s, call) {
      case Ok(t) =>
        StepGoesOn(s, t, call);
        StepDecides(s, t, call, sh, ended, late);
      case Err(_) =>
    }
  }

  // A shipment is born a draft, not completed.
  lemma BornOpen(s: State, call: Call, sh: ShipmentId)
    requires Wf(s) && !call.step.ManualStep? && sh !in s.shipments
    ensures !Done(Next(s, call), sh)
  {
    hide Try;
    match Try(s, call) {
      case Ok(t) => if sh in t.shipments { BornDraft(s, t, call, sh); }
      case Err(_) =>
    }
  }

  lemma {:induction false} RunsDecide(warehouses: set<WarehouseId>, calls: seq<Call>, sh: ShipmentId)
    requires NoManualEvents(calls) && Done(Run(warehouses, calls), sh)
    ensures Matches(Run(warehouses, calls), sh, HandoffsAtCompletion(warehouses, calls, sh))
  {
    hide Chronicled, Lawful, ClosedWell, Next, Matches;
    if calls != [] {
      var n := |calls| - 1;
      var before := Run(warehouses, calls[..n]);
      RunsGoOn(warehouses, calls[..n]);
      RunsGoOn(warehouses, calls);
      if sh in before.shipments {
        RunsCloseWell(warehouses, calls[..n], sh);
        if Done(before, sh) { RunsDecide(warehouses, calls[..n], sh); }
        NextDecides(before, calls[n], sh, HandoffsAtCompletion(warehouses, calls[..n], sh),
                    EverLate(Empty(warehouses), calls[..n], sh));
      } else {
        BornOpen(before, calls[n], sh);
      }
    }
  }

  // For every completed shipment whose customer wants email, items added afterwards or not: going by the
  // handoffs up to completion, the delivered email went out exactly when the last one was a delivery,
  // the picked-up email exactly when there was no delivery, none exactly when a mixed shipment ended in
  // a pickup.
  lemma {:induction false} ClosingEmailIsDecidedAtCompletion(warehouses: set<WarehouseId>, calls: seq<Call>, sh: ShipmentId,
                                                             ended: seq<Handoff>)
    requires NoManualEvents(calls) && sh in Run(warehouses, calls).shipments
    requires Run(warehouses, calls).shipments[sh].status.Completed?
    requires Run(warehouses, calls).shipments[sh].notifyByEmail && ended == HandoffsAtCompletion(warehouses, calls, sh)
    ensures var emails := Run(warehouses, calls).emails;
      && (Email(sh, DeliveredEmail) in emails <==> LastKind(ended, sh) == Some(Delivery))
      && (Email(sh, PickedUpEmail) in emails <==> !HasDelivery(ended, sh))
      && (Email(sh, DeliveredEmail) !in emails && Email(sh, PickedUpEmail) !in emails <==>
        HasDelivery(ended, sh) && LastKind(ended, sh) != Some(Delivery))
  {
    RunsDecide(warehouses, calls, sh);
    LastIsThere(ended, sh);
  }
}
