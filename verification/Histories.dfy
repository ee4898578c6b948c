/** What the chronicle says about whole runs: monotone statuses, one notice and one email for each. */
module Histories {
  import opened Basics
  import opened Statuses
  import opened CargoState
  import opened CargoSteps
  import opened CargoRuns
  import opened Chronicle
  import opened ChronicleSteps

  // A rank that no backward move can come back to.
  predicate OneWay(st: ShipmentStatus) {
    Rank(st) <= Rank(WarehouseReceived) || Rank(st) >= Rank(ShipmentStatus.Booked)
  }

  lemma {:induction false} NeverBack(h: seq<ShipmentStatus>, j: nat, k: nat)
    requires LawfulHistory(h) && j < k < |h| && OneWay(h[j])
    ensures Rank(h[j]) < Rank(h[k])
    decreases k
  {
    assert LegalMove(h[k - 1], h[k]);
    if j < k - 1 {
      NeverBack(h, j, k - 1);
    }
  }

  lemma LawfulMeans(h: seq<ShipmentStatus>, j: nat, k: nat)
    requires LawfulHistory(h) && j < k < |h|
    ensures LegalMove(h[k - 1], h[k])
    ensures OneWay(h[j]) ==> Rank(h[j]) < Rank(h[k])
  {
    if OneWay(h[j]) {
      NeverBack(h, j, k);
    }
  }

  // Two neighbours in a shipment's history differ by a forward move or by one of the two backward
  // ones, so a shipment that was ever LOADED stays past the gate and every notifiable status is
  // entered at most once.
  lemma {:induction false} HistoriesAreMonotone(warehouses: set<WarehouseId>, calls: seq<Call>, sh: ShipmentId, j: nat, k: nat)
    requires NoManualEvents(calls)
    requires j < k < |History(Run(warehouses, calls).events, sh)|
    ensures var h := History(Run(warehouses, calls).events, sh);
      && Rank(h[k - 1]) != Rank(h[k])
      && (Rank(h[k - 1]) > Rank(h[k]) ==> BackwardMove(h[k - 1], h[k]))
      && (Rank(h[j]) >= Rank(ShipmentStatus.Loaded) ==> Rank(h[k]) > Rank(h[j]))
      && (Notifiable(h[j]) ==> h[k] != h[j])
  {
    RunsGoOn(warehouses, calls);
    hide Chronicled, History;
    var h := History(Run(warehouses, calls).events, sh);
    LawfulMeans(h, j, k);
  }

  // Manual events included: the status is the last one logged, and every notifiable status in the
  // log has exactly one notice.
  lemma {:induction false} StatusIsLastLogged(warehouses: set<WarehouseId>, calls: seq<Call>, sh: ShipmentId)
    requires sh in Run(warehouses, calls).shipments
    ensures var s := Run(warehouses, calls); var h := History(s.events, sh);
      && h != [] && h[|h| - 1] == s.shipments[sh].status
      && (forall st :: Notifiable(st) && st in h <==> Notice(sh, st) in s.notices)
      && (forall j, k :: 0 <= j < k < |s.notices| ==> s.notices[j] != s.notices[k])
  {
    RunsGoOn(warehouses, calls);
  }

  // Without manual events, each status in the log was led to by the right kind of event from a status it
  // may follow; the first is the draft of a new shipment.
  lemma {:induction false} EveryMoveHasItsName(warehouses: set<WarehouseId>, calls: seq<Call>, n: nat)
    requires NoManualEvents(calls) && n < |Run(warehouses, calls).events| && Run(warehouses, calls).events[n].status.Some?
    ensures var e := Run(warehouses, calls).events[n];
      var h := History(Run(warehouses, calls).events[..n], e.shipment);
      && e.item.None?
      && (if h == [] then e.kind.ShipmentCreated? && e.status.value.Draft?
          else Titled(h[|h| - 1], e.kind, e.status.value))
  {
    RunsGoOn(warehouses, calls);
    assert Labelled(Run(warehouses, calls).events, n);
  }

  // Manual events included: customers are told of exactly these statuses, once each.
  lemma {:induction false} ToldOfExactlyTheseStatuses(warehouses: set<WarehouseId>, calls: seq<Call>, sh: ShipmentId,
                                                      st: ShipmentStatus)
    requires sh in Run(warehouses, calls).shipments
    ensures var s := Run(warehouses, calls);
      && (Notice(sh, st) in s.notices <==>
        && st in History(s.events, sh)
        && (st.WarehouseReceived? || st.Departed? || st.ArrivedDestination? || st.CustomsCleared? || st.ReadyForPickup?
            || st.OutForDelivery? || st.Delivered? || st.Completed?))
      && (forall j, k :: 0 <= j < k < |s.notices| ==> s.notices[j] != s.notices[k])
  {
    RunsGoOn(warehouses, calls);
  }

  // Manual events included: no email goes out twice, none without a notice or to a customer who
  // does not want email, and only a completion may stay silent.
  lemma {:induction false} EmailsFollowTheLog(warehouses: set<WarehouseId>, calls: seq<Call>, m: Email)
    requires m.shipment in Run(warehouses, calls).shipments
    ensures var s := Run(warehouses, calls);
      var told := Behind(m.template) in History(s.events, m.shipment) && s.shipments[m.shipment].notifyByEmail;
      && (forall j, k :: 0 <= j < k < |s.emails| ==> s.emails[j] != s.emails[k])
      && (m in s.emails ==> told)
      && (!m.template.PickedUpEmail? ==> (m in s.emails <==> told))
  {
    RunsGoOn(warehouses, calls);
    var s := Run(warehouses, calls);
    assert Notifiable(Behind(m.template));
    assert Notice(m.shipment, Behind(m.template)) in s.notices <==> Behind(m.template) in History(s.events, m.shipment);
    if !m.template.PickedUpEmail? && Notice(m.shipment, Behind(m.template)) in s.notices
      && s.shipments[m.shipment].notifyByEmail {
      assert Due(s.shipments, s.notices, m);
    }
  }
}
