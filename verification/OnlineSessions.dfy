/**
 What becomes of an online checkout session over a whole run. A session that was given up for
 a newer one is ignored when the provider completes it after all: that charge is lost.
 */
module OnlineSessions {
  import opened Basics
  import opened Payments

  predicate Known(b: Books, session: SessionId) {
    SessionRow(b.payments, session) < |b.payments|
  }

  function RowOf(b: Books, session: SessionId): Payment
    requires Known(b, session)
  {
    b.payments[SessionRow(b.payments, session)]
  }

  // The three guards of a checkout.
  predicate TakesCheckout(b: Books, id: InvoiceId) {
    id in b.invoices && Payable(b.invoices[id].status) && b.invoices[id].amountPaid < b.invoices[id].total
  }

  // Call n reports the session as paid, and its payment row exists by then.
  ghost predicate ReportedAt(ops: seq<Op>, n: nat, session: SessionId)
    requires n < |ops|
  {
    ops[n] == CompleteOp(session) && Known(RunBooks(ops[..n]), session)
  }

  // Call n is a later checkout of the same invoice that passes its guards, and the session has not
  // been reported as paid by then.
  ghost predicate SupersededAt(ops: seq<Op>, n: nat, session: SessionId)
    requires n < |ops|
  {
    var b := RunBooks(ops[..n]);
    && ops[n].CheckoutOp?
    && Known(b, session)
    && RowOf(b, session).invoice == ops[n].id
    && TakesCheckout(b, ops[n].id)
    && !Reported(ops[..n], session)
  }

  ghost predicate Reported(ops: seq<Op>, session: SessionId) {
    exists n :: 0 <= n < |ops| && ReportedAt(ops, n, session)
  }

  ghost predicate Superseded(ops: seq<Op>, session: SessionId) {
    exists n :: 0 <= n < |ops| && SupersededAt(ops, n, session)
  }

  // --- One call -------------------------------------------------------------------------------

  // The call gives the session up, or settles it.
  predicate GivesUp(b: Books, op: Op, p: Payment) {
    op.CheckoutOp? && op.id == p.invoice && TakesCheckout(b, op.id)
  }

  function Fate(b: Books, op: Op, session: SessionId): PaymentStatus
    requires Known(b, session)
  {
    var p := RowOf(b, session);
    if !p.status.Pending? then p.status
    else if op == CompleteOp(session) then Completed
    else if GivesUp(b, op, p) then Failed
    else Pending
  }

  // Payment rows keep their place and session, whatever is called.
  lemma RowsStay(b: Books, op: Op, session: SessionId)
    requires Known(b, session)
    ensures var t := Apply(b, op); Known(t, session) && SessionRow(t.payments, session) == SessionRow(b.payments, session)
  {
    var t := Apply(b, op);
    assert |b.payments| <= |t.payments|;
    assert forall k :: 0 <= k < |b.payments| ==> t.payments[k].session == b.payments[k].session;
    var j, k := SessionRow(b.payments, session), SessionRow(t.payments, session);
    assert t.payments[j].session == Some(session);
    assert k <= j;
    assert k < |b.payments| && t.payments[k].session == b.payments[k].session;
  }

  lemma CheckoutFate(b: Books, op: Op, session: SessionId)
    requires Sound(b) && Known(b, session) && op.CheckoutOp?
    ensures var k := SessionRow(b.payments, session);
      Apply(b, op).payments[k] == b.payments[k].(status := Fate(b, op, session))
  {
    var k := SessionRow(b.payments, session);
    if PendingOnline(b.payments[k], op.id) {
      OnlyPending(b.payments, op.id, k);
    }
  }

  // Only one online payment of an invoice is pending, so it is the one a checkout finds.
  lemma OnlyPending(payments: seq<Payment>, id: InvoiceId, k: nat)
    requires OnePending(payments) && k < |payments| && PendingOnline(payments[k], id)
    ensures FirstPending(payments, id) == k
  {
    var first := FirstPending(payments, id);
    assert first <= k;
  }

  lemma CompletionFate(b: Books, paid: SessionId, session: SessionId)
    requires Sound(b) && Known(b, session)
    ensures var k := SessionRow(b.payments, session);
      Apply(b, CompleteOp(paid)).payments[k] == b.payments[k].(status := Fate(b, CompleteOp(paid), session))
  {
  }

  lemma OneCall(b: Books, op: Op, session: SessionId)
    requires Sound(b) && Known(b, session)
    ensures var t := Apply(b, op);
      Known(t, session) && RowOf(t, session) == RowOf(b, session).(status := Fate(b, op, session))
  {
    hide Sound;
    RowsStay(b, op, session);
    match op {
      case CheckoutOp(_, _, _) => CheckoutFate(b, op, session);
      case CompleteOp(paid) => CompletionFate(b, paid, session);
      case CreateOp(_, _, _) =>
      case IssueOp(_) =>
      case RecordOp(_, _) =>
    }
  }

  // A session becomes known as a pending payment.
  lemma NewSession(b: Books, op: Op, session: SessionId)
    requires !Known(b, session) && Known(Apply(b, op), session)
    ensures op.CheckoutOp? && RowOf(Apply(b, op), session).status.Pending?
  {
    var t := Apply(b, op);
    var k := SessionRow(t.payments, session);
    assert forall j :: 0 <= j < |b.payments| ==> b.payments[j].session != Some(session);
    assert k == |b.payments|;
  }

  // --- Runs -----------------------------------------------------------------------------------

  lemma {:induction false} KnownStays(ops: seq<Op>, n: nat, session: SessionId)
    requires n <= |ops| && Known(RunBooks(ops[..n]), session)
    ensures Known(RunBooks(ops), session)
  {
    if n == |ops| {
      assert ops[..n] == ops;
    } else {
      var before := ops[..|ops| - 1];
      assert before[..n] == ops[..n];
      KnownStays(before, n, session);
      RowsStay(RunBooks(before), ops[|ops| - 1], session);
    }
  }

  // What one more call adds to the two events of a session.
  lemma OneMore(ops: seq<Op>, session: SessionId)
    requires ops != []
    ensures var n := |ops| - 1;
      && (Reported(ops, session) <==> Reported(ops[..n], session) || ReportedAt(ops, n, session))
      && (Superseded(ops, session) <==> Superseded(ops[..n], session) || SupersededAt(ops, n, session))
  {
    hide ReportedAt, SupersededAt;
    var n := |ops| - 1;
    forall m | 0 <= m < n
      ensures ReportedAt(ops, m, session) <==> ReportedAt(ops[..n], m, session)
      ensures SupersededAt(ops, m, session) <==> SupersededAt(ops[..n], m, session)
    {
      SameEvents(ops, m, session);
    }
  }

  lemma SameEvents(ops: seq<Op>, m: nat, session: SessionId)
    requires m < |ops| - 1
    ensures var before := ops[..|ops| - 1];
      && (ReportedAt(ops, m, session) <==> ReportedAt(before, m, session))
      && (SupersededAt(ops, m, session) <==> SupersededAt(before, m, session))
  {
    hide RunBooks, Known, Reported;
    assert ops[..|ops| - 1][..m] == ops[..m];
  }

  lemma NothingBefore(ops: seq<Op>, session: SessionId)
    requires !Known(RunBooks(ops), session)
    ensures !Reported(ops, session) && !Superseded(ops, session)
  {
    forall n | 0 <= n < |ops|
      ensures !Known(RunBooks(ops[..n]), session)
    {
      if Known(RunBooks(ops[..n]), session) { KnownStays(ops, n, session); }
    }
  }

  // Over every run: an online payment is FAILED exactly when its session was superseded before it was
  // reported as paid, COMPLETED exactly when it was reported and had not been, PENDING otherwise.
  lemma {:induction false} SessionFate(ops: seq<Op>, session: SessionId)
    requires Known(RunBooks(ops), session)
    ensures var st := RowOf(RunBooks(ops), session).status;
      && (st.Failed? <==> Superseded(ops, session))
      && (st.Completed? <==> Reported(ops, session) && !Superseded(ops, session))
      && (st.Pending? <==> !Reported(ops, session) && !Superseded(ops, session))
  {
    var n := |ops| - 1;
    var b := RunBooks(ops[..n]);
    OneMore(ops, session);
    if Known(b, session) {
      SessionFate(ops[..n], session);
      RunsAreSound(ops[..n]);
      OneCall(b, ops[n], session);
      hide Reported, Superseded;
    } else {
      NothingBefore(ops[..n], session);
      NewSession(b, ops[n], session);
    }
  }

  // A charge is collected exactly when its session is known and was not superseded; otherwise the
  // books stay as they are and the charge is in no sum.
  lemma {:induction false} ChargeIsCollectedUnlessSuperseded(ops: seq<Op>, session: SessionId)
    ensures var b, t := RunBooks(ops), RunBooks(ops + [CompleteOp(session)]);
      && (Known(t, session) && RowOf(t, session).status.Completed? <==>
        Known(b, session) && !Superseded(ops, session))
      && (!Known(b, session) || Superseded(ops, session) || Reported(ops, session) ==> t == b)
      && (Known(b, session) && !Superseded(ops, session) && !Reported(ops, session) ==>
        var p := RowOf(b, session);
        Collected(t.payments, p.invoice) == Collected(b.payments, p.invoice) + p.amount)
  {
    var more := ops + [CompleteOp(session)];
    assert more[..|ops|] == ops;
    var b := RunBooks(ops);
    RunsAreSound(ops);
    if Known(b, session) {
      SessionFate(ops, session);
      OneCall(b, CompleteOp(session), session);
      var k := SessionRow(b.payments, session);
      if b.payments[k].status.Pending? {
        CollectedUpdated(b.payments, k, Completed, b.payments[k].invoice);
        assert b.payments[k].invoice in b.invoices;
      }
    }
  }

  // --- What a session charges ---------------------------------------------------------------

  // Over every run: when a session becomes known, its charge is what its invoice still lacks.
  lemma {:induction false} SessionChargesTheBalance(ops: seq<Op>, op: Op, session: SessionId)
    requires !Known(RunBooks(ops), session) && Known(RunBooks(ops + [op]), session)
    ensures var t := RunBooks(ops + [op]); var p := RowOf(t, session);
      && p.invoice in t.invoices
      && p.amount > 0
      && p.amount + t.invoices[p.invoice].amountPaid == t.invoices[p.invoice].total
      && p.amount + Collected(t.payments, p.invoice) == t.invoices[p.invoice].total
  {
    RunNext(ops, op);
    var b, t := RunBooks(ops), RunBooks(ops + [op]);
    RunsAreSound(ops);
    RunsAreSound(ops + [op]);
    NewSession(b, op, session);
    OpenedRow(b, op, session);
    assert Settles(t.invoices[op.id], Collected(t.payments, op.id));
  }

  lemma {:induction false} OpenedRow(b: Books, op: Op, session: SessionId)
    requires Sound(b) && op.CheckoutOp? && !Known(b, session) && Known(Apply(b, op), session)
    ensures var t := Apply(b, op);
      && RowOf(t, session).invoice == op.id && op.id in t.invoices
      && RowOf(t, session).amount > 0
      && RowOf(t, session).amount + t.invoices[op.id].amountPaid == t.invoices[op.id].total
  {
    var t := Apply(b, op);
    var k := SessionRow(t.payments, session);
    assert forall j :: 0 <= j < |b.payments| ==> b.payments[j].session != Some(session);
    assert k == |b.payments|;
  }

  // The manual payments of the invoice that were accepted from call n on.
  ghost function ManualSince(ops: seq<Op>, n: nat, id: InvoiceId): nat {
    if |ops| <= n then 0
    else
      var before, op := ops[..|ops| - 1], ops[|ops| - 1];
      ManualSince(before, n, id) +
      (if op.RecordOp? && op.id == id && RecordPayment(RunBooks(before), id, op.amount).Ok? then op.amount else 0)
  }

  // What one call does to an invoice whose online payment stays pending.
  lemma {:induction false} PendingStep(b: Books, op: Op, session: SessionId)
    requires Sound(b) && Known(b, session) && RowOf(b, session).status.Pending?
    requires Fate(b, op, session).Pending?
    ensures var id := RowOf(b, session).invoice; var t := Apply(b, op);
      && id in b.invoices && id in t.invoices
      && t.invoices[id].total == b.invoices[id].total
      && Collected(t.payments, id) == Collected(b.payments, id) +
        (if op.RecordOp? && op.id == id && RecordPayment(b, id, op.amount).Ok? then op.amount else 0)
  {
    hide Settles;
    var id := RowOf(b, session).invoice;
    match op {
      case CreateOp(_, _, _) =>
      case IssueOp(_) =>
      case RecordOp(other, amount) =>
        if RecordPayment(b, other, amount).Ok? {
          CollectedAppended(b.payments, Payment(other, amount, Completed, None), id);
        }
      case CheckoutOp(other, given, started) => CheckoutCollectsNothing(b, other, given, started, id);
      case CompleteOp(paid) =>
        var k := SessionRow(b.payments, paid);
        if k < |b.payments| && b.payments[k].status.Pending? {
          assert b.payments[k].invoice != id;
          CollectedUpdated(b.payments, k, Completed, id);
        }
    }
  }

  lemma {:induction false} CheckoutCollectsNothing(b: Books, other: InvoiceId, session: SessionId, started: bool, id: InvoiceId)
    ensures Collected(Checkout(b, other, session, started).0.payments, id) == Collected(b.payments, id)
  {
    var k := FirstPending(b.payments, other);
    if k < |b.payments| { CollectedUpdated(b.payments, k, Failed, id); }
    if Checkout(b, other, session, started).1.Ok? {
      var row := b.invoices[other];
      CollectedAppended(Supersede(b.payments, other), Payment(other, row.total - row.amountPaid, Pending, Some(session)), id);
    }
  }

  // While the session is neither reported nor superseded, its charge fills what is collected up to the
  // total, and beyond it by exactly what was paid manually meanwhile.
  lemma {:induction false} ChargeFillsUp(ops: seq<Op>, n: nat, session: SessionId)
    requires n < |ops| && !Known(RunBooks(ops[..n]), session) && Known(RunBooks(ops[..n + 1]), session)
    requires Known(RunBooks(ops), session) && RowOf(RunBooks(ops), session).status.Pending?
    ensures var b := RunBooks(ops); var p := RowOf(b, session);
      && p.invoice in b.invoices
      && p.amount + Collected(b.payments, p.invoice) ==
        b.invoices[p.invoice].total + ManualSince(ops, n + 1, p.invoice)
  {
    hide Sound, RunBooks, ManualSince, Fate;
    var last := |ops| - 1;
    if n == last {
      assert ops[..n + 1] == ops && ops == ops[..n] + [ops[n]];
      SessionChargesTheBalance(ops[..n], ops[n], session);
      NoneSinceNow(ops, RowOf(RunBooks(ops), session).invoice);
    } else {
      var before := ops[..last];
      assert before[..n] == ops[..n] && before[..n + 1] == ops[..n + 1] && ops == before + [ops[last]];
      KnownStays(before, n + 1, session);
      RunsAreSound(before);
      RunNext(before, ops[last]);
      OneCall(RunBooks(before), ops[last], session);
      StillPending(RunBooks(before), ops[last], session);
      ChargeFillsUp(before, n, session);
      PendingStep(RunBooks(before), ops[last], session);
      OneMoreSince(ops, n + 1, RowOf(RunBooks(before), session).invoice);
    }
  }

  lemma {:induction false} StillPending(b: Books, op: Op, session: SessionId)
    requires Known(b, session) && Fate(b, op, session).Pending?
    ensures RowOf(b, session).status.Pending?
  {
  }

  lemma {:induction false} NoneSinceNow(ops: seq<Op>, id: InvoiceId)
    ensures ManualSince(ops, |ops|, id) == 0
  {
  }

  lemma {:induction false} OneMoreSince(ops: seq<Op>, n: nat, id: InvoiceId)
    requires n < |ops|
    ensures var before, op := ops[..|ops| - 1], ops[|ops| - 1];
      ManualSince(ops, n, id) == ManualSince(before, n, id) +
      (if op.RecordOp? && op.id == id && RecordPayment(RunBooks(before), id, op.amount).Ok? then op.amount else 0)
  {
  }

  // Over every run: the report of a session that was not superseded makes its invoice PAID, and what is
  // collected then is the total and the manual payments accepted since the checkout: exactly the total
  // if and only if there was none.
  lemma {:induction false} ReportPaysTheInvoice(ops: seq<Op>, n: nat, session: SessionId)
    requires n < |ops| && !Known(RunBooks(ops[..n]), session) && Known(RunBooks(ops[..n + 1]), session)
    requires !Reported(ops, session) && !Superseded(ops, session)
    ensures var t := RunBooks(ops + [CompleteOp(session)]);
      && Known(t, session)
      && (var id := RowOf(t, session).invoice;
          var manual := ManualSince(ops, n + 1, id);
          && id in t.invoices
          && Collected(t.payments, id) == t.invoices[id].total + manual
          && (Collected(t.payments, id) == t.invoices[id].total <==> manual == 0)
          && t.invoices[id].status.Paid?)
  {
    KnownStays(ops, n + 1, session);
    SessionFate(ops, session);
    ChargeFillsUp(ops, n, session);
    RunNext(ops, CompleteOp(session));
    ChargeIsCollectedUnlessSuperseded(ops, session);
    var b, t := RunBooks(ops), RunBooks(ops + [CompleteOp(session)]);
    RunsAreSound(ops);
    OneCall(b, CompleteOp(session), session);
    RunsAreSound(ops + [CompleteOp(session)]);
    var id := RowOf(t, session).invoice;
    ReportedTotal(b, session);
    assert Settles(t.invoices[id], Collected(t.payments, id));
  }

  lemma {:induction false} ReportedTotal(b: Books, session: SessionId)
    requires Sound(b) && Known(b, session)
    ensures var id := RowOf(b, session).invoice; var t := Apply(b, CompleteOp(session));
      id in b.invoices && id in t.invoices && t.invoices[id].total == b.invoices[id].total && t.invoices[id].total > 0
  {
    hide Settles;
  }

  // --- A charge that is lost ------------------------------------------------------------------

  lemma RunNext(ops: seq<Op>, op: Op)
    ensures RunBooks(ops + [op]) == Apply(RunBooks(ops), op)
  {
    assert (ops + [op])[..|ops|] == ops;
  }

  // One invoice over one cent, issued, and two checkouts opened for it, one after the other.
  function TwoTabs(first: SessionId, second: SessionId): seq<Op> {
    [] + [CreateOp(0, [InvoiceItem(1, 1)], 0)] + [IssueOp(0)] + [CheckoutOp(0, first, true)] + [CheckoutOp(0, second, true)]
  }

  lemma FirstTab(first: SessionId)
    ensures var ops := [] + [CreateOp(0, [InvoiceItem(1, 1)], 0)] + [IssueOp(0)] + [CheckoutOp(0, first, true)];
      RunBooks(ops) == Books(map[0 := Invoice(Sent, 1, 0)], [Payment(0, 1, Pending, Some(first))])
  {
    var items := [InvoiceItem(1, 1)];
    assert items[..0] == [];
    assert Subtotal(items) == 1;
    var created: seq<Op> := [] + [CreateOp(0, items, 0)];
    RunNext([], CreateOp(0, items, 0));
    assert RunBooks(created) == Books(map[0 := Invoice(Draft, 1, 0)], []);
    RunNext(created, IssueOp(0));
    RunNext(created + [IssueOp(0)], CheckoutOp(0, first, true));
  }

  lemma SecondTab(first: SessionId, second: SessionId)
    requires first != second
    ensures RunBooks(TwoTabs(first, second)) ==
      Books(map[0 := Invoice(Sent, 1, 0)], [Payment(0, 1, Failed, Some(first)), Payment(0, 1, Pending, Some(second))])
  {
    hide RunBooks;
    FirstTab(first);
    RunNext([] + [CreateOp(0, [InvoiceItem(1, 1)], 0)] + [IssueOp(0)] + [CheckoutOp(0, first, true)],
            CheckoutOp(0, second, true));
    var payments := [Payment(0, 1, Pending, Some(first))];
    assert PendingOnline(payments[0], 0);
    assert FirstPending(payments, 0) == 0;
    assert SessionRow(payments, second) == 1;
  }

  // The customer opens the checkout twice and pays in the first tab: the session is known, the provider
  // has collected, and the books do not change.
  lemma SupersededChargeIsLost(first: SessionId, second: SessionId)
    requires first != second
    ensures var b := RunBooks(TwoTabs(first, second));
      && Known(b, first)
      && RunBooks(TwoTabs(first, second) + [CompleteOp(first)]) == b
      && b.invoices == map[0 := Invoice(Sent, 1, 0)]
      && Collected(b.payments, 0) == 0
  {
    hide RunBooks, TwoTabs;
    SecondTab(first, second);
    RunNext(TwoTabs(first, second), CompleteOp(first));
    var payments := RunBooks(TwoTabs(first, second)).payments;
    assert payments[0].session == Some(first);
    assert SessionRow(payments, first) == 0;
    assert payments[..1][..0] == [];
    assert Collected(payments[..1], 0) == 0;
  }
}
