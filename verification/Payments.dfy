/**
 Invoices and payments in integer cents: issuing, manual payments, online checkout and its
 completion by webhook. Money is conserved over every run.
 */
module Payments {
  import opened Basics

  type InvoiceId = nat
  // Stripe's id of a checkout session: the payment's provider reference.
  type SessionId = nat

  datatype InvoiceStatus = Draft | Sent | PartiallyPaid | Paid | Overdue | Void
  datatype Invoice = Invoice(status: InvoiceStatus, total: nat, amountPaid: nat)

  datatype PaymentStatus = Pending | Completed | Failed | Refunded
  datatype Payment = Payment(invoice: InvoiceId, amount: nat, status: PaymentStatus, session: Option<SessionId>)

  datatype Books = Books(invoices: map<InvoiceId, Invoice>, payments: seq<Payment>)

  // The largest value a money column holds: 9,999,999,999.99.
  const MAX_MONEY: nat := 999_999_999_999

  datatype InvoiceItem = InvoiceItem(quantity: nat, unitPrice: nat)

  function Amount(item: InvoiceItem): nat {
    item.quantity * item.unitPrice
  }

  function Subtotal(items: seq<InvoiceItem>): nat {
    if items == [] then 0 else Subtotal(items[..|items| - 1]) + Amount(items[|items| - 1])
  }

  predicate Payable(st: InvoiceStatus) {
    st.Sent? || st.PartiallyPaid? || st.Overdue?
  }

  function StatusAfter(amountPaid: nat, total: nat): InvoiceStatus {
    if amountPaid == total then Paid else PartiallyPaid
  }

  function Min(a: nat, b: nat): nat {
    if a < b then a else b
  }

  // --- Operations -----------------------------------------------------------------------

  // Quantities are at least 1 and prices positive before the service is reached.
  function CreateInvoice(b: Books, id: InvoiceId, items: seq<InvoiceItem>, tax: nat): Result<Books> {
    if exists k :: 0 <= k < |items| && (items[k].quantity == 0 || items[k].unitPrice == 0) then Err(BadRequest)
    else if exists k :: 0 <= k < |items| && Amount(items[k]) > MAX_MONEY then Err(BadRequest)
    else if Subtotal(items) > MAX_MONEY || Subtotal(items) + tax > MAX_MONEY then Err(BadRequest)
    else if id in b.invoices then Err(Conflict)
    else Ok(b.(invoices := b.invoices[id := Invoice(Draft, Subtotal(items) + tax, 0)]))
  }

  function Issue(b: Books, id: InvoiceId): Result<Books> {
    if id !in b.invoices then Err(NotFound)
    else if !b.invoices[id].status.Draft? then Err(BadRequest)
    else Ok(b.(invoices := b.invoices[id := b.invoices[id].(status := Sent)]))
  }

  function RecordPayment(b: Books, id: InvoiceId, amount: int): Result<Books> {
    if amount <= 0 then Err(BadRequest)
    else if id !in b.invoices then Err(NotFound)
    else if !Payable(b.invoices[id].status) then Err(BadRequest)
    else
      var row := b.invoices[id];
      var newAmountPaid := row.amountPaid + amount;
      if newAmountPaid > row.total then Err(BadRequest)
      else
        Ok(Books(
             b.invoices[id := row.(amountPaid := newAmountPaid, status := StatusAfter(newAmountPaid, row.total))],
             b.payments + [Payment(id, amount, Completed, None)]))
  }

  predicate PendingOnline(p: Payment, id: InvoiceId) {
    p.invoice == id && p.status.Pending? && p.session.Some?
  }

  // The first pending online payment of the invoice, or the number of payments when there is none.
  function FirstPending(payments: seq<Payment>, id: InvoiceId): (k: nat)
    ensures k <= |payments|
    ensures k < |payments| ==> PendingOnline(payments[k], id)
    ensures forall j :: 0 <= j < k ==> !PendingOnline(payments[j], id)
  {
    if payments == [] then 0
    else
      var n := |payments| - 1;
      var k := FirstPending(payments[..n], id);
      assert forall j :: 0 <= j < n ==> payments[..n][j] == payments[j];
      if k < n then k else if PendingOnline(payments[n], id) then n else |payments|
  }

  function Supersede(payments: seq<Payment>, id: InvoiceId): (r: seq<Payment>)
    ensures |r| == |payments|
  {
    var k := FirstPending(payments, id);
    if k < |payments| then payments[k := payments[k].(status := Failed)] else payments
  }

  // `started`: the provider returned a session to redirect to. If it did not, the request is refused
  // after the earlier session has been given up already.
  function Checkout(b: Books, id: InvoiceId, session: SessionId, started: bool): (Books, Result<()>) {
    if id !in b.invoices then (b, Err(NotFound))
    else if !Payable(b.invoices[id].status) then (b, Err(BadRequest))
    else if b.invoices[id].total <= b.invoices[id].amountPaid then (b, Err(BadRequest))
    else
      var row := b.invoices[id];
      var superseded := b.(payments := Supersede(b.payments, id));
      if !started then (superseded, Err(BadRequest))
      else if SessionRow(b.payments, session) < |b.payments| then (superseded, Err(Conflict))
      else
        (superseded.(payments := superseded.payments +
           [Payment(id, row.total - row.amountPaid, Pending, Some(session))]), Ok(()))
  }

  // The payment of a session, or the number of payments when no payment has it.
  function SessionRow(payments: seq<Payment>, session: SessionId): (k: nat)
    ensures k <= |payments|
    ensures k < |payments| ==> payments[k].session == Some(session)
    ensures forall j :: 0 <= j < k ==> payments[j].session != Some(session)
  {
    if payments == [] then 0
    else
      var n := |payments| - 1;
      var k := SessionRow(payments[..n], session);
      assert forall j :: 0 <= j < n ==> payments[..n][j] == payments[j];
      if k < n then k else if payments[n].session == Some(session) then n else |payments|
  }

  // An unknown session and one that is no longer pending are ignored; a collected charge is never
  // refused, but the invoice takes no more than its total.
  function CompleteOnline(b: Books, session: SessionId): Books {
    var k := SessionRow(b.payments, session);
    if k == |b.payments| || !b.payments[k].status.Pending? then b
    else if b.payments[k].invoice !in b.invoices then b
    else
      var row := b.invoices[b.payments[k].invoice];
      var newAmountPaid := Min(row.amountPaid + b.payments[k].amount, row.total);
      Books(
        b.invoices[b.payments[k].invoice :=
          row.(amountPaid := newAmountPaid, status := StatusAfter(newAmountPaid, row.total))],
        b.payments[k := b.payments[k].(status := Completed)])
  }

  // --- Runs -----------------------------------------------------------------------------

  datatype Op =
    | CreateOp(id: InvoiceId, items: seq<InvoiceItem>, tax: nat)
    | IssueOp(id: InvoiceId)
    | RecordOp(id: InvoiceId, amount: int)
    | CheckoutOp(id: InvoiceId, session: SessionId, started: bool)
    | CompleteOp(session: SessionId)

  function Kept(b: Books, r: Result<Books>): Books {
    if r.Ok? then r.value else b
  }

  function Apply(b: Books, op: Op): Books {
    match op
    case CreateOp(id, items, tax) => Kept(b, CreateInvoice(b, id, items, tax))
    case IssueOp(id) => Kept(b, Issue(b, id))
    case RecordOp(id, amount) => Kept(b, RecordPayment(b, id, amount))
    case CheckoutOp(id, session, started) => Checkout(b, id, session, started).0
    case CompleteOp(session) => CompleteOnline(b, session)
  }

  function RunBooks(ops: seq<Op>): Books {
    if ops == [] then Books(map[], []) else Apply(RunBooks(ops[..|ops| - 1]), ops[|ops| - 1])
  }

  // --- What is conserved ------------------------------------------------------------------

  // Everything collected for the invoice, on all its completed payments.
  function Collected(payments: seq<Payment>, id: InvoiceId): nat {
    if payments == [] then 0
    else
      var p := payments[|payments| - 1];
      Collected(payments[..|payments| - 1], id) + (if p.invoice == id && p.status.Completed? then p.amount else 0)
  }

  // The status an invoice has for what was collected, once it is issued.
  predicate Settles(row: Invoice, collected: nat) {
    && row.amountPaid == Min(row.total, collected)
    && (row.status.Draft? ==> collected == 0)
    && (row.status.Sent? ==> collected == 0)
    && (row.status.PartiallyPaid? <==> 0 < collected < row.total)
    && (row.status.Paid? <==> 0 < row.total <= collected)
    && !row.status.Overdue? && !row.status.Void?
  }

  ghost predicate RowsSound(b: Books) {
    && (forall k :: 0 <= k < |b.payments| ==> b.payments[k].invoice in b.invoices && b.payments[k].amount > 0)
    && (forall k :: 0 <= k < |b.payments| ==> !b.invoices[b.payments[k].invoice].status.Draft?)
    && (forall k :: 0 <= k < |b.payments| ==> b.invoices[b.payments[k].invoice].total > 0)
  }

  ghost predicate OnePending(payments: seq<Payment>) {
    && (forall j, k :: 0 <= j < k < |payments| && payments[j].session.Some? ==> payments[j].session != payments[k].session)
    && (forall j, k :: 0 <= j < k < |payments| && payments[j].session.Some? && payments[j].status.Pending? ==>
          !PendingOnline(payments[k], payments[j].invoice))
  }

  ghost predicate Sound(b: Books) {
    && RowsSound(b)
    && OnePending(b.payments)
    && (forall id :: id in b.invoices ==> Settles(b.invoices[id], Collected(b.payments, id)))
  }

  lemma CollectedAppended(payments: seq<Payment>, p: Payment, id: InvoiceId)
    ensures Collected(payments + [p], id) ==
      Collected(payments, id) + (if p.invoice == id && p.status.Completed? then p.amount else 0)
  {
    assert (payments + [p])[..|payments|] == payments;
  }

  // One row changed its status, from one that is not COMPLETED.
  lemma {:induction false} CollectedUpdated(payments: seq<Payment>, k: nat, st: PaymentStatus, id: InvoiceId)
    requires k < |payments| && !payments[k].status.Completed?
    ensures Collected(payments[k := payments[k].(status := st)], id) ==
      Collected(payments, id) + (if payments[k].invoice == id && st.Completed? then payments[k].amount else 0)
  {
    var n := |payments| - 1;
    var after := payments[k := payments[k].(status := st)];
    if k == n {
      assert after[..n] == payments[..n];
    } else {
      CollectedUpdated(payments[..n], k, st, id);
      assert after[..n] == payments[..n][k := payments[..n][k].(status := st)];
    }
  }

  lemma {:induction false} NothingCollected(payments: seq<Payment>, id: InvoiceId)
    requires forall k :: 0 <= k < |payments| ==> payments[k].invoice != id
    ensures Collected(payments, id) == 0
  {
    if payments != [] {
      NothingCollected(payments[..|payments| - 1], id);
    }
  }

  lemma CreateKeeps(b: Books, id: InvoiceId, items: seq<InvoiceItem>, tax: nat)
    requires Sound(b) && CreateInvoice(b, id, items, tax).Ok?
    ensures Sound(CreateInvoice(b, id, items, tax).value)
  {
    NothingCollected(b.payments, id);
  }

  lemma RecordKeeps(b: Books, id: InvoiceId, amount: int)
    requires Sound(b) && RecordPayment(b, id, amount).Ok?
    ensures Sound(RecordPayment(b, id, amount).value)
  {
    hide Settles, RowsSound, OnePending;
    var t := RecordPayment(b, id, amount).value;
    RecordedRows(b, id, amount);
    forall other | other in t.invoices
      ensures Settles(t.invoices[other], Collected(t.payments, other))
    {
      CollectedAppended(b.payments, Payment(id, amount, Completed, None), other);
      if other == id {
        MoreSettles(b.invoices[id], Collected(b.payments, id), amount);
      }
    }
  }

  lemma MoreSettles(row: Invoice, collected: nat, amount: nat)
    requires Settles(row, collected) && amount > 0 && Payable(row.status) && row.amountPaid + amount <= row.total
    ensures var paid := row.amountPaid + amount;
      Settles(row.(amountPaid := paid, status := StatusAfter(paid, row.total)), collected + amount)
  {
  }

  lemma RecordedRows(b: Books, id: InvoiceId, amount: int)
    requires Sound(b) && RecordPayment(b, id, amount).Ok?
    ensures RowsSound(RecordPayment(b, id, amount).value) && OnePending(RecordPayment(b, id, amount).value.payments)
  {
    hide Settles;
  }

  lemma SupersedeKeeps(b: Books, id: InvoiceId)
    requires Sound(b)
    ensures Sound(b.(payments := Supersede(b.payments, id)))
    ensures forall k :: 0 <= k < |b.payments| ==> !PendingOnline(Supersede(b.payments, id)[k], id)
  {
    var k := FirstPending(b.payments, id);
    if k < |b.payments| {
      forall other | other in b.invoices
        ensures Collected(Supersede(b.payments, id), other) == Collected(b.payments, other)
      {
        CollectedUpdated(b.payments, k, Failed, other);
      }
    }
  }

  lemma CheckoutKeeps(b: Books, id: InvoiceId, session: SessionId, started: bool)
    requires Sound(b)
    ensures Sound(Checkout(b, id, session, started).0)
  {
    hide Settles, RowsSound, OnePending, Supersede;
    SupersedeKeeps(b, id);
    var superseded := b.(payments := Supersede(b.payments, id));
    var (t, r) := Checkout(b, id, session, started);
    if r.Ok? {
      var p := Payment(id, b.invoices[id].total - b.invoices[id].amountPaid, Pending, Some(session));
      assert t.payments == superseded.payments + [p];
      CheckedOutRows(b, id, session);
      forall other | other in t.invoices
        ensures Collected(t.payments, other) == Collected(superseded.payments, other)
      {
        CollectedAppended(superseded.payments, p, other);
      }
    }
  }

  lemma CheckedOutRows(b: Books, id: InvoiceId, session: SessionId)
    requires Sound(b) && Checkout(b, id, session, true).1.Ok?
    ensures var t := Checkout(b, id, session, true).0; RowsSound(t) && OnePending(t.payments)
  {
    hide Settles;
    SupersedeKeeps(b, id);
    assert forall k :: 0 <= k < |b.payments| ==> Supersede(b.payments, id)[k].session == b.payments[k].session;
  }

  lemma CompleteKeeps(b: Books, session: SessionId)
    requires Sound(b)
    ensures Sound(CompleteOnline(b, session))
  {
    var k := SessionRow(b.payments, session);
    var t := CompleteOnline(b, session);
    if t != b {
      forall other | other in t.invoices
        ensures Settles(t.invoices[other], Collected(t.payments, other))
      {
        CollectedUpdated(b.payments, k, Completed, other);
        assert Settles(b.invoices[other], Collected(b.payments, other));
      }
    }
  }

  lemma StepIsSound(b: Books, op: Op)
    requires Sound(b)
    ensures Sound(Apply(b, op))
  {
    hide Sound;
    match op {
      case CreateOp(id, items, tax) => if CreateInvoice(b, id, items, tax).Ok? { CreateKeeps(b, id, items, tax); }
      case IssueOp(id) => if Issue(b, id).Ok? { IssueKeeps(b, id); }
      case RecordOp(id, amount) => if RecordPayment(b, id, amount).Ok? { RecordKeeps(b, id, amount); }
      case CheckoutOp(id, session, started) => CheckoutKeeps(b, id, session, started);
      case CompleteOp(session) => CompleteKeeps(b, session);
    }
  }

  lemma {:induction false} RunsAreSound(ops: seq<Op>)
    ensures Sound(RunBooks(ops))
  {
    if ops != [] {
      RunsAreSound(ops[..|ops| - 1]);
      StepIsSound(RunBooks(ops[..|ops| - 1]), ops[|ops| - 1]);
    }
  }

  lemma IssueKeeps(b: Books, id: InvoiceId)
    requires Sound(b) && Issue(b, id).Ok?
    ensures Sound(Issue(b, id).value)
  {
  }

  predicate PendingAt(payments: seq<Payment>, k: int, id: InvoiceId) {
    0 <= k < |payments| && PendingOnline(payments[k], id)
  }

  // Over every run: the amount paid is what was collected, up to the total; an invoice is PAID exactly
  // when a positive total has been collected in full, PARTIALLY_PAID exactly when part of it has; and
  // at most one online payment of an invoice is pending.
  lemma {:induction false} MoneyIsConserved(ops: seq<Op>, id: InvoiceId)
    requires id in RunBooks(ops).invoices
    ensures var b := RunBooks(ops); var row := b.invoices[id]; var sum := Collected(b.payments, id);
      && row.amountPaid == Min(row.total, sum)
      && (row.status.Paid? <==> 0 < row.total <= sum)
      && (row.status.PartiallyPaid? <==> 0 < sum < row.total)
      && (row.status.Draft? || row.status.Sent? <==> sum == 0)
      && (forall j, k :: PendingAt(b.payments, j, id) && PendingAt(b.payments, k, id) ==> j == k)
  {
    RunsAreSound(ops);
    assert Settles(RunBooks(ops).invoices[id], Collected(RunBooks(ops).payments, id));
    var b := RunBooks(ops);
    if b.invoices[id].total == 0 {
      NothingCollected(b.payments, id);
    }
  }
}
