/** InvoicesService and PaymentsService over the tables they update in place. */
module PaymentsServices {
  import opened Basics
  import opened Payments

  class Accounts {
    var invoices: map<InvoiceId, Invoice>
    var payments: seq<Payment>

    constructor ()
      ensures View() == Books(map[], [])
    {
      invoices, payments := map[], [];
    }

    function View(): Books
      reads this
    {
      Books(invoices, payments)
    }
  }

  ghost predicate Follows(before: Books, spec: Result<Books>, after: Books, r: Result<()>) {
    match spec
    case Ok(t) => r == Ok(()) && after == t
    case Err(e) => r == Err(e) && after == before
  }

  class InvoicesService {
    const db: Accounts

    constructor (db: Accounts)
      ensures this.db == db
    {
      this.db := db;
    }

    method Create(id: InvoiceId, items: seq<InvoiceItem>, tax: nat) returns (r: Result<()>)
      modifies db
      ensures Follows(old(db.View()), CreateInvoice(old(db.View()), id, items, tax), db.View(), r)
    {
      if exists k :: 0 <= k < |items| && (items[k].quantity == 0 || items[k].unitPrice == 0) {
        return Err(BadRequest);
      }
      var subtotal := 0;
      for k := 0 to |items|
        invariant subtotal == Subtotal(items[..k])
        invariant forall j :: 0 <= j < k ==> Amount(items[j]) <= MAX_MONEY
      {
        if Amount(items[k]) > MAX_MONEY {
          return Err(BadRequest);
        }
        assert items[..k + 1][..k] == items[..k];
        subtotal := subtotal + Amount(items[k]);
      }
      assert items[..|items|] == items;
      var total := subtotal + tax;
      if subtotal > MAX_MONEY || total > MAX_MONEY {
        return Err(BadRequest);
      }
      if id in db.invoices {
        return Err(Conflict);
      }
      db.invoices := db.invoices[id := Invoice(Draft, total, 0)];
      r := Ok(());
    }

    method IssueInvoice(id: InvoiceId) returns (r: Result<()>)
      modifies db
      ensures Follows(old(db.View()), Issue(old(db.View()), id), db.View(), r)
    {
      if id !in db.invoices {
        return Err(NotFound);
      }
      if db.invoices[id].status != Draft {
        return Err(BadRequest);
      }
      db.invoices := db.invoices[id := db.invoices[id].(status := Sent)];
      r := Ok(());
    }
  }

  class PaymentsService {
    const db: Accounts

    constructor (db: Accounts)
      ensures this.db == db
    {
      this.db := db;
    }

    method Record(id: InvoiceId, amount: int) returns (r: Result<()>)
      modifies db
      ensures Follows(old(db.View()), RecordPayment(old(db.View()), id, amount), db.View(), r)
    {
      if amount <= 0 {
        return Err(BadRequest);
      }
      if id !in db.invoices {
        return Err(NotFound);
      }
      var invoice := db.invoices[id];
      if invoice.status == Draft || invoice.status == Void || invoice.status == Paid || !Payable(invoice.status) {
        return Err(BadRequest);
      }
      var newAmountPaid := invoice.amountPaid + amount;
      if newAmountPaid > invoice.total {
        return Err(BadRequest);
      }
      var newStatus := if newAmountPaid == invoice.total then Paid else PartiallyPaid;
      db.payments := db.payments + [Payment(id, amount, Completed, None)];
      db.invoices := db.invoices[id := invoice.(amountPaid := newAmountPaid, status := newStatus)];
      r := Ok(());
    }

    method FindPending(id: InvoiceId) returns (k: nat)
      ensures k == FirstPending(db.payments, id)
    {
      k := 0;
      while k < |db.payments| && !PendingOnline(db.payments[k], id)
        invariant k <= |db.payments|
        invariant forall j :: 0 <= j < k ==> !PendingOnline(db.payments[j], id)
      {
        k := k + 1;
      }
    }

    method FindSession(session: SessionId) returns (k: nat)
      ensures k == SessionRow(db.payments, session)
    {
      k := 0;
      while k < |db.payments| && db.payments[k].session != Some(session)
        invariant k <= |db.payments|
        invariant forall j :: 0 <= j < k ==> db.payments[j].session != Some(session)
      {
        k := k + 1;
      }
    }

    method CreateOnlineCheckoutSession(id: InvoiceId, session: SessionId, started: bool) returns (r: Result<()>)
      modifies db
      ensures (db.View(), r) == Checkout(old(db.View()), id, session, started)
    {
      if id !in db.invoices {
        return Err(NotFound);
      }
      var invoice := db.invoices[id];
      if !Payable(invoice.status) {
        return Err(BadRequest);
      }
      if invoice.total <= invoice.amountPaid {
        return Err(BadRequest);
      }
      var balance := invoice.total - invoice.amountPaid;
      var taken := FindSession(session);
      var priorPending := FindPending(id);
      if priorPending < |db.payments| {
        db.payments := db.payments[priorPending := db.payments[priorPending].(status := Failed)];
      }
      if !started {
        return Err(BadRequest);
      }
      if taken < |db.payments| {
        return Err(Conflict);
      }
      db.payments := db.payments + [Payment(id, balance, Pending, Some(session))];
      r := Ok(());
    }

    method CompleteOnlinePayment(session: SessionId)
      modifies db
      ensures db.View() == CompleteOnline(old(db.View()), session)
    {
      var k := FindSession(session);
      if k == |db.payments| {
        return;
      }
      var payment := db.payments[k];
      if payment.status == Completed {
        return;
      }
      if payment.status != Pending {
        return;
      }
      if payment.invoice !in db.invoices {
        return;
      }
      var invoice := db.invoices[payment.invoice];
      var newAmountPaid := invoice.amountPaid + payment.amount;
      if newAmountPaid > invoice.total {
        newAmountPaid := invoice.total;
      }
      var newStatus := if newAmountPaid == invoice.total then Paid else PartiallyPaid;
      db.payments := db.payments[k := payment.(status := Completed)];
      db.invoices := db.invoices[payment.invoice := invoice.(amountPaid := newAmountPaid, status := newStatus)];
    }
  }
}
