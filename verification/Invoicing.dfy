/** What an invoice comes to, and what the desk accepts, over every run of the books. */
module Invoicing {
  import opened Basics
  import opened Payments
  import opened OnlineSessions

  // Accepted, and this is the total written.
  predicate Comes(ops: seq<Op>, id: InvoiceId, items: seq<InvoiceItem>, tax: nat, total: nat) {
    && CreateInvoice(RunBooks(ops), id, items, tax).Ok?
    && id in RunBooks(ops + [CreateOp(id, items, tax)]).invoices
    && RunBooks(ops + [CreateOp(id, items, tax)]).invoices[id].total == total
  }

  // Without a line an invoice comes to its tax.
  lemma {:induction false} EmptyInvoiceIsTheTax(ops: seq<Op>, id: InvoiceId, tax: nat, total: nat)
    ensures Comes(ops, id, [], tax, total) <==> id !in RunBooks(ops).invoices && total == tax && tax <= 999_999_999_999
  {
    hide RunBooks;
    RunNext(ops, CreateOp(id, [], tax));
  }

  lemma {:induction false} OneMoreLineAdds(items: seq<InvoiceItem>, line: InvoiceItem)
    ensures Subtotal(items + [line]) == Subtotal(items) + Amount(line)
  {
    assert (items + [line])[..|items|] == items;
  }

  lemma {:induction false} LinesFit(items: seq<InvoiceItem>, line: InvoiceItem)
    ensures (exists k :: 0 <= k < |items + [line]| && Wrong((items + [line])[k])) <==>
      (exists k :: 0 <= k < |items| && Wrong(items[k])) || Wrong(line)
    ensures (exists k :: 0 <= k < |items + [line]| && Amount((items + [line])[k]) > MAX_MONEY) <==>
      (exists k :: 0 <= k < |items| && Amount(items[k]) > MAX_MONEY) || Amount(line) > MAX_MONEY
  {
    var all := items + [line];
    assert all[|items|] == line;
    assert forall k :: 0 <= k < |items| ==> all[k] == items[k];
  }

  predicate Wrong(line: InvoiceItem) {
    line.quantity == 0 || line.unitPrice == 0
  }

  // What is asked of a new invoice, line by line and in all.
  lemma {:induction false} AcceptedMeans(b: Books, id: InvoiceId, items: seq<InvoiceItem>, tax: nat)
    ensures CreateInvoice(b, id, items, tax).Ok? <==>
      && !(exists k :: 0 <= k < |items| && Wrong(items[k]))
      && !(exists k :: 0 <= k < |items| && Amount(items[k]) > MAX_MONEY)
      && Subtotal(items) + tax <= MAX_MONEY
      && id !in b.invoices
    ensures CreateInvoice(b, id, items, tax).Ok? ==>
      var t := CreateInvoice(b, id, items, tax).value; id in t.invoices && t.invoices[id].total == Subtotal(items) + tax
  {
    hide Amount, Subtotal;
    assert forall k :: 0 <= k < |items| ==> (Wrong(items[k]) <==> items[k].quantity == 0 || items[k].unitPrice == 0);
  }

  lemma {:induction false} ComesTo(ops: seq<Op>, id: InvoiceId, items: seq<InvoiceItem>, tax: nat, total: nat)
    ensures Comes(ops, id, items, tax, total) <==>
      CreateInvoice(RunBooks(ops), id, items, tax).Ok? && total == Subtotal(items) + tax
  {
    hide RunBooks, CreateInvoice, Subtotal;
    RunNext(ops, CreateOp(id, items, tax));
    AcceptedMeans(RunBooks(ops), id, items, tax);
  }

  // One more line adds exactly its quantity times its price, whatever the lines before it and the tax;
  // and it is accepted if and only if both are positive and neither it nor the new total is too large.
  lemma {:induction false} EveryLineCounts(ops: seq<Op>, id: InvoiceId, items: seq<InvoiceItem>, quantity: nat, price: nat,
                                           tax: nat, total: nat)
    ensures Comes(ops, id, items + [InvoiceItem(quantity, price)], tax, total) <==>
      && quantity > 0 && price > 0
      && quantity * price <= 999_999_999_999
      && quantity * price <= total <= 999_999_999_999
      && Comes(ops, id, items, tax, total - quantity * price)
  {
    hide RunBooks, CreateInvoice, Subtotal, Comes;
    var line := InvoiceItem(quantity, price);
    var amount := quantity * price;
    assert Amount(line) == amount;
    ComesTo(ops, id, items + [line], tax, total);
    if amount <= total { ComesTo(ops, id, items, tax, total - amount); }
    AcceptedMeans(RunBooks(ops), id, items + [line], tax);
    AcceptedMeans(RunBooks(ops), id, items, tax);
    OneMoreLineAdds(items, line);
    LinesFit(items, line);
  }

  // Two invoices on one: the lines of both, and one tax, come to both totals together.
  lemma {:induction false} InvoicesAdd(ops: seq<Op>, id: InvoiceId, some: seq<InvoiceItem>, others: seq<InvoiceItem>,
                                       tax: nat, x: nat, y: nat)
    requires x + y <= MAX_MONEY
    ensures Comes(ops, id, some, tax, x) && Comes(ops, id, others, 0, y) ==> Comes(ops, id, some + others, tax, x + y)
  {
    if Comes(ops, id, others, 0, y) {
      if others == [] {
        assert some + others == some;
        EmptyInvoiceIsTheTax(ops, id, 0, y);
      } else {
        var n := |others| - 1;
        var line := others[n];
        assert others[..n] + [InvoiceItem(line.quantity, line.unitPrice)] == others;
        assert some + others == some + others[..n] + [InvoiceItem(line.quantity, line.unitPrice)];
        EveryLineCounts(ops, id, others[..n], line.quantity, line.unitPrice, 0, y);
        InvoicesAdd(ops, id, some, others[..n], tax, x, y - line.quantity * line.unitPrice);
        EveryLineCounts(ops, id, some + others[..n], line.quantity, line.unitPrice, tax, x + y);
      }
    }
  }

  // --- Totals stay ------------------------------------------------------------------------------

  lemma {:induction false} CallKeepsTotal(b: Books, op: Op, id: InvoiceId)
    requires id in b.invoices
    ensures id in Apply(b, op).invoices && Apply(b, op).invoices[id].total == b.invoices[id].total
  {
  }

  // Whatever is called afterwards, an invoice keeps the total it was created with.
  lemma {:induction false} TotalsNeverChange(ops: seq<Op>, more: seq<Op>, id: InvoiceId)
    requires id in RunBooks(ops).invoices
    ensures var b, t := RunBooks(ops), RunBooks(ops + more);
      id in t.invoices && t.invoices[id].total == b.invoices[id].total
  {
    if more == [] {
      assert ops + more == ops;
    } else {
      var n := |more| - 1;
      TotalsNeverChange(ops, more[..n], id);
      RunNext(ops + more[..n], more[n]);
      assert ops + more == (ops + more[..n]) + [more[n]];
      CallKeepsTotal(RunBooks(ops + more[..n]), more[n], id);
    }
  }

  // --- What the desk accepts ---------------------------------------------------------------------

  predicate Issued(b: Books, id: InvoiceId) {
    id in b.invoices && !b.invoices[id].status.Draft?
  }

  // Over every run: an invoice is issued once, and stays issued.
  lemma {:induction false} IssuedExactlyOnce(ops: seq<Op>, id: InvoiceId, op: Op)
    ensures var b, t := RunBooks(ops), RunBooks(ops + [op]);
      && (Issue(b, id).Ok? <==> id in b.invoices && !Issued(b, id))
      && (Issued(t, id) <==> Issued(b, id) || (op == IssueOp(id) && id in b.invoices))
  {
    RunNext(ops, op);
    RunsAreSound(ops);
    IssuedStep(RunBooks(ops), id, op);
  }

  lemma {:induction false} IssuedStep(b: Books, id: InvoiceId, op: Op)
    requires Sound(b)
    ensures Issued(Apply(b, op), id) <==> Issued(b, id) || (op == IssueOp(id) && id in b.invoices)
  {
    hide OnePending;
  }

  // Over every run, by what was collected alone: a manual payment is accepted if and only if the invoice
  // is issued, the amount positive and no more than is missing; and it adds exactly its amount.
  lemma {:induction false} PaymentIsTakenExactlyWhen(ops: seq<Op>, id: InvoiceId, amount: int)
    ensures var b, t := RunBooks(ops), RunBooks(ops + [RecordOp(id, amount)]);
      && (RecordPayment(b, id, amount).Ok? <==>
        Issued(b, id) && amount > 0 && Collected(b.payments, id) + amount <= b.invoices[id].total)
      && (RecordPayment(b, id, amount).Ok? ==> Collected(t.payments, id) == Collected(b.payments, id) + amount)
      && (RecordPayment(b, id, amount).Err? ==> t == b)
  {
    hide RunBooks, OnePending;
    RunNext(ops, RecordOp(id, amount));
    RunsAreSound(ops);
    var b := RunBooks(ops);
    if id in b.invoices {
      assert Settles(b.invoices[id], Collected(b.payments, id));
      if b.invoices[id].total == 0 { NoPaymentOnNothing(b, id); }
    }
    if amount > 0 { CollectedAppended(b.payments, Payment(id, amount, Completed, None), id); }
  }

  lemma {:induction false} NoPaymentOnNothing(b: Books, id: InvoiceId)
    requires Sound(b) && id in b.invoices && b.invoices[id].total == 0
    ensures Collected(b.payments, id) == 0
  {
    NothingCollected(b.payments, id);
  }

  // Over every run: a checkout is opened if and only if the invoice is issued and something is missing,
  // the provider answers, and the session is new.
  lemma {:induction false} CheckoutOpensExactlyWhen(ops: seq<Op>, id: InvoiceId, session: SessionId, started: bool)
    ensures var b := RunBooks(ops);
      Checkout(b, id, session, started).1.Ok? <==>
        Issued(b, id) && Collected(b.payments, id) < b.invoices[id].total && started && !Known(b, session)
  {
    hide RunBooks, OnePending;
    RunsAreSound(ops);
    var b := RunBooks(ops);
    if id in b.invoices { assert Settles(b.invoices[id], Collected(b.payments, id)); }
  }

  // Nothing is wrong with the lines or the total.
  predicate InOrder(items: seq<InvoiceItem>, tax: nat) {
    && (forall k :: 0 <= k < |items| ==> items[k].quantity > 0 && items[k].unitPrice > 0 && Amount(items[k]) <= MAX_MONEY)
    && Subtotal(items) + tax <= MAX_MONEY
  }

  // In every state, whatever is refused: an invoice that is not there is NOT_FOUND, but for an amount that
  // is not positive; an id or session that is taken is a CONFLICT; everything else is a BAD_REQUEST.
  lemma {:induction false} RefusalsSayWhy(b: Books, id: InvoiceId, items: seq<InvoiceItem>, tax: nat, amount: int,
                                          session: SessionId, started: bool)
    ensures CreateInvoice(b, id, items, tax) == Err(Conflict) ==> id in b.invoices
    ensures CreateInvoice(b, id, items, tax) != Err(NotFound)
    ensures InOrder(items, tax) && id in b.invoices ==> CreateInvoice(b, id, items, tax) == Err(Conflict)
    ensures Issue(b, id).Err? ==> Issue(b, id).error == if id in b.invoices then BadRequest else NotFound
    ensures RecordPayment(b, id, amount).Err? ==>
      RecordPayment(b, id, amount).error == if amount > 0 && id !in b.invoices then NotFound else BadRequest
    ensures Checkout(b, id, session, started).1.Err? ==>
      Checkout(b, id, session, started).1.error ==
        if id !in b.invoices then NotFound
        else if TakesCheckout(b, id) && started then Conflict
        else BadRequest
  {
    hide Amount, Subtotal, Supersede;
  }
}
