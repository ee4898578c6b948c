/**
 Why an event must name rows that exist when it is first handled: if it does not, they may be
 there when the delivery is repeated, and the repetition takes effect. So it is for every kind
 of event, and for no event that does name its rows.
 */
module LateRows {
  import opened Basics
  import Payments
  import Provisioning
  import Slugs
  import opened Webhooks

  predicate NoDeliveries(hs: seq<Happening>) {
    forall k :: 0 <= k < |hs| ==> !hs[k].Delivery?
  }

  // The shop after some business operations.
  function After(shop: Shop, hs: seq<Happening>): Shop {
    if hs == [] then shop else Operated(After(shop, hs[..|hs| - 1]), hs[|hs| - 1])
  }

  lemma AfterNone(shop: Shop)
    ensures After(shop, []) == shop
  {
  }

  lemma AfterNext(shop: Shop, hs: seq<Happening>, h: Happening)
    ensures After(shop, hs + [h]) == Operated(After(shop, hs), h)
  {
    assert (hs + [h])[..|hs|] == hs;
  }

  // What the database and the clock contribute to one delivery.
  datatype Attempt = Attempt(tenant: Provisioning.TenantId, now: Provisioning.Time)

  // The event is handled, operations follow, and handling it once more has an effect.
  ghost predicate Repeats(shop: Shop, payload: Payload, once: Attempt, hs: seq<Happening>, again: Attempt) {
    var first := Handled(shop, payload, once.tenant, once.now);
    NoDeliveries(hs) && first.Ok? && TakesEffect(After(first.value, hs), payload, again)
  }

  ghost predicate TakesEffect(shop: Shop, payload: Payload, a: Attempt) {
    var r := Handled(shop, payload, a.tenant, a.now);
    r.Ok? && r.value != shop
  }

  // --- Payments -------------------------------------------------------------------------------

  // An invoice over one cent-priced item, issued, and a checkout opened for it.
  function BillingFor(id: Payments.InvoiceId, session: Payments.SessionId): seq<Happening> {
    [] + [Billing(Payments.CreateOp(id, [Payments.InvoiceItem(1, 1)], 0))] + [Billing(Payments.IssueOp(id))]
    + [Billing(Payments.CheckoutOp(id, session, true))]
  }

  function Billed(b: Payments.Books, id: Payments.InvoiceId, session: Payments.SessionId): Payments.Books {
    Payments.Apply(
      Payments.Apply(Payments.Apply(b, Payments.CreateOp(id, [Payments.InvoiceItem(1, 1)], 0)), Payments.IssueOp(id)),
      Payments.CheckoutOp(id, session, true))
  }

  lemma {:induction false} BilledAfter(shop: Shop, id: Payments.InvoiceId, session: Payments.SessionId)
    ensures NoDeliveries(BillingFor(id, session))
    ensures After(shop, BillingFor(id, session)) == shop.(books := Billed(shop.books, id, session))
  {
    hide After, Payments.Apply;
    var create := Billing(Payments.CreateOp(id, [Payments.InvoiceItem(1, 1)], 0));
    var issue := Billing(Payments.IssueOp(id));
    AfterNone(shop);
    AfterNext(shop, [], create);
    AfterNext(shop, [] + [create], issue);
    AfterNext(shop, [] + [create] + [issue], Billing(Payments.CheckoutOp(id, session, true)));
  }

  lemma {:induction false} BilledIsPending(b: Payments.Books, id: Payments.InvoiceId, session: Payments.SessionId)
    requires id !in b.invoices && Payments.SessionRow(b.payments, session) == |b.payments|
    requires forall k :: 0 <= k < |b.payments| ==> b.payments[k].invoice != id
    ensures var t := Billed(b, id, session);
      && t.invoices == b.invoices[id := Payments.Invoice(Payments.Sent, 1, 0)]
      && t.payments == b.payments + [Payments.Payment(id, 1, Payments.Pending, Some(session))]
  {
    var items := [Payments.InvoiceItem(1, 1)];
    assert items[..0] == [];
    assert Payments.Subtotal(items) == 1;
    var created := Payments.Apply(b, Payments.CreateOp(id, items, 0));
    assert created.invoices[id] == Payments.Invoice(Payments.Draft, 1, 0);
    var issued := Payments.Apply(created, Payments.IssueOp(id));
    assert issued.invoices[id] == Payments.Invoice(Payments.Sent, 1, 0);
    var k := Payments.FirstPending(b.payments, id);
    assert k == |b.payments|;
  }

  // A payment event is handled while its session is unknown; then the checkout is recorded, and the
  // repeated delivery pays the invoice.
  lemma {:induction false} UnknownSessionIsHandledTwice(shop: Shop, session: Payments.SessionId, id: Payments.InvoiceId, a: Attempt)
    requires Payments.Sound(shop.books) && id !in shop.books.invoices && !Ready(shop, PaymentPaid(session))
    ensures Handled(shop, PaymentPaid(session), a.tenant, a.now) == Ok(shop)
    ensures var later := After(shop, BillingFor(id, session));
      && NoDeliveries(BillingFor(id, session))
      && id in later.books.invoices && later.books.invoices[id].status.Sent?
      && (var r := Handled(later, PaymentPaid(session), a.tenant, a.now);
          r.Ok? && id in r.value.books.invoices && r.value.books.invoices[id].status.Paid?)
  {
    BilledAfter(shop, id, session);
    BilledIsPending(shop.books, id, session);
    var b := Billed(shop.books, id, session);
    var k := Payments.SessionRow(b.payments, session);
    assert b.payments[|shop.books.payments|].session == Some(session);
    assert forall j :: 0 <= j < |shop.books.payments| ==> b.payments[j] == shop.books.payments[j];
    assert k == |shop.books.payments|;
  }

  // --- Signups and activations ----------------------------------------------------------------

  // A session filled in up to its checkout.
  function SigningUp(token: Provisioning.Token, plan: Provisioning.PlanId): seq<Happening> {
    [] + [Signing(Provisioning.Visit(Provisioning.StartAct(token, plan), 0))]
    + [Signing(Provisioning.Visit(Provisioning.SetOwnerAct(token), 0))]
    + [Signing(Provisioning.Visit(Provisioning.SetCompanyAct(token, "a"), 0))]
  }

  const FILLED := Provisioning.Signup(Provisioning.Draft, 0, true, Some("a"), None, Provisioning.SIGNUP_SESSION_TTL)

  lemma {:induction false} SignedUp(shop: Shop, token: Provisioning.Token, plan: Provisioning.PlanId)
    requires token !in shop.sites.signups && plan in shop.sites.plans
    ensures NoDeliveries(SigningUp(token, plan))
    ensures var s := shop.sites;
      After(shop, SigningUp(token, plan)) == shop.(sites := s.(signups := s.signups[token := FILLED.(plan := plan)]))
  {
    hide After;
    var start := Signing(Provisioning.Visit(Provisioning.StartAct(token, plan), 0));
    var owner := Signing(Provisioning.Visit(Provisioning.SetOwnerAct(token), 0));
    AfterNone(shop);
    AfterNext(shop, [], start);
    AfterNext(shop, [] + [start], owner);
    AfterNext(shop, [] + [start] + [owner], Signing(Provisioning.Visit(Provisioning.SetCompanyAct(token, "a"), 0)));
  }

  // A paid signup is handled while its session is unknown; then the session is filled in, and the
  // repeated delivery makes its tenant.
  lemma {:induction false} UnknownTokenIsHandledTwice(shop: Shop, token: Provisioning.Token, sub: Provisioning.SubscriptionId,
                                   plan: Provisioning.PlanId, a: Attempt)
    requires !Ready(shop, SubscriptionCheckout(Provisioning.SignupPurpose(token), Some(sub)))
    requires plan in shop.sites.plans && a.tenant !in shop.sites.tenants
    ensures var payload := SubscriptionCheckout(Provisioning.SignupPurpose(token), Some(sub));
      var later := After(shop, SigningUp(token, plan));
      && NoDeliveries(SigningUp(token, plan))
      && Handled(shop, payload, a.tenant, a.now) == Ok(shop)
      && a.tenant !in later.sites.tenants
      && Handled(later, payload, a.tenant, a.now).Ok?
      && a.tenant in Handled(later, payload, a.tenant, a.now).value.sites.tenants
  {
    hide Slugs.UniqueSlug, Provisioning.SlugsOf, Provisioning.Charged, Provisioning.Counted, After;
    SignedUp(shop, token, plan);
  }

  // One trial price for the plan, and a session that becomes the tenant on the spot.
  function TrialFor(token: Provisioning.Token, plan: Provisioning.PlanId, tenant: Provisioning.TenantId): seq<Happening> {
    SigningUp(token, plan)
    + [Signing(Provisioning.Visit(Provisioning.CreatePriceAct(plan, TRIAL), 0))]
    + [Signing(Provisioning.Visit(Provisioning.CreateCheckoutAct(token, true, tenant), 0))]
  }

  const TRIAL := Provisioning.Price(0, true, 14, 0, 0, false, None, None, None, None, None, 0)

  lemma {:induction false} TrialStarts(s: Provisioning.Sites, token: Provisioning.Token, plan: Provisioning.PlanId, tenant: Provisioning.TenantId)
    requires token in s.signups && s.signups[token] == FILLED.(plan := plan)
    requires var k := Provisioning.LatestActive(s.prices, plan); k < |s.prices| && s.prices[k].trialDays > 0
    requires tenant !in s.tenants
    ensures var t := Provisioning.CreateCheckout(s, token, true, tenant, 0).0;
      t.subscriptions == s.subscriptions[tenant := Provisioning.Subscription(plan, None, None)]
  {
    hide Slugs.UniqueSlug, Provisioning.SlugsOf, Provisioning.LatestActive;
  }

  lemma {:induction false} TrialAfter(shop: Shop, token: Provisioning.Token, plan: Provisioning.PlanId, tenant: Provisioning.TenantId)
    requires token !in shop.sites.signups && plan in shop.sites.plans && tenant !in shop.sites.tenants
    ensures NoDeliveries(TrialFor(token, plan, tenant))
    ensures After(shop, TrialFor(token, plan, tenant)).sites.subscriptions ==
      shop.sites.subscriptions[tenant := Provisioning.Subscription(plan, None, None)]
  {
    hide After, Provisioning.CreateCheckout;
    SignedUp(shop, token, plan);
    var signed := SigningUp(token, plan);
    var price := Signing(Provisioning.Visit(Provisioning.CreatePriceAct(plan, TRIAL), 0));
    AfterNext(shop, signed, price);
    var s := After(shop, signed + [price]).sites;
    var n := |s.prices| - 1;
    assert s.prices[n] == TRIAL.(plan := plan);
    assert Provisioning.ActiveFor(s.prices[n], plan);
    assert Provisioning.LatestActive(s.prices, plan) == n;
    TrialStarts(s, token, plan, tenant);
    AfterNext(shop, signed + [price], Signing(Provisioning.Visit(Provisioning.CreateCheckoutAct(token, true, tenant), 0)));
  }

  // An activation is handled while its tenant is unknown; then the tenant starts its trial, and the
  // repeated delivery attaches the subscription.
  lemma {:induction false} UnknownTenantIsHandledTwice(shop: Shop, tenant: Provisioning.TenantId, sub: Provisioning.SubscriptionId,
                                    token: Provisioning.Token, plan: Provisioning.PlanId, a: Attempt)
    requires Provisioning.Consistent(shop.sites)
    requires !Ready(shop, SubscriptionCheckout(Provisioning.ActivationPurpose(tenant), Some(sub)))
    requires plan in shop.sites.plans && token !in shop.sites.signups
    ensures var payload := SubscriptionCheckout(Provisioning.ActivationPurpose(tenant), Some(sub));
      var later := After(shop, TrialFor(token, plan, tenant));
      && NoDeliveries(TrialFor(token, plan, tenant))
      && Handled(shop, payload, a.tenant, a.now) == Ok(shop)
      && tenant in later.sites.subscriptions && later.sites.subscriptions[tenant].stripe.None?
      && (var r := Handled(later, payload, a.tenant, a.now);
          && r.Ok?
          && tenant in r.value.sites.subscriptions
          && r.value.sites.subscriptions[tenant].stripe == Some(sub))
  {
    hide Provisioning.Charged, Provisioning.Counted, After;
    TrialAfter(shop, token, plan, tenant);
    var later := After(shop, TrialFor(token, plan, tenant)).sites.subscriptions;
    forall t | t in later
      ensures later[t].stripe != Some(sub)
    {
      if t != tenant { assert shop.sites.subscriptions[t].stripe != Some(sub); }
    }
  }

  // --- The exact condition --------------------------------------------------------------------

  lemma {:induction false} SomeNumberIsFree(taken: set<nat>) returns (n: nat)
    ensures n !in taken
  {
    n := AboveAll(taken);
  }

  lemma {:induction false} AboveAll(taken: set<nat>) returns (n: nat)
    ensures forall m :: m in taken ==> m < n
  {
    n := 0;
    if taken != {} {
      var m :| m in taken;
      n := AboveAll(taken - {m});
      if n <= m { n := m + 1; }
      forall k | k in taken
        ensures k < n
      {
        if k != m { assert k in taken - {m}; }
      }
    }
  }

  // A continuation after which the event that was not ready takes effect.
  lemma {:induction false} Continuation(shop: Shop, payload: Payload) returns (hs: seq<Happening>, a: Attempt)
    requires ShopSound(shop) && !Ready(shop, payload) && (payload.SubscriptionCheckout? ==> shop.sites.plans != {})
    ensures NoDeliveries(hs) && Handled(shop, payload, a.tenant, a.now) == Ok(shop)
    ensures TakesEffect(After(shop, hs), payload, a)
  {
    hide After, Handled, BillingFor, SigningUp, TrialFor, Provisioning.Consistent, Payments.Sound;
    var tenant := SomeNumberIsFree(shop.sites.tenants.Keys);
    a := Attempt(tenant, 0);
    match payload {
      case PaymentPaid(session) =>
        var id := SomeNumberIsFree(shop.books.invoices.Keys);
        UnknownSessionIsHandledTwice(shop, session, id, a);
        hs := BillingFor(id, session);
      case SubscriptionCheckout(purpose, sub) =>
        var plan :| plan in shop.sites.plans;
        match purpose {
          case SignupPurpose(token) =>
            UnknownTokenIsHandledTwice(shop, token, sub.value, plan, a);
            hs := SigningUp(token, plan);
          case ActivationPurpose(existing) =>
            var token := SomeNumberIsFree(shop.sites.signups.Keys);
            UnknownTenantIsHandledTwice(shop, existing, sub.value, token, plan, a);
            hs := TrialFor(token, plan, existing);
        }
    }
  }

  lemma {:induction false} SettledAfter(shop: Shop, hs: seq<Happening>, payload: Payload)
    requires ShopSound(shop) && Settled(shop, payload)
    ensures ShopSound(After(shop, hs)) && Settled(After(shop, hs), payload)
  {
    if hs != [] {
      hide ShopSound, Settled, Operated;
      SettledAfter(shop, hs[..|hs| - 1], payload);
      OperatedKeeps(After(shop, hs[..|hs| - 1]), hs[|hs| - 1], payload);
    }
  }

  // In every sound state of a platform with a plan to sell, whatever the event: it names rows that exist
  // if and only if no handling of it can be followed by operations after which it takes effect again.
  lemma {:induction false} ReadyExactlyWhenNeverRepeated(shop: Shop, payload: Payload)
    requires ShopSound(shop) && (payload.SubscriptionCheckout? ==> shop.sites.plans != {})
    ensures Ready(shop, payload) <==> !exists once, hs, again :: Repeats(shop, payload, once, hs, again)
  {
    hide Ready, Handled, ShopSound, After, Settled;
    if Ready(shop, payload) {
      forall once, hs, again
        ensures !Repeats(shop, payload, once, hs, again)
      {
        if Repeats(shop, payload, once, hs, again) {
          SoundBooks(shop);
          HandlingSettles(shop, payload, once.tenant, once.now);
          HandledKeeps(shop, payload, once.tenant, once.now, payload);
          var first := Handled(shop, payload, once.tenant, once.now).value;
          SettledAfter(first, hs, payload);
          SettledIsIdle(After(first, hs), payload, again.tenant, again.now);
          assert false;
        }
      }
    } else {
      var hs, a := Continuation(shop, payload);
      assert Repeats(shop, payload, a, hs, a);
    }
  }

  // --- Whole runs -----------------------------------------------------------------------------

  // Between deliveries both worlds do the same.
  lemma {:induction false} OperationsRun(d: Desk, payloads: map<EventId, Payload>, hs: seq<Happening>)
    requires NoDeliveries(hs)
    ensures RealFrom(d, payloads, hs) == d.(shop := After(d.shop, hs))
    ensures IdealFrom(d, payloads, hs) == d.(shop := After(d.shop, hs))
  {
    if hs != [] {
      hide Operated;
      OperationsRun(d, payloads, hs[..|hs| - 1]);
    }
  }

  lemma {:induction false} RunsJoin(d: Desk, payloads: map<EventId, Payload>, hs: seq<Happening>, more: seq<Happening>)
    ensures RealFrom(d, payloads, hs + more) == RealFrom(RealFrom(d, payloads, hs), payloads, more)
    ensures IdealFrom(d, payloads, hs + more) == IdealFrom(IdealFrom(d, payloads, hs), payloads, more)
  {
    hide Really, Ideally;
    if more == [] {
      assert hs + more == hs;
    } else {
      var n := |more| - 1;
      RunsJoin(d, payloads, hs, more[..n]);
      assert (hs + more)[..|hs| + n] == hs + more[..n];
    }
  }

  lemma {:induction false} OneHappening(d: Desk, payloads: map<EventId, Payload>, h: Happening)
    ensures RealFrom(d, payloads, [h]) == Really(d, payloads, h)
    ensures IdealFrom(d, payloads, [h]) == Ideally(d, payloads, h)
  {
    assert [h][..0] == [];
  }

  // One delivery cut short before its mark, operations, and the delivery repeated.
  function CutShort(event: EventId, a: Attempt, ops: seq<Happening>): seq<Happening> {
    [Delivery(event, a.tenant, a.now, DiedBeforeMark)] + ops + [Delivery(event, a.tenant, a.now, Finished)]
  }

  lemma {:induction false} Parts(d: Desk, payloads: map<EventId, Payload>, cut: Happening, ops: seq<Happening>, again: Happening)
    ensures RealFrom(d, payloads, [cut] + ops + [again]) ==
      Really(RealFrom(Really(d, payloads, cut), payloads, ops), payloads, again)
    ensures IdealFrom(d, payloads, [cut] + ops + [again]) ==
      Ideally(IdealFrom(Ideally(d, payloads, cut), payloads, ops), payloads, again)
  {
    RunsJoin(d, payloads, [cut] + ops, [again]);
    RunsJoin(d, payloads, [cut], ops);
    OneHappening(d, payloads, cut);
    OneHappening(RealFrom(d, payloads, [cut] + ops), payloads, again);
    OneHappening(IdealFrom(d, payloads, [cut] + ops), payloads, again);
  }

  lemma {:induction false} ReallyTwice(d: Desk, payloads: map<EventId, Payload>, event: EventId, a: Attempt, ops: seq<Happening>)
    requires event !in d.ids && NoDeliveries(ops)
    requires Handled(d.shop, PayloadOf(payloads, event), a.tenant, a.now) == Ok(d.shop)
    requires TakesEffect(After(d.shop, ops), PayloadOf(payloads, event), a)
    ensures RealFrom(d, payloads, CutShort(event, a, ops)).shop != After(d.shop, ops)
  {
    hide RealFrom, IdealFrom, After, Handled, PayloadOf;
    Parts(d, payloads, Delivery(event, a.tenant, a.now, DiedBeforeMark), ops, Delivery(event, a.tenant, a.now, Finished));
    OperationsRun(d, payloads, ops);
  }

  lemma {:induction false} IdeallyOnce(d: Desk, payloads: map<EventId, Payload>, event: EventId, a: Attempt, ops: seq<Happening>)
    requires event !in d.ids && NoDeliveries(ops)
    requires Handled(d.shop, PayloadOf(payloads, event), a.tenant, a.now) == Ok(d.shop)
    ensures IdealFrom(d, payloads, CutShort(event, a, ops)).shop == After(d.shop, ops)
  {
    hide RealFrom, IdealFrom, After, Handled, PayloadOf;
    Parts(d, payloads, Delivery(event, a.tenant, a.now, DiedBeforeMark), ops, Delivery(event, a.tenant, a.now, Finished));
    OperationsRun(Desk(d.shop, d.ids + {event}), payloads, ops);
  }

  // The condition of Webhooks.EffectsAreExactlyOnce cannot be weakened: after any run that meets it, if
  // the next event to be handled for the first time names no rows, some continuation takes real and
  // wanted effects apart.
  lemma {:induction false} UnreadyRunsDiverge(plans: set<Provisioning.PlanId>, payloads: map<EventId, Payload>,
                                              hs: seq<Happening>, event: EventId)
    requires ReadyRun(plans, payloads, hs) && event !in Ideal(plans, payloads, hs).ids
    requires var d := Ideal(plans, payloads, hs);
      && !Ready(d.shop, PayloadOf(payloads, event))
      && (PayloadOf(payloads, event).SubscriptionCheckout? ==> d.shop.sites.plans != {})
    ensures exists more: seq<Happening> ::
      Real(plans, payloads, hs + more).shop != Ideal(plans, payloads, hs + more).shop
  {
    hide RealFrom, IdealFrom, After, Handled, Ready, ReadyRun, ShopSound, PayloadOf, TakesEffect;
    WorldsAlike(plans, payloads, hs);
    var actual, wanted := Real(plans, payloads, hs), Ideal(plans, payloads, hs);
    var ops, a := Continuation(wanted.shop, PayloadOf(payloads, event));
    ReallyTwice(actual, payloads, event, a, ops);
    IdeallyOnce(wanted, payloads, event, a, ops);
    RunsJoin(Open(plans), payloads, hs, CutShort(event, a, ops));
  }
}
