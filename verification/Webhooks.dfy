/**
 At-least-once webhooks with exactly-once effects: the ledger is checked first and written
 last, and the handlers make the gap in between harmless.
 */
module Webhooks {
  import opened Basics
  import Payments
  import Provisioning
  import Slugs

  type EventId = nat

  // What a delivered event asks for. An unpaid payment checkout, and every event type this model does
  // not follow, asks for nothing.
  datatype Payload =
    | PaymentPaid(session: Payments.SessionId)
    | SubscriptionCheckout(purpose: Provisioning.Purpose, sub: Option<Provisioning.SubscriptionId>)
    | Nothing

  datatype Shop = Shop(books: Payments.Books, sites: Provisioning.Sites)

  // The switch of handleStripeWebhook. An error is a handler that threw: nothing was written.
  function Handled(shop: Shop, payload: Payload, tenant: Provisioning.TenantId, now: Provisioning.Time): Result<Shop> {
    match payload
    case PaymentPaid(session) => Ok(shop.(books := Payments.CompleteOnline(shop.books, session)))
    case SubscriptionCheckout(purpose, sub) =>
      (match Provisioning.HandleCheckout(shop.sites, purpose, sub, tenant, now)
       case Ok(sites) => Ok(shop.(sites := sites))
       case Err(e) => Err(e))
    case Nothing => Ok(shop)
  }

  // How one delivery goes: it is handled and marked, or the process dies between the two, or before.
  datatype Outcome = Finished | DiedBeforeMark | DiedBeforeHandler

  datatype Happening =
    | Billing(op: Payments.Op)
    | Signing(visit: Provisioning.Visit)
    | Delivery(event: EventId, tenant: Provisioning.TenantId, now: Provisioning.Time, outcome: Outcome)

  // The business rows and the set of event ids: those marked, or those handled.
  datatype Desk = Desk(shop: Shop, ids: set<EventId>)

  function PayloadOf(payloads: map<EventId, Payload>, event: EventId): Payload {
    if event in payloads then payloads[event] else Nothing
  }

  function Operated(shop: Shop, h: Happening): Shop {
    match h
    case Billing(op) => shop.(books := Payments.Apply(shop.books, op))
    case Signing(visit) => shop.(sites := Provisioning.Did(shop.sites, visit))
    case Delivery(_, _, _, _) => shop
  }

  // What really happens: an event handled but not marked is handled again.
  function Really(d: Desk, payloads: map<EventId, Payload>, h: Happening): Desk {
    match h
    case Delivery(event, tenant, now, outcome) =>
      if event in d.ids || outcome.DiedBeforeHandler? then d
      else
        (match Handled(d.shop, PayloadOf(payloads, event), tenant, now)
         case Err(_) => d
         case Ok(shop) => Desk(shop, if outcome.Finished? then d.ids + {event} else d.ids))
    case _ => d.(shop := Operated(d.shop, h))
  }

  // What should happen: only the first delivery of an event that is handled at all has any effect.
  function Ideally(d: Desk, payloads: map<EventId, Payload>, h: Happening): Desk {
    match h
    case Delivery(event, tenant, now, outcome) =>
      if event in d.ids || outcome.DiedBeforeHandler? then d
      else
        (match Handled(d.shop, PayloadOf(payloads, event), tenant, now)
         case Err(_) => d
         case Ok(shop) => Desk(shop, d.ids + {event}))
    case _ => d.(shop := Operated(d.shop, h))
  }

  function Open(plans: set<Provisioning.PlanId>): Desk {
    Desk(Shop(Payments.Books(map[], []), Provisioning.Sites(plans, [], map[], map[], map[])), {})
  }

  function RealFrom(d: Desk, payloads: map<EventId, Payload>, hs: seq<Happening>): Desk {
    if hs == [] then d else Really(RealFrom(d, payloads, hs[..|hs| - 1]), payloads, hs[|hs| - 1])
  }

  function IdealFrom(d: Desk, payloads: map<EventId, Payload>, hs: seq<Happening>): Desk {
    if hs == [] then d else Ideally(IdealFrom(d, payloads, hs[..|hs| - 1]), payloads, hs[|hs| - 1])
  }

  function Real(plans: set<Provisioning.PlanId>, payloads: map<EventId, Payload>, hs: seq<Happening>): Desk {
    RealFrom(Open(plans), payloads, hs)
  }

  function Ideal(plans: set<Provisioning.PlanId>, payloads: map<EventId, Payload>, hs: seq<Happening>): Desk {
    IdealFrom(Open(plans), payloads, hs)
  }

  // --- Idempotence ----------------------------------------------------------------------------

  // The event names rows that exist, or its subscription belongs to a tenant already.
  predicate Ready(shop: Shop, payload: Payload) {
    match payload
    case PaymentPaid(session) => Payments.SessionRow(shop.books.payments, session) < |shop.books.payments|
    case SubscriptionCheckout(purpose, sub) =>
      sub.Some? ==>
        || Provisioning.Attached(shop.sites.subscriptions, sub.value)
        || (match purpose
            case SignupPurpose(token) => token in shop.sites.signups
            case ActivationPurpose(tenant) => tenant in shop.sites.subscriptions)
    case Nothing => true
  }

  // The event has nothing left to do.
  predicate Settled(shop: Shop, payload: Payload) {
    match payload
    case PaymentPaid(session) => SessionSettled(shop.books.payments, session)
    case SubscriptionCheckout(purpose, sub) => sub.Some? ==> PurposeSettled(shop.sites, purpose, sub.value)
    case Nothing => true
  }

  predicate SessionSettled(payments: seq<Payments.Payment>, session: Payments.SessionId) {
    var k := Payments.SessionRow(payments, session);
    k < |payments| && !payments[k].status.Pending?
  }

  predicate PurposeSettled(sites: Provisioning.Sites, purpose: Provisioning.Purpose, sub: Provisioning.SubscriptionId) {
    || Provisioning.Attached(sites.subscriptions, sub)
    || (match purpose
        case SignupPurpose(token) => Provisioning.AlreadyProvisioned(sites, token)
        case ActivationPurpose(tenant) => tenant in sites.subscriptions && sites.subscriptions[tenant].stripe.Some?)
  }

  lemma SettledIsIdle(shop: Shop, payload: Payload, tenant: Provisioning.TenantId, now: Provisioning.Time)
    requires Settled(shop, payload)
    ensures Handled(shop, payload, tenant, now) == Ok(shop)
  {
  }

  lemma CompletedSettles(b: Payments.Books, session: Payments.SessionId)
    requires Payments.Sound(b) && Payments.SessionRow(b.payments, session) < |b.payments|
    ensures SessionSettled(Payments.CompleteOnline(b, session).payments, session)
  {
    var k := Payments.SessionRow(b.payments, session);
    var t := Payments.CompleteOnline(b, session);
    RowStays(b.payments, t.payments, session);
  }

  // Rows are appended and change status, but keep their place and their session.
  ghost predicate Grows(a: seq<Payments.Payment>, b: seq<Payments.Payment>) {
    && |a| <= |b|
    && (forall k :: 0 <= k < |a| ==> b[k].session == a[k].session)
    && (forall k :: 0 <= k < |a| && !a[k].status.Pending? ==> !b[k].status.Pending?)
  }

  lemma RowStays(a: seq<Payments.Payment>, b: seq<Payments.Payment>, session: Payments.SessionId)
    requires Grows(a, b) && Payments.SessionRow(a, session) < |a|
    ensures Payments.SessionRow(b, session) == Payments.SessionRow(a, session)
  {
    var j, k := Payments.SessionRow(a, session), Payments.SessionRow(b, session);
    assert b[j].session == Some(session);
    assert forall i :: 0 <= i < j ==> b[i].session == a[i].session;
    assert k < |b| && b[k].session == Some(session);
    assert k <= j;
  }

  lemma BooksGrow(b: Payments.Books, op: Payments.Op)
    ensures Grows(b.payments, Payments.Apply(b, op).payments)
  {
  }

  lemma HandlingSettles(shop: Shop, payload: Payload, tenant: Provisioning.TenantId, now: Provisioning.Time)
    requires Payments.Sound(shop.books) && Ready(shop, payload) && Handled(shop, payload, tenant, now).Ok?
    ensures Settled(Handled(shop, payload, tenant, now).value, payload)
  {
    match payload {
      case PaymentPaid(session) => CompletedSettles(shop.books, session);
      case SubscriptionCheckout(purpose, sub) =>
        if sub.Some? {
          match purpose {
            case SignupPurpose(token) =>
            case ActivationPurpose(existing) =>
              if existing in shop.sites.subscriptions { ActivationSettles(shop.sites, existing, sub.value, now); }
          }
        }
      case Nothing =>
    }
  }

  lemma ActivationSettles(s: Provisioning.Sites, tenant: Provisioning.TenantId, sub: Provisioning.SubscriptionId,
                          now: Provisioning.Time)
    requires tenant in s.subscriptions
    ensures var (price, promo) := Provisioning.Charged(s, s.subscriptions[tenant].plan, now);
      PurposeSettled(Provisioning.Activate(s, tenant, sub, price, promo), Provisioning.ActivationPurpose(tenant), sub)
  {
  }

  // Completed signups, tenants and attached subscriptions are never undone.
  ghost predicate Lasts(s: Provisioning.Sites, t: Provisioning.Sites) {
    && (forall a :: a in s.signups ==> a in t.signups)
    && (forall a :: Provisioning.AlreadyProvisioned(s, a) ==> Provisioning.AlreadyProvisioned(t, a))
    && (forall a :: a in s.subscriptions ==> a in t.subscriptions)
    && (forall a :: a in s.subscriptions && s.subscriptions[a].stripe.Some? ==>
          t.subscriptions[a].stripe == s.subscriptions[a].stripe)
  }

  lemma LastingKeepsSettled(s: Provisioning.Sites, t: Provisioning.Sites, purpose: Provisioning.Purpose,
                            sub: Provisioning.SubscriptionId)
    requires Lasts(s, t) && PurposeSettled(s, purpose, sub)
    ensures PurposeSettled(t, purpose, sub)
  {
    if Provisioning.Attached(s.subscriptions, sub) {
      var a :| a in s.subscriptions && s.subscriptions[a].stripe == Some(sub);
      assert t.subscriptions[a].stripe == Some(sub);
    }
  }

  lemma ProvisionedLasts(s: Provisioning.Sites, token: Provisioning.Token, tenant: Provisioning.TenantId,
                         row: Provisioning.Subscription)
    requires Provisioning.Consistent(s) && token in s.signups && !Provisioning.AlreadyProvisioned(s, token)
    requires Provisioning.Provisioned(s, token, tenant, row).Ok?
    ensures Lasts(s, Provisioning.Provisioned(s, token, tenant, row).value)
  {
    hide Slugs.UniqueSlug;
  }

  lemma TouchedLasts(s: Provisioning.Sites, token: Provisioning.Token, now: Provisioning.Time)
    ensures Lasts(s, Provisioning.Touched(s, token, now))
  {
  }

  lemma LastsOn(s: Provisioning.Sites, t: Provisioning.Sites, u: Provisioning.Sites)
    requires Lasts(s, t) && Lasts(t, u)
    ensures Lasts(s, u)
  {
    hide Provisioning.AlreadyProvisioned;
  }

  // A session that is not completed was edited.
  lemma EditLasts(s: Provisioning.Sites, token: Provisioning.Token, row: Provisioning.Signup)
    requires token in s.signups && !Provisioning.AlreadyProvisioned(s, token)
    ensures Lasts(s, s.(signups := s.signups[token := row]))
  {
  }

  lemma EditableIsOpen(s: Provisioning.Sites, token: Provisioning.Token, now: Provisioning.Time)
    requires Provisioning.Editable(s, token, now).Ok?
    ensures token in Provisioning.Touched(s, token, now).signups
    ensures !Provisioning.AlreadyProvisioned(Provisioning.Touched(s, token, now), token)
  {
  }

  lemma CheckoutLasts(s: Provisioning.Sites, token: Provisioning.Token, started: bool, tenant: Provisioning.TenantId,
                      now: Provisioning.Time)
    requires Provisioning.Consistent(s)
    ensures Lasts(s, Provisioning.CreateCheckout(s, token, started, tenant, now).0)
  {
    TouchedLasts(s, token, now);
    if Provisioning.Editable(s, token, now).Ok? {
      Provisioning.TouchedKeeps(s, token, now);
      EditableIsOpen(s, token, now);
      var t := Provisioning.Touched(s, token, now);
      EditLasts(t, token, t.signups[token].(status := Provisioning.AwaitingPayment));
      var row := Provisioning.Subscription(t.signups[token].plan, None, None);
      if Provisioning.Provisioned(t, token, tenant, row).Ok? { ProvisionedLasts(t, token, tenant, row); }
      hide Provisioning.Provisioned, Provisioning.LatestActive, Provisioning.Touched, Provisioning.Editable, Lasts;
      hide Provisioning.Consistent;
      var u := Provisioning.CreateCheckout(s, token, started, tenant, now).0;
      SameLasts(t);
      LastsOn(s, t, u);
    }
  }

  lemma SameLasts(s: Provisioning.Sites)
    ensures Lasts(s, s)
  {
  }

  lemma DetailsLast(s: Provisioning.Sites, token: Provisioning.Token, name: string, now: Provisioning.Time)
    ensures Lasts(s, Provisioning.SetOwner(s, token, now).0) && Lasts(s, Provisioning.SetCompany(s, token, name, now).0)
  {
    TouchedLasts(s, token, now);
    if Provisioning.Editable(s, token, now).Ok? {
      EditableIsOpen(s, token, now);
      var t := Provisioning.Touched(s, token, now);
      var row := t.signups[token];
      EditLasts(t, token, row.(owner := true));
      EditLasts(t, token, row.(company := Some(name)));
      hide Lasts, Provisioning.Editable, Provisioning.Touched;
      LastsOn(s, t, t.(signups := t.signups[token := row.(owner := true)]));
      LastsOn(s, t, t.(signups := t.signups[token := row.(company := Some(name))]));
    }
  }

  lemma HandlingLasts(s: Provisioning.Sites, purpose: Provisioning.Purpose, sub: Option<Provisioning.SubscriptionId>,
                      tenant: Provisioning.TenantId, now: Provisioning.Time)
    requires Provisioning.Consistent(s) && Provisioning.HandleCheckout(s, purpose, sub, tenant, now).Ok?
    ensures Lasts(s, Provisioning.HandleCheckout(s, purpose, sub, tenant, now).value)
  {
    if sub.Some? && purpose.SignupPurpose? && purpose.token in s.signups {
      var (price, promo) := Provisioning.Charged(s, s.signups[purpose.token].plan, now);
      var row := Provisioning.Subscription(s.signups[purpose.token].plan, Some(sub.value), price);
      if !Provisioning.AlreadyProvisioned(s, purpose.token) && Provisioning.Provisioned(s, purpose.token, tenant, row).Ok? {
        ProvisionedLasts(s, purpose.token, tenant, row);
      }
      hide Provisioning.Provisioned, Provisioning.Charged;
    }
  }

  lemma StartLasts(s: Provisioning.Sites, token: Provisioning.Token, plan: Provisioning.PlanId, now: Provisioning.Time)
    requires Provisioning.Start(s, token, plan, now).Ok?
    ensures Lasts(s, Provisioning.Start(s, token, plan, now).value)
  {
  }

  lemma PricesLast(s: Provisioning.Sites, prices: seq<Provisioning.Price>)
    ensures Lasts(s, s.(prices := prices))
  {
  }

  lemma SitesLast(s: Provisioning.Sites, v: Provisioning.Visit)
    requires Provisioning.Consistent(s)
    ensures Lasts(s, Provisioning.Did(s, v))
  {
    hide Lasts, Provisioning.Consistent, Provisioning.CreateCheckout, Provisioning.SetOwner, Provisioning.SetCompany;
    hide Provisioning.HandleCheckout, Provisioning.Touched, Provisioning.Start;
    SameLasts(s);
    match v.act {
      case CreatePriceAct(_, _) => PricesLast(s, Provisioning.Did(s, v).prices);
      case DeactivatePriceAct(_, _) => PricesLast(s, Provisioning.Did(s, v).prices);
      case StartAct(token, plan) => if Provisioning.Start(s, token, plan, v.now).Ok? { StartLasts(s, token, plan, v.now); }
      case SetOwnerAct(token) => DetailsLast(s, token, "", v.now);
      case SetCompanyAct(token, name) => DetailsLast(s, token, name, v.now);
      case CreateCheckoutAct(token, started, tenant) => CheckoutLasts(s, token, started, tenant, v.now);
      case GetStatusAct(token) => TouchedLasts(s, token, v.now);
      case HandleCheckoutAct(purpose, sub, tenant) =>
        if Provisioning.HandleCheckout(s, purpose, sub, tenant, v.now).Ok? { HandlingLasts(s, purpose, sub, tenant, v.now); }
    }
  }

  ghost predicate ShopSound(shop: Shop) {
    Payments.Sound(shop.books) && Provisioning.Consistent(shop.sites)
  }

  // One happening, in either world: the shop stays sound, and what was settled stays settled.
  lemma OperatedKeeps(shop: Shop, h: Happening, payload: Payload)
    requires ShopSound(shop)
    ensures ShopSound(Operated(shop, h))
    ensures Settled(shop, payload) ==> Settled(Operated(shop, h), payload)
  {
    hide Payments.Sound, Provisioning.Consistent, Payments.Apply, Provisioning.Did;
    match h {
      case Billing(op) =>
        Payments.StepIsSound(shop.books, op);
        BooksGrow(shop.books, op);
        if payload.PaymentPaid? && SessionSettled(shop.books.payments, payload.session) {
          RowStays(shop.books.payments, Payments.Apply(shop.books, op).payments, payload.session);
        }
      case Signing(visit) =>
        Provisioning.StepKeeps(shop.sites, visit);
        SitesLast(shop.sites, visit);
        if payload.SubscriptionCheckout? && payload.sub.Some? && PurposeSettled(shop.sites, payload.purpose, payload.sub.value) {
          LastingKeepsSettled(shop.sites, Provisioning.Did(shop.sites, visit), payload.purpose, payload.sub.value);
        }
      case Delivery(_, _, _, _) =>
    }
  }

  // A handler is one of the operations.
  lemma HandlerIsOperation(shop: Shop, payload: Payload, tenant: Provisioning.TenantId, now: Provisioning.Time)
    requires Handled(shop, payload, tenant, now).Ok?
    ensures match payload
      case PaymentPaid(session) =>
        Handled(shop, payload, tenant, now).value == Operated(shop, Billing(Payments.CompleteOp(session)))
      case SubscriptionCheckout(purpose, sub) =>
        Handled(shop, payload, tenant, now).value ==
          Operated(shop, Signing(Provisioning.Visit(Provisioning.HandleCheckoutAct(purpose, sub, tenant), now)))
      case Nothing => Handled(shop, payload, tenant, now).value == shop
  {
  }

  lemma HandledKeeps(shop: Shop, done: Payload, tenant: Provisioning.TenantId, now: Provisioning.Time, payload: Payload)
    requires ShopSound(shop) && Handled(shop, done, tenant, now).Ok?
    ensures ShopSound(Handled(shop, done, tenant, now).value)
    ensures Settled(shop, payload) ==> Settled(Handled(shop, done, tenant, now).value, payload)
  {
    hide ShopSound, Settled, Handled;
    HandlerIsOperation(shop, done, tenant, now);
    match done {
      case PaymentPaid(session) => OperatedKeeps(shop, Billing(Payments.CompleteOp(session)), payload);
      case SubscriptionCheckout(purpose, sub) =>
        OperatedKeeps(shop, Signing(Provisioning.Visit(Provisioning.HandleCheckoutAct(purpose, sub, tenant), now)), payload);
      case Nothing =>
    }
  }

  // --- Exactly once ------------------------------------------------------------------------------

  // Whenever an event is handled for the first time, the rows it names exist.
  ghost predicate ReadyRun(plans: set<Provisioning.PlanId>, payloads: map<EventId, Payload>, hs: seq<Happening>) {
    hs == [] ||
    (var n := |hs| - 1;
     var d := Ideal(plans, payloads, hs[..n]);
     && ReadyRun(plans, payloads, hs[..n])
     && (hs[n].Delivery? && hs[n].event !in d.ids && !hs[n].outcome.DiedBeforeHandler? ==>
       Ready(d.shop, PayloadOf(payloads, hs[n].event))))
  }

  // The two worlds agree, and every event handled so far has nothing left to do.
  ghost predicate Alike(actual: Desk, wanted: Desk, payloads: map<EventId, Payload>) {
    && actual.shop == wanted.shop
    && actual.ids <= wanted.ids
    && ShopSound(wanted.shop)
    && (forall id :: id in wanted.ids ==> Settled(wanted.shop, PayloadOf(payloads, id)))
  }

  lemma OperationKeepsAlike(actual: Desk, wanted: Desk, payloads: map<EventId, Payload>, h: Happening)
    requires Alike(actual, wanted, payloads) && !h.Delivery?
    ensures Alike(Really(actual, payloads, h), Ideally(wanted, payloads, h), payloads)
  {
    hide ShopSound, Settled, Operated;
    OperatedKeeps(wanted.shop, h, Nothing);
    forall id | id in wanted.ids
      ensures Settled(Operated(wanted.shop, h), PayloadOf(payloads, id))
    {
      OperatedKeeps(wanted.shop, h, PayloadOf(payloads, id));
    }
  }

  lemma DeliveryKeepsAlike(actual: Desk, wanted: Desk, payloads: map<EventId, Payload>, h: Happening)
    requires Alike(actual, wanted, payloads) && h.Delivery?
    requires h.event !in wanted.ids && !h.outcome.DiedBeforeHandler? ==> Ready(wanted.shop, PayloadOf(payloads, h.event))
    ensures Alike(Really(actual, payloads, h), Ideally(wanted, payloads, h), payloads)
  {
    hide ShopSound, Settled, Handled, Ready, PayloadOf;
    var payload := PayloadOf(payloads, h.event);
    if h.event in wanted.ids {
      SettledIsIdle(wanted.shop, payload, h.tenant, h.now);
    } else if !h.outcome.DiedBeforeHandler? && Handled(wanted.shop, payload, h.tenant, h.now).Ok? {
      SoundBooks(wanted.shop);
      HandlingSettles(wanted.shop, payload, h.tenant, h.now);
      HandledKeeps(wanted.shop, payload, h.tenant, h.now, Nothing);
      forall id | id in wanted.ids
        ensures Settled(Handled(wanted.shop, payload, h.tenant, h.now).value, PayloadOf(payloads, id))
      {
        HandledKeeps(wanted.shop, payload, h.tenant, h.now, PayloadOf(payloads, id));
      }
    }
  }

  lemma SoundBooks(shop: Shop)
    requires ShopSound(shop)
    ensures Payments.Sound(shop.books)
  {
  }

  lemma {:induction false} WorldsAlike(plans: set<Provisioning.PlanId>, payloads: map<EventId, Payload>, hs: seq<Happening>)
    requires ReadyRun(plans, payloads, hs)
    ensures Alike(Real(plans, payloads, hs), Ideal(plans, payloads, hs), payloads)
  {
    if hs != [] {
      var n := |hs| - 1;
      WorldsAlike(plans, payloads, hs[..n]);
      hide Alike, Really, Ideally, Ready;
      if hs[n].Delivery? {
        DeliveryKeepsAlike(Real(plans, payloads, hs[..n]), Ideal(plans, payloads, hs[..n]), payloads, hs[n]);
      } else {
        OperationKeepsAlike(Real(plans, payloads, hs[..n]), Ideal(plans, payloads, hs[..n]), payloads, hs[n]);
      }
    }
  }

  // Any interleaving of business operations and deliveries, repeated and cut short at will: invoices,
  // payments, tenants and promo counts are as if only the first delivery of each event had run.
  lemma {:induction false} EffectsAreExactlyOnce(plans: set<Provisioning.PlanId>, payloads: map<EventId, Payload>,
                                                 hs: seq<Happening>)
    requires ReadyRun(plans, payloads, hs)
    ensures Real(plans, payloads, hs).shop == Ideal(plans, payloads, hs).shop
    ensures Real(plans, payloads, hs).ids <= Ideal(plans, payloads, hs).ids
  {
    WorldsAlike(plans, payloads, hs);
  }

  // --- Deliveries alone ----------------------------------------------------------------------------

  // Nothing left to do, or no row to do it to.
  predicate Idle(shop: Shop, payload: Payload) {
    || Settled(shop, payload)
    || (payload.PaymentPaid? && Payments.SessionRow(shop.books.payments, payload.session) == |shop.books.payments|)
    || (payload.SubscriptionCheckout? && payload.purpose.SignupPurpose? && payload.purpose.token !in shop.sites.signups)
    || (payload.SubscriptionCheckout? && payload.purpose.ActivationPurpose?
        && payload.purpose.tenant !in shop.sites.subscriptions)
  }

  lemma IdleStaysIdle(shop: Shop, payload: Payload, tenant: Provisioning.TenantId, now: Provisioning.Time)
    requires Idle(shop, payload)
    ensures Handled(shop, payload, tenant, now) == Ok(shop)
  {
    if Settled(shop, payload) { SettledIsIdle(shop, payload, tenant, now); }
  }

  // A handler adds no payment and no signup, and a tenant it adds has its subscription.
  lemma HandlerAddsNoRow(shop: Shop, done: Payload, tenant: Provisioning.TenantId, now: Provisioning.Time)
    requires ShopSound(shop) && Handled(shop, done, tenant, now).Ok?
    ensures var t := Handled(shop, done, tenant, now).value;
      && |t.books.payments| == |shop.books.payments|
      && (forall k :: 0 <= k < |t.books.payments| ==> t.books.payments[k].session == shop.books.payments[k].session)
      && t.sites.signups.Keys == shop.sites.signups.Keys
      && (forall a :: a in t.sites.subscriptions && a !in shop.sites.subscriptions ==> t.sites.subscriptions[a].stripe.Some?)
  {
  }

  lemma PaidTenantIsSettled(shop: Shop, payload: Payload)
    requires payload.SubscriptionCheckout? && payload.purpose.ActivationPurpose?
    requires payload.purpose.tenant in shop.sites.subscriptions
    requires shop.sites.subscriptions[payload.purpose.tenant].stripe.Some?
    ensures Settled(shop, payload)
  {
  }

  lemma HandledKeepsIdle(shop: Shop, done: Payload, tenant: Provisioning.TenantId, now: Provisioning.Time, payload: Payload)
    requires ShopSound(shop) && Handled(shop, done, tenant, now).Ok?
    ensures Idle(shop, payload) ==> Idle(Handled(shop, done, tenant, now).value, payload)
  {
    hide ShopSound, Settled, Handled;
    HandledKeeps(shop, done, tenant, now, payload);
    HandlerAddsNoRow(shop, done, tenant, now);
    var t := Handled(shop, done, tenant, now).value;
    if payload.PaymentPaid? && Payments.SessionRow(shop.books.payments, payload.session) == |shop.books.payments| {
      assert forall j :: 0 <= j < |t.books.payments| ==> t.books.payments[j].session != Some(payload.session);
    }
    if payload.SubscriptionCheckout? && payload.purpose.ActivationPurpose? && payload.purpose.tenant in t.sites.subscriptions
      && payload.purpose.tenant !in shop.sites.subscriptions {
      PaidTenantIsSettled(t, payload);
    }
  }

  lemma HandlingIdles(shop: Shop, payload: Payload, tenant: Provisioning.TenantId, now: Provisioning.Time)
    requires ShopSound(shop) && Handled(shop, payload, tenant, now).Ok?
    ensures Idle(Handled(shop, payload, tenant, now).value, payload)
  {
    if Ready(shop, payload) {
      HandlingSettles(shop, payload, tenant, now);
    } else {
      assert Idle(shop, payload);
      HandledKeepsIdle(shop, payload, tenant, now, payload);
    }
  }

  ghost predicate Twins(actual: Desk, wanted: Desk, payloads: map<EventId, Payload>) {
    && actual.shop == wanted.shop
    && actual.ids <= wanted.ids
    && ShopSound(wanted.shop)
    && (forall id :: id in wanted.ids ==> Idle(wanted.shop, PayloadOf(payloads, id)))
  }

  lemma DeliveryKeepsTwins(actual: Desk, wanted: Desk, payloads: map<EventId, Payload>, h: Happening)
    requires Twins(actual, wanted, payloads) && h.Delivery?
    ensures Twins(Really(actual, payloads, h), Ideally(wanted, payloads, h), payloads)
  {
    hide ShopSound, Idle, Handled;
    var payload := PayloadOf(payloads, h.event);
    if h.event in wanted.ids {
      IdleStaysIdle(wanted.shop, payload, h.tenant, h.now);
    } else if !h.outcome.DiedBeforeHandler? && Handled(wanted.shop, payload, h.tenant, h.now).Ok? {
      HandlingIdles(wanted.shop, payload, h.tenant, h.now);
      HandledKeeps(wanted.shop, payload, h.tenant, h.now, Nothing);
      forall other: Payload
        ensures Idle(wanted.shop, other) ==> Idle(Handled(wanted.shop, payload, h.tenant, h.now).value, other)
      {
        HandledKeepsIdle(wanted.shop, payload, h.tenant, h.now, other);
      }
    }
  }

  lemma {:induction false} TwinsStay(d: Desk, payloads: map<EventId, Payload>, hs: seq<Happening>)
    requires Twins(d, d, payloads) && forall k :: 0 <= k < |hs| ==> hs[k].Delivery?
    ensures Twins(RealFrom(d, payloads, hs), IdealFrom(d, payloads, hs), payloads)
  {
    if hs != [] {
      var n := |hs| - 1;
      TwinsStay(d, payloads, hs[..n]);
      hide Twins, Really, Ideally;
      DeliveryKeepsTwins(RealFrom(d, payloads, hs[..n]), IdealFrom(d, payloads, hs[..n]), payloads, hs[n]);
    }
  }

  // From any sound state and an empty ledger, any stream of deliveries alone, repeated and cut short
  // at will, does what its first deliveries do, whether the rows they name exist or not.
  lemma {:induction false} StreamsAreExactlyOnce(shop: Shop, payloads: map<EventId, Payload>, hs: seq<Happening>)
    requires ShopSound(shop) && forall k :: 0 <= k < |hs| ==> hs[k].Delivery?
    ensures RealFrom(Desk(shop, {}), payloads, hs).shop == IdealFrom(Desk(shop, {}), payloads, hs).shop
  {
    TwinsStay(Desk(shop, {}), payloads, hs);
  }
}
