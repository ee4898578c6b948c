/**
 Signup sessions over every run: when they can be edited, when they lapse, what a checkout asks
 of them, and what tenant comes of them.
 */
module Signups {
  import opened Basics
  import opened Slugs
  import opened Provisioning
  import opened Charging

  // Neither completed nor lapsed.
  predicate Open(row: Signup, now: Time) {
    !row.status.Completed? && !row.status.Expired? && now <= row.expiresAt
  }

  // The visits of the customer that look the session up.
  predicate Touches(v: Visit, token: Token) {
    match v.act
    case SetOwnerAct(other) => other == token
    case SetCompanyAct(other, _) => other == token
    case CreateCheckoutAct(other, _, _) => other == token
    case GetStatusAct(other) => other == token
    case _ => false
  }

  // One session has become `row`, and nothing else has changed.
  predicate OnlyChanged(s: Sites, t: Sites, token: Token, row: Signup) {
    t == s.(signups := s.signups[token := row])
  }

  // --- What is accepted -----------------------------------------------------------------------

  // In every state: an open session takes its details, and no other does.
  lemma {:induction false} DetailsAreTakenExactlyWhenOpen(s: Sites, token: Token, name: string, now: Time)
    ensures SetOwner(s, token, now).1.Ok? <==> token in s.signups && Open(s.signups[token], now)
    ensures SetCompany(s, token, name, now).1.Ok? <==> token in s.signups && Open(s.signups[token], now)
    ensures SetOwner(s, token, now).1.Ok? ==>
      token in s.signups && OnlyChanged(s, SetOwner(s, token, now).0, token, s.signups[token].(owner := true))
    ensures SetCompany(s, token, name, now).1.Ok? ==>
      token in s.signups && OnlyChanged(s, SetCompany(s, token, name, now).0, token, s.signups[token].(company := Some(name)))
    ensures SetOwner(s, token, now).1.Err? ==> SetOwner(s, token, now).1.error == if token in s.signups then BadRequest else NotFound
    ensures SetCompany(s, token, name, now).1 == SetOwner(s, token, now).1
  {
  }

  // What a checkout asks of the price in force: a trial needs a tenant id that is free, any other price an
  // answer from the provider.
  predicate Chargeable(s: Sites, k: PriceId, started: bool, tenant: TenantId)
    requires k < |s.prices|
  {
    if s.prices[k].trialDays > 0 then tenant !in s.tenants else started
  }

  // In every reachable state: a checkout is accepted exactly for an open session with owner and company,
  // whose plan has a price in force.
  lemma {:induction false} CheckoutIsTakenExactlyWhen(plans: set<PlanId>, visits: seq<Visit>, token: Token, started: bool,
                                                      tenant: TenantId, now: Time)
    ensures var s := RunSites(plans, visits);
      CreateCheckout(s, token, started, tenant, now).1.Ok? <==>
        && token in s.signups && Open(s.signups[token], now)
        && s.signups[token].owner && s.signups[token].company.Some?
        && (exists k: nat :: k < |s.prices| && ActiveFor(s.prices[k], s.signups[token].plan) && Chargeable(s, k, started, tenant))
  {
    hide RunSites;
    var s := RunSites(plans, visits);
    RunsAreConsistent(plans, visits);
    if token in s.signups { CheckoutAsks(s, token, started, tenant, now); }
  }

  lemma {:induction false} CheckoutAsks(s: Sites, token: Token, started: bool, tenant: TenantId, now: Time)
    requires Consistent(s) && token in s.signups
    ensures CreateCheckout(s, token, started, tenant, now).1.Ok? <==>
      && Open(s.signups[token], now)
      && s.signups[token].owner && s.signups[token].company.Some?
      && (exists k: nat :: k < |s.prices| && ActiveFor(s.prices[k], s.signups[token].plan) && Chargeable(s, k, started, tenant))
  {
    hide SlugsDistinct, StripesDistinct, WithinCaps, UniqueSlug, SlugsOf;
    var plan := s.signups[token].plan;
    var k := LatestActive(s.prices, plan);
    if k < |s.prices| {
      assert ActiveFor(s.prices[k], plan);
      forall j: nat | j < |s.prices| && ActiveFor(s.prices[j], plan)
        ensures j == k
      {
      }
    }
  }

  // Why a request is refused: a session that is not there is NOT_FOUND, an id that is taken a CONFLICT.
  lemma {:induction false} RefusalsSayWhy(s: Sites, token: Token, plan: PlanId, price: Price, k: PriceId, started: bool,
                                          tenant: TenantId, now: Time)
    ensures Start(s, token, plan, now).Ok? <==> plan in s.plans && token !in s.signups
    ensures Start(s, token, plan, now).Err? ==> Start(s, token, plan, now).error == if plan in s.plans then Conflict else BadRequest
    ensures CreatePrice(s, plan, price).Ok? <==> plan in s.plans
    ensures CreatePrice(s, plan, price).Err? ==> CreatePrice(s, plan, price).error == NotFound
    ensures DeactivatePrice(s, plan, k).Ok? <==> k < |s.prices| && s.prices[k].plan == plan
    ensures DeactivatePrice(s, plan, k).Err? ==> DeactivatePrice(s, plan, k).error == NotFound
    ensures var r := CreateCheckout(s, token, started, tenant, now).1;
      r.Err? ==> (r.error == NotFound <==> token !in s.signups) && (r.error == Conflict ==> tenant in s.tenants)
    ensures token in s.signups && Open(s.signups[token], now) && tenant !in s.tenants && !started ==>
      CreateCheckout(s, token, started, tenant, now).1 != Err(Conflict)
  {
    hide UniqueSlug, SlugsOf, LatestActive;
  }

  // The webhook fails only for a session that is there and not filled in, or an id that is taken.
  lemma {:induction false} WebhookFailsExactlyWhen(s: Sites, token: Token, sub: SubscriptionId, tenant: TenantId, now: Time)
    ensures var r := HandleCheckout(s, SignupPurpose(token), Some(sub), tenant, now);
      var waiting := token in s.signups && !AlreadyProvisioned(s, token) && !Attached(s.subscriptions, sub);
      && (r.Err? <==>
        waiting && (!s.signups[token].owner || s.signups[token].company.None? || tenant in s.tenants))
      && (r.Err? ==> r.error == if s.signups[token].owner && s.signups[token].company.Some? then Conflict else BadRequest)
  {
    hide UniqueSlug, SlugsOf, Charged, Counted, Attached;
  }

  // --- Over every run -------------------------------------------------------------------------

  // A session that waits for payment or is completed was filled in; a completed one has a tenant on its
  // own plan.
  ghost predicate Prepared(s: Sites, token: Token) {
    token in s.signups ==>
      var row := s.signups[token];
      && row.plan in s.plans
      && (row.status.AwaitingPayment? || row.status.Completed? ==> row.owner && row.company.Some?)
      && (row.tenant.Some? ==> row.tenant.value in s.subscriptions && s.subscriptions[row.tenant.value].plan == row.plan)
  }

  ghost predicate AllPrepared(s: Sites) {
    forall token :: Prepared(s, token)
  }

  lemma ProvisionedFillsIn(s: Sites, token: Token, tenant: TenantId, row: Subscription)
    requires Consistent(s) && AllPrepared(s) && token in s.signups && s.signups[token].owner
    requires Provisioned(s, token, tenant, row).Ok? && row.plan == s.signups[token].plan
    ensures AllPrepared(Provisioned(s, token, tenant, row).value)
  {
    hide SlugsDistinct, StripesDistinct, WithinCaps, OneActive, UniqueSlug, SlugsOf;
    var t := Provisioned(s, token, tenant, row).value;
    forall other
      ensures Prepared(t, other)
    {
      assert Prepared(s, other);
    }
  }

  lemma EditFillsIn(s: Sites, token: Token, name: string, now: Time)
    requires AllPrepared(s)
    ensures AllPrepared(Touched(s, token, now))
    ensures AllPrepared(SetOwner(s, token, now).0) && AllPrepared(SetCompany(s, token, name, now).0)
  {
    forall other
      ensures Prepared(Touched(s, token, now), other)
      ensures Prepared(SetOwner(s, token, now).0, other) && Prepared(SetCompany(s, token, name, now).0, other)
    {
      assert Prepared(s, other);
    }
  }

  lemma CheckoutFillsIn(s: Sites, token: Token, started: bool, tenant: TenantId, now: Time)
    requires Consistent(s) && AllPrepared(s)
    ensures AllPrepared(CreateCheckout(s, token, started, tenant, now).0)
  {
    TouchedKeeps(s, token, now);
    EditFillsIn(s, token, "", now);
    var t := Touched(s, token, now);
    if Editable(s, token, now).Ok? && t.signups[token].owner && t.signups[token].company.Some? {
      var row := Subscription(t.signups[token].plan, None, None);
      if Provisioned(t, token, tenant, row).Ok? { ProvisionedFillsIn(t, token, tenant, row); }
      WaitingFillsIn(t, token);
    }
    hide AllPrepared, Provisioned, LatestActive, Consistent, Touched;
  }

  lemma WaitingFillsIn(s: Sites, token: Token)
    requires AllPrepared(s) && token in s.signups && s.signups[token].owner && s.signups[token].company.Some?
    ensures AllPrepared(s.(signups := s.signups[token := s.signups[token].(status := AwaitingPayment)]))
  {
    var t := s.(signups := s.signups[token := s.signups[token].(status := AwaitingPayment)]);
    forall other
      ensures Prepared(t, other)
    {
      assert Prepared(s, other);
    }
  }

  lemma SubscriptionFillsIn(s: Sites, tenant: TenantId, row: Subscription)
    requires AllPrepared(s) && tenant in s.subscriptions && row.plan == s.subscriptions[tenant].plan
    ensures AllPrepared(s.(subscriptions := s.subscriptions[tenant := row]))
  {
    var t := s.(subscriptions := s.subscriptions[tenant := row]);
    forall other
      ensures Prepared(t, other)
    {
      assert Prepared(s, other);
    }
  }

  lemma PricesFillIn(s: Sites, prices: seq<Price>)
    requires AllPrepared(s)
    ensures AllPrepared(s.(prices := prices))
  {
    forall other
      ensures Prepared(s.(prices := prices), other)
    {
      assert Prepared(s, other);
    }
  }

  lemma WebhookFillsIn(s: Sites, purpose: Purpose, sub: SubscriptionId, tenant: TenantId, now: Time)
    requires Consistent(s) && AllPrepared(s)
    ensures AllPrepared(Kept(s, HandleCheckout(s, purpose, Some(sub), tenant, now)))
  {
    match purpose {
      case ActivationPurpose(existing) =>
        if existing in s.subscriptions {
          var (price, promo) := Charged(s, s.subscriptions[existing].plan, now);
          var row := Subscription(s.subscriptions[existing].plan, Some(sub), price);
          SubscriptionFillsIn(s, existing, row);
          PricesFillIn(s.(subscriptions := s.subscriptions[existing := row]), Counted(s.prices, price, promo));
          hide AllPrepared, Charged, Counted, Consistent;
        }
      case SignupPurpose(token) =>
        if token in s.signups && s.signups[token].owner {
          var (price, promo) := Charged(s, s.signups[token].plan, now);
          var row := Subscription(s.signups[token].plan, Some(sub), price);
          if Provisioned(s, token, tenant, row).Ok? {
            ProvisionedFillsIn(s, token, tenant, row);
            var t := Provisioned(s, token, tenant, row).value;
            PricesFillIn(t, Counted(t.prices, price, promo));
          }
          hide AllPrepared, Charged, Counted, Consistent, Provisioned;
        }
    }
  }

  lemma StartFillsIn(s: Sites, token: Token, plan: PlanId, now: Time)
    requires AllPrepared(s)
    ensures AllPrepared(Kept(s, Start(s, token, plan, now)))
  {
    forall other
      ensures Prepared(Kept(s, Start(s, token, plan, now)), other)
    {
      assert Prepared(s, other);
    }
  }

  lemma VisitFillsIn(s: Sites, v: Visit)
    requires Consistent(s) && AllPrepared(s)
    ensures AllPrepared(Did(s, v))
  {
    hide AllPrepared, Consistent, CreateCheckout, SetOwner, SetCompany, Touched, Start;
    match v.act {
      case CreatePriceAct(_, _) => PricesFillIn(s, Did(s, v).prices);
      case DeactivatePriceAct(_, _) => PricesFillIn(s, Did(s, v).prices);
      case StartAct(token, plan) => StartFillsIn(s, token, plan, v.now);
      case SetOwnerAct(token) => EditFillsIn(s, token, "", v.now);
      case SetCompanyAct(token, name) => EditFillsIn(s, token, name, v.now);
      case GetStatusAct(token) => EditFillsIn(s, token, "", v.now);
      case CreateCheckoutAct(token, started, tenant) => CheckoutFillsIn(s, token, started, tenant, v.now);
      case HandleCheckoutAct(purpose, sub, tenant) => if sub.Some? { WebhookFillsIn(s, purpose, sub.value, tenant, v.now); }
    }
  }

  lemma {:induction false} RunsFillIn(plans: set<PlanId>, visits: seq<Visit>)
    ensures AllPrepared(RunSites(plans, visits))
  {
    if visits != [] {
      hide Did, Consistent;
      var before := visits[..|visits| - 1];
      RunsFillIn(plans, before);
      RunsAreConsistent(plans, before);
      VisitFillsIn(RunSites(plans, before), visits[|visits| - 1]);
    }
  }

  // Over every run: no session waits for payment or is completed without owner and company; and the tenant
  // of a completed one is subscribed to the session's own plan.
  lemma {:induction false} TenantsFollowTheirSession(plans: set<PlanId>, visits: seq<Visit>, token: Token)
    requires token in RunSites(plans, visits).signups
    ensures var s := RunSites(plans, visits); var row := s.signups[token];
      && row.plan in plans
      && (row.status.AwaitingPayment? || row.status.Completed? ==> row.owner && row.company.Some?)
      && (row.status.Completed? ==>
        row.tenant.Some? && row.tenant.value in s.subscriptions && s.subscriptions[row.tenant.value].plan == row.plan)
  {
    hide RunSites;
    RunsFillIn(plans, visits);
    RunsAreConsistent(plans, visits);
    SamePlans(plans, visits);
    assert Prepared(RunSites(plans, visits), token);
  }

  // --- Time -------------------------------------------------------------------------------------

  // What a visit leaves of the session's dates, and when it finds it lapsed.
  ghost predicate Ages(s: Sites, t: Sites, v: Visit, token: Token) {
    && (token in s.signups ==>
      && token in t.signups
      && t.signups[token].plan == s.signups[token].plan
      && t.signups[token].expiresAt == s.signups[token].expiresAt
      && (t.signups[token].status.Expired? <==>
        && !t.signups[token].status.Completed?
        && (s.signups[token].status.Expired? || (Touches(v, token) && v.now > s.signups[token].expiresAt))))
    && (token !in s.signups && token in t.signups ==>
      && v.act == StartAct(token, t.signups[token].plan)
      && t.signups[token].status.Draft?
      && t.signups[token].expiresAt == v.now + 172_800_000)
  }

  lemma EditAges(s: Sites, v: Visit, token: Token)
    requires v.act.SetOwnerAct? || v.act.SetCompanyAct? || v.act.GetStatusAct? || v.act.StartAct?
    ensures Ages(s, Did(s, v), v, token)
  {
  }

  lemma CheckoutAges(s: Sites, v: Visit, token: Token)
    requires v.act.CreateCheckoutAct?
    ensures Ages(s, Did(s, v), v, token)
  {
    hide UniqueSlug, SlugsOf, AlreadyProvisioned, LatestActive;
  }

  lemma WebhookAges(s: Sites, v: Visit, token: Token)
    requires v.act.HandleCheckoutAct?
    ensures Ages(s, Did(s, v), v, token)
  {
    hide UniqueSlug, SlugsOf, Attached, Charged, Counted, AlreadyProvisioned;
  }

  lemma PricesAge(s: Sites, v: Visit, token: Token)
    requires v.act.CreatePriceAct? || v.act.DeactivatePriceAct?
    ensures Ages(s, Did(s, v), v, token)
  {
  }

  // Every visit, in every state: a session keeps its plan and its end, 48 hours after it was started, and
  // is found lapsed exactly by the customer's visits after that, unless it has been completed.
  lemma {:induction false} SessionsLapseExactlyWhen(s: Sites, v: Visit, token: Token)
    ensures Ages(s, Did(s, v), v, token)
  {
    hide Did, Ages;
    match v.act {
      case CreatePriceAct(_, _) => PricesAge(s, v, token);
      case DeactivatePriceAct(_, _) => PricesAge(s, v, token);
      case CreateCheckoutAct(_, _, _) => CheckoutAges(s, v, token);
      case HandleCheckoutAct(_, _, _) => WebhookAges(s, v, token);
      case _ => EditAges(s, v, token);
    }
  }

  // Visit n started the session, on this plan and with this end.
  ghost predicate StartedBy(plans: set<PlanId>, visits: seq<Visit>, n: nat, token: Token, row: Signup)
    requires n < |visits|
  {
    && visits[n].act == StartAct(token, row.plan)
    && token !in RunSites(plans, visits[..n]).signups
    && row.expiresAt == visits[n].now + 172_800_000
  }

  // Over every run: each session was started on its plan, and ends 48 hours after.
  lemma {:induction false} SessionsLastTwoDays(plans: set<PlanId>, visits: seq<Visit>, token: Token)
    requires token in RunSites(plans, visits).signups
    ensures exists n: nat :: n < |visits| && StartedBy(plans, visits, n, token, RunSites(plans, visits).signups[token])
  {
    var last := |visits| - 1;
    var before := visits[..last];
    SessionsLapseExactlyWhen(RunSites(plans, before), visits[last], token);
    if token in RunSites(plans, before).signups {
      SessionsLastTwoDays(plans, before, token);
      var n: nat :| n < |before| && StartedBy(plans, before, n, token, RunSites(plans, before).signups[token]);
      assert before[..n] == visits[..n];
      assert StartedBy(plans, visits, n, token, RunSites(plans, visits).signups[token]);
    } else {
      assert StartedBy(plans, visits, last, token, RunSites(plans, visits).signups[token]);
    }
  }
}
