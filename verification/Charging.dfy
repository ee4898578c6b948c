/**
 The price a checkout charges against the price its webhook counts. They are looked up at
 different times, so they are the same row exactly when the row stayed in force in between.
 */
module Charging {
  import opened Basics
  import opened Slugs
  import opened Provisioning

  // An accepted visit that takes row k of the plan out of force: a new price, or its deactivation.
  predicate Replaces(plans: set<PlanId>, v: Visit, plan: PlanId, k: PriceId) {
    || (v.act.CreatePriceAct? && v.act.plan == plan && plan in plans)
    || v.act == DeactivatePriceAct(plan, k)
  }

  ghost predicate Replaced(plans: set<PlanId>, visits: seq<Visit>, n: nat, plan: PlanId, k: PriceId) {
    exists j :: n <= j < |visits| && Replaces(plans, visits[j], plan, k)
  }

  // --- One row over time ----------------------------------------------------------------------

  // A price row keeps everything but its switch and its count.
  ghost predicate SameTerms(a: Price, b: Price) {
    b == a.(active := b.active, promoRedemptionCount := b.promoRedemptionCount)
  }

  lemma CountedRow(prices: seq<Price>, price: Option<PriceId>, promo: bool, k: PriceId)
    requires k < |prices|
    ensures var t := Counted(prices, price, promo); SameTerms(prices[k], t[k]) && t[k].active == prices[k].active
  {
  }

  lemma HandledPrices(s: Sites, purpose: Purpose, sub: Option<SubscriptionId>, tenant: TenantId, now: Time, k: PriceId)
    requires k < |s.prices|
    ensures var t := Kept(s, HandleCheckout(s, purpose, sub, tenant, now));
      t.plans == s.plans && |t.prices| == |s.prices|
      && SameTerms(s.prices[k], t.prices[k]) && t.prices[k].active == s.prices[k].active
  {
    hide UniqueSlug, SlugsOf, Attached, AlreadyProvisioned;
  }

  lemma CheckoutPrices(s: Sites, token: Token, started: bool, tenant: TenantId, now: Time)
    ensures var t := CreateCheckout(s, token, started, tenant, now).0; t.plans == s.plans && t.prices == s.prices
  {
    hide UniqueSlug, SlugsOf, AlreadyProvisioned, LatestActive;
  }

  lemma OneVisit(s: Sites, v: Visit, k: PriceId)
    requires k < |s.prices|
    ensures var t := Did(s, v);
      && t.plans == s.plans
      && k < |t.prices|
      && SameTerms(s.prices[k], t.prices[k])
      && t.prices[k].active == (s.prices[k].active && !Replaces(s.plans, v, s.prices[k].plan, k))
  {
    hide HandleCheckout, CreateCheckout, SetOwner, SetCompany, Touched;
    match v.act {
      case CreatePriceAct(_, _) =>
      case DeactivatePriceAct(_, _) =>
      case StartAct(_, _) =>
      case SetOwnerAct(token) => EditPrices(s, token, "", v.now);
      case SetCompanyAct(token, name) => EditPrices(s, token, name, v.now);
      case GetStatusAct(token) => EditPrices(s, token, "", v.now);
      case CreateCheckoutAct(token, started, tenant) => CheckoutPrices(s, token, started, tenant, v.now);
      case HandleCheckoutAct(purpose, sub, tenant) => HandledPrices(s, purpose, sub, tenant, v.now, k);
    }
  }

  lemma EditPrices(s: Sites, token: Token, name: string, now: Time)
    ensures var t := SetOwner(s, token, now).0; t.plans == s.plans && t.prices == s.prices
    ensures var t := SetCompany(s, token, name, now).0; t.plans == s.plans && t.prices == s.prices
    ensures var t := Touched(s, token, now); t.plans == s.plans && t.prices == s.prices
  {
  }

  lemma {:induction false} SamePlans(plans: set<PlanId>, visits: seq<Visit>)
    ensures RunSites(plans, visits).plans == plans
  {
    if visits != [] {
      var s := RunSites(plans, visits[..|visits| - 1]);
      SamePlans(plans, visits[..|visits| - 1]);
      VisitKeepsPlans(s, visits[|visits| - 1]);
    }
  }

  lemma VisitKeepsPlans(s: Sites, v: Visit)
    ensures Did(s, v).plans == s.plans
  {
    hide HandleCheckout, CreateCheckout, SetOwner, SetCompany, Touched;
    match v.act {
      case CreatePriceAct(_, _) =>
      case DeactivatePriceAct(_, _) =>
      case StartAct(_, _) =>
      case SetOwnerAct(token) => EditPrices(s, token, "", v.now);
      case SetCompanyAct(token, name) => EditPrices(s, token, name, v.now);
      case GetStatusAct(token) => EditPrices(s, token, "", v.now);
      case CreateCheckoutAct(token, started, tenant) => CheckoutPrices(s, token, started, tenant, v.now);
      case HandleCheckoutAct(purpose, sub, tenant) => HandledPlans(s, purpose, sub, tenant, v.now);
    }
  }

  lemma HandledPlans(s: Sites, purpose: Purpose, sub: Option<SubscriptionId>, tenant: TenantId, now: Time)
    ensures Kept(s, HandleCheckout(s, purpose, sub, tenant, now)).plans == s.plans
  {
    hide UniqueSlug, SlugsOf, Attached, AlreadyProvisioned, Counted;
  }

  // A row that was active stays so exactly as long as nothing replaces it.
  lemma {:induction false} RowOverTime(plans: set<PlanId>, visits: seq<Visit>, n: nat, k: PriceId)
    requires n <= |visits| && k < |RunSites(plans, visits[..n]).prices|
    ensures var s, t := RunSites(plans, visits[..n]), RunSites(plans, visits);
      && k < |t.prices|
      && SameTerms(s.prices[k], t.prices[k])
      && t.prices[k].active == (s.prices[k].active && !Replaced(plans, visits, n, s.prices[k].plan, k))
  {
    if n == |visits| {
      assert visits[..n] == visits;
    } else {
      var last := |visits| - 1;
      var before := visits[..last];
      assert before[..n] == visits[..n];
      RowOverTime(plans, before, n, k);
      SamePlans(plans, before);
      hide Did, SameTerms, Replaces;
      OneVisit(RunSites(plans, before), visits[last], k);
      SameTermsOn(RunSites(plans, visits[..n]).prices[k], RunSites(plans, before).prices[k], RunSites(plans, visits).prices[k]);
      ReplacedOnce(plans, visits, n, RunSites(plans, visits[..n]).prices[k].plan, k);
    }
  }

  lemma SameTermsOn(a: Price, b: Price, c: Price)
    requires SameTerms(a, b) && SameTerms(b, c)
    ensures SameTerms(a, c) && b.plan == a.plan
  {
  }

  lemma ReplacedOnce(plans: set<PlanId>, visits: seq<Visit>, n: nat, plan: PlanId, k: PriceId)
    requires n < |visits|
    ensures var last := |visits| - 1;
      Replaced(plans, visits, n, plan, k) <==>
        Replaced(plans, visits[..last], n, plan, k) || Replaces(plans, visits[last], plan, k)
  {
    hide Replaces;
    var last := |visits| - 1;
    if Replaced(plans, visits[..last], n, plan, k) {
      var j :| n <= j < last && Replaces(plans, visits[..last][j], plan, k);
      assert Replaces(plans, visits[j], plan, k);
    }
    if Replaced(plans, visits, n, plan, k) && !Replaces(plans, visits[last], plan, k) {
      var j :| n <= j < |visits| && Replaces(plans, visits[j], plan, k);
      assert visits[..last][j] == visits[j];
    }
  }

  // The row the checkout's lookup found is the one a later webhook's lookup finds, if and only if it
  // was not replaced in between.
  lemma {:induction false} LookupsAgreeExactlyWhen(plans: set<PlanId>, visits: seq<Visit>, n: nat, plan: PlanId)
    requires n <= |visits|
    requires var s := RunSites(plans, visits[..n]); LatestActive(s.prices, plan) < |s.prices|
    ensures var k := LatestActive(RunSites(plans, visits[..n]).prices, plan);
      FirstActive(RunSites(plans, visits).prices, plan) == k <==> !Replaced(plans, visits, n, plan, k)
  {
    hide Did;
    var k := LatestActive(RunSites(plans, visits[..n]).prices, plan);
    RowOverTime(plans, visits, n, k);
    RunsAreConsistent(plans, visits);
    var prices := RunSites(plans, visits).prices;
    var first := FirstActive(prices, plan);
    assert first < |prices| ==> ActiveFor(prices[first], plan);
    assert first <= k || !ActiveFor(prices[k], plan);
  }

  // --- Signups --------------------------------------------------------------------------------

  // The visit sends the customer of the session to the provider's checkout.
  ghost predicate OpensCheckout(s: Sites, v: Visit, token: Token) {
    && v.act.CreateCheckoutAct?
    && v.act.token == token
    && (var (t, r) := CreateCheckout(s, token, v.act.started, v.act.tenant, v.now);
        r.Ok? && token in t.signups && t.signups[token].status.AwaitingPayment?)
  }

  lemma OpenedCheckout(s: Sites, v: Visit, token: Token)
    requires Consistent(s) && OpensCheckout(s, v, token)
    ensures token in s.signups
    ensures var k := LatestActive(s.prices, s.signups[token].plan); k < |s.prices| && s.prices[k].trialDays == 0
  {
    hide SlugsDistinct, StripesDistinct, WithinCaps, OneActive, UniqueSlug, SlugsOf;
  }

  // The webhook visit that makes the session's tenant.
  ghost predicate Provisions(s: Sites, v: Visit, token: Token) {
    && v.act.HandleCheckoutAct?
    && v.act.purpose == SignupPurpose(token)
    && v.act.tenant !in s.tenants
    && v.act.tenant in Did(s, v).tenants
  }

  lemma ProvisionedRow(s: Sites, v: Visit, token: Token)
    requires Consistent(s) && Provisions(s, v, token)
    ensures token in s.signups
    ensures var (price, promo) := Charged(s, s.signups[token].plan, v.now);
      && v.act.tenant in Did(s, v).subscriptions
      && Did(s, v).subscriptions[v.act.tenant].price == price
      && Did(s, v).prices == Counted(s.prices, price, promo)
  {
    hide SlugsDistinct, StripesDistinct, WithinCaps, OneActive, Injective, UniqueSlug, SlugsOf, Charged, Counted;
  }

  // A session keeps the plan it was started with.
  ghost predicate SamePlanOf(s: Sites, t: Sites, token: Token) {
    token in s.signups ==> token in t.signups && t.signups[token].plan == s.signups[token].plan
  }

  lemma VisitKeepsPlanOf(s: Sites, v: Visit, token: Token)
    ensures SamePlanOf(s, Did(s, v), token)
  {
    hide HandleCheckout, CreateCheckout, SetOwner, SetCompany, Touched;
    match v.act {
      case CreatePriceAct(_, _) =>
      case DeactivatePriceAct(_, _) =>
      case StartAct(_, _) =>
      case SetOwnerAct(other) => EditedPlan(s, other, "", v.now, token);
      case SetCompanyAct(other, name) => EditedPlan(s, other, name, v.now, token);
      case GetStatusAct(other) => EditedPlan(s, other, "", v.now, token);
      case CreateCheckoutAct(other, started, tenant) => CheckoutPlan(s, other, started, tenant, v.now, token);
      case HandleCheckoutAct(purpose, sub, tenant) => HandledPlan(s, purpose, sub, tenant, v.now, token);
    }
  }

  lemma EditedPlan(s: Sites, other: Token, name: string, now: Time, token: Token)
    ensures SamePlanOf(s, SetOwner(s, other, now).0, token)
    ensures SamePlanOf(s, SetCompany(s, other, name, now).0, token)
    ensures SamePlanOf(s, Touched(s, other, now), token)
  {
  }

  lemma CheckoutPlan(s: Sites, other: Token, started: bool, tenant: TenantId, now: Time, token: Token)
    ensures SamePlanOf(s, CreateCheckout(s, other, started, tenant, now).0, token)
  {
    hide UniqueSlug, SlugsOf, AlreadyProvisioned, LatestActive;
  }

  lemma HandledPlan(s: Sites, purpose: Purpose, sub: Option<SubscriptionId>, tenant: TenantId, now: Time, token: Token)
    ensures SamePlanOf(s, Kept(s, HandleCheckout(s, purpose, sub, tenant, now)), token)
  {
    hide UniqueSlug, SlugsOf, Attached, AlreadyProvisioned, Counted, Charged;
  }

  lemma {:induction false} PlanOverTime(plans: set<PlanId>, visits: seq<Visit>, n: nat, token: Token)
    requires n <= |visits|
    ensures SamePlanOf(RunSites(plans, visits[..n]), RunSites(plans, visits), token)
  {
    if n == |visits| {
      assert visits[..n] == visits;
    } else {
      var last := |visits| - 1;
      assert visits[..last][..n] == visits[..n];
      PlanOverTime(plans, visits[..last], n, token);
      VisitKeepsPlanOf(RunSites(plans, visits[..last]), visits[last], token);
    }
  }

  // The price row on the new subscription is the one the customer was charged for, if and only if no
  // price of the plan was created, and that row not deactivated, between checkout and webhook.
  lemma {:induction false} CountedIsChargedExactlyWhen(plans: set<PlanId>, visits: seq<Visit>, n: nat, m: nat, token: Token)
    requires n < m < |visits|
    requires OpensCheckout(RunSites(plans, visits[..n]), visits[n], token)
    requires Provisions(RunSites(plans, visits[..m]), visits[m], token)
    ensures token in RunSites(plans, visits[..n]).signups
    ensures var s := RunSites(plans, visits[..n]);
      var k := LatestActive(s.prices, s.signups[token].plan);
      var t := RunSites(plans, visits[..m + 1]);
      && k < |s.prices|
      && visits[m].act.tenant in t.subscriptions
      && (t.subscriptions[visits[m].act.tenant].price == Some(k) <==>
        !Replaced(plans, visits[..m], n, s.signups[token].plan, k))
  {
    hide OpensCheckout, Provisions, Consistent, Did, Replaced;
    var s, u := RunSites(plans, visits[..n]), RunSites(plans, visits[..m]);
    assert visits[..m][..n] == visits[..n] && visits[..m + 1][..m] == visits[..m];
    RunsAreConsistent(plans, visits[..n]);
    RunsAreConsistent(plans, visits[..m]);
    OpenedCheckout(s, visits[n], token);
    ProvisionedRow(u, visits[m], token);
    PlanOverTime(plans, visits[..m], n, token);
    LookupsAgreeExactlyWhen(plans, visits[..m], n, s.signups[token].plan);
    RowOverTime(plans, visits[..m], n, LatestActive(s.prices, s.signups[token].plan));
  }

  // --- Promos ---------------------------------------------------------------------------------

  // The promo's window is open and its cap not reached.
  predicate Redeemable(price: Price, now: Time) {
    && !(price.promoStartsAt.Some? && price.promoStartsAt.value > now)
    && !(price.promoEndsAt.Some? && price.promoEndsAt.value < now)
    && !(price.promoMaxRedemptions.Some? && price.promoRedemptionCount >= price.promoMaxRedemptions.value)
  }

  // A customer charged the promo price is counted as a redemption if and only if the row was not replaced
  // and is still redeemable when the webhook comes: the cap bounds the count, not the customers.
  lemma {:induction false} PromoIsCountedExactlyWhen(plans: set<PlanId>, visits: seq<Visit>, n: nat, m: nat, token: Token)
    requires n < m < |visits|
    requires OpensCheckout(RunSites(plans, visits[..n]), visits[n], token)
    requires Provisions(RunSites(plans, visits[..m]), visits[m], token)
    ensures token in RunSites(plans, visits[..n]).signups
    ensures var s, u, t := RunSites(plans, visits[..n]), RunSites(plans, visits[..m]), RunSites(plans, visits[..m + 1]);
      var k := LatestActive(s.prices, s.signups[token].plan);
      && k < |s.prices| && k < |u.prices| && k < |t.prices|
      && (IsPromoActive(s.prices[k], visits[n].now) ==>
        (t.prices[k].promoRedemptionCount == u.prices[k].promoRedemptionCount + 1 <==>
          !Replaced(plans, visits[..m], n, s.signups[token].plan, k) && Redeemable(u.prices[k], visits[m].now)))
  {
    hide OpensCheckout, Provisions, Consistent, Did, Replaced;
    var s, u := RunSites(plans, visits[..n]), RunSites(plans, visits[..m]);
    assert visits[..m][..n] == visits[..n] && visits[..m + 1][..m] == visits[..m];
    RunsAreConsistent(plans, visits[..n]);
    RunsAreConsistent(plans, visits[..m]);
    OpenedCheckout(s, visits[n], token);
    ProvisionedRow(u, visits[m], token);
    PlanOverTime(plans, visits[..m], n, token);
    var plan := s.signups[token].plan;
    var k := LatestActive(s.prices, plan);
    LookupsAgreeExactlyWhen(plans, visits[..m], n, plan);
    RowOverTime(plans, visits[..m], n, k);
  }

  // --- Activations ----------------------------------------------------------------------------

  // A trial tenant may be sent to the provider's checkout.
  predicate OpensActivation(s: Sites, tenant: TenantId) {
    && tenant in s.subscriptions
    && s.subscriptions[tenant].stripe.None?
    && LatestActive(s.prices, s.subscriptions[tenant].plan) < |s.prices|
  }

  // The webhook visit that attaches a paid subscription to the tenant.
  ghost predicate Activates(s: Sites, v: Visit, tenant: TenantId) {
    && v.act.HandleCheckoutAct?
    && v.act.purpose == ActivationPurpose(tenant)
    && tenant in s.subscriptions
    && s.subscriptions[tenant].stripe.None?
    && tenant in Did(s, v).subscriptions
    && Did(s, v).subscriptions[tenant].stripe.Some?
  }

  ghost predicate SamePlanFor(s: Sites, t: Sites, tenant: TenantId) {
    tenant in s.subscriptions ==> tenant in t.subscriptions && t.subscriptions[tenant].plan == s.subscriptions[tenant].plan
  }

  lemma VisitKeepsPlanFor(s: Sites, v: Visit, tenant: TenantId)
    requires s.subscriptions.Keys == s.tenants.Keys
    ensures SamePlanFor(s, Did(s, v), tenant)
  {
    hide HandleCheckout, CreateCheckout, SetOwner, SetCompany, Touched;
    match v.act {
      case CreatePriceAct(_, _) =>
      case DeactivatePriceAct(_, _) =>
      case StartAct(_, _) =>
      case SetOwnerAct(token) => EditedFor(s, token, "", v.now);
      case SetCompanyAct(token, name) => EditedFor(s, token, name, v.now);
      case GetStatusAct(token) => EditedFor(s, token, "", v.now);
      case CreateCheckoutAct(token, started, other) => CheckoutFor(s, token, started, other, v.now, tenant);
      case HandleCheckoutAct(purpose, sub, other) => HandledFor(s, purpose, sub, other, v.now, tenant);
    }
  }

  lemma EditedFor(s: Sites, token: Token, name: string, now: Time)
    ensures SetOwner(s, token, now).0.subscriptions == s.subscriptions
    ensures SetCompany(s, token, name, now).0.subscriptions == s.subscriptions
    ensures Touched(s, token, now).subscriptions == s.subscriptions
  {
  }

  lemma CheckoutFor(s: Sites, token: Token, started: bool, other: TenantId, now: Time, tenant: TenantId)
    requires s.subscriptions.Keys == s.tenants.Keys
    ensures SamePlanFor(s, CreateCheckout(s, token, started, other, now).0, tenant)
  {
    hide UniqueSlug, SlugsOf, AlreadyProvisioned, LatestActive;
  }

  lemma HandledFor(s: Sites, purpose: Purpose, sub: Option<SubscriptionId>, other: TenantId, now: Time, tenant: TenantId)
    requires s.subscriptions.Keys == s.tenants.Keys
    ensures SamePlanFor(s, Kept(s, HandleCheckout(s, purpose, sub, other, now)), tenant)
  {
    hide UniqueSlug, SlugsOf, Attached, AlreadyProvisioned, Counted, Charged;
  }

  lemma {:induction false} PlanForOverTime(plans: set<PlanId>, visits: seq<Visit>, n: nat, tenant: TenantId)
    requires n <= |visits|
    ensures SamePlanFor(RunSites(plans, visits[..n]), RunSites(plans, visits), tenant)
  {
    if n == |visits| {
      assert visits[..n] == visits;
    } else {
      var last := |visits| - 1;
      assert visits[..last][..n] == visits[..n];
      PlanForOverTime(plans, visits[..last], n, tenant);
      RunsAreConsistent(plans, visits[..last]);
      VisitKeepsPlanFor(RunSites(plans, visits[..last]), visits[last], tenant);
    }
  }

  lemma ActivatedRow(s: Sites, v: Visit, tenant: TenantId)
    requires Activates(s, v, tenant)
    ensures tenant in Did(s, v).subscriptions
    ensures Did(s, v).subscriptions[tenant].price == Charged(s, s.subscriptions[tenant].plan, v.now).0
  {
    hide Charged, Attached, Counted;
  }

  // The same for a trial tenant that starts to pay.
  lemma {:induction false} ActivatedIsChargedExactlyWhen(plans: set<PlanId>, visits: seq<Visit>, n: nat, m: nat, tenant: TenantId)
    requires n <= m < |visits|
    requires OpensActivation(RunSites(plans, visits[..n]), tenant)
    requires Activates(RunSites(plans, visits[..m]), visits[m], tenant)
    ensures var s, t := RunSites(plans, visits[..n]), RunSites(plans, visits[..m + 1]);
      var k := LatestActive(s.prices, s.subscriptions[tenant].plan);
      && tenant in t.subscriptions
      && (t.subscriptions[tenant].price == Some(k) <==> !Replaced(plans, visits[..m], n, s.subscriptions[tenant].plan, k))
  {
    hide Replaced, Did, Activates;
    var s, u := RunSites(plans, visits[..n]), RunSites(plans, visits[..m]);
    assert visits[..m][..n] == visits[..n] && visits[..m + 1][..m] == visits[..m];
    ActivatedRow(u, visits[m], tenant);
    PlanForOverTime(plans, visits[..m], n, tenant);
    LookupsAgreeExactlyWhen(plans, visits[..m], n, s.subscriptions[tenant].plan);
    RowOverTime(plans, visits[..m], n, LatestActive(s.prices, s.subscriptions[tenant].plan));
  }

  // --- Two runs -------------------------------------------------------------------------------

  lemma RunNext(plans: set<PlanId>, visits: seq<Visit>, v: Visit)
    ensures RunSites(plans, visits + [v]) == Did(RunSites(plans, visits), v)
  {
    assert (visits + [v])[..|visits|] == visits;
  }

  // Regularly two, and one for the first customer.
  const OFFER := Price(0, true, 0, 0, 2, true, None, Some(1), None, None, Some(1), 0)

  const WAITING := Signup(AwaitingPayment, 0, true, Some("a"), None, SIGNUP_SESSION_TTL)

  function Opening(token: Token): Visit {
    Visit(CreateCheckoutAct(token, true, 0), 0)
  }

  function Paid(token: Token): Visit {
    Visit(HandleCheckoutAct(SignupPurpose(token), Some(token), token), 0)
  }

  function Filled(token: Token): Signup {
    WAITING.(status := Draft)
  }

  // The three steps before checkout.
  function FilledIn(visits: seq<Visit>, token: Token): seq<Visit> {
    visits + [Visit(StartAct(token, 0), 0)] + [Visit(SetOwnerAct(token), 0)] + [Visit(SetCompanyAct(token, "a"), 0)]
  }

  lemma Offered()
    ensures RunSites({0}, [] + [Visit(CreatePriceAct(0, OFFER), 0)]) == Sites({0}, [OFFER], map[], map[], map[])
  {
    RunNext({0}, [], Visit(CreatePriceAct(0, OFFER), 0));
  }

  lemma FillsIn(visits: seq<Visit>, token: Token)
    requires var s := RunSites({0}, visits); 0 in s.plans && token !in s.signups
    ensures var s := RunSites({0}, visits);
      RunSites({0}, FilledIn(visits, token)) == s.(signups := s.signups[token := Filled(token)])
  {
    hide RunSites;
    var one := visits + [Visit(StartAct(token, 0), 0)];
    RunNext({0}, visits, Visit(StartAct(token, 0), 0));
    RunNext({0}, one, Visit(SetOwnerAct(token), 0));
    RunNext({0}, one + [Visit(SetOwnerAct(token), 0)], Visit(SetCompanyAct(token, "a"), 0));
  }

  lemma Opens(visits: seq<Visit>, token: Token)
    requires var s := RunSites({0}, visits);
      && token in s.signups && s.signups[token] == Filled(token)
      && s.prices == [OFFER]
    ensures var s := RunSites({0}, visits);
      && LatestActive(s.prices, 0) == 0
      && OpensCheckout(s, Opening(token), token)
      && RunSites({0}, visits + [Opening(token)]) == s.(signups := s.signups[token := WAITING])
  {
    hide RunSites;
    RunNext({0}, visits, Opening(token));
    assert ActiveFor([OFFER][0], 0);
  }

  // The webhook of a waiting session makes its tenant, on the row in force then.
  lemma Pays(visits: seq<Visit>, token: Token, k: PriceId)
    requires var s := RunSites({0}, visits);
      && token in s.signups && s.signups[token] == WAITING
      && token !in s.tenants && !Attached(s.subscriptions, token)
      && k < |s.prices| && FirstActive(s.prices, 0) == k
    ensures var s, t := RunSites({0}, visits), RunSites({0}, visits + [Paid(token)]);
      && Provisions(s, Paid(token), token)
      && t.tenants.Keys == s.tenants.Keys + {token}
      && t.subscriptions == s.subscriptions[token := Subscription(0, Some(token), Some(k))]
      && t.prices == Counted(s.prices, Some(k), IsPromoActive(s.prices[k], 0))
      && t.signups == s.signups[token := WAITING.(status := Completed, tenant := Some(token))]
  {
    hide RunSites, UniqueSlug, SlugsOf, Attached;
    RunNext({0}, visits, Paid(token));
  }

  function Repriced(): seq<Visit> {
    FilledIn([] + [Visit(CreatePriceAct(0, OFFER), 0)], 0) + [Opening(0)] + [Visit(CreatePriceAct(0, OFFER), 0)]
  }

  // A new price between checkout and webhook: the customer was charged row 0, the subscription and the
  // redemption name row 1.
  lemma ChargedIsNotAlwaysCounted()
    ensures var before := RunSites({0}, Repriced()[..4]);
      OpensCheckout(before, Repriced()[4], 0) && LatestActive(before.prices, 0) == 0
    ensures var t := RunSites({0}, Repriced() + [Paid(0)]);
      && t.subscriptions == map[0 := Subscription(0, Some(0), Some(1))]
      && |t.prices| == 2 && t.prices[0].promoRedemptionCount == 0 && t.prices[1].promoRedemptionCount == 1
  {
    hide RunSites, OpensCheckout, Provisions;
    var start: seq<Visit> := [] + [Visit(CreatePriceAct(0, OFFER), 0)];
    Offered();
    FillsIn(start, 0);
    var filled := FilledIn(start, 0);
    Opens(filled, 0);
    assert Repriced()[..4] == filled && Repriced()[4] == Opening(0);
    RunNext({0}, filled + [Opening(0)], Visit(CreatePriceAct(0, OFFER), 0));
    var prices := RunSites({0}, Repriced()).prices;
    assert prices == [OFFER.(active := false), OFFER];
    assert ActiveFor(prices[1], 0) && !ActiveFor(prices[0], 0);
    assert FirstActive(prices, 0) == 1;
    Pays(Repriced(), 0, 1);
  }

  function BothOpened(): seq<Visit> {
    FilledIn(FilledIn([] + [Visit(CreatePriceAct(0, OFFER), 0)], 0) + [Opening(0)], 1) + [Opening(1)]
  }

  // Two checkouts are open when one redemption is left: both customers are charged the promo price, and
  // one of them is counted.
  lemma MorePromosThanTheCap()
    ensures var first, second := RunSites({0}, BothOpened()[..4]), RunSites({0}, BothOpened()[..8]);
      && OpensCheckout(first, BothOpened()[4], 0) && LatestActive(first.prices, 0) == 0 && first.prices == [OFFER]
      && OpensCheckout(second, BothOpened()[8], 1) && LatestActive(second.prices, 0) == 0 && second.prices == [OFFER]
      && IsPromoActive(OFFER, 0)
    ensures var t := RunSites({0}, BothOpened() + [Paid(0)] + [Paid(1)]);
      && t.subscriptions == map[0 := Subscription(0, Some(0), Some(0)), 1 := Subscription(0, Some(1), Some(0))]
      && t.prices == [OFFER.(promoRedemptionCount := 1)]
  {
    hide RunSites, OpensCheckout, Provisions;
    var start: seq<Visit> := [] + [Visit(CreatePriceAct(0, OFFER), 0)];
    Offered();
    FillsIn(start, 0);
    var one := FilledIn(start, 0);
    Opens(one, 0);
    FillsIn(one + [Opening(0)], 1);
    var two := FilledIn(one + [Opening(0)], 1);
    Opens(two, 1);
    assert BothOpened()[..4] == one && BothOpened()[4] == Opening(0);
    assert BothOpened()[..8] == two && BothOpened()[8] == Opening(1);
    assert FirstActive([OFFER], 0) == 0;
    Pays(BothOpened(), 0, 0);
    assert FirstActive([OFFER.(promoRedemptionCount := 1)], 0) == 0;
    Pays(BothOpened() + [Paid(0)], 1, 0);
  }
}
