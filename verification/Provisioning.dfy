/**
 From signup to tenant: the staged signup session, the two provisioning paths, trial
 activation, promo redemption, and the prices they read.
 */
module Provisioning {
  import opened Basics
  import opened Slugs

  type Token = nat
  type TenantId = nat
  type PlanId = nat
  type PriceId = nat
  // Stripe's id of a subscription.
  type SubscriptionId = nat
  type Time = nat

  const SIGNUP_SESSION_TTL: nat := 48 * 60 * 60 * 1000

  datatype SignupStatus = Draft | AwaitingPayment | Completed | Expired

  // `company` is the slug of the trading or legal name, empty when nothing of it survives.
  datatype Signup = Signup(
    status: SignupStatus,
    plan: PlanId,
    owner: bool,
    company: Option<string>,
    tenant: Option<TenantId>,
    expiresAt: Time)

  datatype Price = Price(
    plan: PlanId,
    active: bool,
    trialDays: nat,
    setupFee: nat,
    monthly: nat,
    promoOn: bool,
    promoSetupFee: Option<nat>,
    promoMonthly: Option<nat>,
    promoStartsAt: Option<Time>,
    promoEndsAt: Option<Time>,
    promoMaxRedemptions: Option<nat>,
    promoRedemptionCount: nat)

  datatype Tenant = Tenant(slug: string)
  datatype Subscription = Subscription(plan: PlanId, stripe: Option<SubscriptionId>, price: Option<PriceId>)

  datatype Sites = Sites(
    plans: set<PlanId>,
    prices: seq<Price>,
    signups: map<Token, Signup>,
    tenants: map<TenantId, Tenant>,
    subscriptions: map<TenantId, Subscription>)

  // --- Promo pricing ------------------------------------------------------------------------

  predicate IsPromoActive(price: Price, now: Time) {
    && price.promoOn
    && price.promoMonthly.Some?
    && !(price.promoStartsAt.Some? && price.promoStartsAt.value > now)
    && !(price.promoEndsAt.Some? && price.promoEndsAt.value < now)
    && !(price.promoMaxRedemptions.Some? && price.promoRedemptionCount >= price.promoMaxRedemptions.value)
  }

  datatype Effective = Effective(isPromoActive: bool, setupFee: nat, monthly: nat)

  function EffectivePrice(price: Price, now: Time): Effective {
    var promo := IsPromoActive(price, now);
    Effective(
      promo,
      if promo && price.promoSetupFee.Some? then price.promoSetupFee.value else price.setupFee,
      if promo then price.promoMonthly.value else price.monthly)
  }

  predicate ActiveFor(price: Price, plan: PlanId) {
    price.active && price.plan == plan
  }

  // The webhook takes the first active row of the plan it finds.
  function FirstActive(prices: seq<Price>, plan: PlanId): (k: nat)
    ensures k <= |prices|
    ensures k < |prices| ==> ActiveFor(prices[k], plan)
    ensures forall j :: 0 <= j < k ==> !ActiveFor(prices[j], plan)
  {
    if prices == [] then 0
    else
      var n := |prices| - 1;
      var k := FirstActive(prices[..n], plan);
      assert forall j :: 0 <= j < n ==> prices[..n][j] == prices[j];
      if k < n then k else if ActiveFor(prices[n], plan) then n else |prices|
  }

  // The checkout takes the one created last.
  function LatestActive(prices: seq<Price>, plan: PlanId): (k: nat)
    ensures k <= |prices|
    ensures k < |prices| ==> ActiveFor(prices[k], plan)
    ensures forall j :: k < j < |prices| ==> !ActiveFor(prices[j], plan)
    ensures k == |prices| ==> forall j :: 0 <= j < |prices| ==> !ActiveFor(prices[j], plan)
  {
    if prices == [] then 0
    else
      var n := |prices| - 1;
      if ActiveFor(prices[n], plan) then n
      else
        var k := LatestActive(prices[..n], plan);
        assert forall j :: 0 <= j < n ==> prices[..n][j] == prices[j];
        if k < n then k else |prices|
  }

  // --- SaasPlansService ------------------------------------------------------------------------

  function Deactivated(prices: seq<Price>, plan: PlanId): (r: seq<Price>)
    ensures |r| == |prices|
    ensures forall k :: 0 <= k < |prices| ==>
      r[k] == if prices[k].plan == plan then prices[k].(active := false) else prices[k]
  {
    seq(|prices|, k requires 0 <= k < |prices| =>
      if prices[k].plan == plan then prices[k].(active := false) else prices[k])
  }

  // A new price starts active and unredeemed, and takes the place of any active one.
  function CreatePrice(s: Sites, plan: PlanId, price: Price): Result<Sites> {
    if plan !in s.plans then Err(NotFound)
    else
      Ok(s.(prices := Deactivated(s.prices, plan) +
           [price.(plan := plan, active := true, promoRedemptionCount := 0)]))
  }

  function DeactivatePrice(s: Sites, plan: PlanId, price: PriceId): Result<Sites> {
    if price >= |s.prices| || s.prices[price].plan != plan then Err(NotFound)
    else Ok(s.(prices := s.prices[price := s.prices[price].(active := false)]))
  }

  // --- SignupService -----------------------------------------------------------------------------

  // Tokens are drawn at random; a clash is refused by the unique key.
  function Start(s: Sites, token: Token, plan: PlanId, now: Time): Result<Sites> {
    if plan !in s.plans then Err(BadRequest)
    else if token in s.signups then Err(Conflict)
    else
      Ok(s.(signups := s.signups[token := Signup(Draft, plan, false, None, None, now + SIGNUP_SESSION_TTL)]))
  }

  predicate Overdue(row: Signup, now: Time) {
    !row.status.Completed? && row.expiresAt < now
  }

  // findByToken marks an overdue session EXPIRED before anything else is decided.
  function Touched(s: Sites, token: Token, now: Time): Sites {
    if token in s.signups && Overdue(s.signups[token], now)
    then s.(signups := s.signups[token := s.signups[token].(status := Expired)])
    else s
  }

  function Editable(s: Sites, token: Token, now: Time): Result<()> {
    if token !in s.signups then Err(NotFound)
    else
      var st := Touched(s, token, now).signups[token].status;
      if st.Expired? || st.Completed? then Err(BadRequest) else Ok(())
  }

  function SetOwner(s: Sites, token: Token, now: Time): (Sites, Result<()>) {
    var t := Touched(s, token, now);
    var r := Editable(s, token, now);
    if r.Err? then (t, r)
    else (t.(signups := t.signups[token := t.signups[token].(owner := true)]), Ok(()))
  }

  function SetCompany(s: Sites, token: Token, name: string, now: Time): (Sites, Result<()>) {
    var t := Touched(s, token, now);
    var r := Editable(s, token, now);
    if r.Err? then (t, r)
    else (t.(signups := t.signups[token := t.signups[token].(company := Some(name))]), Ok(()))
  }

  // A plan with a trial is provisioned on the spot; any other waits for the provider.
  function CreateCheckout(s: Sites, token: Token, started: bool, tenant: TenantId, now: Time): (Sites, Result<()>) {
    var t := Touched(s, token, now);
    var r := Editable(s, token, now);
    if r.Err? then (t, r)
    else if !t.signups[token].owner then (t, Err(BadRequest))
    else if t.signups[token].company.None? then (t, Err(BadRequest))
    else
      var k := LatestActive(t.prices, t.signups[token].plan);
      if k == |t.prices| then (t, Err(BadRequest))
      else if t.prices[k].trialDays > 0 then
        match ProvisionTrial(t, token, tenant)
        case Err(e) => (t, Err(e))
        case Ok(u) => (u, Ok(()))
      else if !started then (t, Err(BadRequest))
      else (t.(signups := t.signups[token := t.signups[token].(status := AwaitingPayment)]), Ok(()))
  }

  // --- TenantProvisioningService --------------------------------------------------------------------

  function SlugsOf(tenants: map<TenantId, Tenant>): set<string> {
    set t | t in tenants :: tenants[t].slug
  }

  predicate Attached(subscriptions: map<TenantId, Subscription>, sub: SubscriptionId) {
    exists t :: t in subscriptions && subscriptions[t].stripe == Some(sub)
  }

  predicate AlreadyProvisioned(s: Sites, token: Token) {
    token in s.signups && s.signups[token].status.Completed? && s.signups[token].tenant.Some?
    && s.signups[token].tenant.value in s.tenants
  }

  // createTenantCore, the subscription row, and the session's completion, in one transaction.
  function Provisioned(s: Sites, token: Token, tenant: TenantId, row: Subscription): (r: Result<Sites>)
    requires token in s.signups
  {
    if s.signups[token].company.None? then Err(BadRequest)
    else if tenant in s.tenants then Err(Conflict)
    else
      var name := s.signups[token].company.value;
      var slug := UniqueSlug(if name == "" then "company" else name, SlugsOf(s.tenants));
      Ok(s.(tenants := s.tenants[tenant := Tenant(slug)],
         subscriptions := s.subscriptions[tenant := row],
         signups := s.signups[token := s.signups[token].(status := Completed, tenant := Some(tenant))]))
  }

  function ProvisionTrial(s: Sites, token: Token, tenant: TenantId): Result<Sites>
    requires token in s.signups
  {
    if AlreadyProvisioned(s, token) then Ok(s)
    else if !s.signups[token].owner then Err(BadRequest)
    else Provisioned(s, token, tenant, Subscription(s.signups[token].plan, None, None))
  }

  function Counted(prices: seq<Price>, price: Option<PriceId>, promo: bool): (r: seq<Price>)
    ensures |r| == |prices|
  {
    if promo && price.Some? && price.value < |prices|
    then prices[price.value := prices[price.value].(promoRedemptionCount := prices[price.value].promoRedemptionCount + 1)]
    else prices
  }

  function ProvisionPaid(s: Sites, token: Token, sub: SubscriptionId, price: Option<PriceId>, promo: bool,
                         tenant: TenantId): Result<Sites>
    requires token in s.signups
  {
    if AlreadyProvisioned(s, token) then Ok(s)
    else if Attached(s.subscriptions, sub) then Ok(s)
    else if !s.signups[token].owner then Err(BadRequest)
    else
      match Provisioned(s, token, tenant, Subscription(s.signups[token].plan, Some(sub), price))
      case Err(e) => Err(e)
      case Ok(t) => Ok(t.(prices := Counted(t.prices, price, promo)))
  }

  function Activate(s: Sites, tenant: TenantId, sub: SubscriptionId, price: Option<PriceId>, promo: bool): Sites {
    if tenant !in s.subscriptions then s
    else if s.subscriptions[tenant].stripe.Some? then s
    else if Attached(s.subscriptions, sub) then s
    else
      s.(subscriptions := s.subscriptions[tenant := Subscription(s.subscriptions[tenant].plan, Some(sub), price)],
      prices := Counted(s.prices, price, promo))
  }

  // --- SubscriptionsService ------------------------------------------------------------------------

  // What a subscription checkout says about itself when it completes.
  datatype Purpose = SignupPurpose(token: Token) | ActivationPurpose(tenant: TenantId)

  // The price in force when the event is handled, and whether it counts as a promo redemption.
  function Charged(s: Sites, plan: PlanId, now: Time): (Option<PriceId>, bool) {
    var k := FirstActive(s.prices, plan);
    if k == |s.prices| then (None, false) else (Some(k), EffectivePrice(s.prices[k], now).isPromoActive)
  }

  function HandleCheckout(s: Sites, purpose: Purpose, sub: Option<SubscriptionId>, tenant: TenantId, now: Time): Result<Sites> {
    if sub.None? then Ok(s)
    else
      match purpose
      case ActivationPurpose(existing) =>
        if existing !in s.subscriptions then Ok(s)
        else
          var (price, promo) := Charged(s, s.subscriptions[existing].plan, now);
          Ok(Activate(s, existing, sub.value, price, promo))
      case SignupPurpose(token) =>
        if token !in s.signups then Ok(s)
        else
          var (price, promo) := Charged(s, s.signups[token].plan, now);
          ProvisionPaid(s, token, sub.value, price, promo, tenant)
  }

  // --- Runs ---------------------------------------------------------------------------------------------

  datatype Act =
    | CreatePriceAct(plan: PlanId, price: Price)
    | DeactivatePriceAct(plan: PlanId, priceId: PriceId)
    | StartAct(token: Token, plan: PlanId)
    | SetOwnerAct(token: Token)
    | SetCompanyAct(token: Token, name: string)
    | CreateCheckoutAct(token: Token, started: bool, tenant: TenantId)
    | GetStatusAct(token: Token)
    | HandleCheckoutAct(purpose: Purpose, sub: Option<SubscriptionId>, tenant: TenantId)

  datatype Visit = Visit(act: Act, now: Time)

  function Kept(s: Sites, r: Result<Sites>): Sites {
    if r.Ok? then r.value else s
  }

  function Did(s: Sites, v: Visit): Sites {
    match v.act
    case CreatePriceAct(plan, price) => Kept(s, CreatePrice(s, plan, price))
    case DeactivatePriceAct(plan, price) => Kept(s, DeactivatePrice(s, plan, price))
    case StartAct(token, plan) => Kept(s, Start(s, token, plan, v.now))
    case SetOwnerAct(token) => SetOwner(s, token, v.now).0
    case SetCompanyAct(token, name) => SetCompany(s, token, name, v.now).0
    case CreateCheckoutAct(token, started, tenant) => CreateCheckout(s, token, started, tenant, v.now).0
    case GetStatusAct(token) => Touched(s, token, v.now)
    case HandleCheckoutAct(purpose, sub, tenant) => Kept(s, HandleCheckout(s, purpose, sub, tenant, v.now))
  }

  function RunSites(plans: set<PlanId>, visits: seq<Visit>): Sites {
    if visits == [] then Sites(plans, [], map[], map[], map[])
    else Did(RunSites(plans, visits[..|visits| - 1]), visits[|visits| - 1])
  }

  // --- What every run keeps --------------------------------------------------------------------------------

  ghost predicate SlugsDistinct(tenants: map<TenantId, Tenant>) {
    forall a, b :: a in tenants && b in tenants && a != b ==> tenants[a].slug != tenants[b].slug
  }

  ghost predicate StripesDistinct(subscriptions: map<TenantId, Subscription>) {
    forall a, b :: a in subscriptions && b in subscriptions && a != b && subscriptions[a].stripe.Some? ==>
      subscriptions[a].stripe != subscriptions[b].stripe
  }

  ghost predicate Injective(signups: map<Token, Signup>, tenants: map<TenantId, Tenant>) {
    && (forall a :: a in signups ==> (signups[a].status.Completed? <==> signups[a].tenant.Some?))
    && (forall a :: a in signups && signups[a].tenant.Some? ==> signups[a].tenant.value in tenants)
    && (forall a, b :: a in signups && b in signups && a != b && signups[a].tenant.Some? ==>
          signups[a].tenant != signups[b].tenant)
  }

  ghost predicate WithinCaps(prices: seq<Price>) {
    forall k :: 0 <= k < |prices| && prices[k].promoMaxRedemptions.Some? ==>
      prices[k].promoRedemptionCount <= prices[k].promoMaxRedemptions.value
  }

  ghost predicate OneActive(prices: seq<Price>) {
    forall j, k :: 0 <= j < k < |prices| && prices[j].active && prices[k].active ==> prices[j].plan != prices[k].plan
  }

  ghost predicate Consistent(s: Sites) {
    && s.subscriptions.Keys == s.tenants.Keys
    && SlugsDistinct(s.tenants)
    && StripesDistinct(s.subscriptions)
    && Injective(s.signups, s.tenants)
    && WithinCaps(s.prices)
    && OneActive(s.prices)
  }

  lemma TouchedKeeps(s: Sites, token: Token, now: Time)
    requires Consistent(s)
    ensures Consistent(Touched(s, token, now))
  {
  }

  lemma NewSlug(tenants: map<TenantId, Tenant>, tenant: TenantId, slug: string)
    requires SlugsDistinct(tenants) && tenant !in tenants && slug !in SlugsOf(tenants)
    ensures SlugsDistinct(tenants[tenant := Tenant(slug)])
  {
    assert forall a :: a in tenants ==> tenants[a].slug in SlugsOf(tenants);
  }

  lemma NewStripe(subscriptions: map<TenantId, Subscription>, tenant: TenantId, row: Subscription)
    requires StripesDistinct(subscriptions) && (row.stripe.Some? ==> !Attached(subscriptions, row.stripe.value))
    requires tenant in subscriptions ==> subscriptions[tenant].stripe.None?
    ensures StripesDistinct(subscriptions[tenant := row])
  {
  }

  lemma NewTenantOf(signups: map<Token, Signup>, tenants: map<TenantId, Tenant>, token: Token, tenant: TenantId, slug: string)
    requires Injective(signups, tenants) && token in signups && tenant !in tenants
    ensures Injective(signups[token := signups[token].(status := Completed, tenant := Some(tenant))],
                      tenants[tenant := Tenant(slug)])
  {
  }

  lemma ProvisionedKeeps(s: Sites, token: Token, tenant: TenantId, row: Subscription)
    requires Consistent(s) && token in s.signups && Provisioned(s, token, tenant, row).Ok?
    requires row.stripe.Some? ==> !Attached(s.subscriptions, row.stripe.value)
    ensures Consistent(Provisioned(s, token, tenant, row).value)
  {
    hide SlugsDistinct, StripesDistinct, Injective, WithinCaps, OneActive, UniqueSlug, SlugsOf, Attached;
    var name := s.signups[token].company.value;
    var base := if name == "" then "company" else name;
    SlugIsFirstFree(base, SlugsOf(s.tenants));
    NewSlug(s.tenants, tenant, UniqueSlug(base, SlugsOf(s.tenants)));
    NewStripe(s.subscriptions, tenant, row);
    NewTenantOf(s.signups, s.tenants, token, tenant, UniqueSlug(base, SlugsOf(s.tenants)));
  }

  // A redemption is counted only while the promo is active, so only below the cap.
  lemma CountedKeeps(s: Sites, plan: PlanId, now: Time)
    requires WithinCaps(s.prices) && OneActive(s.prices)
    ensures var (price, promo) := Charged(s, plan, now);
      WithinCaps(Counted(s.prices, price, promo)) && OneActive(Counted(s.prices, price, promo))
  {
  }

  lemma PaidKeeps(s: Sites, token: Token, sub: SubscriptionId, tenant: TenantId, now: Time)
    requires Consistent(s) && token in s.signups
    ensures var (price, promo) := Charged(s, s.signups[token].plan, now);
      ProvisionPaid(s, token, sub, price, promo, tenant).Ok? ==>
        Consistent(ProvisionPaid(s, token, sub, price, promo, tenant).value)
  {
    hide SlugsDistinct, StripesDistinct, Injective, WithinCaps, OneActive, AlreadyProvisioned, UniqueSlug;
    var (price, promo) := Charged(s, s.signups[token].plan, now);
    CountedKeeps(s, s.signups[token].plan, now);
    if !AlreadyProvisioned(s, token) && !Attached(s.subscriptions, sub)
      && Provisioned(s, token, tenant, Subscription(s.signups[token].plan, Some(sub), price)).Ok? {
      ProvisionedKeeps(s, token, tenant, Subscription(s.signups[token].plan, Some(sub), price));
    }
  }

  lemma ActivateKeeps(s: Sites, tenant: TenantId, plan: PlanId, sub: SubscriptionId, now: Time)
    requires Consistent(s)
    ensures var (price, promo) := Charged(s, plan, now); Consistent(Activate(s, tenant, sub, price, promo))
  {
    CountedKeeps(s, plan, now);
    hide WithinCaps, OneActive, Injective, SlugsDistinct, StripesDistinct;
    var (price, promo) := Charged(s, plan, now);
    if tenant in s.subscriptions && s.subscriptions[tenant].stripe.None? && !Attached(s.subscriptions, sub) {
      NewStripe(s.subscriptions, tenant, Subscription(s.subscriptions[tenant].plan, Some(sub), price));
    }
  }

  lemma PricesKeep(s: Sites, plan: PlanId, price: Price)
    requires Consistent(s) && CreatePrice(s, plan, price).Ok?
    ensures Consistent(CreatePrice(s, plan, price).value)
  {
    hide StripesDistinct, Injective, SlugsDistinct;
  }

  lemma CheckoutKeeps(s: Sites, token: Token, started: bool, tenant: TenantId, now: Time)
    requires Consistent(s)
    ensures Consistent(CreateCheckout(s, token, started, tenant, now).0)
  {
    TouchedKeeps(s, token, now);
    var t := Touched(s, token, now);
    if token in t.signups {
      var row := Subscription(t.signups[token].plan, None, None);
      if Provisioned(t, token, tenant, row).Ok? { ProvisionedKeeps(t, token, tenant, row); }
    }
    hide StripesDistinct, SlugsDistinct, WithinCaps, OneActive, Provisioned, LatestActive;
  }

  lemma EditKeeps(s: Sites, token: Token, name: string, now: Time)
    requires Consistent(s)
    ensures Consistent(SetOwner(s, token, now).0) && Consistent(SetCompany(s, token, name, now).0)
  {
    hide StripesDistinct, SlugsDistinct, WithinCaps, OneActive;
  }

  lemma StepKeeps(s: Sites, v: Visit)
    requires Consistent(s)
    ensures Consistent(Did(s, v))
  {
    match v.act {
      case CreatePriceAct(plan, price) => if plan in s.plans { PricesKeep(s, plan, price); }
      case DeactivatePriceAct(plan, price) =>
      case StartAct(token, plan) =>
      case SetOwnerAct(token) => EditKeeps(s, token, "", v.now);
      case SetCompanyAct(token, name) => EditKeeps(s, token, name, v.now);
      case CreateCheckoutAct(token, started, tenant) => CheckoutKeeps(s, token, started, tenant, v.now);
      case GetStatusAct(token) => TouchedKeeps(s, token, v.now);
      case HandleCheckoutAct(purpose, sub, tenant) =>
        if sub.Some? {
          match purpose {
            case ActivationPurpose(existing) =>
              if existing in s.subscriptions {
                ActivateKeeps(s, existing, s.subscriptions[existing].plan, sub.value, v.now);
              }
            case SignupPurpose(token) => if token in s.signups { PaidKeeps(s, token, sub.value, tenant, v.now); }
          }
        }
    }
  }

  lemma {:induction false} RunsAreConsistent(plans: set<PlanId>, visits: seq<Visit>)
    ensures Consistent(RunSites(plans, visits))
  {
    if visits != [] {
      RunsAreConsistent(plans, visits[..|visits| - 1]);
      StepKeeps(RunSites(plans, visits[..|visits| - 1]), visits[|visits| - 1]);
    }
  }

  // Over all runs of trial, paid and activation paths: completed signups map one to one to existing
  // tenants, no two tenants share a slug or a Stripe subscription, every tenant has its subscription
  // row, and no more redemptions of a promo are recorded than its cap allows.
  lemma {:induction false} TenantsAreProvisionedOnce(plans: set<PlanId>, visits: seq<Visit>)
    ensures var s := RunSites(plans, visits);
      && (forall a :: a in s.signups && s.signups[a].status.Completed? ==>
            s.signups[a].tenant.Some? && s.signups[a].tenant.value in s.tenants)
      && (forall a, b :: a in s.signups && b in s.signups && a != b && s.signups[a].status.Completed? ==>
            s.signups[a].tenant != s.signups[b].tenant)
      && (forall a, b :: a in s.tenants && b in s.tenants && a != b ==> s.tenants[a].slug != s.tenants[b].slug)
      && (forall a, b :: a in s.subscriptions && b in s.subscriptions && a != b && s.subscriptions[a].stripe.Some? ==>
            s.subscriptions[a].stripe != s.subscriptions[b].stripe)
      && s.subscriptions.Keys == s.tenants.Keys
      && (forall k :: 0 <= k < |s.prices| && s.prices[k].promoMaxRedemptions.Some? ==>
            s.prices[k].promoRedemptionCount <= s.prices[k].promoMaxRedemptions.value)
  {
    RunsAreConsistent(plans, visits);
  }

  // A checkout and a webhook look the price up in two ways. At any one time they find the same row,
  // since at most one price of a plan is active; at two times they may not (Charging).
  lemma {:induction false} OnePriceEverywhere(plans: set<PlanId>, visits: seq<Visit>, plan: PlanId)
    ensures FirstActive(RunSites(plans, visits).prices, plan) == LatestActive(RunSites(plans, visits).prices, plan)
  {
    RunsAreConsistent(plans, visits);
    var prices := RunSites(plans, visits).prices;
    var first, latest := FirstActive(prices, plan), LatestActive(prices, plan);
    assert first < |prices| ==> ActiveFor(prices[first], plan);
    assert latest < |prices| ==> ActiveFor(prices[latest], plan);
  }
}
