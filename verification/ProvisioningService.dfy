/** SaasPlansService, SignupService, TenantProvisioningService and SubscriptionsService in place. */
module ProvisioningServices {
  import opened Basics
  import opened Slugs
  import opened Provisioning

  class SiteTables {
    var plans: set<PlanId>
    var prices: seq<Price>
    var signups: map<Token, Signup>
    var tenants: map<TenantId, Tenant>
    var subscriptions: map<TenantId, Subscription>

    constructor (plans: set<PlanId>)
      ensures View() == Sites(plans, [], map[], map[], map[])
    {
      this.plans := plans;
      prices, signups, tenants, subscriptions := [], map[], map[], map[];
    }

    function View(): Sites
      reads this
    {
      Sites(plans, prices, signups, tenants, subscriptions)
    }
  }

  ghost predicate Follows(before: Sites, spec: Result<Sites>, after: Sites, r: Result<()>) {
    match spec
    case Ok(t) => r == Ok(()) && after == t
    case Err(e) => r == Err(e) && after == before
  }

  class SaasPlansService {
    const db: SiteTables

    constructor (db: SiteTables)
      ensures this.db == db
    {
      this.db := db;
    }

    method AddPrice(plan: PlanId, price: Price) returns (r: Result<()>)
      modifies db
      ensures Follows(old(db.View()), CreatePrice(old(db.View()), plan, price), db.View(), r)
    {
      if plan !in db.plans {
        return Err(NotFound);
      }
      for k := 0 to |db.prices|
        invariant db.View() == old(db.View()).(prices := db.prices) && |db.prices| == |old(db.prices)|
        invariant forall j :: 0 <= j < k ==> db.prices[j] == Deactivated(old(db.prices), plan)[j]
        invariant forall j :: k <= j < |db.prices| ==> db.prices[j] == old(db.prices)[j]
      {
        if db.prices[k].plan == plan {
          db.prices := db.prices[k := db.prices[k].(active := false)];
        }
      }
      assert db.prices == Deactivated(old(db.prices), plan);
      db.prices := db.prices + [price.(plan := plan, active := true, promoRedemptionCount := 0)];
      r := Ok(());
    }

    method Deactivate(plan: PlanId, price: PriceId) returns (r: Result<()>)
      modifies db
      ensures Follows(old(db.View()), DeactivatePrice(old(db.View()), plan, price), db.View(), r)
    {
      if price >= |db.prices| || db.prices[price].plan != plan {
        return Err(NotFound);
      }
      db.prices := db.prices[price := db.prices[price].(active := false)];
      r := Ok(());
    }

    method FindActivePriceForPlan(plan: PlanId) returns (k: nat)
      ensures k == LatestActive(db.prices, plan)
    {
      var i := |db.prices|;
      while i > 0 && !ActiveFor(db.prices[i - 1], plan)
        invariant 0 <= i <= |db.prices|
        invariant forall j :: i <= j < |db.prices| ==> !ActiveFor(db.prices[j], plan)
      {
        i := i - 1;
      }
      k := if i == 0 then |db.prices| else i - 1;
      var latest := LatestActive(db.prices, plan);
      assert latest < |db.prices| ==> ActiveFor(db.prices[latest], plan);
      assert k < |db.prices| ==> ActiveFor(db.prices[k], plan);
    }
  }

  class TenantProvisioningService {
    const db: SiteTables

    constructor (db: SiteTables)
      ensures this.db == db
    {
      this.db := db;
    }

    method IsAttached(sub: SubscriptionId) returns (attached: bool)
      ensures attached <==> Attached(db.subscriptions, sub)
    {
      attached := exists t :: t in db.subscriptions && db.subscriptions[t].stripe == Some(sub);
    }

    // The transaction both provisioning paths share.
    method CreateTenantCore(token: Token, tenant: TenantId, row: Subscription) returns (r: Result<()>)
      requires token in db.signups
      modifies db
      ensures Follows(old(db.View()), Provisioned(old(db.View()), token, tenant, row), db.View(), r)
    {
      var signup := db.signups[token];
      if signup.company == None {
        return Err(BadRequest);
      }
      if tenant in db.tenants {
        return Err(Conflict);
      }
      var base := if signup.company.value == "" then "company" else signup.company.value;
      var slug := GenerateUniqueSlug(base, SlugsOf(db.tenants));
      db.tenants := db.tenants[tenant := Tenant(slug)];
      db.subscriptions := db.subscriptions[tenant := row];
      db.signups := db.signups[token := signup.(status := Completed, tenant := Some(tenant))];
      r := Ok(());
    }

    method MaybeCountPromoRedemption(price: Option<PriceId>, promo: bool)
      modifies db
      ensures db.View() == old(db.View()).(prices := Counted(old(db.prices), price, promo))
    {
      if promo && price != None && price.value < |db.prices| {
        var row := db.prices[price.value];
        db.prices := db.prices[price.value := row.(promoRedemptionCount := row.promoRedemptionCount + 1)];
      }
    }

    method ProvisionFromSignupSession(token: Token, sub: SubscriptionId, price: Option<PriceId>, promo: bool, tenant: TenantId)
      returns (r: Result<()>)
      requires token in db.signups
      modifies db
      ensures Follows(old(db.View()), ProvisionPaid(old(db.View()), token, sub, price, promo, tenant), db.View(), r)
    {
      if AlreadyProvisioned(db.View(), token) {
        return Ok(());
      }
      var byStripeSub := IsAttached(sub);
      if byStripeSub {
        return Ok(());
      }
      if !db.signups[token].owner {
        return Err(BadRequest);
      }
      r := CreateTenantCore(token, tenant, Subscription(db.signups[token].plan, Some(sub), price));
      if r.Ok? {
        MaybeCountPromoRedemption(price, promo);
      }
    }

    method ProvisionTrialFromSignupSession(token: Token, tenant: TenantId) returns (r: Result<()>)
      requires token in db.signups
      modifies db
      ensures Follows(old(db.View()), ProvisionTrial(old(db.View()), token, tenant), db.View(), r)
    {
      if AlreadyProvisioned(db.View(), token) {
        return Ok(());
      }
      if !db.signups[token].owner {
        return Err(BadRequest);
      }
      r := CreateTenantCore(token, tenant, Subscription(db.signups[token].plan, None, None));
    }

    method ActivateTrialSubscription(tenant: TenantId, sub: SubscriptionId, price: Option<PriceId>, promo: bool)
      modifies db
      ensures db.View() == Activate(old(db.View()), tenant, sub, price, promo)
    {
      if tenant !in db.subscriptions {
        return;
      }
      if db.subscriptions[tenant].stripe != None {
        return;
      }
      var byStripeSub := IsAttached(sub);
      if byStripeSub {
        return;
      }
      db.subscriptions := db.subscriptions[tenant := Subscription(db.subscriptions[tenant].plan, Some(sub), price)];
      MaybeCountPromoRedemption(price, promo);
    }
  }

  class SubscriptionsService {
    const db: SiteTables
    const provisioning: TenantProvisioningService

    constructor (db: SiteTables, provisioning: TenantProvisioningService)
      requires provisioning.db == db
      ensures this.db == db && this.provisioning == provisioning
    {
      this.db := db;
      this.provisioning := provisioning;
    }

    method FindActivePrice(plan: PlanId) returns (k: nat)
      ensures k == FirstActive(db.prices, plan)
    {
      k := 0;
      while k < |db.prices| && !ActiveFor(db.prices[k], plan)
        invariant k <= |db.prices|
        invariant forall j :: 0 <= j < k ==> !ActiveFor(db.prices[j], plan)
      {
        k := k + 1;
      }
      var first := FirstActive(db.prices, plan);
      assert first < |db.prices| ==> ActiveFor(db.prices[first], plan);
      assert k < |db.prices| ==> ActiveFor(db.prices[k], plan);
    }

    method HandleCheckoutCompleted(purpose: Purpose, sub: Option<SubscriptionId>, tenant: TenantId, now: Time)
      returns (r: Result<()>)
      requires provisioning.db == db
      modifies db
      ensures Follows(old(db.View()), HandleCheckout(old(db.View()), purpose, sub, tenant, now), db.View(), r)
    {
      if sub == None {
        return Ok(());
      }
      match purpose {
        case ActivationPurpose(existing) =>
          if existing !in db.subscriptions {
            return Ok(());
          }
          var k := FindActivePrice(db.subscriptions[existing].plan);
          if k == |db.prices| {
            provisioning.ActivateTrialSubscription(existing, sub.value, None, false);
          } else {
            var effective := EffectivePrice(db.prices[k], now);
            provisioning.ActivateTrialSubscription(existing, sub.value, Some(k), effective.isPromoActive);
          }
          r := Ok(());
        case SignupPurpose(token) =>
          if token !in db.signups {
            return Ok(());
          }
          var k := FindActivePrice(db.signups[token].plan);
          if k == |db.prices| {
            r := provisioning.ProvisionFromSignupSession(token, sub.value, None, false, tenant);
          } else {
            var effective := EffectivePrice(db.prices[k], now);
            r := provisioning.ProvisionFromSignupSession(token, sub.value, Some(k), effective.isPromoActive, tenant);
          }
      }
    }
  }

  class SignupService {
    const db: SiteTables
    const saasPlans: SaasPlansService
    const provisioning: TenantProvisioningService

    constructor (db: SiteTables, saasPlans: SaasPlansService, provisioning: TenantProvisioningService)
      requires saasPlans.db == db && provisioning.db == db
      ensures this.db == db && Wired()
    {
      this.db := db;
      this.saasPlans := saasPlans;
      this.provisioning := provisioning;
    }

    ghost predicate Wired() {
      saasPlans.db == db && provisioning.db == db
    }

    method StartSignup(token: Token, plan: PlanId, now: Time) returns (r: Result<()>)
      modifies db
      ensures Follows(old(db.View()), Start(old(db.View()), token, plan, now), db.View(), r)
    {
      if plan !in db.plans {
        return Err(BadRequest);
      }
      if token in db.signups {
        return Err(Conflict);
      }
      db.signups := db.signups[token := Signup(Draft, plan, false, None, None, now + SIGNUP_SESSION_TTL)];
      r := Ok(());
    }

    // Writes EXPIRED on the way when the session's time is up.
    method RequireEditableSession(token: Token, now: Time) returns (r: Result<()>)
      modifies db
      ensures db.View() == Touched(old(db.View()), token, now) && r == Editable(old(db.View()), token, now)
    {
      if token !in db.signups {
        return Err(NotFound);
      }
      var session := db.signups[token];
      if session.status != Completed && session.expiresAt < now {
        db.signups := db.signups[token := session.(status := Expired)];
        return Err(BadRequest);
      }
      if session.status == Expired || session.status == Completed {
        return Err(BadRequest);
      }
      r := Ok(());
    }

    method SetOwnerDetails(token: Token, now: Time) returns (r: Result<()>)
      modifies db
      ensures (db.View(), r) == SetOwner(old(db.View()), token, now)
    {
      r := RequireEditableSession(token, now);
      if r.Ok? {
        db.signups := db.signups[token := db.signups[token].(owner := true)];
      }
    }

    method SetCompanyDetails(token: Token, name: string, now: Time) returns (r: Result<()>)
      modifies db
      ensures (db.View(), r) == SetCompany(old(db.View()), token, name, now)
    {
      r := RequireEditableSession(token, now);
      if r.Ok? {
        db.signups := db.signups[token := db.signups[token].(company := Some(name))];
      }
    }

    method CreateCheckoutSession(token: Token, started: bool, tenant: TenantId, now: Time) returns (r: Result<()>)
      requires Wired()
      modifies db
      ensures (db.View(), r) == CreateCheckout(old(db.View()), token, started, tenant, now)
    {
      r := RequireEditableSession(token, now);
      if r.Err? {
        return;
      }
      var session := db.signups[token];
      if !session.owner {
        return Err(BadRequest);
      }
      if session.company == None {
        return Err(BadRequest);
      }
      var k := saasPlans.FindActivePriceForPlan(session.plan);
      if k == |db.prices| {
        return Err(BadRequest);
      }
      if db.prices[k].trialDays > 0 {
        r := provisioning.ProvisionTrialFromSignupSession(token, tenant);
        return;
      }
      if !started {
        return Err(BadRequest);
      }
      db.signups := db.signups[token := session.(status := AwaitingPayment)];
      r := Ok(());
    }
  }
}
