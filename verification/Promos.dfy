/**
 What a price row charges over its whole life, and what its redemption count counts.
 */
module Promos {
  import opened Basics
  import opened Slugs
  import opened Provisioning
  import opened Charging

  // --- What a row charges ---------------------------------------------------------------------

  // Visit n made row k with these terms, the newest then.
  ghost predicate MadeBy(plans: set<PlanId>, visits: seq<Visit>, n: nat, k: PriceId, row: Price)
    requires n < |visits|
  {
    && visits[n].act.CreatePriceAct?
    && visits[n].act.plan == row.plan && row.plan in plans
    && |RunSites(plans, visits[..n]).prices| == k
    && SameTerms(visits[n].act.price.(plan := row.plan), row)
  }

  // Over every run: a row keeps the terms it was created with.
  lemma {:induction false} TermsAreAsCreated(plans: set<PlanId>, visits: seq<Visit>, k: PriceId)
    requires k < |RunSites(plans, visits).prices|
    ensures exists n: nat :: n < |visits| && MadeBy(plans, visits, n, k, RunSites(plans, visits).prices[k])
  {
    var last := |visits| - 1;
    var before := visits[..last];
    var s := RunSites(plans, before);
    SamePlans(plans, before);
    hide HandleCheckout, CreateCheckout, SetOwner, SetCompany, Touched;
    if k < |s.prices| {
      TermsAreAsCreated(plans, before, k);
      var n: nat :| n < |before| && MadeBy(plans, before, n, k, s.prices[k]);
      OneVisit(s, visits[last], k);
      assert before[..n] == visits[..n];
      assert MadeBy(plans, visits, n, k, RunSites(plans, visits).prices[k]);
    } else {
      OnlyCreationAdds(s, visits[last]);
      assert MadeBy(plans, visits, last, k, RunSites(plans, visits).prices[k]);
    }
  }

  lemma OnlyCreationAdds(s: Sites, v: Visit)
    ensures |Did(s, v).prices| == |s.prices| + if v.act.CreatePriceAct? && v.act.plan in s.plans then 1 else 0
  {
    hide HandleCheckout, CreateCheckout, SetOwner, SetCompany, Touched;
    match v.act {
      case CreatePriceAct(_, _) =>
      case DeactivatePriceAct(_, _) =>
      case StartAct(_, _) =>
      case SetOwnerAct(token) => EditPrices(s, token, "", v.now);
      case SetCompanyAct(token, name) => EditPrices(s, token, name, v.now);
      case GetStatusAct(token) => EditPrices(s, token, "", v.now);
      case CreateCheckoutAct(token, started, tenant) => CheckoutPrices(s, token, started, tenant, v.now);
      case HandleCheckoutAct(purpose, sub, tenant) => HandledCount(s, purpose, sub, tenant, v.now);
    }
  }

  lemma HandledCount(s: Sites, purpose: Purpose, sub: Option<SubscriptionId>, tenant: TenantId, now: Time)
    ensures |Kept(s, HandleCheckout(s, purpose, sub, tenant, now)).prices| == |s.prices|
  {
    hide UniqueSlug, SlugsOf, Attached, AlreadyProvisioned;
  }

  // The promo is switched on, has a monthly amount, and is redeemable.
  predicate InForce(terms: Price, row: Price, now: Time) {
    terms.promoOn && terms.promoMonthly.Some? && Redeemable(terms.(promoRedemptionCount := row.promoRedemptionCount), now)
  }

  // The amounts the terms of a row ask, in and out of its promo.
  predicate Asks(terms: Price, promo: bool, e: Effective) {
    && e.isPromoActive == promo
    && (promo ==> Some(e.monthly) == terms.promoMonthly)
    && (promo && terms.promoSetupFee.Some? ==> Some(e.setupFee) == terms.promoSetupFee)
    && (!promo ==> e.monthly == terms.monthly)
    && (!promo || terms.promoSetupFee.None? ==> e.setupFee == terms.setupFee)
  }

  ghost predicate ChargesAsCreated(plans: set<PlanId>, visits: seq<Visit>, n: nat, k: PriceId, row: Price, now: Time)
    requires n < |visits|
  {
    && MadeBy(plans, visits, n, k, row)
    && Asks(visits[n].act.price, InForce(visits[n].act.price, row, now), EffectivePrice(row, now))
  }

  // Over every run: a row charges the promo amounts it was created with exactly while that promo is in
  // force, and otherwise its regular ones; a promo without a setup fee keeps the regular fee.
  lemma {:induction false} RowsChargeAsCreated(plans: set<PlanId>, visits: seq<Visit>, k: PriceId, now: Time)
    requires k < |RunSites(plans, visits).prices|
    ensures exists n: nat :: n < |visits| && ChargesAsCreated(plans, visits, n, k, RunSites(plans, visits).prices[k], now)
  {
    hide RunSites;
    TermsAreAsCreated(plans, visits, k);
    var row := RunSites(plans, visits).prices[k];
    var n: nat :| n < |visits| && MadeBy(plans, visits, n, k, row);
    assert ChargesAsCreated(plans, visits, n, k, row, now);
  }

  // --- What the count counts --------------------------------------------------------------------

  // The tenant starts to pay with this visit, on row k.
  ghost predicate StartsToPay(s: Sites, t: Sites, tenant: TenantId, k: PriceId) {
    && tenant in t.subscriptions
    && t.subscriptions[tenant].stripe.Some? && t.subscriptions[tenant].price == Some(k)
    && (tenant in s.subscriptions ==> s.subscriptions[tenant].stripe.None?)
  }

  // Some tenant starts to pay on row k while its promo is in force.
  ghost predicate Redeems(s: Sites, v: Visit, k: PriceId) {
    && k < |s.prices|
    && InForce(s.prices[k], s.prices[k], v.now)
    && (exists tenant :: StartsToPay(s, Did(s, v), tenant, k))
  }

  ghost function Redemptions(plans: set<PlanId>, visits: seq<Visit>, k: PriceId): nat {
    if visits == [] then 0
    else
      var before := visits[..|visits| - 1];
      Redemptions(plans, before, k) + if Redeems(RunSites(plans, before), visits[|visits| - 1], k) then 1 else 0
  }

  // Visit v counts one redemption of row k exactly when it is one.
  ghost predicate Counts(s: Sites, v: Visit, k: PriceId)
    requires k < |s.prices|
  {
    var t := Did(s, v);
    && k < |t.prices|
    && t.prices[k].promoRedemptionCount == s.prices[k].promoRedemptionCount + if Redeems(s, v, k) then 1 else 0
  }

  lemma ActivationCounts(s: Sites, v: Visit, k: PriceId)
    requires k < |s.prices| && v.act.HandleCheckoutAct? && v.act.purpose.ActivationPurpose?
    ensures Counts(s, v, k)
  {
    hide Attached;
    var t := Did(s, v);
    if t != s {
      var plan := s.subscriptions[v.act.purpose.tenant].plan;
      if FirstActive(s.prices, plan) == k {
        assert StartsToPay(s, t, v.act.purpose.tenant, k);
      }
    }
  }

  lemma SignupCounts(s: Sites, v: Visit, k: PriceId)
    requires s.subscriptions.Keys == s.tenants.Keys
    requires k < |s.prices| && v.act.HandleCheckoutAct? && v.act.purpose.SignupPurpose?
    ensures Counts(s, v, k)
  {
    hide Attached, AlreadyProvisioned, UniqueSlug, SlugsOf;
    var t := Did(s, v);
    if t != s {
      var plan := s.signups[v.act.purpose.token].plan;
      if FirstActive(s.prices, plan) == k {
        assert StartsToPay(s, t, v.act.tenant, k);
      }
    }
  }

  lemma TrialPaysNothing(s: Sites, v: Visit, k: PriceId)
    requires k < |s.prices| && v.act.CreateCheckoutAct?
    ensures Counts(s, v, k)
  {
    CheckoutPrices(s, v.act.token, v.act.started, v.act.tenant, v.now);
    hide UniqueSlug, SlugsOf, AlreadyProvisioned, LatestActive;
  }

  lemma OtherVisitsCountNothing(s: Sites, v: Visit, k: PriceId)
    requires k < |s.prices| && !v.act.HandleCheckoutAct? && !v.act.CreateCheckoutAct?
    ensures Counts(s, v, k)
  {
  }

  lemma VisitCounts(s: Sites, v: Visit, k: PriceId)
    requires k < |s.prices| && s.subscriptions.Keys == s.tenants.Keys
    ensures Counts(s, v, k)
  {
    hide Did, Counts;
    match v.act {
      case HandleCheckoutAct(ActivationPurpose(_), _, _) => ActivationCounts(s, v, k);
      case HandleCheckoutAct(SignupPurpose(_), _, _) => SignupCounts(s, v, k);
      case CreateCheckoutAct(_, _, _) => TrialPaysNothing(s, v, k);
      case _ => OtherVisitsCountNothing(s, v, k);
    }
  }

  lemma NewRowCountsNothing(s: Sites, v: Visit)
    ensures forall k :: |s.prices| <= k < |Did(s, v).prices| ==> Did(s, v).prices[k].promoRedemptionCount == 0
  {
    OnlyCreationAdds(s, v);
    hide HandleCheckout, CreateCheckout, SetOwner, SetCompany, Touched;
  }

  lemma NoRowToRedeem(s: Sites, v: Visit, k: PriceId)
    requires k >= |s.prices|
    ensures !Redeems(s, v, k)
  {
  }

  lemma {:induction false} NoRowNoRedemption(plans: set<PlanId>, visits: seq<Visit>, k: PriceId)
    requires k >= |RunSites(plans, visits).prices|
    ensures Redemptions(plans, visits, k) == 0
  {
    if visits != [] {
      var before := visits[..|visits| - 1];
      hide Did;
      OnlyCreationAdds(RunSites(plans, before), visits[|visits| - 1]);
      NoRowNoRedemption(plans, before, k);
    }
  }

  // Over every run: the redemption count of a row is the number of tenants, from signups and trials alike,
  // that started to pay on it while its promo was in force.
  lemma {:induction false} RedemptionsAreCounted(plans: set<PlanId>, visits: seq<Visit>, k: PriceId)
    requires k < |RunSites(plans, visits).prices|
    ensures RunSites(plans, visits).prices[k].promoRedemptionCount == Redemptions(plans, visits, k)
  {
    var last := |visits| - 1;
    var before := visits[..last];
    var s := RunSites(plans, before);
    hide Did, Redeems;
    if k < |s.prices| {
      RedemptionsAreCounted(plans, before, k);
      RunsAreConsistent(plans, before);
      VisitCounts(s, visits[last], k);
    } else {
      NoRowNoRedemption(plans, before, k);
      NewRowCountsNothing(s, visits[last]);
      NoRowToRedeem(s, visits[last], k);
    }
  }
}
