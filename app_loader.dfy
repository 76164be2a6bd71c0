/** The embedded app's root `loader`: who may open the app. The development
    store gets free access; every other shop goes through the billing check and
    is redirected to the plan selection page when it has no active payment.
    When authentication or the billing check throws, the loader retries once on
    a simpler path that never computes the remaining trial days.

    Authentication and the billing check are inputs: `None` stands for a call
    that threw, `Some` for what it returned. */
module AppLoader {
  import opened Wrappers
  import opened JsText

  const AppHandle := "ecom-kit-2"
  const DevelopmentStore := "ecomkit-demo.myshopify.com"
  const ShopifyDomainSuffix := ".myshopify.com"
  const MillisecondsPerDay := 1000 * 60 * 60 * 24

  /** One entry of `appSubscriptions`; `createdAtMs` is `None` when the date
      does not parse (the arithmetic then yields NaN). */
  datatype Subscription = Subscription(status: string, test: bool, trialDays: nat, createdAtMs: Option<int>)

  /** What `billing.check()` returns. */
  datatype BillingCheck = BillingCheck(hasActivePayment: bool, appSubscriptions: seq<Subscription>)

  /** The `subscription` object of the loader's JSON; `None` is `null` (or a
      field that is absent). */
  datatype SubscriptionView = SubscriptionView(
    hasAccess: bool,
    isTrialActive: bool,
    isDevelopmentStore: Option<bool>,
    subscriptionStatus: string,
    trialDaysRemaining: Option<int>,
    details: Option<Subscription>)

  datatype LoaderResult = Redirect(url: string) | Grant(view: SubscriptionView) | Threw

  const DevelopmentView := SubscriptionView(true, false, Some(true), "DEVELOPMENT", None, None)

  /** `shopDomain.replace('.myshopify.com', '')`. */
  function StoreHandle(shop: string): string {
    ReplaceFirst(shop, ShopifyDomainSuffix, "")
  }

  function PricingUrl(storeHandle: string): string {
    "https://admin.shopify.com/store/" + storeHandle + "/charges/" + AppHandle + "/pricing_plans"
  }

  /** A shop domain made of a handle without dots and the platform suffix
      yields that handle. */
  lemma StoreHandleOfDomain(handle: string)
    requires '.' !in handle
    ensures StoreHandle(handle + ShopifyDomainSuffix) == handle
  {
    ReplaceFirstOfSuffix(handle, ShopifyDomainSuffix);
  }

  /** `appSubscriptions[0]`. */
  function FirstSubscription(check: BillingCheck): Option<Subscription> {
    if |check.appSubscriptions| == 0 then None else Some(check.appSubscriptions[0])
  }

  /** `subscription?.test || false`. */
  function TrialActive(subscription: Option<Subscription>): (r: bool)
    ensures r <==> subscription.Some? && subscription.value.test
  {
    subscription.Some? && subscription.value.test
  }

  /** `subscription?.status || 'UNKNOWN'`: an absent or empty status reads 'UNKNOWN'. */
  function Status(subscription: Option<Subscription>): (r: string)
    ensures subscription.Some? && subscription.value.status != "" ==> r == subscription.value.status
    ensures subscription.None? || subscription.value.status == "" ==> r == "UNKNOWN"
  {
    if subscription.Some? && subscription.value.status != "" then subscription.value.status else "UNKNOWN"
  }

  /** The instant `days` whole days after `createdAt`. */
  function DayStart(createdAt: int, days: int): int {
    createdAt + days * MillisecondsPerDay
  }

  /** The remaining trial days: computed only for an active trial with a
      non-zero length, as `max(0, trialDays - floor((now - createdAt) / day))`;
      NaN, for a creation date that does not parse, is serialised as `null`. */
  function TrialDaysRemaining(subscription: Option<Subscription>, nowMs: int): (r: Option<int>)
    ensures r.Some? ==> TrialActive(subscription) && subscription.value.trialDays != 0
    ensures r.Some? ==> subscription.value.createdAtMs.Some? && 0 <= r.value
    ensures r.Some? && subscription.value.createdAtMs.value <= nowMs ==> r.value <= subscription.value.trialDays
    ensures r.Some? ==> forall d :: DayStart(subscription.value.createdAtMs.value, d) <= nowMs <
                                      DayStart(subscription.value.createdAtMs.value, d + 1) ==>
                          r.value == if subscription.value.trialDays - d < 0 then 0 else subscription.value.trialDays - d
    ensures TrialActive(subscription) && subscription.value.trialDays != 0 && subscription.value.createdAtMs.Some? ==> r.Some?
  {
    if TrialActive(subscription) && subscription.value.trialDays != 0 then
      match subscription.value.createdAtMs
      case None => None
      case Some(createdAt) =>
        var daysPassed := (nowMs - createdAt) / MillisecondsPerDay;
        var left := subscription.value.trialDays - daysPassed;
        Some(if left < 0 then 0 else left)
    else None
  }

  /** The `try` block's answer once the billing check has returned. */
  function Checked(shop: string, check: BillingCheck, nowMs: int): (r: LoaderResult)
    ensures !check.hasActivePayment ==> r == Redirect(PricingUrl(StoreHandle(shop)))
    ensures check.hasActivePayment ==> r.Grant? && r.view.hasAccess && r.view.isDevelopmentStore.None?
  {
    if !check.hasActivePayment then Redirect(PricingUrl(StoreHandle(shop)))
    else
      var subscription := FirstSubscription(check);
      Grant(SubscriptionView(true, TrialActive(subscription), None, Status(subscription),
                             TrialDaysRemaining(subscription, nowMs), subscription))
  }

  /** The `catch` block: authenticate again and check billing again; either
      call throwing makes the loader throw. */
  function Fallback(session: Option<string>, check: Option<BillingCheck>): (r: LoaderResult)
    ensures r.Grant? ==> r.view.trialDaysRemaining.None?
    ensures session.None? || check.None? ==> r == Threw
  {
    if session.None? || check.None? then Threw
    else if !check.value.hasActivePayment then Redirect(PricingUrl(StoreHandle(session.value)))
    else
      var subscription := FirstSubscription(check.value);
      Grant(SubscriptionView(true, TrialActive(subscription), None, Status(subscription), None, subscription))
  }

  /** Whether the loader ends up in the `catch` block: the first
      authentication threw, or the billing check of a shop other than the
      development store threw. */
  predicate FallsBack(session: Option<string>, check: Option<BillingCheck>) {
    session.None? || (session.value != DevelopmentStore && check.None?)
  }

  /** The loader. `session` and `check` are the first authentication and billing
      check, `fallbackSession` and `fallbackCheck` the retried ones. The
      development store is let in for free whatever billing says; otherwise
      access is granted only on a billing check reporting an active payment,
      and a check without one redirects to the pricing page of the shop that
      was checked. The retried path never reports remaining trial days. */
  function Loader(session: Option<string>, check: Option<BillingCheck>,
                  fallbackSession: Option<string>, fallbackCheck: Option<BillingCheck>, nowMs: int): (r: LoaderResult)
    ensures session == Some(DevelopmentStore) ==>
              && r.Grant? && r.view.hasAccess && r.view.isDevelopmentStore == Some(true)
              && r.view.subscriptionStatus == "DEVELOPMENT" && !r.view.isTrialActive
              && r.view.trialDaysRemaining.None? && r.view.details.None?
    ensures r.Grant? ==> session == Some(DevelopmentStore)
                         || (!FallsBack(session, check) && check.value.hasActivePayment)
                         || (FallsBack(session, check) && fallbackCheck.Some? && fallbackCheck.value.hasActivePayment)
    ensures !FallsBack(session, check) && session.value != DevelopmentStore && !check.value.hasActivePayment ==>
              r == Redirect(PricingUrl(StoreHandle(session.value)))
    ensures FallsBack(session, check) && fallbackSession.Some? && fallbackCheck.Some? && !fallbackCheck.value.hasActivePayment ==>
              r == Redirect(PricingUrl(StoreHandle(fallbackSession.value)))
    ensures FallsBack(session, check) && (fallbackSession.None? || fallbackCheck.None?) ==> r == Threw
    ensures FallsBack(session, check) && r.Grant? ==> r.view.trialDaysRemaining.None?
    ensures r.Grant? ==> r.view.hasAccess
  {
    match session
    case None => Fallback(fallbackSession, fallbackCheck)
    case Some(shop) =>
      if shop == DevelopmentStore then Grant(DevelopmentView)
      else
        match check
        case None => Fallback(fallbackSession, fallbackCheck)
        case Some(c) => Checked(shop, c, nowMs)
  }

  /** With an active payment the view grants access, reports the first
      subscription's status (or 'UNKNOWN') and test flag (or false), and the
      trial days never go below 0 nor above the trial length. */
  lemma ActiveSubscriptionView(shop: string, check: BillingCheck, nowMs: int)
    requires shop != DevelopmentStore && check.hasActivePayment
    ensures var r := Loader(Some(shop), Some(check), None, None, nowMs);
            var first := FirstSubscription(check);
            && r.Grant? && r.view.hasAccess
            && r.view.subscriptionStatus == (if first.Some? && first.value.status != "" then first.value.status else "UNKNOWN")
            && r.view.isTrialActive == (first.Some? && first.value.test)
            && r.view.details == first
            && (r.view.trialDaysRemaining.Some? ==> 0 <= r.view.trialDaysRemaining.value)
  {
  }

  /** A redirect for a shop on the platform domain names its handle. */
  lemma RedirectUrlOfDomain(handle: string, check: BillingCheck, nowMs: int)
    requires '.' !in handle && handle != "ecomkit-demo" && !check.hasActivePayment
    ensures Loader(Some(handle + ShopifyDomainSuffix), Some(check), None, None, nowMs) ==
              Redirect("https://admin.shopify.com/store/" + handle + "/charges/ecom-kit-2/pricing_plans")
  {
    var shop := handle + ShopifyDomainSuffix;
    assert shop != DevelopmentStore by {
      assert "ecomkit-demo" + ShopifyDomainSuffix == DevelopmentStore;
      AppendCancel(handle, "ecomkit-demo", ShopifyDomainSuffix);
    }
    assert StoreHandle(shop) == handle by {
      StoreHandleOfDomain(handle);
    }
    assert Loader(Some(shop), Some(check), None, None, nowMs) == Redirect(PricingUrl(handle));
    PricingUrlText(handle);
  }

  lemma PricingUrlText(handle: string)
    ensures PricingUrl(handle) == "https://admin.shopify.com/store/" + handle + "/charges/ecom-kit-2/pricing_plans"
  {
    assert "/charges/" + AppHandle + "/pricing_plans" == "/charges/ecom-kit-2/pricing_plans";
  }

  lemma AppendCancel(a: string, b: string, suffix: string)
    ensures a + suffix == b + suffix ==> a == b
  {
    if a + suffix == b + suffix {
      assert a == (a + suffix)[..|a|];
      assert b == (b + suffix)[..|b|];
    }
  }
}
