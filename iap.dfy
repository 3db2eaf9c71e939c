/** In-app purchases: verifying one purchase, restoring from a list of purchase
    tokens, and the subscription status. What the stores answer is an input: the
    verification calls are not modelled. */
module IapApi {
  import opened Wrappers
  import opened DateTimes
  import opened Uuid
  import opened Store
  import opened UserModel

  /** One day as a span of `Instant`s (microseconds). */
  const Day: int := SecondsPerDay * 1000000

  /** `PRODUCT_DURATIONS.get(product_id)` where it is truthy: lifetime purchases and
      unknown products both give no duration. */
  function Duration(productId: string): (r: Option<int>)
    ensures r.Some? <==> productId == "premium_monthly" || productId == "premium_yearly"
    ensures productId == "premium_monthly" ==> r == Some(30 * Day)
    ensures productId == "premium_yearly" ==> r == Some(365 * Day)
  {
    if productId == "premium_monthly" then Some(30 * Day)
    else if productId == "premium_yearly" then Some(365 * Day)
    else None
  }

  /** The expiry a purchase of `productId` at `now` gives: none for lifetime and for
      unknown products. */
  function ExpiryFor(productId: string, now: Instant): Option<Instant> {
    match Duration(productId)
    case Some(d) => Some(now + d)
    case None => None
  }

  /** What a store verification call came back with: a result with `valid` set and
      possibly a product id, a result without it, or an exception. */
  datatype StoreOutcome = Valid(productId: Option<string>) | Invalid | Raised(message: string)

  datatype Platform = Android | Ios

  function PlatformValue(p: Platform): string {
    match p
    case Android => "android"
    case Ios => "ios"
  }

  // ---------------------------------------------------------------------------
  // `verify_purchase`.

  datatype PurchaseVerifyRequest = PurchaseVerifyRequest(productId: string, purchaseToken: string, platform: Platform,
                                                         orderId: Option<string>)

  datatype PurchaseVerifyResponse = PurchaseVerifyResponse(valid: bool, productId: Option<string>,
                                                           subscriptionTier: Option<string>, expiresAt: Option<Instant>,
                                                           message: string)

  /** The `iap_*` attributes a valid verification assigns. The `User` model declares
      no such columns, so they live on the loaded object only. */
  datatype IapRecord = IapRecord(productId: string, purchaseToken: string, orderId: Option<string>, platform: string,
                                 purchasedAt: Instant)

  datatype Verified = Verified(user: User, record: Option<IapRecord>, response: PurchaseVerifyResponse)

  function Verify(u: User, req: PurchaseVerifyRequest, outcome: StoreOutcome, now: Instant): Verified {
    match outcome
    case Raised(m) =>
      Verified(u, None, PurchaseVerifyResponse(false, None, None, None, "Error verifying purchase: " + m))
    case Invalid =>
      Verified(u, None, PurchaseVerifyResponse(false, None, None, None, "Purchase verification failed"))
    case Valid(_) =>
      var expires := ExpiryFor(req.productId, now);
      Verified(u.(subscriptionTier := req.productId, subscriptionExpiresAt := expires),
               Some(IapRecord(req.productId, req.purchaseToken, req.orderId, PlatformValue(req.platform), now)),
               PurchaseVerifyResponse(true, Some(req.productId), Some(req.productId), expires,
                                      "Subscription activated successfully"))
  }

  /** A valid verification stores the requested product id as the tier, with the
      product's expiry, and records the purchase; anything else leaves the user as it
      was and answers `valid = false`. Only the tier and the expiry change. */
  lemma VerifySpec(u: User, req: PurchaseVerifyRequest, outcome: StoreOutcome, now: Instant)
    ensures var v := Verify(u, req, outcome, now);
      (v.response.valid <==> outcome.Valid?)
      && (!outcome.Valid? ==> v.user == u && v.record.None?)
      && (outcome.Valid? ==>
            v.user == u.(subscriptionTier := req.productId, subscriptionExpiresAt := v.user.subscriptionExpiresAt)
            && (req.productId == "premium_monthly" ==> v.user.subscriptionExpiresAt == Some(now + 30 * Day))
            && (req.productId == "premium_yearly" ==> v.user.subscriptionExpiresAt == Some(now + 365 * Day))
            && (req.productId != "premium_monthly" && req.productId != "premium_yearly" ==> v.user.subscriptionExpiresAt.None?)
            && v.record == Some(IapRecord(req.productId, req.purchaseToken, req.orderId, PlatformValue(req.platform), now)))
  {
  }

  /** A verified store product never makes the user premium: its id becomes the tier,
      and no product id is a paid tier. */
  lemma VerifiedProductNotPremium(u: User, req: PurchaseVerifyRequest, now: Instant, later: Instant)
    requires req.productId in ["premium_monthly", "premium_yearly", "premium_lifetime"]
    ensures !IsPremium(Verify(u, req, Valid(Some(req.productId)), now).user, later)
  {
    StoreTiersNotPremium(Verify(u, req, Valid(Some(req.productId)), now).user, later);
  }

  method VerifyPurchase(db: Db, userId: Id, req: PurchaseVerifyRequest, outcome: StoreOutcome, now: Instant)
    returns (record: Option<IapRecord>, response: PurchaseVerifyResponse)
    requires userId in db.users
    modifies db`users
    ensures var v := Verify(old(db.users[userId]), req, outcome, now);
      db.users == old(db.users)[userId := v.user] && record == v.record && response == v.response
  {
    var u := db.users[userId];
    match outcome {
      case Raised(m) =>
        return None, PurchaseVerifyResponse(false, None, None, None, "Error verifying purchase: " + m);
      case Invalid =>
        return None, PurchaseVerifyResponse(false, None, None, None, "Purchase verification failed");
      case Valid(_) =>
    }
    var productId := req.productId;
    var duration := Duration(productId);
    var tier := productId;
    var expiresAt: Option<Instant> := None;
    if duration.Some? {
      expiresAt := Some(now + duration.value);
    }
    u := u.(subscriptionTier := tier, subscriptionExpiresAt := expiresAt);
    db.users := db.users[userId := u];
    record := Some(IapRecord(productId, req.purchaseToken, req.orderId, PlatformValue(req.platform), now));
    response := PurchaseVerifyResponse(true, Some(productId), Some(tier), expiresAt, "Subscription activated successfully");
  }

  // ---------------------------------------------------------------------------
  // `restore_purchases`.

  datatype Restore = Restore(restoredCount: nat, activeSubscription: Option<string>, expiresAt: Option<Instant>)

  /** One token of the restore loop: a valid result counts, and a non-empty product id
      becomes the active subscription if there is none yet or it is the lifetime one. */
  function RestoreStep(s: Restore, o: StoreOutcome, now: Instant): Restore {
    match o
    case Valid(pid) =>
      if pid.Some? && pid.value != "" && (s.activeSubscription.None? || pid.value == "premium_lifetime") then
        Restore(s.restoredCount + 1, pid, ExpiryFor(pid.value, now))
      else
        s.(restoredCount := s.restoredCount + 1)
    case _ => s
  }

  function RestoreAll(os: seq<StoreOutcome>, now: Instant): Restore
    decreases |os|
  {
    if os == [] then Restore(0, None, None)
    else RestoreStep(RestoreAll(os[..|os| - 1], now), os[|os| - 1], now)
  }

  /** How many tokens the store accepted. */
  function ValidCount(os: seq<StoreOutcome>): nat
    decreases |os|
  {
    if os == [] then 0 else ValidCount(os[..|os| - 1]) + (if os[|os| - 1].Valid? then 1 else 0)
  }

  /** The non-empty product ids of the accepted tokens, in token order. */
  function Products(os: seq<StoreOutcome>): seq<string>
    decreases |os|
  {
    if os == [] then []
    else
      var o := os[|os| - 1];
      Products(os[..|os| - 1]) + (if o.Valid? && o.productId.Some? && o.productId.value != "" then [o.productId.value] else [])
  }

  /** The subscription restore picks: lifetime if any accepted token is for it, and
      otherwise the first accepted product. */
  function Chosen(products: seq<string>): Option<string> {
    if "premium_lifetime" in products then Some("premium_lifetime")
    else if products != [] then Some(products[0])
    else None
  }

  /** The restore loop counts the accepted tokens, picks the lifetime product over any
      other and otherwise keeps the first, and reports the expiry of what it picked. */
  lemma {:induction false} RestoreAllSpec(os: seq<StoreOutcome>, now: Instant)
    ensures var r := RestoreAll(os, now);
      r.restoredCount == ValidCount(os)
      && r.activeSubscription == Chosen(Products(os))
      && r.expiresAt == (if r.activeSubscription.Some? then ExpiryFor(r.activeSubscription.value, now) else None)
    decreases |os|
  {
    if os != [] {
      var init := os[..|os| - 1];
      var o := os[|os| - 1];
      RestoreAllSpec(init, now);
      var p := Products(init);
      assert Products(os) == p + (if o.Valid? && o.productId.Some? && o.productId.value != "" then [o.productId.value] else []);
      if o.Valid? && o.productId.Some? && o.productId.value != "" {
        var q := p + [o.productId.value];
        assert "premium_lifetime" in q <==> "premium_lifetime" in p || o.productId.value == "premium_lifetime";
        if p != [] {
          assert q[0] == p[0];
        }
      }
    }
  }

  /** Once a lifetime purchase is among the tokens, no later token displaces it. */
  lemma LifetimeStays(os: seq<StoreOutcome>, more: seq<StoreOutcome>, now: Instant)
    requires RestoreAll(os, now).activeSubscription == Some("premium_lifetime")
    ensures RestoreAll(os + more, now).activeSubscription == Some("premium_lifetime")
    ensures RestoreAll(os + more, now).expiresAt.None?
  {
    RestoreAllSpec(os, now);
    RestoreAllSpec(os + more, now);
    ProductsAppend(os, more);
  }

  lemma {:induction false} ProductsAppend(os: seq<StoreOutcome>, more: seq<StoreOutcome>)
    ensures Products(os + more) == Products(os) + Products(more)
    decreases |more|
  {
    if more == [] {
      assert os + more == os;
    } else {
      var init := more[..|more| - 1];
      ProductsAppend(os, init);
      assert (os + more)[..|os + more| - 1] == os + init;
    }
  }

  /** `restore_purchases`: the loop over the tokens, then the user update when a
      subscription was found. */
  method RestorePurchases(db: Db, userId: Id, platform: Platform, outcomes: seq<StoreOutcome>, now: Instant)
    returns (r: Restore)
    requires userId in db.users
    modifies db`users
    ensures r == RestoreAll(outcomes, now)
    ensures r.activeSubscription.None? ==> db.users == old(db.users)
    ensures r.activeSubscription.Some? ==>
      db.users == old(db.users)[userId := old(db.users[userId]).(subscriptionTier := r.activeSubscription.value,
                                                                  subscriptionExpiresAt := r.expiresAt)]
  {
    var restoredCount := 0;
    var activeSubscription: Option<string> := None;
    var expiresAt: Option<Instant> := None;
    var i := 0;
    while i < |outcomes|
      invariant 0 <= i <= |outcomes|
      invariant Restore(restoredCount, activeSubscription, expiresAt) == RestoreAll(outcomes[..i], now)
    {
      assert outcomes[..i + 1][..i] == outcomes[..i];
      var o := outcomes[i];
      if o.Valid? {
        restoredCount := restoredCount + 1;
        var productId := o.productId;
        if productId.Some? && productId.value != "" {
          var duration := Duration(productId.value);
          if activeSubscription.None? || productId.value == "premium_lifetime" {
            activeSubscription := productId;
            if duration.Some? {
              expiresAt := Some(now + duration.value);
            } else {
              expiresAt := None;
            }
          }
        }
      }
      i := i + 1;
    }
    assert outcomes[..i] == outcomes;
    r := Restore(restoredCount, activeSubscription, expiresAt);
    if activeSubscription.Some? {
      db.users := db.users[userId := db.users[userId].(subscriptionTier := activeSubscription.value,
                                                       subscriptionExpiresAt := expiresAt)];
    }
  }

  // ---------------------------------------------------------------------------
  // `get_subscription_status`.

  datatype SubscriptionStatus = SubscriptionStatus(isPremium: bool, subscriptionTier: string, expiresAt: Option<Instant>,
                                                   daysRemaining: Option<nat>)

  /** `max(0, (expires_at - now).days)`: whole days, rounded down, never negative. */
  function DaysRemaining(expiresAt: Instant, now: Instant): (r: nat)
    ensures now < expiresAt ==> r * Day <= expiresAt - now < (r + 1) * Day
    ensures expiresAt <= now ==> r == 0
  {
    var days := (expiresAt - now) / Day;
    if days < 0 then 0 else days
  }

  function Status(u: User, now: Instant): (s: SubscriptionStatus)
    ensures s.isPremium == IsPremium(u, now) && s.subscriptionTier == u.subscriptionTier
    ensures s.daysRemaining.Some? <==> u.subscriptionExpiresAt.Some?
  {
    SubscriptionStatus(IsPremium(u, now), u.subscriptionTier, u.subscriptionExpiresAt,
                       if u.subscriptionExpiresAt.Some? then Some(DaysRemaining(u.subscriptionExpiresAt.value, now)) else None)
  }

  /** Right after a monthly or yearly verification the status shows 30 or 365 days
      left, and the user is still not premium. */
  lemma StatusAfterVerify(u: User, req: PurchaseVerifyRequest, now: Instant)
    requires req.productId == "premium_monthly" || req.productId == "premium_yearly"
    ensures var s := Status(Verify(u, req, Valid(Some(req.productId)), now).user, now);
      s.daysRemaining == Some(if req.productId == "premium_monthly" then 30 else 365) && !s.isPremium
  {
    var v := Verify(u, req, Valid(Some(req.productId)), now).user;
    StoreTiersNotPremium(v, now);
  }
}
