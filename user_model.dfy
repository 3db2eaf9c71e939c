/** `User.is_premium`: a paid tier whose expiry is still ahead. */
module UserModel {
  import opened Wrappers
  import opened DateTimes
  import opened Store

  /** `User.PAID_TIERS`. */
  const PaidTiers: seq<string> := ["basic", "premium", "pro"]

  /** `is_premium` at the instant `now`. */
  predicate IsPremium(u: User, now: Instant) {
    if u.subscriptionTier == "free" then false
    else if u.subscriptionTier in PaidTiers then
      if u.subscriptionExpiresAt.None? then false else now < u.subscriptionExpiresAt.value
    else false
  }

  /** Premium exactly when the tier is paid, an expiry is set, and it is still ahead;
      the free tier and any unlisted tier are never premium. */
  lemma IsPremiumSpec(u: User, now: Instant)
    ensures IsPremium(u, now) <==>
      (u.subscriptionTier == "basic" || u.subscriptionTier == "premium" || u.subscriptionTier == "pro")
      && u.subscriptionExpiresAt.Some? && now < u.subscriptionExpiresAt.value
    ensures u.subscriptionTier == "free" ==> !IsPremium(u, now)
    ensures u.subscriptionExpiresAt.None? ==> !IsPremium(u, now)
  {
    assert u.subscriptionTier in PaidTiers <==>
      u.subscriptionTier == "basic" || u.subscriptionTier == "premium" || u.subscriptionTier == "pro";
  }

  /** The tiers the in-app purchase endpoints store are not paid tiers, so a user on
      one of them is never premium, whatever the expiry. */
  lemma StoreTiersNotPremium(u: User, now: Instant)
    requires u.subscriptionTier in ["premium_monthly", "premium_yearly", "premium_lifetime"]
    ensures !IsPremium(u, now)
  {
    assert u.subscriptionTier !in PaidTiers by {
      assert u.subscriptionTier[..8] == "premium_";
    }
  }

  /** A premium user stays premium at any earlier instant, and stops being premium
      once the expiry is reached. */
  lemma PremiumExpires(u: User, now: Instant, later: Instant)
    requires IsPremium(u, later) && now <= later
    ensures IsPremium(u, now)
    ensures !IsPremium(u, u.subscriptionExpiresAt.value)
  {
  }
}
