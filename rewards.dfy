/** The three reward programs: the daily-goal credit reward, the first-day
    bonus and the yesterday-activity offer, and the record updates that
    grant them. */
module Rewards {
  import opened Records

  const FallbackReward := 3
  const DefaultGoalHours := 3
  const SecondsPerHour := 3600
  const MillisPerHour := 3600000
  /** Twenty-four hours in milliseconds: the first-day window. */
  const FirstDayWindowMillis := 24 * MillisPerHour
  const FirstDayThreshold := 3600
  const FirstDayBonusHours := 1
  const UltraThreshold := 7200
  const BasicThreshold := 3600
  const OfferHours := 8

  /** The configured daily reward, where an absent or zero setting falls back
      to 3 credits (`settings.dailyReward || 3`). */
  function RewardAmount(dailyReward: Option<int>): (r: int)
    ensures r != 0
    ensures dailyReward.Some? && dailyReward.value != 0 ==> r == dailyReward.value
    ensures dailyReward.None? || dailyReward == Some(0) ==> r == FallbackReward
  {
    match dailyReward
    case Some(n) => if n != 0 then n else FallbackReward
    case None => FallbackReward
  }

  /** `user.credits || 0`. */
  function CreditsOf(u: User): (r: int)
    ensures u.credits.None? ==> r == 0
    ensures u.credits.Some? ==> r == u.credits.value
  {
    if u.credits.Some? then u.credits.value else 0
  }

  /** The daily reward was already claimed on `today`; an absent claim date
      never matches. */
  predicate ClaimedOn(last: Option<Instant>, today: DayKey)
  {
    last.Some? && last.value.day == today
  }

  /** Eligibility for the daily-goal reward: an absent claim date counts as
      another day, a present one blocks the claim on its own day, and the
      day's seconds must reach the target. */
  function CanClaim(last: Option<Instant>, today: DayKey, seconds: int, targetSeconds: int): (r: bool)
    ensures last.None? ==> (r <==> seconds >= targetSeconds)
    ensures last.Some? ==> (r <==> last.value.day != today && seconds >= targetSeconds)
  {
    !ClaimedOn(last, today) && seconds >= targetSeconds
  }

  /** The day key of the last claim, the empty key when there is none. */
  function LastClaimKey(last: Option<Instant>): (k: DayKey)
    ensures last.Some? ==> k == last.value.day
    ensures last.None? ==> k == ""
  {
    if last.Some? then last.value.day else ""
  }

  /** Comparing the last claim's key (empty when absent) with today's, as the
      eligibility check does, agrees with `CanClaim` because no day key is
      empty. */
  lemma SourceFormAgrees(last: Option<Instant>, today: DayKey, seconds: int, targetSeconds: int)
    requires today != ""
    ensures CanClaim(last, today, seconds, targetSeconds)
      <==> LastClaimKey(last) != today && seconds >= targetSeconds
  {
  }

  /** The record after a daily-goal claim: credits raised by the reward, the
      claim date set to now, every other field as it was. Once granted, the
      reward is no longer claimable on the same day, whatever the seconds and
      the target. */
  function CreditReward(u: User, amount: int, now: Instant): (r: User)
    ensures r.credits == Some(CreditsOf(u) + amount)
    ensures r.lastRewardClaimDate == Some(now)
    ensures r.(credits := u.credits, lastRewardClaimDate := u.lastRewardClaimDate) == u
    ensures forall seconds, target :: !CanClaim(r.lastRewardClaimDate, now.day, seconds, target)
  {
    u.(credits := Some(CreditsOf(u) + amount), lastRewardClaimDate := Some(now))
  }

  /** Absent and FREE tiers count as free. */
  predicate IsFreeTier(t: Option<Tier>)
    ensures IsFreeTier(t) <==> t != Some(Weekly) && t != Some(Monthly)
  {
    match t
    case None => true
    case Some(Free) => true
    case Some(Weekly) => false
    case Some(Monthly) => false
  }

  /** A pending offer: the tier to grant and for how many hours. */
  datatype Offer = Offer(tier: Tier, hours: nat)

  /** The yesterday-activity offer: none once yesterday's marker is set or on a
      paid tier; otherwise the first matching threshold picks the tier. */
  function YesterdayOffer(claimed: bool, tier: Option<Tier>, yesterdaySeconds: int): (r: Option<Offer>)
    ensures r.Some? <==> !claimed && IsFreeTier(tier) && yesterdaySeconds >= BasicThreshold
    ensures r == Some(Offer(Monthly, OfferHours)) <==>
      !claimed && IsFreeTier(tier) && yesterdaySeconds >= UltraThreshold
    ensures r == Some(Offer(Weekly, OfferHours)) <==>
      !claimed && IsFreeTier(tier) && BasicThreshold <= yesterdaySeconds < UltraThreshold
  {
    if !claimed && IsFreeTier(tier) then
      if yesterdaySeconds >= UltraThreshold then Some(Offer(Monthly, OfferHours))
      else if yesterdaySeconds >= BasicThreshold then Some(Offer(Weekly, OfferHours))
      else None
    else None
  }

  /** How much an offer is worth, for comparing offers. */
  function OfferRank(o: Option<Offer>): nat
  {
    match o
    case None => 0
    case Some(Offer(t, _)) => if t == Monthly then 2 else if t == Weekly then 1 else 0
  }

  /** More activity yesterday never yields a lesser offer. */
  lemma OfferMonotone(claimed: bool, tier: Option<Tier>, a: int, b: int)
    requires a <= b
    ensures OfferRank(YesterdayOffer(claimed, tier, a)) <= OfferRank(YesterdayOffer(claimed, tier, b))
  {
  }

  /** The first-day bonus guard. The account age is compared in whole
      milliseconds; an absent creation time never qualifies. */
  predicate FirstDayEligible(createdAt: Option<int>, nowMillis: int, seconds: int, markerSet: bool)
    ensures FirstDayEligible(createdAt, nowMillis, seconds, markerSet) <==>
      && createdAt.Some? && createdAt.value > nowMillis - 24 * MillisPerHour
      && seconds >= FirstDayThreshold && !markerSet
  {
    && createdAt.Some?
    && nowMillis - createdAt.value < FirstDayWindowMillis
    && seconds >= FirstDayThreshold
    && !markerSet
  }

  /** Once the one-time marker is set, no later tick qualifies, whatever the
      age and the seconds. */
  lemma FirstDayMarkerIsFinal(createdAt: Option<int>, nowMillis: int, seconds: int)
    ensures !FirstDayEligible(createdAt, nowMillis, seconds, true)
  {
  }

  /** The boundaries of the first-day guard: one hour of activity is enough,
      one second less is not, and an account exactly 24 hours old is too old. */
  lemma FirstDayBoundaries(created: int)
    ensures FirstDayEligible(Some(created), created, FirstDayThreshold, false)
    ensures !FirstDayEligible(Some(created), created, FirstDayThreshold - 1, false)
    ensures !FirstDayEligible(Some(created), created + FirstDayWindowMillis, FirstDayThreshold, false)
    ensures FirstDayEligible(Some(created), created + FirstDayWindowMillis - 1, FirstDayThreshold, false)
    ensures !FirstDayEligible(None, created, FirstDayThreshold, false)
  {
  }

  /** The offer boundaries: 7199 s is Basic, 7200 s is Ultra, 3599 s is nothing,
      and a paid tier never gets an offer. */
  lemma OfferBoundaries(tier: Tier, seconds: int)
    ensures YesterdayOffer(false, None, 7199) == Some(Offer(Weekly, 8))
    ensures YesterdayOffer(false, Some(Free), 7200) == Some(Offer(Monthly, 8))
    ensures YesterdayOffer(false, None, 3600) == Some(Offer(Weekly, 8))
    ensures YesterdayOffer(false, None, 3599) == None
    ensures tier != Free ==> YesterdayOffer(false, Some(tier), seconds) == None
  {
  }

  /** The record after a subscription grant: the tier, an end date `hours`
      from now and the premium flag are overwritten, every other field is
      copied. The end date does not depend on any earlier one. */
  function GrantSubscription(u: User, tier: Tier, nowMillis: int, hours: nat): (r: User)
    ensures r.subscriptionTier == Some(tier) && r.isPremium == Some(true)
    ensures r.subscriptionEndDate == Some(nowMillis + hours * MillisPerHour)
    ensures r.(subscriptionTier := u.subscriptionTier,
               subscriptionEndDate := u.subscriptionEndDate,
               isPremium := u.isPremium) == u
  {
    u.(subscriptionTier := Some(tier),
       subscriptionEndDate := Some(nowMillis + hours * MillisPerHour),
       isPremium := Some(true))
  }

  /** A second grant overwrites the first: last grant wins, nothing adds up. */
  lemma GrantOverwrites(u: User, t1: Tier, n1: int, h1: nat, t2: Tier, n2: int, h2: nat)
    ensures GrantSubscription(GrantSubscription(u, t1, n1, h1), t2, n2, h2)
         == GrantSubscription(u, t2, n2, h2)
  {
  }
}
