/** The dashboard's handlers: each event (mount, timer tick, remote push,
    button press) is one call on a session that holds the device's local
    cache, the stored user list, the current-user entry, the log of writes to
    the remote store, the records handed to the parent, and the dashboard's
    own state. The user record the dashboard was rendered with is passed to
    each call. */
module Dashboard {
  import opened Records
  import opened UserSet
  import opened Rewards
  import opened Merge
  import opened Profile
  import opened Inbox

  /** Local cache keys other than the user list and the current user. */
  datatype Key =
    | Activity(userId: string, day: DayKey)
    | RewardClaimed(userId: string, day: DayKey)
    | FirstDayUltra(userId: string)
    | Goal(userId: string)

  /** A cached value: a number, or the marker `true`. */
  datatype Entry = Count(n: int) | Flag

  /** A write sent to the remote store. */
  datatype RemoteWrite = SaveUser(user: User) | UpdateStatus(userId: string, seconds: int)

  /** The number cached under `k`, reading a missing entry as 0. */
  function StoredCount(cache: map<Key, Entry>, k: Key): (r: int)
    ensures k in cache && cache[k].Count? ==> r == cache[k].n
    ensures k !in cache || cache[k].Flag? ==> r == 0
  {
    if k in cache && cache[k].Count? then cache[k].n else 0
  }

  class Session {
    /** Activity, claim markers and goals. */
    var cache: map<Key, Entry>
    /** The `nst_users` list. */
    var storedUsers: seq<User>
    /** The `nst_current_user` entry. */
    var currentUser: Option<User>
    /** Writes sent to the remote store, oldest first. */
    var outbox: seq<RemoteWrite>
    /** Records handed to the parent through `onRedeemSuccess`, oldest first. */
    var published: seq<User>
    var canClaimReward: bool
    /** The pending yesterday-activity offer. */
    var rewardOffer: Option<Offer>
    var dailyTargetSeconds: int

    constructor (cache: map<Key, Entry>, storedUsers: seq<User>, currentUser: Option<User>)
      ensures this.cache == cache && this.storedUsers == storedUsers && this.currentUser == currentUser
      ensures outbox == [] && published == []
      ensures !canClaimReward && rewardOffer.None?
      ensures dailyTargetSeconds == DefaultGoalHours * SecondsPerHour
    {
      this.cache := cache;
      this.storedUsers := storedUsers;
      this.currentUser := currentUser;
      outbox := [];
      published := [];
      canClaimReward := false;
      rewardOffer := None;
      dailyTargetSeconds := DefaultGoalHours * SecondsPerHour;
    }

    /** On mount: a stored goal sets the target to that many hours. */
    method LoadGoal(userId: string)
      modifies this`dailyTargetSeconds
      ensures Goal(userId) in cache ==> dailyTargetSeconds == StoredCount(cache, Goal(userId)) * SecondsPerHour
      ensures Goal(userId) !in cache ==> dailyTargetSeconds == old(dailyTargetSeconds)
    {
      if Goal(userId) in cache {
        dailyTargetSeconds := StoredCount(cache, Goal(userId)) * SecondsPerHour;
      }
    }

    /** On mount: raise the yesterday-activity offer when there is one; an
        offer already pending is not withdrawn. */
    method CheckYesterday(user: User, yesterday: DayKey)
      modifies this`rewardOffer
      ensures var offer := YesterdayOffer(RewardClaimed(user.id, yesterday) in cache, user.subscriptionTier,
                                          StoredCount(cache, Activity(user.id, yesterday)));
              rewardOffer == if offer.Some? then offer else old(rewardOffer)
    {
      var claimed := RewardClaimed(user.id, yesterday) in cache;
      var activity := StoredCount(cache, Activity(user.id, yesterday));
      var offer := YesterdayOffer(claimed, user.subscriptionTier, activity);
      if offer.Some? {
        rewardOffer := offer;
      }
    }

    /** Accepting the pending offer: the subscription is granted from now,
        written to the stored list (when the id is there), to the current
        user (always) and to the remote store, and yesterday's marker is set. */
    method ClaimYesterdayReward(user: User, yesterday: DayKey, nowMillis: int)
      modifies this
      ensures old(rewardOffer).None? ==> unchanged(this)
      ensures old(rewardOffer).Some? ==>
        var updated := GrantSubscription(user, old(rewardOffer).value.tier, nowMillis, old(rewardOffer).value.hours);
        && storedUsers == ReplaceById(old(storedUsers), user.id, updated)
        && currentUser == Some(updated)
        && cache == old(cache)[RewardClaimed(user.id, yesterday) := Flag]
        && outbox == old(outbox) + [SaveUser(updated)]
        && published == old(published) + [updated]
        && rewardOffer.None?
        && canClaimReward == old(canClaimReward) && dailyTargetSeconds == old(dailyTargetSeconds)
    {
      if rewardOffer.None? {
        return;
      }
      var offer := rewardOffer.value;
      var updated := GrantSubscription(user, offer.tier, nowMillis, offer.hours);
      storedUsers := ReplaceById(storedUsers, user.id, updated);
      currentUser := Some(updated);
      cache := cache[RewardClaimed(user.id, yesterday) := Flag];
      outbox := outbox + [SaveUser(updated)];
      published := published + [updated];
      rewardOffer := None;
    }

    /** One timer tick: report the seconds remotely, record today's activity
        and, when eligible, grant the one-hour first-day bonus and set its
        permanent marker. */
    method Tick(user: User, seconds: int, today: DayKey, nowMillis: int) returns (granted: bool)
      modifies this
      ensures granted == FirstDayEligible(user.createdAt, nowMillis, seconds, FirstDayUltra(user.id) in old(cache))
      ensures var logged := old(cache)[Activity(user.id, today) := Count(seconds)];
              cache == if granted then logged[FirstDayUltra(user.id) := Flag] else logged
      ensures var updated := GrantSubscription(user, Monthly, nowMillis, FirstDayBonusHours);
        && storedUsers == (if granted then ReplaceById(old(storedUsers), user.id, updated) else old(storedUsers))
        && currentUser == (if granted then Some(updated) else old(currentUser))
        && published == (if granted then old(published) + [updated] else old(published))
      ensures outbox == old(outbox) + [UpdateStatus(user.id, seconds)]
      ensures canClaimReward == old(canClaimReward) && rewardOffer == old(rewardOffer)
      ensures dailyTargetSeconds == old(dailyTargetSeconds)
    {
      outbox := outbox + [UpdateStatus(user.id, seconds)];
      cache := cache[Activity(user.id, today) := Count(seconds)];
      var markerSet := FirstDayUltra(user.id) in cache;
      granted := FirstDayEligible(user.createdAt, nowMillis, seconds, markerSet);
      if granted {
        var updated := GrantSubscription(user, Monthly, nowMillis, FirstDayBonusHours);
        storedUsers := ReplaceById(storedUsers, user.id, updated);
        currentUser := Some(updated);
        cache := cache[FirstDayUltra(user.id) := Flag];
        published := published + [updated];
      }
    }

    /** A push from the remote store: when the document exists and one of the
        four compared fields differs, the overlay is handed to the parent. */
    method OnSnapshot(user: User, remote: Option<User>) returns (merged: Option<User>)
      modifies this`published
      ensures merged == if remote.Some? && Differs(user, remote.value) then Some(Overlay(user, remote.value)) else None
      ensures published == old(published) + (if merged.Some? then [merged.value] else [])
    {
      merged := None;
      if remote.Some? && Differs(user, remote.value) {
        merged := Some(Overlay(user, remote.value));
        published := published + [merged.value];
      }
    }

    /** Re-evaluates daily-goal eligibility. */
    method RefreshCanClaim(user: User, seconds: int, today: DayKey)
      modifies this`canClaimReward
      ensures canClaimReward == CanClaim(user.lastRewardClaimDate, today, seconds, dailyTargetSeconds)
    {
      canClaimReward := CanClaim(user.lastRewardClaimDate, today, seconds, dailyTargetSeconds);
    }

    /** Claiming the daily-goal reward. The stored list and the current user
        are written only when the id is in the list; the remote write and the
        hand-over to the parent happen either way. */
    method ClaimDailyReward(user: User, now: Instant, dailyReward: Option<int>)
      modifies this
      ensures !old(canClaimReward) ==> unchanged(this)
      ensures old(canClaimReward) ==>
        var updated := CreditReward(user, RewardAmount(dailyReward), now);
        && storedUsers == ReplaceById(old(storedUsers), user.id, updated)
        && currentUser == (if IndexOf(old(storedUsers), user.id).Some? then Some(updated) else old(currentUser))
        && outbox == old(outbox) + [SaveUser(updated)]
        && published == old(published) + [updated]
        && !canClaimReward
        && cache == old(cache) && rewardOffer == old(rewardOffer)
        && dailyTargetSeconds == old(dailyTargetSeconds)
    {
      if !canClaimReward {
        return;
      }
      var updated := CreditReward(user, RewardAmount(dailyReward), now);
      if IndexOf(storedUsers, updated.id).Some? {
        storedUsers := ReplaceById(storedUsers, updated.id, updated);
        currentUser := Some(updated);
      }
      outbox := outbox + [SaveUser(updated)];
      canClaimReward := false;
      published := published + [updated];
    }

    /** A record changed by a child view: written everywhere when its id is in
        the stored list, dropped otherwise. */
    method HandleUserUpdate(updated: User)
      modifies this
      ensures IndexOf(old(storedUsers), updated.id).None? ==> unchanged(this)
      ensures IndexOf(old(storedUsers), updated.id).Some? ==>
        && storedUsers == ReplaceById(old(storedUsers), updated.id, updated)
        && currentUser == Some(updated)
        && outbox == old(outbox) + [SaveUser(updated)]
        && published == old(published) + [updated]
        && cache == old(cache) && canClaimReward == old(canClaimReward)
        && rewardOffer == old(rewardOffer) && dailyTargetSeconds == old(dailyTargetSeconds)
    {
      if IndexOf(storedUsers, updated.id).Some? {
        storedUsers := ReplaceById(storedUsers, updated.id, updated);
        currentUser := Some(updated);
        outbox := outbox + [SaveUser(updated)];
        published := published + [updated];
      }
    }

    /** Marks every inbox message read and saves the record as a child
        update would. */
    method MarkInboxRead(user: User)
      modifies this
      ensures user.inbox.None? ==> unchanged(this)
      ensures user.inbox.Some? ==>
        var updated := user.(inbox := Some(MarkAllRead(user.inbox.value)));
        if IndexOf(old(storedUsers), user.id).None? then unchanged(this)
        else
          && storedUsers == ReplaceById(old(storedUsers), user.id, updated)
          && currentUser == Some(updated)
          && outbox == old(outbox) + [SaveUser(updated)]
          && published == old(published) + [updated]
          && cache == old(cache) && canClaimReward == old(canClaimReward)
          && rewardOffer == old(rewardOffer) && dailyTargetSeconds == old(dailyTargetSeconds)
    {
      if user.inbox.None? {
        return;
      }
      HandleUserUpdate(user.(inbox := Some(MarkAllRead(user.inbox.value))));
    }

    /** Saving the profile form: the goal is cached and becomes the target,
        and the updated record is written locally when its id is stored. */
    method SaveProfile(user: User, form: ProfileForm)
      modifies this`cache, this`dailyTargetSeconds, this`storedUsers, this`currentUser
      ensures cache == old(cache)[Goal(user.id) := Count(form.dailyGoalHours)]
      ensures dailyTargetSeconds == form.dailyGoalHours * SecondsPerHour
      ensures storedUsers == ReplaceById(old(storedUsers), user.id, ApplyProfile(user, form))
      ensures currentUser == (if IndexOf(old(storedUsers), user.id).Some? then Some(ApplyProfile(user, form))
                              else old(currentUser))
      ensures outbox == old(outbox) && published == old(published)
      ensures canClaimReward == old(canClaimReward) && rewardOffer == old(rewardOffer)
    {
      var updated := ApplyProfile(user, form);
      cache := cache[Goal(user.id) := Count(form.dailyGoalHours)];
      dailyTargetSeconds := form.dailyGoalHours * SecondsPerHour;
      if IndexOf(storedUsers, user.id).Some? {
        storedUsers := ReplaceById(storedUsers, user.id, updated);
        currentUser := Some(updated);
      } else {
        assert ReplaceById(storedUsers, user.id, updated) == storedUsers;
      }
    }
  }

  /** Two ticks for the same account grant the first-day bonus at most once,
      even when every other condition still holds at the second. */
  method FirstDayBonusOnce(s: Session, user: User, seconds: int, today: DayKey, t1: int, t2: int)
    returns (first: bool, second: bool)
    modifies s
    ensures !(first && second)
    ensures |s.published| <= old(|s.published|) + 1
  {
    first := s.Tick(user, seconds, today, t1);
    second := s.Tick(user, seconds, today, t2);
  }

  /** Evaluating and claiming the daily reward twice on one day, the second
      time with the record the first claim handed over, grants at most once. */
  method DailyRewardOncePerDay(s: Session, user: User, seconds: int, now: Instant, later: Instant,
                               dailyReward: Option<int>)
    requires later.day == now.day
    modifies s
    ensures |s.published| <= old(|s.published|) + 1
    ensures |s.published| == old(|s.published|) + 1 ==>
      s.published[|s.published| - 1].credits == Some(CreditsOf(user) + RewardAmount(dailyReward))
  {
    s.RefreshCanClaim(user, seconds, now.day);
    var before := |s.published|;
    s.ClaimDailyReward(user, now, dailyReward);
    var next := if |s.published| > before then s.published[|s.published| - 1] else user;
    s.RefreshCanClaim(next, seconds, later.day);
    s.ClaimDailyReward(next, later, dailyReward);
  }

  /** The counterpart: when the second evaluation still sees the record as it
      was before the first claim, the same day's reward is handed over twice.
      The once-per-day guarantee depends on the parent feeding the credited
      record back before the eligibility is evaluated again. */
  method DailyRewardTwiceWithStaleRecord(s: Session, user: User, seconds: int, now: Instant, later: Instant,
                                         dailyReward: Option<int>)
    requires later.day == now.day
    requires CanClaim(user.lastRewardClaimDate, now.day, seconds, s.dailyTargetSeconds)
    modifies s
    ensures |s.published| == old(|s.published|) + 2
    ensures s.published[|s.published| - 2].credits == s.published[|s.published| - 1].credits
                                           == Some(CreditsOf(user) + RewardAmount(dailyReward))
  {
    s.RefreshCanClaim(user, seconds, now.day);
    s.ClaimDailyReward(user, now, dailyReward);
    s.RefreshCanClaim(user, seconds, later.day);
    s.ClaimDailyReward(user, later, dailyReward);
  }
}
