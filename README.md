# Student dashboard reward and entitlement model

A Dafny model of the reward and entitlement logic of the `StudentDashboard`
screen of a study-tracking app. A learner's daily study seconds are turned into:

- spendable credits, through the daily-goal reward;
- short premium subscriptions, through the one-time first-day bonus and the
  yesterday-activity offer.

The screen keeps the user record consistent across three places:

- the device's local cache: the `nst_users` list, the `nst_current_user` entry,
  and the activity, claim-marker and goal keys;
- the remote user document, whose pushes are merged onto the local record;
- the parent application, which receives every new record.

Layout, one module per concern:

- `records.dfy`: `Records` (the user record, tiers, instants, messages) and
  `Search` (first-match search, the model of `find`/`findIndex`).
- `userset.dfy`: `UserSet` (lookup by id in the stored list, and the keyed
  replacement every handler performs).
- `rewards.dfy`: `Rewards` (the three reward programs as pure decisions, and the
  record updates that grant them).
- `merge.dfy`: `Merge` (the four-field change test and the shallow overlay
  `{...local, ...remote}`).
- `timeformat.dfy`: `TimeFormat` (`formatTime`, plus a reader that proves the
  rendering loses nothing).
- `contacts.dfy`: `Contacts` (admin phone list, default selection, number lookup
  with the built-in fallback).
- `profile.dfy`: `Profile` (the profile-save record update and the trim-based
  password rule) and `Inbox` (unread count, mark all read).
- `dashboard.dfy`: `Dashboard`, whose class `Session` has one method per handler
  or effect. A method changes the cache, the stored list, the current-user entry,
  the dashboard state, the log of remote writes (`outbox`) and the log of records
  passed to the parent (`published`). Its postcondition states all of the new
  state in terms of the pure functions.

Regular inputs: "now" (milliseconds), today's and yesterday's calendar-day keys,
the day's study seconds, and the settings values. A stored instant carries the
calendar day it falls on (`Instant(millis, day)`). Comparing the
`toDateString()` of the last claim with today's is therefore comparing two day
keys.

Points where the handlers behave less uniformly than one might expect, all modelled as the code does them:

- `claimDailyReward` (components/StudentDashboard.tsx:210-219) guards only the
  `nst_users` and `nst_current_user` writes with the id match. The remote write
  and the hand-over to the parent happen even when the id is missing from the
  stored list. `Dashboard.Session.ClaimDailyReward` states exactly that.
- `handleUserUpdate` (lines 262-272) does nothing at all when the id is missing.
- `claimYesterdayReward` and the first-day bonus (lines 113-118, 173-178) write
  `nst_current_user` whether or not the id is in the list.
- Of the grants, only `claimYesterdayReward`, `claimDailyReward` and
  `handleUserUpdate` call `saveUserToLive`. The first-day bonus (lines 163-183)
  and `saveProfile` (lines 237-260) write only local storage and, for the bonus,
  the parent. `Dashboard.Session.Tick` and `Dashboard.Session.SaveProfile` leave
  `outbox` without a `SaveUser` entry accordingly.
- The daily goal is not bounded to 1-12 anywhere in the save path
  (lines 249-250); the `min`/`max` of the input field only guide the browser.
  The model stores any whole number of hours the form holds (see
  "## Left out" for fractional hours).

## Model

| member | source | states |
|---|---|---|
| Search.FindFirst | components/StudentDashboard.tsx:114 | the result is the first index whose element satisfies the test, or none when no element does |
| Search.FindFirstIsFirst | components/StudentDashboard.tsx:114 | any matching index with no match before it is the one found |
| UserSet.IndexOf | components/StudentDashboard.tsx:211 | the index of the first stored record with the id; none exactly when no record has it |
| UserSet.ReplaceById | components/StudentDashboard.tsx:113-117 | same length; only the first record with the id is replaced, every other record is kept; the list is unchanged when no id matches |
| UserSet.ReplaceKeepsPosition | components/StudentDashboard.tsx:115 | after replacing a record by one with the same id, the id is found at the same position |
| UserSet.ReplaceIdempotent | components/StudentDashboard.tsx:266 | writing the same record twice equals writing it once |
| UserSet.ReplaceSparesOthers | components/StudentDashboard.tsx:213 | a record with another id is never touched |
| Rewards.RewardAmount | components/StudentDashboard.tsx:54 | the configured daily reward, with absent or 0 falling back to 3; never 0 |
| Rewards.CreditsOf | components/StudentDashboard.tsx:207 | `credits || 0`: the stored credits, or 0 when the record has none |
| Rewards.CanClaim | components/StudentDashboard.tsx:196-201 | without a claim date, claimable iff the day's seconds reach the target; with one, iff its day is not today and the seconds reach the target |
| Rewards.LastClaimKey | components/StudentDashboard.tsx:199 | the day key of the last claim, or the empty key when there is none |
| Rewards.SourceFormAgrees | components/StudentDashboard.tsx:198-200 | comparing the last claim's day key, the empty key when there is no claim, with today's key gives the same eligibility as `CanClaim`, provided today's key is not empty |
| Rewards.IsFreeTier | components/StudentDashboard.tsx:91 | a tier counts as free exactly when it is neither WEEKLY nor MONTHLY, so an absent tier is free |
| Rewards.CreditReward | components/StudentDashboard.tsx:205-209 | credits become old credits (absent as 0) plus the reward, the claim date becomes now, all else is kept, and the reward is no longer claimable that day for any seconds or target |
| Rewards.YesterdayOffer | components/StudentDashboard.tsx:91-94 | an offer exists iff the marker is unset, the tier is absent or FREE, and yesterday's seconds are at least 3600; it is MONTHLY/8 h iff at least 7200, WEEKLY/8 h iff 3600 to 7199 |
| Rewards.OfferMonotone | components/StudentDashboard.tsx:92-93 | more activity yesterday never gives a lesser offer |
| Rewards.OfferBoundaries | components/StudentDashboard.tsx:91-93 | 7199 s gives WEEKLY, 7200 s MONTHLY, 3600 s WEEKLY, 3599 s nothing; a paid tier gets nothing |
| Rewards.FirstDayMarkerIsFinal | components/StudentDashboard.tsx:161-163 | with the one-time marker set, the first-day bonus never qualifies |
| Rewards.FirstDayEligible | components/StudentDashboard.tsx:160-163 | the bonus qualifies exactly for an account created less than 24 h before now, after at least 3600 s of study, with the one-time marker unset |
| Rewards.FirstDayBoundaries | components/StudentDashboard.tsx:160-163 | exactly 3600 s qualifies and 3599 s does not; an account 24 h old is too old and one 1 ms younger is not; a missing creation time never qualifies |
| Rewards.GrantSubscription | components/StudentDashboard.tsx:105-111 | the grant sets the tier, an end date `hours` after now and isPremium true; every other field is copied |
| Rewards.GrantOverwrites | components/StudentDashboard.tsx:164-170 | a second grant replaces the first: last grant wins, end dates never add up |
| Merge.Overlay | components/StudentDashboard.tsx:143 | each field present in the remote record wins; each field it lacks keeps the local value |
| Merge.Differs | components/StudentDashboard.tsx:137-140 | the change test fires exactly when credits, tier, isPremium or isGameBanned differ between the two records, so never for a record and itself |
| Merge.OverlayIdempotent | components/StudentDashboard.tsx:143 | merging the same remote record twice equals merging it once |
| Merge.MergeSettles | components/StudentDashboard.tsx:137-144 | after merging a remote record that carries the four compared fields, the change test no longer fires for it |
| TimeFormat.NatToString | components/StudentDashboard.tsx:234 | starts and ends with a digit, is one character long iff the number is below 10, and starts with '0' only for 0, so no leading zeros |
| TimeFormat.PadTwo | components/StudentDashboard.tsx:234 | strings shorter than 2 are left-padded with '0' to length 2, others are kept |
| TimeFormat.TwoDigits | components/StudentDashboard.tsx:234 | minutes and seconds always render as exactly two digits |
| TimeFormat.Split | components/StudentDashboard.tsx:231-233 | h*3600 + m*60 + s equals the seconds, with m and s below 60 |
| TimeFormat.SplitUnique | components/StudentDashboard.tsx:231-233 | that decomposition is the only one with m and s below 60 |
| TimeFormat.HourPrefix | components/StudentDashboard.tsx:234 | the hour prefix is empty exactly when there are no hours |
| TimeFormat.MinSecText | components/StudentDashboard.tsx:234 | always five characters: two digits, ':', two digits |
| TimeFormat.Render | components/StudentDashboard.tsx:234 | `mm:ss`, longer than five characters exactly when h > 0 |
| TimeFormat.FormatTime | components/StudentDashboard.tsx:230-235 | the output ends in two digits, ':', two digits, and is longer than 5 characters exactly when there is at least one hour |
| TimeFormat.ParseNatToString | components/StudentDashboard.tsx:234 | reading back a rendered number gives the number |
| TimeFormat.FormatTimeRoundTrip | components/StudentDashboard.tsx:230-235 | reading back the rendered time gives the seconds again; the reader accepts the hour count only without leading zeros, so the hours are printed as `h.toString()` does |
| Contacts.AdminPhones | components/StudentDashboard.tsx:57 | the configured list, even an empty one; only an absent list becomes the single built-in contact 8227070298 |
| Contacts.DefaultPhoneId | components/StudentDashboard.tsx:58 | never empty; either `default` or the id of some contact |
| Contacts.DefaultPhoneIsFirstFlagged | components/StudentDashboard.tsx:58 | the first contact flagged default is chosen when its id is non-empty |
| Contacts.DefaultPhoneWithoutFlag | components/StudentDashboard.tsx:58 | when no contact is flagged, or the first flagged contact has an empty id, the first contact's id is chosen |
| Contacts.DefaultPhoneFallsBack | components/StudentDashboard.tsx:58 | when the first contact has no id and no flagged contact supplies one, the built-in id `default` is chosen |
| Contacts.InitialSelection | components/StudentDashboard.tsx:60-62 | an existing selection is kept; an empty one takes the default id when there are contacts |
| Contacts.InitialSelectionSettles | components/StudentDashboard.tsx:58-62 | applying the initialisation to its own result changes nothing, so the render-time selection fires at most once |
| Contacts.PhoneNumber | components/StudentDashboard.tsx:64-67 | the number of a contact whose id is the key, or 8227070298 when no contact has that id |
| Contacts.LookupKey | components/StudentDashboard.tsx:65 | `phoneId || selectedPhoneId`: a non-empty explicit id wins, otherwise the current selection |
| Contacts.PhoneNumberOfFirstMatch | components/StudentDashboard.tsx:65-66 | the first contact with the key supplies the number |
| Contacts.UnconfiguredContactsUseFallback | components/StudentDashboard.tsx:57-66 | with no configured contacts, the lookup gives the built-in number |
| Profile.TrimStart | components/StudentDashboard.tsx:245 | a suffix of the input that is empty iff the input is blank, and otherwise starts with a non-space |
| Profile.TrimStartDropsBlank | components/StudentDashboard.tsx:245 | every character `TrimStart` drops is white space, so with its contract the result is the input after its leading white space |
| Profile.TrimEnd | components/StudentDashboard.tsx:245 | a prefix of the input that is empty iff the input is blank, and otherwise ends with a non-space |
| Profile.TrimEndDropsBlank | components/StudentDashboard.tsx:245 | every character `TrimEnd` drops is white space |
| Profile.Trim | components/StudentDashboard.tsx:245 | `trim()` is empty exactly for blank input, and otherwise neither starts nor ends with white space |
| Profile.ChosenPassword | components/StudentDashboard.tsx:245 | a blank new password keeps the old one; otherwise the new one is stored as typed |
| Profile.ApplyProfile | components/StudentDashboard.tsx:240-246 | board, class and stream come from the form, the password follows the blank rule, every other field is kept |
| Inbox.CountUnread | components/StudentDashboard.tsx:191 | at most the number of messages; 0 iff all are read; all of them iff none is; a single message counts 1 iff it is unread |
| Inbox.CountUnreadAppend | components/StudentDashboard.tsx:191 | the count of a concatenation is the sum of the counts, so with the single-message values it is the length of the unread filter |
| Inbox.UnreadCount | components/StudentDashboard.tsx:191 | 0 without an inbox, otherwise the number of unread messages |
| Inbox.MarkAllRead | components/StudentDashboard.tsx:276 | same messages in the same order, each marked read and otherwise unchanged |
| Inbox.MarkAllReadClearsBadge | components/StudentDashboard.tsx:274-278 | after marking, the unread count is 0 |
| Inbox.MarkAllReadIdempotent | components/StudentDashboard.tsx:276 | marking twice equals marking once |
| Dashboard.Session.constructor | components/StudentDashboard.tsx:49-53 | no claimable reward and no offer yet; the target starts at 3 h |
| Dashboard.StoredCount | components/StudentDashboard.tsx:88 | the number cached under a key, with a missing entry or a marker read as 0 |
| Dashboard.Session.LoadGoal | components/StudentDashboard.tsx:69-77 | a stored goal of h hours sets the target to h*3600 seconds; without one the target is unchanged |
| Dashboard.Session.CheckYesterday | components/StudentDashboard.tsx:82-95 | the offer from yesterday's marker, the tier and yesterday's cached seconds (missing as 0) is raised when there is one |
| Dashboard.Session.ClaimYesterdayReward | components/StudentDashboard.tsx:97-125 | without an offer nothing changes; otherwise the granted record replaces the stored one, always becomes the current user, goes to the remote store and the parent, yesterday's marker is set and the offer is cleared |
| Dashboard.Session.Tick | components/StudentDashboard.tsx:151-187 | reports the seconds remotely and caches today's activity; grants the 1 h MONTHLY bonus iff eligible, then also sets the permanent marker, writes the record to the list and the current user, and hands it to the parent |
| Dashboard.Session.OnSnapshot | components/StudentDashboard.tsx:133-147 | an existing remote record that differs on credits, tier, isPremium or isGameBanned hands the overlay to the parent; otherwise nothing is published |
| Dashboard.Session.RefreshCanClaim | components/StudentDashboard.tsx:196-201 | the claimable flag equals the daily eligibility for the current target |
| Dashboard.Session.ClaimDailyReward | components/StudentDashboard.tsx:203-221 | when not claimable nothing changes; otherwise the credited record replaces the stored one and becomes the current user only if its id is stored, goes to the remote store and the parent either way, and the flag is cleared |
| Dashboard.Session.HandleUserUpdate | components/StudentDashboard.tsx:262-272 | with the id stored, the record replaces it, becomes the current user, goes remote and to the parent; with it missing, nothing changes |
| Dashboard.Session.MarkInboxRead | components/StudentDashboard.tsx:274-278 | without an inbox nothing changes; otherwise the record with every message read is saved as a child update |
| Dashboard.Session.SaveProfile | components/StudentDashboard.tsx:237-260 | the goal is cached and sets the target; the profile record replaces the stored one and becomes the current user only if its id is stored |
| Dashboard.FirstDayBonusOnce | components/StudentDashboard.tsx:161-179 | two ticks for one account never both grant the first-day bonus |
| Dashboard.DailyRewardOncePerDay | components/StudentDashboard.tsx:198-219 | when the second evaluation on the same day is given the record the first claim handed to the parent, the two evaluate-and-claim rounds hand over at most one credited record, carrying old credits plus the reward |
| Dashboard.DailyRewardTwiceWithStaleRecord | components/StudentDashboard.tsx:198-219 | when the second evaluation still sees the record from before the first claim, the same day's reward is handed over twice, both times with old credits plus the reward: the once-per-day guarantee depends on the parent feeding the credited record back |

## Left out

- Dashboard.Session.SaveProfile: the goal hours are whole numbers. The form
  reads them with `Number(e.target.value)` (line 405), so a fractional value
  such as 2.5 is possible. It would give a 9000 s target in the session
  (line 250), while the reload's `parseInt` (line 73) would give 7200 s. The
  model captures neither the fraction nor that difference between save and reload.

- Rendering, tabs, modals, `alert`, `window.location.reload`, and the WhatsApp
  purchase link built with `encodeURIComponent` and `window.open` (lines 223-228,
  280-680): user interface and browser calls.
- The remote store itself: subscription set-up and teardown, `saveUserToLive`,
  `updateUserStatus`. The model logs outgoing writes in `outbox` and receives a
  pushed document as a parameter, `None` when it does not exist.
- `setInterval` scheduling, effect re-runs and stale closures: each tick or event
  is one sequential call that takes the record the screen was rendered with.
- `Date` arithmetic and time zones: day keys and milliseconds are inputs.
- JSON serialisation: cached values are typed entries.
- `parseInt`: a missing activity entry reads as 0, as `'0'` does in the source. A
  `NaN` value is not modelled; for yesterday's activity it fails every threshold,
  as 0 does.
- Dashboard.Session.LoadGoal: a stored goal that `parseInt` cannot read (for
  example the marker `true`) makes the source's target `NaN`, which no study time
  ever reaches. The model reads it as 0 hours, so the reward becomes claimable at
  0 seconds. Goal entries written by the dashboard itself are always numbers.
- JavaScript numbers are doubles; the model uses unbounded integers. A fractional
  `settings.dailyReward` or credit balance, and precision lost beyond 2^53, are
  not represented.
- The account-age division (line 160): modelled as `now - createdAt < 86400000`,
  which is the same test on whole milliseconds. A missing `createdAt` makes the
  source compute `NaN`, so the model never grants in that case.
- Progress-bar percentages, the credit-package catalogue, subject lists and
  child components: display and static data.
- The `editMode`, `showInbox` and modal-visibility flags: user interface state.
  The pending offer itself is modelled as `rewardOffer`.
- `Records.Tier` holds only FREE, WEEKLY and MONTHLY. Any other tier string in a
  remote document is not modelled.
- `Records.Message`: an absent `read` flag is modelled as `false`; the source
  treats it as falsy in the same way.
- `TimeFormat.FormatTime` takes a natural number. Negative or fractional seconds
  are not modelled; the study counter never produces them.
- `Profile.IsTrimmable` lists the ECMAScript white-space and line-terminator
  characters written out by code point. Its set of space separators matches the
  Unicode version used here, not every future one.
