/** Reconciling the locally held user record with a document pushed by the
    remote store: a change test on four fields and the overlay
    `{...local, ...remote}`. */
module Merge {
  import opened Records

  /** One field of a shallow overlay: present in the remote record, it wins;
      absent there, the local value stays. */
  function Pick<T>(remote: Option<T>, local: Option<T>): Option<T>
  {
    if remote.Some? then remote else local
  }

  ghost predicate Overlays<T>(merged: Option<T>, local: Option<T>, remote: Option<T>)
  {
    (remote.Some? ==> merged == remote) && (remote.None? ==> merged == local)
  }

  /** At least one of credits, tier, premium flag or game ban differs. */
  predicate Differs(local: User, remote: User)
    ensures local == remote ==> !Differs(local, remote)
    ensures !Differs(local, remote) <==>
      (local.credits, local.subscriptionTier, local.isPremium, local.isGameBanned)
      == (remote.credits, remote.subscriptionTier, remote.isPremium, remote.isGameBanned)
  {
    || remote.credits != local.credits
    || remote.subscriptionTier != local.subscriptionTier
    || remote.isPremium != local.isPremium
    || remote.isGameBanned != local.isGameBanned
  }

  /** `{...local, ...remote}`: every field the remote record carries, and the
      local value of every field it lacks. */
  function Overlay(local: User, remote: User): (r: User)
    ensures r.id == remote.id
    ensures Overlays(r.name, local.name, remote.name)
    ensures Overlays(r.password, local.password, remote.password)
    ensures Overlays(r.classLevel, local.classLevel, remote.classLevel)
    ensures Overlays(r.board, local.board, remote.board)
    ensures Overlays(r.stream, local.stream, remote.stream)
    ensures Overlays(r.credits, local.credits, remote.credits)
    ensures Overlays(r.subscriptionTier, local.subscriptionTier, remote.subscriptionTier)
    ensures Overlays(r.subscriptionEndDate, local.subscriptionEndDate, remote.subscriptionEndDate)
    ensures Overlays(r.isPremium, local.isPremium, remote.isPremium)
    ensures Overlays(r.isGameBanned, local.isGameBanned, remote.isGameBanned)
    ensures Overlays(r.lastRewardClaimDate, local.lastRewardClaimDate, remote.lastRewardClaimDate)
    ensures Overlays(r.createdAt, local.createdAt, remote.createdAt)
    ensures Overlays(r.inbox, local.inbox, remote.inbox)
  {
    User(
      remote.id,
      Pick(remote.name, local.name),
      Pick(remote.password, local.password),
      Pick(remote.classLevel, local.classLevel),
      Pick(remote.board, local.board),
      Pick(remote.stream, local.stream),
      Pick(remote.credits, local.credits),
      Pick(remote.subscriptionTier, local.subscriptionTier),
      Pick(remote.subscriptionEndDate, local.subscriptionEndDate),
      Pick(remote.isPremium, local.isPremium),
      Pick(remote.isGameBanned, local.isGameBanned),
      Pick(remote.lastRewardClaimDate, local.lastRewardClaimDate),
      Pick(remote.createdAt, local.createdAt),
      Pick(remote.inbox, local.inbox))
  }

  /** The remote record carries all four compared fields. */
  predicate CarriesComparedFields(remote: User)
  {
    remote.credits.Some? && remote.subscriptionTier.Some? &&
    remote.isPremium.Some? && remote.isGameBanned.Some?
  }

  /** Merging the same remote record again changes nothing. */
  lemma OverlayIdempotent(local: User, remote: User)
    ensures Overlay(Overlay(local, remote), remote) == Overlay(local, remote)
  {
  }

  /** Once merged, a remote record that carries the four compared fields no
      longer differs from the local one, so the same push does not propagate
      twice. */
  lemma MergeSettles(local: User, remote: User)
    requires CarriesComparedFields(remote)
    ensures !Differs(Overlay(local, remote), remote)
  {
  }
}
