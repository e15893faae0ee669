/** The records the dashboard reads and writes: the user document, its
    subscription tier, inbox messages and the instants it stores. */
module Records {

  datatype Option<T> = None | Some(value: T)

  /** A calendar-day key, as produced by the platform's local-date formatting. */
  type DayKey = string

  /** An instant in milliseconds, together with the local calendar day it falls on. */
  datatype Instant = Instant(millis: int, day: DayKey)

  /** Subscription levels; an absent tier means FREE. */
  datatype Tier = Free | Weekly | Monthly

  datatype Message = Message(id: string, text: string, read: bool)

  /** The user document. Every field but the id may be absent, as in the
      stored JSON and in the remote document. */
  datatype User = User(
    id: string,
    name: Option<string>,
    password: Option<string>,
    classLevel: Option<string>,
    board: Option<string>,
    stream: Option<string>,
    credits: Option<int>,
    subscriptionTier: Option<Tier>,
    subscriptionEndDate: Option<int>,
    isPremium: Option<bool>,
    isGameBanned: Option<bool>,
    lastRewardClaimDate: Option<Instant>,
    createdAt: Option<int>,
    inbox: Option<seq<Message>>)
}

/** First-match search over a sequence: the model of `Array.prototype.find`
    and `Array.prototype.findIndex`. */
module Search {
  import opened Records

  function FindFirst<T>(s: seq<T>, p: T -> bool): (r: Option<nat>)
    ensures r.Some? ==> r.value < |s| && p(s[r.value])
    ensures r.Some? ==> forall j :: 0 <= j < r.value ==> !p(s[j])
    ensures r.None? ==> forall j :: 0 <= j < |s| ==> !p(s[j])
    decreases |s|
  {
    if |s| == 0 then None
    else if p(s[0]) then Some(0)
    else
      match FindFirst(s[1..], p)
      case None => None
      case Some(i) => Some(i + 1)
  }

  /** The first match is determined by the list: any index that matches and
      has no match before it is the one found. */
  lemma FindFirstIsFirst<T>(s: seq<T>, p: T -> bool, k: nat)
    requires k < |s| && p(s[k])
    requires forall j :: 0 <= j < k ==> !p(s[j])
    ensures FindFirst(s, p) == Some(k)
  {
  }
}
