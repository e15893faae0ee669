/** The data part of saving the profile form: class, board and stream are
    overwritten, and the password changes only when the new one is not
    blank after trimming. */
module Profile {
  import opened Records

  /** The characters `String.prototype.trim` removes: white space and line
      terminators. */
  predicate IsTrimmable(c: char)
  {
    || c == ' ' || c == '\t' || c == '\n' || c == '\r' || c == '\U{B}' || c == '\U{C}'
    || c == '\U{A0}' || c == '\U{1680}' || ('\U{2000}' <= c <= '\U{200A}')
    || c == '\U{2028}' || c == '\U{2029}' || c == '\U{202F}' || c == '\U{205F}'
    || c == '\U{3000}' || c == '\U{FEFF}'
  }

  predicate IsBlank(s: string)
  {
    forall i :: 0 <= i < |s| ==> IsTrimmable(s[i])
  }

  /** `s` without its leading trimmable characters. */
  function TrimStart(s: string): (r: string)
    ensures |r| <= |s| && r == s[|s| - |r|..]
    ensures r == [] <==> IsBlank(s)
    ensures r != [] ==> !IsTrimmable(r[0])
    decreases |s|
  {
    if |s| > 0 && IsTrimmable(s[0]) then TrimStart(s[1..]) else s
  }

  /** `s` without its trailing trimmable characters. */
  function TrimEnd(s: string): (r: string)
    ensures |r| <= |s| && r == s[..|r|]
    ensures r == [] <==> IsBlank(s)
    ensures r != [] ==> !IsTrimmable(r[|r| - 1])
    decreases |s|
  {
    if |s| > 0 && IsTrimmable(s[|s| - 1]) then TrimEnd(s[..|s| - 1]) else s
  }

  /** What `TrimStart` drops is white space, so the result is exactly the
      input after its leading white space. */
  lemma {:induction false} TrimStartDropsBlank(s: string)
    ensures forall i :: 0 <= i < |s| - |TrimStart(s)| ==> IsTrimmable(s[i])
    decreases |s|
  {
    if |s| > 0 && IsTrimmable(s[0]) {
      var t := s[1..];
      TrimStartDropsBlank(t);
    }
  }

  /** What `TrimEnd` drops is white space. */
  lemma {:induction false} TrimEndDropsBlank(s: string)
    ensures forall i :: |TrimEnd(s)| <= i < |s| ==> IsTrimmable(s[i])
    decreases |s|
  {
    if |s| > 0 && IsTrimmable(s[|s| - 1]) {
      var t := s[..|s| - 1];
      TrimEndDropsBlank(t);
    }
  }

  /** `trim()`: empty exactly for blank input, and otherwise neither starting
      nor ending with white space. */
  function Trim(s: string): (r: string)
    ensures |r| <= |s|
    ensures r == [] <==> IsBlank(s)
    ensures r != [] ==> !IsTrimmable(r[0]) && !IsTrimmable(r[|r| - 1])
  {
    TrimEnd(TrimStart(s))
  }

  /** The stored password: the new one as typed (not trimmed) unless it is
      blank, in which case the old one is kept. */
  function ChosenPassword(newPassword: string, current: Option<string>): (r: Option<string>)
    ensures IsBlank(newPassword) ==> r == current
    ensures !IsBlank(newPassword) ==> r == Some(newPassword)
  {
    if Trim(newPassword) != [] then Some(newPassword) else current
  }

  /** The editable profile fields. */
  datatype ProfileForm = ProfileForm(
    classLevel: string, board: string, stream: string, newPassword: string, dailyGoalHours: int)

  /** The record written by a profile save: the three form fields, the chosen
      password, and every other field unchanged. */
  function ApplyProfile(u: User, form: ProfileForm): (r: User)
    ensures r.board == Some(form.board) && r.classLevel == Some(form.classLevel)
    ensures r.stream == Some(form.stream)
    ensures IsBlank(form.newPassword) ==> r.password == u.password
    ensures !IsBlank(form.newPassword) ==> r.password == Some(form.newPassword)
    ensures r.(board := u.board, classLevel := u.classLevel, stream := u.stream, password := u.password) == u
  {
    u.(board := Some(form.board), classLevel := Some(form.classLevel), stream := Some(form.stream),
       password := ChosenPassword(form.newPassword, u.password))
  }
}

/** The inbox badge and the "mark all as read" action. */
module Inbox {
  import opened Records

  function CountUnread(ms: seq<Message>): (r: nat)
    ensures r <= |ms|
    ensures r == 0 <==> forall i :: 0 <= i < |ms| ==> ms[i].read
    ensures r == |ms| <==> forall i :: 0 <= i < |ms| ==> !ms[i].read
    ensures |ms| == 1 ==> (r == 1 <==> !ms[0].read)
    decreases |ms|
  {
    if |ms| == 0 then 0 else (if ms[0].read then 0 else 1) + CountUnread(ms[1..])
  }

  /** The count is additive over concatenation, so together with the
      one-message values it is the length of the unread filter. */
  lemma {:induction false} CountUnreadAppend(a: seq<Message>, b: seq<Message>)
    ensures CountUnread(a + b) == CountUnread(a) + CountUnread(b)
    decreases |a|
  {
    if |a| == 0 {
      assert a + b == b;
    } else {
      assert (a + b)[0] == a[0];
      assert (a + b)[1..] == a[1..] + b;
      CountUnreadAppend(a[1..], b);
    }
  }

  /** `user.inbox?.filter(m => !m.read).length || 0`. */
  function UnreadCount(inbox: Option<seq<Message>>): (r: nat)
    ensures inbox.None? ==> r == 0
    ensures inbox.Some? ==> r == CountUnread(inbox.value)
  {
    match inbox
    case None => 0
    case Some(ms) => CountUnread(ms)
  }

  /** Every message marked read, in the same order, nothing else changed. */
  function MarkAllRead(ms: seq<Message>): (r: seq<Message>)
    ensures |r| == |ms|
    ensures forall i :: 0 <= i < |ms| ==> r[i].read && r[i].(read := ms[i].read) == ms[i]
  {
    seq(|ms|, i requires 0 <= i < |ms| => ms[i].(read := true))
  }

  /** After marking, nothing is unread. */
  lemma MarkAllReadClearsBadge(ms: seq<Message>)
    ensures UnreadCount(Some(MarkAllRead(ms))) == 0
  {
  }

  /** Marking all read is idempotent. */
  lemma MarkAllReadIdempotent(ms: seq<Message>)
    ensures MarkAllRead(MarkAllRead(ms)) == MarkAllRead(ms)
  {
  }
}
