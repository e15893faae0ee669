/** The study-timer display: `formatTime` renders seconds as `h:mm:ss`, or
    `mm:ss` below one hour, with minutes and seconds padded to two digits. */
module TimeFormat {
  import opened Records

  predicate IsDigit(c: char)
  {
    '0' <= c <= '9'
  }

  function DigitChar(d: nat): (c: char)
    requires d < 10
    ensures IsDigit(c) && c as int - '0' as int == d
  {
    (('0' as int) + d) as char
  }

  function DigitValue(c: char): nat
    requires IsDigit(c)
  {
    c as int - '0' as int
  }

  /** Decimal rendering of a natural number, without leading zeros
      (`n.toString()`). */
  function NatToString(n: nat): (r: string)
    ensures 1 <= |r| && IsDigit(r[0]) && IsDigit(r[|r| - 1])
    ensures |r| == 1 <==> n < 10
    ensures |r| > 1 ==> r[0] != '0'
    ensures r[0] == '0' <==> n == 0
    decreases n
  {
    if n < 10 then [DigitChar(n)] else NatToString(n / 10) + [DigitChar(n % 10)]
  }

  /** `s.padStart(2, '0')`. */
  function PadTwo(s: string): (r: string)
    ensures |s| < 2 ==> |r| == 2 && r[2 - |s|..] == s
    ensures |s| < 2 ==> forall i :: 0 <= i < 2 - |s| ==> r[i] == '0'
    ensures |s| >= 2 ==> r == s
  {
    if |s| < 2 then seq(2 - |s|, _ => '0') + s else s
  }

  function TwoDigits(n: nat): (r: string)
    requires n < 100
    ensures |r| == 2 && IsDigit(r[0]) && IsDigit(r[1])
  {
    PadTwo(NatToString(n))
  }

  /** Hours, minutes and seconds of a duration. */
  datatype Clock = Clock(h: nat, m: nat, s: nat)

  function Split(secs: nat): (c: Clock)
    ensures c.h * 3600 + c.m * 60 + c.s == secs
    ensures c.m < 60 && c.s < 60
  {
    Clock(secs / 3600, (secs % 3600) / 60, secs % 60)
  }

  /** The decomposition is the only one with minutes and seconds below 60. */
  lemma SplitUnique(secs: nat, c: Clock)
    requires c.h * 3600 + c.m * 60 + c.s == secs && c.m < 60 && c.s < 60
    ensures c == Split(secs)
  {
  }

  /** `h:` when there are hours, nothing otherwise. */
  function HourPrefix(h: nat): (r: string)
    ensures r == [] <==> h == 0
  {
    if h > 0 then NatToString(h) + ":" else ""
  }

  /** Minutes and seconds, each as two digits, joined by a colon. */
  function MinSecText(m: nat, s: nat): (r: string)
    requires m < 60 && s < 60
    ensures |r| == 5 && r[2] == ':'
    ensures IsDigit(r[0]) && IsDigit(r[1]) && IsDigit(r[3]) && IsDigit(r[4])
  {
    var a := TwoDigits(m);
    var b := TwoDigits(s);
    assert (a + ":" + b)[3] == b[0] && (a + ":" + b)[4] == b[1];
    a + ":" + b
  }

  /** Renders hours, minutes and seconds; the hour prefix only when there are hours. */
  function Render(c: Clock): (r: string)
    requires c.m < 60 && c.s < 60
    ensures |r| >= 5 && r[|r| - 3] == ':'
    ensures |r| > 5 <==> c.h > 0
    ensures IsDigit(r[|r| - 5]) && IsDigit(r[|r| - 4]) && IsDigit(r[|r| - 2]) && IsDigit(r[|r| - 1])
  {
    HourPrefix(c.h) + MinSecText(c.m, c.s)
  }

  function FormatTime(secs: nat): (r: string)
    ensures |r| >= 5 && r[|r| - 3] == ':'
    ensures |r| > 5 <==> secs >= 3600
    ensures IsDigit(r[|r| - 5]) && IsDigit(r[|r| - 4]) && IsDigit(r[|r| - 2]) && IsDigit(r[|r| - 1])
  {
    Render(Split(secs))
  }

  /** Reads back a decimal digit string, leading zeros allowed. */
  function ParseNat(s: string): Option<nat>
  {
    if |s| == 0 || !IsDigit(s[|s| - 1]) then None
    else if |s| == 1 then Some(DigitValue(s[0]))
    else
      match ParseNat(s[..|s| - 1])
      case None => None
      case Some(p) => Some(p * 10 + DigitValue(s[|s| - 1]))
  }

  /** Reads back `mm:ss` as a number of seconds below one hour. */
  function ParseMinSec(tail: string): Option<nat>
  {
    if |tail| != 5 || tail[2] != ':' then None
    else
      var mm := ParseNat(tail[..2]);
      var ss := ParseNat(tail[3..]);
      if mm.None? || ss.None? || mm.value >= 60 || ss.value >= 60 then None
      else Some(mm.value * 60 + ss.value)
  }

  /** Reads back the hour prefix: nothing, or a positive count written
      without leading zeros and a colon. */
  function ParseHours(prefix: string): Option<nat>
  {
    if prefix == [] then Some(0)
    else if prefix[|prefix| - 1] != ':' || prefix[0] == '0' then None
    else
      match ParseNat(prefix[..|prefix| - 1])
      case None => None
      case Some(h) => if h == 0 then None else Some(h)
  }

  /** Reads back a rendered duration: `mm:ss`, or `h:mm:ss` with a positive
      hour count. */
  function ParseTime(t: string): Option<nat>
  {
    if |t| < 5 then None
    else
      var hours := ParseHours(t[..|t| - 5]);
      var rest := ParseMinSec(t[|t| - 5..]);
      if hours.None? || rest.None? then None else Some(hours.value * 3600 + rest.value)
  }

  lemma {:induction false} ParseNatToString(n: nat)
    ensures ParseNat(NatToString(n)) == Some(n)
    decreases n
  {
    var r := NatToString(n);
    if n >= 10 {
      ParseNatToString(n / 10);
      assert r[..|r| - 1] == NatToString(n / 10);
    }
  }

  lemma ParseTwoDigits(n: nat)
    requires n < 100
    ensures ParseNat(TwoDigits(n)) == Some(n)
  {
    var r := TwoDigits(n);
    if n < 10 {
      assert r == ['0', DigitChar(n)];
      assert r[..1] == ['0'];
    } else {
      ParseNatToString(n);
    }
  }

  lemma ParseMinSecOf(mm: string, ss: string, m: nat, s: nat)
    requires |mm| == 2 && |ss| == 2
    requires ParseNat(mm) == Some(m) && ParseNat(ss) == Some(s) && m < 60 && s < 60
    ensures ParseMinSec(mm + ":" + ss) == Some(m * 60 + s)
  {
    var t := mm + ":" + ss;
    assert |t| == 5 && t[2] == ':';
    assert t[..2] == mm;
    assert t[3..] == ss;
    var a := ParseNat(t[..2]);
    assert a == Some(m);
    var b := ParseNat(t[3..]);
    assert b == Some(s);
  }

  lemma ParseHoursOf(hs: string, h: nat)
    requires ParseNat(hs) == Some(h) && h > 0
    requires |hs| > 0 && hs[0] != '0'
    ensures ParseHours(hs + ":") == Some(h)
  {
    var prefix := hs + ":";
    assert prefix != [] && prefix[|prefix| - 1] == ':' && prefix[0] == hs[0];
    assert prefix[..|prefix| - 1] == hs;
    var a := ParseNat(prefix[..|prefix| - 1]);
    assert a == Some(h);
  }

  lemma ParseTimeOf(head: string, tail: string, h: nat, ms: nat)
    requires |tail| == 5 && ParseHours(head) == Some(h) && ParseMinSec(tail) == Some(ms)
    ensures ParseTime(head + tail) == Some(h * 3600 + ms)
  {
    var t := head + tail;
    assert |t| >= 5;
    assert t[..|t| - 5] == head;
    assert t[|t| - 5..] == tail;
    var a := ParseHours(t[..|t| - 5]);
    assert a == Some(h);
    var b := ParseMinSec(t[|t| - 5..]);
    assert b == Some(ms);
  }

  lemma MinSecRoundTrip(m: nat, s: nat)
    requires m < 60 && s < 60
    ensures ParseMinSec(MinSecText(m, s)) == Some(m * 60 + s)
  {
    ParseTwoDigits(m);
    ParseTwoDigits(s);
    ParseMinSecOf(TwoDigits(m), TwoDigits(s), m, s);
  }

  lemma HoursRoundTrip(h: nat)
    ensures ParseHours(HourPrefix(h)) == Some(h)
  {
    if h > 0 {
      ParseNatToString(h);
      ParseHoursOf(NatToString(h), h);
    }
  }

  lemma RenderRoundTrip(c: Clock)
    requires c.m < 60 && c.s < 60
    ensures ParseTime(Render(c)) == Some(c.h * 3600 + c.m * 60 + c.s)
  {
    MinSecRoundTrip(c.m, c.s);
    HoursRoundTrip(c.h);
    assert Render(c) == HourPrefix(c.h) + MinSecText(c.m, c.s);
    assert |MinSecText(c.m, c.s)| == 5;
    ParseTimeOf(HourPrefix(c.h), MinSecText(c.m, c.s), c.h, c.m * 60 + c.s);
  }

  /** The rendering loses nothing: reading it back gives the seconds again. */
  lemma FormatTimeRoundTrip(secs: nat)
    ensures ParseTime(FormatTime(secs)) == Some(secs)
  {
    var c := Split(secs);
    var t := Render(c);
    assert FormatTime(secs) == t;
    assert c.h * 3600 + c.m * 60 + c.s == secs;
    RenderRoundTrip(c);
    assert ParseTime(t) == Some(secs);
  }
}
