/**
 * The duration and time labels of the screens, on whole numbers:
 *  - `m:ss` (the player's `formatTime`, the album's `formatDuration` of seconds),
 *  - `Hh Mmin` / `Mmin` from minutes (audiobook, series and movie `formatDuration`),
 *  - `Hh Mmin` / `Mmin` from seconds (the course's `formatDuration`).
 * Each label is paired with a reader that recovers the number it was made from.
 */
module Durations {
  import opened Wrappers
  import opened Text

  /** `${Math.floor(s / 60)}:${(s % 60).toString().padStart(2, '0')}`. */
  function FormatClock(seconds: nat): (r: string)
    ensures |r| >= 4 && r[|r| - 3] == ':' && AllDigits(r[..|r| - 3])
    ensures IsDigit(r[|r| - 2]) && IsDigit(r[|r| - 1])
  {
    var m, ss := NatToString(seconds / 60), PadStart2(NatToString(seconds % 60));
    PaddedTwoDigits(seconds % 60);
    ClockShape(m, ss, m + ":" + ss);
    m + ":" + ss
  }

  /** Reads an `m:ss` label: digits, a colon, exactly two digits. */
  function ParseClock(t: string): Option<nat> {
    var k := LeadingDigits(t);
    if k == 0 || k + 3 != |t| || t[k] != ':' || !IsDigit(t[k + 1]) || !IsDigit(t[k + 2]) then None
    else Some(ParseNat(t[..k]) * 60 + DigitValue(t[k + 1]) * 10 + DigitValue(t[k + 2]))
  }

  /** What `ParseClock` needs to know about a label to read `a` minutes from its first `k` characters. */
  lemma ReadClock(t: string, m: string, a: nat, b: nat, k: nat)
    requires |m| >= 1 && AllDigits(m) && a == ParseNat(m)
    requires LeadingDigits(t) == k && k == |m| && |t| == k + 3 && t[k] == ':'
    requires IsDigit(t[k + 1]) && IsDigit(t[k + 2]) && b == DigitValue(t[k + 1]) * 10 + DigitValue(t[k + 2])
    requires t[..k] == m
    ensures ParseClock(t) == Some(a * 60 + b)
  {
  }

  lemma ClockShape(m: string, ss: string, t: string)
    requires |m| >= 1 && AllDigits(m) && |ss| == 2
    requires t == m + ":" + ss
    ensures LeadingDigits(t) == |m| && |t| == |m| + 3 && t[|m|] == ':'
    ensures t[..|m|] == m && t[|m| + 1] == ss[0] && t[|m| + 2] == ss[1]
  {
    assert t == m + (":" + ss);
    LeadingDigitsOfConcat(m, ":" + ss);
  }

  /** The value of two digits. */
  lemma TwoDigits(ss: string)
    requires |ss| == 2 && AllDigits(ss)
    ensures ParseNat(ss) == DigitValue(ss[0]) * 10 + DigitValue(ss[1])
  {
    var s1 := ss[..1];
    assert s1[..0] == [];
    assert ParseNat(s1) == DigitValue(ss[0]);
    assert ss[..|ss| - 1] == s1;
  }

  /** The label of `q` minutes and `r` seconds reads back as `q * 60 + r`. */
  lemma ClockOfParts(q: nat, r: nat, t: string)
    requires r < 60
    requires t == NatToString(q) + ":" + PadStart2(NatToString(r))
    ensures ParseClock(t) == Some(q * 60 + r)
  {
    var m, ss := NatToString(q), PadStart2(NatToString(r));
    PaddedTwoDigits(r);
    ClockShape(m, ss, t);
    TwoDigits(ss);
    ParseNatToString(q);
    ReadClock(t, m, q, r, |m|);
  }

  /** A clock label determines its number of seconds: reading it back gives the input. */
  lemma {:induction false} ClockRoundTrip(seconds: nat)
    ensures ParseClock(FormatClock(seconds)) == Some(seconds)
  {
    var q, r := seconds / 60, seconds % 60;
    assert q * 60 + r == seconds;
    ClockOfParts(q, r, FormatClock(seconds));
  }

  /** Different numbers of seconds never share a clock label. */
  lemma ClockInjective(a: nat, b: nat)
    requires FormatClock(a) == FormatClock(b)
    ensures a == b
  {
    ClockRoundTrip(a);
    ClockRoundTrip(b);
  }

  /** The `formatDuration(minutes)` label: `${h}h ${m}min` when there is a whole hour, else `${m}min`. */
  function FormatMinutes(minutes: nat): (r: string)
    ensures |r| >= 4 && r[|r| - 3] == 'm' && r[|r| - 2] == 'i' && r[|r| - 1] == 'n'
    ensures minutes < 60 <==> AllDigits(r[..|r| - 3])
  {
    var hours := minutes / 60;
    var mins := minutes % 60;
    if hours > 0 then
      var h, m := NatToString(hours), NatToString(mins);
      HoursLabelShape(h, m, h + "h " + m + "min");
      assert !IsDigit((h + "h " + m + "min")[|h|]);
      h + "h " + m + "min"
    else
      MinSuffix(NatToString(mins), NatToString(mins) + "min");
      NatToString(mins) + "min"
  }

  /** Reads a `Hh Mmin` or `Mmin` label back into minutes. */
  function ParseHoursMinutes(t: string): Option<nat> {
    if |t| < 3 || t[|t| - 3] != 'm' || t[|t| - 2] != 'i' || t[|t| - 1] != 'n' then None
    else
      var body := t[..|t| - 3];
      var k := LeadingDigits(body);
      if k == 0 then None
      else if k == |body| then ReadNumber(body)
      else if k + 2 < |body| && body[k] == 'h' && body[k + 1] == ' ' && ReadNumber(body[k + 2..]).Some?
      then Some(ReadNumber(body[..k]).value * 60 + ReadNumber(body[k + 2..]).value)
      else None
  }

  /** What `ParseHoursMinutes` needs to know about a label to read `a` hours and `b` minutes. */
  lemma ReadHours(t: string, body: string, h: string, m: string, k: nat, a: nat, b: nat)
    requires |t| >= 3 && t[..|t| - 3] == body && t[|t| - 3] == 'm' && t[|t| - 2] == 'i' && t[|t| - 1] == 'n'
    requires LeadingDigits(body) == k && 1 <= k && k + 2 < |body|
    requires body[k] == 'h' && body[k + 1] == ' ' && body[..k] == h && body[k + 2..] == m
    requires ReadNumber(h) == Some(a) && ReadNumber(m) == Some(b)
    ensures ParseHoursMinutes(t) == Some(a * 60 + b)
  {
  }

  /** What `ParseHoursMinutes` needs to know about a label to read `a` minutes. */
  lemma ReadMinutes(t: string, body: string, a: nat)
    requires |t| >= 3 && t[..|t| - 3] == body && t[|t| - 3] == 'm' && t[|t| - 2] == 'i' && t[|t| - 1] == 'n'
    requires body != [] && LeadingDigits(body) == |body|
    requires ReadNumber(body) == Some(a)
    ensures ParseHoursMinutes(t) == Some(a)
  {
  }

  lemma MinSuffix(body: string, t: string)
    requires t == body + "min"
    ensures |t| >= 3 && t[..|t| - 3] == body && t[|t| - 3] == 'm' && t[|t| - 2] == 'i' && t[|t| - 1] == 'n'
  {
  }

  lemma HoursBodyShape(h: string, m: string, body: string)
    requires |h| >= 1 && AllDigits(h) && |m| >= 1
    requires body == h + "h " + m
    ensures LeadingDigits(body) == |h| && |h| + 2 < |body|
    ensures body[..|h|] == h && body[|h|] == 'h' && body[|h| + 1] == ' ' && body[|h| + 2..] == m
  {
    assert body == h + ("h " + m);
    LeadingDigitsOfConcat(h, "h " + m);
  }

  /** The pieces of a `Hh Mmin` label, found where `ParseHoursMinutes` looks for them. */
  lemma HoursLabelShape(h: string, m: string, t: string)
    requires |h| >= 1 && AllDigits(h) && |m| >= 1
    requires t == h + "h " + m + "min"
    ensures |t| >= 3 && t[|t| - 3] == 'm' && t[|t| - 2] == 'i' && t[|t| - 1] == 'n'
    ensures var body := t[..|t| - 3];
      && LeadingDigits(body) == |h| && |h| + 2 < |body|
      && body[..|h|] == h && body[|h|] == 'h' && body[|h| + 1] == ' ' && body[|h| + 2..] == m
  {
    MinSuffix(h + "h " + m, t);
    HoursBodyShape(h, m, t[..|t| - 3]);
  }

  /** Digits and "min" read back as minutes. */
  lemma ParseMinutesOf(m: string, t: string)
    requires |m| >= 1 && AllDigits(m)
    requires t == m + "min"
    ensures ParseHoursMinutes(t) == Some(ParseNat(m))
  {
    MinSuffix(m, t);
    ReadNumberOf(m);
    ReadMinutes(t, m, ParseNat(m));
  }

  /** The label of `q` hours and `r` minutes reads back as `q * 60 + r`. */
  lemma HoursLabelOfParts(q: nat, r: nat, t: string)
    requires q > 0
    requires t == NatToString(q) + "h " + NatToString(r) + "min"
    ensures ParseHoursMinutes(t) == Some(q * 60 + r)
  {
    var h, m := NatToString(q), NatToString(r);
    HoursLabelShape(h, m, t);
    ReadNumberOf(h);
    ReadNumberOf(m);
    ParseNatToString(q);
    ParseNatToString(r);
    ReadHours(t, t[..|t| - 3], h, m, |h|, q, r);
  }

  /** The label of `r` minutes alone reads back as `r`. */
  lemma MinutesLabelOf(r: nat, t: string)
    requires t == NatToString(r) + "min"
    ensures ParseHoursMinutes(t) == Some(r)
  {
    ParseNatToString(r);
    ParseMinutesOf(NatToString(r), t);
  }

  /** A minutes label determines its number of minutes. */
  lemma {:induction false} MinutesRoundTrip(minutes: nat)
    ensures ParseHoursMinutes(FormatMinutes(minutes)) == Some(minutes)
  {
    var q, r := minutes / 60, minutes % 60;
    assert q * 60 + r == minutes;
    if q > 0 {
      HoursLabelOfParts(q, r, FormatMinutes(minutes));
    } else {
      MinutesLabelOf(r, FormatMinutes(minutes));
    }
  }

  /** The course's `formatDuration(seconds)`: whole hours, then whole minutes of the rest. */
  function FormatSeconds(seconds: nat): (r: string)
    ensures r == FormatMinutes(seconds / 60)
  {
    WholeMinutesSplit(seconds);
    var hours := seconds / 3600;
    var mins := (seconds % 3600) / 60;
    if hours > 0 then NatToString(hours) + "h " + NatToString(mins) + "min"
    else NatToString(mins) + "min"
  }

  lemma DivMod60(n: nat, q: nat, r: nat)
    requires r < 60 && n == q * 60 + r
    ensures n / 60 == q && n % 60 == r
  {
  }

  /** Whole hours and leftover minutes of a number of seconds, computed through whole minutes. */
  lemma WholeMinutesSplit(seconds: nat)
    ensures (seconds / 60) / 60 == seconds / 3600
    ensures (seconds / 60) % 60 == (seconds % 3600) / 60
  {
    var h := seconds / 3600;
    var rest := seconds % 3600;
    var a := rest / 60;
    var b := rest % 60;
    assert seconds == (h * 60 + a) * 60 + b;
    DivMod60(seconds, h * 60 + a, b);
    DivMod60(h * 60 + a, h, a);
  }

  /** The seconds label is the minutes label of the whole minutes: leftover seconds are dropped. */
  lemma {:induction false} SecondsLabelIsWholeMinutes(seconds: nat)
    ensures FormatSeconds(seconds) == FormatMinutes(seconds / 60)
    ensures ParseHoursMinutes(FormatSeconds(seconds)) == Some(seconds / 60)
  {
    WholeMinutesSplit(seconds);
    MinutesRoundTrip(seconds / 60);
  }
}
