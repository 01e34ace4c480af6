/** Duration and date labels of the history page (src/app/history/page.tsx). */
module HistoryFormat {
  import opened Js
  import opened Numerals

  /** JavaScript `%` on integers: the remainder takes the sign of the dividend. */
  function JsRem(a: int, b: int): (r: int)
    requires b > 0
    ensures a >= 0 ==> r == a % b
    ensures a < 0 ==> -b < r <= 0
  {
    if a >= 0 then a % b else -((-a) % b)
  }

  datatype Clock = Clock(hours: int, mins: int, secs: int)

  /** Whole hours, the minutes and the seconds left over add back up to the duration. */
  lemma ClockParts(seconds: int)
    requires seconds >= 0
    ensures var h, m, s := seconds / 3600, (seconds % 3600) / 60, seconds % 60;
            h >= 0 && 0 <= m < 60 && 0 <= s < 60 && h * 3600 + m * 60 + s == seconds
  {
    var h, r := seconds / 3600, seconds % 3600;
    var m, x := r / 60, r % 60;
    assert r == 60 * m + x && 0 <= m < 60;
    assert seconds == (60 * h + m) * 60 + x;
    DivModUnique(60 * h + m, x, seconds / 60, seconds % 60, 60);
  }

  /** `Math.floor(s / 3600)`, `Math.floor((s % 3600) / 60)` and `s % 60`. */
  function Breakdown(seconds: int): (c: Clock)
    ensures seconds >= 0 ==>
              c.hours >= 0 && 0 <= c.mins < 60 && 0 <= c.secs < 60
              && c.hours * 3600 + c.mins * 60 + c.secs == seconds
  {
    if seconds >= 0 then ClockParts(seconds); Clock(seconds / 3600, (seconds % 3600) / 60, seconds % 60)
    else Clock(seconds / 3600, JsRem(seconds, 3600) / 60, JsRem(seconds, 60))
  }

  /** `formatTime(seconds)`: "--" for null or 0, "{h}h {m}m" from one hour up,
      otherwise "{m}m {s}s", or "{s}s" under a minute. */
  function FormatTime(seconds: Option<int>): (shown: string)
    ensures shown == "--" <==> seconds.None? || seconds.value == 0
  {
    if seconds.None? || seconds.value == 0 then "--"
    else
      var c := Breakdown(seconds.value);
      var shown :=
        if c.hours > 0 then IntToString(c.hours) + "h " + IntToString(c.mins) + "m"
        else ClockLabel(c.mins, c.secs);
      assert shown[|shown| - 1] != '-';
      shown
  }

  /** The label under an hour: "{m}m {s}s", or "{s}s" under a minute, from its minutes and seconds. */
  function ClockLabel(mins: int, secs: int): string {
    if mins > 0 then IntToString(mins) + "m " + IntToString(secs) + "s" else IntToString(secs) + "s"
  }

  /** How `formatDate` labels a date: a relative text, or the locale's date format. */
  datatype DateLabel = Relative(text: string) | LocaleDate

  /** `Math.floor(diffMs / (1000 * 60 * 60 * 24))` */
  function DiffDays(diffMs: int): (days: int)
    ensures days * 86400000 <= diffMs < (days + 1) * 86400000
  {
    diffMs / (1000 * 60 * 60 * 24)
  }

  /** `formatDate` given the whole days since the date: "Today" exactly for 0
      days, "Yesterday" exactly for 1, the locale's date exactly from 30 days
      on, and between a week and a month the whole weeks, one to four. */
  function FormatDate(diffDays: int): (shown: DateLabel)
    ensures shown.LocaleDate? <==> diffDays >= 30
    ensures shown == Relative("Today") <==> diffDays == 0
    ensures shown == Relative("Yesterday") <==> diffDays == 1
    ensures (diffDays < 0 || 2 <= diffDays < 7) ==> shown == Relative(IntToString(diffDays) + " days ago")
    ensures 7 <= diffDays < 30 ==>
              shown == Relative(IntToString(diffDays / 7) + " weeks ago") && 1 <= diffDays / 7 <= 4
  {
    if diffDays == 0 then Relative("Today")
    else if diffDays == 1 then Relative("Yesterday")
    else if diffDays < 7 then
      var text := IntToString(diffDays) + " days ago";
      assert text[|text| - 1] == 'o' && "Today"[4] == 'y' && "Yesterday"[8] == 'y';
      Relative(text)
    else if diffDays < 30 then
      var text := IntToString(diffDays / 7) + " weeks ago";
      assert text[|text| - 1] == 'o' && "Today"[4] == 'y' && "Yesterday"[8] == 'y';
      Relative(text)
    else LocaleDate
  }

  /** Rounding a duration down to the minute keeps its hours and its minutes. */
  lemma BreakdownDropSeconds(seconds: int)
    requires seconds >= 3600
    ensures var c, ct := Breakdown(seconds), Breakdown(seconds - seconds % 60);
            c.hours > 0 && ct.hours == c.hours && ct.mins == c.mins
  {
    var t := seconds - seconds % 60;
    var c, ct := Breakdown(seconds), Breakdown(t);
    var hm := c.hours * 60 + c.mins;
    assert hm * 60 + c.secs == seconds;
    assert c.secs == seconds % 60;
    assert hm * 60 + 0 == t;
    assert (ct.hours * 60 + ct.mins) * 60 + ct.secs == t;
    DivModUnique(hm, 0, ct.hours * 60 + ct.mins, ct.secs, 60);
    DivModUnique(c.hours, c.mins, ct.hours, ct.mins, 60);
    assert c.hours * 3600 > 0;
  }

  /** From one hour up the label shows hours and minutes and drops the seconds. */
  lemma HoursDropSeconds(seconds: int, t: int)
    requires seconds >= 3600 && t == seconds - seconds % 60
    ensures FormatTime(Some(seconds)) == FormatTime(Some(t))
    ensures var c := Breakdown(seconds);
            FormatTime(Some(seconds)) == IntToString(c.hours) + "h " + IntToString(c.mins) + "m"
  {
    BreakdownDropSeconds(seconds);
    SameHoursSameLabel(seconds, t);
  }

  lemma SameHoursSameLabel(a: int, b: int)
    requires a != 0 && b != 0
    requires Breakdown(a).hours > 0 && Breakdown(a).hours == Breakdown(b).hours
    requires Breakdown(a).mins == Breakdown(b).mins
    ensures FormatTime(Some(a)) == FormatTime(Some(b))
            == IntToString(Breakdown(a).hours) + "h " + IntToString(Breakdown(a).mins) + "m"
  {
  }

  /** The digits in front of a non-digit are the leading digits of the whole. */
  lemma {:induction false} LeadingDigitsBefore(x: string, c: char, p: string)
    requires AllDigits(x) && !IsDigit(c)
    ensures LeadingDigits(x + [c] + p) == x
  {
    if x != [] {
      assert (x + [c] + p)[1..] == x[1..] + [c] + p;
      LeadingDigitsBefore(x[1..], c, p);
    }
  }

  lemma SplitAtMarker(x: string, y: string, c: char, p: string, q: string)
    requires AllDigits(x) && AllDigits(y) && !IsDigit(c)
    requires x + [c] + p == y + [c] + q
    ensures x == y && p == q
  {
    LeadingDigitsBefore(x, c, p);
    LeadingDigitsBefore(y, c, q);
    assert p == (x + [c] + p)[|x| + 1..];
    assert q == (y + [c] + q)[|y| + 1..];
  }

  lemma MinutesLabelDiffers(m: string, s: string, s': string)
    requires AllDigits(m) && AllDigits(s) && AllDigits(s')
    ensures m + "m " + s + "s" != s' + "s"
  {
    var a := m + "m " + s + "s";
    var b := s' + "s";
    assert a == m + ['m'] + (" " + s + "s");
    assert b == s' + ['s'] + [];
    LeadingDigitsBefore(m, 'm', " " + s + "s");
    LeadingDigitsBefore(s', 's', []);
    assert a[|LeadingDigits(a)|] == 'm';
    assert b[|LeadingDigits(b)|] == 's';
  }

  /** Two "{m}m {s}s" labels agree only when their minutes and seconds do. */
  lemma MinutesLabelsAgree(ma: string, sa: string, mb: string, sb: string)
    requires AllDigits(ma) && AllDigits(mb)
    requires ma + "m " + sa + "s" == mb + "m " + sb + "s"
    ensures ma == mb && sa == sb
  {
    assert ma + ['m'] + (" " + sa + "s") == ma + "m " + sa + "s";
    assert mb + ['m'] + (" " + sb + "s") == mb + "m " + sb + "s";
    SplitAtMarker(ma, mb, 'm', " " + sa + "s", " " + sb + "s");
    assert sa == (" " + sa + "s")[1..|sa| + 1];
    assert sb == (" " + sb + "s")[1..|sb| + 1];
  }

  /** Two "{s}s" labels agree only when their seconds do. */
  lemma SecondsLabelsAgree(sa: string, sb: string)
    requires sa + "s" == sb + "s"
    ensures sa == sb
  {
    assert sa == (sa + "s")[..|sa|];
    assert sb == (sb + "s")[..|sb|];
  }

  /** Under an hour the label is "{m}m {s}s", or "{s}s" under a minute. */
  lemma UnderAnHourLabel(a: int)
    requires 0 < a < 3600
    ensures var c := Breakdown(a);
            c.hours == 0 && 0 <= c.mins && 0 <= c.secs && c.mins * 60 + c.secs == a
            && FormatTime(Some(a)) == ClockLabel(c.mins, c.secs)
  {
  }

  /** Two labels under an hour agree only when their minutes and seconds do. */
  lemma ClockLabelsAgree(ma: int, sa: int, mb: int, sb: int)
    requires ma >= 0 && sa >= 0 && mb >= 0 && sb >= 0
    requires ClockLabel(ma, sa) == ClockLabel(mb, sb)
    ensures ma == mb && sa == sb
  {
    var xa, ya := IntToString(ma), IntToString(sa);
    var xb, yb := IntToString(mb), IntToString(sb);
    if ma > 0 && mb > 0 {
      MinutesLabelsAgree(xa, ya, xb, yb);
      IntToStringInjective(ma, mb);
      IntToStringInjective(sa, sb);
    } else if ma > 0 {
      MinutesLabelDiffers(xa, ya, yb);
    } else if mb > 0 {
      MinutesLabelDiffers(xb, yb, ya);
    } else {
      SecondsLabelsAgree(ya, yb);
      IntToStringInjective(sa, sb);
    }
  }

  /** Under an hour the label loses nothing: different durations get different labels. */
  lemma FormatTimeInjectiveUnderAnHour(a: int, b: int)
    requires 0 < a < 3600 && 0 < b < 3600
    requires FormatTime(Some(a)) == FormatTime(Some(b))
    ensures a == b
  {
    UnderAnHourLabel(a);
    UnderAnHourLabel(b);
    var ca, cb := Breakdown(a), Breakdown(b);
    ClockLabelsAgree(ca.mins, ca.secs, cb.mins, cb.secs);
  }
}
