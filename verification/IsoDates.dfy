/** Dates written `yyyy-MM-dd`: comparing the strings is comparing the dates. */
module IsoDates {
  import opened CivilDate
  import opened FileNames
  import opened FormStrings

  /** A real date whose year has four digits. */
  predicate Writable(c: Civil) {
    Valid(c) && 0 <= c.year <= 9999
  }

  function DateText(year: nat, month: nat, day: nat): string {
    Pad(year, 4) + ("-" + (Pad(month, 2) + ("-" + Pad(day, 2))))
  }

  function IsoDate(c: Civil): string
    requires Writable(c)
  {
    DateText(c.year, c.month + 1, c.day)
  }

  /** Among strings of one length, the first part decides before the second. */
  lemma {:induction false} LessConcat(s: string, t: string, u: string, v: string)
    requires |s| == |t|
    ensures Less(s + u, t + v) <==> Less(s, t) || (s == t && Less(u, v))
  {
    if s == "" {
      assert s + u == u && t + v == v;
    } else {
      LessConcat(s[1..], t[1..], u, v);
      assert (s + u)[1..] == s[1..] + u && (t + v)[1..] == t[1..] + v;
      assert s == [s[0]] + s[1..] && t == [t[0]] + t[1..];
    }
  }

  lemma LessDigit(m: nat, n: nat)
    requires m <= 9 && n <= 9
    ensures Less([('0' as int + m) as char], [('0' as int + n) as char]) <==> m < n
  {
  }

  lemma PadInjective(m: nat, n: nat, width: nat)
    requires Fits(m, width) && Fits(n, width) && Pad(m, width) == Pad(n, width)
    ensures m == n
  {
    ValueOfPad(m, width);
    ValueOfPad(n, width);
  }

  /** Zero-padded numbers of one width compare as numbers. */
  lemma {:induction false} PadOrder(m: nat, n: nat, width: nat)
    requires Fits(m, width) && Fits(n, width)
    ensures Less(Pad(m, width), Pad(n, width)) <==> m < n
    ensures Pad(m, width) == Pad(n, width) <==> m == n
  {
    if Pad(m, width) == Pad(n, width) {
      PadInjective(m, n, width);
    }
    if width > 0 {
      PadOrder(m / 10, n / 10, width - 1);
      LessConcat(Pad(m / 10, width - 1), Pad(n / 10, width - 1),
                 [('0' as int + m % 10) as char], [('0' as int + n % 10) as char]);
      LessDigit(m % 10, n % 10);
    }
  }

  lemma ConcatInjective(s: string, u: string, t: string, v: string)
    requires |s| == |t|
    ensures s + u == t + v <==> s == t && u == v
  {
    if s + u == t + v {
      assert (s + u)[..|s|] == s && (t + v)[..|t|] == t && (s + u)[|s|..] == u && (t + v)[|t|..] == v;
    }
  }

  /** Two fields joined by a dash compare by the first field, then by the second. */
  lemma JoinOrder(s: string, u: string, t: string, v: string)
    requires |s| == |t|
    ensures Less(s + ("-" + u), t + ("-" + v)) <==> Less(s, t) || (s == t && Less(u, v))
    ensures s + ("-" + u) == t + ("-" + v) <==> s == t && u == v
  {
    LessConcat(s, t, "-" + u, "-" + v);
    ConcatInjective(s, "-" + u, t, "-" + v);
    ConcatInjective("-", u, "-", v);
  }

  /** Which of two dates is earlier, field by field. */
  predicate Earlier(y: int, m: int, d: int, y': int, m': int, d': int) {
    y < y' || (y == y' && (m < m' || (m == m' && d < d')))
  }

  lemma DateTextOrder(y: nat, m: nat, d: nat, y': nat, m': nat, d': nat)
    requires y <= 9999 && y' <= 9999 && m <= 99 && m' <= 99 && d <= 99 && d' <= 99
    ensures Less(DateText(y, m, d), DateText(y', m', d')) <==> Earlier(y, m, d, y', m', d')
    ensures DateText(y, m, d) == DateText(y', m', d') ==> y == y' && m == m' && d == d'
  {
    FourDigitsFit(y); FourDigitsFit(y');
    TwoDigitsFit(m); TwoDigitsFit(m');
    TwoDigitsFit(d); TwoDigitsFit(d');
    PadOrder(y, y', 4);
    PadOrder(m, m', 2);
    PadOrder(d, d', 2);
    JoinOrder(Pad(y, 4), Pad(m, 2) + ("-" + Pad(d, 2)), Pad(y', 4), Pad(m', 2) + ("-" + Pad(d', 2)));
    JoinOrder(Pad(m, 2), Pad(d, 2), Pad(m', 2), Pad(d', 2));
  }

  predicate Before(a: Civil, b: Civil) {
    Earlier(a.year, a.month, a.day, b.year, b.month, b.day)
  }

  /** The later of two dates has the greater day number. */
  lemma EarlierDay(a: Civil, b: Civil)
    requires Valid(a) && Valid(b) && Before(a, b)
    ensures DayOf(a) < DayOf(b)
  {
    if a.year < b.year {
      EarlierYear(a, b);
    } else if a.month < b.month {
      MonthsAscend(Leap(a.year), a.month + 1, b.month);
    }
  }

  lemma EarlierYear(a: Civil, b: Civil)
    requires Valid(a) && Valid(b) && a.year < b.year
    ensures DayOf(a) < DayOf(b)
  {
    WithinYear(a);
    YearSteps(a.year);
    YearsAscend(a.year + 1, b.year);
  }

  /** A date falls in its year. */
  lemma WithinYear(c: Civil)
    requires Valid(c)
    ensures DayFromYear(c.year) <= DayOf(c) < DayFromYear(c.year) + DaysInYear(c.year)
  {
    YearOfMonths(Leap(c.year));
    MonthsAscend(Leap(c.year), c.month + 1, 12);
  }

  lemma CalendarOrder(a: Civil, b: Civil)
    requires Valid(a) && Valid(b)
    ensures Before(a, b) <==> DayOf(a) < DayOf(b)
    ensures a == b <==> DayOf(a) == DayOf(b)
  {
    if Before(a, b) {
      EarlierDay(a, b);
    } else if Before(b, a) {
      EarlierDay(b, a);
    }
  }

  lemma TextOrder(a: Civil, b: Civil)
    requires Writable(a) && Writable(b)
    ensures Less(IsoDate(a), IsoDate(b)) <==> Before(a, b)
    ensures IsoDate(a) == IsoDate(b) <==> a == b
  {
    DateTextOrder(a.year, a.month + 1, a.day, b.year, b.month + 1, b.day);
  }

  /** String order on `yyyy-MM-dd` agrees with the calendar. */
  lemma TextOrderIsCalendarOrder(a: Civil, b: Civil)
    requires Writable(a) && Writable(b)
    ensures Less(IsoDate(a), IsoDate(b)) <==> DayOf(a) < DayOf(b)
    ensures IsoDate(a) == IsoDate(b) <==> DayOf(a) == DayOf(b)
  {
    TextOrder(a, b);
    CalendarOrder(a, b);
  }
}
