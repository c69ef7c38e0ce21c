/** The strings of dates: splitting them at separators, and their decimal fields. */
module FormStrings {
  import opened Wrappers

  function Split(s: string, separator: char): (parts: seq<string>)
    ensures parts != []
  {
    if s == "" then [""]
    else if s[0] == separator then [""] + Split(s[1..], separator)
    else
      var rest := Split(s[1..], separator);
      [[s[0]] + rest[0]] + rest[1..]
  }

  lemma {:induction false} SplitWhole(s: string, separator: char)
    requires separator !in s
    ensures Split(s, separator) == [s]
  {
    if s != "" {
      SplitWhole(s[1..], separator);
      assert [s[0]] + s[1..] == s;
    }
  }

  lemma {:induction false} SplitFirst(s: string, separator: char, rest: string)
    requires separator !in s
    ensures Split(s + ([separator] + rest), separator) == [s] + Split(rest, separator)
  {
    var all := s + ([separator] + rest);
    if s == "" {
      assert all[1..] == rest && all[0] == separator;
    } else {
      assert all[1..] == s[1..] + ([separator] + rest) && all[0] == s[0];
      SplitFirst(s[1..], separator, rest);
      assert [s[0]] + s[1..] == s;
    }
  }

  predicate IsDigits(s: string) {
    forall i :: 0 <= i < |s| ==> '0' <= s[i] <= '9'
  }

  function Value(s: string): nat
    requires IsDigits(s)
  {
    if s == "" then 0 else Value(s[..|s| - 1]) * 10 + (s[|s| - 1] as int - '0' as int)
  }

  /** What strings that are not plain digits convert to: a finite number, or none. */
  type Numbers = string -> Option<real>

  /** The finite number that a field converts to, if any. */
  function Number(s: string, others: Numbers): Option<real> {
    if s != "" && IsDigits(s) then Some(Value(s) as real) else others(s)
  }

  /** The last `width` decimal digits of `n`. */
  function Pad(n: nat, width: nat): (s: string)
    ensures |s| == width && IsDigits(s)
  {
    if width == 0 then "" else Pad(n / 10, width - 1) + [('0' as int + n % 10) as char]
  }

  predicate Fits(n: nat, width: nat) {
    if width == 0 then n == 0 else Fits(n / 10, width - 1)
  }

  lemma {:induction false} ValueOfPad(n: nat, width: nat)
    requires Fits(n, width)
    ensures Value(Pad(n, width)) == n
  {
    if width > 0 {
      ValueOfPad(n / 10, width - 1);
      assert Pad(n, width)[..width - 1] == Pad(n / 10, width - 1);
      assert Pad(n, width)[width - 1] as int - '0' as int == n % 10;
    }
  }

  lemma TwoDigitsFit(n: nat)
    requires n <= 99
    ensures Fits(n, 2)
  {
  }

  lemma FourDigitsFit(n: nat)
    requires n <= 9999
    ensures Fits(n, 4)
  {
    TwoDigitsFit(n / 10 / 10);
    assert Fits(n / 10, 3);
  }

  function Fields(day: string, month: string, year: string): string {
    day + ("/" + (month + ("/" + year)))
  }

  lemma SplitFields(day: string, month: string, year: string)
    requires '/' !in day && '/' !in month && '/' !in year
    ensures Split(Fields(day, month, year), '/') == [day, month, year]
  {
    SplitFirst(day, '/', month + ("/" + year));
    SplitFirst(month, '/', year);
    SplitWhole(year, '/');
  }

  /** A date as the form shows it. */
  function FormText(day: nat, month: nat, year: nat): string {
    Fields(Pad(day, 2), Pad(month, 2), Pad(year, 4))
  }

  function IsoYear(y: int): string {
    if 0 <= y <= 9999 then Pad(y, 4) else if y > 9999 then "+" + Pad(y, 6) else "-" + Pad(-y, 6)
  }

  /** Midnight UTC of a date, as `toISOString` writes it. */
  function IsoText(day: nat, month: nat, year: int): string {
    IsoYear(year) + ("-" + (Pad(month, 2) + ("-" + Pad(day, 2)))) + ("T" + "00:00:00.000Z")
  }

  /** A date as it is shown: `month` counts from one. */
  datatype Shown = Shown(day: nat, month: nat, year: int)

  /** The dates with all their digits in the form. */
  predicate FitsForm(d: Shown) {
    d.day <= 99 && d.month <= 99 && 0 <= d.year <= 9999
  }

  function Form(d: Shown): string
    requires d.year >= 0
  {
    FormText(d.day, d.month, d.year)
  }

  /** The date that a day, a month and a year stand for, or none. */
  type Calendar = (real, real, real) -> Option<Shown>

  datatype Failure = InvalidTime

  function ToApiDateTime(formDate: Option<string>, others: Numbers, calendar: Calendar): Result<string, Failure> {
    if formDate.None? || formDate.value == "" then Ok("")
    else
      var parts := Split(formDate.value, '/');
      if |parts| < 3 || parts[0] == "" || parts[1] == "" || parts[2] == "" then Ok("")
      else if Number(parts[0], others).None? || Number(parts[1], others).None? || Number(parts[2], others).None? then
        Err(InvalidTime)
      else
        match calendar(Number(parts[0], others).value, Number(parts[1], others).value, Number(parts[2], others).value)
        case Some(d) => Ok(IsoText(d.day, d.month, d.year))
        case None => Err(InvalidTime)
  }

  function ToFormDate(dateTime: string): string {
    var parts := Split(Split(dateTime, 'T')[0], '-');
    if |parts| >= 3 && parts[0] != "" && parts[1] != "" && parts[2] != ""
    then Fields(parts[2], parts[1], parts[0])
    else dateTime
  }

  /** What a form field becomes when it is sent and shown again. */
  function Redisplayed(formDate: string, others: Numbers, calendar: Calendar): Option<string> {
    match ToApiDateTime(Some(formDate), others, calendar)
    case Ok(dateTime) => Some(ToFormDate(dateTime))
    case Err(_) => None
  }

  /** The year is written with four digits if it has no more, else signed with six. */
  lemma IsoYearReads(y: int)
    requires -999_999 <= y <= 999_999
    ensures 0 <= y <= 9999 ==> |IsoYear(y)| == 4 && IsDigits(IsoYear(y)) && Value(IsoYear(y)) == y
    ensures y < 0 || y > 9999 ==>
      && |IsoYear(y)| == 7 && IsoYear(y)[0] == (if y < 0 then '-' else '+')
      && IsDigits(IsoYear(y)[1..]) && Value(IsoYear(y)[1..]) == if y < 0 then -y else y
  {
    var n := if y < 0 then -y else y;
    if n <= 9999 {
      FourDigitsFit(n);
      ValueOfPad(n, 4);
    }
    FourDigitsFit(n / 10 / 10);
    assert Fits(n / 10, 5);
    ValueOfPad(n, 6);
  }

  lemma FieldsSpelt(day: string, month: string, year: string)
    ensures day + "/" + month + "/" + year == Fields(day, month, year)
  {
  }

  lemma IsoSpelt(year: string, month: string, day: string)
    ensures year + "-" + month + "-" + day + "T00:00:00.000Z" ==
      year + ("-" + (month + ("-" + day))) + ("T" + "00:00:00.000Z")
  {
    assert "T" + "00:00:00.000Z" == "T00:00:00.000Z";
  }

  /** The text of a date in the form, and that of its midnight UTC. */
  lemma SpeltOut(day: nat, month: nat, year: nat)
    requires year <= 9999
    ensures FormText(day, month, year) == Pad(day, 2) + "/" + Pad(month, 2) + "/" + Pad(year, 4)
    ensures IsoText(day, month, year) ==
      Pad(year, 4) + "-" + Pad(month, 2) + "-" + Pad(day, 2) + "T00:00:00.000Z"
  {
    FieldsSpelt(Pad(day, 2), Pad(month, 2), Pad(year, 4));
    IsoSpelt(Pad(year, 4), Pad(month, 2), Pad(day, 2));
  }

  /** Three fields that convert to numbers are sent as midnight of the date they stand for. */
  lemma NumbersSent(day: string, month: string, year: string, others: Numbers, calendar: Calendar, d: Shown)
    requires day != "" && month != "" && year != "" && '/' !in day && '/' !in month && '/' !in year
    requires Number(day, others).Some? && Number(month, others).Some? && Number(year, others).Some?
    requires calendar(Number(day, others).value, Number(month, others).value, Number(year, others).value) == Some(d)
    ensures ToApiDateTime(Some(Fields(day, month, year)), others, calendar) == Ok(IsoText(d.day, d.month, d.year))
  {
    SplitFields(day, month, year);
  }

  lemma DashedParts(y: string, m: string, d: string)
    requires '-' !in y && '-' !in m && '-' !in d
    ensures Split(y + ("-" + (m + ("-" + d))), '-') == [y, m, d]
  {
    SplitFirst(y, '-', m + ("-" + d));
    SplitFirst(m, '-', d);
    SplitWhole(d, '-');
  }

  /** A date-time with a year of four digits is shown as its date. */
  lemma IsoToForm(day: nat, month: nat, year: int)
    requires 0 <= year <= 9999
    ensures ToFormDate(IsoText(day, month, year)) == FormText(day, month, year)
  {
    var y, m, d := Pad(year, 4), Pad(month, 2), Pad(day, 2);
    SplitFirst(y + ("-" + (m + ("-" + d))), 'T', "00:00:00.000Z");
    DashedParts(y, m, d);
  }

  /** Three fields that convert to numbers are shown again as the date they stand for. */
  lemma NumbersRedisplayed(day: string, month: string, year: string, others: Numbers, calendar: Calendar, d: Shown)
    requires day != "" && month != "" && year != "" && '/' !in day && '/' !in month && '/' !in year
    requires Number(day, others).Some? && Number(month, others).Some?
    requires Number(year, others).Some? && 0 <= d.year <= 9999
    requires calendar(Number(day, others).value, Number(month, others).value, Number(year, others).value) == Some(d)
    ensures Redisplayed(Fields(day, month, year), others, calendar) == Some(Form(d))
  {
    NumbersSent(day, month, year, others, calendar, d);
    IsoToForm(d.day, d.month, d.year);
  }

  /** A zero-padded date is shown again as the date it stands for. */
  lemma FormRedisplayed(c: Shown, others: Numbers, calendar: Calendar, d: Shown)
    requires FitsForm(c) && FitsForm(d) && calendar(c.day as real, c.month as real, c.year as real) == Some(d)
    ensures Redisplayed(Form(c), others, calendar) == Some(Form(d))
    ensures c.year != d.year ==> Form(c) != Form(d)
  {
    FieldsFit(c.day, c.month, c.year, others);
    NumbersRedisplayed(Pad(c.day, 2), Pad(c.month, 2), Pad(c.year, 4), others, calendar, d);
    if Form(c) == Form(d) {
      FormYear(c.day, c.month, c.year, d.day, d.month, d.year);
    }
  }

  lemma FieldsFit(day: nat, month: nat, year: nat, others: Numbers)
    requires day <= 99 && month <= 99 && year <= 9999
    ensures Number(Pad(day, 2), others) == Some(day as real) && Number(Pad(month, 2), others) == Some(month as real)
    ensures Number(Pad(year, 4), others) == Some(year as real)
  {
    TwoDigitsFit(day);
    TwoDigitsFit(month);
    FourDigitsFit(year);
    ValueOfPad(day, 2);
    ValueOfPad(month, 2);
    ValueOfPad(year, 4);
  }

  /** Different years are shown differently. */
  lemma FormYear(d1: nat, m1: nat, y1: nat, d2: nat, m2: nat, y2: nat)
    requires y1 <= 9999 && y2 <= 9999 && FormText(d1, m1, y1) == FormText(d2, m2, y2)
    ensures y1 == y2
  {
    assert FormText(d1, m1, y1)[6..] == Pad(y1, 4) && FormText(d2, m2, y2)[6..] == Pad(y2, 4);
    FourDigitsFit(y1);
    FourDigitsFit(y2);
    ValueOfPad(y1, 4);
    ValueOfPad(y2, 4);
  }
}
