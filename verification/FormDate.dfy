/**
 The date field of the request form: which dates survive being sent to the API
 and shown again. The strings are in `FormStrings`, the calendar in `CivilDate`.
 */
module FormDate {
  import opened Wrappers
  import opened CivilDate
  import opened FormStrings

  /** Past this many days from 1970 a time value is not a number. */
  const MAX_DAY: int := 100_000_000

  /** Towards zero, as `Date.UTC` takes its arguments. */
  function Truncated(r: real): int {
    if r >= 0.0 then r.Floor else -(-r).Floor
  }

  /** `Date.UTC` reads a year from 0 to 99 as one of the twentieth century. */
  function FullYear(y: int): int {
    if 0 <= y <= 99 then 1900 + y else y
  }

  /** The day number that a day, a month and a year, in range or not, add up to. */
  function TimeValue(day: real, month: real, year: real): int {
    MakeDay(FullYear(Truncated(year)), Truncated(month - 1.0), Truncated(day))
  }

  predicate InTime(n: int) {
    -MAX_DAY <= n <= MAX_DAY
  }

  /** The first of the month, from which `Date.UTC` counts the days, is a time value. */
  predicate MonthInTime(month: real, year: real) {
    InTime(TimeValue(1.0, month, year))
  }

  /** `new Date(Date.UTC(year, month - 1, day))`, as it is shown. */
  function Utc(day: real, month: real, year: real): Option<Shown> {
    var n := TimeValue(day, month, year);
    if MonthInTime(month, year) && InTime(n) then Some(ShownOf(CivilOf(n))) else None
  }

  function ShownOf(c: Civil): Shown
    requires Valid(c)
  {
    Shown(c.day, c.month + 1, c.year)
  }

  // ---------------------------------------------------------------- the calendar

  lemma DayInRange(c: Civil)
    requires Valid(c) && 0 <= c.year <= 9999
    ensures InTime(DayOf(c))
  {
    YearsAscend(0, c.year);
    YearsAscend(c.year, 10_000);
    FormulaAgrees(0);
    FormulaAgrees(10_000);
  }

  /** Whole numbers are taken as they are. */
  lemma WholeTimeValue(day: nat, month: nat, year: nat)
    ensures TimeValue(day as real, month as real, year as real) == MakeDay(FullYear(year), month as int - 1, day)
  {
    WholeTruncated(day as int);
    WholeTruncated(month as int - 1);
    WholeTruncated(year as int);
    assert month as real - 1.0 == (month as int - 1) as real;
  }

  lemma WholeTruncated(n: int)
    ensures Truncated(n as real) == n
  {
  }

  lemma UtcOfDay(day: real, month: real, year: real, c: Civil)
    requires Valid(c) && 0 <= c.year <= 9999 && TimeValue(day, month, year) == DayOf(c)
    ensures Utc(day, month, year) == if MonthInTime(month, year) then Some(ShownOf(c)) else None
  {
    DayInRange(c);
    CivilOfDay(c);
  }

  /** The first of a month of the form's years is one. */
  lemma MonthOfForm(month: nat, year: nat)
    requires 1 <= month <= 12 && 0 <= year <= 9999
    ensures MonthInTime(month as real, year as real)
  {
    WholeTimeValue(1, month, year);
    var first := Civil(FullYear(year), month - 1, 1);
    MakeDayOfValid(first);
    DayInRange(first);
  }

  /**
   The 29 February of a leap year of the first century is the 1 March nineteen centuries
   later, if that year is none.
   */
  function Later(c: Civil): (d: Civil)
    requires Valid(c) && 0 <= c.year <= 99
    ensures Valid(d) && d.year == 1900 + c.year
  {
    if c.month == 1 && c.day == 29 && !Leap(1900 + c.year) then Civil(1900 + c.year, 2, 1)
    else Civil(1900 + c.year, c.month, c.day)
  }

  lemma MakeDayOfEarly(c: Civil)
    requires Valid(c) && 0 <= c.year <= 99
    ensures MakeDay(1900 + c.year, c.month, c.day) == DayOf(Later(c))
  {
    assert c.month / 12 == 0 && c.month % 12 == c.month;
  }

  /** What becomes of a date whose fields are filled in as it is shown. */
  function UtcOf(d: Shown): Option<Shown> {
    Utc(d.day as real, d.month as real, d.year as real)
  }

  /** Whole fields with a real month and a year of the form. */
  lemma UtcOfWhole(d: Shown, c: Civil)
    requires 1 <= d.month <= 12 && 0 <= d.year <= 9999 && Valid(c) && 0 <= c.year <= 9999
    requires MakeDay(FullYear(d.year), d.month - 1, d.day) == DayOf(c)
    ensures UtcOf(d) == Some(ShownOf(c))
  {
    WholeTimeValue(d.day, d.month, d.year);
    MonthOfForm(d.month, d.year);
    UtcOfDay(d.day as real, d.month as real, d.year as real, c);
  }

  lemma RealDateUtc(c: Civil)
    requires Valid(c) && 100 <= c.year <= 9999
    ensures UtcOf(ShownOf(c)) == Some(ShownOf(c)) && FitsForm(ShownOf(c))
  {
    MakeDayOfValid(c);
    UtcOfWhole(ShownOf(c), c);
  }

  lemma EarlyDateUtc(c: Civil)
    requires Valid(c) && 0 <= c.year <= 99
    ensures UtcOf(ShownOf(c)) == Some(ShownOf(Later(c)))
    ensures FitsForm(ShownOf(c)) && FitsForm(ShownOf(Later(c)))
  {
    MakeDayOfEarly(c);
    UtcOfWhole(ShownOf(c), Later(c));
  }

  // ------------------------------------------------------------------- what is sent

  /** A real date is sent as midnight UTC of that day. */
  lemma SentAsMidnight(c: Civil, others: Numbers)
    requires Valid(c) && 100 <= c.year <= 9999
    ensures ToApiDateTime(Some(FormText(c.day, c.month + 1, c.year)), others, Utc) ==
      Ok(IsoText(c.day, c.month + 1, c.year))
  {
    RealDateUtc(c);
    FieldsFit(c.day, c.month + 1, c.year, others);
    NumbersSent(Pad(c.day, 2), Pad(c.month + 1, 2), Pad(c.year, 4), others, Utc, ShownOf(c));
  }

  /** Without all three fields nothing is sent. */
  lemma IncompleteIsEmpty(day: string, month: string, year: string, others: Numbers)
    requires '/' !in day && '/' !in month && '/' !in year && (day == "" || month == "" || year == "")
    ensures ToApiDateTime(None, others, Utc) == ToApiDateTime(Some(""), others, Utc) == Ok("")
    ensures ToApiDateTime(Some(day), others, Utc) == Ok("")
    ensures ToApiDateTime(Some(Fields(day, month, year)), others, Utc) == Ok("")
  {
    SplitWhole(day, '/');
    SplitFields(day, month, year);
  }

  /** Three fields are sent, unless one converts to no number or they are no time value; then the conversion throws. */
  lemma SentIffInTime(day: string, month: string, year: string, others: Numbers)
    requires day != "" && month != "" && year != "" && '/' !in day && '/' !in month && '/' !in year
    ensures ToApiDateTime(Some(Fields(day, month, year)), others, Utc).Ok? <==>
      && Number(day, others).Some? && Number(month, others).Some? && Number(year, others).Some?
      && MonthInTime(Number(month, others).value, Number(year, others).value)
      && InTime(DayOfFields(day, month, year, others))
  {
    SplitFields(day, month, year);
  }

  /** The last and the first day that is a time value. */
  lemma TimeEnds()
    ensures DayOf(Civil(275_760, 8, 13)) == MAX_DAY && DayOf(Civil(-271_821, 3, 20)) == -MAX_DAY
  {
    FarYears();
    MonthTable(true);
    MonthTable(false);
  }

  lemma FarYears()
    ensures DayFromYear(275_760) == 99_999_744 && DayFromYear(-271_821) == -100_000_109
    ensures Leap(275_760) && !Leap(-271_821)
  {
    FormulaAgrees(275_760);
    FormulaAgrees(-271_821);
  }

  /** Fractions are dropped, whatever the sign. */
  lemma TowardsZero(r: real)
    ensures r >= 0.0 ==> Truncated(r) as real <= r < Truncated(r) as real + 1.0
    ensures Truncated(-r) == -Truncated(r)
  {
  }

  /** What is no date-time is shown as it is. */
  lemma OtherTextIsShown(text: string)
    requires '-' !in text && 'T' !in text
    ensures ToFormDate(text) == text
  {
    SplitWhole(text, 'T');
    SplitWhole(text, '-');
  }

  // -------------------------------------------------------------------- the field

  /** A real date is shown again unchanged. */
  lemma RealDateRedisplayed(c: Civil, others: Numbers)
    requires Valid(c) && 100 <= c.year <= 9999
    ensures Redisplayed(Form(ShownOf(c)), others, Utc) == Some(Form(ShownOf(c)))
  {
    RealDateUtc(c);
    FormRedisplayed(ShownOf(c), others, Utc, ShownOf(c));
  }

  /** A year field of 0000 to 0099 comes back nineteen centuries later. */
  lemma EarlyDateRedisplayed(c: Civil, others: Numbers)
    requires Valid(c) && 0 <= c.year <= 99
    ensures Redisplayed(Form(ShownOf(c)), others, Utc) == Some(Form(ShownOf(Later(c))))
    ensures Form(ShownOf(c)) != Form(ShownOf(Later(c)))
  {
    EarlyDateUtc(c);
    FormRedisplayed(ShownOf(c), others, Utc, ShownOf(Later(c)));
  }

  /**
   The round trip: a valid, zero-padded date with a year of four digits is shown
   again unchanged if and only if its year is at least 0100.
   */
  lemma RoundTripIffFromYear100(c: Civil, others: Numbers)
    requires Valid(c) && 0 <= c.year <= 9999
    ensures Redisplayed(Form(ShownOf(c)), others, Utc) == Some(Form(ShownOf(c))) <==> c.year >= 100
  {
    if c.year >= 100 {
      RealDateRedisplayed(c, others);
    } else {
      EarlyDateRedisplayed(c, others);
    }
  }

  /** The day number that three fields add up to. */
  function DayOfFields(day: string, month: string, year: string, others: Numbers): int
    requires Number(day, others).Some? && Number(month, others).Some? && Number(year, others).Some?
  {
    TimeValue(Number(day, others).value, Number(month, others).value, Number(year, others).value)
  }

  /**
   Any fields that convert to finite numbers, in range or not, negative or with
   fractions, whose day number falls in a year from 0100 to 9999: they are shown again
   as the real date of that day, which is then shown unchanged, if the first of the
   month they name is a time value, and are no date at all if it is not.
   */
  lemma OutOfRangeNormalises(day: string, month: string, year: string, others: Numbers, c: Civil)
    requires day != "" && month != "" && year != "" && '/' !in day && '/' !in month && '/' !in year
    requires Number(day, others).Some? && Number(month, others).Some? && Number(year, others).Some?
    requires c == CivilOf(DayOfFields(day, month, year, others)) && 100 <= c.year <= 9999
    ensures DayOf(c) == DayOfFields(day, month, year, others)
    ensures Redisplayed(Fields(day, month, year), others, Utc) ==
      if MonthInTime(Number(month, others).value, Number(year, others).value) then Some(Form(ShownOf(c))) else None
    ensures Redisplayed(Form(ShownOf(c)), others, Utc) == Some(Form(ShownOf(c)))
  {
    DayOfCivil(DayOfFields(day, month, year, others));
    UtcOfDay(Number(day, others).value, Number(month, others).value, Number(year, others).value, c);
    if MonthInTime(Number(month, others).value, Number(year, others).value) {
      NumbersRedisplayed(day, month, year, others, Utc, ShownOf(c));
    } else {
      SplitFields(day, month, year);
    }
    RealDateRedisplayed(c, others);
  }

  /** Three days after 28 February. */
  function AfterFebruary(year: nat): (c: Civil)
    ensures Valid(c)
  {
    Civil(year, 2, if Leap(year) then 2 else 3)
  }

  lemma FebruaryDay(year: nat)
    ensures MakeDay(year, 1, 31) == DayOf(AfterFebruary(year))
  {
    assert MonthStart(Leap(year), 2) == MonthStart(Leap(year), 1) + DaysInMonth(Leap(year), 1);
  }

  /** A day past the end of a short month runs over: 31/02 is shown as 02/03 in a leap year and as 03/03 in another. */
  lemma FebruaryRunsOver(year: nat, others: Numbers)
    requires 100 <= year <= 9999
    ensures Redisplayed(Form(Shown(31, 2, year)), others, Utc) ==
      Some(Form(Shown(if Leap(year) then 2 else 3, 3, year)))
  {
    FebruaryDay(year);
    UtcOfWhole(Shown(31, 2, year), AfterFebruary(year));
    FormRedisplayed(Shown(31, 2, year), others, Utc, ShownOf(AfterFebruary(year)));
  }
}
