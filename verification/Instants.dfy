/** Instants as text: shape, calendar validity, and the moment they denote. */
module Instants {
  import opened Prelude
  import Arith
  import opened Decimal
  import Text

  // ------------------------------------------------------------ civil calendar

  predicate IsLeapYear(year: int) { (year % 4 == 0 && year % 100 != 0) || year % 400 == 0 }

  const DAYS_IN_MONTH: seq<int> := [31, 28, 31, 30, 31, 30, 31, 31, 30, 31, 30, 31]

  predicate IsRealDate(year: int, month: int, day: int) {
    && day >= 1
    && 1 <= month <= 12
    && day <= if month == 2 && IsLeapYear(year) then 29 else DAYS_IN_MONTH[month-1]
  }

  /** Days since 1970-01-01 of a proleptic Gregorian date. */
  function DaysFromCivil(year: int, month: int, day: int): int {
    var y := year - if month <= 2 then 1 else 0;
    var era := y / 400;
    var yearOfEra := y - era * 400;
    var dayOfYear := (153 * (month + if month > 2 then -3 else 9) + 2) / 5 + day - 1;
    var dayOfEra := yearOfEra * 365 + yearOfEra / 4 - yearOfEra / 100 + dayOfYear;
    era * 146_097 + dayOfEra - 719_468
  }

  // ----------------------------------------------------------------- the text

  predicate DigitsAt(raw: string, i: nat, j: nat)
    requires i <= j <= |raw|
  {
    AllDigits(raw[i..j])
  }

  /** YYYY-MM-DDTHH:mm:ss.sssZ, nothing before and nothing after. */
  predicate Shaped(raw: string) {
    && |raw| == 24
    && DigitsAt(raw, 0, 4) && raw[4] == '-' && DigitsAt(raw, 5, 7) && raw[7] == '-' && DigitsAt(raw, 8, 10)
    && raw[10] == 'T' && DigitsAt(raw, 11, 13) && raw[13] == ':' && DigitsAt(raw, 14, 16)
    && raw[16] == ':' && DigitsAt(raw, 17, 19) && raw[19] == '.' && DigitsAt(raw, 20, 23) && raw[23] == 'Z'
  }

  function Field(raw: string, i: nat, j: nat): int
    requires i <= j <= |raw| && DigitsAt(raw, i, j)
  {
    Value(raw[i..j])
  }

  predicate IsInstant(raw: string) {
    && Shaped(raw)
    && IsRealDate(Field(raw, 0, 4), Field(raw, 5, 7), Field(raw, 8, 10))
    && Field(raw, 11, 13) <= 23 && Field(raw, 14, 16) <= 59 && Field(raw, 17, 19) <= 59
  }

  function EpochMillis(raw: string): Result<int> {
    if !IsInstant(raw) then Err(BadInstant)
    else
      Ok(DaysFromCivil(Field(raw, 0, 4), Field(raw, 5, 7), Field(raw, 8, 10)) * 86_400_000
         + Field(raw, 11, 13) * 3_600_000 + Field(raw, 14, 16) * 60_000 + Field(raw, 17, 19) * 1_000 + Field(raw, 20, 23))
  }

  // ------------------------------------------------------------ calendar laws

  /** The day number on which the computational year y, which runs from March, begins. */
  function YearStart(y: int): int {
    (y / 400) * 146_097 + (y - (y / 400) * 400) * 365 + (y - (y / 400) * 400) / 4 - (y - (y / 400) * 400) / 100
  }

  lemma QuarterStep(r: int)
    ensures r / 4 - (r - 1) / 4 == if r % 4 == 0 then 1 else 0
  {
  }

  lemma CenturyStep(r: int)
    ensures r / 100 - (r - 1) / 100 == if r % 100 == 0 then 1 else 0
  {
  }

  /** A year and its predecessor, written by era and year of era. */
  lemma EraStep(y: int)
    ensures var e, r := y / 400, y - (y / 400) * 400;
      && 0 <= r < 400
      && r % 4 == y % 4 && r % 100 == y % 100 && (r == 0 <==> y % 400 == 0)
      && (y - 1) / 400 == if r > 0 then e else e - 1
  {
    var e := y / 400;
    EraRemainders(e, y - e * 400);
    EraBefore(y);
  }

  lemma EraRemainders(e: int, r: int)
    ensures (e * 400 + r) % 4 == r % 4 && (e * 400 + r) % 100 == r % 100 && (0 <= r < 400 ==> (e * 400 + r) % 400 == r)
  {
  }

  lemma EraBefore(y: int)
    ensures (y - 1) / 400 == if y - (y / 400) * 400 > 0 then y / 400 else y / 400 - 1
  {
    var e := y / 400;
    Arith.QuotientIsUnique(y - 1, 400, if y - e * 400 > 0 then e else e - 1);
  }

  lemma YearLength(y: int)
    ensures YearStart(y) - YearStart(y - 1) == 365 + if IsLeapYear(y) then 1 else 0
  {
    EraStep(y);
    var r := y - (y / 400) * 400;
    QuarterStep(r);
    CenturyStep(r);
    assert r > 0 ==> (y - 1) - ((y - 1) / 400) * 400 == r - 1;
    assert r == 0 ==> (y - 1) - ((y - 1) / 400) * 400 == 399;
  }

  lemma {:induction false} YearsGrow(a: int, b: int)
    requires a <= b
    ensures YearStart(b) >= YearStart(a) + 365 * (b - a)
    decreases b - a
  {
    if a < b {
      YearsGrow(a, b - 1);
      YearLength(b);
    }
  }

  /** Days before the month in a year that begins in March, and the month's place in it. */
  function MarchMonth(month: int): int { month + if month > 2 then -3 else 9 }

  function MonthStart(month: int): int { (153 * MarchMonth(month) + 2) / 5 }

  function MarchYear(year: int, month: int): int { year - if month <= 2 then 1 else 0 }

  lemma DaysSplit(year: int, month: int, day: int)
    ensures DaysFromCivil(year, month, day) == YearStart(MarchYear(year, month)) + MonthStart(month) + day - 1 - 719_468
  {
  }

  /** A real date falls inside its month, and every month inside its year. */
  lemma DayBounds(year: int, month: int, day: int)
    requires IsRealDate(year, month, day)
    ensures month != 2 ==> forall m :: 1 <= m <= 12 && MarchMonth(m) > MarchMonth(month) ==> MonthStart(month) + day <= MonthStart(m)
    ensures MonthStart(month) + day - 1 < 365 + if IsLeapYear(MarchYear(year, month) + 1) then 1 else 0
    ensures MonthStart(month) >= 0
  {
  }

  /** Earlier dates have smaller day numbers. */
  lemma DaysFollowDates(y1: int, m1: int, d1: int, y2: int, m2: int, d2: int)
    requires IsRealDate(y1, m1, d1) && IsRealDate(y2, m2, d2)
    requires y1 < y2 || (y1 == y2 && (m1 < m2 || (m1 == m2 && d1 < d2)))
    ensures DaysFromCivil(y1, m1, d1) < DaysFromCivil(y2, m2, d2)
  {
    hide IsRealDate, YearStart, DaysFromCivil, IsLeapYear;
    DaysSplit(y1, m1, d1);
    DaysSplit(y2, m2, d2);
    DayBounds(y1, m1, d1);
    DayBounds(y2, m2, d2);
    var a, b := MarchYear(y1, m1), MarchYear(y2, m2);
    MonthsInRange(y1, m1, d1);
    MonthsInRange(y2, m2, d2);
    if a < b {
      YearLength(a + 1);
      YearsGrow(a + 1, b);
    } else if a == b && m1 != m2 {
      assert MarchMonth(m2) > MarchMonth(m1);
    }
  }

  lemma MonthsInRange(y: int, m: int, d: int)
    requires IsRealDate(y, m, d)
    ensures 1 <= m <= 12 && 1 <= d <= 31
  {
  }

  function MonthLength(year: int, month: int): int
    requires 1 <= month <= 12
  {
    if month == 2 && IsLeapYear(year) then 29 else DAYS_IN_MONTH[month-1]
  }

  datatype Date = Date(year: int, month: int, day: int)

  /** The next day on the calendar. */
  function NextDay(d: Date): Date
    requires IsRealDate(d.year, d.month, d.day)
  {
    if d.day < MonthLength(d.year, d.month) then Date(d.year, d.month, d.day + 1)
    else if d.month < 12 then Date(d.year, d.month + 1, 1)
    else Date(d.year + 1, 1, 1)
  }

  /** The day after any real date is real and its day number is exactly one more. */
  lemma NextDayIsOneMore(d: Date)
    requires IsRealDate(d.year, d.month, d.day)
    ensures var n := NextDay(d);
      IsRealDate(n.year, n.month, n.day) && DaysFromCivil(n.year, n.month, n.day) == DaysFromCivil(d.year, d.month, d.day) + 1
  {
    hide DaysFromCivil, YearStart;
    var n := NextDay(d);
    DaysSplit(d.year, d.month, d.day);
    DaysSplit(n.year, n.month, n.day);
    if d.month == 2 { YearLength(d.year); }
  }

  lemma EpochIsDayZero()
    ensures DaysFromCivil(1970, 1, 1) == 0
  {
  }

  // --------------------------------------------------------- order of instants

  /** What an instant's text says, field by field. */
  datatype Fields = Fields(year: int, month: int, day: int, hour: int, minute: int, second: int, millis: int)

  function FieldsOf(raw: string): Fields
    requires Shaped(raw)
  {
    Fields(Field(raw, 0, 4), Field(raw, 5, 7), Field(raw, 8, 10), Field(raw, 11, 13), Field(raw, 14, 16),
        Field(raw, 17, 19), Field(raw, 20, 23))
  }

  predicate Before(a: Fields, b: Fields) {
    if a.year != b.year then a.year < b.year
    else if a.month != b.month then a.month < b.month
    else if a.day != b.day then a.day < b.day
    else if a.hour != b.hour then a.hour < b.hour
    else if a.minute != b.minute then a.minute < b.minute
    else if a.second != b.second then a.second < b.second
    else a.millis < b.millis
  }

  /** Comparing from position i where a digit field ends at j: the field decides, or the rest does. */
  lemma CompareField(a: string, b: string, i: nat, j: nat)
    requires |a| == |b| && i <= j <= |a| && DigitsAt(a, i, j) && DigitsAt(b, i, j)
    ensures Text.Lt(a[i..], b[i..]) <==>
      Field(a, i, j) < Field(b, i, j) || (Field(a, i, j) == Field(b, i, j) && Text.Lt(a[j..], b[j..]))
    ensures a[i..] == b[i..] <==> Field(a, i, j) == Field(b, i, j) && a[j..] == b[j..]
  {
    LtSplit(a[i..], b[i..], j - i);
    assert a[i..][..j-i] == a[i..j] && b[i..][..j-i] == b[i..j];
    assert a[i..][j-i..] == a[j..] && b[i..][j-i..] == b[j..];
    assert a[i..] == a[i..j] + a[j..] && b[i..] == b[i..j] + b[j..];
    DigitsOrder(a[i..j], b[i..j]);
  }

  lemma CompareSeparator(a: string, b: string, i: nat)
    requires |a| == |b| && i < |a| && a[i] == b[i]
    ensures Text.Lt(a[i..], b[i..]) <==> Text.Lt(a[i+1..], b[i+1..])
    ensures a[i..] == b[i..] <==> a[i+1..] == b[i+1..]
  {
    assert a[i..] == [a[i]] + a[i+1..] && b[i..] == [b[i]] + b[i+1..];
  }

  lemma EndsEqual(a: string, b: string)
    requires |a| == |b| == 24
    ensures a[24..] == b[24..] == "" && !Text.Lt(a[24..], b[24..])
    ensures a[0..] == a && b[0..] == b
  {
  }

  predicate ClockBefore(a: Fields, b: Fields) {
    if a.hour != b.hour then a.hour < b.hour
    else if a.minute != b.minute then a.minute < b.minute
    else if a.second != b.second then a.second < b.second
    else a.millis < b.millis
  }

  predicate SameClock(a: Fields, b: Fields) {
    a.hour == b.hour && a.minute == b.minute && a.second == b.second && a.millis == b.millis
  }

  /** From the seconds on. */
  lemma TextFollowsSeconds(a: string, b: string)
    requires Shaped(a) && Shaped(b)
    ensures var f, g := FieldsOf(a), FieldsOf(b);
      && (Text.Lt(a[17..], b[17..]) <==> f.second < g.second || (f.second == g.second && f.millis < g.millis))
      && (a[17..] == b[17..] <==> f.second == g.second && f.millis == g.millis)
  {
    hide Text.Lt, Field, DigitsAt;
    CompareField(a, b, 17, 19);
    CompareSeparator(a, b, 19);
    CompareField(a, b, 20, 23);
    CompareSeparator(a, b, 23);
    EndsEqual(a, b);
  }

  lemma TextFollowsClock(a: string, b: string)
    requires Shaped(a) && Shaped(b)
    ensures Text.Lt(a[11..], b[11..]) <==> ClockBefore(FieldsOf(a), FieldsOf(b))
    ensures a[11..] == b[11..] <==> SameClock(FieldsOf(a), FieldsOf(b))
  {
    hide Text.Lt, Field, DigitsAt;
    CompareField(a, b, 11, 13);
    CompareSeparator(a, b, 13);
    CompareField(a, b, 14, 16);
    CompareSeparator(a, b, 16);
    TextFollowsSeconds(a, b);
  }

  lemma TextFollowsDate(a: string, b: string)
    requires Shaped(a) && Shaped(b)
    ensures var f, g := FieldsOf(a), FieldsOf(b);
      && (Text.Lt(a, b) <==>
            f.year < g.year || (f.year == g.year && (f.month < g.month || (f.month == g.month &&
              (f.day < g.day || (f.day == g.day && Text.Lt(a[11..], b[11..])))))))
      && (a == b <==> f.year == g.year && f.month == g.month && f.day == g.day && a[11..] == b[11..])
  {
    hide Text.Lt, Field, DigitsAt;
    EndsEqual(a, b);
    CompareField(a, b, 0, 4);
    CompareSeparator(a, b, 4);
    CompareField(a, b, 5, 7);
    CompareSeparator(a, b, 7);
    CompareField(a, b, 8, 10);
    CompareSeparator(a, b, 10);
  }

  /** Text order on well-shaped instants is field-by-field order. */
  lemma TextFollowsFields(a: string, b: string)
    requires Shaped(a) && Shaped(b)
    ensures Text.Lt(a, b) <==> Before(FieldsOf(a), FieldsOf(b))
    ensures a == b <==> FieldsOf(a) == FieldsOf(b)
  {
    hide Text.Lt, Shaped, FieldsOf;
    TextFollowsDate(a, b);
    TextFollowsClock(a, b);
  }

  lemma FieldRange(raw: string, i: nat, j: nat)
    requires i <= j <= |raw| && DigitsAt(raw, i, j)
    ensures 0 <= Field(raw, i, j) < Pow10(j - i)
  {
    ValueBound(raw[i..j]);
  }

  /** Milliseconds into the day. */
  function TimeOfDay(f: Fields): int {
    f.hour * 3_600_000 + f.minute * 60_000 + f.second * 1_000 + f.millis
  }

  predicate InDay(f: Fields) {
    0 <= f.hour <= 23 && 0 <= f.minute <= 59 && 0 <= f.second <= 59 && 0 <= f.millis <= 999
  }

  lemma InstantFields(raw: string)
    requires IsInstant(raw)
    ensures var f := FieldsOf(raw);
      && InDay(f) && IsRealDate(f.year, f.month, f.day)
      && EpochMillis(raw) == Ok(DaysFromCivil(f.year, f.month, f.day) * 86_400_000 + TimeOfDay(f))
  {
    hide DaysFromCivil, IsRealDate;
    FieldRange(raw, 20, 23);
    assert Pow10(3) == 10 * Pow10(2) && Pow10(2) == 10 * Pow10(1) && Pow10(1) == 10 * Pow10(0);
  }

  lemma MomentFollowsFields(a: Fields, b: Fields)
    requires InDay(a) && InDay(b) && IsRealDate(a.year, a.month, a.day) && IsRealDate(b.year, b.month, b.day)
    requires Before(a, b)
    ensures DaysFromCivil(a.year, a.month, a.day) * 86_400_000 + TimeOfDay(a)
          < DaysFromCivil(b.year, b.month, b.day) * 86_400_000 + TimeOfDay(b)
  {
    hide DaysFromCivil, IsRealDate;
    if a.year == b.year && a.month == b.month && a.day == b.day {
    } else {
      DaysFollowDates(a.year, a.month, a.day, b.year, b.month, b.day);
    }
  }

  lemma FieldsTrichotomy(a: Fields, b: Fields)
    ensures Before(a, b) || a == b || Before(b, a)
  {
  }

  /** For calendar-valid instants, comparing the text compares the moments. */
  lemma TextOrderIsTimeOrder(a: string, b: string)
    requires IsInstant(a) && IsInstant(b)
    ensures EpochMillis(a).Ok? && EpochMillis(b).Ok?
    ensures Text.Lt(a, b) <==> EpochMillis(a).value < EpochMillis(b).value
    ensures a == b <==> EpochMillis(a).value == EpochMillis(b).value
  {
    hide Text.Lt, DaysFromCivil, IsRealDate, Before, TimeOfDay, InDay, EpochMillis, FieldsOf;
    TextFollowsFields(a, b);
    InstantFields(a);
    InstantFields(b);
    FieldsTrichotomy(FieldsOf(a), FieldsOf(b));
    if Before(FieldsOf(a), FieldsOf(b)) { MomentFollowsFields(FieldsOf(a), FieldsOf(b)); }
    if Before(FieldsOf(b), FieldsOf(a)) { MomentFollowsFields(FieldsOf(b), FieldsOf(a)); }
  }
}
