/** The part of Go's `time` package that the skip-until tag relies on:
    parsing an 8-digit `MMDDYYYY` date with layout "01022006" (proleptic
    Gregorian calendar, UTC) and comparing the resulting midnight instant
    with the current instant. */
module Calendar {
  import opened Options
  import opened Strings

  datatype Date = Date(year: nat, month: int, day: int)

  /** An instant on the UTC time line: nanoseconds since 0000-01-01T00:00:00Z. */
  type Instant = int

  const NanosPerDay: nat := 86_400 * 1_000_000_000

  predicate IsLeap(year: nat) {
    year % 4 == 0 && (year % 100 != 0 || year % 400 == 0)
  }

  /** Days in the months before `month` of a non-leap year (`month` in 0..12). */
  function DaysBefore(month: int): int
    requires 0 <= month <= 12
  {
    match month
    case 0 => 0
    case 1 => 31
    case 2 => 59
    case 3 => 90
    case 4 => 120
    case 5 => 151
    case 6 => 181
    case 7 => 212
    case 8 => 243
    case 9 => 273
    case 10 => 304
    case 11 => 334
    case _ => 365
  }

  /** Length of `month` in `year`: 29 for February of a leap year, otherwise
      the difference of the cumulative table. */
  function DaysIn(month: int, year: nat): (n: int)
    requires 1 <= month <= 12
    ensures 28 <= n <= 31
    ensures n == 29 <==> month == 2 && IsLeap(year)
    ensures month == 2 && !IsLeap(year) ==> n == 28
    ensures month == 4 || month == 6 || month == 9 || month == 11 ==> n == 30
    ensures month == 1 || month == 3 || month == 5 || month == 7 || month == 8 || month == 10 || month == 12 ==> n == 31
  {
    if month == 2 && IsLeap(year) then 29 else DaysBefore(month) - DaysBefore(month - 1)
  }

  /** The month/day range checks time.Parse performs after reading the fields. */
  predicate ValidDate(d: Date) {
    1 <= d.month <= 12 && 1 <= d.day <= DaysIn(d.month, d.year)
  }

  function DigitValue(c: char): int {
    c as int - '0' as int
  }

  function DigitChar(k: int): char
    requires 0 <= k < 10
  {
    ('0' as int + k) as char
  }

  /** time.Parse("01022006", s): two-digit month, two-digit day, four-digit
      year; any other shape, a month outside 1..12 or a day outside the
      month's length is a parse error. */
  function ParseMMDDYYYY(s: string): (r: Option<Date>)
    ensures |s| != 8 || !AllDigits(s) ==> r.None?
    ensures r.Some? ==> ValidDate(r.value) && r.value.year < 10000
  {
    if |s| != 8 || !AllDigits(s) then None
    else
      var month := 10 * DigitValue(s[0]) + DigitValue(s[1]);
      var day := 10 * DigitValue(s[2]) + DigitValue(s[3]);
      var year := 1000 * DigitValue(s[4]) + 100 * DigitValue(s[5]) + 10 * DigitValue(s[6]) + DigitValue(s[7]);
      var d := Date(year, month, day);
      if ValidDate(d) then Some(d) else None
  }

  /** The same layout in the formatting direction, zero-padded. */
  function FormatMMDDYYYY(d: Date): (s: string)
    requires 0 <= d.month < 100 && 0 <= d.day < 100 && d.year < 10000
    ensures |s| == 8 && AllDigits(s)
  {
    [ DigitChar(d.month / 10), DigitChar(d.month % 10)
    , DigitChar(d.day / 10), DigitChar(d.day % 10)
    , DigitChar(d.year / 10 / 10 / 10), DigitChar(d.year / 10 / 10 % 10)
    , DigitChar(d.year / 10 % 10), DigitChar(d.year % 10) ]
  }

  lemma DigitRoundTrip(k: int)
    requires 0 <= k < 10
    ensures DigitValue(DigitChar(k)) == k
  {
  }

  /** Splitting off the last decimal digit. */
  lemma LastDigit(q: int, r: int)
    requires q >= 0 && 0 <= r < 10
    ensures (10 * q + r) / 10 == q && (10 * q + r) % 10 == r
  {
  }

  /** Every valid date of a four-digit year is read back from its text. */
  lemma ParseFormatRoundTrip(d: Date)
    requires ValidDate(d) && d.year < 10000
    ensures ParseMMDDYYYY(FormatMMDDYYYY(d)) == Some(d)
  {
    var s := FormatMMDDYYYY(d);
    var q1 := d.year / 10;
    var q2 := q1 / 10;
    var q3 := q2 / 10;
    DigitRoundTrip(d.month / 10);
    DigitRoundTrip(d.month % 10);
    DigitRoundTrip(d.day / 10);
    DigitRoundTrip(d.day % 10);
    DigitRoundTrip(q3);
    DigitRoundTrip(q2 % 10);
    DigitRoundTrip(q1 % 10);
    DigitRoundTrip(d.year % 10);
    assert 10 * DigitValue(s[0]) + DigitValue(s[1]) == d.month;
    assert 10 * DigitValue(s[2]) + DigitValue(s[3]) == d.day;
    assert d.year == 10 * q1 + d.year % 10 && q1 == 10 * q2 + q1 % 10 && q2 == 10 * q3 + q2 % 10;
    assert 1000 * DigitValue(s[4]) + 100 * DigitValue(s[5]) + 10 * DigitValue(s[6]) + DigitValue(s[7]) == d.year;
  }

  /** A successful parse yields a valid date whose text is exactly the input. */
  lemma FormatParseRoundTrip(s: string)
    requires ParseMMDDYYYY(s).Some?
    ensures ValidDate(ParseMMDDYYYY(s).value) && ParseMMDDYYYY(s).value.year < 10000
    ensures FormatMMDDYYYY(ParseMMDDYYYY(s).value) == s
  {
    var d := ParseMMDDYYYY(s).value;
    var v := seq(8, i requires 0 <= i < 8 => DigitValue(s[i]));
    assert forall i :: 0 <= i < 8 ==> 0 <= v[i] < 10 && DigitChar(v[i]) == s[i];
    LastDigit(v[0], v[1]);
    LastDigit(v[2], v[3]);
    LastDigit(100 * v[4] + 10 * v[5] + v[6], v[7]);
    LastDigit(10 * v[4] + v[5], v[6]);
    LastDigit(v[4], v[5]);
    assert d == Date(1000 * v[4] + 100 * v[5] + 10 * v[6] + v[7], 10 * v[0] + v[1], 10 * v[2] + v[3]);
    var f := FormatMMDDYYYY(d);
    assert f == s;
  }

  /** Chronological order of calendar dates. */
  predicate DateBefore(a: Date, b: Date) {
    a.year < b.year
    || (a.year == b.year && a.month < b.month)
    || (a.year == b.year && a.month == b.month && a.day < b.day)
  }

  function YearLength(year: nat): (n: nat)
    ensures n == if IsLeap(year) then 366 else 365
  {
    DaysBefore(12) + if IsLeap(year) then 1 else 0
  }

  /** Days from 0000-01-01 to the first day of `year`. */
  function DaysBeforeYear(year: nat): nat {
    if year == 0 then 0 else DaysBeforeYear(year - 1) + YearLength(year - 1)
  }

  /** Days from the first day of `year` to the first day of `month`. */
  function DaysBeforeMonth(month: int, year: nat): int
    requires 1 <= month <= 12
  {
    DaysBefore(month - 1) + if month > 2 && IsLeap(year) then 1 else 0
  }

  /** Days from 0000-01-01 to `d`. */
  function DayNumber(d: Date): (n: int)
    requires ValidDate(d)
    ensures 0 <= n
  {
    DaysBeforeYear(d.year) + DaysBeforeMonth(d.month, d.year) + d.day - 1
  }

  /** time.Parse yields midnight UTC of the parsed date. */
  function Midnight(d: Date): Instant
    requires ValidDate(d)
  {
    DayNumber(d) * NanosPerDay
  }

  /** time.Time.After. */
  predicate After(t: Instant, u: Instant) {
    t > u
  }

  lemma {:induction false} DaysBeforeYearGrows(x: nat, y: nat)
    requires x < y
    ensures DaysBeforeYear(x) + YearLength(x) <= DaysBeforeYear(y)
  {
    if x + 1 < y {
      DaysBeforeYearGrows(x, y - 1);
    }
  }

  /** Within one year, a valid date lies before the end of the year and the
      months follow each other without gaps. */
  lemma DayOfYearBounds(d: Date)
    requires ValidDate(d)
    ensures 0 <= DaysBeforeMonth(d.month, d.year) + d.day - 1 < YearLength(d.year)
    ensures d.month < 12 ==>
      DaysBeforeMonth(d.month, d.year) + d.day - 1 < DaysBeforeMonth(d.month + 1, d.year)
  {
  }

  /** DayNumber is an order embedding of valid dates into the integers. */
  lemma DayNumberOrder(a: Date, b: Date)
    requires ValidDate(a) && ValidDate(b)
    ensures DateBefore(a, b) <==> DayNumber(a) < DayNumber(b)
    ensures a == b <==> DayNumber(a) == DayNumber(b)
  {
    DayOfYearBounds(a);
    DayOfYearBounds(b);
    if a.year < b.year {
      DaysBeforeYearGrows(a.year, b.year);
    } else if b.year < a.year {
      DaysBeforeYearGrows(b.year, a.year);
    }
  }

  /** Because the parsed instant is midnight, "after now" means "a later
      calendar date than today's UTC date": a date equal to today is not after. */
  lemma MidnightAfterIffLaterDate(d: Date, today: Date, nanos: int)
    requires ValidDate(d) && ValidDate(today)
    requires 0 <= nanos < NanosPerDay
    ensures After(Midnight(d), Midnight(today) + nanos) <==> DateBefore(today, d)
  {
    DayNumberOrder(today, d);
    DayNumberOrder(d, today);
  }
}
