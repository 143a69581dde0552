/**
 * The proleptic Gregorian calendar of Python's `datetime.date`, as the
 * scraper, the scheduler and the web front end use it.
 *
 * A day is its ordinal: 0001-01-01 is day 1 and 9999-12-31 (`date.max`) is
 * day MAX_ORDINAL. With that, `d - timedelta(days=i)` is `d - i` and the
 * comparison `d1 < d2` is integer comparison. This module converts between
 * ordinals and year-month-day, renders a day as `YYYY-MM-DD` (what
 * `strftime("%Y-%m-%d")` and `isoformat()` produce) and parses that text back
 * the way `date.fromisoformat` does.
 */
module Calendar {
  import opened Wrappers

  const MAX_YEAR := 9999
  /** The ordinal of 9999-12-31. */
  const MAX_ORDINAL := 3652059

  /** Cumulative day counts before each month of a common year. */
  const DAYS_BEFORE_MONTH: seq<int> := [0, 31, 59, 90, 120, 151, 181, 212, 243, 273, 304, 334]

  predicate IsLeap(y: int) {
    y % 4 == 0 && (y % 100 != 0 || y % 400 == 0)
  }

  function DaysInYear(y: int): int {
    if IsLeap(y) then 366 else 365
  }

  function DaysInMonth(y: int, m: int): int
    requires 1 <= m <= 12
  {
    if m == 2 then (if IsLeap(y) then 29 else 28)
    else if m == 4 || m == 6 || m == 9 || m == 11 then 30
    else 31
  }

  /** Days in year `y` before the first of month `m`. */
  function DaysBeforeMonth(y: int, m: int): int
    requires 1 <= m <= 12
  {
    DAYS_BEFORE_MONTH[m - 1] + (if m > 2 && IsLeap(y) then 1 else 0)
  }

  /** Days before January 1 of year `y`, in closed form. */
  function DaysBeforeYear(y: int): int
    requires y >= 1
  {
    var p := y - 1;
    p * 365 + p / 4 - p / 100 + p / 400
  }

  datatype Date = Date(year: int, month: int, day: int)

  /** What `date(year, month, day)` accepts. */
  predicate ValidDate(x: Date) {
    && 1 <= x.year <= MAX_YEAR
    && 1 <= x.month <= 12
    && 1 <= x.day <= DaysInMonth(x.year, x.month)
  }

  /** The ordinals of representable dates. */
  predicate InRange(o: int) {
    1 <= o <= MAX_ORDINAL
  }

  // ---------------------------------------------------------------------
  // Facts about the month and year tables

  lemma DivStep4(a: int)
    requires a >= 1
    ensures a / 4 == (a - 1) / 4 + (if a % 4 == 0 then 1 else 0)
  {
  }

  lemma DivStep100(a: int)
    requires a >= 1
    ensures a / 100 == (a - 1) / 100 + (if a % 100 == 0 then 1 else 0)
  {
  }

  lemma DivStep400(a: int)
    requires a >= 1
    ensures a / 400 == (a - 1) / 400 + (if a % 400 == 0 then 1 else 0)
  {
  }

  /** The closed form of DaysBeforeYear adds exactly one year's length per year. */
  lemma DaysBeforeYearStep(y: int)
    requires y >= 1
    ensures DaysBeforeYear(y + 1) == DaysBeforeYear(y) + DaysInYear(y)
  {
    DivStep4(y);
    DivStep100(y);
    DivStep400(y);
    LeapDivisors(y);
    var p := y - 1;
    assert DaysBeforeYear(y + 1) == y * 365 + y / 4 - y / 100 + y / 400;
    assert DaysBeforeYear(y) == p * 365 + p / 4 - p / 100 + p / 400;
  }

  lemma LeapDivisors(y: int)
    ensures y % 100 == 0 ==> y % 4 == 0
    ensures y % 400 == 0 ==> y % 100 == 0
  {
  }

  /** Later years start at least 365 days per year later. */
  lemma {:induction false} DaysBeforeYearGrows(a: int, b: int)
    requires 1 <= a <= b
    ensures DaysBeforeYear(a) + 365 * (b - a) <= DaysBeforeYear(b)
    decreases b - a
  {
    if a < b {
      DaysBeforeYearGrows(a, b - 1);
      DaysBeforeYearStep(b - 1);
    }
  }

  lemma MonthStep(y: int, m: int)
    requires 1 <= m <= 12
    ensures DaysBeforeMonth(y, m) + DaysInMonth(y, m)
            == if m == 12 then DaysInYear(y) else DaysBeforeMonth(y, m + 1)
  {
  }

  lemma {:induction false} MonthsGrow(y: int, m1: int, m2: int)
    requires 1 <= m1 < m2 <= 12
    ensures DaysBeforeMonth(y, m1) + DaysInMonth(y, m1) <= DaysBeforeMonth(y, m2)
    decreases m2 - m1
  {
    MonthStep(y, m1);
    if m1 + 1 < m2 {
      MonthsGrow(y, m1 + 1, m2);
    }
  }

  /** A valid month and day fall inside their year. */
  lemma DayOfYearBounds(x: Date)
    requires ValidDate(x)
    ensures 1 <= DaysBeforeMonth(x.year, x.month) + x.day <= DaysInYear(x.year)
  {
    MonthStep(x.year, x.month);
    if x.month < 12 {
      MonthsGrow(x.year, x.month, 12);
      MonthStep(x.year, 12);
    }
  }

  // ---------------------------------------------------------------------
  // Ordinal <-> year-month-day

  /** `date.toordinal()`: a day of the calendar; `ToOrdinalBounds` places it within its year. */
  function ToOrdinal(x: Date): (o: int)
    requires ValidDate(x)
    ensures InRange(o)
  {
    DayOfYearBounds(x);
    DaysBeforeYearGrows(1, x.year);
    DaysBeforeYearStep(x.year);
    DaysBeforeYearGrows(x.year + 1, MAX_YEAR + 1);
    DaysBeforeYear(x.year) + DaysBeforeMonth(x.year, x.month) + x.day
  }

  /**
   * The year holding day `n` counted from January 1 of year `y` (day 1),
   * with the number of that day within its own year (`YearOfSum`).
   */
  function YearOf(n: int, y: int): (r: (int, int))
    requires n >= 1 && y >= 1
    ensures y <= r.0 && 1 <= r.1 <= DaysInYear(r.0)
    decreases n
  {
    if n <= DaysInYear(y) then (y, n)
    else YearOf(n - DaysInYear(y), y + 1)
  }

  /** Day `n` from January 1 of year `y` is day `r.1` of year `r.0`. */
  lemma {:induction false} YearOfSum(n: int, y: int)
    requires n >= 1 && y >= 1
    ensures DaysBeforeYear(YearOf(n, y).0) + YearOf(n, y).1 == DaysBeforeYear(y) + n
    decreases n
  {
    if n > DaysInYear(y) {
      DaysBeforeYearStep(y);
      YearOfSum(n - DaysInYear(y), y + 1);
    }
  }

  /**
   * The month of year `y` holding day `n` counted from the first of month
   * `m` (day 1), with the day of that month (`MonthOfSum`).
   */
  function MonthOf(y: int, m: int, n: int): (r: (int, int))
    requires 1 <= m <= 12
    requires 1 <= n <= DaysInYear(y) - DaysBeforeMonth(y, m)
    ensures m <= r.0 <= 12 && 1 <= r.1 <= DaysInMonth(y, r.0)
    decreases 12 - m
  {
    MonthStep(y, m);
    if n <= DaysInMonth(y, m) then (m, n)
    else MonthOf(y, m + 1, n - DaysInMonth(y, m))
  }

  /** Day `n` from the first of month `m` is day `r.1` of month `r.0`. */
  lemma {:induction false} MonthOfSum(y: int, m: int, n: int)
    requires 1 <= m <= 12
    requires 1 <= n <= DaysInYear(y) - DaysBeforeMonth(y, m)
    ensures DaysBeforeMonth(y, MonthOf(y, m, n).0) + MonthOf(y, m, n).1 == DaysBeforeMonth(y, m) + n
    decreases 12 - m
  {
    MonthStep(y, m);
    var k := DaysInMonth(y, m);
    if n > k {
      assert m < 12 && DaysBeforeMonth(y, m + 1) == DaysBeforeMonth(y, m) + k;
      assert MonthOf(y, m, n) == MonthOf(y, m + 1, n - k);
      MonthOfSum(y, m + 1, n - k);
    }
  }

  /** `date.fromordinal(o)`: a valid date; `ToFromOrdinal` shows its ordinal is `o`. */
  function FromOrdinal(o: int): (x: Date)
    requires InRange(o)
    ensures ValidDate(x)
  {
    var yn := YearOf(o, 1);
    var y := yn.0;
    YearOfSum(o, 1);
    if y > MAX_YEAR then
      DaysBeforeYearGrows(MAX_YEAR + 1, y);
      assert false;
      Date(1, 1, 1)
    else
      var md := MonthOf(y, 1, yn.1);
      Date(y, md.0, md.1)
  }

  /** The date `date.fromordinal(o)` gives has ordinal `o`. */
  lemma ToFromOrdinal(o: int)
    requires InRange(o)
    ensures ToOrdinal(FromOrdinal(o)) == o
  {
    var yn := YearOf(o, 1);
    YearOfSum(o, 1);
    if yn.0 > MAX_YEAR {
      DaysBeforeYearGrows(MAX_YEAR + 1, yn.0);
    }
    var md := MonthOf(yn.0, 1, yn.1);
    MonthOfSum(yn.0, 1, yn.1);
    assert FromOrdinal(o) == Date(yn.0, md.0, md.1);
  }

  /** A date's ordinal lies after the days of the years before it and within its own year. */
  lemma ToOrdinalBounds(x: Date)
    requires ValidDate(x)
    ensures DaysBeforeYear(x.year) < ToOrdinal(x) <= DaysBeforeYear(x.year) + DaysInYear(x.year)
  {
    DayOfYearBounds(x);
  }

  /** A date of an earlier year has a smaller ordinal. */
  lemma ToOrdinalYearOrder(a: Date, b: Date)
    requires ValidDate(a) && ValidDate(b) && a.year < b.year
    ensures ToOrdinal(a) < ToOrdinal(b)
  {
    ToOrdinalBounds(a);
    ToOrdinalBounds(b);
    DaysBeforeYearStep(a.year);
    DaysBeforeYearGrows(a.year + 1, b.year);
  }

  /** Within a year, a date of an earlier month has a smaller ordinal. */
  lemma ToOrdinalMonthOrder(a: Date, b: Date)
    requires ValidDate(a) && ValidDate(b) && a.year == b.year && a.month < b.month
    ensures ToOrdinal(a) < ToOrdinal(b)
  {
    MonthsGrow(a.year, a.month, b.month);
  }

  /** Different dates have different ordinals. */
  lemma ToOrdinalInjective(a: Date, b: Date)
    requires ValidDate(a) && ValidDate(b)
    requires ToOrdinal(a) == ToOrdinal(b)
    ensures a == b
  {
    if a.year < b.year {
      ToOrdinalYearOrder(a, b);
    } else if b.year < a.year {
      ToOrdinalYearOrder(b, a);
    } else if a.month < b.month {
      ToOrdinalMonthOrder(a, b);
    } else if b.month < a.month {
      ToOrdinalMonthOrder(b, a);
    }
  }

  /** Converting a date to its ordinal and back gives the date. */
  lemma FromToOrdinal(x: Date)
    requires ValidDate(x)
    ensures FromOrdinal(ToOrdinal(x)) == x
  {
    ToFromOrdinal(ToOrdinal(x));
    ToOrdinalInjective(FromOrdinal(ToOrdinal(x)), x);
  }

  // ---------------------------------------------------------------------
  // The text form YYYY-MM-DD

  predicate IsDigit(c: char) {
    '0' <= c <= '9'
  }

  function DigitValue(c: char): int
    requires IsDigit(c)
  {
    c as int - '0' as int
  }

  function Digit(k: int): (c: char)
    requires 0 <= k <= 9
    ensures IsDigit(c) && DigitValue(c) == k
  {
    ('0' as int + k) as char
  }

  function Pad2(k: int): string
    requires 0 <= k <= 99
  {
    [Digit(k / 10), Digit(k % 10)]
  }

  function Pad4(k: int): string
    requires 0 <= k <= 9999
  {
    [Digit(k / 1000), Digit(k / 100 % 10), Digit(k / 10 % 10), Digit(k % 10)]
  }

  /** `strftime("%Y-%m-%d")`, four-digit years zero-padded. */
  function Iso(x: Date): (s: string)
    requires ValidDate(x)
  {
    Pad4(x.year) + "-" + Pad2(x.month) + "-" + Pad2(x.day)
  }

  /** The shape `date.fromisoformat` reads: four digits, '-', two digits, '-', two digits. */
  predicate IsoShaped(s: string) {
    && |s| == 10
    && s[4] == '-' && s[7] == '-'
    && IsDigit(s[0]) && IsDigit(s[1]) && IsDigit(s[2]) && IsDigit(s[3])
    && IsDigit(s[5]) && IsDigit(s[6])
    && IsDigit(s[8]) && IsDigit(s[9])
  }

  /** `date.fromisoformat(s)`; None where Python raises ValueError. */
  function ParseIso(s: string): (r: Option<Date>)
    ensures r.Some? ==> ValidDate(r.value) && IsoShaped(s)
  {
    if !IsoShaped(s) then None
    else
      var x := Date(
        1000 * DigitValue(s[0]) + 100 * DigitValue(s[1]) + 10 * DigitValue(s[2]) + DigitValue(s[3]),
        10 * DigitValue(s[5]) + DigitValue(s[6]),
        10 * DigitValue(s[8]) + DigitValue(s[9]));
      if ValidDate(x) then Some(x) else None
  }

  /** Parsing the rendering of a date gives the date back. */
  lemma ParseIsoOfIso(x: Date)
    requires ValidDate(x)
    ensures ParseIso(Iso(x)) == Some(x)
  {
    var s := Iso(x);
    var y, m, d := Pad4(x.year), Pad2(x.month), Pad2(x.day);
    assert s == y + "-" + m + "-" + d;
    assert s[0] == y[0] && s[1] == y[1] && s[2] == y[2] && s[3] == y[3];
    assert s[5] == m[0] && s[6] == m[1] && s[8] == d[0] && s[9] == d[1];
    Pad4Value(x.year);
    Pad2Value(x.month);
    Pad2Value(x.day);
    assert IsoShaped(s);
  }

  lemma Pad4Value(k: int)
    requires 0 <= k <= 9999
    ensures var s := Pad4(k);
      1000 * DigitValue(s[0]) + 100 * DigitValue(s[1]) + 10 * DigitValue(s[2]) + DigitValue(s[3]) == k
  {
    var s := Pad4(k);
    assert DigitValue(s[0]) == k / 1000 && DigitValue(s[1]) == k / 100 % 10;
    assert DigitValue(s[2]) == k / 10 % 10 && DigitValue(s[3]) == k % 10;
    assert k == 10 * (k / 10) + k % 10;
    assert k / 10 == 10 * (k / 100) + k / 10 % 10;
    assert k / 100 == 10 * (k / 1000) + k / 100 % 10;
  }

  lemma Pad2Value(k: int)
    requires 0 <= k <= 99
    ensures var s := Pad2(k); 10 * DigitValue(s[0]) + DigitValue(s[1]) == k
  {
  }

  lemma Pad4OfValue(a: char, b: char, c: char, d: char)
    requires IsDigit(a) && IsDigit(b) && IsDigit(c) && IsDigit(d)
    ensures Pad4(1000 * DigitValue(a) + 100 * DigitValue(b) + 10 * DigitValue(c) + DigitValue(d)) == [a, b, c, d]
  {
    var i, j, k, l := DigitValue(a), DigitValue(b), DigitValue(c), DigitValue(d);
    var n := 1000 * i + 100 * j + 10 * k + l;
    assert n / 10 == 100 * i + 10 * j + k && n % 10 == l by {
      assert n == 10 * (100 * i + 10 * j + k) + l;
    }
    assert n / 100 == 10 * i + j && n / 100 % 10 == j by {
      assert n == 100 * (10 * i + j) + (10 * k + l);
    }
    assert n / 10 % 10 == k by {
      assert n / 10 == 10 * (10 * i + j) + k;
    }
    assert n / 1000 == i by {
      assert n == 1000 * i + (100 * j + 10 * k + l);
    }
    assert Pad4(n) == [Digit(i), Digit(j), Digit(k), Digit(l)];
  }

  lemma Pad2OfValue(a: char, b: char)
    requires IsDigit(a) && IsDigit(b)
    ensures Pad2(10 * DigitValue(a) + DigitValue(b)) == [a, b]
  {
  }

  /** A string that parses is exactly the rendering of what it parses to. */
  lemma IsoOfParseIso(s: string)
    requires ParseIso(s).Some?
    ensures Iso(ParseIso(s).value) == s
  {
    var x := ParseIso(s).value;
    Pad4OfValue(s[0], s[1], s[2], s[3]);
    Pad2OfValue(s[5], s[6]);
    Pad2OfValue(s[8], s[9]);
    assert s == [s[0], s[1], s[2], s[3]] + "-" + [s[5], s[6]] + "-" + [s[8], s[9]];
  }

  // ---------------------------------------------------------------------
  // Day ordinals as text

  /** The `YYYY-MM-DD` text of day `o`. */
  function FormatDay(o: int): (s: string)
    requires InRange(o)
  {
    Iso(FromOrdinal(o))
  }

  /** `date.fromisoformat(s)` as an ordinal. */
  function ParseDay(s: string): (r: Option<int>)
    ensures r.Some? ==> InRange(r.value) && |s| == 10
  {
    match ParseIso(s)
    case None => None
    case Some(x) => Some(ToOrdinal(x))
  }

  /** Parsing the text of a day gives the day back. */
  lemma ParseFormatDay(o: int)
    requires InRange(o)
    ensures ParseDay(FormatDay(o)) == Some(o)
  {
    ParseIsoOfIso(FromOrdinal(o));
    ToFromOrdinal(o);
  }

  /** A string that parses as a day is that day's text. */
  lemma FormatParseDay(s: string)
    requires ParseDay(s).Some?
    ensures FormatDay(ParseDay(s).value) == s
  {
    FromToOrdinal(ParseIso(s).value);
    IsoOfParseIso(s);
  }

  /** Different days have different texts. */
  lemma FormatDayInjective(a: int, b: int)
    requires InRange(a) && InRange(b)
    requires FormatDay(a) == FormatDay(b)
    ensures a == b
  {
    ParseFormatDay(a);
    ParseFormatDay(b);
  }
}
