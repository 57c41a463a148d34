/**
 * Calendar dates with the semantics of Python's `datetime.date`: the proleptic
 * Gregorian calendar between years 1 and 9999, the day ordinal (1 January of
 * year 1 is day 1), the weekday (Monday is 0), stepping back by whole days,
 * the comparison used by date columns, and the ISO text `str(date)` produces.
 */
module Calendar {
  import opened Wrappers

  datatype Date = Date(year: int, month: int, day: int)

  const MIN_YEAR := 1
  const MAX_YEAR := 9999

  predicate IsLeap(y: int) {
    y % 4 == 0 && (y % 100 != 0 || y % 400 == 0)
  }

  function DaysInMonth(y: int, m: int): (n: int)
    requires 1 <= m <= 12
    ensures 28 <= n <= 31
    ensures n == 29 <==> m == 2 && IsLeap(y)
  {
    if m == 2 then (if IsLeap(y) then 29 else 28)
    else if m == 4 || m == 6 || m == 9 || m == 11 then 30
    else 31
  }

  function DaysInYear(y: int): int {
    if IsLeap(y) then 366 else 365
  }

  /** A date Python can represent: year 1..9999, a real month, a day that exists in it. */
  predicate Valid(d: Date) {
    MIN_YEAR <= d.year <= MAX_YEAR && 1 <= d.month <= 12 && 1 <= d.day <= DaysInMonth(d.year, d.month)
  }

  /** Days in the years before `y` (Python's `_days_before_year`). */
  function DaysBeforeYear(y: int): (n: int)
    requires y >= 1
    ensures n >= 365 * (y - 1)
  {
    var k := y - 1;
    k * 365 + k / 4 - k / 100 + k / 400
  }

  /** Days in the months of year `y` before month `m` (Python's `_days_before_month`). */
  function DaysBeforeMonth(y: int, m: int): (n: int)
    requires 1 <= m <= 12
    ensures 0 <= n && n + DaysInMonth(y, m) <= DaysInYear(y)
  {
    [0, 31, 59, 90, 120, 151, 181, 212, 243, 273, 304, 334][m - 1]
      + (if m > 2 && IsLeap(y) then 1 else 0)
  }

  /** `date.toordinal()`: 1 January of year 1 is day 1. */
  function Ordinal(d: Date): (n: int)
    requires Valid(d)
    ensures n >= 1
    ensures d == Date(MIN_YEAR, 1, 1) <==> n == 1
  {
    DaysBeforeYear(d.year) + DaysBeforeMonth(d.year, d.month) + d.day
  }

  /** `date.weekday()`: Monday is 0 and Sunday is 6; day 1 of year 1 was a Monday. */
  function Weekday(d: Date): (w: int)
    requires Valid(d)
    ensures 0 <= w < 7 && w < Ordinal(d)
  {
    (Ordinal(d) + 6) % 7
  }

  /** Strict chronological order, as a date column compares. */
  predicate Before(a: Date, b: Date) {
    a.year < b.year
    || (a.year == b.year && (a.month < b.month || (a.month == b.month && a.day < b.day)))
  }

  /** `a <= b` on dates. */
  predicate OnOrBefore(a: Date, b: Date) {
    !Before(b, a)
  }

  lemma BeforeIsStrictTotalOrder(a: Date, b: Date, c: Date)
    ensures !Before(a, a)
    ensures Before(a, b) && Before(b, c) ==> Before(a, c)
    ensures a != b ==> Before(a, b) || Before(b, a)
    ensures OnOrBefore(a, b) <==> a == b || Before(a, b)
  {
  }

  /** Quotient and remainder are determined by any decomposition `n == q * a + b` with `0 <= b < q`. */
  lemma DivModUnique(n: int, q: int, a: int, b: int)
    requires q > 0 && n == q * a + b && 0 <= b < q
    ensures n / q == a && n % q == b
  {
    var a', b' := n / q, n % q;
    assert q * a' + b' == q * a + b;
    assert q * (a - a') == q * a - q * a';
    MulAwayFromZero(q, a - a');
  }

  /** A nonzero multiple of `q` is at least `q` away from zero. */
  lemma MulAwayFromZero(q: int, t: int)
    requires q > 0
    ensures t >= 1 ==> q * t >= q
    ensures t <= -1 ==> q * t <= -q
  {
    assert q * t == q * (t - 1) + q;
    assert q * t == q * (t + 1) - q;
  }

  /** Division by a positive constant steps up by one exactly at the multiples. */
  lemma DivStep(k: int, q: int)
    requires k >= 0 && q > 0
    ensures (k + 1) / q == k / q + (if (k + 1) % q == 0 then 1 else 0)
  {
    var a, b := k / q, k % q;
    if b == q - 1 {
      DivModUnique(k + 1, q, a + 1, 0);
    } else {
      DivModUnique(k + 1, q, a, b + 1);
    }
  }

  lemma {:induction false} NextYear(y: int)
    requires y >= 1
    ensures DaysBeforeYear(y + 1) == DaysBeforeYear(y) + DaysInYear(y)
  {
    var k := y - 1;
    DivStep(k, 4);
    DivStep(k, 100);
    DivStep(k, 400);
    if y % 100 == 0 {
      DivModUnique(y, 4, 25 * (y / 100), 0);
    }
    if y % 400 == 0 {
      DivModUnique(y, 100, 4 * (y / 400), 0);
    }
  }

  lemma NextMonth(y: int, m: int)
    requires 1 <= m < 12
    ensures DaysBeforeMonth(y, m + 1) == DaysBeforeMonth(y, m) + DaysInMonth(y, m)
  {
  }

  /** A month of a year ends no later than any later month of that year starts. */
  lemma {:induction false} MonthsInOrder(y: int, m1: int, m2: int)
    requires 1 <= m1 < m2 <= 12
    ensures DaysBeforeMonth(y, m1) + DaysInMonth(y, m1) <= DaysBeforeMonth(y, m2)
    decreases m2 - m1
  {
    NextMonth(y, m2 - 1);
    if m1 < m2 - 1 {
      MonthsInOrder(y, m1, m2 - 1);
    }
  }

  /** A year ends no later than any later year starts. */
  lemma {:induction false} YearsInOrder(y1: int, y2: int)
    requires 1 <= y1 < y2
    ensures DaysBeforeYear(y1) + DaysInYear(y1) <= DaysBeforeYear(y2)
    decreases y2 - y1
  {
    NextYear(y2 - 1);
    if y1 < y2 - 1 {
      YearsInOrder(y1, y2 - 1);
    }
  }

  lemma OrdinalIncreasing(a: Date, b: Date)
    requires Valid(a) && Valid(b) && Before(a, b)
    ensures Ordinal(a) < Ordinal(b)
  {
    if a.year < b.year {
      YearsInOrder(a.year, b.year);
    } else if a.month < b.month {
      MonthsInOrder(a.year, a.month, b.month);
    }
  }

  /**
   * On valid dates the ordinal follows the calendar order, so a date is
   * determined by its ordinal.
   */
  lemma OrdinalOrder(a: Date, b: Date)
    requires Valid(a) && Valid(b)
    ensures Before(a, b) <==> Ordinal(a) < Ordinal(b)
    ensures Ordinal(a) == Ordinal(b) <==> a == b
  {
    if Before(a, b) {
      OrdinalIncreasing(a, b);
    } else if Before(b, a) {
      OrdinalIncreasing(b, a);
    }
  }

  /** The day before `d`; there is none before 1 January of year 1. */
  function PrevDay(d: Date): (p: Date)
    requires Valid(d) && d != Date(MIN_YEAR, 1, 1)
    ensures Valid(p) && Before(p, d) && Ordinal(p) == Ordinal(d) - 1
  {
    if d.day > 1 then Date(d.year, d.month, d.day - 1)
    else if d.month > 1 then
      NextMonth(d.year, d.month - 1);
      Date(d.year, d.month - 1, DaysInMonth(d.year, d.month - 1))
    else
      NextYear(d.year - 1);
      Date(d.year - 1, 12, 31)
  }

  /** `d - timedelta(days=n)`, defined while the result stays on or after day 1. */
  function SubDays(d: Date, n: nat): (r: Date)
    requires Valid(d) && n < Ordinal(d)
    ensures Valid(r) && OnOrBefore(r, d) && Ordinal(r) == Ordinal(d) - n
    decreases n
  {
    if n == 0 then d else SubDays(PrevDay(d), n - 1)
  }

  /** The Monday on or before `d`: `d - timedelta(days=d.weekday())`. */
  function MondayOnOrBefore(d: Date): (r: Date)
    requires Valid(d)
    ensures Valid(r) && OnOrBefore(r, d)
    ensures Weekday(r) == 0 && 0 <= Ordinal(d) - Ordinal(r) <= 6
  {
    var o, w := Ordinal(d), Weekday(d);
    assert o + 6 == 7 * ((o + 6) / 7) + w;
    var r := SubDays(d, w);
    DivModUnique(Ordinal(r) + 6, 7, (o + 6) / 7, 0);
    r
  }

  /** `str(d)` for a date: `YYYY-MM-DD`, zero padded. */
  function IsoFormat(d: Date): (s: string)
    requires Valid(d)
    ensures |s| == 10 && s[4] == '-' && s[7] == '-'
  {
    Digits(d.year, 4) + "-" + Digits(d.month, 2) + "-" + Digits(d.day, 2)
  }

  function DigitChar(n: int): char
    requires 0 <= n <= 9
  {
    ('0' as int + n) as char
  }

  predicate IsDigit(c: char) {
    '0' <= c <= '9'
  }

  function DigitValue(c: char): (n: int)
    requires IsDigit(c)
    ensures 0 <= n <= 9 && DigitChar(n) == c
  {
    c as int - '0' as int
  }

  function Pow10(width: nat): (p: nat)
    ensures p >= 1
  {
    if width == 0 then 1 else 10 * Pow10(width - 1)
  }

  /** `n` written in decimal with exactly `width` digits, leading zeros included. */
  function Digits(n: int, width: nat): (s: string)
    requires 0 <= n < Pow10(width)
    ensures |s| == width && forall i :: 0 <= i < width ==> IsDigit(s[i])
  {
    if width == 0 then "" else Digits(n / 10, width - 1) + [DigitChar(n % 10)]
  }

  /** The number a string of decimal digits denotes. */
  function DecimalValue(s: string): (n: nat)
    requires forall i :: 0 <= i < |s| ==> IsDigit(s[i])
    ensures n < Pow10(|s|)
  {
    if s == [] then 0 else 10 * DecimalValue(s[..|s| - 1]) + DigitValue(s[|s| - 1])
  }

  lemma {:induction false} DecimalOfDigits(n: int, width: nat)
    requires 0 <= n < Pow10(width)
    ensures DecimalValue(Digits(n, width)) == n
  {
    if width > 0 {
      var s := Digits(n, width);
      assert s[..width - 1] == Digits(n / 10, width - 1);
      DecimalOfDigits(n / 10, width - 1);
    }
  }

  /** Reads `YYYY-MM-DD` back (as `date.fromisoformat` does for this form). */
  function ParseIso(s: string): (r: Option<Date>)
    ensures r.Some? ==> Valid(r.value)
  {
    if |s| == 10 && s[4] == '-' && s[7] == '-'
       && (forall i :: 0 <= i < 10 && i != 4 && i != 7 ==> IsDigit(s[i]))
    then
      var d := Date(DecimalValue(s[0..4]), DecimalValue(s[5..7]), DecimalValue(s[8..10]));
      if Valid(d) then Some(d) else None
    else None
  }

  lemma IsoRoundTrip(d: Date)
    requires Valid(d)
    ensures ParseIso(IsoFormat(d)) == Some(d)
  {
    var s := IsoFormat(d);
    assert s[0..4] == Digits(d.year, 4);
    assert s[5..7] == Digits(d.month, 2);
    assert s[8..10] == Digits(d.day, 2);
    DecimalOfDigits(d.year, 4);
    DecimalOfDigits(d.month, 2);
    DecimalOfDigits(d.day, 2);
  }

  /** Distinct dates have distinct labels. */
  lemma IsoFormatInjective(a: Date, b: Date)
    requires Valid(a) && Valid(b) && IsoFormat(a) == IsoFormat(b)
    ensures a == b
  {
    IsoRoundTrip(a);
    IsoRoundTrip(b);
  }
}
