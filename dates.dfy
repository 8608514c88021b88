/**
 * Calendar dates in the proleptic Gregorian calendar, as Python's `datetime.date`
 * has them: the leap-year rule, day arithmetic, the weekday (Monday = 0, as
 * `date.weekday()`) and the ISO 8601 week number (as `date.isocalendar()[1]`).
 */
module Dates {
  import opened Text

  /** A date as (year, month, day); ordering is lexicographic, as in Python. */
  datatype Date = Date(year: int, month: int, day: int)

  /** `datetime.MINYEAR` and `datetime.MAXYEAR`. */
  const MinYear: int := 1
  const MaxYear: int := 9999

  predicate IsLeap(y: int)
  {
    y % 4 == 0 && (y % 100 != 0 || y % 400 == 0)
  }

  function DaysInYear(y: int): int
  {
    if IsLeap(y) then 366 else 365
  }

  function DaysInMonth(y: int, m: int): int
    requires 1 <= m <= 12
  {
    if m == 2 then (if IsLeap(y) then 29 else 28)
    else if m == 4 || m == 6 || m == 9 || m == 11 then 30
    else 31
  }

  ghost predicate Valid(d: Date)
  {
    1 <= d.month <= 12 && 1 <= d.day <= DaysInMonth(d.year, d.month)
  }

  /** A date `datetime.date` can represent. */
  predicate InRange(d: Date)
  {
    1 <= d.month <= 12 && 1 <= d.day <= DaysInMonth(d.year, d.month) && MinYear <= d.year <= MaxYear
  }

  /** `a < b` on dates. */
  predicate Before(a: Date, b: Date)
  {
    a.year < b.year
    || (a.year == b.year && a.month < b.month)
    || (a.year == b.year && a.month == b.month && a.day < b.day)
  }

  /** `a <= b` on dates. */
  predicate NotAfter(a: Date, b: Date)
  {
    !Before(b, a)
  }

  /** `d + timedelta(days=1)`. */
  function NextDay(d: Date): (r: Date)
    requires Valid(d)
    ensures Valid(r) && Before(d, r)
  {
    if d.day < DaysInMonth(d.year, d.month) then Date(d.year, d.month, d.day + 1)
    else if d.month < 12 then Date(d.year, d.month + 1, 1)
    else Date(d.year + 1, 1, 1)
  }

  /** `d - timedelta(days=1)`. */
  function PrevDay(d: Date): (r: Date)
    requires Valid(d)
    ensures Valid(r) && NextDay(r) == d
  {
    if d.day > 1 then Date(d.year, d.month, d.day - 1)
    else if d.month > 1 then Date(d.year, d.month - 1, DaysInMonth(d.year, d.month - 1))
    else Date(d.year - 1, 12, 31)
  }

  /** `d + timedelta(days=n)`, one day at a time. */
  function AddDays(d: Date, n: nat): (r: Date)
    requires Valid(d)
    ensures Valid(r)
  {
    if n == 0 then d else NextDay(AddDays(d, n - 1))
  }

  /** The number of days of year `y` before the first of month `m`. */
  function DaysBeforeMonth(y: int, m: int): int
    requires 1 <= m <= 12
  {
    var common :=
      if m == 1 then 0 else if m == 2 then 31 else if m == 3 then 59
      else if m == 4 then 90 else if m == 5 then 120 else if m == 6 then 151
      else if m == 7 then 181 else if m == 8 then 212 else if m == 9 then 243
      else if m == 10 then 273 else if m == 11 then 304 else 334;
    common + (if m > 2 && IsLeap(y) then 1 else 0)
  }

  /** The 1-based position of `d` in its year (`d.timetuple().tm_yday`). */
  function DayOfYear(d: Date): int
    requires Valid(d)
  {
    DaysBeforeMonth(d.year, d.month) + d.day
  }

  lemma DaysBeforeMonthStep(y: int, m: int)
    requires 1 <= m < 12
    ensures DaysBeforeMonth(y, m + 1) == DaysBeforeMonth(y, m) + DaysInMonth(y, m)
    ensures DaysBeforeMonth(y, m + 1) <= DaysBeforeMonth(y, 12)
  {
  }

  /** Day `k` (0-based) of year `y`: January 1 advanced `k` days. */
  function NthDay(y: int, k: nat): (r: Date)
    ensures Valid(r)
  {
    AddDays(Date(y, 1, 1), k)
  }

  /** The first `DaysInYear(y)` days counted from January 1 all lie in year `y`, in order. */
  lemma {:induction false} NthDayInYear(y: int, k: nat)
    requires k < DaysInYear(y)
    ensures NthDay(y, k).year == y
    ensures DayOfYear(NthDay(y, k)) == k + 1
  {
    if k > 0 {
      NthDayInYear(y, k - 1);
      var d := NthDay(y, k - 1);
      assert NthDay(y, k) == NextDay(d);
      if d.day == DaysInMonth(d.year, d.month) && d.month < 12 {
        DaysBeforeMonthStep(y, d.month);
      }
    }
  }

  /** Day `DaysInYear(y) - 1` is December 31, and the day after it is January 1 of the next year. */
  lemma NthDayYearEnd(y: int)
    ensures NthDay(y, DaysInYear(y) - 1) == Date(y, 12, 31)
    ensures NthDay(y, DaysInYear(y)) == Date(y + 1, 1, 1)
  {
    var n := DaysInYear(y);
    NthDayInYear(y, n - 1);
    var d := NthDay(y, n - 1);
    if d.month < 12 {
      DaysBeforeMonthStep(y, d.month);
      assert false;
    }
    assert NthDay(y, n) == NextDay(d);
  }

  /** The number of days of all years before year `y`, counted from year 1 (as `date.toordinal()` counts). */
  function DaysBeforeYear(y: int): int
  {
    var p := y - 1;
    365 * p + p / 4 - p / 100 + p / 400
  }

  lemma DaysBeforeYearStep(y: int)
    ensures DaysBeforeYear(y + 1) == DaysBeforeYear(y) + DaysInYear(y)
  {
    DivStep(y, 4);
    DivStep(y, 100);
    DivStep(y, 400);
    LeapCount(y);
  }

  /** Leap years by inclusion and exclusion: multiples of 4, minus those of 100, plus those of 400. */
  lemma LeapCount(y: int)
    ensures (if y % 4 == 0 then 1 else 0) - (if y % 100 == 0 then 1 else 0) + (if y % 400 == 0 then 1 else 0)
      == (if IsLeap(y) then 1 else 0)
  {
    if y % 400 == 0 {
      var q := y / 400;
      assert y == 100 * (4 * q);
      DivisibleBy(y, 100, 4 * q);
    }
    if y % 100 == 0 {
      var q := y / 100;
      assert y == 4 * (25 * q);
      DivisibleBy(y, 4, 25 * q);
    }
  }

  lemma DivisibleBy(y: int, k: int, q: int)
    requires k > 0 && y == k * q
    ensures y % k == 0
  {
    DivUnique(y, k, q, 0);
  }

  /** The quotient and remainder of `n` by `k` are the unique ones. */
  lemma DivUnique(n: int, k: int, q: int, r: int)
    requires k > 0 && n == k * q + r && 0 <= r < k
    ensures n / k == q && n % k == r
  {
    var q', r' := n / k, n % k;
    assert n == k * q' + r' && 0 <= r' < k;
    var d := q - q';
    assert k * d == r' - r;
    if d >= 1 {
      MulAtLeast(k, d);
    } else if d <= -1 {
      MulAtLeast(k, -d);
    }
  }

  lemma MulAtLeast(k: int, m: int)
    requires k > 0 && m >= 1
    ensures k * m >= k
  {
    assert k * m == k + k * (m - 1);
  }

  /** Stepping from `y - 1` to `y` raises `y / k` exactly when `k` divides `y`. */
  lemma DivStep(y: int, k: int)
    requires k > 0
    ensures y / k - (y - 1) / k == (if y % k == 0 then 1 else 0)
  {
    var q, r := y / k, y % k;
    assert y == k * q + r && 0 <= r < k;
    if r == 0 {
      DivUnique(y - 1, k, q - 1, k - 1);
    } else {
      DivUnique(y - 1, k, q, r - 1);
    }
  }

  /** Weekday (Monday = 0) of January 1 of year `y`: January 1 of year 1 was a Monday. */
  function Jan1Weekday(y: int): (w: int)
    ensures 0 <= w < 7
  {
    DaysBeforeYear(y) % 7
  }

  lemma ModSeven(x: int, k: int)
    ensures (x % 7 + k) % 7 == (x + k) % 7
  {
    var q := x / 7;
    assert x == 7 * q + x % 7;
    assert x + k == 7 * q + (x % 7 + k);
  }

  /** January 1 of the next year falls `DaysInYear(y)` days after January 1 of `y`. */
  lemma Jan1WeekdayNextYear(y: int)
    ensures Jan1Weekday(y + 1) == (Jan1Weekday(y) + DaysInYear(y)) % 7
  {
    DaysBeforeYearStep(y);
    ModSeven(DaysBeforeYear(y), DaysInYear(y));
  }

  /** `d.weekday()`: Monday = 0 ... Sunday = 6. */
  function Weekday(d: Date): (w: int)
    requires Valid(d)
    ensures 0 <= w < 7
  {
    (Jan1Weekday(d.year) + DayOfYear(d) - 1) % 7
  }

  /** Within a year, the next day is one position further on. */
  lemma DayOfYearNextDay(d: Date)
    requires Valid(d) && (d.month < 12 || d.day < 31)
    ensures NextDay(d).year == d.year && DayOfYear(NextDay(d)) == DayOfYear(d) + 1
  {
    if d.day == DaysInMonth(d.year, d.month) {
      DaysBeforeMonthStep(d.year, d.month);
    }
  }

  /** December 31 is the last position of its year. */
  lemma DayOfYearDec31(y: int)
    ensures DayOfYear(Date(y, 12, 31)) == DaysInYear(y)
  {
  }

  /** Consecutive days have consecutive weekdays, across month and year ends too. */
  lemma WeekdayNextDay(d: Date)
    requires Valid(d)
    ensures Weekday(NextDay(d)) == (Weekday(d) + 1) % 7
  {
    var x := Jan1Weekday(d.year) + DayOfYear(d) - 1;
    assert Weekday(d) == x % 7;
    ModSeven(x, 1);
    if d.month < 12 || d.day < 31 {
      DayOfYearNextDay(d);
      assert Weekday(NextDay(d)) == (x + 1) % 7;
    } else {
      NextYearWeekday(d.year);
    }
  }

  /** The weekday of January 1 follows that of the previous December 31. */
  lemma NextYearWeekday(y: int)
    ensures var x := Jan1Weekday(y) + DayOfYear(Date(y, 12, 31)) - 1;
      Weekday(Date(y + 1, 1, 1)) == (x + 1) % 7
  {
    DayOfYearDec31(y);
    Jan1WeekdayNextYear(y);
    var j := Jan1Weekday(y + 1);
    assert Weekday(Date(y + 1, 1, 1)) == j % 7;
    ModSeven(j, 0);
  }

  /** The number of ISO 8601 weeks of year `y`: 53 when it starts on a Thursday, or is a leap year starting on a Wednesday. */
  function WeeksInYear(y: int): (n: int)
    ensures n == 52 || n == 53
  {
    var j := Jan1Weekday(y);
    if j == 3 || (IsLeap(y) && j == 2) then 53 else 52
  }

  /**
   * The number of ISO 8601 weeks of year `y - 1`, read off the weekday of
   * January 1 of `y` (the day after that year's last day).
   */
  function WeeksInPreviousYear(y: int): (n: int)
    ensures n == 52 || n == 53
  {
    var j := Jan1Weekday(y);
    if j == 4 || (IsLeap(y - 1) && j == 5) then 53 else 52
  }

  lemma WeeksInPreviousYearIs(y: int)
    ensures WeeksInPreviousYear(y) == WeeksInYear(y - 1)
  {
    Jan1WeekdayNextYear(y - 1);
  }

  /** `d.isocalendar()[1]`: the ISO 8601 week number of `d`. */
  function IsoWeek(d: Date): (w: int)
    requires Valid(d)
    ensures 1 <= w <= 53
  {
    var raw := (DayOfYear(d) - (Weekday(d) + 1) + 10) / 7;
    if raw < 1 then WeeksInPreviousYear(d.year)
    else if raw > WeeksInYear(d.year) then 1
    else raw
  }

  /** December 28 always lies in the last ISO week of its year. */
  lemma Dec28InLastIsoWeek(y: int)
    ensures IsoWeek(Date(y, 12, 28)) == WeeksInYear(y)
  {
  }

  /** `str(d)`-style "dd/mm/yyyy", as `strftime("%d/%m/%Y")` prints a date. */
  function DayMonthYear(d: Date): string
  {
    Pad2(d.day) + "/" + Pad2(d.month) + "/" + IntToString(d.year)
  }

  function Pad2(n: int): string
  {
    if 0 <= n < 10 then "0" + NatToString(n) else IntToString(n)
  }
}
