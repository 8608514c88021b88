/**
 * Small date and value helpers of the KPI services: the reporting date of a
 * month (`get_last_date`), the current-week label, and the test whether all
 * records carry one target and one actual value.
 */
module KpiPeriods {
  import opened Wrappers
  import opened Text
  import opened Dates
  import opened KpiErrors
  import KpiAggregation

  /** `(m - 1) // 3 + 1`: the quarter month `m` lies in. */
  function QuarterOf(m: int): (q: int)
    requires 1 <= m <= 12
    ensures 1 <= q <= 4
    ensures 3 * (q - 1) < m <= 3 * q
  {
    (m - 1) / 3 + 1
  }

  /** `__get_current_week`: "{year} - Q{quarter} - CW {ISO week}". */
  function CurrentWeek(today: Date): (s: string)
    requires Valid(today)
    ensures s == IntToString(today.year) + " - Q" + IntToString(QuarterOf(today.month))
                 + " - CW " + IntToString(IsoWeek(today))
  {
    IntToString(today.year) + " - Q" + IntToString(QuarterOf(today.month)) + " - CW " + IntToString(IsoWeek(today))
  }

  lemma {:induction false} AddDaysWithinMonth(d: Date, n: nat)
    requires Valid(d) && d.day + n <= DaysInMonth(d.year, d.month)
    ensures AddDays(d, n) == d.(day := d.day + n)
    decreases n
  {
    if n > 0 {
      AddDaysWithinMonth(d, n - 1);
    }
  }

  lemma {:induction false} AddDaysSplit(d: Date, a: nat, b: nat)
    requires Valid(d)
    ensures AddDays(d, a + b) == AddDays(AddDays(d, a), b)
    decreases b
  {
    if b > 0 {
      AddDaysSplit(d, a, b - 1);
    }
  }

  /** The first day of the month after `(year, month)`. */
  function FirstOfNextMonth(year: int, month: int): Date
    requires 1 <= month <= 12
  {
    if month < 12 then Date(year, month + 1, 1) else Date(year + 1, 1, 1)
  }

  /** Thirty-one days after the first of a month is a day of the next month. */
  lemma ThirtyOneDaysOn(year: int, month: int)
    requires 1 <= month <= 12
    ensures AddDays(Date(year, month, 1), 31)
         == FirstOfNextMonth(year, month).(day := 32 - DaysInMonth(year, month))
  {
    var first := Date(year, month, 1);
    var n := DaysInMonth(year, month);
    AddDaysWithinMonth(first, n - 1);
    AddDaysSplit(first, n - 1, 1);
    assert AddDays(first, n) == FirstOfNextMonth(year, month);
    AddDaysSplit(first, n, 31 - n);
    AddDaysWithinMonth(FirstOfNextMonth(year, month), 31 - n);
  }

  /**
   * The last day of `(year, month)` computed as the source does:
   * `date(year, month, 1) + 31 days`, then `replace(day=1)`, then `- 1 day`.
   * A month or year `datetime.date` rejects is a `ValueError`; December of
   * year 9999 runs past the last representable date (`OverflowError`).
   */
  function LastDayOfMonth(year: int, month: int): (r: Result<Date, KpiError>)
    ensures r.Ok? <==> 1 <= month <= 12 && MinYear <= year <= MaxYear && !(year == MaxYear && month == 12)
    ensures !(1 <= month <= 12 && MinYear <= year <= MaxYear) ==> r == Err(ValueError)
    ensures r.Ok? ==> r.value == Date(year, month, DaysInMonth(year, month))
  {
    if !(1 <= month <= 12 && MinYear <= year <= MaxYear) then Err(ValueError)
    else
      var later := AddDays(Date(year, month, 1), 31);
      ThirtyOneDaysOn(year, month);
      if later.year > MaxYear then Err(OverflowError)
      else Ok(PrevDay(later.(day := 1)))
  }

  /** What `get_last_date` returns. */
  datatype LastDate = LastDate(year: int, month: int, date: Date, currentWeek: string)

  /**
   * `get_last_date`: year and month come from the query, defaulting to the
   * current ones. For the current month the date is today; for any other
   * month it is that month's last day.
   */
  /**
   * `int(query_params.get(key, default))`: the default when the key is absent,
   * otherwise the query string parsed as an integer (`None` where `int()`
   * raises ValueError).
   */
  function QueryInt(q: Option<string>, default: int): (r: Option<int>)
    ensures q.None? ==> r == Some(default)
    ensures q.Some? ==> r == ParseInt(q.value)
  {
    match q
    case None => Some(default)
    case Some(s) => ParseInt(s)
  }

  function GetLastDate(queryYear: Option<string>, queryMonth: Option<string>, now: Date, today: Date)
    : (r: Result<LastDate, KpiError>)
    requires Valid(today)
    ensures QueryInt(queryYear, now.year).None? || QueryInt(queryMonth, now.month).None? ==> r == Err(ValueError)
    ensures QueryInt(queryYear, now.year).Some? && QueryInt(queryMonth, now.month).Some? ==>
      var y := QueryInt(queryYear, now.year).value;
      var m := QueryInt(queryMonth, now.month).value;
      (r.Err? <==> !(y == today.year && m == today.month) && LastDayOfMonth(y, m).Err?)
    ensures r.Ok? ==> r.value.currentWeek == CurrentWeek(today)
    ensures r.Ok? ==> Some(r.value.year) == QueryInt(queryYear, now.year)
    ensures r.Ok? ==> Some(r.value.month) == QueryInt(queryMonth, now.month)
    ensures r.Ok? && r.value.year == today.year && r.value.month == today.month ==> r.value.date == today
    ensures r.Ok? && !(r.value.year == today.year && r.value.month == today.month) ==>
      1 <= r.value.month <= 12 && r.value.date == Date(r.value.year, r.value.month, DaysInMonth(r.value.year, r.value.month))
    ensures r.Ok? ==> r.value.date.year == r.value.year && r.value.date.month == r.value.month
  {
    match (QueryInt(queryYear, now.year), QueryInt(queryMonth, now.month))
    case (None, _) => Err(ValueError)
    case (_, None) => Err(ValueError)
    case (Some(year), Some(month)) =>
      var currentWeek := CurrentWeek(today);
      if today.year == year && today.month == month then Ok(LastDate(year, month, today, currentWeek))
      else match LastDayOfMonth(year, month)
        case Err(e) => Err(e)
        case Ok(d) => Ok(LastDate(year, month, d, currentWeek))
  }

  /** A query that spells out the current year and month behaves like one that omits them. */
  lemma GetLastDateExplicitCurrent(now: Date, today: Date)
    requires Valid(today)
    ensures GetLastDate(Some(IntToString(now.year)), Some(IntToString(now.month)), now, today)
         == GetLastDate(None, None, now, today)
  {
    ParseIntToString(now.year);
    ParseIntToString(now.month);
  }

  /** The target (`pickTarget`) or the actual of a record. */
  function Pick(t: KpiAggregation.Totals, pickTarget: bool): int
  {
    if pickTarget then t.target else t.actual
  }

  /**
   * `check_all_data_same_on_not`: whether the records hold exactly one
   * distinct target and exactly one distinct actual (so an empty list is
   * (False, False)).
   */
  method CheckAllDataSame(data: seq<KpiAggregation.Totals>) returns (sameTarget: bool, sameActual: bool)
    ensures sameTarget <==> |data| > 0 && forall i :: 0 <= i < |data| ==> data[i].target == data[0].target
    ensures sameActual <==> |data| > 0 && forall i :: 0 <= i < |data| ==> data[i].actual == data[0].actual
  {
    var targetValues: set<int> := {};
    var actualValues: set<int> := {};
    var i := 0;
    while i < |data|
      invariant 0 <= i <= |data|
      invariant targetValues == set j | 0 <= j < i :: Pick(data[j], true)
      invariant actualValues == set j | 0 <= j < i :: Pick(data[j], false)
    {
      targetValues := targetValues + {data[i].target};
      actualValues := actualValues + {data[i].actual};
      i := i + 1;
    }
    sameTarget := |targetValues| == 1;
    sameActual := |actualValues| == 1;
    SingletonIffAllEqual(data, true, targetValues);
    SingletonIffAllEqual(data, false, actualValues);
  }

  /** The values of a list form a one-element set exactly when the list is non-empty and constant. */
  lemma SingletonIffAllEqual(data: seq<KpiAggregation.Totals>, pickTarget: bool, s: set<int>)
    requires s == set j | 0 <= j < |data| :: Pick(data[j], pickTarget)
    ensures |s| == 1 <==> |data| > 0 && forall i :: 0 <= i < |data| ==> Pick(data[i], pickTarget) == Pick(data[0], pickTarget)
  {
    if |data| > 0 && forall i :: 0 <= i < |data| ==> Pick(data[i], pickTarget) == Pick(data[0], pickTarget) {
      assert s == {Pick(data[0], pickTarget)};
    }
    if |s| == 1 {
      var v :| v in s;
      assert |s - {v}| == 0;
      assert |data| > 0;
      forall i | 0 <= i < |data|
        ensures Pick(data[i], pickTarget) == Pick(data[0], pickTarget)
      {
        assert Pick(data[i], pickTarget) in s && Pick(data[0], pickTarget) in s;
      }
    }
  }
}
