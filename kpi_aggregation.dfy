/**
 * The target/actual arithmetic of `KPIFrequencyAppServices`: month-to-date and
 * year-to-date sums over a KPI's daily records, the ratio of two absolute KPIs
 * that defines a percentage or euro/unit KPI, and the achievement percentage.
 */
module KpiAggregation {
  import opened Wrappers
  import opened Dates
  import opened KpiFrequency
  import opened KpiErrors
  import KpiModels

  /** A (target, actual) pair of sums. */
  datatype Totals = Totals(target: int, actual: int)

  function Add(a: Totals, b: Totals): Totals
  {
    Totals(a.target + b.target, a.actual + b.actual)
  }

  function Of(r: DayRecord): Totals
  {
    Totals(r.target, r.actual)
  }

  /** Which records a sum takes. */
  datatype Selection =
    | Every                                  // every record
    | MonthUntil(month: string, until: Date) // labelled `month` and dated on or before `until`
    | Until(until: Date)                     // dated on or before `until`

  predicate Selects(s: Selection, r: DayRecord)
  {
    match s
    case Every => true
    case MonthUntil(m, d) => r.month == m && NotAfter(r.date, d)
    case Until(d) => NotAfter(r.date, d)
  }

  /** The sum of target and actual over the selected records. */
  function Sum(data: seq<DayRecord>, s: Selection): Totals
    decreases |data|
  {
    if data == [] then Totals(0, 0)
    else
      var last := data[|data| - 1];
      var rest := Sum(data[..|data| - 1], s);
      if Selects(s, last) then Add(rest, Of(last)) else rest
  }

  lemma {:induction false} SumAppend(a: seq<DayRecord>, b: seq<DayRecord>, s: Selection)
    ensures Sum(a + b, s) == Add(Sum(a, s), Sum(b, s))
    decreases |b|
  {
    if b == [] {
      assert a + b == a;
    } else {
      var b' := b[..|b| - 1];
      assert (a + b)[..|a + b| - 1] == a + b';
      SumAppend(a, b', s);
    }
  }

  /** What one record contributes to a sum. */
  function Picked(s: Selection, r: DayRecord): Totals
  {
    if Selects(s, r) then Of(r) else Totals(0, 0)
  }

  lemma SumRemove(b: seq<DayRecord>, j: nat, s: Selection)
    requires j < |b|
    ensures Sum(b, s) == Add(Sum(b[..j] + b[j + 1..], s), Picked(s, b[j]))
  {
    assert b == (b[..j] + [b[j]]) + b[j + 1..];
    SumAppend(b[..j] + [b[j]], b[j + 1..], s);
    SumAppend(b[..j], [b[j]], s);
    SumAppend(b[..j], b[j + 1..], s);
    assert [b[j]][..0] == [];
  }

  lemma MultisetRemove(b: seq<DayRecord>, j: nat)
    requires j < |b|
    ensures multiset(b[..j] + b[j + 1..]) == multiset(b) - multiset{b[j]}
  {
    assert b == b[..j] + [b[j]] + b[j + 1..];
    assert multiset(b) == multiset(b[..j]) + multiset{b[j]} + multiset(b[j + 1..]);
  }

  /** The sum does not depend on the order of the records. */
  lemma {:induction false} SumPermutation(a: seq<DayRecord>, b: seq<DayRecord>, s: Selection)
    requires multiset(a) == multiset(b)
    ensures Sum(a, s) == Sum(b, s)
    decreases |a|
  {
    if a == [] {
      assert b == [];
    } else {
      var x := a[|a| - 1];
      var a' := a[..|a| - 1];
      assert a == a' + [x];
      assert multiset(a') == multiset(a) - multiset{x};
      assert x in multiset(b);
      var j :| 0 <= j < |b| && b[j] == x;
      MultisetRemove(b, j);
      SumPermutation(a', b[..j] + b[j + 1..], s);
      SumRemove(b, j, s);
    }
  }

  /** When every record is selected, the selection is the plain sum. */
  lemma {:induction false} SumAllSelected(data: seq<DayRecord>, s: Selection)
    requires forall i :: 0 <= i < |data| ==> Selects(s, data[i])
    ensures Sum(data, s) == Sum(data, Every)
    decreases |data|
  {
    if data != [] {
      SumAllSelected(data[..|data| - 1], s);
    }
  }

  /** When no record is selected, the sum is zero. */
  lemma {:induction false} SumNoneSelected(data: seq<DayRecord>, s: Selection)
    requires forall i :: 0 <= i < |data| ==> !Selects(s, data[i])
    ensures Sum(data, s) == Totals(0, 0)
    decreases |data|
  {
    if data != [] {
      SumNoneSelected(data[..|data| - 1], s);
    }
  }

  /** The index of the first record dated `d`, or `|data|` when there is none. */
  function FirstDated(data: seq<DayRecord>, d: Date): (i: nat)
    ensures i <= |data|
    ensures forall j :: 0 <= j < i ==> data[j].date != d
    ensures i < |data| ==> data[i].date == d
  {
    if data == [] then 0
    else if data[0].date == d then 0
    else 1 + FirstDated(data[1..], d)
  }

  /** How many leading records the year-to-date sum takes: up to and including the first one dated `d`. */
  function YearToDateLength(data: seq<DayRecord>, d: Date): (n: nat)
    ensures n <= |data|
  {
    var i := FirstDated(data, d);
    if i < |data| then i + 1 else |data|
  }

  /** The year-to-date sums: every record of the prefix ending at the first record dated `d`. */
  function YearToDate(data: seq<DayRecord>, d: Date): Totals
  {
    Sum(data[..YearToDateLength(data, d)], Every)
  }

  /** What `count_target_actual_until_date` computes for `for_month`. */
  function Count(data: seq<DayRecord>, targetMonth: string, targetDate: Date, forMonth: bool): Totals
  {
    if forMonth then Sum(data, MonthUntil(targetMonth, targetDate)) else YearToDate(data, targetDate)
  }

  /**
   * `count_target_actual_until_date`: in month mode, the sums over the records
   * labelled `targetMonth` dated on or before `targetDate`; in year-to-date mode,
   * the running sums up to and including the first record dated `targetDate`.
   */
  method CountTargetActualUntilDate(data: seq<DayRecord>, targetMonth: string, targetDate: Date, forMonth: bool)
    returns (targetCount: int, actualCount: int)
    ensures forMonth ==> Totals(targetCount, actualCount) == Sum(data, MonthUntil(targetMonth, targetDate))
    ensures !forMonth ==> Totals(targetCount, actualCount) == YearToDate(data, targetDate)
  {
    targetCount, actualCount := 0, 0;
    var i := 0;
    while i < |data|
      invariant 0 <= i <= |data|
      invariant forMonth ==> Totals(targetCount, actualCount) == Sum(data[..i], MonthUntil(targetMonth, targetDate))
      invariant !forMonth ==> Totals(targetCount, actualCount) == Sum(data[..i], Every)
      invariant !forMonth ==> forall j :: 0 <= j < i ==> data[j].date != targetDate
    {
      var entry := data[i];
      assert data[..i + 1][..i] == data[..i];
      if forMonth {
        if entry.month == targetMonth && NotAfter(entry.date, targetDate) {
          targetCount := targetCount + entry.target;
          actualCount := actualCount + entry.actual;
        }
      } else {
        targetCount := targetCount + entry.target;
        actualCount := actualCount + entry.actual;
        if entry.date == targetDate {
          assert FirstDated(data, targetDate) == i;
          return;
        }
      }
      i := i + 1;
    }
    assert data[..i] == data;
  }

  /** Month mode does not depend on the order of the records. */
  lemma MonthToDateOrderFree(a: seq<DayRecord>, b: seq<DayRecord>, targetMonth: string, targetDate: Date)
    requires multiset(a) == multiset(b)
    ensures Count(a, targetMonth, targetDate, true) == Count(b, targetMonth, targetDate, true)
  {
    SumPermutation(a, b, MonthUntil(targetMonth, targetDate));
  }

  /** Without a record dated `d`, year-to-date mode sums the whole list. */
  lemma YearToDateWithoutDate(data: seq<DayRecord>, d: Date)
    requires forall i :: 0 <= i < |data| ==> data[i].date != d
    ensures YearToDate(data, d) == Sum(data, Every)
  {
    assert data[..|data|] == data;
  }

  /** Records in strictly increasing date order, as the calendar skeleton lays them out. */
  predicate Chronological(data: seq<DayRecord>)
  {
    forall i, j :: 0 <= i < j < |data| ==> Before(data[i].date, data[j].date)
  }

  /**
   * On chronological records that include the day `d`, year-to-date mode sums
   * exactly the records dated on or before `d`.
   */
  lemma YearToDateOnChronological(data: seq<DayRecord>, d: Date)
    requires Chronological(data)
    requires exists i :: 0 <= i < |data| && data[i].date == d
    ensures YearToDate(data, d) == Sum(data, Until(d))
  {
    var k := FirstDated(data, d);
    var n := YearToDateLength(data, d);
    assert n == k + 1;
    assert data == data[..n] + data[n..];
    SumAppend(data[..n], data[n..], Until(d));
    SumAllSelected(data[..n], Until(d));
    SumNoneSelected(data[n..], Until(d));
  }

  /**
   * `float(n) / float(d)`, times 100 for a percentage KPI; 0 when the
   * denominator is 0.
   */
  function Ratio(numerator: int, denominator: int, isPercentage: bool): (q: real)
    ensures denominator == 0 ==> q == 0.0
    ensures denominator != 0 ==>
      q * (denominator as real) == (numerator as real) * (if isPercentage then 100.0 else 1.0)
  {
    if denominator == 0 then 0.0
    else if isPercentage then (numerator as real / denominator as real) * 100.0
    else numerator as real / denominator as real
  }

  /**
   * `count_target_actual_for_related_kpi`: the sums of every related KPI, then
   * target and actual of the first divided independently by those of the second.
   * Fewer than two related KPIs is an `IndexError`.
   */
  method CountTargetActualForRelatedKpi(related: seq<seq<DayRecord>>, targetMonth: string, targetDate: Date,
                                        forMonth: bool, isPercentage: bool)
    returns (r: Result<(real, real), KpiError>)
    ensures |related| < 2 <==> r.Err?
    ensures r.Err? ==> r.error == IndexError
    ensures r.Ok? ==>
      var num := Count(related[0], targetMonth, targetDate, forMonth);
      var den := Count(related[1], targetMonth, targetDate, forMonth);
      r.value == (Ratio(num.target, den.target, isPercentage), Ratio(num.actual, den.actual, isPercentage))
  {
    var targetCounts: seq<int> := [];
    var actualCounts: seq<int> := [];
    var i := 0;
    while i < |related|
      invariant 0 <= i <= |related|
      invariant |targetCounts| == i && |actualCounts| == i
      invariant forall j :: 0 <= j < i ==>
        Totals(targetCounts[j], actualCounts[j]) == Count(related[j], targetMonth, targetDate, forMonth)
    {
      var t, a := CountTargetActualUntilDate(related[i], targetMonth, targetDate, forMonth);
      targetCounts := targetCounts + [t];
      actualCounts := actualCounts + [a];
      i := i + 1;
    }
    if |related| < 2 {
      return Err(IndexError);
    }
    r := Ok((Ratio(targetCounts[0], targetCounts[1], isPercentage),
             Ratio(actualCounts[0], actualCounts[1], isPercentage)));
  }

  /** `get_percentage`: actual as a percentage of base; 0 for a base that is not positive. */
  function GetPercentage(base: real, actual: real): (p: real)
    ensures base <= 0.0 ==> p == 0.0
    ensures base > 0.0 ==> p * base == actual * 100.0
  {
    if base <= 0.0 then 0.0 else (actual * 100.0) / base
  }

  /** Achievement is 100 exactly when the actual meets a positive target. */
  lemma PercentageOfTarget(base: real, actual: real)
    requires base > 0.0
    ensures GetPercentage(base, actual) == 100.0 <==> actual == base
    ensures GetPercentage(base, actual) >= 100.0 <==> actual >= base
  {
    var p := GetPercentage(base, actual);
    assert p * base == actual * 100.0;
    if p >= 100.0 {
      assert p * base >= 100.0 * base;
    } else {
      assert p * base < 100.0 * base;
    }
  }

  /** The window of a total: the month so far, or the year so far. */
  datatype Window = MonthToDate | YearToDateWindow

  /** Which of the three numbers a `calculate_total_*` method returns. */
  datatype Measure = Target | Actual | Percent

  /**
   * What a `calculate_total_*` method sees: the KPI's unit type, the daily
   * series of its own frequency rows, and those of the absolute KPIs linked
   * to it by `list_relative_absolute_kpis` (in linkage order; usually none
   * for an absolute KPI), with the target month name and date from the context.
   */
  datatype TotalsContext = TotalsContext(
    unitType: string,
    ownRows: seq<seq<DayRecord>>,
    relatedRows: seq<seq<DayRecord>>,
    targetMonth: string,
    targetDate: Date)

  /**
   * Whether the method builds its related rows itself: `calculate_total_ytd_actual`
   * queries the linked KPIs' rows directly, for every unit type, while the
   * other five take them from `get_related_kpi_frequencies`, which yields None
   * for an absolute KPI.
   */
  predicate RebuildsRelated(w: Window, m: Measure)
  {
    w == YearToDateWindow && m == Actual
  }

  /**
   * The (target, actual) pair a `calculate_total_*` method works from. A KPI
   * with its own frequency row uses its first row's sums. Otherwise the ratio
   * of its first two related KPIs is taken, scaled by 100 unless the unit type
   * is euro/unit. Where the related rows come from `get_related_kpi_frequencies`,
   * an absolute KPI has none at all (None), so iterating them is a `TypeError`.
   */
  function TargetAndActual(ctx: TotalsContext, w: Window, m: Measure): (r: Result<(real, real), KpiError>)
    ensures |ctx.ownRows| > 0 ==> r.Ok?
    ensures |ctx.ownRows| == 0 && ctx.unitType == KpiModels.Absolute && !RebuildsRelated(w, m) ==>
      r == Err(TypeError)
    ensures |ctx.ownRows| == 0 && (ctx.unitType != KpiModels.Absolute || RebuildsRelated(w, m)) ==>
      (r.Ok? <==> |ctx.relatedRows| >= 2) && (r.Err? ==> r == Err(IndexError))
  {
    var forMonth := w == MonthToDate;
    if |ctx.ownRows| > 0 then
      var t := Count(ctx.ownRows[0], ctx.targetMonth, ctx.targetDate, forMonth);
      Ok((t.target as real, t.actual as real))
    else if ctx.unitType == KpiModels.Absolute && !RebuildsRelated(w, m) then Err(TypeError)
    else if |ctx.relatedRows| < 2 then Err(IndexError)
    else
      var isPercentage := ctx.unitType != KpiModels.EuroUnit;
      var num := Count(ctx.relatedRows[0], ctx.targetMonth, ctx.targetDate, forMonth);
      var den := Count(ctx.relatedRows[1], ctx.targetMonth, ctx.targetDate, forMonth);
      Ok((Ratio(num.target, den.target, isPercentage), Ratio(num.actual, den.actual, isPercentage)))
  }

  /**
   * The year-to-date actual of an absolute KPI without its own row is the
   * percentage ratio of the actuals of its first two linked KPIs, and an
   * index error with fewer than two; its other five totals are a type error.
   */
  lemma AbsoluteYtdActual(ctx: TotalsContext, w: Window, m: Measure)
    requires |ctx.ownRows| == 0 && ctx.unitType == KpiModels.Absolute
    ensures TargetAndActual(ctx, w, m).Err? <==> !RebuildsRelated(w, m) || |ctx.relatedRows| < 2
    ensures RebuildsRelated(w, m) && |ctx.relatedRows| >= 2 ==>
      var num := Count(ctx.relatedRows[0], ctx.targetMonth, ctx.targetDate, false);
      var den := Count(ctx.relatedRows[1], ctx.targetMonth, ctx.targetDate, false);
      TargetAndActual(ctx, w, m).value.1 == Ratio(num.actual, den.actual, true)
  {
    assert KpiModels.Absolute != KpiModels.EuroUnit;
  }

  /**
   * The six `calculate_total_{monthly,ytd}_{target,actual,percentage}` methods:
   * the target, the actual, or `get_percentage` of that same pair.
   */
  method CalculateTotal(ctx: TotalsContext, w: Window, m: Measure) returns (r: Result<real, KpiError>)
    ensures TargetAndActual(ctx, w, m).Err? ==> r == Err(TargetAndActual(ctx, w, m).error)
    ensures TargetAndActual(ctx, w, m).Ok? ==>
      var (t, a) := TargetAndActual(ctx, w, m).value;
      r == Ok(match m case Target => t case Actual => a case Percent => GetPercentage(t, a))
  {
    var forMonth := w == MonthToDate;
    var pair: (real, real);
    if |ctx.ownRows| > 0 {
      var t, a := CountTargetActualUntilDate(ctx.ownRows[0], ctx.targetMonth, ctx.targetDate, forMonth);
      pair := (t as real, a as real);
    } else if ctx.unitType == KpiModels.Absolute && !RebuildsRelated(w, m) {
      return Err(TypeError);
    } else {
      var isPercentage := ctx.unitType != KpiModels.EuroUnit;
      var ratio := CountTargetActualForRelatedKpi(ctx.relatedRows, ctx.targetMonth, ctx.targetDate,
                                                  forMonth, isPercentage);
      if ratio.Err? {
        return Err(ratio.error);
      }
      pair := ratio.value;
    }
    match m
    case Target => r := Ok(pair.0);
    case Actual => r := Ok(pair.1);
    case Percent => r := Ok(GetPercentage(pair.0, pair.1));
  }

  /** A KPI with its own frequency row never looks at its related KPIs. */
  lemma OwnRowWins(ctx: TotalsContext, related: seq<seq<DayRecord>>, w: Window, m: Measure)
    requires |ctx.ownRows| > 0
    ensures TargetAndActual(ctx, w, m) == TargetAndActual(ctx.(relatedRows := related), w, m)
  {
  }

  /**
   * `count_target_actual_until_date_data`: the year-to-date sums up to `today`
   * (the source reads the clock; here it is a parameter).
   */
  method CountTargetActualUntilToday(data: seq<DayRecord>, today: Date) returns (targetCount: int, actualCount: int)
    ensures Totals(targetCount, actualCount) == YearToDate(data, today)
  {
    targetCount, actualCount := 0, 0;
    var i := 0;
    while i < |data|
      invariant 0 <= i <= |data|
      invariant Totals(targetCount, actualCount) == Sum(data[..i], Every)
      invariant forall j :: 0 <= j < i ==> data[j].date != today
    {
      var entry := data[i];
      assert data[..i + 1][..i] == data[..i];
      targetCount := targetCount + entry.target;
      actualCount := actualCount + entry.actual;
      if entry.date == today {
        assert FirstDated(data, today) == i;
        return;
      }
      i := i + 1;
    }
    assert data[..i] == data;
  }

  /**
   * `calculate_total_ytd_data`: for the KPI's frequency rows of the requested
   * year, the year-to-date target, actual and percentage of the first row, or
   * (0, 0, 0) when there is none.
   */
  method CalculateTotalYtdData(rows: seq<FrequencyRow>, today: Date)
    returns (targetCount: int, actualCount: int, percentage: real)
    ensures |rows| == 0 ==> targetCount == 0 && actualCount == 0 && percentage == 0.0
    ensures |rows| > 0 ==>
      Totals(targetCount, actualCount) == YearToDate(rows[0].series.daily, today)
      && percentage == GetPercentage(targetCount as real, actualCount as real)
  {
    if |rows| == 0 {
      return 0, 0, 0.0;
    }
    targetCount, actualCount := CountTargetActualUntilToday(rows[0].series.daily, today);
    percentage := GetPercentage(targetCount as real, actualCount as real);
  }
}
