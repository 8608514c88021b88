/**
 * The period breakdown views of `KPIFrequencyAppServices`: per-quarter and
 * per-month target/actual/percentage tables keyed `quarter_{q}_{year}` and
 * `month_{m}_{year}`, and the yearly totals, each with a zero-filled answer
 * when the KPI has no frequency row for the year.
 */
module KpiBreakdown {
  import opened Wrappers
  import opened Text
  import opened KpiFrequency
  import opened KpiErrors
  import opened KpiAggregation

  /** The result dict `{"target": {...}, "actual": {...}, "percentage": {...}}`. */
  datatype Breakdown = Breakdown(target: map<PeriodKey, int>, actual: map<PeriodKey, int>, percentage: map<PeriodKey, real>)

  datatype Granularity = Quarterly | Monthly

  /** The number of periods of a year. */
  function PeriodCount(g: Granularity): nat
  {
    match g
    case Quarterly => 4
    case Monthly => 12
  }

  /** A key of the result dicts: rendered by `KeyText` as `quarter_{q}_{year}` or `month_{m}_{year}`. */
  datatype PeriodKey = PeriodKey(g: Granularity, period: int, year: int)

  function KeyPrefix(g: Granularity): string
  {
    match g
    case Quarterly => "quarter_"
    case Monthly => "month_"
  }

  /** The dict key string. */
  function KeyText(k: PeriodKey): string
  {
    KeyPrefix(k.g) + IntToString(k.period) + "_" + IntToString(k.year)
  }

  lemma MiddleCancel(p: string, a: string, b: string, s: string)
    requires p + a + s == p + b + s
    ensures a == b
  {
    var x := p + a + s;
    var y := p + b + s;
    assert |a| == |b|;
    forall i | 0 <= i < |a|
      ensures a[i] == b[i]
    {
      assert x[|p| + i] == a[i];
      assert y[|p| + i] == b[i];
    }
  }

  /**
   * Keys of one granularity and year render to distinct strings for distinct
   * periods, so keying the dicts by `PeriodKey` loses nothing.
   */
  lemma KeyTextInjective(g: Granularity, p: nat, q: nat, year: int)
    requires KeyText(PeriodKey(g, p, year)) == KeyText(PeriodKey(g, q, year))
    ensures p == q
  {
    var pre, a, b, y := KeyPrefix(g), IntToString(p), IntToString(q), IntToString(year);
    var suffix := "_" + y;
    assert pre + a + "_" + y == pre + a + suffix;
    assert pre + b + "_" + y == pre + b + suffix;
    MiddleCancel(pre, a, b, suffix);
    NatToStringInjective(p, q);
  }

  function Key(g: Granularity, period: int, year: int): PeriodKey
  {
    PeriodKey(g, period, year)
  }

  /** The series a view reads. */
  function Records(s: Series, g: Granularity): seq<PeriodTotals>
  {
    match g
    case Quarterly => s.quarterly
    case Monthly => s.monthly
  }

  function WithRecords(s: Series, g: Granularity, recs: seq<PeriodTotals>): (s': Series)
    ensures Records(s', g) == recs
  {
    match g
    case Quarterly => s.(quarterly := recs)
    case Monthly => s.(monthly := recs)
  }

  /** The record after the view writes its `percentage`. */
  function WithPercentage(r: PeriodTotals): PeriodTotals
  {
    r.(percentage := Some(GetPercentage(r.target as real, r.actual as real)))
  }

  /** Every record after the view's pass over them. */
  function WithPercentages(recs: seq<PeriodTotals>): (out: seq<PeriodTotals>)
    ensures |out| == |recs|
    ensures forall i :: 0 <= i < |recs| ==> out[i] == WithPercentage(recs[i])
  {
    seq(|recs|, i requires 0 <= i < |recs| => WithPercentage(recs[i]))
  }

  /**
   * The table built from `recs` in order: each record sets its key in the
   * three maps, a later record with the same key overwriting an earlier one.
   */
  function Tabulate(recs: seq<PeriodTotals>, g: Granularity, year: int): (b: Breakdown)
    ensures b.target.Keys == b.actual.Keys == b.percentage.Keys
    ensures b.target.Keys == set i | 0 <= i < |recs| :: Key(g, recs[i].period, year)
    ensures forall k :: k in b.target.Keys ==>
      b.percentage[k] == GetPercentage(b.target[k] as real, b.actual[k] as real)
    decreases |recs|
  {
    if recs == [] then Breakdown(map[], map[], map[])
    else
      var r := recs[|recs| - 1];
      var b := Tabulate(recs[..|recs| - 1], g, year);
      var k := Key(g, r.period, year);
      assert forall i :: 0 <= i < |recs| - 1 ==> recs[..|recs| - 1][i] == recs[i];
      Breakdown(b.target[k := r.target], b.actual[k := r.actual],
                b.percentage[k := GetPercentage(r.target as real, r.actual as real)])
  }

  /** The last record carrying a key is the one the table shows for it. */
  lemma {:induction false} TabulateLastWins(recs: seq<PeriodTotals>, g: Granularity, year: int, i: nat)
    requires i < |recs|
    requires forall j :: i < j < |recs| ==> Key(g, recs[j].period, year) != Key(g, recs[i].period, year)
    ensures Tabulate(recs, g, year).target[Key(g, recs[i].period, year)] == recs[i].target
    ensures Tabulate(recs, g, year).actual[Key(g, recs[i].period, year)] == recs[i].actual
    decreases |recs|
  {
    if i < |recs| - 1 {
      var init := recs[..|recs| - 1];
      assert init[i] == recs[i];
      TabulateLastWins(init, g, year, i);
    }
  }

  /** The periods `1..PeriodCount(g)` of `year`. */
  function ZeroKeys(g: Granularity, year: int): set<PeriodKey>
  {
    set p | 1 <= p <= PeriodCount(g) :: Key(g, p, year)
  }

  /** The fallback table: every period of the year set to 0 in all three maps. */
  function ZeroFilled(g: Granularity, year: int): (b: Breakdown)
    ensures b.target.Keys == b.actual.Keys == b.percentage.Keys == ZeroKeys(g, year)
    ensures forall k :: k in b.target.Keys ==> b.target[k] == 0 && b.actual[k] == 0 && b.percentage[k] == 0.0
  {
    var keys := ZeroKeys(g, year);
    Breakdown(map k | k in keys :: 0, map k | k in keys :: 0, map k | k in keys :: 0.0)
  }

  lemma {:induction false} TabulateZeroValues(recs: seq<PeriodTotals>, g: Granularity, year: int)
    requires forall i :: 0 <= i < |recs| ==> recs[i].target == 0 && recs[i].actual == 0
    ensures forall k :: k in Tabulate(recs, g, year).target.Keys ==>
      Tabulate(recs, g, year).target[k] == 0 && Tabulate(recs, g, year).actual[k] == 0
    decreases |recs|
  {
    if recs != [] {
      TabulateZeroValues(recs[..|recs| - 1], g, year);
    }
  }

  /**
   * The fallback table is exactly what a frequency row holding a zero record
   * for every period of the year would show.
   */
  lemma ZeroRecordsTabulateAsFallback(recs: seq<PeriodTotals>, g: Granularity, year: int)
    requires forall i :: 0 <= i < |recs| ==> recs[i].target == 0 && recs[i].actual == 0
    requires (set i | 0 <= i < |recs| :: Key(g, recs[i].period, year)) == ZeroKeys(g, year)
    ensures Tabulate(recs, g, year) == ZeroFilled(g, year)
  {
    var t := Tabulate(recs, g, year);
    var z := ZeroFilled(g, year);
    TabulateZeroValues(recs, g, year);
    assert GetPercentage(0.0, 0.0) == 0.0;
    assert t.target == z.target;
    assert t.actual == z.actual;
    assert t.percentage == z.percentage;
  }

  lemma WithRecordsTwice(s: Series, g: Granularity, x: seq<PeriodTotals>, y: seq<PeriodTotals>)
    ensures WithRecords(WithRecords(s, g, x), g, y) == WithRecords(s, g, y)
  {
  }

  /** The records part-way through the pass: the first `i` with their percentage written. */
  function PartlyDone(recs: seq<PeriodTotals>, i: nat): (out: seq<PeriodTotals>)
    requires i <= |recs|
    ensures |out| == |recs|
  {
    WithPercentages(recs[..i]) + recs[i..]
  }

  lemma PercentageStep(recs: seq<PeriodTotals>, i: nat)
    requires i < |recs|
    ensures PartlyDone(recs, i)[i] == recs[i]
    ensures PartlyDone(recs, i + 1) == PartlyDone(recs, i)[i := WithPercentage(recs[i])]
  {
    assert recs[..i + 1][..i] == recs[..i];
  }

  /** One step of the pass over the stored series: writing record `i`'s percentage. */
  lemma SeriesStep(original: Series, g: Granularity, recs: seq<PeriodTotals>, i: nat)
    requires i < |recs|
    ensures var s := WithRecords(original, g, PartlyDone(recs, i));
      Records(s, g)[i] == recs[i]
      && WithRecords(s, g, Records(s, g)[i := WithPercentage(recs[i])]) == WithRecords(original, g, PartlyDone(recs, i + 1))
  {
    PercentageStep(recs, i);
    WithRecordsTwice(original, g, PartlyDone(recs, i), PartlyDone(recs, i + 1));
  }

  /** One step of building the table: record `i` sets its key. */
  lemma TabulateStep(recs: seq<PeriodTotals>, g: Granularity, year: int, i: nat)
    requires i < |recs|
    ensures var b := Tabulate(recs[..i], g, year);
      var k := Key(g, recs[i].period, year);
      Tabulate(recs[..i + 1], g, year)
        == Breakdown(b.target[k := recs[i].target], b.actual[k := recs[i].actual],
                     b.percentage[k := GetPercentage(recs[i].target as real, recs[i].actual as real)])
  {
    assert recs[..i + 1][..i] == recs[..i];
  }

  /** The fallback loop over `range(1, PeriodCount(g) + 1)`. */
  method FillZeros(g: Granularity, year: int) returns (b: Breakdown)
    ensures b == ZeroFilled(g, year)
  {
    var target: map<PeriodKey, int> := map[];
    var actual: map<PeriodKey, int> := map[];
    var percentage: map<PeriodKey, real> := map[];
    var index := 1;
    while index < PeriodCount(g) + 1
      invariant 1 <= index <= PeriodCount(g) + 1
      invariant target.Keys == actual.Keys == percentage.Keys
      invariant target.Keys == set p | 1 <= p < index :: Key(g, p, year)
      invariant forall k :: k in target.Keys ==> target[k] == 0 && actual[k] == 0 && percentage[k] == 0.0
    {
      var k := Key(g, index, year);
      target := target[k := 0];
      actual := actual[k := 0];
      percentage := percentage[k := 0.0];
      index := index + 1;
    }
    b := Breakdown(target, actual, percentage);
  }

  /**
   * `calculate_quartely_data` / `calculate_monthly_data`. Given the KPI's
   * frequency rows for the year: with none, the zero-filled table; otherwise
   * the first row's quarterly (monthly) records each get their `percentage`
   * written in place, and the table is built from them in order.
   */
  method CalculatePeriodData(rows: seq<FrequencyRow>, g: Granularity, year: int) returns (b: Breakdown)
    modifies if |rows| > 0 then {rows[0]} else {}
    ensures |rows| == 0 ==> b == ZeroFilled(g, year)
    ensures |rows| > 0 ==>
      rows[0].series == WithRecords(old(rows[0].series), g, WithPercentages(Records(old(rows[0].series), g)))
      && b == Tabulate(Records(old(rows[0].series), g), g, year)
  {
    if |rows| == 0 {
      b := FillZeros(g, year);
      return;
    }
    var row := rows[0];
    var recs := Records(row.series, g);
    ghost var original := row.series;
    b := Breakdown(map[], map[], map[]);
    var i := 0;
    while i < |recs|
      invariant 0 <= i <= |recs|
      invariant row.series == WithRecords(original, g, PartlyDone(recs, i))
      invariant b == Tabulate(recs[..i], g, year)
    {
      var data := recs[i];
      var pct := GetPercentage(data.target as real, data.actual as real);
      SeriesStep(original, g, recs, i);
      TabulateStep(recs, g, year, i);
      var current := Records(row.series, g);
      row.series := WithRecords(row.series, g, current[i := data.(percentage := Some(pct))]);
      var k := Key(g, data.period, year);
      b := Breakdown(b.target[k := data.target], b.actual[k := data.actual], b.percentage[k := pct]);
      i := i + 1;
    }
    assert recs[..i] == recs;
    assert PartlyDone(recs, i) == WithPercentages(recs);
  }

  /**
   * `calculate_yearly_data`: the first yearly record's target and actual with
   * their percentage, or (0, 0, 0) without a frequency row for the year; a
   * row with no yearly record is an `IndexError`.
   */
  function CalculateYearlyData(rows: seq<FrequencyRow>): (r: Result<(int, int, real), KpiError>)
    reads rows
    ensures r.Err? <==> |rows| > 0 && |rows[0].series.yearly| == 0
    ensures r.Err? ==> r.error == IndexError
    ensures |rows| == 0 ==> r == Ok((0, 0, 0.0))
    ensures r.Ok? && |rows| > 0 ==>
      r.value.0 == rows[0].series.yearly[0].target && r.value.1 == rows[0].series.yearly[0].actual
    ensures r.Ok? ==> r.value.2 == GetPercentage(r.value.0 as real, r.value.1 as real)
  {
    if |rows| == 0 then Ok((0, 0, 0.0))
    else if |rows[0].series.yearly| == 0 then Err(IndexError)
    else
      var y := rows[0].series.yearly[0];
      Ok((y.target, y.actual, GetPercentage(y.target as real, y.actual as real)))
  }
}
