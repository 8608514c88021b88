/**
 * The calendar skeleton of a year (`generate_dynamic_calendar`) and the
 * generate-once store of skeletons (`get_frequency_data_from_calender`).
 */
module CalendarGeneration {
  import opened Wrappers
  import opened Text
  import opened Dates
  import opened KpiFrequency
  import opened KpiErrors
  import opened JsonData
  import KpiAggregation

  /** The blank KPI payload `get_generalize_data_for_kpi` hands out. */
  function GeneralizedKpiData(): (data: map<string, Json>)
    ensures data.Keys == {"name", "reporting_person_id", "unit_type", "frequency", "logic_level", "unit",
                          "kpi_frequencies", "absolute_kpis", "calender_manager_id", "plan_frequency", "year"}
    ensures forall k :: k in data ==> data[k] == JNull || k == "kpi_frequencies" || k == "absolute_kpis" || k == "year"
    ensures data["kpi_frequencies"] == JList([]) && data["absolute_kpis"] == JList([]) && data["year"] == JInt(0)
    ensures forall k :: k in data ==> !Truthy(data[k])
  {
    map["name" := JNull, "reporting_person_id" := JNull, "unit_type" := JNull, "frequency" := JNull,
        "logic_level" := JNull, "unit" := JNull, "kpi_frequencies" := JList([]), "absolute_kpis" := JList([]),
        "calender_manager_id" := JNull, "plan_frequency" := JNull, "year" := JInt(0)]
  }

  /** A `workalendar` calendar's `is_working_day` or `is_holiday`. */
  type DayPredicate = Date -> bool

  /** The skeleton record of day `d`: a Monday is never a working day, and every value starts zeroed. */
  function DayRecordFor(d: Date, isWorkingDay: DayPredicate, isHoliday: DayPredicate): DayRecord
    requires Valid(d)
  {
    var week := IsoWeek(d);
    var weekday := Weekday(d);
    var month := MonthName(d.month);
    var working := if weekday == 0 then false else isWorkingDay(d);
    DayRecord(d, week, DayNames[weekday], weekday, month, d.year, month + "-CW-" + IntToString(week),
              working, isHoliday(d), 0, 0, false, true, true)
  }

  /** What every skeleton record holds, stated for one day. */
  ghost predicate SkeletonRecord(r: DayRecord)
  {
    Valid(r.date)
    && r.target == 0 && r.actual == 0 && !r.isValueUpdated && r.systemChangedTarget && r.systemChangedActual
    && r.day == Weekday(r.date) && r.week == IsoWeek(r.date) && r.year == r.date.year
    && (r.day == 0 ==> !r.isWorkingDay)
    && r.dayName == DayNames[r.day] && r.month == MonthName(r.date.month)
    && Name(r) == DayMonthYear(r.date)
    && r.weekName == r.month + "-CW-" + IntToString(r.week)
  }

  lemma DayRecordForIsSkeletonRecord(d: Date, isWorkingDay: DayPredicate, isHoliday: DayPredicate)
    requires Valid(d)
    ensures var r := DayRecordFor(d, isWorkingDay, isHoliday);
      SkeletonRecord(r) && r.date == d
      && r.isWorkingDay == (Weekday(d) != 0 && isWorkingDay(d)) && r.isPublicHolidayDay == isHoliday(d)
  {
  }

  /** How the loop body turns a date into its record; defined on every valid date. */
  type DayBuilder = Date --> DayRecord

  ghost predicate BuildsEveryDay(make: DayBuilder)
  {
    forall d :: Valid(d) ==> make.requires(d)
  }

  /** The loop body of `generate_dynamic_calendar`, for the calendar given by the two predicates. */
  function DayRecordBuilder(isWorkingDay: DayPredicate, isHoliday: DayPredicate): (make: DayBuilder)
    ensures BuildsEveryDay(make)
    ensures forall d :: Valid(d) ==> make(d) == DayRecordFor(d, isWorkingDay, isHoliday)
  {
    d requires Valid(d) => DayRecordFor(d, isWorkingDay, isHoliday)
  }

  /** The records of the first `n` days of `year`, in order. */
  function DaysUpTo(year: int, n: nat, make: DayBuilder): (days: seq<DayRecord>)
    requires BuildsEveryDay(make)
    ensures |days| == n
  {
    if n == 0 then [] else DaysUpTo(year, n - 1, make) + [make(NthDay(year, n - 1))]
  }

  lemma {:induction false} DaysUpToIndex(year: int, n: nat, k: nat, make: DayBuilder)
    requires BuildsEveryDay(make) && k < n
    ensures DaysUpTo(year, n, make)[k] == make(NthDay(year, k))
  {
    if k < n - 1 {
      DaysUpToIndex(year, n - 1, k, make);
    }
  }

  /** One record per day of `year`, January 1 to December 31. */
  function YearDays(year: int, isWorkingDay: DayPredicate, isHoliday: DayPredicate): (days: seq<DayRecord>)
    ensures |days| == DaysInYear(year)
  {
    DaysUpTo(year, DaysInYear(year), DayRecordBuilder(isWorkingDay, isHoliday))
  }

  /** The `k`-th record of the year is the record of its `k`-th day. */
  lemma YearDaysIndex(year: int, k: nat, isWorkingDay: DayPredicate, isHoliday: DayPredicate)
    requires k < DaysInYear(year)
    ensures YearDays(year, isWorkingDay, isHoliday)[k] == DayRecordFor(NthDay(year, k), isWorkingDay, isHoliday)
  {
    DaysUpToIndex(year, DaysInYear(year), k, DayRecordBuilder(isWorkingDay, isHoliday));
  }

  /** The skeleton: the year's days, minus the first one when it lies in ISO week 52. */
  function Skeleton(year: int, isWorkingDay: DayPredicate, isHoliday: DayPredicate): seq<DayRecord>
  {
    var days := YearDays(year, isWorkingDay, isHoliday);
    if days[0].week == 52 then days[1..] else days
  }

  /**
   * The `while current_date <= end_date` loop: one record per day from
   * January 1, appended in order; it also yields the date it stopped at.
   */
  method CollectDays(year: int, make: DayBuilder) returns (data: seq<DayRecord>, stop: Date)
    requires BuildsEveryDay(make)
    ensures data == DaysUpTo(year, DaysInYear(year), make)
    ensures stop == Date(year + 1, 1, 1)
  {
    data := [];
    var startDate := Date(year, 1, 1);
    var endDate := Date(year, 12, 31);
    var currentDate := startDate;
    ghost var i: nat := 0;
    while NotAfter(currentDate, endDate)
      invariant i <= DaysInYear(year)
      invariant currentDate == NthDay(year, i)
      invariant data == DaysUpTo(year, i, make)
      decreases DaysInYear(year) - i
    {
      InYearIff(year, i);
      data := data + [make(currentDate)];
      currentDate := NextDay(currentDate);
      i := i + 1;
    }
    InYearIff(year, i);
    NthDayYearEnd(year);
    stop := currentDate;
  }

  /**
   * `generate_dynamic_calendar` for the calendar given by the two predicates.
   * A year outside 1..9999 is a `ValueError`; for 9999 the step past
   * December 31 overflows (Python raises there; the model lets the date
   * leave the range and reports the overflow once the loop is over).
   */
  method GenerateDynamicCalendar(region: string, country: string, year: int,
                                 isWorkingDay: DayPredicate, isHoliday: DayPredicate)
    returns (r: Result<(seq<DayRecord>, string, string), KpiError>)
    ensures !(MinYear <= year <= MaxYear) ==> r == Err(ValueError)
    ensures year == MaxYear ==> r == Err(OverflowError)
    ensures MinYear <= year < MaxYear ==> r == Ok((Skeleton(year, isWorkingDay, isHoliday), country, region))
  {
    if !(MinYear <= year <= MaxYear) {
      return Err(ValueError);
    }
    var data, stop := CollectDays(year, DayRecordBuilder(isWorkingDay, isHoliday));
    if stop.year > MaxYear {
      return Err(OverflowError);
    }
    if data[0].week == 52 {
      data := data[1..];
    }
    r := Ok((data, country, region));
  }

  /** The loop's guard: the `i`-th day from January 1 is on or before December 31 exactly while `i` is within the year. */
  lemma InYearIff(year: int, i: nat)
    requires i <= DaysInYear(year)
    ensures NotAfter(NthDay(year, i), Date(year, 12, 31)) <==> i < DaysInYear(year)
  {
    NthDayYearEnd(year);
    if i < DaysInYear(year) {
      NthDayInYear(year, i);
    }
  }

  /** The `k`-th record of the year: the record of day `k + 1` of the year. */
  lemma YearDay(year: int, k: nat, isWorkingDay: DayPredicate, isHoliday: DayPredicate)
    requires k < DaysInYear(year)
    ensures var r := YearDays(year, isWorkingDay, isHoliday)[k];
      r.date == NthDay(year, k) && r.date.year == year && DayOfYear(r.date) == k + 1
      && SkeletonRecord(r)
      && r.isWorkingDay == (Weekday(r.date) != 0 && isWorkingDay(r.date))
      && r.isPublicHolidayDay == isHoliday(r.date)
  {
    YearDaysIndex(year, k, isWorkingDay, isHoliday);
    DayRecordForIsSkeletonRecord(NthDay(year, k), isWorkingDay, isHoliday);
    NthDayInYear(year, k);
  }

  /** The days of a year are consecutive: each is the day after the one before it. */
  lemma YearDaysConsecutive(year: int, isWorkingDay: DayPredicate, isHoliday: DayPredicate, k: nat)
    requires k + 1 < DaysInYear(year)
    ensures YearDays(year, isWorkingDay, isHoliday)[k + 1].date == NextDay(NthDay(year, k))
    ensures YearDays(year, isWorkingDay, isHoliday)[k].date == NthDay(year, k)
  {
    YearDay(year, k, isWorkingDay, isHoliday);
    YearDay(year, k + 1, isWorkingDay, isHoliday);
  }

  /** They run from January 1 to December 31 of the year. */
  lemma YearDaysBounds(year: int, isWorkingDay: DayPredicate, isHoliday: DayPredicate)
    ensures YearDays(year, isWorkingDay, isHoliday)[0].date == Date(year, 1, 1)
    ensures YearDays(year, isWorkingDay, isHoliday)[DaysInYear(year) - 1].date == Date(year, 12, 31)
  {
    NthDayYearEnd(year);
    YearDay(year, 0, isWorkingDay, isHoliday);
    YearDay(year, DaysInYear(year) - 1, isWorkingDay, isHoliday);
  }

  lemma {:induction false} NthDayIncreasing(year: int, k: nat, j: nat)
    requires k < j
    ensures Before(NthDay(year, k), NthDay(year, j))
    decreases j
  {
    if k < j - 1 {
      NthDayIncreasing(year, k, j - 1);
    }
  }

  /** The skeleton is in strictly increasing date order. */
  lemma SkeletonChronological(year: int, isWorkingDay: DayPredicate, isHoliday: DayPredicate)
    ensures KpiAggregation.Chronological(Skeleton(year, isWorkingDay, isHoliday))
  {
    var n := DaysInYear(year);
    var days := YearDays(year, isWorkingDay, isHoliday);
    forall i, j | 0 <= i < j < |days|
      ensures Before(days[i].date, days[j].date)
    {
      YearDay(year, i, isWorkingDay, isHoliday);
      YearDay(year, j, isWorkingDay, isHoliday);
      NthDayIncreasing(year, i, j);
    }
  }

  /** Every skeleton record is zeroed, and none that falls on a Monday is a working day. */
  lemma SkeletonRecords(year: int, isWorkingDay: DayPredicate, isHoliday: DayPredicate)
    ensures forall r :: r in Skeleton(year, isWorkingDay, isHoliday) ==> SkeletonRecord(r)
  {
    var n := DaysInYear(year);
    var days := YearDays(year, isWorkingDay, isHoliday);
    forall k | 0 <= k < n
      ensures SkeletonRecord(days[k])
    {
      YearDay(year, k, isWorkingDay, isHoliday);
    }
  }

  /**
   * At most the first day is dropped, and exactly when it lies in ISO week 52;
   * a second leading week-52 day stays.
   */
  lemma SkeletonDrop(year: int, isWorkingDay: DayPredicate, isHoliday: DayPredicate)
    ensures var days := YearDays(year, isWorkingDay, isHoliday);
      var skeleton := Skeleton(year, isWorkingDay, isHoliday);
      (IsoWeek(Date(year, 1, 1)) == 52 ==> skeleton == days[1..])
      && (IsoWeek(Date(year, 1, 1)) != 52 ==> skeleton == days)
      && (IsoWeek(Date(year, 1, 1)) == 52 ==> skeleton[0].date == Date(year, 1, 2))
  {
    YearDay(year, 0, isWorkingDay, isHoliday);
    YearDay(year, 1, isWorkingDay, isHoliday);
    assert NthDay(year, 0) == Date(year, 1, 1);
    assert NthDay(year, 1) == Date(year, 1, 2);
  }

  /** 1 January 2027 is a Friday in ISO week 53 of 2026. */
  lemma Jan1Of2027InWeek53()
    ensures IsoWeek(Date(2027, 1, 1)) == 53
  {
    assert DaysBeforeYear(2026) == 739616;
    assert DaysBeforeYear(2027) == 739981;
  }

  /** A year whose January 1 lies in ISO week 53 of the year before (2027, say) keeps that day. */
  lemma Week53DayKept(year: int, isWorkingDay: DayPredicate, isHoliday: DayPredicate)
    requires IsoWeek(Date(year, 1, 1)) == 53
    ensures Skeleton(year, isWorkingDay, isHoliday)[0].date == Date(year, 1, 1)
    ensures Skeleton(year, isWorkingDay, isHoliday)[0].week == 53
  {
    YearDay(year, 0, isWorkingDay, isHoliday);
    assert NthDay(year, 0) == Date(year, 1, 1);
  }

  /** A stored `CalenderManager` row. */
  datatype CalendarRow = CalendarRow(data: seq<DayRecord>, year: int, daysCount: int, weekCount: int,
                                     country: string, region: string)

  /** The row `get_frequency_data_from_calender` stores for a generated skeleton. */
  function RowFor(year: int, data: seq<DayRecord>, country: string, region: string): (row: CalendarRow)
    requires |data| > 0
    ensures row.daysCount == |data| && row.weekCount == data[|data| - 1].week && row.data == data
  {
    CalendarRow(data, year, |data|, data[|data| - 1].week, country, region)
  }

  /** The `CalenderManager` table, one row per year. */
  class CalendarStore {
    var rows: map<int, CalendarRow>

    constructor ()
      ensures rows == map[]
    {
      rows := map[];
    }

    /**
     * The generate-once step of `get_frequency_data_from_calender`: a year
     * that already has a row is left alone; otherwise the German calendar's
     * skeleton is generated and stored with its counts.
     */
    method EnsureCalendar(year: int, isWorkingDay: DayPredicate, isHoliday: DayPredicate)
      returns (r: Result<bool, KpiError>)
      modifies this
      ensures year in old(rows) ==> rows == old(rows) && r == Ok(false)
      ensures year !in old(rows) && MinYear <= year < MaxYear ==>
        r == Ok(true) && rows == old(rows)[year := RowFor(year, Skeleton(year, isWorkingDay, isHoliday), "Germany", "Europe")]
      ensures year !in old(rows) && !(MinYear <= year <= MaxYear) ==> r == Err(ValueError) && rows == old(rows)
      ensures year !in old(rows) && year == MaxYear ==> r == Err(OverflowError) && rows == old(rows)
      ensures r.Err? ==> rows == old(rows)
    {
      if year in rows {
        return Ok(false);
      }
      var generated := GenerateDynamicCalendar("Europe", "Germany", year, isWorkingDay, isHoliday);
      if generated.Err? {
        return Err(generated.error);
      }
      var (calendarData, country, region) := generated.value;
      SkeletonNonEmpty(year, isWorkingDay, isHoliday);
      rows := rows[year := RowFor(year, calendarData, country, region)];
      r := Ok(true);
    }
  }

  lemma SkeletonNonEmpty(year: int, isWorkingDay: DayPredicate, isHoliday: DayPredicate)
    ensures |Skeleton(year, isWorkingDay, isHoliday)| >= 364
  {
  }

  /** The stored `week_count` is the ISO week of December 31. */
  lemma StoredWeekCount(year: int, isWorkingDay: DayPredicate, isHoliday: DayPredicate)
    ensures RowFor(year, Skeleton(year, isWorkingDay, isHoliday), "Germany", "Europe").weekCount == IsoWeek(Date(year, 12, 31))
  {
    var n := DaysInYear(year);
    NthDayYearEnd(year);
    YearDaysIndex(year, n - 1, isWorkingDay, isHoliday);
  }

  /** 31 December 2024 is a Tuesday in ISO week 1 of 2025, in a year of 52 ISO weeks. */
  lemma Dec31Of2024InWeek1()
    ensures IsoWeek(Date(2024, 12, 31)) == 1 && WeeksInYear(2024) == 52
  {
    assert DaysBeforeYear(2024) == 738885;
  }

  /** So the row stored for 2024 claims a single week. */
  lemma WeekCountOf2024(isWorkingDay: DayPredicate, isHoliday: DayPredicate)
    ensures RowFor(2024, Skeleton(2024, isWorkingDay, isHoliday), "Germany", "Europe").weekCount == 1
    ensures WeekCountIntended(2024) == 52
  {
    StoredWeekCount(2024, isWorkingDay, isHoliday);
    Dec31Of2024InWeek1();
  }

  /** The number of ISO weeks of the year, which `week_count` evidently stands for. */
  function WeekCountIntended(year: int): (n: int)
    ensures n == IsoWeek(Date(year, 12, 28))
    ensures n == 52 || n == 53
  {
    Dec28InLastIsoWeek(year);
    WeeksInYear(year)
  }

  /** December 31 lies in the year's last ISO week or in week 1 of the next year. */
  lemma Dec31Week(year: int)
    ensures IsoWeek(Date(year, 12, 31)) == WeeksInYear(year) || IsoWeek(Date(year, 12, 31)) == 1
  {
    Dec28InLastIsoWeek(year);
  }

  /** The stored week count is the intended one, or 1 when December 31 falls in the next year's week 1. */
  lemma WeekCountAsWrittenVersusIntended(year: int, isWorkingDay: DayPredicate, isHoliday: DayPredicate)
    ensures var stored := RowFor(year, Skeleton(year, isWorkingDay, isHoliday), "Germany", "Europe").weekCount;
      stored == WeekCountIntended(year) || stored == 1
  {
    StoredWeekCount(year, isWorkingDay, isHoliday);
    Dec31Week(year);
  }
}
