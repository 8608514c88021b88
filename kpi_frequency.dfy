/**
 * The series a `KPIFrequency` row stores for one KPI and one calendar year:
 * one record per day (the calendar skeleton, later filled with targets and
 * actuals) and rolled-up weekly, monthly, quarterly and yearly totals.
 */
module KpiFrequency {
  import opened Dates
  import opened Text
  import opened Wrappers

  /** `calendar.month_name[1..12]`; `settings.ALL_MONTHS` is taken to hold the same English names. */
  const MonthNames: seq<string> :=
    ["January", "February", "March", "April", "May", "June", "July",
     "August", "September", "October", "November", "December"]

  /** `settings.ALL_DAYS`, indexed by `date.weekday()`, taken to be the English day names from Monday. */
  const DayNames: seq<string> :=
    ["Monday", "Tuesday", "Wednesday", "Thursday", "Friday", "Saturday", "Sunday"]

  /** The English name of month `m`. */
  function MonthName(m: int): (s: string)
    requires 1 <= m <= 12
    ensures s == MonthNames[m - 1]
  {
    MonthNames[m - 1]
  }

  /**
   * One element of `daily_data`. The source keeps the day as the string
   * `name` ("dd/mm/yyyy"), which every reader parses back with `strptime`;
   * here the parsed date is the field and `Name` renders the string.
   */
  datatype DayRecord = DayRecord(
    date: Date,
    week: int,
    dayName: string,
    day: int,
    month: string,
    year: int,
    weekName: string,
    isWorkingDay: bool,
    isPublicHolidayDay: bool,
    target: int,
    actual: int,
    isValueUpdated: bool,
    systemChangedTarget: bool,
    systemChangedActual: bool)

  /** The record's `name` key. */
  function Name(r: DayRecord): string
  {
    DayMonthYear(r.date)
  }

  /**
   * One element of `weekly_data`, `monthly_data`, `quarterly_data` or
   * `yearly_data`: `period` is its `week`, `month`, `quarter` or (for the
   * yearly row) `name` key; `percentage` is absent until a breakdown view
   * writes it.
   */
  datatype PeriodTotals = PeriodTotals(period: int, target: int, actual: int, percentage: Option<real>)

  /** The five series of one `KPIFrequency` row, keyed in the source by frequency type. */
  datatype Series = Series(
    daily: seq<DayRecord>,
    weekly: seq<PeriodTotals>,
    monthly: seq<PeriodTotals>,
    quarterly: seq<PeriodTotals>,
    yearly: seq<PeriodTotals>)

  /** A `KPIFrequency` row: the series of KPI `kpiId` for the calendar year `year`. */
  class FrequencyRow {
    const kpiId: nat
    const year: int
    var series: Series

    constructor (kpiId: nat, year: int, series: Series)
      ensures this.kpiId == kpiId && this.year == year && this.series == series
    {
      this.kpiId := kpiId;
      this.year := year;
      this.series := series;
    }
  }
}
