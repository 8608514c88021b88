# KPI backend core in Dafny

This project models the core of a Django backend for key performance
indicators (KPIs) and proves properties of the model. A KPI is either
*absolute* or calculation based. An absolute KPI is planned and reported
day by day in a yearly calendar. A *percentage* or *euro/unit* KPI is the
ratio of two absolute KPIs, its numerator and its denominator.

The model covers:

- **The KPI entity and its factories.** Choice lists, `update_entity`, and
  the KPI and relative-KPI factories.
- **The KPI application service.** It covers:
  - creating a KPI with its frequency row;
  - updating frequency values and plan data;
  - delete and archive, with their CEO and C-level rules;
  - month-to-date and year-to-date totals and their ratio form for
    calculation-based KPIs;
  - quarterly, monthly and yearly breakdowns;
  - relinking the numerator and the denominator;
  - the "all data the same" check;
  - the last-date and current-week helpers.
- **The calendar task.** It builds the day-by-day calendar skeleton of a
  year.
- **The forecast task.** It groups a forecast's rows by month and appends
  the next month's six empty rows.
- **The KPI serializers.** Field validators, children/parent shaping, and
  the value-type choices.
- **The caches.** `CacheBase` (key formatting, get/set/add/incr/decr/delete,
  `get_many`, the simple read-through `get`), `PaginationCache.get` and
  `ModelCacheBase`.
- **Supporting pieces.** The `APIResponse` envelope, the exceptions that
  carry a log handle, `get_age`, the `AttributeLogger` singleton and the two
  log formatters.

Each Python module becomes a Dafny module:

- **Pure logic** becomes datatypes, functions and lemmas.
- **Code that mutates objects** becomes classes with `modifies` clauses:
  - the KPI entity, a frequency row, the relative-KPI table and the calendar
    store;
  - the cache store and the cache objects;
  - the forecast rows;
  - the logger singleton, the counting formatter and the `extra` dict.
- **Python loops** become methods with loop invariants, proved against
  specification functions.

### Modelling choices

- **Database queries** become parameters: the rows a query returns, or
  whether it found anything.
- **Services the code calls but that are not modelled here** also become
  parameters. These are the permission service, the user service, the
  frequency reconciler (`CalenderManagerAppServices`), workalendar, the
  clock and the log backend.
- **Errors Python raises** become `Result` values:
  - exceptions raised on purpose;
  - `IndexError`, `TypeError`, `KeyError` and `StopIteration` from subscripts;
  - `ValueError`/`OverflowError` from `datetime`.
- **The logger's two copies** (`Attribute-Logger/logger.py` and
  `sample-code/Structure/Domain-Driven/infrastructure/logger/models.py`)
  are identical, so the same members model both. So do the two
  JSON/counter formatter copies (`Attribute-Logger/logger.py` and
  `Structure/Domain-Driven/infrastructure/logger/services.py`). Each member
  is cited once, against one of the copies.

### Where the code and its documentation disagree (the model follows the code)

- **Forecast:** the docstring of `generate_next_month_forecast_response`
  shows six consecutive months. The code never advances its month counters
  inside the loop. So all six entries share one header month and year, and
  only the "for" month moves on, by one month per slot.
- **Calendar:** the function carries no docstring. The name of the stored
  field, `week_count`, suggests the number of weeks in the year. The code
  stores the ISO week of December 31, which is 1 in some years (see
  Findings). The name is the only basis for that reading.

## Model

| member | source | states |
|---|---|---|
| KpiModels.ChoiceCodes | Structure/Domain-Driven/domain/kpi/models.py:47-75 | the stored codes of a choices list are exactly its first components |
| KpiModels.ChoiceSets | Structure/Domain-Driven/domain/kpi/models.py:43-75 | the unit types, frequency types and logic levels have the listed codes, and every label equals its code |
| KpiModels.Guarded | Structure/Domain-Driven/domain/kpi/models.py:92-93 | a field is replaced only by a truthy request value (present, not None, not empty); otherwise it keeps its value |
| KpiModels.UpdateKeepsIdentity | Structure/Domain-Driven/domain/kpi/models.py:91-101 | `update_entity` never changes the id, reporting person, unit type, user, archive flag or archive date; the name is kept unless supplied |
| KpiModels.UpdateIdempotent | Structure/Domain-Driven/domain/kpi/models.py:91-101 | applying the same update data twice equals applying it once |
| KpiModels.MergeData | Structure/Domain-Driven/domain/kpi/models.py:91-101 | a merged request supplies a key exactly when either request supplies it |
| KpiModels.UpdateComposes | Structure/Domain-Driven/domain/kpi/models.py:91-101 | two updates in a row equal one update with the merged data, the later request winning |
| KpiModels.Kpi.constructor | Structure/Domain-Driven/domain/kpi/models.py:77-89 | a new KPI holds the given fields and is not archived and has no archive date |
| KpiModels.Kpi.UpdateEntity | Structure/Domain-Driven/domain/kpi/models.py:91-101 | the entity's new fields are the update of its old fields with the data, in place |
| KpiModels.BuildEntity | Structure/Domain-Driven/domain/kpi/models.py:114-135 | a fresh KPI whose fields are the unwrapped ids and the given values, not archived |
| KpiModels.BuildEntityWithId | Structure/Domain-Driven/domain/kpi/models.py:138-161 | the same as `build_entity`, with a fresh id |
| KpiModels.BuildRelativeEntity | Structure/Domain-Driven/domain/kpi/models.py:198-209 | the link copies the unwrapped ids and the level |
| KpiModels.BuildRelativeEntityWithId | Structure/Domain-Driven/domain/kpi/models.py:212-225 | the link has the fresh id and copies the other ids and the level |
| KpiModels.RelativeLevelUnchecked | Structure/Domain-Driven/domain/kpi/models.py:174-209 | the factory accepts a level outside the numerator/denominator choices unchanged |
| KpiLifecycle.CreateKpiWithFrequency | Structure/Domain-Driven/application/kpi/services.py:171-336 | a successful creation means: the unit is given exactly for an absolute KPI; the responsible person exists in the same company; the KPI has the fresh id and the user's id. An absolute KPI has no matched absolute KPIs and validated frequency data, and its row is the reconciled series. A ratio KPI has exactly two visible absolute KPIs and one link per requested absolute KPI, in request order. Conversely, every request meeting all those conditions succeeds |
| KpiLifecycle.CreateRejections | Structure/Domain-Driven/application/kpi/services.py:185-218 | each precondition failure gives its own error: unit not provided, absolute KPIs not provided, absolute KPIs not allowed (both directions), frequency not provided wrapped in `KPIsException`; once the KPI checks pass, a missing responsible person, one from another company, and frequency data the reconciler rejects (wrapped in `KPIsException`) |
| KpiLifecycle.CreateNeedsValidation | Structure/Domain-Driven/application/kpi/services.py:291-331 | an absolute KPI whose frequency data does not validate is never created |
| KpiLifecycle.ReportingFrequency | Structure/Domain-Driven/application/kpi/services.py:357-359 | a non-empty filter frequency overrides the KPI's own frequency |
| KpiLifecycle.UpdateKpiFrequencyValues | Structure/Domain-Driven/application/kpi/services.py:338-412 | missing KPI, missing row and empty yearly series each fail with their own error and leave the row unchanged; otherwise the first row's series becomes the reconciled series when it validates, and the request fails when it does not |
| KpiLifecycle.UpdateKpiPrecheck | Structure/Domain-Driven/application/kpi/services.py:543-561 | fails with "not exists" exactly for an invisible KPI, and with "frequency not found" exactly for an absolute KPI given a plan frequency but no frequency data; every other visible KPI passes the check unchanged |
| KpiLifecycle.WritableIds | Structure/Domain-Driven/application/kpi/services.py:684-693 | an id is writable exactly when some permission entry has it with `w` set to True |
| KpiLifecycle.DeleteKpi | Structure/Domain-Driven/application/kpi/services.py:658-707 | fails exactly when the KPI or its frequency row is missing; soft-deletes exactly for a CEO or a C-level user who may write the KPI |
| KpiLifecycle.DeleteRatioKpiFails | Structure/Domain-Driven/application/kpi/services.py:637-707 | deleting any ratio KPI that creation produced fails with "not exists", whoever asks |
| KpiLifecycle.DeleteKpiIntended | Structure/Domain-Driven/application/kpi/services.py:658-707 | the corrected delete fails only for a missing KPI and soft-deletes for a CEO or a C-level writer |
| KpiLifecycle.DeleteIntendedAgrees | Structure/Domain-Driven/application/kpi/services.py:658-707 | a created KPI of either kind can be deleted by a CEO under the corrected rule, and the corrected rule agrees with the code whenever a frequency row exists |
| KpiLifecycle.ArchiveKpi | Structure/Domain-Driven/application/kpi/services.py:709-764 | fails when KPIs or rows are missing; a CEO sets the archive flag; a C-level user either fails on the unknown field `is_archive` (exactly when all writable ids are in the list) or changes nothing; a user who is neither CEO nor a covering C-level user always changes nothing |
| KpiLifecycle.CLevelNeverArchives | Structure/Domain-Driven/application/kpi/services.py:731-761 | a C-level user never archives anything, and with no writable KPIs always fails |
| KpiLifecycle.ArchiveKpiIntended | Structure/Domain-Driven/application/kpi/services.py:731-761 | the corrected archive fails only on missing data, and sets the flag for a CEO or a C-level user covering their writable KPIs |
| KpiAggregation.SumPermutation | Structure/Domain-Driven/application/kpi/services.py:929-946 | the totals of a selection do not depend on the order of the daily records |
| KpiAggregation.SumAllSelected | Structure/Domain-Driven/application/kpi/services.py:929-946 | when every record is selected, the selection totals equal the totals of all records |
| KpiAggregation.SumNoneSelected | Structure/Domain-Driven/application/kpi/services.py:929-946 | when no record is selected, the totals are zero |
| KpiAggregation.FirstDated | Structure/Domain-Driven/application/kpi/services.py:934-945 | the index of the first record with the given date, or the length when there is none |
| KpiAggregation.CountTargetActualUntilDate | Structure/Domain-Driven/application/kpi/services.py:929-946 | the month branch sums the month's records dated on or before the date; the year branch sums the records up to and including the first with that date |
| KpiAggregation.MonthToDateOrderFree | Structure/Domain-Driven/application/kpi/services.py:929-946 | month-to-date totals are the same for any reordering of the records |
| KpiAggregation.YearToDateWithoutDate | Structure/Domain-Driven/application/kpi/services.py:941-945 | when no record has the date, year-to-date sums every record |
| KpiAggregation.YearToDateOnChronological | Structure/Domain-Driven/application/kpi/services.py:941-945 | on a chronological calendar containing the date, year-to-date equals the sum of the records dated on or before it |
| KpiAggregation.Ratio | Structure/Domain-Driven/application/kpi/services.py:948-989 | zero for a zero denominator, otherwise the quotient, scaled by 100 for a percentage |
| KpiAggregation.CountTargetActualForRelatedKpi | Structure/Domain-Driven/application/kpi/services.py:948-989 | fails with an index error exactly when fewer than two related KPIs exist; otherwise the target and actual ratios of numerator to denominator totals |
| KpiAggregation.GetPercentage | Structure/Domain-Driven/application/kpi/services.py:995-1000 | zero for a non-positive base, otherwise actual as a percentage of base |
| KpiAggregation.PercentageOfTarget | Structure/Domain-Driven/application/kpi/services.py:995-1000 | with a positive target, the percentage is 100 exactly when actual equals target, and at least 100 exactly when actual reaches target |
| KpiAggregation.TargetAndActual | Structure/Domain-Driven/application/kpi/services.py:1019-1165 | a KPI with its own row always succeeds; without one, an absolute KPI fails with a type error in the five totals that read `get_related_kpi_frequencies`; otherwise (a ratio KPI, or the year-to-date actual, which rebuilds the linked rows for every unit type) it succeeds exactly with at least two linked KPIs and fails with an index error otherwise |
| KpiAggregation.CalculateTotal | Structure/Domain-Driven/application/kpi/services.py:1019-1165 | each of the six monthly and year-to-date total methods returns the target, the actual or their percentage of the pair that method works from, and passes the failure on |
| KpiAggregation.AbsoluteYtdActual | Structure/Domain-Driven/application/kpi/services.py:1103-1139 | for an absolute KPI without its own row, only the year-to-date actual can succeed: it is the percentage ratio of its first two linked KPIs' actuals, and an index error with fewer than two |
| KpiAggregation.OwnRowWins | Structure/Domain-Driven/application/kpi/services.py:1019-1165 | when a KPI has its own row, its related KPIs do not affect the totals |
| KpiAggregation.CountTargetActualUntilToday | Structure/Domain-Driven/application/kpi/services.py:1167-1178 | the year-to-date totals up to today |
| KpiAggregation.CalculateTotalYtdData | Structure/Domain-Driven/application/kpi/services.py:1180-1203 | zeros without a row; otherwise the first row's year-to-date totals and their percentage |
| KpiBreakdown.KeyTextInjective | Structure/Domain-Driven/application/kpi/services.py:1205-1278 | distinct periods of the same year produce distinct breakdown keys |
| KpiBreakdown.WithPercentages | Structure/Domain-Driven/application/kpi/services.py:1220-1224 | each period record gains its percentage and nothing else changes |
| KpiBreakdown.Tabulate | Structure/Domain-Driven/application/kpi/services.py:1205-1278 | the three maps share the keys of the records' periods, and each percentage is that period's target/actual percentage |
| KpiBreakdown.TabulateLastWins | Structure/Domain-Driven/application/kpi/services.py:1205-1278 | a period's values are those of its last record |
| KpiBreakdown.ZeroFilled | Structure/Domain-Driven/application/kpi/services.py:1205-1278 | without a row, every period of the year maps to zero target, actual and percentage |
| KpiBreakdown.TabulateZeroValues | Structure/Domain-Driven/application/kpi/services.py:1205-1278 | all-zero records tabulate to zero targets and actuals |
| KpiBreakdown.ZeroRecordsTabulateAsFallback | Structure/Domain-Driven/application/kpi/services.py:1205-1278 | all-zero records covering every period give the same breakdown as the no-row fallback |
| KpiBreakdown.FillZeros | Structure/Domain-Driven/application/kpi/services.py:1236-1241 | the loop builds the zero-filled breakdown |
| KpiBreakdown.CalculatePeriodData | Structure/Domain-Driven/application/kpi/services.py:1205-1278 | the quarterly or monthly records of the first row gain their percentages in place, and the result tabulates the original records; without a row, the zero-filled breakdown |
| KpiBreakdown.CalculateYearlyData | Structure/Domain-Driven/application/kpi/services.py:1280-1303 | fails with an index error exactly when the first row has no yearly record; zeros without a row; otherwise the first yearly target, actual and their percentage |
| KpiLinkage.Rank | Structure/Domain-Driven/application/kpi/services.py:1326-1338 | numerator ranks 1, denominator 2, anything else 3 |
| KpiLinkage.WithRank | Structure/Domain-Driven/application/kpi/services.py:1326-1338 | the active links of one rank all belong to the KPI and have that rank |
| KpiLinkage.ListRelativeKpis | Structure/Domain-Driven/application/kpi/services.py:1326-1338 | the listed links belong to the KPI and are ordered numerator first, then denominator, then the rest |
| KpiLinkage.ListIsPermutation | Structure/Domain-Driven/application/kpi/services.py:1326-1338 | the listing is a reordering of the KPI's active links: nothing is lost or duplicated |
| KpiLinkage.Repoint | Structure/Domain-Driven/application/kpi/services.py:1362-1376 | the two chosen links get their new absolute KPI, and every other row is unchanged |
| KpiLinkage.RepointKeepsRanks | Structure/Domain-Driven/application/kpi/services.py:1362-1376 | repointing keeps the links of each rank in place, changing only the absolute KPI of the two chosen links |
| KpiLinkage.LinkTable.UpdateRelativeKpi | Structure/Domain-Driven/application/kpi/services.py:1362-1376 | fails without change unless exactly two links are listed; otherwise points the first at the numerator and the second at the denominator |
| KpiLinkage.RelistAfterRepoint | Structure/Domain-Driven/application/kpi/services.py:1326-1376 | after the update the listing still has two links with the same levels, pointing at the new numerator and denominator |
| KpiLinkage.DistinctListedIds | Structure/Domain-Driven/application/kpi/services.py:1326-1338 | with unique link ids, the two listed links are distinct rows |
| KpiPeriods.QuarterOf | Structure/Domain-Driven/application/kpi/services.py:414-417 | the quarter containing the month |
| KpiPeriods.CurrentWeek | Structure/Domain-Driven/application/kpi/services.py:414-417 | the label "year - Qquarter - CW week" with the ISO week of today |
| KpiPeriods.ThirtyOneDaysOn | Structure/Domain-Driven/application/kpi/services.py:419-430 | 31 days after the first of a month lands in the next month, on day 32 minus the month's length |
| KpiPeriods.LastDayOfMonth | Structure/Domain-Driven/application/kpi/services.py:419-430 | the last day of a valid month; a value error for an invalid month or year |
| KpiPeriods.GetLastDateExplicitCurrent | Structure/Domain-Driven/application/kpi/services.py:420-421 | a query spelling out the current year and month gives the same result as one omitting them |
| KpiPeriods.GetLastDate | Structure/Domain-Driven/application/kpi/services.py:419-430 | year and month default to the current ones and are otherwise parsed as `int()` does, a non-numeric query string giving a value error; the call fails exactly when the month is not the current one and has no valid last day; the date is today in the current month and the month's last day otherwise, always inside that month |
| KpiPeriods.CheckAllDataSame | Structure/Domain-Driven/application/kpi/services.py:1379-1387 | each flag holds exactly when the data is non-empty and every target (actual) equals the first |
| KpiPeriods.SingletonIffAllEqual | Structure/Domain-Driven/application/kpi/services.py:1379-1387 | the set of values has one element exactly when the data is non-empty and all values are equal |
| CalendarGeneration.GeneralizedKpiData | sample-code/Structure/Domain-Driven/application/kpi/task_services.py:13-26 | the eleven request keys, all falsy: None, empty lists, and year 0 |
| CalendarGeneration.DayRecordForIsSkeletonRecord | sample-code/Structure/Domain-Driven/application/kpi/task_services.py:50-66 | a day's record has its date, its week and names, zero values, and is a working day exactly when it is not Monday and the calendar says so |
| CalendarGeneration.DayRecordBuilder | sample-code/Structure/Domain-Driven/application/kpi/task_services.py:50-66 | the builder makes that record for every valid date |
| CalendarGeneration.YearDays | sample-code/Structure/Domain-Driven/application/kpi/task_services.py:43-68 | one record per day of the year |
| CalendarGeneration.CollectDays | sample-code/Structure/Domain-Driven/application/kpi/task_services.py:43-68 | the day loop collects every day of the year in order and stops on January 1 of the next year |
| CalendarGeneration.GenerateDynamicCalendar | sample-code/Structure/Domain-Driven/application/kpi/task_services.py:29-71 | a value error for a year outside 1..9999, an overflow error for 9999, otherwise the skeleton with country and region |
| CalendarGeneration.InYearIff | sample-code/Structure/Domain-Driven/application/kpi/task_services.py:43-68 | the loop condition holds exactly for the days inside the year |
| CalendarGeneration.YearDaysConsecutive | sample-code/Structure/Domain-Driven/application/kpi/task_services.py:43-68 | consecutive records are consecutive days |
| CalendarGeneration.YearDaysBounds | sample-code/Structure/Domain-Driven/application/kpi/task_services.py:43-68 | the records run from January 1 to December 31 |
| CalendarGeneration.SkeletonChronological | sample-code/Structure/Domain-Driven/application/kpi/task_services.py:43-70 | the stored calendar is in strictly increasing date order |
| CalendarGeneration.SkeletonRecords | sample-code/Structure/Domain-Driven/application/kpi/task_services.py:50-66 | every stored record has zero target and actual and no change flags |
| CalendarGeneration.SkeletonDrop | sample-code/Structure/Domain-Driven/application/kpi/task_services.py:69-70 | the first day is dropped exactly when January 1 falls in ISO week 52 |
| CalendarGeneration.Jan1Of2027InWeek53 | sample-code/Structure/Domain-Driven/application/kpi/task_services.py:69-70 | January 1, 2027 lies in ISO week 53 |
| CalendarGeneration.Week53DayKept | sample-code/Structure/Domain-Driven/application/kpi/task_services.py:69-70 | a January 1 in week 53 is kept, as the first record, with week 53 |
| CalendarGeneration.RowFor | sample-code/Structure/Domain-Driven/application/kpi/task_services.py:86-96 | the stored row counts the days and takes the last record's week as the week count |
| CalendarGeneration.CalendarStore.EnsureCalendar | sample-code/Structure/Domain-Driven/application/kpi/task_services.py:74-96 | an existing year is left alone; a new valid year gets its row for Germany/Europe; a new year outside 1..9999 gives a value error and year 9999 an overflow error, both changing nothing |
| CalendarGeneration.SkeletonNonEmpty | sample-code/Structure/Domain-Driven/application/kpi/task_services.py:43-70 | a calendar has at least 364 days |
| CalendarGeneration.StoredWeekCount | sample-code/Structure/Domain-Driven/application/kpi/task_services.py:88-89 | the stored week count is the ISO week of December 31 |
| CalendarGeneration.Dec31Of2024InWeek1 | sample-code/Structure/Domain-Driven/application/kpi/task_services.py:88-89 | December 31, 2024 lies in ISO week 1, although 2024 has 52 ISO weeks |
| CalendarGeneration.WeekCountOf2024 | sample-code/Structure/Domain-Driven/application/kpi/task_services.py:88-89 | the stored week count of 2024 is 1, the intended one 52 |
| CalendarGeneration.WeekCountIntended | sample-code/Structure/Domain-Driven/application/kpi/task_services.py:88-89 | the number of ISO weeks of the year, the week of December 28, always 52 or 53 |
| CalendarGeneration.WeekCountAsWrittenVersusIntended | sample-code/Structure/Domain-Driven/application/kpi/task_services.py:88-89 | the stored count is either the intended count or 1 |
| Forecast.PyIndex | celery/tasks.py:170 | Python list indexing, negative indices included; None out of range |
| Forecast.IndexOf | celery/tasks.py:170 | `list.index`: the first position of the value, absent exactly when it is not in the list |
| Forecast.ForecastResponse | celery/tasks.py:50-75 | six entries, all with empty values and with the same header year and month |
| Forecast.GenerateNextMonthForecastResponse | celery/tasks.py:50-75 | the loop fails with an index error exactly for a month below -11, and otherwise builds the response |
| Forecast.ForecastCycle | celery/tasks.py:26-75 | for a month 1..12, the header is the next month (with the year carried), and slot i is `for` month i after the current one |
| Forecast.ForSlotClosedForm | celery/tasks.py:50-75 | slot i's "for" month and year are the current month plus i, wrapping the year |
| Forecast.ForSlotStep | celery/tasks.py:50-75 | consecutive slots advance the "for" month by one, carrying into the year at January |
| Forecast.GroupKeysCover | celery/tasks.py:156-162 | every item's key is among the group keys |
| Forecast.GroupKeysFromItems | celery/tasks.py:156-162 | every group key comes from some item |
| Forecast.GroupKeysDistinct | celery/tasks.py:156-162 | no group key appears twice |
| Forecast.GroupOfUnseen | celery/tasks.py:156-162 | a key not among the group keys has no items |
| Forecast.ItemInItsGroup | celery/tasks.py:156-162 | every item is in the group of its key |
| Forecast.GroupOfMembers | celery/tasks.py:156-162 | every member of a group is an item with that key |
| Forecast.GroupOfAppend | celery/tasks.py:156-162 | grouping distributes over concatenation |
| Forecast.GroupingPreservesCount | celery/tasks.py:156-162 | the group sizes add up to the number of items |
| Forecast.FirstOccurrenceOrder | celery/tasks.py:156-172 | groups appear in the order of their keys' first occurrence |
| Forecast.GroupFor | celery/tasks.py:165-172 | a group records its month and that month's 1-based position |
| Forecast.Grouped | celery/tasks.py:152-180 | on success one group per distinct key, each with its month's position; the only failure is a value error |
| Forecast.GroupedFailsIff | celery/tasks.py:165-172 | grouping fails exactly when some entry's month name is not a month |
| Forecast.GenerateGroupedData | celery/tasks.py:152-180 | the loop computes the grouping |
| Forecast.NextBatch | celery/tasks.py:207-224 | a successful batch has six entries |
| Forecast.Rollover | celery/tasks.py:207-224 | a successful rollover adds six entries |
| Forecast.NextBatchIsNextMonth | celery/tasks.py:207-224 | the new entries' header is the month after the last group's month, with the year carried |
| Forecast.RolloverFor | celery/tasks.py:207-224 | the method computes the rollover |
| Forecast.AppendEntries | celery/tasks.py:220-224 | the entries are appended to the row's forecast data |
| Forecast.RollOne | celery/tasks.py:207-224 | a row is extended by its rollover when that succeeds and otherwise left unchanged |
| Forecast.CreateEmptyForecastEntries | celery/tasks.py:196-228 | the rows before the first failure are extended by their rollover; the failing row and all later ones are unchanged |
| KpiSerializers.ValidateYear | sample-code/Structure/Domain-Driven/interface/kpi/serializers.py:94-103 | every year passes unchanged |
| KpiSerializers.RequiredForAbsolute | sample-code/Structure/Domain-Driven/interface/kpi/serializers.py:105-119 | the value fails exactly when the request is absolute and the value is None, with the "required" message; otherwise passes unchanged |
| KpiSerializers.ValidateCalenderManagerId | sample-code/Structure/Domain-Driven/interface/kpi/serializers.py:105-111 | the calender manager id is required exactly for absolute KPIs |
| KpiSerializers.ValidatePlanFrequency | sample-code/Structure/Domain-Driven/interface/kpi/serializers.py:113-119 | the plan frequency is required exactly for absolute KPIs |
| KpiSerializers.Children | sample-code/Structure/Domain-Driven/interface/kpi/serializers.py:218-230 | False exactly when there are no related KPIs; otherwise the serialized related KPIs in order |
| KpiSerializers.ToRepresentation | sample-code/Structure/Domain-Driven/interface/kpi/serializers.py:232-240 | an absolute KPI loses "children" (a key error without it); any other gets level "parent"; all other keys are kept |
| KpiSerializers.ValidateChoice | sample-code/Structure/Domain-Driven/interface/kpi/serializers.py:256 | a value passes exactly when it is one of the choice codes |
| KpiSerializers.ValueTypeChoices | sample-code/Structure/Domain-Driven/interface/kpi/serializers.py:251-270 | the frequency update accepts "actual" and "target", the KPI update only "target" |
| CacheBase.FormatKey | caching/cache_base.py:68-74 | a single-key cache uses the prefix alone; otherwise "prefix:key", a composite key joined with "-" |
| CacheBase.FormatKeyInjective | caching/cache_base.py:68-74 | distinct scalar keys get distinct cache keys unless the cache is single-key |
| CacheBase.FormatTwiceDiffers | caching/cache_base.py:68-74 | formatting an already formatted key gives a different key |
| CacheBase.FormatAll | caching/cache_base.py:76-77 | each key of the list is formatted in place |
| CacheBase.DefaultKeyPrefix | caching/cache_base.py:53-61 | an empty prefix defaults to the class name |
| CacheBase.DefaultKeyPrefixIdempotent | caching/cache_base.py:53-61 | defaulting the prefix twice changes nothing |
| CacheBase.Timeout | caching/cache_base.py:93-100 | a missing or zero duration falls back to the default expiry |
| CacheBase.SetThenGet | caching/cache_base.py:79-100 | after setting a non-None value, getting the key returns it and every other key is unchanged |
| CacheBase.SetNoneKeepsFormattedKey | caching/cache_base.py:93-104 | setting None deletes the twice-prefixed key, so the stored key survives, unless the cache is single-key |
| CacheBase.AddActsOnTwicePrefixedKey | caching/cache_base.py:110-113 | `add` never touches the stored key, and is a no-op once the twice-prefixed key is truthy |
| CacheBase.AfterIncr | caching/cache_base.py:122-124 | an increment fails for a missing or non-integer value, and otherwise changes that one value by delta |
| CacheBase.IncrThenDecr | caching/cache_base.py:122-128 | decrementing after incrementing restores the cache; both fail in the same cases |
| CacheBase.KeyedCache.constructor | caching/cache_base.py:63-66 | a new cache has the given configuration and the defaulted prefix |
| CacheBase.KeyedCache.SetDefaultKeyPrefix | caching/cache_base.py:53-61 | the prefix is defaulted in place |
| CacheBase.KeyedCache.CacheGet | caching/cache_base.py:79-82 | the value stored under the formatted key, None when absent |
| CacheBase.KeyedCache.CacheGetMany | caching/cache_base.py:84-91 | a single-key cache delegates to `get`; otherwise the found values and the keys that were not found |
| CacheBase.KeyedCache.CacheSet | caching/cache_base.py:93-100 | the store becomes the result of setting the value |
| CacheBase.KeyedCache.Delete | caching/cache_base.py:102-104 | the formatted key is removed |
| CacheBase.KeyedCache.Add | caching/cache_base.py:110-113 | the store becomes the result of adding under the twice-prefixed key |
| CacheBase.KeyedCache.Incr | caching/cache_base.py:122-124 | the store is incremented, or unchanged with the error |
| CacheBase.KeyedCache.Decr | caching/cache_base.py:126-128 | the store is decremented, or unchanged with the error |
| CacheBase.KeyedCache.IncrFormatted | caching/cache_base.py:124 | the backend's `incr` on a formatted key fails for a missing or non-integer value without change, and otherwise adds delta to that value alone |
| CacheBase.KeyedCache.SimpleGet | caching/cache_base.py:173-197 | a cache hit is returned untouched; otherwise the database value is returned and cached |
| CacheBase.GetMany | caching/cache_base.py:84-91 | the found keys and their values, and only those |
| CacheBase.MissingIff | caching/cache_base.py:84-91 | a key is reported missing exactly when it was asked for and is not stored |
| CacheBase.MissingWithin | caching/cache_base.py:84-91 | a key is missing exactly when it was asked for and its formatted key is absent from the result |
| CacheBase.MissingIsSubsequence | caching/cache_base.py:84-91 | there are never more missing keys than requested ones, and all are missing exactly when none was found |
| PaginationCache.AtLeastOne | caching/pagination_cache.py:58-59 | the page number and size are clamped to at least 1: a value of 1 or more is kept, anything smaller becomes 1 |
| PaginationCache.Slice | caching/pagination_cache.py:70 | Python slicing: never raises, empty past the end, otherwise the items from the start index |
| PaginationCache.PageShape | caching/pagination_cache.py:68-70 | a page holds at most page-size items, is empty exactly past the end, and is the run of ids from its start; a page that fits is full |
| PaginationCache.PagesArePrefix | caching/pagination_cache.py:68-70 | the first n pages are exactly the first n times page-size ids: pages neither overlap nor skip |
| PaginationCache.PagesCoverList | caching/pagination_cache.py:68-70 | enough pages cover the whole list |
| PaginationCache.Sliceable | caching/pagination_cache.py:70-71 | a list is walked as its items and a string as its one-character strings; any other value cannot be sliced |
| PaginationCache.StringPage | caching/pagination_cache.py:70-71 | a page of a string is walked as the one-character strings of the same page of the string |
| PaginationCache.Get | caching/pagination_cache.py:58-73 | the id list comes from the cache or, on a miss, from the database and is cached; the page size defaults to 50; a value that is neither a list nor a string fails; otherwise each item of the page (an id, or a one-character string when the value is a string) is resolved in order |
| ModelCache.GetSerializer | sample-code/caching/model_cache_base.py:51-61 | a type error without a serializer class; otherwise the class with `many` set exactly for a list |
| ModelCache.Serialize | sample-code/caching/model_cache_base.py:66-69 | the serializer class applied to the data with the right `many` flag |
| ModelCache.ToCacheRepresentation | sample-code/caching/model_cache_base.py:63-64 | the identity |
| ModelCache.Get | sample-code/caching/model_cache_base.py:91-103 | a cache hit is returned as is; otherwise a None from the database is returned without caching, and any other value is serialized, cached and returned |
| ApiResponse.StructResponse | APIResponse/custom_response.py:95-118 | always success, message and data; errors only when truthy |
| ApiResponse.SuccessMessage | APIResponse/custom_response.py:120-128 | the caller's name followed by " Successful." |
| ApiResponse.SuccessMessageWords | APIResponse/custom_response.py:120-128 | underscores become hyphens, word-initial letters upper case, all other letters lower case |
| ApiResponse.Success | APIResponse/custom_response.py:130-137 | success True with the data, no errors; the given message or the generated one; the given status, or 200 for None or 0 |
| ApiResponse.ErrorMessage | APIResponse/custom_response.py:141-151 | a string message as is; the first element of the first field's list for a dict; StopIteration for an empty dict, IndexError for an empty first list or string, KeyError for a dict value and TypeError for a value that cannot be subscripted |
| ApiResponse.FieldsObjectHasField | APIResponse/custom_response.py:141-151 | every field of an error dict (keys distinct, as in a dict) appears in the response body with its own value |
| ApiResponse.ErrorMessageFromBody | APIResponse/custom_response.py:141-151 | the error message of a dict is the first item of the first field's list as the response body holds it |
| ApiResponse.Fail | APIResponse/custom_response.py:139-151 | fails exactly when the first error cannot be read; otherwise success False, empty data, the status passed through, the errors when truthy, and the general message or the first error |
| ApiResponse.Build | APIResponse/custom_response.py:81-93 | an error response exactly when `for_error` is set |
| ApiResponse.SuccessFlagIsDispatch | APIResponse/custom_response.py:37-93 | the body's success flag tells the two outcomes apart, and a success never carries errors |
| ExceptionsWithLogs.NewException | exception-handling/custom-exceptions.py:11-22 | the exception keeps item, message and status, and always has a log handle, the given one if any |
| ExceptionsWithLogs.Status401 | exception-handling/custom-exceptions.py:35-38 | the base exception with status 401 |
| ExceptionsWithLogs.Status400 | exception-handling/custom-exceptions.py:40-47 | the base exception, whose default status is 400 |
| ExceptionsWithLogs.Status403 | exception-handling/custom-exceptions.py:49-52 | the base exception with status 403 |
| ExceptionsWithLogs.Status404 | exception-handling/custom-exceptions.py:54-57 | the base exception with status 404 |
| ExceptionsWithLogs.StatusCodes | exception-handling/custom-exceptions.py:35-57 | the four classes carry 401, 400, 403 and 404 and otherwise agree |
| ExceptionsWithLogs.ErrorData | exception-handling/custom-exceptions.py:24-28 | exactly the item and the message |
| ExceptionsWithLogs.Str | exception-handling/custom-exceptions.py:30-31 | "item: message" |
| ExceptionsWithLogs.StrSplitsAtFirstSeparator | exception-handling/custom-exceptions.py:30-31 | for an item without ": ", the first separator in the text ends the item |
| AuthUtils.Age | Structure/monolithic/app/auth/utils_auth.py:21-23 | the difference in years, minus one before the birthday in the current year |
| AuthUtils.AgeAtBirth | Structure/monolithic/app/auth/utils_auth.py:21-23 | the age on the birth date is 0 |
| AuthUtils.AgeMonotone | Structure/monolithic/app/auth/utils_auth.py:21-23 | the age never decreases as the date advances |
| AuthUtils.AgeNonNegative | Structure/monolithic/app/auth/utils_auth.py:21-23 | the age from the birth date on is never negative |
| AuthUtils.AgeIsCompletedYears | Structure/monolithic/app/auth/utils_auth.py:21-23 | the age is at least n exactly when the n-th birthday (same month and day) has been reached |
| AttributeLoggers.Merge | Attribute-Logger/logger.py:325-326 | the union of the keys, the new attributes winning and the others keeping their values |
| AttributeLoggers.MergeTwice | sample-code/Structure/Domain-Driven/infrastructure/logger/models.py:108-120 | adding attributes in two steps equals adding their merge once |
| AttributeLoggers.MergeIdempotent | Attribute-Logger/logger.py:315-327 | adding the same attributes twice equals adding them once |
| AttributeLoggers.Registry.constructor | Attribute-Logger/logger.py:222 | no instance exists before the first construction |
| AttributeLoggers.AttributeLogger.Allocate | sample-code/Structure/Domain-Driven/infrastructure/logger/models.py:18-27 | a newly allocated logger has no attributes |
| AttributeLoggers.AttributeLogger.Log | Attribute-Logger/logger.py:250-313 | each level call emits the message at its level with the caller's keywords, `extra` set to the attributes and `stacklevel` 2 |
| AttributeLoggers.AttributeLogger.WithAttributes | Attribute-Logger/logger.py:315-327 | the result is the singleton, re-initialised with the same logger and the merged attributes |
| AttributeLoggers.Construct | Attribute-Logger/logger.py:225-248 | the singleton is allocated once and re-initialised on every construction |
| AttributeLoggers.ConstructTwice | sample-code/Structure/Domain-Driven/infrastructure/logger/models.py:18-41 | two constructions return the same object, which holds the second construction's logger and attributes |
| LogFormatters.Line | Attribute-Logger/logger.py:200-203 | "Log #" + counter + level + time + message, ending in a newline |
| LogFormatters.LinesDifferByCounter | Attribute-Logger/logger.py:182-203 | lines with different counters differ, whatever the records |
| LogFormatters.CounterLogFormatter.constructor | Attribute-Logger/logger.py:178-180 | the counter starts at 0 |
| LogFormatters.CounterLogFormatter.Format | Structure/Domain-Driven/infrastructure/logger/services.py:33-37 | the counter goes up by one, and the line carries the new count |
| LogFormatters.FormatTwice | Structure/Domain-Driven/infrastructure/logger/services.py:28-37 | two formats advance the counter by two and give different lines |
| LogFormatters.JsonRecordOf | Attribute-Logger/logger.py:139-148 | the five record fields are set; "request" is removed, and `x_forward_for` added exactly when it was truthy; every other key is kept |
| LogFormatters.JsonRecord | Structure/Domain-Driven/infrastructure/logger/services.py:14-24 | the `extra` dict is updated in place to that record and returned |
| LogFormatters.JsonRecordIdempotent | Attribute-Logger/logger.py:117-148 | formatting the formatted record again with the same inputs changes nothing |

## Left out

- The database, the ORM and transactions. Query results are parameters, so
  row locking and rollback are not modelled. A failure leaves the modelled
  state unchanged, as a rollback would.
- The permission service, the user service and the CEO substitution. They
  appear as their results: visible KPI ids, the company check and the
  direct-report permission entries.
- `CalenderManagerAppServices.convert_data_with_target_values` (the
  frequency reconciler) is not part of this model. It is a parameter that
  returns whether the data validated and the converted series.
- `generate_calender_data_from_frequency_and_year` is not part of this
  model. The frequency row of a new KPI is whatever the reconciler returns.
- `update_numerator_denominator_from_dict`
  (`Structure/Domain-Driven/application/kpi/services.py:511`) is not
  modelled separately. Its effect is `UpdateRelativeKpi`.
- `calculate_total_calculation_data_of_kpis` is left out: its results are
  discarded, so it has no observable effect.
- Workalendar's working-day and holiday rules are left out: they are
  predicates passed in.
- `MONTH_LIST`, imported by `celery/tasks.py` from its package's `services`
  module (not part of this model), and the clock are parameters.
- Python's `datetime` limits are modelled for years 1..9999 only.
- The forecast group key is a (month, year) pair, so the `split("_")`
  round trip of the source's string key is not modelled.
- `Forecast.CreateEmptyForecastEntries`: one try block wraps the whole loop,
  so the first failing row ends the task; the model stops there too.
- `ParseInt` accepts optional sign and decimal digits only, not Python's
  full `int()` syntax.
- KpiPeriods.GetLastDate: a query value is parsed by `ParseInt`, so a value
  Python's `int()` would still accept (surrounding spaces, a leading `+`,
  digit-group underscores) fails in the model with a value error.
- KpiFrequency.MonthNames and KpiFrequency.DayNames: `settings.ALL_MONTHS`
  and `settings.ALL_DAYS` are not part of this model. They are taken to be
  the English month names (as `calendar.month_name` gives them) and the
  English day names from Monday.
- CacheBase.AfterIncr: a stored boolean counts as not an integer. Django's
  in-memory backend would add to it as Python's `True + 1` does; what
  other backends do differs, and the backend is not part of this model.
- Dict iteration order is modelled only where the result depends on it:
  the error dict of `APIResponse` is a list of pairs.
- The DRF field pipeline is left out: field types, `required`, `allow_null`
  and nested serializers. Only the validators and methods are modelled.
- `CacheBase.KeyedCache.CacheGetMany`: the single-key path calls the
  subclass's `get`, which is not part of this model. The model reports only
  that it delegates.
- `CacheBase.KeyedCache.constructor`: `key_prefix` is a class attribute in
  the source. It is modelled as a per-instance field set from the class's
  value.
- `NewBadgeCache` (`caching/cache_base.py:131-152`) and `SimpleGetCache.delete`
  (`caching/cache_base.py:199-211`) only call `cache_get`, `cache_set` and
  `delete`. They are modelled by those members, with the class's expiry as
  the cache's configuration.
- Cache expiry is left out. Timeouts are stored with the value and never
  expire.
- Cache values are JSON values. Pickling arbitrary objects is not modelled.
- `delete_many`, `delete_pattern` and `delete_all`
  (`caching/cache_base.py:106-120`) are left out: they are thin calls into
  the Django cache backend.
- `APIResponse.__new__` calls `__init__` on the class. The model takes the
  initialised arguments directly.
- The caller's function name, taken from `inspect.stack()`, is the
  parameter `callerFunction`.
- `ExceptionsWithLogs.ErrorData`: the log line that `error_data` emits is
  not modelled.
- `LazyExceptions` (`exception-handling/custom-exceptions.py:85-137`) is
  left out: it imports modules dynamically.
- Title-casing handles ASCII letters only. Unicode case mapping is left out.
- The logging backend is left out. A level call yields the `Emit` value it
  would pass to `logging.Logger`.
- `__del__`'s print is left out.
- The JSON formatter's aliasing of `extra` is modelled by the `Extra`
  class. The time stamp and the `X-FORWARD-FOR` lookup are parameters.
- `AttributeLoggers.AttributeLogger.Log`: the positional `*args` are not
  modelled.

## Findings

| source | as written | input that shows it | evidently intended | confidence | as-written member | corrected member |
|---|---|---|---|---|---|---|
| Structure/Domain-Driven/application/kpi/services.py:749-761 | the C-level branch updates the field `is_archive`, but the model field is `is_archived`, so the update raises | a C-level user whose list covers all their writable KPIs | archive the KPIs as for a CEO | not executed | KpiLifecycle.CLevelNeverArchives | KpiLifecycle.ArchiveKpiIntended |
| Structure/Domain-Driven/application/kpi/services.py:637-707 | `delete_kpi` requires an active frequency row, which only absolute KPIs have | deleting any percentage or euro/unit KPI, even as CEO | delete a ratio KPI, which has no row | not executed | KpiLifecycle.DeleteRatioKpiFails | KpiLifecycle.DeleteIntendedAgrees |
| sample-code/Structure/Domain-Driven/application/kpi/task_services.py:88-89 | `week_count` is the ISO week of the last stored day, December 31 | year 2024: December 31 lies in ISO week 1, so the stored count is 1 | the number of ISO weeks of the year (52 for 2024), read from the field name alone | not executed; the intent rests only on the name `week_count` | CalendarGeneration.WeekCountOf2024 | CalendarGeneration.WeekCountAsWrittenVersusIntended |
