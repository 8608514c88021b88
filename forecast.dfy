/**
 * The monthly forecast roll-over task: the six empty entries generated for
 * the months ahead, the grouping of a forecast's entries by the month they
 * were made in, and the task that appends a new batch to every forecast.
 */
module Forecast {
  import opened Wrappers
  import opened Text
  import opened KpiErrors

  /**
   * `MONTH_LIST`, imported from the task package's own services module,
   * which is not part of this model: any list of twelve month names.
   */
  type MonthList = s: seq<string> | |s| == 12 witness seq(12, _ => "")

  /** The `values` dict of a generated entry: {"actual": "", "forecast": ""}. */
  const EmptyValues: map<string, string> := map["actual" := "", "forecast" := ""]

  /** One element of `forecast.forecast_data`. */
  datatype ForecastEntry = ForecastEntry(
    year: string,
    monthName: string,
    forMonth: string,
    forYear: string,
    values: map<string, string>)

  /** Python's `xs[i]`: negative indices count from the end; `None` where Python raises IndexError. */
  function PyIndex<T>(xs: seq<T>, i: int): (r: Option<T>)
    ensures r.Some? <==> -|xs| <= i < |xs|
    ensures r.Some? ==> r.value == xs[if i >= 0 then i else |xs| + i]
  {
    if 0 <= i < |xs| then Some(xs[i]) else if -|xs| <= i < 0 then Some(xs[|xs| + i]) else None
  }

  /** Python's `xs.index(x)`: the first position of `x`; `None` where Python raises ValueError. */
  function IndexOf(xs: seq<string>, x: string): (r: Option<nat>)
    ensures r.Some? <==> x in xs
    ensures r.Some? ==> r.value < |xs| && xs[r.value] == x && x !in xs[..r.value]
  {
    if xs == [] then None
    else if xs[0] == x then Some(0)
    else match IndexOf(xs[1..], x)
      case None => None
      case Some(i) =>
        assert xs[..i + 1] == [xs[0]] + xs[1..][..i];
        Some(i + 1)
  }

  // ---------------------------------------------------------------------
  // generate_next_month_forecast_response
  // ---------------------------------------------------------------------

  /** `month` after the loop's one possible reset: it is never advanced. */
  function HeaderMonth(currentMonth: int): int
  {
    if currentMonth > 11 then 0 else currentMonth
  }

  /** `year` after the loop's one possible reset. */
  function HeaderYear(currentYear: int, currentMonth: int): int
  {
    if currentMonth > 11 then currentYear + 1 else currentYear
  }

  /**
   * The `for_month` index and the `for_year` used by entry `i`: the counter
   * starts at `current_month - 1` and is reset to 0 with a year increment
   * whenever it has passed 11 (which happens at most once in six steps).
   */
  function ForMonthIndex(currentMonth: int, i: nat): int
  {
    var m0 := if currentMonth - 1 > 11 then 0 else currentMonth - 1;
    if m0 + i > 11 then m0 + i - 12 else m0 + i
  }

  function ForYear(currentYear: int, currentMonth: int, i: nat): int
  {
    var m0 := if currentMonth - 1 > 11 then 0 else currentMonth - 1;
    var y0 := if currentMonth - 1 > 11 then currentYear + 1 else currentYear;
    if m0 + i > 11 then y0 + 1 else y0
  }

  /** `MONTH_LIST[i]` for an index Python accepts. */
  function MonthAt(months: MonthList, i: int): string
    requires -12 <= i < 12
  {
    months[if i >= 0 then i else 12 + i]
  }

  /** Entry `i` of the generated list. */
  function EntryAt(months: MonthList, currentYear: int, currentMonth: int, i: nat): ForecastEntry
    requires currentMonth >= -11 && i < 6
  {
    ForecastEntry(IntToString(HeaderYear(currentYear, currentMonth)), MonthAt(months, HeaderMonth(currentMonth)),
                  MonthAt(months, ForMonthIndex(currentMonth, i)), IntToString(ForYear(currentYear, currentMonth, i)),
                  EmptyValues)
  }

  /** The six entries generated from `(current_year, current_month)`. */
  function ForecastResponse(months: MonthList, currentYear: int, currentMonth: int): (r: seq<ForecastEntry>)
    requires currentMonth >= -11
    ensures |r| == 6
    ensures forall i :: 0 <= i < 6 ==> r[i].values == EmptyValues
    ensures forall i :: 0 <= i < 6 ==> r[i].year == r[0].year && r[i].monthName == r[0].monthName
  {
    seq(6, i requires 0 <= i < 6 => EntryAt(months, currentYear, currentMonth, i))
  }

  /**
   * `generate_next_month_forecast_response`. A `current_month` below -11
   * makes `MONTH_LIST[for_month]` raise IndexError on the first step.
   */
  method GenerateNextMonthForecastResponse(months: MonthList, currentYear: int, currentMonth: int)
    returns (r: Result<seq<ForecastEntry>, KpiError>)
    ensures currentMonth < -11 <==> r == Err(IndexError)
    ensures currentMonth >= -11 ==> r == Ok(ForecastResponse(months, currentYear, currentMonth))
  {
    var list: seq<ForecastEntry> := [];
    var year, month := currentYear, currentMonth;
    var forMonth, forYear := month - 1, year;
    for i := 0 to 6
      invariant i > 0 ==> currentMonth >= -11
      invariant year == YearBefore(currentYear, currentMonth, i) && month == MonthBefore(currentMonth, i)
      invariant forMonth == ForMonthBefore(currentMonth, i) && forYear == ForYearBefore(currentYear, currentMonth, i)
      invariant |list| == i
      invariant forall k :: 0 <= k < i ==> list[k] == EntryAt(months, currentYear, currentMonth, k)
    {
      if month > 11 {
        month := 0;
        year := year + 1;
      }
      if forMonth > 11 {
        forMonth := 0;
        forYear := forYear + 1;
      }
      var monthName := PyIndex(months, month);
      var forMonthName := PyIndex(months, forMonth);
      if monthName.None? || forMonthName.None? {
        return Err(IndexError);
      }
      EntryFromCounters(months, currentYear, currentMonth, i, year, month, forMonth, forYear);
      var entry := ForecastEntry(IntToString(year), monthName.value, forMonthName.value, IntToString(forYear), EmptyValues);
      list := list + [entry];
      forMonth := forMonth + 1;
    }
    ResponseFromEntries(months, currentYear, currentMonth, list);
    return Ok(list);
  }

  /** The counters at the start of step `i`, before its resets. */
  function MonthBefore(currentMonth: int, i: nat): int
  {
    if i == 0 then currentMonth else HeaderMonth(currentMonth)
  }

  function YearBefore(currentYear: int, currentMonth: int, i: nat): int
  {
    if i == 0 then currentYear else HeaderYear(currentYear, currentMonth)
  }

  function ForMonthBefore(currentMonth: int, i: nat): int
  {
    if i == 0 then currentMonth - 1 else ForMonthIndex(currentMonth, i - 1) + 1
  }

  function ForYearBefore(currentYear: int, currentMonth: int, i: nat): int
  {
    if i == 0 then currentYear else ForYear(currentYear, currentMonth, i - 1)
  }

  /**
   * The counters of step `i`, once reset, index `MONTH_LIST` exactly when
   * `current_month >= -11`, and then spell entry `i`.
   */
  lemma EntryFromCounters(months: MonthList, currentYear: int, currentMonth: int, i: nat,
                          year: int, month: int, forMonth: int, forYear: int)
    requires i < 6 && (i > 0 ==> currentMonth >= -11)
    requires year == (if MonthBefore(currentMonth, i) > 11 then YearBefore(currentYear, currentMonth, i) + 1
                      else YearBefore(currentYear, currentMonth, i))
    requires month == (if MonthBefore(currentMonth, i) > 11 then 0 else MonthBefore(currentMonth, i))
    requires forMonth == (if ForMonthBefore(currentMonth, i) > 11 then 0 else ForMonthBefore(currentMonth, i))
    requires forYear == (if ForMonthBefore(currentMonth, i) > 11 then ForYearBefore(currentYear, currentMonth, i) + 1
                         else ForYearBefore(currentYear, currentMonth, i))
    ensures (-12 <= month < 12 && -12 <= forMonth < 12) <==> currentMonth >= -11
    ensures currentMonth >= -11 ==>
      year == HeaderYear(currentYear, currentMonth) && month == HeaderMonth(currentMonth)
      && forMonth == ForMonthIndex(currentMonth, i) && forYear == ForYear(currentYear, currentMonth, i)
    ensures currentMonth >= -11 ==>
      ForecastEntry(IntToString(year), MonthAt(months, month), MonthAt(months, forMonth), IntToString(forYear), EmptyValues)
      == EntryAt(months, currentYear, currentMonth, i)
  {
  }

  /** Six entries that agree with `EntryAt` one by one are the generated list. */
  lemma ResponseFromEntries(months: MonthList, currentYear: int, currentMonth: int, list: seq<ForecastEntry>)
    requires currentMonth >= -11 && |list| == 6
    requires forall k :: 0 <= k < 6 ==> list[k] == EntryAt(months, currentYear, currentMonth, k)
    ensures list == ForecastResponse(months, currentYear, currentMonth)
  {
  }

  /**
   * For a month number 1..12: the entries are headed by the month after
   * `current_month` (January of the next year after December), and entry
   * `i` is for month `(current_month - 1 + i) mod 12`, its year advancing
   * exactly when that index wraps past December.
   */
  lemma ForecastCycle(months: MonthList, currentYear: int, currentMonth: int, i: nat)
    requires 1 <= currentMonth <= 12 && i < 6
    ensures ForecastResponse(months, currentYear, currentMonth)[i].monthName == months[currentMonth % 12]
    ensures ForecastResponse(months, currentYear, currentMonth)[i].year == IntToString(currentYear + currentMonth / 12)
    ensures ForecastResponse(months, currentYear, currentMonth)[i].forMonth == months[(currentMonth - 1 + i) % 12]
    ensures ForecastResponse(months, currentYear, currentMonth)[i].forYear == IntToString(currentYear + (currentMonth - 1 + i) / 12)
  {
    ForSlotClosedForm(currentYear, currentMonth, i);
    var e := ForecastResponse(months, currentYear, currentMonth)[i];
    assert e == EntryAt(months, currentYear, currentMonth, i);
    assert HeaderMonth(currentMonth) == currentMonth % 12 && HeaderYear(currentYear, currentMonth) == currentYear + currentMonth / 12;
    assert MonthAt(months, ForMonthIndex(currentMonth, i)) == months[(currentMonth - 1 + i) % 12];
  }

  lemma ForSlotClosedForm(currentYear: int, currentMonth: int, i: nat)
    requires 1 <= currentMonth <= 12 && i < 6
    ensures ForMonthIndex(currentMonth, i) == (currentMonth - 1 + i) % 12
    ensures ForYear(currentYear, currentMonth, i) == currentYear + (currentMonth - 1 + i) / 12
  {
    var v := currentMonth - 1 + i;
    if v > 11 {
      assert v % 12 == v - 12 && v / 12 == 1;
    } else {
      assert v % 12 == v && v / 12 == 0;
    }
  }

  /**
   * Consecutive entries: the `for_month` index steps by one modulo 12, and
   * `for_year` grows by one exactly when the index wraps to 0.
   */
  lemma ForSlotStep(currentYear: int, currentMonth: int, i: nat)
    requires 1 <= currentMonth <= 12 && i < 5
    ensures ForMonthIndex(currentMonth, i + 1) == (ForMonthIndex(currentMonth, i) + 1) % 12
    ensures ForYear(currentYear, currentMonth, i + 1)
      == ForYear(currentYear, currentMonth, i) + (if ForMonthIndex(currentMonth, i + 1) == 0 then 1 else 0)
  {
  }

  // ---------------------------------------------------------------------
  // generate_grouped_data_from_response
  // ---------------------------------------------------------------------

  /** The dict key `f"{year}_{month_name}"`, kept as the pair it is built from. */
  datatype GroupKey = GroupKey(year: string, month: string)

  function KeyOf(e: ForecastEntry): GroupKey
  {
    GroupKey(e.year, e.monthName)
  }

  /*
   * The group-by itself does not depend on what the items and keys are, so
   * it is stated for any item type `T` and key function `key`.
   */

  /** The keys of a dict filled from `items` in order: each distinct key where it first occurs. */
  function GroupKeys<T, K(==)>(items: seq<T>, key: T -> K): seq<K>
  {
    if items == [] then []
    else
      var keys := GroupKeys(items[..|items| - 1], key);
      var k := key(items[|items| - 1]);
      if k in keys then keys else keys + [k]
  }

  /** The list filed under key `k`: the items with that key, in input order. */
  function GroupOf<T, K(==)>(items: seq<T>, key: T -> K, k: K): seq<T>
  {
    if items == [] then []
    else
      var last := items[|items| - 1];
      GroupOf(items[..|items| - 1], key, k) + (if key(last) == k then [last] else [])
  }

  lemma GroupKeysStep<T, K>(items: seq<T>, key: T -> K, i: nat)
    requires i < |items|
    ensures GroupKeys(items[..i + 1], key)
      == if key(items[i]) in GroupKeys(items[..i], key) then GroupKeys(items[..i], key)
         else GroupKeys(items[..i], key) + [key(items[i])]
  {
    assert items[..i + 1][..i] == items[..i];
  }

  lemma GroupOfStep<T, K>(items: seq<T>, key: T -> K, i: nat, k: K)
    requires i < |items|
    ensures GroupOf(items[..i + 1], key, k) == GroupOf(items[..i], key, k) + (if key(items[i]) == k then [items[i]] else [])
  {
    assert items[..i + 1][..i] == items[..i];
  }

  /** Every item's key is among the keys. */
  lemma {:induction false} GroupKeysCover<T, K>(items: seq<T>, key: T -> K, i: nat)
    requires i < |items|
    ensures key(items[i]) in GroupKeys(items, key)
    decreases |items|
  {
    if i < |items| - 1 {
      var prefix := items[..|items| - 1];
      assert prefix[i] == items[i];
      GroupKeysCover(prefix, key, i);
    }
  }

  /** Every key comes from some item. */
  lemma {:induction false} GroupKeysFromItems<T, K>(items: seq<T>, key: T -> K, j: nat)
    requires j < |GroupKeys(items, key)|
    ensures exists i :: 0 <= i < |items| && key(items[i]) == GroupKeys(items, key)[j]
    decreases |items|
  {
    var prefix := items[..|items| - 1];
    if j < |GroupKeys(prefix, key)| {
      GroupKeysFromItems(prefix, key, j);
      var i :| 0 <= i < |prefix| && key(prefix[i]) == GroupKeys(prefix, key)[j];
      assert items[i] == prefix[i];
    } else {
      assert key(items[|items| - 1]) == GroupKeys(items, key)[j];
    }
  }

  /** No key is listed twice. */
  lemma {:induction false} GroupKeysDistinct<T, K>(items: seq<T>, key: T -> K)
    ensures forall i, j :: 0 <= i < j < |GroupKeys(items, key)| ==> GroupKeys(items, key)[i] != GroupKeys(items, key)[j]
    decreases |items|
  {
    if items != [] {
      GroupKeysDistinct(items[..|items| - 1], key);
    }
  }

  /** Nothing is filed under a key no item carries. */
  lemma {:induction false} GroupOfUnseen<T, K>(items: seq<T>, key: T -> K, k: K)
    requires k !in GroupKeys(items, key)
    ensures GroupOf(items, key, k) == []
    decreases |items|
  {
    if items != [] {
      GroupOfUnseen(items[..|items| - 1], key, k);
    }
  }

  /** Every item is filed in the group of its own key. */
  lemma {:induction false} ItemInItsGroup<T, K>(items: seq<T>, key: T -> K, i: nat)
    requires i < |items|
    ensures items[i] in GroupOf(items, key, key(items[i]))
    decreases |items|
  {
    if i < |items| - 1 {
      var prefix := items[..|items| - 1];
      assert prefix[i] == items[i];
      ItemInItsGroup(prefix, key, i);
    }
  }

  /** A group holds only items of its key, taken from the input. */
  lemma {:induction false} GroupOfMembers<T, K>(items: seq<T>, key: T -> K, k: K, e: T)
    requires e in GroupOf(items, key, k)
    ensures e in items && key(e) == k
    decreases |items|
  {
    var prefix := items[..|items| - 1];
    if e in GroupOf(prefix, key, k) {
      GroupOfMembers(prefix, key, k, e);
    }
  }

  /** Filing is stable: the groups of a concatenation are the concatenated groups. */
  lemma {:induction false} GroupOfAppend<T, K>(a: seq<T>, b: seq<T>, key: T -> K, k: K)
    ensures GroupOf(a + b, key, k) == GroupOf(a, key, k) + GroupOf(b, key, k)
    decreases |b|
  {
    if b == [] {
      assert a + b == a;
    } else {
      var ab := a + b;
      assert ab[..|ab| - 1] == a + b[..|b| - 1];
      assert ab[|ab| - 1] == b[|b| - 1];
      GroupOfAppend(a, b[..|b| - 1], key, k);
    }
  }

  /** The sizes of the groups under `keys`, added up. */
  function GroupSizes<T, K(==)>(items: seq<T>, key: T -> K, keys: seq<K>): nat
  {
    if keys == [] then 0 else GroupSizes(items, key, keys[..|keys| - 1]) + |GroupOf(items, key, keys[|keys| - 1])|
  }

  /** Adding one item under a key other than all of `keys` leaves their sizes alone. */
  lemma {:induction false} GroupSizesOtherKey<T, K>(items: seq<T>, key: T -> K, e: T, keys: seq<K>)
    requires key(e) !in keys
    ensures GroupSizes(items + [e], key, keys) == GroupSizes(items, key, keys)
    decreases |keys|
  {
    if keys != [] {
      GroupSizesOtherKey(items, key, e, keys[..|keys| - 1]);
      assert (items + [e])[..|items|] == items;
    }
  }

  /** Adding one item under one of `keys` (each listed once) grows their sizes by one. */
  lemma {:induction false} GroupSizesSameKey<T, K>(items: seq<T>, key: T -> K, e: T, keys: seq<K>)
    requires key(e) in keys
    requires forall i, j :: 0 <= i < j < |keys| ==> keys[i] != keys[j]
    ensures GroupSizes(items + [e], key, keys) == GroupSizes(items, key, keys) + 1
    decreases |keys|
  {
    var init := keys[..|keys| - 1];
    assert (items + [e])[..|items|] == items;
    if keys[|keys| - 1] == key(e) {
      assert key(e) !in init;
      GroupSizesOtherKey(items, key, e, init);
    } else {
      GroupSizesSameKey(items, key, e, init);
    }
  }

  /** Grouping keeps every item: the group sizes add up to the input length. */
  lemma {:induction false} GroupingPreservesCount<T, K>(items: seq<T>, key: T -> K)
    ensures GroupSizes(items, key, GroupKeys(items, key)) == |items|
    decreases |items|
  {
    if items != [] {
      var prefix, e := items[..|items| - 1], items[|items| - 1];
      assert items == prefix + [e];
      GroupingPreservesCount(prefix, key);
      var keys := GroupKeys(prefix, key);
      if key(e) in keys {
        GroupKeysDistinct(prefix, key);
        GroupSizesSameKey(prefix, key, e, keys);
      } else {
        GroupSizesOtherKey(prefix, key, e, keys);
        var k := key(e);
        assert (keys + [k])[..|keys|] == keys;
        GroupOfUnseen(prefix, key, k);
      }
    }
  }

  /** The keys of a shorter prefix are a prefix of the keys of a longer one. */
  lemma {:induction false} GroupKeysMonotone<T, K>(items: seq<T>, key: T -> K, p: nat, q: nat)
    requires p <= q <= |items|
    ensures GroupKeys(items[..p], key) <= GroupKeys(items[..q], key)
    decreases q - p
  {
    if p < q {
      GroupKeysStep(items, key, q - 1);
      GroupKeysMonotone(items, key, p, q - 1);
    }
  }

  /**
   * Groups come in first-occurrence order: when item `p` and item `q > p`
   * each carry a key not seen before them, `p`'s group is listed earlier.
   */
  lemma FirstOccurrenceOrder<T, K>(items: seq<T>, key: T -> K, p: nat, q: nat)
    requires p < q < |items|
    requires key(items[p]) !in GroupKeys(items[..p], key)
    requires key(items[q]) !in GroupKeys(items[..q], key)
    ensures |GroupKeys(items[..p], key)| < |GroupKeys(items[..q], key)| < |GroupKeys(items, key)|
    ensures GroupKeys(items, key)[|GroupKeys(items[..p], key)|] == key(items[p])
    ensures GroupKeys(items, key)[|GroupKeys(items[..q], key)|] == key(items[q])
  {
    FirstOccurrenceSlot(items, key, p);
    FirstOccurrenceSlot(items, key, q);
    GroupKeysStep(items, key, p);
    GroupKeysMonotone(items, key, p + 1, q);
  }

  /** An item whose key is new to its prefix gives the group at that prefix's key count. */
  lemma FirstOccurrenceSlot<T, K>(items: seq<T>, key: T -> K, p: nat)
    requires p < |items|
    requires key(items[p]) !in GroupKeys(items[..p], key)
    ensures |GroupKeys(items[..p], key)| < |GroupKeys(items, key)|
    ensures GroupKeys(items, key)[|GroupKeys(items[..p], key)|] == key(items[p])
  {
    GroupKeysStep(items, key, p);
    GroupKeysMonotone(items, key, p + 1, |items|);
    assert items[..|items|] == items;
  }

  /** One element of the returned `"data"` list. */
  datatype MonthGroup = MonthGroup(year: string, month: string, monthIndex: int, monthData: seq<ForecastEntry>)

  /** The group built for key `k`. */
  function GroupFor(months: MonthList, items: seq<ForecastEntry>, k: GroupKey): (g: MonthGroup)
    requires k.month in months
    ensures 1 <= g.monthIndex <= 12 && months[g.monthIndex - 1] == g.month
  {
    MonthGroup(k.year, k.month, IndexOf(months, k.month).value + 1, GroupOf(items, KeyOf, k))
  }

  /** The groups for `keys`, in order. */
  function GroupsFor(months: MonthList, items: seq<ForecastEntry>, keys: seq<GroupKey>): (gs: seq<MonthGroup>)
    requires forall j :: 0 <= j < |keys| ==> keys[j].month in months
    ensures |gs| == |keys|
    ensures forall j :: 0 <= j < |keys| ==> gs[j] == GroupFor(months, items, keys[j])
  {
    if keys == [] then [] else GroupsFor(months, items, keys[..|keys| - 1]) + [GroupFor(months, items, keys[|keys| - 1])]
  }

  /** What `generate_grouped_data_from_response` returns under `"data"`, or the ValueError of `MONTH_LIST.index`. */
  function Grouped(months: MonthList, items: seq<ForecastEntry>): (r: Result<seq<MonthGroup>, KpiError>)
    ensures r.Err? ==> r == Err(ValueError)
    ensures r.Ok? ==> |r.value| == |GroupKeys(items, KeyOf)|
    ensures r.Ok? ==> forall g :: g in r.value ==> 1 <= g.monthIndex <= 12 && months[g.monthIndex - 1] == g.month
  {
    var keys := GroupKeys(items, KeyOf);
    if forall j :: 0 <= j < |keys| ==> keys[j].month in months then
      Ok(GroupsFor(months, items, keys))
    else
      Err(ValueError)
  }

  /** The grouping raises exactly when some item's month name is not in `MONTH_LIST`. */
  lemma GroupedFailsIff(months: MonthList, items: seq<ForecastEntry>)
    ensures Grouped(months, items).Err? <==> exists i :: 0 <= i < |items| && items[i].monthName !in months
  {
    var keys := GroupKeys(items, KeyOf);
    if Grouped(months, items).Err? {
      var j :| 0 <= j < |keys| && keys[j].month !in months;
      GroupKeysFromItems(items, KeyOf, j);
    } else {
      forall i | 0 <= i < |items|
        ensures items[i].monthName in months
      {
        GroupKeysCover(items, KeyOf, i);
        var j :| 0 <= j < |keys| && keys[j] == KeyOf(items[i]);
      }
    }
  }

  /** `generate_grouped_data_from_response`: a dict filled in input order, then restructured. */
  method GenerateGroupedData(months: MonthList, items: seq<ForecastEntry>) returns (r: Result<seq<MonthGroup>, KpiError>)
    ensures r == Grouped(months, items)
  {
    var grouped: map<GroupKey, seq<ForecastEntry>> := map[];
    var order: seq<GroupKey> := [];
    for i := 0 to |items|
      invariant order == GroupKeys(items[..i], KeyOf)
      invariant forall k :: k in grouped <==> k in order
      invariant forall k :: k in grouped ==> grouped[k] == GroupOf(items[..i], KeyOf, k)
    {
      GroupKeysStep(items, KeyOf, i);
      var k := KeyOf(items[i]);
      if k !in grouped {
        GroupOfUnseen(items[..i], KeyOf, k);
        grouped := grouped[k := []];
        order := order + [k];
      }
      grouped := grouped[k := grouped[k] + [items[i]]];
      forall k' | k' in grouped
        ensures grouped[k'] == GroupOf(items[..i + 1], KeyOf, k')
      {
        GroupOfStep(items, KeyOf, i, k');
      }
    }
    assert items[..|items|] == items;
    var restructured: seq<MonthGroup> := [];
    for j := 0 to |order|
      invariant |restructured| == j
      invariant forall l :: 0 <= l < j ==>
        order[l].month in months && restructured[l] == GroupFor(months, items, order[l])
    {
      var key := order[j];
      var index := IndexOf(months, key.month);
      if index.None? {
        return Err(ValueError);
      }
      restructured := restructured + [MonthGroup(key.year, key.month, index.value + 1, grouped[key])];
    }
    assert restructured == GroupsFor(months, items, order);
    return Ok(restructured);
  }

  // ---------------------------------------------------------------------
  // create_empty_forecast_entry_into_db
  // ---------------------------------------------------------------------

  /** A stored forecast row; `forecast_data` is the list the task appends to. */
  class ForecastRow {
    var forecastData: seq<ForecastEntry>

    constructor(data: seq<ForecastEntry>)
      ensures forecastData == data
    {
      forecastData := data;
    }
  }

  /**
   * What the task appends once a forecast's entries are grouped: the six
   * entries generated from the year and month of the last group, or the
   * IndexError of an empty list or the ValueError of an unparsable year.
   */
  function NextBatch(months: MonthList, groups: seq<MonthGroup>): (r: Result<seq<ForecastEntry>, KpiError>)
    requires forall g :: g in groups ==> g.month in months
    ensures r.Ok? ==> |r.value| == 6
  {
    if groups == [] then Err(IndexError)
    else
      var last := groups[|groups| - 1];
      assert last in groups;
      match ParseInt(last.year)
      case None => Err(ValueError)
      case Some(y) => Ok(ForecastResponse(months, y, IndexOf(months, last.month).value + 1))
  }

  /** What the task appends to one forecast, or the exception that ends the task. */
  function Rollover(months: MonthList, data: seq<ForecastEntry>): (r: Result<seq<ForecastEntry>, KpiError>)
    ensures r.Ok? ==> |r.value| == 6
  {
    match Grouped(months, data)
    case Err(e) => Err(e)
    case Ok(groups) => NextBatch(months, groups)
  }

  /**
   * A forecast whose last group was made in month `m` (1..12) of year `y`
   * is rolled to the month after it: all six new entries carry month
   * `m + 1`, or January of `y + 1` after December.
   */
  lemma NextBatchIsNextMonth(months: MonthList, groups: seq<MonthGroup>, i: nat)
    requires forall g :: g in groups ==> g.month in months
    requires NextBatch(months, groups).Ok? && i < 6
    ensures groups != [] && ParseInt(groups[|groups| - 1].year).Some?
    ensures var last := groups[|groups| - 1];
      var m := IndexOf(months, last.month).value + 1;
      NextBatch(months, groups).value[i].monthName == months[m % 12]
      && NextBatch(months, groups).value[i].year == IntToString(ParseInt(last.year).value + m / 12)
  {
    var last := groups[|groups| - 1];
    assert last in groups;
    var y, m := ParseInt(last.year).value, IndexOf(months, last.month).value + 1;
    assert NextBatch(months, groups).value == ForecastResponse(months, y, m);
    ForecastCycle(months, y, m, i);
  }

  /** The body of the task's loop for one forecast, up to the appends. */
  method RolloverFor(months: MonthList, data: seq<ForecastEntry>) returns (r: Result<seq<ForecastEntry>, KpiError>)
    ensures r == Rollover(months, data)
  {
    var grouped := GenerateGroupedData(months, data);
    if grouped.Err? {
      return Err(grouped.error);
    }
    if grouped.value == [] {
      return Err(IndexError);
    }
    var last := grouped.value[|grouped.value| - 1];
    assert last in grouped.value;
    var monthIndex := IndexOf(months, last.month);
    var year := ParseInt(last.year);
    if year.None? {
      return Err(ValueError);
    }
    assert NextBatch(months, grouped.value) == Ok(ForecastResponse(months, year.value, monthIndex.value + 1));
    r := GenerateNextMonthForecastResponse(months, year.value, monthIndex.value + 1);
  }

  /** Appends `entries` to the forecast one at a time, saving after each. */
  method AppendEntries(forecast: ForecastRow, entries: seq<ForecastEntry>)
    modifies forecast
    ensures forecast.forecastData == old(forecast.forecastData) + entries
  {
    for k := 0 to |entries|
      invariant forecast.forecastData == old(forecast.forecastData) + entries[..k]
    {
      assert entries[..k + 1] == entries[..k] + [entries[k]];
      forecast.forecastData := forecast.forecastData + [entries[k]];
    }
    assert entries[..|entries|] == entries;
  }

  /** One forecast's turn in the task: roll it over, or report the exception that ends the task. */
  method RollOne(months: MonthList, forecast: ForecastRow) returns (rolled: bool)
    modifies forecast
    ensures rolled == Rollover(months, old(forecast.forecastData)).Ok?
    ensures rolled ==> forecast.forecastData == old(forecast.forecastData) + Rollover(months, old(forecast.forecastData)).value
    ensures !rolled ==> forecast.forecastData == old(forecast.forecastData)
  {
    var response := RolloverFor(months, forecast.forecastData);
    if response.Err? {
      return false;
    }
    AppendEntries(forecast, response.value);
    return true;
  }

  /**
   * The task body: for each forecast in turn, the six generated entries are
   * appended after the existing ones. The first exception ends the whole
   * task silently; `processed` forecasts were rolled over, the one at
   * `processed` (if any) raised before any append, and the rest are
   * untouched.
   */
  method CreateEmptyForecastEntries(months: MonthList, forecasts: seq<ForecastRow>) returns (processed: nat)
    requires forall i, j :: 0 <= i < j < |forecasts| ==> forecasts[i] != forecasts[j]
    modifies set f | f in forecasts
    ensures processed <= |forecasts|
    ensures forall j :: 0 <= j < processed ==>
      Rollover(months, old(forecasts[j].forecastData)).Ok?
      && forecasts[j].forecastData == old(forecasts[j].forecastData) + Rollover(months, old(forecasts[j].forecastData)).value
    ensures processed < |forecasts| ==> Rollover(months, old(forecasts[processed].forecastData)).Err?
    ensures forall j :: processed <= j < |forecasts| ==> forecasts[j].forecastData == old(forecasts[j].forecastData)
  {
    processed := 0;
    while processed < |forecasts|
      invariant processed <= |forecasts|
      invariant forall j :: 0 <= j < processed ==>
        Rollover(months, old(forecasts[j].forecastData)).Ok?
        && forecasts[j].forecastData == old(forecasts[j].forecastData) + Rollover(months, old(forecasts[j].forecastData)).value
      invariant forall j :: processed <= j < |forecasts| ==> forecasts[j].forecastData == old(forecasts[j].forecastData)
    {
      var rolled := RollOne(months, forecasts[processed]);
      if !rolled {
        return;
      }
      processed := processed + 1;
    }
  }
}
