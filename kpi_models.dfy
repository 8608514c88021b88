/**
 * The KPI domain entities: the `KPI` row with its unit, frequency and logic-level
 * choices, its truthiness-guarded partial update, and the factories that build
 * `KPI` and `RelativeKPI` (the numerator/denominator link of a ratio KPI).
 */
module KpiModels {
  import opened Wrappers
  import Dates

  /** A UUID; only equality matters. */
  type Uuid = nat

  /** The value objects the factories take (`KPIID`, `RelativeKPIID`, `UserID`). */
  datatype KpiId = KpiId(value: Uuid)
  datatype RelativeKpiId = RelativeKpiId(value: Uuid)
  datatype UserId = UserId(value: Uuid)

  // Unit types.
  const Absolute: string := "absolute"
  const Percentage: string := "percentage"
  const EuroUnit: string := "euro/unit"
  const UnitTypes: seq<(string, string)> :=
    [(Absolute, "absolute"), (Percentage, "percentage"), (EuroUnit, "euro/unit")]

  // Frequency types.
  const Monthly: string := "monthly"
  const Weekly: string := "weekly"
  const Daily: string := "daily"
  const Yearly: string := "yearly"
  const Quarterly: string := "quarterly"
  const FrequencyTypes: seq<(string, string)> :=
    [(Monthly, "monthly"), (Weekly, "weekly"), (Daily, "daily"), (Yearly, "yearly"), (Quarterly, "quarterly")]

  // Logic levels.
  const Increased: string := "increased"
  const Decreased: string := "decreased"
  const LogicalLevel: seq<(string, string)> := [(Increased, "increased"), (Decreased, "decreased")]

  // Relative KPI levels.
  const Numerator: string := "numerator"
  const Denominator: string := "denominator"
  const KpiLevel: seq<(string, string)> := [(Numerator, "numerator"), (Denominator, "denominator")]

  /** The stored codes of a Django choices list. */
  function ChoiceCodes(choices: seq<(string, string)>): (codes: set<string>)
    ensures forall i :: 0 <= i < |choices| ==> choices[i].0 in codes
    ensures forall c :: c in codes ==> exists i :: 0 <= i < |choices| && choices[i].0 == c
  {
    set i | 0 <= i < |choices| :: choices[i].0
  }

  /** Every choices list stores each value under a label equal to it. */
  predicate LabelsAreCodes(choices: seq<(string, string)>)
  {
    forall i :: 0 <= i < |choices| ==> choices[i].0 == choices[i].1
  }

  lemma ChoiceSets()
    ensures ChoiceCodes(UnitTypes) == {"absolute", "percentage", "euro/unit"}
    ensures ChoiceCodes(FrequencyTypes) == {"monthly", "weekly", "daily", "yearly", "quarterly"}
    ensures ChoiceCodes(LogicalLevel) == {"increased", "decreased"}
    ensures ChoiceCodes(KpiLevel) == {"numerator", "denominator"}
    ensures LabelsAreCodes(UnitTypes) && LabelsAreCodes(FrequencyTypes)
    ensures LabelsAreCodes(LogicalLevel) && LabelsAreCodes(KpiLevel)
  {
    assert UnitTypes[0].0 == "absolute" && UnitTypes[1].0 == "percentage" && UnitTypes[2].0 == "euro/unit";
    assert FrequencyTypes[0].0 == "monthly" && FrequencyTypes[1].0 == "weekly" && FrequencyTypes[2].0 == "daily";
    assert FrequencyTypes[3].0 == "yearly" && FrequencyTypes[4].0 == "quarterly";
    assert LogicalLevel[0].0 == "increased" && LogicalLevel[1].0 == "decreased";
    assert KpiLevel[0].0 == "numerator" && KpiLevel[1].0 == "denominator";
  }

  /**
   * The field values of a `KPI` row. The character fields are nullable in the
   * model (`default=None`), so they are `Option<string>`.
   */
  datatype KpiFields = KpiFields(
    id: Uuid,
    name: Option<string>,
    reportingPersonId: Uuid,
    unitType: Option<string>,
    frequency: Option<string>,
    logicLevel: Option<string>,
    unit: Option<string>,
    planFrequency: Option<string>,
    userId: Uuid,
    isArchived: bool,
    archivedDate: Option<Dates.Date>)

  /**
   * The request data `update_entity` reads: a key may be absent, map to None,
   * or map to a string.
   */
  type UpdateData = map<string, Option<string>>

  /** `data.get(key, None)` is truthy: present, not None, not "". */
  predicate Supplies(data: UpdateData, key: string)
  {
    key in data && data[key].Some? && data[key].value != ""
  }

  /** The value a field holds after a guarded assignment from `data[key]`. */
  function Guarded(data: UpdateData, key: string, current: Option<string>): (v: Option<string>)
    ensures Supplies(data, key) ==> v == data[key] && v.Some? && v.value != ""
    ensures !Supplies(data, key) ==> v == current
  {
    if Supplies(data, key) then data[key] else current
  }

  /** The fields after `update_entity(data)`. */
  function Updated(f: KpiFields, data: UpdateData): KpiFields
  {
    f.(name := Guarded(data, "name", f.name),
       frequency := Guarded(data, "frequency", f.frequency),
       planFrequency := Guarded(data, "plan_frequency", f.planFrequency),
       unit := Guarded(data, "unit", f.unit),
       logicLevel := Guarded(data, "logic_level", f.logicLevel))
  }

  /** The fields `update_entity` may write. */
  predicate SameIdentity(a: KpiFields, b: KpiFields)
  {
    a.id == b.id && a.unitType == b.unitType && a.reportingPersonId == b.reportingPersonId
    && a.userId == b.userId && a.isArchived == b.isArchived && a.archivedDate == b.archivedDate
  }

  /** Only the five editable fields can change; unit type, owners, id and archive state never do. */
  lemma UpdateKeepsIdentity(f: KpiFields, data: UpdateData)
    ensures SameIdentity(f, Updated(f, data))
    ensures Updated(f, data).name == f.name <== !Supplies(data, "name")
  {
  }

  /** Applying the same data twice is the same as applying it once. */
  lemma UpdateIdempotent(f: KpiFields, data: UpdateData)
    ensures Updated(Updated(f, data), data) == Updated(f, data)
  {
  }

  /** The truthy entries of `later` override those of `earlier`. */
  function MergeData(earlier: UpdateData, later: UpdateData): (m: UpdateData)
    ensures forall k :: Supplies(m, k) <==> Supplies(earlier, k) || Supplies(later, k)
  {
    map k | k in earlier.Keys + later.Keys ::
      if Supplies(later, k) || k !in earlier then later[k] else earlier[k]
  }

  /** Two successive updates equal one update with the merged data. */
  lemma UpdateComposes(f: KpiFields, d1: UpdateData, d2: UpdateData)
    ensures Updated(Updated(f, d1), d2) == Updated(f, MergeData(d1, d2))
  {
  }

  /** A `KPI` row, whose fields `update_entity` reassigns in place. */
  class Kpi {
    var id: Uuid
    var name: Option<string>
    var reportingPersonId: Uuid
    var unitType: Option<string>
    var frequency: Option<string>
    var logicLevel: Option<string>
    var unit: Option<string>
    var planFrequency: Option<string>
    var userId: Uuid
    var isArchived: bool
    var archivedDate: Option<Dates.Date>

    function Fields(): KpiFields
      reads this
    {
      KpiFields(id, name, reportingPersonId, unitType, frequency, logicLevel, unit,
                planFrequency, userId, isArchived, archivedDate)
    }

    /** `KPI(...)`: the model constructor; `is_archived` defaults to False, `archived_date` to None. */
    constructor (id: Uuid, name: Option<string>, unitType: Option<string>, frequency: Option<string>,
                 logicLevel: Option<string>, unit: Option<string>, reportingPersonId: Uuid,
                 planFrequency: Option<string>, userId: Uuid)
      ensures Fields() == KpiFields(id, name, reportingPersonId, unitType, frequency, logicLevel,
                                    unit, planFrequency, userId, false, None)
    {
      this.id := id;
      this.name := name;
      this.reportingPersonId := reportingPersonId;
      this.unitType := unitType;
      this.frequency := frequency;
      this.logicLevel := logicLevel;
      this.unit := unit;
      this.planFrequency := planFrequency;
      this.userId := userId;
      this.isArchived := false;
      this.archivedDate := None;
    }

    /** `update_entity`: each of the five editable fields is overwritten only by a truthy value. */
    method UpdateEntity(data: UpdateData)
      modifies this
      ensures Fields() == Updated(old(Fields()), data)
    {
      if Supplies(data, "name") {
        name := data["name"];
      }
      if Supplies(data, "frequency") {
        frequency := data["frequency"];
      }
      if Supplies(data, "plan_frequency") {
        planFrequency := data["plan_frequency"];
      }
      if Supplies(data, "unit") {
        unit := data["unit"];
      }
      if Supplies(data, "logic_level") {
        logicLevel := data["logic_level"];
      }
    }
  }

  /** `KPIFactory.build_entity`: every argument lands in its own field, value objects unwrapped. */
  method BuildEntity(id: KpiId, name: string, unitType: string, frequency: string, logicLevel: string,
                     reportingPersonId: UserId, userId: UserId, unit: Option<string>,
                     planFrequency: Option<string>)
    returns (k: Kpi)
    ensures fresh(k)
    ensures k.Fields() == KpiFields(id.value, Some(name), reportingPersonId.value, Some(unitType),
                                    Some(frequency), Some(logicLevel), unit, planFrequency,
                                    userId.value, false, None)
  {
    k := new Kpi(id.value, Some(name), Some(unitType), Some(frequency), Some(logicLevel), unit,
                 reportingPersonId.value, planFrequency, userId.value);
  }

  /**
   * `KPIFactory.build_entity_with_id`: `build_entity` with a freshly generated id,
   * here passed in as `freshId` (the `uuid.uuid4()` draw).
   */
  method BuildEntityWithId(freshId: Uuid, name: string, unitType: string, frequency: string,
                           logicLevel: string, reportingPersonId: UserId, userId: UserId,
                           unit: Option<string>, planFrequency: Option<string>)
    returns (k: Kpi)
    ensures fresh(k)
    ensures k.Fields() == KpiFields(freshId, Some(name), reportingPersonId.value, Some(unitType),
                                    Some(frequency), Some(logicLevel), unit, planFrequency,
                                    userId.value, false, None)
  {
    k := BuildEntity(KpiId(freshId), name, unitType, frequency, logicLevel, reportingPersonId,
                     userId, unit, planFrequency);
  }

  /** A `RelativeKPI` row: links ratio KPI `relativeKpiId` to one of its two absolute KPIs. */
  datatype RelativeKpi = RelativeKpi(id: Uuid, relativeKpiId: Uuid, absoluteKpiId: Uuid, level: string)

  /** `RelativeKPIFactory.build_entity`: copies the ids (unwrapped) and the level; the level is not checked. */
  function BuildRelativeEntity(id: RelativeKpiId, relativeKpiId: KpiId, absoluteKpiId: KpiId, level: string)
    : (r: RelativeKpi)
    ensures r.id == id.value && r.relativeKpiId == relativeKpiId.value
    ensures r.absoluteKpiId == absoluteKpiId.value && r.level == level
  {
    RelativeKpi(id.value, relativeKpiId.value, absoluteKpiId.value, level)
  }

  /** `RelativeKPIFactory.build_entity_with_id`, with the drawn uuid passed in. */
  function BuildRelativeEntityWithId(freshId: Uuid, relativeKpiId: KpiId, absoluteKpiId: KpiId, level: string)
    : (r: RelativeKpi)
    ensures r.id == freshId
    ensures r.relativeKpiId == relativeKpiId.value && r.absoluteKpiId == absoluteKpiId.value && r.level == level
  {
    BuildRelativeEntity(RelativeKpiId(freshId), relativeKpiId, absoluteKpiId, level)
  }

  /** The factory accepts a level outside `KPI_LEVEL`, and stores it. */
  lemma RelativeLevelUnchecked(id: RelativeKpiId, rel: KpiId, abs: KpiId)
    ensures "ratio" !in ChoiceCodes(KpiLevel)
    ensures BuildRelativeEntity(id, rel, abs, "ratio").level == "ratio"
  {
    ChoiceSets();
  }
}
