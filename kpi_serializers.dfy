/**
 * The checks and output shaping of the KPI serializers: the field-level
 * validators of the create serializer, the "children"/"parent" shaping of
 * calculation-based KPIs, and the `value_type` choices of the two update
 * serializers. A serializer error is the message of its ValidationError.
 */
module KpiSerializers {
  import opened Wrappers
  import opened JsonData
  import KpiModels

  /** `initial_data.get("unit_type")`: None when the request has no such key. */
  function UnitTypeOf(initialData: map<string, Json>): Json
  {
    if "unit_type" in initialData then initialData["unit_type"] else JNull
  }

  /** The request is for an absolute KPI. */
  predicate IsAbsoluteRequest(initialData: map<string, Json>)
  {
    UnitTypeOf(initialData) == JStr(KpiModels.Absolute)
  }

  /**
   * `KPICreateSerializer.validate_year`: the year check against the current
   * year is disabled, so every value passes unchanged whatever the unit type.
   */
  function ValidateYear(initialData: map<string, Json>, value: Json): (r: Result<Json, string>)
    ensures r.Ok? && r.value == value
  {
    Ok(value)
  }

  /** The shared rule of the two validators below: `field` may be None only for a non-absolute KPI. */
  function RequiredForAbsolute(field: string, initialData: map<string, Json>, value: Json): (r: Result<Json, string>)
    ensures r.Err? <==> IsAbsoluteRequest(initialData) && value == JNull
    ensures r.Ok? ==> r.value == value
    ensures r.Err? ==> r.error == field + " is required for " + KpiModels.Absolute + " KPI."
  {
    if IsAbsoluteRequest(initialData) && value == JNull then
      Err(field + " is required for " + KpiModels.Absolute + " KPI.")
    else
      Ok(value)
  }

  /** `KPICreateSerializer.validate_calender_manager_id`. */
  function ValidateCalenderManagerId(initialData: map<string, Json>, value: Json): (r: Result<Json, string>)
    ensures r.Err? <==> IsAbsoluteRequest(initialData) && value == JNull
    ensures r.Ok? ==> r.value == value
    ensures r.Err? ==> r.error == "calender_manager_id is required for " + KpiModels.Absolute + " KPI."
  {
    RequiredForAbsolute("calender_manager_id", initialData, value)
  }

  /** `KPICreateSerializer.validate_plan_frequency`. */
  function ValidatePlanFrequency(initialData: map<string, Json>, value: Json): (r: Result<Json, string>)
    ensures r.Err? <==> IsAbsoluteRequest(initialData) && value == JNull
    ensures r.Ok? ==> r.value == value
    ensures r.Err? ==> r.error == "plan_frequency is required for " + KpiModels.Absolute + " KPI."
  {
    RequiredForAbsolute("plan_frequency", initialData, value)
  }

  /**
   * `CalculationBasedKPISerializer.get_children`: the serialized related
   * KPIs, or False when there are none. `serialize` stands for
   * `AbsoluteKPIRetrieveSerializer(...).data` of one related KPI.
   */
  function Children<T>(related: seq<T>, serialize: T -> Json): (r: Json)
    ensures r == JBool(false) <==> related == []
    ensures related != [] ==>
      r.JList? && |r.items| == |related| && forall i :: 0 <= i < |related| ==> r.items[i] == serialize(related[i])
  {
    if related != [] then JList(seq(|related|, i requires 0 <= i < |related| => serialize(related[i])))
    else JBool(false)
  }

  /**
   * `CalculationBasedKPISerializer.to_representation`, applied to the dict
   * the parent serializer produced: an absolute KPI loses its "children"
   * key (a KeyError when it has none), any other gets `level = "parent"`.
   */
  method ToRepresentation(base: map<string, Json>) returns (r: Result<map<string, Json>, string>)
    ensures r.Err? <==> IsAbsoluteKpiRepresentation(base) && "children" !in base
    ensures r.Ok? && IsAbsoluteKpiRepresentation(base) ==>
      r.value.Keys == base.Keys - {"children"}
      && forall k :: k in r.value ==> r.value[k] == base[k]
    ensures r.Ok? && !IsAbsoluteKpiRepresentation(base) ==>
      r.value.Keys == base.Keys + {"level"} && r.value["level"] == JStr("parent")
      && forall k :: k in base && k != "level" ==> r.value[k] == base[k]
  {
    var representation := base;
    if IsAbsoluteKpiRepresentation(representation) {
      if "children" !in representation {
        return Err("KeyError: children");
      }
      representation := representation - {"children"};
    } else {
      representation := representation["level" := JStr("parent")];
    }
    return Ok(representation);
  }

  /** `representation.get("unit_type") == KPI.ABSOLUTE`. */
  predicate IsAbsoluteKpiRepresentation(representation: map<string, Json>)
  {
    "unit_type" in representation && representation["unit_type"] == JStr(KpiModels.Absolute)
  }

  /** `KPIfrequencyUpdateSerializer.VALUE_TYPE_CHOICES`. */
  const FrequencyUpdateValueTypes: seq<(string, string)> := [("actual", "actual"), ("target", "target")]

  /** `KPIUpdateSerializer.VALUE_TYPE_CHOICES`. */
  const KpiUpdateValueTypes: seq<(string, string)> := [("target", "target")]

  /** A `ChoiceField` over `choices`: the value when it is one of the codes, else DRF's message. */
  function ValidateChoice(choices: seq<(string, string)>, value: string): (r: Result<string, string>)
    ensures r.Ok? <==> exists i :: 0 <= i < |choices| && choices[i].0 == value
    ensures r.Ok? ==> r.value == value
  {
    if value in KpiModels.ChoiceCodes(choices) then Ok(value)
    else Err("\"" + value + "\" is not a valid choice.")
  }

  /** The frequency update takes "actual" or "target"; the KPI update only "target". */
  lemma ValueTypeChoices(value: string)
    ensures ValidateChoice(FrequencyUpdateValueTypes, value).Ok? <==> value == "actual" || value == "target"
    ensures ValidateChoice(KpiUpdateValueTypes, value).Ok? <==> value == "target"
  {
    assert FrequencyUpdateValueTypes[0].0 == "actual" && FrequencyUpdateValueTypes[1].0 == "target";
    assert KpiUpdateValueTypes[0].0 == "target";
  }
}
