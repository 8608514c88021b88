/**
 * The life-cycle rules of `KPIAppServices`: which KPI creations are accepted
 * and what they write, how a frequency edit is reconciled and stored, the
 * pre-check of a KPI edit, and who may soft-delete or archive a KPI.
 */
module KpiLifecycle {
  import opened Wrappers
  import opened JsonData
  import opened KpiErrors
  import opened KpiModels
  import opened KpiFrequency

  /** One element of the request's `absolute_kpis`. */
  datatype AbsoluteKpiRef = AbsoluteKpiRef(absoluteKpiId: Uuid, level: string)

  /** The request dict of `create_kpi_with_frequency_from_dict`. */
  datatype CreateRequest = CreateRequest(
    name: Option<string>,
    reportingPersonId: Uuid,
    unitType: Option<string>,
    frequency: Option<string>,
    logicLevel: Option<string>,
    unit: Option<string>,
    absoluteKpis: seq<AbsoluteKpiRef>,
    kpiFrequencies: Json,
    planFrequency: Option<string>,
    calenderManagerId: Uuid,
    year: int)

  /**
   * What the user and permission services report for a creation: the ids of
   * the KPIs visible to the (possibly CEO-substituted) user, whether the
   * responsible person exists and shares the user's company, and the user's id.
   */
  datatype CreateEnv = CreateEnv(visibleKpiIds: set<Uuid>, responsibleExists: bool, sameCompany: bool, userId: Uuid)

  /**
   * The arguments of `CalenderManagerAppServices.convert_data_with_target_values`.
   * Its `initial_data` holds, for every frequency type, the stored series
   * (`stored`), except that the entry for `editedFrequency` is the request's
   * list (`edited`).
   */
  datatype ReconcileCall = ReconcileCall(
    reportingFrequency: Option<string>,
    planFrequency: Option<string>,
    year: int,
    isNewData: bool,
    stored: Series,
    editedFrequency: Option<string>,
    edited: Json,
    valueType: string)

  /** The reconciler: whether the data validated, and the five converted series. */
  type Reconciler = ReconcileCall -> (bool, Series)

  const NoSeries: Series := Series([], [], [], [], [])

  predicate IsAbsolute(unitType: Option<string>)
  {
    unitType == Some(Absolute)
  }

  /** A truthy optional string (a `unit` or a `plan_frequency`): present and not empty. */
  predicate NonEmpty(s: Option<string>)
  {
    s.Some? && s.value != ""
  }

  /** The distinct requested absolute KPIs the user can see (`absolute_kpis_queryset.count()`). */
  function MatchedIds(req: CreateRequest, env: CreateEnv): set<Uuid>
  {
    set i | 0 <= i < |req.absoluteKpis| && req.absoluteKpis[i].absoluteKpiId in env.visibleKpiIds
      :: req.absoluteKpis[i].absoluteKpiId
  }

  /**
   * Every check of the creation passes: the unit is given exactly for an
   * absolute KPI, the requested absolute KPIs fit the unit type, the
   * responsible person exists in the user's company, and an absolute KPI
   * brings frequency data that validates.
   */
  predicate CreateAccepted(req: CreateRequest, env: CreateEnv, reconcile: Reconciler)
  {
    && IsAbsolute(req.unitType) == NonEmpty(req.unit)
    && (IsAbsolute(req.unitType) ==>
          |MatchedIds(req, env)| == 0 && Truthy(req.kpiFrequencies) && reconcile(CreateCall(req)).0)
    && (!IsAbsolute(req.unitType) ==> |req.absoluteKpis| > 0 && |MatchedIds(req, env)| == 2)
    && env.responsibleExists && env.sameCompany
  }

  /** The rows a successful creation writes. */
  datatype Created = Created(kpi: KpiFields, isAbsolute: bool, links: seq<RelativeKpi>, frequencyRow: Option<Series>)

  /** The reconciler call of a creation: the request's list as the plan-frequency series, everything else empty. */
  function CreateCall(req: CreateRequest): ReconcileCall
  {
    ReconcileCall(None, req.planFrequency, req.year, true, NoSeries, req.planFrequency, req.kpiFrequencies, "target")
  }

  /**
   * `create_kpi_with_frequency_from_dict`, with the uuids it draws supplied by
   * `freshId` (0 for the KPI, 1 + i for the i-th link). The first five checks
   * raise their own exceptions; anything raised once the transaction has
   * started comes out wrapped in `KPIsException`.
   */
  function CreateKpiWithFrequency(req: CreateRequest, env: CreateEnv, freshId: nat -> Uuid, reconcile: Reconciler)
    : (r: Result<Created, KpiError>)
    ensures r.Ok? <==> CreateAccepted(req, env, reconcile)
    ensures r.Ok? ==> (IsAbsolute(req.unitType) <==> NonEmpty(req.unit))
    ensures r.Ok? ==> r.value.isAbsolute == IsAbsolute(req.unitType)
    ensures r.Ok? ==> env.responsibleExists && env.sameCompany
    ensures r.Ok? ==> r.value.kpi.unitType == req.unitType && r.value.kpi.unit == req.unit
                      && r.value.kpi.userId == env.userId && r.value.kpi.id == freshId(0)
    ensures r.Ok? && IsAbsolute(req.unitType) ==>
      |MatchedIds(req, env)| == 0 && Truthy(req.kpiFrequencies) && reconcile(CreateCall(req)).0
      && r.value.frequencyRow == Some(reconcile(CreateCall(req)).1) && r.value.links == []
    ensures r.Ok? && !IsAbsolute(req.unitType) ==>
      |req.absoluteKpis| > 0 && |MatchedIds(req, env)| == 2 && r.value.frequencyRow.None?
      && |r.value.links| == |req.absoluteKpis|
      && forall i :: 0 <= i < |req.absoluteKpis| ==>
           r.value.links[i] == RelativeKpi(freshId(1 + i), freshId(0), req.absoluteKpis[i].absoluteKpiId,
                                           req.absoluteKpis[i].level)
  {
    var absolute := IsAbsolute(req.unitType);
    if !((absolute && NonEmpty(req.unit)) || (!absolute && !NonEmpty(req.unit))) then Err(UnitNotProvided)
    else if !absolute && |req.absoluteKpis| == 0 then Err(AbsoluteKpisNotProvided)
    else if absolute && |MatchedIds(req, env)| > 0 then Err(AbsoluteKpisNotAllowed)
    else if !absolute && |MatchedIds(req, env)| != 2 then Err(AbsoluteKpisNotAllowed)
    else if !env.responsibleExists then Err(ResponsiblePersonNotFound)
    else if !env.sameCompany then Err(NotFromSameCompany)
    else
      var kpi := KpiFields(freshId(0), req.name, req.reportingPersonId, req.unitType, req.frequency,
                           req.logicLevel, req.unit, req.planFrequency, env.userId, false, None);
      if !absolute then
        var links := seq(|req.absoluteKpis|, i requires 0 <= i < |req.absoluteKpis| =>
          BuildRelativeEntityWithId(freshId(1 + i), KpiId(freshId(0)),
                                    KpiId(req.absoluteKpis[i].absoluteKpiId), req.absoluteKpis[i].level));
        Ok(Created(kpi, false, links, None))
      else if !Truthy(req.kpiFrequencies) then Err(KpisException(FrequencyNotProvided))
      else
        var (validated, converted) := reconcile(CreateCall(req));
        if !validated then Err(KpisException(FrequencyDataNotValidated))
        else Ok(Created(kpi, true, [], Some(converted)))
  }

  /** Each rejection the creation rules make, with the exception it raises. */
  lemma CreateRejections(req: CreateRequest, env: CreateEnv, freshId: nat -> Uuid, reconcile: Reconciler)
    ensures IsAbsolute(req.unitType) != NonEmpty(req.unit) ==>
      CreateKpiWithFrequency(req, env, freshId, reconcile) == Err(UnitNotProvided)
    ensures IsAbsolute(req.unitType) == NonEmpty(req.unit) && !IsAbsolute(req.unitType) && |req.absoluteKpis| == 0 ==>
      CreateKpiWithFrequency(req, env, freshId, reconcile) == Err(AbsoluteKpisNotProvided)
    ensures IsAbsolute(req.unitType) && NonEmpty(req.unit) && |MatchedIds(req, env)| > 0 ==>
      CreateKpiWithFrequency(req, env, freshId, reconcile) == Err(AbsoluteKpisNotAllowed)
    ensures !IsAbsolute(req.unitType) && !NonEmpty(req.unit) && |req.absoluteKpis| > 0
            && |MatchedIds(req, env)| != 2 ==>
      CreateKpiWithFrequency(req, env, freshId, reconcile) == Err(AbsoluteKpisNotAllowed)
    ensures IsAbsolute(req.unitType) && NonEmpty(req.unit) && |MatchedIds(req, env)| == 0
            && env.responsibleExists && env.sameCompany && !Truthy(req.kpiFrequencies) ==>
      CreateKpiWithFrequency(req, env, freshId, reconcile) == Err(KpisException(FrequencyNotProvided))
    ensures IsAbsolute(req.unitType) == NonEmpty(req.unit)
            && (IsAbsolute(req.unitType) ==> |MatchedIds(req, env)| == 0)
            && (!IsAbsolute(req.unitType) ==> |req.absoluteKpis| > 0 && |MatchedIds(req, env)| == 2) ==>
      (!env.responsibleExists ==>
         CreateKpiWithFrequency(req, env, freshId, reconcile) == Err(ResponsiblePersonNotFound))
      && (env.responsibleExists && !env.sameCompany ==>
            CreateKpiWithFrequency(req, env, freshId, reconcile) == Err(NotFromSameCompany))
    ensures IsAbsolute(req.unitType) && NonEmpty(req.unit) && |MatchedIds(req, env)| == 0
            && env.responsibleExists && env.sameCompany && Truthy(req.kpiFrequencies)
            && !reconcile(CreateCall(req)).0 ==>
      CreateKpiWithFrequency(req, env, freshId, reconcile) == Err(KpisException(FrequencyDataNotValidated))
  {
  }

  /** A rejected reconciliation writes no KPI at all: the creation fails. */
  lemma CreateNeedsValidation(req: CreateRequest, env: CreateEnv, freshId: nat -> Uuid, reconcile: Reconciler)
    requires IsAbsolute(req.unitType) && !reconcile(CreateCall(req)).0
    ensures CreateKpiWithFrequency(req, env, freshId, reconcile).Err?
  {
  }

  /** The reconciler call of a frequency edit: the stored series, with the reporting frequency's replaced by the request's list. */
  function UpdateCall(reporting: Option<string>, plan: Option<string>, year: int, stored: Series, edited: Json,
                      valueType: string): ReconcileCall
  {
    ReconcileCall(reporting, plan, year, false, stored, reporting, edited, valueType)
  }

  /** `kpi.frequency if not filter_frequency else filter_frequency`. */
  function ReportingFrequency(kpiFrequency: Option<string>, filterFrequency: Option<string>): (f: Option<string>)
    ensures (filterFrequency.Some? && filterFrequency.value != "") ==> f == filterFrequency
    ensures !(filterFrequency.Some? && filterFrequency.value != "") ==> f == kpiFrequency
  {
    if filterFrequency.Some? && filterFrequency.value != "" then filterFrequency else kpiFrequency
  }

  /**
   * `update_kpi_frequency_values`: `kpi` is the visible KPI with the given id
   * (if any), `rows` its active unarchived frequency rows. The year is the
   * `name` of the first yearly record. The first row is overwritten with the
   * reconciled series only if the reconciler validates them.
   */
  method UpdateKpiFrequencyValues(kpi: Option<KpiFields>, rows: seq<FrequencyRow>, kpiFrequencies: Json,
                                  filterFrequency: Option<string>, valueType: string, reconcile: Reconciler)
    returns (r: Result<bool, KpiError>)
    modifies if |rows| > 0 then {rows[0]} else {}
    ensures kpi.None? ==> r == Err(AbsoluteKpiNotFound)
    ensures kpi.Some? && |rows| == 0 ==> r == Err(FrequencyNotFound)
    ensures kpi.Some? && |rows| > 0 && |old(rows[0].series.yearly)| == 0 ==> r == Err(IndexError)
    ensures r.Err? && |rows| > 0 ==> rows[0].series == old(rows[0].series)
    ensures kpi.Some? && |rows| > 0 && |old(rows[0].series.yearly)| > 0 ==>
      var call := UpdateCall(ReportingFrequency(kpi.value.frequency, filterFrequency), kpi.value.planFrequency,
                             old(rows[0].series.yearly[0].period), old(rows[0].series), kpiFrequencies, valueType);
      (reconcile(call).0 ==> r == Ok(true) && rows[0].series == reconcile(call).1)
      && (!reconcile(call).0 ==> r == Err(FrequencyDataNotValidated))
  {
    if kpi.None? {
      return Err(AbsoluteKpiNotFound);
    }
    var reportingFrequency := ReportingFrequency(kpi.value.frequency, filterFrequency);
    var planFrequency := kpi.value.planFrequency;
    if |rows| == 0 {
      return Err(FrequencyNotFound);
    }
    var kpiFrequencyData := rows[0];
    if |kpiFrequencyData.series.yearly| == 0 {
      return Err(IndexError);
    }
    var year := kpiFrequencyData.series.yearly[0].period;
    var call := UpdateCall(reportingFrequency, planFrequency, year, kpiFrequencyData.series, kpiFrequencies, valueType);
    var (validated, convertedData) := reconcile(call);
    if !validated {
      return Err(FrequencyDataNotValidated);
    }
    kpiFrequencyData.series := convertedData;
    r := Ok(true);
  }

  /** The keys of the edit request `update_kpi_from_dict` checks before writing. */
  datatype UpdateRequest = UpdateRequest(planFrequency: Option<string>, kpiFrequencies: Json)

  /**
   * The checks `update_kpi_from_dict` makes before its transaction: the KPI
   * must be visible, and an absolute KPI given a plan frequency must also be
   * given frequency data.
   */
  function UpdateKpiPrecheck(kpi: Option<KpiFields>, req: UpdateRequest): (r: Result<KpiFields, KpiError>)
    ensures kpi.None? <==> r == Err(KpiNotExists)
    ensures r == Err(FrequencyNotFound) <==>
      kpi.Some? && IsAbsolute(kpi.value.unitType) && NonEmpty(req.planFrequency) && !Truthy(req.kpiFrequencies)
    ensures r.Ok? ==> kpi == Some(r.value)
    ensures kpi.Some? && !(IsAbsolute(kpi.value.unitType) && NonEmpty(req.planFrequency) && !Truthy(req.kpiFrequencies)) ==>
      r == Ok(kpi.value)
  {
    if kpi.None? then Err(KpiNotExists)
    else if IsAbsolute(kpi.value.unitType) && NonEmpty(req.planFrequency) && !Truthy(req.kpiFrequencies) then
      Err(FrequencyNotFound)
    else Ok(kpi.value)
  }

  /** The role `get_user_role_ceo_or_c_level_with_extended_user` reports. */
  datatype Role = Role(isCeo: bool, isCLevel: bool)

  /** One element of the user's direct-report `kpis` permissions. */
  datatype PermissionEntry = PermissionEntry(id: Uuid, permissions: map<string, Json>)

  /** `instance["permissions"].get("w", False) == True`. */
  predicate CanWrite(e: PermissionEntry)
  {
    "w" in e.permissions && EqualsTrue(e.permissions["w"])
  }

  /** The ids of the entries with write permission, in order. */
  function WritableIds(entries: seq<PermissionEntry>): (ids: seq<Uuid>)
    ensures forall x :: x in ids <==> exists i :: 0 <= i < |entries| && CanWrite(entries[i]) && entries[i].id == x
  {
    if entries == [] then []
    else
      var rest := WritableIds(entries[..|entries| - 1]);
      var e := entries[|entries| - 1];
      if CanWrite(e) then rest + [e.id] else rest
  }

  /** What a delete or archive request does to the selected KPIs and their frequency rows. */
  datatype Effect = Unchanged | SoftDeleted | ArchivedAs(archived: bool)

  /**
   * `delete_kpi`. `kpiFound` says an active KPI with the id exists,
   * `frequencyFound` that an active frequency row for it exists; without both
   * the request fails. A CEO soft-deletes; a C-level user soft-deletes only a
   * KPI they may write; anybody else changes nothing.
   */
  function DeleteKpi(kpiId: Uuid, kpiFound: bool, frequencyFound: bool, role: Role, reports: seq<PermissionEntry>)
    : (r: Result<Effect, KpiError>)
    ensures r.Err? <==> !(kpiFound && frequencyFound)
    ensures r.Err? ==> r.error == KpiNotExists
    ensures r == Ok(SoftDeleted) <==>
      kpiFound && frequencyFound && (role.isCeo || (role.isCLevel && kpiId in WritableIds(reports)))
    ensures r.Ok? ==> r.value != ArchivedAs(true) && r.value != ArchivedAs(false)
  {
    if !(kpiFound && frequencyFound) then Err(KpiNotExists)
    else if role.isCeo then Ok(SoftDeleted)
    else if role.isCLevel && kpiId in WritableIds(reports) then Ok(SoftDeleted)
    else Ok(Unchanged)
  }

  /**
   * A ratio KPI never gets a frequency row, so deleting it always fails with
   * `KPINotExists`, even for a CEO.
   */
  lemma DeleteRatioKpiFails(req: CreateRequest, env: CreateEnv, freshId: nat -> Uuid, reconcile: Reconciler,
                            role: Role, reports: seq<PermissionEntry>)
    requires CreateKpiWithFrequency(req, env, freshId, reconcile).Ok?
    requires !IsAbsolute(req.unitType)
    ensures var created := CreateKpiWithFrequency(req, env, freshId, reconcile).value;
      DeleteKpi(created.kpi.id, true, created.frequencyRow.Some?, role, reports) == Err(KpiNotExists)
  {
  }

  /**
   * `delete_kpi` as evidently intended: the frequency rows are soft-deleted
   * when there are any, but their absence does not block deleting the KPI.
   */
  function DeleteKpiIntended(kpiId: Uuid, kpiFound: bool, role: Role, reports: seq<PermissionEntry>)
    : (r: Result<Effect, KpiError>)
    ensures r.Err? <==> !kpiFound
    ensures r == Ok(SoftDeleted) <==> kpiFound && (role.isCeo || (role.isCLevel && kpiId in WritableIds(reports)))
  {
    if !kpiFound then Err(KpiNotExists)
    else if role.isCeo then Ok(SoftDeleted)
    else if role.isCLevel && kpiId in WritableIds(reports) then Ok(SoftDeleted)
    else Ok(Unchanged)
  }

  /** The intended rule lets a CEO delete a freshly created ratio KPI, and agrees with the source wherever a frequency row exists. */
  lemma DeleteIntendedAgrees(req: CreateRequest, env: CreateEnv, freshId: nat -> Uuid, reconcile: Reconciler,
                             kpiId: Uuid, kpiFound: bool, role: Role, reports: seq<PermissionEntry>)
    requires CreateKpiWithFrequency(req, env, freshId, reconcile).Ok?
    ensures var created := CreateKpiWithFrequency(req, env, freshId, reconcile).value;
      DeleteKpiIntended(created.kpi.id, true, Role(true, false), reports) == Ok(SoftDeleted)
    ensures DeleteKpiIntended(kpiId, kpiFound, role, reports) == DeleteKpi(kpiId, kpiFound, true, role, reports)
  {
  }

  /** `all(element in kpi_list for element in writable)`: every writable KPI is in the request. */
  predicate CoversWritable(kpiList: seq<Uuid>, reports: seq<PermissionEntry>)
  {
    forall x :: x in WritableIds(reports) ==> x in kpiList
  }

  /**
   * `archive_kpi`: `kpisFound` / `frequenciesFound` say the listed KPIs and
   * frequency rows in the opposite archive state exist. A CEO archives (or
   * unarchives). The C-level branch runs only when the request covers every
   * KPI the user may write, and then updates a field `is_archive` that the
   * models do not have, which Django rejects.
   */
  function ArchiveKpi(kpiList: seq<Uuid>, kpisFound: bool, frequenciesFound: bool, role: Role,
                      reports: seq<PermissionEntry>, archive: bool)
    : (r: Result<Effect, KpiError>)
    ensures !(kpisFound && frequenciesFound) ==> r == Err(KpiNotExists)
    ensures kpisFound && frequenciesFound && role.isCeo ==> r == Ok(ArchivedAs(archive))
    ensures kpisFound && frequenciesFound && !role.isCeo && role.isCLevel ==>
      (CoversWritable(kpiList, reports) <==> r == Err(UnknownField("is_archive")))
    ensures r.Ok? && !role.isCeo ==> r == Ok(Unchanged)
    ensures kpisFound && frequenciesFound && !role.isCeo && !(role.isCLevel && CoversWritable(kpiList, reports)) ==>
      r == Ok(Unchanged)
  {
    if !(kpisFound && frequenciesFound) then Err(KpiNotExists)
    else if role.isCeo then Ok(ArchivedAs(archive))
    else if role.isCLevel then
      if CoversWritable(kpiList, reports) then Err(UnknownField("is_archive")) else Ok(Unchanged)
    else Ok(Unchanged)
  }

  /** A C-level user who is not CEO can never archive anything. */
  lemma CLevelNeverArchives(kpiList: seq<Uuid>, kpisFound: bool, frequenciesFound: bool,
                            reports: seq<PermissionEntry>, archive: bool)
    ensures ArchiveKpi(kpiList, kpisFound, frequenciesFound, Role(false, true), reports, archive).Ok? ==>
      ArchiveKpi(kpiList, kpisFound, frequenciesFound, Role(false, true), reports, archive).value == Unchanged
    ensures kpisFound && frequenciesFound && |WritableIds(reports)| == 0 ==>
      ArchiveKpi(kpiList, kpisFound, frequenciesFound, Role(false, true), reports, archive).Err?
  {
  }

  /** `archive_kpi` with the C-level branch updating `is_archived`, as the CEO branch does. */
  function ArchiveKpiIntended(kpiList: seq<Uuid>, kpisFound: bool, frequenciesFound: bool, role: Role,
                              reports: seq<PermissionEntry>, archive: bool)
    : (r: Result<Effect, KpiError>)
    ensures r.Err? <==> !(kpisFound && frequenciesFound)
    ensures r == Ok(ArchivedAs(archive)) <==>
      kpisFound && frequenciesFound && (role.isCeo || (role.isCLevel && CoversWritable(kpiList, reports)))
  {
    if !(kpisFound && frequenciesFound) then Err(KpiNotExists)
    else if role.isCeo || (role.isCLevel && CoversWritable(kpiList, reports)) then Ok(ArchivedAs(archive))
    else Ok(Unchanged)
  }
}
