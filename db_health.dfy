/** The server health checks: parameter settings, autovacuum state per table,
    partitioning candidates, bloat and index usage. Each check reads rows that the
    caller fetched from the server's statistics and catalog views and turns them
    into ordered advice. */
module DbHealth {
  import opened Common
  import opened Text

  datatype Priority = High | Medium | Low

  const MiB: int := 1024 * 1024
  const GiB: int := 1024 * 1024 * 1024

  /** A byte count in mebibytes. */
  function SizeMb(bytes: int): real {
    bytes as real / MiB as real
  }

  /** `part / total`, or 0 when there are no tuples at all, so that nothing is
      ever divided by zero. */
  function ShareOf(part: int, total: int): (r: real)
    ensures total <= 0 ==> r == 0.0
    ensures 0 <= part <= total ==> 0.0 <= r <= 1.0
  {
    if total > 0 then part as real / total as real else 0.0
  }

  // ---------------------------------------------------------------- settings

  /** One row of the settings view: name, value as text, unit (NULL for a
      setting without one) and context. */
  datatype SettingRow = SettingRow(name: string, setting: string, unit: Option<string>, context: string)

  /** What the settings dictionary keeps for one name. */
  datatype SettingValue = SettingValue(setting: string, unit: Option<string>, context: string)

  type Params = map<string, SettingValue>

  function ValueOf(r: SettingRow): SettingValue {
    SettingValue(r.setting, r.unit, r.context)
  }

  /** The settings dictionary built from the rows, a later row overriding an
      earlier one of the same name. */
  function ParamsOf(rows: seq<SettingRow>): Params {
    if rows == [] then map[]
    else ParamsOf(rows[..|rows| - 1])[rows[|rows| - 1].name := ValueOf(rows[|rows| - 1])]
  }

  /** Every name read has an entry and nothing else does. */
  lemma {:induction false} ParamsOfKeys(rows: seq<SettingRow>)
    ensures forall k :: k in ParamsOf(rows) <==> exists i :: 0 <= i < |rows| && rows[i].name == k
  {
    if rows != [] {
      var init := rows[..|rows| - 1];
      ParamsOfKeys(init);
      forall k | k in ParamsOf(init) ensures exists i :: 0 <= i < |rows| && rows[i].name == k {
        var i :| 0 <= i < |init| && init[i].name == k;
        assert rows[i].name == k;
      }
      forall i | 0 <= i < |init| ensures init[i].name in ParamsOf(init) {
        assert init[i].name == init[i].name;
      }
    }
  }

  /** The entry of a name is its last row. */
  lemma {:induction false} ParamsOfLastWins(rows: seq<SettingRow>, i: nat)
    requires i < |rows|
    requires forall j :: i < j < |rows| ==> rows[j].name != rows[i].name
    ensures rows[i].name in ParamsOf(rows) && ParamsOf(rows)[rows[i].name] == ValueOf(rows[i])
  {
    if i < |rows| - 1 {
      var init := rows[..|rows| - 1];
      assert init[i] == rows[i];
      forall j | i < j < |init| ensures init[j].name != init[i].name {
        assert init[j] == rows[j];
      }
      ParamsOfLastWins(init, i);
      assert rows[|rows| - 1].name != rows[i].name;
    }
  }

  /** The dictionary-building loop. */
  method BuildParams(rows: seq<SettingRow>) returns (params: Params)
    ensures params == ParamsOf(rows)
  {
    params := map[];
    var i := 0;
    while i < |rows|
      invariant 0 <= i <= |rows|
      invariant params == ParamsOf(rows[..i])
    {
      var r := rows[i];
      assert rows[..i + 1][..i] == rows[..i];
      params := params[r.name := SettingValue(r.setting, r.unit, r.context)];
      i := i + 1;
    }
    assert rows[..i] == rows;
  }

  /** One settings recommendation; the checks run in the order of `Stage`. */
  datatype SettingAdvice =
    | SharedBuffersLow(ratio: real)
    | WorkMemLow(workMemKb: int)
    | MaintenanceWorkMemLow(maintenanceWorkMemKb: int)
    | AutovacuumOff
  {
    function Priority(): Priority {
      match this
      case SharedBuffersLow(_) => Medium
      case WorkMemLow(_) => Medium
      case MaintenanceWorkMemLow(_) => Low
      case AutovacuumOff => High
    }
  }

  /** The position of a check in the order the settings are examined. */
  function SettingStage(a: SettingAdvice): nat {
    match a
    case SharedBuffersLow(_) => 0
    case WorkMemLow(_) => 1
    case MaintenanceWorkMemLow(_) => 2
    case AutovacuumOff => 3
  }

  /** The block size that a shared_buffers value in pages stands for. */
  const PageBytes: int := 8 * 1024
  /** Below this share of the RAM, shared_buffers is reported as too small. */
  const MinBufferShare: real := 0.25
  /** work_mem below 4 MB, in kB. */
  const MinWorkMemKb: int := 4096
  /** maintenance_work_mem below 64 MB, in kB. */
  const MinMaintenanceWorkMemKb: int := 65536
  /** The lower-case spellings of a switched-off boolean setting. */
  const OffSpellings: seq<string> := ["off", "false", "0"]

  /** shared_buffers in bytes: a value in 8 kB pages is scaled, anything else is
      taken as bytes already. */
  function SharedBuffersBytes(setting: int, unit: Option<string>): int {
    if unit == Some("8kB") then setting * PageBytes else setting
  }

  /** The RAM size counts only when it is given and non-zero. */
  predicate RamGiven(ramGb: Option<real>) {
    ramGb.Some? && ramGb.value != 0.0
  }

  /** The share of the RAM that shared_buffers takes. */
  function BufferShare(sbBytes: int, ramGb: real): real
    requires ramGb != 0.0
  {
    sbBytes as real / (ramGb * GiB as real)
  }

  /** A setting that is present but whose value text does not read as an integer. */
  predicate Unreadable(params: Params, name: string) {
    name in params && ParseInt(params[name].setting).None?
  }

  /** The integer value of a present, readable setting. */
  function IntValue(params: Params, name: string): int
    requires name in params && !Unreadable(params, name)
  {
    ParseInt(params[name].setting).value
  }

  /** The settings whose value text is read as an integer, in check order; a
      value that does not read raises, and the error names its setting. */
  datatype IntSetting = SharedBuffersSetting | WorkMemSetting | MaintenanceWorkMemSetting {
    function Name(): string {
      match this
      case SharedBuffersSetting => "shared_buffers"
      case WorkMemSetting => "work_mem"
      case MaintenanceWorkMemSetting => "maintenance_work_mem"
    }

    function Index(): nat {
      match this
      case SharedBuffersSetting => 0
      case WorkMemSetting => 1
      case MaintenanceWorkMemSetting => 2
    }
  }

  function SharedBuffersCheck(params: Params, ramGb: Option<real>): Result<seq<SettingAdvice>, IntSetting> {
    if "shared_buffers" !in params then Success([])
    else
      var v := params["shared_buffers"];
      match ParseInt(v.setting)
      case None => Failure(SharedBuffersSetting)
      case Some(sb) =>
        if RamGiven(ramGb) && BufferShare(SharedBuffersBytes(sb, v.unit), ramGb.value) < MinBufferShare
        then Success([SharedBuffersLow(BufferShare(SharedBuffersBytes(sb, v.unit), ramGb.value))])
        else Success([])
  }

  function WorkMemCheck(params: Params): Result<seq<SettingAdvice>, IntSetting> {
    if "work_mem" !in params then Success([])
    else
      match ParseInt(params["work_mem"].setting)
      case None => Failure(WorkMemSetting)
      case Some(kb) => Success(if kb < MinWorkMemKb then [WorkMemLow(kb)] else [])
  }

  function MaintenanceWorkMemCheck(params: Params): Result<seq<SettingAdvice>, IntSetting> {
    if "maintenance_work_mem" !in params then Success([])
    else
      match ParseInt(params["maintenance_work_mem"].setting)
      case None => Failure(MaintenanceWorkMemSetting)
      case Some(kb) => Success(if kb < MinMaintenanceWorkMemKb then [MaintenanceWorkMemLow(kb)] else [])
  }

  function AutovacuumCheck(params: Params): seq<SettingAdvice> {
    if "autovacuum" in params && Lower(params["autovacuum"].setting) in OffSpellings
    then [AutovacuumOff] else []
  }

  /** The settings advice, check by check; a value that does not read as an
      integer ends the analysis with the name of that setting. */
  function SettingsAdvice(params: Params, ramGb: Option<real>): Result<seq<SettingAdvice>, IntSetting> {
    RunChecks(SharedBuffersCheck(params, ramGb), WorkMemCheck(params), MaintenanceWorkMemCheck(params),
              AutovacuumCheck(params))
  }

  lemma SharedBuffersCheckFailure(params: Params, ramGb: Option<real>)
    ensures SharedBuffersCheck(params, ramGb).Failure? <==> Unreadable(params, SharedBuffersSetting.Name())
    ensures SharedBuffersCheck(params, ramGb).Failure? ==> SharedBuffersCheck(params, ramGb).error == SharedBuffersSetting
  {
  }

  lemma WorkMemCheckFailure(params: Params)
    ensures WorkMemCheck(params).Failure? <==> Unreadable(params, WorkMemSetting.Name())
    ensures WorkMemCheck(params).Failure? ==> WorkMemCheck(params).error == WorkMemSetting
  {
  }

  lemma MaintenanceWorkMemCheckFailure(params: Params)
    ensures MaintenanceWorkMemCheck(params).Failure? <==> Unreadable(params, MaintenanceWorkMemSetting.Name())
    ensures MaintenanceWorkMemCheck(params).Failure? ==> MaintenanceWorkMemCheck(params).error == MaintenanceWorkMemSetting
  {
  }

  /** The conditions of the four checks, on the settings dictionary. */
  predicate SharedBuffersTooSmall(params: Params, ramGb: Option<real>) {
    "shared_buffers" in params && !Unreadable(params, "shared_buffers") && RamGiven(ramGb)
    && BufferShare(SharedBuffersBytes(IntValue(params, "shared_buffers"), params["shared_buffers"].unit),
                   ramGb.value) < MinBufferShare
  }

  predicate WorkMemTooSmall(params: Params) {
    "work_mem" in params && !Unreadable(params, "work_mem") && IntValue(params, "work_mem") < MinWorkMemKb
  }

  predicate MaintenanceWorkMemTooSmall(params: Params) {
    "maintenance_work_mem" in params && !Unreadable(params, "maintenance_work_mem")
    && IntValue(params, "maintenance_work_mem") < MinMaintenanceWorkMemKb
  }

  predicate AutovacuumSwitchedOff(params: Params) {
    "autovacuum" in params && Lower(params["autovacuum"].setting) in OffSpellings
  }

  /** The condition of the check of stage `k`. */
  predicate SettingFires(k: nat, params: Params, ramGb: Option<real>) {
    || (k == 0 && SharedBuffersTooSmall(params, ramGb))
    || (k == 1 && WorkMemTooSmall(params))
    || (k == 2 && MaintenanceWorkMemTooSmall(params))
    || (k == 3 && AutovacuumSwitchedOff(params))
  }

  lemma SharedBuffersCheckFires(params: Params, ramGb: Option<real>)
    requires !Unreadable(params, "shared_buffers")
    ensures SharedBuffersCheck(params, ramGb).Success?
    ensures Map(SettingStage, SharedBuffersCheck(params, ramGb).value)
            == FiredStage(SettingFires(0, params, ramGb), 0)
  {
    MapAtMostOne(SettingStage, SharedBuffersCheck(params, ramGb).value);
  }

  lemma WorkMemCheckFires(params: Params, ramGb: Option<real>)
    requires !Unreadable(params, "work_mem")
    ensures WorkMemCheck(params).Success?
    ensures Map(SettingStage, WorkMemCheck(params).value) == FiredStage(SettingFires(1, params, ramGb), 1)
  {
    MapAtMostOne(SettingStage, WorkMemCheck(params).value);
  }

  lemma MaintenanceWorkMemCheckFires(params: Params, ramGb: Option<real>)
    requires !Unreadable(params, "maintenance_work_mem")
    ensures MaintenanceWorkMemCheck(params).Success?
    ensures Map(SettingStage, MaintenanceWorkMemCheck(params).value) == FiredStage(SettingFires(2, params, ramGb), 2)
  {
    MapAtMostOne(SettingStage, MaintenanceWorkMemCheck(params).value);
  }

  lemma AutovacuumCheckFires(params: Params, ramGb: Option<real>)
    ensures Map(SettingStage, AutovacuumCheck(params)) == FiredStage(SettingFires(3, params, ramGb), 3)
  {
    MapAtMostOne(SettingStage, AutovacuumCheck(params));
  }

  /** The analysis fails exactly when one of the integer settings is present and
      unreadable, and then it names the first such setting in check order. */
  lemma SettingsFailure(params: Params, ramGb: Option<real>)
    ensures SettingsAdvice(params, ramGb).Failure? <==> exists k: IntSetting :: Unreadable(params, k.Name())
    ensures SettingsAdvice(params, ramGb).Failure? ==>
              var e := SettingsAdvice(params, ramGb).error;
              Unreadable(params, e.Name())
              && forall k: IntSetting :: k.Index() < e.Index() ==> !Unreadable(params, k.Name())
  {
    SharedBuffersCheckFailure(params, ramGb);
    WorkMemCheckFailure(params);
    MaintenanceWorkMemCheckFailure(params);
    RunChecksOutcome(SharedBuffersCheck(params, ramGb), WorkMemCheck(params), MaintenanceWorkMemCheck(params),
                     AutovacuumCheck(params));
  }

  /** When every integer setting reads, there are at most four recommendations,
      in check order, each check contributing exactly when its condition holds. */
  lemma SettingsAdviceExactly(params: Params, ramGb: Option<real>)
    requires forall k: IntSetting :: !Unreadable(params, k.Name())
    ensures SettingsAdvice(params, ramGb).Success?
    ensures var advice := SettingsAdvice(params, ramGb).value;
            && |advice| <= 4
            && StrictlyIncreasing(Map(SettingStage, advice))
            && forall k: nat :: k in Map(SettingStage, advice) <==> SettingFires(k, params, ramGb)
  {
    assert !Unreadable(params, SharedBuffersSetting.Name()) && !Unreadable(params, WorkMemSetting.Name())
        && !Unreadable(params, MaintenanceWorkMemSetting.Name());
    SharedBuffersCheckFires(params, ramGb);
    WorkMemCheckFires(params, ramGb);
    MaintenanceWorkMemCheckFires(params, ramGb);
    AutovacuumCheckFires(params, ramGb);
    var a1 := SharedBuffersCheck(params, ramGb).value;
    var a2 := WorkMemCheck(params).value;
    var a3 := MaintenanceWorkMemCheck(params).value;
    var a4 := AutovacuumCheck(params);
    RunChecksOutcome(SharedBuffersCheck(params, ramGb), WorkMemCheck(params), MaintenanceWorkMemCheck(params), a4);
    MapAppend(SettingStage, a1, a2);
    MapAppend(SettingStage, a1 + a2, a3);
    MapAppend(SettingStage, a1 + a2 + a3, a4);
    FourStages(Map(SettingStage, a1), Map(SettingStage, a2), Map(SettingStage, a3), Map(SettingStage, a4),
               SettingFires(0, params, ramGb), SettingFires(1, params, ramGb),
               SettingFires(2, params, ramGb), SettingFires(3, params, ramGb));
  }

  /** Without a RAM size, shared_buffers is never reported, whatever its value. */
  lemma NoRamNoBufferAdvice(params: Params, ramGb: Option<real>)
    requires !RamGiven(ramGb)
    ensures SettingsAdvice(params, ramGb).Success? ==>
              forall a :: a in SettingsAdvice(params, ramGb).value ==> !a.SharedBuffersLow?
  {
  }

  /** 16384 pages of 8 kB are 128 MiB, an eighth of the 1 GiB of RAM given: below
      a quarter, so reported. */
  lemma SharedBuffersInPages(context: string)
    ensures var rows := [SettingRow("shared_buffers", IntString(16384), Some("8kB"), context)];
            SettingsAdvice(ParamsOf(rows), Some(1.0)) == Success([SharedBuffersLow(0.125)])
  {
    ParseIntString(16384);
    var rows := [SettingRow("shared_buffers", IntString(16384), Some("8kB"), context)];
    assert rows[..0] == [];
    assert ParamsOf(rows) == map["shared_buffers" := SettingValue(IntString(16384), Some("8kB"), context)];
    assert SharedBuffersBytes(16384, Some("8kB")) == 134217728;
    assert 1.0 * GiB as real == 1073741824.0;
    assert BufferShare(134217728, 1.0) == 134217728.0 / 1073741824.0 == 0.125;
    var p := ParamsOf(rows);
    assert SharedBuffersCheck(p, Some(1.0)) == Success([SharedBuffersLow(0.125)]);
    assert "work_mem"[0] != "shared_buffers"[0] && "maintenance_work_mem"[0] != "shared_buffers"[0]
        && "autovacuum"[0] != "shared_buffers"[0];
    assert "work_mem" !in p && "maintenance_work_mem" !in p && "autovacuum" !in p;
    assert WorkMemCheck(p) == Success([]) && MaintenanceWorkMemCheck(p) == Success([]) && AutovacuumCheck(p) == [];
    var one: seq<SettingAdvice> := [SharedBuffersLow(0.125)];
    assert one + [] + [] + [] == one;
  }

  /** The settings analysis over the rows; the dictionary is built first, then the
      four checks run in order. */
  method AnalyzePgSettings(rows: seq<SettingRow>, ramGb: Option<real>)
    returns (result: Result<seq<SettingAdvice>, IntSetting>)
    ensures result == SettingsAdvice(ParamsOf(rows), ramGb)
  {
    var params := BuildParams(rows);
    var sharedBuffers := SharedBuffersStep(params, ramGb);
    if sharedBuffers.Failure? {
      return Failure(sharedBuffers.error);
    }
    var workMem := WorkMemStep(params);
    if workMem.Failure? {
      return Failure(workMem.error);
    }
    var maintenanceWorkMem := MaintenanceWorkMemStep(params);
    if maintenanceWorkMem.Failure? {
      return Failure(maintenanceWorkMem.error);
    }
    var autovacuum := AutovacuumStep(params);
    result := Success(sharedBuffers.value + workMem.value + maintenanceWorkMem.value + autovacuum);
  }

  /** The shared_buffers block: the value converted to bytes when given in 8 kB
      pages, compared with the RAM size when there is one. */
  method SharedBuffersStep(params: Params, ramGb: Option<real>) returns (r: Result<seq<SettingAdvice>, IntSetting>)
    ensures r == SharedBuffersCheck(params, ramGb)
  {
    var recommendations: seq<SettingAdvice> := [];
    if "shared_buffers" in params {
      var v := params["shared_buffers"];
      var sb := ParseInt(v.setting);
      if sb.None? {
        return Failure(SharedBuffersSetting);
      }
      var sbBytes := if v.unit == Some("8kB") then sb.value * 8 * 1024 else sb.value;
      if ramGb.Some? && ramGb.value != 0.0 {
        var ramBytes := ramGb.value * (GiB as real);
        var ratio := sbBytes as real / ramBytes;
        if ratio < 0.25 {
          recommendations := recommendations + [SharedBuffersLow(ratio)];
          assert recommendations == [SharedBuffersLow(ratio)];
        }
      }
    }
    r := Success(recommendations);
  }

  /** The work_mem block. */
  method WorkMemStep(params: Params) returns (r: Result<seq<SettingAdvice>, IntSetting>)
    ensures r == WorkMemCheck(params)
  {
    var recommendations: seq<SettingAdvice> := [];
    if "work_mem" in params {
      var wm := ParseInt(params["work_mem"].setting);
      if wm.None? {
        return Failure(WorkMemSetting);
      }
      if wm.value < 4096 {
        recommendations := recommendations + [WorkMemLow(wm.value)];
        assert recommendations == [WorkMemLow(wm.value)];
      }
    }
    r := Success(recommendations);
  }

  /** The maintenance_work_mem block. */
  method MaintenanceWorkMemStep(params: Params) returns (r: Result<seq<SettingAdvice>, IntSetting>)
    ensures r == MaintenanceWorkMemCheck(params)
  {
    var recommendations: seq<SettingAdvice> := [];
    if "maintenance_work_mem" in params {
      var mw := ParseInt(params["maintenance_work_mem"].setting);
      if mw.None? {
        return Failure(MaintenanceWorkMemSetting);
      }
      if mw.value < 65536 {
        recommendations := recommendations + [MaintenanceWorkMemLow(mw.value)];
        assert recommendations == [MaintenanceWorkMemLow(mw.value)];
      }
    }
    r := Success(recommendations);
  }

  /** The autovacuum block, which cannot fail. */
  method AutovacuumStep(params: Params) returns (recommendations: seq<SettingAdvice>)
    ensures recommendations == AutovacuumCheck(params)
  {
    recommendations := [];
    if "autovacuum" in params {
      var setting := params["autovacuum"].setting;
      if Lower(setting) in ["off", "false", "0"] {
        recommendations := recommendations + [AutovacuumOff];
      }
    }
  }

  // -------------------------------------------------------------- autovacuum

  /** One row of the table statistics: identity, live and dead tuple counts,
      tuples modified since the last analyze, and the times (in seconds) of the
      last autovacuum and the last analyze, if any. */
  datatype VacuumStatsRow = VacuumStatsRow(
    relid: int, schemaName: string, tableName: string,
    liveTuples: int, deadTuples: int, modifiedSinceAnalyze: int,
    lastAutovacuum: Option<real>, lastAnalyze: Option<real>)

  datatype VacuumThresholds = VacuumThresholds(deadTupleShare: real, analyzeShare: real, maxAutovacuumAgeHours: real)

  /** The defaults: a fifth of the tuples dead, a tenth modified, a day without autovacuum. */
  const DefaultVacuumThresholds: VacuumThresholds := VacuumThresholds(0.2, 0.1, 24.0)

  datatype VacuumAdvice =
    | ManyDeadTuples(deadPct: real)
    | AutovacuumOverdue(hoursSince: real)
    | AnalyzeStale(modifiedPct: real)

  /** The position of a test in the order the per-table tests run. */
  function VacuumStage(a: VacuumAdvice): nat {
    match a
    case ManyDeadTuples(_) => 0
    case AutovacuumOverdue(_) => 1
    case AnalyzeStale(_) => 2
  }

  /** The report of one table; the percentages are shares times 100. */
  datatype VacuumEntry = VacuumEntry(
    schemaName: string, tableName: string, deadPct: real, analyzePct: real,
    lastAutovacuum: Option<real>, lastAnalyze: Option<real>, recommendations: seq<VacuumAdvice>)

  function DeadShare(r: VacuumStatsRow): real {
    ShareOf(r.deadTuples, r.liveTuples + r.deadTuples)
  }

  function AnalyzeShare(r: VacuumStatsRow): real {
    ShareOf(r.modifiedSinceAnalyze, r.liveTuples + r.deadTuples)
  }

  /** An autovacuum ran once, and longer ago than the limit allows. */
  predicate AutovacuumTooOld(r: VacuumStatsRow, now: real, th: VacuumThresholds) {
    r.lastAutovacuum.Some? && now - r.lastAutovacuum.value > th.maxAutovacuumAgeHours * 3600.0
  }

  /** The advice of one table: dead tuples, then autovacuum age, then analyze. */
  function VacuumAdviceOf(r: VacuumStatsRow, now: real, th: VacuumThresholds): seq<VacuumAdvice> {
    (if DeadShare(r) > th.deadTupleShare then [ManyDeadTuples(DeadShare(r) * 100.0)] else [])
    + (if AutovacuumTooOld(r, now, th) then [AutovacuumOverdue((now - r.lastAutovacuum.value) / 3600.0)] else [])
    + (if AnalyzeShare(r) > th.analyzeShare then [AnalyzeStale(AnalyzeShare(r) * 100.0)] else [])
  }

  /** The condition of the check of stage `k`, each one a strict excess. */
  predicate VacuumFires(k: nat, r: VacuumStatsRow, now: real, th: VacuumThresholds) {
    || (k == 0 && DeadShare(r) > th.deadTupleShare)
    || (k == 1 && AutovacuumTooOld(r, now, th))
    || (k == 2 && AnalyzeShare(r) > th.analyzeShare)
  }

  /** A table gets at most three recommendations, in check order, each check
      contributing exactly when its threshold is strictly exceeded. */
  lemma VacuumAdviceExactly(r: VacuumStatsRow, now: real, th: VacuumThresholds)
    ensures |VacuumAdviceOf(r, now, th)| <= 3
    ensures StrictlyIncreasing(Map(VacuumStage, VacuumAdviceOf(r, now, th)))
    ensures forall k: nat :: k in Map(VacuumStage, VacuumAdviceOf(r, now, th)) <==> VacuumFires(k, r, now, th)
  {
    var a1: seq<VacuumAdvice> := if DeadShare(r) > th.deadTupleShare then [ManyDeadTuples(DeadShare(r) * 100.0)] else [];
    var a2: seq<VacuumAdvice> := if AutovacuumTooOld(r, now, th) then [AutovacuumOverdue((now - r.lastAutovacuum.value) / 3600.0)] else [];
    var a3: seq<VacuumAdvice> := if AnalyzeShare(r) > th.analyzeShare then [AnalyzeStale(AnalyzeShare(r) * 100.0)] else [];
    assert VacuumAdviceOf(r, now, th) == a1 + a2 + a3;
    MapAtMostOne(VacuumStage, a1);
    MapAtMostOne(VacuumStage, a2);
    MapAtMostOne(VacuumStage, a3);
    assert Map(VacuumStage, a1) == FiredStage(VacuumFires(0, r, now, th), 0);
    assert Map(VacuumStage, a2) == FiredStage(VacuumFires(1, r, now, th), 1);
    assert Map(VacuumStage, a3) == FiredStage(VacuumFires(2, r, now, th), 2);
    MapAppend(VacuumStage, a1, a2);
    MapAppend(VacuumStage, a1 + a2, a3);
    ThreeStages(Map(VacuumStage, a1), Map(VacuumStage, a2), Map(VacuumStage, a3),
                VacuumFires(0, r, now, th), VacuumFires(1, r, now, th), VacuumFires(2, r, now, th));
  }

  /** The entry of one table. An empty table reports 0 % for both shares; with
      non-negative counts the dead share is a percentage. */
  function VacuumEntryOf(r: VacuumStatsRow, now: real, th: VacuumThresholds): (e: VacuumEntry)
    ensures r.liveTuples + r.deadTuples <= 0 ==> e.deadPct == 0.0 && e.analyzePct == 0.0
    ensures 0 <= r.liveTuples && 0 <= r.deadTuples ==> 0.0 <= e.deadPct <= 100.0
  {
    VacuumEntry(r.schemaName, r.tableName, DeadShare(r) * 100.0, AnalyzeShare(r) * 100.0,
                r.lastAutovacuum, r.lastAnalyze, VacuumAdviceOf(r, now, th))
  }

  /** In an empty table no tuple is dead and none was modified, whatever the thresholds
      as long as they are not negative. */
  lemma EmptyTableOnlyAge(r: VacuumStatsRow, now: real, th: VacuumThresholds)
    requires r.liveTuples + r.deadTuples <= 0
    requires th.deadTupleShare >= 0.0 && th.analyzeShare >= 0.0
    ensures VacuumAdviceOf(r, now, th) == if AutovacuumTooOld(r, now, th)
                                         then [AutovacuumOverdue((now - r.lastAutovacuum.value) / 3600.0)] else []
  {
  }

  /** The autovacuum loop: one entry per table row, in row order, even for a table
      with nothing to report. */
  method AnalyzeAutovacuum(tables: seq<VacuumStatsRow>, now: real, th: VacuumThresholds)
    returns (results: seq<VacuumEntry>)
    ensures |results| == |tables|
    ensures forall i :: 0 <= i < |tables| ==> results[i] == VacuumEntryOf(tables[i], now, th)
  {
    results := [];
    var i := 0;
    while i < |tables|
      invariant 0 <= i <= |tables|
      invariant |results| == i
      invariant forall k :: 0 <= k < i ==> results[k] == VacuumEntryOf(tables[k], now, th)
    {
      var r := tables[i];
      var total := r.liveTuples + r.deadTuples;
      var deadPct := if total > 0 then r.deadTuples as real / total as real else 0.0;
      var analyzePct := if total > 0 then r.modifiedSinceAnalyze as real / total as real else 0.0;
      var recommendations: seq<VacuumAdvice> := [];
      if deadPct > th.deadTupleShare {
        recommendations := recommendations + [ManyDeadTuples(deadPct * 100.0)];
      }
      if r.lastAutovacuum.Some? && now - r.lastAutovacuum.value > th.maxAutovacuumAgeHours * 3600.0 {
        recommendations := recommendations + [AutovacuumOverdue((now - r.lastAutovacuum.value) / 3600.0)];
      }
      if analyzePct > th.analyzeShare {
        recommendations := recommendations + [AnalyzeStale(analyzePct * 100.0)];
      }
      results := results + [VacuumEntry(r.schemaName, r.tableName, deadPct * 100.0, analyzePct * 100.0,
                                        r.lastAutovacuum, r.lastAnalyze, recommendations)];
      i := i + 1;
    }
  }

  // ----------------------------------------------------------- table sizes

  /** A table with its total size in bytes. */
  datatype TableSizeRow = TableSizeRow(tableName: string, totalSize: int)

  /** The default partitioning threshold, in MB. */
  const DefaultPartitionThresholdMb: real := 10000.0

  /** A medium-priority suggestion to partition a table. */
  datatype PartitionAdvice = PartitionAdvice(tableName: string, thresholdMb: real)

  predicate IsPartitionCandidate(r: TableSizeRow, thresholdMb: real) {
    SizeMb(r.totalSize) > thresholdMb
  }

  function CandidateRows(rows: seq<TableSizeRow>, thresholdMb: real): seq<TableSizeRow> {
    Filter((r: TableSizeRow) => IsPartitionCandidate(r, thresholdMb), rows)
  }

  /** One suggestion per table larger than the threshold, in row order. */
  function PartitionAdviceOf(rows: seq<TableSizeRow>, thresholdMb: real): seq<PartitionAdvice> {
    Map((r: TableSizeRow) => PartitionAdvice(r.tableName, thresholdMb), CandidateRows(rows, thresholdMb))
  }

  /** A table is named exactly when some row of it is larger than the threshold,
      and the suggestions of two listings one after the other are those of the
      first followed by those of the second. */
  lemma PartitionAdviceExactly(rows: seq<TableSizeRow>, more: seq<TableSizeRow>, thresholdMb: real)
    ensures forall t :: PartitionAdvice(t, thresholdMb) in PartitionAdviceOf(rows, thresholdMb)
              <==> exists r :: r in rows && r.tableName == t && IsPartitionCandidate(r, thresholdMb)
    ensures PartitionAdviceOf(rows + more, thresholdMb)
            == PartitionAdviceOf(rows, thresholdMb) + PartitionAdviceOf(more, thresholdMb)
  {
    var p := (r: TableSizeRow) => IsPartitionCandidate(r, thresholdMb);
    var g := (r: TableSizeRow) => PartitionAdvice(r.tableName, thresholdMb);
    MapFilterMembers(p, g, rows);
    FilterAppend(p, rows, more);
    MapAppend(g, Filter(p, rows), Filter(p, more));
  }

  /** The partitioning loop. */
  method AnalyzeTableStructure(rows: seq<TableSizeRow>, thresholdMb: real) returns (recommendations: seq<PartitionAdvice>)
    ensures recommendations == PartitionAdviceOf(rows, thresholdMb)
  {
    recommendations := [];
    var i := 0;
    while i < |rows|
      invariant 0 <= i <= |rows|
      invariant recommendations == PartitionAdviceOf(rows[..i], thresholdMb)
    {
      var r := rows[i];
      PartitionAdviceExactly(rows[..i], [r], thresholdMb);
      assert rows[..i + 1] == rows[..i] + [r];
      assert [r][..0] == [];
      var sizeMb := r.totalSize as real / (1024 * 1024) as real;
      if sizeMb > thresholdMb {
        recommendations := recommendations + [PartitionAdvice(r.tableName, thresholdMb)];
      }
      i := i + 1;
    }
    assert rows[..i] == rows;
  }

  // ------------------------------------------------------------------- bloat

  /** A table with its tuple counts and total size in bytes. */
  datatype BloatRow = BloatRow(schemaName: string, tableName: string, liveTuples: int, deadTuples: int, totalBytes: int)

  /** The default bloat threshold: a fifth of the tuples dead. */
  const DefaultBloatThreshold: real := 0.2

  /** A suggestion to rewrite the table (VACUUM FULL or CLUSTER). */
  datatype BloatAdvice = Rewrite(bloatPct: real)

  datatype BloatEntry = BloatEntry(
    schemaName: string, tableName: string, bloatPct: real, sizeMb: real, recommendations: seq<BloatAdvice>)

  /** The entry of one table: at most one suggestion, present exactly when the
      dead share strictly exceeds the threshold. */
  function BloatEntryOf(r: BloatRow, threshold: real): (e: BloatEntry)
    ensures |e.recommendations| <= 1
    ensures e.recommendations != [] <==> ShareOf(r.deadTuples, r.liveTuples + r.deadTuples) > threshold
    ensures e.sizeMb == SizeMb(r.totalBytes)
    ensures 0 <= r.liveTuples && 0 <= r.deadTuples ==> 0.0 <= e.bloatPct <= 100.0
  {
    var share := ShareOf(r.deadTuples, r.liveTuples + r.deadTuples);
    BloatEntry(r.schemaName, r.tableName, share * 100.0, SizeMb(r.totalBytes),
               if share > threshold then [Rewrite(share * 100.0)] else [])
  }

  /** The bloat loop: one entry per table row, in row order. */
  method AnalyzeTableBloat(tables: seq<BloatRow>, threshold: real) returns (results: seq<BloatEntry>)
    ensures |results| == |tables|
    ensures forall i :: 0 <= i < |tables| ==> results[i] == BloatEntryOf(tables[i], threshold)
  {
    results := [];
    var i := 0;
    while i < |tables|
      invariant 0 <= i <= |tables|
      invariant |results| == i
      invariant forall k :: 0 <= k < i ==> results[k] == BloatEntryOf(tables[k], threshold)
    {
      var r := tables[i];
      var totalRows := r.liveTuples + r.deadTuples;
      var deadPct := if totalRows > 0 then r.deadTuples as real / totalRows as real else 0.0;
      var recommendations: seq<BloatAdvice> := [];
      if deadPct > threshold {
        recommendations := recommendations + [Rewrite(deadPct * 100.0)];
      }
      results := results + [BloatEntry(r.schemaName, r.tableName, deadPct * 100.0,
                                       r.totalBytes as real / (1024 * 1024) as real, recommendations)];
      i := i + 1;
    }
  }

  // ------------------------------------------------------------- index usage

  /** One index with its scan and tuple counters and its size in bytes. */
  datatype IndexUsageRow = IndexUsageRow(
    schemaName: string, tableName: string, indexName: string,
    idxScan: int, tupRead: int, tupFetch: int, size: int)

  /** The default: scanned fewer times than a twentieth of the tuples it read. */
  const DefaultUnusedThreshold: real := 0.05

  datatype UsageAdvice = NeverUsed | RarelyUsed

  datatype IndexUsageEntry = IndexUsageEntry(
    schemaName: string, tableName: string, indexName: string, sizeMb: real,
    idxScan: int, tupRead: int, tupFetch: int, recommendations: seq<UsageAdvice>)

  /** The entry of one index: never used exactly when it was never scanned;
      otherwise rarely used exactly when its scans fall below the threshold share
      of the tuples it read; at most one of the two. */
  function UsageEntryOf(r: IndexUsageRow, threshold: real): (e: IndexUsageEntry)
    ensures |e.recommendations| <= 1
    ensures NeverUsed in e.recommendations <==> r.idxScan == 0
    ensures RarelyUsed in e.recommendations <==> r.idxScan != 0 && (r.idxScan as real) < threshold * r.tupRead as real
    ensures e.sizeMb == SizeMb(r.size) && e.idxScan == r.idxScan && e.tupRead == r.tupRead && e.tupFetch == r.tupFetch
  {
    IndexUsageEntry(r.schemaName, r.tableName, r.indexName, SizeMb(r.size), r.idxScan, r.tupRead, r.tupFetch,
                    if r.idxScan == 0 then [NeverUsed]
                    else if (r.idxScan as real) < threshold * r.tupRead as real then [RarelyUsed]
                    else [])
  }

  /** The index-usage loop: one entry per index row, in row order. */
  method AnalyzeIndexUsage(indexes: seq<IndexUsageRow>, threshold: real) returns (results: seq<IndexUsageEntry>)
    ensures |results| == |indexes|
    ensures forall i :: 0 <= i < |indexes| ==> results[i] == UsageEntryOf(indexes[i], threshold)
  {
    results := [];
    var i := 0;
    while i < |indexes|
      invariant 0 <= i <= |indexes|
      invariant |results| == i
      invariant forall k :: 0 <= k < i ==> results[k] == UsageEntryOf(indexes[k], threshold)
    {
      var r := indexes[i];
      var recommendations: seq<UsageAdvice> := [];
      if r.idxScan == 0 {
        recommendations := recommendations + [NeverUsed];
      } else if (r.idxScan as real) < threshold * r.tupRead as real {
        recommendations := recommendations + [RarelyUsed];
      }
      results := results + [IndexUsageEntry(r.schemaName, r.tableName, r.indexName,
                                            r.size as real / (1024 * 1024) as real,
                                            r.idxScan, r.tupRead, r.tupFetch, recommendations)];
      i := i + 1;
    }
  }
}
