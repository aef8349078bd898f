/** semantic_agent/pipeline/run_full.py: the full pipeline, which runs seven stages in a fixed
    order and keeps going when one fails. The stages are modelled by the calls they
    receive. Whether a stage raises is an input, and so are the existence of the CSV file
    and the result the evaluation stage returns. */
module RunFull {
  import opened Wrappers
  import opened Seqs
  import opened Config
  import Evaluate
  import LoggingUtils

  /** `DEFAULT_CSV_FILENAME`. */
  const DefaultCsvFilename := "polymarket_markets.csv"

  datatype Stage = ResetStage | IngestStage | EmbedStage | ClusterStage | LabelStage
                 | RelationsStage | EvaluateStage

  /** The order the stages are attempted in. */
  const StageOrder := [ResetStage, IngestStage, EmbedStage, ClusterStage, LabelStage,
                       RelationsStage, EvaluateStage]

  /** One stage call with the arguments the pipeline passes. */
  datatype Call =
    | RunReset(dbUrl: string)
    | LoadFromCsvAndSave(csvPath: Path, dbUrl: string, sourceLabel: string, minDurationDays: real,
                         requireResolved: bool, requireBinary: bool, nrows: Option<int>)
    | RunEmbedAndStore(dbUrl: string)
    | RunClusterAndStore(dbUrl: string)
    | RunLabelClusters(dbUrl: string)
    | RunDiscoverRelations(dbUrl: string, skipClustersWithRelations: bool)
    | RunEvaluateRelations(dbUrl: string)

  function StageOf(c: Call): Stage {
    match c
    case RunReset(_) => ResetStage
    case LoadFromCsvAndSave(_, _, _, _, _, _, _) => IngestStage
    case RunEmbedAndStore(_) => EmbedStage
    case RunClusterAndStore(_) => ClusterStage
    case RunLabelClusters(_) => LabelStage
    case RunDiscoverRelations(_, _) => RelationsStage
    case RunEvaluateRelations(_) => EvaluateStage
  }

  /** `database_url or settings.database_url`: an empty URL counts as not given. */
  function DbUrl(databaseUrl: Option<string>, s: Settings): (u: string)
    ensures databaseUrl.Some? && databaseUrl.value != "" ==> u == databaseUrl.value
    ensures databaseUrl.None? || databaseUrl.value == "" ==> u == s.databaseUrl
  {
    if databaseUrl.Some? && databaseUrl.value != "" then databaseUrl.value else s.databaseUrl
  }

  /** The CSV path: the one given, or `raw_data_path / "polymarket_markets.csv"`. */
  function CsvPath(csvPath: Option<Path>, s: Settings): (p: Path)
    ensures csvPath.Some? ==> p == csvPath.value
    ensures csvPath.None? ==> Name(p) == DefaultCsvFilename &&
                              p.parts == RawDataPath(s).parts + [DefaultCsvFilename]
  {
    if csvPath.Some? then csvPath.value else JoinName(RawDataPath(s), DefaultCsvFilename)
  }

  /** `min_duration_days if min_duration_days is not None else settings.min_duration_days`;
      unlike the URL, a given 0.0 is kept. */
  function MinDays(minDurationDays: Option<real>, s: Settings): (d: real)
    ensures minDurationDays.Some? ==> d == minDurationDays.value
    ensures minDurationDays.None? ==> d == s.minDurationDays
  {
    if minDurationDays.Some? then minDurationDays.value else s.minDurationDays
  }

  /** The calls the pipeline makes once the CSV exists. */
  function Plan(csv: Path, db: string, minDays: real, requireResolved: bool, requireBinary: bool,
                nrows: Option<int>): seq<Call>
  {
    [RunReset(db), LoadFromCsvAndSave(csv, db, "csv", minDays, requireResolved, requireBinary, nrows),
     RunEmbedAndStore(db), RunClusterAndStore(db), RunLabelClusters(db),
     RunDiscoverRelations(db, true), RunEvaluateRelations(db)]
  }

  function DbOf(c: Call): string { c.dbUrl }

  /** The plan attempts every stage exactly once, in the fixed order. All stages get the
      same database, ingestion reads the chosen CSV with source label "csv", and relation
      discovery always runs in resume mode. */
  lemma PlanShape(csv: Path, db: string, minDays: real, requireResolved: bool, requireBinary: bool,
                  nrows: Option<int>)
    ensures var p := Plan(csv, db, minDays, requireResolved, requireBinary, nrows);
            && Map(p, StageOf) == StageOrder
            && (forall i, j :: 0 <= i < j < |p| ==> StageOf(p[i]) != StageOf(p[j]))
            && (forall i :: 0 <= i < |p| ==> DbOf(p[i]) == db)
            && (forall i :: 0 <= i < |p| && p[i].LoadFromCsvAndSave? ==>
                  p[i].csvPath == csv && p[i].sourceLabel == "csv" && p[i].minDurationDays == minDays)
            && (forall i :: 0 <= i < |p| && p[i].RunDiscoverRelations? ==> p[i].skipClustersWithRelations)
  {
    var p := Plan(csv, db, minDays, requireResolved, requireBinary, nrows);
    assert Map(p, StageOf) == StageOrder by {
      assert |Map(p, StageOf)| == |StageOrder|;
      forall i | 0 <= i < |StageOrder| ensures Map(p, StageOf)[i] == StageOrder[i] {
      }
    }
  }

  /** The stages whose failure is logged grow by one stage at a time. */
  lemma WarningsStep(k: nat, fails: Stage -> bool)
    requires k < |StageOrder|
    ensures Filter(StageOrder[..k + 1], fails) ==
              Filter(StageOrder[..k], fails) + (if fails(StageOrder[k]) then [StageOrder[k]] else [])
  {
    assert StageOrder[..k + 1] == StageOrder[..k] + [StageOrder[k]];
    FilterAppend(StageOrder[..k], [StageOrder[k]], fails);
    assert [StageOrder[k]][1..] == [];
  }

  /** The first `k` stages, keeping those that fail. */
  function Logged(fails: Stage -> bool, k: nat): seq<Stage>
    requires k <= |StageOrder|
  {
    if k == 0 then [] else Logged(fails, k - 1) + (if fails(StageOrder[k - 1]) then [StageOrder[k - 1]] else [])
  }

  /** The failures logged over the first `k` stages are the failing stages among them, in
      stage order. */
  lemma {:induction false} LoggedFailures(fails: Stage -> bool, k: nat)
    requires k <= |StageOrder|
    ensures Logged(fails, k) == Filter(StageOrder[..k], fails)
  {
    if k > 0 {
      LoggedFailures(fails, k - 1);
      WarningsStep(k - 1, fails);
    }
  }

  /** Over all seven stages: the logged failures are exactly the failing stages, in stage
      order. */
  lemma WarningsAreFailures(fails: Stage -> bool)
    ensures Logged(fails, |StageOrder|) == Filter(StageOrder, fails)
  {
    LoggedFailures(fails, |StageOrder|);
    assert StageOrder[..|StageOrder|] == StageOrder;
  }

  /** One `try: <stage call> except Exception: logger.warning(...)`: the `k`-th call of
      `plan` is made, and logged when its stage fails. */
  method Attempt(ghost plan: seq<Call>, calls: seq<Call>, warnings: seq<Stage>, c: Call, k: nat,
                 fails: Stage -> bool)
    returns (calls': seq<Call>, warnings': seq<Stage>)
    requires k < |StageOrder| == |plan| && c == plan[k] && StageOf(c) == StageOrder[k]
    requires calls == plan[..k] && warnings == Logged(fails, k)
    ensures calls' == plan[..k + 1]
    ensures warnings' == Logged(fails, k + 1)
  {
    calls' := calls + [c];
    assert plan[..k + 1] == plan[..k] + [plan[k]];
    warnings' := warnings;
    if fails(StageOf(c)) {
      warnings' := warnings + [StageOf(c)];
    }
  }

  /** `run_full_pipeline(...)`. It begins with `configure_logging()` on `root`, with the
      environment's `VERIBOND_LOG_LEVEL` and `VERIBOND_LOG_JSON` as `envLevel` and
      `envJson`; on a fresh logger an unknown level raises ValueError there, before the
      CSV check. `csvExists` says whether a path exists, `fails` whether a stage raises,
      and `evaluated` is what `run_evaluate_relations` returns when it does not. `calls`
      are the stage calls in order, and `warnings` the stages whose failure is logged (by
      `WarningsAreFailures`, the failing stages in stage order). */
  method RunFullPipeline(root: LoggingUtils.RootLogger, envLevel: Option<string>, envJson: Option<string>,
                         s: Settings, csvPath: Option<Path>, databaseUrl: Option<string>,
                         minDurationDays: Option<real>, requireResolved: bool, requireBinary: bool,
                         nrows: Option<int>, csvExists: Path -> bool, fails: Stage -> bool,
                         evaluated: Evaluate.EvalResult)
    returns (r: Result<Evaluate.EvalResult>, calls: seq<Call>, warnings: seq<Stage>)
    modifies root
    ensures old(root.handlers) != [] ==> root.handlers == old(root.handlers) && root.level == old(root.level)
    ensures old(root.handlers) == [] ==> root.handlers == [LoggingUtils.StreamHandler(LoggingUtils.EnvBool(envJson, false))]
    ensures !LoggingOk(old(root.handlers), envLevel) ==> r == Err(ValueError) && calls == [] && warnings == []
    ensures LoggingOk(old(root.handlers), envLevel) && !csvExists(CsvPath(csvPath, s)) ==>
              r == Err(FileNotFound) && calls == [] && warnings == []
    ensures LoggingOk(old(root.handlers), envLevel) && csvExists(CsvPath(csvPath, s)) ==>
              && r.Ok?
              && calls == Plan(CsvPath(csvPath, s), DbUrl(databaseUrl, s), MinDays(minDurationDays, s),
                               requireResolved, requireBinary, nrows)
              && warnings == Logged(fails, |StageOrder|)
              && (!fails(EvaluateStage) ==> r.value == evaluated)
              && (fails(EvaluateStage) ==>
                    fresh(r.value) && r.value.totalRelations == 0 && r.value.Snapshot() == Evaluate.NoCounts)
  {
    var logged := LoggingUtils.ConfigureLogging(root, None, None, envLevel, envJson);
    if logged.Err? {
      return Err(ValueError), [], [];
    }
    var db := DbUrl(databaseUrl, s);
    var csv := CsvPath(csvPath, s);
    var minDays := MinDays(minDurationDays, s);
    if !csvExists(csv) {
      return Err(FileNotFound), [], [];
    }
    calls, warnings := RunStages(csv, db, minDays, requireResolved, requireBinary, nrows, fails);
    var result := EvaluationOutcome(fails(EvaluateStage), evaluated);
    r := Ok(result);
  }

  /** Whether `configure_logging()` returns: it does when the root logger already has a
      handler, and otherwise when the requested level is a known level name. */
  predicate LoggingOk(handlers: seq<LoggingUtils.Handler>, envLevel: Option<string>) {
    handlers != [] || LoggingUtils.RequestedLevel(None, envLevel) in LoggingUtils.KnownLevels
  }

  /** The seven `try` blocks in turn. */
  method RunStages(csv: Path, db: string, minDays: real, requireResolved: bool, requireBinary: bool,
                   nrows: Option<int>, fails: Stage -> bool)
    returns (calls: seq<Call>, warnings: seq<Stage>)
    ensures calls == Plan(csv, db, minDays, requireResolved, requireBinary, nrows)
    ensures warnings == Logged(fails, |StageOrder|)
  {
    ghost var plan := Plan(csv, db, minDays, requireResolved, requireBinary, nrows);
    calls, warnings := [], [];
    calls, warnings := Attempt(plan, calls, warnings, RunReset(db), 0, fails);
    calls, warnings := Attempt(plan, calls, warnings,
                               LoadFromCsvAndSave(csv, db, "csv", minDays, requireResolved, requireBinary, nrows),
                               1, fails);
    calls, warnings := Attempt(plan, calls, warnings, RunEmbedAndStore(db), 2, fails);
    calls, warnings := Attempt(plan, calls, warnings, RunClusterAndStore(db), 3, fails);
    calls, warnings := Attempt(plan, calls, warnings, RunLabelClusters(db), 4, fails);
    calls, warnings := Attempt(plan, calls, warnings, RunDiscoverRelations(db, true), 5, fails);
    calls, warnings := Attempt(plan, calls, warnings, RunEvaluateRelations(db), 6, fails);
    assert plan[..7] == plan;
  }

  /** `if result is None: result = EvalResult()`: the evaluation's result, or an empty one when the
      evaluation stage raised and `result` stayed None. */
  method EvaluationOutcome(evaluateFailed: bool, evaluated: Evaluate.EvalResult)
    returns (result: Evaluate.EvalResult)
    ensures !evaluateFailed ==> result == evaluated
    ensures evaluateFailed ==>
              fresh(result) && result.totalRelations == 0 && result.Snapshot() == Evaluate.NoCounts
  {
    if evaluateFailed {
      result := new Evaluate.EvalResult(0);
    } else {
      result := evaluated;
    }
  }
}
