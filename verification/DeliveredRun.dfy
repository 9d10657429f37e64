/**
 One whole run, from an empty workspace to a delivered package, whose evaluation command replaces
 the exported model: the package holds the replacement, while the export stage reported another
 digest. And one training stage whose preflight command hears a cancel, and which fails.
 */
module DeliveredRun {
  import opened Prelude
  import opened JsonValues
  import opened ExternalCommand
  import opened TaskAdapter
  import opened Pipeline
  import opened ReadyRun
  import TrustGate
  import CardBuilder

  const ADAPTER := Adapter(true, "m", map[], "f")
  const ADAPTERS := Adapters(Some(ADAPTER), Some(ADAPTER), Some(ADAPTER))

  function Bench(py: Interpreter): Machine {
    Machine(py, path => Some(path), true, _ => true, _ => Some(THRESHOLDS), "p", "x", None, stage => stage, 1, 1)
  }

  /** Every command exits with 0 at once. */
  function Calm(): World {
    World(false, false, false, false, _ => Some(0), _ => false, 0.0, k => k as real / 10.0, [], [])
  }

  const MADE := File(1, 1, "c")

  function Command(effect: Files -> Files): CommandRun {
    CommandRun(Calm(), effect)
  }

  /** Training writes "c", the export "o", and the evaluation "m" and another model in place of the exported one. */
  function Commands(output: string): Runs {
    Runs(Command(files => files), Command(files => files["c" := MADE]), Command(files => files["o" := MADE]),
         Command(files => files), Command(files => files["m" := MADE][output := File(1, 2, "z")]), None, None, None)
  }

  function Delivery(): Packaging {
    Packaging(AtRevision("r"), Tidy(), name => "d/" + name, true)
  }

  function Never(): nat -> bool {
    _ => false
  }

  lemma ClockIsCalm()
    ensures ClockAdvances(Calm()) && forall output :: ClocksAdvance(Commands(output))
  {
    forall k: nat ensures Calm().clock(k) >= Calm().start + k as real / 10.0 {
    }
  }

  lemma CalmCommandSucceeds(m: Machine, command: Json, run: CommandRun)
    requires command.JList? && command.items != [] && run.world == Calm()
    ensures AlwaysSucceeds(m, command, run, Never())
  {
    forall from: nat ensures SucceedsFrom(m, command, run, Never(), from) {
      var w := WorldFrom(run.world, Never(), from);
      assert FirstDecision(w, m.timeout, 0, Exited(0));
    }
  }

  lemma {:induction false} FileNameOf(dir: string, name: string)
    requires '/' !in name
    ensures FileName(dir + "/" + name) == name
    decreases |name|
  {
    var path := dir + "/" + name;
    if name == "" {
      assert path[|path| - 1] == '/';
    } else {
      var init := name[..|name| - 1];
      assert path[..|path| - 1] == dir + "/" + init;
      FileNameOf(dir, init);
      assert name == init + [name[|name| - 1]];
    }
  }

  lemma NameHasNoSlash()
    ensures '/' !in NAME
  {}

  lemma OutputIsNamed(py: Interpreter)
    ensures OutputPath(Bench(py), ADAPTER, CONFIG) == "x" + "/" + NAME && IsNameable(CONFIG)
  {
    ConfigSections();
    assert Get(EXPORT, "artifact_name") == JStr(NAME);
  }

  lemma PathsAreSet(py: Interpreter)
    ensures CheckpointPath(Bench(py), CONFIG) == At("c") && ProducedOnnx(Bench(py), CONFIG) == At("o")
    ensures MetricsPath(Bench(py), CONFIG) == At("m")
  {
    ConfigSections();
    assert Get(TRAINING, "produced_checkpoint") == JStr("c") && Get(EXPORT, "produced_onnx") == JStr("o");
    assert Get(EVALUATION, "produced_metrics") == JStr("m");
  }

  lemma CommandsAreSet()
    ensures TrainingCommand(CONFIG) == JList([JStr("t")]) && PreflightCommand(CONFIG) == JNull
    ensures ExportCommand(CONFIG) == JList([JStr("e")]) && EvaluationCommand(CONFIG) == JList([JStr("v")])
  {
    ConfigSections();
    assert Get(TRAINING, "command") == JList([JStr("t")]) && Get(TRAINING, "preflight_command") == JNull;
    assert Get(EXPORT, "command") == JList([JStr("e")]) && Get(EVALUATION, "command") == JList([JStr("v")]);
  }

  /** What the run needs to know of its configuration. */
  predicate Configured(m: Machine, config: Json, output: string) {
    && IsReadable(config) && IsNameable(config) && Section(config, "training").JObj?
    && CheckpointPath(m, config) == At("c") && ProducedOnnx(m, config) == At("o") && MetricsPath(m, config) == At("m")
    && IsCommand(TrainingCommand(config)) && !Truthy(PreflightCommand(config))
    && IsCommand(ExportCommand(config)) && IsCommand(EvaluationCommand(config))
    && OutputPath(m, ADAPTER, config) == output && |output| > 1
  }

  predicate IsCommand(command: Json) {
    command.JList? && command.items != []
  }

  lemma IsConfigured(py: Interpreter, output: string)
    requires output == "x" + "/" + NAME
    ensures Configured(Bench(py), CONFIG, output)
  {
    ConfigSections();
    CommandsAreSet();
    PathsAreSet(py);
    OutputIsNamed(py);
  }

  /** The files after training and after the export. */
  function F1(): Files {
    map["c" := MADE]
  }

  function F2(output: string): Files {
    map["c" := MADE, "o" := MADE, output := MADE]
  }

  lemma TrainingCompletes(py: Interpreter, config: Json, output: string)
    requires Configured(Bench(py), config, output)
    ensures TrainingStageWillComplete(Bench(py), ADAPTERS, config, Commands(output), Never(), map[])
    ensures FilesAfterTraining(config, Commands(output), map[]) == F1()
  {
    CalmCommandSucceeds(Bench(py), TrainingCommand(config), Commands(output).training);
  }

  lemma ExportCompletes(py: Interpreter, config: Json, output: string)
    requires Configured(Bench(py), config, output)
    ensures ExportStageWillComplete(Bench(py), ADAPTERS, config, Commands(output), Never(), F1())
    ensures FilesAfterExport(Bench(py), ADAPTERS, config, Commands(output), F1()) == F2(output)
  {
    CalmCommandSucceeds(Bench(py), ExportCommand(config), Commands(output).exporting);
  }

  lemma NumbersOfThresholds()
    ensures NumericMetrics(THRESHOLDS) == Some(map["m" := JReal(1.0)])
  {
    assert MetricsIn(THRESHOLDS) == THRESHOLDS;
    var numbers := map k | k in THRESHOLDS.fields
      && IsNumber(THRESHOLDS.fields[k]) :: JReal(Number(THRESHOLDS.fields[k]));
    assert numbers == map["m" := JReal(1.0)];
    assert "m" in numbers;
  }

  lemma EvaluationCompletes(py: Interpreter, config: Json, output: string)
    requires Configured(Bench(py), config, output)
    ensures EvaluationStageWillComplete(Bench(py), ADAPTERS, config, output, Commands(output), Never(), F2(output))
    ensures !EvaluationKeeps(config, Commands(output), F2(output), output)
    ensures var f3 := EvaluatedFiles(config, Commands(output).evaluation, F2(output));
            && MeasuredMetrics(Bench(py), f3, "m") == Some(map["m" := JReal(1.0)])
            && output in f3 && f3[output].sha256 == "z"
  {
    NumbersOfThresholds();
    CalmCommandSucceeds(Bench(py), EvaluationCommand(config), Commands(output).evaluation);
  }

  lemma TrainingIsShown(py: Interpreter, config: Json, output: string, training: Json)
    requires Configured(Bench(py), config, output) && TrainingShown(Bench(py), ADAPTER, config, map[], F1(), training)
    ensures Get(Get(training, "external"), "ok") == JBool(true)
    ensures Get(training, "checkpoint").JObj? && Get(Get(training, "checkpoint"), "sha256") == JStr("c")
  {
    assert Get(training, "checkpoint") == FingerprintJson(Fingerprint("c", 1, 1, "c"));
    FingerprintShowsDigest(Fingerprint("c", 1, 1, "c"));
  }

  lemma EvaluationIsShown(py: Interpreter, config: Json, output: string, f3: Files, evaluation: Json)
    requires Configured(Bench(py), config, output)
              && EvaluationShown(Bench(py), ADAPTER, config, F2(output), f3, evaluation)
    requires MeasuredMetrics(Bench(py), f3, "m") == Some(map["m" := JReal(1.0)])
    ensures Get(evaluation, "metrics_source") == JStr("measured")
              && AtLeast(Get(Get(evaluation, "metrics"), "m"), JInt(1))
  {
    var metrics := JObj(map["m" := JReal(1.0)]);
    assert Get(evaluation, "metrics") == metrics && Get(metrics, "m") == JReal(1.0);
  }

  /** The stages of such a run are what the gate asks for. */
  lemma StagesAreTrustworthy(py: Interpreter, config: Json, output: string, f3: Files, run: StagesRun)
    requires Configured(Bench(py), config, output)
    requires StagesShown(Bench(py), ADAPTERS, config, Commands(output), map[], F1(), F2(output), f3, run)
    requires MeasuredMetrics(Bench(py), f3, "m") == Some(map["m" := JReal(1.0)])
    ensures Trustworthy(StagesOf(run.payloads))
  {
    TrainingIsShown(py, config, output, run.payloads.training.value);
    EvaluationIsShown(py, config, output, f3, run.payloads.evaluation.value);
  }

  /** And they can be packaged. */
  lemma RunIsPackaged(py: Interpreter, output: string, stages: TrustGate.Stages, files: Files)
    requires Trustworthy(stages) && output in files && FileName(output) == NAME
    ensures CanPackage(Bench(py), Delivery(), CONFIG, stages, files, output)
  {
    GatePasses(py, stages);
    ProfileIsProduction(py);
    RevisionIsKnown();
    ReadyExactlyWithRevision(py, "r", stages);
    CardIsBuilt(py, "r", stages, LabelsName(output));
    TextsArePackageable(py);
    PackagingExact(Bench(py), Delivery(), CONFIG, stages, files, output);
  }

  lemma TextsArePackageable(py: Interpreter)
    ensures IsPackageable(Bench(py), Delivery(), CONFIG)
  {
    ConfigSections();
    assert Get(EXPERIMENT, "task") == JStr("m");
  }

  lemma StagesComplete(py: Interpreter, output: string)
    requires Configured(Bench(py), CONFIG, output)
    ensures StagesWillComplete(Bench(py), ADAPTERS, CONFIG, Commands(output), Never(), map[])
  {
    TrainingCompletes(py, CONFIG, output);
    ExportCompletes(py, CONFIG, output);
    EvaluationCompletes(py, CONFIG, output);
  }

  /**
   The run delivers a package. The export stage reports one digest for its model, and the package
   holds a model with another: the evaluation command has replaced it in between.
   */
  method DeliverReplacedModel(py: Interpreter) returns (report: PipelineReport, delivered: string, reported: Json)
    ensures report.status.Completed? && report.package.Some?
    ensures report.payloads.exporting.Some?
              && reported == Get(Get(report.payloads.exporting.value, "artifact"), "sha256")
    ensures delivered == "z" && reported != JStr(delivered)
  {
    var output := "x" + "/" + NAME;
    var host := new Host(map[], Never());
    ClockIsCalm();
    IsConfigured(py, output);
    StagesComplete(py, output);
    ghost var run, f1, f2, f3;
    var events;
    report, events, run, f1, f2, f3 :=
      RunExperimentPipeline(Bench(py), ADAPTERS, host, CONFIG, Commands(output), true, Delivery(), true);
    TrainingCompletes(py, CONFIG, output);
    ExportCompletes(py, CONFIG, output);
    EvaluationCompletes(py, CONFIG, output);
    StagesAreTrustworthy(py, CONFIG, output, f3, run);
    NameHasNoSlash();
    FileNameOf("x", NAME);
    RunIsPackaged(py, output, StagesOf(run.payloads), f3);
    delivered := host.files["d/" + NAME].sha256;
    reported := Get(Get(report.payloads.exporting.value, "artifact"), "sha256");
  }

  // ----- a cancel that the preflight command hears -----

  /** A command that gets as far as its first question, and is told yes there. */
  lemma FirstAnswerIsHeard(m: Machine, command: Json, preflight: CommandRun, answers: nat -> bool, from: nat)
    requires IsCommand(command) && !preflight.world.cwdEscapes && answers(from)
    ensures PreflightHears(m, command, preflight, answers, from)
  {
    assert Refusal(WorldFrom(preflight.world, answers, from), CommandOf(m.py, command)) == Some(CancelledError);
  }

  const PREFLIGHT := JObj(map["command" := JList([JStr("t")]), "preflight_command" := JList([JStr("q")])])

  lemma PreflightIsReached(py: Interpreter, a: Adapter, config: Json, answers: nat -> bool)
    requires config == JObj(map["training" := PREFLIGHT]) && !a.requiresExternal && !answers(0) && answers(1)
    ensures PreflightHearsFirst(Bench(py), a, config, Command(files => files), answers, 0)
  {
    assert Section(config, "training") == PREFLIGHT && Section(config, "experiment") == JObj(map[]);
    assert Get(PREFLIGHT, "command") == JList([JStr("t")]) && Get(PREFLIGHT, "preflight_command") == JList([JStr("q")]);
    FirstAnswerIsHeard(Bench(py), Get(PREFLIGHT, "preflight_command"), Command(files => files), answers, 1);
  }

  /** Whoever asks to cancel while the preflight command runs gets a failed stage, not a cancelled one. */
  method CancelDuringPreflight(py: Interpreter) returns (r: AdapterResult, asked: nat)
    ensures r.status.Failed?
    ensures !Quiet(k => k == 1, 0, asked)
  {
    var config, adapter := JObj(map["training" := PREFLIGHT]), Adapter(false, "m", map[], "f");
    var answers: nat -> bool := k => k == 1;
    var host := new Host(map[], answers);
    ClockIsCalm();
    PreflightIsReached(py, adapter, config, answers);
    var result := Train(Bench(py), adapter, host, config, Command(files => files), Command(files => files));
    r, asked := result.value, host.asked;
  }
}
