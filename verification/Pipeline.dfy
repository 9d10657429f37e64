/**
 A pipeline run: training, export and evaluation in this order, each stopping the run when it fails
 or is cancelled, then packaging behind the trust gate. The three adapters, what their commands do
 and what the cancel check answers are arbitrary; a stage may raise.
 */
module Pipeline {
  import opened Prelude
  import opened JsonValues
  import opened ArtifactNames
  import opened TaskAdapter
  import ExternalCommand
  import TrustGate
  import ModelCard
  import CardBuilder

  /** The adapter of each stage, or None when none is registered and looking it up raises. */
  datatype Adapters = Adapters(training: Option<Adapter>, exporting: Option<Adapter>, evaluation: Option<Adapter>)

  /** A stage that raises leaves these files behind, having asked the cancel check this often. */
  datatype Raise = Raise(files: Files, asks: nat)

  /** The commands of a run, and the stages that raise where the stage itself has no reason to. */
  datatype Runs = Runs(
    preflight: CommandRun,
    training: CommandRun,
    exporting: CommandRun,
    reexport: CommandRun,
    evaluation: CommandRun,
    trainingRaises: Option<Raise>,
    exportRaises: Option<Raise>,
    evaluationRaises: Option<Raise>)

  /** What packaging asks of its surroundings besides the files. */
  datatype Packaging = Packaging(
    env: CardBuilder.Surroundings, ws: TrustGate.Workspace, destination: string -> string, sidecarsOk: bool)

  datatype Event = Event(stage: string, message: string)

  /** The payloads of the stages that were reached. */
  datatype Payloads = Payloads(training: Option<Json>, exporting: Option<Json>, evaluation: Option<Json>)

  datatype PipelineReport = PipelineReport(status: Status, stoppedAt: string, payloads: Payloads, package: Option<Json>)

  function StatusText(s: Status): string {
    match s
    case Completed => "completed"
    case Failed => "failed"
    case Cancelled => "cancelled"
  }

  /** A result as a report shows it. */
  function ToDict(r: AdapterResult): Json
    requires IsPayload(r.payload)
  {
    JObj(map["status" := JStr(StatusText(r.status)), "path" := JStr(r.path)] + r.payload.fields)
  }

  lemma DictShowsResult(r: AdapterResult)
    requires IsPayload(r.payload)
    ensures Get(ToDict(r), "status") == JStr(StatusText(r.status))
    ensures forall key :: key != "status" && key != "path" ==> Get(ToDict(r), key) == Get(r.payload, key)
  {}

  /** A stage that raises counts as a failed one. */
  function Safely(configPath: string, r: Option<AdapterResult>): (result: AdapterResult)
    ensures r.Some? ==> result == r.value
    ensures r.None? ==> result.status.Failed? && IsPayload(result.payload)
  {
    match r
    case Some(result) => result
    case None => AdapterResult(Failed, StageRaised, configPath, JObj(map["error" := JStr("raised")]))
  }

  ghost predicate ClocksAdvance(runs: Runs) {
    && ExternalCommand.ClockAdvances(runs.preflight.world) && ExternalCommand.ClockAdvances(runs.training.world)
    && ExternalCommand.ClockAdvances(runs.exporting.world) && ExternalCommand.ClockAdvances(runs.reexport.world)
    && ExternalCommand.ClockAdvances(runs.evaluation.world)
  }

  // ----- packaging -----

  /** The last component of a path. */
  function FileName(path: string): string {
    if path != "" && path[|path| - 1] != '/' then FileName(path[..|path| - 1]) + [path[|path| - 1]] else ""
  }

  function LabelsName(onnx: string): string {
    Stem(FileName(onnx)) + ".labels.txt"
  }

  function StagesOf(payloads: Payloads): TrustGate.Stages {
    TrustGate.Stages(OrEmpty(payloads.training), OrEmpty(payloads.exporting), OrEmpty(payloads.evaluation))
  }

  function OrEmpty(payload: Option<Json>): Json {
    if payload.Some? then payload.value else JObj(map[])
  }

  function CardOptionsFor(m: Machine, config: Json, onnx: string, digest: string): ModelCard.CardOptions {
    ModelCard.CardOptions(FileName(onnx), digest, true, TrustGate.PackageProfile(m.py, config) == "production")
  }

  function BuiltCard(
    m: Machine, p: Packaging, config: Json, stages: TrustGate.Stages, onnx: string): (card: Option<Json>)
    ensures card.Some? ==> card.value.JObj? && Section(card.value, "model").JObj?
  {
    CardBuilder.BuildModelCard(m.py, p.env, config, stages, FileName(onnx), LabelsName(onnx))
  }

  /** Reading the configuration for the package raises otherwise. */
  predicate IsPackageable(m: Machine, p: Packaging, config: Json) {
    var examples := Get(TrustGate.Package(config), "examples_dir");
    && Section(config, "experiment").JObj? && Section(config, "package").JObj? && Section(config, "model").JObj?
    && (Truthy(Get(Section(config, "experiment"), "task")) || Section(config, "dataset").JObj?)
    && (Truthy(examples) ==> p.ws.directory(Str(m.py, examples)).DirectoryFound?)
  }

  /** The built card is valid for the file that is packaged. */
  ghost predicate CardFits(m: Machine, config: Json, card: Option<Json>, files: Files, onnx: string) {
    && onnx in files && card.Some? && card.value.JObj? && Section(card.value, "model").JObj?
    && ModelCard.IsClean(m.py, CardBuilder.FillSha256(card.value, files[onnx].sha256),
           CardOptionsFor(m, config, onnx, files[onnx].sha256))
  }

  /**
   Exactly when packaging succeeds: the gate is passed, the card can be built, and it is valid for
   the copied file.
   */
  ghost predicate CanPackage(
    m: Machine, p: Packaging, config: Json, stages: TrustGate.Stages, files: Files, onnx: string)
  {
    && IsPackageable(m, p, config) && TrustGate.Passes(m.py, config, stages, p.ws)
    && CardFits(m, config, BuiltCard(m, p, config, stages, onnx), files, onnx) && p.sidecarsOk
  }

  /** The file is copied before it is hashed, and the hash is not taken from the cache. */
  method WritePackage(m: Machine, p: Packaging, config: Json, card: Json, host: Host, onnx: string) returns (ok: bool)
    requires card.JObj? && Section(card, "model").JObj? && onnx in host.files
    modifies host`files
    ensures ok <==> CardFits(m, config, Some(card), old(host.files), onnx)
    ensures host.files == old(host.files)[p.destination(FileName(onnx)) := old(host.files)[onnx]]
  {
    var destination := p.destination(FileName(onnx));
    host.files := host.files[destination := host.files[onnx]];
    var digest := host.files[destination].sha256;
    var issues;
    ok, issues := ModelCard.ValidateModelCard(m.py, Some(CardBuilder.FillSha256(card, digest)),
        CardOptionsFor(m, config, onnx, digest));
  }

  method CreatePackage(m: Machine, p: Packaging, config: Json, stages: TrustGate.Stages, host: Host, onnx: string)
    returns (r: Option<Json>)
    modifies host`files
    ensures r.Some? <==> CanPackage(m, p, config, stages, old(host.files), onnx)
    ensures r.Some? ==>
              onnx in old(host.files)
                && host.files == old(host.files)[p.destination(FileName(onnx)) := old(host.files)[onnx]]
  {
    if !IsPackageable(m, p, config) {
      return None;
    }
    var profile, issues := TrustGate.ValidatePackageTrust(m.py, config, stages, p.ws);
    if issues != [] {
      return None;
    }
    var card := BuiltCard(m, p, config, stages, onnx);
    if card.None? || onnx !in host.files {
      return None;
    }
    var ok := WritePackage(m, p, config, card.value, host, onnx);
    if !ok || !p.sidecarsOk {
      return None;
    }
    return Some(JObj(map["artifact_name" := JStr(FileName(onnx)), "profile" := JStr(profile)]));
  }

  // ----- the run -----

  /** What each stage announces: that it started, and how it ended. */
  function StageEvents(stage: string, payload: Option<Json>): seq<Event> {
    if payload.None? then [] else [Event(stage, "started"), Event(stage, StatusOf(payload.value))]
  }

  function StatusOf(payload: Json): string {
    if Get(payload, "status").JStr? then Get(payload, "status").s else ""
  }

  predicate CompletedStage(payload: Option<Json>) {
    payload.Some? && StatusOf(payload.value) == "completed"
  }

  /** The three stages: how and where they ended, and the model that the export hands on. */
  datatype StagesRun = StagesRun(status: Status, stoppedAt: string, payloads: Payloads, onnx: string)

  predicate TrustedAdapters(adapters: Adapters) {
    && adapters.training.Some? && adapters.training.value.requiresExternal
    && adapters.exporting.Some? && adapters.exporting.value.requiresExternal
    && adapters.evaluation.Some? && adapters.evaluation.value.requiresExternal
  }

  /** A run of the three stages that was not stopped: what each of them has to show. */
  predicate StagesShown(
    m: Machine, adapters: Adapters, config: Json, runs: Runs, f0: Files, f1: Files, f2: Files, f3: Files,
    run: StagesRun)
  {
    && adapters.training.Some? && CompletedStage(run.payloads.training)
    && TrainingShown(m, adapters.training.value, config, f0, f1, run.payloads.training.value)
    && DeliveryShown(m, adapters, config, runs, f1, f2, f3, run)
  }

  predicate DeliveryShown(
    m: Machine, adapters: Adapters, config: Json, runs: Runs, f1: Files, f2: Files, f3: Files, run: StagesRun)
  {
    && adapters.exporting.Some? && adapters.evaluation.Some?
    && CompletedStage(run.payloads.exporting) && CompletedStage(run.payloads.evaluation)
    && ExportShown(m, adapters.exporting.value, config, f1, f2, run.payloads.exporting.value)
    && EvaluationShown(m, adapters.evaluation.value, config, f2, f3, run.payloads.evaluation.value)
    && run.onnx == OutputPath(m, adapters.exporting.value, config)
    && f3 == EvaluatedFiles(config, runs.evaluation, f2)
  }

  /** No stage after one that did not complete. */
  predicate StopsAtFirst(run: StagesRun) {
    && (run.payloads.exporting.Some? ==> CompletedStage(run.payloads.training))
    && (run.payloads.evaluation.Some? ==> CompletedStage(run.payloads.exporting))
    && (run.status.Completed? <==> CompletedStage(run.payloads.evaluation) && run.stoppedAt == "")
    && (run.status.Failed? ==> StoppedIn(run, "failed"))
  }

  /** The stage at which the run stopped is the last one reached, and it ended this way. */
  predicate StoppedIn(run: StagesRun, status: string) {
    var last :=
      if run.payloads.evaluation.Some? then ("evaluation", run.payloads.evaluation)
      else if run.payloads.exporting.Some? then ("export", run.payloads.exporting)
      else ("training", run.payloads.training);
    last.1.Some? && run.stoppedAt == last.0 && StatusOf(last.1.value) == status
  }

  function RunEvents(payloads: Payloads): seq<Event> {
    if payloads.training.None? then [Event("job", "cancelled before training")]
    else
      StageEvents("training", payloads.training)
      + StageEvents("export", payloads.exporting)
      + StageEvents("evaluation", payloads.evaluation)
  }

  /** What a stage left behind does not depend on how its report is put together. */
  lemma DictShowsTraining(m: Machine, a: Adapter, config: Json, before: Files, after: Files, r: AdapterResult)
    requires IsPayload(r.payload) && TrainingShown(m, a, config, before, after, r.payload)
    ensures TrainingShown(m, a, config, before, after, ToDict(r))
  {
    DictShowsResult(r);
  }

  lemma DictShowsExport(m: Machine, a: Adapter, config: Json, before: Files, after: Files, r: AdapterResult)
    requires IsPayload(r.payload) && ExportShown(m, a, config, before, after, r.payload)
    ensures ExportShown(m, a, config, before, after, ToDict(r))
  {
    DictShowsResult(r);
  }

  lemma DictShowsEvaluation(m: Machine, a: Adapter, config: Json, before: Files, after: Files, r: AdapterResult)
    requires IsPayload(r.payload) && EvaluationShown(m, a, config, before, after, r.payload)
    ensures EvaluationShown(m, a, config, before, after, ToDict(r))
  {
    DictShowsResult(r);
  }

  method RaiseIn(host: Host, raised: Raise)
    modifies host
    ensures host.files == raised.files && host.asked == old(host.asked) + raised.asks
  {
    host.files, host.asked := raised.files, host.asked + raised.asks;
  }

  /** The three stages of a run that nothing stands in the way of. */
  ghost predicate TrainingStageWillComplete(
    m: Machine, adapters: Adapters, config: Json, runs: Runs, answers: nat -> bool, files: Files)
  {
    && adapters.training.Some? && runs.trainingRaises.None?
    && TrainingWillComplete(m, adapters.training.value, config, runs.preflight, runs.training, answers, files)
  }

  function FilesAfterTraining(config: Json, runs: Runs, files: Files): Files {
    runs.training.effect(AfterPreflight(PreflightCommand(config), runs.preflight, files))
  }

  ghost predicate ExportStageWillComplete(
    m: Machine, adapters: Adapters, config: Json, runs: Runs, answers: nat -> bool, files: Files)
  {
    && adapters.exporting.Some? && runs.exportRaises.None?
    && ExportWillComplete(m, adapters.exporting.value, config, runs.exporting, answers, files)
  }

  function FilesAfterExport(m: Machine, adapters: Adapters, config: Json, runs: Runs, files: Files): Files {
    if adapters.exporting.None? then files
    else ExportedFiles(m, adapters.exporting.value, config, runs.exporting.effect(files))
  }

  ghost predicate EvaluationStageWillComplete(
    m: Machine, adapters: Adapters, config: Json, onnx: string, runs: Runs, answers: nat -> bool, files: Files)
  {
    && adapters.evaluation.Some? && runs.evaluationRaises.None?
    && EvaluationWillComplete(m, adapters.evaluation.value, config, onnx, runs.evaluation, answers, files)
  }

  method TrainingStage(m: Machine, adapters: Adapters, host: Host, config: Json, runs: Runs)
    returns (r: AdapterResult, dict: Json)
    requires ClocksAdvance(runs) && m.logLimit >= 1
    modifies host
    ensures host.asked >= old(host.asked) && StatusOf(dict) == StatusText(r.status)
    ensures r.status.Completed? ==>
              && Quiet(host.answers, old(host.asked), host.asked) && adapters.training.Some?
              && TrainingShown(m, adapters.training.value, config, old(host.files), host.files, dict)
    ensures r.status.Cancelled? ==> !Quiet(host.answers, old(host.asked), host.asked)
    ensures TrainingStageWillComplete(m, adapters, config, runs, host.answers, old(host.files)) ==>
              r.status.Completed? && host.files == FilesAfterTraining(config, runs, old(host.files))
  {
    var result := None;
    if runs.trainingRaises.Some? {
      RaiseIn(host, runs.trainingRaises.value);
    } else if adapters.training.Some? {
      result := Train(m, adapters.training.value, host, config, runs.preflight, runs.training);
    }
    r := Safely(m.configPath, result);
    dict := ToDict(r);
    DictShowsResult(r);
    if r.status.Completed? {
      DictShowsTraining(m, adapters.training.value, config, old(host.files), host.files, r);
    }
  }

  method ExportStage(m: Machine, adapters: Adapters, host: Host, config: Json, runs: Runs)
    returns (r: AdapterResult, dict: Json)
    requires ClocksAdvance(runs) && m.logLimit >= 1
    modifies host
    ensures host.asked >= old(host.asked) && StatusOf(dict) == StatusText(r.status)
    ensures r.status.Completed? ==>
              && Quiet(host.answers, old(host.asked), host.asked) && adapters.exporting.Some?
              && ExportShown(m, adapters.exporting.value, config, old(host.files), host.files, dict)
    ensures r.status.Cancelled? ==> !Quiet(host.answers, old(host.asked), host.asked)
    ensures ExportStageWillComplete(m, adapters, config, runs, host.answers, old(host.files)) ==>
              r.status.Completed?
                && host.files == FilesAfterExport(m, adapters, config, runs, old(host.files))
  {
    var result := None;
    if runs.exportRaises.Some? {
      RaiseIn(host, runs.exportRaises.value);
    } else if adapters.exporting.Some? {
      result := Export(m, adapters.exporting.value, host, config, runs.exporting);
    }
    r := Safely(m.configPath, result);
    dict := ToDict(r);
    DictShowsResult(r);
    if r.status.Completed? {
      DictShowsExport(m, adapters.exporting.value, config, old(host.files), host.files, r);
    }
  }

  method EvaluationStage(m: Machine, adapters: Adapters, host: Host, config: Json, onnx: string, runs: Runs)
    returns (r: AdapterResult, dict: Json)
    requires ClocksAdvance(runs) && m.logLimit >= 1
    modifies host
    ensures host.asked >= old(host.asked) && StatusOf(dict) == StatusText(r.status)
    ensures r.status.Completed? ==>
              && Quiet(host.answers, old(host.asked), host.asked) && adapters.evaluation.Some?
              && EvaluationShown(m, adapters.evaluation.value, config, old(host.files), host.files, dict)
              && (onnx in old(host.files) ==> host.files == EvaluatedFiles(config, runs.evaluation, old(host.files)))
    ensures r.status.Cancelled? ==> !Quiet(host.answers, old(host.asked), host.asked)
    ensures EvaluationStageWillComplete(m, adapters, config, onnx, runs, host.answers, old(host.files)) ==>
              r.status.Completed?
  {
    var result := None;
    if runs.evaluationRaises.Some? {
      RaiseIn(host, runs.evaluationRaises.value);
    } else if adapters.evaluation.Some? {
      result := Evaluate(m, adapters.evaluation.value, host, config, Some(onnx), runs.reexport, runs.evaluation);
    }
    r := Safely(m.configPath, result);
    dict := ToDict(r);
    DictShowsResult(r);
    if r.status.Completed? {
      DictShowsEvaluation(m, adapters.evaluation.value, config, old(host.files), host.files, r);
    }
  }

  /** The path that the export hands on: the model it names, or else the path of its result. */
  function OnnxPath(r: AdapterResult, dict: Json): string {
    if Get(dict, "onnx").JStr? && Get(dict, "onnx").s != "" then Get(dict, "onnx").s else r.path
  }

  /** A stage completed and nobody asked for cancellation: the run goes on. */
  method StageEnds(host: Host, stage: string, status: Status, payloads: Payloads) returns (stopped: Option<StagesRun>)
    modifies host`asked
    ensures host.asked >= old(host.asked)
    ensures status.Completed? && NobodyCancels(host.answers) ==> stopped.None?
    ensures stopped.None? ==> status.Completed? && Quiet(host.answers, old(host.asked), host.asked)
    ensures stopped.Some? ==>
              stopped.value == StagesRun(stopped.value.status, stage, payloads, "") && !stopped.value.status.Completed?
    ensures stopped.Some? && stopped.value.status.Failed? ==> status.Failed?
    ensures stopped.Some? && stopped.value.status.Cancelled? ==>
              status.Cancelled? || !Quiet(host.answers, old(host.asked), host.asked)
  {
    if !status.Completed? {
      return Some(StagesRun(status, stage, payloads, ""));
    }
    var cancelled := host.ShouldCancel();
    stopped := if cancelled then Some(StagesRun(Cancelled, stage, payloads, "")) else None;
  }

  ghost predicate DeliveryWillComplete(
    m: Machine, adapters: Adapters, config: Json, runs: Runs, answers: nat -> bool, f1: Files)
  {
    && NobodyCancels(answers) && ExportStageWillComplete(m, adapters, config, runs, answers, f1)
    && EvaluationStageWillComplete(m, adapters, config, OutputPath(m, adapters.exporting.value, config), runs, answers,
                                   FilesAfterExport(m, adapters, config, runs, f1))
  }

  /** A run that will complete its three stages. */
  ghost predicate StagesWillComplete(
    m: Machine, adapters: Adapters, config: Json, runs: Runs, answers: nat -> bool, f0: Files)
  {
    && TrainingStageWillComplete(m, adapters, config, runs, answers, f0)
    && DeliveryWillComplete(m, adapters, config, runs, answers, FilesAfterTraining(config, runs, f0))
  }

  lemma TrainingIsAnnounced(payloads: Payloads, training: Json)
    requires payloads.training == Some(training)
    ensures RunEvents(payloads) ==
              [Event("training", "started")] + [Event("training", StatusOf(training))]
              + (StageEvents("export", payloads.exporting) + StageEvents("evaluation", payloads.evaluation))
  {}

  /**
   Training, export and evaluation, up to the first that does not complete; `f1` and `f2` are the
   files in between.
   */
  method RunStages(m: Machine, adapters: Adapters, host: Host, config: Json, runs: Runs)
    returns (run: StagesRun, events: seq<Event>, ghost f1: Files, ghost f2: Files)
    requires ClocksAdvance(runs) && m.logLimit >= 1
    modifies host
    ensures host.asked >= old(host.asked)
    ensures StopsAtFirst(run) && events == RunEvents(run.payloads)
    ensures run.status.Completed? ==>
              Quiet(host.answers, old(host.asked), host.asked)
                && StagesShown(m, adapters, config, runs, old(host.files), f1, f2, host.files, run)
    ensures run.status.Cancelled? ==> !Quiet(host.answers, old(host.asked), host.asked)
    ensures StagesWillComplete(m, adapters, config, runs, host.answers, old(host.files)) ==>
              && run.status.Completed? && f1 == FilesAfterTraining(config, runs, old(host.files))
              && f2 == FilesAfterExport(m, adapters, config, runs, f1)
  {
    f1, f2 := host.files, host.files;
    var cancelled := host.ShouldCancel();
    if cancelled {
      return StagesRun(Cancelled, "training", Payloads(None, None, None), ""),
        [Event("job", "cancelled before training")], f1, f2;
    }
    events := [Event("training", "started")];
    var training, dict := TrainingStage(m, adapters, host, config, runs);
    f1 := host.files;
    events := events + [Event("training", StatusOf(dict))];
    var stopped := StageEnds(host, "training", training.status, Payloads(Some(dict), None, None));
    if stopped.Some? {
      TrainingIsAnnounced(stopped.value.payloads, dict);
      return stopped.value, events, f1, f2;
    }
    var later;
    run, later, f2 := RunAfterTraining(m, adapters, host, config, runs, dict);
    TrainingIsAnnounced(run.payloads, dict);
    events := events + later;
  }

  method LastStage(
    m: Machine, adapters: Adapters, host: Host, config: Json, onnx: string, runs: Runs, payloads: Payloads)
    returns (run: StagesRun, events: seq<Event>)
    requires ClocksAdvance(runs) && m.logLimit >= 1
    requires CompletedStage(payloads.training) && CompletedStage(payloads.exporting)
    modifies host
    ensures host.asked >= old(host.asked)
    ensures run.payloads == payloads.(evaluation := run.payloads.evaluation) && run.payloads.evaluation.Some?
    ensures StopsAtFirst(run) && events == StageEvents("evaluation", run.payloads.evaluation)
    ensures run.status.Completed? ==>
              && Quiet(host.answers, old(host.asked), host.asked) && adapters.evaluation.Some? && run.onnx == onnx
              && EvaluationShown(m, adapters.evaluation.value, config, old(host.files), host.files,
                                 run.payloads.evaluation.value)
              && (onnx in old(host.files) ==> host.files == EvaluatedFiles(config, runs.evaluation, old(host.files)))
    ensures run.status.Cancelled? ==> !Quiet(host.answers, old(host.asked), host.asked)
    ensures EvaluationStageWillComplete(m, adapters, config, onnx, runs, host.answers, old(host.files)) ==>
              run.status.Completed?
  {
    var evaluation, dict := EvaluationStage(m, adapters, host, config, onnx, runs);
    events := [Event("evaluation", "started"), Event("evaluation", StatusOf(dict))];
    run := StagesRun(
      evaluation.status, if evaluation.status.Completed? then "" else "evaluation",
      payloads.(evaluation := Some(dict)), onnx);
  }

  method RunAfterTraining(m: Machine, adapters: Adapters, host: Host, config: Json, runs: Runs, training: Json)
    returns (run: StagesRun, events: seq<Event>, ghost f2: Files)
    requires ClocksAdvance(runs) && m.logLimit >= 1 && StatusOf(training) == "completed"
    modifies host
    ensures host.asked >= old(host.asked)
    ensures StopsAtFirst(run) && run.payloads.training == Some(training)
    ensures events == StageEvents("export", run.payloads.exporting) + StageEvents("evaluation", run.payloads.evaluation)
    ensures run.status.Completed? ==>
              && Quiet(host.answers, old(host.asked), host.asked)
                   && DeliveryShown(m, adapters, config, runs, old(host.files), f2, host.files, run)
    ensures run.status.Cancelled? ==> !Quiet(host.answers, old(host.asked), host.asked)
    ensures run.payloads.exporting.Some?
    ensures DeliveryWillComplete(m, adapters, config, runs, host.answers, old(host.files)) ==>
              run.status.Completed?
                && f2 == FilesAfterExport(m, adapters, config, runs, old(host.files))
  {
    events := [Event("export", "started")];
    var exporting, dict := ExportStage(m, adapters, host, config, runs);
    f2 := host.files;
    events := events + [Event("export", StatusOf(dict))];
    var payloads := Payloads(Some(training), Some(dict), None);
    var stopped := StageEnds(host, "export", exporting.status, payloads);
    if stopped.Some? {
      return stopped.value, events, f2;
    }
    var later;
    run, later := LastStage(m, adapters, host, config, OnnxPath(exporting, dict), runs, payloads);
    events := events + later;
  }

  /** The status over all stages: one that was cancelled outweighs one that failed. */
  function PipelineStatus(payloads: seq<Json>): Status {
    if exists k :: 0 <= k < |payloads| && StatusOf(payloads[k]) == "cancelled" then Cancelled
    else if exists k :: 0 <= k < |payloads| && StatusOf(payloads[k]) == "failed" then Failed
    else Completed
  }

  function PackageEvents(report: PipelineReport): seq<Event> {
    if report.package.Some? then [Event("package", "started"), Event("package", "completed")]
    else if report.stoppedAt == "package" && report.status.Failed? then
      [Event("package", "started"), Event("package", "failed")]
    else []
  }

  lemma CompletedStagesCompleteTheRun(payloads: Payloads)
    requires CompletedStage(payloads.training) && CompletedStage(payloads.exporting)
              && CompletedStage(payloads.evaluation)
    ensures PipelineStatus([payloads.training.value, payloads.exporting.value, payloads.evaluation.value]).Completed?
  {}

  /** The package of a completed run, unless cancellation is asked for at the last moment. */
  method PackageRun(m: Machine, host: Host, config: Json, p: Packaging, payloads: Payloads, onnx: string)
    returns (report: PipelineReport, events: seq<Event>)
    modifies host
    ensures host.asked == old(host.asked) + 1
    ensures report.payloads == payloads && events == PackageEvents(report)
    ensures report.status.Cancelled? <==> !Quiet(host.answers, old(host.asked), host.asked)
    ensures report.package.Some? <==> report.status.Completed?
    ensures report.package.Some? ==> CanPackage(m, p, config, StagesOf(payloads), old(host.files), onnx)
    ensures report.package.Some? ==>
              onnx in old(host.files)
                && host.files == old(host.files)[p.destination(FileName(onnx)) := old(host.files)[onnx]]
    ensures report.status.Failed? ==>
              report.stoppedAt == "package" && !CanPackage(m, p, config, StagesOf(payloads), old(host.files), onnx)
  {
    var cancelled := host.ShouldCancel();
    if cancelled {
      return PipelineReport(Cancelled, "package", payloads, None), [];
    }
    events := [Event("package", "started")];
    var created := CreatePackage(m, p, config, StagesOf(payloads), host, onnx);
    if created.None? {
      return PipelineReport(Failed, "package", payloads, None), events + [Event("package", "failed")];
    }
    return PipelineReport(Completed, "", payloads, created), events + [Event("package", "completed")];
  }

  /**
   What follows three completed stages: the package, if it is wanted, and the report. The status over
   all stages is completed then, so that nothing else is ever packaged.
   */
  method Conclude(m: Machine, host: Host, config: Json, package: bool, p: Packaging, run: StagesRun)
    returns (report: PipelineReport, events: seq<Event>)
    requires CompletedStage(run.payloads.training) && CompletedStage(run.payloads.exporting)
              && CompletedStage(run.payloads.evaluation)
    modifies host
    ensures host.asked >= old(host.asked)
    ensures report.payloads == run.payloads && events == PackageEvents(report)
    ensures report.status.Cancelled? ==> !Quiet(host.answers, old(host.asked), host.asked)
    ensures report.status.Completed? ==> Quiet(host.answers, old(host.asked), host.asked)
    ensures report.package.Some? <==> report.status.Completed? && package
    ensures report.package.Some? ==>
              && CanPackage(m, p, config, StagesOf(run.payloads), old(host.files), run.onnx)
              && run.onnx in old(host.files)
              && host.files == old(host.files)[p.destination(FileName(run.onnx)) := old(host.files)[run.onnx]]
    ensures report.status.Failed? ==>
              package && report.stoppedAt == "package"
                && !CanPackage(m, p, config, StagesOf(run.payloads), old(host.files), run.onnx)
  {
    if package {
      report, events := PackageRun(m, host, config, p, run.payloads, run.onnx);
    } else {
      var payloads := run.payloads;
      CompletedStagesCompleteTheRun(payloads);
      report := PipelineReport(
        PipelineStatus([payloads.training.value, payloads.exporting.value, payloads.evaluation.value]),
        "", payloads, None);
      events := [];
    }
  }

  /** One run, with the files before it, after each stage and before packaging. */
  method RunUnlocked(m: Machine, adapters: Adapters, host: Host, config: Json, runs: Runs, package: bool, p: Packaging)
    returns (report: PipelineReport, events: seq<Event>, ghost run: StagesRun, ghost f1: Files, ghost f2: Files,
        ghost f3: Files)
    requires ClocksAdvance(runs) && m.logLimit >= 1
    modifies host
    ensures StopsAtFirst(run) && report.payloads == run.payloads
              && (!run.status.Completed? ==> report.status == run.status)
    ensures events == RunEvents(report.payloads) + PackageEvents(report)
    ensures report.status.Cancelled? ==> !Quiet(host.answers, old(host.asked), host.asked)
    ensures report.status.Completed? ==> Quiet(host.answers, old(host.asked), host.asked) && run.status.Completed?
    ensures StagesWillComplete(m, adapters, config, runs, host.answers, old(host.files)) ==>
              && run.status.Completed? && f1 == FilesAfterTraining(config, runs, old(host.files))
              && f2 == FilesAfterExport(m, adapters, config, runs, f1)
    ensures run.status.Completed? ==> StagesShown(m, adapters, config, runs, old(host.files), f1, f2, f3, run)
    ensures report.package.Some? <==> report.status.Completed? && package
    ensures report.package.Some? ==>
              && CanPackage(m, p, config, StagesOf(run.payloads), f3, run.onnx) && run.onnx in f3
              && host.files == f3[p.destination(FileName(run.onnx)) := f3[run.onnx]]
    ensures report.status.Failed? && run.status.Completed? ==>
              package && report.stoppedAt == "package"
                && !CanPackage(m, p, config, StagesOf(run.payloads), f3, run.onnx)
  {
    var stages;
    stages, events, f1, f2 := RunStages(m, adapters, host, config, runs);
    run, f3 := stages, host.files;
    if !stages.status.Completed? {
      return PipelineReport(stages.status, stages.stoppedAt, stages.payloads, None), events, run, f1, f2, f3;
    }
    var packaged;
    report, packaged := Conclude(m, host, config, package, p, stages);
    events := events + packaged;
  }

  // ----- the evidence behind a delivered package -----

  /** Each stage's artifact was made in that stage, and the exported model is the one the command produced. */
  predicate ArtifactsFresh(m: Machine, config: Json, f0: Files, f1: Files, f2: Files, f3: Files, run: StagesRun) {
    var checkpoint, produced, metrics := CheckpointPath(m, config), ProducedOnnx(m, config), MetricsPath(m, config);
    && checkpoint.At? && produced.At? && metrics.At? && run.payloads.training.Some?
    && ShowsFresh(f0, f1, checkpoint.path, Get(run.payloads.training.value, "checkpoint"))
    && Renewed(f1, f2, produced.path)
    && run.onnx in f2 && f2[run.onnx] == f2[produced.path]
    && Renewed(f2, f3, metrics.path)
  }

  /** The metrics in the file that the evaluation command wrote meet every configured threshold. */
  predicate ThresholdsMet(m: Machine, config: Json, f3: Files) {
    var metrics, thresholds := MetricsPath(m, config), TrustGate.Thresholds(config);
    && TrustGate.HasThresholds(config) && metrics.At? && MeasuredMetrics(m, f3, metrics.path).Some?
    && forall name :: name in thresholds.fields ==>
         AtLeast(Get(JObj(MeasuredMetrics(m, f3, metrics.path).value), name), Get(thresholds, name))
  }

  lemma TrustedStagesAreFresh(
    m: Machine, adapters: Adapters, config: Json, runs: Runs, f0: Files, f1: Files, f2: Files, f3: Files,
    run: StagesRun)
    requires TrustedAdapters(adapters) && StagesShown(m, adapters, config, runs, f0, f1, f2, f3, run)
    ensures ArtifactsFresh(m, config, f0, f1, f2, f3, run)
  {}

  lemma MeasuredThresholdsAreMet(
    m: Machine, adapters: Adapters, config: Json, f2: Files, f3: Files, payloads: Payloads, p: Packaging)
    requires TrustedAdapters(adapters) && payloads.evaluation.Some?
    requires EvaluationShown(m, adapters.evaluation.value, config, f2, f3, payloads.evaluation.value)
    requires TrustGate.PackageProfile(m.py, config) == "production"
              && TrustGate.Passes(m.py, config, StagesOf(payloads), p.ws)
    ensures ThresholdsMet(m, config, f3)
  {
    TrustGate.PassedGateMeetsThresholds(m.py, config, StagesOf(payloads), p.ws);
  }

  /** Under the production profile a card fits exactly if it was ready before it was built. */
  lemma PackagingExact(m: Machine, p: Packaging, config: Json, stages: TrustGate.Stages, files: Files, onnx: string)
    requires TrustGate.PackageProfile(m.py, config) == "production"
    ensures CanPackage(m, p, config, stages, files, onnx) <==>
              (&& IsPackageable(m, p, config) && TrustGate.Passes(m.py, config, stages, p.ws) && p.sidecarsOk
                && onnx in files
               && BuiltCard(m, p, config, stages, onnx).Some? && CardBuilder.CardReady(m.py, p.env, config, stages))
  {
    var card := BuiltCard(m, p, config, stages, onnx);
    if TrustGate.Passes(m.py, config, stages, p.ws) && card.Some? && onnx in files {
      CardBuilder.GateThenCard(
        m.py, p.env, config, stages, p.ws, FileName(onnx), LabelsName(onnx), files[onnx].sha256, card.value);
    }
  }

  /** Everything a run announces that delivers a package, in order. */
  function DeliveryEvents(): seq<Event> {
    [Event("training", "started"), Event("training", "completed"),
     Event("export", "started"), Event("export", "completed"),
     Event("evaluation", "started"), Event("evaluation", "completed"),
     Event("package", "started"), Event("package", "completed")]
  }

  lemma DeliveryIsAnnounced(payloads: Payloads, report: PipelineReport)
    requires CompletedStage(payloads.training) && CompletedStage(payloads.exporting)
              && CompletedStage(payloads.evaluation)
    requires report.package.Some?
    ensures RunEvents(payloads) + PackageEvents(report) == DeliveryEvents()
  {}

  /** What stands behind a package that trusted adapters deliver under the production profile. */
  predicate Evidenced(
    m: Machine, p: Packaging, config: Json, f0: Files, f1: Files, f2: Files, f3: Files, run: StagesRun)
  {
    && CompletedStage(run.payloads.training) && CompletedStage(run.payloads.exporting)
         && CompletedStage(run.payloads.evaluation)
    && ArtifactsFresh(m, config, f0, f1, f2, f3, run) && ThresholdsMet(m, config, f3)
    && CardBuilder.CardReady(m.py, p.env, config, StagesOf(run.payloads))
  }

  lemma DeliveryIsEvidenced(
    m: Machine, adapters: Adapters, p: Packaging, config: Json, runs: Runs, f0: Files, f1: Files, f2: Files,
    f3: Files, run: StagesRun)
    requires TrustedAdapters(adapters) && StagesShown(m, adapters, config, runs, f0, f1, f2, f3, run)
    requires TrustGate.PackageProfile(m.py, config) == "production"
              && CanPackage(m, p, config, StagesOf(run.payloads), f3, run.onnx)
    ensures Evidenced(m, p, config, f0, f1, f2, f3, run)
  {
    TrustedStagesAreFresh(m, adapters, config, runs, f0, f1, f2, f3, run);
    MeasuredThresholdsAreMet(m, adapters, config, f2, f3, run.payloads, p);
    PackagingExact(m, p, config, StagesOf(run.payloads), f3, run.onnx);
  }

  /** The digest that the export stage reports for its model. */
  function ExportedDigest(run: StagesRun): Json {
    Get(Get(OrEmpty(run.payloads.exporting), "artifact"), "sha256")
  }

  /** The evaluation command, if there is one, leaves the model with the contents it finds. */
  predicate EvaluationKeeps(config: Json, runs: Runs, files: Files, onnx: string) {
    onnx in files && Truthy(EvaluationCommand(config)) ==>
      onnx in runs.evaluation.effect(files) && runs.evaluation.effect(files)[onnx].sha256 == files[onnx].sha256
  }

  /** Exactly when the model that is there after evaluation is the one that the export stage reported. */
  lemma ReportedModelExact(
    m: Machine, adapters: Adapters, config: Json, runs: Runs, f1: Files, f2: Files, f3: Files, run: StagesRun)
    requires DeliveryShown(m, adapters, config, runs, f1, f2, f3, run) && Truthy(ExportCommand(config))
              && run.onnx in f3
    ensures JStr(f3[run.onnx].sha256) == ExportedDigest(run) <==> EvaluationKeeps(config, runs, f2, run.onnx)
  {
    FingerprintShowsDigest(FingerprintOf(f2, run.onnx).value);
  }

  lemma FingerprintShowsDigest(f: Fingerprint)
    ensures Get(FingerprintJson(f), "sha256") == JStr(f.sha256)
  {}

  /** The whole of a run: a contender that finds the run lock taken gets a failed report and touches nothing. */
  method RunExperimentPipeline(
    m: Machine, adapters: Adapters, host: Host, config: Json, runs: Runs, package: bool, p: Packaging, locked: bool)
    returns (report: PipelineReport, events: seq<Event>, ghost run: StagesRun, ghost f1: Files, ghost f2: Files,
        ghost f3: Files)
    requires ClocksAdvance(runs) && m.logLimit >= 1
    modifies host
    ensures !locked ==>
              && report == PipelineReport(Failed, "job", Payloads(None, None, None), None) && events == []
              && host.files == old(host.files) && host.asked == old(host.asked)
    ensures locked ==>
              && StopsAtFirst(run) && report.payloads == run.payloads
                   && (!run.status.Completed? ==> report.status == run.status)
              && events == RunEvents(report.payloads) + PackageEvents(report)
              && (report.package.Some? <==> report.status.Completed? && package)
              && (report.status.Failed? && run.status.Completed? ==>
                   !CanPackage(m, p, config, StagesOf(run.payloads), f3, run.onnx))
    ensures report.status.Cancelled? ==> !Quiet(host.answers, old(host.asked), host.asked)
    ensures report.status.Completed? ==> Quiet(host.answers, old(host.asked), host.asked)
    ensures report.package.Some? ==>
              && report.status.Completed? && package && events == DeliveryEvents() && report.payloads == run.payloads
              && run.onnx in f3 && host.files == f3[p.destination(FileName(run.onnx)) := f3[run.onnx]]
    ensures report.package.Some? && Truthy(ExportCommand(config)) ==>
              (JStr(f3[run.onnx].sha256) == ExportedDigest(run) <==> EvaluationKeeps(config, runs, f2, run.onnx))
    ensures report.package.Some? && TrustedAdapters(adapters)
              && TrustGate.PackageProfile(m.py, config) == "production" ==>
              Evidenced(m, p, config, old(host.files), f1, f2, f3, run)
    ensures locked && StagesWillComplete(m, adapters, config, runs, host.answers, old(host.files)) ==>
              && run.status.Completed? && f1 == FilesAfterTraining(config, runs, old(host.files))
              && f2 == FilesAfterExport(m, adapters, config, runs, f1)
              && StagesShown(m, adapters, config, runs, old(host.files), f1, f2, f3, run)
  {
    if !locked {
      report, events := PipelineReport(Failed, "job", Payloads(None, None, None), None), [];
      run, f1, f2, f3 := StagesRun(Failed, "job", report.payloads, ""), host.files, host.files, host.files;
      return;
    }
    report, events, run, f1, f2, f3 := RunUnlocked(m, adapters, host, config, runs, package, p);
    if report.package.Some? {
      DeliveryIsAnnounced(run.payloads, report);
      if Truthy(ExportCommand(config)) {
        ReportedModelExact(m, adapters, config, runs, f1, f2, f3, run);
      }
      if TrustedAdapters(adapters) && TrustGate.PackageProfile(m.py, config) == "production" {
        DeliveryIsEvidenced(m, adapters, p, config, runs, old(host.files), f1, f2, f3, run);
      }
    }
  }
}
