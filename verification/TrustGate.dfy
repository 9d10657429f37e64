/**
 The trust gate in front of packaging: it lists everything that keeps a run from being delivered as
 a production package.
 */
module TrustGate {
  import opened Text
  import opened JsonValues

  /** The payloads of the three stages; a stage that left none has an empty object. */
  datatype Stages = Stages(training: Json, exporting: Json, evaluation: Json)

  datatype DirectoryCheck = DirectoryEscapes | DirectoryMissing | DirectoryFound
  datatype ManifestCheck = ManifestEscapes | ManifestMissing | ManifestBad | ManifestGood

  /** What the file system answers about the configured paths. */
  datatype Workspace = Workspace(directory: string -> DirectoryCheck, manifest: (string, string) -> ManifestCheck)

  datatype Issue =
    | UnknownProfile
    | TrainingIncomplete
    | NoExternalTraining
    | NoCheckpoint
    | OnnxNotExternal
    | ExportIncomplete
    | EvaluationIncomplete
    | MetricsNotMeasured
    | NoThresholds
    | MetricMissing(name: string)
    | ThresholdNotNumeric(name: string)
    | BelowThreshold(name: string)
    | NoExamples
    | ExamplesOutside
    | ExamplesMissing
    | NoRealLimitations
    | DatasetNotObject
    | SplitMissing(split: string)
    | SplitOutside(split: string)
    | SplitNotFound(split: string)
    | SplitInvalid(split: string)

  function PackageProfile(py: Interpreter, config: Json): string {
    var package := Section(config, "package");
    if !package.JObj? then "production"
    else Lower(Strip(Str(py, Or(Get(package, "profile"), JStr("production")))))
  }

  /** The package section, empty when it is no object. */
  function Package(config: Json): Json {
    AsObject(Get(config, "package"))
  }

  function Thresholds(config: Json): Json {
    Get(Package(config), "metric_thresholds")
  }

  predicate HasThresholds(config: Json) {
    Thresholds(config).JObj? && Thresholds(config).fields != map[]
  }

  function Metric(stages: Stages, name: string): Json {
    Get(Get(stages.evaluation, "metrics"), name)
  }

  /** The dataset section; a missing one counts as empty. */
  function Dataset(config: Json): Json {
    Section(config, "dataset")
  }

  function Manifest(config: Json, split: string): Json {
    Get(Dataset(config), split + "_manifest")
  }

  predicate TrainingDefect(training: Json, issue: Issue) {
    match issue
    case TrainingIncomplete => Get(training, "status") != JStr("completed")
    case NoExternalTraining => Get(Get(training, "external"), "ok") != JBool(true)
    case NoCheckpoint => !Truthy(Get(Get(training, "checkpoint"), "sha256"))
    case _ => false
  }

  predicate DeliveryDefect(exporting: Json, evaluation: Json, issue: Issue) {
    match issue
    case OnnxNotExternal => Get(exporting, "onnx_source") != JStr("external_command")
    case ExportIncomplete => Get(exporting, "status") != JStr("completed")
    case EvaluationIncomplete => Get(evaluation, "status") != JStr("completed")
    case MetricsNotMeasured => Get(evaluation, "metrics_source") != JStr("measured")
    case _ => false
  }

  predicate MetricDefect(config: Json, stages: Stages, issue: Issue) {
    match issue
    case NoThresholds => !HasThresholds(config)
    case MetricMissing(name) => Limited(config, name) && !IsNumber(Metric(stages, name))
    case ThresholdNotNumeric(name) =>
      Limited(config, name) && IsNumber(Metric(stages, name)) && !IsNumber(Get(Thresholds(config), name))
    case BelowThreshold(name) =>
      && Limited(config, name) && IsNumber(Metric(stages, name)) && IsNumber(Get(Thresholds(config), name))
      && Number(Metric(stages, name)) < Number(Get(Thresholds(config), name))
    case _ => false
  }

  /** A threshold is configured for this metric. */
  predicate Limited(config: Json, name: string) {
    HasThresholds(config) && name in Thresholds(config).fields
  }

  predicate PackageDefect(py: Interpreter, config: Json, ws: Workspace, issue: Issue) {
    var examples, limitations := Get(Package(config), "examples_dir"), Get(Package(config), "limitations");
    match issue
    case NoExamples => !Truthy(examples)
    case ExamplesOutside => Truthy(examples) && ws.directory(Str(py, examples)).DirectoryEscapes?
    case ExamplesMissing => Truthy(examples) && ws.directory(Str(py, examples)).DirectoryMissing?
    case NoRealLimitations => !limitations.JList? || limitations.items == [] || IsPlaceholder(py, limitations)
    case _ => false
  }

  predicate SplitDefect(py: Interpreter, config: Json, ws: Workspace, issue: Issue) {
    match issue
    case DatasetNotObject => !Dataset(config).JObj?
    case SplitMissing(split) => Dataset(config).JObj? && split in SPLITS && !Truthy(Manifest(config, split))
    case SplitOutside(split) => SplitIs(py, config, ws, split, ManifestEscapes)
    case SplitNotFound(split) => SplitIs(py, config, ws, split, ManifestMissing)
    case SplitInvalid(split) => SplitIs(py, config, ws, split, ManifestBad)
    case _ => false
  }

  predicate SplitIs(py: Interpreter, config: Json, ws: Workspace, split: string, check: ManifestCheck) {
    && Dataset(config).JObj? && split in SPLITS && Truthy(Manifest(config, split))
    && ws.manifest(split, Str(py, Manifest(config, split))) == check
  }

  /** A smoke package is let through; any other profile than production is refused. */
  predicate Raised(py: Interpreter, config: Json, stages: Stages, ws: Workspace, issue: Issue) {
    var profile := PackageProfile(py, config);
    if profile == "smoke" then false
    else if profile != "production" then issue.UnknownProfile?
    else
      || TrainingDefect(stages.training, issue) || DeliveryDefect(stages.exporting, stages.evaluation, issue)
      || MetricDefect(config, stages, issue)
      || PackageDefect(py, config, ws, issue) || SplitDefect(py, config, ws, issue)
  }

  ghost predicate Passes(py: Interpreter, config: Json, stages: Stages, ws: Workspace) {
    forall issue: Issue :: !Raised(py, config, stages, ws, issue)
  }

  method TrainingIssues(training: Json) returns (issues: seq<Issue>)
    ensures forall i :: i in issues <==> TrainingDefect(training, i)
  {
    issues := [];
    if Get(training, "status") != JStr("completed") {
      issues := issues + [TrainingIncomplete];
    }
    var external := Get(training, "external");
    if !external.JObj? || Get(external, "ok") != JBool(true) {
      issues := issues + [NoExternalTraining];
    }
    var checkpoint := Get(training, "checkpoint");
    if !checkpoint.JObj? || !Truthy(Get(checkpoint, "sha256")) {
      issues := issues + [NoCheckpoint];
    }
  }

  method DeliveryIssues(exporting: Json, evaluation: Json) returns (issues: seq<Issue>)
    ensures forall i :: i in issues <==> DeliveryDefect(exporting, evaluation, i)
  {
    issues := [];
    if Get(exporting, "onnx_source") != JStr("external_command") {
      issues := issues + [OnnxNotExternal];
    }
    if Get(exporting, "status") != JStr("completed") {
      issues := issues + [ExportIncomplete];
    }
    if Get(evaluation, "status") != JStr("completed") {
      issues := issues + [EvaluationIncomplete];
    }
    if Get(evaluation, "metrics_source") != JStr("measured") {
      issues := issues + [MetricsNotMeasured];
    }
  }

  method MetricIssues(config: Json, stages: Stages) returns (issues: seq<Issue>)
    ensures forall i :: i in issues <==> MetricDefect(config, stages, i)
  {
    issues := [];
    var thresholds := Thresholds(config);
    if !thresholds.JObj? || thresholds.fields == map[] {
      return [NoThresholds];
    }
    var todo := thresholds.fields.Keys;
    while todo != {}
      invariant todo <= thresholds.fields.Keys
      invariant forall i :: i in issues <==> MetricDefect(config, stages, i) && i.name !in todo
      decreases todo
    {
      var name :| name in todo;
      todo := todo - {name};
      var actual, threshold := Metric(stages, name), thresholds.fields[name];
      if !IsNumber(actual) {
        issues := issues + [MetricMissing(name)];
      } else if !IsNumber(threshold) {
        issues := issues + [ThresholdNotNumeric(name)];
      } else if Number(actual) < Number(threshold) {
        issues := issues + [BelowThreshold(name)];
      }
    }
  }

  method PackageIssues(py: Interpreter, config: Json, ws: Workspace) returns (issues: seq<Issue>)
    ensures forall i :: i in issues <==> PackageDefect(py, config, ws, i)
  {
    issues := [];
    var examples := Get(Package(config), "examples_dir");
    if !Truthy(examples) {
      issues := issues + [NoExamples];
    } else {
      match ws.directory(Str(py, examples)) {
        case DirectoryEscapes => issues := issues + [ExamplesOutside];
        case DirectoryMissing => issues := issues + [ExamplesMissing];
        case DirectoryFound =>
      }
    }
    var limitations := Get(Package(config), "limitations");
    if !limitations.JList? || limitations.items == [] || IsPlaceholder(py, limitations) {
      issues := issues + [NoRealLimitations];
    }
  }

  method ManifestIssues(py: Interpreter, config: Json, ws: Workspace) returns (issues: seq<Issue>)
    ensures forall i :: i in issues <==> SplitDefect(py, config, ws, i)
  {
    if !Dataset(config).JObj? {
      return [DatasetNotObject];
    }
    issues := [];
    var k := 0;
    while k < |SPLITS|
      invariant 0 <= k <= |SPLITS|
      invariant forall i :: i in issues <==> SplitDefect(py, config, ws, i) && i.split in SPLITS[..k]
    {
      var ofSplit := SplitIssues(py, config, ws, SPLITS[k]);
      assert SPLITS[..k + 1] == SPLITS[..k] + [SPLITS[k]];
      issues := issues + ofSplit;
      k := k + 1;
    }
    assert SPLITS[..k] == SPLITS;
  }

  method SplitIssues(py: Interpreter, config: Json, ws: Workspace, split: string) returns (issues: seq<Issue>)
    requires Dataset(config).JObj? && split in SPLITS
    ensures forall i :: i in issues <==> SplitDefect(py, config, ws, i) && i.split == split
  {
    var value := Manifest(config, split);
    if !Truthy(value) {
      return [SplitMissing(split)];
    }
    match ws.manifest(split, Str(py, value))
    case ManifestEscapes => return [SplitOutside(split)];
    case ManifestMissing => return [SplitNotFound(split)];
    case ManifestBad => return [SplitInvalid(split)];
    case ManifestGood => return [];
  }

  /** The gate reports exactly the issues that apply. */
  method ValidatePackageTrust(py: Interpreter, config: Json, stages: Stages, ws: Workspace)
    returns (profile: string, issues: seq<Issue>)
    ensures profile == PackageProfile(py, config)
    ensures forall i :: i in issues <==> Raised(py, config, stages, ws, i)
    ensures issues == [] <==> Passes(py, config, stages, ws)
  {
    profile := PackageProfile(py, config);
    if profile == "smoke" {
      return profile, [];
    }
    if profile != "production" {
      issues := [UnknownProfile];
      assert Raised(py, config, stages, ws, UnknownProfile);
      return;
    }
    var trainingIssues := TrainingIssues(stages.training);
    var deliveryIssues := DeliveryIssues(stages.exporting, stages.evaluation);
    var metricIssues := MetricIssues(config, stages);
    var packageIssues := PackageIssues(py, config, ws);
    var manifestIssues := ManifestIssues(py, config, ws);
    issues := trainingIssues + deliveryIssues + metricIssues + packageIssues + manifestIssues;
    if issues != [] {
      assert Raised(py, config, stages, ws, issues[0]);
    }
  }

  // ----- what the production gate asks for, in plain terms -----

  predicate StagesTrusted(stages: Stages) {
    && Get(stages.training, "status") == JStr("completed") && Get(stages.exporting, "status") == JStr("completed")
    && Get(stages.evaluation, "status") == JStr("completed")
    && Get(Get(stages.training, "external"), "ok") == JBool(true)
    && Truthy(Get(Get(stages.training, "checkpoint"), "sha256"))
    && Get(stages.exporting, "onnx_source") == JStr("external_command")
    && Get(stages.evaluation, "metrics_source") == JStr("measured")
  }

  /** There are thresholds, and the evaluation's metrics meet each of them, number against number. */
  predicate ThresholdsMet(config: Json, stages: Stages) {
    var thresholds := Get(Package(config), "metric_thresholds");
    && thresholds.JObj? && thresholds.fields != map[]
    && forall name :: name in thresholds.fields ==>
         AtLeast(Get(Get(stages.evaluation, "metrics"), name), thresholds.fields[name])
  }

  /** The directory of examples is there, and the limitations are not those of the template. */
  predicate PackageInOrder(py: Interpreter, config: Json, ws: Workspace) {
    var examples, limitations := Get(Package(config), "examples_dir"), Get(Package(config), "limitations");
    && Truthy(examples) && ws.directory(Str(py, examples)) == DirectoryFound
    && limitations.JList? && limitations.items != []
    && forall k :: 0 <= k < |limitations.items| ==> !Contains(Lower(Str(py, limitations.items[k])), "fill in")
  }

  predicate HasManifest(py: Interpreter, config: Json, ws: Workspace, split: string) {
    var path := Get(Section(config, "dataset"), split + "_manifest");
    Truthy(path) && ws.manifest(split, Str(py, path)) == ManifestGood
  }

  predicate ManifestsGood(py: Interpreter, config: Json, ws: Workspace) {
    && Section(config, "dataset").JObj?
    && HasManifest(py, config, ws, "train") && HasManifest(py, config, ws, "val")
    && HasManifest(py, config, ws, "test")
  }

  lemma TrainingPassesExactly(training: Json)
    ensures (forall issue: Issue :: !TrainingDefect(training, issue)) <==>
              && Get(training, "status") == JStr("completed") && Get(Get(training, "external"), "ok") == JBool(true)
              && Truthy(Get(Get(training, "checkpoint"), "sha256"))
  {
    if forall issue: Issue :: !TrainingDefect(training, issue) {
      assert !TrainingDefect(training, TrainingIncomplete) && !TrainingDefect(training, NoExternalTraining);
      assert !TrainingDefect(training, NoCheckpoint);
    }
  }

  lemma DeliveryPassesExactly(exporting: Json, evaluation: Json)
    ensures (forall issue: Issue :: !DeliveryDefect(exporting, evaluation, issue)) <==>
              && Get(exporting, "status") == JStr("completed") && Get(evaluation, "status") == JStr("completed")
              && Get(exporting, "onnx_source") == JStr("external_command")
              && Get(evaluation, "metrics_source") == JStr("measured")
  {
    if forall issue: Issue :: !DeliveryDefect(exporting, evaluation, issue) {
      assert !DeliveryDefect(exporting, evaluation, OnnxNotExternal);
      assert !DeliveryDefect(exporting, evaluation, ExportIncomplete);
      assert !DeliveryDefect(exporting, evaluation, EvaluationIncomplete);
      assert !DeliveryDefect(exporting, evaluation, MetricsNotMeasured);
    }
  }

  lemma MetricsPassExactly(config: Json, stages: Stages)
    ensures (forall issue: Issue :: !MetricDefect(config, stages, issue)) <==> ThresholdsMet(config, stages)
  {
    if forall issue: Issue :: !MetricDefect(config, stages, issue) {
      assert !MetricDefect(config, stages, NoThresholds);
      forall name | name in Thresholds(config).fields
        ensures AtLeast(Metric(stages, name), Thresholds(config).fields[name])
      {
        assert !MetricDefect(config, stages, MetricMissing(name));
        assert !MetricDefect(config, stages, ThresholdNotNumeric(name));
        assert !MetricDefect(config, stages, BelowThreshold(name));
      }
    }
  }

  lemma PackagePassesExactly(py: Interpreter, config: Json, ws: Workspace)
    ensures (forall issue: Issue :: !PackageDefect(py, config, ws, issue)) <==> PackageInOrder(py, config, ws)
  {
    if forall issue: Issue :: !PackageDefect(py, config, ws, issue) {
      assert !PackageDefect(py, config, ws, NoExamples) && !PackageDefect(py, config, ws, NoRealLimitations);
      assert !PackageDefect(py, config, ws, ExamplesOutside) && !PackageDefect(py, config, ws, ExamplesMissing);
    }
  }

  lemma SplitPassesExactly(py: Interpreter, config: Json, ws: Workspace, split: string)
    requires Section(config, "dataset").JObj? && split in SPLITS
    ensures HasManifest(py, config, ws, split) <==>
              && !SplitDefect(py, config, ws, SplitMissing(split)) && !SplitDefect(py, config, ws, SplitOutside(split))
              && !SplitDefect(py, config, ws, SplitNotFound(split)) && !SplitDefect(py, config, ws, SplitInvalid(split))
  {}

  lemma ThreeSplits(py: Interpreter, config: Json, ws: Workspace)
    ensures (forall split :: split in SPLITS ==> HasManifest(py, config, ws, split)) <==>
              && HasManifest(py, config, ws, "train") && HasManifest(py, config, ws, "val")
              && HasManifest(py, config, ws, "test")
  {
    assert SPLITS[0] == "train" && SPLITS[1] == "val" && SPLITS[2] == "test";
  }

  lemma GoodSplitsRaiseNothing(py: Interpreter, config: Json, ws: Workspace, issue: Issue)
    requires Section(config, "dataset").JObj?
    requires forall split :: split in SPLITS ==> HasManifest(py, config, ws, split)
    ensures !SplitDefect(py, config, ws, issue)
  {}

  lemma ManifestsPassExactly(py: Interpreter, config: Json, ws: Workspace)
    ensures (forall issue: Issue :: !SplitDefect(py, config, ws, issue)) <==> ManifestsGood(py, config, ws)
  {
    ThreeSplits(py, config, ws);
    if ManifestsGood(py, config, ws) {
      forall issue: Issue ensures !SplitDefect(py, config, ws, issue) {
        GoodSplitsRaiseNothing(py, config, ws, issue);
      }
    } else if Section(config, "dataset").JObj? {
      var split :| split in SPLITS && !HasManifest(py, config, ws, split);
      SplitPassesExactly(py, config, ws, split);
    } else {
      assert SplitDefect(py, config, ws, DatasetNotObject);
    }
  }

  /**
   The gate passes exactly a smoke package, and a production package whose stages are trusted, whose
   thresholds are met, whose examples and limitations are in order and whose three manifests are good.
   */
  lemma GatePassesExactly(py: Interpreter, config: Json, stages: Stages, ws: Workspace)
    ensures Passes(py, config, stages, ws) <==>
              || PackageProfile(py, config) == "smoke"
              || (&& PackageProfile(py, config) == "production" && StagesTrusted(stages)
                  && ThresholdsMet(config, stages) && PackageInOrder(py, config, ws) && ManifestsGood(py, config, ws))
  {
    TrainingPassesExactly(stages.training);
    DeliveryPassesExactly(stages.exporting, stages.evaluation);
    MetricsPassExactly(config, stages);
    PackagePassesExactly(py, config, ws);
    ManifestsPassExactly(py, config, ws);
    PartsPassExactly(py, config, stages, ws);
  }

  /** Under each profile, what no issue at all means for its parts. */
  lemma PartsPassExactly(py: Interpreter, config: Json, stages: Stages, ws: Workspace)
    ensures Passes(py, config, stages, ws) <==>
              || PackageProfile(py, config) == "smoke"
              || (&& PackageProfile(py, config) == "production"
                  && (forall issue: Issue :: !TrainingDefect(stages.training, issue))
                  && (forall issue: Issue :: !DeliveryDefect(stages.exporting, stages.evaluation, issue))
                  && (forall issue: Issue :: !MetricDefect(config, stages, issue))
                  && (forall issue: Issue :: !PackageDefect(py, config, ws, issue))
                  && (forall issue: Issue :: !SplitDefect(py, config, ws, issue)))
  {
    if PackageProfile(py, config) != "smoke" && PackageProfile(py, config) != "production" {
      assert Raised(py, config, stages, ws, UnknownProfile);
    } else if Passes(py, config, stages, ws) && PackageProfile(py, config) == "production" {
      forall issue: Issue
        ensures !TrainingDefect(stages.training, issue) && !MetricDefect(config, stages, issue)
        ensures !DeliveryDefect(stages.exporting, stages.evaluation, issue)
        ensures !PackageDefect(py, config, ws, issue) && !SplitDefect(py, config, ws, issue)
      {
        assert !Raised(py, config, stages, ws, issue);
      }
    }
  }

  /** The profile is production when none is given, and else the text in lower case, without white space around. */
  lemma ProfileExact(py: Interpreter, config: Json)
    ensures !Truthy(Get(Section(config, "package"), "profile")) ==> PackageProfile(py, config) == "production"
    ensures forall text :: Get(Section(config, "package"), "profile") == JStr(text) && text != "" ==>
              PackageProfile(py, config) == Lower(Strip(text))
  {
    assert Lower("production") == "production" && Strip("production") == "production";
  }

  /** What a passed production gate guarantees about metrics: every configured threshold is met. */
  lemma PassedGateMeetsThresholds(py: Interpreter, config: Json, stages: Stages, ws: Workspace)
    requires Passes(py, config, stages, ws) && PackageProfile(py, config) == "production"
    ensures HasThresholds(config)
    ensures forall name :: name in Thresholds(config).fields ==>
              AtLeast(Metric(stages, name), Get(Thresholds(config), name))
  {
    GatePassesExactly(py, config, stages, ws);
  }

  /** What a passed production gate guarantees about the stages and the limitations. */
  lemma PassedGateTrustsStages(py: Interpreter, config: Json, stages: Stages, ws: Workspace)
    requires Passes(py, config, stages, ws) && PackageProfile(py, config) == "production"
    ensures StagesTrusted(stages)
    ensures var limitations := Get(Package(config), "limitations");
            limitations.JList? && limitations.items != [] && !IsPlaceholder(py, limitations)
  {
    GatePassesExactly(py, config, stages, ws);
  }
}
