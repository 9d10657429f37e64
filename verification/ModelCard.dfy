/** The model-card validator: its issues, and when it reports each of them. */
module ModelCard {
  import opened Prelude
  import opened Text
  import opened JsonValues
  import opened ArtifactNames

  datatype CardIssue =
    | ReadError
    | MissingSection(section: string)
    | InvalidSection(section: string)
    | MissingField(section: string, field: string)
    | InvalidVersion
    | InvalidFormat
    | InvalidPrecision
    | ShapeNotFour
    | ShapeNotPositive
    | InvalidLayout
    | InvalidDtype
    | InvalidThresholds
    | InvalidThreshold(metric: string)
    | MetricMissing(metric: string)
    | MetricBelowThreshold(metric: string)
    | InvalidMaxBatchSize
    | InvalidLimitations
    | InvalidArtifactName
    | VersionMismatch
    | PrecisionMismatch
    | EmptySha256
    | Sha256Mismatch
    | MissingProvenance
    | UntrustedProfile
    | MissingExperimentId
    | MissingConfigPath
    | MissingConfigSha256
    | MissingCodeRevision
    | MissingCheckpoint
    | UntrustedOnnxSource
    | UntrustedMetricsSource
    | MissingThresholds
    | PlaceholderDataset(split: string)
    | PlaceholderLimitations

  /** An empty file name or digest stands for one that was not given. */
  datatype CardOptions = CardOptions(
    artifactFilename: string, expectedSha256: string, strictHash: bool, strictProvenance: bool)

  const TOP_LEVEL := ["dataset", "deployment", "input", "limitations", "metrics", "model", "output"]
  const SECTIONS := ["model", "dataset", "input", "output", "metrics", "deployment"]

  function RequiredFields(section: string): seq<string> {
    match section
    case "model" => ["architecture", "format", "name", "precision", "sha256", "task", "version"]
    case "dataset" => ["test", "train", "val"]
    case "input" => ["color", "dtype", "layout", "normalize", "resize", "shape"]
    case "output" => ["format"]
    case "deployment" => ["max_batch_size", "runtime"]
    case _ => []
  }

  predicate Has(j: Json, key: string) {
    j.JObj? && key in j.fields
  }

  // ----- when each issue applies -----

  predicate LayoutDefect(card: Json, issue: CardIssue) {
    match issue
    case MissingSection(section) => section in TOP_LEVEL && !Has(card, section)
    case InvalidSection(section) => section in SECTIONS && !Section(card, section).JObj?
    case MissingField(section, field) =>
      && section in SECTIONS && Section(card, section).JObj?
      && field in RequiredFields(section) && !Has(Section(card, section), field)
    case _ => false
  }

  predicate ModelDefect(py: Interpreter, model: Json, issue: CardIssue) {
    model.JObj? &&
    match issue
    case InvalidVersion =>
      var version := Str(py, GetOr(model, "version", JStr("")));
      version != "" && !IsSemver(version)
    case InvalidFormat => Truthy(Get(model, "format")) && Lower(Str(py, Get(model, "format"))) != "onnx"
    case InvalidPrecision => Truthy(Get(model, "precision")) && !IsPrecision(Lower(Str(py, Get(model, "precision"))))
    case _ => false
  }

  predicate AllPositive(shape: seq<Json>) {
    forall k :: 0 <= k < |shape| ==> IsPositiveInt(shape[k])
  }

  predicate InputDefect(py: Interpreter, input: Json, issue: CardIssue) {
    input.JObj? &&
    match issue
    case ShapeNotFour => !IsFour(Get(input, "shape"))
    case ShapeNotPositive => IsFour(Get(input, "shape")) && !AllPositive(Get(input, "shape").items)
    case InvalidLayout => !IsLayout(Lower(Str(py, GetOr(input, "layout", JStr("")))))
    case InvalidDtype => !IsDtype(Lower(Str(py, GetOr(input, "dtype", JStr("")))))
    case _ => false
  }

  predicate IsFour(shape: Json) {
    shape.JList? && |shape.items| == 4
  }

  predicate IsLayout(s: string) {
    s == "" || s == "nchw" || s == "nhwc"
  }

  predicate IsDtype(s: string) {
    s == "" || s == "float32" || s == "float16" || s == "uint8" || s == "int8"
  }

  predicate MetricsDefect(metrics: Json, thresholds: Json, issue: CardIssue) {
    metrics.JObj? &&
    match issue
    case InvalidThresholds => !thresholds.JNull? && !thresholds.JObj?
    case InvalidThreshold(name) => Has(thresholds, name) && !IsNumber(Get(thresholds, name))
    case MetricMissing(name) => Has(thresholds, name) && IsNumber(Get(thresholds, name))
      && !IsNumber(Get(metrics, name))
    case MetricBelowThreshold(name) =>
      && Has(thresholds, name) && IsNumber(Get(thresholds, name)) && IsNumber(Get(metrics, name))
      && Number(Get(metrics, name)) < Number(Get(thresholds, name))
    case _ => false
  }

  predicate DeploymentDefect(deployment: Json, limitations: Json, issue: CardIssue) {
    match issue
    case InvalidMaxBatchSize => deployment.JObj? && !IsBatchSize(Get(deployment, "max_batch_size"))
    case InvalidLimitations => !limitations.JNull? && (!limitations.JList? || limitations.items == [])
    case _ => false
  }

  predicate IsBatchSize(size: Json) {
    size.JNull? || IsPositiveInt(size)
  }

  predicate ArtifactDefect(py: Interpreter, model: Json, filename: string, issue: CardIssue) {
    filename != "" &&
    var parsed := ParseArtifactName(filename);
    match issue
    case InvalidArtifactName => parsed.None?
    case VersionMismatch =>
      parsed.Some? && model.JObj? && Str(py, GetOr(model, "version", JStr(""))) != parsed.value.version
    case PrecisionMismatch =>
      parsed.Some? && model.JObj? && Lower(Str(py, GetOr(model, "precision", JStr("")))) != parsed.value.precision
    case _ => false
  }

  function CardSha256(py: Interpreter, model: Json): string {
    if model.JObj? then Str(py, Or(Get(model, "sha256"), JStr(""))) else ""
  }

  predicate HashDefect(py: Interpreter, model: Json, opts: CardOptions, issue: CardIssue) {
    var sha := CardSha256(py, model);
    match issue
    case EmptySha256 => opts.strictHash && sha == ""
    case Sha256Mismatch => opts.expectedSha256 != "" && sha != "" && sha != opts.expectedSha256
    case _ => false
  }

  /** `str(d.get(key) or "").strip()` is empty. */
  predicate IsBlank(py: Interpreter, j: Json, key: string) {
    Strip(TextOf(py, j, key)) == ""
  }

  function TextOf(py: Interpreter, j: Json, key: string): string {
    Str(py, Or(Get(j, key), JStr("")))
  }

  predicate ProvenanceDefect(py: Interpreter, provenance: Json, issue: CardIssue) {
    if !provenance.JObj? then issue.MissingProvenance?
    else
      || ExperimentDefect(py, provenance, issue) || ConfigDefect(py, provenance, issue)
      || EvidenceDefect(py, provenance, issue)
  }

  predicate ExperimentDefect(py: Interpreter, provenance: Json, issue: CardIssue) {
    match issue
    case UntrustedProfile => Get(provenance, "profile") != JStr("production")
    case MissingExperimentId => IsBlank(py, provenance, "experiment_id")
    case _ => false
  }

  predicate ConfigDefect(py: Interpreter, provenance: Json, issue: CardIssue) {
    match issue
    case MissingConfigPath => IsBlank(py, provenance, "config_path")
    case MissingConfigSha256 => IsBlank(py, provenance, "config_sha256")
    case MissingCodeRevision => IsUnknown(TextOf(py, provenance, "code_revision"))
    case _ => false
  }

  predicate IsUnknown(revision: string) {
    Lower(Strip(revision)) == "" || Lower(Strip(revision)) == "unknown"
  }

  predicate EvidenceDefect(py: Interpreter, provenance: Json, issue: CardIssue) {
    var checkpoint := Get(Get(provenance, "training"), "checkpoint");
    match issue
    case MissingCheckpoint => !checkpoint.JObj? || IsBlank(py, checkpoint, "sha256")
    case UntrustedOnnxSource => Get(Get(provenance, "export"), "onnx_source") != JStr("external_command")
    case UntrustedMetricsSource => Get(Get(provenance, "evaluation"), "metrics_source") != JStr("measured")
    case _ => false
  }

  predicate IsPlaceholderId(id: string) {
    id == "" || id == "dataset_v0.0.0" || id == "dataset_test_v0.0.0"
  }

  predicate ReleaseDefect(py: Interpreter, thresholds: Json, dataset: Json, limitations: Json, issue: CardIssue) {
    match issue
    case MissingThresholds => !thresholds.JObj? || thresholds.fields == map[]
    case PlaceholderDataset(split) => dataset.JObj? && split in SPLITS && IsPlaceholderId(TextOf(py, dataset, split))
    case PlaceholderLimitations => IsPlaceholder(py, limitations)
    case _ => false
  }

  /** Everything about a card that could be read. */
  predicate Defect(py: Interpreter, card: Json, opts: CardOptions, issue: CardIssue) {
    var model := Section(card, "model");
    || LayoutDefect(card, issue)
    || ModelDefect(py, model, issue)
    || InputDefect(py, Section(card, "input"), issue)
    || MetricsDefect(Section(card, "metrics"), Section(card, "metric_thresholds"), issue)
    || DeploymentDefect(Section(card, "deployment"), Get(card, "limitations"), issue)
    || ArtifactDefect(py, model, opts.artifactFilename, issue)
    || HashDefect(py, model, opts, issue)
    || (opts.strictProvenance && ProvenanceDefect(py, Get(card, "provenance"), issue))
    || (opts.strictProvenance
        && ReleaseDefect(py, Get(card, "metric_thresholds"), Section(card, "dataset"), Get(card, "limitations"), issue))
  }

  /** A card without any defect. */
  ghost predicate IsClean(py: Interpreter, card: Json, opts: CardOptions) {
    forall issue: CardIssue :: !Defect(py, card, opts, issue)
  }

  // ----- the validator -----

  method LayoutIssues(card: Json) returns (issues: seq<CardIssue>)
    ensures forall i :: i in issues <==> LayoutDefect(card, i)
  {
    issues := [];
    var k := 0;
    while k < |TOP_LEVEL|
      invariant 0 <= k <= |TOP_LEVEL|
      invariant forall i :: i in issues <==> i.MissingSection? && LayoutDefect(card, i) && i.section in TOP_LEVEL[..k]
    {
      assert TOP_LEVEL[..k + 1] == TOP_LEVEL[..k] + [TOP_LEVEL[k]];
      if !Has(card, TOP_LEVEL[k]) {
        issues := issues + [MissingSection(TOP_LEVEL[k])];
      }
      k := k + 1;
    }
    assert TOP_LEVEL[..k] == TOP_LEVEL;
    ghost var before := issues;
    k := 0;
    while k < |SECTIONS|
      invariant 0 <= k <= |SECTIONS|
      invariant forall i :: i in issues <==> i in before || (InSection(card, i) && i.section in SECTIONS[..k])
    {
      assert SECTIONS[..k + 1] == SECTIONS[..k] + [SECTIONS[k]];
      var found := SectionIssues(card, SECTIONS[k]);
      issues := issues + found;
      k := k + 1;
    }
    assert SECTIONS[..k] == SECTIONS;
  }

  predicate InSection(card: Json, issue: CardIssue) {
    (issue.InvalidSection? || issue.MissingField?) && LayoutDefect(card, issue)
  }

  method SectionIssues(card: Json, section: string) returns (issues: seq<CardIssue>)
    requires section in SECTIONS
    ensures forall i :: i in issues <==> InSection(card, i) && i.section == section
  {
    var data := Section(card, section);
    if !data.JObj? {
      return [InvalidSection(section)];
    }
    issues := [];
    var fields := RequiredFields(section);
    var k := 0;
    while k < |fields|
      invariant 0 <= k <= |fields|
      invariant forall i :: i in issues <==>
        i.MissingField? && i.section == section && i.field in fields[..k] && !Has(data, i.field)
    {
      assert fields[..k + 1] == fields[..k] + [fields[k]];
      if !Has(data, fields[k]) {
        issues := issues + [MissingField(section, fields[k])];
      }
      k := k + 1;
    }
    assert fields[..k] == fields;
  }

  method ModelIssues(py: Interpreter, model: Json) returns (issues: seq<CardIssue>)
    ensures forall i :: i in issues <==> ModelDefect(py, model, i)
  {
    issues := [];
    if model.JObj? {
      var version := Str(py, GetOr(model, "version", JStr("")));
      if version != "" && !IsSemver(version) {
        issues := issues + [InvalidVersion];
      }
      if Truthy(Get(model, "format")) && Lower(Str(py, Get(model, "format"))) != "onnx" {
        issues := issues + [InvalidFormat];
      }
      if Truthy(Get(model, "precision")) && !IsPrecision(Lower(Str(py, Get(model, "precision")))) {
        issues := issues + [InvalidPrecision];
      }
    }
  }

  method InputIssues(py: Interpreter, input: Json) returns (issues: seq<CardIssue>)
    ensures forall i :: i in issues <==> InputDefect(py, input, i)
  {
    issues := [];
    if input.JObj? {
      var shape := Get(input, "shape");
      if !IsFour(shape) {
        issues := issues + [ShapeNotFour];
      } else if !AllPositive(shape.items) {
        issues := issues + [ShapeNotPositive];
      }
      if !IsLayout(Lower(Str(py, GetOr(input, "layout", JStr(""))))) {
        issues := issues + [InvalidLayout];
      }
      if !IsDtype(Lower(Str(py, GetOr(input, "dtype", JStr(""))))) {
        issues := issues + [InvalidDtype];
      }
    }
  }

  method MetricIssues(metrics: Json, thresholds: Json) returns (issues: seq<CardIssue>)
    ensures forall i :: i in issues <==> MetricsDefect(metrics, thresholds, i)
  {
    issues := [];
    if !metrics.JObj? || thresholds.JNull? {
      return;
    }
    if !thresholds.JObj? {
      return [InvalidThresholds];
    }
    var todo := thresholds.fields.Keys;
    while todo != {}
      invariant todo <= thresholds.fields.Keys
      invariant forall i :: i in issues <==> MetricsDefect(metrics, thresholds, i) && i.metric !in todo
      decreases todo
    {
      var name :| name in todo;
      todo := todo - {name};
      var threshold, actual := thresholds.fields[name], Get(metrics, name);
      if !IsNumber(threshold) {
        issues := issues + [InvalidThreshold(name)];
      } else if !IsNumber(actual) {
        issues := issues + [MetricMissing(name)];
      } else if Number(actual) < Number(threshold) {
        issues := issues + [MetricBelowThreshold(name)];
      }
    }
  }

  method DeploymentIssues(deployment: Json, limitations: Json) returns (issues: seq<CardIssue>)
    ensures forall i :: i in issues <==> DeploymentDefect(deployment, limitations, i)
  {
    issues := [];
    if deployment.JObj? && !IsBatchSize(Get(deployment, "max_batch_size")) {
      issues := issues + [InvalidMaxBatchSize];
    }
    if !limitations.JNull? && (!limitations.JList? || limitations.items == []) {
      issues := issues + [InvalidLimitations];
    }
  }

  method ArtifactIssues(py: Interpreter, model: Json, filename: string) returns (issues: seq<CardIssue>)
    ensures forall i :: i in issues <==> ArtifactDefect(py, model, filename, i)
  {
    issues := [];
    if filename == "" {
      return;
    }
    var parsed := ParseArtifactName(filename);
    if parsed.None? {
      return [InvalidArtifactName];
    }
    if model.JObj? {
      if Str(py, GetOr(model, "version", JStr(""))) != parsed.value.version {
        issues := issues + [VersionMismatch];
      }
      if Lower(Str(py, GetOr(model, "precision", JStr("")))) != parsed.value.precision {
        issues := issues + [PrecisionMismatch];
      }
    }
  }

  method HashIssues(py: Interpreter, model: Json, opts: CardOptions) returns (issues: seq<CardIssue>)
    ensures forall i :: i in issues <==> HashDefect(py, model, opts, i)
  {
    issues := [];
    var sha := CardSha256(py, model);
    if opts.strictHash && sha == "" {
      issues := issues + [EmptySha256];
    }
    if opts.expectedSha256 != "" && sha != "" && sha != opts.expectedSha256 {
      issues := issues + [Sha256Mismatch];
    }
  }

  method ProvenanceIssues(py: Interpreter, provenance: Json) returns (issues: seq<CardIssue>)
    ensures forall i :: i in issues <==> ProvenanceDefect(py, provenance, i)
  {
    if !provenance.JObj? {
      return [MissingProvenance];
    }
    var experiment := ExperimentIssues(py, provenance);
    var config := ConfigIssues(py, provenance);
    var evidence := EvidenceIssues(py, provenance);
    issues := experiment + config + evidence;
  }

  method ExperimentIssues(py: Interpreter, provenance: Json) returns (issues: seq<CardIssue>)
    ensures forall i :: i in issues <==> ExperimentDefect(py, provenance, i)
  {
    issues := [];
    if Get(provenance, "profile") != JStr("production") {
      issues := issues + [UntrustedProfile];
    }
    if IsBlank(py, provenance, "experiment_id") {
      issues := issues + [MissingExperimentId];
    }
  }

  method ConfigIssues(py: Interpreter, provenance: Json) returns (issues: seq<CardIssue>)
    ensures forall i :: i in issues <==> ConfigDefect(py, provenance, i)
  {
    issues := [];
    if IsBlank(py, provenance, "config_path") {
      issues := issues + [MissingConfigPath];
    }
    if IsBlank(py, provenance, "config_sha256") {
      issues := issues + [MissingConfigSha256];
    }
    if IsUnknown(TextOf(py, provenance, "code_revision")) {
      issues := issues + [MissingCodeRevision];
    }
  }

  method EvidenceIssues(py: Interpreter, provenance: Json) returns (issues: seq<CardIssue>)
    ensures forall i :: i in issues <==> EvidenceDefect(py, provenance, i)
  {
    issues := [];
    var training := Get(provenance, "training");
    var checkpoint := if training.JObj? then Get(training, "checkpoint") else JNull;
    if !checkpoint.JObj? || IsBlank(py, checkpoint, "sha256") {
      issues := issues + [MissingCheckpoint];
    }
    var exporting := Get(provenance, "export");
    if !exporting.JObj? || Get(exporting, "onnx_source") != JStr("external_command") {
      issues := issues + [UntrustedOnnxSource];
    }
    var evaluation := Get(provenance, "evaluation");
    if !evaluation.JObj? || Get(evaluation, "metrics_source") != JStr("measured") {
      issues := issues + [UntrustedMetricsSource];
    }
  }

  method ReleaseIssues(py: Interpreter, thresholds: Json, dataset: Json, limitations: Json)
    returns (issues: seq<CardIssue>)
    ensures forall i :: i in issues <==> ReleaseDefect(py, thresholds, dataset, limitations, i)
  {
    issues := if !thresholds.JObj? || thresholds.fields == map[] then [MissingThresholds] else [];
    if dataset.JObj? {
      ghost var before := issues;
      var k := 0;
      while k < |SPLITS|
        invariant 0 <= k <= |SPLITS|
        invariant forall i :: i in issues <==>
          i in before || (i.PlaceholderDataset? && i.split in SPLITS[..k]
            && IsPlaceholderId(TextOf(py, dataset, i.split)))
      {
        assert SPLITS[..k + 1] == SPLITS[..k] + [SPLITS[k]];
        if IsPlaceholderId(TextOf(py, dataset, SPLITS[k])) {
          issues := issues + [PlaceholderDataset(SPLITS[k])];
        }
        k := k + 1;
      }
      assert SPLITS[..k] == SPLITS;
    }
    if IsPlaceholder(py, limitations) {
      issues := issues + [PlaceholderLimitations];
    }
  }

  /** The validator reports exactly the defects of the card; None is a file that could not be read. */
  method ValidateModelCard(py: Interpreter, file: Option<Json>, opts: CardOptions)
    returns (ok: bool, issues: seq<CardIssue>)
    requires file.Some? ==> file.value.JObj?
    ensures file.None? ==> issues == [ReadError]
    ensures file.Some? ==> forall i :: i in issues <==> Defect(py, file.value, opts, i)
    ensures ok <==> file.Some? && IsClean(py, file.value, opts)
  {
    if file.None? {
      return false, [ReadError];
    }
    var card := file.value;
    var model := Section(card, "model");
    var a := LayoutIssues(card);
    var b := ModelIssues(py, model);
    var c := InputIssues(py, Section(card, "input"));
    var d := MetricIssues(Section(card, "metrics"), Section(card, "metric_thresholds"));
    var e := DeploymentIssues(Section(card, "deployment"), Get(card, "limitations"));
    var f := ArtifactIssues(py, model, opts.artifactFilename);
    var g := HashIssues(py, model, opts);
    issues := a + b + c + d + e + f + g;
    if opts.strictProvenance {
      var h := ProvenanceIssues(py, Get(card, "provenance"));
      var j := ReleaseIssues(py, Get(card, "metric_thresholds"), Section(card, "dataset"), Get(card, "limitations"));
      issues := issues + h + j;
    }
    ok := issues == [];
    if !ok {
      assert Defect(py, card, opts, issues[0]);
    }
  }
}
