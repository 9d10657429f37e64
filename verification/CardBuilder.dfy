/**
 Building a model card from a run, and how the builder, the trust gate and the card validator fit:
 behind a passed production gate, the built card is valid exactly when a few facts hold that the
 gate does not look at.
 */
module CardBuilder {
  import opened Prelude
  import opened Text
  import opened JsonValues
  import opened ArtifactNames
  import opened TrustGate
  import opened ModelCard

  /** What the surroundings supply: printed relative paths, the digest of the configuration and the code revision. */
  datatype Surroundings = Surroundings(
    relative: string -> string, configPath: string, configSha256: string, codeRevision: string)

  /** A path as the card shows it; a falsy one is kept as it is. */
  function Relative(py: Interpreter, env: Surroundings, path: Json): Json {
    if !Truthy(path) then path else JStr(env.relative(Str(py, path)))
  }

  // ----- the input shape -----

  /** The input section, or None when looking for it raises. */
  function InputConfig(config: Json): Option<Json> {
    if Truthy(Get(config, "input")) then Some(AsObject(Get(config, "input")))
    else if !Section(config, "export").JObj? then None
    else Some(AsObject(Section(Section(config, "export"), "input")))
  }

  function InputSize(config: Json, input: Json): Json {
    Or(Or(Get(AsObject(Get(config, "model")), "input_size"), Get(input, "size")), JList([JInt(640), JInt(640)]))
  }

  /** `[int(value) for value in values]`, or None when one of them raises. */
  function Ints(py: Interpreter, values: seq<Json>): (ints: Option<seq<int>>)
    ensures ints.Some? ==> |ints.value| == |values|
  {
    if values == [] then Some([])
    else
      var front := Ints(py, values[..|values| - 1]);
      var last := Int(py, values[|values| - 1]);
      if front.Some? && last.Some? then Some(front.value + [last.value]) else None
  }

  function Shape(py: Interpreter, size: Json): (shape: Option<seq<int>>)
    ensures shape.Some? ==> |shape.value| == 4
  {
    if size.JList? && |size.items| == 4 then Ints(py, size.items)
    else if size.JList? && |size.items| == 2 then
      var sides := Ints(py, size.items);
      if sides.None? then None else Some([1, 3] + sides.value)
    else Some([1, 3, 640, 640])
  }

  // ----- the sections of the card -----

  function Task(py: Interpreter, config: Json): string {
    var experiment, dataset := AsObject(Get(config, "experiment")), AsObject(Get(config, "dataset"));
    Str(py, Or(Or(Get(experiment, "task"), Get(dataset, "task")), JStr("model")))
  }

  function ModelSection(py: Interpreter, config: Json, filename: string, a: Artifact, sha256: string): Json {
    JObj(map[
      "name" := JStr(ModelName(filename, a)),
      "version" := JStr(a.version),
      "task" := JStr(Task(py, config)),
      "architecture" := JStr(Str(py, Or(Get(AsObject(Get(config, "model")), "architecture"), JStr(Task(py, config))))),
      "precision" := JStr(a.precision),
      "format" := JStr("onnx"),
      "sha256" := JStr(sha256)
    ])
  }

  function DatasetId(py: Interpreter, dataset: Json): string {
    Str(py, Or(Get(dataset, "name"), JStr("dataset"))) + "_v" + Str(py, Or(Get(dataset, "version"), JStr("0.0.0")))
  }

  function SplitId(py: Interpreter, config: Json, split: string): string {
    var dataset := AsObject(Get(config, "dataset"));
    Str(py, Or(Get(dataset, split + "_id"), JStr(DatasetId(py, dataset))))
  }

  function DatasetSection(py: Interpreter, config: Json): Json {
    JObj(map[
      "train" := JStr(SplitId(py, config, "train")),
      "val" := JStr(SplitId(py, config, "val")),
      "test" := JStr(SplitId(py, config, "test"))
    ])
  }

  function LowerText(py: Interpreter, j: Json, key: string, otherwise: string): string {
    Lower(Str(py, Or(Get(j, key), JStr(otherwise))))
  }

  function InputSection(py: Interpreter, input: Json, shape: seq<int>): Json {
    JObj(map[
      "layout" := JStr(LowerText(py, input, "layout", "nchw")),
      "shape" := JList(seq(|shape|, k requires 0 <= k < |shape| => JInt(shape[k]))),
      "dtype" := JStr(LowerText(py, input, "dtype", "float32")),
      "color" := JStr(LowerText(py, input, "color", "rgb")),
      "resize" := JStr(Str(py, Or(Get(input, "resize"), JStr("letterbox")))),
      "normalize" := GetOr(input, "normalize", JStr("none"))
    ])
  }

  function OutputSection(py: Interpreter, config: Json, stages: Stages, labelsName: string): Json {
    var configured := Or(Get(Get(config, "output"), "format"), Get(stages.exporting, "output_format"));
    JObj(map[
      "format" := JStr(Str(py, Or(configured, JStr(Task(py, config))))),
      "classes" := JStr(labelsName)
    ])
  }

  function DeploymentSection(config: Json): Json {
    JObj(map["runtime" := JStr("onnxruntime"), "max_batch_size" := JInt(1), "supports_dynamic_batch" := JBool(false)]
         + AsObject(Get(config, "deployment")).fields)
  }

  function Limitations(py: Interpreter, config: Json): Json {
    var configured := Get(Package(config), "limitations");
    if configured.JList? && configured.items != [] then
      JList(seq(|configured.items|, k requires 0 <= k < |configured.items| => JStr(Str(py, configured.items[k]))))
    else JList([JStr("Smoke-test artifact; not approved for production use.")])
  }

  /** The checkpoint of the training stage with its path shown relative to the workspace. */
  function Checkpoint(py: Interpreter, env: Surroundings, training: Json): Json {
    var checkpoint := Get(training, "checkpoint");
    if checkpoint.JObj? then JObj(checkpoint.fields["path" := Relative(py, env, Get(checkpoint, "path"))])
    else checkpoint
  }

  function TrainingEvidence(py: Interpreter, env: Surroundings, config: Json, training: Json): Json {
    JObj(map[
      "adapter" := Or(Get(training, "adapter"), Get(Get(config, "training"), "adapter")),
      "command" := Get(Get(config, "training"), "command"),
      "checkpoint" := Checkpoint(py, env, training)
    ])
  }

  function ExportEvidence(py: Interpreter, env: Surroundings, exporting: Json): Json {
    JObj(map[
      "onnx_source" := GetOr(exporting, "onnx_source", JStr("")),
      "report" := Relative(py, env, Get(exporting, "report"))
    ])
  }

  function EvaluationEvidence(py: Interpreter, env: Surroundings, evaluation: Json): Json {
    JObj(map[
      "metrics_source" := Get(evaluation, "metrics_source"),
      "report" := Relative(py, env, Get(evaluation, "report"))
    ])
  }

  function Provenance(py: Interpreter, env: Surroundings, config: Json, stages: Stages): Json {
    JObj(map[
      "profile" := JStr(PackageProfile(py, config)),
      "experiment_id" := JStr(TextOf(py, AsObject(Get(config, "experiment")), "id")),
      "config_path" := Relative(py, env, JStr(env.configPath)),
      "config_sha256" := JStr(env.configSha256),
      "code_revision" := JStr(if env.codeRevision == "" then "unknown" else env.codeRevision),
      "training" := TrainingEvidence(py, env, config, stages.training),
      "export" := ExportEvidence(py, env, stages.exporting),
      "evaluation" := EvaluationEvidence(py, env, stages.evaluation)
    ])
  }

  datatype Sections = Sections(
    model: Json, dataset: Json, input: Json, output: Json, metrics: Json, thresholds: Json, deployment: Json,
    limitations: Json, provenance: Json)

  function CardOf(s: Sections): (card: Json)
    ensures card.JObj? && Section(card, "model") == s.model
  {
    JObj(map[
      "model" := s.model,
      "dataset" := s.dataset,
      "input" := s.input,
      "output" := s.output,
      "metrics" := s.metrics,
      "metric_thresholds" := s.thresholds,
      "deployment" := s.deployment,
      "limitations" := s.limitations,
      "provenance" := s.provenance
    ])
  }

  /** The sections, or None when building them raises: an unreadable artifact name, export section or input size. */
  function BuildSections(
    py: Interpreter, env: Surroundings, config: Json, stages: Stages, filename: string,
    labelsName: string): (s: Option<Sections>)
    ensures s.Some? ==> s.value.model.JObj?
  {
    var artifact, input := ParseArtifactName(filename), InputConfig(config);
    if artifact.None? || input.None? then None
    else
      var shape := Shape(py, InputSize(config, input.value));
      if shape.None? then None
      else
        Some(Sections(
               ModelSection(py, config, filename, artifact.value, ""), DatasetSection(py, config),
               InputSection(py, input.value, shape.value), OutputSection(py, config, stages, labelsName),
               AsObject(Get(stages.evaluation, "metrics")), AsObject(Thresholds(config)),
               DeploymentSection(config), Limitations(py, config), Provenance(py, env, config, stages)))
  }

  function BuildModelCard(
    py: Interpreter, env: Surroundings, config: Json, stages: Stages, filename: string,
    labelsName: string): (card: Option<Json>)
    ensures card.Some? ==> card.value.JObj? && Section(card.value, "model").JObj?
  {
    match BuildSections(py, env, config, stages, filename, labelsName)
    case Some(sections) => Some(CardOf(sections))
    case None => None
  }

  /** `create_model_package` fills in the digest of the copied file. */
  function FillSha256(card: Json, digest: string): Json
    requires card.JObj? && Section(card, "model").JObj?
  {
    JObj(card.fields["model" := JObj(Section(card, "model").fields["sha256" := JStr(digest)])])
  }

  // ----- the sections of the finished card -----

  predicate Holds(j: Json, key: string, value: Json) {
    Has(j, key) && Get(j, key) == value
  }

  predicate HasSections(card: Json, s: Sections) {
    && card.JObj? && s.model.JObj?
    && Holds(card, "model", s.model) && Holds(card, "dataset", s.dataset) && Holds(card, "input", s.input)
    && Holds(card, "output", s.output) && Holds(card, "metrics", s.metrics)
         && Holds(card, "metric_thresholds", s.thresholds)
    && Holds(card, "deployment", s.deployment) && Holds(card, "limitations", s.limitations)
         && Holds(card, "provenance", s.provenance)
  }

  lemma CardHoldsSections(s: Sections)
    requires s.model.JObj?
    ensures HasSections(CardOf(s), s)
  {}

  lemma FillingKeepsSections(card: Json, s: Sections, digest: string)
    requires HasSections(card, s)
    ensures HasSections(FillSha256(card, digest), s.(model := JObj(s.model.fields["sha256" := JStr(digest)])))
  {}

  lemma FilledModelSection(py: Interpreter, config: Json, filename: string, a: Artifact, digest: string)
    ensures var empty := ModelSection(py, config, filename, a, "");
            empty.JObj? && JObj(empty.fields["sha256" := JStr(digest)]) == ModelSection(py, config, filename, a, digest)
  {}

  // ----- which defects each section of a built card can have -----

  ghost predicate LayoutClean(card: Json) {
    forall i :: !LayoutDefect(card, i)
  }

  ghost predicate ModelClean(py: Interpreter, model: Json) {
    forall i :: !ModelDefect(py, model, i)
  }

  ghost predicate NameClean(py: Interpreter, model: Json, filename: string) {
    forall i :: !ArtifactDefect(py, model, filename, i)
  }

  ghost predicate HashClean(py: Interpreter, model: Json, opts: CardOptions) {
    forall i :: !HashDefect(py, model, opts, i)
  }

  ghost predicate InputClean(py: Interpreter, input: Json) {
    forall i :: !InputDefect(py, input, i)
  }

  ghost predicate MetricsClean(metrics: Json, thresholds: Json) {
    forall i :: !MetricsDefect(metrics, thresholds, i)
  }

  ghost predicate DeploymentClean(deployment: Json, limitations: Json) {
    forall i :: !DeploymentDefect(deployment, limitations, i)
  }

  ghost predicate ReleaseClean(py: Interpreter, thresholds: Json, dataset: Json, limitations: Json) {
    forall i :: !ReleaseDefect(py, thresholds, dataset, limitations, i)
  }

  ghost predicate ExperimentClean(py: Interpreter, provenance: Json) {
    forall i :: !ExperimentDefect(py, provenance, i)
  }

  ghost predicate ConfigClean(py: Interpreter, provenance: Json) {
    forall i :: !ConfigDefect(py, provenance, i)
  }

  ghost predicate EvidenceClean(py: Interpreter, provenance: Json) {
    forall i :: !EvidenceDefect(py, provenance, i)
  }

  lemma ModelSectionComplete(py: Interpreter, config: Json, filename: string, a: Artifact, digest: string)
    ensures forall f :: f in RequiredFields("model") ==> Has(ModelSection(py, config, filename, a, digest), f)
  {}

  lemma OtherSectionsComplete(
    py: Interpreter, config: Json, stages: Stages, labelsName: string, input: Json, shape: seq<int>)
    ensures forall f :: f in RequiredFields("dataset") ==> Has(DatasetSection(py, config), f)
    ensures forall f :: f in RequiredFields("input") ==> Has(InputSection(py, input, shape), f)
    ensures forall f :: f in RequiredFields("output") ==> Has(OutputSection(py, config, stages, labelsName), f)
    ensures forall f :: f in RequiredFields("deployment") ==> Has(DeploymentSection(config), f)
    ensures RequiredFields("metrics") == []
  {}

  predicate IsComplete(section: string, data: Json) {
    data.JObj? && forall f :: f in RequiredFields(section) ==> Has(data, f)
  }

  lemma LayoutIsClean(card: Json, s: Sections)
    requires HasSections(card, s)
    requires IsComplete("model", s.model) && IsComplete("dataset", s.dataset) && IsComplete("input", s.input)
    requires IsComplete("output", s.output) && IsComplete("metrics", s.metrics)
              && IsComplete("deployment", s.deployment)
    ensures LayoutClean(card)
  {
    forall section | section in SECTIONS ensures IsComplete(section, Section(card, section)) {
    }
  }

  predicate ModelShows(model: Json, a: Artifact, digest: string) {
    && Holds(model, "version", JStr(a.version)) && Holds(model, "precision", JStr(a.precision))
    && Holds(model, "format", JStr("onnx")) && Holds(model, "sha256", JStr(digest))
  }

  lemma ModelSectionShows(py: Interpreter, config: Json, filename: string, a: Artifact, digest: string)
    ensures ModelShows(ModelSection(py, config, filename, a, digest), a, digest)
  {}

  lemma ModelSectionIsClean(py: Interpreter, model: Json, a: Artifact, digest: string)
    requires IsSemver(a.version) && IsPrecision(a.precision) && ModelShows(model, a, digest)
    ensures ModelClean(py, model)
  {
    PrecisionIsLower(a.precision);
    assert Lower("onnx") == "onnx";
  }

  lemma NamesAgree(py: Interpreter, model: Json, filename: string, digest: string)
    requires ParseArtifactName(filename).Some? && ModelShows(model, ParseArtifactName(filename).value, digest)
    requires IsPrecision(ParseArtifactName(filename).value.precision)
    ensures NameClean(py, model, filename)
  {
    PrecisionIsLower(ParseArtifactName(filename).value.precision);
  }

  lemma DigestsAgree(py: Interpreter, model: Json, a: Artifact, filename: string, digest: string)
    requires ModelShows(model, a, digest) && digest != ""
    ensures HashClean(py, model, Strict(filename, digest))
  {}

  lemma PrecisionIsLower(p: string)
    requires IsPrecision(p)
    ensures Lower(p) == p
  {
    assert Lower("fp32") == "fp32" && Lower("fp16") == "fp16" && Lower("int8") == "int8";
  }

  /** What packaging asks the validator to check. */
  function Strict(filename: string, digest: string): CardOptions {
    CardOptions(filename, digest, true, true)
  }

  predicate InputReady(py: Interpreter, input: Json, shape: seq<int>) {
    && (forall k :: 0 <= k < |shape| ==> shape[k] > 0)
    && IsLayout(LowerText(py, input, "layout", "nchw")) && IsDtype(LowerText(py, input, "dtype", "float32"))
  }

  predicate InputShown(section: Json, layout: string, dtype: string, shape: seq<int>) {
    && Holds(section, "layout", JStr(layout)) && Holds(section, "dtype", JStr(dtype))
    && Get(section, "shape").JList? && |Get(section, "shape").items| == |shape|
    && forall k :: 0 <= k < |shape| ==> Get(section, "shape").items[k] == JInt(shape[k])
  }

  lemma InputIsShown(py: Interpreter, input: Json, shape: seq<int>)
    ensures InputShown(InputSection(py, input, shape), LowerText(py, input, "layout", "nchw"),
                       LowerText(py, input, "dtype", "float32"), shape)
  {}

  lemma ShownInputExact(py: Interpreter, section: Json, layout: string, dtype: string, shape: seq<int>)
    requires |shape| == 4 && InputShown(section, layout, dtype, shape)
    requires Lower(layout) == layout && Lower(dtype) == dtype
    ensures InputClean(py, section) <==>
              (forall k :: 0 <= k < |shape| ==> shape[k] > 0) && IsLayout(layout) && IsDtype(dtype)
  {
    var shown := Get(section, "shape").items;
    assert AllPositive(shown) <==> forall k :: 0 <= k < |shape| ==> shape[k] > 0 by {
      if AllPositive(shown) {
        forall k | 0 <= k < |shape| ensures shape[k] > 0 {
          assert IsPositiveInt(shown[k]);
        }
      }
    }
    assert InputDefect(py, section, InvalidLayout) <==> !IsLayout(layout);
    assert InputDefect(py, section, InvalidDtype) <==> !IsDtype(dtype);
    assert InputDefect(py, section, ShapeNotPositive) <==> !AllPositive(shown);
  }

  lemma InputSectionExact(py: Interpreter, input: Json, shape: seq<int>)
    requires |shape| == 4
    ensures InputClean(py, InputSection(py, input, shape)) <==> InputReady(py, input, shape)
  {
    InputIsShown(py, input, shape);
    LowerTwice(Str(py, Or(Get(input, "layout"), JStr("nchw"))));
    LowerTwice(Str(py, Or(Get(input, "dtype"), JStr("float32"))));
    ShownInputExact(py, InputSection(py, input, shape), LowerText(py, input, "layout", "nchw"),
        LowerText(py, input, "dtype", "float32"), shape);
  }

  /** Behind the gate the thresholds are met, so the card's own metrics check finds nothing. */
  lemma MetricsAreClean(metrics: Json, thresholds: Json)
    requires thresholds.JObj? && forall name :: name in thresholds.fields ==>
              AtLeast(Get(metrics, name), Get(thresholds, name))
    ensures MetricsClean(metrics, thresholds)
  {}

  lemma DeploymentExact(deployment: Json, limitations: Json)
    requires deployment.JObj? && limitations.JList? && limitations.items != []
    ensures DeploymentClean(deployment, limitations) <==> IsBatchSize(Get(deployment, "max_batch_size"))
  {
    assert DeploymentDefect(deployment, limitations, InvalidMaxBatchSize) <==>
      !IsBatchSize(Get(deployment, "max_batch_size"));
  }

  lemma LimitationsAreReal(py: Interpreter, config: Json)
    requires var configured := Get(Package(config), "limitations");
             configured.JList? && configured.items != [] && !IsPlaceholder(py, configured)
    ensures Limitations(py, config).JList? && Limitations(py, config).items != []
              && !IsPlaceholder(py, Limitations(py, config))
  {
    var configured, shown := Get(Package(config), "limitations"), Limitations(py, config);
    forall k | 0 <= k < |shown.items| ensures !SaysFillIn(py, shown.items[k]) {
      assert !SaysFillIn(py, configured.items[k]);
      assert shown.items[k] == JStr(Str(py, configured.items[k]));
    }
  }

  predicate DatasetReady(py: Interpreter, config: Json) {
    forall split :: split in SPLITS ==> !IsPlaceholderId(SplitId(py, config, split))
  }

  lemma ReleaseExact(py: Interpreter, thresholds: Json, dataset: Json, limitations: Json)
    requires thresholds.JObj? && thresholds.fields != map[] && !IsPlaceholder(py, limitations) && dataset.JObj?
    ensures ReleaseClean(py, thresholds, dataset, limitations)
            <==> forall split :: split in SPLITS ==> !IsPlaceholderId(TextOf(py, dataset, split))
  {
    forall split | split in SPLITS
      ensures ReleaseDefect(py, thresholds, dataset, limitations, PlaceholderDataset(split)) <==>
                IsPlaceholderId(TextOf(py, dataset, split))
    {
    }
  }

  lemma DatasetTexts(py: Interpreter, config: Json)
    ensures DatasetSection(py, config).JObj?
    ensures forall split :: split in SPLITS ==>
              TextOf(py, DatasetSection(py, config), split) == SplitId(py, config, split)
  {}

  predicate OriginReady(py: Interpreter, env: Surroundings, config: Json) {
    && !IsBlank(py, AsObject(Get(config, "experiment")), "id")
    && env.configPath != "" && Strip(env.relative(env.configPath)) != ""
    && Strip(env.configSha256) != ""
    && !IsUnknown(env.codeRevision)
  }

  predicate CheckpointReady(py: Interpreter, training: Json) {
    !IsBlank(py, Get(training, "checkpoint"), "sha256")
  }

  function ShownPath(env: Surroundings): string {
    if env.configPath == "" then "" else env.relative(env.configPath)
  }

  function ShownRevision(env: Surroundings): string {
    if env.codeRevision == "" then "unknown" else env.codeRevision
  }

  predicate ExperimentShown(py: Interpreter, config: Json, provenance: Json) {
    && Holds(provenance, "profile", JStr(PackageProfile(py, config)))
    && Holds(provenance, "experiment_id", JStr(TextOf(py, AsObject(Get(config, "experiment")), "id")))
  }

  predicate ConfigShown(env: Surroundings, provenance: Json) {
    && Holds(provenance, "config_path", JStr(ShownPath(env)))
    && Holds(provenance, "config_sha256", JStr(env.configSha256))
    && Holds(provenance, "code_revision", JStr(ShownRevision(env)))
  }

  lemma ExperimentIsShown(py: Interpreter, env: Surroundings, config: Json, stages: Stages)
    ensures ExperimentShown(py, config, Provenance(py, env, config, stages))
  {}

  lemma ConfigIsShown(py: Interpreter, env: Surroundings, config: Json, stages: Stages)
    ensures ConfigShown(env, Provenance(py, env, config, stages))
  {}

  lemma HeldText(py: Interpreter, j: Json, key: string, text: string)
    requires Holds(j, key, JStr(text))
    ensures TextOf(py, j, key) == text
  {}

  lemma ExperimentExact(py: Interpreter, provenance: Json)
    requires Get(provenance, "profile") == JStr("production")
    ensures ExperimentClean(py, provenance) <==> !IsBlank(py, provenance, "experiment_id")
  {
    assert ExperimentDefect(py, provenance, MissingExperimentId) <==> IsBlank(py, provenance, "experiment_id");
  }

  lemma ConfigExact(py: Interpreter, provenance: Json)
    ensures ConfigClean(py, provenance)
            <==> (&& !IsBlank(py, provenance, "config_path") && !IsBlank(py, provenance, "config_sha256")
                  && !IsUnknown(TextOf(py, provenance, "code_revision")))
  {
    assert ConfigDefect(py, provenance, MissingConfigPath) <==> IsBlank(py, provenance, "config_path");
    assert ConfigDefect(py, provenance, MissingConfigSha256) <==> IsBlank(py, provenance, "config_sha256");
    assert ConfigDefect(py, provenance, MissingCodeRevision) <==> IsUnknown(TextOf(py, provenance, "code_revision"));
  }

  lemma ExperimentOriginExact(py: Interpreter, config: Json, provenance: Json)
    requires PackageProfile(py, config) == "production" && ExperimentShown(py, config, provenance)
    ensures ExperimentClean(py, provenance) <==> !IsBlank(py, AsObject(Get(config, "experiment")), "id")
  {
    ExperimentExact(py, provenance);
    HeldText(py, provenance, "experiment_id", TextOf(py, AsObject(Get(config, "experiment")), "id"));
  }

  lemma ConfigOriginExact(py: Interpreter, env: Surroundings, provenance: Json)
    requires ConfigShown(env, provenance)
    ensures ConfigClean(py, provenance)
            <==> (&& env.configPath != "" && Strip(env.relative(env.configPath)) != ""
                  && Strip(env.configSha256) != "" && !IsUnknown(env.codeRevision))
  {
    ConfigExact(py, provenance);
    HeldText(py, provenance, "config_path", ShownPath(env));
    HeldText(py, provenance, "config_sha256", env.configSha256);
    HeldText(py, provenance, "code_revision", ShownRevision(env));
    assert IsUnknown("unknown") && IsUnknown("");
  }

  lemma OriginExact(py: Interpreter, env: Surroundings, config: Json, provenance: Json)
    requires PackageProfile(py, config) == "production" && ExperimentShown(py, config, provenance)
              && ConfigShown(env, provenance)
    ensures ExperimentClean(py, provenance) && ConfigClean(py, provenance) <==> OriginReady(py, env, config)
  {
    ExperimentOriginExact(py, config, provenance);
    ConfigOriginExact(py, env, provenance);
  }

  predicate EvidenceShown(py: Interpreter, env: Surroundings, config: Json, stages: Stages, provenance: Json) {
    && Holds(provenance, "training", TrainingEvidence(py, env, config, stages.training))
    && Holds(provenance, "export", ExportEvidence(py, env, stages.exporting))
    && Holds(provenance, "evaluation", EvaluationEvidence(py, env, stages.evaluation))
  }

  lemma EvidenceIsShown(py: Interpreter, env: Surroundings, config: Json, stages: Stages)
    ensures EvidenceShown(py, env, config, stages, Provenance(py, env, config, stages))
  {}

  lemma EvidenceValues(py: Interpreter, env: Surroundings, config: Json, stages: Stages)
    requires Get(stages.training, "checkpoint").JObj?
    ensures Get(TrainingEvidence(py, env, config, stages.training), "checkpoint").JObj?
    ensures Get(Get(TrainingEvidence(py, env, config, stages.training), "checkpoint"), "sha256")
         == Get(Get(stages.training, "checkpoint"), "sha256")
    ensures Get(ExportEvidence(py, env, stages.exporting), "onnx_source")
         == GetOr(stages.exporting, "onnx_source", JStr(""))
    ensures Get(EvaluationEvidence(py, env, stages.evaluation), "metrics_source")
         == Get(stages.evaluation, "metrics_source")
  {}

  /** The checkpoint digest is the stage's own, and the other two sources are the trusted ones. */
  predicate Traced(provenance: Json, training: Json) {
    && Get(Get(provenance, "training"), "checkpoint").JObj?
    && Get(Get(Get(provenance, "training"), "checkpoint"), "sha256") == Get(Get(training, "checkpoint"), "sha256")
    && Get(Get(provenance, "export"), "onnx_source") == JStr("external_command")
    && Get(Get(provenance, "evaluation"), "metrics_source") == JStr("measured")
  }

  lemma EvidenceIsTraced(py: Interpreter, env: Surroundings, config: Json, stages: Stages)
    requires Truthy(Get(Get(stages.training, "checkpoint"), "sha256"))
    requires Get(stages.exporting, "onnx_source") == JStr("external_command")
    requires Get(stages.evaluation, "metrics_source") == JStr("measured")
    ensures Traced(Provenance(py, env, config, stages), stages.training)
  {
    EvidenceIsShown(py, env, config, stages);
    EvidenceValues(py, env, config, stages);
  }

  lemma EvidenceExact(py: Interpreter, provenance: Json, training: Json)
    requires Traced(provenance, training)
    ensures EvidenceClean(py, provenance) <==> CheckpointReady(py, training)
  {
    assert EvidenceDefect(py, provenance, MissingCheckpoint) <==> IsBlank(py, Get(training, "checkpoint"), "sha256");
  }

  // ----- the composition -----

  predicate ShapeReady(py: Interpreter, config: Json, input: Json) {
    var shape := Shape(py, InputSize(config, input));
    shape.Some? && InputReady(py, input, shape.value)
  }

  /** What the gate does not look at but the validator does. */
  predicate CardReady(py: Interpreter, env: Surroundings, config: Json, stages: Stages) {
    && InputConfig(config).Some?
    && ShapeReady(py, config, InputConfig(config).value)
    && IsBatchSize(Get(DeploymentSection(config), "max_batch_size"))
    && DatasetReady(py, config) && OriginReady(py, env, config) && CheckpointReady(py, stages.training)
  }

  ghost predicate SectionsClean(py: Interpreter, card: Json, s: Sections, filename: string, digest: string) {
    && LayoutClean(card) && InputClean(py, s.input)
    && ModelClean(py, s.model) && NameClean(py, s.model, filename) && HashClean(py, s.model, Strict(filename, digest))
    && MetricsClean(s.metrics, s.thresholds) && DeploymentClean(s.deployment, s.limitations)
    && ReleaseClean(py, s.thresholds, s.dataset, s.limitations)
    && ExperimentClean(py, s.provenance) && ConfigClean(py, s.provenance) && EvidenceClean(py, s.provenance)
  }

  predicate SectionDefect(py: Interpreter, card: Json, s: Sections, opts: CardOptions, i: CardIssue) {
    || LayoutDefect(card, i) || InputDefect(py, s.input, i)
    || ModelDefect(py, s.model, i) || ArtifactDefect(py, s.model, opts.artifactFilename, i)
         || HashDefect(py, s.model, opts, i)
    || MetricsDefect(s.metrics, s.thresholds, i) || DeploymentDefect(s.deployment, s.limitations, i)
    || ReleaseDefect(py, s.thresholds, s.dataset, s.limitations, i)
    || ExperimentDefect(py, s.provenance, i) || ConfigDefect(py, s.provenance, i) || EvidenceDefect(py, s.provenance, i)
  }

  /** The validator looks at the sections one by one. */
  lemma CleanBySection(py: Interpreter, card: Json, s: Sections, filename: string, digest: string)
    requires HasSections(card, s) && s.provenance.JObj?
    ensures IsClean(py, card, Strict(filename, digest)) <==> SectionsClean(py, card, s, filename, digest)
  {
    var opts := Strict(filename, digest);
    forall i ensures Defect(py, card, opts, i) <==> SectionDefect(py, card, s, opts, i) {
    }
    if IsClean(py, card, opts) {
      forall i ensures !SectionDefect(py, card, s, opts, i) {
        assert !Defect(py, card, opts, i);
      }
      NoDefectInAnySection(py, card, s, filename, digest);
    }
  }

  lemma NoDefectInAnySection(py: Interpreter, card: Json, s: Sections, filename: string, digest: string)
    requires forall i :: !SectionDefect(py, card, s, Strict(filename, digest), i)
    ensures SectionsClean(py, card, s, filename, digest)
  {
    forall i
      ensures !LayoutDefect(card, i) && !InputDefect(py, s.input, i) && !ModelDefect(py, s.model, i)
      ensures !ArtifactDefect(py, s.model, filename, i) && !HashDefect(py, s.model, Strict(filename, digest), i)
      ensures !MetricsDefect(s.metrics, s.thresholds, i) && !DeploymentDefect(s.deployment, s.limitations, i)
      ensures !ReleaseDefect(py, s.thresholds, s.dataset, s.limitations, i)
      ensures !ExperimentDefect(py, s.provenance, i) && !ConfigDefect(py, s.provenance, i)
                && !EvidenceDefect(py, s.provenance, i)
    {
      assert !SectionDefect(py, card, s, Strict(filename, digest), i);
    }
  }

  lemma ModelIsClean(py: Interpreter, config: Json, filename: string, digest: string, model: Json)
    requires ParseArtifactName(filename).Some? && digest != ""
    requires model == ModelSection(py, config, filename, ParseArtifactName(filename).value, digest)
    ensures ModelClean(py, model) && NameClean(py, model, filename) && HashClean(py, model, Strict(filename, digest))
  {
    var a := ParseArtifactName(filename).value;
    ParsedVersionIsSemver(filename);
    ParseExact(filename);
    ModelSectionShows(py, config, filename, a, digest);
    ModelSectionIsClean(py, model, a, digest);
    NamesAgree(py, model, filename, digest);
    DigestsAgree(py, model, a, filename, digest);
  }

  lemma ResultsExact(py: Interpreter, s: Sections)
    requires s.thresholds.JObj? && s.thresholds.fields != map[] && s.deployment.JObj? && s.dataset.JObj?
    requires forall name :: name in s.thresholds.fields ==> AtLeast(Get(s.metrics, name), Get(s.thresholds, name))
    requires s.limitations.JList? && s.limitations.items != [] && !IsPlaceholder(py, s.limitations)
    ensures MetricsClean(s.metrics, s.thresholds)
    ensures DeploymentClean(s.deployment, s.limitations) <==> IsBatchSize(Get(s.deployment, "max_batch_size"))
    ensures ReleaseClean(py, s.thresholds, s.dataset, s.limitations)
            <==> forall split :: split in SPLITS ==> !IsPlaceholderId(TextOf(py, s.dataset, split))
  {
    MetricsAreClean(s.metrics, s.thresholds);
    DeploymentExact(s.deployment, s.limitations);
    ReleaseExact(py, s.thresholds, s.dataset, s.limitations);
  }

  /** Behind the gate, the results, the deployment and the data set of the card. */
  lemma GatedResults(py: Interpreter, config: Json, stages: Stages, ws: Workspace, s: Sections)
    requires Passes(py, config, stages, ws) && PackageProfile(py, config) == "production"
    requires s.metrics == AsObject(Get(stages.evaluation, "metrics")) && s.thresholds == AsObject(Thresholds(config))
    requires s.deployment == DeploymentSection(config) && s.limitations == Limitations(py, config)
              && s.dataset == DatasetSection(py, config)
    ensures MetricsClean(s.metrics, s.thresholds)
    ensures DeploymentClean(s.deployment, s.limitations) <==> IsBatchSize(Get(s.deployment, "max_batch_size"))
    ensures ReleaseClean(py, s.thresholds, s.dataset, s.limitations) <==> DatasetReady(py, config)
  {
    PassedGateMeetsThresholds(py, config, stages, ws);
    PassedGateTrustsStages(py, config, stages, ws);
    LimitationsAreReal(py, config);
    DatasetTexts(py, config);
    ResultsExact(py, s);
  }

  /** Behind the gate, the provenance of the card. */
  lemma GatedProvenance(
    py: Interpreter, env: Surroundings, config: Json, stages: Stages, ws: Workspace, provenance: Json)
    requires Passes(py, config, stages, ws) && PackageProfile(py, config) == "production"
    requires provenance == Provenance(py, env, config, stages)
    ensures ExperimentClean(py, provenance) && ConfigClean(py, provenance) <==> OriginReady(py, env, config)
    ensures EvidenceClean(py, provenance) <==> CheckpointReady(py, stages.training)
  {
    PassedGateTrustsStages(py, config, stages, ws);
    ExperimentIsShown(py, env, config, stages);
    ConfigIsShown(py, env, config, stages);
    OriginExact(py, env, config, provenance);
    EvidenceIsTraced(py, env, config, stages);
    EvidenceExact(py, provenance, stages.training);
  }

  /** `s` holds the sections that the builder makes, with the digest filled in. */
  predicate AreFinished(
    py: Interpreter, env: Surroundings, config: Json, stages: Stages, filename: string, labelsName: string,
    digest: string, input: Json, shape: seq<int>, s: Sections)
  {
    && ParseArtifactName(filename).Some?
         && s.model == ModelSection(py, config, filename, ParseArtifactName(filename).value, digest)
    && s.dataset == DatasetSection(py, config) && s.input == InputSection(py, input, shape)
    && s.output == OutputSection(py, config, stages, labelsName)
    && s.metrics == AsObject(Get(stages.evaluation, "metrics")) && s.thresholds == AsObject(Thresholds(config))
    && s.deployment == DeploymentSection(config) && s.limitations == Limitations(py, config)
    && s.provenance == Provenance(py, env, config, stages)
  }

  lemma FinishedLayout(
    py: Interpreter, env: Surroundings, config: Json, stages: Stages, filename: string, labelsName: string,
    digest: string, input: Json, shape: seq<int>, card: Json, s: Sections)
    requires HasSections(card, s) && AreFinished(py, env, config, stages, filename, labelsName, digest, input, shape, s)
    ensures LayoutClean(card)
  {
    ModelSectionComplete(py, config, filename, ParseArtifactName(filename).value, digest);
    OtherSectionsComplete(py, config, stages, labelsName, input, shape);
    LayoutIsClean(card, s);
  }

  lemma FinishedExact(
    py: Interpreter, env: Surroundings, config: Json, stages: Stages, ws: Workspace, filename: string,
    labelsName: string, digest: string, input: Json, shape: seq<int>, card: Json, s: Sections)
    requires Passes(py, config, stages, ws) && PackageProfile(py, config) == "production" && digest != ""
              && |shape| == 4
    requires HasSections(card, s) && AreFinished(py, env, config, stages, filename, labelsName, digest, input, shape, s)
    ensures IsClean(py, card, Strict(filename, digest))
            <==> (&& InputReady(py, input, shape) && IsBatchSize(Get(DeploymentSection(config), "max_batch_size"))
                  && DatasetReady(py, config) && OriginReady(py, env, config) && CheckpointReady(py, stages.training))
  {
    CleanBySection(py, card, s, filename, digest);
    FinishedLayout(py, env, config, stages, filename, labelsName, digest, input, shape, card, s);
    InputSectionExact(py, input, shape);
    ModelIsClean(py, config, filename, digest, s.model);
    GatedResults(py, config, stages, ws, s);
    GatedProvenance(py, env, config, stages, ws, s.provenance);
  }

  /** What the builder makes, and packaging finishes, has these sections. */
  lemma FinishedSections(
    py: Interpreter, env: Surroundings, config: Json, stages: Stages, filename: string, labelsName: string,
    digest: string, card: Json)
    returns (input: Json, shape: seq<int>, s: Sections)
    requires BuildModelCard(py, env, config, stages, filename, labelsName) == Some(card)
    ensures InputConfig(config) == Some(input) && Shape(py, InputSize(config, input)) == Some(shape) && |shape| == 4
    ensures HasSections(FillSha256(card, digest), s)
    ensures AreFinished(py, env, config, stages, filename, labelsName, digest, input, shape, s)
  {
    input := InputConfig(config).value;
    shape := Shape(py, InputSize(config, input)).value;
    var built := BuildSections(py, env, config, stages, filename, labelsName).value;
    var a := ParseArtifactName(filename).value;
    CardHoldsSections(built);
    FillingKeepsSections(card, built, digest);
    FilledModelSection(py, config, filename, a, digest);
    s := built.(model := ModelSection(py, config, filename, a, digest));
  }

  /**
   Behind a passed production gate, the finished card passes strict validation exactly when it is
   ready: whatever else could be wrong with a card, the gate or the builder has ruled out.
   */
  lemma GateThenCard(
    py: Interpreter, env: Surroundings, config: Json, stages: Stages, ws: Workspace, filename: string,
    labelsName: string, digest: string, card: Json)
    requires Passes(py, config, stages, ws) && PackageProfile(py, config) == "production"
    requires BuildModelCard(py, env, config, stages, filename, labelsName) == Some(card) && digest != ""
    ensures IsClean(py, FillSha256(card, digest), Strict(filename, digest)) <==> CardReady(py, env, config, stages)
  {
    var input, shape, s := FinishedSections(py, env, config, stages, filename, labelsName, digest, card);
    FinishedExact(py, env, config, stages, ws, filename, labelsName, digest, input, shape, FillSha256(card, digest), s);
  }
}
