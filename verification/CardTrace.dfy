/**
 Where the entries of a finished card come from: each is read back from the card under its own name
 and found in the run, the configuration or the name of the file, and nowhere else.
 */
module CardTrace {
  import opened Prelude
  import opened Text
  import opened JsonValues
  import opened ArtifactNames
  import opened TrustGate
  import opened CardBuilder

  /** A text from the configuration, or else the one that stands in for it. */
  predicate TellsText(py: Interpreter, shown: Json, given: Json, otherwise: string) {
    shown == if Truthy(given) then JStr(Str(py, given)) else JStr(otherwise)
  }

  /** The model section tells the parts of the file name and the digest of the file. */
  predicate ModelTold(py: Interpreter, config: Json, filename: string, digest: string, model: Json) {
    var parsed := ParseArtifactName(filename);
    && parsed.Some? && Get(model, "version") == JStr(parsed.value.version)
    && Get(model, "precision") == JStr(parsed.value.precision) && Get(model, "format") == JStr("onnx")
    && Get(model, "sha256") == JStr(digest)
    && (filename != "" && filename[|filename| - 1] != '\n' ==> Get(model, "name") == JStr(parsed.value.family))
    && TellsText(py, Get(model, "architecture"), Get(Get(config, "model"), "architecture"), Task(py, config))
    && Get(model, "task") == JStr(Task(py, config))
  }

  /** The data set section tells each split's own id, and otherwise the name and version of the data set. */
  predicate DatasetTold(py: Interpreter, config: Json, dataset: Json) {
    var given := Get(config, "dataset");
    var whole := (if Truthy(Get(given, "name")) then Str(py, Get(given, "name")) else "dataset") + "_v"
                 + (if Truthy(Get(given, "version")) then Str(py, Get(given, "version")) else "0.0.0");
    && TellsText(py, Get(dataset, "train"), Get(given, "train_id"), whole)
    && TellsText(py, Get(dataset, "val"), Get(given, "val_id"), whole)
    && TellsText(py, Get(dataset, "test"), Get(given, "test_id"), whole)
  }

  predicate TellsLower(py: Interpreter, shown: Json, given: Json, otherwise: string) {
    shown == if Truthy(given) then JStr(Lower(Str(py, given))) else JStr(otherwise)
  }

  predicate InputTold(py: Interpreter, given: Json, shape: seq<int>, input: Json) {
    && TellsLower(py, Get(input, "layout"), Get(given, "layout"), "nchw")
    && TellsLower(py, Get(input, "dtype"), Get(given, "dtype"), "float32")
    && TellsLower(py, Get(input, "color"), Get(given, "color"), "rgb")
    && TellsText(py, Get(input, "resize"), Get(given, "resize"), "letterbox")
    && Get(input, "normalize") == GetOr(given, "normalize", JStr("none"))
    && Get(input, "shape").JList? && |Get(input, "shape").items| == |shape|
    && forall k :: 0 <= k < |shape| ==> Get(input, "shape").items[k] == JInt(shape[k])
  }

  /** The card has the metrics of the evaluation, and the thresholds of the configuration. */
  ghost predicate ResultsTold(config: Json, stages: Stages, metrics: Json, thresholds: Json) {
    && metrics.JObj? && (forall name :: Get(metrics, name) == Get(Get(stages.evaluation, "metrics"), name))
    && thresholds.JObj?
    && (forall name :: Get(thresholds, name) == Get(Get(Get(config, "package"), "metric_thresholds"), name))
  }

  predicate ReleaseTold(py: Interpreter, config: Json, deployment: Json, limitations: Json) {
    var given, known := Get(config, "deployment"), Get(Get(config, "package"), "limitations");
    && Get(deployment, "runtime") == GetOr(given, "runtime", JStr("onnxruntime"))
    && Get(deployment, "max_batch_size") == GetOr(given, "max_batch_size", JInt(1))
    && limitations.JList?
    && (known.JList? && known.items != [] ==>
         && |limitations.items| == |known.items|
         && forall k :: 0 <= k < |known.items| ==> limitations.items[k] == JStr(Str(py, known.items[k])))
  }

  predicate OriginTold(py: Interpreter, env: Surroundings, config: Json, provenance: Json) {
    && Get(provenance, "profile") == JStr(PackageProfile(py, config))
    && TellsText(py, Get(provenance, "experiment_id"), Get(Get(config, "experiment"), "id"), "")
    && (env.configPath != "" ==> Get(provenance, "config_path") == JStr(env.relative(env.configPath)))
    && Get(provenance, "config_sha256") == JStr(env.configSha256)
    && (env.codeRevision != "" ==> Get(provenance, "code_revision") == JStr(env.codeRevision))
    && (env.codeRevision == "" ==> Get(provenance, "code_revision") == JStr("unknown"))
  }

  predicate EvidenceTold(py: Interpreter, env: Surroundings, config: Json, stages: Stages, provenance: Json) {
    var training, exporting := Get(provenance, "training"), Get(provenance, "export");
    var evaluation := Get(provenance, "evaluation");
    && Get(training, "command") == Get(Get(config, "training"), "command")
    && Get(Get(training, "checkpoint"), "sha256") == Get(Get(stages.training, "checkpoint"), "sha256")
    && Get(exporting, "onnx_source") == GetOr(stages.exporting, "onnx_source", JStr(""))
    && (Truthy(Get(stages.exporting, "report")) ==>
         Get(exporting, "report") == JStr(env.relative(Str(py, Get(stages.exporting, "report")))))
    && Get(evaluation, "metrics_source") == Get(stages.evaluation, "metrics_source")
    && (Truthy(Get(stages.evaluation, "report")) ==>
         Get(evaluation, "report") == JStr(env.relative(Str(py, Get(stages.evaluation, "report")))))
  }

  // ----- each section, entry by entry -----

  lemma TextIsTold(py: Interpreter, given: Json, otherwise: string)
    ensures TellsText(py, JStr(Str(py, Or(given, JStr(otherwise)))), given, otherwise)
  {}

  lemma LowerIsTold(py: Interpreter, j: Json, key: string, otherwise: string)
    requires Lower(otherwise) == otherwise
    ensures TellsLower(py, JStr(LowerText(py, j, key, otherwise)), Get(j, key), otherwise)
  {}

  lemma ModelEntries(py: Interpreter, config: Json, filename: string, a: Artifact, digest: string)
    ensures var model := ModelSection(py, config, filename, a, digest);
            && Get(model, "name") == JStr(ModelName(filename, a)) && Get(model, "task") == JStr(Task(py, config))
            && Get(model, "version") == JStr(a.version) && Get(model, "precision") == JStr(a.precision)
            && Get(model, "format") == JStr("onnx") && Get(model, "sha256") == JStr(digest)
  {}

  lemma ArchitectureEntry(py: Interpreter, config: Json, filename: string, a: Artifact, digest: string)
    ensures Get(ModelSection(py, config, filename, a, digest), "architecture") ==
              JStr(Str(py, Or(Get(AsObject(Get(config, "model")), "architecture"), JStr(Task(py, config)))))
  {}

  lemma ModelIsTold(py: Interpreter, config: Json, filename: string, digest: string, model: Json)
    requires ParseArtifactName(filename).Some?
    requires model == ModelSection(py, config, filename, ParseArtifactName(filename).value, digest)
    ensures ModelTold(py, config, filename, digest, model)
  {
    var parsed := ParseArtifactName(filename).value;
    ModelEntries(py, config, filename, parsed, digest);
    ArchitectureEntry(py, config, filename, parsed, digest);
    ModelNameIsFamily(filename);
    TextIsTold(py, Get(AsObject(Get(config, "model")), "architecture"), Task(py, config));
    assert Get(AsObject(Get(config, "model")), "architecture") == Get(Get(config, "model"), "architecture");
  }

  lemma DatasetEntries(py: Interpreter, config: Json)
    ensures var dataset := DatasetSection(py, config);
            && Get(dataset, "train") == JStr(SplitId(py, config, "train"))
            && Get(dataset, "val") == JStr(SplitId(py, config, "val"))
            && Get(dataset, "test") == JStr(SplitId(py, config, "test"))
  {}

  lemma SplitIsTold(py: Interpreter, config: Json, split: string, key: string)
    requires key == split + "_id"
    ensures var given := Get(config, "dataset");
            TellsText(py, JStr(SplitId(py, config, split)), Get(given, key), DatasetId(py, AsObject(given)))
  {}

  lemma DatasetIsTold(py: Interpreter, config: Json, dataset: Json)
    requires dataset == DatasetSection(py, config)
    ensures DatasetTold(py, config, dataset)
  {
    DatasetEntries(py, config);
    SplitIsTold(py, config, "train", "train_id");
    SplitIsTold(py, config, "val", "val_id");
    SplitIsTold(py, config, "test", "test_id");
  }

  lemma InputEntries(py: Interpreter, given: Json, shape: seq<int>)
    ensures var input := InputSection(py, given, shape);
            && Get(input, "layout") == JStr(LowerText(py, given, "layout", "nchw"))
            && Get(input, "dtype") == JStr(LowerText(py, given, "dtype", "float32"))
            && Get(input, "color") == JStr(LowerText(py, given, "color", "rgb"))
            && Get(input, "resize") == JStr(Str(py, Or(Get(given, "resize"), JStr("letterbox"))))
            && Get(input, "normalize") == GetOr(given, "normalize", JStr("none"))
            && Get(input, "shape") == JList(seq(|shape|, k requires 0 <= k < |shape| => JInt(shape[k])))
  {}

  lemma InputIsTold(py: Interpreter, given: Json, shape: seq<int>, input: Json)
    requires input == InputSection(py, given, shape)
    ensures InputTold(py, given, shape, input)
  {
    InputEntries(py, given, shape);
    assert Lower("nchw") == "nchw" && Lower("float32") == "float32" && Lower("rgb") == "rgb";
    LowerIsTold(py, given, "layout", "nchw");
    LowerIsTold(py, given, "dtype", "float32");
    LowerIsTold(py, given, "color", "rgb");
    TextIsTold(py, Get(given, "resize"), "letterbox");
  }

  lemma ResultsAreTold(config: Json, stages: Stages)
    ensures ResultsTold(config, stages, AsObject(Get(stages.evaluation, "metrics")), AsObject(Thresholds(config)))
  {}

  lemma DeploymentIsTold(config: Json)
    ensures Get(DeploymentSection(config), "runtime") ==
              GetOr(Get(config, "deployment"), "runtime", JStr("onnxruntime"))
    ensures Get(DeploymentSection(config), "max_batch_size") ==
              GetOr(Get(config, "deployment"), "max_batch_size", JInt(1))
  {}

  lemma LimitationsAreTold(py: Interpreter, config: Json)
    ensures var known := Get(Get(config, "package"), "limitations");
            && Limitations(py, config).JList?
            && (known.JList? && known.items != [] ==>
                 && |Limitations(py, config).items| == |known.items|
                 && forall k :: 0 <= k < |known.items| ==>
                      Limitations(py, config).items[k] == JStr(Str(py, known.items[k])))
  {}

  lemma ReleaseIsTold(py: Interpreter, config: Json, deployment: Json, limitations: Json)
    requires deployment == DeploymentSection(config) && limitations == Limitations(py, config)
    ensures ReleaseTold(py, config, deployment, limitations)
  {
    DeploymentIsTold(config);
    LimitationsAreTold(py, config);
  }

  lemma OriginIsTold(py: Interpreter, env: Surroundings, config: Json, stages: Stages, provenance: Json)
    requires provenance == Provenance(py, env, config, stages)
    ensures OriginTold(py, env, config, provenance)
  {
    ExperimentIsShown(py, env, config, stages);
    ConfigIsShown(py, env, config, stages);
    TextIsTold(py, Get(AsObject(Get(config, "experiment")), "id"), "");
    assert Get(AsObject(Get(config, "experiment")), "id") == Get(Get(config, "experiment"), "id");
  }

  lemma TrainingIsTold(py: Interpreter, env: Surroundings, config: Json, training: Json)
    ensures Get(TrainingEvidence(py, env, config, training), "command") == Get(Get(config, "training"), "command")
    ensures Get(Get(TrainingEvidence(py, env, config, training), "checkpoint"), "sha256") ==
              Get(Get(training, "checkpoint"), "sha256")
  {}

  lemma ExportIsTold(py: Interpreter, env: Surroundings, exporting: Json)
    ensures Get(ExportEvidence(py, env, exporting), "onnx_source") == GetOr(exporting, "onnx_source", JStr(""))
    ensures Truthy(Get(exporting, "report")) ==>
              Get(ExportEvidence(py, env, exporting), "report") ==
                JStr(env.relative(Str(py, Get(exporting, "report"))))
  {}

  lemma EvaluationIsTold(py: Interpreter, env: Surroundings, evaluation: Json)
    ensures Get(EvaluationEvidence(py, env, evaluation), "metrics_source") == Get(evaluation, "metrics_source")
    ensures Truthy(Get(evaluation, "report")) ==>
              Get(EvaluationEvidence(py, env, evaluation), "report") ==
                JStr(env.relative(Str(py, Get(evaluation, "report"))))
  {}

  lemma EvidenceIsTold(py: Interpreter, env: Surroundings, config: Json, stages: Stages, provenance: Json)
    requires provenance == Provenance(py, env, config, stages)
    ensures EvidenceTold(py, env, config, stages, provenance)
  {
    EvidenceIsShown(py, env, config, stages);
    TrainingIsTold(py, env, config, stages.training);
    ExportIsTold(py, env, stages.exporting);
    EvaluationIsTold(py, env, stages.evaluation);
  }

  /** All of that about the card that packaging finishes, for any run, configuration and file name. */
  ghost predicate CardTold(
    py: Interpreter, env: Surroundings, config: Json, stages: Stages, filename: string, labelsName: string,
    digest: string, input: Json, shape: seq<int>, card: Json)
  {
    && ModelTold(py, config, filename, digest, Get(card, "model")) && DatasetTold(py, config, Get(card, "dataset"))
    && InputTold(py, input, shape, Get(card, "input"))
    && Get(Get(card, "output"), "classes") == JStr(labelsName)
    && ResultsTold(config, stages, Get(card, "metrics"), Get(card, "metric_thresholds"))
    && ReleaseTold(py, config, Get(card, "deployment"), Get(card, "limitations"))
    && OriginTold(py, env, config, Get(card, "provenance"))
    && EvidenceTold(py, env, config, stages, Get(card, "provenance"))
  }

  ghost predicate SectionsTold(
    py: Interpreter, env: Surroundings, config: Json, stages: Stages, filename: string, labelsName: string,
    digest: string, input: Json, shape: seq<int>, s: Sections)
  {
    && ModelTold(py, config, filename, digest, s.model) && DatasetTold(py, config, s.dataset)
    && InputTold(py, input, shape, s.input) && Get(s.output, "classes") == JStr(labelsName)
    && ResultsTold(config, stages, s.metrics, s.thresholds)
    && ReleaseTold(py, config, s.deployment, s.limitations)
    && OriginTold(py, env, config, s.provenance) && EvidenceTold(py, env, config, stages, s.provenance)
  }

  lemma DescriptionIsTold(
    py: Interpreter, config: Json, stages: Stages, filename: string, labelsName: string, digest: string, input: Json,
    shape: seq<int>, s: Sections)
    requires ParseArtifactName(filename).Some?
              && s.model == ModelSection(py, config, filename, ParseArtifactName(filename).value, digest)
    requires s.dataset == DatasetSection(py, config) && s.input == InputSection(py, input, shape)
              && s.output == OutputSection(py, config, stages, labelsName)
    ensures ModelTold(py, config, filename, digest, s.model) && DatasetTold(py, config, s.dataset)
    ensures InputTold(py, input, shape, s.input) && Get(s.output, "classes") == JStr(labelsName)
  {
    ModelIsTold(py, config, filename, digest, s.model);
    DatasetIsTold(py, config, s.dataset);
    InputIsTold(py, input, shape, s.input);
  }

  lemma RecordIsTold(py: Interpreter, env: Surroundings, config: Json, stages: Stages, s: Sections)
    requires s.metrics == AsObject(Get(stages.evaluation, "metrics")) && s.thresholds == AsObject(Thresholds(config))
    requires s.deployment == DeploymentSection(config) && s.limitations == Limitations(py, config)
    requires s.provenance == Provenance(py, env, config, stages)
    ensures ResultsTold(config, stages, s.metrics, s.thresholds)
    ensures ReleaseTold(py, config, s.deployment, s.limitations)
    ensures OriginTold(py, env, config, s.provenance) && EvidenceTold(py, env, config, stages, s.provenance)
  {
    ResultsAreTold(config, stages);
    ReleaseIsTold(py, config, s.deployment, s.limitations);
    OriginIsTold(py, env, config, stages, s.provenance);
    EvidenceIsTold(py, env, config, stages, s.provenance);
  }

  lemma SectionsAreTold(
    py: Interpreter, env: Surroundings, config: Json, stages: Stages, filename: string, labelsName: string,
    digest: string, input: Json, shape: seq<int>, s: Sections)
    requires AreFinished(py, env, config, stages, filename, labelsName, digest, input, shape, s)
    ensures SectionsTold(py, env, config, stages, filename, labelsName, digest, input, shape, s)
  {
    DescriptionIsTold(py, config, stages, filename, labelsName, digest, input, shape, s);
    RecordIsTold(py, env, config, stages, s);
  }

  lemma FinishedCardIsTold(
    py: Interpreter, env: Surroundings, config: Json, stages: Stages, filename: string, labelsName: string,
    digest: string, card: Json)
    returns (input: Json, shape: seq<int>)
    requires BuildModelCard(py, env, config, stages, filename, labelsName) == Some(card)
    ensures InputConfig(config) == Some(input) && Shape(py, InputSize(config, input)) == Some(shape)
    ensures CardTold(py, env, config, stages, filename, labelsName, digest, input, shape, FillSha256(card, digest))
  {
    var s: Sections;
    input, shape, s := FinishedSections(py, env, config, stages, filename, labelsName, digest, card);
    SectionsAreTold(py, env, config, stages, filename, labelsName, digest, input, shape, s);
  }

  /**
   The shape of the input: four configured sizes as they are, two behind one image of three channels,
   and otherwise the default; the size of the model goes before the size of the input.
   */
  lemma ShapeExact(py: Interpreter, config: Json, input: Json, a: int, b: int, c: int, d: int)
    ensures Get(Get(config, "model"), "input_size") == JList([JInt(a), JInt(b), JInt(c), JInt(d)]) ==>
              Shape(py, InputSize(config, input)) == Some([a, b, c, d])
    ensures Get(Get(config, "model"), "input_size") == JList([JInt(a), JInt(b)]) ==>
              Shape(py, InputSize(config, input)) == Some([1, 3, a, b])
    ensures !Truthy(Get(Get(config, "model"), "input_size")) && Get(input, "size") == JList([JInt(c), JInt(d)]) ==>
              Shape(py, InputSize(config, input)) == Some([1, 3, c, d])
    ensures !Truthy(Get(Get(config, "model"), "input_size")) && !Truthy(Get(input, "size")) ==>
              Shape(py, InputSize(config, input)) == Some([1, 3, 640, 640])
  {
    TwoInts(py, a, b);
    TwoInts(py, c, d);
    TwoInts(py, 640, 640);
    FourInts(py, a, b, c, d);
    assert Get(AsObject(Get(config, "model")), "input_size") == Get(Get(config, "model"), "input_size");
    assert [1, 3] + [a, b] == [1, 3, a, b] && [1, 3] + [c, d] == [1, 3, c, d];
    assert [1, 3] + [640, 640] == [1, 3, 640, 640];
  }

  lemma IntsAppend(py: Interpreter, values: seq<Json>, ints: seq<int>, n: int)
    requires Ints(py, values) == Some(ints)
    ensures Ints(py, values + [JInt(n)]) == Some(ints + [n])
  {
    assert (values + [JInt(n)])[..|values|] == values;
  }

  lemma TwoInts(py: Interpreter, a: int, b: int)
    ensures Ints(py, [JInt(a), JInt(b)]) == Some([a, b])
  {
    var none: seq<Json>, zero: seq<int> := [], [];
    IntsAppend(py, none, zero, a);
    assert none + [JInt(a)] == [JInt(a)] && zero + [a] == [a];
    IntsAppend(py, [JInt(a)], [a], b);
    assert [JInt(a)] + [JInt(b)] == [JInt(a), JInt(b)] && [a] + [b] == [a, b];
  }

  lemma FourInts(py: Interpreter, a: int, b: int, c: int, d: int)
    ensures Ints(py, [JInt(a), JInt(b), JInt(c), JInt(d)]) == Some([a, b, c, d])
  {
    TwoInts(py, a, b);
    IntsAppend(py, [JInt(a), JInt(b)], [a, b], c);
    IntsAppend(py, [JInt(a), JInt(b)] + [JInt(c)], [a, b] + [c], d);
    assert [JInt(a), JInt(b)] + [JInt(c)] + [JInt(d)] == [JInt(a), JInt(b), JInt(c), JInt(d)];
    assert [a, b] + [c] + [d] == [a, b, c, d];
  }
}
