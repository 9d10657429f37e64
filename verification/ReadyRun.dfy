/**
 A run that passes the production gate and whose card is ready, and the same run at an unknown code
 revision: the gate still passes, but strict validation refuses the card.
 */
module ReadyRun {
  import opened Prelude
  import opened Text
  import opened JsonValues
  import opened ArtifactNames
  import opened TrustGate
  import opened ModelCard
  import opened CardBuilder

  const NAME := "m_v1.0.0_fp32.onnx"

  const TRAINING := JObj(map["command" := JList([JStr("t")]), "produced_checkpoint" := JStr("c")])
  const EXPORT := JObj(map[
    "command" := JList([JStr("e")]), "produced_onnx" := JStr("o"), "artifact_name" := JStr(NAME)])
  const EVALUATION := JObj(map["command" := JList([JStr("v")]), "produced_metrics" := JStr("m")])
  const THRESHOLDS := JObj(map["m" := JInt(1)])
  const PACKAGE := JObj(map[
    "metric_thresholds" := THRESHOLDS, "examples_dir" := JStr("x"), "limitations" := JList([JStr("x")])])
  const DATASET := JObj(map[
    "train_manifest" := JStr("t"), "val_manifest" := JStr("v"), "test_manifest" := JStr("w"), "name" := JStr("d")])
  const EXPERIMENT := JObj(map["id" := JStr("e"), "task" := JStr("m")])
  const CONFIG := JObj(map[
    "experiment" := EXPERIMENT, "dataset" := DATASET, "package" := PACKAGE,
    "training" := TRAINING, "export" := EXPORT, "evaluation" := EVALUATION])

  lemma ConfigSections()
    ensures Section(CONFIG, "experiment") == Get(CONFIG, "experiment") == EXPERIMENT
    ensures Section(CONFIG, "dataset") == Get(CONFIG, "dataset") == DATASET
    ensures Section(CONFIG, "package") == Get(CONFIG, "package") == PACKAGE
    ensures Section(CONFIG, "training") == TRAINING && Section(CONFIG, "export") == EXPORT
    ensures Get(CONFIG, "evaluation") == EVALUATION
    ensures Section(CONFIG, "model") == JObj(map[]) && Get(CONFIG, "model") == JNull && Get(CONFIG, "input") == JNull
  {}

  /** The stages completed, with external commands, a checkpoint of digest "c" and the metric at its threshold. */
  predicate Trustworthy(stages: Stages) {
    && Get(stages.training, "status") == JStr("completed") && Get(stages.exporting, "status") == JStr("completed")
    && Get(stages.evaluation, "status") == JStr("completed")
    && Get(Get(stages.training, "external"), "ok") == JBool(true)
    && Get(stages.training, "checkpoint").JObj? && Get(Get(stages.training, "checkpoint"), "sha256") == JStr("c")
    && Get(stages.exporting, "onnx_source") == JStr("external_command")
    && Get(stages.evaluation, "metrics_source") == JStr("measured")
    && AtLeast(Get(Get(stages.evaluation, "metrics"), "m"), JInt(1))
  }

  function Tidy(): Workspace {
    Workspace(_ => DirectoryFound, (_, _) => ManifestGood)
  }

  lemma ProfileIsProduction(py: Interpreter)
    ensures PackageProfile(py, CONFIG) == "production"
  {
    ConfigSections();
    assert Get(PACKAGE, "profile") == JNull;
    assert Strip("production") == "production";
    assert Lower("production") == "production";
  }

  lemma MetricsAreMet(stages: Stages, i: Issue)
    requires Trustworthy(stages)
    ensures !MetricDefect(CONFIG, stages, i)
  {
    ConfigSections();
    assert Thresholds(CONFIG) == THRESHOLDS && "m" in THRESHOLDS.fields;
    assert forall name :: name in THRESHOLDS.fields ==> name == "m";
    assert Get(THRESHOLDS, "m") == JInt(1);
  }

  lemma PackageIsDescribed(py: Interpreter, i: Issue)
    ensures !PackageDefect(py, CONFIG, Tidy(), i)
  {
    ConfigSections();
    assert Get(PACKAGE, "examples_dir") == JStr("x") && Get(PACKAGE, "limitations") == JList([JStr("x")]);
    assert !Contains(Lower("x"), "fill in");
  }

  lemma ManifestsAreNamed()
    ensures forall split :: split in SPLITS ==>
              Truthy(Get(DATASET, split + "_manifest")) && Get(DATASET, split + "_id") == JNull
  {
    assert "train" + "_manifest" == "train_manifest" && "val" + "_manifest" == "val_manifest"
      && "test" + "_manifest" == "test_manifest";
    assert "train" + "_id" == "train_id" && "val" + "_id" == "val_id" && "test" + "_id" == "test_id";
  }

  lemma DatasetIsNamed()
    ensures Dataset(CONFIG) == Get(CONFIG, "dataset") == DATASET
  {}

  lemma DataIsThere(py: Interpreter, i: Issue)
    ensures !SplitDefect(py, CONFIG, Tidy(), i)
  {
    DatasetIsNamed();
    ManifestsAreNamed();
    assert forall split :: split in SPLITS ==> Truthy(Manifest(CONFIG, split));
  }

  lemma GatePasses(py: Interpreter, stages: Stages)
    requires Trustworthy(stages)
    ensures Passes(py, CONFIG, stages, Tidy())
  {
    ProfileIsProduction(py);
    forall i: Issue ensures !Raised(py, CONFIG, stages, Tidy(), i) {
      MetricsAreMet(stages, i);
      PackageIsDescribed(py, i);
      DataIsThere(py, i);
    }
  }

  /** Everything around the run in place, at a given code revision. */
  function AtRevision(revision: string): Surroundings {
    Surroundings(p => p, "p", "h", revision)
  }

  lemma InputIsDefault()
    ensures InputConfig(CONFIG) == Some(JObj(map[])) && InputSize(CONFIG, JObj(map[])) == JList([JInt(640), JInt(640)])
  {
    ConfigSections();
    assert Section(EXPORT, "input") == JObj(map[]);
  }

  lemma SidesAreInts(py: Interpreter)
    ensures Ints(py, [JInt(640), JInt(640)]) == Some([640, 640])
  {
    var nothing: seq<Json>, none: seq<int> := [], [];
    IntsSnoc(py, nothing, none, 640);
    assert nothing + [JInt(640)] == [JInt(640)] && none + [640] == [640];
    IntsSnoc(py, [JInt(640)], [640], 640);
    assert [JInt(640)] + [JInt(640)] == [JInt(640), JInt(640)] && [640] + [640] == [640, 640];
  }

  lemma ShapeIsDefault(py: Interpreter)
    ensures InputConfig(CONFIG) == Some(JObj(map[]))
              && Shape(py, InputSize(CONFIG, JObj(map[]))) == Some([1, 3, 640, 640])
  {
    InputIsDefault();
    SidesAreInts(py);
    assert [1, 3] + [640, 640] == [1, 3, 640, 640];
  }

  lemma IntsSnoc(py: Interpreter, values: seq<Json>, ints: seq<int>, k: int)
    requires Ints(py, values) == Some(ints)
    ensures Ints(py, values + [JInt(k)]) == Some(ints + [k])
  {
    assert (values + [JInt(k)])[..|values + [JInt(k)]| - 1] == values;
  }

  lemma InputIsReady(py: Interpreter)
    ensures InputReady(py, JObj(map[]), [1, 3, 640, 640])
  {
    assert Lower("nchw") == "nchw" && Lower("float32") == "float32";
  }

  lemma DatasetIsReady(py: Interpreter)
    ensures DatasetReady(py, CONFIG)
  {
    DatasetIsNamed();
    ManifestsAreNamed();
    IdIsVersioned(py);
  }

  lemma IdIsVersioned(py: Interpreter)
    ensures !IsPlaceholderId(DatasetId(py, DATASET)) && DatasetId(py, DATASET) != ""
  {
    assert DatasetId(py, DATASET) == "d" + "_v" + "0.0.0";
    assert |"d" + "_v" + "0.0.0"| == 8;
  }

  lemma OriginIsReady(py: Interpreter, revision: string)
    ensures OriginReady(py, AtRevision(revision), CONFIG) <==> !IsUnknown(revision)
  {
    ConfigSections();
    assert Strip("e") == "e" && Strip("p") == "p" && Strip("h") == "h";
  }

  lemma ReadyExactlyWithRevision(py: Interpreter, revision: string, stages: Stages)
    requires Trustworthy(stages)
    ensures CardReady(py, AtRevision(revision), CONFIG, stages) <==> !IsUnknown(revision)
  {
    ShapeIsDefault(py);
    InputIsReady(py);
    DatasetIsReady(py);
    OriginIsReady(py, revision);
    BatchIsDefault();
    CheckpointIsNamed(py, stages.training);
  }

  lemma RevisionIsKnown()
    ensures !IsUnknown("r")
  {
    assert Strip("r") == "r" && Lower("r") == "r";
  }

  lemma BatchIsDefault()
    ensures IsBatchSize(Get(DeploymentSection(CONFIG), "max_batch_size"))
  {
    assert Get(CONFIG, "deployment") == JNull;
    assert Get(DeploymentSection(CONFIG), "max_batch_size") == JInt(1);
  }

  lemma CheckpointIsNamed(py: Interpreter, training: Json)
    requires Get(Get(training, "checkpoint"), "sha256") == JStr("c")
    ensures CheckpointReady(py, training)
  {
    assert Strip("c") == "c" && TextOf(py, Get(training, "checkpoint"), "sha256") == "c";
  }

  lemma NameParses()
    ensures ParseArtifactName(NAME).Some?
  {
    var a := Artifact("m", VersionOf(1, 0, 0), "fp32");
    assert VersionOf(1, 0, 0) == "1.0.0";
    assert Printed(a) == "m" + "_v" + "1.0.0" + "_" + "fp32" + ".onnx" == NAME;
    assert WellFormed(a);
    ParseAfterPrint(a);
  }

  lemma CardIsBuilt(py: Interpreter, revision: string, stages: Stages, labelsName: string)
    ensures BuildModelCard(py, AtRevision(revision), CONFIG, stages, NAME, labelsName).Some?
  {
    NameParses();
    ShapeIsDefault(py);
  }

  /**
   The gate does not look at the code revision: it passes this run at every revision, while the
   finished card is valid exactly if the revision is known.
   */
  lemma GateIsBlindToRevision(py: Interpreter, revision: string, digest: string, stages: Stages) returns (card: Json)
    requires digest != "" && Trustworthy(stages)
    ensures Passes(py, CONFIG, stages, Tidy()) && PackageProfile(py, CONFIG) == "production"
    ensures BuildModelCard(py, AtRevision(revision), CONFIG, stages, NAME, "l") == Some(card)
    ensures IsClean(py, FillSha256(card, digest), Strict(NAME, digest)) <==> !IsUnknown(revision)
  {
    GatePasses(py, stages);
    ProfileIsProduction(py);
    CardIsBuilt(py, revision, stages, "l");
    card := BuildModelCard(py, AtRevision(revision), CONFIG, stages, NAME, "l").value;
    GateThenCard(py, AtRevision(revision), CONFIG, stages, Tidy(), NAME, "l", digest, card);
    ReadyExactlyWithRevision(py, revision, stages);
  }
}
