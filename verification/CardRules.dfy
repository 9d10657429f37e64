/**
 What the card validator asks for, in plain terms: a card is valid exactly if it follows these rules,
 for every choice of file name, digest and strictness.
 */
module CardRules {
  import opened Text
  import opened JsonValues
  import opened ArtifactNames
  import opened ModelCard

  predicate HasAll(j: Json, keys: set<string>) {
    j.JObj? && keys <= j.fields.Keys
  }

  predicate LayoutRight(card: Json) {
    && HasAll(card, {"dataset", "deployment", "input", "limitations", "metrics", "model", "output"})
    && HasAll(Get(card, "model"), {"architecture", "format", "name", "precision", "sha256", "task", "version"})
    && HasAll(Get(card, "dataset"), {"test", "train", "val"})
    && HasAll(Get(card, "input"), {"color", "dtype", "layout", "normalize", "resize", "shape"})
    && HasAll(Get(card, "output"), {"format"}) && Get(card, "metrics").JObj?
    && HasAll(Get(card, "deployment"), {"max_batch_size", "runtime"})
  }

  predicate ModelRight(py: Interpreter, model: Json) {
    var version, format, precision := Str(py, Get(model, "version")), Get(model, "format"), Get(model, "precision");
    && (version == "" || IsSemver(version))
    && (Truthy(format) ==> Lower(Str(py, format)) == "onnx")
    && (Truthy(precision) ==> Lower(Str(py, precision)) in {"fp32", "fp16", "int8"})
  }

  predicate InputRight(py: Interpreter, input: Json) {
    var shape := Get(input, "shape");
    && shape.JList? && |shape.items| == 4
    && (forall k :: 0 <= k < 4 ==> (shape.items[k].JInt? && shape.items[k].i > 0) || shape.items[k] == JBool(true))
    && Lower(Str(py, Get(input, "layout"))) in {"", "nchw", "nhwc"}
    && Lower(Str(py, Get(input, "dtype"))) in {"", "float32", "float16", "uint8", "int8"}
  }

  /** Each threshold is a number, and the metric of its name is a number that reaches it. */
  predicate MetricsRight(metrics: Json, thresholds: Json) {
    thresholds.JNull?
    || (thresholds.JObj? && forall name :: name in thresholds.fields ==>
          AtLeast(Get(metrics, name), thresholds.fields[name]))
  }

  predicate DeploymentRight(deployment: Json, limitations: Json) {
    var size := Get(deployment, "max_batch_size");
    && (size.JNull? || (size.JInt? && size.i >= 1) || size == JBool(true))
    && (limitations.JNull? || (limitations.JList? && |limitations.items| > 0))
  }

  /** The card tells of the version and the precision that stand in the name of the file. */
  predicate NameRight(py: Interpreter, model: Json, filename: string) {
    filename == ""
    || (var parsed := ParseArtifactName(filename);
        && parsed.Some? && Str(py, Get(model, "version")) == parsed.value.version
        && Lower(Str(py, Get(model, "precision"))) == parsed.value.precision)
  }

  /** The digest on the card is there, if that is asked for, and is the expected one. */
  predicate HashRight(py: Interpreter, model: Json, opts: CardOptions) {
    var sha := if Truthy(Get(model, "sha256")) then Str(py, Get(model, "sha256")) else "";
    (opts.strictHash ==> sha != "") && (opts.expectedSha256 != "" && sha != "" ==> sha == opts.expectedSha256)
  }

  predicate IsText(py: Interpreter, j: Json) {
    Truthy(j) && Strip(Str(py, j)) != ""
  }

  predicate ProvenanceRight(py: Interpreter, provenance: Json) {
    && provenance.JObj? && Get(provenance, "profile") == JStr("production")
    && IsText(py, Get(provenance, "experiment_id")) && IsText(py, Get(provenance, "config_path"))
    && IsText(py, Get(provenance, "config_sha256"))
    && IsText(py, Get(provenance, "code_revision"))
    && Lower(Strip(Str(py, Get(provenance, "code_revision")))) != "unknown"
    && IsText(py, Get(Get(Get(provenance, "training"), "checkpoint"), "sha256"))
    && Get(Get(provenance, "export"), "onnx_source") == JStr("external_command")
    && Get(Get(provenance, "evaluation"), "metrics_source") == JStr("measured")
  }

  predicate NamesData(py: Interpreter, id: Json) {
    Truthy(id) && Str(py, id) !in {"", "dataset_v0.0.0", "dataset_test_v0.0.0"}
  }

  predicate ReleaseRight(py: Interpreter, thresholds: Json, dataset: Json, limitations: Json) {
    && thresholds.JObj? && thresholds.fields != map[]
    && NamesData(py, Get(dataset, "train")) && NamesData(py, Get(dataset, "val")) && NamesData(py, Get(dataset, "test"))
    && (limitations.JList? ==> forall k :: 0 <= k < |limitations.items| ==>
          !Contains(Lower(Str(py, limitations.items[k])), "fill in"))
  }

  // ----- one part after the other -----

  lemma TopLevelExact(card: Json)
    ensures (forall section :: section in TOP_LEVEL ==> Has(card, section)) <==>
              HasAll(card, {"dataset", "deployment", "input", "limitations", "metrics", "model", "output"})
  {
    var keys := {"dataset", "deployment", "input", "limitations", "metrics", "model", "output"};
    assert forall k :: k in keys <==> k in TOP_LEVEL;
    assert "model" in TOP_LEVEL;
  }

  lemma FieldsExact(data: Json, section: string, keys: set<string>)
    requires data.JObj? && forall k :: k in keys <==> k in RequiredFields(section)
    ensures (forall field :: field in RequiredFields(section) ==> Has(data, field)) <==> HasAll(data, keys)
  {}

  ghost predicate SectionRight(card: Json, section: string) {
    Section(card, section).JObj?
    && forall field :: field in RequiredFields(section) ==> Has(Section(card, section), field)
  }

  lemma SectionsExact(card: Json)
    ensures (forall section :: section in SECTIONS ==> SectionRight(card, section)) <==>
              && SectionRight(card, "model") && SectionRight(card, "dataset") && SectionRight(card, "input")
              && SectionRight(card, "output") && SectionRight(card, "metrics") && SectionRight(card, "deployment")
  {
    assert SECTIONS[0] == "model" && SECTIONS[1] == "dataset" && SECTIONS[2] == "input";
    assert SECTIONS[3] == "output" && SECTIONS[4] == "metrics" && SECTIONS[5] == "deployment";
  }

  lemma LayoutBySection(card: Json)
    ensures (forall issue: CardIssue :: !LayoutDefect(card, issue)) <==>
              && (forall section :: section in TOP_LEVEL ==> Has(card, section))
              && (forall section :: section in SECTIONS ==> SectionRight(card, section))
  {
    if forall issue: CardIssue :: !LayoutDefect(card, issue) {
      forall section | section in TOP_LEVEL ensures Has(card, section) {
        assert !LayoutDefect(card, MissingSection(section));
      }
      forall section | section in SECTIONS ensures SectionRight(card, section) {
        assert !LayoutDefect(card, InvalidSection(section));
        forall field | field in RequiredFields(section) ensures Has(Section(card, section), field) {
          assert !LayoutDefect(card, MissingField(section, field));
        }
      }
    }
  }

  lemma LayoutExact(card: Json)
    ensures (forall issue: CardIssue :: !LayoutDefect(card, issue)) <==> LayoutRight(card)
  {
    LayoutBySection(card);
    TopLevelExact(card);
    SectionsExact(card);
    if HasAll(card, {"dataset", "deployment", "input", "limitations", "metrics", "model", "output"}) {
      ModelSectionExact(card);
      InputSectionExact(card);
      SmallSectionsExact(card);
    }
  }

  lemma ModelSectionExact(card: Json)
    requires HasAll(card, {"model"})
    ensures SectionRight(card, "model") <==>
              HasAll(Get(card, "model"), {"architecture", "format", "name", "precision", "sha256", "task", "version"})
  {
    SectionByKeys(card, "model", {"architecture", "format", "name", "precision", "sha256", "task", "version"});
  }

  lemma InputSectionExact(card: Json)
    requires HasAll(card, {"input"})
    ensures SectionRight(card, "input") <==>
              HasAll(Get(card, "input"), {"color", "dtype", "layout", "normalize", "resize", "shape"})
  {
    SectionByKeys(card, "input", {"color", "dtype", "layout", "normalize", "resize", "shape"});
  }

  lemma SmallSectionsExact(card: Json)
    requires HasAll(card, {"dataset", "output", "metrics", "deployment"})
    ensures SectionRight(card, "dataset") <==> HasAll(Get(card, "dataset"), {"test", "train", "val"})
    ensures SectionRight(card, "output") <==> HasAll(Get(card, "output"), {"format"})
    ensures SectionRight(card, "metrics") <==> Get(card, "metrics").JObj?
    ensures SectionRight(card, "deployment") <==> HasAll(Get(card, "deployment"), {"max_batch_size", "runtime"})
  {
    SectionByKeys(card, "dataset", {"test", "train", "val"});
    SectionByKeys(card, "output", {"format"});
    SectionByKeys(card, "metrics", {});
    SectionByKeys(card, "deployment", {"max_batch_size", "runtime"});
  }

  lemma SectionByKeys(card: Json, section: string, keys: set<string>)
    requires HasAll(card, {section}) && forall k :: k in keys <==> k in RequiredFields(section)
    ensures SectionRight(card, section) <==> HasAll(Get(card, section), keys)
  {
    if Get(card, section).JObj? {
      FieldsExact(Get(card, section), section, keys);
    }
  }

  lemma ModelExact(py: Interpreter, model: Json)
    requires HasAll(model, {"version"})
    ensures (forall issue: CardIssue :: !ModelDefect(py, model, issue)) <==> ModelRight(py, model)
  {
    assert ModelDefect(py, model, InvalidVersion) <==>
      !(Str(py, Get(model, "version")) == "" || IsSemver(Str(py, Get(model, "version"))));
    assert ModelDefect(py, model, InvalidFormat) <==>
      Truthy(Get(model, "format")) && Lower(Str(py, Get(model, "format"))) != "onnx";
    assert ModelDefect(py, model, InvalidPrecision) <==>
      Truthy(Get(model, "precision")) && Lower(Str(py, Get(model, "precision"))) !in {"fp32", "fp16", "int8"};
  }

  lemma InputExact(py: Interpreter, input: Json)
    requires HasAll(input, {"layout", "dtype"})
    ensures (forall issue: CardIssue :: !InputDefect(py, input, issue)) <==> InputRight(py, input)
  {
    assert InputDefect(py, input, ShapeNotFour) <==> !IsFour(Get(input, "shape"));
    assert IsFour(Get(input, "shape")) ==>
      (InputDefect(py, input, ShapeNotPositive) <==> !AllPositive(Get(input, "shape").items));
    assert InputDefect(py, input, InvalidLayout) <==> Lower(Str(py, Get(input, "layout"))) !in {"", "nchw", "nhwc"};
    assert InputDefect(py, input, InvalidDtype) <==>
      Lower(Str(py, Get(input, "dtype"))) !in {"", "float32", "float16", "uint8", "int8"};
  }

  lemma MetricsExact(metrics: Json, thresholds: Json)
    requires metrics.JObj?
    ensures (forall issue: CardIssue :: !MetricsDefect(metrics, thresholds, issue))
       <==> MetricsRight(metrics, thresholds)
  {
    if forall issue: CardIssue :: !MetricsDefect(metrics, thresholds, issue) {
      assert !MetricsDefect(metrics, thresholds, InvalidThresholds);
      forall name | Has(thresholds, name) ensures AtLeast(Get(metrics, name), thresholds.fields[name]) {
        assert !MetricsDefect(metrics, thresholds, InvalidThreshold(name));
        assert !MetricsDefect(metrics, thresholds, MetricMissing(name));
        assert !MetricsDefect(metrics, thresholds, MetricBelowThreshold(name));
      }
    }
  }

  lemma DeploymentExact(deployment: Json, limitations: Json)
    requires deployment.JObj?
    ensures (forall issue: CardIssue :: !DeploymentDefect(deployment, limitations, issue)) <==>
              DeploymentRight(deployment, limitations)
  {
    assert DeploymentDefect(deployment, limitations, InvalidMaxBatchSize) <==>
      !IsBatchSize(Get(deployment, "max_batch_size"));
    assert DeploymentDefect(deployment, limitations, InvalidLimitations) <==>
      !(limitations.JNull? || (limitations.JList? && |limitations.items| > 0));
  }

  lemma NameExact(py: Interpreter, model: Json, filename: string)
    requires HasAll(model, {"version", "precision"})
    ensures (forall issue: CardIssue :: !ArtifactDefect(py, model, filename, issue))
       <==> NameRight(py, model, filename)
  {
    if filename != "" {
      var parsed := ParseArtifactName(filename);
      assert ArtifactDefect(py, model, filename, InvalidArtifactName) <==> parsed.None?;
      assert parsed.Some? ==> (ArtifactDefect(py, model, filename, VersionMismatch) <==>
                                Str(py, Get(model, "version")) != parsed.value.version);
      assert parsed.Some? ==> (ArtifactDefect(py, model, filename, PrecisionMismatch) <==>
                                Lower(Str(py, Get(model, "precision"))) != parsed.value.precision);
    }
  }

  lemma HashExact(py: Interpreter, model: Json, opts: CardOptions)
    requires model.JObj?
    ensures (forall issue: CardIssue :: !HashDefect(py, model, opts, issue)) <==> HashRight(py, model, opts)
  {
    assert HashDefect(py, model, opts, EmptySha256) <==> opts.strictHash && CardSha256(py, model) == "";
    assert HashDefect(py, model, opts, Sha256Mismatch) <==>
      && opts.expectedSha256 != "" && CardSha256(py, model) != ""
      && CardSha256(py, model) != opts.expectedSha256;
  }

  lemma TextExact(py: Interpreter, j: Json, key: string)
    ensures IsBlank(py, j, key) <==> !IsText(py, Get(j, key))
  {
    assert Strip("") == "";
  }

  lemma RevisionExact(py: Interpreter, provenance: Json)
    ensures !IsUnknown(TextOf(py, provenance, "code_revision")) <==>
              IsText(py, Get(provenance, "code_revision"))
                && Lower(Strip(Str(py, Get(provenance, "code_revision")))) != "unknown"
  {
    TextExact(py, provenance, "code_revision");
    assert Strip("") == "" && Lower("") == "";
  }

  lemma ExperimentExact(py: Interpreter, provenance: Json)
    ensures (forall issue: CardIssue :: !ExperimentDefect(py, provenance, issue)) <==>
              Get(provenance, "profile") == JStr("production") && IsText(py, Get(provenance, "experiment_id"))
  {
    TextExact(py, provenance, "experiment_id");
    assert ExperimentDefect(py, provenance, UntrustedProfile) <==> Get(provenance, "profile") != JStr("production");
    assert ExperimentDefect(py, provenance, MissingExperimentId) <==> IsBlank(py, provenance, "experiment_id");
  }

  lemma ConfigExact(py: Interpreter, provenance: Json)
    ensures (forall issue: CardIssue :: !ConfigDefect(py, provenance, issue)) <==>
              && IsText(py, Get(provenance, "config_path")) && IsText(py, Get(provenance, "config_sha256"))
              && IsText(py, Get(provenance, "code_revision"))
              && Lower(Strip(Str(py, Get(provenance, "code_revision")))) != "unknown"
  {
    TextExact(py, provenance, "config_path");
    TextExact(py, provenance, "config_sha256");
    RevisionExact(py, provenance);
    assert ConfigDefect(py, provenance, MissingConfigPath) <==> IsBlank(py, provenance, "config_path");
    assert ConfigDefect(py, provenance, MissingConfigSha256) <==> IsBlank(py, provenance, "config_sha256");
    assert ConfigDefect(py, provenance, MissingCodeRevision) <==> IsUnknown(TextOf(py, provenance, "code_revision"));
  }

  lemma EvidenceExact(py: Interpreter, provenance: Json)
    ensures (forall issue: CardIssue :: !EvidenceDefect(py, provenance, issue)) <==>
              && IsText(py, Get(Get(Get(provenance, "training"), "checkpoint"), "sha256"))
              && Get(Get(provenance, "export"), "onnx_source") == JStr("external_command")
              && Get(Get(provenance, "evaluation"), "metrics_source") == JStr("measured")
  {
    var checkpoint := Get(Get(provenance, "training"), "checkpoint");
    TextExact(py, checkpoint, "sha256");
    assert EvidenceDefect(py, provenance, MissingCheckpoint) <==>
      !checkpoint.JObj? || IsBlank(py, checkpoint, "sha256");
    assert EvidenceDefect(py, provenance, UntrustedOnnxSource) <==>
      Get(Get(provenance, "export"), "onnx_source") != JStr("external_command");
    assert EvidenceDefect(py, provenance, UntrustedMetricsSource) <==>
      Get(Get(provenance, "evaluation"), "metrics_source") != JStr("measured");
  }

  lemma ProvenanceByPart(py: Interpreter, provenance: Json)
    ensures (forall issue: CardIssue :: !ProvenanceDefect(py, provenance, issue)) <==>
              && provenance.JObj? && (forall issue: CardIssue :: !ExperimentDefect(py, provenance, issue))
              && (forall issue: CardIssue :: !ConfigDefect(py, provenance, issue))
              && (forall issue: CardIssue :: !EvidenceDefect(py, provenance, issue))
  {
    if !provenance.JObj? {
      assert ProvenanceDefect(py, provenance, MissingProvenance);
    } else if forall issue: CardIssue :: !ProvenanceDefect(py, provenance, issue) {
      forall issue: CardIssue
        ensures !ExperimentDefect(py, provenance, issue) && !ConfigDefect(py, provenance, issue)
        ensures !EvidenceDefect(py, provenance, issue)
      {
        assert !ProvenanceDefect(py, provenance, issue);
      }
    }
  }

  lemma ProvenanceExact(py: Interpreter, provenance: Json)
    ensures (forall issue: CardIssue :: !ProvenanceDefect(py, provenance, issue)) <==> ProvenanceRight(py, provenance)
  {
    ProvenanceByPart(py, provenance);
    ExperimentExact(py, provenance);
    ConfigExact(py, provenance);
    EvidenceExact(py, provenance);
  }

  lemma IdExact(py: Interpreter, dataset: Json, split: string)
    ensures IsPlaceholderId(TextOf(py, dataset, split)) <==> !NamesData(py, Get(dataset, split))
  {}

  lemma ThreeIds(py: Interpreter, dataset: Json)
    ensures (forall split :: split in SPLITS ==> NamesData(py, Get(dataset, split))) <==>
              && NamesData(py, Get(dataset, "train")) && NamesData(py, Get(dataset, "val"))
              && NamesData(py, Get(dataset, "test"))
  {
    assert SPLITS[0] == "train" && SPLITS[1] == "val" && SPLITS[2] == "test";
  }

  lemma ReleaseByPart(py: Interpreter, thresholds: Json, dataset: Json, limitations: Json)
    requires dataset.JObj?
    ensures (forall issue: CardIssue :: !ReleaseDefect(py, thresholds, dataset, limitations, issue)) <==>
              && thresholds.JObj? && thresholds.fields != map[] && !IsPlaceholder(py, limitations)
              && forall split :: split in SPLITS ==> NamesData(py, Get(dataset, split))
  {
    forall split | split in SPLITS
      ensures ReleaseDefect(py, thresholds, dataset, limitations, PlaceholderDataset(split)) <==>
                !NamesData(py, Get(dataset, split))
    {
      IdExact(py, dataset, split);
    }
    assert ReleaseDefect(py, thresholds, dataset, limitations, MissingThresholds) <==>
      !(thresholds.JObj? && thresholds.fields != map[]);
    assert ReleaseDefect(py, thresholds, dataset, limitations, PlaceholderLimitations) <==>
      IsPlaceholder(py, limitations);
  }

  lemma ReleaseExact(py: Interpreter, thresholds: Json, dataset: Json, limitations: Json)
    requires dataset.JObj?
    ensures (forall issue: CardIssue :: !ReleaseDefect(py, thresholds, dataset, limitations, issue)) <==>
              ReleaseRight(py, thresholds, dataset, limitations)
  {
    ReleaseByPart(py, thresholds, dataset, limitations);
    ThreeIds(py, dataset);
  }

  // ----- the whole card -----

  ghost predicate FieldsClean(py: Interpreter, card: Json, opts: CardOptions) {
    var model := Section(card, "model");
    && (forall issue: CardIssue :: !ModelDefect(py, model, issue))
    && (forall issue: CardIssue :: !InputDefect(py, Section(card, "input"), issue))
    && (forall issue: CardIssue :: !MetricsDefect(Section(card, "metrics"), Section(card, "metric_thresholds"), issue))
    && (forall issue: CardIssue ::
          !DeploymentDefect(Section(card, "deployment"), Get(card, "limitations"), issue))
    && (forall issue: CardIssue :: !ArtifactDefect(py, model, opts.artifactFilename, issue))
    && (forall issue: CardIssue :: !HashDefect(py, model, opts, issue))
  }

  ghost predicate StrictlyClean(py: Interpreter, card: Json) {
    && (forall issue: CardIssue :: !ProvenanceDefect(py, Get(card, "provenance"), issue))
    && (forall issue: CardIssue :: !ReleaseDefect(
                                     py, Get(card, "metric_thresholds"), Section(card, "dataset"),
                                     Get(card, "limitations"), issue))
  }

  lemma CleanByPart(py: Interpreter, card: Json, opts: CardOptions)
    ensures IsClean(py, card, opts) <==>
              && (forall issue: CardIssue :: !LayoutDefect(card, issue)) && FieldsClean(py, card, opts)
              && (opts.strictProvenance ==> StrictlyClean(py, card))
  {
    if IsClean(py, card, opts) {
      forall issue: CardIssue
        ensures !LayoutDefect(card, issue) && !ModelDefect(py, Section(card, "model"), issue)
        ensures !InputDefect(py, Section(card, "input"), issue)
        ensures !MetricsDefect(Section(card, "metrics"), Section(card, "metric_thresholds"), issue)
        ensures !DeploymentDefect(Section(card, "deployment"), Get(card, "limitations"), issue)
        ensures !ArtifactDefect(py, Section(card, "model"), opts.artifactFilename, issue)
        ensures !HashDefect(py, Section(card, "model"), opts, issue)
        ensures opts.strictProvenance ==> !ProvenanceDefect(py, Get(card, "provenance"), issue)
        ensures opts.strictProvenance ==>
                  !ReleaseDefect(py, Get(card, "metric_thresholds"), Section(card, "dataset"),
                                 Get(card, "limitations"), issue)
      {
        assert !Defect(py, card, opts, issue);
      }
    }
  }

  predicate FieldsRight(py: Interpreter, card: Json, opts: CardOptions) {
    var model := Get(card, "model");
    && ModelRight(py, model) && InputRight(py, Get(card, "input"))
    && MetricsRight(Get(card, "metrics"), Section(card, "metric_thresholds"))
    && DeploymentRight(Get(card, "deployment"), Get(card, "limitations"))
    && NameRight(py, model, opts.artifactFilename) && HashRight(py, model, opts)
  }

  lemma FieldsExactly(py: Interpreter, card: Json, opts: CardOptions)
    requires LayoutRight(card)
    ensures FieldsClean(py, card, opts) <==> FieldsRight(py, card, opts)
  {
    var model := Get(card, "model");
    assert HasAll(model, {"version", "precision"}) && HasAll(Get(card, "input"), {"layout", "dtype"});
    assert model == Section(card, "model") && Get(card, "input") == Section(card, "input");
    assert Get(card, "metrics") == Section(card, "metrics") && Get(card, "deployment") == Section(card, "deployment");
    ModelExact(py, model);
    InputExact(py, Get(card, "input"));
    MetricsExact(Get(card, "metrics"), Section(card, "metric_thresholds"));
    DeploymentExact(Get(card, "deployment"), Get(card, "limitations"));
    NameExact(py, model, opts.artifactFilename);
    HashExact(py, model, opts);
  }

  /** A card is valid exactly if its layout and fields and, in strict mode, its provenance and release are right. */
  lemma ValidCardExactly(py: Interpreter, card: Json, opts: CardOptions)
    ensures IsClean(py, card, opts) <==>
              && LayoutRight(card) && FieldsRight(py, card, opts)
              && (opts.strictProvenance ==>
                   && ProvenanceRight(py, Get(card, "provenance"))
                   && ReleaseRight(py, Get(card, "metric_thresholds"), Get(card, "dataset"), Get(card, "limitations")))
  {
    CleanByPart(py, card, opts);
    LayoutExact(card);
    if LayoutRight(card) {
      FieldsExactly(py, card, opts);
      ProvenanceExact(py, Get(card, "provenance"));
      assert Section(card, "dataset") == Get(card, "dataset");
      ReleaseExact(py, Get(card, "metric_thresholds"), Get(card, "dataset"), Get(card, "limitations"));
    }
  }
}
