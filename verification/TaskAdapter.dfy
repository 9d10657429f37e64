/**
 The three stages of a local task adapter. The files of the workspace and the cancel check change
 while a stage runs, so they are the state of a `Host`; what a command does to the files, what a
 file holds and how a path resolves are arbitrary.
 */
module TaskAdapter {
  import opened Prelude
  import opened Text
  import opened JsonValues
  import opened ExternalCommand

  type Digest = s: string | s != "" witness "0"

  /** A file: its digest stands for its contents. */
  datatype File = File(size: nat, mtime: int, sha256: Digest)

  type Files = map<string, File>

  datatype Fingerprint = Fingerprint(path: string, size: nat, mtime: int, sha256: Digest)

  /** None for a missing file. */
  function FingerprintOf(files: Files, path: string): Option<Fingerprint> {
    if path in files then Some(Fingerprint(path, files[path].size, files[path].mtime, files[path].sha256)) else None
  }

  /** The file is there and is not the one that was there before. */
  predicate IsFresh(before: Option<Fingerprint>, after: Option<Fingerprint>) {
    && after.Some?
    && (before.None? || before.value.sha256 != after.value.sha256 || before.value.mtime != after.value.mtime)
  }

  /** The path holds a file that it did not hold before: there was none, or it had another digest or mtime. */
  predicate Renewed(before: Files, after: Files, path: string) {
    path in after
    && (path !in before || before[path].sha256 != after[path].sha256 || before[path].mtime != after[path].mtime)
  }

  lemma FreshIsRenewed(before: Files, after: Files, path: string)
    ensures IsFresh(FingerprintOf(before, path), FingerprintOf(after, path)) <==> Renewed(before, after, path)
  {}

  /** A file that has been there all along is not renewed exactly if neither its digest nor its mtime has changed. */
  lemma UntouchedIsStale(before: Files, after: Files, path: string)
    requires path in before && path in after
    ensures !Renewed(before, after, path) <==>
              before[path].sha256 == after[path].sha256 && before[path].mtime == after[path].mtime
  {}

  datatype Status = Completed | Failed | Cancelled

  datatype Reason =
    | Done
    | CancelSeenByStage
    | CommandCancelled
    | NotAnObject
    | PathEscapes
    | PreflightIssues
    | RuntimePreflightFailed
    | CommandFailed
    | ArtifactMissing
    | ArtifactStale
    | NotLoadable
    | ExportNotCompleted
    | MetricsUnreadable
    | StageRaised

  datatype AdapterResult = AdapterResult(status: Status, reason: Reason, path: string, payload: Json)

  /** One command: what its surroundings do, apart from the cancel check, and what it does to the files. */
  datatype CommandRun = CommandRun(world: World, effect: Files -> Files)

  /**
   What the stages ask of the machine and of the libraries: how paths resolve, whether the training
   manifests are in order, whether a model file loads, what JSON a file holds, the synthetic model
   (None when building it raises), and the settings.
   */
  datatype Machine = Machine(
    py: Interpreter,
    resolve: string -> Option<string>,
    manifestsOk: bool,
    loadable: string -> bool,
    contents: string -> Option<Json>,
    configPath: string,
    exportDir: string,
    synthetic: Option<File>,
    reportPath: string -> string,
    timeout: nat,
    logLimit: nat)

  datatype Adapter = Adapter(
    requiresExternal: bool, task: string, defaultMetrics: map<string, real>, outputFormat: string)

  /** Where a configured path leads. */
  datatype Located = Unset | Outside | At(path: string)

  function Locate(m: Machine, value: Json): Located {
    if !Truthy(value) then Unset
    else
      match m.resolve(Str(m.py, value))
      case Some(path) => At(path)
      case None => Outside
  }

  function Before(files: Files, located: Located): Option<Fingerprint> {
    if located.At? then FingerprintOf(files, located.path) else None
  }

  function FingerprintJson(f: Fingerprint): Json {
    JObj(map["path" := JStr(f.path), "size" := JInt(f.size), "mtime_ns" := JInt(f.mtime), "sha256" := JStr(f.sha256)])
  }

  function CommandOf(py: Interpreter, command: Json): Command {
    if command.JStr? then ShellText(command.s)
    else if command.JList? then
      Argv(seq(|command.items|, k requires 0 <= k < |command.items| => Str(py, command.items[k])))
    else Invalid
  }

  function CommandJson(r: CommandResult): (j: Json)
    ensures Get(j, "ok") == JBool(r.ok)
  {
    JObj(map[
      "ok" := JBool(r.ok),
      "returncode" := if r.returncode.Some? then JInt(r.returncode.value) else JNull,
      "stdout" := JStr(r.stdout),
      "stderr" := JStr(r.stderr)
    ])
  }

  /** An object that leaves the status to its report. */
  predicate IsPayload(j: Json) {
    j.JObj? && "status" !in j.fields
  }

  /** `payload[key] = value` */
  function Put(payload: Json, key: string, value: Json): (r: Json)
    requires IsPayload(payload) && key != "status"
    ensures IsPayload(r) && Get(r, key) == value && forall other :: other != key ==>
              Get(r, other) == Get(payload, other)
  {
    JObj(payload.fields[key := value])
  }

  /** No answer in this stretch was yes. */
  ghost predicate Quiet(answers: nat -> bool, from: nat, to: nat) {
    forall k: nat :: from <= k < to ==> !answers(k)
  }

  /** The world of a command that starts asking with answer number `from`. */
  function WorldFrom(w: World, answers: nat -> bool, from: nat): World {
    w.(cancelledBefore := answers(from), cancels := (k: nat) => answers(from + 1 + k))
  }

  /** How often a command asks that starts with answer number `from`, and whether it succeeds. */
  function QuestionsFrom(m: Machine, command: Json, run: CommandRun, answers: nat -> bool, from: nat): nat {
    Questions(WorldFrom(run.world, answers, from), CommandOf(m.py, command), m.timeout)
  }

  ghost predicate SucceedsFrom(m: Machine, command: Json, run: CommandRun, answers: nat -> bool, from: nat) {
    Succeeds(WorldFrom(run.world, answers, from), CommandOf(m.py, command), m.timeout)
  }

  /** The command succeeds wherever it starts asking. */
  ghost predicate AlwaysSucceeds(m: Machine, command: Json, run: CommandRun, answers: nat -> bool) {
    forall from: nat :: SucceedsFrom(m, command, run, answers, from)
  }

  ghost predicate NobodyCancels(answers: nat -> bool) {
    forall k: nat :: !answers(k)
  }

  class Host {
    var files: Files
    const answers: nat -> bool
    var asked: nat

    constructor (files: Files, answers: nat -> bool)
      ensures this.files == files && this.answers == answers && asked == 0
    {
      this.files, this.answers, asked := files, answers, 0;
    }

    method ShouldCancel() returns (yes: bool)
      modifies `asked
      ensures asked == old(asked) + 1
      ensures yes <==> !Quiet(answers, old(asked), asked)
    {
      yes := answers(asked);
      asked := asked + 1;
    }

    /** A command changes the files in its own way if it is started, and is cancelled exactly when it heard a yes. */
    method Run(m: Machine, command: Json, run: CommandRun) returns (r: CommandResult)
      requires ClockAdvances(run.world) && m.logLimit >= 1
      modifies this
      ensures asked == old(asked) + QuestionsFrom(m, command, run, answers, old(asked))
      ensures r.cancelled <==> !Quiet(answers, old(asked), asked)
      ensures r.cancelled ==> !r.ok
      ensures r.ok <==> SucceedsFrom(m, command, run, answers, old(asked))
      ensures var w := WorldFrom(run.world, answers, old(asked));
              files == if Refusal(w, CommandOf(m.py, command)).None? then run.effect(old(files)) else old(files)
    {
      var w, c := WorldFrom(run.world, answers, asked), CommandOf(m.py, command);
      assert ClockAdvances(w) by {
        assert w.clock == run.world.clock && w.start == run.world.start;
        forall k: nat ensures w.clock(k) >= w.start + k as real / 10.0 {
          assert run.world.clock(k) >= run.world.start + k as real / 10.0;
        }
      }
      var asks;
      r, asks := RunExternalCommand(w, c, m.timeout, m.logLimit);
      AnswersOfTheCommand(run.world, answers, asked, asks);
      if Refusal(w, c).None? {
        files := run.effect(files);
      }
      asked := asked + asks;
    }
  }

  lemma AnswersOfTheCommand(w: World, answers: nat -> bool, from: nat, asks: nat)
    requires forall j: nat :: j + 1 < asks ==> !Answer(WorldFrom(w, answers, from), j)
    ensures !Quiet(answers, from, from + asks) <==> asks > 0 && Answer(WorldFrom(w, answers, from), asks - 1)
  {
    forall j: nat ensures Answer(WorldFrom(w, answers, from), j) == answers(from + j) {
    }
    if asks > 0 && !answers(from + asks - 1) {
      forall k: nat | from <= k < from + asks ensures !answers(k) {
        assert !Answer(WorldFrom(w, answers, from), k - from);
      }
    }
  }

  /** The file at the path is fresh over the stage, and this is its fingerprint. */
  predicate ShowsFresh(before: Files, after: Files, path: string, shown: Json) {
    && Renewed(before, after, path)
    && shown == FingerprintJson(FingerprintOf(after, path).value)
  }

  /** Reading the configuration and making the output directory raises otherwise. */
  predicate IsReadable(config: Json) {
    config.JObj? && Section(config, "experiment").JObj?
  }

  function Report(m: Machine, stage: string): (payload: Json)
    ensures IsPayload(payload)
  {
    JObj(map["report" := JStr(m.reportPath(stage))])
  }

  function Stopped(m: Machine, stage: string, status: Status, reason: Reason): AdapterResult {
    AdapterResult(status, reason, m.reportPath(stage), Report(m, stage))
  }

  function StoppedBy(
    m: Machine, stage: string, status: Status, reason: Reason, external: CommandResult): (r: AdapterResult)
    ensures r.status == status && r.reason == reason && IsPayload(r.payload)
              && Get(Get(r.payload, "external"), "ok") == JBool(external.ok)
  {
    AdapterResult(status, reason, m.reportPath(stage), Put(Report(m, stage), "external", CommandJson(external)))
  }

  // ----- training -----

  function TrainingCommand(config: Json): Json {
    Get(Section(config, "training"), "command")
  }

  function CheckpointPath(m: Machine, config: Json): Located {
    var training := Section(config, "training");
    Locate(m, Or(Get(training, "produced_checkpoint"), Get(training, "checkpoint_file")))
  }

  predicate TrainingAllowed(m: Machine, a: Adapter, config: Json) {
    && Section(config, "training").JObj? && !CheckpointPath(m, config).Outside?
    && (a.requiresExternal ==> m.manifestsOk && Truthy(TrainingCommand(config)) && CheckpointPath(m, config).At?)
  }

  /** What a completed training stage has to show. */
  predicate TrainingShown(m: Machine, a: Adapter, config: Json, before: Files, after: Files, payload: Json) {
    TrainingAllowed(m, a, config) && CommandsShown(m, config, before, after, payload)
  }

  /** A configured command has succeeded, and the configured checkpoint is fresh and shown. */
  predicate CommandsShown(m: Machine, config: Json, before: Files, after: Files, payload: Json) {
    && (Truthy(TrainingCommand(config)) ==> Get(Get(payload, "external"), "ok") == JBool(true))
    && (Truthy(TrainingCommand(config)) && CheckpointPath(m, config).At? ==>
          ShowsFresh(before, after, CheckpointPath(m, config).path, Get(payload, "checkpoint")))
  }

  /** What is wrong when a training stage fails. */
  predicate TrainingProblem(m: Machine, a: Adapter, config: Json, before: Files, after: Files, r: AdapterResult) {
    match r.reason
    case NotAnObject => !Section(config, "training").JObj?
    case PathEscapes => CheckpointPath(m, config).Outside?
    case PreflightIssues => !TrainingAllowed(m, a, config)
    case _ => CommandProblem(m, config, before, after, r)
  }

  /** What is wrong when it is allowed and fails. */
  predicate CommandProblem(m: Machine, config: Json, before: Files, after: Files, r: AdapterResult) {
    match r.reason
    case RuntimePreflightFailed => Truthy(Get(Section(config, "training"), "preflight_command"))
    case CommandFailed => Get(Get(r.payload, "external"), "ok") == JBool(false)
    case ArtifactMissing => CheckpointPath(m, config).At? && CheckpointPath(m, config).path !in after
    case ArtifactStale =>
      var path := CheckpointPath(m, config);
      path.At? && path.path in after && !Renewed(before, after, path.path)
    case _ => false
  }

  function PreflightCommand(config: Json): Json {
    Get(Section(config, "training"), "preflight_command")
  }

  /** A preflight command is configured, and one of its questions is answered with yes. */
  ghost predicate PreflightHears(m: Machine, command: Json, preflight: CommandRun, answers: nat -> bool, from: nat) {
    Truthy(command) && !Quiet(answers, from, from + QuestionsFrom(m, command, preflight, answers, from))
  }

  /** The stage gets to its preflight command, which is the first to hear a yes. */
  ghost predicate PreflightHearsFirst(
    m: Machine, a: Adapter, config: Json, preflight: CommandRun, answers: nat -> bool, from: nat)
  {
    && IsReadable(config) && !answers(from) && TrainingAllowed(m, a, config) && Truthy(TrainingCommand(config))
    && PreflightHears(m, PreflightCommand(config), preflight, answers, from + 1)
  }

  function AfterPreflight(command: Json, preflight: CommandRun, files: Files): Files {
    if Truthy(command) then preflight.effect(files) else files
  }

  /** Nothing stands in the way of the commands of the training stage. */
  ghost predicate CommandsRun(
    m: Machine, training: Json, preflight: CommandRun, run: CommandRun, answers: nat -> bool)
  {
    && NobodyCancels(answers) && AlwaysSucceeds(m, Get(training, "command"), run, answers)
    && (Truthy(Get(training, "preflight_command")) ==>
          AlwaysSucceeds(m, Get(training, "preflight_command"), preflight, answers))
  }

  /** A training stage with commands that run through. */
  ghost predicate TrainingRuns(
    m: Machine, a: Adapter, config: Json, preflight: CommandRun, run: CommandRun, answers: nat -> bool)
  {
    && IsReadable(config) && TrainingAllowed(m, a, config) && Truthy(TrainingCommand(config))
    && CommandsRun(m, Section(config, "training"), preflight, run, answers)
  }

  function TrainedFiles(config: Json, preflight: CommandRun, run: CommandRun, files: Files): Files {
    run.effect(AfterPreflight(PreflightCommand(config), preflight, files))
  }

  /** And that will complete. */
  ghost predicate TrainingWillComplete(
    m: Machine, a: Adapter, config: Json, preflight: CommandRun, run: CommandRun, answers: nat -> bool, files: Files)
  {
    && TrainingRuns(m, a, config, preflight, run, answers)
    && (CheckpointPath(m, config).At? ==>
          Renewed(files, TrainedFiles(config, preflight, run, files), CheckpointPath(m, config).path))
  }

  /** What becomes of a command that has succeeded: its artifact, if one is configured, has to be there and renewed. */
  predicate ArtifactVerdict(target: Located, before: Files, after: Files, status: Status, reason: Reason) {
    if target.At? && target.path !in after then status.Failed? && reason.ArtifactMissing?
    else if target.At? && !Renewed(before, after, target.path) then status.Failed? && reason.ArtifactStale?
    else status.Completed?
  }

  method TakeCheckpoint(
    files: Files, target: Located, ghost start: Files, before: Option<Fingerprint>, report: Json)
    returns (status: Status, reason: Reason, payload: Json)
    requires IsPayload(report) && before == Before(start, target)
    ensures IsPayload(payload) && Get(payload, "external") == Get(report, "external")
    ensures ArtifactVerdict(target, start, files, status, reason)
    ensures status.Completed? && target.At? ==>
              Get(payload, "checkpoint") == FingerprintJson(FingerprintOf(files, target.path).value)
    ensures status.Completed? ==> reason.Done?
  {
    status, reason, payload := Completed, Done, report;
    if target.At? {
      FreshIsRenewed(start, files, target.path);
      var checkpoint := FingerprintOf(files, target.path);
      if checkpoint.None? {
        return Failed, ArtifactMissing, payload;
      }
      payload := Put(payload, "checkpoint", FingerprintJson(checkpoint.value));
      if !IsFresh(before, checkpoint) {
        status, reason := Failed, ArtifactStale;
      }
    }
  }

  method Preflight(m: Machine, host: Host, command: Json, preflight: CommandRun) returns (ready: bool)
    requires ClockAdvances(preflight.world) && m.logLimit >= 1
    modifies host
    ensures host.asked >= old(host.asked)
    ensures !ready ==> Truthy(command)
    ensures ready ==> Quiet(host.answers, old(host.asked), host.asked)
    ensures !Quiet(host.answers, old(host.asked), host.asked) <==>
              PreflightHears(m, command, preflight, host.answers, old(host.asked))
    ensures NobodyCancels(host.answers) && (Truthy(command) ==> AlwaysSucceeds(m, command, preflight, host.answers)) ==>
              ready && host.files == AfterPreflight(command, preflight, old(host.files))
  {
    ready := true;
    if Truthy(command) {
      var result := host.Run(m, command, preflight);
      ready := result.ok;
    }
  }

  method RunCommand(
    m: Machine, host: Host, command: Json, target: Located, ghost start: Files, before: Option<Fingerprint>,
    run: CommandRun)
    returns (status: Status, reason: Reason, payload: Json)
    requires ClockAdvances(run.world) && m.logLimit >= 1 && before == Before(start, target)
    modifies host
    ensures host.asked >= old(host.asked) && IsPayload(payload)
    ensures status.Completed? ==>
              && Get(Get(payload, "external"), "ok") == JBool(true)
              && (target.At? ==>
                   Renewed(start, host.files, target.path)
                     && Get(payload, "checkpoint") == FingerprintJson(FingerprintOf(host.files, target.path).value))
    ensures status.Cancelled? <==> !Quiet(host.answers, old(host.asked), host.asked)
    ensures status.Failed? ==>
              match reason
              case CommandFailed => Get(Get(payload, "external"), "ok") == JBool(false)
              case ArtifactMissing => target.At? && target.path !in host.files
              case ArtifactStale => target.At? && target.path in host.files && !Renewed(start, host.files, target.path)
              case _ => false
    ensures !reason.RuntimePreflightFailed?
    ensures NobodyCancels(host.answers) && AlwaysSucceeds(m, command, run, host.answers) ==>
              host.files == run.effect(old(host.files)) && ArtifactVerdict(target, start, host.files, status, reason)
  {
    var external := host.Run(m, command, run);
    payload := Put(Report(m, "training"), "external", CommandJson(external));
    if external.cancelled {
      return Cancelled, CommandCancelled, payload;
    }
    if !external.ok {
      return Failed, CommandFailed, payload;
    }
    status, reason, payload := TakeCheckpoint(host.files, target, start, before, payload);
  }

  method RunTraining(
    m: Machine, host: Host, training: Json, target: Located, before: Option<Fingerprint>, preflight: CommandRun,
    run: CommandRun)
    returns (status: Status, reason: Reason, payload: Json)
    requires ClockAdvances(preflight.world) && ClockAdvances(run.world) && m.logLimit >= 1
    requires before == Before(host.files, target)
    modifies host
    ensures host.asked >= old(host.asked) && IsPayload(payload)
    ensures status.Completed? ==>
              && Quiet(host.answers, old(host.asked), host.asked) && Get(Get(payload, "external"), "ok") == JBool(true)
              && (target.At? ==> ShowsFresh(old(host.files), host.files, target.path, Get(payload, "checkpoint")))
    ensures status.Failed? && !Quiet(host.answers, old(host.asked), host.asked) ==>
              PreflightHears(m, Get(training, "preflight_command"), preflight, host.answers, old(host.asked))
    ensures PreflightHears(m, Get(training, "preflight_command"), preflight, host.answers, old(host.asked)) ==>
              reason.RuntimePreflightFailed? && !Quiet(host.answers, old(host.asked), host.asked)
    ensures CommandsRun(m, training, preflight, run, host.answers) ==>
              && host.files == run.effect(AfterPreflight(Get(training, "preflight_command"), preflight,
                     old(host.files)))
              && ArtifactVerdict(target, old(host.files), host.files, status, reason)
    ensures status.Cancelled? ==> !Quiet(host.answers, old(host.asked), host.asked)
    ensures status.Failed? ==>
              match reason
              case RuntimePreflightFailed => Truthy(Get(training, "preflight_command"))
              case CommandFailed => Get(Get(payload, "external"), "ok") == JBool(false)
              case ArtifactMissing => target.At? && target.path !in host.files
              case ArtifactStale =>
                target.At? && target.path in host.files && !Renewed(old(host.files), host.files, target.path)
              case _ => false
    ensures reason.RuntimePreflightFailed? ==> status.Failed?
  {
    ghost var start := host.files;
    var ready := Preflight(m, host, Get(training, "preflight_command"), preflight);
    if !ready {
      return Failed, RuntimePreflightFailed, Report(m, "training");
    }
    status, reason, payload := RunCommand(m, host, Get(training, "command"), target, start, before, run);
  }

  /** A training stage that is allowed: the commands, if there are any, and a last look at the cancel check. */
  method CarryOutTraining(m: Machine, host: Host, config: Json, preflight: CommandRun, run: CommandRun)
    returns (r: AdapterResult)
    requires ClockAdvances(preflight.world) && ClockAdvances(run.world) && m.logLimit >= 1
    requires !CheckpointPath(m, config).Outside?
    modifies host
    ensures host.asked >= old(host.asked) && IsPayload(r.payload)
    ensures r.status.Completed? ==>
              && Quiet(host.answers, old(host.asked), host.asked)
              && CommandsShown(m, config, old(host.files), host.files, r.payload)
    ensures r.status.Cancelled? ==> !Quiet(host.answers, old(host.asked), host.asked)
    ensures r.status.Failed? && !Quiet(host.answers, old(host.asked), host.asked) <==>
              Truthy(TrainingCommand(config))
                && PreflightHears(m, PreflightCommand(config), preflight, host.answers, old(host.asked))
    ensures r.status.Failed? ==> CommandProblem(m, config, old(host.files), host.files, r)
    ensures Truthy(TrainingCommand(config))
            && CommandsRun(m, Section(config, "training"), preflight, run, host.answers) ==>
              && host.files == TrainedFiles(config, preflight, run, old(host.files))
              && ArtifactVerdict(CheckpointPath(m, config), old(host.files), host.files, r.status, r.reason)
  {
    var training, target := Section(config, "training"), CheckpointPath(m, config);
    var status, reason, payload := Completed, Done, Report(m, "training");
    if Truthy(Get(training, "command")) {
      status, reason, payload := RunTraining(m, host, training, target, Before(host.files, target), preflight, run);
      if reason.RuntimePreflightFailed? {
        return Stopped(m, "training", Failed, reason);
      }
    }
    var cancelled := host.ShouldCancel();
    if cancelled && !status.Cancelled? {
      return Stopped(m, "training", Cancelled, CancelSeenByStage);
    }
    return AdapterResult(status, reason, m.reportPath("training"), payload);
  }

  /** What the stage looks at before it runs a command, in this order. */
  method TrainingRefusal(m: Machine, a: Adapter, config: Json) returns (reason: Option<Reason>)
    ensures reason.None? <==> TrainingAllowed(m, a, config)
    ensures reason.Some? ==>
              match reason.value
              case NotAnObject => !Section(config, "training").JObj?
              case PathEscapes => Section(config, "training").JObj? && CheckpointPath(m, config).Outside?
              case PreflightIssues => Section(config, "training").JObj? && !CheckpointPath(m, config).Outside?
              case _ => false
  {
    var training := Section(config, "training");
    if !training.JObj? {
      return Some(NotAnObject);
    }
    var command, target := Get(training, "command"), CheckpointPath(m, config);
    if target.Outside? {
      return Some(PathEscapes);
    }
    if a.requiresExternal && (!m.manifestsOk || !Truthy(command) || target.Unset?) {
      return Some(PreflightIssues);
    }
    return None;
  }

  lemma QuietSplits(answers: nat -> bool, from: nat, to: nat)
    requires from < to
    ensures Quiet(answers, from, to) <==> !answers(from) && Quiet(answers, from + 1, to)
  {}

  lemma HearsFirstBehindTheFirst(
    m: Machine, a: Adapter, config: Json, preflight: CommandRun, answers: nat -> bool, from: nat)
    requires IsReadable(config) && !answers(from)
    ensures PreflightHearsFirst(m, a, config, preflight, answers, from) <==>
              TrainingAllowed(m, a, config) && Truthy(TrainingCommand(config))
                && PreflightHears(m, PreflightCommand(config), preflight, answers, from + 1)
  {}

  /** The stage behind its first question. */
  method TrainIfAllowed(m: Machine, a: Adapter, host: Host, config: Json, preflight: CommandRun, run: CommandRun)
    returns (r: AdapterResult)
    requires ClockAdvances(preflight.world) && ClockAdvances(run.world) && m.logLimit >= 1
    modifies host
    ensures host.asked >= old(host.asked) && IsPayload(r.payload)
    ensures r.status.Completed? ==>
              Quiet(host.answers, old(host.asked), host.asked)
                && TrainingShown(m, a, config, old(host.files), host.files, r.payload)
    ensures r.status.Cancelled? ==> !Quiet(host.answers, old(host.asked), host.asked)
    ensures r.status.Failed? && !Quiet(host.answers, old(host.asked), host.asked) <==>
              TrainingAllowed(m, a, config) && Truthy(TrainingCommand(config))
                && PreflightHears(m, PreflightCommand(config), preflight, host.answers, old(host.asked))
    ensures r.status.Failed? ==> TrainingProblem(m, a, config, old(host.files), host.files, r)
    ensures TrainingRuns(m, a, config, preflight, run, host.answers) ==>
              && host.files == TrainedFiles(config, preflight, run, old(host.files))
              && ArtifactVerdict(CheckpointPath(m, config), old(host.files), host.files, r.status, r.reason)
  {
    var refusal := TrainingRefusal(m, a, config);
    if refusal.Some? {
      return Stopped(m, "training", Failed, refusal.value);
    }
    r := CarryOutTraining(m, host, config, preflight, run);
  }

  method TrainReadable(m: Machine, a: Adapter, host: Host, config: Json, preflight: CommandRun, run: CommandRun)
    returns (r: AdapterResult)
    requires ClockAdvances(preflight.world) && ClockAdvances(run.world) && m.logLimit >= 1 && IsReadable(config)
    modifies host
    ensures host.asked >= old(host.asked) && IsPayload(r.payload)
    ensures r.status.Completed? ==>
              Quiet(host.answers, old(host.asked), host.asked)
                && TrainingShown(m, a, config, old(host.files), host.files, r.payload)
    ensures r.status.Cancelled? ==> !Quiet(host.answers, old(host.asked), host.asked)
    ensures r.status.Failed? && !Quiet(host.answers, old(host.asked), host.asked) <==>
              PreflightHearsFirst(m, a, config, preflight, host.answers, old(host.asked))
    ensures r.status.Failed? ==> TrainingProblem(m, a, config, old(host.files), host.files, r)
    ensures TrainingRuns(m, a, config, preflight, run, host.answers) ==>
              && host.files == TrainedFiles(config, preflight, run, old(host.files))
              && ArtifactVerdict(CheckpointPath(m, config), old(host.files), host.files, r.status, r.reason)
  {
    ghost var from := host.asked;
    var cancelled := host.ShouldCancel();
    if cancelled {
      r := Stopped(m, "training", Cancelled, CancelSeenByStage);
    } else {
      r := TrainIfAllowed(m, a, host, config, preflight, run);
      HearsFirstBehindTheFirst(m, a, config, preflight, host.answers, from);
    }
    QuietSplits(host.answers, from, host.asked);
  }

  method Train(m: Machine, a: Adapter, host: Host, config: Json, preflight: CommandRun, run: CommandRun)
    returns (r: Option<AdapterResult>)
    requires ClockAdvances(preflight.world) && ClockAdvances(run.world) && m.logLimit >= 1
    modifies host
    ensures host.asked >= old(host.asked)
    ensures r.None? <==> !(config.JObj? && Section(config, "experiment").JObj?)
    ensures r.Some? ==> IsPayload(r.value.payload)
    ensures r.Some? && r.value.status.Completed? ==>
              Quiet(host.answers, old(host.asked), host.asked)
                && TrainingShown(m, a, config, old(host.files), host.files, r.value.payload)
    ensures r.Some? && r.value.status.Cancelled? ==> !Quiet(host.answers, old(host.asked), host.asked)
    ensures r.Some? ==>
              (r.value.status.Failed? && !Quiet(host.answers, old(host.asked), host.asked) <==>
               PreflightHearsFirst(m, a, config, preflight, host.answers, old(host.asked)))
    ensures r.Some? && r.value.status.Failed? ==> TrainingProblem(m, a, config, old(host.files), host.files, r.value)
    ensures r.Some? && r.value.status.Completed? && Truthy(TrainingCommand(config)) && CheckpointPath(m, config).At? ==>
              Renewed(old(host.files), host.files, CheckpointPath(m, config).path)
    ensures TrainingRuns(m, a, config, preflight, run, host.answers) ==>
              && r.Some? && host.files == TrainedFiles(config, preflight, run, old(host.files))
              && ArtifactVerdict(CheckpointPath(m, config), old(host.files), host.files, r.value.status, r.value.reason)
  {
    if !IsReadable(config) {
      return None;
    }
    var result := TrainReadable(m, a, host, config, preflight, run);
    return Some(result);
  }

  // ----- export -----

  function ArtifactFileName(py: Interpreter, task: string, config: Json): string {
    var exporting, model := Section(config, "export"), Section(config, "model");
    if Truthy(Get(exporting, "artifact_name")) then Str(py, Get(exporting, "artifact_name"))
    else
      task + "_" + Str(py, GetOr(model, "architecture", JStr(task))) + "_v"
      + Str(py, Or(Or(Get(model, "version"), Get(Section(config, "dataset"), "version")), JStr("1.0.0"))) + "_"
      + Lower(Str(py, GetOr(exporting, "precision", JStr("fp32")))) + ".onnx"
  }

  function OutputPath(m: Machine, a: Adapter, config: Json): string {
    m.exportDir + "/" + ArtifactFileName(m.py, a.task, config)
  }

  /** Naming the artifact raises otherwise. */
  predicate IsNameable(config: Json) {
    var exporting, model := Section(config, "export"), Section(config, "model");
    && IsReadable(config) && model.JObj? && exporting.JObj?
    && (Truthy(Get(exporting, "artifact_name")) || Truthy(Get(model, "version")) || Section(config, "dataset").JObj?)
  }

  function ExportCommand(config: Json): Json {
    Get(Section(config, "export"), "command")
  }

  function ProducedOnnx(m: Machine, config: Json): Located {
    Locate(m, Get(Section(config, "export"), "produced_onnx"))
  }

  predicate ExportAllowed(m: Machine, a: Adapter, config: Json) {
    !ProducedOnnx(m, config).Outside?
      && (a.requiresExternal ==> Truthy(ExportCommand(config)) && ProducedOnnx(m, config).At?)
  }

  /** The model file that a stage hands on is there and loads. */
  predicate IsLoadable(m: Machine, files: Files, path: string) {
    path in files && m.loadable(files[path].sha256)
  }

  /** What a completed export stage has to show. */
  predicate ExportShown(m: Machine, a: Adapter, config: Json, before: Files, after: Files, payload: Json) {
    var output, produced := OutputPath(m, a, config), ProducedOnnx(m, config);
    && ExportAllowed(m, a, config) && IsLoadable(m, after, output) && Get(payload, "onnx") == JStr(output)
    && (Get(payload, "onnx_source") == JStr("external_command") <==> Truthy(ExportCommand(config)))
    && (Truthy(ExportCommand(config)) ==>
          && Get(Get(payload, "external"), "ok") == JBool(true)
          && Get(payload, "artifact") == FingerprintJson(FingerprintOf(after, output).value))
    && (Truthy(ExportCommand(config)) && produced.At? ==>
          Renewed(before, after, produced.path) && after[output] == after[produced.path])
  }

  /** What is wrong when an export stage fails. */
  predicate ExportProblem(m: Machine, a: Adapter, config: Json, before: Files, after: Files, r: AdapterResult) {
    var output, produced := OutputPath(m, a, config), ProducedOnnx(m, config);
    match r.reason
    case PathEscapes => produced.Outside?
    case PreflightIssues => !ExportAllowed(m, a, config)
    case CommandFailed => Get(Get(r.payload, "external"), "ok") == JBool(false)
    case ArtifactMissing => if produced.At? then produced.path !in after else output !in after
    case ArtifactStale =>
      produced.At? && produced.path in after && !Renewed(before, after, produced.path)
    case NotLoadable => !IsLoadable(m, after, output)
    case _ => false
  }

  function ExportPayload(m: Machine, a: Adapter, config: Json, source: string): (payload: Json)
    ensures IsPayload(payload) && Get(payload, "onnx") == JStr(OutputPath(m, a, config))
              && Get(payload, "onnx_source") == JStr(source)
  {
    JObj(map[
      "onnx" := JStr(OutputPath(m, a, config)),
      "report" := JStr(m.reportPath("export")),
      "onnx_source" := JStr(source),
      "output_format" := JStr(a.outputFormat)
    ])
  }

  function ExternalPayload(
    m: Machine, a: Adapter, config: Json, artifact: Fingerprint, external: CommandResult): (payload: Json)
    ensures IsPayload(payload) && Get(payload, "onnx") == JStr(OutputPath(m, a, config))
              && Get(payload, "onnx_source") == JStr("external_command")
    ensures Get(payload, "artifact") == FingerprintJson(artifact)
              && Get(Get(payload, "external"), "ok") == JBool(external.ok)
  {
    var payload := Put(ExportPayload(m, a, config, "external_command"), "artifact", FingerprintJson(artifact));
    Put(payload, "external", CommandJson(external))
  }

  /** The files once a produced model has been copied to its place. */
  function ExportedFiles(m: Machine, a: Adapter, config: Json, after: Files): Files {
    var produced := ProducedOnnx(m, config);
    if produced.At? && produced.path in after then after[OutputPath(m, a, config) := after[produced.path]] else after
  }

  /** An export stage with a command that runs through. */
  ghost predicate ExportRuns(m: Machine, a: Adapter, config: Json, run: CommandRun, answers: nat -> bool) {
    IsNameable(config) && ExportAllowed(m, a, config) && Truthy(ExportCommand(config)) && NobodyCancels(answers)
      && AlwaysSucceeds(m, ExportCommand(config), run, answers)
  }

  /** And that will complete. */
  ghost predicate ExportWillComplete(
    m: Machine, a: Adapter, config: Json, run: CommandRun, answers: nat -> bool, files: Files)
  {
    ExportRuns(m, a, config, run, answers) && Deliverable(m, a, config, files, run.effect(files))
  }

  /** Nothing is wrong with what the export command has left. */
  predicate Deliverable(m: Machine, a: Adapter, config: Json, before: Files, after: Files) {
    var produced := ProducedOnnx(m, config);
    && (produced.At? ==> Renewed(before, after, produced.path))
    && IsLoadable(m, ExportedFiles(m, a, config, after), OutputPath(m, a, config))
  }

  /** What becomes of an export whose command has succeeded and left these files. */
  predicate ExportVerdict(
    m: Machine, a: Adapter, config: Json, before: Files, made: Files, after: Files, r: AdapterResult)
  {
    var produced := ProducedOnnx(m, config);
    && (r.status.Completed? <==> Deliverable(m, a, config, before, made))
    && (r.status.Completed? ==> after == ExportedFiles(m, a, config, made))
    && (produced.At? && produced.path in made && !Renewed(before, made, produced.path) ==>
          r.status.Failed? && r.reason.ArtifactStale?)
  }

  /**
   What a successful export command has left: the model is fresh, goes to its place and loads, or
   the reason why not.
   */
  method DeliverOnnx(
    m: Machine, a: Adapter, host: Host, config: Json, ghost start: Files, before: Option<Fingerprint>)
    returns (reason: Reason)
    requires !ProducedOnnx(m, config).Outside? && before == Before(start, ProducedOnnx(m, config))
    modifies host`files
    ensures var output, produced := OutputPath(m, a, config), ProducedOnnx(m, config);
            match reason
            case Done =>
              && IsLoadable(m, host.files, output) && host.files == ExportedFiles(m, a, config, old(host.files))
              && (produced.At? ==>
                   && Renewed(start, old(host.files), produced.path) && Renewed(start, host.files, produced.path)
                   && host.files[output] == host.files[produced.path])
            case ArtifactMissing => if produced.At? then produced.path !in host.files else output !in host.files
            case ArtifactStale =>
              produced.At? && produced.path in host.files && !Renewed(start, host.files, produced.path)
            case NotLoadable =>
              && !IsLoadable(m, host.files, output) && host.files == ExportedFiles(m, a, config, old(host.files))
              && (produced.At? ==> Renewed(start, old(host.files), produced.path))
            case _ => false
    ensures reason.ArtifactMissing? || reason.ArtifactStale? ==> host.files == old(host.files)
  {
    var output, produced := OutputPath(m, a, config), ProducedOnnx(m, config);
    if produced.At? {
      FreshIsRenewed(start, host.files, produced.path);
      var after := FingerprintOf(host.files, produced.path);
      if after.None? {
        return ArtifactMissing;
      }
      if !IsFresh(before, after) {
        return ArtifactStale;
      }
      if produced.path != output {
        host.files := host.files[output := host.files[produced.path]];
      }
      assert host.files == ExportedFiles(m, a, config, old(host.files));
    } else if output !in host.files {
      return ArtifactMissing;
    }
    reason := if IsLoadable(m, host.files, output) then Done else NotLoadable;
  }

  /** After a successful export command: deliver the model, look at the cancel check once more, report. */
  method FinishExport(m: Machine, a: Adapter, host: Host, config: Json, ghost start: Files, before: Option<Fingerprint>,
    external: CommandResult)
    returns (r: AdapterResult)
    requires Truthy(ExportCommand(config)) && ExportAllowed(m, a, config) && external.ok
    requires before == Before(start, ProducedOnnx(m, config))
    modifies host
    ensures host.asked >= old(host.asked) && IsPayload(r.payload)
    ensures r.status.Completed? ==>
              Quiet(host.answers, old(host.asked), host.asked)
                && ExportShown(m, a, config, start, host.files, r.payload)
    ensures r.status.Cancelled? <==> !Quiet(host.answers, old(host.asked), host.asked)
    ensures r.status.Failed? ==> ExportProblem(m, a, config, start, host.files, r)
    ensures NobodyCancels(host.answers) ==> ExportVerdict(m, a, config, start, old(host.files), host.files, r)
  {
    var output := OutputPath(m, a, config);
    var reason := DeliverOnnx(m, a, host, config, start, before);
    if !reason.Done? {
      return StoppedBy(m, "export", Failed, reason, external);
    }
    var cancelled := host.ShouldCancel();
    if cancelled {
      return Stopped(m, "export", Cancelled, CancelSeenByStage);
    }
    r := AdapterResult(Completed, Done, output,
        ExternalPayload(m, a, config, FingerprintOf(host.files, output).value, external));
  }

  /** The part of an export that runs the configured command. */
  method RunExport(m: Machine, a: Adapter, host: Host, config: Json, before: Option<Fingerprint>, run: CommandRun)
    returns (r: AdapterResult)
    requires ClockAdvances(run.world) && m.logLimit >= 1 && Truthy(ExportCommand(config)) && ExportAllowed(m, a, config)
    requires before == Before(host.files, ProducedOnnx(m, config))
    modifies host
    ensures host.asked >= old(host.asked) && IsPayload(r.payload)
    ensures r.status.Completed? ==>
              Quiet(host.answers, old(host.asked), host.asked)
                && ExportShown(m, a, config, old(host.files), host.files, r.payload)
    ensures r.status.Cancelled? <==> !Quiet(host.answers, old(host.asked), host.asked)
    ensures r.status.Failed? ==> ExportProblem(m, a, config, old(host.files), host.files, r)
    ensures NobodyCancels(host.answers) && AlwaysSucceeds(m, ExportCommand(config), run, host.answers) ==>
              ExportVerdict(m, a, config, old(host.files), run.effect(old(host.files)), host.files, r)
  {
    ghost var start := host.files;
    var external := host.Run(m, ExportCommand(config), run);
    if external.cancelled {
      return StoppedBy(m, "export", Cancelled, CommandCancelled, external);
    }
    if !external.ok {
      return StoppedBy(m, "export", Failed, CommandFailed, external);
    }
    r := FinishExport(m, a, host, config, start, before, external);
  }

  predicate ExportRaises(m: Machine, config: Json) {
    !IsNameable(config)
      || (!Truthy(ExportCommand(config)) && (m.synthetic.None? || !m.loadable(m.synthetic.value.sha256)))
  }

  method Export(m: Machine, a: Adapter, host: Host, config: Json, run: CommandRun) returns (r: Option<AdapterResult>)
    requires ClockAdvances(run.world) && m.logLimit >= 1
    modifies host
    ensures host.asked >= old(host.asked)
    ensures r.None? ==> ExportRaises(m, config)
    ensures r.Some? ==> IsPayload(r.value.payload)
    ensures r.Some? && r.value.status.Completed? ==>
              Quiet(host.answers, old(host.asked), host.asked)
                && ExportShown(m, a, config, old(host.files), host.files, r.value.payload)
    ensures r.Some? ==> (r.value.status.Cancelled? <==> !Quiet(host.answers, old(host.asked), host.asked))
    ensures r.Some? && r.value.status.Failed? ==> ExportProblem(m, a, config, old(host.files), host.files, r.value)
    ensures r.Some? && r.value.status.Completed? && Truthy(ExportCommand(config)) && ProducedOnnx(m, config).At? ==>
              Renewed(old(host.files), host.files, ProducedOnnx(m, config).path)
    ensures ExportRuns(m, a, config, run, host.answers) ==>
              r.Some? && ExportVerdict(m, a, config, old(host.files), run.effect(old(host.files)), host.files, r.value)
  {
    if !IsNameable(config) {
      return None;
    }
    var exporting, command := Section(config, "export"), ExportCommand(config);
    var output, produced := OutputPath(m, a, config), ProducedOnnx(m, config);
    var cancelled := host.ShouldCancel();
    if cancelled {
      return Some(Stopped(m, "export", Cancelled, CancelSeenByStage));
    }
    if produced.Outside? {
      return Some(Stopped(m, "export", Failed, PathEscapes));
    }
    var before := Before(host.files, produced);
    if a.requiresExternal && (!Truthy(command) || produced.Unset?) {
      return Some(Stopped(m, "export", Failed, PreflightIssues));
    }
    if Truthy(command) {
      var result := RunExport(m, a, host, config, before, run);
      return Some(result);
    }
    var reused := Truthy(Get(exporting, "reuse_existing")) && output in host.files;
    if reused {
      if !IsLoadable(m, host.files, output) {
        return Some(Stopped(m, "export", Failed, NotLoadable));
      }
    } else {
      if m.synthetic.None? {
        return None;
      }
      host.files := host.files[output := m.synthetic.value];
    }
    cancelled := host.ShouldCancel();
    if cancelled {
      return Some(Stopped(m, "export", Cancelled, CancelSeenByStage));
    }
    if !reused && !IsLoadable(m, host.files, output) {
      return None;
    }
    return Some(AdapterResult(Completed, Done, output,
        ExportPayload(m, a, config, if reused then "reused" else "synthetic_baseline")));
  }

  // ----- evaluation -----

  function EvaluationCommand(config: Json): Json {
    Get(Get(config, "evaluation"), "command")
  }

  function MetricsPath(m: Machine, config: Json): Located {
    var evaluation := Get(config, "evaluation");
    Locate(m, Or(Get(evaluation, "produced_metrics"), Get(evaluation, "metrics_file")))
  }

  predicate EvaluationAllowed(m: Machine, a: Adapter, config: Json) {
    !MetricsPath(m, config).Outside?
      && (a.requiresExternal ==> Truthy(EvaluationCommand(config)) && MetricsPath(m, config).At?)
  }

  /** A metrics file may hold the metrics under this name or at its top. */
  function MetricsIn(data: Json): Json {
    if Get(data, "metrics").JObj? then Get(data, "metrics") else data
  }

  /** The numeric metrics of a metrics file, or None when it has none. */
  function NumericMetrics(data: Json): Option<map<string, Json>> {
    var metrics := MetricsIn(data);
    if !metrics.JObj? then None
    else
      var numbers := map k | k in metrics.fields && IsNumber(metrics.fields[k]) :: JReal(Number(metrics.fields[k]));
      if numbers == map[] then None else Some(numbers)
  }

  /**
   What is reported are exactly the numbers of the file: a threshold is met by the reported metric
   exactly if it is met in the file, and a file made of the reported metrics reports the same again.
   */
  lemma ReportedAreTheNumbers(data: Json)
    ensures NumericMetrics(data).Some? <==> exists name :: IsNumber(Get(MetricsIn(data), name))
    ensures NumericMetrics(data).Some? ==>
              var reported := NumericMetrics(data).value;
              && (forall name :: name in reported <==> IsNumber(Get(MetricsIn(data), name)))
              && (forall name, t :: AtLeast(Get(JObj(reported), name), t) <==> AtLeast(Get(MetricsIn(data), name), t))
              && NumericMetrics(JObj(reported)) == Some(reported)
  {
    var metrics := MetricsIn(data);
    if metrics.JObj? {
      var numbers := map k | k in metrics.fields && IsNumber(metrics.fields[k]) :: JReal(Number(metrics.fields[k]));
      if name :| IsNumber(Get(metrics, name)) {
        assert name in numbers;
      }
      if NumericMetrics(data).Some? {
        var name :| name in numbers;
        assert IsNumber(Get(metrics, name));
        assert MetricsIn(JObj(numbers)) == JObj(numbers);
        assert (map k | k in numbers && IsNumber(numbers[k]) :: JReal(Number(numbers[k]))) == numbers;
      }
    }
  }

  function MeasuredMetrics(m: Machine, files: Files, path: string): Option<map<string, Json>> {
    if path !in files || m.contents(files[path].sha256).None? then None
    else NumericMetrics(m.contents(files[path].sha256).value)
  }

  /** Metrics that were not measured: the adapter's defaults under the declared expectations. */
  function DeclaredMetrics(a: Adapter, config: Json): (map<string, Json>, string) {
    var defaults := map k | k in a.defaultMetrics :: JReal(a.defaultMetrics[k]);
    var declared := Get(Get(config, "evaluation"), "expected_metrics");
    if declared.JObj? && declared.fields != map[] then
      var numbers := map k | k in declared.fields && IsNumber(declared.fields[k]) :: JReal(Number(declared.fields[k]));
      (defaults + numbers, "declared")
    else (defaults, "baseline")
  }

  /** A declared number goes before a default; the source says whether anything is declared. */
  lemma DeclaredExactly(a: Adapter, config: Json)
    ensures var declared := Get(Get(config, "evaluation"), "expected_metrics");
            var reported := DeclaredMetrics(a, config);
            && (forall name :: name in reported.0 <==> name in a.defaultMetrics || IsNumber(Get(declared, name)))
            && (forall name :: IsNumber(Get(declared, name)) ==> reported.0[name] == JReal(Number(Get(declared, name))))
            && (forall name :: name in a.defaultMetrics && !IsNumber(Get(declared, name)) ==>
                  reported.0[name] == JReal(a.defaultMetrics[name]))
            && reported.1 in {"declared", "baseline"}
            && (reported.1 == "declared" <==> declared.JObj? && exists name :: name in declared.fields)
  {
    var declared := Get(Get(config, "evaluation"), "expected_metrics");
    if declared.JObj? && declared.fields != map[] {
      var name :| name in declared.fields;
    }
  }

  /** Without a metrics file the declared and default metrics are reported, and as such. */
  predicate DeclaredShown(m: Machine, a: Adapter, config: Json, payload: Json) {
    MetricsPath(m, config).Unset? ==>
      && Get(payload, "metrics") == JObj(DeclaredMetrics(a, config).0)
      && Get(payload, "metrics_source") == JStr(DeclaredMetrics(a, config).1)
  }

  /** The metrics are those of the configured file, which is fresh if a command had to write it. */
  predicate MetricsShown(m: Machine, config: Json, before: Files, after: Files, payload: Json) {
    var target := MetricsPath(m, config);
    && (Truthy(EvaluationCommand(config)) ==> Get(Get(payload, "external"), "ok") == JBool(true))
    && (Truthy(EvaluationCommand(config)) && target.At? ==> Renewed(before, after, target.path))
    && (Get(payload, "metrics_source") == JStr("measured") <==> target.At?)
    && (target.At? ==>
         MeasuredMetrics(m, after, target.path).Some?
           && Get(payload, "metrics") == JObj(MeasuredMetrics(m, after, target.path).value))
  }

  /** Measured metrics come before declared ones, and those before the defaults; a declared file must be readable. */
  method ReportedMetrics(m: Machine, a: Adapter, files: Files, config: Json)
    returns (metrics: Option<map<string, Json>>, source: string)
    requires !MetricsPath(m, config).Outside?
    ensures MetricsPath(m, config).At? ==>
              metrics == MeasuredMetrics(m, files, MetricsPath(m, config).path) && source == "measured"
    ensures MetricsPath(m, config).Unset? ==>
              metrics.Some? && source != "measured" && (metrics.value, source) == DeclaredMetrics(a, config)
  {
    var target := MetricsPath(m, config);
    if target.At? {
      return MeasuredMetrics(m, files, target.path), "measured";
    }
    var declared := DeclaredMetrics(a, config);
    return Some(declared.0), declared.1;
  }

  /** What a completed evaluation stage has to show. */
  predicate EvaluationShown(m: Machine, a: Adapter, config: Json, before: Files, after: Files, payload: Json) {
    EvaluationAllowed(m, a, config) && MetricsShown(m, config, before, after, payload)
  }

  /** What is wrong when an evaluation that has its model fails. */
  predicate MetricsProblem(m: Machine, config: Json, before: Files, after: Files, r: AdapterResult) {
    var target := MetricsPath(m, config);
    match r.reason
    case CommandFailed => Get(Get(r.payload, "external"), "ok") == JBool(false)
    case ArtifactStale => target.At? && !Renewed(before, after, target.path)
    case MetricsUnreadable => target.At? && MeasuredMetrics(m, after, target.path).None?
    case _ => false
  }

  /** The model that is asked for, by default the one an export would make. */
  function Given(m: Machine, a: Adapter, config: Json, onnx: Option<string>): string {
    if onnx.Some? then onnx.value else OutputPath(m, a, config)
  }

  /** The model that is evaluated: the one asked for, or the one an export has made in its absence. */
  function ModelPath(m: Machine, a: Adapter, config: Json, onnx: Option<string>, files: Files): string {
    if Given(m, a, config, onnx) in files then Given(m, a, config, onnx) else OutputPath(m, a, config)
  }

  /** What is wrong when an evaluation stage fails; it may be the export it had to make. */
  predicate EvaluationProblem(
    m: Machine, a: Adapter, config: Json, given: string, before: Files, after: Files, r: AdapterResult)
  {
    match r.reason
    case PathEscapes => MetricsPath(m, config).Outside?
    case PreflightIssues => !EvaluationAllowed(m, a, config)
    case ExportNotCompleted => given !in before
    case _ => MetricsProblem(m, config, before, after, r)
  }

  /** The files after an evaluation that had its model. */
  function EvaluatedFiles(config: Json, run: CommandRun, files: Files): Files {
    if Truthy(EvaluationCommand(config)) then run.effect(files) else files
  }

  /** An evaluation stage with its model and a command that runs through. */
  ghost predicate EvaluationRuns(
    m: Machine, a: Adapter, config: Json, given: string, run: CommandRun, answers: nat -> bool, files: Files)
  {
    && IsReadable(config) && EvaluationAllowed(m, a, config) && given in files && Truthy(EvaluationCommand(config))
    && NobodyCancels(answers) && AlwaysSucceeds(m, EvaluationCommand(config), run, answers)
  }

  /** And that will complete. */
  ghost predicate EvaluationWillComplete(
    m: Machine, a: Adapter, config: Json, given: string, run: CommandRun, answers: nat -> bool, files: Files)
  {
    EvaluationRuns(m, a, config, given, run, answers, files) && Evaluable(m, config, given, files, run.effect(files))
  }

  /** Nothing is wrong with what the evaluation command has left. */
  predicate Evaluable(m: Machine, config: Json, path: string, before: Files, after: Files) {
    var target := MetricsPath(m, config);
    && IsLoadable(m, after, path)
    && (target.At? ==> Renewed(before, after, target.path) && MeasuredMetrics(m, after, target.path).Some?)
  }

  /** What becomes of an evaluation whose command has succeeded; it raises if the model does not load. */
  predicate EvaluationVerdict(
    m: Machine, config: Json, path: string, before: Files, after: Files, r: Option<AdapterResult>)
  {
    var target := MetricsPath(m, config);
    if target.At? && !Renewed(before, after, target.path) then
      r.Some? && r.value.status.Failed? && r.value.reason.ArtifactStale?
    else if !IsLoadable(m, after, path) then r.None?
    else r.Some? && (r.value.status.Completed? <==> Evaluable(m, config, path, before, after))
  }

  /** The model to evaluate: the one given, or one exported now when it is not there. */
  method ModelToEvaluate(m: Machine, a: Adapter, host: Host, config: Json, given: string, run: CommandRun)
    returns (status: Option<Status>, path: string)
    requires ClockAdvances(run.world) && m.logLimit >= 1
    modifies host
    ensures host.asked >= old(host.asked)
    ensures given in old(host.files) ==>
              status == Some(Completed) && path == given && host.files == old(host.files)
                && host.asked == old(host.asked)
    ensures status == Some(Completed) ==> Quiet(host.answers, old(host.asked), host.asked)
    ensures status.Some? ==> (status == Some(Cancelled) <==> !Quiet(host.answers, old(host.asked), host.asked))
    ensures status.None? ==> ExportRaises(m, config)
    ensures given !in old(host.files) && status == Some(Completed) ==> path == OutputPath(m, a, config)
  {
    if given in host.files {
      return Some(Completed), given;
    }
    var exported := Export(m, a, host, config, run);
    if exported.None? {
      return None, given;
    }
    var onnx := Get(exported.value.payload, "onnx");
    return Some(exported.value.status), if onnx.JStr? && onnx.s != "" then onnx.s else exported.value.path;
  }

  method Evaluate(
    m: Machine, a: Adapter, host: Host, config: Json, onnx: Option<string>, exportRun: CommandRun, run: CommandRun)
    returns (r: Option<AdapterResult>)
    requires ClockAdvances(exportRun.world) && ClockAdvances(run.world) && m.logLimit >= 1
    modifies host
    ensures host.asked >= old(host.asked)
    ensures r.None? ==>
              || !IsReadable(config) || ExportRaises(m, config)
              || !IsLoadable(m, host.files, ModelPath(m, a, config, onnx, old(host.files)))
    ensures r.Some? ==> IsPayload(r.value.payload)
    ensures r.Some? && r.value.status.Completed? ==>
              Quiet(host.answers, old(host.asked), host.asked)
                && EvaluationShown(m, a, config, old(host.files), host.files, r.value.payload)
                && DeclaredShown(m, a, config, r.value.payload)
    ensures r.Some? ==> (r.value.status.Cancelled? <==> !Quiet(host.answers, old(host.asked), host.asked))
    ensures r.Some? && r.value.status.Completed? && Given(m, a, config, onnx) in old(host.files) ==>
              host.files == EvaluatedFiles(config, run, old(host.files))
    ensures r.Some? && r.value.status.Completed? && Truthy(EvaluationCommand(config)) && MetricsPath(m, config).At? ==>
              Renewed(old(host.files), host.files, MetricsPath(m, config).path)
    ensures (onnx.Some? || IsNameable(config))
            && EvaluationRuns(m, a, config, Given(m, a, config, onnx), run, host.answers, old(host.files)) ==>
              && host.files == run.effect(old(host.files))
              && EvaluationVerdict(m, config, Given(m, a, config, onnx), old(host.files), host.files, r)
    ensures r.Some? && r.value.status.Failed? ==>
              EvaluationProblem(m, a, config, Given(m, a, config, onnx), old(host.files), host.files, r.value)
  {
    if !IsReadable(config) {
      return None;
    }
    var cancelled := host.ShouldCancel();
    if cancelled {
      return Some(Stopped(m, "evaluation", Cancelled, CancelSeenByStage));
    }
    var command, target := EvaluationCommand(config), MetricsPath(m, config);
    if target.Outside? {
      return Some(Stopped(m, "evaluation", Failed, PathEscapes));
    }
    ghost var start := host.files;
    var before := Before(host.files, target);
    if a.requiresExternal && (!Truthy(command) || target.Unset?) {
      return Some(Stopped(m, "evaluation", Failed, PreflightIssues));
    }
    if onnx.None? && !IsNameable(config) {
      return None;
    }
    var status, path := ModelToEvaluate(m, a, host, config, Given(m, a, config, onnx), exportRun);
    if status.None? {
      return None;
    }
    if status.value.Cancelled? {
      return Some(Stopped(m, "evaluation", Cancelled, CancelSeenByStage));
    }
    if !status.value.Completed? {
      return Some(Stopped(m, "evaluation", Failed, ExportNotCompleted));
    }
    r := EvaluateModel(m, a, host, config, start, before, path, run);
  }

  /** The part of an evaluation that has its model. */
  method EvaluateModel(
    m: Machine, a: Adapter, host: Host, config: Json, ghost start: Files, before: Option<Fingerprint>, path: string,
    run: CommandRun)
    returns (r: Option<AdapterResult>)
    requires ClockAdvances(run.world) && m.logLimit >= 1 && EvaluationAllowed(m, a, config)
    requires before == Before(start, MetricsPath(m, config))
    modifies host
    ensures host.asked >= old(host.asked)
    ensures r.Some? ==> IsPayload(r.value.payload)
    ensures r.None? ==> !IsLoadable(m, host.files, path)
    ensures r.Some? ==> (r.value.status.Cancelled? <==> !Quiet(host.answers, old(host.asked), host.asked))
    ensures r.Some? && r.value.status.Completed? ==>
              MetricsShown(m, config, start, host.files, r.value.payload) && IsLoadable(m, host.files, path)
    ensures r.Some? && r.value.status.Completed? ==> DeclaredShown(m, a, config, r.value.payload)
    ensures r.Some? && r.value.status.Completed? ==> host.files == EvaluatedFiles(config, run, old(host.files))
    ensures Truthy(EvaluationCommand(config)) && NobodyCancels(host.answers)
            && AlwaysSucceeds(m, EvaluationCommand(config), run, host.answers) ==>
              host.files == run.effect(old(host.files)) && EvaluationVerdict(m, config, path, start, host.files, r)
    ensures r.Some? && r.value.status.Failed? ==> MetricsProblem(m, config, start, host.files, r.value)
  {
    var command, target := EvaluationCommand(config), MetricsPath(m, config);
    var payload := Report(m, "evaluation");
    if Truthy(command) {
      var external := host.Run(m, command, run);
      if external.cancelled {
        return Some(StoppedBy(m, "evaluation", Cancelled, CommandCancelled, external));
      }
      if !external.ok {
        return Some(StoppedBy(m, "evaluation", Failed, CommandFailed, external));
      }
      if target.At? {
        FreshIsRenewed(start, host.files, target.path);
      }
      if target.At? && !IsFresh(before, FingerprintOf(host.files, target.path)) {
        return Some(StoppedBy(m, "evaluation", Failed, ArtifactStale, external));
      }
      payload := Put(payload, "external", CommandJson(external));
    }
    r := FinishEvaluation(m, a, host, config, start, path, payload);
  }

  /** The report of an evaluation, once its command has done its part. */
  method FinishEvaluation(
    m: Machine, a: Adapter, host: Host, config: Json, ghost start: Files, path: string, payload: Json)
    returns (r: Option<AdapterResult>)
    requires EvaluationAllowed(m, a, config) && IsPayload(payload)
    requires Truthy(EvaluationCommand(config)) ==> Get(Get(payload, "external"), "ok") == JBool(true)
    requires Truthy(EvaluationCommand(config)) && MetricsPath(m, config).At? ==>
               Renewed(start, host.files, MetricsPath(m, config).path)
    modifies host`asked
    ensures host.asked == old(host.asked) + 1
    ensures r.Some? ==> IsPayload(r.value.payload)
    ensures r.None? ==> !IsLoadable(m, host.files, path)
    ensures r.Some? ==> (r.value.status.Cancelled? <==> !Quiet(host.answers, old(host.asked), host.asked))
    ensures r.Some? && r.value.status.Completed? ==>
              MetricsShown(m, config, start, host.files, r.value.payload) && IsLoadable(m, host.files, path)
    ensures r.Some? && r.value.status.Completed? ==> DeclaredShown(m, a, config, r.value.payload)
    ensures NobodyCancels(host.answers) ==>
              && (r.Some? <==> IsLoadable(m, host.files, path))
              && (r.Some? && (MetricsPath(m, config).At? ==>
                                MeasuredMetrics(m, host.files, MetricsPath(m, config).path).Some?) ==>
                   r.value.status.Completed?)
    ensures r.Some? && r.value.status.Failed? ==> MetricsProblem(m, config, start, host.files, r.value)
  {
    var cancelled := host.ShouldCancel();
    if cancelled {
      return Some(Stopped(m, "evaluation", Cancelled, CancelSeenByStage));
    }
    if !IsLoadable(m, host.files, path) {
      return None;
    }
    var metrics, source := ReportedMetrics(m, a, host.files, config);
    if metrics.None? {
      return Some(Stopped(m, "evaluation", Failed, MetricsUnreadable));
    }
    var shown := Put(Put(payload, "metrics", JObj(metrics.value)), "metrics_source", JStr(source));
    return Some(AdapterResult(Completed, Done, m.reportPath("evaluation"), shown));
  }
}
