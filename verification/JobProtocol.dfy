/**
 The pipeline-job protocol as a transition system: server instances that boot, reconcile, accept
 requests and crash, and worker threads that run `_run_pipeline_job`, all driving the same table.
 Each SQL statement is one step and every interleaving of steps is a run.

 `owned` selects the test a worker makes after its claim. The code as written (`owned == false`)
 only asks whether the row says "running"; the stated intent (`owned == true`) also asks whether
 the row is its own.
 */
module JobProtocol {
  import opened Prelude
  import opened JobTable

  /** The status of the report that the experiment pipeline hands back to the worker. */
  datatype Report = ReportCompleted | ReportFailed | ReportCancelled

  /** What the worker decided to write after re-reading the row. */
  datatype Verdict = WriteCompleted | WriteFailed | WriteCancelled

  datatype Pc =
    | Submitted                  // in the executor's queue
    | Claimed                    // claim UPDATE issued, row not yet read back
    | Skipping                   // gave up after the claim, still logging
    | Executing
    | Reported(report: Report)   // pipeline returned, row not yet re-read
    | Deciding(verdict: Verdict) // row re-read, final UPDATE not yet issued
    | Closing                    // final UPDATE issued, still auditing
    | Handling                   // in the exception handler
    | Finished
    | Dead                       // its process crashed

  /** `executed` is a history flag: the thread has at some point entered the pipeline. */
  datatype Thread = Thread(worker: string, job: nat, pc: Pc, latched: bool, executed: bool)

  /** One step of a worker thread; `now` and `text` are whatever the environment supplies. */
  datatype Action =
    | ClaimJob(now: Instant)
    | ReadClaim
    | PollCancel
    | Heartbeat(now: Instant)
    | Return(report: Report)
    | ReRead
    | Finish(text: string, now: Instant)
    | Close
    | Raise
    | HandleFailure(text: string, now: Instant)
    | Abandon

  datatype Phase = Recovering | Selected(ids: set<nat>) | Recovered | Serving

  /** `cancels` is history: the jobs for which a cancel request has been made. */
  datatype State = State(
    table: Table,
    nextId: nat,
    threads: seq<Thread>,
    up: map<string, Phase>,
    unsubmitted: set<(string, nat)>,
    cancels: set<nat>)

  datatype Step =
    | Boot(worker: string)
    | RecoverAtomically(worker: string, now: Instant)
    | SelectOrphans(worker: string, now: Instant)
    | FailSelected(worker: string, now: Instant)
    | Resubmit(worker: string)
    | SkipReconcile(worker: string)
    | Insert(worker: string, config: string, request: string, now: Instant)
    | Submit(worker: string, job: nat)
    | Cancel(job: nat, now: Instant)
    | Crash(worker: string)
    | Work(i: nat, action: Action)

  const STALE_AFTER_SECONDS: nat := 120
  const ORPHANED := "orphaned by service restart"

  const INIT := State(map[], 1, [], map[], {}, {})

  // ----- a worker thread and the row of its job -----

  /** Inside the pipeline or writing its outcome. */
  predicate InCharge(pc: Pc) {
    pc.Executing? || pc.Reported? || pc.Deciding?
  }

  predicate CanAct(t: Thread, a: Action) {
    match a
    case ClaimJob(_) => t.pc.Submitted?
    case ReadClaim => t.pc.Claimed?
    case PollCancel => t.pc.Executing?
    case Heartbeat(_) => t.pc.Executing?
    // The pipeline reports a cancellation only after its cancel check has answered true.
    case Return(report) => t.pc.Executing? && (report.ReportCancelled? ==> t.latched)
    case ReRead => t.pc.Reported?
    case Finish(_, _) => t.pc.Deciding?
    case Close => t.pc.Closing? || t.pc.Skipping?
    case Raise => t.pc !in {Handling, Finished, Dead}
    case HandleFailure(_, _) => t.pc.Handling?
    case Abandon => t.pc.Handling?
  }

  /** The test after the claim: cancelled and foreign rows are given up, running ones are executed. */
  predicate GoesOn(owned: bool, t: Thread, r: Row) {
    r.status.Running? && (owned ==> r.workerId == Some(t.worker))
  }

  function VerdictOn(report: Report, status: Status): Verdict {
    if report.ReportCancelled? || status.CancellationRequested? then WriteCancelled
    else if report.ReportFailed? then WriteFailed
    else WriteCompleted
  }

  /** Where the thread goes, given the row it reads. */
  function Move(owned: bool, t: Thread, r: Row, a: Action): Thread
    requires CanAct(t, a)
  {
    match a
    case ClaimJob(_) => t.(pc := Claimed)
    case ReadClaim => if GoesOn(owned, t, r) then t.(pc := Executing, executed := true) else t.(pc := Skipping)
    case PollCancel => t.(latched := t.latched || r.status.CancellationRequested?)
    case Heartbeat(_) => t
    case Return(report) => t.(pc := Reported(report))
    case ReRead => t.(pc := Deciding(VerdictOn(t.pc.report, r.status)))
    case Finish(_, _) => t.(pc := Closing)
    case Close => t.(pc := Finished)
    case Raise => t.(pc := Handling)
    case HandleFailure(_, _) => t.(pc := Finished)
    case Abandon => t.(pc := Finished)
  }

  /** What the thread writes to the row. */
  function Write(t: Thread, r: Row, a: Action): Row
    requires CanAct(t, a)
  {
    match a
    case ClaimJob(now) => ClaimRow(r, t.worker, now)
    case Heartbeat(now) => BeatRow(r, t.worker, now)
    case Finish(text, now) =>
      (match t.pc.verdict
       case WriteCancelled => CompleteRow(r, Status.Cancelled, text, now)
       case WriteCompleted => CompleteRow(r, Status.Completed, text, now)
       case WriteFailed => FailRow(r, "Pipeline stage failed", Some(text), now))
    case HandleFailure(text, now) => FailRow(r, text, None, now)
    case _ => r
  }

  // ----- the whole system -----

  predicate InPhase(s: State, w: string, phase: Phase) {
    w in s.up && s.up[w] == phase
  }

  predicate Enabled(s: State, step: Step) {
    match step
    case Boot(w) => w != "" && w !in s.up
    case RecoverAtomically(w, _) => InPhase(s, w, Recovering)
    case SelectOrphans(w, _) => InPhase(s, w, Recovering)
    case FailSelected(w, _) => w in s.up && s.up[w].Selected?
    case Resubmit(w) => InPhase(s, w, Recovered) && 1 <= s.nextId
    case SkipReconcile(w) => w in s.up && s.up[w] != Serving
    case Insert(w, _, _, _) => InPhase(s, w, Serving)
    case Submit(w, job) => (w, job) in s.unsubmitted
    case Cancel(job, _) => job in s.table
    case Crash(w) => w in s.up
    case Work(i, a) => i < |s.threads| && s.threads[i].job in s.table && CanAct(s.threads[i], a)
  }

  function Fresh(worker: string, job: nat): Thread {
    Thread(worker, job, Submitted, false, false)
  }

  function FreshAll(worker: string, jobs: seq<nat>): seq<Thread> {
    seq(|jobs|, k requires 0 <= k < |jobs| => Fresh(worker, jobs[k]))
  }

  function Killed(threads: seq<Thread>, worker: string): seq<Thread> {
    seq(|threads|, k requires 0 <= k < |threads| =>
      if threads[k].worker == worker then threads[k].(pc := Dead) else threads[k])
  }

  function TableAfter(s: State, step: Step): Table
    requires Enabled(s, step)
  {
    match step
    case RecoverAtomically(w, now) => Recover(s.table, w, STALE_AFTER_SECONDS, ORPHANED, now)
    case FailSelected(w, now) => FailAll(s.table, s.up[w].ids, ORPHANED, now)
    case Insert(w, config, request, now) => s.table[s.nextId := QueuedRow(config, request, now)]
    case Cancel(job, now) => RequestCancel(s.table, job, now)
    case Work(i, a) =>
      var t := s.threads[i];
      s.table[t.job := Write(t, s.table[t.job], a)]
    case _ => s.table
  }

  function ThreadsAfter(owned: bool, s: State, step: Step): seq<Thread>
    requires Enabled(s, step)
  {
    match step
    case Resubmit(w) => s.threads + FreshAll(w, QueuedIds(s.table, 1, s.nextId))
    case Submit(w, job) => s.threads + [Fresh(w, job)]
    case Crash(w) => Killed(s.threads, w)
    case Work(i, a) => s.threads[i := Move(owned, s.threads[i], s.table[s.threads[i].job], a)]
    case _ => s.threads
  }

  function UpAfter(s: State, step: Step): map<string, Phase>
    requires Enabled(s, step)
  {
    match step
    case Boot(w) => s.up[w := Recovering]
    case RecoverAtomically(w, now) => s.up[w := Recovered]
    case SelectOrphans(w, now) => s.up[w := Selected(Orphans(s.table, w, Cutoff(now, STALE_AFTER_SECONDS)))]
    case FailSelected(w, now) => s.up[w := Recovered]
    case Resubmit(w) => s.up[w := Serving]
    case SkipReconcile(w) => s.up[w := Serving]
    case Crash(w) => s.up - {w}
    case _ => s.up
  }

  function UnsubmittedAfter(s: State, step: Step): set<(string, nat)>
    requires Enabled(s, step)
  {
    match step
    case Insert(w, _, _, _) => s.unsubmitted + {(w, s.nextId)}
    case Submit(w, job) => s.unsubmitted - {(w, job)}
    case Crash(w) => set p | p in s.unsubmitted && p.0 != w
    case _ => s.unsubmitted
  }

  function Next(owned: bool, s: State, step: Step): State
    requires Enabled(s, step)
  {
    State(
      TableAfter(s, step),
      if step.Insert? then s.nextId + 1 else s.nextId,
      ThreadsAfter(owned, s, step),
      UpAfter(s, step),
      UnsubmittedAfter(s, step),
      if step.Cancel? then s.cancels + {step.job} else s.cancels)
  }

  /** `steps` leads from `s` to `s'`. */
  ghost predicate Run(owned: bool, s: State, steps: seq<Step>, s': State)
    decreases |steps|
  {
    if steps == [] then s' == s
    else Enabled(s, steps[0]) && Run(owned, Next(owned, s, steps[0]), steps[1..], s')
  }

  /** The SELECT and the UPDATE of a recovery are one step. */
  predicate Unsplit(step: Step) {
    !step.SelectOrphans? && !step.FailSelected?
  }

  ghost predicate AtomicRecovery(steps: seq<Step>) {
    forall k :: 0 <= k < |steps| ==> Unsplit(steps[k])
  }

  /** If the step is the UPDATE of a split recovery, no job that it selected has meanwhile ended. */
  predicate FindsOpen(s: State, step: Step) {
    step.FailSelected? && step.worker in s.up && s.up[step.worker].Selected? ==>
      forall id :: id in s.up[step.worker].ids && id in s.table ==> !Terminal(s.table[id].status)
  }

  ghost predicate OpenRecoveries(owned: bool, s: State, steps: seq<Step>)
    decreases |steps|
  {
    steps == []
    || (Enabled(s, steps[0]) && FindsOpen(s, steps[0]) && OpenRecoveries(owned, Next(owned, s, steps[0]), steps[1..]))
  }

  /** In particular where no recovery is split. */
  lemma {:induction false} AtomicRecoveriesAreOpen(owned: bool, s: State, steps: seq<Step>, s': State)
    requires Run(owned, s, steps, s') && AtomicRecovery(steps)
    ensures OpenRecoveries(owned, s, steps)
    decreases |steps|
  {
    if steps != [] {
      assert Unsplit(steps[0]);
      AtomicRecoveriesAreOpen(owned, Next(owned, s, steps[0]), steps[1..], s');
    }
  }

  // ----- the invariant that every interleaving keeps, with either test after the claim -----

  /** What a thread knows about the row of its job. */
  ghost predicate Knows(t: Thread, r: Row) {
    && t.worker != ""
    && (t.pc.Submitted? ==> t == Fresh(t.worker, t.job))
    && (t.executed || t.pc.Claimed? ==> !r.status.Queued?)
    && (InCharge(t.pc) ==> t.executed)
    && (t.latched || t.pc == Reported(ReportCancelled) || t.pc == Deciding(WriteCancelled) ==> r.cancelledAt.Some?)
  }

  ghost predicate TableOk(t: Table, nextId: nat, cancels: set<nat>) {
    && 1 <= nextId
    && forall id :: id in t ==> 1 <= id < nextId && Shape(t[id]) && (t[id].cancelledAt.Some? ==> id in cancels)
  }

  ghost predicate ThreadsOk(t: Table, threads: seq<Thread>) {
    forall i :: 0 <= i < |threads| ==> threads[i].job in t && Knows(threads[i], t[threads[i].job])
  }

  ghost predicate Inv(s: State) {
    && TableOk(s.table, s.nextId, s.cancels)
    && ThreadsOk(s.table, s.threads)
    && "" !in s.up
    && (forall p :: p in s.unsubmitted ==> p.0 in s.up && p.1 in s.table)
  }

  /** One action, seen by its own thread and row. */
  lemma ActionKeepsLocal(owned: bool, t: Thread, r: Row, a: Action)
    requires CanAct(t, a) && Knows(t, r) && Shape(r)
    ensures Knows(Move(owned, t, r, a), Write(t, r, a))
    ensures Shape(Write(t, r, a)) && Evolves(r, Write(t, r, a))
    ensures Write(t, r, a).cancelledAt == r.cancelledAt
  {}

  /** What a thread knows survives whatever others do to the row. */
  lemma KnowledgeIsStable(t: Thread, r: Row, r': Row)
    requires Knows(t, r) && Persists(r, r')
    ensures Knows(t, r')
  {}

  /** One row replaced by a legal successor of itself. */
  lemma ReplacingKeepsTable(t: Table, nextId: nat, cancels: set<nat>, id: nat, r: Row)
    requires TableOk(t, nextId, cancels) && id in t && Shape(r) && Evolves(t[id], r)
    requires r.cancelledAt.Some? ==> id in cancels
    ensures TableOk(t[id := r], nextId, cancels) && TableEvolves(t, t[id := r])
  {}

  lemma FailSelectedKeepsTable(s: State, step: Step)
    requires Inv(s) && Enabled(s, step) && step.FailSelected?
    ensures TablePersists(s.table, TableAfter(s, step)) && TableOk(TableAfter(s, step), s.nextId, s.cancels)
    ensures FindsOpen(s, step) ==> TableEvolves(s.table, TableAfter(s, step))
  {
    FailingKeepsShape(s.table, s.up[step.worker].ids, ORPHANED, step.now);
    if FindsOpen(s, step) {
      FailingOpenRowsIsLegal(s.table, s.up[step.worker].ids, ORPHANED, step.now);
    }
  }

  lemma StepKeepsTable(s: State, step: Step)
    requires Inv(s) && Enabled(s, step)
    ensures TablePersists(s.table, TableAfter(s, step))
    ensures FindsOpen(s, step) ==> TableEvolves(s.table, TableAfter(s, step))
    ensures TableOk(TableAfter(s, step), if step.Insert? then s.nextId + 1 else s.nextId,
                    if step.Cancel? then s.cancels + {step.job} else s.cancels)
  {
    match step
    case RecoverAtomically(w, now) =>
      AtomicRecoveryKeepsShape(s.table, w, STALE_AFTER_SECONDS, ORPHANED, now);
    case FailSelected(_, _) => FailSelectedKeepsTable(s, step);
    case Cancel(job, now) =>
      GuardedStatementsKeepShape(s.table[job], "-", Status.Failed, "", None, now);
      ReplacingKeepsTable(s.table, s.nextId, s.cancels + {job}, job, CancelRow(s.table[job], now));
    case Work(i, a) =>
      var t := s.threads[i];
      ActionKeepsLocal(true, t, s.table[t.job], a);
      ReplacingKeepsTable(s.table, s.nextId, s.cancels, t.job, Write(t, s.table[t.job], a));
    case _ =>
  }

  lemma StepKeepsThreads(owned: bool, s: State, step: Step)
    requires Inv(s) && Enabled(s, step)
    ensures ThreadsOk(TableAfter(s, step), ThreadsAfter(owned, s, step))
  {
    var t', threads' := TableAfter(s, step), ThreadsAfter(owned, s, step);
    forall i | 0 <= i < |threads'| ensures threads'[i].job in t' && Knows(threads'[i], t'[threads'[i].job]) {
      if i < |s.threads| {
        OldThreadKnows(owned, s, step, i);
      } else {
        NewThreadKnows(owned, s, step, i);
      }
    }
  }

  lemma OldThreadKnows(owned: bool, s: State, step: Step, i: nat)
    requires Inv(s) && Enabled(s, step) && i < |s.threads|
    ensures var t', t := TableAfter(s, step), ThreadsAfter(owned, s, step)[i];
            t.job in t' && Knows(t, t'[t.job])
  {
    var t, t' := s.threads[i], TableAfter(s, step);
    if step.Work? && i == step.i {
      ActionKeepsLocal(owned, t, s.table[t.job], step.action);
    } else {
      StepKeepsTable(s, step);
      KnowledgeIsStable(t, s.table[t.job], t'[t.job]);
    }
  }

  /** A thread made by a submission knows nothing yet, and its job exists. */
  lemma NewThreadKnows(owned: bool, s: State, step: Step, i: nat)
    requires Inv(s) && Enabled(s, step) && |s.threads| <= i < |ThreadsAfter(owned, s, step)|
    ensures var t', t := TableAfter(s, step), ThreadsAfter(owned, s, step)[i];
            t.job in t' && Knows(t, t'[t.job])
  {
    if step.Resubmit? {
      QueuedIdsExact(s.table, 1, s.nextId);
      assert QueuedIds(s.table, 1, s.nextId)[i - |s.threads|] in QueuedIds(s.table, 1, s.nextId);
    }
  }

  lemma StepKeepsInv(owned: bool, s: State, step: Step)
    requires Inv(s) && Enabled(s, step)
    ensures Inv(Next(owned, s, step)) && TablePersists(s.table, Next(owned, s, step).table)
    ensures FindsOpen(s, step) ==> TableEvolves(s.table, Next(owned, s, step).table)
  {
    StepKeepsTable(s, step);
    StepKeepsThreads(owned, s, step);
  }

  lemma InitInv()
    ensures Inv(INIT)
  {}

  // ----- safety over whole runs -----

  /**
   Every run keeps the invariant, whatever the test after the claim and whether or not recoveries are
   split; and the table at the end is a future of the table at the start: ranks never rise, owners,
   start and cancel stamps are written once, and a terminal row changes only by being failed over.
   */
  lemma {:induction false} RunsPersist(owned: bool, s: State, steps: seq<Step>, s': State)
    requires Inv(s) && Run(owned, s, steps, s')
    ensures Inv(s') && TablePersists(s.table, s'.table)
    decreases |steps|
  {
    if steps != [] {
      var m := Next(owned, s, steps[0]);
      StepKeepsInv(owned, s, steps[0]);
      RunsPersist(owned, m, steps[1..], s');
      TablePersistsTransitively(s.table, m.table, s'.table);
    }
  }

  /**
   If its recoveries find their jobs still open, as atomic ones always do, then no terminal row ever
   changes again in any column.
   */
  lemma {:induction false} RunsAreSafe(owned: bool, s: State, steps: seq<Step>, s': State)
    requires Inv(s) && Run(owned, s, steps, s') && OpenRecoveries(owned, s, steps)
    ensures Inv(s') && TableEvolves(s.table, s'.table)
    decreases |steps|
  {
    if steps != [] {
      var m := Next(owned, s, steps[0]);
      StepKeepsInv(owned, s, steps[0]);
      RunsAreSafe(owned, m, steps[1..], s');
      TableEvolvesTransitively(s.table, m.table, s'.table);
    }
  }

  predicate StatusChanged(t: Table, t': Table, job: nat) {
    job in t && job in t' && t[job].status != t'[job].status
  }

  /** How often the status of `job` changes along the run. */
  ghost function StatusChanges(owned: bool, s: State, steps: seq<Step>, job: nat): nat
    decreases |steps|
  {
    if steps == [] || !Enabled(s, steps[0]) then 0
    else
      var m := Next(owned, s, steps[0]);
      (if StatusChanged(s.table, m.table, job) then 1 else 0) + StatusChanges(owned, m, steps[1..], job)
  }

  function RankAt(t: Table, job: nat): nat {
    if job in t then Rank(t[job].status) else 3
  }

  /** Each status change lowers the rank, so a job changes its status at most three times. */
  lemma {:induction false} AtMostThreeStatusChanges(owned: bool, s: State, steps: seq<Step>, s': State, job: nat)
    requires Inv(s) && Run(owned, s, steps, s') && OpenRecoveries(owned, s, steps)
    ensures StatusChanges(owned, s, steps, job) + RankAt(s'.table, job) <= RankAt(s.table, job)
    ensures StatusChanges(owned, s, steps, job) <= 3
    decreases |steps|
  {
    if steps != [] {
      var m := Next(owned, s, steps[0]);
      StepKeepsInv(owned, s, steps[0]);
      AtMostThreeStatusChanges(owned, m, steps[1..], s', job);
      assert RankAt(m.table, job) + (if StatusChanged(s.table, m.table, job) then 1 else 0) <= RankAt(s.table, job);
    }
  }

  function LevelAt(t: Table, job: nat): nat {
    if job in t then Level(t[job].status) else 4
  }

  /** Over every run, split recoveries included, each status change lowers the level: at most four. */
  lemma {:induction false} AtMostFourStatusChanges(owned: bool, s: State, steps: seq<Step>, s': State, job: nat)
    requires Inv(s) && Run(owned, s, steps, s')
    ensures StatusChanges(owned, s, steps, job) + LevelAt(s'.table, job) <= LevelAt(s.table, job)
    ensures StatusChanges(owned, s, steps, job) <= 4
    decreases |steps|
  {
    if steps != [] {
      var m := Next(owned, s, steps[0]);
      StepKeepsInv(owned, s, steps[0]);
      AtMostFourStatusChanges(owned, m, steps[1..], s', job);
      assert LevelAt(m.table, job) + (if StatusChanged(s.table, m.table, job) then 1 else 0) <= LevelAt(s.table, job);
    }
  }

  /**
   Cancellation provenance, in every state of every run from the initial one: a job is cancelled,
   or about to be, only if somebody asked for it, and then the request is stamped on the row.
   */
  lemma CancellationProvenance(owned: bool, steps: seq<Step>, s: State, job: nat)
    requires Run(owned, INIT, steps, s)
    requires job in s.table && (s.table[job].status.Cancelled? || s.table[job].status.CancellationRequested?)
    ensures job in s.cancels && s.table[job].cancelledAt.Some?
  {
    InitInv();
    RunsPersist(owned, INIT, steps, s);
  }
}
