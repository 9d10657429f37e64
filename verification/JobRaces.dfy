/**
 Where the code as written is weaker than its stated intent: a reachable run that shows it, and
 the exact condition under which the intent holds all the same.
 */
module JobRaces {
  import opened Prelude
  import opened JobTable
  import opened JobProtocol

  lemma RunPrepends(owned: bool, s: State, step: Step, rest: seq<Step>, s': State)
    requires Enabled(s, step) && Run(owned, Next(owned, s, step), rest, s')
    ensures Run(owned, s, [step] + rest, s')
  {
    assert ([step] + rest)[1..] == rest;
  }

  lemma {:induction false} RunsCompose(owned: bool, s: State, a: seq<Step>, m: State, b: seq<Step>, s': State)
    requires Run(owned, s, a, m) && Run(owned, m, b, s')
    ensures Run(owned, s, a + b, s')
    decreases |a|
  {
    if a == [] {
      assert a + b == b;
    } else {
      RunsCompose(owned, Next(owned, s, a[0]), a[1..], m, b, s');
      RunPrepends(owned, s, a[0], a[1..] + b, s');
      assert [a[0]] + (a[1..] + b) == a + b;
    }
  }

  lemma RunExtends(owned: bool, s: State, a: seq<Step>, m: State, step: Step)
    requires Run(owned, s, a, m) && Enabled(m, step)
    ensures Run(owned, s, a + [step], Next(owned, m, step))
  {
    var s' := Next(owned, m, step);
    assert [step][1..] == [];
    assert Run(owned, s', [], s');
    assert Run(owned, m, [step], s');
    RunsCompose(owned, s, a, m, [step], s');
  }

  /** `s` is reachable from the initial state, by a run with atomic recovery if `atomic`. */
  ghost predicate Reached(owned: bool, s: State, atomic: bool) {
    exists steps :: Run(owned, INIT, steps, s) && (atomic ==> AtomicRecovery(steps))
  }

  lemma Advance(owned: bool, s: State, atomic: bool, step: Step, s': State)
    requires Reached(owned, s, atomic) && Enabled(s, step) && s' == Next(owned, s, step)
    requires atomic ==> Unsplit(step)
    ensures Reached(owned, s', atomic)
  {
    var steps :| Run(owned, INIT, steps, s) && (atomic ==> AtomicRecovery(steps));
    RunExtends(owned, INIT, steps, s, step);
    assert atomic ==> AtomicRecovery(steps + [step]);
  }

  lemma InitReached(owned: bool)
    ensures Reached(owned, INIT, true)
  {
    assert Run(owned, INIT, [], INIT);
  }

  /** Job 1 of instance "a", queued and then claimed. */
  const JOB := QueuedRow("c", "r", 0)
  const CLAIMED := ClaimRow(JOB, "a", 0)

  /** Instance "a" has inserted job 1 and is about to submit it. */
  const INSERTED := State(map[1 := JOB], 2, [], map["a" := Serving], {("a", 1)}, {})

  /** Instance "a" has accepted job 1, which waits in its executor. */
  const WAITING := State(map[1 := JOB], 2, [Fresh("a", 1)], map["a" := Serving], {}, {})

  /** The owner of job 1 is executing it. */
  const EXECUTING := State(map[1 := CLAIMED], 2, [Thread("a", 1, Executing, false, true)], map["a" := Serving], {}, {})

  lemma BootsAndReconciles(owned: bool, s: State, s': State, w: string)
    requires Reached(owned, s, true) && w != "" && w !in s.up && 1 <= s.nextId
    requires Recover(s.table, w, STALE_AFTER_SECONDS, ORPHANED, 0) == s.table
    requires s' == s.(threads := s.threads + FreshAll(w, QueuedIds(s.table, 1, s.nextId)), up := s.up[w := Serving])
    ensures Reached(owned, s', true)
  {
    var s1 := s.(up := s.up[w := Recovering]);
    Advance(owned, s, true, Boot(w), s1);
    var s2 := s.(up := s1.up[w := Recovered]);
    Advance(owned, s1, true, RecoverAtomically(w, 0), s2);
    assert s2.up[w := Serving] == s.up[w := Serving];
    Advance(owned, s2, true, Resubmit(w), s');
  }

  lemma InsertReached(owned: bool)
    ensures Reached(owned, INSERTED, true)
  {
    InitReached(owned);
    var s1 := State(map[], 1, [], map["a" := Serving], {}, {});
    BootsAndReconciles(owned, INIT, s1, "a");
    Advance(owned, s1, true, Insert("a", "c", "r", 0), INSERTED);
  }

  lemma WaitingReached(owned: bool)
    ensures Reached(owned, WAITING, true)
  {
    InsertReached(owned);
    Advance(owned, INSERTED, true, Submit("a", 1), WAITING);
  }

  lemma ExecutingReached(owned: bool)
    ensures Reached(owned, EXECUTING, true)
  {
    WaitingReached(owned);
    var s1 := WAITING.(table := map[1 := CLAIMED], threads := [Thread("a", 1, Claimed, false, false)]);
    Advance(owned, WAITING, true, Work(0, ClaimJob(0)), s1);
    Advance(owned, s1, true, Work(0, ReadClaim), EXECUTING);
  }

  // ----- the test after the claim does not look at the owner -----

  /** Two threads have entered the pipeline for the same job. */
  ghost predicate ExecutedTwice(s: State, job: nat) {
    exists i, k :: 0 <= i < k < |s.threads| && s.threads[i].job == job && s.threads[k].job == job
      && s.threads[i].executed && s.threads[k].executed
  }

  /** Whoever has executed a job or can still come to execute it: a thread, or a submission that is still to be made. */
  datatype Holder = InThread(i: nat) | InQueue(worker: string)

  predicate Holds(s: State, job: nat, h: Holder) {
    match h
    case InThread(i) =>
      && i < |s.threads| && s.threads[i].job == job
      && (s.threads[i].executed || s.threads[i].pc.Submitted? || s.threads[i].pc.Claimed?)
    case InQueue(w) => (w, job) in s.unsubmitted
  }

  ghost predicate TwoHolders(s: State, job: nat) {
    exists a, b :: a != b && Holds(s, job, a) && Holds(s, job, b)
  }

  /** A thread that reads the row now, or after its own claim, goes on. */
  predicate CanStillRun(t: Table, job: nat) {
    job in t && (t[job].status.Queued? || t[job].status.Running?)
  }

  ghost predicate NoResubmit(steps: seq<Step>) {
    forall k :: 0 <= k < |steps| ==> !steps[k].Resubmit?
  }

  ghost predicate ReachesDoubleExecution(s: State, job: nat) {
    exists steps, s' :: Run(false, s, steps, s') && NoResubmit(steps) && ExecutedTwice(s', job)
  }

  ghost predicate AtRisk(s: State, job: nat) {
    ExecutedTwice(s, job) || (CanStillRun(s.table, job) && TwoHolders(s, job))
  }

  /** Where a holder was before the step: a thread that the step has made came from the queue. */
  function Origin(s: State, step: Step, h: Holder): Holder {
    if step.Submit? && h == InThread(|s.threads|) then InQueue(step.worker) else h
  }

  lemma HolderBefore(s: State, step: Step, job: nat, h: Holder)
    requires Enabled(s, step) && !step.Resubmit? && job < s.nextId && Holds(Next(false, s, step), job, h)
    ensures Holds(s, job, Origin(s, step, h))
  {}

  lemma HoldersBefore(s: State, step: Step, job: nat)
    requires Enabled(s, step) && !step.Resubmit? && job < s.nextId && TwoHolders(Next(false, s, step), job)
    ensures TwoHolders(s, job)
  {
    var s' := Next(false, s, step);
    var a, b :| a != b && Holds(s', job, a) && Holds(s', job, b);
    HolderBefore(s, step, job, a);
    HolderBefore(s, step, job, b);
    assert Origin(s, step, a) != Origin(s, step, b);
  }

  lemma StatusBefore(s: State, step: Step, job: nat)
    requires Enabled(s, step) && job in s.table && job < s.nextId && CanStillRun(TableAfter(s, step), job)
    ensures CanStillRun(s.table, job)
  {}

  lemma ExecutedAreHolders(s: State, job: nat)
    requires ExecutedTwice(s, job)
    ensures TwoHolders(s, job)
  {
    var i, k :| 0 <= i < k < |s.threads| && s.threads[i].job == job && s.threads[k].job == job
      && s.threads[i].executed && s.threads[k].executed;
    assert Holds(s, job, InThread(i)) && Holds(s, job, InThread(k)) && InThread(i) != InThread(k);
  }

  /** Only a thread that reads a running row starts to execute. */
  lemma FirstExecution(s: State, step: Step, job: nat, i: nat)
    requires Enabled(s, step) && !step.Resubmit? && i < |ThreadsAfter(false, s, step)|
    requires ThreadsAfter(false, s, step)[i].executed && ThreadsAfter(false, s, step)[i].job == job
    ensures i < |s.threads| && s.threads[i].job == job && (s.threads[i].executed || CanStillRun(s.table, job))
  {}

  lemma RiskBefore(s: State, step: Step, job: nat)
    requires Enabled(s, step) && !step.Resubmit? && job in s.table && job < s.nextId
    requires AtRisk(Next(false, s, step), job)
    ensures AtRisk(s, job)
  {
    var s' := Next(false, s, step);
    if ExecutedTwice(s', job) {
      ExecutedAreHolders(s', job);
      var i, k :| 0 <= i < k < |s'.threads| && s'.threads[i].job == job && s'.threads[k].job == job
        && s'.threads[i].executed && s'.threads[k].executed;
      FirstExecution(s, step, job, i);
      FirstExecution(s, step, job, k);
    } else {
      StatusBefore(s, step, job);
    }
    HoldersBefore(s, step, job);
  }

  lemma {:induction false} DoubleExecutionWasAtRisk(s: State, steps: seq<Step>, s': State, job: nat)
    requires Run(false, s, steps, s') && NoResubmit(steps) && AtRisk(s', job) && job in s.table && job < s.nextId
    ensures AtRisk(s, job)
    decreases |steps|
  {
    if steps != [] {
      assert !steps[0].Resubmit?;
      var m := Next(false, s, steps[0]);
      JobStays(s, steps[0], job);
      DoubleExecutionWasAtRisk(m, steps[1..], s', job);
      RiskBefore(s, steps[0], job);
    }
  }

  lemma JobStays(s: State, step: Step, job: nat)
    requires Enabled(s, step) && job in s.table && job < s.nextId
    ensures job in TableAfter(s, step) && job < Next(false, s, step).nextId
  {}

  // ----- and the run that makes two holders execute -----

  /** What the next claim or read of the holder would find lets it go on. */
  predicate CanStart(s: State, job: nat, h: Holder) {
    && Holds(s, job, h) && job in s.table
    && match h
       case InThread(i) =>
         && (s.threads[i].executed || s.table[job].status.Running?
              || (s.table[job].status.Queued? && s.threads[i].pc.Submitted?))
       case InQueue(_) => CanStillRun(s.table, job)
  }

  /** Where the holder is once it executes. */
  function Seat(s: State, h: Holder): nat {
    match h
    case InThread(i) => i
    case InQueue(_) => |s.threads|
  }

  /** `m` follows by steps without resubmission; the holder executes, and everybody else is where they were. */
  ghost predicate Started(s: State, m: State, job: nat, h: Holder) {
    && (exists steps :: Run(false, s, steps, m) && NoResubmit(steps))
    && Seat(s, h) < |m.threads| && m.threads[Seat(s, h)].job == job && m.threads[Seat(s, h)].executed
    && job in m.table && (s.table.Keys == m.table.Keys)
    && (m.table[job].status.Running? || m == s)
    && |s.threads| <= |m.threads|
         && (forall k :: 0 <= k < |s.threads| && k != Seat(s, h) ==> m.threads[k] == s.threads[k])
    && (h.InThread? ==> |m.threads| == |s.threads|)
    && (forall p :: p in s.unsubmitted && (h.InQueue? ==> p != (h.worker, job)) ==> p in m.unsubmitted)
  }

  lemma ThreadStarts(s: State, job: nat, i: nat) returns (m: State)
    requires CanStart(s, job, InThread(i))
    ensures Started(s, m, job, InThread(i))
  {
    assert Run(false, s, [], s);
    m := s;
    if !s.threads[i].executed {
      var steps: seq<Step> := [];
      if s.threads[i].pc.Submitted? {
        RunExtends(false, s, steps, m, Work(i, ClaimJob(0)));
        steps, m := steps + [Work(i, ClaimJob(0))], Next(false, m, Work(i, ClaimJob(0)));
      }
      RunExtends(false, s, steps, m, Work(i, ReadClaim));
      steps, m := steps + [Work(i, ReadClaim)], Next(false, m, Work(i, ReadClaim));
      assert NoResubmit(steps);
    }
  }

  lemma HolderStarts(s: State, job: nat, h: Holder) returns (m: State)
    requires CanStart(s, job, h)
    ensures Started(s, m, job, h)
  {
    if h.InThread? {
      m := ThreadStarts(s, job, h.i);
    } else {
      var step := Submit(h.worker, job);
      var s1 := Next(false, s, step);
      m := ThreadStarts(s1, job, |s.threads|);
      var steps :| Run(false, s1, steps, m) && NoResubmit(steps);
      assert ([step] + steps)[1..] == steps;
      assert Run(false, s, [step] + steps, m) && NoResubmit([step] + steps);
    }
  }

  lemma TwoHoldersExecute(s: State, job: nat, a: Holder, b: Holder)
    requires a != b && CanStart(s, job, a) && Holds(s, job, b)
    requires b.InThread? && s.threads[b.i].executed ==> a.InThread? && s.threads[a.i].executed
    requires b.InThread? && s.threads[b.i].pc.Claimed? ==> s.table[job].status.Running? || s.threads[b.i].executed
    requires CanStillRun(s.table, job)
    ensures ReachesDoubleExecution(s, job)
  {
    var m := HolderStarts(s, job, a);
    assert Holds(m, job, b) && CanStart(m, job, b);
    var s' := HolderStarts(m, job, b);
    var i, k := Seat(s, a), Seat(m, b);
    assert i != k && s'.threads[i].executed && s'.threads[k].executed && s'.threads[i].job == s'.threads[k].job == job;
    assert ExecutedTwice(s', job) by {
      if k < i {
        assert 0 <= k < i < |s'.threads|;
      }
    }
    var first :| Run(false, s, first, m) && NoResubmit(first);
    var second :| Run(false, m, second, s') && NoResubmit(second);
    RunsCompose(false, s, first, m, second, s');
    assert NoResubmit(first + second);
  }

  /**
   Exactly when the test as written lets a job run twice, without any further resubmission: it has
   already, or the job can still run and two hold it: threads that have executed it or wait for it,
   and submissions still to be made. That is what a restarting instance brings about when it
   resubmits another instance's queue.
   */
  lemma LiteralTestExact(s: State, job: nat)
    requires Inv(s) && job in s.table
    ensures ReachesDoubleExecution(s, job) <==>
            ExecutedTwice(s, job) || (CanStillRun(s.table, job) && TwoHolders(s, job))
  {
    if ReachesDoubleExecution(s, job) {
      var steps, s' :| Run(false, s, steps, s') && NoResubmit(steps) && ExecutedTwice(s', job);
      DoubleExecutionWasAtRisk(s, steps, s', job);
    } else if ExecutedTwice(s, job) {
      assert Run(false, s, [], s) && NoResubmit([]);
    } else if CanStillRun(s.table, job) && TwoHolders(s, job) {
      var a, b :| a != b && Holds(s, job, a) && Holds(s, job, b);
      HolderIsReady(s, job, a);
      HolderIsReady(s, job, b);
      if b.InThread? && s.threads[b.i].executed {
        TwoHoldersExecute(s, job, b, a);
      } else {
        TwoHoldersExecute(s, job, a, b);
      }
    }
  }

  lemma HolderIsReady(s: State, job: nat, h: Holder)
    requires Inv(s) && CanStillRun(s.table, job) && Holds(s, job, h)
    ensures CanStart(s, job, h)
    ensures h.InThread? && (s.threads[h.i].executed || s.threads[h.i].pc.Claimed?) ==> s.table[job].status.Running?
  {
    if h.InThread? {
      assert Knows(s.threads[h.i], s.table[job]);
    }
  }

  /** A second instance that starts while job 1 waits puts it into its own executor as well. */
  lemma RestartResubmits(owned: bool)
    ensures Reached(owned,
                WAITING.(threads := [Fresh("a", 1), Fresh("b", 1)], up := map["a" := Serving, "b" := Serving]), true)
  {
    WaitingReached(owned);
    assert QueuedIds(WAITING.table, 2, 2) == [] && QueuedIds(WAITING.table, 1, 2) == [1];
    BootsAndReconciles(owned, WAITING,
      WAITING.(threads := [Fresh("a", 1), Fresh("b", 1)], up := map["a" := Serving, "b" := Serving]), "b");
  }

  /** Between the insert of job 1 and its submission a second instance starts: both hold the job. */
  const QUEUED_TWICE := State(map[1 := JOB], 2, [Fresh("b", 1)], map["a" := Serving, "b" := Serving], {("a", 1)}, {})

  lemma SubmissionMayStillFollow()
    ensures Reached(false, QUEUED_TWICE, true) && ReachesDoubleExecution(QUEUED_TWICE, 1)
  {
    InsertReached(false);
    assert QueuedIds(INSERTED.table, 2, 2) == [] && QueuedIds(INSERTED.table, 1, 2) == [1];
    BootsAndReconciles(false, INSERTED, QUEUED_TWICE, "b");
    ReachedIsSafe(false, QUEUED_TWICE);
    assert Holds(QUEUED_TWICE, 1, InThread(0)) && Holds(QUEUED_TWICE, 1, InQueue("a"));
    LiteralTestExact(QUEUED_TWICE, 1);
  }

  lemma ReachedIsSafe(owned: bool, s: State)
    requires Reached(owned, s, true)
    ensures Inv(s)
  {
    var steps :| Run(owned, INIT, steps, s) && AtomicRecovery(steps);
    InitInv();
    RunsPersist(owned, INIT, steps, s);
  }

  lemma BothProceed(s: State)
    requires Reached(false, s, true) && s.threads == [Fresh("a", 1), Fresh("b", 1)] && s.table == map[1 := JOB]
    ensures var t := Thread("a", 1, Executing, false, true);
            Reached(false, s.(table := map[1 := CLAIMED], threads := [t, t.(worker := "b")]), true)
  {
    var t, u := Fresh("a", 1), Fresh("b", 1);
    var s1 := s.(table := map[1 := CLAIMED], threads := [t.(pc := Claimed), u]);
    Advance(false, s, true, Work(0, ClaimJob(0)), s1);
    var s2 := s1.(threads := [t.(pc := Executing, executed := true), u]);
    Advance(false, s1, true, Work(0, ReadClaim), s2);
    var s3 := s1.(threads := [t.(pc := Executing, executed := true), u.(pc := Claimed)]);
    Advance(false, s2, true, Work(1, ClaimJob(0)), s3);
    var s4 := s1.(threads := [t.(pc := Executing, executed := true), u.(pc := Executing, executed := true)]);
    Advance(false, s3, true, Work(1, ReadClaim), s4);
  }

  /** Two instances execute job 1 at the same time. */
  const BOTH_EXECUTING := State(
    map[1 := CLAIMED], 2, [Thread("a", 1, Executing, false, true), Thread("b", 1, Executing, false, true)],
    map["a" := Serving, "b" := Serving], {}, {})

  /** The code as written reaches such a state. */
  lemma LiteralTestRunsTwice()
    ensures Reached(false, BOTH_EXECUTING, true)
  {
    RestartResubmits(false);
    BothProceed(WAITING.(threads := [Fresh("a", 1), Fresh("b", 1)], up := map["a" := Serving, "b" := Serving]));
  }

  // ----- a recovery whose SELECT and UPDATE are apart -----

  /** Instance "b" has selected the job that "a" is executing. */
  const SELECTED := EXECUTING.(up := map["a" := Serving, "b" := Selected({1})])

  lemma SelectedReached()
    ensures Reached(true, SELECTED, false)
  {
    ExecutingReached(true);
    assert Reached(true, EXECUTING, false);
    var s1 := EXECUTING.(up := map["a" := Serving, "b" := Recovering]);
    Advance(true, EXECUTING, false, Boot("b"), s1);
    assert Orphans(s1.table, "b", Cutoff(200000, STALE_AFTER_SECONDS)) == {1};
    Advance(true, s1, false, SelectOrphans("b", 200000), SELECTED);
  }

  /** A job that completes between the two statements of another instance's recovery becomes failed. */
  lemma SplitRecoveryRevivesTerminalJob() returns (s: State, s': State)
    ensures Reached(true, s, false) && Enabled(s, FailSelected("b", 200001))
              && s' == Next(true, s, FailSelected("b", 200001))
    ensures 1 in s.table && s.table[1].status.Completed?
    ensures 1 in s'.table && s'.table[1].status.Failed?
  {
    SelectedReached();
    s := DecidesToComplete(SELECTED, false);
    s := WritesCompleted(s, false);
    s' := FailsWhatItSelected(s);
  }

  lemma FailsWhatItSelected(s: State) returns (s': State)
    requires "b" in s.up && s.up["b"] == Selected({1}) && 1 in s.table
    ensures Enabled(s, FailSelected("b", 200001)) && s' == Next(true, s, FailSelected("b", 200001))
    ensures 1 in s'.table && s'.table[1].status.Failed?
  {
    s' := Next(true, s, FailSelected("b", 200001));
  }

  /** The owner of job 1 returns and re-reads the row before anybody has asked to cancel. */
  lemma DecidesToComplete(s: State, atomic: bool) returns (s': State)
    requires Reached(true, s, atomic)
    requires s.threads == [Thread("a", 1, Executing, false, true)] && s.table == map[1 := CLAIMED]
    ensures s' == s.(threads := [Thread("a", 1, Deciding(WriteCompleted), false, true)]) && Reached(true, s', atomic)
  {
    var t := s.threads[0];
    var s1 := s.(threads := [t.(pc := Reported(ReportCompleted))]);
    Advance(true, s, atomic, Work(0, Return(ReportCompleted)), s1);
    s' := s.(threads := [t.(pc := Deciding(WriteCompleted))]);
    Advance(true, s1, atomic, Work(0, ReRead), s');
  }

  lemma WritesCompleted(s: State, atomic: bool) returns (s': State)
    requires Reached(true, s, atomic) && s.table.Keys == {1}
    requires s.threads == [Thread("a", 1, Deciding(WriteCompleted), false, true)]
    ensures Reached(true, s', atomic) && s'.up == s.up && s'.cancels == s.cancels
    ensures s'.table == map[1 := CompleteRow(s.table[1], Status.Completed, "ok", 9)]
  {
    s' := s.(table := map[1 := CompleteRow(s.table[1], Status.Completed, "ok", 9)],
             threads := [s.threads[0].(pc := Closing)]);
    Advance(true, s, atomic, Work(0, Finish("ok", 9)), s');
  }

  // ----- a cancel that lands after the re-read -----

  /** The job still completes; that it was asked to cancel remains visible only in the stamp. */
  lemma LateCancelStillCompletes() returns (s: State)
    ensures Reached(true, s, true) && 1 in s.table && 1 in s.cancels
    ensures s.table[1].status.Completed? && s.table[1].cancelledAt == Some(5)
  {
    ExecutingReached(true);
    var s1 := DecidesToComplete(EXECUTING, true);
    var s2 := s1.(table := map[1 := CancelRow(CLAIMED, 5)], cancels := {1});
    Advance(true, s1, true, Cancel(1, 5), s2);
    s := WritesCompleted(s2, true);
  }

  // ----- queueing: the check and the insert are two transactions -----

  predicate HasActive(t: Table, config: string) {
    exists id :: id in t && t[id].config == config && Active(t[id].status)
  }

  /** No configuration has two open jobs, which would overwrite each other's artifacts. */
  ghost predicate OneActivePerConfig(t: Table) {
    forall i, k :: i in t && k in t && i != k && Active(t[i].status) && Active(t[k].status) ==>
      t[i].config != t[k].config
  }

  /** The check still holds at the moment of the insert. */
  predicate CheckedInsert(s: State, step: Step) {
    step.Insert? ==> !HasActive(s.table, step.config)
  }

  lemma InsertExact(t: Table, id: nat, config: string, request: string, now: Instant)
    requires id !in t && OneActivePerConfig(t)
    ensures OneActivePerConfig(t[id := QueuedRow(config, request, now)]) <==> !HasActive(t, config)
  {
    var t' := t[id := QueuedRow(config, request, now)];
    if HasActive(t, config) {
      var k :| k in t && t[k].config == config && Active(t[k].status);
      assert k in t' && id in t' && k != id && t'[k] == t[k];
    } else {
      forall i, k | i in t' && k in t' && i != k && Active(t'[i].status) && Active(t'[k].status)
        ensures t'[i].config != t'[k].config
      {
        assert i != id ==> t'[i] == t[i];
        assert k != id ==> t'[k] == t[k];
      }
    }
  }

  ghost predicate CheckedRun(owned: bool, s: State, steps: seq<Step>, s': State)
    decreases |steps|
  {
    if steps == [] then s' == s
    else
      && Enabled(s, steps[0]) && CheckedInsert(s, steps[0])
      && CheckedRun(owned, Next(owned, s, steps[0]), steps[1..], s')
  }

  /** If every check still holds when its insert commits, no run ever opens two jobs for one configuration. */
  lemma {:induction false} CheckedRunsKeepOneActive(owned: bool, s: State, steps: seq<Step>, s': State)
    requires Inv(s) && OneActivePerConfig(s.table) && CheckedRun(owned, s, steps, s')
    ensures OneActivePerConfig(s'.table)
    decreases |steps|
  {
    if steps != [] {
      var m := Next(owned, s, steps[0]);
      StepKeepsInv(owned, s, steps[0]);
      if steps[0].Insert? {
        InsertExact(s.table, s.nextId, steps[0].config, steps[0].request, steps[0].now);
      } else {
        assert m.table.Keys == s.table.Keys;
        forall id | id in s.table && Active(m.table[id].status)
          ensures Active(s.table[id].status) && m.table[id].config == s.table[id].config
        {
          assert Persists(s.table[id], m.table[id]);
        }
      }
      CheckedRunsKeepOneActive(owned, m, steps[1..], s');
    }
  }

  /** Two requests that both pass the check before either inserts open two jobs for one configuration. */
  lemma CheckThenInsertRaces(t: Table, id: nat, config: string, request: string, now: Instant)
    requires id !in t && id + 1 !in t && !HasActive(t, config)
    ensures !OneActivePerConfig(t[id := QueuedRow(config, request, now)][id + 1 := QueuedRow(config, request, now)])
  {
    var t' := t[id := QueuedRow(config, request, now)][id + 1 := QueuedRow(config, request, now)];
    assert id in t' && id + 1 in t' && Active(t'[id].status) && Active(t'[id + 1].status);
  }
}
