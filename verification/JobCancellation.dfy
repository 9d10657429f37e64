/**
 When a cancel wins: for either test after the claim, a cancel that commits before its worker has
 re-read the row ends in "cancelled" exactly if no other worker of the job has already decided to
 write something else. With the ownership test there is no other worker.
 */
module JobCancellation {
  import opened Prelude
  import opened JobTable
  import opened JobProtocol
  import opened JobExclusivity
  import opened JobRaces

  /** No recovery, crash or exception touches this thread or its job in this step. */
  predicate Undisturbed(s: State, step: Step, i: nat)
    requires i < |s.threads|
  {
    match step
    case RecoverAtomically(_, _) => false
    case SelectOrphans(_, _) => false
    case FailSelected(_, _) => false
    case Crash(w) => w != s.threads[i].worker
    case Work(k, a) =>
      && (a.Raise? ==> k != i)
      && (a.HandleFailure? && k < |s.threads| ==> s.threads[k].job != s.threads[i].job)
    case _ => true
  }

  ghost predicate UndisturbedRun(owned: bool, s: State, steps: seq<Step>, s': State, i: nat)
    decreases |steps|
  {
    if steps == [] then s' == s
    else
      && i < |s.threads| && Enabled(s, steps[0]) && Undisturbed(s, steps[0], i)
      && UndisturbedRun(owned, Next(owned, s, steps[0]), steps[1..], s', i)
  }

  /** The worker has not re-read the row, or has seen the request there. */
  predicate StillListens(pc: Pc) {
    pc.Executing? || pc.Reported? || pc == Deciding(WriteCancelled)
  }

  /** A cancel is on the row before the worker has passed its re-read. */
  predicate CancelCommitted(s: State, i: nat) {
    && i < |s.threads| && s.threads[i].job in s.table && s.threads[i].job < s.nextId
    && s.table[s.threads[i].job].status.CancellationRequested? && StillListens(s.threads[i].pc)
  }

  /** The worker has written its outcome. */
  predicate HasWritten(s: State, i: nat) {
    i < |s.threads| && (s.threads[i].pc.Closing? || s.threads[i].pc.Finished?)
  }

  predicate IsCancelled(s: State, i: nat) {
    i < |s.threads| && s.threads[i].job in s.table && s.table[s.threads[i].job].status.Cancelled?
  }

  /** Another worker re-read the row before the cancel, and is about to write what it decided then. */
  predicate Overruled(s: State, i: nat)
    requires i < |s.threads|
  {
    exists k :: 0 <= k < |s.threads| && k != i && DecidedOtherwise(s.threads[k], s.threads[i].job)
  }

  predicate DecidedOtherwise(t: Thread, job: nat) {
    t.job == job && t.pc.Deciding? && !t.pc.verdict.WriteCancelled?
  }

  /** However the run goes on, once the worker has written its outcome the job is cancelled. */
  ghost predicate CancelWins(owned: bool, s: State, i: nat) {
    forall steps, s' :: UndisturbedRun(owned, s, steps, s', i) && HasWritten(s', i) ==> IsCancelled(s', i)
  }

  /** The job is cancelled, or its worker will still see that it should be and nobody will write otherwise. */
  predicate CancelUnderway(s: State, i: nat) {
    && i < |s.threads| && s.threads[i].job < s.nextId
    && (IsCancelled(s, i) || (CancelCommitted(s, i) && !Overruled(s, i)))
  }

  /** A cancelled row stays as it is. */
  lemma CancelledStays(owned: bool, s: State, step: Step, i: nat)
    requires i < |s.threads| && IsCancelled(s, i) && s.threads[i].job < s.nextId
    requires Enabled(s, step) && Undisturbed(s, step, i)
    ensures var s' := Next(owned, s, step);
            i < |s'.threads| && s'.threads[i].job == s.threads[i].job && IsCancelled(s', i)
  {}

  /** The worker's own step: it keeps listening, or writes the cancellation. */
  lemma OwnStepListens(owned: bool, s: State, a: Action, i: nat)
    requires CancelCommitted(s, i) && Enabled(s, Work(i, a)) && Undisturbed(s, Work(i, a), i)
    ensures var s' := Next(owned, s, Work(i, a)); CancelCommitted(s', i) || IsCancelled(s', i)
  {}

  /** A step of another worker leaves the request on the row, or writes the cancellation. */
  lemma OtherStepListens(owned: bool, s: State, k: nat, a: Action, i: nat)
    requires CancelCommitted(s, i) && !Overruled(s, i) && k != i
    requires Enabled(s, Work(k, a)) && Undisturbed(s, Work(k, a), i)
    ensures var s' := Next(owned, s, Work(k, a)); CancelCommitted(s', i) || IsCancelled(s', i)
  {
    assert !DecidedOtherwise(s.threads[k], s.threads[i].job);
  }

  /** Whoever re-reads now sees the request. */
  lemma WorkOverrulesNobody(owned: bool, s: State, k: nat, a: Action, i: nat)
    requires CancelCommitted(s, i) && !Overruled(s, i) && Enabled(s, Work(k, a))
    ensures !Overruled(Next(owned, s, Work(k, a)), i)
  {
    var s' := Next(owned, s, Work(k, a));
    forall j | 0 <= j < |s'.threads| && j != i ensures !DecidedOtherwise(s'.threads[j], s'.threads[i].job) {
      assert !DecidedOtherwise(s.threads[j], s.threads[i].job);
    }
  }

  /** Cancel requests, submissions, new jobs and the crashes of others. */
  lemma QuietStepListens(owned: bool, s: State, step: Step, i: nat)
    requires CancelCommitted(s, i) && !Overruled(s, i) && !step.Work?
    requires Enabled(s, step) && Undisturbed(s, step, i)
    ensures var s' := Next(owned, s, step); CancelCommitted(s', i) && !Overruled(s', i)
  {
    var s' := Next(owned, s, step);
    forall j | 0 <= j < |s'.threads| && j != i ensures !DecidedOtherwise(s'.threads[j], s.threads[i].job) {
      assert j < |s.threads| ==> !DecidedOtherwise(s.threads[j], s.threads[i].job);
    }
  }

  lemma StepKeepsCancelUnderway(owned: bool, s: State, step: Step, i: nat)
    requires CancelUnderway(s, i) && Enabled(s, step) && Undisturbed(s, step, i)
    ensures CancelUnderway(Next(owned, s, step), i)
  {
    if IsCancelled(s, i) {
      CancelledStays(owned, s, step, i);
    } else if step.Work? {
      if step.i == i {
        OwnStepListens(owned, s, step.action, i);
      } else {
        OtherStepListens(owned, s, step.i, step.action, i);
      }
      WorkOverrulesNobody(owned, s, step.i, step.action, i);
    } else {
      QuietStepListens(owned, s, step, i);
    }
  }

  lemma {:induction false} CancelStaysUnderway(owned: bool, s: State, steps: seq<Step>, s': State, i: nat)
    requires CancelUnderway(s, i) && UndisturbedRun(owned, s, steps, s', i)
    ensures CancelUnderway(s', i)
    decreases |steps|
  {
    if steps != [] {
      StepKeepsCancelUnderway(owned, s, steps[0], i);
      CancelStaysUnderway(owned, Next(owned, s, steps[0]), steps[1..], s', i);
    }
  }

  // ----- the run that loses the cancel -----

  /** A worker can still get to the end, whatever end its job has meanwhile come to: it writes nothing any more. */
  lemma WorkerFinishes(owned: bool, s: State, i: nat) returns (steps: seq<Step>, s': State)
    requires i < |s.threads| && InCharge(s.threads[i].pc) && s.threads[i].job in s.table
    requires Terminal(s.table[s.threads[i].job].status) && !IsCancelled(s, i)
    ensures UndisturbedRun(owned, s, steps, s', i) && HasWritten(s', i) && !IsCancelled(s', i)
    decreases if s.threads[i].pc.Executing? then 2 else if s.threads[i].pc.Reported? then 1 else 0
  {
    var action :=
      if s.threads[i].pc.Executing? then Return(ReportCompleted)
      else if s.threads[i].pc.Reported? then ReRead
      else Finish("", 0);
    var step := Work(i, action);
    var m := Next(owned, s, step);
    if action.Finish? {
      steps, s' := [step], m;
      assert [step][1..] == [] && UndisturbedRun(owned, m, [], m, i);
    } else {
      var rest;
      rest, s' := WorkerFinishes(owned, m, i);
      steps := [step] + rest;
      assert steps[1..] == rest;
    }
  }

  lemma OverruledLoses(owned: bool, s: State, i: nat) returns (steps: seq<Step>, s': State)
    requires CancelCommitted(s, i) && Overruled(s, i)
    ensures UndisturbedRun(owned, s, steps, s', i) && HasWritten(s', i) && !IsCancelled(s', i)
  {
    var k :| 0 <= k < |s.threads| && k != i && DecidedOtherwise(s.threads[k], s.threads[i].job);
    var step := Work(k, Finish("", 0));
    var rest;
    rest, s' := WorkerFinishes(owned, Next(owned, s, step), i);
    steps := [step] + rest;
    assert steps[1..] == rest;
  }

  /**
   For either test after the claim: a cancel that commits before the worker has passed its re-read
   wins, over all runs in which no exception, crash or recovery intervenes, exactly if no other
   worker of the job has already decided otherwise.
   */
  lemma CancelWinsExact(owned: bool, s: State, i: nat)
    requires CancelCommitted(s, i)
    ensures CancelWins(owned, s, i) <==> !Overruled(s, i)
  {
    if Overruled(s, i) {
      var steps, s' := OverruledLoses(owned, s, i);
    } else {
      forall steps, s' | UndisturbedRun(owned, s, steps, s', i) && HasWritten(s', i) ensures IsCancelled(s', i) {
        CancelStaysUnderway(owned, s, steps, s', i);
      }
    }
  }

  /** With the ownership test nobody else executes the job, so in every reachable state the cancel wins. */
  lemma OwnedCancelWins(steps: seq<Step>, s: State, i: nat)
    requires Run(true, INIT, steps, s) && CancelCommitted(s, i)
    ensures CancelWins(true, s, i)
  {
    InitInv();
    RunsAreExclusive(INIT, steps, s);
    forall k | 0 <= k < |s.threads| && k != i ensures !DecidedOtherwise(s.threads[k], s.threads[i].job) {
      assert Knows(s.threads[k], s.table[s.threads[k].job]) && Knows(s.threads[i], s.table[s.threads[i].job]);
    }
    CancelWinsExact(true, s, i);
  }

  // ----- the test as written -----

  /** Of two workers on job 1 the first has decided to complete it, and then a cancel is requested. */
  const LATE := BOTH_EXECUTING.(
    table := map[1 := CancelRow(CLAIMED, 5)], cancels := {1},
    threads := [Thread("a", 1, Deciding(WriteCompleted), false, true), Thread("b", 1, Executing, false, true)])

  lemma FirstWorkerDecides() returns (s: State)
    ensures s == BOTH_EXECUTING.(threads := LATE.threads) && Reached(false, s, true)
  {
    LiteralTestRunsTwice();
    var t, u := Thread("a", 1, Executing, false, true), Thread("b", 1, Executing, false, true);
    var s1 := BOTH_EXECUTING.(threads := [t.(pc := Reported(ReportCompleted)), u]);
    Advance(false, BOTH_EXECUTING, true, Work(0, Return(ReportCompleted)), s1);
    s := s1.(threads := [t.(pc := Deciding(WriteCompleted)), u]);
    Advance(false, s1, true, Work(0, ReRead), s);
  }

  lemma LateIsReached()
    ensures Reached(false, LATE, true)
  {
    var s1 := FirstWorkerDecides();
    Advance(false, s1, true, Cancel(1, 5), LATE);
  }

  /** The code as written reaches this state, and from it loses a cancel that the second worker has yet to see. */
  lemma LiteralTestLosesCancel()
    ensures Reached(false, LATE, true) && CancelCommitted(LATE, 1) && !CancelWins(false, LATE, 1)
  {
    LateIsReached();
    assert DecidedOtherwise(LATE.threads[0], 1);
    CancelWinsExact(false, LATE, 1);
  }

  const LOST := CompleteRow(CancelRow(CLAIMED, 5), Status.Completed, "ok", 9)

  lemma FirstWorkerWrites(first: Thread, second: Thread) returns (s: State)
    requires first == Thread("a", 1, Closing, false, true) && second == Thread("b", 1, Executing, false, true)
    ensures s == LATE.(table := map[1 := LOST], threads := [first, second]) && Reached(false, s, true)
  {
    LateIsReached();
    s := LATE.(table := map[1 := LOST], threads := [first, second]);
    Advance(false, LATE, true, Work(0, Finish("ok", 9)), s);
  }

  /** That run to its end: both workers are done, and the job is completed. */
  lemma LostCancelIsReached() returns (s: State)
    ensures Reached(false, s, true) && HasWritten(s, 0) && HasWritten(s, 1)
    ensures 1 in s.table && 1 in s.cancels && s.table[1].status.Completed? && s.table[1].cancelledAt == Some(5)
  {
    var t, u := Thread("a", 1, Closing, false, true), Thread("b", 1, Executing, false, true);
    var s1 := FirstWorkerWrites(t, u);
    var s2 := s1.(threads := [t, u.(pc := Reported(ReportCompleted))]);
    Advance(false, s1, true, Work(1, Return(ReportCompleted)), s2);
    var s3 := s1.(threads := [t, u.(pc := Deciding(WriteCompleted))]);
    Advance(false, s2, true, Work(1, ReRead), s3);
    s := s1.(threads := [t, u.(pc := Closing)]);
    Advance(false, s3, true, Work(1, Finish("ok", 9)), s);
  }
}
