/**
 How far the test as written carries: no job is executed twice as long as no instance resubmits a
 job that somebody still holds, and that is so whenever only one instance is up at a time. It holds
 for recoveries in one step or two.
 */
module JobRestart {
  import opened JobTable
  import opened JobProtocol
  import opened JobExclusivity
  import opened JobRaces
  import opened JobStartup

  /** Jobs are numbered below the next id, and whatever has been executed is queued no more. */
  ghost predicate Begun(s: State) {
    && 1 <= s.nextId && (forall id :: id in s.table ==> 1 <= id < s.nextId)
    && (forall i :: 0 <= i < |s.threads| ==> s.threads[i].job < s.nextId)
    && (forall p :: p in s.unsubmitted ==> p.1 < s.nextId)
    && (forall i :: 0 <= i < |s.threads| && s.threads[i].executed ==> StartedOrEnded(s.table, s.threads[i].job))
  }

  predicate StartedOrEnded(t: Table, job: nat) {
    job in t && !t[job].status.Queued?
  }

  lemma ResubmitKeepsBegun(s: State, w: string)
    requires Begun(s) && Enabled(s, Resubmit(w))
    ensures Begun(Next(false, s, Resubmit(w)))
  {
    var s', ids := Next(false, s, Resubmit(w)), QueuedIds(s.table, 1, s.nextId);
    QueuedIdsExact(s.table, 1, s.nextId);
    forall i | |s.threads| <= i < |s'.threads| ensures s'.threads[i].job < s.nextId && !s'.threads[i].executed {
      assert s'.threads[i] == Fresh(w, ids[i - |s.threads|]) && ids[i - |s.threads|] in ids;
    }
  }

  /** No statement queues a job again. */
  lemma StaysStarted(s: State, step: Step, job: nat)
    requires Begun(s) && Enabled(s, step) && StartedOrEnded(s.table, job)
    ensures StartedOrEnded(TableAfter(s, step), job)
  {}

  lemma ExecutedHasStarted(s: State, step: Step, i: nat)
    requires Begun(s) && Enabled(s, step) && !step.Resubmit?
    requires i < |ThreadsAfter(false, s, step)| && ThreadsAfter(false, s, step)[i].executed
    ensures StartedOrEnded(TableAfter(s, step), ThreadsAfter(false, s, step)[i].job)
  {
    if i < |s.threads| && s.threads[i].executed {
      StaysStarted(s, step, s.threads[i].job);
    }
  }

  lemma StepKeepsBegun(s: State, step: Step)
    requires Begun(s) && Enabled(s, step)
    ensures Begun(Next(false, s, step))
  {
    if step.Resubmit? {
      ResubmitKeepsBegun(s, step.worker);
    } else {
      var s' := Next(false, s, step);
      forall i | 0 <= i < |s'.threads| && s'.threads[i].executed ensures StartedOrEnded(s'.table, s'.threads[i].job) {
        ExecutedHasStarted(s, step, i);
      }
    }
  }

  // ----- what a resubmission does to the holders -----

  ghost predicate HeldOnce(s: State) {
    forall job: nat :: job < s.nextId ==> !TwoHolders(s, job)
  }

  ghost predicate IsHeld(s: State, job: nat) {
    exists h :: Holds(s, job, h)
  }

  /** A holder after the resubmission is the new thread of a queued job, or was one before. */
  lemma HolderAfterResubmit(s: State, w: string, job: nat, h: Holder)
    requires Begun(s) && Enabled(s, Resubmit(w)) && Holds(Next(false, s, Resubmit(w)), job, h)
    ensures if h.InThread? && h.i >= |s.threads| then
              h.i - |s.threads| < |QueuedIds(s.table, 1, s.nextId)|
                && QueuedIds(s.table, 1, s.nextId)[h.i - |s.threads|] == job && IsQueued(s.table, job)
            else Holds(s, job, h)
  {
    QueuedIdsExact(s.table, 1, s.nextId);
    if h.InThread? && h.i >= |s.threads| {
      assert QueuedIds(s.table, 1, s.nextId)[h.i - |s.threads|] in QueuedIds(s.table, 1, s.nextId);
    }
  }

  lemma ResubmitAddsOne(s: State, w: string, job: nat)
    requires Begun(s) && Enabled(s, Resubmit(w)) && TwoHolders(Next(false, s, Resubmit(w)), job)
    ensures TwoHolders(s, job) || (IsQueued(s.table, job) && IsHeld(s, job))
  {
    var s' := Next(false, s, Resubmit(w));
    var a, b :| a != b && Holds(s', job, a) && Holds(s', job, b);
    HolderAfterResubmit(s, w, job, a);
    HolderAfterResubmit(s, w, job, b);
    QueuedIdsExact(s.table, 1, s.nextId);
  }

  lemma ResubmitJoins(s: State, w: string, job: nat, h: Holder)
    requires Begun(s) && Enabled(s, Resubmit(w)) && IsQueued(s.table, job) && Holds(s, job, h)
    ensures TwoHolders(Next(false, s, Resubmit(w)), job)
  {
    var s', ids := Next(false, s, Resubmit(w)), QueuedIds(s.table, 1, s.nextId);
    QueuedIdsExact(s.table, 1, s.nextId);
    var k :| 0 <= k < |ids| && ids[k] == job;
    assert s'.threads[|s.threads| + k] == Fresh(w, job);
    assert Holds(s', job, InThread(|s.threads| + k)) && Holds(s', job, h) && h != InThread(|s.threads| + k);
  }

  /** The restart that resubmits a queued job makes double execution possible exactly if somebody holds the job. */
  lemma RestartExact(s: State, w: string, job: nat)
    requires Inv(s) && Enabled(s, Resubmit(w)) && IsQueued(s.table, job)
    ensures ReachesDoubleExecution(Next(false, s, Resubmit(w)), job) <==> IsHeld(s, job)
  {
    var s' := Next(false, s, Resubmit(w));
    InvIsBegun(s);
    StepKeepsInv(false, s, Resubmit(w));
    LiteralTestExact(s', job);
    if ExecutedTwice(s', job) {
      ExecutedAreHolders(s', job);
    }
    if TwoHolders(s', job) {
      ResubmitAddsOne(s, w, job);
      assert TwoHolders(s, job) ==> IsHeld(s, job);
    } else if h :| Holds(s, job, h) {
      ResubmitJoins(s, w, job, h);
    }
  }

  lemma InvIsBegun(s: State)
    requires Inv(s)
    ensures Begun(s)
  {
    forall i | 0 <= i < |s.threads| && s.threads[i].executed ensures StartedOrEnded(s.table, s.threads[i].job) {
      assert Knows(s.threads[i], s.table[s.threads[i].job]);
    }
  }

  // ----- runs that never resubmit a held job -----

  ghost predicate FindsUnheld(s: State, step: Step) {
    step.Resubmit? ==> forall job: nat :: IsQueued(s.table, job) ==> !IsHeld(s, job)
  }

  ghost predicate UnheldRun(s: State, steps: seq<Step>)
    decreases |steps|
  {
    steps == []
    || (Enabled(s, steps[0]) && FindsUnheld(s, steps[0]) && UnheldRun(Next(false, s, steps[0]), steps[1..]))
  }

  lemma NewJobIsHeldOnce(s: State, step: Step)
    requires Begun(s) && Enabled(s, step) && step.Insert?
    ensures !TwoHolders(Next(false, s, step), s.nextId)
  {
    var s' := Next(false, s, step);
    assert forall h :: Holds(s', s.nextId, h) ==> h == InQueue(step.worker);
  }

  lemma StepKeepsHeldOnce(s: State, step: Step)
    requires Begun(s) && HeldOnce(s) && Enabled(s, step) && FindsUnheld(s, step)
    ensures HeldOnce(Next(false, s, step))
  {
    var s' := Next(false, s, step);
    forall job: nat | job < s'.nextId && TwoHolders(s', job) ensures false {
      if job == s.nextId {
        NewJobIsHeldOnce(s, step);
      } else if step.Resubmit? {
        ResubmitAddsOne(s, step.worker, job);
      } else {
        HoldersBefore(s, step, job);
      }
    }
  }

  lemma {:induction false} UnheldRunsKeepHeldOnce(s: State, steps: seq<Step>, s': State)
    requires Begun(s) && HeldOnce(s) && Run(false, s, steps, s') && UnheldRun(s, steps)
    ensures Begun(s') && HeldOnce(s')
    decreases |steps|
  {
    if steps != [] {
      StepKeepsBegun(s, steps[0]);
      StepKeepsHeldOnce(s, steps[0]);
      UnheldRunsKeepHeldOnce(Next(false, s, steps[0]), steps[1..], s');
    }
  }

  /** The code as written executes no job twice, over every run that never resubmits a job somebody holds. */
  lemma UnheldRunsExecuteOnce(steps: seq<Step>, s: State, job: nat)
    requires Run(false, INIT, steps, s) && UnheldRun(INIT, steps)
    ensures !ExecutedTwice(s, job)
  {
    UnheldRunsKeepHeldOnce(INIT, steps, s);
    if ExecutedTwice(s, job) {
      ExecutedAreHolders(s, job);
    }
  }

  // ----- one instance at a time -----

  /** An instance boots only when no other is up. */
  ghost predicate OneAtATime(s: State, steps: seq<Step>)
    decreases |steps|
  {
    steps == []
    || (&& Enabled(s, steps[0]) && (steps[0].Boot? ==> s.up == map[])
        && OneAtATime(Next(false, s, steps[0]), steps[1..]))
  }

  ghost predicate OneUp(s: State) {
    forall v, w :: v in s.up && w in s.up ==> v == w
  }

  /** Whoever resubmits is alone and not serving yet, so nobody else is alive to hold a job. */
  lemma AloneFindsUnheld(s: State, step: Step)
    requires Begun(s) && Placed(s) && OneUp(s) && Enabled(s, step)
    ensures FindsUnheld(s, step)
  {
    if step.Resubmit? {
      forall job: nat, h | IsQueued(s.table, job) ensures !Holds(s, job, h) {
        if Holds(s, job, h) {
          NobodyHolds(s, step.worker, job, h);
        }
      }
    }
  }

  lemma NobodyHolds(s: State, w: string, job: nat, h: Holder)
    requires Begun(s) && Placed(s) && OneUp(s) && InPhase(s, w, Recovered) && IsQueued(s.table, job)
    ensures !Holds(s, job, h)
  {
    match h
    case InThread(i) =>
      if i < |s.threads| && s.threads[i].job == job {
        assert s.threads[i].executed ==> StartedOrEnded(s.table, job);
        assert Live(s.threads[i]) ==> ServingIn(s.up, s.threads[i].worker);
      }
    case InQueue(v) =>
      assert (v, job) in s.unsubmitted ==> ServingIn(s.up, v);
  }

  lemma StepKeepsOneUp(s: State, step: Step)
    requires OneUp(s) && Enabled(s, step) && (step.Boot? ==> s.up == map[])
    ensures OneUp(Next(false, s, step))
  {}

  lemma {:induction false} AloneIsUnheld(s: State, steps: seq<Step>)
    requires Begun(s) && Placed(s) && OneUp(s) && OneAtATime(s, steps)
    ensures UnheldRun(s, steps)
    decreases |steps|
  {
    if steps != [] {
      AloneFindsUnheld(s, steps[0]);
      StepKeepsBegun(s, steps[0]);
      StepKeepsIds(s, steps[0]);
      StepKeepsServingWork(false, s, steps[0]);
      StepKeepsOneUp(s, steps[0]);
      AloneIsUnheld(Next(false, s, steps[0]), steps[1..]);
    }
  }

  /**
   With one instance at a time, however often it crashes and restarts, under whatever names, the code
   as written executes no job twice.
   */
  lemma OneInstanceExecutesOnce(steps: seq<Step>, s: State, i: nat, k: nat)
    requires Run(false, INIT, steps, s) && OneAtATime(INIT, steps)
    requires i < |s.threads| && k < |s.threads| && s.threads[i].job == s.threads[k].job
    requires s.threads[i].executed && s.threads[k].executed
    ensures i == k
  {
    AloneIsUnheld(INIT, steps);
    UnheldRunsExecuteOnce(steps, s, s.threads[i].job);
  }
}
