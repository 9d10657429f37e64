/**
 With the ownership test after the claim, at most one thread ever executes a given job: over
 all interleavings, resubmissions by other instances, crashes and restarts under the same name.
 */
module JobExclusivity {
  import opened Prelude
  import opened JobTable
  import opened JobProtocol

  predicate Live(t: Thread) {
    !t.pc.Dead?
  }

  predicate SameWork(t: Thread, u: Thread) {
    t.worker == u.worker && t.job == u.job
  }

  /** A live thread is the only thread of its instance for its job, but for ones that died before executing. */
  ghost predicate OnePerInstance(threads: seq<Thread>) {
    forall i, k :: 0 <= i < |threads| && 0 <= k < |threads| && i != k && SameWork(threads[i], threads[k])
      && Live(threads[k])
      ==> !Live(threads[i]) && !threads[i].executed
  }

  ghost predicate AtMostOnceExecuted(threads: seq<Thread>) {
    forall i, k :: 0 <= i < |threads| && 0 <= k < |threads| && threads[i].job == threads[k].job ==>
      threads[i].executed && threads[k].executed ==> i == k
  }

  ghost predicate OwnersExecute(t: Table, threads: seq<Thread>) {
    forall i :: 0 <= i < |threads| && threads[i].executed && threads[i].job in t
      ==> t[threads[i].job].workerId == Some(threads[i].worker)
  }

  predicate ServingIn(up: map<string, Phase>, w: string) {
    w in up && up[w] == Serving
  }

  /** Only a serving instance has live threads or jobs on their way to its executor. */
  ghost predicate OnlyServingWork(threads: seq<Thread>, up: map<string, Phase>, unsubmitted: set<(string, nat)>) {
    && (forall i :: 0 <= i < |threads| && Live(threads[i]) ==> ServingIn(up, threads[i].worker))
    && (forall p :: p in unsubmitted ==> ServingIn(up, p.0))
  }

  /** A job on its way to an executor has no thread there yet. */
  ghost predicate UnsubmittedIsNew(threads: seq<Thread>, unsubmitted: set<(string, nat)>) {
    forall i :: 0 <= i < |threads| && (Live(threads[i]) || threads[i].executed)
      ==> (threads[i].worker, threads[i].job) !in unsubmitted
  }

  ghost predicate Exclusive(s: State) {
    && OnePerInstance(s.threads)
    && AtMostOnceExecuted(s.threads)
    && OwnersExecute(s.table, s.threads)
    && OnlyServingWork(s.threads, s.up, s.unsubmitted)
    && UnsubmittedIsNew(s.threads, s.unsubmitted)
  }

  /** Only a thread that owns the running row starts to execute, and whoever has executed owns its row. */
  lemma WorkKeepsOwners(s: State, i: nat, a: Action)
    requires Inv(s) && Exclusive(s) && Enabled(s, Work(i, a))
    ensures var s' := Next(true, s, Work(i, a)); AtMostOnceExecuted(s'.threads) && OwnersExecute(s'.table, s'.threads)
  {
    var s', t := Next(true, s, Work(i, a)), s.threads[i];
    var r, t' := s.table[t.job], s'.threads[i];
    assert Knows(t, r) && Shape(r);
    ActionKeepsLocal(true, t, r, a);
    forall k | 0 <= k < |s.threads| && k != i && s.threads[k].executed && t'.executed && s.threads[k].job == t.job
      ensures false
    {
      assert s.table[t.job].workerId == Some(s.threads[k].worker);
      if !t.executed {
        assert GoesOn(true, t, r);
        assert SameWork(s.threads[k], t);
      }
    }
  }

  lemma WorkKeepsExclusive(s: State, i: nat, a: Action)
    requires Inv(s) && Exclusive(s) && Enabled(s, Work(i, a))
    ensures Exclusive(Next(true, s, Work(i, a)))
  {
    var s', t := Next(true, s, Work(i, a)), s.threads[i];
    WorkKeepsOwners(s, i, a);
    var t' := s'.threads[i];
    assert SameWork(t, t') && (Live(t') <==> Live(t)) && Live(t);
  }

  /** New threads for distinct jobs that nobody of `w` holds or has ever executed. */
  lemma AddingKeepsOnePerInstance(threads: seq<Thread>, w: string, ids: seq<nat>)
    requires OnePerInstance(threads) && AtMostOnceExecuted(threads) && Ascending(ids)
    requires forall i :: 0 <= i < |threads| && threads[i].worker == w && threads[i].job in ids
               ==> !Live(threads[i]) && !threads[i].executed
    ensures OnePerInstance(threads + FreshAll(w, ids)) && AtMostOnceExecuted(threads + FreshAll(w, ids))
  {
    var all := threads + FreshAll(w, ids);
    forall i, k | 0 <= i < |all| && 0 <= k < |all| && i != k && SameWork(all[i], all[k]) && Live(all[k])
      ensures !Live(all[i]) && !all[i].executed
    {
      if i < |threads| <= k {
        assert all[k].job == ids[k - |threads|] && all[k].job in ids;
      }
    }
  }

  lemma ResubmitKeepsExclusive(s: State, w: string)
    requires Inv(s) && Exclusive(s) && Enabled(s, Resubmit(w))
    ensures Exclusive(Next(true, s, Resubmit(w)))
  {
    var ids := QueuedIds(s.table, 1, s.nextId);
    QueuedIdsExact(s.table, 1, s.nextId);
    forall i | 0 <= i < |s.threads| && s.threads[i].worker == w && s.threads[i].job in ids
      ensures !Live(s.threads[i]) && !s.threads[i].executed
    {
      assert Knows(s.threads[i], s.table[s.threads[i].job]);
    }
    AddingKeepsOnePerInstance(s.threads, w, ids);
    assert forall p :: p in s.unsubmitted ==> p.0 != w;
  }

  lemma CrashKeepsExclusive(s: State, w: string)
    requires Inv(s) && Exclusive(s) && Enabled(s, Crash(w))
    ensures Exclusive(Next(true, s, Crash(w)))
  {
    var s' := Next(true, s, Crash(w));
    assert |s'.threads| == |s.threads|;
    assert forall i {:trigger s'.threads[i]} :: 0 <= i < |s.threads| ==>
      SameWork(s'.threads[i], s.threads[i]) && s'.threads[i].executed == s.threads[i].executed
      && (Live(s'.threads[i]) <==> Live(s.threads[i]) && s.threads[i].worker != w);
    assert OnePerInstance(s'.threads);
    assert UnsubmittedIsNew(s'.threads, s'.unsubmitted);
  }

  lemma SubmitKeepsExclusive(s: State, w: string, job: nat)
    requires Inv(s) && Exclusive(s) && Enabled(s, Submit(w, job))
    ensures Exclusive(Next(true, s, Submit(w, job)))
  {
    var s' := Next(true, s, Submit(w, job));
    assert s'.threads == s.threads + [Fresh(w, job)];
    assert OnePerInstance(s'.threads);
  }

  lemma QuietStepKeepsOwners(s: State, step: Step)
    requires Inv(s) && Exclusive(s) && Enabled(s, step)
    ensures OwnersExecute(TableAfter(s, step), s.threads)
  {
    StepKeepsTable(s, step);
    var t' := TableAfter(s, step);
    forall i | 0 <= i < |s.threads| && s.threads[i].executed
      ensures t'[s.threads[i].job].workerId == Some(s.threads[i].worker)
    {
      assert Persists(s.table[s.threads[i].job], t'[s.threads[i].job]);
    }
  }

  /** Inserting a job, and every step of the reconciliation and of a cancel, leaves the threads alone. */
  lemma QuietStepKeepsExclusive(s: State, step: Step)
    requires Inv(s) && Exclusive(s) && Enabled(s, step)
    requires !step.Work? && !step.Resubmit? && !step.Crash? && !step.Submit?
    ensures Exclusive(Next(true, s, step))
  {
    QuietStepKeepsOwners(s, step);
    var s' := Next(true, s, step);
    assert s'.threads == s.threads;
    assert OnlyServingWork(s'.threads, s'.up, s'.unsubmitted);
    assert UnsubmittedIsNew(s'.threads, s'.unsubmitted);
  }

  lemma StepKeepsExclusive(s: State, step: Step)
    requires Inv(s) && Exclusive(s) && Enabled(s, step)
    ensures Exclusive(Next(true, s, step))
  {
    match step
    case Work(i, a) => WorkKeepsExclusive(s, i, a);
    case Resubmit(w) => ResubmitKeepsExclusive(s, w);
    case Submit(w, job) => SubmitKeepsExclusive(s, w, job);
    case Crash(w) => CrashKeepsExclusive(s, w);
    case _ => QuietStepKeepsExclusive(s, step);
  }

  /** Claim exclusivity and execution exclusivity over every run of the owned protocol. */
  lemma {:induction false} RunsAreExclusive(s: State, steps: seq<Step>, s': State)
    requires Inv(s) && Exclusive(s) && Run(true, s, steps, s')
    ensures Inv(s') && Exclusive(s')
    decreases |steps|
  {
    if steps != [] {
      StepKeepsInv(true, s, steps[0]);
      StepKeepsExclusive(s, steps[0]);
      RunsAreExclusive(Next(true, s, steps[0]), steps[1..], s');
    }
  }

  /** From the initial state: no job is ever executed by two threads, alive or dead, of any instance. */
  lemma NoJobExecutesTwice(steps: seq<Step>, s: State, i: nat, k: nat)
    requires Run(true, INIT, steps, s)
    requires i < |s.threads| && k < |s.threads| && s.threads[i].job == s.threads[k].job
    requires s.threads[i].executed && s.threads[k].executed
    ensures i == k && s.threads[i].job in s.table && s.table[s.threads[i].job].workerId == Some(s.threads[i].worker)
  {
    RunsAreExclusive(INIT, steps, s);
    assert s.threads[i].job in s.table;
  }

  // ----- the final write -----

  /**
   The final UPDATE in isolation: on a row that is still open it writes exactly what was decided at
   the re-read, so the job ends cancelled if and only if the report or the re-read said so.
   */
  lemma FinalWriteFollowsReRead(owned: bool, t: Thread, seen: Row, r: Row, text: string, now: Instant)
    requires t.pc.Reported? && !Terminal(r.status)
    ensures var d := Move(owned, t, seen, ReRead);
            var r' := Write(d, r, Finish(text, now));
            && Terminal(r'.status) && r'.result == Some(text) && r'.completedAt == Some(now)
            && (r'.status.Cancelled? <==> t.pc.report.ReportCancelled? || seen.status.CancellationRequested?)
            && (r'.status.Failed? <==> t.pc.report.ReportFailed? && !seen.status.CancellationRequested?)
  {}
}
