/**
 What a worker does with its job while nobody interferes: the row at the end, for every way through
 `_run_pipeline_job`.
 */
module JobWorker {
  import opened Prelude
  import opened JobTable
  import opened JobProtocol

  /** The thread and the row after these actions, or None if one of them is not the next thing to do. */
  function Acting(owned: bool, t: Thread, r: Row, actions: seq<Action>): Option<(Thread, Row)>
    decreases |actions|
  {
    if actions == [] then Some((t, r))
    else if !CanAct(t, actions[0]) then None
    else Acting(owned, Move(owned, t, r, actions[0]), Write(t, r, actions[0]), actions[1..])
  }

  lemma FirstAction(owned: bool, t: Thread, r: Row, a: Action, rest: seq<Action>)
    requires CanAct(t, a)
    ensures Acting(owned, t, r, [a] + rest) == Acting(owned, Move(owned, t, r, a), Write(t, r, a), rest)
  {
    assert ([a] + rest)[1..] == rest;
  }

  lemma TwoActions(owned: bool, t: Thread, r: Row, a: Action, b: Action)
    requires CanAct(t, a) && CanAct(Move(owned, t, r, a), b)
    ensures var (m, q) := (Move(owned, t, r, a), Write(t, r, a));
            Acting(owned, t, r, [a, b]) == Some((Move(owned, m, q, b), Write(m, q, b)))
  {
    assert [a, b] == [a] + [b] && [b] == [b] + [];
    FirstAction(owned, t, r, a, [b]);
    FirstAction(owned, Move(owned, t, r, a), Write(t, r, a), b, []);
  }

  /** The row as a claim of a queued job leaves it. */
  function ClaimedBy(r: Row, worker: string, now: Instant): Row {
    r.(status := Running, startedAt := Some(now), heartbeatAt := Some(now), updatedAt := now, workerId := Some(worker))
  }

  /** A queued job is claimed and executed, under either test. */
  lemma QueuedJobIsExecuted(owned: bool, worker: string, job: nat, r: Row, now: Instant)
    requires worker != "" && r.status == Queued
    ensures Acting(owned, Fresh(worker, job), r, [ClaimJob(now), ReadClaim]) ==
              Some((Thread(worker, job, Executing, false, true), ClaimedBy(r, worker, now)))
  {
    TwoActions(owned, Fresh(worker, job), r, ClaimJob(now), ReadClaim);
  }

  /** A job that is over, or about to be cancelled, is given up and left as it is. */
  lemma OtherJobIsGivenUp(owned: bool, worker: string, job: nat, r: Row, now: Instant)
    requires r.status != Queued && r.status != Running
    ensures Acting(owned, Fresh(worker, job), r, [ClaimJob(now), ReadClaim]) ==
              Some((Thread(worker, job, Skipping, false, false), r))
  {
    TwoActions(owned, Fresh(worker, job), r, ClaimJob(now), ReadClaim);
  }

  /** A job that somebody else is running is given up by the ownership test, and executed by the test as written. */
  lemma ForeignJobIsTakenExactly(owned: bool, worker: string, job: nat, r: Row, now: Instant)
    requires r.status == Running && r.workerId != Some(worker)
    ensures Acting(owned, Fresh(worker, job), r, [ClaimJob(now), ReadClaim]) ==
              Some((Thread(worker, job, if owned then Skipping else Executing, false, !owned), r))
  {
    TwoActions(owned, Fresh(worker, job), r, ClaimJob(now), ReadClaim);
  }

  /** The thread that executes the job of a running row. */
  function Executor(worker: string, job: nat): Thread {
    Thread(worker, job, Executing, false, true)
  }

  /** The report decides what a job that nobody has asked to cancel ends as. */
  lemma ReportDecides(owned: bool, worker: string, job: nat, r: Row, report: Report, text: string, now: Instant)
    requires r.status == Running && report != ReportCancelled
    ensures Acting(owned, Executor(worker, job), r, [Return(report), ReRead] + [Finish(text, now), Close]) ==
              Some((Thread(worker, job, Finished, false, true),
                    if report == ReportCompleted
                    then r.(status := Completed, result := Some(text), completedAt := Some(now), updatedAt := now)
                    else r.(status := Failed, error := Some("Pipeline stage failed"), result := Some(text),
                            completedAt := Some(now), updatedAt := now)))
  {
    var t := Executor(worker, job);
    FourActions(owned, t, r, Return(report), ReRead, Finish(text, now), Close);
    var verdict := if report == ReportCompleted then WriteCompleted else WriteFailed;
    TwoActions(owned, t.(pc := Deciding(verdict)), r, Finish(text, now), Close);
  }

  lemma FourActions(owned: bool, t: Thread, r: Row, a: Action, b: Action, c: Action, d: Action)
    requires CanAct(t, a) && CanAct(Move(owned, t, r, a), b)
    ensures var (m, q) := (Move(owned, t, r, a), Write(t, r, a));
            Acting(owned, t, r, [a, b] + [c, d]) == Acting(owned, Move(owned, m, q, b), Write(m, q, b), [c, d])
  {
    assert [a, b] + [c, d] == [a] + ([b] + [c, d]);
    FirstAction(owned, t, r, a, [b] + [c, d]);
    FirstAction(owned, Move(owned, t, r, a), Write(t, r, a), b, [c, d]);
  }

  /** A request outweighs any report, and what was reported is kept with it. */
  lemma RequestDecides(owned: bool, worker: string, job: nat, r: Row, report: Report, text: string, now: Instant)
    requires r.status == CancellationRequested && report != ReportCancelled
    ensures Acting(owned, Executor(worker, job), r, [Return(report), ReRead] + [Finish(text, now), Close]) ==
              Some((Thread(worker, job, Finished, false, true),
                    r.(status := Cancelled, result := Some(text), completedAt := Some(now), updatedAt := now)))
  {
    FourActions(owned, Executor(worker, job), r, Return(report), ReRead, Finish(text, now), Close);
    TwoActions(owned, Executor(worker, job).(pc := Deciding(WriteCancelled)), r, Finish(text, now), Close);
  }

  /** The run reports a cancellation only once its check has seen the request. */
  lemma CancellationIsSeenFirst(owned: bool, worker: string, job: nat, r: Row)
    ensures Acting(owned, Executor(worker, job), r, [Return(ReportCancelled)]) == None
    ensures Acting(owned, Executor(worker, job), r, [PollCancel, Return(ReportCancelled)]).Some? <==>
              r.status == CancellationRequested
  {
    var t := Executor(worker, job);
    assert [PollCancel, Return(ReportCancelled)] == [PollCancel] + [Return(ReportCancelled)];
    FirstAction(owned, t, r, PollCancel, [Return(ReportCancelled)]);
    assert [Return(ReportCancelled)][1..] == [];
  }

  /** An exception, wherever it strikes, fails the job unless it is over; the handler may itself fail to do so. */
  lemma ExceptionFailsTheJob(owned: bool, t: Thread, r: Row, text: string, now: Instant)
    requires t.pc != Handling && t.pc != Finished && t.pc != Dead
    ensures Acting(owned, t, r, [Raise, HandleFailure(text, now)]) ==
              Some((t.(pc := Finished),
                    if r.status in {Status.Completed, Status.Failed, Status.Cancelled} then r
                    else r.(status := Status.Failed, error := Some(text), result := None, completedAt := Some(now),
                            updatedAt := now)))
    ensures Acting(owned, t, r, [Raise, Abandon]) == Some((t.(pc := Finished), r))
  {
    TwoActions(owned, t, r, Raise, HandleFailure(text, now));
    TwoActions(owned, t, r, Raise, Abandon);
  }

  /** Only a thread inside the pipeline beats, and only on a row that it owns and that is not over. */
  lemma HeartbeatExact(owned: bool, t: Thread, r: Row, now: Instant)
    ensures CanAct(t, Heartbeat(now)) <==> t.pc == Executing
    ensures t.pc == Executing ==>
              Acting(owned, t, r, [Heartbeat(now)]) ==
                Some((t, if r.workerId == Some(t.worker) && r.status in {Running, CancellationRequested}
                         then r.(heartbeatAt := Some(now), updatedAt := now) else r))
  {
    if t.pc == Executing {
      assert [Heartbeat(now)] == [Heartbeat(now)] + [];
      FirstAction(owned, t, r, Heartbeat(now), []);
    }
  }

  /** In the system, a worker's action changes its own thread and the row of its job, and nothing else. */
  lemma WorkStepExact(owned: bool, s: State, i: nat, a: Action)
    requires i < |s.threads| && s.threads[i].job in s.table
    ensures Enabled(s, Work(i, a)) <==> Acting(owned, s.threads[i], s.table[s.threads[i].job], [a]).Some?
    ensures Enabled(s, Work(i, a)) ==>
              var t, job := s.threads[i], s.threads[i].job;
              var (t', r') := Acting(owned, t, s.table[job], [a]).value;
              Next(owned, s, Work(i, a)) == s.(threads := s.threads[i := t'], table := s.table[job := r'])
  {
    assert [a] == [a] + [];
    if CanAct(s.threads[i], a) {
      FirstAction(owned, s.threads[i], s.table[s.threads[i].job], a, []);
    }
  }

  /** An accepted request becomes a queued job under a new id, and that job a thread of the instance. */
  lemma AcceptedJobIsSubmitted(owned: bool, s: State, w: string, config: string, request: string, now: Instant)
    requires InPhase(s, w, Serving)
    ensures var m := Next(owned, s, Insert(w, config, request, now));
            && m.nextId == s.nextId + 1 && m.threads == s.threads && m.up == s.up
            && m.table == s.table[s.nextId := Row(
                 config, request, Queued, None, None, None, None, None, None, None, now)]
            && Enabled(m, Submit(w, s.nextId))
            && var n := Next(owned, m, Submit(w, s.nextId));
               n.threads == s.threads + [Thread(w, s.nextId, Submitted, false, false)] && n.table == m.table
  {}

  /** A cancel request ends a queued job at once, marks a running one, and leaves any other alone. */
  lemma CancelStepExact(owned: bool, s: State, job: nat, now: Instant)
    requires job in s.table
    ensures Enabled(s, Cancel(job, now))
    ensures var r, s' := s.table[job], Next(owned, s, Cancel(job, now));
            && s'.threads == s.threads && s'.cancels == s.cancels + {job}
            && s'.table == s.table[job :=
                 if r.status == Queued then r.(status := Status.Cancelled, cancelledAt := Some(now), updatedAt := now)
                 else if r.status == Running
                 then r.(status := CancellationRequested, cancelledAt := Some(now), updatedAt := now)
                 else r]
  {}

  /** A crash kills the instance's threads and drops what it had still to submit; the table keeps every row. */
  lemma CrashStepExact(owned: bool, s: State, w: string)
    requires w in s.up
    ensures var s' := Next(owned, s, Crash(w));
            && s'.table == s.table && w !in s'.up && |s'.threads| == |s.threads|
            && (forall i :: 0 <= i < |s.threads| ==>
                  s'.threads[i] == if s.threads[i].worker == w then s.threads[i].(pc := Dead) else s.threads[i])
            && (forall p :: p in s'.unsubmitted <==> p in s.unsubmitted && p.0 != w)
  {}

  /** Running, but with this instance, with nobody, or without a heartbeat in the last two minutes. */
  predicate IsOrphaned(r: Row, w: string, now: Instant) {
    && r.status in {Running, CancellationRequested}
    && (r.workerId == Some(w) || r.workerId == None || r.heartbeatAt == None || r.heartbeatAt.value < now - 120000)
  }

  function Orphaned(r: Row, now: Instant): Row {
    r.(status := Status.Failed, error := Some("orphaned by service restart"), completedAt := Some(now),
       updatedAt := now)
  }

  /** A recovery fails exactly the orphaned jobs; split in two, exactly those that it has selected before. */
  lemma RecoveryStepExact(owned: bool, s: State, w: string, now: Instant)
    ensures InPhase(s, w, Recovering) ==>
              var s' := Next(owned, s, RecoverAtomically(w, now));
              && s'.up == s.up[w := Recovered] && s'.threads == s.threads && s'.table.Keys == s.table.Keys
              && forall id :: id in s.table ==>
                   s'.table[id] == if IsOrphaned(s.table[id], w, now) then Orphaned(s.table[id], now) else s.table[id]
    ensures InPhase(s, w, Recovering) ==>
              var s' := Next(owned, s, SelectOrphans(w, now));
              && s'.table == s.table && w in s'.up && s'.up[w].Selected?
              && forall id :: id in s'.up[w].ids <==> id in s.table && IsOrphaned(s.table[id], w, now)
    ensures w in s.up && s.up[w].Selected? ==>
              var s' := Next(owned, s, FailSelected(w, now));
              && s'.up == s.up[w := Recovered] && s'.threads == s.threads && s'.table.Keys == s.table.Keys
              && forall id :: id in s.table ==>
                   s'.table[id] == if id in s.up[w].ids then Orphaned(s.table[id], now) else s.table[id]
  {}
}
