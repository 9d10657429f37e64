/**
 Startup convergence over runs: what an instance finds when it resubmits the queue, although other
 instances work, claim, beat, recover and crash between its recovery and its resubmission. It holds
 for either test after the claim, and for recoveries in one step or two.
 */
module JobStartup {
  import opened Prelude
  import opened JobTable
  import opened JobProtocol
  import opened JobExclusivity

  /** Ids are in range, and only serving instances have live threads or submissions to make. */
  ghost predicate Placed(s: State) {
    && 1 <= s.nextId && (forall id :: id in s.table ==> 1 <= id < s.nextId)
    && "" !in s.up && OnlyServingWork(s.threads, s.up, s.unsubmitted)
  }

  lemma StepKeepsIds(s: State, step: Step)
    requires Placed(s) && Enabled(s, step)
    ensures forall id :: id in TableAfter(s, step) ==> 1 <= id < (if step.Insert? then s.nextId + 1 else s.nextId)
  {}

  lemma StepKeepsServingWork(owned: bool, s: State, step: Step)
    requires Placed(s) && Enabled(s, step)
    ensures OnlyServingWork(ThreadsAfter(owned, s, step), UpAfter(s, step), UnsubmittedAfter(s, step))
  {}

  lemma {:induction false} RunKeepsPlaced(owned: bool, s: State, steps: seq<Step>, s': State)
    requires Placed(s) && Run(owned, s, steps, s')
    ensures Placed(s')
    decreases |steps|
  {
    if steps != [] {
      StepKeepsIds(s, steps[0]);
      StepKeepsServingWork(owned, s, steps[0]);
      RunKeepsPlaced(owned, Next(owned, s, steps[0]), steps[1..], s');
    }
  }

  /** The heartbeat that the action writes. */
  function BeatOf(a: Action): Option<Instant> {
    match a
    case ClaimJob(now) => Some(now)
    case Heartbeat(now) => Some(now)
    case _ => None
  }

  /**
   No claim or heartbeat commits with a stamp from before the cutoff, and `w` neither crashes nor ends
   its reconciliation in this step.
   */
  predicate Meanwhile(step: Step, w: string, cutoff: Instant) {
    && (step.Work? && BeatOf(step.action).Some? ==> BeatOf(step.action).value >= cutoff)
    && step != Crash(w) && step != SkipReconcile(w) && step != Resubmit(w)
  }

  /** In the hands of another instance that was alive at the cutoff. */
  predicate Elsewhere(r: Row, w: string, cutoff: Instant) {
    && r.workerId.Some? && r.workerId.value != w
    && r.heartbeatAt.Some? && r.heartbeatAt.value >= cutoff
  }

  predicate Accounted(r: Row, w: string, cutoff: Instant) {
    Terminal(r.status) || r.status.Queued? || Elsewhere(r, w, cutoff)
  }

  /** Every job is accounted for, but for those that `w` is about to fail. */
  ghost predicate Converging(t: Table, phase: Phase, w: string, cutoff: Instant) {
    match phase
    case Selected(ids) => forall id :: id in t && id !in ids ==> Accounted(t[id], w, cutoff)
    case Recovered => forall id :: id in t ==> Accounted(t[id], w, cutoff)
    case _ => false
  }

  /** What a thread of another instance writes keeps the row accounted for. */
  lemma WriteKeepsAccounted(t: Thread, r: Row, a: Action, w: string, cutoff: Instant)
    requires CanAct(t, a) && t.worker != w && t.worker != "" && Accounted(r, w, cutoff)
    requires BeatOf(a).Some? ==> BeatOf(a).value >= cutoff
    ensures Accounted(Write(t, r, a), w, cutoff)
  {}

  lemma WorkConverges(s: State, i: nat, a: Action, w: string, cutoff: Instant)
    requires Placed(s) && Enabled(s, Work(i, a)) && Meanwhile(Work(i, a), w, cutoff)
    requires w in s.up && Converging(s.table, s.up[w], w, cutoff)
    ensures Converging(TableAfter(s, Work(i, a)), s.up[w], w, cutoff)
  {
    var t := s.threads[i];
    assert Live(t) && ServingIn(s.up, t.worker);
    if Accounted(s.table[t.job], w, cutoff) {
      WriteKeepsAccounted(t, s.table[t.job], a, w, cutoff);
    }
  }

  lemma StepConverges(owned: bool, s: State, step: Step, w: string, cutoff: Instant)
    requires Placed(s) && Enabled(s, step) && Meanwhile(step, w, cutoff)
    requires w in s.up && Converging(s.table, s.up[w], w, cutoff)
    ensures var s' := Next(owned, s, step);
            w in s'.up && Converging(s'.table, s'.up[w], w, cutoff)
  {
    if step.Work? {
      WorkConverges(s, step.i, step.action, w, cutoff);
    }
  }

  lemma {:induction false} RunConverges(owned: bool, s: State, steps: seq<Step>, s': State, w: string, cutoff: Instant)
    requires Placed(s) && Run(owned, s, steps, s') && forall k :: 0 <= k < |steps| ==> Meanwhile(steps[k], w, cutoff)
    requires w in s.up && Converging(s.table, s.up[w], w, cutoff)
    ensures Placed(s') && w in s'.up && Converging(s'.table, s'.up[w], w, cutoff)
    decreases |steps|
  {
    if steps != [] {
      assert Meanwhile(steps[0], w, cutoff);
      StepConverges(owned, s, steps[0], w, cutoff);
      StepKeepsIds(s, steps[0]);
      StepKeepsServingWork(owned, s, steps[0]);
      RunConverges(owned, Next(owned, s, steps[0]), steps[1..], s', w, cutoff);
    }
  }

  // ----- what a reconciliation leaves alone -----

  /** What has been selected by a recovery that is under way has been started. */
  ghost predicate SelectedAreStarted(s: State) {
    forall w, id :: w in s.up && s.up[w].Selected? && id in s.up[w].ids ==>
      id in s.table && !s.table[id].status.Queued?
  }

  lemma StepKeepsSelected(owned: bool, s: State, step: Step)
    requires Placed(s) && SelectedAreStarted(s) && Enabled(s, step)
    ensures SelectedAreStarted(Next(owned, s, step))
  {
    var s' := Next(owned, s, step);
    forall w, id | w in s'.up && s'.up[w].Selected? && id in s'.up[w].ids
      ensures id in s'.table && !s'.table[id].status.Queued?
    {
      if !(step.SelectOrphans? && step.worker == w) {
        assert s.up[w] == s'.up[w] && w in s.up;
      }
    }
  }

  predicate Reconciles(step: Step) {
    step.Boot? || step.RecoverAtomically? || step.SelectOrphans? || step.FailSelected? || step.Resubmit?
    || step.SkipReconcile?
  }

  /** The step alters no queued job, and no terminal one unless it is the UPDATE of a split recovery. */
  ghost predicate Spares(s: State, step: Step)
    requires Enabled(s, step)
  {
    var t' := TableAfter(s, step);
    && t'.Keys == s.table.Keys
    && (forall id :: id in s.table && s.table[id].status.Queued? ==> t'[id] == s.table[id])
    && (!step.FailSelected? ==> forall id :: id in s.table && Terminal(s.table[id].status) ==> t'[id] == s.table[id])
  }

  ghost predicate SparesAlong(owned: bool, s: State, steps: seq<Step>)
    decreases |steps|
  {
    steps == []
    || (Enabled(s, steps[0]) && (Reconciles(steps[0]) ==> Spares(s, steps[0]))
         && SparesAlong(owned, Next(owned, s, steps[0]), steps[1..]))
  }

  lemma ReconcilingSpares(s: State, step: Step)
    requires SelectedAreStarted(s) && Enabled(s, step) && Reconciles(step)
    ensures Spares(s, step)
  {}

  lemma {:induction false} RunSpares(owned: bool, s: State, steps: seq<Step>, s': State)
    requires Placed(s) && SelectedAreStarted(s) && Run(owned, s, steps, s')
    ensures SparesAlong(owned, s, steps)
    decreases |steps|
  {
    if steps != [] {
      if Reconciles(steps[0]) {
        ReconcilingSpares(s, steps[0]);
      }
      StepKeepsIds(s, steps[0]);
      StepKeepsServingWork(owned, s, steps[0]);
      StepKeepsSelected(owned, s, steps[0]);
      RunSpares(owned, Next(owned, s, steps[0]), steps[1..], s');
    }
  }

  /** Over every run no reconciliation alters a queued job, or, if its recovery is atomic, a terminal one. */
  lemma ReconciliationsSpare(owned: bool, steps: seq<Step>, s: State)
    requires Run(owned, INIT, steps, s)
    ensures SparesAlong(owned, INIT, steps)
  {
    RunSpares(owned, INIT, steps, s);
  }

  /** The recovery at `now`, or the SELECT of a split one. */
  predicate StartsRecovery(step: Step, w: string, now: Instant) {
    step == RecoverAtomically(w, now) || step == SelectOrphans(w, now)
  }

  lemma RecoveryConverges(owned: bool, s: State, first: Step, w: string, now: Instant)
    requires Placed(s) && Enabled(s, first) && StartsRecovery(first, w, now)
    ensures var m := Next(owned, s, first);
            Placed(m) && w in m.up && Converging(m.table, m.up[w], w, Cutoff(now, STALE_AFTER_SECONDS))
  {
    StepKeepsIds(s, first);
    StepKeepsServingWork(owned, s, first);
  }

  /** Every open job is handed to w's executor once, in id order, or is in other hands. */
  ghost predicate Converged(owned: bool, s: State, w: string, cutoff: Instant)
    requires Enabled(s, Resubmit(w))
  {
    var ids := QueuedIds(s.table, 1, s.nextId);
    && Next(owned, s, Resubmit(w)).threads == s.threads + FreshAll(w, ids) && Ascending(ids)
    && (forall id :: id in ids <==> id in s.table && s.table[id].status.Queued?)
    && (forall id :: id in s.table && !Terminal(s.table[id].status) && id !in ids ==> Elsewhere(s.table[id], w, cutoff))
  }

  lemma ResubmissionConverges(owned: bool, s: State, w: string, cutoff: Instant)
    requires Placed(s) && Enabled(s, Resubmit(w)) && Converging(s.table, s.up[w], w, cutoff)
    ensures Converged(owned, s, w, cutoff)
  {
    QueuedIdsExact(s.table, 1, s.nextId);
  }

  /**
   From any reachable state: `w` recovers at `now`, others take any steps, but that none claims or
   beats with a stamp from before the cutoff, and `w` resubmits. At that moment every open job is
   queued, and handed to w's executor exactly once, in id order; or another instance owns it, with a
   heartbeat no older than the cutoff.
   */
  lemma StartupConverges(
    owned: bool, before: seq<Step>, s: State, w: string, now: Instant, first: Step, steps: seq<Step>, s': State)
    requires Run(owned, INIT, before, s) && StartsRecovery(first, w, now) && Enabled(s, first)
    requires Run(owned, Next(owned, s, first), steps, s') && Enabled(s', Resubmit(w))
    requires forall k :: 0 <= k < |steps| ==> Meanwhile(steps[k], w, Cutoff(now, STALE_AFTER_SECONDS))
    ensures Converged(owned, s', w, Cutoff(now, STALE_AFTER_SECONDS))
  {
    RunKeepsPlaced(owned, INIT, before, s);
    RecoveryConverges(owned, s, first, w, now);
    RunConverges(owned, Next(owned, s, first), steps, s', w, Cutoff(now, STALE_AFTER_SECONDS));
    ResubmissionConverges(owned, s', w, Cutoff(now, STALE_AFTER_SECONDS));
  }
}
