/**
 The two-level run lock of one experiment key: a non-blocking lock per process, then a file lock
 across processes that the operating system drops when its process dies. Any number of threads in
 any number of processes contend; processes may crash at any point.
 */
module RunLock {
  import opened Prelude

  datatype Pc =
    | Outside
    | GotThreadLock   // before the try block
    | Trying          // inside the try block, file lock not yet requested
    | Inside          // the critical section
    | Unlocking       // leaving, file lock still held
    | Releasing       // handle closed, process lock still held
    | Gone            // the process crashed

  datatype Thread = Thread(process: nat, pc: Pc)

  /** `leaked` is history: processes whose lock was taken by a thread that failed before its try block. */
  datatype State = State(threads: seq<Thread>, threadLock: map<nat, nat>, fileLock: Option<nat>, leaked: set<nat>)

  datatype Step =
    | Spawn(process: nat)
    | TryThreadLock(i: nat)
    | EnterTry(i: nat)
    | DirectoryFails(i: nat)
    | OpenFails(i: nat)
    | TryFileLock(i: nat)
    | LeaveBody(i: nat)
    | UnlockFile(i: nat)
    | ReleaseThreadLock(i: nat)
    | Crash(process: nat)

  const INIT := State([], map[], None, {})

  predicate AtPc(s: State, i: nat, pc: Pc) {
    i < |s.threads| && s.threads[i].pc == pc
  }

  predicate Enabled(s: State, step: Step) {
    match step
    case Spawn(_) => true
    case TryThreadLock(i) => AtPc(s, i, Outside)
    case EnterTry(i) => AtPc(s, i, GotThreadLock)
    case DirectoryFails(i) => AtPc(s, i, GotThreadLock)
    case OpenFails(i) => AtPc(s, i, Trying)
    case TryFileLock(i) => AtPc(s, i, Trying)
    case LeaveBody(i) => AtPc(s, i, Inside)
    case UnlockFile(i) => AtPc(s, i, Unlocking)
    case ReleaseThreadLock(i) => AtPc(s, i, Releasing)
    case Crash(_) => true
  }

  function Moved(s: State, i: nat, pc: Pc): seq<Thread>
    requires i < |s.threads|
  {
    s.threads[i := s.threads[i].(pc := pc)]
  }

  function Next(s: State, step: Step): State
    requires Enabled(s, step)
  {
    match step
    case Spawn(p) => s.(threads := s.threads + [Thread(p, Outside)])
    case TryThreadLock(i) =>
      var p := s.threads[i].process;
      if p in s.threadLock then s
      else s.(threads := Moved(s, i, GotThreadLock), threadLock := s.threadLock[p := i])
    case EnterTry(i) => s.(threads := Moved(s, i, Trying))
    // The lock directory is made before the try block: nothing releases the process lock.
    case DirectoryFails(i) => s.(threads := Moved(s, i, Outside), leaked := s.leaked + {s.threads[i].process})
    case OpenFails(i) => s.(threads := Moved(s, i, Releasing))
    case TryFileLock(i) =>
      if s.fileLock.None? then s.(threads := Moved(s, i, Inside), fileLock := Some(i))
      else s.(threads := Moved(s, i, Releasing))
    case LeaveBody(i) => s.(threads := Moved(s, i, Unlocking))
    case UnlockFile(i) => s.(threads := Moved(s, i, Releasing), fileLock := None)
    case ReleaseThreadLock(i) =>
      s.(threads := Moved(s, i, Outside), threadLock := s.threadLock - {s.threads[i].process})
    case Crash(p) =>
      State(
        seq(|s.threads|, k requires 0 <= k < |s.threads| =>
          if s.threads[k].process == p then s.threads[k].(pc := Gone) else s.threads[k]),
        s.threadLock - {p},
        if s.fileLock.Some? && s.fileLock.value < |s.threads| && s.threads[s.fileLock.value].process == p then None
        else s.fileLock,
        s.leaked - {p})
  }

  ghost predicate Run(s: State, steps: seq<Step>, s': State)
    decreases |steps|
  {
    if steps == [] then s' == s
    else Enabled(s, steps[0]) && Run(Next(s, steps[0]), steps[1..], s')
  }

  /** Between taking and releasing the process lock, and between taking and releasing the file lock. */
  predicate HoldsThreadLock(pc: Pc) {
    pc.GotThreadLock? || pc.Trying? || pc.Inside? || pc.Unlocking? || pc.Releasing?
  }

  predicate HoldsFileLock(pc: Pc) {
    pc.Inside? || pc.Unlocking?
  }

  ghost predicate FileLockOk(threads: seq<Thread>, fileLock: Option<nat>) {
    && (forall i :: 0 <= i < |threads| ==> (HoldsFileLock(threads[i].pc) <==> fileLock == Some(i)))
    && (fileLock.Some? ==> fileLock.value < |threads|)
  }

  ghost predicate ThreadLockOk(threads: seq<Thread>, threadLock: map<nat, nat>, leaked: set<nat>) {
    && (forall i :: 0 <= i < |threads| && HoldsThreadLock(threads[i].pc) ==>
          var p := threads[i].process; p in threadLock && threadLock[p] == i && p !in leaked)
    && (forall p :: p in threadLock && p !in leaked ==>
          var i := threadLock[p]; i < |threads| && threads[i].process == p && HoldsThreadLock(threads[i].pc))
    && (forall p :: p in leaked ==> p in threadLock)
  }

  /** Who holds what is exactly what the program counters say, but for leaked process locks. */
  ghost predicate Inv(s: State) {
    FileLockOk(s.threads, s.fileLock) && ThreadLockOk(s.threads, s.threadLock, s.leaked)
  }

  lemma StepKeepsFileLockOk(s: State, step: Step)
    requires Inv(s) && Enabled(s, step)
    ensures FileLockOk(Next(s, step).threads, Next(s, step).fileLock)
  {
    var s' := Next(s, step);
    if step.Crash? {
      assert forall k :: 0 <= k < |s'.threads| ==>
        s'.threads[k] == if s.threads[k].process == step.process then s.threads[k].(pc := Gone) else s.threads[k];
    }
  }

  lemma CrashKeepsThreadLockOk(s: State, p: nat)
    requires Inv(s)
    ensures ThreadLockOk(Next(s, Crash(p)).threads, Next(s, Crash(p)).threadLock, Next(s, Crash(p)).leaked)
  {
    var s' := Next(s, Crash(p));
    assert forall k :: 0 <= k < |s'.threads| ==>
      s'.threads[k] == if s.threads[k].process == p then s.threads[k].(pc := Gone) else s.threads[k];
  }

  lemma StepKeepsInv(s: State, step: Step)
    requires Inv(s) && Enabled(s, step)
    ensures Inv(Next(s, step))
  {
    StepKeepsFileLockOk(s, step);
    if step.Crash? {
      CrashKeepsThreadLockOk(s, step.process);
    }
  }

  lemma {:induction false} RunsKeepInv(s: State, steps: seq<Step>, s': State)
    requires Inv(s) && Run(s, steps, s')
    ensures Inv(s')
    decreases |steps|
  {
    if steps != [] {
      StepKeepsInv(s, steps[0]);
      RunsKeepInv(Next(s, steps[0]), steps[1..], s');
    }
  }

  /** Over all processes, threads, interleavings and crashes, at most one run is inside. */
  lemma MutualExclusion(steps: seq<Step>, s: State, i: nat, k: nat)
    requires Run(INIT, steps, s) && i < |s.threads| && k < |s.threads|
    requires s.threads[i].pc.Inside? && s.threads[k].pc.Inside?
    ensures i == k
  {
    RunsKeepInv(INIT, steps, s);
  }

  /**
   Whoever is back outside holds neither lock; and as long as no lock directory failed, a lock is
   taken exactly while some thread is in the section that owns it.
   */
  lemma LocksMatchSections(steps: seq<Step>, s: State)
    requires Run(INIT, steps, s)
    ensures forall i :: 0 <= i < |s.threads| && (s.threads[i].pc.Outside? || s.threads[i].pc.Gone?) ==>
              s.fileLock != Some(i)
              && (s.threads[i].process in s.threadLock && s.threadLock[s.threads[i].process] == i ==>
                   s.threads[i].process in s.leaked)
    ensures s.leaked == {} ==> forall p :: p in s.threadLock <==>
              exists i :: 0 <= i < |s.threads| && s.threads[i].process == p && HoldsThreadLock(s.threads[i].pc)
  {
    RunsKeepInv(INIT, steps, s);
  }

  /** A contender that loses at either level, taken by itself, leaves the whole state as it found it. */
  lemma LoserLeavesNoTrace(s: State, i: nat, s': State)
    requires Inv(s) && AtPc(s, i, Outside)
    requires var p := s.threads[i].process;
             if p in s.threadLock then Run(s, [TryThreadLock(i)], s')
             else s.fileLock.Some? && Run(s, [TryThreadLock(i), EnterTry(i), TryFileLock(i), ReleaseThreadLock(i)], s')
    ensures s' == s
  {
    var p := s.threads[i].process;
    if p in s.threadLock {
      assert [TryThreadLock(i)][1..] == [];
      assert Run(Next(s, TryThreadLock(i)), [], s');
    } else {
      var steps := [TryThreadLock(i), EnterTry(i), TryFileLock(i), ReleaseThreadLock(i)];
      var s1 := Next(s, steps[0]);
      assert Run(s1, steps[1..], s');
      var s2 := Next(s1, steps[1]);
      assert steps[1..][1..] == steps[2..] && Run(s2, steps[2..], s');
      var s3 := Next(s2, steps[2]);
      assert steps[2..][1..] == steps[3..] && Run(s3, steps[3..], s');
      assert steps[3..][1..] == [] && Run(Next(s3, steps[3]), [], s');
      assert s'.threadLock == s.threadLock;
      assert s'.threads == s.threads;
    }
  }

  // ----- who wins -----

  /** What a contender does, taken by itself, from outside to the critical section, and back. */
  function Entry(i: nat): seq<Step> {
    [TryThreadLock(i), EnterTry(i), TryFileLock(i)]
  }

  function Exit(i: nat): seq<Step> {
    [LeaveBody(i), UnlockFile(i), ReleaseThreadLock(i)]
  }

  lemma FirstStep(s: State, a: Step, rest: seq<Step>, s': State)
    ensures Run(s, [a] + rest, s') <==> Enabled(s, a) && Run(Next(s, a), rest, s')
  {
    assert ([a] + rest)[1..] == rest;
  }

  lemma ThreeSteps(s: State, a: Step, b: Step, c: Step, s': State)
    ensures Run(s, [a, b, c], s') <==>
              && Enabled(s, a) && Enabled(Next(s, a), b) && Enabled(Next(Next(s, a), b), c)
              && s' == Next(Next(Next(s, a), b), c)
  {
    assert [a, b, c] == [a] + [b, c] && [b, c] == [b] + [c] && [c] == [c] + [];
    FirstStep(s, a, [b, c], s');
    if Enabled(s, a) {
      FirstStep(Next(s, a), b, [c], s');
      if Enabled(Next(s, a), b) {
        FirstStep(Next(Next(s, a), b), c, [], s');
      }
    }
  }

  /** A contender by itself gets inside exactly if the lock of its process and the file lock are free. */
  lemma ContenderWinsExactly(s: State, i: nat)
    requires Inv(s) && AtPc(s, i, Outside)
    ensures (exists s' :: Run(s, Entry(i), s') && AtPc(s', i, Inside)) <==>
              s.threads[i].process !in s.threadLock && s.fileLock == None
  {
    var p := s.threads[i].process;
    if p !in s.threadLock {
      var s1 := Next(s, TryThreadLock(i));
      var s2 := Next(s1, EnterTry(i));
      var s3 := Next(s2, TryFileLock(i));
      ThreeSteps(s, TryThreadLock(i), EnterTry(i), TryFileLock(i), s3);
      assert Run(s, Entry(i), s3) && (AtPc(s3, i, Inside) <==> s.fileLock == None);
      forall s' | Run(s, Entry(i), s') ensures s' == s3 {
        ThreeSteps(s, TryThreadLock(i), EnterTry(i), TryFileLock(i), s');
      }
    } else {
      forall s' ensures !Run(s, Entry(i), s') {
        ThreeSteps(s, TryThreadLock(i), EnterTry(i), TryFileLock(i), s');
      }
    }
  }

  /** Inside it holds both locks, and nothing else has changed; behind its exit everything is as before. */
  lemma WinnerHoldsBothLocks(s: State, i: nat, s': State)
    requires Inv(s) && AtPc(s, i, Outside) && Run(s, Entry(i), s') && AtPc(s', i, Inside)
    ensures var p := s.threads[i].process;
            && s'.threads == s.threads[i := Thread(p, Inside)] && s'.fileLock == Some(i)
            && s'.threadLock == s.threadLock[p := i] && s'.leaked == s.leaked
    ensures Run(s', Exit(i), s)
  {
    ThreeSteps(s, TryThreadLock(i), EnterTry(i), TryFileLock(i), s');
    var p := s.threads[i].process;
    assert p !in s.threadLock;
    assert s'.threads == s.threads[i := Thread(p, Inside)];
    var s1 := Next(s', LeaveBody(i));
    var s2 := Next(s1, UnlockFile(i));
    var s3 := Next(s2, ReleaseThreadLock(i));
    assert s3.threads == s.threads;
    assert s3.threadLock == s.threadLock;
    ThreeSteps(s', LeaveBody(i), UnlockFile(i), ReleaseThreadLock(i), s);
  }

  /** A lock file that cannot be opened costs the contender nothing but its attempt. */
  lemma FailedOpenLeavesNoTrace(s: State, i: nat, s': State)
    requires Inv(s) && AtPc(s, i, Outside) && s.threads[i].process !in s.threadLock
    ensures Run(s, [TryThreadLock(i), EnterTry(i), OpenFails(i)] + [ReleaseThreadLock(i)], s') <==> s' == s
  {
    var s1 := Next(s, TryThreadLock(i));
    var s2 := Next(s1, EnterTry(i));
    var s3 := Next(s2, OpenFails(i));
    var s4 := Next(s3, ReleaseThreadLock(i));
    assert s4.threads == s.threads && s4.threadLock == s.threadLock;
    assert [TryThreadLock(i), EnterTry(i), OpenFails(i)] + [ReleaseThreadLock(i)]
        == [TryThreadLock(i)] + [EnterTry(i), OpenFails(i), ReleaseThreadLock(i)];
    FirstStep(s, TryThreadLock(i), [EnterTry(i), OpenFails(i), ReleaseThreadLock(i)], s');
    ThreeSteps(s1, EnterTry(i), OpenFails(i), ReleaseThreadLock(i), s');
  }

  /** A process that dies gives up its lock, leaked or not, and the file lock, if one of its threads held it. */
  lemma CrashFreesLocks(s: State, p: nat)
    requires Inv(s)
    ensures var s' := Next(s, Crash(p));
            && p !in s'.threadLock && p !in s'.leaked
            && (forall q :: q != p ==>
                  (q in s'.threadLock <==> q in s.threadLock) && (q in s'.leaked <==> q in s.leaked))
            && (forall i :: 0 <= i < |s.threads| && s.threads[i].process == p ==> s'.fileLock != Some(i))
            && (s.fileLock.Some? && s.threads[s.fileLock.value].process != p ==> s'.fileLock == s.fileLock)
  {}

  /** Whatever the others do meanwhile, a thread changes the file lock only by winning it or giving it up. */
  lemma OnlyWinnersTouchTheFileLock(s: State, step: Step)
    requires Inv(s) && Enabled(s, step) && Next(s, step).fileLock != s.fileLock
    ensures if step.TryFileLock? then s.fileLock.None? && Next(s, step).fileLock == Some(step.i)
            else
              && s.fileLock.Some? && Next(s, step).fileLock.None?
              && (step == UnlockFile(s.fileLock.value) || step == Crash(s.threads[s.fileLock.value].process))
  {}

  /**
   The lock of a process changes only when one of its threads finds it free, when its holder
   releases it, or by a crash.
   */
  lemma OnlyHoldersTouchTheThreadLock(s: State, step: Step, p: nat)
    requires Inv(s) && Enabled(s, step)
    requires (p in s.threadLock) != (p in Next(s, step).threadLock)
             || (p in s.threadLock && s.threadLock[p] != Next(s, step).threadLock[p])
    ensures if p !in s.threadLock then step.TryThreadLock? && s.threads[step.i].process == p
              && Next(s, step).threadLock[p] == step.i
            else p !in Next(s, step).threadLock && (step == ReleaseThreadLock(s.threadLock[p]) || step == Crash(p))
  {}

  predicate ByThread(step: Step, i: nat) {
    !step.Spawn? && !step.Crash? && step.i == i
  }

  /** Along the run thread `i` never finds the file lock free. */
  ghost predicate Loses(s: State, steps: seq<Step>, i: nat)
    decreases |steps|
  {
    steps == []
    || (Enabled(s, steps[0]) && (steps[0] == TryFileLock(i) ==> s.fileLock.Some?)
         && Loses(Next(s, steps[0]), steps[1..], i))
  }

  /** No step of thread `i` changes the file lock. */
  ghost predicate LeavesFileLock(s: State, steps: seq<Step>, i: nat)
    decreases |steps|
  {
    steps == []
    || (&& Enabled(s, steps[0]) && (ByThread(steps[0], i) ==> Next(s, steps[0]).fileLock == s.fileLock)
        && LeavesFileLock(Next(s, steps[0]), steps[1..], i))
  }

  /**
   A loser among others: over every interleaving, a thread that starts outside and never finds the
   file lock free does not change it, and back outside it holds the lock of its process no more, if
   that has not leaked.
   */
  lemma {:induction false} LoserAmongOthers(s: State, steps: seq<Step>, s': State, i: nat)
    requires Inv(s) && i < |s.threads| && !HoldsFileLock(s.threads[i].pc) && Run(s, steps, s') && Loses(s, steps, i)
    ensures LeavesFileLock(s, steps, i) && s'.fileLock != Some(i) && i < |s'.threads|
    ensures var t := s'.threads[i];
            t.pc.Outside? && t.process !in s'.leaked ==> !(t.process in s'.threadLock && s'.threadLock[t.process] == i)
    decreases |steps|
  {
    if steps != [] {
      StepKeepsInv(s, steps[0]);
      LoserAmongOthers(Next(s, steps[0]), steps[1..], s', i);
    }
  }

  /**
   A failure before the try block leaks the process lock: until that process dies, none of its
   threads gets inside again.
   */
  lemma {:induction false} LeakShutsOutTheProcess(s: State, steps: seq<Step>, s': State, p: nat)
    requires Inv(s) && p in s.leaked && Run(s, steps, s')
    requires forall k :: 0 <= k < |steps| ==> steps[k] != Crash(p)
    ensures p in s'.leaked && forall i :: 0 <= i < |s'.threads| && s'.threads[i].process == p ==>
              !s'.threads[i].pc.Inside?
    decreases |steps|
  {
    if steps != [] {
      assert steps[0] != Crash(p);
      StepKeepsInv(s, steps[0]);
      LeakShutsOutTheProcess(Next(s, steps[0]), steps[1..], s', p);
    }
  }

  /** That is reachable: one thread, whose lock directory cannot be made. */
  lemma LeakIsReachable()
    ensures Run(INIT, [Spawn(0), TryThreadLock(0), DirectoryFails(0)],
                State([Thread(0, Outside)], map[0 := 0], None, {0}))
  {
    var steps := [Spawn(0), TryThreadLock(0), DirectoryFails(0)];
    var s1 := State([Thread(0, Outside)], map[], None, {});
    var s2 := State([Thread(0, GotThreadLock)], map[0 := 0], None, {});
    var s3 := State([Thread(0, Outside)], map[0 := 0], None, {0});
    assert Next(INIT, steps[0]) == s1 && Next(s1, steps[1]) == s2 && Next(s2, steps[2]) == s3;
    assert steps[2..][1..] == [] && Run(s3, [], s3);
    assert Run(s2, steps[2..], s3);
    assert steps[1..][1..] == steps[2..] && Run(s1, steps[1..], s3);
  }
}
