/**
 Buffered job logs: lines are collected under a lock, and a full or overdue batch is taken out of
 the buffer under that lock but written to the database after it has been released.
 */
module LogBuffer {

  datatype Line = Line(stream: string, message: string)

  /** What the lock protects; `lastFlush` is on a monotonic clock in seconds. */
  datatype Buffer<T> = Buffer(pending: seq<T>, lastFlush: real)

  predicate Due<T>(b: Buffer<T>, maxEntries: nat, maxInterval: real, now: real) {
    |b.pending| >= maxEntries || now - b.lastFlush >= maxInterval
  }

  /** The critical section of `add`: the new buffer and the batch, possibly empty, to be written. */
  function Adding<T>(
    b: Buffer<T>, line: T, maxEntries: nat, maxInterval: real, now: real, flushedAt: real): (Buffer<T>, seq<T>)
  {
    var b' := b.(pending := b.pending + [line]);
    if Due(b', maxEntries, maxInterval, now) then (Buffer([], flushedAt), b'.pending) else (b', [])
  }

  function Flushing<T>(b: Buffer<T>, flushedAt: real): (Buffer<T>, seq<T>) {
    (Buffer([], flushedAt), b.pending)
  }

  /** The rows of one job in the log table. */
  class JobLog {
    var lines: seq<Line>

    constructor ()
      ensures lines == []
    {
      lines := [];
    }

    /** One transaction: all of the batch or, if it raises, nothing. */
    method RecordPipelineJobLogs(entries: seq<Line>, commits: bool) returns (ok: bool)
      modifies this
      ensures ok == commits
      ensures lines == if commits then old(lines) + entries else old(lines)
    {
      var staged := lines;
      var i := 0;
      while i < |entries|
        invariant 0 <= i <= |entries|
        invariant staged == lines + entries[..i]
        invariant lines == old(lines)
      {
        staged := staged + [entries[i]];
        assert entries[..i + 1] == entries[..i] + [entries[i]];
        i := i + 1;
      }
      assert entries[..i] == entries;
      if commits {
        lines := staged;
      }
      return commits;
    }
  }

  class JobLogBuffer {
    const maxEntries: nat
    const maxInterval: real
    var pending: seq<Line>
    var lastFlush: real

    constructor (maxEntries: nat, maxInterval: real, now: real)
      ensures this.maxEntries == maxEntries && this.maxInterval == maxInterval && Contents() == Buffer([], now)
    {
      this.maxEntries := maxEntries;
      this.maxInterval := maxInterval;
      pending := [];
      lastFlush := now;
    }

    function Contents(): Buffer<Line>
      reads this
    {
      Buffer(pending, lastFlush)
    }

    /** Nothing else happens between the locked section and the write: the uncontended case. */
    method Add(log: JobLog, line: Line, now: real, flushedAt: real, commits: bool)
      modifies this, log
      ensures var (b, batch) := Adding(old(Contents()), line, maxEntries, maxInterval, now, flushedAt);
              Contents() == b && log.lines == if commits then old(log.lines) + batch else old(log.lines)
      ensures if |old(pending)| + 1 >= maxEntries || now >= old(lastFlush) + maxInterval
              then
                && pending == [] && lastFlush == flushedAt
                && log.lines == old(log.lines) + (if commits then old(pending) + [line] else [])
              else pending == old(pending) + [line] && lastFlush == old(lastFlush) && log.lines == old(log.lines)
    {
      pending := pending + [line];
      var due := |pending| >= maxEntries || now - lastFlush >= maxInterval;
      if !due {
        return;
      }
      var entries := pending;
      pending := [];
      lastFlush := flushedAt;
      WriteOut(log, entries, commits);
    }

    method Flush(log: JobLog, flushedAt: real, commits: bool)
      modifies this, log
      ensures var (b, batch) := Flushing(old(Contents()), flushedAt);
              Contents() == b && log.lines == if commits then old(log.lines) + batch else old(log.lines)
      ensures pending == [] && lastFlush == flushedAt
              && log.lines == old(log.lines) + (if commits then old(pending) else [])
    {
      var entries := pending;
      pending := [];
      lastFlush := flushedAt;
      WriteOut(log, entries, commits);
    }

    /** A failed write is logged and swallowed: it must not interrupt the training job. */
    method WriteOut(log: JobLog, entries: seq<Line>, commits: bool)
      modifies log
      ensures log.lines == if commits then old(log.lines) + entries else old(log.lines)
    {
      if |entries| == 0 {
        return;
      }
      var _ := log.RecordPipelineJobLogs(entries, commits);
    }
  }

  // ----- any number of threads adding and flushing -----

  /** A line and how many lines had been added before it: equal lines stay apart. */
  datatype Entry = Entry(line: Line, number: nat)

  /**
   `carried[t]` is the batch that thread t has taken and not yet written, and `taken` lists the
   threads that carry one, in the order in which they took it. `settled` lists every entry whose
   write is over, in order, with whether it was committed. `added` and `taken` are history.
   */
  datatype State = State(
    buffer: Buffer<Entry>,
    carried: seq<seq<Entry>>,
    taken: seq<nat>,
    settled: seq<(Entry, bool)>,
    added: seq<Entry>)

  datatype Step =
    | Add(t: nat, line: Line, now: real, flushedAt: real)
    | Flush(t: nat, flushedAt: real)
    | WriteBatch(t: nat, commits: bool)

  datatype Limits = Limits(maxEntries: nat, maxInterval: real)

  predicate Enabled(s: State, step: Step) {
    step.t < |s.carried| && (step.WriteBatch? <==> s.carried[step.t] != [])
  }

  function Tagged(batch: seq<Entry>, ok: bool): seq<(Entry, bool)> {
    seq(|batch|, i requires 0 <= i < |batch| => (batch[i], ok))
  }

  function Taking(taken: seq<nat>, t: nat, batch: seq<Entry>): seq<nat> {
    if batch == [] then taken else taken + [t]
  }

  function Without(taken: seq<nat>, t: nat): seq<nat> {
    if taken == [] then []
    else if taken[0] == t then taken[1..]
    else [taken[0]] + Without(taken[1..], t)
  }

  function Next(lim: Limits, s: State, step: Step): State
    requires Enabled(s, step)
  {
    match step
    case Add(t, line, now, flushedAt) =>
      var entry := Entry(line, |s.added|);
      var (b, batch) := Adding(s.buffer, entry, lim.maxEntries, lim.maxInterval, now, flushedAt);
      State(b, s.carried[t := batch], Taking(s.taken, t, batch), s.settled, s.added + [entry])
    case Flush(t, flushedAt) =>
      var (b, batch) := Flushing(s.buffer, flushedAt);
      State(b, s.carried[t := batch], Taking(s.taken, t, batch), s.settled, s.added)
    case WriteBatch(t, commits) =>
      State(s.buffer, s.carried[t := []], Without(s.taken, t), s.settled + Tagged(s.carried[t], commits), s.added)
  }

  ghost predicate Run(lim: Limits, s: State, steps: seq<Step>, s': State)
    decreases |steps|
  {
    if steps == [] then s' == s
    else Enabled(s, steps[0]) && Run(lim, Next(lim, s, steps[0]), steps[1..], s')
  }

  function Init(threads: nat, now: real): State {
    State(Buffer([], now), seq(threads, _ => []), [], [], [])
  }

  function Settled(settled: seq<(Entry, bool)>): seq<Entry> {
    seq(|settled|, i requires 0 <= i < |settled| => settled[i].0)
  }

  /** The settled entries that were committed (`ok`), or lost (`!ok`), in order. */
  function Where(settled: seq<(Entry, bool)>, ok: bool): seq<Entry> {
    if settled == [] then []
    else
      var last := settled[|settled| - 1];
      Where(settled[..|settled| - 1], ok) + (if last.1 == ok then [last.0] else [])
  }

  /** The batches in flight, one after the other, as they were taken. */
  function Flight(carried: seq<seq<Entry>>, taken: seq<nat>): seq<Entry> {
    if taken == [] then []
    else (if taken[0] < |carried| then carried[taken[0]] else []) + Flight(carried, taken[1..])
  }

  // ----- taking and writing batches -----

  /** Exactly the threads that carry a batch are listed, each once. */
  ghost predicate TakenOk(carried: seq<seq<Entry>>, taken: seq<nat>) {
    && (forall i :: 0 <= i < |taken| ==> taken[i] < |carried| && carried[taken[i]] != [])
    && Distinct(taken)
    && (forall t :: 0 <= t < |carried| && carried[t] != [] ==> t in taken)
  }

  lemma {:induction false} FlightIgnores(carried: seq<seq<Entry>>, taken: seq<nat>, t: nat, batch: seq<Entry>)
    requires t < |carried| && t !in taken
    ensures Flight(carried[t := batch], taken) == Flight(carried, taken)
    decreases |taken|
  {
    if taken != [] {
      FlightIgnores(carried, taken[1..], t, batch);
    }
  }

  lemma {:induction false} FlightAppends(carried: seq<seq<Entry>>, taken: seq<nat>, t: nat)
    requires t < |carried|
    ensures Flight(carried, taken + [t]) == Flight(carried, taken) + carried[t]
    decreases |taken|
  {
    if taken == [] {
      assert taken + [t] == [t] && [t][1..] == [];
    } else {
      assert (taken + [t])[1..] == taken[1..] + [t];
      FlightAppends(carried, taken[1..], t);
    }
  }

  /** A batch that is taken joins the flight at its end. */
  lemma TakingExtendsFlight(carried: seq<seq<Entry>>, taken: seq<nat>, t: nat, batch: seq<Entry>)
    requires TakenOk(carried, taken) && t < |carried| && carried[t] == []
    ensures TakenOk(carried[t := batch], Taking(taken, t, batch))
    ensures Flight(carried[t := batch], Taking(taken, t, batch)) == Flight(carried, taken) + batch
  {
    assert t !in taken;
    FlightIgnores(carried, taken, t, batch);
    if batch != [] {
      FlightAppends(carried[t := batch], taken, t);
    }
  }

  predicate Distinct(taken: seq<nat>) {
    forall i, k :: 0 <= i < k < |taken| ==> taken[i] != taken[k]
  }

  lemma {:induction false} WithoutMembers(taken: seq<nat>, t: nat, u: nat)
    requires Distinct(taken)
    ensures u in Without(taken, t) <==> u != t && u in taken
    decreases |taken|
  {
    if taken != [] {
      assert u in taken <==> u == taken[0] || u in taken[1..];
      assert taken[0] !in taken[1..];
      WithoutMembers(taken[1..], t, u);
    }
  }

  lemma {:induction false} WithoutStaysDistinct(taken: seq<nat>, t: nat)
    requires Distinct(taken)
    ensures Distinct(Without(taken, t))
    decreases |taken|
  {
    if taken != [] && taken[0] != t {
      WithoutStaysDistinct(taken[1..], t);
      WithoutMembers(taken[1..], t, taken[0]);
      assert taken[0] !in taken[1..];
    }
  }

  lemma WritingKeepsTaken(carried: seq<seq<Entry>>, taken: seq<nat>, t: nat)
    requires TakenOk(carried, taken) && t < |carried|
    ensures TakenOk(carried[t := []], Without(taken, t))
  {
    WithoutStaysDistinct(taken, t);
    forall u: nat ensures u in Without(taken, t) <==> u != t && u in taken {
      WithoutMembers(taken, t, u);
    }
    var less := Without(taken, t);
    forall i | 0 <= i < |less| ensures less[i] < |carried| && less[i] != t && carried[less[i]] != [] {
      assert less[i] in less;
    }
  }

  // ----- conservation -----

  /** Everything that was ever added, in the order of settling, then of taking, then of waiting. */
  function Everything(s: State): seq<Entry> {
    Settled(s.settled) + Flight(s.carried, s.taken) + s.buffer.pending
  }

  lemma SettledAppend(settled: seq<(Entry, bool)>, batch: seq<Entry>, ok: bool)
    ensures Settled(settled + Tagged(batch, ok)) == Settled(settled) + batch
  {}

  /** Writing moves a batch from the flight to the settled entries. */
  lemma {:induction false} FlightLoses(carried: seq<seq<Entry>>, taken: seq<nat>, t: nat)
    requires t < |carried| && t in taken && Distinct(taken)
    ensures multiset(Flight(carried, taken)) == multiset(Flight(carried[t := []], Without(taken, t)))
              + multiset(carried[t])
    decreases |taken|
  {
    var rest := taken[1..];
    assert taken == [taken[0]] + rest;
    if taken[0] == t {
      assert t !in rest;
      FlightIgnores(carried, rest, t, []);
    } else {
      FlightLoses(carried, rest, t);
      var less := Without(rest, t);
      var head := if taken[0] < |carried| then carried[taken[0]] else [];
      assert ([taken[0]] + less)[1..] == less;
      assert Flight(carried[t := []], [taken[0]] + less) == head + Flight(carried[t := []], less);
    }
  }

  ghost predicate Inv(lim: Limits, s: State) {
    && TakenOk(s.carried, s.taken)
    && multiset(s.added) == multiset(Everything(s))
    && (forall i :: 0 <= i < |s.added| ==> s.added[i].number == i)
    && (lim.maxEntries > 0 ==> |s.buffer.pending| < lim.maxEntries)
  }

  lemma AddKeepsEverything(lim: Limits, s: State, step: Step)
    requires TakenOk(s.carried, s.taken) && Enabled(s, step) && step.Add?
    ensures Everything(Next(lim, s, step)) == Everything(s) + [Entry(step.line, |s.added|)]
    ensures TakenOk(Next(lim, s, step).carried, Next(lim, s, step).taken)
  {
    var s' := Next(lim, s, step);
    var batch := s'.carried[step.t];
    TakingExtendsFlight(s.carried, s.taken, step.t, batch);
    assert s'.carried == s.carried[step.t := batch]
      && batch + s'.buffer.pending == s.buffer.pending + [Entry(step.line, |s.added|)];
    Regroup(Settled(s.settled), Flight(s.carried, s.taken), batch, s'.buffer.pending);
  }

  lemma FlushKeepsEverything(lim: Limits, s: State, step: Step)
    requires TakenOk(s.carried, s.taken) && Enabled(s, step) && step.Flush?
    ensures Everything(Next(lim, s, step)) == Everything(s)
    ensures TakenOk(Next(lim, s, step).carried, Next(lim, s, step).taken)
  {
    var s' := Next(lim, s, step);
    TakingExtendsFlight(s.carried, s.taken, step.t, s.buffer.pending);
    Regroup(Settled(s.settled), Flight(s.carried, s.taken), s.buffer.pending, []);
  }

  lemma Regroup<T>(a: seq<T>, b: seq<T>, c: seq<T>, d: seq<T>)
    ensures a + (b + c) + d == a + b + (c + d)
  {}

  lemma WriteKeepsMultiset(lim: Limits, s: State, step: Step)
    requires TakenOk(s.carried, s.taken) && Enabled(s, step) && step.WriteBatch?
    ensures multiset(Everything(Next(lim, s, step))) == multiset(Everything(s))
    ensures TakenOk(Next(lim, s, step).carried, Next(lim, s, step).taken)
  {
    SettledAppend(s.settled, s.carried[step.t], step.commits);
    FlightLoses(s.carried, s.taken, step.t);
    WritingKeepsTaken(s.carried, s.taken, step.t);
  }

  lemma StepKeepsInv(lim: Limits, s: State, step: Step)
    requires Inv(lim, s) && Enabled(s, step)
    ensures Inv(lim, Next(lim, s, step))
  {
    match step
    case Add(_, _, _, _) => AddKeepsEverything(lim, s, step);
    case Flush(_, _) => FlushKeepsEverything(lim, s, step);
    case WriteBatch(_, _) => WriteKeepsMultiset(lim, s, step);
  }

  lemma {:induction false} RunsKeepInv(lim: Limits, s: State, steps: seq<Step>, s': State)
    requires Inv(lim, s) && Run(lim, s, steps, s')
    ensures Inv(lim, s')
    decreases |steps|
  {
    if steps != [] {
      StepKeepsInv(lim, s, steps[0]);
      RunsKeepInv(lim, Next(lim, s, steps[0]), steps[1..], s');
    }
  }

  lemma {:induction false} SettledSplits(settled: seq<(Entry, bool)>)
    ensures multiset(Settled(settled)) == multiset(Where(settled, true)) + multiset(Where(settled, false))
    decreases |settled|
  {
    if settled != [] {
      var init := settled[..|settled| - 1];
      SettledSplits(init);
      var last := settled[|settled| - 1];
      assert Settled(settled) == Settled(init) + [last.0];
      var none: seq<Entry> := [];
      assert multiset(none) == multiset{};
      Exchange(multiset(Where(init, true)), multiset(Where(init, false)),
               multiset(if last.1 then [last.0] else none), multiset(if last.1 then none else [last.0]));
    }
  }

  lemma Exchange<T>(a: multiset<T>, b: multiset<T>, c: multiset<T>, d: multiset<T>)
    ensures (a + b) + (c + d) == (a + c) + (b + d)
  {}

  /**
   Conservation over every interleaving: each added line is persisted, lost in a failed write, in
   flight or pending, and only one of these, once; and the buffer stays below its limit.
   */
  lemma LinesAreConserved(lim: Limits, threads: nat, start: real, steps: seq<Step>, s: State)
    requires lim.maxEntries > 0 && Run(lim, Init(threads, start), steps, s)
    ensures multiset(s.added)
         == multiset(Where(s.settled, true)) + multiset(Where(s.settled, false))
            + multiset(Flight(s.carried, s.taken)) + multiset(s.buffer.pending)
    ensures forall e :: multiset(s.added)[e] <= 1
    ensures |s.buffer.pending| < lim.maxEntries
  {
    RunsKeepInv(lim, Init(threads, start), steps, s);
    SettledSplits(s.settled);
    NumbersAreDistinct(s.added);
  }

  lemma {:induction false} NumbersAreDistinct(added: seq<Entry>)
    requires forall i :: 0 <= i < |added| ==> added[i].number == i
    ensures forall e :: multiset(added)[e] <= 1
    decreases |added|
  {
    if added != [] {
      var init, last := added[..|added| - 1], added[|added| - 1];
      assert added == init + [last];
      NumbersAreDistinct(init);
      assert last !in init;
    }
  }
}
