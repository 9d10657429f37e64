/**
 The order of buffered log lines. Batches are written outside the lock of the buffer, so that one can
 overtake another: exactly when lines stay in order, of all lines and of those that are persisted,
 and the runs that invert them.
 */
module LogOrder {
  import opened LogBuffer

  // ----- order -----

  /** What is settled, in flight and pending is in the order in which it was added. */
  predicate InOrder(s: State) {
    Everything(s) == s.added
  }

  /** A write of this batch leaves no batch behind that was taken before it. */
  predicate WritesFirst(s: State, step: Step) {
    step.WriteBatch? ==> s.taken != [] && s.taken[0] == step.t
  }

  ghost predicate WritesInTurn(lim: Limits, s: State, steps: seq<Step>)
    decreases |steps|
  {
    steps == []
    || (WritesFirst(s, steps[0]) && Enabled(s, steps[0]) && WritesInTurn(lim, Next(lim, s, steps[0]), steps[1..]))
  }

  /** A settled entry comes before an older one, wherever that is by now. */
  ghost predicate Inverted(s: State) {
    exists i, k :: 0 <= i < |s.settled| && i < k < |Everything(s)| && Everything(s)[k].number < s.settled[i].0.number
  }

  lemma InvertedIsOutOfOrder(lim: Limits, s: State)
    requires Inv(lim, s) && Inverted(s)
    ensures !InOrder(s)
  {
    var i, k :| 0 <= i < |s.settled| && i < k < |Everything(s)| && Everything(s)[k].number < s.settled[i].0.number;
    assert Everything(s)[i] == s.settled[i].0;
  }

  lemma FirstWriteKeepsEverything(lim: Limits, s: State, step: Step)
    requires TakenOk(s.carried, s.taken) && Enabled(s, step) && step.WriteBatch? && WritesFirst(s, step)
    ensures Everything(Next(lim, s, step)) == Everything(s)
  {
    var rest := s.taken[1..];
    assert step.t !in rest;
    SettledAppend(s.settled, s.carried[step.t], step.commits);
    FlightIgnores(s.carried, rest, step.t, []);
    Regroup(Settled(s.settled), s.carried[step.t], Flight(s.carried, rest), s.buffer.pending);
  }

  /** Without a write, or with a write in turn, nothing changes its place. */
  lemma TurnKeepsOrder(lim: Limits, s: State, step: Step)
    requires Inv(lim, s) && InOrder(s) && Enabled(s, step) && WritesFirst(s, step)
    ensures InOrder(Next(lim, s, step))
  {
    match step
    case Add(_, _, _, _) => AddKeepsEverything(lim, s, step);
    case Flush(_, _) => FlushKeepsEverything(lim, s, step);
    case WriteBatch(_, _) => FirstWriteKeepsEverything(lim, s, step);
  }

  lemma {:induction false} FlightHolds(carried: seq<seq<Entry>>, taken: seq<nat>, t: nat)
    requires t < |carried| && t in taken && carried[t] != []
    ensures carried[t][0] in Flight(carried, taken)
    decreases |taken|
  {
    if taken[0] != t {
      FlightHolds(carried, taken[1..], t);
    }
  }

  /** A write out of turn settles an entry before an older one that is still in flight. */
  lemma OutOfTurnInverts(lim: Limits, s: State, step: Step)
    requires Inv(lim, s) && InOrder(s) && Enabled(s, step) && !WritesFirst(s, step)
    ensures Inverted(Next(lim, s, step))
  {
    var s', n, t := Next(lim, s, step), |s.settled|, step.t;
    assert t in s.taken && s.taken[0] != t;
    var u, rest := s.taken[0], s.taken[1..];
    FlightHolds(s.carried, rest, t);
    var young, older := s.carried[t][0], s.carried[u][0];
    assert Everything(s)[n] == older;
    var j :| 0 <= j < |Flight(s.carried, rest)| && Flight(s.carried, rest)[j] == young;
    assert Everything(s)[n + |s.carried[u]| + j] == young;
    assert s'.settled[n].0 == young;
    assert s'.taken[0] == u && s'.carried[u] == s.carried[u];
    assert Everything(s')[|s'.settled|] == older;
  }

  lemma TailGrows<T>(prefix: seq<T>, a: seq<T>, b: seq<T>, x: T)
    requires multiset(prefix + a) <= multiset(prefix + b) && x in a
    ensures x in b
  {
    assert multiset(prefix + a)[x] <= multiset(prefix + b)[x];
    assert multiset(prefix + a)[x] == multiset(prefix)[x] + multiset(a)[x];
    assert multiset(prefix + b)[x] == multiset(prefix)[x] + multiset(b)[x];
    assert multiset(a)[x] > 0;
  }

  /** Behind a prefix that stays, whatever does not get lost is still behind it. */
  lemma StaysBehind<T>(all: seq<T>, all': seq<T>, i: nat, k: nat) returns (k': nat)
    requires i < k < |all| && i < |all'| && all[..i + 1] == all'[..i + 1] && multiset(all) <= multiset(all')
    ensures i < k' < |all'| && all'[k'] == all[k]
  {
    var prefix, rest, rest' := all[..i + 1], all[i + 1..], all'[i + 1..];
    assert all == prefix + rest && all' == prefix + rest';
    assert rest[k - i - 1] == all[k];
    TailGrows(prefix, rest, rest', all[k]);
    var j :| 0 <= j < |rest'| && rest'[j] == all[k];
    k' := i + 1 + j;
  }

  lemma NothingIsLost(lim: Limits, s: State, step: Step)
    requires Inv(lim, s) && Enabled(s, step)
    ensures s.settled <= Next(lim, s, step).settled
    ensures multiset(Everything(s)) <= multiset(Everything(Next(lim, s, step)))
  {
    match step
    case Add(_, _, _, _) => AddKeepsEverything(lim, s, step);
    case Flush(_, _) => FlushKeepsEverything(lim, s, step);
    case WriteBatch(_, _) => WriteKeepsMultiset(lim, s, step);
  }

  /** What is settled stays where it is, and nothing gets lost behind it. */
  lemma InvertedStays(s: State, s': State)
    requires Inverted(s) && s.settled <= s'.settled && multiset(Everything(s)) <= multiset(Everything(s'))
    ensures Inverted(s')
  {
    var i, k :| 0 <= i < |s.settled| && i < k < |Everything(s)| && Everything(s)[k].number < s.settled[i].0.number;
    var all, all' := Everything(s), Everything(s');
    assert all[..i + 1] == all'[..i + 1] by {
      assert forall j :: 0 <= j <= i ==> all[j] == s.settled[j].0 && all'[j] == s'.settled[j].0;
    }
    var k' := StaysBehind(all, all', i, k);
    assert s'.settled[i] == s.settled[i];
  }

  lemma {:induction false} InvertedForEver(lim: Limits, s: State, steps: seq<Step>, s': State)
    requires Inv(lim, s) && Run(lim, s, steps, s') && Inverted(s)
    ensures !InOrder(s')
    decreases |steps|
  {
    if steps == [] {
      InvertedIsOutOfOrder(lim, s);
    } else {
      StepKeepsInv(lim, s, steps[0]);
      NothingIsLost(lim, s, steps[0]);
      InvertedStays(s, Next(lim, s, steps[0]));
      InvertedForEver(lim, Next(lim, s, steps[0]), steps[1..], s');
    }
  }

  lemma {:induction false} OrderExactFrom(lim: Limits, s: State, steps: seq<Step>, s': State)
    requires Inv(lim, s) && InOrder(s) && Run(lim, s, steps, s')
    ensures InOrder(s') <==> WritesInTurn(lim, s, steps)
    decreases |steps|
  {
    if steps != [] {
      StepKeepsInv(lim, s, steps[0]);
      var m := Next(lim, s, steps[0]);
      if WritesFirst(s, steps[0]) {
        TurnKeepsOrder(lim, s, steps[0]);
        OrderExactFrom(lim, m, steps[1..], s');
      } else {
        OutOfTurnInverts(lim, s, steps[0]);
        InvertedForEver(lim, m, steps[1..], s');
      }
    }
  }

  /**
   Over every run of any number of producers and flushers: settled, in flight and pending lines are
   in the order in which they were added exactly if every batch was written before those taken later.
   */
  lemma OrderExact(lim: Limits, threads: nat, start: real, steps: seq<Step>, s: State)
    requires lim.maxEntries > 0 && Run(lim, Init(threads, start), steps, s)
    ensures InOrder(s) <==> WritesInTurn(lim, Init(threads, start), steps)
  {
    assert Everything(Init(threads, start)) == [];
    OrderExactFrom(lim, Init(threads, start), steps, s);
  }

  /** No thread takes a batch while another carries one. */
  ghost predicate TakesAlone(lim: Limits, s: State, steps: seq<Step>)
    decreases |steps|
  {
    steps == []
    || (&& Enabled(s, steps[0]) && |Next(lim, s, steps[0]).taken| <= 1
        && TakesAlone(lim, Next(lim, s, steps[0]), steps[1..]))
  }

  lemma AloneWritesFirst(s: State, step: Step)
    requires TakenOk(s.carried, s.taken) && |s.taken| <= 1 && Enabled(s, step)
    ensures WritesFirst(s, step)
  {}

  lemma {:induction false} AloneIsInTurn(lim: Limits, s: State, steps: seq<Step>)
    requires Inv(lim, s) && TakesAlone(lim, s, steps) && |s.taken| <= 1
    ensures WritesInTurn(lim, s, steps)
    decreases |steps|
  {
    if steps != [] {
      AloneWritesFirst(s, steps[0]);
      StepKeepsInv(lim, s, steps[0]);
      AloneIsInTurn(lim, Next(lim, s, steps[0]), steps[1..]);
    }
  }

  lemma {:induction false} NothingLost(settled: seq<(Entry, bool)>)
    requires Where(settled, false) == []
    ensures Where(settled, true) == Settled(settled)
    decreases |settled|
  {
    if settled != [] {
      var init := settled[..|settled| - 1];
      NothingLost(init);
      assert Settled(settled) == Settled(init) + [settled[|settled| - 1].0];
    }
  }

  // ----- the order of what is persisted, when writes may fail -----

  function Persisted(s: State): seq<Entry> {
    Where(s.settled, true)
  }

  ghost predicate Ascending(entries: seq<Entry>) {
    forall i, k :: 0 <= i < k < |entries| ==> entries[i].number < entries[k].number
  }

  ghost predicate Before(a: seq<Entry>, b: seq<Entry>) {
    forall x, y :: x in a && y in b ==> x.number < y.number
  }

  ghost predicate Below(entries: seq<Entry>, bound: nat) {
    forall x :: x in entries ==> x.number < bound
  }

  ghost predicate TakenBefore(taken: seq<nat>, u: nat, v: nat) {
    exists i, k :: 0 <= i < k < |taken| && taken[i] == u && taken[k] == v
  }

  /** The threads whose batch is still in flight although one that was taken later has been committed. */
  ghost function OvertakenAfter(s: State, overtaken: set<nat>, step: Step): set<nat> {
    if !step.WriteBatch? then overtaken
    else
      (if step.commits then overtaken + set u | u in s.taken && TakenBefore(s.taken, u, step.t) else overtaken)
      - {step.t}
  }

  /** No batch is committed once one that was taken later has been. */
  ghost predicate CommitsInTurn(lim: Limits, s: State, overtaken: set<nat>, steps: seq<Step>)
    decreases |steps|
  {
    steps == []
    || (&& Enabled(s, steps[0]) && (steps[0].WriteBatch? && steps[0].commits ==> steps[0].t !in overtaken)
        && CommitsInTurn(lim, Next(lim, s, steps[0]), OvertakenAfter(s, overtaken, steps[0]), steps[1..]))
  }

  /** Batches ascend as they were taken, and what waits comes last; only overtaken ones lag behind what is persisted. */
  ghost predicate Lined(
    pending: seq<Entry>, carried: seq<seq<Entry>>, taken: seq<nat>, persisted: seq<Entry>, overtaken: set<nat>,
    bound: nat)
  {
    && Ascending(pending) && Below(pending, bound) && EndsBefore(persisted, pending, bound)
    && BatchesEndBefore(carried, pending, bound) && InLine(carried, taken)
    && Ahead(carried, taken, persisted, overtaken) && Lagging(carried, persisted, overtaken)
  }

  ghost predicate EndsBefore(entries: seq<Entry>, pending: seq<Entry>, bound: nat) {
    Below(entries, bound) && Before(entries, pending)
  }

  ghost predicate BatchesEndBefore(carried: seq<seq<Entry>>, pending: seq<Entry>, bound: nat) {
    forall t :: 0 <= t < |carried| ==> Ascending(carried[t]) && EndsBefore(carried[t], pending, bound)
  }

  ghost predicate InLine(carried: seq<seq<Entry>>, taken: seq<nat>) {
    forall u: nat, v: nat ::
      TakenBefore(taken, u, v) && u < |carried| && v < |carried| ==> Before(carried[u], carried[v])
  }

  ghost predicate Ahead(carried: seq<seq<Entry>>, taken: seq<nat>, persisted: seq<Entry>, overtaken: set<nat>) {
    forall u :: u in taken && u < |carried| && u !in overtaken ==> Before(persisted, carried[u])
  }

  ghost predicate Lagging(carried: seq<seq<Entry>>, persisted: seq<Entry>, overtaken: set<nat>) {
    forall u :: u in overtaken ==> u < |carried| && Passed(persisted, carried[u])
  }

  ghost predicate Passed(persisted: seq<Entry>, batch: seq<Entry>) {
    batch != [] && exists x :: x in persisted && batch[0].number < x.number
  }

  ghost predicate LinedUp(s: State, overtaken: set<nat>) {
    TakenOk(s.carried, s.taken)
    && Lined(s.buffer.pending, s.carried, s.taken, Persisted(s), overtaken, |s.added|)
  }

  lemma AppendingStaysLined(
    pending: seq<Entry>, carried: seq<seq<Entry>>, taken: seq<nat>, persisted: seq<Entry>, overtaken: set<nat>,
    bound: nat, line: Line)
    requires Lined(pending, carried, taken, persisted, overtaken, bound)
    ensures Lined(pending + [Entry(line, bound)], carried, taken, persisted, overtaken, bound + 1)
  {
    var more := pending + [Entry(line, bound)];
    assert forall x :: x in more ==> x in pending || x == Entry(line, bound);
    assert forall i :: 0 <= i < |pending| ==> more[i] in pending;
    assert forall t :: 0 <= t < |carried| ==> EndsBefore(carried[t], pending, bound);
  }

  lemma TakenBeforeTaking(taken: seq<nat>, t: nat, u: nat, v: nat)
    requires TakenBefore(taken + [t], u, v)
    ensures TakenBefore(taken, u, v) || (v == t && u in taken)
  {
    var i, k :| 0 <= i < k < |taken + [t]| && (taken + [t])[i] == u && (taken + [t])[k] == v;
    assert taken[i] == u;
  }

  lemma TakingStaysLined(
    pending: seq<Entry>, carried: seq<seq<Entry>>, taken: seq<nat>, persisted: seq<Entry>, overtaken: set<nat>,
    bound: nat, t: nat)
    requires Lined(pending, carried, taken, persisted, overtaken, bound)
    requires TakenOk(carried, taken) && t < |carried| && carried[t] == [] && pending != []
    ensures Lined([], carried[t := pending], taken + [t], persisted, overtaken, bound)
  {
    var carried' := carried[t := pending];
    assert t !in taken;
    forall u: nat, v: nat | TakenBefore(taken + [t], u, v) && u < |carried| && v < |carried|
      ensures Before(carried'[u], carried'[v])
    {
      TakenBeforeTaking(taken, t, u, v);
    }
    assert forall u :: u in overtaken ==> u != t;
  }

  lemma {:induction false} WithoutKeepsBefore(taken: seq<nat>, t: nat, u: nat, v: nat)
    requires Distinct(taken) && TakenBefore(Without(taken, t), u, v)
    ensures TakenBefore(taken, u, v)
    decreases |taken|
  {
    var less := Without(taken, t);
    var i, k :| 0 <= i < k < |less| && less[i] == u && less[k] == v;
    var rest := taken[1..];
    if taken[0] == t {
      assert taken[i + 1] == u && taken[k + 1] == v;
    } else if i == 0 {
      assert v in Without(rest, t) by {
        assert Without(rest, t)[k - 1] == v;
      }
      WithoutMembers(rest, t, v);
      var j :| 0 <= j < |rest| && rest[j] == v;
      assert taken[0] == u && taken[j + 1] == v;
    } else {
      assert Without(rest, t)[i - 1] == u && Without(rest, t)[k - 1] == v;
      WithoutKeepsBefore(rest, t, u, v);
      var a, b :| 0 <= a < b < |rest| && rest[a] == u && rest[b] == v;
      assert taken[a + 1] == u && taken[b + 1] == v;
    }
  }

  lemma TakenOneBeforeTheOther(taken: seq<nat>, u: nat, v: nat)
    requires u in taken && v in taken && u != v
    ensures TakenBefore(taken, u, v) || TakenBefore(taken, v, u)
  {
    var i :| 0 <= i < |taken| && taken[i] == u;
    var k :| 0 <= k < |taken| && taken[k] == v;
  }

  /** What is persisted once `step` has written its batch. */
  function PersistedAfter(s: State, step: Step): seq<Entry>
    requires Enabled(s, step) && step.WriteBatch?
  {
    if step.commits then Persisted(s) + s.carried[step.t] else Persisted(s)
  }

  lemma WritingKeepsInLine(carried: seq<seq<Entry>>, taken: seq<nat>, t: nat)
    requires InLine(carried, taken) && Distinct(taken) && t < |carried|
    ensures InLine(carried[t := []], Without(taken, t))
  {
    var carried' := carried[t := []];
    forall u: nat, v: nat | TakenBefore(Without(taken, t), u, v) && u < |carried'| && v < |carried'|
      ensures Before(carried'[u], carried'[v])
    {
      WithoutKeepsBefore(taken, t, u, v);
    }
  }

  lemma WritingKeepsEnds(s: State, overtaken: set<nat>, step: Step)
    requires LinedUp(s, overtaken) && Enabled(s, step) && step.WriteBatch?
    ensures EndsBefore(PersistedAfter(s, step), s.buffer.pending, |s.added|)
    ensures BatchesEndBefore(s.carried[step.t := []], s.buffer.pending, |s.added|)
  {
    assert EndsBefore(s.carried[step.t], s.buffer.pending, |s.added|);
  }

  /** A batch that nobody has overtaken is still ahead of all that is persisted. */
  lemma WritingKeepsAhead(s: State, overtaken: set<nat>, step: Step)
    requires LinedUp(s, overtaken) && Enabled(s, step) && step.WriteBatch?
    ensures Ahead(s.carried[step.t := []], Without(s.taken, step.t), PersistedAfter(s, step),
                  OvertakenAfter(s, overtaken, step))
  {
    forall u | u in Without(s.taken, step.t) && u < |s.carried| && u !in OvertakenAfter(s, overtaken, step)
      ensures Before(PersistedAfter(s, step), s.carried[step.t := []][u])
    {
      WithoutMembers(s.taken, step.t, u);
      assert Before(Persisted(s), s.carried[u]);
      if step.commits {
        TakenOneBeforeTheOther(s.taken, step.t, u);
        assert Before(s.carried[step.t], s.carried[u]);
      }
    }
  }

  /** One that has been overtaken has something younger persisted before it. */
  lemma WritingKeepsLagging(s: State, overtaken: set<nat>, step: Step)
    requires LinedUp(s, overtaken) && Enabled(s, step) && step.WriteBatch?
    ensures Lagging(s.carried[step.t := []], PersistedAfter(s, step), OvertakenAfter(s, overtaken, step))
  {
    var batch := s.carried[step.t];
    forall u | u in OvertakenAfter(s, overtaken, step)
      ensures u < |s.carried| && Passed(PersistedAfter(s, step), s.carried[step.t := []][u])
    {
      if u in overtaken {
        assert Passed(Persisted(s), s.carried[u]);
      } else {
        assert TakenBefore(s.taken, u, step.t) && Before(s.carried[u], batch);
        assert batch[0] in batch && s.carried[u][0] in s.carried[u] && batch[0] in PersistedAfter(s, step);
      }
    }
  }

  /** Writing a batch, committed or not, takes it out of the line. */
  lemma WritingStaysLined(s: State, overtaken: set<nat>, step: Step)
    requires LinedUp(s, overtaken) && Enabled(s, step) && step.WriteBatch?
    ensures Lined(s.buffer.pending, s.carried[step.t := []], Without(s.taken, step.t), PersistedAfter(s, step),
                  OvertakenAfter(s, overtaken, step), |s.added|)
  {
    WritingKeepsEnds(s, overtaken, step);
    WritingKeepsInLine(s.carried, s.taken, step.t);
    WritingKeepsAhead(s, overtaken, step);
    WritingKeepsLagging(s, overtaken, step);
  }

  lemma {:induction false} WhereAppends(settled: seq<(Entry, bool)>, batch: seq<Entry>, commits: bool)
    ensures Where(settled + Tagged(batch, commits), true)
         == Where(settled, true) + (if commits then batch else [])
    decreases |batch|
  {
    var all := settled + Tagged(batch, commits);
    if batch == [] {
      assert all == settled;
    } else {
      var init, last := batch[..|batch| - 1], batch[|batch| - 1];
      assert all[..|all| - 1] == settled + Tagged(init, commits) && all[|all| - 1] == (last, commits);
      WhereAppends(settled, init, commits);
      assert init + [last] == batch;
    }
  }

  lemma WritingPersists(lim: Limits, s: State, step: Step)
    requires Enabled(s, step) && step.WriteBatch?
    ensures Persisted(Next(lim, s, step)) == PersistedAfter(s, step)
  {
    WhereAppends(s.settled, s.carried[step.t], step.commits);
  }

  lemma AddKeepsTaken(lim: Limits, s: State, step: Step)
    requires TakenOk(s.carried, s.taken) && Enabled(s, step) && step.Add?
    ensures TakenOk(Next(lim, s, step).carried, Next(lim, s, step).taken)
  {
    AddKeepsEverything(lim, s, step);
  }

  lemma AddStaysLinedUp(lim: Limits, s: State, overtaken: set<nat>, step: Step)
    requires LinedUp(s, overtaken) && Enabled(s, step) && step.Add?
    ensures LinedUp(Next(lim, s, step), overtaken)
  {
    var s', pending := Next(lim, s, step), s.buffer.pending + [Entry(step.line, |s.added|)];
    AddKeepsTaken(lim, s, step);
    AppendingStaysLined(s.buffer.pending, s.carried, s.taken, Persisted(s), overtaken, |s.added|, step.line);
    if s'.carried[step.t] == [] {
      assert s'.carried == s.carried;
    } else {
      TakingStaysLined(pending, s.carried, s.taken, Persisted(s), overtaken, |s.added| + 1, step.t);
    }
  }

  lemma FlushStaysLinedUp(lim: Limits, s: State, overtaken: set<nat>, step: Step)
    requires LinedUp(s, overtaken) && Enabled(s, step) && step.Flush?
    ensures LinedUp(Next(lim, s, step), overtaken)
  {
    FlushKeepsEverything(lim, s, step);
    if s.buffer.pending == [] {
      assert Next(lim, s, step).carried == s.carried;
    } else {
      TakingStaysLined(s.buffer.pending, s.carried, s.taken, Persisted(s), overtaken, |s.added|, step.t);
    }
  }

  lemma StepStaysLinedUp(lim: Limits, s: State, overtaken: set<nat>, step: Step)
    requires LinedUp(s, overtaken) && Enabled(s, step)
    ensures LinedUp(Next(lim, s, step), OvertakenAfter(s, overtaken, step))
  {
    match step
    case Add(_, _, _, _) => AddStaysLinedUp(lim, s, overtaken, step);
    case Flush(_, _) => FlushStaysLinedUp(lim, s, overtaken, step);
    case WriteBatch(t, _) =>
      WritingKeepsTaken(s.carried, s.taken, t);
      WritingStaysLined(s, overtaken, step);
      WritingPersists(lim, s, step);
  }

  /** A batch that is committed in turn goes behind all that is persisted, and any other does not. */
  lemma CommittingAscends(s: State, overtaken: set<nat>, t: nat)
    requires LinedUp(s, overtaken) && t in s.taken
    ensures Ascending(Persisted(s) + s.carried[t]) <==> Ascending(Persisted(s)) && t !in overtaken
  {
    var old', batch := Persisted(s), s.carried[t];
    var all := old' + batch;
    if t in overtaken {
      var x :| x in old' && batch[0].number < x.number;
      var i :| 0 <= i < |old'| && old'[i] == x;
      assert all[i] == x && all[|old'|] == batch[0];
    } else if Ascending(old') {
      assert Before(old', batch) && Ascending(batch);
      forall i, k | 0 <= i < k < |all| ensures all[i].number < all[k].number {
        if i < |old'| <= k {
          assert all[i] in old' && all[k] in batch;
        }
      }
    } else {
      var i, k :| 0 <= i < k < |old'| && old'[i].number >= old'[k].number;
      assert all[i] == old'[i] && all[k] == old'[k];
    }
  }

  lemma StepAscends(lim: Limits, s: State, overtaken: set<nat>, step: Step)
    requires LinedUp(s, overtaken) && Enabled(s, step)
    ensures Ascending(Persisted(Next(lim, s, step))) <==>
              Ascending(Persisted(s)) && (step.WriteBatch? && step.commits ==> step.t !in overtaken)
  {
    if step.WriteBatch? {
      WritingPersists(lim, s, step);
      CommittingAscends(s, overtaken, step.t);
    }
  }

  lemma {:induction false} PersistedOrderFrom(lim: Limits, s: State, overtaken: set<nat>, steps: seq<Step>, s': State)
    requires LinedUp(s, overtaken) && Run(lim, s, steps, s')
    ensures Ascending(Persisted(s')) <==> Ascending(Persisted(s)) && CommitsInTurn(lim, s, overtaken, steps)
    decreases |steps|
  {
    if steps != [] {
      StepStaysLinedUp(lim, s, overtaken, steps[0]);
      StepAscends(lim, s, overtaken, steps[0]);
      PersistedOrderFrom(lim, Next(lim, s, steps[0]), OvertakenAfter(s, overtaken, steps[0]), steps[1..], s');
    }
  }

  lemma PartOfAll<T>(part: seq<T>, b: multiset<T>, c: multiset<T>, d: multiset<T>, all: seq<T>, x: T)
    requires multiset(all) == multiset(part) + b + c + d && x in part
    ensures x in all
  {
    assert multiset(part)[x] > 0;
    assert multiset(all)[x] == multiset(part)[x] + b[x] + c[x] + d[x];
  }

  lemma AddedAreNumbered(lim: Limits, threads: nat, start: real, steps: seq<Step>, s: State)
    requires lim.maxEntries > 0 && Run(lim, Init(threads, start), steps, s)
    ensures forall i :: 0 <= i < |s.added| ==> s.added[i].number == i
  {
    RunsKeepInv(lim, Init(threads, start), steps, s);
  }

  /** Each of the entries was added, under its number. */
  ghost predicate Among(entries: seq<Entry>, added: seq<Entry>) {
    forall e :: e in entries ==> e.number < |added| && added[e.number] == e
  }

  lemma PersistedWereAdded(lim: Limits, threads: nat, start: real, steps: seq<Step>, s: State, e: Entry)
    requires lim.maxEntries > 0 && Run(lim, Init(threads, start), steps, s) && e in Persisted(s)
    ensures e.number < |s.added| && s.added[e.number] == e
  {
    LinesAreConserved(lim, threads, start, steps, s);
    AddedAreNumbered(lim, threads, start, steps, s);
    PartOfAll(Persisted(s), multiset(Where(s.settled, false)), multiset(Flight(s.carried, s.taken)),
        multiset(s.buffer.pending), s.added, e);
    var i :| 0 <= i < |s.added| && s.added[i] == e;
  }

  /**
   Over every run, with writes that may fail: the persisted lines are in the order in which they were
   added, with gaps where lines are lost, in flight or pending, exactly if no batch was committed
   after one that had been taken later.
   */
  lemma PersistedOrderExact(lim: Limits, threads: nat, start: real, steps: seq<Step>, s: State)
    requires lim.maxEntries > 0 && Run(lim, Init(threads, start), steps, s)
    ensures Among(Persisted(s), s.added)
    ensures Ascending(Persisted(s)) <==> CommitsInTurn(lim, Init(threads, start), {}, steps)
  {
    forall e | e in Persisted(s) ensures e.number < |s.added| && s.added[e.number] == e {
      PersistedWereAdded(lim, threads, start, steps, s, e);
    }
    PersistedOrderFrom(lim, Init(threads, start), {}, steps, s);
  }

  /** Whoever writes the batch that was taken first overtakes nobody. */
  lemma {:induction false} TurnsCommitInTurn(lim: Limits, s: State, steps: seq<Step>)
    requires TakenOk(s.carried, s.taken) && Inv(lim, s) && WritesInTurn(lim, s, steps)
    ensures CommitsInTurn(lim, s, {}, steps)
    decreases |steps|
  {
    if steps != [] {
      StepKeepsInv(lim, s, steps[0]);
      assert OvertakenAfter(s, {}, steps[0]) == {};
      TurnsCommitInTurn(lim, Next(lim, s, steps[0]), steps[1..]);
    }
  }

  lemma UnfailedIsPrefix(s: State)
    requires InOrder(s) && Where(s.settled, false) == []
    ensures Persisted(s) <= s.added
  {
    NothingLost(s.settled);
    assert Everything(s) == Settled(s.settled) + (Flight(s.carried, s.taken) + s.buffer.pending);
  }

  lemma AloneCommitsInTurn(lim: Limits, threads: nat, start: real, steps: seq<Step>)
    requires lim.maxEntries > 0 && TakesAlone(lim, Init(threads, start), steps)
    ensures WritesInTurn(lim, Init(threads, start), steps) && CommitsInTurn(lim, Init(threads, start), {}, steps)
  {
    AloneIsInTurn(lim, Init(threads, start), steps);
    TurnsCommitInTurn(lim, Init(threads, start), steps);
  }

  /** Then what is persisted is an ordered part of what was added; and if no write failed, a prefix. */
  lemma AlonePersistsInOrder(lim: Limits, threads: nat, start: real, steps: seq<Step>, s: State)
    requires lim.maxEntries > 0 && Run(lim, Init(threads, start), steps, s)
              && TakesAlone(lim, Init(threads, start), steps)
    ensures InOrder(s) && Ascending(Persisted(s)) && Among(Persisted(s), s.added)
    ensures Where(s.settled, false) == [] ==> Persisted(s) <= s.added
  {
    AloneCommitsInTurn(lim, threads, start, steps);
    OrderExact(lim, threads, start, steps, s);
    PersistedOrderExact(lim, threads, start, steps, s);
    if Where(s.settled, false) == [] {
      UnfailedIsPrefix(s);
    }
  }

  /** Every step of the run is taken by thread `t`: no other produces, flushes or writes. */
  ghost predicate OnlyThread(steps: seq<Step>, t: nat) {
    forall i :: 0 <= i < |steps| ==> steps[i].t == t
  }

  /** Nobody but `t` carries a batch. */
  predicate OnlyCarrier(s: State, t: nat) {
    s.taken == [] || s.taken == [t]
  }

  lemma StepKeepsOnlyCarrier(lim: Limits, s: State, step: Step)
    requires Inv(lim, s) && Enabled(s, step) && OnlyCarrier(s, step.t)
    ensures OnlyCarrier(Next(lim, s, step), step.t)
  {
    assert s.taken != [] ==> s.carried[s.taken[0]] != [];
    assert [step.t][1..] == [] && [] + [step.t] == [step.t];
  }

  /** A single thread never overlaps with itself. */
  lemma {:induction false} OneThreadTakesAlone(lim: Limits, s: State, steps: seq<Step>, s': State, t: nat)
    requires Inv(lim, s) && Run(lim, s, steps, s') && OnlyThread(steps, t) && OnlyCarrier(s, t)
    ensures TakesAlone(lim, s, steps)
    decreases |steps|
  {
    if steps != [] {
      assert steps[0].t == t;
      StepKeepsInv(lim, s, steps[0]);
      StepKeepsOnlyCarrier(lim, s, steps[0]);
      OneThreadTakesAlone(lim, Next(lim, s, steps[0]), steps[1..], s', t);
    }
  }

  // ----- two runs that invert -----

  const LIMITS := Limits(2, 1.0)

  lemma {:induction false} RunsCompose(lim: Limits, s: State, first: seq<Step>, m: State, second: seq<Step>, s': State)
    requires Run(lim, s, first, m) && Run(lim, m, second, s')
    ensures Run(lim, s, first + second, s')
    decreases |first|
  {
    if first == [] {
      assert first + second == second;
    } else {
      RunsCompose(lim, Next(lim, s, first[0]), first[1..], m, second, s');
      assert (first + second)[1..] == first[1..] + second;
    }
  }

  lemma TwoSteps(lim: Limits, s: State, x: Step, y: Step)
    requires Enabled(s, x) && Enabled(Next(lim, s, x), y)
    ensures Run(lim, s, [x, y], Next(lim, Next(lim, s, x), y))
  {
    var m := Next(lim, s, x);
    assert [x, y][1..] == [y] && [y][1..] == [];
    assert Run(lim, Next(lim, m, y), [], Next(lim, m, y)) && Run(lim, m, [y], Next(lim, m, y));
  }

  /** Two threads carry one entry each, x taken before y. */
  predicate BothCarry(s: State, x: Entry, y: Entry, early: nat) {
    && early < 2 && |s.carried| == 2 && s.carried[early] == [x] && s.carried[1 - early] == [y]
    && s.settled == [] && s.added == [x, y]
  }

  /** If the later batch is written first, the lines are persisted in the opposite order. */
  lemma LaterBatchFirst(s: State, x: Entry, y: Entry, early: nat) returns (steps: seq<Step>, s': State)
    requires BothCarry(s, x, y, early)
    ensures steps == [WriteBatch(1 - early, true), WriteBatch(early, true)] && Run(LIMITS, s, steps, s')
    ensures s'.added == [x, y] && Where(s'.settled, true) == [y, x]
  {
    var m := Next(LIMITS, s, WriteBatch(1 - early, true));
    s' := Next(LIMITS, m, WriteBatch(early, true));
    steps := [WriteBatch(1 - early, true), WriteBatch(early, true)];
    TwoSteps(LIMITS, s, steps[0], steps[1]);
    assert m.settled == [(y, true)] && s'.settled == [(y, true), (x, true)];
    assert s'.settled[..1] == [(y, true)] && s'.settled[..1][..0] == [] && Where([(y, true)], true) == [y];
  }

  /** A run that adds a before b, loses nothing, and persists b before a. */
  ghost predicate Inverts(steps: seq<Step>, a: Line, b: Line) {
    exists s :: Run(LIMITS, Init(2, 0.0), steps, s)
      && s.added == [Entry(a, 0), Entry(b, 1)] && Where(s.settled, true) == [Entry(b, 1), Entry(a, 0)]
  }

  lemma BothTake(a: Line, b: Line) returns (s: State)
    ensures Run(LIMITS, Init(2, 0.0), [Add(0, a, 5.0, 5.0), Add(1, b, 10.0, 10.0)], s)
    ensures BothCarry(s, Entry(a, 0), Entry(b, 1), 0)
  {
    var x, y := Add(0, a, 5.0, 5.0), Add(1, b, 10.0, 10.0);
    var m := Next(LIMITS, Init(2, 0.0), x);
    var none: seq<Entry> := [];
    assert none + [Entry(a, 0)] == [Entry(a, 0)] && none + [Entry(b, 1)] == [Entry(b, 1)];
    assert m.carried == [[Entry(a, 0)], []] && m.buffer == Buffer([], 5.0) && m.added == [Entry(a, 0)];
    s := Next(LIMITS, m, y);
    assert s.carried == [[Entry(a, 0)], [Entry(b, 1)]];
    TwoSteps(LIMITS, Init(2, 0.0), x, y);
  }

  /** Two producers can overtake each other between taking a batch and writing it. */
  lemma TwoProducersCanInvert(a: Line, b: Line)
    ensures Inverts([Add(0, a, 5.0, 5.0), Add(1, b, 10.0, 10.0), WriteBatch(1, true), WriteBatch(0, true)], a, b)
  {
    var first := [Add(0, a, 5.0, 5.0), Add(1, b, 10.0, 10.0)];
    var m := BothTake(a, b);
    var second, s := LaterBatchFirst(m, Entry(a, 0), Entry(b, 1), 0);
    RunsCompose(LIMITS, Init(2, 0.0), first, m, second, s);
    assert first + second == [Add(0, a, 5.0, 5.0), Add(1, b, 10.0, 10.0), WriteBatch(1, true), WriteBatch(0, true)];
  }

  lemma FlusherTakesBefore(a: Line, b: Line) returns (m: State, s: State)
    ensures Run(LIMITS, Init(2, 0.0), [Add(0, a, 0.0, 0.0), Flush(1, 0.0)], m)
    ensures Enabled(m, Add(0, b, 5.0, 5.0)) && s == Next(LIMITS, m, Add(0, b, 5.0, 5.0))
    ensures BothCarry(s, Entry(a, 0), Entry(b, 1), 1)
  {
    var x, y := Add(0, a, 0.0, 0.0), Flush(1, 0.0);
    var m0 := Next(LIMITS, Init(2, 0.0), x);
    assert m0.carried == [[], []] && m0.buffer == Buffer([Entry(a, 0)], 0.0) && m0.added == [Entry(a, 0)];
    m := Next(LIMITS, m0, y);
    assert m.carried == [[], [Entry(a, 0)]];
    TwoSteps(LIMITS, Init(2, 0.0), x, y);
    s := Next(LIMITS, m, Add(0, b, 5.0, 5.0));
    var none: seq<Entry> := [];
    assert none + [Entry(b, 1)] == [Entry(b, 1)];
    assert s.carried == [[Entry(b, 1)], [Entry(a, 0)]];
  }

  /** Already a single producer can be overtaken by a thread that only flushes, as the job's events do. */
  lemma ProducerAndFlusherCanInvert(a: Line, b: Line)
    ensures Inverts([Add(0, a, 0.0, 0.0), Flush(1, 0.0), Add(0, b, 5.0, 5.0), WriteBatch(0, true), WriteBatch(1, true)],
                a, b)
  {
    var first, add := [Add(0, a, 0.0, 0.0), Flush(1, 0.0)], Add(0, b, 5.0, 5.0);
    var m, s1 := FlusherTakesBefore(a, b);
    var second, s := LaterBatchFirst(s1, Entry(a, 0), Entry(b, 1), 1);
    assert ([add] + second)[1..] == second && Run(LIMITS, m, [add] + second, s);
    RunsCompose(LIMITS, Init(2, 0.0), first, m, [add] + second, s);
    assert first + ([add] + second)
        == [Add(0, a, 0.0, 0.0), Flush(1, 0.0), Add(0, b, 5.0, 5.0), WriteBatch(0, true), WriteBatch(1, true)];
  }
}
