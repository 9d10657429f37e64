/**
 Login throttling: failures per key, a lockout once the limit is reached, and the bound this puts on
 the attempts that reach password verification. Time is a real-valued monotonic clock in seconds.
 */
module LoginThrottle {
  import opened Prelude

  /** Failures so far and the end of the lockout they would cause. */
  datatype Entry = Entry(count: nat, blockedUntil: real)

  type Failures = map<string, Entry>

  predicate Blocked(e: Option<Entry>, maxFailures: nat, now: real) {
    e.Some? && e.value.count >= maxFailures && e.value.blockedUntil > now
  }

  function EntryOf(f: Failures, key: string): Option<Entry> {
    if key in f then Some(f[key]) else None
  }

  /** A lockout that has run out is forgotten; anything else is kept. */
  function Expired(e: Option<Entry>, maxFailures: nat, now: real): Option<Entry> {
    if e.Some? && e.value.count >= maxFailures && e.value.blockedUntil <= now then None else e
  }

  function Failed(e: Option<Entry>, lockout: real, now: real): Entry {
    Entry((if e.Some? then e.value.count else 0) + 1, now + lockout)
  }

  function Store(f: Failures, key: string, e: Option<Entry>): Failures {
    if e.Some? then f[key := e.value] else f - {key}
  }

  predicate IsWhole(seconds: real) {
    seconds == seconds.Floor as real
  }

  class LoginThrottle {
    const maxFailures: nat
    const lockoutSeconds: nat
    var failures: Failures

    constructor (maxFailures: nat, lockoutSeconds: nat)
      ensures this.maxFailures == maxFailures && this.lockoutSeconds == lockoutSeconds && failures == map[]
    {
      this.maxFailures := maxFailures;
      this.lockoutSeconds := lockoutSeconds;
      failures := map[];
    }

    /**
     Zero exactly when the key is not locked out. Otherwise the answer is the smallest whole number
     of seconds after which the lockout is over, and not merely reached; one second less is enough
     exactly if the time that remains is whole.
     */
    method RetryAfter(key: string, now: real) returns (wait: nat)
      modifies this
      ensures failures == Store(old(failures), key, Expired(EntryOf(old(failures), key), maxFailures, now))
      ensures wait > 0 <==> Blocked(EntryOf(old(failures), key), maxFailures, now)
      ensures wait > 0 <==>
                key in old(failures) && old(failures)[key].count >= maxFailures && old(failures)[key].blockedUntil > now
      ensures key in failures <==>
                key in old(failures) && (old(failures)[key].count < maxFailures || wait > 0)
      ensures forall k :: k in failures ==> k in old(failures) && failures[k] == old(failures)[k]
      ensures forall k :: k in old(failures) && k != key ==> k in failures
      ensures wait > 0 ==> !Blocked(EntryOf(failures, key), maxFailures, now + wait as real)
      ensures wait > 0 ==> old(failures)[key].blockedUntil >= now + (wait - 1) as real
      ensures wait > 0 ==>
                (!Blocked(EntryOf(failures, key), maxFailures, now + (wait - 1) as real) <==>
                 IsWhole(old(failures)[key].blockedUntil - now))
    {
      if key !in failures {
        assert Store(failures, key, None) == failures;
        return 0;
      }
      var entry := failures[key];
      assert Store(failures, key, Some(entry)) == failures;
      if entry.count < maxFailures {
        return 0;
      }
      var remaining := entry.blockedUntil - now;
      if remaining <= 0.0 {
        failures := failures - {key};
        return 0;
      }
      wait := remaining.Floor + 1;
    }

    method RecordFailure(key: string, now: real)
      modifies this
      ensures failures == old(failures)[key := Failed(EntryOf(old(failures), key), lockoutSeconds as real, now)]
      ensures failures[key].blockedUntil == now + lockoutSeconds as real
      ensures failures[key].count == (if key in old(failures) then old(failures)[key].count else 0) + 1
    {
      var count := if key in failures then failures[key].count else 0;
      failures := failures[key := Entry(count + 1, now + lockoutSeconds as real)];
    }

    method Reset(key: string)
      modifies this
      ensures failures == old(failures) - {key}
    {
      failures := failures - {key};
    }

    /**
     One login request for `key`: throttled, or verified and then recorded as a failure or forgotten.
     Other keys are never touched.
     */
    method Attempt(key: string, now: real, correct: bool, verifiedAt: real) returns (reached: bool)
      modifies this
      ensures reached <==> !Blocked(EntryOf(old(failures), key), maxFailures, now)
      ensures EntryOf(failures, key) == AfterAttempt(EntryOf(old(failures), key), maxFailures, lockoutSeconds as real,
                  Request(now, verifiedAt, correct))
      ensures reached <==>
                !(&& key in old(failures) && old(failures)[key].count >= maxFailures
                  && old(failures)[key].blockedUntil > now)
      ensures reached && correct ==> key !in failures
      ensures reached && !correct ==>
                key in failures && failures[key].blockedUntil == verifiedAt + lockoutSeconds as real
      ensures !reached ==> failures == old(failures)
      ensures forall k :: k != key ==> EntryOf(failures, k) == EntryOf(old(failures), k)
    {
      var wait := RetryAfter(key, now);
      if wait > 0 {
        return false;
      }
      if correct {
        Reset(key);
      } else {
        RecordFailure(key, verifiedAt);
      }
      return true;
    }
  }

  /** A request that asks at `at` and, if let through, has verified its password by `verifiedAt`. */
  datatype Request = Request(at: real, verifiedAt: real, correct: bool)

  function AfterAttempt(e: Option<Entry>, maxFailures: nat, lockout: real, a: Request): Option<Entry> {
    if Blocked(e, maxFailures, a.at) then e
    else if a.correct then None
    else Some(Failed(Expired(e, maxFailures, a.at), lockout, a.verifiedAt))
  }

  /** The attempts that reach verification, in order. */
  function Reaching(e: Option<Entry>, maxFailures: nat, lockout: real, attempts: seq<Request>): seq<Request>
    decreases |attempts|
  {
    if attempts == [] then []
    else
      (if Blocked(e, maxFailures, attempts[0].at) then [] else [attempts[0]])
      + Reaching(AfterAttempt(e, maxFailures, lockout, attempts[0]), maxFailures, lockout, attempts[1..])
  }

  /** What is remembered after the attempts. */
  function AfterAll(e: Option<Entry>, maxFailures: nat, lockout: real, attempts: seq<Request>): Option<Entry>
    decreases |attempts|
  {
    if attempts == [] then e
    else AfterAll(AfterAttempt(e, maxFailures, lockout, attempts[0]), maxFailures, lockout, attempts[1..])
  }

  lemma {:induction false} FailuresAddUp(e: Entry, max: nat, lockout: real, attempts: seq<Request>)
    requires e.count + |attempts| <= max && forall i :: 0 <= i < |attempts| ==> !attempts[i].correct
    ensures Reaching(Some(e), max, lockout, attempts) == attempts
    ensures AfterAll(Some(e), max, lockout, attempts) ==
              Some(if attempts == [] then e
                   else Entry(e.count + |attempts|, attempts[|attempts| - 1].verifiedAt + lockout))
    decreases |attempts|
  {
    if attempts != [] {
      FailuresAddUp(Entry(e.count + 1, attempts[0].verifiedAt + lockout), max, lockout, attempts[1..]);
      assert attempts == [attempts[0]] + attempts[1..];
    }
  }

  lemma FirstFailures(max: nat, lockout: real, attempts: seq<Request>)
    requires 1 <= |attempts| <= max && forall i :: 0 <= i < |attempts| ==> !attempts[i].correct
    ensures Reaching(None, max, lockout, attempts) == attempts
    ensures AfterAll(None, max, lockout, attempts) ==
              Some(Entry(|attempts|, attempts[|attempts| - 1].verifiedAt + lockout))
  {
    var first := Entry(1, attempts[0].verifiedAt + lockout);
    FailuresAddUp(first, max, lockout, attempts[1..]);
    assert attempts == [attempts[0]] + attempts[1..];
  }

  lemma NextAttempt(e: Entry, max: nat, lockout: real, next: Request)
    ensures Reaching(Some(e), max, lockout, [next]) == [next] <==> e.count < max || next.at >= e.blockedUntil
    ensures Reaching(Some(e), max, lockout, [next]) == [next] && next.correct ==>
              AfterAll(Some(e), max, lockout, [next]) == None
  {
    assert [next][1..] == [];
  }

  /**
   A key without failures may fail `max` times in a row, and each of these attempts is verified; then
   the next one is verified exactly if a full lockout has passed since the last, and a success at any
   time in between starts the count anew.
   */
  lemma LockoutBeginsExactly(max: nat, lockout: real, attempts: seq<Request>, next: Request)
    requires 1 <= |attempts| <= max && forall i :: 0 <= i < |attempts| ==> !attempts[i].correct
    ensures Reaching(None, max, lockout, attempts) == attempts
    ensures var e := AfterAll(None, max, lockout, attempts);
            && (Reaching(e, max, lockout, [next]) == [next] <==>
                 |attempts| < max || next.at >= attempts[|attempts| - 1].verifiedAt + lockout)
            && (Reaching(e, max, lockout, [next]) == [next] && next.correct ==>
                 AfterAll(e, max, lockout, [next]) == None)
  {
    FirstFailures(max, lockout, attempts);
    NextAttempt(Entry(|attempts|, attempts[|attempts| - 1].verifiedAt + lockout), max, lockout, next);
  }

  /** Attempts on one key follow one another without overlap, and none succeeds. */
  ghost predicate FailingInTurn(attempts: seq<Request>) {
    && (forall i :: 0 <= i < |attempts| ==> attempts[i].at <= attempts[i].verifiedAt && !attempts[i].correct)
    && (forall i, k :: 0 <= i < k < |attempts| ==> attempts[i].verifiedAt <= attempts[k].at)
  }

  /** An attempt comes a full lockout after any that lies `max` or more places before it was verified. */
  ghost predicate SpacedByLockout(xs: seq<Request>, max: nat, lockout: real) {
    forall i, k :: 0 <= i && i + max <= k < |xs| ==> xs[k].at >= xs[i].verifiedAt + lockout
  }

  /**
   The throttle's entry after the attempts in `past`: the last `count` of them make up the current
   round, which began a full lockout after the previous round ended.
   */
  ghost predicate Counts(e: Option<Entry>, past: seq<Request>, max: nat, lockout: real) {
    match e
    case None => past == []
    case Some(entry) =>
      && 1 <= entry.count <= max && entry.count <= |past|
      && entry.blockedUntil == past[|past| - 1].verifiedAt + lockout
      && var start := |past| - entry.count;
         start > 0 ==> past[start].at >= past[start - 1].verifiedAt + lockout
  }

  /** Whoever was verified `max` or more attempts ago was verified a full lockout ago. */
  lemma OldRoundsAreOver(e: Entry, past: seq<Request>, a: Request, max: nat, lockout: real, i: nat)
    requires FailingInTurn(past + [a]) && Counts(Some(e), past, max, lockout) && !Blocked(Some(e), max, a.at)
    requires i + max <= |past|
    ensures a.at >= past[i].verifiedAt + lockout
  {
    var n, all, start := |past|, past + [a], |past| - e.count;
    assert all[n] == a && all[i] == past[i] && all[n - 1] == past[n - 1];
    if e.count == max {
      assert past[i].verifiedAt <= past[n - 1].verifiedAt;
    } else {
      assert all[start] == past[start] && all[start - 1] == past[start - 1];
      assert past[i].verifiedAt <= past[start - 1].verifiedAt;
    }
  }

  /** One more attempt that is let through keeps the spacing ... */
  lemma LetThroughKeepsSpacing(e: Option<Entry>, past: seq<Request>, a: Request, max: nat, lockout: real)
    requires max > 0 && FailingInTurn(past + [a]) && SpacedByLockout(past, max, lockout)
              && Counts(e, past, max, lockout)
    requires !Blocked(e, max, a.at)
    ensures SpacedByLockout(past + [a], max, lockout)
  {
    var all := past + [a];
    forall i, k | 0 <= i && i + max <= k < |all|
      ensures all[k].at >= all[i].verifiedAt + lockout
    {
      if k == |past| {
        OldRoundsAreOver(e.value, past, a, max, lockout, i);
      }
    }
  }

  /** ... and the count. */
  lemma LetThroughCounts(e: Option<Entry>, past: seq<Request>, a: Request, max: nat, lockout: real)
    requires max > 0 && !a.correct && Counts(e, past, max, lockout) && !Blocked(e, max, a.at)
    ensures Counts(AfterAttempt(e, max, lockout, a), past + [a], max, lockout)
  {
    var e' := AfterAttempt(e, max, lockout, a);
    assert (past + [a])[|past|] == a;
    if e.Some? && e.value.count < max {
      assert e'.value.count == e.value.count + 1;
    } else {
      assert e'.value.count == 1;
    }
  }

  lemma FailingParts(past: seq<Request>, a: Request, rest: seq<Request>)
    requires FailingInTurn(past) && FailingInTurn([a] + rest)
    requires past != [] ==> past[|past| - 1].verifiedAt <= a.at
    ensures FailingInTurn(rest) && FailingInTurn(past + [a])
    ensures rest != [] ==> a.verifiedAt <= rest[0].at
    ensures past != [] && rest != [] ==> past[|past| - 1].verifiedAt <= rest[0].at
  {
    var all := [a] + rest;
    assert all[0] == a && forall i :: 0 <= i < |rest| ==> rest[i] == all[i + 1];
    forall i | 0 <= i < |past| ensures past[i].verifiedAt <= a.at {
      assert past[i].verifiedAt <= past[|past| - 1].verifiedAt;
    }
  }

  /** The attempt that is let through joins the past. */
  lemma LetThroughJoinsPast(
    e: Option<Entry>, past: seq<Request>, a: Request, rest: seq<Request>, max: nat, lockout: real)
    requires max > 0 && FailingInTurn([a] + rest) && FailingInTurn(past) && SpacedByLockout(past, max, lockout)
    requires Counts(e, past, max, lockout) && !Blocked(e, max, a.at)
    requires past != [] ==> past[|past| - 1].verifiedAt <= a.at
    ensures FailingInTurn(rest) && FailingInTurn(past + [a]) && SpacedByLockout(past + [a], max, lockout)
    ensures Counts(AfterAttempt(e, max, lockout, a), past + [a], max, lockout)
    ensures rest != [] ==> a.verifiedAt <= rest[0].at
  {
    assert ([a] + rest)[0] == a;
    FailingParts(past, a, rest);
    LetThroughKeepsSpacing(e, past, a, max, lockout);
    LetThroughCounts(e, past, a, max, lockout);
  }

  /** `all` is what has reached verification in the past, followed by what will. */
  lemma {:induction false} ReachingIsSpaced(
    e: Option<Entry>, past: seq<Request>, attempts: seq<Request>, max: nat, lockout: real, all: seq<Request>)
    requires max > 0 && FailingInTurn(attempts) && FailingInTurn(past) && SpacedByLockout(past, max, lockout)
    requires Counts(e, past, max, lockout)
    requires past != [] && attempts != [] ==> past[|past| - 1].verifiedAt <= attempts[0].at
    requires all == past + Reaching(e, max, lockout, attempts)
    ensures SpacedByLockout(all, max, lockout) && FailingInTurn(all)
    decreases |attempts|
  {
    if attempts == [] {
      assert all == past;
    } else {
      var a, rest := attempts[0], attempts[1..];
      assert attempts == [a] + rest;
      if Blocked(e, max, a.at) {
        FailingParts(past, a, rest);
        assert all == past + Reaching(e, max, lockout, rest);
        ReachingIsSpaced(e, past, rest, max, lockout, all);
      } else {
        var e' := AfterAttempt(e, max, lockout, a);
        LetThroughJoinsPast(e, past, a, rest, max, lockout);
        assert all == past + [a] + Reaching(e', max, lockout, rest);
        ReachingIsSpaced(e', past + [a], rest, max, lockout, all);
      }
    }
  }

  lemma ReachingFromNothing(attempts: seq<Request>, max: nat, lockout: real)
    requires max > 0 && FailingInTurn(attempts)
    ensures var reached := Reaching(None, max, lockout, attempts);
            SpacedByLockout(reached, max, lockout) && FailingInTurn(reached)
  {
    var reached := Reaching(None, max, lockout, attempts);
    ReachingIsSpaced(None, [], attempts, max, lockout, reached);
  }

  lemma OneRoundTakesLockout(xs: seq<Request>, max: nat, lockout: real, k: nat)
    requires FailingInTurn(xs) && SpacedByLockout(xs, max, lockout) && k + max < |xs|
    ensures xs[k + max].at >= xs[k].at + lockout
  {
    assert xs[k + max].at >= xs[k].verifiedAt + lockout;
  }

  lemma OneMoreRound(rounds: nat, max: nat, lockout: real)
    requires rounds > 0
    ensures (rounds - 1) * max + max == rounds * max && (rounds - 1) * max >= 0
    ensures rounds as real * lockout == (rounds - 1) as real * lockout + lockout
  {}

  lemma {:induction false} RoundsTakeTime(xs: seq<Request>, max: nat, lockout: real, i: nat, rounds: nat)
    requires max > 0 && FailingInTurn(xs) && SpacedByLockout(xs, max, lockout) && i + rounds * max < |xs|
    ensures xs[i + rounds * max].at >= xs[i].at + rounds as real * lockout
    decreases rounds
  {
    if rounds > 0 {
      OneMoreRound(rounds, max, lockout);
      RoundsTakeTime(xs, max, lockout, i, rounds - 1);
      OneRoundTakesLockout(xs, max, lockout, i + (rounds - 1) * max);
    }
  }

  lemma WindowBound(xs: seq<Request>, max: nat, lockout: real, span: real, i: nat, j: nat)
    requires max > 0 && lockout > 0.0 && FailingInTurn(xs) && SpacedByLockout(xs, max, lockout)
    requires i <= j < |xs| && xs[i].at <= xs[j].at <= xs[i].at + span
    ensures j - i + 1 <= max * ((span / lockout).Floor + 1)
  {
    FloorIsNatural(span, lockout);
    TooManyDoNotFit(xs, max, lockout, span, i, j, (span / lockout).Floor + 1);
  }

  lemma FloorIsNatural(a: real, d: real)
    requires a >= 0.0 && d > 0.0
    ensures (a / d).Floor >= 0
  {
    assert a / d >= 0.0;
  }

  lemma TooManyDoNotFit(xs: seq<Request>, max: nat, lockout: real, span: real, i: nat, j: nat, rounds: nat)
    requires max > 0 && lockout > 0.0 && FailingInTurn(xs) && SpacedByLockout(xs, max, lockout)
    requires i <= j < |xs| && xs[j].at <= xs[i].at + span && rounds > (span / lockout).Floor
    ensures j < i + rounds * max
  {
    if i + rounds * max <= j {
      RoundsTakeTime(xs, max, lockout, i, rounds);
      MoreThanAWindow(rounds, lockout, span);
    }
  }

  /**
   For one key, over any run of failing attempts that do not overlap: those that reach password
   verification within any window of length `span` number at most max * (floor(span / lockout) + 1).
   */
  lemma VerificationsAreBounded(attempts: seq<Request>, max: nat, lockout: real, from: real, span: real, i: nat, j: nat)
    requires max > 0 && lockout > 0.0 && FailingInTurn(attempts)
    requires var reached := Reaching(None, max, lockout, attempts);
             i <= j < |reached| && from <= reached[i].at && reached[j].at <= from + span
    ensures j - i + 1 <= max * ((span / lockout).Floor + 1)
  {
    var reached := Reaching(None, max, lockout, attempts);
    ReachingFromNothing(attempts, max, lockout);
    assert reached[i].at <= reached[j].at;
    WindowBound(reached, max, lockout, span, i, j);
  }

  lemma MoreThanAWindow(rounds: int, lockout: real, span: real)
    requires lockout > 0.0 && rounds > (span / lockout).Floor
    ensures rounds as real * lockout > span
  {
    var q := span / lockout;
    assert rounds as real > q;
    assert q * lockout == span;
    RealMulKeepsOrder(q, rounds as real, lockout);
  }

  lemma RealMulKeepsOrder(a: real, b: real, d: real)
    requires a < b && d > 0.0
    ensures a * d < b * d
  {
    assert (b - a) * d > 0.0;
  }
}
