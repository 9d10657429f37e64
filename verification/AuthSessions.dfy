/**
 Login sessions: lookup, revocation, and the periodic purge of rows that can no longer be used. The
 purge cannot be observed through lookups, as long as no token hash is ever created twice.
 */
module AuthSessions {
  import opened Prelude
  import opened Timestamps

  datatype Session = Session(user: nat, expiresAt: string, revoked: bool)

  type Table = map<string, Session>

  /** `revoked = 0 AND expires_at > now`; the purge deletes exactly the rows for which this fails. */
  predicate Usable(s: Session, now: string) {
    !s.revoked && Less(now, s.expiresAt)
  }

  function Get(t: Table, token: string, now: DateTime): Option<Session> {
    if token in t && Usable(t[token], Stored(now)) then Some(t[token]) else None
  }

  /** `token_hash` is UNIQUE: inserting it again raises and changes nothing. */
  function Create(t: Table, token: string, user: nat, expiresAt: DateTime): Table {
    if token in t then t else t[token := Session(user, Stored(expiresAt), false)]
  }

  function Revoke(t: Table, token: string): Table {
    if token in t then t[token := t[token].(revoked := true)] else t
  }

  function Purge(t: Table, now: DateTime): Table {
    map token | token in t && Usable(t[token], Stored(now)) :: t[token]
  }

  class SessionStore {
    var sessions: Table

    constructor ()
      ensures sessions == map[]
    {
      sessions := map[];
    }

    method CreateAuthSession(token: string, user: nat, expiresAt: DateTime) returns (created: bool)
      modifies this
      ensures created <==> token !in old(sessions)
      ensures sessions == Create(old(sessions), token, user, expiresAt)
      ensures token in sessions && forall other :: other != token ==>
                (other in sessions <==> other in old(sessions))
                  && (other in sessions ==> sessions[other] == old(sessions)[other])
      ensures if created then sessions[token] == Session(user, Stored(expiresAt), false)
              else sessions[token] == old(sessions)[token]
    {
      created := token !in sessions;
      if created {
        sessions := sessions[token := Session(user, Stored(expiresAt), false)];
      }
    }

    method GetAuthSession(token: string, now: DateTime) returns (session: Option<Session>)
      ensures session == Get(sessions, token, now)
      ensures session.Some? <==>
                token in sessions && !sessions[token].revoked && Less(Stored(now), sessions[token].expiresAt)
      ensures session.Some? ==> session.value == sessions[token]
    {
      if token in sessions && !sessions[token].revoked && Less(Stored(now), sessions[token].expiresAt) {
        session := Some(sessions[token]);
      } else {
        session := None;
      }
    }

    method RevokeAuthSession(token: string)
      modifies this
      ensures sessions == Revoke(old(sessions), token)
      ensures sessions.Keys == old(sessions).Keys && (token in sessions ==> sessions[token].revoked)
      ensures forall other :: other in sessions ==>
                && sessions[other].user == old(sessions)[other].user
                && sessions[other].expiresAt == old(sessions)[other].expiresAt
                && (other != token ==> sessions[other].revoked == old(sessions)[other].revoked)
    {
      if token in sessions {
        sessions := sessions[token := sessions[token].(revoked := true)];
      }
    }

    method PurgeExpiredAuthSessions(now: DateTime) returns (deleted: nat)
      modifies this
      ensures sessions == Purge(old(sessions), now)
      ensures forall token :: token in old(sessions) ==>
                (token !in sessions <==>
                 old(sessions)[token].revoked || !Less(Stored(now), old(sessions)[token].expiresAt))
      ensures forall token :: token in sessions ==> token in old(sessions) && sessions[token] == old(sessions)[token]
      ensures deleted == |old(sessions)| - |sessions|
    {
      var gone := set token | token in sessions
        && (sessions[token].revoked || !Less(Stored(now), sessions[token].expiresAt));
      deleted := |gone|;
      RemovalCounts(sessions, gone);
      sessions := sessions - gone;
    }
  }

  lemma RemovalCounts(t: Table, gone: set<string>)
    requires gone <= t.Keys
    ensures |t - gone| == |t| - |gone|
  {
    assert (t - gone).Keys == t.Keys - gone;
  }

  // ----- the purge is unobservable -----

  datatype Op =
    | DoCreate(token: string, user: nat, expiresAt: DateTime)
    | DoRevoke(token: string)
    | DoPurge(now: DateTime)
    | DoGet(token: string, now: DateTime)

  /** The table after `op`; with `purging == false` the purges do nothing. */
  function After(t: Table, op: Op, purging: bool): Table {
    match op
    case DoCreate(token, user, expiresAt) => Create(t, token, user, expiresAt)
    case DoRevoke(token) => Revoke(t, token)
    case DoPurge(now) => if purging then Purge(t, now) else t
    case DoGet(_, _) => t
  }

  /** Everything that lookups answer along the run. */
  function Answers(t: Table, ops: seq<Op>, purging: bool): seq<Option<Session>>
    decreases |ops|
  {
    if ops == [] then []
    else (if ops[0].DoGet? then [Get(t, ops[0].token, ops[0].now)] else [])
         + Answers(After(t, ops[0], purging), ops[1..], purging)
  }

  // ----- a revocation is final -----

  /** Every lookup of the token along the run answers None. */
  ghost predicate Denied(t: Table, token: string, ops: seq<Op>, purging: bool)
    decreases |ops|
  {
    ops == []
    || (&& (ops[0].DoGet? && ops[0].token == token ==> Get(t, token, ops[0].now).None?)
        && Denied(After(t, ops[0], purging), token, ops[1..], purging))
  }

  ghost predicate NeverCreates(ops: seq<Op>, token: string) {
    forall k :: 0 <= k < |ops| ==> !(ops[k].DoCreate? && ops[k].token == token)
  }

  predicate IsShutOut(t: Table, token: string) {
    token !in t || t[token].revoked
  }

  lemma {:induction false} ShutOutIsDenied(t: Table, token: string, ops: seq<Op>, purging: bool)
    requires IsShutOut(t, token) && ((token in t && !purging) || NeverCreates(ops, token))
    ensures Denied(t, token, ops, purging) && IsShutOut(AfterAll(t, ops, purging), token)
    decreases |ops|
  {
    if ops != [] {
      assert NeverCreates(ops, token) ==> NeverCreates(ops[1..], token) && !(ops[0].DoCreate? && ops[0].token == token);
      ShutOutIsDenied(After(t, ops[0], purging), token, ops[1..], purging);
    }
  }

  function AfterAll(t: Table, ops: seq<Op>, purging: bool): Table
    decreases |ops|
  {
    if ops == [] then t else AfterAll(After(t, ops[0], purging), ops[1..], purging)
  }

  /**
   After a revocation every lookup of the token answers None: whatever follows, if nothing is purged,
   and otherwise until the token is created again.
   */
  lemma RevocationIsFinal(t: Table, token: string, ops: seq<Op>, purging: bool)
    requires token in t && (purging ==> NeverCreates(ops, token))
    ensures Denied(After(t, DoRevoke(token), purging), token, ops, purging)
  {
    ShutOutIsDenied(After(t, DoRevoke(token), purging), token, ops, purging);
  }

  /** Until a session expires or is revoked or its token purged, its lookups find it. */
  lemma {:induction false} LiveSessionIsFound(t: Table, token: string, ops: seq<Op>, purging: bool, now: DateTime)
    requires token in t && !t[token].revoked && Less(Stored(now), t[token].expiresAt)
    requires forall k :: 0 <= k < |ops| ==> ops[k] != DoRevoke(token)
    requires forall k :: 0 <= k < |ops| && ops[k].DoPurge? ==> Less(Stored(ops[k].now), t[token].expiresAt)
    ensures Get(AfterAll(t, ops, purging), token, now) == Some(t[token])
    decreases |ops|
  {
    if ops != [] {
      assert ops[0] != DoRevoke(token);
      assert After(t, ops[0], purging)[token] == t[token];
      LiveSessionIsFound(After(t, ops[0], purging), token, ops[1..], purging, now);
    }
  }

  predicate Timed(op: Op) {
    op.DoPurge? || op.DoGet?
  }

  /** The clock does not run backwards. */
  ghost predicate Timely(clock: DateTime, ops: seq<Op>)
    decreases |ops|
  {
    ops == []
    || (&& (Timed(ops[0]) ==> Valid(ops[0].now) && !Before(ops[0].now, clock))
        && Timely(if Timed(ops[0]) then ops[0].now else clock, ops[1..]))
  }

  /** Tokens are created at most once. */
  ghost predicate CreatedOnce(used: set<string>, ops: seq<Op>)
    decreases |ops|
  {
    ops == []
    || (&& (ops[0].DoCreate? ==> ops[0].token !in used)
        && CreatedOnce(if ops[0].DoCreate? then used + {ops[0].token} else used, ops[1..]))
  }

  predicate UsableIn(t: Table, token: string, clock: DateTime) {
    token in t && Usable(t[token], Stored(clock))
  }

  /** The tables hold the same rows, but for rows that are unusable from `clock` on; the purged one has no others. */
  ghost predicate Agree(full: Table, purged: Table, clock: DateTime) {
    forall token ::
      && (token in purged ==> token in full)
      && (UsableIn(full, token, clock) || UsableIn(purged, token, clock) ==>
           token in purged && full[token] == purged[token])
  }

  /** The token belongs to a row that only the purged table has lost, and the new row could be used. */
  predicate Noticed(full: Table, purged: Table, clock: DateTime, op: Op) {
    && op.DoCreate? && op.token in full && op.token !in purged
    && Usable(Session(op.user, Stored(op.expiresAt), false), Stored(clock))
  }

  /**
   A create keeps the tables in agreement exactly if it does not reuse the token of a purged row, or
   makes a row that is unusable already; otherwise the next lookup tells the tables apart.
   */
  lemma CreateKeepsAgreementExactly(full: Table, purged: Table, clock: DateTime, op: Op)
    requires Agree(full, purged, clock) && op.DoCreate?
    ensures Agree(After(full, op, false), After(purged, op, true), clock) <==> !Noticed(full, purged, clock, op)
    ensures Noticed(full, purged, clock, op) ==>
              Get(After(full, op, false), op.token, clock).None? && Get(After(purged, op, true), op.token, clock).Some?
  {
    var full', purged' := After(full, op, false), After(purged, op, true);
    if Noticed(full, purged, clock, op) {
      assert UsableIn(purged', op.token, clock) && !UsableIn(full, op.token, clock);
    }
  }

  /** No create along the run is noticed. */
  ghost predicate Unnoticed(full: Table, purged: Table, clock: DateTime, ops: seq<Op>)
    decreases |ops|
  {
    ops == []
    || (&& !Noticed(full, purged, clock, ops[0])
        && Unnoticed(After(full, ops[0], false), After(purged, ops[0], true),
                     if Timed(ops[0]) then ops[0].now else clock, ops[1..]))
  }

  lemma StaysUnusable(s: Session, earlier: DateTime, later: DateTime)
    requires Valid(earlier) && Valid(later) && !Before(later, earlier) && !Usable(s, Stored(earlier))
    ensures !Usable(s, Stored(later))
  {
    if !s.revoked {
      LaterIsNotLess(earlier, later);
      LessIsATotalOrder(s.expiresAt, Stored(earlier), Stored(later));
    }
  }

  lemma AgreementAges(full: Table, purged: Table, earlier: DateTime, later: DateTime)
    requires Agree(full, purged, earlier) && Valid(earlier) && Valid(later) && !Before(later, earlier)
    ensures Agree(full, purged, later)
  {
    forall token: string
      ensures UsableIn(full, token, later) ==> UsableIn(full, token, earlier)
      ensures UsableIn(purged, token, later) ==> UsableIn(purged, token, earlier)
    {
      if token in full && !Usable(full[token], Stored(earlier)) {
        StaysUnusable(full[token], earlier, later);
      }
      if token in purged && !Usable(purged[token], Stored(earlier)) {
        StaysUnusable(purged[token], earlier, later);
      }
    }
  }

  lemma StepKeepsAgreement(full: Table, purged: Table, clock: DateTime, op: Op)
    requires Agree(full, purged, clock) && !Noticed(full, purged, clock, op)
    requires op.DoPurge? ==> op.now == clock
    ensures Agree(After(full, op, false), After(purged, op, true), clock)
  {
    if op.DoCreate? {
      CreateKeepsAgreementExactly(full, purged, clock, op);
    }
  }

  /** As long as no create is noticed, every lookup answers the same with and without the purges. */
  lemma {:induction false} PurgingIsUnobservable(full: Table, purged: Table, clock: DateTime, ops: seq<Op>)
    requires Valid(clock) && Agree(full, purged, clock) && Timely(clock, ops) && Unnoticed(full, purged, clock, ops)
    ensures Answers(purged, ops, true) == Answers(full, ops, false)
    decreases |ops|
  {
    if ops != [] {
      var op := ops[0];
      var clock' := if Timed(op) then op.now else clock;
      if Timed(op) {
        AgreementAges(full, purged, clock, clock');
      }
      StepKeepsAgreement(full, purged, clock', op);
      if op.DoGet? {
        assert UsableIn(full, op.token, clock') || UsableIn(purged, op.token, clock') ==>
          full[op.token] == purged[op.token];
      }
      PurgingIsUnobservable(After(full, op, false), After(purged, op, true), clock', ops[1..]);
    }
  }

  lemma {:induction false} CreatedOnceIsUnnoticed(
    full: Table, purged: Table, clock: DateTime, used: set<string>, ops: seq<Op>)
    requires full.Keys <= used && CreatedOnce(used, ops)
    ensures Unnoticed(full, purged, clock, ops)
    decreases |ops|
  {
    if ops != [] {
      var op := ops[0];
      CreatedOnceIsUnnoticed(After(full, op, false), After(purged, op, true), if Timed(op) then op.now else clock,
                             if op.DoCreate? then used + {op.token} else used, ops[1..]);
    }
  }

  /** In particular, with tokens that are created at most once, from an empty table. */
  lemma PurgeIsInvisible(clock: DateTime, ops: seq<Op>)
    requires Valid(clock) && Timely(clock, ops) && CreatedOnce({}, ops)
    ensures Answers(map[], ops, true) == Answers(map[], ops, false)
  {
    CreatedOnceIsUnnoticed(map[], map[], clock, {}, ops);
    PurgingIsUnobservable(map[], map[], clock, ops);
  }

  /** With a token hash created a second time the purge does show: it makes room for the second row. */
  lemma ReusedTokenRevealsPurge(user: nat, t0: DateTime, t1: DateTime)
    requires Valid(t0) && Valid(t1) && Before(Truncated(t0), Truncated(t1))
    ensures var ops := [DoCreate("a", user, t0), DoPurge(t0), DoCreate("a", user, t1), DoGet("a", t0)];
            Answers(map[], ops, true) == [Some(Session(user, Stored(t1), false))]
              && Answers(map[], ops, false) == [None]
  {
    StoredOrderIsTimeOrder(t0, t1);
    StoredOrderIsTimeOrder(t0, t0);
    var ops := [DoCreate("a", user, t0), DoPurge(t0), DoCreate("a", user, t1), DoGet("a", t0)];
    var first, second := Session(user, Stored(t0), false), Session(user, Stored(t1), false);
    assert After(map[], ops[0], true) == map["a" := first];
    assert Purge(map["a" := first], t0) == map[];
    assert Answers(map["a" := second], ops[3..], true) == [Some(second)];
    assert Answers(map[], ops[2..], true) == [Some(second)];
    assert Answers(map["a" := first], ops[1..], true) == [Some(second)];
    assert Answers(map["a" := first], ops[3..], false) == [None];
    assert Answers(map["a" := first], ops[2..], false) == [None];
    assert Answers(map["a" := first], ops[1..], false) == [None];
  }
}
