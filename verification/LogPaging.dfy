/**
 Reading job logs back: ascending pages, incremental pages after a known id, and the tail. A client
 that keeps asking for what follows the last id it has seen gets every row exactly once, but for
 those that become visible only when it has passed their ids.
 */
module LogPaging {
  import opened Prelude

  datatype LogRow = LogRow(id: nat, job: nat, message: string)

  /** Ids come from AUTOINCREMENT: rows are kept in the order of their ids. */
  ghost predicate Ordered(rows: seq<LogRow>) {
    forall i, k :: 0 <= i < k < |rows| ==> rows[i].id < rows[k].id
  }

  /** `WHERE job_id = ? AND id > ? ORDER BY id ASC`, before the LIMIT. */
  function After(rows: seq<LogRow>, job: nat, since: int): seq<LogRow> {
    if rows == [] then []
    else
      var r := rows[|rows| - 1];
      After(rows[..|rows| - 1], job, since) + (if r.job == job && r.id > since then [r] else [])
  }

  function Take(rows: seq<LogRow>, limit: nat): seq<LogRow> {
    if limit <= |rows| then rows[..limit] else rows
  }

  function Reversed(rows: seq<LogRow>): seq<LogRow> {
    if rows == [] then [] else Reversed(rows[1..]) + [rows[0]]
  }

  /** Every row of the job: no row has an id below zero. */
  function OfJob(rows: seq<LogRow>, job: nat): seq<LogRow> {
    After(rows, job, -1)
  }

  lemma {:induction false} AfterIsExact(rows: seq<LogRow>, job: nat, since: int)
    requires Ordered(rows)
    ensures Ordered(After(rows, job, since))
    ensures forall r :: r in After(rows, job, since) <==> r in rows && r.job == job && r.id > since
    decreases |rows|
  {
    if rows != [] {
      var init, last := rows[..|rows| - 1], rows[|rows| - 1];
      AfterIsExact(init, job, since);
      assert rows == init + [last];
      var head := After(init, job, since);
      assert forall i :: 0 <= i < |head| ==> head[i] in head;
    }
  }

  lemma {:induction false} AfterAppends(rows: seq<LogRow>, more: seq<LogRow>, job: nat, since: int)
    ensures After(rows + more, job, since) == After(rows, job, since) + After(more, job, since)
    decreases |more|
  {
    if more == [] {
      assert rows + more == rows;
    } else {
      var init, last := more[..|more| - 1], more[|more| - 1];
      AfterAppends(rows, init, job, since);
      assert (rows + more)[..|rows + more| - 1] == rows + init;
    }
  }

  lemma {:induction false} AfterKeepsNothing(rows: seq<LogRow>, job: nat, since: int)
    requires forall i :: 0 <= i < |rows| ==> rows[i].id <= since
    ensures After(rows, job, since) == []
    decreases |rows|
  {
    if rows != [] {
      AfterKeepsNothing(rows[..|rows| - 1], job, since);
    }
  }

  lemma {:induction false} AfterKeepsAll(rows: seq<LogRow>, job: nat, since: int)
    requires forall i :: 0 <= i < |rows| ==> rows[i].job == job && rows[i].id > since
    ensures After(rows, job, since) == rows
    decreases |rows|
  {
    if rows != [] {
      AfterKeepsAll(rows[..|rows| - 1], job, since);
      assert rows == rows[..|rows| - 1] + [rows[|rows| - 1]];
    }
  }

  lemma {:induction false} AfterFiltersTwice(rows: seq<LogRow>, job: nat, since: int)
    requires since >= -1
    ensures After(rows, job, since) == After(OfJob(rows, job), job, since)
    decreases |rows|
  {
    if rows != [] {
      var init, last := rows[..|rows| - 1], rows[|rows| - 1];
      AfterFiltersTwice(init, job, since);
      if last.job == job {
        assert OfJob(rows, job) == OfJob(init, job) + [last];
        AfterAppends(OfJob(init, job), [last], job, since);
        assert [last][..0] == [] && After([last], job, since) == if last.id > since then [last] else [];
      } else {
        assert OfJob(rows, job) == OfJob(init, job) && After(rows, job, since) == After(init, job, since);
      }
    }
  }

  lemma HalvesAfter(lo: seq<LogRow>, hi: seq<LogRow>, job: nat, since: int)
    requires forall i :: 0 <= i < |lo| ==> lo[i].id <= since
    requires forall i :: 0 <= i < |hi| ==> hi[i].job == job && hi[i].id > since
    ensures After(lo + hi, job, since) == hi
  {
    AfterAppends(lo, hi, job, since);
    AfterKeepsNothing(lo, job, since);
    AfterKeepsAll(hi, job, since);
  }

  lemma OrderedSplits(all: seq<LogRow>, job: nat, k: nat)
    requires Ordered(all) && 0 < k <= |all| && forall i :: 0 <= i < |all| ==> all[i].job == job
    ensures After(all, job, all[k - 1].id) == all[k..]
  {
    var since := all[k - 1].id;
    var lo, hi := all[..k], all[k..];
    forall i | 0 <= i < |lo| ensures lo[i].id <= since {
      assert lo[i] == all[i];
    }
    forall i | 0 <= i < |hi| ensures hi[i].job == job && hi[i].id > since {
      assert hi[i] == all[k + i];
    }
    HalvesAfter(lo, hi, job, since);
    assert all == lo + hi;
  }

  /** Rows up to an id, then rows after it: the two parts make up all rows of the job. */
  lemma SplitAt(rows: seq<LogRow>, job: nat, k: nat)
    requires Ordered(rows) && 0 < k <= |OfJob(rows, job)|
    ensures After(rows, job, OfJob(rows, job)[k - 1].id) == OfJob(rows, job)[k..]
  {
    var all := OfJob(rows, job);
    AfterIsExact(rows, job, -1);
    assert forall i :: 0 <= i < |all| ==> all[i] in all;
    AfterFiltersTwice(rows, job, all[k - 1].id);
    OrderedSplits(all, job, k);
  }

  lemma {:induction false} ReversedAt(rows: seq<LogRow>)
    ensures |Reversed(rows)| == |rows|
    ensures forall k :: 0 <= k < |rows| ==> Reversed(rows)[k] == rows[|rows| - 1 - k]
    decreases |rows|
  {
    if rows != [] {
      ReversedAt(rows[1..]);
    }
  }

  class JobLogTable {
    var rows: seq<LogRow>

    ghost predicate Valid()
      reads this
    {
      Ordered(rows)
    }

    constructor ()
      ensures Valid() && rows == []
    {
      rows := [];
    }

    method Append(job: nat, message: string) returns (id: nat)
      requires Valid()
      modifies this
      ensures Valid() && rows == old(rows) + [LogRow(id, job, message)]
    {
      id := if |rows| == 0 then 1 else rows[|rows| - 1].id + 1;
      rows := rows + [LogRow(id, job, message)];
    }

    /** The three queries: incremental, newest first and turned round, or from the start. */
    method ListPipelineJobLogs(job: nat, limit: nat, since: Option<nat>, tail: bool) returns (page: seq<LogRow>)
      ensures since.Some? ==> page == Take(After(rows, job, since.value), limit)
      ensures since.None? && !tail ==> page == Take(OfJob(rows, job), limit)
      ensures since.None? && tail ==>
                var all := OfJob(rows, job);
                page == all[if limit < |all| then |all| - limit else 0..]
    {
      if since.Some? {
        page := FirstAfter(job, limit, since.value);
      } else if tail {
        page := Newest(job, limit);
      } else {
        page := FirstAfter(job, limit, -1);
      }
    }

    method FirstAfter(job: nat, limit: nat, from: int) returns (page: seq<LogRow>)
      ensures page == Take(After(rows, job, from), limit)
    {
      page := [];
      var i := 0;
      while i < |rows| && |page| < limit
        invariant 0 <= i <= |rows| && |page| <= limit
        invariant page == After(rows[..i], job, from)
      {
        assert rows[..i + 1][..i] == rows[..i];
        if rows[i].job == job && rows[i].id > from {
          page := page + [rows[i]];
        }
        i := i + 1;
      }
      assert rows == rows[..i] + rows[i..];
      AfterAppends(rows[..i], rows[i..], job, from);
      assert i == |rows| ==> rows[i..] == [];
    }

    method Newest(job: nat, limit: nat) returns (page: seq<LogRow>)
      ensures var all := OfJob(rows, job);
              page == all[if limit < |all| then |all| - limit else 0..]
    {
      var found: seq<LogRow> := [];
      var i := |rows|;
      while i > 0 && |found| < limit
        invariant 0 <= i <= |rows| && |found| <= limit
        invariant Reversed(found) == OfJob(rows[i..], job) && |Reversed(found)| == |found|
      {
        i := i - 1;
        assert rows[i..] == [rows[i]] + rows[i + 1..];
        AfterAppends([rows[i]], rows[i + 1..], job, -1);
        assert [rows[i]][..0] == [];
        if rows[i].job == job {
          ReversedSnoc(found, rows[i]);
          found := found + [rows[i]];
        }
      }
      page := Reversed(found);
      assert rows == rows[..i] + rows[i..];
      AfterAppends(rows[..i], rows[i..], job, -1);
      assert i == 0 ==> rows[..i] == [];
    }
  }

  lemma {:induction false} ReversedSnoc(rows: seq<LogRow>, r: LogRow)
    ensures Reversed(rows + [r]) == [r] + Reversed(rows)
    decreases |rows|
  {
    if rows != [] {
      ReversedSnoc(rows[1..], r);
      assert (rows + [r])[1..] == rows[1..] + [r];
    } else {
      assert Reversed([r]) == Reversed([]) + [r];
    }
  }

  // ----- an incremental client while rows keep arriving -----

  /** A row that becomes visible, at the place that its id has among the others. */
  function Inserted(rows: seq<LogRow>, row: LogRow): seq<LogRow> {
    if rows == [] || rows[|rows| - 1].id < row.id then rows + [row]
    else Inserted(rows[..|rows| - 1], row) + [rows[|rows| - 1]]
  }

  datatype Event = Arrive(row: LogRow) | Ask(limit: nat)

  /** `cursor` is the last id seen; the first question asks for everything after id 0. */
  datatype Session = Session(rows: seq<LogRow>, cursor: nat, seen: seq<LogRow>)

  function Advance(s: Session, job: nat, e: Event): Session {
    match e
    case Arrive(row) => s.(rows := Inserted(s.rows, row))
    case Ask(limit) =>
      var page := Take(After(s.rows, job, s.cursor), limit);
      if page == [] then s else s.(cursor := page[|page| - 1].id, seen := s.seen + page)
  }

  function AdvanceAll(s: Session, job: nat, events: seq<Event>): Session
    decreases |events|
  {
    if events == [] then s else AdvanceAll(Advance(s, job, events[0]), job, events[1..])
  }

  /** Every arriving row has a larger id than all rows before it. */
  ghost predicate Growing(rows: seq<LogRow>, events: seq<Event>)
    decreases |events|
  {
    events == []
    || (if events[0].Arrive? then
          Ordered(rows + [events[0].row]) && events[0].row.id > 0 && Growing(rows + [events[0].row], events[1..])
        else Growing(rows, events[1..]))
  }

  /** What has been seen is exactly the first so many rows of the job, and the cursor marks the last of them. */
  ghost predicate Faithful(s: Session, job: nat) {
    var all := OfJob(s.rows, job);
    && Ordered(s.rows) && (forall r :: r in s.rows ==> r.id > 0)
    && |s.seen| <= |all| && s.seen == all[..|s.seen|]
    && s.cursor == (if s.seen == [] then 0 else all[|s.seen| - 1].id)
  }

  /** What follows the cursor is what has not been seen. */
  lemma CursorSplits(s: Session, job: nat)
    requires Faithful(s, job)
    ensures After(s.rows, job, s.cursor) == OfJob(s.rows, job)[|s.seen|..]
  {
    if s.seen == [] {
      FromZero(s.rows, job);
    } else {
      SplitAt(s.rows, job, |s.seen|);
    }
  }

  /** One question: it returns the next rows, as many as there are up to the limit. */
  lemma AskIsFaithful(s: Session, job: nat, limit: nat)
    requires Faithful(s, job)
    ensures var all, s' := OfJob(s.rows, job), Advance(s, job, Ask(limit));
            Faithful(s', job) && |s'.seen| == if limit < |all| - |s.seen| then |s.seen| + limit else |all|
  {
    var all, k := OfJob(s.rows, job), |s.seen|;
    CursorSplits(s, job);
    var page := Take(all[k..], limit);
    assert s.seen + page == all[..k + |page|];
    if page != [] {
      assert page[|page| - 1] == all[k + |page| - 1];
    }
  }

  lemma {:induction false} FromZero(rows: seq<LogRow>, job: nat)
    requires forall r :: r in rows ==> r.id > 0
    ensures After(rows, job, 0) == OfJob(rows, job)
    decreases |rows|
  {
    if rows != [] {
      var init := rows[..|rows| - 1];
      assert forall r :: r in init ==> r in rows;
      assert rows[|rows| - 1] in rows;
      FromZero(init, job);
    }
  }

  /** Exactly once, ascending and without gaps, over every interleaving of questions and arrivals. */
  lemma {:induction false} PagingIsExactlyOnce(s: Session, job: nat, events: seq<Event>)
    requires Faithful(s, job) && Growing(s.rows, events)
    ensures Faithful(AdvanceAll(s, job, events), job)
    decreases |events|
  {
    if events != [] {
      var m := Advance(s, job, events[0]);
      match events[0] {
        case Arrive(row) =>
          assert s.rows != [] ==> (s.rows + [row])[|s.rows| - 1].id < (s.rows + [row])[|s.rows|].id;
          AfterAppends(s.rows, [row], job, -1);
          assert OfJob(s.rows, job) <= OfJob(m.rows, job);
        case Ask(limit) => AskIsFaithful(s, job, limit);
      }
      PagingIsExactlyOnce(m, job, events[1..]);
    }
  }

  /** And nothing is withheld: with a limit of at least one, as many questions as rows remain collect everything. */
  lemma {:induction false} PagingCatchesUp(s: Session, job: nat, limit: nat, n: nat)
    requires Faithful(s, job) && limit >= 1 && |OfJob(s.rows, job)| - |s.seen| <= n * limit
    ensures AdvanceAll(s, job, seq(n, _ => Ask(limit))).seen == OfJob(s.rows, job)
    decreases n
  {
    var asks: seq<Event> := seq(n, _ => Ask(limit));
    if n > 0 {
      var m := Advance(s, job, Ask(limit));
      AskIsFaithful(s, job, limit);
      assert n * limit == (n - 1) * limit + limit;
      PagingCatchesUp(m, job, limit, n - 1);
      assert asks[0] == Ask(limit) && asks[1..] == seq(n - 1, _ => Ask(limit));
    }
  }

  // ----- rows that become visible out of order -----

  predicate IsNew(rows: seq<LogRow>, row: LogRow) {
    forall r :: r in rows ==> r.id != row.id
  }

  /** Every arriving row has an id of its own; concurrent transactions may commit in any order. */
  ghost predicate FreshIds(s: Session, job: nat, events: seq<Event>)
    decreases |events|
  {
    events == []
    || ((events[0].Arrive? ==> IsNew(s.rows, events[0].row)) && FreshIds(Advance(s, job, events[0]), job, events[1..]))
  }

  /** The rows of the job that arrive with an id that the cursor has reached or passed already. */
  function LateOf(s: Session, job: nat, e: Event): set<LogRow> {
    if e.Arrive? && e.row.job == job && e.row.id <= s.cursor then {e.row} else {}
  }

  function LateAlong(s: Session, job: nat, events: seq<Event>): set<LogRow>
    decreases |events|
  {
    if events == [] then {}
    else LateOf(s, job, events[0]) + LateAlong(Advance(s, job, events[0]), job, events[1..])
  }

  /** Rows up to the cursor have been seen or were late; the later ones are still to come. */
  ghost predicate SeenButLate(s: Session, job: nat, late: set<LogRow>) {
    && Ordered(s.rows) && Ordered(s.seen)
    && (forall r :: r in s.seen <==> r in s.rows && r.job == job && 0 < r.id <= s.cursor && r !in late)
    && (forall r :: r in late ==> r in s.rows && r.job == job && r.id <= s.cursor)
  }

  lemma {:induction false} InsertedIsExact(rows: seq<LogRow>, row: LogRow)
    requires Ordered(rows) && IsNew(rows, row)
    ensures Ordered(Inserted(rows, row)) && forall r :: r in Inserted(rows, row) <==> r in rows || r == row
    decreases |rows|
  {
    if rows != [] && rows[|rows| - 1].id >= row.id {
      var init, last := rows[..|rows| - 1], rows[|rows| - 1];
      assert rows == init + [last] && last in rows;
      InsertedIsExact(init, row);
      var head := Inserted(init, row);
      assert forall i :: 0 <= i < |head| ==> head[i] in head;
    }
  }

  lemma ArrivalKeepsSeenButLate(s: Session, job: nat, late: set<LogRow>, e: Event)
    requires SeenButLate(s, job, late) && e.Arrive? && IsNew(s.rows, e.row)
    ensures SeenButLate(Advance(s, job, e), job, late + LateOf(s, job, e))
  {
    InsertedIsExact(s.rows, e.row);
    assert e.row !in s.rows;
  }

  lemma TakeIsPrefix(all: seq<LogRow>, limit: nat)
    requires Ordered(all)
    ensures var page := Take(all, limit);
            Ordered(page) && forall r :: r in page ==> r in all && r.id <= page[|page| - 1].id
  {
    var page := Take(all, limit);
    forall r | r in page ensures r in all && r.id <= page[|page| - 1].id {
      var i :| 0 <= i < |page| && page[i] == r;
      assert all[i] == r;
    }
  }

  lemma TakeHasAllBefore(all: seq<LogRow>, limit: nat, r: LogRow)
    requires Ordered(all) && r in all
    requires var page := Take(all, limit); page != [] && r.id <= page[|page| - 1].id
    ensures r in Take(all, limit)
  {
    var page := Take(all, limit);
    var i :| 0 <= i < |all| && all[i] == r;
    assert page[|page| - 1] == all[|page| - 1];
    assert i < |page| && page[i] == r;
  }

  /** Of what follows the cursor, a page has exactly the rows up to the new cursor. */
  lemma PageIsExact(s: Session, job: nat, limit: nat)
    requires Ordered(s.rows)
    ensures var page := Take(After(s.rows, job, s.cursor), limit);
            && Ordered(page)
            && (forall r :: r in page <==>
                 page != [] && r in s.rows && r.job == job && s.cursor < r.id <= page[|page| - 1].id)
  {
    AfterIsExact(s.rows, job, s.cursor);
    var all := After(s.rows, job, s.cursor);
    var page := Take(all, limit);
    TakeIsPrefix(all, limit);
    forall r | page != [] && r in all && r.id <= page[|page| - 1].id ensures r in page {
      TakeHasAllBefore(all, limit, r);
    }
  }

  lemma OrderedJoins(a: seq<LogRow>, b: seq<LogRow>)
    requires Ordered(a) && Ordered(b) && forall x, y :: x in a && y in b ==> x.id < y.id
    ensures Ordered(a + b)
  {
    var all := a + b;
    forall i, k | 0 <= i < k < |all| ensures all[i].id < all[k].id {
      if i < |a| <= k {
        assert all[i] in a && all[k] in b;
      }
    }
  }

  lemma AskKeepsSeenButLate(s: Session, job: nat, late: set<LogRow>, limit: nat)
    requires SeenButLate(s, job, late)
    ensures SeenButLate(Advance(s, job, Ask(limit)), job, late)
  {
    var page := Take(After(s.rows, job, s.cursor), limit);
    PageIsExact(s, job, limit);
    var s' := Advance(s, job, Ask(limit));
    if page != [] {
      assert page[|page| - 1] in page;
      OrderedJoins(s.seen, page);
      assert forall r :: r in s'.seen <==> r in s.seen || r in page;
    }
  }

  lemma {:induction false} RunKeepsSeenButLate(s: Session, job: nat, late: set<LogRow>, events: seq<Event>)
    requires SeenButLate(s, job, late) && FreshIds(s, job, events)
    ensures SeenButLate(AdvanceAll(s, job, events), job, late + LateAlong(s, job, events))
    decreases |events|
  {
    if events == [] {
      assert late + {} == late;
    } else {
      var e := events[0];
      match e {
        case Arrive(_) => ArrivalKeepsSeenButLate(s, job, late, e);
        case Ask(limit) =>
          AskKeepsSeenButLate(s, job, late, limit);
          assert late + LateOf(s, job, e) == late;
      }
      RunKeepsSeenButLate(Advance(s, job, e), job, late + LateOf(s, job, e), events[1..]);
      assert late + LateOf(s, job, e) + LateAlong(Advance(s, job, e), job, events[1..])
          == late + LateAlong(s, job, events);
    }
  }

  /**
   With rows that become visible in any order: what has been seen is ascending, each row once, and a
   row of the job is in it exactly if the cursor has reached it and it had not passed it before the
   row arrived. So a row is missed exactly if it arrives with an id at or below the cursor.
   */
  lemma LateRowsAreMissed(job: nat, events: seq<Event>)
    requires FreshIds(Session([], 0, []), job, events)
    ensures var s, late := AdvanceAll(Session([], 0, []), job, events), LateAlong(Session([], 0, []), job, events);
            && Ordered(s.seen)
            && (forall r :: r in s.seen <==> r in s.rows && r.job == job && 0 < r.id <= s.cursor && r !in late)
            && (forall r :: r in late ==> r in s.rows && r.job == job && r.id <= s.cursor)
  {
    RunKeepsSeenButLate(Session([], 0, []), job, {}, events);
    assert {} + LateAlong(Session([], 0, []), job, events) == LateAlong(Session([], 0, []), job, events);
  }
}
