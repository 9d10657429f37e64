/**
 The `pipeline_jobs` table: one row per job, and one specification function per SQL statement
 that the metadata store issues against it. Every statement is one atomic step on a map from
 id to row; the class at the end is the store itself, proved against these functions.
 */
module JobTable {
  import opened Prelude

  datatype Status = Queued | Running | CancellationRequested | Completed | Failed | Cancelled

  /** Milliseconds: the resolution that every stored timestamp is truncated to. */
  type Instant = int

  datatype Row = Row(
    config: string,
    request: string,
    status: Status,
    result: Option<string>,
    error: Option<string>,
    startedAt: Option<Instant>,
    completedAt: Option<Instant>,
    cancelledAt: Option<Instant>,
    workerId: Option<string>,
    heartbeatAt: Option<Instant>,
    updatedAt: Instant)

  type Table = map<nat, Row>

  predicate Terminal(status: Status) {
    status.Completed? || status.Failed? || status.Cancelled?
  }

  /** Executing, as far as the table knows: the statuses that a heartbeat or a recovery looks at. */
  predicate Started(status: Status) {
    status.Running? || status.CancellationRequested?
  }

  predicate Active(status: Status) {
    status.Queued? || Started(status)
  }

  function Rank(status: Status): nat {
    match status
    case Queued => 3
    case Running => 2
    case CancellationRequested => 1
    case _ => 0
  }

  /** The same, with failed below the other terminal statuses: the unguarded recovery UPDATE turns them into it. */
  function Level(status: Status): nat {
    match status
    case Queued => 4
    case Running => 3
    case CancellationRequested => 2
    case Completed => 1
    case Cancelled => 1
    case Failed => 0
  }

  // ----- one function per statement, on the row that the WHERE clause may select -----

  function QueuedRow(config: string, request: string, now: Instant): Row {
    Row(config, request, Queued, None, None, None, None, None, None, None, now)
  }

  function ClaimRow(r: Row, worker: string, now: Instant): Row {
    if r.status.Queued? then
      r.(status := Running, startedAt := Some(now), updatedAt := now,
         workerId := if worker == "" then None else Some(worker), heartbeatAt := Some(now))
    else r
  }

  function BeatRow(r: Row, worker: string, now: Instant): Row {
    if r.workerId == Some(worker) && Started(r.status) then
      r.(heartbeatAt := Some(now), updatedAt := now)
    else r
  }

  function CompleteRow(r: Row, status: Status, result: string, now: Instant): Row {
    if Terminal(r.status) then r
    else r.(status := status, result := Some(result), completedAt := Some(now), updatedAt := now)
  }

  function FailRow(r: Row, error: string, result: Option<string>, now: Instant): Row {
    if Terminal(r.status) then r
    else r.(status := Failed, error := Some(error), result := result, completedAt := Some(now), updatedAt := now)
  }

  function CancelRow(r: Row, now: Instant): Row {
    if r.status.Queued? then r.(status := Cancelled, cancelledAt := Some(now), updatedAt := now)
    else if r.status.Running? then r.(status := CancellationRequested, cancelledAt := Some(now), updatedAt := now)
    else r
  }

  /** The WHERE clause of the recovery SELECT; comparisons with NULL are never true in SQL. */
  predicate Orphan(r: Row, worker: string, cutoff: Instant) {
    && Started(r.status)
    && (|| r.workerId == Some(worker)
        || r.workerId.None?
        || r.heartbeatAt.None?
        || r.heartbeatAt.value < cutoff)
  }

  /** The recovery UPDATE: it has no status guard. */
  function OrphanRow(r: Row, error: string, now: Instant): Row {
    r.(status := Failed, error := Some(error), completedAt := Some(now), updatedAt := now)
  }

  // ----- the statements on the whole table -----

  function Lookup(t: Table, id: nat): Option<Row> {
    if id in t then Some(t[id]) else None
  }

  function Claim(t: Table, id: nat, worker: string, now: Instant): Table {
    if id in t then t[id := ClaimRow(t[id], worker, now)] else t
  }

  function Beat(t: Table, id: nat, worker: string, now: Instant): Table {
    if id in t then t[id := BeatRow(t[id], worker, now)] else t
  }

  function Complete(t: Table, id: nat, status: Status, result: string, now: Instant): Table {
    if id in t then t[id := CompleteRow(t[id], status, result, now)] else t
  }

  function Fail(t: Table, id: nat, error: string, result: Option<string>, now: Instant): Table {
    if id in t then t[id := FailRow(t[id], error, result, now)] else t
  }

  function RequestCancel(t: Table, id: nat, now: Instant): Table {
    if id in t then t[id := CancelRow(t[id], now)] else t
  }

  function Orphans(t: Table, worker: string, cutoff: Instant): set<nat> {
    set id | id in t && Orphan(t[id], worker, cutoff)
  }

  function FailAll(t: Table, ids: set<nat>, error: string, now: Instant): Table {
    map id | id in t :: if id in ids then OrphanRow(t[id], error, now) else t[id]
  }

  function Cutoff(now: Instant, staleAfterSeconds: nat): Instant {
    now - 1000 * staleAfterSeconds
  }

  /** SELECT and UPDATE of the recovery in one transaction that nothing can interleave with. */
  function Recover(t: Table, worker: string, staleAfterSeconds: nat, error: string, now: Instant): Table {
    FailAll(t, Orphans(t, worker, Cutoff(now, staleAfterSeconds)), error, now)
  }

  /** Ids of the queued rows in [lo, hi), ascending: `ORDER BY id ASC`. */
  function QueuedIds(t: Table, lo: nat, hi: nat): (ids: seq<nat>)
    requires lo <= hi
    decreases hi - lo
  {
    if lo == hi then []
    else if lo in t && t[lo].status.Queued? then [lo] + QueuedIds(t, lo + 1, hi)
    else QueuedIds(t, lo + 1, hi)
  }

  ghost predicate Ascending(ids: seq<nat>) {
    forall i, j :: 0 <= i < j < |ids| ==> ids[i] < ids[j]
  }

  predicate IsQueued(t: Table, id: nat) {
    id in t && t[id].status.Queued?
  }

  lemma {:induction false} QueuedIdsMembers(t: Table, lo: nat, hi: nat, id: nat)
    requires lo <= hi
    ensures id in QueuedIds(t, lo, hi) <==> lo <= id < hi && IsQueued(t, id)
    decreases hi - lo
  {
    if lo < hi {
      QueuedIdsMembers(t, lo + 1, hi, id);
    }
  }

  lemma {:induction false} QueuedIdsAscend(t: Table, lo: nat, hi: nat)
    requires lo <= hi
    ensures Ascending(QueuedIds(t, lo, hi))
    decreases hi - lo
  {
    if lo < hi {
      var rest := QueuedIds(t, lo + 1, hi);
      QueuedIdsAscend(t, lo + 1, hi);
      forall k | 0 <= k < |rest| ensures lo < rest[k] {
        QueuedIdsMembers(t, lo + 1, hi, rest[k]);
      }
    }
  }

  /** Exactly the queued ids of the range, each once, in ascending order. */
  lemma QueuedIdsExact(t: Table, lo: nat, hi: nat)
    requires lo <= hi
    ensures Ascending(QueuedIds(t, lo, hi))
    ensures forall id :: id in QueuedIds(t, lo, hi) <==> lo <= id < hi && id in t && t[id].status.Queued?
  {
    QueuedIdsAscend(t, lo, hi);
    forall id ensures id in QueuedIds(t, lo, hi) <==> lo <= id < hi && IsQueued(t, id) {
      if id >= 0 {
        QueuedIdsMembers(t, lo, hi, id);
      }
    }
  }

  lemma {:induction false} QueuedIdsSnoc(t: Table, lo: nat, hi: nat)
    requires lo <= hi
    ensures QueuedIds(t, lo, hi + 1)
         == QueuedIds(t, lo, hi) + (if hi in t && t[hi].status.Queued? then [hi] else [])
    decreases hi - lo
  {
    if lo == hi {
      assert QueuedIds(t, hi + 1, hi + 1) == [];
    } else {
      QueuedIdsSnoc(t, lo + 1, hi);
    }
  }

  // ----- what a row may look like, and how it may change -----

  /** Which columns are NULL in each status, when every claim names a worker. */
  ghost predicate Shape(r: Row) {
    Stamped(r) && (r.startedAt.Some? ==> r.workerId.Some?)
  }

  /**
   The same for claims that may leave out the worker. `updated_at` is always the newest of the
   stamps, and `error` is set exactly on failed rows.
   */
  ghost predicate Stamped(r: Row) {
    && (r.startedAt.Some? <==> r.heartbeatAt.Some?)
    && (r.workerId.Some? ==> r.startedAt.Some?)
    && (r.error.Some? <==> r.status.Failed?)
    && match r.status
       case Queued =>
         r.startedAt.None? && r.completedAt.None? && r.cancelledAt.None? && r.result.None?
       case Running =>
         && r.startedAt.Some? && r.completedAt.None? && r.cancelledAt.None? && r.result.None?
         && r.heartbeatAt == Some(r.updatedAt)
       case CancellationRequested =>
         && r.startedAt.Some? && r.completedAt.None? && r.cancelledAt.Some? && r.result.None?
         && (r.heartbeatAt == Some(r.updatedAt) || r.cancelledAt == Some(r.updatedAt))
       case Completed =>
         r.startedAt.Some? && r.completedAt == Some(r.updatedAt) && r.result.Some?
       case Failed =>
         r.completedAt == Some(r.updatedAt)
       case Cancelled =>
         && r.cancelledAt.Some?
         && (if r.startedAt.Some? then r.completedAt == Some(r.updatedAt) && r.result.Some?
             else r.completedAt.None? && r.cancelledAt == Some(r.updatedAt) && r.result.None?)
  }

  /** Nothing but a failure has been recorded, over whatever was there. */
  ghost predicate FailedOver(r: Row, r': Row) {
    r'.status.Failed?
    && r' == r.(status := Failed, error := r'.error, completedAt := r'.completedAt, updatedAt := r'.updatedAt)
  }

  /**
   What every statement does to the history of one row, the unguarded UPDATE included: the level
   falls with every change of status, the start, the owner and the cancel stamp are written at most
   once, and a terminal row stays as it is or is failed over.
   */
  ghost predicate Persists(r: Row, r': Row) {
    && r'.config == r.config && r'.request == r.request
    && (r'.status == r.status || Level(r'.status) < Level(r.status))
    && (Terminal(r.status) ==> r' == r || FailedOver(r, r'))
    && (r.startedAt.Some? ==> r'.startedAt == r.startedAt)
    && (r.workerId.Some? ==> r'.workerId == r.workerId)
    && (r.cancelledAt.Some? ==> r'.cancelledAt == r.cancelledAt)
    && (r.completedAt.Some? ==> r'.completedAt.Some?)
    && (r.heartbeatAt.Some? ==> r'.heartbeatAt.Some?)
  }

  /** The history relation of the guarded statements: a terminal row never changes again in any column. */
  ghost predicate Evolves(r: Row, r': Row) {
    && Persists(r, r')
    && (Terminal(r.status) ==> r' == r)
    && (r.completedAt.Some? ==> r'.completedAt == r.completedAt)
  }

  ghost predicate TablePersists(t: Table, t': Table) {
    forall id :: id in t ==> id in t' && Persists(t[id], t'[id])
  }

  ghost predicate TableEvolves(t: Table, t': Table) {
    forall id :: id in t ==> id in t' && Evolves(t[id], t'[id])
  }

  lemma TablePersistsTransitively(a: Table, b: Table, c: Table)
    requires TablePersists(a, b) && TablePersists(b, c)
    ensures TablePersists(a, c)
  {
    forall id | id in a ensures id in c && Persists(a[id], c[id]) {
      PersistsTransitively(a[id], b[id], c[id]);
    }
  }

  lemma PersistsTransitively(a: Row, b: Row, c: Row)
    requires Persists(a, b) && Persists(b, c)
    ensures Persists(a, c)
  {}

  lemma EvolvesTransitively(a: Row, b: Row, c: Row)
    requires Evolves(a, b) && Evolves(b, c)
    ensures Evolves(a, c)
  {}

  lemma TableEvolvesTransitively(a: Table, b: Table, c: Table)
    requires TableEvolves(a, b) && TableEvolves(b, c)
    ensures TableEvolves(a, c)
  {
    forall id | id in a ensures id in c && Evolves(a[id], c[id]) {
      EvolvesTransitively(a[id], b[id], c[id]);
    }
  }

  /** A change that respects history and the stamps, and leaves no started row without its worker. */
  ghost predicate Legal(r: Row, r': Row) {
    Evolves(r, r') && Stamped(r') && (Shape(r) ==> Shape(r'))
  }

  /** The guarded UPDATEs are legal, with one exception: a claim without a worker is only stamped. */
  lemma GuardedStatementsKeepShape(
    r: Row, worker: string, status: Status, text: string, res: Option<string>, now: Instant)
    requires Stamped(r)
    ensures Evolves(r, ClaimRow(r, worker, now)) && Stamped(ClaimRow(r, worker, now))
    ensures Shape(r) ==> (Shape(ClaimRow(r, worker, now)) <==> worker != "" || !r.status.Queued?)
    ensures Legal(r, BeatRow(r, worker, now)) && Legal(r, CancelRow(r, now)) && Legal(r, FailRow(r, text, res, now))
    ensures !r.status.Queued? && Terminal(status) && !status.Failed? && (status.Cancelled? ==> r.cancelledAt.Some?)
            ==> Legal(r, CompleteRow(r, status, text, now))
  {}

  /** Whatever rows the recovery UPDATE finds, it keeps the null patterns, and history but for failing rows over. */
  lemma FailingKeepsShape(t: Table, ids: set<nat>, error: string, now: Instant)
    requires forall id :: id in t ==> Shape(t[id])
    ensures var t' := FailAll(t, ids, error, now);
            && t'.Keys == t.Keys && TablePersists(t, t')
            && forall id :: id in t' ==> Shape(t'[id]) && t'[id].cancelledAt == t[id].cancelledAt
  {}

  /** The recovery UPDATE is legal on rows that are still open. */
  lemma FailingOpenRowsIsLegal(t: Table, ids: set<nat>, error: string, now: Instant)
    requires forall id :: id in t ==> Shape(t[id])
    requires forall id :: id in ids && id in t ==> !Terminal(t[id].status)
    ensures var t' := FailAll(t, ids, error, now);
            t'.Keys == t.Keys && TableEvolves(t, t') && forall id :: id in t' ==> Shape(t'[id])
  {}

  /** Atomic recovery keeps them too: what it selects is never terminal. */
  lemma AtomicRecoveryKeepsShape(t: Table, worker: string, stale: nat, error: string, now: Instant)
    requires forall id :: id in t ==> Shape(t[id])
    ensures var t' := Recover(t, worker, stale, error, now);
            t'.Keys == t.Keys && TableEvolves(t, t') && forall id :: id in t' ==> Shape(t'[id])
  {
    FailingOpenRowsIsLegal(t, Orphans(t, worker, Cutoff(now, stale)), error, now);
  }

  /**
   With the SELECT and the UPDATE apart, the UPDATE respects the status of every terminal row
   exactly when no selected job has meanwhile completed or been cancelled; and all columns exactly
   when it finds its rows open, or has nothing to change in them.
   */
  lemma SplitRecoveryExact(t: Table, selected: set<nat>, error: string, now: Instant)
    ensures (forall id :: id in t && Terminal(t[id].status) ==>
              FailAll(t, selected, error, now)[id].status == t[id].status)
       <==> (forall id :: id in selected && id in t ==> !t[id].status.Completed? && !t[id].status.Cancelled?)
    ensures (forall id :: id in t ==> Stamped(t[id])) ==>
              (TableEvolves(t, FailAll(t, selected, error, now)) <==>
               forall id :: id in selected && id in t ==>
                 !Terminal(t[id].status) || OrphanRow(t[id], error, now) == t[id])
  {
    var t' := FailAll(t, selected, error, now);
    if forall id :: id in t && Terminal(t[id].status) ==> t'[id].status == t[id].status {
      forall id | id in selected && id in t
        ensures !t[id].status.Completed? && !t[id].status.Cancelled?
      {
        assert t'[id].status.Failed?;
      }
    }
    if TableEvolves(t, t') {
      forall id | id in selected && id in t
        ensures !Terminal(t[id].status) || OrphanRow(t[id], error, now) == t[id]
      {
        assert Evolves(t[id], t'[id]);
      }
    }
  }

  /** No row but this one has changed. */
  ghost predicate OnlyRow(t: Table, t': Table, id: nat) {
    t'.Keys == t.Keys && forall other :: other in t && other != id ==> t'[other] == t[other]
  }

  predicate IsIn(t: Table, id: nat, statuses: set<Status>) {
    id in t && t[id].status in statuses
  }

  /** The metadata store, as far as it concerns pipeline jobs. */
  class PipelineJobStore {
    var rows: Table
    var nextId: nat

    ghost predicate Valid()
      reads this
    {
      1 <= nextId && forall id :: id in rows ==> 1 <= id < nextId
    }

    constructor ()
      ensures Valid() && rows == map[]
    {
      rows := map[];
      nextId := 1;
    }

    /** AUTOINCREMENT: the new id is larger than every id ever handed out. */
    method CreatePipelineJob(config: string, request: string, now: Instant) returns (id: nat)
      requires Valid()
      modifies this
      ensures Valid() && id == old(nextId) && nextId == id + 1
      ensures id !in old(rows) && rows == old(rows)[id := QueuedRow(config, request, now)]
      ensures rows[id] == Row(config, request, Queued, None, None, None, None, None, None, None, now)
    {
      id := nextId;
      rows := rows[id := QueuedRow(config, request, now)];
      nextId := nextId + 1;
    }

    method GetPipelineJob(id: nat) returns (job: Option<Row>)
      ensures job == Lookup(rows, id)
    {
      if id in rows {
        job := Some(rows[id]);
      } else {
        job := None;
      }
    }

    method ClaimPipelineJob(id: nat, worker: string, now: Instant) returns (job: Option<Row>)
      requires Valid()
      modifies this
      ensures Valid() && nextId == old(nextId)
      ensures rows == Claim(old(rows), id, worker, now) && job == Lookup(rows, id)
      ensures OnlyRow(old(rows), rows, id)
      ensures IsIn(old(rows), id, {Queued}) ==>
                rows[id] == old(rows)[id].(
                  status := Running, startedAt := Some(now), heartbeatAt := Some(now), updatedAt := now,
                  workerId := if worker == "" then None else Some(worker))
      ensures !IsIn(old(rows), id, {Queued}) ==> rows == old(rows)
    {
      if id in rows && rows[id].status == Queued {
        var owner := if worker == "" then None else Some(worker);
        rows := rows[id := rows[id].(status := Running, startedAt := Some(now), updatedAt := now, workerId := owner,
            heartbeatAt := Some(now))];
      }
      job := GetPipelineJob(id);
      assert rows == Claim(old(rows), id, worker, now);
    }

    method HeartbeatPipelineJob(id: nat, worker: string, now: Instant)
      requires Valid()
      modifies this
      ensures Valid() && nextId == old(nextId) && rows == Beat(old(rows), id, worker, now)
      ensures OnlyRow(old(rows), rows, id)
      ensures if IsIn(old(rows), id, {Running, CancellationRequested}) && old(rows)[id].workerId == Some(worker)
              then rows[id] == old(rows)[id].(heartbeatAt := Some(now), updatedAt := now)
              else rows == old(rows)
    {
      if id in rows && rows[id].workerId == Some(worker) && rows[id].status in {Running, CancellationRequested} {
        rows := rows[id := rows[id].(heartbeatAt := Some(now), updatedAt := now)];
      }
      assert rows == Beat(old(rows), id, worker, now);
    }

    method CompletePipelineJob(id: nat, result: string, status: Status, now: Instant) returns (job: Option<Row>)
      requires Valid()
      modifies this
      ensures Valid() && nextId == old(nextId)
      ensures rows == Complete(old(rows), id, status, result, now) && job == Lookup(rows, id)
      ensures OnlyRow(old(rows), rows, id)
      ensures if IsIn(old(rows), id, {Queued, Running, CancellationRequested})
              then rows[id] == old(rows)[id].(
                     status := status, result := Some(result), completedAt := Some(now), updatedAt := now)
              else rows == old(rows)
    {
      if id in rows && rows[id].status !in {Completed, Failed, Cancelled} {
        rows := rows[id := rows[id].(status := status, result := Some(result), completedAt := Some(now),
            updatedAt := now)];
      }
      job := GetPipelineJob(id);
      assert rows == Complete(old(rows), id, status, result, now);
    }

    method FailPipelineJob(id: nat, error: string, result: Option<string>, now: Instant) returns (job: Option<Row>)
      requires Valid()
      modifies this
      ensures Valid() && nextId == old(nextId)
      ensures rows == Fail(old(rows), id, error, result, now) && job == Lookup(rows, id)
      ensures OnlyRow(old(rows), rows, id)
      ensures if IsIn(old(rows), id, {Queued, Running, CancellationRequested})
              then rows[id] == old(rows)[id].(
                     status := Failed, error := Some(error), result := result, completedAt := Some(now),
                     updatedAt := now)
              else rows == old(rows)
    {
      if id in rows && rows[id].status !in {Completed, Failed, Cancelled} {
        rows := rows[id := rows[id].(status := Failed, error := Some(error), result := result, completedAt := Some(now),
            updatedAt := now)];
      }
      job := GetPipelineJob(id);
      assert rows == Fail(old(rows), id, error, result, now);
    }

    /** A missing job is reported before anything is written. */
    method RequestPipelineJobCancel(id: nat, now: Instant) returns (job: Option<Row>)
      requires Valid()
      modifies this
      ensures Valid() && nextId == old(nextId)
      ensures rows == RequestCancel(old(rows), id, now) && job == Lookup(rows, id)
      ensures job.None? <==> id !in old(rows)
      ensures OnlyRow(old(rows), rows, id)
      ensures if IsIn(old(rows), id, {Queued})
              then rows[id] == old(rows)[id].(status := Cancelled, cancelledAt := Some(now), updatedAt := now)
              else if IsIn(old(rows), id, {Running})
              then rows[id] == old(rows)[id].(
                     status := CancellationRequested, cancelledAt := Some(now), updatedAt := now)
              else rows == old(rows)
    {
      job := GetPipelineJob(id);
      if job.None? {
        return;
      }
      if rows[id].status in {Queued, Running} {
        var next := if rows[id].status == Queued then Cancelled else CancellationRequested;
        rows := rows[id := rows[id].(status := next, cancelledAt := Some(now), updatedAt := now)];
      }
      job := GetPipelineJob(id);
      assert rows == RequestCancel(old(rows), id, now);
    }

    method RecoverOrphanedJobs(worker: string, staleAfterSeconds: nat, error: string, now: Instant)
      returns (orphans: seq<nat>)
      requires Valid()
      modifies this
      ensures Valid() && nextId == old(nextId)
      ensures rows == Recover(old(rows), worker, staleAfterSeconds, error, now)
      ensures Ascending(orphans) && rows.Keys == old(rows).Keys
      ensures forall id :: id in orphans <==>
                && IsIn(old(rows), id, {Running, CancellationRequested})
                && (var r := old(rows)[id];
                    r.workerId == Some(worker) || r.workerId == None || r.heartbeatAt == None
                    || r.heartbeatAt.value < now - 1000 * staleAfterSeconds)
      ensures forall id :: id in rows ==>
                rows[id] == if id in orphans
                            then old(rows)[id].(
                                   status := Failed, error := Some(error), completedAt := Some(now), updatedAt := now)
                            else old(rows)[id]
      ensures (set id | id in orphans) == Orphans(old(rows), worker, Cutoff(now, staleAfterSeconds))
    {
      var cutoff := now - 1000 * staleAfterSeconds;
      orphans := [];
      var id := 1;
      while id < nextId
        invariant 1 <= id <= nextId
        invariant Ascending(orphans)
        invariant forall k :: k in orphans <==> 1 <= k < id && k in rows && Orphan(rows[k], worker, cutoff)
      {
        if id in rows && Orphan(rows[id], worker, cutoff) {
          assert forall k :: 0 <= k < |orphans| ==> orphans[k] in orphans;
          orphans := orphans + [id];
        }
        id := id + 1;
      }
      ghost var selected := Orphans(rows, worker, cutoff);
      var i := 0;
      while i < |orphans|
        invariant 0 <= i <= |orphans| && nextId == old(nextId)
        invariant rows == FailAll(old(rows), (set k | k in orphans[..i]), error, now)
      {
        assert orphans[i] in orphans;
        assert orphans[..i + 1] == orphans[..i] + [orphans[i]];
        assert orphans[i] !in orphans[..i];
        rows := rows[orphans[i] := rows[orphans[i]].(status := Failed, error := Some(error), completedAt := Some(now),
            updatedAt := now)];
        i := i + 1;
      }
      assert orphans[..i] == orphans;
      assert selected == set k | k in orphans;
    }

    method ListQueuedPipelineJobs() returns (ids: seq<nat>)
      requires Valid()
      ensures ids == QueuedIds(rows, 1, nextId)
      ensures Ascending(ids) && forall id :: id in ids <==> id in rows && rows[id].status.Queued?
    {
      ids := [];
      var id := 1;
      while id < nextId
        invariant 1 <= id <= nextId
        invariant ids == QueuedIds(rows, 1, id)
      {
        QueuedIdsSnoc(rows, 1, id);
        if id in rows && rows[id].status == Queued {
          ids := ids + [id];
        }
        id := id + 1;
      }
      QueuedIdsExact(rows, 1, nextId);
    }

    method HasActivePipelineJob(config: string) returns (active: bool)
      requires Valid()
      ensures active <==> exists id :: id in rows && rows[id].config == config && Active(rows[id].status)
      ensures active <==>
                exists id :: id in rows && rows[id].config == config && !IsIn(rows, id, {Completed, Failed, Cancelled})
    {
      active := false;
      var id := 1;
      while id < nextId
        invariant 1 <= id <= nextId
        invariant active <==> exists k :: k in rows && k < id && rows[k].config == config && Active(rows[k].status)
      {
        if id in rows && rows[id].config == config && rows[id].status in {Queued, Running, CancellationRequested} {
          active := true;
        }
        id := id + 1;
      }
    }
  }
}
