/**
 The worker's cancel check: throttled database polls, a latch, and the heartbeat that rides on the
 same path. Clocks are in microseconds; stored stamps are truncated to milliseconds.
 */
module CancelCheck {
  import opened Prelude
  import opened JobTable

  type Micros = int

  function Stamp(t: Micros): Instant {
    t / 1000
  }

  datatype Check = Check(checkedAt: Option<Micros>, cancelled: bool)

  const NEW_CHECK := Check(None, false)

  /** The database is consulted: not latched, and the last consultation is at least one interval ago. */
  predicate Due(c: Check, interval: Micros, now: Micros) {
    !c.cancelled && (c.checkedAt.None? || now - c.checkedAt.value >= interval)
  }

  /** The check after a call at `now` that would find `job` in the table. */
  function Called(c: Check, interval: Micros, job: Option<Row>, now: Micros): Check {
    if !Due(c, interval, now) then c
    else Check(Some(now), job.Some? && job.value.status.CancellationRequested?)
  }

  class CancelCheck {
    const jobId: nat
    const interval: Micros
    const worker: string
    var checkedAt: Option<Micros>
    var cancelled: bool

    constructor (jobId: nat, interval: Micros, worker: string)
      ensures this.jobId == jobId && this.interval == interval && this.worker == worker && State() == NEW_CHECK
    {
      this.jobId := jobId;
      this.interval := interval;
      this.worker := worker;
      checkedAt := None;
      cancelled := false;
    }

    function State(): Check
      reads this
    {
      Check(checkedAt, cancelled)
    }

    /** `beatLands` is false when the heartbeat statement raises; the check goes on regardless. */
    method Call(store: PipelineJobStore, now: Micros, beatLands: bool) returns (answer: bool)
      requires store.Valid()
      modifies this, store
      ensures store.Valid() && store.nextId == old(store.nextId)
      ensures State() == Called(old(State()), interval, Lookup(old(store.rows), jobId), now)
      ensures answer == cancelled
      ensures answer <==>
                || old(cancelled)
                || (&& (old(checkedAt).None? || now - old(checkedAt).value >= interval)
                    && jobId in old(store.rows) && old(store.rows)[jobId].status == CancellationRequested)
      ensures store.rows == if Due(old(State()), interval, now) && beatLands
                            then Beat(old(store.rows), jobId, worker, Stamp(now)) else old(store.rows)
    {
      if cancelled {
        return true;
      }
      if checkedAt.Some? && now - checkedAt.value < interval {
        return false;
      }
      checkedAt := Some(now);
      var job := store.GetPipelineJob(jobId);
      if job.None? {
        return false;
      }
      if beatLands {
        store.HeartbeatPipelineJob(jobId, worker, now / 1000);
      }
      cancelled := job.value.status == CancellationRequested;
      return cancelled;
    }
  }

  // ----- one worker watching its own row, while cancel requests may arrive -----

  /** `lands` is false when the heartbeat statement of the poll raises. */
  datatype Event = Poll(at: Micros, lands: bool) | CancelArrives(at: Micros)

  /**
   `lastPoll` and `lastBeat`, the moment of the last heartbeat that landed, start as the moment of the
   claim; `consulted` lists the database checks, and `missed` counts the last of them without a heartbeat.
   */
  datatype Watch = Watch(
    check: Check, row: Row, lastPoll: Micros, consulted: seq<Micros>, lastBeat: Micros, missed: nat)

  function Observe(w: Watch, interval: Micros, worker: string, e: Event): Watch {
    match e
    case CancelArrives(at) => w.(row := CancelRow(w.row, Stamp(at)))
    case Poll(at, lands) =>
      if !Due(w.check, interval, at) then w.(lastPoll := at)
      else
        Watch(
          Called(w.check, interval, Some(w.row), at), if lands then BeatRow(w.row, worker, Stamp(at)) else w.row, at,
          w.consulted + [at], if lands then at else w.lastBeat, if lands then 0 else w.missed + 1)
  }

  function ObserveAll(w: Watch, interval: Micros, worker: string, events: seq<Event>): Watch
    decreases |events|
  {
    if events == [] then w
    else ObserveAll(Observe(w, interval, worker, events[0]), interval, worker, events[1..])
  }

  /** The worker polls at least every `gap` microseconds. */
  ghost predicate Steady(w: Watch, gap: Micros, events: seq<Event>)
    decreases |events|
  {
    events == []
    || (if events[0].Poll? then
          w.lastPoll <= events[0].at <= w.lastPoll + gap && Steady(w.(lastPoll := events[0].at), gap, events[1..])
        else Steady(w, gap, events[1..]))
  }

  /** The row as the claim at `claimedAt` leaves it, and a new check. */
  ghost predicate JustClaimed(w: Watch, worker: string, claimedAt: Micros) {
    && w.check == NEW_CHECK && w.lastPoll == w.lastBeat == claimedAt && w.consulted == [] && w.missed == 0
    && w.row.status.Running? && w.row.workerId == Some(worker) && w.row.heartbeatAt == Some(Stamp(claimedAt))
  }

  /** The heartbeat on the row is the last that landed, and not older than the missed ones explain. */
  ghost predicate Tracked(w: Watch, interval: Micros, gap: Micros, worker: string) {
    && Started(w.row.status) && w.row.workerId == Some(worker) && w.row.heartbeatAt == Some(Stamp(w.lastBeat))
    && (w.check.cancelled ==> w.row.status.CancellationRequested?)
    && match w.check.checkedAt
       case None => !w.check.cancelled && w.consulted == [] && w.lastBeat == w.lastPoll && w.missed == 0
       case Some(b) =>
         && w.consulted != [] && w.consulted[|w.consulted| - 1] == b
         && w.lastBeat <= b <= w.lastPoll && b - w.lastBeat <= w.missed * (interval + gap)
         && (w.check.cancelled || w.lastPoll == b || w.lastPoll - b < interval)
  }

  ghost predicate Spaced(times: seq<Micros>, interval: Micros) {
    forall i :: 0 < i < |times| ==> times[i] - times[i - 1] >= interval
  }

  lemma StepIsTracked(w: Watch, interval: Micros, gap: Micros, worker: string, e: Event)
    requires 0 <= interval && 0 <= gap && Tracked(w, interval, gap, worker) && Spaced(w.consulted, interval)
    requires e.Poll? ==> w.lastPoll <= e.at <= w.lastPoll + gap
    ensures var m := Observe(w, interval, worker, e); Tracked(m, interval, gap, worker) && Spaced(m.consulted, interval)
  {
    assert (w.missed + 1) * (interval + gap) == w.missed * (interval + gap) + (interval + gap);
  }

  lemma {:induction false} WatchIsTracked(w: Watch, interval: Micros, gap: Micros, worker: string, events: seq<Event>)
    requires 0 <= interval && 0 <= gap && Steady(w, gap, events) && Tracked(w, interval, gap, worker)
              && Spaced(w.consulted, interval)
    ensures var w' := ObserveAll(w, interval, worker, events);
            Tracked(w', interval, gap, worker) && Spaced(w'.consulted, interval)
    decreases |events|
  {
    if events != [] {
      var m := Observe(w, interval, worker, events[0]);
      StepIsTracked(w, interval, gap, worker, events[0]);
      SteadyIgnoresTheRest(w, m, gap, events);
      WatchIsTracked(m, interval, gap, worker, events[1..]);
    }
  }

  lemma SteadyIgnoresTheRest(w: Watch, m: Watch, gap: Micros, events: seq<Event>)
    requires Steady(w, gap, events) && events != []
    requires m.lastPoll == if events[0].Poll? then events[0].at else w.lastPoll
    ensures Steady(m, gap, events[1..])
  {
    SteadyDependsOnLastPoll(if events[0].Poll? then w.(lastPoll := events[0].at) else w, m, gap, events[1..]);
  }

  lemma {:induction false} SteadyDependsOnLastPoll(w: Watch, m: Watch, gap: Micros, events: seq<Event>)
    requires Steady(w, gap, events) && w.lastPoll == m.lastPoll
    ensures Steady(m, gap, events)
    decreases |events|
  {
    if events != [] {
      if events[0].Poll? {
        SteadyDependsOnLastPoll(w.(lastPoll := events[0].at), m.(lastPoll := events[0].at), gap, events[1..]);
      } else {
        SteadyDependsOnLastPoll(w, m, gap, events[1..]);
      }
    }
  }

  /**
   Whatever heartbeats land, and whether the check has latched or not: another worker's recovery
   selects the row exactly when more than the staleness limit has passed, in truncated stamps, since
   the last heartbeat that landed.
   */
  lemma SelectedExactly(
    w: Watch, interval: Micros, gap: Micros, worker: string, claimedAt: Micros, events: seq<Event>, other: string,
    now: Micros, stale: nat)
    requires 0 <= interval && 0 <= gap && JustClaimed(w, worker, claimedAt) && Steady(w, gap, events) && other != worker
    ensures var w' := ObserveAll(w, interval, worker, events);
            Orphan(w'.row, other, Cutoff(Stamp(now), stale)) <==> Stamp(now) - Stamp(w'.lastBeat) > 1000 * stale
  {
    WatchIsTracked(w, interval, gap, worker, events);
  }

  /**
   A worker that polls with gaps of at most `gap` after its claim is never selected by a recovery of
   another worker while its check has not latched, as long as interval + gap, once for the last
   heartbeat and once for each that has failed since, is within the staleness limit.
   */
  lemma PollingWorkerIsNeverSelected(
    w: Watch, interval: Micros, gap: Micros, worker: string, claimedAt: Micros, events: seq<Event>, other: string,
    now: Micros, stale: nat)
    requires 0 <= interval && 0 <= gap
    requires JustClaimed(w, worker, claimedAt) && Steady(w, gap, events) && other != worker
    requires var w' := ObserveAll(w, interval, worker, events);
             && w'.lastPoll <= now <= w'.lastPoll + gap && !w'.check.cancelled
             && (w'.missed + 1) * (interval + gap) <= 1000000 * stale
    ensures !Orphan(ObserveAll(w, interval, worker, events).row, other, Cutoff(Stamp(now), stale))
  {
    WatchIsTracked(w, interval, gap, worker, events);
    var w' := ObserveAll(w, interval, worker, events);
    assert (w'.missed + 1) * (interval + gap) == w'.missed * (interval + gap) + (interval + gap);
    assert w'.lastBeat >= now - 1000000 * stale;
    TruncationKeepsOrder(now - 1000000 * stale, w'.lastBeat);
    assert Stamp(now - 1000000 * stale) == Cutoff(Stamp(now), stale);
  }

  lemma TruncationKeepsOrder(a: Micros, b: Micros)
    requires a <= b
    ensures Stamp(a) <= Stamp(b)
  {}

  /**
   Once the check has latched, heartbeats stop: no later poll touches the row, so that it is selected
   exactly when more than the staleness limit has passed since the last heartbeat up to then.
   */
  lemma LatchedWorkerIsSelectedExactly(
    w: Watch, interval: Micros, gap: Micros, worker: string, claimedAt: Micros, events: seq<Event>,
    later: seq<Event>, other: string, now: Micros, stale: nat)
    requires 0 <= interval && 0 <= gap && JustClaimed(w, worker, claimedAt) && Steady(w, gap, events) && other != worker
    requires ObserveAll(w, interval, worker, events).check.cancelled
    ensures var w' := ObserveAll(w, interval, worker, events);
            var w'' := ObserveAll(w', interval, worker, later);
            && w''.row == w'.row && w''.lastBeat == w'.lastBeat && w''.consulted == w'.consulted
            && (Orphan(w''.row, other, Cutoff(Stamp(now), stale)) <==>
                 Stamp(now) - Stamp(w'.lastBeat) > 1000 * stale)
  {
    WatchIsTracked(w, interval, gap, worker, events);
    LatchedStays(ObserveAll(w, interval, worker, events), interval, worker, later);
  }

  lemma {:induction false} LatchedStays(w: Watch, interval: Micros, worker: string, later: seq<Event>)
    requires w.check.cancelled && w.row.status.CancellationRequested?
    ensures var w' := ObserveAll(w, interval, worker, later);
            w'.check == w.check && w'.row == w.row && w'.lastBeat == w.lastBeat && w'.consulted == w.consulted
    decreases |later|
  {
    if later != [] {
      LatchedStays(Observe(w, interval, worker, later[0]), interval, worker, later[1..]);
    }
  }

  // ----- a request is heard -----

  ghost predicate NoRequest(events: seq<Event>) {
    forall k :: 0 <= k < |events| ==> events[k].Poll?
  }

  /** Without a request the check never latches. */
  lemma {:induction false} NothingToHear(w: Watch, interval: Micros, worker: string, events: seq<Event>)
    requires NoRequest(events) && w.row.status.Running? && !w.check.cancelled
    ensures var w' := ObserveAll(w, interval, worker, events); w'.row.status.Running? && !w'.check.cancelled
    decreases |events|
  {
    if events != [] {
      assert events[0].Poll? && NoRequest(events[1..]);
      NothingToHear(Observe(w, interval, worker, events[0]), interval, worker, events[1..]);
    }
  }

  /** Once a request is on the row, the next consultation latches, and is the last. */
  lemma {:induction false} NextConsultationLatches(w: Watch, interval: Micros, worker: string, events: seq<Event>)
    requires w.row.status.CancellationRequested? && !w.check.cancelled
    ensures var w' := ObserveAll(w, interval, worker, events);
            && |w.consulted| <= |w'.consulted| <= |w.consulted| + 1
            && (w'.check.cancelled <==> |w'.consulted| == |w.consulted| + 1)
            && (!w'.check.cancelled ==> w'.check == w.check)
    decreases |events|
  {
    if events != [] {
      var m := Observe(w, interval, worker, events[0]);
      if m.check.cancelled {
        LatchedStays(m, interval, worker, events[1..]);
      } else {
        NextConsultationLatches(m, interval, worker, events[1..]);
      }
    }
  }

  /**
   A cancel request that arrives between polls, after any history of the worker without one: the
   check answers yes exactly if the database has been consulted since; and it has been once the worker
   has polled an interval or more after its last consultation before the request, so that with gaps of
   at most `gap` it hears the request within interval + gap of that consultation.
   */
  lemma RequestIsHeard(
    w: Watch, interval: Micros, gap: Micros, worker: string, claimedAt: Micros, before: seq<Event>, at: Micros,
    later: seq<Event>, now: Micros)
    requires 0 < interval && 0 <= gap && JustClaimed(w, worker, claimedAt)
    requires Steady(w, gap, before) && NoRequest(before)
    requires var m := Observe(ObserveAll(w, interval, worker, before), interval, worker, CancelArrives(at));
             Steady(m, gap, later)
    ensures var m := Observe(ObserveAll(w, interval, worker, before), interval, worker, CancelArrives(at));
            var w' := ObserveAll(m, interval, worker, later);
            && !m.check.cancelled
            && (w'.check.cancelled <==> |w'.consulted| > |m.consulted|)
            && (m.check.checkedAt.Some? && w'.lastPoll - m.check.checkedAt.value >= interval ==> w'.check.cancelled)
            && (m.check.checkedAt.Some? && now <= w'.lastPoll + gap && now >= m.check.checkedAt.value + interval + gap
                ==> w'.check.cancelled)
            && (m.check.checkedAt.None? && (exists k :: 0 <= k < |later| && later[k].Poll?) ==> w'.check.cancelled)
  {
    NothingToHear(w, interval, worker, before);
    WatchIsTracked(w, interval, gap, worker, before);
    var m := Observe(ObserveAll(w, interval, worker, before), interval, worker, CancelArrives(at));
    NextConsultationLatches(m, interval, worker, later);
    WatchIsTracked(m, interval, gap, worker, later);
    if m.check.checkedAt.None? && exists k :: 0 <= k < |later| && later[k].Poll? {
      FirstPollIsDue(m, interval, worker, later);
    } else if m.check.checkedAt.Some? {
      UnheardMeansEarly(m, interval, gap, worker, later);
    }
  }

  lemma {:induction false} FirstPollIsDue(w: Watch, interval: Micros, worker: string, events: seq<Event>)
    requires w.check == NEW_CHECK && exists k :: 0 <= k < |events| && events[k].Poll?
    ensures ObserveAll(w, interval, worker, events).check.checkedAt.Some?
    decreases |events|
  {
    var m := Observe(w, interval, worker, events[0]);
    if events[0].Poll? {
      ConsultedStays(m, interval, worker, events[1..]);
    } else {
      var k :| 0 <= k < |events| && events[k].Poll?;
      assert events[1..][k - 1].Poll?;
      FirstPollIsDue(m, interval, worker, events[1..]);
    }
  }

  lemma {:induction false} ConsultedStays(w: Watch, interval: Micros, worker: string, events: seq<Event>)
    requires w.check.checkedAt.Some?
    ensures ObserveAll(w, interval, worker, events).check.checkedAt.Some?
    decreases |events|
  {
    if events != [] {
      ConsultedStays(Observe(w, interval, worker, events[0]), interval, worker, events[1..]);
    }
  }

  /** As long as the request is unheard, no poll has come an interval after the last consultation. */
  lemma UnheardMeansEarly(m: Watch, interval: Micros, gap: Micros, worker: string, later: seq<Event>)
    requires 0 < interval && 0 <= gap && m.check.checkedAt.Some?
    requires var w' := ObserveAll(m, interval, worker, later);
             Tracked(w', interval, gap, worker) && (!w'.check.cancelled ==> w'.check == m.check)
    ensures var w' := ObserveAll(m, interval, worker, later);
            w'.check.cancelled || w'.lastPoll - m.check.checkedAt.value < interval
  {}

  lemma {:induction false} SpacedApart(times: seq<Micros>, interval: Micros, i: nat, j: nat)
    requires Spaced(times, interval) && i <= j < |times|
    ensures times[j] - times[i] >= (j - i) * interval
    decreases j
  {
    if i < j {
      SpacedApart(times, interval, i, j - 1);
      assert (j - i) * interval == (j - 1 - i) * interval + interval;
    }
  }

  /** The consultations i..j that fall into a span of length `span` number at most span / interval + 1. */
  lemma ChecksAreThrottled(
    w: Watch, interval: Micros, gap: Micros, worker: string, claimedAt: Micros, events: seq<Event>, from: Micros,
    span: Micros, i: nat, j: nat)
    requires 0 < interval && 0 <= gap && JustClaimed(w, worker, claimedAt) && Steady(w, gap, events)
    requires var times := ObserveAll(w, interval, worker, events).consulted;
             i <= j < |times| && from <= times[i] && times[j] <= from + span
    ensures j - i + 1 <= span / interval + 1
  {
    WatchIsTracked(w, interval, gap, worker, events);
    var times := ObserveAll(w, interval, worker, events).consulted;
    SpacedApart(times, interval, i, j);
    assert (j - i) * interval <= span;
    QuotientBound(j - i, interval, span);
  }
}
