/** How often a worker renews a lease, and exactly when that keeps the lease from recovery. */
module Heartbeat {
  import opened Records
  import opened Dispatch
  import opened Tables
  import opened Coarse
  import opened Changes
  import Q = QueueOps

  /** The configured renewal interval, or a third of the lease, rounded toward zero, when it is not positive. */
  function RenewalInterval(configured: int, lease: int): int {
    if configured > 0 then configured else TruncDiv(lease, 3)
  }

  /** The job runs under the token's lease, for a full lease from the last heartbeat. */
  predicate Running(jobs: Jobs, id: JobId, token: Token, beat: int, lease: int) {
    id in jobs && jobs[id].state == Leased && jobs[id].token == Some(token) &&
        jobs[id].leasedUntil == Some(beat + lease)
  }

  predicate Beats(op: Op, id: JobId, token: Token) {
    op.Renew? && op.id == id && op.token == token
  }

  function NextBeat(op: Op, id: JobId, token: Token, beat: int): int {
    if Beats(op, id, token) then op.now else beat
  }

  /** When the run last renewed the lease; the start of the lease when it did not. */
  function LastBeat(ops: seq<Op>, id: JobId, token: Token, leased: int): int {
    if ops == [] then leased
    else NextBeat(ops[|ops| - 1], id, token, LastBeat(ops[..|ops| - 1], id, token, leased))
  }

  /** No operation of anyone takes effect more than gap after the last heartbeat: the next heartbeat is never later. */
  predicate InTime(ops: seq<Op>, id: JobId, token: Token, leased: int, gap: int) {
    ops == [] || (InTime(ops[..|ops| - 1], id, token, leased, gap)
                  && ops[|ops| - 1].now <= LastBeat(ops[..|ops| - 1], id, token, leased) + gap)
  }

  /** The owner has not finished the job, and renews for the full lease. */
  predicate OwnerRuns(op: Op, id: JobId, token: Token, lease: int) {
    && (op.Acknowledge? && op.id == id ==> op.token != "" && op.token != token)
    && (op.Fail? && op.id == id ==> op.token != "" && op.token != token)
    && (Beats(op, id, token) ==> op.duration == lease)
  }

  lemma {:induction false} ChangesKeepOthers(t: Contents, cs: seq<Change>, id: JobId)
    requires id in t.jobs && forall c | c in cs :: c.id != id
    ensures id in ApplyAll(t, cs).jobs && ApplyAll(t, cs).jobs[id] == t.jobs[id]
    decreases |cs|
  {
    if cs != [] {
      assert cs[0] in cs;
      ChangesKeepOthers(ApplyChange(t, cs[0]), cs[1..], id);
    }
  }

  /** Only a heartbeat changes the row of a running job before its deadline. */
  lemma ChangesElsewhere(aging: int, w: World, op: Op, id: JobId, token: Token, beat: int, lease: int)
    requires Enabled(w, op) && Running(w.db.jobs, id, token, beat, lease) && id in w.db.ids
    requires op.now <= beat + lease && OwnerRuns(op, id, token, lease) && !Beats(op, id, token) && !op.PruneRun?
    ensures forall c | c in ChangesOf(aging, w.db, op) :: c.id != id
  {
    if op.Lease? {
      var best := Choose(w.db.jobs, op.kind, op.now, aging);
      assert best.Some? ==> w.db.jobs[best.value].state == Pending;
    }
  }

  lemma UntouchedRow(aging: int, w: World, op: Op, id: JobId)
    requires Inv(w) && Enabled(w, op) && !op.PruneRun? && id in w.db.jobs
    requires forall c | c in ChangesOf(aging, w.db, op) :: c.id != id
    ensures id in Apply(aging, w.db, op).jobs && Apply(aging, w.db, op).jobs[id] == w.db.jobs[id]
  {
    StepShape(aging, w, op);
    ChangesKeepOthers(ContentsOf(w.db), ChangesOf(aging, w.db, op), id);
  }

  lemma BeatExtends(aging: int, db: Db, op: Op, id: JobId, token: Token, beat: int, lease: int)
    requires Running(db.jobs, id, token, beat, lease) && Beats(op, id, token) && op.duration == lease
    ensures Running(Apply(aging, db, op).jobs, id, token, NextBeat(op, id, token, beat), lease)
  {
  }

  lemma PruneSparesRunning(aging: int, db: Db, op: Op, id: JobId, token: Token, beat: int, lease: int)
    requires Running(db.jobs, id, token, beat, lease) && op.PruneRun?
    ensures Running(Apply(aging, db, op).jobs, id, token, NextBeat(op, id, token, beat), lease)
  {
  }

  lemma SameRowRuns(before: Jobs, after: Jobs, id: JobId, token: Token, beat: int, lease: int)
    requires Running(before, id, token, beat, lease) && id in after && after[id] == before[id]
    ensures Running(after, id, token, beat, lease)
  {
  }

  lemma OthersSpareRunning(aging: int, w: World, op: Op, id: JobId, token: Token, beat: int, lease: int)
    requires Inv(w) && Enabled(w, op) && Running(w.db.jobs, id, token, beat, lease)
    requires op.now <= beat + lease && OwnerRuns(op, id, token, lease) && !Beats(op, id, token) && !op.PruneRun?
    ensures Running(Apply(aging, w.db, op).jobs, id, token, NextBeat(op, id, token, beat), lease)
  {
    ChangesElsewhere(aging, w, op, id, token, beat, lease);
    UntouchedRow(aging, w, op, id);
    SameRowRuns(w.db.jobs, Apply(aging, w.db, op).jobs, id, token, beat, lease);
  }

  lemma StepKeepsLease(aging: int, w: World, op: Op, id: JobId, token: Token, beat: int, lease: int)
    requires Inv(w) && Enabled(w, op) && Running(w.db.jobs, id, token, beat, lease)
    requires op.now <= beat + lease && OwnerRuns(op, id, token, lease)
    ensures Running(Apply(aging, w.db, op).jobs, id, token, NextBeat(op, id, token, beat), lease)
  {
    if Beats(op, id, token) {
      BeatExtends(aging, w.db, op, id, token, beat, lease);
    } else if op.PruneRun? {
      PruneSparesRunning(aging, w.db, op, id, token, beat, lease);
    } else {
      OthersSpareRunning(aging, w, op, id, token, beat, lease);
    }
  }

  /** After the run the job still runs, for a full lease from the last heartbeat. */
  ghost predicate Lasts(aging: int, from: World, ops: seq<Op>, id: JobId, token: Token, leased: int, lease: int) {
    Running(After(aging, from, ops).db.jobs, id, token, LastBeat(ops, id, token, leased), lease)
  }

  lemma OneMoreOperation(aging: int, from: World, ops: seq<Op>, id: JobId, token: Token, leased: int, lease: int,
      w: World)
    requires ops != [] && w == After(aging, from, ops[..|ops| - 1])
    requires var op := ops[|ops| - 1];
             Running(Apply(aging, w.db, op).jobs, id, token,
                 NextBeat(op, id, token, LastBeat(ops[..|ops| - 1], id, token, leased)), lease)
    ensures Lasts(aging, from, ops, id, token, leased, lease)
  {
    assert After(aging, from, ops) == Step(aging, w, ops[|ops| - 1]);
  }

  /** Whatever everyone else does, a lease whose heartbeats come in time stays with its owner. */
  lemma {:induction false} HeartbeatKeepsLease(aging: int, from: World, ops: seq<Op>, id: JobId, token: Token,
                                               leased: int, lease: int, gap: int)
    requires Inv(from) && Legal(aging, from, ops) && Running(from.db.jobs, id, token, leased, lease) && gap <= lease
    requires InTime(ops, id, token, leased, gap) && forall op | op in ops :: OwnerRuns(op, id, token, lease)
    ensures Lasts(aging, from, ops, id, token, leased, lease)
  {
    if ops != [] {
      var w := After(aging, from, ops[..|ops| - 1]);
      HeartbeatKeepsLease(aging, from, ops[..|ops| - 1], id, token, leased, lease, gap);
      RunKeeps(aging, from, ops[..|ops| - 1]);
      StepKeepsLease(aging, w, ops[|ops| - 1], id, token, LastBeat(ops[..|ops| - 1], id, token, leased), lease);
      OneMoreOperation(aging, from, ops, id, token, leased, lease, w);
    }
  }

  // ---- Slower heartbeats are not enough ----

  predicate InScan(scan: seq<Row>, id: JobId) {
    exists i :: 0 <= i < |scan| && scan[i].id == id
  }

  lemma {:induction false} ScanOf(jobs: Jobs, ids: set<JobId>) returns (scan: seq<Row>)
    requires ids <= jobs.Keys
    ensures forall i | 0 <= i < |scan| :: scan[i].id in ids && scan[i].job == jobs[scan[i].id]
    ensures forall i, k | 0 <= i < k < |scan| :: scan[i].id != scan[k].id
    ensures forall id | id in ids :: InScan(scan, id)
    decreases |ids|
  {
    scan := [];
    if ids != {} {
      var first :| first in ids;
      var rest := ScanOf(jobs, ids - {first});
      scan := [Row(first, jobs[first])] + rest;
      assert scan[0].id == first;
      forall id | id in ids && id != first ensures InScan(scan, id) {
        assert InScan(rest, id);
        var k :| 0 <= k < |rest| && rest[k].id == id;
        assert scan[k + 1].id == id;
      }
    }
  }

  lemma {:induction false} WritesRelease(db: Db, scan: seq<Row>, now: int, id: JobId)
    requires id in db.jobs
    ensures id in Q.RecoverRows(db, scan, now).jobs
    ensures db.jobs[id].state != Leased || InScan(scan, id) ==>
            Q.RecoverRows(db, scan, now).jobs[id].state != Leased
    decreases |scan|
  {
    if scan != [] {
      WritesRelease(RecoverStmt(db, scan[0], now), scan[1..], now, id);
      if i :| 0 < i < |scan| && scan[i].id == id { assert scan[1..][i - 1].id == id; }
    }
  }

  /** A recovery after the deadline ends the lease. */
  lemma LateRecovery(aging: int, w: World, id: JobId, token: Token, beat: int, lease: int, now: int) returns (op: Op)
    requires Running(w.db.jobs, id, token, beat, lease) && w.clock <= now && beat + lease < now
    ensures op.Recover? && op.now == now && Enabled(w, op)
    ensures !Running(Apply(aging, w.db, op).jobs, id, token, beat, lease)
  {
    var scan := ScanOf(w.db.jobs, Orphans(w.db.jobs, now));
    assert InScan(scan, id);
    op := Recover(scan, now, now);
    assert IsOrphanScan(w.db.jobs, scan, now) by {
      forall x | x in w.db.jobs && IsOrphan(w.db.jobs[x], now) ensures exists i :: 0 <= i < |scan| && scan[i].id == x {
        assert InScan(scan, x);
      }
    }
    WritesRelease(w.db, scan, now, id);
    LoggingKeepsJobs(Q.RecoverRows(w.db, scan, now), Q.Touched(w.db, scan, now), now);
  }

  /** In every legal run whose heartbeats come within the gap, the lease stays with its owner. */
  ghost predicate Kept(aging: int, from: World, id: JobId, token: Token, leased: int, lease: int, gap: int) {
    forall ops: seq<Op> |
      Legal(aging, from, ops) && InTime(ops, id, token, leased, gap) &&
          (forall op | op in ops :: OwnerRuns(op, id, token, lease)) ::
      Lasts(aging, from, ops, id, token, leased, lease)
  }

  lemma OneOperation(aging: int, from: World, op: Op, id: JobId, token: Token, leased: int, gap: int)
    requires Enabled(from, op) && !Beats(op, id, token) && op.now <= leased + gap
    ensures Legal(aging, from, [op]) && After(aging, from, [op]) == Step(aging, from, op)
    ensures InTime([op], id, token, leased, gap) && LastBeat([op], id, token, leased) == leased
  {
    var ops := [op];
    assert ops[..|ops| - 1] == [] && ops[|ops| - 1] == op;
    assert After(aging, from, ops[..|ops| - 1]) == from && LastBeat(ops[..|ops| - 1], id, token, leased) == leased;
    assert Legal(aging, from, ops[..|ops| - 1]) && InTime(ops[..|ops| - 1], id, token, leased, gap);
  }

  lemma SlowBeatsLose(aging: int, from: World, id: JobId, token: Token, leased: int, lease: int, gap: int)
    requires Running(from.db.jobs, id, token, leased, lease) && from.clock <= leased + gap && lease < gap
    ensures !Kept(aging, from, id, token, leased, lease, gap)
  {
    var op := LateRecovery(aging, from, id, token, leased, lease, leased + gap);
    OneOperation(aging, from, op, id, token, leased, gap);
    assert forall x | x in [op] :: OwnerRuns(x, id, token, lease);
    assert !Lasts(aging, from, [op], id, token, leased, lease);
  }

  lemma PromptBeatsKeep(aging: int, from: World, id: JobId, token: Token, leased: int, lease: int, gap: int)
    requires Inv(from) && Running(from.db.jobs, id, token, leased, lease) && gap <= lease
    ensures Kept(aging, from, id, token, leased, lease, gap)
  {
    forall ops: seq<Op> |
      Legal(aging, from, ops) && InTime(ops, id, token, leased, gap) &&
          (forall op | op in ops :: OwnerRuns(op, id, token, lease))
      ensures Lasts(aging, from, ops, id, token, leased, lease)
    {
      HeartbeatKeepsLease(aging, from, ops, id, token, leased, lease, gap);
    }
  }

  /** Heartbeats at most a gap apart keep a running job from every recovery exactly when the gap fits the lease. */
  lemma HeartbeatExact(aging: int, from: World, id: JobId, token: Token, leased: int, lease: int, gap: int)
    requires Inv(from) && Running(from.db.jobs, id, token, leased, lease) && from.clock <= leased + gap
    ensures Kept(aging, from, id, token, leased, lease, gap) <==> gap <= lease
  {
    if gap <= lease {
      PromptBeatsKeep(aging, from, id, token, leased, lease, gap);
    } else {
      SlowBeatsLose(aging, from, id, token, leased, lease, gap);
    }
  }

  /**
    A positive setting is used as it is. Otherwise the interval is a whole third of
    the lease; the worker has a heartbeat at all exactly for leases of length at least 3.
   */
  lemma RenewalIntervalExact(configured: int, lease: int)
    ensures var interval := RenewalInterval(configured, lease);
            if configured > 0 then interval == configured
            else (interval > 0 <==> lease >= 3) && (lease >= 3 ==> 3 * interval <= lease < 3 * (interval + 1))
  {
  }

  // ---- The worker's timer ----

  /** When the next heartbeat is due: the timer runs for one interval from the lease, and again from each renewal. */
  function Due(ops: seq<Op>, id: JobId, token: Token, leased: int, interval: int): int {
    LastBeat(ops, id, token, leased) + interval
  }

  /**
    Every heartbeat takes effect no earlier than it is due and at most d later;
    until then nothing runs later than that.
   */
  predicate OnSchedule(ops: seq<Op>, id: JobId, token: Token, leased: int, interval: int, d: int) {
    ops == [] || (
      var front, op := ops[..|ops| - 1], ops[|ops| - 1];
      && OnSchedule(front, id, token, leased, interval, d)
      && op.now <= Due(front, id, token, leased, interval) + d
      && (Beats(op, id, token) ==> Due(front, id, token, leased, interval) <= op.now))
  }

  /** In every legal run whose heartbeats keep the schedule, the lease stays with its owner. */
  ghost predicate KeptOnSchedule(aging: int, from: World, id: JobId, token: Token,
                                 leased: int, lease: int, interval: int, d: int)
  {
    forall ops: seq<Op> |
      Legal(aging, from, ops) && OnSchedule(ops, id, token, leased, interval, d) &&
      (forall op | op in ops :: OwnerRuns(op, id, token, lease)) ::
      Lasts(aging, from, ops, id, token, leased, lease)
  }

  lemma {:induction false} ScheduleIsInTime(ops: seq<Op>, id: JobId, token: Token, leased: int, interval: int, d: int,
      gap: int)
    requires OnSchedule(ops, id, token, leased, interval, d) && gap == interval + d
    ensures InTime(ops, id, token, leased, gap)
  {
    if ops != [] { ScheduleIsInTime(ops[..|ops| - 1], id, token, leased, interval, d, gap); }
  }

  lemma PromptScheduleKeeps(aging: int, from: World, id: JobId, token: Token, leased: int, lease: int, interval: int,
      d: int)
    requires Inv(from) && Running(from.db.jobs, id, token, leased, lease) && interval + d <= lease
    ensures KeptOnSchedule(aging, from, id, token, leased, lease, interval, d)
  {
    forall ops: seq<Op> |
      Legal(aging, from, ops) && OnSchedule(ops, id, token, leased, interval, d) &&
      (forall op | op in ops :: OwnerRuns(op, id, token, lease))
      ensures Lasts(aging, from, ops, id, token, leased, lease)
    {
      var gap := interval + d;
      ScheduleIsInTime(ops, id, token, leased, interval, d, gap);
      HeartbeatKeepsLease(aging, from, ops, id, token, leased, lease, gap);
    }
  }

  lemma LateScheduleLoses(aging: int, from: World, id: JobId, token: Token, leased: int, lease: int, interval: int,
      d: int)
    requires Running(from.db.jobs, id, token, leased, lease) && lease < interval + d &&
              from.clock <= leased + interval + d
    ensures !KeptOnSchedule(aging, from, id, token, leased, lease, interval, d)
  {
    var op := LateRecovery(aging, from, id, token, leased, lease, leased + interval + d);
    var ops := [op];
    OneOperation(aging, from, op, id, token, leased, interval + d);
    assert ops[..|ops| - 1] == [] && ops[|ops| - 1] == op;
    assert OnSchedule([], id, token, leased, interval, d) && Due([], id, token, leased, interval) == leased + interval;
    assert OnSchedule(ops, id, token, leased, interval, d);
    assert forall x | x in ops :: OwnerRuns(x, id, token, lease);
    assert !Lasts(aging, from, ops, id, token, leased, lease);
  }

  /**
    A worker whose every heartbeat takes effect at most d after it is due keeps its
    job from every recovery exactly when renewal interval plus delay fit the lease.
   */
  lemma LateHeartbeatExact(aging: int, from: World, id: JobId, token: Token, leased: int, lease: int,
      configured: int, interval: int, d: int)
    requires Inv(from) && Running(from.db.jobs, id, token, leased, lease) && from.clock <= leased + interval + d
    requires interval == RenewalInterval(configured, lease) > 0 && d >= 0
    ensures KeptOnSchedule(aging, from, id, token, leased, lease, interval, d) <==>
            RenewalInterval(configured, lease) + d <= lease
  {
    if interval + d <= lease {
      PromptScheduleKeeps(aging, from, id, token, leased, lease, interval, d);
    } else {
      LateScheduleLoses(aging, from, id, token, leased, lease, interval, d);
    }
  }
}
