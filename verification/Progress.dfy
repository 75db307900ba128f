/** Progress of whole runs: a drain ends, and no job waits for ever behind better ones. */
module Progress {
  import opened Records
  import opened Dispatch
  import opened Tables
  import opened Retention
  import opened EventLog
  import opened Coarse
  import opened Changes

  // ---- Sums over the jobs table ----

  ghost function Total(ids: set<JobId>, jobs: Jobs, weight: Row -> int): int
    requires ids <= jobs.Keys
    decreases |ids|
  {
    if ids == {} then 0
    else var id :| id in ids; weight(Row(id, jobs[id])) + Total(ids - {id}, jobs, weight)
  }

  lemma {:induction false} TotalSplit(ids: set<JobId>, jobs: Jobs, weight: Row -> int, x: JobId)
    requires ids <= jobs.Keys && x in ids
    ensures Total(ids, jobs, weight) == weight(Row(x, jobs[x])) + Total(ids - {x}, jobs, weight)
    decreases |ids|
  {
    var id :| id in ids && Total(ids, jobs, weight) == weight(Row(id, jobs[id])) + Total(ids - {id}, jobs, weight);
    if id != x {
      TotalSplit(ids - {id}, jobs, weight, x);
      TotalSplit(ids - {x}, jobs, weight, id);
      assert ids - {id} - {x} == ids - {x} - {id};
    }
  }

  lemma {:induction false} TotalSame(ids: set<JobId>, a: Jobs, b: Jobs, weight: Row -> int)
    requires ids <= a.Keys && ids <= b.Keys && forall id | id in ids :: a[id] == b[id]
    ensures Total(ids, a, weight) == Total(ids, b, weight)
    decreases |ids|
  {
    if ids != {} {
      var id :| id in ids;
      TotalSplit(ids, a, weight, id);
      TotalSplit(ids, b, weight, id);
      TotalSame(ids - {id}, a, b, weight);
    }
  }

  ghost function Sum(jobs: Jobs, weight: Row -> int): int {
    Total(jobs.Keys, jobs, weight)
  }

  lemma SumChange(jobs: Jobs, id: JobId, row: Job, weight: Row -> int)
    ensures Sum(jobs[id := row], weight)
         == Sum(jobs, weight) + weight(Row(id, row)) - if id in jobs then weight(Row(id, jobs[id])) else 0
  {
    var after := jobs[id := row];
    TotalSplit(after.Keys, after, weight, id);
    var others := after.Keys - {id};
    TotalSame(others, jobs, after, weight);
    if id in jobs {
      TotalSplit(jobs.Keys, jobs, weight, id);
      assert jobs.Keys - {id} == others;
    } else {
      assert jobs.Keys == others;
    }
  }

  lemma SumDropOne(jobs: Jobs, id: JobId, weight: Row -> int)
    requires id in jobs
    ensures Sum(jobs - {id}, weight) == Sum(jobs, weight) - weight(Row(id, jobs[id]))
  {
    TotalSplit(jobs.Keys, jobs, weight, id);
    assert (jobs - {id}).Keys == jobs.Keys - {id};
    TotalSame(jobs.Keys - {id}, jobs, jobs - {id}, weight);
  }

  lemma {:induction false} SumDrop(jobs: Jobs, gone: set<JobId>, weight: Row -> int)
    requires gone <= jobs.Keys && forall id | id in gone :: weight(Row(id, jobs[id])) == 0
    ensures Sum(jobs - gone, weight) == Sum(jobs, weight)
    decreases |gone|
  {
    if gone == {} {
      assert jobs - gone == jobs;
    } else {
      var id :| id in gone;
      SumDropOne(jobs, id, weight);
      SumDrop(jobs - {id}, gone - {id}, weight);
      assert jobs - gone == jobs - {id} - (gone - {id});
    }
  }

  // ---- Drain ----

  /** Twice the attempts left, minus one while an attempt runs. */
  function Work(r: Row): int {
    if r.job.state == Pending then 2 * (r.job.maxAttempts - r.job.retryCount)
    else if r.job.state == Leased then 2 * (r.job.maxAttempts - r.job.retryCount) - 1
    else 0
  }

  /** Steps of a drain: no new work comes in. */
  predicate Draining(op: Op) {
    !op.Enqueue? && !op.Requeue?
  }

  /** Job changes an operation makes, not counting heartbeats. */
  ghost function Effect(aging: int, db: Db, op: Op): nat {
    if op.Renew? then 0 else |ChangesOf(aging, db, op)|
  }

  lemma ChangeLowersWork(t: Contents, c: Change)
    requires GoodChange(t, c) && c.Moved? && !c.kind.Requeued?
    ensures Sum(ApplyChange(t, c).jobs, Work) <= Sum(t.jobs, Work) - if c.kind.LeaseRenewed? then 0 else 1
  {
    SumChange(t.jobs, c.id, c.row, Work);
  }

  lemma {:induction false} ChangesLowerWork(t: Contents, cs: seq<Change>)
    requires AllGood(t, cs)
    requires forall c | c in cs :: c.Moved? && !c.kind.Requeued? && !c.kind.LeaseRenewed?
    ensures Sum(ApplyAll(t, cs).jobs, Work) + |cs| <= Sum(t.jobs, Work)
    decreases |cs|
  {
    if cs != [] {
      ChangeLowersWork(t, cs[0]);
      ChangesLowerWork(ApplyChange(t, cs[0]), cs[1..]);
    }
  }

  lemma PruneKeepsSum(db: Db, p: Policy, source: Source, now: int, weight: Row -> int)
    requires forall id | id in db.jobs && Terminal(db.jobs[id].state) :: weight(Row(id, db.jobs[id])) == 0
    ensures Sum(Prune(db, p, source, now).jobs, weight) == Sum(db.jobs, weight)
  {
    if !source.OtherSource? {
      PruneTables(db, p, source, now);
      SumDrop(db.jobs, Doomed(db.jobs, p, now), weight);
    }
  }

  lemma RenewalKeepsWork(t: Contents, cs: seq<Change>)
    requires AllGood(t, cs) && |cs| <= 1 && forall c | c in cs :: c.Moved? && c.kind.LeaseRenewed?
    ensures Sum(ApplyAll(t, cs).jobs, Work) <= Sum(t.jobs, Work)
  {
    if cs != [] {
      assert cs == [cs[0]] && cs[0] in cs;
      One(t, cs[0]);
      ChangeLowersWork(t, cs[0]);
    }
  }

  lemma DrainingChanges(aging: int, db: Db, op: Op)
    requires Draining(op)
    ensures forall c | c in ChangesOf(aging, db, op) ::
              c.Moved? && !c.kind.Requeued? && (c.kind.LeaseRenewed? <==> op.Renew?)
    ensures op.Renew? ==> |ChangesOf(aging, db, op)| <= 1
  {
  }

  lemma StepLowersWork(aging: int, w: World, op: Op)
    requires Inv(w) && Enabled(w, op) && Draining(op)
    ensures Sum(Apply(aging, w.db, op).jobs, Work) + Effect(aging, w.db, op) <= Sum(w.db.jobs, Work)
  {
    if op.PruneRun? {
      PruneKeepsSum(w.db, op.policy, op.source, op.now, Work);
    } else {
      StepShape(aging, w, op);
      DrainingChanges(aging, w.db, op);
      if op.Renew? {
        RenewalKeepsWork(ContentsOf(w.db), ChangesOf(aging, w.db, op));
      } else {
        ChangesLowerWork(ContentsOf(w.db), ChangesOf(aging, w.db, op));
      }
    }
  }

  ghost function TotalEffect(aging: int, from: World, ops: seq<Op>): nat {
    if ops == [] then 0
    else TotalEffect(aging, from, ops[..|ops| - 1]) +
         Effect(aging, After(aging, from, ops[..|ops| - 1]).db, ops[|ops| - 1])
  }

  /** Without new work, a run makes at most as many job changes as the work it started with. */
  lemma {:induction false} DrainBound(aging: int, from: World, ops: seq<Op>)
    requires Inv(from) && Legal(aging, from, ops) && forall op | op in ops :: Draining(op)
    ensures TotalEffect(aging, from, ops) + Sum(After(aging, from, ops).db.jobs, Work) <= Sum(from.db.jobs, Work)
  {
    if ops != [] {
      var front := ops[..|ops| - 1];
      DrainBound(aging, from, front);
      RunKeeps(aging, from, front);
      StepLowersWork(aging, After(aging, from, front), ops[|ops| - 1]);
    }
  }

  lemma {:induction false} WorkLeft(ids: set<JobId>, jobs: Jobs)
    requires ids <= jobs.Keys && forall id | id in ids :: Work(Row(id, jobs[id])) >= 0
    ensures Total(ids, jobs, Work) >= 0
    ensures Total(ids, jobs, Work) == 0 <==> forall id | id in ids :: Work(Row(id, jobs[id])) == 0
    decreases |ids|
  {
    if ids != {} {
      var id :| id in ids;
      TotalSplit(ids, jobs, Work, id);
      WorkLeft(ids - {id}, jobs);
    }
  }

  /** The drain measure is zero exactly when no job is pending or leased. */
  lemma DrainedExact(w: World)
    requires Inv(w)
    ensures Sum(w.db.jobs, Work) >= 0
    ensures Sum(w.db.jobs, Work) == 0 <==>
            forall id | id in w.db.jobs :: w.db.jobs[id].state != Pending && w.db.jobs[id].state != Leased
  {
    forall id | id in w.db.jobs ensures RowOk(w.db.jobs[id], w.clock) {}
    WorkLeft(w.db.jobs.Keys, w.db.jobs);
  }

  /** At that instant no enabled step of a drain changes a job. */
  ghost predicate Stuck(aging: int, w: World, now: int) {
    forall op | Enabled(w, op) && Draining(op) && op.now == now :: Effect(aging, w.db, op) == 0
  }

  predicate NothingReady(jobs: Jobs, now: int) {
    forall id | id in jobs :: jobs[id].state != Leased && !jobs[id].ReadyFor(jobs[id].kind, now)
  }

  lemma StuckHasNoneReady(aging: int, w: World, now: int, token: Token, duration: int)
    requires w.clock <= now && token != "" && token !in w.db.tokens && Stuck(aging, w, now)
    ensures NothingReady(w.db.jobs, now)
  {
    var jobs := w.db.jobs;
    forall id | id in jobs ensures jobs[id].state != Leased && !jobs[id].ReadyFor(jobs[id].kind, now) {
      var lease := Lease(jobs[id].kind, duration, token, now, now);
      var finish := Acknowledge(id, "", now, now);
      assert Enabled(w, lease) && Enabled(w, finish);
      assert Effect(aging, w.db, lease) == 0 && Effect(aging, w.db, finish) == 0;
    }
  }

  lemma ScanFindsLeased(jobs: Jobs, scan: seq<Row>, now: int)
    requires IsOrphanScan(jobs, scan, now)
    ensures scan == [] || exists id :: id in jobs && jobs[id].state == Leased
  {
    if scan != [] { assert scan[0].id in jobs; }
  }

  lemma NoneReadyIsStuck(aging: int, w: World, op: Op)
    requires NothingReady(w.db.jobs, op.now) && Enabled(w, op) && Draining(op)
    requires forall id | id in w.db.jobs && w.db.jobs[id].token.Some? :: w.db.jobs[id].state == Leased
    ensures Effect(aging, w.db, op) == 0
  {
    var jobs := w.db.jobs;
    if op.Lease? {
      assert Choose(jobs, op.kind, op.now, aging) == None;
    } else if op.Recover? {
      ScanFindsLeased(jobs, op.scan, op.now);
    }
  }

  /** A drain that is stuck at time now has no ready and no leased job, and only then. */
  lemma StuckExact(aging: int, w: World, now: int, token: Token, duration: int)
    requires Inv(w) && w.clock <= now && token != "" && token !in w.db.tokens
    ensures Stuck(aging, w, now) <==> NothingReady(w.db.jobs, now)
  {
    if Stuck(aging, w, now) { StuckHasNoneReady(aging, w, now, token, duration); }
    if NothingReady(w.db.jobs, now) {
      assert forall id | id in w.db.jobs && w.db.jobs[id].token.Some? :: w.db.jobs[id].state == Leased;
      forall op | Enabled(w, op) && Draining(op) && op.now == now ensures Effect(aging, w.db, op) == 0 {
        NoneReadyIsStuck(aging, w, op);
      }
    }
  }

  // ---- Bounded bypass ----

  /** Ready times from this one on are outranked by a job of priority p, ready at r, when priorities are at most top. */
  function Horizon(r: int, p: int, top: int, aging: int): int {
    r + (top - p + 1) * aging
  }

  /** At every instant when both are ready, the waiting job comes before every job ready at or after its horizon. */
  lemma Outranks(w: Row, x: Row, top: int, now: int, aging: int)
    requires aging > 0 && w.job.ReadyAt() <= now && x.job.ReadyAt() <= now
    requires x.job.priority <= top && w.job.priority <= top
    requires x.job.ReadyAt() >= Horizon(w.job.ReadyAt(), w.job.priority, top, aging)
    ensures Before(w, x, now, aging)
  {
    var k := top - w.job.priority + 1;
    var waited := now - w.job.ReadyAt();
    DivMono(now - x.job.ReadyAt(), waited - k * aging, aging);
    DivShift(waited, k, aging);
    assert Effective(x.job, now, aging) <= top + waited / aging - k;
  }

  /** The later ready time of the two, when their waits compare. */
  function BothReady(w: Row, x: Row): int {
    if w.job.ReadyAt() >= x.job.ReadyAt() then w.job.ReadyAt() else x.job.ReadyAt()
  }

  lemma QuotientBelow(a: int, k: int, d: int)
    requires d > 0 && a < (k + 1) * d
    ensures a / d <= k
  {
    DivMono(a, (k + 1) * d - 1, d);
    assert (k + 1) * d - 1 == k * d + (d - 1);
    DivUnique((k + 1) * d - 1, d, k, d - 1);
  }

  /** A job of top priority ready before the horizon comes first at the instant when both are ready. */
  lemma BeforeHorizon(w: Row, x: Row, aging: int)
    requires aging > 0 && w.job.priority < x.job.priority
    requires x.job.ReadyAt() < Horizon(w.job.ReadyAt(), w.job.priority, x.job.priority, aging)
    ensures Before(x, w, BothReady(w, x), aging)
  {
    var now, k := BothReady(w, x), x.job.priority - w.job.priority;
    if w.job.ReadyAt() >= x.job.ReadyAt() {
      DivMono(0, now - x.job.ReadyAt(), aging);
    } else {
      QuotientBelow(now - w.job.ReadyAt(), k, aging);
    }
  }

  /**
    The horizon is exact: the waiting job comes before a job of higher, top priority
    at every instant if and only if that one is ready from the horizon on.
   */
  lemma HorizonExact(w: Row, x: Row, aging: int)
    requires aging > 0 && w.job.priority < x.job.priority && w.id != x.id
    ensures (forall now | w.job.ReadyAt() <= now && x.job.ReadyAt() <= now :: Before(w, x, now, aging)) <==>
            x.job.ReadyAt() >= Horizon(w.job.ReadyAt(), w.job.priority, x.job.priority, aging)
  {
    if x.job.ReadyAt() >= Horizon(w.job.ReadyAt(), w.job.priority, x.job.priority, aging) {
      forall now | w.job.ReadyAt() <= now && x.job.ReadyAt() <= now ensures Before(w, x, now, aging) {
        Outranks(w, x, x.job.priority, now, aging);
      }
    } else {
      BeforeHorizon(w, x, aging);
      BeforeTotal(w, x, BothReady(w, x), aging);
    }
  }
}
