/** Conservation over whole runs: nothing leaves the tables without a recorded retention run. */
module Accounting {
  import opened Records
  import opened Dispatch
  import opened Tables
  import opened Retention
  import opened EventLog
  import opened Coarse
  import opened Changes
  import Q = QueueOps

  /** Jobs the operation inserts: one, unless its idempotency key is taken. */
  ghost function Inserts(db: Db, op: Op): nat {
    if op.Enqueue? && !KeyTaken(db.jobs, Q.NewRow(op.spec, op.now).key) then 1 else 0
  }

  ghost function Inserted(aging: int, ops: seq<Op>): nat {
    if ops == [] then 0
    else Inserted(aging, ops[..|ops| - 1]) + Inserts(After(aging, START, ops[..|ops| - 1]).db, ops[|ops| - 1])
  }

  /** Events the run appended: one for each job change. */
  ghost function Appended(aging: int, ops: seq<Op>): nat {
    if ops == [] then 0
    else Appended(aging, ops[..|ops| - 1]) +
         |ChangesOf(aging, After(aging, START, ops[..|ops| - 1]).db, ops[|ops| - 1])|
  }

  lemma {:induction false} ChangesAppend(t: Contents, cs: seq<Change>)
    ensures ApplyAll(t, cs).nextEventId == t.nextEventId + |cs|
    decreases |cs|
  {
    if cs != [] { ChangesAppend(ApplyChange(t, cs[0]), cs[1..]); }
  }

  lemma {:induction false} RecoverKeepsIds(db: Db, scan: seq<Row>, now: int)
    ensures Q.RecoverRows(db, scan, now).ids == db.ids
    decreases |scan|
  {
    if scan != [] { RecoverKeepsIds(RecoverStmt(db, scan[0], now), scan[1..], now); }
  }

  lemma {:induction false} LoggingKeepsIds(db: Db, touched: seq<Row>, logged: int)
    ensures Q.LogRecovered(db, touched, logged).ids == db.ids
    decreases |touched|
  {
    if touched != [] {
      var one := AppendStmt(db, touched[0].id, Q.RecoveryEvent(touched[0].job.state), logged);
      LoggingKeepsIds(one, touched[1..], logged);
    }
  }

  lemma StepIds(aging: int, db: Db, op: Op)
    requires op.Enqueue? ==> op.id !in db.ids
    ensures |Apply(aging, db, op).ids| == |db.ids| + Inserts(db, op)
  {
    if op.Recover? {
      RecoverKeepsIds(db, op.scan, op.now);
      LoggingKeepsIds(Q.RecoverRows(db, op.scan, op.now), Q.Touched(db, op.scan, op.now), op.logged);
    }
  }

  lemma StepAppends(aging: int, w: World, op: Op)
    requires Inv(w) && Enabled(w, op)
    ensures Apply(aging, w.db, op).nextEventId == w.db.nextEventId + |ChangesOf(aging, w.db, op)|
  {
    if !op.PruneRun? {
      StepShape(aging, w, op);
      ChangesAppend(ContentsOf(w.db), ChangesOf(aging, w.db, op));
    }
  }

  lemma {:induction false} RunCounts(aging: int, ops: seq<Op>)
    requires Legal(aging, START, ops)
    ensures |After(aging, START, ops).db.ids| == Inserted(aging, ops)
    ensures After(aging, START, ops).db.nextEventId == Appended(aging, ops) + 1
  {
    if ops != [] {
      var front := ops[..|ops| - 1];
      RunCounts(aging, front);
      RunKeeps(aging, START, front);
      StepIds(aging, After(aging, START, front).db, ops[|ops| - 1]);
      StepAppends(aging, After(aging, START, front), ops[|ops| - 1]);
    }
  }

  /**
    Retention conservation: jobs inserted are present or were removed by a
    recorded run, and so are events appended; the totals split by source; and no
    event outlives its job.
   */
  lemma RetentionConservation(aging: int, ops: seq<Op>)
    requires Legal(aging, START, ops)
    ensures var db := After(aging, START, ops).db;
            var manual, auto := OfSource(db.runs, Manual), OfSource(db.runs, Auto);
            && Inserted(aging, ops) == |db.jobs| + JobsRemoved(manual) + JobsRemoved(auto)
            && Appended(aging, ops) == |db.events| + EventsRemoved(manual) + EventsRemoved(auto)
            && forall e | e in db.events :: e.jobId in db.jobs
  {
    RunKeeps(aging, START, ops);
    RunCounts(aging, ops);
    SourcesAddUp(After(aging, START, ops).db.runs);
  }
}
