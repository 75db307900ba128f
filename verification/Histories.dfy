/**
  What whole runs of operations write, and what the archive verifier makes of
  it: every exported history of a reachable store is accepted.
 */
module Histories {
  import opened Records
  import opened Dispatch
  import opened Tables
  import opened Retention
  import opened EventLog
  import opened Coarse
  import opened Changes
  import opened HistoryOrder
  import Archive
  import Store

  /** No run in the list trims event logs; expiry of old jobs is allowed. */
  predicate Uncapped(ops: seq<Op>) {
    forall op | op in ops && op.PruneRun? :: op.policy.maxEventsPerJob <= 0
  }

  /** The log still starts with the job's creation: scheduled when the job has a run time, enqueued when it has none. */
  predicate Created(log: seq<Event>, j: Job) {
    log != [] && log[0].kind == if j.runAt.Some? then Scheduled else Enqueued
  }

  /** Leases granted since the last enqueue or requeue. */
  function LeasesInBudget(log: seq<Event>): nat {
    if log == [] then 0
    else
      var front, last := log[..|log| - 1], log[|log| - 1].kind;
      if last.Enqueued? || last.Scheduled? || last.Requeued? then 0
      else LeasesInBudget(front) + if last.LeaseTaken? then 1 else 0
  }

  /** Attempts on record: one per spent attempt, and one for the attempt that runs or succeeded. */
  function AttemptsOf(j: Job): int {
    j.retryCount + if j.state == Leased || j.state == Completed then 1 else 0
  }

  ghost predicate HistoryKept(t: Contents) {
    forall id | id in t.jobs ::
      Created(Log(t.events, id), t.jobs[id]) && LeasesInBudget(Log(t.events, id)) == AttemptsOf(t.jobs[id])
  }

  lemma ChangeKeepsHistory(t: Contents, c: Change)
    requires HistoryKept(t) && GoodChange(t, c)
    ensures HistoryKept(ApplyChange(t, c))
  {
    var e := Event(t.nextEventId, c.id, c.kind, c.at);
    forall id | id in ApplyChange(t, c).jobs
      ensures Created(Log(t.events + [e], id), ApplyChange(t, c).jobs[id])
      ensures LeasesInBudget(Log(t.events + [e], id)) == AttemptsOf(ApplyChange(t, c).jobs[id])
    {
      var log := Log(t.events, id);
      LogAppend(t.events, e, id);
      if id != c.id {
        assert log + [] == log;
      } else {
        if c.Born? { LogEmpty(t.events, id); }
        assert (log + [e])[..|log|] == log;
      }
    }
  }

  lemma {:induction false} ChangesKeepHistory(t: Contents, cs: seq<Change>)
    requires HistoryKept(t) && AllGood(t, cs)
    ensures HistoryKept(ApplyAll(t, cs))
    decreases |cs|
  {
    if cs != [] {
      ChangeKeepsHistory(t, cs[0]);
      ChangesKeepHistory(ApplyChange(t, cs[0]), cs[1..]);
    }
  }

  lemma ExpiryKeepsHistory(db: Db, p: Policy, source: Source, now: int)
    requires HistoryKept(ContentsOf(db)) && p.maxEventsPerJob <= 0
    ensures HistoryKept(ContentsOf(Prune(db, p, source, now)))
  {
    if !source.OtherSource? {
      var gone := Doomed(db.jobs, p, now);
      PruneTables(db, p, source, now);
      forall id | id in db.jobs && id !in gone
        ensures Log(DropJobs(db.events, gone), id) == Log(db.events, id)
      {
        DropJobsLog(db.events, gone, id);
      }
    }
  }

  /** In every run that trims no log, complete histories and attempt accounting hold. */
  lemma {:induction false} RunKeepsHistory(aging: int, ops: seq<Op>)
    requires Legal(aging, START, ops) && Uncapped(ops)
    ensures HistoryKept(ContentsOf(After(aging, START, ops).db))
  {
    if ops != [] {
      var front, op := ops[..|ops| - 1], ops[|ops| - 1];
      var w := After(aging, START, front);
      RunKeepsHistory(aging, front);
      RunKeeps(aging, START, front);
      if op.PruneRun? {
        ExpiryKeepsHistory(w.db, op.policy, op.source, op.now);
      } else {
        StepShape(aging, w, op);
        ChangesKeepHistory(ContentsOf(w.db), ChangesOf(aging, w.db, op));
      }
    }
  }

  // ---- Attempts, in every run ----

  /** How one change counts for a job: a new budget starts at zero, and a lease is one attempt. */
  function Counted(n: nat, c: Change, id: JobId): nat {
    if c.id != id then n
    else if c.Born? || c.kind.Requeued? then 0
    else if c.kind.LeaseTaken? then n + 1
    else n
  }

  function CountAll(n: nat, cs: seq<Change>, id: JobId): nat
    decreases |cs|
  {
    if cs == [] then n else CountAll(Counted(n, cs[0], id), cs[1..], id)
  }

  /** Leases that the run granted to the job since it was last enqueued or requeued. */
  ghost function Attempts(aging: int, ops: seq<Op>, id: JobId): nat {
    if ops == [] then 0
    else CountAll(Attempts(aging, ops[..|ops| - 1], id),
                  ChangesOf(aging, After(aging, START, ops[..|ops| - 1]).db, ops[|ops| - 1]), id)
  }

  lemma {:induction false} ChangesCount(t: Contents, cs: seq<Change>, n: nat, id: JobId)
    requires AllGood(t, cs) && (id in t.jobs ==> n == AttemptsOf(t.jobs[id]))
    ensures id in ApplyAll(t, cs).jobs ==> CountAll(n, cs, id) == AttemptsOf(ApplyAll(t, cs).jobs[id])
    decreases |cs|
  {
    if cs != [] { ChangesCount(ApplyChange(t, cs[0]), cs[1..], Counted(n, cs[0], id), id); }
  }

  lemma StepCounts(aging: int, w: World, op: Op, n: nat, id: JobId)
    requires Inv(w) && Enabled(w, op) && (id in w.db.jobs ==> n == AttemptsOf(w.db.jobs[id]))
    ensures id in Apply(aging, w.db, op).jobs ==>
            CountAll(n, ChangesOf(aging, w.db, op), id) == AttemptsOf(Apply(aging, w.db, op).jobs[id])
  {
    if !op.PruneRun? {
      StepShape(aging, w, op);
      ChangesCount(ContentsOf(w.db), ChangesOf(aging, w.db, op), n, id);
    }
  }

  /** The count is right for every job that is present. */
  ghost predicate CountRight(aging: int, ops: seq<Op>, id: JobId) {
    var jobs := After(aging, START, ops).db.jobs;
    id in jobs ==> Attempts(aging, ops, id) == AttemptsOf(jobs[id])
  }

  lemma {:induction false} RunCountsAttempts(aging: int, ops: seq<Op>, id: JobId)
    requires Legal(aging, START, ops)
    ensures CountRight(aging, ops, id)
  {
    if ops != [] {
      var front := ops[..|ops| - 1];
      RunCountsAttempts(aging, front, id);
      RunKeeps(aging, START, front);
      StepCounts(aging, After(aging, START, front), ops[|ops| - 1], Attempts(aging, front, id), id);
    }
  }

  /** The leases of this budget are the attempts on record, which fit it; the dead letter has used it up. */
  predicate Accounted(j: Job, leases: nat) {
    && leases == AttemptsOf(j) <= j.maxAttempts
    && (if j.state == DeadLetter then j.retryCount == j.maxAttempts else 0 <= j.retryCount < j.maxAttempts)
  }

  lemma RowAccounted(w: World, id: JobId, leases: nat)
    requires Inv(w) && id in w.db.jobs && leases == AttemptsOf(w.db.jobs[id])
    ensures Accounted(w.db.jobs[id], leases)
  {
    assert RowOk(w.db.jobs[id], w.clock);
  }

  /**
    In every run, trimmed logs or not, no job is leased more often than its budget
    allows between one enqueue or requeue and the next.
   */
  lemma AttemptAccounting(aging: int, ops: seq<Op>, id: JobId)
    requires Legal(aging, START, ops) && id in After(aging, START, ops).db.jobs
    ensures Accounted(After(aging, START, ops).db.jobs[id], Attempts(aging, ops, id))
  {
    RunCountsAttempts(aging, ops, id);
    RunKeeps(aging, START, ops);
    RowAccounted(After(aging, START, ops), id, Attempts(aging, ops, id));
  }

  /** An untrimmed log shows them all. */
  lemma LogShowsAttempts(aging: int, ops: seq<Op>, id: JobId)
    requires Legal(aging, START, ops) && Uncapped(ops) && id in After(aging, START, ops).db.jobs
    ensures LeasesInBudget(Log(After(aging, START, ops).db.events, id)) == Attempts(aging, ops, id)
  {
    RunKeepsHistory(aging, ops);
    RunCountsAttempts(aging, ops, id);
  }

  // ---- Writer and verifier ----

  /** The export of the listed jobs, one line a job; a filter and a sort order choose the list. */
  function Export(db: Db, order: seq<JobId>): seq<Archive.Line>
    requires forall id | id in order :: id in db.jobs
  {
    seq(|order|, i requires 0 <= i < |order| =>
      Archive.Decoded(Archive.Record(Archive.SCHEMA_VERSION, order[i], db.jobs[order[i]], Log(db.events, order[i]))))
  }

  predicate Selection(db: Db, order: seq<JobId>) {
    && (forall id | id in order :: id in db.jobs)
    && (forall i, k | 0 <= i < k < |order| :: order[i] != order[k])
  }

  /** The jobs that the lines of an archive are about. */
  function JobsOf(lines: seq<Archive.Line>): seq<JobId> {
    seq(|lines|, i requires 0 <= i < |lines| => if lines[i].Decoded? then lines[i].record.jobId else "")
  }

  /** The export command: read the histories the filter lists, then write one record a history. */
  method WriteHistoryExport(store: Store.SQLiteStore, f: HistoryFilter) returns (lines: seq<Archive.Line>, count: nat)
    ensures IsListing(store.jobs, store.events, f, JobsOf(lines)) && Selection(store.Table(), JobsOf(lines))
    ensures lines == Export(store.Table(), JobsOf(lines)) && count == |lines|
  {
    var histories := store.GetJobHistories(f);
    ghost var order := Store.IdsOf(histories);
    ListingDistinct(store.jobs, store.events, order);
    lines := [];
    var i := 0;
    while i < |histories|
      invariant 0 <= i <= |histories|
      invariant lines == Export(store.Table(), order)[..i]
    {
      assert histories[i] in histories && order[i] == histories[i].id;
      lines := lines + [Archive.Decoded(
        Archive.Record(Archive.SCHEMA_VERSION, histories[i].id, histories[i].job, histories[i].events))];
      i := i + 1;
    }
    assert lines == Export(store.Table(), order) && JobsOf(lines) == order;
    return lines, |histories|;
  }

  lemma ExportedRecordOk(w: World, id: JobId)
    requires Inv(w) && id in w.db.jobs
    ensures Archive.RecordOk(Archive.Record(Archive.SCHEMA_VERSION, id, w.db.jobs[id], Log(w.db.events, id)))
  {
    var log := Log(w.db.events, id);
    assert RowOk(w.db.jobs[id], w.clock);
    LogMembers(w.db.events, id);
    LogSubsequence(w.db.events, id);
    SubsequenceRising(log, w.db.events);
    forall e | e in log ensures e.id > 0 && e.jobId == id && e.at != ZERO_TIME {
      assert e in w.db.events;
    }
  }

  lemma ExportedDisjoint(db: Db, clock: int, a: JobId, b: JobId)
    requires EventsOk(db, clock) && a != b
    ensures forall e, f | e in Log(db.events, a) && f in Log(db.events, b) :: e.id != f.id
  {
    LogMembers(db.events, a);
    LogMembers(db.events, b);
    forall e, f | e in Log(db.events, a) && f in Log(db.events, b) ensures e.id != f.id {
      var i :| 0 <= i < |db.events| && db.events[i] == e;
      var k :| 0 <= k < |db.events| && db.events[k] == f;
    }
  }

  /** Any export of any store in good order is a good archive. */
  lemma ExportOk(w: World, order: seq<JobId>)
    requires Inv(w) && Selection(w.db, order)
    ensures Archive.ArchiveOk(Export(w.db, order))
  {
    var lines := Export(w.db, order);
    forall k | 0 <= k < |lines|
      ensures lines[k].Decoded? && Archive.RecordOk(lines[k].record)
    {
      assert order[k] in order;
      ExportedRecordOk(w, order[k]);
    }
    forall m, k | 0 <= m < k < |lines|
      ensures Archive.Disjoint(lines[m].record, lines[k].record)
    {
      ExportedDisjoint(w.db, w.clock, order[m], order[k]);
    }
  }

  /** The verifier accepts every export of a store in good order. */
  lemma ExportAccepted(w: World, order: seq<JobId>)
    requires Inv(w) && Selection(w.db, order)
    ensures var report := Archive.ReportOf(Export(w.db, order));
            report.Valid() && report.records == report.validRecords == |order|
  {
    var lines := Export(w.db, order);
    ExportOk(w, order);
    Archive.VerifierExact(lines);
    Archive.RecordCounts(lines);
  }

  /** Logs that still start with the job's creation earn no warning. */
  lemma CompleteLogsUnwarned(db: Db, order: seq<JobId>)
    requires HistoryKept(ContentsOf(db)) && Selection(db, order)
    ensures Archive.ReportOf(Export(db, order)).warnings == []
  {
    var lines := Export(db, order);
    forall k | 0 <= k < |lines| ensures !Archive.Truncated(lines[k].record.events) {
      assert order[k] in order;
    }
    Archive.RecordCounts(lines);
  }

  /** Each log determines the stored state: it replays to that state and to no other. */
  lemma LogsDetermineState(w: World, id: JobId, st: JobState)
    requires Inv(w) && id in w.db.jobs
    ensures Replays(Log(w.db.events, id), st) <==> st == w.db.jobs[id].state
  {
    if Replays(Log(w.db.events, id), st) { ReplayUnique(Log(w.db.events, id), st, w.db.jobs[id].state); }
  }

  /** No two warnings name the same job. */
  predicate OneWarningAJob(warnings: seq<Archive.Issue>) {
    forall i, k | 0 <= i < k < |warnings| :: warnings[i].jobId != warnings[k].jobId
  }

  lemma WarnedJobs(warnings: seq<Archive.Issue>, lines: seq<Archive.Line>, order: seq<JobId>)
    requires Archive.WarningsByLine(warnings, lines) && |lines| == |order|
    requires forall i | 0 <= i < |order| :: lines[i].Decoded? && lines[i].record.jobId == order[i]
    requires forall i, k | 0 <= i < k < |order| :: order[i] != order[k]
    ensures OneWarningAJob(warnings) && forall w | w in warnings :: w.jobId in order
  {
    forall w | w in warnings ensures w.jobId in order {
      assert w.jobId == order[w.line - 1];
    }
    forall i, k | 0 <= i < k < |warnings| ensures warnings[i].jobId != warnings[k].jobId {
      assert warnings[i] in warnings && warnings[k] in warnings;
      assert warnings[i].jobId == order[warnings[i].line - 1] && warnings[k].jobId == order[warnings[k].line - 1];
    }
  }

  lemma ExportWarnsOnce(db: Db, order: seq<JobId>)
    requires Selection(db, order)
    ensures var warnings := Archive.ReportOf(Export(db, order)).warnings;
            OneWarningAJob(warnings) && forall w | w in warnings :: w.jobId in order
  {
    var lines := Export(db, order);
    Archive.WarningsExact(lines);
    WarnedJobs(Archive.ReportOf(lines).warnings, lines, order);
  }

  /**
    Writer and verifier agree. After every run of enqueues, leases, renewals,
    acknowledgements, failures, recoveries, requeues and prunes, the verifier
    finds no issue in any export, at most one warning a job, and each log
    replays to exactly the stored state. Without log trimming there is no warning.
   */
  lemma WriterVerifierAgreement(aging: int, ops: seq<Op>, order: seq<JobId>)
    requires Legal(aging, START, ops) && Selection(After(aging, START, ops).db, order)
    ensures var db := After(aging, START, ops).db;
            var report := Archive.ReportOf(Export(db, order));
            && report.Valid() && report.records == report.validRecords == |order|
            && OneWarningAJob(report.warnings) && (forall w | w in report.warnings :: w.jobId in order)
            && (Uncapped(ops) ==> report.warnings == [])
            && forall id, st | id in db.jobs :: Replays(Log(db.events, id), st) <==> st == db.jobs[id].state
  {
    var w := After(aging, START, ops);
    RunKeeps(aging, START, ops);
    ExportAccepted(w, order);
    ExportWarnsOnce(w.db, order);
    if Uncapped(ops) {
      RunKeepsHistory(aging, ops);
      CompleteLogsUnwarned(w.db, order);
    }
    forall id, st | id in w.db.jobs ensures Replays(Log(w.db.events, id), st) <==> st == w.db.jobs[id].state {
      LogsDetermineState(w, id, st);
    }
  }
}
