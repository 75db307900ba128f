/** The heartbeat at the level of statements: what keeps a lease when recoveries of others are split too. */
module FencedHeartbeat {
  import opened Records
  import opened Dispatch
  import opened Tables
  import opened Ledger
  import opened Fine
  import opened Fencing
  import opened Timeline
  import opened Recoveries
  import opened Heartbeat
  import Q = QueueOps

  predicate BeatStmt(stmt: Stmt, id: JobId, token: Token) {
    stmt.RenewJob? && stmt.id == id && stmt.token == token
  }

  function BeatAfter(stmt: Stmt, id: JobId, token: Token, beat: int): int {
    if BeatStmt(stmt, id, token) then stmt.now else beat
  }

  /** The owner has not finished the job, and renews for the full lease. */
  predicate OwnerStays(s: System, stmt: Stmt, id: JobId, token: Token, lease: int)
    requires stmt.client < |s.pcs|
  {
    && (stmt.CompleteJob? && stmt.id == id ==> stmt.token != "" && stmt.token != token)
    && (stmt.FailWrite? && s.pcs[stmt.client].FailRead? && s.pcs[stmt.client].row.id == id ==>
          s.pcs[stmt.client].row.job.token != Some(token))
    && (BeatStmt(stmt, id, token) ==> stmt.duration == lease)
  }

  /** A recovery write that matches the job finds it still due. */
  predicate PromptFor(s: System, stmt: Stmt, id: JobId) {
    stmt.RecoverWrite? && WriteMatches(s, stmt.client) && s.pcs[stmt.client].todo[0].id == id ==>
        StillDue(s, stmt.client)
  }

  /** Before its deadline no other statement changes a running job. */
  lemma ActElsewhere(aging: int, s: System, stmt: Stmt, id: JobId, token: Token, beat: int, lease: int)
    requires TimesOk(s) && Can(s, stmt) && OwnerStays(s, stmt, id, token, lease) && PromptFor(s, stmt, id)
    requires Running(s.db.jobs, id, token, beat, lease) && s.clock <= beat + lease && !BeatStmt(stmt, id, token)
    ensures var act := ActOf(aging, s, stmt); act.Stay? || act.id != id
  {
    if stmt.LeaseJob? {
      var best := Choose(s.db.jobs, stmt.kind, stmt.now, aging);
      assert best.Some? ==> s.db.jobs[best.value].state == Pending;
    } else if stmt.RecoverWrite? {
      assert ScanTime(s.pcs[stmt.client]) <= s.clock;
    }
  }

  lemma OthersSpare(aging: int, s: System, stmt: Stmt, id: JobId, token: Token, beat: int, lease: int)
    requires TimesOk(s) && Can(s, stmt) && OwnerStays(s, stmt, id, token, lease) && PromptFor(s, stmt, id)
    requires Running(s.db.jobs, id, token, beat, lease) && s.clock <= beat + lease
    requires !BeatStmt(stmt, id, token) && !stmt.PruneTx?
    ensures Running(Exec(aging, s, stmt).db.jobs, id, token, beat, lease)
  {
    ActElsewhere(aging, s, stmt, id, token, beat, lease);
    JobsAfter(aging, s, stmt);
    SameRowRuns(s.db.jobs, Exec(aging, s, stmt).db.jobs, id, token, beat, lease);
  }

  lemma PruneSpares(aging: int, s: System, stmt: Stmt, id: JobId, token: Token, beat: int, lease: int)
    requires SystemOk(s) && Can(s, stmt) && stmt.PruneTx? && Running(s.db.jobs, id, token, beat, lease)
    ensures Running(Exec(aging, s, stmt).db.jobs, id, token, beat, lease)
  {
    var _ := JobsPruned(aging, s, stmt);
  }

  lemma BeatStmtExtends(aging: int, s: System, stmt: Stmt, id: JobId, token: Token, beat: int, lease: int)
    requires Can(s, stmt) && BeatStmt(stmt, id, token) && stmt.duration == lease &&
              Running(s.db.jobs, id, token, beat, lease)
    ensures Running(Exec(aging, s, stmt).db.jobs, id, token, stmt.now, lease)
  {
  }

  lemma StatementKeepsLease(aging: int, s: System, stmt: Stmt, id: JobId, token: Token, beat: int, lease: int)
    requires TimesOk(s) && Can(s, stmt) && OwnerStays(s, stmt, id, token, lease) && PromptFor(s, stmt, id)
    requires Running(s.db.jobs, id, token, beat, lease) && s.clock <= beat + lease
    ensures Running(Exec(aging, s, stmt).db.jobs, id, token, BeatAfter(stmt, id, token, beat), lease)
  {
    if BeatStmt(stmt, id, token) {
      BeatStmtExtends(aging, s, stmt, id, token, beat, lease);
    } else if stmt.PruneTx? {
      PruneSpares(aging, s, stmt, id, token, beat, lease);
    } else {
      OthersSpare(aging, s, stmt, id, token, beat, lease);
    }
  }

  /** When the statements that ran last renewed the lease. */
  ghost function LastBeatOf(aging: int, from: System, stmts: seq<Stmt>, id: JobId, token: Token, leased: int): int {
    if stmts == [] then leased
    else
      var s, stmt := Run(aging, from, stmts[..|stmts| - 1]), stmts[|stmts| - 1];
      var beat := LastBeatOf(aging, from, stmts[..|stmts| - 1], id, token, leased);
      if Can(s, stmt) then BeatAfter(stmt, id, token, beat) else beat
  }

  /** Heartbeats come before the deadline, the owner stays, and recovery writes to this job are prompt. */
  ghost predicate Sustained(aging: int, from: System, stmts: seq<Stmt>, id: JobId, token: Token,
                            leased: int, lease: int)
  {
    stmts == [] || (
      var front, stmt := stmts[..|stmts| - 1], stmts[|stmts| - 1];
      var s := Run(aging, from, front);
      && Sustained(aging, from, front, id, token, leased, lease)
      && (Can(s, stmt) ==>
            && stmt.At(s.clock) <= LastBeatOf(aging, from, front, id, token, leased) + lease
            && OwnerStays(s, stmt, id, token, lease) && PromptFor(s, stmt, id)))
  }

  ghost predicate StillRuns(aging: int, from: System, stmts: seq<Stmt>, id: JobId, token: Token,
                            leased: int, lease: int)
  {
    var s, beat := Run(aging, from, stmts), LastBeatOf(aging, from, stmts, id, token, leased);
    s.clock <= beat + lease && Running(s.db.jobs, id, token, beat, lease)
  }

  lemma OneMoreStatement(aging: int, from: System, stmts: seq<Stmt>, id: JobId, token: Token, leased: int, lease: int)
    requires stmts != [] && Reachable(aging, from) && Sustained(aging, from, stmts, id, token, leased, lease)
    requires lease >= 0 && StillRuns(aging, from, stmts[..|stmts| - 1], id, token, leased, lease)
    ensures StillRuns(aging, from, stmts, id, token, leased, lease)
  {
    var front, stmt := stmts[..|stmts| - 1], stmts[|stmts| - 1];
    var s, beat := Run(aging, from, front), LastBeatOf(aging, from, front, id, token, leased);
    if Can(s, stmt) {
      ReachableRun(aging, from, front);
      ReachableTimes(aging, s);
      StatementKeepsLease(aging, s, stmt, id, token, beat, lease);
      assert Run(aging, from, stmts) == Exec(aging, s, stmt);
    }
  }

  /**
    While heartbeats come before the deadline and no late recovery write hits the
    job, the lease stays with its owner.
   */
  lemma {:induction false} HeartbeatInInterleavings(aging: int, from: System, stmts: seq<Stmt>, id: JobId, token: Token,
                                                    leased: int, lease: int)
    requires Reachable(aging, from) && from.clock <= leased + lease && lease >= 0
    requires Running(from.db.jobs, id, token, leased, lease) && Sustained(aging, from, stmts, id, token, leased, lease)
    ensures StillRuns(aging, from, stmts, id, token, leased, lease)
  {
    if stmts != [] {
      HeartbeatInInterleavings(aging, from, stmts[..|stmts| - 1], id, token, leased, lease);
      OneMoreStatement(aging, from, stmts, id, token, leased, lease);
    }
  }

  // ---- No scan ever selects the job ----

  /** No recovering client has the job left to write back. */
  predicate Unscanned(s: System, id: JobId) {
    forall pc, r | pc in s.pcs && r in Todo(pc) :: r.id != id
  }

  /** Heartbeats come before the deadline, and the owner stays. */
  ghost predicate Timely(aging: int, from: System, stmts: seq<Stmt>, id: JobId, token: Token,
                         leased: int, lease: int)
  {
    stmts == [] || (
      var front, stmt := stmts[..|stmts| - 1], stmts[|stmts| - 1];
      var s := Run(aging, from, front);
      && Timely(aging, from, front, id, token, leased, lease)
      && (Can(s, stmt) ==>
            && stmt.At(s.clock) <= LastBeatOf(aging, from, front, id, token, leased) + lease
            && OwnerStays(s, stmt, id, token, lease)))
  }

  lemma UnscannedIsPrompt(s: System, stmt: Stmt, id: JobId)
    requires Unscanned(s, id)
    ensures PromptFor(s, stmt, id)
  {
    if stmt.RecoverWrite? && WriteMatches(s, stmt.client) {
      assert s.pcs[stmt.client] in s.pcs && s.pcs[stmt.client].todo[0] in Todo(s.pcs[stmt.client]);
    }
  }

  /** A scan before the deadline does not return the running job, and a write removes a row from the rest. */
  lemma NextTodo(aging: int, s: System, stmt: Stmt, id: JobId, token: Token, beat: int, lease: int, r: Row)
    requires Can(s, stmt) && r in Todo(NextPc(aging, s, stmt))
    requires Running(s.db.jobs, id, token, beat, lease) && stmt.At(s.clock) <= beat + lease
    ensures r.id != id || r in Todo(s.pcs[stmt.client])
  {
  }

  lemma UnscannedStays(aging: int, s: System, stmt: Stmt, id: JobId, token: Token, beat: int, lease: int)
    requires Can(s, stmt) && Unscanned(s, id)
    requires Running(s.db.jobs, id, token, beat, lease) && stmt.At(s.clock) <= beat + lease
    ensures Unscanned(Exec(aging, s, stmt), id)
  {
    forall pc, r | pc in Exec(aging, s, stmt).pcs && r in Todo(pc) ensures r.id != id {
      if pc !in s.pcs {
        assert pc == NextPc(aging, s, stmt) && s.pcs[stmt.client] in s.pcs;
        NextTodo(aging, s, stmt, id, token, beat, lease, r);
      }
    }
  }

  /** Nothing more to assume: the lease is kept, the job unscanned, and recovery writes to it prompt. */
  ghost predicate Undisturbed(aging: int, from: System, stmts: seq<Stmt>, id: JobId, token: Token,
                              leased: int, lease: int)
  {
    && Sustained(aging, from, stmts, id, token, leased, lease)
    && StillRuns(aging, from, stmts, id, token, leased, lease)
    && Unscanned(Run(aging, from, stmts), id)
  }

  lemma UndisturbedStep(aging: int, from: System, stmts: seq<Stmt>, id: JobId, token: Token, leased: int, lease: int)
    requires stmts != [] && Reachable(aging, from) && Timely(aging, from, stmts, id, token, leased, lease) && lease >= 0
    requires Undisturbed(aging, from, stmts[..|stmts| - 1], id, token, leased, lease)
    ensures Undisturbed(aging, from, stmts, id, token, leased, lease)
  {
    var front, stmt := stmts[..|stmts| - 1], stmts[|stmts| - 1];
    var s, beat := Run(aging, from, front), LastBeatOf(aging, from, front, id, token, leased);
    if Can(s, stmt) {
      UnscannedIsPrompt(s, stmt, id);
      UnscannedStays(aging, s, stmt, id, token, beat, lease);
      assert Run(aging, from, stmts) == Exec(aging, s, stmt);
    }
    OneMoreStatement(aging, from, stmts, id, token, leased, lease);
  }

  /**
    In every interleaving of statements: if no client has the job left from an older
    scan, and its heartbeats come before each deadline, then the lease stays with its
    owner and no recovery scan ever selects the job.
   */
  lemma {:induction false} NoScanSelectsRunning(aging: int, from: System, stmts: seq<Stmt>, id: JobId, token: Token,
                                                leased: int, lease: int)
    requires Reachable(aging, from) && from.clock <= leased + lease && lease >= 0
    requires Running(from.db.jobs, id, token, leased, lease) && Unscanned(from, id)
    requires Timely(aging, from, stmts, id, token, leased, lease)
    ensures Undisturbed(aging, from, stmts, id, token, leased, lease)
  {
    if stmts != [] {
      NoScanSelectsRunning(aging, from, stmts[..|stmts| - 1], id, token, leased, lease);
      UndisturbedStep(aging, from, stmts, id, token, leased, lease);
    }
  }

  // ---- The worker's timer ----

  /**
    Each heartbeat runs no earlier than one interval after the one before and at most
    d later, nothing runs later than that, and the owner stays.
   */
  ghost predicate OnTimer(aging: int, from: System, stmts: seq<Stmt>, id: JobId, token: Token,
                          leased: int, lease: int, interval: int, d: int)
  {
    stmts == [] || (
      var front, stmt := stmts[..|stmts| - 1], stmts[|stmts| - 1];
      var s, due := Run(aging, from, front), LastBeatOf(aging, from, front, id, token, leased) + interval;
      && OnTimer(aging, from, front, id, token, leased, lease, interval, d)
      && (Can(s, stmt) ==>
            && stmt.At(s.clock) <= due + d && (BeatStmt(stmt, id, token) ==> due <= stmt.now)
            && OwnerStays(s, stmt, id, token, lease)))
  }

  lemma {:induction false} OnTimerIsTimely(aging: int, from: System, stmts: seq<Stmt>, id: JobId, token: Token,
                                           leased: int, lease: int, interval: int, d: int)
    requires OnTimer(aging, from, stmts, id, token, leased, lease, interval, d) && interval + d <= lease
    ensures Timely(aging, from, stmts, id, token, leased, lease)
  {
    if stmts != [] { OnTimerIsTimely(aging, from, stmts[..|stmts| - 1], id, token, leased, lease, interval, d); }
  }

  /**
    With heartbeats at the renewal interval that run at most d after they are due,
    and interval plus delay within the lease, no recovery scan of any interleaving
    ever selects the running job.
   */
  lemma TimerKeepsLease(aging: int, from: System, stmts: seq<Stmt>, id: JobId, token: Token,
                        leased: int, lease: int, configured: int, interval: int, d: int)
    requires Reachable(aging, from) && from.clock <= leased + lease
    requires Running(from.db.jobs, id, token, leased, lease) && Unscanned(from, id)
    requires interval == RenewalInterval(configured, lease) > 0 && d >= 0 && interval + d <= lease
    requires OnTimer(aging, from, stmts, id, token, leased, lease, interval, d)
    ensures Undisturbed(aging, from, stmts, id, token, leased, lease)
  {
    OnTimerIsTimely(aging, from, stmts, id, token, leased, lease, interval, d);
    NoScanSelectsRunning(aging, from, stmts, id, token, leased, lease);
  }
}
