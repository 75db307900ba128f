/** Times at the fine level: rows are older than the clock, and scans older than what happens after them. */
module Timeline {
  import opened Records
  import opened Dispatch
  import opened Tables
  import opened Ledger
  import opened Fine
  import Q = QueueOps

  /** Rows that a recovering client still has to write back. */
  function Todo(pc: Pc): seq<Row> {
    if pc.Recovering? then pc.todo else []
  }

  function ScanTime(pc: Pc): int {
    if pc.Recovering? then pc.now else 0
  }

  /** The job is known, and was there when it was scanned if it still is. */
  predicate ScannedAfterCreation(db: Db, pc: Pc) {
    forall r | r in Todo(pc) :: r.id in db.ids && (r.id in db.jobs ==> db.jobs[r.id].createdAt <= ScanTime(pc))
  }

  ghost predicate TimesOk(s: System) {
    && SystemOk(s) && s.clock >= 1
    && (forall id | id in s.db.jobs :: ZERO_TIME < s.db.jobs[id].createdAt <= s.clock)
    && (forall pc | pc in s.pcs :: ScanTime(pc) <= s.clock && ScannedAfterCreation(s.db, pc))
  }

  lemma KeptById(aging: int, s: System, stmt: Stmt, act: Act, id: JobId)
    requires SystemOk(s) && Can(s, stmt) && act == ActOf(aging, s, stmt) && !act.Stay? && id == act.id
    ensures act.Insert? ==> id !in s.db.ids && act.row.createdAt == stmt.At(s.clock)
    ensures !act.Insert? ==> id in s.db.jobs && act.row.createdAt == s.db.jobs[id].createdAt
  {
    ActOfOk(aging, s, stmt);
  }

  /** A job that is known keeps its creation time, and is not inserted again. */
  lemma CreationStays(aging: int, s: System, stmt: Stmt, id: JobId)
    requires SystemOk(s) && Can(s, stmt)
    ensures var s' := Exec(aging, s, stmt);
            id in s'.db.jobs ==>
              if id in s.db.jobs then s'.db.jobs[id].createdAt == s.db.jobs[id].createdAt
              else id !in s.db.ids && s'.db.jobs[id].createdAt == s'.clock
  {
    if stmt.PruneTx? {
      var _ := JobsPruned(aging, s, stmt);
    } else {
      JobsAfter(aging, s, stmt);
      var act := ActOf(aging, s, stmt);
      if !act.Stay? { KeptById(aging, s, stmt, act, act.id); }
    }
  }

  lemma ScanStays(aging: int, s: System, stmt: Stmt, pc: Pc)
    requires SystemOk(s) && Can(s, stmt) && ScannedAfterCreation(s.db, pc)
    ensures ScannedAfterCreation(Exec(aging, s, stmt).db, pc)
  {
    NextIds(aging, s, stmt);
    forall r | r in Todo(pc)
      ensures r.id in Exec(aging, s, stmt).db.jobs ==> Exec(aging, s, stmt).db.jobs[r.id].createdAt <= ScanTime(pc)
    {
      CreationStays(aging, s, stmt, r.id);
    }
  }

  lemma NewScan(aging: int, s: System, stmt: Stmt)
    requires TimesOk(s) && Can(s, stmt)
    ensures ScanTime(NextPc(aging, s, stmt)) <= stmt.At(s.clock)
    ensures ScannedAfterCreation(s.db, NextPc(aging, s, stmt))
  {
    var pc := s.pcs[stmt.client];
    assert pc in s.pcs;
    if stmt.RecoverWrite? { assert forall r | r in pc.todo[1..] :: r in pc.todo; }
  }

  lemma TimesStep(aging: int, s: System, stmt: Stmt)
    requires TimesOk(s) && Can(s, stmt)
    ensures TimesOk(Exec(aging, s, stmt))
  {
    var s' := Exec(aging, s, stmt);
    StepKeeps(aging, s, stmt);
    forall id | id in s'.db.jobs ensures ZERO_TIME < s'.db.jobs[id].createdAt <= s'.clock {
      CreationStays(aging, s, stmt, id);
    }
    NewScan(aging, s, stmt);
    forall pc | pc in s'.pcs ensures ScanTime(pc) <= s'.clock && ScannedAfterCreation(s'.db, pc) {
      assert pc in s.pcs || pc == NextPc(aging, s, stmt);
      ScanStays(aging, s, stmt, pc);
    }
  }

  lemma {:induction false} RunTimes(aging: int, clients: nat, stmts: seq<Stmt>)
    ensures TimesOk(Run(aging, Fresh(clients), stmts))
  {
    if stmts != [] {
      var front, stmt := stmts[..|stmts| - 1], stmts[|stmts| - 1];
      RunTimes(aging, clients, front);
      if Can(Run(aging, Fresh(clients), front), stmt) { TimesStep(aging, Run(aging, Fresh(clients), front), stmt); }
    }
  }

  /** In every interleaving. */
  lemma ReachableTimes(aging: int, s: System)
    requires Reachable(aging, s)
    ensures TimesOk(s)
  {
    var clients: nat, stmts: seq<Stmt> :| s == Run(aging, Fresh(clients), stmts);
    RunTimes(aging, clients, stmts);
  }
}
