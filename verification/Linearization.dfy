/**
  Every interleaving of statements in which recovery writes hit rows that are
  still due has the jobs table of a legal serial run of whole operations, each
  taking effect at one of its statements.
 */
module Linearization {
  import opened Records
  import opened Dispatch
  import opened Tables
  import opened Retention
  import opened Ledger
  import opened Fine
  import opened Fencing
  import opened Timeline
  import opened Recoveries
  import C = Coarse
  import Histories
  import Q = QueueOps

  // ---- Budgets in every punctual interleaving ----

  predicate BudgetOk(j: Job) {
    && j.maxAttempts >= 1
    && if j.state == DeadLetter then j.retryCount == j.maxAttempts else 0 <= j.retryCount < j.maxAttempts
  }

  ghost predicate BudgetsOk(s: System) {
    && SystemOk(s)
    && (forall id | id in s.db.jobs :: BudgetOk(s.db.jobs[id]))
    && forall pc | pc in s.pcs && pc.RequeueRead? :: pc.maxAttempts >= 1
  }

  /** The statement is no recovery write to a job leased again since its scan. */
  ghost predicate Current(s: System, stmt: Stmt) {
    stmt.RecoverWrite? && WriteMatches(s, stmt.client) ==> !LeasedSinceScan(s, stmt.client)
  }

  /** What a recovery write that matches in time knows about the row it changes. */
  lemma CurrentWrite(s: System, client: nat)
    requires SystemOk(s) && WriteMatches(s, client) && !LeasedSinceScan(s, client)
    ensures var r := s.pcs[client].todo[0];
            s.db.jobs[r.id].retryCount == r.job.retryCount && s.db.jobs[r.id].maxAttempts == r.job.maxAttempts
  {
    assert PcOk(s, s.pcs[client]) && s.pcs[client].todo[0] in s.pcs[client].todo;
  }

  lemma FailedWriteIsCurrent(s: System, client: nat)
    requires SystemOk(s) && client < |s.pcs| && s.pcs[client].FailRead?
    ensures var r := s.pcs[client].row;
            r.job.token.Some? && r.job.token.value != "" && (HoldsToken(s.db.jobs, r.id, r.job.token.value) ==>
              s.db.jobs[r.id].retryCount == r.job.retryCount && s.db.jobs[r.id].maxAttempts == r.job.maxAttempts)
  {
    assert PcOk(s, s.pcs[client]);
    var r := s.pcs[client].row;
    assert Grant(r.id, r.job.token.value) in s.grants;
  }

  lemma ActBudget(aging: int, s: System, stmt: Stmt)
    requires BudgetsOk(s) && Can(s, stmt) && Current(s, stmt)
    ensures var act := ActOf(aging, s, stmt); !act.Stay? ==> BudgetOk(act.row)
  {
    if stmt.LeaseJob? {
      var best := Choose(s.db.jobs, stmt.kind, stmt.now, aging);
      assert best.Some? ==> s.db.jobs[best.value].state == Pending;
    } else if stmt.FailWrite? {
      FailedWriteIsCurrent(s, stmt.client);
    } else if stmt.RecoverWrite? && WriteMatches(s, stmt.client) {
      CurrentWrite(s, stmt.client);
    } else if stmt.RequeueWrite? {
      assert s.pcs[stmt.client] in s.pcs;
    }
  }

  lemma JobsByAct(aging: int, s: System, stmt: Stmt)
    requires BudgetsOk(s) && Can(s, stmt) && Current(s, stmt)
    ensures forall id | id in Exec(aging, s, stmt).db.jobs :: BudgetOk(Exec(aging, s, stmt).db.jobs[id])
  {
    if stmt.PruneTx? {
      var _ := JobsPruned(aging, s, stmt);
    } else {
      JobsAfter(aging, s, stmt);
      ActBudget(aging, s, stmt);
    }
  }

  lemma BudgetStep(aging: int, s: System, stmt: Stmt)
    requires BudgetsOk(s) && Can(s, stmt) && Current(s, stmt)
    ensures BudgetsOk(Exec(aging, s, stmt))
  {
    StepKeeps(aging, s, stmt);
    JobsByAct(aging, s, stmt);
    var s' := Exec(aging, s, stmt);
    forall pc | pc in s'.pcs && pc.RequeueRead? ensures pc.maxAttempts >= 1 {
      assert pc in s.pcs || pc == NextPc(aging, s, stmt);
    }
  }

  /** In every punctual interleaving attempts stay inside the budget, and it is spent exactly by the dead letters. */
  lemma {:induction false} PunctualBudgets(aging: int, clients: nat, stmts: seq<Stmt>)
    requires Punctual(aging, Fresh(clients), stmts)
    ensures BudgetsOk(Run(aging, Fresh(clients), stmts))
  {
    if stmts != [] {
      var front, stmt := stmts[..|stmts| - 1], stmts[|stmts| - 1];
      PunctualBudgets(aging, clients, front);
      var s := Run(aging, Fresh(clients), front);
      if Can(s, stmt) { BudgetStep(aging, s, stmt); }
    }
  }

  // ---- The serial run ----

  /** The statement is no recovery write but one to a row that is still due under the scanned lease. */
  ghost predicate Prompt(s: System, stmt: Stmt) {
    stmt.RecoverWrite? && WriteMatches(s, stmt.client) ==>
      !LeasedSinceScan(s, stmt.client) && StillDue(s, stmt.client)
  }

  /** Every recovery write of the run is a recovery. */
  ghost predicate AllPrompt(aging: int, from: System, stmts: seq<Stmt>) {
    stmts == [] || (AllPrompt(aging, from, stmts[..|stmts| - 1]) &&
                    Prompt(Run(aging, from, stmts[..|stmts| - 1]), stmts[|stmts| - 1]))
  }

  lemma {:induction false} PromptIsPunctual(aging: int, from: System, stmts: seq<Stmt>)
    requires AllPrompt(aging, from, stmts)
    ensures Punctual(aging, from, stmts)
  {
    if stmts != [] { PromptIsPunctual(aging, from, stmts[..|stmts| - 1]); }
  }

  /** The operation that takes effect at the statement, if any. */
  ghost function TakesEffect(s: System, stmt: Stmt): seq<C.Op>
    requires Can(s, stmt)
  {
    match stmt
    case InsertJob(_, id, spec, now) => [C.Enqueue(id, spec, now)]
    case LeaseJob(_, kind, duration, token, now) => [C.Lease(kind, duration, token, now, now)]
    case RenewJob(_, id, token, duration, now) => [C.Renew(id, token, duration, now, now)]
    case CompleteJob(_, id, token, now) => [C.Acknowledge(id, token, now, now)]
    case FailWrite(client, now) =>
      var r := s.pcs[client].row;
      if r.job.token.Some? then [C.Fail(r.id, r.job.token.value, now, now)] else []
    case RequeueWrite(client, now) =>
      var pc := s.pcs[client];
      [C.Requeue(pc.id, pc.maxAttempts, pc.payload, now, now)]
    case RecoverWrite(client) => if WriteMatches(s, client) then [RowOp(s, client)] else []
    case PruneTx(_, policy, source, now) => [C.PruneRun(policy, source, now)]
    case _ => []
  }

  /** The operations of a run of statements, in the order in which they take effect. */
  ghost function Effects(aging: int, from: System, stmts: seq<Stmt>): seq<C.Op> {
    if stmts == [] then []
    else
      var s, stmt := Run(aging, from, stmts[..|stmts| - 1]), stmts[|stmts| - 1];
      Effects(aging, from, stmts[..|stmts| - 1]) + if Can(s, stmt) then TakesEffect(s, stmt) else []
  }

  /** The tables that decide what an operation does, and whether it may run. */
  predicate SameTables(a: Db, b: Db) {
    a.jobs == b.jobs && a.ids == b.ids && a.tokens == b.tokens
  }

  /** What an operation does to these tables depends on them alone. */
  lemma TablesDecide(aging: int, a: Db, b: Db, op: C.Op)
    requires SameTables(a, b) && !op.Recover?
    ensures SameTables(C.Apply(aging, a, op), C.Apply(aging, b, op))
  {
  }

  lemma FailWriteEffect(aging: int, s: System, stmt: Stmt)
    requires BudgetsOk(s) && Can(s, stmt) && stmt.FailWrite?
    ensures var r := s.pcs[stmt.client].row;
            && r.job.token.Some? && r.job.token.value != ""
            && SameTables(Exec(aging, s, stmt).db, Q.Fail(s.db, r.id, r.job.token.value, stmt.now, stmt.now))
  {
    FailedWriteIsCurrent(s, stmt.client);
    var r := s.pcs[stmt.client].row;
    if HoldsToken(s.db.jobs, r.id, r.job.token.value) {
      assert Q.ShouldRetry(r.job) == Q.ShouldRetry(s.db.jobs[r.id]);
    }
  }

  lemma RequeueWriteEffect(aging: int, s: System, stmt: Stmt)
    requires BudgetsOk(s) && Can(s, stmt) && stmt.RequeueWrite?
    ensures var pc := s.pcs[stmt.client];
            SameTables(Exec(aging, s, stmt).db, Q.Requeue(s.db, pc.id, pc.maxAttempts, pc.payload, stmt.now, stmt.now))
  {
    assert s.pcs[stmt.client] in s.pcs;
  }

  lemma RecoverWriteEffect(aging: int, s: System, stmt: Stmt)
    requires SystemOk(s) && Can(s, stmt) && Prompt(s, stmt) && stmt.RecoverWrite? && WriteMatches(s, stmt.client)
    ensures var pc := s.pcs[stmt.client];
            SameTables(Exec(aging, s, stmt).db, Q.RecoverRow(s.db, pc.todo[0].id, pc.now, s.clock))
  {
    CurrentWrite(s, stmt.client);
  }

  /** The tables after the statement are those after the operation that takes effect, or the old ones. */
  ghost predicate HasEffect(aging: int, s: System, stmt: Stmt)
    requires Can(s, stmt)
  {
    && |TakesEffect(s, stmt)| <= 1
    && SameTables(Exec(aging, s, stmt).db,
                  if TakesEffect(s, stmt) == [] then s.db else C.Apply(aging, s.db, TakesEffect(s, stmt)[0]))
  }

  lemma InsertEffect(aging: int, s: System, stmt: Stmt)
    requires Can(s, stmt) && stmt.InsertJob?
    ensures HasEffect(aging, s, stmt)
  {
  }

  lemma LeaseEffect(aging: int, s: System, stmt: Stmt)
    requires Can(s, stmt) && stmt.LeaseJob?
    ensures HasEffect(aging, s, stmt)
  {
  }

  lemma OwnerEffect(aging: int, s: System, stmt: Stmt)
    requires Can(s, stmt) && (stmt.RenewJob? || stmt.CompleteJob?)
    ensures HasEffect(aging, s, stmt)
  {
  }

  lemma PruneEffect(aging: int, s: System, stmt: Stmt)
    requires Can(s, stmt) && stmt.PruneTx?
    ensures HasEffect(aging, s, stmt)
  {
  }

  lemma NoEffect(aging: int, s: System, stmt: Stmt)
    requires Can(s, stmt) && (stmt.RecoverWrite? ==> !WriteMatches(s, stmt.client))
    requires stmt.FailGet? || stmt.RequeueGet? || stmt.OrphanScan? || stmt.RecoverWrite? || stmt.Append?
    ensures HasEffect(aging, s, stmt)
  {
  }

  lemma SplitEffect(aging: int, s: System, stmt: Stmt)
    requires BudgetsOk(s) && Can(s, stmt) && (stmt.FailWrite? || stmt.RequeueWrite?)
    ensures HasEffect(aging, s, stmt)
  {
    if stmt.FailWrite? { FailWriteEffect(aging, s, stmt); } else { RequeueWriteEffect(aging, s, stmt); }
  }

  lemma RecoveryEffect(aging: int, s: System, stmt: Stmt)
    requires BudgetsOk(s) && Can(s, stmt) && Prompt(s, stmt) && stmt.RecoverWrite?
    ensures HasEffect(aging, s, stmt)
  {
    if WriteMatches(s, stmt.client) { RecoverWriteEffect(aging, s, stmt); } else { NoEffect(aging, s, stmt); }
  }

  /** At each statement the tables change as the operation taking effect there says. */
  lemma StatementEffect(aging: int, s: System, stmt: Stmt)
    requires BudgetsOk(s) && Can(s, stmt) && Prompt(s, stmt)
    ensures HasEffect(aging, s, stmt)
  {
    match stmt
    case InsertJob(_, _, _, _) => InsertEffect(aging, s, stmt);
    case LeaseJob(_, _, _, _, _) => LeaseEffect(aging, s, stmt);
    case RenewJob(_, _, _, _, _) => OwnerEffect(aging, s, stmt);
    case CompleteJob(_, _, _, _) => OwnerEffect(aging, s, stmt);
    case FailWrite(_, _) => SplitEffect(aging, s, stmt);
    case RequeueWrite(_, _) => SplitEffect(aging, s, stmt);
    case RecoverWrite(_) => RecoveryEffect(aging, s, stmt);
    case PruneTx(_, _, _, _) => PruneEffect(aging, s, stmt);
    case _ => NoEffect(aging, s, stmt);
  }

  /** That operation is one the queue could perform then, and it ends when the statement runs. */
  lemma EffectEnabled(aging: int, s: System, stmt: Stmt, w: C.World)
    requires BudgetsOk(s) && Reachable(aging, s) && Can(s, stmt) && Prompt(s, stmt) && TakesEffect(s, stmt) != []
    requires SameTables(w.db, s.db) && w.clock <= s.clock
    ensures var op := TakesEffect(s, stmt)[0];
            C.Enabled(w, op) && op.End() == Exec(aging, s, stmt).clock && !op.Recover?
  {
    if stmt.FailWrite? {
      FailWriteEffect(aging, s, stmt);
    } else if stmt.RecoverWrite? {
      CreatedBeforeScan(aging, s, stmt.client);
    }
  }

  /** The serial run has come as far as the interleaving. */
  ghost predicate InStep(w: C.World, s: System) {
    SameTables(w.db, s.db) && w.clock <= s.clock
  }

  lemma InStepNext(aging: int, s: System, stmt: Stmt, w: C.World)
    requires BudgetsOk(s) && Reachable(aging, s) && Can(s, stmt) && Prompt(s, stmt) && InStep(w, s)
    ensures |TakesEffect(s, stmt)| <= 1
    ensures TakesEffect(s, stmt) == [] ==> InStep(w, Exec(aging, s, stmt))
    ensures TakesEffect(s, stmt) != [] ==>
              C.Enabled(w, TakesEffect(s, stmt)[0]) &&
                  InStep(C.Step(aging, w, TakesEffect(s, stmt)[0]), Exec(aging, s, stmt))
  {
    StatementEffect(aging, s, stmt);
    if TakesEffect(s, stmt) != [] {
      EffectEnabled(aging, s, stmt, w);
      TablesDecide(aging, w.db, s.db, TakesEffect(s, stmt)[0]);
    }
  }

  ghost predicate Linearized(aging: int, clients: nat, stmts: seq<Stmt>) {
    var ops := Effects(aging, Fresh(clients), stmts);
    C.Legal(aging, C.START, ops) && InStep(C.After(aging, C.START, ops), Run(aging, Fresh(clients), stmts))
  }

  lemma RunOneMore(aging: int, ops: seq<C.Op>, op: C.Op)
    requires C.Legal(aging, C.START, ops) && C.Enabled(C.After(aging, C.START, ops), op)
    ensures C.Legal(aging, C.START, ops + [op])
    ensures C.After(aging, C.START, ops + [op]) == C.Step(aging, C.After(aging, C.START, ops), op)
  {
    assert (ops + [op])[..|ops|] == ops;
  }

  lemma OneMoreEffect(aging: int, clients: nat, stmts: seq<Stmt>)
    requires stmts != [] && AllPrompt(aging, Fresh(clients), stmts) && Linearized(aging, clients, stmts[..|stmts| - 1])
    ensures Linearized(aging, clients, stmts)
  {
    var front, stmt := stmts[..|stmts| - 1], stmts[|stmts| - 1];
    var s, done := Run(aging, Fresh(clients), front), Effects(aging, Fresh(clients), front);
    assert Reachable(aging, s);
    PromptIsPunctual(aging, Fresh(clients), front);
    PunctualBudgets(aging, clients, front);
    if Can(s, stmt) {
      InStepNext(aging, s, stmt, C.After(aging, C.START, done));
      if TakesEffect(s, stmt) != [] {
        assert TakesEffect(s, stmt) == [TakesEffect(s, stmt)[0]];
        RunOneMore(aging, done, TakesEffect(s, stmt)[0]);
      }
    }
    assert done + [] == done;
  }

  lemma {:induction false} AllLinearized(aging: int, clients: nat, stmts: seq<Stmt>)
    requires AllPrompt(aging, Fresh(clients), stmts)
    ensures Linearized(aging, clients, stmts)
  {
    if stmts != [] {
      AllLinearized(aging, clients, stmts[..|stmts| - 1]);
      OneMoreEffect(aging, clients, stmts);
    }
  }

  /**
    Linearization: whenever every recovery write hits a row that is still due, any
    interleaving of any number of clients leaves the jobs table, ids and tokens of a
    legal run of whole operations, in the order in which they took effect.
   */
  lemma JobsAreLinearizable(aging: int, clients: nat, stmts: seq<Stmt>)
    requires AllPrompt(aging, Fresh(clients), stmts)
    ensures var ops := Effects(aging, Fresh(clients), stmts);
            && C.Legal(aging, C.START, ops)
            && SameTables(C.After(aging, C.START, ops).db, Run(aging, Fresh(clients), stmts).db)
  {
    AllLinearized(aging, clients, stmts);
  }

  /** So attempts are accounted for in every such interleaving, counted by the operations that took effect. */
  lemma InterleavedAttempts(aging: int, clients: nat, stmts: seq<Stmt>, id: JobId)
    requires AllPrompt(aging, Fresh(clients), stmts) && id in Run(aging, Fresh(clients), stmts).db.jobs
    ensures var j := Run(aging, Fresh(clients), stmts).db.jobs[id];
            Histories.Attempts(aging, Effects(aging, Fresh(clients), stmts), id) ==
                Histories.AttemptsOf(j) <= j.maxAttempts
  {
    JobsAreLinearizable(aging, clients, stmts);
    Histories.AttemptAccounting(aging, Effects(aging, Fresh(clients), stmts), id);
  }
}
