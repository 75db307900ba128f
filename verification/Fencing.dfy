/** What fencing tokens guarantee in every interleaving of statements, and where recovery falls short of it. */
module Fencing {
  import opened Records
  import opened Dispatch
  import opened Tables
  import opened Ledger
  import opened Fine
  import Q = QueueOps

  /**
    Every lease ever granted is either the one its job holds or over, never both;
    no two leases share a token; and no lease ends twice.
   */
  lemma LeasesEndOnce(aging: int, s: System)
    requires Reachable(aging, s)
    ensures forall id | id in s.db.jobs :: NoLease(s.db.jobs[id]) || HasLease(s.db.jobs[id])
    ensures forall g | g in s.grants :: (g.id in s.db.jobs && s.db.jobs[g.id].token == Some(g.token)) <==>
            g.token !in s.ended
    ensures forall i, k | 0 <= i < k < |s.grants| :: s.grants[i].token != s.grants[k].token
    ensures forall i, k | 0 <= i < k < |s.ended| :: s.ended[i] != s.ended[k]
    ensures forall id | id in s.db.jobs && s.db.jobs[id].token.Some? :: Grant(id, s.db.jobs[id].token.value) in s.grants
  {
    ReachableOk(aging, s);
    assert LedgerOk(LedgerOf(s));
    forall g | g in s.grants
      ensures (g.id in s.db.jobs && s.db.jobs[g.id].token == Some(g.token)) <==> g.token !in s.ended
    {
      assert Holds(LedgerOf(s), g) <==> g.token !in s.ended;
    }
  }

  lemma {:induction false} RunExtends(aging: int, from: System, stmts: seq<Stmt>)
    ensures from.ended <= Run(aging, from, stmts).ended
    ensures |Run(aging, from, stmts).pcs| == |from.pcs|
  {
    if stmts != [] { RunExtends(aging, from, stmts[..|stmts| - 1]); }
  }

  lemma {:induction false} RunConcat(aging: int, from: System, a: seq<Stmt>, b: seq<Stmt>)
    ensures Run(aging, from, a + b) == Run(aging, Run(aging, from, a), b)
  {
    if b == [] {
      assert a + b == a;
    } else {
      var front := b[..|b| - 1];
      assert (a + b)[..|a + b| - 1] == a + front;
      RunConcat(aging, from, a, front);
    }
  }

  lemma ReachableRun(aging: int, s: System, stmts: seq<Stmt>)
    requires Reachable(aging, s)
    ensures Reachable(aging, Run(aging, s, stmts))
  {
    var clients: nat, before: seq<Stmt> :| s == Run(aging, Fresh(clients), before);
    RunConcat(aging, Fresh(clients), before, stmts);
  }

  /** A token that has left a job never comes back to any job. */
  lemma EndedForGood(aging: int, s: System, stmts: seq<Stmt>, token: Token)
    requires Reachable(aging, s) && token in s.ended
    ensures var later := Run(aging, s, stmts);
            token in later.ended && forall id | id in later.db.jobs :: later.db.jobs[id].token != Some(token)
  {
    var later := Run(aging, s, stmts);
    ReachableRun(aging, s, stmts);
    RunExtends(aging, s, stmts);
    LeasesEndOnce(aging, later);
    assert token in later.ended by {
      var i :| 0 <= i < |s.ended| && s.ended[i] == token;
      assert later.ended[i] == token;
    }
    forall id | id in later.db.jobs ensures later.db.jobs[id].token != Some(token) {
      if later.db.jobs[id].token.Some? {
        var g := Grant(id, later.db.jobs[id].token.value);
        assert g in later.grants;
      }
    }
  }

  /** Calls made under a lease that is over change no row, owe no event and go back to idle. */
  lemma StaleCallsDoNothing(aging: int, s: System, stmt: Stmt, token: Token)
    requires Reachable(aging, s) && Can(s, stmt) && token in s.ended
    requires || (stmt.RenewJob? && stmt.token == token)
             || (stmt.CompleteJob? && stmt.token == token)
             || (stmt.FailGet? && stmt.token == token)
             || (stmt.FailWrite? && s.pcs[stmt.client].row.job.token == Some(token))
    ensures var s' := Exec(aging, s, stmt);
            s'.db == s.db && s'.ended == s.ended && s'.pcs[stmt.client] == Idle
  {
    ReachableOk(aging, s);
    EndedForGood(aging, s, [], token);
    assert token != "" by {
      assert LedgerOk(LedgerOf(s));
      var g :| g in s.grants && g.token == token;
    }
    assert stmt.FailWrite? ==> PcOk(s, s.pcs[stmt.client]);
  }

  /**
    A failure reads the row and writes it in two statements. In every
    interleaving, the write and its event are those of one atomic FailLease at
    the moment of the write: the budget decision is never stale.
   */
  lemma SplitFailureIsAtomic(aging: int, s: System, client: nat, now: int, logged: int)
    requires Reachable(aging, s) && client < |s.pcs| && s.pcs[client].FailRead? && s.clock <= now
    ensures s.pcs[client].row.job.token.Some?
    ensures var r := s.pcs[client].row;
            var s' := Exec(aging, s, FailWrite(client, now));
            var owed := PcOwed(s'.pcs[client]);
            && |owed| <= 1
            && (if owed == [] then s'.db else AppendStmt(s'.db, owed[0].id, owed[0].kind, logged))
               == Q.Fail(s.db, r.id, r.job.token.value, now, logged)
  {
    ReachableOk(aging, s);
    assert PcOk(s, s.pcs[client]);
    var r := s.pcs[client].row;
    if HoldsToken(s.db.jobs, r.id, r.job.token.value) {
      assert Q.ShouldRetry(r.job) == Q.ShouldRetry(s.db.jobs[r.id]);
    }
  }

  // ---- Completion ----

  /** The statement completes the job. */
  ghost predicate CompletesJob(aging: int, s: System, stmt: Stmt, id: JobId) {
    Can(s, stmt) && var act := ActOf(aging, s, stmt); act.Release? && act.id == id && act.row.state == Completed
  }

  ghost function Completions(aging: int, from: System, stmts: seq<Stmt>, id: JobId): nat {
    if stmts == [] then 0
    else Completions(aging, from, stmts[..|stmts| - 1], id) +
         if CompletesJob(aging, Run(aging, from, stmts[..|stmts| - 1]), stmts[|stmts| - 1], id) then 1 else 0
  }

  /** Completions so far, by what became of the job. */
  ghost predicate CompletionsFit(s: System, id: JobId, n: nat) {
    if id in s.db.jobs then n == if s.db.jobs[id].state == Completed then 1 else 0
    else n <= 1 && (id !in s.db.ids ==> n == 0)
  }

  /** No statement changes a completed job but a prune, and none brings back an id. */
  lemma ActOnJob(aging: int, s: System, stmt: Stmt)
    requires SystemOk(s) && Can(s, stmt) && !stmt.PruneTx?
    ensures var act := ActOf(aging, s, stmt);
            && (act.Insert? ==> act.id !in s.db.ids && act.row.state != Completed)
            && (!act.Stay? && !act.Insert? ==> act.id in s.db.jobs && s.db.jobs[act.id].state != Completed)
            && (act.Give? || act.Keep? ==> act.row.state == Leased)
  {
    ActOfOk(aging, s, stmt);
    if stmt.LeaseJob? {
      var best := Choose(s.db.jobs, stmt.kind, stmt.now, aging);
      assert best.Some? ==> s.db.jobs[best.value].state == Pending;
    }
  }

  lemma CompletionStep(aging: int, s: System, stmt: Stmt, id: JobId, n: nat)
    requires SystemOk(s) && Can(s, stmt) && CompletionsFit(s, id, n)
    ensures CompletionsFit(Exec(aging, s, stmt), id, n + if CompletesJob(aging, s, stmt, id) then 1 else 0)
  {
    NextIds(aging, s, stmt);
    if stmt.PruneTx? {
      var _ := JobsPruned(aging, s, stmt);
    } else {
      JobsAfter(aging, s, stmt);
      ActOnJob(aging, s, stmt);
    }
  }

  /** In every interleaving, prunes included, each job id is completed at most once. */
  lemma {:induction false} CompletedAtMostOnce(aging: int, clients: nat, stmts: seq<Stmt>, id: JobId)
    ensures CompletionsFit(Run(aging, Fresh(clients), stmts), id, Completions(aging, Fresh(clients), stmts, id))
    ensures Completions(aging, Fresh(clients), stmts, id) <= 1
  {
    if stmts != [] {
      var front, stmt := stmts[..|stmts| - 1], stmts[|stmts| - 1];
      var s := Run(aging, Fresh(clients), front);
      CompletedAtMostOnce(aging, clients, front, id);
      Fine.RunKeeps(aging, clients, front);
      if Can(s, stmt) { CompletionStep(aging, s, stmt, id, Completions(aging, Fresh(clients), front, id)); }
    }
  }

  // ---- Recovery ----

  /** The client is about to write back a row of its scan, and the write will match. */
  predicate WriteMatches(s: System, client: nat) {
    && client < |s.pcs| && s.pcs[client].Recovering? && s.pcs[client].todo != []
    && HoldsLease(s.db.jobs, s.pcs[client].todo[0].id, "")
  }

  /** The job was leased again between the client's scan and now. */
  ghost predicate LeasedSinceScan(s: System, client: nat)
    requires WriteMatches(s, client)
  {
    Relet(LedgerOf(s), s.pcs[client].at, s.pcs[client].todo[0].id)
  }

  /**
    Recovery's write guards on the state alone. It ends the lease that was scanned
    exactly when the job was not leased again since the scan; otherwise the scanned
    lease is already over and another one is ended in its place.
   */
  lemma WriteEndsScannedLease(aging: int, s: System, client: nat)
    requires Reachable(aging, s) && WriteMatches(s, client)
    ensures var r := s.pcs[client].todo[0];
            var cur := s.db.jobs[r.id];
            && r.job.token.Some?
            && (LeasedSinceScan(s, client) <==> cur.token != r.job.token)
            && (LeasedSinceScan(s, client) <==> r.job.token.value in s.ended)
            && (!LeasedSinceScan(s, client) ==>
                  cur.retryCount == r.job.retryCount && cur.maxAttempts == r.job.maxAttempts)
  {
    ReachableOk(aging, s);
    var r := s.pcs[client].todo[0];
    assert PcOk(s, s.pcs[client]) && r in s.pcs[client].todo;
    var scanned := Grant(r.id, r.job.token.value);
    assert LedgerOk(LedgerOf(s));
    assert Holds(LedgerOf(s), scanned) <==> scanned.token !in s.ended;
  }

  /** No recovery write of the run hits a job that was leased again since its scan. */
  ghost predicate Punctual(aging: int, from: System, stmts: seq<Stmt>) {
    stmts == [] || (
      var s := Run(aging, from, stmts[..|stmts| - 1]);
      var stmt := stmts[|stmts| - 1];
      && Punctual(aging, from, stmts[..|stmts| - 1])
      && (stmt.RecoverWrite? && WriteMatches(s, stmt.client) ==> !LeasedSinceScan(s, stmt.client)))
  }

  /** The leases that recovery writes took from scans are distinct and over. */
  predicate TakenOnce(s: System) {
    && (forall i, k | 0 <= i < k < |s.taken| :: s.taken[i] != s.taken[k])
    && (forall t | t in s.taken :: t in s.ended)
  }

  lemma TakenStep(aging: int, s: System, stmt: Stmt)
    requires Reachable(aging, s) && TakenOnce(s)
    requires stmt.RecoverWrite? && WriteMatches(s, stmt.client) ==> !LeasedSinceScan(s, stmt.client)
    ensures TakenOnce(Exec(aging, s, stmt))
  {
    var s' := Exec(aging, s, stmt);
    if Can(s, stmt) && stmt.RecoverWrite? && WriteMatches(s, stmt.client) {
      WriteEndsScannedLease(aging, s, stmt.client);
      var token := s.pcs[stmt.client].todo[0].job.token.value;
      assert token !in s.taken;
      assert s'.taken == s.taken + [token] && s'.ended == s.ended + [token];
    } else {
      assert s'.taken == s.taken;
      assert forall t | t in s.ended :: t in s'.ended;
    }
  }

  /**
    Concurrent recovery applies once: without a lease in between scan and write,
    the rows that all recovering clients change are distinct leases, so no
    orphan is recovered by two of them.
   */
  lemma {:induction false} RecoveryAppliesOnce(aging: int, clients: nat, stmts: seq<Stmt>)
    requires Punctual(aging, Fresh(clients), stmts)
    ensures TakenOnce(Run(aging, Fresh(clients), stmts))
  {
    if stmts != [] {
      var front := stmts[..|stmts| - 1];
      RecoveryAppliesOnce(aging, clients, front);
      assert Reachable(aging, Run(aging, Fresh(clients), front));
      TakenStep(aging, Run(aging, Fresh(clients), front), stmts[|stmts| - 1]);
    }
  }
}
