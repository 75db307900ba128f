/** Idempotency keys in every interleaving of statements: one stored job a key, until a prune removes it. */
module Idempotency {
  import opened Records
  import opened Dispatch
  import opened Tables
  import opened Ledger
  import opened Fine
  import opened Fencing
  import Q = QueueOps

  ghost predicate KeyPresent(jobs: Jobs, key: string) {
    exists id | id in jobs :: jobs[id].key == Some(key)
  }

  /** No two jobs have the same key. */
  ghost predicate KeysUnique(jobs: Jobs) {
    forall a, b | a in jobs && b in jobs && jobs[a].key.Some? && jobs[a].key == jobs[b].key :: a == b
  }

  function Count(b: bool): nat {
    if b then 1 else 0
  }

  /** An enqueue with this key that stores its job. */
  ghost predicate Stores(aging: int, s: System, stmt: Stmt, key: string) {
    && Can(s, stmt) && stmt.InsertJob? && stmt.spec.key == key
    && stmt.id !in s.db.jobs && stmt.id in Exec(aging, s, stmt).db.jobs
  }

  /** A prune that removes the job with this key. */
  ghost predicate Frees(aging: int, s: System, stmt: Stmt, key: string) {
    Can(s, stmt) && stmt.PruneTx? && KeyPresent(s.db.jobs, key) && !KeyPresent(Exec(aging, s, stmt).db.jobs, key)
  }

  ghost function Stored(aging: int, from: System, stmts: seq<Stmt>, key: string): nat {
    if stmts == [] then 0
    else Stored(aging, from, stmts[..|stmts| - 1], key) +
         Count(Stores(aging, Run(aging, from, stmts[..|stmts| - 1]), stmts[|stmts| - 1], key))
  }

  ghost function Freed(aging: int, from: System, stmts: seq<Stmt>, key: string): nat {
    if stmts == [] then 0
    else Freed(aging, from, stmts[..|stmts| - 1], key) +
         Count(Frees(aging, Run(aging, from, stmts[..|stmts| - 1]), stmts[|stmts| - 1], key))
  }

  lemma InsertKeys(jobs: Jobs, id: JobId, row: Job, key: string)
    requires KeysUnique(jobs) && id !in jobs && !KeyTaken(jobs, row.key)
    ensures KeysUnique(jobs[id := row])
    ensures KeyPresent(jobs[id := row], key) <==> KeyPresent(jobs, key) || row.key == Some(key)
  {
    var after := jobs[id := row];
    if other :| other in jobs && jobs[other].key == Some(key) { assert after[other].key == Some(key); }
    if row.key == Some(key) { assert after[id].key == Some(key); }
  }

  lemma UpdateKeys(jobs: Jobs, id: JobId, row: Job, key: string)
    requires KeysUnique(jobs) && id in jobs && row.key == jobs[id].key
    ensures KeysUnique(jobs[id := row]) && (KeyPresent(jobs[id := row], key) <==> KeyPresent(jobs, key))
  {
    var after := jobs[id := row];
    if other :| other in jobs && jobs[other].key == Some(key) { assert after[other].key == Some(key); }
  }

  /** What any statement but an insert does to a row leaves the key alone. */
  lemma ActKeepsKey(aging: int, s: System, stmt: Stmt)
    requires SystemOk(s) && Can(s, stmt) && !stmt.PruneTx? && !stmt.InsertJob?
    ensures var act := ActOf(aging, s, stmt);
            !act.Stay? ==> act.id in s.db.jobs && act.row.key == s.db.jobs[act.id].key
  {
    ActOnJob(aging, s, stmt);
  }

  /** The key of a stored row is the key that the enqueue gave, whatever else it gave. */
  lemma InsertStores(aging: int, s: System, stmt: Stmt, key: string)
    requires SystemOk(s) && Can(s, stmt) && stmt.InsertJob? && key != "" && KeysUnique(s.db.jobs)
    ensures var after := Exec(aging, s, stmt).db.jobs;
            && KeysUnique(after)
            && (KeyPresent(after, key) <==> KeyPresent(s.db.jobs, key) || stmt.spec.key == key)
            && (Stores(aging, s, stmt, key) <==> stmt.spec.key == key && !KeyPresent(s.db.jobs, key))
  {
    var row := Q.NewRow(stmt.spec, stmt.now);
    assert KeyTaken(s.db.jobs, row.key) <==> row.key.Some? && KeyPresent(s.db.jobs, row.key.value);
    if !KeyTaken(s.db.jobs, row.key) { InsertKeys(s.db.jobs, stmt.id, row, key); }
  }

  lemma OtherKeepsKeys(aging: int, s: System, stmt: Stmt, key: string)
    requires SystemOk(s) && Can(s, stmt) && !stmt.InsertJob? && !stmt.PruneTx? && KeysUnique(s.db.jobs)
    ensures var after := Exec(aging, s, stmt).db.jobs;
            KeysUnique(after) && (KeyPresent(after, key) <==> KeyPresent(s.db.jobs, key))
  {
    var act := ActOf(aging, s, stmt);
    JobsAfter(aging, s, stmt);
    ActKeepsKey(aging, s, stmt);
    if !act.Stay? { UpdateKeys(s.db.jobs, act.id, act.row, key); }
  }

  lemma PruneKeys(aging: int, s: System, stmt: Stmt, key: string)
    requires SystemOk(s) && Can(s, stmt) && stmt.PruneTx? && KeysUnique(s.db.jobs)
    ensures var after := Exec(aging, s, stmt).db.jobs;
            KeysUnique(after) && (KeyPresent(after, key) ==> KeyPresent(s.db.jobs, key))
  {
    var _ := JobsPruned(aging, s, stmt);
  }

  lemma KeyStep(aging: int, s: System, stmt: Stmt, key: string)
    requires SystemOk(s) && Can(s, stmt) && key != "" && KeysUnique(s.db.jobs)
    ensures var after := Exec(aging, s, stmt).db.jobs;
            && KeysUnique(after)
            && Count(KeyPresent(s.db.jobs, key)) + Count(Stores(aging, s, stmt, key)) ==
               Count(KeyPresent(after, key)) + Count(Frees(aging, s, stmt, key))
  {
    if stmt.InsertJob? {
      InsertStores(aging, s, stmt, key);
    } else if stmt.PruneTx? {
      PruneKeys(aging, s, stmt, key);
    } else {
      OtherKeepsKeys(aging, s, stmt, key);
    }
  }

  /**
    In every interleaving, prunes included: the enqueues under one key that stored a
    job are the one whose job is present, if any, and those whose job a prune removed.
    So any number of concurrent enqueues under a key store one job while it is present.
   */
  lemma {:induction false} OneJobAKey(aging: int, clients: nat, stmts: seq<Stmt>, key: string)
    requires key != ""
    ensures var jobs := Run(aging, Fresh(clients), stmts).db.jobs;
            && KeysUnique(jobs)
            && Stored(aging, Fresh(clients), stmts, key) ==
               Freed(aging, Fresh(clients), stmts, key) + Count(KeyPresent(jobs, key))
  {
    if stmts != [] {
      var front, stmt := stmts[..|stmts| - 1], stmts[|stmts| - 1];
      var s := Run(aging, Fresh(clients), front);
      OneJobAKey(aging, clients, front, key);
      RunKeeps(aging, clients, front);
      if Can(s, stmt) { KeyStep(aging, s, stmt, key); }
    }
  }
}
