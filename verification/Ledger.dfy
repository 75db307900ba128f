/**
  The lease ledger: which leases were granted, which have ended, and which rows
  still hold one. This is the fencing argument, independent of who runs what.
 */
module Ledger {
  import opened Records
  import opened Dispatch

  datatype Grant = Grant(id: JobId, token: Token)

  /** grants and ended list every lease granted and every lease over, in order of time. */
  datatype Ledger = Ledger(jobs: Jobs, grants: seq<Grant>, ended: seq<Token>)

  /** What one statement does to the jobs table: at most one row changes. */
  datatype Act =
    | Stay
    | Insert(id: JobId, row: Job)
    | Give(id: JobId, row: Job, token: Token)
    | Keep(id: JobId, row: Job)
    | Release(id: JobId, row: Job)

  predicate NoLease(j: Job) {
    j.state != Leased && j.token == None && j.leasedUntil == None
  }

  predicate HasLease(j: Job) {
    j.state == Leased && j.token.Some? && j.leasedUntil.Some?
  }

  predicate ActOk(l: Ledger, act: Act) {
    match act
    case Stay => true
    case Insert(id, row) => id !in l.jobs && NoLease(row) && forall g | g in l.grants :: g.id != id
    case Give(id, row, token) =>
      id in l.jobs && NoLease(l.jobs[id]) && HasLease(row) && row.token == Some(token) &&
          forall g | g in l.grants :: g.token != token
    case Keep(id, row) =>
      && id in l.jobs && HasLease(l.jobs[id]) && HasLease(row) && row.token == l.jobs[id].token
      && row.retryCount == l.jobs[id].retryCount && row.maxAttempts == l.jobs[id].maxAttempts
    case Release(id, row) => id in l.jobs && NoLease(row)
  }

  function Recorded(l: Ledger, act: Act): Ledger
    requires ActOk(l, act)
  {
    match act
    case Stay => l
    case Insert(id, row) => l.(jobs := l.jobs[id := row])
    case Give(id, row, token) => l.(jobs := l.jobs[id := row], grants := l.grants + [Grant(id, token)])
    case Keep(id, row) => l.(jobs := l.jobs[id := row])
    case Release(id, row) =>
      l.(jobs := l.jobs[id := row],
         ended := if l.jobs[id].token.Some? then l.ended + [l.jobs[id].token.value] else l.ended)
  }

  predicate Holds(l: Ledger, g: Grant) {
    g.id in l.jobs && l.jobs[g.id].token == Some(g.token)
  }

  /**
    Lease columns agree; tokens are granted once; a lease ends at most once; and
    every granted lease is either held by its job or over, never both.
   */
  ghost predicate LedgerOk(l: Ledger) {
    && (forall id | id in l.jobs :: NoLease(l.jobs[id]) || HasLease(l.jobs[id]))
    && (forall i, k | 0 <= i < k < |l.grants| :: l.grants[i].token != l.grants[k].token)
    && (forall id | id in l.jobs && l.jobs[id].token.Some? :: Grant(id, l.jobs[id].token.value) in l.grants)
    && (forall i, k | 0 <= i < k < |l.ended| :: l.ended[i] != l.ended[k])
    && (forall g | g in l.grants :: Holds(l, g) <==> g.token !in l.ended)
    && (forall t | t in l.ended :: exists g :: g in l.grants && g.token == t)
  }

  lemma GrantUnique(l: Ledger, a: Grant, b: Grant)
    requires LedgerOk(l) && a in l.grants && b in l.grants && a.token == b.token
    ensures a == b
  {
  }

  lemma GiveKeeps(l: Ledger, act: Act)
    requires LedgerOk(l) && act.Give? && ActOk(l, act)
    ensures LedgerOk(Recorded(l, act))
  {
    var l' := Recorded(l, act);
    assert act.token !in l.ended;
    forall g | g in l'.grants ensures Holds(l', g) <==> g.token !in l'.ended {
      if g in l.grants { assert Holds(l, g) <==> g.token !in l.ended; }
    }
    forall id | id in l'.jobs && l'.jobs[id].token.Some?
      ensures Grant(id, l'.jobs[id].token.value) in l'.grants
    {
      assert l'.grants[|l.grants|] == Grant(act.id, act.token);
    }
    forall t | t in l'.ended ensures exists g :: g in l'.grants && g.token == t {
      var g :| g in l.grants && g.token == t;
      assert g in l'.grants;
    }
  }

  lemma ReleaseKeeps(l: Ledger, act: Act)
    requires LedgerOk(l) && act.Release? && ActOk(l, act)
    ensures LedgerOk(Recorded(l, act))
  {
    var l' := Recorded(l, act);
    if l.jobs[act.id].token.Some? {
      var over := Grant(act.id, l.jobs[act.id].token.value);
      assert over in l.grants && Holds(l, over);
      assert l'.ended == l.ended + [over.token];
      forall g | g in l'.grants ensures Holds(l', g) <==> g.token !in l'.ended {
        if g.token == over.token { GrantUnique(l, g, over); }
      }
    } else {
      forall g | g in l'.grants ensures Holds(l', g) <==> g.token !in l'.ended {
        assert Holds(l, g) <==> Holds(l', g);
      }
    }
  }

  lemma RecordKeeps(l: Ledger, act: Act)
    requires LedgerOk(l) && ActOk(l, act)
    ensures LedgerOk(Recorded(l, act))
  {
    match act
    case Stay =>
    case Give(_, _, _) => GiveKeeps(l, act);
    case Release(_, _) => ReleaseKeeps(l, act);
    case Insert(id, row) =>
      forall g | g in l.grants ensures Holds(Recorded(l, act), g) <==> Holds(l, g) {}
    case Keep(id, row) =>
      forall g | g in l.grants ensures Holds(Recorded(l, act), g) <==> Holds(l, g) {}
  }

  /** Deleting rows without a lease changes nothing for the ledger. */
  lemma DropKeeps(l: Ledger, gone: set<JobId>)
    requires LedgerOk(l) && forall id | id in gone && id in l.jobs :: NoLease(l.jobs[id])
    ensures LedgerOk(l.(jobs := l.jobs - gone))
  {
    var l' := l.(jobs := l.jobs - gone);
    forall g | g in l.grants ensures Holds(l', g) <==> Holds(l, g) {}
  }

  // ---- What a client remembers about a row ----

  /** The job was leased again after the first n grants. */
  predicate Relet(l: Ledger, n: nat, id: JobId) {
    exists i :: n <= i < |l.grants| && l.grants[i].id == id
  }

  /** A leased row read when n leases had been granted: while the same lease lasts its budget columns are unchanged. */
  predicate Remembered(l: Ledger, n: nat, r: Row) {
    && n <= |l.grants|
    && r.job.token.Some? && Grant(r.id, r.job.token.value) in l.grants
    && (r.id in l.jobs && l.jobs[r.id].token == r.job.token ==>
          l.jobs[r.id].retryCount == r.job.retryCount && l.jobs[r.id].maxAttempts == r.job.maxAttempts)
    && (r.id in l.jobs && l.jobs[r.id].state == Leased ==>
          (Relet(l, n, r.id) <==> l.jobs[r.id].token != r.job.token))
  }

  lemma ReletStep(l: Ledger, act: Act, n: nat, id: JobId)
    requires ActOk(l, act) && n <= |l.grants|
    ensures Relet(Recorded(l, act), n, id) <==> Relet(l, n, id) || (act.Give? && act.id == id)
  {
    var l' := Recorded(l, act);
    assert forall i | n <= i < |l.grants| :: l'.grants[i] == l.grants[i];
    if act.Give? { assert l'.grants[|l.grants|] == Grant(act.id, act.token); }
    if Relet(l, n, id) {
      var i :| n <= i < |l.grants| && l.grants[i].id == id;
      assert l'.grants[i].id == id;
    }
  }

  lemma RememberedKeeps(l: Ledger, act: Act, n: nat, r: Row)
    requires LedgerOk(l) && ActOk(l, act) && Remembered(l, n, r)
    ensures Remembered(Recorded(l, act), n, r)
  {
    ReletStep(l, act, n, r.id);
  }

  lemma RememberedDrop(l: Ledger, gone: set<JobId>, n: nat, r: Row)
    requires Remembered(l, n, r)
    ensures Remembered(l.(jobs := l.jobs - gone), n, r)
  {
  }

  /** Reading a leased row now. */
  lemma RememberNow(l: Ledger, r: Row)
    requires LedgerOk(l) && r.id in l.jobs && l.jobs[r.id] == r.job && r.job.state == Leased
    ensures Remembered(l, |l.grants|, r)
  {
  }
}
