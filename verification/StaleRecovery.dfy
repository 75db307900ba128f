/**
  Interleavings in which recovery ends a live lease, because its write guards on
  the state alone: the job was leased again, or its lease renewed, since the scan.
 */
module StaleRecovery {
  import opened Records
  import opened Dispatch
  import opened Tables
  import opened Ledger
  import opened Fine
  import opened Fencing
  import opened Recoveries
  import opened Scenarios
  import Q = QueueOps

  const FIRST := LeasedRow(Q.NewRow(SPEC, 1), 2, 1, "first")
  const BACK := RecoveredRow(FIRST, FIRST, 10)

  /** A recovery write that ends a lease whose deadline lies ahead. */
  ghost predicate EndsLiveLease(s: System, client: nat) {
    && WriteMatches(s, client)
    && var id := s.pcs[client].todo[0].id;
       var after := Exec(0, s, RecoverWrite(client)).db.jobs;
       && s.db.jobs[id].leasedUntil.Some? && s.db.jobs[id].leasedUntil.value > s.clock
       && id in after && after[id].state == Pending
  }

  /** The first client's job, leased from time 2 until time 3. */
  lemma ShortLease() returns (s: System)
    ensures Reachable(0, s) && s.clock == 2 && s.pcs == [Idle, Idle] && s.db.jobs == map["job" := FIRST]
    ensures s.db.tokens == {"first"} && s.grants == [Grant("job", "first")]
  {
    s := Begins(1);
    s := Logs(s, 0, 1);
    s := Leases(s, 0, Q.NewRow(SPEC, 1), 1, "first", 2);
    s := Logs(s, 0, 2);
  }

  /**
    Both clients scan the job at time 10. The second writes it back and leases it
    at time 11 until time 111. Then the first client's late write takes that live
    lease away, and does not count its attempt.
   */
  lemma LiveLeaseEnded()
    ensures exists s :: Reachable(0, s) && EndsLiveLease(s, 0) && LeasedSinceScan(s, 0)
                        && var after := Exec(0, s, RecoverWrite(0)).db.jobs;
                           && "job" in after && "job" in s.db.jobs
                           && after["job"].retryCount == s.db.jobs["job"].retryCount
  {
    var s := ShortLease();
    s := Scans(s, 0, FIRST, 10);
    s := Scans(s, 1, FIRST, 10);
    s := WritesBack(s, 1, FIRST, 1, 10);
    s := Logs(s, 1, 10);
    s := Leases(s, 1, BACK, 100, "second", 11);
    LateWrite(s);
  }

  lemma LateWrite(s: System)
    requires s.clock == 11 && |s.pcs| == 2 && s.pcs[0] == Recovering([Row("job", FIRST)], [], 1, 10)
    requires s.db.jobs == map["job" := LeasedRow(BACK, 11, 100, "second")]
    requires s.grants == [Grant("job", "first"), Grant("job", "second")]
    ensures EndsLiveLease(s, 0) && LeasedSinceScan(s, 0)
    ensures Exec(0, s, RecoverWrite(0)).db.jobs == map["job" := RecoveredRow(s.db.jobs["job"], FIRST, 10)]
  {
    assert s.grants[1].id == "job";
    assert s.pcs[0].todo[0] == Row("job", FIRST);
  }

  /**
    The second client scans the job at time 10, then its owner renews the lease at
    time 11 until time 111, and then the second client's write takes the renewed
    lease away. The job was never leased again.
   */
  lemma RenewedLeaseEnded()
    ensures exists s :: Reachable(0, s) && EndsLiveLease(s, 1) && !LeasedSinceScan(s, 1) && !StillDue(s, 1)
  {
    var s := ShortLease();
    s := Scans(s, 1, FIRST, 10);
    s := Renews(s, 0, FIRST, 100, "first", 11);
    RenewedWrite(s);
  }

  lemma RenewedWrite(s: System)
    requires s.clock == 11 && |s.pcs| == 2 && s.pcs[1] == Recovering([Row("job", FIRST)], [], 1, 10)
    requires s.db.jobs == map["job" := RenewedRow(FIRST, 11, 100)] && s.grants == [Grant("job", "first")]
    ensures EndsLiveLease(s, 1) && !LeasedSinceScan(s, 1) && !StillDue(s, 1)
  {
    assert s.pcs[1].todo[0] == Row("job", FIRST);
    assert Exec(0, s, RecoverWrite(1)).db.jobs["job"] == RecoveredRow(s.db.jobs["job"], FIRST, 10);
  }
}
