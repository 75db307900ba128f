/** The deadline during a worker's turn: exactly when its heartbeats keep the job from every recovery scan. */
module TurnLease {
  import opened Records
  import opened Dispatch
  import opened Tables
  import opened Worker
  import Heartbeat
  import C = Coarse
  import Q = QueueOps

  /** When the lease was last taken or renewed, after the first n heartbeats. */
  function RenewedAt(t: Tick, n: nat): int
    requires n <= |t.beats|
  {
    if n == 0 then t.leased else t.beats[n - 1].now
  }

  /** When the slot next changes the row: at the next heartbeat, or when it finishes the job. */
  function NextAt(t: Tick, n: nat): int
    requires n <= |t.beats|
  {
    if n == |t.beats| then t.finished else t.beats[n].now
  }

  /** The database between the n-th heartbeat and the next. */
  ghost function During(db: Db, aging: int, id: JobId, kind: string, duration: int, t: Tick, n: nat): Db
    requires n <= |t.beats|
  {
    RenewAll(Q.Lease(db, aging, kind, duration, t.token, t.leased, t.leaseLogged), id, t.token, duration, t.beats[..n])
  }

  /** A lease always runs for its full length from the last heartbeat. */
  lemma DeadlineDuring(db: Db, aging: int, id: JobId, kind: string, duration: int, t: Tick, n: nat)
    requires n <= |t.beats| && id in db.jobs && Choose(db.jobs, kind, t.leased, aging) == Some(id)
    ensures var jobs := During(db, aging, id, kind, duration, t, n).jobs;
            HoldsToken(jobs, id, t.token) && jobs[id].leasedUntil == Some(RenewedAt(t, n) + duration)
  {
    var taken := Q.Lease(db, aging, kind, duration, t.token, t.leased, t.leaseLogged);
    LeaseOnJob(db, aging, id, kind, duration, t);
    assert HoldsToken(taken.jobs, id, t.token);
    if n > 0 {
      RenewalsExtend(taken, id, t.token, duration, t.beats[..n]);
    } else {
      assert t.beats[..0] == [];
    }
  }

  /** At no instant of the turn is the job an orphan. */
  ghost predicate NeverOrphan(db: Db, aging: int, id: JobId, kind: string, duration: int, t: Tick) {
    forall n: nat, now | n <= |t.beats| && RenewedAt(t, n) <= now <= NextAt(t, n) ::
      var jobs := During(db, aging, id, kind, duration, t, n).jobs;
      id in jobs && !IsOrphan(jobs[id], now)
  }

  predicate GapsWithin(t: Tick, gap: int) {
    forall n: nat | n <= |t.beats| :: NextAt(t, n) - RenewedAt(t, n) <= gap
  }

  /**
    The job of a turn is an orphan at no instant of it, for no scan to find, exactly
    when no heartbeat, and not the finish either, comes later than one lease after
    the one before.
   */
  lemma TurnNeverOrphan(db: Db, aging: int, id: JobId, kind: string, duration: int, t: Tick)
    requires id in db.jobs && Choose(db.jobs, kind, t.leased, aging) == Some(id)
    requires forall n: nat | n <= |t.beats| :: RenewedAt(t, n) <= NextAt(t, n)
    ensures NeverOrphan(db, aging, id, kind, duration, t) <==> GapsWithin(t, duration)
  {
    forall n: nat | n <= |t.beats|
      ensures var jobs := During(db, aging, id, kind, duration, t, n).jobs;
              HoldsToken(jobs, id, t.token) && jobs[id].leasedUntil == Some(RenewedAt(t, n) + duration)
    {
      DeadlineDuring(db, aging, id, kind, duration, t, n);
    }
    if NeverOrphan(db, aging, id, kind, duration, t) {
      forall n: nat | n <= |t.beats| ensures NextAt(t, n) - RenewedAt(t, n) <= duration {
        assert !IsOrphan(During(db, aging, id, kind, duration, t, n).jobs[id], NextAt(t, n));
      }
    }
  }

  // ---- The slot's loop is the heartbeat of whole runs ----

  function BeatOps(id: JobId, token: Token, duration: int, beats: seq<Beat>): seq<C.Op> {
    seq(|beats|, i requires 0 <= i < |beats| => C.Renew(id, token, duration, beats[i].now, beats[i].logged))
  }

  /**
    The heartbeats of a turn are a run of renewals by its owner, and that run keeps
    time as the theorems on runs ask exactly when each gap before a heartbeat fits.
   */
  lemma {:induction false} BeatsAreARun(aging: int, from: C.World, id: JobId, duration: int, t: Tick, n: nat, gap: int)
    requires n <= |t.beats|
    ensures var ops := BeatOps(id, t.token, duration, t.beats[..n]);
            && C.After(aging, from, ops).db == RenewAll(from.db, id, t.token, duration, t.beats[..n])
            && Heartbeat.LastBeat(ops, id, t.token, t.leased) == RenewedAt(t, n)
            && (Heartbeat.InTime(ops, id, t.token, t.leased, gap) <==>
                  forall k: nat | k < n :: t.beats[k].now - RenewedAt(t, k) <= gap)
  {
    if n > 0 {
      var ops := BeatOps(id, t.token, duration, t.beats[..n]);
      BeatsAreARun(aging, from, id, duration, t, n - 1, gap);
      assert t.beats[..n][..n - 1] == t.beats[..n - 1];
      assert ops[..n - 1] == BeatOps(id, t.token, duration, t.beats[..n - 1]);
    }
  }
}
