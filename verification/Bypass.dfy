/**
  Bounded bypass under priority aging: how many leases of its kind can be
  granted while a ready job waits.
 */
module Bypass {
  import opened Records
  import opened Dispatch
  import opened Tables
  import opened Retention
  import opened EventLog
  import opened Coarse
  import opened Changes
  import opened Progress
  import Q = QueueOps

  /**
    Leases a job may still get, counted for jobs of the kind other than the waiter
    that are ready before the horizon.
   */
  function Ahead(waiter: JobId, kind: string, horizon: int): Row -> int {
    (r: Row) =>
      if r.id == waiter || r.job.kind != kind || r.job.ReadyAt() >= horizon then 0
      else if r.job.state == Pending then r.job.maxAttempts - r.job.retryCount
      else if r.job.state == Leased then r.job.maxAttempts - r.job.retryCount - 1
      else 0
  }

  /** What a new job, or a new budget for a dead letter, adds to that count. */
  function NewAhead(db: Db, op: Op, kind: string, horizon: int): int {
    match op
    case Enqueue(_, spec, now) =>
      var row := Q.NewRow(spec, now);
      if row.kind == kind && row.ReadyAt() < horizon then row.maxAttempts else 0
    case Requeue(id, maxAttempts, _, _, _) =>
      if id !in db.jobs || db.jobs[id].state != DeadLetter then 0
      else if db.jobs[id].kind != kind || db.jobs[id].ReadyAt() >= horizon then 0
      else if maxAttempts >= 1 then maxAttempts
      else db.jobs[id].maxAttempts
    case _ => 0
  }

  ghost function TotalNewAhead(aging: int, from: World, ops: seq<Op>, kind: string, horizon: int): int {
    if ops == [] then 0
    else TotalNewAhead(aging, from, ops[..|ops| - 1], kind, horizon) +
         NewAhead(After(aging, from, ops[..|ops| - 1]).db, ops[|ops| - 1], kind, horizon)
  }

  /** Whether the operation grants a lease of the kind. */
  ghost function Grants(aging: int, db: Db, op: Op, kind: string): nat {
    if op.Lease? && op.kind == kind && Choose(db.jobs, kind, op.now, aging).Some? then 1 else 0
  }

  ghost function TotalGrants(aging: int, from: World, ops: seq<Op>, kind: string): nat {
    if ops == [] then 0
    else TotalGrants(aging, from, ops[..|ops| - 1], kind) +
         Grants(aging, After(aging, from, ops[..|ops| - 1]).db, ops[|ops| - 1], kind)
  }

  /** The job is pending from start to end of the run. */
  ghost predicate Waits(aging: int, from: World, ops: seq<Op>, id: JobId) {
    var jobs := After(aging, from, ops).db.jobs;
    && id in jobs && jobs[id].state == Pending
    && (ops != [] ==> Waits(aging, from, ops[..|ops| - 1], id))
  }

  predicate PriorityCap(jobs: Jobs, kind: string, top: int) {
    forall id | id in jobs && jobs[id].kind == kind :: jobs[id].priority <= top
  }

  /** New jobs of the kind respect the cap. */
  predicate Admissible(op: Op, kind: string, top: int) {
    op.Enqueue? && op.spec.kind == kind ==> op.spec.priority <= top
  }

  /** What never changes in a row. */
  predicate SamePlace(a: Job, b: Job) {
    a.kind == b.kind && a.priority == b.priority && a.ReadyAt() == b.ReadyAt()
  }

  // ---- One change ----

  lemma ChangeLowersAhead(t: Contents, c: Change, waiter: JobId, kind: string, horizon: int)
    requires GoodChange(t, c) && c.Moved? && !c.kind.Requeued?
    ensures Sum(ApplyChange(t, c).jobs, Ahead(waiter, kind, horizon))
         <= Sum(t.jobs, Ahead(waiter, kind, horizon)) -
            if c.kind.LeaseTaken? && c.id != waiter && c.row.kind == kind && c.row.ReadyAt() < horizon then 1 else 0
  {
    SumChange(t.jobs, c.id, c.row, Ahead(waiter, kind, horizon));
  }

  lemma {:induction false} ChangesLowerAhead(t: Contents, cs: seq<Change>, waiter: JobId, kind: string, horizon: int)
    requires AllGood(t, cs) && forall c | c in cs :: c.Moved? && !c.kind.Requeued?
    ensures Sum(ApplyAll(t, cs).jobs, Ahead(waiter, kind, horizon)) <= Sum(t.jobs, Ahead(waiter, kind, horizon))
    decreases |cs|
  {
    if cs != [] {
      ChangeLowersAhead(t, cs[0], waiter, kind, horizon);
      ChangesLowerAhead(ApplyChange(t, cs[0]), cs[1..], waiter, kind, horizon);
    }
  }

  lemma {:induction false} ChangesKeepPlace(t: Contents, cs: seq<Change>, kind: string, top: int)
    requires AllGood(t, cs) && PriorityCap(t.jobs, kind, top)
    requires forall c | c in cs && c.Born? && c.row.kind == kind :: c.row.priority <= top
    ensures PriorityCap(ApplyAll(t, cs).jobs, kind, top)
    ensures forall id | id in t.jobs :: id in ApplyAll(t, cs).jobs && SamePlace(t.jobs[id], ApplyAll(t, cs).jobs[id])
    decreases |cs|
  {
    if cs != [] {
      assert cs[0] in cs;
      ChangesKeepPlace(ApplyChange(t, cs[0]), cs[1..], kind, top);
    }
  }

  /** The cap holds afterwards and no row that is left changed its place. */
  ghost predicate PlacesKept(before: Jobs, after: Jobs, kind: string, top: int) {
    && PriorityCap(after, kind, top)
    && forall id | id in before && id in after :: SamePlace(before[id], after[id])
  }

  lemma PruneKeepsPlace(db: Db, p: Policy, source: Source, now: int, kind: string, top: int)
    requires PriorityCap(db.jobs, kind, top)
    ensures PlacesKept(db.jobs, Prune(db, p, source, now).jobs, kind, top)
  {
    if !source.OtherSource? { PruneTables(db, p, source, now); }
  }

  lemma ChangesKeepPlaces(t: Contents, cs: seq<Change>, after: Contents, kind: string, top: int)
    requires AllGood(t, cs) && ApplyAll(t, cs) == after && PriorityCap(t.jobs, kind, top)
    requires forall c | c in cs && c.Born? && c.row.kind == kind :: c.row.priority <= top
    ensures PlacesKept(t.jobs, after.jobs, kind, top)
  {
    ChangesKeepPlace(t, cs, kind, top);
  }

  lemma NewcomersCapped(aging: int, db: Db, op: Op, kind: string, top: int)
    requires Admissible(op, kind, top)
    ensures forall c | c in ChangesOf(aging, db, op) && c.Born? && c.row.kind == kind :: c.row.priority <= top
  {
  }

  lemma StepKeepsPlace(aging: int, w: World, op: Op, kind: string, top: int)
    requires Inv(w) && Enabled(w, op) && Admissible(op, kind, top) && PriorityCap(w.db.jobs, kind, top)
    ensures PlacesKept(w.db.jobs, Apply(aging, w.db, op).jobs, kind, top)
  {
    if op.PruneRun? {
      PruneKeepsPlace(w.db, op.policy, op.source, op.now, kind, top);
    } else {
      StepShape(aging, w, op);
      NewcomersCapped(aging, w.db, op, kind, top);
      ChangesKeepPlaces(ContentsOf(w.db), ChangesOf(aging, w.db, op), ContentsOf(Apply(aging, w.db, op)), kind, top);
    }
  }

  // ---- One operation ----

  /** While a ready job waits, every lease of its kind goes to a job ready before the horizon. */
  lemma GrantIsAhead(aging: int, jobs: Jobs, waiter: JobId, best: JobId, kind: string, top: int, now: int)
    requires aging > 0 && waiter in jobs && jobs[waiter].ReadyFor(kind, now) && PriorityCap(jobs, kind, top)
    requires forall id | id in jobs :: jobs[id].createdAt <= now
    requires Choose(jobs, kind, now, aging) == Some(best) && best != waiter
    ensures jobs[best].kind == kind
    ensures jobs[best].ReadyAt() < Horizon(jobs[waiter].ReadyAt(), jobs[waiter].priority, top, aging)
  {
    var w, x := Row(waiter, jobs[waiter]), Row(best, jobs[best]);
    NoneBeforeChosen(jobs, kind, now, aging, best, waiter);
    if x.job.ReadyAt() >= Horizon(w.job.ReadyAt(), w.job.priority, top, aging) { Outranks(w, x, top, now, aging); }
  }

  lemma GrantLowersAhead(t: Contents, c: Change, waiter: JobId, kind: string, horizon: int)
    requires GoodChange(t, c) && c.Moved? && c.kind.LeaseTaken? && c.id != waiter
    requires t.jobs[c.id].kind == kind ==> t.jobs[c.id].ReadyAt() < horizon
    ensures Sum(ApplyChange(t, c).jobs, Ahead(waiter, kind, horizon)) + (if t.jobs[c.id].kind == kind then 1 else 0)
         <= Sum(t.jobs, Ahead(waiter, kind, horizon))
  {
    ChangeLowersAhead(t, c, waiter, kind, horizon);
  }

  lemma LeaseLowersAhead(aging: int, w: World, op: Op, waiter: JobId, top: int)
    requires Inv(w) && Enabled(w, op) && op.Lease? && aging > 0
    requires waiter in w.db.jobs && w.db.jobs[waiter].ReadyFor(w.db.jobs[waiter].kind, w.clock)
    requires Apply(aging, w.db, op).jobs[waiter].state == Pending
    requires PriorityCap(w.db.jobs, w.db.jobs[waiter].kind, top)
    ensures var j := w.db.jobs[waiter];
            var ahead := Ahead(waiter, j.kind, Horizon(j.ReadyAt(), j.priority, top, aging));
            Sum(Apply(aging, w.db, op).jobs, ahead) + Grants(aging, w.db, op, j.kind) <= Sum(w.db.jobs, ahead)
  {
    forall id | id in w.db.jobs ensures RowOk(w.db.jobs[id], w.clock) {}
    TakeLowersAhead(aging, w.db, w.clock, op, waiter, top);
  }

  lemma TakeLowersAhead(aging: int, db: Db, clock: int, op: Op, waiter: JobId, top: int)
    requires (forall id | id in db.jobs :: RowOk(db.jobs[id], clock)) && op.Lease? && clock <= op.now && aging > 0
    requires waiter in db.jobs && db.jobs[waiter].ReadyFor(db.jobs[waiter].kind, clock)
    requires Apply(aging, db, op).jobs[waiter].state == Pending && PriorityCap(db.jobs, db.jobs[waiter].kind, top)
    ensures var j := db.jobs[waiter];
            var ahead := Ahead(waiter, j.kind, Horizon(j.ReadyAt(), j.priority, top, aging));
            Sum(Apply(aging, db, op).jobs, ahead) + Grants(aging, db, op, j.kind) <= Sum(db.jobs, ahead)
  {
    var j := db.jobs[waiter];
    var best := Choose(db.jobs, op.kind, op.now, aging);
    LeaseShape(aging, db, clock, op);
    if best.Some? {
      var row := LeasedRow(db.jobs[best.value], op.now, op.duration, op.token);
      var taken := Moved(best.value, row, LeaseTaken, op.logged);
      One(ContentsOf(db), taken);
      if op.kind == j.kind { GrantIsAhead(aging, db.jobs, waiter, best.value, j.kind, top, op.now); }
      GrantLowersAhead(ContentsOf(db), taken, waiter, j.kind, Horizon(j.ReadyAt(), j.priority, top, aging));
    }
  }

  lemma EnqueueAddsAhead(aging: int, w: World, op: Op, waiter: JobId, kind: string, horizon: int)
    requires Inv(w) && Enabled(w, op) && op.Enqueue?
    ensures Sum(Apply(aging, w.db, op).jobs, Ahead(waiter, kind, horizon))
         <= Sum(w.db.jobs, Ahead(waiter, kind, horizon)) + NewAhead(w.db, op, kind, horizon)
  {
    SumChange(w.db.jobs, op.id, Q.NewRow(op.spec, op.now), Ahead(waiter, kind, horizon));
  }

  lemma RequeueAddsAhead(aging: int, db: Db, op: Op, waiter: JobId, kind: string, horizon: int)
    requires op.Requeue? && forall id | id in db.jobs :: db.jobs[id].maxAttempts >= 1
    ensures Sum(Apply(aging, db, op).jobs, Ahead(waiter, kind, horizon))
         <= Sum(db.jobs, Ahead(waiter, kind, horizon)) + NewAhead(db, op, kind, horizon)
  {
    if op.id in db.jobs && db.jobs[op.id].state == DeadLetter {
      var budget := if op.maxAttempts >= 1 then op.maxAttempts else db.jobs[op.id].maxAttempts;
      var row := RequeuedRow(db.jobs[op.id], budget, op.payload, op.now);
      SumChange(db.jobs, op.id, row, Ahead(waiter, kind, horizon));
    }
  }

  lemma ShapedKeepsAhead(t: Contents, cs: seq<Change>, after: Contents, waiter: JobId, kind: string, horizon: int)
    requires AllGood(t, cs) && ApplyAll(t, cs) == after && forall c | c in cs :: c.Moved? && !c.kind.Requeued?
    ensures Sum(after.jobs, Ahead(waiter, kind, horizon)) <= Sum(t.jobs, Ahead(waiter, kind, horizon))
  {
    ChangesLowerAhead(t, cs, waiter, kind, horizon);
  }

  lemma OtherKeepsAhead(aging: int, w: World, op: Op, waiter: JobId, kind: string, horizon: int)
    requires Inv(w) && Enabled(w, op) && !op.Enqueue? && !op.Lease? && !op.Requeue?
    ensures Sum(Apply(aging, w.db, op).jobs, Ahead(waiter, kind, horizon)) <=
            Sum(w.db.jobs, Ahead(waiter, kind, horizon))
  {
    if op.PruneRun? {
      PruneKeepsSum(w.db, op.policy, op.source, op.now, Ahead(waiter, kind, horizon));
    } else {
      StepShape(aging, w, op);
      DrainingChanges(aging, w.db, op);
      ShapedKeepsAhead(ContentsOf(w.db), ChangesOf(aging, w.db, op), ContentsOf(Apply(aging, w.db, op)),
                       waiter, kind, horizon);
    }
  }

  // ---- Whole runs ----

  lemma {:induction false} RunKeepsPlace(aging: int, from: World, ops: seq<Op>, waiter: JobId, kind: string, top: int)
    requires Inv(from) && Legal(aging, from, ops) && Waits(aging, from, ops, waiter)
    requires PriorityCap(from.db.jobs, kind, top) && forall op | op in ops :: Admissible(op, kind, top)
    ensures waiter in from.db.jobs
    ensures PriorityCap(After(aging, from, ops).db.jobs, kind, top)
    ensures SamePlace(from.db.jobs[waiter], After(aging, from, ops).db.jobs[waiter])
    ensures from.clock <= After(aging, from, ops).clock
  {
    if ops != [] {
      var front := ops[..|ops| - 1];
      RunKeepsPlace(aging, from, front, waiter, kind, top);
      RunKeeps(aging, from, front);
      StepKeepsPlace(aging, After(aging, from, front), ops[|ops| - 1], kind, top);
    }
  }

  /**
    Bounded bypass. While a job that is ready stays pending, with every priority
    of its kind at most top, the leases of its kind that are granted number at
    most the attempts left to jobs ready before the horizon, those enqueued or
    requeued meanwhile included.
   */
  lemma {:induction false} BoundedBypass(aging: int, from: World, ops: seq<Op>, waiter: JobId, top: int)
    requires aging > 0 && Inv(from) && Legal(aging, from, ops) && Waits(aging, from, ops, waiter)
    requires waiter in from.db.jobs && from.db.jobs[waiter].ReadyFor(from.db.jobs[waiter].kind, from.clock)
    requires PriorityCap(from.db.jobs, from.db.jobs[waiter].kind, top)
    requires forall op | op in ops :: Admissible(op, from.db.jobs[waiter].kind, top)
    ensures var j := from.db.jobs[waiter];
            var horizon := Horizon(j.ReadyAt(), j.priority, top, aging);
            var ahead := Ahead(waiter, j.kind, horizon);
            TotalGrants(aging, from, ops, j.kind) + Sum(After(aging, from, ops).db.jobs, ahead)
              <= Sum(from.db.jobs, ahead) + TotalNewAhead(aging, from, ops, j.kind, horizon)
  {
    if ops != [] {
      var front, op := ops[..|ops| - 1], ops[|ops| - 1];
      var w := After(aging, from, front);
      var j := from.db.jobs[waiter];
      BoundedBypass(aging, from, front, waiter, top);
      RunKeeps(aging, from, front);
      RunKeepsPlace(aging, from, front, waiter, j.kind, top);
      var horizon := Horizon(j.ReadyAt(), j.priority, top, aging);
      BypassStep(aging, w, op, waiter, top, j);
    }
  }

  lemma BypassStep(aging: int, w: World, op: Op, waiter: JobId, top: int, j: Job)
    requires aging > 0 && Inv(w) && Enabled(w, op) && Admissible(op, j.kind, top)
    requires waiter in w.db.jobs && SamePlace(j, w.db.jobs[waiter]) && PriorityCap(w.db.jobs, j.kind, top)
    requires w.db.jobs[waiter].ReadyFor(j.kind, w.clock)
    requires waiter in Apply(aging, w.db, op).jobs && Apply(aging, w.db, op).jobs[waiter].state == Pending
    ensures var horizon := Horizon(j.ReadyAt(), j.priority, top, aging);
            var ahead := Ahead(waiter, j.kind, horizon);
            Sum(Apply(aging, w.db, op).jobs, ahead) + Grants(aging, w.db, op, j.kind)
              <= Sum(w.db.jobs, ahead) + NewAhead(w.db, op, j.kind, horizon)
  {
    var horizon := Horizon(j.ReadyAt(), j.priority, top, aging);
    if op.Lease? {
      LeaseLowersAhead(aging, w, op, waiter, top);
    } else if op.Enqueue? {
      EnqueueAddsAhead(aging, w, op, waiter, j.kind, horizon);
    } else if op.Requeue? {
      forall id | id in w.db.jobs ensures w.db.jobs[id].maxAttempts >= 1 { assert RowOk(w.db.jobs[id], w.clock); }
      RequeueAddsAhead(aging, w.db, op, waiter, j.kind, horizon);
    } else {
      OtherKeepsAhead(aging, w, op, waiter, j.kind, horizon);
    }
  }

  /** The count on the right is never negative, so it bounds the number of leases on its own. */
  lemma {:induction false} AheadIsNatural(ids: set<JobId>, jobs: Jobs, clock: int, waiter: JobId, kind: string,
      horizon: int)
    requires ids <= jobs.Keys && forall id | id in ids :: RowOk(jobs[id], clock)
    ensures Total(ids, jobs, Ahead(waiter, kind, horizon)) >= 0
    decreases |ids|
  {
    if ids != {} {
      var id :| id in ids;
      TotalSplit(ids, jobs, Ahead(waiter, kind, horizon), id);
      AheadIsNatural(ids - {id}, jobs, clock, waiter, kind, horizon);
    }
  }

  /** Jobs of the kind that are enqueued or requeued are ready from the horizon on. */
  ghost predicate NobodyCutsIn(aging: int, from: World, ops: seq<Op>, kind: string, horizon: int) {
    ops == [] || (
      var db, op := After(aging, from, ops[..|ops| - 1]).db, ops[|ops| - 1];
      && NobodyCutsIn(aging, from, ops[..|ops| - 1], kind, horizon)
      && (op.Enqueue? && op.spec.kind == kind ==> Q.NewRow(op.spec, op.now).ReadyAt() >= horizon)
      && (op.Requeue? && op.id in db.jobs && db.jobs[op.id].kind == kind ==> db.jobs[op.id].ReadyAt() >= horizon))
  }

  /**
    With aging on, jobs ready from the horizon on do not delay the waiter: what
    was ahead at the start is the bound.
   */
  lemma LateJobsDoNotDelay(aging: int, from: World, ops: seq<Op>, waiter: JobId, top: int)
    requires aging > 0 && Inv(from) && Legal(aging, from, ops) && Waits(aging, from, ops, waiter)
    requires waiter in from.db.jobs && from.db.jobs[waiter].ReadyFor(from.db.jobs[waiter].kind, from.clock)
    requires PriorityCap(from.db.jobs, from.db.jobs[waiter].kind, top)
    requires forall op | op in ops :: Admissible(op, from.db.jobs[waiter].kind, top)
    requires var j := from.db.jobs[waiter];
             NobodyCutsIn(aging, from, ops, j.kind, Horizon(j.ReadyAt(), j.priority, top, aging))
    ensures var j := from.db.jobs[waiter];
            TotalGrants(aging, from, ops, j.kind)
              <= Sum(from.db.jobs, Ahead(waiter, j.kind, Horizon(j.ReadyAt(), j.priority, top, aging)))
  {
    var j := from.db.jobs[waiter];
    var horizon := Horizon(j.ReadyAt(), j.priority, top, aging);
    var end := After(aging, from, ops);
    BoundedBypass(aging, from, ops, waiter, top);
    RunKeeps(aging, from, ops);
    forall id | id in end.db.jobs ensures RowOk(end.db.jobs[id], end.clock) {}
    AheadIsNatural(end.db.jobs.Keys, end.db.jobs, end.clock, waiter, j.kind, horizon);
    NothingNewAhead(aging, from, ops, j.kind, horizon);
  }

  lemma {:induction false} NothingNewAhead(aging: int, from: World, ops: seq<Op>, kind: string, horizon: int)
    requires NobodyCutsIn(aging, from, ops, kind, horizon)
    ensures TotalNewAhead(aging, from, ops, kind, horizon) == 0
  {
    if ops != [] { NothingNewAhead(aging, from, ops[..|ops| - 1], kind, horizon); }
  }

  // ---- Without aging there is no bound ----

  lemma {:induction false} LengthBound(texts: set<string>) returns (n: nat)
    ensures forall t | t in texts :: |t| <= n
    decreases |texts|
  {
    if texts == {} {
      n := 0;
    } else {
      var t :| t in texts;
      n := LengthBound(texts - {t});
      if n < |t| { n := |t|; }
    }
  }

  /** A text outside a finite set, for the next id or token. */
  lemma FreshText(texts: set<string>) returns (t: string)
    ensures t != "" && t !in texts
  {
    var n := LengthBound(texts);
    t := seq(n + 1, i => 'x');
  }

  /** The operation enqueues a ready job of higher priority than the waiter's, whose row stays. */
  ghost predicate RivalComes(aging: int, w: World, a: Op, waiter: JobId, j: Job, late: int) {
    var after := Step(aging, w, a).db.jobs;
    && a.Enqueue? && Enabled(w, a) && a.now >= late && a.spec.priority == j.priority + 1
    && waiter in after && after[waiter] == j
    && a.id in after && after[a.id].ReadyFor(j.kind, a.now) && after[a.id].priority > j.priority
  }

  /** The operation grants a lease of the waiter's kind to another job. */
  ghost predicate LeasesPast(aging: int, w: World, b: Op, waiter: JobId, j: Job, late: int) {
    var after := Step(aging, w, b).db.jobs;
    && b.Lease? && b.kind == j.kind && Enabled(w, b) && b.now >= late
    && Grants(aging, w.db, b, j.kind) == 1
    && waiter in after && after[waiter] == j
  }

  lemma BringRival(aging: int, w: World, waiter: JobId, late: int) returns (a: Op)
    requires w.db.jobs.Keys <= w.db.ids && waiter in w.db.jobs
    ensures RivalComes(aging, w, a, waiter, w.db.jobs[waiter], late)
  {
    var j := w.db.jobs[waiter];
    var now := if late > w.clock then late else w.clock;
    var id := FreshText(w.db.ids);
    var spec := Q.NewJob(j.kind, "", 1, j.priority + 1, "", None);
    a := Enqueue(id, spec, now);
    assert id !in w.db.jobs && Q.Enqueue(w.db, id, spec, now).jobs == w.db.jobs[id := Q.NewRow(spec, now)];
  }

  lemma LeaseRival(aging: int, w: World, rival: JobId, waiter: JobId, late: int) returns (b: Op)
    requires aging <= 0 && late <= w.clock && waiter in w.db.jobs && rival in w.db.jobs
    requires w.db.jobs[rival].ReadyFor(w.db.jobs[waiter].kind, w.clock) &&
              w.db.jobs[waiter].priority < w.db.jobs[rival].priority
    ensures LeasesPast(aging, w, b, waiter, w.db.jobs[waiter], late)
  {
    var token := FreshText(w.db.tokens);
    b := Lease(w.db.jobs[waiter].kind, 0, token, w.clock, w.clock);
    LowerWaits(w.db.jobs, rival, waiter, b.kind, w.clock, aging);
  }

  lemma LowerWaits(jobs: Jobs, id: JobId, waiter: JobId, kind: string, now: int, aging: int)
    requires aging <= 0 && id in jobs && jobs[id].ReadyFor(kind, now)
    requires waiter in jobs && jobs[waiter].priority < jobs[id].priority
    ensures Choose(jobs, kind, now, aging).Some? && Choose(jobs, kind, now, aging) != Some(waiter)
  {
    assert id in ReadySet(jobs, kind, now);
    assert !Before(Row(waiter, jobs[waiter]), Row(id, jobs[id]), now, aging);
  }

  lemma RunSnoc(aging: int, from: World, ops: seq<Op>, op: Op, waiter: JobId, kind: string)
    requires Legal(aging, from, ops) && Enabled(After(aging, from, ops), op)
    ensures Legal(aging, from, ops + [op])
    ensures After(aging, from, ops + [op]) == Step(aging, After(aging, from, ops), op)
    ensures TotalGrants(aging, from, ops + [op], kind)
         == TotalGrants(aging, from, ops, kind) + Grants(aging, After(aging, from, ops).db, op, kind)
    ensures Waits(aging, from, ops + [op], waiter) <==>
            Waits(aging, from, ops, waiter) && waiter in Step(aging, After(aging, from, ops), op).db.jobs
            && Step(aging, After(aging, from, ops), op).db.jobs[waiter].state == Pending
  {
    assert (ops + [op])[..|ops|] == ops;
  }

  /** A legal run, all of it late and under a priority cap, in which n leases go past a job that waits unchanged. */
  ghost predicate Overtakes(aging: int, from: World, ops: seq<Op>, waiter: JobId, j: Job, late: int, n: nat) {
    && Legal(aging, from, ops) && Waits(aging, from, ops, waiter)
    && After(aging, from, ops).db.jobs[waiter] == j && from.clock <= After(aging, from, ops).clock
    && (forall op | op in ops :: op.now >= late && Admissible(op, j.kind, j.priority + 1))
    && TotalGrants(aging, from, ops, j.kind) == n
  }

  lemma RivalAdds(aging: int, from: World, ops: seq<Op>, a: Op, waiter: JobId, j: Job, late: int, n: nat)
    requires Overtakes(aging, from, ops, waiter, j, late, n) && j.state == Pending
    requires RivalComes(aging, After(aging, from, ops), a, waiter, j, late)
    ensures Overtakes(aging, from, ops + [a], waiter, j, late, n)
  {
    RunSnoc(aging, from, ops, a, waiter, j.kind);
  }

  lemma LeaseAdds(aging: int, from: World, ops: seq<Op>, b: Op, waiter: JobId, j: Job, late: int, n: nat)
    requires Overtakes(aging, from, ops, waiter, j, late, n) && j.state == Pending
    requires LeasesPast(aging, After(aging, from, ops), b, waiter, j, late)
    ensures Overtakes(aging, from, ops + [b], waiter, j, late, n + 1)
  {
    RunSnoc(aging, from, ops, b, waiter, j.kind);
  }

  lemma NoneYet(aging: int, from: World, waiter: JobId, late: int)
    requires waiter in from.db.jobs && from.db.jobs[waiter].state == Pending
    ensures Overtakes(aging, from, [], waiter, from.db.jobs[waiter], late, 0)
  {
  }

  lemma OnceMore(aging: int, from: World, ops: seq<Op>, waiter: JobId, j: Job, late: int, n: nat)
    returns (more: seq<Op>)
    requires aging <= 0 && Inv(from) && j.state == Pending
    requires Overtakes(aging, from, ops, waiter, j, late, n)
    ensures Overtakes(aging, from, more, waiter, j, late, n + 1)
  {
    var w := After(aging, from, ops);
    RunKeeps(aging, from, ops);
    assert w.db.jobs.Keys <= w.db.ids;
    var a := BringRival(aging, w, waiter, late);
    RivalAdds(aging, from, ops, a, waiter, j, late, n);
    RunSnoc(aging, from, ops, a, waiter, j.kind);
    var b := LeaseRival(aging, Step(aging, w, a), a.id, waiter, late);
    LeaseAdds(aging, from, ops + [a], b, waiter, j, late, n);
    more := ops + [a] + [b];
  }

  /** With aging off, a ready job can see any number of leases of its kind go past it, however late they come. */
  lemma {:induction false} NoBoundWithoutAging(aging: int, from: World, waiter: JobId, late: int, n: nat)
    returns (ops: seq<Op>)
    requires aging <= 0 && Inv(from) && waiter in from.db.jobs
    requires from.db.jobs[waiter].ReadyFor(from.db.jobs[waiter].kind, from.clock)
    ensures Overtakes(aging, from, ops, waiter, from.db.jobs[waiter], late, n)
  {
    if n == 0 {
      ops := [];
      NoneYet(aging, from, waiter, late);
    } else {
      var fewer := NoBoundWithoutAging(aging, from, waiter, late, n - 1);
      ops := OnceMore(aging, from, fewer, waiter, from.db.jobs[waiter], late, n - 1);
    }
  }
}
