/** The order in which ready jobs are leased: priority, aging and the tie breakers. */
module Dispatch {
  import opened Records
  import Text

  /** SQLite's CAST(x AS INTEGER) of the exact quotient a/b: truncation toward zero. */
  function TruncDiv(a: int, b: int): int
    requires b > 0
  {
    if a >= 0 then a / b else -(-a / b)
  }

  lemma DivUnique(a: int, d: int, q: int, m: int)
    requires d > 0 && a == q * d + m && 0 <= m < d
    ensures a / d == q
  {
    var e := a / d - q;
    assert e * d == a - a % d - q * d == m - a % d;
    assert e >= 1 ==> e * d >= d;
    assert e <= -1 ==> e * d <= -d;
  }

  lemma DivMono(a: int, b: int, d: int)
    requires d > 0 && a <= b
    ensures a / d <= b / d
  {
    var x, y := a / d, b / d;
    assert x * d <= a && b < (y + 1) * d;
    assert x >= y + 1 ==> x * d >= (y + 1) * d;
  }

  lemma DivShift(a: int, k: int, d: int)
    requires d > 0
    ensures (a - k * d) / d == a / d - k
  {
    var q, m := a / d, a % d;
    assert a - k * d == (q - k) * d + m;
    DivUnique(a - k * d, d, q - k, m);
  }

  lemma TruncMono(a: int, b: int, d: int)
    requires d > 0 && a <= b
    ensures TruncDiv(a, d) <= TruncDiv(b, d)
  {
    if a >= 0 {
      DivMono(a, b, d);
    } else if b < 0 {
      DivMono(-b, -a, d);
    } else {
      DivMono(0, -a, d);
      DivMono(0, b, d);
    }
  }

  /** Stored priority plus one point per full aging interval waited; plain priority when aging is off. */
  function Effective(j: Job, now: int, aging: int): int {
    if aging <= 0 then j.priority else j.priority + TruncDiv(now - j.ReadyAt(), aging)
  }

  /** Aging counts the whole intervals since the run time, or since the creation of a job without one. */
  lemma AgingPoints(j: Job, now: int, aging: int)
    ensures aging <= 0 ==> Effective(j, now, aging) == j.priority
    ensures aging > 0 ==>
              var waited := now - if j.runAt.Some? then j.runAt.value else j.createdAt;
              var points := Effective(j, now, aging) - j.priority;
              if waited >= 0 then points * aging <= waited < (points + 1) * aging
              else (points - 1) * aging < waited <= points * aging
  {
    if aging > 0 {
      var waited, points := now - j.ReadyAt(), Effective(j, now, aging) - j.priority;
      var q, m := (if waited >= 0 then waited else -waited) / aging, (if waited >= 0 then waited else -waited) % aging;
      assert points == if waited >= 0 then q else -q;
      assert q * aging + m == if waited >= 0 then waited else -waited;
      assert (q + 1) * aging == q * aging + aging && (-q) * aging == -(q * aging) &&
             (-q - 1) * aging == -(q * aging) - aging;
    }
  }

  /** a is leased before b: the ORDER BY key, most significant part first. */
  predicate Before(a: Row, b: Row, now: int, aging: int) {
    var x, y := Effective(a.job, now, aging), Effective(b.job, now, aging);
    x > y || (x == y && (
    a.job.priority > b.job.priority || (a.job.priority == b.job.priority && (
    a.job.ReadyAt() < b.job.ReadyAt() || (a.job.ReadyAt() == b.job.ReadyAt() && (
    a.job.createdAt < b.job.createdAt || (a.job.createdAt == b.job.createdAt &&
    Text.Less(a.id, b.id))))))))
  }

  lemma BeforeTransitive(a: Row, b: Row, c: Row, now: int, aging: int)
    requires Before(a, b, now, aging) && Before(b, c, now, aging)
    ensures Before(a, c, now, aging)
  {
    if Text.Less(a.id, b.id) && Text.Less(b.id, c.id) { Text.Transitive(a.id, b.id, c.id); }
  }

  /** A strict total order on rows with distinct ids: exactly one of two comes first, and none precedes itself. */
  lemma BeforeTotal(a: Row, b: Row, now: int, aging: int)
    ensures a.id != b.id ==> Before(a, b, now, aging) != Before(b, a, now, aging)
    ensures !Before(a, a, now, aging)
  {
    Text.Trichotomy(a.id, b.id);
    Text.Irreflexive(a.id);
  }

  type Jobs = map<JobId, Job>

  ghost function ReadySet(jobs: Jobs, kind: string, now: int): set<JobId> {
    set id | id in jobs && jobs[id].ReadyFor(kind, now)
  }

  /** id is in the set and no other member comes first. */
  ghost predicate IsBest(jobs: Jobs, among: set<JobId>, id: JobId, now: int, aging: int)
    requires among <= jobs.Keys
  {
    id in among && forall other | other in among && other != id ::
      Before(Row(id, jobs[id]), Row(other, jobs[other]), now, aging)
  }

  lemma {:induction false} BestExists(jobs: Jobs, among: set<JobId>, now: int, aging: int)
    requires among != {} && among <= jobs.Keys
    ensures exists best :: IsBest(jobs, among, best, now, aging)
    decreases |among|
  {
    var one :| one in among;
    if among == {one} {
      assert IsBest(jobs, among, one, now, aging);
    } else {
      var rest := among - {one};
      assert among == {one} + rest;
      BestExists(jobs, rest, now, aging);
      var r :| IsBest(jobs, rest, r, now, aging);
      BeforeTotal(Row(one, jobs[one]), Row(r, jobs[r]), now, aging);
      if Before(Row(r, jobs[r]), Row(one, jobs[one]), now, aging) {
        assert IsBest(jobs, among, r, now, aging);
      } else {
        forall other | other in rest && other != r
          ensures Before(Row(one, jobs[one]), Row(other, jobs[other]), now, aging)
        {
          BeforeTransitive(Row(one, jobs[one]), Row(r, jobs[r]), Row(other, jobs[other]), now, aging);
        }
        assert IsBest(jobs, among, one, now, aging);
      }
    }
  }

  lemma BestUnique(jobs: Jobs, among: set<JobId>, a: JobId, b: JobId, now: int, aging: int)
    requires among <= jobs.Keys
    requires IsBest(jobs, among, a, now, aging) && IsBest(jobs, among, b, now, aging)
    ensures a == b
  {
    BeforeTotal(Row(a, jobs[a]), Row(b, jobs[b]), now, aging);
  }

  /** The row SELECT ... ORDER BY ... LIMIT 1 picks: none exactly when no job of the kind is ready. */
  ghost function Choose(jobs: Jobs, kind: string, now: int, aging: int): (best: Option<JobId>)
    ensures best == None <==> forall id | id in jobs :: !jobs[id].ReadyFor(kind, now)
    ensures best.Some? ==> IsBest(jobs, ReadySet(jobs, kind, now), best.value, now, aging)
  {
    var ready := ReadySet(jobs, kind, now);
    if ready == {} then
      assert forall id | id in jobs && jobs[id].ReadyFor(kind, now) :: id in ready;
      None
    else
      BestExists(jobs, ready, now, aging);
      var id :| IsBest(jobs, ready, id, now, aging);
      Some(id)
  }

  lemma NoneBeforeChosen(jobs: Jobs, kind: string, now: int, aging: int, id: JobId, other: JobId)
    requires Choose(jobs, kind, now, aging) == Some(id) && other in jobs && jobs[other].ReadyFor(kind, now)
    ensures id in jobs && jobs[id].ReadyFor(kind, now)
    ensures !Before(Row(other, jobs[other]), Row(id, jobs[id]), now, aging)
  {
    assert other in ReadySet(jobs, kind, now) && id in ReadySet(jobs, kind, now);
    BeforeTotal(Row(other, jobs[other]), Row(id, jobs[id]), now, aging);
  }

  // ---- What the order means for the job that is leased ----

  /**
    The most effective priority comes first; among equals the highest stored
    priority, then the longest wait, then the oldest job, then the smallest id.
   */
  predicate GoesFirst(a: Row, b: Row, now: int, aging: int) {
    var x, y := Effective(a.job, now, aging), Effective(b.job, now, aging);
    && y <= x
    && (x == y ==>
          && b.job.priority <= a.job.priority
          && (a.job.priority == b.job.priority ==>
                && a.job.ReadyAt() <= b.job.ReadyAt()
                && (a.job.ReadyAt() == b.job.ReadyAt() ==>
                      && a.job.createdAt <= b.job.createdAt
                      && (a.job.createdAt == b.job.createdAt ==> Text.Less(a.id, b.id)))))
  }

  /** Of the kind, pending, and its run time, if it has one, has come. */
  predicate MayRun(j: Job, kind: string, now: int) {
    j.kind == kind && j.state == Pending && (j.runAt == None || j.runAt.value <= now)
  }

  ghost predicate Foremost(jobs: Jobs, kind: string, now: int, aging: int, id: JobId) {
    && id in jobs && MayRun(jobs[id], kind, now)
    && forall other | other in jobs && other != id && MayRun(jobs[other], kind, now) ::
      GoesFirst(Row(id, jobs[id]), Row(other, jobs[other]), now, aging)
  }

  lemma FirstOfTwo(a: Row, b: Row, now: int, aging: int)
    requires a.id != b.id
    ensures Before(a, b, now, aging) <==> GoesFirst(a, b, now, aging)
  {
    BeforeTotal(a, b, now, aging);
    Text.Trichotomy(a.id, b.id);
  }

  /** The chosen job is the foremost one, and the foremost one is chosen. */
  lemma ChosenExact(jobs: Jobs, kind: string, now: int, aging: int, id: JobId)
    ensures Choose(jobs, kind, now, aging) == Some(id) <==> Foremost(jobs, kind, now, aging, id)
  {
    var best, ready := Choose(jobs, kind, now, aging), ReadySet(jobs, kind, now);
    if id in jobs {
      forall other | other in jobs && other != id
        ensures Before(Row(id, jobs[id]), Row(other, jobs[other]), now, aging) <==>
                GoesFirst(Row(id, jobs[id]), Row(other, jobs[other]), now, aging)
      {
        FirstOfTwo(Row(id, jobs[id]), Row(other, jobs[other]), now, aging);
      }
    }
    if Foremost(jobs, kind, now, aging, id) {
      assert id in ready;
      assert IsBest(jobs, ready, id, now, aging);
      BestUnique(jobs, ready, id, best.value, now, aging);
    }
  }

  /** At equal priority the job that could run earlier is leased first, with any aging and with none. */
  lemma EarlierFirst(jobs: Jobs, kind: string, now: int, aging: int, id: JobId, other: JobId)
    requires Choose(jobs, kind, now, aging) == Some(id)
    requires other in jobs && MayRun(jobs[other], kind, now) && jobs[other].priority == jobs[id].priority
    ensures jobs[id].ReadyAt() <= jobs[other].ReadyAt()
  {
    ChosenExact(jobs, kind, now, aging, id);
    if aging > 0 && jobs[other].ReadyAt() < jobs[id].ReadyAt() {
      TruncMono(now - jobs[id].ReadyAt(), now - jobs[other].ReadyAt(), aging);
    }
  }
}
