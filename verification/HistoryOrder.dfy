/** Which job histories an export lists, and in which order. */
module HistoryOrder {
  import opened Records
  import opened Dispatch
  import opened EventLog
  import Text

  /** An absent state and an empty kind match every job. */
  datatype HistoryFilter = HistoryFilter(state: Option<JobState>, kind: string)

  predicate Matches(j: Job, f: HistoryFilter) {
    (f.state.Some? ==> j.state == f.state.value) && (f.kind != "" ==> j.kind == f.kind)
  }

  /** MIN(e.id) over the job's events; NULL when it has none. */
  function MinId(log: seq<Event>): (least: Option<int>)
    ensures least == None <==> log == []
    ensures least.Some? ==> (exists e :: e in log && e.id == least.value) && forall e | e in log :: least.value <= e.id
  {
    if log == [] then None
    else
      var rest := MinId(log[1..]);
      assert log == [log[0]] + log[1..];
      if rest.Some? && rest.value < log[0].id then rest else Some(log[0].id)
  }

  /** NULL sorts first. */
  predicate IdBefore(a: Option<int>, b: Option<int>) {
    if a == None then b.Some? else b.Some? && a.value < b.value
  }

  /** The ORDER BY key: creation time, first event, job id. */
  predicate ListedBefore(jobs: Jobs, events: seq<Event>, a: JobId, b: JobId)
    requires a in jobs && b in jobs
  {
    var x, y := MinId(Log(events, a)), MinId(Log(events, b));
    || jobs[a].createdAt < jobs[b].createdAt
    || (jobs[a].createdAt == jobs[b].createdAt && (IdBefore(x, y) || (x == y && Text.Less(a, b))))
  }

  lemma ListedTransitive(jobs: Jobs, events: seq<Event>, a: JobId, b: JobId, c: JobId)
    requires a in jobs && b in jobs && c in jobs
    requires ListedBefore(jobs, events, a, b) && ListedBefore(jobs, events, b, c)
    ensures ListedBefore(jobs, events, a, c)
  {
    if Text.Less(a, b) && Text.Less(b, c) { Text.Transitive(a, b, c); }
  }

  lemma ListedTotal(jobs: Jobs, events: seq<Event>, a: JobId, b: JobId)
    requires a in jobs && b in jobs
    ensures a != b ==> ListedBefore(jobs, events, a, b) != ListedBefore(jobs, events, b, a)
    ensures !ListedBefore(jobs, events, a, a)
  {
    Text.Trichotomy(a, b);
    Text.Irreflexive(a);
  }

  /** Older jobs first; of two created at once the one with the earlier first event, or with none; then by id. */
  predicate GoesBefore(a: JobId, j: Job, log: seq<Event>, b: JobId, other: Job, otherLog: seq<Event>) {
    && j.createdAt <= other.createdAt
    && (j.createdAt == other.createdAt ==>
          var x, y := MinId(log), MinId(otherLog);
          && (otherLog == [] ==> log == [])
          && (log != [] && otherLog != [] ==> x.value <= y.value)
          && (x == y ==> Text.Less(a, b)))
  }

  lemma ListedExact(jobs: Jobs, events: seq<Event>, a: JobId, b: JobId)
    requires a in jobs && b in jobs && a != b
    ensures ListedBefore(jobs, events, a, b) <==> GoesBefore(a, jobs[a], Log(events, a), b, jobs[b], Log(events, b))
  {
    Text.Trichotomy(a, b);
  }

  predicate IsFirst(jobs: Jobs, events: seq<Event>, among: set<JobId>, id: JobId)
    requires among <= jobs.Keys
  {
    id in among && forall other | other in among && other != id :: ListedBefore(jobs, events, id, other)
  }

  lemma {:induction false} FirstExists(jobs: Jobs, events: seq<Event>, among: set<JobId>) returns (first: JobId)
    requires among != {} && among <= jobs.Keys
    ensures IsFirst(jobs, events, among, first)
    decreases |among|
  {
    var one :| one in among;
    first := one;
    if among != {one} {
      var rest := among - {one};
      assert among == {one} + rest;
      var r := FirstExists(jobs, events, rest);
      ListedTotal(jobs, events, one, r);
      if ListedBefore(jobs, events, r, one) {
        first := r;
      } else {
        forall other | other in rest && other != r ensures ListedBefore(jobs, events, one, other) {
          ListedTransitive(jobs, events, one, r, other);
        }
      }
    }
  }

  ghost predicate Sorted(jobs: Jobs, events: seq<Event>, order: seq<JobId>) {
    && (forall id | id in order :: id in jobs)
    && forall i, k | 0 <= i < k < |order| :: ListedBefore(jobs, events, order[i], order[k])
  }

  /** Exactly the matching jobs, in order. */
  ghost predicate IsListing(jobs: Jobs, events: seq<Event>, f: HistoryFilter, order: seq<JobId>) {
    Sorted(jobs, events, order) && forall id :: id in order <==> id in jobs && Matches(jobs[id], f)
  }

  lemma ListingDistinct(jobs: Jobs, events: seq<Event>, order: seq<JobId>)
    requires Sorted(jobs, events, order)
    ensures forall i, k | 0 <= i < k < |order| :: order[i] != order[k]
  {
    forall i, k | 0 <= i < k < |order| ensures order[i] != order[k] {
      assert order[i] in order;
      ListedTotal(jobs, events, order[i], order[i]);
    }
  }

  /** Two sorted lists of the same jobs start alike. */
  lemma SameHead(jobs: Jobs, events: seq<Event>, a: seq<JobId>, b: seq<JobId>)
    requires Sorted(jobs, events, a) && Sorted(jobs, events, b) && a != [] && b != []
    requires forall id :: id in a <==> id in b
    ensures a[0] == b[0]
  {
    assert a[0] in a && b[0] in b;
    if a[0] != b[0] {
      var i :| 0 <= i < |b| && b[i] == a[0];
      var k :| 0 <= k < |a| && a[k] == b[0];
      ListedTotal(jobs, events, a[0], b[0]);
    }
  }

  lemma TailOf(jobs: Jobs, events: seq<Event>, a: seq<JobId>)
    requires Sorted(jobs, events, a) && a != []
    ensures Sorted(jobs, events, a[1..]) && forall id :: id in a[1..] <==> id in a && id != a[0]
  {
    ListingDistinct(jobs, events, a);
    assert a == [a[0]] + a[1..];
    assert forall id | id in a[1..] :: id in a;
    forall id | id in a[1..] ensures id != a[0] {
      var i :| 0 <= i < |a[1..]| && a[1..][i] == id;
      assert a[i + 1] == id;
    }
  }

  lemma SomeMember(b: seq<JobId>)
    ensures b != [] ==> exists id :: id in b
  {
    if b != [] { assert b[0] in b; }
  }

  /** The listing is unique: ties in time are broken for good, so exports are stable. */
  lemma {:induction false} SortedUnique(jobs: Jobs, events: seq<Event>, a: seq<JobId>, b: seq<JobId>)
    requires Sorted(jobs, events, a) && Sorted(jobs, events, b) && forall id :: id in a <==> id in b
    ensures a == b
  {
    if a == [] {
      SomeMember(b);
    } else {
      assert a[0] in a;
      SameHead(jobs, events, a, b);
      TailOf(jobs, events, a);
      TailOf(jobs, events, b);
      SortedUnique(jobs, events, a[1..], b[1..]);
      assert a == [a[0]] + a[1..] && b == [b[0]] + b[1..];
    }
  }

  /** What is listed comes before what is left. */
  ghost predicate AllBefore(jobs: Jobs, events: seq<Event>, order: seq<JobId>, left: set<JobId>)
    requires left <= jobs.Keys && forall id | id in order :: id in jobs
  {
    forall i, other | 0 <= i < |order| && other in left :: ListedBefore(jobs, events, order[i], other)
  }

  lemma ListingGrows(jobs: Jobs, events: seq<Event>, order: seq<JobId>, left: set<JobId>, id: JobId)
    requires left <= jobs.Keys && Sorted(jobs, events, order) && AllBefore(jobs, events, order, left)
    requires IsFirst(jobs, events, left, id)
    ensures Sorted(jobs, events, order + [id]) && AllBefore(jobs, events, order + [id], left - {id})
    ensures forall x :: x in order + [id] <==> x in order || x == id
  {
    var grown := order + [id];
    forall i, other | 0 <= i < |grown| && other in left - {id} ensures ListedBefore(jobs, events, grown[i], other) {
      if i < |order| { assert grown[i] == order[i]; }
    }
    forall i, k | 0 <= i < k < |grown| ensures ListedBefore(jobs, events, grown[i], grown[k]) {
      assert grown[i] == order[i] && (k < |order| ==> grown[k] == order[k]);
    }
  }
}
