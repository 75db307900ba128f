/** One job's event log, and the automaton that a log must follow. */
module EventLog {
  import opened Records

  /** The events of one job, in append order. */
  function Log(events: seq<Event>, id: JobId): seq<Event> {
    if events == [] then []
    else if events[0].jobId == id then [events[0]] + Log(events[1..], id)
    else Log(events[1..], id)
  }

  lemma {:induction false} LogConcat(a: seq<Event>, b: seq<Event>, id: JobId)
    ensures Log(a + b, id) == Log(a, id) + Log(b, id)
  {
    if a == [] {
      assert a + b == b;
    } else {
      assert (a + b)[1..] == a[1..] + b;
      LogConcat(a[1..], b, id);
      assert [a[0]] + (Log(a[1..], id) + Log(b, id)) == ([a[0]] + Log(a[1..], id)) + Log(b, id);
    }
  }

  lemma LogAppend(events: seq<Event>, e: Event, id: JobId)
    ensures Log(events + [e], id) == Log(events, id) + if e.jobId == id then [e] else []
  {
    LogConcat(events, [e], id);
    assert [e][1..] == [];
  }

  lemma {:induction false} LogMembers(events: seq<Event>, id: JobId)
    ensures forall e :: e in Log(events, id) <==> e in events && e.jobId == id
  {
    if events != [] {
      LogMembers(events[1..], id);
      assert events == [events[0]] + events[1..];
    }
  }

  lemma {:induction false} LogEmpty(events: seq<Event>, id: JobId)
    requires forall e | e in events :: e.jobId != id
    ensures Log(events, id) == []
  {
    if events != [] {
      assert events[0] in events;
      LogEmpty(events[1..], id);
    }
  }

  /** Event ids rise strictly and times never fall. */
  predicate Rising(events: seq<Event>) {
    forall i, k | 0 <= i < k < |events| :: events[i].id < events[k].id && events[i].at <= events[k].at
  }

  /** a keeps some of b's elements, in b's order. */
  predicate Subsequence(a: seq<Event>, b: seq<Event>) {
    if a == [] then true
    else if b == [] then false
    else (a[0] == b[0] && Subsequence(a[1..], b[1..])) || Subsequence(a, b[1..])
  }

  lemma {:induction false} SubsequenceMembers(a: seq<Event>, b: seq<Event>)
    requires Subsequence(a, b)
    ensures forall e | e in a :: e in b
  {
    if a != [] {
      if a[0] == b[0] && Subsequence(a[1..], b[1..]) {
        SubsequenceMembers(a[1..], b[1..]);
        assert a == [a[0]] + a[1..];
      } else {
        SubsequenceMembers(a, b[1..]);
      }
    }
  }

  lemma {:induction false} SubsequenceRising(a: seq<Event>, b: seq<Event>)
    requires Subsequence(a, b) && Rising(b)
    ensures Rising(a)
  {
    if a != [] {
      if a[0] == b[0] && Subsequence(a[1..], b[1..]) {
        SubsequenceRising(a[1..], b[1..]);
        SubsequenceMembers(a[1..], b[1..]);
        forall k | 0 < k < |a| ensures a[0].id < a[k].id && a[0].at <= a[k].at {
          assert a[k] == a[1..][k - 1] && a[k] in b[1..];
        }
        assert forall i, k | 0 < i < k < |a| :: a[i] == a[1..][i - 1] && a[k] == a[1..][k - 1];
      } else {
        SubsequenceRising(a, b[1..]);
      }
    }
  }

  lemma {:induction false} LogSubsequence(events: seq<Event>, id: JobId)
    ensures Subsequence(Log(events, id), events)
  {
    if events != [] {
      LogSubsequence(events[1..], id);
      if events[0].jobId == id { assert Log(events, id)[1..] == Log(events[1..], id); }
    }
  }

  // ---- The automaton ----

  /** State a history is in after its first retained event, for the events that may come first. */
  ghost predicate Start(kind: EventType, to: JobState) {
    || (kind.Enqueued? && to == Pending)
    || (kind.Scheduled? && to == Pending)
    || (exists from :: Edge(from, kind, to))
  }

  /** The state changes that events record. */
  predicate Edge(from: JobState, kind: EventType, to: JobState) {
    || (from == Pending && kind.LeaseTaken? && to == Leased)
    || (from == Leased && kind.LeaseRenewed? && to == Leased)
    || (from == Leased && kind.Acknowledged? && to == Completed)
    || (from == Leased && kind.FailedEvent? && to == Failed)
    || (from == Leased && kind.Retried? && to == Pending)
    || (from == Leased && kind.Recovered? && to == Pending)
    || (from == Leased && kind.DeadLettered? && to == DeadLetter)
    || (from == DeadLetter && kind.Requeued? && to == Pending)
  }

  ghost predicate IsPath(log: seq<Event>, states: seq<JobState>) {
    && |states| == |log| > 0
    && Start(log[0].kind, states[0])
    && forall i | 1 <= i < |log| :: Edge(states[i - 1], log[i].kind, states[i])
  }

  /** The log is a path of the automaton that ends in the given state. */
  ghost predicate Replays(log: seq<Event>, final: JobState) {
    exists states :: IsPath(log, states) && states[|states| - 1] == final
  }

  lemma ReplayOne(e: Event, to: JobState)
    requires Start(e.kind, to)
    ensures Replays([e], to)
  {
    assert IsPath([e], [to]);
  }

  lemma ReplayExtend(log: seq<Event>, from: JobState, e: Event, to: JobState)
    requires Replays(log, from) && Edge(from, e.kind, to)
    ensures Replays(log + [e], to)
  {
    var states :| IsPath(log, states) && states[|states| - 1] == from;
    assert IsPath(log + [e], states + [to]);
  }

  /** A path without its last event is a path. */
  lemma PathFront(log: seq<Event>, e: Event, states: seq<JobState>)
    requires log != [] && IsPath(log + [e], states)
    ensures IsPath(log, states[..|log|]) && Edge(states[|log| - 1], e.kind, states[|log|])
  {
    var all, n := log + [e], |log|;
    assert Edge(states[n - 1], all[n].kind, states[n]);
    forall i | 1 <= i < n ensures Edge(states[..n][i - 1], log[i].kind, states[..n][i]) {
      assert Edge(states[i - 1], all[i].kind, states[i]);
    }
  }

  /** The target of an event does not depend on the state before it: the whole log determines one final state. */
  lemma ReplayUnique(log: seq<Event>, a: JobState, b: JobState)
    requires Replays(log, a) && Replays(log, b)
    ensures a == b
  {
    var xs :| IsPath(log, xs) && xs[|xs| - 1] == a;
    var ys :| IsPath(log, ys) && ys[|ys| - 1] == b;
    var last := |log| - 1;
    if last > 0 { assert Edge(xs[last - 1], log[last].kind, xs[last]) && Edge(ys[last - 1], log[last].kind, ys[last]); }
  }

  /** Every non-empty suffix of an accepted log is accepted and ends in the same state. */
  lemma ReplaySuffix(log: seq<Event>, k: nat, final: JobState)
    requires Replays(log, final) && k < |log|
    ensures Replays(log[k..], final)
  {
    var states :| IsPath(log, states) && states[|states| - 1] == final;
    if k > 0 {
      assert Edge(states[k - 1], log[k].kind, states[k]);
      var rest, after := log[k..], states[k..];
      forall i | 1 <= i < |rest| ensures Edge(after[i - 1], rest[i].kind, after[i]) {
        assert Edge(states[k + i - 1], log[k + i].kind, states[k + i]);
      }
      assert IsPath(rest, after);
    } else {
      assert log[k..] == log;
    }
  }
}
