/** The archive verifier: reads exported histories line by line and replays each event log. */
module Archive {
  import opened Records
  import opened EventLog

  const SCHEMA_VERSION := 1

  /** jobId is the job's own id column. */
  datatype Record = Record(schemaVersion: int, jobId: JobId, job: Job, events: seq<Event>)

  /** One line of input after trimming and JSON decoding. */
  datatype Line = Blank | Corrupt | Decoded(record: Record)

  datatype Code =
    | InvalidJson | UnsupportedSchema | MissingJobId | DuplicateJob | InvalidAttemptBudget | InvalidRetryCount
    | InvalidJobState | InvalidJobTime | MissingHistory | InvalidEventId | DuplicateEvent | BrokenReference
    | InvalidEventTime | InvalidEventOrder | InvalidTransition | StateMismatch | HistoryTruncated

  datatype Issue = Issue(line: int, jobId: JobId, code: Code)

  datatype Report = Report(records: int, validRecords: int, issues: seq<Issue>, warnings: seq<Issue>) {
    predicate Valid() { issues == [] }
  }

  function FirstEventState(kind: EventType): Option<JobState> {
    match kind
    case Enqueued | Scheduled => Some(Pending)
    case LeaseTaken | LeaseRenewed => Some(Leased)
    case Acknowledged => Some(Completed)
    case FailedEvent => Some(Failed)
    case Retried | Recovered | Requeued => Some(Pending)
    case DeadLettered => Some(DeadLetter)
    case OtherEvent(_) => None
  }

  /** None is the refusal; a None state is the unknown replay state. */
  function Transition(state: Option<JobState>, kind: EventType): Option<JobState> {
    match kind
    case LeaseTaken => if state == Some(Pending) then Some(Leased) else None
    case LeaseRenewed => if state == Some(Leased) then Some(Leased) else None
    case Acknowledged => if state == Some(Leased) then Some(Completed) else None
    case FailedEvent => if state == Some(Leased) then Some(Failed) else None
    case Retried | Recovered => if state == Some(Leased) then Some(Pending) else None
    case DeadLettered => if state == Some(Leased) then Some(DeadLetter) else None
    case Requeued => if state == Some(DeadLetter) then Some(Pending) else None
    case _ => None
  }

  predicate ValidJobState(state: JobState) {
    !state.OtherState?
  }

  // ---- What one record yields, as functions of the record and of what was seen before ----

  datatype Check = Check(bad: bool, code: Code)

  /** Adds one issue for each of the first n checks that is bad, in order. */
  function Collect(found: seq<Issue>, checks: seq<Check>, n: nat, line: int, jobId: JobId): seq<Issue>
    requires n <= |checks|
  {
    if n == 0 then found
    else
      var front := Collect(found, checks, n - 1, line, jobId);
      if checks[n - 1].bad then front + [Issue(line, jobId, checks[n - 1].code)] else front
  }

  /** The loop state between two events. */
  datatype Cursor = Cursor(state: Option<JobState>, previousId: int, previousAt: int, seen: map<int, int>)

  function IdentityChecks(r: Record, seenJobs: map<JobId, int>): seq<Check> {
    [ Check(r.schemaVersion != SCHEMA_VERSION, UnsupportedSchema),
      Check(r.jobId == "", MissingJobId),
      Check(r.jobId != "" && r.jobId in seenJobs, DuplicateJob) ]
  }

  function FieldChecks(r: Record): seq<Check> {
    var j := r.job;
    [ Check(j.maxAttempts < 1, InvalidAttemptBudget),
      Check(j.retryCount < 0 || j.retryCount > j.maxAttempts, InvalidRetryCount),
      Check(!ValidJobState(j.state), InvalidJobState),
      Check(j.createdAt != ZERO_TIME && j.updatedAt != ZERO_TIME && j.updatedAt < j.createdAt, InvalidJobTime),
      Check(r.events == [], MissingHistory) ]
  }

  function HeaderChecks(r: Record, seenJobs: map<JobId, int>): seq<Check> {
    IdentityChecks(r, seenJobs) + FieldChecks(r)
  }

  /** The state an event leads to, from the start of a history or from the state reached so far. */
  function Next(e: Event, index: nat, state: Option<JobState>): Option<JobState> {
    if index == 0 then FirstEventState(e.kind) else Transition(state, e.kind)
  }

  function EventIdChecks(e: Event, c: Cursor): seq<Check> {
    [ Check(e.id <= 0, InvalidEventId),
      Check(e.id > 0 && e.id in c.seen, DuplicateEvent) ]
  }

  function EventFieldChecks(e: Event, index: nat, jobId: JobId, c: Cursor): seq<Check> {
    [ Check(e.jobId != jobId, BrokenReference),
      Check(e.at == ZERO_TIME, InvalidEventTime),
      Check(c.previousId > 0 && e.id <= c.previousId, InvalidEventOrder),
      Check(c.previousAt != ZERO_TIME && e.at != ZERO_TIME && e.at < c.previousAt, InvalidEventOrder),
      Check(Next(e, index, c.state) == None, InvalidTransition) ]
  }

  function EventChecks(e: Event, index: nat, jobId: JobId, c: Cursor): seq<Check> {
    EventIdChecks(e, c) + EventFieldChecks(e, index, jobId, c)
  }

  function Advance(e: Event, index: nat, line: int, c: Cursor): Cursor {
    Cursor(
      if index == 0 || Next(e, index, c.state).Some? then Next(e, index, c.state) else c.state,
      e.id,
      if e.at != ZERO_TIME then e.at else c.previousAt,
      if e.id > 0 && e.id !in c.seen then c.seen[e.id := line] else c.seen)
  }

  function CursorAfter(events: seq<Event>, n: nat, line: int, seen: map<int, int>): Cursor
    requires n <= |events|
  {
    if n == 0 then Cursor(None, 0, ZERO_TIME, seen)
    else Advance(events[n - 1], n - 1, line, CursorAfter(events, n - 1, line, seen))
  }

  /** Header issues, then those of the first n events. */
  function IssuesThrough(r: Record, n: nat, line: int, seenJobs: map<JobId, int>, seen: map<int, int>): seq<Issue>
    requires n <= |r.events|
  {
    if n == 0 then Collect([], HeaderChecks(r, seenJobs), 8, line, r.jobId)
    else
      var c := CursorAfter(r.events, n - 1, line, seen);
      Collect(IssuesThrough(r, n - 1, line, seenJobs, seen), EventChecks(r.events[n - 1], n - 1, r.jobId, c), 7,
              line, r.jobId)
  }

  function RecordIssues(r: Record, line: int, seenJobs: map<JobId, int>, seen: map<int, int>): seq<Issue> {
    var final := CursorAfter(r.events, |r.events|, line, seen).state;
    var found := IssuesThrough(r, |r.events|, line, seenJobs, seen);
    if final.Some? && final.value != r.job.state then found + [Issue(line, r.jobId, StateMismatch)] else found
  }

  /** The first retained event may start a history, but it is not a creation event. */
  predicate Truncated(events: seq<Event>) {
    events != [] && FirstEventState(events[0].kind).Some? && !events[0].kind.Enqueued? && !events[0].kind.Scheduled?
  }

  function RecordWarnings(r: Record, line: int): seq<Issue> {
    if Truncated(r.events) then [Issue(line, r.jobId, HistoryTruncated)] else []
  }

  function SeenJobsAfter(r: Record, line: int, seenJobs: map<JobId, int>): map<JobId, int> {
    if r.jobId != "" && r.jobId !in seenJobs then seenJobs[r.jobId := line] else seenJobs
  }

  /** The two maps the verifier shares across records. */
  class SeenIds {
    var jobs: map<JobId, int>
    var events: map<int, int>

    constructor ()
      ensures jobs == map[] && events == map[]
    {
      jobs, events := map[], map[];
    }
  }

  method ValidateRecord(r: Record, line: int, seen: SeenIds) returns (issues: seq<Issue>, warnings: seq<Issue>)
    modifies seen
    ensures issues == RecordIssues(r, line, old(seen.jobs), old(seen.events))
    ensures warnings == RecordWarnings(r, line)
    ensures seen.jobs == SeenJobsAfter(r, line, old(seen.jobs))
    ensures seen.events == CursorAfter(r.events, |r.events|, line, old(seen.events)).seen
  {
    ghost var seenJobs, seenEvents := seen.jobs, seen.events;
    issues := ValidateHeader(r, line, seen);
    warnings := [];
    if r.events == [] {
      return;
    }
    var state: Option<JobState> := None;
    var previousId, previousAt := 0, ZERO_TIME;
    var index := 0;
    ghost var cursor := Cursor(state, previousId, previousAt, seenEvents);
    while index < |r.events|
      invariant 0 <= index <= |r.events|
      invariant seen.jobs == SeenJobsAfter(r, line, seenJobs)
      invariant cursor == CursorAfter(r.events, index, line, seenEvents)
      invariant state == cursor.state && previousId == cursor.previousId && previousAt == cursor.previousAt
      invariant seen.events == cursor.seen
      invariant issues == IssuesThrough(r, index, line, seenJobs, seenEvents)
      invariant warnings == if index == 0 then [] else RecordWarnings(r, line)
    {
      var event := r.events[index];
      assert cursor == Cursor(state, previousId, previousAt, seen.events);
      issues, state := ValidateEvent(issues, event, index, r.jobId, line, state, previousId, previousAt, seen);
      previousId := event.id;
      if event.at != ZERO_TIME {
        previousAt := event.at;
      }
      if index == 0 && state != None && event.kind != Enqueued && event.kind != Scheduled {
        warnings := warnings + [Issue(line, r.jobId, HistoryTruncated)];
      }
      cursor := Advance(event, index, line, cursor);
      index := index + 1;
    }

    if state != None && state.value != r.job.state {
      issues := issues + [Issue(line, r.jobId, StateMismatch)];
    }
  }

  lemma {:induction false} CollectConcat(found: seq<Issue>, a: seq<Check>, b: seq<Check>, n: nat, line: int,
      jobId: JobId)
    requires n <= |a| + |b|
    ensures Collect(found, a + b, n, line, jobId) ==
            if n <= |a| then Collect(found, a, n, line, jobId)
            else Collect(Collect(found, a, |a|, line, jobId), b, n - |a|, line, jobId)
  {
    if n > 0 { CollectConcat(found, a, b, n - 1, line, jobId); }
  }

  /** One check after those before it. */
  lemma CollectNext(found: seq<Issue>, checks: seq<Check>, n: nat, line: int, jobId: JobId, sofar: seq<Issue>,
      issues: seq<Issue>)
    requires n < |checks| && sofar == Collect(found, checks, n, line, jobId)
    requires issues == if checks[n].bad then sofar + [Issue(line, jobId, checks[n].code)] else sofar
    ensures issues == Collect(found, checks, n + 1, line, jobId)
  {
  }

  /** One turn of the event loop: the id, then the other fields and the automaton. */
  method ValidateEvent(before: seq<Issue>, e: Event, index: nat, jobId: JobId, line: int,
                       state: Option<JobState>, previousId: int, previousAt: int, seen: SeenIds)
    returns (issues: seq<Issue>, next: Option<JobState>)
    modifies seen`events
    ensures var c := Cursor(state, previousId, previousAt, old(seen.events));
            && issues == Collect(before, EventChecks(e, index, jobId, c), 7, line, jobId)
            && next == Advance(e, index, line, c).state && seen.events == Advance(e, index, line, c).seen
  {
    ghost var c := Cursor(state, previousId, previousAt, seen.events);
    issues := ValidateEventId(before, e, jobId, line, c, seen);
    issues, next := ValidateEventFields(issues, e, index, jobId, line, c, state, previousId, previousAt);
    CollectConcat(before, EventIdChecks(e, c), EventFieldChecks(e, index, jobId, c), 7, line, jobId);
  }

  method ValidateEventId(before: seq<Issue>, e: Event, jobId: JobId, line: int, ghost c: Cursor, seen: SeenIds)
    returns (issues: seq<Issue>)
    requires c.seen == seen.events
    modifies seen`events
    ensures issues == Collect(before, EventIdChecks(e, c), 2, line, jobId)
    ensures seen.events == if e.id > 0 && e.id !in c.seen then c.seen[e.id := line] else c.seen
  {
    issues := before;
    if e.id <= 0 {
      issues := issues + [Issue(line, jobId, InvalidEventId)];
    } else if e.id in seen.events {
      issues := issues + [Issue(line, jobId, DuplicateEvent)];
    } else {
      seen.events := seen.events[e.id := line];
    }
    ghost var first := if e.id <= 0 then issues else before;
    CollectNext(before, EventIdChecks(e, c), 0, line, jobId, before, first);
    CollectNext(before, EventIdChecks(e, c), 1, line, jobId, first, issues);
  }

  method ValidateEventFields(before: seq<Issue>, e: Event, index: nat, jobId: JobId, line: int, ghost c: Cursor,
                             state: Option<JobState>, previousId: int, previousAt: int)
    returns (issues: seq<Issue>, next: Option<JobState>)
    requires c.state == state && c.previousId == previousId && c.previousAt == previousAt
    ensures issues == Collect(before, EventFieldChecks(e, index, jobId, c), 5, line, jobId)
    ensures next == Advance(e, index, line, c).state
  {
    ghost var checks := EventFieldChecks(e, index, jobId, c);
    ghost var sofar := before;
    issues := before;
    if e.jobId != jobId {
      issues := issues + [Issue(line, jobId, BrokenReference)];
    }
    CollectNext(before, checks, 0, line, jobId, sofar, issues);
    sofar := issues;
    if e.at == ZERO_TIME {
      issues := issues + [Issue(line, jobId, InvalidEventTime)];
    }
    CollectNext(before, checks, 1, line, jobId, sofar, issues);
    sofar := issues;
    if previousId > 0 && e.id <= previousId {
      issues := issues + [Issue(line, jobId, InvalidEventOrder)];
    }
    CollectNext(before, checks, 2, line, jobId, sofar, issues);
    sofar := issues;
    if previousAt != ZERO_TIME && e.at != ZERO_TIME && e.at < previousAt {
      issues := issues + [Issue(line, jobId, InvalidEventOrder)];
    }
    CollectNext(before, checks, 3, line, jobId, sofar, issues);
    sofar := issues;
    if index == 0 {
      next := FirstEventState(e.kind);
    } else {
      next := Transition(state, e.kind);
    }
    if next == None {
      issues := issues + [Issue(line, jobId, InvalidTransition)];
      if index != 0 {
        next := state;
      }
    }
    CollectNext(before, checks, 4, line, jobId, sofar, issues);
  }

  method ValidateHeader(r: Record, line: int, seen: SeenIds) returns (issues: seq<Issue>)
    modifies seen`jobs
    ensures issues == Collect([], HeaderChecks(r, old(seen.jobs)), 8, line, r.jobId)
    ensures seen.jobs == SeenJobsAfter(r, line, old(seen.jobs))
  {
    ghost var identity := IdentityChecks(r, seen.jobs);
    issues := ValidateIdentity(r, line, seen);
    issues := ValidateFields(issues, r, line);
    CollectConcat([], identity, FieldChecks(r), 8, line, r.jobId);
  }

  method ValidateIdentity(r: Record, line: int, seen: SeenIds) returns (issues: seq<Issue>)
    modifies seen`jobs
    ensures issues == Collect([], IdentityChecks(r, old(seen.jobs)), 3, line, r.jobId)
    ensures seen.jobs == SeenJobsAfter(r, line, old(seen.jobs))
  {
    ghost var checks := IdentityChecks(r, seen.jobs);
    issues := [];
    if r.schemaVersion != SCHEMA_VERSION {
      issues := issues + [Issue(line, r.jobId, UnsupportedSchema)];
    }
    CollectNext([], checks, 0, line, r.jobId, [], issues);
    ghost var first := issues;
    if r.jobId == "" {
      issues := issues + [Issue(line, r.jobId, MissingJobId)];
    } else if r.jobId in seen.jobs {
      issues := issues + [Issue(line, r.jobId, DuplicateJob)];
    } else {
      seen.jobs := seen.jobs[r.jobId := line];
    }
    ghost var second := if r.jobId == "" then issues else first;
    CollectNext([], checks, 1, line, r.jobId, first, second);
    CollectNext([], checks, 2, line, r.jobId, second, issues);
  }

  method ValidateFields(before: seq<Issue>, r: Record, line: int) returns (issues: seq<Issue>)
    ensures issues == Collect(before, FieldChecks(r), 5, line, r.jobId)
  {
    ghost var checks := FieldChecks(r);
    ghost var sofar := before;
    issues := before;
    if r.job.maxAttempts < 1 {
      issues := issues + [Issue(line, r.jobId, InvalidAttemptBudget)];
    }
    CollectNext(before, checks, 0, line, r.jobId, sofar, issues);
    sofar := issues;
    if r.job.retryCount < 0 || r.job.retryCount > r.job.maxAttempts {
      issues := issues + [Issue(line, r.jobId, InvalidRetryCount)];
    }
    CollectNext(before, checks, 1, line, r.jobId, sofar, issues);
    sofar := issues;
    if !ValidJobState(r.job.state) {
      issues := issues + [Issue(line, r.jobId, InvalidJobState)];
    }
    CollectNext(before, checks, 2, line, r.jobId, sofar, issues);
    sofar := issues;
    if r.job.createdAt != ZERO_TIME && r.job.updatedAt != ZERO_TIME && r.job.updatedAt < r.job.createdAt {
      issues := issues + [Issue(line, r.jobId, InvalidJobTime)];
    }
    CollectNext(before, checks, 3, line, r.jobId, sofar, issues);
    sofar := issues;
    if r.events == [] {
      issues := issues + [Issue(line, r.jobId, MissingHistory)];
    }
    CollectNext(before, checks, 4, line, r.jobId, sofar, issues);
  }

  // ---- The whole archive ----

  function SeenJobs(lines: seq<Line>, n: nat): map<JobId, int>
    requires n <= |lines|
  {
    if n == 0 then map[]
    else match lines[n - 1]
      case Decoded(r) => SeenJobsAfter(r, n, SeenJobs(lines, n - 1))
      case _ => SeenJobs(lines, n - 1)
  }

  function SeenEvents(lines: seq<Line>, n: nat): map<int, int>
    requires n <= |lines|
  {
    if n == 0 then map[]
    else match lines[n - 1]
      case Decoded(r) => CursorAfter(r.events, |r.events|, n, SeenEvents(lines, n - 1)).seen
      case _ => SeenEvents(lines, n - 1)
  }

  /** What one line adds to the report. */
  datatype Part = Part(blank: bool, decoded: bool, issues: seq<Issue>, warnings: seq<Issue>)

  function PartFor(line: Line, number: int, seenJobs: map<JobId, int>, seen: map<int, int>): Part {
    match line
    case Blank => Part(true, false, [], [])
    case Corrupt => Part(false, false, [Issue(number, "", InvalidJson)], [])
    case Decoded(r) => Part(false, true, RecordIssues(r, number, seenJobs, seen), RecordWarnings(r, number))
  }

  /** The line at position k; line numbers count from one. */
  function PartOf(lines: seq<Line>, k: nat): Part
    requires k < |lines|
  {
    PartFor(lines[k], k + 1, SeenJobs(lines, k), SeenEvents(lines, k))
  }

  function Parts(lines: seq<Line>, n: nat): (parts: seq<Part>)
    requires n <= |lines|
    ensures |parts| == n
    ensures forall k | 0 <= k < n :: parts[k] == PartOf(lines, k)
  {
    if n == 0 then [] else Parts(lines, n - 1) + [PartOf(lines, n - 1)]
  }

  function Plus(report: Report, part: Part): Report {
    Report(
      report.records + (if part.blank then 0 else 1),
      report.validRecords + (if part.decoded && part.issues == [] then 1 else 0),
      report.issues + part.issues, report.warnings + part.warnings)
  }

  function Sum(parts: seq<Part>): Report {
    if parts == [] then Report(0, 0, [], []) else Plus(Sum(parts[..|parts| - 1]), parts[|parts| - 1])
  }

  function ReportOf(lines: seq<Line>): Report {
    Sum(Parts(lines, |lines|))
  }

  method VerifyLine(before: Report, line: Line, number: int, seen: SeenIds) returns (report: Report)
    modifies seen
    ensures report == Plus(before, PartFor(line, number, old(seen.jobs), old(seen.events)))
    ensures report.records == before.records + if line == Blank then 0 else 1
    ensures report.validRecords ==
            before.validRecords + if line.Decoded? && |report.issues| == |before.issues| then 1 else 0
    ensures line.Decoded? ==> seen.jobs == SeenJobsAfter(line.record, number, old(seen.jobs))
    ensures line.Decoded? ==>
            seen.events == CursorAfter(line.record.events, |line.record.events|, number, old(seen.events)).seen
    ensures !line.Decoded? ==> unchanged(seen)
  {
    report := before;
    if line == Blank {
      return;
    }
    report := report.(records := report.records + 1);
    match line {
      case Corrupt =>
        report := report.(issues := report.issues + [Issue(number, "", InvalidJson)]);
      case Decoded(record) =>
        var issues, warnings := ValidateRecord(record, number, seen);
        if |issues| == 0 {
          report := report.(validRecords := report.validRecords + 1);
        }
        report := report.(issues := report.issues + issues, warnings := report.warnings + warnings);
    }
  }

  lemma SumStep(lines: seq<Line>, n: nat)
    requires n < |lines|
    ensures Sum(Parts(lines, n + 1)) == Plus(Sum(Parts(lines, n)), PartOf(lines, n))
  {
    assert Parts(lines, n + 1)[..n] == Parts(lines, n);
  }

  /** A reader that fails returns what was checked so far, and the failure. */
  method Verify(lines: seq<Line>, readerFails: bool) returns (report: Report, failed: bool)
    ensures report == ReportOf(lines)
    ensures report.Valid() <==> ArchiveOk(lines)
    ensures report.records == |set k: nat | k < |lines| && lines[k] != Blank|
    ensures report.validRecords == |set k: nat | k < |lines| && lines[k].Decoded? && LineOk(lines, k)|
    ensures failed == readerFails
  {
    report := Report(0, 0, [], []);
    var seen := new SeenIds();
    var n := 0;
    while n < |lines|
      invariant 0 <= n <= |lines|
      invariant fresh(seen)
      invariant seen.jobs == SeenJobs(lines, n)
      invariant seen.events == SeenEvents(lines, n)
      invariant report == Sum(Parts(lines, n))
    {
      SumStep(lines, n);
      report := VerifyLine(report, lines[n], n + 1, seen);
      n := n + 1;
    }
    VerifierExact(lines);
    CountsExact(lines);
    return report, readerFails;
  }

  // ---- What a good archive is, without reference to the loop ----

  ghost predicate HistoryOk(events: seq<Event>, jobId: JobId, final: JobState) {
    && (forall e | e in events :: e.id > 0 && e.jobId == jobId && e.at != ZERO_TIME)
    && Rising(events)
    && Replays(events, final)
  }

  ghost predicate RecordOk(r: Record) {
    && r.schemaVersion == 1
    && r.jobId != ""
    && r.job.maxAttempts >= 1
    && 0 <= r.job.retryCount <= r.job.maxAttempts
    && ValidJobState(r.job.state)
    && (r.job.createdAt != ZERO_TIME && r.job.updatedAt != ZERO_TIME ==> r.job.createdAt <= r.job.updatedAt)
    && HistoryOk(r.events, r.jobId, r.job.state)
  }

  /** Two records share neither the job id nor any event id. */
  predicate Disjoint(a: Record, b: Record) {
    a.jobId != b.jobId && forall e, f | e in a.events && f in b.events :: e.id != f.id
  }

  /** The line is blank, or it decodes to a good record that shares no id with an earlier one. */
  ghost predicate LineOk(lines: seq<Line>, k: nat)
    requires k < |lines|
  {
    !lines[k].Corrupt? && (lines[k].Decoded? ==>
      RecordOk(lines[k].record) &&
      forall m | 0 <= m < k && lines[m].Decoded? :: Disjoint(lines[m].record, lines[k].record))
  }

  ghost predicate ArchiveOk(lines: seq<Line>) {
    && (forall k | 0 <= k < |lines| :: !lines[k].Corrupt? && (lines[k].Decoded? ==> RecordOk(lines[k].record)))
    && (forall m, k | 0 <= m < k < |lines| && lines[m].Decoded? && lines[k].Decoded? ::
          Disjoint(lines[m].record, lines[k].record))
  }

  // ---- Proof ----

  lemma {:induction false} CollectEmpty(found: seq<Issue>, checks: seq<Check>, n: nat, line: int, jobId: JobId)
    requires n <= |checks|
    ensures Collect(found, checks, n, line, jobId) == [] <==>
            found == [] && forall i | 0 <= i < n :: !checks[i].bad
  {
    if n > 0 { CollectEmpty(found, checks, n - 1, line, jobId); }
  }

  lemma {:induction false} CollectLines(found: seq<Issue>, checks: seq<Check>, n: nat, line: int, jobId: JobId)
    requires n <= |checks| && forall i | i in found :: i.line == line && i.jobId == jobId
    ensures forall i | i in Collect(found, checks, n, line, jobId) :: i.line == line && i.jobId == jobId
  {
    if n > 0 { CollectLines(found, checks, n - 1, line, jobId); }
  }

  lemma HeaderExact(r: Record, line: int, seenJobs: map<JobId, int>)
    ensures Collect([], HeaderChecks(r, seenJobs), 8, line, r.jobId) == [] <==>
            && r.schemaVersion == SCHEMA_VERSION && r.jobId != "" && r.jobId !in seenJobs
            && r.job.maxAttempts >= 1 && 0 <= r.job.retryCount <= r.job.maxAttempts && ValidJobState(r.job.state)
            && (r.job.createdAt != ZERO_TIME && r.job.updatedAt != ZERO_TIME ==> r.job.createdAt <= r.job.updatedAt)
            && r.events != []
  {
    var checks := HeaderChecks(r, seenJobs);
    CollectEmpty([], checks, 8, line, r.jobId);
    assert (forall i | 0 <= i < 8 :: !checks[i].bad) <==>
      !checks[0].bad && !checks[1].bad && !checks[2].bad && !checks[3].bad &&
      !checks[4].bad && !checks[5].bad && !checks[6].bad && !checks[7].bad;
  }

  predicate Passes(e: Event, index: nat, jobId: JobId, c: Cursor) {
    && e.id > 0 && e.id !in c.seen && e.jobId == jobId && e.at != ZERO_TIME
    && (c.previousId > 0 ==> c.previousId < e.id)
    && (c.previousAt != ZERO_TIME ==> c.previousAt <= e.at)
    && Next(e, index, c.state).Some?
  }

  lemma EventExact(found: seq<Issue>, e: Event, index: nat, jobId: JobId, line: int, c: Cursor)
    ensures Collect(found, EventChecks(e, index, jobId, c), 7, line, jobId) == [] <==>
            found == [] && Passes(e, index, jobId, c)
  {
    var checks := EventChecks(e, index, jobId, c);
    CollectEmpty(found, checks, 7, line, jobId);
    assert (forall i | 0 <= i < 7 :: !checks[i].bad) <==>
      !checks[0].bad && !checks[1].bad && !checks[2].bad && !checks[3].bad &&
      !checks[4].bad && !checks[5].bad && !checks[6].bad;
  }

  /** The verifier's two transition tables are the automaton. */
  lemma TablesAreTheAutomaton(kind: EventType, from: JobState, to: JobState)
    ensures FirstEventState(kind) == Some(to) <==> Start(kind, to)
    ensures Transition(Some(from), kind) == Some(to) <==> Edge(from, kind, to)
  {
    if FirstEventState(kind) == Some(to) && !kind.Enqueued? && !kind.Scheduled? {
      if kind.LeaseTaken? { assert Edge(Pending, kind, to); }
      else if kind.Requeued? { assert Edge(DeadLetter, kind, to); }
      else { assert Edge(Leased, kind, to); }
    }
  }

  /**
    What an event tells on its own: the state it leads to, whatever came before, and
    the only state it may follow.
   */
  lemma EventsTellStates(kind: EventType, from: JobState)
    ensures FirstEventState(kind) == Some(Completed) <==> kind == Acknowledged
    ensures FirstEventState(kind) == Some(Failed) <==> kind == FailedEvent
    ensures FirstEventState(kind) == Some(DeadLetter) <==> kind == DeadLettered
    ensures FirstEventState(kind) == Some(Leased) <==> kind == LeaseTaken || kind == LeaseRenewed
    ensures FirstEventState(kind) == None <==> kind.OtherEvent?
    ensures Transition(Some(from), kind) ==
            if kind.Enqueued? || kind.Scheduled? ||
               from != (if kind.LeaseTaken? then Pending else if kind.Requeued? then DeadLetter else Leased)
            then None else FirstEventState(kind)
  {
  }

  ghost predicate Accepted(log: seq<Event>) {
    exists st :: Replays(log, st)
  }

  /** The first n events are good, taken on their own. */
  ghost predicate PrefixOk(events: seq<Event>, n: nat, jobId: JobId, seen: map<int, int>)
    requires n <= |events|
  {
    && (forall i | 0 <= i < n ::
          events[i].id > 0 && events[i].jobId == jobId && events[i].at != ZERO_TIME && events[i].id !in seen)
    && Rising(events[..n])
    && (n > 0 ==> Accepted(events[..n]))
  }

  /** The loop state after n good events. */
  ghost predicate CursorOk(events: seq<Event>, n: nat, seen: map<int, int>, c: Cursor)
    requires n <= |events|
  {
    if n == 0 then c == Cursor(None, 0, ZERO_TIME, seen)
    else
      && c.state.Some? && Replays(events[..n], c.state.value)
      && c.previousId == events[n - 1].id && c.previousAt == events[n - 1].at
      && c.seen.Keys == seen.Keys + set i | 0 <= i < n :: events[i].id
  }

  /** An event extends a good prefix exactly when the automaton takes it from the state reached. */
  lemma ReplayStep(events: seq<Event>, n: nat, state: Option<JobState>)
    requires n < |events|
    requires n > 0 ==> state.Some? && Replays(events[..n], state.value)
    ensures Next(events[n], n, state).Some? <==> Accepted(events[..n + 1])
    ensures Next(events[n], n, state).Some? ==> Replays(events[..n + 1], Next(events[n], n, state).value)
  {
    var e, all := events[n], events[..n + 1];
    assert all == events[..n] + [e];
    if Next(e, n, state).Some? {
      var to := Next(e, n, state).value;
      if n == 0 {
        TablesAreTheAutomaton(e.kind, to, to);
        ReplayOne(e, to);
        assert all == [e];
      } else {
        TablesAreTheAutomaton(e.kind, state.value, to);
        ReplayExtend(events[..n], state.value, e, to);
      }
    }
    if st :| Replays(all, st) {
      var states :| IsPath(all, states) && states[|states| - 1] == st;
      if n == 0 {
        TablesAreTheAutomaton(e.kind, st, st);
      } else {
        assert Edge(states[n - 1], all[n].kind, states[n]);
        assert IsPath(events[..n], states[..n]);
        ReplayUnique(events[..n], states[n - 1], state.value);
        TablesAreTheAutomaton(e.kind, state.value, st);
      }
    }
  }

  lemma PrefixShrinks(events: seq<Event>, n: nat, jobId: JobId, seen: map<int, int>)
    requires n < |events| && PrefixOk(events, n + 1, jobId, seen)
    ensures PrefixOk(events, n, jobId, seen)
    ensures n > 0 ==> events[n - 1].id < events[n].id && events[n - 1].at <= events[n].at
  {
    assert forall i | 0 <= i < n :: events[..n][i] == events[..n + 1][i];
    if n > 0 {
      assert events[n - 1] == events[..n + 1][n - 1] && events[n] == events[..n + 1][n];
      var st :| Replays(events[..n + 1], st);
      var states :| IsPath(events[..n + 1], states);
      assert IsPath(events[..n], states[..n]);
      assert Replays(events[..n], states[n - 1]);
    }
  }

  lemma RisingExtends(events: seq<Event>, n: nat)
    requires n < |events| && Rising(events[..n])
    requires n > 0 ==> events[n - 1].id < events[n].id && events[n - 1].at <= events[n].at
    ensures Rising(events[..n + 1])
  {
    var all := events[..n + 1];
    forall i, k | 0 <= i < k < |all| ensures all[i].id < all[k].id && all[i].at <= all[k].at {
      assert all[i] == events[..n][i];
      if k < n { assert all[k] == events[..n][k]; }
      else { assert events[..n][n - 1] == events[n - 1]; }
    }
  }

  /** Ids before position n are below the last one, and the ids seen grow by it. */
  lemma NewIdUnseen(events: seq<Event>, n: nat, seen: map<int, int>)
    requires n < |events| && Rising(events[..n + 1])
    ensures forall i | 0 <= i < n :: events[i].id < events[n].id
    ensures (set i | 0 <= i < n + 1 :: events[i].id) == (set i | 0 <= i < n :: events[i].id) + {events[n].id}
  {
    forall i | 0 <= i < n ensures events[i].id < events[n].id {
      assert events[i] == events[..n + 1][i] && events[n] == events[..n + 1][n];
    }
  }

  /** The longer prefix is good: its last event passes every check, and the loop state stays right. */
  lemma PrefixStepDown(events: seq<Event>, n: nat, jobId: JobId, line: int, seen: map<int, int>, c: Cursor)
    requires n < |events| && PrefixOk(events, n + 1, jobId, seen) && CursorOk(events, n, seen, c)
    ensures Passes(events[n], n, jobId, c)
    ensures CursorOk(events, n + 1, seen, Advance(events[n], n, line, c))
  {
    ReplayStep(events, n, c.state);
    PrefixShrinks(events, n, jobId, seen);
    NewIdUnseen(events, n, seen);
    assert events[n].id !in c.seen.Keys;
  }

  lemma PrefixStepUp(events: seq<Event>, n: nat, jobId: JobId, seen: map<int, int>, c: Cursor)
    requires n < |events| && PrefixOk(events, n, jobId, seen) && CursorOk(events, n, seen, c)
    requires Passes(events[n], n, jobId, c)
    ensures PrefixOk(events, n + 1, jobId, seen)
  {
    ReplayStep(events, n, c.state);
    if n > 0 { assert events[n - 1].id > 0 && events[n - 1].at != ZERO_TIME; }
    RisingExtends(events, n);
    assert events[n].id !in seen.Keys;
  }

  lemma CursorRight(events: seq<Event>, n: nat, jobId: JobId, line: int, seen: map<int, int>)
    requires n < |events|
    requires PrefixOk(events, n, jobId, seen) ==> CursorOk(events, n, seen, CursorAfter(events, n, line, seen))
    ensures var c := CursorAfter(events, n, line, seen);
            PrefixOk(events, n + 1, jobId, seen) <==> PrefixOk(events, n, jobId, seen) && Passes(events[n], n, jobId, c)
    ensures PrefixOk(events, n + 1, jobId, seen) ==>
            CursorOk(events, n + 1, seen, CursorAfter(events, n + 1, line, seen))
  {
    var c := CursorAfter(events, n, line, seen);
    if PrefixOk(events, n + 1, jobId, seen) {
      PrefixShrinks(events, n, jobId, seen);
      PrefixStepDown(events, n, jobId, line, seen, c);
    } else if PrefixOk(events, n, jobId, seen) && Passes(events[n], n, jobId, c) {
      PrefixStepUp(events, n, jobId, seen, c);
    }
  }

  lemma {:induction false} CursorStaysRight(events: seq<Event>, n: nat, jobId: JobId, line: int, seen: map<int, int>)
    requires n <= |events|
    ensures PrefixOk(events, n, jobId, seen) ==> CursorOk(events, n, seen, CursorAfter(events, n, line, seen))
  {
    if n > 0 {
      CursorStaysRight(events, n - 1, jobId, line, seen);
      CursorRight(events, n - 1, jobId, line, seen);
    }
  }

  lemma PrefixStep(events: seq<Event>, n: nat, jobId: JobId, line: int, seen: map<int, int>)
    requires n < |events|
    ensures PrefixOk(events, n + 1, jobId, seen) <==>
            PrefixOk(events, n, jobId, seen) && Passes(events[n], n, jobId, CursorAfter(events, n, line, seen))
  {
    CursorStaysRight(events, n, jobId, line, seen);
    CursorRight(events, n, jobId, line, seen);
  }

  lemma IssuesStep(r: Record, n: nat, line: int, seenJobs: map<JobId, int>, seen: map<int, int>)
    requires n < |r.events|
    ensures var c := CursorAfter(r.events, n, line, seen);
            IssuesThrough(r, n + 1, line, seenJobs, seen) == [] <==>
            IssuesThrough(r, n, line, seenJobs, seen) == [] && Passes(r.events[n], n, r.jobId, c)
  {
    var c := CursorAfter(r.events, n, line, seen);
    EventExact(IssuesThrough(r, n, line, seenJobs, seen), r.events[n], n, r.jobId, line, c);
  }

  predicate AllPass(events: seq<Event>, n: nat, jobId: JobId, line: int, seen: map<int, int>)
    requires n <= |events|
  {
    n == 0 || (
      && AllPass(events, n - 1, jobId, line, seen)
      && Passes(events[n - 1], n - 1, jobId, CursorAfter(events, n - 1, line, seen)))
  }

  lemma {:induction false} IssuesExact(r: Record, n: nat, line: int, seenJobs: map<JobId, int>, seen: map<int, int>)
    requires n <= |r.events|
    ensures IssuesThrough(r, n, line, seenJobs, seen) == [] <==>
            IssuesThrough(r, 0, line, seenJobs, seen) == [] && AllPass(r.events, n, r.jobId, line, seen)
  {
    if n > 0 {
      IssuesExact(r, n - 1, line, seenJobs, seen);
      IssuesStep(r, n - 1, line, seenJobs, seen);
    }
  }

  lemma {:induction false} AllPassExact(events: seq<Event>, n: nat, jobId: JobId, line: int, seen: map<int, int>)
    requires n <= |events|
    ensures AllPass(events, n, jobId, line, seen) <==> PrefixOk(events, n, jobId, seen)
  {
    if n > 0 {
      AllPassExact(events, n - 1, jobId, line, seen);
      PrefixStep(events, n - 1, jobId, line, seen);
    } else {
      assert events[..0] == [];
    }
  }

  /** A record yields no issue exactly when it is good and none of its ids was seen before. */
  lemma RecordExact(r: Record, line: int, seenJobs: map<JobId, int>, seen: map<int, int>)
    ensures RecordIssues(r, line, seenJobs, seen) == [] <==>
            RecordOk(r) && r.jobId !in seenJobs && forall e | e in r.events :: e.id !in seen
  {
    var n := |r.events|;
    var c := CursorAfter(r.events, n, line, seen);
    HeaderExact(r, line, seenJobs);
    IssuesExact(r, n, line, seenJobs, seen);
    AllPassExact(r.events, n, r.jobId, line, seen);
    CursorStaysRight(r.events, n, r.jobId, line, seen);
    if n > 0 { HistoryExact(r.events, r.jobId, r.job.state, seen, c); }
  }

  lemma HistoryExact(events: seq<Event>, jobId: JobId, final: JobState, seen: map<int, int>, c: Cursor)
    requires events != []
    requires PrefixOk(events, |events|, jobId, seen) ==> CursorOk(events, |events|, seen, c)
    ensures PrefixOk(events, |events|, jobId, seen) && c.state == Some(final) <==>
            HistoryOk(events, jobId, final) && forall e | e in events :: e.id !in seen
  {
    assert events[..|events|] == events;
    if PrefixOk(events, |events|, jobId, seen) && Replays(events, final) {
      ReplayUnique(events, c.state.value, final);
    }
    if HistoryOk(events, jobId, final) && (forall e | e in events :: e.id !in seen) {
      assert Accepted(events);
      assert forall i | 0 <= i < |events| :: events[i] in events;
    }
  }

  lemma {:induction false} CursorSeen(events: seq<Event>, n: nat, line: int, seen: map<int, int>)
    requires n <= |events|
    ensures forall id :: id in CursorAfter(events, n, line, seen).seen <==>
            id in seen || exists i :: 0 <= i < n && events[i].id == id && id > 0
  {
    if n > 0 { CursorSeen(events, n - 1, line, seen); }
  }

  /** The maps hold exactly the ids of the records decoded so far. */
  lemma {:induction false} SeenExact(lines: seq<Line>, n: nat)
    requires n <= |lines|
    ensures forall id :: id in SeenJobs(lines, n) <==>
            id != "" && exists m :: 0 <= m < n && lines[m].Decoded? && lines[m].record.jobId == id
    ensures forall id :: id in SeenEvents(lines, n) <==>
            id > 0 && exists m, i ::
                  0 <= m < n && lines[m].Decoded? && 0 <= i < |lines[m].record.events| &&
                  lines[m].record.events[i].id == id
  {
    if n > 0 {
      SeenExact(lines, n - 1);
      if lines[n - 1].Decoded? {
        var events := lines[n - 1].record.events;
        CursorSeen(events, |events|, n, SeenEvents(lines, n - 1));
      }
    }
  }

  lemma LineExact(lines: seq<Line>, k: nat)
    requires k < |lines|
    ensures PartOf(lines, k).issues == [] <==> LineOk(lines, k)
  {
    if lines[k].Decoded? {
      var r := lines[k].record;
      RecordExact(r, k + 1, SeenJobs(lines, k), SeenEvents(lines, k));
      SeenExact(lines, k);
      if RecordOk(r) {
        assert r.jobId !in SeenJobs(lines, k) <==>
          forall m | 0 <= m < k && lines[m].Decoded? :: lines[m].record.jobId != r.jobId;
      }
    }
  }

  lemma {:induction false} IssueLines(r: Record, n: nat, line: int, seenJobs: map<JobId, int>, seen: map<int, int>)
    requires n <= |r.events|
    ensures forall i | i in IssuesThrough(r, n, line, seenJobs, seen) :: i.line == line && i.jobId == r.jobId
  {
    if n == 0 {
      CollectLines([], HeaderChecks(r, seenJobs), 8, line, r.jobId);
    } else {
      IssueLines(r, n - 1, line, seenJobs, seen);
      CollectLines(IssuesThrough(r, n - 1, line, seenJobs, seen),
        EventChecks(r.events[n - 1], n - 1, r.jobId, CursorAfter(r.events, n - 1, line, seen)), 7, line, r.jobId);
    }
  }

  /** Entries carry the number of the part they come from. */
  predicate Numbered(parts: seq<Part>) {
    forall m | 0 <= m < |parts| ::
      (forall i | i in parts[m].issues :: i.line == m + 1) && (forall w | w in parts[m].warnings :: w.line == m + 1)
  }

  /** The entries of the sum with a part's number are that part's entries. */
  lemma {:induction false} SumExact(parts: seq<Part>, k: nat)
    requires Numbered(parts) && k < |parts|
    ensures forall i :: i in Sum(parts).issues && i.line == k + 1 <==> i in parts[k].issues
    ensures forall w :: w in Sum(parts).warnings && w.line == k + 1 <==> w in parts[k].warnings
  {
    var n := |parts| - 1;
    var front := parts[..n];
    assert Numbered(front);
    SumBound(front);
    if k < n { SumExact(front, k); }
  }

  lemma {:induction false} SumBound(parts: seq<Part>)
    requires Numbered(parts)
    ensures forall i | i in Sum(parts).issues :: i.line <= |parts|
    ensures forall w | w in Sum(parts).warnings :: w.line <= |parts|
  {
    if parts != [] {
      assert Numbered(parts[..|parts| - 1]);
      SumBound(parts[..|parts| - 1]);
    }
  }

  lemma {:induction false} SumEmpty(parts: seq<Part>)
    ensures Sum(parts).issues == [] <==> forall k | 0 <= k < |parts| :: parts[k].issues == []
  {
    if parts != [] { SumEmpty(parts[..|parts| - 1]); }
  }

  /** The job that an entry about the line names. */
  function JobOf(line: Line): JobId {
    if line.Decoded? then line.record.jobId else ""
  }

  lemma PartLines(lines: seq<Line>, k: nat)
    requires k < |lines|
    ensures forall i | i in PartOf(lines, k).issues :: i.line == k + 1 && i.jobId == JobOf(lines[k])
    ensures forall w | w in PartOf(lines, k).warnings :: w.line == k + 1
  {
    if lines[k].Decoded? {
      var r := lines[k].record;
      IssueLines(r, |r.events|, k + 1, SeenJobs(lines, k), SeenEvents(lines, k));
    }
  }

  lemma ReportByLine(lines: seq<Line>, k: nat)
    requires k < |lines|
    ensures forall i :: i in ReportOf(lines).issues && i.line == k + 1 <==> i in PartOf(lines, k).issues
    ensures forall w :: w in ReportOf(lines).warnings && w.line == k + 1 <==> w in PartOf(lines, k).warnings
  {
    var parts := Parts(lines, |lines|);
    forall m | 0 <= m < |lines|
      ensures forall i | i in parts[m].issues :: i.line == m + 1
      ensures forall w | w in parts[m].warnings :: w.line == m + 1
    {
      PartLines(lines, m);
    }
    SumExact(parts, k);
    assert parts[k] == PartOf(lines, k);
  }

  /** The first retained event may come first in a history, but did not create the job. */
  ghost predicate StartsLate(line: Line) {
    line.Decoded? && line.record.events != [] &&
    var kind := line.record.events[0].kind;
    (exists to :: Start(kind, to)) && kind != Enqueued && kind != Scheduled
  }

  lemma TruncatedExact(line: Line)
    ensures line.Decoded? && Truncated(line.record.events) <==> StartsLate(line)
  {
    if line.Decoded? && line.record.events != [] {
      var kind := line.record.events[0].kind;
      if FirstEventState(kind).Some? { TablesAreTheAutomaton(kind, Pending, FirstEventState(kind).value); }
      if to :| Start(kind, to) { TablesAreTheAutomaton(kind, Pending, to); }
    }
  }

  /** The report blames exactly the bad lines, and warns about exactly the histories that start late. */
  lemma ReportExact(lines: seq<Line>, k: nat)
    requires k < |lines|
    ensures (exists i :: i in ReportOf(lines).issues && i.line == k + 1) <==> !LineOk(lines, k)
    ensures (exists w :: w in ReportOf(lines).warnings && w.line == k + 1) <==>
            StartsLate(lines[k])
  {
    var part := PartOf(lines, k);
    TruncatedExact(lines[k]);
    ReportByLine(lines, k);
    LineExact(lines, k);
    assert part.issues != [] ==> part.issues[0] in part.issues;
    assert part.warnings != [] ==> part.warnings[0] in part.warnings;
  }

  lemma ArchiveByLines(lines: seq<Line>)
    ensures ArchiveOk(lines) <==> forall k | 0 <= k < |lines| :: LineOk(lines, k)
  {
    if ArchiveOk(lines) {
      forall k | 0 <= k < |lines| ensures LineOk(lines, k) {}
    }
    if forall k | 0 <= k < |lines| :: LineOk(lines, k) {
      forall m, k | 0 <= m < k < |lines| && lines[m].Decoded? && lines[k].Decoded?
        ensures Disjoint(lines[m].record, lines[k].record)
      {
        assert LineOk(lines, k);
      }
      forall k | 0 <= k < |lines|
        ensures !lines[k].Corrupt? && (lines[k].Decoded? ==> RecordOk(lines[k].record))
      {
        assert LineOk(lines, k);
      }
    }
  }

  /** Sound and complete: no issue exactly when the archive is good. */
  lemma VerifierExact(lines: seq<Line>)
    ensures ReportOf(lines).Valid() <==> ArchiveOk(lines)
  {
    var parts := Parts(lines, |lines|);
    SumEmpty(parts);
    forall k | 0 <= k < |lines|
      ensures parts[k].issues == [] <==> LineOk(lines, k)
    {
      LineExact(lines, k);
      assert parts[k] == PartOf(lines, k);
    }
    ArchiveByLines(lines);
  }

  /** Warnings come in line order, at most one a line, each naming the record of its line. */
  predicate WarningsByLine(warnings: seq<Issue>, lines: seq<Line>) {
    && (forall i, k | 0 <= i < k < |warnings| :: warnings[i].line < warnings[k].line)
    && (forall w | w in warnings ::
          1 <= w.line <= |lines| && lines[w.line - 1].Decoded?
          && w.jobId == lines[w.line - 1].record.jobId && w.code == HistoryTruncated)
  }

  /** What the line at position k may warn about. */
  predicate LineWarning(warnings: seq<Issue>, lines: seq<Line>, k: nat)
    requires k < |lines|
  {
    warnings == [] || (lines[k].Decoded? && warnings == [Issue(k + 1, lines[k].record.jobId, HistoryTruncated)])
  }

  function Joined(parts: seq<seq<Issue>>): seq<Issue> {
    if parts == [] then [] else Joined(parts[..|parts| - 1]) + parts[|parts| - 1]
  }

  lemma WarningsGrow(front: seq<Issue>, more: seq<Issue>, lines: seq<Line>, k: nat)
    requires k < |lines| && WarningsByLine(front, lines) && (forall w | w in front :: w.line <= k)
    requires LineWarning(more, lines, k)
    ensures WarningsByLine(front + more, lines) && forall w | w in front + more :: w.line <= k + 1
  {
    assert forall i | 0 <= i < |front| :: front[i] in front;
  }

  lemma {:induction false} JoinedByLine(parts: seq<seq<Issue>>, lines: seq<Line>)
    requires |parts| <= |lines| && forall k | 0 <= k < |parts| :: LineWarning(parts[k], lines, k)
    ensures WarningsByLine(Joined(parts), lines) && forall w | w in Joined(parts) :: w.line <= |parts|
  {
    if parts != [] {
      JoinedByLine(parts[..|parts| - 1], lines);
      WarningsGrow(Joined(parts[..|parts| - 1]), parts[|parts| - 1], lines, |parts| - 1);
    }
  }

  function WarningsOf(parts: seq<Part>): seq<seq<Issue>> {
    seq(|parts|, i requires 0 <= i < |parts| => parts[i].warnings)
  }

  lemma {:induction false} SumJoins(parts: seq<Part>)
    ensures Sum(parts).warnings == Joined(WarningsOf(parts))
  {
    if parts != [] {
      SumJoins(parts[..|parts| - 1]);
      assert WarningsOf(parts)[..|parts| - 1] == WarningsOf(parts[..|parts| - 1]);
    }
  }

  lemma WarningsExact(lines: seq<Line>)
    ensures WarningsByLine(ReportOf(lines).warnings, lines)
  {
    var parts := Parts(lines, |lines|);
    SumJoins(parts);
    forall k | 0 <= k < |lines| ensures LineWarning(WarningsOf(parts)[k], lines, k) {
      assert parts[k] == PartOf(lines, k);
    }
    JoinedByLine(WarningsOf(parts), lines);
  }

  /** Issues come in line order, each naming the job of its line if that was decoded. */
  predicate IssuesByLine(issues: seq<Issue>, lines: seq<Line>) {
    && (forall i, k | 0 <= i < k < |issues| :: issues[i].line <= issues[k].line)
    && (forall i | i in issues ::
          1 <= i.line <= |lines| && !lines[i.line - 1].Blank? && i.jobId == JobOf(lines[i.line - 1]))
  }

  predicate UpTo(sum: Report, lines: seq<Line>, n: nat) {
    IssuesByLine(sum.issues, lines) && forall i | i in sum.issues :: i.line <= n
  }

  predicate OfLine(part: Part, lines: seq<Line>, k: nat)
    requires k < |lines|
  {
    forall i | i in part.issues :: i.line == k + 1 && i.jobId == JobOf(lines[k]) && !lines[k].Blank?
  }

  lemma PartOfLine(lines: seq<Line>, k: nat)
    requires k < |lines|
    ensures OfLine(PartOf(lines, k), lines, k)
  {
    PartLines(lines, k);
  }

  lemma IssuesGrow(sum: Report, part: Part, lines: seq<Line>, k: nat, after: Report)
    requires k < |lines| && UpTo(sum, lines, k) && OfLine(part, lines, k) && after == Plus(sum, part)
    ensures UpTo(after, lines, k + 1)
  {
    var front, all := sum.issues, sum.issues + part.issues;
    forall i, j | 0 <= i < j < |all| ensures all[i].line <= all[j].line {
      assert i < |front| ==> all[i] in front;
      assert i >= |front| ==> all[i] in part.issues;
      assert j >= |front| ==> all[j] in part.issues;
    }
  }

  lemma {:induction false} IssuesInOrder(lines: seq<Line>, n: nat)
    requires n <= |lines|
    ensures UpTo(Sum(Parts(lines, n)), lines, n)
  {
    if n == 0 {
      assert Sum(Parts(lines, 0)) == Report(0, 0, [], []);
    } else {
      IssuesInOrder(lines, n - 1);
      IssuesNext(lines, n - 1);
    }
  }

  lemma IssuesNext(lines: seq<Line>, n: nat)
    requires n < |lines| && UpTo(Sum(Parts(lines, n)), lines, n)
    ensures UpTo(Sum(Parts(lines, n + 1)), lines, n + 1)
  {
    SumStep(lines, n);
    PartOfLine(lines, n);
    IssuesGrow(Sum(Parts(lines, n)), PartOf(lines, n), lines, n, Sum(Parts(lines, n + 1)));
  }

  lemma IssuesInLineOrder(lines: seq<Line>)
    ensures IssuesByLine(ReportOf(lines).issues, lines)
  {
    IssuesInOrder(lines, |lines|);
  }

  // ---- Counts ----

  /** How many of the first n positions have the property. */
  ghost function HowMany(n: nat, p: nat -> bool): nat {
    |set k: nat | k < n && p(k)|
  }

  lemma OneMore(n: nat, p: nat -> bool)
    ensures HowMany(n + 1, p) == HowMany(n, p) + if p(n) then 1 else 0
  {
    var before, after := set k: nat | k < n && p(k), set k: nat | k < n + 1 && p(k);
    if p(n) {
      assert after == before + {n};
    } else {
      assert after == before;
    }
  }

  lemma {:induction false} AllOfThem(n: nat, p: nat -> bool)
    ensures (forall k: nat | k < n :: p(k)) ==> HowMany(n, p) == n
    ensures (forall k: nat | k < n :: !p(k)) ==> HowMany(n, p) == 0
  {
    if n > 0 {
      AllOfThem(n - 1, p);
      OneMore(n - 1, p);
    }
  }

  ghost function HasContent(lines: seq<Line>): nat -> bool {
    (k: nat) => k < |lines| && lines[k] != Blank
  }

  ghost function IsValid(lines: seq<Line>): nat -> bool {
    (k: nat) => k < |lines| && lines[k].Decoded? && LineOk(lines, k)
  }

  ghost function Late(lines: seq<Line>): nat -> bool {
    (k: nat) => k < |lines| && StartsLate(lines[k])
  }

  lemma PartCounts(lines: seq<Line>, k: nat)
    requires k < |lines|
    ensures var part := PartOf(lines, k);
            && (HasContent(lines)(k) <==> !part.blank)
            && (IsValid(lines)(k) <==> part.decoded && part.issues == [])
            && |part.warnings| == if Late(lines)(k) then 1 else 0
  {
    LineExact(lines, k);
    TruncatedExact(lines[k]);
  }

  /** The sum so far counts right. */
  ghost predicate Counted(sum: Report, n: nat, content: nat -> bool, valid: nat -> bool, late: nat -> bool) {
    sum.records == HowMany(n, content) && sum.validRecords == HowMany(n, valid) && |sum.warnings| == HowMany(n, late)
  }

  lemma PartCounted(sum: Report, part: Part, n: nat, content: nat -> bool, valid: nat -> bool, late: nat -> bool,
                    after: Report)
    requires Counted(sum, n, content, valid, late) && after == Plus(sum, part)
    requires content(n) <==> !part.blank
    requires valid(n) <==> part.decoded && part.issues == []
    requires |part.warnings| == if late(n) then 1 else 0
    ensures Counted(after, n + 1, content, valid, late)
  {
    OneMore(n, content);
    OneMore(n, valid);
    OneMore(n, late);
  }

  lemma CountsNext(lines: seq<Line>, n: nat)
    requires n < |lines| && Counted(Sum(Parts(lines, n)), n, HasContent(lines), IsValid(lines), Late(lines))
    ensures Counted(Sum(Parts(lines, n + 1)), n + 1, HasContent(lines), IsValid(lines), Late(lines))
  {
    SumStep(lines, n);
    PartCounts(lines, n);
    PartCounted(Sum(Parts(lines, n)), PartOf(lines, n), n, HasContent(lines), IsValid(lines), Late(lines),
                Sum(Parts(lines, n + 1)));
  }

  lemma {:induction false} CountsThrough(lines: seq<Line>, n: nat)
    requires n <= |lines|
    ensures Counted(Sum(Parts(lines, n)), n, HasContent(lines), IsValid(lines), Late(lines))
  {
    if n == 0 {
      assert Sum(Parts(lines, 0)) == Report(0, 0, [], []);
    } else {
      CountsThrough(lines, n - 1);
      CountsNext(lines, n - 1);
    }
  }

  lemma ValidPositions(lines: seq<Line>)
    ensures HowMany(|lines|, IsValid(lines)) == |set k: nat | k < |lines| && lines[k].Decoded? && LineOk(lines, k)|
  {
    assert (set k: nat | k < |lines| && IsValid(lines)(k)) ==
           (set k: nat | k < |lines| && lines[k].Decoded? && LineOk(lines, k));
  }

  lemma OtherPositions(lines: seq<Line>)
    ensures HowMany(|lines|, HasContent(lines)) == |set k: nat | k < |lines| && lines[k] != Blank|
    ensures HowMany(|lines|, Late(lines)) == |set k: nat | k < |lines| && StartsLate(lines[k])|
  {
    assert (set k: nat | k < |lines| && HasContent(lines)(k)) == (set k: nat | k < |lines| && lines[k] != Blank);
    assert (set k: nat | k < |lines| && Late(lines)(k)) == (set k: nat | k < |lines| && StartsLate(lines[k]));
  }

  /** For every input: one record a line with content, valid are the good ones, and one warning a late start. */
  lemma CountsExact(lines: seq<Line>)
    ensures ReportOf(lines).records == |set k: nat | k < |lines| && lines[k] != Blank|
    ensures ReportOf(lines).validRecords == |set k: nat | k < |lines| && lines[k].Decoded? && LineOk(lines, k)|
    ensures |ReportOf(lines).warnings| == |set k: nat | k < |lines| && StartsLate(lines[k])|
  {
    CountsThrough(lines, |lines|);
    ValidPositions(lines);
    OtherPositions(lines);
  }

  lemma GoodRecordsValid(lines: seq<Line>)
    requires ArchiveOk(lines) && forall k | 0 <= k < |lines| :: lines[k].Decoded?
    ensures HowMany(|lines|, IsValid(lines)) == |lines|
  {
    ArchiveByLines(lines);
    AllOfThem(|lines|, IsValid(lines));
  }

  lemma NoneLate(lines: seq<Line>)
    requires forall k | 0 <= k < |lines| :: lines[k].Decoded? && !Truncated(lines[k].record.events)
    ensures HowMany(|lines|, Late(lines)) == 0
  {
    forall k: nat | k < |lines| ensures !Late(lines)(k) { TruncatedExact(lines[k]); }
    AllOfThem(|lines|, Late(lines));
  }

  /** An archive of records only. */
  lemma RecordCounts(lines: seq<Line>)
    requires forall k | 0 <= k < |lines| :: lines[k].Decoded?
    ensures ReportOf(lines).records == |lines|
    ensures ArchiveOk(lines) ==> ReportOf(lines).validRecords == |lines|
    ensures (forall k | 0 <= k < |lines| :: !Truncated(lines[k].record.events)) ==> ReportOf(lines).warnings == []
  {
    CountsThrough(lines, |lines|);
    AllOfThem(|lines|, HasContent(lines));
    if ArchiveOk(lines) { GoodRecordsValid(lines); }
    if forall k | 0 <= k < |lines| :: !Truncated(lines[k].record.events) { NoneLate(lines); }
  }

  // ---- What each code says ----

  predicate HasCode(issues: seq<Issue>, code: Code) {
    exists i :: i in issues && i.code == code
  }

  lemma {:induction false} CollectCodes(found: seq<Issue>, checks: seq<Check>, n: nat, line: int, jobId: JobId,
      code: Code)
    requires n <= |checks|
    ensures HasCode(Collect(found, checks, n, line, jobId), code) <==>
            HasCode(found, code) || exists i :: 0 <= i < n && checks[i] == Check(true, code)
  {
    if n > 0 {
      CollectCodes(found, checks, n - 1, line, jobId, code);
      var front := Collect(found, checks, n - 1, line, jobId);
      if checks[n - 1].bad {
        var issue := Issue(line, jobId, checks[n - 1].code);
        assert issue in front + [issue];
        assert forall i | i in front :: i in front + [issue];
      }
    }
  }

  /** What is wrong with a record's header, given the records before it. */
  ghost predicate HeaderFault(lines: seq<Line>, k: nat, r: Record, code: Code)
    requires k < |lines|
  {
    match code
    case UnsupportedSchema => r.schemaVersion != 1
    case MissingJobId => r.jobId == ""
    case DuplicateJob => r.jobId != "" && exists m ::
          0 <= m < k && lines[m].Decoded? && lines[m].record.jobId == r.jobId
    case InvalidAttemptBudget => r.job.maxAttempts < 1
    case InvalidRetryCount => r.job.retryCount < 0 || r.job.retryCount > r.job.maxAttempts
    case InvalidJobState => r.job.state.OtherState?
    case InvalidJobTime => r.job.createdAt != ZERO_TIME && r.job.updatedAt != ZERO_TIME &&
        r.job.updatedAt < r.job.createdAt
    case MissingHistory => r.events == []
    case _ => false
  }

  /** The event id occurs on an earlier line or earlier in the same record. */
  ghost predicate SeenBefore(lines: seq<Line>, k: nat, events: seq<Event>, n: nat)
    requires k < |lines| && n < |events|
  {
    || (exists m, i ::
          0 <= m < k && lines[m].Decoded? && 0 <= i < |lines[m].record.events| &&
          lines[m].record.events[i].id == events[n].id)
    || (exists i :: 0 <= i < n && events[i].id == events[n].id)
  }

  /** The last time stamped before position n, or the zero time. */
  function LastTime(events: seq<Event>, n: nat): int
    requires n <= |events|
  {
    if n == 0 then ZERO_TIME else if events[n - 1].at != ZERO_TIME then events[n - 1].at else LastTime(events, n - 1)
  }

  /** The state that replaying the first n events leaves; a refused event leaves the state alone. */
  function ReplayState(events: seq<Event>, n: nat): Option<JobState>
    requires n <= |events|
  {
    if n == 0 then None
    else
      var before := ReplayState(events, n - 1);
      if n == 1 then FirstEventState(events[0].kind)
      else if Transition(before, events[n - 1].kind).Some? then Transition(before, events[n - 1].kind) else before
  }

  /** What is wrong with the event at position n. */
  ghost predicate EventFault(lines: seq<Line>, k: nat, r: Record, n: nat, code: Code)
    requires k < |lines| && n < |r.events|
  {
    var e := r.events[n];
    match code
    case InvalidEventId => e.id <= 0
    case DuplicateEvent => e.id > 0 && SeenBefore(lines, k, r.events, n)
    case BrokenReference => e.jobId != r.jobId
    case InvalidEventTime => e.at == ZERO_TIME
    case InvalidEventOrder =>
      || (n > 0 && r.events[n - 1].id > 0 && e.id <= r.events[n - 1].id)
      || (e.at != ZERO_TIME && LastTime(r.events, n) != ZERO_TIME && e.at < LastTime(r.events, n))
    case InvalidTransition => Next(e, n, ReplayState(r.events, n)) == None
    case _ => false
  }

  ghost predicate RecordFault(lines: seq<Line>, k: nat, r: Record, code: Code)
    requires k < |lines|
  {
    || HeaderFault(lines, k, r, code)
    || (exists n :: 0 <= n < |r.events| && EventFault(lines, k, r, n, code))
    || (code == StateMismatch && ReplayState(r.events, |r.events|).Some? &&
        ReplayState(r.events, |r.events|).value != r.job.state)
  }

  ghost predicate LineFault(lines: seq<Line>, k: nat, code: Code)
    requires k < |lines|
  {
    match lines[k]
    case Blank => false
    case Corrupt => code == InvalidJson
    case Decoded(r) => RecordFault(lines, k, r, code)
  }

  predicate OfIdentity(code: Code) {
    code == UnsupportedSchema || code == MissingJobId || code == DuplicateJob
  }

  predicate OfEventId(code: Code) {
    code == InvalidEventId || code == DuplicateEvent
  }

  lemma IdentityCodes(lines: seq<Line>, k: nat, r: Record, code: Code)
    requires k < |lines|
    ensures HasCode(Collect([], IdentityChecks(r, SeenJobs(lines, k)), 3, k + 1, r.jobId), code) <==>
            OfIdentity(code) && HeaderFault(lines, k, r, code)
  {
    var checks := IdentityChecks(r, SeenJobs(lines, k));
    SeenExact(lines, k);
    CollectCodes([], checks, 3, k + 1, r.jobId, code);
    assert !HasCode([], code);
    assert (exists i :: 0 <= i < 3 && checks[i] == Check(true, code)) <==>
      checks[0] == Check(true, code) || checks[1] == Check(true, code) || checks[2] == Check(true, code);
  }

  lemma FieldCodes(lines: seq<Line>, k: nat, r: Record, code: Code)
    requires k < |lines|
    ensures (exists i :: 0 <= i < 5 && FieldChecks(r)[i] == Check(true, code)) <==>
            !OfIdentity(code) && HeaderFault(lines, k, r, code)
  {
    var checks := FieldChecks(r);
    assert (exists i :: 0 <= i < 5 && checks[i] == Check(true, code)) <==>
      checks[0] == Check(true, code) || checks[1] == Check(true, code) || checks[2] == Check(true, code) ||
      checks[3] == Check(true, code) || checks[4] == Check(true, code);
  }

  lemma HeaderCodes(lines: seq<Line>, k: nat, r: Record, code: Code)
    requires k < |lines|
    ensures HasCode(Collect([], HeaderChecks(r, SeenJobs(lines, k)), 8, k + 1, r.jobId), code) <==>
            HeaderFault(lines, k, r, code)
  {
    var identity := IdentityChecks(r, SeenJobs(lines, k));
    CollectConcat([], identity, FieldChecks(r), 8, k + 1, r.jobId);
    CollectCodes(Collect([], identity, 3, k + 1, r.jobId), FieldChecks(r), 5, k + 1, r.jobId, code);
    IdentityCodes(lines, k, r, code);
    FieldCodes(lines, k, r, code);
  }

  lemma {:induction false} CursorMeaning(events: seq<Event>, n: nat, line: int, seen: map<int, int>)
    requires n <= |events|
    ensures var c := CursorAfter(events, n, line, seen);
            && c.state == ReplayState(events, n) && c.previousAt == LastTime(events, n)
            && c.previousId == (if n == 0 then 0 else events[n - 1].id)
  {
    if n > 0 { CursorMeaning(events, n - 1, line, seen); }
  }

  lemma EventIdCodes(lines: seq<Line>, k: nat, r: Record, n: nat, c: Cursor, code: Code)
    requires k < |lines| && n < |r.events| && c == CursorAfter(r.events, n, k + 1, SeenEvents(lines, k))
    ensures (exists i :: 0 <= i < 2 && EventIdChecks(r.events[n], c)[i] == Check(true, code)) <==>
            OfEventId(code) && EventFault(lines, k, r, n, code)
  {
    var checks := EventIdChecks(r.events[n], c);
    SeenExact(lines, k);
    CursorSeen(r.events, n, k + 1, SeenEvents(lines, k));
    assert (exists i :: 0 <= i < 2 && checks[i] == Check(true, code)) <==>
      checks[0] == Check(true, code) || checks[1] == Check(true, code);
  }

  lemma EventFieldCodes(lines: seq<Line>, k: nat, r: Record, n: nat, c: Cursor, code: Code)
    requires k < |lines| && n < |r.events| && c == CursorAfter(r.events, n, k + 1, SeenEvents(lines, k))
    ensures (exists i :: 0 <= i < 5 && EventFieldChecks(r.events[n], n, r.jobId, c)[i] == Check(true, code)) <==>
            !OfEventId(code) && EventFault(lines, k, r, n, code)
  {
    var checks := EventFieldChecks(r.events[n], n, r.jobId, c);
    CursorMeaning(r.events, n, k + 1, SeenEvents(lines, k));
    assert (exists i :: 0 <= i < 5 && checks[i] == Check(true, code)) <==>
      checks[0] == Check(true, code) || checks[1] == Check(true, code) || checks[2] == Check(true, code) ||
      checks[3] == Check(true, code) || checks[4] == Check(true, code);
  }

  lemma EventCodes(lines: seq<Line>, k: nat, r: Record, n: nat, found: seq<Issue>, code: Code)
    requires k < |lines| && n < |r.events|
    ensures var c := CursorAfter(r.events, n, k + 1, SeenEvents(lines, k));
            HasCode(Collect(found, EventChecks(r.events[n], n, r.jobId, c), 7, k + 1, r.jobId), code) <==>
            HasCode(found, code) || EventFault(lines, k, r, n, code)
  {
    var c := CursorAfter(r.events, n, k + 1, SeenEvents(lines, k));
    var ids, fields := EventIdChecks(r.events[n], c), EventFieldChecks(r.events[n], n, r.jobId, c);
    CollectConcat(found, ids, fields, 7, k + 1, r.jobId);
    CollectCodes(found, ids, 2, k + 1, r.jobId, code);
    CollectCodes(Collect(found, ids, 2, k + 1, r.jobId), fields, 5, k + 1, r.jobId, code);
    EventIdCodes(lines, k, r, n, c, code);
    EventFieldCodes(lines, k, r, n, c, code);
  }

  lemma {:induction false} RecordCodes(lines: seq<Line>, k: nat, r: Record, n: nat, code: Code)
    requires k < |lines| && n <= |r.events|
    ensures HasCode(IssuesThrough(r, n, k + 1, SeenJobs(lines, k), SeenEvents(lines, k)), code) <==>
            HeaderFault(lines, k, r, code) || exists m :: 0 <= m < n && EventFault(lines, k, r, m, code)
  {
    if n == 0 {
      HeaderCodes(lines, k, r, code);
    } else {
      RecordCodes(lines, k, r, n - 1, code);
      EventCodes(lines, k, r, n - 1, IssuesThrough(r, n - 1, k + 1, SeenJobs(lines, k), SeenEvents(lines, k)), code);
    }
  }

  lemma FinalCode(r: Record, line: int, seenJobs: map<JobId, int>, seen: map<int, int>, code: Code)
    ensures var final := CursorAfter(r.events, |r.events|, line, seen).state;
            HasCode(RecordIssues(r, line, seenJobs, seen), code) <==>
            HasCode(IssuesThrough(r, |r.events|, line, seenJobs, seen), code)
            || (code == StateMismatch && final.Some? && final.value != r.job.state)
  {
    var found := IssuesThrough(r, |r.events|, line, seenJobs, seen);
    var last := Issue(line, r.jobId, StateMismatch);
    assert last in found + [last];
    assert forall i :: i in found + [last] <==> i in found || i == last;
  }

  lemma DecodedCodes(lines: seq<Line>, k: nat, r: Record, code: Code)
    requires k < |lines|
    ensures HasCode(RecordIssues(r, k + 1, SeenJobs(lines, k), SeenEvents(lines, k)), code) <==>
            RecordFault(lines, k, r, code)
  {
    var n := |r.events|;
    RecordCodes(lines, k, r, n, code);
    CursorMeaning(r.events, n, k + 1, SeenEvents(lines, k));
    FinalCode(r, k + 1, SeenJobs(lines, k), SeenEvents(lines, k), code);
  }

  lemma PartCodes(lines: seq<Line>, k: nat, code: Code)
    requires k < |lines|
    ensures HasCode(PartOf(lines, k).issues, code) <==> LineFault(lines, k, code)
  {
    match lines[k]
    case Blank =>
    case Corrupt =>
      var issues := PartOf(lines, k).issues;
      assert issues == [Issue(k + 1, "", InvalidJson)] && issues[0] in issues;
    case Decoded(r) => DecodedCodes(lines, k, r, code);
  }

  /**
    For every line and every code: the report has an issue of that code on that line
    exactly when the line has that fault.
   */
  lemma CodesExact(lines: seq<Line>, k: nat, code: Code)
    requires k < |lines|
    ensures (exists i :: i in ReportOf(lines).issues && i.line == k + 1 && i.code == code) <==>
            LineFault(lines, k, code)
  {
    ReportByLine(lines, k);
    PartCodes(lines, k, code);
  }
}
