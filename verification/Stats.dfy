/**
 * `prehnite stats`: one summary per trajectory, one row per task, one line overall. Rates are
 * floored percentages, so a row and the overall line are floored separately; the theorems here say
 * how far apart that can put them.
 */
module Stats {
  import opened Events
  import opened Numerals
  import opened Order

  /** One trajectory file collapsed to numbers; `egress` holds each attempt's allowed flag. */
  datatype RunSummary = RunSummary(
    taskId: Option<string>,
    outcome: string,
    reason: string,
    egress: seq<bool>,
    agentCmds: nat,
    thoughts: nat)

  datatype Row = Row(taskId: string, runs: nat, pass: nat, fail: nat, error: nat, passRate: nat, thoughtsPct: nat)

  datatype Metrics = Metrics(
    totalRuns: nat,
    totalPassed: nat,
    passRate: nat,
    totalThoughts: nat,
    runsWithThoughts: nat,
    thoughtsPct: nat,
    totalEgress: nat,
    egressAllowed: nat,
    egressDenied: nat)

  const UNKNOWN := "(unknown)"

  // ----- One trajectory -----

  /** `str(data.get(key, otherwise))`. */
  function StrField(data: Data, key: string, otherwise: string): string {
    if key in data then Str(data[key]) else otherwise
  }

  predicate Truthy(v: Value) {
    match v
    case Text(s) => s != ""
    case Num(n) => n != 0
    case Flag(b) => b
    case Null => false
  }

  predicate Finished(e: Event) {
    e.kind == RunFinished
  }

  predicate Named(e: Event) {
    e.kind == RunStarted && "task_id" in e.data && e.data["task_id"].Text?
  }

  function TaskName(e: Event): string
    requires Named(e)
  {
    e.data["task_id"].s
  }

  /** The last event of `events` that satisfies `p`. */
  function Last(events: seq<Event>, p: Event -> bool): (r: Option<Event>)
    ensures r.Some? ==> r.value in events && p(r.value)
    ensures r.None? ==> forall e :: e in events ==> !p(e)
  {
    if events == [] then None
    else if p(events[|events| - 1]) then Some(events[|events| - 1])
    else Last(events[..|events| - 1], p)
  }

  function Result(e: Event): string {
    StrField(e.data, "result", "incomplete")
  }

  function FinishReason(e: Event): string {
    StrField(e.data, "reason", "")
  }

  predicate Allowed(e: Event) {
    "allowed" in e.data && Truthy(e.data["allowed"])
  }

  function Attempts(events: seq<Event>): seq<bool> {
    if events == [] then []
    else
      var e := events[|events| - 1];
      Attempts(events[..|events| - 1]) +
      if e.kind == EgressAttempt then [Allowed(e)] else []
  }

  function SummaryOutcome(events: seq<Event>): string {
    match Last(events, Finished) case None => "incomplete" case Some(e) => Result(e)
  }

  function SummaryReason(events: seq<Event>): string {
    match Last(events, Finished) case None => "" case Some(e) => FinishReason(e)
  }

  ghost predicate Summarizes(events: seq<Event>, r: RunSummary) {
    && r.outcome == SummaryOutcome(events) && r.reason == SummaryReason(events)
    && r.taskId == (match Last(events, Named) case None => None case Some(e) => Some(TaskName(e)))
    && r.agentCmds == CountAgent(events) && r.thoughts == CountKind(events, AgentThought)
    && r.egress == Attempts(events)
  }

  /** What the loop keeps of the events so far; the counters go into the summary at the end. */
  lemma SummaryStep(events: seq<Event>, e: Event, r: RunSummary)
    requires Summarizes(events, r)
    ensures Summarizes(events + [e], Step(r, e))
  {
    LastSnoc(events, e, Finished);
    LastSnoc(events, e, Named);
    CountsSnoc(events, e);
    hide Last, CountKind, Attempts, Result, FinishReason, Allowed;
  }

  lemma LastSnoc(events: seq<Event>, e: Event, p: Event -> bool)
    ensures Last(events + [e], p) == if p(e) then Some(e) else Last(events, p)
  {
    Snoc(events, e);
  }

  lemma CountsSnoc(events: seq<Event>, e: Event)
    ensures CountAgent(events + [e]) == CountAgent(events) + if e.kind == AgentCommand then 1 else 0
    ensures CountKind(events + [e], AgentThought) == CountKind(events, AgentThought) +
        if e.kind == AgentThought then 1 else 0
    ensures Attempts(events + [e]) ==
            Attempts(events) +
            if e.kind == EgressAttempt then [Allowed(e)] else []
  {
    Snoc(events, e);
  }

  function Step(r: RunSummary, e: Event): RunSummary {
    match e.kind
    case RunStarted => if Named(e) then r.(taskId := Some(TaskName(e))) else r
    case AgentCommand => r.(agentCmds := r.agentCmds + 1)
    case AgentThought => r.(thoughts := r.thoughts + 1)
    case EgressAttempt => r.(egress := r.egress + [Allowed(e)])
    case RunFinished =>
      r.(outcome := Result(e), reason := FinishReason(e))
    case _ => r
  }

  lemma OneMoreEvent(events: seq<Event>, i: nat, r: RunSummary)
    requires i < |events| && Summarizes(events[..i], r)
    ensures Summarizes(events[..i + 1], Step(r, events[i]))
  {
    assert events[..i + 1] == events[..i] + [events[i]];
    SummaryStep(events[..i], events[i], r);
  }

  lemma NoEvents()
    ensures Summarizes([], RunSummary(None, "incomplete", "", [], 0, 0))
  {
  }

  // ----- What the summary says, by the places of the events -----

  ghost function Where<T>(xs: seq<T>, p: T -> bool): set<int> {
    set i | 0 <= i < |xs| && p(xs[i])
  }

  ghost function Places(events: seq<Event>, k: EventType): set<int> {
    set i | 0 <= i < |events| && events[i].kind == k
  }

  /** The attempts whose flag is none of the values that count as false. */
  ghost function AllowedPlaces(events: seq<Event>): set<int> {
    set i | 0 <= i < |events| && events[i].kind == EgressAttempt && "allowed" in events[i].data &&
            events[i].data["allowed"] !in {Flag(false), Text(""), Num(0), Null}
  }

  lemma {:induction false} CountWhere<T>(xs: seq<T>, p: T -> bool)
    ensures Count(xs, p) == |Where(xs, p)|
  {
    if xs == [] {
      assert Where(xs, p) == {};
    } else {
      var n := |xs| - 1;
      CountWhere(xs[..n], p);
      var before := Where(xs[..n], p);
      if p(xs[n]) {
        assert Where(xs, p) == before + {n} && n !in before;
      } else {
        assert Where(xs, p) == before;
      }
    }
  }

  lemma {:induction false} CountKindIs(events: seq<Event>, k: EventType, p: Event -> bool)
    requires forall e :: p(e) <==> e.kind == k
    ensures CountKind(events, k) == Count(events, p)
  {
    if events != [] {
      CountKindIs(events[..|events| - 1], k, p);
    }
  }

  lemma {:induction false} AttemptsAre(events: seq<Event>, attempt: Event -> bool, allowed: Event -> bool)
    requires forall e :: attempt(e) <==> e.kind == EgressAttempt
    requires forall e :: allowed(e) <==> e.kind == EgressAttempt && Allowed(e)
    ensures |Attempts(events)| == Count(events, attempt)
    ensures CountOf(Attempts(events), true) == Count(events, allowed)
  {
    hide Allowed;
    if events != [] {
      var init, e := events[..|events| - 1], events[|events| - 1];
      AttemptsAre(init, attempt, allowed);
      if e.kind == EgressAttempt {
        Snoc(Attempts(init), Allowed(e));
      } else {
        assert Attempts(init) + [] == Attempts(init);
      }
    }
  }

  lemma {:induction false} CountOfAppend(xs: seq<bool>, ys: seq<bool>, b: bool)
    ensures CountOf(xs + ys, b) == CountOf(xs, b) + CountOf(ys, b)
  {
    if ys == [] {
      assert xs + ys == xs;
    } else {
      var n := |ys| - 1;
      CountOfAppend(xs, ys[..n], b);
      assert xs + ys == (xs + ys[..n]) + [ys[n]];
      Snoc(xs + ys[..n], ys[n]);
    }
  }

  /** Number `i` is the last event that `p` holds of. */
  ghost predicate LastAt(events: seq<Event>, i: int, p: Event -> bool) {
    0 <= i < |events| && p(events[i]) && forall j :: i < j < |events| ==> !p(events[j])
  }

  lemma {:induction false} LastIsAt(events: seq<Event>, p: Event -> bool, i: int)
    requires LastAt(events, i, p)
    ensures Last(events, p) == Some(events[i])
  {
    var n := |events| - 1;
    if i < n {
      assert events[..n][i] == events[i] && !p(events[n]);
      LastIsAt(events[..n], p, i);
    }
  }

  /** A summary read back against the events: task, outcome and reason as they were last given, and the counts. */
  ghost predicate SummaryTells(events: seq<Event>, r: RunSummary) {
    && r.agentCmds == |Places(events, AgentCommand)| && r.thoughts == |Places(events, AgentThought)|
    && |r.egress| == |Places(events, EgressAttempt)| && CountOf(r.egress, true) == |AllowedPlaces(events)|
    && (r.taskId == None <==> forall e :: e in events && e.kind == RunStarted ==>
          "task_id" !in e.data || !e.data["task_id"].Text?)
    && (forall i :: LastAt(events, i, Named) ==> r.taskId == Some(TextField(events[i].data, "task_id")))
    && ((forall e :: e in events ==> e.kind != RunFinished) ==> r.outcome == "incomplete" && r.reason == "")
    && (forall i :: LastAt(events, i, Finished) ==>
          var d := events[i].data;
          && ("result" in d && d["result"].Text? ==> Text(r.outcome) == d["result"])
          && ("result" !in d ==> r.outcome == "incomplete")
          && ("reason" in d && d["reason"].Text? ==> Text(r.reason) == d["reason"])
          && ("reason" !in d ==> r.reason == ""))
  }

  lemma SummarizesTells(events: seq<Event>, r: RunSummary)
    requires Summarizes(events, r)
    ensures SummaryTells(events, r)
  {
    forall i | LastAt(events, i, Finished) { LastIsAt(events, Finished, i); }
    forall i | LastAt(events, i, Named) { LastIsAt(events, Named, i); }
    PlacesAre(events, r);
    hide Count, Last, CountKind, Attempts, Places, AllowedPlaces, CountOf, LastAt;
  }

  lemma PlacesAre(events: seq<Event>, r: RunSummary)
    requires Summarizes(events, r)
    ensures r.agentCmds == |Places(events, AgentCommand)| && r.thoughts == |Places(events, AgentThought)|
    ensures |r.egress| == |Places(events, EgressAttempt)| && CountOf(r.egress, true) == |AllowedPlaces(events)|
  {
    hide Count, Last, CountKind, Attempts, CountOf;
    var command, thought := (e: Event) => e.kind == AgentCommand, (e: Event) => e.kind == AgentThought;
    var attempt, allowed := (e: Event) => e.kind == EgressAttempt, (e: Event) => e.kind == EgressAttempt && Allowed(e);
    CountKindIs(events, AgentCommand, command);
    CountKindIs(events, AgentThought, thought);
    AttemptsAre(events, attempt, allowed);
    CountWhere(events, command);
    CountWhere(events, thought);
    CountWhere(events, attempt);
    CountWhere(events, allowed);
    assert Places(events, AgentCommand) == Where(events, command);
    assert Places(events, AgentThought) == Where(events, thought);
    assert Places(events, EgressAttempt) == Where(events, attempt);
    assert AllowedPlaces(events) == Where(events, allowed);
  }

  method Summarize(events: seq<Event>) returns (r: RunSummary)
    ensures Summarizes(events, r) && SummaryTells(events, r)
  {
    hide Summarizes, SummaryTells, TaskName, Named, Allowed, Result, FinishReason;
    var taskId: Option<string>, outcome, reason := None, "incomplete", "";
    var egress: seq<bool>, agentCmds: nat, thoughts: nat := [], 0, 0;
    NoEvents();
    assert events[..0] == [];
    var i := 0;
    while i < |events|
      invariant 0 <= i <= |events|
      invariant Summarizes(events[..i], RunSummary(taskId, outcome, reason, egress, agentCmds, thoughts))
    {
      var e := events[i];
      ghost var before := RunSummary(taskId, outcome, reason, egress, agentCmds, thoughts);
      OneMoreEvent(events, i, before);
      if e.kind == RunStarted {
        if Named(e) {
          taskId := Some(TaskName(e));
        }
      } else if e.kind == AgentCommand {
        agentCmds := agentCmds + 1;
      } else if e.kind == AgentThought {
        thoughts := thoughts + 1;
      } else if e.kind == EgressAttempt {
        egress := egress + [Allowed(e)];
      } else if e.kind == RunFinished {
        outcome := Result(e);
        reason := FinishReason(e);
      }
      assert RunSummary(taskId, outcome, reason, egress, agentCmds, thoughts) == Step(before, e);
      i := i + 1;
    }
    assert events[..i] == events;
    r := RunSummary(taskId, outcome, reason, egress, agentCmds, thoughts);
    SummarizesTells(events, r);
  }

  /** The batch runner's reading of a trajectory: only the last line is looked at. */
  function OutcomeFromTrajectory(events: seq<Event>): string {
    if events == [] then "incomplete"
    else if Finished(events[|events| - 1]) then Result(events[|events| - 1])
    else "incomplete"
  }

  /**
   * The two readings of a trajectory's outcome agree exactly when run_finished is the last line, or
   * there is none, or the last one says "incomplete" itself. A late egress event is enough to make
   * the batch runner call a passed run incomplete.
   */
  lemma ReadersAgreeIff(events: seq<Event>)
    ensures SummaryOutcome(events) == OutcomeFromTrajectory(events) <==>
            (events != [] && Finished(events[|events| - 1])) ||
            (forall e :: e in events ==> !Finished(e)) ||
            (exists e :: Last(events, Finished) == Some(e) && Result(e) == "incomplete")
  {
    match Last(events, Finished)
    case None =>
    case Some(e) =>
      assert Last(events, Finished) == Some(e);
  }

  /** A proxy that reports one attempt after the end makes a passed run look incomplete to the batch runner. */
  lemma LateEgressParts(events: seq<Event>, finish: Event, late: Event)
    requires Finished(finish) && Result(finish) == "passed" && late.kind == EgressAttempt
    ensures SummaryOutcome(events + [finish]) == OutcomeFromTrajectory(events + [finish]) == "passed"
    ensures SummaryOutcome(events + [finish] + [late]) == "passed"
    ensures OutcomeFromTrajectory(events + [finish] + [late]) == "incomplete"
  {
    LastSnoc(events, finish, Finished);
    LastSnoc(events + [finish], late, Finished);
  }

  // ----- Floored percentages -----

  function FloorPct(part: nat, whole: nat): (r: nat)
    ensures whole > 0 ==> r * whole <= part * 100 < (r + 1) * whole
    ensures part <= whole ==> r <= 100
  {
    if whole == 0 then 0
    else
      Floor(part * 100, whole);
      part * 100 / whole
  }

  lemma Floor(x: nat, n: nat)
    requires n > 0
    ensures x / n >= 0
    ensures (x / n) * n <= x < (x / n + 1) * n
    ensures x <= 100 * n ==> x / n <= 100
  {
    var q := x / n;
    assert x == q * n + x % n;
    assert (q + 1) * n == q * n + n;
    if x <= 100 * n && q > 100 {
      Monotone(101, q, n);
      assert false;
    }
  }

  lemma Monotone(x: int, y: int, n: nat)
    requires x <= y
    ensures x * n <= y * n
  {
    var d: nat := y - x;
    assert y * n == (x + d) * n == x * n + d * n;
    assert d * n >= 0;
  }

  /** A common positive factor cancels. */
  lemma Cancel(x: int, y: int, n: nat)
    requires x * n < y * n
    ensures x < y
  {
    if y <= x {
      Monotone(y, x, n);
      assert false;
    }
  }

  // ----- Rows -----

  /** The key a run is grouped under: `r.task_id or "(unknown)"`. */
  function Key(r: RunSummary): string {
    if r.taskId == None || r.taskId == Some("") then UNKNOWN else r.taskId.value
  }

  predicate Passed(r: RunSummary) { r.outcome == "passed" }

  predicate Failed(r: RunSummary) { r.outcome == "failed" }

  predicate Errored(r: RunSummary) { r.outcome == "error" }

  predicate Thoughtful(r: RunSummary) { r.thoughts > 0 }

  predicate Any(r: RunSummary) { true }

  function Count<T>(xs: seq<T>, p: T -> bool): (r: nat)
    ensures r <= |xs|
  {
    if xs == [] then 0 else Count(xs[..|xs| - 1], p) + if p(xs[|xs| - 1]) then 1 else 0
  }

  lemma {:induction false} CountAny(runs: seq<RunSummary>)
    ensures Count(runs, Any) == |runs|
  {
    if runs != [] {
      CountAny(runs[..|runs| - 1]);
    }
  }

  /** The runs grouped under `id`, in file order. */
  function OfTask(runs: seq<RunSummary>, id: string): seq<RunSummary> {
    if runs == [] then []
    else
      var last := runs[|runs| - 1];
      OfTask(runs[..|runs| - 1], id) + if Key(last) == id then [last] else []
  }

  function Tasks(runs: seq<RunSummary>): set<string> {
    if runs == [] then {} else Tasks(runs[..|runs| - 1]) + {Key(runs[|runs| - 1])}
  }

  /** A task is one some run is grouped under. */
  lemma {:induction false} TaskHasRuns(runs: seq<RunSummary>, id: string)
    ensures id in Tasks(runs) <==> OfTask(runs, id) != []
    ensures id in Tasks(runs) <==> exists r :: r in runs && Key(r) == id
  {
    if runs != [] {
      var init, last := runs[..|runs| - 1], runs[|runs| - 1];
      assert runs == init + [last];
      TaskHasRuns(init, id);
    }
  }

  function RowOf(id: string, rs: seq<RunSummary>): Row {
    Row(id, |rs|, Count(rs, Passed), Count(rs, Failed), Count(rs, Errored),
        FloorPct(Count(rs, Passed), |rs|), FloorPct(Count(rs, Thoughtful), |rs|))
  }

  function Ids(rows: seq<Row>): (r: seq<string>)
    ensures |r| == |rows| && forall i :: 0 <= i < |rows| ==> r[i] == rows[i].taskId
  {
    seq(|rows|, i requires 0 <= i < |rows| => rows[i].taskId)
  }

  /** `rows` is the table of `runs`: one row per task, in order, each counting that task's runs. */
  ghost predicate IsTable(runs: seq<RunSummary>, rows: seq<Row>) {
    && Sorted(Ids(rows))
    && Elements(Ids(rows)) == Tasks(runs)
    && forall i :: 0 <= i < |rows| ==> rows[i] == RowOf(rows[i].taskId, OfTask(runs, rows[i].taskId))
  }

  /** `by_task`: the first pass, a dict of the runs under each key. */
  ghost predicate Grouped(runs: seq<RunSummary>, byTask: map<string, seq<RunSummary>>) {
    && byTask.Keys == Tasks(runs)
    && forall id :: id in byTask ==> byTask[id] == OfTask(runs, id)
  }

  lemma GroupOne(runs: seq<RunSummary>, byTask: map<string, seq<RunSummary>>, r: RunSummary)
    requires Grouped(runs, byTask)
    ensures Grouped(runs + [r],
                    byTask[Key(r) := (if Key(r) in byTask then byTask[Key(r)] else []) + [r]])
  {
    Snoc(runs, r);
    TaskHasRuns(runs, Key(r));
  }

  lemma GroupNext(runs: seq<RunSummary>, i: nat, byTask: map<string, seq<RunSummary>>)
    requires i < |runs| && Grouped(runs[..i], byTask)
    ensures var id := Key(runs[i]);
            Grouped(runs[..i + 1], byTask[id := (if id in byTask then byTask[id] else []) + [runs[i]]])
  {
    GroupOne(runs[..i], byTask, runs[i]);
    assert runs[..i + 1] == runs[..i] + [runs[i]];
  }

  lemma GroupNone()
    ensures Grouped([], map[])
  {
  }

  method GroupByTask(runs: seq<RunSummary>) returns (byTask: map<string, seq<RunSummary>>)
    ensures Grouped(runs, byTask)
  {
    hide Grouped, Key;
    byTask := map[];
    GroupNone();
    assert runs[..0] == [];
    var i := 0;
    while i < |runs|
      invariant 0 <= i <= |runs| && Grouped(runs[..i], byTask)
    {
      var id := Key(runs[i]);
      GroupNext(runs, i, byTask);
      var group := if id in byTask then byTask[id] else [];
      byTask := byTask[id := group + [runs[i]]];
      i := i + 1;
    }
    assert runs[..i] == runs;
  }

  // ----- What a row says, by the places of the runs -----

  /** The runs of task `id`; an unnamed run is of the task "(unknown)". */
  ghost function RunsOf(runs: seq<RunSummary>, id: string): set<int> {
    set i | 0 <= i < |runs| && id == if runs[i].taskId in {None, Some("")} then "(unknown)" else runs[i].taskId.value
  }

  ghost function Ended(runs: seq<RunSummary>, id: string, outcome: string): set<int> {
    set i | i in RunsOf(runs, id) && runs[i].outcome == outcome
  }

  ghost function ThoughtfulOf(runs: seq<RunSummary>, id: string): set<int> {
    set i | i in RunsOf(runs, id) && runs[i].thoughts != 0
  }

  lemma {:induction false} OfTaskCount(runs: seq<RunSummary>, id: string, p: RunSummary -> bool, q: RunSummary -> bool)
    requires forall r :: q(r) <==> Key(r) == id && p(r)
    ensures Count(OfTask(runs, id), p) == Count(runs, q)
  {
    hide Key;
    if runs != [] {
      var init, r := runs[..|runs| - 1], runs[|runs| - 1];
      OfTaskCount(init, id, p, q);
      if Key(r) == id {
        Snoc(OfTask(init, id), r);
      } else {
        assert OfTask(init, id) + [] == OfTask(init, id);
      }
    }
  }

  lemma RunsOfCount(runs: seq<RunSummary>, id: string)
    ensures |OfTask(runs, id)| == |RunsOf(runs, id)|
  {
    hide Count, OfTask;
    var q := (r: RunSummary) => Key(r) == id;
    CountAny(OfTask(runs, id));
    OfTaskCount(runs, id, Any, q);
    CountWhere(runs, q);
    assert RunsOf(runs, id) == Where(runs, q);
  }

  lemma ThoughtfulCount(runs: seq<RunSummary>, id: string)
    ensures Count(OfTask(runs, id), Thoughtful) == |ThoughtfulOf(runs, id)|
  {
    hide Count, OfTask;
    var q := (r: RunSummary) => Key(r) == id && Thoughtful(r);
    OfTaskCount(runs, id, Thoughtful, q);
    CountWhere(runs, q);
    assert ThoughtfulOf(runs, id) == Where(runs, q);
  }

  lemma EndedCount(runs: seq<RunSummary>, id: string, outcome: string, p: RunSummary -> bool)
    requires forall r :: p(r) <==> r.outcome == outcome
    ensures Count(OfTask(runs, id), p) == |Ended(runs, id, outcome)|
  {
    hide Count, OfTask;
    var q := (r: RunSummary) => Key(r) == id && p(r);
    OfTaskCount(runs, id, p, q);
    CountWhere(runs, q);
    assert Ended(runs, id, outcome) == Where(runs, q);
  }

  /** `rate` is `part` of `whole` in percent, rounded down. */
  predicate RoundedDown(rate: nat, part: nat, whole: nat) {
    rate * whole <= part * 100 < (rate + 1) * whole
  }

  /** A row read back against the runs: how many, how they ended, and the two floored shares. */
  ghost predicate RowTells(row: Row, runs: seq<RunSummary>) {
    && row.runs == |RunsOf(runs, row.taskId)| > 0
    && row.pass == |Ended(runs, row.taskId, "passed")|
    && row.fail == |Ended(runs, row.taskId, "failed")|
    && row.error == |Ended(runs, row.taskId, "error")|
    && RoundedDown(row.passRate, row.pass, row.runs)
    && RoundedDown(row.thoughtsPct, |ThoughtfulOf(runs, row.taskId)|, row.runs)
  }

  lemma RowsTell(runs: seq<RunSummary>, rows: seq<Row>, i: nat)
    requires IsTable(runs, rows) && i < |rows|
    ensures RowTells(rows[i], runs)
  {
    hide Sorted, OfTask, Tasks, Count, RowTells;
    assert Ids(rows)[i] in Elements(Ids(rows));
    RowOfTells(runs, rows[i].taskId);
  }

  lemma RowOfTells(runs: seq<RunSummary>, id: string)
    requires id in Tasks(runs)
    ensures RowTells(RowOf(id, OfTask(runs, id)), runs)
  {
    hide Sorted, OfTask, Tasks, Count, RunsOf, Ended, ThoughtfulOf;
    TaskHasRuns(runs, id);
    RunsOfCount(runs, id);
    ThoughtfulCount(runs, id);
    EndedCount(runs, id, "passed", Passed);
    EndedCount(runs, id, "failed", Failed);
    EndedCount(runs, id, "error", Errored);
  }

  method PerTaskRows(runs: seq<RunSummary>) returns (rows: seq<Row>)
    ensures IsTable(runs, rows) && forall i :: 0 <= i < |rows| ==> RowTells(rows[i], runs)
  {
    hide Sorted, Count, FloorPct, OfTask, Tasks, RowTells;
    var byTask := GroupByTask(runs);
    var ids := SortedKeys(byTask.Keys);
    rows := [];
    var i := 0;
    while i < |ids|
      invariant 0 <= i <= |ids| && |rows| == i
      invariant forall k :: 0 <= k < i ==> rows[k] == RowOf(ids[k], OfTask(runs, ids[k]))
    {
      var id := ids[i];
      assert id in Elements(ids);
      var rs := byTask[id];
      var total := |rs|;
      var passed, failed, errored := Count(rs, Passed), Count(rs, Failed), Count(rs, Errored);
      var thoughtful := Count(rs, Thoughtful);
      rows := rows + [Row(id, total, passed, failed, errored,
                          FloorPct(passed, total), FloorPct(thoughtful, total))];
      i := i + 1;
    }
    assert Ids(rows) == ids;
    forall k | 0 <= k < |rows| ensures RowTells(rows[k], runs) {
      RowsTell(runs, rows, k);
    }
  }

  /** Every row counts at least one run. */
  lemma RowsAreNotEmpty(runs: seq<RunSummary>, rows: seq<Row>, i: nat)
    requires IsTable(runs, rows) && i < |rows|
    ensures rows[i].runs > 0
  {
    var id := rows[i].taskId;
    assert Ids(rows)[i] in Elements(Ids(rows));
    TaskHasRuns(runs, id);
  }

  // ----- Conservation -----

  /** What the tasks `ids` hold, added up. */
  function Total(ids: seq<string>, runs: seq<RunSummary>, p: RunSummary -> bool): nat {
    if ids == [] then 0
    else Total(ids[..|ids| - 1], runs, p) + Count(OfTask(runs, ids[|ids| - 1]), p)
  }

  predicate Distinct(ids: seq<string>) {
    forall i, j :: 0 <= i < j < |ids| ==> ids[i] != ids[j]
  }

  lemma SortedIsDistinct(ids: seq<string>)
    requires Sorted(ids)
    ensures Distinct(ids)
  {
    forall i, j | 0 <= i < j < |ids| ensures ids[i] != ids[j] {
      Order.Total(ids[i], ids[j]);
    }
  }

  lemma {:induction false} TotalOfNothing(ids: seq<string>, p: RunSummary -> bool)
    ensures Total(ids, [], p) == 0
  {
    if ids != [] {
      TotalOfNothing(ids[..|ids| - 1], p);
    }
  }

  lemma OneMoreRun(id: string, runs: seq<RunSummary>, r: RunSummary, p: RunSummary -> bool)
    ensures Count(OfTask(runs + [r], id), p) == Count(OfTask(runs, id), p) + if Key(r) == id && p(r) then 1 else 0
  {
    Snoc(runs, r);
    var rs := OfTask(runs, id);
    Snoc(rs, r);
    assert OfTask(runs + [r], id) == if Key(r) == id then rs + [r] else rs;
  }

  lemma {:induction false} TotalSnoc(ids: seq<string>, runs: seq<RunSummary>, r: RunSummary, p: RunSummary -> bool)
    requires Distinct(ids)
    ensures Total(ids, runs + [r], p) == Total(ids, runs, p) + if Key(r) in ids && p(r) then 1 else 0
  {
    if ids != [] {
      var k := |ids| - 1;
      TotalSnoc(ids[..k], runs, r, p);
      assert ids == ids[..k] + [ids[k]];
      OneMoreRun(ids[k], runs, r, p);
    }
  }

  /** Distinct tasks that cover all runs share the runs out between them, none lost and none twice. */
  lemma {:induction false} TotalIsCount(ids: seq<string>, runs: seq<RunSummary>, p: RunSummary -> bool)
    requires Distinct(ids) && forall r :: r in runs ==> Key(r) in ids
    ensures Total(ids, runs, p) == Count(runs, p)
  {
    if runs == [] {
      TotalOfNothing(ids, p);
    } else {
      var init, r := runs[..|runs| - 1], runs[|runs| - 1];
      assert runs == init + [r];
      TotalIsCount(ids, init, p);
      TotalSnoc(ids, init, r, p);
    }
  }

  function SumRuns(rows: seq<Row>): nat {
    if rows == [] then 0 else SumRuns(rows[..|rows| - 1]) + rows[|rows| - 1].runs
  }

  function SumPass(rows: seq<Row>): nat {
    if rows == [] then 0 else SumPass(rows[..|rows| - 1]) + rows[|rows| - 1].pass
  }

  ghost predicate Counts(rows: seq<Row>, runs: seq<RunSummary>) {
    forall i :: 0 <= i < |rows| ==> rows[i] == RowOf(rows[i].taskId, OfTask(runs, rows[i].taskId))
  }

  lemma {:induction false} SumsAreTotals(rows: seq<Row>, runs: seq<RunSummary>)
    requires Counts(rows, runs)
    ensures SumRuns(rows) == Total(Ids(rows), runs, Any) && SumPass(rows) == Total(Ids(rows), runs, Passed)
  {
    if rows != [] {
      var k := |rows| - 1;
      SumsAreTotals(rows[..k], runs);
      assert Ids(rows)[..k] == Ids(rows[..k]);
      CountAny(OfTask(runs, rows[k].taskId));
    }
  }

  lemma TableCovers(runs: seq<RunSummary>, rows: seq<Row>)
    requires IsTable(runs, rows)
    ensures Distinct(Ids(rows)) && forall r :: r in runs ==> Key(r) in Ids(rows)
  {
    SortedIsDistinct(Ids(rows));
    forall r | r in runs ensures Key(r) in Ids(rows) {
      TaskHasRuns(runs, Key(r));
    }
  }

  /** The rows' runs and passes add up to the overall counts, over distinct tasks. */
  lemma RowsConserveTotals(runs: seq<RunSummary>, rows: seq<Row>)
    requires IsTable(runs, rows)
    ensures Distinct(Ids(rows))
    ensures SumRuns(rows) == |runs| && SumPass(rows) == Count(runs, Passed)
  {
    TableCovers(runs, rows);
    SumsAreTotals(rows, runs);
    TotalIsCount(Ids(rows), runs, Any);
    TotalIsCount(Ids(rows), runs, Passed);
    CountAny(runs);
  }

  // ----- Overall -----

  function SumThoughts(runs: seq<RunSummary>): nat {
    if runs == [] then 0 else SumThoughts(runs[..|runs| - 1]) + runs[|runs| - 1].thoughts
  }

  function AllEgress(runs: seq<RunSummary>): seq<bool> {
    if runs == [] then [] else AllEgress(runs[..|runs| - 1]) + runs[|runs| - 1].egress
  }

  function CountOf(flags: seq<bool>, b: bool): (r: nat)
    ensures r <= |flags|
  {
    if flags == [] then 0 else CountOf(flags[..|flags| - 1], b) + if flags[|flags| - 1] == b then 1 else 0
  }

  lemma {:induction false} AllowedOrDenied(flags: seq<bool>)
    ensures CountOf(flags, true) + CountOf(flags, false) == |flags|
  {
    if flags != [] {
      AllowedOrDenied(flags[..|flags| - 1]);
    }
  }

  /** Denied attempts are found by subtraction; they are the attempts whose flag is off. */
  function OverallMetrics(runs: seq<RunSummary>): (m: Metrics)
    ensures m.egressDenied == CountOf(AllEgress(runs), false)
  {
    AllowedOrDenied(AllEgress(runs));
    var total, passed, thoughtful := |runs|, Count(runs, Passed), Count(runs, Thoughtful);
    var attempts, allowed := |AllEgress(runs)|, CountOf(AllEgress(runs), true);
    Metrics(total, passed, FloorPct(passed, total),
            SumThoughts(runs), thoughtful, FloorPct(thoughtful, total),
            attempts, allowed, attempts - allowed)
  }

  // ----- What the overall line says, by the places of runs and attempts -----

  ghost function Having(runs: seq<RunSummary>, outcome: string): set<int> {
    set i | 0 <= i < |runs| && runs[i].outcome == outcome
  }

  ghost function WithThoughts(runs: seq<RunSummary>): set<int> {
    set i | 0 <= i < |runs| && runs[i].thoughts != 0
  }

  /** Thought number `k` of run `i`. */
  ghost function ThoughtPlaces(runs: seq<RunSummary>): (s: set<(int, int)>)
    ensures forall x :: x in s <==> 0 <= x.0 < |runs| && 0 <= x.1 < runs[x.0].thoughts
  {
    set i, k | 0 <= i < |runs| && 0 <= k < runs[i].thoughts :: (i, k)
  }

  /** Attempt number `k` of run `i`, with flag `b`. */
  ghost function AttemptPlaces(runs: seq<RunSummary>, b: bool): (s: set<(int, int)>)
    ensures forall x :: x in s <==> 0 <= x.0 < |runs| && 0 <= x.1 < |runs[x.0].egress| && runs[x.0].egress[x.1] == b
  {
    set i, k | 0 <= i < |runs| && 0 <= k < |runs[i].egress| && runs[i].egress[k] == b :: (i, k)
  }

  lemma HavingCount(runs: seq<RunSummary>)
    ensures Count(runs, Passed) == |Having(runs, "passed")| && Count(runs, Thoughtful) == |WithThoughts(runs)|
  {
    hide Count;
    CountWhere(runs, Passed);
    CountWhere(runs, Thoughtful);
    assert Having(runs, "passed") == Where(runs, Passed);
    assert WithThoughts(runs) == Where(runs, Thoughtful);
  }

  lemma {:induction false} Numbers(n: int, t: nat)
    ensures |ThoughtsAt(n, t)| == t
  {
    hide ThoughtsAt;
    if t == 0 {
      assert ThoughtsAt(n, t) == {};
    } else {
      Numbers(n, t - 1);
      assert ThoughtsAt(n, t) == ThoughtsAt(n, t - 1) + {(n, t - 1)};
    }
  }

  ghost function ThoughtsAt(n: int, t: nat): (s: set<(int, int)>)
    ensures forall x :: x in s <==> x.0 == n && 0 <= x.1 < t
  {
    set k | 0 <= k < t :: (n, k)
  }

  ghost function FlagsAt(n: int, flags: seq<bool>, b: bool): (s: set<(int, int)>)
    ensures forall x :: x in s <==> x.0 == n && 0 <= x.1 < |flags| && flags[x.1] == b
  {
    set k | 0 <= k < |flags| && flags[k] == b :: (n, k)
  }

  lemma {:induction false} ThoughtsCount(runs: seq<RunSummary>)
    ensures SumThoughts(runs) == |ThoughtPlaces(runs)|
  {
    hide ThoughtPlaces, ThoughtsAt;
    if runs == [] {
      assert ThoughtPlaces(runs) == {};
    } else {
      var n := |runs| - 1;
      ThoughtsCount(runs[..n]);
      Numbers(n, runs[n].thoughts);
      var before, more := ThoughtPlaces(runs[..n]), ThoughtsAt(n, runs[n].thoughts);
      assert ThoughtPlaces(runs) == before + more && before !! more;
    }
  }

  lemma {:induction false} FlagCount(n: int, flags: seq<bool>, b: bool)
    ensures |FlagsAt(n, flags, b)| == CountOf(flags, b)
  {
    hide FlagsAt;
    if flags == [] {
      assert FlagsAt(n, flags, b) == {};
    } else {
      var m := |flags| - 1;
      FlagCount(n, flags[..m], b);
      var before := FlagsAt(n, flags[..m], b);
      if flags[m] == b {
        assert FlagsAt(n, flags, b) == before + {(n, m)} && (n, m) !in before;
      } else {
        assert FlagsAt(n, flags, b) == before;
      }
    }
  }

  lemma {:induction false} AttemptsCount(runs: seq<RunSummary>, b: bool)
    ensures CountOf(AllEgress(runs), b) == |AttemptPlaces(runs, b)|
  {
    hide AttemptPlaces, FlagsAt;
    if runs == [] {
      assert AttemptPlaces(runs, b) == {};
    } else {
      var n := |runs| - 1;
      var flags := runs[n].egress;
      AttemptsCount(runs[..n], b);
      CountOfAppend(AllEgress(runs[..n]), flags, b);
      FlagCount(n, flags, b);
      hide CountOf;
      PlacesOfLast(runs, b);
    }
  }

  lemma PlacesOfLast(runs: seq<RunSummary>, b: bool)
    requires runs != []
    ensures var n := |runs| - 1;
      var before, more := AttemptPlaces(runs[..n], b), FlagsAt(n, runs[n].egress, b);
      AttemptPlaces(runs, b) == before + more && before !! more
  {
    hide AttemptPlaces, FlagsAt;
    var n := |runs| - 1;
    var before, more := AttemptPlaces(runs[..n], b), FlagsAt(n, runs[n].egress, b);
    forall x ensures x in AttemptPlaces(runs, b) <==> x in before + more {
      if 0 <= x.0 < n {
        assert runs[..n][x.0] == runs[x.0];
      }
    }
  }

  /** The overall line read back against the runs. */
  ghost predicate MetricsTell(m: Metrics, runs: seq<RunSummary>) {
    && m.totalRuns == |runs| && m.totalPassed == |Having(runs, "passed")|
    && m.totalThoughts == |ThoughtPlaces(runs)| && m.runsWithThoughts == |WithThoughts(runs)|
    && m.egressAllowed == |AttemptPlaces(runs, true)| && m.egressDenied == |AttemptPlaces(runs, false)|
    && m.totalEgress == m.egressAllowed + m.egressDenied
    && (runs == [] ==> m.passRate == m.thoughtsPct == 0)
    && (runs != [] ==> RoundedDown(m.passRate, m.totalPassed, |runs|))
    && (runs != [] ==> RoundedDown(m.thoughtsPct, m.runsWithThoughts, |runs|))
  }

  lemma OverallTells(runs: seq<RunSummary>)
    ensures MetricsTell(OverallMetrics(runs), runs)
  {
    HavingCount(runs);
    ThoughtsCount(runs);
    AttemptsCount(runs, true);
    AttemptsCount(runs, false);
    AllowedOrDenied(AllEgress(runs));
    hide Count, SumThoughts, AllEgress, CountOf, Having, WithThoughts, ThoughtPlaces, AttemptPlaces;
  }

  /** If each task's share is at least `lo` percent, floored, so is the whole; likewise at most `hi`. */
  ghost predicate Share(ids: seq<string>, runs: seq<RunSummary>, p: RunSummary -> bool, lo: int, hi: int) {
    forall i :: 0 <= i < |ids| ==>
      var rs := OfTask(runs, ids[i]);
      rs != [] && lo <= FloorPct(Count(rs, p), |rs|) <= hi
  }

  lemma {:induction false} SharesAddUp(ids: seq<string>, runs: seq<RunSummary>, p: RunSummary -> bool, lo: int, hi: int)
    requires Share(ids, runs, p, lo, hi)
    ensures lo * Total(ids, runs, Any) <= 100 * Total(ids, runs, p)
    ensures ids != [] ==> 100 * Total(ids, runs, p) < (hi + 1) * Total(ids, runs, Any)
  {
    if ids != [] {
      var k := |ids| - 1;
      var rs := OfTask(runs, ids[k]);
      var part, n := Count(rs, p), |rs|;
      assert Share(ids[..k], runs, p, lo, hi);
      SharesAddUp(ids[..k], runs, p, lo, hi);
      CountAny(rs);
      OneShare(lo, hi, FloorPct(part, n), part, n);
      AddShares(lo, hi, Total(ids[..k], runs, p), Total(ids[..k], runs, Any), part, n);
    }
  }

  lemma AddShares(lo: int, hi: int, part: nat, n: nat, more: nat, m: nat)
    ensures lo * n <= 100 * part && lo * m <= 100 * more ==> lo * (n + m) <= 100 * (part + more)
    ensures 100 * part <= (hi + 1) * n && 100 * more < (hi + 1) * m ==> 100 * (part + more) < (hi + 1) * (n + m)
  {
    assert lo * (n + m) == lo * n + lo * m;
    assert (hi + 1) * (n + m) == (hi + 1) * n + (hi + 1) * m;
  }

  lemma OneShare(lo: int, hi: int, rate: nat, part: nat, n: nat)
    requires lo <= rate <= hi && rate * n <= part * 100 < (rate + 1) * n
    ensures lo * n <= 100 * part < (hi + 1) * n
  {
    Monotone(lo, rate, n);
    Monotone(rate + 1, hi + 1, n);
  }

  lemma FloorBetween(lo: int, hi: int, part: nat, n: nat)
    requires n > 0 && lo * n <= 100 * part < (hi + 1) * n
    ensures lo <= FloorPct(part, n) <= hi
  {
    var r := FloorPct(part, n);
    Cancel(lo, r + 1, n);
    Cancel(r, hi + 1, n);
  }

  lemma OverallIsBetween(runs: seq<RunSummary>, rows: seq<Row>, p: RunSummary -> bool, lo: int, hi: int)
    requires runs != [] && IsTable(runs, rows)
    requires forall i :: 0 <= i < |rows| ==>
               lo <= FloorPct(Count(OfTask(runs, rows[i].taskId), p), |OfTask(runs, rows[i].taskId)|) <= hi
    ensures lo <= FloorPct(Count(runs, p), |runs|) <= hi
  {
    var ids := Ids(rows);
    forall i | 0 <= i < |ids| ensures OfTask(runs, ids[i]) != [] {
      RowsAreNotEmpty(runs, rows, i);
    }
    TableCovers(runs, rows);
    assert Key(runs[0]) in ids;
    SharesAddUp(ids, runs, p, lo, hi);
    TotalIsCount(ids, runs, p);
    TotalIsCount(ids, runs, Any);
    CountAny(runs);
    FloorBetween(lo, hi, Count(runs, p), |runs|);
  }

  /** The overall pass rate lies between the smallest and the largest row's. */
  lemma PassRateIsBetweenRows(runs: seq<RunSummary>, rows: seq<Row>, lo: int, hi: int)
    requires runs != [] && IsTable(runs, rows)
    requires forall i :: 0 <= i < |rows| ==> lo <= rows[i].passRate <= hi
    ensures lo <= OverallMetrics(runs).passRate <= hi
  {
    OverallIsBetween(runs, rows, Passed, lo, hi);
  }

  /** So does the share of runs with a recorded thought. */
  lemma ThoughtsPctIsBetweenRows(runs: seq<RunSummary>, rows: seq<Row>, lo: int, hi: int)
    requires runs != [] && IsTable(runs, rows)
    requires forall i :: 0 <= i < |rows| ==> lo <= rows[i].thoughtsPct <= hi
    ensures lo <= OverallMetrics(runs).thoughtsPct <= hi
  {
    OverallIsBetween(runs, rows, Thoughtful, lo, hi);
  }
}
