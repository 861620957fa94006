/** `prehnite compare`: two snapshots, read from a directory or from a saved `stats --json` payload. */
module Compare {
  import opened Events
  import opened Order
  import opened Stats

  datatype Status = Regression | Improvement | Unchanged | New | Dropped

  datatype Diff = Diff(taskId: string, status: Status, a: Option<Row>, b: Option<Row>, delta: Option<int>)

  /** What `compare` keeps of a snapshot: its rows by task, and the overall line. */
  type Table = map<string, Row>

  datatype Overall = Overall(totalRuns: nat, totalPassed: nat, passRate: nat)

  /** The `stats --json` object. The failure reasons are not part of this model. */
  datatype Payload = Payload(metrics: Metrics, byTask: seq<Row>)

  /** A trajectory file as the directory scan finds it; None when it cannot be parsed. */
  type Scan = seq<Option<seq<Event>>>

  // ----- Snapshots -----

  function TableOf(runs: seq<RunSummary>): Table {
    map id | id in Tasks(runs) :: RowOf(id, OfTask(runs, id))
  }

  function OverallOf(runs: seq<RunSummary>): Overall {
    var m := OverallMetrics(runs);
    Overall(m.totalRuns, m.totalPassed, m.passRate)
  }

  /** `{row["task_id"]: row for row in rows}`: a later row replaces an earlier one. */
  function ByTask(rows: seq<Row>): Table {
    if rows == [] then map[]
    else
      var row := rows[|rows| - 1];
      ByTask(rows[..|rows| - 1])[row.taskId := row]
  }

  lemma {:induction false} ByTaskKeys(rows: seq<Row>)
    ensures ByTask(rows).Keys == Elements(Ids(rows))
  {
    if rows == [] {
      assert Elements(Ids(rows)) == {};
    } else {
      var k := |rows| - 1;
      ByTaskKeys(rows[..k]);
      assert Ids(rows) == Ids(rows[..k]) + [rows[k].taskId];
      hide Ids, ByTask;
      assert Elements(Ids(rows)) == Elements(Ids(rows[..k])) + {rows[k].taskId};
    }
  }

  /** Of several rows of one task, the last one counts. */
  lemma {:induction false} ByTaskIsLast(rows: seq<Row>, i: nat)
    requires i < |rows| && forall j :: i < j < |rows| ==> rows[j].taskId != rows[i].taskId
    ensures rows[i].taskId in ByTask(rows) && ByTask(rows)[rows[i].taskId] == rows[i]
  {
    var k := |rows| - 1;
    if i < k {
      assert forall j :: i < j < k ==> rows[..k][j] == rows[j];
      ByTaskIsLast(rows[..k], i);
    }
  }

  /** Reading the rows of a table back by task gives each task's own row. */
  lemma RowsMakeTheTable(runs: seq<RunSummary>, rows: seq<Row>)
    requires IsTable(runs, rows)
    ensures ByTask(rows) == TableOf(runs)
  {
    hide Sorted, OfTask, Tasks, RowOf, ByTask, Distinct;
    SortedIsDistinct(Ids(rows));
    ByTaskKeys(rows);
    forall id | id in Tasks(runs) ensures ByTask(rows)[id] == TableOf(runs)[id] {
      assert id in Elements(Ids(rows));
      var i :| 0 <= i < |rows| && Ids(rows)[i] == id;
      OnlyRowOf(rows, i);
      ByTaskIsLast(rows, i);
    }
  }

  lemma OnlyRowOf(rows: seq<Row>, i: nat)
    requires Distinct(Ids(rows)) && i < |rows|
    ensures forall j :: i < j < |rows| ==> rows[j].taskId != rows[i].taskId
  {
    assert forall j :: i < j < |rows| ==> Ids(rows)[j] == rows[j].taskId;
  }

  ghost predicate Summarized(files: Scan, runs: seq<RunSummary>) {
    if files == [] then runs == []
    else
      var init, last := files[..|files| - 1], files[|files| - 1];
      if last == None then Summarized(init, runs)
      else
        && runs != []
        && Summarized(init, runs[..|runs| - 1])
        && Summarizes(last.value, runs[|runs| - 1])
  }

  lemma {:induction false} SummarizedOnce(files: Scan, runs: seq<RunSummary>, again: seq<RunSummary>)
    requires Summarized(files, runs) && Summarized(files, again)
    ensures runs == again
  {
    if files != [] {
      var init, last := files[..|files| - 1], files[|files| - 1];
      if last == None {
        SummarizedOnce(init, runs, again);
      } else {
        SummarizedOnce(init, runs[..|runs| - 1], again[..|again| - 1]);
        assert runs == runs[..|runs| - 1] + [runs[|runs| - 1]];
        assert again == again[..|again| - 1] + [again[|again| - 1]];
      }
    }
  }

  /** `--task`: keep the runs of that very name; no filter when it is empty. */
  function Selected(runs: seq<RunSummary>, task: string): seq<RunSummary> {
    if runs == [] then []
    else
      var last := runs[|runs| - 1];
      Selected(runs[..|runs| - 1], task) + if task != "" && last.taskId != Some(task) then [] else [last]
  }

  lemma {:induction false} SelectedAll(runs: seq<RunSummary>)
    ensures Selected(runs, "") == runs
  {
    if runs != [] {
      SelectedAll(runs[..|runs| - 1]);
      assert runs == runs[..|runs| - 1] + [runs[|runs| - 1]];
    }
  }

  /** No unnamed run is grouped with the runs of `task`. */
  predicate AllNamed(runs: seq<RunSummary>, task: string) {
    forall i :: 0 <= i < |runs| ==> Key(runs[i]) == task ==> runs[i].taskId == Some(task)
  }

  lemma {:induction false} SelectedIsOneTask(runs: seq<RunSummary>, task: string)
    requires task != ""
    ensures |Selected(runs, task)| <= |OfTask(runs, task)|
    ensures Tasks(Selected(runs, task)) <= {task}
    ensures OfTask(Selected(runs, task), task) == Selected(runs, task)
  {
    if runs != [] {
      var init, last := runs[..|runs| - 1], runs[|runs| - 1];
      SelectedIsOneTask(init, task);
      Snoc(Selected(init, task), last);
      assert Selected(init, task) + [] == Selected(init, task);
    }
  }

  lemma SelectedStep(init: seq<RunSummary>, last: RunSummary, task: string)
    requires task != "" && |Selected(init, task)| <= |OfTask(init, task)|
    requires Selected(init, task) == OfTask(init, task) <==> AllNamed(init, task)
    ensures Selected(init + [last], task) == OfTask(init + [last], task) <==> AllNamed(init + [last], task)
  {
    var runs := init + [last];
    Snoc(init, last);
    var chosen, grouped := Selected(init, task), OfTask(init, task);
    assert Selected(runs, task) == if last.taskId == Some(task) then chosen + [last] else chosen;
    assert OfTask(runs, task) == if Key(last) == task then grouped + [last] else grouped;
    hide Selected, OfTask;
    Shorter(chosen, grouped, last);
    assert runs[|init|] == last;
    assert forall i :: 0 <= i < |init| ==> runs[i] == init[i];
  }

  lemma {:induction false} SelectedIsTask(runs: seq<RunSummary>, task: string)
    requires task != ""
    ensures Selected(runs, task) == OfTask(runs, task) <==> AllNamed(runs, task)
  {
    if runs != [] {
      var init, last := runs[..|runs| - 1], runs[|runs| - 1];
      SelectedIsTask(init, task);
      SelectedIsOneTask(init, task);
      assert runs == init + [last];
      hide Selected, OfTask, AllNamed;
      SelectedStep(init, last, task);
    }
  }

  lemma Shorter<T>(s: seq<T>, t: seq<T>, x: T)
    requires |s| <= |t|
    ensures s != t + [x] && (s + [x] == t + [x] <==> s == t)
  {
    Snoc(s, x);
    Snoc(t, x);
  }

  function Cut(t: Table, task: string): Table {
    map id | id in t && id == task :: t[id]
  }

  lemma NamedIff(runs: seq<RunSummary>, task: string)
    requires task != ""
    ensures AllNamed(runs, task) <==>
            (task != UNKNOWN || forall r :: r in runs ==> r.taskId != None && r.taskId != Some(""))
  {
  }

  lemma SameRow(runs: seq<RunSummary>, task: string)
    requires task != "" && AllNamed(runs, task)
    ensures TableOf(Selected(runs, task)) == Cut(TableOf(runs), task)
  {
    var chosen := Selected(runs, task);
    SelectedIsTask(runs, task);
    SelectedIsOneTask(runs, task);
    TaskHasRuns(runs, task);
    TaskHasRuns(chosen, task);
    hide Selected, OfTask, Tasks, AllNamed, RowOf;
  }

  lemma DifferentRow(runs: seq<RunSummary>, task: string)
    requires task != "" && !AllNamed(runs, task)
    ensures TableOf(Selected(runs, task)) != Cut(TableOf(runs), task)
  {
    SelectedIsTask(runs, task);
    SelectedIsOneTask(runs, task);
    if |Selected(runs, task)| == |OfTask(runs, task)| {
      SameLengthIsSame(runs, task);
    }
    hide Selected, OfTask;
    TaskHasRuns(runs, task);
    assert Cut(TableOf(runs), task)[task].runs == |OfTask(runs, task)|;
    if task in TableOf(Selected(runs, task)) {
      assert TableOf(Selected(runs, task))[task].runs == |Selected(runs, task)|;
    }
  }

  lemma {:induction false} SameLengthIsSame(runs: seq<RunSummary>, task: string)
    requires task != "" && |Selected(runs, task)| == |OfTask(runs, task)|
    ensures Selected(runs, task) == OfTask(runs, task)
  {
    if runs != [] {
      SelectedIsOneTask(runs[..|runs| - 1], task);
      SameLengthIsSame(runs[..|runs| - 1], task);
    }
  }

  /**
   * A filtered table is the full table cut down to that task, unless the name asked for is the one
   * unnamed runs are shown under: those are grouped there but the filter does not find them.
   */
  lemma FilteredTableIff(runs: seq<RunSummary>, task: string)
    requires task != ""
    ensures TableOf(Selected(runs, task)) == Cut(TableOf(runs), task) <==>
            (task != UNKNOWN || forall r :: r in runs ==> r.taskId != None && r.taskId != Some(""))
  {
    NamedIff(runs, task);
    hide TableOf, Cut, AllNamed;
    if AllNamed(runs, task) {
      SameRow(runs, task);
    } else {
      DifferentRow(runs, task);
    }
  }

  /** One unnamed run: the table shows it as "(unknown)", and `--task "(unknown)"` finds nothing. */
  lemma UnnamedRunIsNotFound(r: RunSummary)
    requires r.taskId == None
    ensures Selected([r], UNKNOWN) == [] && UNKNOWN in TableOf([r])
    ensures TableOf(Selected([r], UNKNOWN)) != Cut(TableOf([r]), UNKNOWN)
  {
    assert [r][..0] == [] && r in [r];
    FilteredTableIff([r], UNKNOWN);
  }

  lemma OneMoreFile(files: Scan, all: seq<RunSummary>, events: seq<Event>, r: RunSummary, task: string)
    requires Summarized(files, all) && Summarizes(events, r)
    ensures Summarized(files + [Some(events)], all + [r])
    ensures Selected(all + [r], task) == Selected(all, task) + if task != "" && r.taskId != Some(task) then [] else [r]
  {
    Snoc(files, Some(events));
    Snoc(all, r);
  }

  lemma Nothing(task: string)
    ensures Summarized([], []) && Selected([], task) == []
  {
  }

  lemma OneBadFile(files: Scan, all: seq<RunSummary>)
    requires Summarized(files, all)
    ensures Summarized(files + [None], all)
  {
    Snoc(files, None);
  }

  /** The scan both commands share: an unreadable file is skipped. */
  method ReadRuns(files: Scan, task: string) returns (runs: seq<RunSummary>)
    ensures exists all :: Summarized(files, all) && runs == Selected(all, task)
  {
    runs := [];
    ghost var all: seq<RunSummary> := [];
    hide Summarized, Summarizes, Selected;
    assert files[..0] == [];
    assert Summarized(files[..0], all) && runs == Selected(all, task) by { Nothing(task); }
    var i := 0;
    while i < |files|
      invariant 0 <= i <= |files| && Summarized(files[..i], all) && runs == Selected(all, task)
    {
      assert files[..i + 1] == files[..i] + [files[i]];
      if files[i] == None {
        OneBadFile(files[..i], all);
      } else {
        var r := Summarize(files[i].value);
        OneMoreFile(files[..i], all, files[i].value, r, task);
        all := all + [r];
        if !(task != "" && r.taskId != Some(task)) {
          runs := runs + [r];
        }
      }
      i := i + 1;
    }
    assert files[..i] == files;
  }

  const NO_METRICS := Metrics(0, 0, 0, 0, 0, 0, 0, 0, 0)

  /** `p` is what `stats --json` prints for the files. */
  ghost predicate Saves(files: Scan, task: string, p: Payload) {
    exists all :: Summarized(files, all) && IsPayload(Selected(all, task), p)
  }

  ghost predicate IsPayload(runs: seq<RunSummary>, p: Payload) {
    IsTable(runs, p.byTask) && p.metrics == OverallMetrics(runs)
  }

  /** `prehnite stats DIR --json [--task]`; with no runs, a payload of the same shape holding zeros. */
  method StatsPayload(files: Scan, task: string) returns (p: Payload)
    ensures Saves(files, task, p)
  {
    var runs := ReadRuns(files, task);
    if runs == [] {
      p := Payload(NO_METRICS, []);
      NoRunsNoRows();
    } else {
      var rows := PerTaskRows(runs);
      p := Payload(OverallMetrics(runs), rows);
    }
  }

  lemma NoRunsNoRows()
    ensures IsTable([], []) && ByTask([]) == TableOf([]) && OverallMetrics([]) == NO_METRICS
  {
    assert Elements(Ids([])) == {};
    assert TableOf([]) == map[];
  }

  datatype Input = Missing | SavedPayload(payload: Payload) | Directory(files: Scan)

  ghost predicate Loads(input: Input, r: Option<(Table, Overall)>) {
    match input
    case Missing => r == None
    case SavedPayload(p) =>
      r == Some((ByTask(p.byTask), Overall(p.metrics.totalRuns, p.metrics.totalPassed, p.metrics.passRate)))
    case Directory(files) =>
      exists runs :: Summarized(files, runs) && r == Some((TableOf(runs), OverallOf(runs)))
  }

  /** The dict comprehension over rows that both branches below end with. */
  method IndexRows(rows: seq<Row>) returns (byTask: Table)
    ensures byTask == ByTask(rows)
  {
    byTask := map[];
    var i := 0;
    while i < |rows|
      invariant 0 <= i <= |rows| && byTask == ByTask(rows[..i])
    {
      assert rows[..i + 1][..i] == rows[..i];
      byTask := byTask[rows[i].taskId := rows[i]];
      i := i + 1;
    }
    assert rows[..i] == rows;
  }

  /** A table and an overall line read back against the runs. */
  ghost predicate TableTells(runs: seq<RunSummary>, table: Table, overall: Overall) {
    && overall.totalRuns == |runs| && overall.totalPassed == |Having(runs, "passed")|
    && (runs != [] ==> RoundedDown(overall.passRate, overall.totalPassed, |runs|))
    && (forall id :: id in table <==> RunsOf(runs, id) != {})
    && forall id :: id in table ==> table[id].taskId == id && RowTells(table[id], runs)
  }

  lemma TableOfTells(runs: seq<RunSummary>)
    ensures TableTells(runs, TableOf(runs), OverallOf(runs))
  {
    OverallTells(runs);
    hide RowTells, RoundedDown, Having, OverallMetrics, RunsOf, Tasks, OfTask, RowOf;
    forall id
      ensures id in Tasks(runs) <==> RunsOf(runs, id) != {}
      ensures RowOf(id, OfTask(runs, id)).taskId == id
      ensures id in Tasks(runs) ==> RowTells(RowOf(id, OfTask(runs, id)), runs)
    {
      TaskHasRuns(runs, id);
      RunsOfCount(runs, id);
      RowName(id, OfTask(runs, id));
      if id in Tasks(runs) {
        RowOfTells(runs, id);
      }
    }
  }

  lemma RowName(id: string, rs: seq<RunSummary>)
    ensures RowOf(id, rs).taskId == id
  {
  }

  /** A loaded snapshot read back: from a payload, its numbers; from a directory, those of the readable runs. */
  ghost predicate LoadTells(input: Input, table: Table, overall: Overall) {
    match input
    case Missing => false
    case SavedPayload(p) =>
      && overall.totalRuns == p.metrics.totalRuns && overall.totalPassed == p.metrics.totalPassed
      && overall.passRate == p.metrics.passRate
      && (forall id :: id in table <==> exists i :: 0 <= i < |p.byTask| && p.byTask[i].taskId == id)
    case Directory(files) => exists runs :: Summarized(files, runs) && TableTells(runs, table, overall)
  }

  lemma RowsNamed(rows: seq<Row>)
    ensures forall id :: id in ByTask(rows) <==> exists i :: 0 <= i < |rows| && rows[i].taskId == id
  {
    ByTaskKeys(rows);
    hide ByTask, Ids;
    forall id ensures id in ByTask(rows) <==> exists i :: 0 <= i < |rows| && rows[i].taskId == id {
      assert id in ByTask(rows) <==> id in Elements(Ids(rows));
      if i :| 0 <= i < |rows| && rows[i].taskId == id {
        assert Ids(rows)[i] == id;
      }
    }
  }

  lemma LoadedTells(input: Input, r: (Table, Overall))
    requires Loads(input, Some(r))
    ensures LoadTells(input, r.0, r.1)
  {
    hide Summarized, TableTells, TableOf, OverallOf, ByTask;
    match input
    case Missing =>
    case SavedPayload(p) => RowsNamed(p.byTask);
    case Directory(files) =>
      var runs :| Summarized(files, runs) && Some(r) == Some((TableOf(runs), OverallOf(runs)));
      TableOfTells(runs);
  }

  /** None is the FileNotFoundError the command turns into exit code 2. */
  method LoadSnapshot(input: Input) returns (r: Option<(Table, Overall)>)
    ensures Loads(input, r)
    ensures r.Some? ==> LoadTells(input, r.value.0, r.value.1)
  {
    r := LoadTable(input);
    hide Loads, LoadTells;
    if r.Some? {
      LoadedTells(input, r.value);
    }
  }

  /** The three branches of the loader. */
  method LoadTable(input: Input) returns (r: Option<(Table, Overall)>)
    ensures Loads(input, r)
  {
    match input
    case Missing =>
      r := None;
    case SavedPayload(payload) =>
      var byTask := IndexRows(payload.byTask);
      var m := payload.metrics;
      r := Some((byTask, Overall(m.totalRuns, m.totalPassed, m.passRate)));
    case Directory(files) =>
      var runs := ReadRuns(files, "");
      ghost var all :| Summarized(files, all) && runs == Selected(all, "");
      SelectedAll(all);
      var rows: seq<Row>, overall := [], Overall(0, 0, 0);
      if runs == [] {
        NoRunsNoRows();
      } else {
        rows := PerTaskRows(runs);
        var m := OverallMetrics(runs);
        overall := Overall(m.totalRuns, m.totalPassed, m.passRate);
      }
      var byTask := IndexRows(rows);
      RowsMakeTheTable(runs, rows);
      r := Some((byTask, overall));
  }

  /** Loading a directory's own saved statistics is loading the directory. */
  lemma SavedIsDirect(files: Scan, p: Payload, saved: Option<(Table, Overall)>, direct: Option<(Table, Overall)>)
    requires Saves(files, "", p) && Loads(SavedPayload(p), saved) && Loads(Directory(files), direct)
    ensures saved == direct
  {
    var runs :| Summarized(files, runs) && IsPayload(Selected(runs, ""), p);
    SelectedAll(runs);
    var again :| Summarized(files, again) && direct == Some((TableOf(again), OverallOf(again)));
    SummarizedOnce(files, runs, again);
    RowsMakeTheTable(runs, p.byTask);
  }

  // ----- The diff -----

  function DiffOf(id: string, a: Table, b: Table): Diff
    requires id in a || id in b
  {
    if id !in a then Diff(id, New, None, Some(b[id]), None)
    else if id !in b then Diff(id, Dropped, Some(a[id]), None, None)
    else
      var delta := b[id].passRate as int - a[id].passRate;
      Diff(id,
           if delta < 0 then Regression else if delta > 0 then Improvement else Unchanged,
           Some(a[id]), Some(b[id]), Some(delta))
  }

  function DiffIds(diffs: seq<Diff>): (r: seq<string>)
    ensures |r| == |diffs| && forall i :: 0 <= i < |diffs| ==> r[i] == diffs[i].taskId
  {
    seq(|diffs|, i requires 0 <= i < |diffs| => diffs[i].taskId)
  }

  ghost predicate IsDiff(a: Table, b: Table, diffs: seq<Diff>) {
    && Sorted(DiffIds(diffs))
    && Elements(DiffIds(diffs)) == a.Keys + b.Keys
    && forall i :: 0 <= i < |diffs| ==>
         (diffs[i].taskId in a || diffs[i].taskId in b) && diffs[i] == DiffOf(diffs[i].taskId, a, b)
  }

  /** A line holds the two rows of its task, and says by how much and which way the rate moved. */
  predicate Tells(d: Diff, a: Table, b: Table) {
    && d.a == (if d.taskId in a then Some(a[d.taskId]) else None)
    && d.b == (if d.taskId in b then Some(b[d.taskId]) else None)
    && (d.delta == None <==> d.a == None || d.b == None)
    && (d.a.Some? && d.b.Some? ==>
          && d.a.value.passRate + d.delta.value == d.b.value.passRate
          && (d.status == Regression <==> d.delta.value < 0)
          && (d.status == Improvement <==> d.delta.value > 0)
          && (d.status == Unchanged <==> d.delta.value == 0))
    && (d.status == New <==> d.a == None) && (d.status == Dropped <==> d.b == None && d.a.Some?)
  }

  lemma LinesTell(a: Table, b: Table, diffs: seq<Diff>)
    requires IsDiff(a, b, diffs)
    ensures forall i :: 0 <= i < |diffs| ==> Tells(diffs[i], a, b)
    ensures forall id :: id in a || id in b ==> exists i :: 0 <= i < |diffs| && diffs[i].taskId == id
  {
    hide Sorted;
    forall id | id in a || id in b ensures exists i :: 0 <= i < |diffs| && diffs[i].taskId == id {
      assert id in Elements(DiffIds(diffs));
      var i :| 0 <= i < |diffs| && DiffIds(diffs)[i] == id;
    }
  }

  method DiffSnapshots(a: Table, b: Table) returns (diffs: seq<Diff>)
    ensures IsDiff(a, b, diffs) && forall i :: 0 <= i < |diffs| ==> Tells(diffs[i], a, b)
  {
    hide Sorted;
    var ids := SortedKeys(a.Keys + b.Keys);
    diffs := [];
    var i := 0;
    while i < |ids|
      invariant 0 <= i <= |ids| && |diffs| == i
      invariant forall k :: 0 <= k < i ==> (ids[k] in a || ids[k] in b) && diffs[k] == DiffOf(ids[k], a, b)
    {
      var id := ids[i];
      assert id in Elements(ids);
      if id !in a && id in b {
        diffs := diffs + [Diff(id, New, None, Some(b[id]), None)];
      } else if id !in b && id in a {
        diffs := diffs + [Diff(id, Dropped, Some(a[id]), None, None)];
      } else {
        var delta := b[id].passRate as int - a[id].passRate;
        var status := Unchanged;
        if delta < 0 {
          status := Regression;
        } else if delta > 0 {
          status := Improvement;
        }
        diffs := diffs + [Diff(id, status, Some(a[id]), Some(b[id]), Some(delta))];
      }
      i := i + 1;
    }
    assert DiffIds(diffs) == ids;
    hide DiffOf, Tells, DiffIds;
    LinesTell(a, b, diffs);
  }

  /** The command's exit code: 1 when some task regressed. */
  predicate Regressed(diffs: seq<Diff>) {
    exists i :: 0 <= i < |diffs| && diffs[i].status == Regression
  }

  predicate Worse(id: string, a: Table, b: Table) {
    id in a && id in b && b[id].passRate < a[id].passRate
  }

  lemma RegressedIffWorse(a: Table, b: Table, diffs: seq<Diff>)
    requires IsDiff(a, b, diffs)
    ensures Regressed(diffs) <==> exists id :: Worse(id, a, b)
  {
    hide Sorted;
    if i :| 0 <= i < |diffs| && diffs[i].status == Regression {
      assert Worse(diffs[i].taskId, a, b);
    }
    if id :| Worse(id, a, b) {
      assert id in Elements(DiffIds(diffs));
      var i :| 0 <= i < |diffs| && DiffIds(diffs)[i] == id;
      assert diffs[i].status == Regression;
    }
  }

  ghost predicate ComparesWorse(a: Input, b: Input) {
    exists x: (Table, Overall), y: (Table, Overall) ::
      Loads(a, Some(x)) && Loads(b, Some(y)) && exists id :: Worse(id, x.0, y.0)
  }

  /** The command's exit code: 2 when an input is missing, 1 when some shared task lost rate. */
  method CompareCommand(a: Input, b: Input) returns (code: nat)
    ensures code == 2 <==> a == Missing || b == Missing
    ensures code == 1 <==> ComparesWorse(a, b)
    ensures code <= 2
  {
    var before := LoadSnapshot(a);
    if before == None {
      return 2;
    }
    var after := LoadSnapshot(b);
    if after == None {
      return 2;
    }
    var diffs := DiffSnapshots(before.value.0, after.value.0);
    RegressedIffWorse(before.value.0, after.value.0, diffs);
    LoadsOnce(a, before.value);
    LoadsOnce(b, after.value);
    hide Loads, Worse, IsDiff;
    code := if Regressed(diffs) then 1 else 0;
    assert code == 1 <==> exists id :: Worse(id, before.value.0, after.value.0);
  }

  lemma LoadsOnce(input: Input, r: (Table, Overall))
    requires Loads(input, Some(r))
    ensures input != Missing
    ensures forall q :: Loads(input, Some(q)) ==> q == r
  {
    forall q | Loads(input, Some(q)) ensures q == r {
      match input
      case Missing =>
      case SavedPayload(p) =>
      case Directory(files) =>
        var runs :| Summarized(files, runs) && Some(r) == Some((TableOf(runs), OverallOf(runs)));
        var again :| Summarized(files, again) && Some(q) == Some((TableOf(again), OverallOf(again)));
        SummarizedOnce(files, runs, again);
    }
  }

  function Flip(d: Diff): Diff {
    Diff(d.taskId, FlipStatus(d.status), d.b, d.a, if d.delta == None then None else Some(-d.delta.value))
  }

  function FlipStatus(s: Status): Status {
    match s
    case Regression => Improvement
    case Improvement => Regression
    case Unchanged => Unchanged
    case New => Dropped
    case Dropped => New
  }

  /** Swapping the snapshots flips each line of the diff and changes nothing else. */
  lemma SwapFlips(a: Table, b: Table, ab: seq<Diff>, ba: seq<Diff>)
    requires IsDiff(a, b, ab) && IsDiff(b, a, ba)
    ensures |ab| == |ba| && forall i :: 0 <= i < |ab| ==> ba[i] == Flip(ab[i])
  {
    SortedIsUnique(DiffIds(ab), DiffIds(ba));
    forall i | 0 <= i < |ab| ensures ba[i] == Flip(ab[i]) {
      assert DiffIds(ab)[i] == DiffIds(ba)[i];
    }
  }

  /** Neither direction regresses exactly when every task the snapshots share kept its rate. */
  lemma NoRegressionEitherWay(a: Table, b: Table, ab: seq<Diff>, ba: seq<Diff>)
    requires IsDiff(a, b, ab) && IsDiff(b, a, ba)
    ensures !Regressed(ab) && !Regressed(ba) <==>
            forall id :: id in a && id in b ==> a[id].passRate == b[id].passRate
  {
    hide Sorted;
    SwapFlips(a, b, ab, ba);
    if !Regressed(ab) && !Regressed(ba) {
      forall id | id in a && id in b ensures a[id].passRate == b[id].passRate {
        assert id in Elements(DiffIds(ab));
        var i :| 0 <= i < |ab| && DiffIds(ab)[i] == id;
        assert ab[i] == DiffOf(id, a, b) && ba[i] == Flip(ab[i]);
        assert ab[i].status != Regression && ba[i].status != Regression;
      }
    }
  }

  /** A snapshot compared with itself: every task unchanged, by a delta of nought. */
  lemma SelfCompare(a: Table, diffs: seq<Diff>)
    requires IsDiff(a, a, diffs)
    ensures forall i :: 0 <= i < |diffs| ==> diffs[i].status == Unchanged && diffs[i].delta == Some(0)
    ensures !Regressed(diffs)
  {
  }

  // ----- The payload -----

  /** The tasks of `diffs` with status `s`, in order. */
  function Bucket(diffs: seq<Diff>, s: Status): seq<string> {
    if diffs == [] then []
    else
      var d := diffs[|diffs| - 1];
      Bucket(diffs[..|diffs| - 1], s) + if d.status == s then [d.taskId] else []
  }

  datatype Comparison = Comparison(
    a: Overall,
    b: Overall,
    delta: int,
    regressions: seq<string>,
    improvements: seq<string>,
    same: seq<string>,
    added: seq<string>,
    dropped: seq<string>,
    byTask: seq<Diff>)

  method ComparePayload(diffs: seq<Diff>, a: Overall, b: Overall) returns (r: Comparison)
    ensures r.a == a && r.b == b && r.byTask == diffs && a.passRate + r.delta == b.passRate
    ensures r.regressions == Bucket(diffs, Regression) && r.improvements == Bucket(diffs, Improvement)
    ensures r.same == Bucket(diffs, Unchanged)
    ensures r.added == Bucket(diffs, New) && r.dropped == Bucket(diffs, Dropped)
  {
    var bucket: map<Status, seq<string>> :=
      map[Regression := [], Improvement := [], Unchanged := [], New := [], Dropped := []];
    var i := 0;
    forall s: Status ensures s in bucket && bucket[s] == [] {
      match s {
        case Regression => case Improvement => case Unchanged => case New => case Dropped =>
      }
    }
    while i < |diffs|
      invariant 0 <= i <= |diffs|
      invariant forall s: Status :: s in bucket && bucket[s] == Bucket(diffs[..i], s)
    {
      assert diffs[..i + 1][..i] == diffs[..i];
      var d := diffs[i];
      bucket := bucket[d.status := bucket[d.status] + [d.taskId]];
      i := i + 1;
    }
    assert diffs[..i] == diffs;
    r := Comparison(a, b, b.passRate as int - a.passRate,
                    bucket[Regression], bucket[Improvement], bucket[Unchanged], bucket[New], bucket[Dropped],
                    diffs);
  }

  predicate Placed(diffs: seq<Diff>, s: Status, id: string) {
    exists i :: 0 <= i < |diffs| && diffs[i].status == s && diffs[i].taskId == id
  }

  lemma {:induction false} BucketHolds(diffs: seq<Diff>, s: Status, id: string)
    ensures id in Bucket(diffs, s) <==> Placed(diffs, s, id)
  {
    if diffs != [] {
      var k := |diffs| - 1;
      BucketHolds(diffs[..k], s, id);
      assert diffs == diffs[..k] + [diffs[k]];
      assert Placed(diffs, s, id) <==> Placed(diffs[..k], s, id) || (diffs[k].status == s && diffs[k].taskId == id);
    }
  }

  lemma {:induction false} BucketIsSorted(diffs: seq<Diff>, s: Status)
    requires Sorted(DiffIds(diffs))
    ensures Sorted(Bucket(diffs, s))
  {
    if diffs != [] {
      var k := |diffs| - 1;
      var ids := Bucket(diffs[..k], s);
      assert DiffIds(diffs[..k]) == DiffIds(diffs)[..k];
      BucketIsSorted(diffs[..k], s);
      forall i | 0 <= i < |ids| ensures Before(ids[i], diffs[k].taskId) {
        BucketHolds(diffs[..k], s, ids[i]);
        var j :| 0 <= j < k && diffs[..k][j].taskId == ids[i];
        assert Before(DiffIds(diffs)[j], DiffIds(diffs)[k]);
      }
    }
  }

  /**
   * The five lists share out the tasks of both snapshots: each task is in exactly one, once, in
   * code point order, and the list says how its rate moved.
   */
  lemma BucketsPartition(a: Table, b: Table, diffs: seq<Diff>, id: string)
    requires IsDiff(a, b, diffs)
    ensures forall s :: Sorted(Bucket(diffs, s)) && Distinct(Bucket(diffs, s))
    ensures id in Bucket(diffs, Regression) <==> id in a && id in b && b[id].passRate < a[id].passRate
    ensures id in Bucket(diffs, Improvement) <==> id in a && id in b && b[id].passRate > a[id].passRate
    ensures id in Bucket(diffs, Unchanged) <==> id in a && id in b && b[id].passRate == a[id].passRate
    ensures id in Bucket(diffs, New) <==> id !in a && id in b
    ensures id in Bucket(diffs, Dropped) <==> id in a && id !in b
  {
    forall s ensures Sorted(Bucket(diffs, s)) && Distinct(Bucket(diffs, s)) {
      BucketIsSorted(diffs, s);
      SortedIsDistinct(Bucket(diffs, s));
    }
    hide Sorted, Distinct;
    BucketHolds(diffs, Regression, id);
    BucketHolds(diffs, Improvement, id);
    BucketHolds(diffs, Unchanged, id);
    BucketHolds(diffs, New, id);
    BucketHolds(diffs, Dropped, id);
    if id in a || id in b {
      assert id in Elements(DiffIds(diffs));
      var i :| 0 <= i < |diffs| && DiffIds(diffs)[i] == id;
      assert Placed(diffs, DiffOf(id, a, b).status, id);
    }
  }

  lemma RegressedIffListed(diffs: seq<Diff>)
    ensures Regressed(diffs) <==> Bucket(diffs, Regression) != []
  {
    if i :| 0 <= i < |diffs| && diffs[i].status == Regression {
      BucketHolds(diffs, Regression, diffs[i].taskId);
    }
    if Bucket(diffs, Regression) != [] {
      BucketHolds(diffs, Regression, Bucket(diffs, Regression)[0]);
    }
  }

  // ----- How far the overall rate can move -----

  lemma Listed(s: set<string>) returns (ids: seq<string>)
    ensures Distinct(ids) && Elements(ids) == s
  {
    if s == {} {
      ids := [];
    } else {
      var x :| x in s;
      var rest := Listed(s - {x});
      assert x !in Elements(rest);
      ids := rest + [x];
      assert Elements(ids) == Elements(rest) + {x};
    }
  }

  /** The same number of runs of `id`, and its rate moved up by at least `lo` points. */
  predicate MovesBy(id: string, a: seq<RunSummary>, b: seq<RunSummary>, lo: int) {
    var from, to := OfTask(a, id), OfTask(b, id);
    |from| == |to| > 0 && FloorPct(Count(from, Passed), |from|) + lo <= FloorPct(Count(to, Passed), |to|)
  }

  /** `d` is more than `k` for each of `n`. */
  predicate Exceeds(d: int, k: int, n: nat) {
    k * n < d
  }

  lemma OneMove(ra: nat, rb: nat, pa: nat, pb: nat, n: nat, lo: int)
    requires 100 * pa < (ra + 1) * n && rb * n <= 100 * pb && ra + lo <= rb
    ensures Exceeds(100 * pb - 100 * pa, lo - 1, n)
  {
    Monotone(ra + lo, rb, n);
    assert (ra + lo) * n == (ra + 1) * n + (lo - 1) * n;
  }

  lemma AddMoves(d: int, e: int, k: int, n: nat, m: nat)
    requires Exceeds(d, k, n) || (d == 0 && n == 0)
    requires Exceeds(e, k, m)
    ensures Exceeds(d + e, k, n + m)
  {
    assert k * (n + m) == k * n + k * m;
  }

  lemma MoveOf(id: string, a: seq<RunSummary>, b: seq<RunSummary>, lo: int)
    requires MovesBy(id, a, b, lo)
    ensures var from, to := OfTask(a, id), OfTask(b, id);
            && Count(from, Any) == Count(to, Any)
            && Exceeds(100 * Count(to, Passed) - 100 * Count(from, Passed), lo - 1, Count(from, Any))
  {
    var from, to := OfTask(a, id), OfTask(b, id);
    var n, pa, pb := |from|, Count(from, Passed), Count(to, Passed);
    CountAny(from);
    CountAny(to);
    OneMove(FloorPct(pa, n), FloorPct(pb, n), pa, pb, n, lo);
  }

  lemma {:induction false} MovesAddUp(ids: seq<string>, a: seq<RunSummary>, b: seq<RunSummary>, lo: int)
    requires forall i :: 0 <= i < |ids| ==> MovesBy(ids[i], a, b, lo)
    ensures Stats.Total(ids, a, Any) == Stats.Total(ids, b, Any)
    ensures ids == [] ==> Stats.Total(ids, a, Passed) == Stats.Total(ids, b, Passed) == Stats.Total(ids, a, Any) == 0
    ensures ids != [] ==>
              Exceeds(100 * Stats.Total(ids, b, Passed) - 100 * Stats.Total(ids, a, Passed), lo - 1,
                      Stats.Total(ids, a, Any))
  {
    hide MovesBy, OfTask, Count, Exceeds;
    if ids != [] {
      var k := |ids| - 1;
      MovesAddUp(ids[..k], a, b, lo);
      MoveOf(ids[k], a, b, lo);
      var before, from, to := ids[..k], OfTask(a, ids[k]), OfTask(b, ids[k]);
      AddMoves(100 * Stats.Total(before, b, Passed) - 100 * Stats.Total(before, a, Passed),
               100 * Count(to, Passed) - 100 * Count(from, Passed),
               lo - 1, Stats.Total(before, a, Any), Count(from, Any));
    }
  }

  lemma OverallMoves(pa: nat, pb: nat, n: nat, lo: int)
    requires n > 0 && Exceeds(100 * pb - 100 * pa, lo - 1, n)
    ensures FloorPct(pa, n) + lo - 1 <= FloorPct(pb, n)
  {
    var ra, rb := FloorPct(pa, n), FloorPct(pb, n);
    assert (ra + lo - 1) * n == ra * n + (lo - 1) * n;
    Cancel(ra + lo - 1, rb + 1, n);
  }

  lemma ListCovers(runs: seq<RunSummary>, ids: seq<string>)
    requires Elements(ids) == Tasks(runs)
    ensures forall r :: r in runs ==> Key(r) in ids
  {
    forall r | r in runs ensures Key(r) in ids {
      TaskHasRuns(runs, Key(r));
      assert Key(r) in Elements(ids);
    }
  }

  lemma OverallRisesAlmostAsMuch(a: seq<RunSummary>, b: seq<RunSummary>, lo: int)
    requires a != [] && Tasks(a) == Tasks(b)
    requires forall id :: id in Tasks(a) ==> MovesBy(id, a, b, lo)
    ensures OverallOf(a).passRate + lo - 1 <= OverallOf(b).passRate
  {
    hide Exceeds, FloorPct, MovesBy, OfTask, Tasks, Count, Key, Distinct;
    var ids := Listed(Tasks(a));
    ListCovers(a, ids);
    ListCovers(b, ids);
    forall i | 0 <= i < |ids| ensures MovesBy(ids[i], a, b, lo) {
      assert ids[i] in Elements(ids);
    }
    assert Key(a[0]) in ids;
    MovesAddUp(ids, a, b, lo);
    TotalIsCount(ids, a, Any);
    TotalIsCount(ids, b, Any);
    TotalIsCount(ids, a, Passed);
    TotalIsCount(ids, b, Passed);
    CountAny(a);
    CountAny(b);
    OverallMoves(Count(a, Passed), Count(b, Passed), |a|, lo);
  }

  /** Row for row, the same tasks with the same number of runs, and rates that moved by `lo` to `hi` points. */
  predicate RowsMove(a: seq<Row>, b: seq<Row>, lo: int, hi: int) {
    |a| == |b| &&
    forall i :: 0 <= i < |a| ==>
      && a[i].taskId == b[i].taskId && a[i].runs == b[i].runs
      && lo <= b[i].passRate as int - a[i].passRate <= hi
  }

  lemma RowMoves(a: seq<RunSummary>, b: seq<RunSummary>, rowsA: seq<Row>, rowsB: seq<Row>, lo: int, hi: int, id: string)
    requires IsTable(a, rowsA) && IsTable(b, rowsB) && RowsMove(rowsA, rowsB, lo, hi) && id in Tasks(a)
    ensures MovesBy(id, a, b, lo) && MovesBy(id, b, a, -hi)
  {
    hide Sorted, FloorPct, Count, OfTask, Tasks;
    assert id in Elements(Ids(rowsA));
    var i :| 0 <= i < |rowsA| && Ids(rowsA)[i] == id;
    RowsAreNotEmpty(a, rowsA, i);
  }

  /**
   * Two snapshots of the same tasks with the same number of runs of each: the overall rate moves at
   * most one point less than the task that moved least and one more than the task that moved most.
   */
  lemma OverallDelta(a: seq<RunSummary>, b: seq<RunSummary>, rowsA: seq<Row>, rowsB: seq<Row>, lo: int, hi: int)
    requires a != [] && IsTable(a, rowsA) && IsTable(b, rowsB) && RowsMove(rowsA, rowsB, lo, hi)
    ensures lo - 1 <= OverallOf(b).passRate as int - OverallOf(a).passRate <= hi + 1
  {
    assert Ids(rowsA) == Ids(rowsB);
    forall id | id in Tasks(a) ensures MovesBy(id, a, b, lo) && MovesBy(id, b, a, -hi) {
      RowMoves(a, b, rowsA, rowsB, lo, hi, id);
    }
    TaskHasRuns(a, Key(a[0]));
    TaskHasRuns(b, Key(a[0]));
    hide MovesBy, OverallOf, IsTable;
    OverallRisesAlmostAsMuch(a, b, lo);
    OverallRisesAlmostAsMuch(b, a, -hi);
  }

  /** When the diff flags nothing and the run counts match, the overall rate drops at most one point. */
  lemma UnflaggedDropIsOnePoint(a: seq<RunSummary>, b: seq<RunSummary>, diffs: seq<Diff>)
    requires a != [] && IsDiff(TableOf(a), TableOf(b), diffs)
    requires forall i :: 0 <= i < |diffs| ==>
               diffs[i].status in {Improvement, Unchanged} && diffs[i].a.value.runs == diffs[i].b.value.runs
    ensures OverallOf(b).passRate >= OverallOf(a).passRate - 1
  {
    hide Sorted, FloorPct, Count, OfTask, Tasks;
    forall id | id in Tasks(a) || id in Tasks(b) ensures id in Tasks(a) && id in Tasks(b) && MovesBy(id, a, b, 0) {
      assert id in Elements(DiffIds(diffs));
      var i :| 0 <= i < |diffs| && DiffIds(diffs)[i] == id;
      assert diffs[i] == DiffOf(id, TableOf(a), TableOf(b));
      assert diffs[i].status in {Improvement, Unchanged};
      TaskHasRuns(a, id);
    }
    assert Tasks(a) == Tasks(b);
    OverallRisesAlmostAsMuch(a, b, 0);
  }

  // ----- Both hypotheses are needed -----

  function Runs(id: string, passes: nat, others: nat): seq<RunSummary> {
    if others > 0 then Runs(id, passes, others - 1) + [RunSummary(Some(id), "failed", "", [], 0, 0)]
    else if passes > 0 then Runs(id, passes - 1, 0) + [RunSummary(Some(id), "passed", "", [], 0, 0)]
    else []
  }

  lemma OneMoreRunOf(runs: seq<RunSummary>, r: RunSummary, other: string)
    ensures Count(runs + [r], Passed) == Count(runs, Passed) + if Passed(r) then 1 else 0
    ensures Tasks(runs + [r]) == Tasks(runs) + {Key(r)}
    ensures OfTask(runs + [r], Key(r)) == OfTask(runs, Key(r)) + [r]
    ensures other != Key(r) ==> OfTask(runs + [r], other) == OfTask(runs, other)
  {
    Snoc(runs, r);
  }

  lemma {:induction false} AddRuns(before: seq<RunSummary>, id: string, passes: nat, others: nat, other: string)
    requires id != "" && other != id
    ensures var all := before + Runs(id, passes, others);
            && Count(all, Passed) == Count(before, Passed) + passes
            && Tasks(all) == Tasks(before) + (if passes + others > 0 then {id} else {})
            && OfTask(all, id) == OfTask(before, id) + Runs(id, passes, others)
            && OfTask(all, other) == OfTask(before, other)
    ensures |Runs(id, passes, others)| == passes + others
  {
    hide Count, Tasks, OfTask;
    var runs := Runs(id, passes, others);
    if passes + others == 0 {
      assert before + runs == before;
      assert OfTask(before, id) + runs == OfTask(before, id);
    } else {
      var p, o := if others > 0 then passes else passes - 1, if others > 0 then others - 1 else 0;
      var rest, last := Runs(id, p, o), runs[|runs| - 1];
      AddRuns(before, id, p, o, other);
      assert before + runs == (before + rest) + [last];
      assert OfTask(before, id) + runs == (OfTask(before, id) + rest) + [last];
      OneMoreRunOf(before + rest, last, other);
    }
  }

  function TwoTasks(p: nat, f: nat, q: nat, g: nat): seq<RunSummary> {
    Runs("A", p, f) + Runs("B", q, g)
  }

  predicate TwoRows(p: nat, f: nat, q: nat, g: nat, rateA: nat, rateB: nat, overall: nat) {
    var runs := TwoTasks(p, f, q, g);
    && runs != [] && Tasks(runs) == {"A", "B"}
    && TableOf(runs)["A"].runs == p + f && TableOf(runs)["A"].passRate == rateA
    && TableOf(runs)["B"].runs == q + g && TableOf(runs)["B"].passRate == rateB
    && OverallOf(runs).passRate == overall
  }

  lemma RunsAlone(id: string, p: nat, f: nat, other: string)
    requires id != "" && other != id && p + f > 0
    ensures var runs := Runs(id, p, f);
            && |runs| == p + f && Count(runs, Passed) == p && Tasks(runs) == {id}
            && OfTask(runs, id) == runs && OfTask(runs, other) == []
  {
    var none: seq<RunSummary> := [];
    AddRuns(none, id, p, f, other);
    hide Runs;
    assert none + Runs(id, p, f) == Runs(id, p, f);
  }

  lemma TwoTasksParts(p: nat, f: nat, q: nat, g: nat)
    requires p + f > 0 && q + g > 0
    ensures var runs := TwoTasks(p, f, q, g);
            && |runs| == p + f + q + g && Tasks(runs) == {"A", "B"} && Count(runs, Passed) == p + q
            && |OfTask(runs, "A")| == p + f && Count(OfTask(runs, "A"), Passed) == p
            && |OfTask(runs, "B")| == q + g && Count(OfTask(runs, "B"), Passed) == q
  {
    assert "A" != "B";
    hide Count, Tasks, OfTask, Runs;
    RunsAlone("A", p, f, "B");
    RunsAlone("B", q, g, "A");
    AddRuns(Runs("A", p, f), "B", q, g, "A");
    assert [] + Runs("B", q, g) == Runs("B", q, g);
  }

  lemma TwoTasksTable(p: nat, f: nat, q: nat, g: nat)
    requires p + f > 0 && q + g > 0
    ensures TwoRows(p, f, q, g, FloorPct(p, p + f), FloorPct(q, q + g), FloorPct(p + q, p + f + q + g))
  {
    hide Count, Tasks, OfTask, FloorPct, TwoTasks;
    TwoTasksParts(p, f, q, g);
  }

  predicate SameRates(a: seq<RunSummary>, b: seq<RunSummary>) {
    a != [] && Tasks(a) == Tasks(b) &&
    forall id :: id in Tasks(a) ==> TableOf(a)[id].passRate == TableOf(b)[id].passRate
  }

  predicate SameRuns(a: seq<RunSummary>, b: seq<RunSummary>) {
    forall id :: id in Tasks(a) && id in Tasks(b) ==> TableOf(a)[id].runs == TableOf(b)[id].runs
  }

  /** The one point is real: no task moves, yet the overall rate drops from 2 to 1. */
  lemma OnePointIsLost()
    ensures exists a, b :: SameRates(a, b) && SameRuns(a, b) && OverallOf(a).passRate == 2 && OverallOf(b).passRate == 1
  {
    hide TwoTasks, Tasks, TableOf, OverallOf;
    var a, b := TwoTasks(3, 197, 3, 97), TwoTasks(2, 198, 3, 97);
    TwoTasksTable(3, 197, 3, 97);
    TwoTasksTable(2, 198, 3, 97);
    assert SameRates(a, b) && SameRuns(a, b);
  }

  /** Equal run counts are needed: no task moves, yet the overall rate drops from 90 to 10. */
  lemma RunCountsMatter()
    ensures exists a, b :: SameRates(a, b) && OverallOf(a).passRate == 90 && OverallOf(b).passRate == 10
  {
    hide TwoTasks, Tasks, TableOf, OverallOf;
    var a, b := TwoTasks(9, 0, 0, 1), TwoTasks(1, 0, 0, 9);
    TwoTasksTable(9, 0, 0, 1);
    TwoTasksTable(1, 0, 0, 9);
    assert SameRates(a, b);
  }
}
