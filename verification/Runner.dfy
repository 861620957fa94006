/** `prehnite run`: one task from sandbox start to the sealed trajectory, with the proxy writing throughout. */
module Runner {
  import opened Events
  import opened Results
  import opened Stats

  /** How executing a command goes; only a command that exits is logged. */
  datatype Ran = Exits(code: int, stdout: string, stderr: string, durationMs: nat) | Raises(error: string)

  datatype Step = Step(cmd: string, ran: Ran)

  /**
   * What drives the run. An agent function makes calls, may swallow what they raise, and may raise
   * itself in the end; a fixed list runs until a command raises.
   */
  datatype Driver =
    | Both
    | Nobody
    | Function(calls: seq<Step>, raises: Option<string>)
    | Fixed(cmds: seq<Step>)

  datatype Outcome = Rejected | Returned(status: string, reason: Reason) | Raised(error: string)

  // ----- Logs with the proxy's events taken out -----

  function Quiet(log: seq<Event>): seq<Event> {
    if log == [] then []
    else
      var e := log[|log| - 1];
      Quiet(log[..|log| - 1]) + if e.kind == EgressAttempt then [] else [e]
  }

  lemma QuietSnoc(log: seq<Event>, e: Event)
    ensures Quiet(log + [e]) == if e.kind == EgressAttempt then Quiet(log) else Quiet(log) + [e]
  {
    Snoc(log, e);
  }

  /** The order of a run's phases. */
  function Phase(k: EventType): nat {
    match k
    case RunStarted => 1
    case SetupCommand => 2
    case AgentCommand => 3
    case VerifyCommand => 4
    case RunFinished => 5
    case _ => 6
  }

  /** A prefix of run_started setup* agent* verify*, with nothing past phase `upto`. */
  predicate Body(q: seq<Event>, upto: nat) {
    && (forall i :: 0 <= i < |q| ==> Phase(q[i].kind) <= upto)
    && (forall i :: 0 < i < |q| ==> Phase(q[i - 1].kind) <= Phase(q[i].kind) && q[i].kind != RunStarted)
    && (q != [] ==> q[0].kind == RunStarted)
  }

  /** A whole run: such a prefix, then one run_finished. */
  predicate IsRunLog(q: seq<Event>) {
    q != [] && q[|q| - 1].kind == RunFinished && Body(q[..|q| - 1], 4)
  }

  lemma BodySnoc(q: seq<Event>, e: Event, upto: nat)
    requires Body(q, Phase(e.kind)) && Phase(e.kind) <= upto
    requires q == [] <==> e.kind == RunStarted
    ensures Body(q + [e], upto)
  {
  }

  /** How many commands of kind `k` were logged with exit code 0. */
  function OkCount(q: seq<Event>, k: EventType): (n: nat)
    ensures n <= CountKind(q, k)
  {
    if q == [] then 0
    else
      var e := q[|q| - 1];
      OkCount(q[..|q| - 1], k) + if e.kind == k && Exit(e.data) == 0 then 1 else 0
  }

  function Exit(data: Data): int {
    if "exit_code" in data && data["exit_code"].Num? then data["exit_code"].n else -1
  }

  lemma CountsSnoc(q: seq<Event>, e: Event, k: EventType)
    ensures CountKind(q + [e], k) == CountKind(q, k) + if e.kind == k then 1 else 0
    ensures OkCount(q + [e], k) == OkCount(q, k) + if e.kind == k && Exit(e.data) == 0 then 1 else 0
  {
    Snoc(q, e);
  }

  /** A summary does not see egress events. */
  lemma {:induction false} LastFinishedIsQuiet(log: seq<Event>)
    ensures Last(Quiet(log), Finished) == Last(log, Finished)
  {
    if log != [] {
      var init, e := log[..|log| - 1], log[|log| - 1];
      LastFinishedIsQuiet(init);
      assert Quiet(init) + [] == Quiet(init);
      Snoc(Quiet(init), e);
    }
  }

  // ----- The run -----

  /** What is logged of a command that exited. */
  function Line(s: Step): Data
    requires s.ran.Exits?
  {
    CommandData(s.cmd, s.ran.code, s.ran.stdout, s.ran.stderr, s.ran.durationMs)
  }

  /** The line tells the command, its exit code, its time, and each stream in its own field. */
  predicate LineSays(d: Data, s: Step)
    requires s.ran.Exits?
  {
    && "cmd" in d && d["cmd"] == Text(s.cmd) && "exit_code" in d && d["exit_code"] == Num(s.ran.code)
    && "stdout" in d && d["stdout"] == Text(s.ran.stdout) && "stderr" in d && d["stderr"] == Text(s.ran.stderr)
    && "duration_ms" in d && d["duration_ms"] == Num(s.ran.durationMs)
  }

  /** The log entries of the commands among `steps` that exited. */
  function Entered(kind: EventType, steps: seq<Step>): seq<(EventType, Data)> {
    if steps == [] then []
    else
      var s := steps[|steps| - 1];
      Entered(kind, steps[..|steps| - 1]) + if s.ran.Exits? then [(kind, Line(s))] else []
  }

  /** The writer, shared with the proxy: `due` holds the egress events that get in before each write. */
  class Recorder {
    var log: seq<Event>
    var due: seq<seq<Data>>

    constructor (due: seq<seq<Data>>)
      ensures log == [] && this.due == due
    {
      log, this.due := [], due;
    }

    method Egress()
      modifies this
      ensures Quiet(log) == old(Quiet(log)) && old(log) <= log
    {
      if due == [] {
        return;
      }
      var batch := due[0];
      due := due[1..];
      var i := 0;
      while i < |batch|
        invariant Quiet(log) == old(Quiet(log)) && old(log) <= log
      {
        QuietSnoc(log, Event(|log|, EgressAttempt, batch[i]));
        log := log + [Event(|log|, EgressAttempt, batch[i])];
        i := i + 1;
      }
    }

    method Write(kind: EventType, data: Data) returns (e: Event)
      requires kind != EgressAttempt
      modifies this
      ensures e.kind == kind && e.data == data
      ensures Quiet(log) == old(Quiet(log)) + [e] && old(log) <= log
    {
      Egress();
      e := Event(|log|, kind, data);
      QuietSnoc(log, e);
      log := log + [e];
    }

    /** `_exec_and_record`; when the command raises, nothing is logged. */
    method ExecAndRecord(kind: EventType, step: Step) returns (ghost e: Event)
      requires kind != EgressAttempt
      modifies this
      ensures old(log) <= log
      ensures step.ran.Raises? ==> Quiet(log) == old(Quiet(log))
      ensures step.ran.Exits? ==>
                Quiet(log) == old(Quiet(log)) + [e] && e.kind == kind && e.data == Line(step)
      ensures step.ran.Exits? ==> LineSays(e.data, step)
    {
      match step.ran
      case Raises(_) =>
        e := Event(0, kind, map[]);
      case Exits(_, _, _, _) =>
        e := Write(kind, Line(step));
        ResultReports(step.cmd, step.ran.code, step.ran.stdout, step.ran.stderr, step.ran.durationMs);
    }
  }

  /** One more command of phase `k` in a log that has come no further than that. */
  lemma OneCommand(q: seq<Event>, e: Event, step: Step)
    requires step.ran.Exits? && e.data == Line(step)
    requires Phase(e.kind) in {2, 3, 4} && Body(q, Phase(e.kind)) && q != []
    ensures Body(q + [e], Phase(e.kind)) && q + [e] != []
    ensures CountKind(q + [e], e.kind) == CountKind(q, e.kind) + 1
    ensures OkCount(q + [e], e.kind) == OkCount(q, e.kind) + if step.ran.code == 0 then 1 else 0
    ensures forall k :: k != e.kind ==>
              CountKind(q + [e], k) == CountKind(q, k) && OkCount(q + [e], k) == OkCount(q, k)
  {
    BodySnoc(q, e, Phase(e.kind));
    forall k
      ensures CountKind(q + [e], k) == CountKind(q, k) + if e.kind == k then 1 else 0
      ensures OkCount(q + [e], k) == OkCount(q, k) + if e.kind == k && step.ran.code == 0 then 1 else 0
    {
      CountsSnoc(q, e, k);
    }
  }

  /** How a stretch of commands ended: all logged, a raise, or (in setup) a nonzero exit. */
  datatype Stretch = Done | Raise(error: string) | Stopped(code: int, cmd: string)

  /** The commands `steps` were tried after `was`, those that exited were logged in order, and nothing else. */
  ghost predicate Extends(q: seq<Event>, was: seq<Event>, kind: EventType, steps: seq<Step>, more: nat, ok: nat) {
    && q != [] && Body(q, Phase(kind)) && was <= q
    && Story(q) == Story(was) + Entered(kind, steps)
    && CountKind(q, kind) == CountKind(was, kind) + more
    && OkCount(q, kind) == OkCount(was, kind) + ok
    && forall k :: k != kind ==> CountKind(q, k) == CountKind(was, k) && OkCount(q, k) == OkCount(was, k)
  }

  lemma ExtendsOne(q: seq<Event>, was: seq<Event>, e: Event, tried: seq<Step>, step: Step, more: nat, ok: nat)
    requires Extends(q, was, e.kind, tried, more, ok) && Phase(e.kind) in {2, 3, 4}
    requires step.ran.Exits? && e.data == Line(step)
    ensures Extends(q + [e], was, e.kind, tried + [step], more + 1, if step.ran.code == 0 then ok + 1 else ok)
  {
    Snoc(tried, step);
    assert Entered(e.kind, tried + [step]) == Entered(e.kind, tried) + [(e.kind, e.data)];
    StorySnoc(q, e);
    hide Body, CountKind, OkCount, Story, Entered;
    OneCommand(q, e, step);
  }

  /** A command that raises is tried, and leaves no trace. */
  lemma ExtendsRaise(q: seq<Event>, was: seq<Event>, kind: EventType, tried: seq<Step>, step: Step, more: nat, ok: nat)
    requires Extends(q, was, kind, tried, more, ok) && step.ran.Raises?
    ensures Extends(q, was, kind, tried + [step], more, ok)
  {
    Snoc(tried, step);
    hide Body, CountKind, OkCount, Story;
    assert Entered(kind, tried) + [] == Entered(kind, tried);
  }

  predicate StoppedAt(s: Step, cmd: string, code: int) {
    s.cmd == cmd && s.ran.Exits? && s.ran.code == code && code != 0
  }

  method RunSetup(w: Recorder, setup: seq<Step>) returns (r: Stretch, ghost n: nat)
    requires Body(Quiet(w.log), 2) && Quiet(w.log) != []
    modifies w
    ensures old(w.log) <= w.log && n <= |setup|
    ensures var ok := if r.Stopped? then n - 1 else n;
            ok >= 0 && Extends(Quiet(w.log), old(Quiet(w.log)), SetupCommand, setup[..n], n, ok)
    ensures AllOk(setup[..if r.Stopped? then n - 1 else n])
    ensures r.Done? ==> n == |setup|
    ensures r.Raise? ==> n < |setup| && setup[n].ran == Raises(r.error)
    ensures r.Stopped? ==> 0 < n && StoppedAt(setup[n - 1], r.cmd, r.code)
  {
    hide Quiet, Body, Extends;
    n := 0;
    assert Extends(Quiet(w.log), Quiet(w.log), SetupCommand, setup[..0], 0, 0) by {
      ExtendsNone(Quiet(w.log), SetupCommand);
    }
    var i := 0;
    while i < |setup|
      invariant 0 <= i <= |setup| && n == i && old(w.log) <= w.log
      invariant Extends(Quiet(w.log), old(Quiet(w.log)), SetupCommand, setup[..n], n, n)
      invariant AllOk(setup[..n])
    {
      ghost var q := Quiet(w.log);
      var e := w.ExecAndRecord(SetupCommand, setup[i]);
      match setup[i].ran {
        case Raises(error) =>
          return Raise(error), n;
        case Exits(code, _, _, _) =>
          ExtendsOne(q, old(Quiet(w.log)), e, setup[..n], setup[i], n, n);
          assert setup[..n] + [setup[n]] == setup[..n + 1];
          n := n + 1;
          if code != 0 {
            return Stopped(code, setup[i].cmd), n;
          }
      }
      i := i + 1;
    }
    r := Done;
  }

  lemma ExtendsNone(q: seq<Event>, kind: EventType)
    requires q != [] && Body(q, Phase(kind))
    ensures Extends(q, q, kind, [], 0, 0)
  {
  }

  /** `RunContext.exec`, call by call: what raises leaves `_command_count` alone. */
  method RunFunction(w: Recorder, calls: seq<Step>) returns (count: nat, ghost ok: nat)
    requires Body(Quiet(w.log), 3) && Quiet(w.log) != []
    modifies w
    ensures old(w.log) <= w.log
    ensures Extends(Quiet(w.log), old(Quiet(w.log)), AgentCommand, calls, count, ok)
  {
    hide Quiet, Body, Extends;
    count, ok := 0, 0;
    assert Extends(Quiet(w.log), Quiet(w.log), AgentCommand, calls[..0], 0, 0) by {
      ExtendsNone(Quiet(w.log), AgentCommand);
    }
    var i := 0;
    while i < |calls|
      invariant 0 <= i <= |calls| && old(w.log) <= w.log
      invariant Extends(Quiet(w.log), old(Quiet(w.log)), AgentCommand, calls[..i], count, ok)
    {
      ghost var q := Quiet(w.log);
      var e := w.ExecAndRecord(AgentCommand, calls[i]);
      assert calls[..i] + [calls[i]] == calls[..i + 1];
      if calls[i].ran.Exits? {
        ExtendsOne(q, old(Quiet(w.log)), e, calls[..i], calls[i], count, ok);
        count := count + 1;
        ok := if calls[i].ran.code == 0 then ok + 1 else ok;
      } else {
        ExtendsRaise(q, old(Quiet(w.log)), AgentCommand, calls[..i], calls[i], count, ok);
      }
      i := i + 1;
    }
    assert calls[..i] == calls;
  }

  method RunFixed(w: Recorder, cmds: seq<Step>) returns (r: Stretch, count: nat, ghost ok: nat)
    requires Body(Quiet(w.log), 3) && Quiet(w.log) != []
    modifies w
    ensures old(w.log) <= w.log && !r.Stopped? && count <= |cmds|
    ensures Extends(Quiet(w.log), old(Quiet(w.log)), AgentCommand, cmds[..count], count, ok)
    ensures r.Done? ==> count == |cmds|
    ensures r.Raise? ==> count < |cmds| && cmds[count].ran == Raises(r.error)
  {
    hide Quiet, Body, Extends;
    count, ok := 0, 0;
    assert Extends(Quiet(w.log), Quiet(w.log), AgentCommand, cmds[..0], 0, 0) by {
      ExtendsNone(Quiet(w.log), AgentCommand);
    }
    var i := 0;
    while i < |cmds|
      invariant 0 <= i <= |cmds| && count == i && old(w.log) <= w.log
      invariant Extends(Quiet(w.log), old(Quiet(w.log)), AgentCommand, cmds[..i], count, ok)
    {
      ghost var q := Quiet(w.log);
      var e := w.ExecAndRecord(AgentCommand, cmds[i]);
      match cmds[i].ran {
        case Raises(error) =>
          return Raise(error), count, ok;
        case Exits(code, _, _, _) =>
          ExtendsOne(q, old(Quiet(w.log)), e, cmds[..i], cmds[i], count, ok);
          assert cmds[..i] + [cmds[i]] == cmds[..i + 1];
          count := count + 1;
          ok := if code == 0 then ok + 1 else ok;
      }
      i := i + 1;
    }
    r := Done;
  }

  /** The commands that exited nonzero, in order. */
  function Failures(steps: seq<Step>): seq<string> {
    if steps == [] then []
    else
      var s := steps[|steps| - 1];
      Failures(steps[..|steps| - 1]) + if s.ran.Exits? && s.ran.code != 0 then [s.cmd] else []
  }

  /** They are listed in order, each once. */
  lemma {:induction false} FailuresAre(steps: seq<Step>) returns (at: seq<nat>)
    ensures forall i :: i in at <==> 0 <= i < |steps| && steps[i].ran.Exits? && steps[i].ran.code != 0
    ensures forall j, k :: 0 <= j < k < |at| ==> at[j] < at[k]
    ensures |Failures(steps)| == |at|
    ensures forall k :: 0 <= k < |at| ==> at[k] < |steps| && Failures(steps)[k] == steps[at[k]].cmd
  {
    at := [];
    if steps != [] {
      var n := |steps| - 1;
      at := FailuresAre(steps[..n]);
      if steps[n].ran.Exits? && steps[n].ran.code != 0 {
        var before := at;
        at := at + [n];
        assert forall i :: i in at <==> i in before || i == n;
        forall j | 0 <= j < |before| ensures before[j] < n { assert before[j] in before; }
      }
    }
  }

  method RunVerify(w: Recorder, verify: seq<Step>) returns (r: Stretch, failures: seq<string>, ghost n: nat)
    requires Body(Quiet(w.log), 4) && Quiet(w.log) != []
    modifies w
    ensures old(w.log) <= w.log && !r.Stopped? && |failures| <= n <= |verify|
    ensures Extends(Quiet(w.log), old(Quiet(w.log)), VerifyCommand, verify[..n], n, n - |failures|)
    ensures failures == Failures(verify[..n])
    ensures r.Done? <==> n == |verify|
    ensures r.Raise? ==> verify[n].ran == Raises(r.error)
  {
    hide Quiet, Body, Extends;
    n, failures := 0, [];
    assert Extends(Quiet(w.log), Quiet(w.log), VerifyCommand, verify[..0], 0, 0) by {
      ExtendsNone(Quiet(w.log), VerifyCommand);
    }
    var i := 0;
    while i < |verify|
      invariant 0 <= i <= |verify| && n == i && old(w.log) <= w.log && |failures| <= n
      invariant failures == Failures(verify[..i])
      invariant Extends(Quiet(w.log), old(Quiet(w.log)), VerifyCommand, verify[..i], n, n - |failures|)
    {
      ghost var q := Quiet(w.log);
      var e := w.ExecAndRecord(VerifyCommand, verify[i]);
      match verify[i].ran {
        case Raises(error) =>
          return Raise(error), failures, n;
        case Exits(code, _, _, _) =>
          ExtendsOne(q, old(Quiet(w.log)), e, verify[..i], verify[i], n, n - |failures|);
          assert verify[..i + 1][..i] == verify[..i] && verify[..i] + [verify[i]] == verify[..i + 1];
          n := n + 1;
          if code != 0 {
            failures := failures + [verify[i].cmd];
          }
      }
      i := i + 1;
    }
    r := Done;
  }

  // ----- run() -----

  datatype Task = Task(id: string, image: string, setup: seq<Step>, verify: seq<Step>)

  datatype Start = Starts | SandboxError(error: string) | OtherError(error: string)

  /** How a run ends before `run_finished` is written: by a decision, or by an exception. */
  datatype Verdict = Verdict(status: string, reason: Reason) | Unhandled(error: string)

  /** The log before `run_finished`, egress aside, bears the verdict out. */
  ghost predicate Backed(q: seq<Event>, task: Task, v: Verdict) {
    && Body(q, 4)
    && (v == Verdict(PASSED, AllPassed) <==>
        v.Verdict? && q != [] &&
        OkCount(q, SetupCommand) == |task.setup| && OkCount(q, VerifyCommand) == |task.verify|)
    && (task.verify != [] ==>
          (v == Verdict(PASSED, AllPassed) <==> OkCount(q, VerifyCommand) == |task.verify|))
    && (v.Verdict? ==>
          && v.status in {PASSED, FAILED, ERROR}
          && (v.status == PASSED <==> v.reason == AllPassed)
          && (v.reason == NoAgentActivity <==> v.status == FAILED && CountKind(q, AgentCommand) == 0)
          && (v.reason.NotStarted? <==> q == []))
  }

  ghost predicate Fresh(q: seq<Event>) {
    && q != [] && Body(q, 1)
    && forall k :: k != RunStarted ==> CountKind(q, k) == 0 && OkCount(q, k) == 0
  }

  method Begin(w: Recorder, task: Task, cid: string)
    requires w.log == []
    modifies w
    ensures Fresh(Quiet(w.log)) && Story(Quiet(w.log)) == [(RunStarted, StartedData(task.id, task.image, cid))]
  {
    var e := w.Write(RunStarted, StartedData(task.id, task.image, cid));
    hide Fresh;
    assert Quiet(w.log) == [e];
    FreshOne(e);
    StorySnoc([], e);
    assert [] + [e] == [e];
  }

  /** How far each phase came: setup, agent and verify commands tried. */
  datatype Reached = Reached(setup: nat, agent: nat, verify: nat)

  /** A log holds exactly the commands that were reached and exited, phase by phase. */
  ghost predicate Tells(story: seq<(EventType, Data)>, task: Task, cid: string, driver: Driver, r: Reached) {
    && r.setup <= |task.setup| && r.agent <= |Steps(driver)| && r.verify <= |task.verify|
    && (r.agent > 0 ==> r.setup == |task.setup|)
    && (r.verify > 0 ==> r.setup == |task.setup| && r.agent == |Steps(driver)|)
    && (story == [] ==> r == Reached(0, 0, 0))
    && (story != [] ==>
          story == [(RunStarted, StartedData(task.id, task.image, cid))]
                   + Entered(SetupCommand, task.setup[..r.setup])
                   + Entered(AgentCommand, Steps(driver)[..r.agent])
                   + Entered(VerifyCommand, task.verify[..r.verify]))
  }

  lemma TellsPhases(q0: seq<Event>, q1: seq<Event>, q2: seq<Event>, q3: seq<Event>, task: Task, cid: string,
                    driver: Driver, r: Reached)
    requires r.setup <= |task.setup| && r.agent <= |Steps(driver)| && r.verify <= |task.verify|
    requires (r.agent > 0 ==> r.setup == |task.setup|) &&
        (r.verify > 0 ==> r.setup == |task.setup| && r.agent == |Steps(driver)|)
    requires Story(q0) == [(RunStarted, StartedData(task.id, task.image, cid))]
    requires Story(q1) == Story(q0) + Entered(SetupCommand, task.setup[..r.setup])
    requires Story(q2) == Story(q1) + Entered(AgentCommand, Steps(driver)[..r.agent])
    requires Story(q3) == Story(q2) + Entered(VerifyCommand, task.verify[..r.verify])
    ensures Tells(Story(q3), task, cid, driver, r)
  {
    hide Story, Entered, Steps;
  }

  lemma NoneEntered(kind: EventType, steps: seq<Step>, q: seq<Event>)
    ensures Story(q) + Entered(kind, steps[..0]) == Story(q)
  {
  }

  lemma FreshOne(e: Event)
    requires e.kind == RunStarted
    ensures Fresh([e])
  {
    forall k | k != RunStarted ensures CountKind([e], k) == 0 && OkCount([e], k) == 0 {
      FreshCount(e, k);
    }
    hide CountKind, OkCount;
  }

  lemma FreshCount(e: Event, k: EventType)
    requires e.kind == RunStarted && k != RunStarted
    ensures CountKind([e], k) == 0 && OkCount([e], k) == 0
  {
    var none: seq<Event> := [];
    assert none + [e] == [e];
    assert CountKind(none, k) == 0 && OkCount(none, k) == 0;
    hide CountKind, OkCount;
    CountsSnoc(none, e, k);
  }

  /** The commands the driver has to offer. */
  function Steps(driver: Driver): seq<Step> {
    match driver
    case Function(calls, _) => calls
    case Fixed(cmds) => cmds
    case _ => []
  }

  method RunAgent(w: Recorder, driver: Driver) returns (raised: Option<string>, count: nat, ghost n: nat, ghost ok: nat)
    requires Body(Quiet(w.log), 3) && Quiet(w.log) != [] && !driver.Both?
    modifies w
    ensures old(w.log) <= w.log && n <= |Steps(driver)|
    ensures Extends(Quiet(w.log), old(Quiet(w.log)), AgentCommand, Steps(driver)[..n], count, ok)
    ensures raised == None ==> n == |Steps(driver)|
    ensures driver.Nobody? ==> raised == None
    ensures driver.Function? ==> raised == driver.raises && n == |driver.calls|
    ensures driver.Fixed? && raised.Some? ==> n < |driver.cmds| && driver.cmds[n].ran == Raises(raised.value)
  {
    raised, count, n, ok := None, 0, 0, 0;
    match driver
    case Nobody =>
    case Function(calls, raises) =>
      count, ok := RunFunction(w, calls);
      raised, n := raises, |calls|;
      assert calls[..n] == calls;
    case Fixed(cmds) =>
      var r: Stretch;
      r, count, ok := RunFixed(w, cmds);
      n := count;
      if r.Raise? {
        raised := Some(r.error);
      }
  }

  /** Widening what a log may still hold. */
  lemma Later(q: seq<Event>, upto: nat, more: nat)
    requires Body(q, upto) && upto <= more
    ensures Body(q, more)
  {
  }

  predicate AllOk(steps: seq<Step>) {
    forall i :: 0 <= i < |steps| ==> steps[i].ran.Exits? && steps[i].ran.code == 0
  }

  /** Something raised `error`: the start, the command after the last one tried, or the agent at its end. */
  predicate WasRaised(error: string, task: Task, driver: Driver, start: Start, r: Reached) {
    || (start == OtherError(error) && r == Reached(0, 0, 0))
    || (start.Starts? && r.setup < |task.setup| && AllOk(task.setup[..r.setup]) &&
      task.setup[r.setup].ran == Raises(error))
    || (start.Starts? && AllOk(task.setup) && r.setup == |task.setup| &&
        (|| (driver.Function? && r.agent == |driver.calls| && driver.raises == Some(error))
         || (driver.Fixed? && r.agent < |driver.cmds| && driver.cmds[r.agent].ran == Raises(error))
         || (r.verify < |task.verify| && task.verify[r.verify].ran == Raises(error))))
  }

  /** The verdict says what really happened, and nothing was skipped on the way to it. */
  predicate Accounted(v: Verdict, task: Task, driver: Driver, start: Start, r: Reached) {
    match v
    case Unhandled(error) => WasRaised(error, task, driver, start, r)
    case Verdict(_, NotStarted(error)) => start == SandboxError(error)
    case Verdict(_, SetupFailed(code, cmd)) =>
      && 0 < r.setup <= |task.setup| && AllOk(task.setup[..r.setup - 1])
      && StoppedAt(task.setup[r.setup - 1], cmd, code)
    case Verdict(_, reason) =>
      && start.Starts? && AllOk(task.setup)
      && r == Reached(|task.setup|, |Steps(driver)|, |task.verify|)
      && (driver.Function? ==> driver.raises == None)
      && (reason.VerifyFailed? ==> reason.cmds == Failures(task.verify))
      && (reason.AllPassed? <==> Failures(task.verify) == [])
  }

  method Phases(w: Recorder, task: Task, cid: string, driver: Driver, start: Start)
    returns (v: Verdict, ghost r: Reached)
    requires w.log == [] && !driver.Both?
    modifies w
    ensures Backed(Quiet(w.log), task, v) && Tells(Story(Quiet(w.log)), task, cid, driver, r)
    ensures Accounted(v, task, driver, start, r)
  {
    hide Quiet, Body, CountKind, OkCount, Story, Entered, Tells, Steps, Failures;
    r := Reached(0, 0, 0);
    match start {
      case SandboxError(error) =>
        NothingLogged(task, Verdict(ERROR, NotStarted(error)), w.log, cid, driver);
        return Verdict(ERROR, NotStarted(error)), r;
      case OtherError(error) =>
        NothingLogged(task, Unhandled(error), w.log, cid, driver);
        return Unhandled(error), r;
      case Starts =>
    }
    Begin(w, task, cid);
    ghost var q0 := Quiet(w.log);
    Later(q0, 1, 2);
    var setup;
    ghost var n;
    setup, n := RunSetup(w, task.setup);
    ghost var q1 := Quiet(w.log);
    Later(q1, 2, 4);
    Later(q1, 2, 3);
    r := Reached(n, 0, 0);
    NoneEntered(AgentCommand, Steps(driver), q1);
    NoneEntered(VerifyCommand, task.verify, q1);
    if !setup.Done? {
      TellsPhases(q0, q1, q1, q1, task, cid, driver, r);
      v := if setup.Raise? then Unhandled(setup.error) else Verdict(ERROR, SetupFailed(setup.code, setup.cmd));
      return;
    }
    assert task.setup[..n] == task.setup;
    v, r := AgentAndVerify(w, task, cid, driver, q0);
  }

  /** The phases after setup. */
  method AgentAndVerify(w: Recorder, task: Task, cid: string, driver: Driver, ghost q0: seq<Event>)
    returns (v: Verdict, ghost r: Reached)
    requires Body(Quiet(w.log), 3) && !driver.Both?
    requires Fresh(q0) && Story(q0) == [(RunStarted, StartedData(task.id, task.image, cid))]
    requires Extends(Quiet(w.log), q0, SetupCommand, task.setup, |task.setup|, |task.setup|) && AllOk(task.setup)
    modifies w
    ensures Backed(Quiet(w.log), task, v) && Tells(Story(Quiet(w.log)), task, cid, driver, r)
    ensures Accounted(v, task, driver, Starts, r)
  {
    hide Quiet, Body, CountKind, OkCount, Story, Entered, Tells, Steps, Failures;
    ghost var q1 := Quiet(w.log);
    var raised, count;
    ghost var m, ok;
    raised, count, m, ok := RunAgent(w, driver);
    ghost var q2 := Quiet(w.log);
    Later(q2, 3, 4);
    assert task.setup[..|task.setup|] == task.setup;
    if raised.Some? {
      NoneEntered(VerifyCommand, task.verify, q2);
      r := Reached(|task.setup|, m, 0);
      TellsPhases(q0, q1, q2, q2, task, cid, driver, r);
      return Unhandled(raised.value), r;
    }
    var verify, failures;
    ghost var k;
    verify, failures, k := RunVerify(w, task.verify);
    r := Reached(|task.setup|, m, k);
    TellsPhases(q0, q1, q2, Quiet(w.log), task, cid, driver, r);
    if verify.Raise? {
      return Unhandled(verify.error), r;
    }
    assert task.verify[..k] == task.verify;
    if failures == [] {
      v := Verdict(PASSED, AllPassed);
    } else if count == 0 {
      v := Verdict(FAILED, NoAgentActivity);
    } else {
      v := Verdict(FAILED, VerifyFailed(failures));
    }
  }

  lemma NothingLogged(task: Task, v: Verdict, log: seq<Event>, cid: string, driver: Driver)
    requires log == [] && (v.Unhandled? || (v.status == ERROR && v.reason.NotStarted?))
    ensures Backed(Quiet(log), task, v) && Tells(Story(Quiet(log)), task, cid, driver, Reached(0, 0, 0))
  {
  }

  /** The status and the reason that go into the log. */
  function Sealed(v: Verdict): Data {
    match v
    case Unhandled(error) => FinishData(ERROR, "unhandled: " + error)
    case Verdict(status, reason) => FinishData(status, LoggedReason(reason))
  }

  predicate Passes(r: Outcome) {
    r.Returned? && r.status == PASSED
  }

  /** The result is "passed" exactly when every setup and verify command was logged with exit code 0. */
  predicate PassedIffLogged(task: Task, r: Outcome, log: seq<Event>) {
    var q := Quiet(log);
    && (Passes(r) <==>
        r.Returned? && |q| > 1 &&
        OkCount(q, SetupCommand) == |task.setup| && OkCount(q, VerifyCommand) == |task.verify|)
    && (task.verify != [] ==> (Passes(r) <==> OkCount(q, VerifyCommand) == |task.verify|))
  }

  /**
   * Both readers of the log give the result's status, unless an egress event came in after
   * run_finished: then the batch reader says "incomplete". The logged reason is the result's, unless
   * the sandbox did not start.
   */
  predicate ReadersAgree(r: Outcome, log: seq<Event>) {
    && log != []
    && SummaryOutcome(log) == (if r.Returned? then r.status else ERROR)
    && OutcomeFromTrajectory(log) == (if Finished(log[|log| - 1]) then SummaryOutcome(log) else "incomplete")
    && (r.Raised? ==> SummaryReason(log) == "unhandled: " + r.error)
    && (r.Returned? ==> SummaryReason(log) == LoggedReason(r.reason))
    && (r.Returned? ==> (SummaryReason(log) == ReasonText(r.reason) <==> !r.reason.NotStarted?))
  }

  predicate NoActivityIffNone(r: Outcome, log: seq<Event>) {
    r.Returned? ==>
      (r.reason == NoAgentActivity <==> r.status == FAILED && CountKind(Quiet(log), AgentCommand) == 0)
  }

  function VerdictOf(r: Outcome): Verdict
    requires !r.Rejected?
  {
    if r.Raised? then Unhandled(r.error) else Verdict(r.status, r.reason)
  }

  function OutcomeOf(v: Verdict): Outcome {
    match v
    case Unhandled(error) => Raised(error)
    case Verdict(status, reason) => Returned(status, reason)
  }

  /**
   * With egress erased, the log is a prefix of run_started setup* agent* verify*, then run_finished,
   * and what it holds are the commands that were tried and exited, in order.
   */
  method Run(task: Task, cid: string, driver: Driver, start: Start, due: seq<seq<Data>>)
    returns (r: Outcome, log: seq<Event>, ghost reached: Reached)
    ensures r.Rejected? <==> driver.Both?
    ensures r.Rejected? ==> log == []
    ensures !r.Rejected? ==>
              IsRunLog(Quiet(log)) && PassedIffLogged(task, r, log) && ReadersAgree(r, log) && NoActivityIffNone(r, log)
    ensures !r.Rejected? ==> Story(log) != [] && Tells(Story(log)[..|Story(log)| - 1], task, cid, driver, reached)
    ensures !r.Rejected? ==> Accounted(VerdictOf(r), task, driver, start, reached)
  {
    hide Quiet, Story, IsRunLog, PassedIffLogged, ReadersAgree, NoActivityIffNone, Backed, Tells, Accounted, Sealed;
    if driver.Both? {
      return Rejected, [], Reached(0, 0, 0);
    }
    var w := new Recorder(due);
    var v;
    v, reached := Phases(w, task, cid, driver, start);
    ghost var q := Quiet(w.log);
    var e := w.Write(RunFinished, Sealed(v));
    w.Egress();
    log := w.log;
    r := OutcomeOf(v);
    Concluded(log, q, e, task, v);
    StoryIsQuiet(log);
    StorySnoc(q, e);
    Snoc(Story(q), (e.kind, e.data));
  }

  lemma {:induction false} StoryIsQuiet(log: seq<Event>)
    ensures Story(Quiet(log)) == Story(log)
  {
    if log != [] {
      var init, e := log[..|log| - 1], log[|log| - 1];
      StoryIsQuiet(init);
      QuietSnoc(init, e);
      assert init + [e] == log;
      if e.kind != EgressAttempt {
        StorySnoc(Quiet(init), e);
      }
    }
  }

  lemma Concluded(log: seq<Event>, q: seq<Event>, e: Event, task: Task, v: Verdict)
    requires Quiet(log) == q + [e] && e.kind == RunFinished && e.data == Sealed(v) && Backed(q, task, v)
    ensures var r := OutcomeOf(v);
            IsRunLog(Quiet(log)) && PassedIffLogged(task, r, log) && ReadersAgree(r, log) && NoActivityIffNone(r, log)
  {
    SealedLog(log, q, e);
    ConcludedPassed(log, q, e, task, v);
    ConcludedReaders(log, q, e, v);
    ConcludedActivity(log, q, e, task, v);
    hide Quiet, IsRunLog, PassedIffLogged, ReadersAgree, NoActivityIffNone, Backed, Sealed, OutcomeOf;
  }

  lemma ConcludedPassed(log: seq<Event>, q: seq<Event>, e: Event, task: Task, v: Verdict)
    requires Quiet(log) == q + [e] && e.kind == RunFinished && Backed(q, task, v)
    ensures PassedIffLogged(task, OutcomeOf(v), log)
  {
    hide Quiet, Body, OkCount, CountKind;
    SealedCounts(q, e);
    assert |q + [e]| > 1 <==> q != [];
    assert Passes(OutcomeOf(v)) <==> v == Verdict(PASSED, AllPassed);
  }

  lemma ConcludedReaders(log: seq<Event>, q: seq<Event>, e: Event, v: Verdict)
    requires log != [] && Quiet(log) == q + [e] && e.kind == RunFinished && e.data == Sealed(v)
    ensures ReadersAgree(OutcomeOf(v), log)
  {
    SealedSummary(log, q, e, v);
    hide Quiet, Sealed, ReasonText, LoggedReason, Finished, SummaryOutcome, SummaryReason, OutcomeFromTrajectory;
  }

  lemma ConcludedActivity(log: seq<Event>, q: seq<Event>, e: Event, task: Task, v: Verdict)
    requires Quiet(log) == q + [e] && e.kind == RunFinished && Backed(q, task, v)
    ensures NoActivityIffNone(OutcomeOf(v), log)
  {
    hide Quiet, Body, OkCount, CountKind;
    SealedCounts(q, e);
  }

  lemma SealedLog(log: seq<Event>, q: seq<Event>, e: Event)
    requires Quiet(log) == q + [e] && e.kind == RunFinished && Body(q, 4)
    ensures log != [] && IsRunLog(q + [e])
  {
    Snoc(q, e);
  }

  lemma SealedCounts(q: seq<Event>, e: Event)
    requires e.kind == RunFinished
    ensures forall k :: k != RunFinished ==>
              CountKind(q + [e], k) == CountKind(q, k) && OkCount(q + [e], k) == OkCount(q, k)
  {
    forall k | k != RunFinished
      ensures CountKind(q + [e], k) == CountKind(q, k) && OkCount(q + [e], k) == OkCount(q, k)
    {
      CountsSnoc(q, e, k);
    }
  }

  /** The reason that goes into the log. */
  function SealedReason(v: Verdict): string {
    match v
    case Unhandled(error) => "unhandled: " + error
    case Verdict(_, reason) => LoggedReason(reason)
  }

  lemma SealedFields(v: Verdict)
    ensures StrField(Sealed(v), "result", "incomplete") == (if v.Unhandled? then ERROR else v.status)
    ensures StrField(Sealed(v), "reason", "") == SealedReason(v)
    ensures v.Verdict? ==> (LoggedReason(v.reason) == ReasonText(v.reason) <==> !v.reason.NotStarted?)
  {
    assert "result" != "reason" by { assert "result"[2] != "reason"[2]; }
    if v.Verdict? && v.reason.NotStarted? {
      StartReason(v.reason.error);
    }
    hide ReasonText;
  }

  lemma StartReason(error: string)
    ensures ReasonText(NotStarted(error)) == error != "sandbox start: " + error
  {
    assert |"sandbox start: " + error| > |error|;
  }

  lemma SealedLast(log: seq<Event>, q: seq<Event>, e: Event)
    requires Quiet(log) == q + [e] && Finished(e)
    ensures Last(log, Finished) == Some(e)
  {
    LastFinishedIsQuiet(log);
    LastOne(q, e);
  }

  lemma Readings(log: seq<Event>, e: Event)
    requires log != [] && Last(log, Finished) == Some(e)
    ensures SummaryOutcome(log) == Result(e) && SummaryReason(log) == StrField(e.data, "reason", "")
    ensures OutcomeFromTrajectory(log) == (if Finished(log[|log| - 1]) then Result(e) else "incomplete")
  {
    hide Result, StrField;
  }

  lemma SealedSummary(log: seq<Event>, q: seq<Event>, e: Event, v: Verdict)
    requires log != [] && Quiet(log) == q + [e] && Finished(e) && e.data == Sealed(v)
    ensures SummaryOutcome(log) == (if v.Unhandled? then ERROR else v.status)
    ensures OutcomeFromTrajectory(log) == (if Finished(log[|log| - 1]) then SummaryOutcome(log) else "incomplete")
    ensures SummaryReason(log) == SealedReason(v)
    ensures v.Verdict? ==> (SummaryReason(log) == ReasonText(v.reason) <==> !v.reason.NotStarted?)
  {
    SealedLast(log, q, e);
    SealedFields(v);
    hide Quiet, Last, Sealed, ReasonText, LoggedReason, StrField, SummaryOutcome, SummaryReason, OutcomeFromTrajectory;
    Readings(log, e);
  }

  lemma LastOne(q: seq<Event>, e: Event)
    requires Finished(e)
    ensures Last(q + [e], Finished) == Some(e)
  {
    Snoc(q, e);
  }

  // ----- What the statistics make of a run's log -----

  lemma {:induction false} CountInStory(log: seq<Event>, k: EventType, p: ((EventType, Data)) -> bool)
    requires k != EgressAttempt && forall x :: p(x) <==> x.0 == k
    ensures CountKind(log, k) == Count(Story(log), p)
  {
    if log != [] {
      var init, e := log[..|log| - 1], log[|log| - 1];
      CountInStory(init, k, p);
      if e.kind == EgressAttempt {
        assert Story(init) + [] == Story(init);
      } else {
        Snoc(Story(init), (e.kind, e.data));
      }
    }
  }

  lemma {:induction false} CountAppend<T>(xs: seq<T>, ys: seq<T>, p: T -> bool)
    ensures Count(xs + ys, p) == Count(xs, p) + Count(ys, p)
  {
    if ys == [] {
      assert xs + ys == xs;
    } else {
      var n := |ys| - 1;
      CountAppend(xs, ys[..n], p);
      assert xs + ys == (xs + ys[..n]) + [ys[n]];
      Snoc(xs + ys[..n], ys[n]);
    }
  }

  lemma CountOne<T>(x: T, p: T -> bool)
    ensures Count([x], p) == if p(x) then 1 else 0
  {
    assert [x][..0] == [];
  }

  predicate Exited(s: Step) {
    s.ran.Exits?
  }

  lemma {:induction false} CountEntered(kind: EventType, steps: seq<Step>, k: EventType, p: ((EventType, Data)) -> bool)
    requires forall x :: p(x) <==> x.0 == k
    ensures Count(Entered(kind, steps), p) == if kind == k then Count(steps, Exited) else 0
  {
    if steps != [] {
      var n := |steps| - 1;
      CountEntered(kind, steps[..n], k, p);
      var rest := Entered(kind, steps[..n]);
      if steps[n].ran.Exits? {
        Snoc(rest, (kind, Line(steps[n])));
      } else {
        assert rest + [] == rest;
      }
    }
  }

  /** The agent's commands in a log that tells how far each phase came. */
  lemma AgentInStory(story: seq<(EventType, Data)>, finish: (EventType, Data), task: Task, cid: string, driver: Driver,
                     r: Reached, p: ((EventType, Data)) -> bool)
    requires Tells(story, task, cid, driver, r) && finish.0 == RunFinished
    requires forall x :: p(x) <==> x.0 == AgentCommand
    ensures Count(story + [finish], p) == Count(Steps(driver)[..r.agent], Exited)
  {
    hide Count, Entered;
    CountAppend(story, [finish], p);
    CountOne(finish, p);
    CountEntered(SetupCommand, task.setup[..r.setup], AgentCommand, p);
    CountEntered(AgentCommand, Steps(driver)[..r.agent], AgentCommand, p);
    CountEntered(VerifyCommand, task.verify[..r.verify], AgentCommand, p);
    if story == [] {
      NothingCounted(p, Steps(driver));
    } else {
      var start := (RunStarted, StartedData(task.id, task.image, cid));
      var a, b, c := Entered(SetupCommand, task.setup[..r.setup]), Entered(AgentCommand, Steps(driver)[..r.agent]),
                     Entered(VerifyCommand, task.verify[..r.verify]);
      CountOne(start, p);
      CountAppend([start], a, p);
      CountAppend([start] + a, b, p);
      CountAppend([start] + a + b, c, p);
    }
  }

  lemma NothingCounted(p: ((EventType, Data)) -> bool, steps: seq<Step>)
    ensures Count([], p) == 0 && Count(steps[..0], Exited) == 0
  {
  }

  lemma {:induction false} StoryAt(q: seq<Event>)
    requires forall i :: 0 <= i < |q| ==> q[i].kind != EgressAttempt
    ensures |Story(q)| == |q| && forall i :: 0 <= i < |q| ==> Story(q)[i] == (q[i].kind, q[i].data)
  {
    if q != [] {
      StoryAt(q[..|q| - 1]);
    }
  }

  lemma {:induction false} QuietHasNoEgress(log: seq<Event>)
    ensures forall i :: 0 <= i < |Quiet(log)| ==> Quiet(log)[i].kind != EgressAttempt
  {
    if log != [] {
      QuietHasNoEgress(log[..|log| - 1]);
    }
  }

  lemma {:induction false} LastNamedIsQuiet(log: seq<Event>)
    ensures Last(Quiet(log), Named) == Last(log, Named)
  {
    if log != [] {
      var init, e := log[..|log| - 1], log[|log| - 1];
      LastNamedIsQuiet(init);
      assert Quiet(init) + [] == Quiet(init);
      Snoc(Quiet(init), e);
    }
  }

  /** A run that got a container begins with run_started, which names task, image and container. */
  predicate Begun(e: Event, task: Task, cid: string) {
    && e.kind == RunStarted && TextField(e.data, "task_id") == task.id
    && TextField(e.data, "image") == task.image && TextField(e.data, "container_id") == cid
  }

  lemma StartSays(e: Event, task: Task, cid: string)
    requires e.kind == RunStarted && e.data == StartedData(task.id, task.image, cid)
    ensures Begun(e, task, cid) && Named(e) && TaskName(e) == task.id
  {
  }

  lemma QuietMirrorsStory(log: seq<Event>)
    ensures |Story(log)| == |Quiet(log)|
    ensures forall i :: 0 <= i < |Quiet(log)| ==> Story(log)[i] == (Quiet(log)[i].kind, Quiet(log)[i].data)
  {
    StoryIsQuiet(log);
    QuietHasNoEgress(log);
    StoryAt(Quiet(log));
  }

  lemma TellsStart(story: seq<(EventType, Data)>, task: Task, cid: string, driver: Driver, r: Reached)
    requires Tells(story, task, cid, driver, r) && story != []
    ensures story[0] == (RunStarted, StartedData(task.id, task.image, cid))
  {
    hide Entered, StartedData;
  }

  /** Only the first event of a run names it. */
  lemma OneName(q: seq<Event>)
    requires IsRunLog(q)
    ensures forall i :: 0 < i < |q| ==> q[i].kind != RunStarted
    ensures |q| == 1 ==> q[0].kind != RunStarted
  {
    forall i | 0 < i < |q| ensures q[i].kind != RunStarted {
      assert i < |q| - 1 ==> q[..|q| - 1][i] == q[i];
    }
  }

  lemma LastNameIsFirst(q: seq<Event>)
    requires q != [] && Named(q[0]) && forall i :: 0 < i < |q| ==> q[i].kind != RunStarted
    ensures Last(q, Named) == Some(q[0])
  {
    hide Last;
    LastIsAt(q, Named, 0);
  }

  lemma FirstOfRun(log: seq<Event>, task: Task, cid: string, driver: Driver, r: Reached)
    requires IsRunLog(Quiet(log)) && Story(log) != []
    requires Tells(Story(log)[..|Story(log)| - 1], task, cid, driver, r)
    ensures |Story(log)| == |Quiet(log)|
    ensures |Quiet(log)| > 1 ==> Begun(Quiet(log)[0], task, cid) && Last(log, Named) == Some(Quiet(log)[0]) &&
                                 TaskName(Quiet(log)[0]) == task.id
    ensures |Quiet(log)| == 1 ==> Last(log, Named) == None
  {
    hide Quiet, Story, Last, StartedData, Begun, TaskName, Tells, IsRunLog;
    var q, story := Quiet(log), Story(log);
    QuietMirrorsStory(log);
    LastNamedIsQuiet(log);
    OneName(q);
    if |q| > 1 {
      TellsStart(story[..|story| - 1], task, cid, driver, r);
      StartSays(q[0], task, cid);
      LastNameIsFirst(q);
    }
  }

  /**
   * A headless run is counted for what it was: under its task's id if it got a container, as passed,
   * failed or in error exactly if its result says so, and with the agent's commands that exited.
   */
  lemma RunIsCounted(task: Task, cid: string, driver: Driver, r: Outcome, log: seq<Event>, reached: Reached,
                     s: RunSummary)
    requires !r.Rejected? && IsRunLog(Quiet(log)) && ReadersAgree(r, log) && Story(log) != []
    requires Tells(Story(log)[..|Story(log)| - 1], task, cid, driver, reached) && Summarizes(log, s)
    ensures s.taskId == if |Quiet(log)| > 1 then Some(task.id) else None
    ensures Passed(s) <==> Passes(r)
    ensures Failed(s) <==> r.Returned? && r.status == FAILED
    ensures Errored(s) <==> r.Raised? || r.status == ERROR
    ensures s.agentCmds == Count(Steps(driver)[..reached.agent], Exited)
  {
    FirstOfRun(log, task, cid, driver, reached);
    AgentOfRun(log, task, cid, driver, reached);
    hide Quiet, Story, Tells, Last, CountKind, TaskName, Count, IsRunLog;
  }

  lemma AgentOfRun(log: seq<Event>, task: Task, cid: string, driver: Driver, r: Reached)
    requires IsRunLog(Quiet(log)) && Story(log) != []
    requires Tells(Story(log)[..|Story(log)| - 1], task, cid, driver, r)
    ensures CountAgent(log) == Count(Steps(driver)[..r.agent], Exited)
  {
    var p := (x: (EventType, Data)) => x.0 == AgentCommand;
    var n := |Story(log)| - 1;
    var finish := Story(log)[n];
    StoryIsQuiet(log);
    QuietHasNoEgress(log);
    StoryAt(Quiet(log));
    CountInStory(log, AgentCommand, p);
    hide Quiet, Story, Tells, CountKind, Count, Steps;
    AgentInStory(Story(log)[..n], finish, task, cid, driver, r, p);
    assert Story(log)[..n] + [finish] == Story(log);
  }
}
