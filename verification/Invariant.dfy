/** The invariant of the session protocol, and its preservation by every step. */
module Invariant {
  import opened Events
  import opened Branch
  import opened Protocol

  /** The logged commands a container or image holds, in the order they ran. */
  function Logged(hist: seq<Ran>): seq<Event> {
    if hist == [] then []
    else
      var rest := Logged(hist[..|hist| - 1]);
      var r := hist[|hist| - 1];
      if r.event.Some? then rest + [r.event.value] else rest
  }

  /** How many of them have no log line. */
  function Unlogged(hist: seq<Ran>): nat {
    if hist == [] then 0
    else Unlogged(hist[..|hist| - 1]) + if hist[|hist| - 1].event.None? then 1 else 0
  }

  lemma {:induction false} LoggedAndUnlogged(hist: seq<Ran>)
    ensures |Logged(hist)| + Unlogged(hist) == |hist|
    ensures forall e :: e in Logged(hist) <==> exists i :: 0 <= i < |hist| && hist[i].event == Some(e)
  {
    if hist != [] {
      var n := |hist| - 1;
      LoggedAndUnlogged(hist[..n]);
      assert hist == hist[..n] + [hist[n]];
      assert forall e :: e in Logged(hist) <==> e in Logged(hist[..n]) || hist[n].event == Some(e);
      assert forall i :: 0 <= i < n ==> hist[..n][i] == hist[i];
    }
  }

  /** A history holds exactly the logged commands of the log's replayed line, in order. */
  ghost predicate LineHeld(hist: seq<Ran>, log: seq<Event>) {
    Logged(hist) == Commands(Replay(log).line)
  }

  /** A history holds exactly the logged commands that the fork of `snap` saved. */
  ghost predicate SavedHeld(hist: seq<Ran>, log: seq<Event>, snap: string) {
    snap in Replay(log).saved && Logged(hist) == Commands(Replay(log).saved[snap])
  }

  type Objs = map<string, Session>
  type Logs = map<string, seq<Event>>

  ghost predicate LogsOk(logs: Logs, issued: set<string>) {
    forall p :: p in logs ==>
      p in issued && Legal(logs[p]) && forall id :: Forked(logs[p], id) ==> id in issued
  }

  ghost predicate WritersOk(objs: Objs, logs: Logs) {
    forall p :: p in objs ==>
      p in logs && objs[p].seqNo == |logs[p]| && objs[p].count == CountAgent(logs[p])
  }

  ghost predicate SwapPending(call: Call, p: string) {
    call.Swapped? && call.path == p
  }

  /** Each session's container exists and holds the commands of the log's line. */
  ghost predicate ContainersOk(objs: Objs, logs: Logs, containers: map<string, Container>, call: Call) {
    forall p :: p in objs && p in logs && objs[p].cont.Some? ==>
      objs[p].cont.value in containers &&
      (SwapPending(call, p) || LineHeld(containers[objs[p].cont.value].hist, logs[p]))
  }

  ghost predicate ForkPending(call: Call, p: string, s: string) {
    call.Forking? && call.path == p && call.snap == s
  }

  /** Each snapshot a session can revert to exists and holds what its fork saved. */
  ghost predicate SnapshotsOk(objs: Objs, logs: Logs, images: map<string, Image>, call: Call) {
    forall p, s :: p in objs && p in logs && s in objs[p].snaps ==>
      s in images &&
      (ForkPending(call, p, s) || SavedHeld(images[s].hist, logs[p], s))
  }

  /** No two sessions share a container or a snapshot. */
  ghost predicate Disjoint(objs: Objs) {
    && (forall p, q :: p in objs && q in objs && p != q && objs[p].cont.Some? ==> objs[q].cont != objs[p].cont)
    && (forall p, q, s :: p in objs && q in objs && p != q && s in objs[p].snaps ==> s !in objs[q].snaps)
  }

  ghost predicate TableOk(table: map<string, string>, objs: Objs) {
    && (forall sid :: sid in table ==> table[sid] in objs)
    && (forall a, b :: a in table && b in table && table[a] == table[b] ==> a == b)
  }

  /** A listed session's snapshots carry its id. */
  ghost predicate OwnersOk(table: map<string, string>, objs: Objs, images: map<string, Image>) {
    forall sid, s :: sid in table && table[sid] in objs && s in objs[table[sid]].snaps ==>
      s in images && images[s].owner == sid
  }

  /** A container named by a session file holds the commands of that session's log. */
  ghost predicate DescsOk(descs: map<string, Descriptor>, logs: Logs, containers: map<string, Container>) {
    && (forall sid :: sid in descs && descs[sid].Desc? ==>
          descs[sid].path in logs &&
          (descs[sid].cid in containers ==>
             LineHeld(containers[descs[sid].cid].hist, logs[descs[sid].path])))
    && (forall a, b :: a in descs && b in descs && descs[a].Desc? && descs[b].Desc? && a != b ==>
          descs[a].path != descs[b].path && descs[a].cid != descs[b].cid)
  }

  ghost predicate PriorIs(call: Call, p: string, cid: string) {
    call.Reverting? && call.path == p && call.prior == Some(cid)
  }

  /** The tool call behind a running command. */
  function Base(call: Call): Call {
    if call.Running? then call.after else call
  }

  predicate InTeardown(call: Call) {
    Base(call).Finishing? || Base(call).Stopped?
  }

  ghost predicate Holds(table: map<string, string>, call: Call, sid: string, p: string) {
    || (sid in table && table[sid] == p)
    || Base(call) == Finishing(sid, p)
    || Base(call) == Stopped(sid, p)
  }

  /** A session file whose session is in memory names its container, or one that is gone or going. */
  ghost predicate DescLink(descs: map<string, Descriptor>, objs: Objs, table: map<string, string>,
                           containers: map<string, Container>, call: Call) {
    forall sid :: sid in descs && descs[sid].Desc? ==>
      var p, cid := descs[sid].path, descs[sid].cid;
      && (p in objs ==>
            Holds(table, call, sid, p) &&
            (objs[p].cont == Some(cid) || cid !in containers || PriorIs(call, p, cid)))
      && (forall q :: q in objs && objs[q].cont == Some(cid) ==> q == p)
      && (sid in table ==> table[sid] == p)
  }

  ghost predicate SavePending(call: Call, sid: string) {
    (call.Saving? || call.Swapped?) && call.sid == sid
  }

  /** Between saves, every session in the dict has a current session file. */
  ghost predicate Saved(descs: map<string, Descriptor>, objs: Objs, table: map<string, string>, call: Call) {
    forall sid :: sid in table && table[sid] in objs ==>
      SavePending(call, sid) ||
      (sid in descs && descs[sid].Desc? && descs[sid].path == table[sid] &&
       (objs[table[sid]].cont.Some? ==> objs[table[sid]].cont.value == descs[sid].cid))
  }

  ghost predicate IssuedOk(w: World) {
    && w.containers.Keys <= w.issued && w.images.Keys <= w.issued && w.logs.Keys <= w.issued
    && w.table.Keys <= w.issued && w.descs.Keys <= w.issued && w.objs.Keys <= w.issued
    && (forall sid :: sid in w.descs && w.descs[sid].Desc? ==> w.descs[sid].cid in w.issued)
    && "" !in w.issued
  }

  ghost predicate HeldIssued(objs: Objs, call: Call, issued: set<string>) {
    && (forall p :: p in objs && objs[p].cont.Some? ==> objs[p].cont.value in issued)
    && (forall p, s :: p in objs && s in objs[p].snaps ==> s in issued)
    && (call.Forking? ==> call.snap in issued)
  }

  ghost predicate Unlisted(objs: Objs, table: map<string, string>, p: string) {
    p in objs && forall sid :: sid in table ==> table[sid] != p
  }

  /** The session object that the call in progress holds outside the dict. */
  function Local(call: Call): Option<string> {
    match Base(call)
    case Starting(p) => Some(p)
    case Finishing(_, p) => Some(p)
    case Stopped(_, p) => Some(p)
    case _ => None
  }

  ghost predicate ListedOk(objs: Objs, table: map<string, string>, call: Call) {
    forall p :: p in objs ==> Local(call) == Some(p) || exists sid :: sid in table && table[sid] == p
  }

  // What holds of the call in progress, by its kind.

  ghost predicate DownOk(objs: Objs, table: map<string, string>, call: Call) {
    call.Down? ==> objs == map[] && table == map[]
  }

  ghost predicate BootOk(descs: map<string, Descriptor>, table: map<string, string>, call: Call) {
    call.Booting? ==> call.todo <= descs.Keys && call.todo !! table.Keys
  }

  ghost predicate LocalOk(objs: Objs, table: map<string, string>, call: Call) {
    && (Local(call).Some? ==> Unlisted(objs, table, Local(call).value))
    && (InTeardown(call) ==> Base(call).sid !in table)
    && (call.Stopped? && call.path in objs ==> objs[call.path].cont.None?)
  }

  ghost predicate StartOk(objs: Objs, logs: Logs, descs: map<string, Descriptor>, call: Call) {
    Base(call).Starting? ==>
      var p := Base(call).path;
      && p in objs && objs[p].snaps == {}
      && (objs[p].cont.None? && p in logs ==> LineHeld([], logs[p]))
      && (forall sid :: sid in descs && descs[sid].Desc? ==> descs[sid].path != p)
  }

  ghost predicate AfterOk(call: Call) {
    call.Running? ==> call.after.Idle? || call.after.Starting? || call.after.Finishing?
  }

  ghost predicate RunOk(objs: Objs, table: map<string, string>, containers: map<string, Container>, call: Call) {
    call.Running? ==>
      && call.path in objs && objs[call.path].cont.Some?
      && objs[call.path].cont.value in containers
      && containers[objs[call.path].cont.value].hist != []
      && Newest(containers[objs[call.path].cont.value].hist) == Ran(call.cmd, None)
      && Active(objs, table, call.after, call.path)
  }

  /** A call on a listed session. */
  ghost predicate SessionOk(objs: Objs, table: map<string, string>, call: Call) {
    call.Saving? || call.Forking? || call.Reverting? || call.Swapped? ==>
      && call.sid in table && table[call.sid] == call.path && call.path in objs
      && (objs[call.path].cont.None? <==> call.Reverting?)
  }

  ghost predicate ForkOk(objs: Objs, logs: Logs, images: map<string, Image>, call: Call) {
    call.Forking? && call.path in objs && call.path in logs ==>
      && call.snap in objs[call.path].snaps && call.snap in images && call.snap != ""
      && LineHeld(images[call.snap].hist, logs[call.path])
      && !Forked(logs[call.path], call.snap)
  }

  ghost predicate RevertOk(objs: Objs, call: Call) {
    call.Reverting? && call.path in objs ==>
      && call.snap in objs[call.path].snaps
      && (call.prior.Some? ==> forall q :: q in objs ==> objs[q].cont != call.prior)
  }

  ghost predicate SwapOk(objs: Objs, logs: Logs, containers: map<string, Container>,
                         descs: map<string, Descriptor>, call: Call) {
    call.Swapped? && call.path in objs && objs[call.path].cont.Some? && call.path in logs ==>
      && objs[call.path].cont.value in containers
      && SavedHeld(containers[objs[call.path].cont.value].hist, logs[call.path], call.snap)
      && (forall sid :: sid in descs && descs[sid].Desc? && descs[sid].path == call.path ==>
            descs[sid].cid !in containers)
  }

  /** Until it is rewritten, the file of a session that is being saved names no container that exists. */
  ghost predicate SavingOk(descs: map<string, Descriptor>, containers: map<string, Container>, call: Call) {
    call.Saving? && call.sid in descs && descs[call.sid].Desc? ==> descs[call.sid].cid !in containers
  }

  /** The call in progress may still be at work on the session `sid`. */
  predicate AtWork(call: Call, sid: string) {
    || call.Down?
    || (call.Booting? && sid in call.todo)
    || (InTeardown(call) && Base(call).sid == sid)
  }

  /** Each session file belongs to a listed session, or to one the call in progress is bringing back or ending. */
  ghost predicate FiledOk(descs: map<string, Descriptor>, table: map<string, string>, call: Call) {
    forall sid :: sid in descs ==> sid in table || AtWork(call, sid)
  }

  /** The file of a session that is being ended is of the object that is being ended. */
  ghost predicate TeardownOk(descs: map<string, Descriptor>, call: Call) {
    InTeardown(call) && Base(call).sid in descs && descs[Base(call).sid].Desc? ==>
      descs[Base(call).sid].path == Base(call).path
  }

  /** Until it is removed, the container a revert replaces exists and is the one the session file names. */
  ghost predicate PriorOk(descs: map<string, Descriptor>, containers: map<string, Container>, call: Call) {
    call.Reverting? && call.prior.Some? ==>
      && call.prior.value in containers
      && call.sid in descs && descs[call.sid].Desc? && descs[call.sid].cid == call.prior.value
  }

  /** A listed session's file tells its network mode. */
  ghost predicate ModeOk(descs: map<string, Descriptor>, objs: Objs, table: map<string, string>) {
    forall sid :: sid in table && table[sid] in objs && sid in descs && descs[sid].Desc? ==>
      descs[sid].restricted == objs[table[sid]].restricted
  }

  function Newest(hist: seq<Ran>): Ran
    requires hist != []
  {
    hist[|hist| - 1]
  }

  /** Commands without a log line: at most one for each interrupted exec, plus the running one. */
  ghost predicate LostOk(containers: map<string, Container>, images: map<string, Image>, objs: Objs, call: Call,
                         interrupted: nat) {
    && (forall c :: c in containers ==>
          Unlogged(containers[c].hist) <= interrupted + if RunsIn(objs, call, c) then 1 else 0)
    && (forall i :: i in images ==> Unlogged(images[i].hist) <= interrupted)
  }

  ghost predicate RunsIn(objs: Objs, call: Call, c: string) {
    call.Running? && call.path in objs && objs[call.path].cont == Some(c)
  }

  ghost predicate Inv(w: World) {
    ContentInv(w) && OwnerInv(w) && CallInv(w)
  }

  // ---------------------------------------------------------------------
  // Logs
  // ---------------------------------------------------------------------

  lemma LegalSnoc(log: seq<Event>, e: Event)
    requires Legal(log) && e.seqNo == |log|
    requires IsFork(e) ==> !Forked(log, SnapshotId(e))
    requires IsRevert(e) ==> Forked(log, SnapshotId(e))
    ensures Legal(log + [e])
  {
    var log' := log + [e];
    forall r | 0 <= r < |log'| && IsRevert(log'[r])
      ensures Forked(log'[..r], SnapshotId(log'[r]))
    {
      if r < |log| {
        assert log'[..r] == log[..r];
      } else {
        assert log'[..r] == log;
      }
    }
  }

  lemma MarkerIds(snap: string, cid: string)
    ensures TextField(ForkData(snap, cid), "snapshot_id") == snap
    ensures forall previous :: TextField(RevertData(snap, previous, cid), "snapshot_id") == snap
  {
  }

  /** The event a step appends has the next number, and is a marker only where it may be. */
  ghost predicate AppendOk(w: World, a: Action)
    requires Enabled(w, a)
  {
    Appended(w, a).Some? ==>
      var (p, e) := Appended(w, a).value;
      && p in w.logs && p in w.objs && e.seqNo == |w.logs[p]| && Legal(w.logs[p] + [e])
      && (IsFork(e) <==> a.LogFork?) && (IsRevert(e) <==> a.LogRevert?) && (IsCommand(e) <==> a.LogRun?)
      && (a.LogFork? || a.LogRevert? ==> SnapshotId(e) == w.call.snap)
  }

  /** What is appended: where, numbered how, and of what kind. */
  lemma AppendShape(w: World, a: Action)
    requires Enabled(w, a) && Appended(w, a).Some? && WritersOk(w.objs, w.logs)
    ensures var (p, e) := Appended(w, a).value;
      && p in w.logs && p in w.objs && e.seqNo == |w.logs[p]|
      && (IsFork(e) ==> a.LogFork?) && (IsRevert(e) <==> a.LogRevert?) && (IsCommand(e) <==> a.LogRun?)
      && (a.LogFork? || a.LogRevert? ==> p == w.call.path && SnapshotId(e) == w.call.snap)
      && (a.LogFork? ==> e.kind == SessionForked)
  {
    hide CountAgent, WithoutContainer;
    match a
    case LogRun(_) =>
    case Write(_, _, _) =>
    case LogFork => MarkerIds(w.call.snap, w.objs[w.call.path].cont.value);
    case LogRevert => MarkerIds(w.call.snap, w.objs[w.call.path].cont.value);
  }

  lemma SavedIsForked(log: seq<Event>, id: string)
    requires Legal(log) && id in Replay(log).saved
    ensures Forked(log, id)
  {
    ReplayShape(log);
  }

  lemma AppendIsLegal(w: World, a: Action)
    requires Enabled(w, a)
    requires LogsOk(w.logs, w.issued) && WritersOk(w.objs, w.logs) && ForkOk(w.objs, w.logs, w.images, w.call)
    requires SwapOk(w.objs, w.logs, w.containers, w.descs, w.call)
    ensures AppendOk(w, a)
  {
    hide WritersOk, LineHeld, Legal, Forked;
    if Appended(w, a).Some? {
      AppendShape(w, a);
      var (p, e) := Appended(w, a).value;
      hide Appended;
      if a.LogRevert? {
        SavedIsForked(w.logs[p], SnapshotId(e));
      }
      LegalSnoc(w.logs[p], e);
    }
  }

  // ---------------------------------------------------------------------
  // How one more event or one more command changes a history
  // ---------------------------------------------------------------------

  lemma ReplaySnoc(log: seq<Event>, e: Event)
    ensures Replay(log + [e]) == Advance(Replay(log), e)
  {
    Snoc(log, e);
  }

  lemma LineSnoc(log: seq<Event>, e: Event, hist: seq<Ran>)
    requires !IsRevert(e) && !IsCommand(e) && LineHeld(hist, log)
    ensures LineHeld(hist, log + [e])
    ensures IsFork(e) ==> SavedHeld(hist, log + [e], SnapshotId(e))
  {
    ReplaySnoc(log, e);
    CommandsSnoc(Replay(log).line, e);
    hide Logged, Commands, Replay;
  }

  lemma RevertSnoc(log: seq<Event>, e: Event, hist: seq<Ran>)
    requires IsRevert(e) && SavedHeld(hist, log, SnapshotId(e))
    ensures LineHeld(hist, log + [e])
  {
    ReplaySnoc(log, e);
    CommandsSnoc(Replay(log).saved[SnapshotId(e)], e);
    hide Logged, Commands, Replay;
  }

  lemma SavedSnoc(log: seq<Event>, e: Event, hist: seq<Ran>, snap: string)
    requires SavedHeld(hist, log, snap) && !(IsFork(e) && SnapshotId(e) == snap)
    ensures SavedHeld(hist, log + [e], snap)
  {
    ReplaySnoc(log, e);
    hide Logged, Commands, Replay;
  }

  /** One more log line, against any history. */
  lemma HeldSnoc(log: seq<Event>, e: Event)
    ensures !IsRevert(e) && !IsCommand(e) ==>
      forall hist :: LineHeld(hist, log) ==> LineHeld(hist, log + [e])
    ensures IsRevert(e) ==>
      forall hist :: SavedHeld(hist, log, SnapshotId(e)) ==> LineHeld(hist, log + [e])
    ensures IsFork(e) ==>
      forall hist :: LineHeld(hist, log) ==> SavedHeld(hist, log + [e], SnapshotId(e))
    ensures forall hist, snap :: SavedHeld(hist, log, snap) && !(IsFork(e) && SnapshotId(e) == snap)
              ==> SavedHeld(hist, log + [e], snap)
  {
    hide LineHeld, SavedHeld;
    forall hist | !IsRevert(e) && !IsCommand(e) && LineHeld(hist, log)
      ensures LineHeld(hist, log + [e]) && (IsFork(e) ==> SavedHeld(hist, log + [e], SnapshotId(e)))
    {
      LineSnoc(log, e, hist);
    }
    forall hist | IsRevert(e) && SavedHeld(hist, log, SnapshotId(e)) ensures LineHeld(hist, log + [e]) {
      RevertSnoc(log, e, hist);
    }
    forall hist, snap | SavedHeld(hist, log, snap) && !(IsFork(e) && SnapshotId(e) == snap)
      ensures SavedHeld(hist, log + [e], snap)
    {
      SavedSnoc(log, e, hist, snap);
    }
  }

  /** The newest command of a history gets its log line. */
  lemma HeldPromote(hist: seq<Ran>, log: seq<Event>, r: Ran)
    requires hist != [] && Newest(hist).event.None? && r.event.Some? && IsCommand(r.event.value)
    requires LineHeld(hist, log)
    ensures LineHeld(hist[..|hist| - 1] + [r], log + [r.event.value])
  {
    hide Logged, Commands;
    var e := r.event.value;
    HistPromote(hist, r);
    Snoc(log, e);
    CommandsSnoc(Replay(log).line, e);
    assert Replay(log + [e]).line == Replay(log).line + [e];
  }

  lemma HeldRun(hist: seq<Ran>, cmd: string)
    ensures forall log :: LineHeld(hist, log) ==> LineHeld(hist + [Ran(cmd, None)], log)
  {
    HistSnoc(hist, Ran(cmd, None));
  }

  lemma HeldEmpty()
    ensures LineHeld([], []) && Unlogged([]) == 0
  {
  }

  lemma HistSnoc(hist: seq<Ran>, r: Ran)
    ensures Logged(hist + [r]) == Logged(hist) + if r.event.Some? then [r.event.value] else []
    ensures Unlogged(hist + [r]) == Unlogged(hist) + if r.event.None? then 1 else 0
  {
    Snoc(hist, r);
  }

  lemma HistPromote(hist: seq<Ran>, r: Ran)
    requires hist != [] && Newest(hist).event.None? && r.event.Some?
    ensures Logged(hist[..|hist| - 1] + [r]) == Logged(hist) + [r.event.value]
    ensures Unlogged(hist[..|hist| - 1] + [r]) == Unlogged(hist) - 1
  {
    HistSnoc(hist[..|hist| - 1], r);
  }

  lemma CountNone()
    ensures CountAgent([]) == 0
  {
  }

  lemma CountSnoc(log: seq<Event>, e: Event)
    ensures CountAgent(log + [e]) == CountAgent(log) + if e.kind == AgentCommand then 1 else 0
  {
    Snoc(log, e);
  }

  // ---------------------------------------------------------------------
  // Preservation, one conjunct at a time
  // ---------------------------------------------------------------------

  lemma AppendedIds(log: seq<Event>, e: Event, issued: set<string>)
    requires forall id :: Forked(log, id) ==> id in issued
    requires IsFork(e) ==> SnapshotId(e) in issued
    ensures forall id :: Forked(log + [e], id) ==> id in issued
  {
    hide Forked;
    forall id | Forked(log + [e], id) ensures id in issued { ForkedSnoc(log, e, id); }
  }

  lemma LogsAppend(logs: Logs, p: string, e: Event, issued: set<string>, issued1: set<string>)
    requires LogsOk(logs, issued) && issued <= issued1
    requires p in logs && Legal(logs[p] + [e]) && (IsFork(e) ==> SnapshotId(e) in issued)
    ensures LogsOk(logs[p := logs[p] + [e]], issued1)
  {
    hide Legal, Forked;
    AppendedIds(logs[p], e, issued);
  }

  lemma LogsOpened(logs: Logs, p: string, issued: set<string>)
    requires LogsOk(logs, issued)
    ensures LogsOk(logs[p := []], issued + {p})
  {
    EmptyLogOk();
    hide Legal, Forked;
  }

  lemma LogsGrown(logs: Logs, issued: set<string>, issued1: set<string>)
    requires LogsOk(logs, issued) && issued <= issued1
    ensures LogsOk(logs, issued1)
  {
    hide Legal, Forked;
  }

  lemma ForkIsIssued(w: World)
    requires Enabled(w, LogFork) && HeldIssued(w.objs, w.call, w.issued)
    ensures w.call.snap in w.issued
  {
  }

  lemma KeepsLogsOk(w: World, a: Action)
    requires Enabled(w, a) && AppendOk(w, a)
    requires LogsOk(w.logs, w.issued) && HeldIssued(w.objs, w.call, w.issued)
    ensures LogsOk(NextLogs(w, a), NextIssued(w, a))
  {
    assert w.issued <= NextIssued(w, a);
    assert a.OpenLog? ==> NextIssued(w, a) == w.issued + {a.path} && Appended(w, a).None?;
    hide LogsOk, HeldIssued, Legal, Appended, Enabled, NextIssued;
    if Appended(w, a).Some? {
      var (p, e) := Appended(w, a).value;
      if a.LogFork? {
        ForkIsIssued(w);
      }
      LogsAppend(w.logs, p, e, w.issued, NextIssued(w, a));
    } else if a.OpenLog? {
      LogsOpened(w.logs, a.path, w.issued);
    } else {
      LogsGrown(w.logs, w.issued, NextIssued(w, a));
    }
  }

  lemma EmptyLogOk()
    ensures Legal([]) && forall id :: !Forked([], id)
  {
  }

  lemma NextNumber(log: seq<Event>)
    requires Legal(log)
    ensures RecoverNext(log) == |log|
  {
  }

  lemma BootNumber(w: World, a: Action)
    requires Enabled(w, a) && LogsOk(w.logs, w.issued)
    ensures a.BootResume? ==> RecoverNext(w.logs[w.descs[a.sid].path]) == |w.logs[w.descs[a.sid].path]|
  {
    if a.BootResume? { NextNumber(w.logs[w.descs[a.sid].path]); }
  }

  lemma LoggingWriters(w: World, a: Action)
    requires Enabled(w, a) && Appended(w, a).Some? && WritersOk(w.objs, w.logs)
    ensures WritersOk(NextObjs(w, a), NextLogs(w, a))
  {
    hide CountAgent;
    var (p, e) := Appended(w, a).value;
    CountSnoc(w.logs[p], e);
    match a
    case LogRun(_) =>
    case Write(_, _, _) =>
    case LogFork =>
    case LogRevert =>
  }

  lemma OthersWriters(w: World, a: Action)
    requires Enabled(w, a) && Appended(w, a).None? && WritersOk(w.objs, w.logs)
    requires a.BootResume? ==> RecoverNext(w.logs[w.descs[a.sid].path]) == |w.logs[w.descs[a.sid].path]|
    ensures WritersOk(NextObjs(w, a), NextLogs(w, a))
  {
    hide CountAgent, RecoverNext;
    CountNone();
  }

  // --- Each session's container

  lemma ContainersLogging(w: World, a: Action)
    requires Enabled(w, a) && AppendOk(w, a) && Appended(w, a).Some?
    requires ContainersOk(w.objs, w.logs, w.containers, w.call) && Disjoint(w.objs)
    requires RunOk(w.objs, w.table, w.containers, w.call) && SwapOk(w.objs, w.logs, w.containers, w.descs, w.call)
    ensures ContainersOk(NextObjs(w, a), NextLogs(w, a), NextContainers(w, a), NextCall(w, a))
  {
    hide LineHeld, SavedHeld;
    var (p, e) := Appended(w, a).value;
    HeldSnoc(w.logs[p], e);
    match a
    case LogRun(data) =>
      HeldPromote(w.containers[w.objs[p].cont.value].hist, w.logs[p], Ran(w.call.cmd, Some(e)));
    case Write(path, kind, data) =>
    case LogFork =>
    case LogRevert =>
  }

  lemma ContainersRunning(w: World, a: Action)
    requires Enabled(w, a) && (a.Run? || a.RunFails?)
    requires ContainersOk(w.objs, w.logs, w.containers, w.call)
    ensures ContainersOk(NextObjs(w, a), NextLogs(w, a), NextContainers(w, a), NextCall(w, a))
  {
    hide LineHeld, SavedHeld;
    if w.objs[a.path].cont.Some? && w.objs[a.path].cont.value in w.containers {
      HeldRun(w.containers[w.objs[a.path].cont.value].hist, a.cmd);
    }
  }

  lemma ContainersRemoving(w: World, a: Action)
    requires Enabled(w, a) && (a.StartFailed? || a.RemoveLast? || a.RemoveOld?)
    requires ContainersOk(w.objs, w.logs, w.containers, w.call) && Disjoint(w.objs) && RevertOk(w.objs, w.call)
    requires SessionOk(w.objs, w.table, w.call)
    ensures ContainersOk(NextObjs(w, a), NextLogs(w, a), NextContainers(w, a), NextCall(w, a))
  {
    hide LineHeld, SavedHeld;
  }

  lemma ContainersReaping(w: World)
    requires Enabled(w, Reap)
    requires ContainersOk(w.objs, w.logs, w.containers, w.call)
    requires forall p :: p in w.objs && w.objs[p].cont.Some? ==> KeepsContainer(w.descs, w.objs[p].cont.value)
    ensures ContainersOk(NextObjs(w, Reap), NextLogs(w, Reap), NextContainers(w, Reap), NextCall(w, Reap))
  {
    hide LineHeld, SavedHeld, KeepsContainer;
  }

  lemma ContainersOpening(w: World, a: Action)
    requires Enabled(w, a) && (a.BootResume? || a.OpenLog? || a.CreateContainer? || a.Restore?)
    requires ContainersOk(w.objs, w.logs, w.containers, w.call) && StartOk(w.objs, w.logs, w.descs, w.call)
    requires IssuedOk(w)
    requires DescsOk(w.descs, w.logs, w.containers)
    ensures ContainersOk(NextObjs(w, a), NextLogs(w, a), NextContainers(w, a), NextCall(w, a))
  {
    hide LineHeld, SavedHeld;
    match a
    case BootResume(_) =>
    case OpenLog(_, _) =>
    case CreateContainer(_) =>
    case Restore(_) =>
  }

  predicate Quiet(a: Action) {
    !(a.LogRun? || a.Write? || a.LogFork? || a.LogRevert? || a.Run? || a.RunFails? ||
      a.StartFailed? || a.RemoveLast? || a.RemoveOld? || a.Reap? ||
      a.BootResume? || a.OpenLog? || a.CreateContainer? || a.Restore?)
  }

  lemma ContainersQuiet(w: World, a: Action)
    requires Enabled(w, a) && Quiet(a)
    requires ContainersOk(w.objs, w.logs, w.containers, w.call) && IssuedOk(w)
    ensures ContainersOk(NextObjs(w, a), NextLogs(w, a), NextContainers(w, a), NextCall(w, a))
  {
    hide LineHeld, SavedHeld;
  }

  // --- Each session's snapshots

  lemma SnapshotsLogging(w: World, a: Action)
    requires Enabled(w, a) && AppendOk(w, a) && Appended(w, a).Some?
    requires SnapshotsOk(w.objs, w.logs, w.images, w.call) && ForkOk(w.objs, w.logs, w.images, w.call)
    ensures SnapshotsOk(NextObjs(w, a), NextLogs(w, a), NextImages(w, a), NextCall(w, a))
  {
    hide LineHeld, SavedHeld;
    var (p, e) := Appended(w, a).value;
    HeldSnoc(w.logs[p], e);
    match a
    case LogRun(_) =>
    case Write(_, _, _) =>
    case LogFork =>
    case LogRevert =>
  }

  lemma SnapshotRemoved(w: World, snap: string)
    requires Enabled(w, RemoveImage(snap))
    requires SnapshotsOk(w.objs, w.logs, w.images, w.call) && Disjoint(w.objs)
    ensures var a := RemoveImage(snap); SnapshotsOk(NextObjs(w, a), NextLogs(w, a), NextImages(w, a), NextCall(w, a))
  {
    hide LineHeld, SavedHeld;
  }

  lemma SnapshotsImages(w: World, a: Action)
    requires Enabled(w, a) && (a.Commit? || a.ForeignImage? || a.RemoveImage?)
    requires SnapshotsOk(w.objs, w.logs, w.images, w.call) && Disjoint(w.objs) && w.images.Keys <= w.issued
    ensures SnapshotsOk(NextObjs(w, a), NextLogs(w, a), NextImages(w, a), NextCall(w, a))
  {
    hide LineHeld, SavedHeld, Disjoint;
    match a
    case Commit(_, _) =>
    case ForeignImage(_, _) =>
    case RemoveImage(snap) => SnapshotRemoved(w, snap);
  }

  /** What reap keeps of a session: its container, and the images its label protects. */
  lemma ReapKeepsSessions(w: World)
    requires Enabled(w, Reap)
    requires OwnersOk(w.table, w.objs, w.images) && ListedOk(w.objs, w.table, w.call) && DownOk(w.objs, w.table, w.call)
    requires Saved(w.descs, w.objs, w.table, w.call) && "" !in w.table
    ensures forall p :: p in w.objs && w.objs[p].cont.Some? ==> KeepsContainer(w.descs, w.objs[p].cont.value)
    ensures forall p, s :: p in w.objs && s in w.objs[p].snaps ==> s in w.images && KeepsImage(w.descs, w.images[s])
  {
  }

  lemma SnapshotsReaping(w: World)
    requires Enabled(w, Reap)
    requires SnapshotsOk(w.objs, w.logs, w.images, w.call)
    requires forall p, s :: p in w.objs && s in w.objs[p].snaps ==> s in w.images && KeepsImage(w.descs, w.images[s])
    ensures SnapshotsOk(NextObjs(w, Reap), NextLogs(w, Reap), NextImages(w, Reap), NextCall(w, Reap))
  {
    hide LineHeld, SavedHeld, KeepsImage;
  }

  lemma QuietImages(w: World, a: Action)
    requires Enabled(w, a) && Appended(w, a).None? && !(a.Commit? || a.ForeignImage? || a.RemoveImage? || a.Reap?)
    ensures NextImages(w, a) == w.images
    ensures forall p, s :: ForkPending(w.call, p, s) ==> ForkPending(NextCall(w, a), p, s) || a.Crash?
  {
  }

  lemma QuietLogs(w: World, a: Action)
    requires Enabled(w, a) && Appended(w, a).None? && w.logs.Keys <= w.issued
    ensures forall p :: p in w.issued ==> (p in NextLogs(w, a) <==> p in w.logs)
    ensures forall p :: p in w.logs ==> NextLogs(w, a)[p] == w.logs[p]
  {
    assert a.OpenLog? ==> a.path !in w.issued;
    hide Enabled, Appended;
  }

  /** Only a commit gives a session a snapshot, and a crash takes all of them. */
  lemma QuietSnaps(w: World, a: Action)
    requires Enabled(w, a) && !a.Commit?
    ensures forall p, s :: p in NextObjs(w, a) && s in NextObjs(w, a)[p].snaps ==> p in w.objs && s in w.objs[p].snaps
    ensures a.Crash? ==> NextObjs(w, a) == map[]
  {
    hide CountAgent, RecoverNext;
    if !Gains(a) {
      OthersShrink(w, a);
      hide Enabled;
    } else {
      match a
      case BootResume(_) =>
      case OpenLog(_, _) =>
      case CreateContainer(_) =>
      case Restore(_) =>
    }
  }

  lemma SnapshotsQuiet(w: World, a: Action)
    requires Enabled(w, a) && Appended(w, a).None? && !(a.Commit? || a.ForeignImage? || a.RemoveImage? || a.Reap?)
    requires SnapshotsOk(w.objs, w.logs, w.images, w.call) && IssuedOk(w)
    ensures SnapshotsOk(NextObjs(w, a), NextLogs(w, a), NextImages(w, a), NextCall(w, a))
  {
    hide LineHeld, SavedHeld, ForkPending, Enabled, Appended, NextObjs, NextLogs, NextImages, NextCall;
    QuietImages(w, a);
    QuietSnaps(w, a);
    QuietLogs(w, a);
  }

  // --- Ownership and the sessions dict

  /** The steps that give a session object a container or a snapshot, or make one. */
  predicate Gains(a: Action) {
    a.BootResume? || a.OpenLog? || a.CreateContainer? || a.Restore? || a.Commit?
  }

  lemma GainsDisjoint(w: World, a: Action)
    requires Enabled(w, a) && Gains(a)
    requires Disjoint(w.objs) && HeldIssued(w.objs, w.call, w.issued)
    requires a.BootResume? ==> forall q :: q in w.objs ==> w.objs[q].cont != Some(w.descs[a.sid].cid)
    ensures Disjoint(NextObjs(w, a))
  {
    hide CountAgent, RecoverNext, Enabled;
    if a.BootResume? || a.OpenLog? || a.Commit? {
      OpensDisjoint(w, a);
    } else {
      BindsDisjoint(w, a);
    }
  }

  lemma OpensDisjoint(w: World, a: Action)
    requires Enabled(w, a) && (a.BootResume? || a.OpenLog? || a.Commit?)
    requires Disjoint(w.objs) && HeldIssued(w.objs, w.call, w.issued)
    requires a.BootResume? ==> forall q :: q in w.objs ==> w.objs[q].cont != Some(w.descs[a.sid].cid)
    ensures Disjoint(NextObjs(w, a))
  {
    hide CountAgent, RecoverNext;
    match a
    case BootResume(_) =>
    case OpenLog(_, _) =>
    case Commit(_, _) =>
  }

  lemma BindsDisjoint(w: World, a: Action)
    requires Enabled(w, a) && (a.CreateContainer? || a.Restore?)
    requires Disjoint(w.objs) && HeldIssued(w.objs, w.call, w.issued)
    ensures Disjoint(NextObjs(w, a))
  {
    match a
    case CreateContainer(_) =>
    case Restore(_) =>
  }

  /** No session object is new, and none has gained a container or a snapshot. */
  ghost predicate Shrinks(objs: Objs, next: Objs) {
    forall p :: p in next ==>
      p in objs && next[p].snaps <= objs[p].snaps && next[p].cont in {None, objs[p].cont}
  }

  lemma OthersShrink(w: World, a: Action)
    requires Enabled(w, a) && !Gains(a)
    ensures Shrinks(w.objs, NextObjs(w, a))
  {
  }

  lemma ShrunkDisjoint(objs: Objs, next: Objs)
    requires Disjoint(objs) && Shrinks(objs, next)
    ensures Disjoint(next)
  {
  }

  lemma OthersDisjoint(w: World, a: Action)
    requires Enabled(w, a) && !Gains(a)
    requires Disjoint(w.objs)
    ensures Disjoint(NextObjs(w, a))
  {
    hide Disjoint, Shrinks, NextObjs;
    OthersShrink(w, a);
    ShrunkDisjoint(w.objs, NextObjs(w, a));
  }

  /** A session file still to be read back belongs to no object in memory. */
  lemma BootIsNew(w: World, sid: string)
    requires Enabled(w, BootResume(sid)) && BootOk(w.descs, w.table, w.call)
    requires DescLink(w.descs, w.objs, w.table, w.containers, w.call)
    ensures w.descs[sid].path !in w.objs && sid !in w.table
    ensures forall q :: q in w.objs ==> w.objs[q].cont != Some(w.descs[sid].cid)
  {
  }

  lemma KeepsTableOk(w: World, a: Action)
    requires Enabled(w, a)
    requires TableOk(w.table, w.objs) && LocalOk(w.objs, w.table, w.call)
    requires a.BootResume? ==> w.descs[a.sid].path !in w.objs
    ensures TableOk(NextTable(w, a), NextObjs(w, a))
  {
    if !a.BootResume? && !a.Register? {
      assert NextTable(w, a).Keys <= w.table.Keys;
    }
  }

  /** The steps that change who owns what: dict entries, snapshots and images. */
  predicate Transfers(a: Action) {
    a.Crash? || a.RemoveImage? || a.ForeignImage?
  }

  lemma ListingOwners(w: World, a: Action)
    requires Enabled(w, a) && (a.Register? || a.Pop?)
    requires OwnersOk(w.table, w.objs, w.images)
    requires w.call.Starting? && w.call.path in w.objs ==> w.objs[w.call.path].snaps == {}
    ensures OwnersOk(NextTable(w, a), NextObjs(w, a), NextImages(w, a))
  {
  }

  lemma ObjectsOwners(w: World, a: Action)
    requires Enabled(w, a) && (a.OpenLog? || a.CreateContainer? || a.Restore?)
    requires OwnersOk(w.table, w.objs, w.images) && TableOk(w.table, w.objs) && w.objs.Keys <= w.issued
    ensures OwnersOk(NextTable(w, a), NextObjs(w, a), NextImages(w, a))
  {
    match a
    case OpenLog(_, _) =>
    case CreateContainer(_) =>
    case Restore(_) =>
  }

  lemma GainsOwners(w: World, a: Action)
    requires Enabled(w, a) && Gains(a)
    requires OwnersOk(w.table, w.objs, w.images) && TableOk(w.table, w.objs)
    requires w.images.Keys <= w.issued && w.objs.Keys <= w.issued
    requires a.BootResume? ==> w.descs[a.sid].path !in w.objs
    ensures OwnersOk(NextTable(w, a), NextObjs(w, a), NextImages(w, a))
  {
    if a.BootResume? || a.Commit? {
      hide CountAgent, RecoverNext;
      match a
      case BootResume(_) =>
      case Commit(_, _) =>
    } else {
      hide OwnersOk, TableOk, Enabled, NextTable, NextObjs, NextImages;
      ObjectsOwners(w, a);
    }
  }

  lemma RemovedOwners(w: World, snap: string)
    requires Enabled(w, RemoveImage(snap)) && OwnersOk(w.table, w.objs, w.images) && Disjoint(w.objs)
    ensures var a := RemoveImage(snap); OwnersOk(NextTable(w, a), NextObjs(w, a), NextImages(w, a))
  {
  }

  lemma TransfersOwners(w: World, a: Action)
    requires Enabled(w, a) && Transfers(a)
    requires OwnersOk(w.table, w.objs, w.images)
    requires Disjoint(w.objs) && w.images.Keys <= w.issued
    ensures OwnersOk(NextTable(w, a), NextObjs(w, a), NextImages(w, a))
  {
    if a.RemoveImage? {
      hide OwnersOk, Disjoint, Enabled, NextTable, NextObjs, NextImages;
      RemovedOwners(w, a.snap);
    } else {
      match a
      case Crash =>
      case ForeignImage(_, _) =>
    }
  }

  lemma ReapingOwners(w: World)
    requires Enabled(w, Reap)
    requires OwnersOk(w.table, w.objs, w.images)
    requires forall p, s :: p in w.objs && s in w.objs[p].snaps ==> s in w.images && KeepsImage(w.descs, w.images[s])
    ensures OwnersOk(NextTable(w, Reap), NextObjs(w, Reap), NextImages(w, Reap))
  {
    hide KeepsImage;
  }

  lemma OthersOwners(w: World, a: Action)
    requires Enabled(w, a) && !(Gains(a) || Transfers(a) || a.Reap? || a.Register? || a.Pop?)
    requires OwnersOk(w.table, w.objs, w.images)
    ensures OwnersOk(NextTable(w, a), NextObjs(w, a), NextImages(w, a))
  {
    assert NextTable(w, a) == w.table && NextImages(w, a) == w.images;
    assert forall p :: p in NextObjs(w, a) ==> p in w.objs && NextObjs(w, a)[p].snaps == w.objs[p].snaps;
  }

  lemma KeepsListedOk(w: World, a: Action)
    requires Enabled(w, a)
    requires ListedOk(w.objs, w.table, w.call) && BootOk(w.descs, w.table, w.call) && w.table.Keys <= w.issued
    requires AfterOk(w.call)
    ensures ListedOk(NextObjs(w, a), NextTable(w, a), NextCall(w, a))
  {
    forall p | p in NextObjs(w, a) && Local(NextCall(w, a)) != Some(p)
      ensures exists sid :: sid in NextTable(w, a) && NextTable(w, a)[sid] == p
    {
      if Local(w.call) == Some(p) {
        assert a.Register?;
        assert NextTable(w, a)[a.sid] == p;
      } else if p in w.objs {
        var sid :| sid in w.table && w.table[sid] == p;
        assert sid in NextTable(w, a) && NextTable(w, a)[sid] == p;
      } else {
        assert a.BootResume? || a.OpenLog?;
        assert a.BootResume? ==> NextTable(w, a)[a.sid] == p;
      }
    }
  }

  // --- Session files

  lemma LoggingDescs(w: World, a: Action)
    requires Enabled(w, a) && AppendOk(w, a) && Appended(w, a).Some?
    requires DescsOk(w.descs, w.logs, w.containers) && RunOk(w.objs, w.table, w.containers, w.call)
    requires SwapOk(w.objs, w.logs, w.containers, w.descs, w.call)
    requires DescLink(w.descs, w.objs, w.table, w.containers, w.call)
    ensures DescsOk(NextDescs(w, a), NextLogs(w, a), NextContainers(w, a))
  {
    hide LineHeld, SavedHeld, Holds, Legal;
    var (p, e) := Appended(w, a).value;
    HeldSnoc(w.logs[p], e);
    match a
    case LogRun(_) =>
      var cid := w.objs[p].cont.value;
      var r := Ran(w.call.cmd, Some(e));
      forall sid | sid in w.descs && w.descs[sid].Desc? && w.descs[sid].cid == cid
        ensures LineHeld(NextContainers(w, a)[cid].hist, w.logs[p] + [e])
      {
        HeldPromote(w.containers[cid].hist, w.logs[p], r);
      }
    case Write(_, _, _) =>
    case LogFork =>
    case LogRevert =>
  }

  lemma RunningDescs(w: World, a: Action)
    requires Enabled(w, a) && (a.Run? || a.RunFails?)
    requires DescsOk(w.descs, w.logs, w.containers)
    ensures DescsOk(NextDescs(w, a), NextLogs(w, a), NextContainers(w, a))
  {
    hide LineHeld, SavedHeld;
    if w.objs[a.path].cont.Some? && w.objs[a.path].cont.value in w.containers {
      HeldRun(w.containers[w.objs[a.path].cont.value].hist, a.cmd);
    }
  }

  lemma WritingDescs(w: World)
    requires Enabled(w, WriteDescriptor)
    requires DescsOk(w.descs, w.logs, w.containers) && SessionOk(w.objs, w.table, w.call) && TableOk(w.table, w.objs)
    requires ContainersOk(w.objs, w.logs, w.containers, w.call) && WritersOk(w.objs, w.logs)
    requires DescLink(w.descs, w.objs, w.table, w.containers, w.call)
    ensures DescsOk(NextDescs(w, WriteDescriptor), NextLogs(w, WriteDescriptor), NextContainers(w, WriteDescriptor))
  {
    hide LineHeld, SavedHeld;
  }

  /** Containers go, or come with new ids; those that stay keep their history. */
  lemma QuietContainers(w: World, a: Action)
    requires Enabled(w, a) && !(a.Run? || a.RunFails? || a.LogRun?)
    ensures NewIds(w.containers, NextContainers(w, a), w.issued)
    ensures w.containers.Keys <= w.issued ==>
              forall c :: c in NextContainers(w, a) && c in w.containers ==>
                NextContainers(w, a)[c].hist == w.containers[c].hist
  {
    hide KeepsContainer;
  }

  /** No file is written but for the one being saved, which is spoilt first. */
  lemma QuietFiles(w: World, a: Action)
    requires Enabled(w, a) && !a.WriteDescriptor?
    ensures forall sid :: sid in NextDescs(w, a) && NextDescs(w, a)[sid].Desc? ==>
              sid in w.descs && NextDescs(w, a)[sid] == w.descs[sid]
  {
  }

  lemma QuietDescs(w: World, a: Action)
    requires Enabled(w, a) && Appended(w, a).None? && !(a.Run? || a.RunFails? || a.WriteDescriptor?)
    requires DescsOk(w.descs, w.logs, w.containers) && w.containers.Keys <= w.issued && w.logs.Keys <= w.issued
    requires forall sid :: sid in w.descs && w.descs[sid].Desc? ==> w.descs[sid].cid in w.issued
    ensures DescsOk(NextDescs(w, a), NextLogs(w, a), NextContainers(w, a))
  {
    assert !a.LogRun?;
    QuietContainers(w, a);
    QuietFiles(w, a);
    QuietLogs(w, a);
    hide LineHeld, Enabled, Appended, NextDescs, NextLogs, NextContainers;
  }

  lemma BootLink(w: World, sid: string)
    requires Enabled(w, BootResume(sid)) && BootOk(w.descs, w.table, w.call)
    requires DescLink(w.descs, w.objs, w.table, w.containers, w.call)
    requires DescsOk(w.descs, w.logs, w.containers)
    ensures DescLink(NextDescs(w, BootResume(sid)), NextObjs(w, BootResume(sid)), NextTable(w, BootResume(sid)),
                     NextContainers(w, BootResume(sid)), NextCall(w, BootResume(sid)))
  {
    hide LineHeld;
  }

  /** The steps of a call on one session that swap its container or move it in or out of the dict. */
  predicate Rebinds(a: Action) {
    a.Restore? || a.Detach? || a.RemoveLast? || a.Register? || a.Pop? || a.WriteDescriptor? || a.CreateContainer?
  }

  lemma BringsLink(w: World, a: Action)
    requires Enabled(w, a) && (a.CreateContainer? || a.Restore?)
    requires DescLink(w.descs, w.objs, w.table, w.containers, w.call)
    requires StartOk(w.objs, w.logs, w.descs, w.call) && SessionOk(w.objs, w.table, w.call)
    requires forall sid :: sid in w.descs && w.descs[sid].Desc? ==> w.descs[sid].cid in w.issued
    ensures DescLink(NextDescs(w, a), NextObjs(w, a), NextTable(w, a), NextContainers(w, a), NextCall(w, a))
  {
    hide LineHeld;
    match a
    case CreateContainer(_) =>
    case Restore(_) =>
  }

  lemma UnbindsLink(w: World, a: Action)
    requires Enabled(w, a) && (a.Detach? || a.RemoveLast?)
    requires DescLink(w.descs, w.objs, w.table, w.containers, w.call)
    ensures DescLink(NextDescs(w, a), NextObjs(w, a), NextTable(w, a), NextContainers(w, a), NextCall(w, a))
  {
    match a
    case Detach(_, _) =>
    case RemoveLast =>
  }

  lemma SwapsLink(w: World, a: Action)
    requires Enabled(w, a) && (a.CreateContainer? || a.Restore? || a.Detach? || a.RemoveLast?)
    requires DescLink(w.descs, w.objs, w.table, w.containers, w.call)
    requires StartOk(w.objs, w.logs, w.descs, w.call) && SessionOk(w.objs, w.table, w.call)
    requires forall sid :: sid in w.descs && w.descs[sid].Desc? ==> w.descs[sid].cid in w.issued
    ensures DescLink(NextDescs(w, a), NextObjs(w, a), NextTable(w, a), NextContainers(w, a), NextCall(w, a))
  {
    hide DescLink, StartOk, SessionOk, Enabled, NextDescs, NextObjs, NextTable, NextContainers, NextCall;
    if a.CreateContainer? || a.Restore? {
      BringsLink(w, a);
    } else {
      UnbindsLink(w, a);
    }
  }

  lemma ListsLink(w: World, a: Action)
    requires Enabled(w, a) && (a.Register? || a.Pop? || a.WriteDescriptor?)
    requires DescLink(w.descs, w.objs, w.table, w.containers, w.call)
    requires SessionOk(w.objs, w.table, w.call) && Disjoint(w.objs)
    requires w.table.Keys <= w.issued && w.descs.Keys <= w.issued
    ensures DescLink(NextDescs(w, a), NextObjs(w, a), NextTable(w, a), NextContainers(w, a), NextCall(w, a))
  {
    match a
    case Register(_) =>
    case Pop(_) =>
    case WriteDescriptor =>
  }

  lemma RevertsLink(w: World, a: Action)
    requires Enabled(w, a) && (a.RemoveOld? || a.RevertFails?)
    requires DescLink(w.descs, w.objs, w.table, w.containers, w.call)
    ensures DescLink(NextDescs(w, a), NextObjs(w, a), NextTable(w, a), NextContainers(w, a), NextCall(w, a))
  {
    match a
    case RemoveOld =>
    case RevertFails =>
  }

  lemma CommandsLink(w: World, a: Action)
    requires Enabled(w, a) && (a.Run? || a.LogRun?) && AfterOk(w.call)
    requires DescLink(w.descs, w.objs, w.table, w.containers, w.call)
    ensures DescLink(NextDescs(w, a), NextObjs(w, a), NextTable(w, a), NextContainers(w, a), NextCall(w, a))
  {
    match a
    case Run(_, _) =>
    case LogRun(_) =>
  }

  lemma StepsLink(w: World, a: Action)
    requires Enabled(w, a) && (a.OpenLog? || a.Crash? || a.Run? || a.LogRun?)
    requires DescLink(w.descs, w.objs, w.table, w.containers, w.call) && AfterOk(w.call)
    requires forall sid :: sid in w.descs && w.descs[sid].Desc? ==> w.descs[sid].path in w.issued
    ensures DescLink(NextDescs(w, a), NextObjs(w, a), NextTable(w, a), NextContainers(w, a), NextCall(w, a))
  {
    if a.Run? || a.LogRun? {
      hide DescLink, Enabled, NextDescs, NextObjs, NextTable, NextContainers, NextCall;
      CommandsLink(w, a);
    } else {
      match a
      case OpenLog(_, _) =>
      case Crash =>
    }
  }

  predicate Drops(a: Action) {
    a.BootDrop? || a.BreakDescriptor? || a.Unlink? || a.StartFailed? || a.StartAbandoned?
  }

  lemma FilesLink(w: World, a: Action)
    requires Enabled(w, a) && (a.BootDrop? || a.BreakDescriptor? || a.Unlink?)
    requires DescLink(w.descs, w.objs, w.table, w.containers, w.call)
    ensures DescLink(NextDescs(w, a), NextObjs(w, a), NextTable(w, a), NextContainers(w, a), NextCall(w, a))
  {
    match a
    case BootDrop(_) =>
    case BreakDescriptor =>
    case Unlink =>
  }

  lemma DropsLink(w: World, a: Action)
    requires Enabled(w, a) && Drops(a)
    requires DescLink(w.descs, w.objs, w.table, w.containers, w.call)
    ensures DescLink(NextDescs(w, a), NextObjs(w, a), NextTable(w, a), NextContainers(w, a), NextCall(w, a))
  {
    if a.StartFailed? || a.StartAbandoned? {
      match a
      case StartFailed =>
      case StartAbandoned =>
    } else {
      hide DescLink, Enabled, NextDescs, NextObjs, NextTable, NextContainers, NextCall;
      FilesLink(w, a);
    }
  }

  /** The same session objects, each with the container it had. */
  ghost predicate SameConts(objs: Objs, next: Objs) {
    next.Keys == objs.Keys && forall p :: p in objs ==> next[p].cont == objs[p].cont
  }

  /** Containers come only with ids not handed out before. */
  ghost predicate NewIds(containers: map<string, Container>, next: map<string, Container>, issued: set<string>) {
    forall c :: c in next ==> c in containers || c !in issued
  }

  predicate Plain(a: Action) {
    !Rebinds(a) && !Drops(a) && !a.BootResume? &&
    !(a.OpenLog? || a.RemoveOld? || a.RevertFails? || a.Crash? || a.Run? || a.LogRun?)
  }

  lemma PlainConts(w: World, a: Action)
    requires Enabled(w, a) && Plain(a)
    ensures SameConts(w.objs, NextObjs(w, a))
  {
    hide CountAgent, RecoverNext;
  }

  lemma PlainContainers(w: World, a: Action)
    requires Enabled(w, a) && Plain(a)
    ensures NewIds(w.containers, NextContainers(w, a), w.issued)
    ensures NextTable(w, a) == w.table && NextDescs(w, a) == w.descs
  {
    hide KeepsContainer;
  }

  lemma PlainCall(w: World, a: Action)
    requires Enabled(w, a) && Plain(a)
    ensures Base(NextCall(w, a)) == Base(w.call) || !(InTeardown(w.call) || InTeardown(NextCall(w, a)))
    ensures forall p, cid :: PriorIs(w.call, p, cid) ==> PriorIs(NextCall(w, a), p, cid)
  {
  }

  lemma LinkFrame(descs: map<string, Descriptor>, objs: Objs, table: map<string, string>,
                  containers: map<string, Container>, call: Call, issued: set<string>,
                  objs1: Objs, containers1: map<string, Container>, call1: Call)
    requires DescLink(descs, objs, table, containers, call)
    requires forall sid :: sid in descs && descs[sid].Desc? ==> descs[sid].cid in issued
    requires SameConts(objs, objs1) && NewIds(containers, containers1, issued)
    requires Base(call1) == Base(call) || !(InTeardown(call) || InTeardown(call1))
    requires forall p, cid :: PriorIs(call, p, cid) ==> PriorIs(call1, p, cid)
    ensures DescLink(descs, objs1, table, containers1, call1)
  {
    hide PriorIs, Base;
  }

  lemma OthersLink(w: World, a: Action)
    requires Enabled(w, a) && Plain(a)
    requires DescLink(w.descs, w.objs, w.table, w.containers, w.call)
    requires forall sid :: sid in w.descs && w.descs[sid].Desc? ==> w.descs[sid].cid in w.issued
    ensures DescLink(NextDescs(w, a), NextObjs(w, a), NextTable(w, a), NextContainers(w, a), NextCall(w, a))
  {
    hide DescLink, SameConts, NewIds, PriorIs, Base, NextObjs, NextContainers, NextDescs, NextTable, NextCall;
    PlainConts(w, a);
    PlainContainers(w, a);
    PlainCall(w, a);
    LinkFrame(w.descs, w.objs, w.table, w.containers, w.call, w.issued,
              NextObjs(w, a), NextContainers(w, a), NextCall(w, a));
  }

  lemma FilesSaved(w: World, a: Action)
    requires Enabled(w, a) && (a.BreakDescriptor? || a.WriteDescriptor? || a.BootDrop? || a.BootResume? || a.Unlink?)
    requires Saved(w.descs, w.objs, w.table, w.call) && LocalOk(w.objs, w.table, w.call)
    requires SessionOk(w.objs, w.table, w.call) && BootOk(w.descs, w.table, w.call)
    requires TableOk(w.table, w.objs)
    requires a.BootResume? ==> w.descs[a.sid].path !in w.objs
    ensures Saved(NextDescs(w, a), NextObjs(w, a), NextTable(w, a), NextCall(w, a))
  {
    hide CountAgent, RecoverNext;
    if a.BreakDescriptor? || a.WriteDescriptor? || a.Unlink? {
      hide Saved, LocalOk, SessionOk, TableOk, BootOk, Enabled, NextDescs, NextObjs, NextTable, NextCall;
      CallsSaved(w, a);
    } else {
      match a
      case BootDrop(_) =>
      case BootResume(_) =>
    }
  }

  lemma CallsSaved(w: World, a: Action)
    requires Enabled(w, a) && (a.BreakDescriptor? || a.WriteDescriptor? || a.Unlink?)
    requires Saved(w.descs, w.objs, w.table, w.call) && LocalOk(w.objs, w.table, w.call)
    requires SessionOk(w.objs, w.table, w.call) && TableOk(w.table, w.objs)
    ensures Saved(NextDescs(w, a), NextObjs(w, a), NextTable(w, a), NextCall(w, a))
  {
    match a
    case BreakDescriptor =>
    case WriteDescriptor =>
    case Unlink =>
  }

  lemma CreateSaved(w: World, cid: string)
    requires Enabled(w, CreateContainer(cid))
    requires Saved(w.descs, w.objs, w.table, w.call) && LocalOk(w.objs, w.table, w.call)
    ensures var a := CreateContainer(cid); Saved(NextDescs(w, a), NextObjs(w, a), NextTable(w, a), NextCall(w, a))
  {
  }

  lemma RestoreSaved(w: World, cid: string)
    requires Enabled(w, Restore(cid)) && SessionOk(w.objs, w.table, w.call) && TableOk(w.table, w.objs)
    requires Saved(w.descs, w.objs, w.table, w.call)
    ensures var a := Restore(cid); Saved(NextDescs(w, a), NextObjs(w, a), NextTable(w, a), NextCall(w, a))
  {
  }

  lemma DetachSaved(w: World, sid: string, snap: string)
    requires Enabled(w, Detach(sid, snap)) && Saved(w.descs, w.objs, w.table, w.call)
    ensures var a := Detach(sid, snap); Saved(NextDescs(w, a), NextObjs(w, a), NextTable(w, a), NextCall(w, a))
  {
  }

  lemma BindsSaved(w: World, a: Action)
    requires Enabled(w, a) && (a.CreateContainer? || a.Restore? || a.Detach?)
    requires Saved(w.descs, w.objs, w.table, w.call) && LocalOk(w.objs, w.table, w.call)
    requires SessionOk(w.objs, w.table, w.call) && TableOk(w.table, w.objs)
    ensures Saved(NextDescs(w, a), NextObjs(w, a), NextTable(w, a), NextCall(w, a))
  {
    hide Saved, LocalOk, SessionOk, TableOk, Enabled, NextDescs, NextObjs, NextTable, NextCall;
    match a
    case CreateContainer(cid) => CreateSaved(w, cid);
    case Restore(cid) => RestoreSaved(w, cid);
    case Detach(sid, snap) => DetachSaved(w, sid, snap);
  }

  lemma RebindsSaved(w: World, a: Action)
    requires Enabled(w, a) && Rebinds(a) && !a.WriteDescriptor?
    requires Saved(w.descs, w.objs, w.table, w.call) && LocalOk(w.objs, w.table, w.call)
    requires SessionOk(w.objs, w.table, w.call) && TableOk(w.table, w.objs)
    ensures Saved(NextDescs(w, a), NextObjs(w, a), NextTable(w, a), NextCall(w, a))
  {
    if a.CreateContainer? || a.Restore? || a.Detach? {
      hide Saved, LocalOk, SessionOk, TableOk, Enabled, NextDescs, NextObjs, NextTable, NextCall;
      BindsSaved(w, a);
    } else {
      MovesSaved(w, a);
    }
  }

  lemma MovesSaved(w: World, a: Action)
    requires Enabled(w, a) && (a.RemoveLast? || a.Register? || a.Pop?)
    requires Saved(w.descs, w.objs, w.table, w.call) && LocalOk(w.objs, w.table, w.call) && TableOk(w.table, w.objs)
    ensures Saved(NextDescs(w, a), NextObjs(w, a), NextTable(w, a), NextCall(w, a))
  {
    match a
    case RemoveLast =>
    case Register(_) =>
    case Pop(_) =>
  }

  lemma OthersListed(w: World, a: Action)
    requires Enabled(w, a) && !Rebinds(a) && !a.Crash?
    requires !(a.BreakDescriptor? || a.WriteDescriptor? || a.BootDrop? || a.BootResume? || a.Unlink?)
    requires w.objs.Keys <= w.issued
    ensures NextDescs(w, a) == w.descs && NextTable(w, a) == w.table
    ensures forall p :: p in w.objs && p in NextObjs(w, a) ==> NextObjs(w, a)[p].cont == w.objs[p].cont
    ensures forall sid :: SavePending(w.call, sid) ==> SavePending(NextCall(w, a), sid)
  {
  }

  lemma OthersSaved(w: World, a: Action)
    requires Enabled(w, a) && !Rebinds(a)
    requires !(a.BreakDescriptor? || a.WriteDescriptor? || a.BootDrop? || a.BootResume? || a.Unlink?)
    requires Saved(w.descs, w.objs, w.table, w.call) && LocalOk(w.objs, w.table, w.call) && TableOk(w.table, w.objs)
    requires w.objs.Keys <= w.issued
    ensures Saved(NextDescs(w, a), NextObjs(w, a), NextTable(w, a), NextCall(w, a))
  {
    hide LocalOk, SavePending;
    if a.Crash? {
    } else {
      OthersListed(w, a);
      hide Enabled, NextDescs, NextObjs, NextTable, NextCall;
    }
  }

  // --- Ids

  lemma IssuedInDocker(w: World, a: Action)
    requires Enabled(w, a) && w.containers.Keys <= w.issued && w.images.Keys <= w.issued
    requires HeldIssued(w.objs, w.call, w.issued)
    ensures NextContainers(w, a).Keys <= NextIssued(w, a) && NextImages(w, a).Keys <= NextIssued(w, a)
  {
  }

  lemma IssuedInMemory(w: World, a: Action)
    requires Enabled(w, a) && w.objs.Keys <= w.issued && w.table.Keys <= w.issued
    requires w.logs.Keys <= w.issued && w.descs.Keys <= w.issued
    ensures NextObjs(w, a).Keys <= NextIssued(w, a) && NextTable(w, a).Keys <= NextIssued(w, a)
  {
    hide CountAgent, RecoverNext;
  }

  lemma IssuedOnDisk(w: World, a: Action)
    requires Enabled(w, a) && w.logs.Keys <= w.issued && w.descs.Keys <= w.issued && w.table.Keys <= w.issued
    requires SessionOk(w.objs, w.table, w.call)
    ensures NextLogs(w, a).Keys <= NextIssued(w, a) && NextDescs(w, a).Keys <= NextIssued(w, a)
  {
  }

  lemma IssuedInFiles(w: World, a: Action)
    requires Enabled(w, a) && HeldIssued(w.objs, w.call, w.issued)
    requires forall sid :: sid in w.descs && w.descs[sid].Desc? ==> w.descs[sid].cid in w.issued
    ensures forall sid :: sid in NextDescs(w, a) && NextDescs(w, a)[sid].Desc? ==>
              NextDescs(w, a)[sid].cid in NextIssued(w, a)
  {
    assert w.issued <= NextIssued(w, a);
    hide NextIssued;
  }

  lemma KeepsIssued(w: World, a: Action)
    requires Enabled(w, a) && IssuedOk(w)
    requires SessionOk(w.objs, w.table, w.call) && HeldIssued(w.objs, w.call, w.issued)
    ensures IssuedOk(Apply(w, a))
  {
    IssuedInDocker(w, a);
    IssuedInMemory(w, a);
    IssuedOnDisk(w, a);
    IssuedInFiles(w, a);
    assert "" !in NextIssued(w, a);
    hide Enabled, NextContainers, NextImages, NextObjs, NextTable;
    hide NextLogs, NextDescs, NextIssued, HeldIssued, SessionOk;
  }

  lemma GainsHeld(w: World, a: Action)
    requires Enabled(w, a) && Gains(a) && HeldIssued(w.objs, w.call, w.issued)
    requires forall sid :: sid in w.descs && w.descs[sid].Desc? ==> w.descs[sid].cid in w.issued
    ensures HeldIssued(NextObjs(w, a), NextCall(w, a), NextIssued(w, a))
  {
    match a
    case BootResume(_) =>
    case OpenLog(_, _) =>
    case CreateContainer(_) =>
    case Restore(_) =>
    case Commit(_, _) =>
  }

  /** A fork in progress is of a snapshot already handed out. */
  lemma OthersForking(w: World, a: Action)
    requires Enabled(w, a) && !Gains(a) && AfterOk(w.call) && (w.call.Forking? ==> w.call.snap in w.issued)
    ensures NextCall(w, a).Forking? ==> NextCall(w, a).snap in w.issued
  {
  }

  lemma ShrunkHeld(objs: Objs, next: Objs, call: Call, call1: Call, issued: set<string>, issued1: set<string>)
    requires HeldIssued(objs, call, issued) && Shrinks(objs, next) && issued <= issued1
    requires call1.Forking? ==> call1.snap in issued
    ensures HeldIssued(next, call1, issued1)
  {
  }

  lemma OthersHeld(w: World, a: Action)
    requires Enabled(w, a) && !Gains(a) && HeldIssued(w.objs, w.call, w.issued) && AfterOk(w.call)
    ensures HeldIssued(NextObjs(w, a), NextCall(w, a), NextIssued(w, a))
  {
    assert w.issued <= NextIssued(w, a);
    hide Shrinks, NextObjs, NextCall, NextIssued, Enabled;
    OthersShrink(w, a);
    OthersForking(w, a);
    ShrunkHeld(w.objs, NextObjs(w, a), w.call, NextCall(w, a), w.issued, NextIssued(w, a));
  }

  // --- The call in progress

  lemma KeepsAfterOk(w: World, a: Action)
    requires Enabled(w, a) && AfterOk(w.call)
    ensures AfterOk(NextCall(w, a))
    ensures NextCall(w, a).Down? ==> a.Crash? || w.call.Down?
    ensures NextCall(w, a).Booting? ==> w.call.Booting? || a.Boot?
  {
  }

  lemma NothingWhenDown(w: World, a: Action)
    requires Enabled(w, a) && w.call.Down? && w.objs == map[] && w.table == map[]
    ensures NextObjs(w, a) == map[] && NextTable(w, a) == map[]
  {
  }

  lemma KeepsDownOk(w: World, a: Action)
    requires Enabled(w, a) && DownOk(w.objs, w.table, w.call) && AfterOk(w.call)
    ensures DownOk(NextObjs(w, a), NextTable(w, a), NextCall(w, a)) && AfterOk(NextCall(w, a))
  {
    hide Enabled, NextCall, AfterOk;
    KeepsAfterOk(w, a);
    if w.call.Down? {
      NothingWhenDown(w, a);
    }
    hide NextObjs, NextTable;
    if a.Crash? {
      CrashEmpties(w);
    }
  }

  lemma CrashEmpties(w: World)
    requires Enabled(w, Crash)
    ensures NextObjs(w, Crash) == map[] && NextTable(w, Crash) == map[]
  {
  }

  lemma BootingStep(w: World, a: Action)
    requires Enabled(w, a) && w.call.Booting? && BootOk(w.descs, w.table, w.call)
    ensures BootOk(NextDescs(w, a), NextTable(w, a), NextCall(w, a))
  {
  }

  lemma KeepsBootOk(w: World, a: Action)
    requires Enabled(w, a) && BootOk(w.descs, w.table, w.call) && DownOk(w.objs, w.table, w.call) && AfterOk(w.call)
    ensures BootOk(NextDescs(w, a), NextTable(w, a), NextCall(w, a))
  {
    hide AfterOk;
    if w.call.Booting? {
      BootingStep(w, a);
    } else if a.Boot? {
    } else {
      hide Enabled, NextCall, NextDescs, NextTable;
      KeepsAfterOk(w, a);
    }
  }

  /** The steps that hand a session object to the call in progress or take it back. */
  predicate Hands(a: Action) {
    a.OpenLog? || a.Register? || a.Pop? || a.RemoveLast? || a.CreateContainer? || a.BootResume? || a.Restore?
  }

  lemma TakesLocal(w: World, a: Action)
    requires Enabled(w, a) && (a.OpenLog? || a.Register? || a.Pop?)
    requires LocalOk(w.objs, w.table, w.call) && TableOk(w.table, w.objs) && w.objs.Keys <= w.issued
    ensures LocalOk(NextObjs(w, a), NextTable(w, a), NextCall(w, a))
  {
    match a
    case OpenLog(_, _) =>
    case Register(_) =>
    case Pop(_) =>
  }

  lemma HandsLocal(w: World, a: Action)
    requires Enabled(w, a) && Hands(a)
    requires LocalOk(w.objs, w.table, w.call) && TableOk(w.table, w.objs) && w.objs.Keys <= w.issued
    ensures LocalOk(NextObjs(w, a), NextTable(w, a), NextCall(w, a))
  {
    if a.OpenLog? || a.Register? || a.Pop? {
      hide LocalOk, TableOk, Enabled, NextObjs, NextTable, NextCall;
      TakesLocal(w, a);
    } else {
      hide CountAgent, RecoverNext;
      match a
      case RemoveLast =>
      case CreateContainer(_) =>
      case BootResume(_) =>
      case Restore(_) =>
    }
  }

  lemma OthersLocal(w: World, a: Action)
    requires Enabled(w, a) && !Hands(a) && AfterOk(w.call)
    requires LocalOk(w.objs, w.table, w.call)
    ensures LocalOk(NextObjs(w, a), NextTable(w, a), NextCall(w, a))
  {
    assert NextTable(w, a) == w.table || a.Crash?;
    assert Local(NextCall(w, a)).Some? ==> NextCall(w, a) == w.call || Base(NextCall(w, a)) == Base(w.call);
  }

  lemma LoggingStart(w: World, a: Action)
    requires Enabled(w, a) && AfterOk(w.call) && AppendOk(w, a) && Appended(w, a).Some?
    requires StartOk(w.objs, w.logs, w.descs, w.call)
    ensures StartOk(NextObjs(w, a), NextLogs(w, a), NextDescs(w, a), NextCall(w, a))
  {
    hide LineHeld, Legal;
    HeldSnoc(w.logs[Appended(w, a).value.0], Appended(w, a).value.1);
  }

  lemma OpensStart(w: World, path: string, restricted: bool)
    requires Enabled(w, OpenLog(path, restricted))
    requires forall sid :: sid in w.descs && w.descs[sid].Desc? ==> w.descs[sid].path in w.issued
    ensures var a := OpenLog(path, restricted);
            StartOk(NextObjs(w, a), NextLogs(w, a), NextDescs(w, a), NextCall(w, a))
  {
    HeldEmpty();
    hide LineHeld;
  }

  /** A start in progress was in progress, and is not over. */
  lemma StartGoesOn(w: World, a: Action)
    requires Enabled(w, a) && AfterOk(w.call) && !a.OpenLog? && Base(NextCall(w, a)).Starting?
    ensures Base(w.call) == Base(NextCall(w, a))
    ensures !(a.StartFailed? || a.StartAbandoned? || a.Crash?)
  {
  }

  lemma StartNeedsNoFile(w: World, a: Action)
    requires Enabled(w, a) && Base(w.call).Starting?
    ensures NextDescs(w, a) == w.descs
    ensures !(a.Unlink? || a.BootResume? || a.Commit? || a.Detach? || a.RemoveLast?)
  {
  }

  /** Only the container of the session that is starting may have come. */
  lemma StartKeepsItsObject(w: World, a: Action, p: string)
    requires Enabled(w, a) && p in w.objs && w.objs[p].snaps == {}
    requires !(a.StartFailed? || a.StartAbandoned? || a.Unlink? || a.Crash? || a.BootResume? || a.Commit? || a.OpenLog?)
    ensures p in NextObjs(w, a) && NextObjs(w, a)[p].snaps == {}
    ensures !(a.Detach? || a.RemoveLast?) ==> (NextObjs(w, a)[p].cont.None? ==> w.objs[p].cont.None?)
  {
  }

  lemma OthersStart(w: World, a: Action)
    requires Enabled(w, a) && AfterOk(w.call) && Appended(w, a).None?
    requires StartOk(w.objs, w.logs, w.descs, w.call)
    requires forall sid :: sid in w.descs && w.descs[sid].Desc? ==> w.descs[sid].path in w.issued
    ensures StartOk(NextObjs(w, a), NextLogs(w, a), NextDescs(w, a), NextCall(w, a))
  {
    assert !a.OpenLog? ==> NextLogs(w, a) == w.logs;
    hide LineHeld, Enabled, Appended, NextObjs, NextLogs, NextDescs, NextCall, AfterOk, Base;
    if a.OpenLog? {
      OpensStart(w, a.path, a.restricted);
    } else if Base(NextCall(w, a)).Starting? {
      StartGoesOn(w, a);
      StartNeedsNoFile(w, a);
      StartKeepsItsObject(w, a, Base(w.call).path);
    }
  }

  lemma StartsRun(w: World, path: string, cmd: string)
    requires Enabled(w, Run(path, cmd))
    ensures RunOk(NextObjs(w, Run(path, cmd)), NextTable(w, Run(path, cmd)), NextContainers(w, Run(path, cmd)),
                  NextCall(w, Run(path, cmd)))
  {
  }

  lemma OthersRun(w: World, a: Action)
    requires Enabled(w, a) && !a.Run? && RunOk(w.objs, w.table, w.containers, w.call) && AfterOk(w.call)
    requires w.containers.Keys <= w.issued
    ensures RunOk(NextObjs(w, a), NextTable(w, a), NextContainers(w, a), NextCall(w, a))
  {
    assert NextCall(w, a).Running? ==> NextCall(w, a) == w.call && NextTable(w, a) == w.table;
  }

  /** The steps at which a call on a listed session begins. */
  predicate Opens(a: Action) {
    a.Register? || a.Commit? || a.Detach? || a.Restore? || a.LogRevert?
  }

  lemma OpensSession(w: World, a: Action)
    requires Enabled(w, a) && Opens(a) && SessionOk(w.objs, w.table, w.call)
    ensures SessionOk(NextObjs(w, a), NextTable(w, a), NextCall(w, a))
  {
    match a
    case Register(_) =>
    case Commit(_, _) =>
    case Detach(_, _) =>
    case Restore(_) =>
    case LogRevert =>
  }

  predicate OnSession(call: Call) {
    call.Saving? || call.Forking? || call.Reverting? || call.Swapped?
  }

  /** A call on a listed session that goes on stays on it, and reverts no less than before. */
  lemma SessionGoesOn(w: World, a: Action)
    requires Enabled(w, a) && !Opens(a) && AfterOk(w.call) && OnSession(NextCall(w, a))
    ensures OnSession(w.call) && NextCall(w, a).sid == w.call.sid && NextCall(w, a).path == w.call.path
    ensures NextCall(w, a).Reverting? <==> w.call.Reverting?
    ensures !(a.Crash? || a.BootResume? || a.Register? || a.Pop?)
  {
  }

  lemma SessionKeepsItsObject(w: World, a: Action)
    requires Enabled(w, a) && !Opens(a) && OnSession(w.call) && OnSession(NextCall(w, a)) && w.call.path in w.objs
    ensures w.call.path in NextObjs(w, a) && NextObjs(w, a)[w.call.path].cont == w.objs[w.call.path].cont
  {
  }

  lemma OthersSession(w: World, a: Action)
    requires Enabled(w, a) && !Opens(a) && SessionOk(w.objs, w.table, w.call) && AfterOk(w.call)
    ensures SessionOk(NextObjs(w, a), NextTable(w, a), NextCall(w, a))
  {
    hide Enabled, AfterOk, NextObjs, NextCall;
    if OnSession(NextCall(w, a)) {
      SessionGoesOn(w, a);
      SessionKeepsItsObject(w, a);
    }
  }

  lemma LoggingFork(w: World, a: Action)
    requires Enabled(w, a) && AfterOk(w.call) && AppendOk(w, a) && Appended(w, a).Some?
    requires ForkOk(w.objs, w.logs, w.images, w.call)
    ensures ForkOk(NextObjs(w, a), NextLogs(w, a), NextImages(w, a), NextCall(w, a))
  {
    hide LineHeld, Legal;
    var (p, e) := Appended(w, a).value;
    HeldSnoc(w.logs[p], e);
    forall id { ForkedSnoc(w.logs[p], e, id); }
  }

  lemma CommitsFork(w: World, sid: string, snap: string)
    requires Enabled(w, Commit(sid, snap)) && w.images.Keys <= w.issued
    requires ContainersOk(w.objs, w.logs, w.containers, w.call)
    requires forall p, id :: p in w.logs && Forked(w.logs[p], id) ==> id in w.issued
    ensures var a := Commit(sid, snap); ForkOk(NextObjs(w, a), NextLogs(w, a), NextImages(w, a), NextCall(w, a))
  {
    hide LineHeld;
  }

  /** A fork in progress goes on, and no image goes. */
  lemma ForkGoesOn(w: World, a: Action)
    requires Enabled(w, a) && AfterOk(w.call) && !a.Commit? && NextCall(w, a).Forking?
    ensures NextCall(w, a) == w.call && !(a.RemoveImage? || a.Reap?)
  {
  }

  lemma ForkKeepsObjects(w: World, a: Action)
    requires Enabled(w, a) && w.call.Forking? && NextCall(w, a) == w.call && Appended(w, a).None?
    ensures NextObjs(w, a) == w.objs && NextLogs(w, a) == w.logs
  {
  }

  lemma OldImagesStay(w: World, a: Action)
    requires Enabled(w, a) && !(a.RemoveImage? || a.Reap?) && w.images.Keys <= w.issued
    ensures forall i :: i in w.images ==> i in NextImages(w, a) && NextImages(w, a)[i] == w.images[i]
  {
  }

  lemma OthersFork(w: World, a: Action)
    requires Enabled(w, a) && AfterOk(w.call) && Appended(w, a).None?
    requires ForkOk(w.objs, w.logs, w.images, w.call) && w.images.Keys <= w.issued
    requires ContainersOk(w.objs, w.logs, w.containers, w.call)
    requires forall p, id :: p in w.logs && Forked(w.logs[p], id) ==> id in w.issued
    ensures ForkOk(NextObjs(w, a), NextLogs(w, a), NextImages(w, a), NextCall(w, a))
  {
    hide LineHeld, Forked, ContainersOk, Enabled, AfterOk, Appended, NextObjs, NextLogs, NextImages, NextCall;
    if a.Commit? {
      CommitsFork(w, a.sid, a.snap);
    } else if NextCall(w, a).Forking? {
      ForkGoesOn(w, a);
      ForkKeepsObjects(w, a);
      OldImagesStay(w, a);
    }
  }

  lemma KeepsRevertOk(w: World, a: Action)
    requires Enabled(w, a) && AfterOk(w.call) && Disjoint(w.objs)
    requires RevertOk(w.objs, w.call) && HeldIssued(w.objs, w.call, w.issued)
    ensures RevertOk(NextObjs(w, a), NextCall(w, a))
  {
    assert !a.Detach? ==> forall p :: p in NextObjs(w, a) && NextCall(w, a).Reverting? ==>
      p in w.objs && NextObjs(w, a)[p].cont == w.objs[p].cont && NextObjs(w, a)[p].snaps == w.objs[p].snaps;
  }

  lemma LoggingSwap(w: World, a: Action)
    requires Enabled(w, a) && AfterOk(w.call) && AppendOk(w, a) && Appended(w, a).Some?
    requires SwapOk(w.objs, w.logs, w.containers, w.descs, w.call)
    ensures SwapOk(NextObjs(w, a), NextLogs(w, a), NextContainers(w, a), NextDescs(w, a), NextCall(w, a))
  {
    hide LineHeld, SavedHeld, Legal;
    HeldSnoc(w.logs[Appended(w, a).value.0], Appended(w, a).value.1);
  }

  lemma RestoreSwap(w: World, cid: string)
    requires Enabled(w, Restore(cid))
    requires SnapshotsOk(w.objs, w.logs, w.images, w.call) && RevertOk(w.objs, w.call)
    requires DescLink(w.descs, w.objs, w.table, w.containers, w.call) && SessionOk(w.objs, w.table, w.call)
    requires forall sid :: sid in w.descs && w.descs[sid].Desc? ==> w.descs[sid].cid in w.issued
    ensures SwapOk(NextObjs(w, Restore(cid)), NextLogs(w, Restore(cid)), NextContainers(w, Restore(cid)),
                   NextDescs(w, Restore(cid)), NextCall(w, Restore(cid)))
  {
    hide LineHeld, SavedHeld;
  }

  /** A swap in progress stays as it is: its call, its log and its file. */
  lemma SwapStays(w: World, a: Action)
    requires Enabled(w, a) && AfterOk(w.call) && Appended(w, a).None? && !a.Restore? && NextCall(w, a).Swapped?
    ensures NextCall(w, a) == w.call
  {
  }

  lemma SwapKeepsObjects(w: World, a: Action)
    requires Enabled(w, a) && w.call.Swapped? && NextCall(w, a) == w.call && Appended(w, a).None?
    ensures NextObjs(w, a) == w.objs && NextLogs(w, a) == w.logs && NextDescs(w, a) == w.descs
  {
  }

  lemma SwapKeepsContainers(w: World, a: Action)
    requires Enabled(w, a) && w.call.Swapped? && NextCall(w, a) == w.call && w.containers.Keys <= w.issued
    requires Appended(w, a).None? && !a.Restore?
    ensures forall c :: c in w.containers ==>
        c in NextContainers(w, a) && NextContainers(w, a)[c].hist == w.containers[c].hist
    ensures NewIds(w.containers, NextContainers(w, a), w.issued)
  {
  }

  lemma OthersSwap(w: World, a: Action)
    requires Enabled(w, a) && AfterOk(w.call) && Appended(w, a).None? && !a.Restore?
    requires SwapOk(w.objs, w.logs, w.containers, w.descs, w.call) && w.containers.Keys <= w.issued
    requires forall sid :: sid in w.descs && w.descs[sid].Desc? ==> w.descs[sid].cid in w.issued
    ensures SwapOk(NextObjs(w, a), NextLogs(w, a), NextContainers(w, a), NextDescs(w, a), NextCall(w, a))
  {
    hide LineHeld, SavedHeld, AfterOk, Enabled, Appended, NextObjs, NextLogs, NextContainers, NextDescs, NextCall;
    if NextCall(w, a).Swapped? {
      SwapStays(w, a);
      SwapKeepsObjects(w, a);
      SwapKeepsContainers(w, a);
    }
  }

  /** A history is replaced in one container; everywhere else nothing is lost or found. */
  lemma LostFrame(containers: map<string, Container>, images: map<string, Image>, objs: Objs, call: Call,
                  interrupted: nat,
                  cid: string, c: Container, objs1: Objs, call1: Call, interrupted1: nat)
    requires LostOk(containers, images, objs, call, interrupted) && interrupted <= interrupted1
    requires Unlogged(c.hist) <= interrupted1 + if RunsIn(objs1, call1, cid) then 1 else 0
    requires forall d :: d != cid && RunsIn(objs, call, d) ==> RunsIn(objs1, call1, d)
    ensures LostOk(containers[cid := c], images, objs1, call1, interrupted1)
  {
    hide Unlogged, RunsIn;
  }

  lemma RunLost(w: World, path: string, cmd: string)
    requires Enabled(w, Run(path, cmd)) && AfterOk(w.call)
    requires LostOk(w.containers, w.images, w.objs, w.call, w.interrupted)
    ensures var a := Run(path, cmd);
            LostOk(NextContainers(w, a), NextImages(w, a), NextObjs(w, a), NextCall(w, a), NextInterrupted(w, a))
  {
    hide Unlogged, LostOk;
    var cid := w.objs[path].cont.value;
    var c := w.containers[cid];
    HistSnoc(c.hist, Ran(cmd, None));
    assert Unlogged(c.hist) <= w.interrupted by { AtMost(w, cid); }
    LostFrame(w.containers, w.images, w.objs, w.call, w.interrupted,
              cid, c.(hist := c.hist + [Ran(cmd, None)]), w.objs, Running(path, cmd, w.call), w.interrupted);
  }

  lemma AtMost(w: World, cid: string)
    requires LostOk(w.containers, w.images, w.objs, w.call, w.interrupted) && cid in w.containers
    ensures Unlogged(w.containers[cid].hist) <= w.interrupted + if RunsIn(w.objs, w.call, cid) then 1 else 0
  {
    hide Unlogged, RunsIn;
  }

  lemma RunFailsLost(w: World, path: string, cmd: string, applied: bool)
    requires Enabled(w, RunFails(path, cmd, applied))
    requires LostOk(w.containers, w.images, w.objs, w.call, w.interrupted)
    ensures var a := RunFails(path, cmd, applied);
            LostOk(NextContainers(w, a), NextImages(w, a), NextObjs(w, a), NextCall(w, a), NextInterrupted(w, a))
  {
    hide Unlogged, LostOk;
    if applied {
      var cid := w.objs[path].cont.value;
      var c := w.containers[cid];
      HistSnoc(c.hist, Ran(cmd, None));
      AtMost(w, cid);
      LostFrame(w.containers, w.images, w.objs, w.call, w.interrupted,
                cid, c.(hist := c.hist + [Ran(cmd, None)]), w.objs, w.call, w.interrupted + 1);
    }
  }

  lemma LogRunLost(w: World, data: Data)
    requires Enabled(w, LogRun(data)) && RunOk(w.objs, w.table, w.containers, w.call)
    requires LostOk(w.containers, w.images, w.objs, w.call, w.interrupted)
    ensures var a := LogRun(data);
            LostOk(NextContainers(w, a), NextImages(w, a), NextObjs(w, a), NextCall(w, a), NextInterrupted(w, a))
  {
    hide Unlogged, LostOk;
    var a := LogRun(data);
    var cid := w.objs[w.call.path].cont.value;
    var c := w.containers[cid];
    var r := Ran(w.call.cmd, Some(Appended(w, a).value.1));
    HistPromote(c.hist, r);
    AtMost(w, cid);
    LostFrame(w.containers, w.images, w.objs, w.call, w.interrupted,
              cid, c.(hist := c.hist[..|c.hist| - 1] + [r]), NextObjs(w, a), w.call.after, w.interrupted);
  }

  lemma CrashLost(w: World)
    requires Enabled(w, Crash) && RunOk(w.objs, w.table, w.containers, w.call)
    requires LostOk(w.containers, w.images, w.objs, w.call, w.interrupted)
    ensures LostOk(NextContainers(w, Crash), NextImages(w, Crash), NextObjs(w, Crash), NextCall(w, Crash),
                   NextInterrupted(w, Crash))
  {
    hide Unlogged;
  }

  lemma RunningLost(w: World, a: Action)
    requires Enabled(w, a) && AfterOk(w.call) && (a.Run? || a.RunFails? || a.LogRun? || a.Crash?)
    requires LostOk(w.containers, w.images, w.objs, w.call, w.interrupted)
    requires RunOk(w.objs, w.table, w.containers, w.call)
    ensures LostOk(NextContainers(w, a), NextImages(w, a), NextObjs(w, a), NextCall(w, a), NextInterrupted(w, a))
  {
    hide LostOk, RunOk, Enabled, NextContainers, NextImages, NextObjs, NextCall, NextInterrupted;
    match a
    case Run(path, cmd) => RunLost(w, path, cmd);
    case RunFails(path, cmd, applied) => RunFailsLost(w, path, cmd, applied);
    case LogRun(data) => LogRunLost(w, data);
    case Crash => CrashLost(w);
  }

  lemma OthersLost(w: World, a: Action)
    requires Enabled(w, a) && !(a.Run? || a.RunFails? || a.LogRun? || a.Crash?)
    requires LostOk(w.containers, w.images, w.objs, w.call, w.interrupted)
    ensures LostOk(NextContainers(w, a), NextImages(w, a), NextObjs(w, a), NextCall(w, a), NextInterrupted(w, a))
  {
    HeldEmpty();
    assert w.call.Running? && NextCall(w, a).Running? ==> NextCall(w, a) == w.call;
  }

  // --- Files of sessions being saved, and whose files there are

  lemma OpensSaving(w: World, a: Action)
    requires Enabled(w, a) && (a.Register? || a.LogRevert?)
    requires SwapOk(w.objs, w.logs, w.containers, w.descs, w.call) && SessionOk(w.objs, w.table, w.call)
    requires DescLink(w.descs, w.objs, w.table, w.containers, w.call) && w.descs.Keys <= w.issued
    ensures SavingOk(NextDescs(w, a), NextContainers(w, a), NextCall(w, a))
  {
    hide LineHeld, SavedHeld;
    match a
    case Register(_) =>
    case LogRevert =>
  }

  /** A save in progress goes on until the file is written. */
  lemma SavingGoesOn(w: World, a: Action)
    requires Enabled(w, a) && AfterOk(w.call) && !(a.Register? || a.LogRevert?) && NextCall(w, a).Saving?
    ensures w.call == NextCall(w, a) && !(a.WriteDescriptor? || a.Run? || a.RunFails? || a.LogRun?)
  {
  }

  lemma KeepsSavingOk(w: World, a: Action)
    requires Enabled(w, a) && AfterOk(w.call) && SavingOk(w.descs, w.containers, w.call)
    requires SwapOk(w.objs, w.logs, w.containers, w.descs, w.call) && SessionOk(w.objs, w.table, w.call)
    requires DescLink(w.descs, w.objs, w.table, w.containers, w.call) && w.descs.Keys <= w.issued
    requires forall sid :: sid in w.descs && w.descs[sid].Desc? ==> w.descs[sid].cid in w.issued
    ensures SavingOk(NextDescs(w, a), NextContainers(w, a), NextCall(w, a))
  {
    hide SwapOk, SessionOk, DescLink, AfterOk, Enabled, NextDescs, NextContainers, NextCall;
    if a.Register? || a.LogRevert? {
      OpensSaving(w, a);
    } else if NextCall(w, a).Saving? {
      SavingGoesOn(w, a);
      QuietContainers(w, a);
      QuietFiles(w, a);
    }
  }

  /** A teardown in progress goes on; it begins with a session taken from the dict. */
  lemma TeardownGoesOn(w: World, a: Action)
    requires Enabled(w, a) && AfterOk(w.call) && InTeardown(NextCall(w, a)) && !a.Pop?
    ensures InTeardown(w.call) && Base(NextCall(w, a)).sid == Base(w.call).sid
    ensures Base(NextCall(w, a)).path == Base(w.call).path
  {
    hide AfterOk, Active;
    if w.call.Running? {
      assert w.call.after.Idle? || w.call.after.Starting? || w.call.after.Finishing? by { AfterCases(w.call); }
    }
  }

  lemma AfterCases(call: Call)
    requires AfterOk(call) && call.Running?
    ensures call.after.Idle? || call.after.Starting? || call.after.Finishing?
  {
  }

  lemma NoFileInTeardown(w: World)
    requires Enabled(w, WriteDescriptor)
    ensures !InTeardown(w.call)
  {
  }

  lemma PopTearsDown(w: World, sid: string)
    requires Enabled(w, Pop(sid)) && DescLink(w.descs, w.objs, w.table, w.containers, w.call)
    ensures TeardownOk(NextDescs(w, Pop(sid)), NextCall(w, Pop(sid)))
  {
  }

  lemma KeepsTeardownOk(w: World, a: Action)
    requires Enabled(w, a) && AfterOk(w.call) && TeardownOk(w.descs, w.call)
    requires DescLink(w.descs, w.objs, w.table, w.containers, w.call)
    ensures TeardownOk(NextDescs(w, a), NextCall(w, a))
  {
    hide DescLink, AfterOk, Enabled, NextDescs, NextCall, InTeardown, Base;
    if a.Pop? {
      PopTearsDown(w, a.sid);
    } else if InTeardown(NextCall(w, a)) {
      TeardownGoesOn(w, a);
      if a.WriteDescriptor? {
        NoFileInTeardown(w);
      }
      QuietFiles(w, a);
    }
  }

  /** Files come only with the session being saved, and dict entries go only into the call that ends them. */
  lemma FilesAndEntries(w: World, a: Action)
    requires Enabled(w, a) && SessionOk(w.objs, w.table, w.call)
    ensures forall sid :: sid in NextDescs(w, a) ==> sid in w.descs || sid in w.table
    ensures forall sid :: sid in w.table && !a.Crash? && !a.Pop? ==> sid in NextTable(w, a)
  {
  }

  lemma WorkGoesOn(w: World, a: Action, sid: string)
    requires Enabled(w, a) && AfterOk(w.call) && AtWork(w.call, sid) && sid in w.descs && !a.Boot?
    ensures AtWork(NextCall(w, a), sid) || sid in NextTable(w, a) || sid !in NextDescs(w, a)
  {
  }

  lemma KeepsFiledOk(w: World, a: Action)
    requires Enabled(w, a) && FiledOk(w.descs, w.table, w.call) && AfterOk(w.call)
    requires SessionOk(w.objs, w.table, w.call) && DownOk(w.objs, w.table, w.call)
    ensures FiledOk(NextDescs(w, a), NextTable(w, a), NextCall(w, a))
  {
    hide SessionOk, AfterOk, DownOk, AtWork, Enabled, NextDescs, NextTable, NextCall;
    if a.Crash? || a.Boot? || a.Pop? {
      TurnsFiled(w, a);
    } else {
      FilesAndEntries(w, a);
      forall sid | sid in NextDescs(w, a) ensures sid in NextTable(w, a) || AtWork(NextCall(w, a), sid) {
        if sid !in w.table {
          WorkGoesOn(w, a, sid);
        }
      }
    }
  }

  lemma TurnsFiled(w: World, a: Action)
    requires Enabled(w, a) && FiledOk(w.descs, w.table, w.call) && (a.Crash? || a.Boot? || a.Pop?)
    ensures FiledOk(NextDescs(w, a), NextTable(w, a), NextCall(w, a))
  {
    match a
    case Crash =>
    case Boot =>
    case Pop(_) =>
  }

  // --- The container a revert replaces, and the network mode on file

  lemma DetachPrior(w: World, sid: string, snap: string)
    requires Enabled(w, Detach(sid, snap)) && Saved(w.descs, w.objs, w.table, w.call)
    requires ContainersOk(w.objs, w.logs, w.containers, w.call) && WritersOk(w.objs, w.logs)
    ensures var a := Detach(sid, snap); PriorOk(NextDescs(w, a), NextContainers(w, a), NextCall(w, a))
  {
    hide LineHeld, CountAgent;
  }

  lemma PriorWaits(w: World, a: Action)
    requires Enabled(w, a) && AfterOk(w.call) && !a.Detach?
    requires NextCall(w, a).Reverting? && NextCall(w, a).prior.Some?
    ensures w.call == NextCall(w, a)
  {
  }

  /** While the old container waits to be removed, no container and no file goes. */
  lemma PriorStays(w: World, a: Action)
    requires Enabled(w, a) && w.call.Reverting? && w.call.prior.Some? && NextCall(w, a) == w.call
    ensures NextDescs(w, a) == w.descs && w.containers.Keys <= NextContainers(w, a).Keys
  {
  }

  lemma KeepsPriorOk(w: World, a: Action)
    requires Enabled(w, a) && AfterOk(w.call) && PriorOk(w.descs, w.containers, w.call)
    requires Saved(w.descs, w.objs, w.table, w.call)
    requires ContainersOk(w.objs, w.logs, w.containers, w.call) && WritersOk(w.objs, w.logs)
    ensures PriorOk(NextDescs(w, a), NextContainers(w, a), NextCall(w, a))
  {
    hide Saved, ContainersOk, WritersOk, AfterOk, Enabled, NextDescs, NextContainers, NextCall;
    if a.Detach? {
      DetachPrior(w, a.sid, a.snap);
    } else if NextCall(w, a).Reverting? && NextCall(w, a).prior.Some? {
      PriorWaits(w, a);
      PriorStays(w, a);
    }
  }

  /** No step changes a session's network mode, and only a restart and a start bring an object. */
  lemma ModesStay(w: World, a: Action)
    requires Enabled(w, a) && !a.BootResume? && w.objs.Keys <= w.issued
    ensures forall p :: p in NextObjs(w, a) && p in w.objs ==> NextObjs(w, a)[p].restricted == w.objs[p].restricted
    ensures forall p :: p in NextObjs(w, a) && p !in w.objs ==> a.OpenLog? && p == a.path
  {
  }

  lemma ListsMode(w: World, a: Action)
    requires Enabled(w, a) && (a.Register? || a.WriteDescriptor? || a.BootResume?)
    requires ModeOk(w.descs, w.objs, w.table) && SessionOk(w.objs, w.table, w.call) && TableOk(w.table, w.objs)
    requires w.descs.Keys <= w.issued && (a.BootResume? ==> w.descs[a.sid].path !in w.objs)
    ensures ModeOk(NextDescs(w, a), NextObjs(w, a), NextTable(w, a))
  {
    hide CountAgent, RecoverNext;
    match a
    case Register(_) =>
    case WriteDescriptor =>
    case BootResume(_) =>
  }

  /** No other step lists a session. */
  lemma NoneListed(w: World, a: Action)
    requires Enabled(w, a) && !(a.Register? || a.BootResume?)
    ensures forall sid :: sid in NextTable(w, a) ==> sid in w.table && NextTable(w, a)[sid] == w.table[sid]
  {
  }

  lemma KeepsModeOk(w: World, a: Action)
    requires Enabled(w, a) && ModeOk(w.descs, w.objs, w.table)
    requires SessionOk(w.objs, w.table, w.call) && TableOk(w.table, w.objs)
    requires w.descs.Keys <= w.issued && w.objs.Keys <= w.issued
    requires a.BootResume? ==> w.descs[a.sid].path !in w.objs
    ensures ModeOk(NextDescs(w, a), NextObjs(w, a), NextTable(w, a))
  {
    hide Enabled, SessionOk, NextDescs, NextObjs, NextTable;
    if a.Register? || a.WriteDescriptor? || a.BootResume? {
      hide ModeOk, TableOk;
      ListsMode(w, a);
    } else {
      ModesStay(w, a);
      NoneListed(w, a);
      QuietFiles(w, a);
    }
  }

  // ---------------------------------------------------------------------
  // The invariant holds of every reachable world
  // ---------------------------------------------------------------------

  lemma DescIds(w: World)
    requires LogsOk(w.logs, w.issued) && DescsOk(w.descs, w.logs, w.containers)
    ensures forall sid :: sid in w.descs && w.descs[sid].Desc? ==> w.descs[sid].path in w.issued
    ensures forall p, id :: p in w.logs && Forked(w.logs[p], id) ==> id in w.issued
  {
  }

  /** Logs, writers, containers and snapshots. */
  ghost predicate ContentInv(w: World) {
    && LogsOk(w.logs, w.issued) && WritersOk(w.objs, w.logs)
    && ContainersOk(w.objs, w.logs, w.containers, w.call)
    && SnapshotsOk(w.objs, w.logs, w.images, w.call)
    && LostOk(w.containers, w.images, w.objs, w.call, w.interrupted)
  }

  /** Who owns, lists and names what. */
  ghost predicate OwnerInv(w: World) {
    && Disjoint(w.objs) && TableOk(w.table, w.objs) && OwnersOk(w.table, w.objs, w.images)
    && ListedOk(w.objs, w.table, w.call)
    && DescsOk(w.descs, w.logs, w.containers) && DescLink(w.descs, w.objs, w.table, w.containers, w.call)
    && Saved(w.descs, w.objs, w.table, w.call)
    && IssuedOk(w) && HeldIssued(w.objs, w.call, w.issued)
  }

  ghost predicate CallInv(w: World) {
    && DownOk(w.objs, w.table, w.call) && BootOk(w.descs, w.table, w.call) && LocalOk(w.objs, w.table, w.call)
    && StartOk(w.objs, w.logs, w.descs, w.call) && AfterOk(w.call)
    && RunOk(w.objs, w.table, w.containers, w.call) && SessionOk(w.objs, w.table, w.call)
    && ForkOk(w.objs, w.logs, w.images, w.call) && RevertOk(w.objs, w.call)
    && SwapOk(w.objs, w.logs, w.containers, w.descs, w.call)
    && SavingOk(w.descs, w.containers, w.call) && FiledOk(w.descs, w.table, w.call)
    && TeardownOk(w.descs, w.call)
    && PriorOk(w.descs, w.containers, w.call) && ModeOk(w.descs, w.objs, w.table)
  }

  lemma KeepsContentInv(w: World, a: Action)
    requires Enabled(w, a) && Inv(w)
    ensures ContentInv(Apply(w, a))
  {
    hide Enabled, AppendOk, NextLogs, NextContainers, NextImages, NextDescs, NextObjs, NextTable, NextCall, NextIssued;
    hide LogsOk, WritersOk, ContainersOk, SnapshotsOk, LostOk, Disjoint, OwnersOk, DescsOk, DescLink, Saved;
    hide HeldIssued, TableOk, ListedOk, DownOk, BootOk, LocalOk, AfterOk, RunOk, SessionOk, ForkOk, RevertOk, SwapOk;
    hide SavingOk, FiledOk, TeardownOk, PriorOk, ModeOk;
    AppendIsLegal(w, a);
    BootNumber(w, a);
    KeepsLogsOk(w, a);
    if Appended(w, a).Some? {
      LoggingWriters(w, a);
      ContainersLogging(w, a);
      SnapshotsLogging(w, a);
    } else if a.Reap? {
      OthersWriters(w, a);
      ReapKeepsSessions(w);
      ContainersReaping(w);
      SnapshotsReaping(w);
    } else {
      OthersWriters(w, a);
      if a.Run? || a.RunFails? { ContainersRunning(w, a); }
      else if a.StartFailed? || a.RemoveLast? || a.RemoveOld? { ContainersRemoving(w, a); }
      else if a.BootResume? || a.OpenLog? || a.CreateContainer? || a.Restore? { ContainersOpening(w, a); }
      else { ContainersQuiet(w, a); }
      if a.Commit? || a.ForeignImage? || a.RemoveImage? { SnapshotsImages(w, a); }
      else { SnapshotsQuiet(w, a); }
    }
    if a.Run? || a.RunFails? || a.LogRun? || a.Crash? { RunningLost(w, a); } else { OthersLost(w, a); }
  }

  lemma KeepsListings(w: World, a: Action)
    requires Enabled(w, a) && Inv(w)
    ensures Disjoint(NextObjs(w, a)) && TableOk(NextTable(w, a), NextObjs(w, a))
    ensures OwnersOk(NextTable(w, a), NextObjs(w, a), NextImages(w, a))
    ensures ListedOk(NextObjs(w, a), NextTable(w, a), NextCall(w, a))
    ensures IssuedOk(Apply(w, a)) && HeldIssued(NextObjs(w, a), NextCall(w, a), NextIssued(w, a))
  {
    hide Enabled, AppendOk, NextLogs, NextContainers, NextImages, NextDescs, NextObjs, NextTable, NextCall, NextIssued;
    hide LogsOk, WritersOk, ContainersOk, SnapshotsOk, LostOk, Disjoint, OwnersOk, DescsOk, DescLink, Saved;
    hide HeldIssued, TableOk, ListedOk, DownOk, BootOk, LocalOk, AfterOk, RunOk, SessionOk, ForkOk, RevertOk, SwapOk;
    hide SavingOk, FiledOk, TeardownOk, PriorOk, ModeOk;
    if a.BootResume? { BootIsNew(w, a.sid); }
    KeepsTableOk(w, a);
    KeepsListedOk(w, a);
    KeepsIssued(w, a);
    if Gains(a) { GainsHeld(w, a); GainsDisjoint(w, a); } else { OthersHeld(w, a); OthersDisjoint(w, a); }
    if a.Reap? { ReapKeepsSessions(w); ReapingOwners(w); }
    else if Gains(a) { GainsOwners(w, a); }
    else if Transfers(a) { TransfersOwners(w, a); }
    else if a.Register? || a.Pop? { ListingOwners(w, a); }
    else { OthersOwners(w, a); }
  }

  lemma KeepsFiles(w: World, a: Action)
    requires Enabled(w, a) && Inv(w)
    ensures DescsOk(NextDescs(w, a), NextLogs(w, a), NextContainers(w, a))
    ensures DescLink(NextDescs(w, a), NextObjs(w, a), NextTable(w, a), NextContainers(w, a), NextCall(w, a))
    ensures Saved(NextDescs(w, a), NextObjs(w, a), NextTable(w, a), NextCall(w, a))
  {
    hide Enabled, AppendOk, NextLogs, NextContainers, NextImages, NextDescs, NextObjs, NextTable, NextCall, NextIssued;
    hide LogsOk, WritersOk, ContainersOk, SnapshotsOk, LostOk, Disjoint, OwnersOk, DescsOk, DescLink, Saved;
    hide HeldIssued, TableOk, ListedOk, DownOk, BootOk, LocalOk, AfterOk, RunOk, SessionOk, ForkOk, RevertOk, SwapOk;
    hide SavingOk, FiledOk, TeardownOk, PriorOk, ModeOk;
    AppendIsLegal(w, a);
    DescIds(w);
    if a.BootResume? { BootIsNew(w, a.sid); }
    if Appended(w, a).Some? { LoggingDescs(w, a); }
    else if a.Run? || a.RunFails? { RunningDescs(w, a); }
    else if a.WriteDescriptor? { WritingDescs(w); }
    else { QuietDescs(w, a); }
    if a.BootResume? { BootLink(w, a.sid); }
    else if a.CreateContainer? || a.Restore? || a.Detach? || a.RemoveLast? { SwapsLink(w, a); }
    else if a.Register? || a.Pop? || a.WriteDescriptor? { ListsLink(w, a); }
    else if a.RemoveOld? || a.RevertFails? { RevertsLink(w, a); }
    else if a.OpenLog? || a.Crash? || a.Run? || a.LogRun? { StepsLink(w, a); }
    else if Drops(a) { DropsLink(w, a); }
    else { OthersLink(w, a); }
    if a.BreakDescriptor? || a.WriteDescriptor? || a.BootDrop? || a.BootResume? || a.Unlink? { FilesSaved(w, a); }
    else if Rebinds(a) { RebindsSaved(w, a); }
    else { OthersSaved(w, a); }
  }

  lemma KeepsCallInv(w: World, a: Action)
    requires Enabled(w, a) && Inv(w)
    ensures CallInv(Apply(w, a))
  {
    hide Enabled, AppendOk, NextLogs, NextContainers, NextImages, NextDescs, NextObjs, NextTable, NextCall, NextIssued;
    hide LogsOk, WritersOk, ContainersOk, SnapshotsOk, LostOk, Disjoint, OwnersOk, DescsOk, DescLink, Saved;
    hide HeldIssued, TableOk, ListedOk, DownOk, BootOk, LocalOk, AfterOk, RunOk, SessionOk, ForkOk, RevertOk, SwapOk;
    hide SavingOk, FiledOk, TeardownOk, PriorOk, ModeOk;
    AppendIsLegal(w, a);
    DescIds(w);
    KeepsDownOk(w, a);
    KeepsBootOk(w, a);
    if Hands(a) { HandsLocal(w, a); } else { OthersLocal(w, a); }
    if a.Run? { StartsRun(w, a.path, a.cmd); } else { OthersRun(w, a); }
    if Opens(a) { OpensSession(w, a); } else { OthersSession(w, a); }
    KeepsRevertOk(w, a);
    KeepsSavingOk(w, a);
    KeepsFiledOk(w, a);
    KeepsTeardownOk(w, a);
    KeepsPriorOk(w, a);
    if a.BootResume? { BootIsNew(w, a.sid); }
    KeepsModeOk(w, a);
    if Appended(w, a).Some? {
      LoggingStart(w, a);
      LoggingFork(w, a);
      LoggingSwap(w, a);
    } else {
      OthersStart(w, a);
      OthersFork(w, a);
      if a.Restore? { RestoreSwap(w, a.cid); } else { OthersSwap(w, a); }
    }
  }

  lemma StepKeepsInv(w: World, a: Action)
    requires Enabled(w, a) && Inv(w)
    ensures Inv(Apply(w, a))
  {
    KeepsContentInv(w, a);
    KeepsListings(w, a);
    KeepsFiles(w, a);
    KeepsCallInv(w, a);
  }

  /** Whatever the tools, the proxies, the crashes and restarts did, the invariant holds. */
  lemma {:induction false} ReachableInv(actions: seq<Action>)
    requires After(actions).Some?
    ensures Inv(After(actions).value)
  {
    if actions != [] {
      var n := |actions| - 1;
      ReachableInv(actions[..n]);
      StepKeepsInv(After(actions[..n]).value, actions[n]);
    }
  }
}
