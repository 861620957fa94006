/** What the fork and revert markers of a log tell of its session's containers, over every run. */
module Markers {
  import opened Events
  import opened Branch
  import opened Protocol
  import opened Invariant
  import opened Sessions

  /** The container that the last marker of the log names: the one forked, or the one reverted to. */
  function Named(log: seq<Event>): Option<string> {
    if log == [] then None
    else
      var e := log[|log| - 1];
      if e.kind == SessionForked then Some(TextField(e.data, "container_id"))
      else if e.kind == SessionReverted then Some(TextField(e.data, "new_container_id"))
      else Named(log[..|log| - 1])
  }

  /** The log does not name another container than `c`. */
  predicate Fits(log: seq<Event>, c: string) {
    Named(log) == None || Named(log) == Some(c)
  }

  /** The revert marker at `r` names as previous what the log named before, or nothing. */
  predicate Follows(log: seq<Event>, r: nat)
    requires r < |log|
  {
    var d := log[r].data;
    "previous_container_id" in d &&
    (d["previous_container_id"] == Null ||
     (d["previous_container_id"].Text? && Fits(log[..r], d["previous_container_id"].s)))
  }

  ghost predicate Chained(log: seq<Event>) {
    forall r :: 0 <= r < |log| && log[r].kind == SessionReverted ==> Follows(log, r)
  }

  ghost predicate AllChained(logs: Logs) {
    forall p :: p in logs ==> Chained(logs[p])
  }

  /** A bound session's container is the one its log names. */
  ghost predicate NamesLive(objs: Objs, logs: Logs, call: Call) {
    forall p :: p in objs && p in logs && objs[p].cont.Some? && !SwapPending(call, p) ==>
      Fits(logs[p], objs[p].cont.value)
  }

  /** So is a container that a session file names. */
  ghost predicate NamesFiled(descs: map<string, Descriptor>, logs: Logs, containers: map<string, Container>) {
    forall sid :: sid in descs && descs[sid].Desc? && descs[sid].path in logs && descs[sid].cid in containers ==>
      Fits(logs[descs[sid].path], descs[sid].cid)
  }

  /** Until a revert is marked, its log names the container that it replaces. */
  ghost predicate NamesGone(logs: Logs, call: Call) {
    (call.Reverting? || call.Swapped?) && call.path in logs && call.previous.Some? ==>
      Fits(logs[call.path], call.previous.value)
  }

  /** A session that is starting has no marker in its log. */
  ghost predicate StartsBare(logs: Logs, call: Call) {
    Base(call).Starting? && Base(call).path in logs ==> Named(logs[Base(call).path]) == None
  }

  ghost predicate NamesInv(w: World) {
    && AllChained(w.logs) && NamesLive(w.objs, w.logs, w.call)
    && NamesFiled(w.descs, w.logs, w.containers) && NamesGone(w.logs, w.call) && StartsBare(w.logs, w.call)
  }

  // ----- One more event -----

  lemma NamedSnoc(log: seq<Event>, e: Event)
    ensures Named(log + [e]) ==
            if e.kind == SessionForked then Some(TextField(e.data, "container_id"))
            else if e.kind == SessionReverted then Some(TextField(e.data, "new_container_id"))
            else Named(log)
  {
    Snoc(log, e);
  }

  lemma ChainedSnoc(log: seq<Event>, e: Event)
    requires Chained(log) && (e.kind == SessionReverted ==> Follows(log + [e], |log|))
    ensures Chained(log + [e])
  {
    var log' := log + [e];
    forall r | 0 <= r < |log'| && log'[r].kind == SessionReverted ensures Follows(log', r) {
      if r < |log| {
        assert log'[..r] == log[..r] && log'[r] == log[r];
        assert Follows(log, r);
      }
    }
  }

  lemma MarkerFields(snap: string, previous: Option<string>, cid: string)
    ensures TextField(ForkData(snap, cid), "container_id") == cid
    ensures var d := RevertData(snap, previous, cid);
      && TextField(d, "new_container_id") == cid && "previous_container_id" in d
      && d["previous_container_id"] == OrNull(previous)
  {
  }

  /** What the log names after a step that writes to it. */
  lemma AppendNames(w: World, a: Action)
    requires Enabled(w, a) && Appended(w, a).Some?
    ensures var (p, e) := Appended(w, a).value;
      && (a.LogFork? || a.LogRevert? ==> p == w.call.path && p in w.objs && w.objs[p].cont.Some?)
      && (p in w.logs ==>
            Named(w.logs[p] + [e]) == if a.LogFork? || a.LogRevert? then w.objs[p].cont else Named(w.logs[p]))
  {
    hide Named;
    var (p, e) := Appended(w, a).value;
    if p in w.logs {
      NamedSnoc(w.logs[p], e);
    }
    if a.LogFork? || a.LogRevert? {
      MarkerFields(w.call.snap, if a.LogRevert? then w.call.previous else None, w.objs[w.call.path].cont.value);
    }
  }

  lemma AppendChains(w: World, a: Action)
    requires Enabled(w, a) && AppendOk(w, a) && Appended(w, a).Some? && AllChained(w.logs) && NamesGone(w.logs, w.call)
    ensures AllChained(NextLogs(w, a))
  {
    hide Legal, Named, Fits;
    var (p, e) := Appended(w, a).value;
    assert e.kind == SessionReverted <==> a.LogRevert?;
    if a.LogRevert? {
      MarkerFields(w.call.snap, w.call.previous, w.objs[w.call.path].cont.value);
      Snoc(w.logs[p], e);
    }
    hide Chained;
    ChainedSnoc(w.logs[p], e);
  }

  // ----- Steps that write a log -----

  lemma LoggingLive(w: World, a: Action)
    requires Enabled(w, a) && AppendOk(w, a) && Appended(w, a).Some? && AfterOk(w.call)
    requires NamesLive(w.objs, w.logs, w.call)
    ensures NamesLive(NextObjs(w, a), NextLogs(w, a), NextCall(w, a))
  {
    hide Legal, Named;
    AppendNames(w, a);
    match a
    case LogRun(_) =>
    case Write(_, _, _) =>
    case LogFork =>
    case LogRevert =>
  }

  /** A file that names a container of the session at work names the one it is bound to. */
  lemma FiledIsLive(w: World, a: Action, sid: string)
    requires Enabled(w, a) && (a.LogFork? || a.LogRevert?)
    requires DescLink(w.descs, w.objs, w.table, w.containers, w.call)
    requires SwapOk(w.objs, w.logs, w.containers, w.descs, w.call)
    requires sid in w.descs && w.descs[sid].Desc? && w.descs[sid].path == w.call.path
    requires w.descs[sid].cid in w.containers
    ensures w.call.path in w.objs && w.objs[w.call.path].cont == Some(w.descs[sid].cid)
  {
    hide LineHeld, SavedHeld, Holds;
  }

  lemma LoggingFiled(w: World, a: Action)
    requires Enabled(w, a) && AppendOk(w, a) && Appended(w, a).Some?
    requires NamesFiled(w.descs, w.logs, w.containers)
    requires DescLink(w.descs, w.objs, w.table, w.containers, w.call)
    requires SwapOk(w.objs, w.logs, w.containers, w.descs, w.call)
    ensures NamesFiled(NextDescs(w, a), NextLogs(w, a), NextContainers(w, a))
  {
    var (p, e) := Appended(w, a).value;
    AppendNames(w, a);
    LoggingKeeps(w, a);
    forall sid | sid in w.descs && w.descs[sid].Desc? && w.descs[sid].path == p && w.descs[sid].cid in w.containers
      ensures Fits(w.logs[p] + [e], w.descs[sid].cid)
    {
      if a.LogFork? || a.LogRevert? {
        hide DescLink, SwapOk, AppendOk, Appended, Enabled, NamesFiled;
        FiledIsLive(w, a, sid);
      }
    }
    hide Named, DescLink, SwapOk, Enabled, Appended, NextDescs, NextLogs, NextContainers;
  }

  lemma LoggingKeeps(w: World, a: Action)
    requires Enabled(w, a) && Appended(w, a).Some? && Appended(w, a).value.0 in w.logs
    ensures var (p, e) := Appended(w, a).value;
      && NextDescs(w, a) == w.descs && NextContainers(w, a).Keys == w.containers.Keys
      && NextLogs(w, a) == w.logs[p := w.logs[p] + [e]]
  {
    hide WithoutContainer, KeepsContainer;
    match a
    case LogRun(_) =>
    case Write(_, _, _) =>
    case LogFork =>
    case LogRevert =>
  }

  lemma LoggingCalls(w: World, a: Action)
    requires Enabled(w, a) && AppendOk(w, a) && Appended(w, a).Some? && AfterOk(w.call)
    requires NamesGone(w.logs, w.call) && StartsBare(w.logs, w.call)
    ensures NamesGone(NextLogs(w, a), NextCall(w, a)) && StartsBare(NextLogs(w, a), NextCall(w, a))
  {
    hide Named, Legal;
    AppendNames(w, a);
    match a
    case LogRun(_) =>
    case Write(_, _, _) =>
    case LogFork =>
    case LogRevert =>
  }

  // ----- All other steps -----

  /** Only a restart and the calls that get a container give a session one. */
  lemma QuietLive(w: World, a: Action)
    requires Enabled(w, a) && Appended(w, a).None? && !Gains(a) && IssuedOk(w) && AfterOk(w.call)
    requires NamesLive(w.objs, w.logs, w.call)
    ensures NamesLive(NextObjs(w, a), NextLogs(w, a), NextCall(w, a))
  {
    QuietLogs(w, a);
    OthersShrink(w, a);
    SwapGoesOn(w, a);
    hide Enabled, Appended, Fits, NextObjs, NextLogs, NextCall;
    forall p | p in NextObjs(w, a) && p in NextLogs(w, a) && NextObjs(w, a)[p].cont.Some? &&
               !SwapPending(NextCall(w, a), p)
      ensures Fits(NextLogs(w, a)[p], NextObjs(w, a)[p].cont.value)
    {
      assert p in w.objs && w.objs[p].cont == NextObjs(w, a)[p].cont && p in w.issued;
    }
  }

  lemma SwapGoesOn(w: World, a: Action)
    requires Enabled(w, a) && Appended(w, a).None? && !Gains(a)
    ensures forall p :: p in NextObjs(w, a) && SwapPending(w.call, p) ==> SwapPending(NextCall(w, a), p)
  {
  }

  lemma GainsLive(w: World, a: Action)
    requires Enabled(w, a) && Gains(a) && IssuedOk(w)
    requires NamesLive(w.objs, w.logs, w.call) && NamesFiled(w.descs, w.logs, w.containers)
    requires StartsBare(w.logs, w.call)
    ensures NamesLive(NextObjs(w, a), NextLogs(w, a), NextCall(w, a))
  {
    hide Named, CountAgent, RecoverNext;
    match a
    case BootResume(_) =>
    case OpenLog(_, _) =>
    case CreateContainer(_) =>
    case Restore(_) =>
    case Commit(_, _) =>
  }

  lemma QuietFiled(w: World, a: Action)
    requires Enabled(w, a) && Appended(w, a).None? && !a.WriteDescriptor? && IssuedOk(w)
    requires DescsOk(w.descs, w.logs, w.containers) && NamesFiled(w.descs, w.logs, w.containers)
    ensures NamesFiled(NextDescs(w, a), NextLogs(w, a), NextContainers(w, a))
  {
    QuietLogs(w, a);
    QuietFiles(w, a);
    ContainersCome(w, a);
    hide LineHeld, Fits, Enabled, Appended, NextDescs, NextLogs, NextContainers;
  }

  lemma WritingFiled(w: World)
    requires Enabled(w, WriteDescriptor) && NamesLive(w.objs, w.logs, w.call)
    requires NamesFiled(w.descs, w.logs, w.containers)
    ensures NamesFiled(NextDescs(w, WriteDescriptor), NextLogs(w, WriteDescriptor), NextContainers(w, WriteDescriptor))
  {
    hide Fits;
  }

  lemma QuietCalls(w: World, a: Action)
    requires Enabled(w, a) && Appended(w, a).None? && !a.Detach? && AfterOk(w.call) && IssuedOk(w)
    requires StartsBare(w.logs, w.call) && NamesGone(w.logs, w.call) && SessionOk(w.objs, w.table, w.call)
    ensures NamesGone(NextLogs(w, a), NextCall(w, a)) && StartsBare(NextLogs(w, a), NextCall(w, a))
  {
    assert a.OpenLog? ==> NextLogs(w, a)[a.path] == [];
    QuietLogs(w, a);
    RevertGoesOn(w, a);
    assert a.OpenLog? ==> NextCall(w, a) == Starting(a.path);
    if !a.OpenLog? && Base(NextCall(w, a)).Starting? {
      StartGoesOn(w, a);
    }
    hide Fits, Enabled, Appended, NextLogs, NextCall;
  }

  lemma RevertGoesOn(w: World, a: Action)
    requires Enabled(w, a) && Appended(w, a).None? && !a.Detach? && AfterOk(w.call)
    ensures var call := NextCall(w, a);
      call.Reverting? || call.Swapped? ==>
        (w.call.Reverting? || w.call.Swapped?) && call.path == w.call.path && call.previous == w.call.previous &&
        !a.OpenLog?
  {
  }

  lemma DetachCalls(w: World, sid: string, snap: string)
    requires Enabled(w, Detach(sid, snap)) && NamesLive(w.objs, w.logs, w.call)
    ensures var a := Detach(sid, snap);
      NamesGone(NextLogs(w, a), NextCall(w, a)) && StartsBare(NextLogs(w, a), NextCall(w, a))
  {
    hide Fits;
  }

  lemma QuietChains(w: World, a: Action)
    requires Enabled(w, a) && Appended(w, a).None? && AllChained(w.logs)
    ensures AllChained(NextLogs(w, a))
  {
    hide Follows;
  }

  // ----- Every run -----

  lemma InvParts(w: World)
    requires Inv(w)
    ensures LogsOk(w.logs, w.issued) && WritersOk(w.objs, w.logs) && ForkOk(w.objs, w.logs, w.images, w.call)
    ensures SwapOk(w.objs, w.logs, w.containers, w.descs, w.call) && AfterOk(w.call) && IssuedOk(w)
    ensures DescLink(w.descs, w.objs, w.table, w.containers, w.call) && DescsOk(w.descs, w.logs, w.containers)
    ensures SessionOk(w.objs, w.table, w.call)
  {
  }

  lemma StepKeepsNames(w: World, a: Action)
    requires Enabled(w, a) && Inv(w) && NamesInv(w)
    ensures NamesInv(Apply(w, a))
  {
    hide Inv, LogsOk, WritersOk, ForkOk, SwapOk, AfterOk, IssuedOk, DescLink, DescsOk, SessionOk;
    hide NamesLive, NamesFiled, NamesGone, StartsBare, AllChained, AppendOk;
    hide Enabled, NextObjs, NextLogs, NextCall, NextDescs, NextContainers;
    InvParts(w);
    AppendIsLegal(w, a);
    if Appended(w, a).Some? {
      AppendChains(w, a);
      LoggingLive(w, a);
      LoggingFiled(w, a);
      LoggingCalls(w, a);
    } else {
      QuietChains(w, a);
      if Gains(a) { GainsLive(w, a); } else { QuietLive(w, a); }
      if a.WriteDescriptor? { WritingFiled(w); } else { QuietFiled(w, a); }
      if a.Detach? { DetachCalls(w, a.sid, a.snap); } else { QuietCalls(w, a); }
    }
  }

  lemma {:induction false} ReachableNames(actions: seq<Action>)
    requires After(actions).Some?
    ensures NamesInv(After(actions).value)
  {
    hide Inv, Enabled, Apply;
    if actions != [] {
      var n := |actions| - 1;
      ReachableNames(actions[..n]);
      ReachableInv(actions[..n]);
      StepKeepsNames(After(actions[..n]).value, actions[n]);
    }
  }

  /**
   * In every reachable world the last fork or revert marker of a session's log names the container
   * the session is bound to, and each revert marker names as previous the container that the marker
   * before it named, or none.
   */
  lemma LogNamesTheContainer(w: World, path: string)
    requires Reachable(w) && path in w.logs
    ensures Bound(w, path) ==> Named(w.logs[path]) in {None, w.objs[path].cont}
    ensures forall r :: 0 <= r < |w.logs[path]| && w.logs[path][r].kind == SessionReverted ==> Follows(w.logs[path], r)
  {
    var actions :| After(actions) == Some(w);
    ReachableNames(actions);
    hide Follows;
  }
}
