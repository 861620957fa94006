/**
 * Restarts: which of the sessions that were listed when the server died come back, and as what. In between
 * containers may stop or come, reap may run, and further servers may start and die.
 */
module Restarts {
  import opened Events
  import opened Protocol
  import opened Invariant
  import opened Sessions
  import opened Leftovers
  import opened Effects

  /** The container of the session that is still there: the one it is bound to, or is about to be reverted from. */
  function Anchor(w: World, sid: string): Option<string>
    requires sid in w.table && w.table[sid] in w.objs
  {
    var o := w.objs[w.table[sid]];
    if o.cont.Some? then o.cont
    else if w.call.Reverting? && w.call.sid == sid then w.call.prior
    else None
  }

  /** What a session leaves on disk and in Docker. */
  datatype Remains = Remains(path: string, cid: string, log: seq<Event>, hist: seq<Ran>)

  ghost predicate Leaves(w: World, sid: string, r: Remains) {
    && sid in w.table && w.table[sid] in w.objs && Anchor(w, sid) == Some(r.cid)
    && r.path == w.table[sid] && r.path in w.logs && r.log == w.logs[r.path]
    && r.cid in w.containers && r.hist == w.containers[r.cid].hist
  }

  /** The session waits, unchanged, for a server to come to its file. */
  ghost predicate Waits(w: World, sid: string, r: Remains) {
    && (w.call.Down? || (w.call.Booting? && sid in w.call.todo))
    && sid in w.descs && w.descs[sid] == Desc(r.path, false, r.cid)
    && r.path in w.logs && w.logs[r.path] == r.log
    && r.cid in w.containers && w.containers[r.cid].hist == r.hist
  }

  /** The step at which a starting server deals with the file of `sid`. */
  predicate Decides(a: Action, sid: string) {
    a == BootDrop(sid) || a == BootResume(sid)
  }

  predicate Undecided(actions: seq<Action>, sid: string) {
    forall k :: 0 <= k < |actions| ==> !Decides(actions[k], sid)
  }

  // ----- One step -----

  lemma CallWaits(w: World, a: Action, sid: string)
    requires Enabled(w, a) && !Decides(a, sid) && sid in w.descs
    requires w.call.Down? || (w.call.Booting? && sid in w.call.todo)
    ensures NextCall(w, a).Down? || (NextCall(w, a).Booting? && sid in NextCall(w, a).todo)
  {
  }

  lemma FileWaits(w: World, a: Action, sid: string)
    requires Enabled(w, a) && !Decides(a, sid) && (w.call.Down? || w.call.Booting?) && sid in w.descs
    ensures sid in NextDescs(w, a) && NextDescs(w, a)[sid] == w.descs[sid]
  {
  }

  /** No server that is down or starting writes to a log whose session it has not taken up. */
  lemma LogWaits(w: World, a: Action, p: string)
    requires Enabled(w, a) && (w.call.Down? || w.call.Booting?) && p in w.logs && p !in w.objs
    ensures p in NextLogs(w, a) && NextLogs(w, a)[p] == w.logs[p]
  {
  }

  lemma ContainerWaits(w: World, a: Action, sid: string)
    requires Enabled(w, a) && (w.call.Down? || w.call.Booting?) && sid in w.descs && w.descs[sid].Desc?
    requires w.descs[sid].cid in w.containers && w.descs[sid].cid in w.issued
    ensures var c := w.descs[sid].cid;
            c in NextContainers(w, a) && NextContainers(w, a)[c].hist == w.containers[c].hist
  {
    assert !(a.Run? || a.RunFails? || a.LogRun?);
    assert KeepsContainer(w.descs, w.descs[sid].cid);
    QuietContainers(w, a);
    hide KeepsContainer;
  }

  lemma NotYetInMemory(w: World, sid: string, r: Remains)
    requires Inv(w) && Waits(w, sid, r)
    ensures r.path !in w.objs && r.cid in w.issued
  {
    hide ContentInv, Saved, DescsOk, OwnersOk, Disjoint, ListedOk, LocalOk, StartOk, SessionOk, HeldIssued;
  }

  lemma WaitsOn(w: World, a: Action, sid: string, r: Remains)
    requires Enabled(w, a) && Inv(w) && Waits(w, sid, r) && !Decides(a, sid)
    ensures Waits(Apply(w, a), sid, r)
  {
    hide Inv, Decides, Enabled, NextCall, NextDescs, NextLogs, NextContainers;
    NotYetInMemory(w, sid, r);
    CallWaits(w, a, sid);
    FileWaits(w, a, sid);
    LogWaits(w, a, r.path);
    ContainerWaits(w, a, sid);
  }

  // ----- The crash and all that follows -----

  lemma AnchorOnFile(w: World, sid: string)
    requires Saved(w.descs, w.objs, w.table, w.call) && PriorOk(w.descs, w.containers, w.call)
    requires ModeOk(w.descs, w.objs, w.table) && TableOk(w.table, w.objs) && WritersOk(w.objs, w.logs)
    requires ContainersOk(w.objs, w.logs, w.containers, w.call)
    requires sid in w.table && !BetweenContainers(w, sid)
    ensures sid in w.descs && w.table[sid] in w.logs && Anchor(w, sid).Some? && Anchor(w, sid).value in w.containers
    ensures w.descs[sid] == Desc(w.table[sid], w.objs[w.table[sid]].restricted, Anchor(w, sid).value)
  {
    hide LineHeld, CountAgent;
  }

  lemma CrashLeaves(w: World, sid: string) returns (r: Remains)
    requires Enabled(w, Crash) && Inv(w) && sid in w.table
    requires !BetweenContainers(w, sid) && !w.objs[w.table[sid]].restricted
    ensures Leaves(w, sid, r) && Waits(Apply(w, Crash), sid, r)
  {
    hide Inv, BetweenContainers, Enabled, Apply, Saved, PriorOk, ModeOk, TableOk, WritersOk, ContainersOk, DownOk;
    hide LogsOk, SessionOk, IssuedOk;
    InvHasFiles(w);
    AnchorOnFile(w, sid);
    var p, c := w.table[sid], Anchor(w, sid).value;
    r := Remains(p, c, w.logs[p], w.containers[c].hist);
    CrashStep(w);
  }

  lemma InvHasFiles(w: World)
    requires Inv(w)
    ensures Saved(w.descs, w.objs, w.table, w.call) && PriorOk(w.descs, w.containers, w.call)
    ensures ModeOk(w.descs, w.objs, w.table) && TableOk(w.table, w.objs) && WritersOk(w.objs, w.logs)
    ensures ContainersOk(w.objs, w.logs, w.containers, w.call) && DownOk(w.objs, w.table, w.call)
    ensures LogsOk(w.logs, w.issued) && SessionOk(w.objs, w.table, w.call) && IssuedOk(w)
  {
  }

  lemma {:induction false} WaitsThrough(actions: seq<Action>, n: nat, sid: string, r: Remains)
    requires After(actions).Some? && n <= |actions| && Undecided(actions[n..], sid)
    requires After(actions[..n]).Some? && Waits(After(actions[..n]).value, sid, r)
    ensures Waits(After(actions).value, sid, r)
    decreases |actions| - n
  {
    if n == |actions| {
      assert actions[..n] == actions;
    } else {
      StepAt(actions, n);
      hide Waits, Inv, Enabled, Apply, After, Decides;
      assert actions[n..][0] == actions[n];
      assert actions[n + 1..] == actions[n..][1..];
      WaitsOn(After(actions[..n]).value, actions[n], sid, r);
      WaitsThrough(actions, n + 1, sid, r);
    }
  }

  lemma RestrictedIsGone(w: World, sid: string)
    requires Enabled(w, Crash) && Inv(w) && sid in w.table && w.table[sid] in w.objs && w.objs[w.table[sid]].restricted
    ensures Gone(Apply(w, Crash), sid)
  {
    hide Inv, Enabled, Apply, Saved, PriorOk, TableOk, WritersOk, ContainersOk, DownOk, LogsOk, SessionOk;
    InvHasFiles(w);
    CrashStep(w);
  }

  lemma ListedMeansUp(w: World, sid: string)
    requires Inv(w) && sid in w.table
    ensures Enabled(w, Crash) && w.table[sid] in w.objs
  {
    InvHasFiles(w);
    hide Inv;
  }

  lemma WaitingIsResumable(w: World, sid: string, r: Remains)
    requires Waits(w, sid, r) && w.call.Booting?
    ensures Enabled(w, BootResume(sid))
  {
  }

  lemma CrashSplits(before: seq<Action>, after: seq<Action>)
    requires After(before).Some? && After(before + [Crash] + after).Some?
    ensures var actions, n := before + [Crash] + after, |before|;
      && actions[..n] == before && actions[n] == Crash && actions[n + 1..] == after
      && After(actions[..n + 1]).Some? && Enabled(After(before).value, Crash)
      && After(actions[..n + 1]).value == Apply(After(before).value, Crash) && Inv(After(before).value)
  {
    hide Inv, Enabled, Apply, After;
    var actions, n := before + [Crash] + after, |before|;
    StepAt(actions, n);
    assert actions[..n] == before && actions[n + 1..] == after;
  }

  /**
   * A starting server that has not dealt with the session's file yet can bring the session back if and
   * only if the session was not between two containers when the server died, and its network is not
   * restricted, whatever came in between.
   */
  lemma ResumableIff(before: seq<Action>, after: seq<Action>, sid: string)
    requires After(before).Some? && sid in After(before).value.table
    requires After(before + [Crash] + after).Some? && Undecided(after, sid)
    requires After(before + [Crash] + after).value.call.Booting?
    ensures var w := After(before).value;
      && w.table[sid] in w.objs
      && (Enabled(After(before + [Crash] + after).value, BootResume(sid)) <==>
          !BetweenContainers(w, sid) && !w.objs[w.table[sid]].restricted)
  {
    CrashSplits(before, after);
    var w, actions, n := After(before).value, before + [Crash] + after, |before|;
    hide Inv, BetweenContainers, Undecided, Enabled, Apply, After, Gone, Waits, Leaves;
    ListedMeansUp(w, sid);
    if BetweenContainers(w, sid) || w.objs[w.table[sid]].restricted {
      if BetweenContainers(w, sid) { CrashedIsGone(w, sid); } else { RestrictedIsGone(w, sid); }
      GoneForGood(actions, n + 1, sid);
      GoneCannotResume(After(actions).value, sid);
    } else {
      var r := CrashLeaves(w, sid);
      WaitsThrough(actions, n + 1, sid, r);
      WaitingIsResumable(After(actions).value, sid, r);
    }
  }

  /** A session object as a restart makes it: bound to the container left, with no snapshots. */
  function Revived(o: Session, cid: string): Session {
    o.(cont := Some(cid), snaps := {})
  }

  /**
   * What comes back is the session as it was: same log, same counters, same container with the same
   * history; only the snapshots are forgotten.
   */
  lemma ResumedAsItWas(before: seq<Action>, after: seq<Action>, sid: string)
    requires After(before).Some? && sid in After(before).value.table
    requires After(before + [Crash] + after).Some? && Undecided(after, sid)
    requires Enabled(After(before + [Crash] + after).value, BootResume(sid))
    ensures var w, w' := After(before).value, Apply(After(before + [Crash] + after).value, BootResume(sid));
      && w.table[sid] in w.objs && sid in w'.table && w'.table[sid] == w.table[sid]
      && var p := w.table[sid];
      && Anchor(w, sid).Some? && p in w.logs && p in w'.logs && w'.logs[p] == w.logs[p]
      && p in w'.objs && w'.objs[p] == Revived(w.objs[p], Anchor(w, sid).value)
      && Anchor(w, sid).value in w.containers && Anchor(w, sid).value in w'.containers
      && w'.containers[Anchor(w, sid).value].hist == w.containers[Anchor(w, sid).value].hist
  {
    CrashSplits(before, after);
    var w, actions, n := After(before).value, before + [Crash] + after, |before|;
    var v := After(actions).value;
    EnabledMeansBooting(v, sid);
    hide Inv, BetweenContainers, Undecided, Enabled, Apply, After, Waits, Leaves;
    ListedMeansUp(w, sid);
    ResumableIff(before, after, sid);
    var r := CrashLeaves(w, sid);
    WaitsThrough(actions, n + 1, sid, r);
    ResumesRemains(w, v, sid, r);
  }

  lemma EnabledMeansBooting(w: World, sid: string)
    requires Enabled(w, BootResume(sid))
    ensures w.call.Booting?
  {
  }

  lemma ResumesRemains(w: World, v: World, sid: string, r: Remains)
    requires Inv(w) && Leaves(w, sid, r) && !w.objs[r.path].restricted
    requires Enabled(v, BootResume(sid)) && Waits(v, sid, r)
    ensures var w' := Apply(v, BootResume(sid));
      && sid in w'.table && w'.table[sid] == r.path && r.path in w'.logs && w'.logs[r.path] == r.log
      && r.path in w'.objs && w'.objs[r.path] == Revived(w.objs[r.path], r.cid)
      && r.cid in w'.containers && w'.containers[r.cid].hist == r.hist
  {
    hide Inv, Apply, WritersOk, DownOk;
    InvHasFiles(w);
    LogsAreLegal(w, r.path);
    WritesOn(w, r.path);
    hide Saved, PriorOk, ModeOk, TableOk, ContainersOk, LogsOk, SessionOk, IssuedOk, Enabled, CountAgent;
    BootResumeStep(v, sid);
  }

  lemma WritesOn(w: World, p: string)
    requires WritersOk(w.objs, w.logs) && p in w.objs
    ensures p in w.logs && w.objs[p].seqNo == |w.logs[p]| && w.objs[p].count == CountAgent(w.logs[p])
  {
  }

  lemma LogsAreLegal(w: World, p: string)
    requires LogsOk(w.logs, w.issued) && p in w.logs
    ensures RecoverNext(w.logs[p]) == |w.logs[p]|
  {
  }

  // ----- Both ways in one revert -----

  /** Start a task, fork, and begin to revert to the fork. */
  function RevertRun(path: string, cid: string, sid: string, snap: string): seq<Action> {
    StartRun(path, cid, sid) + [Commit(sid, snap), LogFork] + [Detach(sid, snap)]
  }

  lemma RevertBegins(path: string, cid: string, sid: string, snap: string) returns (w: World)
    requires AllNew(path, cid, sid, snap)
    ensures After(RevertRun(path, cid, sid, snap)) == Some(w)
    ensures w.call == Reverting(sid, path, snap, Some(cid), Some(cid))
    ensures sid in w.table && w.table[sid] == path && path in w.objs && !w.objs[path].restricted
    ensures w.objs[path].cont.None?
  {
    hide Enabled, Apply, After;
    var run := StartRun(path, cid, sid);
    w := StartRuns(path, cid, sid, snap);
    w := Forks(run, w, path, cid, sid, snap);
    DetachStep(w, sid, snap);
    OneMore(run + [Commit(sid, snap), LogFork], w, Detach(sid, snap));
    w := Apply(w, Detach(sid, snap));
  }

  lemma CrashAndBoot(run: seq<Action>, w: World) returns (w': World)
    requires After(run) == Some(w) && !w.call.Down?
    ensures After(run + [Crash] + [Boot]) == Some(w') && w'.call.Booting?
  {
    hide Enabled, Apply, After;
    CrashStep(w);
    OneMore(run, w, Crash);
    BootStep(Apply(w, Crash));
    OneMore(run + [Crash], Apply(w, Crash), Boot);
    w' := Apply(Apply(w, Crash), Boot);
  }

  /**
   * A server that dies as a revert begins finds the session again; one that dies a step later, with
   * the old container removed, does not.
   */
  lemma LostInRevert(path: string, cid: string, sid: string, snap: string)
    requires AllNew(path, cid, sid, snap)
    ensures var run := RevertRun(path, cid, sid, snap);
      && After(run + [Crash] + [Boot]).Some? && After(run + [RemoveOld] + [Crash] + [Boot]).Some?
      && Enabled(After(run + [Crash] + [Boot]).value, BootResume(sid))
      && !Enabled(After(run + [RemoveOld] + [Crash] + [Boot]).value, BootResume(sid))
  {
    hide Enabled, Apply, After;
    var run := RevertRun(path, cid, sid, snap);
    var w := RevertBegins(path, cid, sid, snap);
    var _ := CrashAndBoot(run, w);
    ResumableIff(run, [Boot], sid);
    RemoveOldStep(w);
    OneMore(run, w, RemoveOld);
    var _ := CrashAndBoot(run + [RemoveOld], Apply(w, RemoveOld));
    ResumableIff(run + [RemoveOld], [Boot], sid);
  }
}
