/** What the session protocol guarantees in every reachable world. */
module Sessions {
  import opened Events
  import opened Branch
  import opened Protocol
  import opened Invariant

  ghost predicate Reachable(w: World) {
    exists actions :: After(actions) == Some(w)
  }

  lemma ReachableHasInv(w: World)
    requires Reachable(w)
    ensures Inv(w)
  {
    var actions :| After(actions) == Some(w);
    ReachableInv(actions);
  }

  /** The session object at `path` has a container, and no revert of it is half recorded. */
  ghost predicate Bound(w: World, path: string) {
    path in w.objs && path in w.logs && w.objs[path].cont.Some? && !SwapPending(w.call, path)
  }

  function HistoryOf(w: World, path: string): seq<Ran>
    requires path in w.objs && w.objs[path].cont.Some? && w.objs[path].cont.value in w.containers
  {
    w.containers[w.objs[path].cont.value].hist
  }

  /**
   * Soundness: whatever was reverted, retried, interrupted or restarted, every
   * command the current branch shows is in the live container, in that order.
   */
  lemma ShownCommandsAreInContainer(w: World, path: string)
    requires Reachable(w) && Bound(w, path)
    ensures w.objs[path].cont.value in w.containers
    ensures IsSubsequence(Commands(Current(w.logs[path])), Logged(HistoryOf(w, path)))
  {
    ReachableHasInv(w);
    CurrentIsKeptLine(w.logs[path]);
  }

  /**
   * Exactness: the view shows exactly the container's logged commands if and only if none of them
   * was lost on the way, as the log itself tells; reverts to shown forks alone lose none.
   */
  lemma ShownCommandsAreTheContainers(w: World, path: string)
    requires Reachable(w) && Bound(w, path)
    ensures w.objs[path].cont.value in w.containers
    ensures Commands(Current(w.logs[path])) == Logged(HistoryOf(w, path)) <==> CommandsKept(w.logs[path])
    ensures RevertsToShown(w.logs[path]) ==>
              CommandsKept(w.logs[path]) && Logged(HistoryOf(w, path)) == Commands(Stack(w.logs[path]))
  {
    ReachableHasInv(w);
    CommandsExactIffKept(w.logs[path]);
    if RevertsToShown(w.logs[path]) {
      RevertsToShownKeepCommands(w.logs[path]);
      CurrentIsStack(w.logs[path]);
    }
  }

  /**
   * Crash consistency: every session object in memory, resumed ones included,
   * writes on from the end of its log, counts its agent commands, and has a
   * container that exists and holds the log's replayed commands; what the log
   * does not tell of is at most one command for each interrupted exec.
   */
  lemma SessionsMatchTheirLogs(w: World, path: string)
    requires Reachable(w) && path in w.objs
    ensures path in w.logs && Legal(w.logs[path])
    ensures w.objs[path].seqNo == |w.logs[path]| && w.objs[path].count == CountAgent(w.logs[path])
    ensures w.objs[path].cont.Some? ==> w.objs[path].cont.value in w.containers
    ensures Bound(w, path) ==>
      Logged(HistoryOf(w, path)) == Commands(Replay(w.logs[path]).line) &&
      Unlogged(HistoryOf(w, path)) <= w.interrupted + if w.call.Running? then 1 else 0
  {
    ReachableHasInv(w);
  }

  /** The steps that may cost a command its log line: the server dies, or an exec raises after the command ran. */
  function Interruptions(actions: seq<Action>): nat {
    if actions == [] then 0
    else
      var a := actions[|actions| - 1];
      Interruptions(actions[..|actions| - 1]) + if a.Crash? || (a.RunFails? && a.applied) then 1 else 0
  }

  lemma {:induction false} InterruptedAtMost(actions: seq<Action>)
    requires After(actions).Some?
    ensures After(actions).value.interrupted <= Interruptions(actions)
  {
    hide Inv;
    if actions != [] {
      InterruptedAtMost(actions[..|actions| - 1]);
    }
  }

  /** What a session's container ran and its log does not tell: at most one command for each of those steps. */
  lemma UnloggedAtMost(actions: seq<Action>, path: string)
    requires After(actions).Some? && Bound(After(actions).value, path)
    ensures var w := After(actions).value;
      w.objs[path].cont.value in w.containers &&
      Unlogged(HistoryOf(w, path)) <= Interruptions(actions) + if w.call.Running? then 1 else 0
  {
    hide Interruptions;
    SessionsMatchTheirLogs(After(actions).value, path);
    InterruptedAtMost(actions);
  }

  /** A snapshot a session may revert to still exists, and reverting restores what its fork saved. */
  lemma SnapshotsAreRestorable(w: World, path: string, snap: string)
    requires Reachable(w) && path in w.objs && snap in w.objs[path].snaps && !w.call.Forking?
    ensures snap in w.images && path in w.logs && snap in Replay(w.logs[path]).saved
    ensures Logged(w.images[snap].hist) == Commands(Replay(w.logs[path]).saved[snap])
  {
    hide LogsOk, ContainersOk, LostOk, OwnerInv, CallInv;
    ReachableHasInv(w);
  }

  // --- Sessions that cannot come back

  /** The call in progress is on the session `sid`. */
  predicate Bears(call: Call, sid: string) {
    match Base(call)
    case Saving(s, _) => s == sid
    case Forking(s, _, _) => s == sid
    case Reverting(s, _, _, _, _) => s == sid
    case Swapped(s, _, _, _) => s == sid
    case Finishing(s, _) => s == sid
    case Stopped(s, _) => s == sid
    case _ => false
  }

  /** A file that can still be read is of restricted mode, or names a container that is gone. */
  predicate Stale(descs: map<string, Descriptor>, containers: map<string, Container>, issued: set<string>,
                  sid: string) {
    sid in descs && descs[sid].Desc? ==>
      descs[sid].restricted || (descs[sid].cid !in containers && descs[sid].cid in issued)
  }

  /** The session `sid` is over: nobody holds it, and its file cannot bring it back. */
  predicate Gone(w: World, sid: string) {
    sid in w.issued && sid !in w.table && !Bears(w.call, sid) && Stale(w.descs, w.containers, w.issued, sid)
  }

  lemma ContainersCome(w: World, a: Action)
    requires Enabled(w, a)
    ensures NewIds(w.containers, NextContainers(w, a), w.issued)
  {
    if a.Run? || a.RunFails? || a.LogRun? {
      hide Active;
    } else {
      QuietContainers(w, a);
      hide Enabled, NextContainers;
    }
  }

  lemma NotTakenUp(w: World, a: Action, sid: string)
    requires Enabled(w, a) && AfterOk(w.call) && Gone(w, sid)
    ensures sid !in NextTable(w, a) && !Bears(NextCall(w, a), sid)
  {
  }

  lemma FileNotRewritten(w: World, a: Action, sid: string)
    requires Enabled(w, a) && !Bears(w.call, sid)
    ensures sid in NextDescs(w, a) ==> sid in w.descs && NextDescs(w, a)[sid] == w.descs[sid]
  {
  }

  lemma GoneStays(w: World, a: Action, sid: string)
    requires Enabled(w, a) && AfterOk(w.call) && Gone(w, sid)
    ensures Gone(Apply(w, a), sid)
    ensures sid !in w.descs ==> sid !in Apply(w, a).descs
  {
    assert w.issued <= NextIssued(w, a);
    ContainersCome(w, a);
    NotTakenUp(w, a, sid);
    FileNotRewritten(w, a, sid);
    hide Enabled, AfterOk, Bears, NextTable, NextCall, NextDescs, NextContainers, NextIssued;
  }

  lemma HasAfterOk(w: World)
    requires Inv(w)
    ensures AfterOk(w.call)
  {
  }

  lemma {:induction false} PrefixRuns(actions: seq<Action>, n: nat)
    requires After(actions).Some? && n <= |actions|
    ensures After(actions[..n]).Some?
  {
    if n < |actions| {
      var m := |actions| - 1;
      PrefixRuns(actions[..m], n);
      assert actions[..m][..n] == actions[..n];
    } else {
      assert actions[..n] == actions;
    }
  }

  /** The world before step `n`, the step, and the world after it. */
  lemma StepAt(actions: seq<Action>, n: nat)
    requires After(actions).Some? && n < |actions|
    ensures After(actions[..n]).Some? && After(actions[..n + 1]).Some?
    ensures var w := After(actions[..n]).value;
            Enabled(w, actions[n]) && After(actions[..n + 1]).value == Apply(w, actions[n]) && Inv(w)
  {
    hide Inv;
    PrefixRuns(actions, n + 1);
    PrefixRuns(actions, n);
    ReachableInv(actions[..n]);
    assert actions[..n + 1][..n] == actions[..n] && actions[..n + 1][n] == actions[n];
  }

  lemma {:induction false} GoneForGood(actions: seq<Action>, n: nat, sid: string)
    requires After(actions).Some? && n <= |actions| && After(actions[..n]).Some? && Gone(After(actions[..n]).value, sid)
    ensures Gone(After(actions).value, sid)
    decreases |actions| - n
  {
    if n == |actions| {
      assert actions[..n] == actions;
    } else {
      StepAt(actions, n);
      var w := After(actions[..n]).value;
      hide Gone, Inv, Enabled, Apply, After;
      HasAfterOk(w);
      GoneStays(w, actions[n], sid);
      GoneForGood(actions, n + 1, sid);
    }
  }

  /**
   * The session is between two containers: its old one is gone, and its file does not name a new
   * one yet. A failed revert leaves it there until the next one works.
   */
  ghost predicate BetweenContainers(w: World, sid: string) {
    && sid in w.table && w.table[sid] in w.objs
    && (|| ((w.call.Swapped? || w.call.Saving?) && w.call.sid == sid)
        || (w.objs[w.table[sid]].cont.None? && !(w.call.Reverting? && w.call.sid == sid && w.call.prior.Some?)))
  }

  /**
   * From the removal of the old container to the writing of the session file, and after a revert
   * that failed, a crash loses the session for good: no restart brings it back.
   */
  lemma CrashInRevertDropsSession(before: seq<Action>, after: seq<Action>, sid: string)
    requires After(before).Some? && BetweenContainers(After(before).value, sid)
    requires After(before + [Crash] + after).Some?
    ensures !Enabled(After(before + [Crash] + after).value, BootResume(sid))
  {
    hide Inv, BetweenContainers, Enabled, Apply, After;
    var actions, n := before + [Crash] + after, |before|;
    StepAt(actions, n);
    assert actions[..n] == before;
    CrashedIsGone(After(before).value, sid);
    GoneForGood(actions, n + 1, sid);
    GoneCannotResume(After(actions).value, sid);
  }

  lemma GoneCannotResume(w: World, sid: string)
    requires Gone(w, sid)
    ensures !Enabled(w, BootResume(sid))
  {
  }

  lemma CrashedIsGone(w: World, sid: string)
    requires Enabled(w, Crash) && Inv(w) && BetweenContainers(w, sid)
    ensures Gone(Apply(w, Crash), sid)
  {
    hide LogsOk, WritersOk, SnapshotsOk, LostOk, Disjoint, OwnersOk, ListedOk, DescsOk, Saved, HeldIssued;
    hide StartOk, RunOk, ForkOk, LineHeld, SavedHeld, FiledOk;
    FileIsStale(w, sid);
  }

  lemma FileIsStale(w: World, sid: string)
    requires DescLink(w.descs, w.objs, w.table, w.containers, w.call) && IssuedOk(w) && TableOk(w.table, w.objs)
    requires SessionOk(w.objs, w.table, w.call) && SwapOk(w.objs, w.logs, w.containers, w.descs, w.call)
    requires SavingOk(w.descs, w.containers, w.call) && WritersOk(w.objs, w.logs)
    requires ContainersOk(w.objs, w.logs, w.containers, w.call) && BetweenContainers(w, sid)
    ensures Stale(w.descs, w.containers, w.issued, sid)
  {
    hide LineHeld, SavedHeld, CountAgent;
  }

  // --- reap

  /**
   * Between tool calls, or with the server down, reap spares the container and
   * every snapshot of each session in memory, and of each session a restart can resume.
   */
  lemma ReapIsSafe(w: World)
    requires Reachable(w) && Enabled(w, Reap)
    ensures var r := Apply(w, Reap);
      && (forall p :: p in w.objs && w.objs[p].cont.Some? ==> w.objs[p].cont.value in r.containers)
      && (forall p, s :: p in w.objs && s in w.objs[p].snaps ==> s in r.images)
      && (forall sid :: sid in w.descs && Enabled(w.(call := Booting({sid})), BootResume(sid)) ==>
            Enabled(r.(call := Booting({sid})), BootResume(sid)))
  {
    hide SnapshotsOk, LostOk, Disjoint, DescLink, HeldIssued, StartOk, RunOk, ForkOk, SwapOk, FiledOk, LineHeld, LogsOk;
    ReachableHasInv(w);
    SessionContainersExist(w);
    ReapSpares(w);
  }

  lemma SessionContainersExist(w: World)
    requires ContainersOk(w.objs, w.logs, w.containers, w.call) && WritersOk(w.objs, w.logs)
    ensures forall p :: p in w.objs && w.objs[p].cont.Some? ==> w.objs[p].cont.value in w.containers
  {
  }

  lemma ReapSpares(w: World)
    requires Enabled(w, Reap)
    requires OwnersOk(w.table, w.objs, w.images) && ListedOk(w.objs, w.table, w.call)
    requires DownOk(w.objs, w.table, w.call) && Saved(w.descs, w.objs, w.table, w.call) && "" !in w.table
    requires forall p :: p in w.objs && w.objs[p].cont.Some? ==> w.objs[p].cont.value in w.containers
    ensures var r := Apply(w, Reap);
      && (forall p :: p in w.objs && w.objs[p].cont.Some? ==> w.objs[p].cont.value in r.containers)
      && (forall p, s :: p in w.objs && s in w.objs[p].snaps ==> s in r.images)
      && (forall sid :: sid in w.descs && w.descs[sid].Desc? && w.descs[sid].cid in w.containers ==>
            w.descs[sid].cid in r.containers)
      && r.descs == w.descs && r.logs == w.logs
  {
    ReapKeepsSessions(w);
  }

  predicate BoundInMemory(w: World, c: string) {
    exists sid :: sid in w.table && w.table[sid] in w.objs && w.objs[w.table[sid]].cont == Some(c)
  }

  predicate NamedInFile(descs: map<string, Descriptor>, c: string) {
    exists sid :: sid in descs && descs[sid].Desc? && descs[sid].cid == c
  }

  /** A file names the container by a short id: its first twelve characters. */
  predicate NamedShort(descs: map<string, Descriptor>, c: string) {
    exists sid :: sid in descs && descs[sid].Desc? && |descs[sid].cid| == 12 && descs[sid].cid <= c
  }

  lemma ShortIdIsPrefix(descs: map<string, Descriptor>, c: string)
    ensures NamedInFile(descs, c) || NamedInFile(descs, ShortId(c)) <==> NamedInFile(descs, c) || NamedShort(descs, c)
  {
    if |c| > 12 {
      assert forall s: string :: s <= c && |s| == 12 <==> s == c[..12];
    } else {
      assert forall s: string :: s <= c && |s| == 12 ==> s == c;
    }
  }

  /** Between tool calls each file that names an existing container is of the listed session bound to it. */
  lemma FilesAreListed(w: World, sid: string)
    requires w.call.Idle? && sid in w.descs && FiledOk(w.descs, w.table, w.call)
    requires DescLink(w.descs, w.objs, w.table, w.containers, w.call) && TableOk(w.table, w.objs)
    ensures sid in w.table
    ensures w.descs[sid].Desc? && w.descs[sid].cid in w.containers ==>
              w.objs[w.table[sid]].cont == Some(w.descs[sid].cid)
  {
  }

  lemma ListedAreFiled(w: World, sid: string)
    requires w.call.Idle? && sid in w.table && TableOk(w.table, w.objs)
    requires Saved(w.descs, w.objs, w.table, w.call)
    ensures sid in w.descs && w.descs[sid].Desc?
    ensures w.objs[w.table[sid]].cont.Some? ==> w.objs[w.table[sid]].cont.value == w.descs[sid].cid
  {
  }

  lemma ReapedByFiles(w: World)
    requires Enabled(w, Reap)
    ensures var r := Apply(w, Reap);
      && (forall c :: c in r.containers <==>
            c in w.containers && (NamedInFile(w.descs, c) || NamedShort(w.descs, c)))
      && (forall i :: i in r.images <==>
            i in w.images && w.images[i].owner != "" && w.images[i].owner in LiveSessions(w.descs))
  {
    hide ShortId;
    forall c ensures c in LiveContainers(w.descs) <==> NamedInFile(w.descs, c) {}
    forall c { ShortIdIsPrefix(w.descs, c); }
    hide NamedInFile, NamedShort;
  }

  lemma IdleParts(w: World)
    requires Inv(w)
    ensures FiledOk(w.descs, w.table, w.call) && TableOk(w.table, w.objs) && Saved(w.descs, w.objs, w.table, w.call)
    ensures DescLink(w.descs, w.objs, w.table, w.containers, w.call) && "" !in w.table
  {
  }

  lemma BoundIsNamed(w: World, c: string)
    requires w.call.Idle? && FiledOk(w.descs, w.table, w.call) && TableOk(w.table, w.objs)
    requires DescLink(w.descs, w.objs, w.table, w.containers, w.call) && Saved(w.descs, w.objs, w.table, w.call)
    requires c in w.containers
    ensures BoundInMemory(w, c) <==> NamedInFile(w.descs, c)
  {
    hide FiledOk, Saved, DescLink;
    if sid :| sid in w.descs && w.descs[sid].Desc? && w.descs[sid].cid == c {
      FilesAreListed(w, sid);
    }
    if sid :| sid in w.table && w.table[sid] in w.objs && w.objs[w.table[sid]].cont == Some(c) {
      ListedAreFiled(w, sid);
    }
  }

  lemma ListedIsLive(w: World)
    requires w.call.Idle? && FiledOk(w.descs, w.table, w.call) && TableOk(w.table, w.objs)
    requires DescLink(w.descs, w.objs, w.table, w.containers, w.call) && Saved(w.descs, w.objs, w.table, w.call)
    ensures w.table.Keys == LiveSessions(w.descs)
  {
    hide FiledOk, Saved, DescLink;
    forall sid ensures sid in w.table <==> sid in LiveSessions(w.descs) {
      if sid in w.table {
        ListedAreFiled(w, sid);
      }
      if sid in LiveSessions(w.descs) {
        FilesAreListed(w, sid);
      }
    }
  }

  /**
   * Reap run between tool calls leaves exactly the containers bound to a session in memory, and
   * those whose short id a file happens to name, and exactly the images of listed sessions.
   */
  lemma ReapIsComplete(w: World)
    requires Reachable(w) && w.call.Idle?
    ensures Enabled(w, Reap)
    ensures var r := Apply(w, Reap);
      && (forall c :: c in r.containers <==>
            c in w.containers && (BoundInMemory(w, c) || NamedShort(w.descs, c)))
      && (forall i :: i in r.images <==> i in w.images && w.images[i].owner in w.table)
  {
    hide Inv;
    ReachableHasInv(w);
    IdleParts(w);
    ReapedByFiles(w);
    ListedIsLive(w);
    hide Reachable, Apply, FiledOk, Saved, DescLink, ShortId, TableOk, LiveSessions, BoundInMemory, NamedInFile;
    hide NamedShort;
    forall c | c in w.containers ensures BoundInMemory(w, c) <==> NamedInFile(w.descs, c) {
      BoundIsNamed(w, c);
    }
  }
}
