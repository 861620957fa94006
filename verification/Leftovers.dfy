/**
 * Snapshot images that outlive their session. A restart forgets which images a session took, so
 * finishing or aborting it later removes only those taken since; the others wait for reap.
 */
module Leftovers {
  import opened Events
  import opened Protocol
  import opened Invariant
  import opened Sessions
  import opened Effects

  /** No session object can remove the image `snap`, or `p` alone can. */
  ghost predicate OnlyFrom(objs: Objs, p: string, snap: string) {
    forall q :: q in objs && q != p ==> snap !in objs[q].snaps
  }

  /** The call in progress is bringing the sandbox at `p` down, images included. */
  predicate Removing(call: Call, sid: string, p: string) {
    call == Stopped(sid, p)
  }

  ghost predicate OwnedImage(images: map<string, Image>, sid: string, snap: string) {
    snap in images ==> images[snap].owner == sid
  }

  /** The session object that took the snapshot is still there: it and the image go together. */
  ghost predicate Remembered(w: World, sid: string, p: string, snap: string) {
    && !w.call.Down? && !w.call.Booting? && Holds(w.table, w.call, sid, p)
    && p in w.objs && sid in w.issued && snap in w.issued
    && (snap in w.images <==> snap in w.objs[p].snaps)
    && (snap !in w.images ==> Removing(w.call, sid, p))
    && OwnedImage(w.images, sid, snap) && OnlyFrom(w.objs, p, snap)
  }

  ghost predicate FromNone(objs: Objs, snap: string) {
    forall q :: q in objs ==> snap !in objs[q].snaps
  }

  /** The object is lost, the image is not. */
  ghost predicate Forgotten(w: World, sid: string, snap: string) {
    && snap in w.images && w.images[snap].owner == sid && snap in w.issued && sid in w.issued
    && FromNone(w.objs, snap)
  }

  /** The session is over; its image is still there exactly if it was left. */
  ghost predicate Over(w: World, sid: string, snap: string, left: bool) {
    && Gone(w, sid) && sid !in w.descs && snap in w.issued && FromNone(w.objs, snap)
    && (snap in w.images <==> left) && OwnedImage(w.images, sid, snap)
  }

  predicate Ends(w: World, a: Action, sid: string) {
    a.Unlink? && w.call.Stopped? && w.call.sid == sid
  }

  // ----- The parts of a step -----

  /** An image comes only with a new id, and goes only by reap or by the session object that took it. */
  lemma ImageStep(w: World, a: Action, snap: string)
    requires Enabled(w, a) && snap in w.issued
    ensures snap in NextImages(w, a) ==> snap in w.images && NextImages(w, a)[snap] == w.images[snap]
    ensures snap in w.images && snap !in NextImages(w, a) ==>
              (a == RemoveImage(snap) && w.call.Stopped? && w.call.path in w.objs &&
                snap in w.objs[w.call.path].snaps) ||
              (a.Reap? && (w.call.Idle? || w.call.Down?) && !KeepsImage(w.descs, w.images[snap]))
    ensures a == RemoveImage(snap) ==> snap !in NextImages(w, a)
  {
    hide KeepsImage;
  }

  /** No session object gains a snapshot that was handed out before. */
  lemma SnapStep(w: World, a: Action, snap: string)
    requires Enabled(w, a) && snap in w.issued
    ensures forall q :: q in NextObjs(w, a) && snap in NextObjs(w, a)[q].snaps ==>
        q in w.objs && snap in w.objs[q].snaps
  {
    if a.Commit? {
      assert a.snap != snap;
    } else {
      QuietSnaps(w, a);
      hide Enabled, NextObjs;
    }
  }

  lemma ObjectStays(w: World, a: Action, p: string, snap: string)
    requires Enabled(w, a) && p in w.objs && snap in w.issued && !a.Crash?
    requires p in w.issued && (w.call.Booting? ==> a.BootDrop? || a.BootDone?)
    requires (a.StartFailed? || a.StartAbandoned? || a.Unlink?) ==> w.call.path != p
    ensures p in NextObjs(w, a)
    ensures snap in w.objs[p].snaps && !(a == RemoveImage(snap) && w.call.path == p) ==> snap in NextObjs(w, a)[p].snaps
    ensures a == RemoveImage(snap) && w.call.path == p ==> snap !in NextObjs(w, a)[p].snaps
  {
    hide CountAgent, RecoverNext;
  }

  lemma CallStays(w: World, a: Action, sid: string, p: string)
    requires Enabled(w, a) && AfterOk(w.call) && !w.call.Down? && !w.call.Booting? && !a.Crash?
    ensures !NextCall(w, a).Down? && !NextCall(w, a).Booting?
    ensures Removing(w.call, sid, p) && !Ends(w, a, sid) ==> Removing(NextCall(w, a), sid, p)
  {
  }

  lemma HoldStays(w: World, a: Action, sid: string, p: string)
    requires Enabled(w, a) && AfterOk(w.call) && Holds(w.table, w.call, sid, p) && sid in w.issued
    requires !w.call.Down? && !w.call.Booting? && !a.Crash? && !Ends(w, a, sid)
    ensures Holds(NextTable(w, a), NextCall(w, a), sid, p)
  {
  }

  /** What the steps that drop a session object, or close one, have to do with the one at `p`. */
  lemma HeldIsApart(w: World, a: Action, sid: string, p: string)
    requires Enabled(w, a) && LocalOk(w.objs, w.table, w.call) && Holds(w.table, w.call, sid, p)
    ensures a.StartFailed? || a.StartAbandoned? ==> w.call.path != p
    ensures a.Unlink? ==> (w.call.path == p <==> w.call.sid == sid)
    ensures a.RemoveImage? && w.call.path == p ==> Removing(w.call, sid, p)
    ensures Ends(w, a, sid) ==> Removing(w.call, sid, p)
  {
  }

  lemma ListedIsKept(w: World, a: Action, sid: string, p: string, snap: string)
    requires Enabled(w, a) && a.Reap? && Saved(w.descs, w.objs, w.table, w.call) && "" !in w.table
    requires Holds(w.table, w.call, sid, p) && p in w.objs && !w.call.Down?
    requires snap in w.images && w.images[snap].owner == sid
    ensures KeepsImage(w.descs, w.images[snap])
  {
  }

  ghost predicate Facts(w: World) {
    && AfterOk(w.call) && LocalOk(w.objs, w.table, w.call) && Saved(w.descs, w.objs, w.table, w.call)
    && "" !in w.table && w.objs.Keys <= w.issued && DownOk(w.objs, w.table, w.call) && TableOk(w.table, w.objs)
    && DescLink(w.descs, w.objs, w.table, w.containers, w.call) && IssuedOk(w) && TeardownOk(w.descs, w.call)
  }

  lemma HasFacts(w: World)
    requires Inv(w)
    ensures Facts(w)
  {
  }

  /** The session object keeps holding the image exactly as long as the image is there. */
  lemma ImageGoesWithObject(w: World, a: Action, sid: string, p: string, snap: string)
    requires Enabled(w, a) && Facts(w) && Remembered(w, sid, p, snap) && !a.Crash? && !Ends(w, a, sid)
    ensures p in NextObjs(w, a) && OnlyFrom(NextObjs(w, a), p, snap)
    ensures snap in NextImages(w, a) <==> snap in NextObjs(w, a)[p].snaps
    ensures snap in NextImages(w, a) ==> snap in w.images && NextImages(w, a)[snap] == w.images[snap]
    ensures snap in w.images && snap !in NextImages(w, a) ==> Removing(w.call, sid, p)
  {
    hide Saved, DescLink, TableOk, IssuedOk, AfterOk, TeardownOk, DownOk;
    ImageStep(w, a, snap);
    SnapStep(w, a, snap);
    HeldIsApart(w, a, sid, p);
    ObjectStays(w, a, p, snap);
    if a.Reap? && snap in w.images {
      ReapSparesIt(w, sid, p, snap);
    }
    hide Enabled, Facts, LocalOk, Holds, KeepsImage, Removing, NextImages, NextObjs;
  }

  lemma ReapSparesIt(w: World, sid: string, p: string, snap: string)
    requires Enabled(w, Reap) && Facts(w) && Remembered(w, sid, p, snap) && snap in w.images
    ensures KeepsImage(w.descs, w.images[snap])
  {
    hide Saved, KeepsImage, DescLink, Holds, TableOk, AfterOk, LocalOk;
    ListedIsKept(w, Reap, sid, p, snap);
  }

  lemma RememberedStays(w: World, a: Action, sid: string, p: string, snap: string)
    requires Enabled(w, a) && Facts(w) && Remembered(w, sid, p, snap) && !a.Crash? && !Ends(w, a, sid)
    ensures Remembered(Apply(w, a), sid, p, snap)
  {
    assert w.issued <= NextIssued(w, a);
    ImageGoesWithObject(w, a, sid, p, snap);
    FactsAfterOk(w);
    hide Facts;
    HoldStays(w, a, sid, p);
    CallStays(w, a, sid, p);
    hide Enabled, AfterOk, Holds, Removing, OnlyFrom, NextImages, NextObjs, NextTable, NextCall, NextIssued;
  }

  /** A crash loses the object; if its image was removed already, the session is over as well. */
  lemma CrashForgets(w: World, sid: string, p: string, snap: string)
    requires Enabled(w, Crash) && Facts(w) && Remembered(w, sid, p, snap)
    ensures Gone(Apply(w, Crash), sid) || Forgotten(Apply(w, Crash), sid, snap)
  {
    hide Saved, TableOk, AfterOk, Holds;
    if snap !in w.images {
      StoppedIsStale(w, sid, p);
    }
  }

  lemma StoppedIsStale(w: World, sid: string, p: string)
    requires DescLink(w.descs, w.objs, w.table, w.containers, w.call) && LocalOk(w.objs, w.table, w.call)
    requires IssuedOk(w) && TeardownOk(w.descs, w.call) && Removing(w.call, sid, p) && p in w.objs
    ensures Stale(w.descs, w.containers, w.issued, sid)
  {
  }

  lemma ForgottenStays(w: World, a: Action, sid: string, snap: string)
    requires Enabled(w, a) && Facts(w) && Forgotten(w, sid, snap)
    ensures Gone(Apply(w, a), sid) || Forgotten(Apply(w, a), sid, snap)
  {
    assert w.issued <= NextIssued(w, a);
    ImageStep(w, a, snap);
    SnapStep(w, a, snap);
    if a.Reap? && !KeepsImage(w.descs, w.images[snap]) {
      UnkeptIsGone(w, sid, snap);
    }
    hide Enabled, Facts, KeepsImage, Gone, NextImages, NextObjs, NextIssued;
  }

  lemma UnkeptIsGone(w: World, sid: string, snap: string)
    requires Enabled(w, Reap) && Facts(w) && Forgotten(w, sid, snap) && !KeepsImage(w.descs, w.images[snap])
    ensures Gone(Apply(w, Reap), sid)
  {
    hide DescLink, LocalOk;
  }

  /** At the end of its session the image is gone if the object was remembered, and left if it was not. */
  lemma EndOf(w: World, a: Action, sid: string, p: string, snap: string, left: bool)
    requires Enabled(w, a) && Facts(w) && Ends(w, a, sid)
    requires if left then Forgotten(w, sid, snap) else Remembered(w, sid, p, snap)
    ensures Over(Apply(w, a), sid, snap, left)
  {
    hide Saved, DescLink, TableOk, Holds, AfterOk;
    assert w.objs[w.call.path].snaps == {};
    HeldAtEnd(w, sid, p, left);
  }

  lemma HeldAtEnd(w: World, sid: string, p: string, left: bool)
    requires LocalOk(w.objs, w.table, w.call) && w.call.Stopped? && w.call.sid == sid
    requires !left ==> Holds(w.table, w.call, sid, p)
    ensures sid !in w.table && (!left ==> w.call.path == p)
  {
  }

  lemma OverStays(w: World, a: Action, sid: string, snap: string, left: bool)
    requires Enabled(w, a) && AfterOk(w.call) && Over(w, sid, snap, left)
    ensures Over(Apply(w, a), sid, snap, left && !a.Reap?)
  {
    assert w.issued <= NextIssued(w, a);
    GoneStays(w, a, sid);
    ImageStep(w, a, snap);
    SnapStep(w, a, snap);
    hide AfterOk, Gone, NextObjs, NextIssued;
    assert a.Reap? && snap in w.images ==> !KeepsImage(w.descs, w.images[snap]);
    hide Enabled, KeepsImage;
  }

  // ----- Whole runs -----

  predicate Crashed(actions: seq<Action>, i: int, n: int) {
    exists k :: 0 <= i < k < n <= |actions| && actions[k] == Crash
  }

  predicate Reaped(actions: seq<Action>, j: int, n: int) {
    exists k :: 0 <= j < k < n <= |actions| && actions[k] == Reap
  }

  lemma CommitRemembers(w: World, sid: string, snap: string)
    requires Enabled(w, Commit(sid, snap)) && Inv(w)
    ensures Remembered(Apply(w, Commit(sid, snap)), sid, w.table[sid], snap)
  {
    hide LogsOk, WritersOk, ContainersOk, SnapshotsOk, LostOk, Disjoint, OwnersOk, ListedOk, DescsOk, DescLink, Saved;
    hide CallInv;
  }

  lemma {:induction false} Tracked(actions: seq<Action>, i: nat, n: nat, sid: string, p: string, snap: string)
    requires After(actions).Some? && i < n <= |actions|
    requires actions[i] == Commit(sid, snap) && After(actions[..i]).Some? && After(actions[..n]).Some?
    requires sid in After(actions[..i]).value.table && p == After(actions[..i]).value.table[sid]
    ensures var w := After(actions[..n]).value;
            Gone(w, sid) || if Crashed(actions, i, n) then Forgotten(w, sid, snap) else Remembered(w, sid, p, snap)
  {
    hide After, Inv, Enabled, Apply, Gone, Forgotten, Remembered, Facts;
    StepAt(actions, n - 1);
    var w, a := After(actions[..n - 1]).value, actions[n - 1];
    HasFacts(w);
    if n == i + 1 {
      CommitRemembers(w, sid, snap);
    } else {
      Tracked(actions, i, n - 1, sid, p, snap);
      assert Crashed(actions, i, n) <==> Crashed(actions, i, n - 1) || a == Crash;
      TrackedStep(w, a, sid, p, snap, Crashed(actions, i, n - 1));
    }
  }

  lemma TrackedStep(w: World, a: Action, sid: string, p: string, snap: string, crashed: bool)
    requires Enabled(w, a) && Facts(w)
    requires Gone(w, sid) || if crashed then Forgotten(w, sid, snap) else Remembered(w, sid, p, snap)
    ensures var w' := Apply(w, a);
            Gone(w', sid) || if crashed || a == Crash then Forgotten(w', sid, snap) else Remembered(w', sid, p, snap)
  {
    FactsAfterOk(w);
    hide Enabled, Facts, AfterOk, Apply, Gone, Forgotten, Remembered, Over;
    if Gone(w, sid) {
      GoneStays(w, a, sid);
    } else if crashed {
      ForgottenStays(w, a, sid, snap);
    } else if a == Crash {
      CrashForgets(w, sid, p, snap);
    } else if Ends(w, a, sid) {
      EndOf(w, a, sid, p, snap, false);
      OverIsGone(Apply(w, a), sid, snap, false);
    } else {
      RememberedStays(w, a, sid, p, snap);
    }
  }

  lemma FactsAfterOk(w: World)
    requires Facts(w)
    ensures AfterOk(w.call)
  {
  }

  lemma OverIsGone(w: World, sid: string, snap: string, left: bool)
    requires Over(w, sid, snap, left)
    ensures Gone(w, sid) && (snap in w.images <==> left)
  {
  }

  lemma {:induction false} OverTracked(actions: seq<Action>, j: nat, n: nat, sid: string, snap: string, left: bool)
    requires After(actions).Some? && j < n <= |actions| && After(actions[..j + 1]).Some? && After(actions[..n]).Some?
    requires Over(After(actions[..j + 1]).value, sid, snap, left)
    ensures Over(After(actions[..n]).value, sid, snap, left && !Reaped(actions, j, n))
  {
    hide After, Inv, Enabled, Apply, Over, Facts;
    if n > j + 1 {
      StepAt(actions, n - 1);
      var w, a := After(actions[..n - 1]).value, actions[n - 1];
      HasAfterOk(w);
      OverTracked(actions, j, n - 1, sid, snap, left);
      assert Reaped(actions, j, n) <==> Reaped(actions, j, n - 1) || a == Reap;
      OverStays(w, a, sid, snap, left && !Reaped(actions, j, n - 1));
    }
  }

  /**
   * A snapshot's image is still there after its session was finished or aborted if and only if the
   * server died between the fork and the end of the session, and nobody has run reap since the end.
   */
  lemma LeftoverImageIff(actions: seq<Action>, i: nat, j: nat, sid: string, snap: string)
    requires After(actions).Some? && i < j < |actions| && After(actions[..j]).Some?
    requires actions[i] == Commit(sid, snap) && Ends(After(actions[..j]).value, actions[j], sid)
    ensures snap in After(actions).value.images <==> Crashed(actions, i, j) && !Reaped(actions, j, |actions|)
  {
    hide After, Inv, Enabled, Apply, Gone, Forgotten, Remembered, Over, Facts, Ends;
    StepAt(actions, i);
    var p := TookFrom(After(actions[..i]).value, sid, snap);
    Tracked(actions, i, j, sid, p, snap);
    StepAt(actions, j);
    var w := After(actions[..j]).value;
    HasFacts(w);
    GoneDoesNotEnd(w, actions[j], sid);
    EndOf(w, actions[j], sid, p, snap, Crashed(actions, i, j));
    assert actions[..|actions|] == actions;
    OverTracked(actions, j, |actions|, sid, snap, Crashed(actions, i, j));
    OverIsGone(After(actions).value, sid, snap, Crashed(actions, i, j) && !Reaped(actions, j, |actions|));
  }

  lemma TookFrom(w: World, sid: string, snap: string) returns (p: string)
    requires Enabled(w, Commit(sid, snap))
    ensures sid in w.table && p == w.table[sid]
  {
    p := w.table[sid];
  }

  lemma GoneDoesNotEnd(w: World, a: Action, sid: string)
    requires Ends(w, a, sid)
    ensures !Gone(w, sid)
  {
  }

  /** A session in memory knows the snapshot if and only if the server has not died since it was taken. */
  lemma KnownIffNotCrashed(actions: seq<Action>, i: nat, sid: string, snap: string)
    requires After(actions).Some? && i < |actions| && actions[i] == Commit(sid, snap)
    requires sid in After(actions).value.table
    ensures var w := After(actions).value;
            w.table[sid] in w.objs &&
            (snap in w.objs[w.table[sid]].snaps <==> !Crashed(actions, i, |actions|))
  {
    hide After, Inv, Enabled, Apply, Gone, Forgotten, Remembered, Facts;
    StepAt(actions, i);
    var p := TookFrom(After(actions[..i]).value, sid, snap);
    assert actions[..|actions|] == actions;
    Tracked(actions, i, |actions|, sid, p, snap);
    var w := After(actions).value;
    ReachableInv(actions);
    HasFacts(w);
    KnownToObject(w, sid, p, snap, Crashed(actions, i, |actions|));
  }

  lemma KnownToObject(w: World, sid: string, p: string, snap: string, crashed: bool)
    requires Facts(w) && sid in w.table
    requires Gone(w, sid) || if crashed then Forgotten(w, sid, snap) else Remembered(w, sid, p, snap)
    ensures w.table[sid] in w.objs && (snap in w.objs[w.table[sid]].snaps <==> !crashed)
  {
    hide Saved, DescLink, IssuedOk, AfterOk, DownOk, TeardownOk;
  }

  // ----- It does happen -----

  /** Start a task, fork, lose the server, bring it back, finish. */
  function LeftoverRun(path: string, cid: string, sid: string, snap: string): seq<Action> {
    StartRun(path, cid, sid) + [Commit(sid, snap), LogFork, Crash] + ResumeRun(sid)
  }

  function StartRun(path: string, cid: string, sid: string): seq<Action> {
    [Boot, BootDone, OpenLog(path, false), CreateContainer(cid), Register(sid), WriteDescriptor]
  }

  function ResumeRun(sid: string): seq<Action> {
    [Boot, BootResume(sid), BootDone, Pop(sid), RemoveLast, Unlink]
  }

  predicate AllNew(path: string, cid: string, sid: string, snap: string) {
    && path != "" && cid != "" && sid != "" && snap != ""
    && path != cid && path != sid && path != snap && cid != sid && cid != snap && sid != snap
  }

  lemma OneMore(actions: seq<Action>, w: World, a: Action)
    requires After(actions) == Some(w) && Enabled(w, a)
    ensures After(actions + [a]) == Some(Apply(w, a))
  {
    Snoc(actions, a);
  }

  /** One session, just started: listed, saved, with an empty container. */
  predicate JustStarted(w: World, path: string, cid: string, sid: string, snap: string) {
    && w.call.Idle? && sid in w.table && w.table[sid] == path && path in w.objs && path in w.logs
    && w.objs[path] == Session(false, Some(cid), {}, 0, 0) && w.logs[path] == []
    && cid in w.containers && w.descs == map[sid := Desc(path, false, cid)]
    && snap !in w.issued && snap != ""
  }

  lemma StartRuns(path: string, cid: string, sid: string, snap: string) returns (w: World)
    requires AllNew(path, cid, sid, snap)
    ensures After(StartRun(path, cid, sid)) == Some(w) && JustStarted(w, path, cid, sid, snap)
  {
    hide Enabled, Apply, After;
    var run: seq<Action> := [];
    assert After(run) == Some(INIT) by { EmptyRun(); }
    BootStep(INIT);
    OneMore(run, INIT, Boot);
    var w1 := Apply(INIT, Boot);
    assert w1.call.todo == {};
    BootDoneStep(w1);
    OneMore(run + [Boot], w1, BootDone);
    var w2 := Apply(w1, BootDone);
    OpenLogStep(w2, path, false);
    OneMore(run + [Boot] + [BootDone], w2, OpenLog(path, false));
    var w3 := Apply(w2, OpenLog(path, false));
    CreateStep(w3, cid);
    OneMore(run + [Boot] + [BootDone] + [OpenLog(path, false)], w3, CreateContainer(cid));
    var w4 := Apply(w3, CreateContainer(cid));
    RegisterStep(w4, sid);
    OneMore(run + [Boot] + [BootDone] + [OpenLog(path, false)] + [CreateContainer(cid)], w4, Register(sid));
    var w5 := Apply(w4, Register(sid));
    SaveStep(w5);
    run := run + [Boot] + [BootDone] + [OpenLog(path, false)] + [CreateContainer(cid)] + [Register(sid)];
    OneMore(run, w5, WriteDescriptor);
    assert run + [WriteDescriptor] == StartRun(path, cid, sid);
    w := Apply(w5, WriteDescriptor);
  }

  lemma EmptyRun()
    ensures After([]) == Some(INIT)
  {
  }

  /** One session, started and forked once. */
  predicate JustForked(w: World, path: string, cid: string, sid: string, snap: string) {
    && w.call.Idle? && sid in w.table && w.table[sid] == path && path in w.objs && path in w.logs
    && w.objs[path].cont == Some(cid) && snap in w.objs[path].snaps && !w.objs[path].restricted
    && cid in w.containers && w.descs == map[sid := Desc(path, false, cid)]
    && snap in w.images && w.images[snap].owner == sid
  }

  lemma Forks(run: seq<Action>, w: World, path: string, cid: string, sid: string, snap: string) returns (w': World)
    requires After(run) == Some(w) && JustStarted(w, path, cid, sid, snap)
    ensures After(run + [Commit(sid, snap), LogFork]) == Some(w') && JustForked(w', path, cid, sid, snap)
  {
    hide Enabled, Apply, After;
    CommitStep(w, sid, snap);
    OneMore(run, w, Commit(sid, snap));
    var w1 := Apply(w, Commit(sid, snap));
    LogForkStep(w1);
    OneMore(run + [Commit(sid, snap)], w1, LogFork);
    w' := Apply(w1, LogFork);
    assert run + [Commit(sid, snap)] + [LogFork] == run + [Commit(sid, snap), LogFork];
  }

  /** The server is down; the session's file, log and container are there, and an image of it. */
  predicate DownAfterFork(w: World, path: string, cid: string, sid: string, snap: string) {
    && w.call.Down? && w.objs == map[] && w.table == map[] && path in w.logs && cid in w.containers
    && w.descs == map[sid := Desc(path, false, cid)] && snap in w.images && w.images[snap].owner == sid
  }

  lemma ForkAndCrash(run: seq<Action>, w: World, path: string, cid: string, sid: string, snap: string)
    returns (w': World)
    requires After(run) == Some(w) && JustStarted(w, path, cid, sid, snap)
    ensures After(run + [Commit(sid, snap), LogFork, Crash]) == Some(w') && DownAfterFork(w', path, cid, sid, snap)
  {
    hide Enabled, Apply, After;
    var w1 := Forks(run, w, path, cid, sid, snap);
    CrashStep(w1);
    OneMore(run + [Commit(sid, snap), LogFork], w1, Crash);
    w' := Apply(w1, Crash);
    assert run + [Commit(sid, snap), LogFork] + [Crash] == run + [Commit(sid, snap), LogFork, Crash];
  }

  lemma Resumes(run: seq<Action>, w: World, path: string, cid: string, sid: string, snap: string) returns (w': World)
    requires After(run) == Some(w) && DownAfterFork(w, path, cid, sid, snap)
    ensures After(run + [Boot, BootResume(sid), BootDone]) == Some(w')
    ensures w' == w.(call := Idle, objs := w'.objs, table := map[sid := path])
    ensures w'.objs.Keys == {path} && w'.objs[path].snaps == {}
  {
    hide Enabled, Apply, After, RecoverNext, CountAgent;
    BootStep(w);
    OneMore(run, w, Boot);
    var w1 := Apply(w, Boot);
    BootResumeStep(w1, sid);
    OneMore(run + [Boot], w1, BootResume(sid));
    var w2 := Apply(w1, BootResume(sid));
    assert w2.call.todo == {};
    BootDoneStep(w2);
    OneMore(run + [Boot] + [BootResume(sid)], w2, BootDone);
    w' := Apply(w2, BootDone);
    assert run + [Boot] + [BootResume(sid)] + [BootDone] == run + [Boot, BootResume(sid), BootDone];
  }

  lemma Finishes(run: seq<Action>, w: World, path: string, sid: string) returns (w': World)
    requires After(run) == Some(w) && w.call.Idle? && w.table == map[sid := path] && sid in w.descs
    requires w.objs.Keys == {path} && w.objs[path].snaps == {}
    ensures After(run + [Pop(sid), RemoveLast, Unlink]) == Some(w')
    ensures w'.images == w.images && sid !in w'.descs && w'.table == map[] && w'.objs == map[]
  {
    hide Enabled, Apply, After;
    PopStep(w, sid);
    OneMore(run, w, Pop(sid));
    var w1 := Apply(w, Pop(sid));
    RemoveLastStep(w1);
    OneMore(run + [Pop(sid)], w1, RemoveLast);
    var w2 := Apply(w1, RemoveLast);
    UnlinkStep(w2);
    OneMore(run + [Pop(sid)] + [RemoveLast], w2, Unlink);
    w' := Apply(w2, Unlink);
    assert run + [Pop(sid)] + [RemoveLast] + [Unlink] == run + [Pop(sid), RemoveLast, Unlink];
  }

  /** The session is finished, its file gone, and its image still there, labelled with its id. */
  lemma LeftoverHappens(path: string, cid: string, sid: string, snap: string)
    requires AllNew(path, cid, sid, snap)
    ensures After(LeftoverRun(path, cid, sid, snap)).Some?
    ensures var w := After(LeftoverRun(path, cid, sid, snap)).value;
            snap in w.images && w.images[snap].owner == sid && sid !in w.descs && w.table == map[] && w.objs == map[]
  {
    hide Enabled, Apply, After;
    var run := StartRun(path, cid, sid);
    var w := StartRuns(path, cid, sid, snap);
    w := ForkAndCrash(run, w, path, cid, sid, snap);
    run := run + [Commit(sid, snap), LogFork, Crash];
    w := Resumes(run, w, path, cid, sid, snap);
    run := run + [Boot, BootResume(sid), BootDone];
    w := Finishes(run, w, path, sid);
    assert run + [Pop(sid), RemoveLast, Unlink] == LeftoverRun(path, cid, sid, snap);
  }
}
