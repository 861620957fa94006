/**
 * The MCP server's tools over one host. Each tool is written as the effects it
 * has, in order, on Docker, on disk and in memory; proxy threads write egress
 * events between any two of them. The ghost field `past` records the effects
 * as steps of the protocol, so all that is proved of reachable worlds holds
 * before and after every effect of every tool.
 */
module Server {
  import opened Events
  import opened Branch
  import opened Protocol
  import opened Invariant
  import opened Results
  import opened Numerals
  import opened Sessions
  import opened Effects
  import Overflow

  /** A tool's answer: a value, an unknown session, or an error from Docker. */
  datatype Reply<+T> = Done(value: T) | UnknownSession | Failed

  /** How an exec ends: with an exit code, or with an API error that may come too late. */
  datatype Outcome = Exited(code: int, stdout: string, stderr: string, durationMs: nat) | ApiError(applied: bool)

  /** A command's whole result, before its output is capped. */
  function ResultData(cmd: string, o: Outcome): Data
    requires o.Exited?
  {
    CommandData(cmd, o.code, o.stdout, o.stderr, o.durationMs)
  }

  /** What finish_task answers. */
  datatype Report = Report(status: string, reason: Reason, path: string, containerId: Option<string>)

  /** The overflow store never changes or loses what it holds. */
  ghost predicate Grown(files: Overflow.Files, after: Overflow.Files) {
    forall h :: h in files ==> h in after && after[h] == files[h]
  }

  lemma SpillGrows(files: Overflow.Files, data: Data, maxBytes: nat, sha: Overflow.Hash)
    ensures Grown(files, Overflow.SpillAll(files, data, maxBytes, sha))
  {
  }

  /** A fork marker names the snapshot and the container it was taken of. */
  predicate MarksFork(d: Data, snap: string, cid: string) {
    TextField(d, "snapshot_id") == snap && "container_id" in d && d["container_id"] == Text(cid)
  }

  /** A revert marker names the snapshot, the container that went, if there was one, and the one that came. */
  predicate MarksRevert(d: Data, snap: string, previous: Option<string>, cid: string) {
    && TextField(d, "snapshot_id") == snap
    && "previous_container_id" in d
    && (match previous case Some(c) => d["previous_container_id"] == Text(c)
                       case None => d["previous_container_id"] == Null)
    && "new_container_id" in d && d["new_container_id"] == Text(cid)
  }

  lemma MarkersSay(snap: string, previous: Option<string>, cid: string)
    ensures MarksFork(ForkData(snap, cid), snap, cid)
    ensures MarksRevert(RevertData(snap, previous, cid), snap, previous, cid)
  {
  }

  // --- What a log tells, egress erased

  lemma StoryEmpty()
    ensures Story([]) == []
  {
  }

  /** Egress aside, the log at `path` gained `entries`, and no other log changed. */
  ghost predicate Told(l0: Logs, l1: Logs, path: string, entries: seq<(EventType, Data)>) {
    && l0.Keys == l1.Keys
    && (path in l0 ==> Story(l1[path]) == Story(l0[path]) + entries)
    && (forall p :: p in l0 && p != path ==> Story(l1[p]) == Story(l0[p]))
  }

  /** The same session objects, but for the numbers of the next events. */
  ghost predicate SameObjs(o0: Objs, o1: Objs) {
    o0.Keys == o1.Keys && forall p :: p in o0 ==> o1[p] == o0[p].(seqNo := o1[p].seqNo)
  }

  /** What proxy turns leave of one session. */
  lemma TurnAt(l0: Logs, l1: Logs, o0: Objs, o1: Objs, path: string)
    requires Told(l0, l1, "", []) && SameObjs(o0, o1)
    ensures l0.Keys == l1.Keys && o0.Keys == o1.Keys
    ensures path in l0 ==> Story(l1[path]) == Story(l0[path])
    ensures path in o0 ==> o1[path] == o0[path].(seqNo := o1[path].seqNo)
  {
  }

  lemma SameAt(o0: Objs, o1: Objs, path: string)
    requires SameObjs(o0, o1) && path in o0
    ensures path in o1 && o1[path] == o0[path].(seqNo := o1[path].seqNo)
  {
  }

  lemma SameSelf(o: Objs, path: string)
    requires path in o
    ensures SameObjs(o[path := o[path].(count := o[path].count)], o)
  {
    assert o[path := o[path].(count := o[path].count)] == o;
  }

  lemma SameWrote(o0: Objs, o1: Objs, path: string, kind: EventType)
    requires SameObjs(o0, o1) && path in o0
    ensures path in o1
    ensures var count := o1[path].count + if kind == AgentCommand then 1 else 0;
            SameObjs(o0[path := o0[path].(count := count)], o1[path := Wrote(o1[path], kind)])
  {
  }

  lemma ToldThen(l0: Logs, l1: Logs, l2: Logs, path: string, first: seq<(EventType, Data)>,
                 more: seq<(EventType, Data)>)
    requires Told(l0, l1, path, first) && Told(l1, l2, path, more)
    ensures Told(l0, l2, path, first + more)
  {
  }

  lemma ToldAt(l0: Logs, l1: Logs, path: string, entries: seq<(EventType, Data)>)
    requires Told(l0, l1, path, entries) && path in l0
    ensures path in l1 && Story(l1[path]) == Story(l0[path]) + entries
  {
  }

  lemma ToldKeys(l0: Logs, l1: Logs, path: string, entries: seq<(EventType, Data)>)
    requires Told(l0, l1, path, entries)
    ensures l0.Keys == l1.Keys
  {
  }

  lemma ToldNone(l: Logs, path: string)
    ensures Told(l, l, path, [])
  {
  }

  lemma ToldNothing(l0: Logs, l1: Logs, path: string)
    requires Told(l0, l1, "", [])
    ensures Told(l0, l1, path, [])
  {
  }

  /** One more line in one log. */
  lemma ToldOne(l: Logs, path: string, e: Event)
    requires path in l
    ensures Told(l, l[path := l[path] + [e]], path, if e.kind == EgressAttempt then [] else [(e.kind, e.data)])
  {
    StorySnoc(l[path], e);
    hide Story;
  }

  lemma SameButWritten(o: Objs, path: string, kind: EventType)
    requires path in o && kind != AgentCommand
    ensures SameObjs(o, o[path := Wrote(o[path], kind)])
  {
  }

  /** The events numbered `n` or more. */
  function Since(events: seq<Event>, n: nat): seq<Event> {
    if events == [] then []
    else
      var rest := Since(events[..|events| - 1], n);
      var e := events[|events| - 1];
      if e.seqNo >= n then rest + [e] else rest
  }

  lemma {:induction false} SinceZero(events: seq<Event>)
    ensures Since(events, 0) == events
  {
    if events != [] {
      SinceZero(events[..|events| - 1]);
    }
  }

  lemma {:induction false} SinceMembers(events: seq<Event>, n: nat)
    requires Increasing(events)
    ensures Increasing(Since(events, n))
    ensures forall e :: e in Since(events, n) <==> e in events && e.seqNo >= n
  {
    if events != [] {
      var init, e := events[..|events| - 1], events[|events| - 1];
      SinceMembers(init, n);
      assert events == init + [e];
      IncreasingSnoc(init, Since(init, n), e);
    }
  }

  /** Of a stretch of numbered events, those from `n` on are a stretch again. */
  lemma {:induction false} SinceStretch(log: seq<Event>, lo: nat, hi: nat, n: nat)
    requires lo <= hi <= |log| && forall i :: 0 <= i < |log| ==> log[i].seqNo == i
    ensures Since(log[lo..hi], n) == if n <= lo then log[lo..hi] else if n <= hi then log[n..hi] else []
  {
    if lo < hi {
      SinceStretch(log, lo, hi - 1, n);
      assert log[lo..hi] == log[lo..hi - 1] + [log[hi - 1]];
      Snoc(log[lo..hi - 1], log[hi - 1]);
      assert lo <= n < hi ==> log[n..hi] == log[n..hi - 1] + [log[hi - 1]];
    }
  }

  /** What a reader gets: of the branch asked for, the events from number `n` on. */
  ghost predicate Reads(log: seq<Event>, branch: string, n: nat, events: seq<Event>) {
    if branch == "current" then
      Increasing(events) && forall e :: e in events <==> e in log && e.seqNo >= n && !RolledBack(log, e.seqNo)
    else
      exists lo, hi :: Covers(log, branch, lo, hi) && 0 <= lo <= hi <= |log| &&
        events == if n <= lo then log[lo..hi] else if n <= hi then log[n..hi] else []
  }

  lemma ReadsView(log: seq<Event>, branch: string, n: nat)
    requires Legal(log)
    ensures Reads(log, branch, n, Since(View(log, branch), n))
  {
    hide Covers, Increasing, RolledBack, Legal, View;
    Branch.Numbered(log);
    if branch == "current" {
      CurrentIsNotRolledBack(log);
      SinceMembers(View(log, branch), n);
    } else {
      var lo, hi := EveryBranchCovers(log, branch);
      ViewIsSlice(log, branch, lo, hi);
      SinceStretch(log, lo, hi, n);
    }
  }

  lemma LogIsLegal(w: World, path: string)
    requires Reachable(w) && path in w.objs
    ensures path in w.logs && Legal(w.logs[path])
  {
    SessionsMatchTheirLogs(w, path);
  }

  lemma CurrentIsView(log: seq<Event>)
    ensures View(log, "current") == Current(log)
  {
  }

  lemma IsReachable(past: seq<Action>, w: World)
    requires After(past) == Some(w)
    ensures Reachable(w)
  {
  }

  function FailedCommands(verify: seq<string>, outcomes: seq<Outcome>): seq<string>
    requires |outcomes| == |verify| && forall i :: 0 <= i < |outcomes| ==> outcomes[i].Exited?
  {
    if verify == [] then []
    else
      var n := |verify| - 1;
      FailedCommands(verify[..n], outcomes[..n]) + if outcomes[n].code != 0 then [verify[n]] else []
  }

  /** The failed commands are those that exited nonzero, in order. */
  lemma {:induction false} FailedAre(verify: seq<string>, outcomes: seq<Outcome>) returns (at: seq<nat>)
    requires |outcomes| == |verify| && forall i :: 0 <= i < |outcomes| ==> outcomes[i].Exited?
    ensures forall i :: i in at <==> 0 <= i < |verify| && outcomes[i].code != 0
    ensures forall j, k :: 0 <= j < k < |at| ==> at[j] < at[k]
    ensures |FailedCommands(verify, outcomes)| == |at|
    ensures forall k :: 0 <= k < |at| ==> at[k] < |verify| && FailedCommands(verify, outcomes)[k] == verify[at[k]]
  {
    at := [];
    if verify != [] {
      var n := |verify| - 1;
      at := FailedAre(verify[..n], outcomes[..n]);
      if outcomes[n].code != 0 {
        ghost var before := at;
        at := at + [n];
        assert forall i :: i in at <==> i in before || i == n;
        forall j | 0 <= j < |before| ensures before[j] < n { assert before[j] in before; }
      }
    }
  }

  lemma NoneFailed(verify: seq<string>, outcomes: seq<Outcome>)
    requires |outcomes| == |verify| && forall i :: 0 <= i < |outcomes| ==> outcomes[i].Exited?
    ensures FailedCommands(verify, outcomes) == [] <==> forall i :: 0 <= i < |outcomes| ==> outcomes[i].code == 0
  {
    var at := FailedAre(verify, outcomes);
    if at != [] {
      assert at[0] in at;
    }
  }

  lemma FailedSnoc(cmds: seq<string>, outcomes: seq<Outcome>, i: nat)
    requires |outcomes| == |cmds| && i < |cmds| && forall j :: 0 <= j <= i ==> outcomes[j].Exited?
    ensures FailedCommands(cmds[..i + 1], outcomes[..i + 1]) ==
            FailedCommands(cmds[..i], outcomes[..i]) + if outcomes[i].code != 0 then [cmds[i]] else []
  {
    assert cmds[..i + 1][..i] == cmds[..i] && outcomes[..i + 1][..i] == outcomes[..i];
  }

  lemma SameKeys(o0: Objs, o1: Objs)
    requires SameObjs(o0, o1)
    ensures o0.Keys == o1.Keys
  {
  }

  // --- What the tools rely on of any reachable world

  ghost predicate Grounded(w: World) {
    && (forall p :: p in w.objs ==> p in w.logs)
    && (forall p :: p in w.objs && w.objs[p].cont.Some? ==> w.objs[p].cont.value in w.containers)
    && (forall sid :: sid in w.table ==> w.table[sid] in w.objs)
    && (!w.call.Forking? ==> forall p, s :: p in w.objs && s in w.objs[p].snaps ==> s in w.images)
    && (forall p :: p in w.objs ==> w.objs[p].count == CountAgent(w.logs[p]))
  }

  lemma GroundedParts(w: World)
    requires WritersOk(w.objs, w.logs) && ContainersOk(w.objs, w.logs, w.containers, w.call)
    requires SnapshotsOk(w.objs, w.logs, w.images, w.call) && TableOk(w.table, w.objs)
    ensures Grounded(w)
  {
    hide LineHeld, SavedHeld, CountAgent;
  }

  lemma AlwaysGrounded(past: seq<Action>, w: World)
    requires After(past) == Some(w)
    ensures Grounded(w)
  {
    hide After, LogsOk, WritersOk, ContainersOk, SnapshotsOk, LostOk, OwnerInv, CallInv, Grounded;
    ReachableInv(past);
    OwnersList(w);
    GroundedParts(w);
  }

  lemma OwnersList(w: World)
    requires OwnerInv(w)
    ensures TableOk(w.table, w.objs)
  {
  }

  ghost predicate Bootable(w: World) {
    && (forall sid :: sid in w.descs && w.descs[sid].Desc? ==> w.descs[sid].path in w.logs)
    && (forall a, b :: a in w.descs && b in w.descs && w.descs[a].Desc? && w.descs[b].Desc? && a != b ==>
          w.descs[a].path != w.descs[b].path)
    && (w.call.Down? ==> w.objs == map[] && w.table == map[])
  }

  lemma BootableParts(w: World)
    requires DescsOk(w.descs, w.logs, w.containers) && DownOk(w.objs, w.table, w.call)
    ensures Bootable(w)
  {
    hide LineHeld;
  }

  lemma AlwaysBootable(past: seq<Action>, w: World)
    requires After(past) == Some(w)
    ensures Bootable(w)
  {
    hide After, ContentInv, Disjoint, TableOk, OwnersOk, ListedOk, DescsOk, DescLink, Saved, IssuedOk, HeldIssued;
    hide DownOk, BootOk, LocalOk, StartOk, AfterOk, RunOk, SessionOk, ForkOk, RevertOk, SwapOk, Bootable;
    ReachableInv(past);
    BootableParts(w);
  }

  /** A session as a restart rebuilds it from its file and its log. */
  function Resumed(d: Descriptor, log: seq<Event>): Session
    requires d.Desc?
  {
    Session(false, Some(d.cid), {}, RecoverNext(log), CountAgent(log))
  }

  /** The sessions a restart can bring back: readable, unrestricted, container still there. */
  predicate CanResume(descs: map<string, Descriptor>, containers: map<string, Container>, sid: string) {
    sid in descs && descs[sid].Desc? && !descs[sid].restricted && descs[sid].cid in containers
  }

  /** The session listed as `sid` is as its file and its log say. */
  ghost predicate Back(files: map<string, Descriptor>, logs: Logs, objs: Objs, table: map<string, string>,
                       sid: string) {
    sid in table && sid in files && files[sid].Desc? && table[sid] == files[sid].path && table[sid] in logs &&
    table[sid] in objs && objs[table[sid]] == Resumed(files[sid], logs[table[sid]])
  }

  lemma BackInFull(files: map<string, Descriptor>, logs: Logs, objs: Objs, table: map<string, string>, sid: string)
    requires Back(files, logs, objs, table, sid)
    ensures sid in table && sid in files && files[sid].Desc?
    ensures var p := table[sid];
      p == files[sid].path && p in logs && p in objs &&
      objs[p] == Session(false, Some(files[sid].cid), {}, objs[p].seqNo, CountAgent(logs[p]))
  {
  }

  /** A restart has dealt with every one of `files` but those still `todo`. */
  ghost predicate Booted(files: map<string, Descriptor>, containers: map<string, Container>, refused: set<string>,
                         logs: Logs, todo: set<string>, descs: map<string, Descriptor>, objs: Objs,
                         table: map<string, string>)
  {
    && (forall sid :: sid in table <==> CanResume(files, containers, sid) && sid !in refused && sid !in todo)
    && todo <= files.Keys && (forall sid :: sid in descs <==> sid in todo || sid in table)
    && (forall sid :: sid in descs ==> sid in files && descs[sid] == files[sid])
    && (forall sid :: sid in table ==> Back(files, logs, objs, table, sid))
  }

  lemma BootedNone(files: map<string, Descriptor>, containers: map<string, Container>, refused: set<string>, logs: Logs)
    ensures Booted(files, containers, refused, logs, files.Keys, files, map[], map[])
  {
  }

  lemma BootedFile(files: map<string, Descriptor>, containers: map<string, Container>, refused: set<string>,
                   logs: Logs, todo: set<string>, descs: map<string, Descriptor>, objs: Objs,
                   table: map<string, string>, sid: string)
    requires Booted(files, containers, refused, logs, todo, descs, objs, table) && sid in todo
    ensures sid in descs && sid in files && descs[sid] == files[sid]
    ensures CanResume(descs, containers, sid) ==> files[sid].Desc?
  {
  }

  lemma BootedDrop(files: map<string, Descriptor>, containers: map<string, Container>, refused: set<string>,
                   logs: Logs, todo: set<string>, descs: map<string, Descriptor>, objs: Objs,
                   table: map<string, string>, sid: string)
    requires Booted(files, containers, refused, logs, todo, descs, objs, table) && sid in todo
    requires !CanResume(descs, containers, sid) || sid in refused
    ensures Booted(files, containers, refused, logs, todo - {sid}, descs - {sid}, objs, table)
  {
  }

  lemma BootedResume(files: map<string, Descriptor>, containers: map<string, Container>, refused: set<string>,
                     logs: Logs, todo: set<string>, descs: map<string, Descriptor>, objs: Objs,
                     table: map<string, string>, sid: string)
    requires Booted(files, containers, refused, logs, todo, descs, objs, table) && sid in todo
    requires CanResume(descs, containers, sid) && sid !in refused && files[sid].path in logs
    requires forall other :: other in files && files[other].Desc? && other != sid ==>
        files[other].path != files[sid].path
    ensures var path := files[sid].path;
            Booted(files, containers, refused, logs, todo - {sid}, descs,
                   objs[path := Resumed(files[sid], logs[path])], table[sid := path])
  {
  }

  lemma BootedAll(files: map<string, Descriptor>, containers: map<string, Container>, refused: set<string>,
                  logs: Logs, descs: map<string, Descriptor>, objs: Objs, table: map<string, string>)
    requires Booted(files, containers, refused, logs, {}, descs, objs, table)
    ensures descs == map sid | sid in files && sid in table :: files[sid]
    ensures forall sid :: sid in table <==> CanResume(files, containers, sid) && sid !in refused
    ensures forall sid :: sid in table ==> Back(files, logs, objs, table, sid)
  {
  }

  class Host {
    const maxBytes: nat
    const sha: Overflow.Hash
    var overflow: Overflow.Files
    var containers: map<string, Container>
    var images: map<string, Image>
    var logs: map<string, seq<Event>>
    var descs: map<string, Descriptor>
    var objs: map<string, Session>
    var table: map<string, string>
    ghost var call: Call
    ghost var issued: set<string>
    ghost var interrupted: nat
    ghost var past: seq<Action>

    ghost function Now(): World
      reads `containers, `images, `logs, `descs, `objs, `table, `call, `issued, `interrupted
    {
      World(containers, images, logs, descs, objs, table, call, issued, interrupted)
    }

    /** The host is in the world that its past leads to. */
    ghost predicate Valid()
      reads `containers, `images, `logs, `descs, `objs, `table, `call, `issued, `interrupted, `past
    {
      After(past) == Some(Now())
    }

    constructor (maxBytes: nat, sha: Overflow.Hash)
      ensures Valid() && call.Down? && overflow == map[]
      ensures this.maxBytes == maxBytes && this.sha == sha
    {
      this.maxBytes, this.sha, overflow := maxBytes, sha, map[];
      containers, images, logs, descs, objs, table := map[], map[], map[], map[], map[], map[];
      call, issued, interrupted, past := Down, {}, 0, [];
    }

    /** The effect just had is the step `a`. */
    ghost method Took(a: Action, before: World)
      requires After(past) == Some(before) && Enabled(before, a) && Now() == Apply(before, a)
      modifies `past
      ensures Valid() && past == old(past) + [a]
    {
      Snoc(past, a);
      past := past + [a];
    }

    // --- what is logged of a command

    /** The result as it is logged and returned: output over the cap is cut. */
    function Recorded(cmd: string, o: Outcome): Data
      requires o.Exited?
    {
      Overflow.Capped(ResultData(cmd, o), maxBytes, sha)
    }

    /** The record tells the command, its exit code and its time, and holds each stream, capped, in its own field. */
    ghost predicate Reports(d: Data, cmd: string, o: Outcome)
      requires o.Exited?
    {
      && "cmd" in d && d["cmd"] == Text(cmd)
      && "exit_code" in d && d["exit_code"] == Num(o.code)
      && "duration_ms" in d && d["duration_ms"] == Num(o.durationMs)
      && Overflow.StreamOf(d, "stdout", o.stdout, maxBytes, sha)
      && Overflow.StreamOf(d, "stderr", o.stderr, maxBytes, sha)
    }

    lemma RecordedReports(cmd: string, o: Outcome)
      requires o.Exited?
      ensures Reports(Recorded(cmd, o), cmd, o)
    {
      hide Overflow.StreamOf, Overflow.Capped, Overflow.IsMark;
      ResultReports(cmd, o.code, o.stdout, o.stderr, o.durationMs);
      var data := ResultData(cmd, o);
      hide CommandData, ResultData;
      Overflow.CappedStream(data, "stdout", maxBytes, sha);
      Overflow.CappedStream(data, "stderr", maxBytes, sha);
      Overflow.ShortKeysAreNoMarks("cmd");
      Overflow.ShortKeysAreNoMarks("exit_code");
      Overflow.ShortKeysAreNoMarks("duration_ms");
      Overflow.OthersAfterCapping(data, maxBytes, sha, "cmd");
      Overflow.OthersAfterCapping(data, maxBytes, sha, "exit_code");
      Overflow.OthersAfterCapping(data, maxBytes, sha, "duration_ms");
    }

    /** The log entries of commands that all exited. */
    function Entries(kind: EventType, cmds: seq<string>, outcomes: seq<Outcome>): seq<(EventType, Data)>
      requires |outcomes| == |cmds| && forall i :: 0 <= i < |outcomes| ==> outcomes[i].Exited?
    {
      if cmds == [] then []
      else
        var n := |cmds| - 1;
        Entries(kind, cmds[..n], outcomes[..n]) + [(kind, Recorded(cmds[n], outcomes[n]))]
    }

    /** One entry for each command, in order, of the kind asked for and telling what the command did. */
    lemma {:induction false} EntriesReport(kind: EventType, cmds: seq<string>, outcomes: seq<Outcome>)
      requires |outcomes| == |cmds| && forall i :: 0 <= i < |outcomes| ==> outcomes[i].Exited?
      ensures |Entries(kind, cmds, outcomes)| == |cmds|
      ensures forall i :: 0 <= i < |cmds| ==>
        Entries(kind, cmds, outcomes)[i].0 == kind && Reports(Entries(kind, cmds, outcomes)[i].1, cmds[i], outcomes[i])
    {
      hide Reports, Recorded;
      if cmds != [] {
        var n := |cmds| - 1;
        EntriesReport(kind, cmds[..n], outcomes[..n]);
        RecordedReports(cmds[n], outcomes[n]);
      }
    }

    lemma NoEntries(kind: EventType)
      ensures FailedCommands([], []) == [] && Entries(kind, [], []) == []
    {
    }

    lemma EntriesSnoc(kind: EventType, cmds: seq<string>, outcomes: seq<Outcome>, i: nat)
      requires |outcomes| == |cmds| && i < |cmds| && forall j :: 0 <= j <= i ==> outcomes[j].Exited?
      ensures FailedCommands(cmds[..i + 1], outcomes[..i + 1]) ==
              FailedCommands(cmds[..i], outcomes[..i]) + if outcomes[i].code != 0 then [cmds[i]] else []
      ensures Entries(kind, cmds[..i + 1], outcomes[..i + 1]) ==
              Entries(kind, cmds[..i], outcomes[..i]) + [(kind, Recorded(cmds[i], outcomes[i]))]
    {
      FailedSnoc(cmds, outcomes, i);
      assert cmds[..i + 1][..i] == cmds[..i] && outcomes[..i + 1][..i] == outcomes[..i];
      hide Recorded, FailedCommands;
    }

    // --- proxy threads and log lines

    /** Proxy threads write any number of egress events, to any restricted sessions. */
    method ProxyTurn()
      requires Valid()
      modifies `logs, `objs, `past
      ensures Valid() && old(past) <= past
      ensures Told(old(logs), logs, "", []) && SameObjs(old(objs), objs)
    {
      hide Valid, Story;
      var burst: seq<(string, Data)> := *;
      for i := 0 to |burst|
        invariant Valid() && old(past) <= past
        invariant Told(old(logs), logs, "", []) && SameObjs(old(objs), objs)
      {
        var (path, data) := burst[i];
        if path in objs && path in logs && objs[path].restricted {
          WriteEvent(path, EgressAttempt, data);
        }
      }
    }

    /** TrajectoryWriter.write, for events other than commands and markers. */
    method WriteEvent(path: string, kind: EventType, data: Data)
      requires Valid() && path in objs && path in logs
      requires (kind == EgressAttempt && objs[path].restricted) ||
               (kind in {RunStarted, AgentThought, RunFinished} && Active(objs, table, call, path))
      modifies `logs, `objs, `past
      ensures Valid() && past == old(past) + [Write(path, kind, data)]
      ensures Told(old(logs), logs, path, if kind == EgressAttempt then [] else [(kind, data)])
      ensures SameObjs(old(objs), objs)
    {
      hide After, Enabled, Apply, Story, Told, SameObjs;
      ghost var before := Now();
      var o := objs[path];
      var e := Event(o.seqNo, kind, data);
      ToldOne(logs, path, e);
      SameButWritten(objs, path, kind);
      WriteStep(before, path, kind, data);
      logs := logs[path := logs[path] + [e]];
      objs := objs[path := Wrote(o, kind)];
      Took(Write(path, kind, data), before);
    }

    // --- one command

    /** The sandbox at `path` is bound to a running container. */
    predicate CanExec(path: string)
      reads `containers, `objs
    {
      path in objs && objs[path].cont.Some? && objs[path].cont.value in containers &&
      containers[objs[path].cont.value].running
    }

    /** The first half of an exec: the container runs the command. */
    method Start(path: string, cmd: string, cid: string)
      requires Valid() && Active(objs, table, call, path) && objs[path].cont == Some(cid)
      requires cid in containers && containers[cid].running
      modifies `containers, `call, `past
      ensures Valid() && past == old(past) + [Run(path, cmd)] && call == Running(path, cmd, old(call))
      ensures containers == old(containers)[cid := Container(old(containers)[cid].hist + [Ran(cmd, None)], true)]
    {
      hide After, Enabled, Apply;
      ghost var before := Now();
      var c := containers[cid];
      RunStep(before, path, cmd, cid);
      containers := containers[cid := c.(hist := c.hist + [Ran(cmd, None)])];
      call := Running(path, cmd, call);
      Took(Run(path, cmd), before);
    }

    /** The second half: its line in the log. */
    method Record(path: string, cmd: string, kind: EventType, data: Data, ghost hist: seq<Ran>)
      requires Valid() && call.Running? && call.path == path && call.cmd == cmd && path in objs && path in logs
      requires objs[path].cont.Some?
      requires kind == RunKind(call.after) && objs[path].cont.value in containers
      requires containers[objs[path].cont.value].hist == hist + [Ran(cmd, None)]
      modifies `containers, `logs, `objs, `call, `past
      ensures Valid() && past == old(past) + [LogRun(data)] && call == old(call).after
      ensures path in logs && path in objs && logs[path] != [] && Last(logs[path]).data == data
      ensures Told(old(logs), logs, path, [(kind, data)])
      ensures objs == old(objs)[path := Wrote(old(objs)[path], kind)]
      ensures var cid := old(objs)[path].cont.value;
        containers == old(containers)[cid := old(containers)[cid].(
          hist := hist + [Ran(cmd, Some(Last(logs[path])))])]
    {
      hide After, Enabled, Apply, Story, Told;
      ghost var before := Now();
      var o := objs[path];
      var e := Event(o.seqNo, kind, data);
      ToldOne(logs, path, e);
      LogRunStep(before, hist, data);
      logs := logs[path := logs[path] + [e]];
      objs := objs[path := Wrote(o, kind)];
      var cid := o.cont.value;
      var c := containers[cid];
      Snoc(hist, Ran(cmd, None));
      containers := containers[cid := c.(hist := c.hist[..|c.hist| - 1] + [Ran(cmd, Some(e))])];
      call := call.after;
      Took(LogRun(data), before);
    }

    /** An exec that ends in an API error leaves no line, but may have run the command. */
    method Interrupt(path: string, cmd: string, applied: bool)
      requires Valid() && Active(objs, table, call, path) && CanExec(path)
      modifies `containers, `interrupted, `past
      ensures Valid() && past == old(past) + [RunFails(path, cmd, applied)]
      ensures containers == if applied then AddRun(old(Now()), objs[path].cont.value, cmd) else old(containers)
    {
      hide After, Enabled, Apply;
      ghost var before := Now();
      RunFailsStep(before, path, cmd, applied);
      if applied {
        var cid := objs[path].cont.value;
        var c := containers[cid];
        containers := containers[cid := c.(hist := c.hist + [Ran(cmd, None)])];
        interrupted := interrupted + 1;
      }
      Took(RunFails(path, cmd, applied), before);
    }

    /** Sandbox.exec, then the command's line in the log. */
    method ExecAndLog(path: string, kind: EventType, cmd: string, o: Outcome) returns (ok: bool)
      requires Valid() && Active(objs, table, call, path) && path in objs && path in logs && kind == RunKind(call)
      modifies `containers, `logs, `objs, `call, `interrupted, `overflow, `past
      ensures Valid() && old(past) <= past && call == old(call)
      ensures path in objs && path in logs && objs.Keys == old(objs).Keys
      ensures ok <==> o.Exited? && old(CanExec(path))
      ensures Told(old(logs), logs, path, if ok then [(kind, Recorded(cmd, o))] else [])
      ensures SameObjs(old(objs)[path := old(objs)[path].(count := objs[path].count)], objs)
      ensures objs[path] == old(objs)[path].(seqNo := objs[path].seqNo, count := objs[path].count)
      ensures objs[path].count == old(objs)[path].count + if ok && kind == AgentCommand then 1 else 0
      ensures containers.Keys == old(containers).Keys
      ensures overflow ==
              if ok then Overflow.SpillAll(old(overflow), ResultData(cmd, o), maxBytes, sha) else old(overflow)
      ensures old(CanExec(path)) ==> CanExec(path)
      ensures ok ==>
        logs[path] != [] && Last(logs[path]).data == Recorded(cmd, o) && Reports(Last(logs[path]).data, cmd, o) &&
        var cid := old(objs)[path].cont.value;
        containers ==
        old(containers)[cid := Container(old(containers)[cid].hist + [Ran(cmd, Some(Last(logs[path])))], true)]
      ensures !ok && !(o.ApiError? && o.applied) ==> containers == old(containers)
    {
      hide Valid, Story, Told, SameObjs, Active, RunKind, Recorded, Reports, ResultData, Overflow.SpillAll;
      SameSelf(objs, path);
      ToldNone(logs, path);
      if !CanExec(path) {
        return false;
      }
      if o.ApiError? {
        Interrupt(path, cmd, o.applied);
        return false;
      }
      var cid := objs[path].cont.value;
      RunAndRecord(path, kind, cmd, o, cid);
      RecordedReports(cmd, o);
      return true;
    }

    /** The command runs, the proxy has its say, the output over the cap is stored, the command is logged. */
    method RunAndRecord(path: string, kind: EventType, cmd: string, o: Outcome, cid: string)
      requires Valid() && Active(objs, table, call, path) && path in objs && path in logs && kind == RunKind(call)
      requires o.Exited? && objs[path].cont == Some(cid) && cid in containers && containers[cid].running
      modifies `containers, `logs, `objs, `call, `overflow, `past
      ensures Valid() && old(past) <= past && call == old(call)
      ensures path in objs && path in logs && objs.Keys == old(objs).Keys
      ensures Told(old(logs), logs, path, [(kind, Recorded(cmd, o))])
      ensures overflow == Overflow.SpillAll(old(overflow), ResultData(cmd, o), maxBytes, sha)
      ensures SameObjs(old(objs)[path := old(objs)[path].(count := objs[path].count)], objs)
      ensures objs[path].count == old(objs)[path].count + if kind == AgentCommand then 1 else 0
      ensures objs[path] == old(objs)[path].(seqNo := objs[path].seqNo, count := objs[path].count)
      ensures logs[path] != [] && Last(logs[path]).data == Recorded(cmd, o)
      ensures containers ==
              old(containers)[cid := Container(old(containers)[cid].hist + [Ran(cmd, Some(Last(logs[path])))], true)]
    {
      hide Valid, Story, Told, SameObjs, Active, RunKind, Recorded, ResultData, Overflow.SpillAll;
      var data := Recorded(cmd, o);
      ghost var hist := containers[cid].hist;
      Start(path, cmd, cid);
      ProxyTurn();
      TurnAt(old(logs), logs, old(objs), objs, path);
      ToldNothing(old(logs), logs, path);
      SameWrote(old(objs), objs, path, kind);
      ghost var logs1 := logs;
      overflow := Overflow.SpillAll(overflow, ResultData(cmd, o), maxBytes, sha);
      Record(path, cmd, kind, data, hist);
      ToldThen(old(logs), logs1, logs, path, [], [(kind, data)]);
      assert [] + [(kind, data)] == [(kind, data)];
    }

    /** A setup or verify command, as the loops over them see it. */
    method RunCommand(path: string, kind: EventType, cmd: string, o: Outcome) returns (ok: bool)
      requires Valid() && Active(objs, table, call, path) && path in objs && path in logs
      requires kind == RunKind(call) && kind != AgentCommand
      modifies `containers, `logs, `objs, `call, `interrupted, `overflow, `past
      ensures Valid() && old(past) <= past && call == old(call)
      ensures path in objs && path in logs && objs.Keys == old(objs).Keys && logs.Keys == old(logs).Keys
      ensures objs[path] == old(objs)[path].(seqNo := objs[path].seqNo)
      ensures ok <==> o.Exited? && old(CanExec(path))
      ensures Told(old(logs), logs, path, if ok then [(kind, Recorded(cmd, o))] else [])
      ensures containers.Keys == old(containers).Keys && (old(CanExec(path)) ==> CanExec(path))
      ensures Grown(old(overflow), overflow)
    {
      hide Valid, Story, Told, SameObjs, Active, RunKind, Recorded, ResultData, Grown, AddRun;
      ok := ExecAndLog(path, kind, cmd, o);
      ToldKeys(old(logs), logs, path, if ok then [(kind, Recorded(cmd, o))] else []);
      NotGrown(old(overflow));
      if ok {
        GrownBySpill(old(overflow), old(overflow), ResultData(cmd, o));
      }
    }

    lemma NotGrown(files: Overflow.Files)
      ensures Grown(files, files)
    {
    }

    lemma GrownBySpill(files: Overflow.Files, after: Overflow.Files, data: Data)
      requires Grown(files, after)
      ensures Grown(files, Overflow.SpillAll(after, data, maxBytes, sha))
    {
      SpillGrows(after, data, maxBytes, sha);
    }

    lemma GrownThen(files: Overflow.Files, after: Overflow.Files, last: Overflow.Files)
      requires Grown(files, after) && Grown(after, last)
      ensures Grown(files, last)
    {
    }

    // --- the session file

    /** _persist_session: rewriting the file truncates it first. */
    method Persist(sid: string, path: string)
      requires Valid() && call == Saving(sid, path) && path in objs && objs[path].cont.Some?
      modifies `descs, `logs, `objs, `call, `past
      ensures Valid() && old(past) <= past && call == Idle
      ensures Told(old(logs), logs, "", []) && SameObjs(old(objs), objs)
      ensures path in objs
      ensures descs == old(descs)[sid := Desc(path, old(objs)[path].restricted, old(objs)[path].cont.value)]
    {
      hide After, Enabled, Apply, Story, Told, SameObjs;
      ghost var before := Now();
      TruncateStep(before);
      descs := descs[sid := Malformed];
      Took(BreakDescriptor, before);
      ghost var objs0 := objs;
      ProxyTurn();
      SameAt(objs0, objs, path);
      WriteFile(sid, path);
    }

    method WriteFile(sid: string, path: string)
      requires Valid() && call == Saving(sid, path) && path in objs && objs[path].cont.Some?
      modifies `descs, `call, `past
      ensures Valid() && past == old(past) + [WriteDescriptor] && call == Idle
      ensures descs == old(descs)[sid := Desc(path, objs[path].restricted, objs[path].cont.value)]
    {
      hide After, Enabled, Apply;
      ghost var before := Now();
      SaveStep(before);
      descs := descs[sid := Desc(path, objs[path].restricted, objs[path].cont.value)];
      call := Idle;
      Took(WriteDescriptor, before);
    }

    // --- start_task

    method OpenWriter(path: string, restricted: bool)
      requires Valid() && call.Idle? && Fresh(Now(), path)
      modifies `logs, `objs, `call, `issued, `past
      ensures Valid() && past == old(past) + [OpenLog(path, restricted)] && call == Starting(path)
      ensures logs == old(logs)[path := []] && objs == old(objs)[path := Session(restricted, None, {}, 0, 0)]
      ensures issued == old(issued) + {path}
    {
      hide After, Enabled, Apply;
      ghost var before := Now();
      OpenLogStep(before, path, restricted);
      logs := logs[path := []];
      objs := objs[path := Session(restricted, None, {}, 0, 0)];
      call, issued := Starting(path), issued + {path};
      Took(OpenLog(path, restricted), before);
    }

    /** Sandbox.start, when the container is created and starts. */
    method StartSandbox(path: string, cid: string)
      requires Valid() && call == Starting(path) && path in objs && objs[path].cont.None? && Fresh(Now(), cid)
      modifies `containers, `objs, `issued, `past
      ensures Valid() && past == old(past) + [CreateContainer(cid)]
      ensures containers == old(containers)[cid := Container([], true)] && issued == old(issued) + {cid}
      ensures objs == old(objs)[path := old(objs)[path].(cont := Some(cid))]
    {
      hide After, Enabled, Apply;
      ghost var before := Now();
      CreateStep(before, cid);
      containers := containers[cid := Container([], true)];
      objs := objs[path := objs[path].(cont := Some(cid))];
      issued := issued + {cid};
      Took(CreateContainer(cid), before);
    }

    /** Setup failed: close the writer and remove the container, if there is one. */
    method GiveUp(path: string)
      requires Valid() && call == Starting(path) && path in objs
      modifies `containers, `objs, `call, `past
      ensures Valid() && call == Idle && old(past) <= past
      ensures objs == old(objs) - {path} && containers == WithoutContainer(old(Now()), old(objs)[path].cont)
    {
      hide After, Enabled, Apply;
      ghost var before := Now();
      GiveUpStep(before);
      var cont := objs[path].cont;
      if cont.Some? {
        containers := containers - {cont.value};
      }
      objs := objs - {path};
      call := Idle;
      Took(StartFailed, before);
    }

    /** An exec error in setup escapes: neither writer nor container is cleaned up. */
    method Abandon(path: string)
      requires Valid() && call == Starting(path)
      modifies `objs, `call, `past
      ensures Valid() && call == Idle && old(past) <= past && objs == old(objs) - {path}
    {
      hide After, Enabled, Apply;
      ghost var before := Now();
      AbandonStep(before);
      objs := objs - {path};
      call := Idle;
      Took(StartAbandoned, before);
    }

    method List(path: string, sid: string)
      requires Valid() && call == Starting(path) && path in objs && objs[path].cont.Some? && Fresh(Now(), sid)
      modifies `table, `call, `issued, `past
      ensures Valid() && past == old(past) + [Register(sid)] && call == Saving(sid, path)
      ensures table == old(table)[sid := path] && issued == old(issued) + {sid}
    {
      hide After, Enabled, Apply;
      ghost var before := Now();
      RegisterStep(before, sid);
      table := table[sid := path];
      call, issued := Saving(sid, path), issued + {sid};
      Took(Register(sid), before);
    }

    /** The setup commands ran with these outcomes and none failed. */
    ghost predicate SetupPassed(outcomes: seq<Outcome>) {
      forall i :: 0 <= i < |outcomes| ==> outcomes[i].Exited? && outcomes[i].code == 0
    }

    /** The first setup command to fail is number `i`. */
    ghost predicate FirstFailure(outcomes: seq<Outcome>, i: int) {
      0 <= i < |outcomes| && SetupPassed(outcomes[..i]) && !(outcomes[i].Exited? && outcomes[i].code == 0)
    }

    function ErrorEntry(reason: Reason): (EventType, Data) {
      (RunFinished, FinishData(ERROR, LoggedReason(reason)))
    }

    lemma ErrorEntrySays(error: string, code: int, cmd: string)
      ensures ErrorEntry(NotStarted(error)) ==
              (RunFinished, map["result" := Text("error"), "reason" := Text("sandbox start: " + error)])
      ensures ErrorEntry(SetupFailed(code, cmd)) ==
              (RunFinished, map["result" := Text("error"),
                                "reason" := Text("setup command failed (exit " + Decimal(code) + "): " + cmd)])
    {
    }

    /**
     * What a failed setup leaves: a log sealed with the error and no container, or, if an exec
     * raised, the log of the commands before and the container still there.
     */
    ghost predicate SetupLeaves(setup: seq<string>, outcomes: seq<Outcome>, i: int,
                                before: seq<(EventType, Data)>, after: seq<(EventType, Data)>, kept: bool)
      requires |outcomes| == |setup|
    {
      FirstFailure(outcomes, i) &&
      if outcomes[i].ApiError? then
        kept && after == before + Entries(SetupCommand, setup[..i], outcomes[..i])
      else
        assert forall j :: 0 <= j < i ==> outcomes[..i][j] == outcomes[j];
        !kept &&
        after == before + Entries(SetupCommand, setup[..i + 1], outcomes[..i + 1]) +
                 [ErrorEntry(SetupFailed(outcomes[i].code, setup[i]))]
    }

    lemma AllPass(outcomes: seq<Outcome>)
      requires forall j :: 0 <= j < |outcomes| ==> outcomes[j].Exited? && outcomes[j].code == 0
      ensures SetupPassed(outcomes)
    {
    }

    lemma FailsAt(setup: seq<string>, outcomes: seq<Outcome>, i: nat,
                  before: seq<(EventType, Data)>, after: seq<(EventType, Data)>, kept: bool)
      requires i < |outcomes| == |setup| && !(outcomes[i].Exited? && outcomes[i].code == 0)
      requires forall j :: 0 <= j < i ==> outcomes[j].Exited? && outcomes[j].code == 0
      requires outcomes[i].ApiError? ==> kept && after == before + Entries(SetupCommand, setup[..i], outcomes[..i])
      requires outcomes[i].Exited? ==>
        !kept && after == before + Entries(SetupCommand, setup[..i + 1], outcomes[..i + 1]) +
                          [ErrorEntry(SetupFailed(outcomes[i].code, setup[i]))]
      ensures SetupLeaves(setup, outcomes, i, before, after, kept) && !SetupPassed(outcomes)
    {
      hide Entries, ErrorEntry;
    }

    /** A setup command failed: a raised exec escapes, a nonzero exit ends the task. */
    method EndSetup(path: string, cmd: string, o: Outcome, cid: string)
      requires Valid() && call == Starting(path) && path in objs && path in logs && objs[path].cont == Some(cid)
      requires cid in containers
      modifies `containers, `logs, `objs, `call, `past
      ensures Valid() && old(past) <= past && call == Idle && path !in objs && path in logs
      ensures Story(logs[path]) ==
              old(Story(logs[path])) + if o.ApiError? then [] else [ErrorEntry(SetupFailed(o.code, cmd))]
      ensures cid in containers <==> o.ApiError?
    {
      hide Valid, Story, ErrorEntry;
      match o
      case ApiError(_) => Abandon(path);
      case Exited(code, _, _, _) => Refuse(path, SetupFailed(code, cmd));
    }

    /** The setup commands, one by one; the first that fails ends the task. */
    method RunSetup(path: string, setup: seq<string>, outcomes: seq<Outcome>, cid: string)
      returns (ok: bool, ghost failed: int)
      requires Valid() && call == Starting(path) && |outcomes| == |setup| && path in logs && CanExec(path)
      requires objs[path].cont == Some(cid)
      modifies `containers, `logs, `objs, `call, `interrupted, `overflow, `past
      ensures Valid() && old(past) <= past && path in old(objs) && path in logs
      ensures Grown(old(overflow), overflow) && (ok <==> SetupPassed(outcomes))
      ensures ok ==>
        call == Starting(path) && path in objs &&
        objs[path] == old(objs)[path].(seqNo := objs[path].seqNo) &&
        Story(logs[path]) == Story(old(logs)[path]) + Entries(SetupCommand, setup, outcomes)
      ensures !ok ==>
        call == Idle && path !in objs &&
        SetupLeaves(setup, outcomes, failed, Story(old(logs)[path]), Story(logs[path]), cid in containers)
    {
      hide Valid, Story, Told, SameObjs, AddRun, FailedCommands;
      hide Entries, ErrorEntry, Recorded, ResultData, Grown, SetupLeaves, SetupPassed;
      assert cid in containers;
      hide CanExec, LoggedReason;
      failed := 0;
      ghost var before := Story(logs[path]);
      NoEntries(SetupCommand);
      NotGrown(overflow);
      for i := 0 to |setup|
        invariant Valid() && call == Starting(path) && old(past) <= past && CanExec(path) && cid in containers
        invariant path in objs && path in logs
        invariant objs[path] == old(objs)[path].(seqNo := objs[path].seqNo)
        invariant forall j :: 0 <= j < i ==> outcomes[j].Exited? && outcomes[j].code == 0
        invariant Grown(old(overflow), overflow)
        invariant Story(logs[path]) == Story(old(logs)[path]) + Entries(SetupCommand, setup[..i], outcomes[..i])
      {
        ghost var logs1, files1 := logs, overflow;
        var ok := RunCommand(path, SetupCommand, setup[i], outcomes[i]);
        GrownThen(old(overflow), files1, overflow);
        ToldAt(logs1, logs, path, if ok then [(SetupCommand, Recorded(setup[i], outcomes[i]))] else []);
        if ok {
          EntriesSnoc(SetupCommand, setup, outcomes, i);
        }
        if !ok || outcomes[i].code != 0 {
          EndSetup(path, setup[i], outcomes[i], cid);
          FailsAt(setup, outcomes, i, before, Story(logs[path]), cid in containers);
          return false, i;
        }
      }
      assert outcomes[..|setup|] == outcomes && setup[..|setup|] == setup;
      assert SetupPassed(outcomes) by { AllPass(outcomes); }
      return true, 0;
    }

    /** A task that cannot start or fails in setup: say so, close the writer, remove the container. */
    method Refuse(path: string, reason: Reason)
      requires Valid() && call == Starting(path) && path in objs && path in logs
      modifies `containers, `logs, `objs, `call, `past
      ensures Valid() && old(past) <= past && call == Idle && path !in objs
      ensures path in logs && Story(logs[path]) == Story(old(logs)[path]) + [ErrorEntry(reason)]
      ensures containers == WithoutContainer(old(Now()), old(objs)[path].cont)
    {
      hide Valid, Story, Told, SameObjs, LoggedReason, FinishData;
      ProxyTurn();
      TurnAt(old(logs), logs, old(objs), objs, path);
      ghost var logs1, objs1 := logs, objs;
      WriteEvent(path, RunFinished, FinishData(ERROR, LoggedReason(reason)));
      ToldAt(logs1, logs, path, [ErrorEntry(reason)]);
      SameAt(objs1, objs, path);
      GiveUp(path);
    }

    /** The log and the container of a new task: none of it is listed or saved yet. */
    method Provision(path: string, restricted: bool, taskId: string, image: string, cid: string)
      requires Valid() && call == Idle && Fresh(Now(), path) && Fresh(Now(), cid) && path != cid
      modifies `containers, `logs, `objs, `call, `issued, `past
      ensures Valid() && old(past) <= past && issued == old(issued) + {path, cid}
      ensures call == Starting(path) && path in logs && CanExec(path)
      ensures Story(logs[path]) == [(RunStarted, StartedData(taskId, image, cid))]
      ensures objs[path] == Session(restricted, Some(cid), {}, objs[path].seqNo, 0)
    {
      hide Valid, Story, SameObjs;
      OpenWriter(path, restricted);
      StoryEmpty();
      StartSandbox(path, cid);
      Announce(path, taskId, image, cid);
    }

    /** run_started, now that there is a container. */
    method Announce(path: string, taskId: string, image: string, cid: string)
      requires Valid() && call == Starting(path) && path in objs && path in logs
      modifies `logs, `objs, `past
      ensures Valid() && old(past) <= past
      ensures path in logs && Story(logs[path]) == Story(old(logs)[path]) +
          [(RunStarted, StartedData(taskId, image, cid))]
      ensures path in objs && objs[path] == old(objs)[path].(seqNo := objs[path].seqNo)
    {
      hide Valid, Story, SameObjs;
      ProxyTurn();
      TurnAt(old(logs), logs, old(objs), objs, path);
      ghost var objs0 := objs;
      WriteEvent(path, RunStarted, StartedData(taskId, image, cid));
      SameAt(objs0, objs, path);
    }

    /** Everything of start_task before the session is listed; `error` is how the sandbox failed to start. */
    method Launch(path: string, restricted: bool, taskId: string, image: string, setup: seq<string>,
                  outcomes: seq<Outcome>, error: Option<string>,
                  cid: string)
      returns (ok: bool, ghost failed: int)
      requires Valid() && call == Idle && |outcomes| == |setup|
      requires Fresh(Now(), path) && Fresh(Now(), cid) && path != cid
      modifies `containers, `logs, `objs, `call, `issued, `interrupted, `overflow, `past
      ensures Valid() && old(past) <= past && issued <= old(issued) + {path, cid}
      ensures path in logs && (ok <==> error == None && SetupPassed(outcomes))
      ensures ok ==>
        call == Starting(path) &&
        Story(logs[path]) == [(RunStarted, StartedData(taskId, image, cid))] + Entries(SetupCommand, setup, outcomes) &&
        path in objs && objs[path] == Session(restricted, Some(cid), {}, objs[path].seqNo, 0)
      ensures !ok ==> call == Idle && path !in objs
      ensures !ok && error == None ==>
        SetupLeaves(setup, outcomes, failed, [(RunStarted, StartedData(taskId, image, cid))], Story(logs[path]),
                    cid in containers)
      ensures error.Some? ==> containers == old(containers)
      ensures error.Some? ==> Story(logs[path]) == [ErrorEntry(NotStarted(error.value))]
    {
      hide Valid, Story, SetupPassed, CanExec, SetupLeaves, Entries, ErrorEntry, StartedData;
      if error == None {
        Provision(path, restricted, taskId, image, cid);
        ok, failed := RunSetup(path, setup, outcomes, cid);
      } else {
        OpenWriter(path, restricted);
        StoryEmpty();
        Refuse(path, NotStarted(error.value));
        ok, failed := false, 0;
      }
    }

    /**
     * Opens the log, starts the container (or not), runs the setup commands,
     * and only then lists and saves the session. A sandbox that does not start
     * and a setup command that fails leave a log sealed with an error and no
     * container; an exec error in setup leaves the container behind.
     */
    method StartTask(path: string, restricted: bool, taskId: string, image: string, setup: seq<string>,
                     outcomes: seq<Outcome>,
                     error: Option<string>, cid: string, sid: string) returns (r: Reply<string>, ghost failed: int)
      requires Valid() && call == Idle && |outcomes| == |setup|
      requires Fresh(Now(), path) && Fresh(Now(), cid) && Fresh(Now(), sid) && path != cid && path != sid && cid != sid
      modifies this
      ensures Valid() && call == Idle && old(past) <= past && images == old(images)
      ensures path in logs && (r.Done? <==> error == None && SetupPassed(outcomes))
      ensures r.Done? ==>
        r.value == sid && table == old(table)[sid := path] && descs == old(descs)[sid := Desc(path, restricted, cid)] &&
        path in objs && objs[path] == Session(restricted, Some(cid), {}, objs[path].seqNo, 0) &&
        Story(logs[path]) == [(RunStarted, StartedData(taskId, image, cid))] + Entries(SetupCommand, setup, outcomes)
      ensures !r.Done? ==> table == old(table) && descs == old(descs) && path !in objs
      ensures !r.Done? && error == None ==>
        SetupLeaves(setup, outcomes, failed, [(RunStarted, StartedData(taskId, image, cid))], Story(logs[path]),
                    cid in containers)
      ensures error.Some? ==> containers == old(containers)
      ensures error.Some? ==> Story(logs[path]) == [ErrorEntry(NotStarted(error.value))]
    {
      hide Valid, Story, SetupPassed, Told, SameObjs, SetupLeaves, Entries, ErrorEntry, StartedData;
      var ok;
      ok, failed := Launch(path, restricted, taskId, image, setup, outcomes, error, cid);
      if !ok {
        return Failed, failed;
      }
      List(path, sid);
      ghost var logs0, objs0 := logs, objs;
      Persist(sid, path);
      TurnAt(logs0, logs, objs0, objs, path);
      return Done(sid), failed;
    }

    // --- exec, note and read_trajectory

    /** A session of the dict is in memory, with its log. */
    ghost predicate Listed(sid: string)
      reads this
    {
      sid in table && table[sid] in objs && table[sid] in logs &&
      (objs[table[sid]].cont.Some? ==> objs[table[sid]].cont.value in containers) &&
      (!call.Forking? ==> forall s :: s in objs[table[sid]].snaps ==> s in images)
    }

    lemma ListedInDict()
      requires Valid()
      ensures forall sid :: sid in table ==> Listed(sid) && objs[table[sid]].count == CountAgent(logs[table[sid]])
    {
      hide After, CountAgent;
      AlwaysGrounded(past, Now());
    }

    method Exec(sid: string, cmd: string, o: Outcome) returns (r: Reply<Data>)
      requires Valid() && call == Idle
      modifies `containers, `logs, `objs, `call, `interrupted, `overflow, `past
      ensures Valid() && call == Idle && old(past) <= past
      ensures r.UnknownSession? <==> sid !in table
      ensures r.Done? <==>
        sid in table && o.Exited? && table[sid] in old(objs) && old(objs)[table[sid]].cont.Some? &&
        old(objs)[table[sid]].cont.value in old(containers) &&
        old(containers)[old(objs)[table[sid]].cont.value].running
      ensures r.Done? ==> r.value == Recorded(cmd, o)
      ensures r.Done? ==>
        var path := table[sid];
        Reports(r.value, cmd, o) && path in old(objs) && path in objs && path in logs &&
        Told(old(logs), logs, path, [(AgentCommand, r.value)]) &&
        objs[path].count == old(objs)[path].count + 1 &&
        var cid := old(objs)[path].cont.value;
        logs[path] != [] && Last(logs[path]).data == r.value &&
        containers ==
        old(containers)[cid := Container(old(containers)[cid].hist + [Ran(cmd, Some(Last(logs[path])))], true)]
      ensures overflow ==
              if r.Done? then Overflow.SpillAll(old(overflow), ResultData(cmd, o), maxBytes, sha) else old(overflow)
      ensures r.Failed? ==> Told(old(logs), logs, table[sid], [])
      ensures r.Failed? && !(o.ApiError? && o.applied) ==> containers == old(containers)
      ensures sid !in table ==> logs == old(logs) && containers == old(containers) && objs == old(objs)
    {
      hide Valid, Story, Told, SameObjs, Recorded, Reports, ResultData;
      if sid !in table {
        return UnknownSession;
      }
      ListedInDict();
      var path := table[sid];
      var ok := ExecAndLog(path, AgentCommand, cmd, o);
      if !ok {
        return Failed;
      }
      return Done(Recorded(cmd, o));
    }

    method Note(sid: string, thought: string) returns (r: Reply<()>)
      requires Valid() && call == Idle
      modifies `logs, `objs, `past
      ensures Valid() && old(past) <= past
      ensures r == if sid in table then Done(()) else UnknownSession
      ensures r.Done? ==>
        SameObjs(old(objs), objs) &&
        Told(old(logs), logs, table[sid], [(AgentThought, map["thought" := Text(thought)])])
      ensures sid !in table ==> logs == old(logs) && objs == old(objs)
    {
      hide Valid, Story, Told, SameObjs;
      if sid !in table {
        return UnknownSession;
      }
      ListedInDict();
      WriteEvent(table[sid], AgentThought, map["thought" := Text(thought)]);
      return Done(());
    }

    /**
     * What the agent reads back of its current branch is, command for command,
     * in its container; and is all of it exactly when no command was lost on the way.
     */
    method ReadTrajectory(sid: string, sinceSeq: nat, branch: string) returns (r: Reply<seq<Event>>)
      requires Valid() && call == Idle
      ensures r.Done? <==> sid in table
      ensures r.Done? ==>
        table[sid] in logs && table[sid] in objs && r.value == Since(View(logs[table[sid]], branch), sinceSeq)
      ensures r.Done? ==> Reads(logs[table[sid]], branch, sinceSeq, r.value)
      ensures r.Done? && branch == "current" && sinceSeq == 0 && objs[table[sid]].cont.Some? ==>
        var path := table[sid];
        objs[path].cont.value in containers &&
        IsSubsequence(Commands(r.value), Logged(containers[objs[path].cont.value].hist)) &&
        (Commands(r.value) == Logged(containers[objs[path].cont.value].hist) <==> CommandsKept(logs[path])) &&
        (RevertsToShown(logs[path]) ==> CommandsKept(logs[path]))
    {
      hide After, View, CountAgent, IsSubsequence, Commands, Logged;
      hide Replay, RevertsToShown, CommandsKept, Stack, Kept, Since, Reads;
      if sid !in table {
        return UnknownSession;
      }
      ListedInDict();
      var path := table[sid];
      var events := FilterBranch(logs[path], branch);
      r := Done(Since(events, sinceSeq));
      SinceZero(events);
      CurrentIsView(logs[path]);
      IsReachable(past, Now());
      LogIsLegal(Now(), path);
      ReadsView(logs[path], branch, sinceSeq);
      if branch == "current" && sinceSeq == 0 && objs[path].cont.Some? {
        ShownCommandsAreInContainer(Now(), path);
        ShownCommandsAreTheContainers(Now(), path);
      }
    }

    // --- fork

    /** Sandbox.snapshot: commit the container to an image labelled with the session id. */
    method Snapshot(sid: string, snap: string)
      requires Valid() && call == Idle && Listed(sid) && objs[table[sid]].cont.Some? && Fresh(Now(), snap)
      modifies `images, `objs, `call, `issued, `past
      ensures Valid() && past == old(past) + [Commit(sid, snap)] && call == Forking(sid, table[sid], snap)
      ensures var o := old(objs)[table[sid]];
        images == old(images)[snap := Image(containers[o.cont.value].hist, sid)] &&
        objs == old(objs)[table[sid] := o.(snaps := o.snaps + {snap})]
    {
      hide After, Enabled, Apply;
      ghost var before := Now();
      CommitStep(before, sid, snap);
      var path := table[sid];
      var o := objs[path];
      images := images[snap := Image(containers[o.cont.value].hist, sid)];
      objs := objs[path := o.(snaps := o.snaps + {snap})];
      call, issued := Forking(sid, path, snap), issued + {snap};
      Took(Commit(sid, snap), before);
    }

    method MarkFork(path: string, snap: string, cid: string)
      requires Valid() && call.Forking? && call.path == path && call.snap == snap
      requires path in objs && path in logs && objs[path].cont == Some(cid)
      modifies `logs, `objs, `call, `past
      ensures Valid() && past == old(past) + [LogFork] && call == Idle
      ensures Told(old(logs), logs, path, [(SessionForked, ForkData(snap, cid))]) && SameObjs(old(objs), objs)
    {
      hide After, Enabled, Apply, Story, Told, SameObjs, ForkData;
      ghost var before := Now();
      LogForkStep(before);
      var o := objs[path];
      var e := Event(o.seqNo, SessionForked, ForkData(snap, cid));
      ToldOne(logs, path, e);
      SameButWritten(objs, path, SessionForked);
      logs := logs[path := logs[path] + [e]];
      objs := objs[path := Wrote(o, SessionForked)];
      call := Idle;
      Took(LogFork, before);
    }

    method Fork(sid: string, snap: string, commits: bool) returns (r: Reply<string>)
      requires Valid() && call == Idle && Fresh(Now(), snap)
      modifies `images, `logs, `objs, `call, `issued, `past
      ensures Valid() && call == Idle && old(past) <= past
      ensures r.UnknownSession? <==> sid !in table
      ensures r.Done? <==> sid in table && table[sid] in old(objs) && old(objs)[table[sid]].cont.Some? && commits
      ensures r.Done? ==>
        var path := table[sid];
        var cid := old(objs)[path].cont.value;
        r.value == snap && cid in containers && images == old(images)[snap := Image(containers[cid].hist, sid)] &&
        path in objs && objs[path].cont == Some(cid) && objs[path].snaps == old(objs)[path].snaps + {snap} &&
        MarksFork(ForkData(snap, cid), snap, cid) &&
        Told(old(logs), logs, path, [(SessionForked, ForkData(snap, cid))])
      ensures !r.Done? ==> images == old(images) && logs == old(logs) && objs == old(objs)
    {
      hide Valid, Story, Told, SameObjs, ForkData, MarksFork, CountAgent;
      if sid !in table {
        return UnknownSession;
      }
      ListedInDict();
      var path := table[sid];
      if objs[path].cont.None? || !commits {
        return Failed;
      }
      var cid := objs[path].cont.value;
      Snapshot(sid, snap);
      FinishFork(path, snap, cid);
      MarkersSay(snap, None, cid);
      return Done(snap);
    }

    /** The marker, after whatever the proxy has to say. */
    method FinishFork(path: string, snap: string, cid: string)
      requires Valid() && call.Forking? && call.path == path && call.snap == snap
      requires path in objs && path in logs && objs[path].cont == Some(cid)
      modifies `logs, `objs, `call, `past
      ensures Valid() && old(past) <= past && call == Idle
      ensures Told(old(logs), logs, path, [(SessionForked, ForkData(snap, cid))])
      ensures path in objs && objs[path] == old(objs)[path].(seqNo := objs[path].seqNo)
    {
      hide Valid, Story, Told, SameObjs, ForkData;
      ProxyTurn();
      TurnAt(old(logs), logs, old(objs), objs, path);
      ToldNothing(old(logs), logs, path);
      ghost var logs1, objs1 := logs, objs;
      MarkFork(path, snap, cid);
      SameAt(objs1, objs, path);
      ToldThen(old(logs), logs1, logs, path, [], [(SessionForked, ForkData(snap, cid))]);
      assert [] + [(SessionForked, ForkData(snap, cid))] == [(SessionForked, ForkData(snap, cid))];
    }

    // --- revert

    /** The sandbox lets go of its container before touching Docker. */
    method Unbind(sid: string, snap: string)
      requires Valid() && call == Idle && Listed(sid) && snap in objs[table[sid]].snaps
      modifies `objs, `call, `past
      ensures Valid() && past == old(past) + [Detach(sid, snap)]
      ensures var o := old(objs)[table[sid]];
        call == Reverting(sid, table[sid], snap, o.cont, o.cont) && objs == old(objs)[table[sid] := o.(cont := None)]
    {
      hide After, Enabled, Apply;
      ghost var before := Now();
      DetachStep(before, sid, snap);
      var path := table[sid];
      var o := objs[path];
      objs := objs[path := o.(cont := None)];
      call := Reverting(sid, path, snap, o.cont, o.cont);
      Took(Detach(sid, snap), before);
    }

    method StopContainer(cid: string)
      requires Valid() && cid in containers
      modifies `containers, `past
      ensures Valid() && past == old(past) + [ContainerStops(cid)]
      ensures containers == old(containers)[cid := old(containers)[cid].(running := false)]
    {
      hide After, Enabled, Apply;
      ghost var before := Now();
      StopStep(before, cid);
      containers := containers[cid := containers[cid].(running := false)];
      Took(ContainerStops(cid), before);
    }

    method RemovePrior(cid: string)
      requires Valid() && call.Reverting? && call.prior == Some(cid)
      modifies `containers, `call, `past
      ensures Valid() && past == old(past) + [RemoveOld]
      ensures containers == old(containers) - {cid} && call == old(call).(prior := None)
    {
      hide After, Enabled, Apply;
      ghost var before := Now();
      RemoveOldStep(before);
      containers := containers - {cid};
      call := call.(prior := None);
      Took(RemoveOld, before);
    }

    /** A new container from the snapshot image. */
    method Rebind(path: string, snap: string, cid: string)
      requires Valid() && call.Reverting? && call.prior.None? && call.path == path && call.snap == snap
      requires path in objs && snap in images && Fresh(Now(), cid)
      modifies `containers, `objs, `call, `issued, `past
      ensures Valid() && past == old(past) + [Restore(cid)] &&
          call == Swapped(old(call).sid, path, snap, old(call).previous)
      ensures containers == old(containers)[cid := Container(images[snap].hist, true)]
      ensures objs == old(objs)[path := old(objs)[path].(cont := Some(cid))]
    {
      hide After, Enabled, Apply;
      ghost var before := Now();
      RestoreStep(before, cid);
      containers := containers[cid := Container(images[snap].hist, true)];
      objs := objs[path := objs[path].(cont := Some(cid))];
      call, issued := Swapped(call.sid, path, snap, call.previous), issued + {cid};
      Took(Restore(cid), before);
    }

    method MarkRevert(path: string, snap: string, previous: Option<string>, cid: string)
      requires Valid() && call.Swapped? && call.path == path && call.snap == snap && call.previous == previous
      requires path in objs && path in logs && objs[path].cont == Some(cid)
      modifies `logs, `objs, `call, `past
      ensures Valid() && past == old(past) + [LogRevert] && call == Saving(old(call).sid, path)
      ensures Told(old(logs), logs, path, [(SessionReverted, RevertData(snap, previous, cid))]) &&
          SameObjs(old(objs), objs)
    {
      hide After, Enabled, Apply, Story, Told, SameObjs, RevertData;
      ghost var before := Now();
      LogRevertStep(before);
      var o := objs[path];
      var e := Event(o.seqNo, SessionReverted, RevertData(snap, previous, cid));
      ToldOne(logs, path, e);
      SameButWritten(objs, path, SessionReverted);
      logs := logs[path := logs[path] + [e]];
      objs := objs[path := Wrote(o, SessionReverted)];
      call := Saving(call.sid, path);
      Took(LogRevert, before);
    }

    /** The old container goes, whether or not a new one will come. */
    method RemoveCurrent(sid: string, snap: string)
      requires Valid() && call == Idle && Listed(sid) && snap in objs[table[sid]].snaps
      modifies `containers, `logs, `objs, `call, `past
      ensures Valid() && old(past) <= past && call == Reverting(sid, table[sid], snap, old(objs)[table[sid]].cont, None)
      ensures containers == WithoutContainer(old(Now()), old(objs)[table[sid]].cont)
      ensures Told(old(logs), logs, "", [])
      ensures table[sid] in objs && objs.Keys == old(objs).Keys
      ensures objs[table[sid]] == old(objs)[table[sid]].(cont := None, seqNo := objs[table[sid]].seqNo)
    {
      hide Valid, Story, Told, SameObjs;
      var path := table[sid];
      var cont := objs[path].cont;
      Unbind(sid, snap);
      if cont.Some? {
        StopContainer(cont.value);
        RemovePrior(cont.value);
      }
      ghost var objs1 := objs;
      ProxyTurn();
      TurnAt(old(logs), logs, objs1, objs, path);
    }

    method CannotRestore()
      requires Valid() && call.Reverting? && call.prior.None?
      modifies `call, `past
      ensures Valid() && past == old(past) + [RevertFails] && call == Idle
    {
      hide After, Enabled, Apply;
      ghost var before := Now();
      RevertFailsStep(before);
      call := Idle;
      Took(RevertFails, before);
    }

    /** A failed revert leaves the session without a container, its snapshots and log untouched. */
    method Revert(sid: string, snap: string, newCid: string, works: bool) returns (r: Reply<string>)
      requires Valid() && call == Idle && Fresh(Now(), newCid)
      modifies `containers, `logs, `descs, `objs, `call, `issued, `past
      ensures Valid() && call == Idle && old(past) <= past
      ensures r.UnknownSession? <==> sid !in table
      ensures r.Done? <==> sid in table && table[sid] in old(objs) && snap in old(objs)[table[sid]].snaps && works
      ensures sid in table && table[sid] in old(objs) && snap in old(objs)[table[sid]].snaps ==>
        var path := table[sid];
        var left := WithoutContainer(old(Now()), old(objs)[path].cont);
        path in objs && objs[path].snaps == old(objs)[path].snaps && snap in images &&
        if works then
          r == Done(newCid) && objs[path].cont == Some(newCid) &&
          containers == left[newCid := Container(images[snap].hist, true)] &&
          descs == old(descs)[sid := Desc(path, objs[path].restricted, newCid)] &&
          MarksRevert(RevertData(snap, old(objs)[path].cont, newCid), snap, old(objs)[path].cont, newCid) &&
          Told(old(logs), logs, path, [(SessionReverted, RevertData(snap, old(objs)[path].cont, newCid))])
        else
          objs[path].cont == None && containers == left && descs == old(descs) && Told(old(logs), logs, path, [])
      ensures r.Failed? && table[sid] in old(objs) && snap !in old(objs)[table[sid]].snaps ==>
        containers == old(containers) && logs == old(logs) && descs == old(descs) && objs == old(objs)
    {
      hide Valid, Story, Told, SameObjs, RevertData, MarksRevert, WithoutContainer, CountAgent;
      if sid !in table {
        return UnknownSession;
      }
      ListedInDict();
      var path := table[sid];
      if snap !in objs[path].snaps {
        return Failed;
      }
      var previous := objs[path].cont;
      RemoveCurrent(sid, snap);
      ToldNothing(old(logs), logs, path);
      if !works {
        CannotRestore();
        return Failed;
      }
      FinishRevert(sid, path, snap, previous, newCid, old(logs));
      MarkersSay(snap, previous, newCid);
      return Done(newCid);
    }

    /** The new container, then the marker, then the session file. */
    method FinishRevert(sid: string, path: string, snap: string, previous: Option<string>, cid: string,
                        ghost logs0: Logs)
      requires Valid() && call == Reverting(sid, path, snap, previous, None) && path in objs && path in logs
      requires snap in images && Fresh(Now(), cid) && Told(logs0, logs, path, [])
      modifies `containers, `logs, `descs, `objs, `call, `issued, `past
      ensures Valid() && old(past) <= past && call == Idle
      ensures Told(logs0, logs, path, [(SessionReverted, RevertData(snap, previous, cid))])
      ensures path in objs && objs[path] == old(objs)[path].(cont := Some(cid), seqNo := objs[path].seqNo)
      ensures containers == old(containers)[cid := Container(images[snap].hist, true)]
      ensures descs == old(descs)[sid := Desc(path, objs[path].restricted, cid)]
    {
      hide Valid, Story, Told, SameObjs, RevertData;
      Rebind(path, snap, cid);
      MarkRestored(sid, path, snap, previous, cid, logs0);
    }

    /** The marker and the file, after whatever the proxy has to say. */
    method MarkRestored(sid: string, path: string, snap: string, previous: Option<string>, cid: string,
                        ghost logs0: Logs)
      requires Valid() && call == Swapped(sid, path, snap, previous) && path in objs && path in logs
      requires objs[path].cont == Some(cid) && Told(logs0, logs, path, [])
      modifies `logs, `descs, `objs, `call, `past
      ensures Valid() && old(past) <= past && call == Idle
      ensures Told(logs0, logs, path, [(SessionReverted, RevertData(snap, previous, cid))])
      ensures path in objs && objs[path] == old(objs)[path].(seqNo := objs[path].seqNo)
      ensures descs == old(descs)[sid := Desc(path, objs[path].restricted, cid)]
    {
      hide Valid, Story, Told, SameObjs, RevertData;
      ghost var entry := (SessionReverted, RevertData(snap, previous, cid));
      ProxyTurn();
      TurnAt(old(logs), logs, old(objs), objs, path);
      ToldNothing(old(logs), logs, path);
      ToldThen(logs0, old(logs), logs, path, [], []);
      ghost var logs1 := logs;
      MarkAndSave(sid, path, snap, previous, cid);
      ToldThen(logs0, logs1, logs, path, [] + [], [entry]);
      assert [] + [] + [entry] == [entry];
    }

    method MarkAndSave(sid: string, path: string, snap: string, previous: Option<string>, cid: string)
      requires Valid() && call == Swapped(sid, path, snap, previous) && path in objs && path in logs
      requires objs[path].cont == Some(cid)
      modifies `logs, `descs, `objs, `call, `past
      ensures Valid() && old(past) <= past && call == Idle
      ensures Told(old(logs), logs, path, [(SessionReverted, RevertData(snap, previous, cid))])
      ensures path in objs && objs[path] == old(objs)[path].(seqNo := objs[path].seqNo)
      ensures descs == old(descs)[sid := Desc(path, objs[path].restricted, cid)]
    {
      hide Valid, Story, Told, SameObjs, RevertData;
      ghost var entry := (SessionReverted, RevertData(snap, previous, cid));
      MarkRevert(path, snap, previous, cid);
      SameAt(old(objs), objs, path);
      ghost var logs1, objs1 := logs, objs;
      Persist(sid, path);
      TurnAt(logs1, logs, objs1, objs, path);
      ToldNothing(logs1, logs, path);
      ToldThen(old(logs), logs1, logs, path, [entry], []);
      assert [entry] + [] == [entry];
    }

    // --- finish_task and abort_task

    /** sessions.pop: from here on only the tool holds the session object. */
    method PopSession(sid: string)
      requires Valid() && call == Idle && sid in table
      modifies `table, `call, `past
      ensures Valid() && past == old(past) + [Pop(sid)] && call == Finishing(sid, old(table)[sid])
      ensures table == old(table) - {sid}
    {
      hide After, Enabled, Apply;
      ghost var before := Now();
      PopStep(before, sid);
      call := Finishing(sid, table[sid]);
      table := table - {sid};
      Took(Pop(sid), before);
    }

    method RemoveContainer(path: string)
      requires Valid() && call.Finishing? && call.path == path && path in objs
      modifies `containers, `objs, `call, `past
      ensures Valid() && past == old(past) + [RemoveLast] && call == Stopped(old(call).sid, path)
      ensures containers == WithoutContainer(old(Now()), old(objs)[path].cont)
      ensures objs == old(objs)[path := old(objs)[path].(cont := None)]
    {
      hide After, Enabled, Apply;
      ghost var before := Now();
      RemoveLastStep(before);
      var cont := objs[path].cont;
      if cont.Some? {
        containers := containers - {cont.value};
      }
      objs := objs[path := objs[path].(cont := None)];
      call := Stopped(call.sid, path);
      Took(RemoveLast, before);
    }

    method RemoveSnapshot(path: string, snap: string)
      requires Valid() && call.Stopped? && call.path == path && path in objs && snap in objs[path].snaps
      modifies `images, `objs, `past
      ensures Valid() && past == old(past) + [RemoveImage(snap)]
      ensures images == old(images) - {snap}
      ensures objs == old(objs)[path := old(objs)[path].(snaps := old(objs)[path].snaps - {snap})]
    {
      hide After, Enabled, Apply;
      ghost var before := Now();
      RemoveImageStep(before, snap);
      var o := objs[path];
      images := images - {snap};
      objs := objs[path := o.(snaps := o.snaps - {snap})];
      Took(RemoveImage(snap), before);
    }

    /** writer.close, then the session file goes. */
    method CloseAndUnlink(sid: string, path: string)
      requires Valid() && call == Stopped(sid, path) && path in objs && objs[path].snaps == {}
      modifies `descs, `objs, `call, `past
      ensures Valid() && past == old(past) + [Unlink] && call == Idle
      ensures descs == old(descs) - {sid} && objs == old(objs) - {path}
    {
      hide After, Enabled, Apply;
      ghost var before := Now();
      UnlinkStep(before);
      descs := descs - {sid};
      objs := objs - {path};
      call := Idle;
      Took(Unlink, before);
    }

    /** Sandbox.delete_snapshots: one image after the other. */
    method DeleteSnapshots(sid: string, path: string)
      requires Valid() && call == Stopped(sid, path) && path in objs
      modifies `images, `objs, `past
      ensures Valid() && old(past) <= past && images == old(images) - old(objs)[path].snaps
      ensures path in objs && objs[path].snaps == {} && objs.Keys == old(objs).Keys
    {
      hide Valid;
      var todo := objs[path].snaps;
      while todo != {}
        invariant Valid() && old(past) <= past && call == Stopped(sid, path)
        invariant path in objs && objs[path].snaps == todo <= old(objs)[path].snaps && objs.Keys == old(objs).Keys
        invariant images == old(images) - (old(objs)[path].snaps - todo)
        decreases |todo|
      {
        var snap :| snap in todo;
        RemoveSnapshot(path, snap);
        todo := todo - {snap};
      }
      assert old(objs)[path].snaps - {} == old(objs)[path].snaps;
    }

    /** Sandbox.stop, writer.close and the session file, in that order. */
    method TearDown(sid: string, path: string)
      requires Valid() && call == Finishing(sid, path) && path in objs
      modifies `containers, `images, `logs, `descs, `objs, `call, `past
      ensures Valid() && old(past) <= past && call == Idle
      ensures containers == WithoutContainer(old(Now()), old(objs)[path].cont)
      ensures images == old(images) - old(objs)[path].snaps
      ensures descs == old(descs) - {sid} && objs.Keys == old(objs).Keys - {path}
      ensures Told(old(logs), logs, path, [])
    {
      hide Valid, Story, Told, SameObjs;
      RemoveContainer(path);
      DeleteSnapshots(sid, path);
      ghost var objs1 := objs;
      ProxyTurn();
      TurnAt(old(logs), logs, objs1, objs, path);
      ToldNothing(old(logs), logs, path);
      CloseAndUnlink(sid, path);
    }

    /** The verify commands, all of them: which failed, or that an exec raised, and after how many. */
    method RunVerify(sid: string, path: string, verify: seq<string>, outcomes: seq<Outcome>)
      returns (failures: seq<string>, raised: bool, ghost ran: nat)
      requires Valid() && call == Finishing(sid, path) && |outcomes| == |verify| && path in objs && path in logs
      modifies `containers, `logs, `objs, `call, `interrupted, `overflow, `past
      ensures Valid() && old(past) <= past && call == Finishing(sid, path) && Grown(old(overflow), overflow)
      ensures path in objs && objs[path] == old(objs)[path].(seqNo := objs[path].seqNo) && objs.Keys == old(objs).Keys
      ensures ran <= |verify| && (forall j :: 0 <= j < ran ==> outcomes[j].Exited?)
      ensures Told(old(logs), logs, path, Entries(VerifyCommand, verify[..ran], outcomes[..ran]))
      ensures raised <==> ran < |verify|
      ensures raised ==> if old(CanExec(path)) then outcomes[ran].ApiError? else ran == 0
      ensures !raised ==> failures == FailedCommands(verify, outcomes)
      ensures !raised && verify != [] ==> old(CanExec(path))
      ensures logs.Keys == old(logs).Keys && containers.Keys == old(containers).Keys
    {
      hide Valid, Story, Told, SameObjs, AddRun, FailedCommands, Entries, Recorded, ResultData, Grown, CanExec;
      ToldNone(logs, path);
      NoEntries(VerifyCommand);
      NotGrown(overflow);
      failures, ran := [], 0;
      for i := 0 to |verify|
        invariant ran == i
        invariant Valid() && old(past) <= past && call == Finishing(sid, path) && objs.Keys == old(objs).Keys
        invariant path in objs && path in logs && objs[path] == old(objs)[path].(seqNo := objs[path].seqNo)
        invariant forall j :: 0 <= j < i ==> outcomes[j].Exited?
        invariant i > 0 ==> old(CanExec(path))
        invariant old(CanExec(path)) <==> CanExec(path)
        invariant failures == FailedCommands(verify[..i], outcomes[..i])
        invariant Told(old(logs), logs, path, Entries(VerifyCommand, verify[..i], outcomes[..i]))
        invariant logs.Keys == old(logs).Keys && containers.Keys == old(containers).Keys
        invariant Grown(old(overflow), overflow)
      {
        ghost var logs1, files1 := logs, overflow;
        var ok := RunCommand(path, VerifyCommand, verify[i], outcomes[i]);
        GrownThen(old(overflow), files1, overflow);
        ToldThen(old(logs), logs1, logs, path, Entries(VerifyCommand, verify[..i], outcomes[..i]),
                 if ok then [(VerifyCommand, Recorded(verify[i], outcomes[i]))] else []);
        if !ok {
          assert Entries(VerifyCommand, verify[..i], outcomes[..i]) + [] ==
                 Entries(VerifyCommand, verify[..i], outcomes[..i]);
          return failures, true, i;
        }
        if outcomes[i].code != 0 {
          failures := failures + [verify[i]];
        }
        EntriesSnoc(VerifyCommand, verify, outcomes, i);
        ran := i + 1;
      }
      assert verify[..|verify|] == verify && outcomes[..|verify|] == outcomes;
      return failures, false, |verify|;
    }

    /** Everything the session had is gone, but for images it no longer knows of; no other container went. */
    twostate predicate Ended(sid: string)
      requires sid in old(table)
      reads this
    {
      var path := old(table)[sid];
      && table == old(table) - {sid} && descs == old(descs) - {sid} && path !in objs && path in old(objs)
      && images == old(images) - old(objs)[path].snaps
      && containers.Keys == WithoutContainer(old(Now()), old(objs)[path].cont).Keys
    }

    /**
     * Verify, the final event, teardown. A failing run is told apart from one
     * where the agent did nothing by its log: no agent command was ever recorded.
     * An exec that raises leaves the entries before it, and no final event.
     */
    method FinishTask(sid: string, verify: seq<string>, outcomes: seq<Outcome>)
      returns (r: Reply<Report>, ghost ran: nat)
      requires Valid() && call == Idle && |outcomes| == |verify|
      modifies `containers, `images, `logs, `descs, `objs, `table, `call, `interrupted, `overflow, `past
      ensures Valid() && call == Idle && old(past) <= past
      ensures r.UnknownSession? <==> sid !in old(table)
      ensures r.Done? <==>
        sid in old(table) && (forall i :: 0 <= i < |verify| ==> outcomes[i].Exited?) &&
        (verify == [] || old(CanExec(table[sid])))
      ensures sid in old(table) ==> Ended(sid)
      ensures r.Done? ==>
        var path := old(table)[sid];
        path in old(logs) &&
        var passed := FailedCommands(verify, outcomes) == [];
        Told(old(logs), logs, path,
             Entries(VerifyCommand, verify, outcomes) +
             [(RunFinished, FinishData(if passed then PASSED else FAILED, LoggedReason(r.value.reason)))]) &&
        (passed <==> forall i :: 0 <= i < |outcomes| ==> outcomes[i].code == 0) &&
        r.value.status == (if passed then PASSED else FAILED) &&
        r.value.path == path && r.value.containerId == old(objs)[path].cont &&
        (r.value.reason.AllPassed? <==> passed) &&
        (r.value.reason.NoAgentActivity? <==> !passed && CountAgent(old(logs)[path]) == 0) &&
        (r.value.reason.VerifyFailed? ==> r.value.reason.cmds == FailedCommands(verify, outcomes))
      ensures r.Failed? ==>
        ran < |verify| && (forall j :: 0 <= j < ran ==> outcomes[j].Exited?) &&
        (if old(CanExec(table[sid])) then outcomes[ran].ApiError? else ran == 0) &&
        Told(old(logs), logs, old(table)[sid], Entries(VerifyCommand, verify[..ran], outcomes[..ran]))
    {
      hide Valid, Story, Told, SameObjs, FailedCommands, Entries, CountAgent, FinishData, LoggedReason, CanExec;
      if sid !in table {
        return UnknownSession, 0;
      }
      ListedInDict();
      var path := table[sid];
      PopSession(sid);
      r, ran := VerifyAndEnd(sid, path, verify, outcomes);
      if r.Done? {
        NoneFailed(verify, outcomes);
      }
    }

    /** The verify commands, and then one of two ends. */
    method VerifyAndEnd(sid: string, path: string, verify: seq<string>, outcomes: seq<Outcome>)
      returns (r: Reply<Report>, ghost ran: nat)
      requires Valid() && call == Finishing(sid, path) && |outcomes| == |verify| && path in objs && path in logs
      modifies `containers, `images, `logs, `descs, `objs, `call, `interrupted, `overflow, `past
      ensures Valid() && call == Idle && old(past) <= past && !r.UnknownSession?
      ensures r.Done? <==>
        (forall i :: 0 <= i < |verify| ==> outcomes[i].Exited?) && (verify == [] || old(CanExec(path)))
      ensures descs == old(descs) - {sid} && path !in objs && images == old(images) - old(objs)[path].snaps
      ensures containers.Keys == WithoutContainer(old(Now()), old(objs)[path].cont).Keys
      ensures r.Done? ==>
        r.value == Report(if FailedCommands(verify, outcomes) == [] then PASSED else FAILED,
                          if FailedCommands(verify, outcomes) == [] then AllPassed
                          else if old(objs)[path].count == 0 then NoAgentActivity
                          else VerifyFailed(FailedCommands(verify, outcomes)),
                          path, old(objs)[path].cont) &&
        Told(old(logs), logs, path,
             Entries(VerifyCommand, verify, outcomes) +
             [(RunFinished, FinishData(r.value.status, LoggedReason(r.value.reason)))])
      ensures r.Failed? ==>
        ran < |verify| && (forall j :: 0 <= j < ran ==> outcomes[j].Exited?) &&
        (if old(CanExec(path)) then outcomes[ran].ApiError? else ran == 0) &&
        Told(old(logs), logs, path, Entries(VerifyCommand, verify[..ran], outcomes[..ran]))
    {
      hide Valid, Story, Told, SameObjs, FailedCommands, Entries, FinishData, LoggedReason, Grown, CanExec;
      var failures, raised;
      failures, raised, ran := RunVerify(sid, path, verify, outcomes);
      ghost var logs1, entries := logs, Entries(VerifyCommand, verify[..ran], outcomes[..ran]);
      if raised {
        TearDown(sid, path);
        ToldThen(old(logs), logs1, logs, path, entries, []);
        assert entries + [] == entries;
        return Failed, ran;
      }
      assert verify[..ran] == verify && outcomes[..ran] == outcomes;
      var report := Judge(sid, path, failures);
      ToldThen(old(logs), logs1, logs, path, entries,
               [(RunFinished, FinishData(report.status, LoggedReason(report.reason)))]);
      return Done(report), ran;
    }

    /** All verify commands ran: the verdict, the final event, teardown. */
    method Judge(sid: string, path: string, failures: seq<string>) returns (report: Report)
      requires Valid() && call == Finishing(sid, path) && path in objs && path in logs
      modifies `containers, `images, `logs, `descs, `objs, `call, `past
      ensures Valid() && old(past) <= past && call == Idle
      ensures containers == WithoutContainer(old(Now()), old(objs)[path].cont)
      ensures images == old(images) - old(objs)[path].snaps
      ensures descs == old(descs) - {sid} && objs.Keys == old(objs).Keys - {path}
      ensures report == Report(if failures == [] then PASSED else FAILED,
                               if failures == [] then AllPassed
                               else if old(objs)[path].count == 0 then NoAgentActivity
                               else VerifyFailed(failures),
                               path, old(objs)[path].cont)
      ensures Told(old(logs), logs, path, [(RunFinished, FinishData(report.status, LoggedReason(report.reason)))])
    {
      hide Valid, Story, Told, SameObjs, FinishData, LoggedReason, WithoutContainer;
      var status := if failures == [] then PASSED else FAILED;
      var reason := if failures == [] then AllPassed
                    else if objs[path].count == 0 then NoAgentActivity
                    else VerifyFailed(failures);
      report := Report(status, reason, path, objs[path].cont);
      Conclude(sid, path, status, LoggedReason(reason));
    }

    /** The final event, then teardown. */
    method Conclude(sid: string, path: string, result: string, reason: string)
      requires Valid() && call == Finishing(sid, path) && path in objs && path in logs
      modifies `containers, `images, `logs, `descs, `objs, `call, `past
      ensures Valid() && old(past) <= past && call == Idle
      ensures containers == WithoutContainer(old(Now()), old(objs)[path].cont)
      ensures images == old(images) - old(objs)[path].snaps
      ensures descs == old(descs) - {sid} && objs.Keys == old(objs).Keys - {path}
      ensures Told(old(logs), logs, path, [(RunFinished, FinishData(result, reason))])
    {
      hide Valid, Story, Told, SameObjs, FinishData;
      WriteEvent(path, RunFinished, FinishData(result, reason));
      SameAt(old(objs), objs, path);
      SameKeys(old(objs), objs);
      ghost var logs1 := logs;
      TearDown(sid, path);
      ToldThen(old(logs), logs1, logs, path, [(RunFinished, FinishData(result, reason))], []);
      assert [(RunFinished, FinishData(result, reason))] + [] == [(RunFinished, FinishData(result, reason))];
    }

    method AbortTask(sid: string) returns (r: Reply<()>)
      requires Valid() && call == Idle
      modifies `containers, `images, `logs, `descs, `objs, `table, `call, `past
      ensures Valid() && call == Idle && old(past) <= past
      ensures r == if sid in old(table) then Done(()) else UnknownSession
      ensures r.Done? ==>
        var path := old(table)[sid];
        Ended(sid) && containers == WithoutContainer(old(Now()), old(objs)[path].cont) &&
        Told(old(logs), logs, path, [(RunFinished, FinishData(ERROR, "aborted by agent"))])
    {
      hide Valid, Story, Told, SameObjs, FinishData;
      if sid !in table {
        return UnknownSession;
      }
      ListedInDict();
      var path := table[sid];
      PopSession(sid);
      Conclude(sid, path, ERROR, "aborted by agent");
      return Done(());
    }

    // --- crash and restart

    /** The server process dies; Docker and the disk stay as they are. */
    method Die()
      requires Valid() && !call.Down?
      modifies `objs, `table, `call, `interrupted, `past
      ensures Valid() && past == old(past) + [Crash] && call == Down && objs == map[] && table == map[]
    {
      hide After, Enabled, Apply;
      ghost var before := Now();
      CrashStep(before);
      objs, table := map[], map[];
      interrupted := interrupted + if call.Running? then 1 else 0;
      call := Down;
      Took(Crash, before);
    }

    method DropFile(sid: string)
      requires Valid() && call.Booting? && sid in call.todo && sid in descs
      modifies `descs, `call, `past
      ensures Valid() && past == old(past) + [BootDrop(sid)]
      ensures descs == old(descs) - {sid} && call == Booting(old(call).todo - {sid})
    {
      hide After, Enabled, Apply;
      ghost var before := Now();
      BootDropStep(before, sid);
      descs := descs - {sid};
      call := Booting(call.todo - {sid});
      Took(BootDrop(sid), before);
    }

    /** Sandbox.attach, TrajectoryWriter.open and the recovered counter. */
    method Resume(sid: string)
      requires Valid() && call.Booting? && sid in call.todo && CanResume(descs, containers, sid)
      requires descs[sid].path in logs
      modifies `objs, `table, `call, `past
      ensures Valid() && past == old(past) + [BootResume(sid)] && call == Booting(old(call).todo - {sid})
      ensures table == old(table)[sid := descs[sid].path]
      ensures objs == old(objs)[descs[sid].path := Resumed(descs[sid], logs[descs[sid].path])]
    {
      hide After, Enabled, Apply;
      ghost var before := Now();
      BootResumeStep(before, sid);
      var d := descs[sid];
      objs := objs[d.path := Resumed(d, logs[d.path])];
      table := table[sid := d.path];
      call := Booting(call.todo - {sid});
      Took(BootResume(sid), before);
    }

    method BeginBoot()
      requires Valid() && call.Down?
      modifies `call, `past
      ensures Valid() && past == old(past) + [Boot] && call == Booting(descs.Keys)
    {
      hide After, Enabled, Apply;
      ghost var before := Now();
      BootStep(before);
      call := Booting(descs.Keys);
      Took(Boot, before);
    }

    method EndBoot()
      requires Valid() && call == Booting({})
      modifies `call, `past
      ensures Valid() && past == old(past) + [BootDone] && call == Idle
    {
      hide After, Enabled, Apply;
      ghost var before := Now();
      BootDoneStep(before);
      call := Idle;
      Took(BootDone, before);
    }

    lemma BootFacts()
      requires Valid()
      ensures forall sid :: sid in descs && descs[sid].Desc? ==> descs[sid].path in logs
      ensures forall a, b :: a in descs && b in descs && descs[a].Desc? && descs[b].Desc? && a != b ==>
        descs[a].path != descs[b].path
      ensures call.Down? ==> objs == map[] && table == map[]
    {
      hide After;
      AlwaysBootable(past, Now());
    }

    /**
     * Reads the session files back: exactly those whose session is unrestricted,
     * whose container still exists and lets itself be attached come back, each
     * as its file and its log say; every other file is removed.
     */
    method Rehydrate(refused: set<string>)
      requires Valid() && call == Down
      modifies `descs, `objs, `table, `call, `past
      ensures Valid() && call == Idle && old(past) <= past
      ensures forall sid :: sid in table <==>
        sid in old(descs) && old(descs)[sid].Desc? && !old(descs)[sid].restricted &&
        old(descs)[sid].cid in containers && sid !in refused
      ensures descs == map sid | sid in old(descs) && sid in table :: old(descs)[sid]
      ensures forall sid :: sid in table ==>
        var p := table[sid];
        p == old(descs)[sid].path && p in logs && p in objs &&
        objs[p] == Session(false, Some(old(descs)[sid].cid), {}, |logs[p]|, CountAgent(logs[p]))
    {
      ReadBack(refused);
      hide Valid, Booted, Back, CountAgent, RecoverNext;
      forall sid | sid in table
        ensures var p := table[sid];
          p == old(descs)[sid].path && p in logs && p in objs &&
          objs[p] == Session(false, Some(old(descs)[sid].cid), {}, |logs[p]|, CountAgent(logs[p]))
      {
        BackInFull(old(descs), logs, objs, table, sid);
        WritesOn(table[sid]);
      }
    }

    lemma WritesOn(path: string)
      requires Valid() && path in objs
      ensures path in logs && objs[path].seqNo == |logs[path]|
    {
      hide After;
      IsReachable(past, Now());
      SessionsMatchTheirLogs(Now(), path);
    }

    /** The loop over the session files. */
    method ReadBack(refused: set<string>)
      requires Valid() && call == Down
      modifies `descs, `objs, `table, `call, `past
      ensures Valid() && call == Idle && old(past) <= past
      ensures forall sid :: sid in table <==> CanResume(old(descs), containers, sid) && sid !in refused
      ensures descs == map sid | sid in old(descs) && sid in table :: old(descs)[sid]
      ensures forall sid :: sid in table ==> Back(old(descs), logs, objs, table, sid)
    {
      hide Valid, Resumed, Booted, CanResume, Back;
      BootFacts();
      BeginBoot();
      BootedNone(descs, containers, refused, logs);
      var todo := descs.Keys;
      while todo != {}
        invariant Valid() && call == Booting(todo) && old(past) <= past
        invariant Booted(old(descs), containers, refused, logs, todo, descs, objs, table)
        decreases |todo|
      {
        var sid :| sid in todo;
        BootedFile(old(descs), containers, refused, logs, todo, descs, objs, table, sid);
        if !CanResume(descs, containers, sid) || sid in refused {
          BootedDrop(old(descs), containers, refused, logs, todo, descs, objs, table, sid);
          DropFile(sid);
        } else {
          BootedResume(old(descs), containers, refused, logs, todo, descs, objs, table, sid);
          Resume(sid);
        }
        todo := todo - {sid};
      }
      EndBoot();
      BootedAll(old(descs), containers, refused, logs, descs, objs, table);
    }

    // --- prehnite reap

    /** _cmd_reap, with Docker answering every listing and removal. */
    method ReapOrphans()
      requires Valid() && (call == Idle || call == Down)
      modifies `containers, `images, `past
      ensures Valid() && past == old(past) + [Reap]
      ensures containers == map c | c in old(containers) && KeepsContainer(descs, c) :: old(containers)[c]
      ensures images == map i | i in old(images) && KeepsImage(descs, old(images)[i]) :: old(images)[i]
    {
      hide After, Enabled, Apply, KeepsContainer, KeepsImage;
      ghost var before := Now();
      ReapStep(before);
      var liveContainers, liveSessions := CollectLive();
      RemoveOrphanContainers(liveContainers);
      RemoveOrphanImages(liveSessions);
      Took(Reap, before);
    }

    method RemoveOrphanContainers(live: set<string>)
      requires live == LiveContainers(descs)
      modifies `containers
      ensures containers == map c | c in old(containers) && KeepsContainer(descs, c) :: old(containers)[c]
    {
      hide LiveContainers, ShortId;
      var todo := containers.Keys;
      while todo != {}
        invariant todo <= containers.Keys <= old(containers).Keys
        invariant forall c :: c in containers ==> containers[c] == old(containers)[c]
        invariant forall c :: c in old(containers) ==> (c in containers <==> c in todo || KeepsContainer(descs, c))
        decreases |todo|
      {
        var c :| c in todo;
        if ShortId(c) !in live && c !in live {
          containers := containers - {c};
        }
        todo := todo - {c};
      }
      assert containers == map c | c in old(containers) && KeepsContainer(descs, c) :: old(containers)[c];
    }

    method RemoveOrphanImages(live: set<string>)
      requires live == LiveSessions(descs)
      modifies `images
      ensures images == map i | i in old(images) && KeepsImage(descs, old(images)[i]) :: old(images)[i]
    {
      hide LiveSessions;
      var todo := images.Keys;
      while todo != {}
        invariant todo <= images.Keys <= old(images).Keys
        invariant forall i :: i in images ==> images[i] == old(images)[i]
        invariant forall i :: i in old(images) ==> (i in images <==> i in todo || KeepsImage(descs, old(images)[i]))
        decreases |todo|
      {
        var i :| i in todo;
        if images[i].owner == "" || images[i].owner !in live {
          images := images - {i};
        }
        todo := todo - {i};
      }
      assert images == map i | i in old(images) && KeepsImage(descs, old(images)[i]) :: old(images)[i];
    }

    /** _live_session_container_ids and _live_session_ids: unreadable files are skipped. */
    method CollectLive() returns (cids: set<string>, sids: set<string>)
      ensures cids == LiveContainers(descs) && sids == LiveSessions(descs)
    {
      cids, sids := {}, {};
      var todo := descs.Keys;
      while todo != {}
        invariant todo <= descs.Keys
        invariant cids == set sid | sid in descs && sid !in todo && descs[sid].Desc? :: descs[sid].cid
        invariant sids == set sid | sid in descs && sid !in todo && descs[sid].Desc?
        decreases |todo|
      {
        var sid :| sid in todo;
        if descs[sid].Desc? {
          cids, sids := cids + {descs[sid].cid}, sids + {sid};
        }
        todo := todo - {sid};
      }
    }
  }
}
