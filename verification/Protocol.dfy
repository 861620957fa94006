/**
 * The session protocol as a state machine over one host: the Docker daemon,
 * the files on disk, and the server process that may die between any two steps.
 * Every tool call is a sequence of these steps; proxy threads write in between.
 */
module Protocol {
  import opened Events
  import opened Branch

  /** One command run in a container, and the log line it got, if it got one. */
  datatype Ran = Ran(cmd: string, event: Option<Event>)

  datatype Container = Container(hist: seq<Ran>, running: bool)

  /** A snapshot image; `owner` is its session label ("" when it has none). */
  datatype Image = Image(hist: seq<Ran>, owner: string)

  /** A session file. Rewriting truncates it first, so a crash can leave it malformed. */
  datatype Descriptor = Malformed | Desc(path: string, restricted: bool, cid: string)

  /** A session object in the server's memory: sandbox, writer and counter. */
  datatype Session = Session(restricted: bool, cont: Option<string>, snaps: set<string>, seqNo: nat, count: nat)

  /** How far the one tool call in progress has come. */
  datatype Call =
    | Idle
    | Down
    | Booting(todo: set<string>)
    | Starting(path: string)
    | Running(path: string, cmd: string, after: Call)
    | Saving(sid: string, path: string)
    | Forking(sid: string, path: string, snap: string)
    | Reverting(sid: string, path: string, snap: string, previous: Option<string>, prior: Option<string>)
    | Swapped(sid: string, path: string, snap: string, previous: Option<string>)
    | Finishing(sid: string, path: string)
    | Stopped(sid: string, path: string)

  datatype World = World(
    containers: map<string, Container>,
    images: map<string, Image>,
    logs: map<string, seq<Event>>,
    descs: map<string, Descriptor>,
    objs: map<string, Session>,      // live session objects, by log path
    table: map<string, string>,      // the sessions dict: session id to object
    call: Call,
    issued: set<string>,             // every id and path handed out so far
    interrupted: nat)                // commands whose log line was lost

  const INIT := World(map[], map[], map[], map[], map[], map[], Down, {}, 0)

  datatype Action =
    | Crash
    | Boot
    | BootDrop(sid: string)
    | BootResume(sid: string)
    | BootDone
    | OpenLog(path: string, restricted: bool)
    | CreateContainer(cid: string)
    | StartFailed
    | StartAbandoned
    | Register(sid: string)
    | BreakDescriptor
    | WriteDescriptor
    | Run(path: string, cmd: string)
    | LogRun(data: Data)
    | RunFails(path: string, cmd: string, applied: bool)
    | Write(path: string, kind: EventType, data: Data)
    | Commit(sid: string, snap: string)
    | LogFork
    | Detach(sid: string, snap: string)
    | RemoveOld
    | Restore(cid: string)
    | RevertFails
    | LogRevert
    | Pop(sid: string)
    | RemoveLast
    | RemoveImage(snap: string)
    | Unlink
    | ContainerStops(cid: string)
    | Foreign(cid: string)
    | ForeignImage(snap: string, owner: string)
    | Reap

  // ---------------------------------------------------------------------
  // Steps
  // ---------------------------------------------------------------------

  predicate Fresh(w: World, id: string) {
    id != "" && id !in w.issued
  }

  /** The running tool call may exec and log in the session at `path`. */
  predicate Active(objs: map<string, Session>, table: map<string, string>, call: Call, path: string) {
    path in objs &&
    match call
    case Idle => path in table.Values
    case Starting(p) => p == path
    case Finishing(_, p) => p == path
    case _ => false
  }

  function ForkData(snap: string, cid: string): Data {
    map["snapshot_id" := Text(snap), "container_id" := Text(cid)]
  }

  function OrNull(id: Option<string>): Value {
    match id
    case Some(s) => Text(s)
    case None => Null
  }

  function RevertData(snap: string, previous: Option<string>, cid: string): Data {
    map["snapshot_id" := Text(snap), "previous_container_id" := OrNull(previous), "new_container_id" := Text(cid)]
  }

  function RunKind(after: Call): EventType {
    match after
    case Starting(_) => SetupCommand
    case Finishing(_, _) => VerifyCommand
    case _ => AgentCommand
  }

  function ShortId(cid: string): string {
    if |cid| <= 12 then cid else cid[..12]
  }

  /** Container ids named by a readable session file. */
  function LiveContainers(descs: map<string, Descriptor>): set<string> {
    set sid | sid in descs && descs[sid].Desc? :: descs[sid].cid
  }

  function LiveSessions(descs: map<string, Descriptor>): set<string> {
    set sid | sid in descs && descs[sid].Desc?
  }

  predicate KeepsContainer(descs: map<string, Descriptor>, cid: string) {
    ShortId(cid) in LiveContainers(descs) || cid in LiveContainers(descs)
  }

  predicate KeepsImage(descs: map<string, Descriptor>, image: Image) {
    image.owner != "" && image.owner in LiveSessions(descs)
  }

  predicate Enabled(w: World, a: Action) {
    match a
    case Crash => !w.call.Down?
    case Boot => w.call.Down?
    case BootDrop(sid) => w.call.Booting? && sid in w.call.todo && sid in w.descs
    case BootResume(sid) =>
      w.call.Booting? && sid in w.call.todo && sid in w.descs && w.descs[sid].Desc? &&
      !w.descs[sid].restricted && w.descs[sid].cid in w.containers && w.descs[sid].path in w.logs
    case BootDone => w.call.Booting? && w.call.todo == {}
    case OpenLog(path, _) => w.call.Idle? && Fresh(w, path)
    case CreateContainer(cid) =>
      w.call.Starting? && w.call.path in w.objs && w.objs[w.call.path].cont.None? && Fresh(w, cid)
    case StartFailed => w.call.Starting? && w.call.path in w.objs
    case StartAbandoned => w.call.Starting?
    case Register(sid) =>
      w.call.Starting? && w.call.path in w.objs && w.objs[w.call.path].cont.Some? && Fresh(w, sid)
    case BreakDescriptor => w.call.Saving?
    case WriteDescriptor => w.call.Saving? && w.call.path in w.objs && w.objs[w.call.path].cont.Some?
    case Run(path, _) =>
      Active(w.objs, w.table, w.call, path) && w.objs[path].cont.Some? &&
      w.objs[path].cont.value in w.containers && w.containers[w.objs[path].cont.value].running
    case LogRun(_) =>
      w.call.Running? && w.call.path in w.objs && w.call.path in w.logs && w.objs[w.call.path].cont.Some? &&
      w.objs[w.call.path].cont.value in w.containers && w.containers[w.objs[w.call.path].cont.value].hist != []
    case RunFails(path, _, applied) =>
      Active(w.objs, w.table, w.call, path) &&
      (applied ==> w.objs[path].cont.Some? && w.objs[path].cont.value in w.containers)
    case Write(path, kind, _) =>
      path in w.objs && path in w.logs &&
      ((kind == EgressAttempt && w.objs[path].restricted) ||
       (kind in {RunStarted, AgentThought, RunFinished} && Active(w.objs, w.table, w.call, path)))
    case Commit(sid, snap) =>
      w.call.Idle? && sid in w.table && w.table[sid] in w.objs && w.objs[w.table[sid]].cont.Some? &&
      w.objs[w.table[sid]].cont.value in w.containers && Fresh(w, snap)
    case LogFork =>
      w.call.Forking? && w.call.path in w.objs && w.call.path in w.logs && w.objs[w.call.path].cont.Some?
    case Detach(sid, snap) =>
      w.call.Idle? && sid in w.table && w.table[sid] in w.objs && snap in w.objs[w.table[sid]].snaps
    case RemoveOld => w.call.Reverting? && w.call.prior.Some?
    case Restore(cid) =>
      w.call.Reverting? && w.call.prior.None? && w.call.path in w.objs && w.call.snap in w.images && Fresh(w, cid)
    case RevertFails => w.call.Reverting? && w.call.prior.None?
    case LogRevert =>
      w.call.Swapped? && w.call.path in w.objs && w.call.path in w.logs && w.objs[w.call.path].cont.Some?
    case Pop(sid) => w.call.Idle? && sid in w.table
    case RemoveLast => w.call.Finishing? && w.call.path in w.objs
    case RemoveImage(snap) =>
      w.call.Stopped? && w.call.path in w.objs && snap in w.objs[w.call.path].snaps
    case Unlink => w.call.Stopped? && w.call.path in w.objs && w.objs[w.call.path].snaps == {}
    case ContainerStops(cid) => cid in w.containers
    case Foreign(cid) => Fresh(w, cid)
    case ForeignImage(snap, _) => Fresh(w, snap)
    case Reap => w.call.Idle? || w.call.Down?
  }

  // What each step does, one part of the world at a time: a step that a part
  // does not list leaves that part alone.

  /** The log a step appends to, and the event it appends. */
  function Appended(w: World, a: Action): Option<(string, Event)>
    requires Enabled(w, a)
  {
    match a
    case LogRun(data) =>
      Some((w.call.path, Event(w.objs[w.call.path].seqNo, RunKind(w.call.after), data)))
    case Write(path, kind, data) => Some((path, Event(w.objs[path].seqNo, kind, data)))
    case LogFork =>
      Some((w.call.path, Event(w.objs[w.call.path].seqNo, SessionForked,
                               ForkData(w.call.snap, w.objs[w.call.path].cont.value))))
    case LogRevert =>
      Some((w.call.path, Event(w.objs[w.call.path].seqNo, SessionReverted,
                               RevertData(w.call.snap, w.call.previous, w.objs[w.call.path].cont.value))))
    case _ => None
  }

  function NextLogs(w: World, a: Action): map<string, seq<Event>>
    requires Enabled(w, a)
  {
    match Appended(w, a)
    case Some((path, e)) => w.logs[path := w.logs[path] + [e]]
    case None => if a.OpenLog? then w.logs[a.path := []] else w.logs
  }

  function NextContainers(w: World, a: Action): map<string, Container>
    requires Enabled(w, a)
  {
    match a
    case CreateContainer(cid) => w.containers[cid := Container([], true)]
    case Foreign(cid) => w.containers[cid := Container([], true)]
    case Run(path, cmd) => AddRun(w, w.objs[path].cont.value, cmd)
    case RunFails(path, cmd, applied) => if applied then AddRun(w, w.objs[path].cont.value, cmd) else w.containers
    case LogRun(_) =>
      // the newest command gets its log line
      var cid := w.objs[w.call.path].cont.value;
      var c := w.containers[cid];
      var r := Ran(w.call.cmd, Some(Appended(w, a).value.1));
      w.containers[cid := c.(hist := c.hist[..|c.hist| - 1] + [r])]
    case Restore(cid) => w.containers[cid := Container(w.images[w.call.snap].hist, true)]
    case StartFailed => WithoutContainer(w, w.objs[w.call.path].cont)
    case RemoveLast => WithoutContainer(w, w.objs[w.call.path].cont)
    case RemoveOld => WithoutContainer(w, w.call.prior)
    case ContainerStops(cid) => w.containers[cid := w.containers[cid].(running := false)]
    case Reap => map c | c in w.containers && KeepsContainer(w.descs, c) :: w.containers[c]
    case _ => w.containers
  }

  function AddRun(w: World, cid: string, cmd: string): map<string, Container>
    requires cid in w.containers
  {
    w.containers[cid := w.containers[cid].(hist := w.containers[cid].hist + [Ran(cmd, None)])]
  }

  function WithoutContainer(w: World, cont: Option<string>): map<string, Container> {
    if cont.Some? then w.containers - {cont.value} else w.containers
  }

  function NextImages(w: World, a: Action): map<string, Image>
    requires Enabled(w, a)
  {
    match a
    case Commit(sid, snap) =>
      w.images[snap := Image(w.containers[w.objs[w.table[sid]].cont.value].hist, sid)]
    case ForeignImage(snap, owner) => w.images[snap := Image([], owner)]
    case RemoveImage(snap) => w.images - {snap}
    case Reap => map i | i in w.images && KeepsImage(w.descs, w.images[i]) :: w.images[i]
    case _ => w.images
  }

  function NextDescs(w: World, a: Action): map<string, Descriptor>
    requires Enabled(w, a)
  {
    match a
    case BreakDescriptor => w.descs[w.call.sid := Malformed]
    case WriteDescriptor =>
      var o := w.objs[w.call.path];
      w.descs[w.call.sid := Desc(w.call.path, o.restricted, o.cont.value)]
    case BootDrop(sid) => w.descs - {sid}
    case Unlink => w.descs - {w.call.sid}
    case _ => w.descs
  }

  function NextObjs(w: World, a: Action): map<string, Session>
    requires Enabled(w, a)
  {
    match a
    case Crash => map[]
    case BootResume(sid) =>
      var d := w.descs[sid];
      var log := w.logs[d.path];
      w.objs[d.path := Session(false, Some(d.cid), {}, RecoverNext(log), CountAgent(log))]
    case OpenLog(path, restricted) => w.objs[path := Session(restricted, None, {}, 0, 0)]
    case CreateContainer(cid) => w.objs[w.call.path := w.objs[w.call.path].(cont := Some(cid))]
    case Restore(cid) => w.objs[w.call.path := w.objs[w.call.path].(cont := Some(cid))]
    case StartFailed => w.objs - {w.call.path}
    case StartAbandoned => w.objs - {w.call.path}
    case Unlink => w.objs - {w.call.path}
    case LogRun(_) => w.objs[w.call.path := Wrote(w.objs[w.call.path], RunKind(w.call.after))]
    case Write(path, kind, _) => w.objs[path := Wrote(w.objs[path], kind)]
    case LogFork => w.objs[w.call.path := Wrote(w.objs[w.call.path], SessionForked)]
    case LogRevert => w.objs[w.call.path := Wrote(w.objs[w.call.path], SessionReverted)]
    case Commit(sid, snap) =>
      var o := w.objs[w.table[sid]];
      w.objs[w.table[sid] := o.(snaps := o.snaps + {snap})]
    case RemoveImage(snap) =>
      var o := w.objs[w.call.path];
      w.objs[w.call.path := o.(snaps := o.snaps - {snap})]
    case Detach(sid, _) => w.objs[w.table[sid] := w.objs[w.table[sid]].(cont := None)]
    case RemoveLast => w.objs[w.call.path := w.objs[w.call.path].(cont := None)]
    case _ => w.objs
  }

  /** The writer moves on to the next number; the server counts agent commands. */
  function Wrote(o: Session, kind: EventType): Session {
    o.(seqNo := o.seqNo + 1, count := o.count + if kind == AgentCommand then 1 else 0)
  }

  function NextTable(w: World, a: Action): map<string, string>
    requires Enabled(w, a)
  {
    match a
    case Crash => map[]
    case BootResume(sid) => w.table[sid := w.descs[sid].path]
    case Register(sid) => w.table[sid := w.call.path]
    case Pop(sid) => w.table - {sid}
    case _ => w.table
  }

  function NextCall(w: World, a: Action): Call
    requires Enabled(w, a)
  {
    match a
    case Crash => Down
    case Boot => Booting(w.descs.Keys)
    case BootDrop(sid) => Booting(w.call.todo - {sid})
    case BootResume(sid) => Booting(w.call.todo - {sid})
    case BootDone => Idle
    case OpenLog(path, _) => Starting(path)
    case StartFailed => Idle
    case StartAbandoned => Idle
    case Register(sid) => Saving(sid, w.call.path)
    case WriteDescriptor => Idle
    case Run(path, cmd) => Running(path, cmd, w.call)
    case LogRun(_) => w.call.after
    case Commit(sid, snap) => Forking(sid, w.table[sid], snap)
    case LogFork => Idle
    case Detach(sid, snap) =>
      var cont := w.objs[w.table[sid]].cont;
      Reverting(sid, w.table[sid], snap, cont, cont)
    case RemoveOld => w.call.(prior := None)
    case Restore(_) => Swapped(w.call.sid, w.call.path, w.call.snap, w.call.previous)
    case RevertFails => Idle
    case LogRevert => Saving(w.call.sid, w.call.path)
    case Pop(sid) => Finishing(sid, w.table[sid])
    case RemoveLast => Stopped(w.call.sid, w.call.path)
    case Unlink => Idle
    case _ => w.call
  }

  function NextIssued(w: World, a: Action): set<string> {
    w.issued +
    match a
    case OpenLog(path, _) => {path}
    case CreateContainer(cid) => {cid}
    case Restore(cid) => {cid}
    case Foreign(cid) => {cid}
    case Register(sid) => {sid}
    case Commit(_, snap) => {snap}
    case ForeignImage(snap, _) => {snap}
    case _ => {}
  }

  function NextInterrupted(w: World, a: Action): nat {
    w.interrupted +
    if a.Crash? && w.call.Running? then 1
    else if a.RunFails? && a.applied then 1
    else 0
  }

  function Apply(w: World, a: Action): World
    requires Enabled(w, a)
  {
    World(NextContainers(w, a), NextImages(w, a), NextLogs(w, a), NextDescs(w, a), NextObjs(w, a),
          NextTable(w, a), NextCall(w, a), NextIssued(w, a), NextInterrupted(w, a))
  }

  /** The next sequence number a reopened writer takes from the last line. */
  function RecoverNext(log: seq<Event>): nat {
    if log == [] then 0 else log[|log| - 1].seqNo + 1
  }

  /** The world after `actions`, if each was possible in turn. */
  function After(actions: seq<Action>): Option<World> {
    if actions == [] then Some(INIT)
    else
      var before := After(actions[..|actions| - 1]);
      var a := actions[|actions| - 1];
      if before.Some? && Enabled(before.value, a) then Some(Apply(before.value, a)) else None
  }
}
