/** The same steps, one at a time: when each is possible, and all that it changes. */
module Effects {
  import opened Events
  import opened Protocol

  lemma CrashStep(w: World)
    requires !w.call.Down?
    ensures Enabled(w, Crash)
    ensures Apply(w, Crash) == w.(objs := map[], table := map[], call := Down,
                                  interrupted := w.interrupted + if w.call.Running? then 1 else 0)
  {
  }

  lemma BootStep(w: World)
    requires w.call.Down?
    ensures Enabled(w, Boot) && Apply(w, Boot) == w.(call := Booting(w.descs.Keys))
  {
  }

  lemma BootDropStep(w: World, sid: string)
    requires w.call.Booting? && sid in w.call.todo && sid in w.descs
    ensures Enabled(w, BootDrop(sid))
    ensures Apply(w, BootDrop(sid)) == w.(descs := w.descs - {sid}, call := Booting(w.call.todo - {sid}))
  {
  }

  lemma BootResumeStep(w: World, sid: string)
    requires w.call.Booting? && sid in w.call.todo && sid in w.descs && w.descs[sid].Desc?
    requires !w.descs[sid].restricted && w.descs[sid].cid in w.containers && w.descs[sid].path in w.logs
    ensures Enabled(w, BootResume(sid))
    ensures var d := w.descs[sid];
            var log := w.logs[d.path];
            Apply(w, BootResume(sid)) ==
            w.(objs := w.objs[d.path := Session(false, Some(d.cid), {}, RecoverNext(log), CountAgent(log))],
               table := w.table[sid := d.path], call := Booting(w.call.todo - {sid}))
  {
  }

  lemma BootDoneStep(w: World)
    requires w.call == Booting({})
    ensures Enabled(w, BootDone) && Apply(w, BootDone) == w.(call := Idle)
  {
  }

  lemma OpenLogStep(w: World, path: string, restricted: bool)
    requires w.call.Idle? && Fresh(w, path)
    ensures Enabled(w, OpenLog(path, restricted))
    ensures Apply(w, OpenLog(path, restricted)) ==
      w.(logs := w.logs[path := []], objs := w.objs[path := Session(restricted, None, {}, 0, 0)],
         call := Starting(path), issued := w.issued + {path})
  {
  }

  lemma CreateStep(w: World, cid: string)
    requires w.call.Starting? && w.call.path in w.objs && w.objs[w.call.path].cont.None? && Fresh(w, cid)
    ensures Enabled(w, CreateContainer(cid))
    ensures Apply(w, CreateContainer(cid)) ==
      w.(containers := w.containers[cid := Container([], true)],
         objs := w.objs[w.call.path := w.objs[w.call.path].(cont := Some(cid))], issued := w.issued + {cid})
  {
  }

  lemma GiveUpStep(w: World)
    requires w.call.Starting? && w.call.path in w.objs
    ensures Enabled(w, StartFailed)
    ensures Apply(w, StartFailed) ==
      w.(containers := WithoutContainer(w, w.objs[w.call.path].cont), objs := w.objs - {w.call.path}, call := Idle)
  {
  }

  lemma AbandonStep(w: World)
    requires w.call.Starting?
    ensures Enabled(w, StartAbandoned)
    ensures Apply(w, StartAbandoned) == w.(objs := w.objs - {w.call.path}, call := Idle)
  {
  }

  lemma RegisterStep(w: World, sid: string)
    requires w.call.Starting? && w.call.path in w.objs && w.objs[w.call.path].cont.Some? && Fresh(w, sid)
    ensures Enabled(w, Register(sid))
    ensures Apply(w, Register(sid)) ==
      w.(table := w.table[sid := w.call.path], call := Saving(sid, w.call.path), issued := w.issued + {sid})
  {
  }

  lemma TruncateStep(w: World)
    requires w.call.Saving?
    ensures Enabled(w, BreakDescriptor)
    ensures Apply(w, BreakDescriptor) == w.(descs := w.descs[w.call.sid := Malformed])
  {
  }

  lemma SaveStep(w: World)
    requires w.call.Saving? && w.call.path in w.objs && w.objs[w.call.path].cont.Some?
    ensures Enabled(w, WriteDescriptor)
    ensures var o := w.objs[w.call.path];
            Apply(w, WriteDescriptor) ==
            w.(descs := w.descs[w.call.sid := Desc(w.call.path, o.restricted, o.cont.value)], call := Idle)
  {
  }

  lemma RunStep(w: World, path: string, cmd: string, cid: string)
    requires Active(w.objs, w.table, w.call, path) && w.objs[path].cont == Some(cid)
    requires cid in w.containers && w.containers[cid].running
    ensures Enabled(w, Run(path, cmd))
    ensures Apply(w, Run(path, cmd)) ==
      w.(containers := w.containers[cid := w.containers[cid].(hist := w.containers[cid].hist + [Ran(cmd, None)])],
         call := Running(path, cmd, w.call))
  {
  }

  lemma LogRunStep(w: World, hist: seq<Ran>, data: Data)
    requires w.call.Running? && w.call.path in w.objs && w.call.path in w.logs
    requires w.objs[w.call.path].cont.Some? && w.objs[w.call.path].cont.value in w.containers
    requires w.containers[w.objs[w.call.path].cont.value].hist == hist + [Ran(w.call.cmd, None)]
    ensures Enabled(w, LogRun(data))
    ensures var path, kind := w.call.path, RunKind(w.call.after);
            var o := w.objs[path];
            var e := Event(o.seqNo, kind, data);
            var c := w.containers[o.cont.value];
            Apply(w, LogRun(data)) ==
            w.(containers := w.containers[o.cont.value := c.(hist := hist + [Ran(w.call.cmd, Some(e))])],
               logs := w.logs[path := w.logs[path] + [e]], objs := w.objs[path := Wrote(o, kind)],
               call := w.call.after)
  {
    Snoc(hist, Ran(w.call.cmd, None));
  }

  lemma RunFailsStep(w: World, path: string, cmd: string, applied: bool)
    requires Active(w.objs, w.table, w.call, path)
    requires applied ==> w.objs[path].cont.Some? && w.objs[path].cont.value in w.containers
    ensures Enabled(w, RunFails(path, cmd, applied))
    ensures Apply(w, RunFails(path, cmd, applied)) ==
      if applied then w.(containers := AddRun(w, w.objs[path].cont.value, cmd), interrupted := w.interrupted + 1)
      else w
  {
  }

  lemma WriteStep(w: World, path: string, kind: EventType, data: Data)
    requires path in w.objs && path in w.logs
    requires (kind == EgressAttempt && w.objs[path].restricted) ||
             (kind in {RunStarted, AgentThought, RunFinished} && Active(w.objs, w.table, w.call, path))
    ensures Enabled(w, Write(path, kind, data)) && kind != AgentCommand
    ensures Apply(w, Write(path, kind, data)) ==
      w.(logs := w.logs[path := w.logs[path] + [Event(w.objs[path].seqNo, kind, data)]],
         objs := w.objs[path := Wrote(w.objs[path], kind)])
  {
  }

  lemma CommitStep(w: World, sid: string, snap: string)
    requires w.call.Idle? && sid in w.table && w.table[sid] in w.objs && Fresh(w, snap)
    requires w.objs[w.table[sid]].cont.Some? && w.objs[w.table[sid]].cont.value in w.containers
    ensures Enabled(w, Commit(sid, snap))
    ensures var path := w.table[sid];
            var o := w.objs[path];
            Apply(w, Commit(sid, snap)) ==
            w.(images := w.images[snap := Image(w.containers[o.cont.value].hist, sid)],
               objs := w.objs[path := o.(snaps := o.snaps + {snap})],
               call := Forking(sid, path, snap), issued := w.issued + {snap})
  {
  }

  lemma LogForkStep(w: World)
    requires w.call.Forking? && w.call.path in w.objs && w.call.path in w.logs && w.objs[w.call.path].cont.Some?
    ensures Enabled(w, LogFork)
    ensures var path := w.call.path;
            var o := w.objs[path];
            Apply(w, LogFork) ==
            w.(logs := w.logs[path := w.logs[path] +
                              [Event(o.seqNo, SessionForked, ForkData(w.call.snap, o.cont.value))]],
               objs := w.objs[path := Wrote(o, SessionForked)], call := Idle)
  {
  }

  lemma DetachStep(w: World, sid: string, snap: string)
    requires w.call.Idle? && sid in w.table && w.table[sid] in w.objs && snap in w.objs[w.table[sid]].snaps
    ensures Enabled(w, Detach(sid, snap))
    ensures var path := w.table[sid];
            Apply(w, Detach(sid, snap)) ==
            w.(objs := w.objs[path := w.objs[path].(cont := None)],
               call := Reverting(sid, path, snap, w.objs[path].cont, w.objs[path].cont))
  {
  }

  lemma StopStep(w: World, cid: string)
    requires cid in w.containers
    ensures Enabled(w, ContainerStops(cid))
    ensures Apply(w, ContainerStops(cid)) == w.(containers := w.containers[cid := w.containers[cid].(running := false)])
  {
  }

  lemma RemoveOldStep(w: World)
    requires w.call.Reverting? && w.call.prior.Some?
    ensures Enabled(w, RemoveOld)
    ensures Apply(w, RemoveOld) ==
      w.(containers := w.containers - {w.call.prior.value}, call := w.call.(prior := None))
  {
  }

  lemma RestoreStep(w: World, cid: string)
    requires w.call.Reverting? && w.call.prior.None? && w.call.path in w.objs && w.call.snap in w.images
    requires Fresh(w, cid)
    ensures Enabled(w, Restore(cid))
    ensures Apply(w, Restore(cid)) ==
      w.(containers := w.containers[cid := Container(w.images[w.call.snap].hist, true)],
         objs := w.objs[w.call.path := w.objs[w.call.path].(cont := Some(cid))],
         call := Swapped(w.call.sid, w.call.path, w.call.snap, w.call.previous), issued := w.issued + {cid})
  {
  }

  lemma RevertFailsStep(w: World)
    requires w.call.Reverting? && w.call.prior.None?
    ensures Enabled(w, RevertFails) && Apply(w, RevertFails) == w.(call := Idle)
  {
  }

  lemma LogRevertStep(w: World)
    requires w.call.Swapped? && w.call.path in w.objs && w.call.path in w.logs && w.objs[w.call.path].cont.Some?
    ensures Enabled(w, LogRevert)
    ensures var path := w.call.path;
            var o := w.objs[path];
            Apply(w, LogRevert) ==
            w.(logs := w.logs[path := w.logs[path] +
                              [Event(o.seqNo, SessionReverted,
                                     RevertData(w.call.snap, w.call.previous, o.cont.value))]],
               objs := w.objs[path := Wrote(o, SessionReverted)], call := Saving(w.call.sid, path))
  {
  }

  lemma PopStep(w: World, sid: string)
    requires w.call.Idle? && sid in w.table
    ensures Enabled(w, Pop(sid))
    ensures Apply(w, Pop(sid)) == w.(table := w.table - {sid}, call := Finishing(sid, w.table[sid]))
  {
  }

  lemma RemoveLastStep(w: World)
    requires w.call.Finishing? && w.call.path in w.objs
    ensures Enabled(w, RemoveLast)
    ensures Apply(w, RemoveLast) ==
      w.(containers := WithoutContainer(w, w.objs[w.call.path].cont),
         objs := w.objs[w.call.path := w.objs[w.call.path].(cont := None)],
         call := Stopped(w.call.sid, w.call.path))
  {
  }

  lemma RemoveImageStep(w: World, snap: string)
    requires w.call.Stopped? && w.call.path in w.objs && snap in w.objs[w.call.path].snaps
    ensures Enabled(w, RemoveImage(snap))
    ensures var o := w.objs[w.call.path];
            Apply(w, RemoveImage(snap)) ==
            w.(images := w.images - {snap}, objs := w.objs[w.call.path := o.(snaps := o.snaps - {snap})])
  {
  }

  lemma UnlinkStep(w: World)
    requires w.call.Stopped? && w.call.path in w.objs && w.objs[w.call.path].snaps == {}
    ensures Enabled(w, Unlink)
    ensures Apply(w, Unlink) ==
      w.(descs := w.descs - {w.call.sid}, objs := w.objs - {w.call.path}, call := Idle)
  {
  }

  lemma ReapStep(w: World)
    requires w.call.Idle? || w.call.Down?
    ensures Enabled(w, Reap)
    ensures Apply(w, Reap) ==
      w.(containers := map c | c in w.containers && KeepsContainer(w.descs, c) :: w.containers[c],
         images := map i | i in w.images && KeepsImage(w.descs, w.images[i]) :: w.images[i])
  {
  }
}
