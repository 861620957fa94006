/**
 * One trajectory writer under several threads. A write holds the lock over its
 * whole critical section, one step at a time; close does not take the lock, and
 * the process can die anywhere. A new writer is opened only once no thread of
 * the old one is still writing.
 */
module WriterThreads {
  import opened Events
  import opened Protocol
  import Trajectory

  type Tid = nat

  /** Where a thread is inside TrajectoryWriter.write. */
  datatype Pc =
    | Outside
    | Entered(kind: EventType, data: Data)
    | Built(e: Event)
    | Flushed(e: Event)
    | Counted(e: Event)

  datatype Writer = Writer(
    lock: Option<Tid>,
    pcs: map<Tid, Pc>,
    seqNo: nat,
    open: bool,
    closed: bool,
    file: seq<Event>,
    returned: set<Event>)

  const START := Writer(None, map[], 0, false, true, [], {})

  datatype Step =
    | Enter(t: Tid, kind: EventType, data: Data)
    | Check(t: Tid)
    | Put(t: Tid)
    | Count(t: Tid)
    | Leave(t: Tid)
    | LoseFlush(t: Tid)
    | Close
    | Die
    | Reopen

  function At(w: Writer, t: Tid): Pc {
    if t in w.pcs then w.pcs[t] else Outside
  }

  predicate Possible(w: Writer, s: Step) {
    match s
    case Enter(t, _, _) => w.lock.None? && At(w, t).Outside?
    case Check(t) => At(w, t).Entered?
    case Put(t) => At(w, t).Built?
    case Count(t) => At(w, t).Flushed?
    case LoseFlush(t) => At(w, t).Flushed? && !w.open
    case Leave(t) => At(w, t).Counted?
    case Close => true
    case Die => true
    case Reopen => w.lock.None? && !w.open
  }

  /** The lock is released on the way out, by return or by exception. */
  function Out(w: Writer, t: Tid): Writer {
    w.(lock := None, pcs := w.pcs - {t})
  }

  function Next(w: Writer, s: Step): Writer
    requires Possible(w, s)
  {
    match s
    case Enter(t, kind, data) => w.(lock := Some(t), pcs := w.pcs[t := Entered(kind, data)])
    case Check(t) =>
      if w.closed || !w.open then Out(w, t)
      else w.(pcs := w.pcs[t := Built(Event(w.seqNo, w.pcs[t].kind, w.pcs[t].data))])
    case Put(t) =>
      // a file closed meanwhile makes the write raise
      if !w.open then Out(w, t)
      else w.(file := w.file + [w.pcs[t].e], pcs := w.pcs[t := Flushed(w.pcs[t].e)])
    case Count(t) => w.(seqNo := w.seqNo + 1, pcs := w.pcs[t := Counted(w.pcs[t].e)])
    // closed between write and flush: the flush raises, the line stays, the counter does not move
    case LoseFlush(t) => Out(w, t)
    case Leave(t) => Out(w, t).(returned := w.returned + {w.pcs[t].e})
    case Close => w.(open := false, closed := true)
    case Die => w.(lock := None, pcs := map[], open := false, closed := true)
    case Reopen => w.(seqNo := RecoverNext(w.file), open := true, closed := false)
  }

  function After(steps: seq<Step>): Option<Writer> {
    if steps == [] then Some(START)
    else
      var before := After(steps[..|steps| - 1]);
      var s := steps[|steps| - 1];
      if before.Some? && Possible(before.value, s) then Some(Next(before.value, s)) else None
  }

  ghost predicate OnDisk(file: seq<Event>, e: Event) {
    e.seqNo < |file| && file[e.seqNo] == e
  }

  ghost predicate Inv(w: Writer) {
    && Trajectory.Numbered(w.file)
    && (w.open ==> !w.closed)
    && (forall t :: t in w.pcs ==> w.lock == Some(t) && !w.pcs[t].Outside?)
    && (w.lock.Some? ==> w.lock.value in w.pcs)
    // an open writer's counter is the length of its file, but between a flush and its count
    && (w.open && !(exists t :: t in w.pcs && w.pcs[t].Flushed?) ==> w.seqNo == |w.file|)
    && (forall t :: t in w.pcs ==>
          match w.pcs[t]
          case Built(e) => w.open ==> e.seqNo == |w.file|
          case Flushed(e) => OnDisk(w.file, e) && w.seqNo + 1 == |w.file|
          case Counted(e) => OnDisk(w.file, e)
          case _ => true)
    && (forall e :: e in w.returned ==> OnDisk(w.file, e))
  }

  lemma StepKeepsInv(w: Writer, s: Step)
    requires Possible(w, s) && Inv(w)
    ensures Inv(Next(w, s)) && w.file <= Next(w, s).file
  {
    match s
    case Enter(t, _, _) =>
      assert t !in w.pcs;
    case Check(t) =>
    case Put(t) =>
    case Count(t) =>
    case LoseFlush(t) =>
    case Leave(t) =>
    case Close =>
    case Die =>
    case Reopen =>
  }

  /** A write that nothing comes in between, from the lock to the return. */
  function WholeWrite(t: Tid, kind: EventType, data: Data): seq<Step> {
    [Enter(t, kind, data), Check(t), Put(t), Count(t), Leave(t)]
  }

  /** The world after `steps` from `w`, if each was possible in turn. */
  function From(w: Writer, steps: seq<Step>): Option<Writer>
    decreases |steps|
  {
    if steps == [] then Some(w)
    else if Possible(w, steps[0]) then From(Next(w, steps[0]), steps[1..])
    else None
  }

  lemma FromStep(w: Writer, s: Step, more: seq<Step>)
    requires Possible(w, s)
    ensures From(w, [s] + more) == From(Next(w, s), more)
  {
    assert ([s] + more)[1..] == more;
  }

  /** On an open writer it adds one line, the event it returns, and lets go of the lock. */
  lemma WholeWriteAppends(w: Writer, t: Tid, kind: EventType, data: Data)
    requires Inv(w) && w.lock == None && w.open
    ensures var e := Event(|w.file|, kind, data);
      From(w, WholeWrite(t, kind, data)) ==
      Some(w.(file := w.file + [e], seqNo := w.seqNo + 1, returned := w.returned + {e}))
  {
    hide Inv, From;
    OpenAndFree(w);
    var w1 := Next(w, Enter(t, kind, data));
    FromStep(w, Enter(t, kind, data), [Check(t), Put(t), Count(t), Leave(t)]);
    var w2 := Next(w1, Check(t));
    FromStep(w1, Check(t), [Put(t), Count(t), Leave(t)]);
    var w3 := Next(w2, Put(t));
    FromStep(w2, Put(t), [Count(t), Leave(t)]);
    var w4 := Next(w3, Count(t));
    FromStep(w3, Count(t), [Leave(t)]);
    var none: seq<Step> := [];
    FromStep(w4, Leave(t), none);
    assert [Leave(t)] + none == [Leave(t)];
    assert [Count(t)] + [Leave(t)] == [Count(t), Leave(t)];
    assert [Put(t)] + [Count(t), Leave(t)] == [Put(t), Count(t), Leave(t)];
    assert [Check(t)] + [Put(t), Count(t), Leave(t)] == [Check(t), Put(t), Count(t), Leave(t)];
    assert [Enter(t, kind, data)] + [Check(t), Put(t), Count(t), Leave(t)] == WholeWrite(t, kind, data);
    assert w4.pcs - {t} == w.pcs;
    FromNothing(Next(w4, Leave(t)));
  }

  lemma FromNothing(w: Writer)
    ensures From(w, []) == Some(w)
  {
  }

  lemma OpenAndFree(w: Writer)
    requires Inv(w) && w.lock == None
    ensures w.pcs == map[] && (w.open ==> w.seqNo == |w.file| && !w.closed)
  {
  }

  lemma SealedWriteDoesNothing(w: Writer, t: Tid, kind: EventType, data: Data)
    requires Inv(w) && w.lock == None && (w.closed || !w.open)
    ensures From(w, [Enter(t, kind, data), Check(t)]) == Some(w)
  {
    hide Inv, From;
    OpenAndFree(w);
    var none: seq<Step> := [];
    var w1 := Next(w, Enter(t, kind, data));
    FromStep(w, Enter(t, kind, data), [Check(t)]);
    FromStep(w1, Check(t), none);
    assert [Check(t)] + none == [Check(t)] && [Enter(t, kind, data)] + [Check(t)] == [Enter(t, kind, data), Check(t)];
    assert w1.pcs - {t} == w.pcs;
    FromNothing(Next(w1, Check(t)));
  }

  /**
   * Under every interleaving of writes, closes, crashes and reopenings, the
   * i-th line has number i, no written line ever changes, and every event a
   * write returned is the line with its number.
   */
  lemma {:induction false} LinesStayNumbered(steps: seq<Step>, n: nat)
    requires After(steps).Some? && n <= |steps|
    ensures After(steps[..n]).Some? && After(steps[..n]).value.file <= After(steps).value.file
    ensures Inv(After(steps).value)
    ensures Trajectory.Numbered(After(steps).value.file)
    ensures forall e :: e in After(steps).value.returned ==> OnDisk(After(steps).value.file, e)
  {
    if n == |steps| {
      assert steps[..n] == steps;
    }
    if steps != [] {
      var m := |steps| - 1;
      LinesStayNumbered(steps[..m], if n <= m then n else m);
      assert n <= m ==> steps[..m][..n] == steps[..n];
      StepKeepsInv(After(steps[..m]).value, steps[m]);
    }
  }
}
