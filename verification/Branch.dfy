/**
 * The branch view of a trajectory: the reader's filter over fork and revert
 * markers, and the replay that says what a fork and a revert really do.
 */
module Branch {
  import opened Events

  // ---------------------------------------------------------------------
  // The filter
  // ---------------------------------------------------------------------

  /** Where each snapshot was forked: a later fork of the same id wins. */
  function ForkSeqs(log: seq<Event>): map<string, nat> {
    if log == [] then map[]
    else
      var forks := ForkSeqs(log[..|log| - 1]);
      var e := log[|log| - 1];
      if IsFork(e) then forks[SnapshotId(e) := e.seqNo] else forks
  }

  /** For each reverted snapshot with a known fork: fork and last revert. */
  function LastReverts(log: seq<Event>, forks: map<string, nat>): map<string, (nat, nat)> {
    if log == [] then map[]
    else
      var ranges := LastReverts(log[..|log| - 1], forks);
      var e := log[|log| - 1];
      if IsRevert(e) && SnapshotId(e) in forks then
        ranges[SnapshotId(e) := (forks[SnapshotId(e)], e.seqNo)]
      else ranges
  }

  function Ranges(log: seq<Event>): map<string, (nat, nat)> {
    LastReverts(log, ForkSeqs(log))
  }

  predicate Inside(range: (nat, nat), q: int) {
    range.0 < q < range.1
  }

  /** The reader drops sequence number `q` from the current branch. */
  ghost predicate Dropped(log: seq<Event>, q: int) {
    exists id :: id in Ranges(log) && Inside(Ranges(log)[id], q)
  }

  /** The events of `part` that the reader of `log` does not drop. */
  ghost function Kept(log: seq<Event>, part: seq<Event>): seq<Event> {
    if part == [] then []
    else
      var rest := Kept(log, part[..|part| - 1]);
      var e := part[|part| - 1];
      if Dropped(log, e.seqNo) then rest else rest + [e]
  }

  ghost function Current(log: seq<Event>): seq<Event> {
    Kept(log, log)
  }

  /** The events numbered strictly between `lo` and `hi` (no `hi`: to the end). */
  function Between(log: seq<Event>, lo: nat, hi: Option<nat>): seq<Event> {
    if log == [] then []
    else
      var rest := Between(log[..|log| - 1], lo, hi);
      var e := log[|log| - 1];
      if lo < e.seqNo && (hi.Some? ==> e.seqNo < hi.value) then rest + [e] else rest
  }

  /** What the reader of `log` is shown for `branch`. */
  ghost function View(log: seq<Event>, branch: string): seq<Event> {
    if branch == "all" then log
    else if branch == "current" then Current(log)
    else if branch in Ranges(log) then Between(log, Ranges(log)[branch].0, Some(Ranges(log)[branch].1))
    else if branch in ForkSeqs(log) then Between(log, ForkSeqs(log)[branch], None)
    else []
  }

  method FilterBranch(events: seq<Event>, branch: string) returns (out: seq<Event>)
    ensures out == View(events, branch)
  {
    if branch == "all" || events == [] {
      return events;
    }
    var forkSeq: map<string, nat> := map[];
    for i := 0 to |events|
      invariant forkSeq == ForkSeqs(events[..i])
    {
      assert events[..i + 1][..i] == events[..i];
      var e := events[i];
      if e.kind == SessionForked {
        var snapId := SnapshotId(e);
        if snapId != "" {
          forkSeq := forkSeq[snapId := e.seqNo];
        }
      }
    }
    assert events[..|events|] == events;

    var discarded: map<string, (nat, nat)> := map[];
    for i := 0 to |events|
      invariant discarded == LastReverts(events[..i], forkSeq)
    {
      assert events[..i + 1][..i] == events[..i];
      var e := events[i];
      if e.kind == SessionReverted {
        var snapId := SnapshotId(e);
        if snapId in forkSeq {
          discarded := discarded[snapId := (forkSeq[snapId], e.seqNo)];
        }
      }
    }
    assert discarded == Ranges(events);

    if branch == "current" {
      var discardedSeqs: set<int> := {};
      var todo := discarded.Keys;
      while todo != {}
        invariant todo <= discarded.Keys
        invariant forall q :: q in discardedSeqs <==>
          exists id :: id in discarded.Keys - todo && Inside(discarded[id], q)
        decreases |todo|
      {
        var snapId :| snapId in todo;
        var (f, r) := discarded[snapId];
        ghost var before, seqs0 := discarded.Keys - todo, discardedSeqs;
        discardedSeqs := discardedSeqs + (set q: int | f < q < r && Inside(discarded[snapId], q));
        todo := todo - {snapId};
        assert discarded.Keys - todo == before + {snapId};
        forall q
          ensures q in discardedSeqs <==>
            exists id :: id in discarded.Keys - todo && Inside(discarded[id], q)
        {
          assert Inside(discarded[snapId], q) <==> f < q < r;
        }
      }
      assert forall q :: q in discardedSeqs <==> Dropped(events, q);
      out := [];
      for i := 0 to |events|
        invariant out == Kept(events, events[..i])
      {
        assert events[..i + 1][..i] == events[..i];
        if events[i].seqNo !in discardedSeqs {
          out := out + [events[i]];
        }
      }
      return;
    }

    if branch in discarded {
      var (f, r) := discarded[branch];
      return Between(events, f, Some(r));
    }
    if branch in forkSeq {
      return Between(events, forkSeq[branch], None);
    }
    return [];
  }

  // ---------------------------------------------------------------------
  // What the markers mean: replaying the log
  // ---------------------------------------------------------------------

  /** `line`: the events behind the present container. `saved`: behind each snapshot. */
  datatype History = History(line: seq<Event>, saved: map<string, seq<Event>>)

  function Advance(h: History, e: Event): History {
    if IsFork(e) then
      History(h.line + [e], h.saved[SnapshotId(e) := h.line + [e]])
    else if IsRevert(e) && SnapshotId(e) in h.saved then
      h.(line := h.saved[SnapshotId(e)] + [e])
    else
      h.(line := h.line + [e])
  }

  function Replay(log: seq<Event>): History {
    if log == [] then History([], map[])
    else Advance(Replay(log[..|log| - 1]), log[|log| - 1])
  }

  /** The markers at `f` and `r` roll back everything strictly between them. */
  ghost predicate Pair(log: seq<Event>, f: int, r: int) {
    0 <= f < r < |log| && IsFork(log[f]) && IsRevert(log[r]) && SnapshotId(log[f]) == SnapshotId(log[r])
  }

  ghost predicate RolledBack(log: seq<Event>, q: int) {
    exists f, r :: Pair(log, f, r) && f < q < r
  }

  ghost predicate Forked(log: seq<Event>, id: string) {
    exists f :: 0 <= f < |log| && IsFork(log[f]) && SnapshotId(log[f]) == id
  }

  /** Logs the session tools write: numbered from 0, fresh fork ids, reverts to earlier forks. */
  ghost predicate Legal(log: seq<Event>) {
    && (forall i :: 0 <= i < |log| ==> log[i].seqNo == i)
    && (forall i, j :: 0 <= i < j < |log| && IsFork(log[i]) && IsFork(log[j]) ==>
          SnapshotId(log[i]) != SnapshotId(log[j]))
    && (forall r :: 0 <= r < |log| && IsRevert(log[r]) ==> Forked(log[..r], SnapshotId(log[r])))
  }

  lemma LegalPrefix(log: seq<Event>, n: nat)
    requires Legal(log) && n <= |log|
    ensures Legal(log[..n])
  {
    forall r | 0 <= r < n && IsRevert(log[..n][r])
      ensures Forked(log[..n][..r], SnapshotId(log[..n][r]))
    {
      assert log[..n][..r] == log[..r];
    }
  }

  // --- The filter's tables, on legal logs

  ghost predicate TablesMatch(log: seq<Event>) {
    && (forall id :: id in ForkSeqs(log) ==>
          ForkSeqs(log)[id] < |log| && IsFork(log[ForkSeqs(log)[id]]) && SnapshotId(log[ForkSeqs(log)[id]]) == id)
    && (forall f :: 0 <= f < |log| && IsFork(log[f]) ==>
          SnapshotId(log[f]) in ForkSeqs(log) && ForkSeqs(log)[SnapshotId(log[f])] == f)
  }

  lemma {:induction false} ForkTable(log: seq<Event>)
    requires Legal(log)
    ensures TablesMatch(log)
  {
    if log != [] {
      LegalPrefix(log, |log| - 1);
      ForkTable(log[..|log| - 1]);
    }
  }

  ghost predicate RevertOf(log: seq<Event>, r: int, id: string) {
    0 <= r < |log| && IsRevert(log[r]) && SnapshotId(log[r]) == id
  }

  ghost predicate Increasing(log: seq<Event>) {
    forall i, j :: 0 <= i < j < |log| ==> log[i].seqNo < log[j].seqNo
  }

  lemma {:induction false} RevertTable(log: seq<Event>, forks: map<string, nat>, id: string)
    requires Increasing(log)
    ensures id in LastReverts(log, forks) <==> id in forks && exists r :: RevertOf(log, r, id)
    ensures id in LastReverts(log, forks) ==>
      && LastReverts(log, forks)[id].0 == forks[id]
      && (exists r :: RevertOf(log, r, id) && log[r].seqNo == LastReverts(log, forks)[id].1)
      && (forall r :: RevertOf(log, r, id) ==> log[r].seqNo <= LastReverts(log, forks)[id].1)
  {
    if log != [] {
      var init, n := log[..|log| - 1], |log| - 1;
      RevertTable(init, forks, id);
      assert forall r :: RevertOf(init, r, id) ==> RevertOf(log, r, id) && init[r] == log[r];
      assert forall r :: RevertOf(log, r, id) ==> RevertOf(init, r, id) || r == n;
      if RevertOf(log, n, id) {
        assert forall r :: RevertOf(log, r, id) ==> log[r].seqNo <= log[n].seqNo;
      }
    }
  }

  /** Keeping one range per snapshot, the last revert's, loses nothing. */
  lemma LastRevertSuffices(log: seq<Event>, q: int)
    requires Increasing(log)
    ensures Dropped(log, q) <==>
      (exists id, r :: id in ForkSeqs(log) && RevertOf(log, r, id) && ForkSeqs(log)[id] < q < log[r].seqNo)
  {
    if Dropped(log, q) {
      var id :| id in Ranges(log) && Inside(Ranges(log)[id], q);
      RevertTable(log, ForkSeqs(log), id);
      var r :| RevertOf(log, r, id) && log[r].seqNo == Ranges(log)[id].1;
    }
    if id, r :| id in ForkSeqs(log) && RevertOf(log, r, id) && ForkSeqs(log)[id] < q < log[r].seqNo {
      RevertTable(log, ForkSeqs(log), id);
      assert Inside(Ranges(log)[id], q);
    }
  }

  /** On a legal log the reader drops exactly what some fork/revert pair rolled back. */
  lemma DroppedIsRolledBack(log: seq<Event>, q: int)
    requires Legal(log)
    ensures Dropped(log, q) <==> RolledBack(log, q)
  {
    LastRevertSuffices(log, q);
    ForkTable(log);
    if Dropped(log, q) {
      var id, r :| id in ForkSeqs(log) && RevertOf(log, r, id) && ForkSeqs(log)[id] < q < log[r].seqNo;
      assert Pair(log, ForkSeqs(log)[id], r);
    }
    if RolledBack(log, q) {
      var f, r :| Pair(log, f, r) && f < q < r;
      assert RevertOf(log, r, SnapshotId(log[f]));
    }
  }

  // --- Shape of a replayed history

  /** `xs` lists events of `log` in order. */
  ghost predicate Trace(log: seq<Event>, xs: seq<Event>) {
    && (forall i :: 0 <= i < |xs| ==> xs[i].seqNo < |log| && log[xs[i].seqNo] == xs[i])
    && Increasing(xs)
  }

  ghost function Last(xs: seq<Event>): Event
    requires xs != []
  {
    xs[|xs| - 1]
  }

  ghost predicate EndsAtFork(xs: seq<Event>, id: string) {
    xs != [] && IsFork(Last(xs)) && SnapshotId(Last(xs)) == id
  }

  ghost predicate Shaped(log: seq<Event>, h: History) {
    && Trace(log, h.line)
    && (log != [] ==> h.line != [] && Last(h.line) == Last(log))
    && (forall id :: id in h.saved <==> Forked(log, id))
    && (forall id :: id in h.saved ==> Trace(log, h.saved[id]) && EndsAtFork(h.saved[id], id))
  }

  lemma TraceSnoc(log: seq<Event>, xs: seq<Event>, e: Event)
    requires Trace(log, xs) && e.seqNo == |log|
    ensures Trace(log + [e], xs) && Trace(log + [e], xs + [e])
  {
    assert forall i :: 0 <= i < |xs| ==> (log + [e])[xs[i].seqNo] == log[xs[i].seqNo];
  }

  lemma ForkedSnoc(log: seq<Event>, e: Event, id: string)
    ensures Forked(log + [e], id) <==> Forked(log, id) || (IsFork(e) && SnapshotId(e) == id)
  {
    if Forked(log, id) {
      var f :| 0 <= f < |log| && IsFork(log[f]) && SnapshotId(log[f]) == id;
      assert (log + [e])[f] == log[f];
    }
    assert (log + [e])[|log|] == e;
  }

  lemma ShapeSnoc(log: seq<Event>, h: History, e: Event)
    requires Shaped(log, h) && e.seqNo == |log|
    ensures Shaped(log + [e], Advance(h, e))
  {
    var h' := Advance(h, e);
    TraceSnoc(log, h.line, e);
    forall id
      ensures id in h'.saved <==> Forked(log + [e], id)
      ensures id in h'.saved ==> Trace(log + [e], h'.saved[id]) && EndsAtFork(h'.saved[id], id)
    {
      ForkedSnoc(log, e, id);
      if id in h.saved {
        TraceSnoc(log, h.saved[id], e);
      }
    }
    if IsRevert(e) && SnapshotId(e) in h.saved {
      TraceSnoc(log, h.saved[SnapshotId(e)], e);
    }
  }

  lemma {:induction false} ReplayShape(log: seq<Event>)
    requires Legal(log)
    ensures Shaped(log, Replay(log))
  {
    if log != [] {
      var init, e := log[..|log| - 1], log[|log| - 1];
      LegalPrefix(log, |log| - 1);
      ReplayShape(init);
      ShapeSnoc(init, Replay(init), e);
      assert init + [e] == log;
    }
  }

  /** What replay lost, some fork/revert pair rolled back. */
  ghost predicate Covered(log: seq<Event>, xs: seq<Event>, q: int)
    requires 0 <= q < |log|
  {
    log[q] in xs || RolledBack(log, q)
  }

  lemma RolledBackGrows(log: seq<Event>, more: seq<Event>, q: int)
    requires RolledBack(log, q)
    ensures RolledBack(log + more, q)
  {
    var f, r :| Pair(log, f, r) && f < q < r;
    assert Pair(log + more, f, r);
  }

  ghost predicate AllCovered(log: seq<Event>, h: History, q: int)
    requires 0 <= q < |log|
  {
    && Covered(log, h.line, q)
    && (forall id :: id in h.saved && h.saved[id] != [] && q <= Last(h.saved[id]).seqNo
          ==> Covered(log, h.saved[id], q))
  }

  lemma CoverSnoc(log: seq<Event>, h: History, e: Event, q: int)
    requires Shaped(log, h) && e.seqNo == |log| && 0 <= q < |log| && AllCovered(log, h, q)
    ensures AllCovered(log + [e], Advance(h, e), q)
  {
    if RolledBack(log, q) {
      RolledBackGrows(log, [e], q);
    } else if IsRevert(e) && SnapshotId(e) in h.saved {
      var f := Last(h.saved[SnapshotId(e)]).seqNo;
      assert Pair(log + [e], f, |log|);
      assert f < q ==> RolledBack(log + [e], q);
    }
  }

  lemma Numbered(log: seq<Event>)
    requires Legal(log)
    ensures forall i :: 0 <= i < |log| ==> log[i].seqNo == i
  {
  }

  lemma NewestIsCovered(log: seq<Event>, h: History)
    requires Shaped(log, h) && log != []
    requires forall i :: 0 <= i < |log| ==> log[i].seqNo == i
    ensures AllCovered(log, h, |log| - 1)
  {
    forall id | id in h.saved && |log| - 1 <= Last(h.saved[id]).seqNo
      ensures log[|log| - 1] in h.saved[id]
    {
      assert Last(h.saved[id]) in h.saved[id];
    }
    assert Last(h.line) in h.line;
  }

  lemma {:induction false} ReplayCovers(log: seq<Event>, q: nat)
    requires Legal(log) && q < |log|
    ensures AllCovered(log, Replay(log), q)
  {
    hide Legal, Shaped, AllCovered, Covered, RolledBack, Advance;
    Numbered(log);
    var n := |log| - 1;
    var init, e := log[..n], log[n];
    LegalPrefix(log, n);
    ReplayShape(init);
    ReplayShape(log);
    assert init + [e] == log;
    if q < n {
      ReplayCovers(init, q);
      CoverSnoc(init, Replay(init), e, q);
    } else {
      NewestIsCovered(log, Replay(log));
    }
  }

  /** Snapshots on one line nest: a fork marker on the line carries its whole saved history. */
  ghost predicate Nested(h: History, xs: seq<Event>) {
    forall a :: a in h.saved && h.saved[a] != [] && Last(h.saved[a]) in xs ==> h.saved[a] <= xs
  }

  ghost predicate AllNested(h: History) {
    Nested(h, h.line) && forall b :: b in h.saved ==> Nested(h, h.saved[b])
  }

  lemma NestedSnoc(log: seq<Event>, h: History, xs: seq<Event>, e: Event)
    requires Shaped(log, h) && Trace(log, xs) && Nested(h, xs) && e.seqNo == |log|
    ensures Nested(h, xs + [e])
  {
    forall a | a in h.saved && h.saved[a] != [] && Last(h.saved[a]) in xs + [e]
      ensures h.saved[a] <= xs + [e]
    {
      assert Last(h.saved[a]).seqNo < |log|;
      assert Last(h.saved[a]) in xs;
    }
  }

  lemma AllNestedSnoc(log: seq<Event>, h: History, e: Event)
    requires Shaped(log, h) && AllNested(h) && e.seqNo == |log|
    requires IsFork(e) ==> SnapshotId(e) !in h.saved
    ensures AllNested(Advance(h, e))
  {
    var h' := Advance(h, e);
    NestedSnoc(log, h, h.line, e);
    if IsFork(e) {
      forall b | b in h.saved
        ensures Nested(h', h.saved[b])
      {
        assert forall i :: 0 <= i < |h.saved[b]| ==> h.saved[b][i] != e;
      }
    } else if IsRevert(e) && SnapshotId(e) in h.saved {
      NestedSnoc(log, h, h.saved[SnapshotId(e)], e);
    }
  }

  lemma {:induction false} ReplayNests(log: seq<Event>)
    requires Legal(log)
    ensures AllNested(Replay(log))
  {
    if log != [] {
      var init, e := log[..|log| - 1], log[|log| - 1];
      LegalPrefix(log, |log| - 1);
      ReplayNests(init);
      ReplayShape(init);
      if Forked(init, SnapshotId(e)) {
        var f :| 0 <= f < |init| && IsFork(init[f]) && SnapshotId(init[f]) == SnapshotId(e);
        assert log[f] == init[f];
      }
      AllNestedSnoc(init, Replay(init), e);
    }
  }

  // ---------------------------------------------------------------------
  // Main results: the filter against the replay
  // ---------------------------------------------------------------------

  lemma {:induction false} KeptMembers(log: seq<Event>, part: seq<Event>)
    requires Increasing(part)
    ensures Increasing(Kept(log, part))
    ensures forall e :: e in Kept(log, part) <==> e in part && !Dropped(log, e.seqNo)
  {
    hide Dropped;
    if part != [] {
      var init, e := part[..|part| - 1], part[|part| - 1];
      KeptMembers(log, init);
      assert part == init + [e];
      IncreasingSnoc(init, Kept(log, init), e);
    }
  }

  lemma IncreasingSnoc(xs: seq<Event>, ys: seq<Event>, e: Event)
    requires Increasing(xs + [e]) && Increasing(ys) && forall y :: y in ys ==> y in xs
    ensures Increasing(ys + [e])
  {
    forall i | 0 <= i < |ys| ensures ys[i].seqNo < e.seqNo {
      assert ys[i] in ys;
      var k :| 0 <= k < |xs| && xs[k] == ys[i];
      assert (xs + [e])[k] == xs[k] && (xs + [e])[|xs|] == e;
    }
  }

  lemma InitMembers(a: seq<Event>)
    requires Increasing(a) && a != []
    ensures forall e :: e in a[..|a| - 1] <==> e in a && e != Last(a)
  {
    assert a == a[..|a| - 1] + [Last(a)];
  }

  lemma {:induction false} SameMembers(a: seq<Event>, b: seq<Event>)
    requires Increasing(a) && Increasing(b)
    requires forall e :: e in a <==> e in b
    ensures a == b
  {
    assert |b| == 0 || b[0] in a;
    if a != [] {
      assert Last(a) in b;
      assert Last(b) in a;
      assert Last(a) == Last(b);
      InitMembers(a);
      InitMembers(b);
      var a', b' := a[..|a| - 1], b[..|b| - 1];
      forall e
        ensures e in a' <==> e in b'
      {
        assert e in a' <==> e in a && e != Last(a);
        assert e in b' <==> e in b && e != Last(b);
      }
      SameMembers(a', b');
      assert a == a[..|a| - 1] + [Last(a)] && b == b[..|b| - 1] + [Last(b)];
    }
  }

  lemma {:induction false} KeptIsSubsequence(log: seq<Event>, part: seq<Event>)
    ensures IsSubsequence(Kept(log, part), part)
    ensures IsSubsequence(Commands(Kept(log, part)), Commands(part))
  {
    if part != [] {
      var init, e := part[..|part| - 1], part[|part| - 1];
      KeptIsSubsequence(log, init);
      CommandsSnoc(Kept(log, init), e);
    }
  }

  /** Soundness: the current branch is the replayed line, less what some pair rolled back. */
  lemma CurrentIsKeptLine(log: seq<Event>)
    requires Legal(log)
    ensures Current(log) == Kept(log, Replay(log).line)
    ensures IsSubsequence(Current(log), Replay(log).line)
    ensures IsSubsequence(Commands(Current(log)), Commands(Replay(log).line))
  {
    var line := Replay(log).line;
    ReplayShape(log);
    KeptMembers(log, log);
    KeptMembers(log, line);
    forall e | e in log && !Dropped(log, e.seqNo)
      ensures e in line
    {
      ReplayCovers(log, e.seqNo);
      DroppedIsRolledBack(log, e.seqNo);
    }
    SameMembers(Current(log), Kept(log, line));
    KeptIsSubsequence(log, line);
  }

  /** The marker that `e` reverts to is shown on the current branch of `log`. */
  ghost predicate TargetShown(log: seq<Event>, e: Event) {
    exists m :: m in Current(log) && IsFork(m) && SnapshotId(m) == SnapshotId(e)
  }

  ghost predicate Exact(log: seq<Event>) {
    Current(log) == Replay(log).line
  }

  ghost predicate Undropped(log: seq<Event>, xs: seq<Event>) {
    forall e :: e in xs ==> !Dropped(log, e.seqNo)
  }

  lemma ExactMeansUndropped(log: seq<Event>)
    requires Legal(log)
    ensures Exact(log) <==> Undropped(log, Replay(log).line)
  {
    hide Dropped, Legal;
    CurrentIsKeptLine(log);
    ReplayShape(log);
    KeptMembers(log, Replay(log).line);
    if Undropped(log, Replay(log).line) {
      SameMembers(Current(log), Replay(log).line);
    }
  }

  lemma DroppedSnoc(log: seq<Event>, e: Event, q: int)
    requires Legal(log) && Legal(log + [e])
    ensures Dropped(log + [e], q) <==>
      Dropped(log, q) || (IsRevert(e) && exists f :: Pair(log + [e], f, |log|) && f < q < |log|)
  {
    hide Legal, Dropped;
    DroppedIsRolledBack(log, q);
    DroppedIsRolledBack(log + [e], q);
    PairsSnoc(log, e);
    hide Pair;
  }

  /** One more event pairs up with forks before it, if it is a revert, and leaves older pairs alone. */
  lemma PairsSnoc(log: seq<Event>, e: Event)
    ensures forall f, r :: Pair(log + [e], f, r) <==> Pair(log, f, r) || (r == |log| && Pair(log + [e], f, r))
    ensures forall f :: Pair(log + [e], f, |log|) ==> IsRevert(e)
  {
    assert (log + [e])[|log|] == e;
    assert forall i :: 0 <= i < |log| ==> (log + [e])[i] == log[i];
  }

  lemma NewestIsNotDropped(log: seq<Event>)
    requires Legal(log) && log != []
    ensures !Dropped(log, |log| - 1)
  {
    DroppedIsRolledBack(log, |log| - 1);
  }

  lemma RevertDrops(log: seq<Event>, e: Event, f: nat)
    requires Legal(log) && Legal(log + [e]) && Pair(log + [e], f, |log|)
    ensures forall q :: Dropped(log + [e], q) <==> Dropped(log, q) || f < q < |log|
  {
    hide Dropped;
    assert forall g :: Pair(log + [e], g, |log|) ==> g == f;
    forall q { DroppedSnoc(log, e, q); }
  }

  lemma RevertIsSaved(log: seq<Event>, e: Event)
    requires Legal(log + [e]) && IsRevert(e) && Shaped(log, Replay(log))
    ensures SnapshotId(e) in Replay(log).saved
    ensures Replay(log + [e]).line == Replay(log).saved[SnapshotId(e)] + [e]
  {
    var log' := log + [e];
    assert log'[..|log|] == log && log'[|log|] == e;
    assert Forked(log'[..|log|], SnapshotId(log'[|log|]));
  }

  /** The fork marker a revert goes back to, and what was saved there. */
  lemma RevertTarget(log: seq<Event>, e: Event) returns (saved: seq<Event>, mark: Event)
    requires Legal(log) && Legal(log + [e]) && IsRevert(e)
    ensures saved != [] && mark == Last(saved) && mark in log && IsFork(mark) && SnapshotId(mark) == SnapshotId(e)
    ensures Trace(log, saved) && forall x :: x in saved ==> x.seqNo <= mark.seqNo
    ensures Replay(log + [e]).line == saved + [e]
    ensures mark in Replay(log).line ==> saved <= Replay(log).line
    ensures Pair(log + [e], mark.seqNo, |log|)
  {
    hide Legal, Forked;
    ReplayShape(log);
    ReplayNests(log);
    RevertIsSaved(log, e);
    saved := Replay(log).saved[SnapshotId(e)];
    mark := Last(saved);
    assert mark == log[mark.seqNo] == (log + [e])[mark.seqNo];
    assert (log + [e])[|log|] == e;
  }

  lemma OnlyOneMarker(log: seq<Event>, m: Event, mark: Event)
    requires Legal(log) && m in log && mark in log
    requires IsFork(m) && IsFork(mark) && SnapshotId(m) == SnapshotId(mark)
    ensures m == mark
  {
  }

  lemma LineInLog(log: seq<Event>)
    requires Legal(log)
    ensures forall x :: x in Replay(log).line ==> x in log
  {
    ReplayShape(log);
    forall x | x in Replay(log).line
      ensures x in log
    {
      assert log[x.seqNo] == x;
    }
  }

  lemma LastNumber(log: seq<Event>, e: Event)
    requires Legal(log + [e])
    ensures e.seqNo == |log|
  {
    assert (log + [e])[|log|] == e;
  }

  // --- Whether the view is exact now, whatever happened before

  /** The fork marker that a revert goes back to, by the reader's own table. */
  function ForkOf(log: seq<Event>, e: Event): Option<nat> {
    var forks := ForkSeqs(log);
    if IsRevert(e) && SnapshotId(e) in forks && forks[SnapshotId(e)] < |log| then Some(forks[SnapshotId(e)]) else None
  }

  lemma ForkOfRevert(log: seq<Event>, e: Event)
    requires Legal(log) && Legal(log + [e]) && IsRevert(e)
    ensures ForkOf(log, e).Some?
    ensures var f := ForkOf(log, e).value; IsFork(log[f]) && SnapshotId(log[f]) == SnapshotId(e)
    ensures Pair(log + [e], ForkOf(log, e).value, |log|)
  {
    ForkTable(log);
    var saved, mark := RevertTarget(log, e);
    assert log[mark.seqNo] == mark by { ReplayShape(log); }
    var f := ForkOf(log, e).value;
    assert (log + [e])[f] == log[f] && (log + [e])[|log|] == e;
  }

  /** What a fork saved is the line as it was then. */
  lemma {:induction false} SavedIsLineThen(log: seq<Event>, f: nat)
    requires Legal(log) && f < |log| && IsFork(log[f])
    ensures SnapshotId(log[f]) in Replay(log).saved
    ensures Replay(log).saved[SnapshotId(log[f])] == Replay(log[..f + 1]).line
  {
    var n := |log| - 1;
    if f == n {
      assert log[..f + 1] == log;
    } else {
      LegalPrefix(log, n);
      SavedIsLineThen(log[..n], f);
      assert log[..n][..f + 1] == log[..f + 1];
      assert IsFork(log[n]) ==> SnapshotId(log[f]) != SnapshotId(log[n]);
    }
  }

  lemma RevertedLine(log: seq<Event>, e: Event)
    requires Legal(log) && Legal(log + [e]) && IsRevert(e)
    ensures ForkOf(log, e).Some?
    ensures Replay(log + [e]).line == Replay(log[..ForkOf(log, e).value + 1]).line + [e]
  {
    ForkOfRevert(log, e);
    SavedIsLineThen(log, ForkOf(log, e).value);
    Snoc(log, e);
  }

  /** Up to the fork, a number is dropped once the revert is in exactly if it was before. */
  lemma DroppedThen(log: seq<Event>, e: Event, f: nat, q: int)
    requires Legal(log) && Legal(log + [e]) && Pair(log + [e], f, |log|) && q <= f
    ensures Dropped(log + [e], q) <==> Dropped(log, q)
    ensures Dropped(log[..f + 1], q) ==> Dropped(log, q)
  {
    RevertDrops(log, e, f);
    if Dropped(log[..f + 1], q) {
      LegalPrefix(log, f + 1);
      assert log[..f + 1] + log[f + 1..] == log;
      DroppedForever(log[..f + 1], log[f + 1..], q);
    }
  }

  lemma LineUpTo(log: seq<Event>, f: nat)
    requires Legal(log) && f < |log|
    ensures Legal(log[..f + 1])
    ensures Replay(log[..f + 1]).line != [] && Last(Replay(log[..f + 1]).line) == log[f]
    ensures forall x :: x in Replay(log[..f + 1]).line ==> x in log[..f + 1] && x.seqNo <= f
  {
    LegalPrefix(log, f + 1);
    ReplayShape(log[..f + 1]);
    LineInLog(log[..f + 1]);
    assert log[..f + 1][f] == log[f];
  }

  /** If the marker of a fork is not dropped, nothing that was on the line at that fork has been since. */
  lemma ShownMarkerKeepsItsLine(log: seq<Event>, f: nat, q: nat)
    requires Legal(log) && f < |log| && IsFork(log[f]) && q <= f && !Dropped(log, f)
    ensures Dropped(log, q) ==> Dropped(log[..f + 1], q)
  {
    LegalPrefix(log, f + 1);
    DroppedIsRolledBack(log, q);
    DroppedIsRolledBack(log, f);
    DroppedIsRolledBack(log[..f + 1], q);
    if Dropped(log, q) {
      var g, r :| Pair(log, g, r) && g < q < r;
      assert !(g < f < r);
      assert r != f;
      assert Pair(log[..f + 1], g, r);
    }
  }

  /**
   * A revert makes the view exact if and only if the marker it goes back to is still shown and the
   * view was exact there, whether or not it is exact now.
   */
  lemma ExactAfterRevert(log: seq<Event>, e: Event)
    requires Legal(log) && Legal(log + [e]) && IsRevert(e)
    ensures ForkOf(log, e).Some?
    ensures var f := ForkOf(log, e).value;
            Exact(log + [e]) <==> !Dropped(log, f) && Exact(log[..f + 1])
  {
    hide Legal, Dropped, Pair;
    ForkOfRevert(log, e);
    RevertedLine(log, e);
    var f := ForkOf(log, e).value;
    var line := Replay(log[..f + 1]).line;
    LineUpTo(log, f);
    ExactMeansUndropped(log + [e]);
    ExactMeansUndropped(log[..f + 1]);
    forall q | q <= f
      ensures Dropped(log + [e], q) <==> Dropped(log, q)
      ensures Dropped(log[..f + 1], q) ==> Dropped(log, q)
    {
      DroppedThen(log, e, f, q);
    }
    LastNumber(log, e);
    NewestIsNotDropped(log + [e]);
    FromLog(log, f);
    assert log[f] in line;
    assert Undropped(log + [e], line + [e]) <==> Undropped(log, line);
    if !Dropped(log, f) && Undropped(log[..f + 1], line) {
      forall x | x in line ensures !Dropped(log, x.seqNo) { ShownMarkerKeepsItsLine(log, f, x.seqNo); }
    }
  }

  lemma FromLog(log: seq<Event>, f: nat)
    requires Legal(log) && f < |log|
    ensures log[f].seqNo == f
  {
  }

  /** Any other event leaves the view as exact, or as inexact, as it was. */
  lemma ExactAfterOther(log: seq<Event>, e: Event)
    requires Legal(log) && Legal(log + [e]) && !IsRevert(e)
    ensures Exact(log + [e]) <==> Exact(log)
  {
    hide Dropped, Legal;
    ExactMeansUndropped(log);
    ExactMeansUndropped(log + [e]);
    Snoc(log, e);
    assert Replay(log + [e]).line == Replay(log).line + [e];
    forall q { DroppedSnoc(log, e, q); }
    NewestIsNotDropped(log + [e]);
    LastNumber(log, e);
  }

  // --- Whether it is exact throughout

  lemma InCurrent(log: seq<Event>, q: nat)
    requires Legal(log) && q < |log|
    ensures log[q] in Current(log) <==> !Dropped(log, q)
  {
    hide Dropped;
    Numbered(log);
    KeptMembers(log, log);
  }

  lemma ShownMeansUndropped(log: seq<Event>, e: Event)
    requires Legal(log) && Legal(log + [e]) && IsRevert(e)
    ensures ForkOf(log, e).Some?
    ensures TargetShown(log, e) <==> !Dropped(log, ForkOf(log, e).value)
  {
    hide Dropped;
    ForkOfRevert(log, e);
    var f := ForkOf(log, e).value;
    KeptMembers(log, log);
    forall m | m in Current(log) && IsFork(m) && SnapshotId(m) == SnapshotId(e) ensures m == log[f] {
      OnlyOneMarker(log, m, log[f]);
    }
  }

  /** A line that holds a fork marker holds the whole line of that fork. */
  lemma LineStays(log: seq<Event>, f: nat)
    requires Legal(log) && f < |log| && IsFork(log[f]) && log[f] in Replay(log).line
    ensures Replay(log[..f + 1]).line <= Replay(log).line
  {
    hide Legal;
    ReplayNests(log);
    LineUpTo(log, f);
    SavedIsLineThen(log, f);
  }

  /** A view that is exact now was exact at each fork whose marker it still shows. */
  lemma ExactAtShownFork(log: seq<Event>, f: nat)
    requires Legal(log) && Exact(log) && f < |log| && IsFork(log[f]) && !Dropped(log, f)
    ensures Exact(log[..f + 1])
  {
    hide Dropped, Legal, Replay;
    var atFork, line := log[..f + 1], Replay(log).line;
    InCurrent(log, f);
    LegalPrefix(log, f + 1);
    LineStays(log, f);
    ExactMeansUndropped(log);
    ExactMeansUndropped(atFork);
    forall x | x in Replay(atFork).line ensures !Dropped(atFork, x.seqNo) {
      assert x in line && atFork + log[f + 1..] == log;
      if Dropped(atFork, x.seqNo) {
        DroppedForever(atFork, log[f + 1..], x.seqNo);
      }
    }
  }

  /**
   * One more event keeps an exact view exact, unless it reverts to a snapshot
   * whose fork marker the current branch no longer shows: then, and only then,
   * the view and the container part.
   */
  lemma StepKeepsExactness(log: seq<Event>, e: Event)
    requires Legal(log) && Legal(log + [e]) && Exact(log)
    ensures Exact(log + [e]) <==> (IsRevert(e) ==> TargetShown(log, e))
  {
    hide Legal, Exact, TargetShown, Dropped;
    if IsRevert(e) {
      ForkOfRevert(log, e);
      ExactAfterRevert(log, e);
      ShownMeansUndropped(log, e);
      if TargetShown(log, e) {
        ExactAtShownFork(log, ForkOf(log, e).value);
      }
    } else {
      ExactAfterOther(log, e);
    }
  }

  /** Every revert targets a fork that the current branch shows at that moment. */
  ghost predicate RevertsToShown(log: seq<Event>) {
    forall r :: 0 <= r < |log| && IsRevert(log[r]) ==> TargetShown(log[..r], log[r])
  }

  ghost predicate AlwaysExact(log: seq<Event>) {
    forall n :: 0 <= n <= |log| ==> Exact(log[..n])
  }

  lemma AlwaysExactSnoc(log: seq<Event>, e: Event)
    ensures AlwaysExact(log + [e]) <==> AlwaysExact(log) && Exact(log + [e])
  {
    var log' := log + [e];
    assert forall n :: 0 <= n <= |log| ==> log'[..n] == log[..n];
    assert log'[..|log'|] == log';
    if AlwaysExact(log') {
      forall n | 0 <= n <= |log| ensures Exact(log[..n]) { assert Exact(log'[..n]); }
      assert Exact(log'[..|log'|]);
    }
  }

  lemma RevertsToShownSnoc(log: seq<Event>, e: Event)
    ensures RevertsToShown(log + [e]) <==> RevertsToShown(log) && (IsRevert(e) ==> TargetShown(log, e))
  {
    var log' := log + [e];
    assert forall r :: 0 <= r < |log| ==> log'[..r] == log[..r] && log'[r] == log[r];
    assert log'[..|log|] == log && log'[|log|] == e;
    if RevertsToShown(log') {
      forall r | 0 <= r < |log| && IsRevert(log[r]) ensures TargetShown(log[..r], log[r]) {
        assert TargetShown(log'[..r], log'[r]);
      }
    }
  }

  lemma EmptyIsExact()
    ensures AlwaysExact([]) && RevertsToShown([])
  {
    var log: seq<Event> := [];
    assert forall n :: 0 <= n <= |log| ==> log[..n] == [];
  }

  lemma ExactAtEnd(log: seq<Event>)
    requires AlwaysExact(log)
    ensures Exact(log)
  {
    assert log[..|log|] == log;
  }

  /** The view is exact throughout a log exactly when every revert targets a shown fork. */
  lemma {:induction false} ExactIffRevertsToShown(log: seq<Event>)
    requires Legal(log)
    ensures AlwaysExact(log) <==> RevertsToShown(log)
  {
    hide AlwaysExact, RevertsToShown, Exact, TargetShown, Legal;
    if log == [] {
      EmptyIsExact();
    } else {
      var init, e := log[..|log| - 1], Last(log);
      assert log == init + [e];
      LegalPrefix(log, |log| - 1);
      ExactIffRevertsToShown(init);
      AlwaysExactSnoc(init, e);
      RevertsToShownSnoc(init, e);
      if AlwaysExact(init) {
        ExactAtEnd(init);
        StepKeepsExactness(init, e);
      }
    }
  }

  // --- The condition as the markers tell it

  /** The exact condition, read off the markers: follow the last revert back to its fork. */
  ghost predicate Faithful(log: seq<Event>)
    decreases |log|
  {
    if log == [] then true
    else
      var init, e := log[..|log| - 1], log[|log| - 1];
      match ForkOf(init, e)
      case Some(f) => !Dropped(init, f) && Faithful(log[..f + 1])
      case None => Faithful(init)
  }

  /** The view of any legal log is exact at its end if and only if the markers say so. */
  lemma {:induction false} ExactIffFaithful(log: seq<Event>)
    requires Legal(log)
    ensures Exact(log) <==> Faithful(log)
    decreases |log|
  {
    hide Legal, Exact, Dropped;
    if log == [] {
      EmptyIsExact();
      ExactAtEnd([]);
    } else {
      var init, e := log[..|log| - 1], log[|log| - 1];
      assert log == init + [e];
      LegalPrefix(log, |log| - 1);
      if IsRevert(e) {
        ExactAfterRevert(init, e);
        var f := ForkOf(init, e).value;
        assert init[..f + 1] == log[..f + 1];
        LegalPrefix(log, f + 1);
        ExactIffFaithful(log[..f + 1]);
      } else {
        ExactAfterOther(init, e);
        ExactIffFaithful(init);
      }
    }
  }

  // --- The same for the commands alone

  /** The current branch shows every command of the replayed line, and no other. */
  ghost predicate CommandsExact(log: seq<Event>) {
    Commands(Current(log)) == Commands(Replay(log).line)
  }

  ghost predicate CommandsUndropped(log: seq<Event>, xs: seq<Event>) {
    forall e :: e in xs && IsCommand(e) ==> !Dropped(log, e.seqNo)
  }

  lemma {:induction false} CommandMembers(xs: seq<Event>)
    ensures forall e :: e in Commands(xs) <==> e in xs && IsCommand(e)
  {
    if xs != [] {
      CommandMembers(xs[..|xs| - 1]);
      assert xs == xs[..|xs| - 1] + [xs[|xs| - 1]];
    }
  }

  lemma {:induction false} KeptCommandCount(log: seq<Event>, part: seq<Event>)
    ensures |Commands(Kept(log, part))| <= |Commands(part)|
    ensures CommandsUndropped(log, part) <==> Commands(Kept(log, part)) == Commands(part)
  {
    hide Dropped;
    if part != [] {
      var init, e := part[..|part| - 1], part[|part| - 1];
      KeptCommandCount(log, init);
      assert part == init + [e];
      CommandsSnoc(Kept(log, init), e);
      var kept, all := Commands(Kept(log, init)), Commands(init);
      assert kept + [e] == all + [e] <==> kept == all by { Snoc(kept, e); Snoc(all, e); }
    }
  }

  lemma CommandsExactMeansUndropped(log: seq<Event>)
    requires Legal(log)
    ensures CommandsExact(log) <==> CommandsUndropped(log, Replay(log).line)
  {
    CurrentIsKeptLine(log);
    KeptCommandCount(log, Replay(log).line);
  }

  /** Every command shown in `log` is still shown in `later`. */
  ghost predicate StillShown(log: seq<Event>, later: seq<Event>) {
    forall e :: e in Commands(Current(log)) ==> !Dropped(later, e.seqNo)
  }

  lemma {:induction false} CommandsShown(log: seq<Event>)
    requires Legal(log)
    ensures forall e :: e in Commands(Current(log)) <==> e in log && IsCommand(e) && !Dropped(log, e.seqNo)
  {
    CommandMembers(Current(log));
    KeptMembers(log, log);
  }

  /**
   * After a revert the view's commands are exactly the container's if and only if they were at the
   * fork, and every command shown then is shown still.
   */
  lemma CommandsAfterRevert(log: seq<Event>, e: Event)
    requires Legal(log) && Legal(log + [e]) && IsRevert(e)
    ensures ForkOf(log, e).Some?
    ensures var atFork := log[..ForkOf(log, e).value + 1];
            CommandsExact(log + [e]) <==> CommandsExact(atFork) && StillShown(atFork, log)
  {
    hide Legal, Dropped, Pair, CommandsExact;
    ForkOfRevert(log, e);
    RevertedLine(log, e);
    var f := ForkOf(log, e).value;
    var atFork := log[..f + 1];
    var line := Replay(atFork).line;
    LineUpTo(log, f);
    CommandsExactMeansUndropped(log + [e]);
    CommandsExactMeansUndropped(atFork);
    forall q | q <= f
      ensures Dropped(log + [e], q) <==> Dropped(log, q)
      ensures Dropped(atFork, q) ==> Dropped(log, q)
    {
      DroppedThen(log, e, f, q);
    }
    assert CommandsUndropped(log + [e], line + [e]) <==> CommandsUndropped(log, line);
    CommandsShown(atFork);
    ShownIsOnLine(atFork);
  }

  lemma ShownIsOnLine(log: seq<Event>)
    requires Legal(log)
    ensures forall e :: e in Commands(Current(log)) ==> e in Replay(log).line && IsCommand(e)
    ensures forall e :: e in Replay(log).line && IsCommand(e) && !Dropped(log, e.seqNo) ==> e in Commands(Current(log))
  {
    CurrentIsKeptLine(log);
    CommandMembers(Current(log));
    ReplayShape(log);
    KeptMembers(log, Replay(log).line);
  }

  lemma CommandsAfterOther(log: seq<Event>, e: Event)
    requires Legal(log) && Legal(log + [e]) && !IsRevert(e)
    ensures CommandsExact(log + [e]) <==> CommandsExact(log)
  {
    hide Legal, Dropped, CommandsExact;
    CommandsExactMeansUndropped(log);
    CommandsExactMeansUndropped(log + [e]);
    LineInLog(log);
    Snoc(log, e);
    assert Replay(log + [e]).line == Replay(log).line + [e];
    forall q { DroppedSnoc(log, e, q); }
    NewestIsNotDropped(log + [e]);
    LastNumber(log, e);
  }

  /**
   * The exact condition for commands, read off the log: follow the last revert back to its fork,
   * where every command shown then must be shown still.
   */
  ghost predicate CommandsKept(log: seq<Event>)
    decreases |log|
  {
    if log == [] then true
    else
      var init, e := log[..|log| - 1], log[|log| - 1];
      match ForkOf(init, e)
      case Some(f) => StillShown(log[..f + 1], init) && CommandsKept(log[..f + 1])
      case None => CommandsKept(init)
  }

  /** On every legal log the view shows exactly the replayed commands if and only if none was lost on the way. */
  lemma {:induction false} CommandsExactIffKept(log: seq<Event>)
    requires Legal(log)
    ensures CommandsExact(log) <==> CommandsKept(log)
    decreases |log|
  {
    hide Legal, StillShown;
    if log != [] {
      var init, e := log[..|log| - 1], log[|log| - 1];
      hide CommandsExact;
      assert log == init + [e];
      LegalPrefix(log, |log| - 1);
      if IsRevert(e) {
        CommandsAfterRevert(init, e);
        var f := ForkOf(init, e).value;
        assert init[..f + 1] == log[..f + 1];
        LegalPrefix(log, f + 1);
        CommandsExactIffKept(log[..f + 1]);
      } else {
        CommandsAfterOther(init, e);
        CommandsExactIffKept(init);
      }
    }
  }

  /** Reverts to shown forks only are enough, but not needed. */
  lemma RevertsToShownKeepCommands(log: seq<Event>)
    requires Legal(log) && RevertsToShown(log)
    ensures CommandsKept(log)
  {
    CurrentIsStack(log);
    CommandsExactIffKept(log);
  }

  // --- The stack machine

  /** Pop until the fork marker of `id` is on top. */
  function PopTo(stack: seq<Event>, id: string): seq<Event> {
    if stack == [] then []
    else if IsFork(stack[|stack| - 1]) && SnapshotId(stack[|stack| - 1]) == id then stack
    else PopTo(stack[..|stack| - 1], id)
  }

  /** Push every event; a revert first pops back to its fork marker. */
  function Stack(log: seq<Event>): seq<Event> {
    if log == [] then []
    else
      var stack := Stack(log[..|log| - 1]);
      var e := log[|log| - 1];
      (if IsRevert(e) then PopTo(stack, SnapshotId(e)) else stack) + [e]
  }

  lemma {:induction false} PopToMarker(stack: seq<Event>, saved: seq<Event>, id: string)
    requires saved <= stack && EndsAtFork(saved, id)
    requires forall i :: |saved| <= i < |stack| && IsFork(stack[i]) ==> SnapshotId(stack[i]) != id
    ensures PopTo(stack, id) == saved
  {
    if |stack| == |saved| {
      assert stack == saved;
    } else {
      PopToMarker(stack[..|stack| - 1], saved, id);
    }
  }

  lemma PopGivesSaved(log: seq<Event>, e: Event)
    requires Legal(log) && Legal(log + [e]) && Exact(log) && IsRevert(e) && TargetShown(log, e)
    ensures PopTo(Replay(log).line, SnapshotId(e)) + [e] == Replay(log + [e]).line
  {
    var saved, mark := RevertTarget(log, e);
    var line := Replay(log).line;
    ReplayShape(log);
    LineInLog(log);
    var m :| m in Current(log) && IsFork(m) && SnapshotId(m) == SnapshotId(e);
    OnlyOneMarker(log, m, mark);
    forall i | |saved| <= i < |line| && IsFork(line[i])
      ensures SnapshotId(line[i]) != SnapshotId(e)
    {
      assert line[|saved| - 1] == mark && line[i] in log;
      if SnapshotId(line[i]) == SnapshotId(e) {
        OnlyOneMarker(log, line[i], mark);
      }
    }
    PopToMarker(line, saved, SnapshotId(e));
  }

  /** On a timeline whose reverts all target shown forks, filter, replay and stack agree. */
  lemma {:induction false} CurrentIsStack(log: seq<Event>)
    requires Legal(log) && RevertsToShown(log)
    ensures Current(log) == Stack(log) == Replay(log).line
  {
    hide Legal, RevertsToShown, TargetShown;
    if log != [] {
      var init, e := log[..|log| - 1], Last(log);
      assert log == init + [e];
      LegalPrefix(log, |log| - 1);
      RevertsToShownSnoc(init, e);
      CurrentIsStack(init);
      StepKeepsExactness(init, e);
      if IsRevert(e) {
        PopGivesSaved(init, e);
      }
    }
  }

  // --- The view as the log grows, and the branches beside it

  /** Once dropped from the current branch, an event never comes back. */
  lemma DroppedForever(log: seq<Event>, more: seq<Event>, q: int)
    requires Legal(log) && Legal(log + more) && Dropped(log, q)
    ensures Dropped(log + more, q)
  {
    DroppedIsRolledBack(log, q);
    RolledBackGrows(log, more, q);
    DroppedIsRolledBack(log + more, q);
  }

  lemma {:induction false} BetweenMembers(log: seq<Event>, lo: nat, hi: Option<nat>)
    ensures forall e :: e in Between(log, lo, hi) <==> e in log && lo < e.seqNo && (hi.Some? ==> e.seqNo < hi.value)
  {
    if log != [] {
      BetweenMembers(log[..|log| - 1], lo, hi);
      assert log == log[..|log| - 1] + [log[|log| - 1]];
    }
  }

  /** Every event is on the current branch or on some reverted snapshot's branch, never on both. */
  lemma CurrentAndRevertedPartition(log: seq<Event>, e: Event)
    requires Increasing(log) && e in log && "all" !in ForkSeqs(log) && "current" !in ForkSeqs(log)
    ensures e in View(log, "current") <==>
      !(exists id :: id in Ranges(log) && e in View(log, id))
  {
    KeptMembers(log, log);
    forall id | id in Ranges(log)
      ensures e in View(log, id) <==> Inside(Ranges(log)[id], e.seqNo)
    {
      RevertTable(log, ForkSeqs(log), id);
      BetweenMembers(log, Ranges(log)[id].0, Some(Ranges(log)[id].1));
    }
  }

  // --- What each name of a branch stands for

  /** The fork of `id` is number `f`, its last revert number `r`. */
  ghost predicate LastPair(log: seq<Event>, id: string, f: int, r: int) {
    && Pair(log, f, r) && SnapshotId(log[f]) == id
    && forall q :: r < q < |log| && IsRevert(log[q]) ==> SnapshotId(log[q]) != id
  }

  /** The fork of `id` is number `f`, and it was never reverted. */
  ghost predicate LiveFork(log: seq<Event>, id: string, f: int) {
    && 0 <= f < |log| && IsFork(log[f]) && SnapshotId(log[f]) == id
    && forall q :: 0 <= q < |log| && IsRevert(log[q]) ==> SnapshotId(log[q]) != id
  }

  /** The branch is the events from number `lo` up to, and without, number `hi`. */
  ghost predicate Covers(log: seq<Event>, branch: string, lo: int, hi: int) {
    if branch == "all" then lo == 0 && hi == |log|
    else
      || LastPair(log, branch, lo - 1, hi)
      || (LiveFork(log, branch, lo - 1) && hi == |log|)
      || (!Forked(log, branch) && lo == hi == 0)
  }

  lemma {:induction false} BetweenIsSlice(log: seq<Event>, lo: nat, hi: Option<nat>)
    requires forall i :: 0 <= i < |log| ==> log[i].seqNo == i
    requires hi.Some? ==> lo < hi.value
    ensures var end := if hi.Some? && hi.value < |log| then hi.value else |log|;
            Between(log, lo, hi) == if lo + 1 <= end then log[lo + 1..end] else []
  {
    if log != [] {
      var n := |log| - 1;
      BetweenIsSlice(log[..n], lo, hi);
      assert lo + 1 <= n ==> log[lo + 1..n] + [log[n]] == log[lo + 1..];
      if hi.Some? && hi.value <= n {
        assert lo + 1 <= hi.value ==> log[..n][lo + 1..hi.value] == log[lo + 1..hi.value];
      } else {
        assert lo + 1 <= n ==> log[..n][lo + 1..n] == log[lo + 1..n];
      }
    }
  }

  ghost predicate LastFork(log: seq<Event>, id: string, f: int) {
    && 0 <= f < |log| && IsFork(log[f]) && SnapshotId(log[f]) == id
    && forall g :: f < g < |log| && IsFork(log[g]) ==> SnapshotId(log[g]) != id
  }

  /** The fork table of any log, legal or not, has each id of a fork marker, with its last one. */
  lemma {:induction false} ForkTableIds(log: seq<Event>, id: string)
    ensures id in ForkSeqs(log) <==> Forked(log, id)
    ensures id in ForkSeqs(log) ==> exists f :: LastFork(log, id, f) && ForkSeqs(log)[id] == log[f].seqNo
  {
    if log != [] {
      var n := |log| - 1;
      var init := log[..n];
      ForkTableIds(init, id);
      assert log == init + [log[n]];
      ForkedSnoc(init, log[n], id);
      if IsFork(log[n]) && SnapshotId(log[n]) == id {
        assert LastFork(log, id, n);
      } else if id in ForkSeqs(init) {
        var f :| LastFork(init, id, f) && ForkSeqs(init)[id] == init[f].seqNo;
        assert LastFork(log, id, f) by {
          forall g | f < g < |log| && IsFork(log[g]) ensures SnapshotId(log[g]) != id {
            assert g < n ==> init[g] == log[g];
          }
        }
      }
    }
  }

  lemma RangeOfPair(log: seq<Event>, id: string, f: nat, r: nat)
    requires Legal(log) && LastPair(log, id, f, r)
    ensures id in Ranges(log) && Ranges(log)[id] == (f, r)
  {
    ForkTable(log);
    Numbered(log);
    RevertTable(log, ForkSeqs(log), id);
    assert RevertOf(log, r, id);
    var last :| RevertOf(log, last, id) && log[last].seqNo == Ranges(log)[id].1;
    assert last <= r;
  }

  lemma NoRange(log: seq<Event>, id: string)
    requires Legal(log) && forall q :: 0 <= q < |log| && IsRevert(log[q]) ==> SnapshotId(log[q]) != id
    ensures id !in Ranges(log)
  {
    Numbered(log);
    RevertTable(log, ForkSeqs(log), id);
  }

  /**
   * What a reader is shown for any name but "current": everything for "all", what lies between the
   * fork and its last revert, what follows a fork never reverted, nothing for an id never forked.
   */
  lemma ViewIsSlice(log: seq<Event>, branch: string, lo: int, hi: int)
    requires Legal(log) && branch != "current" && Covers(log, branch, lo, hi)
    ensures 0 <= lo <= hi <= |log| && View(log, branch) == log[lo..hi]
  {
    hide Legal, ForkSeqs, LastReverts;
    Numbered(log);
    ForkTableIds(log, branch);
    if branch == "all" {
      assert log[..|log|] == log;
    } else if LastPair(log, branch, lo - 1, hi) {
      RangeOfPair(log, branch, lo - 1, hi);
      BetweenIsSlice(log, lo - 1, Some(hi));
    } else if LiveFork(log, branch, lo - 1) {
      NoRange(log, branch);
      ForkTable(log);
      BetweenIsSlice(log, lo - 1, None);
    } else {
      RangesAreForked(log, branch);
    }
  }

  lemma RangesAreForked(log: seq<Event>, id: string)
    requires Legal(log) && !Forked(log, id)
    ensures id !in Ranges(log) && id !in ForkSeqs(log)
  {
    Numbered(log);
    ForkTableIds(log, id);
    RevertTable(log, ForkSeqs(log), id);
  }

  /** Every name but "current" stands for one such stretch. */
  lemma EveryBranchCovers(log: seq<Event>, branch: string) returns (lo: int, hi: int)
    requires Legal(log) && branch != "current"
    ensures Covers(log, branch, lo, hi)
  {
    lo, hi := 0, 0;
    if branch == "all" {
      hi := |log|;
    } else if Forked(log, branch) {
      var f :| 0 <= f < |log| && IsFork(log[f]) && SnapshotId(log[f]) == branch;
      hi := LastRevertOf(log, branch);
      lo := f + 1;
      if hi < |log| {
        ForkBefore(log, f, hi);
      }
    }
  }

  lemma ForkBefore(log: seq<Event>, f: nat, r: nat)
    requires Legal(log) && f < |log| && r < |log| && IsFork(log[f]) && RevertOf(log, r, SnapshotId(log[f]))
    ensures Pair(log, f, r)
  {
    var g :| 0 <= g < |log[..r]| && IsFork(log[..r][g]) && SnapshotId(log[..r][g]) == SnapshotId(log[r]);
    assert log[..r][g] == log[g];
  }

  /** The last revert of `id`, or the end of the log if there is none. */
  lemma {:induction false} LastRevertOf(log: seq<Event>, id: string) returns (r: nat)
    ensures r <= |log| && (r < |log| ==> RevertOf(log, r, id))
    ensures r < |log| ==> forall q :: r < q < |log| && IsRevert(log[q]) ==> SnapshotId(log[q]) != id
    ensures r == |log| ==> forall q :: 0 <= q < |log| && IsRevert(log[q]) ==> SnapshotId(log[q]) != id
  {
    r := |log|;
    if log != [] {
      var n := |log| - 1;
      if RevertOf(log, n, id) {
        r := n;
      } else {
        var s := LastRevertOf(log[..n], id);
        assert forall q :: 0 <= q < n ==> log[..n][q] == log[q];
        r := if s == n then |log| else s;
      }
    }
  }

  /** And "current" for what no fork/revert pair rolled back, in order. */
  lemma CurrentIsNotRolledBack(log: seq<Event>)
    requires Legal(log)
    ensures Increasing(View(log, "current"))
    ensures forall e :: e in View(log, "current") <==> e in log && !RolledBack(log, e.seqNo)
  {
    hide Dropped;
    Numbered(log);
    KeptMembers(log, log);
    forall q { DroppedIsRolledBack(log, q); }
  }

  // --- The branch of a snapshot that was not reverted

  /** Every event after `f` is on the replayed line. */
  ghost predicate AllOnLine(log: seq<Event>, f: nat) {
    forall q :: f < q < |log| ==> log[q] in Replay(log).line
  }

  ghost predicate NoneDropped(log: seq<Event>, f: nat) {
    forall q :: f < q < |log| ==> !Dropped(log, q)
  }

  /** Each revert after `f`, but for one that comes first, goes back to a fork just before it. */
  ghost predicate RevertsAtOnce(log: seq<Event>, f: nat) {
    forall r :: f + 1 < r < |log| && IsRevert(log[r]) ==> Pair(log, r - 1, r)
  }

  lemma OnLineAfterRevert(init: seq<Event>, e: Event, f: nat)
    requires Legal(init) && Legal(init + [e]) && IsRevert(e) && f + 1 < |init|
    ensures AllOnLine(init + [e], f) <==> AllOnLine(init, f) && Pair(init + [e], |init| - 1, |init|)
  {
    hide Legal, Pair, Replay, AllOnLine;
    RevertedLine(init, e);
    ForkOfRevert(init, e);
    var g, n := ForkOf(init, e).value, |init|;
    if g == n - 1 {
      assert init[..g + 1] == init;
      LineGrows(init, e, f);
    } else {
      LineUpTo(init, g);
      NewestIsLost(init, e, Replay(init[..g + 1]).line, f);
      if Pair(init + [e], n - 1, n) { OnePartner(init + [e], n, g, n - 1); }
    }
  }

  lemma LineGrows(init: seq<Event>, e: Event, f: nat)
    requires Legal(init) && Legal(init + [e]) && Replay(init + [e]).line == Replay(init).line + [e]
    ensures AllOnLine(init + [e], f) <==> AllOnLine(init, f)
  {
    hide Legal, Replay;
    LastNumber(init, e);
    assert forall q :: 0 <= q < |init| ==> (init + [e])[q] == init[q];
    forall q | f < q < |init| ensures init[q] != e { FromLog(init, q); }
  }

  lemma NewestIsLost(init: seq<Event>, e: Event, saved: seq<Event>, f: nat)
    requires Legal(init) && Legal(init + [e]) && f + 1 < |init|
    requires Replay(init + [e]).line == saved + [e]
    requires forall x :: x in saved ==> x.seqNo + 1 < |init|
    ensures !AllOnLine(init + [e], f)
  {
    hide Legal, Replay;
    LastNumber(init, e);
    FromLog(init, |init| - 1);
    assert init[|init| - 1] !in saved + [e];
    assert (init + [e])[|init| - 1] == init[|init| - 1];
  }

  lemma OnePartner(log: seq<Event>, r: nat, f: nat, g: nat)
    requires Legal(log) && Pair(log, f, r)
    ensures Pair(log, g, r) <==> g == f
  {
  }

  lemma OnLineAfterOther(init: seq<Event>, e: Event, f: nat)
    requires Legal(init) && Legal(init + [e]) && !IsRevert(e)
    ensures AllOnLine(init + [e], f) <==> AllOnLine(init, f)
  {
    hide Legal, AllOnLine;
    Snoc(init, e);
    assert Replay(init + [e]).line == Replay(init).line + [e];
    LineGrows(init, e, f);
  }

  lemma RevertsAtOnceSnoc(init: seq<Event>, e: Event, f: nat)
    ensures RevertsAtOnce(init + [e], f) <==>
      RevertsAtOnce(init, f) && (f + 1 < |init| && IsRevert(e) ==> Pair(init + [e], |init| - 1, |init|))
  {
    var log := init + [e];
    assert forall q :: 0 <= q < |init| ==> log[q] == init[q];
    assert forall f, r :: r < |init| ==> (Pair(log, f, r) <==> Pair(init, f, r));
    assert log[|init|] == e;
  }

  /** Everything after a point is on the replayed line if and only if each later revert was made at once. */
  lemma {:induction false} AllOnLineIff(log: seq<Event>, f: nat)
    requires Legal(log)
    ensures AllOnLine(log, f) <==> RevertsAtOnce(log, f)
  {
    hide Legal, Pair, AllOnLine, RevertsAtOnce;
    if |log| <= f + 2 {
      ShortTail(log, f);
    } else {
      var init, e := log[..|log| - 1], log[|log| - 1];
      assert log == init + [e];
      LegalPrefix(log, |log| - 1);
      AllOnLineIff(init, f);
      RevertsAtOnceSnoc(init, e, f);
      if IsRevert(e) { OnLineAfterRevert(init, e, f); } else { OnLineAfterOther(init, e, f); }
    }
  }

  lemma ShortTail(log: seq<Event>, f: nat)
    requires Legal(log) && |log| <= f + 2
    ensures AllOnLine(log, f) && RevertsAtOnce(log, f)
  {
    ReplayShape(log);
  }

  lemma NoneDroppedIff(log: seq<Event>, f: nat)
    requires Legal(log)
    ensures NoneDropped(log, f) <==> RevertsAtOnce(log, f)
  {
    hide Dropped;
    forall q { DroppedIsRolledBack(log, q); }
    if NoneDropped(log, f) {
      forall r | f + 1 < r < |log| && IsRevert(log[r]) ensures Pair(log, r - 1, r) {
        var g :| 0 <= g < |log[..r]| && IsFork(log[..r][g]) && SnapshotId(log[..r][g]) == SnapshotId(log[r]);
        assert Pair(log, g, r);
        assert g < r - 1 ==> RolledBack(log, r - 1);
      }
    }
    if RevertsAtOnce(log, f) {
      forall q | f < q < |log| ensures !RolledBack(log, q) {
        forall g, r | Pair(log, g, r) && q < r ensures g == r - 1 {
          assert IsRevert(log[r]) && Pair(log, r - 1, r);
        }
      }
    }
  }

  lemma TailMembers(log: seq<Event>, f: nat, e: Event)
    requires Legal(log)
    ensures e in Between(log, f, None) <==> f < e.seqNo < |log| && log[e.seqNo] == e
  {
    BetweenMembers(log, f, None);
    Numbered(log);
    if e in log {
      var q :| 0 <= q < |log| && log[q] == e;
    }
  }

  lemma TailOnLine(log: seq<Event>, f: nat)
    requires Legal(log)
    ensures (forall e :: e in Between(log, f, None) ==> e in Replay(log).line) <==> AllOnLine(log, f)
  {
    forall e { TailMembers(log, f, e); }
    Numbered(log);
    hide Legal, Replay, Between;
    assert forall q :: f < q < |log| ==> log[q] in Between(log, f, None);
  }

  lemma TailShown(log: seq<Event>, f: nat)
    requires Legal(log)
    ensures (forall e :: e in Between(log, f, None) ==> e in Current(log)) <==> NoneDropped(log, f)
  {
    hide Legal, Dropped, Between, Current;
    forall e { TailMembers(log, f, e); }
    Numbered(log);
    forall q | 0 <= q < |log| ensures log[q] in Current(log) <==> !Dropped(log, q) { InCurrent(log, q); }
    assert forall q :: f < q < |log| ==> log[q] in Between(log, f, None);
  }

  /**
   * The view of a snapshot that was forked and not reverted is all on the live line, and all on the
   * current branch, if and only if each revert since, but for one right after the fork, went to the
   * fork just before it.
   */
  lemma LiveBranchIff(log: seq<Event>, id: string)
    requires Legal(log) && id != "all" && id != "current" && id in ForkSeqs(log) && id !in Ranges(log)
    ensures (forall e :: e in View(log, id) ==> e in Replay(log).line) <==> RevertsAtOnce(log, ForkSeqs(log)[id])
    ensures (forall e :: e in View(log, id) ==> e in Current(log)) <==> RevertsAtOnce(log, ForkSeqs(log)[id])
  {
    var f := ForkSeqs(log)[id];
    hide ForkSeqs, Ranges, RevertsAtOnce, AllOnLine, NoneDropped, Replay, Current, Between, Legal;
    AllOnLineIff(log, f);
    NoneDroppedIff(log, f);
    TailOnLine(log, f);
    TailShown(log, f);
  }

  /** Fork A, fork B, run a command, revert A: the live branch of B is gone. */
  function SideLog(cmd: Event): seq<Event> {
    [ForkEvent(0, "A"), ForkEvent(1, "B"), cmd, RevertEvent(3, "A")]
  }

  lemma SideLogIsLegal(cmd: Event)
    requires cmd.kind == AgentCommand && cmd.seqNo == 2
    ensures var log := SideLog(cmd);
      && Legal(log) && Pair(log, 0, 3) && IsFork(log[1]) && SnapshotId(log[1]) == "B"
      && forall r :: !RevertOf(log, r, "B")
  {
    var log := SideLog(cmd);
    assert SnapshotId(log[0]) == SnapshotId(log[3]) == "A" && SnapshotId(log[1]) == "B";
    assert IsFork(log[..3][0]) && SnapshotId(log[..3][0]) == SnapshotId(log[3]);
    assert forall r :: 0 <= r < |log| && IsRevert(log[r]) ==> r == 3;
  }

  lemma SideViewShows(cmd: Event)
    requires cmd.kind == AgentCommand && cmd.seqNo == 2
    ensures cmd in View(SideLog(cmd), "B")
  {
    var log := SideLog(cmd);
    assert log[2] == cmd;
    SideLogIsLegal(cmd);
    ForkTable(log);
    Numbered(log);
    hide SideLog, Legal, Dropped;
    RevertTable(log, ForkSeqs(log), "B");
    hide ForkSeqs, LastReverts;
    BetweenMembers(log, 1, None);
  }

  lemma LiveBranchCanBeGone(cmd: Event)
    requires cmd.kind == AgentCommand && cmd.seqNo == 2
    ensures var log := SideLog(cmd);
            Legal(log) && cmd in View(log, "B") && cmd !in Replay(log).line && cmd !in Current(log)
  {
    var log := SideLog(cmd);
    assert log[2] == cmd;
    SideLogIsLegal(cmd);
    hide SideLog, Dropped, View, Legal, Replay, Current;
    SideViewShows(cmd);
    SideLineLacks(cmd);
    DroppedIsRolledBack(log, 2);
    InCurrent(log, 2);
  }

  lemma SideLineLacks(cmd: Event)
    requires cmd.kind == AgentCommand && cmd.seqNo == 2 && Legal(SideLog(cmd))
    ensures cmd !in Replay(SideLog(cmd)).line
  {
    var log := SideLog(cmd);
    var init, e := log[..3], log[3];
    assert log == init + [e];
    assert SnapshotId(log[0]) == SnapshotId(e) == "A" && IsFork(log[0]) && init[0] == log[0];
    LegalPrefix(log, 3);
    RevertedLine(init, e);
    ForkTable(init);
    LineUpTo(init, 0);
  }

  // --- Where the view and the container part

  function ForkEvent(n: nat, id: string): Event {
    Event(n, SessionForked, map["snapshot_id" := Text(id)])
  }

  function RevertEvent(n: nat, id: string): Event {
    Event(n, SessionReverted, map["snapshot_id" := Text(id)])
  }

  /** Fork A, run a command, fork B, revert A, revert B. */
  function AbandonedLog(cmd: Event): seq<Event> {
    [ForkEvent(0, "A"), cmd, ForkEvent(2, "B"), RevertEvent(3, "A"), RevertEvent(4, "B")]
  }

  lemma AbandonedLogIsLegal(cmd: Event)
    requires cmd.kind == AgentCommand && cmd.seqNo == 1
    ensures Legal(AbandonedLog(cmd))
  {
    var log := AbandonedLog(cmd);
    assert IsFork(log[..3][0]) && SnapshotId(log[..3][0]) == SnapshotId(log[3]);
    assert IsFork(log[..4][2]) && SnapshotId(log[..4][2]) == SnapshotId(log[4]);
    assert forall r :: 0 <= r < |log| && IsRevert(log[r]) ==> r == 3 || r == 4;
  }

  lemma AbandonedLogReplay(cmd: Event)
    requires cmd.kind == AgentCommand && cmd.seqNo == 1
    ensures Replay(AbandonedLog(cmd)).line == [ForkEvent(0, "A"), cmd, ForkEvent(2, "B"), RevertEvent(4, "B")]
  {
    var log := AbandonedLog(cmd);
    var l1, l2, l3, l4 := log[..1], log[..2], log[..3], log[..4];
    assert SnapshotId(log[0]) == SnapshotId(log[3]) == "A" && SnapshotId(log[2]) == SnapshotId(log[4]) == "B";
    assert Replay([]) == History([], map[]);
    assert l1[..0] == [] && l1[0] == log[0] && l2[..1] == l1 && l3[..2] == l2 && l4[..3] == l3 && log[..4] == l4;
    assert Replay(l1).line == [log[0]];
    assert Replay(l1).saved["A"] == [log[0]];
    assert Replay(l2).line == [log[0], cmd] && Replay(l2).saved["A"] == [log[0]];
    assert Replay(l3).saved["B"] == [log[0], cmd, log[2]];
    assert Replay(l4).saved["B"] == [log[0], cmd, log[2]];
  }

  /**
   * Reverting to a snapshot of an abandoned branch brings its command back into
   * the container, but not into the view; both markers inside the wider
   * discarded range are dropped as well.
   */
  lemma AbandonedSnapshotIsOmitted(cmd: Event)
    requires cmd.kind == AgentCommand && cmd.seqNo == 1
    ensures Legal(AbandonedLog(cmd)) && cmd in Replay(AbandonedLog(cmd)).line
    ensures Current(AbandonedLog(cmd)) == [ForkEvent(0, "A"), RevertEvent(4, "B")]
  {
    var log := AbandonedLog(cmd);
    AbandonedLogIsLegal(cmd);
    AbandonedLogReplay(cmd);
    assert Replay(log).line[1] == cmd;
    assert forall e :: e in log <==> e in {log[0], log[1], log[2], log[3], log[4]};
    hide Replay, Legal, Dropped;
    AbandonedLogDrops(cmd);
    KeptMembers(log, log);
    SameMembers(Current(log), [log[0], log[4]]);
  }

  lemma AbandonedLogDrops(cmd: Event)
    requires cmd.kind == AgentCommand && cmd.seqNo == 1
    ensures forall q :: Dropped(AbandonedLog(cmd), q) <==> 0 < q < 4
  {
    var log := AbandonedLog(cmd);
    AbandonedLogIsLegal(cmd);
    assert SnapshotId(log[0]) == SnapshotId(log[3]) == "A" && SnapshotId(log[2]) == SnapshotId(log[4]) == "B";
    assert Pair(log, 0, 3) && Pair(log, 2, 4);
    hide Dropped, Legal;
    forall q ensures Dropped(log, q) <==> 0 < q < 4 {
      DroppedIsRolledBack(log, q);
    }
  }

  /** A revert to a fork that opens the log makes the view exact, wherever it was before. */
  lemma RevertToTheStart(log: seq<Event>, e: Event)
    requires Legal(log) && Legal(log + [e]) && IsRevert(e)
    requires log != [] && IsFork(log[0]) && SnapshotId(log[0]) == SnapshotId(e)
    ensures Exact(log + [e])
  {
    hide Exact, Dropped;
    ExactAfterRevert(log, e);
    ForkTable(log);
    DroppedIsRolledBack(log, 0);
    LegalPrefix(log, 1);
    LegalPrefix(log, 0);
    assert log[..1] == log[..0] + [log[0]];
    ExactAfterOther(log[..0], log[0]);
    EmptyIsExact();
    ExactAtEnd(log[..0]);
  }

  /** One more revert to A, whose marker is still shown, and the view is exact again. */
  lemma ViewRecovers(cmd: Event)
    requires cmd.kind == AgentCommand && cmd.seqNo == 1
    ensures var log := AbandonedLog(cmd);
            !Exact(log) && Legal(log + [RevertEvent(5, "A")]) && Exact(log + [RevertEvent(5, "A")])
  {
    var log, e := AbandonedLog(cmd), RevertEvent(5, "A");
    AbandonedSnapshotIsOmitted(cmd);
    assert cmd !in Current(log);
    hide Current, Replay, Legal;
    assert SnapshotId(e) == "A" && SnapshotId(log[0]) == "A" && IsFork(log[0]) && IsRevert(e);
    LegalRevert(log, e, 0);
    RevertToTheStart(log, e);
  }

  lemma LegalRevert(log: seq<Event>, e: Event, f: nat)
    requires Legal(log) && IsRevert(e) && e.seqNo == |log|
    requires f < |log| && IsFork(log[f]) && SnapshotId(log[f]) == SnapshotId(e)
    ensures Legal(log + [e])
  {
    var log' := log + [e];
    forall r | 0 <= r < |log'| && IsRevert(log'[r])
      ensures Forked(log'[..r], SnapshotId(log'[r]))
    {
      assert log'[..r] == if r < |log| then log[..r] else log;
    }
  }

  /** Fork A, fork B, revert A, revert B: the last revert is to a fork no longer shown. */
  function IdleLog(): seq<Event> {
    [ForkEvent(0, "A"), ForkEvent(1, "B"), RevertEvent(2, "A"), RevertEvent(3, "B")]
  }

  lemma IdleLogIsLegal()
    ensures Legal(IdleLog())
  {
    var log := IdleLog();
    assert IsFork(log[..2][0]) && SnapshotId(log[..2][0]) == SnapshotId(log[2]) == "A";
    assert IsFork(log[..3][1]) && SnapshotId(log[..3][1]) == SnapshotId(log[3]) == "B";
    assert forall r :: 0 <= r < |log| && IsRevert(log[r]) ==> r == 2 || r == 3;
  }

  lemma IdleLogKeepsCommands()
    ensures CommandsKept(IdleLog())
  {
    var log := IdleLog();
    IdleLogIsLegal();
    assert forall e :: e in log ==> !IsCommand(e);
    hide Legal, CommandsKept, IdleLog;
    CommandsExactIffKept(log);
    CommandsExactMeansUndropped(log);
    LineInLog(log);
  }

  lemma IdleLogHidesB()
    ensures var log := IdleLog(); forall m :: m in Current(log[..3]) ==> m in {log[0], log[2]}
  {
    var log := IdleLog()[..3];
    IdleLogIsLegal();
    LegalPrefix(IdleLog(), 3);
    assert SnapshotId(log[0]) == SnapshotId(log[2]) == "A";
    assert Pair(log, 0, 2);
    hide Legal;
    DroppedIsRolledBack(log, 1);
    KeptMembers(log, log);
    assert forall m :: m in log ==> m in {log[0], log[1], log[2]};
  }

  /** With no command in between nothing is lost, so reverts to shown forks are not needed for exact commands. */
  lemma UnshownRevertCanBeHarmless()
    ensures Legal(IdleLog()) && !RevertsToShown(IdleLog()) && CommandsKept(IdleLog())
  {
    var log := IdleLog();
    IdleLogIsLegal();
    IdleLogKeepsCommands();
    IdleLogHidesB();
    assert SnapshotId(log[0]) == "A" && SnapshotId(log[3]) == "B" && IsRevert(log[3]) && !IsFork(log[2]);
    hide Legal, CommandsKept, Current;
    assert !TargetShown(log[..3], log[3]);
  }
}
