/** The append-only trajectory file: its writer, and how a writer picks up where the last one stopped. */
module Trajectory {
  import opened Events
  import opened Overflow
  import opened Utf8
  import Protocol

  /** A line of the file on disk; a torn one does not parse. */
  datatype Line = Blank | Whole(e: Event) | Torn

  function Parsed(lines: seq<Line>): seq<Event> {
    if lines == [] then []
    else
      var rest := Parsed(lines[..|lines| - 1]);
      match lines[|lines| - 1]
      case Whole(e) => rest + [e]
      case _ => rest
  }

  /** The last line that is not blank. */
  function LastLine(lines: seq<Line>): Line {
    if lines == [] then Blank
    else if lines[|lines| - 1] != Blank then lines[|lines| - 1]
    else LastLine(lines[..|lines| - 1])
  }

  function NextSeq(last: Line): nat {
    match last
    case Whole(e) => e.seqNo + 1
    case _ => 0
  }

  method RecoverNextSeq(lines: seq<Line>) returns (next: nat)
    ensures next == NextSeq(LastLine(lines))
  {
    var lastLine := Blank;
    for i := 0 to |lines|
      invariant lastLine == LastLine(lines[..i])
    {
      assert lines[..i + 1][..i] == lines[..i];
      if lines[i] != Blank {
        lastLine := lines[i];
      }
    }
    assert lines[..|lines|] == lines;
    match lastLine {
      case Whole(e) => return e.seqNo + 1;
      case _ => return 0;
    }
  }

  ghost predicate Numbered(events: seq<Event>) {
    forall i :: 0 <= i < |events| ==> events[i].seqNo == i
  }

  lemma {:induction false} LastLineIsLastEvent(lines: seq<Line>)
    ensures LastLine(lines).Whole? ==> Parsed(lines) != [] && Parsed(lines)[|Parsed(lines)| - 1] == LastLine(lines).e
    ensures LastLine(lines).Blank? ==> Parsed(lines) == []
  {
    if lines != [] {
      LastLineIsLastEvent(lines[..|lines| - 1]);
    }
  }

  /**
   * A reopened writer continues the numbering exactly when the last line is
   * not torn, or nothing parsed came before it.
   */
  lemma RecoveryContinues(lines: seq<Line>)
    requires Numbered(Parsed(lines))
    ensures NextSeq(LastLine(lines)) == |Parsed(lines)| <==> (LastLine(lines).Torn? ==> Parsed(lines) == [])
  {
    LastLineIsLastEvent(lines);
  }

  /** On a file of whole lines this is the next number that the protocol's resumed writers take. */
  lemma RecoveryOfWholeLines(log: seq<Event>, lines: seq<Line>)
    requires |lines| == |log| && forall i :: 0 <= i < |log| ==> lines[i] == Whole(log[i])
    ensures NextSeq(LastLine(lines)) == Protocol.RecoverNext(log)
  {
  }

  datatype WriteError = WriterClosed | WriterNotOpen

  datatype WriteResult = Written(e: Event) | Refused(error: WriteError)

  function CappedKinds(): set<EventType> {
    {SetupCommand, AgentCommand, VerifyCommand}
  }

  class File {
    var lines: seq<Line>

    constructor ()
      ensures lines == []
    {
      lines := [];
    }
  }

  /** The data that reaches the file: command output is capped, if there is a store to spill to. */
  function Kept(kind: EventType, data: Data, maxBytes: nat, sha: Hash): Data {
    if kind in CappedKinds() then Capped(data, maxBytes, sha) else data
  }

  function Stored(files: Files, kind: EventType, data: Data, maxBytes: nat, sha: Hash): Files {
    if kind in CappedKinds() then SpillAll(files, data, maxBytes, sha) else files
  }

  lemma CappedIsSmall(data: Data, maxBytes: nat, sha: Hash)
    ensures Small(Capped(data, maxBytes, sha), maxBytes)
  {
    hide Capped, Encode, Fitting;
    FieldsAfterCapping(data, maxBytes, sha);
    forall field | field in ["stdout", "stderr"] && HasOverflow(data, field, maxBytes)
      ensures |Encode(data[field].s[..Fitting(data[field].s, maxBytes)])| <= maxBytes
    {
      HeadIsLongest(data[field].s, maxBytes);
    }
    assert "stdout" in ["stdout", "stderr"] && "stderr" in ["stdout", "stderr"];
  }

  class TrajectoryWriter {
    const file: File
    const store: Store
    const capping: bool
    const maxBytes: nat
    var seqNo: nat
    var isOpen: bool
    var closed: bool

    constructor (file: File, store: Store, capping: bool, maxBytes: nat)
      ensures this.file == file && this.store == store && this.capping == capping && this.maxBytes == maxBytes
      ensures !isOpen && !closed && seqNo == 0
    {
      this.file, this.store, this.capping, this.maxBytes := file, store, capping, maxBytes;
      seqNo, isOpen, closed := 0, false, false;
    }

    method Open()
      modifies this
      ensures isOpen && closed == old(closed)
      ensures seqNo == if old(isOpen) || file.lines == [] then old(seqNo) else NextSeq(LastLine(file.lines))
    {
      if isOpen {
        return;
      }
      if file.lines != [] {
        seqNo := RecoverNextSeq(file.lines);
      }
      isOpen := true;
    }

    /** Refuses when sealed or not open; otherwise appends one line, the event it returns. */
    method Write(kind: EventType, data: Data, sha: Hash) returns (r: WriteResult)
      modifies this, file, store
      ensures closed ==> r == Refused(WriterClosed)
      ensures !closed && !isOpen ==> r == Refused(WriterNotOpen)
      ensures old(!closed && isOpen) ==>
        r == Written(Event(old(seqNo), kind, if capping then Kept(kind, data, maxBytes, sha) else data))
      ensures r.Written? && capping && IsCommand(r.e) ==> Small(r.e.data, maxBytes)
      ensures r.Written? && !(capping && IsCommand(r.e)) ==> r.e.data == data && store.files == old(store.files)
      ensures r.Refused? ==> file.lines == old(file.lines) && seqNo == old(seqNo) && store.files == old(store.files)
      ensures r.Written? ==> file.lines == old(file.lines) + [Whole(r.e)] && seqNo == old(seqNo) + 1
      ensures r.Written? ==>
        store.files == if capping then Stored(old(store.files), kind, data, maxBytes, sha) else old(store.files)
      ensures isOpen == old(isOpen) && closed == old(closed)
    {
      hide Capped, SpillAll, Small;
      CappedIsSmall(data, maxBytes, sha);
      if closed {
        return Refused(WriterClosed);
      }
      if !isOpen {
        return Refused(WriterNotOpen);
      }
      var payload := data;
      if capping && kind in CappedKinds() {
        payload := store.CapCommandData(data, maxBytes, sha);
      }
      var event := Event(seqNo, kind, payload);
      file.lines := file.lines + [Whole(event)];
      seqNo := seqNo + 1;
      return Written(event);
    }

    method Close()
      modifies this
      ensures !isOpen && closed && seqNo == old(seqNo)
    {
      isOpen := false;
      closed := true;
    }
  }

  // --- Whole runs of writes, with capping on

  /** A writer's disk after one write: the events of its file, and the store. */
  datatype Disk = Disk(events: seq<Event>, files: Files)

  function WriteTo(d: Disk, kind: EventType, data: Data, maxBytes: nat, sha: Hash): Disk {
    Disk(d.events + [Event(|d.events|, kind, Kept(kind, data, maxBytes, sha))],
         Stored(d.files, kind, data, maxBytes, sha))
  }

  function WriteAll(d: Disk, inputs: seq<(EventType, Data)>, maxBytes: nat, sha: Hash): Disk {
    if inputs == [] then d
    else
      var (kind, data) := inputs[|inputs| - 1];
      WriteTo(WriteAll(d, inputs[..|inputs| - 1], maxBytes, sha), kind, data, maxBytes, sha)
  }

  /** No stream of the record is longer than the cap. */
  predicate Small(data: Data, maxBytes: nat) {
    && ("stdout" in data && data["stdout"].Text? ==> |Encode(data["stdout"].s)| <= maxBytes)
    && ("stderr" in data && data["stderr"].Text? ==> |Encode(data["stderr"].s)| <= maxBytes)
  }

  /** A command's line is small and loses nothing to the cap; any other line is as it was written. */
  ghost predicate LineOk(e: Event, data: Data, files: Files, maxBytes: nat) {
    if IsCommand(e) then Small(e.data, maxBytes) && Recoverable(files, data, e.data, maxBytes)
    else e.data == data
  }

  /** The command record `data`, written as `kind`, has a stream over the cap whose name is `h`. */
  ghost predicate SpilledBy(kind: EventType, data: Data, h: string, maxBytes: nat, sha: Hash) {
    && kind in {SetupCommand, AgentCommand, VerifyCommand}
    && exists field | field in ["stdout", "stderr"] ::
         HasOverflow(data, field, maxBytes) && sha(Encode(data[field].s)) == h
  }

  ghost predicate RunOk(d: Disk, inputs: seq<(EventType, Data)>, maxBytes: nat) {
    && |d.events| == |inputs| && Numbered(d.events)
    && (forall i :: 0 <= i < |inputs| ==>
          d.events[i].kind == inputs[i].0 && LineOk(d.events[i], inputs[i].1, d.files, maxBytes))
  }

  /** Every file in the store was there before, or was spilled by some command of the run. */
  ghost predicate OnlySpilled(before: Files, after: Files, inputs: seq<(EventType, Data)>, maxBytes: nat, sha: Hash) {
    forall h :: h in after && h !in before ==>
      exists i :: 0 <= i < |inputs| && SpilledBy(inputs[i].0, inputs[i].1, h, maxBytes, sha)
  }

  lemma RecoverableGrows(files: Files, after: Files, data: Data, capped: Data, maxBytes: nat)
    requires Recoverable(files, data, capped, maxBytes)
    requires forall h :: h in files ==> h in after && after[h] == files[h]
    ensures Recoverable(after, data, capped, maxBytes)
  {
    hide Decode, LongestHead, Overflows;
  }

  lemma StoreAfterWrite(files: Files, kind: EventType, data: Data, maxBytes: nat, sha: Hash)
    requires Injective(sha) && Addressed(files, sha)
    ensures var after := Stored(files, kind, data, maxBytes, sha);
            && Addressed(after, sha)
            && (forall h :: h in files ==> h in after && after[h] == files[h])
            && (forall h :: h in after && h !in files ==> SpilledBy(kind, data, h, maxBytes, sha))
  {
    hide Encode, Injective;
    SpillKeeps(files, data, maxBytes, sha);
    assert "stdout" in ["stdout", "stderr"] && "stderr" in ["stdout", "stderr"];
    CappingOneLeavesOther(data, maxBytes, sha);
  }

  lemma LineAfterWrite(files: Files, e: Event, data: Data, maxBytes: nat, sha: Hash)
    requires Injective(sha) && Addressed(files, sha) && e.data == Kept(e.kind, data, maxBytes, sha)
    ensures LineOk(e, data, Stored(files, e.kind, data, maxBytes, sha), maxBytes)
  {
    hide Recoverable, Capped, Encode, Injective, Small;
    if IsCommand(e) {
      SpillKeeps(files, data, maxBytes, sha);
      var after := SpillAll(files, data, maxBytes, sha);
      CappedIsRecoverable(after, data, maxBytes, sha);
      CappedIsSmall(data, maxBytes, sha);
    }
  }

  lemma LineStaysOk(e: Event, data: Data, files: Files, after: Files, maxBytes: nat)
    requires LineOk(e, data, files, maxBytes) && forall h :: h in files ==> h in after && after[h] == files[h]
    ensures LineOk(e, data, after, maxBytes)
  {
    hide Recoverable, Small;
    if IsCommand(e) {
      RecoverableGrows(files, after, data, e.data, maxBytes);
    }
  }

  /**
   * After any run of writes into a sound store, the i-th line has number i. The line of a command is
   * within the cap and every stream of it can be read back in full; any other line is what was
   * written. Nothing stored before was changed, and nothing is stored but what a command spilled.
   */
  lemma {:induction false} EveryWriteIsRecoverable(files: Files, inputs: seq<(EventType, Data)>, maxBytes: nat,
                                                   sha: Hash)
    requires Injective(sha) && Addressed(files, sha)
    ensures var d := WriteAll(Disk([], files), inputs, maxBytes, sha);
            && RunOk(d, inputs, maxBytes) && Addressed(d.files, sha)
            && OnlySpilled(files, d.files, inputs, maxBytes, sha)
            && forall h :: h in files ==> h in d.files && d.files[h] == files[h]
  {
    hide LineOk, Injective, Addressed, Kept, Stored, SpilledBy, OnlySpilled;
    if inputs == [] {
      NoneSpilled(files, maxBytes, sha);
    } else {
      var n := |inputs| - 1;
      EveryWriteIsRecoverable(files, inputs[..n], maxBytes, sha);
      var before := WriteAll(Disk([], files), inputs[..n], maxBytes, sha);
      var (kind, data) := inputs[n];
      StoreAfterWrite(before.files, kind, data, maxBytes, sha);
      var after := WriteTo(before, kind, data, maxBytes, sha);
      LineAfterWrite(before.files, after.events[n], data, maxBytes, sha);
      forall i | 0 <= i < n ensures LineOk(after.events[i], inputs[i].1, after.files, maxBytes) {
        LineStaysOk(before.events[i], inputs[i].1, before.files, after.files, maxBytes);
      }
      OneMoreSpilled(files, before.files, after.files, inputs, maxBytes, sha);
    }
  }

  lemma NoneSpilled(files: Files, maxBytes: nat, sha: Hash)
    ensures OnlySpilled(files, files, [], maxBytes, sha)
  {
  }

  lemma OneMoreSpilled(files: Files, before: Files, after: Files, inputs: seq<(EventType, Data)>, maxBytes: nat,
                       sha: Hash)
    requires inputs != [] && OnlySpilled(files, before, inputs[..|inputs| - 1], maxBytes, sha)
    requires forall h :: h in after && h !in before ==>
               SpilledBy(inputs[|inputs| - 1].0, inputs[|inputs| - 1].1, h, maxBytes, sha)
    ensures OnlySpilled(files, after, inputs, maxBytes, sha)
  {
    hide SpilledBy;
    var n := |inputs| - 1;
    forall h | h in after && h !in files
      ensures exists i :: 0 <= i < |inputs| && SpilledBy(inputs[i].0, inputs[i].1, h, maxBytes, sha)
    {
      if h in before {
        var i :| 0 <= i < n && SpilledBy(inputs[..n][i].0, inputs[..n][i].1, h, maxBytes, sha);
        assert inputs[i] == inputs[..n][i];
      }
    }
  }

  /** A run of writes continued is one longer run. */
  lemma {:induction false} WriteAllContinues(d: Disk, first: seq<(EventType, Data)>, more: seq<(EventType, Data)>,
                                             maxBytes: nat, sha: Hash)
    ensures WriteAll(WriteAll(d, first, maxBytes, sha), more, maxBytes, sha) == WriteAll(d, first + more, maxBytes, sha)
  {
    if more == [] {
      assert first + more == first;
    } else {
      var n := |more| - 1;
      WriteAllContinues(d, first, more[..n], maxBytes, sha);
      assert first + more == (first + more[..n]) + [more[n]];
      Snoc(first + more[..n], more[n]);
    }
  }

  /** What a reader finds in the file, and the store beside it. */
  function OnDisk(file: File, store: Store): Disk
    reads file, store
  {
    Disk(Parsed(file.lines), store.files)
  }

  /** A writer opened on a sound file, used and closed: its writes are the run that the theorems are about. */
  method WriteRun(file: File, store: Store, inputs: seq<(EventType, Data)>, maxBytes: nat, sha: Hash)
    requires Numbered(Parsed(file.lines)) && !LastLine(file.lines).Torn?
    modifies file, store
    ensures OnDisk(file, store) == WriteAll(old(OnDisk(file, store)), inputs, maxBytes, sha)
    ensures Numbered(Parsed(file.lines)) && !LastLine(file.lines).Torn?
  {
    hide Kept, Stored;
    var w := new TrajectoryWriter(file, store, true, maxBytes);
    RecoveryContinues(file.lines);
    w.Open();
    for i := 0 to |inputs|
      invariant fresh(w) && w.file == file && w.store == store && w.capping && w.maxBytes == maxBytes
      invariant w.isOpen && !w.closed && w.seqNo == |Parsed(file.lines)|
      invariant Numbered(Parsed(file.lines)) && !LastLine(file.lines).Torn?
      invariant OnDisk(file, store) == WriteAll(old(OnDisk(file, store)), inputs[..i], maxBytes, sha)
    {
      ghost var lines := file.lines;
      var r := w.Write(inputs[i].0, inputs[i].1, sha);
      Snoc(lines, Whole(r.e));
      assert inputs[..i + 1][..i] == inputs[..i];
    }
    w.Close();
    assert inputs[..|inputs|] == inputs;
  }
}
