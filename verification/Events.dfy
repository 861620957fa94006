/** Trajectory events: the lines of a session's log, and sequences of them. */
module Events {

  datatype Option<+T> = None | Some(value: T)

  datatype Value = Text(s: string) | Num(n: int) | Flag(b: bool) | Null

  type Data = map<string, Value>

  datatype EventType =
    | RunStarted
    | SetupCommand
    | AgentCommand
    | AgentThought
    | EgressAttempt
    | SessionForked
    | SessionReverted
    | VerifyCommand
    | RunFinished

  /** One line of a trajectory file. Timestamps are not part of this model. */
  datatype Event = Event(seqNo: nat, kind: EventType, data: Data)

  function TextField(data: Data, key: string): string {
    if key in data && data[key].Text? then data[key].s else ""
  }

  function SnapshotId(e: Event): string {
    TextField(e.data, "snapshot_id")
  }

  /** A fork marker; the reader ignores one without a snapshot id. */
  predicate IsFork(e: Event) {
    e.kind == SessionForked && SnapshotId(e) != ""
  }

  predicate IsRevert(e: Event) {
    e.kind == SessionReverted
  }

  predicate IsCommand(e: Event) {
    e.kind in {SetupCommand, AgentCommand, VerifyCommand}
  }

  /** The command events of `events`, in order. */
  function Commands(events: seq<Event>): seq<Event> {
    if events == [] then []
    else
      var rest := Commands(events[..|events| - 1]);
      var e := events[|events| - 1];
      if IsCommand(e) then rest + [e] else rest
  }

  function CountKind(events: seq<Event>, k: EventType): nat {
    if events == [] then 0
    else CountKind(events[..|events| - 1], k) + if events[|events| - 1].kind == k then 1 else 0
  }

  function CountAgent(events: seq<Event>): nat {
    CountKind(events, AgentCommand)
  }

  lemma Snoc<T>(xs: seq<T>, x: T)
    ensures (xs + [x])[..|xs|] == xs && (xs + [x])[|xs|] == x
  {
  }

  lemma CommandsSnoc(xs: seq<Event>, e: Event)
    ensures Commands(xs + [e]) == if IsCommand(e) then Commands(xs) + [e] else Commands(xs)
  {
    Snoc(xs, e);
  }

  /** What a log tells: kinds and data, egress erased. */
  function Story(log: seq<Event>): seq<(EventType, Data)> {
    if log == [] then []
    else
      var e := log[|log| - 1];
      Story(log[..|log| - 1]) + if e.kind == EgressAttempt then [] else [(e.kind, e.data)]
  }

  lemma StorySnoc(log: seq<Event>, e: Event)
    ensures Story(log + [e]) == Story(log) + if e.kind == EgressAttempt then [] else [(e.kind, e.data)]
  {
    Snoc(log, e);
  }

  /** `small` is `big` with some elements left out. */
  ghost predicate IsSubsequence<T>(small: seq<T>, big: seq<T>) {
    small == [] ||
    (big != [] &&
     (IsSubsequence(small, big[..|big| - 1]) ||
      (small[|small| - 1] == big[|big| - 1] && IsSubsequence(small[..|small| - 1], big[..|big| - 1]))))
  }
}
