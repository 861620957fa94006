# Prehnite: sessions, trajectories and what is read from them

Prehnite runs an agent in a Docker container and writes every action to an append-only trajectory. This
project models the parts of it where a mistake would be hard to see, and proves what they promise.

- **Sessions.** The MCP server's tools as a state machine over Docker, the disk and the server's memory, in
  which the process may die between any two effects and proxy threads write egress events in between
  (`Protocol`, `Invariant`, `Effects`). `Server.Host` is the server itself: a class whose methods are the tools,
  each effect of which is shown to be a step of the machine. `Sessions` says what holds in every reachable world:
  logs, counters, containers and snapshots agree, restarts resume only what is consistent, and reap is safe and
  complete. `Restarts` says exactly which sessions come back after a crash, and as what; `Leftovers` which snapshots
  a session still knows, and which images outlive it; `Markers` what the markers of a log tell of its containers.
- **Branches.** The reader's filter over fork and revert markers (`Branch`), against a replay of the log and a
  stack machine. The filter never shows a command the container does not hold. It shows all of them if and only if
  each revert, followed back from the last one, went to a fork whose shown commands were all still shown; reverts to
  forks that are still shown are enough for that, and not needed.
- **Trajectory files.** The writer, its recovery after a restart (`Trajectory`), its lock under several threads
  (`WriterThreads`), and the capping of command output into a content-addressed store (`Utf8`, `Overflow`).
- **Sandboxes.** One sandbox as the owner of Docker resources that may be refused at any point (`Sandbox`), and the
  same calls made on it and through the server's tools side by side (`Mirror`).
- **Headless runs.** `run` and the grammar of the log it leaves (`Runner`, `Results`).
- **Statistics.** Summaries, per-task rows, the overall line, snapshots and their comparison (`Stats`, `Compare`,
  `Order`, `Numerals`), with bounds on how far the floored rates can part.
- **Egress proxy.** The allowlist, the reading of the request line in arbitrary chunks, the decision, and the
  handler (`Proxy`).

Only ghost state has no counterpart in the code: the command history of each container and image
(`Protocol.Ran`), how far the tool call in progress has come, the ids handed out, the commands whose log line was
lost and the list of steps a host has taken (`call`, `issued`, `interrupted` and `past` of `Server.Host`), and what
a sandbox has made (`made`, `committed` and `proxies` of `Sandbox.Sandbox`).

Calls into Docker, the network and the clock are parameters: how a container's creation or a command went, which
ids were handed out, which events the proxy writes next, how the bytes of a request arrive. SHA-256 is an
arbitrary function; the theorems that need distinct names for distinct contents say so (`Overflow.Injective`).

## Where the code and its documentation part

- `docs/devlog/0021-branch-aware-reads.md:77` says fork and revert markers are always in the current branch. A
  marker inside a wider discarded range is dropped like anything else (`Branch.AbandonedSnapshotIsOmitted`).
- `src/prehnite/mcp_server.py:200-203` calls what follows an unreverted fork the live branch starting there. Once an
  earlier fork is reverted it is not live (`Branch.LiveBranchCanBeGone`); `Branch.LiveBranchIff` says when it is.
- Sessions are promised to survive a restart (`src/prehnite/mcp_server.py:18`), cleanly if their network is not
  restricted and also after a SIGKILL (`docs/devlog/0017-session-persistence.md:98`,
  `docs/devlog/0017-session-persistence.md:124-125`). One that is between two containers when the server dies does
  not (`Restarts.LostInRevert`, `Sessions.CrashInRevertDropsSession`); every other unrestricted one can be resumed
  (`Restarts.ResumableIff`).
- `fork` promises an id to pass to `revert` (`src/prehnite/mcp_server.py:388-389`). A restart forgets it
  (`Leftovers.KnownIffNotCrashed`).
- Snapshots are promised not to outlive their session (`src/prehnite/mcp_server.py:398-399`,
  `src/prehnite/sandbox.py:250-251`, `docs/devlog/0020-fork-revert.md:50-51`). A restart forgets which images a
  session took, so finishing or aborting it afterwards leaves them to reap (`Leftovers.LeftoverImageIff`).
- `src/prehnite/overflow.py:89-91` calls the store self-healing. An existing file is never rewritten, so a partial
  one stays (`Overflow.PartialFileStays`); `Overflow.SpilledIffNotOccupied` gives the exact condition.
- `stats --task "(unknown)"` does not select the row shown under that name (`Compare.UnnamedRunIsNotFound`,
  `Compare.FilteredTableIff`).
- Every attempt is said to be reported (`src/prehnite/egress_proxy.py:7`). An allowed one is not when connecting
  raises something other than `OSError` (`Proxy.Server.Handle`).
- The batch runner's reader is to say "incomplete" if run_finished is missing (`src/prehnite/cli.py:938`). It also does
  when an egress event comes after it, where the statistics say "passed" (`Stats.LateEgressParts`);
  `Stats.ReadersAgreeIff` gives the exact condition.
- The result of a run whose sandbox did not start carries a shorter reason than its log (`Runner.Run`).

## Model

| member | source | states |
|---|---|---|
| Branch.FilterBranch | src/prehnite/mcp_server.py:187-245 | the loops over forks, reverts and discarded numbers compute the view of any branch: all, current, a reverted snapshot's range, a live snapshot's tail, nothing for an unknown id |
| Branch.ViewIsSlice | src/prehnite/mcp_server.py:195-245 | on any log the tools can write: "all" is the whole log; a reverted snapshot's branch is just what lies between its own fork and its own last revert; an unreverted one's is what follows its fork; an id never forked has none |
| Branch.EveryBranchCovers | src/prehnite/mcp_server.py:195-245 | every name but "current" is one of these |
| Branch.CurrentIsNotRolledBack | src/prehnite/mcp_server.py:230-235 | "current" is, in order, the events that no fork/revert pair rolled back |
| Branch.ForkTableIds | src/prehnite/mcp_server.py:211-217 | on any log at all the fork table has exactly the ids of its fork markers, each with its last one |
| Branch.LastRevertSuffices | src/prehnite/mcp_server.py:219-233 | keeping only the last revert of each snapshot drops exactly what the ranges of all reverts drop together |
| Branch.DroppedIsRolledBack | src/prehnite/mcp_server.py:219-233 | on any log the tools can write, a number is dropped if and only if it lies strictly between some fork and a revert to it |
| Branch.ForkTable | src/prehnite/mcp_server.py:211-217 | the fork table of a legal log holds exactly its fork markers, each under its own id |
| Branch.ReplayShape | src/prehnite/mcp_server.py:387-441 | replaying a legal log gives a line of its events in order ending with the last one, and one saved line per forked snapshot, ending at its marker |
| Branch.ReplayNests | src/prehnite/mcp_server.py:387-441 | a fork marker on a line carries with it the whole line that was saved at that fork |
| Branch.ReplayCovers | src/prehnite/mcp_server.py:211-235 | an event that the replay lost was rolled back by some fork/revert pair |
| Branch.CurrentIsKeptLine | src/prehnite/mcp_server.py:219-235 | soundness on every legal log: the current branch is the replayed line with some events left out, commands included |
| Branch.ExactAfterRevert | src/prehnite/mcp_server.py:211-235 | whatever the view was before, a revert makes it exact if and only if the marker it goes back to is still shown and the view was exact at that fork |
| Branch.ExactAfterOther | src/prehnite/mcp_server.py:211-235 | any other event leaves the view exactly as exact as it was |
| Branch.ExactIffFaithful | src/prehnite/mcp_server.py:211-235 | so the view of any legal log is exact now if and only if the markers, followed back from the last revert, say so |
| Branch.CommandsAfterRevert | src/prehnite/mcp_server.py:211-235 | after a revert the shown commands are exactly the replayed ones if and only if they were at the fork and every command shown then is still shown |
| Branch.CommandsAfterOther | src/prehnite/mcp_server.py:211-235 | any other event leaves the commands exactly as exact as they were |
| Branch.CommandsExactIffKept | src/prehnite/mcp_server.py:211-235 | so on any legal log the shown commands are the replayed ones if and only if none was lost on the way back through the reverts |
| Branch.RevertsToShownKeepCommands | src/prehnite/mcp_server.py:211-235 | reverts to shown forks lose no command |
| Branch.UnshownRevertCanBeHarmless | src/prehnite/mcp_server.py:211-235 | but they are not needed: fork A, fork B, revert A, revert B loses none |
| Branch.ViewRecovers | src/prehnite/mcp_server.py:211-235 | fork A, command, fork B, revert A, revert B, revert A: a view that had parted is exact again |
| Branch.ExactIffRevertsToShown | src/prehnite/mcp_server.py:211-235 | the view equals the replay at every point of a log, with no lapse in between, if and only if every revert in it targets a fork shown at that point |
| Branch.CurrentIsStack | src/prehnite/mcp_server.py:211-235 | on such logs the filter, the replay and the stack machine (push; on revert pop to the marker) agree |
| Branch.DroppedForever | src/prehnite/mcp_server.py:219-235 | what was once dropped from the current branch stays dropped as the log grows |
| Branch.CurrentAndRevertedPartition | src/prehnite/mcp_server.py:230-240 | every event is shown on the current branch or on some reverted snapshot's branch, never on both |
| Branch.LiveBranchIff | src/prehnite/mcp_server.py:200-203 | the view of a snapshot that was not reverted is all on the live line if and only if each revert since, but for one right after the fork, went to the fork just before it; and the same of its being all on the current branch |
| Branch.LiveBranchCanBeGone | src/prehnite/mcp_server.py:241-244 | fork A, fork B, command, revert A: the view of B shows a command that neither the container nor the current branch has |
| Branch.AbandonedSnapshotIsOmitted | src/prehnite/sandbox.py:205-214 | fork A, command, fork B, revert A, revert B: the container holds the command, the current branch shows only the first and the last marker |
| Invariant.StepKeepsInv | src/prehnite/mcp_server.py:297-530 | every step of every tool, of a crash, a restart, a proxy thread and reap keeps the whole invariant |
| Invariant.ReachableInv | src/prehnite/mcp_server.py:297-530 | the invariant holds after every possible run from an empty host |
| Invariant.AppendIsLegal | src/prehnite/mcp_server.py:387-441 | whatever a step appends, logs stay numbered from 0, with fresh fork ids and reverts to earlier forks only |
| Sessions.ShownCommandsAreInContainer | src/prehnite/mcp_server.py:219-235 | in every reachable world each command the current branch shows is in the live container, in that order |
| Sessions.ShownCommandsAreTheContainers | src/prehnite/mcp_server.py:211-235 | in every reachable world the current branch's commands are exactly the live container's logged ones if and only if the log lost none on the way; with reverts to shown forks only, they are also the stack machine's |
| Sessions.SessionsMatchTheirLogs | src/prehnite/mcp_server.py:100-173 | crash consistency: every session in memory, resumed or not, has the log's length as next number, the log's agent commands as count, an existing container holding the replayed commands, and at most one unlogged command per interrupted exec |
| Sessions.UnloggedAtMost | src/prehnite/mcp_server.py:361-376 | over any run: a session's container ran at most one command without a log line for each crash and each exec that raised too late, and the one running |
| Markers.LogNamesTheContainer | src/prehnite/mcp_server.py:402-441 | in every reachable world the last fork or revert marker of a log names the container its session is bound to, and each revert marker names as previous the container named before it, or none |
| Markers.StepKeepsNames | src/prehnite/mcp_server.py:402-441 | no step of any tool, crash, restart or reap breaks that, for sessions in memory and for those on file |
| Sessions.SnapshotsAreRestorable | src/prehnite/sandbox.py:174-234 | a snapshot a session may revert to exists and holds the commands its fork saved |
| Sessions.CrashInRevertDropsSession | src/prehnite/mcp_server.py:415-441 | if the process dies at any point from the removal of the old container to the writing of the session file, or after a revert that failed, no later restart ever resumes that session |
| Restarts.ResumableIff | src/prehnite/mcp_server.py:100-173 | over any run: after a crash, whatever happened since (containers stopping, reap, further servers starting and dying), a starting server that has not come to the session's file yet can resume it if and only if the session was not between two containers when the process died and its network is not restricted |
| Restarts.ResumedAsItWas | src/prehnite/mcp_server.py:145-171 | and what is resumed is the session as it was before the crash: same log, next number and command count, same container with the same history, no snapshots |
| Restarts.LostInRevert | src/prehnite/sandbox.py:205-234 | one revert, both ways: a process that dies before the old container is removed leaves a session that can be resumed, one that dies right after does not |
| Sessions.ReapIsSafe | src/prehnite/cli.py:1245-1279 | run between tool calls or with the server down, reap spares every container and snapshot a session can still use, and every session a restart could resume can still be resumed |
| Sessions.ReapIsComplete | src/prehnite/cli.py:1245-1391 | run between tool calls in any reachable world, reap leaves exactly the containers bound to a session in memory, and any whose first twelve characters a file happens to name, and exactly the images of listed sessions |
| Sessions.ReapedByFiles | src/prehnite/cli.py:1245-1391 | with the server up or down, what is left is what readable session files name |
| Leftovers.KnownIffNotCrashed | src/prehnite/mcp_server.py:388-389 | over any run: a listed session can still revert to a snapshot it took if and only if the server has not died since |
| Leftovers.LeftoverImageIff | src/prehnite/mcp_server.py:398-399 | over any run: the image of a snapshot is still there after its session was finished or aborted if and only if the server died between the fork and that end, and reap has not been run since |
| Leftovers.LeftoverHappens | src/prehnite/sandbox.py:263-286 | the run that starts a task, forks, dies, restarts and finishes leaves an image labelled with a session that is gone |
| Server.Host.StartTask | src/prehnite/mcp_server.py:297-358 | a session is listed and saved only after setup passed; the log then tells of the container and each setup command; a failed start or setup command leaves a log sealed with that error and no container, a raised exec leaves the container behind |
| Server.Host.RunSetup | src/prehnite/mcp_server.py:332-344 | setup commands run in order, each logged; the first failure ends the task, and how decides what stays |
| Server.Host.Exec | src/prehnite/mcp_server.py:361-376 | the command is run in the session's own container and logged as the returned result: command, exit code and time as they were, stdout and stderr each in its own field, whole if it fits the cap and else the longest head that does; its overflow is stored and the counter goes up by one; an unknown session changes nothing, a failing exec logs and stores nothing |
| Server.Host.EntriesReport | src/prehnite/sandbox.py:325-337 | each setup and verify entry in turn tells the command, exit code and time, and holds each stream, capped, in its own field |
| Server.Host.ExecAndLog | src/prehnite/sandbox.py:288-337 | a command reaches the log if and only if it exited in a running container, and then container history and log line are the same event |
| Server.FailedAre | src/prehnite/mcp_server.py:487-493 | the failures reported are the verify commands that exited nonzero, each once, in order |
| Server.Host.Note | src/prehnite/mcp_server.py:379-384 | one thought event is added to that session's log, and nothing else but its next number changes |
| Server.Host.ReadTrajectory | src/prehnite/mcp_server.py:444-478 | of the branch asked for, spelled out as above, the events from `since_seq` on; for the whole current branch, its commands are in the container, and are all of it if and only if the log lost none |
| Server.Host.Fork | src/prehnite/mcp_server.py:387-412 | an image of the container's history labelled with the session id, remembered and marked in the log; a refused commit changes nothing |
| Server.Host.Revert | src/prehnite/mcp_server.py:415-441 | on success the session has a new container with the snapshot's history, a marker naming the snapshot, the previous and the new container, and a rewritten file; on failure no container, but snapshots, log and file as before; an id it did not take changes nothing |
| Server.Host.Persist | src/prehnite/mcp_server.py:75-88 | the session file names path, mode and container, through a state in which it is unreadable |
| Server.Host.FinishTask | src/prehnite/mcp_server.py:481-515 | every verify command is logged, then run_finished with the result, "passed" if and only if every verify command exited 0, and the reason, which the answer gives too, with the log's path and the container; "no agent activity" if and only if some verify failed and the log holds no agent command; if an exec raises, only the entries before it; either way session, container, file and the images taken since the last restart are gone |
| Server.Host.RunVerify | src/prehnite/mcp_server.py:487-493 | verify commands run and are logged in order, up to the first exec that raises |
| Server.Host.AbortTask | src/prehnite/mcp_server.py:518-530 | run_finished with "error" is logged and the session, its container, its file and the images taken since the last restart are gone |
| Server.Host.TearDown | src/prehnite/sandbox.py:339-359 | container, then the images the sandbox knows of, then writer and session file go, and no log gains an entry but egress |
| Server.Host.Rehydrate | src/prehnite/mcp_server.py:100-173 | exactly the sessions with a readable, unrestricted file whose container can be attached come back, with the container on file, the next number and the command count of their log, and no snapshots; every other file is deleted |
| Server.Host.ReapOrphans | src/prehnite/cli.py:1225-1279 | removes exactly the containers no session file names, by short or full id, and the images no session file owns |
| Server.Host.CollectLive | src/prehnite/cli.py:1297-1333 | the container ids and session ids of the readable session files |
| Server.Host.RemoveOrphanImages | src/prehnite/cli.py:1336-1359 | the images without an owner, or whose owner has no readable session file, go; the others stay |
| Server.Host.Die | src/prehnite/mcp_server.py:19-27 | a crash loses the sessions in memory and nothing else |
| Trajectory.RecoverNextSeq | src/prehnite/trajectory.py:125-141 | the next number after the last line that is not blank; 0 if there is none or it does not parse |
| Trajectory.RecoveryContinues | src/prehnite/trajectory.py:125-141 | a reopened writer continues the numbering if and only if the last line is whole or nothing parsed came before it |
| Trajectory.RecoveryOfWholeLines | src/prehnite/trajectory.py:125-141 | on whole lines this is the number the protocol's resumed sessions write next |
| Trajectory.TrajectoryWriter.Open | src/prehnite/trajectory.py:66-76 | opening recovers the counter from a nonempty file, once |
| Trajectory.TrajectoryWriter.Write | src/prehnite/trajectory.py:78-104 | a closed or unopened writer refuses and changes nothing; otherwise the returned event is the one new line; the streams of a setup, agent or verify command are within the cap, any other data is as given |
| Trajectory.TrajectoryWriter.Close | src/prehnite/trajectory.py:106-110 | the writer is closed for good |
| Trajectory.EveryWriteIsRecoverable | src/prehnite/trajectory.py:85-104 | over any run of writes the streams of every command line are within the cap and can be read back in full from head and store, every other line is as written, lines are numbered from 0, nothing stored is changed, and nothing is stored but what a command spilled |
| Trajectory.WriteRun | src/prehnite/trajectory.py:66-110 | a writer opened on a sound file, used and closed makes exactly such a run of file and store |
| Trajectory.WriteAllContinues | src/prehnite/trajectory.py:66-110 | and writers opened one after the other on a file make one run together |
| WriterThreads.LinesStayNumbered | src/prehnite/trajectory.py:78-110 | under every interleaving of lock-protected writes, unlocked closes, crashes and reopenings the i-th line has number i, old lines never change, and each returned event is the line on disk |
| WriterThreads.StepKeepsInv | src/prehnite/trajectory.py:78-110 | no micro-step of a write, close, crash or reopening breaks that |
| WriterThreads.WholeWriteAppends | src/prehnite/trajectory.py:78-104 | a write that nothing comes in between adds one line, the event it returns, and frees the lock |
| WriterThreads.SealedWriteDoesNothing | src/prehnite/trajectory.py:80-83 | on a writer that is closed or not open it changes nothing and frees the lock |
| Utf8.DecodeEncode | src/prehnite/overflow.py:78-99 | strict UTF-8 decoding undoes encoding, for every text |
| Utf8.EncodeDecode | src/prehnite/overflow.py:78-99 | only the shortest form of each character decodes: encoding gives the bytes back |
| Utf8.FittingIsLongest | src/prehnite/overflow.py:94-99 | the characters that fit a budget are the longest prefix that does, at most three bytes short of it |
| Utf8.BoundaryBytes | src/prehnite/overflow.py:94-98 | a byte of an encoding starts a character if and only if it is no continuation byte |
| Overflow.Store.CapStream | src/prehnite/overflow.py:58-105 | text within the cap is returned as is; longer text is cut to its longest fitting prefix, which decodes without replacement, with the hash and length of the whole, which is stored unless the hash is taken |
| Overflow.Store.CapCommandData | src/prehnite/overflow.py:108-132 | both streams are capped and marked, other fields kept |
| Overflow.FieldsAfterCapping | src/prehnite/overflow.py:108-132 | each stream field then holds its head, with the mark, original hash and original length, or what it held before |
| Overflow.CappedStream | src/prehnite/overflow.py:58-132 | of a fresh record each stream is there whole and unmarked if it fits, and else as its longest fitting head, marked as truncated, with hash and length of the whole |
| Overflow.OthersAfterCapping | src/prehnite/overflow.py:118-132 | no other field changes |
| Overflow.RecapIsIdentity | src/prehnite/overflow.py:108-132 | capping an already capped record changes nothing and stores nothing |
| Overflow.SpillKeeps | src/prehnite/overflow.py:85-92 | a spill keeps every stored file and every file under its own hash |
| Overflow.SpilledIffNotOccupied | src/prehnite/overflow.py:85-92 | the text is found under its recorded hash if and only if nothing else was stored there before |
| Overflow.PartialFileStays | src/prehnite/overflow.py:89-92 | a proper prefix stored under the text's hash stays as it is, and the text is not found there |
| Overflow.CappedIsRecoverable | src/prehnite/overflow.py:58-132 | in a sound store the head is the longest prefix, the stored bytes decode to the whole text, and the recorded length is theirs |
| Sandbox.Sandbox.Start | src/prehnite/sandbox.py:74-120 | a failed start leaves neither container nor proxy; the one way to lose a proxy is a second start after a failed revert, and exactly when is stated |
| Sandbox.Sandbox.Snapshot | src/prehnite/sandbox.py:174-203 | a snapshot id is remembered if and only if the commit succeeded |
| Sandbox.Sandbox.Revert | src/prehnite/sandbox.py:205-247 | an unknown id changes nothing; otherwise the old container is gone, and the sandbox is bound to the new one or to none, with all its snapshots still there |
| Sandbox.Sandbox.DeleteSnapshots | src/prehnite/sandbox.py:249-261 | every image the sandbox committed is gone |
| Sandbox.Sandbox.Attach | src/prehnite/sandbox.py:263-286 | binds an unbound sandbox to a container that exists, and never gains a snapshot |
| Sandbox.Sandbox.Stop | src/prehnite/sandbox.py:339-359 | afterwards nothing the sandbox made is left: no container, no image, no proxy |
| Sandbox.WithSandbox | src/prehnite/sandbox.py:62-72 | start, any snapshots and reverts however Docker answers, stop: the daemon's containers and images are what they were |
| Mirror.ForkBoth | src/prehnite/sandbox.py:174-203 | fork through the tool and on the sandbox itself succeed together and leave the same container, snapshots and Docker state |
| Mirror.RevertBoth | src/prehnite/sandbox.py:205-247 | so do the two reverts, however Docker answers |
| Mirror.StopBoth | src/prehnite/sandbox.py:339-359 | aborting a session and stopping its sandbox leave the same Docker state |
| Runner.Run | src/prehnite/runner.py:74-189 | with egress erased the log is a prefix of run_started setup* agent* verify* and one run_finished, and holds exactly the commands tried that exited, in order; the verdict is accounted for by the first thing that failed or raised; passed if and only if every setup and verify command was logged with exit 0; both readers of the log agree with the result unless an egress event came last; "no agent activity" if and only if failed with no agent command logged |
| Runner.Phases | src/prehnite/runner.py:100-168 | each phase runs only if the one before came through, and the verdict, reason included, is what the first failure or exception calls for |
| Runner.RunSetup | src/prehnite/runner.py:128-143 | setup commands are logged in order up to the first that raises or exits nonzero |
| Runner.RunFunction | src/prehnite/runner.py:44-47 | the context's counter is the number of agent commands logged, whatever the agent swallows |
| Runner.RunFixed | src/prehnite/runner.py:151-154 | a fixed list is logged and counted up to the first command that raises |
| Runner.RunVerify | src/prehnite/runner.py:156-161 | every verify command is logged unless one raises; the failures are those that exited nonzero |
| Runner.Recorder.ExecAndRecord | src/prehnite/runner.py:192-200 | a command that raises leaves no event, one that exits leaves exactly one, with command, exit code, duration, and stdout and stderr each in its own field |
| Runner.RunIsCounted | src/prehnite/cli.py:488-534 | the statistics of a run's log name its task if it got a container, call it passed, failed or in error exactly if its result does, and count the agent commands that exited |
| Runner.FailuresAre | src/prehnite/runner.py:156-161 | the failures of a verify phase are the commands that exited nonzero, each once, in order |
| Stats.Summarize | src/prehnite/cli.py:488-534 | one pass gives the last run_finished's result and reason, the last named run_started's task, and the number of agent commands, thoughts, attempts and allowed attempts among the events |
| Stats.ReadersAgreeIff | src/prehnite/cli.py:937-949 | the summary's outcome and the batch runner's agree if and only if run_finished is last, or absent, or says "incomplete" itself |
| Stats.LateEgressParts | src/prehnite/cli.py:937-949 | one egress event after the end: the summary says passed, the batch runner incomplete |
| Stats.FloorPct | src/prehnite/cli.py:558-559 | the floored percentage: at most 100 for a part, and off by less than one point |
| Stats.PerTaskRows | src/prehnite/cli.py:537-574 | one row per task key, in order: how many of the runs are of that task, how many of those passed, failed and were in error, and the floored shares |
| Stats.RowsConserveTotals | src/prehnite/cli.py:537-595 | task ids are distinct, and the rows' runs and passes add up to the overall counts |
| Stats.OverallTells | src/prehnite/cli.py:577-595 | the overall line counts the runs, the passes, the thoughts, the runs with thoughts, the allowed and the denied attempts one by one, and floors the two shares |
| Stats.PassRateIsBetweenRows | src/prehnite/cli.py:558-588 | the overall floored pass rate lies between the smallest and largest row's |
| Stats.ThoughtsPctIsBetweenRows | src/prehnite/cli.py:557-591 | so does the overall share of runs with thoughts |
| Order.SortedKeys | src/prehnite/cli.py:544 | the keys in code point order, each once |
| Order.BeforeIff | src/prehnite/cli.py:544 | one key comes before another if and only if, where they first part, it ends or has the smaller code point |
| Order.SortedIsUnique | src/prehnite/cli.py:1096 | there is only one such list, so the order of the input files cannot show |
| Compare.ReadRuns | src/prehnite/cli.py:412-424 | readable files are summarized in order, the others skipped, and the task filter applied |
| Compare.FilteredTableIff | src/prehnite/cli.py:422-423 | `--task` gives that task's row of the full table if and only if it is not "(unknown)" or no run is unnamed |
| Compare.UnnamedRunIsNotFound | src/prehnite/cli.py:422-423 | one run without a task id: the table has it as "(unknown)", and asking for that name finds nothing |
| Compare.StatsPayload | src/prehnite/cli.py:398-439 | the saved payload holds the table and the metrics of the selected runs; with none, the all-zero payload, which is the same thing |
| Compare.LoadSnapshot | src/prehnite/cli.py:1044-1087 | a missing input is an error; a payload loads as its rows by task and its overall numbers, a directory as the table and the overall line of its readable runs, which count runs, endings and floored shares one by one |
| Compare.SavedIsDirect | src/prehnite/cli.py:1044-1087 | loading a directory's own `stats --json` payload is loading the directory |
| Compare.RowsMakeTheTable | src/prehnite/cli.py:1054-1075 | indexing a table's rows by task gives each task its own row |
| Compare.ByTaskIsLast | src/prehnite/cli.py:1053-1055 | of several rows of one task in a saved payload the last one counts |
| Compare.DiffSnapshots | src/prehnite/cli.py:1090-1138 | one line per task of either snapshot, in order, with both its rows; the old rate plus the delta is the new rate, and the status is the sign of the delta, or says which row is missing |
| Compare.SwapFlips | src/prehnite/cli.py:1090-1138 | swapping the snapshots swaps regression with improvement and new with dropped, negates deltas, and keeps order |
| Compare.SelfCompare | src/prehnite/cli.py:1090-1138 | a snapshot compared with itself is unchanged throughout |
| Compare.NoRegressionEitherWay | src/prehnite/cli.py:1090-1138 | neither direction regresses if and only if all shared tasks kept their rate |
| Compare.CompareCommand | src/prehnite/cli.py:1023-1041 | exit code 2 if and only if an input is missing, 1 if and only if some shared task lost rate |
| Compare.RegressedIffListed | src/prehnite/cli.py:1038-1041 | the exit code says regression if and only if the payload lists one |
| Compare.ComparePayload | src/prehnite/cli.py:1198-1219 | the five lists are the tasks of each status, in order, beside the overall delta |
| Compare.BucketsPartition | src/prehnite/cli.py:1198-1219 | each task of either snapshot is in exactly one list, once, the one its rates call for, and the lists are in code point order |
| Compare.OverallDelta | src/prehnite/cli.py:1198-1212 | same tasks with the same positive run counts: the overall delta lies between the smallest task delta minus one and the largest plus one |
| Compare.UnflaggedDropIsOnePoint | src/prehnite/cli.py:1198-1212 | with no flagged task and equal run counts, the overall rate drops at most one point |
| Compare.OnePointIsLost | src/prehnite/cli.py:558-588 | the point can be lost: no task moves and the overall rate falls from 2 to 1 |
| Compare.RunCountsMatter | src/prehnite/cli.py:558-588 | without equal run counts no task moves and the overall rate falls from 90 to 10 |
| Proxy.MatchesIsUnder | src/prehnite/egress_proxy.py:48-53 | a host matches if and only if the labels of some allowed name are the last labels of the host, for all strings |
| Proxy.SubdomainsMatch | src/prehnite/egress_proxy.py:48-53 | matching is closed under subdomains and grows with the allowlist |
| Proxy.LookalikesDoNot | src/prehnite/egress_proxy.py:48-53 | text put before an allowed name matches it if and only if it ends in a dot |
| Proxy.HeadOfSettled | src/prehnite/egress_proxy.py:63-76 | outside the window below, the request line found is that of the whole stream, however it was chunked, and none when it is too long or missing |
| Proxy.ChunkIndependentIff | src/prehnite/egress_proxy.py:63-74 | the request line does not depend on the chunks if and only if the first CR LF starts by 12287, or from 16383 on, or there is none, or the stream fits the limit |
| Proxy.ReadLine | src/prehnite/egress_proxy.py:63-76 | the reading loop finds that line or gives up |
| Proxy.DecideLine | src/prehnite/egress_proxy.py:76-90 | 405 if and only if the line has fewer than two words or its first is not CONNECT in some mixture of cases; 400 if and only if it is and its second word is not a host, a colon and an integer; else that host and port, allowed if and only if it lies under a listed name |
| Proxy.SplitWoven | src/prehnite/egress_proxy.py:77 | the words of the line are what stands between blanks, however many |
| Proxy.LineIsFirst | src/prehnite/egress_proxy.py:63-76 | the line looked for ends at the first CR LF, and that within the first 16384 bytes |
| Proxy.BlankLineIff | src/prehnite/egress_proxy.py:94-101 | the headers end at CR LF CR LF |
| Proxy.ConnectRoundTrip | src/prehnite/egress_proxy.py:76-90 | `CONNECT host:port`, in any case and with anything after it, is read as that host and port, for every host without blanks and every port `int` takes |
| Proxy.TargetWasSent | src/prehnite/egress_proxy.py:76-90 | any host and port decided on stood in the request line as its second word, and allowed means under a listed name |
| Proxy.DrainHeaders | src/prehnite/egress_proxy.py:92-101 | the second loop takes just the chunks up to the first that completes the headers, or all there are, and keeps what it was given and took |
| Proxy.Server.Handle | src/prehnite/egress_proxy.py:59-144 | each reply belongs to one decision, with 405 and 400 exactly as above; only an allowed target is connected to, and every decided target is reported once unless connecting raises something other than OSError |
| Numerals.ParseIntIs | src/prehnite/egress_proxy.py:84-85 | the text of an integer is a sign or none and digits with single underscores between them, at most 4300 of them, and nothing else |
| Numerals.ParseDecimal | src/prehnite/egress_proxy.py:84-85 | a port written in decimal is read back, up to the length `int` accepts |

## Left out

- Torn writes, full disks, two writers on one file, and containers or images that will not go when removed: the code keeps none of the invariants there. `Trajectory.RecoveryContinues` says exactly what a torn last line costs the numbering; that every later reading of the file raises on that line, and that a line torn inside a character already stops the recovery, is not modelled.
- Session, snapshot and container ids and log paths are fresh in one namespace; a log path has one-second precision in the code (src/prehnite/runner.py:70).
- JSON, YAML and pydantic: an event or session file that was written is read back as it was, or is malformed as a whole. A session file whose task no longer validates, or whose id is empty, counts as refused in `Server.Host.Rehydrate`.
- Overflow files are written whole or not at all; what an existing partial file does is in `Overflow.SpilledIffNotOccupied`.
- Tool calls come one at a time; only proxy threads write in between. Closing a writer while the proxy still writes is in `WriterThreads` only.
- Server.Host.StartTask: after a raised exec in setup the writer and proxy stay open in the code; the model drops the session object then, so egress it would still log is not modelled. run_started carries no network policy.
- Runner.Recorder.ExecAndRecord: the event holds the output as it was; the writer caps it first, which is `Trajectory.TrajectoryWriter.Write`.
- Branch.FilterBranch: snapshot ids are text; the code turns any other value into text first.
- Timestamps of events.
- Server.Host.ReapOrphans: Docker answers every listing and removal; dry runs, stale log files and the printed plan are left out. Containers of headless runs and of a task still in setup have no session file, so reap removes them, in the code as in the model.
- Listing and describing tasks, task loading and schema limits: they read static files and change nothing.
- Runner.Run: exceptions that are not `Exception` (an interrupt) leave the log without run_finished and are not modelled; the list of failed commands in the reason is joined by commas where Python prints a list.
- Server.Host.Rehydrate: session files are read in any order, where the code sorts them; with distinct paths the result is the same.
- Stats.Summarize: the hosts and ports of egress attempts, from which nothing is computed, and the run's duration, which only goes into a median.
- Stats.PerTaskRows: the medians of agent commands and durations.
- Compare.StatsPayload: the most frequent failure reasons, and the medians of the rows.
- Proxy.Server.Handle: a reply that cannot be sent, or an attempt that cannot be recorded, ends the handler in the code.
- Rows of a saved payload that lack fields: a payload is one that `stats --json` printed, or any with complete rows.
- The tunnel itself, the proxy's thread lifecycle, and bytes read past the headers, which the code does not forward.
- Case-insensitive or trailing-dot host matching: the code compares exact strings.
- Printing and formatting, argument parsing, the batch runner's scheduling and modification times.
- EgressProxy and Docker at the socket and API level, the MCP transport: parameters of the model.
