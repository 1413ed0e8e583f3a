# Verified model of the AGS command line tool

AGS CLI drives cloud sandboxes from a terminal. Most of it is plumbing over HTTP clients, but some parts are
concurrent or keep state that several processes share. This project models those parts in Dafny and proves what they
are for: what every step of a protocol keeps, what holds of every run and every schedule, what a round trip gives back.

`dafny verify dfyconfig.toml` checks everything.

## How the code is modelled

Concurrent code is a transition system. A state holds the program point of every goroutine or process together with
what they share. `Step` is one move of one party, and it is partial: a party that is blocked cannot move. `Exec` runs
an arbitrary list of moves, and a move that is impossible when its turn comes changes nothing. A theorem about `Exec`
is therefore a theorem about every schedule, every choice of a ready `select` case and every failure or crash.

Sequential code keeps its own form: objects whose methods update fields are classes, loops are loops. Each method is
proved against a function of its inputs or of the old state, and what the code promises is proved about that function.

| file | subject |
|---|---|
| `TaskRunner.dfy` | the parallel task runner: goroutines, semaphore, mutexes, result channel, cleanup |
| `TaskList.dfy` | building the task list, counting the results, exit codes |
| `TunnelSession.dfy` | the ADB tunnel: one local connection through any number of WebSocket sessions |
| `Reconnect.dfy` | the two counters and the delays of the tunnel's reconnect loop |
| `LockedFile.dfy` | lock, load, change, write a temporary file, rename, unlock: any number of processes, any crash |
| `TunnelStore.dfy`, `TokenCache.dfy` | the two clients of that protocol |
| `NullStore.dfy` | the registry file that holds `null` |
| `ProcessKiller.dfy` | SIGTERM, polling and SIGKILL against a process table that reuses PIDs |
| `MobileCommands.dfy` | `mobile connect`, `disconnect` and `list` over the store and the process table |
| `PtyInput.dfy` | batching of keyboard input for a remote terminal, with the aliasing of byte slices |
| `ArgParser.dfy`, `History.dfy` | the tokenizer and the command history of the REPL |
| `MountOptions.dfy` | mount options from the command line to the API form and back |
| `Config.dfy` | domain, region and internal mode, with the deprecated ways to set them |
| `FormatSize.dfy` | the loop that picks the unit of a size |
| `Prelude.dfy`, `Strings.dfy`, `Tasks.dfy` | shared definitions and the string functions of the Go library |

The environment is an input of every model: how I/O calls end, what the cloud answers, how long an attempt takes,
what the process table does between two calls. Encodings (JSON) are invertible functions. Close codes 1000 and 1001
are those of section 7.4.1 of RFC 6455; 4001 is for private use (section 7.4.2).

## What the proofs brought out

Some properties one might expect are false. The code was kept as it is, and the exact condition is proved instead.

* `CleanupAll` depends on the order of map iteration exactly when two entries have the same PID and one of them would
  kill a process that the other one is not allowed to kill (`TunnelStore.OrderIsIrrelevantIffNoConflict`,
  `TunnelStore.ConflictIsPossible`).
* `mobile connect` treats a failed cleanup of the older tunnel and a failed save as warnings. When nothing interferes, a
  connect that gets its tunnel ready leaves the registry in step with the processes exactly when the save works and,
  if the process of the older tunnel of the sandbox is alive, the cleanup gets the lock and the file and the process
  can be terminated (`MobileCommands.Mobile.Connect`). Both ways to fail are real (`MobileCommands.FailedSaveLosesTrack`,
  `MobileCommands.StubbornTunnelIsNotReplaceable`).
* The PTY session closes `inputCh` while the goroutine that reads stdin may still come to send on it. At any moment of
  any session the goroutine can still panic, unless it has returned (`PtyInput.PanicIffReaderNotDone`). A goroutine that
  is blocked in its read when the session ends is in this situation: the next key press is enough.
* A registry file that holds the JSON value `null` decodes to a nil map, and `Save` panics on it. A sequence of calls
  panics exactly when it starts from such a file and some `Save` gets the lock and the file (`NullStore.PanicsIffNull`).
* Saving a tidy history and loading it gives it back exactly when no entry contains a line break
  (`History.ReloadIffSingleLines`).
* `readonly=false` sets the read-only flag of a mount option (`MountOptions.ReadOnlyHasNoFalse`,
  `MountOptions.ReadOnlyFalseIsAccepted`).
* A domain set before the internal flag ends up as the address of that pair exactly when it does not itself begin with
  `internal.` (`Config.AddressIffBare`). With `--domain` but without `--internal`, the deprecated `--cloud-internal`
  still decides (`Config.DomainFlagDecides`). A deprecated region flag is taken whichever backend is in use
  (`Config.RegionFlagDecides`).

Where the code and its comments differ, the code is followed. A WebSocket read that fails with anything but a close
error becomes `nil`, so there is no reconnect; when there is one is `TunnelSession.ReconnectsIff`. A failed write to the WebSocket closes `doneRead` and counts as a normal
end. The counter of "dial failures" counts every failing attempt shorter than a second, and a slow dial failure resets
it. A session is only over when the blocked read of the local connection has returned, and the blocked write to it as
well: the connection has no deadline and is closed only after the wait, so a client that reads no more can hold up the
reconnect loop (`TunnelSession.OnlyTheLocalClientCanBlock`, `TunnelSession.LocalWriteCanBlock`). A server that reads no more
can hold up a shutdown even before the WebSocket is closed, by the mutex around writes to it
(`TunnelSession.OnlyTheServerCanBlockTheMutex`, `TunnelSession.ShutdownCanBeBlocked`). That at most one
attempt begins after a shutdown needs no assumption that dialing fails then: the reconnect loop looks at the context
after every failing attempt.

## Model

| member | source | states |
|---|---|---|
| `TaskRunner.ResultsDoNotDependOnSchedule` | cmd/run.go:487-616 | under every schedule a finished run has `results[i]` written exactly once: the result and error of task i's execution, or no result and the message "failed to create sandbox: ..."; in text non-stream mode these results were each printed once, otherwise none was |
| `TaskRunner.SandboxesAreConserved` | cmd/run.go:514-613 | for every task and id: the sandbox is recorded exactly once if the create call of that task returned that id, and never otherwise; unless kept alive the recorded ones are killed once each, in recording order |
| `TaskRunner.ReachableStatesAreSafe` | cmd/run.go:491-606 | in every reachable state no more tasks are between acquire and release than the flag allows, all of them when it names no number from 1 to the number of tasks; sandboxes are killed only when all tasks have finished, and a send on the result channel never blocks |
| `TaskRunner.BoundIsReached` | cmd/run.go:491-529 | that bound is reached: for every list of tasks and every flag some schedule has exactly as many tasks in flight |
| `TaskRunner.NeverDeadlocks` | cmd/run.go:487-616 | until the runner has returned some goroutine can move |
| `TaskRunner.RunsAreBounded` | cmd/run.go:487-616 | no schedule makes more than 17 moves per task and 6 more |
| `TaskRunner.RunTasksParallel` | cmd/run.go:487-616 | a scheduler that picks any enabled goroutine always terminates, with the expected results |
| `TaskRunner.StepKeepsInv` | cmd/run.go:487-616 | every move of every goroutine keeps the invariant: counters, locks, locals, result slots, sandbox list, channel, cleanup |
| `TaskRunner.QueueHasRoom` | cmd/run.go:503-590 | with one send per task the channel of capacity `len(tasks)` is neither full nor closed when a task sends |
| `TaskRunner.StepLowersMeasure` | cmd/run.go:487-616 | every move lowers the number of program points, queued results and pending kills that are left |
| `TaskList.BuildTasks` | cmd/run.go:116-207 | fails exactly when a source cannot be read; otherwise `len(sources) * max(repeat, 1)` tasks, task k with id k+1, source k / R and instance k % R + 1 |
| `TaskList.BuiltTasksMean` | cmd/run.go:116-207 | the list input by input: the -c flag before the files, the files before standard input, that before the editor; which task repeats which code under which name, and when there is no list |
| `TaskList.BuildInline` | cmd/run.go:158-207 | standard input or editor: an empty text gives no task, a failure no list |
| `TaskList.AddRounds` | cmd/run.go:122-153 | the repetitions of one more source continue the numbering |
| `TaskList.FileSources` | cmd/run.go:135-155 | the files are read in order, one source each, and one unreadable file fails them all |
| `TaskList.NumberingIsOneToOne` | cmd/run.go:143-153 | source s, instance n is task number s * R + n - 1, for every s and n |
| `TaskList.PrintMultiTaskResults` | cmd/run.go:682-806 | in all three output modes the summary is the tally of the results and decides the exit code; the full form has one faithful row for each result |
| `TaskList.CountResults` | cmd/run.go:683-691 | the first pass counts the failed and the other results |
| `TaskList.FillRows` | cmd/run.go:732-786 | the second pass agrees with the first, and each row reports its result |
| `TaskList.CountsComplement` | cmd/run.go:683-691 | success plus failed is the number of results |
| `TaskList.ExitCodeMeans` | cmd/run.go:711-803 | the failed count is the number of results with an error or an exception; exit code 0 iff there is none of them, 2 iff there are only such, 1 iff there is some of both |
| `TunnelSession.OneReaderAtATime` | internal/adbtunnel/tunnel.go:309-373 | at any time at most one session has a live reader or writer of the local connection, and it is the last one |
| `TunnelSession.BytesAreForwardedInOrder` | internal/adbtunnel/tunnel.go:313-333 | the bytes accepted upstream are the bytes read, session after session, in order and without repetition, except that the last chunk of a session may be missing |
| `TunnelSession.AtMostOneBufferIsMissing` | internal/adbtunnel/tunnel.go:316-331 | what a session forwards is a prefix of what it read, at most 32 KiB shorter |
| `TunnelSession.NoDialAfterPreemption` | internal/adbtunnel/tunnel.go:215-397 | once a session has received close code 4001 no attempt begins and no session opens, however the select statements resolve |
| `TunnelSession.AtMostOneLateAttempt` | internal/adbtunnel/tunnel.go:215-269 | after the cancellation at most one further attempt begins |
| `TunnelSession.SessionWindsDown` | internal/adbtunnel/tunnel.go:336-373 | while the orchestrator waits, each move of a transfer goroutine lowers a rank of at most eleven plus twice the reads that the WebSocket library can still serve from its buffer, and nothing more is accepted upstream |
| `TunnelSession.OnlyTheLocalClientCanBlock` | internal/adbtunnel/tunnel.go:317-373 | while the orchestrator waits, no goroutine can move without the local client exactly when each one that is left sits in a read or a write of the local connection |
| `TunnelSession.LocalWriteCanBlock` | internal/adbtunnel/tunnel.go:357-373 | a run in which the blocked local write alone keeps the wait going |
| `TunnelSession.MutexIsExclusive` | internal/adbtunnel/tunnel.go:325-402 | the mutex around writes to the WebSocket is held exactly by the reader that writes or by the orchestrator, never by both |
| `TunnelSession.OnlyTheServerCanBlockTheMutex` | internal/adbtunnel/tunnel.go:325-402 | an orchestrator that wants to send its shutdown message or a ping is stuck exactly while the reader is in its write to the WebSocket, and only the end of that write frees it |
| `TunnelSession.ShutdownCanBeBlocked` | internal/adbtunnel/tunnel.go:325-386 | a run in which a cancelled orchestrator waits for the mutex before the WebSocket is closed |
| `TunnelSession.StepKeepsInv` | internal/adbtunnel/tunnel.go:210-405 | every event keeps the invariant: the mutex, the progress of each session, which result the orchestrator may hold after what was posted, late attempts, bytes |
| `TunnelSession.ReconnectsIff` | internal/adbtunnel/tunnel.go:215-404 | the exact condition at the end of any session of any uncancelled run: some continuation begins another attempt if and only if the session was left through doneWrite after a close code other than 1000, 1001 and 4001, a broken message or a failed local write |
| `TunnelSession.ResultOfSession` | internal/adbtunnel/tunnel.go:336-398 | in every run, a session left through doneWrite returns what its failure calls for: no error iff none was posted, preempted iff close code 4001 was, and an error to reconnect on for every other; through doneRead always no error |
| `TunnelSession.AnyFailureCanEndIt` | internal/adbtunnel/tunnel.go:342-398 | from any reachable state with the orchestrator in its select, each failure of the read, the body or the local write can happen, be posted and be taken at once, and the session ends as that failure calls for |
| `TunnelSession.BrokenSessionCanReconnect` | internal/adbtunnel/tunnel.go:215-373 | from any such end with an error the goroutines can leave and the next attempt begin |
| `TunnelSession.NoFurtherAttempt` | internal/adbtunnel/tunnel.go:215-404 | after a shutdown, a preemption or an end without error nothing dials again, whatever happens later |
| `TunnelSession.DialFailureIsRetried` | internal/adbtunnel/tunnel.go:215-291 | a failed dial of an uncancelled run can be retried |
| `TunnelSession.CancelledLoopReturns` | internal/adbtunnel/tunnel.go:243-269 | a cancelled loop can return from its sleep, after a session and after a failed dial without another attempt |
| `TunnelSession.ShutdownIsFinal` | internal/adbtunnel/tunnel.go:375-386 | a cancelled orchestrator can take the shutdown branch, and after it no attempt begins |
| `TunnelSession.PingChangesNothing` | internal/adbtunnel/tunnel.go:399-403 | when the reader is not in a write a ping can go out and everything is as before |
| `TunnelSession.ChunkCanPass` | internal/adbtunnel/tunnel.go:313-332 | from any reachable state with a waiting reader, any chunk that fits the buffer can be read and is accepted as it is |
| `TunnelSession.MessageCanPass` | internal/adbtunnel/tunnel.go:341-363 | a message can be received and written locally, and leaves everything ready for the next one |
| `Reconnect.HandleConnectionWithReconnect` | internal/adbtunnel/tunnel.go:210-271 | the loop with its two counters does what the history of attempts prescribes |
| `Reconnect.TrailingQuickCounts` | internal/adbtunnel/tunnel.go:232-236 | the first counter is the length of the longest run of attempts under one second at the end of the history |
| `Reconnect.LastStableFinds` | internal/adbtunnel/tunnel.go:252-257 | the second counter counts from the last attempt over 30 seconds, or from the start |
| `Reconnect.CountersAdvance` | internal/adbtunnel/tunnel.go:232-257 | how one more attempt changes the two counts |
| `Reconnect.ReplayNext` | internal/adbtunnel/tunnel.go:215-270 | one round of the loop: the new counters, and whether and why it stops |
| `Reconnect.ReplayMeans` | internal/adbtunnel/tunnel.go:215-270 | each retry sleeps the delay of its history, and the last attempt decides how the run ends |
| `Reconnect.StopMeans` | internal/adbtunnel/tunnel.go:215-270 | why a run stops, exactly, and that every attempt that was retried had failed, was not the fifth quick one in a row and met no cancellation |
| `Reconnect.GivesUpAtExactlyFive` | internal/adbtunnel/tunnel.go:232-241 | the loop gives up exactly when the attempt just made failed and is the fifth quick one in a row |
| `Reconnect.DelaysDoubleUpToTheCap` | internal/adbtunnel/tunnel.go:257-261 | delays start at one second, double, and stay at 30 seconds from the sixth retry on |
| `Reconnect.StableAttemptResetsTheDelay` | internal/adbtunnel/tunnel.go:250-261 | the retry after a stable attempt sleeps one second |
| `Reconnect.RejectedConnectionGivesUp` | internal/adbtunnel/tunnel.go:213-270 | a connection rejected every time makes exactly five attempts and sleeps 15 seconds |
| `LockedFile.VisibleFileIsFoldOfCommits` | internal/tunnelstore/store.go:69-294 | in every reachable state the file is a complete saved image, and its content the committed operations applied in rename order, each call at most once |
| `LockedFile.FinishedCallsAreExplained` | internal/tunnelstore/store.go:69-294 | linearizability: each finished call replies what its operation replies at one point between invocation and return, and is a commit exactly if it saved |
| `LockedFile.RealTimeOrderIsKept` | internal/tunnelstore/store.go:69-86 | a call that has returned comes before every call made later in the order of commits, strictly if either committed, in any continuation of any run |
| `LockedFile.CrashBeforeRenameHasNoEffect` | internal/tunnelstore/store.go:250-294 | a call whose process crashes before the rename never shows in the file, whatever happens later |
| `LockedFile.LockIsNeverStranded` | internal/tunnelstore/store.go:70-77 | a taken lock belongs to a live process, which can move towards the release without waiting for anybody |
| `LockedFile.LoneCallPerforms` | internal/tunnelstore/store.go:69-86 | a call that is alone does what the contracts of the two stores say for some success of lock, load and save |
| `LockedFile.CallCanPerform` | internal/tunnelstore/store.go:69-294 | the other direction, from any reachable state with the lock free: an idle process can carry out any call with any success of lock, load and save; when all work the file is the encoding of the new content and the reply is that it was saved |
| `LockedFile.LoneCallIff` | internal/tunnelstore/store.go:69-294 | the files and replies that a call that is alone can end with are exactly those its contract allows |
| `LockedFile.StepKeepsInv` | internal/tunnelstore/store.go:69-294 | every step of every process, failures and crashes included, keeps the invariant |
| `LockedFile.ChainedIsFold` | internal/tunnelstore/store.go:84-294 | commits that each build on the one before amount to a sequential fold |
| `TunnelStore.Store.Save` | internal/tunnelstore/store.go:69-86 | sets one entry, keeps the others and replies that it is done, or replies what failed and leaves the file |
| `TunnelStore.Store.Remove` | internal/tunnelstore/store.go:90-107 | deletes one entry, keeps the others and replies that it is done, or replies what failed and leaves the file |
| `TunnelStore.Store.Get` | internal/tunnelstore/store.go:112-119 | the entry if it is present and its process answered; fails exactly when the store cannot be read |
| `TunnelStore.Store.List` | internal/tunnelstore/store.go:123-152 | asks once for each entry, whatever the system does, and returns and saves exactly the entries whose process answered; with exact answers the dropped ones belong to dead processes |
| `TunnelStore.Store.Cleanup` | internal/tunnelstore/store.go:158-184 | kills exactly when it finds an entry; the entry is removed only on a positive verdict; a failed kill leaves the file unchanged |
| `TunnelStore.Store.CleanupAll` | internal/tunnelstore/store.go:188-220 | kills each entry once, whatever the system does, keeps exactly those with a negative verdict, and replies with an error iff some are kept or the save failed |
| `TunnelStore.DropDead` | internal/tunnelstore/store.go:138-145 | the loop of List, in any iteration order: one answer for each entry, and those without are dropped |
| `TunnelStore.Store.SaveLocked` | internal/tunnelstore/store.go:250-294 | the whole new file, or an error and the old one |
| `TunnelStore.KillEach` | internal/tunnelstore/store.go:203-210 | the loop of CleanupAll, in any iteration order: one verdict for each entry, and those with a positive one are dropped |
| `TunnelStore.PassWithoutConflict` | internal/tunnelstore/store.go:203-210 | without conflicts the failed entries are those whose kill fails on its own |
| `TunnelStore.DistinctPidsDoNotConflict` | internal/tunnelstore/store.go:203-210 | entries with pairwise different PIDs never conflict |
| `TunnelStore.ConflictMakesOrderMatter` | internal/tunnelstore/store.go:203-210 | for two conflicting entries there are two orders with different outcomes |
| `TunnelStore.OrderIsIrrelevantIffNoConflict` | internal/tunnelstore/store.go:203-210 | the outcome is independent of the iteration order exactly when no two entries conflict |
| `TunnelStore.ConflictIsPossible` | internal/tunnelstore/store.go:203-210 | two entries with one PID, whose process runs the program of the first, conflict |
| `TunnelStore.ListTwice` | internal/tunnelstore/store.go:123-152 | a second List under the same process table returns the same map, and writes nothing if the first save worked |
| `TunnelStore.SavedEntryStays` | internal/tunnelstore/store.go:69-86 | no lost update: a committed Save stays in the file until a later commit touches the same id, for any number of processes |
| `TunnelStore.RemovedEntryStaysOut` | internal/tunnelstore/store.go:90-212 | an entry that a committed Remove, Cleanup, CleanupAll or List has taken out is not in the file until a later commit saves one for its id, for any number of processes |
| `TunnelStore.WhoKeepsOut` | internal/tunnelstore/store.go:84-212 | which operations bring in no entry for an id: all but its own Save |
| `TunnelStore.WhoSpares` | internal/tunnelstore/store.go:84-212 | which operations leave the entry of another id alone |
| `NullStore.PanicsIffNull` | internal/tunnelstore/store.go:79-294 | any sequence of calls panics exactly when the file was `null` to begin with and some Save gets the lock and the file; nothing else repairs or breaks such a file |
| `NullStore.OneCall` | internal/tunnelstore/store.go:79-294 | the same for one call |
| `NullStore.OtherFilesFollowTheProtocol` | internal/tunnelstore/store.go:223-294 | on every other file a call does what the protocol says of its operation, and writes no `null` |
| `TokenCache.Cache.Get` | internal/token/cache.go:167-183 | the cached token; a refused lock or an unreadable file is reported as not found, and the file is left alone |
| `TokenCache.Cache.Set` | internal/token/cache.go:186-198 | sets one token, keeps the others and replies that it is done, or replies what failed and leaves the file |
| `TokenCache.Cache.Delete` | internal/token/cache.go:201-210 | deletes one token, keeps the others and replies that it is done, or replies what failed and leaves the file |
| `TokenCache.Cache.Clear` | internal/token/cache.go:213-221 | saves an empty cache without reading the old one, or replies what failed and leaves the file |
| `TokenCache.Cache.List` | internal/token/cache.go:224-238 | the ids of the cached tokens |
| `TokenCache.Cache.SaveLocked` | internal/token/cache.go:128-163 | the whole new file, or an error and the old one |
| `TokenCache.GetSeesTheLastSet` | internal/token/cache.go:79-198 | in any run of any number of processes, a Get that reads after a committed Set, before another commit touches the id, returns the token that was set |
| `TokenCache.GetMissesTheDeleted` | internal/token/cache.go:167-221 | in any run of any number of processes, a Get that reads after a committed Delete of the id or Clear, before another Set of the id, reports it as missing |
| `TokenCache.WhoKeepsOut` | internal/token/cache.go:186-221 | Delete, Clear, Get and the Set of another id bring in no token for an id |
| `TokenCache.WhoSpares` | internal/token/cache.go:186-221 | Set, Delete and Get leave other ids alone, Clear does not |
| `TokenCache.CodecInverts` | internal/token/cache.go:105-132 | what was saved loads back |
| `TokenCache.LoadingRepairs` | internal/token/cache.go:94-124 | an old version number and a missing table are repaired, everything else of a decodable file is kept, and the rest is an empty cache |
| `ProcessKiller.Os.KillProcess` | internal/tunnelstore/process_unix.go:74-117 | the complete trace of checks and signals, whatever the system does, and the verdict it leads to; with exact lookups a true result means the process is gone and a false one that the PID is taken; with no outside interference the outcome is that of QuietKill |
| `ProcessKiller.Os.TerminateAndWait` | internal/tunnelstore/process_unix.go:89-116 | after a positive check: SIGTERM unless the process is not found, and if it is delivered all the rest |
| `ProcessKiller.Os.AwaitExit` | internal/tunnelstore/process_unix.go:98-116 | after SIGTERM: positive checks up to a negative one, or for five seconds and then one more check and SIGKILL |
| `ProcessKiller.Os.FindProcess` | internal/tunnelstore/process_unix.go:89-92 | the answer of the system, recorded when it is negative |
| `ProcessKiller.Os.PollForExit` | internal/tunnelstore/process_unix.go:102-108 | at most 50 rounds; it reports an exit only after a negative check, and ends without one only after the whole five seconds with every check positive |
| `ProcessKiller.Os.FinalBlow` | internal/tunnelstore/process_unix.go:110-116 | SIGKILL only directly after one more positive check |
| `ProcessKiller.Os.IsOurTunnelProcess` | internal/tunnelstore/process_unix.go:30-68 | never positive for an invalid PID, a process that does not answer or an entry without path; otherwise positive exactly when the link is the path, the `ps` line shows it or is blank, or nothing can be found out |
| `ProcessKiller.Os.Identify` | internal/tunnelstore/process_unix.go:46-67 | positive exactly when the link is the path, when the `ps` line is blank or shows the path as its first word, or when there is neither |
| `ProcessKiller.PsNamesTheProgram` | internal/tunnelstore/process_unix.go:52-67 | a program whose path has no white space is recognised by exactly its own path, alone or with any arguments and however the line is padded; a blank line is taken for any program |
| `ProcessKiller.FirstWordDecides` | internal/tunnelstore/process_unix.go:58-67 | comparing the first field of the trimmed line is the same as looking for the path at the place where the line shows a program |
| `ProcessKiller.Os.IsProcessAlive` | internal/tunnelstore/process_unix.go:15-25 | signal 0 reaches only a process that is there |
| `ProcessKiller.CompleteIsDisciplined` | internal/tunnelstore/process_unix.go:79-111 | a complete trace has at most one SIGTERM then at most one SIGKILL, each directly after a positive check of the same PID, and its verdict is negative exactly when a process still answers at the end |
| `ProcessKiller.VictimStays` | internal/tunnelstore/process_unix.go:98-108 | while PIDs are reused, the process first seen at a PID is still there or gone for good |
| `MobileCommands.Mobile.Run` | cmd/mobile.go:256-482 | any sequence of commands: the state before each is in step; each has the effect of its command on file, daemons and verdicts, asks once for each listed entry, and fails to start only when the offered PID is not free; the session stays in step to the end if every save and cleanup works and every kill succeeds; from a registry whose entries all have a port, no state of the session has an entry without one |
| `MobileCommands.Mobile.Execute` | cmd/mobile.go:256-482 | one command keeps the registry in step unless a tunnel gets ready although its cleanup or its save failed |
| `MobileCommands.CommandKeepsPorts` | cmd/mobile.go:256-533 | whatever the children and the system say, no command brings in an entry without a port |
| `MobileCommands.Mobile.Connect` | cmd/mobile.go:275-397 | lookup, cleanup, start, handshake and save with their whole effect; a child that is silent, cannot be read, says anything but "ready" or names port 0 is never accepted, the file stays as the cleanup left it and no new daemon lives; one that was started and says "ready" with a port is accepted with that port; every path that does not end ready keeps the registry in step; with nothing interfering, the exact condition on the state before for the others |
| `MobileCommands.Mobile.Prepare` | cmd/mobile.go:275-283 | after lookup and cleanup the sandbox has no live daemon if the cleanup succeeded and, with nothing interfering, exactly if the older tunnel was replaceable |
| `MobileCommands.Mobile.Launch` | cmd/mobile.go:341-346 | a start is attempted and fails only if the offered PID is not free; a started child is the only daemon that no entry names |
| `MobileCommands.Mobile.Discard` | cmd/mobile.go:376-385 | a child that did not get ready is gone and the registry is in step |
| `MobileCommands.Mobile.Conclude` | cmd/mobile.go:370-397 | a child is recorded exactly when its message says "ready" and names a port other than 0, and killed otherwise |
| `MobileCommands.Mobile.Establish` | cmd/mobile.go:341-397 | start, handshake and save after the cleanup: what each of the three outcomes leaves in the file and among the daemons |
| `MobileCommands.Mobile.Record` | cmd/mobile.go:388-397 | the entry with the reported port and this executable; after the save, when every live daemon is named by an entry |
| `MobileCommands.Mobile.Get` | cmd/mobile.go:277-280 | looking up the older tunnel keeps the registry in step |
| `MobileCommands.Mobile.Cleanup` | cmd/mobile.go:281-283 | keeps the registry in step; when it succeeds no live daemon of the sandbox is left |
| `MobileCommands.Mobile.Disconnect` | cmd/mobile.go:414-452 | keeps the registry in step; an entry is found exactly when its process answered; when it succeeds no live daemon of the sandbox is left |
| `MobileCommands.Mobile.DisconnectAll` | cmd/mobile.go:454-482 | keeps the registry in step; when it succeeds no live daemon is left at all |
| `MobileCommands.Mobile.CleanupAll` | cmd/mobile.go:476-479 | keeps the registry in step; when it succeeds no live daemon is left at all |
| `MobileCommands.Mobile.List` | cmd/mobile.go:485-533 | keeps the registry in step; the answer holds the entries whose process answered when asked, and every live daemon |
| `MobileCommands.TrackedMeansOneToOne` | cmd/mobile.go:275-397 | in step means: at most one live daemon for each sandbox, and exactly one entry for each live daemon |
| `MobileCommands.EntryOfLiveDaemon` | cmd/mobile.go:275-283 | in step, a sandbox has a live daemon exactly when the process of its entry is alive |
| `MobileCommands.CleanupReplaces` | cmd/mobile.go:275-283 | after lookup and cleanup an older tunnel is alive exactly when it was not replaceable |
| `MobileCommands.SaveTracks` | cmd/mobile.go:388-397 | saving the new entry names every live daemon exactly when no older daemon of the sandbox survives |
| `MobileCommands.FailedSaveLosesTrack` | cmd/mobile.go:388-397 | a connect whose save fails, ending with a live daemon that no entry names |
| `MobileCommands.StubbornTunnelIsNotReplaceable` | cmd/mobile.go:281-283 | a state in step whose tunnel survives SIGKILL and so cannot be replaced |
| `PtyInput.InputIsConserved` | internal/pty/terminal.go:155-207 | in every interleaving sent, pending, queued, in hand and dropped make up the input in order; what is sent is a prefix; nothing is dropped before the cancellation |
| `PtyInput.FlusherLeavesNothingPending` | internal/pty/terminal.go:170-184 | when the flusher has returned nothing is pending |
| `PtyInput.TickSendsAll` | internal/pty/terminal.go:158-180 | at a tick the flusher sends all it has collected and is ready for more |
| `PtyInput.TypedBytesCanBeSent` | internal/pty/terminal.go:155-207 | in any session that goes on, one more piece of input can be typed and then everything ever typed be sent, in order |
| `PtyInput.SentDataNeverChanges` | internal/pty/terminal.go:161-328 | reuse of the read buffer and of the backing array of `pending` never changes data already sent |
| `PtyInput.PanicIffReaderNotDone` | internal/pty/terminal.go:188-242 | at every moment of every run the reader can still panic, or has, exactly unless it has returned |
| `PtyInput.ReaderCanPanic` | internal/pty/terminal.go:188-242 | a reader that has not returned, waiting for a key included, has a continuation that panics |
| `PtyInput.ReturnedReaderIsSafe` | internal/pty/terminal.go:203-242 | a session whose reader has returned before the channel is closed never panics |
| `PtyInput.PanicNeedsTheClose` | internal/pty/terminal.go:197-239 | the reader panics only on a send after the close of the channel |
| `PtyInput.HoldingReaderCanPanic` | internal/pty/terminal.go:197-239 | whenever the reader holds data the end of the session can make it panic |
| `PtyInput.KeyPressIsHeld` | internal/pty/terminal.go:193-197 | one key press leads to that situation |
| `PtyInput.StepKeepsInv` | internal/pty/terminal.go:155-241 | every event keeps addresses, phases and the balance of bytes |
| `PtyInput.Concat` | internal/pty/terminal.go:318-328 | the pieces in order, in a buffer of exactly the reserved capacity |
| `ArgParser.ParseArgs` | internal/repl/repl.go:807-840 | the loop computes what the scanner computes, and no argument is empty |
| `ArgParser.ParseInvertsRender` | internal/repl/repl.go:807-840 | a line built from words of bare and quoted pieces parses to the texts of its words |
| `ArgParser.BareWordsParse` | internal/repl/repl.go:807-840 | words without spaces and quotes, separated by spaces, are their own arguments |
| `ArgParser.QuotesKeepTheirText` | internal/repl/repl.go:813-825 | quotes of either kind keep everything but themselves |
| `ArgParser.EveryInputIsALine` | internal/repl/repl.go:807-840 | every input is such a line, possibly followed by one quote left open |
| `ArgParser.OpenQuoteClosesAtTheEnd` | internal/repl/repl.go:813-837 | a quote left open reads as if it were closed at the end |
| `ArgParser.QuotingRoundTrip` | internal/repl/repl.go:807-840 | quoting each character of any non-empty arguments and parsing gives them back |
| `ArgParser.ParsedArgsAreNotEmpty` | internal/repl/repl.go:826-837 | no parsed argument is empty |
| `ArgParser.RequotingIsIdentity` | internal/repl/repl.go:807-840 | quoting and parsing again what was parsed changes nothing |
| `History.Repl.constructor` | internal/repl/repl.go:388-395 | a new REPL has the history of its file |
| `History.Repl.LoadHistory` | internal/repl/repl.go:397-416 | the trimmed non-blank lines, at most the last 1000 |
| `History.LoadingTrimsLines` | internal/repl/repl.go:405-416 | for any lines: the non-blank ones without the white space around them, in order, the last 1000 of them |
| `History.Repl.SaveHistory` | internal/repl/repl.go:418-428 | truncates to the last 1000 and writes them one to a line; a failed write may leave any file and changes nothing in memory |
| `History.Repl.AddToHistory` | internal/repl/repl.go:430-441 | a command that is neither blank nor equal to the last entry becomes the last one, and with 1000 entries already there the oldest goes; anything else changes nothing; saves exactly then |
| `History.Repl.Enter` | internal/repl/repl.go:430-441 | after any single-line inputs the file reloads to exactly the history in memory |
| `History.HistoryStaysTidy` | internal/repl/repl.go:418-441 | however many commands, no entry is blank, untrimmed or equal to its neighbour, and there are at most 1000 |
| `History.ReloadIffSingleLines` | internal/repl/repl.go:405-427 | a tidy history reloads to itself exactly when no entry contains a line break |
| `MountOptions.ParseKeyValuePairs` | internal/client/storage.go:103-125 | the loop assigns the parts one after the other |
| `MountOptions.PairsInvertText` | internal/client/storage.go:103-125 | whatever padding, blank parts and `=` inside values, parsing a text gives the assignments it was written from, the last one for a key winning |
| `MountOptions.MountOptionRoundTrip` | internal/client/storage.go:75-100 | a valid option written with its parts in any order and with any padding parses back to it |
| `MountOptions.RejectedOptions` | internal/client/storage.go:75-100 | an option is rejected exactly when it has no name or a relative path to mount at, with which message, and is otherwise what its parts say |
| `MountOptions.LastPartWins` | internal/client/storage.go:107-123 | of two parts with the same key the later one counts |
| `MountOptions.ReadOnlyHasNoFalse` | internal/client/storage.go:84-88 | every non-empty value of `readonly` sets the flag |
| `MountOptions.ReadOnlyFalseIsAccepted` | internal/client/storage.go:84-88 | `name=x,readonly=false` is accepted with the flag set |
| `MountOptions.StorageMountRoundTrip` | internal/client/storage.go:10-71 | the same round trip for storage mounts |
| `MountOptions.AcceptedMounts` | internal/client/storage.go:10-71 | a storage mount is accepted exactly when it is of type cos and has a name, a bucket and absolute paths on both sides, and is then what its parts say |
| `MountOptions.ToApiMountOptions` | internal/client/cloud_instance.go:105-128 | each option in turn, field by field, empty paths as absent fields; reading it back gives the option |
| `MountOptions.ParseApiMountOptions` | internal/client/cloud_instance.go:131-151 | each API option in turn, absent fields as empty ones |
| `MountOptions.ApiRoundTrips` | internal/client/cloud_instance.go:105-151 | to the API and back is the identity; the other way round exactly for options with a name and without empty paths |
| `MountOptions.ParseAll` | cmd/instance.go:86-93 | all lines in order, or the first rejected one fails them all |
| `MountOptions.SendAndReceive` | cmd/instance.go:86-93 | options parsed, sent in API form and read back are the options of the command line |
| `Config.Config.ResolveDeprecatedFields` | internal/config/config.go:165-220 | the first given value in the order of priority, normalized |
| `Config.LoadingResolves` | internal/config/config.go:165-220 | region, domain and mode after loading, for every backend and every combination of given values; nothing else changes |
| `Config.Config.ResolveRegion` | internal/config/config.go:167-192 | the configured region, then that of the E2B backend if it is in use, then the cloud one, then the E2B one, then ap-guangzhou; nothing else changes |
| `Config.Config.SetDomain` | internal/config/config.go:277-284 | the new domain, with the prefix added exactly when internal mode is on and it lacks one; nothing else changes |
| `Config.Config.SetInternal` | internal/config/config.go:292-301 | the prefix is added or removed together with the flag |
| `Config.Config.SetE2BDomain` | internal/config/config.go:320-326 | the deprecated domain counts only while the domain is the default |
| `Config.Config.SetCloudInternal` | internal/config/config.go:365-369 | the deprecated flag always sets the unified one |
| `Config.Config.SetRegion` | internal/config/config.go:267-269 | the region flag always sets the region and nothing else |
| `Config.Config.SetE2BRegion` | internal/config/config.go:330-336 | the deprecated region counts only while the region is the default |
| `Config.Config.SetCloudRegion` | internal/config/config.go:355-361 | the same for the other backend |
| `Config.Config.ApplyLegacy` | cmd/root.go:181-193 | exactly the deprecated flags that were given, in this order |
| `Config.Config.ApplyUnified` | cmd/root.go:195-204 | exactly the unified flags that were given, after them |
| `Config.InitConfig` | cmd/root.go:151-205 | the final settings are the deprecated flags and then the unified ones, applied to what was loaded |
| `Config.BackendFlagDecides` | cmd/root.go:151-180 | the backend flag wins over the configured backend and changes nothing else, the region included |
| `Config.WithoutFlags` | internal/config/config.go:95-160 | without flags: the defaults when nothing can be read, the raw values when they do not fit, else what loading resolves |
| `Config.ResolvedStands` | internal/config/config.go:194-219 | a loaded configuration stands for its base domain and mode |
| `Config.RunsRefine` | internal/config/config.go:277-369 | any sequence of setters with unprefixed domains acts on the pair (base, internal): the prefix is there exactly when internal, and never twice |
| `Config.EndpointsAgree` | internal/config/config.go:57-82 | after any setters the endpoints of both backends are internal or neither is |
| `Config.AddressIffBare` | internal/config/config.go:277-301 | setting domain and mode gives the address of that pair exactly when the domain is unprefixed |
| `Config.DomainFlagDecides` | cmd/root.go:181-204 | for every domain flag: with the internal flag beside it nothing else matters; without it the deprecated flags matter through the mode alone |
| `Config.RegionFlagDecides` | cmd/root.go:185-200 | which of the region settings wins, for all combinations |
| `FormatSize.Format` | internal/output/formatter.go:390-401 | for every int64 of at least 1024: the divisor is 1024^(exp+1), divisor <= bytes < 1024 * divisor, it never overflows, and the letter exists |
| `FormatSize.UnitIsUnique` | internal/output/formatter.go:390-401 | no other power of 1024 fits |
| `FormatSize.NestedDivision` | internal/output/formatter.go:396-399 | dividing repeatedly by the unit is dividing once by the product |
| `FormatSize.ExponentBound` | internal/output/formatter.go:395-400 | a divisor that fits an int64 is at most 1024^6, so six letters are enough |

## Left out

- HTTP and SDK clients of both backends, file, browser, API key and tool commands: nothing is decided locally.
- internal/webshell and internal/proxy: remote scripts, and wrapping of library code whose ordering argument is that of the tunnel.
- Sequential runner (`runTasksSequential`) and single task: one loop without scheduling; only the parallel runner is modelled.
- `acceptLoop`, `Stop`, `Start`, `Probe` of the tunnel: the cancellation is an event of one connection; the race of accepting a connection while stopping is not modelled.
- Contents and timing of pings, deadlines, TLS, tokens and WebSocket framing: a read deadline is one of the ways a read can fail.
- Durations inside task results and timings in summaries: they do not affect ids, counts or exit codes.
- Real time and floating point: durations are integers from the environment; `math.Pow` is an integer power of two; the `%.1f` rendering of sizes is not modelled.
- Power loss: a rename is atomic and lasting; the code does not call fsync and neither does the model.
- What the process table answers during a List or a cleanup is a parameter of the operation in the concurrent protocol, fixed at its invocation; the class methods obtain it from the operating system.
- JSON: an invertible encoding, and files that do not decode. The file that holds `null` is modelled for calls one after the other (`NullStore`), not in the concurrent protocol and not for the commands.
- Symlink and permission checks: they are among the ways a load or a save can fail.
- MobileCommands.Mobile.Connect: with other processes coming and going during the command, the exact condition of a ready connect speaks of the state it leaves; the condition on the state before is for an undisturbed one.
- Identity of processes is the executable path only; two tunnels of the same binary cannot be told apart, and nothing more is claimed.
- Process handles: a signal goes to whatever process has the PID at that moment.
- A child killed with SIGKILL by its own parent is taken to be gone when the call returns, and the PID in a ready message to be that of the child.
- adb calls, log files and the flags passed to the child in `mobile connect`.
- `process_windows.go` has no identity check, so the kill properties do not apply to it.
- `sendPTYInput` may fail to deliver what it is given; the model ends at the payload handed to it.
- Window size changes and the output direction of the PTY session.
- Bytes that are not valid UTF-8 in command lines and history: strings are sequences of characters.
- Pointer aliasing of `ReadOnly` between an option and its API form; the language version of the module gives each loop round its own variable, so the other pointers do not alias.
- `viper` lookups: `internalIsSet` is the answer of `viper.IsSet("internal")`, whatever that library makes of the default that Init gives the key before. Plain setters (output, keys, user) are omitted.
- REPL completion, help, tables and colours.
- TaskList.PrintMultiTaskResults: rows leave out timings and rich results; whether printing works is an input.
- TunnelSession.OnlyTheLocalClientCanBlock: progress only; that a blocked read or write of the local connection ever returns is up to the local client.
