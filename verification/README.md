# Proofs about godl's concurrent and resumable parts

godl is a download manager: a daemon schedules jobs (URLs, torrents, WebDAV trees, TorBox
torrents), stores them in a table, and resumes what a crash interrupted. This project models
its state machines and the loops they are made of, and proves what they keep.

| file | what it models |
|---|---|
| `FileBytes.dfy`, `Chunks.dfy` | a file as bytes; splitting a download into chunks; a chunk worker's copy loop |
| `ChunkedDownload.dfy`, `ChunkedRuns.dfy` | the chunked downloader as a state machine: workers, sidecar ticker, main goroutine, crashes, restarts, the fall-back to one stream, and the single stream with the job's stored resume offset |
| `ChunkedCompletion.dfy` | from which disks a chunked download can be completed, and what a single-stream run may find on disk and in the row |
| `ChunkedResume.dfy` | what a snapshot records, what the next run makes of it, how a chunked attempt ends |
| `Fallback.dfy` | the chunked machine's single stream against the single-stream downloader, run for run |
| `SizeJudgement.dfy` | judging a file by its size and the absence of a sidecar |
| `SingleStream.dfy` | the single-stream downloader over any sequence of interrupted runs |
| `HostGate.dfy`, `GateRuns.dfy`, `GateRecovery.dfy` | the per-host WebDAV gate, any number of requests going through it, and how it slows down and recovers |
| `TreeWalk.dfy` | the worker pool that lists a remote tree |
| `Jobs.dfy`, `Guard.dfy`, `Scheduler.dfy` | job rows and backoff; the re-entrancy guard; scheduling passes and restart recovery |
| `Lifecycle.dfy`, `Handshake.dfy` | slots, workers, pause/cancel/resume/retry, new file choices and retry timers as one state machine; what pause and cancel can count on |
| `Commands.dfy` | what cancel, pause and a new file choice come to, how long a pause holds, that a requeued job comes to run |
| `RetryBudget.dfy`, `JobTraces.dfy` | the retry count and the timers; histories of one job in which something goes wrong |
| `TorBox.dfy` | the shared progress counter of concurrent files |
| `Broadcaster.dfy`, `BroadcastRuns.dfy` | the latest-value feed for open tabs, and any interleaving of its subscribers and runners |
| `Relay.dfy` | one long read served as many ranged requests |
| `Selection.dfy`, `SelectionSpecs.dfy` | the file-selection printer and parser; what a list written by hand parses to and chooses |
| `Naming.dfy`, `Text.dfy` | unique names; the string functions used here |
| `Histories.dfy`, `Options.dfy` | runs of a state machine; optional values |

Concurrent code is a state machine: one event per lock section, channel operation, file write,
store read or store write (a user's own command reads and writes its row in one event), and a
history is any sequence of possible events. What the outside world does (servers, timers,
crashes, which goroutine goes next) is chosen freely by the events. A theorem about a run speaks
of every `Legal` history.

Code that works on its own fields is a class with proved methods. `HostGate`, `TreeWalk.Pool` and
`TorBox.Counters` are proved against the functions their state machines step with, and so are the
guard's flags in `Scheduler.Daemon`. `Broadcaster` is one locked section at a time where
`BroadcastRuns` has its single steps, and `BroadcastRuns.Refilled` says that the two do the same.
`Scheduler.Daemon` is the scheduling passes taken sequentially, writes and slots included; it and
`Lifecycle`, where starts of all jobs interleave, are two models side by side. `SingleStream`'s
runs and the chunked machine's single stream are linked both ways by `Fallback`.

## What the proofs found

Where the code does less than its comments or its purpose suggest, the model follows the code. A
theorem whose name ends in `Iff` gives the exact condition; the others named here are traces.

- A single-stream resume answered by any status other than 206 truncates the file and takes the
  body as the file, error pages included (`downloader.go:231-243`; the comment says the server
  ignored the range): `PrefixKeptIff`. A 416 to a resume at the end of a finished file is reported
  as a completed download: `ResumeAtEndCompletesWrong`. A short 206 is taken for the whole rest:
  `ShortPartialIff`.
- The single-stream path does not drop an old sidecar (`downloader.go:113-115`), so a probe that
  changes its answer between runs can end in a wrong file reported as completed; the shortest
  history is `ChangingProbeCompletesWrong`.
- `finishJob` stores the byte count as the resume offset of every url job, chunked ones included
  (`lifecycle.go:92-95`, `start_url.go:31`), although a comment says that those ignore it
  (`start_url.go:13-15`). If the next probe finds ranges but no length, Run goes
  to the single stream, which resumes at that offset (`downloader.go:113-115`, `196-201`). After a
  chunked run the count says nothing about the bytes before that offset, and the file is long
  enough because it was preallocated: `StoredOffsetCompletesWrong`, from an empty disk.
- These two are all: a single-stream start can end in a wrong file reported as completed, for some
  source, exactly if the sidecar claims a byte, or the server has ranges and the stored offset lies
  inside the source: `SingleRunSafeIff`. With the same answer in every run it cannot:
  `CompletedIsSource` with `AlwaysRangesIsSafe`, `NeverRangesIsSafe` and `UnsizedIsSafe`.
- A sidecar whose output file is gone makes every later run fail when it opens the file
  (`downloader.go:380-382` and `455-458`); that is the only dead end: `ResumableIff`.
- `torboxFileComplete` takes a file of the full size without a sidecar for complete
  (`start_torbox.go:414-425`). A chunked run gives the file its size before its first snapshot. Over
  every history of a download that is right unless an attempt ends in one of four ways: it dies
  before its first snapshot is on disk, it gives up and no snapshot could be written, it dies or
  fails between the fall-back's removal of the sidecar and its truncation, or a removal dies
  between sidecar and file. Each of them can leave nothing but zeros: `LooksCompleteIff`,
  `LooksCompleteIsSource`, `DeathLeavesZeros`.
- Leaving the cool-down sleep on cancellation passes no wake-up on (`hostgate.go:75-76`):
  `NoLostWakeUpIff`, with the trace `CancelledSleepStrands`.
- `launch` says that `rt.done` closes on every exit path (`queue.go:243-245`); when `markActive`
  fails it never closes, and pause and cancel wait for their timeout: `WaitEndsIff`.
- `markActive` gives the slot back before it records the failure (`queue.go:128-129`), so the late
  write can mark a job failed while a new worker of it runs: `FailedWhileRunningIff`, with the
  trace `FailedWhileRunning`.
- `start` does not look at the row again, a timer's write does not check the row it read
  (`lifecycle.go:171-182`), and a torrent's pause, or a new choice of its files, waits on the same
  `rt.done` as a cancel and then writes without a look at the status (`lifecycle.go:255-268`,
  `torrentselect.go:106-123`). A start, a timer or a pause under way can so undo a cancel, and a
  start, a timer, a cancel or a choice under way a pause: `CancelHoldsIff`, `PauseHoldsIff`,
  `TimerRestartsOnlyFailed`, with the trace `TimerRevivesCanceled`. A timer that
  fires while a worker of its job runs can queue a completed job: `TimerRestartsCompleted`.
- A pause of a job that is not a torrent writes nothing itself and trusts `finishJob`, whose write
  may fail: then it reports success over the row as the worker left it: `PauseLeavesOutcome`.
- Nothing joins `finishJob`'s read of the row to its write (`lifecycle.go:88` and `118`), it
  ignores that write's error, and arms its timer anyway: `RetriesAreTimersIff`. Two finishes of
  one job at the same time lose a count although every write is stored: `OverlapLosesCount`.
- A store that takes no writes makes every scheduling pass ask for another: `ReadOnlyRepeats`. So
  does a queued row of a type `start` does not know, which no job of `createJob` has
  (`queue.go:84-86`) and only a row from elsewhere can bring: `UnknownTypeRepeats`. Hence the
  `requires` on `Daemon.TryStartQueued` and `Daemon.Start`.
- A choice of no file at all prints as "", which means everything: `RoundTripIff`.

## Model

| member | source | states |
|---|---|---|
| FileBytes.WriteAtBytes | internal/downloader/downloader.go:346 | what a positioned write leaves at each position, and the new length |
| FileBytes.WriteAtExtends | internal/downloader/downloader.go:346-351 | writing the source's next bytes right after a stretch that holds the source makes the longer stretch hold it |
| Chunks.SplitEvenly | internal/downloader/downloader.go:384-394 | the loop computes the even split, with the remainder in the last chunk |
| Chunks.EvenSplitTiles | internal/downloader/downloader.go:384-394 | the split covers [0, total) from left to right without gap or overlap, nothing done yet |
| Chunks.TilesOrdered | internal/downloader/downloader.go:384-394 | windows of a tiling are ordered, so disjoint |
| Chunks.AllDoneIsSource | internal/downloader/downloader.go:526-535 | when every chunk's record is truthful and full, the file is the source, byte for byte |
| Chunks.CopyRead | internal/downloader/downloader.go:339-354 | one read is clipped to the window, written at its place, and Done moved by as much |
| Chunks.FetchedInside | internal/downloader/downloader.go:333-357 | whatever a body brings, only the unfetched part of the window is written and Done stays within it |
| Chunks.FetchChunk | internal/downloader/downloader.go:301-366 | whatever the server sends after a 206, only the unfetched part of the window is written (a file that ends before it reads zeros up to it), Done only grows and stays inside the window |
| Chunks.FetchedClaim | internal/downloader/downloader.go:329-365 | a body that is the source's from the asked offset on, short, over-long or cut anyhow, leaves a truthful record |
| Chunks.FetchedIsWrite | internal/downloader/downloader.go:333-357 | what the copy loop comes to, however the body was cut: its bytes as far as the window reaches, written in one piece from the asked offset, and counted |
| ChunkedDownload.StepKeeps | internal/downloader/downloader.go:94-536 | every step of workers, ticker, main goroutine, single stream, crash, restart and fall-back keeps the invariant, provided the single stream truncates only while no sidecar claims a byte, resumes only after true bytes, and takes no error page for the answer to a resume |
| ChunkedDownload.DeliverKeeps | internal/downloader/downloader.go:332-349 | a worker's read and write keep every other chunk's record truthful, on disk and in memory |
| ChunkedDownload.AdvanceKeeps | internal/downloader/downloader.go:350-353 | moving Done after the write keeps every record truthful |
| ChunkedDownload.SaveKeeps | internal/downloader/downloader.go:407-419 | a snapshot copied, staged and renamed, with workers going on in between, never puts an untruthful sidecar on disk (what it does put there: ChunkedResume.SavedIsCopied) |
| ChunkedDownload.TornWriteKeeps | internal/downloader/downloader.go:346-348 | a write that fails halfway leaves every record truthful |
| ChunkedDownload.ProbeKeeps | internal/downloader/downloader.go:373-405 | resuming from a matching sidecar, or splitting afresh with the file set to its full size, starts from truthful records |
| ChunkedDownload.SingleKeeps | internal/downloader/downloader.go:195-275 | the single stream's steps, resumed at the stored offset or begun afresh, keep the invariant under the same provision |
| ChunkedRuns.CompletedIsSource | internal/downloader/downloader.go:85-127 | over any history of reads, writes, snapshots, pauses, stored offsets, crashes and restarts that keeps that provision: a run reported completed leaves the file equal to the source, and the sidecar on disk and the records in memory claim only bytes the file holds |
| ChunkedRuns.AlwaysRangesIsSafe | internal/downloader/downloader.go:94-115 | a probe that finds ranges and a length in every run keeps it, whatever offset is stored |
| ChunkedRuns.NeverRangesIsSafe | internal/downloader/downloader.go:94-115 | so does one that never finds ranges, from a disk without a resumable sidecar that claims a byte, whatever offset is stored |
| ChunkedRuns.UnsizedIsSafe | internal/downloader/downloader.go:195-230 | so does one that never finds both ranges and a length, from a file that is a first part of the source, whatever offsets are stored, error pages to a resume excepted; the file stays a first part |
| ChunkedRuns.TruncationIsAlone | internal/downloader/downloader.go:195-231 | when a single stream is about to truncate the file, before its request or after a refused resume, no chunk worker, ticker or save is running; in the fall-back no sidecar is left either |
| ChunkedRuns.IgnoredRangeOnlyCompletesSingle | internal/downloader/downloader.go:318-324 | after a 200 to a chunk request, this call of Run completes only by way of the single stream |
| ChunkedRuns.LeftWindowFrozen | internal/downloader/downloader.go:333-342 | the window of a chunk whose worker has returned is not written again in this attempt, whatever the other workers are sent |
| ChunkedRuns.MachineFetches | internal/downloader/downloader.go:329-365 | whatever the copy loop does with an honest body, the state machine's worker does in some history, with the same file and record |
| ChunkedResume.SavedIsCopied | internal/downloader/downloader.go:461-467 | over any history: right after a save the sidecar holds, chunk by chunk, the windows and counts that were in memory when that save began, under this URL and length |
| ChunkedResume.LastSaveIsFinal | internal/downloader/downloader.go:504-515 | the last save of an attempt puts the final records in memory on disk |
| ChunkedResume.ResumesAtRecords | internal/downloader/downloader.go:373-382 | after a pause or failure whose last save was stored, the next run with ranges has exactly those records and that file, and starts a worker for every unfinished chunk and no other |
| ChunkedResume.ResumeLosesNothing | internal/downloader/downloader.go:301-309 | from that save on, through any pauses, crashes, saves and further runs up to completion, no byte counted in memory at the save is asked for or written again, and counts only grow |
| ChunkedResume.StartsAfresh | internal/downloader/downloader.go:373-405 | without a record of this URL and length the run asks for everything: a tiling with nothing counted, over the file set to its full length |
| ChunkedResume.WrongChecksumStartsAfresh | internal/downloader/downloader.go:116-126 | a wrong checksum leaves neither file nor sidecar, so the next run with ranges fetches every byte into a file of zeros |
| ChunkedResume.ResetStartsAfresh | internal/daemon/lifecycle.go:317-326 | nor does a reset: offset zero, no sidecar, no file, so every byte is fetched again |
| ChunkedResume.FallsBackIff | internal/downloader/downloader.go:311-327 | an attempt falls back to one stream if and only if a chunk request was answered with a 200 in it; no other status does that |
| ChunkedResume.CompletesIff | internal/downloader/downloader.go:515-535 | an attempt completes, and removes its sidecar, if and only if every chunk is done and there was no failure, other status or pause; else it returns the bytes counted and leaves the sidecar |
| ChunkedResume.CountIsClaimed | internal/downloader/downloader.go:469-472 | the count a run returns is the number of bytes its records claim |
| ChunkedResume.OffsetIsStored | internal/daemon/lifecycle.go:92-95 | the row's resume offset is the count of the last stored finish, or what a reset wrote since |
| ChunkedResume.NothingFetchedIsZero | internal/downloader/downloader.go:92-95 | a run that fails before it fetches anything returns zero, and its stored finish sets the offset to zero |
| ChunkedCompletion.ResumableIff | internal/downloader/downloader.go:373-458 | a download can be brought to completion from an idle disk if and only if that is not a matching sidecar without its file |
| ChunkedCompletion.SingleRunSafeIff | internal/downloader/downloader.go:113-201 | from a resting disk some source and some history that begins with a single-stream start and is safe after that run end in a wrong file reported as completed, if and only if the sidecar claims a byte, or the server has ranges and the stored offset lies inside the source |
| ChunkedCompletion.DrainAll | internal/downloader/downloader.go:489-504 | an honest server serves every chunk to its end from any record whatever the file holds, and what a record claims is not written |
| ChunkedCompletion.ChangingProbeCompletesWrong | internal/downloader/downloader.go:113-115 | a history with a changing probe answer that reports an empty file as completed |
| ChunkedCompletion.StoredOffsetCompletesWrong | internal/daemon/lifecycle.go:86-95 | a history from an empty disk in which a paused chunked run's stored offset, resumed by a single stream, completes a file whose first byte was never fetched |
| Fallback.StreamIsRunSingle | internal/downloader/downloader.go:195-275 | whatever the machine's single stream leaves, resumed or in the fall-back, one run of runSingle leaves on the same disk, offset, answer and body, complete exactly if that is |
| Fallback.RunSingleIsStream | internal/downloader/downloader.go:244-274 | every honest body, and any body of an error page, is streamed in some history |
| Fallback.EndIsStream | internal/downloader/downloader.go:262-267 | so is the end of one that is complete |
| Fallback.CutOffReturnsCount | internal/downloader/downloader.go:268-275 | a stream cut off in its body returns the count one run of runSingle reports |
| Fallback.UnansweredIsRunSingle | internal/downloader/downloader.go:222-227 | and so, with the file as well, does one whose request comes to no answer |
| SizeJudgement.LooksCompleteIsSource | internal/daemon/start_torbox.go:414-425 | over every safe history of a download without one of the four ends, a file at rest of the full size without a sidecar is the source |
| SizeJudgement.CompletedLooksComplete | internal/daemon/start_torbox.go:414-425 | a completed chunked run leaves a file that looks complete |
| SizeJudgement.DeathLeavesZeros | internal/daemon/start_torbox.go:414-425 | for every download each of the four ends can leave a file at rest that looks complete and is all zeros |
| SizeJudgement.LooksCompleteIff | internal/daemon/start_torbox.go:414-425 | exactly: when only these ends may happen, a file at rest that looks complete is the source in every history if and only if none may, unless the source is all zeros |
| SingleStream.CopyBody | internal/downloader/downloader.go:244-274 | the copy loop writes the parts one after the other, and counts them |
| SingleStream.RunSingle | internal/downloader/downloader.go:195-275 | the file after one run and when it reports completion; the reported count never exceeds the file, so the next offset is never stale-high by this run |
| SingleStream.AttemptIsGood | internal/downloader/downloader.go:195-275 | with an honest server one run keeps the file a prefix of the source whatever offset is stored, and a completed one makes it the source |
| SingleStream.ResumeKeeps | internal/downloader/downloader.go:195-214 | an accepted resume starts at the stored offset, writes no byte before it, and with the remaining bytes alone makes a true first part whole |
| SingleStream.PrefixKeptIff | internal/downloader/downloader.go:231-242 | on a given disk, offset and status, every honest body keeps the prefix if and only if it is not an error status answering a resume |
| SingleStream.ResumeAtEndCompletesWrong | internal/downloader/downloader.go:231-242 | a 416 to a resume at the end replaces the file by the error page and reports completion |
| SingleStream.HistoryIsGood | internal/daemon/start_url.go:26-45 | over any sequence of interrupted runs with any stored offsets the file stays a prefix of the source, and a completed last run leaves the source |
| SingleStream.ShortPartialIff | internal/downloader/downloader.go:262-267 | a completed run on a 206 leaves the source if and only if the body reached the end or the file was whole already |
| HostGate.HostGate.Attempt | internal/webdav/hostgate.go:56-91 | one locked pass of acquire: widening, then a slot, a sleep or a place at the end of the queue (what it comes to: GateRecovery.AttemptIff, LimitMoves) |
| HostGate.HostGate.WakeNext | internal/webdav/hostgate.go:101-108 | the first waiter is signalled and leaves the queue |
| HostGate.HostGate.GiveBack | internal/webdav/hostgate.go:93-98 | a slot is returned and one waiter signalled |
| HostGate.HostGate.Abandon | internal/webdav/hostgate.go:113-125 | a queued waiter leaves; one already signalled passes the signal on |
| HostGate.HostGate.Throttle | internal/webdav/hostgate.go:134-148 | the limit is halved down to one, and the cool-down never gets shorter |
| GateRuns.GateInvariant | internal/webdav/hostgate.go:56-148 | in every reachable state slots in use equal the requests being sent and never exceed four, attempts stay within five, every blocked request has its channel queued or signalled and not both |
| GateRuns.GrantBelowLimit | internal/webdav/hostgate.go:67-71 | a step that adds a holder adds one, below the limit in force, after the cool-down |
| GateRuns.CoolDownIsKept | internal/webdav/hostgate.go:66-80 | until a cool-down in force at some moment has passed, nobody new holds a slot |
| GateRuns.NobodyOvertakes | internal/webdav/hostgate.go:101-125 | of two queued requests the later is never signalled while the earlier still queues, and their order is kept |
| GateRuns.NoLostWakeUp | internal/webdav/hostgate.go:82-91 | if no request is cancelled while sleeping out a cool-down, then at every moment a non-empty queue has somebody awake: a holder, an arriving or re-checking request, a sleeper, or one signalled, cancelled or not |
| GateRuns.NoLostWakeUpIff | internal/webdav/hostgate.go:72-80 | exactly: that holds throughout a history if and only if every exit from the cool-down sleep left the queue empty or somebody else awake |
| GateRuns.CancelledSleepStrands | internal/webdav/hostgate.go:75-76 | the trace in which such an exit leaves a queued request with nobody to wake it |
| GateRuns.StuckStays | internal/webdav/hostgate.go:84-90 | a stranded queue stays as it is until a new request arrives or a queued one gives up |
| GateRecovery.LimitMoves | internal/webdav/hostgate.go:59-64 | over histories: a told 429 halves the limit down to one; an attempt made five seconds or more after the last 429 or rise raises it by one, up to four; nothing else moves it |
| GateRecovery.Recovers | internal/webdav/hostgate.go:59-64 | on a stretch without a 429 the limit is exactly what it was plus the attempts spaced that far apart, up to four; so it never falls, and three such attempts bring back any gate |
| GateRecovery.CoolDownIsAsked | internal/webdav/hostgate.go:142-147 | the cool-down ends at the latest moment any 429 asked for |
| GateRecovery.AttemptIff | internal/webdav/hostgate.go:65-83 | an attempt sleeps exactly during that cool-down and until its end; else it is granted exactly if fewer requests are being sent than the limit, already raised after a quiet spell; else it queues last |
| GateRecovery.AgainIff | internal/webdav/retry.go:32-36 | a request that drew a 429 goes to the gate again exactly if it was sent fewer than five times |
| TreeWalk.Pool.Decide | internal/webdav/webdav.go:333-343 | one locked look at the queue: wait, leave, or take the last directory |
| TreeWalk.Pool.Deliver | internal/webdav/webdav.go:348-369 | a listing adds its directories to the queue and its files to the result, in order |
| TreeWalk.Pool.Fail | internal/webdav/webdav.go:348-357 | the first failure is kept unless the walk was already cancelled |
| TreeWalk.StepKeeps | internal/webdav/webdav.go:297-373 | every step of workers and watcher keeps the conservation of directories and files, and that nobody leaves while another can still queue work |
| TreeWalk.ResultIsWhole | internal/webdav/webdav.go:374-382 | a result without error is the multiset of files below the root, every directory listed exactly as often as it occurs; after a failed listing or a cancelled context the result is an error |
| TreeWalk.NeverTwice | internal/webdav/webdav.go:336-346 | at any moment no directory has been asked for, and no file reported, more often than it occurs |
| TreeWalk.StoppedStays | internal/webdav/webdav.go:336-340 | after the first failed listing or the end of the context not one more directory is asked for |
| TreeWalk.FailureCancels | internal/webdav/webdav.go:350-359 | when everybody has returned after a failed listing, the walk's context was cancelled |
| TreeWalk.NotStuck | internal/webdav/webdav.go:313-321 | unless every worker has returned, some worker or the watcher can take a step: never are all left ones waiting |
| TreeWalk.StepShrinks | internal/webdav/webdav.go:323-373 | a measure goes down with every step, so every schedule ends without any fairness |
| TreeWalk.Walk | internal/webdav/webdav.go:297-383 | under any schedule the walk ends, with the whole tree or, exactly if a listing failed or the context ended, an error |
| Jobs.AutoRetryBackoff | internal/daemon/lifecycle.go:146-155 | the wait is min(5s * 3^(k-1), 5min) |
| Jobs.BackoffMonotone | internal/daemon/lifecycle.go:139-146 | later attempts never wait less |
| Guard.EveryCallIsServed | internal/daemon/queue.go:160-184 | at most one pass runs at a time; when all calls have returned none is left without a full pass that began at or after it |
| Guard.ServedByALaterPass | internal/daemon/queue.go:160-184 | a call counts as served only because a pass began after it |
| Scheduler.Daemon.AcquireSlot | internal/daemon/queue.go:102-114 | a slot is taken exactly if the job has none and the cap is not reached |
| Scheduler.Daemon.NextQueued | internal/daemon/queue.go:226-237 | the oldest queued job without a runtime that is not to be skipped, or none if there is none |
| Scheduler.Daemon.Start | internal/daemon/queue.go:60-91 | what one start does to row, slot and guard, with a failing write, an unknown type and the passes it sets off |
| Scheduler.Daemon.ClearRuntime | internal/daemon/queue.go:147-152 | a freed slot is followed by passes until the cap is full or nothing queued is left, or noted for the running pass |
| Scheduler.Daemon.RunPass | internal/daemon/queue.go:186-214 | a pass tries the eligible jobs oldest first, each once, ends only with the cap full or none left to try, and asks for another exactly when a try came to nothing |
| Scheduler.Daemon.TryStartQueued | internal/daemon/queue.go:160-215 | the whole chain of passes ends, with the cap full or no queued job without a runtime |
| Scheduler.PassStep | internal/daemon/queue.go:194-214 | one more try extends the pass by the next eligible job and nothing else |
| Scheduler.PassNext | internal/daemon/queue.go:226-237 | what is offered next is the oldest job eligible at the start of the pass and not yet tried |
| Scheduler.EvolvedReliably | internal/daemon/queue.go:125-133 | with writes succeeding, any number of passes does one thing only to a queued job of known type: run it |
| Scheduler.ReadOnlyRepeats | internal/daemon/queue.go:125-133 | while no write succeeds a full pass changes nothing and asks for another as long as anything is queued |
| Scheduler.UnknownTypeRepeats | internal/daemon/queue.go:84-89 | a pass that reaches a queued job of unknown type leaves it queued and asks for another |
| Scheduler.Daemon.ResumeInterrupted | internal/daemon/server.go:170-205 | the table after the restart scan, row by row: interrupted jobs run up to the cap and queue beyond it, seeding ones are completed, others unchanged; the active rows are exactly the ones with a runtime |
| Scheduler.RecoveryMeaning | internal/daemon/server.go:170-205 | so no row is left seeding, interrupted jobs stay active or queued, queued only with the cap full, and every other row is as it was |
| Lifecycle.SlotOwnership | internal/daemon/queue.go:102-152 | from any job table a daemon starts over: in every reachable state at most maxConcurrent slots, at most one run holding a slot per job, and the table names that run |
| Lifecycle.SlotsChangeByOwner | internal/daemon/queue.go:147-152 | a slot changes hands only when a run takes a free one for its job or gives back its own |
| Lifecycle.ReleasedOnce | internal/daemon/queue.go:246-270 | a run that gave its slot back, normally, on failed activation, unknown type or panic, never holds one again |
| Commands.SlotGrantedIff | internal/daemon/queue.go:102-114 | a start gets its slot exactly if no run of its job holds one and fewer runs hold one than the cap allows |
| Handshake.ClosedIsOver | internal/daemon/queue.go:254-269 | once done is closed the run never reads or writes its row again and its slot is not its own any more |
| Handshake.WaitEndsIff | internal/daemon/queue.go:42-50 | a command waiting for a run can get past done if and only if the run's activation has not failed |
| Handshake.CanceledStays | internal/daemon/lifecycle.go:366-395 | with no run of the job and no timer past its read able to write, and no pause or new file choice able to come to its write, a canceled row stays as it is through workers, timers, passes, pauses and resumes |
| Handshake.CancelHoldsIff | internal/daemon/lifecycle.go:255-268 | exactly: a canceled row can never be changed, short of a manual retry, if and only if no run of the job is live then, no timer has read the row and not yet written it, and no torrent pause or new file choice is pending whose awaited run, if any, can close its done |
| Handshake.PauseLeavesOutcome | internal/daemon/lifecycle.go:281-283 | a pause of a job that is not a torrent, from its rt.cancel() to its return, with only the awaited run writing the row: the run is closed, the pause writes nothing, and either the run's last stored finishJob is what the row says (paused exactly if stopped, completed exactly if completed), or none was stored, the row is as the worker left it, and a finishJob came to nothing or was over before |
| Handshake.KindSince | internal/daemon/lifecycle.go:86-118 | stale whole-row writes never change what kind of job a row is |
| Handshake.RowIsAsRead | internal/daemon/lifecycle.go:86-118 | the row a run is about to write back is the one it read last, with the outcome it was told |
| Commands.CommandComesTo | internal/daemon/lifecycle.go:249-271 | a cancel, a torrent's pause or a new file choice, from its rt.cancel() to the moment it goes on, whatever happens in between: the run that held the slot is closed, and the row comes to be canceled, paused, or paused and then queued, with kind and count as found |
| Commands.PauseAtOnce | internal/daemon/lifecycle.go:274-280 | a pause of a job without a runtime writes paused at once |
| Commands.PauseHoldsIff | internal/daemon/lifecycle.go:233-284 | exactly: a paused job stays paused and no start of it can be picked, short of a resume, retry, cancel or new file choice, if and only if no run of the job is live then, no timer has read the row and not yet written it, and no cancel or choice is pending that can come to its write |
| Commands.QueuedComesToRun | internal/daemon/queue.go:60-91 | a queued job can be picked and comes to run whatever else is running; with a free slot in three steps |
| Commands.RequeuedComesToRun | internal/daemon/lifecycle.go:286-361 | a job created, resumed, retried by hand or by its timer, taken over at a restart, or with a new file choice is queued with its kind and the count it should have, and comes to run |
| Commands.StoppedCanBeRequeued | internal/daemon/lifecycle.go:286-361 | any job that is neither active nor queued can be retried, a paused or failed one resumed, a finished torrent's files chosen anew |
| Handshake.FailedWhileRunningIff | internal/daemon/queue.go:125-133 | exactly: over a history no row ever says failed while a worker of its job runs, if and only if no failed activation's finishJob was stored while the job's next worker ran |
| JobTraces.FailedWhileRunning | internal/daemon/queue.go:125-133 | a history in which that write marks a job failed while its new worker runs |
| RetryBudget.RetriesAreTimersIff | internal/daemon/lifecycle.go:86-126 | exactly: the stored retry count equals the timers counted since the last completion or manual retry, at every moment, if and only if every finish that arms one is stored, every whole-row write finds the count it read, and no count starts afresh between a finish's write and its timer |
| JobTraces.OverlapLosesCount | internal/daemon/lifecycle.go:86-126 | a history with every write stored in which two timers are armed and one is counted |
| RetryBudget.RetriesWithinBudget | internal/daemon/lifecycle.go:109-113 | no stored count, and none in a row read and not yet written back, exceeds the configured maximum, or the largest count in the table the daemon started over if that is more |
| RetryBudget.FinishIff | internal/daemon/lifecycle.go:98-125 | what a stored finish writes for each outcome, and that a timer follows exactly after an error with auto-retry on and the count below the maximum |
| RetryBudget.FailureComesBack | internal/daemon/lifecycle.go:106-182 | every such failure comes to its retry: the timer is armed, fires, and queues the job with one more counted |
| RetryBudget.TimerRestartsOnlyFailed | internal/daemon/lifecycle.go:164-183 | from the moment a timer has read a failed row of a job without a live run to the moment it writes, the row is that one all along if and only if no user's command and no other timer got in between |
| JobTraces.TimerRevivesCanceled | internal/daemon/lifecycle.go:171-182 | a history in which a timer queues a job again that was canceled, with no live run, after the timer's read |
| JobTraces.TimerRestartsCompleted | internal/daemon/lifecycle.go:171-182 | the case TimerRestartsOnlyFailed leaves out: a timer reads the failed row while a worker of the job runs, nobody intervenes, the job completes, and the timer queues it again |
| TorBox.Conserved | internal/daemon/start_torbox.go:464-500 | under any interleaving the shared counter plus the differences not yet added is the sum of the files' counts; at rest the counter is that sum |
| TorBox.CountIsReported | internal/daemon/start_torbox.go:492-500 | over any interleaving a file's count is the last one reported for it, by its callback or as a stored result |
| TorBox.ProgressIsReported | internal/daemon/start_torbox.go:492-500 | at rest the job's progress is the sum of the last reports of its files |
| TorBox.Counters.Progress | internal/daemon/start_torbox.go:492-495 | the progress callback sets the file's count to the reported one and moves the shared counter by the difference, as the machine's swap and add do |
| TorBox.Counters.AfterRun | internal/daemon/start_torbox.go:497-500 | after a run with a positive result the file's count is that result and the shared counter moved by the difference, as the machine's compare, store and add do; else nothing changes |
| TorBox.CountComplete | internal/daemon/start_torbox.go:149-162 | the initial count is the sum over the files judged complete |
| Broadcaster.Broadcaster.Send | internal/webui/events.go:46 | a send finds room in the channel, so it cannot block under the lock |
| Broadcaster.Broadcaster.Subscribe | internal/webui/events.go:36-47 | the new channel holds the current payload; the first subscriber, and only the first, gets a runner started |
| Broadcaster.Broadcaster.Cancel | internal/webui/events.go:49-59 | the subscription ends once; the last one stops the one runner |
| Broadcaster.Broadcaster.Publish | internal/webui/events.go:71-82 | after any runner's tick, a stopped one's last included, every subscriber's channel was last filled with the current payload |
| Broadcaster.Broadcaster.Refill | internal/webui/events.go:74-81 | every subscriber's channel holds exactly the new payload, the others are untouched |
| Broadcaster.Broadcaster.Receive | internal/webui/events.go:32-36 | what a subscriber reads is the current payload |
| BroadcastRuns.SendFindsRoom | internal/webui/events.go:74-81 | over any interleaving of subscribers, reads without the lock, ticks and stale runners: whenever the publishing runner comes to a send, that channel is empty, so no send blocks under the lock |
| BroadcastRuns.LatestIsPlaced | internal/webui/events.go:32-82 | and the last payload placed in every subscriber's channel is the current one, except for those a locked section has still to serve |
| BroadcastRuns.RunnersMatchSubscribers | internal/webui/events.go:36-84 | and exactly one runner is not stopped while someone is subscribed, none otherwise |
| BroadcastRuns.LastIsCurrent | internal/webui/events.go:36-47 | the feed's payload is always the one that came last to the lock, from a runner or for a first subscriber |
| BroadcastRuns.SentIff | internal/webui/events.go:71-74 | a runner at the lock sends exactly if what it produced differs from that payload, and then to every subscriber |
| BroadcastRuns.LockComesBack | internal/webui/events.go:71-82 | a locked section can always go on and each of its steps brings it nearer its end |
| BroadcastRuns.Refilled | internal/webui/events.go:74-81 | uninterrupted, its drains and sends do what Refill does |
| Relay.ParseRange | internal/webui/relay.go:213-233 | every answer is a range from a non-negative start to no end or one not before the start; anything malformed means the whole stream |
| Relay.RangeRoundTrip | internal/webui/relay.go:178-233 | a range as the relay prints it is read back as it was meant |
| Relay.ContentRangeRoundTrip | internal/webui/relay.go:235-251 | a Content-Range as printed is read back as start, end and total |
| Relay.ParseRangeIff | internal/webui/relay.go:213-233 | exactly the headers with one readable non-negative start, a dash, and no end or one not before the start are ranges; anything else means the whole stream |
| Relay.RangeRead | internal/webui/relay.go:213-233 | and such a header is read as that start and end |
| Relay.SuffixIsWhole | internal/webui/relay.go:213-233 | a suffix range means the whole stream |
| Relay.ContentRangeIff | internal/webui/relay.go:235-251 | a Content-Range is read exactly if it is three readable numbers so separated |
| Relay.Target.Fetch | internal/webui/relay.go:161-203 | which piece is asked for, which answers count, and what length is remembered |
| Relay.Target.Copy | internal/webui/relay.go:137-156 | the copying loop ends, and sends a first part of the asked bytes, all of them if no request fails |
| Relay.Target.ServeRange | internal/webui/relay.go:106-156 | announced length and range are those of source[start..end], the bytes sent are a first part of it, all of it if no request fails; pieces are asked for in order, each of chunk bytes unless it goes up to an end |
| Relay.Target.Serve | internal/webui/relay.go:93-157 | the same for any Range header, and for HEAD the whole stream's headers and no bytes |
| Selection.ParseSelection | internal/torrentmgr/selection.go:24-51 | the parser's loop computes the parsed spec, item by item, or the first bad part |
| Selection.SelectionSpec | internal/torrentmgr/selection.go:116-146 | the printer's loops compute the runs of wanted files |
| Selection.RunsCover | internal/torrentmgr/selection.go:127-144 | a file is in one of the printed runs exactly if it is wanted |
| Selection.OnePartPerRun | internal/torrentmgr/selection.go:127-144 | the spec has one part for each maximal run of wanted files |
| Selection.RunParses | internal/torrentmgr/selection.go:69-88 | a printed run is read back as its bounds |
| Selection.SpecParses | internal/torrentmgr/selection.go:24-51 | what the printed spec parses to: the runs as ranges, or everything |
| Selection.RoundTripIff | internal/torrentmgr/selection.go:92-146 | printing a choice and matching with the parsed spec gives the choice back for every file and path, if and only if some file is wanted or there is none |
| SelectionSpecs.WordsParse | internal/torrentmgr/selection.go:24-51 | any list of numbers, ranges, patterns and empty parts, with any blanks around them, parses to its ranges and patterns in order, and to everything if it has none |
| SelectionSpecs.FirstBadRefuses | internal/torrentmgr/selection.go:24-88 | the first part that is number 0, a range from 0 or running downwards, or a bad pattern refuses the list and is named |
| SelectionSpecs.WordsChoose | internal/torrentmgr/selection.go:92-110 | such a list chooses a file if and only if its number is one of the numbers or lies in a range, or a pattern matches its path, or the list is empty |
| SelectionSpecs.WordyIsNoRange | internal/torrentmgr/selection.go:69-84 | a text with a character that is no digit, sign or blank is never taken for a range |
| Naming.Pigeonhole | internal/jobreq/jobreq.go:71-73 | numbered names are pairwise distinct, so that many taken ones need a taken set that large |
| Naming.Batch.UniqueName | internal/jobreq/jobreq.go:64-76 | the loop ends; the name returned is the first free one of its row, and exactly it becomes taken |
| Naming.FirstFreeUnique | internal/jobreq/jobreq.go:64-76 | there is one such name, its number is at most the taken ones plus two, and it is the name itself when that is free |
| Naming.NumberBeforeExtension | internal/jobreq/jobreq.go:64-76 | the number goes before the last dot's extension |
| Naming.NumberAtEnd | internal/jobreq/jobreq.go:64-76 | and to the end of a name without one |
| Naming.URLOutputs | internal/jobreq/jobreq.go:33-59 | one link keeps the output as a file path; of several, each gets the first name free among those given out before |
| Naming.BatchIsDistinct | internal/jobreq/jobreq.go:53-57 | the names of a batch of any length are pairwise distinct |
| Naming.BatchIsSettled | internal/jobreq/jobreq.go:53-57 | the names are settled by the links alone |
| Text.ParseOfItoa | internal/webui/relay.go:225-230 | a printed decimal is read back as the number, for every 64-bit value that is not negative |
| Text.SignedReads | internal/torrentmgr/selection.go:69-84 | a number is digits with or without a sign, leading zeros not counting, within 64 bits |
| Text.SplitOfJoin | internal/torrentmgr/selection.go:30-145 | splitting joined parts that do not hold the separator gives the parts |

## Left out

- ChunkedRuns.CompletedIsSource: takes a fixed URL and content, a 206 body that begins at the asked offset, and in the single stream a body of the source's bytes whose EOF comes at their end (`ChunkedDownload.SingleKeeps` too); the probe's answer and the stored offset may only change as its hypothesis allows, and `SingleRunSafeIff` says exactly why; an error page to a refused resume is excluded, and `PrefixKeptIff` says what it does.
- SizeJudgement.LooksCompleteIff: over histories from a disk without the file that meet the same hypothesis; another process changing the file is left out.
- ChunkedDownload.StepKeeps: a failing os.Remove of the sidecar is not modelled, and neither is a loss of writes after a power failure; a crash is the end of the process.
- SingleStream.HistoryIsGood: excludes the answers of `ErrorOnResume` and takes EOF on a 206 to mean the source's end; `PrefixKeptIff` and `ShortPartialIff` say exactly what happens otherwise.
- Relay.Target.Serve: the site answers 206 clipped at its length (or a first part of it), or fails; a site that ignores ranges with a 200, and one that answers 206 with empty bodies for ever, are outside it, and so are sums near 2^63.
- Scheduler.Daemon.TryStartQueued: no job arrives and none is started by others during the chain, and the write after a failed "mark active" succeeds; `ReadOnlyRepeats` and `UnknownTypeRepeats` show what happens otherwise.
- Scheduler.Daemon.ResumeInterrupted: writes succeed, types are known and no worker ends during the scan.
- TorBox.CountComplete: which files are complete is given to it; `SizeJudgement.LooksCompleteIff` says when that judgement is right.
- Handshake.ClosedIsOver: a waiter that leaves by the five-second timeout is not covered.
- Lifecycle.SlotOwnership: the cap is fixed for the whole history, and reserving a slot and registering its runtime is one step; timers do not survive a restart, so `RetriesAreTimersIff` counts a timer as armed for each retry a row brings along.
- Selection.RoundTripIff: path.Match is an arbitrary predicate, and at most 2^63-1 files.
- Naming.URLOutputs: filepath.Join, the Downloads folder and MkdirAll are left out; a destination is the directory and the name.
- Handshake.CancelHoldsIff: a user command's read and write of a row are one step, apart from the wait in pause, cancel and a new file choice; which torrents are TorBox's is not in the row, so any torrent may be restarted by a choice; deleting a job (godl remove) is left out.
- Rate limiters, jitter, progress display and its throttled store writes (reportProgress), notifications and the idle watchdog: they take time and change no state modelled here.
- The checksum of a finished download is a step that passes, or fails and deletes file and sidecar.
- Seeding, except that a restart settles it; the torrent client, yt-dlp, TorBox's API and its link retries.
- The relay's token table, listener and headers other than those it computes; retryAfterDelay is a free choice of delay up to its ceiling.
- Sizes are unbounded integers except where text is parsed; file sizes are below 2^63.
- Sockets, TLS, sqlite and the file system calls themselves: a file is a byte sequence, the store a map whose writes may fail where a theorem says so.
