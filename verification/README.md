# RunBeacon: a verified model of its durable execution core

RunBeacon runs a command on a remote machine and promises three things: the command is never run
twice, its output can be resumed from a sequence number, and the state of a job survives crashes.
This project models the code those promises rest on and proves them, or proves exactly when they
hold. `dafny verify dfyconfig.toml` checks everything.

| file | what it models |
|---|---|
| `JobDirectory.dfy` | one job directory of the Runner as a protocol: files, any number of supervisor processes with program counters, a server that reconciles and restarts; safety over every interleaving |
| `Outcomes.dfy` | what a cancel request or a timeout in time does to the outcome |
| `Verdicts.dfy` | why a job ended as its record says: which step decided, and what it saw |
| `Finality.dfy` | when a terminal record is final, and how events are numbered |
| `Reconciliation.dfy` | the same with other processes between the steps of `Reconcile`: who wrote each state event, and which numbers are in use |
| `Writer.dfy` | in the same runs, the numbers the supervisor gives to its output |
| `Registry.dfy` | all job directories: idempotency keys, `Create`, `submit` |
| `EventLog.dfy` | reading event files through a cursor equals a plain scan |
| `OutputFile.dfy` | bounded retention and tail compaction of a job's output |
| `Prune.dfy` | global retention |
| `Watch.dfy` | pages of 128 events and the server's answer to `watch` |
| `Coordinator.dfy` | the coordinator's watch loop: exactly once, in order, no silent loss; `cancel` |
| `RunnerAnswers.dfy` | protocol and answers together: read skew, draining, cancellation |
| `Delivery.dfy` | from end to end: what the supervisor logs in a run, and what of it the coordinator receives |
| `Examples.dfy` | runs that reach the states named under "What turned out false" |
| `SshAttempts.dfy` | connection attempts over plain SSH and the one `exec` request |
| `RunnerClient.dfy` | Runner or plain SSH: at most one start over both backends |
| `Scheduler.dfy`, `Fairness.dfy` | queue, approvals, concurrency limit; first come, first served |
| `WaitCoordinators.dfy` | waiters, limits, timers |
| `Utf8.dfy`, `OutputRing.dfy` | the coordinator's output buffer, cut at character boundaries (section 4 of RFC 3629) |
| `JobStore.dfy`, `JobStoreRecovery.dfy` | snapshot and journal, with a crash between any two steps |
| `AuditLog.dfy` | the hash-chained audit log |
| `Wrappers.dfy` | `Option`, `Result`, and `Unfold`, a handle that keeps an invariant folded until a proof names it |

Concurrent processes are steps of a state machine (`JobDirectory`); classes that the source
updates in place are classes; loops are loops, proved against functions.

## What turned out false, and the exact condition

- A terminal record is not always final. `Reconcile` reads a record, and may write that copy back
  after a supervisor has finished (`StaleWriteBackExample`). After any run, with other processes
  between the steps of `Reconcile`, a terminal record is final exactly when no `Reconcile` is under
  way and no live process owns the claim or can still take it (`TerminalIsIrrevocableIff`). The
  second fails for a job marked Lost in two windows (`LostIsFinalIff`, `LostTooEarlyIff`): a
  supervisor that claims more than five seconds after submission, and one that has created the
  claim file but not yet written its PID into it, which `readSupervisorClaim` reports as PID 0
  (`LateClaimExample`, `ClaimWithoutPidExample`).
- The number of a Lost event can already be used: exactly if an earlier `Reconcile` logged Lost under
  it, as a server that dies before it writes the record makes the next one do, or if the supervisor
  logged an event under it that the record read by `Reconcile` did not cover (`LostNumberIsUsedIff`;
  `LostNumberIsFreshIff` for calm runs, `LostLoggedTwiceExample`).
- A page of 128 events can pass over an event exactly when it ends between two events with one
  number (`PageSplitsTieIff`). In calm runs that needs a Lost event that took the number of an event
  the record did not cover (`ReadSkewIsHarmless`), and such a run exists (`SplitTieExample`). The same
  Lost event hides an output that was dropped over the limit just before the supervisor died: every
  number is there, and no answer says "truncated" (`DroppedUnmarkedExample`). In calm runs nothing
  else gets lost unmarked: see `Complete` in the contract of `Delivery.WatchRun`.
- An answer can be marked truncated although nothing is missing. In calm runs that happens exactly if
  the first event was never logged and the answer asks from the beginning, or if the state file was
  read before "running" was logged and the output file after there was output (`FalseMarkIff`,
  `FalseMarkExample`).
- The output buffer is a suffix of everything appended as long as no single piece exceeds the
  maximum. With such pieces it is one exactly when nothing from before the last of them is left in it
  (`BufferIsSuffixIff`; `OversizedPieceBreaksContiguity` for one piece, `OversizedPieceExample`).
- Behind a torn journal line nothing replays (`BadLineFreezesJournal`): a later recovery is exact
  if and only if the later save dropped no job the surviving records hold (`SaveBehindTornLine`,
  `ResurrectionExample`). A record that lacks only its newline is recovered once and then forgotten
  (`UnterminatedRecordIsForgotten`).
- A save that fails after its record was journalled, in a process that lives on, leaves the memory
  behind the journal: jobs that only this save knew can come back after the next one dropped them,
  and exactly those, wherever the next save dies behind its append, and even if it completes, until
  the journal is truncated (`FailedRenameIff`, `FailedRenameExample`).
- An event of the scheduler strands a job or loses a wake-up exactly if an audit append it depends on
  throws: that of a `start` without approval, of `approve`, of `rejectApproval`, or of a lapsed grant
  that `drain` comes to (`HealthyIff`). `AuditFailureStrands` says what each of them leaves behind. In
  the last case the coordinator may not live to see it: `void this.drain()`
  (LifecycleManager.ts:873) leaves the rejection unhandled, which by Node's default ends the process.
- A verified audit log does not always stay verified. A log whose last record lacks its newline, after
  a crash or an edit, still verifies, and the next append succeeds; but it writes its record into the
  same line, and then nothing verifies and every later append is refused. An append keeps the log
  verified exactly if no record stands at the end of the file without its newline
  (`AppendedVerifiesIff`, `LostNewlineBreaksNextAppend`).
- An audit log that lost its newest records still verifies (`TruncationVerifies`); only a known head
  hash tells (`HeadHashIdentifiesPrefix`).
- A destroyed SSH client that still becomes ready sends the command, and so does the next attempt.
  The number of requests is the number of such late clients, plus one if a current client became
  ready (`RequestsAreCounted`); it is at most one if no client becomes ready after it was reported
  failed (`PoliteRunSendsOnce`). It is more than one exactly if a client that was reported failed
  becomes ready, and then a later client too (`SentTwiceIff`), and it can reach the number of attempts
  (`EveryAttemptMaySend`).
- For an unbound key `Create` returns a job with another key, and leaves the submitted key unbound,
  exactly if the submitted id is that job's and the command is the same (`Registry.Store.Create`).

## Model

| member | source | states |
|---|---|---|
| JobDirectory.AtMostOneStart | runner/internal/runner/supervisor.go:17-76 | in every interleaving, at most one process is started per directory, its command has the digest persisted at creation, and id, key, digest and mode never change |
| JobDirectory.RunKeepsSafe | runner/internal/runner/store.go:160-227 | the protocol invariant holds after every run, also with other processes between the steps of `Reconcile` |
| JobDirectory.OwnerStep | runner/internal/runner/supervisor.go:22-207 | each step of the supervisor that owns the claim keeps its part of the invariant, from the claim to the final write (what it decides: `Verdicts`) |
| JobDirectory.CandidateKeepsSafe | runner/internal/runner/store.go:194-215 | the exclusive creation of the claim file admits one supervisor; all others step back |
| JobDirectory.ReconcileStepKeepsSafe | runner/internal/runner/store.go:160-187 | each single step of `Reconcile` keeps the invariant |
| JobDirectory.CancelledIsVerified | runner/internal/runner/supervisor.go:166-206 | cancelled implies verified; verified means that nothing runs and nothing will be started; whatever was judged acknowledged stays so (what an acknowledgement is: `Verdicts.ExternalCancelIsAcknowledged`) |
| Outcomes.CancelInTimeNeverSucceeds | runner/internal/runner/supervisor.go:169-189 | a job for which cancellation is requested before its supervisor looks for it the last time is never reported succeeded |
| Outcomes.CancelBeforeStartIsFinal | runner/internal/runner/supervisor.go:32-36 | if cancellation is requested before the owner of the claim looks for it first, nothing is ever started |
| Outcomes.TimeoutInTimePrevails | runner/internal/runner/supervisor.go:169-174 | a timeout that strikes while the command runs prevails over cancellation, declared states and exit codes: the job ends as timed out or lost |
| Verdicts.WhySucceeded | runner/internal/runner/supervisor.go:166-207 | in every run, a job ends succeeded only if its supervisor looked for a timeout, a cancel request and a declared state, in this order and all in vain, and the command exited with 0 |
| Verdicts.WhyCancelled | runner/internal/runner/supervisor.go:166-207 | only after a cancel request that was seen before the start, or after the end with the group gone and, in external mode, a well-formed acknowledgement file no older than the request, or after a declared cancellation with the group gone |
| Verdicts.ExternalCancelIsAcknowledged | runner/internal/runner/store.go:691-701 | over every run, named by the files: a started job in external mode that ends cancelled after a cancel request has a well-formed acknowledgement no older than the request |
| Verdicts.WhyTimedOut | runner/internal/runner/supervisor.go:169-174 | only after a timeout that was set before the supervisor looked for it, or after a declared one; what it is verified by |
| Verdicts.WhyFailed | runner/internal/runner/supervisor.go:60-207 | each message of a failed job and the step it comes from: the exit status only from a command that did not exit with 0 with nothing asked or declared, an unverified cancellation only from one that was seen and not verified |
| Verdicts.WhyLost | runner/internal/runner/supervisor.go:41-43 | marked by the server as unavailable, or given another command than the one whose digest was persisted |
| Verdicts.ExitDecides | runner/internal/runner/supervisor.go:198-202 | the converse: a command that exits while nothing is declared succeeds with 0 and fails otherwise, whatever comes after, unless the server loses the job |
| Verdicts.CancelDecides | runner/internal/runner/supervisor.go:175-189 | a cancel request seen after the end: cancelled exactly if the group is gone and, in external mode, the acknowledgement file is well formed and no older than the request; failed otherwise |
| Verdicts.EarlyCancelDecides | runner/internal/runner/supervisor.go:32-36 | one seen before the start: cancelled, without a process |
| Verdicts.TimeoutDecides | runner/internal/runner/supervisor.go:169-174 | a timeout: timed out in any case, and verified under the same condition |
| Verdicts.DeclarationDecides | runner/internal/runner/supervisor.go:190-197 | a declared state is believed exactly if the group is gone |
| Verdicts.StartDecides | runner/internal/runner/supervisor.go:41-89 | a command with another digest ends lost, one that cannot be started or fed ends failed |
| Verdicts.RequestsAreDated | runner/internal/runner/store.go:656-689 | a timeout and the first cancel request carry the time they were made at and are never renewed; an acknowledgement the time of the last one |
| Verdicts.RecordedPidIsOwners | runner/internal/runner/supervisor.go:36-44 | in every run, the process the record names is the one that owns the claim |
| JobDirectory.StepKeepsGround | runner/internal/runner/store.go:691-701 | what a verified outcome rests on is never lost by a later step |
| Finality.TerminalIsFinal | runner/internal/runner/store.go:160-187 | in runs where Lost is decided only on abandoned directories, a terminal record and both event files never change again |
| Finality.ReconcileIs | runner/internal/runner/store.go:160-227 | a whole `Reconcile`, case by case: terminal records stay, a living owner with its PID in the claim is recorded, an unclaimed job gets five seconds, any other is lost with one event |
| Finality.LostIsFinalIff | runner/internal/runner/store.go:175-186 | marking a job Lost is final if and only if no live process owns the claim or can still take it |
| Finality.LostTooEarlyIff | runner/internal/runner/store.go:194-227 | exactly where that decision is premature: a late claim, or a claim file without its PID |
| Finality.Overwrites | runner/internal/runner/supervisor.go:36-44 | from every stage of a live supervisor there is a run in which it replaces the Lost record |
| Finality.NumbersAreDisciplined | runner/internal/runner/supervisor.go:91-146 | numbers are used at most once across both files, every number is logged or the record says truncated, a terminal record is announced by the last state event with the largest number; unless the last append is not covered by the record; against the owner's own copy of the record that holds at every moment; for calm runs (`Writer.WriterIsDisciplined` covers all runs) |
| Writer.WriterIsDisciplined | runner/internal/runner/supervisor.go:91-146 | in every run: output numbers increase and lie between those of the owner's own state events, and none in between is left out unless its copy of the record says truncated; of everything produced none is left out or used twice |
| Writer.RetentionIsStorage | runner/internal/runner/store.go:451-490 | what a step of the protocol keeps of the output file is what storing the encoded record keeps of the real one, for every policy, encoding and file; which of the three depends on the sizes |
| Finality.LostNumberIsFreshIff | runner/internal/runner/supervisor.go:229-250 | the number of the Lost event is unused exactly unless the dead owner logged an uncovered event that is still in its file |
| Reconciliation.TerminalIsIrrevocableIff | runner/internal/runner/store.go:160-187 | after any run a terminal record never changes again if and only if no `Reconcile` is under way and no live process owns the claim or can still take it |
| Reconciliation.StateFileIsExact | runner/internal/runner/supervisor.go:229-250 | in every run the state file holds exactly the first event, the Lost events that `Reconcile` logged, and what the owner of the claim announced |
| Reconciliation.LostNumberIsUsedIff | runner/internal/runner/store.go:175-186 | after any run, the number under which Lost is logged next is in use if and only if an earlier `Reconcile` logged Lost under it, or the owner logged an uncovered event that is still there |
| Finality.StaleWriteBackExample | runner/internal/runner/store.go:167-181 | for every job, a run in which `Reconcile` turns a cancelled record back into a queued one |
| Finality.LostLoggedTwiceExample | runner/internal/runner/supervisor.go:236-249 | for every job, a run in which Lost is logged twice under one number |
| Registry.Store.FindByIdempotency | runner/internal/runner/store.go:283-301 | finds a job bound to the key if and only if there is one |
| Registry.Store.Create | runner/internal/runner/store.go:303-375 | a bound key decides between that job and a conflict; a job is created only under a new id and key, with the id, key, digest, mode and quietness that were submitted, queued, dated now; a failed write leaves nothing or the queued job; for an unbound key, exactly when a job of another key is returned, and when one is created; which error is returned when, in order |
| Registry.Store.Submit | runner/internal/runner/server.go:135-164 | resending a submission finds the same job, whatever became of the first reply; it succeeds for a bound key with the same command and for a new id and key, unless a write or the supervisor fails, and is a conflict for a key bound to another command; exactly a queued job that nobody claimed gets a supervisor, with the submitted command; no other key is bound and no record is changed |
| Registry.Store.Advance | runner/internal/runner/server.go:165-184 | any step in one directory keeps all directories sound and every key bound as before |
| Registry.OneStartPerKey | runner/internal/runner/store.go:303-375 | over all directories, one key means at most one start, of the command whose digest is bound |
| EventLog.EventStore.ReadEvents | runner/internal/runner/store.go:559-618 | the cached reader equals a scan of the whole file, in every history of appends, replacements, removals and reads |
| EventLog.EventStore.AppendBytes | runner/internal/runner/store.go:435-449 | appending a record or a part of one keeps every cursor sound |
| EventLog.EventStore.Replace | runner/internal/runner/store.go:526-549 | so does renaming a new file over the old one |
| EventLog.EventStore.Remove | runner/internal/runner/store.go:620-625 | so does removal, whether the cursor is forgotten or not |
| EventLog.EventStore.ReadLines | runner/internal/runner/store.go:586-611 | the read loop continues a scan from a line boundary, including the 2 MiB limit and the unfinished last line |
| EventLog.SkippedLinesAreSilent | runner/internal/runner/store.go:577-584 | what a cursor skips holds no event above the requested number |
| EventLog.ScanReadsIff | runner/internal/runner/store.go:586-611 | a scan fails if and only if 2 MiB without a newline are in its way |
| EventLog.ScanOfWritten | runner/internal/runner/store.go:435-449 | writing records and scanning them gives the records above the number back, in order |
| OutputFile.NormalizeOutputPolicy | runner/internal/runner/store.go:234-253 | each field is kept within its limits and gets its default or the nearest limit outside them: tail mode, 64 MiB below 64 KiB, at most 1 GiB, a week below an hour, at most 90 days |
| OutputFile.JobOutput.AppendOutput | runner/internal/runner/store.go:451-490 | the size is counted right and bounded, tail mode keeps a suffix of all records, full mode whatever fits, and the flag tells exactly whether a record is missing |
| OutputFile.JobOutput.CompactTailFile | runner/internal/runner/store.go:492-549 | keeps what is behind the first line end within the last three quarters of the limit |
| OutputFile.CutsBetweenRecords | runner/internal/runner/store.go:510-524 | cutting bytes behind a line end drops whole records |
| OutputFile.SurvivorsAreLongestSuffix | runner/internal/runner/store.go:500-524 | what survives a compaction is the longest suffix of records with fewer bytes than the cut leaves |
| OutputFile.CompactionKeepsSuffix | runner/internal/runner/store.go:475-490 | one compaction keeps a suffix of the records: less than three quarters of the limit, and with one more record it would be as much or more |
| OutputFile.RecordIsRetained | runner/internal/runner/store.go:451-490 | what happens to a record, by mode and size: kept, dropped, or kept while the oldest go until three quarters of the limit hold the rest, and not one more |
| Prune.JobsDir.Prune | runner/internal/runner/store.go:82-144 | only terminal jobs go; everything expired goes; unexpired jobs go oldest first and the last one only while the rest was too big; on success the rest fits; otherwise no terminal job is left; it fails only if a size cannot be taken or a terminal job cannot be removed |
| Prune.JobsDir.RemoveExpired | runner/internal/runner/store.go:93-124 | the first loop removes exactly expired jobs, adds up what stays, and lists each unexpired terminal job once; it fails only as above |
| Prune.EvictionResult | runner/internal/runner/store.go:125-139 | whatever the second loop evicts, what survives is not expired and no older than any job evicted, and nothing terminal is left when it ran to the end |
| Watch.EventsAfter | runner/internal/runner/store.go:627-654 | the page is the sorted beginning of all events above the number, and the flag says exactly whether some number up to the last is missing |
| Watch.HasGap | runner/internal/runner/store.go:644-647 | comparing neighbours finds exactly the missing numbers |
| Watch.SortBySequence | runner/internal/runner/store.go:642-643 | a sorted permutation |
| Watch.WatchJob | runner/internal/runner/server.go:186-232 | it answers at the first poll with anything due, and times out only at the last one with nothing due; the answer is marked truncated exactly if a number is missing among all events above the requested one, or if there are none and the record says so; it passes over no retained event if numbers are distinct |
| Watch.PageServes | runner/internal/runner/server.go:197-219 | the same for any two files read at different times |
| Watch.PageSplitsTieIff | runner/internal/runner/store.go:648-652 | a page passes over an event exactly when it ends between two events with one number |
| Examples.SplitTieExample | runner/internal/runner/store.go:640-652 | for any job with output, a calm run after which the first page may leave out a retained output with no mark |
| Examples.DroppedUnmarkedExample | runner/internal/runner/store.go:451-490 | for any job with output and any limit in full mode, a calm run in which the first output that does not fit is lost with no mark |
| Examples.LateClaimExample | runner/internal/runner/store.go:175-186 | for any job, a run in which `Reconcile` marks it Lost before a supervisor that read the record claims it, and that is not final |
| Examples.ClaimWithoutPidExample | runner/internal/runner/store.go:194-227 | the same between the creation of the claim file and its PID |
| Coordinator.Watcher.WatchRunnerJob | src/lifecycle/LifecycleManager.ts:1161-1242 | over any number of disconnects, each output event is received at most once and in order, or an answer of the script that was marked truncated passed over it; what was received and where the loop stands is what the answers gave it, and it ends only with a terminal job and nothing left |
| Coordinator.Watcher.Take | src/lifecycle/LifecycleManager.ts:1184-1217 | one answer extends what was received by its output events and continues from its last number; it passes over a range only if it is marked truncated |
| Coordinator.ReplyDelivers | src/lifecycle/LifecycleManager.ts:1184-1217 | one answer keeps the delivery invariant |
| Coordinator.WatchAdvancesIff | runner/internal/runner/server.go:197-219 | an answer advances the loop exactly when an event above the number is there or output was truncated |
| Coordinator.DrainEnds | src/lifecycle/LifecycleManager.ts:1161-1164 | behind a terminal record the loop needs at most as many answers as numbers are left |
| Coordinator.Cancel | runner/internal/runner/server.go:234-294 | which read decides, and how: an active job is reported cancelled exactly if the first terminal record that is read, before it has a group or after the group was signalled, says cancelled and verified; which error otherwise |
| RunnerAnswers.ReadSkewIsHarmless | runner/internal/runner/store.go:634-652 | although the state file is read before the output file while the supervisor writes, the page has every retained output event up to its last number, but for one that shares that number with a Lost event on a full page |
| RunnerAnswers.TerminalJobsDrain | src/lifecycle/LifecycleManager.ts:1160-1217 | once a terminal record was read, later reads agree and the coordinator drains the log in bounded steps |
| RunnerAnswers.CancelInRun | runner/internal/runner/server.go:234-294 | with records read at any moments of a run: after "cancelled" was answered, nothing is started from the moment that record was read, and nothing runs |
| Delivery.LogsAreHistory | runner/internal/runner/supervisor.go:112-146 | in every run, output is numbered as the coordinator relies on: only Lost events share a number with it |
| Delivery.ScriptIsConsistent | runner/internal/runner/store.go:627-654 | so is every answer made of a record and files read at later and later moments of the run |
| Delivery.WatchRun | src/lifecycle/LifecycleManager.ts:1161-1242 | from end to end, for every run and any failing calls: the answers the loop got determine how it ends and what it received; that was logged, once each and in order; each output up to its number is received, or in a range that one of these answers passed over marked truncated, or under the number of a Lost event; the last output arrives only if it is retained. In calm runs a finished watch reports the last record, and if no answer was marked it received all that was ever logged, but at most one uncovered event under the number of the Lost event, not retained or split off by a full page |
| Delivery.TrailDrains | src/lifecycle/LifecycleManager.ts:1160-1217 | once the loop knows the terminal record, it needs at most as many answers, made at any later moments, as numbers are left |
| Delivery.FalseMarkIff | runner/internal/runner/store.go:627-654 | when, in a calm run, an answer is marked truncated although nothing is missing |
| Examples.FalseMarkExample | runner/internal/runner/store.go:627-654 | for any job with output, a calm run and three reads that give such an answer |
| SshAttempts.RunSsh | src/lifecycle/LifecycleManager.ts:1402-1657 | over any order of events, the number of requests is exactly that of late clients plus at most one prompt one, and within the attempts and the limit; at most one if no client becomes ready after it was reported failed |
| SshAttempts.RequestsAreCounted | src/lifecycle/LifecycleManager.ts:1549-1571 | requests are late ones and at most one prompt one, never more than clients |
| SshAttempts.PoliteRunSendsOnce | src/lifecycle/LifecycleManager.ts:1510-1571 | without a client that becomes ready after it was reported failed, at most one request |
| SshAttempts.SentTwiceIff | src/lifecycle/LifecycleManager.ts:1549-1571 | the command is sent more than once if and only if a client is reported failed, becomes ready while it is the current one, the retry timer fires, and a later client becomes ready |
| SshAttempts.SshRun.Ready | src/lifecycle/LifecycleManager.ts:1549-1571 | `exec` is sent for the current client of an unsettled run only |
| SshAttempts.SshRun.FailAttempt | src/lifecycle/LifecycleManager.ts:1510-1547 | the first failure of the current client ends the run or leads to a retry, exactly as the guard says, and never after ready; the algorithms of a refused host key are excluded, and after a refusal it goes on only with less to offer |
| SshAttempts.SshRun.Retry | src/lifecycle/LifecycleManager.ts:1457-1485 | a retry happens only while no live client was ready |
| SshAttempts.EveryAttemptMaySend | src/lifecycle/LifecycleManager.ts:1549-1571 | for every limit, a run in which every attempt sends the command |
| RunnerClient.Client.RunRunner | src/lifecycle/LifecycleManager.ts:1019-1117 | what each submission came to and the result: a submission whose reply is lost or that fails without a conflict is sent again, within the limit, and nothing else is; an error allows the fallback exactly if the ping fell back, and then nothing was submitted; all submissions are identical |
| RunnerClient.Client.CallSubmit | src/lifecycle/LifecycleManager.ts:1063-1084 | one submission: a lost reply is an error whatever happened; a key bound to another command is answered with a conflict; a success is a job of the submitted command |
| RunnerClient.Client.RunSshJob | src/lifecycle/LifecycleManager.ts:983-1017 | plain SSH is used exactly on request, or in auto mode without required durability after a ping that failed unambiguously; then it sends what the run of attempts sends |
| RunnerClient.Client.RecoverRunnerJob | src/lifecycle/LifecycleManager.ts:1263-1326 | recovery after a restart binds no key and submits nothing |
| RunnerClient.Lifetime | src/lifecycle/LifecycleManager.ts:983-1117 | over both backends and any number of restarts a job's command is started at most once, provided no SSH client becomes ready after it was reported failed; on the Runner that needs no proviso, and it is the submitted command |
| Scheduler.JobsAreConserved | src/lifecycle/LifecycleManager.ts:868-911 | in every run each job is in exactly one of awaiting approval, queued once, active or stranded; active jobs stay within the limit plus those taken over; a queued job beside a free slot has a drain scheduled or a wake-up was lost |
| Scheduler.EachJobRunsOnce | src/lifecycle/LifecycleManager.ts:877-910 | each job is run at most once, and only if no approval was required or it was granted and had not expired |
| Scheduler.NextKeeps | src/lifecycle/LifecycleManager.ts:453-546 | every event keeps the scheduler invariant |
| Scheduler.HeadIsReady | src/lifecycle/LifecycleManager.ts:882-885 | what is in the queue can be run |
| Scheduler.HealthyIff | src/lifecycle/LifecycleManager.ts:464-546 | an event strands a job or loses a wake-up if and only if an audit append it depends on throws; for `drain` that is counted over the lapsed grants it comes to |
| Scheduler.NoJobIsForgotten | src/lifecycle/LifecycleManager.ts:868-875 | without such a failure no job waits beside a free slot |
| Scheduler.AuditFailureStrands | src/lifecycle/LifecycleManager.ts:464-472 | what such an append leaves behind: a job queued in no collection, or a queue without a drain |
| Fairness.FirstComeFirstServed | src/lifecycle/LifecycleManager.ts:868-911 | over every run: while a job waits in the queue, one that is behind it or not in it yet is not launched and stays behind it; it is launched later, unless the first was cancelled or its grant had expired |
| Scheduler.Manager.Start | src/lifecycle/LifecycleManager.ts:453-484 | stores the job and puts it at the end of the queue, or parks it until it is approved; if the audit append throws it is only stored |
| Scheduler.Manager.Approve | src/lifecycle/LifecycleManager.ts:488-521 | succeeds exactly for a job awaiting approval with a working audit log; the job goes to the end of the queue with its expiry in any case |
| Scheduler.Manager.RejectApproval | src/lifecycle/LifecycleManager.ts:523-546 | cancels exactly a job that awaits approval; without its audit record it stays queued with its approval refused |
| Scheduler.Manager.Cancel | src/lifecycle/LifecycleManager.ts:807-826 | a job that has not started leaves the queue, in which the others keep their order, and ends; a running one is only marked |
| Scheduler.Manager.Drain | src/lifecycle/LifecycleManager.ts:868-910 | a prefix of the queue leaves it in order: those whose grant has expired fail, the others run, the last while a slot was free; it ends when the queue is empty, the slots are taken or an audit append throws; every other job is as before |
| WaitCoordinators.Manager.WaitForTerminal | src/lifecycle/LifecycleManager.ts:627-690 | refuses exactly beyond 8 per job or 128 in all, for unknown jobs and after disposal; answers at once for an ended job; otherwise the waiter gets its bounded expiry, and the timer is armed for the first |
| WaitCoordinators.Manager.SettleWaiters | src/lifecycle/LifecycleManager.ts:1996-2053 | tells exactly these waiters, once each, counts them off and arms the timer for the earliest of the rest |
| WaitCoordinators.Manager.ExpireWaiters | src/lifecycle/LifecycleManager.ts:1986-1995 | exactly the expired waiters time out, at least one if the timer was due, and the timer is armed for the first of the rest |
| WaitCoordinators.Manager.AbortWaiter | src/lifecycle/LifecycleManager.ts:664-671 | settles exactly the waiter if it still waits, and arms the timer for the first of the rest |
| WaitCoordinators.Manager.JobEnds | src/lifecycle/LifecycleManager.ts:1888-1891 | exactly the waiters of the job are told that it ended |
| WaitCoordinators.Manager.JobPruned | src/lifecycle/LifecycleManager.ts:1925-1944 | exactly the waiters of the job are told that it is unknown |
| WaitCoordinators.Manager.Dispose | src/lifecycle/LifecycleManager.ts:781-806 | earlier messages stay, whoever still waits is told of the disposal, and afterwards every waiter there ever was has been settled once |
| WaitCoordinators.Manager.JobAdded | src/lifecycle/LifecycleManager.ts:453-484 | a new job disturbs no waiter |
| WaitCoordinators.WaitersAreAccountedFor | src/lifecycle/LifecycleManager.ts:1969-2053 | the total is the sum over the jobs and within the limit; a waiter waits in one place or was settled once, never both |
| OutputRing.OutputBuffer.Append | src/lifecycle/LifecycleManager.ts:1659-1686 | the buffer is the longest bounded suffix of the old buffer and the bounded piece, and the byte count is right; what is left of the pieces keeps their numbers, which increase |
| OutputRing.OutputBuffer.TrimOutputBuffer | src/lifecycle/LifecycleManager.ts:2093-2112 | trimming ends with the longest suffix that fits and begins at a character |
| OutputRing.OutputBuffer.BoundOutputChunk | src/lifecycle/LifecycleManager.ts:2078-2091 | the same for one piece |
| OutputRing.TailIsLongest | src/lifecycle/LifecycleManager.ts:2078-2091 | no valid cut keeps more, and at most three bytes below the maximum are lost |
| OutputRing.BufferIsTailOfHistory | src/lifecycle/LifecycleManager.ts:1659-1686 | while no piece exceeds the maximum the buffer is the longest bounded suffix of everything appended |
| OutputRing.OversizedPieceBreaksContiguity | src/lifecycle/LifecycleManager.ts:1666-1684 | with one such piece, exactly when the buffer still is a suffix of what was appended |
| OutputRing.BufferIsSuffixIff | src/lifecycle/LifecycleManager.ts:1659-1686 | for any pieces: the buffer is a suffix of everything appended if and only if nothing from before the last oversized piece fits into it |
| OutputRing.OversizedPieceExample | src/lifecycle/LifecycleManager.ts:1666-1684 | the smallest buffer that is not a suffix |
| JobStore.JobStore.Save | src/lifecycle/JobStore.ts:82-132 | what is on disk and in memory after each step of a save |
| JobStore.JobStore.Load | src/lifecycle/JobStore.ts:50-80 | loading gives the replay of the accepted records over the snapshot |
| JobStore.LastRecordCounts | src/lifecycle/JobStore.ts:50-80 | of several records with one id in a snapshot the last one counts |
| JobStore.JobStore.ReplayJournal | src/lifecycle/JobStore.ts:159-196 | the loop accepts the longest gapless prefix of sealed records |
| JobStoreRecovery.CrashIsAtomic | src/lifecycle/JobStore.ts:82-132 | a crash at any step of a save leaves exactly the old state or exactly the new one |
| JobStoreRecovery.RecoveryIsExact | src/lifecycle/JobStore.ts:50-206 | over any number of saves, crashes, restarts and compactions, recovery equals the last journalled save |
| JobStoreRecovery.RecoveryNeverRollsBack | src/lifecycle/JobStore.ts:159-196 | for any journal, garbage included, a job of the snapshot is loaded no older than the snapshot has it |
| JobStoreRecovery.ReplayIsExactIff | src/lifecycle/JobStore.ts:181-191 | a subsumed journal restores the snapshot exactly if it builds no job the snapshot lacks |
| JobStoreRecovery.DifferenceRestores | src/lifecycle/JobStore.ts:93-104 | the journalled difference turns the old state into the saved one |
| JobStoreRecovery.SaveBehindTornLine | src/lifecycle/JobStore.ts:159-180 | behind a torn line recovery is exact if and only if the save dropped no job that the surviving records hold |
| JobStoreRecovery.UnterminatedRecordIsForgotten | src/lifecycle/JobStore.ts:144-157 | a record without its newline is recovered once, and forgotten after the next append |
| JobStoreRecovery.FailedRenameExample | src/lifecycle/JobStore.ts:93-128 | for any two jobs, such a run of a new store that brings the first one back |
| JobStoreRecovery.FailedRenameIff | src/lifecycle/JobStore.ts:93-128 | after a save whose rename failed in a process that lives on, the next save, wherever it dies or if it completes, is recovered exactly if and only if no job that was new in the failed save is gone; otherwise exactly those jobs come back; before its append the failed save is recovered, behind a truncation the next one is |
| AuditLog.AuditLog.Open | src/lifecycle/AuditLog.ts:36-45 | opening succeeds exactly for a log that verifies, and continues behind its last record |
| AuditLog.AuditLog.Append | src/lifecycle/AuditLog.ts:47-83 | succeeds exactly for a log that verifies, and a refused one is unchanged; the record is chained to the last one and says field by field what was given, within the limits and with blanks for line ends; afterwards the log verifies and has grown by one record if and only if no record stood at the end without its newline |
| AuditLog.AppendedVerifiesIff | src/lifecycle/AuditLog.ts:68-75 | the same for the text of the file |
| AuditLog.LostNewlineBreaksNextAppend | src/lifecycle/AuditLog.ts:99-125 | for any log of at least one record that loses its last newline: it verifies, and after the next append it does not |
| AuditLog.WrittenFileVerifies | src/lifecycle/AuditLog.ts:47-83 | a file that only appends wrote verifies and is as the next append would write it |
| AuditLog.AuditLog.ReadVerified | src/lifecycle/AuditLog.ts:99-125 | returns the records exactly when the chain verifies |
| AuditLog.HeadHashIdentifiesPrefix | src/lifecycle/AuditLog.ts:99-125 | two verified logs share a head hash exactly when they are equal up to it |
| AuditLog.SameHeadSameLog | src/lifecycle/AuditLog.ts:99-125 | two verified logs that end in the same record are equal throughout |
| AuditLog.TruncationVerifies | src/lifecycle/AuditLog.ts:99-125 | a verified log cut at the end still verifies, so only a known head detects it |
| AuditLog.BuiltLogVerifies | src/lifecycle/AuditLog.ts:47-83 | every log built by appending verifies, with contiguous sequences, and each record says field by field what was given |
| AuditLog.DigestIsKept | src/lifecycle/AuditLog.ts:154-156 | a digest as the coordinator writes it is recorded as it is; text of another length is not recorded |

## Left out

Assumptions under which the strong claims hold:

- File identities and PIDs are never reused, and one server serves a directory at a time.
- Appends to event files do not fail and are not torn; the paths on which the supervisor gives up after a failed append are not modelled. A process that dies in the middle of an append leaves a part of a line in events.jsonl, which the next Lost event would continue: the terminal event is then missing, and the coordinator's drain does not end.
- A write of the record is one step, although server and supervisor write through one temporary file name (store.go:414).
- SHA-256 is injective, and clocks do not run backwards.
- No directory is pruned between a submission and its retries; pruning forgets the key.
- A version of a job has one content, and the ids of deleted jobs are not used again (job store).
- A failed step of a save ends the process, and at most one torn tail per run of the job store; what happens behind a torn line, and after a failed rename in a process that lives on, is proved separately.

Not modelled:

- SSH, sockets, spawning, signals, `ps`, `fsync` and permissions: steps, oracles or parameters instead. `Watch.WatchJob` and `Coordinator.Cancel` take what each poll finds as a parameter in place of deadlines.
- JSON, redaction, RE2 progress patterns, timestamps as text and the normalisation of job fields; a record of an event file is a line that a decoder accepts or not.
- The order in which `ReadDir` and JavaScript maps list their entries, and aliasing between a coordinator object and the closures that hold it: `WaitCoordinators` keeps coordinators as values of a map.
- `start`'s own lookup of an earlier job by idempotency key or trace id, and what listeners of its events do while it runs.
- The change watchers (`watchForChange`), the adapters, the dashboard, the command line, the MCP server, hooks, installers, the GitHub monitor, credential stores and policy classification: they would only add easy members.
- Prune.JobsDir.Prune: a removal that fails is taken to leave the directory untouched; the real one may leave a part of it.
- SshAttempts.RunSsh: counts requests, not what a cancelled or timed out command still does remotely.
- RunnerClient.Lifetime: says nothing about a cancellation requested before the fallback to plain SSH, which the source does not check again.
- RunnerClient.Client.RecoverRunnerJob: the retry loop around `ping` and `get` is not modelled, since neither changes anything on the Runner.
- Finality.NumbersAreDisciplined: the truncation mark is guaranteed only when the record covers the last append; a supervisor that dies between compacting and writing its record leaves the mark unset. The gap is then still reported by `EventsAfter`, which looks for missing numbers, unless the Lost event fills it (`DroppedUnmarkedExample`).
- Scheduler.JobsAreConserved: jobs taken over from an earlier coordinator are either about to be reattached or active, and are excluded.
