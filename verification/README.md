# Verified model of the agent backend's execution core

This project models, in Dafny, the part of the backend that runs agents and their tools: who may work in a session, what is recorded
of a run, how tool calls are dispatched and recovered, what the model is shown of a transcript, how plans are worked through in rounds,
how a streamed answer is filtered, and three small arithmetic cores. Providers, tools, prompts, stores and clocks are parameters or
nondeterministic steps: everything is proved for all of their behaviours.

Code that changes state is modelled as classes and methods that are proved against a specification (a function of the old state, or a
step of a state machine); what the code promises is then proved about the specification, for every input, every interleaving of the
threads, every write that fails and every crash.

| file | component |
|---|---|
| `SessionGate.dfy`, `GateProgress.dfy` | the gate of a session: one token, and a reservation that outlives it while a run waits for an approval; that nobody is locked out |
| `RunRecord.dfy` | one run's status, usage, event log and pause channel, between its executor and the holder of the start lock |
| `RunEnds.dfy` | how runs end: completed, failed or canceled, and what caused it |
| `PauseMark.dfy` | the mark of a pause against the stored status, and what becomes of a run when they disagree |
| `ToolRecovery.dfy`, `Approval.dfy` | write-ahead record and recovery scan; approvals |
| `LoopGuard.dfy`, `RepeatedFailures.dfy` | the guard of a run; when it refuses what has failed before |
| `ToolDispatch.dfy`, `DispatchRules.dfy`, `ToolRunner.dfy` | the runs of a session as a machine; who is asked and what is repeated; grouping and executing calls |
| `Transcript.dfy`, `RepairLaws.dfy` | replay and repair of the transcript; what repair does with every transcript |
| `Compaction.dfy`, `Retractions.dfy` | compaction and rebuilding from its cursor; retractions behind a compaction |
| `Plans.dfy`, `PlanProgress.dfy` | step life cycle and progress fingerprint; which moves succeed, and that no plan is ever stuck |
| `PlanLoop.dfy`, `PlanLoopService.dfy` | the rounds of a loop; the service that drives them |
| `LoopRounds.dfy`, `LateRuns.dfy` | which rounds count as idle, and what starts, stops and recovers a loop; round runs that end late |
| `InstructionStream.dfy`, `MarkerLaws.dfy` | the streaming filter; what it takes for an instruction |
| `JsonScanner.dfy`, `InstructionShape.dfy`, `Surroundings.dfy` | the object scanner; what the beginning of an instruction looks like; what a text in front does to the search |
| `Usage.dfy`, `SessionUsage.dfy` | the usage ledger of a run; the summary of a session |
| `OutputEstimate.dfy`, `Version.dfy`, `Schedule.dfy` | the running output estimate, version order, recurrence |
| `Text.dfy`, `Basics.dfy` | trimming and blankness; an option type and sorting |

## Main results

- **One at a time.** In every interleaving at most one run of a session is past the gate or holds its reservation, the token is never
  doubled or lost, nobody gets in between a reservation and its end, and whoever sleeps on an open channel waits for a reservation that
  somebody is there to end (`SessionGate`). There is no deadlock: from every reachable state every run gets in once the others make way
  (`GateProgress`).
- **A sound record.** A run's event log is numbered 1..n, holds at most one terminal event, nothing behind it, and that event names the
  stored status; a terminal status never changes and usage never shrinks; no pause wake-up is lost (`RunRecord`). The proof gives out
  one ticket for the terminal event: the log, one thread, or nobody after a failed write. A run that nobody disturbs ends completed,
  with the usage of its work and the event of that at the end of its log, and no run fails, is canceled or completes without a cause
  (`RunEnds`).
- **No blind resend.** Over any number of runs and crashes an operation with side effects whose outcome is unknown is dispatched again
  only by an approval of that very call (`ToolDispatch`); the paged recovery scan finds exactly the operations that may have happened
  (`ToolRecovery`). The guard of a run stops exactly the operations in doubt for a human, and over the whole session machine a success
  is repeated unasked only after another success on its resource (`LoopGuard`, `DispatchRules`). Nobody is asked about a call that
  may be sent if and only if approvals are off, or it is not in doubt and is exempt, approved for good or in no need of approval
  (`AdmissionExactly`). Two equal failures bar a strategy and four equal errors a resource, and only such failures do
  (`RepeatedFailures`).
- **Faithful views.** Repair makes every transcript legal whose assistant messages do not call twice under one id, and loses no speech
  of any transcript; cutting a repaired view anywhere and replaying from the stored cursor rebuilds exactly what was retained,
  synthesized results included (`Transcript`, `RepairLaws`, `Compaction`).
- **Exact progress and a firm budget.** Along the life of a plan the fingerprint is equal exactly when nothing has progressed. So every
  round of a loop is booked as idle exactly when every step has the status and the evidence it began with, whatever interleaves with it,
  and two idle rounds in a row stop the loop (`RoundExactly`, `TwoIdleRounds`). From one start of a loop at most as many rounds run as
  were counted, at most 20, and a loop that has moved on is never driven by a run it left behind (`Plans`, `PlanLoop`,
  `PlanLoopService`, `LoopRounds`, `LateRuns`). From wherever an active plan is, there are moves that bring it to its end
  (`PlanFinishes`).
- **Usage is conserved end to end.** What a session shows, as a whole and for every model, is the sum over everything the models of its
  runs have reported, in whatever order the runs are listed (`Usage`, `SessionUsage`).
- **Streaming equals batch.** However an answer is cut, what has been shown, held and suppressed depends on the whole text only, and
  nothing is held without need; white space and the case of letters make no difference to what counts as an instruction
  (`InstructionStream`, `MarkerLaws`). The scanner undoes the printer of RFC 8259 objects (sections 4 and 7): between
  brace-free texts all objects are found (`JsonScanner`), and for any text in front it is said exactly when an object is found and a
  cut-off instruction is reported (`Surroundings`).

## Properties that fail, and when they hold

- *A blank summary undoes a compaction.* `fitSummaryToBudget` may return an empty text and `latestCompaction` ignores the cursor of an
  entry with a blank summary; it does not look for an earlier one. `BlankSummaryExactly`: as long as no retraction has cut in front of the
  cursor, a compaction keeps its cut if and only if the summary is not blank, and a blank one brings the whole transcript back.
  `BlankSummaryLosesCut` says the same of the first compaction of a log whatever was retracted.
- *An open brace and a quote in front may swallow an instruction.* Behind `{"` the scanner takes the inside of strings for their outside,
  so that `CutOffUnreported` is a cut-off instruction that is not reported and `CompleteNotFound` a complete one that is not found.
  `ReportedExactly` and `FoundExactly` give the exact conditions for any text in front.
- *Asking again after a compaction may leave the old answer in view.* `RetractMessages` checks only the last user message, and a
  compaction may already have cut it off. `SeesExactly` says for whole logs exactly when the next turn works with what stands behind the
  cursor, `RetractionShown` when one more retraction is shown as it should be, `RetractedQuestionLeavesAnswer` is an example.
- *Repair is not always legal, idempotent or the identity on legal views.* With call ids that repeat or are blank it may not be;
  `LegalExactly`, `IdempotentExactly` and `FixedExactly` give the exact conditions. `TwiceUnderOneId` fails the first two and
  `BlankNotLeftAlone` the third; `normalizeToolCalls` rules all of that out (`NormalRulesOut`). (Synthesized messages get a fresh id
  whenever they are made; they count as the same.)
- *The fingerprint is ambiguous between unrelated plans.* `FingerprintAmbiguous` gives a family of pairs; `FingerprintExact` shows that
  stages of one plan are never confused.
- *A catalogue change inside a run escapes the guard.* The guard does not watch read-only calls; one of unknown outcome whose tool loses
  its read-only mark before the next turn of the same run can be sent again unasked, as `CatalogueChangeEscapes` shows. `AskedExactly`
  says which calls are stopped for a human: those in doubt, that is, of operations that may have happened before the run began or have
  ended unknown in it with side effects. By `EscapesOnlyReadOnly` an operation whose earlier dispatch has no known result is in doubt
  unless this run made that dispatch as a read-only call.
- *Requests of one run to the approval coordinator must not overlap.* `BeginSurvives`: a new request survives the end of the others if and
  only if no older one of its run is left. `OverlapLoses` is a request that is lost.
- *A run may be marked as paused while its stored status says otherwise*, for example running (`PausedWhileRunning`). `AgreesExactly`: the
  two agree if and only if every step that set them apart has been mended since. Such steps are the start or an approval callback that
  overwrites the status of a marked run (`StartSplits` and `ApprovalSplits` are instances), and the exit of an executor whose run is still
  stored as paused. After an overwriting the executor goes to sleep whenever it looks at the mark, whatever interleaves with it
  (`OverwritingSticks`; undisturbed, `OverwritingSticksAtOnce`), and since resuming looks at the status and pausing at the mark, nobody
  can wake it: it sleeps until its context is canceled or the process ends (`StuckUntilFreed`).
- *A paused loop may fall back to the run it has left.* `LateRunExactly`: this happens if and only if the loop is resumed while the old
  executor is still leaving, the next round cannot be begun, and that cannot be stored. `LateRunReturns`: then it does happen.
- *Reports with negative counts can make parts and totals differ.* `ConservedExactly`: the parts by model add up to what was reported if
  and only if the reports without a positive total add up to nothing. `TakenBackDiffers` gives a family of pairs of reports that do not.

## Model

| member | source | states |
|---|---|---|
| SessionGate.AtMostOneInside | src/application/service.go:1700-1742 | in every interleaving at most one run is past the gate (holding the token or only its reservation), and the token is in the gate or with exactly one run |
| SessionGate.ReservationHolds | src/application/service.go:1744-1760 | from a reservation until the reserver itself ends it no other run gets inside, whatever else happens in the session |
| SessionGate.NoLostWakeUp | src/application/service.go:1717-1742 | a run that sleeps on a channel that is still open sleeps because another run has the session reserved and is still there to end it |
| GateProgress.NobodyIsLockedOut | src/application/service.go:1700-1767 | in every sound state, wherever everybody is, the others can make way and then the run gets inside by its own steps |
| GateProgress.WayOut | src/application/service.go:1700-1767 | every run can leave from wherever it is, by its own steps |
| GateProgress.ComesBack | src/application/service.go:1737-1758 | a run that reserved the session for an approval gives up the token, comes back inside when it has its answer, and then ends its reservation |
| GateProgress.SleepsWhileReserved | src/application/service.go:1702-1742 | while another run has the session reserved a run sleeps on the channel of the moment, in front of the gate and behind it, where it gives the token back |
| SessionGate.NextKeeps | src/application/service.go:1700-1767 | every region of the gate protocol keeps token, reservation and waiting invariants |
| SessionGate.Session.LookBeforeGate | src/application/service.go:1702-1723 | the first look of acquireSession waits exactly when another run has the session reserved, on the channel current at that moment |
| SessionGate.Session.TryGate | src/application/service.go:1724-1728 | the token is taken exactly when it is in the gate |
| SessionGate.Session.GiveBack | src/application/service.go:1737-1737 | a run that looked again in vain, or has made its reservation, puts the token back |
| SessionGate.Session.LookBehindGate | src/application/service.go:1729-1736 | the re-check with the token in hand lets a run in exactly when the session is not reserved by another run |
| SessionGate.Session.ReservePaused | src/application/service.go:1744-1749 | pauseSession records the reserver and wakes everybody who waits |
| SessionGate.Session.ClearSessionPause | src/application/service.go:1751-1758 | only the reserver's own call ends the reservation, and only then are waiters woken |
| RunRecord.EventLogIsSound | src/application/service.go:1606-1660 | in every interleaving the log is numbered 1..n, has at most one terminal event, at the end, naming the stored status; an ended run has it, one thread owes it, or writing it failed |
| RunRecord.NumbersAlwaysFit | src/application/service.go:1637-1658 | the number an event is written under always follows the last one stored, and one thread writes at a time, so the store never rejects a number |
| RunRecord.EndIsFinal | src/application/run_lifecycle.go:29-70 | a terminal status never changes, usage never shrinks in any component and no event is taken back, over all later actions |
| RunRecord.NoLostWakeUp | src/application/service.go:1785-1814 | a wait on an open run channel implies that the run is marked as paused on that channel, and a marked run has an open channel |
| PauseMark.AgreesExactly | src/application/service.go:1460-1525 | over every interleaving the mark of a pause and the stored status agree if and only if every step that set them apart (the start or an approval callback of a marked run, the exit of an executor whose run is stored as paused) has been mended since (the run ended, or its executor left and took the mark away) |
| PauseMark.SplitExact | src/application/service.go:1466-1475 | where mark and status agree, exactly those steps set them apart |
| PauseMark.MendExact | src/application/service.go:1769-1793 | where they do not, exactly those steps bring them together |
| PauseMark.ResumeWakes | src/application/admin.go:206-241 | resuming wakes a sleeping executor if and only if the stored status says paused; otherwise neither resuming nor pausing changes anything |
| PauseMark.StuckUntilFreed | src/application/service.go:1795-1814 | an executor that sleeps while its status does not say paused sleeps on, whatever is resumed, paused, canceled or saved, until its own context ends or the process does, and no longer |
| PauseMark.OverwritingSticks | src/application/service.go:1487-1525 | after every overwriting of the status of a marked run, along every continuation in which nothing mends it, the mark stays set, the status does not say paused, and whenever the executor looks at the mark it goes to sleep in that way |
| RunRecord.SavedEndKeeps | src/application/run_lifecycle.go:29-64 | the first to save a terminal status finds no terminal event, no claim on one, and turns any end into a cancellation once that was requested |
| RunRecord.WriterMayWrite | src/application/service.go:1626-1639 | whoever passes the check under the event lock finds the log open and its counter equal to the length of the log |
| RunRecord.SaveCompletedKeeps | src/application/service.go:1560-1587 | the completion loop keeps the record sound, and an end that a cancellation has saved keeps status, usage and events; what it stores is said by the next rows |
| RunRecord.Service.SaveCompleted | src/application/service.go:1560-1587 | one turn of the completion loop: canceled, waiting, stored as completed with its usage and its event due, or not stored |
| RunRecord.Service.CompleteRun | src/application/service.go:1560-1587 | the loop waits, storing nothing, exactly as long as the run is paused and not being canceled, and the first other turn decides |
| RunEnds.CompletionStored | src/application/service.go:1560-1592 | a run whose work is done, that is not paused and not being canceled, is stored as completed with its usage and its terminal event is due; when the write fails it ends failed |
| RunEnds.EndStored | src/application/run_lifecycle.go:29-64 | whoever ends a run first decides how, but for a cancellation that was requested, and announces what was stored |
| RunEnds.EndKept | src/application/run_lifecycle.go:29-64 | whoever comes later can only complete the usage by one that is nowhere smaller, and when the write fails nothing is stored |
| RunEnds.CallbackRefused | src/application/run_lifecycle.go:11-25 | a late callback, one of a run that is being canceled, and one whose write fails store nothing and break the work off |
| RunEnds.ExitStored | src/application/service.go:1769-1793 | the executor that leaves takes the mark of a pause away and closes its channel |
| RunEnds.EventStored | src/application/service.go:1606-1660 | an event that is due is written behind the others with the next number |
| RunEnds.CancellationStored | src/application/service.go:1216-1263 | a cancellation of an active run is requested, stored and announced |
| RunEnds.PauseExactly | src/application/admin.go:148-204 | exactly an active run that has not ended, waits for no approval and is not marked can be paused, and what is then stored |
| RunEnds.ResumeExactly | src/application/admin.go:206-248 | exactly an active run that is stored as paused can be resumed; whoever sleeps on its channel may then wake up |
| RunEnds.SleepsAndWakes | src/application/service.go:1795-1814 | an executor sleeps when it finds its run marked and goes on as it was once the channel is closed |
| RunEnds.RestartStored | src/adapters/filestore/run_repository.go:386-401 | after a restart a run that was under way has failed, with usage and log as they were |
| RunEnds.ReconcileStored | src/application/service.go:1841-1882 | its terminal event is then written once, exactly when it is missing |
| RunEnds.EndsCompleted | src/application/service.go:1402-1604 | over all interleavings: a run that nobody cancels or breaks off and whose writes succeed is never stored as failed or canceled, and when its executor leaves it is stored as completed with the usage of its work, its log ending with that event |
| RunEnds.EndsHaveCauses | src/application/service.go:1402-1604 | over all interleavings: no run is failed without an error, a failed write or a restart, canceled without a request or a canceled context, or completed without work that was done |
| RunRecord.PauseKeeps | src/application/admin.go:148-204 | pausing keeps status, log, ticket and channel invariants, also when its write fails |
| RunRecord.ReconcileKeeps | src/application/service.go:1841-1882 | the terminal event missing after a restart is appended once, behind the last number |
| RunRecord.RestartKeeps | src/adapters/filestore/run_repository.go:386-401 | a restart fails what was under way and keeps every durable invariant |
| RunRecord.NextKeeps | src/application/service.go:1402-1596 | every lock region of executor, cancel, pause, resume and restart keeps the record sound |
| RunRecord.Service.SaveActiveRun | src/application/run_lifecycle.go:11-25 | a late approval callback changes the status only of a run that has not ended and is not being canceled |
| RunRecord.Service.SaveTerminalRun | src/application/run_lifecycle.go:29-64 | exactly the first terminal save wins; a later one can only replace the usage by one that is nowhere smaller |
| RunRecord.Service.PauseRun | src/application/admin.go:148-204 | the pause region: mark, channel and stored status, and none of them when the write fails |
| RunRecord.Service.ResumeRun | src/application/admin.go:206-248 | resuming takes the mark away and closes the channel the executor may wait on |
| RunRecord.Service.ClearActive | src/application/service.go:1769-1793 | leaving the active table clears the mark and closes the channel |
| RunRecord.Service.AppendEvent | src/application/service.go:1606-1660 | the event region writes one event with the next number or nothing, and refuses what does not fit the stored end |
| ToolRecovery.UncertainExact | src/harness/tool_recovery.go:16-49 | recovery finds an operation exactly when it was declared or dispatched and the next thing said of its call id, if any, is a new declaration |
| ToolRecovery.RestoreUncertain | src/harness/tool_recovery.go:11-51 | the paged scan yields what is uncertain in the whole record, whatever the pages |
| ToolRecovery.SessionRepository.ListEntriesPage | src/ports/session_repository.go:29-33 | a page is the next piece behind the cursor, and says whether entries are left |
| ToolRecovery.Scan | src/harness/tool_recovery.go:23-42 | what one entry does to the pending calls and the uncertain operations |
| ToolRecovery.AnswerCloses | src/harness/tool_recovery.go:23-42 | a recorded call or dispatch is pending until its result is recorded; a result of unknown outcome leaves it pending, and so does any other entry |
| LoopGuard.RepeatNeedsChange | src/harness/loop_guard.go:76-105 | a succeeded operation proceeds again only after another success on its resource; otherwise the first repeat bars all operations with side effects except those of unknown outcome |
| LoopGuard.UnknownStays | src/harness/loop_guard.go:76-80 | an operation once seen with unknown outcome is never let through on its own again |
| LoopGuard.SuccessRemembered | src/harness/loop_guard.go:156-166 | a success is remembered until another operation succeeds on the same resource |
| LoopGuard.LatestSucceeded | src/harness/loop_guard.go:167-170 | the latest operation of a resource is one that succeeded on it in this run |
| LoopGuard.SuccessfulExactly | src/harness/loop_guard.go:156-170 | over a whole run: a success is remembered if and only if no other operation has succeeded on its resource since |
| LoopGuard.ProceedsExactly | src/harness/loop_guard.go:63-106 | a call with side effects proceeds if and only if it is neither of unknown outcome nor a remembered success, nothing is to be finished, and no error, strategy or attempt of it is blocked |
| LoopGuard.NeverTakenBack | src/harness/loop_guard.go:63-106 | neither a reason to finish nor an unknown outcome is ever taken back within a run |
| LoopGuard.UncertainAt | src/harness/loop_guard.go:118-123 | what the guard takes for uncertain is what it was given and what ended unknown since with side effects, and nothing else, also when the catalogue changes |
| LoopGuard.ToolLoopGuard.Admit | src/harness/loop_guard.go:63-106 | the order of the rules: unknown outcome, repeated success, blocked errors, blocked strategies, reason to finish |
| LoopGuard.ToolLoopGuard.See | src/harness/loop_guard.go:108-180 | what the guard learns from the end of a call |
| LoopGuard.ToolLoopGuard.SeeFailure | src/harness/loop_guard.go:124-155 | two equal failures block a strategy, four equal errors block a resource |
| LoopGuard.ToolLoopGuard.SeeSuccess | src/harness/loop_guard.go:156-179 | a success replaces the latest operation of its resource and lifts its blocks |
| LoopGuard.ToolLoopGuard.BlockedByError | src/harness/loop_guard.go:236-248 | blocks are found by the prefix of tool and resource |
| LoopGuard.ToolLoopGuard.Restore | src/harness/loop.go:286-290 | a new run's guard starts with what earlier runs left open |
| LoopGuard.ToolLoopGuard.ChangeCatalogue | src/harness/loop.go:357-366 | a new catalogue changes which calls are watched and nothing else |
| RepeatedFailures.EqualFailuresBar | src/harness/loop_guard.go:92-104 | over a whole run: two equal failures, however far apart, bar every call with that strategy, or with that attempt when the contents were to blame, until a call that goes by it succeeds |
| RepeatedFailures.EqualErrorsBar | src/harness/loop_guard.go:140-147 | over a whole run: four equal errors of a tool on a resource bar every call of the tool on it, whatever it attempts, until one succeeds |
| RepeatedFailures.RefusedForFailures | src/harness/loop_guard.go:86-104 | whoever is refused repeats what failed: two equal failures of its strategy or attempt, or four equal errors of its tool on its resource, lie behind it |
| RepeatedFailures.SuccessLifts | src/harness/loop_guard.go:171-179 | a success lifts what stood against its strategy, its attempt and its tool on the resource, until the next failure |
| RepeatedFailures.TwoRefusalsEndAll | src/harness/loop_guard.go:92-101 | after two refusals for the same strategy or attempt no call with side effects proceeds any more |
| ToolDispatch.NeverResentUnasked | src/harness/tools.go:341-433 | over all runs and crashes: a second dispatch of an operation with side effects whose first result is not known was approved, whatever was exempt or approved permanently |
| ToolDispatch.RecoveryCovers | src/harness/tool_recovery.go:11-51 | every dispatch without a known result is found by recovery |
| ToolDispatch.BeginExactly | src/harness/loop.go:283-290 | a run begins exactly where none is under way, under a fresh id, and finds uncertain exactly what the record leaves open |
| ToolDispatch.SendSafe | src/harness/tools.go:401-433 | the dispatch record of an admitted call keeps the promise for the whole record |
| ToolDispatch.FinishKeeps | src/harness/loop_guard.go:118-123 | an unknown end joins what the run avoids before the next call |
| ToolDispatch.RecordKeeps | src/harness/loop.go:1020-1043 | recording a result closes exactly its own call |
| ToolDispatch.NextKeeps | src/harness/loop.go:958-1105 | every step of a turn, and the end of the run between any two, keeps the promise |
| DispatchRules.UncertainExactly | src/harness/tool_recovery.go:11-51 | in every reachable state the guard of a run takes exactly those operations for uncertain that may have happened before the run began or have ended unknown in it with side effects |
| DispatchRules.AskedExactly | src/harness/tools.go:341-433 | over all sessions and for all grounds: when somebody is asked before a call with side effects, and when it is sent unasked, each if and only if, in terms of approvals, need, exemption, permanent approval and doubt |
| DispatchRules.AdmissionExactly | src/harness/tools.go:341-433 | an admitted call is sent exactly when it is possible and either no approval is called for or the decision is to approve; when approval is called for is said in plain terms, both directions |
| ToolRunner.EndExactly | src/harness/tools.go:341-433 | the same of the executed call: sent, refused or asked about, each if and only if |
| ToolRunner.GuardLearns | src/harness/tools.go:298-478 | the guard learns the outcome of an executed call and the refusal of one that it let through itself; a call that breaks off teaches it nothing |
| DispatchRules.EscapesOnlyReadOnly | src/harness/loop_guard.go:70-80 | a call with side effects whose operation has an earlier dispatch without a known result is in doubt, unless this very run made that dispatch as a read-only call |
| DispatchRules.CatalogueChangeEscapes | src/harness/loop.go:350-364 | that exception happens: for every tool and all grounds that ask nobody, a run that sends an operation again unasked after a change of the catalogue |
| DispatchRules.SuccessNotRepeated | src/harness/loop_guard.go:76-105 | over all sessions: when an operation with side effects that has succeeded in a run is about to be sent again, asked about or not, another operation has succeeded on its resource in between, or it is the retry of an operation in doubt and somebody has been asked |
| DispatchRules.HistoryKeeps | src/harness/loop.go:283-290 | every step of a session keeps the guard in line with what it was given and told |
| ToolRunner.Runner.ExecuteToolCall | src/harness/tools.go:298-478 | what a call does for all grounds and fates: dispatched and recorded first, refused, or ended by an error; a call that needs approval and is neither exempt nor approved for good is dispatched only when approved, an unknown outcome only when this very call was, and such an approval never becomes permanent |
| ToolRunner.Runner.Ask | src/harness/tools.go:361-400 | which answers let a call through and which become permanent |
| ToolRunner.GroupToolCalls | src/harness/tools.go:250-272 | groups keep the calls in order, only parallel calls share one, at most eight, and such a group ends early only at another call |
| ToolRunner.GroupIsTaken | src/harness/loop.go:958-985 | the groups, one after the other, are what the session machine takes |
| ToolRunner.ExecutionIsPlayed | src/harness/tools.go:341-478 | the executed call and the steps of the session machine have the same effect on record, group and guard |
| Approval.BeginSurvives | src/approval/coordinator.go:58-78 | a new request can still be decided after any other ends if and only if no older request of its run is left |
| Approval.OverlapLoses | src/approval/coordinator.go:58-148 | a second request of a run, made before the decision of the first was taken, becomes undecidable at the end of the first |
| Approval.CancelKeeps | src/approval/coordinator.go:137-148 | without overlap the end of one request leaves the others decidable |
| Approval.DecisionArrives | src/approval/coordinator.go:80-135 | the decision accepted for a request is the one its call finds, whatever is requested, decided or ended for others in between |
| Approval.Coordinator.Begin | src/approval/coordinator.go:58-78 | one undecided request per run, decidable from then on |
| Approval.Coordinator.Decide | src/approval/coordinator.go:98-135 | exactly the request its run waits for is decided, and only once |
| Approval.Coordinator.Wait | src/approval/coordinator.go:80-96 | the waiting call gets the decision made for its own request, which is then gone |
| RepairLaws.LegalExactly | src/harness/context.go:616-664 | for every transcript, also one with repeated or blank call ids, the repaired view is legal if and only if no assistant message calls twice under one id |
| RepairLaws.FixedExactly | src/harness/context.go:616-664 | a legal view is left alone if and only if nothing but a synthesized result, in the last place, stands under the blank id |
| RepairLaws.IdempotentExactly | src/harness/context.go:616-664 | for every transcript, repairing again changes nothing if and only if in every block the calls without a result have distinct ids and behind them there are only blank ones |
| RepairLaws.TwiceUnderOneId | src/harness/context.go:616-664 | two unanswered calls under one id: the repaired view is not legal and repairing it again changes it |
| RepairLaws.BlankNotLeftAlone | src/harness/context.go:666-676 | a recorded result under the blank id: the view is legal and is not left alone |
| RepairLaws.NormalRulesOut | src/harness/loop.go:1401-1427 | the call ids that normalizeToolCalls provides meet all three conditions |
| Transcript.RepairKeepsSpeech | src/harness/context.go:616-664 | every message that is no tool result survives, in order |
| Transcript.RepairOfSuffix | src/harness/context.go:616-664 | on a suffix of a legal view repair only drops the leading tool messages |
| Transcript.ResultsAnswer | src/harness/context.go:628-660 | kept and synthesized results together answer each call exactly once |
| Transcript.LegalSplit | src/harness/context.go:678-696 | a cut that is not in front of a tool message leaves two legal views |
| Transcript.RepairToolCallPairs | src/harness/context.go:616-664 | the repair loop computes the repaired view |
| Transcript.CollectAnswers | src/harness/context.go:627-641 | the inner loop keeps the first result of each call and stops behind the last tool message |
| Transcript.SynthesizeMissing | src/harness/context.go:642-660 | a synthesized result, under its caller's sequence number, for each call without one |
| Transcript.MessagesFromEntries | src/harness/context.go:580-606 | replaying the log, retractions included |
| Transcript.NormalizeToolCalls | src/harness/loop.go:1401-1427 | accepts exactly named calls whose ids, drawn where blank, differ, and makes them unique and not blank |
| Compaction.CutIsFaithful | src/harness/context.go:174-184 | replaying behind the cursor of any cut of the view and repairing gives exactly the repaired rest, also when the last message cut off is synthesized |
| Compaction.ReplayFromCursor | src/harness/context.go:580-597 | replaying only what follows a message that the whole replay still holds gives exactly what stands behind it |
| Compaction.RepairCut | src/harness/context.go:616-664 | every cut through a repaired view has a cut through the messages with the same cursor and the same view behind it |
| Compaction.NextView | src/harness/context.go:547-563 | what the turn after a compaction works with, with and without a summary |
| Compaction.BlankSummaryLosesCut | src/harness/context.go:547-563 | the first compaction of a log keeps its cut if and only if its summary is not blank |
| Retractions.BlankSummaryExactly | src/harness/context.go:547-563 | whatever was compacted before, and as long as no retraction has cut in front of the cursor, a compaction keeps its cut if and only if its summary is not blank; a blank one undoes the earlier compactions too and brings the whole transcript back into view |
| Retractions.SeesExactly | src/harness/context.go:582-598 | at every point of a log the next turn works with exactly what a reader sees behind the cursor, if and only if no entry behind the cursor retracts a message in front of it while something else stands first behind it |
| Retractions.ShownBehindCursor | src/harness/context.go:162-184 | the view of the next turn is then the repaired transcript behind the cursor of the latest compaction |
| Retractions.RetractionShown | src/agents/harness/agent.go:199-236 | one more retraction is shown as it should be if and only if the message to retract is not in front of the cursor, or the transcript behind the cursor, up to a message of that id, holds only tool messages |
| Compaction.RetractedQuestionLeavesAnswer | src/agents/harness/agent.go:199-236 | a log in which a compacted question is asked again and its answer stays in view |
| Compaction.SplitForCompaction | src/harness/context.go:678-696 | the latest cut that leaves enough messages and is not in front of a tool message; both parts of a legal view are legal |
| Compaction.RetainCountWithinCharacters | src/harness/context.go:904-919 | the longest suffix that fits, and at least one message |
| Compaction.TotalExactly | src/harness/context.go:904-919 | what some messages cost is the sum of what each costs |
| Compaction.EnforceHistoryCharacterLimit | src/harness/loop.go:1738-1763 | a legal history becomes a legal suffix within the limit or of at most one message, and stays whole when it fits |
| Compaction.ContextManager.CompactMessages | src/harness/context.go:273-342 | compaction happens if and only if a cut exists and, when a reduction is demanded, brings the tokens down; what is given up goes through the summary once and in order, no more than the budget asks for, and the next turn rebuilds what was retained |
| Compaction.ContextManager.Shrink | src/harness/context.go:294-314 | messages are folded in, oldest first, only while the budget is exceeded and more than one is left |
| Compaction.ContextManager.Build | src/harness/context.go:162-258 | when a gate is exceeded and a cut is possible the turn compacts, otherwise it does not; it works with a suffix of the view that the next turn rebuilds |
| Compaction.ContextManager.Gates | src/harness/context.go:196-228 | which gates are exceeded, and how many messages are kept for each; an exceeded gate without a due compaction means no cut was possible |
| Plans.RunKeeps | src/domain/plan.go:149-255 | every plan that transitions and queueing lead to has the shape finished*, one unfinished, pending*, with current step, status and evidence to match |
| Plans.RunGrows | src/domain/plan.go:149-255 | steps are never added, removed or renamed and a finished step never changes |
| Plans.TransitionAtFrontier | src/domain/plan.go:168-184 | a successful transition moves the first unfinished step and nothing else |
| Plans.MovedKeeps | src/domain/plan.go:185-235 | each move of the life cycle leaves the step sound: completed only with evidence seen after verification began |
| PlanProgress.MovedExactly | src/domain/plan.go:185-230 | a move of a step succeeds if and only if its life cycle leads there and the move is justified: evidence where it is due, and proofs seen since the verification began; otherwise which error |
| PlanProgress.MovedTo | src/domain/plan.go:185-235 | what a move leaves: the step stays what it is about, its first start stays, and evidence and times are those of the move |
| PlanProgress.TransitionExactly | src/domain/plan.go:149-184 | a transition of an active plan succeeds if and only if it names the first unfinished step and that may move so |
| PlanProgress.TransitionNeeds | src/domain/plan.go:149-155 | only valid, active plans move, with which error otherwise; a move keeps what the plan is and notes its time |
| PlanProgress.CheckExactly | src/domain/plan.go:257-290 | a plan is valid if and only if it is named, has one to fifty filled steps with distinct ids and at most one of them under way; it is a conflict exactly when only the last is missing |
| PlanProgress.StatusSays | src/domain/plan.go:231-255 | a reached plan is completed if and only if every step is done, partial if and only if every step is done or skipped and some step was skipped, and otherwise its current step is the first that is neither |
| PlanProgress.RequeueExactly | src/adapters/filestore/plan_repository.go:415-431 | the queue makes a plan that is not over active when it is the first and queued otherwise, and changes nothing else |
| PlanProgress.PlanFinishes | src/domain/plan.go:149-255 | from every reachable active plan whose ids are as drawn and whose verification did not begin in the future, blocked steps included, there are moves that bring every step to its end; without skipped steps the plan is then completed |
| Plans.FingerprintExact | src/domain/plan_loop.go:307-313 | between two stages of one plan the fingerprint is equal if and only if every step has the same status and evidence |
| Plans.FingerprintAmbiguous | src/domain/plan_loop.go:307-313 | for unrelated plans it is not: a family of pairs with equal fingerprints and different evidence |
| Plans.NewPlan | src/domain/plan.go:100-145 | accepts exactly the admissible inputs and yields a fresh plan of the reachable shape |
| Plans.Plan.Validate | src/domain/plan.go:257-290 | finds incomplete or doubled steps and more than one busy step |
| Plans.Plan.TransitionStep | src/domain/plan.go:149-255 | moves one step in place as specified; a refused move changes nothing |
| Plans.Plan.Refresh | src/domain/plan.go:233-253 | the current step is the first unfinished one and the status follows from the steps |
| PlanLoopService.BudgetHolds | src/application/plan_loop.go:119-201 | without a new start the rounds ever started are at most the rounds counted, at most the bound, at most 20, over all interleavings and crashes |
| PlanLoop.InterruptedLoop | src/domain/plan_loop.go:168-203 | interrupting succeeds exactly for a running loop with a reason, and with a note if the agent interrupts; it keeps budget and idle count and leaves the round, the current step and the trimmed, shortened note |
| LoopRounds.OnlyMoves | src/application/plan_loop.go:19-327 | whatever the service does, the plan of a loop is changed by the moves of its steps and the order of the queue alone |
| LoopRounds.RoundExactly | src/application/plan_loop.go:173-188 | every round, whatever interleaves with it: without a completed run the loop is paused; otherwise it counts as idle if and only if every step has the status and evidence it had at the beginning, and goes on or stops for the first reason that holds |
| LoopRounds.TwoIdleRounds | src/domain/plan_loop.go:262-301 | two idle rounds in a row stop the loop, however it is interrupted and resumed between them, and progress in the second sets the count to zero |
| LoopRounds.RoundCarriedOut | src/application/plan_loop.go:161-201 | a round that was sent can be carried out: its run ends and leaves, and then its end is booked, once |
| LoopRounds.UnsentPauses | src/application/plan_loop.go:119-155 | a round that cannot be begun or whose run cannot be saved pauses its loop; if that fails too the loop is left without a driver |
| LoopRounds.StartExactly | src/application/plan_loop.go:19-37 | a start that is allowed sends the first of so many rounds, or of three; any other changes nothing |
| LoopRounds.ResumeExactly | src/application/plan_loop.go:40-57 | a paused loop of an active plan with rounds left goes on with the next one; any other stays as it is |
| LoopRounds.StopExactly | src/application/plan_loop.go:60-77 | the user ends every loop that is not stopped already |
| LoopRounds.StopFrees | src/application/plan_loop.go:204-222 | a stop ends the run of the round, and the session is free as soon as its executor has left |
| LoopRounds.CancelSpares | src/application/plan_loop.go:204-222 | only live runs of that session are ended |
| LoopRounds.InterruptExactly | src/application/plan_loop.go:83-98 | an interrupt pauses exactly a running loop, with reason, checkpoint and note |
| LoopRounds.ReconcileExactly | src/application/plan_loop.go:288-327 | recovery stops a loop whose round completed and whose plan is over, pauses any other running loop of an idle session, and leaves the rest |
| LoopRounds.RestartRecovers | src/application/plan_loop.go:273-327 | after a restart no run is live, and recovery leaves no loop running |
| LateRuns.NeverDrivesAgain | src/application/plan_loop.go:161-190 | once a loop has moved on to another round or was started anew, no continuation lets the run it left behind drive it |
| LateRuns.LateRunExactly | src/domain/plan_loop.go:206-228 | a run that has left the active table reaches a loop that was paused, stopped or moved on if and only if the loop is resumed, its next round cannot be begun and that cannot be stored either |
| LateRuns.LateRunStaysOut | src/application/plan_loop.go:161-201 | without that, no state of any continuation lets the executor of the run advance the loop |
| LateRuns.ReleasedStep | src/application/plan_loop.go:119-155 | exactly that failed write gives the loop back to the run |
| LateRuns.LateRunReturns | src/application/plan_loop.go:119-155 | and it can happen to every paused loop whose old executor is still leaving |
| PlanLoopService.OneRoundAtATime | src/application/plan_loop.go:119-143 | in every reachable state a loop has at most one active round run, and a running loop that lost nothing to a crash has somebody who will advance it |
| PlanLoopService.NextKeeps | src/application/plan_loop.go:19-327 | every durable step, crash and recovery keeps counting, placement and drivers of all loops |
| PlanLoopService.AdvanceKeeps | src/application/plan_loop.go:161-201 | the end of a round keeps counting, placement and drivers of all loops |
| PlanLoopService.ReconcileKeeps | src/application/plan_loop.go:288-327 | so does the recovery of a loop that lost its driver |
| PlanLoopService.Service.HasActiveSession | src/application/service.go:1816-1826 | tells exactly whether a run of the session is active |
| PlanLoopService.Service.PlanForLoopRun | src/application/plan_loop.go:228-240 | finds the loop that is still in the round of a run, if there is one |
| PlanLoopService.Service.StartPlanLoopRound | src/application/plan_loop.go:119-155 | counted, saved, started, or paused: as the machine does it, with the round counted first |
| PlanLoopService.Service.AdvancePlanLoop | src/application/plan_loop.go:161-201 | the end of a run advances its own loop, if it is still in that round, by the step that `RoundExactly` speaks of, and sends or fails to send the next round; otherwise it does nothing |
| PlanLoopService.Service.CancelSessionRuns | src/application/plan_loop.go:204-222 | no run of the session is left live |
| InstructionStream.AnySplit | src/harness/instruction_stream.go:18-103 | for every split of every text the machine ends as the batch specification of the whole text says |
| InstructionStream.WholeAnswer | src/harness/instruction_stream.go:18-60 | what a reader has seen in the end: all of it, or exactly the part in front of the first tool marker; what a marker is, is said by `MarkerLaws` |
| InstructionStream.ReleaseIsFinal | src/harness/instruction_stream.go:125-146 | a decision to release is never undone by more text |
| InstructionStream.StopIsFirstMarker | src/harness/instruction_stream.go:77-103 | where the filter stops there is a marker, and it is the first |
| InstructionStream.NoMarkerPassed | src/harness/instruction_stream.go:77-103 | the filter passes no marker by |
| InstructionStream.HeldWithNeed | src/harness/instruction_stream.go:77-123 | for every split, what is held back begins with the first brace that may still open a marker, and all in front of it has been shown |
| InstructionStream.InstructionTextStream.Push | src/harness/instruction_stream.go:18-33 | one piece has the specified effect; when a piece of output is refused, what was shown is a prefix of it |
| InstructionStream.InstructionTextStream.PushReleased | src/harness/instruction_stream.go:65-103 | the forwarding loop filters the held and the new text as one |
| InstructionStream.InstructionTextStream.Finish | src/harness/instruction_stream.go:41-60 | the end adds the held text, or the final text when nothing was released |
| InstructionStream.EmbeddedInstructionToolPrefix | src/harness/instruction_stream.go:105-123 | whether a text begins a tool marker, or may come to, in the sense of `MarkerLaws` |
| InstructionStream.InstructionPrefixMayBeTool | src/harness/instruction_stream.go:125-146 | whether the opening of an answer may still be an instruction |
| MarkerLaws.SpaceApart | src/harness/instruction_stream.go:107-111 | white space anywhere makes no difference to whether a text begins a marker or may come to |
| MarkerLaws.CaseApart | src/harness/instruction_stream.go:107-112 | nor does the case of any letter |
| MarkerLaws.PlainMarkers | src/harness/instruction_stream.go:113-122 | without white space and capital letters, a text begins a marker if and only if one of the three is a prefix of it, and may come to if and only if it is a prefix of one |
| MarkerLaws.OpeningSpace | src/harness/instruction_stream.go:126-129 | white space in front of an answer makes no difference to whether it may be an instruction |
| MarkerLaws.OpeningCase | src/harness/instruction_stream.go:130-130 | nor does the case of any letter |
| MarkerLaws.PlainOpening | src/harness/instruction_stream.go:131-145 | a plain text may be an instruction if and only if it is blank or one of the eight openers and it agree as far as both go |
| JsonScanner.BalancedPrinted | src/harness/tool_protocol.go:431-469 | the scanner returns exactly the printed object, for every object and every text behind it |
| JsonScanner.TruncatedIsUnbalanced | src/harness/tool_protocol.go:431-469 | no proper beginning of a printed object is taken for a complete one |
| JsonScanner.ObjectsWoven | src/harness/tool_protocol.go:413-429 | all printed objects between brace-free texts are found, whole and in order |
| JsonScanner.ObjectsAreSpans | src/harness/tool_protocol.go:413-429 | for every text the results are disjoint pieces of it, in order |
| JsonScanner.CompleteIsTerminated | src/harness/tool_protocol.go:304-323 | complete objects between brace-free texts are never reported as cut off |
| JsonScanner.CutOffIsReported | src/harness/tool_protocol.go:304-323 | an instruction cut off behind its directive field is reported when complete objects between brace-free texts precede it |
| InstructionShape.LooksExactly | src/harness/tool_protocol.go:26-28 | a text looks like an instruction if and only if it is an opened object whose first field is type, tool, tool_name or action in any case, with a text for its value and any gaps between |
| Surroundings.ReportedExactly | src/harness/tool_protocol.go:304-323 | whatever precedes it, such an instruction is reported if and only if something is missed in front of it, or no object found in front reaches over its beginning, or something is missed behind that object |
| Surroundings.FoundExactly | src/harness/tool_protocol.go:413-429 | whatever precedes and follows it, a printed object is found where it stands if and only if no object found in front reaches over its beginning |
| Surroundings.FoundRest | src/harness/tool_protocol.go:413-429 | in that case what precedes it, the object itself and what follows it are found side by side |
| Surroundings.SearchedOn | src/harness/tool_protocol.go:304-323 | for every two texts, what the search for objects and for cut-off instructions does in their concatenation is what it does in front and what it does from the place where it then goes on |
| Surroundings.CutOffUnreported | src/harness/tool_protocol.go:304-323 | a cut-off instruction behind an open brace and a quote is not reported |
| Surroundings.CompleteNotFound | src/harness/tool_protocol.go:431-469 | a complete instruction behind an open brace and a quote is not found; a text that begins in front of it is |
| JsonScanner.BalancedJSONObject | src/harness/tool_protocol.go:431-469 | the scanning loop computes the shortest balanced object at the start of a text |
| JsonScanner.JsonObjects | src/harness/tool_protocol.go:413-429 | the loop over braces collects these objects |
| JsonScanner.UnterminatedToolInstruction | src/harness/tool_protocol.go:304-323 | the loop that looks for an instruction without an end |
| Usage.SumByKeys | src/harness/budget.go:90-101 | adding up model by model is adding up |
| Usage.LedgerAdds | src/harness/model_budget.go:57-86 | booking one report keeps totals and parts in step |
| Usage.Tracker.Book | src/harness/model_budget.go:57-86 | the larger of answer and stream is booked, whatever numbers it holds; an answer without a report costs budget but is no usage; reports that take nothing back keep the ledger consistent |
| Usage.ConservedExactly | src/harness/model_budget.go:77-85 | for reports with any numbers, the parts by model add up to what was reported if and only if the reports without a positive total add up to nothing |
| Usage.TakenBackDiffers | src/harness/model_budget.go:57-86 | a report that takes tokens back makes parts and totals differ |
| Usage.Tracker.AddReportedUsage | src/harness/budget.go:70-72 | a report joins the totals and, if it has tokens, the entry of its model; reports that take nothing back keep the ledger consistent |
| Usage.Tracker.ModelUsage | src/harness/budget.go:90-101 | the parts, in order, add up to what was reported |
| Usage.Tracker.Snapshot | src/harness/loop.go:196-205 | what a run leaves behind is consistent: parts and totals agree |
| Usage.Tracker.PlanToolCalls | src/harness/budget.go:105-121 | the longest prefix of the requested calls with which the limit is not passed is planned |
| Usage.Tracker.AddToolCalls | src/harness/budget.go:123-127 | over every sequence of planned and counted calls the number of calls never passes a positive limit |
| Usage.PricedRunUsage | src/application/usage.go:33-85 | parts are kept exactly when they add up to the totals; a cost is known only if that of every part is |
| Usage.StoreRunUsage | src/application/usage.go:87-94 | what is stored with a run accounts for all its reports, as a whole and model by model; no part is ever dropped |
| Usage.PriceExactly | src/application/usage.go:71-85 | a million tokens cost their price and tokens are charged one by one |
| Usage.CostExactly | src/application/usage.go:71-85 | the cost is unknown exactly for a model without a price and for a usage without tokens |
| Usage.CostSumExactly | src/application/usage.go:47-70 | the cost of some parts is known if and only if every one is |
| SessionUsage.SummarizeUsageSnapshots | src/application/usage.go:113-185 | the session's totals are the sum over its runs and over its models; there is one group for every model that used tokens, in order, with the sum over its parts; the cost of the session and of a group is that of the parts that used tokens, unknown if one of these is |
| SessionUsage.ConservedEndToEnd | src/application/usage.go:103-185 | the totals of a session and every group are the sums over all reports of all its runs |
| SessionUsage.SummaryPermuted | src/application/usage.go:103-185 | totals, groups and costs are the same for every order of the runs |
| SessionUsage.FlatSum | src/application/usage.go:113-123 | counting the parts counts every run once |
| Usage.SumPermuted | src/application/usage.go:128-160 | the order of the parts does not matter |
| OutputEstimate.PushIsCut | src/harness/model_budget.go:101-111 | pushing characters one by one cuts the text into the same blocks as cutting it whole |
| OutputEstimate.BlocksSettle | src/harness/model_budget.go:101-111 | whole blocks of 1024 characters are settled one by one and the rest is pending |
| OutputEstimate.NothingLost | src/harness/model_budget.go:101-115 | nothing is lost or doubled: for a counter that adds up the estimate is what the whole text costs |
| OutputEstimate.BudgetOutputEstimate.Append | src/harness/model_budget.go:101-111 | the state depends on the whole text only, however it was split |
| Version.NewerVersion | src/bootstrap/update_check.go:168-193 | newer exactly when the vectors of numbers, padded with zeros, compare so; never when one has no number |
| Version.LessIsStrictOrder | src/bootstrap/update_check.go:168-193 | that order is irreflexive, asymmetric and transitive, and undecided exactly between equal versions |
| Version.LongerIsLarger | src/bootstrap/update_check.go:185-187 | of two texts without leading zeros the longer one is the larger number |
| Version.SameLengthOrder | src/bootstrap/update_check.go:188-190 | for texts of one length the order of characters is the order of values |
| Version.VersionParts | src/bootstrap/update_check.go:195-206 | the maximal runs of digits, without leading zeros |
| Version.RunsSplit | src/bootstrap/update_check.go:195-197 | the numbers of two texts side by side are theirs, unless they meet within a number |
| Version.RunsOfOne | src/bootstrap/update_check.go:195-197 | a text of digits is one number and a text without digits has none |
| Version.ValueAppend | src/bootstrap/update_check.go:185-190 | one more digit makes ten times the number and that digit: the value the texts are compared for is the decimal one |
| Version.DigitsAre | src/bootstrap/update_check.go:195-197 | the digits are the ten of ASCII, with their values |
| Schedule.Next | src/domain/schedule.go:106-142 | fails exactly on an unacceptable recurrence; daily and weekly give the least instant behind the argument with the time of day and an allowed weekday |
| Schedule.NextDaily | src/domain/schedule.go:117-125 | today or tomorrow is enough |
| Schedule.NextWeekly | src/domain/schedule.go:126-140 | the same weekday of next week is enough |
| Schedule.NormalizeWeekdays | src/domain/schedule.go:199-217 | accepts exactly nonempty lists of weekdays and returns the days in order, each once |
| Schedule.WallClock | src/domain/schedule.go:229-232 | the time of day on the day that lies the offset ahead |
| Schedule.ShowsTime | src/domain/schedule.go:229-232 | that instant lies on its day, so many hours and minutes behind midnight |
| Schedule.Weekdays | src/domain/schedule.go:126-135 | the weekdays follow each other, and day 0 is a Thursday |
| Schedule.AcceptableExactly | src/domain/schedule.go:70-100 | acceptable is exactly an interval of one minute up to a week, a minute of the day, and any choice of weekdays but none |
| Text.TrimTwice | src/domain/plan.go:156-157 | trimming again changes nothing, and a text trims to nothing exactly when it is blank |
| Text.TrimMeans | src/domain/plan.go:156-157 | trimming takes white space away from both ends, and all of it |

## Left out

- HTTP API, MCP transport, provider adapters, shell, SSH and document tools, RAM disks, updater networking and notifications: I/O. A tool is any outcome: succeeded, failed, unknown, or a crash.
- File stores: repositories are atomic maps and logs that obey `src/ports`; a write may fail but is never torn. `runs.Get` does not fail, so the branch of `appendEventLocked` that skips its check is not taken.
- Sessions and runs are modelled one at a time where the code keeps them apart (`SessionGate` one session, `RunRecord` one run); that one run at a time works in a session, which `ToolDispatch` builds on, is what `SessionGate` proves.
- Prompts, retrieval scoring, memory ranking, summary texts and token estimates: summaries and counters are arbitrary functions; only whether a summary is blank matters. `fitContextToBudget` and `shapeToolResults`, which shorten texts of the finished view, are not modelled.
- SHA-256, random ids and `json.Marshal`: injective or fresh values, except for the printer that the scanner is proved against. The keys that the guard derives from a call are taken as given; that the same operation has the same resource throughout a run is a premise (`Coherent`) of what is said about repeated successes.
- `AfterTool` hooks may change a result; they are part of the outcome of a tool and absent for refused calls. `find_tools` and tool retrieval are not modelled.
- Reason texts (guard, loops, plans) and the content of the round brief; what recovery writes in front of an earlier note is one fixed text.
- Plan creation, deletion and reordering in the service, and the check of locked plans; a deleted plan simply ends its model.
- Daylight-saving transitions, the parsing of `HH:MM`, and intervals across a change of offset: the zone has a fixed offset and hours and minutes come as numbers.
- The stop inside a running stream when the token budget is exceeded (`streamWithBudget`), wall-clock limits and heartbeats.
- `CompactSession`, manual compaction and its reporting: the same `CompactMessages` with another trigger.
- InstructionStream.AnySplit: splits fall between characters, where the source splits bytes; of case folding only what can meet an ASCII marker is modelled.
- Compaction.CutIsFaithful: speaks of the log at the time of the compaction, with the unique and non-blank call ids that `normalizeToolCalls` provides; what later entries do is said by `Retractions`.
- ToolDispatch.NeverResentUnasked: does not cover a second dispatch in the same run of a call that was read-only when it was first sent, because there the code does not ask, as `CatalogueChangeEscapes` shows; `AskedExactly` says exactly when it does.
- Schedule.Next: holds in zones with a fixed offset, because a day of another length moves the times of day that it counts from.
