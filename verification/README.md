# AxiomCLI: a model of its runtime protocols, with proofs

AxiomCLI is a coding-agent host. This project models five of its components in Dafny and proves
what they promise for every input, every run and every interleaving.

- **Rotating native session** (`Credentials.dfy`, `Rotation.dfy`, `SessionIdentity.dfy`,
  `RotationRuns.dfy`, `SoloRefresh.dfy`). Several processes share one stored refresh token behind a file lock. A
  refresh consumes the stored token (section 4.14 of RFC 9700). Store calls may time out, keep a
  cloned lock handle and finish late. `AuthManager` is the in-place state of one process;
  `Rotation` is the interleaved system of processes, tasks, calls in flight and lock handles;
  `SessionIdentity` says which account a generation names; `RotationRuns` holds two concrete runs
  from the start that break what the code promises; `SoloRefresh` shows that a task alone in the
  interleaved system does what the manager does.
- **Account-switch barrier** (`AccountWork.dfy`, `SwitchBarrier.dfy`, `BarrierRuns.dfy`). Two tables with a flag
  each, work guards, a drain loop on a notifier, and a publication gate. The classes carry the
  tables; `SwitchBarrier` interleaves any number of workers and switches over the same functions;
  `BarrierRuns` shows what it lets through.
- **Session kernel and journals** (`Vocabulary.dfy`, `KernelModel.dfy`, `Journals.dfy`). A live state
  machine emits events, a separate replay rebuilds sessions from them, and kernel runs are joined
  by crashes and restores.
- **Agent turns and compaction** (`Chat.dfy`, `Utf8.dfy`, `Compaction.dfy`, `History.dfy`,
  `Pairing.dfy`, `Approvals.dfy`, `AgentLoop.dfy`, `AgentTurns.dfy`, `LiveReplay.dfy`,
  `Readings.dfy`, `ReadingRules.dfy`, `TurnReadings.dfy`, `Conversations.dfy`,
  `TurnContents.dfy`, `TurnVerdicts.dfy`, `RestoredContents.dfy`, `TurnEndings.dfy`). The turn loop with its tool calls, questions, steering and
  compaction; the cutting of a conversation into bounded UTF-8 fragments (section 3 of RFC 3629);
  the replay of a conversation from its journal, its agreement with the running engine after a
  compaction, the reading of a journal that says whether the replay answers every call, and
  conversations of many turns, compactions and restarts. Four modules say, without the functions
  that compute it, what a turn sends and journals message by message and event by event, how it
  ends, what a restored conversation says, and how the end of a turn shows in it.
- **Streaming relay** (`Relay.dfy`). The select loop and drain of the local proxy.

Code that updates state is a class or a method with a loop, proved against a function of the old
state; the laws are lemmas about those functions and about runs of them. `Prelude.dfy` holds the
shared datatypes. `dafny verify dfyconfig.toml` checks everything.

## Assumptions

- Counters do not wrap, and a fresh identifier is new.
- A `notified()` future created before `notify_waiters` receives it.
- A duplicated file handle keeps the lock.
- The server never issues a refresh token twice.
- The ids of the tool calls of one conversation are distinct (`AgentTurns.FreshSteps`).
- Question requests hold at least one question, and what tools, providers and the compactor emit
  is none of the events the kernel checks (`AgentTurns.Quiet`) or a replay of messages interprets
  (`TurnReadings.SilentStep`).
- Events recorded on a session are not lifecycle events (`Journals.IsLifecycleEvent`). `record`
  accepts those without changing the live session, but a replay interprets them:
  `Journals.RecordRefinesExactly` says exactly which.

## Findings

- apps/axiomcli/src/auth.rs:1416-1440. A delete that returns an error after a refused refresh
  releases the lock with the spent token still stored. The process itself then knows that the
  store is unavailable and validates no more, but a process that starts, or a peer, loads the spent
  token and its next refresh sends it again: `RotationRuns.FailedDeleteResends` is such a run from
  the start. The same goes for a failing load, a late failing save or delete, and a process that
  dies with the lock. `Rotation.TokensAreResentExactly`: up to the next free lock, the next refresh
  of any process that may start one sends a token again if and only if one of these happened while
  the store held a sent token.
- apps/axiomcli/src/auth.rs:1343-1353. When taking the audience lock fails, the process forgets
  its authorization without holding the operation lock. A starting login takes that lock without
  the operation lock (auth.rs:1179), so the failure can fall into a commit of the same process
  that has read its account; a validation in between that names another account, say with an
  access token obtained earlier, then makes one generation name two accounts.
  `RotationRuns.StartingLoginConfuses` reaches it from the start, and
  `SessionIdentity.AccountsAreConfusedExactly` shows that exactly these races lead there.
- apps/axiomcli/src/app.rs:721-751. Coming back through `ResumeSession` instead of a restore
  forgets the ended turns. `Journals.ResumeForgetsEndedTurns`: a prompt then restarts an ended turn
  if and only if it names one, and no prompt does if and only if the journal has no ended turn;
  `Journals.ResumeRestartsATurn` is a run from the start.
- apps/axiomcli/src/agent.rs:2797-2815. A declined turn answers the calls whose ids have no reply
  anywhere in the conversation. This keeps the history well formed exactly when no awaited id was
  answered before (`Pairing.DeclinedPairsExactly`); `Pairing.DeclinedReuseStaysOpen` is a list on
  which it does not.
- apps/axiomcli/src/agent.rs:2902-2966. A turn that runs to its end leaves a proposed call without
  an output in its journal exactly when the user dismissed a question
  (`TurnReadings.OpenOnlyByDismissal`), and the restored conversation then has an unanswered call;
  `TurnReadings.DismissedTurnRestoresUnpaired` is such a turn. A turn that a deadline, an abort or
  a crash cuts off, for example inside `before_optional_deadline` (agent.rs:2785-2797), does so
  exactly when it is cut off between a proposed call and its output
  (`TurnReadings.CutTurnRestoresPairedExactly`).

## Model

| member | source | states |
|---|---|---|
| `KernelModel.Kernel.Apply` | apps/axiomcli/src/app.rs:677-941 | A command is applied if and only if it is not cancelled and its session takes it, by the kind of command; rejected, it leaves sessions, counter and events untouched; applied, it changes its own session alone and its events, under consecutive numbers, tell exactly what was asked: which turn started or ended and how, with which words, and which settings |
| `KernelModel.AppliedTells` | apps/axiomcli/src/app.rs:677-941 | A command is applied exactly when its session takes it; the events then tell what was asked, and the session has become that |
| `KernelModel.TakenCommandTells` | apps/axiomcli/src/app.rs:752-941 | By kind of command: which events are journaled, with which fields, and what the session becomes |
| `KernelModel.ClosedForGood` | apps/axiomcli/src/app.rs:925-935 | A closed session stays as it is whatever clients do, and takes no later command |
| `TurnEndings.EndingIsNoted` | apps/axiomcli/src/agent.rs:2022-2042 | Replaying the end of a turn adds the interruption note exactly when the turn was cancelled or failed, and the turn is active no more |
| `TurnEndings.RestoredEndsInterrupted` | apps/axiomcli/src/agent.rs:2022-2088 | A conversation restored right after the end of a turn ends in the interruption note if and only if the turn was cancelled or failed |
| `KernelModel.Kernel.Record` | apps/axiomcli/src/app.rs:948-1038 | An event of the running turn is accepted under the kernel's checks and sealed with the next sequence number, or nothing changes |
| `KernelModel.RecordedExactly` | apps/axiomcli/src/app.rs:948-1038 | Which event is taken in which state; the kernel waits for the user exactly from a question to its answer, and nothing else changes |
| `KernelModel.Kernel.FinishTurnOf` | apps/axiomcli/src/app.rs:1060-1080 | Ending a turn succeeds on the active turn only, adds it to the ended turns and clears everything pending |
| `KernelModel.Kernel.EnvelopeAll` | apps/axiomcli/src/app.rs:1082-1099 | A batch takes consecutive sequence numbers in order |
| `KernelModel.Kernel.InstallRestore` | apps/axiomcli/src/app.rs:1048-1052 | Installing a restored session touches no other, and the counter never falls behind the restored one |
| `KernelModel.RestoreProjection.Replay` | apps/axiomcli/src/app.rs:1227-1267 | One replayed event is the projection of one event; an event of another session is refused |
| `KernelModel.Kernel.RestoreFromEvents` | apps/axiomcli/src/app.rs:1040-1046 | A restore yields the projection of the whole journal, and a journal that does not project leaves the kernel alone |
| `KernelModel.Kernel.RestoreWithCooperation` | apps/axiomcli/src/app.rs:1349-1376 | With any operations of other clients between any two replayed events, the kernel ends as those operations followed by the installed projection; of a journal that does not project nothing is installed, and the others were served exactly up to the first event that fails |
| `KernelModel.PerformAllConcat` | apps/axiomcli/src/app.rs:1349-1376 | Operations done in two batches are done in one |
| `KernelModel.ProjectAllFails` | apps/axiomcli/src/app.rs:1227-1267 | A projection that failed on a prefix fails on the journal |
| `Journals.ReplayIgnoresVolatile` | apps/axiomcli/src/app.rs:1102-1213 | What replay makes of the durable fields does not depend on the volatile ones |
| `Journals.CommandRefines` | apps/axiomcli/src/app.rs:677-941 | Replaying a command's events does to the durable fields what the command did, and however much of the batch survives a crash, the session is the one before or the one after |
| `Journals.RecordRefinesExactly` | apps/axiomcli/src/app.rs:948-1038 | Recording agrees with replay from every session if and only if the event is not one that replay turns into durable state |
| `Journals.RestartRefinement` | apps/axiomcli/src/app.rs:1102-1267 | Over every history of commands, events, crashes and restores: restoring a session's journal gives the live session with only its volatile fields reset, at a sequence number the counter has reached |
| `Journals.TurnLinearity` | apps/axiomcli/src/app.rs:752-823 | Over every history: journals are in sequence order, no turn starts after its end, and a live session has an unended active turn exactly while running or waiting, with the matching pending request |
| `Journals.EndSucceedsOnActiveTurn` | apps/axiomcli/src/app.rs:1060-1080 | On every reachable session, finishing, cancelling and failing succeed exactly on the active turn and make the session ready |
| `Journals.JournalIsLinear` | apps/axiomcli/src/app.rs:966-1034 | A journal grown event by event is strictly increasing and never restarts an ended turn |
| `Journals.ResumeForgetsEndedTurns` | apps/axiomcli/src/app.rs:721-823 | After coming back through ResumeSession, a prompt leaves the journal linear if and only if it does not name an ended turn, and every prompt does if and only if the journal has no ended turn |
| `Journals.ResumeRestartsATurn` | apps/axiomcli/src/app.rs:721-751 | From the start: a turn completes, the process dies, and after ResumeSession the same turn starts again |
| `Journals.OperationIsLocal` | apps/axiomcli/src/app.rs:1354-1376 | An operation touches its own session only and does to it what it would do at any other counter |
| `Journals.CooperativeEqualsAtomic` | apps/axiomcli/src/app.rs:1354-1376 | Restoring while other sessions are used ends with the same sessions as restoring at once and then using them |
| `AccountWork.AccountWorkTracker.Register` | apps/axiomcli/src/acp.rs:1190-1209 | Work registers under its own identifier, and never while a switch is open |
| `AccountWork.AccountWorkTracker.StartSwitch` | apps/axiomcli/src/acp.rs:1232-1256 | A start raises the flag once and cancels the tokens of all registered work but the excluded one |
| `AccountWork.AccountWorkTracker.IsDrained` | apps/axiomcli/src/acp.rs:1262-1271 | The look of the drain loop is true exactly when only excluded work is left |
| `AccountWork.AccountWorkTracker.DrainSwitch` | apps/axiomcli/src/acp.rs:1258-1286 | The wait ends at the first departure that drains the tracker, succeeds if and only if the departures drain it, and on a timeout leaves the flags raised |
| `AccountWork.AccountWorkTracker.DropGuard` | apps/axiomcli/src/acp.rs:1173-1187 | Dropping a guard removes its work and notifies exactly when it was still registered |
| `AccountWork.SessionRegistry.BeginSwitch` | apps/axiomcli/src/acp.rs:1390-1407 | The registry's half of a begin raises its flag or refuses, and cancels each other work once |
| `AccountWork.SessionRegistry.ReleaseWork` | apps/axiomcli/src/acp.rs:1350-1363 | A release cancels its own work's token and removes only the reservation that work holds, during a switch as well; a reservation under another id stays |
| `AccountWork.SessionRegistry.ReleaseWorks` | apps/axiomcli/src/acp.rs:1365-1377 | A release of several cancels the work's token and removes exactly the reservations under its id, and none during a switch |
| `AccountWork.SessionRegistry.SetSecurityIfWork` | apps/axiomcli/src/acp.rs:1457-1480 | A security status is set only by work that still owns its session, and on that session only |
| `AccountWork.BeginAccountSwitch` | apps/axiomcli/src/acp.rs:1384-1414 | A begin raises both flags and cancels all other work of both tables; when either flag is up it leaves both tables as they were, but if only the tracker's was, the work of the sessions is already cancelled |
| `AccountWork.DrainAccountSwitch` | apps/axiomcli/src/acp.rs:1416-1425 | Sessions and reservations are forgotten if and only if the work drains |
| `AccountWork.AccountStore.ActivateAccount` | apps/axiomcli/src/session/connection.rs:118-154 | The active account needs no move; any other closes the store under a new generation, and it names the account exactly when its database opens |
| `AccountWork.AccountStore.DeactivateAccount` | apps/axiomcli/src/session/connection.rs:156-170 | The store closes under a new generation |
| `AccountWork.CommitAccountStoreSwitch` | apps/axiomcli/src/acp.rs:1434-1447 | The store moves under a new generation on drained tables only, after which both flags are down whether the account's database opened or not; a switch that does not drain keeps the store and both flags |
| `SwitchBarrier.WorkStaysOnItsAccount` | apps/axiomcli/src/acp.rs:1189-1296 | In every interleaving, live bound work is bound to the store's current generation and account, unless a switch that excluded this very work has moved the store |
| `SwitchBarrier.StoreMovesAlone` | apps/axiomcli/src/acp.rs:1433-1447 | The store changes only under an open switch, with no publication in progress and no work registered but the one excluded from it |
| `SwitchBarrier.OpenSwitchAdmitsNothing` | apps/axiomcli/src/acp.rs:1190-1256 | While a switch is open nothing registers and nothing is published |
| `SwitchBarrier.PublicationsAreSerial` | apps/axiomcli/src/acp.rs:1330-1347 | Publications, switch starts, store moves and finishes form one sequential history in which each publication is outside every switch and on the store's account of that moment |
| `SwitchBarrier.NoPublicationDuringSwitch` | apps/axiomcli/src/acp.rs:1330-1347 | Between the start of a switch and a publication there is a finish |
| `SwitchBarrier.NoStalePublication` | apps/axiomcli/src/acp.rs:1330-1347 | No publication after a move of the store is bound to an older generation |
| `SwitchBarrier.FailedBeginUndoesItsOwnFlag` | apps/axiomcli/src/acp.rs:1408-1412 | A begin that fails half-way lowers the flag it raised and leaves every other owner alone |
| `SwitchBarrier.EachFlagHasOneOwner` | apps/axiomcli/src/acp.rs:1384-1447 | In every interleaving each flag is up exactly while one switch owns it, and never two |
| `SwitchBarrier.ParkedDrainIsWoken` | apps/axiomcli/src/acp.rs:1258-1276 | A parked, unsignalled drain loop still has work registered or a guard between its removal and its notify |
| `SwitchBarrier.TimedOutDrainStaysLocked` | apps/axiomcli/src/acp.rs:1276-1286 | After a timed-out drain, in every continuation, nothing registers, matches or publishes and the store does not move |
| `BarrierRuns.PublishesExactly` | apps/axiomcli/src/acp.rs:1330-1347 | With the barrier open, live work publishes when it is bound to the current account, and leaves the gate without publishing when it is not |
| `BarrierRuns.RegistersAndBinds` | apps/axiomcli/src/acp.rs:1190-1209 | With the barrier open, new work is registered and bound to the store of the moment |
| `BarrierRuns.SwitchCompletes` | apps/axiomcli/src/acp.rs:1384-1447 | A switch that finds nothing but the work it excludes runs to its end: sessions forgotten, the new account under a new generation, the barrier open |
| `Credentials.AuthManager.AdoptExternalCredential` | apps/axiomcli/src/auth.rs:1442-1460 | Taking over a peer's credential forgets the account and opens a generation |
| `Credentials.AuthManager.ClearLocalAuthorization` | apps/axiomcli/src/auth.rs:1717-1732 | Clearing forgets everything and opens a generation |
| `Credentials.AuthManager.FinishValidation` | apps/axiomcli/src/auth.rs:1111-1136 | A validation writes only in the generation it began in and never over another account |
| `Credentials.AuthManager.CompleteValidation` | apps/axiomcli/src/auth.rs:1111-1153 | A validation that names another account deletes the stored session and forgets it under a new generation; no outcome renames a generation |
| `Credentials.AuthManager.ClearIfGeneration` | apps/axiomcli/src/auth.rs:1675-1696 | A session is given up only in the generation asked for, and only its own stored token is deleted |
| `Credentials.AuthManager.DeleteIfMatchesAndClear` | apps/axiomcli/src/auth.rs:1698-1715 | The stored credential goes only if it is the expected one, the process is cleared in any case, and success means the expected value is not left behind by a failed call |
| `Credentials.AuthManager.CommitBundle` | apps/axiomcli/src/auth.rs:1538-1673 | A commit succeeds exactly when the bundle is sound, the account may be adopted, the store still holds the predecessor and the save ends; then the store holds the new token, else the process is cleared under a new generation |
| `Credentials.AuthManager.RefreshUnderLock` | apps/axiomcli/src/auth.rs:1734-1860 | The token sent is the stored one; the refresh succeeds exactly when a token was sent, a sound bundle came back, the store took it, and the account is the one held, or none was, or a peer changed the stored session and the caller allows it; it then returns the access token of the bundle; a same-account rotation by a peer keeps the generation, a switch raises it; without a failing call the token sent is gone; and a generation never names two accounts |
| `SoloRefresh.RefreshAloneAgrees` | apps/axiomcli/src/auth.rs:1734-1860 | For every state, cell and behaviour of the environment, a refresh alone in the interleaved system ends with the state, the cell and the token sent of the manager's refresh |
| `SoloRefresh.LoginAloneAgrees` | apps/axiomcli/src/auth.rs:1511-1673 | The same for the commit of a browser login |
| `SoloRefresh.DeleteAloneAgrees` | apps/axiomcli/src/auth.rs:1682-1715 | The same for a sign-out |
| `SoloRefresh.StartLoginAloneAgrees` | apps/axiomcli/src/auth.rs:1178-1191 | The same for the start of a login |
| `Credentials.AuthManager.StartNativeLogin` | apps/axiomcli/src/auth.rs:1166-1200 | A login starts exactly when the key is not the environment's, the store is available, lock and load succeed, and no credential is stored; a failing lock or load forgets the session, a peer's credential is taken over |
| `Credentials.AuthManager.FinishExchange` | apps/axiomcli/src/auth.rs:1482-1536 | A login that finds another generation changes nothing, a failing lock forgets the session; it succeeds exactly when the generation is the one it began in, the lock is taken, the bundle is sound, the store still holds what this process holds and the save ends, and then names its account one generation on |
| `Credentials.AgreesTransitive` | apps/axiomcli/src/auth.rs:1643-1672 | Agreement of moments composes over time |
| `Rotation.TokensAreSentOnce` | apps/axiomcli/src/auth.rs:1734-1830 | Over all processes and interleavings, late completions included, every refresh token is sent at most once and a free lock finds no sent token stored, unless a store call failed or a process died while the store held a sent token |
| `Rotation.TokensAreResentExactly` | apps/axiomcli/src/auth.rs:1388-1440 | From any run without such a failure, up to any later free lock: the store holds a sent token, and the next refresh of any process that may start one, restarted processes included, sends a token again, if and only if such a failure happened in between |
| `RotationRuns.FailedDeleteResends` | apps/axiomcli/src/auth.rs:1416-1440 | From the start: a login, a refused refresh, a delete that returns an error, and the first refresh of a process started then sends the same token a second time; the process that failed may not validate |
| `Rotation.LockExcludes` | apps/axiomcli/src/auth.rs:1372-1440 | However many handles are cloned, all belong to one task |
| `Rotation.DeletesWhatWasCompared` | apps/axiomcli/src/auth.rs:1388-1440 | Every deletion, late ones and cleanups included, removes exactly the value compared under the same hold of the lock |
| `Rotation.OnlyDeletionsEmptyTheCell` | apps/axiomcli/src/auth.rs:1698-1715 | Nothing but such a deletion empties the store |
| `SessionIdentity.GenerationNamesOneAccount` | apps/axiomcli/src/auth.rs:1035-1153 | Over every run, two moments of a process with one generation show one account, whatever peers, validations, logins and failing locks do, unless one of its own attempts to take the lock failed during one of its commits |
| `SessionIdentity.AccountsAreConfusedExactly` | apps/axiomcli/src/auth.rs:1343-1353 | After any step of any run, some continuation without a failing lock shows two accounts under one generation if and only if that step was a failed attempt to take the lock while another task of the process was committing |
| `RotationRuns.StartingLoginConfuses` | apps/axiomcli/src/auth.rs:1166-1191 | A run from the start reaches such a commit with a starting login queued for the lock, and its failure has such a continuation |
| `Utf8.EncodeConcat` | apps/axiomcli/src/agent.rs:3237-3251 | Texts put together encode to their encodings put together |
| `Utf8.BoundarySplits` | apps/axiomcli/src/agent.rs:3243-3249 | A cut at a character boundary leaves two texts |
| `Utf8.DecodesExactly` | apps/axiomcli/src/agent.rs:3237-3251 | Bytes decode to a text, by the bit layout of the standard, if and only if they are its encoding |
| `Utf8.EncodeIsInjective` | apps/axiomcli/src/agent.rs:3237-3251 | No two texts have the same bytes |
| `Utf8.BoundaryIsNear` | apps/axiomcli/src/agent.rs:3244-3246 | A boundary lies at most three bytes back, as a character takes at most four |
| `Utf8.FragmentsCutText` | apps/axiomcli/src/agent.rs:3237-3251 | Fragments concatenate to the text, are non-empty texts within the limit, and waste three bytes at most |
| `Utf8.LastBoundary` | apps/axiomcli/src/agent.rs:3244-3246 | The step back finds the last boundary |
| `Utf8.CompactionTranscripts` | apps/axiomcli/src/agent.rs:3237-3251 | The loop terminates and cuts any transcript within the limit or four bytes, never through a character, and the fragments, put together and decoded, are the transcript |
| `Compaction.SegmentsPartition` | apps/axiomcli/src/agent.rs:3260-3303 | Every message lands in exactly one segment, in order, alone if it has attachments |
| `Compaction.CompactionInputs` | apps/axiomcli/src/agent.rs:3260-3303 | The loop yields the inputs of the segments in order, for the empty conversation as well |
| `Compaction.SegmentIsLossless` | apps/axiomcli/src/agent.rs:3275-3293 | The fragments of a segment, put together, are its serialization after the note about attachments |
| `Compaction.SegmentCarries` | apps/axiomcli/src/agent.rs:3279-3291 | The attachments of a segment travel with its fragments, once and in order |
| `Compaction.RecentCompactionStart` | apps/axiomcli/src/agent.rs:3305-3318 | The verbatim tail starts at the newest user message, fits its bound and holds no attachments; it is empty exactly when there is no such message or it does not fit or holds attachments |
| `Compaction.LastUser` | apps/axiomcli/src/agent.rs:3306-3309 | The index found is a user message and no later one is; none is found exactly when there is none |
| `Compaction.BudgetFitsLimits` | apps/axiomcli/src/agent.rs:1315-1330 | The budget is at most three quarters of each limit, whatever saturates |
| `Compaction.BudgetIsThreeQuarters` | apps/axiomcli/src/agent.rs:1315-1330 | While nothing saturates the budget is three quarters of the smallest limit |
| `Compaction.Summarize` | apps/axiomcli/src/agent.rs:1376-1421 | Inputs are sent in order with the previous summary, requests stay within bounds, and it succeeds if and only if every reply is a non-blank summary within its limit; the result is then the last of them |
| `Compaction.CompactMessages` | apps/axiomcli/src/agent.rs:1332-1447 | Every request's focus, previous summary and fragment sum to at most the budget plus the note; it succeeds if and only if the history may be compacted and every reply is good, has then sent every input once, and the result is the last summary followed by the serialized tail between its marks, or, exactly when the tail is empty, alone; it is within three eighths of the budget plus fixed text |
| `Compaction.CompactionIsLossless` | apps/axiomcli/src/agent.rs:1367-1376 | Every message after the system message is, once and in order, in a segment sent whole or in the verbatim tail; the inputs, put together and decoded, are what the segments say |
| `Compaction.EveryMessageIsKept` | apps/axiomcli/src/agent.rs:1332-1447 | After a successful compaction every message behind the system message was in a segment that reached the provider whole, or stands in the tail whose serialization is in the result |
| `Compaction.TailIsNewestTurn` | apps/axiomcli/src/agent.rs:1357-1375 | The tail is the newest user turn when it is not the first message, has no attachments and fits an eighth of the budget and 16 KiB, and is empty otherwise |
| `Compaction.RequestsAreFocused` | apps/axiomcli/src/agent.rs:1357-1375 | Every request carries the user's focus, or the default when there is none |
| `Compaction.CompactionKeepsAttachments` | apps/axiomcli/src/agent.rs:1409-1412 | All attachments of the conversation reach the provider in order |
| `Compaction.AgentEngine.Compact` | apps/axiomcli/src/agent.rs:3155-3186 | It succeeds if and only if there is a history and its compaction does; a failing compaction leaves every stored history as it was, a successful one replaces its own only, with the last summary and the serialized tail |
| `Chat.CompactedHistoryTells` | apps/axiomcli/src/agent.rs:1437-1447 | The compacted list is the system text and one user message that contains the summary without the white space around it |
| `History.RestoreSession` | apps/axiomcli/src/agent.rs:1877-2105 | A journal with an event of another conversation is refused, any other is replayed whole; RestoredContents.RestoredSays and RestoredSaysSince say what that restores |
| `RestoredContents.RestoredSays` | apps/axiomcli/src/agent.rs:1930-2088 | A conversation never compacted restores to the system text, one message for each block of what its journal says, with the streamed text, the reasoning and the calls of the block in order, and at most a crash note |
| `RestoredContents.RestoredSaysSince` | apps/axiomcli/src/agent.rs:1930-2088 | A compacted one restores to the system text, the summary of its last compaction, the message left standing, and the blocks since |
| `RestoredContents.BlocksAreMaximalRuns` | apps/axiomcli/src/agent.rs:1945-2000 | The blocks are everything said, in order, cut exactly where something does not go on with the message before |
| `RestoredContents.MessageTells` | apps/axiomcli/src/agent.rs:1935-2072 | A prompt restores to its text and attachments, an output to a reply marked as untrusted under its tool's name with the output in it, an image to a message that shows it |
| `History.StepsConcat` | apps/axiomcli/src/agent.rs:1930-2072 | Replaying a journal is replaying its parts one after the other |
| `History.NoTurnActiveExactly` | apps/axiomcli/src/agent.rs:2022-2042 | A replay holds no turn active if and only if every started turn has a later terminal event |
| `History.StepsKeepSame` | apps/axiomcli/src/agent.rs:1925-1928 | The text of the system slot steers nothing in a replay |
| `History.CompactionReplays` | apps/axiomcli/src/agent.rs:2043-2070 | A journal ending in a compaction restores the compacted list if and only if every turn before it has ended; otherwise a crash note follows the list |
| `History.ReplaysOnLive` | apps/axiomcli/src/agent.rs:2043-2070 | From a compaction before a first request on, replaying the journal is replaying what follows on the compacted list with the prompt, with this turn and those that died before it active |
| `LiveReplay.OpeningIsLive` | apps/axiomcli/src/agent.rs:2437-2481 | The list the turn holds after that compaction, and the events it has emitted by then |
| `LiveReplay.OpeningCompactionAgrees` | apps/axiomcli/src/agent.rs:2043-2070 | For every turn that compacts before its first request and goes on in any way, behind any journal: restoring is replaying what came after the compaction on the very list the turn then held |
| `LiveReplay.CrashAfterOpeningCompaction` | apps/axiomcli/src/agent.rs:2081-2086 | A crash right after that compaction restores the list the turn held and the crash note |
| `LiveReplay.EmitAll` | apps/axiomcli/src/acp/security.rs:321-329 | What a compaction emits is recorded in order when the session is loaded, and changes no session |
| `LiveReplay.CompactAndRecord` | apps/axiomcli/src/acp/security.rs:310-372 | A compaction on request is recorded exactly when the engine's succeeds and the session is loaded and ready; a restart then finds the list the engine now holds, apart from the system text, if and only if every turn has ended; when anything fails a restart finds what it would have found before, while a refused record leaves the engine compacted |
| `Readings.RestoredPairsExactly` | apps/axiomcli/src/agent.rs:1917-2088 | A restored conversation is paired if and only if, since the last compaction, each proposed call of the journal got its output, in order, before any message that is not the output of a waiting call |
| `ReadingRules.ReadsWellExactly` | apps/axiomcli/src/agent.rs:1917-2088 | The one-pass reading says, of the events themselves: since the last compaction the outputs are the proposed calls in order, no output comes before its proposal, and nothing else is said while a call is open |
| `TurnReadings.CutTurnRestoresPairedExactly` | apps/axiomcli/src/agent.rs:2437-3055 | For every script, cut off behind any event and recorded as ended or not: behind a journal that reads well it restores to a paired conversation if and only if it was not cut off between a proposed call and its output |
| `TurnReadings.OpenOnlyByDismissal` | apps/axiomcli/src/agent.rs:2712-3046 | A turn that runs to its end leaves a call open if and only if it ended at a dismissed question |
| `TurnReadings.TurnRestoresPairedExactly` | apps/axiomcli/src/agent.rs:2437-3055 | For every script that runs to its end: behind a journal that reads well the turn restores to a paired conversation if and only if it did not stop at a dismissed question |
| `TurnReadings.DismissedTurnRestoresUnpaired` | apps/axiomcli/src/agent.rs:2902-2966 | Whatever the tool: a first turn whose question is dismissed restores to a list with an unanswered call |
| `Conversations.ConversationStaysPaired` | apps/axiomcli/src/agent.rs:2365-3055 | Over any conversation of turns that end in any way or are cut off outside a call, compactions recorded or not, and restarts anywhere: every request ever sent and the list held now are paired, and the journal reads well |
| `Conversations.NextTurnContinues` | apps/axiomcli/src/agent.rs:2365-2481 | Behind a completed turn, the first request of the next is that turn's last request and its reply, or their compaction, under the system text of the day, then the new prompt and the steering |
| `Conversations.RestartAfterTurnPairsExactly` | apps/axiomcli/src/agent.rs:1917-2088 | After any such conversation, one more turn and a restart leave a paired list if and only if the turn was not cut off inside a call |
| `Pairing.PairedMeans` | apps/axiomcli/src/agent.rs:2712-2713 | In a paired list each call is answered right behind its message, in order, and no tool message stands elsewhere |
| `Pairing.DeclinedPairsExactly` | apps/axiomcli/src/agent.rs:2797-2815 | The replies a declined turn adds pair the list if and only if no awaited id was answered before |
| `Pairing.DeclinedReuseStaysOpen` | apps/axiomcli/src/agent.rs:2797-2815 | A call, its reply and a second call under the same id: declining the turn leaves the second call unanswered |
| `Pairing.ErrorsConsume` | apps/axiomcli/src/agent.rs:3434-3446 | Error replies written in a row answer the awaited calls exactly as far as the ids match in order |
| `Approvals.AuthorizedExactly` | apps/axiomcli/src/agent.rs:1587-1744 | A call is authorized if and only if nothing refuses or denies it and the user consents to every question asked; a denied call asks nothing |
| `Approvals.AuthorizationAsks` | apps/axiomcli/src/agent.rs:1587-1744 | Without a refusal or a denial the user is asked question by question, in confirm mode outside a desktop extension only about using the tool; each is resolved with what the user said, and the first not agreed ends it, a no with ApprovalDeclined |
| `Approvals.AuthorizationIsAccepted` | apps/axiomcli/src/agent.rs:1664-1741 | The kernel accepts every event of an authorization and is Running again unless the wait was cancelled |
| `Approvals.TurnEndsAnywhere` | apps/axiomcli/src/app.rs:948-1080 | Wherever an accepted stream of events stops, the active turn can be ended |
| `AgentLoop.TurnRunner.Authorize` | apps/axiomcli/src/agent.rs:1587-1744 | The two loops emit and decide as the authorization prescribes, denials before questions |
| `AgentLoop.TurnRunner.Call` | apps/axiomcli/src/agent.rs:2718-3046 | One call takes exactly its path: steered, repeated, malformed, refused, declined, executed or asked |
| `AgentLoop.TurnRunner.Ask` | apps/axiomcli/src/agent.rs:2902-2966 | A question ends answered, failed or dismissed, with the result each of these gives the tool |
| `AgentLoop.TurnRunner.Decline` | apps/axiomcli/src/agent.rs:2797-2825 | A declined turn answers the open calls, notes the interruption, saves and stops |
| `AgentLoop.TurnRunner.CallAll` | apps/axiomcli/src/agent.rs:2712-3046 | The calls of a reply are taken in order until one ends the turn |
| `AgentLoop.TurnRunner.Close` | apps/axiomcli/src/agent.rs:2632-2709 | A reply without calls compacts, takes late input, or saves and completes |
| `AgentLoop.TurnRunner.Run` | apps/axiomcli/src/agent.rs:2437-3055 | What a turn sends, saves, emits and ends with is the turn of its script, of which TurnContents.TurnTells and TurnContents.TurnJournals say what is in it and TurnVerdicts.TurnEndsExactly how it ends |
| `TurnContents.TurnTells` | apps/axiomcli/src/agent.rs:2437-3055 | For every script: the first request is the history or its compaction, the prompt and the steering; each later one is the one before, the reply's message, one answer per call with what that call gave, the images shown and the steering, unless a compaction lies between; a completed turn stores its last request with the reply, one whose provider failed with what was streamed |
| `TurnContents.TurnJournals` | apps/axiomcli/src/agent.rs:2484-3055 | For every script, of every request and in one piece: the steering, the whole stream of the reply, and for each call of a finished batch, in order, the proposal, what was asked about it, the start and what the tool reported, the very words the model was given, whether it succeeded and what it changed |
| `TurnVerdicts.TurnEndsExactly` | apps/axiomcli/src/agent.rs:2437-3055 | For every script: the turn ends at its first step that ends it, with that step's verdict, and one request was sent for each step up to there; a turn whose first compaction failed sends nothing |
| `TurnVerdicts.BatchEndsExactly` | apps/axiomcli/src/agent.rs:2716-3046 | A batch goes on past all its calls, or ends with what the first says that repeats the call before it, is declined, or has its question dismissed |
| `TurnVerdicts.RepeatedCallStops` | apps/axiomcli/src/agent.rs:2736-2743 | Two calls in a row that are written alike, neither passed over for new instructions, end the turn |
| `TurnVerdicts.CompletionMeans` | apps/axiomcli/src/agent.rs:2632-2709 | A turn completes only at its last request, with a reply without calls and no input waiting |
| `TurnContents.DeclinedCallStops` | apps/axiomcli/src/agent.rs:2787-2825 | A call the user declines, or whose wait is abandoned, stops the turn: its events are the proposal, the questions and its output, and the list is stored with an answer for every open call and the note |
| `AgentTurns.TurnIsAccepted` | apps/axiomcli/src/agent.rs:2484-3055 | Whatever provider, tools and user do, the kernel accepts every event of a turn, is Running again unless the turn failed, and can end the turn wherever it is cut off |
| `AgentTurns.TurnIsPaired` | apps/axiomcli/src/agent.rs:2437-3055 | From a paired history, every request sent and every history saved is paired, on every path |
| `AgentTurns.ToolsStartWithPermission` | apps/axiomcli/src/agent.rs:2774-2841 | Whenever a tool starts, its call was not refused, not denied and every question about it had consent |
| `AgentTurns.TurnMayBeRecorded` | apps/axiomcli/src/agent.rs:2484-3055 | A turn emits no lifecycle event, so the restart refinement covers its journal |
| `AgentTurns.CallingReplies` | apps/axiomcli/src/agent.rs:2716-3046 | Each call is answered by exactly one message with its id, or stops the turn |
| `AgentTurns.CallingAllPairs` | apps/axiomcli/src/agent.rs:2712-3054 | A batch of calls leaves the list paired, or stops with paired lists saved at most |
| `Relay.Task.SendChunk` | apps/axiom-proxy/src/lib.rs:579-596 | A chunk is sent whole or not at all, as the channel decides, and a client that is gone cancels the request |
| `Relay.Task.Stream` | apps/axiom-proxy/src/lib.rs:371-442 | Under every schedule and every outcome of the sends, the stream is honest and logged once; it ends when a result that was returned or a cancellation that came is taken; when every send is delivered it holds all deltas and ends in the finish with the inference's reason and then done, or in the failure |
| `Relay.DeltasAreAPrefix` | apps/axiom-proxy/src/lib.rs:381-416 | The deltas a client has are an in-order prefix, without repetition, of the deltas of the run |
| `Relay.FinishMeansSuccess` | apps/axiom-proxy/src/lib.rs:417-431 | A finish or done chunk means the inference returned success, all its deltas came before, and the run is logged as completed |
| `Relay.FailureStandsAlone` | apps/axiom-proxy/src/lib.rs:432-441 | A failure envelope is the last chunk, behind all deltas, and the run is not logged as completed |
| `Relay.ForwardedIsProvisional` | apps/axiom-proxy/src/lib.rs:387-391 | No event of the provider turns into a finish, done or failure chunk on its own |
| `Relay.ForwardedTells` | apps/axiom-proxy/src/lib.rs:381-416 | The text, the reasoning and the refusal a client reads are each what was produced of it, and so are the tool deltas and, when asked for, the usage with its saturating total, in order |
| `Relay.TerminalTells` | apps/axiom-proxy/src/lib.rs:417-441 | A success ends in the finish with its reason, or Stop, and then done; a failure in the error alone; and the log says which |

## Left out

- Network calls, HTTP, loopback callbacks, keyring and file calls: outcomes only. `Io` says how the calls of one refresh end; `Rotation` lets each end at any time.
- Attestation, encryption, hashing, token shapes and trust policies: not modelled.
- The SQLite store under `session/`: a pair of generation and account. An in-memory or unrouted store has no account and is not modelled.
- `steering.rs`, `policy.rs` and the tools: an inbox is what it delivers, a policy its decisions, a tool its result.
- Time: `occurred_at`, expiries and deadlines. A deadline drops a turn at some point; what it did by then is a prefix of the modelled turn.
- JSON: the serializer is a parameter that writes something; tool arguments are text, also where the code reports malformed ones inside an object.
- The texts addressed to the model are shortened to their headings, and the contents of approval and question requests are left out.
- Token and byte counts decide when a turn compacts; the script of a turn decides that here.
- The prompt validator is a flag of the command.
- `AuthState.session` and the lease of an access token: not part of this model.
- The per-process operation lock is not modelled in `Rotation`, which allows more interleavings. Reads of the process state between two awaits are one step.
- A begin of a switch that is dropped while it undoes its flag: not modelled.
- Feature masks, enum mappings, protocol message building, the setup GUI, release scripts, configuration: easy, finite or presentation only.
- Equality of live and replayed lists for a compaction in the middle of a turn: the live list has a continuation message the replay does not add.
- SessionIdentity.GenerationNamesOneAccount: leaves out a process one of whose attempts to take the audience lock failed during one of its commits, because the property is then false (`SessionIdentity.AccountsAreConfusedExactly`).
- Rotation.TokensAreSentOnce: leaves out runs in which a store call failed or a process died while the store held a sent token, because the property is then false (`Rotation.TokensAreResentExactly`).
- TurnReadings.CutTurnRestoresPairedExactly: tools, providers and the compactor emit no event that a replay of messages interprets, apart from streamed text.
- Conversations.ConversationStaysPaired: the calls of a turn have ids that the conversation it starts from has not answered; a turn cut off inside a call makes the property false (`Conversations.RestartAfterTurnPairsExactly`).
- AccountWork.AccountWorkTracker.DrainSwitch: the wakeups are a given list of departures and the timeout is its end; `SwitchBarrier` interleaves registrations, drops, notifications and the timeout freely.
- AccountWork.SessionRegistry.ReleaseWork: closing the steering inbox is not modelled, here and in `ReleaseWorks`.
- History.RestoreSession: failures while the image catalogue is filled, and the settings projected beside the messages, are left out.
- LiveReplay.CompactAndRecord: what the compaction emits is recorded before the engine compacts; a cancellation in between is not modelled.
- RotationRuns.StartingLoginConfuses: the confusion also needs a validation that captured its generation after the failed lock with an access token leased before it.
- Approvals.AuthorizedExactly: the policy's decisions are given; how effects are derived from arguments is not modelled.
- Compaction.CompactMessages: bounds the variable parts of a request; the fixed instructions around them are not counted.
