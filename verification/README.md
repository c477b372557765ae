# Verified model of ferretd

ferretd is a daemon that keeps Ferret workspaces open, compiles and runs their
documents, debugs them, and serves editors over LSP and debug clients over DAP.
Its hard parts are concurrent protocols inside one process and the arithmetic
between bytes and UTF-16 positions. This project models those parts in Dafny and
proves properties of every run, every reachable state or every input.

`dafny verify dfyconfig.toml` checks the whole project.

## How the model is built

- **Concurrency.** Every section under a mutex is one atomic step. A goroutine
  hand-off is a pending worker that any later step may schedule. Entering a wait
  is a step, and what it waits for is the guard of the step after it. A run is any sequence of states linked by enabled
  steps, so a theorem about runs is about every interleaving.
- **Objects.** A struct whose methods update its fields is a `class`. Each method
  is proved equal to a function on the object's value (`View`), and the state
  machines use the same functions.
- **Identity.** Pointers to entries, groups and channels are numbers that are
  never reused. Identifiers from random sources are fresh.
- **Errors.** An error is the sequence of leaf errors it joins; nil is the empty
  sequence, so `errors.Join` is concatenation.
- **Outside code.** Compiler, debugger, runtime, filesystem and contexts are
  arbitrary inputs: any result, any error, any cancellation.
- **Panics.** Each panic of `internal/lifecycle`, `internal/exec` and
  `internal/workspace` that depends on the state of the protocol is a predicate on
  the step that can meet it: creating, committing, beginning, finishing, leaving,
  and also waiting for a close that nobody has begun. The theorems say that no
  enabled step of a reachable state meets one. The panic on a nil wait context
  (`internal/lifecycle/close_operation.go:84`) is not modelled, and a result is
  read only behind the closed done channel (`Lifecycle.CloseOperation.Wait`).

| files | part of ferretd |
|---|---|
| `Lifecycle` | close operation and create/close gate |
| `ExecRegistries`, `CloseProtocol`, `CloseInvariant`, `CloseTheorems` | closing workspaces, Sessions and Executions |
| `DebugPlans`, `DebugRegistry`, `DebugLeases`, `DebugInvariant`, `DebugTheorems` | debug Plan leases and the debug close hook |
| `EventStreams`, `Executions`, `DebugSessions` | life cycles with bounded event streams |
| `WorkspaceManager`, `WorkspaceDocuments`, `AnalysisCache` | root index, document map, analysis cache |
| `Utf8`, `SourceMapper`, `SourceCoordinates` | byte and UTF-16 positions |
| `SemanticTokens`, `TokenEncoding` | semantic tokens and their encoding |
| `BreakpointIds`, `InitialStop`, `HandleTable` | DAP identities |
| `RpcBarrier` | LSP message order |

## Where the code falls short of what it says

- A semantic token is documented as single-line
  (`internal/language/features.go:94`). Two families of spans break that. One starts
  behind the first byte of a U+2028 or U+2029 separator and reaches past it, and its
  encoded length wraps to 2^32 - 1 (`SemanticTokens.InsideSeparatorSpansLines`,
  `TokenEncoding.InsideSeparatorWraps`). The other starts on a character boundary of
  malformed text and has a stray continuation byte right behind a line terminator
  (`SemanticTokens.StrayBehindFeedSpansLines`). `SemanticTokens.TokensSingleLineExact`
  and `TokenEncoding.HighlightRoundTripExact` say that these are all: for any bytes
  and items the tokens are single-line, and survive the encoding, if and only if no
  kept item is of either family.
- The LSP handler says it preserves lifecycle order. A cancelled lifecycle request
  that is still waiting closes its channel at once, so a later handler can run
  while an earlier lifecycle message is being handled
  (`RpcBarrier.CancelledRequestOvertakes`). Losing the connection does the same for
  any lifecycle message (`RpcBarrier.LostConnectionOvertakes`).
  `RpcBarrier.HandledAfterEarlierLifecycle` gives the exact condition on the arrived
  messages: a handler is always ordered after an earlier lifecycle message if and
  only if no lifecycle message between the two is a request, or, with the connection
  lost, if and only if there is none between them at all.
- The first stop is to report the breakpoints configured before the start, whatever
  replacements come in between (`internal/dap/initial_stop.go:12-15`). Each
  is reported by the number it had then if and only if the latest replacement since
  to list its native breakpoint, if any, lists it for the same position
  (`InitialStop.FrozenNumberExact`, `InitialStop.ReusedNativeMoves`).
- On malformed UTF-8 a position between two runes need not survive the way to an
  offset and back (`SourceMapper.MalformedDoesNotReturn`).
  `SourceMapper.PositionRoundTripExact` says exactly which positions do.

## Model

| member | source | states |
|---|---|---|
| Lifecycle.GateStaysOk | internal/lifecycle/gate.go:20-112 | in every run of gate calls the creator count is zero exactly when no burst channel is open, and the open channel was never closed before |
| Lifecycle.OneCloseOwner | internal/lifecycle/gate.go:58-65 | in every run exactly one BeginClose call is told it owns teardown if close gets committed, and none otherwise |
| Lifecycle.CommittedStays | internal/lifecycle/close_operation.go:34-77 | a committed close is never undone and a published result never changes |
| Lifecycle.NoAdmissionAfterCommit | internal/lifecycle/gate.go:20-35 | after the commit no creator is ever admitted and the admitted ones only leave |
| Lifecycle.WaitForCreatesExact | internal/lifecycle/gate.go:80-97 | a WaitForCreates caller that captured its channel after the commit is released, in any later state, exactly when no creator is left, although each burst makes a new channel |
| Lifecycle.GateRefinesAdmission | internal/lifecycle/gate.go:20-112 | every gate call refines the corresponding operation on a set of admitted calls; leaving panics exactly when nobody is admitted, publishing exactly when somebody is or close is not running, and both waits exactly before close has begun |
| Lifecycle.CloseOperation.Begin | internal/lifecycle/close_operation.go:34-46 | the first caller owns the teardown; later calls change nothing |
| Lifecycle.CloseOperation.Finish | internal/lifecycle/close_operation.go:66-77 | publishes the owner's result, allowed only while teardown runs |
| Lifecycle.CloseOperation.Wait | internal/lifecycle/close_operation.go:82-119 | delivers exactly the published result, and gives up only if cancelled while nothing is published |
| Lifecycle.Gate.BeginCreate | internal/lifecycle/gate.go:20-35 | new gate state and reply are those of the gate function; a new channel per burst |
| Lifecycle.Gate.EndCreate | internal/lifecycle/gate.go:39-56 | an admitted creator leaves without panic; the last one closes the burst's channel |
| Lifecycle.Gate.BeginClose | internal/lifecycle/gate.go:60-65 | commits the close once and reports ownership |
| Lifecycle.Gate.Accepting | internal/lifecycle/gate.go:68-70 | true exactly if a BeginCreate now would be admitted |
| Lifecycle.Gate.Idle | internal/lifecycle/gate.go:73-78 | true exactly if no burst channel is open |
| Lifecycle.Gate.CaptureCreates | internal/lifecycle/gate.go:83-97 | the captured channel is already released exactly if no creator is admitted |
| Lifecycle.Gate.FinishClose | internal/lifecycle/gate.go:101-112 | publishes the result once teardown runs and no creator is admitted |
| ExecutionRegistry.ExecutionRegistry.AddExecution | internal/exec/execution_registry.go:39-65 | the execution becomes public and a member of its session's group |
| ExecutionRegistry.ExecutionRegistry.BeginCloseLocked | internal/exec/execution_registry.go:114-126 | the first close takes the execution out of public lookup and owns it |
| ExecutionRegistry.ExecutionRegistry.BeginExecutionClose | internal/exec/execution_registry.go:79-89 | closing an unknown execution does nothing; otherwise as beginCloseLocked |
| ExecutionRegistry.ExecutionRegistry.BeginSessionExecutionClose | internal/exec/execution_registry.go:91-112 | the loop begins the close of every retained member and returns each once with its ownership |
| ExecutionRegistry.ExecutionRegistry.FinishExecutionClose | internal/exec/execution_registry.go:128-158 | a finished execution leaves its group unless its parent has stopped admission, and then is retained until collected |
| ExecutionRegistry.ExecutionRegistry.FinishSession | internal/exec/execution_registry.go:160-167 | the session's group is dropped |
| SessionRegistry.SessionRegistry.GroupFor | internal/exec/session_registry.go:57-76 | the registered group of the workspace, made if there is none |
| SessionRegistry.SessionRegistry.BeginCreation | internal/exec/session_registry.go:57-76 | refuses after shutdown or once the group is closing; otherwise admits to the registered group |
| SessionRegistry.SessionRegistry.FinishCreation | internal/exec/session_registry.go:78-86 | the creator leaves, and an accepting, idle, empty group is unregistered |
| SessionRegistry.SessionRegistry.CommitCreation | internal/exec/session_registry.go:88-112 | a session is committed exactly if not cancelled, not shut down, and its own group is still registered and accepting |
| SessionRegistry.SessionRegistry.BeginRuntimeCreation | internal/exec/session_registry.go:126-144 | admits to the session's child gate exactly if the session is active |
| SessionRegistry.SessionRegistry.BeginSessionClose | internal/exec/session_registry.go:154-180 | one caller owns the close; the session leaves public lookup |
| SessionRegistry.SessionRegistry.FinishSessionClose | internal/exec/session_registry.go:182-201 | the closed session leaves its group, which is unregistered if then unused |
| SessionRegistry.SessionRegistry.BeginGroupClose | internal/exec/session_registry.go:203-214 | commits the close of the workspace's group, made on demand |
| SessionRegistry.SessionRegistry.BeginServiceShutdown | internal/exec/session_registry.go:216-227 | the loop commits the close of every registered group and reports each once |
| SessionRegistry.SessionRegistry.FinishGroupClose | internal/exec/session_registry.go:229-241 | publishes the group's result and unregisters it if it is still the registered one |
| CloseTheorems.StepSafe | internal/exec/manager.go:202-248 | no enabled step of a state meeting the invariant panics, waits included |
| CloseTheorems.WaitSafe | internal/lifecycle/close_operation.go:82-108 | no worker enters a wait, for creators, for a child or for a Session, before the close it waits for has begun |
| CloseTheorems.StepKeepsInv | internal/exec/manager.go:202-384 | every step keeps the invariant over both registries, all gates, workers and Plans |
| CloseTheorems.RunInv | internal/exec/manager.go:66-384 | the invariant holds in every state of every interleaving of creates and closes |
| CloseTheorems.NoPanicReachable | internal/exec/execution_registry.go:60-121 | no guard panic is reachable: in every state of every run no step that may come next panics, be it a create, a begin, a finish or a wait |
| CloseTheorems.SessionCloseComplete | internal/exec/manager.go:345-378 | when a Session's result is published, every Execution ever admitted has finished its close, nobody is admitted, the Plan was closed once, and the result joins the errors of the collected children |
| CloseTheorems.PublishedForGood | internal/exec/manager.go:345-378 | from that state on, in every later state of the run, no Execution is admitted under the Session and all have finished |
| CloseTheorems.RetainedChildJoinedOnce | internal/exec/execution_registry.go:91-167 | a child still in the group after admission stopped and before the parent collected, finished or not, has its close error joined into the published result exactly once |
| CloseTheorems.RegistryTidy | internal/exec/session_registry.go:57-112 | in every state of every run each Session whose close is not published lies in the registered group of its workspace, and no accepting, idle, empty group stays registered |
| CloseTheorems.WorkspaceCloseComplete | internal/exec/manager.go:331-343 | when a group's result is published every Session ever committed to it is closed, with its Executions and its Plan, and each result is joined once |
| CloseTheorems.WorkspaceClosed | internal/exec/manager.go:305-343 | the same in every state of every run |
| CloseTheorems.PlansClosedOnce | internal/exec/manager.go:363-374 | along every run a compiled Plan is never forgotten, is closed at most once and only after it was let go, and once closed never moves again |
| CloseTheorems.ShutdownComplete | internal/exec/manager.go:315-329 | once Manager.Close has begun and every group registered then has finished, every Session there is, whenever it was committed and to whichever group, is closed with its Executions and its Plan |
| CloseTheorems.ShutdownRefuses | internal/exec/session_registry.go:216-227 | from any state in which Manager.Close has begun to any later one, it stays begun, no Session is committed, and no creation or runtime creation is admitted |
| CloseTheorems.ClosesCanProceed | internal/exec/manager.go:270-384 | in every state of every run each committed, unpublished close of an Execution, a Session or a workspace has an enabled step within its own subtree |
| DebugPlans.LeaseThenRelease | internal/exec/session.go:148-177 | releasing undoes leasing on the count and the channel, and a release is ignored exactly if there is no lease |
| DebugPlans.DebugPlanOwner.NewDebugRuntimeTarget | internal/exec/session.go:148-162 | one more lease; the first opens a new channel |
| DebugPlans.DebugPlanOwner.LookForPlan | internal/exec/session.go:69-104 | one turn of the acquire loop: refuse, lease the Plan, report the remembered failure, wait for the running compilation, or start the only one |
| DebugPlans.DebugPlanOwner.FinishCompile | internal/exec/session.go:106-141 | keeps and leases the Plan exactly if it compiled and the Session still admits; otherwise a returned Plan must be discarded; only non-cancellation failures are remembered |
| DebugPlans.DebugPlanOwner.ReleaseDebugRuntime | internal/exec/session.go:164-177 | one lease less; the last closes the channel |
| DebugPlans.DebugPlanOwner.CapturePlanWaits | internal/exec/session.go:205-217 | the captured channels are already closed exactly if nothing compiles and nothing is leased |
| DebugPlans.DebugPlanOwner.TakeDebugPlan | internal/exec/session.go:219-228 | hands the Plan out once |
| DebugRegistry.CreationsApart | internal/debug/manager.go:298-317 | beginning a creation under another parent changes nothing for this one |
| DebugRegistry.FinishedCreationsApart | internal/debug/manager.go:319-331 | nor does finishing one |
| DebugRegistry.SessionsApart | internal/debug/manager.go:333-350 | nor does committing or detaching a debug Session of another parent |
| DebugRegistry.FinishedSessionsApart | internal/debug/manager.go:352-369 | nor does finishing its close |
| DebugRegistry.GroupsApart | internal/debug/manager.go:371-415 | nor does closing, publishing or removing another parent's group |
| DebugRegistry.DebugManager.BeginCreation | internal/debug/manager.go:298-317 | admits to the parent's group, made on demand, unless stopped or closing |
| DebugRegistry.DebugManager.FinishCreation | internal/debug/manager.go:319-331 | the creator leaves; an unused accepting group is unregistered |
| DebugRegistry.DebugManager.CommitCreation | internal/debug/manager.go:69-91 | lists the debug Session exactly if the manager runs and the registered group accepts |
| DebugRegistry.DebugManager.DetachSession | internal/debug/manager.go:333-350 | moves a listed Session to closing once and finds it while it closes |
| DebugRegistry.DebugManager.FinishSessionClose | internal/debug/manager.go:352-369 | the closed Session leaves both maps and its group; an unused accepting group is unregistered |
| DebugRegistry.DebugManager.BeginExecutionSessionClose | internal/debug/manager.go:371-389 | commits the registered group's close; one caller owns it; no group means nothing to do |
| DebugRegistry.DebugManager.RemoveClosedGroup | internal/debug/manager.go:409-415 | unregisters the group only if it is still the registered one |
| DebugTheorems.StepKeepsInv | internal/debug/manager.go:43-91 | every step of the lease protocol keeps the invariant, whatever happens on other executable Sessions |
| DebugTheorems.NoPanicReachable | internal/debug/manager.go:250-261 | in every run no guard panics, nobody waits for a debug Session, a group or the creators of one before its close has begun, no debug Session close begins or finishes twice, no lease release is silently ignored, and the debug Plan is never taken while leased or compiling |
| DebugTheorems.LeasesConserved | internal/exec/session.go:69-177 | in every state the count equals the live leases, all leases are on one Plan that has not been closed, and at most one compilation is in flight |
| DebugTheorems.DebugPlansClosedOnce | internal/exec/manager.go:363-374 | no compiled debug Plan is closed twice, and when the Session's close is published each one, discarded or retained, was closed exactly once |
| DebugTheorems.HookReturnsAfterEveryRuntime | internal/debug/manager.go:371-415 | once the debug close hook has returned, and in every later state, no runtime of the Session holds a lease, none is inside the exec gate, nothing compiles, and neither a lease nor a debug Plan comes into being again |
| DebugTheorems.OwnersCanProceed | internal/exec/manager.go:345-378 | in every run the close of the executable Session has an enabled step, or waits for a creation, a group or a debug Session that has one; releasePlans never blocks; and every creation has its next step, or waits for a compilation that its compiler can end |
| DebugTheorems.GroupsCanProceed | internal/debug/manager.go:391-415 | in every run a closing debug Session has an enabled step, and a closing group has one or waits for an admitted creation or a debug Session that has one |
| DebugTheorems.FailedOpenReturnsLease | internal/exec/session.go:148-177 | a caller that leases the retained debug Plan and then fails to open its runtime leaves the leases, their count and their channel as it found them |
| EventStreams.PublishKeeps | internal/exec/execution.go:218-241 | publishing never sends on a full error channel or closes a channel twice, keeps every watcher's view consecutive, and a terminal event ends every watcher |
| EventStreams.ReceiveKeeps | internal/debug/session_watch.go:43-66 | what a reader takes next has the sequence number right after the last one it knows |
| EventStreams.SubscribeKeeps | internal/debug/session_watch.go:8-41 | a new watcher starts behind its Current event |
| EventStreams.Publisher.PublishEvent | internal/debug/session_watch.go:43-66 | the loop offers the event to every registered watcher once |
| EventStreams.Publisher.OfferTo | internal/exec/execution.go:227-236 | a watcher with room gets the event, and ends if it is terminal; a full one ends with a lag error |
| EventStreams.Publisher.Close | internal/exec/execution.go:255-269 | closes the channels once and unregisters the watcher |
| EventStreams.Publisher.SubscribeWatcher | internal/exec/execution.go:114-147 | registers a fresh watcher |
| EventStreams.Publisher.UnsubscribeWatcher | internal/exec/execution.go:243-253 | ends a registered watcher without error; otherwise nothing |
| EventStreams.Publisher.CloseWatchers | internal/exec/execution.go:192-197 | the loop ends every registered watcher |
| Executions.WatchersSeeEverything | internal/exec/execution.go:114-181 | in every run a watcher has seen exactly the consecutive events after its Current one, all of them while it watches or if it finished; no watcher of an Execution ever lags |
| Executions.TerminalForGood | internal/exec/execution.go:154-181 | in every run a terminal state is the same in all later states, no event follows it, published events are never taken back, and runDone is closed exactly once |
| Executions.ExecutionResource.StartRun | internal/exec/execution.go:63-94 | starts a created Execution once and tells running from terminal otherwise |
| Executions.ExecutionResource.CancelRun | internal/exec/execution.go:97-111 | cancels a created Execution at once, only asks a running one, and leaves a terminal one alone |
| Executions.ExecutionResource.FinishRun | internal/exec/execution.go:154-181 | a running Execution ends completed, cancelled or failed; a late result changes nothing |
| DebugSessions.RunningIsOnePending | internal/debug/session_commands.go:83-160 | in every run a Session that is not over is running exactly when one command's result is still due |
| DebugSessions.TerminalForGood | internal/debug/session_lifecycle.go:10-96 | in every run a terminal state is the same in all later states and its event is the last one, however late results and terminate workers arrive; terminalDone is closed exactly once |
| DebugSessions.NoRunningAfterRequest | internal/debug/session_lifecycle.go:62-89 | no Running event follows a termination request |
| DebugSessions.WatchersSeeInOrder | internal/debug/session_watch.go:8-94 | every watcher sees consecutive events and ends by the terminal event, a cancel or close, or one lag error at the first event that did not fit its full buffer |
| DebugSessions.DebugSession.EnterStatus | internal/debug/session_watch.go:43-66 | enters a state and publishes it; a terminal one closes terminalDone |
| DebugSessions.DebugSession.StartCommandLocked | internal/debug/session_commands.go:100-130 | refuses when terminating or closing, and otherwise runs exactly from the expected state |
| DebugSessions.DebugSession.ApplyRuntimeEvent | internal/debug/session_lifecycle.go:10-60 | the state each reported reason leads to |
| DebugSessions.DebugSession.RunCommand | internal/debug/session_commands.go:132-160 | applies a result only while running |
| DebugSessions.DebugSession.RequestTerminationLocked | internal/debug/session_lifecycle.go:62-74 | the first request of a live Session spawns the one terminate worker |
| DebugSessions.DebugSession.TerminateLocked | internal/debug/session_lifecycle.go:76-89 | terminates unless a terminal state came first |
| WorkspaceManager.RunInv | internal/workspace/manager.go:252-312 | in every interleaving of opens, closes and clears the root index is exactly the inverse of the active entries, and the opening map exactly the loads of the current generation |
| WorkspaceManager.OneWorkspacePerRoot | internal/workspace/manager.go:337-368 | at most one active workspace per root, no dangling index entry, and one load in flight per root and generation |
| WorkspaceManager.NoPanicReachable | internal/workspace/manager.go:238-327 | in no run does a close begin twice, finish without running, or get waited for before it has begun, nor is a done channel closed twice, nor does a root lead to no entry |
| WorkspaceManager.DoneClosedOnce | internal/workspace/manager.go:360-433 | in every run the done channel of an open has been closed exactly once if its owner has returned, and not at all otherwise |
| WorkspaceManager.ClearedLoadNeverOpens | internal/workspace/manager.go:399-410 | a load begun before a Clear and not open by then never opens after it: in no later state does an identifier or a root lead to its workspace; released waiters keep their outcome |
| WorkspaceManager.WorkspaceManager.Find | internal/workspace/manager.go:337-346 | finds the active workspace of a root exactly if there is one, and otherwise a running load of that root |
| WorkspaceManager.WorkspaceManager.BeginOpenOperation | internal/workspace/manager.go:348-368 | one caller owns the load of a root |
| WorkspaceManager.WorkspaceManager.Commit | internal/workspace/manager.go:399-424 | opens exactly if no Clear came since the load began |
| WorkspaceManager.WorkspaceManager.FinishOpenOperation | internal/workspace/manager.go:426-435 | reports the failure once, without touching a newer load of the root |
| WorkspaceManager.WorkspaceManager.BeginCloseEntry | internal/workspace/manager.go:290-312 | one caller owns the close; the root is free at once |
| WorkspaceManager.WorkspaceManager.ClearAll | internal/workspace/manager.go:252-274 | the loop starts the close of exactly the active entries and empties both indexes |
| WorkspaceManager.WorkspaceManager.FinishCloseEntry | internal/workspace/manager.go:314-327 | publishes the close result of a closing entry |
| WorkspaceDocuments.RunInv | internal/workspace/refresh.go:330-343 | in every state of every run order and files are the sorted document map and every document has its own generation |
| WorkspaceDocuments.GenerationIdentifies | internal/workspace/refresh.go:65-117 | over a whole run equal generations mean the same path and the same document, even across delete and recreate |
| WorkspaceDocuments.RevisionsGrow | internal/workspace/refresh.go:99-110 | while a path stays present its revision never falls and grows strictly when the document changes |
| WorkspaceDocuments.TreeReconciled | internal/workspace/refresh.go:291-328 | reconciling a subtree leaves every other path untouched and retains inside it exactly what was found, in the found state |
| WorkspaceDocuments.DocumentReconciled | internal/workspace/refresh.go:76-116 | reconciling one document touches no other path and retains it exactly if found |
| WorkspaceDocuments.AscendingUnique | internal/workspace/refresh.go:330-343 | a set of paths has one sorted order, so the rebuilt order is determined |
| WorkspaceDocuments.Retained.RebuildIndexes | internal/workspace/refresh.go:330-343 | order is the sorted keys and files lists their documents |
| WorkspaceDocuments.Retained.SetReady | internal/workspace/workspace.go:163-186 | the loop numbers every loaded document with its own generation |
| WorkspaceDocuments.Retained.ReconcileDocument | internal/workspace/refresh.go:65-117 | refuses when closing or not ready; otherwise drops, keeps or replaces the one document |
| WorkspaceDocuments.Retained.PruneSubtree | internal/workspace/refresh.go:291-304 | the loop drops exactly what the subtree no longer holds and notices whether anything went |
| WorkspaceDocuments.Retained.StoreOne | internal/workspace/refresh.go:306-323 | a found document is kept if unchanged, and otherwise stored with the next revision and generation |
| WorkspaceDocuments.Retained.StoreFound | internal/workspace/refresh.go:306-323 | the loop stores everything found and notices whether a path came |
| WorkspaceDocuments.Retained.ApplyContent | internal/workspace/refresh.go:291-328 | both loops together; the indexes are rebuilt exactly if a path came or went |
| WorkspaceDocuments.Retained.Close | internal/workspace/workspace.go:217-235 | closing drops everything once |
| AnalysisCache.ReturnedAnalysisIsCurrent | internal/language/analysis_cache.go:54-115 | in every run a returned analysis is that of exactly the text and path of a snapshot of the asked URI that was current at some moment of the call |
| AnalysisCache.UsefulEntryStays | internal/language/analysis_cache.go:103-115 | along every run, as long as the snapshot of a cache entry stays current and its document is not closed, no worker, call or other edit removes or replaces the entry |
| AnalysisCache.CurrentUnique | internal/language/analysis_cache.go:164-184 | at one moment one snapshot is current for a URI |
| AnalysisCache.CurrentIsResolved | internal/language/analysis_cache.go:117-184 | the currency test holds of a snapshot exactly if resolving its URI now would give that snapshot |
| AnalysisCache.SnapshotIdentified | internal/language/analysis_cache.go:15-21 | equal snapshot identifiers under one URI carry the same text, path and version |
| AnalysisCache.LanguageService.Open | internal/language/service.go:72-100 | stores the overlay under a new generation and drops the cached analysis |
| AnalysisCache.LanguageService.Change | internal/language/service.go:103-137 | takes the last change if the version grows, and otherwise reports why not |
| AnalysisCache.LanguageService.Close | internal/language/service.go:140-151 | removes overlay and cached analysis |
| AnalysisCache.LanguageService.SnapshotCurrent | internal/language/analysis_cache.go:164-184 | decides the currency test that CurrentIsResolved explains |
| AnalysisCache.LanguageService.AttachEntry | internal/language/analysis_cache.go:63-79 | attaches to the entry of a current snapshot, reused or new, and to nothing else |
| AnalysisCache.LanguageService.RunAnalysis | internal/language/analysis_cache.go:103-115 | publishes the outcome and drops its own entry if it went stale |
| Utf8.Decode | internal/source/position.go:36-36 | a step takes one to four bytes, all but the first continuation bytes; malformed input takes one; exactly four-byte runes need two UTF-16 units |
| Utf8.DecodeEncoded | internal/source/position.go:36-36 | whatever starts with the encoding of a scalar value by section 3 of RFC 3629 decodes to it |
| Utf8.EncodeDecoded | internal/source/position.go:36-36 | a well-formed step consumed exactly the encoding of a scalar value |
| Utf8.WellFormedIsEncoded | internal/source/position.go:35-58 | the texts that decode without a broken step are exactly the encodings of scalar value sequences |
| Utf8.DecodeCut | internal/source/position.go:104-109 | decoding does not notice a cut at a rune start, on any bytes |
| SourceMapper.NewMapper | internal/source/position.go:32-63 | the loop builds the line table: each line runs to its first terminator and the next starts behind it |
| SourceMapper.ClampOffset | internal/source/position.go:152-164 | computes the clamp |
| SourceMapper.ClampIsLastFixed | internal/source/position.go:152-164 | the clamped offset is the last one, not past the wanted one, that is the start, the end or a rune start |
| SourceMapper.Utf16Width | internal/source/utf16.go:3-14 | the UTF-16 length of a stretch, modulo 2^32 |
| SourceMapper.SearchLine | internal/source/position.go:68-70 | the number of lines that start at or before the offset |
| SourceMapper.OffsetToPosition | internal/source/position.go:66-85 | computes the position of an offset |
| SourceMapper.PositionToOffset | internal/source/position.go:88-121 | computes the offset of a position for texts under 2^32 bytes, with uint32 arithmetic |
| SourceMapper.OffsetRoundTrip | internal/source/position.go:66-121 | for any bytes under 2^32 and any integer, offset to position and back is the clamped offset cut back to its line end |
| SourceMapper.PositionMonotone | internal/source/position.go:66-85 | larger offsets never get smaller positions |
| SourceMapper.PositionRoundTripExact | internal/source/position.go:66-121 | a position survives the way to an offset and back exactly if its line exists and some whole number of the decoding steps of its bytes has its width and ends at no continuation byte |
| SourceMapper.PositionRoundTrip | internal/source/position.go:66-121 | in well-formed text every position between two runes of an existing line survives |
| SourceMapper.MalformedDoesNotReturn | internal/source/position.go:152-164 | two continuation bytes: position 0:1 lies between two runes and comes back as 0:0 |
| SourceMapper.SpanRoundTrip | internal/source/position.go:124-145 | a span maps to an ordered range and comes back as the cut span, never inverted |
| SourceCoordinates.NewSourceCoordinates | internal/dap/source_coordinates.go:41-85 | the nested loops build the lines and decoder boundaries in the wanted bases |
| SourceCoordinates.IndexFeed | internal/dap/source_coordinates.go:53-58 | the distance to the next line feed, or -1 |
| SourceCoordinates.ScanLine | internal/dap/source_coordinates.go:65-73 | the boundaries of one line |
| SourceCoordinates.BoundaryIsReached | internal/dap/source_coordinates.go:65-73 | a pair is in the table exactly if some number of runes has those bytes and units |
| SourceCoordinates.BoundariesGrow | internal/dap/source_coordinates.go:65-73 | bytes and units both grow strictly |
| SourceCoordinates.LinesRebuild | internal/dap/source_coordinates.go:52-82 | the lines with their terminators rebuild the text |
| SourceCoordinates.NoFeedInside | internal/dap/source_coordinates.go:52-63 | no line text contains a line feed |
| SourceCoordinates.LineBytesExact | internal/dap/source_coordinates.go:52-63 | a byte lies in the text of a line exactly if it is neither a line feed nor a carriage return right before one, so a lone carriage return is text |
| SourceCoordinates.FromClient | internal/dap/source_coordinates.go:87-114 | accepts a client position exactly if some native position is the same place, and returns that one |
| SourceCoordinates.ToClient | internal/dap/source_coordinates.go:116-143 | the converse direction of the same relation |
| SourceCoordinates.PlacesCorrespond | internal/dap/source_coordinates.go:87-143 | a place has one name on each side, so the two conversions are mutual inverses on what they accept |
| SemanticTokens.SortItems | internal/language/semantic_tokens.go:31-41 | a sorted permutation in which ties keep their order |
| SemanticTokens.SplitSemanticSpan | internal/language/semantic_token_build.go:144-187 | the loop returns the ranges of the pieces between terminators |
| SemanticTokens.PiecesOk | internal/language/semantic_token_build.go:160-184 | pieces are non-empty, in order, and contain no terminator |
| SemanticTokens.PiecesCover | internal/language/semantic_token_build.go:160-184 | nothing but terminators is left out |
| SemanticTokens.Stamp | internal/language/semantic_tokens.go:51-57 | every piece gets its item's kind and modifiers |
| SemanticTokens.EmitTokens | internal/language/semantic_tokens.go:43-62 | the loop computes the overlap filter |
| SemanticTokens.Highlight | internal/language/semantic_tokens.go:31-62 | a stable sort followed by the filter |
| SemanticTokens.EmitOrdered | internal/language/semantic_tokens.go:43-60 | emitted pieces never overlap, whatever the spans |
| SemanticTokens.TokensOrdered | internal/language/semantic_tokens.go:17-62 | tokens come out in order and never overlap, for any bytes under 2^32 and any spans |
| SemanticTokens.SingleLineExact | internal/language/semantic_token_build.go:144-187 | on any bytes a piece maps into one line exactly if it does not straddle a terminator its start is clamped back to |
| SemanticTokens.SpanSingleLineExact | internal/language/semantic_token_build.go:144-187 | on any bytes every token of a span is single-line exactly if the span does not start inside a terminator it reaches past, and no terminator in it is followed by a stray continuation byte with more of the span behind it |
| SemanticTokens.TokensSingleLineExact | internal/language/semantic_tokens.go:17-62 | on any bytes and items all tokens, or all of a known kind, are single-line exactly if no kept item of these kinds has such a span |
| SemanticTokens.TokensSingleLine | internal/language/features.go:94-99 | in well-formed text, items that start on character boundaries give only single-line tokens |
| SemanticTokens.InsideSeparatorSpansLines | internal/language/semantic_token_build.go:144-187 | a span that starts inside U+2028 maps to a range over two lines |
| SemanticTokens.StrayBehindFeedSpansLines | internal/language/semantic_token_build.go:144-187 | a span on a character boundary with a stray continuation byte behind its line feed maps to a range over two lines |
| TokenEncoding.TokenType | internal/lsp/semantic_tokens.go:57-65 | the legend index of a known kind, none for an unknown one |
| TokenEncoding.EncodeSemanticTokens | internal/lsp/language_conversion.go:123-156 | the loop computes the delta encoding in uint32 arithmetic |
| TokenEncoding.EntryDecodes | internal/lsp/language_conversion.go:135-151 | for a single-line token not before the last one, no delta wraps and plain addition gives the token back |
| TokenEncoding.EncodeRoundTrip | internal/lsp/language_conversion.go:123-156 | decoding gives back exactly the known-kind tokens: range, kind and modifiers |
| TokenEncoding.HighlightRoundTrip | internal/language/semantic_tokens.go:17-62 | the whole pipeline: for well-formed text and items on character boundaries the client gets the known-kind tokens back |
| TokenEncoding.HighlightRoundTripExact | internal/language/semantic_tokens.go:17-62 | the whole pipeline on any bytes and items: the client gets exactly the known-kind tokens back if and only if no kept item of a known kind starts inside a terminator or has stray bytes behind one |
| TokenEncoding.InsideSeparatorWraps | internal/lsp/language_conversion.go:123-156 | for the text with a separator and an item that starts inside it, the five numbers sent are those of one token of length 2^32 - 1 |
| BreakpointIds.HistoryRefined | internal/dap/breakpoint_ids.go:36-86 | after every history of replacements and commands the three maps are exactly what the full history says |
| BreakpointIds.LookupRefinesHistory | internal/dap/breakpoint_ids.go:60-66 | a lookup answers the rank of first request of the latest assignment, if the native breakpoint was active since no command was pending, and otherwise 0 |
| BreakpointIds.ResolvesWhilePending | internal/dap/breakpoint_ids.go:36-80 | a native breakpoint active at some time, and not since, still resolves to what it was then while a command was pending ever since |
| BreakpointIds.NumbersDistinct | internal/dap/breakpoint_ids.go:36-80 | distinct positions have distinct non-zero numbers, active and retired are disjoint, and nothing is retired while no command is pending |
| BreakpointIds.NumbersPermanent | internal/dap/breakpoint_ids.go:48-53 | a number that was given out never changes |
| BreakpointIds.BreakpointIdTable.ReplaceAll | internal/dap/breakpoint_ids.go:36-58 | the loop computes the replacement |
| BreakpointIds.BreakpointIdTable.Id | internal/dap/breakpoint_ids.go:60-66 | the active number, else the retired one, else 0 |
| BreakpointIds.BreakpointIdTable.CommandStarted | internal/dap/breakpoint_ids.go:68-70 | one more command pending |
| BreakpointIds.BreakpointIdTable.CommandStopped | internal/dap/breakpoint_ids.go:72-80 | one less; the last forgets what is retired |
| BreakpointIds.BreakpointIdTable.Finish | internal/dap/breakpoint_ids.go:82-86 | forgets everything but the permanent numbers |
| InitialStop.Resolve | internal/dap/initial_stop.go:40-69 | the hits of a plain entry are the numbers bound at its location, once each; it is suppressed exactly if there are none and nobody asked to stop |
| InitialStop.ReportedExact | internal/dap/initial_stop.go:45-60 | a plain entry reports every number bound at its location once, in ascending native order |
| InitialStop.HitsExact | internal/dap/initial_stop.go:48-60 | the de-duplicating loop reports every number bound at the location exactly once |
| InitialStop.FrozenNumberExact | internal/dap/breakpoint_ids.go:36-66 | a binding frozen at the accepted start resolves at the first stop to its configuration-time number if and only if the latest replacement since then to list its native breakpoint, if any, lists it for the same position |
| InitialStop.FrozenBindingsKeepNumbers | internal/dap/requests.go:275-287 | in particular it does so if native numbers are not reused for other positions |
| InitialStop.ReusedNativeMoves | internal/dap/breakpoint_ids.go:36-58 | a native breakpoint that a live replacement lists for another position takes the number of that position |
| InitialStop.FirstStopReportsConfigured | internal/dap/events.go:67-117 | in every run of replacements, commands, the start and the first stop, a first stop at entry reports every breakpoint that the last replacement before the start bound at its location, each number once, and is a breakpoint stop exactly if there is one; each is reported by its configuration-time number exactly under the condition of `FrozenNumberExact`, and then the numbers are exactly the configured ones |
| InitialStop.FirstStop.ReplaceBindings | internal/dap/initial_stop.go:26-38 | the bound breakpoints replace the bindings until they are frozen |
| HandleTable.LookupRefinesEpochs | internal/dap/handle_table.go:53-167 | for every history, kind and handle: current exactly if issued since the last invalidation, stale exactly if issued with that kind in the last non-empty invalidated epoch, and otherwise invalid |
| HandleTable.NeverReissued | internal/dap/handle_table.go:169-174 | no handle is issued twice |
| HandleTable.HandleTableObject.Frame | internal/dap/handle_table.go:85-93 | issues the next handle for a frame |
| HandleTable.HandleTableObject.Scope | internal/dap/handle_table.go:111-119 | issues the next handle for a scope |
| HandleTable.HandleTableObject.Variable | internal/dap/handle_table.go:137-149 | issues the next handle, and 0 for no reference |
| HandleTable.HandleTableObject.Find | internal/dap/handle_table.go:95-109 | looks a handle up in the table of its kind |
| HandleTable.HandleTableObject.MarkStale | internal/dap/handle_table.go:64-74 | one marking loop |
| HandleTable.HandleTableObject.Invalidate | internal/dap/handle_table.go:53-83 | everything current becomes stale; an empty epoch leaves the stale handles alone |
| RpcBarrier.OrderedWhileUncancelled | internal/lsp/rpc_handler.go:56-102 | in every run, while nothing is cancelled, a handler that has started finds every earlier lifecycle message finished, so lifecycle messages run one at a time in arrival order |
| RpcBarrier.HandledAfterEarlierLifecycle | internal/lsp/rpc_handler.go:56-102 | for every arrival sequence: a handler never starts before an earlier lifecycle message is over if and only if no lifecycle message between the two is a request (or, with the connection lost, any lifecycle message) |
| RpcBarrier.CancelledRequestOvertakes | internal/lsp/rpc_handler.go:81-96 | for every arrival sequence, cancelling a waiting lifecycle request lets a later handler run while an earlier lifecycle message is still being handled |
| RpcBarrier.LostConnectionOvertakes | internal/lsp/rpc_handler.go:81-96 | the same for any waiting lifecycle message when the connection is lost |
| RpcBarrier.Dispatcher.Accept | internal/lsp/rpc_handler.go:56-66 | a message waits for the last lifecycle message before it |

## Left out

- The Ferret compiler, parser, debugger and runtime: their results are arbitrary inputs, and an analysis is represented by the path and text it was made from.
- Filesystem discovery, watching and watch registration: what discovery finds is an input that lists each found document once under its own path and only inside the reconciled subtree.
- gRPC services, generated code, client package, transport, authentication, message framing, logging and response building are not modelled.
- Completion, hover, signatures, Markdown rendering and the function catalog are not modelled, nor the panics on unreadable embedded catalog data.
- The start and stop sequence of the daemon process is not modelled.
- Collecting the spans of symbols, references, calls and syntax tokens (`buildSemanticSpans`, `overlapsAny`): the token theorems hold for any list of items.
- Progress: a worker may be scheduled arbitrarily late, so nothing is said about when a close ends. That one can always go on is stated as enabledness (`CloseTheorems.ClosesCanProceed`, `DebugTheorems.OwnersCanProceed`, `DebugTheorems.GroupsCanProceed`).
- CloseTheorems.SessionCloseComplete: the close hooks contribute one arbitrary error here; what the debug hook does is in the Debug modules.
- CloseProtocol: an Execution's own close is one settling step with an arbitrary error; its life cycle is in `Executions`.
- DebugTheorems.HookReturnsAfterEveryRuntime: the errors the debug Sessions' closes join are not tracked.
- DebugLeases: one executable Session against arbitrary activity on all others, which the `...Apart` lemmas justify; identifiers are unique across parents.
- AnalysisCache.ReturnedAnalysisIsCurrent: reading the overlay and `LookupDocument` are two steps; `LookupDocument` itself locks the manager and then one workspace, which the model reads in one look.
- AnalysisCache.LanguageService.AttachEntry: that a workspace generation names one text is taken over from `WorkspaceDocuments.GenerationIdentifies`; how the lookup cleans a path is not modelled, and any paths may lead to one document.
- WorkspaceDocuments.Retained.SetReady: the loader's own order and file list are taken as sorted.
- EventStreams.Publisher.PublishEvent: event sequence numbers are unbounded, without 64-bit wrap-around; the same holds of all generation, revision and handle counters.
- HandleTable.HandleTableObject.Scope: a scope's variable list is represented by one number; copying the list is not modelled.
- SourceMapper.PositionToOffset: at 2^32 bytes or more nothing is promised, as the uint32 column then wraps.
