# A verified model of the Codex adapter

The repository is an adapter between hosts that speak the Agent Client Protocol and one shared
`codex app-server` process. Many sessions live on that process; each has a bounded queue and one
worker, at most one turn in flight, dialogs with the host, and a durable mirror of its history.
This project models the protocol between those parts and the algorithms around it in Dafny, and
proves what they promise. `dafny verify dfyconfig.toml` checks it.

Concurrent parts are transition systems: one step is one critical section or one channel
operation, goroutines are program counters, and timers, processes, the host and the app-server may
do anything at any time. A theorem about them holds for every run, that is for every interleaving.
Beside each machine the source's own objects are classes whose methods are proved to take exactly
the machine's steps.

| files | what they model |
|---|---|
| `SessionQueues`, `Delivery*`, `Runtime` | routing of native records and requests to session queues, fencing, joining, replacement of a dead app-server |
| `Settlement*`, `SessionObject` | how cancel, native end, process loss, containment, commit and close settle one prompt |
| `Registry*`, `SessionClose` | session slots, tombstones, the agent's close, and one session's close |
| `Rpc*` | correlation of JSON-RPC calls (JSON-RPC 2.0 Specification, sections 4, 4.1 and 5) |
| `Usage*` | the two ways a model request's usage is reported |
| `Pacing` | streamed tool output |
| `Repair`, `Restore`, `Rollout*` | repair of stored histories, their reconciliation over crashes, rollout names |
| `Replay*` | replay of a stored conversation and its images |
| `Options`, `Carrier` | session options, inheritance, and the same-carrier judgement |
| `Redaction` | raw diagnostics without image payloads |
| `Wrappers`, `Decimals`, `JsonTrees` | shared datatypes |

## Where the code does less than it says

For each the failing state or input is named, and reached by a concrete run where it is a state.
Beside it stands exactly when the promise holds, as an equivalence over every reachable state, every
history or every input.

- A turn whose session lost its binding can be left running: a containment that began before the
  turn was installed drops the binding without having read it (`session.go:420-463`):
  `TurnLeftRunning`. Such a turn can still end without a cancel or close if and only if a
  containment or a generation's end that read it is under way or a worker holds the record of its
  end: `UnboundTurnEnds`; otherwise it stays running for good: `AbandonedForGood`.
- A prompt whose native turn ignores its interrupt fences the session's queue and then joins the
  queue's worker (`session_prompt.go:265-274`, `session.go:420-444`). There may be no queue to fence,
  because no record had arrived, or the fenced one may be on its way out, because an overflow's
  containment is taking it away: a record that arrives before the join then makes a queue nobody
  fenced, and once its worker has settled the turn the prompt waits for the worker and the worker for
  the prompt, until the app-server exits or that queue overflows: `PromptCanWaitForItself`,
  `FencedQueueCanBeReplaced`, `StuckForGood`. From any state of the containment this can come about if
  and only if the condition of `SticksExactly` holds; at the stop, if and only if that of
  `StopSticksExactly` does. `JoinedWorkerCanLeave` is about all containments of a run.
- A turn can take in a record while its prompt is judged and answered, although the comment at
  `session_prompt.go:268-270` says nothing still writes it: exactly when `AnsweredTurnTakes` says.
  The ordinary case needs no cancel: the queue of the parked worker that settled the turn overflows
  and is retired, and before the binding is dropped the next record makes a fresh one
  (`OverflowReopens`, `LateRecordIsWritten`). A queue created while the session is unbound is no
  better, since the repair of a thread binds it again: `UnboundQueueCanWrite`,
  `UnboundQueueReachable`. In any run only workers of such late queues write: `OnlyLateWriters`,
  `AnsweredTurnWriters`, `NothingWritesAnsweredTurn`.
- The home lock is released, and a replacement started, beside a child that was not reaped
  (`agent_runtime.go:538-549`; the comment there says the lock outlives the child): from a shutdown
  this can happen if and only if the shutdown wait expired and the child was not reaped:
  `OverlapExactlyAfterExpiry`, `ProcessesCanOverlap`.
- A turn whose start was refused can still be accepted on the stream, and then has no terminal idle:
  `AcceptedWithoutIdle`; a step accepts it, then or later, exactly when it is the acceptance of a
  server request that had read the turn, or the stamping of a record of it that bears work, which a
  worker read before the turn's removal: `AcceptedAfterRefusal`.
- The two usage paths send the same figures in the same order if and only if every request that is
  sent is reported before a cancel and before an estimate of a compacted history: `PathsAgree`,
  `CancelCanCutApart`, `EstimateCanCross`; the response's sum is the same always. They do not always
  send the same window: `WindowsCanDiffer`, `WindowsAgree`. The repository's README names the case of
  a new thread's first request.
- A stored image is replayed more than once when a tool output with its id comes before a
  generation row with it, when two generation rows carry it, or when its id is "image" and a
  generation row without an id carries bytes: `DeliveredTwice`, `StoredImageDelivered`.
- A rollout's printed path relocates exactly in the years a four-digit stamp can hold: `LateYearIsLost`,
  `RelocatedIsPrinted`.

## Model

| member | source | states |
|---|---|---|
| `DeliveryTheorems.RequestsConserved` | agent_runtime.go:371-511 | For every run: each request received from the app-server is in exactly as many places (pump, queue, worker, drained batch, dialog, answered) as it was received. |
| `DeliveryTheorems.AnsweredAtMostOnce` | agent_runtime.go:398-511 | A request received once is answered at most once, and is then nowhere else. |
| `DeliveryTheorems.NoRequestLeft` | agent_runtime.go:433-457 | Once the workers have exited, the dialogs have ended and no pump is mid-record, every request has been answered, whatever overflows, stops, closes and drains came before. |
| `DeliveryTheorems.SingleWorker` | agent_runtime.go:84-101 | At most one worker runs for a session on a generation, across retired queues. |
| `DeliveryTheorems.SingleGeneration` | agent_runtime.go:136-166 | At most one app-server generation is not dead. |
| `DeliveryTheorems.SingleWorkerAcrossGenerations` | agent_runtime.go:325-395 | No session has two running workers, on whatever generations. |
| `DeliveryTheorems.ReplacementWaits` | agent_runtime.go:140-163 | A replacement starts only when every worker of every earlier generation has exited. |
| `DeliveryTheorems.NoneLiveAfterClose` | agent_runtime.go:591-600 | After the runtime was stopped by Close, no generation is live and none is started again. |
| `DeliveryTheorems.ProcessesOverlapOnlyAfterExpiry` | agent_runtime.go:533-553 | A generation that was replaced had been reaped, or its shutdown wait had expired. |
| `DeliveryTheorems.ExpiredIsReplaced` | agent_runtime.go:533-553 | From every state in the shutdown of the agent's generation, once the child is reaped or the wait has expired, three steps start a replacement, beside the child if it is unreaped. |
| `DeliveryTheorems.OverlapExactlyAfterExpiry` | agent_runtime.go:533-553 | From every state in the shutdown of the agent's generation, and with nothing more from the process or its timer, a replacement beside the unreaped child is reached in some continuation if and only if the wait has expired and the child was not reaped. |
| `DeliveryTheorems.ProcessesCanOverlap` | agent_runtime.go:538-549 | A concrete run in which the wait expires, the home lock is released and a replacement starts beside a child that was never reaped, which the comment at lines 540-541 rules out. |
| `DeliveryTheorems.ClosedAtMostOnce` | agent_runtime.go:327-332 | `messages` and `done` of a queue are each closed at most once. |
| `DeliveryTheorems.StepGoesOn` | agent_runtime.go:397-421 | In every step a record is sent only to a queue that is not closed, not fenced and has room; fences are kept. |
| `DeliveryTheorems.StoppedStays` | agent_runtime.go:398-406 | Nothing is enqueued after a queue was stopped, in any continuation. |
| `DeliveryTheorems.HandledInOrder` | agent_runtime.go:460-476 | What a worker handled is a prefix, in native order, of what was routed to its queue; until it drains, exactly the rest is queued. |
| `DeliveryTheorems.JoinedWorkersMove` | agent_runtime.go:327-334 | While the pump joins its workers, every one that is not parked behind its prompt has a step it can take. |
| `DeliveryTheorems.JoinedWorkersWindDown` | agent_runtime.go:327-334 | Once the queues are closed every step of a worker brings it nearer to its exit and no other step of anyone takes it back: it exits after a bounded number of its own steps. |
| `SessionQueues.SendHolds` | agent_runtime.go:408-411 | Queueing a record adds exactly its request to what the queue holds. |
| `SessionQueues.TakeHolds` | agent_runtime.go:461-470 | Taking a record moves its request to the worker and loses none. |
| `DeliveryRouting.RecordIsQueued` | agent_runtime.go:371-411 | A record of an open session, event or request, whose queue is unfenced and holds fewer than 256 records or does not exist yet, stands last among the queued and the routed ones afterwards; the queue is unchanged beside it, no other queue changes, and the pump reads on. |
| `DeliveryRouting.FullQueueIsFenced` | agent_runtime.go:412-431 | A queue that holds 256 records takes nothing: it is fenced, a request is answered by the pump, and the session is contained; nothing else fences a queue here. |
| `DeliveryRouting.RecordIsDropped` | agent_runtime.go:374-406 | Only a closed session or a stopped queue drops a record, and then nothing changes but the pump, which answers a request. |
| `DeliveryRouting.ReceivedIsRouted` | agent_runtime.go:371-431 | Over every run: a received record is still in its pump's hands, or among the routed ones of its session's queue, unless at its routing step the session was closed or its queue was stopped or full. |
| `DeliveryRouting.UnownedIsRefused` | agent_runtime.go:479-489 | A request whose thread no session owns is answered by the pump. |
| `DeliveryServes.WorkerServesAll` | agent_runtime.go:460-477 | A worker at its select hands on everything its queue holds by its own steps alone: each event is handled and each request gets its dialog, in order, and nothing else changes. |
| `DeliveryServes.FencedWorkerAnswersAll` | agent_runtime.go:433-457 | A worker whose queue was fenced or whose session closed answers every request the queue holds, exits, and leaves a stopped queue; a closed session's queue is forgotten. |
| `DeliveryServes.PumpMovesOn` | agent_runtime.go:325-345 | In every reachable state a pump can leave its stage, except that it waits for its workers to exit and then for the process to be reaped or the wait to expire; a reading one takes any record that comes next. |
| `DeliveryServes.ClosesTheRegistered` | agent_runtime.go:327-332 | The pump's end closes the messages of exactly the registered queues of its generation, each once more. |
| `DeliveryServes.PumpReadsOn` | agent_runtime.go:412-431 | A request no queue took is answered once, the session of a fenced queue is contained, and the pump reads on. |
| `DeliveryServes.AgentLaunches` | agent_runtime.go:136-166 | An agent that is open, launches nothing and has no generation or a dead one starts one and publishes it; LaunchesOnlyWhenNeeded: in no other state. |
| `DeliveryServes.AgentCloses` | agent_runtime.go:590-600 | The agent's close takes the generation off it and joins its pump. |
| `DeliveryServes.RetirementForgets` | agent_runtime.go:84-101 | A retirement waits for the worker of the registered queue and forgets that queue only while it is still the registered one. |
| `DeliveryServes.WorkerChoices` | agent_runtime.go:457-477 | What a worker may do at each place, and exactly when it may leave its select or its parked turn. |
| `Runtime.SessionQueue.CloseDone` | agent_runtime.go:78-79 | Closes `done` of a queue that is not stopped: the machine's fence. |
| `Runtime.SessionQueue.Enqueue` | agent_runtime.go:408-411 | The channel send, on an open queue with room: the machine's send. |
| `Runtime.SessionQueue.CloseMessages` | agent_runtime.go:329-331 | Closes `messages` once. |
| `Runtime.SessionQueue.TakePending` | agent_runtime.go:435-453 | The deferred drain: stops the queue, empties it, and returns exactly the queued requests in order. |
| `Runtime.Generation.StopQueue` | agent_runtime.go:69-80 | Fences the session's queue if there is one that is not stopped, and touches no other. |
| `Runtime.Generation.QueueFor` | agent_runtime.go:386-395 | Finds or creates the session's queue. |
| `Runtime.Generation.Offer` | agent_runtime.go:397-414 | Drops the record exactly when the queue is stopped, fences the queue exactly when it is not and holds 256, else the record, event or request, is last in the queue; the same as the machine. |
| `Runtime.Generation.RouteMessage` | agent_runtime.go:371-431 | One record: closed sessions get nothing; else it is dropped, queued last or overflows exactly by the stop mark and the 256 of its one queue, and no other queue changes; a request that was not queued is answered as unowned, and an overflow alone starts a containment. |
| `Runtime.Generation.CloseAllMessages` | agent_runtime.go:327-332 | The pump's end closes every registered queue exactly once. |
| `Runtime.Generation.ForgetQueue` | agent_runtime.go:95-100 | Forgets the joined queue only while it is still the session's. |
| `SettlementTheorems.EndFixedOnce` | session.go:137-142 | Over any continuation of any run a turn's end is fixed once, and its cancel mark, failure and native turn id are never taken back. |
| `SettlementTheorems.ResponseAgrees` | session_prompt.go:360-399 | Whatever raced, a settled prompt's turn had ended; a lost commit answers an error; a claimed cancel with commit and idle answers cancelled; a delivered idle event names the outcome the response carries. |
| `SettlementTheorems.FailureIsCarried` | session_prompt.go:339-378 | From the verdict to the publication, an outcome is Failed exactly when a failure is carried. |
| `SettlementTheorems.CancelBeforeClaimIsAnswered` | session.go:537-542 | A cancel marked on a turn at any time before its prompt claims the verdict is answered cancelled when the commit succeeds and the idle event is not refused. |
| `SettlementProofs.JudgeIsFine` | session_prompt.go:301-351 | The verdict of an ended turn is Failed exactly when it carries a failure, given that a contained turn has one or was cancelled. |
| `SettlementVerdict.AnswerSaysHowItEnded` | session_prompt.go:301-399 | From every reachable prompt about to be judged, whatever happens until its turn is removed: with commit, idle and no claimed cancel, the answer is the end of the turn exactly when the mark was not set and the turn settled without a failure and with a stop that is neither cancelled nor an error; a cancellation exactly when the mark was set or it settled without a failure as cancelled; an error else. A lost commit or idle is an error, a claimed cancel a cancellation. A delivered idle event names the same outcome. |
| `SettlementReports.AnswerFollowsTheRecords` | session_prompt.go:301-399 | The same from the native records: of an uncancelled turn a reported failure is answered with an error, and without any failure the answer is what the last completion among the records it took in says. |
| `SettlementReports.CycleTellsItsRecords` | session_updates.go:78-148 | In every reachable state a turn that took in a failing record has failed, a provider's failure came with one, its stop is the last completion's, and one that settled uncancelled took a completion in. |
| `SettlementReports.StepWrites` | session_updates.go:78-148 | In every reachable state every step leaves each turn failed, cancelled, ended and with the records the step's description says, and nothing else does: which records count, fail, and settle, which refusals fail, and who cancels and contains. |
| `SettlementReports.RecordIsAttributed` | session.go:303-336 | A record counts for the session's turn exactly when the session is bound on the worker's generation and the record does not name the turn terminalized last; any other is passed over. |
| `SettlementReports.RecordIsStamped` | session_updates.go:78-92 | A record is foreign exactly when it names another turn than the cycle's, which is the first one named; the mark is read with it; one that bears work accepts the turn. |
| `SettlementReports.RecordIsProjected` | session.go:341-355 | A worker whose record ended its turn waits for the prompt, and reads on at once after any other. |
| `SettlementSession.StepWritesSession` | session.go:366-463 | The same for the session: which steps bind it, drop its binding, find it lost, open and fence its stream, close it, and install and remove its turn. |
| `SettlementSession.StepWritesCalls` | session.go:479-586 | The same for its callbacks: a dialog is registered exactly when nothing refuses it, a first cancel starts an interrupt exactly under its four conditions, and the dialogs are told exactly by a settlement, a first cancel, a close, and a lost generation. |
| `SettlementPlain.PromptStarts` | session_prompt.go:195-250 | A prompt of a session bound on a live generation can install a fresh turn of that generation, have it accepted and named, and wait for it. |
| `SettlementPlain.NativeEndIsAnswered` | session_prompt.go:252-399 | From every reachable state in which a prompt waits for a running turn, neither cancelled nor failed, and a worker of the binding is idle: the native end can be taken in and is answered by its stop, with the same idle event unless the stream is fenced. |
| `SettlementPlain.EndedTurnIsAnswered` | session_prompt.go:276-399 | From every reachable state in which a prompt waits for an ended turn it can answer it, with commit and idle event, and be over, whatever dialogs and interrupts are open. |
| `SettlementPlain.AnsweredIsOver` | session_prompt.go:218-230 | An answered prompt removes its turn, remembers its native turn, and fences the stream exactly when the generation was lost. |
| `SettlementForced.ContextEndCancels` | session_prompt.go:260-267 | A prompt whose context ends marks its turn cancelled and waits out the grace. |
| `SettlementForced.GraceOutContains` | session_prompt.go:267-272 | A cancelled turn that outlives the grace has exactly its registered queue fenced, and its session contained. |
| `SettlementForced.ContainedPromptGoesOn` | session_prompt.go:272-275 | After its containment the prompt ends a turn that still runs as contained, and goes on to answer it. |
| `SettlementForced.RepairsExactly` | session_prompt.go:353-359 | A thread may be repaired exactly for a refusal of the provider of a turn that ended natively and unmarked. |
| `SettlementForced.UnservedPromptBinds` | session.go:217-283 | A prompt of a session on no generation, or one that is over, can bind it on a live one; its stream opens exactly when nothing closes the session. |
| `SettlementTheorems.CallbacksCounted` | session.go:479-572 | The callback count is always the open dialogs plus the running interrupts, and from the end of beginSettlement's wait to the turn's removal it is zero and no dialog is mapped. |
| `SettlementTheorems.SettlementAdmitsNothing` | session.go:526-558 | While a prompt is settling, no step registers a dialog or an interrupt. |
| `SettlementTheorems.RecordsAttributed` | session_updates.go:78-120 | Every record in a cycle names the cycle's native turn or none, and never the turn terminalized before it. |
| `SettlementTheorems.OwnRecordsNameAndSettle` | session.go:315-345 | A worker names or settles a turn only with a record of that turn, and never with one of the turn terminalized before it. |
| `SettlementTheorems.SettlerProjectsNoMore` | session.go:344-355 | The worker that settled a turn is parked behind it or gone until the prompt has finished. |
| `SettlementTheorems.OnlyLateWriters` | session_prompt.go:264-271 | While a prompt is answered, a worker that can still write its turn serves a queue created after the turn had ended, lost its generation or its binding. |
| `SettlementForced.LateExactly` | session_prompt.go:264-271 | A queue is late exactly when it was made for the generation of the turn in flight after that turn had ended, lost its generation or its binding, and stays what it was. |
| `SettlementTheorems.NothingWritesAnsweredTurn` | session_prompt.go:264-274 | In every run that creates no such queue, no worker writes a turn while its prompt is answered; what a single state allows is AnsweredTurnTakes. |
| `SettlementTheorems.AnsweredTurnWriters` | session_prompt.go:264-274 | From the end of the wait for callbacks to the turn's removal, exactly three things can change the turn: a worker of a late queue, the failure of a containment that read it, and the mark of a cancel or close. |
| `SettlementWrites.AnsweredTurnTakes` | session_prompt.go:264-274 | For every reachable state of a prompt that is being answered: some continuation, before the prompt has finished, takes a record into the turn's cycle if and only if a worker has one in its hands that the cycle will take, or the turn is not cancelled, its session is bound or may be bound again by a repair of the thread, and its generation has a worker that reads on or can get one (its queue is unfenced, gone, or about to be taken away). |
| `SettlementWrites.BoundTurnTakes` | session.go:300-347 | When the session is still bound this needs no step of the prompt: the record is taken in while the prompt stands where it is, so also before its verdict. |
| `SettlementWrites.OverflowReopens` | agent_runtime.go:415-431 | The ordinary case, reached: a turn that ended natively is being judged, its only worker is parked and reads no more, and still a record can come, after an overflow of the parked worker's queue. |
| `SettlementWrites.LateRecordIsWritten` | session.go:441-452 | From every state in which a prompt waits for a running, uncancelled turn, and a containment of that turn has retired its queue and not yet dropped the binding, a record of the turn can be written into it while its prompt is judged, against the comment at session_prompt.go:268-270. |
| `SettlementWrites.LateRecordReachable` | session.go:441-452 | Such a state is reached. |
| `SettlementWrites.UnboundQueueCanWrite` | session_prompt.go:502-522 | From every state in which a queue of the turn's generation was created while the session was unbound and the prompt still repairs its thread, its worker can take a record of the turn that is being answered. |
| `SettlementWrites.UnboundQueueTakes` | session_prompt.go:502-522 | And the turn's cycle takes a record in unless it is cancelled. |
| `SettlementRuns.UnboundQueueReachable` | session_prompt.go:469-522 | Such a queue is reached: an overflow unbinds the session during the repair. |
| `SettlementRuns.AcceptedAfterRefusal` | session_prompt.go:238-247 | In every continuation after a refused start, also past the prompt's removal and later prompts: a step accepts the turn exactly when it stamps a record of the turn that bears work, or is the acceptance of a server request that had read the turn. |
| `SettlementRuns.RefusalNeedsNoAcceptance` | session_prompt.go:240-246 | Only a refused start of a turn not accepted so far skips the settlement. |
| `SettlementRuns.AcceptedWithoutIdle` | session_prompt.go:238-247 | A concrete run in which a turn is accepted on the stream although its prompt answers without a terminal idle. |
| `SettlementStuck.SticksExactly` | session_prompt.go:264-274 | For every reachable state of a prompt that contains its session: some continuation brings it to join an unfenced worker that is parked behind the prompt if and only if the app-server's process lives and the containment joins, or will find, such a worker, one that holds the turn's end or one that can still read it; or it has not looked yet, the session is still bound, and a new queue can be made, because none is registered or another containment is about to take the registered one away. |
| `SettlementStuck.StopSticksExactly` | session_prompt.go:270-272 | What that means at the stop: exactly when the session is bound on the turn's live generation and there is no queue to fence, or another containment is about to take the fenced one away. |
| `SettlementStuck.PromptCanWaitForItself` | session_prompt.go:265-274 | The first is reached, by a cancel before the turn's first record. |
| `SettlementStuck.FencedQueueCanBeReplaced` | agent_runtime.go:84-101 | So is the second, by a cancel while an overflow's containment joins the exited worker. |
| `SettlementWaits.StuckForGood` | session.go:344-355 | Once it waits for itself the prompt never answers, in any continuation, until the app-server exits or the queue overflows: neither a cancel nor a close frees it. |
| `SettlementWaits.StuckStands` | agent_runtime.go:84-94 | The same for one step. |
| `SettlementWaits.JoinedWorkerCanLeave` | agent_runtime.go:67-101 | In every run that creates no queue for a session while a containment is about to join it, every worker that any containment joins has exited or has a step nearer to its exit, and the prompt never waits for itself; what a single state allows the prompt is SticksExactly. |
| `SettlementAbandoned.UnboundTurnEnds` | session.go:396-463 | In every reachable state in which the prompt waits for a running turn of an unbound session: the turn can still end without the prompt's context ending if and only if a containment or generation end that read it is under way, or a worker holds the record of its end. |
| `SettlementAbandoned.AbandonedForGood` | session.go:396-463 | When none of these is there the turn stays running and the prompt waiting, in every continuation until the host cancels or the session closes. |
| `SettlementAbandoned.LetGoAbandons` | session.go:447-463 | A containment that drops the binding under a waiting prompt leaves the turn so exactly when none of these is there. |
| `SettlementAbandoned.TurnLeftRunning` | session.go:420-463 | A concrete run into it: a containment that began before the turn was installed. |
| `SettlementLeads.CallsCanEnd` | session.go:544-572 | Whatever dialogs and interrupts are open can end without anything else moving, and the callback count is then zero. |
| `SettlementWriters.WorkerEndSeals` | session.go:344-345 | When a worker ends a turn it is the only running worker of the turn's generation. |
| `SettlementWriters.LaterSeals` | session.go:430-457 | What a containment has established at each stage: new queues are late, and after the join every running worker is. |
| `SessionObject.TurnObject.Settle` | session.go:137-142 | The first end wins. |
| `SessionObject.TurnObject.Accept` | session_lifecycle.go:67-79 | The first acceptance accepts the turn, and a refused publication is its failure; later ones change nothing. |
| `SessionObject.TurnObject.Take` | session_updates.go:78-92 | A record that bears work accepts the turn, a refused acceptance fails it, and the first native id names the cycle unless the record is a compaction; says whether the record is foreign and the cycle cancelled. |
| `SessionObject.TurnObject.Project` | session_updates.go:78-148 | What a projected record does to the turn: nothing when foreign, only its end when cancelled, else the failure it carries or the host's refusal of its update, or its settlement; a compaction fails it only by a refusal. |
| `SessionObject.SessionObject.Attribute` | session.go:306-336 | The turn a record counts for: none for an unbound session, an idle one, or a record of the terminalized turn. |
| `SessionObject.SessionObject.Stamp` | session.go:338-342 | The record is taken by its turn, with the host accepting or refusing the acceptance: the machine's step. |
| `SessionObject.SessionObject.Project` | session.go:341-345 | The record is projected, with the host accepting or refusing its update, and settles its turn exactly when the machine parks the worker. |
| `SessionObject.SessionObject.Bind` | session.go:153-172 | Binds the session on a generation, the machine's rebind, and takes the thread's path and reporting; a model the session has stays, and its window is looked up. |
| `SessionObject.SessionObject.TakeThread` | session.go:160-171 | What the session takes from its thread, with the model's two fallbacks. |
| `SessionObject.CatalogContextWindow` | session.go:174-182 | The window of the first model with the id, and none when no model has it. |
| `SessionObject.SessionObject.Install` | session_prompt.go:205-216 | Installs a fresh turn: the machine's install. |
| `SessionObject.SessionObject.Cancel` | session.go:479-524 | Marks once, tells every dialog, and starts an interrupt exactly when the machine's cancel does. |
| `SessionObject.SessionObject.BeginSettlement` | session.go:528-532 | Closes callback admission and tells every dialog: the machine's step. |
| `SessionObject.SessionObject.ClaimCancellation` | session.go:537-542 | Returns the mark the verdict is fixed with. |
| `SessionObject.SessionObject.RegisterDialog` | session.go:544-562 | Registers an entry exactly when the machine does not refuse the dialog. |
| `SessionObject.SessionObject.Unregister` | session.go:564-571 | Counts the callback down and unmaps the id only while it still holds this entry. |
| `SessionObject.SessionObject.CancelDialogs` | session.go:574-586 | Every mapped dialog is told, and nothing else. |
| `SessionObject.SessionObject.RuntimeEnds` | session.go:378-391 | Marks the generation lost and captures the turn only when the session is bound on it. |
| `SessionObject.SessionObject.ContainBegins` | session.go:420-435 | The same for a containment; a session bound elsewhere is left alone. |
| `SessionObject.SessionObject.MarkClosing` | session.go:618-646 | Marks the session closing and its turn cancelled, and tells every dialog. |
| `SessionObject.SessionObject.Remove` | session_prompt.go:220-229 | Removes the turn and remembers the native turn it terminalized. |
| `RegistryTheorems.SlotsNeverExceeded` | agent_session.go:99-150 | In every run installed sessions plus reservations not yet installed never exceed the limit, and `starting` is exactly the reservations not given back. |
| `RegistryTheorems.ReleasedOnce` | agent_session.go:113-114 | Each reservation is given back exactly once, on every path its request can end. |
| `RegistryTheorems.NoSlotLeaks` | agent_session.go:99-114 | With no establishing request under way `starting` is zero and a slot is refused exactly when the table is full. |
| `RegistryTheorems.HandedOverWithoutGap` | agent_session.go:251-259 | Installing and handing over neither free a slot nor take a second. |
| `RegistryTheorems.TombstoneWins` | agent_session.go:816-821 | After the tombstone nothing is installed under the id and it never resolves, in any continuation. |
| `RegistryTheorems.DeletedStaysGone` | agent_session.go:816-834 | Once a delete has detached its session the id is out of the table for good. |
| `RegistryTheorems.ClosedStaysEmpty` | agent.go:247-278 | After Close the table is empty and stays so, and every resolve and reservation is refused as closed. |
| `RegistryTheorems.NeverReplaced` | agent_session.go:122-139 | No step puts another session in the place of an installed one. |
| `RegistryTheorems.StepGoesOn` | agent_session.go:117-150 | No step installs under a deleted id, installs anything once closed, or takes back a tombstone. |
| `RegistryTheorems.ResolvesExactly` | agent_session.go:886-905 | An id resolves exactly when the agent is open and the id has a session and is not deleted, and then to that session. |
| `RegistryTheorems.InstalledResolves` | agent_session.go:117-150 | After an install that nothing refuses, every continuation without the id's tombstone, a detach of that session and the agent's close resolves the id to that very session. |
| `RegistryRequests.RequestEstablishes` | agent_session.go:99-150 | A request that asks for a slot while there is room can establish its session: the id resolves to it, the slot is given back once, nothing else changes. |
| `RegistryRequests.NewSessionIsInstalled` | agent_session.go:200-283 | A new session is installed whenever there is room. |
| `RegistryRequests.RestoreLooks` | agent_session.go:333-410 | A restore of a deleted id is refused, the live session of the same carrier is the answer, that of another one is closed first, and else a slot is asked for. |
| `RegistryRequests.ReplacedIsClosed` | agent_session.go:333-410 | A live session of another carrier is out of the table before a slot is asked for. |
| `RegistryRequests.FailedIsUndone` | agent_session.go:155-197 | A session whose opening failed is taken out again. |
| `RegistryRequests.DeleteTakesOut` | agent_session.go:778-834 | A delete leaves the id deleted and without a session, and looks into the store only for a session that is kept. |
| `RegistryRequests.CloseEmptiesTheTable` | agent.go:247-278 | The agent's close can close every session of the table one by one and ends with an empty one. |
| `Registry.AgentTable.ReserveSlot` | agent_session.go:99-114 | Refuses for a closed agent or a full table, else counts one more starting and returns a release. |
| `Registry.AgentTable.Release` | agent_session.go:113-113 | Gives the slot back the first time only. |
| `Registry.AgentTable.Install` | agent_session.go:117-150 | Refuses in the source's order (closed, deleted, present), else installs. |
| `Registry.AgentTable.Detach` | agent_session.go:917-929 | Removes the id only while it resolves to this session. |
| `Registry.AgentTable.Tombstone` | agent_session.go:816-820 | Marks the id deleted and returns the live session. |
| `Registry.AgentTable.Resolve` | agent_session.go:877-906 | Returns the id's session exactly when the agent is open and the id is installed and not deleted; a deleted id resolves like one that never existed. |
| `Registry.AgentTable.Close` | agent.go:247-278 | The first call closes every session of the table once, empties it and stops the runtime; a second changes nothing. |
| `SessionClose.LadderRunsOnce` | session.go:618-630 | The ladder has one runner, and every caller that returns returns the same result. |
| `SessionClose.NeverFirstWriter` | session.go:676-694 | Close writes only a session that its establishment, a turn or a change of an option committed before; an ephemeral one is never written. |
| `SessionClose.UncommittedStaysUnwritten` | session.go:675-683 | A session its close found uncommitted is never written afterwards by anyone. |
| `SessionClose.GateHoldsOne` | session.go:603-616 | The gate passes on only through being free, each holder gives it back itself, and the establishment, a turn or an option is written only by the one that holds it. |
| `SessionClose.FirstCloseReturns` | session.go:618-708 | A first close that finds the gate free goes up the ladder by its own steps, writes a session that had been written exactly once and no other, and returns how that went. |
| `SessionClose.LaterCloseReturns` | session.go:618-630 | A later close returns the first one's result. |
| `SessionClose.ForegroundCommits` | session.go:603-616 | A turn or a change of an option enters exactly while nothing closes and nobody holds the gate, and is written. |
| `RpcTheorems.OneFrameOrClosed` | internal/codex/rpc.go:309-354 | A call's waiter gets at most one frame, a response with the call's own id, or is closed, never both. |
| `RpcTheorems.ReaderNeverBlocks` | internal/codex/rpc.go:309-320 | Whenever the reader hands a response over, the waiter is empty and open. |
| `RpcTheorems.IdsNeverReused` | internal/codex/rpc.go:138-138 | No two calls carry the same id. |
| `Decimals.DecimalInjective` | internal/codex/rpc.go:138-138 | Printing call numbers in decimal is injective. |
| `RpcTheorems.FinishedStaysEmpty` | internal/codex/rpc.go:231-242 | After finish the pending map is empty for good and every registration fails. |
| `RpcTheorems.NobodyHangs` | internal/codex/rpc.go:341-349 | After finish every awaiting call has its answer or sees its waiter closed. |
| `RpcTheorems.UnawaitedIsDropped` | internal/codex/rpc.go:311-320 | A response for a call that is not waiting changes nothing but the stream position. |
| `RpcTheorems.StreamOrder` | internal/codex/rpc.go:321-336 | The consumer gets requests and notifications in stream order, none skipped or twice; NamedAreDelivered says which frames these are. |
| `RpcTheorems.NamedIsOffered` | internal/codex/rpc.go:321-339 | A frame with a method name, with an id or without, is the next thing the consumer is offered, and touches no call. |
| `RpcTheorems.UnnamedIsAnswerOrNothing` | internal/codex/rpc.go:309-320 | A frame with an id and no name goes to the call that waits for the id, if one does; one with neither goes nowhere. |
| `RpcTheorems.NamedAreDelivered` | internal/codex/rpc.go:309-339 | In every run: while the reader reads, the consumer has got exactly the frames with a method name, and of them the requests and the notifications are each complete and in order. |
| `RpcTheorems.CallIsAnswered` | internal/codex/rpc.go:133-181 | While the reader reads, a new call registers, writes, and is answered with the response that carries its id, whatever else is pending; nothing else changes. |
| `RpcTheorems.CallReceives` | internal/codex/rpc.go:150-181 | A call that awaits gets the frame in its waiter, and is disconnected only when the waiter is closed without one. |
| `RpcTheorems.CallCanLeave` | internal/codex/rpc.go:150-181 | A call that gives up or whose write fails takes its id back and changes nothing else. |
| `RpcTheorems.StreamEndFinishes` | internal/codex/rpc.go:266-354 | When the stream ends the map is emptied, every call it held has its waiter closed, no other is touched, and the consumer's streams are closed. |
| `RpcClient.Client.RegisterPending` | internal/codex/rpc.go:231-242 | Registers unless the transport failed. |
| `RpcClient.Client.UnregisterPending` | internal/codex/rpc.go:244-249 | Withdraws one id. |
| `RpcClient.Client.Dispatch` | internal/codex/rpc.go:309-339 | One frame by its two fields: with a name to the consumer, with an id alone to its waiter, with neither dropped. |
| `RpcClient.Client.Finish` | internal/codex/rpc.go:341-354 | Closes every pending waiter, empties the map, closes the streams. |
| `RpcClient.Client.ReadLoop` | internal/codex/rpc.go:266-294 | Over any stream each pending waiter gets the first response with its id or is closed, and the consumer gets the frames with a name, with an id or without, in order up to where its context ended. |
| `RpcClient.FirstResponseIsFirst` | internal/codex/rpc.go:311-314 | What the loop hands over is the earliest response with the id. |
| `UsageTheorems.PathsAgree` | session_updates.go:272-325 | From a common baseline, for every history of completions and reports of requests, foreign requests, restatements and compaction estimates, and a cancel at any moment or none, both paths end with the same sum; they send the same figures in the same order if and only if every request that is sent at its completion is reported before the cancel and before an estimate is sent. |
| `UsageTheorems.CancelCanCutApart` | session_updates.go:272-325 | One failing input: a request cancelled between its completion and its report is sent by the response path and not by the cumulative one, and counted by both. |
| `UsageTheorems.EstimateCanCross` | session_updates.go:304-325 | The other: an estimate between the two is sent after the request on the one path and before it on the other. |
| `UsageTheorems.ResumedEqualsStarted` | session_updates.go:221-230 | The same, with the same condition, for a resumed session whose baseline was read from the rollout of everything before. |
| `UsageTheorems.BaselineIsNative` | internal/codex/rollout.go:164-186 | What a thread's whole rollout last recorded is what the thread last reported. |
| `UsageTheorems.RolloutRemembers` | internal/codex/rollout.go:166-186 | The same from any earlier report on. |
| `UsageTheorems.EachRequestOnce` | session_updates.go:272-325 | On either path the sum counts every request of the turn with a token once and nothing else, whenever the cycle was cancelled. |
| `UsageTheorems.SumIsTotals` | session_updates.go:339-366 | All six figures of the response's sum: input, output and total are plain totals, cached read, cache write and reasoning are totals of the positive counts, absent exactly while no request reported one. |
| `UsageTheorems.SumFromNothing` | session_updates.go:339-366 | A sum that starts from nothing is nothing for no requests, and else the three plain totals and the three totals of the positive counts. |
| `UsageTheorems.TurnSumIsTotals` | session_updates.go:272-366 | Composed: on either path the sum of a turn that starts from nothing is these totals over the requests of the turn's completions, each once. |
| `UsageTheorems.PlainTurnIsSummed` | session_updates.go:272-366 | The ordinary case of it: a turn whose requests complete and are reported one after the other sums up all of them. |
| `UsageTheorems.BreakdownIsTheRequests` | session_updates.go:244-258 | The breakdown carries the request's own cached read, cache write and output, and as input what these leave of its input, unless that is negative. |
| `UsageTheorems.BreakdownAddsUp` | session_updates.go:244-287 | A well-formed request with a token sends one update whose breakdown adds up to its total; one without sends and counts nothing. |
| `UsageTheorems.WindowsAgree` | session_updates.go:331-336 | The window beside a request's figures agrees on both paths exactly when the gateway states one or codex had reported the same before its completion. |
| `UsageTheorems.WindowsCanDiffer` | session_updates.go:331-336 | Every first request of a new thread without a window from the gateway: sent with none on the one path and with codex's on the other. |
| `Usage.UsageMeter.ObserveUsage` | session_updates.go:211-219 | Swaps in the report and returns the one it replaces. |
| `Usage.UsageMeter.RestoreUsage` | session_updates.go:224-230 | The backward loop finds the last recorded usage. |
| `Usage.UsageMeter.RecordRequest` | session_updates.go:272-287 | Records one request as the model's Recorded says; what the sum is then, SumFromNothing and SumIsTotals state in totals. |
| `Usage.UsageMeter.EmitResponseCompleted` | session_updates.go:293-299 | Records only on a thread that reports its responses. |
| `Usage.UsageMeter.EmitTokenUsage` | session_updates.go:308-325 | A moved total, a restatement and an estimate are told apart as the model says. |
| `Pacing.PacingBounds` | image_output.go:67-94 | Over any deltas at monotone times: doubling deliveries carry at most twice what was last delivered and with the terminal at most three times the output, timed ones at most 64 KiB a second but for a nanosecond each, two seconds apart, and less waits than was delivered. |
| `Pacing.AccountIsTrue` | image_output.go:166-188 | The account is of the bytes sent: every content is all text so far, and the two sums add up to all of them. |
| `Pacing.DeliversWhenDue` | image_output.go:81-94 | A delta delivers exactly when the output doubled or its wait is over. |
| `Pacing.CycleTools.State` | image_output.go:96-108 | The tool's state, created on first use. |
| `Pacing.CycleTools.PublishPendingTool` | image_output.go:112-137 | Announces a tool once. |
| `Pacing.CycleTools.PublishToolStart` | image_output.go:139-162 | Announces a tool, or updates one that is announced. |
| `Pacing.CycleTools.PublishToolDelta` | image_output.go:166-188 | Adds the text and sends all output so far exactly when due. |
| `Pacing.CycleTools.PublishToolTerminal` | image_output.go:192-259 | Sends the complete output, else the item's own content, and then the diff of each change, after announcing a tool that was not; forgets the tool even when the host refuses. |
| `Pacing.AnnouncedOnce` | image_output.go:112-162 | With a host that takes announcements each life of a tool has exactly one, whatever deltas, starts and other tools come between. |
| `Pacing.NamedApart` | image_output.go:96-108 | Two tools share a state only under the same id, the empty one standing for "codex-tool". |
| `Pacing.EndIsComplete` | image_output.go:192-236 | The end of a tool sends its complete output, whatever was sent before, else the item's own. |
| `Pacing.DiffsAreTheChanges` | image_output.go:241-259 | The diffs sent are those of the changes that have one, each as often as it is there. |
| `Repair.RepairCallArguments` | internal/codex/rollout.go:229-247 | The loop over the output buffer: the pointwise repair and its count, or the first row that does not decode. |
| `Repair.RepairCallRow` | internal/codex/rollout.go:249-282 | One row, and whether it was rewritten. |
| `Repair.RepairedRow` | internal/codex/rollout.go:249-282 | A repaired row is the row with the call's arguments replaced and nothing else, is no longer broken, and is left alone by a second repair. |
| `Repair.RepairedRows` | internal/codex/rollout.go:226-247 | Repair is pointwise, leaves no broken call and every other row, and is idempotent. |
| `Repair.CountIsChanged` | internal/codex/rollout.go:229-247 | The count is the number of rows that changed. |
| `Repair.RepairedStaysPrefix` | session_store.go:280-294 | A stored prefix stays a prefix when both sides are repaired, also when the native side had been repaired before. |
| `Repair.RowsThatDecode` | internal/codex/rollout.go:61-82 | A row decodes exactly when it is an object with a non-empty type and a payload that is missing or an object. |
| `Repair.BrokenCalls` | internal/codex/rollout.go:249-270 | A row is a broken call exactly when it is a response item that holds a function call whose arguments are not a text of valid JSON. |
| `Repair.RepairWrites` | internal/codex/rollout.go:270-282 | A broken call is rewritten with "{}" as its arguments, every other row is left. |
| `Restore.RestoreNeverDisagrees` | session_store.go:280-312 | Whatever turns, repairs, lost rollouts and crashes came before, at whichever point, a restore never finds store and rollout in disagreement. |
| `Restore.CommitMirrors` | session_prompt.go:483-488 | A commit always leaves the store equal to the rollout, also after a turn-time repair rewrote it. |
| `Restore.DirtyRestoreCleans` | session_store.go:285-312 | A restore of a store with a broken call goes through and leaves both sides equal and clean. |
| `Restore.CleanRestoreAdopts` | session_store.go:213-269 | A restore of a clean store goes through, and what it leaves is clean exactly when the rollout was. |
| `Restore.TurnIsMirrored` | session_prompt.go:483-488 | A running session appends a row and commits it: the store is then the rollout with the row, whatever repair it owed. |
| `Restore.TurnRepairIsMirrored` | session_prompt.go:476-500 | A repair during a turn rewrites every broken call of the rollout, and the next commit the store with it. |
| `Restore.FailuresKeepBoth` | session_store.go:285-312 | A commit, a republication or an adoption that fails changes neither history, and histories that disagree are kept apart. |
| `Restore.BeginsWhenRowsDecode` | session_store.go:285-301 | A restore and a repair begin exactly when every row they look at decodes. |
| `Restore.StoreFirstWouldDisagree` | session_store.go:291-301 | Repairing the store before the rollout would let a crash make the next restore fail. |
| `RolloutNames.ValidThreadID` | internal/codex/rollout.go:113-127 | The loop accepts exactly the ids of 1 to 128 safe characters. |
| `RolloutNames.RelocatedIsPrinted` | internal/codex/rollout.go:132-162 | Relocating a printed path gives the path printed under the new home, exactly for years 0 to 9999. |
| `RolloutNames.PrintedParses` | internal/codex/rollout.go:154-158 | A printed stamp parses back to its fields. |
| `RolloutNames.StampEnds` | internal/codex/rollout.go:145-158 | No stamp goes on with a dash. |
| `RolloutNames.NameBelongsToOneThread` | internal/codex/rollout.go:142-162 | Any recorded file name relocates under one thread id at most. |
| `RolloutNames.OtherThreadRefused` | internal/codex/rollout.go:142-152 | A printed path is refused under every other thread id. |
| `RolloutNames.LateYearIsLost` | internal/codex/rollout.go:132-162 | A path printed in the year 10000 is not relocated. |
| `RolloutStamps.RelocatesExactly` | internal/codex/rollout.go:142-162 | A recorded path whose last element is "rollout-", the stamp of an existing date and time, "-", the thread's id and ".jsonl" relocates to that name under the stamp's day in the new home. |
| `RolloutStamps.RelocatedHasForm` | internal/codex/rollout.go:142-162 | And no other path relocates under the id. |
| `RolloutStamps.ParsesExactly` | internal/codex/rollout.go:154-158 | A text is read as a stamp exactly when it is that of an existing date and time, in four-digit years, with the hour in one digit or two and perhaps a fraction. |
| `RolloutStamps.PathIsWritten` | internal/codex/rollout.go:132-140 | A path, written out: the day's directories are year, month and day, in this order, and the name has them again. |
| `Replay.Replay` | session_replay.go:37-115 | Nothing is delivered before every row and image was looked at; then the host gets what the model says up to the first update it refuses, and the end says whether it was delivered, refused by the replay, or by the host. |
| `Replay.AttemptIsReplay` | session_replay.go:37-115 | A host that refuses nothing gets exactly what ReplayAll delivers, and a refusal of the replay is ReplayAll's. |
| `Replay.Emit` | session_replay.go:90-92 | Updates are sent one by one up to the first the host refuses. |
| `Replay.DeliverRow` | session_replay.go:74-104 | One row of the loop: its updates, and a stored image its output stands for. |
| `Replay.ObserveKinds` | session_replay.go:42-53 | The kinds of event rows, or a row that does not decode. |
| `Replay.Capture` | session_replay.go:55-70 | The stored images by id, refused for an empty or repeated id or bytes the gate refuses. |
| `Replay.DeliverRows` | session_replay.go:74-104 | The delivery loop up to its end, a row that is refused, or an update the host refuses, and what was sent by then. |
| `Replay.DeliverMissing` | session_replay.go:106-112 | The images no row delivered. |
| `ReplayTheorems.OneSourceEach` | session_replay.go:129-198 | User, agent and reasoning text each come from one source only, in row order and complete: events when there is one of that voice, else response items; compactions add thoughts. |
| `ReplayTheorems.KindsSeeEvents` | session_replay.go:132-141 | The recorded kinds say exactly whether an event row of a voice is there. |
| `ReplayImages.StoredImageDelivered` | session_replay.go:72-112 | Every stored image is delivered, and exactly once if and only if no generation row carries its id, or one does and no tool output with the id comes before it (and no generation row without an id was announced under the same name). |
| `ReplayRows.StoredBytesDelivered` | session_replay.go:72-127 | Whatever is delivered under a stored image's id is that image's own bytes, be it by a row or at the end. |
| `ReplayRows.RowIsDelivered` | session_replay.go:74-104 | One row sends its own updates and, for a tool output under the id of a stored image not sent yet, that image, which then counts as sent. |
| `ReplayRows.ToolRows` | session_replay.go:179-250 | Calls are announced under their id, else their title, outputs update their call unless they name none, and no other item is a tool. |
| `ReplayRows.GenerationRows` | session_replay.go:252-271 | A generation row is announced, and fails without bytes, is refused with bytes that are not admitted, and else carries its bytes. |
| `ReplayRows.SpokenRows` | session_replay.go:179-222 | A message speaks only for a user or an assistant without events, reasoning only without reasoning events, and each only with a text. |
| `ReplayImages.DeliveredTwice` | session_replay.go:80-103 | A concrete conversation in which a stored image is delivered twice. |
| `ReplayImages.SpliceIsEncode` | session_store.go:200-211 | Splicing an item into the encoded array is encoding the extended list. |
| `ReplayImages.IncrementalIsWhole` | session_store.go:198-211 | A session that keeps its images encoded holds what encoding all of them would give. |
| `Options.PrintMeta` | session_meta.go:125-165 | Prints exactly the non-zero fields. |
| `Options.ReadOptions` | session_meta.go:265-318 | The loop over the keys, in any order: all accepted or none. |
| `Options.ParseCodexOptions` | session_meta.go:265-324 | The keys' refusal comes before the environment's; what is accepted is the options the values say. |
| `Options.ParseSessionMeta` | session_meta.go:202-263 | The owned namespace: unknown keys and malformed values are refused, absent ones default. |
| `Options.RoundTrip` | session_meta.go:125-324 | Parsing printed options succeeds exactly for options a host may send (no empty schema, non-empty policies, acceptable environment) and returns them with the right presence flags. |
| `Options.PrintedAccepted` | session_meta.go:265-337 | Printed values are accepted exactly for such schemas and policies. |
| `Options.AcceptedForms` | session_meta.go:265-337 | Which form each key's value must have; nothing is accepted under an unknown key. |
| `Options.ReadFromItsKey` | session_meta.go:265-318 | Each option is read from the value under its own key and from no other. |
| `Options.PrintedStandsUnderItsKey` | session_meta.go:125-165 | Each option that is not empty is printed under its own key. |
| `Options.MetaIsRead` | session_meta.go:202-263 | What a request's meta is read as, each setting from its own key, and the order in which its parts are refused. |
| `Carrier.InheritTwice` | agent_session.go:562-602 | Inheriting from what was inherited changes nothing. |
| `Carrier.SameCarrierNames` | agent_session.go:545-559 | A request is judged the same carrier exactly when every field it names is the live session's. |
| `Carrier.InheritedFields` | agent_session.go:562-602 | Each field is the request's when it names one, else the stored one's. |
| `Carrier.StoredFields` | session_store.go:44-53 | What is stored is the options field by field, with an empty environment, list or schema as none. |
| `Carrier.BoundModel` | session.go:160-168 | The model of a bound session is the requested one, else the thread's, else the agent's default. |
| `Carrier.PrintsDistinguish` | agent_session.go:555-558 | Comparing printed metas compares the options. |
| `Carrier.RestoredIsSameCarrier` | agent_session.go:413-456 | A session just restored for a request judges that request as the same carrier, whatever the store held and whatever model its thread or the agent gave it. |
| `Carrier.StoredOnce` | session_store.go:44-53 | What the store gives back does not change by being stored again, and inheriting from it gives it. |
| `Carrier.RestoredRecordReadsBack` | session_store.go:159-175 | The record a restore leaves passes the store's check exactly when its stored environment and path directories are acceptable together, and then reads back as the stored form of what the session runs under. |
| `Carrier.JudgedApartReadsBack` | agent_session.go:562-573 | When the environment and the path directories are judged each by itself, every record a restore leaves passes the check, whichever parts came from the request and whichever from the store. |
| `Redaction.ElsewhereEqual` | session_updates.go:419-443 | At every path outside a redacted payload the copy holds the redacted original and nothing else. |
| `Redaction.LeavesKept` | session_updates.go:419-443 | Every leaf outside a redacted payload is kept. |
| `Redaction.NoImageLeft` | session_updates.go:427-430 | Nowhere in the copy, at any depth, is there an image item with a payload. |
| `Redaction.SizeRecorded` | session_updates.go:427-430 | A redacted payload is the empty string beside the size of its bytes. |
| `Redaction.RedactsOnce` | session_updates.go:416-443 | Redacting again changes nothing. |
| `Redaction.ImagesAreRedacted` | session_updates.go:419-449 | An object is redacted exactly when its type is one of the three image items' and its result a non-empty text; its copy holds the empty result beside the size of its bytes, and every other field. |
| `Redaction.HiddenIsUnderAnImage` | session_updates.go:419-443 | Redacted are exactly the places in or under the payload, or the size, of an image item. |

## Assumed of code outside the repository

- The lifecycle publisher: publishing after a fence does nothing and reports no error.
- The session mirror: a commit writes the whole owed history or leaves the store as it was;
  hydration adopts the longer of two histories that agree where both have rows, else fails.
- codex reports each request that completes once, before the next completes (the comment at
  `session_updates.go:299-303`).
- The session gate holds one token. A call's usage is known when some figure reports a token.
- The JSON library: an encoded tree decodes to itself. The image library admits no empty bytes.
- `Options.Wire`: the library's two judgements of an environment and its path directories, whether
  a request may name them and whether a thread's environment can be built from them, are any predicates.

## Left out

- Process launch, signals, pipes, file locks, the file system and HTTP: nondeterministic steps, or not modelled.
- Liveness: timers and contexts are events that may fire at any time; no bound on waiting is claimed.
- Dialog contents: what a permission, question or elicitation asks and how its answer is rendered is a branch table; a dialog is only opened and answered.
- Streamed text, plans, titles, account usage, gateway configuration, menus, telemetry and the command line are plumbing and not part of this model.
- `acp-go-core` and the protocol SDK are not part of this model; what is assumed of them is listed above.
- Which session a record's thread resolves to (`sessionByThread`) is left open in the delivery machine: any record may go to any session.
- The receive loops of `pump` and `pumpSession` are steps of the delivery machine, not methods: their interleaving with other goroutines is what matters.
- Settlement.OtherDoes: UnmapDialog may drop any mapped dialog, and RequestAccepts may accept any turn while some dialog is open, because the handlers behind them are not tracked; both allow more than the code does.
- Settlement.ContainDoes: whether the session was closing is read where the binding is dropped, not where the containment began; it matters only for the fence of a session without a turn.
- SettlementTheorems.NothingWritesAnsweredTurn: speaks of workers; the failure a containment records and the mark of a cancel are the other two writers `AnsweredTurnWriters` names.
- DeliveryTheorems.JoinedWorkersMove: a handler that runs is taken to return; what may keep it is the host's answer to a dialog, which the containment cancels.
- SettlementWaits.JoinedWorkerCanLeave: a condition of the run, for every containment; that of a state, for the prompt's own, is `SettlementStuck.SticksExactly`.
- SettlementWrites.AnsweredTurnTakes: is about records a cycle takes in. A worker can also name, accept or fail a turn without that, as `SettlementTheorems.AnsweredTurnWriters` allows.
- Settlement.Judge: reads the failure and the stop in one step; the source reads the stop without a lock after the failure.
- Settlement.PromptDoes: opening the stream is reduced to lifting its fence; sampling the torn tail of a rollout before a rebind is not modelled.
- Registry.RequestDoes: the one-restore-per-id lock and the session gate are not modelled; without them more interleavings are allowed.
- SessionClose.Apply: the republication of a repaired history by a restore comes before the session is installed and is `Restore`'s.
- Rpc.IdOf: call numbers are unbounded; the source's 64-bit counter does not wrap within any feasible run.
- RpcClient.Client.ReadLoop: runs without interleaved calls; the interleavings are proved on the Rpc machine. Lines that are no JSON-RPC frames are skipped before it.
- Usage.Plus: token counts are unbounded integers; 64-bit overflow of a thread's total is not modelled.
- Pacing.Wait: durations are unbounded; the source's 64-bit nanoseconds overflow for outputs beyond nine gigabytes. Image tool calls are not part of the pacing model.
- Repair.RowKind: keys are matched exactly; Go's case-insensitive matching of struct keys, and repeated keys in one object, are not modelled.
- Restore.Apply: torn tails and rows that do not open with the session's identity are the mirror's refusals and not modelled.
- RolloutNames.Join: homes are clean paths with forward slashes.
- Replay.ReplayAll: what a host that refuses nothing gets; `Replay.Replay` models a host that refuses, as one that takes a number of updates and then none. A dead context is such a host.
- Replay.ToolCall: kinds, raw inputs and raw outputs of replayed tool calls are not carried.
- Options.ParsedMeta: a refusal does not name the key it refuses, since the source reports whichever of several it meets first.
- Carrier.Record: title, mode, images, native id and path of a record are carried over unchanged by a restore and not part of the model.
- Carrier.Restore: of a restore's steps the inheritance, the building of the thread's environment and the binding are modelled here; hydration is `Restore`, the slot and the table are `Registry`.
- Redaction.Redact: payload lengths are in characters of the decoded string.
