# Ezra's durable spine, in Dafny

Ezra is a household assistant that lives in a chat.  Messages become rows of an inbox, drains turn rows into
batches, batches become agent turns, turns park risky tool calls for a human to approve, and replies leave over a
reconnecting WhatsApp adapter.  Every step of that path may crash and be replayed.  This project models the path as
transition systems over its steps, models the code between the steps as imperative methods, ties the two together,
and proves what the path promises over every run.

Everything outside the repository is an arbitrary environment with a short contract: Postgres (unique keys, guarded
updates under a row lock, serial order is commit order), the durable-workflow engine (a transactional step commits its
write with its checkpoint; a plain step may run again before its checkpoint; a workflow id starts at most one workflow;
the partition slot admits one drain and is kept across recovery), the model, the members, WhatsApp, and Google Calendar
(put-if-absent on the event id).

| files | part of the system |
|---|---|
| `Approvals`, `ApprovalSafety`, `ApprovalPrompts`, `ApprovalContent`, `ApprovalRefine`, `ApprovalWitnesses`, `ApprovalStore`, `Calendar`, `Tools` | human approval: parking, prompts, quoted and classified decisions, refinement, expiry, the calendar |
| `Debounce`, `Lane`, `LaneSafety`, `LaneQuiet`, `LaneBatches`, `LaneTheorems`, `LaneWitness`, `Drain` | the conversation lane: enqueue, drain, silence window, batches |
| `Durable`, `Transcript`, `Turn`, `TurnSafety`, `TurnDurable`, `TurnOutcome`, `TurnRecord`, `TurnContext`, `TurnRouting`, `TurnVerdicts`, `TurnCompaction`, `HandleTurn`, `ProcessBatch` | the turn workflow, its transcript, and what follows it |
| `Transport`, `Disconnects`, `BaileysTransport`, `WaVersion`, `Health`, `HealthMonitor`, `Delivery`, `SendPath`, `ReplyDelivery` | reconnecting, alerting, delivering |
| `Sweeps`, `SweepLoop`, `Ingest` | the scheduled sweeps and ingestion |
| `Fence`, `Facts`, `FactStore`, `FactWords`, `WallTime` | string and time kernels |

How the parts are stated:

- A protocol is a total step function `Next` over labels; a label that is not enabled leaves the state alone, so a run is
  any sequence of labels and a theorem about `Run` is about every interleaving.  Where a step reads and later writes, the
  two are different labels.
- The turn is a deterministic program driven by step answers (`Turn.Ask`, `Turn.Next`).  `HandleTurn.HandleTurn` is the
  workflow's own loops over mutable locals, proved to ask for exactly that program's steps; `Durable.CrashRefinement`
  then carries every property of the program over crashes and replays.  What the program does is stated over its record,
  the steps it asked for with their answers (`TurnOutcome`, `TurnRecord`, `TurnContext`, `TurnVerdicts`, `TurnCompaction`).
- Classes hold the variables the source updates in place, and each method's contract equates the new state with the step
  function's result.
- Where a promise fails, there is a run that shows it, and a theorem over every run that says when it holds: a settled
  row's columns (`ApprovalPrompts.SettledRowIsFinalIff`), the content of an executed action's event
  (`ApprovalContent.ExecutedContentIff`), stale events of an abandoned attempt (`Transport.StaleEvents`), near-duplicate
  fact keys (`FactStore.GuardFailsIff`), wall times (`WallTime.ReadsBackIffExists`), the fence (`Fence.FenceHolds`).

Where the code says something its comments do not:

- An armed connect watchdog always carries the current attempt's id, so the staleness check inside its callback never
  refuses (`src/transport/baileys.ts:274-280` explains it as the guard); `Transport.NeverWedged`.
- A background start that rejects after its attempt was abandoned clears the live attempt's watchdog and spends a retry of
  its own (`src/transport/baileys.ts:302-308`): `Transport.LateRejectionSpendsTwice` shows the live start running
  unwatched, `Transport.StaleEvents` says exactly which late events spend budget, and `Transport.UnwatchedIff` exactly what
  takes a running start's watchdog.  The adapter still cannot wedge.
- `fenceUntrusted` keeps a source label from closing the fence only if the label does not end in the close marker short of
  its last character, because a guillemet follows the label (`src/agent/untrusted.ts:35-37`); `Fence.FenceHolds`.
- A prompt stamp is status-blind, so an expired row can still receive one (`src/memory/store.ts:323-345`);
  `ApprovalWitnesses.ExpiredRowIsStamped`, and `ApprovalPrompts.SettledRowIsFinalIff` for exactly when.
- The stub transport honours the acknowledgement contract of ingestion; on the real socket the acknowledgement is a no-op
  (`src/transport/baileys.ts:202-212`), so `Ingest.NoMessageLost` is about the contract, with redelivery by the server.

## Model

| member | source | states |
|---|---|---|
| ApprovalSafety.EveryRunIsSafe | src/hitl/resolve-approval.ts:98-204 | In every interleaving of quoted and classified decisions, refinements, prompts, sweeps, lost answers and crashes: no committed row is 'approved', 'executed' is committed at most once and exactly for executed rows, an event id is once on a calendar, and an event of an unexecuted action comes from an attempt that landed and was then lost, or whose commit is due |
| ApprovalSafety.ApprovedIsShown | src/hitl/approval-prompt.ts:52-90 | With the serial lane: a quoted approval runs exactly the arguments its prompt showed, an executed action's event is on the stored owner's calendar, a stamp binds a prompt that shows the current call, and no prompt binds two actions |
| ApprovalPrompts.SupersededPromptIsInert | src/hitl/refine-action.ts:83-91 | Once a refinement or a newer stamp took an action's prompt away, that prompt binds no action in any further run, and quoting it opens nothing |
| ApprovalPrompts.GoneForever | src/hitl/approval-prompt.ts:62-87 | A prompt that went out, that nobody is about to stamp and that binds no row never binds one again |
| ApprovalSafety.SettledForever | src/hitl/pending-actions.ts:12-94 | Over any further run a denied, executed, stale or expired action keeps its status, call, conversation and deadline |
| ApprovalPrompts.SettledRowIsFinalIff | src/memory/store.ts:323-345 | In every reachable state, lane or no lane: a settled row keeps every column over every further run if and only if no prompting step still lists it |
| ApprovalPrompts.SettledRowForever | src/hitl/pending-actions.ts:71-94 | With the lane, a denied, executed or stale row never changes again in any column |
| ApprovalContent.ExecutedContentIff | src/hitl/resolve-approval.ts:98-204 | With the lane and event ids that differ: an executed action's owner has the event with exactly the row's arguments if and only if the last refinement applied did not choose arguments that clashed with the calendar; an action that lost no answer always has it |
| ApprovalContent.UnrefinedContentAgrees | src/hitl/refine-action.ts:53-110 | An action not refined after a lost answer is executed with exactly the arguments its row holds |
| ApprovalWitnesses.LaneIsNeeded | src/hitl/resolve-approval.ts:206-233 | Without the lane: a run in which the executed arguments are not the row's |
| ApprovalWitnesses.LaneKeepsStampsHonest | src/hitl/approval-prompt.ts:63-88 | Without the lane: a run in which a stamp binds an action to a prompt that showed its earlier call |
| ApprovalWitnesses.ExpiredRowIsStamped | src/memory/store.ts:323-345 | With or without the lane: a run in which a stamp lands on an expired row |
| ApprovalWitnesses.LostResponse | src/hitl/resolve-approval.ts:163-203 | A run after which a row is pending again while its event is on the calendar |
| ApprovalWitnesses.RefineAfterLostResponse | src/hitl/refine-action.ts:83-91 | A run in which a refinement after such a lost answer is approved: the executed row holds the refined call, the calendar keeps the first event and gets a second only for another owner |
| ApprovalStore.SettleDecision | src/hitl/resolve-approval.ts:98-204 | The settle core: its outcome, the row's new status and the calendar after it, for every decision, stored call, revalidation and create answer |
| ApprovalStore.SettleIsItsSteps | src/hitl/resolve-approval.ts:98-204 | Run without interleaving, the protocol's settle steps do what the settle core does |
| ApprovalStore.ResolveApprovalReply | src/hitl/resolve-approval.ts:206-219 | A quoted reply binds by conversation and stamp; an unbound or unclear one changes nothing |
| ApprovalStore.ResolveClassifiedDecision | src/hitl/resolve-approval.ts:221-233 | A classified decision settles the named action of its own conversation only |
| ApprovalStore.RefineAction | src/hitl/refine-action.ts:53-110 | A refinement applies exactly when the action is the conversation's, parses merged and is pending; the row then holds what the tool read from the stored arguments with the patch's fields over them, without a stamp; otherwise nothing changes |
| ApprovalStore.RefinedCallKeepsIdentity | src/hitl/refine-action.ts:69-91 | A refined call keeps its tool-use id and tool name |
| ApprovalRefine.RefinedCallPatches | src/hitl/refine-action.ts:74-86 | The merge, field by field: the fields of both, the patch's where both have one; the refined call holds what the tool read from exactly that, and there is none exactly if the call does not parse or the tool refuses the merge |
| ApprovalRefine.CallIsPatched | src/hitl/refine-action.ts:83-91 | With the lane, over any further run: an action's call is the one it had with the committed patches merged in, one over the other in commit order, and nothing else changes it |
| ApprovalRefine.ParkedCallIsPatched | src/hitl/refine-action.ts:83-91 | So what a parked call became is its patches, in order, over the parked arguments |
| ApprovalStore.SendApprovalPrompts | src/hitl/approval-prompt.ts:45-90 | Sends and stamps exactly the unstamped rows in order, skips unroutable ones, and stops at the first send that throws |
| ApprovalStore.StampAllStamps | src/hitl/approval-prompt.ts:63-88 | After a pass each listed action carries its own send's id, and no other row changed |
| ApprovalStore.PendingActions.MarkApproved | src/hitl/pending-actions.ts:12-18 | Flips pending to approved, or changes nothing and says so |
| ApprovalStore.PendingActions.MarkDenied | src/hitl/pending-actions.ts:21-27 | Flips pending to denied, or changes nothing and says so |
| ApprovalStore.PendingActions.MarkStale | src/hitl/pending-actions.ts:34-40 | Flips approved to stale, or changes nothing and says so |
| ApprovalStore.PendingActions.MarkExpired | src/hitl/pending-actions.ts:48-54 | Flips pending to expired, or changes nothing and says so |
| ApprovalStore.PendingActions.ReturnToPending | src/hitl/pending-actions.ts:63-69 | Returns an approved or executed row to pending, and no other |
| ApprovalStore.PendingActions.ClaimForExecution | src/hitl/pending-actions.ts:83-94 | Claims an approved row as executed and hands back its stored call |
| ApprovalStore.PendingActions.Park | src/memory/store.ts:278-290 | Inserts a fresh pending row without a stamp, or fails on a taken id |
| ApprovalStore.CalendarClient.CreateEvent | src/tools/calendar-client.ts:192-218 | Put-if-absent on the event id, reading a conflict as success |
| Calendar.IsFree | src/tools/calendar-client.ts:220-225 | Free exactly when no timed event overlaps but the ignored one |
| Calendar.OverlapIsSharedTime | src/tools/calendar-client.ts:220-225 | Windows overlap exactly when they share time |
| Calendar.OwnAttemptIsNoConflict | src/tools/calendar.ts:111-118 | No execute attempt of the protocol, landed, lost or answered, changes what its action's revalidation answers later, for any arguments |
| Calendar.ConflictWithoutExemption | src/tools/calendar.ts:112-114 | Without the exemption an action finds its own landed event in its way |
| Tools.RunTool | src/tools/registry.ts:77-119 | Every call is answered under its own id, parks exactly for confirm-before tools with valid arguments, and a park names its action and inserts its row |
| Tools.ActionIdsDiffer | src/tools/registry.ts:35-37 | Calls of one conversation park under different ids |
| Debounce.GroupIntoBatches | src/orchestration/debounce.ts:22-44 | The batches cut the rows, in serial order and each once, exactly where the thought breaks |
| Debounce.CutIsUnique | src/orchestration/debounce.ts:15-21 | There is only one such cut |
| Debounce.BatchIsMaximal | src/orchestration/debounce.ts:15-21 | Every batch is one proactive item or one sender's consecutive bubbles, and the item before it and the item after it break the thought |
| Debounce.SortSorts | src/orchestration/debounce.ts:23-23 | Sorting permutes the rows into serial order |
| LaneTheorems.ConsumedInOrderOnce | src/orchestration/queue.ts:69-96 | In every run with crashes and failures a conversation's rows are its completed batches in order, each row once, and then what is unprocessed; and each completed batch is maximal among the rows of the read with which some drain of the conversation ended its wait |
| LaneTheorems.TurnsGetMaximalRuns | src/orchestration/queue.ts:86-92 | Every batch a turn was ever started with is such a maximal run, and its lead names the turn |
| LaneTheorems.DrainsWaitUntilQuiet | src/orchestration/queue.ts:78-92 | In every journal of every run: behind a slept window a drain sleeps again if and only if its read brought more rows than the one before and the windows are below the cap; otherwise it goes on to the batches of that very read |
| LaneQuiet.QuietEndsIff | src/orchestration/queue.ts:75-86 | The same of any journal whose answers were asked for: when a wait goes on, when it ends, and with which rows |
| LaneQuiet.QuietBegins | src/orchestration/queue.ts:71-80 | A read at the start or behind a mark ends the drain when it is empty, and otherwise one window is always slept |
| LaneTheorems.NoLostWakeup | src/orchestration/queue.ts:122-132 | While nothing ends in ERROR: no turn id is started with two batches, every unprocessed row has a drain queued or running or its enqueue under way, and a finished drain's message is processed |
| LaneTheorems.QuiescentIsEmpty | src/orchestration/queue.ts:51-58 | A quiescent lane has completed exactly the conversation's rows |
| LaneTheorems.DrainsTerminate | src/orchestration/queue.ts:69-96 | A drain completes at most nine steps per row of its conversation, and one, under any crashes |
| LaneTheorems.DrainsProgress | src/orchestration/queue.ts:69-96 | A running drain can always complete a step, also after a crash took its memory |
| LaneTheorems.QuietWaitBounded | src/orchestration/queue.ts:78-86 | A quiet wait is one window, or ends below the cap and one window |
| LaneWitness.ErrorRegroups | src/main.ts:379-387 | A run in which a failed turn's id is started again with a longer batch |
| Drain.Inbox.InsertItem | src/memory/store.ts:498-516 | Inserts a row in serial order unless its message id is there |
| Drain.Inbox.ReadPending | src/memory/store.ts:518-526 | Reads exactly the conversation's unprocessed rows in serial order |
| Drain.Inbox.MarkProcessed | src/memory/store.ts:528-530 | Adds exactly the given rows to the processed ones |
| Drain.WaitForQuiet | src/orchestration/queue.ts:78-86 | Reads until nothing more arrives or the cap is reached, losing no row read before; it stops exactly where a wait of its journal ends, after the windows of that journal |
| Drain.RunBatches | src/orchestration/queue.ts:88-92 | Processes and marks a read batch by batch until it is empty |
| Drain.DrainConversation | src/orchestration/queue.ts:69-96 | Returns on an empty inbox; its batches are exactly the rows unprocessed at its start or arrived meanwhile, in order; its steps are a complete journal of the lane's drain workflow over the reads it made |
| Durable.CrashRefinement | src/orchestration/steps.ts:8-29 | For every schedule of attempts, crashes and replays of any deterministic workflow: committed writes are exactly the uninterrupted run's, plain effects are that run's, each perhaps repeated in its place, and perhaps the pending one, nothing else; and a replayed program is where that run was |
| Durable.StraightWrites | src/orchestration/steps.ts:18-29 | The uninterrupted run writes exactly its committed transactional requests, in order |
| Durable.Recovers | src/orchestration/steps.ts:8-29 | From wherever a schedule left it, a workflow can be brought back to where the uninterrupted run is, with nothing written, issued or journaled on the way |
| TurnDurable.TurnSurvivesCrashes | src/agent/handle-turn.ts:193-469 | Under every schedule a turn's store sees each committed write of the uninterrupted turn once and in order, its plain steps are that turn's repeated in place and perhaps the pending one, and an up-to-date turn is in that turn's state |
| TurnDurable.OnlyThinkingRepeats | src/orchestration/steps.ts:8-29 | Only the model's, the classifier's, the router's, the summary's and the embedding's calls can be issued again after a crash; tool calls, settlements and every store are written with their checkpoint |
| TurnDurable.ConversationStaysClosed | src/agent/handle-turn.ts:418-466 | Over any number of turns with any answers, parks, compactions, failures and crashes, the stored transcript is closed |
| TurnDurable.ReplyIsTheClosingMessage | src/main.ts:408-417 | What a finished turn stored ends in its closing message, even after compaction, and unless it parked the model answered that message |
| TurnOutcome.TurnEndsAsTold | src/agent/handle-turn.ts:353-416 | For every answer to every step: a finished turn completed exactly if the model's last word was unforced and asked for no tool, parked exactly if a tool call parked or a refinement was applied, and was cut off exactly if its last word was forced, after maxRounds rounds; and its rounds are the model's unforced answers |
| TurnOutcome.ForcedAtTheCap | src/agent/handle-turn.ts:355-409 | A model call is forced exactly when maxRounds rounds are used up |
| TurnRecord.TranscriptIsTheRecord | src/agent/handle-turn.ts:205-422 | What the model is shown and what is persisted is the loaded transcript, the batch, and then, role by role and in order, exactly every tool result, every model answer, every settled outcome under its speaker's name, and the closing prompts |
| TurnRecord.UpdateTells | src/agent/prompts.ts:172-198 | An outcome that settled nothing is not told; any other is one system message that names the action, whose word it was, and what became of it |
| TurnRecord.ModelReadsTheBatch | src/agent/context.ts:84-105 | Each item of the batch reaches the model at its place: an utterance word for word, a reminder marked as one, an update verbatim, anything else as its JSON |
| TurnContext.ContextIsTold | src/agent/handle-turn.ts:198-351 | The classifier sees the last six loaded messages, the router all of them with the batch's utterances and whether it quotes, and every model call goes out at the tier that was decided |
| TurnCompaction.CompactsExactlyWhenDue | src/agent/handle-turn.ts:418-466 | A finished turn's record ends with the whole transcript persisted, followed by a compaction exactly if one was due: the head before the last admissible user message summarised, that summary embedded, remembered and logged, and persisted in front of the rest |
| ProcessBatch.AfterTurn | src/main.ts:379-422 | After a turn: nothing for an empty batch, the prompt pass for a parked turn, otherwise the closing message under the lead's class and key |
| ProcessBatch.ReplyIsTheModels | src/main.ts:408-417 | What a finished, unparked turn hands to the send is a plain answer of the model in that turn |
| ProcessBatch.AnswerIsHanded | src/main.ts:389-417 | A finished turn whose last model call was answered without a tool call did not park, and what there is to say is that very answer, whatever crashed or was compacted |
| TurnSafety.EveryRequestIsGood | src/agent/handle-turn.ts:353-466 | Every persisted transcript is closed and is what was loaded, the batch and more, or that with its head summarised; every model call sees a grammatical transcript with the batch in it |
| TurnSafety.ModelInputConverts | src/agent/call-model.ts:139-218 | No tool result shown to the model lacks its call, so conversion never throws |
| TurnSafety.ModelCallsBounded | src/agent/handle-turn.ts:353-416 | A turn calls the model at most maxRounds + 1 times, whatever the steps answer |
| TurnRouting.QuotesResolvedInOrder | src/agent/handle-turn.ts:214-232 | Every quoted reply of the batch is resolved exactly once, in batch order, before anything else is asked |
| TurnRouting.TargetNeverGuesses | src/agent/handle-turn.ts:237-257 | The classifier is asked, and its verdict acted on, only about the action the item's quote bound, or the only pending one for an unbound utterance |
| TurnRouting.ClassifierIsTold | src/agent/handle-turn.ts:256-265 | The classifier is given that item's own text under its sender's name, with that action's tool and arguments, or its summary |
| TurnRouting.ActsOnVerdict | src/agent/handle-turn.ts:261-301 | Settling or refining follows only from the matching verdict on that item and target |
| TurnVerdicts.VerdictIsCarriedOut | src/agent/handle-turn.ts:261-301 | An approval or denial settles the very action asked about, a refinement refines it by the patch named, an unrelated message does neither |
| TurnVerdicts.EveryCandidateIsAsked | src/agent/handle-turn.ts:245-302 | Every message that may mean one pending action is put to the classifier before the turn reaches the model, unless one before it settled or refined its action; after that none is |
| TurnRouting.ModelSeesFreshDigest | src/agent/handle-turn.ts:303-324 | A model call's digest is the last one read, and no step that can change which actions pend came after that read |
| HandleTurn.HandleTurn | src/agent/handle-turn.ts:193-469 | The workflow's code stops where the program stops, with its result, after asking for exactly its steps in order |
| HandleTurn.ResolveQuotes | src/agent/handle-turn.ts:214-232 | The quoted replies are resolved in batch order, each settled outcome entering as a message |
| HandleTurn.Consult | src/agent/handle-turn.ts:256-301 | One classifier question and what its verdict does: settle, refine, or leave everything as it was |
| HandleTurn.Relate | src/agent/handle-turn.ts:245-306 | Asks about the batch's messages until one changes its target, then reads the digest again |
| HandleTurn.Route | src/agent/handle-turn.ts:326-350 | One routing decision per turn, logged before the first round |
| HandleTurn.RunTools | src/agent/handle-turn.ts:367-379 | Every call of a message is answered in order, and parked calls are collected |
| HandleTurn.RunRound | src/agent/handle-turn.ts:355-402 | One model round, and how it ends the rounds, as the record so far tells: completed on an answer without calls, parked when a call parked, otherwise on to the next |
| HandleTurn.RunCalls | src/agent/handle-turn.ts:367-402 | The calls of a round; it ends parked, with one prompt for each parked call, exactly if one of them parked |
| HandleTurn.RunRounds | src/agent/handle-turn.ts:353-416 | Rounds until one ends them, or the cap and its forced final |
| HandleTurn.CompactContext | src/agent/handle-turn.ts:424-466 | Summary, embedding, memory, log, then the compacted transcript, in that order |
| Transcript.ToSdkMessages | src/agent/call-model.ts:139-218 | Converts message by message, with nothing lost: each text under its sender, each answer with its calls in order, each result with its value under a name its id was called by; and stops exactly when some result has no call |
| Transcript.GrammarConverts | src/agent/call-model.ts:174-182 | In a grammatical transcript every result has its call |
| Transcript.ScanIsGrammar | src/agent/handle-turn.ts:4-6 | Reading a transcript from left to right accepts exactly the grammar |
| Transcript.FindCompactionCut | src/agent/compaction.ts:43-52 | The largest user message that keeps enough live, or none when there is none |
| Transcript.GrammarCut | src/agent/compaction.ts:35-42 | A cut before a user message orphans no result on either side |
| Transcript.CompactionKeepsClosed | src/agent/compaction.ts:54-66 | A compacted transcript is closed, ends as before and keeps the recent window |
| Transport.NeverWedged | src/transport/baileys.ts:266-452 | In every run a connecting adapter has a watchdog, a sleep or a fall-forward due and no intentional close in force, an armed watchdog is the current attempt's, and at most maxAttempts backoffs follow a reset |
| Transport.GivesUp | src/transport/baileys.ts:363-386 | While attempts stay fruitless only a bounded number of events can follow, and with nothing outstanding the adapter is closed or logged out |
| Transport.FruitlessStep | src/transport/baileys.ts:363-386 | (budget, work) decreases lexicographically at every fruitless event |
| Transport.NotStuck | src/transport/baileys.ts:266-308 | While anything is outstanding some fruitless event can happen |
| Transport.StaleEvents | src/transport/baileys.ts:274-308 | An event of an attempt that is not the current one spends budget if and only if it is a background rejection and no close was intended; every other one only leaves the lists of what is outstanding |
| Transport.UnwatchedIff | src/transport/baileys.ts:302-308 | A running, watched start loses its watchdog exactly by a disconnect or by the background rejection of another attempt |
| Transport.LateRejectionSpendsTwice | src/transport/baileys.ts:302-308 | A run in which two failed attempts spend three retries, and the third attempt's start goes on unwatched |
| Disconnects.CloseByCode | src/transport/baileys.ts:310-361 | The current attempt's close, by its code: 401 logs out and leaves nothing due, 405 looks for another version at no cost, 515 starts again at no cost, any other or none pays for a retry; an intentional close and a forced restart come first |
| Disconnects.EventsByKind | src/transport/baileys.ts:266-460 | What every other event does to the budget, the attempts and the state |
| Disconnects.LogsOutIff | src/transport/protocol.ts:11-30 | An event logs the adapter out exactly if it is a handled close with 401 |
| Disconnects.LoggedOutMeans401 | src/transport/protocol.ts:11-30 | In every run an adapter is logged out only if the last close it handled carried 401 |
| BaileysTransport.Baileys.StartSocket | src/transport/baileys.ts:417-425 | A new attempt, connecting, with its own watchdog |
| BaileysTransport.Baileys.ScheduleRetry | src/transport/baileys.ts:373-386 | Spends the budget or gives up |
| BaileysTransport.Baileys.HandleClose | src/transport/baileys.ts:310-361 | What a close leads to, for every code and flag |
| BaileysTransport.Baileys.OnConnectTimeout | src/transport/baileys.ts:274-293 | Abandons the attempt, bumps the id and retries |
| BaileysTransport.Baileys.OnStartResolved | src/transport/baileys.ts:427-434 | The socket is the attempt's, or nobody's when superseded |
| BaileysTransport.Baileys.OnStartRejected | src/transport/baileys.ts:302-308 | A background rejection retries, a foreground one is the caller's |
| BaileysTransport.Baileys.OnOpen | src/transport/baileys.ts:444-447 | The current attempt's open disarms, resets the budget and opens |
| BaileysTransport.Baileys.OnClose | src/transport/baileys.ts:439-451 | Only the current attempt's close is handled |
| BaileysTransport.Baileys.OnSleepEnd | src/transport/baileys.ts:382-385 | Starts again unless closed on purpose |
| BaileysTransport.Baileys.OnFallForward | src/transport/baileys.ts:343-355 | An adopted version earns a fresh budget and an immediate start, otherwise a retry |
| BaileysTransport.Baileys.Connect | src/transport/baileys.ts:455-460 | Lifts the intentional close and starts in the foreground |
| BaileysTransport.Baileys.Disconnect | src/transport/baileys.ts:512-517 | Closes on purpose and disarms |
| BaileysTransport.Baileys.ForceReconnect | src/transport/baileys.ts:505-510 | Arms the restart that the next close takes |
| WaVersion.VersionSource.FallForward | src/transport/wa-version.ts:149-165 | Adopts exactly a reached upstream that differs, and tells what it did |
| WaVersion.AdoptedAtMostOnce | src/transport/wa-version.ts:149-165 | One upstream version is adopted at most once, and is announced once reached |
| Delivery.ClassKept | src/transport/send-class.ts:279-341 | Over every schedule: an at-most-once text leaves at most once; a completed at-least-once text left, or could not be routed and was dead-lettered; and it leaves at most once more than it was lost between wire and log |
| Delivery.AtMostOneSend | src/transport/send-class.ts:297-310 | Even overlapping attempts with retries send an at-most-once text at most once |
| Delivery.CompletedWasSent | src/transport/send-class.ts:312-340 | A completed at-least-once step's text left, or was dead-lettered as unroutable |
| Delivery.SendsBounded | src/transport/send-class.ts:286-290 | With attempts one after the other, sends are at most one more than losses, and exactly that once logged |
| Delivery.OverlapSendsTwice | src/transport/send-class.ts:312-340 | Overlapping at-least-once attempts can send twice with nothing lost |
| Delivery.KeyFixesClass | src/transport/send-class.ts:30-44 | A reply key always has the same class |
| ReplyDelivery.ReplyKeepsItsPromise | src/transport/send-class.ts:14-34 | Over every schedule, by the lead row's kind and sender: a person's row or an action update is answered at most once; a reminder's completed reply left or was dead-lettered as unroutable, and left at most once more than it was lost |
| ReplyDelivery.OthersAtMostOnce | src/transport/send-class.ts:24-34 | Any other row's reply leaves at most once |
| ReplyDelivery.LeadWasDrafted | src/orchestration/queue.ts:99-132 | A turn's lead row is what some enqueue of its message id drafted, and a proactive lead is alone in its batch |
| ReplyDelivery.ReminderArrives | src/orchestration/scheduled.ts:33-41 | From the sweep's row to the wire, over every run of the lane and every schedule of the send: the completed reply to a reminder's firing left, or could not be routed and was dead-lettered |
| ReplyDelivery.NoDuplicateReply | src/hitl/expiry.ts:54-66 | An expiry notice's and a person's row are answered at most once, end to end |
| Delivery.KeysApart | src/transport/send-class.ts:46-53 | Reply keys and approval keys never collide |
| Delivery.RoutableIsUserAtServer | src/transport/send-class.ts:100-103 | A destination is routable exactly when it is user@server with both halves |
| Delivery.SendIsHonest | src/transport/baileys.ts:462-503 | When one send is disconnected, unroutable or delivered, and when its text can have left |
| SendPath.ResilientSend | src/transport/send-class.ts:171-193 | Ends with the first outcome that is no disconnect, or once its backoffs sum up to the budget; the backoffs are the capped exponential ones and stay below budget and one cap |
| SendPath.NextDelay | src/transport/send-class.ts:188-189 | Growing and capping step by step gives the capped closed form |
| SendPath.DefaultGivesUp | src/transport/send-class.ts:151-156 | The production send gives up on exactly the 64th disconnect, after 302500 ms |
| SendPath.DeliverReply | src/transport/send-class.ts:291-341 | One attempt's result, send and log row, for both classes and every send outcome |
| SendPath.DeliverReplyIsItsSteps | src/transport/send-class.ts:291-341 | An uninterrupted attempt's steps do to the log and the wire what the code does |
| Health.AlertsAreRight | src/ops/health.ts:50-95 | For every timed run: alerts alternate starting with an outage, a down alert comes exactly the grace after its outage's first change, a logout alert at its logout, a reconnect alert at its open; and outage by outage none is missed: an overdue or logged-out one has its alert, and a reconnect alert at its end exactly if it had one |
| HealthMonitor.Monitor.OnStateChange | src/ops/health.ts:51-89 | What each state does to the timer, the flag and the alerts |
| HealthMonitor.Monitor.OnGraceEnd | src/ops/health.ts:71-77 | The grace timer sends the down alert |
| HealthMonitor.Monitor.Stop | src/ops/health.ts:91-94 | Stopping disarms the timer for good |
| Sweeps.SweepsAreRight | src/orchestration/scheduled.ts:63-77 | In every overlap of sweeps, settlements and repeated starts: a fired row has its notice, no message id is twice in the inbox, a row fires at most once, and a sweep that is through left no row it read waiting |
| Sweeps.SettledStays | src/hitl/expiry.ts:81-95 | A settled row never fires and a fired one never settles |
| Sweeps.NoticeWithoutFiring | src/hitl/expiry.ts:86-92 | A run in which a row settles after its notice was enqueued |
| Sweeps.ReminderFiringsDiffer | src/orchestration/scheduled.ts:29-31 | Different firings have different ids |
| Sweeps.ExpiryFiringsDiffer | src/hitl/expiry.ts:50-52 | Different actions' expiries have different ids, and none is a reminder's |
| SweepLoop.Sweep | src/hitl/expiry.ts:84-94 | After one pass every due row's notice is in the inbox and the row fired unless it settled before its mark; nothing else fires or is enqueued |
| Ingest.IngestOne | src/orchestration/ingest.ts:78-99 | The outcome, the inbox after it, and that it acknowledges exactly what is unwanted or was enqueued, so an acknowledged wanted message has its row |
| Ingest.NoMessageLost | src/orchestration/ingest.ts:66-99 | Under any deliveries, crashes, reconnects and enqueue failures a wanted message is still to be redelivered or has its row, an acknowledged one has it, and none has two |
| Ingest.ReconnectClears | src/transport/stub.ts:45-50 | A reconnect whose handlers all succeed leaves nothing unacknowledged |
| Ingest.StubTransport.Deliver | src/transport/stub.ts:80-83 | A delivery is remembered, and dispatched when open |
| Ingest.StubTransport.Connect | src/transport/stub.ts:45-50 | A connect redelivers whatever was never acknowledged, in order |
| Ingest.StubTransport.Ack | src/transport/stub.ts:39-41 | An acknowledgement removes its message only |
| Fence.FenceHolds | src/agent/untrusted.ts:25-37 | For every label and body the close marker stands once, at the very end, if and only if the label does not end in an almost-close, which a label without guillemets never does |
| Fence.FenceKeepsBody | src/agent/untrusted.ts:35-37 | A body without the marker appears verbatim |
| Fence.ScrubIsVerbatim | src/agent/untrusted.ts:25-27 | Scrubbing changes a text exactly when it holds the marker |
| Facts.NormalizeIsIdempotent | src/tools/facts.ts:24-30 | Normalising a normalised key changes nothing |
| FactWords.SameKeyIff | src/tools/facts.ts:19-35 | Texts with words name the same key exactly if they have the same words in the same order, whatever their case and separators; and the terms that are compared are those words |
| FactWords.KeyIsItsWords | src/tools/facts.ts:24-30 | The key is the words, joined by single dashes |
| FactWords.KeyWithoutWords | src/tools/facts.ts:24-30 | A text without a word is its own key, lower-cased and without the blanks around it |
| FactStore.GuardKeepsApart | src/tools/facts.ts:90-107 | Over any guarded calls whose searches the limit does not cut, no stored key's words come to contain another's, either way round |
| FactStore.GuardFailsIff | src/tools/facts.ts:63-72 | A guarded call of a new key lets a near-duplicate in exactly when some matching row is similar and every similar one is beyond the first fifty matches |
| FactStore.GuardMissesBeyondLimit | src/tools/facts.ts:63-72 | Rows and a call for which that happens |
| FactStore.ExecuteSetFact | src/tools/facts.ts:90-107 | What a call does to the rows and answers |
| FactStore.RecordedIsStored | src/tools/facts.ts:90-107 | A call is refused exactly when its new key is similar to one of the newest matches and it does not ask past that, and then changes nothing; otherwise its key holds its value, once and newest, and every other row is as it was |
| FactStore.SimilarFactKeys | src/tools/facts.ts:63-72 | All the similar keys among the newest matches, newest first, and no other key |
| WallTime.WallTimeToInstant | src/orchestration/tz.ts:53-60 | A wall time that exists becomes the earliest instant that reads as it |
| WallTime.ReadsBackIffExists | src/orchestration/tz.ts:47-52 | The conversion reads back exactly for the wall times that exist |
| WallTime.GapTimes | src/orchestration/tz.ts:47-52 | A gap time becomes an instant before the transition that reads exactly one hour earlier |
| WallTime.OnePassFails | src/orchestration/tz.ts:56-58 | One pass is not enough |

## Left out

- Transactions: isolation is READ COMMITTED with row locks held to commit, as far as these steps can tell; lock waits, deadlocks and statement errors other than a failed insert are not modelled.
- Durable-workflow engine: its journal, recovery and queues appear as the contract above; a workflow that ended in ERROR is not recovered, as the source assumes.
- Calendar: events are never deleted or moved by hand, a listing is complete, and the event-id hash is a parameter; that different actions have different event ids is assumed only where an event's content is read back (`ApprovalContent`).
- ApprovalStore.ResolveApprovalReply: the table of yes and no words is a parameter, as a lookup with nothing to prove.
- Approvals: one tool parks, the calendar's; its schema is a parsing function, and its text results and prompt renderings are not modelled.
- Lane: a message id belongs to one conversation, and times are multiples of the silence window.
- Drain.DrainConversation: arrivals land at the reads, which is where the loop can see them.
- HandleTurn.HandleTurn: renderers of proposals and digests are parameters, a JSON payload is its text, and the classifier's context is the messages it renders.
- TurnSafety.EveryRequestIsGood: tool answers are taken to fit their calls, which Tools.RunTool states of the registry's code.
- Transport: delays and jitter of the backoff are not modelled, only how many; state handlers and the promises that wait for 'open' are not modelled.
- Delivery: the socket's receipt is taken at its word, and one key is followed at a time because keys do not interact.
- Health.AlertsAreRight: delivery of the alerts themselves is best-effort in the source and not modelled.
- SendPath.ResilientSend: for a first delay below one millisecond the source's loop need not end, so the contract asks for at least one.
- Facts.NormalizeIsIdempotent: lower-casing is per character, without the rule for a Greek final sigma.
- FactStore.ExecuteSetFact: the answer's text and the fact's value search are not modelled.
- WallTime.WallTimeToInstant: the calendar arithmetic before it and the zone database behind it; the zone is any function with the two Eastern offsets and no two changes within a day.
- Ingest.NoMessageLost: what an id carries does not change between redeliveries.
- Routing judgments, embeddings, semantic search, cost and status queries, the back office, alert and ping channels, configuration and infrastructure: outside these properties.
