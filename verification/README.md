# Session pump model

A Dafny model of the part of the AI-agent crate that stands between a command-line agent and
the people watching it: the session event pump and what it leans on. The pump consumes
`(generation, event)` envelopes and broadcasts frames. Relays stop forwarding a turn when they
see its terminal frame (Finish or Error), so *when* that frame goes out, and what went out
before it, decides whether a turn hangs, is cut short, or ends twice.

How it is organised:

- `Wire`, `Text`, `Order`: the two vocabularies (events in, frames out), the string operations
  used, and hash-map iteration. Every walk over a hash map takes an arbitrary order from
  outside, so each result holds for all of them.
- `Cards`, `Store`, `Picker`, `PumpSpec`: one pump step as a function, in the order the loop
  body runs its phases, and whole runs of it. A run interleaves envelopes, the progress
  heartbeat, sends, forced kills, config requests and the end of the stream in any order.
- `PumpLoop`: the loop in its own form, fields and maps rewritten in place, proved equal to
  `PumpSpec` phase by phase and for whole runs.
- `TurnProtocol`: the small machine that decides terminals, and the proof that the pump refines
  it. `TurnEnds`, `TurnTheorems`, `OwedFinish`, `PlainSessions`: whole-run results about it.
- `TurnEvents`: what single events mean for a turn, told by constructors and frames.
- `StepShape`, `ToolCalls`, `EmptyTurns`, `CardLedger`, `CardFaces`, `ContentStream`: whole-run
  results about what is broadcast: tool calls, the blank-reply tip, progress cards, content.
- `PickerService`, `PickerRuns`, `PickerFrames`: the REST side of the config picker, both sides
  together, and the snapshots pushed to clients.
- `RowHistory`: the stored conversation row as a function of history.
- `CatalogWriteback`, `Media`, `Attachments`, `RuntimeTokens`, `AgentRuntime`: the catalog
  polling loop, the attachment marker, prompt blocks, the runtime token service, and the
  terminal broadcast shared by agent managers under every thread interleaving.

Findings. Six things one would like to hold do not hold of all inputs. Each is stated with the
exact condition under which it does, and with a concrete input on which it fails.

- A turn re-armed by content in the same generation after a cancel drain loses its Finish: the
  flag that swallows the drained turn's trailing result is cleared by a new generation or
  `TurnStarted` only. If the turn ends by a result, that result's Finish is swallowed
  (`OwedFinish.FinishLostAfterDrain`); if it launches a workflow that is then killed, the launch
  result is swallowed before the debt is recorded, so nothing is ever owed and the turn is never
  settled (`OwedFinish.FinishNeverOwedAfterDrain`).
- A workflow launched and killed in a re-armed turn does not get its owed Finish either when the
  status is still Finished by then: the idempotent emitter does nothing
  (`OwedFinish.FinishLostAfterRearm`). `OwedFinish.RearmedTurnReachesClient` has the condition
  for both findings.
- A forced kill and the result that trails it both send a Finish. A turn nobody sends into shows
  two terminals exactly when a forced kill precedes a closing result
  (`TurnTheorems.OneTerminalDespiteKills`, `OwedFinish.FinishTwiceAfterForcedKill`).
- The card shield does not cover turn-end cancellations: a clean end repaints a live background
  card's call as canceled exactly when that call is still open and not a detached command
  (`CardLedger.CancellationPastShield`, `CardLedger.LiveCardRepaintedAtCleanEnd`).
- The marker block does not give a message back when a path holds the marker, a line break or
  outer blanks; it does in all other cases (`Media.StripUndoesAppend`, `Media.RoundTripBreaks`).
- Listing every path a second time changes the message in those cases, and for an empty list
  when stripping one empty block uncovers another (`Media.AllPathsIdempotent`,
  `Media.EmptyBlocksPeelOff`).

Also as in the code: a workflow card without a roster shows nothing even when forced; a question
to the user does not count as visible output; a tool call with an empty name overwrites the
remembered name; a process exit sends its own terminal even after a settled turn.

## Model

| member | source | states |
|---|---|---|
| PumpLoop.SessionRuntime.EmitFinishOnce | crates/aionui-ai-agent/src/session_agent.rs:215-230 | Status and Finish change together, and a repeat in the Finished state sends nothing |
| PumpLoop.Pump.AdvanceGeneration | crates/aionui-ai-agent/src/session_agent.rs:2806-2824 | A newer generation resets every per-turn flag and the status; an older or equal one resets nothing |
| PumpLoop.Pump.GuardDuplicate | crates/aionui-ai-agent/src/session_agent.rs:2838-2869 | A second result of a settled turn is recognised and changes nothing; text, thought, call, result, permission and question re-arm the turn, no other event does, and nothing else changes |
| PumpLoop.Pump.AccumulateOutput | crates/aionui-ai-agent/src/session_agent.rs:2881-2898 | A live chunk extends the call's accumulator and is sent as the whole of it |
| PumpLoop.Pump.AdoptCatalog | crates/aionui-ai-agent/src/session_agent.rs:2910-2944 | A late catalog is kept for later re-projection and pushed whole, with the commands if there are any |
| PumpLoop.Pump.ConfirmConfig | crates/aionui-ai-agent/src/session_agent.rs:2960-2972 | An agent's confirmation overwrites the overrides and re-projects the snapshot once a catalog is known |
| PumpLoop.Pump.UpdateWorkflowCards | crates/aionui-ai-agent/src/session_agent.rs:3794-3963 | Opening, redrawing, settling and orphan-settling of cards equal the ledger function, and the live count follows |
| PumpLoop.Pump.TrackWorkflows | crates/aionui-ai-agent/src/session_agent.rs:2997-3118 | Roster admission for workflows only, removal at any terminal, and the drain that pays an owed Finish |
| PumpLoop.Pump.SettleOwedFinish | crates/aionui-ai-agent/src/session_agent.rs:3060-3115 | The drain settles every card, cancels every open call, clears the turn and converges, in that order |
| PumpLoop.Pump.SettleWorkflowCards | crates/aionui-ai-agent/src/session_agent.rs:4047-4090 | Each doomed card is settled once in some map order, background cards surviving a clean end |
| PumpLoop.Pump.CancelOpenTools | crates/aionui-ai-agent/src/session_agent.rs:3203-3243 | Draining the open calls cancels each once and keeps exactly the detached ones on a clean end |
| PumpLoop.Pump.CloseAtTerminal | crates/aionui-ai-agent/src/session_agent.rs:3169-3276 | The whole state and frames of a real terminal, for some order of both maps |
| PumpLoop.Pump.ReachBoundary | crates/aionui-ai-agent/src/session_agent.rs:3137-3284 | The status arm: restart, tool bookkeeping, terminals, session binding |
| PumpLoop.Pump.ForwardFrame | crates/aionui-ai-agent/src/session_agent.rs:3299-3383 | The translate loop: name stamp, shield, visible flag, swallow, tip, suppression, session stamp |
| PumpLoop.Pump.ProcessEvent | crates/aionui-ai-agent/src/session_agent.rs:2946-3383 | One event through all phases in the loop body's order equals the step function |
| PumpLoop.Pump.ProgressTick | crates/aionui-ai-agent/src/session_agent.rs:2782-2801 | The heartbeat redraws the cards that are due, in some map order, and changes no state |
| PumpLoop.Pump.Outside | crates/aionui-ai-agent/src/session_agent.rs:1345-1357 | A send, a forced kill or a config request changes the shared runtime, and what is broadcast, as the step function says |
| PumpLoop.Pump.Serve | crates/aionui-ai-agent/src/session_agent.rs:2652-3404 | A whole run of the imperative loop, with sends, kills and config requests between rounds, reaches the state and sends the frames of the run function, for some map orders |
| PumpLoop.Pump.HangUp | crates/aionui-ai-agent/src/session_agent.rs:3393-3402 | The end of the stream settles every remaining card |
| TurnProtocol.StepRefines | crates/aionui-ai-agent/src/session_agent.rs:2806-3383 | Every pump step, whatever cards, tools and picker hold, sends exactly the signals of a machine on flags, roster, status and session id |
| TurnEvents.RearmedByActsOnly | crates/aionui-ai-agent/src/session_agent.rs:2853-2869 | On a settled turn an envelope of the same generation leaves it unsettled if and only if it is a restart or the client is sent a frame of the agent's for it other than live output: six kinds of event |
| TurnEvents.NextResultShows | crates/aionui-ai-agent/src/session_agent.rs:2838-2869 | For every event on a settled turn, every roster and every result after it: the terminal, break or silence that result comes to |
| TurnEvents.ReportsMoveRoster | crates/aionui-ai-agent/src/session_agent.rs:2997-3118 | Status by status, what an agent's report does to the roster and the debt, and when it pays the owed Finish |
| TurnEvents.ExitShows | crates/aionui-ai-agent/src/session_agent.rs:4274-4308 | An exit shows an Error exactly if the turn had no result and the process did not end with code 0 and no signal; else a Finish unless a drain sent it |
| TurnEvents.SendAnnounces | crates/aionui-ai-agent/src/session_agent.rs:1354-1357 | Each send is announced once with the bound session and sets the status to Running |
| TurnEnds.WindowStep | crates/aionui-ai-agent/src/session_agent.rs:2997-3248 | From any state with an open turn, with forced kills and hang-ups coming in: the signal of each input, read off the inputs alone, and the settled turn its close leaves |
| TurnEnds.SettledSilent | crates/aionui-ai-agent/src/session_agent.rs:2838-2869 | A settled turn sends no signal until content re-arms it; a forced kill still shows a Finish exactly if a send came since |
| TurnTheorems.TurnUntilClose | crates/aionui-ai-agent/src/session_agent.rs:2997-3248 | In a new turn, whatever forced kills come in, each launch result becomes one SegmentBreak and the pump sends no terminal before the first closing event; a closing result always sends its terminal, a workflow kill its Finish unless a forced kill did |
| TurnTheorems.TurnAfterClose | crates/aionui-ai-agent/src/session_agent.rs:2826-2869 | After its close the pump sends no further terminal or break until re-armed, and a forced kill only if a send came in between |
| TurnTheorems.TurnTerminalCount | crates/aionui-ai-agent/src/session_agent.rs:215-230 | The number of terminals of a turn under any kills and sends: one per kill that finds the status not Finished, and its own |
| TurnTheorems.OneTerminalDespiteKills | crates/aionui-ai-agent/src/session_agent.rs:1427-1468 | A turn nobody sends into shows one terminal, or two exactly when a forced kill precedes a closing result |
| TurnTheorems.ClosedTurnScript | crates/aionui-ai-agent/src/session_agent.rs:3299-3363 | The exact signal sequence of a turn nobody kills from outside: as many breaks as clean results before the close, then that close's terminal with its session id |
| TurnTheorems.TurnScript | crates/aionui-ai-agent/src/session_agent.rs:2997-3363 | The client's whole view of a turn without a forced kill is breaks, one terminal, nothing |
| TurnTheorems.PlainTurnClosesAtFirstResult | crates/aionui-ai-agent/src/session_agent.rs:3125-3128 | With no workflow declared the closing event is the first result and no other |
| TurnTheorems.PlainTurnEndsOnce | crates/aionui-ai-agent/src/session_agent.rs:2806-2824 | From any state, a plain turn of a newer generation without a forced kill shows exactly one terminal by its first result |
| TurnTheorems.NewTurnForgets | crates/aionui-ai-agent/src/session_agent.rs:2806-2824 | Pumps that differ only in turn flags, roster, status and last generation send identical frames and reach equal states from a newer generation on |
| OwedFinish.NoOwedFinishStranded | crates/aionui-ai-agent/src/session_agent.rs:3055-3115 | After every input of every run a recorded debt means no terminal yet and a break sent since the boundary; owed on an empty roster means the last agent to end completed |
| OwedFinish.RearmedTurnReachesClient | crates/aionui-ai-agent/src/session_agent.rs:2838-2869 | A re-armed turn closes where its events say; a result's terminal reaches the client iff no drain came before or it is an Error, and a workflow kill's Finish iff no drain came before and the status is not Finished by then |
| OwedFinish.FinishLostAfterDrain | crates/aionui-ai-agent/src/session_agent.rs:3328-3334 | A concrete run in which a re-armed turn's Finish never arrives after a cancel drain |
| OwedFinish.FinishLostAfterRearm | crates/aionui-ai-agent/src/session_agent.rs:215-230 | A concrete run in which an owed Finish of a re-armed turn is dropped by the idempotent emitter |
| OwedFinish.FinishNeverOwedAfterDrain | crates/aionui-ai-agent/src/session_agent.rs:3328-3362 | A concrete run in which a launch after a drain is swallowed, so its kill owes nothing and the turn stays open although a send came in between |
| OwedFinish.FinishTwiceAfterForcedKill | crates/aionui-ai-agent/src/session_agent.rs:206-230 | A concrete run in which a forced kill and the turn's own result send two Finish frames |
| PlainSessions.PumpIsTiny | crates/aionui-ai-agent/src/session_agent.rs:2806-2869 | On every run without a workflow the pump's signals are those of a machine holding one flag, one generation and the session id, and no SegmentBreak ever appears |
| StepShape.DeliverShape | crates/aionui-ai-agent/src/session_agent.rs:2806-3383 | One envelope's frames in order: card and config frames, then the cancellations of a settlement, then the event's own frame; and the tool state after it |
| ToolCalls.OpenCallsAreConserved | crates/aionui-ai-agent/src/session_agent.rs:3155-3168 | At every point of every run the open calls are those an onlooker counts as started and neither resolved nor canceled since |
| ToolCalls.SettlementCancelsBeforeTerminal | crates/aionui-ai-agent/src/session_agent.rs:3203-3243 | A settlement cancels every open call once, save detached commands at a clean end, all ahead of the terminal |
| ToolCalls.TerminalKeepsDetached | crates/aionui-ai-agent/src/session_agent.rs:4041-4045 | A real terminal keeps an open call open, with its name, if and only if the end is a clean result and the call's own source says it is detached |
| ToolCalls.StepNames | crates/aionui-ai-agent/src/session_agent.rs:4092-4103 | Each call frame of a step bears the name its call is open under |
| ToolCalls.NamesSurvive | crates/aionui-ai-agent/src/session_agent.rs:3155-3168 | On every run each call frame between start and close bears the name the call was last started with, empty names included |
| ToolCalls.ResolvedStaysResolved | crates/aionui-ai-agent/src/session_agent.rs:3164-3168 | No call is canceled between its result and its next start |
| ToolCalls.OutputAccumulates | crates/aionui-ai-agent/src/session_agent.rs:2881-2898 | From any state, a call nothing drops keeps what it had and gains every chunk |
| ToolCalls.DropEmpties | crates/aionui-ai-agent/src/session_agent.rs:3241-3274 | An input that does not retain a call's live output leaves it empty |
| ToolCalls.OutputIsSinceDrop | crates/aionui-ai-agent/src/session_agent.rs:2881-2898 | At every point of every run a call's accumulator is the concatenation of its chunks since it was last dropped |
| ToolCalls.LiveFramesShowEverything | crates/aionui-ai-agent/src/session_agent.rs:2881-2898 | On every run each live frame shows every chunk since the output was last dropped, its own included, across the turn ends the call outlives |
| EmptyTurns.VisibleIsSpoke | crates/aionui-ai-agent/src/session_agent.rs:4112-4130 | The visible flag holds exactly when a visible frame was sent since the last settlement |
| EmptyTurns.OnlyDetachedRun | crates/aionui-ai-agent/src/session_agent.rs:3203-3243 | In a turn that has shown nothing, only detached commands can be open |
| EmptyTurns.EmptyTurnTipIsExact | crates/aionui-ai-agent/src/session_agent.rs:3258-3344 | The blank-reply tip comes only right before the Finish of a clean result, in a step that cancels nothing; a forwarded clean Finish has it if and only if nothing visible was sent |
| EmptyTurns.VisibleByEvent | crates/aionui-ai-agent/src/session_agent.rs:4112-4130 | Which events count as something said, and that a question to the user does not |
| EmptyTurns.TipSaysWhy | crates/aionui-ai-agent/src/session_agent.rs:4132-4166 | The tip's code for each outcome of the turn, and none for a cancel |
| CardLedger.LiveCountIsLedgerSize | crates/aionui-ai-agent/src/session_agent.rs:2977-2990 | The published count of background tasks is the number of live cards after every input |
| CardLedger.SettlementLeavesBackground | crates/aionui-ai-agent/src/session_agent.rs:3186-3200 | A clean end leaves exactly the background cards untouched; a kill, error, cancel, exit or hang-up leaves no card |
| CardLedger.EveryLeavingCardIsShownOnce | crates/aionui-ai-agent/src/session_agent.rs:3393-4090 | On every run, at every input and at the end of the stream, the cards shown finished are those leaving the ledger, each that renders (background, or a workflow with a roster) once |
| CardLedger.DeliverFinals | crates/aionui-ai-agent/src/workflow_progress.rs:316-328 | A finished card leaves no agent row running |
| CardLedger.StepMoves | crates/aionui-ai-agent/src/session_agent.rs:3794-3860 | An input opens at most the one card its event declares, and otherwise only takes cards away |
| CardLedger.EveryOpeningIsLiveOrSettled | crates/aionui-ai-agent/src/session_agent.rs:3794-3963 | For every call on every run: the cards its events opened number those the client was shown finished, plus workflows that left without ever having a roster, plus those still live |
| CardLedger.EveryOpeningSettlesByTheEnd | crates/aionui-ai-agent/src/session_agent.rs:3393-3402 | Once the stream has ended every opened card has been shown finished or had no roster to show |
| CardLedger.OnlyCancellationRepaintsLiveCard | crates/aionui-ai-agent/src/session_agent.rs:3779-3792 | No call frame but a turn-end cancellation repaints a live card's call as ended |
| CardLedger.CancellationPastShield | crates/aionui-ai-agent/src/session_agent.rs:3230-3240 | A settlement cancels a surviving card's call if and only if the end is clean and a background card sits on an open, undetached call |
| CardLedger.LiveCardRepaintedAtCleanEnd | crates/aionui-ai-agent/src/session_agent.rs:3230-3240 | A concrete run in which a clean end cancels the call of a card that stays live |
| CardFaces.EveryEndIsTold | crates/aionui-ai-agent/src/session_agent.rs:3905-3963 | On every run each drawable card that leaves is shown under its own call, name and arguments, every member done: Succeeded if its task reported Completed, Error if Errored, Canceled for any other report, turn end, drain or hang-up; and no other card is shown ended |
| CardFaces.EndsAreTold | crates/aionui-ai-agent/src/session_agent.rs:4047-4090 | The same of one input in any state whose cards are live |
| CardFaces.OrphansAreTold | crates/aionui-ai-agent/src/session_agent.rs:3908-3934 | The end of a task without a card sends one settle-only frame on its launching call, told by the same rule, and nothing else sends one |
| CardFaces.OpeningIsDrawn | crates/aionui-ai-agent/src/session_agent.rs:3812-3904 | An opened card has the declared kind, the call, and the name and arguments known for it; background work is drawn at once, a workflow not yet |
| CardFaces.DetailIsDrawn | crates/aionui-ai-agent/src/workflow_progress.rs:294-314 | A member's detail keeps its state if it carries none, and the card is redrawn exactly if the member is new, its state changed or the card is due |
| CardFaces.PhaseIsDrawn | crates/aionui-ai-agent/src/workflow_progress.rs:287-290 | A phase redraws a drawable card exactly if it is new or the card is due |
| CardFaces.HeartbeatDrawsDueCards | crates/aionui-ai-agent/src/session_agent.rs:2782-2801 | A heartbeat draws each drawable card that is due once and nothing else |
| ContentStream.EverythingSaidIsSent | crates/aionui-ai-agent/src/session_agent.rs:4172-4525 | Over every run the content frames sent are the content events delivered, each once, in order, unaltered |
| ContentStream.ToolFramesReachClient | crates/aionui-ai-agent/src/session_agent.rs:4198-4240 | A call and its result each become one frame with their own arguments, output, parent and name; the result's status is the true one unless a live card holds the call |
| PickerService.ResolveCurrentModelEfforts | crates/aionui-ai-agent/src/session_agent.rs:62-75 | The nested loop computes the pinned model's efforts, else the union |
| PickerService.UnionExact | crates/aionui-ai-agent/src/session_agent.rs:66-74 | The union holds every level some model offers, none other, none twice |
| PickerService.PinnedEfforts | crates/aionui-ai-agent/src/session_agent.rs:63-65 | A current model the catalog names has that model's own levels, of the first by that id |
| PickerService.EffortsAdvertised | crates/aionui-ai-agent/src/session_agent.rs:62-75 | Whichever model is current, its levels are among the catalog's, and an unknown model gets all of them |
| PickerService.PickerEndpoint.GetConfigOptions | crates/aionui-ai-agent/src/session_agent.rs:965-1062 | A read answers from overrides, then backend, then preload, and leaves the mirrors the pump re-projects from |
| PickerService.ReadPrefersLive | crates/aionui-ai-agent/src/session_agent.rs:883-907 | List and current fall back separately: a live list before the preloaded, and override, live current, preloaded current |
| PickerService.PickerEndpoint.SetConfigOption | crates/aionui-ai-agent/src/session_agent.rs:1065-1203 | The answer, the overrides and the stored effort of one request; rejected exactly for a mode or model that its non-empty live list lacks |
| PickerService.RestartFindsTheEffort | crates/aionui-ai-agent/src/session_agent.rs:1212-1255 | After any history the stored selections hold the effort the picker claims, every other key is untouched, and nothing has changed while no effort was chosen |
| PickerService.ProjectionsAgree | crates/aionui-ai-agent/src/session_agent.rs:2570-2650 | After a read that saw a catalog the pushed snapshot shows the same mode and model options, equal currents and at least the read's efforts, and is the same list once a model is picked |
| PickerService.AnswerIsHonest | crates/aionui-ai-agent/src/session_agent.rs:1078-1203 | A rejected or failed request changes nothing; pending means a deferred mode and no visible change; observed means taken now and on offer, in both directions |
| PickerService.RejectedExactly | crates/aionui-ai-agent/src/session_agent.rs:1078-1103 | Rejected if and only if the request is for a mode or model and a non-empty live list of that kind has no such id; an empty list and any other option never |
| PickerService.OfferedIsNotRejected | crates/aionui-ai-agent/src/session_agent.rs:1078-1103 | What a read offers from a live list is not rejected while that list stands |
| PickerService.SwitchWritesItsAxis | crates/aionui-ai-agent/src/session_agent.rs:1104-1175 | Axis by axis what a request writes, when it fails at dispatch and when it is pending, by option id and backend answer |
| PickerService.OverrideIsLastWord | crates/aionui-ai-agent/src/session_agent.rs:1155-1175 | After any interleaving of reads, switches, confirmations and catalogs each override is the last word said on its axis |
| PickerService.ObservedStandsUntilReplaced | crates/aionui-ai-agent/src/session_agent.rs:1176-1203 | A value answered as observed is what every later read offering the axis shows, until another word is said on it |
| PickerService.DeferredModeIsLastConfirmed | crates/aionui-ai-agent/src/session_agent.rs:1127-1171 | On a next-turn backend the mode override is the last confirmed mode, however many switches interleave |
| PickerFrames.ConfirmationShowsItself | crates/aionui-ai-agent/src/session_agent.rs:2960-2972 | A confirmation takes over what it names and sends exactly one snapshot of the resulting picker if there is a catalog to show: the catalog's ids and names in order, each axis at override or else fallback |
| PickerFrames.CatalogShowsItself | crates/aionui-ai-agent/src/session_agent.rs:2910-2944 | An arriving catalog is adopted and pushed whole, followed by its commands if there are any, and by nothing else |
| PickerFrames.SentSnapshotsAreCurrent | crates/aionui-ai-agent/src/session_agent.rs:2570-2650 | On every run each snapshot sent shows the picker as that input leaves it |
| PickerFrames.LastSnapshotIsCurrent | crates/aionui-ai-agent/src/session_agent.rs:2570-2650 | Until a request rewrites the picker, the last snapshot sent still shows it, as long as there is a catalog to show |
| PickerRuns.RunWrites | crates/aionui-ai-agent/src/session_agent.rs:2910-2972 | At every point of a run of the session the shared picker is what its REST and pump writes, in order, make of the first one |
| PickerRuns.PickerClaimsOnlyConfirmedModes | crates/aionui-ai-agent/src/session_agent.rs:2946-2972 | Over whole session runs on a next-turn backend the picker claims the agent's last confirmed mode, or none |
| Store.Record.PersistSideEffects | crates/aionui-ai-agent/src/session_agent.rs:3443-3505 | The writes of one event equal the row function, in the order clear, bind or config, usage |
| Store.Record.PersistContextUsage | crates/aionui-ai-agent/src/session_agent.rs:3598-3668 | One report merges field by field and blanks nothing it does not carry |
| RowHistory.NextOpenFollowsHistory | crates/aionui-ai-agent/src/session_agent.rs:1614-1644 | The next open resumes an id if and only if it was bound and neither rebound nor found dead since; else it forks or starts fresh |
| RowHistory.DeadResumeTakesAnchor | crates/aionui-ai-agent/src/session_agent.rs:3417-3436 | A result clears the anchor if and only if it is an error, not a cancel, with one of the four wordings of a session that cannot be resumed |
| RowHistory.ReportWritesWhatItCarries | crates/aionui-ai-agent/src/session_agent.rs:3533-3668 | A usage report writes exactly when it counts any token, then each figure it carries and no other |
| RowHistory.UsageIsLastReported | crates/aionui-ai-agent/src/session_agent.rs:3533-3544 | Each usage figure is that of the last informative report carrying it, and zero-token reports change nothing |
| RowHistory.ConfigIsLastConfirmed | crates/aionui-ai-agent/src/session_agent.rs:3481-3497 | The stored mode and model are the last confirmed ones |
| RowHistory.RunPersists | crates/aionui-ai-agent/src/session_agent.rs:3286-3290 | Over every pump run the row is the fold of the events that reach persistence: not swallowed duplicates, live deltas or catalogs |
| CatalogWriteback.SpawnCatalogWriteback | crates/aionui-ai-agent/src/session_agent.rs:2308-2343 | For every course of discovery over the window: at most two messages, the exact messages, and the poll it stops at |
| CatalogWriteback.FoundIsDiscovered | crates/aionui-ai-agent/src/session_agent.rs:2351-2405 | A poll yields a partial exactly when modes, models or commands were discovered, and carries the models it listed |
| CatalogWriteback.PartialCarries | crates/aionui-ai-agent/src/session_agent.rs:2351-2450 | A partial carries the lists as discovered with their currents, the commands, and one option per axis with a list, the effort unchosen |
| CatalogWriteback.ModelsAreTheLastWord | crates/aionui-ai-agent/src/session_agent.rs:2317-2327 | If models are ever listed, that poll's full catalog is the last message; there were two exactly if the interim deadline had something to publish |
| CatalogWriteback.WithoutModelsOneMessage | crates/aionui-ai-agent/src/session_agent.rs:2331-2341 | Without models one message goes out if anything was discovered, carrying the latest discovery before the deadline, else the latest of all |
| Media.BlockListsItself | crates/aionui-ai-agent/src/media.rs:124-143 | An appended block reads back as its own list if and only if every path is trimmed and on one line |
| Media.StripUndoesAppend | crates/aionui-ai-agent/src/media.rs:124-143 | Strip after append returns the text, whatever it holds, if and only if every path can be carried |
| Media.RoundTripBreaks | crates/aionui-ai-agent/src/media.rs:124-143 | Three concrete lists that break the round trip on every text |
| Media.AllPathsIdempotent | crates/aionui-ai-agent/src/media.rs:160-162 | Listing every path again changes nothing if and only if every path can be carried or, for no files, no second empty block lies under the first |
| Media.EmptyBlocksPeelOff | crates/aionui-ai-agent/src/media.rs:160-162 | A concrete text that two passes over an empty list change twice |
| Media.AllPathsKeepsCanonical | crates/aionui-ai-agent/src/media.rs:160-162 | A message carrying exactly its block passes through unchanged if and only if every path can be carried |
| Attachments.PartitionMedia | crates/aionui-ai-agent/src/media.rs:61-89 | The split follows the classification, is order-preserving, and a message carrying its attachments becomes one carrying the remaining paths |
| Attachments.BuildPromptBlocks | crates/aionui-ai-agent/src/session_agent.rs:550-594 | The blocks are those of the partition: text if any, path links, then media |
| Attachments.AttachmentsConserved | crates/aionui-ai-agent/src/session_agent.rs:550-594 | However reads fail, every file is linked once, or without links is either linked or sent as its own bytes, once; paths first, both groups in order, an attachment's link under its own type |
| RuntimeTokens.HeldIffStillStands | crates/aionui-ai-agent/src/runtime_token.rs:81-137 | A token is held if and only if some issue minted it and no later issue replaced it or invalidation matched it |
| RuntimeTokens.RuntimeTokenService.IssueToken | crates/aionui-ai-agent/src/runtime_token.rs:81-112 | An issue returns the token then in force for its pair, covering generation and scopes, and keeps the table equal to the history |
| RuntimeTokens.RuntimeTokenService.ExistingToken | crates/aionui-ai-agent/src/runtime_token.rs:114-137 | The search finds the one held token that covers the request, whatever the map order |
| RuntimeTokens.RuntimeTokenService.InvalidateConversation | crates/aionui-ai-agent/src/runtime_token.rs:171-174 | Filtering the table keeps it equal to the history with this call added |
| RuntimeTokens.RuntimeTokenService.InvalidateConversationId | crates/aionui-ai-agent/src/runtime_token.rs:176-179 | The same for every user of a conversation |
| RuntimeTokens.RuntimeTokenService.InvalidateGeneration | crates/aionui-ai-agent/src/runtime_token.rs:181-186 | The same for one generation |
| RuntimeTokens.RuntimeTokenService.Validate | crates/aionui-ai-agent/src/runtime_token.rs:139-169 | Acceptance if and only if this user holds the token for this conversation with scope and generation; otherwise the first failing check, in order |
| RuntimeTokens.FilteredByDrop | crates/aionui-ai-agent/src/runtime_token.rs:171-186 | Each filter removes exactly the entries its call ends |
| RuntimeTokens.MintedByIssue | crates/aionui-ai-agent/src/runtime_token.rs:95-111 | Replace-then-insert keeps the table equal to the history |
| AgentRuntime.AtMostOneTerminalPerTurn | crates/aionui-ai-agent/src/agent_runtime.rs:88-149 | Under every interleaving of lock sections and sends, no two terminals sent or pending belong to one turn, and an unfinished turn has none |
| AgentRuntime.TerminalsBoundedByResets | crates/aionui-ai-agent/src/agent_runtime.rs:100-149 | Terminals sent plus pending never exceed one more than the resets |
| AgentRuntime.FirstEmitClaims | crates/aionui-ai-agent/src/agent_runtime.rs:111-149 | The first emit to take the lock of an unfinished turn leaves exactly its own frame pending; a later one changes nothing |
| AgentRuntime.PendingIsSent | crates/aionui-ai-agent/src/agent_runtime.rs:121-127 | A pending frame is put on the wire by its own thread and then no longer pending |
| AgentRuntime.FinishedMeansATerminal | crates/aionui-ai-agent/src/agent_runtime.rs:88-149 | Under every interleaving in which only emitters finish turns, the status is Finished if and only if the current turn has a terminal sent or pending |
| AgentRuntime.Runtime.EmitFinish | crates/aionui-ai-agent/src/agent_runtime.rs:111-127 | An uninterrupted call finishes the turn and sends its Finish, or sends nothing if the turn was finished |
| AgentRuntime.Runtime.EmitErrorData | crates/aionui-ai-agent/src/agent_runtime.rs:136-149 | The same for an error |

## Left out

- JSON shapes, DTO-only fields, i18n codes, error classification and tracing: a frame is a constructor with the fields some decision or property reads.
- Card text: a card is its kind, call, roster states and phases. The 500 ms throttle and the change test on rendered text are one input per step, naming the cards that are due.
- The `input` and `description` fields of tool frames, and human-readable tool output.
- Wall clock, task spawning and broadcast lag: the heartbeat is a step that may come at any time, and every receiver sees every frame.
- Concurrency between the pump and REST calls inside one phase: a REST call is one step of a run.
- Database failures: writes succeed. Reading the stored selections back is not modelled.
- The backends, process handling, spawn flags, workspace and MCP resolution, hook files and CLI probing.
- Mode alias normalisation and the dropping of stale models at open; only the anchor decides how the next open starts.
- Parsing a persisted catalog back into a preload: it goes through an untyped multi-shape JSON parser.
- `classify`, MIME guessing and file reads: arbitrary functions of the path, so every pattern of failure is covered.
- Unicode: a string is a sequence of characters, and blanks are those the text module lists.
- The extra copy of each usage report sent straight to the conversation's event bus.
- Token generation and hashing: a fresh, trimmed token and an injective hash are inputs.
- TurnScript: names the closing terminal only as some terminal; ClosedTurnScript states which.
