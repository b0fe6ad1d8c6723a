/**
 The two vocabularies the session pump stands between: the backend's session events on
 one side, the frames it broadcasts to relays and watchers on the other. Only the fields
 some decision of the pump reads, or some property speaks about, are kept.
 */
module Wire {

  datatype Option<+T> = None | Some(value: T) {
    function OrElse(other: Option<T>): Option<T> {
      if None? then other else this
    }
    function GetOr(default: T): T {
      if Some? then value else default
    }
  }

  type CallId = string
  type Ref = string

  /** A tool call's input JSON: absent, or an object of which `source` decides detachment. */
  datatype Args = Null | Object(source: Option<string>, body: string)

  // ---- backend side ----

  datatype CancelReason = UserCancel | BargeIn | SocketAbort | ToolDenyChain
  datatype Truncation = MaxTokens | ContextWindow | MaxTurns | Budget | WireEnd
  datatype StopReason = EndOfTurn | Truncated(kind: Truncation) | Refused
  datatype TurnOutcome =
    | EndTurn
    | Completed(reason: StopReason)
    | Failed
    | Cancelled(cause: CancelReason)

  datatype SubagentStatus = PendingInit | Running | Interrupted | Completed | Errored | Shutdown {
    predicate Terminal() {
      !PendingInit? && !Running?
    }
  }

  datatype TaskKind = WorkflowContainer | AgentContainer | OtherTask
  datatype LoopState = Start | Progress | Done
  datatype ExitStatus = ExitStatus(code: Option<int>, signal: Option<int>)

  datatype Breakdown = Breakdown(cachedRead: nat, cachedWrite: nat, thought: nat)
  datatype Usage = Usage(input: nat, output: nat, total: nat, cost: Option<real>, window: Option<nat>,
                         breakdown: Breakdown)

  datatype ModeInfo = ModeInfo(id: string, name: string, description: Option<string>)
  datatype ModelInfo = ModelInfo(id: string, name: string, description: Option<string>, efforts: seq<string>)

  datatype Event =
    | TurnStarted
    | MessageDelta(text: string)
    | ThoughtDelta(text: string)
    | ToolCall(callId: CallId, name: string, input: Args, parentCall: Option<CallId>)
    | ToolResult(callId: CallId, failed: bool, output: Option<string>, parentCall: Option<CallId>)
    | ToolOutputDelta(callId: CallId, text: string)
    | TurnResult(isError: bool, text: string, outcome: TurnOutcome)
    | Detached(exit: Option<ExitStatus>)
    | Permission(requestId: string)
    | Ask(requestId: string)
    | BackendBound(sessionId: Option<string>)
    | BackendTurnBound(turnId: string)
    | UsageDelta(usage: Usage)
    | ConfigChanged(mode: Option<string>, model: Option<string>)
    | CatalogUpdated(models: seq<ModelInfo>, modes: seq<ModeInfo>, commands: seq<string>)
    | SubagentUpdate(agent: Ref, status: SubagentStatus, kind: Option<TaskKind>, launchedBy: Option<CallId>)
    | SubagentDetail(agent: Ref, container: Option<Ref>, loopState: Option<LoopState>)
    | WorkflowPhase(task: Ref, index: nat)
    | Plan
    | Notice(message: string)
    | SessionTitle(title: string)
    | MessageLifecycle(messageId: string)
    | Bookkeeping  // prompt accepted, heartbeat, snapshot, ...: nothing in the pump reads them
  {
    /** A clean result: neither an error nor a cancellation. */
    predicate CleanResult() {
      TurnResult? && !isError && !outcome.Cancelled?
    }

    /** The events that show a turn is under way after a settled terminal. */
    predicate Content() {
      MessageDelta? || ThoughtDelta? || ToolCall? || ToolResult? || Permission? || Ask?
    }
  }

  // ---- relay side ----

  datatype ToolStatus = InFlight | Succeeded | Error | Canceled
  datatype ToolFrame = ToolFrame(callId: CallId, name: string, args: Args, status: ToolStatus,
                                 output: Option<string>, parentCall: Option<CallId>)

  datatype TipCode = EmptyTurnInfo | EmptyTurnWarning | EmptyTurnMaxTokens | EmptyTurnMaxTurns | EmptyTurnRefusal
  datatype Tip = EmptyTurnTip(code: TipCode) | NoticeTip(message: string)
  datatype Failure = Upstream(text: string) | Disconnected(exit: Option<ExitStatus>)

  datatype OptionId = ModeOption | ModelOption | EffortOption
  datatype Choice = Choice(value: string, name: string, description: Option<string>)
  datatype ConfigOption = ConfigOption(id: OptionId, current: Option<string>, choices: seq<Choice>)

  datatype Frame =
    | StartFrame(session: Option<string>)
    | TextFrame(text: string)
    | ThinkingFrame(text: string)
    | CallFrame(call: ToolFrame)
    | FinishFrame(session: Option<string>)
    | ErrorFrame(failure: Failure)
    | PermissionFrame(requestId: string)
    | AskFrame(requestId: string)
    | UsageFrame(usage: Usage)
    | OptionsFrame(options: seq<ConfigOption>)
    | CommandsFrame(commands: seq<string>)
    | ProgressFrame(card: ToolFrame, roster: map<Ref, Option<LoopState>>, settleOnly: bool)
    | SegmentBreak
    | TipsFrame(tip: Tip)
    | PlanFrame
    | TurnBoundFrame(turnId: string)
    | TitleFrame(title: string)
    | LifecycleFrame(messageId: string)
  {
    /** The relay stops forwarding a turn when it sees one of these. */
    predicate Terminal() {
      FinishFrame? || ErrorFrame?
    }

    /** What a turn's closing protocol shows on the wire. */
    predicate Signal() {
      Terminal() || SegmentBreak?
    }

    predicate Cancels() {
      CallFrame? && call.status.Canceled?
    }
  }

  /** The signals among some frames, in order. */
  function Signals(fs: seq<Frame>): (r: seq<Frame>) {
    if fs == [] then [] else (if fs[0].Signal() then [fs[0]] else []) + Signals(fs[1..])
  }

  predicate Quiet(fs: seq<Frame>) {
    forall f | f in fs :: !f.Signal()
  }

  lemma {:induction false} SignalsConcat(a: seq<Frame>, b: seq<Frame>)
    ensures Signals(a + b) == Signals(a) + Signals(b)
  {
    if a == [] {
      assert a + b == b;
    } else {
      assert (a + b)[1..] == a[1..] + b;
      SignalsConcat(a[1..], b);
    }
  }

  lemma {:induction false} SignalsQuiet(fs: seq<Frame>)
    requires Quiet(fs)
    ensures Signals(fs) == []
  {
    if fs != [] {
      SignalsQuiet(fs[1..]);
    }
  }

  /** Frames without signals may be put before and after others freely. */
  lemma SignalsAfterQuiet(quiet: seq<Frame>, fs: seq<Frame>)
    requires Quiet(quiet)
    ensures Signals(quiet + fs) == Signals(fs)
  {
    SignalsConcat(quiet, fs);
    SignalsQuiet(quiet);
  }

  lemma SignalsOne(f: Frame)
    requires f.Signal()
    ensures Signals([f]) == [f]
  {
  }
}
