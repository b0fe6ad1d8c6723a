/**
 The session event pump as a function: one step takes the pump's state and one input to
 the next state and the frames broadcast on the way, phase by phase in the order the loop
 body runs them. `PumpLoop` holds the loop itself and is proved equal to this.
 */
module PumpSpec {
  import opened Wire
  import opened Order
  import opened Text
  import Cards
  import Picker
  import Store

  datatype Status = Pending | Running | Finished

  /** The per-turn closing state, and the generation it belongs to. */
  datatype Turn = Turn(inflight: set<Ref>, owed: bool, synthetic: bool, settled: bool, lastGen: nat)

  datatype Tools = Tools(open: map<CallId, string>, names: map<CallId, string>, args: map<CallId, Args>,
                         output: map<CallId, string>)

  /** The part shared with the task's other entry points. */
  datatype Runtime = Runtime(status: Option<Status>, live: nat, session: Option<string>, picker: Picker.Picker)

  datatype State = State(turn: Turn, tools: Tools, cards: Cards.Ledger, visible: bool, rt: Runtime, row: Store.Row)

  datatype Action =
    | Deliver(gen: nat, ev: Event)    // one envelope from the backend
    | Tick                            // the 1 s progress heartbeat
    | Send                            // a user message goes out: Start, status Running
    | Kill                            // forced cancel: the clean Finish sent outside the pump
    | Rest(picker: Picker.Picker)     // config requests rewriting the shared picker
    | Hangup                          // the event stream ended

  /** What the step does not decide: which refreshes are due, and hash-map orders. */
  datatype Env = Env(due: set<Ref>, calls: seq<CallId>, refs: seq<Ref>)
  datatype Input = Input(action: Action, env: Env)

  datatype Out = Out(st: State, frames: seq<Frame>)

  function Open(gen: nat): Turn {
    Turn({}, false, false, false, gen)
  }

  const NOTHING_OPEN := Tools(map[], map[], map[], map[])

  function Init(row: Store.Row): State {
    State(Open(0), NOTHING_OPEN, map[], false, Runtime(None, 0, None, Picker.FRESH), row)
  }

  // ---- before the per-event work ----

  /** A newer generation wipes the per-turn flags. */
  function Advance(s: State, gen: nat): State {
    if gen > s.turn.lastGen then s.(turn := Open(gen), rt := s.rt.(status := Some(Status.Running))) else s
  }

  /** The second terminal of a turn that already settled. */
  predicate Duplicate(t: Turn, ev: Event) {
    t.settled && ev.TurnResult?
  }

  function Rearm(s: State, ev: Event): State {
    if s.turn.settled && ev.Content() then s.(turn := s.turn.(settled := false)) else s
  }

  // ---- events handled on their own ----

  function NameOf(names: map<CallId, string>, id: CallId): string {
    if id in names then names[id] else ""
  }

  /** The output a call has streamed so far, this chunk included. */
  function Heard(tools: Tools, id: CallId, text: string): string {
    (if id in tools.output then tools.output[id] else "") + text
  }

  /** Clients replace the output they hold, so each live frame carries all of it. */
  function LiveFrame(tools: Tools, id: CallId, text: string): Frame {
    CallFrame(ToolFrame(id, NameOf(tools.names, id), Null, InFlight, Some(Heard(tools, id, text)), None))
  }

  function LiveOutput(s: State, id: CallId, text: string): Out {
    Out(s.(visible := true, tools := s.tools.(output := s.tools.output[id := Heard(s.tools, id, text)])),
        [LiveFrame(s.tools, id, text)])
  }

  function NewCatalog(s: State, models: seq<ModelInfo>, modes: seq<ModeInfo>, commands: seq<string>): Out {
    var p := s.rt.picker.(catalog := Some(Picker.Catalog(modes, models)));
    Out(s.(rt := s.rt.(picker := p)),
        Picker.Push(modes, models, p) + if commands != [] then [CommandsFrame(commands)] else [])
  }

  // ---- the phases of every other event ----

  function Confirm(s: State, ev: Event): Out {
    if !ev.ConfigChanged? then Out(s, [])
    else
      var p := Picker.Confirmed(s.rt.picker, ev.mode, ev.model);
      Out(s.(rt := s.rt.(picker := p)),
          if p.catalog.Some? then Picker.Push(p.catalog.value.modes, p.catalog.value.models, p) else [])
  }

  function UpdateCards(s: State, ev: Event, due: set<Ref>): Out {
    var o := Cards.Update(s.cards, s.tools.names, s.tools.args, ev, due);
    Out(s.(cards := o.ledger, rt := s.rt.(live := |o.ledger|)), o.frames)
  }

  ghost function SettleCards(s: State, keepBackground: bool, env: Env): Out {
    var o := Cards.Settle(s.cards, keepBackground, env.refs);
    Out(s.(cards := o.ledger, rt := s.rt.(live := |o.ledger|)), o.frames)
  }

  function CancelFrame(id: CallId, name: string): Frame {
    CallFrame(ToolFrame(id, name, Null, Canceled, None, None))
  }

  function CancelFrames(open: map<CallId, string>, ids: seq<CallId>): (r: seq<Frame>)
    requires forall id | id in ids :: id in open
    ensures |r| == |ids|
    ensures forall i | 0 <= i < |ids| :: r[i] == CancelFrame(ids[i], open[ids[i]])
  {
    if ids == [] then [] else [CancelFrame(ids[0], open[ids[0]])] + CancelFrames(open, ids[1..])
  }

  /** The clean converge: nothing at all once the status is Finished. */
  function FinishOnce(s: State): Out {
    if s.rt.status == Some(Finished) then Out(s, [])
    else Out(s.(rt := s.rt.(status := Some(Finished))), [FinishFrame(s.rt.session)])
  }

  /** The roster drained by a kill while a Finish was owed: pay it here. */
  ghost function PayOwed(s: State, env: Env): Out {
    var t := s.turn.(owed := false, synthetic := true, settled := true);
    var c := SettleCards(s.(turn := t), false, env);
    var cancels := CancelFrames(s.tools.open, Visit(env.calls, s.tools.open.Keys));
    var f := FinishOnce(c.st.(tools := NOTHING_OPEN.(args := s.tools.args), visible := false));
    Out(f.st, c.frames + cancels + f.frames)
  }

  predicate PaysOwed(t: Turn, ev: Event) {
    && ev.SubagentUpdate? && ev.status.Terminal() && !ev.status.Completed?
    && t.owed && t.inflight - {ev.agent} == {}
  }

  ghost function TrackRoster(s: State, ev: Event, env: Env): Out {
    if !ev.SubagentUpdate? then Out(s, [])
    else if !ev.status.Terminal() then
      if ev.kind == Some(WorkflowContainer)
      then Out(s.(turn := s.turn.(inflight := s.turn.inflight + {ev.agent})), [])
      else Out(s, [])
    else
      var s1 := s.(turn := s.turn.(inflight := s.turn.inflight - {ev.agent}));
      if PaysOwed(s.turn, ev) then PayOwed(s1, env) else Out(s1, [])
  }

  /** A clean result while a workflow is in flight is only its launch. */
  predicate Holds(t: Turn, ev: Event) {
    t.inflight != {} && ev.CleanResult()
  }

  predicate DetachedExec(args: map<CallId, Args>, id: CallId) {
    id in args && args[id].Object? && args[id].source.Some? && "unifiedExec" <= args[id].source.value
  }

  /** The calls a clean end leaves running. */
  function KeptOpen(tools: Tools, clean: bool): set<CallId> {
    set id | id in tools.open && clean && DetachedExec(tools.args, id)
  }

  function Restrict<V>(m: map<CallId, V>, keys: set<CallId>): map<CallId, V> {
    map k | k in m && k in keys :: m[k]
  }

  ghost function CloseTurn(s: State, ev: Event, env: Env): Out {
    var t := s.turn.(owed := false, settled := s.turn.settled || ev.TurnResult?);
    var c := SettleCards(s.(turn := t, rt := s.rt.(status := Some(Finished))), ev.CleanResult(), env);
    var kept := KeptOpen(s.tools, ev.CleanResult());
    var cancels := CancelFrames(s.tools.open, Visit(env.calls, s.tools.open.Keys - kept));
    var tools := Tools(Restrict(s.tools.open, kept), Restrict(s.tools.names, kept), s.tools.args,
                       Restrict(s.tools.output, kept));
    Out(c.st.(tools := tools, visible := false), c.frames + cancels)
  }

  ghost function Boundary(s: State, ev: Event, hold: bool, env: Env): Out {
    match ev
    case TurnStarted => Out(s.(turn := Open(s.turn.lastGen), rt := s.rt.(status := Some(Status.Running))), [])
    case ToolCall(id, name, input, _) =>
      Out(s.(tools := s.tools.(names := s.tools.names[id := name], open := s.tools.open[id := name],
                               args := s.tools.args[id := input])), [])
    case ToolResult(id, _, _, _) => Out(s.(tools := s.tools.(open := s.tools.open - {id})), [])
    case TurnResult(_, _, _) => if hold then Out(s, []) else CloseTurn(s, ev, env)
    case Detached(_) => CloseTurn(s, ev, env)
    case BackendBound(Some(id)) => Out(s.(rt := s.rt.(session := Some(id))), [])
    case _ => Out(s, [])
  }

  function TipFor(outcome: TurnOutcome): Option<Tip> {
    match outcome
    case EndTurn => Some(EmptyTurnTip(EmptyTurnInfo))
    case Completed(EndOfTurn) => Some(EmptyTurnTip(EmptyTurnInfo))
    case Completed(Truncated(MaxTokens)) => Some(EmptyTurnTip(EmptyTurnMaxTokens))
    case Completed(Truncated(MaxTurns)) => Some(EmptyTurnTip(EmptyTurnMaxTurns))
    case Completed(Refused) => Some(EmptyTurnTip(EmptyTurnRefusal))
    case Completed(_) => Some(EmptyTurnTip(EmptyTurnWarning))
    case Failed => Some(EmptyTurnTip(EmptyTurnWarning))
    case Cancelled(_) => None
  }

  /** The blank-reply diagnostic, decided while `visible` still speaks of the ending turn. */
  function EmptyTip(visible: bool, ev: Event, hold: bool): Option<Tip> {
    if ev.TurnResult? && !ev.isError && !hold && !visible then TipFor(ev.outcome) else None
  }

  predicate Crash(settled: bool, exit: Option<ExitStatus>) {
    !settled && exit != Some(ExitStatus(Some(0), None))
  }

  /** Every arm yields at most one frame, so the loop over them runs at most once. */
  function Translate(ev: Event, settled: bool): Option<Frame> {
    match ev
    case BackendTurnBound(id) => Some(TurnBoundFrame(id))
    case MessageDelta(text) => Some(TextFrame(text))
    case ThoughtDelta(text) => Some(ThinkingFrame(text))
    case ToolCall(id, name, input, parent) => Some(CallFrame(ToolFrame(id, name, input, InFlight, None, parent)))
    case ToolResult(id, failed, output, parent) =>
      Some(CallFrame(ToolFrame(id, "", Null, if failed then ToolStatus.Error else Succeeded, output, parent)))
    case TurnResult(isError, text, outcome) =>
      if isError && !outcome.Cancelled? && !Blank(text) then Some(ErrorFrame(Upstream(text)))
      else Some(FinishFrame(None))
    case Detached(exit) => if Crash(settled, exit) then Some(ErrorFrame(Disconnected(exit))) else Some(FinishFrame(None))
    case Permission(id) => Some(PermissionFrame(id))
    case Ask(id) => Some(AskFrame(id))
    case UsageDelta(usage) => Some(UsageFrame(usage))
    case Plan => Some(PlanFrame)
    case Notice(message) => Some(TipsFrame(NoticeTip(message)))
    case SessionTitle(title) => Some(TitleFrame(title))
    case MessageLifecycle(id) => Some(LifecycleFrame(id))
    case _ => None
  }

  predicate Visible(f: Frame) {
    f.TextFrame? || f.ThinkingFrame? || f.CallFrame? || f.PlanFrame? || f.PermissionFrame?
  }

  /** A nameless follow-up frame gets the remembered name; a named one teaches it. */
  function StampName(names: map<CallId, string>, f: Frame): Frame {
    if f.CallFrame? && f.call.name == "" && f.call.callId in names
    then CallFrame(f.call.(name := names[f.call.callId])) else f
  }

  function LearnName(names: map<CallId, string>, f: Frame): map<CallId, string> {
    if f.CallFrame? && f.call.name != "" then names[f.call.callId := f.call.name] else names
  }

  function Forward(s: State, translated: Option<Frame>, hold: bool, tip: Option<Tip>): Out {
    if translated.None? then Out(s, [])
    else
      var f := Cards.Shield(s.cards, StampName(s.tools.names, translated.value));
      var s1 := s.(tools := s.tools.(names := LearnName(s.tools.names, translated.value)),
                   visible := s.visible || Visible(f));
      if !f.FinishFrame? then Out(s1, [f])
      else if s1.turn.synthetic then Out(s1, [])
      else
        var tips := if tip.Some? then [TipsFrame(tip.value)] else [];
        if hold then Out(s1.(turn := s1.turn.(owed := true)), tips + [SegmentBreak])
        else Out(s1, tips + [FinishFrame(f.session.OrElse(s1.rt.session))])
  }

  ghost function Process(s: State, ev: Event, env: Env): Out {
    var c := Confirm(s, ev);
    var k := UpdateCards(c.st, ev, env.due);
    var r := TrackRoster(k.st, ev, env);
    var hold := Holds(r.st.turn, ev);
    var tip := EmptyTip(r.st.visible, ev, hold);
    var b := Boundary(r.st, ev, hold, env);
    var p := b.st.(row := Store.Persist(b.st.row, ev));
    var f := Forward(p, Translate(ev, p.turn.settled), hold, tip);
    Out(f.st, c.frames + k.frames + r.frames + b.frames + f.frames)
  }

  ghost function DeliverTo(s: State, gen: nat, ev: Event, env: Env): Out {
    var s1 := Advance(s, gen);
    if Duplicate(s1.turn, ev) then Out(s1, [])
    else
      var s2 := Rearm(s1, ev);
      match ev
      case ToolOutputDelta(id, text) => LiveOutput(s2, id, text)
      case CatalogUpdated(models, modes, commands) => NewCatalog(s2, models, modes, commands)
      case _ => Process(s2, ev, env)
  }

  ghost function Step(s: State, i: Input): Out {
    match i.action
    case Deliver(gen, ev) => DeliverTo(s, gen, ev, i.env)
    case Tick => Out(s, Cards.TickFrames(s.cards, Visit(i.env.refs, s.cards.Keys), i.env.due))
    case Send => Out(s.(rt := s.rt.(status := Some(Status.Running))), [StartFrame(s.rt.session)])
    case Kill => FinishOnce(s)
    case Rest(picker) => Out(s.(rt := s.rt.(picker := picker)), [])
    case Hangup => SettleCards(s, false, i.env)
  }

  /** A whole run: the state reached and everything broadcast. */
  ghost function Run(s: State, ins: seq<Input>): Out {
    if ins == [] then Out(s, [])
    else
      var before := Run(s, ins[..|ins| - 1]);
      var o := Step(before.st, ins[|ins| - 1]);
      Out(o.st, before.frames + o.frames)
  }

  /** The state a run is in before its input number `k`. */
  ghost function Before(s: State, ins: seq<Input>, k: nat): State
    requires k <= |ins|
  {
    Run(s, ins[..k]).st
  }

  /** The frames input number `k` of a run sends. */
  ghost function Sent(s: State, ins: seq<Input>, k: nat): seq<Frame>
    requires k < |ins|
  {
    Step(Before(s, ins, k), ins[k]).frames
  }

  lemma Unstarted(s: State, ins: seq<Input>)
    ensures Before(s, ins, 0) == s
  {
    assert ins[..0] == [];
  }

  lemma Unroll(s: State, ins: seq<Input>, k: nat)
    requires k < |ins|
    ensures Before(s, ins, k + 1) == Step(Before(s, ins, k), ins[k]).st
    ensures Run(s, ins[..k + 1]).frames == Run(s, ins[..k]).frames + Sent(s, ins, k)
  {
    assert ins[..k + 1][..k] == ins[..k];
  }
}
