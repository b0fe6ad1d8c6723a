/**
 The ledger of live progress cards: one per declared background container, keyed by its
 task id and drawn on the tool call that launched it.
 */
module Cards {
  import opened Wire
  import opened Order

  datatype CardKind = Workflow | Background
  datatype CardStatus = Live | Done | Broken | Stopped {
    function OnWire(): ToolStatus {
      match this
      case Live => InFlight
      case Done => Succeeded
      case Broken => ToolStatus.Error
      case Stopped => Canceled
    }
  }

  datatype Card = Card(kind: CardKind, callId: CallId, name: string, args: Args,
                       roster: map<Ref, Option<LoopState>>, phases: set<nat>, status: CardStatus)
  {
    /** A workflow card without a roster renders to nothing, however hard it is asked. */
    predicate Renders() {
      kind.Background? || roster != map[]
    }

    function Face(): Frame {
      ProgressFrame(ToolFrame(callId, name, args, status.OnWire(), None, None), roster, false)
    }

    /** `due`: the rendering changed and the throttle window has passed. */
    function Emission(forced: bool, due: bool): seq<Frame> {
      if Renders() && (forced || due) then [Face()] else []
    }

    function Settled(end: CardStatus): Card {
      this.(status := end, roster := map a | a in roster :: Some(LoopState.Done))
    }
  }

  type Ledger = map<Ref, Card>

  datatype Outcome = Outcome(ledger: Ledger, frames: seq<Frame>)

  function Opened(kind: TaskKind, call: CallId, names: map<CallId, string>, args: map<CallId, Args>): Option<Card> {
    var input := if call in args then args[call] else Null;
    if kind.WorkflowContainer? then
      Some(Card(Workflow, call, if call in names then names[call] else "Workflow", input, map[], {}, Live))
    else if call in names then
      Some(Card(Background, call, names[call], input, map[], {}, Live))
    else None
  }

  function EndOf(status: SubagentStatus): CardStatus {
    if status.Completed? then CardStatus.Done else if status.Errored? then Broken else Stopped
  }

  /** A terminal for a card this pump never opened still settles the stored row. */
  function Orphan(call: CallId, status: SubagentStatus): Frame {
    ProgressFrame(ToolFrame(call, "", Null, EndOf(status).OnWire(), None, None), map[], true)
  }

  /** One agent's detail folded into the roster. */
  function Upsert(card: Card, agent: Ref, state: Option<LoopState>): Card {
    var merged := if agent in card.roster && state.None? then card.roster[agent] else state;
    card.(roster := card.roster[agent := merged])
  }

  /** One event folded into the ledger, with the frames it sends at once. */
  function Update(cards: Ledger, names: map<CallId, string>, args: map<CallId, Args>, ev: Event, due: set<Ref>): Outcome {
    match ev
    case SubagentUpdate(agent, status, kind, call) =>
      if !status.Terminal() then
        if kind.None? || agent in cards || call.None? then Outcome(cards, [])
        else
          (match Opened(kind.value, call.value, names, args)
           case None => Outcome(cards, [])
           case Some(card) =>
             Outcome(cards[agent := card], if card.kind.Background? then card.Emission(true, agent in due) else []))
      else if agent in cards then
        Outcome(cards - {agent}, cards[agent].Settled(EndOf(status)).Emission(true, agent in due))
      else
        Outcome(cards, if call.Some? then [Orphan(call.value, status)] else [])
    case SubagentDetail(agent, container, state) =>
      if container.None? || container.value !in cards then Outcome(cards, [])
      else
        var before := cards[container.value];
        var card := Upsert(before, agent, state);
        var forced := agent !in before.roster || before.roster[agent] != card.roster[agent];
        Outcome(cards[container.value := card], card.Emission(forced, container.value in due))
    case WorkflowPhase(task, index) =>
      if task !in cards then Outcome(cards, [])
      else
        var before := cards[task];
        var card := before.(phases := before.phases + {index});
        Outcome(cards[task := card], card.Emission(index !in before.phases, task in due))
    case _ => Outcome(cards, [])
  }

  /** The cards a terminal takes down; background work outlives a clean one. */
  function Doomed(cards: Ledger, keepBackground: bool): set<Ref> {
    set r | r in cards && !(keepBackground && cards[r].kind.Background?)
  }

  function SettleFrames(cards: Ledger, refs: seq<Ref>): seq<Frame>
    requires forall r | r in refs :: r in cards
  {
    if refs == [] then []
    else cards[refs[0]].Settled(Stopped).Emission(true, false) + SettleFrames(cards, refs[1..])
  }

  ghost function Settle(cards: Ledger, keepBackground: bool, wish: seq<Ref>): Outcome {
    var doomed := Doomed(cards, keepBackground);
    Outcome(cards - doomed, SettleFrames(cards, Visit(wish, doomed)))
  }

  /** The heartbeat's pass over the open cards. */
  function TickFrames(cards: Ledger, refs: seq<Ref>, due: set<Ref>): seq<Frame>
    requires forall r | r in refs :: r in cards
  {
    if refs == [] then []
    else cards[refs[0]].Emission(false, refs[0] in due) + TickFrames(cards, refs[1..], due)
  }

  /** While a card is live on a call, no translated frame may repaint that call terminal. */
  function Shield(cards: Ledger, f: Frame): Frame {
    if f.CallFrame? && !f.call.status.InFlight? && exists r | r in cards :: cards[r].callId == f.call.callId
    then CallFrame(f.call.(status := InFlight))
    else f
  }
}
