/**
 What the agent says reaches the client: through all the closing, suppressing and settling,
 the pump neither loses, doubles, reorders nor invents content.
 */
module ContentStream {
  import opened Wire
  import opened PumpSpec
  import opened StepShape
  import opened TurnEnds
  import CardLedger
  import Cards
  import Order

  /** Frames that carry what the agent said, asked or reported. */
  predicate Carries(f: Frame) {
    || f.TextFrame? || f.ThinkingFrame? || f.PermissionFrame? || f.AskFrame? || f.UsageFrame? || f.PlanFrame?
    || f.TurnBoundFrame? || f.TitleFrame? || f.LifecycleFrame? || (f.TipsFrame? && f.tip.NoticeTip?)
  }

  /** The content among some frames, in order. */
  function Content(fs: seq<Frame>): seq<Frame> {
    if fs == [] then [] else (if Carries(fs[0]) then [fs[0]] else []) + Content(fs[1..])
  }

  /** What a client should see of an event's content. */
  function Said(ev: Event): seq<Frame> {
    match ev
    case MessageDelta(text) => [TextFrame(text)]
    case ThoughtDelta(text) => [ThinkingFrame(text)]
    case Permission(id) => [PermissionFrame(id)]
    case Ask(id) => [AskFrame(id)]
    case UsageDelta(usage) => [UsageFrame(usage)]
    case Plan => [PlanFrame]
    case BackendTurnBound(id) => [TurnBoundFrame(id)]
    case SessionTitle(title) => [TitleFrame(title)]
    case MessageLifecycle(id) => [LifecycleFrame(id)]
    case Notice(message) => [TipsFrame(NoticeTip(message))]
    case _ => []
  }

  function AllSaid(evs: seq<Event>): seq<Frame> {
    if evs == [] then [] else AllSaid(evs[..|evs| - 1]) + Said(evs[|evs| - 1])
  }

  lemma {:induction false} ContentConcat(a: seq<Frame>, b: seq<Frame>)
    ensures Content(a + b) == Content(a) + Content(b)
  {
    hide Carries;
    if a == [] {
      assert a + b == b;
    } else {
      assert (a + b)[1..] == a[1..] + b;
      ContentConcat(a[1..], b);
    }
  }

  lemma {:induction false} NoContent(fs: seq<Frame>)
    requires forall f | f in fs :: !Carries(f)
    ensures Content(fs) == []
  {
    hide Carries;
    if fs != [] {
      NoContent(fs[1..]);
    }
  }

  lemma OneFrame(f: Frame)
    ensures Content([f]) == if Carries(f) then [f] else []
  {
    assert [f][1..] == [];
  }

  /** A settling event ends with a terminal or a tip, never with content. */
  lemma EndingSaysNothing(s: State, ev: Event)
    requires Settles(s.turn, ev)
    ensures Content(Ending(s, ev)) == [] && Said(ev) == []
  {
    assert forall f | f in Ending(s, ev) :: !Carries(f);
    NoContent(Ending(s, ev));
  }

  /** The event's own frame is its content: naming and shielding touch tool calls only. */
  lemma TailSays(tools: Tools, ev: Event, cards: Cards.Ledger, tail: seq<Frame>)
    requires Tail(tools, ev, cards, tail)
    ensures Content(tail) == Said(ev)
  {
    if tail != [] {
      OneFrame(tail[0]);
      assert tail == [tail[0]];
    }
  }

  lemma DeliverSays(s: State, gen: nat, ev: Event, env: Env)
    ensures Content(DeliverTo(s, gen, ev, env).frames) == Said(ev)
  {
    hide DeliverTo, Ready, Ending, Settles, Tail, Said, CancelFrames, Content;
    var before, ids, tail := DeliverShape(s, gen, ev, env);
    NoContent(before);
    if Settles(Ready(s, gen, ev).turn, ev) {
      var cancels := CancelFrames(s.tools.open, ids);
      EndingSaysNothing(Ready(s, gen, ev), ev);
      NoContent(cancels);
      ContentConcat(before + cancels, tail);
      ContentConcat(before, cancels);
    } else {
      TailSays(s.tools, ev, DeliverTo(s, gen, ev, env).st.cards, tail);
      ContentConcat(before, tail);
    }
  }

  lemma OthersSayNothing(s: State, i: Input)
    requires !i.action.Deliver?
    ensures forall f | f in Step(s, i).frames :: !Carries(f)
  {
    match i.action
    case Tick => TickBackdrop(s.cards, Order.Visit(i.env.refs, s.cards.Keys), i.env.due);
    case Hangup => SettleShape(s, false, i.env);
    case _ =>
  }

  lemma StepSays(s: State, i: Input)
    ensures Content(Step(s, i).frames) == Said(EventOf(i.action))
  {
    hide DeliverTo, Content, Carries;
    if i.action.Deliver? {
      DeliverSays(s, i.action.gen, i.action.ev, i.env);
    } else {
      OthersSayNothing(s, i);
      hide Step;
      NoContent(Step(s, i).frames);
    }
  }

  /** Over any run the client sees exactly what was said, each once and in order. */
  lemma {:induction false} EverythingSaidIsSent(s: State, ins: seq<Input>)
    ensures Content(Run(s, ins).frames) == AllSaid(EventsOf(ins))
  {
    hide Step, Content, Said;
    if ins == [] {
      NoContent([]);
    } else {
      var k := |ins| - 1;
      EverythingSaidIsSent(s, ins[..k]);
      StepSays(Run(s, ins[..k]).st, ins[k]);
      ContentConcat(Run(s, ins[..k]).frames, Step(Run(s, ins[..k]).st, ins[k]).frames);
      assert EventsOf(ins)[..k] == EventsOf(ins[..k]);
    }
  }

  // ---- tool calls and their results ----

  /** A call and its result each reach the client as one frame, behind nothing but the backdrop. */
  lemma ToolFramesReachClient(s: State, gen: nat, ev: Event, env: Env) returns (before: seq<Frame>)
    requires ev.ToolCall? || ev.ToolResult?
    ensures Backdrop(before)
    ensures ev.ToolCall? ==>
      DeliverTo(s, gen, ev, env).frames
      == before + [CallFrame(ToolFrame(ev.callId, ev.name, ev.input, InFlight, None, ev.parentCall))]
    ensures ev.ToolResult? ==>
      var status := if CardLedger.LiveOn(DeliverTo(s, gen, ev, env).st.cards, ev.callId) then InFlight
                    else if ev.failed then ToolStatus.Error else Succeeded;
      DeliverTo(s, gen, ev, env).frames
      == before + [CallFrame(ToolFrame(ev.callId, NameOf(s.tools.names, ev.callId), Null, status, ev.output, ev.parentCall))]
  {
    hide DeliverTo, Ready;
    var ids, tail;
    before, ids, tail := DeliverShape(s, gen, ev, env);
  }
}
