/**
 The closing protocol on its own: of the pump's state only the per-turn flags, the status
 and the bound session id decide which signals (Finish, Error, SegmentBreak) go out. The
 refinement theorem says so; every result about how turns end is proved on this machine.
 */
module TurnProtocol {
  import opened Wire
  import opened Order
  import opened Text
  import opened PumpSpec
  import Cards

  datatype Desk = Desk(turn: Turn, status: Option<Status>, session: Option<string>)
  datatype Reply = Reply(desk: Desk, signals: seq<Frame>)

  function View(s: State): Desk {
    Desk(s.turn, s.rt.status, s.rt.session)
  }

  function Advanced(d: Desk, gen: nat): Desk {
    if gen > d.turn.lastGen then d.(turn := Open(gen), status := Some(Status.Running)) else d
  }

  /** The terminal a result or an exit stands for. */
  function TerminalOf(ev: Event, settled: bool, session: Option<string>): Frame
    requires ev.TurnResult? || ev.Detached?
  {
    match ev
    case TurnResult(isError, text, outcome) =>
      if isError && !outcome.Cancelled? && !Blank(text) then ErrorFrame(Upstream(text)) else FinishFrame(session)
    case Detached(exit) => if Crash(settled, exit) then ErrorFrame(Disconnected(exit)) else FinishFrame(session)
  }

  /** After a cancel drain already finished the turn, only an Error still gets through. */
  function Unless(synthetic: bool, f: Frame): seq<Frame> {
    if synthetic && f.FinishFrame? then [] else [f]
  }

  function React(d: Desk, ev: Event): Reply {
    var t := d.turn;
    match ev
    case TurnStarted => Reply(d.(turn := Open(t.lastGen), status := Some(Status.Running)), [])
    case BackendBound(Some(id)) => Reply(d.(session := Some(id)), [])
    case SubagentUpdate(agent, status, kind, _) =>
      if !status.Terminal() then
        Reply(if kind == Some(WorkflowContainer) then d.(turn := t.(inflight := t.inflight + {agent})) else d, [])
      else if PaysOwed(t, ev) then
        Reply(d.(turn := t.(inflight := {}, owed := false, synthetic := true, settled := true),
                 status := Some(Finished)),
              if d.status == Some(Finished) then [] else [FinishFrame(d.session)])
      else Reply(d.(turn := t.(inflight := t.inflight - {agent})), [])
    case TurnResult(_, _, _) =>
      if Holds(t, ev) then
        if t.synthetic then Reply(d, []) else Reply(d.(turn := t.(owed := true)), [SegmentBreak])
      else Reply(d.(turn := t.(owed := false, settled := true), status := Some(Finished)),
                 Unless(t.synthetic, TerminalOf(ev, true, d.session)))
    case Detached(_) =>
      Reply(d.(turn := t.(owed := false), status := Some(Finished)),
            Unless(t.synthetic, TerminalOf(ev, t.settled, d.session)))
    case _ => Reply(d, [])
  }

  function Handle(d: Desk, gen: nat, ev: Event): Reply {
    var d1 := Advanced(d, gen);
    if Duplicate(d1.turn, ev) then Reply(d1, [])
    else React(if d1.turn.settled && ev.Content() then d1.(turn := d1.turn.(settled := false)) else d1, ev)
  }

  function DeskStep(d: Desk, a: Action): Reply {
    match a
    case Deliver(gen, ev) => Handle(d, gen, ev)
    case Send => Reply(d.(status := Some(Status.Running)), [])
    case Kill =>
      if d.status == Some(Finished) then Reply(d, [])
      else Reply(d.(status := Some(Finished)), [FinishFrame(d.session)])
    case _ => Reply(d, [])
  }

  // ---- what never signals ----

  lemma {:induction false} SettleQuiet(cards: Cards.Ledger, refs: seq<Ref>)
    requires forall r | r in refs :: r in cards
    ensures Quiet(Cards.SettleFrames(cards, refs))
  {
    if refs != [] {
      SettleQuiet(cards, refs[1..]);
    }
  }

  lemma {:induction false} TickQuiet(cards: Cards.Ledger, refs: seq<Ref>, due: set<Ref>)
    requires forall r | r in refs :: r in cards
    ensures Quiet(Cards.TickFrames(cards, refs, due))
  {
    if refs != [] {
      TickQuiet(cards, refs[1..], due);
    }
  }

  lemma ConfirmQuiet(s: State, ev: Event)
    ensures Quiet(Confirm(s, ev).frames)
    ensures View(Confirm(s, ev).st) == View(s)
  {
  }

  lemma UpdateQuiet(s: State, ev: Event, due: set<Ref>)
    ensures Quiet(UpdateCards(s, ev, due).frames)
    ensures View(UpdateCards(s, ev, due).st) == View(s)
  {
  }

  lemma SettleCardsQuiet(s: State, keep: bool, env: Env)
    ensures Quiet(SettleCards(s, keep, env).frames)
    ensures View(SettleCards(s, keep, env).st) == View(s)
  {
    SettleQuiet(s.cards, Visit(env.refs, Cards.Doomed(s.cards, keep)));
  }

  lemma PayOwedSignals(s: State, env: Env)
    ensures var o := PayOwed(s, env);
      && View(o.st) == View(s).(turn := s.turn.(owed := false, synthetic := true, settled := true),
                                status := Some(Finished))
      && Signals(o.frames) == if s.rt.status == Some(Finished) then [] else [FinishFrame(s.rt.session)]
  {
    hide SettleCards, CancelFrames, Visit, Signals;
    var t := s.turn.(owed := false, synthetic := true, settled := true);
    SettleCardsQuiet(s.(turn := t), false, env);
    var c := SettleCards(s.(turn := t), false, env);
    var cancels := CancelFrames(s.tools.open, Visit(env.calls, s.tools.open.Keys));
    var quiet := c.frames + cancels;
    assert Quiet(quiet);
    var f := FinishOnce(c.st.(tools := NOTHING_OPEN.(args := s.tools.args), visible := false));
    SignalsAfterQuiet(quiet, f.frames);
    if s.rt.status != Some(Finished) {
      SignalsOne(FinishFrame(s.rt.session));
    } else {
      SignalsQuiet([]);
    }
  }

  lemma CloseTurnQuiet(s: State, ev: Event, env: Env)
    ensures var o := CloseTurn(s, ev, env);
      && Quiet(o.frames)
      && View(o.st) == View(s).(turn := s.turn.(owed := false, settled := s.turn.settled || ev.TurnResult?),
                                status := Some(Finished))
  {
    var t := s.turn.(owed := false, settled := s.turn.settled || ev.TurnResult?);
    SettleCardsQuiet(s.(turn := t, rt := s.rt.(status := Some(Finished))), ev.CleanResult(), env);
  }

  lemma ForwardSignals(s: State, f: Option<Frame>, hold: bool, tip: Option<Tip>)
    requires f.Some? ==> !f.value.SegmentBreak?
    ensures var o := Forward(s, f, hold, tip);
      if f.None? || !f.value.Terminal() then View(o.st) == View(s) && Signals(o.frames) == []
      else if f.value.ErrorFrame? then View(o.st) == View(s) && Signals(o.frames) == [f.value]
      else if s.turn.synthetic then View(o.st) == View(s) && Signals(o.frames) == []
      else if hold then View(o.st) == View(s).(turn := s.turn.(owed := true)) && Signals(o.frames) == [SegmentBreak]
      else View(o.st) == View(s) && Signals(o.frames) == [FinishFrame(f.value.session.OrElse(s.rt.session))]
  {
    var o := Forward(s, f, hold, tip);
    if f.Some? && f.value.FinishFrame? && !s.turn.synthetic {
      var tips := if tip.Some? then [TipsFrame(tip.value)] else [];
      SignalsQuiet(tips);
      SignalsConcat(tips, if hold then [SegmentBreak] else [FinishFrame(f.value.session.OrElse(s.rt.session))]);
    }
  }

  /** What the roster phase does to the protocol. */
  function Tracked(d: Desk, ev: Event): Reply {
    if ev.SubagentUpdate? then React(d, ev) else Reply(d, [])
  }

  lemma TrackSignals(s: State, ev: Event, env: Env)
    ensures View(TrackRoster(s, ev, env).st) == Tracked(View(s), ev).desk
    ensures Signals(TrackRoster(s, ev, env).frames) == Tracked(View(s), ev).signals
  {
    hide PayOwed;
    if ev.SubagentUpdate? && PaysOwed(s.turn, ev) {
      var s1 := s.(turn := s.turn.(inflight := s.turn.inflight - {ev.agent}));
      assert TrackRoster(s, ev, env) == PayOwed(s1, env);
      PayOwedSignals(s1, env);
    }
  }

  /** What the boundary phase does to the protocol. */
  function Bounded(d: Desk, ev: Event, hold: bool): Desk {
    var t := d.turn;
    match ev
    case TurnStarted => d.(turn := Open(t.lastGen), status := Some(Status.Running))
    case BackendBound(Some(id)) => d.(session := Some(id))
    case TurnResult(_, _, _) =>
      if hold then d else d.(turn := t.(owed := false, settled := true), status := Some(Finished))
    case Detached(_) => d.(turn := t.(owed := false), status := Some(Finished))
    case _ => d
  }

  lemma BoundaryView(s: State, ev: Event, hold: bool, env: Env)
    ensures View(Boundary(s, ev, hold, env).st) == Bounded(View(s), ev, hold)
    ensures Quiet(Boundary(s, ev, hold, env).frames)
  {
    if ev.TurnResult? || ev.Detached? {
      CloseTurnQuiet(s, ev, env);
      hide CloseTurn;
    }
  }

  lemma ProcessSignals(s: State, ev: Event, env: Env)
    ensures View(Process(s, ev, env).st) == React(View(s), ev).desk
    ensures Signals(Process(s, ev, env).frames) == React(View(s), ev).signals
  {
    hide Confirm, UpdateCards, TrackRoster, Boundary, Forward, Store.Persist, EmptyTip, Signals;
    var c := Confirm(s, ev);
    var k := UpdateCards(c.st, ev, env.due);
    var r := TrackRoster(k.st, ev, env);
    var hold := Holds(r.st.turn, ev);
    var tip := EmptyTip(r.st.visible, ev, hold);
    var b := Boundary(r.st, ev, hold, env);
    var p := b.st.(row := Store.Persist(b.st.row, ev));
    var f := Forward(p, Translate(ev, p.turn.settled), hold, tip);
    ConfirmQuiet(s, ev);
    UpdateQuiet(c.st, ev, env.due);
    TrackSignals(k.st, ev, env);
    BoundaryView(r.st, ev, hold, env);
    ForwardSignals(p, Translate(ev, p.turn.settled), hold, tip);
    SignalsConcat(c.frames + k.frames + r.frames + b.frames, f.frames);
    SignalsConcat(c.frames + k.frames + r.frames, b.frames);
    SignalsAfterQuiet(c.frames + k.frames, r.frames);
    SignalsQuiet(b.frames);
    assert Process(s, ev, env) == Out(f.st, c.frames + k.frames + r.frames + b.frames + f.frames);
  }

  lemma AsideQuiet(s: State, ev: Event)
    ensures ev.ToolOutputDelta? ==>
      View(LiveOutput(s, ev.callId, ev.text).st) == View(s) && Quiet(LiveOutput(s, ev.callId, ev.text).frames)
    ensures ev.CatalogUpdated? ==>
      View(NewCatalog(s, ev.models, ev.modes, ev.commands).st) == View(s)
      && Quiet(NewCatalog(s, ev.models, ev.modes, ev.commands).frames)
  {
  }

  lemma DeliverSignals(s: State, gen: nat, ev: Event, env: Env)
    ensures View(DeliverTo(s, gen, ev, env).st) == Handle(View(s), gen, ev).desk
    ensures Signals(DeliverTo(s, gen, ev, env).frames) == Handle(View(s), gen, ev).signals
  {
    hide Process, LiveOutput, NewCatalog, Signals;
    var s1 := Advance(s, gen);
    SignalsQuiet([]);
    if !Duplicate(s1.turn, ev) {
      var s2 := Rearm(s1, ev);
      if ev.ToolOutputDelta? || ev.CatalogUpdated? {
        AsideQuiet(s2, ev);
        SignalsQuiet(DeliverTo(s, gen, ev, env).frames);
      } else {
        hide React;
        ProcessSignals(s2, ev, env);
        assert DeliverTo(s, gen, ev, env) == Process(s2, ev, env);
      }
    }
  }

  /** One pump step is one step of the closing protocol, whatever the rest of the state holds. */
  lemma StepRefines(s: State, i: Input)
    ensures View(Step(s, i).st) == DeskStep(View(s), i.action).desk
    ensures Signals(Step(s, i).frames) == DeskStep(View(s), i.action).signals
  {
    match i.action
    case Deliver(gen, ev) =>
      DeliverSignals(s, gen, ev, i.env);
      hide DeliverTo, Handle;
    case Tick =>
      var refs := Visit(i.env.refs, s.cards.Keys);
      TickQuiet(s.cards, refs, i.env.due);
      SignalsQuiet(Cards.TickFrames(s.cards, refs, i.env.due));
    case Hangup =>
      SettleCardsQuiet(s, false, i.env);
      SignalsQuiet(SettleCards(s, false, i.env).frames);
    case _ =>
  }
}
