/**
 What one step does to the tool-call bookkeeping and in which order its frames go out:
 config and card frames first, then the cancellations a settlement makes, then at most the
 event's own frame with the empty-turn tip in front of it.
 */
module StepShape {
  import opened Wire
  import opened Order
  import opened PumpSpec
  import Cards
  import Store

  /** Frames that belong to no tool call and end nothing. */
  predicate Backdrop(fs: seq<Frame>) {
    forall f | f in fs :: f.OptionsFrame? || f.ProgressFrame? || f.CommandsFrame? || f.StartFrame?
  }

  /** The state outside the cards, the picker and the live count. */
  predicate SameDesk(s: State, t: State) {
    s.turn == t.turn && s.tools == t.tools && s.visible == t.visible && s.rt.status == t.rt.status
    && s.rt.session == t.rt.session
  }

  lemma {:induction false} SettleBackdrop(cards: Cards.Ledger, refs: seq<Ref>)
    requires forall r | r in refs :: r in cards
    ensures Backdrop(Cards.SettleFrames(cards, refs))
  {
    if refs != [] {
      SettleBackdrop(cards, refs[1..]);
    }
  }

  lemma {:induction false} TickBackdrop(cards: Cards.Ledger, refs: seq<Ref>, due: set<Ref>)
    requires forall r | r in refs :: r in cards
    ensures Backdrop(Cards.TickFrames(cards, refs, due))
  {
    if refs != [] {
      TickBackdrop(cards, refs[1..], due);
    }
  }

  lemma ConfirmShape(s: State, ev: Event)
    ensures SameDesk(s, Confirm(s, ev).st) && Confirm(s, ev).st.cards == s.cards
    ensures Backdrop(Confirm(s, ev).frames)
  {
  }

  lemma UpdateShape(s: State, ev: Event, due: set<Ref>)
    ensures SameDesk(s, UpdateCards(s, ev, due).st)
    ensures Backdrop(UpdateCards(s, ev, due).frames)
  {
  }

  lemma SettleShape(s: State, keep: bool, env: Env)
    ensures SameDesk(s, SettleCards(s, keep, env).st)
    ensures Backdrop(SettleCards(s, keep, env).frames)
  {
    SettleBackdrop(s.cards, Visit(env.refs, Cards.Doomed(s.cards, keep)));
  }

  /** `ids` lists `keys`, each once. */
  ghost predicate Lists(ids: seq<CallId>, keys: set<CallId>) {
    Distinct(ids) && forall id :: id in ids <==> id in keys
  }

  lemma PayOwedShape(s: State, env: Env) returns (before: seq<Frame>, ids: seq<CallId>)
    ensures Backdrop(before) && Lists(ids, s.tools.open.Keys)
    ensures PayOwed(s, env).frames == before + CancelFrames(s.tools.open, ids)
              + if s.rt.status == Some(Finished) then [] else [FinishFrame(s.rt.session)]
    ensures PayOwed(s, env).st.tools == NOTHING_OPEN.(args := s.tools.args)
    ensures !PayOwed(s, env).st.visible
  {
    hide SettleCards, CancelFrames, Visit;
    var t := s.turn.(owed := false, synthetic := true, settled := true);
    SettleShape(s.(turn := t), false, env);
    before := SettleCards(s.(turn := t), false, env).frames;
    ids := Visit(env.calls, s.tools.open.Keys);
  }

  lemma CloseTurnShape(s: State, ev: Event, env: Env) returns (before: seq<Frame>, ids: seq<CallId>)
    ensures Backdrop(before) && Lists(ids, s.tools.open.Keys - KeptOpen(s.tools, ev.CleanResult()))
    ensures CloseTurn(s, ev, env).frames == before + CancelFrames(s.tools.open, ids)
    ensures var kept := KeptOpen(s.tools, ev.CleanResult());
      CloseTurn(s, ev, env).st.tools
      == Tools(Restrict(s.tools.open, kept), Restrict(s.tools.names, kept), s.tools.args, Restrict(s.tools.output, kept))
    ensures !CloseTurn(s, ev, env).st.visible
    ensures CloseTurn(s, ev, env).st.rt.session == s.rt.session
    ensures CloseTurn(s, ev, env).st.turn
            == s.turn.(owed := false, settled := s.turn.settled || ev.TurnResult?)
  {
    hide SettleCards, CancelFrames, Visit, Restrict, KeptOpen;
    var t := s.turn.(owed := false, settled := s.turn.settled || ev.TurnResult?);
    var s1 := s.(turn := t, rt := s.rt.(status := Some(Finished)));
    SettleShape(s1, ev.CleanResult(), env);
    before := SettleCards(s1, ev.CleanResult(), env).frames;
    ids := Visit(env.calls, s.tools.open.Keys - KeptOpen(s.tools, ev.CleanResult()));
  }

  /** This event settles the turn: its real terminal, or the kill that pays the owed one. */
  predicate Settles(t: Turn, ev: Event) {
    (ev.TurnResult? && !Duplicate(t, ev) && !Holds(t, ev)) || ev.Detached? || PaysOwed(t, ev)
  }

  /** The frames that end a settling step. */
  function Ending(s: State, ev: Event): seq<Frame> {
    if ev.SubagentUpdate? then if s.rt.status == Some(Finished) then [] else [FinishFrame(s.rt.session)]
    else
      var f := Translate(ev, s.turn.settled || ev.TurnResult?);
      var tip := EmptyTip(s.visible, ev, false);
      if f == Some(FinishFrame(None)) then
        if s.turn.synthetic then []
        else (if tip.Some? then [TipsFrame(tip.value)] else []) + [FinishFrame(s.rt.session)]
      else if f.Some? then [f.value] else []
  }

  function ToolsAfterSettling(tools: Tools, ev: Event): Tools {
    if ev.SubagentUpdate? then NOTHING_OPEN.(args := tools.args)
    else
      var kept := KeptOpen(tools, ev.CleanResult());
      Tools(Restrict(tools.open, kept), Restrict(tools.names, kept), tools.args, Restrict(tools.output, kept))
  }

  /** Which calls a settlement closes as canceled: all, but a clean end spares detached commands. */
  function ToCancel(tools: Tools, ev: Event): set<CallId> {
    tools.open.Keys - KeptOpen(tools, ev.CleanResult())
  }

  lemma PayingShape(s: State, ev: Event, env: Env) returns (before: seq<Frame>, ids: seq<CallId>)
    requires PaysOwed(s.turn, ev)
    ensures Backdrop(before) && Lists(ids, ToCancel(s.tools, ev))
    ensures Process(s, ev, env).frames == before + CancelFrames(s.tools.open, ids) + Ending(s, ev)
    ensures Process(s, ev, env).st.tools == ToolsAfterSettling(s.tools, ev)
    ensures !Process(s, ev, env).st.visible
  {
    hide Confirm, UpdateCards, PayOwed, Store.Persist, CancelFrames;
    var c := Confirm(s, ev);
    ConfirmShape(s, ev);
    var k := UpdateCards(c.st, ev, env.due);
    UpdateShape(c.st, ev, env.due);
    var s1 := k.st.(turn := k.st.turn.(inflight := k.st.turn.inflight - {ev.agent}));
    var r := PayOwed(s1, env);
    var b0, ids0 := PayOwedShape(s1, env);
    before, ids := c.frames + k.frames + b0, ids0;
    assert Process(s, ev, env).frames == c.frames + k.frames + r.frames + [] + [];
    assert KeptOpen(s.tools, false) == {};
  }

  lemma ClosingForward(s: State, p: State, ev: Event)
    requires ev.TurnResult? || ev.Detached?
    requires p.turn == s.turn.(owed := false, settled := s.turn.settled || ev.TurnResult?)
    requires p.rt.session == s.rt.session && !p.visible
    ensures var o := Forward(p, Translate(ev, p.turn.settled), false, EmptyTip(s.visible, ev, false));
      o.frames == Ending(s, ev) && o.st == p
  {
  }

  lemma ClosingShape(s: State, ev: Event, env: Env) returns (before: seq<Frame>, ids: seq<CallId>)
    requires (ev.TurnResult? && !Holds(s.turn, ev)) || ev.Detached?
    ensures Backdrop(before) && Lists(ids, ToCancel(s.tools, ev))
    ensures Process(s, ev, env).frames == before + CancelFrames(s.tools.open, ids) + Ending(s, ev)
    ensures Process(s, ev, env).st.tools == ToolsAfterSettling(s.tools, ev)
    ensures !Process(s, ev, env).st.visible
  {
    hide Confirm, UpdateCards, CloseTurn, Store.Persist, CancelFrames, KeptOpen, Restrict;
    var c := Confirm(s, ev);
    ConfirmShape(s, ev);
    var k := UpdateCards(c.st, ev, env.due);
    UpdateShape(c.st, ev, env.due);
    var b := CloseTurn(k.st, ev, env);
    var b0, ids0 := CloseTurnShape(k.st, ev, env);
    before, ids := c.frames + k.frames + b0, ids0;
    var p := b.st.(row := Store.Persist(b.st.row, ev));
    assert p.tools == ToolsAfterSettling(s.tools, ev);
    var f := Forward(p, Translate(ev, p.turn.settled), false, EmptyTip(k.st.visible, ev, false));
    ClosingForward(s, p, ev);
    hide Ending, Forward, ToolsAfterSettling;
    assert Process(s, ev, env).frames == c.frames + k.frames + [] + b.frames + f.frames;
  }

  /** How an ordinary event touches the bookkeeping. */
  function ToolsAfter(tools: Tools, ev: Event): Tools {
    match ev
    case ToolCall(id, name, input, _) =>
      tools.(names := tools.names[id := name], open := tools.open[id := name], args := tools.args[id := input])
    case ToolResult(id, _, _, _) => tools.(open := tools.open - {id})
    case _ => tools
  }

  /** The frame an ordinary event sends, before the shield repaints it. */
  function OwnFrame(tools: Tools, ev: Event): Option<Frame> {
    var f := Translate(ev, false);
    if f.None? then None else Some(StampName(ToolsAfter(tools, ev).names, f.value))
  }

  /** Anything that neither settles nor is handled on its own. */
  predicate Ordinary(t: Turn, ev: Event) {
    !Settles(t, ev) && !Duplicate(t, ev) && !ev.ToolOutputDelta? && !ev.CatalogUpdated? && !ev.TurnResult?
  }

  lemma OrdinaryShape(s: State, ev: Event, env: Env) returns (before: seq<Frame>, cards: Cards.Ledger)
    requires Ordinary(s.turn, ev)
    ensures Backdrop(before)
    ensures var own := OwnFrame(s.tools, ev);
      Process(s, ev, env).frames == before + if own.Some? then [Cards.Shield(cards, own.value)] else []
    ensures Process(s, ev, env).st.tools == ToolsAfter(s.tools, ev)
    ensures Process(s, ev, env).st.visible
            == (s.visible || (OwnFrame(s.tools, ev).Some? && Visible(OwnFrame(s.tools, ev).value)))
    ensures cards == Process(s, ev, env).st.cards
  {
    hide Confirm, UpdateCards, PayOwed, CloseTurn, Store.Persist, Cards.Shield;
    var c := Confirm(s, ev);
    ConfirmShape(s, ev);
    var k := UpdateCards(c.st, ev, env.due);
    UpdateShape(c.st, ev, env.due);
    var r := TrackRoster(k.st, ev, env);
    var b := Boundary(r.st, ev, false, env);
    before := c.frames + k.frames;
    cards := Process(s, ev, env).st.cards;
    var p := b.st.(row := Store.Persist(b.st.row, ev));
    var own := OwnFrame(s.tools, ev);
    OrdinaryForward(p, s.tools, ev);
    var f := Forward(p, Translate(ev, p.turn.settled), false, None);
    assert Process(s, ev, env) == Out(f.st, c.frames + k.frames + [] + [] + f.frames);
  }

  lemma OrdinaryForward(p: State, tools: Tools, ev: Event)
    requires !ev.TurnResult? && !ev.Detached?
    requires p.tools == ToolsAfter(tools, ev)
    ensures var o := Forward(p, Translate(ev, p.turn.settled), false, None); var own := OwnFrame(tools, ev);
      && o.frames == (if own.Some? then [Cards.Shield(p.cards, own.value)] else [])
      && o.st.tools == p.tools && o.st.cards == p.cards
      && o.st.visible == (p.visible || (own.Some? && Visible(own.value)))
  {
    if ev.ToolCall? && ev.name != "" {
      assert p.tools.names[ev.callId := ev.name] == p.tools.names;
    }
  }

  /** A held launch result moves nothing and sends only its SegmentBreak. */
  lemma HeldShape(s: State, ev: Event, env: Env) returns (before: seq<Frame>)
    requires Holds(s.turn, ev)
    ensures Backdrop(before)
    ensures Process(s, ev, env).frames == before + if s.turn.synthetic then [] else [SegmentBreak]
    ensures Process(s, ev, env).st.tools == s.tools && Process(s, ev, env).st.visible == s.visible
  {
    hide Confirm, UpdateCards, Store.Persist;
    var c := Confirm(s, ev);
    ConfirmShape(s, ev);
    var k := UpdateCards(c.st, ev, env.due);
    UpdateShape(c.st, ev, env.due);
    before := c.frames + k.frames;
    var p := k.st.(row := Store.Persist(k.st.row, ev));
    var f := Forward(p, Some(FinishFrame(None)), true, None);
    assert Process(s, ev, env) == Out(f.st, c.frames + k.frames + [] + [] + f.frames);
  }

  /** The state an envelope is processed in, once generation and re-arming are dealt with. */
  function Ready(s: State, gen: nat, ev: Event): State {
    Rearm(Advance(s, gen), ev)
  }

  function NextTools(s: State, gen: nat, ev: Event): Tools {
    var t := Ready(s, gen, ev).turn;
    if Settles(t, ev) then ToolsAfterSettling(s.tools, ev)
    else if ev.ToolOutputDelta? then s.tools.(output := s.tools.output[ev.callId := Heard(s.tools, ev.callId, ev.text)])
    else ToolsAfter(s.tools, ev)
  }

  /** The frames behind the backdrop of a step that settles nothing. */
  ghost predicate Tail(tools: Tools, ev: Event, cards: Cards.Ledger, tail: seq<Frame>) {
    if ev.ToolOutputDelta? then tail == [LiveFrame(tools, ev.callId, ev.text)]
    else if ev.TurnResult? then tail == [] || tail == [SegmentBreak]
    else
      var own := OwnFrame(tools, ev);
      tail == if own.Some? then [Cards.Shield(cards, own.value)] else []
  }

  predicate NextVisible(s: State, gen: nat, ev: Event) {
    var t := Ready(s, gen, ev).turn;
    if Settles(t, ev) then false
    else if ev.ToolOutputDelta? then true
    else s.visible || (!ev.TurnResult? && OwnFrame(s.tools, ev).Some? && Visible(OwnFrame(s.tools, ev).value))
  }

  /** One envelope: the frames in their order, and the bookkeeping after them. */
  lemma DeliverShape(s: State, gen: nat, ev: Event, env: Env)
    returns (before: seq<Frame>, ids: seq<CallId>, tail: seq<Frame>)
    ensures Backdrop(before)
    ensures var o := DeliverTo(s, gen, ev, env); var r := Ready(s, gen, ev);
      && o.st.tools == NextTools(s, gen, ev)
      && o.st.visible == NextVisible(s, gen, ev)
      && (if Settles(r.turn, ev) then
            Lists(ids, ToCancel(s.tools, ev)) && tail == Ending(r, ev)
            && o.frames == before + CancelFrames(s.tools.open, ids) + tail
          else ids == [] && Tail(s.tools, ev, o.st.cards, tail) && o.frames == before + tail)
  {
    hide Process, ToolsAfterSettling, Ending, CancelFrames, ToCancel, Tail, Settles, OwnFrame, NewCatalog;
    var r := Ready(s, gen, ev);
    var o := DeliverTo(s, gen, ev, env);
    before, ids, tail := [], [], [];
    if Duplicate(r.turn, ev) {
      DuplicateShape(s, gen, ev, env);
    } else if ev.ToolOutputDelta? || ev.CatalogUpdated? {
      before, tail := AsideShape(s, r, ev);
    } else {
      assert o == Process(r, ev, env);
      before, ids, tail := ProcessShape(r, ev, env);
    }
  }

  lemma DuplicateShape(s: State, gen: nat, ev: Event, env: Env)
    requires Duplicate(Ready(s, gen, ev).turn, ev)
    ensures DeliverTo(s, gen, ev, env) == Out(Ready(s, gen, ev), [])
    ensures !Settles(Ready(s, gen, ev).turn, ev) && Tail(s.tools, ev, s.cards, [])
  {
  }

  lemma AsideShape(s: State, r: State, ev: Event) returns (before: seq<Frame>, tail: seq<Frame>)
    requires ev.ToolOutputDelta? || ev.CatalogUpdated?
    requires r.tools == s.tools && r.visible == s.visible
    ensures Backdrop(before) && Tail(s.tools, ev, r.cards, tail) && !Settles(r.turn, ev)
    ensures ev.ToolOutputDelta? ==>
      LiveOutput(r, ev.callId, ev.text).frames == before + tail
    ensures ev.CatalogUpdated? ==>
      var o := NewCatalog(r, ev.models, ev.modes, ev.commands);
      o.frames == before + tail && o.st.tools == s.tools && o.st.visible == s.visible
      && OwnFrame(s.tools, ev) == None && o.st.cards == r.cards
  {
    if ev.ToolOutputDelta? {
      before, tail := [], LiveOutput(r, ev.callId, ev.text).frames;
    } else {
      before, tail := NewCatalog(r, ev.models, ev.modes, ev.commands).frames, [];
    }
  }

  lemma ProcessShape(r: State, ev: Event, env: Env)
    returns (before: seq<Frame>, ids: seq<CallId>, tail: seq<Frame>)
    requires !Duplicate(r.turn, ev) && !ev.ToolOutputDelta? && !ev.CatalogUpdated?
    ensures Backdrop(before)
    ensures var o := Process(r, ev, env);
      if Settles(r.turn, ev) then
        && Lists(ids, ToCancel(r.tools, ev)) && tail == Ending(r, ev)
        && o.frames == before + CancelFrames(r.tools.open, ids) + tail
        && o.st.tools == ToolsAfterSettling(r.tools, ev) && !o.st.visible
      else
        && ids == [] && Tail(r.tools, ev, o.st.cards, tail) && o.frames == before + tail
        && o.st.tools == ToolsAfter(r.tools, ev)
        && o.st.visible == (r.visible || (!ev.TurnResult? && OwnFrame(r.tools, ev).Some?
                                          && Visible(OwnFrame(r.tools, ev).value)))
  {
    hide Process, ToolsAfterSettling, Ending, CancelFrames, ToCancel, OwnFrame, Cards.Shield;
    ids := [];
    if PaysOwed(r.turn, ev) {
      before, ids := PayingShape(r, ev, env);
      tail := Ending(r, ev);
    } else if (ev.TurnResult? && !Holds(r.turn, ev)) || ev.Detached? {
      before, ids := ClosingShape(r, ev, env);
      tail := Ending(r, ev);
    } else if ev.TurnResult? {
      before := HeldShape(r, ev, env);
      tail := if r.turn.synthetic then [] else [SegmentBreak];
    } else {
      var cards;
      before, cards := OrdinaryShape(r, ev, env);
      var own := OwnFrame(r.tools, ev);
      tail := if own.Some? then [Cards.Shield(cards, own.value)] else [];
    }
  }
}
