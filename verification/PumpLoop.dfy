/**
 The session event pump as the loop it is: fields and maps rewritten in place, hash maps
 drained in whatever order they come. Every method is proved equal to its phase in
 `PumpSpec`, so the run theorems hold of this code.
 */
module PumpLoop {
  import opened Wire
  import opened Order
  import opened PumpSpec
  import Cards
  import Picker
  import Store

  /** The state shared between the pump and the task's other entry points. */
  class SessionRuntime {
    var status: Option<Status>
    var live: nat
    var session: Option<string>
    var picker: Picker.Picker
    var tx: seq<Frame>  // everything broadcast so far

    ghost function View(): Runtime
      reads this
    {
      Runtime(status, live, session, picker)
    }

    constructor ()
      ensures View() == Runtime(None, 0, None, Picker.FRESH) && tx == []
    {
      status, live, session, picker, tx := None, 0, None, Picker.FRESH, [];
    }

    method Broadcast(f: Frame)
      modifies this`tx
      ensures tx == old(tx) + [f]
    {
      tx := tx + [f];
    }

    /** Status and Finish together, or neither: a repeat in the Finished state is a no-op. */
    method EmitFinishOnce()
      modifies this`status, this`tx
      ensures status == Some(Finished)
      ensures tx == old(tx) + if old(status) == Some(Finished) then [] else [FinishFrame(session)]
    {
      var already := status == Some(Finished);
      if !already {
        status := Some(Finished);
      }
      if already {
        return;
      }
      Broadcast(FinishFrame(session));
    }
  }

  lemma {:induction false} SettleFramesSnoc(cards: Cards.Ledger, refs: seq<Ref>, r: Ref)
    requires r in cards && forall x | x in refs :: x in cards
    ensures forall x | x in refs + [r] :: x in cards
    ensures Cards.SettleFrames(cards, refs + [r])
            == Cards.SettleFrames(cards, refs) + cards[r].Settled(Cards.Stopped).Emission(true, false)
  {
    if refs != [] {
      assert (refs + [r])[1..] == refs[1..] + [r];
      SettleFramesSnoc(cards, refs[1..], r);
    }
  }

  lemma {:induction false} TickFramesSnoc(cards: Cards.Ledger, refs: seq<Ref>, r: Ref, due: set<Ref>)
    requires r in cards && forall x | x in refs :: x in cards
    ensures forall x | x in refs + [r] :: x in cards
    ensures Cards.TickFrames(cards, refs + [r], due)
            == Cards.TickFrames(cards, refs, due) + cards[r].Emission(false, r in due)
  {
    if refs != [] {
      assert (refs + [r])[1..] == refs[1..] + [r];
      TickFramesSnoc(cards, refs[1..], r, due);
    }
  }

  /** Everything listed is a card of the ledger. */
  predicate Within(refs: seq<Ref>, cards: Cards.Ledger) {
    forall r | r in refs :: r in cards
  }

  lemma CancelFramesSnoc(open: map<CallId, string>, ids: seq<CallId>, id: CallId)
    requires id in open && forall x | x in ids :: x in open
    ensures forall x | x in ids + [id] :: x in open
    ensures CancelFrames(open, ids + [id]) == CancelFrames(open, ids) + [CancelFrame(id, open[id])]
  {
  }

  /** The drain of a killed workflow, field by field. */
  lemma PayOwedFields(s: State, env: Env)
    ensures var o := Cards.Settle(s.cards, false, env.refs); var paid := PayOwed(s, env);
      && paid.st == State(s.turn.(owed := false, synthetic := true, settled := true),
                          Tools(map[], map[], s.tools.args, map[]), o.ledger, false,
                          s.rt.(live := |o.ledger|, status := Some(Finished)), s.row)
      && paid.frames == o.frames + CancelFrames(s.tools.open, Visit(env.calls, s.tools.open.Keys))
                        + if s.rt.status == Some(Finished) then [] else [FinishFrame(s.rt.session)]
  {
    hide Cards.Settle, CancelFrames, Visit;
  }

  /** A real terminal, field by field. */
  lemma CloseTurnFields(s: State, ev: Event, env: Env)
    ensures var o := Cards.Settle(s.cards, ev.CleanResult(), env.refs); var closed := CloseTurn(s, ev, env);
      var kept := KeptOpen(s.tools, ev.CleanResult());
      && closed.st == State(s.turn.(owed := false, settled := s.turn.settled || ev.TurnResult?),
                            Tools(Restrict(s.tools.open, kept), Restrict(s.tools.names, kept), s.tools.args,
                                  Restrict(s.tools.output, kept)),
                            o.ledger, false, s.rt.(live := |o.ledger|, status := Some(Finished)), s.row)
      && closed.frames == o.frames + CancelFrames(s.tools.open, Visit(env.calls, s.tools.open.Keys - kept))
  {
    hide Cards.Settle, CancelFrames, Visit, KeptOpen, Restrict;
  }

  lemma NothingKept(tools: Tools)
    ensures KeptOpen(tools, false) == {} && tools.open.Keys - {} == tools.open.Keys
  {
  }

  /** What a turn end keeps of the names and live output: the entries of calls still open. */
  function RetainOpen(tools: Tools): Tools {
    tools.(output := map id | id in tools.output && id in tools.open :: tools.output[id],
           names := map id | id in tools.names && id in tools.open :: tools.names[id])
  }

  lemma RetainedTools(tools: Tools, clean: bool)
    ensures var kept := KeptOpen(tools, clean);
      RetainOpen(tools.(open := Restrict(tools.open, kept)))
      == Tools(Restrict(tools.open, kept), Restrict(tools.names, kept), tools.args, Restrict(tools.output, kept))
  {
  }

  lemma NothingToUpdate(cards: Cards.Ledger, tools: Tools, ev: Event, due: set<Ref>)
    requires !ev.SubagentUpdate? && !ev.SubagentDetail? && !ev.WorkflowPhase?
    ensures Cards.Update(cards, tools.names, tools.args, ev, due) == Cards.Outcome(cards, [])
  {
  }

  class Pump {
    const rt: SessionRuntime
    var turn: Turn
    var tools: Tools
    var cards: Cards.Ledger
    var visible: bool
    var row: Store.Row

    ghost function View(): State
      reads this, rt
    {
      State(turn, tools, cards, visible, rt.View(), row)
    }

    constructor (rt: SessionRuntime, row: Store.Row)
      ensures this.rt == rt
      ensures rt.View() == Init(row).rt ==> View() == Init(row)
    {
      this.rt := rt;
      turn, tools := Open(0), NOTHING_OPEN;
      cards, visible, this.row := map[], false, row;
    }

    /** Take these cards down one by one, in the order the map yields them. */
    method TakeDown(doomed: set<Ref>) returns (ghost order: seq<Ref>)
      requires doomed <= cards.Keys
      modifies this`cards, rt`tx
      ensures cards == old(cards) - doomed
      ensures rt.tx == old(rt.tx) + Cards.SettleFrames(old(cards), Visit(order, doomed))
    {
      ghost var was, tx := cards, rt.tx;
      ghost var sent: seq<Frame> := [];
      var left := doomed;
      order := [];
      SweptStart(doomed);
      assert Cards.SettleFrames(was, []) == [];
      hide Visit, Cards.Card.Emission, Cards.Card.Settled, Cards.SettleFrames, Swept;
      while left != {}
        invariant Swept(doomed, left, order) && left <= doomed && Within(order, was)
        invariant cards == was - (doomed - left)
        invariant sent == Cards.SettleFrames(was, order) && rt.tx == tx + sent
        decreases left
      {
        var r :| r in left;
        var face := cards[r].Settled(Cards.Stopped).Emission(true, false);
        cards := cards - {r};
        rt.tx := rt.tx + face;
        SettleFramesSnoc(was, order, r);
        SweptStep(doomed, left, order, r);
        left, order, sent := left - {r}, order + [r], sent + face;
      }
      SweptAll(doomed, order);
    }

    /** Settle the cards an end takes down; background work outlives a clean one. */
    method SettleWorkflowCards(keepBackground: bool) returns (ghost order: seq<Ref>)
      modifies this`cards, rt`live, rt`tx
      ensures var o := Cards.Settle(old(cards), keepBackground, order);
        cards == o.ledger && rt.live == |o.ledger| && rt.tx == old(rt.tx) + o.frames
    {
      hide Visit, Cards.SettleFrames;
      order := TakeDown(Cards.Doomed(cards, keepBackground));
      rt.live := |cards|;
    }

    /** Drain the open calls: cancel each, except the detached commands a clean end leaves running. */
    method CancelOpenTools(clean: bool) returns (ghost order: seq<CallId>)
      modifies this`tools, rt`tx
      ensures var was := old(tools); var kept := KeptOpen(was, clean);
        && tools == was.(open := Restrict(was.open, kept))
        && rt.tx == old(rt.tx) + CancelFrames(was.open, Visit(order, was.open.Keys - kept))
    {
      hide CancelFrames, Visit;
      ghost var was := tools;
      var drained := tools.open;
      var left := drained.Keys;
      var keptOpen: map<CallId, string> := map[];
      tools := tools.(open := map[]);
      order := [];
      while left != {}
        invariant left <= drained.Keys && tools == was.(open := map[]) && Distinct(order)
        invariant forall id :: id in keptOpen <==> id in drained && id !in left && clean && DetachedExec(tools.args, id)
        invariant forall id | id in keptOpen :: keptOpen[id] == drained[id]
        invariant forall id :: id in order <==> id in drained && id !in left && !(clean && DetachedExec(tools.args, id))
        invariant forall id | id in order :: id in drained
        invariant rt.tx == old(rt.tx) + CancelFrames(drained, order)
        decreases left
      {
        var id :| id in left;
        left := left - {id};
        if clean && DetachedExec(tools.args, id) {
          keptOpen := keptOpen[id := drained[id]];
          continue;
        }
        rt.Broadcast(CancelFrame(id, drained[id]));
        CancelFramesSnoc(drained, order, id);
        order := order + [id];
      }
      tools := tools.(open := keptOpen);
      SweptAll(was.open.Keys - KeptOpen(was, clean), order);
    }

    /** A newer generation opens a fresh turn. */
    method AdvanceGeneration(gen: nat)
      modifies this`turn, rt`status
      ensures View() == Advance(old(View()), gen)
    {
      if gen > turn.lastGen {
        turn := turn.(lastGen := gen);
        rt.status := Some(Status.Running);
        turn := turn.(settled := false);
        turn := turn.(inflight := {}, owed := false, synthetic := false);
      }
    }

    method AccumulateOutput(id: CallId, text: string)
      modifies this`visible, this`tools, rt`tx
      ensures var o := LiveOutput(old(View()), id, text); View() == o.st && rt.tx == old(rt.tx) + o.frames
    {
      visible := true;
      var acc := (if id in tools.output then tools.output[id] else "") + text;
      tools := tools.(output := tools.output[id := acc]);
      rt.Broadcast(CallFrame(ToolFrame(id, NameOf(tools.names, id), Null, InFlight, Some(acc), None)));
    }

    method AdoptCatalog(models: seq<ModelInfo>, modes: seq<ModeInfo>, commands: seq<string>)
      modifies rt`picker, rt`tx
      ensures var o := NewCatalog(old(View()), models, modes, commands);
        View() == o.st && rt.tx == old(rt.tx) + o.frames
    {
      rt.picker := rt.picker.(catalog := Some(Picker.Catalog(modes, models)));
      rt.tx := rt.tx + Picker.Push(modes, models, rt.picker);
      if commands != [] {
        rt.Broadcast(CommandsFrame(commands));
      }
    }

    method ConfirmConfig(ev: Event)
      modifies rt`picker, rt`tx
      ensures var o := Confirm(old(View()), ev); View() == o.st && rt.tx == old(rt.tx) + o.frames
    {
      if ev.ConfigChanged? {
        if ev.mode.Some? {
          rt.picker := rt.picker.(mode := ev.mode);
        }
        if ev.model.Some? {
          rt.picker := rt.picker.(model := ev.model);
        }
        if rt.picker.catalog.Some? {
          rt.tx := rt.tx + Picker.Push(rt.picker.catalog.value.modes, rt.picker.catalog.value.models, rt.picker);
        }
      }
    }

    /** A task declared or ended: its card opens, or settles and leaves. */
    method UpdateDeclared(ev: Event, due: set<Ref>)
      requires ev.SubagentUpdate?
      modifies this`cards, rt`tx
      ensures var o := Cards.Update(old(cards), tools.names, tools.args, ev, due);
        cards == o.ledger && rt.tx == old(rt.tx) + o.frames
    {
      hide Cards.Opened, Cards.Card.Emission, Cards.Card.Settled, Cards.Orphan, Cards.EndOf;
      var agent, call := ev.agent, ev.launchedBy;
      if !ev.status.Terminal() {
        if ev.kind.Some? && agent !in cards && call.Some? {
          var admitted := Cards.Opened(ev.kind.value, call.value, tools.names, tools.args);
          if admitted.Some? {
            if admitted.value.kind.Background? {
              rt.tx := rt.tx + admitted.value.Emission(true, agent in due);
            }
            cards := cards[agent := admitted.value];
          }
        }
      } else if agent in cards {
        var card := cards[agent];
        cards := cards - {agent};
        rt.tx := rt.tx + card.Settled(Cards.EndOf(ev.status)).Emission(true, agent in due);
      } else if call.Some? {
        rt.Broadcast(Cards.Orphan(call.value, ev.status));
      }
    }

    /** A member's detail or a phase: the card is redrawn if it changed, or if it is due. */
    method UpdateDetail(ev: Event, due: set<Ref>)
      requires ev.SubagentDetail? || ev.WorkflowPhase?
      modifies this`cards, rt`tx
      ensures var o := Cards.Update(old(cards), tools.names, tools.args, ev, due);
        cards == o.ledger && rt.tx == old(rt.tx) + o.frames
    {
      hide Cards.Card.Emission;
      match ev {
        case SubagentDetail(agent, container, state) =>
          if container.Some? && container.value in cards {
            var card := cards[container.value];
            var before := card.roster;
            card := Cards.Upsert(card, agent, state);
            var forced := agent !in before || before[agent] != card.roster[agent];
            cards := cards[container.value := card];
            rt.tx := rt.tx + card.Emission(forced, container.value in due);
          }
        case WorkflowPhase(task, index) =>
          if task in cards {
            var card := cards[task];
            var forced := index !in card.phases;
            card := card.(phases := card.phases + {index});
            cards := cards[task := card];
            rt.tx := rt.tx + card.Emission(forced, task in due);
          }
      }
    }

    method UpdateWorkflowCards(ev: Event, due: set<Ref>)
      modifies this`cards, rt`live, rt`tx
      ensures var o := UpdateCards(old(View()), ev, due); View() == o.st && rt.tx == old(rt.tx) + o.frames
    {
      hide Cards.Update;
      match ev {
        case SubagentUpdate(_, _, _, _) => UpdateDeclared(ev, due);
        case SubagentDetail(_, _, _) => UpdateDetail(ev, due);
        case WorkflowPhase(_, _) => UpdateDetail(ev, due);
        case _ => NothingToUpdate(cards, tools, ev, due);
      }
      rt.live := |cards|;
    }

    /** The owed Finish of a killed workflow: close everything the turn left open, then converge. */
    method SettleOwedFinish() returns (ghost env: Env)
      modifies this, rt
      ensures var o := PayOwed(old(View()), env); View() == o.st && rt.tx == old(rt.tx) + o.frames
    {
      hide Visit, CancelFrames, Cards.Settle, PayOwed, KeptOpen, Restrict;
      ghost var was, tx := View(), rt.tx;
      NothingKept(was.tools);
      turn := turn.(owed := false, synthetic := true, settled := true);
      ghost var refs := SettleWorkflowCards(false);
      ghost var calls := CancelOpenTools(false);
      tools := tools.(output := map[], names := map[], open := map[]);
      visible := false;
      rt.EmitFinishOnce();
      env := Env({}, calls, refs);
      ghost var settled := Cards.Settle(was.cards, false, refs);
      ghost var cancels := CancelFrames(was.tools.open, Visit(calls, was.tools.open.Keys));
      assert rt.tx == tx + (settled.frames + cancels +
                            if was.rt.status == Some(Finished) then [] else [FinishFrame(was.rt.session)]);
      PayOwedFields(was, env);
    }

    method TrackWorkflows(ev: Event) returns (ghost env: Env)
      modifies this, rt
      ensures var o := TrackRoster(old(View()), ev, env); View() == o.st && rt.tx == old(rt.tx) + o.frames
    {
      hide PayOwed;
      env := Env({}, [], []);
      if ev.SubagentUpdate? {
        if !ev.status.Terminal() {
          if ev.kind == Some(WorkflowContainer) {
            turn := turn.(inflight := turn.inflight + {ev.agent});
          }
        } else {
          turn := turn.(inflight := turn.inflight - {ev.agent});
          if turn.inflight == {} && turn.owed && !ev.status.Completed? {
            env := SettleOwedFinish();
          }
        }
      }
    }

    method CloseAtTerminal(ev: Event) returns (ghost env: Env)
      modifies this, rt
      ensures var o := CloseTurn(old(View()), ev, env); View() == o.st && rt.tx == old(rt.tx) + o.frames
    {
      hide Visit, CancelFrames, Cards.Settle, CloseTurn, KeptOpen, Restrict, RetainOpen;
      ghost var was, tx := View(), rt.tx;
      turn := turn.(owed := false);
      rt.status := Some(Finished);
      var keepBackground := ev.CleanResult();
      ghost var refs := SettleWorkflowCards(keepBackground);
      ghost var calls := CancelOpenTools(keepBackground);
      if ev.TurnResult? {
        turn := turn.(settled := true);
      }
      tools := RetainOpen(tools);
      RetainedTools(was.tools, keepBackground);
      visible := false;
      env := Env({}, calls, refs);
      ghost var settled := Cards.Settle(was.cards, keepBackground, refs);
      ghost var kept := KeptOpen(was.tools, keepBackground);
      assert rt.tx == tx + (settled.frames + CancelFrames(was.tools.open, Visit(calls, was.tools.open.Keys - kept)));
      CloseTurnFields(was, ev, env);
    }

    method ReachBoundary(ev: Event, hold: bool) returns (ghost env: Env)
      modifies this, rt
      ensures var o := Boundary(old(View()), ev, hold, env); View() == o.st && rt.tx == old(rt.tx) + o.frames
    {
      hide CloseTurn;
      env := Env({}, [], []);
      match ev {
        case TurnStarted =>
          rt.status := Some(Status.Running);
          turn := turn.(settled := false, inflight := {}, owed := false, synthetic := false);
        case ToolCall(id, name, input, _) =>
          tools := tools.(names := tools.names[id := name]);
          tools := tools.(open := tools.open[id := name]);
          tools := tools.(args := tools.args[id := input]);
        case ToolResult(id, _, _, _) =>
          tools := tools.(open := tools.open - {id});
        case TurnResult(_, _, _) =>
          if !hold {
            env := CloseAtTerminal(ev);
          }
        case Detached(_) =>
          env := CloseAtTerminal(ev);
        case BackendBound(Some(id)) =>
          rt.session := Some(id);
        case _ =>
      }
    }

    /** Stamp, shield, note visibility, and send - or swallow, or hold back - the event's frame. */
    method ForwardFrame(translated: Option<Frame>, hold: bool, tip: Option<Tip>)
      modifies this`tools, this`visible, this`turn, rt`tx
      ensures var o := Forward(old(View()), translated, hold, tip); View() == o.st && rt.tx == old(rt.tx) + o.frames
    {
      if translated.None? {
        return;
      }
      var ev := StampName(tools.names, translated.value);
      tools := tools.(names := LearnName(tools.names, translated.value));
      ev := Cards.Shield(cards, ev);
      if Visible(ev) {
        visible := true;
      }
      if turn.synthetic && ev.FinishFrame? {
        return;
      }
      if ev.FinishFrame? && tip.Some? {
        rt.Broadcast(TipsFrame(tip.value));
      }
      if hold && ev.FinishFrame? {
        turn := turn.(owed := true);
        rt.Broadcast(SegmentBreak);
        return;
      }
      if ev.FinishFrame? && ev.session.None? {
        ev := FinishFrame(rt.session);
      }
      rt.Broadcast(ev);
    }

    /** The phases ahead of the boundary: confirmations, cards, roster. */
    method Account(ev: Event, due: set<Ref>) returns (ghost env: Env)
      modifies this, rt
      ensures var c := Confirm(old(View()), ev); var k := UpdateCards(c.st, ev, due); var r := TrackRoster(k.st, ev, env);
        View() == r.st && rt.tx == old(rt.tx) + c.frames + k.frames + r.frames
    {
      hide Confirm, UpdateCards, TrackRoster;
      ghost var s, tx := View(), rt.tx;
      ConfirmConfig(ev);
      ghost var c := Confirm(s, ev);
      assert View() == c.st && rt.tx == tx + c.frames;
      UpdateWorkflowCards(ev, due);
      assert View() == UpdateCards(c.st, ev, due).st;
      env := TrackWorkflows(ev);
    }

    method ProcessEvent(ev: Event, due: set<Ref>) returns (ghost env: Env)
      modifies this, rt
      ensures env.due == due
      ensures var o := Process(old(View()), ev, env); View() == o.st && rt.tx == old(rt.tx) + o.frames
    {
      hide Confirm, UpdateCards, TrackRoster, Boundary, Forward, Store.Persist, EmptyTip, Translate, Process;
      ghost var s, tx := View(), rt.tx;
      ghost var env1 := Account(ev, due);
      ghost var c := Confirm(s, ev);
      ghost var k := UpdateCards(c.st, ev, due);
      ghost var r := TrackRoster(k.st, ev, env1);
      var hold := turn.inflight != {} && ev.CleanResult();
      var tip := EmptyTip(visible, ev, hold);
      ghost var env2 := ReachBoundary(ev, hold);
      ghost var b := Boundary(r.st, ev, hold, env2);
      row := Store.Persist(row, ev);
      ghost var p := b.st.(row := Store.Persist(b.st.row, ev));
      assert View() == p;
      ForwardFrame(Translate(ev, turn.settled), hold, tip);
      ghost var f := Forward(p, Translate(ev, p.turn.settled), hold, tip);
      assert View() == f.st && rt.tx == tx + c.frames + k.frames + r.frames + b.frames + f.frames;
      env := if ev.SubagentUpdate? then env1.(due := due) else env2.(due := due);
      OneEnv(k.st, r.st, ev, hold, env1, env2, env);
      InOrder(s, ev, env, hold, c, k, r, b, f);
    }

    /** After a settled terminal a second one is dropped, and content starts the turn again. */
    method GuardDuplicate(ev: Event) returns (duplicate: bool)
      modifies this`turn
      ensures duplicate == Duplicate(old(turn), ev)
      ensures View() == if duplicate then old(View()) else Rearm(old(View()), ev)
      ensures turn.settled <==> old(turn.settled) && !(ev.MessageDelta? || ev.ThoughtDelta? || ev.ToolCall?
                                                       || ev.ToolResult? || ev.Permission? || ev.Ask?)
    {
      if turn.settled {
        if ev.TurnResult? {
          return true;
        }
        if ev.Content() {
          turn := turn.(settled := false);
        }
      }
      return false;
    }

    method DeliverEnvelope(gen: nat, ev: Event, due: set<Ref>) returns (ghost env: Env)
      modifies this, rt
      ensures env.due == due
      ensures var o := DeliverTo(old(View()), gen, ev, env); View() == o.st && rt.tx == old(rt.tx) + o.frames
    {
      hide Process, LiveOutput, NewCatalog, Advance;
      env := Env(due, [], []);
      AdvanceGeneration(gen);
      var duplicate := GuardDuplicate(ev);
      if duplicate {
        return;
      }
      hide Rearm, Duplicate;
      match ev {
        case ToolOutputDelta(id, text) => AccumulateOutput(id, text);
        case CatalogUpdated(models, modes, commands) => AdoptCatalog(models, modes, commands);
        case _ => env := ProcessEvent(ev, due);
      }
    }

    /** The heartbeat: re-render the open cards that are due. */
    method ProgressTick(due: set<Ref>) returns (ghost order: seq<Ref>)
      modifies rt`tx
      ensures rt.tx == old(rt.tx) + Cards.TickFrames(cards, Visit(order, cards.Keys), due)
    {
      ghost var tx := rt.tx;
      ghost var sent: seq<Frame> := [];
      var left := cards.Keys;
      order := [];
      SweptStart(cards.Keys);
      assert Cards.TickFrames(cards, [], due) == [];
      hide Visit, Cards.Card.Emission, Cards.TickFrames, Swept;
      while left != {}
        invariant Swept(cards.Keys, left, order) && left <= cards.Keys && Within(order, cards)
        invariant sent == Cards.TickFrames(cards, order, due) && rt.tx == tx + sent
        decreases left
      {
        var r :| r in left;
        var face := cards[r].Emission(false, r in due);
        rt.tx := rt.tx + face;
        TickFramesSnoc(cards, order, r, due);
        SweptStep(cards.Keys, left, order, r);
        left, order, sent := left - {r}, order + [r], sent + face;
      }
      SweptAll(cards.Keys, order);
    }

    /**
     Between two rounds the task's other entry points have the shared runtime: a send announces
     itself, a forced kill converges, a config request rewrites the picker.
     */
    method Outside(act: Action)
      requires act.Send? || act.Kill? || act.Rest?
      modifies rt
      ensures var o := Step(old(View()), Input(act, Env({}, [], []))); View() == o.st && rt.tx == old(rt.tx) + o.frames
    {
      match act {
        case Send =>
          rt.Broadcast(StartFrame(rt.session));
          rt.status := Some(Status.Running);
        case Kill => rt.EmitFinishOnce();
        case Rest(picker) => rt.picker := picker;
      }
    }

    method Take(arrival: Action, due: set<Ref>) returns (ghost i: Input)
      requires !arrival.Hangup?
      modifies this, rt
      ensures i.action == arrival && i.env.due == due
      ensures var o := Step(old(View()), i); View() == o.st && rt.tx == old(rt.tx) + o.frames
    {
      hide DeliverTo, Visit, Cards.TickFrames;
      ghost var env := Env(due, [], []);
      if arrival.Deliver? {
        env := DeliverEnvelope(arrival.gen, arrival.ev, due);
      } else if arrival.Tick? {
        ghost var order := ProgressTick(due);
        env := env.(refs := order);
      } else {
        Outside(arrival);
      }
      i := Input(arrival, env);
    }

    /**
     The loop: one envelope or one heartbeat at a time until the stream ends, with the other
     entry points writing the shared runtime in between, then settle every card still open. It
     is a run of the specification, input for input.
     */
    method Serve(arrivals: seq<Action>, dues: seq<set<Ref>>) returns (ghost ins: seq<Input>)
      requires |dues| == |arrivals|
      requires forall k | 0 <= k < |arrivals| :: !arrivals[k].Hangup?
      modifies this, rt
      ensures |ins| == |arrivals| + 1 && ins[|arrivals|].action == Hangup
      ensures Follows(ins[..|arrivals|], arrivals, dues)
      ensures var o := Run(old(View()), ins); View() == o.st && rt.tx == old(rt.tx) + o.frames
    {
      hide Step, Run, SettleCards;
      ghost var s, tx := View(), rt.tx;
      ins := [];
      RunNothing(s);
      for n := 0 to |arrivals|
        invariant Follows(ins, arrivals[..n], dues[..n])
        invariant View() == Run(s, ins).st && rt.tx == tx + Run(s, ins).frames
      {
        ghost var i := Take(arrivals[n], dues[n]);
        RunSnoc(s, ins, i);
        assert arrivals[..n + 1] == arrivals[..n] + [arrivals[n]] && dues[..n + 1] == dues[..n] + [dues[n]];
        ins := ins + [i];
      }
      assert arrivals[..|arrivals|] == arrivals && dues[..|arrivals|] == dues;
      ghost var served := ins;
      ghost var order := HangUp();
      ghost var last := Input(Hangup, Env({}, [], order));
      RunSnoc(s, ins, last);
      HangupStep(Run(s, ins).st, order);
      ins := ins + [last];
      assert ins[..|arrivals|] == served;
    }

    method HangUp() returns (ghost order: seq<Ref>)
      modifies this`cards, rt`live, rt`tx
      ensures var o := SettleCards(old(View()), false, Env({}, [], order));
        View() == o.st && rt.tx == old(rt.tx) + o.frames
    {
      hide Cards.Settle;
      order := SettleWorkflowCards(false);
    }
  }

  lemma RunSnoc(s: State, ins: seq<Input>, i: Input)
    ensures Run(s, ins + [i]).st == Step(Run(s, ins).st, i).st
    ensures Run(s, ins + [i]).frames == Run(s, ins).frames + Step(Run(s, ins).st, i).frames
  {
    hide Step;
    assert (ins + [i])[..|ins|] == ins;
  }

  /** The inputs are these arrivals, with these refreshes due. */
  predicate Follows(ins: seq<Input>, arrivals: seq<Action>, dues: seq<set<Ref>>) {
    && |ins| == |arrivals| == |dues|
    && forall k | 0 <= k < |ins| :: ins[k].action == arrivals[k] && ins[k].env.due == dues[k]
  }

  lemma RunNothing(s: State)
    ensures Run(s, []) == Out(s, [])
  {
  }

  lemma HangupStep(s: State, order: seq<Ref>)
    ensures Step(s, Input(Hangup, Env({}, [], order))) == SettleCards(s, false, Env({}, [], order))
  {
  }

  lemma InOrder(s: State, ev: Event, env: Env, hold: bool, c: Out, k: Out, r: Out, b: Out, f: Out)
    requires c == Confirm(s, ev)
    requires k == UpdateCards(c.st, ev, env.due)
    requires r == TrackRoster(k.st, ev, env)
    requires hold == Holds(r.st.turn, ev)
    requires b == Boundary(r.st, ev, hold, env)
    requires var p := b.st.(row := Store.Persist(b.st.row, ev));
      f == Forward(p, Translate(ev, p.turn.settled), hold, EmptyTip(r.st.visible, ev, hold))
    ensures Process(s, ev, env).st == f.st
    ensures forall tx: seq<Frame> ::
      tx + Process(s, ev, env).frames == tx + c.frames + k.frames + r.frames + b.frames + f.frames
  {
    hide Confirm, UpdateCards, TrackRoster, Boundary, Forward, Store.Persist, EmptyTip, Translate;
  }

  /** The two draining phases of one event never both use the order. */
  lemma OneEnv(k: State, r: State, ev: Event, hold: bool, env1: Env, env2: Env, env: Env)
    requires env.calls == (if ev.SubagentUpdate? then env1 else env2).calls
    requires env.refs == (if ev.SubagentUpdate? then env1 else env2).refs
    ensures TrackRoster(k, ev, env) == TrackRoster(k, ev, env1)
    ensures Boundary(r, ev, hold, env) == Boundary(r, ev, hold, env2)
  {
  }
}
