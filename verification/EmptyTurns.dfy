/** The blank-reply diagnostic, over whole runs: shown exactly for clean turns that said nothing. */
module EmptyTurns {
  import opened Wire
  import opened PumpSpec
  import opened TurnEnds
  import opened StepShape
  import opened ToolCalls
  import Cards
  import Store

  ghost predicate SettlesHere(s: State, a: Action) {
    a.Deliver? && Settles(Ready(s, a.gen, a.ev).turn, a.ev)
  }

  /** Has anything visible been forwarded since the last settlement? */
  ghost predicate Spoke(s: State, ins: seq<Input>, k: nat)
    requires k <= |ins|
  {
    if k == 0 then s.visible
    else if SettlesHere(Before(s, ins, k - 1), ins[k - 1].action) then false
    else Spoke(s, ins, k - 1) || exists f | f in Sent(s, ins, k - 1) :: Visible(f)
  }

  lemma TailVisible(tools: Tools, ev: Event, cards: Cards.Ledger, tail: seq<Frame>)
    requires Tail(tools, ev, cards, tail)
    ensures (exists f | f in tail :: Visible(f))
            <==> ev.ToolOutputDelta?
                 || (!ev.TurnResult? && OwnFrame(tools, ev).Some? && Visible(OwnFrame(tools, ev).value))
    ensures forall f | f in tail :: !(f.TipsFrame? && f.tip.EmptyTurnTip?)
  {
    if ev.ToolOutputDelta? {
      assert tail[0] in tail && Visible(tail[0]);
    } else if !ev.TurnResult? && OwnFrame(tools, ev).Some? {
      assert tail[0] in tail && (Visible(tail[0]) <==> Visible(OwnFrame(tools, ev).value));
    }
  }

  /** The flag follows what was sent. */
  lemma VisibleStep(s: State, i: Input)
    ensures Step(s, i).st.visible
            == (!SettlesHere(s, i.action) && (s.visible || exists f | f in Step(s, i).frames :: Visible(f)))
  {
    if !i.action.Deliver? {
      OtherInputs(s, i);
      hide Step;
    } else {
      var before, ids, tail := DeliverShape(s, i.action.gen, i.action.ev, i.env);
      assert Step(s, i) == DeliverTo(s, i.action.gen, i.action.ev, i.env);
      hide Step, DeliverTo, Ready, Settles, Ending, OwnFrame, CancelFrames, Tail;
      if !SettlesHere(s, i.action) {
        TailVisible(s.tools, i.action.ev, Step(s, i).st.cards, tail);
        assert forall f | f in before :: !Visible(f);
      }
    }
  }

  lemma SentIs(s: State, ins: seq<Input>, k: nat)
    requires k < |ins|
    ensures Sent(s, ins, k) == Step(Before(s, ins, k), ins[k]).frames
  {
    hide Step, Before;
  }

  lemma {:induction false} VisibleIsSpoke(s: State, ins: seq<Input>, k: nat)
    requires k <= |ins|
    ensures Before(s, ins, k).visible == Spoke(s, ins, k)
  {
    hide Step, SettlesHere, Sent;
    if k == 0 {
      assert ins[..0] == [];
    } else {
      VisibleIsSpoke(s, ins, k - 1);
      hide Before;
      assert Sent(s, ins, k - 1) == Step(Before(s, ins, k - 1), ins[k - 1]).frames by { SentIs(s, ins, k - 1); }
      Unroll(s, ins, k - 1);
      VisibleStep(Before(s, ins, k - 1), ins[k - 1]);
    }
  }

  /** A turn that said nothing has no call open but commands that outlived an earlier turn. */
  predicate OnlyDetachedOpen(s: State) {
    s.visible || forall id | id in s.tools.open :: DetachedExec(s.tools.args, id)
  }

  lemma OnlyDetachedStep(s: State, i: Input)
    requires OnlyDetachedOpen(s)
    ensures OnlyDetachedOpen(Step(s, i).st)
  {
    if !i.action.Deliver? {
      OtherInputs(s, i);
    } else {
      var ev := i.action.ev;
      var before, ids, tail := DeliverShape(s, i.action.gen, ev, i.env);
      assert Step(s, i).st.tools == NextTools(s, i.action.gen, ev);
      assert Step(s, i).st.visible == NextVisible(s, i.action.gen, ev);
      hide Step, DeliverTo, Ready, Settles;
    }
  }

  lemma {:induction false} OnlyDetachedRun(row: Store.Row, ins: seq<Input>, k: nat)
    requires k <= |ins|
    ensures OnlyDetachedOpen(Before(Init(row), ins, k))
  {
    if k == 0 {
      assert ins[..0] == [];
    } else {
      OnlyDetachedRun(row, ins, k - 1);
      hide Step, OnlyDetachedOpen, Init;
      OnlyDetachedStep(Before(Init(row), ins, k - 1), ins[k - 1]);
      Unroll(Init(row), ins, k - 1);
    }
  }

  predicate EmptyTip(f: Frame) {
    f.TipsFrame? && f.tip.EmptyTurnTip?
  }

  /** What a settling envelope ends with, tip and Finish included. */
  lemma EndingTips(s: State, ev: Event)
    requires Settles(s.turn, ev)
    ensures (exists f | f in Ending(s, ev) :: EmptyTip(f))
            <==> ev.CleanResult() && !s.visible && !s.turn.synthetic
    ensures (exists f | f in Ending(s, ev) :: EmptyTip(f)) ==>
              |Ending(s, ev)| == 2 && EmptyTip(Ending(s, ev)[0]) && Ending(s, ev)[1].FinishFrame?
    ensures ev.CleanResult() && (exists f | f in Ending(s, ev) :: f.FinishFrame?) ==> !s.turn.synthetic
  {
    var end := Ending(s, ev);
    if ev.TurnResult? && |end| == 2 {
      assert end[0] in end && end[1] in end;
    }
  }

  lemma StepTips(s: State, i: Input) returns (before: seq<Frame>, tail: seq<Frame>)
    requires OnlyDetachedOpen(s)
    ensures Step(s, i).frames == before + tail
    ensures forall f | f in before :: !EmptyTip(f)
    ensures forall f | f in tail :: !f.Cancels()
    ensures (exists f | f in tail :: EmptyTip(f)) ==>
              EventOf(i.action).CleanResult() && !s.visible
              && |tail| == 2 && EmptyTip(tail[0]) && tail[1].FinishFrame?
              && forall f | f in before :: !f.Cancels()
    ensures EventOf(i.action).CleanResult() && (exists f | f in Step(s, i).frames :: f.FinishFrame?) ==>
              ((exists f | f in tail :: EmptyTip(f)) <==> !s.visible)
  {
    if !i.action.Deliver? {
      OtherInputs(s, i);
      hide Step;
      before, tail := Step(s, i).frames, [];
    } else {
      before, tail := DeliverTips(s, i.action.gen, i.action.ev, i.env);
    }
  }

  lemma DeliverTips(s: State, gen: nat, ev: Event, env: Env) returns (before: seq<Frame>, tail: seq<Frame>)
    requires OnlyDetachedOpen(s)
    ensures DeliverTo(s, gen, ev, env).frames == before + tail
    ensures forall f | f in before :: !EmptyTip(f) && !f.FinishFrame?
    ensures forall f | f in tail :: !f.Cancels()
    ensures (exists f | f in tail :: EmptyTip(f)) ==>
              ev.CleanResult() && !s.visible && |tail| == 2 && EmptyTip(tail[0]) && tail[1].FinishFrame?
              && forall f | f in before :: !f.Cancels()
    ensures ev.CleanResult() && (exists f | f in tail :: f.FinishFrame?) ==>
              ((exists f | f in tail :: EmptyTip(f)) <==> !s.visible)
  {
    hide DeliverTo, Ready, Settles, Ending, Tail, CancelFrames, DetachedExec, OnlyDetachedOpen;
    var b, ids, t := DeliverShape(s, gen, ev, env);
    var r := Ready(s, gen, ev);
    tail := t;
    ReadyKeeps(s, gen, ev);
    if Settles(r.turn, ev) {
      before := b + CancelFrames(s.tools.open, ids);
      EndingTips(r, ev);
      EndingCancelsNothing(r, ev);
      if ev.CleanResult() && !s.visible {
        NothingToCancel(s, ev, ids);
      }
    } else {
      before := b;
      assert before + tail == b + t;
      TailCancelsNothing(s.tools, ev, DeliverTo(s, gen, ev, env).st.cards, t);
      TailVisible(s.tools, ev, DeliverTo(s, gen, ev, env).st.cards, t);
      UnsettledEnds(s, ev, r.turn, DeliverTo(s, gen, ev, env).st.cards, t);
    }
  }

  lemma ReadyKeeps(s: State, gen: nat, ev: Event)
    ensures Ready(s, gen, ev).visible == s.visible && Ready(s, gen, ev).tools == s.tools
  {
  }

  lemma SomeMember(ids: seq<CallId>)
    ensures ids == [] || exists id :: id in ids
  {
    if ids != [] {
      assert ids[0] in ids;
    }
  }

  /** A clean end of a turn that said nothing finds nothing to cancel. */
  lemma NothingToCancel(s: State, ev: Event, ids: seq<CallId>)
    requires OnlyDetachedOpen(s) && !s.visible && ev.CleanResult()
    requires Lists(ids, ToCancel(s.tools, ev))
    ensures ids == []
  {
    assert forall id | id in s.tools.open :: id in KeptOpen(s.tools, true);
    SomeMember(ids);
  }

  lemma UnsettledEnds(s: State, ev: Event, t: Turn, cards: Cards.Ledger, tail: seq<Frame>)
    requires !Settles(t, ev) && Tail(s.tools, ev, cards, tail)
    ensures forall f | f in tail :: !f.FinishFrame?
  {
  }

  /**
   The empty-turn tip is exact. On every run it is sent only as the frame right before the
   Finish of a clean result, in a step that cancels no call; and a clean result whose Finish
   is forwarded has it if and only if nothing visible was sent since the last settlement.
   */
  lemma EmptyTurnTipIsExact(row: Store.Row, ins: seq<Input>, k: nat)
    requires k < |ins|
    ensures var fs := Sent(Init(row), ins, k); var ev := EventOf(ins[k].action);
      && ((exists f | f in fs :: EmptyTip(f)) ==>
            && ev.CleanResult() && |fs| >= 2 && EmptyTip(fs[|fs| - 2]) && fs[|fs| - 1].FinishFrame?
            && (forall j | 0 <= j < |fs| - 2 :: !EmptyTip(fs[j]))
            && (forall f | f in fs :: !f.Cancels()))
      && (ev.CleanResult() && (exists f | f in fs :: f.FinishFrame?) ==>
            ((exists f | f in fs :: EmptyTip(f)) <==> !Spoke(Init(row), ins, k)))
  {
    hide Step, Before, Spoke, OnlyDetachedOpen, Init;
    var s := Before(Init(row), ins, k);
    OnlyDetachedRun(row, ins, k);
    VisibleIsSpoke(Init(row), ins, k);
    var before, tail := StepTips(s, ins[k]);
    var fs := Sent(Init(row), ins, k);
    assert fs == before + tail;
    if exists f | f in tail :: EmptyTip(f) {
      assert forall j | 0 <= j < |before| :: fs[j] in before;
    }
  }

  // ---- the flag and the tip, case by case ----

  /**
   What counts as something said: text, thoughts, calls, results, live output, plans and
   permission requests. Questions to the user, usage, titles and notices do not.
   */
  lemma VisibleByEvent(s: State, gen: nat, ev: Event, env: Env)
    requires !ev.TurnResult? && !ev.Detached? && !ev.SubagentUpdate?
    ensures DeliverTo(s, gen, ev, env).st.visible ==
            (s.visible
             || ev.MessageDelta? || ev.ThoughtDelta? || ev.ToolCall? || ev.ToolResult? || ev.ToolOutputDelta?
             || ev.Plan? || ev.Permission?)
  {
    hide DeliverTo;
    var before, ids, tail := DeliverShape(s, gen, ev, env);
  }

  /** Why a reply was blank, as the outcome tells: the code of the tip, and none for a cancel. */
  lemma TipSaysWhy(s: State, gen: nat, ev: Event, env: Env, f: Frame)
    requires ev.TurnResult?
    ensures f in DeliverTo(s, gen, ev, env).frames && EmptyTip(f) ==>
      match ev.outcome
      case EndTurn => f.tip.code == EmptyTurnInfo
      case Failed => f.tip.code == EmptyTurnWarning
      case Cancelled(_) => false
      case Completed(reason) =>
        match reason
        case EndOfTurn => f.tip.code == EmptyTurnInfo
        case Refused => f.tip.code == EmptyTurnRefusal
        case Truncated(MaxTokens) => f.tip.code == EmptyTurnMaxTokens
        case Truncated(MaxTurns) => f.tip.code == EmptyTurnMaxTurns
        case Truncated(_) => f.tip.code == EmptyTurnWarning
  {
    hide DeliverTo, Ready, Settles, ToCancel, CancelFrames;
    var before, ids, tail := DeliverShape(s, gen, ev, env);
    if Settles(Ready(s, gen, ev).turn, ev) {
      CancelsAreNoTips(s.tools, ev, ids);
      EndingTip(Ready(s, gen, ev), ev, f);
      hide Ending;
    }
  }

  lemma CancelsAreNoTips(tools: Tools, ev: Event, ids: seq<CallId>)
    requires Lists(ids, ToCancel(tools, ev))
    ensures forall id | id in ids :: id in tools.open
    ensures forall f | f in CancelFrames(tools.open, ids) :: !f.TipsFrame?
  {
  }

  lemma EndingTip(s: State, ev: Event, f: Frame)
    requires ev.TurnResult?
    ensures f in Ending(s, ev) && f.TipsFrame? ==> TipFor(ev.outcome) == Some(f.tip)
  {
  }
}
