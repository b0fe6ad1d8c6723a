/**
 Tool calls over whole runs: every call a client sees opened is resolved or cancelled
 exactly when the pump forgets it, under its own name, with all of its live output.
 */
module ToolCalls {
  import opened Wire
  import opened Order
  import opened PumpSpec
  import opened TurnEnds
  import opened StepShape
  import Cards
  import Store

  // ---- what an onlooker sees of the calls ----

  function CancelledIn(fs: seq<Frame>): set<CallId> {
    set f | f in fs && f.Cancels() :: f.call.callId
  }

  /** The calls started and neither resolved nor cancelled since, from events and frames alone. */
  function SeenOpen(open: map<CallId, string>, ev: Event, fs: seq<Frame>): map<CallId, string> {
    var told := match ev
      case ToolCall(id, name, _, _) => open[id := name]
      case ToolResult(id, _, _, _) => open - {id}
      case _ => open;
    told - CancelledIn(fs)
  }

  ghost function WatchedOpen(s: State, ins: seq<Input>, k: nat): map<CallId, string>
    requires k <= |ins|
  {
    if k == 0 then s.tools.open
    else SeenOpen(WatchedOpen(s, ins, k - 1), EventOf(ins[k - 1].action), Sent(s, ins, k - 1))
  }

  // ---- single steps ----

  /** Inputs other than envelopes leave the calls alone and send no call frame and no tip. */
  lemma OtherInputs(s: State, i: Input)
    requires !i.action.Deliver?
    ensures Step(s, i).st.tools == s.tools && Step(s, i).st.visible == s.visible
    ensures forall f | f in Step(s, i).frames :: !f.CallFrame? && !f.TipsFrame? && !Visible(f)
  {
    match i.action
    case Tick => TickBackdrop(s.cards, Visit(i.env.refs, s.cards.Keys), i.env.due);
    case Hangup => SettleShape(s, false, i.env);
    case _ =>
  }

  lemma CancelledByShape(before: seq<Frame>, open: map<CallId, string>, ids: seq<CallId>, keys: set<CallId>,
                         tail: seq<Frame>)
    requires Backdrop(before) && Lists(ids, keys) && keys <= open.Keys
    requires forall f | f in tail :: !f.Cancels()
    ensures CancelledIn(before + CancelFrames(open, ids) + tail) == keys
  {
    var cancels := CancelFrames(open, ids);
    var fs := before + cancels + tail;
    forall id | id in keys ensures id in CancelledIn(fs) {
      var i :| 0 <= i < |ids| && ids[i] == id;
      assert cancels[i] == CancelFrame(id, open[id]);
      assert cancels[i] in fs && cancels[i].Cancels();
    }
    forall f | f in fs && f.Cancels() ensures f.call.callId in keys {
      assert f in cancels;
    }
  }

  lemma TailCancelsNothing(tools: Tools, ev: Event, cards: Cards.Ledger, tail: seq<Frame>)
    requires Tail(tools, ev, cards, tail)
    ensures forall f | f in tail :: !f.Cancels()
  {
  }

  lemma EndingCancelsNothing(s: State, ev: Event)
    requires Settles(s.turn, ev)
    ensures forall f | f in Ending(s, ev) :: !f.CallFrame?
  {
  }

  lemma SettledOpen(tools: Tools, ev: Event)
    requires !ev.ToolCall? && !ev.ToolResult?
    ensures ToolsAfterSettling(tools, ev).open == SeenOpen(tools.open, ev, []) - ToCancel(tools, ev)
  {
  }

  lemma DeliverCancels(s: State, gen: nat, ev: Event, env: Env)
    ensures var o := DeliverTo(s, gen, ev, env);
      && CancelledIn(o.frames) <= s.tools.open.Keys
      && o.st.tools.open == SeenOpen(s.tools.open, ev, []) - CancelledIn(o.frames)
  {
    hide DeliverTo, CancelFrames, Ending, Tail, Ready, CancelledIn, SeenOpen, ToolsAfter, ToolsAfterSettling, Settles;
    var before, ids, tail := DeliverShape(s, gen, ev, env);
    var r := Ready(s, gen, ev);
    if Settles(r.turn, ev) {
      EndingCancelsNothing(r, ev);
      SettlesIsNoCall(r.turn, ev);
      CancelledByShape(before, s.tools.open, ids, ToCancel(s.tools, ev), tail);
      SettledOpen(s.tools, ev);
    } else {
      TailCancelsNothing(s.tools, ev, DeliverTo(s, gen, ev, env).st.cards, tail);
      assert before + CancelFrames(s.tools.open, []) + tail == before + tail;
      CancelledByShape(before, s.tools.open, [], {}, tail);
      UnsettledOpen(s, gen, ev);
    }
  }

  lemma UnsettledOpen(s: State, gen: nat, ev: Event)
    requires !Settles(Ready(s, gen, ev).turn, ev)
    ensures NextTools(s, gen, ev).open == SeenOpen(s.tools.open, ev, []) - {}
  {
    hide Settles, Ready;
  }

  /** A step cancels open calls only, and what it forgets is exactly what it told. */
  lemma StepCancels(s: State, i: Input)
    ensures CancelledIn(Step(s, i).frames) <= s.tools.open.Keys
    ensures Step(s, i).st.tools.open == SeenOpen(s.tools.open, EventOf(i.action), Step(s, i).frames)
  {
    if !i.action.Deliver? {
      OtherInputs(s, i);
      hide Step;
      assert CancelledIn(Step(s, i).frames) == {};
    } else {
      DeliverCancels(s, i.action.gen, i.action.ev, i.env);
      SeenInTwo(s.tools.open, i.action.ev, Step(s, i).frames);
      hide DeliverTo, CancelledIn, SeenOpen;
    }
  }

  lemma SeenInTwo(open: map<CallId, string>, ev: Event, fs: seq<Frame>)
    ensures SeenOpen(open, ev, fs) == SeenOpen(open, ev, []) - CancelledIn(fs)
  {
  }

  // ---- conservation ----

  /**
   Conservation. At every point of every run the open calls are exactly those an onlooker
   counts as started and neither resolved nor cancelled since, and an input cancels only
   calls from that count.
   */
  lemma {:induction false} OpenCallsAreConserved(s: State, ins: seq<Input>, k: nat)
    requires k <= |ins|
    ensures Before(s, ins, k).tools.open == WatchedOpen(s, ins, k)
    ensures k < |ins| ==> CancelledIn(Sent(s, ins, k)) <= WatchedOpen(s, ins, k).Keys
  {
    hide Step, CancelledIn, SeenOpen;
    if k == 0 {
      assert ins[..0] == [];
    } else {
      OpenCallsAreConserved(s, ins, k - 1);
      StepCancels(Before(s, ins, k - 1), ins[k - 1]);
      Unroll(s, ins, k - 1);
    }
    if k < |ins| {
      StepCancels(Before(s, ins, k), ins[k]);
    }
  }

  /**
   A settling envelope sends one Canceled frame, under its own name, for every open call a
   clean end does not leave running, all of them ahead of the turn's terminal.
   */
  lemma SettlementCancelsBeforeTerminal(s: State, gen: nat, ev: Event, env: Env)
    returns (before: seq<Frame>, ids: seq<CallId>, tail: seq<Frame>)
    requires Settles(Ready(s, gen, ev).turn, ev)
    ensures Distinct(ids)
    ensures forall id :: id in ids <==>
              id in s.tools.open && !(ev.CleanResult() && DetachedExec(s.tools.args, id))
    ensures DeliverTo(s, gen, ev, env).frames == before + CancelFrames(s.tools.open, ids) + tail
    ensures |CancelFrames(s.tools.open, ids)| == |ids|
    ensures forall j | 0 <= j < |ids| ::
              CancelFrames(s.tools.open, ids)[j] == CallFrame(ToolFrame(ids[j], s.tools.open[ids[j]], Null, Canceled, None, None))
    ensures forall f | f in before :: !f.Signal() && !f.CallFrame?
    ensures forall f | f in tail :: !f.CallFrame?
  {
    hide DeliverTo, Ready, Ending, Settles, CancelFrames, DetachedExec, ToolsAfterSettling, NextVisible, Tail;
    before, ids, tail := DeliverShape(s, gen, ev, env);
    EndingCancelsNothing(Ready(s, gen, ev), ev);
    forall id ensures id in ids <==> id in s.tools.open && !(ev.CleanResult() && DetachedExec(s.tools.args, id)) {
      assert id in ids <==> id in ToCancel(s.tools, ev);
    }
  }

  // ---- names ----

  /** Every open call is remembered under the name it was opened with. */
  predicate Remembered(tools: Tools) {
    forall id | id in tools.open :: id in tools.names && tools.names[id] == tools.open[id]
  }

  lemma RememberedStep(s: State, i: Input)
    requires Remembered(s.tools)
    ensures Remembered(Step(s, i).st.tools)
  {
    if !i.action.Deliver? {
      OtherInputs(s, i);
    } else {
      var before, ids, tail := DeliverShape(s, i.action.gen, i.action.ev, i.env);
      assert Step(s, i).st.tools == NextTools(s, i.action.gen, i.action.ev);
      hide Step, DeliverTo, Settles, Ready;
    }
  }

  lemma SettlesIsNoCall(t: Turn, ev: Event)
    requires Settles(t, ev)
    ensures !ev.ToolCall? && !ev.ToolResult?
  {
  }

  lemma TailNames(tools: Tools, ev: Event, cards: Cards.Ledger, tail: seq<Frame>, f: Frame)
    requires Remembered(tools) && Tail(tools, ev, cards, tail) && f in tail && f.CallFrame?
    ensures var open := if ev.ToolCall? then ToolsAfter(tools, ev).open else tools.open;
      f.call.callId in open ==> f.call.name == open[f.call.callId]
  {
    if !ev.ToolOutputDelta? {
      var own := OwnFrame(tools, ev);
      assert own.Some? && f == Cards.Shield(cards, own.value);
      assert own.value.CallFrame? && f.call.callId == own.value.call.callId && f.call.name == own.value.call.name;
      hide Cards.Shield;
      assert ev.ToolCall? || ev.ToolResult?;
    }
  }

  /** Each call frame of a step carries the name its call is open under. */
  lemma StepNames(s: State, i: Input, f: Frame)
    requires Remembered(s.tools)
    ensures f in Step(s, i).frames && f.CallFrame? ==>
      var open := if i.action.Deliver? && i.action.ev.ToolCall? then Step(s, i).st.tools.open else s.tools.open;
      f.call.callId in open ==> f.call.name == open[f.call.callId]
  {
    if !i.action.Deliver? {
      OtherInputs(s, i);
    } else if f in Step(s, i).frames && f.CallFrame? {
      var ev := i.action.ev;
      var before, ids, tail := DeliverShape(s, i.action.gen, ev, i.env);
      var r := Ready(s, i.action.gen, ev);
      assert Step(s, i) == DeliverTo(s, i.action.gen, ev, i.env);
      hide Step, DeliverTo, Ready, ToolsAfterSettling, Ending, Settles, ToCancel;
      if Settles(r.turn, ev) {
        EndingCancelsNothing(r, ev);
        assert f in CancelFrames(s.tools.open, ids);
        SettlesIsNoCall(r.turn, ev);
      } else {
        assert f in tail;
        TailNames(s.tools, ev, Step(s, i).st.cards, tail, f);
      }
    }
  }

  lemma {:induction false} RememberedRun(row: Store.Row, ins: seq<Input>, k: nat)
    requires k <= |ins|
    ensures Remembered(Before(Init(row), ins, k).tools)
  {
    if k == 0 {
      assert ins[..0] == [];
    } else {
      RememberedRun(row, ins, k - 1);
      hide Step, Remembered, Init;
      RememberedStep(Before(Init(row), ins, k - 1), ins[k - 1]);
      Unroll(Init(row), ins, k - 1);
    }
  }

  /**
   Names survive. On every run, each call frame between a call's start and its close bears the
   name the call was last started with, empty or not.
   */
  lemma NamesSurvive(row: Store.Row, ins: seq<Input>, k: nat, f: Frame)
    requires k < |ins|
    ensures f in Sent(Init(row), ins, k) && f.CallFrame? ==>
      var open := WatchedOpen(Init(row), ins, if EventOf(ins[k].action).ToolCall? then k + 1 else k);
      f.call.callId in open ==> f.call.name == open[f.call.callId]
  {
    hide Step, WatchedOpen, Init;
    RememberedRun(row, ins, k);
    StepNames(Before(Init(row), ins, k), ins[k], f);
    Unroll(Init(row), ins, k);
    OpenCallsAreConserved(Init(row), ins, k);
    OpenCallsAreConserved(Init(row), ins, k + 1);
  }

  /** A resolved call is never cancelled before it is started again. */
  lemma {:induction false} ResolvedStaysResolved(s: State, ins: seq<Input>, j: nat, k: nat, id: CallId)
    requires j < k < |ins|
    requires EventOf(ins[j].action).ToolResult? && EventOf(ins[j].action).callId == id
    requires forall n | j < n <= k :: !(EventOf(ins[n].action).ToolCall? && EventOf(ins[n].action).callId == id)
    ensures id !in Before(s, ins, k).tools.open && id !in CancelledIn(Sent(s, ins, k))
    decreases k
  {
    hide Step, CancelledIn;
    Unroll(s, ins, k - 1);
    StepCancels(Before(s, ins, k - 1), ins[k - 1]);
    StepCancels(Before(s, ins, k), ins[k]);
    if j < k - 1 {
      ResolvedStaysResolved(s, ins, j, k - 1, id);
    }
  }

  // ---- live output ----

  /** Everything a run streams on one call. */
  function Deltas(ins: seq<Input>, id: CallId): string {
    if ins == [] then ""
    else
      var ev := EventOf(ins[|ins| - 1].action);
      Deltas(ins[..|ins| - 1], id) + if ev.ToolOutputDelta? && ev.callId == id then ev.text else ""
  }

  function OutputOf(tools: Tools, id: CallId): string {
    if id in tools.output then tools.output[id] else ""
  }

  /** The input drops no live output of `id`: it settles nothing, or leaves the call running. */
  ghost predicate Retains(s: State, i: Input, id: CallId) {
    i.action.Deliver? && Settles(Ready(s, i.action.gen, i.action.ev).turn, i.action.ev)
    ==> id in Step(s, i).st.tools.open
  }

  lemma OutputStep(s: State, i: Input, id: CallId)
    requires Retains(s, i, id)
    ensures var ev := EventOf(i.action);
      OutputOf(Step(s, i).st.tools, id)
      == OutputOf(s.tools, id) + if ev.ToolOutputDelta? && ev.callId == id then ev.text else ""
    ensures EventOf(i.action).ToolOutputDelta? ==>
      var ev := EventOf(i.action);
      Step(s, i).frames == [LiveFrame(s.tools, ev.callId, ev.text)]
  {
    if !i.action.Deliver? {
      OtherInputs(s, i);
    } else {
      var ev := i.action.ev;
      var before, ids, tail := DeliverShape(s, i.action.gen, ev, i.env);
      assert Step(s, i).st.tools == NextTools(s, i.action.gen, ev);
      assert ev.ToolOutputDelta? ==> Step(s, i).frames == [LiveFrame(s.tools, ev.callId, ev.text)];
      hide Step, DeliverTo, Settles, Ready;
    }
  }

  lemma ChunkRetains(s: State, i: Input, id: CallId)
    requires EventOf(i.action).ToolOutputDelta?
    ensures Retains(s, i, id)
  {
    hide Step, Ready;
  }

  /** From any state, a call no input drops keeps what it had and gains every chunk. */
  lemma {:induction false} OutputAccumulates(s: State, ins: seq<Input>, k: nat, id: CallId)
    requires k <= |ins|
    requires forall n: nat | n < k :: Retains(Before(s, ins, n), ins[n], id)
    ensures OutputOf(Before(s, ins, k).tools, id) == OutputOf(s.tools, id) + Deltas(ins[0..k], id)
  {
    hide Step, Retains, Sent, OutputOf, Deltas, Before;
    if k == 0 {
      Unstarted(s, ins);
      NoDeltas(id);
      assert ins[0..0] == [];
    } else {
      OutputAccumulates(s, ins, k - 1, id);
      Unroll(s, ins, k - 1);
      OutputStep(Before(s, ins, k - 1), ins[k - 1], id);
      DeltasStep(ins, 0, k - 1, id);
    }
  }

  /** An input that does not retain a call's output empties it. */
  lemma DropEmpties(s: State, i: Input, id: CallId)
    requires !Retains(s, i, id)
    ensures OutputOf(Step(s, i).st.tools, id) == ""
  {
    var before, ids, tail := DeliverShape(s, i.action.gen, i.action.ev, i.env);
    hide DeliverTo, Settles, Ready;
    assert Step(s, i).st.tools == NextTools(s, i.action.gen, i.action.ev);
  }

  /** Where the output of `id` now shown began: right after the last input that dropped it, or at the start. */
  ghost function Began(s: State, ins: seq<Input>, k: nat, id: CallId): (m: nat)
    requires k <= |ins|
    ensures m <= k
  {
    if k == 0 then 0
    else if Retains(Before(s, ins, k - 1), ins[k - 1], id) then Began(s, ins, k - 1, id)
    else k
  }

  lemma DeltasStep(ins: seq<Input>, from: nat, k: nat, id: CallId)
    requires from <= k < |ins|
    ensures var ev := EventOf(ins[k].action);
      Deltas(ins[from..k + 1], id)
      == Deltas(ins[from..k], id) + if ev.ToolOutputDelta? && ev.callId == id then ev.text else ""
    ensures Deltas(ins[k..k], id) == ""
  {
    assert ins[from..k + 1][..k - from] == ins[from..k];
  }

  lemma NoOutputYet(row: Store.Row, ins: seq<Input>, id: CallId)
    ensures OutputOf(Before(Init(row), ins, 0).tools, id) == "" && Deltas(ins[0..0], id) == ""
  {
    assert ins[..0] == [];
  }

  /** At every point of every run a call's accumulator is every chunk since it was last dropped. */
  lemma {:induction false} OutputIsSinceDrop(row: Store.Row, ins: seq<Input>, k: nat, id: CallId)
    requires k <= |ins|
    ensures OutputOf(Before(Init(row), ins, k).tools, id) == Deltas(ins[Began(Init(row), ins, k, id)..k], id)
  {
    hide Step, Retains, OutputOf, Before, Init, Deltas;
    if k == 0 {
      NoOutputYet(row, ins, id);
    } else {
      var s := Before(Init(row), ins, k - 1);
      Unroll(Init(row), ins, k - 1);
      OutputIsSinceDrop(row, ins, k - 1, id);
      if Retains(s, ins[k - 1], id) {
        OutputStep(s, ins[k - 1], id);
        DeltasStep(ins, Began(Init(row), ins, k - 1, id), k - 1, id);
      } else {
        DropEmpties(s, ins[k - 1], id);
        assert ins[k..k] == [];
        NoDeltas(id);
      }
    }
  }

  lemma NoDeltas(id: CallId)
    ensures Deltas([], id) == ""
  {
  }

  /**
   Live output survives. On every run each live frame of a call shows every chunk since its
   output was last dropped, this one included, across all the turn ends the call outlives.
   */
  lemma LiveFramesShowEverything(row: Store.Row, ins: seq<Input>, k: nat, id: CallId)
    requires k < |ins| && EventOf(ins[k].action).ToolOutputDelta? && EventOf(ins[k].action).callId == id
    ensures exists f: Frame :: Sent(Init(row), ins, k) == [f] && f.CallFrame? && f.call.callId == id
              && f.call.output == Some(Deltas(ins[Began(Init(row), ins, k, id)..k + 1], id))
  {
    hide Step, Retains, Before, Init, Began, Deltas;
    var now := Before(Init(row), ins, k);
    OutputIsSinceDrop(row, ins, k, id);
    ChunkRetains(now, ins[k], id);
    OutputStep(now, ins[k], id);
    DeltasStep(ins, Began(Init(row), ins, k, id), k, id);
    var f := LiveFrame(now.tools, id, EventOf(ins[k].action).text);
    assert Sent(Init(row), ins, k) == [f];
  }

  // ---- what survives a turn end ----

  /** The arguments of a command the agent detached: their source says so by its first letters. */
  predicate Detaches(args: Args) {
    match args
    case Object(Some(source), _) => |source| >= 11 && source[..11] == "unifiedExec"
    case _ => false
  }

  /**
   A turn's real terminal, result or exit, keeps an open call open if and only if the end is a
   clean result and the call's own arguments say it is detached; then its name stays too.
   */
  lemma TerminalKeepsDetached(s: State, gen: nat, ev: Event, env: Env, id: CallId)
    requires ev.TurnResult? || ev.Detached?
    requires ev.TurnResult? && gen <= s.turn.lastGen ==> !s.turn.settled && s.turn.inflight == {}
    ensures var was, now := s.tools, DeliverTo(s, gen, ev, env).st.tools;
      && (id in now.open <==>
            && id in was.open && id in was.args && Detaches(was.args[id])
            && ev.TurnResult? && !ev.isError && !ev.outcome.Cancelled?)
      && (id in now.open ==> now.open[id] == was.open[id])
      && (id in now.names <==> id in now.open && id in was.names)
      && (id in now.names ==> now.names[id] == was.names[id])
  {
    hide DeliverTo;
    var before, ids, tail := DeliverShape(s, gen, ev, env);
    assert "unifiedExec" == "unifiedExec"[..11];
  }
}
