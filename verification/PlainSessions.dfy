/**
 Sessions without workflows: the whole suppression machinery is invisible, and the pump's
 signals are those of a machine that remembers one flag, one generation and the session id.
 */
module PlainSessions {
  import opened Wire
  import opened PumpSpec
  import opened TurnEvents
  import opened TurnProtocol
  import opened TurnEnds
  import Store

  datatype Tiny = Tiny(settled: bool, gen: nat, session: Option<string>)

  /** The first result of a turn ends it; duplicates are dropped; an exit always shows. */
  function TinyStep(t: Tiny, a: Action): (Tiny, seq<Frame>) {
    if !a.Deliver? then (t, [])
    else
      var t1 := if a.gen > t.gen then t.(settled := false, gen := a.gen) else t;
      var ev := a.ev;
      if ev.TurnResult? then
        if t1.settled then (t1, []) else (t1.(settled := true), [TerminalOf(ev, true, t1.session)])
      else if ev.Detached? then (t1, [TerminalOf(ev, t1.settled, t1.session)])
      else if Acts(ev) || ev.TurnStarted? then (t1.(settled := false), [])
      else if ev.BackendBound? && ev.sessionId.Some? then (t1.(session := ev.sessionId), [])
      else (t1, [])
  }

  ghost function TinyBefore(t: Tiny, ins: seq<Input>, k: nat): Tiny
    requires k <= |ins|
  {
    if k == 0 then t else TinyStep(TinyBefore(t, ins, k - 1), ins[k - 1].action).0
  }

  predicate Mirrors(d: Desk, t: Tiny) {
    d == Desk(Turn({}, false, false, t.settled, t.gen), d.status, t.session)
  }

  lemma MirrorsStep(d: Desk, t: Tiny, a: Action)
    requires Mirrors(d, t)
    requires !(EventOf(a).SubagentUpdate? && EventOf(a).kind == Some(WorkflowContainer))
    ensures Mirrors(DeskStep(d, a).desk, TinyStep(t, a).0)
    ensures !a.Kill? ==> DeskStep(d, a).signals == TinyStep(t, a).1
  {
  }

  predicate NoWorkflow(ins: seq<Input>) {
    forall k | 0 <= k < |ins| ::
      !(EventOf(ins[k].action).SubagentUpdate? && EventOf(ins[k].action).kind == Some(WorkflowContainer))
  }

  lemma {:induction false} MirrorsRun(s: State, t: Tiny, ins: seq<Input>, k: nat)
    requires NoWorkflow(ins) && k <= |ins|
    requires Mirrors(View(s), t)
    ensures Mirrors(View(Before(s, ins, k)), TinyBefore(t, ins, k))
  {
    hide Before, Sent, Step, DeskStep, TinyStep, Mirrors, View;
    if k == 0 {
      Unstarted(s, ins);
    } else {
      MirrorsRun(s, t, ins, k - 1);
      BeforeStep(s, ins, k - 1);
      MirrorsStep(View(Before(s, ins, k - 1)), TinyBefore(t, ins, k - 1), ins[k - 1].action);
    }
  }

  /**
   Refinement. On every run that declares no workflow, from the fresh pump, each input other
   than an outside kill sends exactly the tiny machine's terminal, and no SegmentBreak at all.
   */
  lemma PumpIsTiny(row: Store.Row, ins: seq<Input>, k: nat)
    requires NoWorkflow(ins) && k < |ins| && !ins[k].action.Kill?
    ensures Signals(Sent(Init(row), ins, k))
            == TinyStep(TinyBefore(Tiny(false, 0, None), ins, k), ins[k].action).1
    ensures SegmentBreak !in Signals(Sent(Init(row), ins, k))
  {
    var t := Tiny(false, 0, None);
    assert Mirrors(View(Init(row)), t);
    hide Init, Before, Sent, Step, DeskStep;
    MirrorsRun(Init(row), t, ins, k);
    BeforeStep(Init(row), ins, k);
    MirrorsStep(View(Before(Init(row), ins, k)), TinyBefore(t, ins, k), ins[k].action);
  }
}
