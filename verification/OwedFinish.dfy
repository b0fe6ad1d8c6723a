/**
 The Finish a launch result leaves owed, and the CLI-initiated turns that re-arm a settled
 one: no kill strands the debt, and exactly which re-armed turns reach the client.
 */
module OwedFinish {
  import opened Wire
  import opened PumpSpec
  import opened TurnEvents
  import opened TurnProtocol
  import opened TurnEnds
  import opened TurnTheorems
  import Store

  /** What an onlooker remembers: the generation, a break since the boundary, the last agent end. */
  datatype Watch = Watch(gen: nat, broke: bool, lastEnd: Option<SubagentStatus>)

  function Look(w: Watch, a: Action, signals: seq<Frame>): Watch {
    if !a.Deliver? then w
    else
      var w1 := if a.gen > w.gen then w.(gen := a.gen, broke := false) else w;
      var w2 := if a.ev.TurnStarted? then w1.(broke := false) else w1;
      var w3 := if a.ev.SubagentUpdate? && a.ev.status.Terminal() then w2.(lastEnd := Some(a.ev.status)) else w2;
      if SegmentBreak in signals then w3.(broke := true) else w3
  }

  ghost function Watched(s: State, ins: seq<Input>, k: nat): Watch
    requires k <= |ins|
  {
    if k == 0 then Watch(s.turn.lastGen, false, None)
    else Look(Watched(s, ins, k - 1), ins[k - 1].action, Signals(Sent(s, ins, k - 1)))
  }

  /** Nothing the pump owes is left to a promise the watch cannot see. */
  predicate Accounted(t: Turn, w: Watch) {
    && t.lastGen == w.gen
    && (t.owed ==> !t.settled && !t.synthetic && w.broke)
    && (t.owed && t.inflight == {} ==> w.lastEnd == Some(SubagentStatus.Completed))
  }

  lemma AccountedStep(d: Desk, w: Watch, a: Action)
    requires Accounted(d.turn, w)
    ensures Accounted(DeskStep(d, a).desk.turn, Look(w, a, DeskStep(d, a).signals))
  {
    if a.Deliver? && a.ev.TurnResult? {
      var d1 := Advanced(d, a.gen);
      if !Duplicate(d1.turn, a.ev) && Holds(d1.turn, a.ev) && !d1.turn.synthetic {
        assert SegmentBreak in DeskStep(d, a).signals;
      }
    }
  }

  /**
   No owed Finish is stranded by a kill: after every input of every run, a Finish is owed
   only in a turn with no terminal yet that sent its SegmentBreak, and once the roster is
   empty only because the last agent to end completed.
   */
  lemma {:induction false} NoOwedFinishStranded(row: Store.Row, ins: seq<Input>, k: nat)
    requires k <= |ins|
    ensures Accounted(Before(Init(row), ins, k).turn, Watched(Init(row), ins, k))
  {
    if k == 0 {
      assert ins[..0] == [];
    } else {
      NoOwedFinishStranded(row, ins, k - 1);
      hide Before, Sent, Step, DeskStep, Look, Init;
      BeforeStep(Init(row), ins, k - 1);
      AccountedStep(View(Before(Init(row), ins, k - 1)), Watched(Init(row), ins, k - 1), ins[k - 1].action);
    }
  }

  // ---- turns the agent starts itself ----

  /** Content on a settled turn of the same generation opens a turn of the agent's own. */
  predicate Rearms(s: State, ins: seq<Input>) {
    && s.turn.settled && !s.turn.owed
    && ins != [] && Acts(EventOf(ins[0].action)) && Window(ins, s.turn.lastGen)
  }

  predicate FirstCloseAgain(s: State, evs: seq<Event>, c: nat) {
    && c < |evs|
    && OpenUpTo(s.turn.inflight, evs, c)
    && Closes(s.turn.inflight, evs, c)
  }

  lemma RearmFirst(s: State, i: Input)
    requires s.turn.settled && i.action.Deliver? && i.action.ev.Content() && i.action.gen <= s.turn.lastGen
    ensures Step(s, i) == Step(s.(turn := s.turn.(settled := false)), i)
  {
    hide Process;
  }

  /**
   A re-armed turn closes by the same rule, but its close reaches the client if and only if
   the turn before was not finished by a cancel drain (an Error still is let through), and,
   when the close is a workflow's kill, the status is not Finished by then either.
   */
  lemma RearmedTurnReachesClient(s: State, ins: seq<Input>, c: nat)
    requires Rearms(s, ins) && FirstCloseAgain(s, EventsOf(ins), c)
    ensures var byResult := EventsOf(ins)[c].TurnResult?;
      Signals(Sent(s, ins, c)) != [] <==>
      if byResult then !s.turn.synthetic || TerminalOf(EventsOf(ins)[c], true, None).ErrorFrame?
      else !s.turn.synthetic && !Converged(s.rt.status == Some(Finished), ins[0..c])
  {
    var t := s.(turn := s.turn.(settled := false));
    assert Within(ins[0].action, s.turn.lastGen);
    RearmFirst(s, ins[0]);
    hide Step, Before, Sent, Roster, Owing, Converged;
    SameSent(s, t, ins, c);
    WindowStep(t, ins, c);
  }

  // ---- the two ways it fails, as runs ----

  const NO_ENV := Env({}, [], [])

  function Got(ev: Event): Input {
    Input(Deliver(1, ev), NO_ENV)
  }

  const LAUNCH := SubagentUpdate("w", SubagentStatus.Running, Some(WorkflowContainer), None)
  const KILLED := SubagentUpdate("w", Interrupted, None, None)
  const CLEAN := TurnResult(false, "", EndTurn)

  lemma Next(s: State, ins: seq<Input>, k: nat, d: Desk, ev: Event)
    requires k < |ins| && ins[k] == Got(ev) && View(Before(s, ins, k)) == d
    ensures View(Before(s, ins, k + 1)) == Handle(d, 1, ev).desk
    ensures Signals(Sent(s, ins, k)) == Handle(d, 1, ev).signals
  {
    hide Before, Sent, Signals, Step, Handle;
    BeforeStep(s, ins, k);
  }

  lemma Start(row: Store.Row, ins: seq<Input>)
    ensures View(Before(Init(row), ins, 0)) == Desk(Open(0), None, None)
  {
    assert ins[..0] == [];
  }

  /** A killed workflow, then a reply of the agent's own: that reply's Finish never arrives. */
  lemma FinishLostAfterDrain(row: Store.Row)
    ensures var ins := [Got(LAUNCH), Got(CLEAN), Got(KILLED), Got(MessageDelta("again")), Got(CLEAN)];
      && Signals(Sent(Init(row), ins, 2)) == [FinishFrame(None)]
      && Signals(Sent(Init(row), ins, 3)) == [] && Signals(Sent(Init(row), ins, 4)) == []
      && Before(Init(row), ins, 5).turn.settled
  {
    hide Before, Sent, Signals, Init;
    var again := MessageDelta("again");
    var ins := [Got(LAUNCH), Got(CLEAN), Got(KILLED), Got(again), Got(CLEAN)];
    var d1 := Desk(Turn({"w"}, false, false, false, 1), Some(Status.Running), None);
    var d2 := d1.(turn := d1.turn.(owed := true));
    var d3 := Desk(Turn({}, false, true, true, 1), Some(Finished), None);
    var d4 := d3.(turn := d3.turn.(settled := false));
    assert Handle(Desk(Open(0), None, None), 1, LAUNCH) == Reply(d1, []);
    assert Handle(d1, 1, CLEAN) == Reply(d2, [SegmentBreak]);
    assert Handle(d2, 1, KILLED) == Reply(d3, [FinishFrame(None)]);
    assert Handle(d3, 1, again) == Reply(d4, []);
    assert Handle(d4, 1, CLEAN) == Reply(d3, []);
    hide Handle;
    Start(row, ins);
    Next(Init(row), ins, 0, Desk(Open(0), None, None), LAUNCH);
    Next(Init(row), ins, 1, d1, CLEAN);
    Next(Init(row), ins, 2, d2, KILLED);
    Next(Init(row), ins, 3, d3, again);
    Next(Init(row), ins, 4, d4, CLEAN);
  }

  /** A finished turn, then a workflow of the agent's own that is killed: the owed Finish is never sent. */
  lemma FinishLostAfterRearm(row: Store.Row)
    ensures var ins := [Got(CLEAN), Got(MessageDelta("again")), Got(LAUNCH), Got(CLEAN), Got(KILLED)];
      && Signals(Sent(Init(row), ins, 3)) == [SegmentBreak]
      && Before(Init(row), ins, 4).turn.owed
      && Signals(Sent(Init(row), ins, 4)) == []
      && Before(Init(row), ins, 5).turn.settled && !Before(Init(row), ins, 5).turn.owed
  {
    hide Before, Sent, Signals, Init;
    var again := MessageDelta("again");
    var ins := [Got(CLEAN), Got(again), Got(LAUNCH), Got(CLEAN), Got(KILLED)];
    var d1 := Desk(Turn({}, false, false, true, 1), Some(Finished), None);
    var d2 := d1.(turn := Open(1));
    var d3 := d2.(turn := Turn({"w"}, false, false, false, 1));
    var d4 := d3.(turn := d3.turn.(owed := true));
    var d5 := d1.(turn := Turn({}, false, true, true, 1));
    assert Handle(Desk(Open(0), None, None), 1, CLEAN) == Reply(d1, [FinishFrame(None)]);
    assert Handle(d1, 1, again) == Reply(d2, []);
    assert Handle(d2, 1, LAUNCH) == Reply(d3, []);
    assert Handle(d3, 1, CLEAN) == Reply(d4, [SegmentBreak]);
    assert Handle(d4, 1, KILLED) == Reply(d5, []);
    hide Handle;
    Start(row, ins);
    Next(Init(row), ins, 0, Desk(Open(0), None, None), CLEAN);
    Next(Init(row), ins, 1, d1, again);
    Next(Init(row), ins, 2, d2, LAUNCH);
    Next(Init(row), ins, 3, d3, CLEAN);
    Next(Init(row), ins, 4, d4, KILLED);
  }

  /** A drained turn, then a workflow of the agent's own: its launch is swallowed, so its kill owes nothing. */
  lemma FinishNeverOwedAfterDrain(row: Store.Row)
    ensures var ins := [Got(LAUNCH), Got(CLEAN), Got(KILLED), Got(MessageDelta("again")), Input(Send, NO_ENV),
                        Got(LAUNCH), Got(CLEAN), Got(KILLED)];
      && (forall k | 3 <= k < 8 :: Signals(Sent(Init(row), ins, k)) == [])
      && Before(Init(row), ins, 7).rt.status == Some(Status.Running)
      && !Before(Init(row), ins, 8).turn.settled && Before(Init(row), ins, 8).turn.inflight == {}
  {
    hide Before, Sent, Signals, Init;
    var again := MessageDelta("again");
    var ins := [Got(LAUNCH), Got(CLEAN), Got(KILLED), Got(again), Input(Send, NO_ENV), Got(LAUNCH), Got(CLEAN),
                Got(KILLED)];
    var d1 := Desk(Turn({"w"}, false, false, false, 1), Some(Status.Running), None);
    var d2 := d1.(turn := d1.turn.(owed := true));
    var d3 := Desk(Turn({}, false, true, true, 1), Some(Finished), None);
    var d4 := d3.(turn := d3.turn.(settled := false));
    var d5 := d4.(status := Some(Status.Running));
    var d6 := d5.(turn := d5.turn.(inflight := {"w"}));
    assert Handle(Desk(Open(0), None, None), 1, LAUNCH) == Reply(d1, []);
    assert Handle(d1, 1, CLEAN) == Reply(d2, [SegmentBreak]);
    assert Handle(d2, 1, KILLED) == Reply(d3, [FinishFrame(None)]);
    assert Handle(d3, 1, again) == Reply(d4, []);
    assert DeskStep(d4, Send) == Reply(d5, []);
    assert Handle(d5, 1, LAUNCH) == Reply(d6, []);
    assert Handle(d6, 1, CLEAN) == Reply(d6, []);
    assert Handle(d6, 1, KILLED) == Reply(d5, []);
    hide Handle, DeskStep;
    Start(row, ins);
    Next(Init(row), ins, 0, Desk(Open(0), None, None), LAUNCH);
    Next(Init(row), ins, 1, d1, CLEAN);
    Next(Init(row), ins, 2, d2, KILLED);
    Next(Init(row), ins, 3, d3, again);
    BeforeStep(Init(row), ins, 4);
    Next(Init(row), ins, 5, d5, LAUNCH);
    Next(Init(row), ins, 6, d6, CLEAN);
    Next(Init(row), ins, 7, d6, KILLED);
  }

  /** A forced kill, then the turn's own result: two Finish frames for one turn. */
  lemma FinishTwiceAfterForcedKill(row: Store.Row)
    ensures var ins := [Got(MessageDelta("hello")), Input(Kill, NO_ENV), Got(CLEAN)];
      && Signals(Sent(Init(row), ins, 1)) == [FinishFrame(None)]
      && Signals(Sent(Init(row), ins, 2)) == [FinishFrame(None)]
  {
    hide Before, Sent, Signals, Init;
    var hello := MessageDelta("hello");
    var ins := [Got(hello), Input(Kill, NO_ENV), Got(CLEAN)];
    var d1 := Desk(Open(1), Some(Status.Running), None);
    var d2 := d1.(status := Some(Finished));
    assert Handle(Desk(Open(0), None, None), 1, hello) == Reply(d1, []);
    assert DeskStep(d1, Kill) == Reply(d2, [FinishFrame(None)]);
    assert Handle(d2, 1, CLEAN) == Reply(d2.(turn := d2.turn.(settled := true)), [FinishFrame(None)]);
    hide Handle, DeskStep;
    Start(row, ins);
    Next(Init(row), ins, 0, Desk(Open(0), None, None), hello);
    BeforeStep(Init(row), ins, 1);
    Next(Init(row), ins, 2, d2, CLEAN);
  }
}
