/** The whole-run results about turn ends, on top of the window lemmas of `TurnEnds`. */
module TurnTheorems {
  import opened Wire
  import opened PumpSpec
  import opened TurnEvents
  import opened TurnProtocol
  import opened TurnEnds

  // ---- a turn that a newer generation opens ----

  /** The first envelope of a new generation finds the same pump whatever turn came before. */
  predicate Opens(s: State, ins: seq<Input>) {
    && ins != [] && ins[0].action.Deliver? && ins[0].action.gen > s.turn.lastGen
    && Window(ins, ins[0].action.gen)
  }

  lemma AdvanceFirst(s: State, i: Input)
    requires i.action.Deliver?
    ensures Step(s, i) == Step(Advance(s, i.action.gen), i)
  {
    hide Process, LiveOutput, NewCatalog, Rearm;
  }

  lemma {:induction false} SameFrom(s: State, t: State, ins: seq<Input>, k: nat)
    requires 0 < k <= |ins|
    requires Step(s, ins[0]) == Step(t, ins[0])
    ensures Run(s, ins[..k]) == Run(t, ins[..k])
    decreases k
  {
    hide Step;
    assert ins[..k][..k - 1] == ins[..k - 1];
    if k == 1 {
      assert Run(s, ins[..0]) == Out(s, []) && Run(t, ins[..0]) == Out(t, []);
    } else {
      SameFrom(s, t, ins, k - 1);
    }
  }

  lemma SameSent(s: State, t: State, ins: seq<Input>, k: nat)
    requires k < |ins|
    requires Step(s, ins[0]) == Step(t, ins[0])
    ensures Sent(s, ins, k) == Sent(t, ins, k)
  {
    hide Step;
    if k > 0 {
      SameFrom(s, t, ins, k);
    }
  }

  predicate FirstClose(evs: seq<Event>, c: nat) {
    c < |evs| && OpenUpTo({}, evs, c) && Closes({}, evs, c)
  }

  /**
   Where a turn closes, with forced kills and hang-ups coming in at any point. Up to the first
   closing event the pump itself sends no terminal and one SegmentBreak per launch result. A
   closing result then always sends its terminal; a closing kill of a workflow sends a Finish
   unless a forced kill has already done so.
   */
  lemma TurnUntilClose(s: State, ins: seq<Input>, k: nat)
    requires Opens(s, ins) && k < |ins|
    requires OpenUpTo({}, EventsOf(ins), k)
    ensures var evs := EventsOf(ins); var session := Before(Advance(s, ins[0].action.gen), ins, k).rt.session;
      Signals(Sent(s, ins, k)) ==
      if ins[k].action.Kill? then OnceOnly(Converged(false, ins[0..k]), session)
      else if ClosesByResult({}, evs, k) then [TerminalOf(evs[k], true, session)]
      else if ClosesByKill({}, evs, k) then OnceOnly(Converged(false, ins[0..k]), session)
      else if evs[k].CleanResult() then [SegmentBreak] else []
  {
    var t := Advance(s, ins[0].action.gen);
    AdvanceFirst(s, ins[0]);
    hide Step, Before, Sent, Roster, Owing, Converged;
    SameSent(s, t, ins, k);
    WindowStep(t, ins, k);
  }

  /** After it closed, the pump sends no signal until content re-arms the turn. */
  lemma TurnAfterClose(s: State, ins: seq<Input>, c: nat, k: nat)
    requires Opens(s, ins) && FirstClose(EventsOf(ins), c) && c < k < |ins|
    requires forall j | c < j <= k :: !Acts(EventOf(ins[j].action))
    ensures Signals(Sent(s, ins, k)) ==
      if ins[k].action.Kill?
      then OnceOnly(Converged(true, ins[c + 1..k]), Before(Advance(s, ins[0].action.gen), ins, k).rt.session) else []
  {
    var t := Advance(s, ins[0].action.gen);
    AdvanceFirst(s, ins[0]);
    hide Step, Before, Sent, Roster, Owing, Converged;
    SameSent(s, t, ins, k);
    WindowStep(t, ins, c);
    SettledSilent(t, ins, c + 1, k + 1);
  }

  // ---- the script of a turn nobody kills from outside ----

  predicate NoKill(ins: seq<Input>) {
    forall i | i in ins :: !i.action.Kill?
  }

  lemma {:induction false} NeverConverged(ins: seq<Input>, k: nat)
    requires NoKill(ins) && k <= |ins|
    ensures !Converged(false, ins[0..k])
  {
    if k > 0 {
      NeverConverged(ins, k - 1);
      ConvergedStep(false, ins, 0, k - 1);
      assert ins[k - 1] in ins;
    } else {
      assert ins[0..0] == [];
    }
  }

  /** The one terminal a turn ends with. */
  function Closing(ev: Event, session: Option<string>): Frame {
    if ev.TurnResult? then TerminalOf(ev, true, session) else FinishFrame(session)
  }

  function CleanResults(evs: seq<Event>): nat {
    if evs == [] then 0
    else CleanResults(evs[..|evs| - 1]) + if evs[|evs| - 1].CleanResult() then 1 else 0
  }

  function Breaks(n: nat): seq<Frame> {
    if n == 0 then [] else Breaks(n - 1) + [SegmentBreak]
  }

  lemma SentSignals(s: State, ins: seq<Input>, k: nat)
    requires k < |ins|
    ensures Signals(Run(s, ins[..k + 1]).frames) == Signals(Run(s, ins[..k]).frames) + Signals(Sent(s, ins, k))
  {
    hide Step, Sent, Signals, Run;
    Unroll(s, ins, k);
    SignalsConcat(Run(s, ins[..k]).frames, Sent(s, ins, k));
  }

  lemma {:induction false} OpenTurnScript(s: State, ins: seq<Input>, k: nat)
    requires Opens(s, ins) && NoKill(ins) && k <= |ins|
    requires OpenUpTo({}, EventsOf(ins), k)
    ensures Signals(Run(s, ins[..k]).frames) == Breaks(CleanResults(EventsOf(ins)[..k]))
  {
    if k == 0 {
      assert ins[..0] == [] && EventsOf(ins)[..0] == [];
    } else {
      hide Step, Run, Sent, Signals, ClosesByKill, Before, CleanResults, Breaks, Window, Advance, Converged, Launch;
      OpenTurnScript(s, ins, k - 1);
      TurnUntilClose(s, ins, k - 1);
      assert !Closes({}, EventsOf(ins), k - 1);
      NotKill(ins, k - 1);
      SentSignals(s, ins, k - 1);
      BreaksStep(EventsOf(ins), k - 1);
    }
  }

  lemma NotKill(ins: seq<Input>, k: nat)
    requires NoKill(ins) && k < |ins|
    ensures !ins[k].action.Kill?
  {
    assert ins[k] in ins;
  }

  lemma BreaksStep(evs: seq<Event>, k: nat)
    requires k < |evs|
    ensures Breaks(CleanResults(evs[..k + 1]))
            == Breaks(CleanResults(evs[..k])) + if evs[k].CleanResult() then [SegmentBreak] else []
  {
    assert evs[..k + 1][..k] == evs[..k];
  }

  lemma {:induction false} ClosedTurnScript(s: State, ins: seq<Input>, c: nat, k: nat)
    requires Opens(s, ins) && NoKill(ins) && FirstClose(EventsOf(ins), c) && c < k <= |ins|
    requires forall j | c < j < k :: !Acts(EventOf(ins[j].action))
    ensures Signals(Run(s, ins[..k]).frames) ==
            Breaks(CleanResults(EventsOf(ins)[..c]))
            + [Closing(EventsOf(ins)[c], Before(Advance(s, ins[0].action.gen), ins, c).rt.session)]
    decreases k
  {
    hide Step, Run, Sent, Signals, Roster, Owing, Before, Breaks, CleanResults, Converged;
    SentSignals(s, ins, k - 1);
    NotKill(ins, k - 1);
    if k == c + 1 {
      OpenTurnScript(s, ins, c);
      NeverConverged(ins, c);
      TurnUntilClose(s, ins, c);
    } else {
      ClosedTurnScript(s, ins, c, k - 1);
      TurnAfterClose(s, ins, c, k - 1);
    }
  }

  /**
   The client's whole view of one turn: a SegmentBreak for each launch result, then one
   terminal, then nothing more of the kind, however many duplicates trail in.
   */
  lemma TurnScript(s: State, ins: seq<Input>, c: nat)
    requires Opens(s, ins) && NoKill(ins) && FirstClose(EventsOf(ins), c)
    requires forall j | c < j < |ins| :: !Acts(EventOf(ins[j].action))
    ensures exists end: Frame | end.Terminal() ::
              Signals(Run(s, ins).frames) == Breaks(CleanResults(EventsOf(ins)[..c])) + [end]
  {
    hide Step, Run, Sent, Signals, Roster, Owing, Before, Breaks, CleanResults;
    ClosedTurnScript(s, ins, c, |ins|);
    assert ins[..|ins|] == ins;
  }

  // ---- how many terminals a turn shows when it is also killed from outside ----

  function Terminals(signals: seq<Frame>): nat {
    if signals == [] then 0 else (if signals[0].Terminal() then 1 else 0) + Terminals(signals[1..])
  }

  lemma {:induction false} TerminalsConcat(a: seq<Frame>, b: seq<Frame>)
    ensures Terminals(a + b) == Terminals(a) + Terminals(b)
  {
    if a == [] {
      assert a + b == b;
    } else {
      assert (a + b)[1..] == a[1..] + b;
      TerminalsConcat(a[1..], b);
    }
  }

  /** The kills that find the status not yet Finished: each of them sends a Finish. */
  function ShownKills(finished: bool, ins: seq<Input>): nat {
    if ins == [] then 0
    else
      var k := |ins| - 1;
      ShownKills(finished, ins[..k]) + if ins[k].action.Kill? && !Converged(finished, ins[..k]) then 1 else 0
  }

  lemma ShownKillsStep(finished: bool, ins: seq<Input>, from: nat, k: nat)
    requires from <= k < |ins|
    ensures ShownKills(finished, ins[from..k + 1])
            == ShownKills(finished, ins[from..k])
               + if ins[k].action.Kill? && !Converged(finished, ins[from..k]) then 1 else 0
    ensures ShownKills(finished, ins[k..k]) == 0
  {
    assert ins[from..k + 1][..k - from] == ins[from..k];
  }

  lemma OneSignal(f: Frame)
    ensures Terminals([f]) == (if f.Terminal() then 1 else 0) && Terminals([]) == 0
  {
    assert [f][1..] == [];
  }

  /** The terminals among the signals of the first `k` inputs. */
  ghost function TerminalsShown(s: State, ins: seq<Input>, k: nat): nat
    requires k <= |ins|
  {
    Terminals(Signals(Run(s, ins[..k]).frames))
  }

  lemma ShownStep(s: State, ins: seq<Input>, k: nat)
    requires k < |ins|
    ensures TerminalsShown(s, ins, k + 1) == TerminalsShown(s, ins, k) + Terminals(Signals(Sent(s, ins, k)))
  {
    hide Run, Sent, Signals, Terminals;
    SentSignals(s, ins, k);
    TerminalsConcat(Signals(Run(s, ins[..k]).frames), Signals(Sent(s, ins, k)));
  }

  lemma NothingShown(s: State, ins: seq<Input>)
    ensures TerminalsShown(s, ins, 0) == 0 && ShownKills(false, ins[0..0]) == 0
  {
    assert ins[..0] == [];
  }

  lemma {:induction false} OpenTurnCount(s: State, ins: seq<Input>, k: nat)
    requires Opens(s, ins) && k <= |ins|
    requires OpenUpTo({}, EventsOf(ins), k)
    ensures TerminalsShown(s, ins, k) == ShownKills(false, ins[0..k])
  {
    hide TerminalsShown, Sent, Signals, Terminals, ShownKills, Converged, Opens, ClosesByKill, Launch, Before, Advance;
    if k == 0 {
      NothingShown(s, ins);
    } else {
      OpenTurnCount(s, ins, k - 1);
      ShownStep(s, ins, k - 1);
      ShownKillsStep(false, ins, 0, k - 1);
      assert !Closes({}, EventsOf(ins), k - 1);
      OpensWithEnvelope(s, ins);
      TurnUntilClose(s, ins, k - 1);
      OneSignal(FinishFrame(Before(Advance(s, ins[0].action.gen), ins, k - 1).rt.session));
      OneSignal(SegmentBreak);
    }
  }

  lemma OpensWithEnvelope(s: State, ins: seq<Input>)
    requires Opens(s, ins)
    ensures ins != [] && ins[0].action.Deliver?
  {
  }

  /**
   The count, whatever kills and sends come in: one terminal per kill that finds the status not
   Finished, and the turn's own, which a result always shows and a workflow's kill only if no
   forced kill was there first.
   */
  lemma {:induction false} TurnTerminalCount(s: State, ins: seq<Input>, c: nat, k: nat)
    requires Opens(s, ins) && FirstClose(EventsOf(ins), c) && c < k <= |ins|
    requires forall j | c < j < k :: !Acts(EventOf(ins[j].action))
    ensures TerminalsShown(s, ins, k) ==
            ShownKills(false, ins[0..c])
            + (if EventsOf(ins)[c].TurnResult? || !Converged(false, ins[0..c]) then 1 else 0)
            + ShownKills(true, ins[c + 1..k])
    decreases k
  {
    hide TerminalsShown, Sent, Signals, Terminals, ShownKills, Converged, Opens, Launch, Before, Advance, Roster, Owing;
    OpensWithEnvelope(s, ins);
    ShownStep(s, ins, k - 1);
    var session := Before(Advance(s, ins[0].action.gen), ins, k - 1).rt.session;
    OneSignal(FinishFrame(session));
    if k == c + 1 {
      OpenTurnCount(s, ins, c);
      TurnUntilClose(s, ins, c);
      if EventsOf(ins)[c].TurnResult? {
        OneSignal(TerminalOf(EventsOf(ins)[c], true, session));
      }
      NoKillsShown(true, ins[c + 1..k]);
    } else {
      TurnTerminalCount(s, ins, c, k - 1);
      TurnAfterClose(s, ins, c, k - 1);
      ShownKillsStep(true, ins, c + 1, k - 1);
    }
  }

  lemma {:induction false} NoKillsShown(finished: bool, ins: seq<Input>)
    requires NoKill(ins)
    ensures ShownKills(finished, ins) == 0
  {
    if ins != [] {
      var k := |ins| - 1;
      NoKillsShown(finished, ins[..k]);
      assert ins[k] in ins;
    }
  }

  predicate NoSend(ins: seq<Input>) {
    forall i | i in ins :: !i.action.Send?
  }

  /** Without a send in between only the first kill shows, and none once the turn is over. */
  lemma {:induction false} KillsWithoutSends(finished: bool, ins: seq<Input>)
    requires NoSend(ins)
    ensures Converged(finished, ins) == (finished || !NoKill(ins))
    ensures ShownKills(finished, ins) == if finished || NoKill(ins) then 0 else 1
  {
    if ins != [] {
      var k := |ins| - 1;
      KillsWithoutSends(finished, ins[..k]);
      assert ins[k] in ins && ins == ins[..k] + [ins[k]];
    }
  }

  /**
   A turn the user never sends into shows one terminal, or two: two exactly when a forced kill
   comes before the close and the close is a result, whose terminal nothing holds back.
   */
  lemma OneTerminalDespiteKills(s: State, ins: seq<Input>, c: nat)
    requires Opens(s, ins) && NoSend(ins) && FirstClose(EventsOf(ins), c)
    requires forall j | c < j < |ins| :: !Acts(EventOf(ins[j].action))
    ensures var n := Terminals(Signals(Run(s, ins).frames));
      && (n == 1 || n == 2)
      && (n == 1 <==> NoKill(ins[..c]) || !EventsOf(ins)[c].TurnResult?)
  {
    hide Run, Signals, Terminals, Opens, OpenUpTo, Closes, ShownKills, Converged;
    TurnTerminalCount(s, ins, c, |ins|);
    assert ins[..|ins|] == ins && ins[0..c] == ins[..c];
    KillsWithoutSends(false, ins[..c]);
    KillsWithoutSends(true, ins[c + 1..|ins|]);
  }

  // ---- turns without workflows ----

  predicate Plain(evs: seq<Event>) {
    forall k | 0 <= k < |evs| :: evs[k].SubagentUpdate? ==> evs[k].kind != Some(WorkflowContainer)
  }

  lemma {:induction false} PlainRoster(evs: seq<Event>, k: nat)
    requires Plain(evs) && k <= |evs|
    ensures Roster({}, evs[..k]) == {}
  {
    if k > 0 {
      PlainRoster(evs, k - 1);
      RosterStep({}, evs, k - 1);
    }
  }

  /** With no workflow declared, a turn closes at its first result and nowhere else. */
  lemma PlainTurnClosesAtFirstResult(evs: seq<Event>, c: nat)
    requires Plain(evs)
    ensures FirstClose(evs, c) <==> c < |evs| && evs[c].TurnResult? && forall j | 0 <= j < c :: !evs[j].TurnResult?
  {
    forall j: nat | j < |evs| ensures Closes({}, evs, j) <==> evs[j].TurnResult? {
      PlainRoster(evs, j);
      forall i: nat | i < j ensures !Launch({}, evs[..j], i) {
        PlainRoster(evs, i);
        assert evs[..j][..i] == evs[..i];
      }
    }
  }

  /** No leak: whatever state the last turn left, a plain new turn shows one terminal by its first result. */
  lemma PlainTurnEndsOnce(s: State, ins: seq<Input>, c: nat)
    requires Opens(s, ins) && NoKill(ins) && Plain(EventsOf(ins)) && |ins| == c + 1
    requires EventsOf(ins)[c].TurnResult? && forall j | 0 <= j < c :: !EventsOf(ins)[j].TurnResult?
    ensures exists end: Frame | end.Terminal() :: Signals(Run(s, ins).frames) == [end]
  {
    var evs := EventsOf(ins);
    PlainTurnClosesAtFirstResult(evs, c);
    NoCleanResults(evs[..c]);
    hide Run, Signals, Roster, Owing, CleanResults;
    TurnScript(s, ins, c);
  }

  lemma {:induction false} NoCleanResults(evs: seq<Event>)
    requires forall j | 0 <= j < |evs| :: !evs[j].TurnResult?
    ensures CleanResults(evs) == 0
  {
    if evs != [] {
      NoCleanResults(evs[..|evs| - 1]);
    }
  }

  /** No leak: pumps that differ only in flags, status and generation behave alike on a newer turn. */
  lemma NewTurnForgets(s: State, turn: Turn, status: Option<Status>, ins: seq<Input>)
    requires ins != [] && ins[0].action.Deliver?
    requires ins[0].action.gen > s.turn.lastGen && ins[0].action.gen > turn.lastGen
    ensures Run(s.(turn := turn, rt := s.rt.(status := status)), ins) == Run(s, ins)
  {
    var t := s.(turn := turn, rt := s.rt.(status := status));
    AdvanceFirst(s, ins[0]);
    AdvanceFirst(t, ins[0]);
    assert Advance(s, ins[0].action.gen) == Advance(t, ins[0].action.gen);
    hide Step;
    SameFrom(s, t, ins, |ins|);
    assert ins[..|ins|] == ins;
  }
}
