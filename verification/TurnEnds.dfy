/**
 How turns end, over whole runs: where a turn closes, what the client sees until then and
 after, that no owed Finish is left behind, and that nothing leaks into the next turn.
 */
module TurnEnds {
  import opened Wire
  import opened PumpSpec
  import opened TurnEvents
  import opened TurnProtocol

  // ---- the turn as its events alone describe it ----

  function EventOf(a: Action): Event {
    if a.Deliver? then a.ev else Bookkeeping
  }

  function EventsOf(ins: seq<Input>): (r: seq<Event>)
    ensures |r| == |ins|
    ensures forall k | 0 <= k < |ins| :: r[k] == EventOf(ins[k].action)
  {
    seq(|ins|, k requires 0 <= k < |ins| => EventOf(ins[k].action))
  }

  /** The workflows declared and not yet ended, on top of those already there. */
  function Roster(base: set<Ref>, evs: seq<Event>): set<Ref> {
    if evs == [] then base
    else
      var was := Roster(base, evs[..|evs| - 1]);
      match evs[|evs| - 1]
      case SubagentUpdate(agent, status, kind, _) =>
        if status.Terminal() then was - {agent}
        else if kind == Some(WorkflowContainer) then was + {agent}
        else was
      case _ => was
  }

  /** Result `k` only reports a workflow launch. */
  predicate Launch(base: set<Ref>, evs: seq<Event>, k: nat)
    requires k < |evs|
  {
    evs[k].CleanResult() && Roster(base, evs[..k]) != {}
  }

  predicate Owing(base: set<Ref>, evs: seq<Event>) {
    exists j: nat | j < |evs| :: Launch(base, evs, j)
  }

  /** An agent ended in some way other than completing. */
  predicate Killed(ev: Event) {
    ev.SubagentUpdate? && ev.status.Terminal() && !ev.status.Completed?
  }

  predicate ClosesByResult(base: set<Ref>, evs: seq<Event>, k: nat)
    requires k < |evs|
  {
    evs[k].TurnResult? && !Launch(base, evs, k)
  }

  /** A workflow whose launch was reported is killed: no result will follow, the turn is over. */
  predicate ClosesByKill(base: set<Ref>, evs: seq<Event>, k: nat)
    requires k < |evs|
  {
    Killed(evs[k]) && Owing(base, evs[..k]) && Roster(base, evs[..k + 1]) == {}
  }

  predicate Closes(base: set<Ref>, evs: seq<Event>, k: nat)
    requires k < |evs|
  {
    ClosesByResult(base, evs, k) || ClosesByKill(base, evs, k)
  }

  predicate OpenUpTo(base: set<Ref>, evs: seq<Event>, k: nat)
    requires k <= |evs|
  {
    forall j: nat | j < k :: !Closes(base, evs, j)
  }

  /** Inputs that stay inside the turn of generation `gen`: no newer one, no exit, no restart. */
  predicate Within(a: Action, gen: nat) {
    a.Deliver? ==> a.gen <= gen && !a.ev.Detached? && !a.ev.TurnStarted?
  }

  predicate Window(ins: seq<Input>, gen: nat) {
    forall k | 0 <= k < |ins| :: Within(ins[k].action, gen)
  }

  /** Is the status Finished, going by the kills and sends from outside the pump alone? */
  predicate Converged(finished: bool, ins: seq<Input>) {
    if ins == [] then finished
    else
      var last := ins[|ins| - 1].action;
      last.Kill? || (!last.Send? && Converged(finished, ins[..|ins| - 1]))
  }

  // ---- one window, from any state in which a turn is open ----

  lemma BeforeStep(s: State, ins: seq<Input>, k: nat)
    requires k < |ins|
    ensures View(Before(s, ins, k + 1)) == DeskStep(View(Before(s, ins, k)), ins[k].action).desk
    ensures Signals(Sent(s, ins, k)) == DeskStep(View(Before(s, ins, k)), ins[k].action).signals
  {
    hide Step, DeskStep;
    Unroll(s, ins, k);
    StepRefines(Before(s, ins, k), ins[k]);
  }

  lemma RosterStep(base: set<Ref>, evs: seq<Event>, k: nat)
    requires k < |evs|
    ensures Roster(base, evs[..k + 1]) ==
            match evs[k]
            case SubagentUpdate(agent, status, kind, _) =>
              if status.Terminal() then Roster(base, evs[..k]) - {agent}
              else if kind == Some(WorkflowContainer) then Roster(base, evs[..k]) + {agent}
              else Roster(base, evs[..k])
            case _ => Roster(base, evs[..k])
  {
    assert evs[..k + 1][..k] == evs[..k];
  }

  lemma OwingStep(base: set<Ref>, evs: seq<Event>, k: nat)
    requires k < |evs|
    ensures Owing(base, evs[..k + 1]) <==> Owing(base, evs[..k]) || Launch(base, evs, k)
  {
    var now, was := evs[..k + 1], evs[..k];
    assert forall j: nat | j <= k :: now[..j] == evs[..j];
    assert forall j: nat | j <= k :: was[..j] == evs[..j];
    forall j: nat | j < k ensures Launch(base, now, j) == Launch(base, was, j) {
      assert now[j] == was[j];
    }
    assert Launch(base, now, k) == Launch(base, evs, k);
  }

  lemma ConvergedStep(finished: bool, ins: seq<Input>, from: nat, k: nat)
    requires from <= k < |ins|
    ensures Converged(finished, ins[from..k + 1])
            == (ins[k].action.Kill? || (!ins[k].action.Send? && Converged(finished, ins[from..k])))
    ensures Converged(finished, ins[k..k]) == finished
  {
    assert ins[from..k + 1][..k - from] == ins[from..k];
  }

  /** The desk of an open window after `k` inputs, read off the events. */
  ghost predicate OpenDesk(s: State, ins: seq<Input>, k: nat)
    requires k <= |ins|
  {
    var evs := EventsOf(ins);
    var d := View(Before(s, ins, k));
    && d.turn == Turn(Roster(s.turn.inflight, evs[..k]), !s.turn.synthetic && Owing(s.turn.inflight, evs[..k]),
                      s.turn.synthetic, false, s.turn.lastGen)
    && (d.status == Some(Finished) <==> Converged(s.rt.status == Some(Finished), ins[0..k]))
  }

  lemma WindowStart(s: State, ins: seq<Input>)
    requires !s.turn.owed && !s.turn.settled
    ensures OpenDesk(s, ins, 0)
  {
    assert ins[..0] == [] && ins[0..0] == [] && EventsOf(ins)[..0] == [];
  }

  lemma {:induction false} WindowOpen(s: State, ins: seq<Input>, k: nat)
    requires !s.turn.owed && !s.turn.settled
    requires k <= |ins| && Window(ins, s.turn.lastGen)
    requires OpenUpTo(s.turn.inflight, EventsOf(ins), k)
    ensures OpenDesk(s, ins, k)
  {
    hide Before, Sent, Step, Roster, Owing, Converged;
    var evs := EventsOf(ins);
    var base := s.turn.inflight;
    if k == 0 {
      WindowStart(s, ins);
    } else {
      WindowOpen(s, ins, k - 1);
      RosterStep(base, evs, k - 1);
      OwingStep(base, evs, k - 1);
      ConvergedStep(s.rt.status == Some(Finished), ins, 0, k - 1);
      BeforeStep(s, ins, k - 1);
      assert Within(ins[k - 1].action, s.turn.lastGen);
      assert !Closes(base, evs, k - 1);
    }
  }

  /** The terminal an idempotent Finish comes to: nothing at all once the status is Finished. */
  function OnceOnly(converged: bool, session: Option<string>): seq<Frame> {
    if converged then [] else [FinishFrame(session)]
  }

  /**
   The signal input `k` sends while the window is open. A drain before (`synthetic`) swallows
   every Finish and break of the pump's own, and with the break the debt a kill would pay.
   */
  ghost function WindowSignal(s: State, ins: seq<Input>, k: nat): seq<Frame>
    requires k < |ins|
  {
    var evs, base, drained := EventsOf(ins), s.turn.inflight, s.turn.synthetic;
    var session := Before(s, ins, k).rt.session;
    var converged := Converged(s.rt.status == Some(Finished), ins[0..k]);
    if ins[k].action.Kill? then OnceOnly(converged, session)
    else if ClosesByResult(base, evs, k) then Unless(drained, TerminalOf(evs[k], true, session))
    else if ClosesByKill(base, evs, k) then OnceOnly(drained || converged, session)
    else if evs[k].CleanResult() && !drained then [SegmentBreak]
    else []
  }

  /** Does closing at `k` settle the pump too? A drained turn never learns of its kill. */
  predicate Settling(s: State, evs: seq<Event>, k: nat)
    requires k < |evs|
  {
    ClosesByResult(s.turn.inflight, evs, k) || (ClosesByKill(s.turn.inflight, evs, k) && !s.turn.synthetic)
  }

  ghost predicate SettledAt(s: State, ins: seq<Input>, k: nat)
    requires k <= |ins|
  {
    var t := View(Before(s, ins, k)).turn;
    t.settled && !t.owed && t.lastGen == s.turn.lastGen
  }

  lemma WindowStep(s: State, ins: seq<Input>, k: nat)
    requires !s.turn.owed && !s.turn.settled
    requires k < |ins| && Window(ins, s.turn.lastGen)
    requires OpenUpTo(s.turn.inflight, EventsOf(ins), k)
    ensures Signals(Sent(s, ins, k)) == WindowSignal(s, ins, k)
    ensures Settling(s, EventsOf(ins), k) ==>
      SettledAt(s, ins, k + 1) && View(Before(s, ins, k + 1)).status == Some(Finished)
  {
    hide Before, Sent, Step, Roster, Owing, Converged;
    var evs := EventsOf(ins);
    WindowOpen(s, ins, k);
    RosterStep(s.turn.inflight, evs, k);
    BeforeStep(s, ins, k);
    assert Within(ins[k].action, s.turn.lastGen);
  }

  /** Once settled, a turn stays silent until content re-arms it; a kill from outside may still finish it. */
  lemma {:induction false} SettledSilent(s: State, ins: seq<Input>, c: nat, k: nat)
    requires c <= k <= |ins| && Window(ins, s.turn.lastGen)
    requires SettledAt(s, ins, c)
    requires forall j | c <= j < k :: !Acts(EventOf(ins[j].action))
    ensures SettledAt(s, ins, k)
    ensures var was := View(Before(s, ins, c)).status == Some(Finished);
      && (View(Before(s, ins, k)).status == Some(Finished) <==> Converged(was, ins[c..k]))
      && forall j | c <= j < k ::
           Signals(Sent(s, ins, j))
           == if ins[j].action.Kill? then OnceOnly(Converged(was, ins[c..j]), Before(s, ins, j).rt.session) else []
  {
    hide Before, Sent, Step, Converged;
    var was := View(Before(s, ins, c)).status == Some(Finished);
    if k == c {
      assert ins[c..c] == [];
      ConvergedNothing(was);
    } else {
      SettledSilent(s, ins, c, k - 1);
      ConvergedStep(was, ins, c, k - 1);
      BeforeStep(s, ins, k - 1);
      assert Within(ins[k - 1].action, s.turn.lastGen);
    }
  }

  lemma ConvergedNothing(finished: bool)
    ensures Converged(finished, []) == finished
  {
  }
}
