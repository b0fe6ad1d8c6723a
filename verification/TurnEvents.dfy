/**
 What single events mean for a turn, told by their constructors and by the frames a client
 gets: which of them start a settled turn again, which end agents, what an exit shows.
 */
module TurnEvents {
  import opened Wire
  import opened PumpSpec
  import opened StepShape
  import opened TurnProtocol
  import Cards

  // ---- starting a settled turn again ----

  /** A frame in which the agent speaks or acts. Cancellations are the pump's own. */
  predicate Speaks(f: Frame) {
    || f.TextFrame? || f.ThinkingFrame? || f.PermissionFrame? || f.AskFrame?
    || (f.CallFrame? && !f.call.status.Canceled?)
  }

  predicate Acts(ev: Event) {
    match ev
    case MessageDelta(_) => true
    case ThoughtDelta(_) => true
    case ToolCall(_, _, _, _) => true
    case ToolResult(_, _, _, _) => true
    case Permission(_) => true
    case Ask(_) => true
    case _ => false
  }

  lemma TailSpeaks(tools: Tools, ev: Event, cards: Cards.Ledger, tail: seq<Frame>)
    requires Tail(tools, ev, cards, tail)
    ensures (exists f | f in tail :: Speaks(f)) <==> Acts(ev) || ev.ToolOutputDelta?
  {
    if tail != [] {
      assert tail[0] in tail && tail == [tail[0]];
      assert Speaks(tail[0]) <==> Acts(ev) || ev.ToolOutputDelta?;
    }
  }

  lemma EndingSpeaksNot(s: State, ev: Event)
    requires Settles(s.turn, ev)
    ensures (forall f | f in Ending(s, ev) :: !Speaks(f)) && !Acts(ev) && !ev.ToolOutputDelta?
  {
  }

  /** Any envelope: a frame of the agent's is sent for the six acting events and live output only. */
  lemma OnlyActsSpeak(s: State, gen: nat, ev: Event, env: Env)
    ensures (exists f | f in DeliverTo(s, gen, ev, env).frames :: Speaks(f)) <==> Acts(ev) || ev.ToolOutputDelta?
  {
    hide DeliverTo, Ready, Ending, Settles, Tail, Acts, CancelFrames, ToCancel, NextTools, NextVisible;
    var before, ids, tail := DeliverShape(s, gen, ev, env);
    assert forall f | f in before :: !Speaks(f);
    if Settles(Ready(s, gen, ev).turn, ev) {
      EndingSpeaksNot(Ready(s, gen, ev), ev);
      CancelsSpeakNot(s.tools, ev, ids);
    } else {
      TailSpeaks(s.tools, ev, DeliverTo(s, gen, ev, env).st.cards, tail);
    }
  }

  lemma CancelsSpeakNot(tools: Tools, ev: Event, ids: seq<CallId>)
    requires Lists(ids, ToCancel(tools, ev))
    ensures forall id | id in ids :: id in tools.open
    ensures forall f | f in CancelFrames(tools.open, ids) :: !Speaks(f)
  {
  }

  /**
   What re-arms. On a settled turn an envelope of the same generation leaves the turn unsettled
   if and only if it is a restart, or the client is sent a frame of the agent's for it and it is
   not live output; that is, for exactly six kinds of event.
   */
  lemma RearmedByActsOnly(s: State, gen: nat, ev: Event, env: Env)
    requires s.turn.settled && gen <= s.turn.lastGen
    ensures !DeliverTo(s, gen, ev, env).st.turn.settled <==> ev.TurnStarted? || Acts(ev)
    ensures !DeliverTo(s, gen, ev, env).st.turn.settled
            <==> ev.TurnStarted?
                 || (!ev.ToolOutputDelta? && exists f | f in DeliverTo(s, gen, ev, env).frames :: Speaks(f))
  {
    hide DeliverTo, Speaks;
    OnlyActsSpeak(s, gen, ev, env);
    DeliverSignals(s, gen, ev, env);
  }

  /**
   The result after one event on a settled turn, for all events, rosters and results. It shows
   its terminal if the event re-armed the turn, a break if a workflow is still in flight and the
   result is neither an error nor a cancel, and nothing if the event did not re-arm.
   */
  lemma NextResultShows(s: State, g: nat, ev: Event, e: Env, h: nat, result: Event, e': Env)
    requires s.turn.settled && g <= s.turn.lastGen && h <= s.turn.lastGen && result.TurnResult?
    ensures Signals(DeliverTo(DeliverTo(s, g, ev, e).st, h, result, e').frames) ==
            if ev.TurnStarted? then [TerminalOf(result, true, s.rt.session)]
            else if !Acts(ev) then []
            else if s.turn.inflight != {} && !result.isError && !result.outcome.Cancelled? then
              if s.turn.synthetic then [] else [SegmentBreak]
            else Unless(s.turn.synthetic, TerminalOf(result, true, s.rt.session))
  {
    hide DeliverTo, Signals, TerminalOf;
    DeliverSignals(s, g, ev, e);
    DeliverSignals(DeliverTo(s, g, ev, e).st, h, result, e');
  }

  // ---- ends of agents ----

  /**
   An agent's report, status by status: what it does to the roster, and when it pays the Finish
   owed to a launch.
   */
  lemma ReportsMoveRoster(s: State, gen: nat, ev: Event, env: Env)
    requires ev.SubagentUpdate?
    ensures var o := DeliverTo(s, gen, ev, env); var renewed := gen > s.turn.lastGen;
      var was := if renewed then {} else s.turn.inflight; var owed := s.turn.owed && !renewed;
      match ev.status
      case PendingInit | Running =>
        o.st.turn.inflight == (if ev.kind == Some(WorkflowContainer) then was + {ev.agent} else was)
        && o.st.turn.owed == owed && Signals(o.frames) == []
      case Completed =>
        o.st.turn.inflight == was - {ev.agent} && o.st.turn.owed == owed && Signals(o.frames) == []
      case Interrupted | Errored | Shutdown =>
        && o.st.turn.inflight == was - {ev.agent}
        && o.st.turn.owed == (owed && was - {ev.agent} != {})
        && Signals(o.frames) == if owed && was - {ev.agent} == {} && s.rt.status != Some(Finished)
                                then [FinishFrame(s.rt.session)] else []
  {
    hide DeliverTo, Signals;
    DeliverSignals(s, gen, ev, env);
  }

  // ---- the process exit ----

  /**
   An exit shows an Error if the turn had no result yet and the process did not end with code 0
   and no signal; else a Finish, unless a drain already sent it.
   */
  lemma ExitShows(s: State, gen: nat, exit: Option<ExitStatus>, env: Env)
    ensures var renewed := gen > s.turn.lastGen;
      var orderly := exit.Some? && exit.value.code == Some(0) && exit.value.signal == None;
      Signals(DeliverTo(s, gen, Detached(exit), env).frames) ==
      if (renewed || !s.turn.settled) && !orderly then [ErrorFrame(Disconnected(exit))]
      else if s.turn.synthetic && !renewed then []
      else [FinishFrame(s.rt.session)]
  {
    hide DeliverTo, Signals;
    DeliverSignals(s, gen, Detached(exit), env);
  }

  /** Each send is announced once, with the session bound so far, and sets the turn running. */
  lemma SendAnnounces(s: State, env: Env)
    ensures Step(s, Input(Send, env)).frames == [StartFrame(s.rt.session)]
    ensures Step(s, Input(Send, env)).st == s.(rt := s.rt.(status := Some(Status.Running)))
  {
    hide DeliverTo;
  }
}
