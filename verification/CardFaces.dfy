/**
 What the client is shown of progress cards, frame by frame and stated on the frames' own
 fields: openings, redraws, heartbeats, and how each ending is told.
 */
module CardFaces {
  import opened Wire
  import opened Order
  import opened Cards
  import opened PumpSpec
  import opened TurnEnds
  import opened StepShape
  import opened CardLedger
  import Store

  /** A card has something to show: background work always, a workflow once it has a member. */
  predicate Drawable(card: Card) {
    card.kind == CardKind.Background || card.roster != map[]
  }

  /** The frame of a running card. */
  function Drawn(card: Card): Frame {
    ProgressFrame(ToolFrame(card.callId, card.name, card.args, InFlight, None, None), card.roster, false)
  }

  /** The frame of an ended card: told this status, every member done. */
  function LastWord(card: Card, status: ToolStatus): Frame {
    ProgressFrame(ToolFrame(card.callId, card.name, card.args, status, None, None),
                  map a | a in card.roster :: Some(LoopState.Done), false)
  }

  /** How the end of a task is told: as reported by the task itself, else as canceled. */
  function Told(ev: Event, r: Ref): ToolStatus {
    if ev.SubagentUpdate? && ev.agent == r then
      match ev.status
      case Completed => Succeeded
      case Errored => ToolStatus.Error
      case _ => Canceled
    else Canceled
  }

  // ---- endings ----

  lemma LastFaceIs(card: Card, ev: Event, r: Ref)
    requires ev.SubagentUpdate? && ev.agent == r ==> !ev.status.PendingInit? && !ev.status.Running?
    ensures card.Settled(EndFor(ev, r)).Emission(true, false) == if Drawable(card) then [LastWord(card, Told(ev, r))] else []
  {
    if a :| a in card.roster {
      assert a in card.Settled(EndFor(ev, r)).roster;
    }
  }

  lemma {:induction false} LastFacesAre(cards: Ledger, refs: seq<Ref>, ev: Event)
    requires forall r | r in refs :: r in cards
    requires ev.SubagentUpdate? && ev.agent in refs ==> !ev.status.PendingInit? && !ev.status.Running?
    ensures forall r | r in refs && Drawable(cards[r]) :: LastWord(cards[r], Told(ev, r)) in LastFaces(cards, refs, ev)
    ensures forall f | f in LastFaces(cards, refs, ev) ::
              exists r :: r in refs && Drawable(cards[r]) && f == LastWord(cards[r], Told(ev, r))
  {
    hide Drawable, LastWord, Told, Card.Settled, Card.Emission, EndFor;
    if refs != [] {
      LastFacesAre(cards, refs[1..], ev);
      LastFaceIs(cards[refs[0]], ev, refs[0]);
    }
  }

  lemma {:induction false} FinalsAre(fs: seq<Frame>)
    ensures forall f :: f in Finals(fs) <==> f in fs && Final(f)
  {
    hide Final;
    if fs != [] {
      FinalsAre(fs[1..]);
    }
  }

  /** A report of a task starting or running takes no card from the ledger. */
  lemma RunningReportKeeps(s: State, i: Input)
    requires EventOf(i.action).SubagentUpdate? && (EventOf(i.action).status.PendingInit? || EventOf(i.action).status.Running?)
    ensures forall r | r in s.cards :: r in Step(s, i).st.cards
  {
    hide DeliverTo;
    DeliverCards(s, i.action.gen, i.action.ev, i.env);
  }

  /**
   How endings are told. Every card that an input takes from the ledger and that has something
   to show is shown ended under its own call, name and arguments, with every member done:
   Succeeded if its task reported Completed, Error if Errored, Canceled for any other report and
   for every turn end, drain and hang-up. And no other card is shown ended.
   */
  lemma EndsAreTold(s: State, i: Input)
    requires AllLive(s.cards)
    ensures forall r | r in s.cards && r !in Step(s, i).st.cards && Drawable(s.cards[r]) ::
              LastWord(s.cards[r], Told(EventOf(i.action), r)) in Step(s, i).frames
    ensures forall f | f in Step(s, i).frames && f.ProgressFrame? && !f.settleOnly && !f.card.status.InFlight? ::
              exists r :: r in s.cards && r !in Step(s, i).st.cards && Drawable(s.cards[r])
                          && f == LastWord(s.cards[r], Told(EventOf(i.action), r))
  {
    hide Step, Finals, LastFaces, Drawable, LastWord, Told, AllLive;
    var ev := EventOf(i.action);
    var refs := StepFinals(s, i);
    if ev.SubagentUpdate? && (ev.status.PendingInit? || ev.status.Running?) {
      RunningReportKeeps(s, i);
    }
    LastFacesAre(s.cards, refs, ev);
    FinalsAre(Step(s, i).frames);
  }

  /** The same at every input of every run. */
  lemma EveryEndIsTold(row: Store.Row, ins: seq<Input>, k: nat)
    requires k < |ins|
    ensures var was, now := Before(Init(row), ins, k).cards, Before(Init(row), ins, k + 1).cards;
      && (forall r | r in was && r !in now && Drawable(was[r]) ::
            LastWord(was[r], Told(EventOf(ins[k].action), r)) in Sent(Init(row), ins, k))
      && (forall f | f in Sent(Init(row), ins, k) && f.ProgressFrame? && !f.settleOnly && !f.card.status.InFlight? ::
            exists r :: r in was && r !in now && Drawable(was[r])
                        && f == LastWord(was[r], Told(EventOf(ins[k].action), r)))
  {
    hide Step, AllLive, Init, Before, Drawable, LastWord, Told;
    AllLiveRun(row, ins, k);
    Unroll(Init(row), ins, k);
    EndsAreTold(Before(Init(row), ins, k), ins[k]);
  }

  // ---- what the card phase sends first ----

  lemma {:induction false} SettleIsNoOrphan(cards: Ledger, refs: seq<Ref>)
    requires forall r | r in refs :: r in cards
    ensures forall f | f in SettleFrames(cards, refs) :: f.ProgressFrame? && !f.settleOnly && !f.card.status.InFlight?
  {
    if refs != [] {
      SettleIsNoOrphan(cards, refs[1..]);
    }
  }

  /** Frames that draw no running card, settle no stored row and touch no picker. */
  predicate Plain(fs: seq<Frame>) {
    forall f | f in fs ::
      !f.OptionsFrame? && !f.CommandsFrame? && (f.ProgressFrame? ==> !f.settleOnly && !f.card.status.InFlight?)
  }

  lemma TrackPlain(s: State, ev: Event, env: Env)
    ensures Plain(TrackRoster(s, ev, env).frames)
  {
    hide CancelFrames, Visit;
    SettleIsNoOrphan(s.cards, Visit(env.refs, Doomed(s.cards, false)));
  }

  lemma BoundaryPlain(s: State, ev: Event, hold: bool, env: Env)
    ensures Plain(Boundary(s, ev, hold, env).frames)
  {
    hide CancelFrames, Visit, Restrict, KeptOpen;
    SettleIsNoOrphan(s.cards, Visit(env.refs, Doomed(s.cards, ev.CleanResult())));
  }

  lemma ForwardPlain(s: State, ev: Event, settled: bool, hold: bool, tip: Option<Tip>)
    ensures Plain(Forward(s, Translate(ev, settled), hold, tip).frames)
  {
    if Translate(ev, settled).Some? {
      var t := Translate(ev, settled).value;
      var g := Shield(s.cards, StampName(s.tools.names, t));
      assert !t.ProgressFrame? && !g.ProgressFrame? && !t.OptionsFrame? && !t.CommandsFrame?;
    }
  }

  lemma ReadyForCards(s: State, gen: nat, ev: Event, env: Env)
    requires ev.SubagentUpdate? || ev.SubagentDetail? || ev.WorkflowPhase?
    ensures var q := Ready(s, gen, ev);
      q.cards == s.cards && q.tools == s.tools && DeliverTo(s, gen, ev, env) == Process(q, ev, env)
  {
    hide Process;
  }

  lemma PhasesInOrder(q: State, ev: Event, env: Env) returns (r: seq<Frame>, b: seq<Frame>, f: seq<Frame>)
    ensures var c := Confirm(q, ev);
      Process(q, ev, env).frames == c.frames + UpdateCards(c.st, ev, env.due).frames + r + b + f
    ensures Plain(r) && Plain(b) && Plain(f)
  {
    hide Confirm, UpdateCards, TrackRoster, Boundary, Forward, Store.Persist, EmptyTip, Translate, Plain, Holds;
    var k := UpdateCards(Confirm(q, ev).st, ev, env.due);
    var track := TrackRoster(k.st, ev, env);
    var hold := Holds(track.st.turn, ev);
    var tip := EmptyTip(track.st.visible, ev, hold);
    var bound := Boundary(track.st, ev, hold, env);
    var p := bound.st.(row := Store.Persist(bound.st.row, ev));
    r, b, f := track.frames, bound.frames, Forward(p, Translate(ev, p.turn.settled), hold, tip).frames;
    TrackPlain(k.st, ev, env);
    BoundaryPlain(track.st, ev, hold, env);
    ForwardPlain(p, ev, p.turn.settled, hold, tip);
  }

  lemma NothingConfirmed(q: State, ev: Event)
    requires !ev.ConfigChanged?
    ensures Confirm(q, ev) == Out(q, [])
  {
  }

  lemma ProcessCardsFirst(q: State, ev: Event, env: Env) returns (rest: seq<Frame>)
    requires !ev.ConfigChanged?
    ensures Process(q, ev, env).frames == UpdateCards(q, ev, env.due).frames + rest
    ensures Plain(rest)
  {
    hide Confirm, UpdateCards, Process, Plain;
    NothingConfirmed(q, ev);
    var r, b, f := PhasesInOrder(q, ev, env);
    rest := r + b + f;
    PlainThree(r, b, f);
    var k := UpdateCards(q, ev, env.due).frames;
    assert [] + k == k;
    assert k + r + b + f == k + (r + b + f);
  }

  /** What the card phase of an event sends goes out before everything else. */
  lemma CardsFirst(s: State, gen: nat, ev: Event, env: Env) returns (rest: seq<Frame>)
    requires ev.SubagentUpdate? || ev.SubagentDetail? || ev.WorkflowPhase?
    ensures DeliverTo(s, gen, ev, env).frames
            == Update(s.cards, s.tools.names, s.tools.args, ev, env.due).frames + rest
    ensures Plain(rest)
  {
    hide DeliverTo, Process, Ready, Update;
    ReadyForCards(s, gen, ev, env);
    rest := ProcessCardsFirst(Ready(s, gen, ev), ev, env);
  }

  lemma PlainThree(a: seq<Frame>, b: seq<Frame>, c: seq<Frame>)
    requires Plain(a) && Plain(b) && Plain(c)
    ensures Plain(a + b + c)
  {
  }

  /**
   The end of a task without a card still settles the row it left: one settle-only frame on its
   launching call, told by the same rule; and no such frame is sent for anything else.
   */
  lemma OrphansAreTold(s: State, gen: nat, ev: Event, env: Env)
    requires ev.SubagentUpdate?
    ensures var o := DeliverTo(s, gen, ev, env);
      var orphan := !ev.status.PendingInit? && !ev.status.Running? && ev.agent !in s.cards && ev.launchedBy.Some?;
      && (orphan ==>
            && o.frames != []
            && o.frames[0] == ProgressFrame(ToolFrame(ev.launchedBy.value, "", Null, Told(ev, ev.agent), None, None), map[], true)
            && Plain(o.frames[1..]))
      && (!orphan ==> forall f | f in o.frames && f.ProgressFrame? :: !f.settleOnly)
  {
    hide DeliverTo;
    var rest := CardsFirst(s, gen, ev, env);
  }

  // ---- openings and redraws ----

  /**
   An opened card: of the declared kind, on the launching call, under the call's name and
   arguments as known, empty and live. Background work is drawn at once, a workflow not yet.
   */
  lemma OpeningIsDrawn(s: State, gen: nat, ev: Event, env: Env, call: CallId)
    requires Opening(s, Deliver(gen, ev)) == Some(call)
    ensures var o := DeliverTo(s, gen, ev, env);
      var workflow := ev.kind == Some(WorkflowContainer);
      var name := if call in s.tools.names then s.tools.names[call] else "Workflow";
      var args := if call in s.tools.args then s.tools.args[call] else Null;
      var card := Card(if workflow then CardKind.Workflow else CardKind.Background, call, name, args, map[], {}, Live);
      && o.st.cards == s.cards[ev.agent := card]
      && (if workflow then Plain(o.frames)
          else o.frames != [] && o.frames[0] == Drawn(card) && Plain(o.frames[1..]))
  {
    hide DeliverTo, Settles;
    var rest := CardsFirst(s, gen, ev, env);
    DeliverCards(s, gen, ev, env);
    RunningSettlesNot(s, gen, ev);
  }

  lemma RunningSettlesNot(s: State, gen: nat, ev: Event)
    requires !ev.TurnResult? && !ev.Detached? && (ev.SubagentUpdate? ==> !ev.status.Terminal())
    ensures !Settles(Ready(s, gen, ev).turn, ev)
  {
  }

  /**
   A member's detail on a live card: its state is kept if the detail carries none, and the card
   is drawn anew if the member is new, if its state changed, or if the card is due.
   */
  lemma DetailIsDrawn(s: State, gen: nat, ev: Event, env: Env, r: Ref)
    requires AllLive(s.cards)
    requires ev.SubagentDetail? && ev.container == Some(r) && r in s.cards
    ensures var o := DeliverTo(s, gen, ev, env);
      var was := s.cards[r];
      var known := ev.agent in was.roster;
      var state := if known && ev.loopState.None? then was.roster[ev.agent] else ev.loopState;
      var card := was.(roster := was.roster[ev.agent := state]);
      && o.st.cards == s.cards[r := card]
      && (if !known || was.roster[ev.agent] != state || r in env.due
          then o.frames != [] && o.frames[0] == Drawn(card) && Plain(o.frames[1..])
          else Plain(o.frames))
  {
    hide DeliverTo, Settles;
    var rest := CardsFirst(s, gen, ev, env);
    DeliverCards(s, gen, ev, env);
    RunningSettlesNot(s, gen, ev);
    assert s.cards[r].roster[ev.agent := ev.loopState] != map[] by {
      assert ev.agent in s.cards[r].roster[ev.agent := ev.loopState];
    }
  }

  /** A phase on a live card: drawn anew if the phase is new or the card is due, and drawable. */
  lemma PhaseIsDrawn(s: State, gen: nat, ev: Event, env: Env)
    requires AllLive(s.cards)
    requires ev.WorkflowPhase? && ev.task in s.cards
    ensures var o := DeliverTo(s, gen, ev, env);
      var was := s.cards[ev.task];
      var card := was.(phases := was.phases + {ev.index});
      && o.st.cards == s.cards[ev.task := card]
      && (if Drawable(card) && (ev.index !in was.phases || ev.task in env.due)
          then o.frames != [] && o.frames[0] == Drawn(card) && Plain(o.frames[1..])
          else Plain(o.frames))
  {
    hide DeliverTo, Settles;
    var rest := CardsFirst(s, gen, ev, env);
    DeliverCards(s, gen, ev, env);
    RunningSettlesNot(s, gen, ev);
  }

  /** The drawable cards that are due, in the order of the walk. */
  function DueFaces(cards: Ledger, refs: seq<Ref>, due: set<Ref>): seq<Frame> {
    if refs == [] then []
    else
      (if refs[0] in cards && refs[0] in due && Drawable(cards[refs[0]]) then [Drawn(cards[refs[0]])] else [])
      + DueFaces(cards, refs[1..], due)
  }

  lemma {:induction false} TickIsDrawn(cards: Ledger, refs: seq<Ref>, due: set<Ref>)
    requires AllLive(cards) && forall r | r in refs :: r in cards
    ensures TickFrames(cards, refs, due) == DueFaces(cards, refs, due)
  {
    if refs != [] {
      TickIsDrawn(cards, refs[1..], due);
    }
  }

  /** A heartbeat draws each drawable card that is due once, in some order, and nothing else. */
  lemma HeartbeatDrawsDueCards(s: State, env: Env) returns (order: seq<Ref>)
    requires AllLive(s.cards)
    ensures Distinct(order) && forall r :: r in order <==> r in s.cards
    ensures Step(s, Input(Tick, env)).st == s
    ensures Step(s, Input(Tick, env)).frames == DueFaces(s.cards, order, env.due)
  {
    hide DeliverTo, DueFaces, TickFrames;
    order := Visit(env.refs, s.cards.Keys);
    TickIsDrawn(s.cards, order, env.due);
  }
}
