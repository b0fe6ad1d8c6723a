/**
 The progress cards over whole runs: the published count is the ledger's size, a settlement
 leaves only what may outlive it, and a card that leaves is shown finished exactly once.
 */
module CardLedger {
  import opened Wire
  import opened Order
  import opened Cards
  import opened PumpSpec
  import opened TurnEnds
  import opened StepShape
  import opened ToolCalls
  import Store

  // ---- the ledger after one input ----

  /** What a terminal may leave behind: background work, and only when the end is clean. */
  function Survivors(cards: Ledger, clean: bool): Ledger {
    map r | r in cards && clean && cards[r].kind.Background? :: cards[r]
  }

  function NextCards(s: State, gen: nat, ev: Event, due: set<Ref>): Ledger {
    var cards := Update(s.cards, s.tools.names, s.tools.args, ev, due).ledger;
    if Settles(Ready(s, gen, ev).turn, ev) then Survivors(cards, ev.CleanResult()) else cards
  }

  lemma SettleLeaves(cards: Ledger, keep: bool, wish: seq<Ref>)
    ensures Settle(cards, keep, wish).ledger == Survivors(cards, keep)
  {
  }

  lemma ForwardCards(s: State, f: Option<Frame>, hold: bool, tip: Option<Tip>)
    ensures Forward(s, f, hold, tip).st.cards == s.cards && Forward(s, f, hold, tip).st.rt.live == s.rt.live
  {
  }

  lemma PayOwedCards(s: State, env: Env)
    ensures PayOwed(s, env).st.cards == Survivors(s.cards, false)
    ensures PayOwed(s, env).st.rt.live == |Survivors(s.cards, false)|
  {
    hide Settle, CancelFrames, Visit;
    SettleLeaves(s.cards, false, env.refs);
  }

  lemma CloseTurnCards(s: State, ev: Event, env: Env)
    ensures CloseTurn(s, ev, env).st.cards == Survivors(s.cards, ev.CleanResult())
    ensures CloseTurn(s, ev, env).st.rt.live == |Survivors(s.cards, ev.CleanResult())|
  {
    hide Settle, CancelFrames, Visit, KeptOpen, Restrict;
    SettleLeaves(s.cards, ev.CleanResult(), env.refs);
  }

  lemma ProcessCards(s: State, ev: Event, env: Env)
    requires !Duplicate(s.turn, ev)
    ensures var cards := Update(s.cards, s.tools.names, s.tools.args, ev, env.due).ledger;
      && Process(s, ev, env).st.cards == (if Settles(s.turn, ev) then Survivors(cards, ev.CleanResult()) else cards)
      && Process(s, ev, env).st.rt.live == |Process(s, ev, env).st.cards|
  {
    hide Update, PayOwed, CloseTurn, Forward, Store.Persist, EmptyTip, Survivors, Translate;
    var c := Confirm(s, ev);
    var k := UpdateCards(c.st, ev, env.due);
    var r := TrackRoster(k.st, ev, env);
    var hold := Holds(r.st.turn, ev);
    var b := Boundary(r.st, ev, hold, env);
    PayOwedCards(k.st.(turn := k.st.turn.(inflight := k.st.turn.inflight - if ev.SubagentUpdate? then {ev.agent} else {})), env);
    CloseTurnCards(r.st, ev, env);
    var p := b.st.(row := Store.Persist(b.st.row, ev));
    ForwardCards(p, Translate(ev, p.turn.settled), hold, EmptyTip(r.st.visible, ev, hold));
  }

  lemma DeliverCards(s: State, gen: nat, ev: Event, env: Env)
    ensures DeliverTo(s, gen, ev, env).st.cards == NextCards(s, gen, ev, env.due)
    ensures s.rt.live == |s.cards| ==> DeliverTo(s, gen, ev, env).st.rt.live == |NextCards(s, gen, ev, env.due)|
  {
    hide Process, Survivors;
    var r := Ready(s, gen, ev);
    if Duplicate(r.turn, ev) {
    } else if ev.ToolOutputDelta? || ev.CatalogUpdated? {
    } else {
      ProcessCards(r, ev, env);
      assert DeliverTo(s, gen, ev, env) == Process(r, ev, env);
      hide Update, Settles;
    }
  }

  /** The count published to the idle scanner is the number of live cards, after every input. */
  lemma {:induction false} LiveCountIsLedgerSize(row: Store.Row, ins: seq<Input>, k: nat)
    requires k <= |ins|
    ensures Before(Init(row), ins, k).rt.live == |Before(Init(row), ins, k).cards|
  {
    if k == 0 {
      assert ins[..0] == [];
    } else {
      LiveCountIsLedgerSize(row, ins, k - 1);
      Unroll(Init(row), ins, k - 1);
      LiveStep(Before(Init(row), ins, k - 1), ins[k - 1]);
      hide Step, Init;
    }
  }

  lemma LiveStep(s: State, i: Input)
    requires s.rt.live == |s.cards|
    ensures Step(s, i).st.rt.live == |Step(s, i).st.cards|
  {
    hide DeliverTo, NextCards;
    if i.action.Deliver? {
      DeliverCards(s, i.action.gen, i.action.ev, i.env);
    }
  }

  /**
   What a turn end leaves: background cards only, and those only if it was clean. A kill, an
   error, a cancel, an exit and the end of the stream leave no card.
   */
  lemma SettlementLeavesBackground(s: State, i: Input)
    requires i.action.Hangup?
      || (i.action.Deliver? && Settles(Ready(s, i.action.gen, i.action.ev).turn, i.action.ev))
    ensures forall r | r in Step(s, i).st.cards ::
              EventOf(i.action).CleanResult() && Step(s, i).st.cards[r].kind.Background?
    ensures EventOf(i.action).CleanResult() ==>
              forall r | r in s.cards && s.cards[r].kind.Background? ::
                r in Step(s, i).st.cards && Step(s, i).st.cards[r] == s.cards[r]
  {
    if i.action.Hangup? {
      hide Settle;
      SettleLeaves(s.cards, false, i.env.refs);
    } else {
      hide DeliverTo;
      DeliverCards(s, i.action.gen, i.action.ev, i.env);
    }
  }

  // ---- cards shown finished ----

  predicate Final(f: Frame) {
    f.ProgressFrame? && !f.settleOnly && !f.card.status.InFlight?
  }

  function Finals(fs: seq<Frame>): seq<Frame> {
    if fs == [] then [] else (if Final(fs[0]) then [fs[0]] else []) + Finals(fs[1..])
  }

  lemma {:induction false} FinalsConcat(a: seq<Frame>, b: seq<Frame>)
    ensures Finals(a + b) == Finals(a) + Finals(b)
  {
    hide Final;
    if a == [] {
      assert a + b == b;
    } else {
      assert (a + b)[1..] == a[1..] + b;
      FinalsConcat(a[1..], b);
    }
  }

  lemma {:induction false} FinalsNone(fs: seq<Frame>)
    requires forall f | f in fs :: !Final(f)
    ensures Finals(fs) == []
  {
    if fs != [] {
      FinalsNone(fs[1..]);
    }
  }

  lemma {:induction false} FinalsAll(fs: seq<Frame>)
    requires forall f | f in fs :: Final(f)
    ensures Finals(fs) == fs
  {
    if fs != [] {
      FinalsAll(fs[1..]);
    }
  }

  predicate AllLive(cards: Ledger) {
    forall r | r in cards :: cards[r].status.Live?
  }

  /** Does this event end a card of the ledger on its own account? */
  predicate EndsOwnCard(cards: Ledger, ev: Event) {
    ev.SubagentUpdate? && ev.status.Terminal() && ev.agent in cards
  }

  lemma UpdateKeepsLive(cards: Ledger, names: map<CallId, string>, args: map<CallId, Args>, ev: Event, due: set<Ref>)
    requires AllLive(cards)
    ensures var o := Update(cards, names, args, ev, due);
      && AllLive(o.ledger)
      && (EndsOwnCard(cards, ev) ==>
            o.ledger == cards - {ev.agent} && o.frames == cards[ev.agent].Settled(EndOf(ev.status)).Emission(true, false))
      && (!EndsOwnCard(cards, ev) ==> cards.Keys <= o.ledger.Keys && forall f | f in o.frames :: !Final(f))
  {
  }

  lemma AllLiveStep(s: State, i: Input)
    requires AllLive(s.cards)
    ensures AllLive(Step(s, i).st.cards)
  {
    hide DeliverTo, Settles, Update, Settle, Ready;
    if i.action.Deliver? {
      DeliverCards(s, i.action.gen, i.action.ev, i.env);
      UpdateKeepsLive(s.cards, s.tools.names, s.tools.args, i.action.ev, i.env.due);
    } else if i.action.Hangup? {
      SettleLeaves(s.cards, false, i.env.refs);
    }
  }

  /** How an input ends the card of `r`: as its own task reported, else as stopped. */
  function EndFor(ev: Event, r: Ref): CardStatus {
    if ev.SubagentUpdate? && ev.status.Terminal() && ev.agent == r then EndOf(ev.status) else Stopped
  }

  /** The last faces of these cards; a workflow card that never had a roster has none. */
  function LastFaces(cards: Ledger, refs: seq<Ref>, ev: Event): seq<Frame> {
    if refs == [] then []
    else
      (if refs[0] in cards then cards[refs[0]].Settled(EndFor(ev, refs[0])).Emission(true, false) else [])
      + LastFaces(cards, refs[1..], ev)
  }

  lemma {:induction false} LastFacesFinal(cards: Ledger, refs: seq<Ref>, ev: Event)
    ensures forall f | f in LastFaces(cards, refs, ev) ::
              Final(f) && forall a | a in f.roster :: f.roster[a] == Some(LoopState.Done)
  {
    if refs != [] {
      LastFacesFinal(cards, refs[1..], ev);
    }
  }

  lemma {:induction false} SettleFramesAreLastFaces(cards: Ledger, whole: Ledger, refs: seq<Ref>, ev: Event)
    requires forall r | r in refs :: r in cards && r in whole && whole[r] == cards[r] && EndFor(ev, r) == Stopped
    ensures SettleFrames(cards, refs) == LastFaces(whole, refs, ev)
  {
    if refs != [] {
      SettleFramesAreLastFaces(cards, whole, refs[1..], ev);
    }
  }

  lemma {:induction false} LastFacesConcat(cards: Ledger, a: seq<Ref>, b: seq<Ref>, ev: Event)
    ensures LastFaces(cards, a + b, ev) == LastFaces(cards, a, ev) + LastFaces(cards, b, ev)
  {
    if a == [] {
      assert a + b == b;
    } else {
      assert (a + b)[1..] == a[1..] + b;
      LastFacesConcat(cards, a[1..], b, ev);
    }
  }

  /** `refs` lists the cards of `was` that `now` no longer has. */
  ghost predicate Leaving(refs: seq<Ref>, was: Ledger, now: Ledger) {
    Distinct(refs) && forall r :: r in refs <==> r in was && r !in now
  }

  /** The update phase alone. */
  lemma UpdateFinals(s: State, ev: Event, due: set<Ref>) returns (refs: seq<Ref>)
    requires AllLive(s.cards)
    ensures Leaving(refs, s.cards, UpdateCards(s, ev, due).st.cards)
    ensures Finals(UpdateCards(s, ev, due).frames) == LastFaces(s.cards, refs, ev)
  {
    UpdateKeepsLive(s.cards, s.tools.names, s.tools.args, ev, due);
    hide Update;
    refs := [];
    if EndsOwnCard(s.cards, ev) {
      refs := [ev.agent];
      var last := s.cards[ev.agent].Settled(EndOf(ev.status)).Emission(true, false);
      assert LastFaces(s.cards, refs, ev) == last + [];
      FinalsAll(last);
    } else {
      FinalsNone(UpdateCards(s, ev, due).frames);
    }
  }

  /** The settling of the cards an event leaves over. */
  lemma SettleFinals(whole: Ledger, cards: Ledger, keep: bool, env: Env, ev: Event) returns (refs: seq<Ref>)
    requires forall r | r in cards :: EndFor(ev, r) == Stopped
    requires forall r | r in cards && r !in Survivors(cards, keep) :: r in whole && whole[r] == cards[r]
    ensures Leaving(refs, cards, Survivors(cards, keep))
    ensures (forall r | r in refs :: r in whole)
    ensures Finals(Settle(cards, keep, env.refs).frames) == LastFaces(whole, refs, ev)
    ensures forall f | f in Settle(cards, keep, env.refs).frames :: f.ProgressFrame?
  {
    refs := Visit(env.refs, Doomed(cards, keep));
    SettleFramesAreLastFaces(cards, whole, refs, ev);
    LastFacesFinal(whole, refs, ev);
    FinalsAll(SettleFrames(cards, refs));
  }

  lemma PayOwedFinals(s: State, whole: Ledger, env: Env, ev: Event) returns (refs: seq<Ref>)
    requires forall r | r in s.cards :: EndFor(ev, r) == Stopped
    requires forall r | r in s.cards :: r in whole && whole[r] == s.cards[r]
    ensures Leaving(refs, s.cards, map[]) && (forall r | r in refs :: r in whole)
    ensures Finals(PayOwed(s, env).frames) == LastFaces(whole, refs, ev)
  {
    hide CancelFrames, Visit, Finals, Settle, LastFaces, EndFor;
    refs := SettleFinals(whole, s.cards, false, env, ev);
    assert Survivors(s.cards, false) == map[];
    var c := Settle(s.cards, false, env.refs).frames;
    var cancels := CancelFrames(s.tools.open, Visit(env.calls, s.tools.open.Keys));
    var f := if s.rt.status == Some(Finished) then [] else [FinishFrame(s.rt.session)];
    assert PayOwed(s, env).frames == c + cancels + f;
    FinalsConcat(c + cancels, f);
    FinalsConcat(c, cancels);
    FinalsNone(cancels);
    FinalsNone(f);
  }

  lemma CloseTurnFinals(s: State, env: Env, ev: Event) returns (refs: seq<Ref>)
    requires !ev.SubagentUpdate?
    ensures Leaving(refs, s.cards, Survivors(s.cards, ev.CleanResult()))
    ensures Finals(CloseTurn(s, ev, env).frames) == LastFaces(s.cards, refs, ev)
  {
    hide CancelFrames, Visit, Finals, Settle, LastFaces, KeptOpen, Restrict;
    refs := SettleFinals(s.cards, s.cards, ev.CleanResult(), env, ev);
    var c := Settle(s.cards, ev.CleanResult(), env.refs).frames;
    var cancels := CancelFrames(s.tools.open, Visit(env.calls, s.tools.open.Keys - KeptOpen(s.tools, ev.CleanResult())));
    assert CloseTurn(s, ev, env).frames == c + cancels;
    FinalsConcat(c, cancels);
    FinalsNone(cancels);
  }

  lemma PlainFinals(s: State, ev: Event, env: Env) returns (refs: seq<Ref>)
    requires AllLive(s.cards) && !Duplicate(s.turn, ev) && !Settles(s.turn, ev)
    ensures Leaving(refs, s.cards, UpdateCards(s, ev, env.due).st.cards)
    ensures Finals(Process(s, ev, env).frames) == LastFaces(s.cards, refs, ev)
  {
    hide Confirm, UpdateCards, PayOwed, CloseTurn, Store.Persist, Finals, LastFaces, Translate, Forward;
    var c := Confirm(s, ev);
    ConfirmShape(s, ev);
    ConfirmFinals(s, ev);
    var k := UpdateCards(c.st, ev, env.due);
    refs := UpdateFinals(c.st, ev, env.due);
    UpdateShape(c.st, ev, env.due);
    UpdateSame(s, c.st, ev, env.due);
    var r := TrackRoster(k.st, ev, env).st;
    var hold := Holds(r.turn, ev);
    var b := Boundary(r, ev, hold, env).st;
    var p := b.(row := Store.Persist(b.row, ev));
    var f := Forward(p, Translate(ev, p.turn.settled), hold, EmptyTip(r.visible, ev, hold)).frames;
    ForwardFinals(p, ev, hold, EmptyTip(r.visible, ev, hold));
    assert Process(s, ev, env).frames == c.frames + k.frames + [] + [] + f;
    assert c.frames + k.frames + [] + [] + f == c.frames + k.frames + f;
    FinalsConcat(c.frames + k.frames, f);
    FinalsConcat(c.frames, k.frames);
    FinalsNone(c.frames);
    FinalsNone(f);
  }

  lemma ConfirmFinals(s: State, ev: Event)
    ensures forall f | f in Confirm(s, ev).frames :: !Final(f)
  {
  }

  lemma ForwardFinals(s: State, ev: Event, hold: bool, tip: Option<Tip>)
    ensures forall f | f in Forward(s, Translate(ev, s.turn.settled), hold, tip).frames :: !Final(f)
  {
    if Translate(ev, s.turn.settled).Some? {
      var t := Translate(ev, s.turn.settled).value;
      var g := Shield(s.cards, StampName(s.tools.names, t));
      assert !Final(t) && !Final(g);
    }
  }

  lemma UpdateSame(s: State, t: State, ev: Event, due: set<Ref>)
    requires s.cards == t.cards && s.tools == t.tools
    ensures UpdateCards(s, ev, due).st.cards == UpdateCards(t, ev, due).st.cards
  {
    hide Update;
  }

  lemma PayingFrames(s: State, ev: Event, env: Env) returns (k: Out, s1: State)
    requires PaysOwed(s.turn, ev)
    ensures k == UpdateCards(Confirm(s, ev).st, ev, env.due)
    ensures s1 == k.st.(turn := k.st.turn.(inflight := k.st.turn.inflight - {ev.agent}))
    ensures Process(s, ev, env).frames == k.frames + PayOwed(s1, env).frames
  {
    hide PayOwed, Store.Persist, Update;
    k := UpdateCards(Confirm(s, ev).st, ev, env.due);
    s1 := k.st.(turn := k.st.turn.(inflight := k.st.turn.inflight - {ev.agent}));
    var r := PayOwed(s1, env);
    assert Process(s, ev, env).frames == [] + k.frames + r.frames + [] + [];
  }

  lemma PayingFinals(s: State, ev: Event, env: Env) returns (refs: seq<Ref>)
    requires AllLive(s.cards) && PaysOwed(s.turn, ev)
    ensures Leaving(refs, s.cards, map[])
    ensures Finals(Process(s, ev, env).frames) == LastFaces(s.cards, refs, ev)
  {
    hide PayOwed, Process, UpdateCards, Finals, LastFaces, EndFor;
    var k, s1 := PayingFrames(s, ev, env);
    var mine := UpdateFinals(s, ev, env.due);
    assert k == UpdateCards(s, ev, env.due);
    EndedLedger(s, ev, env.due);
    var others := PayOwedFinals(s1, s.cards, env, ev);
    refs := mine + others;
    LastFacesConcat(s.cards, mine, others, ev);
    FinalsConcat(k.frames, PayOwed(s1, env).frames);
    assert forall i, j | 0 <= i < |mine| && 0 <= j < |others| :: mine[i] in mine && others[j] in others;
  }

  lemma EndedLedger(s: State, ev: Event, due: set<Ref>)
    requires ev.SubagentUpdate? && ev.status.Terminal()
    ensures UpdateCards(s, ev, due).st.cards == s.cards - {ev.agent}
    ensures forall r | r in s.cards - {ev.agent} :: EndFor(ev, r) == Stopped
  {
  }

  lemma ClosingFinals(s: State, ev: Event, env: Env) returns (refs: seq<Ref>)
    requires (ev.TurnResult? && !Holds(s.turn, ev)) || ev.Detached?
    ensures Leaving(refs, s.cards, Survivors(s.cards, ev.CleanResult()))
    ensures Finals(Process(s, ev, env).frames) == LastFaces(s.cards, refs, ev)
  {
    hide CloseTurn, Store.Persist, Finals, LastFaces, EmptyTip, Translate;
    var k := UpdateCards(s, ev, env.due).st;
    var b := CloseTurn(k, ev, env);
    refs := CloseTurnFinals(k, env, ev);
    var p := b.st.(row := Store.Persist(b.st.row, ev));
    var f := Forward(p, Translate(ev, p.turn.settled), false, EmptyTip(s.visible, ev, false)).frames;
    ForwardFinals(p, ev, false, EmptyTip(s.visible, ev, false));
    hide Forward;
    assert Process(s, ev, env).frames == [] + [] + [] + b.frames + f;
    assert [] + [] + [] + b.frames + f == b.frames + f;
    FinalsConcat(b.frames, f);
    FinalsNone(f);
  }

  /**
   Each card that leaves the ledger is shown finished exactly once, in the very step it
   leaves, with no agent row left running; and nothing else is ever shown finished.
   */
  lemma DeliverFinals(s: State, gen: nat, ev: Event, env: Env) returns (refs: seq<Ref>)
    requires AllLive(s.cards)
    ensures Leaving(refs, s.cards, DeliverTo(s, gen, ev, env).st.cards)
    ensures Finals(DeliverTo(s, gen, ev, env).frames) == LastFaces(s.cards, refs, ev)
    ensures forall f | f in LastFaces(s.cards, refs, ev) ::
              f.ProgressFrame? && forall a | a in f.roster :: f.roster[a] == Some(LoopState.Done)
  {
    hide Process, Finals, LastFaces, Update, Settles;
    var r := Ready(s, gen, ev);
    var o := DeliverTo(s, gen, ev, env);
    refs := [];
    if Duplicate(r.turn, ev) || ev.ToolOutputDelta? || ev.CatalogUpdated? {
      assert LastFaces(s.cards, [], ev) == [] by { NoLastFaces(s.cards, ev); }
      FinalsNone(o.frames);
    } else {
      assert o == Process(r, ev, env);
      ProcessCards(r, ev, env);
      refs := ProcessFinals(r, ev, env);
    }
    LastFacesFinal(s.cards, refs, ev);
  }

  lemma NoLastFaces(cards: Ledger, ev: Event)
    ensures LastFaces(cards, [], ev) == []
  {
  }

  lemma ProcessFinals(s: State, ev: Event, env: Env) returns (refs: seq<Ref>)
    requires AllLive(s.cards) && !Duplicate(s.turn, ev)
    ensures Leaving(refs, s.cards, Process(s, ev, env).st.cards)
    ensures Finals(Process(s, ev, env).frames) == LastFaces(s.cards, refs, ev)
  {
    hide Process, Finals, LastFaces, Update;
    ProcessCards(s, ev, env);
    if PaysOwed(s.turn, ev) {
      refs := PayingFinals(s, ev, env);
    } else if Settles(s.turn, ev) {
      refs := ClosingFinals(s, ev, env);
      NoUpdate(s, ev, env.due);
    } else {
      refs := PlainFinals(s, ev, env);
    }
  }

  lemma NoUpdate(s: State, ev: Event, due: set<Ref>)
    requires ev.TurnResult? || ev.Detached?
    ensures Update(s.cards, s.tools.names, s.tools.args, ev, due).ledger == s.cards
  {
  }

  lemma {:induction false} AllLiveRun(row: Store.Row, ins: seq<Input>, k: nat)
    requires k <= |ins|
    ensures AllLive(Before(Init(row), ins, k).cards)
  {
    if k == 0 {
      assert ins[..0] == [];
    } else {
      AllLiveRun(row, ins, k - 1);
      hide Step, AllLive, Init;
      AllLiveStep(Before(Init(row), ins, k - 1), ins[k - 1]);
      Unroll(Init(row), ins, k - 1);
    }
  }

  lemma {:induction false} TickFinals(cards: Ledger, refs: seq<Ref>, due: set<Ref>)
    requires AllLive(cards) && forall r | r in refs :: r in cards
    ensures forall f | f in TickFrames(cards, refs, due) :: !Final(f)
  {
    if refs != [] {
      TickFinals(cards, refs[1..], due);
    }
  }

  /** Any input, the end of the stream included: the final faces sent are those of the cards that leave. */
  lemma StepFinals(s: State, i: Input) returns (refs: seq<Ref>)
    requires AllLive(s.cards)
    ensures Leaving(refs, s.cards, Step(s, i).st.cards)
    ensures Finals(Step(s, i).frames) == LastFaces(s.cards, refs, EventOf(i.action))
  {
    hide DeliverTo, Finals, LastFaces, Settle, TickFrames, Visit;
    refs := [];
    NoLastFaces(s.cards, EventOf(i.action));
    match i.action
    case Deliver(gen, ev) => refs := DeliverFinals(s, gen, ev, i.env);
    case Hangup =>
      refs := SettleFinals(s.cards, s.cards, false, i.env, Bookkeeping);
      SettleLeaves(s.cards, false, i.env.refs);
    case Tick =>
      TickFinals(s.cards, Visit(i.env.refs, s.cards.Keys), i.env.due);
      FinalsNone(Step(s, i).frames);
    case _ => FinalsNone(Step(s, i).frames);
  }

  /**
   On every run, at every input, the end of the stream included: the cards shown finished are
   the cards that leave, each that renders at all once and in its last face.
   */
  lemma EveryLeavingCardIsShownOnce(row: Store.Row, ins: seq<Input>, k: nat) returns (refs: seq<Ref>)
    requires k < |ins|
    ensures Leaving(refs, Before(Init(row), ins, k).cards, Before(Init(row), ins, k + 1).cards)
    ensures Finals(Sent(Init(row), ins, k))
            == LastFaces(Before(Init(row), ins, k).cards, refs, EventOf(ins[k].action))
  {
    hide Step, AllLive, Init, Before, Finals, LastFaces;
    AllLiveRun(row, ins, k);
    Unroll(Init(row), ins, k);
    refs := StepFinals(Before(Init(row), ins, k), ins[k]);
  }

  // ---- openings against settlements, call by call ----

  /**
   The call on which an event opens a card: a task declared with its kind and its launching
   call, not carded yet, and a workflow or launched by a call whose name is known.
   */
  function Opening(s: State, a: Action): Option<CallId> {
    if a.Deliver? && a.ev.SubagentUpdate? && !a.ev.status.Terminal() && a.ev.kind.Some? && a.ev.launchedBy.Some?
       && a.ev.agent !in s.cards
       && (a.ev.kind.value.WorkflowContainer? || a.ev.launchedBy.value in s.tools.names)
    then a.ev.launchedBy else None
  }

  function OnCall(cards: Ledger, call: CallId): set<Ref> {
    set r | r in cards && cards[r].callId == call
  }

  /** The cards on a call that `now` no longer has, among those that do or do not render. */
  function Gone(was: Ledger, now: Ledger, call: CallId, renders: bool): set<Ref> {
    set r | r in was && r !in now && was[r].callId == call && was[r].Renders() == renders
  }

  function CountOn(fs: seq<Frame>, call: CallId): nat {
    if fs == [] then 0
    else (if fs[0].ProgressFrame? && fs[0].card.callId == call then 1 else 0) + CountOn(fs[1..], call)
  }

  lemma {:induction false} CountOnConcat(a: seq<Frame>, b: seq<Frame>, call: CallId)
    ensures CountOn(a + b, call) == CountOn(a, call) + CountOn(b, call)
  {
    if a == [] {
      assert a + b == b;
    } else {
      assert (a + b)[1..] == a[1..] + b;
      CountOnConcat(a[1..], b, call);
    }
  }

  /** Those of `refs` whose cards sit on a call and render. */
  function FacesOn(cards: Ledger, refs: seq<Ref>, call: CallId): set<Ref> {
    set r | r in refs && r in cards && cards[r].callId == call && cards[r].Renders()
  }

  lemma FaceCount(card: Card, end: CardStatus, call: CallId)
    ensures CountOn(card.Settled(end).Emission(true, false), call)
            == if card.callId == call && card.Renders() then 1 else 0
  {
    var face := card.Settled(end).Emission(true, false);
    assert face != [] ==> face[1..] == [];
    assert card.roster != map[] ==> card.Settled(end).roster != map[] by {
      if r :| r in card.roster {
        assert r in card.Settled(end).roster;
      }
    }
  }

  lemma DistinctRest(refs: seq<Ref>)
    requires Distinct(refs) && refs != []
    ensures Distinct(refs[1..]) && refs[0] !in refs[1..]
    ensures forall r :: r in refs <==> r == refs[0] || r in refs[1..]
  {
  }

  lemma FacesFirst(cards: Ledger, refs: seq<Ref>, call: CallId)
    requires Distinct(refs) && refs != [] && refs[0] in cards
    ensures |FacesOn(cards, refs, call)|
            == |FacesOn(cards, refs[1..], call)| + if cards[refs[0]].callId == call && cards[refs[0]].Renders() then 1 else 0
  {
    var first, rest := refs[0], refs[1..];
    DistinctRest(refs);
    hide Distinct, Card.Renders;
    var all, others := FacesOn(cards, refs, call), FacesOn(cards, rest, call);
    assert first !in others && first in all <==> cards[first].callId == call && cards[first].Renders();
    forall r | r != first ensures r in all <==> r in others {
      assert r in refs <==> r in rest;
    }
    hide FacesOn;
    assert all == if first in all then others + {first} else others;
  }

  lemma {:induction false} LastFacesCount(cards: Ledger, refs: seq<Ref>, ev: Event, call: CallId)
    requires Distinct(refs) && forall r | r in refs :: r in cards
    ensures CountOn(LastFaces(cards, refs, ev), call) == |FacesOn(cards, refs, call)|
  {
    if refs == [] {
      assert FacesOn(cards, refs, call) == {};
    } else {
      hide CountOn, FacesOn, Distinct, Card.Settled, Card.Emission, EndFor;
      DistinctRest(refs);
      FacesFirst(cards, refs, call);
      LastFacesCount(cards, refs[1..], ev, call);
      FaceCount(cards[refs[0]], EndFor(ev, refs[0]), call);
      CountOnConcat(cards[refs[0]].Settled(EndFor(ev, refs[0])).Emission(true, false),
                    LastFaces(cards, refs[1..], ev), call);
    }
  }

  /** What an input may do to the ledger's keys and calls: open one card, or take cards away. */
  ghost predicate Moves(was: Ledger, now: Ledger, begun: Option<CallId>, agent: Ref) {
    && (forall r | r in was && r in now :: now[r].callId == was[r].callId)
    && (begun.None? ==> now.Keys <= was.Keys)
    && (begun.Some? ==> agent !in was && now.Keys == was.Keys + {agent} && now[agent].callId == begun.value)
  }

  lemma UpdateMoves(s: State, ev: Event, due: set<Ref>, a: Action)
    requires a.Deliver? && a.ev == ev
    ensures Moves(s.cards, Update(s.cards, s.tools.names, s.tools.args, ev, due).ledger, Opening(s, a),
                  if ev.SubagentUpdate? then ev.agent else "")
  {
  }

  lemma StepMoves(s: State, i: Input)
    ensures Moves(s.cards, Step(s, i).st.cards, Opening(s, i.action),
                  if EventOf(i.action).SubagentUpdate? then EventOf(i.action).agent else "")
  {
    hide DeliverTo, Update, Settle, Ready;
    if i.action.Deliver? {
      DeliverCards(s, i.action.gen, i.action.ev, i.env);
      UpdateMoves(s, i.action.ev, i.env.due, i.action);
    } else if i.action.Hangup? {
      SettleLeaves(s.cards, false, i.env.refs);
    }
  }

  lemma Balance(was: Ledger, now: Ledger, begun: Option<CallId>, agent: Ref, call: CallId)
    requires Moves(was, now, begun, agent)
    ensures |OnCall(was, call)| + (if begun == Some(call) then 1 else 0)
            == |OnCall(now, call)| + |Gone(was, now, call, true)| + |Gone(was, now, call, false)|
  {
    var born := if begun == Some(call) then {agent} else {};
    BalanceSets(was, now, begun, agent, call, born);
    hide OnCall, Gone, Moves;
    assert |OnCall(was, call) + born| == |OnCall(was, call)| + |born|;
    assert |OnCall(now, call) + Gone(was, now, call, true)| == |OnCall(now, call)| + |Gone(was, now, call, true)|;
  }

  lemma BalanceSets(was: Ledger, now: Ledger, begun: Option<CallId>, agent: Ref, call: CallId, born: set<Ref>)
    requires Moves(was, now, begun, agent)
    requires born == if begun == Some(call) then {agent} else {}
    ensures OnCall(was, call) + born == OnCall(now, call) + Gone(was, now, call, true) + Gone(was, now, call, false)
    ensures OnCall(was, call) !! born && OnCall(now, call) !! Gone(was, now, call, true)
    ensures (OnCall(now, call) + Gone(was, now, call, true)) !! Gone(was, now, call, false)
  {
    hide Card.Renders;
    forall r
      ensures r in OnCall(was, call) + born
              <==> r in OnCall(now, call) + Gone(was, now, call, true) + Gone(was, now, call, false)
    {
      if r in now && r !in was {
        assert begun.Some? && r == agent;
      }
    }
  }

  lemma StepBalance(s: State, i: Input, call: CallId)
    requires AllLive(s.cards)
    ensures var now := Step(s, i).st.cards;
      |OnCall(s.cards, call)| + (if Opening(s, i.action) == Some(call) then 1 else 0)
      == |OnCall(now, call)| + CountOn(Finals(Step(s, i).frames), call) + |Gone(s.cards, now, call, false)|
  {
    hide Step, Finals, LastFaces, Opening, OnCall, CountOn, AllLive;
    var now := Step(s, i).st.cards;
    var refs := StepFinals(s, i);
    LastFacesCount(s.cards, refs, EventOf(i.action), call);
    assert FacesOn(s.cards, refs, call) == Gone(s.cards, now, call, true);
    hide Gone, Moves;
    StepMoves(s, i);
    Balance(s.cards, now, Opening(s, i.action),
            if EventOf(i.action).SubagentUpdate? then EventOf(i.action).agent else "", call);
  }

  /** How many cards the first `k` events opened on a call. */
  ghost function Openings(s: State, ins: seq<Input>, k: nat, call: CallId): nat
    requires k <= |ins|
  {
    if k == 0 then 0
    else
      Openings(s, ins, k - 1, call)
      + if Opening(Before(s, ins, k - 1), ins[k - 1].action) == Some(call) then 1 else 0
  }

  /** How many finished cards the client was shown on a call. */
  ghost function ShownOn(s: State, ins: seq<Input>, k: nat, call: CallId): nat
    requires k <= |ins|
  {
    if k == 0 then 0 else ShownOn(s, ins, k - 1, call) + CountOn(Finals(Sent(s, ins, k - 1)), call)
  }

  /** How many cards left a call without a face: workflows of which no member was ever reported. */
  ghost function FacelessOn(s: State, ins: seq<Input>, k: nat, call: CallId): nat
    requires k <= |ins|
  {
    if k == 0 then 0
    else FacelessOn(s, ins, k - 1, call) + |Gone(Before(s, ins, k - 1).cards, Before(s, ins, k).cards, call, false)|
  }

  /**
   Every opening settles once. On every run and for every call, the cards its events opened are
   those the client was shown finished, those that left without a face, and those still live.
   */
  lemma {:induction false} EveryOpeningIsLiveOrSettled(row: Store.Row, ins: seq<Input>, k: nat, call: CallId)
    requires k <= |ins|
    ensures Openings(Init(row), ins, k, call)
            == ShownOn(Init(row), ins, k, call) + FacelessOn(Init(row), ins, k, call)
               + |OnCall(Before(Init(row), ins, k).cards, call)|
  {
    hide Before, Init, Step, AllLive, Opening, OnCall, CountOn, Finals, Gone;
    if k == 0 {
      NoCardYet(row, ins, call);
    } else {
      EveryOpeningIsLiveOrSettled(row, ins, k - 1, call);
      AllLiveRun(row, ins, k - 1);
      Unroll(Init(row), ins, k - 1);
      StepBalance(Before(Init(row), ins, k - 1), ins[k - 1], call);
    }
  }

  lemma NoCardYet(row: Store.Row, ins: seq<Input>, call: CallId)
    ensures OnCall(Before(Init(row), ins, 0).cards, call) == {}
  {
    assert ins[..0] == [];
  }

  /** Once the stream has ended, every card ever opened has been shown finished or had no face. */
  lemma EveryOpeningSettlesByTheEnd(row: Store.Row, ins: seq<Input>, k: nat, call: CallId)
    requires k < |ins| && ins[k].action.Hangup?
    ensures Openings(Init(row), ins, k + 1, call)
            == ShownOn(Init(row), ins, k + 1, call) + FacelessOn(Init(row), ins, k + 1, call)
  {
    hide Before, Init, Step, Openings, ShownOn, FacelessOn;
    EveryOpeningIsLiveOrSettled(row, ins, k + 1, call);
    Unroll(Init(row), ins, k);
    SettlementLeavesBackground(Before(Init(row), ins, k), ins[k]);
    assert OnCall(Before(Init(row), ins, k + 1).cards, call) == {};
  }

  // ---- the shield ----

  predicate LiveOn(cards: Ledger, call: CallId) {
    exists r | r in cards :: cards[r].callId == call
  }

  lemma TailIsShielded(tools: Tools, ev: Event, cards: Ledger, tail: seq<Frame>, f: Frame)
    requires Tail(tools, ev, cards, tail) && f in tail && f.CallFrame? && LiveOn(cards, f.call.callId)
    ensures f.call.status.InFlight?
  {
  }

  /**
   No call frame repaints the call of a live card as ended, except a turn-end cancellation,
   which is sent past the shield.
   */
  lemma OnlyCancellationRepaintsLiveCard(s: State, i: Input, f: Frame)
    ensures f in Step(s, i).frames && f.CallFrame? && LiveOn(Step(s, i).st.cards, f.call.callId) ==>
      f.call.status.InFlight? || f.Cancels()
  {
    hide DeliverTo, Ready, Ending, Settles, LiveOn, Tail, Lists, ToCancel, CancelFrames;
    if !i.action.Deliver? {
      OtherInputs(s, i);
    } else if f in Step(s, i).frames && f.CallFrame? && LiveOn(Step(s, i).st.cards, f.call.callId) {
      var ev := i.action.ev;
      var before, ids, tail := DeliverShape(s, i.action.gen, ev, i.env);
      var r := Ready(s, i.action.gen, ev);
      assert Step(s, i) == DeliverTo(s, i.action.gen, ev, i.env);
      hide Step;
      if Settles(r.turn, ev) {
        EndingCancelsNothing(r, ev);
      } else {
        TailIsShielded(s.tools, ev, Step(s, i).st.cards, tail, f);
      }
    }
  }

  /** A background card sits on a call that a clean end would cancel. */
  predicate Exposed(tools: Tools, cards: Ledger) {
    exists r | r in cards ::
      cards[r].kind.Background? && cards[r].callId in tools.open && !DetachedExec(tools.args, cards[r].callId)
  }

  ghost predicate Repaints(fs: seq<Frame>, cards: Ledger) {
    exists f | f in fs :: f.Cancels() && LiveOn(cards, f.call.callId)
  }

  lemma CleanEndRepaints(tools: Tools, cards: Ledger, ev: Event, ids: seq<CallId>)
    requires ev.CleanResult() && Lists(ids, ToCancel(tools, ev))
    ensures Repaints(CancelFrames(tools.open, ids), Survivors(cards, true)) <==> Exposed(tools, cards)
  {
    var cancels := CancelFrames(tools.open, ids);
    if Exposed(tools, cards) {
      var r :| r in cards && cards[r].kind.Background? && cards[r].callId in tools.open
        && !DetachedExec(tools.args, cards[r].callId);
      var id := cards[r].callId;
      assert id in ToCancel(tools, ev);
      var j :| 0 <= j < |ids| && ids[j] == id;
      assert cancels[j] in cancels && cancels[j].Cancels();
      assert r in Survivors(cards, true);
      assert LiveOn(Survivors(cards, true), cancels[j].call.callId);
    }
    if Repaints(cancels, Survivors(cards, true)) {
      var f :| f in cancels && f.Cancels() && LiveOn(Survivors(cards, true), f.call.callId);
      var r :| r in Survivors(cards, true) && Survivors(cards, true)[r].callId == f.call.callId;
      assert f.call.callId in ids;
      assert f.call.callId in ToCancel(tools, ev);
    }
  }

  /**
   When the shield is passed by: a settlement cancels the call of a card that stays live if
   and only if the end is clean and a background card sits on an open, undetached call.
   */
  lemma CancellationPastShield(s: State, gen: nat, ev: Event, env: Env)
    requires Settles(Ready(s, gen, ev).turn, ev)
    ensures Repaints(DeliverTo(s, gen, ev, env).frames, DeliverTo(s, gen, ev, env).st.cards)
            <==> ev.CleanResult() && Exposed(s.tools, s.cards)
  {
    hide DeliverTo, Ready, Ending, Settles, CancelFrames, Survivors, Exposed, LiveOn, Update;
    var before, ids, tail := DeliverShape(s, gen, ev, env);
    DeliverCards(s, gen, ev, env);
    EndingCancelsNothing(Ready(s, gen, ev), ev);
    if ev.CleanResult() {
      NoUpdate(s, ev, env.due);
      CleanEndRepaints(s.tools, s.cards, ev, ids);
      var cancels := CancelFrames(s.tools.open, ids);
      assert forall f :: f in DeliverTo(s, gen, ev, env).frames && f.Cancels() <==> f in cancels && f.Cancels();
    } else {
      NothingSurvives(Update(s.cards, s.tools.names, s.tools.args, ev, env.due).ledger);
    }
  }

  lemma NothingSurvives(cards: Ledger)
    ensures forall id :: !LiveOn(Survivors(cards, false), id)
  {
  }

  function Got(ev: Event): Input {
    Input(Deliver(1, ev), Env({}, [], []))
  }

  const SHELL := ToolCall("c", "Bash", Null, None)
  const SHELL_TASK := SubagentUpdate("t", SubagentStatus.Running, Some(AgentContainer), Some("c"))

  /** A background task on a shell call with no result yet, then a clean end: the live card's call is canceled. */
  lemma LiveCardRepaintedAtCleanEnd(row: Store.Row)
    ensures var ins := [Got(SHELL), Got(SHELL_TASK), Got(TurnResult(false, "", EndTurn))];
      && LiveOn(Before(Init(row), ins, 3).cards, "c")
      && CallFrame(ToolFrame("c", "Bash", Null, Canceled, None, None)) in Sent(Init(row), ins, 2)
  {
    var end := TurnResult(false, "", EndTurn);
    var ins := [Got(SHELL), Got(SHELL_TASK), Got(end)];
    var tools := Tools(map["c" := "Bash"], map["c" := "Bash"], map["c" := Null], map[]);
    var card := Card(CardKind.Background, "c", "Bash", Null, map[], {}, Live);
    BackgroundOnOpenCall(row, ins, tools, card);
    hide Step, DeliverTo, Before, Init;
    var s := Before(Init(row), ins, 2);
    Unroll(Init(row), ins, 2);
    var before, ids, tail := DeliverShape(s, 1, end, ins[2].env);
    DeliverCards(s, 1, end, ins[2].env);
    StepIsDelivery(s, 1, end, ins[2].env);
    assert "c" in ToCancel(s.tools, end);
    var j :| 0 <= j < |ids| && ids[j] == "c";
    var cancels := CancelFrames(s.tools.open, ids);
    assert cancels[j] == CancelFrame("c", "Bash") && cancels[j] in cancels;
    assert NextCards(s, 1, end, {})["t"] == card;
  }

  lemma StepIsDelivery(s: State, gen: nat, ev: Event, env: Env)
    ensures Step(s, Input(Deliver(gen, ev), env)) == DeliverTo(s, gen, ev, env)
  {
    hide DeliverTo;
  }

  lemma ShellOpen(row: Store.Row, ins: seq<Input>, tools: Tools)
    requires |ins| == 3 && ins[0] == Got(SHELL)
    requires tools == Tools(map["c" := "Bash"], map["c" := "Bash"], map["c" := Null], map[])
    ensures var s := Before(Init(row), ins, 1); s.tools == tools && s.cards == map[] && s.turn == Open(1)
  {
    assert ins[..0] == [];
    var s := Before(Init(row), ins, 0);
    assert s == Init(row);
    hide Step, DeliverTo, Before, Tail;
    Unroll(Init(row), ins, 0);
    BeforeStep(Init(row), ins, 0);
    StepIsDelivery(s, 1, SHELL, ins[0].env);
    var before, ids, tail := DeliverShape(s, 1, SHELL, ins[0].env);
    DeliverCards(s, 1, SHELL, ins[0].env);
  }

  lemma BackgroundOnOpenCall(row: Store.Row, ins: seq<Input>, tools: Tools, card: Card)
    requires |ins| == 3 && ins[0] == Got(SHELL) && ins[1] == Got(SHELL_TASK)
    requires tools == Tools(map["c" := "Bash"], map["c" := "Bash"], map["c" := Null], map[])
    requires card == Card(CardKind.Background, "c", "Bash", Null, map[], {}, Live)
    ensures var s := Before(Init(row), ins, 2);
      s.tools == tools && s.cards == map["t" := card] && s.turn == Open(1)
  {
    hide Step, DeliverTo, Before, Init, Tail;
    ShellOpen(row, ins, tools);
    Unroll(Init(row), ins, 1);
    BeforeStep(Init(row), ins, 1);
    var s := Before(Init(row), ins, 1);
    StepIsDelivery(s, 1, SHELL_TASK, ins[1].env);
    var before, ids, tail := DeliverShape(s, 1, SHELL_TASK, ins[1].env);
    DeliverCards(s, 1, SHELL_TASK, ins[1].env);
  }
}
