/**
 The picker over whole runs of the session: the pump and the REST calls write one shared
 record, and what it says at any point is what the interleaved history of both says.
 */
module PickerRuns {
  import opened Wire
  import opened Order
  import opened PumpSpec
  import opened PickerService
  import Picker
  import Cards
  import Store

  const NO_WRITE := Agreed(None, None)

  /** What the pump itself writes on one input. */
  function PumpWrite(a: Action): Write {
    if a.Deliver? && a.ev.ConfigChanged? then Agreed(a.ev.mode, a.ev.model)
    else if a.Deliver? && a.ev.CatalogUpdated? then Arrived(Picker.Catalog(a.ev.modes, a.ev.models))
    else NO_WRITE
  }

  /** `ws` tells, input by input, who wrote what: REST calls are reads or switches. */
  ghost predicate WrittenBy(s: State, ins: seq<Input>, ws: seq<Write>, preload: Preload) {
    && |ws| == |ins|
    && forall k | 0 <= k < |ins| ::
         if ins[k].action.Rest?
         then (ws[k].Read? || ws[k].Switch?)
              && ins[k].action.picker == Written(Before(s, ins, k).rt.picker, ws[k], preload)
         else ws[k] == PumpWrite(ins[k].action)
  }

  // ---- the pump writes the picker in two places only ----

  lemma SettleKeepsPicker(s: State, ev: Event, env: Env)
    ensures UpdateCards(s, ev, env.due).st.rt.picker == s.rt.picker
    ensures CloseTurn(s, ev, env).st.rt.picker == s.rt.picker && PayOwed(s, env).st.rt.picker == s.rt.picker
  {
    hide CancelFrames, Visit, Restrict, KeptOpen, Cards.Settle, Cards.Update;
  }

  lemma PhasesKeepPicker(s: State, ev: Event, hold: bool, env: Env)
    ensures TrackRoster(s, ev, env).st.rt.picker == s.rt.picker
    ensures Boundary(s, ev, hold, env).st.rt.picker == s.rt.picker
  {
    hide CloseTurn, PayOwed;
    SettleKeepsPicker(s, ev, env);
    if ev.SubagentUpdate? {
      SettleKeepsPicker(s.(turn := s.turn.(inflight := s.turn.inflight - {ev.agent})), ev, env);
    }
  }

  lemma ForwardKeepsPicker(s: State, translated: Option<Frame>, hold: bool, tip: Option<Tip>)
    ensures Forward(s, translated, hold, tip).st.rt.picker == s.rt.picker
  {
    hide Cards.Shield, StampName, LearnName;
  }

  lemma ProcessWrites(s: State, ev: Event, env: Env)
    ensures Process(s, ev, env).st.rt.picker == Confirm(s, ev).st.rt.picker
  {
    hide Confirm, UpdateCards, TrackRoster, Boundary, Forward, Translate, EmptyTip, Holds, Store.Persist;
    var c := Confirm(s, ev);
    var k := UpdateCards(c.st, ev, env.due);
    var r := TrackRoster(k.st, ev, env);
    var hold := Holds(r.st.turn, ev);
    var tip := EmptyTip(r.st.visible, ev, hold);
    var b := Boundary(r.st, ev, hold, env);
    var p := b.st.(row := Store.Persist(b.st.row, ev));
    SettleKeepsPicker(c.st, ev, env);
    PhasesKeepPicker(k.st, ev, hold, env);
    PhasesKeepPicker(r.st, ev, hold, env);
    ForwardKeepsPicker(p, Translate(ev, p.turn.settled), hold, tip);
  }

  lemma ReadyPicker(s: State, gen: nat, ev: Event)
    ensures Rearm(Advance(s, gen), ev).rt.picker == s.rt.picker && Advance(s, gen).rt.picker == s.rt.picker
  {
  }

  lemma StepWrites(s: State, i: Input, preload: Preload)
    requires !i.action.Rest?
    ensures Step(s, i).st.rt.picker == Written(s.rt.picker, PumpWrite(i.action), preload)
  {
    hide Process, Rearm, Advance, Cards.Settle, Cards.TickFrames, Visit, Picker.Push;
    if i.action.Deliver? {
      var ev := i.action.ev;
      ReadyPicker(s, i.action.gen, ev);
      ProcessWrites(Rearm(Advance(s, i.action.gen), ev), ev, i.env);
    }
  }

  // ---- the whole run ----

  lemma {:induction false} AfterSnoc(p: Picker.Picker, ws: seq<Write>, w: Write, preload: Preload)
    ensures After(p, ws + [w], preload) == Written(After(p, ws, preload), w, preload)
    decreases ws
  {
    hide Written;
    if ws == [] {
      assert [w][1..] == [];
    } else {
      assert (ws + [w])[1..] == ws[1..] + [w];
      AfterSnoc(Written(p, ws[0], preload), ws[1..], w, preload);
    }
  }

  /** The picker a run leaves is what its writes, REST and pump interleaved, make of the first. */
  lemma {:induction false} RunWrites(s: State, ins: seq<Input>, ws: seq<Write>, preload: Preload, k: nat)
    requires WrittenBy(s, ins, ws, preload) && k <= |ins|
    ensures Before(s, ins, k).rt.picker == After(s.rt.picker, ws[..k], preload)
  {
    hide Step, Before, After, Written, WrittenBy, PumpWrite;
    WritesAlign(s, ins, ws, preload);
    if k == 0 {
      NothingWritten(s, ins, ws, preload);
    } else {
      RunWrites(s, ins, ws, preload, k - 1);
      Unroll(s, ins, k - 1);
      AfterSnoc(s.rt.picker, ws[..k - 1], ws[k - 1], preload);
      assert ws[..k] == ws[..k - 1] + [ws[k - 1]];
      WriteAt(s, ins, ws, preload, k - 1);
      RestOrPump(Before(s, ins, k - 1), ins[k - 1], ws[k - 1], preload);
    }
  }

  lemma WritesAlign(s: State, ins: seq<Input>, ws: seq<Write>, preload: Preload)
    requires WrittenBy(s, ins, ws, preload)
    ensures |ws| == |ins|
  {
  }

  lemma NothingWritten(s: State, ins: seq<Input>, ws: seq<Write>, preload: Preload)
    ensures Before(s, ins, 0).rt.picker == After(s.rt.picker, ws[..0], preload)
  {
    assert ins[..0] == [] && ws[..0] == [];
  }

  lemma WriteAt(s: State, ins: seq<Input>, ws: seq<Write>, preload: Preload, k: nat)
    requires WrittenBy(s, ins, ws, preload) && k < |ins|
    ensures |ws| == |ins|
    ensures if ins[k].action.Rest?
            then (ws[k].Read? || ws[k].Switch?)
                 && ins[k].action.picker == Written(Before(s, ins, k).rt.picker, ws[k], preload)
            else ws[k] == PumpWrite(ins[k].action)
  {
    hide Before, Written, PumpWrite;
  }

  lemma RestOrPump(s: State, i: Input, w: Write, preload: Preload)
    requires if i.action.Rest? then i.action.picker == Written(s.rt.picker, w, preload) else w == PumpWrite(i.action)
    ensures Step(s, i).st.rt.picker == Written(s.rt.picker, w, preload)
  {
    hide Written, PumpWrite;
    if !i.action.Rest? {
      StepWrites(s, i, preload);
    }
  }

  /** The agent's last word on the mode: delivered as input `at`, with none after it. */
  predicate LastConfirmed(ins: seq<Input>, at: nat) {
    && at < |ins| && ConfirmsMode(ins[at].action)
    && forall j | at < j < |ins| :: !ConfirmsMode(ins[j].action)
  }

  predicate ConfirmsMode(a: Action) {
    a.Deliver? && a.ev.ConfigChanged? && a.ev.mode.Some?
  }

  /**
   On a backend whose mode switches wait for the next turn: after any run of the session from
   the start, with turns ending and users switching in any order, the picker claims the mode
   the agent itself last confirmed, and claims none before it has confirmed one.
   */
  lemma PickerClaimsOnlyConfirmedModes(row: Store.Row, ins: seq<Input>, ws: seq<Write>, preload: Preload)
    requires WrittenBy(Init(row), ins, ws, preload)
    requires forall w | w in ws && w.Switch? :: w.request.after.modeSwitch.NextTurn?
    ensures (forall j | 0 <= j < |ins| :: !ConfirmsMode(ins[j].action)) ==> Run(Init(row), ins).st.rt.picker.mode.None?
    ensures forall at: nat | LastConfirmed(ins, at) :: Run(Init(row), ins).st.rt.picker.mode == ins[at].action.ev.mode
  {
    hide Run, Before, After, Written, WrittenBy, Write.Word, Init;
    WritesAlign(Init(row), ins, ws, preload);
    StartsFresh(row);
    RunWrites(Init(row), ins, ws, preload, |ins|);
    assert ins[..|ins|] == ins && ws[..|ws|] == ws;
    WholeRun(Init(row), ins);
    OverrideIsLastWord(Picker.FRESH, ws, preload, ModeOption);
    forall j | 0 <= j < |ws|
      ensures ws[j].Word(ModeOption) == if ConfirmsMode(ins[j].action) then ins[j].action.ev.mode else None
    {
      assert ws[j] in ws;
      ModeWord(Init(row), ins, ws, preload, j);
    }
    forall at: nat | LastConfirmed(ins, at)
      ensures Run(Init(row), ins).st.rt.picker.mode == ins[at].action.ev.mode
    {
      assert LastWord(ws, ModeOption, at);
    }
  }

  lemma StartsFresh(row: Store.Row)
    ensures Init(row).rt.picker == Picker.FRESH
  {
  }

  lemma WholeRun(s: State, ins: seq<Input>)
    ensures Before(s, ins, |ins|) == Run(s, ins).st
  {
    hide Run;
    assert ins[..|ins|] == ins;
  }

  lemma ModeWord(s: State, ins: seq<Input>, ws: seq<Write>, preload: Preload, k: nat)
    requires WrittenBy(s, ins, ws, preload) && k < |ws| && k < |ins|
    requires ws[k].Switch? ==> ws[k].request.after.modeSwitch.NextTurn?
    ensures ws[k].Word(ModeOption) == if ConfirmsMode(ins[k].action) then ins[k].action.ev.mode else None
  {
    hide Before, Written, WrittenBy;
    WriteAt(s, ins, ws, preload, k);
  }
}
