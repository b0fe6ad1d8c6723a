/**
 The snapshots the pump pushes to config pickers, on the frames' own fields: what each one
 shows, when one is sent, and that the last one sent is never out of date.
 */
module PickerFrames {
  import opened Wire
  import opened Order
  import opened PumpSpec
  import opened TurnEnds
  import opened StepShape
  import opened PickerService
  import CardFaces
  import PickerRuns
  import Cards
  import Picker
  import Store

  // ---- what a snapshot shows ----

  /** The mode axis lists these modes in order, at this current; without modes it is absent. */
  predicate ShowsModes(options: seq<ConfigOption>, modes: seq<ModeInfo>, current: Option<string>) {
    var o := FindOption(options, ModeOption);
    if modes == [] then o == None
    else
      && o.Some? && o.value.current == current && |o.value.choices| == |modes|
      && forall i | 0 <= i < |modes| ::
           var c := o.value.choices[i];
           c.value == modes[i].id && c.name == modes[i].name && c.description == modes[i].description
  }

  predicate ShowsModels(options: seq<ConfigOption>, models: seq<ModelInfo>, current: Option<string>) {
    var o := FindOption(options, ModelOption);
    if models == [] then o == None
    else
      && o.Some? && o.value.current == current && |o.value.choices| == |models|
      && forall i | 0 <= i < |models| ::
           var c := o.value.choices[i];
           c.value == models[i].id && c.name == models[i].name && c.description == models[i].description
  }

  /** The effort axis lists these levels in order, at this current; without levels it is absent. */
  predicate ShowsEfforts(options: seq<ConfigOption>, levels: seq<string>, current: Option<string>) {
    var o := FindOption(options, EffortOption);
    if levels == [] then o == None
    else
      && o.Some? && o.value.current == current && |o.value.choices| == |levels|
      && forall i | 0 <= i < |levels| :: o.value.choices[i].value == levels[i] && o.value.choices[i].name == levels[i]
  }

  /** A snapshot of this picker: its catalog, each axis at the override or else the backend's own. */
  predicate Shows(options: seq<ConfigOption>, p: Picker.Picker) {
    && p.catalog.Some?
    && ShowsModes(options, p.catalog.value.modes, if p.mode.Some? then p.mode else p.fallback.mode)
    && ShowsModels(options, p.catalog.value.models, if p.model.Some? then p.model else p.fallback.model)
    && ShowsEfforts(options, Picker.Efforts(p.catalog.value.models, p.model),
                    if p.effort.Some? then p.effort else p.fallback.effort)
  }

  predicate Listed(p: Picker.Picker) {
    p.catalog.Some? && (p.catalog.value.modes != [] || p.catalog.value.models != [])
  }

  lemma SnapshotShows(modes: seq<ModeInfo>, models: seq<ModelInfo>, p: Picker.Picker)
    requires p.catalog == Some(Picker.Catalog(modes, models))
    ensures Shows(Picker.Snapshot(modes, models, p), p)
    ensures Picker.Snapshot(modes, models, p) != [] <==> Listed(p)
  {
    hide Picker.Efforts, FindOption;
    ShownInSnapshot(modes, models, p);
    NoModelsNoEfforts(p.model);
  }

  lemma NoModelsNoEfforts(current: Option<string>)
    ensures Picker.Efforts([], current) == []
  {
  }

  // ---- when one is sent ----

  /** A confirmation in the picker's own terms: what the agent names it overwrites. */
  function Agrees(p: Picker.Picker, mode: Option<string>, model: Option<string>): Picker.Picker {
    Picker.Picker(if mode.Some? then mode else p.mode, if model.Some? then model else p.model, p.effort,
                  p.catalog, p.fallback)
  }

  lemma ConfirmationAlone(q: State, ev: Event, env: Env)
    requires ev.ConfigChanged?
    ensures Process(q, ev, env).frames == Confirm(q, ev).frames
    ensures Process(q, ev, env).st.rt.picker == Confirm(q, ev).st.rt.picker
  {
    hide Confirm, Store.Persist;
    var c := Confirm(q, ev);
    assert UpdateCards(c.st, ev, env.due).frames == [];
    assert Process(q, ev, env).frames == c.frames + [] + [] + [] + [];
  }

  lemma ConfirmSends(q: State, ev: Event)
    requires ev.ConfigChanged?
    ensures var p := Agrees(q.rt.picker, ev.mode, ev.model); var o := Confirm(q, ev);
      && o.st.rt.picker == p
      && (if Listed(p) then |o.frames| == 1 && o.frames[0].OptionsFrame? && Shows(o.frames[0].options, p)
          else o.frames == [])
  {
    var p := Agrees(q.rt.picker, ev.mode, ev.model);
    if p.catalog.Some? {
      hide Shows, Picker.Snapshot;
      SnapshotShows(p.catalog.value.modes, p.catalog.value.models, p);
    }
  }

  /**
   A confirmation pushes itself. The picker takes on what the agent confirmed and nothing else;
   with a catalog to show, the client is sent one snapshot of that picker and no other frame.
   */
  lemma ConfirmationShowsItself(s: State, gen: nat, ev: Event, env: Env)
    requires ev.ConfigChanged?
    ensures var p := Agrees(s.rt.picker, ev.mode, ev.model); var o := DeliverTo(s, gen, ev, env);
      && o.st.rt.picker == p
      && (if Listed(p) then |o.frames| == 1 && o.frames[0].OptionsFrame? && Shows(o.frames[0].options, p)
          else o.frames == [])
  {
    var q := Ready(s, gen, ev);
    assert q.rt.picker == s.rt.picker && DeliverTo(s, gen, ev, env) == Process(q, ev, env) by {
      hide Process;
    }
    hide DeliverTo, Process, Confirm, Ready, Listed, Shows;
    ConfirmationAlone(q, ev, env);
    ConfirmSends(q, ev);
  }

  /** A catalog that arrives is adopted and pushed whole, then the commands it came with, if any. */
  lemma CatalogShowsItself(s: State, gen: nat, ev: Event, env: Env)
    requires ev.CatalogUpdated?
    ensures var p := s.rt.picker.(catalog := Some(Picker.Catalog(ev.modes, ev.models)));
      var o := DeliverTo(s, gen, ev, env); var first := if Listed(p) then 1 else 0;
      && o.st.rt.picker == p
      && |o.frames| == first + (if ev.commands == [] then 0 else 1)
      && (Listed(p) ==> o.frames[0].OptionsFrame? && Shows(o.frames[0].options, p))
      && (ev.commands != [] ==> o.frames[first] == CommandsFrame(ev.commands))
  {
    var q := Ready(s, gen, ev);
    assert q.rt.picker == s.rt.picker && DeliverTo(s, gen, ev, env) == NewCatalog(q, ev.models, ev.modes, ev.commands) by {
      hide NewCatalog;
    }
    hide DeliverTo, Ready, Shows, Picker.Snapshot;
    SnapshotShows(ev.modes, ev.models, s.rt.picker.(catalog := Some(Picker.Catalog(ev.modes, ev.models))));
  }

  /** No other envelope touches the picker or sends a picker frame. */
  lemma OthersLeavePicker(s: State, gen: nat, ev: Event, env: Env)
    requires !ev.ConfigChanged? && !ev.CatalogUpdated?
    ensures forall f | f in DeliverTo(s, gen, ev, env).frames :: !f.OptionsFrame? && !f.CommandsFrame?
  {
    hide Process;
    var q := Ready(s, gen, ev);
    if !Duplicate(Advance(s, gen).turn, ev) && !ev.ToolOutputDelta? {
      assert DeliverTo(s, gen, ev, env) == Process(q, ev, env);
      hide DeliverTo, Ready, UpdateCards;
      CardsSendNoOptions(q, ev, env.due);
      var rest := CardFaces.ProcessCardsFirst(q, ev, env);
    }
  }

  lemma CardsSendNoOptions(q: State, ev: Event, due: set<Ref>)
    ensures forall f | f in UpdateCards(q, ev, due).frames :: f.ProgressFrame?
  {
  }

  // ---- over whole runs ----

  predicate SendsSnapshot(fs: seq<Frame>) {
    exists f | f in fs :: f.OptionsFrame?
  }

  lemma StepSnapshots(s: State, i: Input)
    ensures forall f | f in Step(s, i).frames && f.OptionsFrame? :: Shows(f.options, Step(s, i).st.rt.picker)
    ensures !i.action.Rest? && !SendsSnapshot(Step(s, i).frames) ==>
              Step(s, i).st.rt.picker == s.rt.picker || !Listed(Step(s, i).st.rt.picker)
  {
    if i.action.Deliver? {
      DeliverSnapshots(s, i.action.gen, i.action.ev, i.env);
      assert Step(s, i) == DeliverTo(s, i.action.gen, i.action.ev, i.env) by {
        hide DeliverTo;
      }
    } else {
      hide DeliverTo, Shows;
      OthersSendNone(s, i);
    }
  }

  lemma OthersSendNone(s: State, i: Input)
    requires !i.action.Deliver?
    ensures forall f | f in Step(s, i).frames :: !f.OptionsFrame?
    ensures !i.action.Rest? ==> Step(s, i).st.rt.picker == s.rt.picker
  {
    match i.action
    case Tick => TickSendsNone(s.cards, Visit(i.env.refs, s.cards.Keys), i.env.due);
    case Hangup => SettleSendsNone(s.cards, Visit(i.env.refs, Cards.Doomed(s.cards, false)));
    case _ =>
  }

  lemma {:induction false} TickSendsNone(cards: Cards.Ledger, refs: seq<Ref>, due: set<Ref>)
    requires forall r | r in refs :: r in cards
    ensures forall f | f in Cards.TickFrames(cards, refs, due) :: !f.OptionsFrame?
  {
    if refs != [] {
      TickSendsNone(cards, refs[1..], due);
    }
  }

  lemma {:induction false} SettleSendsNone(cards: Cards.Ledger, refs: seq<Ref>)
    requires forall r | r in refs :: r in cards
    ensures forall f | f in Cards.SettleFrames(cards, refs) :: !f.OptionsFrame?
  {
    if refs != [] {
      SettleSendsNone(cards, refs[1..]);
    }
  }

  lemma PickerKept(s: State, gen: nat, ev: Event, env: Env)
    requires !ev.ConfigChanged? && !ev.CatalogUpdated?
    ensures DeliverTo(s, gen, ev, env).st.rt.picker == s.rt.picker
  {
    hide DeliverTo;
    PickerRuns.StepWrites(s, Input(Deliver(gen, ev), env), Preload([], [], None, None));
  }

  lemma DeliverSnapshots(s: State, gen: nat, ev: Event, env: Env)
    ensures var o := DeliverTo(s, gen, ev, env);
      && (forall f | f in o.frames && f.OptionsFrame? :: Shows(f.options, o.st.rt.picker))
      && (!SendsSnapshot(o.frames) ==> o.st.rt.picker == s.rt.picker || !Listed(o.st.rt.picker))
  {
    hide DeliverTo, Shows, Listed;
    var o := DeliverTo(s, gen, ev, env);
    if ev.ConfigChanged? {
      ConfirmationShowsItself(s, gen, ev, env);
      assert o.frames != [] ==> o.frames[0] in o.frames;
    } else if ev.CatalogUpdated? {
      CatalogShowsItself(s, gen, ev, env);
      assert o.frames != [] ==> o.frames[0] in o.frames;
    } else {
      OthersLeavePicker(s, gen, ev, env);
      PickerKept(s, gen, ev, env);
    }
  }

  /** On every run each snapshot the pump sends shows the picker as that input leaves it. */
  lemma SentSnapshotsAreCurrent(s: State, ins: seq<Input>, k: nat)
    requires k < |ins|
    ensures forall f | f in Sent(s, ins, k) && f.OptionsFrame? :: Shows(f.options, Before(s, ins, k + 1).rt.picker)
  {
    hide Step, Before, Shows;
    Unroll(s, ins, k);
    StepSnapshots(Before(s, ins, k), ins[k]);
  }

  /**
   The last snapshot is never out of date. If input `j` sent one, and since then the pump sent
   none and no request rewrote the picker, then as long as there is a catalog to show, what the
   client holds from `j` still shows the picker as it is.
   */
  lemma {:induction false} LastSnapshotIsCurrent(s: State, ins: seq<Input>, j: nat, k: nat, f: Frame)
    requires j < k <= |ins|
    requires f in Sent(s, ins, j) && f.OptionsFrame?
    requires forall n | j < n < k :: !ins[n].action.Rest? && !SendsSnapshot(Sent(s, ins, n))
    ensures Before(s, ins, k).rt.picker == Before(s, ins, j + 1).rt.picker || !Listed(Before(s, ins, k).rt.picker)
    ensures Listed(Before(s, ins, k).rt.picker) ==> Shows(f.options, Before(s, ins, k).rt.picker)
    decreases k
  {
    hide Step, Before, Shows, SendsSnapshot;
    SentSnapshotsAreCurrent(s, ins, j);
    if j < k - 1 {
      LastSnapshotIsCurrent(s, ins, j, k - 1, f);
      Unroll(s, ins, k - 1);
      StepSnapshots(Before(s, ins, k - 1), ins[k - 1]);
    }
  }
}
