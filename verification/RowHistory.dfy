/**
 The stored row as a function of history. Each field holds the last thing said about it, so
 a restart reopens exactly the session last bound and not since found dead, and shows the
 last usage figures that carried information.
 */
module RowHistory {
  import opened Wire
  import opened Text
  import opened Store
  import opened PumpSpec
  import opened Order
  import Cards

  function PersistAll(row: Row, evs: seq<Event>): Row
    decreases evs
  {
    if evs == [] then row else PersistAll(Persist(row, evs[0]), evs[1..])
  }

  // ---- one argument for every field ----

  /** `says` gives what an event writes into the field `get`. */
  ghost predicate Field<F(!new)>(get: Row -> F, says: Event -> Option<F>) {
    forall row, ev :: get(Persist(row, ev)) == says(ev).GetOr(get(row))
  }

  predicate Silent<F>(says: Event -> Option<F>, evs: seq<Event>, from: nat) {
    forall j | from <= j < |evs| :: says(evs[j]).None?
  }

  predicate LastSaid<F>(says: Event -> Option<F>, evs: seq<Event>, at: nat) {
    at < |evs| && says(evs[at]).Some? && Silent(says, evs, at + 1)
  }

  lemma {:induction false} FieldIsLastSaid<F(!new)>(row: Row, evs: seq<Event>, get: Row -> F, says: Event -> Option<F>)
    requires Field(get, says)
    ensures Silent(says, evs, 0) ==> get(PersistAll(row, evs)) == get(row)
    ensures forall at: nat | LastSaid(says, evs, at) :: Some(get(PersistAll(row, evs))) == says(evs[at])
    decreases evs
  {
    hide Persist;
    if evs != [] {
      var rest := evs[1..];
      FieldIsLastSaid(Persist(row, evs[0]), rest, get, says);
      assert forall j | 0 <= j < |rest| :: rest[j] == evs[j + 1];
      assert Silent(says, evs, 0) ==> Silent(says, rest, 0);
      forall at: nat | LastSaid(says, evs, at) ensures Some(get(PersistAll(row, evs))) == says(evs[at]) {
        if at > 0 {
          assert LastSaid(says, rest, at - 1);
        } else {
          assert Silent(says, rest, 0);
        }
      }
    }
  }

  lemma {:induction false} SomeoneSpokeLast<F>(says: Event -> Option<F>, evs: seq<Event>) returns (at: nat)
    requires !Silent(says, evs, 0)
    ensures LastSaid(says, evs, at)
  {
    at := |evs| - 1;
    while says(evs[at]).None?
      invariant at < |evs| && Silent(says, evs, at + 1)
      decreases at
    {
      at := at - 1;
    }
  }

  // ---- the resume anchor ----

  function AnchorSays(ev: Event): Option<Option<string>> {
    if DeadAnchor(ev) then Some(None)
    else if ev.BackendBound? && ev.sessionId.Some? then Some(ev.sessionId)
    else None
  }

  function Anchor(row: Row): Option<string> {
    row.anchor
  }

  lemma AnchorField()
    ensures Field(Anchor, AnchorSays)
  {
  }

  datatype ForkPoint = ForkPoint(parent: string, atTurn: Option<string>)
  datatype Opening = Resume(id: string) | Fork(point: ForkPoint) | Fresh

  /** How the next open of this conversation starts the backend. */
  function NextOpen(anchor: Option<string>, fork: Option<ForkPoint>): Opening {
    if anchor.Some? then Resume(anchor.value) else if fork.Some? then Fork(fork.value) else Fresh
  }

  /** The session `id` was bound, and nothing since has bound another or found it dead. */
  predicate StillBound(evs: seq<Event>, id: string) {
    exists at: nat :: at < |evs| && evs[at] == BackendBound(Some(id)) && Silent(AnchorSays, evs, at + 1)
  }

  /**
   A conversation that starts unbound resumes a session exactly when that session is still
   bound; if none is, it forks where its fork point says, or starts fresh without one.
   */
  lemma NextOpenFollowsHistory(row: Row, evs: seq<Event>, fork: Option<ForkPoint>)
    requires row.anchor.None?
    ensures var opening := NextOpen(PersistAll(row, evs).anchor, fork);
            && (forall id :: opening == Resume(id) <==> StillBound(evs, id))
            && ((forall id :: !StillBound(evs, id)) ==> opening == if fork.Some? then Fork(fork.value) else Fresh)
  {
    hide PersistAll, Field, DeadAnchor;
    AnchorField();
    FieldIsLastSaid(row, evs, Anchor, AnchorSays);
    var anchor := Anchor(PersistAll(row, evs));
    if Silent(AnchorSays, evs, 0) {
      assert forall at: nat | at < |evs| :: AnchorSays(evs[at]).None?;
      assert anchor == None;
      forall id ensures !StillBound(evs, id) {
        NobodyBound(evs, id);
      }
    } else {
      var last := SomeoneSpokeLast(AnchorSays, evs);
      assert Some(anchor) == AnchorSays(evs[last]);
      forall id ensures anchor == Some(id) <==> StillBound(evs, id) {
        BoundSpokeLast(evs, id, last);
      }
    }
  }

  lemma NobodyBound(evs: seq<Event>, id: string)
    requires Silent(AnchorSays, evs, 0)
    ensures !StillBound(evs, id)
  {
    assert forall at: nat | at < |evs| :: AnchorSays(evs[at]).None?;
  }

  lemma BoundSpokeLast(evs: seq<Event>, id: string, last: nat)
    requires LastSaid(AnchorSays, evs, last)
    ensures AnchorSays(evs[last]) == Some(Some(id)) <==> StillBound(evs, id)
  {
    if StillBound(evs, id) {
      var at: nat :| at < |evs| && evs[at] == BackendBound(Some(id)) && Silent(AnchorSays, evs, at + 1);
      assert AnchorSays(evs[at]).Some?;
      assert at == last;
    }
    if AnchorSays(evs[last]) == Some(Some(id)) {
      assert evs[last] == BackendBound(Some(id));
    }
  }

  // ---- the usage snapshot and the observed config ----

  function UsedSays(ev: Event): Option<Option<nat>> {
    if Informative(ev) then Some(Some(ev.usage.total)) else None
  }

  function SizeSays(ev: Event): Option<Option<nat>> {
    if Informative(ev) && ev.usage.window.Some? then Some(ev.usage.window) else None
  }

  function CostSays(ev: Event): Option<Option<Cost>> {
    if Informative(ev) && ev.usage.cost.Some? then Some(Some(Cost(ev.usage.cost.value))) else None
  }

  function MetaSays(ev: Event): Option<Option<Meta>> {
    if Informative(ev) && ev.usage.breakdown != Breakdown(0, 0, 0)
    then Some(Some(Meta(ev.usage.input, ev.usage.output, ev.usage.breakdown))) else None
  }

  function ModeSays(ev: Event): Option<Option<string>> {
    if ev.ConfigChanged? && ev.mode.Some? then Some(ev.mode) else None
  }

  function ModelSays(ev: Event): Option<Option<string>> {
    if ev.ConfigChanged? && ev.model.Some? then Some(ev.model) else None
  }

  function Used(row: Row): Option<nat> {
    row.usage.used
  }

  function Size(row: Row): Option<nat> {
    row.usage.size
  }

  function CostOf(row: Row): Option<Cost> {
    row.usage.cost
  }

  function MetaOf(row: Row): Option<Meta> {
    row.usage.meta
  }

  lemma UsageFields()
    ensures Field(Used, UsedSays) && Field(Size, SizeSays)
    ensures Field(CostOf, CostSays) && Field(MetaOf, MetaSays)
  {
    hide Persist, Informative;
    forall row, ev ensures Used(Persist(row, ev)) == UsedSays(ev).GetOr(Used(row)) {
      UsageWritten(row, ev);
    }
    forall row, ev ensures Size(Persist(row, ev)) == SizeSays(ev).GetOr(Size(row)) {
      UsageWritten(row, ev);
    }
    forall row, ev ensures CostOf(Persist(row, ev)) == CostSays(ev).GetOr(CostOf(row)) {
      UsageWritten(row, ev);
    }
    forall row, ev ensures MetaOf(Persist(row, ev)) == MetaSays(ev).GetOr(MetaOf(row)) {
      UsageWritten(row, ev);
    }
  }

  lemma UsageWritten(row: Row, ev: Event)
    ensures Persist(row, ev).usage == if Informative(ev) then MergeUsage(row.usage, ev.usage) else row.usage
  {
    hide DeadAnchor;
  }

  /** Each usage figure is the one of the last informative report that carried it. */
  lemma UsageIsLastReported(row: Row, evs: seq<Event>)
    ensures var usage := PersistAll(row, evs).usage;
            && (forall at: nat | LastSaid(UsedSays, evs, at) :: usage.used == Some(evs[at].usage.total))
            && (forall at: nat | LastSaid(SizeSays, evs, at) :: usage.size == evs[at].usage.window)
            && (forall at: nat | LastSaid(CostSays, evs, at) :: usage.cost == Some(Cost(evs[at].usage.cost.value)))
            && (forall at: nat | LastSaid(MetaSays, evs, at) ::
                  usage.meta == Some(Meta(evs[at].usage.input, evs[at].usage.output, evs[at].usage.breakdown)))
    ensures Silent(UsedSays, evs, 0) ==> PersistAll(row, evs).usage == row.usage
    ensures Silent(SizeSays, evs, 0) ==> PersistAll(row, evs).usage.size == row.usage.size
    ensures Silent(CostSays, evs, 0) ==> PersistAll(row, evs).usage.cost == row.usage.cost
    ensures Silent(MetaSays, evs, 0) ==> PersistAll(row, evs).usage.meta == row.usage.meta
  {
    hide PersistAll, Field, Informative;
    UsageFields();
    FieldIsLastSaid(row, evs, Used, UsedSays);
    FieldIsLastSaid(row, evs, Size, SizeSays);
    FieldIsLastSaid(row, evs, CostOf, CostSays);
    FieldIsLastSaid(row, evs, MetaOf, MetaSays);
    if Silent(UsedSays, evs, 0) {
      assert forall j | 0 <= j < |evs| :: UsedSays(evs[j]).None?;
      assert Silent(SizeSays, evs, 0) && Silent(CostSays, evs, 0) && Silent(MetaSays, evs, 0);
    }
  }

  /** The mode and model a respawn is seeded with are the last the agent confirmed. */
  lemma ConfigIsLastConfirmed(row: Row, evs: seq<Event>)
    ensures var all := PersistAll(row, evs);
            && (forall at: nat | LastSaid(ModeSays, evs, at) :: all.mode == evs[at].mode)
            && (forall at: nat | LastSaid(ModelSays, evs, at) :: all.model == evs[at].model)
    ensures Silent(ModeSays, evs, 0) ==> PersistAll(row, evs).mode == row.mode
    ensures Silent(ModelSays, evs, 0) ==> PersistAll(row, evs).model == row.model
  {
    hide PersistAll, Field;
    ConfigFields();
    FieldIsLastSaid(row, evs, Mode, ModeSays);
    FieldIsLastSaid(row, evs, Model, ModelSays);
  }

  function Mode(row: Row): Option<string> {
    row.mode
  }

  function Model(row: Row): Option<string> {
    row.model
  }

  lemma ConfigFields()
    ensures Field(Mode, ModeSays) && Field(Model, ModelSays)
  {
    hide DeadAnchor;
  }

  // ---- which events of a run reach the row ----

  /** The event input `i` hands to persistence: not a duplicate, a live delta or a catalog. */
  function Reaches(s: State, a: Action): seq<Event> {
    if !a.Deliver? then []
    else if Duplicate(Advance(s, a.gen).turn, a.ev) then []
    else if a.ev.ToolOutputDelta? || a.ev.CatalogUpdated? then []
    else [a.ev]
  }

  ghost function Persisted(s: State, ins: seq<Input>): seq<Event> {
    if ins == [] then []
    else
      var k := |ins| - 1;
      Persisted(s, ins[..k]) + Reaches(Run(s, ins[..k]).st, ins[k].action)
  }

  lemma {:induction false} PersistSnoc(row: Row, evs: seq<Event>, more: seq<Event>)
    ensures PersistAll(row, evs + more) == PersistAll(PersistAll(row, evs), more)
    decreases evs
  {
    hide Persist;
    if evs == [] {
      assert evs + more == more;
    } else {
      assert (evs + more)[1..] == evs[1..] + more;
      PersistSnoc(Persist(row, evs[0]), evs[1..], more);
    }
  }

  lemma SettleKeepsRow(s: State, ev: Event, hold: bool, env: Env)
    ensures Confirm(s, ev).st.row == s.row && UpdateCards(s, ev, env.due).st.row == s.row
    ensures CloseTurn(s, ev, env).st.row == s.row && PayOwed(s, env).st.row == s.row
  {
    hide CancelFrames, Visit, Restrict, KeptOpen, Cards.Settle, Cards.Update;
  }

  lemma PhasesKeepRow(s: State, ev: Event, hold: bool, env: Env)
    ensures TrackRoster(s, ev, env).st.row == s.row && Boundary(s, ev, hold, env).st.row == s.row
  {
    hide CloseTurn, PayOwed;
    SettleKeepsRow(s, ev, hold, env);
    if ev.SubagentUpdate? {
      SettleKeepsRow(s.(turn := s.turn.(inflight := s.turn.inflight - {ev.agent})), ev, hold, env);
    }
  }

  lemma ForwardKeepsRow(s: State, translated: Option<Frame>, hold: bool, tip: Option<Tip>)
    ensures Forward(s, translated, hold, tip).st.row == s.row
  {
    hide Cards.Shield, StampName, LearnName;
  }

  lemma ProcessPersists(s: State, ev: Event, env: Env)
    ensures Process(s, ev, env).st.row == Persist(s.row, ev)
  {
    hide Confirm, UpdateCards, TrackRoster, Boundary, Forward, Translate, EmptyTip, Holds, Persist;
    var c := Confirm(s, ev);
    var k := UpdateCards(c.st, ev, env.due);
    var r := TrackRoster(k.st, ev, env);
    var hold := Holds(r.st.turn, ev);
    var tip := EmptyTip(r.st.visible, ev, hold);
    var b := Boundary(r.st, ev, hold, env);
    var p := b.st.(row := Persist(b.st.row, ev));
    SettleKeepsRow(s, ev, hold, env);
    SettleKeepsRow(c.st, ev, hold, env);
    PhasesKeepRow(k.st, ev, hold, env);
    PhasesKeepRow(r.st, ev, hold, env);
    ForwardKeepsRow(p, Translate(ev, p.turn.settled), hold, tip);
  }

  lemma StepPersists(s: State, i: Input)
    ensures Step(s, i).st.row == PersistAll(s.row, Reaches(s, i.action))
  {
    hide Process, Persist, Cards.Settle, Cards.TickFrames, Visit;
    if i.action.Deliver? {
      var ev := i.action.ev;
      ProcessPersists(Rearm(Advance(s, i.action.gen), ev), ev, i.env);
      assert [ev][1..] == [];
    }
  }

  /** The pump writes the row by that fold, over the events that reached it and no others. */
  lemma {:induction false} RunPersists(s: State, ins: seq<Input>)
    ensures Run(s, ins).st.row == PersistAll(s.row, Persisted(s, ins))
  {
    hide Step, Persist, Reaches;
    if ins != [] {
      var k := |ins| - 1;
      RunPersists(s, ins[..k]);
      StepPersists(Run(s, ins[..k]).st, ins[k]);
      PersistSnoc(s.row, Persisted(s, ins[..k]), Reaches(Run(s, ins[..k]).st, ins[k].action));
    }
  }

  // ---- which events write, in their own terms ----

  /** `word` stands somewhere in `text`. */
  ghost predicate Says(text: string, word: string) {
    exists before: string, after: string :: before + word + after == text
  }

  /**
   A result takes the resume anchor away if and only if it is an error, not a cancel, and its
   text carries one of the four wordings of a session that cannot be resumed.
   */
  lemma DeadResumeTakesAnchor(row: Row, isError: bool, text: string, outcome: TurnOutcome)
    ensures Persist(row, TurnResult(isError, text, outcome)) ==
            if isError && !outcome.Cancelled?
               && (Says(text, "No conversation found") || Says(text, "error_during_execution")
                   || Says(text, "no rollout found for thread id") || Says(text, "thread not found:"))
            then row.(anchor := None) else row
  {
    hide Contains, Says;
    SaysIsContains(text, "No conversation found");
    SaysIsContains(text, "error_during_execution");
    SaysIsContains(text, "no rollout found for thread id");
    SaysIsContains(text, "thread not found:");
  }

  lemma SaysIsContains(text: string, word: string)
    ensures Says(text, word) <==> Contains(text, word)
  {
    if Says(text, word) {
      var before: string, after: string :| before + word + after == text;
      assert text[|before|..|before| + |word|] == word;
      assert At(text, word, |before|);
    }
    if i :| 0 <= i <= |text| && At(text, word, i) {
      assert text[..i] + word + text[i + |word|..] == text;
    }
  }

  /** A usage report writes exactly when it counts any token; then each figure it carries, and no other. */
  lemma ReportWritesWhatItCarries(row: Row, u: Usage)
    ensures Persist(row, UsageDelta(u)) ==
            if u.total == 0 then row
            else row.(usage := StoredUsage(Some(u.total), u.window.OrElse(row.usage.size),
                                           if u.cost.Some? then Some(Cost(u.cost.value)) else row.usage.cost,
                                           if u.breakdown == Breakdown(0, 0, 0) then row.usage.meta
                                           else Some(Meta(u.input, u.output, u.breakdown))))
  {
  }
}
