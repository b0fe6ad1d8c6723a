/**
 The REST side of the config picker: reading the options, and switching one of them.

 The backend's capabilities are read several times in one call and may move in between,
 so each read is an input of its own. The pump writes the same picker (see `Picker`), from
 a handle that sees no backend; the results here say when the two sides show the client
 the same thing, and what an answer of "observed" is worth afterwards.
 */
module PickerService {
  import opened Wire
  import opened Order
  import opened Picker

  // ---- what the backend reports ----

  datatype SwitchEffect = Immediate | NextTurn
  datatype Caps = Caps(modes: seq<ModeInfo>, models: seq<ModelInfo>, mode: Option<string>, model: Option<string>,
                       effort: Option<string>, modeSwitch: SwitchEffect)

  /** The catalog persisted by an earlier session, served until the live one has landed. */
  datatype Preload = Preload(modes: seq<ModeInfo>, models: seq<ModelInfo>, mode: Option<string>, model: Option<string>)

  /** One call's three reads: for the catalog, for the mirrored effort, for the shown effort. */
  datatype Reads = Reads(catalog: Caps, mirror: Caps, shown: Caps) {
    predicate Stable() {
      catalog == mirror == shown
    }
  }

  function Live<T>(live: seq<T>, preload: seq<T>): seq<T> {
    if live == [] then preload else live
  }

  /** List and current fall back separately: a live current may precede its live list. */
  function Effective(caps: Caps, preload: Preload): Preload {
    Preload(Live(caps.modes, preload.modes), Live(caps.models, preload.models),
            caps.mode.OrElse(preload.mode), caps.model.OrElse(preload.model))
  }

  // ---- reading ----

  /** What a read leaves behind for the pump: the backend's currents, and a catalog if there is one. */
  function Mirrored(p: Picker, seen: Reads, preload: Preload): Picker {
    var e := Effective(seen.catalog, preload);
    var q := p.(fallback := Fallback(e.mode, e.model, seen.mirror.effort));
    if e.modes != [] || e.models != [] then q.(catalog := Some(Catalog(e.modes, e.models))) else q
  }

  /** The options a read answers with. */
  function Options(p: Picker, seen: Reads, preload: Preload): seq<ConfigOption> {
    var e := Effective(seen.catalog, preload);
    var efforts := Efforts(e.models, p.model.OrElse(e.model));
    (if e.modes != [] then [ConfigOption(ModeOption, p.mode.OrElse(e.mode), ModeChoices(e.modes))] else []) +
    (if e.models != [] then [ConfigOption(ModelOption, p.model.OrElse(e.model), ModelChoices(e.models))] else []) +
    (if efforts != [] then [ConfigOption(EffortOption, p.effort.OrElse(seen.shown.effort), EffortChoices(efforts))]
     else [])
  }

  function FindOption(options: seq<ConfigOption>, id: OptionId): Option<ConfigOption> {
    if options == [] then None else if options[0].id == id then Some(options[0]) else FindOption(options[1..], id)
  }

  /** The value an option list shows on one axis, if it shows the axis at all. */
  function Shown(options: seq<ConfigOption>, id: OptionId): Option<string> {
    var o := FindOption(options, id);
    if o.Some? then o.value.current else None
  }

  // ---- switching ----

  const EFFORT_KEY := "effort"

  /** The axis a request names; effort goes by three names, anything else has no axis. */
  function Axis(optionId: string): Option<OptionId> {
    if optionId == "mode" then Some(ModeOption)
    else if optionId == "model" then Some(ModelOption)
    else if optionId in {"effort", "reasoning_effort", "thought_level"} then Some(EffortOption)
    else None
  }

  /** Everything the outside contributes to one request, in the order it is consulted. */
  datatype Request = Request(optionId: string, value: string, before: Caps, dispatched: bool, after: Caps, seen: Reads) {
    /** Only a live, non-empty catalog can rule a value out. */
    predicate Unlisted() {
      || (Axis(optionId) == Some(ModeOption) && before.modes != [] && forall m | m in before.modes :: m.id != value)
      || (Axis(optionId) == Some(ModelOption) && before.models != [] && forall m | m in before.models :: m.id != value)
    }

    predicate Taken() {
      !Unlisted() && dispatched
    }

    predicate Deferred() {
      Axis(optionId) == Some(ModeOption) && after.modeSwitch.NextTurn?
    }
  }

  datatype Confirmation = Observed | CommandAck | PendingNextTurn
  datatype Reply =
    | Rejected
    | DispatchFailed
    | Answer(confirmation: Confirmation, options: Option<seq<ConfigOption>>)

  /** The overrides after a request: a deferred mode is left for the agent to confirm. */
  function Overridden(p: Picker, r: Request): Picker {
    if !r.Taken() || r.Deferred() then p
    else match Axis(r.optionId)
      case Some(ModeOption) => p.(mode := Some(r.value))
      case Some(ModelOption) => p.(model := Some(r.value))
      case Some(EffortOption) => p.(effort := Some(r.value))
      case None => p
  }

  function Switched(p: Picker, r: Request, preload: Preload): Picker {
    if r.Taken() && Axis(r.optionId).Some? then Mirrored(Overridden(p, r), r.seen, preload) else p
  }

  function Replied(p: Picker, r: Request, preload: Preload): Reply {
    if r.Unlisted() then Rejected
    else if !r.dispatched then DispatchFailed
    else if Axis(r.optionId).None? then Answer(CommandAck, None)
    else
      var options := Options(Overridden(p, r), r.seen, preload);
      var shown := Shown(options, Axis(r.optionId).value);
      Answer(if r.Deferred() then PendingNextTurn else if shown == Some(r.value) then Observed else CommandAck,
             Some(options))
  }

  /** The stored selections after a request: only a taken effort is kept there. */
  function Kept(selections: map<string, string>, r: Request): map<string, string> {
    if r.Taken() && Axis(r.optionId) == Some(EffortOption) then selections[EFFORT_KEY := r.value] else selections
  }

  // ---- the code in its own form ----

  /** Pins the current model if the catalog lists it, else gathers every effort once. */
  method ResolveCurrentModelEfforts(models: seq<ModelInfo>, current: Option<string>) returns (efforts: seq<string>)
    ensures efforts == Efforts(models, current)
  {
    if current.Some? {
      var i := 0;
      while i < |models|
        invariant i <= |models|
        invariant Find(models, current.value) == Find(models[i..], current.value)
      {
        if models[i].id == current.value {
          return models[i].efforts;
        }
        i := i + 1;
      }
    }
    efforts := [];
    var i := 0;
    while i < |models|
      invariant i <= |models|
      invariant Union(efforts, models[i..]) == Union([], models)
    {
      ghost var known := efforts;
      var j := 0;
      while j < |models[i].efforts|
        invariant j <= |models[i].efforts|
        invariant AddNew(efforts, models[i].efforts[j..]) == AddNew(known, models[i].efforts)
      {
        if models[i].efforts[j] !in efforts {
          efforts := efforts + [models[i].efforts[j]];
        }
        j := j + 1;
      }
      assert models[i..][1..] == models[i + 1..];
      i := i + 1;
    }
  }

  class PickerEndpoint {
    const preload: Preload
    var picker: Picker
    var selections: map<string, string>  // stored with the conversation, applied again on the next open

    constructor (preload: Preload, selections: map<string, string>)
      ensures this.preload == preload && picker == FRESH && this.selections == selections
    {
      this.preload := preload;
      this.picker := FRESH;
      this.selections := selections;
    }

    method GetConfigOptions(seen: Reads) returns (options: seq<ConfigOption>)
      modifies this`picker
      ensures picker == Mirrored(old(picker), seen, preload)
      ensures options == Options(old(picker), seen, preload)
    {
      var e := Effective(seen.catalog, preload);
      var effectiveModel := picker.model.OrElse(e.model);
      picker := picker.(fallback := Fallback(e.mode, e.model, seen.mirror.effort));
      if e.modes != [] || e.models != [] {
        picker := picker.(catalog := Some(Catalog(e.modes, e.models)));
      }
      options := [];
      if e.modes != [] {
        options := options + [ConfigOption(ModeOption, picker.mode.OrElse(e.mode), ModeChoices(e.modes))];
      }
      if e.models != [] {
        options := options + [ConfigOption(ModelOption, picker.model.OrElse(e.model), ModelChoices(e.models))];
      }
      var efforts := ResolveCurrentModelEfforts(e.models, effectiveModel);
      if efforts != [] {
        options := options +
          [ConfigOption(EffortOption, picker.effort.OrElse(seen.shown.effort), EffortChoices(efforts))];
      }
    }

    method PersistEffort(value: string)
      modifies this`selections
      ensures selections == old(selections)[EFFORT_KEY := value]
    {
      selections := selections[EFFORT_KEY := value];
    }

    method SetConfigOption(r: Request) returns (reply: Reply)
      modifies this
      ensures reply == Replied(old(picker), r, preload)
      ensures reply.Rejected? <==>
                || (r.optionId == "mode" && r.before.modes != [] && forall m | m in r.before.modes :: m.id != r.value)
                || (r.optionId == "model" && r.before.models != [] && forall m | m in r.before.models :: m.id != r.value)
      ensures picker == Switched(old(picker), r, preload)
      ensures selections == Kept(old(selections), r)
    {
      if r.Unlisted() {
        return Rejected;
      }
      if !r.dispatched {
        return DispatchFailed;
      }
      var deferred := r.optionId == "mode" && r.after.modeSwitch.NextTurn?;
      var axis := Axis(r.optionId);
      match axis {
        case None =>
          return Answer(CommandAck, None);
        case Some(ModeOption) =>
          if !deferred {
            picker := picker.(mode := Some(r.value));
          }
        case Some(ModelOption) =>
          picker := picker.(model := Some(r.value));
        case Some(EffortOption) =>
          picker := picker.(effort := Some(r.value));
          PersistEffort(r.value);
      }
      var options := GetConfigOptions(r.seen);
      var observed := Shown(options, axis.value) == Some(r.value);
      reply := Answer(if deferred then PendingNextTurn else if observed then Observed else CommandAck, Some(options));
    }
  }

  // ---- the effort lists ----

  predicate Advertised(models: seq<ModelInfo>, e: string) {
    exists m | m in models :: e in m.efforts
  }

  lemma {:induction false} AddNewExact(known: seq<string>, more: seq<string>)
    requires Distinct(known)
    ensures Distinct(AddNew(known, more))
    ensures forall e :: e in AddNew(known, more) <==> e in known || e in more
    decreases more
  {
    if more != [] {
      AddNewExact(if more[0] in known then known else known + [more[0]], more[1..]);
      assert forall e :: e in more <==> e == more[0] || e in more[1..];
    }
  }

  /** The union fallback: no level twice, and exactly the levels some model offers. */
  lemma {:induction false} UnionExact(known: seq<string>, models: seq<ModelInfo>)
    requires Distinct(known)
    ensures Distinct(Union(known, models))
    ensures forall e :: e in Union(known, models) <==> e in known || Advertised(models, e)
    decreases models
  {
    if models != [] {
      var first := models[0];
      AddNewExact(known, first.efforts);
      UnionExact(AddNew(known, first.efforts), models[1..]);
      forall e ensures Advertised(models, e) <==> e in first.efforts || Advertised(models[1..], e) {
        assert forall m :: m in models <==> m == first || m in models[1..];
      }
    }
  }

  lemma {:induction false} FoundIsListed(models: seq<ModelInfo>, id: string)
    ensures Find(models, id).Some? <==> exists m :: m in models && m.id == id
    ensures Find(models, id).Some? ==> Find(models, id).value in models && Find(models, id).value.id == id
  {
    if models != [] && models[0].id != id {
      FoundIsListed(models[1..], id);
      assert forall m :: m in models <==> m == models[0] || m in models[1..];
    }
  }

  /** Whichever model is current, its levels are among those of the catalog. */
  lemma EffortsAdvertised(models: seq<ModelInfo>, current: Option<string>)
    ensures forall e :: e in Efforts(models, current) ==> Advertised(models, e)
    ensures forall e :: e in Efforts(models, None) <==> Advertised(models, e)
  {
    UnionExact([], models);
    if current.Some? {
      FoundIsListed(models, current.value);
    }
  }

  /** The level list of a model the catalog names is that model's own, of the first by that id. */
  lemma {:induction false} PinnedEfforts(models: seq<ModelInfo>, i: nat)
    requires i < |models| && forall j | 0 <= j < i :: models[j].id != models[i].id
    ensures Efforts(models, Some(models[i].id)) == models[i].efforts
  {
    FindFirst(models, i);
  }

  lemma {:induction false} FindFirst(models: seq<ModelInfo>, i: nat)
    requires i < |models| && forall j | 0 <= j < i :: models[j].id != models[i].id
    ensures Find(models, models[i].id) == Some(models[i])
  {
    if i > 0 {
      FindFirst(models[1..], i - 1);
    }
  }

  /** Each axis on its own: a live list before the preloaded one, and override, live current, preloaded current. */
  lemma ReadPrefersLive(p: Picker, seen: Reads, preload: Preload)
    ensures var modes := if |seen.catalog.modes| > 0 then seen.catalog.modes else preload.modes;
            var models := if |seen.catalog.models| > 0 then seen.catalog.models else preload.models;
            var mode := if p.mode.Some? then p.mode else if seen.catalog.mode.Some? then seen.catalog.mode else preload.mode;
            var model := if p.model.Some? then p.model else if seen.catalog.model.Some? then seen.catalog.model else preload.model;
            var options := Options(p, seen, preload);
            && FindOption(options, ModeOption) ==
               (if modes == [] then None else Some(ConfigOption(ModeOption, mode, ModeChoices(modes))))
            && FindOption(options, ModelOption) ==
               (if models == [] then None else Some(ConfigOption(ModelOption, model, ModelChoices(models))))
            && (FindOption(options, EffortOption).Some? ==>
                  && Shown(options, EffortOption) == (if p.effort.Some? then p.effort else seen.shown.effort)
                  && Choices(options, EffortOption) == EffortChoices(Efforts(models, model)))
  {
    ShownInOptions(p, seen, preload);
    hide Options, FindOption, Efforts, ModeChoices, ModelChoices, EffortChoices;
  }

  // ---- the two projections ----

  function Choices(options: seq<ConfigOption>, id: OptionId): seq<Choice> {
    var o := FindOption(options, id);
    if o.Some? then o.value.choices else []
  }

  lemma {:induction false} FindConcat(a: seq<ConfigOption>, b: seq<ConfigOption>, id: OptionId)
    ensures FindOption(a + b, id) == FindOption(a, id).OrElse(FindOption(b, id))
  {
    if a == [] {
      assert a + b == b;
    } else {
      assert (a + b)[1..] == a[1..] + b;
      FindConcat(a[1..], b, id);
    }
  }

  lemma FindAlone(part: seq<ConfigOption>, own: OptionId, id: OptionId)
    requires part == [] || (|part| == 1 && part[0].id == own)
    ensures FindOption(part, id) == if part != [] && id == own then Some(part[0]) else None
  {
    if part != [] {
      assert part[1..] == [];
    }
  }

  /** Each axis is found in its own part of a list put together axis by axis. */
  lemma FindThree(options: seq<ConfigOption>, a: seq<ConfigOption>, b: seq<ConfigOption>, c: seq<ConfigOption>)
    requires options == a + b + c
    requires a == [] || (|a| == 1 && a[0].id == ModeOption)
    requires b == [] || (|b| == 1 && b[0].id == ModelOption)
    requires c == [] || (|c| == 1 && c[0].id == EffortOption)
    ensures FindOption(options, ModeOption) == if a == [] then None else Some(a[0])
    ensures FindOption(options, ModelOption) == if b == [] then None else Some(b[0])
    ensures FindOption(options, EffortOption) == if c == [] then None else Some(c[0])
  {
    FindPart(options, a, b, c, ModeOption);
    FindPart(options, a, b, c, ModelOption);
    FindPart(options, a, b, c, EffortOption);
  }

  lemma FindPart(options: seq<ConfigOption>, a: seq<ConfigOption>, b: seq<ConfigOption>, c: seq<ConfigOption>,
                 id: OptionId)
    requires options == a + b + c
    requires a == [] || (|a| == 1 && a[0].id == ModeOption)
    requires b == [] || (|b| == 1 && b[0].id == ModelOption)
    requires c == [] || (|c| == 1 && c[0].id == EffortOption)
    ensures var part := if id == ModeOption then a else if id == ModelOption then b else c;
            FindOption(options, id) == if part == [] then None else Some(part[0])
  {
    FindConcat(a + b, c, id);
    FindConcat(a, b, id);
    FindAlone(a, ModeOption, id);
    FindAlone(b, ModelOption, id);
    FindAlone(c, EffortOption, id);
  }

  lemma ShownInOptions(p: Picker, seen: Reads, preload: Preload)
    ensures var e := Effective(seen.catalog, preload);
            var efforts := Efforts(e.models, p.model.OrElse(e.model));
            var options := Options(p, seen, preload);
            && FindOption(options, ModeOption) ==
               (if e.modes == [] then None
                else Some(ConfigOption(ModeOption, p.mode.OrElse(e.mode), ModeChoices(e.modes))))
            && FindOption(options, ModelOption) ==
               (if e.models == [] then None
                else Some(ConfigOption(ModelOption, p.model.OrElse(e.model), ModelChoices(e.models))))
            && FindOption(options, EffortOption) ==
               (if efforts == [] then None
                else Some(ConfigOption(EffortOption, p.effort.OrElse(seen.shown.effort), EffortChoices(efforts))))
  {
    hide Efforts, ModeChoices, ModelChoices, EffortChoices;
    var e := Effective(seen.catalog, preload);
    var efforts := Efforts(e.models, p.model.OrElse(e.model));
    FindThree(Options(p, seen, preload),
              if e.modes != [] then [ConfigOption(ModeOption, p.mode.OrElse(e.mode), ModeChoices(e.modes))] else [],
              if e.models != [] then [ConfigOption(ModelOption, p.model.OrElse(e.model), ModelChoices(e.models))] else [],
              if efforts != [] then
                [ConfigOption(EffortOption, p.effort.OrElse(seen.shown.effort), EffortChoices(efforts))] else []);
  }

  lemma ShownInSnapshot(modes: seq<ModeInfo>, models: seq<ModelInfo>, p: Picker)
    ensures var efforts := Efforts(models, p.model);
            var options := Snapshot(modes, models, p);
            && FindOption(options, ModeOption) ==
               (if modes == [] then None
                else Some(ConfigOption(ModeOption, p.mode.OrElse(p.fallback.mode), ModeChoices(modes))))
            && FindOption(options, ModelOption) ==
               (if models == [] then None
                else Some(ConfigOption(ModelOption, p.model.OrElse(p.fallback.model), ModelChoices(models))))
            && FindOption(options, EffortOption) ==
               (if efforts == [] then None
                else Some(ConfigOption(EffortOption, p.effort.OrElse(p.fallback.effort), EffortChoices(efforts))))
  {
    hide Efforts, ModeChoices, ModelChoices, EffortChoices;
    var efforts := Efforts(models, p.model);
    FindThree(Snapshot(modes, models, p),
              if modes != [] then [ConfigOption(ModeOption, p.mode.OrElse(p.fallback.mode), ModeChoices(modes))] else [],
              if models != [] then
                [ConfigOption(ModelOption, p.model.OrElse(p.fallback.model), ModelChoices(models))] else [],
              if efforts != [] then
                [ConfigOption(EffortOption, p.effort.OrElse(p.fallback.effort), EffortChoices(efforts))] else []);
  }

  /**
   The two projections agree. After a read that saw a catalog, what the pump would push
   carries the same mode and model options, the same current value on every shared axis,
   and at least the read's effort levels: exactly those once a model has been picked.
   */
  lemma ProjectionsAgree(p: Picker, seen: Reads, preload: Preload)
    requires seen.Stable()
    requires Effective(seen.catalog, preload).modes != [] || Effective(seen.catalog, preload).models != []
    ensures var after := Mirrored(p, seen, preload);
            && after.catalog.Some?
            && var read := Options(p, seen, preload);
            var pushed := Snapshot(after.catalog.value.modes, after.catalog.value.models, after);
            && FindOption(pushed, ModeOption) == FindOption(read, ModeOption)
            && FindOption(pushed, ModelOption) == FindOption(read, ModelOption)
            && (FindOption(read, EffortOption).Some? ==>
                  && FindOption(pushed, EffortOption).Some?
                  && Shown(pushed, EffortOption) == Shown(read, EffortOption)
                  && forall c | c in Choices(read, EffortOption) :: c in Choices(pushed, EffortOption))
            && (p.model.Some? ==> pushed == read)
  {
    var e := Effective(seen.catalog, preload);
    var after := Mirrored(p, seen, preload);
    ShownInOptions(p, seen, preload);
    ShownInSnapshot(e.modes, e.models, after);
    var narrow := Efforts(e.models, p.model.OrElse(e.model));
    var wide := Efforts(e.models, p.model);
    EffortsAdvertised(e.models, p.model.OrElse(e.model));
    EffortsAdvertised(e.models, p.model);
    assert forall x :: x in narrow ==> x in wide;
    assert narrow != [] ==> narrow[0] in wide;
    forall c | c in EffortChoices(narrow) ensures c in EffortChoices(wide) {
      var i :| 0 <= i < |narrow| && c == EffortChoices(narrow)[i];
      assert narrow[i] in narrow && narrow[i] in wide;
      var j :| 0 <= j < |wide| && wide[j] == narrow[i];
      assert EffortChoices(wide)[j] == c;
    }
  }

  // ---- what an answer is worth ----

  predicate Offers(p: Picker, seen: Reads, preload: Preload, id: OptionId) {
    FindOption(Options(p, seen, preload), id).Some?
  }

  /**
   The answer to a request, exactly. A rejected or failed one changes nothing. A taken one is
   pending when a mode lands next turn, and then nothing a client can read has moved;
   otherwise it is observed precisely when its axis is on offer at all.
   */
  lemma AnswerIsHonest(p: Picker, r: Request, preload: Preload)
    ensures !r.Taken() ==> Switched(p, r, preload) == p
    ensures Replied(p, r, preload).Rejected? <==> r.Unlisted()
    ensures var q := Switched(p, r, preload);
            var reply := Replied(p, r, preload);
            && (reply.Answer? && reply.confirmation.PendingNextTurn? <==> r.Taken() && r.Deferred())
            && (reply.Answer? && reply.confirmation.Observed? <==>
                  r.Taken() && !r.Deferred() && Axis(r.optionId).Some? && Offers(q, r.seen, preload, Axis(r.optionId).value))
            && (reply.Answer? && reply.options.Some? ==> reply.options.value == Options(q, r.seen, preload))
    ensures r.Deferred() ==>
              var q := Switched(p, r, preload);
              q.mode == p.mode && q.model == p.model && q.effort == p.effort &&
              forall seen :: Options(q, seen, preload) == Options(p, seen, preload)
  {
    hide Efforts, ModeChoices, ModelChoices, EffortChoices, FindOption, Options;
    var o := Overridden(p, r);
    ShownInOptions(o, r.seen, preload);
    OptionsReadOverrides(o, Mirrored(o, r.seen, preload), r.seen, preload);
    forall seen ensures Options(Mirrored(p, r.seen, preload), seen, preload) == Options(p, seen, preload) {
      OptionsReadOverrides(p, Mirrored(p, r.seen, preload), seen, preload);
    }
  }

  /**
   Rejection, in the request's own terms: a mode that a non-empty live list of modes lacks, or a
   model that a non-empty live list of models lacks. Nothing else is ever rejected.
   */
  lemma RejectedExactly(p: Picker, r: Request, preload: Preload)
    ensures Replied(p, r, preload) == Rejected <==>
            || (r.optionId == "mode" && r.before.modes != [] && !exists i | 0 <= i < |r.before.modes| :: r.before.modes[i].id == r.value)
            || (r.optionId == "model" && r.before.models != [] && !exists i | 0 <= i < |r.before.models| :: r.before.models[i].id == r.value)
    ensures r.before.modes == [] && r.before.models == [] ==> Replied(p, r, preload) != Rejected
    ensures r.optionId != "mode" && r.optionId != "model" ==> Replied(p, r, preload) != Rejected
  {
    hide Options, FindOption;
    assert forall m | m in r.before.modes :: exists i :: 0 <= i < |r.before.modes| && r.before.modes[i] == m;
    assert forall m | m in r.before.models :: exists i :: 0 <= i < |r.before.models| && r.before.models[i] == m;
  }

  /** What a read offers from a live list is never rejected while that list stands. */
  lemma OfferedIsNotRejected(p: Picker, r: Request, seen: Reads, preload: Preload, c: Choice)
    requires seen.catalog == r.before && r.value == c.value
    requires (r.optionId == "mode" && r.before.modes != [] && c in Choices(Options(p, seen, preload), ModeOption))
             || (r.optionId == "model" && r.before.models != [] && c in Choices(Options(p, seen, preload), ModelOption))
    ensures Replied(p, r, preload) != Rejected
  {
    ShownInOptions(p, seen, preload);
    hide Options, FindOption, Efforts, Replied;
    RejectedExactly(p, r, preload);
    if r.optionId == "mode" {
      assert c in ModeChoices(r.before.modes);
      var i :| 0 <= i < |r.before.modes| && ModeChoices(r.before.modes)[i] == c;
      assert r.before.modes[i].id == r.value;
    } else {
      assert c in ModelChoices(r.before.models);
      var i :| 0 <= i < |r.before.models| && ModelChoices(r.before.models)[i] == c;
      assert r.before.models[i].id == r.value;
    }
  }

  /**
   What a request writes, axis by axis and in its own terms: nothing unless it was neither
   rejected nor refused by the backend; a mode only if the backend applies it at once; the effort
   under any of its three names.
   */
  lemma SwitchWritesItsAxis(p: Picker, r: Request, preload: Preload)
    ensures var q := Switched(p, r, preload);
      var accepted := r.dispatched && Replied(p, r, preload) != Rejected;
      && q.mode == (if accepted && r.optionId == "mode" && r.after.modeSwitch != NextTurn then Some(r.value) else p.mode)
      && q.model == (if accepted && r.optionId == "model" then Some(r.value) else p.model)
      && q.effort == (if accepted && (r.optionId == "effort" || r.optionId == "reasoning_effort" || r.optionId == "thought_level")
                      then Some(r.value) else p.effort)
    ensures !r.dispatched && Replied(p, r, preload) != Rejected ==> Replied(p, r, preload) == DispatchFailed
    ensures Replied(p, r, preload).Answer? && Replied(p, r, preload).confirmation == PendingNextTurn <==>
            r.dispatched && Replied(p, r, preload) != Rejected && r.optionId == "mode" && r.after.modeSwitch == NextTurn
  {
    hide Options, FindOption, Effective;
  }

  /** A read answers from the overrides and the backend, never from the mirrors. */
  lemma OptionsReadOverrides(p: Picker, q: Picker, seen: Reads, preload: Preload)
    requires p.mode == q.mode && p.model == q.model && p.effort == q.effort
    ensures Options(p, seen, preload) == Options(q, seen, preload)
  {
  }

  // ---- whole histories of one picker ----

  /** Everything that writes the picker: the two REST calls here, and the pump. */
  datatype Write =
    | Read(seen: Reads)
    | Switch(request: Request)
    | Agreed(mode: Option<string>, model: Option<string>)
    | Arrived(catalog: Catalog)
  {
    /** The value this write puts in force on an axis. */
    function Word(id: OptionId): Option<string> {
      match this
      case Switch(r) => if r.Taken() && !r.Deferred() && Axis(r.optionId) == Some(id) then Some(r.value) else None
      case Agreed(mode, model) => if id.ModeOption? then mode else if id.ModelOption? then model else None
      case _ => None
    }
  }

  function Written(p: Picker, w: Write, preload: Preload): Picker {
    match w
    case Read(seen) => Mirrored(p, seen, preload)
    case Switch(r) => Switched(p, r, preload)
    case Agreed(mode, model) => Confirmed(p, mode, model)
    case Arrived(catalog) => p.(catalog := Some(catalog))
  }

  function After(p: Picker, ws: seq<Write>, preload: Preload): Picker
    decreases ws
  {
    if ws == [] then p else After(Written(p, ws[0], preload), ws[1..], preload)
  }

  function Override(p: Picker, id: OptionId): Option<string> {
    match id
    case ModeOption => p.mode
    case ModelOption => p.model
    case EffortOption => p.effort
  }

  predicate LastWord(ws: seq<Write>, id: OptionId, at: nat) {
    at < |ws| && ws[at].Word(id).Some? && forall j | at < j < |ws| :: ws[j].Word(id).None?
  }

  lemma WriteSaysItsWord(p: Picker, w: Write, preload: Preload, id: OptionId)
    ensures Override(Written(p, w, preload), id) == w.Word(id).OrElse(Override(p, id))
  {
  }

  /** The override of an axis is the last word said on it, and untouched if none was. */
  lemma {:induction false} OverrideIsLastWord(p: Picker, ws: seq<Write>, preload: Preload, id: OptionId)
    ensures (forall j | 0 <= j < |ws| :: ws[j].Word(id).None?) ==> Override(After(p, ws, preload), id) == Override(p, id)
    ensures forall at: nat | LastWord(ws, id, at) :: Override(After(p, ws, preload), id) == ws[at].Word(id)
    decreases ws
  {
    hide Written, Override;
    if ws != [] {
      var q := Written(p, ws[0], preload);
      WriteSaysItsWord(p, ws[0], preload, id);
      OverrideIsLastWord(q, ws[1..], preload, id);
      if forall j | 0 <= j < |ws[1..]| :: ws[1..][j].Word(id).None? {
        assert forall j | 1 <= j < |ws| :: ws[j] == ws[1..][j - 1];
      }
      forall at: nat | LastWord(ws, id, at) ensures Override(After(p, ws, preload), id) == ws[at].Word(id) {
        if at > 0 {
          assert LastWord(ws[1..], id, at - 1);
        } else {
          assert forall j | 0 <= j < |ws[1..]| :: ws[1..][j] == ws[j + 1];
        }
      }
    }
  }

  /**
   On a backend whose mode switches always wait for the next turn, however many of them are
   asked for, the picker's mode is the one the agent last confirmed, or none.
   */
  lemma DeferredModeIsLastConfirmed(ws: seq<Write>, preload: Preload)
    requires forall w | w in ws && w.Switch? :: w.request.after.modeSwitch.NextTurn?
    ensures var mode := After(FRESH, ws, preload).mode;
            && ((forall w | w in ws && w.Agreed? :: w.mode.None?) ==> mode.None?)
            && forall at | 0 <= at < |ws| && ws[at].Agreed? && ws[at].mode.Some? &&
                           (forall j | at < j < |ws| && ws[j].Agreed? :: ws[j].mode.None?) ::
                 mode == ws[at].mode
  {
    var id := ModeOption;
    OverrideIsLastWord(FRESH, ws, preload, id);
    forall j | 0 <= j < |ws| ensures ws[j].Word(id) == if ws[j].Agreed? then ws[j].mode else None {
      assert ws[j] in ws;
    }
    hide Write.Word, After, Written;
    assert forall w | w in ws :: exists j | 0 <= j < |ws| :: ws[j] == w;
    forall at | 0 <= at < |ws| && ws[at].Agreed? && ws[at].mode.Some? &&
                (forall j | at < j < |ws| && ws[j].Agreed? :: ws[j].mode.None?)
      ensures After(FRESH, ws, preload).mode == ws[at].mode
    {
      assert LastWord(ws, id, at);
    }
  }

  /**
   An observed switch stays readable: until another word is said on its axis, every read
   that still offers the axis shows the value asked for, whatever else is read, switched
   or confirmed meanwhile and however the backend's own report lags.
   */
  lemma ObservedStandsUntilReplaced(p: Picker, r: Request, ws: seq<Write>, seen: Reads, preload: Preload)
    requires Replied(p, r, preload).Answer? && Replied(p, r, preload).confirmation.Observed?
    requires forall w | w in ws :: w.Word(Axis(r.optionId).value).None?
    ensures var q := After(Switched(p, r, preload), ws, preload);
            var id := Axis(r.optionId).value;
            && (Offers(q, seen, preload, id) ==> Shown(Options(q, seen, preload), id) == Some(r.value))
            && (ws == [] && seen == r.seen ==> Offers(q, seen, preload, id))
  {
    hide Efforts, ModeChoices, ModelChoices, EffortChoices, FindOption, Options;
    var id := Axis(r.optionId).value;
    var q0 := Switched(p, r, preload);
    AnswerIsHonest(p, r, preload);
    assert Override(q0, id) == Some(r.value);
    OverrideIsLastWord(q0, ws, preload, id);
    assert forall j | 0 <= j < |ws| :: ws[j] in ws;
    var q := After(q0, ws, preload);
    ShownInOptions(q, seen, preload);
  }

  // ---- what a restart finds ----

  function Stored(selections: map<string, string>, ws: seq<Write>): map<string, string>
    decreases ws
  {
    if ws == [] then selections
    else Stored(if ws[0].Switch? then Kept(selections, ws[0].request) else selections, ws[1..])
  }

  /** The stored effort and the one the picker shows: the same whenever one was ever chosen. */
  predicate InStep(p: Picker, selections: map<string, string>, first: map<string, string>) {
    && selections - {EFFORT_KEY} == first - {EFFORT_KEY}
    && if p.effort.Some? then EFFORT_KEY in selections && selections[EFFORT_KEY] == p.effort.value
       else selections == first
  }

  lemma InStepKept(p: Picker, selections: map<string, string>, first: map<string, string>, w: Write, preload: Preload)
    requires InStep(p, selections, first)
    ensures InStep(Written(p, w, preload), if w.Switch? then Kept(selections, w.request) else selections, first)
  {
    WriteSaysItsWord(p, w, preload, EffortOption);
    hide Written;
  }

  /**
   After any history of reads, switches, confirmations and catalogs the stored selections hold
   the effort the picker claims, so a restart re-applies it; every other key is as it was, and
   nothing at all has changed while no effort was chosen.
   */
  lemma {:induction false} StoredEffortIsTheClaimed(p: Picker, selections: map<string, string>,
                                                    first: map<string, string>, ws: seq<Write>, preload: Preload)
    requires InStep(p, selections, first)
    ensures InStep(After(p, ws, preload), Stored(selections, ws), first)
    decreases ws
  {
    hide InStep, Written, Kept;
    if ws != [] {
      InStepKept(p, selections, first, ws[0], preload);
      StoredEffortIsTheClaimed(Written(p, ws[0], preload),
                               if ws[0].Switch? then Kept(selections, ws[0].request) else selections,
                               first, ws[1..], preload);
    }
  }

  /** From a fresh picker on, whatever was stored. */
  lemma RestartFindsTheEffort(first: map<string, string>, ws: seq<Write>, preload: Preload)
    ensures var p := After(FRESH, ws, preload); var stored := Stored(first, ws);
      && stored - {"effort"} == first - {"effort"}
      && (if p.effort.Some? then "effort" in stored && stored["effort"] == p.effort.value else stored == first)
  {
    hide After, Stored;
    StoredEffortIsTheClaimed(FRESH, first, first, ws, preload);
  }
}
