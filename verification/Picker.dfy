/**
 The mode/model/effort picker: optimistic overrides, the mirrors of what the backend
 reported, and the two projections of that state a client can see.
 */
module Picker {
  import opened Wire

  datatype Fallback = Fallback(mode: Option<string>, model: Option<string>, effort: Option<string>)
  datatype Catalog = Catalog(modes: seq<ModeInfo>, models: seq<ModelInfo>)
  datatype Picker = Picker(mode: Option<string>, model: Option<string>, effort: Option<string>,
                           catalog: Option<Catalog>, fallback: Fallback)

  const FRESH := Picker(None, None, None, None, Fallback(None, None, None))

  function AddNew(known: seq<string>, more: seq<string>): seq<string>
    decreases more
  {
    if more == [] then known
    else AddNew(if more[0] in known then known else known + [more[0]], more[1..])
  }

  function Union(known: seq<string>, models: seq<ModelInfo>): seq<string>
    decreases models
  {
    if models == [] then known else Union(AddNew(known, models[0].efforts), models[1..])
  }

  function Find(models: seq<ModelInfo>, id: string): Option<ModelInfo> {
    if models == [] then None else if models[0].id == id then Some(models[0]) else Find(models[1..], id)
  }

  /** The current model's efforts if it can be pinned, else every advertised effort once. */
  function Efforts(models: seq<ModelInfo>, current: Option<string>): seq<string> {
    if current.Some? && Find(models, current.value).Some? then Find(models, current.value).value.efforts
    else Union([], models)
  }

  function ModeChoices(modes: seq<ModeInfo>): seq<Choice> {
    seq(|modes|, i requires 0 <= i < |modes| => Choice(modes[i].id, modes[i].name, modes[i].description))
  }

  function ModelChoices(models: seq<ModelInfo>): seq<Choice> {
    seq(|models|, i requires 0 <= i < |models| => Choice(models[i].id, models[i].name, models[i].description))
  }

  function EffortChoices(efforts: seq<string>): seq<Choice> {
    seq(|efforts|, i requires 0 <= i < |efforts| => Choice(efforts[i], efforts[i], None))
  }

  /** The pushed snapshot: the pump has no backend handle, only overrides and mirrors. */
  function Snapshot(modes: seq<ModeInfo>, models: seq<ModelInfo>, p: Picker): seq<ConfigOption> {
    var efforts := Efforts(models, p.model);
    (if modes != [] then [ConfigOption(ModeOption, p.mode.OrElse(p.fallback.mode), ModeChoices(modes))] else []) +
    (if models != [] then [ConfigOption(ModelOption, p.model.OrElse(p.fallback.model), ModelChoices(models))] else []) +
    (if efforts != [] then [ConfigOption(EffortOption, p.effort.OrElse(p.fallback.effort), EffortChoices(efforts))]
     else [])
  }

  /** An empty snapshot would only wipe the client's picker, so it is not sent. */
  function Push(modes: seq<ModeInfo>, models: seq<ModelInfo>, p: Picker): seq<Frame> {
    var options := Snapshot(modes, models, p);
    if options == [] then [] else [OptionsFrame(options)]
  }

  /** A confirmation from the agent overwrites the optimistic choice. */
  function Confirmed(p: Picker, mode: Option<string>, model: Option<string>): Picker {
    p.(mode := if mode.Some? then mode else p.mode, model := if model.Some? then model else p.model)
  }
}
