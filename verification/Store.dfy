/** The one stored row of a conversation: resume anchor, observed config, context usage. */
module Store {
  import opened Wire
  import opened Text

  datatype Cost = Cost(amount: real)
  datatype Meta = Meta(input: nat, output: nat, breakdown: Breakdown)
  datatype StoredUsage = StoredUsage(used: Option<nat>, size: Option<nat>, cost: Option<Cost>, meta: Option<Meta>)
  datatype Row = Row(anchor: Option<string>, mode: Option<string>, model: Option<string>, usage: StoredUsage)

  /** The backend wordings that mean the stored session can never be resumed. */
  predicate UnrecoverableResume(text: string) {
    || Contains(text, "No conversation found")
    || Contains(text, "error_during_execution")
    || Contains(text, "no rollout found for thread id")
    || Contains(text, "thread not found:")
  }

  predicate DeadAnchor(ev: Event) {
    ev.TurnResult? && ev.isError && !ev.outcome.Cancelled? && UnrecoverableResume(ev.text)
  }

  predicate Informative(ev: Event) {
    ev.UsageDelta? && ev.usage.total > 0
  }

  function MergeUsage(was: StoredUsage, u: Usage): StoredUsage {
    StoredUsage(
      Some(u.total),
      if u.window.Some? then u.window else was.size,
      if u.cost.Some? then Some(Cost(u.cost.value)) else was.cost,
      if u.breakdown != Breakdown(0, 0, 0) then Some(Meta(u.input, u.output, u.breakdown)) else was.meta)
  }

  /** What one event writes. */
  function Persist(row: Row, ev: Event): Row {
    var row1 := if DeadAnchor(ev) then row.(anchor := None) else row;
    var row2 := match ev
      case BackendBound(Some(id)) => row1.(anchor := Some(id))
      case ConfigChanged(mode, model) =>
        row1.(mode := if mode.Some? then mode else row1.mode, model := if model.Some? then model else row1.model)
      case _ => row1;
    if Informative(ev) then row2.(usage := MergeUsage(row2.usage, ev.usage)) else row2
  }

  // ---- the code in its own form ----

  /** The stored record, with the repository's own partial writes. */
  class Record {
    var anchor: Option<string>
    var mode: Option<string>
    var model: Option<string>
    var usage: StoredUsage

    ghost function View(): Row
      reads this
    {
      Row(anchor, mode, model, usage)
    }

    constructor (row: Row)
      ensures View() == row
    {
      anchor, mode, model, usage := row.anchor, row.mode, row.model, row.usage;
    }

    method ClearSessionId()
      modifies this`anchor
      ensures anchor == None
    {
      anchor := None;
    }

    method UpdateSessionId(id: string)
      modifies this`anchor
      ensures anchor == Some(id)
    {
      anchor := Some(id);
    }

    method SaveRuntimeState(mode: Option<string>, model: Option<string>)
      modifies this`mode, this`model
      ensures this.mode == mode.OrElse(old(this.mode)) && this.model == model.OrElse(old(this.model))
    {
      if mode.Some? {
        this.mode := mode;
      }
      if model.Some? {
        this.model := model;
      }
    }

    method PersistContextUsage(u: Usage)
      modifies this`usage
      ensures usage == MergeUsage(old(usage), u)
    {
      usage := usage.(used := Some(u.total));
      if u.window.Some? {
        usage := usage.(size := u.window);
      }
      if u.cost.Some? {
        usage := usage.(cost := Some(Cost(u.cost.value)));
      }
      if u.breakdown != Breakdown(0, 0, 0) {
        usage := usage.(meta := Some(Meta(u.input, u.output, u.breakdown)));
      }
    }

    method PersistSideEffects(ev: Event)
      modifies this
      ensures View() == Persist(old(View()), ev)
    {
      if DeadAnchor(ev) {
        ClearSessionId();
      }
      match ev {
        case BackendBound(Some(id)) => UpdateSessionId(id);
        case ConfigChanged(mode, model) =>
          if mode.Some? || model.Some? {
            SaveRuntimeState(mode, model);
          }
        case _ =>
      }
      if Informative(ev) {
        PersistContextUsage(ev.usage);
      }
    }
  }
}
