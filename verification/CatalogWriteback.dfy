/**
 The catalog write-back: after a session opens, its backend is polled until models have
 been discovered. What is published, and how often, over every course discovery can take.
 */
module CatalogWriteback {
  import opened Wire
  import opened Picker
  import opened PickerService

  const INTERIM_PUBLISH_TICKS := 100
  const MODEL_WINDOW_TICKS := 700

  /** What one poll reads off the backend. */
  datatype Discovery = Discovery(modes: seq<ModeInfo>, models: seq<ModelInfo>, mode: Option<string>,
                                 model: Option<string>, commands: seq<string>)

  datatype Listed<T> = Listed(list: seq<T>, current: Option<string>)
  datatype Handshake = Handshake(options: Option<seq<ConfigOption>>, modes: Option<Listed<ModeInfo>>,
                                 models: Option<Listed<ModelInfo>>, commands: Option<seq<string>>)

  function NonEmpty<T(==)>(s: seq<T>): Option<seq<T>> {
    if s == [] then None else Some(s)
  }

  /** The catalog entry one poll is worth, if it has discovered anything. The effort is nobody's yet. */
  function PartialFrom(d: Discovery): Option<Handshake> {
    var efforts := Efforts(d.models, d.model);
    var options :=
      (if d.modes != [] then [ConfigOption(ModeOption, d.mode, ModeChoices(d.modes))] else []) +
      (if d.models != [] then [ConfigOption(ModelOption, d.model, ModelChoices(d.models))] else []) +
      (if efforts != [] then [ConfigOption(EffortOption, None, EffortChoices(efforts))] else []);
    if options == [] && d.commands == [] then None
    else Some(Handshake(NonEmpty(options),
                        if d.modes != [] then Some(Listed(d.modes, d.mode)) else None,
                        if d.models != [] then Some(Listed(d.models, d.model)) else None,
                        NonEmpty(d.commands)))
  }

  /** What one poll finds: nothing yet, a partial without models, or one with models. */
  datatype Found = Nothing | Partial(partial: Handshake) | WithModels(partial: Handshake)

  function FoundIn(d: Discovery): Found {
    var partial := PartialFrom(d);
    if partial.None? then Nothing
    else if d.models != [] then WithModels(partial.value)
    else Partial(partial.value)
  }

  function FoundAll(ds: seq<Discovery>): (polls: seq<Found>)
    ensures |polls| == |ds|
    ensures forall i | 0 <= i < |ds| :: polls[i] == FoundIn(ds[i])
  {
    seq(|ds|, i requires 0 <= i < |ds| => FoundIn(ds[i]))
  }

  /** Something is found exactly when anything was discovered, and models exactly when listed. */
  lemma FoundIsDiscovered(d: Discovery)
    ensures FoundIn(d).Nothing? <==> d.modes == [] && d.models == [] && d.commands == []
    ensures FoundIn(d).WithModels? <==> d.models != []
    ensures FoundIn(d).WithModels? ==> FoundIn(d).partial.models == Some(Listed(d.models, d.model))
  {
    hide ModeChoices, ModelChoices, EffortChoices;
  }

  /** The best model-less partial found in the first `n` polls: the latest one. */
  function Best(polls: seq<Found>, n: nat): (best: Option<Handshake>)
    requires n <= |polls|
    ensures best.None? <==> forall i | 0 <= i < n :: !polls[i].Partial?
    ensures best.Some? ==>
              exists i | 0 <= i < n :: polls[i] == Partial(best.value) && forall j | i < j < n :: !polls[j].Partial?
  {
    if n == 0 then None
    else if polls[n - 1].Partial? then Some(polls[n - 1].partial)
    else Best(polls, n - 1)
  }

  /** Models first show up at poll `m`. */
  predicate FirstModels(polls: seq<Found>, m: nat) {
    m < |polls| && polls[m].WithModels? && forall i | 0 <= i < m :: !polls[i].WithModels?
  }

  predicate NoModels(polls: seq<Found>, n: nat) {
    n <= |polls| && forall i | 0 <= i < n :: !polls[i].WithModels?
  }

  function Message(best: Option<Handshake>): seq<Handshake> {
    if best.Some? then [best.value] else []
  }

  /** What the five-second deadline has published once `n` polls are over. */
  function Interim(polls: seq<Found>, n: nat): seq<Handshake>
    requires n <= |polls|
  {
    if n < INTERIM_PUBLISH_TICKS then [] else Message(Best(polls, INTERIM_PUBLISH_TICKS))
  }

  /** Everything a write-back is to have sent, and when it stops, for one course of discovery. */
  ghost predicate Outcome(polls: seq<Found>, sent: seq<Handshake>, ticks: nat)
    requires |polls| == MODEL_WINDOW_TICKS
  {
    && (forall m: nat | FirstModels(polls, m) :: sent == Interim(polls, m) + [polls[m].partial] && ticks == m + 1)
    && (NoModels(polls, MODEL_WINDOW_TICKS) ==>
          && ticks == MODEL_WINDOW_TICKS
          && sent == Message(Best(polls, INTERIM_PUBLISH_TICKS).OrElse(Best(polls, MODEL_WINDOW_TICKS))))
  }

  /**
   One whole write-back. Polls after the first discovery of models are never made. A send
   appends to `sent`, `ticks` counts the polls.
   */
  method SpawnCatalogWriteback(backend: seq<Discovery>) returns (sent: seq<Handshake>, ticks: nat)
    requires |backend| == MODEL_WINDOW_TICKS
    ensures |sent| <= 2
    ensures Outcome(FoundAll(backend), sent, ticks)
  {
    hide PartialFrom;
    ghost var polls := FoundAll(backend);
    var best: Option<Handshake> := None;
    var interimSent := false;
    sent, ticks := [], 0;
    while ticks < MODEL_WINDOW_TICKS
      invariant ticks <= MODEL_WINDOW_TICKS
      invariant NoModels(polls, ticks)
      invariant best == Best(polls, ticks)
      invariant sent == Interim(polls, ticks)
      invariant interimSent <==> sent != []
    {
      var d := backend[ticks];
      var partial := PartialFrom(d);
      FoundIsDiscovered(d);
      if partial.Some? {
        if d.models != [] {
          sent := sent + [partial.value];
          ticks := ticks + 1;
          return;
        }
        best := partial;
      }
      if ticks + 1 == INTERIM_PUBLISH_TICKS && best.Some? {
        sent := sent + [best.value];
        interimSent := true;
      }
      ticks := ticks + 1;
    }
    if !interimSent && best.Some? {
      sent := sent + [best.value];
    }
  }

  /** Once something has been found, there is a best partial from then on. */
  lemma {:induction false} BestStays(polls: seq<Found>, early: nat, late: nat)
    requires early <= late <= |polls|
    ensures Best(polls, early).Some? ==> Best(polls, late).Some?
  {
    if early < late {
      BestStays(polls, early, late - 1);
    }
  }

  /**
   The last message is the last word: if models are ever listed, the poll that first lists them
   sends its full catalog and is the last, whatever the interim deadline had published.
   */
  lemma ModelsAreTheLastWord(backend: seq<Discovery>, sent: seq<Handshake>, ticks: nat, m: nat)
    requires |backend| == 700
    requires Outcome(FoundAll(backend), sent, ticks)
    requires m < |backend| && backend[m].models != [] && forall i | 0 <= i < m :: backend[i].models == []
    ensures ticks == m + 1 && sent != [] && Some(sent[|sent| - 1]) == PartialFrom(backend[m])
    ensures sent[|sent| - 1].models == Some(Listed(backend[m].models, backend[m].model))
    ensures |sent| == 2 <==> 100 <= m && Discovered(backend[..100])
  {
    hide PartialFrom, Best, Outcome;
    var polls := FoundAll(backend);
    forall i | 0 <= i < |backend| ensures polls[i].WithModels? <==> backend[i].models != [] {
      FoundIsDiscovered(backend[i]);
    }
    FoundIsDiscovered(backend[m]);
    OutcomeAt(polls, sent, ticks, m);
    if INTERIM_PUBLISH_TICKS <= m {
      SomethingFound(backend, INTERIM_PUBLISH_TICKS);
    }
  }

  lemma OutcomeAt(polls: seq<Found>, sent: seq<Handshake>, ticks: nat, m: nat)
    requires |polls| == MODEL_WINDOW_TICKS && Outcome(polls, sent, ticks) && FirstModels(polls, m)
    ensures sent == Interim(polls, m) + [polls[m].partial] && ticks == m + 1
  {
  }

  /**
   A backend that never lists models is not held back: one message goes out if anything was
   ever discovered, carrying what the last poll to discover anything before the interim
   deadline read, or before the end if that deadline had nothing to publish.
   */
  lemma WithoutModelsOneMessage(backend: seq<Discovery>, sent: seq<Handshake>, ticks: nat)
    requires |backend| == 700
    requires Outcome(FoundAll(backend), sent, ticks)
    requires forall d | d in backend :: d.models == []
    ensures ticks == 700
    ensures if !Discovered(backend) then sent == []
            else
              var seen := if Discovered(backend[..100]) then 100 else |backend|;
              exists i | 0 <= i < seen ::
                && PartialFrom(backend[i]).Some? && sent == [PartialFrom(backend[i]).value]
                && forall j | i < j < seen :: PartialFrom(backend[j]).None?
  {
    hide PartialFrom, Best;
    var polls := FoundAll(backend);
    forall i | 0 <= i < |backend| ensures !polls[i].WithModels? {
      assert backend[i] in backend;
      FoundIsDiscovered(backend[i]);
    }
    BestStays(polls, INTERIM_PUBLISH_TICKS, MODEL_WINDOW_TICKS);
    SomethingFound(backend, INTERIM_PUBLISH_TICKS);
    SomethingFound(backend, MODEL_WINDOW_TICKS);
    assert backend[..MODEL_WINDOW_TICKS] == backend;
  }

  predicate Discovered(backend: seq<Discovery>) {
    exists d | d in backend :: d.modes != [] || d.models != [] || d.commands != []
  }

  /** Without models in sight, the best partial is what the last poll to discover anything read. */
  lemma SomethingFound(backend: seq<Discovery>, n: nat)
    requires n <= |backend|
    requires forall i | 0 <= i < n :: backend[i].models == []
    ensures var best := Best(FoundAll(backend), n);
            && (best.Some? <==> Discovered(backend[..n]))
            && (best.Some? ==>
                  exists i | 0 <= i < n ::
                    PartialFrom(backend[i]) == best && forall j | i < j < n :: PartialFrom(backend[j]).None?)
  {
    hide PartialFrom;
    var polls := FoundAll(backend);
    forall i | 0 <= i < n
      ensures polls[i].Partial? <==> backend[i].modes != [] || backend[i].commands != []
      ensures polls[i].Partial? <==> PartialFrom(backend[i]).Some?
      ensures polls[i].Partial? ==> PartialFrom(backend[i]) == Some(polls[i].partial)
    {
      assert backend[i] in backend;
      FoundIsDiscovered(backend[i]);
    }
    if Discovered(backend[..n]) {
      var i :| 0 <= i < n && (backend[i].modes != [] || backend[i].models != [] || backend[i].commands != []);
      assert backend[i] in backend && polls[i].Partial?;
    }
    if Best(polls, n).Some? {
      var i :| 0 <= i < n && polls[i] == Partial(Best(polls, n).value) && forall j | i < j < n :: !polls[j].Partial?;
      assert backend[i] in backend[..n];
      assert PartialFrom(backend[i]) == Best(polls, n);
    }
  }

  /**
   What a partial carries, field by field: the lists as discovered with their currents, the
   commands, and one option per axis that has a list, the effort at no one's choice.
   */
  lemma PartialCarries(d: Discovery)
    requires d.modes != [] || d.models != [] || d.commands != []
    ensures PartialFrom(d).Some?
    ensures var h := PartialFrom(d).value; var options := h.options.GetOr([]); var levels := Efforts(d.models, d.model);
      && h.modes == (if d.modes == [] then None else Some(Listed(d.modes, d.mode)))
      && h.models == (if d.models == [] then None else Some(Listed(d.models, d.model)))
      && h.commands == (if d.commands == [] then None else Some(d.commands))
      && (h.options == None <==> d.modes == [] && d.models == [])
      && FindOption(options, ModeOption) ==
         (if d.modes == [] then None else Some(ConfigOption(ModeOption, d.mode, ModeChoices(d.modes))))
      && FindOption(options, ModelOption) ==
         (if d.models == [] then None else Some(ConfigOption(ModelOption, d.model, ModelChoices(d.models))))
      && FindOption(options, EffortOption) ==
         (if levels == [] then None else Some(ConfigOption(EffortOption, None, EffortChoices(levels))))
  {
    hide ModeChoices, ModelChoices, EffortChoices, FindOption;
    var levels := Efforts(d.models, d.model);
    var a := if d.modes != [] then [ConfigOption(ModeOption, d.mode, ModeChoices(d.modes))] else [];
    var b := if d.models != [] then [ConfigOption(ModelOption, d.model, ModelChoices(d.models))] else [];
    var c := if levels != [] then [ConfigOption(EffortOption, None, EffortChoices(levels))] else [];
    FindThree(a + b + c, a, b, c);
  }
}
