/** The renderer's configuration store: the in-place `onConfigUpdate`, the two
    module flags `initConfig` and `loadConfig`, and the subscriber that writes
    the store back to the main process only when `initConfig && !loadConfig`.
    Each asynchronous function is split at its `await`: the part before it and
    the part that runs when the main process has answered are separate steps. */
module ConfigStore {
  import opened JsValues
  import opened ConfigMerge

  /** An answer from the main process: `{ code, data }`. */
  datatype Response = Response(code: int, data: JsValue)

  /** Everything the persistence gate depends on, and the values written back
      (`setConfig` calls) so far. */
  datatype StoreState = StoreState(
    value: ConfigValue,
    initConfig: bool,
    loadConfig: bool,
    persisted: seq<ConfigValue>)

  /** One step of the store's life:
      LoadBegins        `getConfig` up to its `await` (`loadConfig = true`);
      LoadReturns(r)    the rest of `getConfig` once the answer r is in;
      LoadSettles       `.then(() => { initConfig = true; })` of the module's call;
      ResetReturns(r)   the rest of `resetConfig` once the answer r is in;
      Assigned(v)       any other `config.set(v)` made by the UI. */
  datatype StoreAction =
    | LoadBegins
    | LoadReturns(resp: Response)
    | LoadSettles
    | ResetReturns(resp: Response)
    | Assigned(value: ConfigValue)

  /** The store as the module leaves it when it is first loaded, before
      `getConfig` runs: the subscriber's immediate call persists nothing. */
  function Initial(): StoreState {
    StoreState(DefaultConfig(), false, false, [])
  }

  predicate PersistGateOpen(s: StoreState) {
    s.initConfig && !s.loadConfig
  }

  /** The persisting subscriber, run on every store update. */
  function Notified(s: StoreState): StoreState {
    if PersistGateOpen(s) then s.(persisted := s.persisted + [s.value]) else s
  }

  /** `config.update((v) => onConfigUpdate(v, data))`: the record is mutated in
      place; if the update threw, subscribers are not run. */
  function Updated(s: StoreState, data: JsValue): StoreState {
    var u := Merge(s.value, data);
    if u.threw then s.(value := u.value) else Notified(s.(value := u.value))
  }

  function Step(s: StoreState, a: StoreAction): StoreState {
    match a
    case LoadBegins => s.(loadConfig := true)
    case LoadReturns(r) =>
      if r.code != 0 then s.(loadConfig := false)
      else if Merge(s.value, r.data).threw then Updated(s, r.data)
      else Updated(s, r.data).(loadConfig := false)
    case LoadSettles => s.(initConfig := true)
    case ResetReturns(r) => if r.code != 0 then s else Updated(s, r.data)
    case Assigned(v) => Notified(s.(value := v))
  }

  function Run(s: StoreState, actions: seq<StoreAction>): StoreState
    decreases |actions|
  {
    if actions == [] then s
    else Step(Run(s, actions[..|actions| - 1]), actions[|actions| - 1])
  }

  // ---------------------------------------------------------------------------
  // Properties of the gate

  lemma RunSnoc(s: StoreState, actions: seq<StoreAction>, a: StoreAction)
    ensures Run(s, actions + [a]) == Step(Run(s, actions), a)
  {
    assert (actions + [a])[..|actions|] == actions;
  }

  /** An update made by the UI is written back exactly when the store has been
      initialised and no load is in progress. */
  lemma AssignedPersistsIff(s: StoreState, v: ConfigValue)
    ensures Step(s, Assigned(v)).value == v
    ensures PersistGateOpen(s) ==> Step(s, Assigned(v)).persisted == s.persisted + [v]
    ensures !PersistGateOpen(s) ==> Step(s, Assigned(v)).persisted == s.persisted
  {
  }

  /** Every step only appends to what has been written back. */
  lemma StepExtendsPersisted(s: StoreState, a: StoreAction)
    ensures |Step(s, a).persisted| >= |s.persisted|
    ensures Step(s, a).persisted[..|s.persisted|] == s.persisted
  {
    var t := Step(s, a);
    assert t.persisted == s.persisted || t.persisted == s.persisted + [t.value];
  }

  lemma {:induction false} RunExtendsPersisted(s: StoreState, actions: seq<StoreAction>)
    ensures |Run(s, actions).persisted| >= |s.persisted|
    ensures Run(s, actions).persisted[..|s.persisted|] == s.persisted
    decreases |actions|
  {
    if actions != [] {
      var mid := Run(s, actions[..|actions| - 1]);
      RunExtendsPersisted(s, actions[..|actions| - 1]);
      StepExtendsPersisted(mid, actions[|actions| - 1]);
      assert mid.persisted[..|s.persisted|] == s.persisted;
    }
  }

  /** Until the first `getConfig` has settled nothing is written back: neither
      the subscriber's immediate call nor any update made before then. */
  lemma {:induction false} NothingPersistedBeforeInit(s: StoreState, actions: seq<StoreAction>)
    requires !s.initConfig
    requires forall i :: 0 <= i < |actions| ==> !actions[i].LoadSettles?
    ensures !Run(s, actions).initConfig
    ensures Run(s, actions).persisted == s.persisted
    decreases |actions|
  {
    if actions != [] {
      var init := actions[..|actions| - 1];
      assert forall i :: 0 <= i < |init| ==> !init[i].LoadSettles? by {
        forall i | 0 <= i < |init| ensures !init[i].LoadSettles? { assert init[i] == actions[i]; }
      }
      NothingPersistedBeforeInit(s, init);
    }
  }

  /** While a load is outstanding (its answer has not come back, or applying it
      threw), nothing is written back and the flag stays set. */
  lemma {:induction false} NothingPersistedDuringLoad(s: StoreState, actions: seq<StoreAction>)
    requires s.loadConfig
    requires forall i :: 0 <= i < |actions| ==> !actions[i].LoadReturns?
    ensures Run(s, actions).loadConfig
    ensures Run(s, actions).persisted == s.persisted
    decreases |actions|
  {
    if actions != [] {
      var init := actions[..|actions| - 1];
      assert forall i :: 0 <= i < |init| ==> !init[i].LoadReturns? by {
        forall i | 0 <= i < |init| ensures !init[i].LoadReturns? { assert init[i] == actions[i]; }
      }
      NothingPersistedDuringLoad(s, init);
    }
  }

  /** `getConfig` holds the flag across its own store update, so the loaded
      value is not written back; afterwards the flag is cleared whatever the
      response code, unless applying the answer threw. */
  lemma LoadReturnsNotPersisted(s: StoreState, r: Response)
    requires s.loadConfig
    ensures Step(s, LoadReturns(r)).persisted == s.persisted
    ensures Step(s, LoadReturns(r)).initConfig == s.initConfig
    ensures r.code != 0 ==> Step(s, LoadReturns(r)) == s.(loadConfig := false)
    ensures r.code == 0 ==> Step(s, LoadReturns(r)).value == Merge(s.value, r.data).value
    ensures Step(s, LoadReturns(r)).loadConfig <==> r.code == 0 && Merge(s.value, r.data).threw
  {
  }

  /** `resetConfig` with a non-zero code changes nothing. With code 0 it
      applies the answer, which is written back exactly when the store is
      initialised, no load is in progress and applying the answer did not throw. */
  lemma ResetReturnsCases(s: StoreState, r: Response)
    ensures r.code != 0 ==> Step(s, ResetReturns(r)) == s
    ensures r.code == 0 ==> Step(s, ResetReturns(r)).value == Merge(s.value, r.data).value
    ensures r.code == 0 && PersistGateOpen(s) && !Merge(s.value, r.data).threw ==>
      Step(s, ResetReturns(r)).persisted == s.persisted + [Merge(s.value, r.data).value]
    ensures r.code != 0 || !PersistGateOpen(s) || Merge(s.value, r.data).threw ==>
      Step(s, ResetReturns(r)).persisted == s.persisted
  {
  }

  /** The module's own start-up when applying the answer does not throw:
      load, answer, settle. Nothing is written back and afterwards the gate is
      open, holding the loaded value when the code was 0. */
  lemma StartupTrace(r: Response)
    requires r.code != 0 || !Merge(DefaultConfig(), r.data).threw
    ensures var s := Run(Initial(), [LoadBegins, LoadReturns(r), LoadSettles]);
      && s.persisted == []
      && PersistGateOpen(s)
      && (r.code == 0 ==> s.value == Merge(DefaultConfig(), r.data).value)
      && (r.code != 0 ==> s.value == DefaultConfig())
  {
    var a1, a2 := [LoadBegins], [LoadBegins, LoadReturns(r)];
    assert [] + [LoadBegins] == a1;
    assert a1 + [LoadReturns(r)] == a2;
    assert a2 + [LoadSettles] == [LoadBegins, LoadReturns(r), LoadSettles];
    RunSnoc(Initial(), [], LoadBegins);
    RunSnoc(Initial(), a1, LoadReturns(r));
    RunSnoc(Initial(), a2, LoadSettles);
    LoadReturnsNotPersisted(Run(Initial(), a1), r);
  }

  /** When applying the first answer throws, `getConfig` rejects, so its
      `.then` never sets `initConfig` and `loadConfig` stays set: whatever the
      UI does afterwards, nothing is ever written back. */
  lemma StartupThrows(r: Response, later: seq<StoreAction>)
    requires r.code == 0 && Merge(DefaultConfig(), r.data).threw
    requires forall i :: 0 <= i < |later| ==> !later[i].LoadSettles?
    ensures var s := Run(Initial(), [LoadBegins, LoadReturns(r)]);
      && s.loadConfig && !s.initConfig
      && Run(s, later).persisted == []
  {
    var a1, a2 := [LoadBegins], [LoadBegins, LoadReturns(r)];
    assert [] + [LoadBegins] == a1;
    assert a1 + [LoadReturns(r)] == a2;
    RunSnoc(Initial(), [], LoadBegins);
    RunSnoc(Initial(), a1, LoadReturns(r));
    LoadReturnsNotPersisted(Run(Initial(), a1), r);
    NothingPersistedBeforeInit(Run(Initial(), a2), later);
  }

  // ---------------------------------------------------------------------------
  // The store as the renderer holds it

  /** The record object held by the store, mutated in place by `onConfigUpdate`. */
  class ConfigObject {
    var options: JsValue
    var output: JsValue
    var fontMap: JsValue
    var fontDir: JsValue
    var tempFields: JsValue
    var customTempFields: JsValue
    var temps: JsValue
    var staticDir: JsValue
    var videoWatermark: JsValue

    function Snapshot(): ConfigValue
      reads this
    {
      ConfigValue(options, output, fontMap, fontDir, tempFields, customTempFields, temps, staticDir, videoWatermark)
    }

    constructor (c: ConfigValue)
      ensures Snapshot() == c
    {
      options, output, fontMap, fontDir := c.options, c.output, c.fontMap, c.fontDir;
      tempFields, customTempFields, temps := c.tempFields, c.customTempFields, c.temps;
      staticDir, videoWatermark := c.staticDir, c.videoWatermark;
    }
  }

  /** `onConfigUpdate(v, newConf)`: assigns the fields of v one by one and
      returns v itself; `threw` reports the TypeError raised on a nullish
      `newConf` or `newConf.font`, after which the call returns nothing. */
  method OnConfigUpdate(v: ConfigObject, newConf: JsValue) returns (threw: bool, r: ConfigObject)
    modifies v
    ensures r == v
    ensures v.Snapshot() == Merge(old(v.Snapshot()), newConf).value
    ensures threw == Merge(old(v.Snapshot()), newConf).threw
  {
    r := v;
    var options := Get(newConf, "options");
    if options.None? {
      return true, r;
    }
    v.options := options.value;
    v.output := Get(newConf, "output").value;
    var font := Get(newConf, "font").value;
    var fontMap := Get(font, "map");
    if fontMap.None? {
      return true, r;
    }
    v.fontMap := fontMap.value;
    v.fontDir := Get(font, "dir").value;
    v.tempFields := Get(newConf, "tempFields").value;
    v.customTempFields := Get(newConf, "customTempFields").value;
    v.temps := Get(newConf, "temps").value;
    v.staticDir := Get(newConf, "staticDir").value;
    v.videoWatermark := Or(Get(newConf, "videoWatermark").value, v.videoWatermark);
    threw := false;
  }

  class Store {
    var value: ConfigObject
    var initConfig: bool
    var loadConfig: bool
    /** The values handed to `window.api.setConfig`, in order. */
    var persisted: seq<ConfigValue>

    function State(): StoreState
      reads this, value
    {
      StoreState(value.Snapshot(), initConfig, loadConfig, persisted)
    }

    /** Module load: the store with its default value, both flags false, and the
        persisting subscriber attached (its immediate call writes nothing). */
    constructor ()
      ensures State() == Initial() && fresh(value)
    {
      value := new ConfigObject(DefaultConfig());
      initConfig, loadConfig := false, false;
      persisted := [];
      new;
      Notify();
    }

    /** The persisting subscriber. */
    method Notify()
      modifies this
      ensures value == old(value)
      ensures State() == Notified(old(State()))
    {
      if initConfig && !loadConfig {
        persisted := persisted + [value.Snapshot()];
      }
    }

    /** `config.update((v) => onConfigUpdate(v, data))`. */
    method Update(data: JsValue) returns (threw: bool)
      modifies this, value
      ensures value == old(value)
      ensures threw == Merge(old(value.Snapshot()), data).threw
      ensures State() == Updated(old(State()), data)
    {
      var r;
      threw, r := OnConfigUpdate(value, data);
      if !threw {
        Notify();
      }
    }

    /** `getConfig` up to its `await`. */
    method GetConfigBegin()
      modifies this
      ensures value == old(value)
      ensures State() == Step(old(State()), LoadBegins)
    {
      loadConfig := true;
    }

    /** The rest of `getConfig`; a throw from the update propagates and skips
        `loadConfig = false`. */
    method GetConfigEnd(resp: Response) returns (threw: bool)
      modifies this, value
      ensures value == old(value)
      ensures threw <==> resp.code == 0 && Merge(old(value.Snapshot()), resp.data).threw
      ensures State() == Step(old(State()), LoadReturns(resp))
    {
      threw := false;
      if resp.code == 0 {
        threw := Update(resp.data);
        if threw {
          return;
        }
      }
      loadConfig := false;
    }

    /** `.then(() => { initConfig = true; })` on the module's `getConfig()`. */
    method GetConfigSettled()
      modifies this
      ensures value == old(value)
      ensures State() == Step(old(State()), LoadSettles)
    {
      initConfig := true;
    }

    /** The rest of `resetConfig` once the main process has answered. */
    method ResetConfigEnd(resp: Response) returns (threw: bool)
      modifies this, value
      ensures value == old(value)
      ensures threw <==> resp.code == 0 && Merge(old(value.Snapshot()), resp.data).threw
      ensures State() == Step(old(State()), ResetReturns(resp))
    {
      threw := false;
      if resp.code != 0 {
        return;
      }
      threw := Update(resp.data);
    }

    /** `config.set(v)` from elsewhere in the UI. */
    method Set(v: ConfigValue)
      modifies this
      ensures fresh(value)
      ensures State() == Step(old(State()), Assigned(v))
    {
      value := new ConfigObject(v);
      Notify();
    }
  }
}
