/** A route's DSP settings: as they arrive, as they are kept, as they are executed, as they are
    saved. */
module DspSettings {
  import opened JsonValues
  import opened Limits
  import opened ProcessorRegistries
  import opened Wrappers

  /** A processor that runs, by its type and the parameters it was built with. */
  datatype Processor = Processor(kind: string, params: map<string, Json>)

  /** What the cache keeps for a route. `warning` tells that the settings were bypassed. */
  datatype RouteDspState = RouteDspState(active: bool, gain: real, chain: Json, warning: bool)

  /** What the engine's published slot executes. */
  datatype Executed = Executed(active: bool, gain: real, processors: seq<Processor>)

  const NO_DSP := RouteDspState(false, 1.0, Arr([]), false)
  const NO_EXECUTION := Executed(false, 1.0, [])

  datatype Prepared = Prepared(state: RouteDspState, processors: seq<Processor>)
  {
    function Execution(): Executed { Executed(state.active, state.gain, processors) }
  }

  // ---------- Preparing ----------

  function ItemOf(r: Registry, item: Json): Option<Processor> {
    if !item.Has("type") || !item.At("type").Str? || !item.Has("params") || !item.At("params").Obj? then None
    else
      var n := CreateOf(r, item.At("type").s, item.At("params"));
      if n.None? then None else Some(Processor(item.At("type").s, n.value))
  }

  function ItemsOf(r: Registry, items: seq<Json>): (ps: Option<seq<Processor>>)
    ensures ps.Some? ==> |ps.value| == |items|
  {
    if items == [] then Some([])
    else
      var before := ItemsOf(r, items[..|items| - 1]);
      var p := ItemOf(r, items[|items| - 1]);
      if before.None? || p.None? then None else Some(before.value + [p.value])
  }

  /** A processor as it is kept and saved. */
  function ItemJson(p: Processor): Json {
    Obj(map["type" := Str(p.kind), "params" := Obj(p.params)])
  }

  function ItemsJson(ps: seq<Processor>): (items: seq<Json>)
    ensures |items| == |ps|
  {
    seq(|ps|, i requires 0 <= i < |ps| => ItemJson(ps[i]))
  }

  function ActiveOf(body: Json): Option<bool>
    requires body.Obj?
  {
    if !body.Has("active") then Some(false)
    else if body.At("active").Bool? then Some(body.At("active").b) else None
  }

  function GainOf(body: Json): Option<real>
    requires body.Obj?
  {
    if !body.Has("gain") then Some(1.0)
    else if body.At("gain").IsNumber() && GainOk(body.At("gain").Number()) then Some(body.At("gain").Number()) else None
  }

  function ChainOf(r: Registry, body: Json): Option<seq<Processor>>
    requires body.Obj?
  {
    if !body.Has("chain") then Some([])
    else if !body.At("chain").Arr? || |body.At("chain").items| > MAX_PROCESSORS then None
    else ItemsOf(r, body.At("chain").items)
  }

  /** Everything is checked and built before anything is changed. */
  function Prepare(r: Registry, body: Json): Option<Prepared> {
    if !body.Obj? || ActiveOf(body).None? || GainOf(body).None? || ChainOf(r, body).None? then None
    else
      var ps := ChainOf(r, body).value;
      Some(Prepared(RouteDspState(ActiveOf(body).value, GainOf(body).value, Arr(ItemsJson(ps)), false), ps))
  }

  method PrepareItem(registry: ProcessorRegistry, item: Json) returns (p: Option<Processor>)
    requires registry.Valid()
    ensures p == ItemOf(registry.processors, item)
  {
    if !item.Has("type") || !item.At("type").Str? || !item.Has("params") || !item.At("params").Obj? {
      return None;
    }
    var normalized := registry.Create(item.At("type").s, item.At("params"));
    p := if normalized.None? then None else Some(Processor(item.At("type").s, normalized.value));
  }

  /** The loop over a chain: the processors, and the chain as the cache will keep it. */
  method PrepareChain(registry: ProcessorRegistry, items: seq<Json>) returns (ps: Option<seq<Processor>>, kept: seq<Json>)
    requires registry.Valid()
    ensures ps == ItemsOf(registry.processors, items) && (ps.Some? ==> kept == ItemsJson(ps.value))
  {
    kept := [];
    var processors: seq<Processor> := [];
    for i := 0 to |items|
      invariant ItemsOf(registry.processors, items[..i]) == Some(processors) && kept == ItemsJson(processors)
    {
      ItemsNext(registry.processors, items, i);
      var p := PrepareItem(registry, items[i]);
      if p.None? {
        ItemsFailForGood(registry.processors, items, i + 1);
        return None, [];
      }
      processors, kept := processors + [p.value], kept + [ItemJson(p.value)];
    }
    assert items[..|items|] == items;
    ps := Some(processors);
  }

  lemma ItemsNext(r: Registry, items: seq<Json>, i: nat)
    requires i < |items| && ItemsOf(r, items[..i]).Some?
    ensures ItemsOf(r, items[..i + 1]) == if ItemOf(r, items[i]).None? then None
      else Some(ItemsOf(r, items[..i]).value + [ItemOf(r, items[i]).value])
  {
    assert items[..i + 1][..i] == items[..i];
  }

  /** The same as the handlers compute it. */
  method PrepareRouteDsp(registry: ProcessorRegistry, body: Json) returns (p: Option<Prepared>)
    requires registry.Valid()
    ensures p == Prepare(registry.processors, body)
  {
    if !body.Obj? {
      return None;
    }
    var state := NO_DSP;
    if body.Has("active") {
      if !body.At("active").Bool? {
        return None;
      }
      state := state.(active := body.At("active").b);
    }
    if body.Has("gain") {
      if !body.At("gain").IsNumber() || body.At("gain").Number() < 0.0 || body.At("gain").Number() > 8.0 {
        return None;
      }
      state := state.(gain := body.At("gain").Number());
    }
    if !body.Has("chain") {
      return Some(Prepared(state, []));
    }
    var chain := body.At("chain");
    if !chain.Arr? || |chain.items| > MAX_PROCESSORS {
      return None;
    }
    var ps, kept := PrepareChain(registry, chain.items);
    p := if ps.None? then None else Some(Prepared(state.(chain := Arr(kept)), ps.value));
  }

  lemma {:induction false} ItemsFailForGood(r: Registry, items: seq<Json>, k: nat)
    requires k <= |items| && ItemsOf(r, items[..k]).None?
    ensures ItemsOf(r, items).None?
    decreases |items|
  {
    if k < |items| {
      assert items[..|items| - 1][..k] == items[..k];
      ItemsFailForGood(r, items[..|items| - 1], k);
    } else {
      assert items[..k] == items;
    }
  }

  // ---------- Loading and saving ----------

  datatype Restored = Restored(state: RouteDspState, executed: Executed)

  /** What is kept of settings that could not be prepared: the chain verbatim, a gain if it is one. */
  function Bypassed(dsp: Json): RouteDspState {
    RouteDspState(
      false,
      if dsp.Has("gain") && dsp.At("gain").IsNumber() && GainOk(dsp.At("gain").Number()) then dsp.At("gain").Number() else 1.0,
      if dsp.Has("chain") then dsp.At("chain") else Arr([]),
      true)
  }

  /** Loading one route's settings. A route without a slot in the engine is bypassed as well. */
  function Restore(r: Registry, id: nat, dsp: Json): Restored {
    if Supported(id) && Prepare(r, dsp).Some? then
      Restored(Prepare(r, dsp).value.state, Prepare(r, dsp).value.Execution())
    else
      Restored(Bypassed(dsp), Executed(false, Bypassed(dsp).gain, []))
  }

  function Saved(s: RouteDspState): Json {
    Obj(map["active" := Bool(s.active), "gain" := Real(s.gain), "chain" := s.chain])
  }

  /** What can be heard of a slot: nothing of one that is not active. */
  function Effective(e: Executed): Option<(real, seq<Processor>)> {
    if e.active then Some((e.gain, e.processors)) else None
  }

  // ---------- Results ----------

  lemma ItemIsCanonical(r: Registry, item: Json)
    requires RegistryOk(r) && ItemOf(r, item).Some?
    ensures ItemOf(r, ItemJson(ItemOf(r, item).value)) == ItemOf(r, item)
  {
    CreateIsIdempotent(r, item.At("type").s, item.At("params"));
  }

  lemma ItemsSplit(r: Registry, items: seq<Json>)
    requires items != [] && ItemsOf(r, items).Some?
    ensures var n := |items| - 1; var ps := ItemsOf(r, items).value;
      ItemsOf(r, items[..n]) == Some(ps[..n]) && ItemOf(r, items[n]) == Some(ps[n])
  {
  }

  lemma {:induction false} ItemsAreCanonical(r: Registry, items: seq<Json>)
    requires RegistryOk(r) && ItemsOf(r, items).Some?
    ensures ItemsOf(r, ItemsJson(ItemsOf(r, items).value)) == ItemsOf(r, items)
  {
    if items != [] {
      var n := |items| - 1;
      var ps := ItemsOf(r, items).value;
      ItemsSplit(r, items);
      ItemsAreCanonical(r, items[..n]);
      ItemIsCanonical(r, items[n]);
      CanonicalNext(r, ps, n);
    }
  }

  lemma ItemsAppend(r: Registry, items: seq<Json>, ps: seq<Processor>, item: Json, p: Processor)
    requires ItemsOf(r, items) == Some(ps) && ItemOf(r, item) == Some(p)
    ensures ItemsOf(r, items + [item]) == Some(ps + [p])
  {
    assert (items + [item])[..|items|] == items;
  }

  lemma CanonicalNext(r: Registry, ps: seq<Processor>, n: nat)
    requires |ps| == n + 1 && ItemsOf(r, ItemsJson(ps[..n])) == Some(ps[..n]) && ItemOf(r, ItemJson(ps[n])) == Some(ps[n])
    ensures ItemsOf(r, ItemsJson(ps)) == Some(ps)
  {
    ItemsAppend(r, ItemsJson(ps[..n]), ps[..n], ItemJson(ps[n]), ps[n]);
    assert ItemsJson(ps) == ItemsJson(ps[..n]) + [ItemJson(ps[n])];
    assert ps == ps[..n] + [ps[n]];
  }

  /** Settings that were accepted are canonical: saved and prepared again they are the same, with
      the same processors. */
  lemma AcceptedIsCanonical(r: Registry, body: Json)
    requires RegistryOk(r) && Prepare(r, body).Some?
    ensures Prepare(r, Saved(Prepare(r, body).value.state)) == Prepare(r, body)
  {
    var p := Prepare(r, body).value;
    ChainIsCanonical(r, body);
    SavedPrepares(r, p.state, p.processors);
  }

  lemma ChainIsCanonical(r: Registry, body: Json)
    requires RegistryOk(r) && body.Obj? && ChainOf(r, body).Some?
    ensures var ps := ChainOf(r, body).value; |ps| <= MAX_PROCESSORS && ItemsOf(r, ItemsJson(ps)) == Some(ps)
  {
    if body.Has("chain") {
      ItemsAreCanonical(r, body.At("chain").items);
    } else {
      assert ItemsJson([]) == [];
    }
  }

  lemma SavedPrepares(r: Registry, s: RouteDspState, ps: seq<Processor>)
    requires GainOk(s.gain) && s.chain == Arr(ItemsJson(ps)) && !s.warning
    requires |ps| <= MAX_PROCESSORS && ItemsOf(r, ItemsJson(ps)) == Some(ps)
    ensures Prepare(r, Saved(s)) == Some(Prepared(s, ps))
  {
    var body := Saved(s);
    assert ActiveOf(body) == Some(s.active) && GainOf(body) == Some(s.gain);
    assert ChainOf(r, body) == Some(ps);
  }

  lemma GainIsKept(r: Registry, id: nat, dsp: Json)
    ensures GainOk(Restore(r, id, dsp).state.gain) && Restore(r, id, dsp).state.gain == Restore(r, id, dsp).executed.gain
    ensures Restore(r, id, dsp).state.active == Restore(r, id, dsp).executed.active
  {
  }

  /** Saving and loading keep what a route's DSP does, whatever the settings file held: what was
      audible stays exactly as it was, and what was bypassed stays bypassed. */
  lemma EffectIsKept(r: Registry, id: nat, dsp: Json)
    requires RegistryOk(r)
    ensures var once := Restore(r, id, dsp);
      Effective(Restore(r, id, Saved(once.state)).executed) == Effective(once.executed)
  {
    if Supported(id) && Prepare(r, dsp).Some? {
      AcceptedIsCanonical(r, dsp);
    }
  }

  /** After one load, save and load, further rounds change nothing at all. */
  lemma SecondRoundIsFixed(r: Registry, id: nat, dsp: Json)
    requires RegistryOk(r)
    ensures var once := Restore(r, id, dsp); var twice := Restore(r, id, Saved(once.state));
      Restore(r, id, Saved(twice.state)) == twice
  {
    var once := Restore(r, id, dsp);
    if Supported(id) && Prepare(r, dsp).Some? {
      AcceptedIsCanonical(r, dsp);
    }
    var twice := Restore(r, id, Saved(once.state));
    if Supported(id) && Prepare(r, Saved(once.state)).Some? {
      AcceptedIsCanonical(r, Saved(once.state));
    } else {
      assert twice.state == Bypassed(Saved(once.state));
      assert !once.state.active;
      assert Saved(twice.state) == Saved(once.state);
    }
  }

  /** The result of loading, and then saving and loading n times more. */
  function Rounds(r: Registry, id: nat, dsp: Json, n: nat): Restored {
    if n == 0 then Restore(r, id, dsp) else Restore(r, id, Saved(Rounds(r, id, dsp, n - 1).state))
  }

  /** So over any number of rounds the effect is that of the first load, and from the second round
      on the settings themselves stand still. */
  lemma {:induction false} RoundsStandStill(r: Registry, id: nat, dsp: Json, n: nat)
    requires RegistryOk(r)
    ensures Effective(Rounds(r, id, dsp, n).executed) == Effective(Restore(r, id, dsp).executed)
    ensures n >= 1 ==> Rounds(r, id, dsp, n) == Rounds(r, id, dsp, 1)
  {
    if n > 0 {
      RoundsStandStill(r, id, dsp, n - 1);
      EffectIsKept(r, id, dsp);
      if n > 1 {
        SecondRoundIsFixed(r, id, dsp);
      }
    }
  }

  /** Settings that could not be prepared never become audible, however often they are saved and
      loaded. */
  lemma InvalidStaysSilent(r: Registry, id: nat, dsp: Json, n: nat)
    requires RegistryOk(r) && Prepare(r, dsp).None?
    ensures Effective(Rounds(r, id, dsp, n).executed).None? && !Rounds(r, id, dsp, n).state.active
  {
    RoundsStandStill(r, id, dsp, n);
    if n > 0 {
      GainIsKept(r, id, Saved(Rounds(r, id, dsp, n - 1).state));
    }
  }

  /** Saving and loading once changes the chain that is kept. */
  predicate Rewrites(r: Registry, id: nat, dsp: Json) {
    Restore(r, id, Saved(Restore(r, id, dsp).state)).state.chain != Restore(r, id, dsp).state.chain
  }

  /** It never does for settings that were accepted or that the engine has no slot for. */
  lemma AcceptedIsNotRewritten(r: Registry, id: nat, dsp: Json)
    requires RegistryOk(r) && (Prepare(r, dsp).Some? || !Supported(id))
    ensures !Rewrites(r, id, dsp)
  {
    if Supported(id) {
      AcceptedIsCanonical(r, dsp);
    }
  }

  /** The chain that is kept is one that could be prepared, but not in its normal form. */
  predicate ChainUnnormalized(r: Registry, dsp: Json)
    requires dsp.Obj?
  {
    dsp.Has("chain") && ChainOf(r, dsp).Some? && dsp.At("chain") != Arr(ItemsJson(ChainOf(r, dsp).value))
  }

  /** One round rewrites the chain exactly when a supported route's settings were bypassed for their
      switch or gain alone, and their chain, valid in itself, was not in the normal form that a
      second load gives it. */
  lemma RewritesIff(r: Registry, id: nat, dsp: Json)
    requires RegistryOk(r)
    ensures Rewrites(r, id, dsp) <==>
      && Supported(id) && dsp.Obj? && (ActiveOf(dsp).None? || GainOf(dsp).None?) && ChainUnnormalized(r, dsp)
  {
    if Prepare(r, dsp).Some? || !Supported(id) {
      AcceptedIsNotRewritten(r, id, dsp);
    } else {
      BypassedRound(r, id, dsp);
    }
  }

  /** The second load of settings that were bypassed. */
  lemma BypassedRound(r: Registry, id: nat, dsp: Json)
    requires Supported(id) && Prepare(r, dsp).None?
    ensures var kept := Bypassed(dsp);
      var chain := ChainOf(r, Saved(kept));
      Restore(r, id, dsp).state == kept
      && Restore(r, id, Saved(kept)).state.chain == if chain.Some? then Arr(ItemsJson(chain.value)) else kept.chain
    ensures dsp.Has("chain") ==> Saved(Bypassed(dsp)).At("chain") == dsp.At("chain")
    ensures !dsp.Has("chain") ==> ChainOf(r, Saved(Bypassed(dsp))) == Some([]) && Bypassed(dsp).chain == Arr([])
  {
    var body := Saved(Bypassed(dsp));
    assert ActiveOf(body) == Some(false) && GainOf(body) == Some(Bypassed(dsp).gain);
  }

  lemma DefaultFills(r: Registry, d: Descriptor, p: Parameter)
    requires p.id == "gain" && p.default == Real(1.0) && ValidValue(p, p.default) && d.parameters == [p]
    requires r == map["gain" := d]
    ensures CreateOf(r, "gain", Obj(map[])) == Some(map["gain" := Real(1.0)])
  {
    assert Normalized([p], map[], 0) == Some(map[]);
    assert Normalized([p], map[], 1) == Some(map["gain" := Real(1.0)]);
  }

  lemma GainIsWellFormed(r: Registry, d: Descriptor, p: Parameter)
    requires p == Parameter("gain", "Gain", "number", Real(1.0), None, None, None, "", [])
    requires d == Descriptor("gain", "Gain", "", [p], true) && r == map["gain" := d]
    ensures RegistryOk(r) && ValidValue(p, p.default)
  {
    assert ParameterOk(p);
  }

  /** An item without parameters is not in the normal form that fills in the default. */
  lemma BareItemUnnormalized(r: Registry, item: Json, dsp: Json)
    requires item == Obj(map["type" := Str("gain"), "params" := Obj(map[])])
    requires CreateOf(r, "gain", Obj(map[])) == Some(map["gain" := Real(1.0)])
    requires dsp.Has("chain") && dsp.At("chain") == Arr([item])
    ensures ChainUnnormalized(r, dsp)
  {
    var run := Processor("gain", map["gain" := Real(1.0)]);
    assert ItemOf(r, item) == Some(run);
    assert [item][..0] == [] && [item][..1] == [item];
    assert ItemsOf(r, []) == Some([]);
    ItemsNext(r, [item], 0);
    var none: seq<Processor> := [];
    assert none + [run] == [run];
    assert ItemsJson([run])[0] == ItemJson(run);
    assert "gain" in ItemJson(run).At("params").fields;
    assert ItemsJson([run])[0] != [item][0];
  }

  /** With an ill-typed switch, such a chain is bypassed, and rewritten by the next round. */
  lemma IllTypedSwitchRewrites(r: Registry, d: Descriptor, p: Parameter, item: Json, id: nat, dsp: Json)
    requires p == Parameter("gain", "Gain", "number", Real(1.0), None, None, None, "", [])
    requires d == Descriptor("gain", "Gain", "", [p], true) && r == map["gain" := d] && Supported(id)
    requires item == Obj(map["type" := Str("gain"), "params" := Obj(map[])])
    requires dsp == Obj(map["active" := Int(1), "chain" := Arr([item])])
    ensures RegistryOk(r) && Rewrites(r, id, dsp)
  {
    GainIsWellFormed(r, d, p);
    DefaultFills(r, d, p);
    BareItemUnnormalized(r, item, dsp);
    RewritesIff(r, id, dsp);
  }

  /** One round alone may still rewrite a chain: with an ill-typed `active` the first load keeps
      the chain verbatim, and the second fills in defaults. */
  lemma OneRoundMayRewrite() returns (r: Registry, id: nat, dsp: Json)
    ensures RegistryOk(r) && Rewrites(r, id, dsp)
  {
    var p := Parameter("gain", "Gain", "number", Real(1.0), None, None, None, "", []);
    var d := Descriptor("gain", "Gain", "", [p], true);
    var item := Obj(map["type" := Str("gain"), "params" := Obj(map[])]);
    r, id, dsp := map["gain" := d], 1, Obj(map["active" := Int(1), "chain" := Arr([item])]);
    IllTypedSwitchRewrites(r, d, p, item, id, dsp);
  }
}
