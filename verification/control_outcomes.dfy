/** When each control operation succeeds, and exactly what it then changes, over the arguments and
    the stored state alone. */
module ControlOutcomes {
  import AudioGraph
  import opened DspSettings
  import opened JsonValues
  import opened NodeRegistry
  import opened ProcessorRegistries
  import opened Routing
  import opened Wrappers

  // ---------- Parameter values ----------

  /** Whether a parameter takes a value depends on its declared kind: numbers within the bounds, whole
      ones for an integer, the right type for the others, and one of the choices, numbers compared by
      value. No other kind takes any value. */
  lemma ValueIsTakenIff(p: Parameter, v: Json)
    ensures p.kind == "boolean" ==> (ValidValue(p, v) <==> v.Bool?)
    ensures p.kind == "string" ==> (ValidValue(p, v) <==> v.Str?)
    ensures p.kind == "number" || p.kind == "integer" ==>
              (ValidValue(p, v) <==>
                 exists x: real :: Worth(v, x) && (p.min.Some? ==> p.min.value <= x) && (p.max.Some? ==> x <= p.max.value)
                                   && (p.kind == "integer" ==> x.Floor as real == x))
    ensures p.kind == "enum" ==>
              (ValidValue(p, v) <==>
                 exists i :: 0 <= i < |p.choices| && Alike(p.choices[i].value, v))
    ensures p.kind !in {"boolean", "string", "number", "integer", "enum"} ==> !ValidValue(p, v)
  {
    if v.Int? || v.Real? {
      assert Worth(v, v.Number());
    }
    if p.kind == "enum" {
      forall i | 0 <= i < |p.choices| ensures Same(p.choices[i].value, v) <==> Alike(p.choices[i].value, v) {
        SameIff(p.choices[i].value, v);
      }
    }
  }

  /** A JSON number with this value. */
  predicate Worth(v: Json, x: real) {
    (v.Int? && v.i as real == x) || (v.Real? && v.r == x)
  }

  /** Equal as a choice: the same value, or numbers of the same worth. */
  ghost predicate Alike(a: Json, b: Json) {
    a == b || exists x: real :: Worth(a, x) && Worth(b, x)
  }

  lemma SameIff(a: Json, b: Json)
    ensures Same(a, b) <==> Alike(a, b)
  {
    if a.IsNumber() && b.IsNumber() && a.Number() == b.Number() {
      assert Worth(a, a.Number()) && Worth(b, a.Number());
    }
  }

  predicate Unbounded(p: Parameter) {
    p.min.None? && p.max.None? && p.step.None?
  }

  /** A number's default within the bounds already makes the bounds consistent. */
  ghost predicate SaneNumber(p: Parameter) {
    && p.choices == [] && (p.step.Some? ==> p.step.value > 0.0)
    && exists x: real :: Worth(p.default, x) && (p.min.Some? ==> p.min.value <= x) && (p.max.Some? ==> x <= p.max.value)
                         && (p.kind == "integer" ==> x.Floor as real == x)
  }

  ghost predicate SaneEnum(p: Parameter) {
    && Unbounded(p)
    && (forall i :: 0 <= i < |p.choices| ==>
          p.choices[i].value.Bool? || p.choices[i].value.Int? || p.choices[i].value.Real? || p.choices[i].value.Str?)
    && (forall i, j :: 0 <= i < j < |p.choices| ==> !Alike(p.choices[i].value, p.choices[j].value))
    && exists i :: 0 <= i < |p.choices| && Alike(p.choices[i].value, p.default)
  }

  ghost predicate Sane(p: Parameter) {
    && p.id != ""
    && if p.kind == "number" || p.kind == "integer" then SaneNumber(p)
       else if p.kind == "boolean" then Unbounded(p) && p.choices == [] && p.default.Bool?
       else if p.kind == "string" then Unbounded(p) && p.choices == [] && p.default.Str?
       else p.kind == "enum" && SaneEnum(p)
  }

  lemma ParameterIsTakenIff(p: Parameter)
    ensures ParameterOk(p) <==> Sane(p)
  {
    ValueIsTakenIff(p, p.default);
    forall i, j | 0 <= i < |p.choices| && 0 <= j < |p.choices|
      ensures Same(p.choices[i].value, p.choices[j].value) <==> Alike(p.choices[j].value, p.choices[i].value)
    {
      SameIff(p.choices[i].value, p.choices[j].value);
    }
    forall i | 0 <= i < |p.choices| ensures Same(p.choices[i].value, p.default) <==> Alike(p.choices[i].value, p.default) {
      SameIff(p.choices[i].value, p.default);
    }
  }

  /** A type may be registered if and only if it is named, can be built, and its parameters have
      different names, each with a default that it takes. */
  lemma DescriptorIsTakenIff(d: Descriptor)
    ensures WellFormed(d) <==>
      && d.kind != "" && d.name != "" && d.hasFactory
      && (forall i :: 0 <= i < |d.parameters| ==> Sane(d.parameters[i]))
      && forall i, j :: 0 <= i < |d.parameters| && 0 <= j < |d.parameters| && d.parameters[i].id == d.parameters[j].id ==> i == j
  {
    forall i | 0 <= i < |d.parameters| ensures ParameterOk(d.parameters[i]) <==> Sane(d.parameters[i]) {
      ParameterIsTakenIff(d.parameters[i]);
    }
  }

  // ---------- Preparing DSP settings ----------

  /** A chain item that names a registered type and gives it an object of parameters, each one a
      parameter of the type with a value that it takes. */
  ghost predicate Creatable(r: Registry, item: Json) {
    && item.Obj? && "type" in item.fields && item.fields["type"].Str? && item.fields["type"].s in r
    && "params" in item.fields && item.fields["params"].Obj?
    && forall id :: id in item.fields["params"].fields ==>
         exists i :: 0 <= i < |r[item.fields["type"].s].parameters|
                     && r[item.fields["type"].s].parameters[i].id == id
                     && ValidValue(r[item.fields["type"].s].parameters[i], item.fields["params"].fields[id])
  }

  /** The processor that an item creates: of its type, with every parameter of the type as given or
      by default, and no others. */
  ghost predicate Creates(r: Registry, item: Json, p: Processor)
    requires Creatable(r, item)
  {
    var ps, given := r[item.fields["type"].s].parameters, item.fields["params"].fields;
    && p.kind == item.fields["type"].s
    && (forall id :: id in p.params <==> exists i :: 0 <= i < |ps| && ps[i].id == id)
    && forall i :: 0 <= i < |ps| ==>
         ps[i].id in p.params && p.params[ps[i].id] == if ps[i].id in given then given[ps[i].id] else ps[i].default
  }

  lemma ItemIsCreatedIff(r: Registry, item: Json)
    requires RegistryOk(r)
    ensures ItemOf(r, item).Some? <==> Creatable(r, item)
    ensures ItemOf(r, item).Some? ==> Creates(r, item, ItemOf(r, item).value)
  {
    if item.Obj? && "type" in item.fields && item.fields["type"].Str? && item.fields["type"].s in r
       && "params" in item.fields && item.fields["params"].Obj? {
      var kind, params := item.fields["type"].s, item.fields["params"];
      CreateMeans(r, kind, params);
      if CreateOf(r, kind, params).Some? {
        forall i | 0 <= i < |r[kind].parameters|
          ensures Chosen(r[kind].parameters[i], params.fields, ItemOf(r, item).value.params)
        {
        }
      }
    }
  }

  ghost predicate AllCreatable(r: Registry, items: seq<Json>) {
    forall i :: 0 <= i < |items| ==> Creatable(r, items[i])
  }

  /** The processors that the items create, in order. */
  ghost predicate AllCreate(r: Registry, items: seq<Json>, ps: seq<Processor>)
    requires AllCreatable(r, items)
  {
    |ps| == |items| && forall i :: 0 <= i < |items| ==> Creates(r, items[i], ps[i])
  }

  lemma OneMore(r: Registry, items: seq<Json>, item: Json)
    ensures AllCreatable(r, items + [item]) <==> AllCreatable(r, items) && Creatable(r, item)
  {
    var more := items + [item];
    if AllCreatable(r, more) {
      assert more[|items|] == item;
      forall i | 0 <= i < |items| ensures Creatable(r, items[i]) {
        assert more[i] == items[i];
      }
    }
  }

  lemma OneMoreCreates(r: Registry, items: seq<Json>, ps: seq<Processor>, item: Json, p: Processor)
    requires AllCreatable(r, items) && AllCreate(r, items, ps) && Creatable(r, item) && Creates(r, item, p)
    requires AllCreatable(r, items + [item])
    ensures AllCreate(r, items + [item], ps + [p])
  {
  }

  lemma {:induction false} ItemsAreCreatedIff(r: Registry, items: seq<Json>)
    requires RegistryOk(r)
    ensures ItemsOf(r, items).Some? <==> AllCreatable(r, items)
    ensures ItemsOf(r, items).Some? ==> AllCreate(r, items, ItemsOf(r, items).value)
  {
    if items != [] {
      var n := |items| - 1;
      var before, item := items[..n], items[n];
      assert items == before + [item];
      ItemsAreCreatedIff(r, before);
      ItemIsCreatedIff(r, item);
      OneMore(r, before, item);
      if ItemsOf(r, items).Some? {
        OneMoreCreates(r, before, ItemsOf(r, before).value, item, ItemOf(r, item).value);
      }
    }
  }

  /** A body is a switch, a gain and a chain, each of which may be missing. */
  ghost predicate Preparable(r: Registry, body: Json) {
    && body.Obj?
    && ("active" in body.fields ==> body.fields["active"].Bool?)
    && ("gain" in body.fields ==> exists x: real :: Worth(body.fields["gain"], x) && 0.0 <= x <= 8.0)
    && ("chain" in body.fields ==>
          body.fields["chain"].Arr? && |body.fields["chain"].items| <= 16 && AllCreatable(r, body.fields["chain"].items))
  }

  /** What these settings say, for the cache and for the engine. */
  ghost predicate Says(r: Registry, body: Json, state: RouteDspState, e: Executed)
    requires Preparable(r, body)
  {
    && !state.warning
    && e.active == state.active == ("active" in body.fields && body.fields["active"].b)
    && e.gain == state.gain && (if "gain" in body.fields then Worth(body.fields["gain"], state.gain) else state.gain == 1.0)
    && (if "chain" in body.fields then AllCreate(r, body.fields["chain"].items, e.processors) else e.processors == [])
    && Keeps(state.chain, e.processors)
  }

  /** The chain that is kept and saved: each processor's type and all its parameters, in order. */
  predicate Keeps(chain: Json, ps: seq<Processor>) {
    && chain.Arr? && |chain.items| == |ps|
    && forall i :: 0 <= i < |ps| ==>
         chain.items[i] == Obj(map["type" := Str(ps[i].kind), "params" := Obj(ps[i].params)])
  }

  lemma GainIsTakenIff(body: Json)
    requires body.Obj?
    ensures GainOf(body).Some? <==>
              ("gain" in body.fields ==> exists x: real :: Worth(body.fields["gain"], x) && 0.0 <= x <= 8.0)
    ensures GainOf(body).Some? ==>
              if "gain" in body.fields then Worth(body.fields["gain"], GainOf(body).value) else GainOf(body).value == 1.0
  {
    if "gain" in body.fields && body.fields["gain"].IsNumber() {
      assert Worth(body.fields["gain"], body.fields["gain"].Number());
    }
  }

  /** Settings are accepted if and only if every part that is there is in order, and then the cache
      keeps and the engine executes exactly what they say. */
  lemma PreparedIff(r: Registry, body: Json)
    requires RegistryOk(r)
    ensures Prepare(r, body).Some? <==> Preparable(r, body)
    ensures Preparable(r, body) ==> Says(r, body, Prepare(r, body).value.state, Prepare(r, body).value.Execution())
  {
    if body.Obj? {
      GainIsTakenIff(body);
      if "chain" in body.fields && body.fields["chain"].Arr? {
        ItemsAreCreatedIff(r, body.fields["chain"].items);
      }
    }
  }

  /** Loading settings that are not in order, or for a route without a slot, keeps the chain as it is
      written and a gain within the bounds, marks them, and executes nothing. */
  lemma RestoredIff(r: Registry, id: nat, dsp: Json)
    requires RegistryOk(r)
    ensures var t := Restore(r, id, dsp);
      if 0 < id < 1024 && Preparable(r, dsp) then Says(r, dsp, t.state, t.executed)
      else
        && t.state.warning && !t.state.active && t.executed == Executed(false, t.state.gain, [])
        && t.state.chain == (if dsp.Obj? && "chain" in dsp.fields then dsp.fields["chain"] else Arr([]))
        && if dsp.Obj? && "gain" in dsp.fields && exists x: real :: Worth(dsp.fields["gain"], x) && 0.0 <= x <= 8.0
           then Worth(dsp.fields["gain"], t.state.gain) else t.state.gain == 1.0
  {
    PreparedIff(r, dsp);
    if dsp.Obj? {
      GainIsTakenIff(dsp);
    }
  }

  // ---------- Routes ----------

  /** A channel fits when it is the tone's channel 0 as a source, when the first live endpoint of that
      name has the direction and the channel, or when nothing live has the name. */
  lemma {:induction false} FitsIff(live: seq<Live>, endpoint: string, channel: nat, isSource: bool, i: nat)
    requires i <= |live| && (forall j :: 0 <= j < i ==> live[j].endpoint != endpoint)
    requires i < |live| ==> live[i].endpoint == endpoint
    ensures Fits(live, endpoint, channel, isSource) <==>
      if endpoint == "tone/generator" then isSource && channel == 0
      else i < |live| ==> (live[i].capture <==> isSource) && channel < live[i].channels
  {
    if i > 0 && endpoint != "tone/generator" {
      FitsIff(live[1..], endpoint, channel, isSource, i - 1);
    }
  }

  /** The endpoint of a node whose ID was given out. */
  function NameOf(n: Nodes, id: int): string
    requires NodesOk(n) && 0 <= id < n.next
  {
    if id == 0 then "tone/generator" else n.endpoints[id]
  }

  lemma NamedIff(n: Nodes, id: int)
    requires NodesOk(n)
    ensures EndpointOf(n, id) != "" <==> 0 <= id < n.next
    ensures 0 <= id < n.next ==> EndpointOf(n, id) == NameOf(n, id)
  {
    if 0 < id < n.next {
      assert id as nat in n.endpoints;
    }
  }

  /** A route is added if and only if its channels are below 254, its gain is between 0 and 8, both
      nodes have been given out, both channels fit, no route has the same edge and the IDs are not
      used up; it then gets the next ID. */
  lemma AddedIff(registry: Registry, m: Manager, r: AudioRoute, live: seq<Live>)
    requires NodesOk(m.nodes)
    ensures Step(registry, m, Add(r, live)) ==
      if && r.sourceChannel < 254 && r.destinationChannel < 254 && 0.0 <= r.gain <= 8.0
         && 0 <= r.source < m.nodes.next && 0 <= r.destination < m.nodes.next
         && Fits(live, NameOf(m.nodes, r.source), r.sourceChannel, true)
         && Fits(live, NameOf(m.nodes, r.destination), r.destinationChannel, false)
         && m.nextRoute != 4294967295
         && !(exists i :: 0 <= i < |m.routes|
                          && m.routes[i].source == r.source && m.routes[i].sourceChannel == r.sourceChannel
                          && m.routes[i].destination == r.destination && m.routes[i].destinationChannel == r.destinationChannel)
      then m.(routes := m.routes + [AudioGraph.AudioRoute(m.nextRoute, r.source, r.sourceChannel, r.destination,
                                                           r.destinationChannel, r.gain, r.enabled)],
              nextRoute := m.nextRoute + 1)
      else m
  {
    NamedIff(m.nodes, r.source);
    NamedIff(m.nodes, r.destination);
    forall i | 0 <= i < |m.routes|
      ensures SameEdge(m.routes[i], r) <==>
              && m.routes[i].source == r.source && m.routes[i].sourceChannel == r.sourceChannel
              && m.routes[i].destination == r.destination && m.routes[i].destinationChannel == r.destinationChannel
    {
    }
  }

  /** Removing an ID that no route has changes nothing; otherwise the routes with that ID and its
      settings go, and the engine's slot stays. */
  lemma RemovedIff(registry: Registry, m: Manager, id: nat, route: AudioRoute)
    ensures var t := Step(registry, m, Remove(id));
      && (route in t.routes <==> route in m.routes && route.id != id)
      && (if exists i :: 0 <= i < |m.routes| && m.routes[i].id == id
          then t == m.(routes := t.routes, cache := t.cache) && t.cache == (map k | k in m.cache && k != id :: m.cache[k])
          else t == m)
  {
    var rest := Others(m.routes, id);
    if route in rest {
      var i :| 0 <= i < |rest| && rest[i] == route;
    }
    if route in m.routes {
      var i :| 0 <= i < |m.routes| && m.routes[i] == route;
      assert Exists(m.routes, id) || m.routes[i].id != id;
    }
  }

  /** An update sets the gain and the switch of the first route with the ID, if the gain is between 0
      and 8; any other changes nothing. */
  lemma UpdatedIff(registry: Registry, m: Manager, id: nat, gain: real, enabled: bool, k: nat)
    requires k <= |m.routes| && (forall i :: 0 <= i < k ==> m.routes[i].id != id)
    requires k < |m.routes| ==> m.routes[k].id == id
    ensures Step(registry, m, Update(id, gain, enabled)) ==
      if k < |m.routes| && 0.0 <= gain <= 8.0 then
        var r := m.routes[k];
        m.(routes := m.routes[k := AudioGraph.AudioRoute(id, r.source, r.sourceChannel, r.destination, r.destinationChannel,
                                                         gain, enabled)])
      else m
  {
    if k < |m.routes| {
      assert Exists(m.routes, id);
      assert IndexOf(m.routes, id) == k;
    }
  }

  // ---------- A route's DSP ----------

  /** New settings of a route are taken if and only if the route exists, has a slot in the engine and
      every part of the settings is in order; cache and engine then say exactly that. */
  lemma PostedIff(r: Registry, m: Manager, id: nat, body: Json)
    requires RegistryOk(r)
    ensures var t := Step(r, m, Post(id, body));
      if (exists i :: 0 <= i < |m.routes| && m.routes[i].id == id) && 0 < id < 1024 && Preparable(r, body)
      then
        && t == m.(slots := m.slots[id := SlotOf(t.slots, id)], cache := m.cache[id := StateOf(t.cache, id)])
        && Says(r, body, StateOf(t.cache, id), SlotOf(t.slots, id))
      else t == m
  {
    PreparedIff(r, body);
  }

  /** The request to apply everything is complete and every part of it is in order. */
  ghost predicate Complete(r: Registry, body: Json) {
    && body.Obj? && "gain" in body.fields && "enabled" in body.fields && "dsp" in body.fields
    && (exists x: real :: Worth(body.fields["gain"], x) && 0.0 <= x <= 8.0)
    && body.fields["enabled"].Bool? && Preparable(r, body.fields["dsp"])
  }

  /** Applying is taken if and only if the route exists, has a slot and the request is complete; then
      the first route with the ID gets the gain and the switch, and cache and engine the settings. */
  lemma AppliedIff(r: Registry, m: Manager, id: nat, body: Json, k: nat, gain: real)
    requires RegistryOk(r)
    requires k <= |m.routes| && (forall i :: 0 <= i < k ==> m.routes[i].id != id)
    requires k < |m.routes| ==> m.routes[k].id == id
    requires Complete(r, body) ==> Worth(body.fields["gain"], gain)
    ensures var t := Step(r, m, ApplyAll(id, body));
      if k < |m.routes| && 0 < id < 1024 && Complete(r, body) then
        && t.routes == m.routes[k := AudioGraph.AudioRoute(id, m.routes[k].source, m.routes[k].sourceChannel, m.routes[k].destination,
                                                           m.routes[k].destinationChannel, gain, body.fields["enabled"].b)]
        && t == m.(routes := t.routes, slots := m.slots[id := SlotOf(t.slots, id)], cache := m.cache[id := StateOf(t.cache, id)])
        && Says(r, body.fields["dsp"], StateOf(t.cache, id), SlotOf(t.slots, id))
      else t == m
  {
    assert Step(r, m, ApplyAll(id, body)) == Apply(r, m, id, body);
    assert k < |m.routes| <==> Exists(m.routes, id);
    if k < |m.routes| {
      assert IndexOf(m.routes, id) == k;
    }
    if body.Obj? && "dsp" in body.fields {
      PreparedIff(r, body.fields["dsp"]);
    }
    if body.Obj? && "gain" in body.fields && body.fields["gain"].IsNumber() {
      assert Worth(body.fields["gain"], body.fields["gain"].Number());
    }
  }

  // ---------- Devices and clients ----------

  /** How many of the two endpoints have no ID yet. */
  function Missing(n: Nodes, first: string, second: string): nat {
    (if first in n.ids then 0 else 1) + if second in n.ids then 0 else 1
  }

  /** Two endpoints both have an ID afterwards if and only if there was room for those that had none;
      a new one gets the next ID, the first before the second, and no other endpoint is touched. */
  lemma PairIsKnownIff(n: Nodes, first: string, second: string)
    requires NodesOk(n) && first != second && first != "tone/generator" && second != "tone/generator"
    ensures var t := RegisterPair(n, first, second);
      && (first in t.ids && second in t.ids <==> n.next + Missing(n, first, second) <= 256)
      && (forall e :: e in n.ids ==> e in t.ids && t.ids[e] == n.ids[e])
      && (forall e :: e in t.ids ==> e in n.ids || e == first || e == second)
      && (first !in n.ids && n.next < 256 ==> first in t.ids && t.ids[first] == n.next)
      && (second !in n.ids && second in t.ids ==> t.ids[second] == if first in n.ids then n.next else n.next + 1)
  {
  }

  lemma PairNames(id: string)
    ensures CaptureOf(id) != PlaybackOf(id) && CaptureOf(id)[0] == PlaybackOf(id)[0] == 'h'
    ensures ClientCapture(id) != ClientPlayback(id) && ClientCapture(id)[0] == ClientPlayback(id)[0] == 'c'
  {
    assert |CaptureOf(id)| + 1 == |PlaybackOf(id)|;
    assert |ClientCapture(id)| + 1 == |ClientPlayback(id)|;
  }

  /** A device is listed as active afterwards if and only if it was before, or it works and both its
      endpoints have or get an ID. */
  lemma ActivatedIff(registry: Registry, m: Manager, id: string, works: bool)
    requires NodesOk(m.nodes)
    ensures var t := Step(registry, m, ActivateDevice(id, works));
      && t.nodes == RegisterPair(m.nodes, "hardware/" + id + "/capture", "hardware/" + id + "/playback")
      && t == m.(nodes := t.nodes, devices := t.devices)
      && t.devices ==
         if works && id !in m.devices
            && m.nodes.next + Missing(m.nodes, "hardware/" + id + "/capture", "hardware/" + id + "/playback") <= 256
         then m.devices + [id] else m.devices
  {
    PairNames(id);
    assert TONE[0] == 't';
    PairIsKnownIff(m.nodes, CaptureOf(id), PlaybackOf(id));
  }

  /** Deactivation takes the first entry of the device out of the list. */
  lemma DeactivatedIs(registry: Registry, m: Manager, id: string, k: nat)
    requires k <= |m.devices| && id !in m.devices[..k] && (k < |m.devices| ==> m.devices[k] == id)
    ensures Step(registry, m, DeactivateDevice(id)) ==
      m.(devices := if k < |m.devices| then m.devices[..k] + m.devices[k + 1..] else m.devices)
  {
    WithoutIs(m.devices, id, k);
  }

  lemma {:induction false} WithoutIs(devices: seq<string>, id: string, k: nat)
    requires k <= |devices| && id !in devices[..k] && (k < |devices| ==> devices[k] == id)
    ensures Without(devices, id) == if k < |devices| then devices[..k] + devices[k + 1..] else devices
  {
    if k > 0 {
      assert devices[..k][0] == devices[0];
      assert devices[1..][..k - 1] == devices[..k][1..];
      WithoutIs(devices[1..], id, k - 1);
    }
  }

  /** A claim is refused without a key or when another session has it; otherwise both endpoints of
      the key are registered, and the name is remembered if they have an ID. A missing name is the
      key itself. */
  lemma ClaimedIff(registry: Registry, m: Manager, key: string, name: string, taken: bool)
    requires NodesOk(m.nodes)
    ensures var t := Step(registry, m, ClaimIdentity(key, name, taken));
      if key == "" || taken then t == m
      else
        && t.nodes == RegisterPair(m.nodes, "client/" + key + "/capture", "client/" + key + "/playback")
        && t == m.(nodes := t.nodes, names := t.names)
        && t.names ==
           if m.nodes.next + Missing(m.nodes, "client/" + key + "/capture", "client/" + key + "/playback") <= 256
           then m.names[key := if name != "" then name else key] else m.names
  {
    assert Step(registry, m, ClaimIdentity(key, name, taken)) == Claim(m, key, name, taken);
    PairNames(key);
    assert TONE[0] == 't';
    PairIsKnownIff(m.nodes, ClientCapture(key), ClientPlayback(key));
  }
}
