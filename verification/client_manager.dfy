/** The client manager: the maps, the routes, the counters and the settings cache, changed in place,
    together with the engine's DSP slots that it publishes to. */
module ClientManagers {
  import AudioGraph
  import opened DspSettings
  import opened JsonValues
  import opened Limits
  import opened NodeRegistry
  import opened ProcessorRegistries
  import opened Routing
  import opened SettingsFile
  import opened Wrappers

  class ClientManager {
    const registry: ProcessorRegistry
    var endpointToId: map<string, nat>
    var idToEndpoint: map<nat, string>
    var nextNode: nat
    var routes: seq<AudioRoute>
    var nextRoute: nat
    var devices: seq<string>
    var names: map<string, string>
    var cache: map<nat, RouteDspState>
    var slots: map<nat, Executed>

    constructor (registry: ProcessorRegistry)
      ensures this.registry == registry && Value() == Initial()
    {
      this.registry := registry;
      endpointToId, idToEndpoint, nextNode := map[], map[], 1;
      routes, nextRoute, devices, names := [], 1, [], map[];
      cache, slots := map[], map[];
    }

    function NodesValue(): Nodes
      reads this
    {
      Nodes(endpointToId, idToEndpoint, nextNode)
    }

    function Value(): Manager
      reads this
    {
      Manager(NodesValue(), routes, nextRoute, devices, names, cache, slots)
    }

    // ---------- Nodes ----------

    method GetEndpoint(id: int) returns (e: string)
      ensures e == EndpointOf(NodesValue(), id)
    {
      if id == 0 {
        return TONE;
      }
      e := if id > 0 && id in idToEndpoint then idToEndpoint[id] else "";
    }

    method RegisterNode(e: string) returns (id: int)
      modifies this`endpointToId, this`idToEndpoint, this`nextNode
      ensures NodesValue() == Register(old(NodesValue()), e) && id == NodeId(NodesValue(), e)
    {
      if e == TONE {
        return 0;
      }
      if e in endpointToId {
        return endpointToId[e];
      }
      if nextNode >= MAX_NODES {
        return NODE_INVALID;
      }
      id := nextNode;
      nextNode := nextNode + 1;
      endpointToId := endpointToId[e := id];
      idToEndpoint := idToEndpoint[id := e];
    }

    // ---------- Routes ----------

    method CheckChannel(live: seq<Live>, endpoint: string, channel: nat, isSource: bool) returns (ok: bool)
      ensures ok == Fits(live, endpoint, channel, isSource)
    {
      if endpoint == TONE {
        return isSource && channel == 0;
      }
      for i := 0 to |live|
        invariant Fits(live, endpoint, channel, isSource) == Fits(live[i..], endpoint, channel, isSource)
      {
        if live[i].endpoint == endpoint {
          return isSource == live[i].capture && channel < live[i].channels;
        }
        assert live[i..][1..] == live[i + 1..];
      }
      ok := true;
    }

    method HasEdge(r: AudioRoute) returns (found: bool)
      ensures found == exists i :: 0 <= i < |routes| && SameEdge(routes[i], r)
    {
      for i := 0 to |routes|
        invariant forall j :: 0 <= j < i ==> !SameEdge(routes[j], r)
      {
        if SameEdge(routes[i], r) {
          return true;
        }
      }
      found := false;
    }

    /** A route is added only if everything about it is in order; a refused one changes nothing. */
    method AddRoute(r: AudioRoute, live: seq<Live>) returns (ok: bool, given: nat)
      modifies this`routes, this`nextRoute
      ensures Value() == Routing.AddRoute(old(Value()), r, live) && ok == Addable(old(Value()), r, live)
      ensures ok ==> given == old(nextRoute)
    {
      ok, given := false, 0;
      if r.sourceChannel >= MAX_CHANNELS || r.destinationChannel >= MAX_CHANNELS || r.gain < 0.0 || r.gain > 8.0 {
        return;
      }
      if r.source < 0 || r.destination < 0 || r.source >= MAX_NODES || r.destination >= MAX_NODES {
        return;
      }
      var source := GetEndpoint(r.source);
      var destination := GetEndpoint(r.destination);
      if source == "" || destination == "" {
        return;
      }
      var sourceFits := CheckChannel(live, source, r.sourceChannel, true);
      var destinationFits := CheckChannel(live, destination, r.destinationChannel, false);
      if !sourceFits || !destinationFits {
        return;
      }
      var found := HasEdge(r);
      if found || nextRoute == MAX_ROUTE_ID {
        return;
      }
      ok, given := true, nextRoute;
      nextRoute := nextRoute + 1;
      routes := routes + [r.(id := given)];
    }

    method RemoveRoute(id: nat) returns (ok: bool)
      modifies this`routes, this`cache
      ensures Value() == Routing.RemoveRoute(old(Value()), id) && ok == Exists(old(routes), id)
    {
      var rest: seq<AudioRoute> := [];
      for i := 0 to |routes|
        invariant Value() == old(Value()) && rest == Others(routes[..i], id)
        invariant |rest| == i <==> !Exists(routes[..i], id)
        invariant |rest| <= i
      {
        assert routes[..i + 1][..i] == routes[..i];
        ExistsNext(routes, id, i);
        if routes[i].id != id {
          rest := rest + [routes[i]];
        }
      }
      assert routes[..|routes|] == routes;
      ok := |rest| != |routes|;
      if ok {
        routes := rest;
        cache := cache - {id};
      }
    }

    /** The position of the first route with this ID, or the number of routes. */
    method Find(id: nat) returns (k: nat)
      ensures Exists(routes, id) <==> k < |routes|
      ensures Exists(routes, id) ==> k == IndexOf(routes, id)
      ensures k <= |routes|
    {
      k := 0;
      while k < |routes| && routes[k].id != id
        invariant k <= |routes| && forall i :: 0 <= i < k ==> routes[i].id != id
      {
        k := k + 1;
      }
    }

    method UpdateRoute(id: nat, gain: real, enabled: bool) returns (ok: bool)
      modifies this`routes
      ensures Value() == Routing.UpdateRoute(old(Value()), id, gain, enabled)
      ensures ok == (GainOk(gain) && Exists(old(routes), id))
    {
      if gain < 0.0 || gain > 8.0 {
        return false;
      }
      var k := Find(id);
      if k == |routes| {
        return false;
      }
      routes := routes[k := routes[k].(gain := gain, enabled := enabled)];
      ok := true;
    }

    // ---------- DSP settings ----------

    /** Publication to the engine's slot; refused when it does not fit. */
    method UpdateRouteDsp(id: nat, p: Prepared) returns (ok: bool)
      modifies this`slots
      ensures ok == Installable(id, p) && slots == if ok then old(slots)[id := p.Execution()] else old(slots)
    {
      if !Supported(id) || |p.processors| > MAX_PROCESSORS || p.state.gain < 0.0 || p.state.gain > 8.0 {
        return false;
      }
      slots := slots[id := p.Execution()];
      ok := true;
    }

    method PostDsp(id: nat, body: Json) returns (ok: bool)
      requires registry.Valid()
      modifies this`cache, this`slots
      ensures Value() == Routing.PostDsp(registry.processors, old(Value()), id, body)
      ensures ok == Postable(registry.processors, old(Value()), id, body)
    {
      var k := Find(id);
      if k == |routes| || !Supported(id) {
        return false;
      }
      var prepared := PrepareRouteDsp(registry, body);
      if prepared.None? {
        return false;
      }
      PreparedIsInstallable(registry.processors, id, body);
      ok := UpdateRouteDsp(id, prepared.value);
      cache := cache[id := prepared.value.state];
    }

    method Apply(id: nat, body: Json) returns (ok: bool)
      requires registry.Valid()
      modifies this`routes, this`cache, this`slots
      ensures Value() == Routing.Apply(registry.processors, old(Value()), id, body)
      ensures ok == Applicable(registry.processors, old(Value()), id, body)
    {
      var k := Find(id);
      if k == |routes| || !Supported(id) {
        return false;
      }
      if !body.Has("gain") || !body.At("gain").IsNumber() || !body.Has("enabled") || !body.At("enabled").Bool? || !body.Has("dsp") {
        return false;
      }
      var gain := body.At("gain").Number();
      if gain < 0.0 || gain > 8.0 {
        return false;
      }
      var prepared := PrepareRouteDsp(registry, body.At("dsp"));
      if prepared.None? {
        return false;
      }
      ok := UpdateRoute(id, gain, body.At("enabled").b);
      PreparedIsInstallable(registry.processors, id, body.At("dsp"));
      ok := UpdateRouteDsp(id, prepared.value);
      cache := cache[id := prepared.value.state];
    }

    // ---------- Endpoints ----------

    method RegisterSides(first: string, second: string) returns (ok: bool)
      modifies this`endpointToId, this`idToEndpoint, this`nextNode
      ensures NodesValue() == RegisterPair(old(NodesValue()), first, second)
      ensures ok == (NodeId(NodesValue(), first) != NODE_INVALID && NodeId(NodesValue(), second) != NODE_INVALID)
    {
      var id := RegisterNode(first);
      if id == NODE_INVALID {
        return false;
      }
      ghost var n := NodesValue();
      var other := RegisterNode(second);
      assert NodeId(Register(n, second), first) == NodeId(n, first);
      ok := other != NODE_INVALID;
    }

    /** An activation request; `works` is the device manager's answer. */
    method Activate(id: string, works: bool) returns (ok: bool)
      modifies this`endpointToId, this`idToEndpoint, this`nextNode, this`devices
      ensures Value() == Routing.Activate(old(Value()), id, works)
      ensures ok == (works && BothKnown(NodesValue(), id))
    {
      var known := RegisterSides(CaptureOf(id), PlaybackOf(id));
      ok := known && works;
      if ok && id !in devices {
        devices := devices + [id];
      }
    }

    method Deactivate(id: string)
      modifies this`devices
      ensures Value() == Routing.Deactivate(old(Value()), id)
    {
      devices := Without(devices, id);
    }

    method ClaimIdentity(key: string, name: string, taken: bool) returns (ok: bool)
      modifies this`endpointToId, this`idToEndpoint, this`nextNode, this`names
      ensures Value() == Routing.Claim(old(Value()), key, name, taken)
    {
      if key == "" || taken {
        return false;
      }
      ok := RegisterSides(ClientCapture(key), ClientPlayback(key));
      if ok {
        names := names[key := if name == "" then key else name];
      }
    }

    // ---------- Saving ----------

    method SaveSettings(connected: map<string, string>) returns (file: Json)
      ensures file == Save(Value(), connected)
    {
      var items: seq<Json> := [];
      for i := 0 to |routes|
        invariant items == RoutesJson(Value(), i)
      {
        var r := routes[i];
        var source := GetEndpoint(r.source);
        var destination := GetEndpoint(r.destination);
        var fields: map<string, Json> :=
          map["id" := Int(r.id), "source" := Str(source), "source_channel" := Int(r.sourceChannel),
              "destination" := Str(destination), "destination_channel" := Int(r.destinationChannel),
              "gain" := Real(r.gain), "enabled" := Bool(r.enabled)];
        if r.id in cache {
          fields := fields["dsp" := Saved(cache[r.id])];
        }
        items := items + [Obj(fields)];
      }
      file := Obj(map["activated_devices" := Arr(Strings(devices)), "routes" := Arr(items),
                      "clients" := Obj(NamesJson(names + connected))]);
    }

    // ---------- Loading ----------

    method RestoreDevices(items: seq<Json>)
      modifies this`endpointToId, this`idToEndpoint, this`nextNode, this`devices
      ensures devices == DevicesOf(items) && NodesValue() == RegisterDevices(old(NodesValue()), DevicesOf(items))
    {
      devices := [];
      for i := 0 to |items|
        invariant devices == DevicesOf(items[..i]) && NodesValue() == RegisterDevices(old(NodesValue()), DevicesOf(items[..i]))
      {
        assert items[..i + 1][..i] == items[..i];
        if items[i].Str? {
          var id := items[i].s;
          ghost var before := devices;
          devices := devices + [id];
          assert devices[..|devices| - 1] == before;
          var _ := RegisterNode(CaptureOf(id));
          var _ := RegisterNode(PlaybackOf(id));
        }
      }
      assert items[..|items|] == items;
    }

    /** The loop's state, as its specification sees it. */
    function LoopValue(loaded: seq<AudioRoute>, nextId: nat, accepted: seq<nat>, threw: bool): Loop
      reads this
    {
      Loop(NodesValue(), loaded, nextId, cache, slots, accepted, threw)
    }

    method RegisterEndpoint(e: string) returns (id: int)
      modifies this`endpointToId, this`idToEndpoint, this`nextNode
      ensures NodesValue() == RegisterNamed(old(NodesValue()), e) && id == IdOrInvalid(NodesValue(), e)
    {
      if e == "" {
        return NODE_INVALID;
      }
      id := RegisterNode(e);
    }

    /** The settings of one accepted entry: a chain that cannot be prepared is kept and bypassed. */
    method RestoreDsp(id: nat, dsp: Json)
      requires registry.Valid()
      modifies this`cache, this`slots
      ensures var restored := Restore(registry.processors, id, dsp);
        cache == old(cache)[id := restored.state]
        && slots == if Supported(id) then old(slots)[id := restored.executed] else old(slots)
    {
      var state := NO_DSP;
      if dsp.Obj? {
        if dsp.Has("chain") {
          state := state.(chain := dsp.At("chain"));
        }
        if dsp.Has("gain") && dsp.At("gain").IsNumber() {
          var gain := dsp.At("gain").Number();
          if 0.0 <= gain && gain <= 8.0 {
            state := state.(gain := gain);
          }
        }
      }
      var prepared: Option<Prepared> := None;
      if Supported(id) {
        prepared := PrepareRouteDsp(registry, dsp);
      }
      var processors: seq<Processor> := [];
      if prepared.Some? {
        state, processors := prepared.value.state, prepared.value.processors;
      } else {
        state := state.(active := false, warning := true);
      }
      if Supported(id) {
        slots := slots[id := Executed(state.active, state.gain, processors)];
      }
      cache := cache[id := state];
    }

    /** One route entry. */
    method ReadEntry(v: Json, index: nat, loaded: seq<AudioRoute>, nextId: nat, ghost accepted: seq<nat>)
      returns (loaded': seq<AudioRoute>, nextId': nat, ghost accepted': seq<nat>, threw: bool)
      requires registry.Valid()
      modifies this`endpointToId, this`idToEndpoint, this`nextNode, this`cache, this`slots
      ensures LoopValue(loaded', nextId', accepted', threw)
              == EntryStep(registry.processors, old(LoopValue(loaded, nextId, accepted, false)), v, index)
    {
      loaded', nextId', accepted', threw := loaded, nextId, accepted, false;
      if PersistedId(v).None? {
        return;
      }
      var id := PersistedId(v).value;
      if TextOf(v, "source").None? || TextOf(v, "destination").None? {
        threw := true;
        return;
      }
      var source := RegisterEndpoint(TextOf(v, "source").value);
      ghost var between := NodesValue();
      var destination := RegisterEndpoint(TextOf(v, "destination").value);
      if FieldsOf(v).None? {
        threw := true;
        return;
      }
      var f := FieldsOf(v).value;
      SourceStays(between, TextOf(v, "source").value, TextOf(v, "destination").value);
      var route := AudioGraph.AudioRoute(id, source, f.sourceChannel, destination, f.destinationChannel, f.gain, f.enabled);
      if !Acceptable(route) {
        return;
      }
      loaded', accepted' := loaded + [route], accepted + [index];
      nextId' := Max(nextId, if id == MAX_ROUTE_ID then MAX_ROUTE_ID else id + 1);
      if v.Has("dsp") {
        RestoreDsp(id, v.At("dsp"));
      }
    }

    /** The loop over route entries. */
    method ReadRoutes(items: seq<Json>) returns (loaded: seq<AudioRoute>, nextId: nat, ghost accepted: seq<nat>, threw: bool)
      requires registry.Valid() && cache == map[]
      modifies this`endpointToId, this`idToEndpoint, this`nextNode, this`cache, this`slots
      ensures LoopValue(loaded, nextId, accepted, threw)
              == LoadRoutes(registry.processors, Loop(old(NodesValue()), [], 1, map[], old(slots), [], false), items, |items|)
    {
      loaded, nextId, accepted, threw := [], 1, [], false;
      ghost var start := LoopValue([], 1, [], false);
      for i := 0 to |items|
        invariant LoopValue(loaded, nextId, accepted, false) == LoadRoutes(registry.processors, start, items, i) && !threw
      {
        loaded, nextId, accepted, threw := ReadEntry(items[i], i, loaded, nextId, accepted);
        if threw {
          ThrowEnds(registry.processors, start, items, i + 1, |items|);
          return;
        }
      }
    }

    /** Loading at startup. `readable` tells whether the sections before the devices could be read. */
    method LoadSettings(file: Json, readable: bool) returns (ok: bool)
      requires registry.Valid()
      modifies this
      ensures Loaded(Value(), ok) == Load(registry.processors, old(Value()), file, readable)
    {
      if !readable {
        return false;
      }
      RestoreDevices(ItemsAt(file, "activated_devices"));
      cache := map[];
      var loaded, nextId, accepted, threw := ReadRoutes(ItemsAt(file, "routes"));
      if threw {
        return false;
      }
      routes := loaded;
      nextRoute := nextId;
      names := NamesRead(ClientsOf(file));
      ok := AllNames(ClientsOf(file));
    }
  }

  lemma ExistsNext(routes: seq<AudioRoute>, id: nat, i: nat)
    requires i < |routes|
    ensures Exists(routes[..i + 1], id) <==> Exists(routes[..i], id) || routes[i].id == id
  {
    if Exists(routes[..i + 1], id) {
      var j :| 0 <= j < i + 1 && routes[..i + 1][j].id == id;
      if j < i {
        assert routes[..i][j].id == id;
      }
    }
    if Exists(routes[..i], id) {
      var j :| 0 <= j < i && routes[..i][j].id == id;
      assert routes[..i + 1][j].id == id;
    }
    if routes[i].id == id {
      assert routes[..i + 1][i].id == id;
    }
  }

  /** Registering the destination does not change what the source got, not even when it got none. */
  lemma SourceStays(n: Nodes, source: string, destination: string)
    ensures IdOrInvalid(n, source) != NODE_INVALID ==> IdOrInvalid(RegisterNamed(n, destination), source) == IdOrInvalid(n, source)
    ensures n.next >= MAX_NODES ==> IdOrInvalid(RegisterNamed(n, destination), source) == IdOrInvalid(n, source)
  {
  }

  lemma {:induction false} ThrowEnds(r: Registry, l: Loop, items: seq<Json>, i: nat, k: nat)
    requires i <= k <= |items| && LoadRoutes(r, l, items, i).threw
    ensures LoadRoutes(r, l, items, k) == LoadRoutes(r, l, items, i)
    decreases k
  {
    if i < k {
      ThrowEnds(r, l, items, i, k - 1);
    }
  }
}
