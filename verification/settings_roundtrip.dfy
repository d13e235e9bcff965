/** Loading what was saved gives the same routes, although nodes are numbered anew. */
module SettingsRoundTrip {
  import AudioGraph
  import opened DspSettings
  import opened JsonValues
  import opened Limits
  import opened NodeRegistry
  import opened ProcessorRegistries
  import opened Routing
  import opened SettingsFile
  import opened Wrappers

  /** The same route between the same endpoints, whatever their IDs. */
  predicate SameRoute(n: Nodes, a: AudioRoute, n': Nodes, b: AudioRoute) {
    && a.id == b.id && a.gain == b.gain && a.enabled == b.enabled
    && a.sourceChannel == b.sourceChannel && a.destinationChannel == b.destinationChannel
    && EndpointOf(n, a.source) == EndpointOf(n', b.source) != ""
    && EndpointOf(n, a.destination) == EndpointOf(n', b.destination) != ""
  }

  // ---------- One entry ----------

  /** A saved entry reads back as what was saved. */
  lemma EntryReadsBack(m: Manager, route: AudioRoute)
    requires RouteOk(m.nodes, m.nextRoute, route) && m.nextRoute <= MAX_ROUTE_ID
    ensures var v := RouteJson(m, route);
      && PersistedId(v) == Some(route.id)
      && TextOf(v, "source") == Some(EndpointOf(m.nodes, route.source))
      && TextOf(v, "destination") == Some(EndpointOf(m.nodes, route.destination))
      && FieldsOf(v) == Some(Fields(route.sourceChannel, route.destinationChannel, route.gain, route.enabled))
      && (v.Has("dsp") <==> route.id in m.cache)
      && (v.Has("dsp") ==> v.At("dsp") == Saved(m.cache[route.id]))
  {
    var v := RouteJson(m, route);
    assert v.At("id") == Int(route.id) && v.At("gain") == Real(route.gain) && v.At("enabled") == Bool(route.enabled);
    assert v.At("source_channel") == Int(route.sourceChannel) && v.At("destination_channel") == Int(route.destinationChannel);
    assert v.At("source") == Str(EndpointOf(m.nodes, route.source));
    assert v.At("destination") == Str(EndpointOf(m.nodes, route.destination));
    SmallCount(route.sourceChannel);
    SmallCount(route.destinationChannel);
  }

  lemma SmallCount(c: nat)
    requires c < MAX_CHANNELS
    ensures ToCount(Int(c)) == Some(c)
  {
  }

  /** The endpoints of a saved entry always find IDs, and resolve back to what was saved. */
  lemma EntryResolves(n: Nodes, all: Nodes, source: string, destination: string)
    requires NodesOk(n) && NodesOk(all) && Within(n, all)
    requires source != "" && destination != "" && NodeId(all, source) != NODE_INVALID && NodeId(all, destination) != NODE_INVALID
    ensures var n' := EntryNodes(n, source, destination);
      && NodesOk(n') && Within(n', all)
      && NodeId(n', source) != NODE_INVALID && EndpointOf(n', NodeId(n', source)) == source
      && NodeId(n', destination) != NODE_INVALID && EndpointOf(n', NodeId(n', destination)) == destination
  {
    var first := Register(n, source);
    RoomForKnown(n, all, source);
    RegisterKeeps(n, source);
    RoomForKnown(first, all, destination);
    RegisterKeeps(first, destination);
    RegisterIsStable(first, destination, source, 0);
    LookupsAreInverse(Register(first, destination), source, 0);
    LookupsAreInverse(Register(first, destination), destination, 0);
  }

  lemma EndpointStays(n: Nodes, source: string, destination: string, id: int)
    requires NodesOk(n) && source != "" && destination != "" && EndpointOf(n, id) != ""
    ensures EndpointOf(EntryNodes(n, source, destination), id) == EndpointOf(n, id)
  {
    RegisterKeeps(n, source);
    RegisterIsStable(n, source, source, id);
    RegisterIsStable(Register(n, source), destination, source, id);
  }

  // ---------- The loop ----------

  /** The settings of one route, restored from what was saved; nothing when nothing was saved. */
  ghost predicate DspRestored(r: Registry, saved: map<nat, RouteDspState>, cache: map<nat, RouteDspState>, slots: map<nat, Executed>, id: nat) {
    if id in saved then
      && id in cache && cache[id] == Restore(r, id, Saved(saved[id])).state
      && (Supported(id) ==> SlotOf(slots, id) == Restore(r, id, Saved(saved[id])).executed)
    else id !in cache && SlotOf(slots, id) == NO_EXECUTION
  }

  /** Settings exist only for the first k routes. */
  ghost predicate OnlyLoaded(m: Manager, cache: map<nat, RouteDspState>, slots: map<nat, Executed>, k: nat)
    requires k <= |m.routes|
  {
    forall id :: id in cache || id in slots ==> exists i :: 0 <= i < k && m.routes[i].id == id
  }

  predicate LoadedAt(m: Manager, n: Nodes, routes: seq<AudioRoute>, next: nat, i: nat)
    requires i < |m.routes|
  {
    i < |routes| && SameRoute(m.nodes, m.routes[i], n, routes[i]) && routes[i].id < next
  }

  ghost predicate RoutesLoaded(m: Manager, l: Loop, k: nat)
    requires k <= |m.routes|
  {
    && !l.threw && NodesOk(l.nodes) && Within(l.nodes, m.nodes) && |l.routes| == k
    && (forall i :: 0 <= i < k ==> LoadedAt(m, l.nodes, l.routes, l.nextId, i))
    && 1 <= l.nextId <= m.nextRoute
  }

  ghost predicate DspLoaded(r: Registry, m: Manager, l: Loop, k: nat)
    requires k <= |m.routes|
  {
    && (forall i :: 0 <= i < k ==> DspRestored(r, m.cache, l.cache, l.slots, m.routes[i].id))
    && OnlyLoaded(m, l.cache, l.slots, k)
  }

  /** The nodes after entry k of a saved file, and the route it becomes. */
  function NodesAt(m: Manager, l: Loop, k: nat): Nodes
    requires k < |m.routes|
  {
    EntryNodes(l.nodes, EndpointOf(m.nodes, m.routes[k].source), EndpointOf(m.nodes, m.routes[k].destination))
  }

  function RouteAt(m: Manager, l: Loop, k: nat): AudioRoute
    requires k < |m.routes|
  {
    var route := m.routes[k];
    EntryRoute(NodesAt(m, l, k), route.id, EndpointOf(m.nodes, route.source), EndpointOf(m.nodes, route.destination),
               Fields(route.sourceChannel, route.destinationChannel, route.gain, route.enabled))
  }

  lemma EntryBecomes(r: Registry, m: Manager, l: Loop, k: nat)
    requires Inv(r, m) && k < |m.routes| && !l.threw && NodesOk(l.nodes) && Within(l.nodes, m.nodes)
    ensures NodesOk(NodesAt(m, l, k)) && Within(NodesAt(m, l, k), m.nodes)
    ensures SameRoute(m.nodes, m.routes[k], NodesAt(m, l, k), RouteAt(m, l, k))
    ensures EntryStep(r, l, RouteJson(m, m.routes[k]), k)
            == Accept(r, l.(nodes := NodesAt(m, l, k)), RouteJson(m, m.routes[k]), k, RouteAt(m, l, k))
  {
    var route := m.routes[k];
    assert RouteOk(m.nodes, m.nextRoute, route);
    EntryReadsBack(m, route);
    var source, destination := EndpointOf(m.nodes, route.source), EndpointOf(m.nodes, route.destination);
    LookupsAreInverse(m.nodes, source, route.source);
    LookupsAreInverse(m.nodes, destination, route.destination);
    EntryResolves(l.nodes, m.nodes, source, destination);
  }

  lemma EarlierRoutesStay(m: Manager, l: Loop, k: nat, i: nat)
    requires RoutesOk(m.nodes, m.routes, m.nextRoute) && NodesOk(l.nodes) && i < k < |m.routes| && i < |l.routes|
    requires SameRoute(m.nodes, m.routes[i], l.nodes, l.routes[i])
    ensures SameRoute(m.nodes, m.routes[i], NodesAt(m, l, k), l.routes[i])
  {
    assert RouteOk(m.nodes, m.nextRoute, m.routes[k]);
    var source, destination := EndpointOf(m.nodes, m.routes[k].source), EndpointOf(m.nodes, m.routes[k].destination);
    EndpointStays(l.nodes, source, destination, l.routes[i].source);
    EndpointStays(l.nodes, source, destination, l.routes[i].destination);
  }

  lemma AcceptedLoads(r: Registry, m: Manager, l: Loop, k: nat, n: Nodes, route: AudioRoute)
    requires RoutesOk(m.nodes, m.routes, m.nextRoute) && k < |m.routes| && RoutesLoaded(m, l, k)
    requires NodesOk(n) && Within(n, m.nodes) && SameRoute(m.nodes, m.routes[k], n, route)
    requires forall i :: 0 <= i < k ==> SameRoute(m.nodes, m.routes[i], n, l.routes[i])
    ensures RoutesLoaded(m, Accept(r, l.(nodes := n), RouteJson(m, m.routes[k]), k, route), k + 1)
  {
    assert RouteOk(m.nodes, m.nextRoute, m.routes[k]);
    var l' := Accept(r, l.(nodes := n), RouteJson(m, m.routes[k]), k, route);
    forall i | 0 <= i < k + 1 ensures LoadedAt(m, n, l'.routes, l'.nextId, i) {
      if i < k {
        assert LoadedAt(m, l.nodes, l.routes, l.nextId, i);
      }
    }
  }

  lemma RouteLoads(r: Registry, m: Manager, l: Loop, k: nat)
    requires Inv(r, m) && k < |m.routes| && RoutesLoaded(m, l, k)
    ensures RoutesLoaded(m, EntryStep(r, l, RouteJson(m, m.routes[k]), k), k + 1)
  {
    EntryBecomes(r, m, l, k);
    forall i | 0 <= i < k ensures SameRoute(m.nodes, m.routes[i], NodesAt(m, l, k), l.routes[i]) {
      assert LoadedAt(m, l.nodes, l.routes, l.nextId, i);
      EarlierRoutesStay(m, l, k, i);
    }
    AcceptedLoads(r, m, l, k, NodesAt(m, l, k), RouteAt(m, l, k));
  }

  lemma DspArrives(r: Registry, m: Manager, l: Loop, k: nat)
    requires Inv(r, m) && k < |m.routes| && RoutesLoaded(m, l, k)
    ensures EntryAccepted(r, m, l, k)
  {
    assert RouteOk(m.nodes, m.nextRoute, m.routes[k]);
    EntryBecomes(r, m, l, k);
    EntryReadsBack(m, m.routes[k]);
  }

  /** The entry became a route, and its DSP settings went where they belong. */
  ghost predicate EntryAccepted(r: Registry, m: Manager, l: Loop, k: nat)
    requires k < |m.routes|
  {
    var id := m.routes[k].id;
    var l' := EntryStep(r, l, RouteJson(m, m.routes[k]), k);
    if id in m.cache then
      var restored := Restore(r, id, Saved(m.cache[id]));
      && l'.cache == l.cache[id := restored.state]
      && l'.slots == if Supported(id) then l.slots[id := restored.executed] else l.slots
    else l'.cache == l.cache && l'.slots == l.slots
  }

  lemma EarlierDspStays(r: Registry, m: Manager, l: Loop, k: nat, i: nat)
    requires RoutesOk(m.nodes, m.routes, m.nextRoute) && i < k < |m.routes| && EntryAccepted(r, m, l, k)
    requires DspRestored(r, m.cache, l.cache, l.slots, m.routes[i].id)
    ensures var l' := EntryStep(r, l, RouteJson(m, m.routes[k]), k);
      DspRestored(r, m.cache, l'.cache, l'.slots, m.routes[i].id)
  {
    assert m.routes[i].id != m.routes[k].id;
  }

  lemma OnlyLoadedNext(r: Registry, m: Manager, l: Loop, k: nat)
    requires k < |m.routes| && OnlyLoaded(m, l.cache, l.slots, k) && EntryAccepted(r, m, l, k)
    ensures var l' := EntryStep(r, l, RouteJson(m, m.routes[k]), k); OnlyLoaded(m, l'.cache, l'.slots, k + 1)
  {
    var l' := EntryStep(r, l, RouteJson(m, m.routes[k]), k);
    forall x | x in l'.cache || x in l'.slots ensures exists i :: 0 <= i < k + 1 && m.routes[i].id == x {
      if x == m.routes[k].id {
        assert m.routes[k].id == x;
      } else {
        var i :| 0 <= i < k && m.routes[i].id == x;
        assert m.routes[i].id == x;
      }
    }
  }

  /** The new entry's own settings; before it, its ID had none. */
  lemma OwnDspLoads(r: Registry, m: Manager, l: Loop, k: nat)
    requires RoutesOk(m.nodes, m.routes, m.nextRoute) && k < |m.routes|
    requires OnlyLoaded(m, l.cache, l.slots, k) && EntryAccepted(r, m, l, k)
    ensures var l' := EntryStep(r, l, RouteJson(m, m.routes[k]), k);
      DspRestored(r, m.cache, l'.cache, l'.slots, m.routes[k].id)
  {
    var id := m.routes[k].id;
    forall i | 0 <= i < k ensures m.routes[i].id != id {
    }
    assert id !in l.cache && id !in l.slots;
  }

  lemma DspLoads(r: Registry, m: Manager, l: Loop, k: nat)
    requires RoutesOk(m.nodes, m.routes, m.nextRoute) && k < |m.routes| && DspLoaded(r, m, l, k) && EntryAccepted(r, m, l, k)
    ensures DspLoaded(r, m, EntryStep(r, l, RouteJson(m, m.routes[k]), k), k + 1)
  {
    var l' := EntryStep(r, l, RouteJson(m, m.routes[k]), k);
    forall i | 0 <= i < k + 1 ensures DspRestored(r, m.cache, l'.cache, l'.slots, m.routes[i].id) {
      if i < k {
        EarlierDspStays(r, m, l, k, i);
      } else {
        OwnDspLoads(r, m, l, k);
      }
    }
    OnlyLoadedNext(r, m, l, k);
  }

  ghost predicate CopiedTo(r: Registry, m: Manager, l: Loop, k: nat)
    requires k <= |m.routes|
  {
    RoutesLoaded(m, l, k) && DspLoaded(r, m, l, k)
  }

  lemma CopyNext(r: Registry, m: Manager, l: Loop, k: nat, v: Json)
    requires Inv(r, m) && k < |m.routes| && CopiedTo(r, m, l, k) && v == RouteJson(m, m.routes[k])
    ensures CopiedTo(r, m, EntryStep(r, l, v, k), k + 1)
  {
    RouteLoads(r, m, l, k);
    DspArrives(r, m, l, k);
    DspLoads(r, m, l, k);
  }

  lemma LoopLoads(r: Registry, m: Manager, l: Loop)
    requires Inv(r, m) && CopiedTo(r, m, l, 0)
    ensures CopiedTo(r, m, LoadRoutes(r, l, RoutesJson(m, |m.routes|), |m.routes|), |m.routes|)
  {
    var items := RoutesJson(m, |m.routes|);
    var p := (x: Loop, i: nat) => i <= |m.routes| && CopiedTo(r, m, x, i);
    forall x, i | 0 <= i < |items| && p(x, i) ensures p(EntryStep(r, x, items[i], i), i + 1) {
      CopyNext(r, m, x, i, items[i]);
    }
    LoopInduction(r, l, items, |items|, p);
  }

  // ---------- Devices and names ----------

  lemma {:induction false} DevicesReadBack(devices: seq<string>)
    ensures DevicesOf(Strings(devices)) == devices
  {
    if devices != [] {
      var n := |devices| - 1;
      DevicesReadBack(devices[..n]);
      assert Strings(devices)[..n] == Strings(devices[..n]);
    }
  }

  lemma {:induction false} DevicesResolve(all: Nodes, devices: seq<string>)
    requires NodesOk(all) && DevicesKnown(all, devices)
    ensures var n := RegisterDevices(NO_NODES, devices); NodesOk(n) && Within(n, all) && DevicesKnown(n, devices)
  {
    if devices != [] {
      var k := |devices| - 1;
      var id := devices[k];
      assert forall d :: d in devices[..k] ==> d in devices;
      assert devices[k] in devices;
      DevicesResolve(all, devices[..k]);
      var before := RegisterDevices(NO_NODES, devices[..k]);
      var first := Register(before, CaptureOf(id));
      RoomForKnown(before, all, CaptureOf(id));
      RegisterKeeps(before, CaptureOf(id));
      RoomForKnown(first, all, PlaybackOf(id));
      RegisterKeeps(first, PlaybackOf(id));
      RegisterIsStable(first, PlaybackOf(id), CaptureOf(id), 0);
      forall d | d in devices[..k] ensures BothKnown(Register(first, PlaybackOf(id)), d) {
        RegisterIsStable(before, CaptureOf(id), CaptureOf(d), 0);
        RegisterIsStable(before, CaptureOf(id), PlaybackOf(d), 0);
        RegisterIsStable(first, PlaybackOf(id), CaptureOf(d), 0);
        RegisterIsStable(first, PlaybackOf(id), PlaybackOf(d), 0);
      }
    }
  }

  lemma NamesReadBack(m: Manager, connected: map<string, string>)
    ensures var fields := ClientsOf(Save(m, connected)); AllNames(fields) && NamesRead(fields) == m.names + connected
  {
    var file := Save(m, connected);
    var names := m.names + connected;
    var fields := NamesJson(names);
    assert file.At("clients") == Obj(fields);
    assert forall key :: key in fields ==> fields[key] == Str(names[key]);
    assert NamesRead(fields) == names;
  }

  // ---------- Results ----------

  lemma FileLoads(r: Registry, m: Manager, connected: map<string, string>)
    requires RegistryOk(r) && Inv(r, m)
    ensures var l := RouteLoop(r, Initial(), Save(m, connected));
      RoutesLoaded(m, l, |m.routes|) && DspLoaded(r, m, l, |m.routes|) && DevicesKnown(StartLoop(Initial(), Save(m, connected)).nodes, m.devices)
    ensures DevicesOf(ItemsAt(Save(m, connected), "activated_devices")) == m.devices
  {
    SectionsReadBack(m, connected);
    DevicesResolve(m.nodes, m.devices);
    LoopLoads(r, m, StartLoop(Initial(), Save(m, connected)));
  }

  lemma SectionsReadBack(m: Manager, connected: map<string, string>)
    ensures DevicesOf(ItemsAt(Save(m, connected), "activated_devices")) == m.devices
    ensures ItemsAt(Save(m, connected), "routes") == RoutesJson(m, |m.routes|)
  {
    assert ItemsAt(Save(m, connected), "activated_devices") == Strings(m.devices);
    DevicesReadBack(m.devices);
  }

  /** Saving a reachable state and loading it into a fresh manager succeeds, never runs out of node
      IDs, and gives the same routes in the same order, between the same endpoints, with the same
      channels, gains, switches and IDs, and a counter above all of them. */
  lemma RoutesSurvive(r: Registry, m: Manager, connected: map<string, string>)
    requires RegistryOk(r) && Inv(r, m)
    ensures var loaded := Load(r, Initial(), Save(m, connected), true); var t := loaded.m;
      && loaded.ok && |t.routes| == |m.routes| && t.devices == m.devices && t.names == m.names + connected
      && (forall i :: 0 <= i < |m.routes| ==>
            SameRoute(m.nodes, m.routes[i], t.nodes, t.routes[i]) && t.routes[i].id < t.nextRoute)
  {
    FileLoads(r, m, connected);
    NamesReadBack(m, connected);
    var l := RouteLoop(r, Initial(), Save(m, connected));
    forall i | 0 <= i < |m.routes| ensures SameRoute(m.nodes, m.routes[i], l.nodes, l.routes[i]) && l.routes[i].id < l.nextId {
      assert LoadedAt(m, l.nodes, l.routes, l.nextId, i);
    }
  }

  /** What can be heard of every route survives too. */
  lemma EffectsSurvive(r: Registry, m: Manager, connected: map<string, string>, i: nat)
    requires RegistryOk(r) && Inv(r, m) && i < |m.routes| && Supported(m.routes[i].id)
    ensures var t := Load(r, Initial(), Save(m, connected), true).m;
      Effective(SlotOf(t.slots, m.routes[i].id)) == Effective(SlotOf(m.slots, m.routes[i].id))
  {
    FileLoads(r, m, connected);
    var id := m.routes[i].id;
    var l := RouteLoop(r, Initial(), Save(m, connected));
    assert DspRestored(r, m.cache, l.cache, l.slots, id);
    assert Agree(r, StateOf(m.cache, id), SlotOf(m.slots, id));
    if id in m.cache {
      AgreedRestores(r, id, m.cache[id], SlotOf(m.slots, id));
    }
  }

  lemma AgreedRestores(r: Registry, id: nat, s: RouteDspState, e: Executed)
    requires Agree(r, s, e)
    ensures Supported(id) ==> Effective(Restore(r, id, Saved(s)).executed) == Effective(e)
  {
    if s.warning {
      assert Saved(s).At("active") == Bool(false);
    } else {
      SavedPrepares(r, s, e.processors);
    }
  }

  lemma LoadedDistinct(m: Manager, t: Manager, i: nat, j: nat)
    requires NodesOk(m.nodes) && RoutesOk(m.nodes, m.routes, m.nextRoute) && i < j < |m.routes| == |t.routes|
    requires SameRoute(m.nodes, m.routes[i], t.nodes, t.routes[i]) && SameRoute(m.nodes, m.routes[j], t.nodes, t.routes[j])
    ensures t.routes[i].id != t.routes[j].id && !SameEdge(t.routes[i], t.routes[j])
  {
    if SameEdge(t.routes[i], t.routes[j]) {
      var a, b := m.routes[i], m.routes[j];
      LookupsAreInverse(m.nodes, EndpointOf(m.nodes, a.source), a.source);
      LookupsAreInverse(m.nodes, EndpointOf(m.nodes, b.source), b.source);
      LookupsAreInverse(m.nodes, EndpointOf(m.nodes, a.destination), a.destination);
      LookupsAreInverse(m.nodes, EndpointOf(m.nodes, b.destination), b.destination);
      assert SameEdge(a, b);
    }
  }

  lemma {:induction false} NodesOnlyGrow(r: Registry, l: Loop, items: seq<Json>, k: nat, e: string)
    requires k <= |items| && NodeId(l.nodes, e) != NODE_INVALID
    ensures NodeId(LoadRoutes(r, l, items, k).nodes, e) == NodeId(l.nodes, e)
  {
    if k > 0 {
      NodesOnlyGrow(r, l, items, k - 1, e);
      EntryGrows(r, LoadRoutes(r, l, items, k - 1), items[k - 1], k - 1, e);
    }
  }

  lemma EntryGrows(r: Registry, l: Loop, v: Json, index: nat, e: string)
    requires NodeId(l.nodes, e) != NODE_INVALID
    ensures NodeId(EntryStep(r, l, v, index).nodes, e) == NodeId(l.nodes, e)
  {
  }

  /** So a run may go on from the loaded state as from the saved one: every invariant holds there. */
  lemma LoadedStateIsSound(r: Registry, m: Manager, connected: map<string, string>)
    requires RegistryOk(r) && Inv(r, m)
    ensures var t := Load(r, Initial(), Save(m, connected), true).m; Inv(r, t)
  {
    var file := Save(m, connected);
    var t := Load(r, Initial(), file, true).m;
    RoutesSurvive(r, m, connected);
    FileLoads(r, m, connected);
    LoadedAgrees(r, file, true);
    FreshUnlessThrew(r, file);
    forall i | 0 <= i < |t.routes| ensures RouteOk(t.nodes, t.nextRoute, t.routes[i]) {
      assert RouteOk(m.nodes, m.nextRoute, m.routes[i]);
    }
    forall i, j | 0 <= i < j < |t.routes| ensures t.routes[i].id != t.routes[j].id && !SameEdge(t.routes[i], t.routes[j]) {
      LoadedDistinct(m, t, i, j);
    }
    var start := StartLoop(Initial(), file);
    forall d | d in m.devices ensures BothKnown(t.nodes, d) {
      NodesOnlyGrow(r, start, ItemsAt(file, "routes"), |ItemsAt(file, "routes")|, CaptureOf(d));
      NodesOnlyGrow(r, start, ItemsAt(file, "routes"), |ItemsAt(file, "routes")|, PlaybackOf(d));
    }
  }

  /** A file that fails to load can leave a chain behind for the next new route: route 1 loads with
      a gain of 4, the second entry cannot be read, so the counter still says 1, and the first route
      that is then added is amplified from the start. */
  lemma BrokenFileIsInherited()
    ensures exists file: Json, route: AudioRoute :: Inherits(file, route)
  {
    var first := Obj(map["id" := Int(1), "source" := Str(TONE), "destination" := Str("hardware/x/playback"),
                         "source_channel" := Int(0), "destination_channel" := Int(0),
                         "dsp" := Obj(map["active" := Bool(true), "gain" := Int(4)])]);
    var second := Obj(map["id" := Int(2), "source" := Int(7)]);
    BrokenByEntry(first, second, Obj(map["routes" := Arr([first, second])]));
  }

  lemma BrokenByEntry(first: Json, second: Json, file: Json)
    requires IsFirst(first) && PersistedId(second).Some? && TextOf(second, "source").None?
    requires file.Obj? && file.fields.Keys == {"routes"} && file.At("routes") == Arr([first, second])
    ensures exists file: Json, route: AudioRoute :: Inherits(file, route)
  {
    var items := [first, second];
    var l0 := StartLoop(Initial(), file);
    assert ItemsAt(file, "activated_devices") == [] && ItemsAt(file, "routes") == items;
    assert l0.nodes == NO_NODES;
    FirstEntry(map[], l0, first);
    SecondEntry(map[], l0, items);
    StaysBehind(map[], file);
    assert Inherits(file, AudioGraph.AudioRoute(0, 0, 0, 1, 0, 1.0, true));
  }

  predicate IsFirst(v: Json) {
    v == Obj(map["id" := Int(1), "source" := Str(TONE), "destination" := Str("hardware/x/playback"),
                 "source_channel" := Int(0), "destination_channel" := Int(0),
                 "dsp" := Obj(map["active" := Bool(true), "gain" := Int(4)])])
  }

  lemma SecondEntry(r: Registry, l: Loop, items: seq<Json>)
    requires |items| == 2 && PersistedId(items[1]).Some? && TextOf(items[1], "source").None? && !EntryStep(r, l, items[0], 0).threw
    ensures LoadRoutes(r, l, items, 2) == EntryStep(r, l, items[0], 0).(threw := true)
  {
    assert LoadRoutes(r, l, items, 0) == l;
    assert LoadRoutes(r, l, items, 1) == EntryStep(r, l, items[0], 0);
  }

  lemma StaysBehind(r: Registry, file: Json)
    requires r == map[]
    requires var l := RouteLoop(r, Initial(), file);
      l.threw && EndpointOf(l.nodes, 1) == "hardware/x/playback" && SlotOf(l.slots, 1) == Executed(true, 4.0, [])
    ensures Inherits(file, AudioGraph.AudioRoute(0, 0, 0, 1, 0, 1.0, true))
  {
  }

  lemma FirstEntry(r: Registry, l: Loop, v: Json)
    requires r == map[] && l.nodes == NO_NODES && l.cache == map[] && l.slots == map[] && !l.threw
    requires IsFirst(v)
    ensures var l' := EntryStep(r, l, v, 0);
      !l'.threw && EndpointOf(l'.nodes, 1) == "hardware/x/playback" && SlotOf(l'.slots, 1) == Executed(true, 4.0, [])
  {
    assert PersistedId(v) == Some(1) && TextOf(v, "source") == Some(TONE) && TextOf(v, "destination") == Some("hardware/x/playback");
    assert FieldsOf(v) == Some(Fields(0, 0, 1.0, true));
    var dsp := v.At("dsp");
    assert ActiveOf(dsp) == Some(true) && GainOf(dsp) == Some(4.0) && ChainOf(r, dsp) == Some([]);
  }

  /** After this file failed to load, the route can be added, and its DSP is active at once. */
  predicate Inherits(file: Json, route: AudioRoute) {
    var loaded := Load(map[], Initial(), file, true);
    && !loaded.ok && Addable(loaded.m, route, [])
    && Effective(SlotOf(AddRoute(loaded.m, route, []).slots, loaded.m.nextRoute)).Some?
  }
}
