/** Saving the control state to a settings file, and loading one at startup. */
module SettingsFile {
  import AudioGraph
  import opened DspSettings
  import opened JsonValues
  import opened Limits
  import opened NodeRegistry
  import opened ProcessorRegistries
  import opened Routing
  import opened Wrappers

  // ---------- Saving ----------

  function RouteFields(n: Nodes, route: AudioRoute): map<string, Json> {
    map["id" := Int(route.id),
        "source" := Str(EndpointOf(n, route.source)), "source_channel" := Int(route.sourceChannel),
        "destination" := Str(EndpointOf(n, route.destination)), "destination_channel" := Int(route.destinationChannel),
        "gain" := Real(route.gain), "enabled" := Bool(route.enabled)]
  }

  function RouteJson(m: Manager, route: AudioRoute): Json {
    if route.id in m.cache
    then Obj(RouteFields(m.nodes, route)["dsp" := Saved(m.cache[route.id])])
    else Obj(RouteFields(m.nodes, route))
  }

  function RoutesJson(m: Manager, k: nat): (items: seq<Json>)
    requires k <= |m.routes|
    ensures |items| == k && forall i :: 0 <= i < k ==> items[i] == RouteJson(m, m.routes[i])
  {
    if k == 0 then [] else RoutesJson(m, k - 1) + [RouteJson(m, m.routes[k - 1])]
  }

  function Strings(ss: seq<string>): seq<Json> {
    seq(|ss|, i requires 0 <= i < |ss| => Str(ss[i]))
  }

  /** The names of connected clients replace the ones remembered. */
  function NamesJson(names: map<string, string>): map<string, Json> {
    map key | key in names :: Str(names[key])
  }

  function Save(m: Manager, connected: map<string, string>): Json {
    Obj(map["activated_devices" := Arr(Strings(m.devices)), "routes" := Arr(RoutesJson(m, |m.routes|)),
            "clients" := Obj(NamesJson(m.names + connected))])
  }

  /** A connection that closes leaves what a save writes as it is if and only if its name is
      remembered, as it is once its client has said hello. */
  lemma DisconnectKeepsFileIff(m: Manager, connected: map<string, string>, key: string)
    requires key in connected
    ensures Save(m, connected - {key}) == Save(m, connected) <==> key in m.names && m.names[key] == connected[key]
  {
    var names, rest := m.names + connected, m.names + (connected - {key});
    if key in m.names && m.names[key] == connected[key] {
      assert rest == names;
    } else {
      assert Str(names[key]) == NamesJson(names)[key];
      assert key in NamesJson(rest) ==> NamesJson(rest)[key] == Str(rest[key]);
      assert Save(m, connected).At("clients").fields == NamesJson(names);
      assert Save(m, connected - {key}).At("clients").fields == NamesJson(rest);
    }
  }

  // ---------- Reading one route entry ----------

  const TWO_TO_32 := 0x1_0000_0000

  /** Conversion to a 32-bit count: integers wrap around, numbers are truncated, booleans count as
      numbers; anything else cannot be read. A number outside the range counts as too large. */
  function ToCount(j: Json): Option<nat> {
    match j
    case Int(i) => Some(i % TWO_TO_32)
    case Bool(b) => Some(if b then 1 else 0)
    case Real(x) => Some(if -1.0 < x < 0.0 then 0 else if 0.0 <= x < TWO_TO_32 as real then x.Floor else TWO_TO_32 - 1)
    case _ => None
  }

  function ToNumber(j: Json): Option<real> {
    match j
    case Int(i) => Some(i as real)
    case Real(x) => Some(x)
    case Bool(b) => Some(if b then 1.0 else 0.0)
    case _ => None
  }

  /** A saved ID must be an integer that fits 32 bits and is not zero. */
  function PersistedId(v: Json): Option<nat> {
    if v.Has("id") && v.At("id").Int? && 1 <= v.At("id").i <= MAX_ROUTE_ID then Some(v.At("id").i) else None
  }

  function TextOf(v: Json, key: string): Option<string> {
    if !v.Has(key) then Some("") else if v.At(key).Str? then Some(v.At(key).s) else None
  }

  function CountOf(v: Json, key: string): Option<nat> {
    if !v.Has(key) then Some(MAX_CHANNELS) else ToCount(v.At(key))
  }

  function NumberOf(v: Json, key: string): Option<real> {
    if !v.Has(key) then Some(1.0) else ToNumber(v.At(key))
  }

  function SwitchOf(v: Json, key: string): Option<bool> {
    if !v.Has(key) then Some(true) else if v.At(key).Bool? then Some(v.At(key).b) else None
  }

  datatype Fields = Fields(sourceChannel: nat, destinationChannel: nat, gain: real, enabled: bool)

  function FieldsOf(v: Json): Option<Fields> {
    var sc, dc, g, e := CountOf(v, "source_channel"), CountOf(v, "destination_channel"), NumberOf(v, "gain"), SwitchOf(v, "enabled");
    if sc.None? || dc.None? || g.None? || e.None? then None else Some(Fields(sc.value, dc.value, g.value, e.value))
  }

  function RegisterNamed(n: Nodes, e: string): Nodes {
    if e == "" then n else Register(n, e)
  }

  function IdOrInvalid(n: Nodes, e: string): int {
    if e == "" then NODE_INVALID else NodeId(n, e)
  }

  predicate Acceptable(route: AudioRoute) {
    && route.source != NODE_INVALID && route.destination != NODE_INVALID
    && route.sourceChannel < MAX_CHANNELS && route.destinationChannel < MAX_CHANNELS && GainOk(route.gain)
  }

  // ---------- The loading loop ----------

  /** The loop over route entries. `accepted` lists the entries that became routes; `threw` says
      that an entry could not be read, which ends loading. */
  datatype Loop = Loop(
    nodes: Nodes, routes: seq<AudioRoute>, nextId: nat, cache: map<nat, RouteDspState>, slots: map<nat, Executed>,
    accepted: seq<nat>, threw: bool)

  /** An accepted entry: the route, the counter, and its DSP settings if it has any. */
  function Accept(r: Registry, l: Loop, v: Json, index: nat, route: AudioRoute): Loop {
    var kept := l.(routes := l.routes + [route], accepted := l.accepted + [index],
                   nextId := Max(l.nextId, if route.id == MAX_ROUTE_ID then MAX_ROUTE_ID else route.id + 1));
    if !v.Has("dsp") then kept
    else
      var restored := Restore(r, route.id, v.At("dsp"));
      kept.(cache := l.cache[route.id := restored.state],
            slots := if Supported(route.id) then l.slots[route.id := restored.executed] else l.slots)
  }

  /** The two endpoints of an entry are registered before its other members are read. */
  function EntryNodes(n: Nodes, source: string, destination: string): Nodes {
    RegisterNamed(RegisterNamed(n, source), destination)
  }

  function EntryRoute(n: Nodes, id: nat, source: string, destination: string, f: Fields): AudioRoute {
    AudioGraph.AudioRoute(id, IdOrInvalid(n, source), f.sourceChannel, IdOrInvalid(n, destination), f.destinationChannel,
                          f.gain, f.enabled)
  }

  function EntryStep(r: Registry, l: Loop, v: Json, index: nat): Loop {
    if l.threw || PersistedId(v).None? then l
    else if TextOf(v, "source").None? || TextOf(v, "destination").None? then l.(threw := true)
    else
      var source, destination := TextOf(v, "source").value, TextOf(v, "destination").value;
      var n := EntryNodes(l.nodes, source, destination);
      if FieldsOf(v).None? then l.(nodes := n, threw := true)
      else
        var route := EntryRoute(n, PersistedId(v).value, source, destination, FieldsOf(v).value);
        if Acceptable(route) then Accept(r, l.(nodes := n), v, index, route) else l.(nodes := n)
  }

  function LoadRoutes(r: Registry, l: Loop, items: seq<Json>, k: nat): Loop
    requires k <= |items|
  {
    if k == 0 then l else EntryStep(r, LoadRoutes(r, l, items, k - 1), items[k - 1], k - 1)
  }

  /** Induction over the loop. */
  lemma {:induction false} LoopInduction(r: Registry, l: Loop, items: seq<Json>, k: nat, p: (Loop, nat) -> bool)
    requires k <= |items| && p(l, 0)
    requires forall x, i :: 0 <= i < |items| && p(x, i) ==> p(EntryStep(r, x, items[i], i), i + 1)
    ensures p(LoadRoutes(r, l, items, k), k)
  {
    if k > 0 {
      LoopInduction(r, l, items, k - 1, p);
    }
  }

  // ---------- Loading ----------

  function ItemsAt(file: Json, key: string): seq<Json> {
    if file.Has(key) && file.At(key).Arr? then file.At(key).items else []
  }

  function DevicesOf(items: seq<Json>): seq<string> {
    if items == [] then []
    else DevicesOf(items[..|items| - 1]) + if items[|items| - 1].Str? then [items[|items| - 1].s] else []
  }

  function RegisterDevices(n: Nodes, devices: seq<string>): Nodes {
    if devices == [] then n
    else
      var before := RegisterDevices(n, devices[..|devices| - 1]);
      var id := devices[|devices| - 1];
      Register(Register(before, CaptureOf(id)), PlaybackOf(id))
  }

  function ClientsOf(file: Json): map<string, Json> {
    if file.Has("clients") && file.At("clients").Obj? then file.At("clients").fields else map[]
  }

  /** The order in which the members of an object are visited. */
  predicate Before(a: string, b: string) {
    b != [] && (a == [] || a[0] < b[0] || (a[0] == b[0] && Before(a[1..], b[1..])))
  }

  predicate AllNames(fields: map<string, Json>) {
    forall key :: key in fields ==> fields[key].Str?
  }

  /** The names up to the first that is no string, which ends loading. */
  function NamesRead(fields: map<string, Json>): map<string, string> {
    map key | key in fields && fields[key].Str? && (forall bad :: bad in fields && !fields[bad].Str? ==> Before(key, bad))
      :: fields[key].s
  }

  datatype Loaded = Loaded(m: Manager, ok: bool)

  function StartLoop(m: Manager, file: Json): Loop {
    Loop(RegisterDevices(m.nodes, DevicesOf(ItemsAt(file, "activated_devices"))), [], 1, map[], m.slots, [], false)
  }

  function RouteLoop(r: Registry, m: Manager, file: Json): Loop {
    LoadRoutes(r, StartLoop(m, file), ItemsAt(file, "routes"), |ItemsAt(file, "routes")|)
  }

  /** Loading. `readable` tells whether the sections before the devices could be read. A route entry
      that cannot be read ends loading at once: the routes and the counter stay as they were, but
      nodes, devices, settings and engine slots keep what was loaded up to there. */
  function Load(r: Registry, m: Manager, file: Json, readable: bool): Loaded {
    if !readable then Loaded(m, false)
    else
      var devices := DevicesOf(ItemsAt(file, "activated_devices"));
      var l := RouteLoop(r, m, file);
      var partial := m.(nodes := l.nodes, devices := devices, cache := l.cache, slots := l.slots);
      if l.threw then Loaded(partial, false)
      else
        var full := partial.(routes := l.routes, nextRoute := l.nextId,
                             names := NamesRead(ClientsOf(file)));
        Loaded(full, AllNames(ClientsOf(file)))
  }

  // ---------- What any load establishes ----------

  ghost predicate CoreLoop(l: Loop) {
    && NodesOk(l.nodes) && 1 <= l.nextId <= MAX_ROUTE_ID
    && Fresh(l.nextId, l.cache, l.slots)
    && (forall i :: 0 <= i < |l.routes| ==> l.routes[i].id < l.nextId || l.routes[i].id >= MAX_ROUTE_ID)
  }

  lemma RestoredAgrees(r: Registry, id: nat, dsp: Json)
    requires RegistryOk(r)
    ensures Agree(r, Restore(r, id, dsp).state, Restore(r, id, dsp).executed)
  {
    if Supported(id) && Prepare(r, dsp).Some? {
      PreparedAgrees(r, dsp);
    }
  }

  /** Every slot agrees with its cache entry, whether a route uses it or not. */
  ghost predicate AllAgree(r: Registry, cache: map<nat, RouteDspState>, slots: map<nat, Executed>) {
    forall id :: Supported(id) ==> Agree(r, StateOf(cache, id), SlotOf(slots, id))
  }

  ghost predicate SoundLoop(r: Registry, l: Loop) {
    CoreLoop(l) && AllAgree(r, l.cache, l.slots)
  }

  lemma AcceptAgrees(r: Registry, l: Loop, v: Json, index: nat, route: AudioRoute)
    requires RegistryOk(r) && AllAgree(r, l.cache, l.slots)
    ensures AllAgree(r, Accept(r, l, v, index, route).cache, Accept(r, l, v, index, route).slots)
  {
    if v.Has("dsp") {
      RestoredAgrees(r, route.id, v.At("dsp"));
    }
  }

  lemma AcceptKeepsCore(r: Registry, l: Loop, v: Json, index: nat, route: AudioRoute)
    requires CoreLoop(l) && 1 <= route.id <= MAX_ROUTE_ID
    ensures CoreLoop(Accept(r, l, v, index, route))
  {
    var l' := Accept(r, l, v, index, route);
    forall id: nat | l'.nextId <= id < MAX_ROUTE_ID ensures id !in l'.cache && SlotOf(l'.slots, id) == NO_EXECUTION {
      assert id != route.id;
    }
  }

  lemma AcceptKeeps(r: Registry, l: Loop, v: Json, index: nat, route: AudioRoute)
    requires RegistryOk(r) && SoundLoop(r, l) && 1 <= route.id <= MAX_ROUTE_ID
    ensures SoundLoop(r, Accept(r, l, v, index, route))
  {
    AcceptAgrees(r, l, v, index, route);
    AcceptKeepsCore(r, l, v, index, route);
  }

  lemma NodesKeep(r: Registry, l: Loop, n: Nodes, threw: bool)
    requires SoundLoop(r, l) && NodesOk(n)
    ensures SoundLoop(r, l.(nodes := n, threw := threw))
  {
  }

  lemma EntryNodesOk(n: Nodes, source: string, destination: string)
    requires NodesOk(n)
    ensures NodesOk(EntryNodes(n, source, destination))
  {
    if source != "" {
      RegisterKeeps(n, source);
    }
    if destination != "" {
      RegisterKeeps(RegisterNamed(n, source), destination);
    }
  }

  lemma EntryKeeps(r: Registry, l: Loop, v: Json, index: nat)
    requires RegistryOk(r) && SoundLoop(r, l)
    ensures SoundLoop(r, EntryStep(r, l, v, index))
  {
    if !l.threw && PersistedId(v).Some? {
      if TextOf(v, "source").None? || TextOf(v, "destination").None? {
        NodesKeep(r, l, l.nodes, true);
      } else {
        var source, destination := TextOf(v, "source").value, TextOf(v, "destination").value;
        EntryNodesOk(l.nodes, source, destination);
        var n := EntryNodes(l.nodes, source, destination);
        NodesKeep(r, l, n, FieldsOf(v).None?);
        if FieldsOf(v).Some? {
          var route := EntryRoute(n, PersistedId(v).value, source, destination, FieldsOf(v).value);
          if Acceptable(route) {
            AcceptKeeps(r, l.(nodes := n), v, index, route);
          }
        }
      }
    }
  }

  lemma LoopKeeps(r: Registry, l: Loop, items: seq<Json>)
    requires RegistryOk(r) && SoundLoop(r, l)
    ensures SoundLoop(r, LoadRoutes(r, l, items, |items|))
  {
    var p := (x: Loop, i: nat) => SoundLoop(r, x);
    forall x, i | 0 <= i < |items| && p(x, i) ensures p(EntryStep(r, x, items[i], i), i + 1) {
      EntryKeeps(r, x, items[i], i);
    }
    LoopInduction(r, l, items, |items|, p);
  }

  lemma {:induction false} DevicesRegister(n: Nodes, devices: seq<string>)
    requires NodesOk(n)
    ensures NodesOk(RegisterDevices(n, devices))
  {
    if devices != [] {
      var before := RegisterDevices(n, devices[..|devices| - 1]);
      var id := devices[|devices| - 1];
      DevicesRegister(n, devices[..|devices| - 1]);
      RegisterKeeps(before, CaptureOf(id));
      RegisterKeeps(Register(before, CaptureOf(id)), PlaybackOf(id));
    }
  }

  lemma StartIsCore(r: Registry, file: Json)
    ensures SoundLoop(r, StartLoop(Initial(), file))
  {
    DevicesRegister(NO_NODES, DevicesOf(ItemsAt(file, "activated_devices")));
    NothingAgrees(r);
  }

  lemma LoopIsSound(r: Registry, file: Json)
    requires RegistryOk(r)
    ensures SoundLoop(r, RouteLoop(r, Initial(), file))
  {
    StartIsCore(r, file);
    LoopKeeps(r, StartLoop(Initial(), file), ItemsAt(file, "routes"));
  }

  /** Whatever a settings file holds, and however far it could be loaded, cache and engine agree
      afterwards. */
  lemma LoadedAgrees(r: Registry, file: Json, readable: bool)
    requires RegistryOk(r)
    ensures Core(r, Load(r, Initial(), file, readable).m)
  {
    InitialInv(r);
    LoopIsSound(r, file);
  }

  // ---------- A load that fails half-way ----------

  /** Entry i became a route with this ID, and carried DSP settings. */
  predicate Carries(accepted: seq<nat>, items: seq<Json>, i: nat, id: nat) {
    i in accepted && i < |items| && items[i].Has("dsp") && PersistedId(items[i]) == Some(id)
  }

  /** Settings and executed chains come from accepted entries, and from nowhere else. */
  ghost predicate Traced(l: Loop, items: seq<Json>) {
    && (forall id :: id in l.cache <==> exists i :: Carries(l.accepted, items, i, id))
    && (forall id :: id in l.slots ==> id in l.cache)
  }

  lemma AcceptTraced(r: Registry, l: Loop, items: seq<Json>, k: nat, route: AudioRoute)
    requires k < |items| && Traced(l, items) && PersistedId(items[k]) == Some(route.id)
    ensures Traced(Accept(r, l, items[k], k, route), items)
  {
    var l' := Accept(r, l, items[k], k, route);
    assert forall i :: i in l'.accepted <==> i in l.accepted || i == k;
    forall id ensures id in l'.cache <==> exists i :: Carries(l'.accepted, items, i, id) {
      if id in l.cache {
        var i :| Carries(l.accepted, items, i, id);
        assert Carries(l'.accepted, items, i, id);
      } else if items[k].Has("dsp") && id == route.id {
        assert Carries(l'.accepted, items, k, id);
      } else if i :| Carries(l'.accepted, items, i, id) {
        if i in l.accepted {
          assert Carries(l.accepted, items, i, id);
        }
      }
    }
  }

  /** An entry adds at most its own route. */
  lemma EntryAdds(r: Registry, l: Loop, v: Json, index: nat) returns (adds: bool, n: Nodes, route: AudioRoute)
    ensures var l' := EntryStep(r, l, v, index);
      if adds then PersistedId(v) == Some(route.id) && l' == Accept(r, l.(nodes := n), v, index, route)
      else l'.accepted == l.accepted && l'.cache == l.cache && l'.slots == l.slots
  {
    adds, n, route := false, l.nodes, AudioGraph.AudioRoute(0, 0, 0, 0, 0, 0.0, false);
    if !l.threw && PersistedId(v).Some? && TextOf(v, "source").Some? && TextOf(v, "destination").Some? && FieldsOf(v).Some? {
      var source, destination := TextOf(v, "source").value, TextOf(v, "destination").value;
      n := EntryNodes(l.nodes, source, destination);
      route := EntryRoute(n, PersistedId(v).value, source, destination, FieldsOf(v).value);
      adds := Acceptable(route);
    }
  }

  lemma TracedStep(r: Registry, l: Loop, items: seq<Json>, k: nat)
    requires k < |items| && Traced(l, items)
    ensures Traced(EntryStep(r, l, items[k], k), items)
  {
    var adds, n, route := EntryAdds(r, l, items[k], k);
    if adds {
      AcceptTraced(r, l.(nodes := n), items, k, route);
    }
  }

  lemma LoopTraced(r: Registry, l: Loop, items: seq<Json>)
    requires l.cache == map[] && l.slots == map[] && l.accepted == []
    ensures Traced(LoadRoutes(r, l, items, |items|), items)
  {
    var p := (x: Loop, i: nat) => Traced(x, items);
    forall x, i | 0 <= i < |items| && p(x, i) ensures p(EntryStep(r, x, items[i], i), i + 1) {
      TracedStep(r, x, items, i);
    }
    LoopInduction(r, l, items, |items|, p);
  }

  lemma FreshUnlessThrew(r: Registry, file: Json)
    requires RegistryOk(r)
    ensures var m := Load(r, Initial(), file, true).m;
      var l := RouteLoop(r, Initial(), file);
      Fresh(m.nextRoute, m.cache, m.slots)
      <==> !(l.threw && exists i: nat, id: nat :: id < MAX_ROUTE_ID && Carries(l.accepted, ItemsAt(file, "routes"), i, id))
  {
    var items := ItemsAt(file, "routes");
    LoopTraced(r, StartLoop(Initial(), file), items);
    var l := RouteLoop(r, Initial(), file);
    if l.threw {
      forall i: nat, id: nat | id < MAX_ROUTE_ID && Carries(l.accepted, items, i, id) ensures id in l.cache && 1 <= id {
      }
      forall id | id in l.cache && id < MAX_ROUTE_ID ensures exists i :: Carries(l.accepted, items, i, id) {
      }
    } else {
      LoopIsSound(r, file);
    }
  }

  // ---------- What can be read off the file ----------

  /** An entry with a valid ID whose other members have the wrong types. It ends loading. */
  predicate Unreadable(v: Json) {
    PersistedId(v).Some? && (TextOf(v, "source").None? || TextOf(v, "destination").None? || FieldsOf(v).None?)
  }

  function Named(e: string): seq<string> {
    if e == "" then [] else [e]
  }

  /** The endpoints that a readable entry names. */
  function Ends(v: Json): seq<string> {
    if PersistedId(v).None? || TextOf(v, "source").None? || TextOf(v, "destination").None? then []
    else Named(TextOf(v, "source").value) + Named(TextOf(v, "destination").value)
  }

  /** All endpoints that a file names up to its k-th route entry, in order: both sides of each
      device, then the ends of each entry. */
  function DeviceEnds(devices: seq<string>): seq<string> {
    if devices == [] then []
    else DeviceEnds(devices[..|devices| - 1]) + [CaptureOf(devices[|devices| - 1]), PlaybackOf(devices[|devices| - 1])]
  }

  function EndsBefore(items: seq<Json>, k: nat): seq<string>
    requires k <= |items|
  {
    if k == 0 then [] else EndsBefore(items, k - 1) + Ends(items[k - 1])
  }

  function EndpointsUpTo(file: Json, k: nat): seq<string>
    requires k <= |ItemsAt(file, "routes")|
  {
    DeviceEnds(DevicesOf(ItemsAt(file, "activated_devices"))) + EndsBefore(ItemsAt(file, "routes"), k)
  }

  /** The distinct endpoints in a list that need an ID. */
  function Distinct(es: seq<string>): set<string> {
    set e | e in es && e != TONE
  }

  /** There is an ID for e: it is the tone, or one of the first 255 distinct endpoints. */
  predicate HasRoom(es: seq<string>, e: string) {
    e == TONE || exists j :: 0 <= j < |es| && es[j] == e && |Distinct(es[..j])| < MAX_NODES - 1
  }

  predicate InRange(f: Fields) {
    f.sourceChannel < MAX_CHANNELS && f.destinationChannel < MAX_CHANNELS && GainOk(f.gain)
  }

  /** This end of an entry gets an ID. */
  predicate GetsNode(es: seq<string>, end: Option<string>) {
    end.Some? && end.value != "" && HasRoom(es, end.value)
  }

  /** Entry i can become a route: it can be read, its members are in range, and both its ends get IDs. */
  predicate BecomesRoute(file: Json, i: nat)
    requires i < |ItemsAt(file, "routes")|
  {
    var v := ItemsAt(file, "routes")[i];
    && PersistedId(v).Some? && !Unreadable(v) && InRange(FieldsOf(v).value)
    && GetsNode(EndpointsUpTo(file, i + 1), TextOf(v, "source"))
    && GetsNode(EndpointsUpTo(file, i + 1), TextOf(v, "destination"))
  }

  /** Entry j is the first that cannot be read. */
  predicate BreaksAt(file: Json, j: nat) {
    var items := ItemsAt(file, "routes");
    j < |items| && Unreadable(items[j]) && forall k :: 0 <= k < j ==> !Unreadable(items[k])
  }

  /** Registering a list of endpoints. */
  function RegisterAll(n: Nodes, es: seq<string>): Nodes {
    if es == [] then n else Register(RegisterAll(n, es[..|es| - 1]), es[|es| - 1])
  }

  lemma {:induction false} RegisterAllAppend(n: Nodes, es: seq<string>, fs: seq<string>)
    ensures RegisterAll(n, es + fs) == RegisterAll(RegisterAll(n, es), fs)
  {
    if fs == [] {
      assert es + fs == es;
    } else {
      var k := |fs| - 1;
      RegisterAllAppend(n, es, fs[..k]);
      assert (es + fs)[..|es + fs| - 1] == es + fs[..k];
    }
  }

  lemma RegisterOne(n: Nodes, e: string)
    ensures RegisterAll(n, [e]) == Register(n, e)
  {
    assert [e][..0] == [];
  }

  /** While IDs last, exactly the distinct endpoints have one; afterwards nothing changes. */
  ghost predicate Covers(n: Nodes, es: seq<string>) {
    && NodesOk(n) && (n.next < MAX_NODES ==> n.ids.Keys == Distinct(es))
    && forall e :: NodeId(n, e) != NODE_INVALID <==> HasRoom(es, e)
  }

  lemma DistinctNext(es: seq<string>, e: string)
    ensures Distinct(es + [e]) == if e == TONE then Distinct(es) else Distinct(es) + {e}
  {
  }

  lemma HasRoomNext(es: seq<string>, e: string, x: string)
    ensures HasRoom(es + [e], x) <==> HasRoom(es, x) || (x == e && |Distinct(es)| < MAX_NODES - 1)
  {
    var fs := es + [e];
    if j :| 0 <= j < |es| && es[j] == x && |Distinct(es[..j])| < MAX_NODES - 1 {
      assert fs[..j] == es[..j] && fs[j] == x;
    }
    if j :| 0 <= j < |fs| && fs[j] == x && |Distinct(fs[..j])| < MAX_NODES - 1 {
      if j < |es| {
        assert fs[..j] == es[..j] && es[j] == x;
      } else {
        assert fs[..j] == es;
      }
    }
    assert fs[..|es|] == es && fs[|es|] == e;
  }

  /** When the IDs are used up, as many distinct endpoints were named. */
  lemma UsedUp(n: Nodes, es: seq<string>)
    requires Covers(n, es) && n.next == MAX_NODES
    ensures |Distinct(es)| >= MAX_NODES - 1
  {
    forall e | e in n.ids ensures e in Distinct(es) {
      assert NodeId(n, e) != NODE_INVALID;
    }
    SubsetSize(n.ids.Keys, Distinct(es));
  }

  lemma CoversNext(n: Nodes, es: seq<string>, e: string)
    requires Covers(n, es) && e != ""
    ensures Covers(Register(n, e), es + [e])
  {
    RegisterKeeps(n, e);
    DistinctNext(es, e);
    if n.next == MAX_NODES {
      UsedUp(n, es);
    }
    forall x ensures NodeId(Register(n, e), x) != NODE_INVALID <==> HasRoom(es + [e], x) {
      HasRoomNext(es, e, x);
    }
  }

  lemma {:induction false} AllCover(es: seq<string>)
    requires "" !in es
    ensures Covers(RegisterAll(NO_NODES, es), es)
  {
    if es != [] {
      var k := |es| - 1;
      AllCover(es[..k]);
      CoversNext(RegisterAll(NO_NODES, es[..k]), es[..k], es[k]);
      assert es == es[..k] + [es[k]];
    }
  }

  lemma {:induction false} DevicesAreEnds(devices: seq<string>)
    ensures RegisterDevices(NO_NODES, devices) == RegisterAll(NO_NODES, DeviceEnds(devices)) && "" !in DeviceEnds(devices)
  {
    if devices != [] {
      var id := devices[|devices| - 1];
      var before := DeviceEnds(devices[..|devices| - 1]);
      DevicesAreEnds(devices[..|devices| - 1]);
      RegisterAllAppend(NO_NODES, before, [CaptureOf(id)]);
      RegisterOne(RegisterAll(NO_NODES, before), CaptureOf(id));
      RegisterAllAppend(NO_NODES, before + [CaptureOf(id)], [PlaybackOf(id)]);
      RegisterOne(RegisterAll(NO_NODES, before + [CaptureOf(id)]), PlaybackOf(id));
      assert before + [CaptureOf(id)] + [PlaybackOf(id)] == DeviceEnds(devices);
    }
  }

  lemma NamedRegisters(n: Nodes, e: string)
    ensures RegisterAll(n, Named(e)) == RegisterNamed(n, e)
  {
    if e != "" {
      RegisterOne(n, e);
    }
  }

  lemma EndsRegister(n: Nodes, v: Json)
    requires PersistedId(v).Some? && TextOf(v, "source").Some? && TextOf(v, "destination").Some?
    ensures RegisterAll(n, Ends(v)) == EntryNodes(n, TextOf(v, "source").value, TextOf(v, "destination").value)
    ensures "" !in Ends(v)
  {
    var source, destination := TextOf(v, "source").value, TextOf(v, "destination").value;
    RegisterAllAppend(n, Named(source), Named(destination));
    NamedRegisters(n, source);
    NamedRegisters(RegisterNamed(n, source), destination);
  }

  /** The registered nodes after k entries, all of them readable, are those of the endpoints named. */
  ghost predicate Reached(file: Json, l: Loop, k: nat)
    requires k <= |ItemsAt(file, "routes")|
  {
    && !l.threw && l.nodes == RegisterAll(NO_NODES, EndpointsUpTo(file, k))
    && forall i: nat :: i in l.accepted <==> i < k && BecomesRoute(file, i)
  }

  lemma {:induction false} EndsAreNamed(file: Json, k: nat)
    requires k <= |ItemsAt(file, "routes")|
    ensures "" !in EndpointsUpTo(file, k)
  {
    if k == 0 {
      DevicesAreEnds(DevicesOf(ItemsAt(file, "activated_devices")));
    } else {
      EndsAreNamed(file, k - 1);
    }
  }

  lemma EntryReached(r: Registry, file: Json, l: Loop, k: nat)
    requires k < |ItemsAt(file, "routes")| && Reached(file, l, k) && !Unreadable(ItemsAt(file, "routes")[k])
    ensures Reached(file, EntryStep(r, l, ItemsAt(file, "routes")[k], k), k + 1)
  {
    var v := ItemsAt(file, "routes")[k];
    NodesReached(file, l.nodes, k);
    if PersistedId(v).Some? {
      ReadableEntry(r, l, v, k);
      RouteAcceptable(file, k, EntryNodes(l.nodes, TextOf(v, "source").value, TextOf(v, "destination").value));
    }
    ReachedNext(file, l, EntryStep(r, l, v, k), k);
  }

  lemma ReachedNext(file: Json, l: Loop, l': Loop, k: nat)
    requires k < |ItemsAt(file, "routes")| && Reached(file, l, k)
    requires !l'.threw && l'.nodes == RegisterAll(NO_NODES, EndpointsUpTo(file, k + 1))
    requires l'.accepted == if BecomesRoute(file, k) then l.accepted + [k] else l.accepted
    ensures Reached(file, l', k + 1)
  {
  }

  /** The nodes after a readable entry. */
  function NodesAfter(n: Nodes, v: Json): Nodes
    requires !Unreadable(v)
  {
    if PersistedId(v).None? then n else EntryNodes(n, TextOf(v, "source").value, TextOf(v, "destination").value)
  }

  lemma NodesReached(file: Json, n: Nodes, k: nat)
    requires k < |ItemsAt(file, "routes")| && n == RegisterAll(NO_NODES, EndpointsUpTo(file, k))
    requires !Unreadable(ItemsAt(file, "routes")[k])
    ensures var n' := NodesAfter(n, ItemsAt(file, "routes")[k]);
      n' == RegisterAll(NO_NODES, EndpointsUpTo(file, k + 1)) && Covers(n', EndpointsUpTo(file, k + 1))
  {
    var v := ItemsAt(file, "routes")[k];
    MoreEnds(file, k);
    EndsAfter(n, v);
    RegisterAllAppend(NO_NODES, EndpointsUpTo(file, k), Ends(v));
    EndsAreNamed(file, k + 1);
    AllCover(EndpointsUpTo(file, k + 1));
  }

  lemma MoreEnds(file: Json, k: nat)
    requires k < |ItemsAt(file, "routes")|
    ensures EndpointsUpTo(file, k + 1) == EndpointsUpTo(file, k) + Ends(ItemsAt(file, "routes")[k])
  {
  }

  lemma EndsAfter(n: Nodes, v: Json)
    requires !Unreadable(v)
    ensures RegisterAll(n, Ends(v)) == NodesAfter(n, v)
  {
    if PersistedId(v).Some? {
      EndsRegister(n, v);
    }
  }

  /** What one readable entry does. */
  lemma ReadableEntry(r: Registry, l: Loop, v: Json, index: nat)
    requires !l.threw && PersistedId(v).Some? && !Unreadable(v)
    ensures var l' := EntryStep(r, l, v, index);
      var source, destination := TextOf(v, "source").value, TextOf(v, "destination").value;
      var n := EntryNodes(l.nodes, source, destination);
      var route := EntryRoute(n, PersistedId(v).value, source, destination, FieldsOf(v).value);
      && !l'.threw && l'.nodes == n
      && l'.accepted == if Acceptable(route) then l.accepted + [index] else l.accepted
  {
  }

  lemma RouteAcceptable(file: Json, k: nat, n: Nodes)
    requires k < |ItemsAt(file, "routes")| && Covers(n, EndpointsUpTo(file, k + 1))
    requires var v := ItemsAt(file, "routes")[k]; PersistedId(v).Some? && !Unreadable(v)
    ensures var v := ItemsAt(file, "routes")[k];
      Acceptable(EntryRoute(n, PersistedId(v).value, TextOf(v, "source").value, TextOf(v, "destination").value, FieldsOf(v).value))
      <==> BecomesRoute(file, k)
  {
  }

  lemma StartReached(r: Registry, file: Json)
    ensures Reached(file, StartLoop(Initial(), file), 0)
  {
    DevicesAreEnds(DevicesOf(ItemsAt(file, "activated_devices")));
    assert EndpointsUpTo(file, 0) == DeviceEnds(DevicesOf(ItemsAt(file, "activated_devices")));
  }

  lemma {:induction false} ReadableReached(r: Registry, file: Json, k: nat)
    requires k <= |ItemsAt(file, "routes")| && forall j :: 0 <= j < k ==> !Unreadable(ItemsAt(file, "routes")[j])
    ensures Reached(file, LoadRoutes(r, StartLoop(Initial(), file), ItemsAt(file, "routes"), k), k)
  {
    if k == 0 {
      StartReached(r, file);
    } else {
      ReadableReached(r, file, k - 1);
      EntryReached(r, file, LoadRoutes(r, StartLoop(Initial(), file), ItemsAt(file, "routes"), k - 1), k - 1);
    }
  }

  /** Nothing is accepted after an entry that cannot be read. */
  lemma {:induction false} BrokenReached(r: Registry, file: Json, j: nat, k: nat)
    requires BreaksAt(file, j) && j < k <= |ItemsAt(file, "routes")|
    ensures var l := LoadRoutes(r, StartLoop(Initial(), file), ItemsAt(file, "routes"), k);
      l.threw && forall i: nat :: i in l.accepted <==> i < j && BecomesRoute(file, i)
  {
    if k == j + 1 {
      ReadableReached(r, file, j);
    } else {
      BrokenReached(r, file, j, k - 1);
    }
  }

  lemma {:induction false} FirstUnreadable(file: Json, k: nat) returns (j: nat)
    requires k < |ItemsAt(file, "routes")| && Unreadable(ItemsAt(file, "routes")[k])
    ensures BreaksAt(file, j)
  {
    if i :| 0 <= i < k && Unreadable(ItemsAt(file, "routes")[i]) {
      j := FirstUnreadable(file, i);
    } else {
      j := k;
    }
  }

  /** Loading fails at a route entry exactly when one of them cannot be read. */
  lemma LoadingBreaksIff(r: Registry, file: Json)
    ensures RouteLoop(r, Initial(), file).threw <==> exists j: nat :: BreaksAt(file, j)
  {
    var items := ItemsAt(file, "routes");
    if j: nat :| BreaksAt(file, j) {
      BrokenReached(r, file, j, |items|);
    } else {
      forall k | 0 <= k < |items| ensures !Unreadable(items[k]) {
        if Unreadable(items[k]) {
          var j := FirstUnreadable(file, k);
        }
      }
      ReadableReached(r, file, |items|);
    }
  }

  /** Before its first unreadable route entry, the file has one with DSP settings that becomes a
      route. */
  predicate LeavesDspBehind(file: Json, i: nat, j: nat) {
    var items := ItemsAt(file, "routes");
    i < j && BreaksAt(file, j) && BecomesRoute(file, i) && items[i].Has("dsp") && PersistedId(items[i]).value < MAX_ROUTE_ID
  }

  /** A new route may inherit the settings of a file that failed to load. This happens exactly for
      files in which an entry with DSP settings that becomes a route comes before the first entry
      that cannot be read. */
  lemma FreshUnlessLoadBroke(r: Registry, file: Json)
    requires RegistryOk(r)
    ensures var m := Load(r, Initial(), file, true).m;
      Fresh(m.nextRoute, m.cache, m.slots) <==> !exists i: nat, j: nat :: LeavesDspBehind(file, i, j)
  {
    var items := ItemsAt(file, "routes");
    var l := RouteLoop(r, Initial(), file);
    FreshUnlessThrew(r, file);
    LoadingBreaksIff(r, file);
    if l.threw {
      var j: nat :| BreaksAt(file, j);
      BrokenReached(r, file, j, |items|);
      forall i: nat, id: nat | id < MAX_ROUTE_ID && Carries(l.accepted, items, i, id) ensures LeavesDspBehind(file, i, j) {
      }
      forall i: nat, k: nat | LeavesDspBehind(file, i, k)
        ensures Carries(l.accepted, items, i, PersistedId(items[i]).value)
      {
        assert k == j by {
          assert BreaksAt(file, k);
        }
      }
    }
  }
}
