/** Routes, their DSP settings and the engine's slots, as every control operation changes them. */
module Routing {
  import AudioGraph
  import opened DspSettings
  import opened JsonValues
  import opened Limits
  import opened NodeRegistry
  import opened ProcessorRegistries
  import opened Wrappers

  type AudioRoute = AudioGraph.AudioRoute

  const MAX_ROUTE_ID := 0xFFFF_FFFF

  /** The control state. `slots` is what the engine's published DSP slots execute; a slot that was
      never written executes nothing. */
  datatype Manager = Manager(
    nodes: Nodes, routes: seq<AudioRoute>, nextRoute: nat, devices: seq<string>, names: map<string, string>,
    cache: map<nat, RouteDspState>, slots: map<nat, Executed>)

  function Initial(): Manager {
    Manager(NO_NODES, [], 1, [], map[], map[], map[])
  }

  function SlotOf(slots: map<nat, Executed>, id: nat): Executed {
    if id in slots then slots[id] else NO_EXECUTION
  }

  function StateOf(cache: map<nat, RouteDspState>, id: nat): RouteDspState {
    if id in cache then cache[id] else NO_DSP
  }

  predicate Exists(routes: seq<AudioRoute>, id: nat) {
    exists i :: 0 <= i < |routes| && routes[i].id == id
  }

  predicate SameEdge(a: AudioRoute, b: AudioRoute) {
    a.source == b.source && a.sourceChannel == b.sourceChannel
    && a.destination == b.destination && a.destinationChannel == b.destinationChannel
  }

  // ---------- Adding, removing, updating ----------

  /** An endpoint with a known layout: a device or a session of this moment. */
  datatype Live = Live(endpoint: string, capture: bool, channels: nat)

  /** A channel must fit an endpoint whose layout is known; others are only bounded. */
  function Fits(live: seq<Live>, endpoint: string, channel: nat, isSource: bool): bool {
    if endpoint == TONE then isSource && channel == 0
    else if live == [] then true
    else if live[0].endpoint == endpoint then isSource == live[0].capture && channel < live[0].channels
    else Fits(live[1..], endpoint, channel, isSource)
  }

  predicate Addable(m: Manager, r: AudioRoute, live: seq<Live>) {
    && r.sourceChannel < MAX_CHANNELS && r.destinationChannel < MAX_CHANNELS && GainOk(r.gain)
    && 0 <= r.source < MAX_NODES && 0 <= r.destination < MAX_NODES
    && EndpointOf(m.nodes, r.source) != "" && EndpointOf(m.nodes, r.destination) != ""
    && Fits(live, EndpointOf(m.nodes, r.source), r.sourceChannel, true)
    && Fits(live, EndpointOf(m.nodes, r.destination), r.destinationChannel, false)
    && (forall i :: 0 <= i < |m.routes| ==> !SameEdge(m.routes[i], r))
    && m.nextRoute != MAX_ROUTE_ID
  }

  function AddRoute(m: Manager, r: AudioRoute, live: seq<Live>): Manager {
    if Addable(m, r, live)
    then m.(routes := m.routes + [r.(id := m.nextRoute)], nextRoute := m.nextRoute + 1)
    else m
  }

  function Others(routes: seq<AudioRoute>, id: nat): (rest: seq<AudioRoute>)
    ensures forall i :: 0 <= i < |rest| ==> rest[i].id != id && rest[i] in routes
    ensures forall i :: 0 <= i < |routes| && routes[i].id != id ==> routes[i] in rest
  {
    if routes == [] then []
    else Others(routes[..|routes| - 1], id) +
         if routes[|routes| - 1].id != id then [routes[|routes| - 1]] else []
  }

  /** Removing a route forgets its settings; its slot in the engine stays as it is. */
  function RemoveRoute(m: Manager, id: nat): Manager {
    if Exists(m.routes, id) then m.(routes := Others(m.routes, id), cache := m.cache - {id}) else m
  }

  /** The first route with this ID. */
  function IndexOf(routes: seq<AudioRoute>, id: nat): (k: nat)
    requires Exists(routes, id)
    ensures k < |routes| && routes[k].id == id && forall i :: 0 <= i < k ==> routes[i].id != id
  {
    if routes[0].id == id then 0 else
      assert Exists(routes[1..], id) by {
        var i :| 0 <= i < |routes| && routes[i].id == id;
        assert routes[1..][i - 1].id == id;
      }
      1 + IndexOf(routes[1..], id)
  }

  function UpdateRoute(m: Manager, id: nat, gain: real, enabled: bool): Manager {
    if GainOk(gain) && Exists(m.routes, id) then
      var k := IndexOf(m.routes, id);
      m.(routes := m.routes[k := m.routes[k].(gain := gain, enabled := enabled)])
    else m
  }

  // ---------- DSP settings ----------

  /** The engine accepts only what fits a slot. */
  predicate Installable(id: nat, p: Prepared) {
    Supported(id) && |p.processors| <= MAX_PROCESSORS && GainOk(p.state.gain)
  }

  /** Publication to the engine and the cache. */
  function Install(m: Manager, id: nat, p: Prepared): Manager {
    m.(slots := m.slots[id := p.Execution()], cache := m.cache[id := p.state])
  }

  predicate Postable(r: Registry, m: Manager, id: nat, body: Json) {
    Exists(m.routes, id) && Supported(id) && Prepare(r, body).Some?
  }

  function PostDsp(r: Registry, m: Manager, id: nat, body: Json): Manager {
    if Postable(r, m, id, body) then Install(m, id, Prepare(r, body).value) else m
  }

  predicate Applicable(r: Registry, m: Manager, id: nat, body: Json) {
    && Exists(m.routes, id) && Supported(id)
    && body.Has("gain") && body.At("gain").IsNumber() && GainOk(body.At("gain").Number())
    && body.Has("enabled") && body.At("enabled").Bool?
    && body.Has("dsp") && Prepare(r, body.At("dsp")).Some?
  }

  function Apply(r: Registry, m: Manager, id: nat, body: Json): Manager {
    if Applicable(r, m, id, body) then
      Install(UpdateRoute(m, id, body.At("gain").Number(), body.At("enabled").b), id, Prepare(r, body.At("dsp")).value)
    else m
  }

  // ---------- Endpoints ----------

  function CaptureOf(id: string): string { "hardware/" + id + "/capture" }

  function PlaybackOf(id: string): string { "hardware/" + id + "/playback" }

  /** Registering both sides of an endpoint; when the first finds no ID, the second is not tried. */
  function RegisterPair(n: Nodes, first: string, second: string): Nodes {
    if NodeId(Register(n, first), first) == NODE_INVALID then Register(n, first)
    else Register(Register(n, first), second)
  }

  predicate BothKnown(n: Nodes, id: string) {
    NodeId(n, CaptureOf(id)) != NODE_INVALID && NodeId(n, PlaybackOf(id)) != NODE_INVALID
  }

  /** An activation request: both directions need an ID before the device is opened. */
  function Activate(m: Manager, id: string, works: bool): Manager {
    var n := RegisterPair(m.nodes, CaptureOf(id), PlaybackOf(id));
    if BothKnown(n, id) && works && id !in m.devices then m.(nodes := n, devices := m.devices + [id])
    else m.(nodes := n)
  }

  function Without(devices: seq<string>, id: string): (rest: seq<string>)
    ensures forall d :: d in rest ==> d in devices
  {
    if devices == [] then [] else if devices[0] == id then devices[1..] else [devices[0]] + Without(devices[1..], id)
  }

  function Deactivate(m: Manager, id: string): Manager {
    m.(devices := Without(m.devices, id))
  }

  function ClientCapture(key: string): string { "client/" + key + "/capture" }

  function ClientPlayback(key: string): string { "client/" + key + "/playback" }

  /** A client claims a key: refused when it is empty, taken by another active session, or when no
      ID is left. */
  function Claim(m: Manager, key: string, name: string, taken: bool): Manager {
    if key == "" || taken then m
    else
      var n := RegisterPair(m.nodes, ClientCapture(key), ClientPlayback(key));
      if NodeId(n, ClientCapture(key)) == NODE_INVALID || NodeId(n, ClientPlayback(key)) == NODE_INVALID then m.(nodes := n)
      else m.(nodes := n, names := m.names[key := if name == "" then key else name])
  }

  // ---------- Runs ----------

  datatype Action =
    | Add(route: AudioRoute, live: seq<Live>)
    | Remove(id: nat)
    | Update(id: nat, gain: real, enabled: bool)
    | Post(id: nat, body: Json)
    | ApplyAll(id: nat, body: Json)
    | ActivateDevice(device: string, works: bool)
    | DeactivateDevice(device: string)
    | ClaimIdentity(key: string, name: string, taken: bool)

  function Step(r: Registry, m: Manager, a: Action): Manager {
    match a
    case Add(route, live) => AddRoute(m, route, live)
    case Remove(id) => RemoveRoute(m, id)
    case Update(id, gain, enabled) => UpdateRoute(m, id, gain, enabled)
    case Post(id, body) => PostDsp(r, m, id, body)
    case ApplyAll(id, body) => Apply(r, m, id, body)
    case ActivateDevice(device, works) => Activate(m, device, works)
    case DeactivateDevice(device) => Deactivate(m, device)
    case ClaimIdentity(key, name, taken) => Claim(m, key, name, taken)
  }

  // ---------- Invariants ----------

  ghost predicate RouteOk(n: Nodes, next: nat, r: AudioRoute) {
    && 1 <= r.id < next && r.sourceChannel < MAX_CHANNELS && r.destinationChannel < MAX_CHANNELS && GainOk(r.gain)
    && EndpointOf(n, r.source) != "" && EndpointOf(n, r.destination) != ""
  }

  /** Route IDs are distinct and below the counter, and no two routes share an edge. */
  ghost predicate RoutesOk(n: Nodes, routes: seq<AudioRoute>, next: nat) {
    && 1 <= next <= MAX_ROUTE_ID
    && (forall i :: 0 <= i < |routes| ==> RouteOk(n, next, routes[i]))
    && (forall i, j :: 0 <= i < j < |routes| ==> routes[i].id != routes[j].id && !SameEdge(routes[i], routes[j]))
  }

  /** The cache entry of a route and the engine's slot say the same. */
  ghost predicate Agree(r: Registry, s: RouteDspState, e: Executed) {
    && e.active == s.active && e.gain == s.gain && GainOk(s.gain)
    && if s.warning then !s.active && e.processors == []
       else s.chain.Arr? && |s.chain.items| <= MAX_PROCESSORS && s.chain == Arr(ItemsJson(e.processors))
            && ItemsOf(r, s.chain.items) == Some(e.processors)
  }

  ghost predicate Agreed(r: Registry, routes: seq<AudioRoute>, cache: map<nat, RouteDspState>, slots: map<nat, Executed>) {
    forall i :: 0 <= i < |routes| && Supported(routes[i].id) ==>
      Agree(r, StateOf(cache, routes[i].id), SlotOf(slots, routes[i].id))
  }

  /** IDs that are still to be given out have neither settings nor an executed chain. */
  ghost predicate Fresh(next: nat, cache: map<nat, RouteDspState>, slots: map<nat, Executed>) {
    forall id: nat :: next <= id < MAX_ROUTE_ID ==> id !in cache && SlotOf(slots, id) == NO_EXECUTION
  }

  ghost predicate DevicesKnown(n: Nodes, devices: seq<string>) {
    forall d :: d in devices ==> BothKnown(n, d)
  }

  /** IDs of existing routes have been given out. */
  ghost predicate GivenOut(m: Manager, id: nat) {
    id < m.nextRoute || id >= MAX_ROUTE_ID
  }

  /** Every route's ID was given out by the counter or is above it for good. */
  ghost predicate IdsGivenOut(m: Manager) {
    forall i :: 0 <= i < |m.routes| ==> GivenOut(m, m.routes[i].id)
  }

  /** What holds in every run, whatever file it started from and whether or not that could be loaded. */
  ghost predicate Core(r: Registry, m: Manager) {
    && NodesOk(m.nodes) && 1 <= m.nextRoute <= MAX_ROUTE_ID
    && Agreed(r, m.routes, m.cache, m.slots)
    && Ready(r, m.nextRoute, m.cache, m.slots)
    && IdsGivenOut(m)
  }

  /** Cache and engine agree on the IDs that are still to be given out, too. */
  ghost predicate Ready(r: Registry, next: nat, cache: map<nat, RouteDspState>, slots: map<nat, Executed>) {
    forall id :: next <= id < MAX_ROUTE_ID && Supported(id) ==> Agree(r, StateOf(cache, id), SlotOf(slots, id))
  }

  /** What holds besides in every run that started empty or from a saved file. */
  ghost predicate Inv(r: Registry, m: Manager) {
    Core(r, m) && Sound(m) && Fresh(m.nextRoute, m.cache, m.slots)
  }

  ghost predicate Sound(m: Manager) {
    RoutesOk(m.nodes, m.routes, m.nextRoute) && DevicesKnown(m.nodes, m.devices)
  }

  lemma NothingAgrees(r: Registry)
    ensures Agree(r, NO_DSP, NO_EXECUTION)
  {
    assert ItemsJson([]) == [];
  }

  /** What was prepared always fits the engine, so publication cannot fail half-way. */
  lemma PreparedIsInstallable(r: Registry, id: nat, body: Json)
    requires Supported(id) && Prepare(r, body).Some?
    ensures Installable(id, Prepare(r, body).value)
  {
  }

  lemma PreparedAgrees(r: Registry, body: Json)
    requires RegistryOk(r) && Prepare(r, body).Some?
    ensures Agree(r, Prepare(r, body).value.state, Prepare(r, body).value.Execution())
  {
    ChainIsCanonical(r, body);
  }

  // ---------- The core is kept ----------

  lemma AddKeepsCore(r: Registry, m: Manager, route: AudioRoute, live: seq<Live>)
    requires Core(r, m)
    ensures Core(r, AddRoute(m, route, live))
  {
  }

  lemma RestGivenOut(m: Manager, id: nat)
    requires IdsGivenOut(m)
    ensures IdsGivenOut(RemoveRoute(m, id))
  {
    var t := RemoveRoute(m, id);
    forall i | 0 <= i < |t.routes| ensures GivenOut(t, t.routes[i].id) {
      assert t.routes[i] in m.routes;
    }
  }

  lemma RestAgrees(r: Registry, m: Manager, id: nat)
    requires Agreed(r, m.routes, m.cache, m.slots)
    ensures Agreed(r, Others(m.routes, id), m.cache - {id}, m.slots)
  {
    var rest := Others(m.routes, id);
    forall i | 0 <= i < |rest| && Supported(rest[i].id)
      ensures Agree(r, StateOf(m.cache - {id}, rest[i].id), SlotOf(m.slots, rest[i].id))
    {
      var j :| 0 <= j < |m.routes| && m.routes[j] == rest[i];
    }
  }

  lemma RemoveKeepsCore(r: Registry, m: Manager, id: nat)
    requires Core(r, m)
    ensures Core(r, RemoveRoute(m, id))
  {
    if Exists(m.routes, id) {
      RestGivenOut(m, id);
      RestAgrees(r, m, id);
      ExistingIsGivenOut(m, id);
    }
  }

  lemma UpdateKeepsCore(r: Registry, m: Manager, id: nat, gain: real, enabled: bool)
    requires Core(r, m)
    ensures Core(r, UpdateRoute(m, id, gain, enabled))
  {
  }

  lemma InstallKeepsCore(r: Registry, m: Manager, id: nat, body: Json)
    requires RegistryOk(r) && Core(r, m) && Prepare(r, body).Some?
    ensures Core(r, Install(m, id, Prepare(r, body).value))
  {
    PreparedAgrees(r, body);
  }

  lemma PairKeeps(n: Nodes, first: string, second: string)
    requires NodesOk(n) && first != "" && second != ""
    ensures NodesOk(RegisterPair(n, first, second))
  {
    RegisterKeeps(n, first);
    RegisterKeeps(Register(n, first), second);
  }

  lemma ActivateKeepsCore(r: Registry, m: Manager, id: string, works: bool)
    requires Core(r, m)
    ensures Core(r, Activate(m, id, works))
  {
    PairKeeps(m.nodes, CaptureOf(id), PlaybackOf(id));
  }

  lemma ClaimKeepsCore(r: Registry, m: Manager, key: string, name: string, taken: bool)
    requires Core(r, m)
    ensures Core(r, Claim(m, key, name, taken))
  {
    PairKeeps(m.nodes, ClientCapture(key), ClientPlayback(key));
  }

  lemma PostKeepsCore(r: Registry, m: Manager, id: nat, body: Json)
    requires RegistryOk(r) && Core(r, m)
    ensures Core(r, PostDsp(r, m, id, body))
  {
    if Postable(r, m, id, body) {
      InstallKeepsCore(r, m, id, body);
    }
  }

  lemma ApplyKeepsCore(r: Registry, m: Manager, id: nat, body: Json)
    requires RegistryOk(r) && Core(r, m)
    ensures Core(r, Apply(r, m, id, body))
  {
    if Applicable(r, m, id, body) {
      var gain, enabled := body.At("gain").Number(), body.At("enabled").b;
      UpdateKeepsCore(r, m, id, gain, enabled);
      InstallKeepsCore(r, UpdateRoute(m, id, gain, enabled), id, body.At("dsp"));
    }
  }

  lemma CoreStep(r: Registry, m: Manager, a: Action)
    requires RegistryOk(r) && Core(r, m)
    ensures Core(r, Step(r, m, a))
  {
    match a {
      case Add(route, live) => AddKeepsCore(r, m, route, live);
      case Remove(id) => RemoveKeepsCore(r, m, id);
      case Update(id, gain, enabled) => UpdateKeepsCore(r, m, id, gain, enabled);
      case Post(id, body) => PostKeepsCore(r, m, id, body);
      case ApplyAll(id, body) => ApplyKeepsCore(r, m, id, body);
      case ActivateDevice(device, works) => ActivateKeepsCore(r, m, device, works);
      case DeactivateDevice(device) =>
      case ClaimIdentity(key, name, taken) => ClaimKeepsCore(r, m, key, name, taken);
    }
  }

  /** Any sequence of control operations. */
  ghost function Exec(r: Registry, m: Manager, actions: seq<Action>): (t: Manager)
    requires RegistryOk(r) && Core(r, m)
    ensures Core(r, t)
  {
    if actions == [] then m else
      var t := Exec(r, m, actions[..|actions| - 1]);
      CoreStep(r, t, actions[|actions| - 1]);
      Step(r, t, actions[|actions| - 1])
  }

  // ---------- Freshness is kept ----------

  lemma ExistingIsGivenOut(m: Manager, id: nat)
    requires IdsGivenOut(m) && Exists(m.routes, id)
    ensures GivenOut(m, id)
  {
    var i :| 0 <= i < |m.routes| && m.routes[i].id == id;
  }

  lemma FreshInstall(m: Manager, id: nat, p: Prepared)
    requires Fresh(m.nextRoute, m.cache, m.slots) && GivenOut(m, id)
    ensures var t := Install(m, id, p); Fresh(t.nextRoute, t.cache, t.slots)
  {
  }

  lemma FreshStep(r: Registry, m: Manager, a: Action)
    requires Fresh(m.nextRoute, m.cache, m.slots) && IdsGivenOut(m)
    ensures var t := Step(r, m, a); Fresh(t.nextRoute, t.cache, t.slots)
  {
    if a.Post? && Postable(r, m, a.id, a.body) {
      ExistingIsGivenOut(m, a.id);
      FreshInstall(m, a.id, Prepare(r, a.body).value);
    } else if a.ApplyAll? && Applicable(r, m, a.id, a.body) {
      ExistingIsGivenOut(m, a.id);
      FreshInstall(UpdateRoute(m, a.id, a.body.At("gain").Number(), a.body.At("enabled").b), a.id, Prepare(r, a.body.At("dsp")).value);
    } else {
      FreshOtherwise(r, m, a);
    }
  }

  lemma FreshOtherwise(r: Registry, m: Manager, a: Action)
    requires Fresh(m.nextRoute, m.cache, m.slots)
    requires !(a.Post? && Postable(r, m, a.id, a.body)) && !(a.ApplyAll? && Applicable(r, m, a.id, a.body))
    ensures var t := Step(r, m, a); t.nextRoute >= m.nextRoute && t.slots == m.slots && t.cache.Keys <= m.cache.Keys
    ensures var t := Step(r, m, a); Fresh(t.nextRoute, t.cache, t.slots)
  {
  }

  // ---------- Distinct routes are kept ----------

  lemma {:induction false} OthersKeep(routes: seq<AudioRoute>, id: nat, n: Nodes, next: nat)
    requires RoutesOk(n, routes, next)
    ensures RoutesOk(n, Others(routes, id), next)
  {
    if routes != [] {
      OthersKeep(routes[..|routes| - 1], id, n, next);
    }
  }

  lemma NodesGrow(n: Nodes, n': Nodes, m: Manager)
    requires RoutesOk(n, m.routes, m.nextRoute) && DevicesKnown(n, m.devices)
    requires forall e: string :: NodeId(n, e) != NODE_INVALID ==> NodeId(n', e) == NodeId(n, e)
    requires forall id: int :: EndpointOf(n, id) != "" ==> EndpointOf(n', id) == EndpointOf(n, id)
    ensures RoutesOk(n', m.routes, m.nextRoute) && DevicesKnown(n', m.devices)
  {
    forall i | 0 <= i < |m.routes| ensures RouteOk(n', m.nextRoute, m.routes[i]) {
      assert RouteOk(n, m.nextRoute, m.routes[i]);
    }
  }

  lemma RegisterGrows(n: Nodes, e: string, m: Manager)
    requires NodesOk(n) && RoutesOk(n, m.routes, m.nextRoute) && DevicesKnown(n, m.devices) && e != ""
    ensures var n' := Register(n, e);
      NodesOk(n') && RoutesOk(n', m.routes, m.nextRoute) && DevicesKnown(n', m.devices)
  {
    RegisterKeeps(n, e);
    forall x, id ensures NodeId(n, x) != NODE_INVALID ==> NodeId(Register(n, e), x) == NodeId(n, x)
      ensures EndpointOf(n, id) != "" ==> EndpointOf(Register(n, e), id) == EndpointOf(n, id)
    {
      RegisterIsStable(n, e, x, id);
    }
    NodesGrow(n, Register(n, e), m);
  }

  lemma PairGrows(n: Nodes, first: string, second: string, m: Manager)
    requires NodesOk(n) && RoutesOk(n, m.routes, m.nextRoute) && DevicesKnown(n, m.devices)
    requires first != "" && second != ""
    ensures var n' := RegisterPair(n, first, second); RoutesOk(n', m.routes, m.nextRoute) && DevicesKnown(n', m.devices)
  {
    RegisterGrows(n, first, m);
    RegisterGrows(Register(n, first), second, m);
  }

  lemma AddStaysSound(m: Manager, route: AudioRoute, live: seq<Live>)
    requires Sound(m)
    ensures Sound(AddRoute(m, route, live))
  {
  }

  lemma UpdateStaysSound(m: Manager, id: nat, gain: real, enabled: bool)
    requires Sound(m)
    ensures Sound(UpdateRoute(m, id, gain, enabled))
  {
  }

  lemma StaysSound(r: Registry, m: Manager, a: Action)
    requires NodesOk(m.nodes) && Sound(m)
    ensures Sound(Step(r, m, a))
  {
    match a {
      case Add(route, live) => AddStaysSound(m, route, live);
      case Remove(id) => OthersKeep(m.routes, id, m.nodes, m.nextRoute);
      case Update(id, gain, enabled) => UpdateStaysSound(m, id, gain, enabled);
      case Post(id, body) =>
      case ApplyAll(id, body) =>
        if Applicable(r, m, id, body) {
          UpdateStaysSound(m, id, body.At("gain").Number(), body.At("enabled").b);
        }
      case ActivateDevice(id, works) => ActivateStaysSound(m, id, works);
      case DeactivateDevice(id) => assert forall d :: d in Without(m.devices, id) ==> d in m.devices;
      case ClaimIdentity(key, name, taken) => PairGrows(m.nodes, ClientCapture(key), ClientPlayback(key), m);
    }
  }

  lemma ActivateStaysSound(m: Manager, id: string, works: bool)
    requires NodesOk(m.nodes) && Sound(m)
    ensures Sound(Activate(m, id, works))
  {
    PairGrows(m.nodes, CaptureOf(id), PlaybackOf(id), m);
  }

  lemma InvStep(r: Registry, m: Manager, a: Action)
    requires RegistryOk(r) && Inv(r, m)
    ensures Inv(r, Step(r, m, a))
  {
    CoreStep(r, m, a);
    StaysSound(r, m, a);
    FreshStep(r, m, a);
  }

  lemma {:induction false} InvRun(r: Registry, m: Manager, actions: seq<Action>)
    requires RegistryOk(r) && Inv(r, m)
    ensures Inv(r, Exec(r, m, actions))
  {
    if actions != [] {
      var n := |actions| - 1;
      InvRun(r, m, actions[..n]);
      InvStep(r, Exec(r, m, actions[..n]), actions[n]);
    }
  }

  lemma {:induction false} FreshRun(r: Registry, m: Manager, actions: seq<Action>)
    requires RegistryOk(r) && Core(r, m) && Fresh(m.nextRoute, m.cache, m.slots)
    ensures var t := Exec(r, m, actions); Fresh(t.nextRoute, t.cache, t.slots)
  {
    if actions != [] {
      var n := |actions| - 1;
      FreshRun(r, m, actions[..n]);
      FreshStep(r, Exec(r, m, actions[..n]), actions[n]);
    }
  }

  lemma InitialInv(r: Registry)
    ensures Inv(r, Initial())
  {
    NothingAgrees(r);
  }

  // ---------- Results ----------

  /** In every run that started empty or from a saved file, route IDs are distinct and below the
      counter, no edge is routed twice, and the node maps are inverse with IDs exactly 1 to
      next - 1. */
  lemma RoutingIsConsistent(r: Registry, m: Manager, actions: seq<Action>, i: nat, j: nat)
    requires RegistryOk(r) && Inv(r, m)
    ensures var t := Exec(r, m, actions);
      && NodesOk(t.nodes)
      && (i < |t.routes| ==> RouteOk(t.nodes, t.nextRoute, t.routes[i]))
      && (i < j < |t.routes| ==> t.routes[i].id != t.routes[j].id && !SameEdge(t.routes[i], t.routes[j]))
  {
    InvRun(r, m, actions);
  }

  /** In every run, whatever settings file it started from, what the cache reports for a live route
      is what the engine executes: the same switch, the same gain, exactly the processors of the
      reported chain. Only settings reported with a warning keep a chain that is not executed, and
      those are off. */
  lemma CacheTellsTheTruth(r: Registry, m: Manager, actions: seq<Action>, i: nat)
    requires RegistryOk(r) && Core(r, m)
    requires i < |Exec(r, m, actions).routes| && Supported(Exec(r, m, actions).routes[i].id)
    ensures var t := Exec(r, m, actions); var s, e := StateOf(t.cache, t.routes[i].id), SlotOf(t.slots, t.routes[i].id);
      && e.active == s.active && e.gain == s.gain
      && (if s.warning then !s.active && e.processors == [] else s.chain == Arr(ItemsJson(e.processors)))
  {
  }

  /** In every run that started with fresh IDs, a new route starts without DSP: no settings, and an
      empty, inactive slot in the engine, though slots of removed routes keep their chains. */
  lemma NewRouteInheritsNothing(r: Registry, m: Manager, actions: seq<Action>, route: AudioRoute, live: seq<Live>)
    requires RegistryOk(r) && Core(r, m) && Fresh(m.nextRoute, m.cache, m.slots)
    requires Addable(Exec(r, m, actions), route, live)
    ensures var t := AddRoute(Exec(r, m, actions), route, live);
      var id := t.routes[|t.routes| - 1].id;
      id !in t.cache && SlotOf(t.slots, id) == NO_EXECUTION && Effective(SlotOf(t.slots, id)).None?
  {
    FreshRun(r, m, actions);
  }

  predicate Touches(a: Action, id: nat) {
    (a.Remove? && a.id == id) || (a.Update? && a.id == id) || (a.Post? && a.id == id) || (a.ApplyAll? && a.id == id)
  }

  lemma {:induction false} OthersNone(routes: seq<AudioRoute>, id: nat)
    requires forall i :: 0 <= i < |routes| ==> routes[i].id != id
    ensures Others(routes, id) == routes
  {
    if routes != [] {
      OthersNone(routes[..|routes| - 1], id);
    }
  }

  lemma OthersLast(routes: seq<AudioRoute>, id: nat)
    requires routes != []
    ensures var n := |routes| - 1;
      Others(routes, id) == if routes[n].id != id then Others(routes[..n], id) + [routes[n]] else Others(routes[..n], id)
  {
  }

  /** The sequence without place k. */
  function Dropped(routes: seq<AudioRoute>, k: nat): seq<AudioRoute>
    requires k < |routes|
  {
    routes[..k] + routes[k + 1..]
  }

  lemma DroppedLast(routes: seq<AudioRoute>, k: nat)
    requires k < |routes| - 1
    ensures Dropped(routes, k) == Dropped(routes[..|routes| - 1], k) + [routes[|routes| - 1]]
  {
  }

  lemma {:induction false} OthersDropOne(routes: seq<AudioRoute>, id: nat, k: nat)
    requires k < |routes| && routes[k].id == id && forall i :: 0 <= i < |routes| && i != k ==> routes[i].id != id
    ensures Others(routes, id) == Dropped(routes, k)
  {
    var n := |routes| - 1;
    OthersLast(routes, id);
    if k < n {
      OthersDropOne(routes[..n], id, k);
      DroppedLast(routes, k);
    } else {
      OthersNone(routes[..n], id);
      assert Dropped(routes, k) == routes[..n];
    }
  }

  lemma OnlyOne(m: Manager, id: nat, k: nat, i: nat)
    requires RoutesOk(m.nodes, m.routes, m.nextRoute) && k < |m.routes| && i < |m.routes| && i != k && m.routes[k].id == id
    ensures m.routes[i].id != id
  {
  }

  /** Removing takes exactly the named route out and keeps the order of the rest. */
  lemma RemoveIsExact(m: Manager, id: nat)
    requires RoutesOk(m.nodes, m.routes, m.nextRoute) && Exists(m.routes, id)
    ensures RemoveRoute(m, id).routes == Dropped(m.routes, IndexOf(m.routes, id)) && id !in RemoveRoute(m, id).cache
  {
    var k := IndexOf(m.routes, id);
    forall i | 0 <= i < |m.routes| && i != k ensures m.routes[i].id != id {
      OnlyOne(m, id, k, i);
    }
    OthersDropOne(m.routes, id, k);
  }

  /** An operation leaves every route it does not name as it is: the route, its settings and what
      the engine executes for it. */
  lemma OtherRoutesUntouched(r: Registry, m: Manager, a: Action, i: nat)
    requires i < |m.routes| && !Touches(a, m.routes[i].id)
    ensures var t := Step(r, m, a); var id := m.routes[i].id;
      && m.routes[i] in t.routes
      && StateOf(t.cache, id) == StateOf(m.cache, id) && SlotOf(t.slots, id) == SlotOf(m.slots, id)
  {
    if a.Update? {
      UpdateLeaves(m, a.id, a.gain, a.enabled, i);
    } else if a.ApplyAll? && Applicable(r, m, a.id, a.body) {
      UpdateLeaves(m, a.id, a.body.At("gain").Number(), a.body.At("enabled").b, i);
    } else if !a.Remove? {
      assert m.routes[i] == Step(r, m, a).routes[i];
    }
  }

  lemma UpdateLeaves(m: Manager, id: nat, gain: real, enabled: bool, i: nat)
    requires i < |m.routes| && m.routes[i].id != id
    ensures var t := UpdateRoute(m, id, gain, enabled);
      m.routes[i] in t.routes && t == m.(routes := t.routes)
  {
    assert m.routes[i] == UpdateRoute(m, id, gain, enabled).routes[i];
  }

  /** Applying is all or nothing: a refused request changes neither the route nor its DSP; an
      accepted one sets the route's gain and switch, the cache and the engine's slot together. */
  lemma ApplyIsAllOrNothing(r: Registry, m: Manager, id: nat, body: Json)
    requires RegistryOk(r) && Inv(r, m)
    ensures var t := Apply(r, m, id, body);
      if !Applicable(r, m, id, body) then t == m
      else
        var k := IndexOf(m.routes, id);
        && Installable(id, Prepare(r, body.At("dsp")).value)
        && t.routes == m.routes[k := m.routes[k].(gain := body.At("gain").Number(), enabled := body.At("enabled").b)]
        && Agree(r, StateOf(t.cache, id), SlotOf(t.slots, id))
        && StateOf(t.cache, id) == Prepare(r, body.At("dsp")).value.state
  {
    if Applicable(r, m, id, body) {
      PreparedIsInstallable(r, id, body.At("dsp"));
      PreparedAgrees(r, body.At("dsp"));
    }
  }

  lemma RegisterStays(n: Nodes, first: string, second: string, e: string)
    requires NodeId(n, e) != NODE_INVALID
    ensures NodeId(Register(n, first), e) == NodeId(n, e)
    ensures NodeId(RegisterPair(n, first, second), e) == NodeId(n, e)
  {
  }

  lemma NodesStable(r: Registry, m: Manager, a: Action, e: string)
    requires NodeId(m.nodes, e) != NODE_INVALID
    ensures NodeId(Step(r, m, a).nodes, e) == NodeId(m.nodes, e)
  {
    if a.ActivateDevice? {
      RegisterStays(m.nodes, CaptureOf(a.device), PlaybackOf(a.device), e);
    } else if a.ClaimIdentity? {
      RegisterStays(m.nodes, ClientCapture(a.key), ClientPlayback(a.key), e);
    } else {
      assert Step(r, m, a).nodes == m.nodes;
    }
  }

  /** A node's ID never changes, whatever happens. */
  lemma {:induction false} NodeIdsForEver(r: Registry, m: Manager, actions: seq<Action>, e: string)
    requires RegistryOk(r) && Core(r, m) && NodeId(m.nodes, e) != NODE_INVALID
    ensures NodeId(Exec(r, m, actions).nodes, e) == NodeId(m.nodes, e)
  {
    if actions != [] {
      var n := |actions| - 1;
      NodeIdsForEver(r, m, actions[..n], e);
      NodesStable(r, Exec(r, m, actions[..n]), actions[n], e);
    }
  }

  lemma IdStaysGone(r: Registry, m: Manager, a: Action, id: nat)
    requires id < m.nextRoute && !Exists(m.routes, id)
    ensures id < Step(r, m, a).nextRoute && !Exists(Step(r, m, a).routes, id)
  {
    var routes := Step(r, m, a).routes;
    forall i | 0 <= i < |routes| ensures routes[i].id != id {
      if a.Remove? {
        assert routes[i] in m.routes;
      }
    }
  }

  /** A route ID is never given out twice. */
  lemma {:induction false} RouteIdsNotRecycled(r: Registry, m: Manager, actions: seq<Action>, id: nat)
    requires RegistryOk(r) && Core(r, m) && id < m.nextRoute && !Exists(m.routes, id)
    ensures id < Exec(r, m, actions).nextRoute && !Exists(Exec(r, m, actions).routes, id)
  {
    if actions != [] {
      var n := |actions| - 1;
      RouteIdsNotRecycled(r, m, actions[..n], id);
      IdStaysGone(r, Exec(r, m, actions[..n]), actions[n], id);
    }
  }
}
