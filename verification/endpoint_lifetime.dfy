/**
 * Lifetime of the endpoints that the audio worker uses.
 *
 * Hardware devices and web sessions are owned by shared pointers: in the device and session
 * tables, in locals of control threads, in the list of retired sessions, in the owners that a
 * rebuild has just snapshotted, in those the worker currently mixes with, and in the queue of
 * owners it has retired. The node handlers are raw pointers, and so are the adjacency lists,
 * which point into a route snapshot. An endpoint is destroyed by the step that drops its last
 * owner.
 */
module EndpointLifetime {
  type Endpoint = nat

  /** Where the worker is. A rebuild is a sequence of separate steps. */
  datatype Phase =
    | Stopped | Idle
    | TakingRoutes | TakingDevices | TakingSessions | ClearingHandlers | Binding
    | ReplacingRoutes | ClearingLists | FillingLists | Retiring | Adopting
    | Mixing

  /** Places that own an endpoint. */
  datatype Owners = Owners(
    devices: set<Endpoint>, sessions: set<Endpoint>, parked: set<Endpoint>, hands: seq<set<Endpoint>>,
    next: set<Endpoint>, current: set<Endpoint>, retired: seq<set<Endpoint>>)

  /** Raw pointers and the snapshots they rely on. `lists` holds, for every adjacency pointer, the
      route snapshot it points into. */
  datatype Graph = Graph(handlers: map<nat, Endpoint>, published: nat, taken: nat, routes: nat, lists: set<nat>)

  datatype State = State(
    phase: Phase, running: bool, own: Owners, graph: Graph,
    // History: how many endpoints were created, and which were ever in a table.
    created: nat, tabled: set<Endpoint>)

  datatype AudioAction = Begin(rebuild: bool) | Advance | Bind(node: nat, e: Endpoint) | Finish

  datatype ControlAction =
    | Create
    | TableDevice(i: nat, e: Endpoint)         // an activation publishes what it created
    | TableSession(i: nat, e: Endpoint)
    | Copy(es: set<Endpoint>)                  // a control thread takes its own owners
    | RemoveDevices(es: set<Endpoint>)         // a deactivation, or stopping all
    | RemoveSessions(es: set<Endpoint>)        // a closed session, or stopping all
    | CollectSessions
    | CollectQueue
    | Drop(i: nat)
    | PublishRoutes
    | Start | Halt | Join | Clear              // the engine's start and stop

  datatype Action = Audio(a: AudioAction) | Control(c: ControlAction)

  function Union(s: seq<set<Endpoint>>): set<Endpoint> {
    set i, e | 0 <= i < |s| && e in s[i] :: e
  }

  /** Every endpoint that some owner keeps alive. */
  function Held(o: Owners): set<Endpoint> {
    o.devices + o.sessions + o.parked + Union(o.hands) + o.next + o.current + Union(o.retired)
  }

  function Initial(): State {
    State(Stopped, false, Owners({}, {}, {}, [], {}, {}, []), Graph(map[], 1, 0, 0, {}), 0, {})
  }

  // ---------- The steps ----------

  function AudioOwners(phase: Phase, o: Owners): Owners {
    match phase
    case TakingDevices => o.(next := o.devices)
    case TakingSessions => o.(next := o.next + o.sessions)
    case Retiring => if o.current == {} then o else o.(retired := o.retired + [o.current], current := {})
    case Adopting => o.(current := o.next, next := {})
    case _ => o
  }

  function AudioGraph(phase: Phase, g: Graph): Graph {
    match phase
    case TakingRoutes => g.(taken := g.published)
    case ClearingHandlers => g.(handlers := map[])
    case ReplacingRoutes => g.(routes := g.taken)
    case ClearingLists => g.(lists := {})
    case FillingLists => g.(lists := {g.taken})
    case _ => g
  }

  function NextPhase(phase: Phase): Phase {
    match phase
    case TakingRoutes => TakingDevices
    case TakingDevices => TakingSessions
    case TakingSessions => ClearingHandlers
    case ClearingHandlers => Binding
    case Binding => ReplacingRoutes
    case ReplacingRoutes => ClearingLists
    case ClearingLists => FillingLists
    case FillingLists => Retiring
    case Retiring => Adopting
    case Adopting => Mixing
    case _ => phase
  }

  function AudioStep(s: State, a: AudioAction): State {
    match a
    case Begin(rebuild) =>
      if s.phase == Idle && s.running then s.(phase := if rebuild then TakingRoutes else Mixing) else s
    case Advance =>
      s.(phase := NextPhase(s.phase), own := AudioOwners(s.phase, s.own), graph := AudioGraph(s.phase, s.graph))
    case Bind(node, e) =>
      if s.phase == Binding && e in s.own.next then s.(graph := s.graph.(handlers := s.graph.handlers[node := e])) else s
    case Finish => if s.phase == Mixing then s.(phase := Idle) else s
  }

  function Without<T>(s: seq<T>, i: nat): seq<T> {
    if i < |s| then s[..i] + s[i + 1..] else s
  }

  lemma UnionConcat(a: seq<set<Endpoint>>, b: seq<set<Endpoint>>)
    ensures Union(a + b) == Union(a) + Union(b)
  {
    forall e | e in Union(a) + Union(b) ensures e in Union(a + b) {
      if e in Union(a) {
        var i :| 0 <= i < |a| && e in a[i];
        assert e in (a + b)[i];
      } else {
        var i :| 0 <= i < |b| && e in b[i];
        assert e in (a + b)[|a| + i];
      }
    }
  }

  lemma UnionOne(e: set<Endpoint>)
    ensures Union([e]) == e
  {
    forall x | x in e ensures x in Union([e]) {
      assert x in [e][0];
    }
  }

  /** A control thread's local e, if it has exactly one endpoint that was never in a table. */
  predicate Fresh(s: State, i: nat, e: Endpoint) {
    i < |s.own.hands| && s.own.hands[i] == {e} && e !in s.tabled
  }

  function ControlOwners(s: State, c: ControlAction): Owners {
    var o := s.own;
    match c
    case Create => o.(hands := o.hands + [{s.created}])
    case TableDevice(i, e) => if Fresh(s, i, e) then o.(devices := o.devices + {e}) else o
    case TableSession(i, e) => if Fresh(s, i, e) then o.(sessions := o.sessions + {e}) else o
    case Copy(es) => if es <= o.devices + o.sessions then o.(hands := o.hands + [es]) else o
    case RemoveDevices(es) =>
      if es <= o.devices then o.(devices := o.devices - es, hands := o.hands + [es]) else o
    case RemoveSessions(es) =>
      if es <= o.sessions then o.(sessions := o.sessions - es, parked := o.parked + es, hands := o.hands + [es]) else o
    case CollectSessions => o.(parked := {}, hands := o.hands + [o.parked])
    case CollectQueue => o.(retired := [], hands := o.hands + o.retired)
    case Drop(i) => o.(hands := Without(o.hands, i))
    case Clear => if s.phase == Stopped then o.(current := {}) else o
    case _ => o
  }

  function ControlStep(s: State, c: ControlAction): State {
    var t := s.(own := ControlOwners(s, c));
    match c
    case Create => t.(created := s.created + 1)
    case TableDevice(i, e) => if Fresh(s, i, e) then t.(tabled := s.tabled + {e}) else t
    case TableSession(i, e) => if Fresh(s, i, e) then t.(tabled := s.tabled + {e}) else t
    case PublishRoutes => t.(graph := s.graph.(published := s.graph.published + 1))
    case Start => if s.phase == Stopped then t.(phase := Idle, running := true) else t
    case Halt => t.(running := false)
    case Join => if s.phase == Idle && !s.running then t.(phase := Stopped) else t
    case Clear => if s.phase == Stopped then t.(graph := s.graph.(handlers := map[], routes := 0, lists := {})) else t
    case _ => t
  }

  function Step(s: State, a: Action): State {
    match a
    case Audio(x) => AudioStep(s, x)
    case Control(x) => ControlStep(s, x)
  }

  /** Created, and destroyed since. */
  ghost predicate Dead(s: State, e: Endpoint) {
    e < s.created && e !in Held(s.own)
  }

  // ---------- The invariant ----------

  predicate Rebuilding(phase: Phase) {
    !(phase == Stopped || phase == Idle || phase == Mixing)
  }

  /** Handlers are always backed by the owners the worker relies on at that point. */
  predicate Backed(phase: Phase, handlers: map<nat, Endpoint>, next: set<Endpoint>, current: set<Endpoint>) {
    forall n :: n in handlers ==>
      if phase.Binding? || phase.ReplacingRoutes? || phase.ClearingLists? || phase.FillingLists? || phase.Retiring? || phase.Adopting?
      then handlers[n] in next else handlers[n] in current
  }

  predicate OwnersFit(phase: Phase, next: set<Endpoint>, current: set<Endpoint>) {
    && (!Rebuilding(phase) || phase.TakingRoutes? || phase.TakingDevices? ==> next == {})
    && (phase.Adopting? ==> current == {})
  }

  predicate ListsFit(phase: Phase, g: Graph) {
    && (phase.FillingLists? ==> g.lists == {})
    && (phase.FillingLists? || phase.ClearingLists? || phase.Retiring? || phase.Adopting? ==> g.routes == g.taken)
    && (!phase.ClearingLists? ==> g.lists <= {g.routes})
  }

  ghost predicate Inv(s: State) {
    && Backed(s.phase, s.graph.handlers, s.own.next, s.own.current)
    && OwnersFit(s.phase, s.own.next, s.own.current)
    && ListsFit(s.phase, s.graph)
    && (forall e :: e in Held(s.own) ==> e < s.created)
    && s.own.devices + s.own.sessions <= s.tabled
  }

  /** No step of the worker ends the life of an endpoint. */
  lemma AudioKeepsAll(s: State, a: AudioAction)
    requires OwnersFit(s.phase, s.own.next, s.own.current)
    ensures Held(s.own) <= Held(AudioStep(s, a).own) <= Held(s.own)
  {
    if a.Advance? && s.phase.Retiring? {
      UnionConcat(s.own.retired, [s.own.current]);
      UnionOne(s.own.current);
    }
  }

  lemma AudioFits(s: State, a: AudioAction)
    requires Inv(s)
    ensures var t := AudioStep(s, a);
      && Backed(t.phase, t.graph.handlers, t.own.next, t.own.current)
      && OwnersFit(t.phase, t.own.next, t.own.current)
      && ListsFit(t.phase, t.graph)
      && t.own.devices + t.own.sessions <= t.tabled
      && t.created == s.created
  {
  }

  lemma WithoutLess(s: seq<set<Endpoint>>, i: nat)
    ensures Union(Without(s, i)) <= Union(s)
  {
    if i < |s| {
      assert s == (s[..i] + [s[i]]) + s[i + 1..];
      UnionConcat(s[..i], s[i + 1..]);
      UnionConcat(s[..i] + [s[i]], s[i + 1..]);
      UnionConcat(s[..i], [s[i]]);
    }
  }

  lemma HandsGrow(hands: seq<set<Endpoint>>, es: set<Endpoint>)
    ensures Union(hands + [es]) == Union(hands) + es
  {
    UnionConcat(hands, [es]);
    UnionOne(es);
  }

  /** A control step creates at most the next endpoint and revives none. */
  lemma ControlAddsNothing(s: State, c: ControlAction)
    ensures Held(ControlOwners(s, c)) <= Held(s.own) + if c.Create? then {s.created} else {}
    ensures c.Create? ==> Held(ControlOwners(s, c)) == Held(s.own) + {s.created}
  {
    var o := s.own;
    match c {
      case Create => HandsGrow(o.hands, {s.created});
      case TableDevice(i, e) => assert Fresh(s, i, e) ==> e in Union(o.hands);
      case TableSession(i, e) => assert Fresh(s, i, e) ==> e in Union(o.hands);
      case Copy(es) => HandsGrow(o.hands, es);
      case RemoveDevices(es) => HandsGrow(o.hands, es);
      case RemoveSessions(es) => HandsGrow(o.hands, es);
      case CollectSessions => HandsGrow(o.hands, o.parked);
      case CollectQueue => UnionConcat(o.hands, o.retired);
      case Drop(i) => WithoutLess(o.hands, i);
      case _ =>
    }
  }

  lemma ControlFits(s: State, c: ControlAction)
    requires Inv(s)
    ensures var t := ControlStep(s, c);
      && Backed(t.phase, t.graph.handlers, t.own.next, t.own.current)
      && OwnersFit(t.phase, t.own.next, t.own.current)
      && ListsFit(t.phase, t.graph)
      && t.own.devices + t.own.sessions <= t.tabled
      && t.created == s.created + (if c.Create? then 1 else 0)
  {
  }

  lemma InvStep(s: State, a: Action)
    requires Inv(s)
    ensures Inv(Step(s, a))
  {
    if a.Audio? {
      AudioFits(s, a.a);
      AudioKeepsAll(s, a.a);
    } else {
      ControlFits(s, a.c);
      ControlAddsNothing(s, a.c);
    }
  }

  /** The state that a schedule leads to. */
  function Exec(s: State, schedule: seq<Action>): State {
    if schedule == [] then s
    else Step(Exec(s, schedule[..|schedule| - 1]), schedule[|schedule| - 1])
  }

  lemma {:induction false} ExecKeepsInv(s: State, schedule: seq<Action>)
    requires Inv(s)
    ensures Inv(Exec(s, schedule))
  {
    if schedule != [] {
      ExecKeepsInv(s, schedule[..|schedule| - 1]);
      InvStep(Exec(s, schedule[..|schedule| - 1]), schedule[|schedule| - 1]);
    }
  }

  /** All interleavings, from the beginning. */
  function After(schedule: seq<Action>): State {
    Exec(Initial(), schedule)
  }

  lemma AfterInv(schedule: seq<Action>)
    ensures Inv(After(schedule))
  {
    assert Inv(Initial());
    ExecKeepsInv(Initial(), schedule);
  }

  // ---------- Results ----------

  /** Whatever the threads do, while a block is mixed every handler it may dereference is alive and
      owned by the worker itself, and every adjacency pointer lies in the route snapshot it keeps. */
  lemma DereferencesAreSafe(schedule: seq<Action>, node: nat)
    requires After(schedule).phase.Mixing?
    ensures var s := After(schedule);
      && (node in s.graph.handlers ==> s.graph.handlers[node] in s.own.current && !Dead(s, s.graph.handlers[node]))
      && s.graph.lists <= {s.graph.routes}
  {
    AfterInv(schedule);
    var s := After(schedule);
    if node in s.graph.handlers {
      assert s.graph.handlers[node] in Held(s.own);
    }
  }

  /** The worker never drops the last owner of an endpoint: only control threads destroy. */
  lemma OnlyControlDestroys(schedule: seq<Action>, a: AudioAction, e: Endpoint)
    ensures Dead(Step(After(schedule), Audio(a)), e) <==> Dead(After(schedule), e)
  {
    AfterInv(schedule);
    var s := After(schedule);
    AudioKeepsAll(s, a);
    AudioFits(s, a);
  }

  lemma DeadStep(s: State, a: Action, e: Endpoint)
    requires Inv(s) && Dead(s, e)
    ensures Dead(Step(s, a), e)
  {
    if a.Audio? {
      AudioFits(s, a.a);
      AudioKeepsAll(s, a.a);
    } else {
      ControlFits(s, a.c);
      ControlAddsNothing(s, a.c);
    }
  }

  /** An endpoint is destroyed at most once: nothing ever owns it again. */
  lemma {:induction false} DestroyedForGood(s: State, schedule: seq<Action>, e: Endpoint)
    requires Inv(s) && Dead(s, e)
    ensures Dead(Exec(s, schedule), e)
  {
    if schedule != [] {
      var n := |schedule| - 1;
      DestroyedForGood(s, schedule[..n], e);
      ExecKeepsInv(s, schedule[..n]);
      DeadStep(Exec(s, schedule[..n]), schedule[n], e);
    }
  }

  // ---------- Reclamation ----------

  /** Off the tables for good, and not in a rebuild that still saw it. */
  predicate Leaving(o: Owners, tabled: set<Endpoint>, e: Endpoint) {
    e in tabled && e !in o.devices && e !in o.sessions && e !in o.next
  }

  predicate Left(s: State, e: Endpoint) {
    Leaving(s.own, s.tabled, e) && e !in s.own.current
  }

  lemma LeavingAudio(phase: Phase, o: Owners, tabled: set<Endpoint>, e: Endpoint)
    requires Leaving(o, tabled, e)
    ensures Leaving(AudioOwners(phase, o), tabled, e)
    ensures e !in o.current || phase.Adopting? ==> e !in AudioOwners(phase, o).current
  {
  }

  lemma LeavingControl(s: State, c: ControlAction, e: Endpoint)
    requires Leaving(s.own, s.tabled, e)
    ensures Leaving(ControlOwners(s, c), s.tabled, e)
    ensures e !in s.own.current ==> e !in ControlOwners(s, c).current
  {
  }

  lemma LeavingStep(s: State, a: Action, e: Endpoint)
    requires Leaving(s.own, s.tabled, e)
    ensures Leaving(Step(s, a).own, Step(s, a).tabled, e)
    ensures Left(s, e) || Adopts(s, a) ==> Left(Step(s, a), e)
  {
    if a.Audio? {
      LeavingAudio(s.phase, s.own, s.tabled, e);
    } else {
      LeavingControl(s, a.c, e);
    }
  }

  predicate Adopts(s: State, a: Action) {
    a == Audio(Advance) && s.phase.Adopting?
  }

  /** Some step of the schedule is the end of a rebuild. */
  predicate Rebuilds(s: State, schedule: seq<Action>) {
    schedule != [] &&
    var n := |schedule| - 1;
    Rebuilds(s, schedule[..n]) || Adopts(Exec(s, schedule[..n]), schedule[n])
  }

  lemma {:induction false} LeavingRun(s: State, schedule: seq<Action>, e: Endpoint)
    requires Leaving(s.own, s.tabled, e)
    ensures Leaving(Exec(s, schedule).own, Exec(s, schedule).tabled, e)
    ensures Left(s, e) || Rebuilds(s, schedule) ==> Left(Exec(s, schedule), e)
  {
    if schedule != [] {
      var n := |schedule| - 1;
      LeavingRun(s, schedule[..n], e);
      LeavingStep(Exec(s, schedule[..n]), schedule[n], e);
    }
  }

  /** Once an endpoint is off the tables, the end of the next rebuild that started without it takes
      it out of the worker's hands, and it stays out. Until then no collection can destroy it. */
  lemma RebuildLetsGo(s: State, schedule: seq<Action>, e: Endpoint)
    requires Leaving(s.own, s.tabled, e) && Rebuilds(s, schedule) && Inv(s)
    ensures var t := Exec(s, schedule);
      e !in t.own.current && e !in t.own.next
      && (t.phase.Mixing? ==> forall n :: n in t.graph.handlers ==> t.graph.handlers[n] != e)
  {
    LeavingRun(s, schedule, e);
    ExecKeepsInv(s, schedule);
  }

  function DropAll(n: nat): seq<Action> {
    seq(n, i => Control(Drop(0)))
  }

  lemma {:induction false} DropAllEmpties(s: State, n: nat)
    requires n <= |s.own.hands|
    ensures Exec(s, DropAll(n)) == s.(own := s.own.(hands := s.own.hands[n..]))
  {
    if n > 0 {
      DropAllEmpties(s, n - 1);
      assert DropAll(n)[..n - 1] == DropAll(n - 1);
      assert Without(s.own.hands[n - 1..], 0) == s.own.hands[n..];
    }
  }

  lemma {:induction false} ExecAppend(s: State, a: seq<Action>, b: seq<Action>)
    ensures Exec(s, a + b) == Exec(Exec(s, a), b)
  {
    if b == [] {
      assert a + b == a;
    } else {
      var n := |b| - 1;
      ExecAppend(s, a, b[..n]);
      assert (a + b)[..|a + b| - 1] == a + b[..n];
    }
  }

  function Collected(s: State): State {
    s.(own := s.own.(parked := {}, retired := [], hands := s.own.hands + [s.own.parked] + s.own.retired))
  }

  lemma Collects(s: State, a: seq<Action>)
    requires a == [Control(CollectSessions), Control(CollectQueue)]
    ensures Exec(s, a) == Collected(s)
  {
    assert a[..1] == [Control(CollectSessions)];
    assert a[..1][..0] == [];
    assert Exec(s, []) == s;
    assert Exec(s, a[..1]) == Step(s, Control(CollectSessions));
  }

  lemma DroppedIsDead(s: State, a: seq<Action>, n: nat, e: Endpoint)
    requires Left(s, e) && e < s.created
    requires Exec(s, a) == Collected(s) && n == |Collected(s).own.hands|
    ensures Dead(Exec(s, a + DropAll(n)), e)
  {
    ExecAppend(s, a, DropAll(n));
    DropAllEmpties(Collected(s), n);
    assert Collected(s).own.hands[n..] == [];
    HeldByTables(Collected(s).own.(hands := []));
  }

  /** Once a rebuild has let go of an endpoint, the two collections destroy it as soon as the
      control threads drop their own references. */
  lemma CollectionDestroys(s: State, e: Endpoint, collections: seq<Action>)
    requires Left(s, e) && e < s.created
    requires collections == [Control(CollectSessions), Control(CollectQueue)]
    ensures Dead(Exec(s, collections + DropAll(|s.own.hands| + 1 + |s.own.retired|)), e)
  {
    Collects(s, collections);
    DroppedIsDead(s, collections, |s.own.hands| + 1 + |s.own.retired|, e);
  }

  lemma HeldByTables(o: Owners)
    requires o.parked == {} && o.hands == [] && o.retired == []
    ensures Held(o) == o.devices + o.sessions + o.next + o.current
  {
    assert Union([]) == {};
  }

  // ---------- A whole rebuild ----------

  function Advances(n: nat): seq<Action> {
    seq(n, i => Audio(Advance))
  }

  function Binds(bound: seq<(nat, Endpoint)>): seq<Action> {
    seq(|bound|, i requires 0 <= i < |bound| => Audio(Bind(bound[i].0, bound[i].1)))
  }

  /** The worker's steps of one rebuild that finds these endpoints at these nodes. */
  function RebuildWith(bound: seq<(nat, Endpoint)>): seq<Action> {
    [Audio(Begin(true))] + Advances(4) + Binds(bound) + (Advances(3) + Advances(3))
  }

  /** The handlers that the binding of living endpoints leaves: the last one found for a node. */
  function Bound(bound: seq<(nat, Endpoint)>, alive: set<Endpoint>): map<nat, Endpoint> {
    if bound == [] then map[] else
      var n := |bound| - 1;
      var before := Bound(bound[..n], alive);
      if bound[n].1 in alive then before[bound[n].0 := bound[n].1] else before
  }

  lemma {:induction false} BoundIff(bound: seq<(nat, Endpoint)>, alive: set<Endpoint>, node: nat)
    ensures node in Bound(bound, alive) <==> exists i :: 0 <= i < |bound| && bound[i].0 == node && bound[i].1 in alive
    ensures node in Bound(bound, alive) ==> Bound(bound, alive)[node] in alive && (node, Bound(bound, alive)[node]) in bound
  {
    if bound != [] {
      var n := |bound| - 1;
      BoundIff(bound[..n], alive, node);
      if node in Bound(bound[..n], alive) {
        var i :| 0 <= i < n && bound[..n][i].0 == node && bound[..n][i].1 in alive;
        assert bound[i].0 == node && bound[i].1 in alive;
      }
    }
  }

  lemma ExecOne(s: State, a: Action)
    ensures Exec(s, [a]) == Step(s, a)
  {
    assert [a][..0] == [];
    assert Exec(s, []) == s;
  }

  lemma {:induction false} ExecAdvance(s: State, n: nat)
    ensures n == 0 ==> Exec(s, Advances(n)) == s
    ensures n > 0 ==> Exec(s, Advances(n)) == Exec(AudioStep(s, Advance), Advances(n - 1))
  {
    if n > 0 {
      assert Advances(n) == [Audio(Advance)] + Advances(n - 1);
      ExecAppend(s, [Audio(Advance)], Advances(n - 1));
      ExecOne(s, Audio(Advance));
    }
  }

  lemma {:induction false} ExecBinds(s: State, bound: seq<(nat, Endpoint)>)
    requires s.phase == Binding && s.graph.handlers == map[]
    ensures Exec(s, Binds(bound)) == s.(graph := s.graph.(handlers := Bound(bound, s.own.next)))
  {
    if bound != [] {
      var n := |bound| - 1;
      ExecBinds(s, bound[..n]);
      assert Binds(bound)[..n] == Binds(bound[..n]);
    }
  }

  lemma TakesOwners(s: State)
    requires s.phase == TakingRoutes
    ensures var t := Exec(s, Advances(4));
      && t.phase == Binding && t.graph == s.graph.(taken := s.graph.published, handlers := map[])
      && t == s.(phase := Binding, graph := t.graph, own := s.own.(next := s.own.devices + s.own.sessions))
  {
    var a := AudioStep(s, Advance);
    var b := AudioStep(a, Advance);
    var c := AudioStep(b, Advance);
    ExecAdvance(s, 4);
    ExecAdvance(a, 3);
    ExecAdvance(b, 2);
    ExecAdvance(c, 1);
    ExecAdvance(AudioStep(c, Advance), 0);
  }

  lemma ReplacesRoutes(s: State)
    requires s.phase == Binding
    ensures var t := Exec(s, Advances(3));
      t == s.(phase := FillingLists, graph := s.graph.(routes := s.graph.taken, lists := {}))
  {
    var a := AudioStep(s, Advance);
    var b := AudioStep(a, Advance);
    ExecAdvance(s, 3);
    ExecAdvance(a, 2);
    ExecAdvance(b, 1);
    ExecAdvance(AudioStep(b, Advance), 0);
  }

  lemma SwapsOwners(s: State)
    requires s.phase == FillingLists
    ensures var t := Exec(s, Advances(3));
      && t.graph == s.graph.(lists := {s.graph.taken})
      && t == s.(phase := Mixing, graph := t.graph, own := s.own.(next := {}, current := s.own.next, retired := t.own.retired))
      && t.own.retired == if s.own.current == {} then s.own.retired else s.own.retired + [s.own.current]
  {
    var a := AudioStep(s, Advance);
    var b := AudioStep(a, Advance);
    ExecAdvance(s, 3);
    ExecAdvance(a, 2);
    ExecAdvance(b, 1);
    ExecAdvance(AudioStep(b, Advance), 0);
  }

  /** A rebuild without other threads in between takes every endpoint in the tables and nothing
      else: the worker mixes with exactly those owners, retires the ones it had, points handlers
      only at endpoints it owns, and its lists point into the routes published last. */
  lemma RebuildTakesAll(s: State, bound: seq<(nat, Endpoint)>)
    requires s.phase == Idle && s.running
    ensures var t := Exec(s, RebuildWith(bound));
      && t.phase == Mixing && t.own.current == s.own.devices + s.own.sessions && t.own.next == {}
      && t.own.retired == (if s.own.current == {} then s.own.retired else s.own.retired + [s.own.current])
      && t.graph.handlers == Bound(bound, s.own.devices + s.own.sessions)
      && t.graph.routes == s.graph.published && t.graph.lists == {s.graph.published}
      && t.own == s.own.(current := t.own.current, next := {}, retired := t.own.retired)
      && t.created == s.created && t.tabled == s.tabled
  {
    var begin := [Audio(Begin(true))];
    ExecOne(s, Audio(Begin(true)));
    var a := Step(s, Audio(Begin(true)));
    TakesOwners(a);
    var b := Exec(a, Advances(4));
    ExecBinds(b, bound);
    var c := Exec(b, Binds(bound));
    ReplacesRoutes(c);
    SwapsOwners(Exec(c, Advances(3)));
    ExecAppend(c, Advances(3), Advances(3));
    ExecAppend(s, begin, Advances(4));
    ExecAppend(s, begin + Advances(4), Binds(bound));
    ExecAppend(s, begin + Advances(4) + Binds(bound), Advances(3) + Advances(3));
  }

  // ---------- What control threads do ----------

  /** A device, or a session, that is created and put in its table is there, alive, and still held by
      the thread that made it. */
  lemma CreatedIsTabled(s: State, device: bool)
    requires Inv(s) && s.created !in s.tabled
    ensures var e := s.created; var i := |s.own.hands|;
      var t := Step(Step(s, Control(Create)), Control(if device then TableDevice(i, e) else TableSession(i, e)));
      && t.own.devices == (if device then s.own.devices + {e} else s.own.devices)
      && t.own.sessions == (if device then s.own.sessions else s.own.sessions + {e})
      && t.own.hands == s.own.hands + [{e}] && t.created == e + 1 && !Dead(t, e) && t.phase == s.phase && t.graph == s.graph
  {
    var t := Step(Step(s, Control(Create)), Control(if device then TableDevice(|s.own.hands|, s.created) else TableSession(|s.own.hands|, s.created)));
    assert s.created in t.own.devices + t.own.sessions;
  }

  /** What a thread copied out of the tables stays alive until it drops it, whatever is removed. */
  lemma CopyKeepsAlive(s: State, es: set<Endpoint>, e: Endpoint)
    requires Inv(s) && es <= s.own.devices + s.own.sessions && e in es
    ensures var t := Step(s, Control(Copy(es))); t.own.hands == s.own.hands + [es] && !Dead(t, e)
    ensures var t := Step(Step(s, Control(Copy(es))), Control(RemoveDevices(s.own.devices)));
      t.own.devices == {} && t.own.sessions == s.own.sessions && t.own.hands == s.own.hands + [es] + [s.own.devices] && !Dead(t, e)
  {
    HandsGrow(s.own.hands, es);
    HandsGrow(s.own.hands + [es], s.own.devices);
  }

  /** A closed session is parked: it lives on without any thread holding it until the sessions are
      collected, and the collecting thread holds it until then. */
  lemma ClosedSessionWaits(s: State, e: Endpoint)
    requires e in s.own.sessions
    ensures var t := Step(s, Control(RemoveSessions({e})));
      && t.own == s.own.(sessions := s.own.sessions - {e}, parked := s.own.parked + {e}, hands := s.own.hands + [{e}])
      && Step(t, Control(Drop(|s.own.hands|))).own.hands == s.own.hands
      && !Dead(Step(t, Control(Drop(|s.own.hands|))), e)
      && Step(t, Control(CollectSessions)).own == t.own.(parked := {}, hands := t.own.hands + [t.own.parked])
  {
  }

  /** Routes published later are a new snapshot; the worker keeps the one it took. */
  lemma PublishedIsNew(s: State)
    ensures var t := Step(s, Control(PublishRoutes)); t == s.(graph := s.graph.(published := s.graph.published + 1))
  {
  }

  /** Stopping between two blocks lets go of every owner, handler and list of the worker, and of
      nothing else; starting again lets blocks begin. */
  lemma StopLetsGo(s: State)
    requires s.phase == Idle
    ensures var t := Step(Step(Step(s, Control(Halt)), Control(Join)), Control(Clear));
      && t == s.(phase := Stopped, running := false, own := s.own.(current := {}),
                 graph := s.graph.(handlers := map[], routes := 0, lists := {}))
      && Step(t, Control(Start)) == t.(phase := Idle, running := true)
  {
  }

  /** Without a rebuild a block uses what the worker has; a stopped engine begins none. */
  lemma BlockWithoutRebuild(s: State)
    requires s.phase == Idle
    ensures var t := Step(s, Audio(Begin(false)));
      if s.running then t == s.(phase := Mixing) && Step(t, Audio(Finish)) == s else t == s
    ensures !s.running ==> Step(s, Audio(Begin(true))) == s
  {
  }

  // ---------- A rebuild among other threads ----------

  /** The action neither takes e off a table nor ends the worker. */
  predicate Keeps(a: Action, e: Endpoint) {
    a.Control? ==> !a.c.Join? && (a.c.RemoveDevices? || a.c.RemoveSessions? ==> e !in a.c.es)
  }

  /** How far a rebuild has come in taking an endpoint that is in a table all the time. */
  predicate Heard(phase: Phase, o: Owners, tabled: set<Endpoint>, e: Endpoint) {
    && e in o.devices + o.sessions && e in tabled
    && match phase
       case Stopped => false
       case TakingRoutes => true
       case TakingDevices => true
       case TakingSessions => e in o.devices ==> e in o.next
       case Idle => e in o.current
       case Mixing => e in o.current
       case _ => e in o.next
  }

  lemma HeardStep(s: State, a: Action, e: Endpoint)
    requires Heard(s.phase, s.own, s.tabled, e) && Keeps(a, e)
    ensures Heard(Step(s, a).phase, Step(s, a).own, Step(s, a).tabled, e)
  {
  }

  lemma {:induction false} HeardRun(s: State, schedule: seq<Action>, e: Endpoint)
    requires Heard(s.phase, s.own, s.tabled, e) && forall i :: 0 <= i < |schedule| ==> Keeps(schedule[i], e)
    ensures var t := Exec(s, schedule); Heard(t.phase, t.own, t.tabled, e)
  {
    if schedule != [] {
      var n := |schedule| - 1;
      HeardRun(s, schedule[..n], e);
      HeardStep(Exec(s, schedule[..n]), schedule[n], e);
    }
  }

  /** Whatever other threads do in between, an endpoint that is in a table from the beginning of a
      rebuild on belongs to the worker in every block it mixes afterwards. */
  lemma RebuildHears(s: State, schedule: seq<Action>, e: Endpoint)
    requires Inv(s) && s.phase == TakingRoutes && e in s.own.devices + s.own.sessions
    requires forall i :: 0 <= i < |schedule| ==> Keeps(schedule[i], e)
    ensures Exec(s, schedule).phase == Mixing ==> e in Exec(s, schedule).own.current
  {
    HeardRun(s, schedule, e);
  }

  // ---------- From removal to destruction ----------

  lemma RemovalLeaves(s: State, e: Endpoint)
    requires Inv(s) && s.phase == Idle && e in s.own.devices && e !in s.own.sessions
    ensures var t := Step(s, Control(RemoveDevices({e})));
      && t.phase == Idle && t.running == s.running && t.created == s.created && e < t.created
      && e !in t.own.devices + t.own.sessions && t.tabled == s.tabled && e in t.tabled && t.own.current == s.own.current
  {
    assert e in Held(s.own);
  }

  lemma RemovedAndRebuilt(s: State, e: Endpoint, bound: seq<(nat, Endpoint)>) returns (b: State)
    requires Inv(s) && s.phase == Idle && s.running && e in s.own.devices && e !in s.own.sessions
    ensures b == Exec(s, [Control(RemoveDevices({e}))] + RebuildWith(bound))
    ensures Left(b, e) && e < b.created && (e in s.own.current ==> !Dead(b, e))
  {
    var remove := Control(RemoveDevices({e}));
    RemovalLeaves(s, e);
    ExecOne(s, remove);
    var a := Step(s, remove);
    ExecAppend(s, [remove], RebuildWith(bound));
    RebuildTakesAll(a, bound);
    b := Exec(a, RebuildWith(bound));
    if e in s.own.current {
      RetiredIsHeld(b.own, e);
    }
  }

  lemma RetiredIsHeld(o: Owners, e: Endpoint)
    requires o.retired != [] && e in o.retired[|o.retired| - 1]
    ensures e in Held(o)
  {
    assert e in Union(o.retired);
  }

  /** A device that is taken off its table lives as long as the worker mixes with it. One rebuild,
      one collection of the queue and the end of the control threads' own references destroy it,
      and nothing less does if the worker had it. */
  lemma RemovedIsDestroyed(s: State, e: Endpoint, bound: seq<(nat, Endpoint)>) returns (drops: nat)
    requires Inv(s) && s.phase == Idle && s.running && e in s.own.devices && e !in s.own.sessions
    ensures var rebuilt := [Control(RemoveDevices({e}))] + RebuildWith(bound);
      && (e in s.own.current ==> !Dead(Exec(s, rebuilt), e))
      && e !in Exec(s, rebuilt).own.current
      && Dead(Exec(s, rebuilt + ([Control(CollectSessions), Control(CollectQueue)] + DropAll(drops))), e)
  {
    var rebuilt := [Control(RemoveDevices({e}))] + RebuildWith(bound);
    var b := RemovedAndRebuilt(s, e, bound);
    drops := |b.own.hands| + 1 + |b.own.retired|;
    var collections := [Control(CollectSessions), Control(CollectQueue)];
    CollectionDestroys(b, e, collections);
    ExecAppend(s, rebuilt, collections + DropAll(drops));
  }
}
