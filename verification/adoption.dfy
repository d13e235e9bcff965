/**
 * Adoption of published state by the audio worker.
 *
 * A control thread publishes state (routes, devices, sessions, route DSP) and then calls
 * `mark_graph_dirty`, which sets the dirty flag and increments the requested revision. A block
 * loads the requested revision, consumes the dirty flag, rebuilds its snapshot when either says
 * so, mixes, and stores the revision it loaded as adopted. POST handlers hold the control mutex
 * from their first mutation to the end of their wait and of a save. Sessions can also go away
 * without that mutex. The worker can be stopped and started again.
 *
 * Blocks use the active devices, a saved file records the IDs listed as activated; the two tables
 * are separate, and an ID whose device could not be opened at startup is listed all the same. A
 * file also records client names: the remembered ones, of clients that ever said hello or were in
 * the file loaded at startup, and those of the connections of the moment. A remembered name stays
 * when its connection closes.
 *
 * Published state is represented by version numbers: a publication increments the version of
 * its component, so "at least as new" is "at least as large".
 */
module Adoption {
  import opened Limits

  /** Versions of everything a block can use or a file can record: routes, active devices, listed
      devices, sessions, the client names a save would write, and one version of DSP per route. */
  datatype Versions = Versions(routes: nat, devices: nat, listed: nat, sessions: nat, names: nat, dsp: seq<nat>)

  /** The snapshot a rebuild takes. `names` is what a save would have written when the sessions were
      taken; the code has no counterpart of it. */
  datatype Snapshot = Snapshot(routes: nat, devices: nat, sessions: nat, names: nat)

  const NO_SNAPSHOT := Snapshot(0, 0, 0, 0)

  /** What a finished block used: its snapshot, and the DSP version of each route it mixed. */
  datatype Used = Used(snap: Snapshot, dsp: map<nat, nat>)

  /** The audio worker, between its shared loads and stores. */
  datatype Worker =
    | Absent                                   // not started, or joined
    | Between                                  // at the head of the processing loop
    | Entering                                 // has seen that it is to run
    | HasTarget(target: nat)                   // has loaded the requested revision
    | HasDirty(target: nat, rebuild: bool)     // has consumed the dirty flag
    | HasRoutes(target: nat, routes: nat)
    | HasDevices(target: nat, routes: nat, devices: nat)
    | Mixing(target: nat, seen: map<nat, nat>)
    | Exited                                   // left the loop, not joined yet
  {
    predicate InBlock() {
      HasTarget? || HasDirty? || HasRoutes? || HasDevices? || Mixing?
    }
  }

  /** The holder of the control mutex: the handler mutates and marks any number of times, then
      requests adoption, waits, and may save. */
  datatype Holder =
    | Free
    | Mutating
    | MarkingMutation                          // dirty stored, revision not yet incremented
    | Requesting                               // same, inside the handler's own request
    | Waiting(target: nat)
    | Confirmed(target: nat)                   // the wait returned true
    | Finished

  /** The thread that starts and stops the worker. */
  datatype Lifecycle = Steady | Raised | Starting | Stopping | Joined

  /** A saved file, by the versions of what it records. */
  datatype File = File(routes: nat, listed: nat, names: nat, dsp: seq<nat>)

  datatype State = State(
    pub: Versions, dirty: bool, requested: nat, adopted: nat, built: nat,
    snap: Snapshot, worker: Worker, running: bool, lifecycle: Lifecycle,
    holder: Holder, asyncMarks: nat,
    persisted: nat, file: File,
    // History: what was published when each revision was requested, and what the last
    // finished block used.
    at: seq<Versions>, last: Used)

  /** A connection is created, and says hello, under the control mutex. */
  datatype Component = Routes | Devices | Listed | Sessions | RouteDsp(route: nat)

  /** The handler that holds the control mutex. `Mark` and `Request` store the dirty flag, `Add`
      increments the revision: the two halves of `mark_graph_dirty`. */
  datatype HandlerAction = TakeControl | Mark | Request | Add | Poll | Timeout | Save(ok: bool) | Release

  /** A session removed by a thread that does not take the control mutex: one whose name is
      remembered, or a mere connection whose name is not. */
  datatype RemovalAction = SessionGone | ConnectionGone | RemovalMark | RemovalAdd

  datatype LifecycleAction = Start | StartMark | Spawn | Stop | Join | Clear

  datatype Action =
    | WorkerTurn                               // next step of the audio worker
    | ReadDsp(route: nat)                      // the worker mixes a route and pins its DSP slot
    | FinishBlock
    | Publish(c: Component)
    | Handler(h: HandlerAction)
    | Removal(r: RemovalAction)
    | Control(l: LifecycleAction)

  function Zero(): Versions {
    Versions(0, 0, 0, 0, 0, seq(MAX_ROUTES, i => 0))
  }

  function FileOf(v: Versions): File {
    File(v.routes, v.listed, v.names, v.dsp)
  }

  function Initial(): State {
    State(Zero(), true, 1, 0, 0, NO_SNAPSHOT, Absent, false, Steady, Free, 0,
          0, FileOf(Zero()), [Zero(), Zero()], Used(NO_SNAPSHOT, map[]))
  }

  // ---------- The steps ----------

  /** The second half of mark_graph_dirty: the increment, after everything published so far. */
  function Increment(s: State): State {
    s.(requested := s.requested + 1, at := s.at + [s.pub])
  }

  function WorkerStep(s: State): State {
    match s.worker
    case Absent => s
    case Exited => s
    case Between =>
      if s.running then s.(worker := Entering) else s.(worker := Exited)
    case Entering =>
      s.(worker := HasTarget(s.requested))
    case HasTarget(t) =>
      s.(worker := HasDirty(t, s.dirty || s.built != t), dirty := false)
    case HasDirty(t, rebuild) =>
      if rebuild then s.(worker := HasRoutes(t, s.pub.routes)) else s.(worker := Mixing(t, map[]))
    case HasRoutes(t, r) =>
      s.(worker := HasDevices(t, r, s.pub.devices))
    case HasDevices(t, r, d) =>
      s.(worker := Mixing(t, map[]), snap := Snapshot(r, d, s.pub.sessions, s.pub.names), built := t)
    case Mixing(t, seen) => s
  }

  function ReadDspStep(s: State, route: nat): State {
    if s.worker.Mixing? && route < |s.pub.dsp| then
      s.(worker := Mixing(s.worker.target, s.worker.seen[route := s.pub.dsp[route]]))
    else s
  }

  function FinishStep(s: State): State {
    if s.worker.Mixing? then
      s.(adopted := s.worker.target, worker := Between, last := Used(s.snap, s.worker.seen))
    else s
  }

  /** Mutations, made only by the holder of the control mutex. */
  function Published(v: Versions, c: Component): Versions {
    match c
    case Routes => v.(routes := v.routes + 1)
    case Devices => v.(devices := v.devices + 1)
    case Listed => v.(listed := v.listed + 1)
    case Sessions => v.(sessions := v.sessions + 1, names := v.names + 1)
    case RouteDsp(r) => if r < |v.dsp| then v.(dsp := v.dsp[r := v.dsp[r] + 1]) else v
  }

  function PublishStep(s: State, c: Component): State {
    if s.holder.Mutating? then s.(pub := Published(s.pub, c)) else s
  }

  /** The handler's own control flow. */
  function HolderStep(s: State, a: HandlerAction): State {
    match (a, s.holder)
    case (TakeControl, Free) => s.(holder := Mutating)
    case (Mark, Mutating) => s.(dirty := true, holder := MarkingMutation)
    case (Add, MarkingMutation) => Increment(s).(holder := Mutating)
    case (Request, Mutating) => s.(dirty := true, holder := Requesting)
    case (Add, Requesting) => Increment(s).(holder := Waiting(s.requested + 1))
    case (Poll, Waiting(t)) => if s.adopted >= t then s.(holder := Confirmed(t)) else s
    case (Timeout, Waiting(t)) => s.(holder := Finished)
    case (Save(ok), Confirmed(t)) =>
      if ok then s.(persisted := t, file := FileOf(s.pub), holder := Finished) else s.(holder := Finished)
    case (Release, Mutating) => s.(holder := Free)
    case (Release, Confirmed(t)) => s.(holder := Free)
    case (Release, Finished) => s.(holder := Free)
    case _ => s
  }

  function RemovalStep(s: State, a: RemovalAction): State {
    match a
    case SessionGone => s.(pub := s.pub.(sessions := s.pub.sessions + 1))
    case ConnectionGone => s.(pub := Published(s.pub, Sessions))
    case RemovalMark => s.(dirty := true, asyncMarks := s.asyncMarks + 1)
    case RemovalAdd => if s.asyncMarks > 0 then Increment(s).(asyncMarks := s.asyncMarks - 1) else s
  }

  function LifecycleStep(s: State, a: LifecycleAction): State {
    match (a, s.lifecycle)
    case (Start, Steady) =>
      if s.running then s else s.(running := true, lifecycle := Raised)
    case (StartMark, Raised) => s.(dirty := true, lifecycle := Starting)
    case (Spawn, Starting) =>
      s.(worker := Between, lifecycle := Steady)
    case (Stop, Steady) => s.(running := false, lifecycle := Stopping)
    case (Join, Stopping) =>
      if s.worker.Absent? || s.worker.Exited? then s.(worker := Absent, lifecycle := Joined) else s
    case (Clear, Joined) =>
      s.(built := 0, snap := NO_SNAPSHOT, dirty := true, lifecycle := Steady)
    case _ => s
  }

  function Step(s: State, a: Action): State {
    match a
    case WorkerTurn => WorkerStep(s)
    case ReadDsp(r) => ReadDspStep(s, r)
    case FinishBlock => FinishStep(s)
    case Publish(c) => PublishStep(s, c)
    case Handler(h) => HolderStep(s, h)
    case Removal(r) => RemovalStep(s, r)
    case Control(l) => LifecycleStep(s, l)
  }

  // ---------- The invariant ----------

  ghost predicate AtMost(v: Versions, w: Versions) {
    && v.routes <= w.routes && v.devices <= w.devices && v.listed <= w.listed
    && v.sessions <= w.sessions && v.names <= w.names
    && |v.dsp| == |w.dsp| == MAX_ROUTES && forall r :: 0 <= r < MAX_ROUTES ==> v.dsp[r] <= w.dsp[r]
  }

  /** Everything published when a revision was requested is still at most what is published. */
  ghost predicate History(at: seq<Versions>, pub: Versions, requested: nat) {
    && |at| == requested + 1 && requested >= 1 && at[0] == Zero()
    && forall i :: 0 <= i < |at| ==> AtMost(at[i], pub)
  }

  ghost predicate Ordered(at: seq<Versions>) {
    forall i, j :: 0 <= i <= j < |at| ==> AtMost(at[i], at[j])
  }

  /** A snapshot is at least as new as v and no newer than what is published. */
  ghost predicate Fresh(snap: Snapshot, v: Versions, pub: Versions) {
    && v.routes <= snap.routes <= pub.routes
    && v.devices <= snap.devices <= pub.devices
    && v.sessions <= snap.sessions <= pub.sessions
    && v.names <= snap.names <= pub.names
  }

  ghost predicate FreshDsp(seen: map<nat, nat>, v: Versions, pub: Versions) {
    |v.dsp| == |pub.dsp| == MAX_ROUTES
    && forall r :: r in seen ==> r < MAX_ROUTES && v.dsp[r] <= seen[r] <= pub.dsp[r]
  }

  /** What the worker carries through a block. */
  ghost predicate BlockOk(w: Worker, at: seq<Versions>, pub: Versions, snap: Snapshot, built: nat, adopted: nat) {
    match w
    case Absent => true
    case Exited => true
    case Between => true
    case Entering => true
    case HasTarget(t) => built <= t && adopted <= t < |at|
    case HasDirty(t, rebuild) => built <= t && adopted <= t < |at| && (!rebuild ==> built == t)
    case HasRoutes(t, r) => built <= t && adopted <= t < |at| && at[t].routes <= r <= pub.routes
    case HasDevices(t, r, d) =>
      built <= t && adopted <= t < |at| && at[t].routes <= r <= pub.routes && at[t].devices <= d <= pub.devices
    case Mixing(t, seen) => adopted <= t == built < |at| && FreshDsp(seen, at[t], pub)
  }

  /** The control mutex keeps routes, both device tables and route DSP still between a handler's request and
      the end of its wait. */
  ghost predicate HolderOk(h: Holder, at: seq<Versions>, pub: Versions, adopted: nat) {
    match h
    case Waiting(t) => 0 < t < |at| && Still(at[t], pub)
    case Confirmed(t) => 0 < t < |at| && Still(at[t], pub) && t <= adopted
    case _ => true
  }

  ghost predicate Still(v: Versions, pub: Versions) {
    v.routes == pub.routes && v.devices == pub.devices && v.listed == pub.listed && v.dsp == pub.dsp
  }

  /** Only one worker exists at a time, and none while the engine is stopped. */
  ghost predicate LifecycleOk(l: Lifecycle, running: bool, w: Worker) {
    match l
    case Steady => !running ==> w.Absent?
    case Raised => w.Absent? && running
    case Starting => w.Absent? && running
    case Stopping => !running
    case Joined => w.Absent? && !running
  }

  ghost predicate Inv(s: State) {
    && History(s.at, s.pub, s.requested) && Ordered(s.at)
    && s.persisted <= s.adopted <= s.requested && s.built <= s.requested
    && Fresh(s.snap, s.at[s.built], s.pub)
    && BlockOk(s.worker, s.at, s.pub, s.snap, s.built, s.adopted)
    && Fresh(s.last.snap, s.at[s.adopted], s.pub) && FreshDsp(s.last.dsp, s.at[s.adopted], s.pub)
    && HolderOk(s.holder, s.at, s.pub, s.adopted)
    && LifecycleOk(s.lifecycle, s.running, s.worker)
  }

  // ---------- Preservation ----------

  lemma AtMostTransitive(u: Versions, v: Versions, w: Versions)
    requires AtMost(u, v) && AtMost(v, w)
    ensures AtMost(u, w)
  {
  }

  /** Publishing more keeps every recorded bound. */
  lemma PublishKeeps(s: State, pub: Versions)
    requires Inv(s) && AtMost(s.pub, pub)
    requires s.holder.Mutating? || Still(s.pub, pub)
    ensures Inv(s.(pub := pub))
  {
    forall i | 0 <= i < |s.at| ensures AtMost(s.at[i], pub) {
      AtMostTransitive(s.at[i], s.pub, pub);
    }
    assert AtMost(s.at[s.built], pub) && AtMost(s.at[s.adopted], pub);
  }

  lemma Self(v: Versions)
    requires |v.dsp| == MAX_ROUTES
    ensures AtMost(v, v)
  {
  }

  /** A request records what is published now, after everything recorded before. */
  lemma IncrementKeeps(s: State)
    requires Inv(s)
    ensures Inv(Increment(s)) && Increment(s).at[s.requested + 1] == s.pub
  {
    var t := Increment(s);
    assert AtMost(s.at[0], s.pub);
    Self(s.pub);
    forall i, j | 0 <= i <= j < |t.at| ensures AtMost(t.at[i], t.at[j]) {
      if j < |s.at| {
        assert AtMost(s.at[i], s.at[j]);
      } else if i < |s.at| {
        assert AtMost(s.at[i], s.pub);
      }
    }
    BlockGrows(s.worker, s.at, s.pub, s.snap, s.built, s.adopted);
  }

  lemma BlockGrows(w: Worker, at: seq<Versions>, pub: Versions, snap: Snapshot, built: nat, adopted: nat)
    requires BlockOk(w, at, pub, snap, built, adopted)
    ensures BlockOk(w, at + [pub], pub, snap, built, adopted)
  {
  }

  lemma WorkerKeeps(s: State)
    requires Inv(s)
    ensures Inv(WorkerStep(s))
  {
    if s.worker.HasDirty? || s.worker.HasRoutes? || s.worker.HasDevices? {
      RebuildKeeps(s);
    } else {
      BlockStarts(s);
    }
  }

  lemma BlockStarts(s: State)
    requires Inv(s) && !(s.worker.HasDirty? || s.worker.HasRoutes? || s.worker.HasDevices?)
    ensures Inv(WorkerStep(s))
  {
  }

  lemma RebuildKeeps(s: State)
    requires Inv(s) && (s.worker.HasDirty? || s.worker.HasRoutes? || s.worker.HasDevices?)
    ensures Inv(WorkerStep(s))
  {
    assert AtMost(s.at[s.worker.target], s.pub);
  }

  lemma ReadDspKeeps(s: State, route: nat)
    requires Inv(s)
    ensures Inv(ReadDspStep(s, route))
  {
    if s.worker.Mixing? {
      assert AtMost(s.at[s.worker.target], s.pub);
    }
  }

  lemma FinishKeeps(s: State)
    requires Inv(s)
    ensures Inv(FinishStep(s))
  {
  }

  lemma PublishedAtLeast(v: Versions, c: Component)
    requires |v.dsp| == MAX_ROUTES
    ensures AtMost(v, Published(v, c)) && (c.Sessions? ==> Still(v, Published(v, c)))
  {
  }

  lemma MutationKeeps(s: State, c: Component)
    requires Inv(s)
    ensures Inv(PublishStep(s, c))
  {
    if s.holder.Mutating? {
      assert AtMost(s.at[0], s.pub);
      PublishedAtLeast(s.pub, c);
      PublishKeeps(s, Published(s.pub, c));
    }
  }

  lemma AddKeeps(s: State)
    requires Inv(s)
    ensures Inv(HolderStep(s, Add))
  {
    IncrementKeeps(s);
    var t := Increment(s);
    match s.holder
    case MarkingMutation => assert Inv(t.(holder := Mutating));
    case Requesting => assert Inv(t.(holder := Waiting(s.requested + 1)));
    case _ =>
  }

  lemma HolderKeeps(s: State, a: HandlerAction)
    requires Inv(s)
    ensures Inv(HolderStep(s, a))
  {
    if a.Add? {
      AddKeeps(s);
    } else {
      HolderMoves(s, a);
    }
  }

  lemma HolderMoves(s: State, a: HandlerAction)
    requires !a.Add? && HolderOk(s.holder, s.at, s.pub, s.adopted) && s.persisted <= s.adopted
    ensures var t := HolderStep(s, a);
      && t == s.(holder := t.holder, dirty := t.dirty, persisted := t.persisted, file := t.file)
      && HolderOk(t.holder, t.at, t.pub, t.adopted) && t.persisted <= t.adopted
  {
  }

  lemma RemovalKeeps(s: State, a: RemovalAction)
    requires Inv(s)
    ensures Inv(RemovalStep(s, a))
  {
    assert AtMost(s.at[0], s.pub);
    match a
    case SessionGone =>
      PublishKeeps(s, s.pub.(sessions := s.pub.sessions + 1));
    case ConnectionGone =>
      PublishedAtLeast(s.pub, Sessions);
      PublishKeeps(s, Published(s.pub, Sessions));
    case RemovalMark =>
    case RemovalAdd => IncrementKeeps(s);
  }

  lemma LifecycleKeeps(s: State, a: LifecycleAction)
    requires Inv(s)
    ensures Inv(LifecycleStep(s, a))
  {
    assert AtMost(s.at[0], s.pub);
  }

  lemma InvStep(s: State, a: Action)
    requires Inv(s)
    ensures Inv(Step(s, a))
  {
    match a
    case WorkerTurn => WorkerKeeps(s);
    case ReadDsp(r) => ReadDspKeeps(s, r);
    case FinishBlock => FinishKeeps(s);
    case Publish(c) => MutationKeeps(s, c);
    case Handler(h) => HolderKeeps(s, h);
    case Removal(r) => RemovalKeeps(s, r);
    case Control(l) => LifecycleKeeps(s, l);
  }

  lemma InvInitial()
    ensures Inv(Initial())
  {
  }

  /** The state that a schedule leads to. */
  function Exec(s: State, schedule: seq<Action>): State {
    if schedule == [] then s
    else Step(Exec(s, schedule[..|schedule| - 1]), schedule[|schedule| - 1])
  }

  lemma {:induction false} ExecKeepsInv(s: State, schedule: seq<Action>)
    requires Inv(s)
    ensures Inv(Exec(s, schedule))
  {
    if schedule != [] {
      ExecKeepsInv(s, schedule[..|schedule| - 1]);
      InvStep(Exec(s, schedule[..|schedule| - 1]), schedule[|schedule| - 1]);
    }
  }

  /** All interleavings, from the beginning. */
  function After(schedule: seq<Action>): State {
    Exec(Initial(), schedule)
  }

  lemma AfterInv(schedule: seq<Action>)
    ensures Inv(After(schedule))
  {
    InvInitial();
    ExecKeepsInv(Initial(), schedule);
  }

  // ---------- Results ----------

  /** The record kept for the statements below is the right one: it only grows, and the entry of
      a new revision is what is published at the moment of its increment. */
  lemma RecordIsFaithful(schedule: seq<Action>, a: Action)
    ensures Recorded(After(schedule), Step(After(schedule), a))
  {
    AfterInv(schedule);
    RecordStep(After(schedule), a);
  }

  ghost predicate Recorded(s: State, t: State) {
    && s.at <= t.at && |t.at| == t.requested + 1
    && (t.requested != s.requested ==> t.requested == s.requested + 1 && t.at[t.requested] == s.pub && t.pub == s.pub)
  }

  lemma RecordStep(s: State, a: Action)
    requires |s.at| == s.requested + 1
    ensures Recorded(s, Step(s, a))
  {
  }

  /** Adoption is sound under every interleaving, also when publications land in the middle of a
      rebuild: once revision r is adopted, the last finished block used routes, devices, sessions
      and, for every route it mixed, route DSP at least as new as everything published before r
      was requested. */
  lemma AdoptionIsSound(schedule: seq<Action>, r: nat)
    requires r <= After(schedule).adopted
    ensures var s := After(schedule);
      && r < |s.at|
      && s.at[r].routes <= s.last.snap.routes && s.at[r].devices <= s.last.snap.devices
      && s.at[r].sessions <= s.last.snap.sessions
      && forall k :: k in s.last.dsp ==> k < |s.at[r].dsp| && s.at[r].dsp[k] <= s.last.dsp[k]
  {
    AfterInv(schedule);
    var s := After(schedule);
    assert AtMost(s.at[r], s.at[s.adopted]);
  }

  /** The revision counters keep their order in every reachable state. */
  lemma CountersOrdered(schedule: seq<Action>)
    ensures var s := After(schedule); s.persisted <= s.adopted <= s.requested
  {
    AfterInv(schedule);
  }

  /** A block that covers r, or an adoption of r, is never undone by any thread. */
  ghost predicate Covered(s: State, r: nat) {
    s.adopted >= r || (s.worker.InBlock() && s.worker.target >= r)
  }

  lemma CoveredStep(s: State, a: Action, r: nat)
    requires Inv(s) && Covered(s, r)
    ensures Covered(Step(s, a), r) && s.adopted <= Step(s, a).adopted
  {
    if a.WorkerTurn? || a.ReadDsp? || a.FinishBlock? {
      WorkerCovers(s, a, r);
    } else {
      OthersLeaveBlock(s, a);
    }
  }

  lemma WorkerCovers(s: State, a: Action, r: nat)
    requires a.WorkerTurn? || a.ReadDsp? || a.FinishBlock?
    requires BlockOk(s.worker, s.at, s.pub, s.snap, s.built, s.adopted) && Covered(s, r)
    ensures Covered(Step(s, a), r) && s.adopted <= Step(s, a).adopted
  {
  }

  lemma OthersLeaveBlock(s: State, a: Action)
    requires !(a.WorkerTurn? || a.ReadDsp? || a.FinishBlock?) && LifecycleOk(s.lifecycle, s.running, s.worker)
    ensures Step(s, a).adopted == s.adopted && (s.worker.InBlock() ==> Step(s, a).worker == s.worker)
  {
  }

  lemma {:induction false} CoveredExec(s: State, more: seq<Action>, r: nat)
    requires Inv(s) && Covered(s, r)
    ensures Covered(Exec(s, more), r) && s.adopted <= Exec(s, more).adopted
  {
    if more != [] {
      var n := |more| - 1;
      CoveredExec(s, more[..n], r);
      ExecKeepsInv(s, more[..n]);
      CoveredStep(Exec(s, more[..n]), more[n], r);
    }
  }

  /** Adopted revisions never go back, also across stopping and restarting the worker. */
  lemma AdoptedMonotone(schedule: seq<Action>, more: seq<Action>)
    ensures After(schedule).adopted <= Exec(After(schedule), more).adopted
  {
    AfterInv(schedule);
    CoveredExec(After(schedule), more, After(schedule).adopted);
  }

  /** A block that starts after revision r was requested adopts r when it ends: whatever all
      threads do afterwards, either that block is still in flight or r is adopted. */
  lemma FirstBlockAdopts(schedule: seq<Action>, r: nat, more: seq<Action>)
    requires var s := After(schedule); r <= s.requested && s.worker.Entering?
    ensures var t := Exec(Step(After(schedule), WorkerTurn), more);
      t.adopted >= r || (t.worker.InBlock() && t.worker.target >= r)
  {
    AfterInv(schedule);
    var s := After(schedule);
    InvStep(s, WorkerTurn);
    CoveredExec(Step(s, WorkerTurn), more, r);
  }

  /** Any block in flight covers r. */
  ghost predicate OnlyNew(s: State, r: nat) {
    r <= s.requested && (s.worker.InBlock() ==> s.worker.target >= r)
  }

  lemma OnlyNewStep(s: State, a: Action, r: nat)
    requires OnlyNew(s, r)
    ensures OnlyNew(Step(s, a), r)
  {
    RequestedGrows(s, a);
    if a.WorkerTurn? || a.ReadDsp? || a.FinishBlock? {
      assert OnlyNew(Step(s, a), r);
    } else {
      OthersStartNothing(s, a);
    }
  }

  lemma OthersStartNothing(s: State, a: Action)
    requires !(a.WorkerTurn? || a.ReadDsp? || a.FinishBlock?)
    ensures Step(s, a).worker.InBlock() ==> Step(s, a).worker == s.worker
  {
  }

  /** And with no block in flight when r is requested, every later block is such a block. */
  lemma {:induction false} LaterBlocksCover(s: State, r: nat, more: seq<Action>)
    requires r <= s.requested && !s.worker.InBlock()
    ensures var t := Exec(s, more); t.worker.InBlock() ==> t.worker.target >= r
    ensures OnlyNew(Exec(s, more), r)
  {
    if more != [] {
      LaterBlocksCover(s, r, more[..|more| - 1]);
      OnlyNewStep(Exec(s, more[..|more| - 1]), more[|more| - 1], r);
    }
  }

  lemma ExecLast(s: State, schedule: seq<Action>, a: Action)
    ensures Exec(s, schedule + [a]) == Step(Exec(s, schedule), a)
  {
    assert (schedule + [a])[..|schedule|] == schedule;
  }

  lemma {:induction false} ExecHead(s: State, a: Action, rest: seq<Action>)
    ensures Exec(s, [a] + rest) == Exec(Step(s, a), rest)
  {
    if rest == [] {
      assert [a] + rest == [] + [a];
      ExecLast(s, [], a);
    } else {
      var n := |rest| - 1;
      var init, last := rest[..n], rest[n];
      assert rest == init + [last] && [a] + rest == ([a] + init) + [last];
      ExecHead(s, a, init);
      ExecLast(s, [a] + init, last);
      ExecLast(Step(s, a), init, last);
    }
  }

  /** The worker's steps before it mixes. */
  function Left(w: Worker): nat {
    match w
    case HasTarget(_) => 4
    case HasDirty(_, _) => 3
    case HasRoutes(_, _) => 2
    case HasDevices(_, _, _) => 1
    case _ => 0
  }

  /** A block never waits for another thread: a few of the worker's own steps lead to mixing,
      and the end of mixing adopts the block's target. */
  lemma {:induction false} BlockFinishes(s: State) returns (steps: seq<Action>)
    requires Inv(s) && s.worker.InBlock()
    ensures |steps| <= Left(s.worker) + 1 && forall i :: 0 <= i < |steps| ==> steps[i] in {WorkerTurn, FinishBlock}
    ensures Exec(s, steps).adopted == s.worker.target && Exec(s, steps).worker == Between
    decreases Left(s.worker)
  {
    if s.worker.Mixing? {
      steps := [FinishBlock];
      InvStep(s, FinishBlock);
      ExecHead(s, FinishBlock, []);
      assert [FinishBlock] + [] == [FinishBlock];
    } else {
      InvStep(s, WorkerTurn);
      var rest := BlockFinishes(WorkerStep(s));
      steps := [WorkerTurn] + rest;
      ExecHead(s, WorkerTurn, rest);
    }
  }

  /** No save is written without confirmed adoption: whatever changes the file or the persisted
      revision is the save of a handler whose revision the engine has adopted. */
  lemma NoSaveWithoutAdoption(schedule: seq<Action>, a: Action)
    ensures var s := After(schedule); var t := Step(s, a);
      (t.persisted != s.persisted || t.file != s.file ==>
         a == Handler(Save(true)) && s.holder.Confirmed? && s.holder.target <= s.adopted && t.persisted == s.holder.target)
  {
    AfterInv(schedule);
    SaveStep(After(schedule), a);
  }

  lemma SaveStep(s: State, a: Action)
    requires Inv(s)
    ensures var t := Step(s, a);
      (t.persisted != s.persisted || t.file != s.file ==>
         a == Handler(Save(true)) && s.holder.Confirmed? && s.holder.target <= s.adopted && t.persisted == s.holder.target)
  {
    if a.Handler? {
      HandlerSaves(s, a.h);
    } else {
      OthersSaveNothing(s, a);
    }
  }

  lemma HandlerSaves(s: State, h: HandlerAction)
    requires HolderOk(s.holder, s.at, s.pub, s.adopted)
    ensures var t := HolderStep(s, h);
      (t.persisted != s.persisted || t.file != s.file ==>
         h == Save(true) && s.holder.Confirmed? && s.holder.target <= s.adopted && t.persisted == s.holder.target)
  {
  }

  lemma OthersSaveNothing(s: State, a: Action)
    requires !a.Handler?
    ensures Step(s, a).persisted == s.persisted && Step(s, a).file == s.file
  {
  }

  /** What a save writes is what was heard: the routes and the route DSP in the file are exactly
      those that the last finished audio block used, and the listed devices in the file are those
      that were listed when the active devices that this block used were published. */
  lemma SavedIsHeard(schedule: seq<Action>)
    requires After(schedule).holder.Confirmed?
    ensures var s := After(schedule); var t := Step(s, Handler(Save(true))); var r := s.holder.target;
      && r < |s.at|
      && t.file.routes == s.at[r].routes == s.last.snap.routes
      && t.file.listed == s.at[r].listed && s.last.snap.devices == s.at[r].devices
      && s.at[r].sessions <= s.last.snap.sessions
      && s.at[r].names <= s.last.snap.names <= t.file.names
      && t.persisted == r && t.holder == Finished
      && forall k :: k in s.last.dsp ==> k < |t.file.dsp| && t.file.dsp[k] == s.last.dsp[k]
  {
    AfterInv(schedule);
    var s := After(schedule);
    var t := s.holder.target;
    assert HolderOk(s.holder, s.at, s.pub, s.adopted);
    assert AtMost(s.at[t], s.at[s.adopted]);
  }

  // ---------- Client names in a file ----------

  /** The k-th step took this snapshot. */
  ghost predicate TakenAt(schedule: seq<Action>, k: nat, snap: Snapshot) {
    && k < |schedule| && schedule[k] == WorkerTurn
    && After(schedule[..k]).worker.HasDevices? && Step(After(schedule[..k]), WorkerTurn).snap == snap
  }

  /** Some step did, in a block for a revision not below `least`. */
  ghost predicate Taken(schedule: seq<Action>, snap: Snapshot, least: nat) {
    exists k: nat :: TakenAt(schedule, k, snap) && After(schedule[..k]).worker.target >= least
  }

  lemma TakenStays(schedule: seq<Action>, a: Action, snap: Snapshot, least: nat)
    requires Taken(schedule, snap, least)
    ensures Taken(schedule + [a], snap, least)
  {
    var k: nat :| TakenAt(schedule, k, snap) && After(schedule[..k]).worker.target >= least;
    assert (schedule + [a])[..k] == schedule[..k];
    assert TakenAt(schedule + [a], k, snap);
  }

  lemma TakenNow(schedule: seq<Action>)
    requires After(schedule).worker.HasDevices?
    ensures Taken(schedule + [WorkerTurn], Step(After(schedule), WorkerTurn).snap, After(schedule).worker.target)
  {
    assert (schedule + [WorkerTurn])[..|schedule|] == schedule;
    assert TakenAt(schedule + [WorkerTurn], |schedule|, Step(After(schedule), WorkerTurn).snap);
  }

  /** The snapshots in use were taken by some earlier step. */
  ghost predicate Sourced(schedule: seq<Action>, s: State) {
    && (s.built != 0 ==> Taken(schedule, s.snap, s.built))
    && (s.worker.InBlock() ==> s.worker.target != 0)
    && (s.adopted != 0 ==> Taken(schedule, s.last.snap, s.adopted))
  }

  /** Where the snapshots after a step come from. */
  ghost predicate SnapshotsMove(s: State, a: Action, t: State) {
    && (t.built == 0 || (t.snap == s.snap && t.built == s.built)
        || (a.WorkerTurn? && s.worker.HasDevices? && t.built == s.worker.target))
    && ((t.adopted == s.adopted && t.last == s.last) || (s.built != 0 && t.adopted == s.built && t.last.snap == s.snap))
    && (t.worker.InBlock() ==> t.worker.target != 0)
  }

  lemma SnapshotsOfWorker(s: State, a: Action)
    requires a.WorkerTurn? || a.ReadDsp? || a.FinishBlock?
    requires s.requested != 0 && (s.worker.InBlock() ==> s.worker.target != 0)
    requires s.worker.Mixing? ==> s.built == s.worker.target
    ensures SnapshotsMove(s, a, Step(s, a))
  {
  }

  lemma SnapshotsOfOthers(s: State, a: Action)
    requires !(a.WorkerTurn? || a.ReadDsp? || a.FinishBlock?)
    requires s.worker.InBlock() ==> s.worker.target != 0
    ensures SnapshotsMove(s, a, Step(s, a))
  {
  }

  lemma SourcedStep(schedule: seq<Action>, a: Action)
    requires Inv(After(schedule)) && Sourced(schedule, After(schedule))
    ensures Sourced(schedule + [a], Step(After(schedule), a))
  {
    var s := After(schedule);
    if a.WorkerTurn? || a.ReadDsp? || a.FinishBlock? {
      SnapshotsOfWorker(s, a);
    } else {
      SnapshotsOfOthers(s, a);
    }
    if s.built != 0 {
      TakenStays(schedule, a, s.snap, s.built);
    }
    if s.adopted != 0 {
      TakenStays(schedule, a, s.last.snap, s.adopted);
    }
    if a.WorkerTurn? && s.worker.HasDevices? {
      TakenNow(schedule);
    }
  }

  lemma {:induction false} AllSourced(schedule: seq<Action>)
    ensures Sourced(schedule, After(schedule))
  {
    if schedule != [] {
      var n := |schedule| - 1;
      AllSourced(schedule[..n]);
      AfterInv(schedule[..n]);
      SourcedStep(schedule[..n], schedule[n]);
      assert schedule == schedule[..n] + [schedule[n]];
    }
  }

  /** A handler is between its request for revision r and its save. */
  ghost predicate Due(s: State, r: nat) {
    s.holder == Waiting(r) || s.holder == Confirmed(r)
  }

  /** Revisions are requested once, so a handler that is due for an old one was so before. */
  lemma DueBefore(s: State, a: Action, r: nat)
    requires r <= s.requested && Due(Step(s, a), r)
    ensures Due(s, r)
  {
  }

  lemma NamesStep(s: State, a: Action, r: nat)
    requires r <= s.requested && Due(s, r)
    ensures var t := Step(s, a);
      && r <= t.requested && s.pub.names <= t.pub.names
      && (t.pub.names == s.pub.names <==> a != Removal(ConnectionGone))
  {
  }

  lemma RequestedGrows(s: State, a: Action)
    ensures s.requested <= Step(s, a).requested
  {
  }

  lemma {:induction false} RequestedGrowsOn(s: State, post: seq<Action>)
    ensures s.requested <= Exec(s, post).requested
  {
    if post != [] {
      RequestedGrowsOn(s, post[..|post| - 1]);
      RequestedGrows(Exec(s, post[..|post| - 1]), post[|post| - 1]);
    }
  }

  /** While a handler is due, only a closed connection changes the names a save would write. */
  lemma {:induction false} NamesWhileDue(s: State, post: seq<Action>, r: nat)
    requires r <= s.requested && Due(Exec(s, post), r)
    ensures s.pub.names <= Exec(s, post).pub.names
    ensures Exec(s, post).pub.names == s.pub.names <==> Removal(ConnectionGone) !in post
  {
    if post != [] {
      var n := |post| - 1;
      RequestedGrowsOn(s, post[..n]);
      DueBefore(Exec(s, post[..n]), post[n], r);
      NamesWhileDue(s, post[..n], r);
      NamesStep(Exec(s, post[..n]), post[n], r);
      assert post == post[..n] + [post[n]];
    }
  }

  lemma SplitAt(schedule: seq<Action>, k: nat)
    requires k < |schedule|
    ensures After(schedule) == Exec(Step(After(schedule[..k]), schedule[k]), schedule[k + 1..])
  {
    ExecLast(Initial(), schedule[..k], schedule[k]);
    ExecAppend(Initial(), schedule[..k] + [schedule[k]], schedule[k + 1..]);
    assert schedule == schedule[..k] + [schedule[k]] + schedule[k + 1..];
  }

  lemma LastWasTaken(schedule: seq<Action>) returns (k: nat)
    requires After(schedule).adopted != 0
    ensures TakenAt(schedule, k, After(schedule).last.snap) && After(schedule[..k]).worker.target >= After(schedule).adopted
  {
    AllSourced(schedule);
    var s := After(schedule);
    assert Taken(schedule, s.last.snap, s.adopted);
    k :| TakenAt(schedule, k, s.last.snap) && After(schedule[..k]).worker.target >= s.adopted;
  }

  lemma NamesSince(before: State, post: seq<Action>, r: nat)
    requires Inv(before) && before.worker.HasDevices? && r <= before.worker.target
    requires Due(Exec(Step(before, WorkerTurn), post), r)
    ensures Exec(Step(before, WorkerTurn), post).pub.names == Step(before, WorkerTurn).snap.names
            <==> Removal(ConnectionGone) !in post
  {
    NamesWhileDue(Step(before, WorkerTurn), post, r);
  }

  /** When a save is due, the last block's snapshot was taken by some step k, and the client names
      in the file are those of that moment if and only if no connection whose name is not remembered
      was closed since. */
  lemma NamesAreCurrentIff(schedule: seq<Action>) returns (k: nat)
    requires After(schedule).holder.Confirmed?
    ensures var s := After(schedule);
      && TakenAt(schedule, k, s.last.snap)
      && (Step(s, Handler(Save(true))).file.names == s.last.snap.names <==> Removal(ConnectionGone) !in schedule[k + 1..])
  {
    AfterInv(schedule);
    var s := After(schedule);
    assert HolderOk(s.holder, s.at, s.pub, s.adopted);
    k := LastWasTaken(schedule);
    SplitAt(schedule, k);
    AfterInv(schedule[..k]);
    NamesSince(After(schedule[..k]), schedule[k + 1..], s.holder.target);
  }

  /** That can happen whenever a save is due. */
  lemma SessionsMayRunAhead(schedule: seq<Action>)
    requires After(schedule).holder.Confirmed?
    ensures var s := After(schedule + [Removal(ConnectionGone)]);
      s.holder == After(schedule).holder && Step(s, Handler(Save(true))).file.names > s.last.snap.names
  {
    AfterInv(schedule);
    ExecLast(Initial(), schedule, Removal(ConnectionGone));
  }

  lemma Then(schedule: seq<Action>, a: Action) returns (next: seq<Action>)
    ensures next == schedule + [a] && After(next) == Step(After(schedule), a)
  {
    ExecLast(Initial(), schedule, a);
    next := schedule + [a];
  }

  lemma Started() returns (schedule: seq<Action>)
    ensures forall a :: a in schedule ==> a.Control?
    ensures var s := After(schedule); s.holder == Free && s.running && s.worker == Between
  {
    schedule := Then([], Control(Start));
    schedule := Then(schedule, Control(StartMark));
    schedule := Then(schedule, Control(Spawn));
  }

  lemma Requested(before: seq<Action>) returns (schedule: seq<Action>)
    requires After(before).holder == Free
    ensures forall a :: a in schedule ==> a in before || a.Handler?
    ensures var s := After(schedule);
      s.holder.Waiting? && s.running == After(before).running && s.worker == After(before).worker
  {
    schedule := Then(before, Handler(TakeControl));
    schedule := Then(schedule, Handler(Request));
    schedule := Then(schedule, Handler(Add));
  }

  /** And a save can become due, without anything but a request, the worker's own steps and a poll
      after the start. */
  lemma SaveCanBeDue() returns (schedule: seq<Action>)
    ensures After(schedule).holder.Confirmed?
    ensures forall a :: a in schedule ==> a.WorkerTurn? || a.FinishBlock? || a.Control? || a.Handler?
  {
    var started := Started();
    var waiting := Requested(started);
    AfterInv(waiting);
    var steps := WaitCanSucceed(After(waiting));
    ExecAppend(Initial(), waiting, steps);
    schedule := waiting + steps;
    forall a | a in steps ensures a.WorkerTurn? || a.FinishBlock? || a.Handler? {
      var i :| 0 <= i < |steps| && steps[i] == a;
    }
  }

  // ---------- Progress ----------

  lemma WorkerFrame(s: State, a: Action)
    requires a in {WorkerTurn, FinishBlock}
    ensures var t := Step(s, a);
      t.holder == s.holder && t.requested == s.requested && t.running == s.running
  {
  }

  lemma {:induction false} WorkerOnly(s: State, steps: seq<Action>)
    requires forall i :: 0 <= i < |steps| ==> steps[i] in {WorkerTurn, FinishBlock}
    ensures var t := Exec(s, steps);
      t.holder == s.holder && t.requested == s.requested && t.running == s.running
  {
    if steps != [] {
      var n := |steps| - 1;
      WorkerOnly(s, steps[..n]);
      WorkerFrame(Exec(s, steps[..n]), steps[n]);
    }
  }

  /** From between two blocks, the worker's own steps adopt everything requested. */
  lemma {:induction false} NextBlock(s: State) returns (steps: seq<Action>)
    requires Inv(s) && (s.worker.Entering? || (s.worker.Between? && s.running))
    ensures forall i :: 0 <= i < |steps| ==> steps[i] in {WorkerTurn, FinishBlock}
    ensures var t := Exec(s, steps); t.adopted == s.requested && t.holder == s.holder
    decreases s.worker.Between?
  {
    InvStep(s, WorkerTurn);
    if s.worker.Entering? {
      var rest := BlockFinishes(Step(s, WorkerTurn));
      ExecHead(s, WorkerTurn, rest);
      steps := [WorkerTurn] + rest;
    } else {
      var rest := NextBlock(Step(s, WorkerTurn));
      ExecHead(s, WorkerTurn, rest);
      steps := [WorkerTurn] + rest;
    }
    WorkerOnly(s, steps);
  }

  /** A poll confirms exactly when the handler's own revision, or a later one, is adopted. */
  lemma PollConfirmsIff(s: State, t: nat)
    requires s.holder == Waiting(t)
    ensures var s' := Step(s, Handler(Poll));
      && (s'.holder == Confirmed(t) <==> t <= s.adopted)
      && (s.adopted < t ==> s' == s) && s' == s.(holder := s'.holder)
  {
  }

  /** A handler that waits while the worker runs can always be confirmed: the worker's own steps,
      at most one block in flight and the next one, adopt its revision, and the next poll sees it. */
  lemma WaitCanSucceed(s: State) returns (steps: seq<Action>)
    requires Inv(s) && s.holder.Waiting? && s.running && (s.worker.Between? || s.worker.Entering? || s.worker.InBlock())
    ensures steps != [] && steps[|steps| - 1] == Handler(Poll)
    ensures forall i :: 0 <= i < |steps| - 1 ==> steps[i] in {WorkerTurn, FinishBlock}
    ensures Exec(s, steps).holder == Confirmed(s.holder.target)
  {
    var work := AdoptsWaiting(s);
    ExecLast(s, work, Handler(Poll));
    PollConfirmsIff(Exec(s, work), s.holder.target);
    steps := work + [Handler(Poll)];
  }

  lemma AdoptsWaiting(s: State) returns (steps: seq<Action>)
    requires Inv(s) && s.holder.Waiting? && s.running && (s.worker.Between? || s.worker.Entering? || s.worker.InBlock())
    ensures forall i :: 0 <= i < |steps| ==> steps[i] in {WorkerTurn, FinishBlock}
    ensures var t := Exec(s, steps); t.holder == s.holder && t.adopted >= s.holder.target
  {
    assert HolderOk(s.holder, s.at, s.pub, s.adopted);
    if s.worker.InBlock() {
      var first := BlockFinishes(s);
      WorkerOnly(s, first);
      ExecKeepsInv(s, first);
      var second := NextBlock(Exec(s, first));
      ExecAppend(s, first, second);
      steps := first + second;
    } else {
      steps := NextBlock(s);
    }
  }

  /** A handler that is not confirmed saves nothing, and one that is done gives the mutex back. */
  lemma TimedOutSavesNothing(s: State)
    requires s.holder.Waiting?
    ensures var t := Step(Step(Step(s, Handler(Timeout)), Handler(Save(true))), Handler(Release));
      t == s.(holder := Free)
  {
  }

  lemma MutexComesBack(s: State, ok: bool)
    requires s.holder.Confirmed? || s.holder.Mutating?
    ensures Step(s, Handler(Release)).holder == Free
    ensures s.holder.Confirmed? ==> Step(Step(s, Handler(Save(ok))), Handler(Release)).holder == Free
    ensures s.holder.Confirmed? && !ok ==> Step(s, Handler(Save(ok))) == s.(holder := Finished)
  {
  }

  /** Marking asks for a rebuild under the next revision: the handler's own marks and those of
      removals outside the mutex. */
  lemma MarksRequest(s: State)
    ensures s.holder.Mutating? ==>
      var t := Step(Step(s, Handler(Mark)), Handler(Add)); t.dirty && t.requested == s.requested + 1 && t.holder == Mutating
    ensures s.holder.Mutating? ==>
      var t := Step(Step(s, Handler(Request)), Handler(Add)); t.dirty && t.requested == s.requested + 1 && t.holder == Waiting(t.requested)
    ensures var t := Step(Step(s, Removal(RemovalMark)), Removal(RemovalAdd));
      t.dirty && t.requested == s.requested + 1 && t.asyncMarks == s.asyncMarks
  {
  }

  /** Publications by the handler raise exactly the version they name; mere connections count among
      the names a save writes, remembered ones do not when they close. */
  lemma PublicationsCount(s: State, r: nat)
    requires s.holder.Mutating?
    ensures Step(s, Publish(Routes)).pub == s.pub.(routes := s.pub.routes + 1)
    ensures Step(s, Publish(Devices)).pub == s.pub.(devices := s.pub.devices + 1)
    ensures Step(s, Publish(Listed)).pub == s.pub.(listed := s.pub.listed + 1)
    ensures Step(s, Publish(Sessions)).pub == s.pub.(sessions := s.pub.sessions + 1, names := s.pub.names + 1)
    ensures r < |s.pub.dsp| ==> Step(s, Publish(RouteDsp(r))).pub == s.pub.(dsp := s.pub.dsp[r := s.pub.dsp[r] + 1])
    ensures Step(s, Removal(SessionGone)).pub == s.pub.(sessions := s.pub.sessions + 1)
    ensures Step(s, Removal(ConnectionGone)).pub == s.pub.(sessions := s.pub.sessions + 1, names := s.pub.names + 1)
  {
  }

  /** What is published now. */
  function Current(v: Versions): Snapshot {
    Snapshot(v.routes, v.devices, v.sessions, v.names)
  }

  /** A block that starts when something was marked since the last rebuild uses what is published
      now, if nothing is published while it runs; otherwise it goes on with the snapshot it has. In
      a block a route runs the DSP that is published when it is mixed. */
  lemma BlockUsesCurrent(s: State, r: nat) returns (steps: seq<Action>)
    requires Inv(s) && s.worker.Entering? && r < MAX_ROUTES
    ensures forall a :: a in steps ==> a.WorkerTurn? || a == ReadDsp(r) || a.FinishBlock?
    ensures var t := Exec(s, steps);
      && t.worker == Between && t.adopted == s.requested && !t.dirty && t.pub == s.pub
      && t.last.snap == (if s.dirty || s.built != s.requested then Current(s.pub) else s.snap)
      && r in t.last.dsp && t.last.dsp[r] == s.pub.dsp[r]
  {
    assert AtMost(s.at[0], s.pub);
    var lead := MixesSoon(s);
    var m := Exec(s, lead);
    ExecLast(s, lead, ReadDsp(r));
    ExecLast(s, lead + [ReadDsp(r)], FinishBlock);
    steps := lead + [ReadDsp(r)] + [FinishBlock];
  }

  /** The worker's own way into the mixing of a block. */
  lemma MixesSoon(s: State) returns (steps: seq<Action>)
    requires s.worker.Entering?
    ensures forall a :: a in steps ==> a.WorkerTurn?
    ensures var t := Exec(s, steps);
      && t.worker == Mixing(s.requested, map[]) && !t.dirty && t.pub == s.pub && t.requested == s.requested
      && t.snap == (if s.dirty || s.built != s.requested then Current(s.pub) else s.snap)
  {
    ConsumesMark(s);
    TwoTurns(s);
    var b := Exec(s, [WorkerTurn, WorkerTurn]);
    TakesSnapshot(b);
    ExecLast(s, [WorkerTurn, WorkerTurn], WorkerTurn);
    if b.worker.rebuild {
      TwoTurns(Step(b, WorkerTurn));
      ExecAppend(s, [WorkerTurn, WorkerTurn] + [WorkerTurn], [WorkerTurn, WorkerTurn]);
      steps := [WorkerTurn, WorkerTurn] + [WorkerTurn] + [WorkerTurn, WorkerTurn];
    } else {
      steps := [WorkerTurn, WorkerTurn] + [WorkerTurn];
    }
  }

  /** A block that starts loads the requested revision and takes the mark away. */
  lemma ConsumesMark(s: State)
    requires s.worker.Entering?
    ensures Step(Step(s, WorkerTurn), WorkerTurn)
            == s.(worker := HasDirty(s.requested, s.dirty || s.built != s.requested), dirty := false)
  {
  }

  lemma TakesSnapshot(b: State)
    requires b.worker.HasDirty?
    ensures var t := b.worker.target;
      if b.worker.rebuild
      then Step(Step(Step(b, WorkerTurn), WorkerTurn), WorkerTurn) == b.(worker := Mixing(t, map[]), snap := Current(b.pub), built := t)
      else Step(b, WorkerTurn) == b.(worker := Mixing(t, map[]))
  {
  }

  lemma TwoTurns(s: State)
    ensures Exec(s, [WorkerTurn, WorkerTurn]) == Step(Step(s, WorkerTurn), WorkerTurn)
  {
    ExecHead(s, WorkerTurn, [WorkerTurn]);
    ExecHead(Step(s, WorkerTurn), WorkerTurn, []);
    assert [WorkerTurn] + [WorkerTurn] == [WorkerTurn, WorkerTurn];
    assert [WorkerTurn] + [] == [WorkerTurn];
  }

  /** Stopping and starting again loses nothing that was published or adopted, and the first block
      afterwards rebuilds. */
  lemma RestartRebuilds(s: State)
    requires s.lifecycle.Steady? && s.running && s.worker.Between?
    ensures var stopped := Step(Step(Step(Step(s, Control(Stop)), WorkerTurn), Control(Join)), Control(Clear));
      var t := Step(Step(Step(stopped, Control(Start)), Control(StartMark)), Control(Spawn));
      && stopped.worker == Absent && !stopped.running
      && t == s.(dirty := true, built := 0, snap := NO_SNAPSHOT)
  {
  }

  lemma {:induction false} ExecAppend(s: State, first: seq<Action>, second: seq<Action>)
    ensures Exec(s, first + second) == Exec(Exec(s, first), second)
  {
    if second == [] {
      assert first + second == first;
    } else {
      var n := |second| - 1;
      var init, last := second[..n], second[n];
      assert second == init + [last] && first + second == (first + init) + [last];
      ExecAppend(s, first, init);
      ExecLast(s, first + init, last);
      ExecLast(Exec(s, first), init, last);
    }
  }
}
