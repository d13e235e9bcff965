/**
 * Any number of concurrent activations and removals, one step for each locked part and for each
 * device that is opened in between.
 */
module Activation {
  import opened DeviceManagers
  import opened Limits

  /** An activation between its locked parts. `todo` are the devices it still has to open. */
  datatype Call = Call(
    id: string, cap: nat, play: nat, begun: nat, todo: seq<Candidate>, ready: seq<Device>)
  {
    predicate Explicit() { cap != 0 || play != 0 }
  }

  datatype State = State(
    active: Table, available: seq<Listed>, context: bool, generation: nat,
    calls: map<nat, Call>, results: map<nat, bool>, serial: nat)

  datatype Action =
    | Enumerate(listed: seq<Listed>)
    | Begin(call: nat, id: string, cap: nat, play: nat)
    | Open(call: nat, primary: Opening, fallback: Opening, hasFallback: bool)
    | Publish(call: nat)
    | Deactivate(id: string)
    | StopAll

  function Initial(context: bool): State {
    State(map[], [], context, 0, map[], map[], 0)
  }

  // ---------- The steps ----------

  function BeginStep(s: State, t: nat, id: string, cap: nat, play: nat): State {
    if t in s.calls || t in s.results then s else
      match PlanOf(s.active, s.available, s.context, s.generation, id, cap, play)
      case Fails => s.(results := s.results[t := false])
      case Done => s.(results := s.results[t := true])
      case OpenThese(g, candidates) => s.(calls := s.calls[t := Call(id, cap, play, g, candidates, [])])
  }

  /** An explicit request gives up with the first device that cannot be opened; an automatic one
      goes on with the rest. */
  function OpenStep(s: State, t: nat, primary: Opening, fallback: Opening, hasFallback: bool): State {
    if t !in s.calls || s.calls[t].todo == [] then s else
      var c := s.calls[t];
      if Opens(c.todo[0].requested, primary, fallback, hasFallback) then
        var d := Device(c.id, c.todo[0].capture, OpenedWidth(c.todo[0].requested, primary, fallback, hasFallback), s.serial);
        s.(calls := s.calls[t := c.(todo := c.todo[1..], ready := c.ready + [d])], serial := s.serial + 1)
      else if c.Explicit() then s.(calls := s.calls - {t}, results := s.results[t := false])
      else s.(calls := s.calls[t := c.(todo := c.todo[1..])])
  }

  function PublishStep(s: State, t: nat): State {
    if t !in s.calls || s.calls[t].todo != [] then s else
      var c := s.calls[t];
      var ok := Publishes(s.active, s.generation, c.id, c.cap, c.play, c.begun, c.ready);
      s.(active := if ok then Emplaced(s.active, c.id, c.ready) else s.active,
         calls := s.calls - {t}, results := s.results[t := ok])
  }

  function Step(s: State, a: Action): State {
    match a
    case Enumerate(listed) => s.(available := if s.context then listed else [])
    case Begin(t, id, cap, play) => BeginStep(s, t, id, cap, play)
    case Open(t, primary, fallback, hasFallback) => OpenStep(s, t, primary, fallback, hasFallback)
    case Publish(t) => PublishStep(s, t)
    case Deactivate(id) => s.(active := Removed(s.active, id), generation := s.generation + 1)
    case StopAll => s.(active := map[], generation := s.generation + 1)
  }

  // ---------- The invariant ----------

  predicate Includes(cs: seq<Candidate>, capture: bool) {
    exists i :: 0 <= i < |cs| && cs[i].capture == capture
  }

  /** The direction is active as asked for, or open as asked for, or still to be opened so. */
  predicate Served(active: Table, c: Call, capture: bool) {
    var want := Requested(c.cap, c.play, capture);
    want == 0
    || (Key(c.id, capture) in active && active[Key(c.id, capture)].width == want)
    || (exists i :: 0 <= i < |c.ready| && c.ready[i].capture == capture)
    || Includes(c.todo, capture)
  }

  predicate DevicesFit(c: Call) {
    && (forall i :: 0 <= i < |c.ready| ==>
          c.ready[i].original == c.id && 1 <= c.ready[i].width <= MAX_CHANNELS
          && (Requested(c.cap, c.play, c.ready[i].capture) != 0 ==>
                c.ready[i].width == Requested(c.cap, c.play, c.ready[i].capture)))
    && (forall i :: 0 <= i < |c.todo| ==> c.todo[i].requested == Requested(c.cap, c.play, c.todo[i].capture))
  }

  predicate CallFits(active: Table, generation: nat, c: Call) {
    && c.begun <= generation && DevicesFit(c)
    && (c.begun == generation ==> Served(active, c, true) && Served(active, c, false))
  }

  predicate Inv(s: State) {
    && KeysFit(s.active)
    && s.calls.Keys !! s.results.Keys
    && forall t :: t in s.calls ==> CallFits(s.active, s.generation, s.calls[t])
  }

  /** Emplacing keeps every device and adds only devices of this call. */
  lemma {:induction false} EmplacedKeeps(active: Table, id: string, ready: seq<Device>, k: string)
    ensures k in active ==> k in Emplaced(active, id, ready) && Emplaced(active, id, ready)[k] == active[k]
    ensures k in Emplaced(active, id, ready) && k !in active ==>
      exists i :: 0 <= i < |ready| && k == Key(id, ready[i].capture) && Emplaced(active, id, ready)[k] == ready[i]
  {
    if ready != [] {
      var n := |ready| - 1;
      EmplacedKeeps(active, id, ready[..n], k);
      if k in Emplaced(active, id, ready) && k !in active {
        if k in Emplaced(active, id, ready[..n]) {
          var i :| 0 <= i < n && k == Key(id, ready[..n][i].capture) && Emplaced(active, id, ready[..n])[k] == ready[..n][i];
          assert k == Key(id, ready[i].capture) && Emplaced(active, id, ready)[k] == ready[i];
        } else {
          assert k == Key(id, ready[n].capture) && Emplaced(active, id, ready)[k] == ready[n];
        }
      }
    }
  }

  lemma {:induction false} EmplacedAll(active: Table, id: string, ready: seq<Device>, i: nat)
    requires i < |ready|
    ensures Key(id, ready[i].capture) in Emplaced(active, id, ready)
  {
    var n := |ready| - 1;
    if i < n {
      EmplacedAll(active, id, ready[..n], i);
    }
  }

  lemma EmplacedFits(active: Table, c: Call)
    requires KeysFit(active) && DevicesFit(c)
    ensures KeysFit(Emplaced(active, c.id, c.ready))
  {
    var next := Emplaced(active, c.id, c.ready);
    forall k | k in next ensures k == Key(next[k].original, next[k].capture) && 1 <= next[k].width <= MAX_CHANNELS {
      EmplacedKeeps(active, c.id, c.ready, k);
    }
  }

  lemma CallGrows(active: Table, next: Table, generation: nat, c: Call)
    requires CallFits(active, generation, c)
    requires forall k :: k in active ==> k in next && next[k] == active[k]
    ensures CallFits(next, generation, c)
  {
  }

  lemma {:induction false} CandidatesFit(active: Table, available: seq<Listed>, id: string, cap: nat, play: nat)
    ensures forall i :: 0 <= i < |Candidates(active, available, id, cap, play)| ==>
      Candidates(active, available, id, cap, play)[i].requested
      == Requested(cap, play, Candidates(active, available, id, cap, play)[i].capture)
  {
    if available != [] {
      CandidatesFit(active, available[..|available| - 1], id, cap, play);
    }
  }

  lemma {:induction false} CandidateListed(active: Table, available: seq<Listed>, id: string, cap: nat, play: nat, capture: bool)
    requires Offered(available, id, capture) && Key(id, capture) !in active
    ensures Includes(Candidates(active, available, id, cap, play), capture)
  {
    var n := |available| - 1;
    var cs := Candidates(active, available, id, cap, play);
    if available[n] == Listed(id, capture) {
      assert cs[|cs| - 1].capture == capture;
    } else {
      CandidateListed(active, available[..n], id, cap, play, capture);
      var before := Candidates(active, available[..n], id, cap, play);
      var i :| 0 <= i < |before| && before[i].capture == capture;
      assert cs[i].capture == capture;
    }
  }

  lemma PlanFits(s: State, id: string, cap: nat, play: nat)
    requires Inv(s)
    ensures var p := PlanOf(s.active, s.available, s.context, s.generation, id, cap, play);
      && (p.OpenThese? ==> CallFits(s.active, s.generation, Call(id, cap, play, p.generation, p.candidates, [])))
      && (p.Done? ==> Satisfied(s.active, id, cap, play))
  {
    CandidatesFit(s.active, s.available, id, cap, play);
    forall capture | Key(id, capture) !in s.active && Offered(s.available, id, capture)
      ensures Includes(Candidates(s.active, s.available, id, cap, play), capture)
    {
      CandidateListed(s.active, s.available, id, cap, play, capture);
    }
  }

  /** Something of this ID is active, and every direction that was asked for by width has it. */
  predicate Satisfied(active: Table, id: string, cap: nat, play: nat) {
    && IsActive(active, id)
    && (cap != 0 ==> Key(id, true) in active && active[Key(id, true)].width == cap)
    && (play != 0 ==> Key(id, false) in active && active[Key(id, false)].width == play)
  }

  lemma PublishSatisfies(active: Table, generation: nat, c: Call)
    requires KeysFit(active) && CallFits(active, generation, c) && c.todo == []
    requires Publishes(active, generation, c.id, c.cap, c.play, c.begun, c.ready)
    ensures Satisfied(Emplaced(active, c.id, c.ready), c.id, c.cap, c.play)
  {
    var next := Emplaced(active, c.id, c.ready);
    forall capture | Requested(c.cap, c.play, capture) != 0
      ensures Key(c.id, capture) in next && next[Key(c.id, capture)].width == Requested(c.cap, c.play, capture)
    {
      var k := Key(c.id, capture);
      assert Served(active, c, capture) && !Conflicts(active, c.id, capture, Requested(c.cap, c.play, capture));
      EmplacedKeeps(active, c.id, c.ready, k);
      if k !in active {
        var i :| 0 <= i < |c.ready| && c.ready[i].capture == capture;
        EmplacedAll(active, c.id, c.ready, i);
        var j :| 0 <= j < |c.ready| && k == Key(c.id, c.ready[j].capture) && next[k] == c.ready[j];
        KeyInjective(c.id, capture, c.id, c.ready[j].capture);
      }
    }
  }

  lemma OpenKeeps(s: State, t: nat, primary: Opening, fallback: Opening, hasFallback: bool)
    requires Inv(s)
    ensures Inv(OpenStep(s, t, primary, fallback, hasFallback))
  {
    if t in s.calls && s.calls[t].todo != [] {
      var c := s.calls[t];
      var s' := OpenStep(s, t, primary, fallback, hasFallback);
      if t in s'.calls {
        OpenServes(s.active, s.generation, c, s'.calls[t]);
        CallReplaced(s, t, s'.calls[t], s'.serial);
        assert s' == s.(calls := s.calls[t := s'.calls[t]], serial := s'.serial);
      } else {
        assert s' == s.(calls := s.calls - {t}, results := s.results[t := false]);
      }
    }
  }

  lemma CallReplaced(s: State, t: nat, c: Call, serial: nat)
    requires Inv(s) && t in s.calls && CallFits(s.active, s.generation, c)
    ensures Inv(s.(calls := s.calls[t := c], serial := serial))
  {
  }

  lemma OpenServes(active: Table, generation: nat, c: Call, c': Call)
    requires CallFits(active, generation, c) && c.todo != []
    requires (c' == c.(todo := c.todo[1..]) && !c.Explicit()) || (exists d: Device ::
      c' == c.(todo := c.todo[1..], ready := c.ready + [d]) && d.original == c.id && d.capture == c.todo[0].capture
      && 1 <= d.width <= MAX_CHANNELS && (c.todo[0].requested == 0 || d.width == c.todo[0].requested))
    ensures CallFits(active, generation, c')
  {
    if c.Explicit() {
      forall capture | Served(active, c, capture) ensures Served(active, c', capture) {
        if i :| 0 <= i < |c.todo| && c.todo[i].capture == capture {
          if i == 0 {
            assert c'.ready[|c.ready|].capture == capture;
          } else {
            assert c'.todo[i - 1].capture == capture;
          }
        }
        if i :| 0 <= i < |c.ready| && c.ready[i].capture == capture {
          assert c'.ready[i].capture == capture;
        }
      }
    }
  }

  lemma PublishKeeps(s: State, t: nat)
    requires Inv(s)
    ensures Inv(PublishStep(s, t))
  {
    if t in s.calls && s.calls[t].todo == [] {
      var c := s.calls[t];
      EmplacedFits(s.active, c);
      forall k | k in s.active
        ensures k in Emplaced(s.active, c.id, c.ready) && Emplaced(s.active, c.id, c.ready)[k] == s.active[k]
      {
        EmplacedKeeps(s.active, c.id, c.ready, k);
      }
      var s' := PublishStep(s, t);
      forall u | u in s'.calls ensures CallFits(s'.active, s'.generation, s'.calls[u]) {
        CallGrows(s.active, s'.active, s.generation, s.calls[u]);
      }
    }
  }

  lemma InvStep(s: State, a: Action)
    requires Inv(s)
    ensures Inv(Step(s, a))
  {
    match a {
      case Begin(t, id, cap, play) => PlanFits(s, id, cap, play);
      case Open(t, primary, fallback, hasFallback) => OpenKeeps(s, t, primary, fallback, hasFallback);
      case Publish(t) => PublishKeeps(s, t);
      case _ =>
    }
  }

  /** The state that a schedule leads to. */
  function Exec(s: State, schedule: seq<Action>): State {
    if schedule == [] then s
    else Step(Exec(s, schedule[..|schedule| - 1]), schedule[|schedule| - 1])
  }

  lemma {:induction false} ExecKeepsInv(s: State, schedule: seq<Action>)
    requires Inv(s)
    ensures Inv(Exec(s, schedule))
  {
    if schedule != [] {
      ExecKeepsInv(s, schedule[..|schedule| - 1]);
      InvStep(Exec(s, schedule[..|schedule| - 1]), schedule[|schedule| - 1]);
    }
  }

  lemma InitialInv(context: bool)
    ensures Inv(Initial(context))
  {
  }

  // ---------- Results ----------

  /** At any moment every active device is found under its own key, so no two active devices share
      an ID and a direction. */
  lemma ActiveIsUnique(context: bool, schedule: seq<Action>, k: string, k': string)
    ensures var active := Exec(Initial(context), schedule).active;
      k in active && k' in active && active[k].original == active[k'].original && active[k].capture == active[k'].capture
      ==> k == k'
  {
    InitialInv(context);
    ExecKeepsInv(Initial(context), schedule);
  }

  /** An active device is never replaced, so its width never changes: a step leaves it alone or
      removes it, and only a removal that names it does. */
  lemma ActiveNeverChanges(s: State, a: Action, k: string)
    requires Inv(s) && k in s.active
    ensures k in Step(s, a).active ==> Step(s, a).active[k] == s.active[k]
    ensures k in Step(s, a).active <==> !(a.StopAll? || a == Deactivate(s.active[k].original))
  {
    if a.Publish? && a.call in s.calls {
      EmplacedKeeps(s.active, s.calls[a.call].id, s.calls[a.call].ready, k);
    }
  }

  /** The call returns in this step. */
  predicate Returns(s: State, a: Action, t: nat) {
    t !in s.results && t in Step(s, a).results
  }

  /** The call whose turn this step is. */
  predicate ByCall(a: Action, t: nat) {
    (a.Begin? && a.call == t) || (a.Open? && a.call == t) || (a.Publish? && a.call == t)
  }

  /** What a call asks for. */
  predicate Asks(s: State, a: Action, t: nat, id: string, cap: nat, play: nat) {
    a == Begin(t, id, cap, play)
    || (t in s.calls && s.calls[t].id == id && s.calls[t].cap == cap && s.calls[t].play == play && !a.Begin?)
  }

  /** When an activation returns success, its ID is active, and every direction that was asked for
      by width is active at that width. */
  lemma SuccessMeansWidth(s: State, a: Action, t: nat, id: string, cap: nat, play: nat)
    requires Inv(s) && Returns(s, a, t) && Asks(s, a, t, id, cap, play) && Step(s, a).results[t]
    ensures Satisfied(Step(s, a).active, id, cap, play)
  {
    if a.Begin? {
      PlanFits(s, id, cap, play);
    } else {
      PublishSatisfies(s.active, s.generation, s.calls[t]);
    }
  }

  /** When it returns failure, with explicit widths or not, it has published nothing. */
  lemma FailurePublishesNothing(s: State, a: Action, t: nat)
    requires Inv(s) && Returns(s, a, t) && !Step(s, a).results[t]
    ensures Step(s, a).active == s.active
  {
  }

  /** A call publishes at no other moment than when it returns success. */
  lemma PublishesOnlyOnSuccess(s: State, a: Action, t: nat)
    requires Inv(s) && ByCall(a, t) && Step(s, a).active != s.active
    ensures Returns(s, a, t) && Step(s, a).results[t]
  {
  }

  /** Begun before the last removal, or already returned. */
  predicate Cancelled(s: State, t: nat) {
    t in s.results || (t in s.calls && s.calls[t].begun < s.generation)
  }

  lemma CancelledStep(s: State, a: Action, t: nat)
    requires Inv(s) && Cancelled(s, t)
    ensures Cancelled(Step(s, a), t)
    ensures ByCall(a, t) ==> Step(s, a).active == s.active
    ensures t !in s.results && t in Step(s, a).results ==> !Step(s, a).results[t]
  {
  }

  lemma {:induction false} CancelledRun(s: State, schedule: seq<Action>, t: nat)
    requires Inv(s) && Cancelled(s, t)
    ensures Cancelled(Exec(s, schedule), t)
  {
    if schedule != [] {
      var n := |schedule| - 1;
      CancelledRun(s, schedule[..n], t);
      ExecKeepsInv(s, schedule[..n]);
      CancelledStep(Exec(s, schedule[..n]), schedule[n], t);
    }
  }

  predicate Removes(a: Action) {
    a.Deactivate? || a.StopAll?
  }

  /** An activation that began before a removal, of this ID or of any other, never publishes
      afterwards, however the calls interleave, and can only return failure. */
  lemma RemovalCancels(s: State, removal: Action, schedule: seq<Action>, t: nat, a: Action)
    requires Inv(s) && Removes(removal) && t in s.calls && ByCall(a, t)
    ensures var u := Exec(Step(s, removal), schedule);
      Step(u, a).active == u.active && (Returns(u, a, t) ==> !Step(u, a).results[t])
  {
    InvStep(s, removal);
    CancelledRun(Step(s, removal), schedule, t);
    ExecKeepsInv(Step(s, removal), schedule);
    CancelledStep(Exec(Step(s, removal), schedule), a, t);
  }

  /** Nothing begins to activate this ID. */
  predicate NoneBegins(schedule: seq<Action>, id: string) {
    forall i :: 0 <= i < |schedule| && schedule[i].Begin? ==> schedule[i].id != id
  }

  /** No direction of this ID is active, and no call could still activate one. */
  predicate Gone(s: State, id: string) {
    && (forall capture :: Key(id, capture) !in s.active)
    && (forall t :: t in s.calls && s.calls[t].id == id ==> s.calls[t].begun < s.generation)
  }

  lemma GoneStep(s: State, a: Action, id: string)
    requires Inv(s) && Gone(s, id) && !(a.Begin? && a.id == id)
    ensures Gone(Step(s, a), id)
  {
    if a.Publish? && a.call in s.calls && s.calls[a.call].id != id {
      var c := s.calls[a.call];
      forall capture ensures Key(id, capture) !in Step(s, a).active {
        EmplacedKeeps(s.active, c.id, c.ready, Key(id, capture));
        forall other | Key(id, capture) == Key(c.id, other) ensures false {
          KeyInjective(id, capture, c.id, other);
        }
      }
    }
  }

  lemma {:induction false} GoneRun(s: State, schedule: seq<Action>, id: string)
    requires Inv(s) && Gone(s, id) && NoneBegins(schedule, id)
    ensures Gone(Exec(s, schedule), id)
  {
    if schedule != [] {
      var n := |schedule| - 1;
      GoneRun(s, schedule[..n], id);
      ExecKeepsInv(s, schedule[..n]);
      GoneStep(Exec(s, schedule[..n]), schedule[n], id);
    }
  }

  /** After a removal an endpoint stays off until an activation of it begins anew. */
  lemma RemovedStaysOff(s: State, removal: Action, schedule: seq<Action>, id: string, capture: bool)
    requires Inv(s) && (removal == Deactivate(id) || removal == StopAll) && NoneBegins(schedule, id)
    ensures Key(id, capture) !in Exec(Step(s, removal), schedule).active
  {
    InvStep(s, removal);
    var u := Step(s, removal);
    forall c ensures Key(id, c) !in u.active {
      if Key(id, c) in s.active {
        KeyInjective(id, c, s.active[Key(id, c)].original, s.active[Key(id, c)].capture);
      }
    }
    GoneRun(u, schedule, id);
  }

  // ---------- What each part of an activation answers ----------

  /** The direction of this ID is active. */
  predicate On(active: Table, id: string, capture: bool) {
    exists k :: k in active && active[k].original == id && active[k].capture == capture
  }

  lemma OnIsKeyed(active: Table, id: string, capture: bool)
    requires KeysFit(active)
    ensures On(active, id, capture) <==> Key(id, capture) in active
    ensures Key(id, capture) in active ==> active[Key(id, capture)].original == id && active[Key(id, capture)].capture == capture
  {
    if Key(id, capture) in active {
      var d := active[Key(id, capture)];
      KeyInjective(id, capture, d.original, d.capture);
    }
  }

  /** Every active direction of this ID has the width asked for it, if one is. */
  predicate WidthsAgree(active: Table, id: string, cap: nat, play: nat) {
    forall k :: k in active && active[k].original == id ==>
      if active[k].capture then cap == 0 || active[k].width == cap else play == 0 || active[k].width == play
  }

  lemma AgreeIff(active: Table, id: string, cap: nat, play: nat)
    requires KeysFit(active)
    ensures Mismatch(active, id, cap, play) <==> !WidthsAgree(active, id, cap, play)
    ensures IsActive(active, id) <==> exists capture :: On(active, id, capture)
  {
    OnIsKeyed(active, id, true);
    OnIsKeyed(active, id, false);
  }

  lemma EmplacedOn(active: Table, id: string, ready: seq<Device>)
    requires KeysFit(active)
    ensures IsActive(Emplaced(active, id, ready), id) <==> IsActive(active, id) || ready != []
  {
    EmplacedKeeps(active, id, ready, Key(id, true));
    EmplacedKeeps(active, id, ready, Key(id, false));
    if ready != [] {
      EmplacedAll(active, id, ready, 0);
    }
  }

  /** When a call with nothing left to open publishes, it succeeds exactly if nothing was removed
      since it began, no active direction of its ID has another width than asked for, and something
      of the ID is active or was opened. */
  lemma PublishSucceedsIff(s: State, t: nat)
    requires Inv(s) && t in s.calls && s.calls[t].todo == []
    ensures var c := s.calls[t]; var s' := Step(s, Publish(t));
      && t in s'.results && t !in s'.calls
      && (s'.results[t] <==>
            && c.begun == s.generation && WidthsAgree(s.active, c.id, c.cap, c.play)
            && (c.ready != [] || exists k :: k in s.active && s.active[k].original == c.id))
  {
    var c := s.calls[t];
    AgreeIff(s.active, c.id, c.cap, c.play);
    EmplacedOn(s.active, c.id, c.ready);
    if k :| k in s.active && s.active[k].original == c.id {
      assert On(s.active, c.id, s.active[k].capture);
    }
  }

  /** And then every opened direction that was not active is active with the device opened for it,
      the first one if there were several; everything else is as it was. */
  lemma PublishedAreActive(s: State, t: nat, i: nat, k: string)
    requires Inv(s) && t in s.calls && s.calls[t].todo == [] && Step(s, Publish(t)).results[t]
    requires i < |s.calls[t].ready| && forall j :: 0 <= j < i ==> s.calls[t].ready[j].capture != s.calls[t].ready[i].capture
    ensures var d := s.calls[t].ready[i]; var active := Step(s, Publish(t)).active; var key := Key(d.original, d.capture);
      && key in active && active[key] == (if key in s.active then s.active[key] else d)
      && (k in active && k !in s.active ==> exists j :: 0 <= j < |s.calls[t].ready| && k == Key(s.calls[t].id, s.calls[t].ready[j].capture))
      && (k in s.active ==> k in active && active[k] == s.active[k])
  {
    var c := s.calls[t];
    EmplacedAll(s.active, c.id, c.ready, i);
    if Key(c.id, c.ready[i].capture) !in s.active {
      EmplacedFirst(s.active, c.id, c.ready, i);
    }
    EmplacedKeeps(s.active, c.id, c.ready, k);
    EmplacedKeeps(s.active, c.id, c.ready, Key(c.id, c.ready[i].capture));
  }

  lemma {:induction false} EmplacedFirst(active: Table, id: string, ready: seq<Device>, i: nat)
    requires i < |ready| && Key(id, ready[i].capture) !in active
    requires forall j :: 0 <= j < i ==> ready[j].capture != ready[i].capture
    ensures Key(id, ready[i].capture) in Emplaced(active, id, ready)
    ensures Emplaced(active, id, ready)[Key(id, ready[i].capture)] == ready[i]
  {
    var n := |ready| - 1;
    if i < n {
      EmplacedFirst(active, id, ready[..n], i);
    } else {
      var k := Key(id, ready[i].capture);
      EmplacedKeeps(active, id, ready[..n], k);
      if k in Emplaced(active, id, ready[..n]) {
        var j :| 0 <= j < n && k == Key(id, ready[..n][j].capture) && Emplaced(active, id, ready[..n])[k] == ready[..n][j];
        KeyInjective(id, ready[i].capture, id, ready[j].capture);
      }
    }
  }

  lemma GenerationStep(s: State, a: Action)
    ensures s.generation <= Step(s, a).generation
    ensures Step(s, a).generation == s.generation <==> !Removes(a)
  {
  }

  /** The generation that a call began with is the current one exactly if nothing was removed since. */
  lemma {:induction false} CurrentIffNothingRemoved(s: State, schedule: seq<Action>)
    ensures s.generation <= Exec(s, schedule).generation
    ensures Exec(s, schedule).generation == s.generation <==> forall a :: a in schedule ==> !Removes(a)
  {
    if schedule != [] {
      var n := |schedule| - 1;
      CurrentIffNothingRemoved(s, schedule[..n]);
      GenerationStep(Exec(s, schedule[..n]), schedule[n]);
      assert schedule == schedule[..n] + [schedule[n]];
    }
  }

  /** The same request, begun in the same generation. */
  predicate SameRequest(c: Call, d: Call) {
    c.id == d.id && c.cap == d.cap && c.play == d.play && c.begun == d.begun
  }

  /** A call keeps what it asked for and what it saw, and never comes back once it has returned. */
  ghost predicate SameCall(s: State, u: State, t: nat) {
    && (t in u.calls || t in u.results) && !(t in u.calls && t in u.results)
    && (t in u.calls ==> t in s.calls && SameRequest(u.calls[t], s.calls[t]))
  }

  lemma SameCallStep(s: State, u: State, a: Action, t: nat)
    requires SameCall(s, u, t)
    ensures SameCall(s, Step(u, a), t)
  {
    if a.Begin? {
      BeginLeaves(u, a.call, a.id, a.cap, a.play, t);
    } else if a.Open? {
      OpenLeaves(u, a.call, a.primary, a.fallback, a.hasFallback, t);
    } else if a.Publish? {
      PublishLeaves(u, a.call, t);
    }
  }

  /** What a step of any call does to call t. */
  ghost predicate Leaves(u: State, v: State, t: nat) {
    || (t in v.calls && t in u.calls && SameRequest(v.calls[t], u.calls[t]) && (t in v.results <==> t in u.results))
    || (t !in v.calls && t in v.results)
  }

  lemma BeginLeaves(u: State, c: nat, id: string, cap: nat, play: nat, t: nat)
    requires t in u.calls || t in u.results
    ensures Leaves(u, BeginStep(u, c, id, cap, play), t) || (t in u.calls && t in u.results)
  {
  }

  lemma OpenLeaves(u: State, c: nat, primary: Opening, fallback: Opening, hasFallback: bool, t: nat)
    requires t in u.calls || t in u.results
    ensures Leaves(u, OpenStep(u, c, primary, fallback, hasFallback), t) || (t in u.calls && t in u.results)
  {
  }

  lemma PublishLeaves(u: State, c: nat, t: nat)
    requires t in u.calls || t in u.results
    ensures Leaves(u, PublishStep(u, c), t) || (t in u.calls && t in u.results)
  {
  }

  lemma {:induction false} CallStaysItself(s: State, schedule: seq<Action>, t: nat)
    requires t in s.calls && t !in s.results
    ensures SameCall(s, Exec(s, schedule), t)
  {
    if schedule != [] {
      CallStaysItself(s, schedule[..|schedule| - 1], t);
      SameCallStep(s, Exec(s, schedule[..|schedule| - 1]), schedule[|schedule| - 1], t);
    }
  }

  /** Over a whole run: a call begun in s, with any actions of any threads after it, publishes
      successfully exactly under those conditions, and "nothing removed" means no removal after its
      beginning. */
  lemma ActivationSucceedsIff(s: State, t: nat, id: string, cap: nat, play: nat, schedule: seq<Action>)
    requires Inv(s) && t !in s.calls && t in Step(s, Begin(t, id, cap, play)).calls
    requires var u := Exec(Step(s, Begin(t, id, cap, play)), schedule); t in u.calls && u.calls[t].todo == []
    ensures var u := Exec(Step(s, Begin(t, id, cap, play)), schedule); var v := Step(u, Publish(t));
      t in v.results && (v.results[t] <==>
        && (forall a :: a in schedule ==> !Removes(a)) && WidthsAgree(u.active, id, cap, play)
        && (u.calls[t].ready != [] || exists k :: k in u.active && u.active[k].original == id))
  {
    var b := Step(s, Begin(t, id, cap, play));
    InvStep(s, Begin(t, id, cap, play));
    ExecKeepsInv(b, schedule);
    CallStaysItself(b, schedule, t);
    CurrentIffNothingRemoved(b, schedule);
    PublishSucceedsAs(Exec(b, schedule), t, id, cap, play, s.generation);
  }

  lemma PublishSucceedsAs(u: State, t: nat, id: string, cap: nat, play: nat, begun: nat)
    requires Inv(u) && t in u.calls && u.calls[t].todo == []
    requires u.calls[t].id == id && u.calls[t].cap == cap && u.calls[t].play == play && u.calls[t].begun == begun
    ensures var v := Step(u, Publish(t));
      t in v.results && (v.results[t] <==>
        && u.generation == begun && WidthsAgree(u.active, id, cap, play)
        && (u.calls[t].ready != [] || exists k :: k in u.active && u.active[k].original == id))
  {
    PublishSucceedsIff(u, t);
  }

  /** The entries of an enumeration that an activation opens, in order. */
  ghost predicate Picks(at: seq<nat>, todo: seq<Candidate>, active: Table, available: seq<Listed>, id: string, cap: nat, play: nat) {
    && |at| == |todo| && (forall i, j :: 0 <= i < j < |at| ==> at[i] < at[j])
    && (forall j :: 0 <= j < |at| ==>
          && at[j] < |available| && available[at[j]] == Listed(id, todo[j].capture) && !On(active, id, todo[j].capture)
          && todo[j].requested == if todo[j].capture then cap else play)
    && (forall i :: 0 <= i < |available| && available[i].id == id && !On(active, id, available[i].capture) ==> i in at)
  }

  /** One more entry of the enumeration: passed over, or opened after the others. */
  lemma PicksNext(at: seq<nat>, todo: seq<Candidate>, active: Table, available: seq<Listed>, last: Listed, id: string, cap: nat, play: nat)
    requires Picks(at, todo, active, available, id, cap, play)
    ensures last.id == id && !On(active, id, last.capture) ==>
      Picks(at + [|available|], todo + [Candidate(last.capture, if last.capture then cap else play)],
            active, available + [last], id, cap, play)
    ensures !(last.id == id && !On(active, id, last.capture)) ==> Picks(at, todo, active, available + [last], id, cap, play)
  {
    var more := available + [last];
    assert forall i :: 0 <= i < |available| ==> more[i] == available[i];
    if last.id == id && !On(active, id, last.capture) {
      var longer := at + [|available|];
      assert longer[|at|] == |available|;
      forall i | 0 <= i < |more| && more[i].id == id && !On(active, id, more[i].capture) ensures i in longer {
        assert i < |available| ==> i in at;
      }
    }
  }

  lemma {:induction false} CandidatesArePicked(active: Table, available: seq<Listed>, id: string, cap: nat, play: nat) returns (at: seq<nat>)
    requires KeysFit(active)
    ensures Picks(at, Candidates(active, available, id, cap, play), active, available, id, cap, play)
  {
    if available == [] {
      at := [];
    } else {
      var n := |available| - 1;
      var last := available[n];
      var before := CandidatesArePicked(active, available[..n], id, cap, play);
      var todo := Candidates(active, available[..n], id, cap, play);
      OnIsKeyed(active, id, last.capture);
      assert available == available[..n] + [last];
      PicksNext(before, todo, active, available[..n], last, id, cap, play);
      at := if last.id == id && !On(active, id, last.capture) then before + [n] else before;
      CandidatesNext(active, available[..n], last, id, cap, play);
    }
  }

  lemma CandidatesNext(active: Table, available: seq<Listed>, last: Listed, id: string, cap: nat, play: nat)
    requires KeysFit(active)
    ensures Candidates(active, available + [last], id, cap, play) ==
      if last.id == id && !On(active, id, last.capture)
      then Candidates(active, available, id, cap, play) + [Candidate(last.capture, if last.capture then cap else play)]
      else Candidates(active, available, id, cap, play)
  {
    OnIsKeyed(active, id, last.capture);
    assert (available + [last])[..|available|] == available;
  }

  /** The directions of this ID that are active or listed. */
  predicate Known(s: State, id: string, capture: bool) {
    On(s.active, id, capture) || exists i :: 0 <= i < |s.available| && s.available[i] == Listed(id, capture)
  }

  /** The request can be met: counts in range, an audio context, no active width against it, and
      every direction asked for by count, and at least one direction, known. */
  predicate Possible(s: State, id: string, cap: nat, play: nat) {
    && cap <= 254 && play <= 254 && s.context && WidthsAgree(s.active, id, cap, play)
    && (cap != 0 ==> Known(s, id, true)) && (play != 0 ==> Known(s, id, false))
    && (Known(s, id, true) || Known(s, id, false))
  }

  /** Every listed direction of this ID is active. */
  predicate AllOn(s: State, id: string) {
    forall i :: 0 <= i < |s.available| && s.available[i].id == id ==> On(s.active, id, s.available[i].capture)
  }

  lemma PlanAnswers(s: State, id: string, cap: nat, play: nat, at: seq<nat>)
    requires KeysFit(s.active)
    requires Picks(at, Candidates(s.active, s.available, id, cap, play), s.active, s.available, id, cap, play)
    ensures var plan := PlanOf(s.active, s.available, s.context, s.generation, id, cap, play);
      if !Possible(s, id, cap, play) then plan == Fails
      else if AllOn(s, id) then plan == Done
      else plan == OpenThese(s.generation, Candidates(s.active, s.available, id, cap, play))
  {
    AgreeIff(s.active, id, cap, play);
    KnownIff(s, id, true);
    KnownIff(s, id, false);
    NothingToOpenIff(s, id, cap, play, at);
    NobodyKnown(s, id, cap, play, at);
  }

  lemma KnownIff(s: State, id: string, capture: bool)
    requires KeysFit(s.active)
    ensures Known(s, id, capture) <==> Key(id, capture) in s.active || Offered(s.available, id, capture)
  {
    OnIsKeyed(s.active, id, capture);
  }

  lemma NothingToOpenIff(s: State, id: string, cap: nat, play: nat, at: seq<nat>)
    requires Picks(at, Candidates(s.active, s.available, id, cap, play), s.active, s.available, id, cap, play)
    ensures Candidates(s.active, s.available, id, cap, play) == [] <==> AllOn(s, id)
  {
    if Candidates(s.active, s.available, id, cap, play) != [] {
      assert s.available[at[0]].id == id && !On(s.active, id, s.available[at[0]].capture);
    }
  }

  /** With nothing to open, something is known exactly if something is active. */
  lemma NobodyKnown(s: State, id: string, cap: nat, play: nat, at: seq<nat>)
    requires KeysFit(s.active)
    requires Picks(at, Candidates(s.active, s.available, id, cap, play), s.active, s.available, id, cap, play)
    ensures Candidates(s.active, s.available, id, cap, play) == [] ==>
      (Known(s, id, true) || Known(s, id, false) <==> IsActive(s.active, id))
    ensures Candidates(s.active, s.available, id, cap, play) != [] ==> Known(s, id, true) || Known(s, id, false)
  {
    AgreeIff(s.active, id, cap, play);
    NothingToOpenIff(s, id, cap, play, at);
    if Candidates(s.active, s.available, id, cap, play) != [] {
      assert Known(s, id, s.available[at[0]].capture);
    }
  }

  /** What a new activation answers at once: failure if the request cannot be met, success if
      everything listed is active already; otherwise it goes on to open what is listed and not
      active, in the order of the enumeration. */
  lemma BeginAnswers(s: State, t: nat, id: string, cap: nat, play: nat) returns (at: seq<nat>)
    requires Inv(s) && t !in s.calls && t !in s.results
    ensures var s' := Step(s, Begin(t, id, cap, play));
      if !Possible(s, id, cap, play) then s' == s.(results := s.results[t := false])
      else if AllOn(s, id) then s' == s.(results := s.results[t := true])
      else
        && t in s'.calls && s' == s.(calls := s.calls[t := s'.calls[t]])
        && var c := s'.calls[t];
           && c.id == id && c.cap == cap && c.play == play && c.begun == s.generation && c.ready == []
           && Picks(at, c.todo, s.active, s.available, id, cap, play)
  {
    at := CandidatesArePicked(s.active, s.available, id, cap, play);
    PlanAnswers(s, id, cap, play, at);
  }

  /** A backend serves a request: it opened as wide as was asked for, or in any width when none was,
      with both counts equal, and everything after it worked. */
  predicate Serves(o: Opening, want: nat) {
    o.Opened? && 1 <= o.client <= 254 && o.internal == o.client && (want == 0 || o.client == want)
    && o.formatOk && o.ringsOk && o.startOk
  }

  /** A backend opened in counts that are possible, but not those asked for. */
  predicate OtherWidth(o: Opening, want: nat) {
    o.Opened? && 1 <= o.client <= 254 && 1 <= o.internal <= 254 && (o.internal != o.client || (want != 0 && o.client != want))
  }

  /** The second backend is tried only if the first did not open in another width. */
  lemma OpensIff(want: nat, primary: Opening, fallback: Opening, hasFallback: bool)
    ensures Opens(want, primary, fallback, hasFallback) <==>
      want <= 254 && (Serves(primary, want) || (hasFallback && !OtherWidth(primary, want) && Serves(fallback, want)))
    ensures Opens(want, primary, fallback, hasFallback) ==>
      OpenedWidth(want, primary, fallback, hasFallback) == if Serves(primary, want) then primary.client else fallback.client
  {
  }

  /** What opening one device answers: the opened device is kept for the end of the call; without one,
      a request with explicit counts fails at once and any other goes on to the next direction. */
  lemma OpenAnswers(s: State, t: nat, primary: Opening, fallback: Opening, hasFallback: bool)
    requires Inv(s) && t in s.calls && s.calls[t].todo != []
    ensures var c := s.calls[t]; var want := c.todo[0].requested; var s' := Step(s, Open(t, primary, fallback, hasFallback));
      && s'.active == s.active && s'.generation == s.generation
      && if want <= 254 && (Serves(primary, want) || (hasFallback && !OtherWidth(primary, want) && Serves(fallback, want))) then
           var width := if Serves(primary, want) then primary.client else fallback.client;
           && s'.results == s.results && s'.serial == s.serial + 1
           && s'.calls == s.calls[t := c.(todo := c.todo[1..],
                                          ready := c.ready + [Device(c.id, c.todo[0].capture, width, s.serial)])]
         else if c.cap != 0 || c.play != 0 then s'.results == s.results[t := false] && s'.calls == s.calls - {t}
         else s'.results == s.results && s'.calls == s.calls[t := c.(todo := c.todo[1..])]
  {
    OpensIff(s.calls[t].todo[0].requested, primary, fallback, hasFallback);
  }

  /** A device with both directions listed, opened with any two usable widths: after its activation
      both are active. */
  lemma DuplexActivates(id: string, w: nat, v: nat)
    requires 1 <= w <= 254 && 1 <= v <= 254
    ensures var s := Exec(Initial(true), [Enumerate([Listed(id, true), Listed(id, false)]), Begin(0, id, 0, 0),
                                          Open(0, Opened(w, w, true, true, true), Refused, false),
                                          Open(0, Opened(v, v, true, true, true), Refused, false), Publish(0)]);
      && s.results == map[0 := true]
      && (exists k :: k in s.active && s.active[k].original == id && s.active[k].capture && s.active[k].width == w)
      && (exists k :: k in s.active && s.active[k].original == id && !s.active[k].capture && s.active[k].width == v)
  {
    var available := [Listed(id, true), Listed(id, false)];
    var first, second := Opened(w, w, true, true, true), Opened(v, v, true, true, true);
    var actions := [Enumerate(available), Begin(0, id, 0, 0), Open(0, first, Refused, false), Open(0, second, Refused, false), Publish(0)];
    FiveSteps(Initial(true), actions);
    var s2 := Step(Step(Initial(true), actions[0]), actions[1]);
    BothBegun(id, s2);
    var s4 := Step(Step(s2, actions[2]), actions[3]);
    BothOpened(s2, id, first, second, w, v);
    InitialInv(true);
    ExecKeepsInv(Initial(true), actions[..4]);
    PublishSucceedsIff(s4, 0);
    PublishedAreActive(s4, 0, 0, "");
    PublishedAreActive(s4, 0, 1, "");
  }

  lemma BothBegun(id: string, s: State)
    requires s == Step(Step(Initial(true), Enumerate([Listed(id, true), Listed(id, false)])), Begin(0, id, 0, 0))
    ensures s.calls == map[0 := Call(id, 0, 0, 0, [Candidate(true, 0), Candidate(false, 0)], [])]
    ensures s.active == map[] && s.results == map[] && s.generation == 0 && s.serial == 0
  {
    BothListed(id);
  }

  lemma BothOpened(s: State, id: string, first: Opening, second: Opening, w: nat, v: nat)
    requires s.calls == map[0 := Call(id, 0, 0, 0, [Candidate(true, 0), Candidate(false, 0)], [])] && s.serial == 0
    requires 1 <= w <= 254 && 1 <= v <= 254 && first == Opened(w, w, true, true, true) && second == Opened(v, v, true, true, true)
    ensures var u := Step(Step(s, Open(0, first, Refused, false)), Open(0, second, Refused, false));
      && u.active == s.active && u.results == s.results && u.generation == s.generation
      && u.calls == map[0 := Call(id, 0, 0, 0, [], [Device(id, true, w, 0), Device(id, false, v, 1)])]
  {
    var u := Step(s, Open(0, first, Refused, false));
    assert [Candidate(true, 0), Candidate(false, 0)][1..] == [Candidate(false, 0)];
    var none: seq<Device> := [];
    assert none + [Device(id, true, w, 0)] == [Device(id, true, w, 0)];
    assert u.calls == map[0 := Call(id, 0, 0, 0, [Candidate(false, 0)], [Device(id, true, w, 0)])];
    assert [Candidate(false, 0)][1..] == [];
    assert [Device(id, true, w, 0)] + [Device(id, false, v, 1)] == [Device(id, true, w, 0), Device(id, false, v, 1)];
  }

  lemma FiveSteps(s: State, actions: seq<Action>)
    requires |actions| == 5
    ensures Exec(s, actions[..4]) == Step(Step(Step(Step(s, actions[0]), actions[1]), actions[2]), actions[3])
    ensures Exec(s, actions) == Step(Exec(s, actions[..4]), actions[4])
  {
    assert actions[..4][..3] == actions[..3] && actions[..3][..2] == actions[..2] && actions[..2][..1] == actions[..1];
    assert actions[..1][..0] == [];
    assert Exec(s, actions[..1]) == Step(s, actions[0]);
    assert Exec(s, actions[..2]) == Step(Exec(s, actions[..1]), actions[1]);
    assert Exec(s, actions[..3]) == Step(Exec(s, actions[..2]), actions[2]);
  }

  lemma BothListed(id: string)
    ensures Candidates(map[], [Listed(id, true), Listed(id, false)], id, 0, 0) == [Candidate(true, 0), Candidate(false, 0)]
  {
    var both := [Listed(id, true), Listed(id, false)];
    assert both[..1] == [Listed(id, true)] && both[..1][..0] == [];
    assert Candidates(map[], both[..1], id, 0, 0) == [Candidate(true, 0)];
  }
}
