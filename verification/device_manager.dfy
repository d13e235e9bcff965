/**
 * Activating and removing hardware devices.
 *
 * An activation has three parts: it plans under the manager's lock, opens devices without it,
 * and publishes them under the lock again. A generation counter tells the last part whether a
 * removal happened in between.
 */
module DeviceManagers {
  import opened Limits

  // ---------- One device ----------

  /** What the audio library answers when asked to open a device: nothing, or a stream with the
      client's and the backend's width, and whether its format, its rings and its start are fine. */
  datatype Opening = Refused | Opened(client: nat, internal: nat, formatOk: bool, ringsOk: bool, startOk: bool)

  predicate InvalidCount(o: Opening) {
    o.Opened? && (o.client == 0 || o.client > MAX_CHANNELS || o.internal == 0 || o.internal > MAX_CHANNELS)
  }

  predicate WidthMismatch(o: Opening, requested: nat) {
    o.Opened? && !InvalidCount(o) && (o.client != o.internal || (requested != 0 && o.client != requested))
  }

  /** A stream that may be used: an unmixed one, of the requested width. */
  predicate Usable(o: Opening, requested: nat) {
    o.Opened? && 1 <= o.client <= MAX_CHANNELS && o.client == o.internal
    && (requested == 0 || o.client == requested) && o.formatOk && o.ringsOk && o.startOk
  }

  /** Only the ALSA backend has a second name to try, and a stream of the wrong width is never
      replaced by one that the second name would remix. */
  predicate Opens(requested: nat, primary: Opening, fallback: Opening, hasFallback: bool) {
    requested <= MAX_CHANNELS && (Usable(primary, requested)
      || (hasFallback && !WidthMismatch(primary, requested) && Usable(fallback, requested)))
  }

  function OpenedWidth(requested: nat, primary: Opening, fallback: Opening, hasFallback: bool): (w: nat)
    requires Opens(requested, primary, fallback, hasFallback)
    ensures 1 <= w <= MAX_CHANNELS && (requested == 0 || w == requested)
  {
    if Usable(primary, requested) then primary.client else fallback.client
  }

  class HardwareDevice {
    const requested: nat
    var initialized: bool
    var channels: nat

    constructor (requested: nat)
      ensures this.requested == requested && !initialized && channels == requested
    {
      this.requested := requested;
      initialized := false;
      channels := requested;
    }

    /** One attempt to open. */
    method Attempt(o: Opening) returns (ok: bool, mismatch: bool)
      requires !initialized
      modifies this
      ensures ok == Usable(o, requested) && initialized == ok && (ok ==> channels == o.client)
      ensures mismatch == WidthMismatch(o, requested)
    {
      ok, mismatch := false, false;
      if o.Refused? {
        return;
      }
      initialized := true;
      channels := o.client;
      if channels == 0 || channels > MAX_CHANNELS || o.internal == 0 || o.internal > MAX_CHANNELS {
        Stop();
        return;
      }
      if channels != o.internal || (requested != 0 && channels != requested) {
        mismatch := true;
        Stop();
        return;
      }
      if !o.formatOk || !o.ringsOk || !o.startOk {
        Stop();
        return;
      }
      ok := true;
    }

    method Stop()
      modifies this`initialized
      ensures !initialized
    {
      initialized := false;
    }

    /** Opening a device. A failed device is closed. Opening it again restarts the stream if it has
        stopped, and never changes its width. */
    method Init(started: bool, restarts: bool, primary: Opening, fallback: Opening, hasFallback: bool) returns (ok: bool)
      modifies this
      ensures old(initialized) ==> ok == (started || restarts) && initialized && channels == old(channels)
      ensures !old(initialized) ==> ok == Opens(requested, primary, fallback, hasFallback) && initialized == ok
      ensures !old(initialized) && ok ==> channels == OpenedWidth(requested, primary, fallback, hasFallback)
    {
      if initialized {
        return started || restarts;
      }
      if requested > MAX_CHANNELS {
        return false;
      }
      var mismatch;
      ok, mismatch := Attempt(primary);
      if ok || !hasFallback || mismatch {
        return;
      }
      ok, mismatch := Attempt(fallback);
    }
  }

  // ---------- The manager's table ----------

  /** An open device. `serial` tells devices opened at different times apart. */
  datatype Device = Device(original: string, capture: bool, width: nat, serial: nat)

  /** An enumerated endpoint. */
  datatype Listed = Listed(id: string, capture: bool)

  /** A device an activation will open. */
  datatype Candidate = Candidate(capture: bool, requested: nat)

  datatype Plan = Fails | Done | OpenThese(generation: nat, candidates: seq<Candidate>)

  function Key(id: string, capture: bool): string {
    id + if capture then "_capture" else "_playback"
  }

  /** Different endpoints never share a key, whatever their IDs contain. */
  lemma KeyInjective(id: string, capture: bool, id': string, capture': bool)
    requires Key(id, capture) == Key(id', capture')
    ensures id == id' && capture == capture'
  {
    var k := Key(id, capture);
    var last := k[|k| - 1];
    assert capture <==> last == 'e';
    assert capture' <==> last == 'e';
    var n := if capture then 8 else 9;
    assert k[..|k| - n] == id;
    assert k[..|k| - n] == id';
  }

  type Table = map<string, Device>

  /** Every device is found under its own key, and has a usable width. */
  predicate KeysFit(active: Table) {
    forall k :: k in active ==> k == Key(active[k].original, active[k].capture) && 1 <= active[k].width <= MAX_CHANNELS
  }

  function Requested(cap: nat, play: nat, capture: bool): nat {
    if capture then cap else play
  }

  predicate Conflicts(active: Table, id: string, capture: bool, requested: nat) {
    requested != 0 && Key(id, capture) in active && active[Key(id, capture)].width != requested
  }

  /** An active direction of this ID has another width than the call asks for. */
  predicate Mismatch(active: Table, id: string, cap: nat, play: nat) {
    Conflicts(active, id, true, cap) || Conflicts(active, id, false, play)
  }

  predicate IsActive(active: Table, id: string) {
    Key(id, true) in active || Key(id, false) in active
  }

  predicate Offered(available: seq<Listed>, id: string, capture: bool) {
    Listed(id, capture) in available
  }

  /** The enumerated directions of this ID that are not active, in enumeration order. */
  function Candidates(active: Table, available: seq<Listed>, id: string, cap: nat, play: nat): seq<Candidate> {
    if available == [] then [] else
      var l := available[|available| - 1];
      Candidates(active, available[..|available| - 1], id, cap, play) +
      if l.id == id && Key(id, l.capture) !in active then [Candidate(l.capture, Requested(cap, play, l.capture))] else []
  }

  function PlanOf(active: Table, available: seq<Listed>, context: bool, generation: nat, id: string, cap: nat, play: nat): Plan {
    if cap > MAX_CHANNELS || play > MAX_CHANNELS || !context || Mismatch(active, id, cap, play) then Fails
    else if cap != 0 && Key(id, true) !in active && !Offered(available, id, true) then Fails
    else if play != 0 && Key(id, false) !in active && !Offered(available, id, false) then Fails
    else
      var candidates := Candidates(active, available, id, cap, play);
      if candidates != [] then OpenThese(generation, candidates)
      else if IsActive(active, id) then Done else Fails
  }

  /** Publishing never replaces a device that is already active. */
  function Emplaced(active: Table, id: string, ready: seq<Device>): Table {
    if ready == [] then active else
      var before := Emplaced(active, id, ready[..|ready| - 1]);
      var d := ready[|ready| - 1];
      if Key(id, d.capture) in before then before else before[Key(id, d.capture) := d]
  }

  predicate Publishes(active: Table, generation: nat, id: string, cap: nat, play: nat, begun: nat, ready: seq<Device>) {
    && begun == generation
    && !Mismatch(active, id, cap, play)
    && IsActive(Emplaced(active, id, ready), id)
  }

  function Removed(active: Table, id: string): Table {
    map k | k in active && active[k].original != id :: active[k]
  }

  class DeviceManager {
    var active: Table
    var available: seq<Listed>
    const context: bool
    var generation: nat

    constructor (context: bool)
      ensures this.context == context && active == map[] && available == [] && generation == 0 && Valid()
    {
      this.context := context;
      active, available, generation := map[], [], 0;
    }

    predicate Valid()
      reads this
    {
      KeysFit(active)
    }

    method Enumerate(listed: seq<Listed>)
      requires Valid()
      modifies this`available
      ensures available == if context then listed else []
    {
      available := [];
      if context {
        available := listed;
      }
    }

    /** Looking at every active device of this ID. */
    method ScanActive(id: string, cap: nat, play: nat)
      returns (mismatch: bool, alreadyActive: bool, hasCapture: bool, hasPlayback: bool)
      requires Valid()
      ensures mismatch == Mismatch(active, id, cap, play)
      ensures !mismatch ==> hasCapture == (Key(id, true) in active) && hasPlayback == (Key(id, false) in active)
      ensures !mismatch ==> alreadyActive == IsActive(active, id)
    {
      mismatch, alreadyActive, hasCapture, hasPlayback := false, false, false, false;
      var keys := active.Keys;
      while keys != {}
        invariant keys <= active.Keys && !mismatch
        invariant forall capture :: Key(id, capture) in active.Keys - keys ==>
          !Conflicts(active, id, capture, Requested(cap, play, capture))
        invariant hasCapture == (Key(id, true) in active.Keys - keys)
        invariant hasPlayback == (Key(id, false) in active.Keys - keys)
        invariant alreadyActive == (hasCapture || hasPlayback)
      {
        var k :| k in keys;
        var d := active[k];
        ghost var left := keys;
        keys := keys - {k};
        if d.original == id {
          alreadyActive := true;
          if Requested(cap, play, d.capture) != 0 && Requested(cap, play, d.capture) != d.width {
            assert Conflicts(active, id, d.capture, Requested(cap, play, d.capture));
            mismatch := true;
            return;
          }
          if d.capture {
            hasCapture := true;
          } else {
            hasPlayback := true;
          }
        }
        KeyScanned(active, left, k, id);
      }
    }

    /** The first, locked part of an activation. */
    method Planned(id: string, cap: nat, play: nat) returns (plan: Plan)
      requires Valid()
      ensures plan == PlanOf(active, available, context, generation, id, cap, play)
    {
      if cap > MAX_CHANNELS || play > MAX_CHANNELS || !context {
        return Fails;
      }
      var mismatch, alreadyActive, hasCapture, hasPlayback := ScanActive(id, cap, play);
      if mismatch {
        return Fails;
      }
      var candidates: seq<Candidate> := [];
      for i := 0 to |available|
        invariant candidates == Candidates(active, available[..i], id, cap, play)
        invariant hasCapture == (Key(id, true) in active || Offered(available[..i], id, true))
        invariant hasPlayback == (Key(id, false) in active || Offered(available[..i], id, false))
      {
        var l := available[i];
        assert available[..i + 1] == available[..i] + [l];
        assert available[..i + 1][..i] == available[..i];
        if l.id == id {
          if l.capture {
            hasCapture := true;
          } else {
            hasPlayback := true;
          }
          if Key(id, l.capture) !in active {
            candidates := candidates + [Candidate(l.capture, Requested(cap, play, l.capture))];
          }
        }
      }
      assert available[..|available|] == available;
      if (cap != 0 && !hasCapture) || (play != 0 && !hasPlayback) {
        return Fails;
      }
      if candidates == [] {
        return if alreadyActive then Done else Fails;
      }
      plan := OpenThese(generation, candidates);
    }

    /** The last, locked part of an activation. */
    method Publish(id: string, cap: nat, play: nat, begun: nat, ready: seq<Device>) returns (ok: bool)
      requires Valid()
      requires forall d :: d in ready ==> d.original == id && 1 <= d.width <= MAX_CHANNELS
      modifies this`active
      ensures Valid()
      ensures ok == Publishes(old(active), generation, id, cap, play, begun, ready)
      ensures active == if ok then Emplaced(old(active), id, ready) else old(active)
    {
      if begun != generation {
        return false;
      }
      var mismatch, alreadyActive, hasCapture, hasPlayback := ScanActive(id, cap, play);
      if mismatch {
        return false;
      }
      for i := 0 to |ready|
        invariant active == Emplaced(old(active), id, ready[..i]) && Valid()
      {
        assert ready[..i + 1][..i] == ready[..i];
        var key := Key(id, ready[i].capture);
        if key !in active {
          active := active[key := ready[i]];
        }
      }
      assert ready[..|ready|] == ready;
      EmplacedNothing(old(active), id, ready);
      ok := Key(id, true) in active || Key(id, false) in active;
    }

    /** Removing both directions of one ID. */
    method Deactivate(id: string)
      requires Valid()
      modifies this`active, this`generation
      ensures Valid() && generation == old(generation) + 1 && active == Removed(old(active), id)
    {
      generation := generation + 1;
      var keys := active.Keys;
      while keys != {}
        invariant keys <= active.Keys && generation == old(generation) + 1
        invariant active == map k | k in old(active) && (k in keys || old(active)[k].original != id) :: old(active)[k]
      {
        var k :| k in keys;
        if active[k].original == id {
          active := active - {k};
        }
        keys := keys - {k};
      }
    }

    method StopAll()
      requires Valid()
      modifies this`active, this`generation
      ensures Valid() && generation == old(generation) + 1 && active == map[]
    {
      generation := generation + 1;
      active := map[];
    }
  }

  lemma KeyScanned(active: Table, left: set<string>, k: string, id: string)
    requires KeysFit(active) && k in left && left <= active.Keys
    ensures forall capture :: Key(id, capture) in active.Keys - (left - {k}) <==>
      Key(id, capture) in active.Keys - left || (active[k].original == id && active[k].capture == capture)
  {
    forall capture ensures Key(id, capture) == k <==> active[k].original == id && active[k].capture == capture {
      if Key(id, capture) == k {
        KeyInjective(id, capture, active[k].original, active[k].capture);
      }
    }
  }

  lemma {:induction false} EmplacedNothing(active: Table, id: string, ready: seq<Device>)
    ensures !IsActive(Emplaced(active, id, ready), id) ==> Emplaced(active, id, ready) == active
  {
    if ready != [] {
      EmplacedNothing(active, id, ready[..|ready| - 1]);
      var d := ready[|ready| - 1];
      assert d.capture || !d.capture;
    }
  }
}
