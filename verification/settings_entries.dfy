/** What a settings file means, entry by entry and member by member. */
module SettingsEntries {
  import AudioGraph
  import opened ControlOutcomes
  import opened DspSettings
  import opened JsonValues
  import opened NodeRegistry
  import opened ProcessorRegistries
  import opened Routing
  import opened SettingsFile
  import opened Wrappers

  // ---------- Members ----------

  predicate Countable(j: Json) {
    j.Int? || j.Bool? || j.Real?
  }

  /** Read as a 32-bit count, an integer is the one congruent to it, a number is cut off towards zero,
      and one that does not fit is too large for any channel. */
  ghost predicate ReadsCount(j: Json, c: nat) {
    match j
    case Int(i) => c < 4294967296 && exists k: int :: i == c + 4294967296 * k
    case Bool(b) => c == if b then 1 else 0
    case Real(x) =>
      if 0.0 <= x < 4294967296.0 then c as real <= x < c as real + 1.0
      else if -1.0 < x < 0.0 then c == 0
      else c >= 254
    case _ => false
  }

  ghost predicate ReadsChannel(v: Json, key: string, c: nat)
    requires v.Obj?
  {
    if key in v.fields then ReadsCount(v.fields[key], c) else c >= 254
  }

  predicate ReadsGain(v: Json, g: real)
    requires v.Obj?
  {
    if "gain" !in v.fields then g == 1.0
    else Worth(v.fields["gain"], g) || (v.fields["gain"].Bool? && g == if v.fields["gain"].b then 1.0 else 0.0)
  }

  predicate ReadsSwitch(v: Json, b: bool)
    requires v.Obj?
  {
    if "enabled" in v.fields then v.fields["enabled"] == Bool(b) else b
  }

  lemma ChannelIs(v: Json, key: string)
    requires v.Obj?
    ensures CountOf(v, key).Some? <==> (key in v.fields ==> Countable(v.fields[key]))
    ensures CountOf(v, key).Some? ==> ReadsChannel(v, key, CountOf(v, key).value)
  {
    if key in v.fields && v.fields[key].Int? {
      var i := v.fields[key].i;
      assert i == i % TWO_TO_32 + 4294967296 * (i / TWO_TO_32);
    }
  }

  lemma GainIs(v: Json)
    requires v.Obj?
    ensures NumberOf(v, "gain").Some? <==> ("gain" in v.fields ==> Countable(v.fields["gain"]))
    ensures NumberOf(v, "gain").Some? ==> ReadsGain(v, NumberOf(v, "gain").value)
  {
  }

  lemma SwitchIs(v: Json)
    requires v.Obj?
    ensures SwitchOf(v, "enabled").Some? <==> ("enabled" in v.fields ==> v.fields["enabled"].Bool?)
    ensures SwitchOf(v, "enabled").Some? ==> ReadsSwitch(v, SwitchOf(v, "enabled").value)
  {
  }

  // ---------- Entries ----------

  predicate ValidId(v: Json) {
    v.Obj? && "id" in v.fields && v.fields["id"].Int? && 1 <= v.fields["id"].i <= 4294967295
  }

  /** A member that is there has a type that it cannot be read from. */
  predicate Broken(v: Json)
    requires v.Obj?
  {
    || ("source" in v.fields && !v.fields["source"].Str?)
    || ("destination" in v.fields && !v.fields["destination"].Str?)
    || ("source_channel" in v.fields && !Countable(v.fields["source_channel"]))
    || ("destination_channel" in v.fields && !Countable(v.fields["destination_channel"]))
    || ("gain" in v.fields && !Countable(v.fields["gain"]))
    || ("enabled" in v.fields && !v.fields["enabled"].Bool?)
  }

  /** The endpoint that an entry names, if it names one. */
  function EndOf(v: Json, key: string): string
    requires v.Obj?
  {
    if key in v.fields && v.fields[key].Str? then v.fields[key].s else ""
  }

  function NodeOf(n: Nodes, e: string): int {
    if e == "" then -1 else if e == "tone/generator" then 0 else if e in n.ids then n.ids[e] else -1
  }

  /** The route that an entry describes, by the IDs of the nodes. */
  ghost predicate Describes(n: Nodes, v: Json, route: AudioRoute)
    requires ValidId(v)
  {
    && route.id == v.fields["id"].i
    && route.source == NodeOf(n, EndOf(v, "source")) && route.destination == NodeOf(n, EndOf(v, "destination"))
    && ReadsChannel(v, "source_channel", route.sourceChannel)
    && ReadsChannel(v, "destination_channel", route.destinationChannel)
    && ReadsGain(v, route.gain) && ReadsSwitch(v, route.enabled)
  }

  predicate InBounds(route: AudioRoute) {
    && route.source >= 0 && route.destination >= 0
    && route.sourceChannel < 254 && route.destinationChannel < 254 && 0.0 <= route.gain <= 8.0
  }

  /** The counter after a route with this ID; the last ID is not exceeded. */
  function Above(next: nat, id: nat): nat {
    if id < next then next else if id < 4294967295 then id + 1 else 4294967295
  }

  /** One more route, with the settings it carries. */
  ghost predicate Takes(r: Registry, l: Loop, v: Json, index: nat, route: AudioRoute, t: Loop)
    requires ValidId(v)
  {
    && t.routes == l.routes + [route] && t.accepted == l.accepted + [index] && t.nextId == Above(l.nextId, route.id)
    && if "dsp" in v.fields then
         && t.cache == l.cache[route.id := Restore(r, route.id, v.fields["dsp"]).state]
         && t.slots == if 0 < route.id < 1024 then l.slots[route.id := Restore(r, route.id, v.fields["dsp"]).executed] else l.slots
       else t.cache == l.cache && t.slots == l.slots
  }

  /** What one entry does before loading has ended: without a valid ID, nothing; with a member of a
      wrong type, it ends loading; otherwise it describes a route, which is taken if and only if it is
      within the bounds and both its ends have an ID. */
  lemma EntryIs(r: Registry, l: Loop, v: Json, index: nat) returns (route: AudioRoute)
    requires !l.threw && l.nextId <= 4294967295
    ensures var t := EntryStep(r, l, v, index);
      if !ValidId(v) then t == l
      else if Broken(v) then t == l.(nodes := t.nodes, threw := true)
      else
        && !t.threw && Describes(t.nodes, v, route)
        && if InBounds(route) then Takes(r, l, v, index, route, t) else t == l.(nodes := t.nodes)
  {
    route := AudioGraph.AudioRoute(0, 0, 0, 0, 0, 0.0, false);
    if ValidId(v) {
      BrokenIff(v);
      if !Broken(v) {
        var n := EntryNodes(l.nodes, EndOf(v, "source"), EndOf(v, "destination"));
        route := EntryRoute(n, v.fields["id"].i, EndOf(v, "source"), EndOf(v, "destination"), FieldsOf(v).value);
        EntryDescribes(n, v, FieldsOf(v).value, route);
        EntryTakes(r, l, v, index, n, route);
        EntryStepIs(r, l, v, index, n, route);
      }
    }
  }

  /** A valid entry can be read if and only if no member has a wrong type. */
  lemma BrokenIff(v: Json)
    requires ValidId(v)
    ensures PersistedId(v) == Some(v.fields["id"].i) && (Broken(v) <==> Unreadable(v))
    ensures !Broken(v) ==>
      var f := FieldsOf(v).value;
      ReadsChannel(v, "source_channel", f.sourceChannel) && ReadsChannel(v, "destination_channel", f.destinationChannel)
      && ReadsGain(v, f.gain) && ReadsSwitch(v, f.enabled)
  {
    ChannelIs(v, "source_channel");
    ChannelIs(v, "destination_channel");
    GainIs(v);
    SwitchIs(v);
  }

  lemma EntryStepIs(r: Registry, l: Loop, v: Json, index: nat, n: Nodes, route: AudioRoute)
    requires ValidId(v) && !l.threw && PersistedId(v) == Some(v.fields["id"].i) && !Unreadable(v)
    requires n == EntryNodes(l.nodes, EndOf(v, "source"), EndOf(v, "destination"))
    requires route == EntryRoute(n, v.fields["id"].i, EndOf(v, "source"), EndOf(v, "destination"), FieldsOf(v).value)
    ensures EntryStep(r, l, v, index) ==
            if Acceptable(route) then Accept(r, l.(nodes := n), v, index, route) else l.(nodes := n)
  {
    assert TextOf(v, "source").value == EndOf(v, "source");
    assert TextOf(v, "destination").value == EndOf(v, "destination");
  }

  lemma EntryDescribes(n: Nodes, v: Json, f: Fields, route: AudioRoute)
    requires ValidId(v) && route == EntryRoute(n, v.fields["id"].i, EndOf(v, "source"), EndOf(v, "destination"), f)
    requires ReadsChannel(v, "source_channel", f.sourceChannel) && ReadsChannel(v, "destination_channel", f.destinationChannel)
    requires ReadsGain(v, f.gain) && ReadsSwitch(v, f.enabled)
    ensures Describes(n, v, route)
    ensures Acceptable(route) <==> InBounds(route)
  {
  }

  lemma EntryTakes(r: Registry, l: Loop, v: Json, index: nat, n: Nodes, route: AudioRoute)
    requires ValidId(v) && 1 <= route.id <= 4294967295 && l.nextId <= 4294967295
    ensures var t := Accept(r, l.(nodes := n), v, index, route);
      Takes(r, l, v, index, route, t) && t.nodes == n && t.threw == l.threw
  {
  }

  /** The ends of an entry get an ID as far as there are IDs left, whatever becomes of its route. */
  lemma EntryRegisters(r: Registry, l: Loop, v: Json, index: nat)
    requires NodesOk(l.nodes) && !l.threw && ValidId(v)
    requires ("source" in v.fields ==> v.fields["source"].Str?) && ("destination" in v.fields ==> v.fields["destination"].Str?)
    ensures var n := EntryStep(r, l, v, index).nodes;
      && (forall e :: e in l.nodes.ids ==> e in n.ids && n.ids[e] == l.nodes.ids[e])
      && (forall e :: e in n.ids ==> e in l.nodes.ids || e == EndOf(v, "source") || e == EndOf(v, "destination"))
      && (EndOf(v, "source") != "" && l.nodes.next < 256 ==> NodeOf(n, EndOf(v, "source")) >= 0)
      && (EndOf(v, "destination") != "" && l.nodes.next < 255 ==> NodeOf(n, EndOf(v, "destination")) >= 0)
  {
    var source, destination := EndOf(v, "source"), EndOf(v, "destination");
    EntryNodesAre(r, l, v, index);
    NameRegisters(l.nodes, source);
    NameRegisters(RegisterNamed(l.nodes, source), destination);
  }

  lemma EntryNodesAre(r: Registry, l: Loop, v: Json, index: nat)
    requires !l.threw && ValidId(v)
    requires ("source" in v.fields ==> v.fields["source"].Str?) && ("destination" in v.fields ==> v.fields["destination"].Str?)
    ensures EntryStep(r, l, v, index).nodes == RegisterNamed(RegisterNamed(l.nodes, EndOf(v, "source")), EndOf(v, "destination"))
  {
    BrokenIff(v);
    assert TextOf(v, "source") == Some(EndOf(v, "source"));
    assert TextOf(v, "destination") == Some(EndOf(v, "destination"));
  }

  lemma NameRegisters(n: Nodes, e: string)
    requires NodesOk(n)
    ensures var t := RegisterNamed(n, e);
      && NodesOk(t) && n.next <= t.next <= n.next + 1
      && (forall x :: x in n.ids ==> x in t.ids && t.ids[x] == n.ids[x])
      && (forall x :: x in t.ids ==> x in n.ids || x == e)
      && (e != "" && n.next < 256 ==> NodeOf(t, e) >= 0)
  {
    if e != "" {
      RegisterKeeps(n, e);
    }
  }

  // ---------- All entries ----------

  predicate Breaks(items: seq<Json>, k: nat)
    requires k <= |items|
  {
    exists j :: 0 <= j < k && ValidId(items[j]) && Broken(items[j])
  }

  /** Loading ends early if and only if some entry with a valid ID has a member of a wrong type. */
  lemma {:induction false} EndsEarlyIff(r: Registry, l: Loop, items: seq<Json>, k: nat)
    requires k <= |items| && !l.threw && 1 <= l.nextId <= 4294967295
    ensures LoadRoutes(r, l, items, k).threw <==> Breaks(items, k)
    ensures 1 <= LoadRoutes(r, l, items, k).nextId <= 4294967295
  {
    if k > 0 {
      EndsEarlyIff(r, l, items, k - 1);
      var before := LoadRoutes(r, l, items, k - 1);
      if !before.threw {
        var route := EntryIs(r, before, items[k - 1], k - 1);
      }
      assert Breaks(items, k) <==> Breaks(items, k - 1) || (ValidId(items[k - 1]) && Broken(items[k - 1]));
    }
  }

  /** The counter is above every route's ID, up to the last, and no higher than it has to be. */
  predicate NextIsLeast(routes: seq<AudioRoute>, next: nat) {
    && (forall i :: 0 <= i < |routes| ==> routes[i].id < next || next == 4294967295)
    && (next == 1 || exists i :: 0 <= i < |routes| && (routes[i].id + 1 == next || routes[i].id == next == 4294967295))
  }

  lemma OneMoreRoute(routes: seq<AudioRoute>, route: AudioRoute, next: nat)
    requires NextIsLeast(routes, next) && 1 <= next <= 4294967295 && 1 <= route.id <= 4294967295
    ensures NextIsLeast(routes + [route], Above(next, route.id))
  {
    var more := routes + [route];
    assert more[|routes|] == route;
    if next != 1 {
      var i :| 0 <= i < |routes| && (routes[i].id + 1 == next || routes[i].id == next == 4294967295);
      assert more[i] == routes[i];
    }
  }

  lemma {:induction false} NextIdIs(r: Registry, l: Loop, items: seq<Json>, k: nat)
    requires k <= |items| && !l.threw && l.routes == [] && l.nextId == 1
    ensures var t := LoadRoutes(r, l, items, k); 1 <= t.nextId <= 4294967295 && NextIsLeast(t.routes, t.nextId)
  {
    if k > 0 {
      NextIdIs(r, l, items, k - 1);
      var before := LoadRoutes(r, l, items, k - 1);
      if !before.threw {
        var route := EntryIs(r, before, items[k - 1], k - 1);
        if ValidId(items[k - 1]) && !Broken(items[k - 1]) && InBounds(route) {
          OneMoreRoute(before.routes, route, before.nextId);
        }
      }
    }
  }

  // ---------- Names and devices ----------

  /** Strings are visited in lexicographic order: at the first place where they differ, the smaller
      character is first, and a proper prefix is before what it is a prefix of. */
  lemma {:induction false} BeforeIff(a: string, b: string, k: nat)
    requires k <= |a| && k <= |b| && a[..k] == b[..k]
    requires k < |a| && k < |b| ==> a[k] != b[k]
    ensures Before(a, b) <==> k < |b| && (k == |a| || (k < |a| && a[k] < b[k]))
  {
    if k > 0 {
      assert a[0] == a[..k][0] && b[0] == b[..k][0];
      assert a[1..][..k - 1] == a[..k][1..] && b[1..][..k - 1] == b[..k][1..];
      BeforeIff(a[1..], b[1..], k - 1);
    }
  }

  /** That order is strict and total. */
  lemma {:induction false} BeforeIsOrder(a: string, b: string, c: string)
    ensures !(Before(a, b) && Before(b, a))
    ensures a != b ==> Before(a, b) || Before(b, a)
    ensures Before(a, b) && Before(b, c) ==> Before(a, c)
    decreases |a| + |b| + |c|
  {
    if a != [] && b != [] && a[0] == b[0] {
      if c != [] && b[0] == c[0] {
        BeforeIsOrder(a[1..], b[1..], c[1..]);
      } else {
        BeforeIsOrder(a[1..], b[1..], c);
      }
      assert a[1..] == b[1..] ==> a == b by {
        assert a == [a[0]] + a[1..] && b == [b[0]] + b[1..];
      }
    }
  }

  /** A client's name is read if it is a string and every name visited before it is one, too. */
  lemma NameIsReadIff(fields: map<string, Json>, key: string)
    ensures key in NamesRead(fields) <==>
      key in fields && fields[key].Str? && forall other :: other in fields && Before(other, key) ==> fields[other].Str?
    ensures key in NamesRead(fields) ==> fields[key] == Str(NamesRead(fields)[key])
  {
    forall other | key in fields && other in fields && fields[key].Str? && !fields[other].Str?
      ensures Before(key, other) <==> !Before(other, key)
    {
      BeforeIsOrder(key, other, key);
    }
  }

  /** The devices are the strings of the list, in order, without the rest. */
  lemma {:induction false} DevicesAre(before: seq<Json>, item: Json, after: seq<Json>)
    ensures DevicesOf(before + [item] + after) == DevicesOf(before) + (if item.Str? then [item.s] else []) + DevicesOf(after)
  {
    if after == [] {
      assert before + [item] + after == before + [item];
      DevicesLast(before, item);
    } else {
      var n := |after| - 1;
      DevicesAre(before, item, after[..n]);
      assert before + [item] + after == (before + [item] + after[..n]) + [after[n]];
      DevicesLast(before + [item] + after[..n], after[n]);
    }
  }

  lemma DevicesLast(before: seq<Json>, last: Json)
    ensures DevicesOf(before + [last]) == DevicesOf(before) + if last.Str? then [last.s] else []
  {
    assert (before + [last])[..|before|] == before;
  }

  /** The entries that a file has under a key, if it is a list. */
  function Listed(file: Json, key: string): seq<Json> {
    if file.Obj? && key in file.fields && file.fields[key].Arr? then file.fields[key].items else []
  }

  /** An unreadable file changes nothing. Otherwise devices, nodes, settings and slots are as far as
      loading came; routes, counter and names are replaced if and only if no entry ended it, and it
      succeeds if in addition every client's name is a string. */
  lemma LoadIs(r: Registry, m: Manager, file: Json, readable: bool)
    ensures var t := Load(r, m, file, readable);
      var entries := Listed(file, "routes");
      var clients := if file.Obj? && "clients" in file.fields && file.fields["clients"].Obj? then file.fields["clients"].fields else map[];
      if !readable then t == Loaded(m, false)
      else
        && t.m.devices == DevicesOf(Listed(file, "activated_devices"))
        && (var l := RouteLoop(r, m, file); t.m.nodes == l.nodes && t.m.cache == l.cache && t.m.slots == l.slots)
        && if Breaks(entries, |entries|) then !t.ok && t.m.routes == m.routes && t.m.nextRoute == m.nextRoute && t.m.names == m.names
           else
             && NextIsLeast(t.m.routes, t.m.nextRoute) && t.m.names == NamesRead(clients)
             && (t.ok <==> forall key :: key in clients ==> clients[key].Str?)
  {
    var entries := Listed(file, "routes");
    assert entries == ItemsAt(file, "routes") && Listed(file, "activated_devices") == ItemsAt(file, "activated_devices");
    EndsEarlyIff(r, StartLoop(m, file), entries, |entries|);
    NextIdIs(r, StartLoop(m, file), entries, |entries|);
  }
}
