/**
 * Publication of one route's DSP chain between a control writer and the audio reader.
 *
 * The engine keeps three chain slots per route. A writer, serialised by a mutex, loads
 * `current_idx` and `reader_idx`, takes the first slot that is neither, rewrites that slot
 * and finally stores `current_idx`. The audio reader loads `current_idx`, announces it in
 * `reader_idx` and loads `current_idx` again, repeating until both loads agree; it then runs
 * the chain and stores -1.
 *
 * Every shared load or store, and every write into a slot, is one step here. A schedule is
 * any sequence of steps of the two threads, so a statement over all schedules is a statement
 * over all interleavings.
 */
module RouteDspSlots {
  import opened Limits
  import opened Wrappers

  const SLOTS := 3

  /** The identity of one heap-allocated processor. */
  type Processor = nat

  /** One slot, as the engine stores it. */
  datatype Chain = Chain(processors: seq<Option<Processor>>, length: nat, gain: real, active: bool)

  /** What a control thread asks to have published. */
  datatype Update = Update(processors: seq<Processor>, gain: real, active: bool)

  /** What one audio block does with the route. */
  datatype Effect = Bypassed | Executed(processors: seq<Processor>, gain: real)

  /** The program counter of the writer, with its local variables. */
  datatype Writer =
    | Unlocked
    | Locked(u: Update)
    | KnowsCurrent(u: Update, cur: int)
    | Clearing(u: Update, slot: int, i: nat)
    | Filling(u: Update, slot: int, i: nat)
    | SettingActive(u: Update, slot: int)
    | Publishing(u: Update, slot: int)
  {
    /** The slot being rewritten, or -1. */
    function Target(): int {
      if Clearing? || Filling? || SettingActive? || Publishing? then slot else -1
    }
  }

  /** The program counter of the audio reader. `since` is the newest publication when the block
      reached the route, `at` the newest one at the first load of the current attempt and `ver`
      the publication that the validated slot holds; the code has no counterpart of these three. */
  datatype Reader =
    | Idle
    | Looking(since: nat)
    | Loaded(idx: int, at: nat, since: nat)
    | Announced(idx: int, at: nat, since: nat)
    | Pinned(idx: int, ver: nat, since: nat)
    | Running(idx: int, ver: nat, i: nat, ran: seq<Processor>, since: nat)
    | Leaving(effect: Effect, ver: nat, since: nat)
  {
    /** The slot being executed, or -1. */
    function Executing(): int {
      if Pinned? || Running? then idx else -1
    }
  }

  /** One finished audio block: what it did, which publication that was, and the newest
      publication when it began. */
  datatype Seen = Seen(effect: Effect, ver: nat, since: nat)

  datatype State = State(
    chains: seq<Chain>, current: int, reader: int,
    writer: Writer, audio: Reader,
    // History: every update published so far, the index of the one each slot holds, every
    // processor handed in, every processor destroyed, and what each block saw.
    pubs: seq<Update>, holds: seq<nat>,
    handed: seq<Processor>, destroyed: seq<Processor>, seen: seq<Seen>)

  datatype Action = Submit(u: Update) | WriterStep | ReaderStep

  const NOTHING := Update([], 1.0, false)

  function Empty(): Chain {
    Chain(seq(MAX_PROCESSORS, i => None), 0, 1.0, false)
  }

  function Initial(): State {
    State([Empty(), Empty(), Empty()], 0, -1, Unlocked, Idle,
          [NOTHING], [0, 0, 0], [], [], [])
  }

  function EffectOf(u: Update): Effect {
    if u.active then Executed(u.processors, u.gain) else Bypassed
  }

  /** The argument checks that come before the lock. */
  predicate Acceptable(u: Update) {
    |u.processors| <= MAX_PROCESSORS && GainOk(u.gain)
  }

  /** The writer's search for a slot, counting up from k. */
  function FreeSlot(current: int, reader: int, k: int): int
    decreases (if k <= current then current - k + 1 else 0) + (if k <= reader then reader - k + 1 else 0)
  {
    if k == current || k == reader then FreeSlot(current, reader, k + 1) else k
  }

  /** The search loop as the writer runs it: with two of the three slots taken, it stops at the
      first free one and never leaves the array. */
  method FindWriteSlot(current: int, reader: int) returns (slot: int)
    requires 0 <= current < SLOTS && -1 <= reader < SLOTS
    ensures 0 <= slot < SLOTS && slot != current && slot != reader
    ensures 0 < slot ==> 0 == current || 0 == reader
    ensures 1 < slot ==> 1 == current || 1 == reader
    ensures slot == FreeSlot(current, reader, 0)
  {
    slot := 0;
    while slot == current || slot == reader
      invariant 0 <= slot < SLOTS
      invariant 0 < slot ==> 0 == current || 0 == reader
      invariant 1 < slot ==> 1 == current || 1 == reader
      invariant FreeSlot(current, reader, 0) == FreeSlot(current, reader, slot)
      decreases SLOTS - slot
    {
      slot := slot + 1;
    }
  }

  // ---------- The steps ----------

  function PutProcessor(c: Chain, i: nat, p: Option<Processor>): Chain
    requires i < |c.processors|
  {
    c.(processors := c.processors[i := p])
  }

  function Contents(v: Option<Processor>): seq<Processor> {
    if v.Some? then [v.value] else []
  }

  function SubmitStep(s: State, u: Update): State {
    if !s.writer.Unlocked? then s  // waiting for the mutex
    else if !Acceptable(u) then
      s.(handed := s.handed + u.processors, destroyed := s.destroyed + u.processors)
    else
      s.(writer := Locked(u), handed := s.handed + u.processors)
  }

  function WriterStepOf(s: State): State
    requires Shaped(s)
  {
    match s.writer
    case Unlocked => s
    case Locked(u) => s.(writer := KnowsCurrent(u, s.current))
    case KnowsCurrent(u, cur) => s.(writer := Clearing(u, FreeSlot(cur, s.reader, 0), 0))
    case Clearing(u, w, i) =>
      if i < MAX_PROCESSORS then
        s.(chains := s.chains[w := PutProcessor(s.chains[w], i, None)],
           destroyed := s.destroyed + Contents(s.chains[w].processors[i]),
           writer := Clearing(u, w, i + 1))
      else
        s.(chains := s.chains[w := s.chains[w].(length := |u.processors|)], writer := Filling(u, w, 0))
    case Filling(u, w, i) =>
      if i < |u.processors| then
        s.(chains := s.chains[w := PutProcessor(s.chains[w], i, Some(u.processors[i]))],
           writer := Filling(u, w, i + 1))
      else
        s.(chains := s.chains[w := s.chains[w].(gain := u.gain)], writer := SettingActive(u, w))
    case SettingActive(u, w) =>
      s.(chains := s.chains[w := s.chains[w].(active := u.active)], writer := Publishing(u, w))
    case Publishing(u, w) =>
      s.(current := w, pubs := s.pubs + [u], holds := s.holds[w := |s.pubs|], writer := Unlocked)
  }

  function ReaderStepOf(s: State): State
    requires Shaped(s)
  {
    match s.audio
    case Idle => s.(audio := Looking(|s.pubs| - 1))
    case Looking(since) => s.(audio := Loaded(s.current, |s.pubs| - 1, since))
    case Loaded(idx, at, since) => s.(reader := idx, audio := Announced(idx, at, since))
    case Announced(idx, at, since) =>
      if idx != s.current then s.(audio := Looking(since))
      else s.(audio := Pinned(idx, s.holds[idx], since))
    case Pinned(idx, ver, since) =>
      if s.chains[idx].active then s.(audio := Running(idx, ver, 0, [], since))
      else s.(audio := Leaving(Bypassed, ver, since))
    case Running(idx, ver, i, ran, since) =>
      if i < s.chains[idx].length then
        var p := s.chains[idx].processors[i];
        s.(audio := Running(idx, ver, i + 1, if p.Some? then ran + [p.value] else ran, since))
      else
        s.(audio := Leaving(Executed(ran, s.chains[idx].gain), ver, since))
    case Leaving(effect, ver, since) =>
      s.(reader := -1, seen := s.seen + [Seen(effect, ver, since)], audio := Idle)
  }

  /** Indices are in range, so that every step is defined. */
  ghost predicate Shaped(s: State) {
    && ShapedSlots(s.chains) && ShapedHistory(s.holds, s.pubs) && ShapedWriter(s.writer) && ShapedReader(s.audio)
    && 0 <= s.current < SLOTS && -1 <= s.reader < SLOTS
  }

  ghost predicate ShapedSlots(chains: seq<Chain>) {
    |chains| == SLOTS && forall k :: 0 <= k < SLOTS ==> |chains[k].processors| == MAX_PROCESSORS && chains[k].length <= MAX_PROCESSORS
  }

  ghost predicate ShapedHistory(holds: seq<nat>, pubs: seq<Update>) {
    |holds| == SLOTS && |pubs| > 0 && forall k :: 0 <= k < SLOTS ==> holds[k] < |pubs|
  }

  ghost predicate ShapedWriter(w: Writer) {
    && (w.Clearing? || w.Filling? || w.SettingActive? || w.Publishing? ==> 0 <= w.slot < SLOTS)
    && (w.KnowsCurrent? ==> 0 <= w.cur < SLOTS)
    && (!w.Unlocked? ==> Acceptable(w.u))
  }

  ghost predicate ShapedReader(r: Reader) {
    r.Loaded? || r.Announced? || r.Pinned? || r.Running? ==> 0 <= r.idx < SLOTS
  }

  ghost function Step(s: State, a: Action): State {
    if !Shaped(s) then s
    else
      match a
      case Submit(u) => SubmitStep(s, u)
      case WriterStep => WriterStepOf(s)
      case ReaderStep => ReaderStepOf(s)
  }

  // ---------- The invariant ----------

  /** Slot content c is exactly the published update u. */
  ghost predicate Faithful(c: Chain, u: Update) {
    && c.length == |u.processors| && Filled(c.processors, u.processors)
    && c.gain == u.gain && c.active == u.active
  }

  /** How far the writer has come with the slot it owns. */
  ghost predicate Progress(w: Writer, chains: seq<Chain>, current: int)
    requires ShapedSlots(chains) && ShapedWriter(w)
  {
    match w
    case Unlocked => true
    case Locked(u) => true
    case KnowsCurrent(u, cur) => cur == current
    case Clearing(u, k, i) =>
      i <= MAX_PROCESSORS && AllNone(chains[k].processors[..i])
    case Filling(u, k, i) =>
      i <= |u.processors| && chains[k].length == |u.processors| && Filled(chains[k].processors, u.processors[..i])
    case SettingActive(u, k) => Faithful(chains[k].(active := u.active), u)
    case Publishing(u, k) => Faithful(chains[k], u)
  }

  ghost predicate AllNone(ps: seq<Option<Processor>>) {
    forall k :: 0 <= k < |ps| ==> ps[k] == None
  }

  /** The first entries are the given processors, the rest is empty. */
  ghost predicate Filled(ps: seq<Option<Processor>>, processors: seq<Processor>) {
    && |processors| <= |ps|
    && forall k :: 0 <= k < |ps| ==> ps[k] == if k < |processors| then Some(processors[k]) else None
  }

  /** The writer's slot is neither the published one nor one the reader executes, and a reader
      that is about to validate or execute a slot has announced it. */
  ghost predicate Disjoint(w: Writer, r: Reader, current: int, reader: int) {
    && (w.Target() != -1 ==> w.Target() != current && w.Target() != r.Executing())
    && (r.Pinned? || r.Running? || r.Announced? ==> reader == r.idx)
  }

  /** Every slot the writer does not own holds exactly the publication recorded for it, and the
      published slot holds the newest one. */
  ghost predicate Recorded(chains: seq<Chain>, holds: seq<nat>, pubs: seq<Update>, target: int, current: int)
    requires ShapedSlots(chains) && ShapedHistory(holds, pubs) && 0 <= current < SLOTS
  {
    && (forall k :: 0 <= k < SLOTS && k != target ==> Faithful(chains[k], pubs[holds[k]]))
    && holds[current] == |pubs| - 1
  }

  function LastSeen(seen: seq<Seen>): nat {
    if seen == [] then 0 else seen[|seen| - 1].ver
  }

  /** What the reader has in hand agrees with one publication, no older than any it used before. */
  ghost predicate ReaderView(r: Reader, holds: seq<nat>, pubs: seq<Update>, current: int, last: nat)
    requires ShapedReader(r) && ShapedHistory(holds, pubs)
  {
    && last < |pubs|
    && match r
       case Idle => true
       case Looking(since) => last <= since < |pubs|
       case Loaded(idx, at, since) => last <= since <= at < |pubs| && (at == |pubs| - 1 ==> idx == current)
       case Announced(idx, at, since) => last <= since <= at < |pubs| && (at == |pubs| - 1 ==> idx == current)
       case Pinned(idx, ver, since) => last <= since <= ver == holds[idx]
       case Running(idx, ver, i, ran, since) =>
         last <= since <= ver == holds[idx] && pubs[ver].active
         && i <= |pubs[ver].processors| && ran == pubs[ver].processors[..i]
       case Leaving(effect, ver, since) =>
         last <= since <= ver < |pubs| && effect == EffectOf(pubs[ver])
  }

  /** The blocks finished so far. */
  ghost predicate Linear(seen: seq<Seen>, pubs: seq<Update>) {
    && (forall i :: 0 <= i < |seen| ==> seen[i].since <= seen[i].ver < |pubs| && seen[i].effect == EffectOf(pubs[seen[i].ver]))
    && (forall i, j :: 0 <= i < j < |seen| ==> seen[i].ver <= seen[j].since)
  }

  /** How often p occurs in a slot. */
  function Held(vs: seq<Option<Processor>>, p: Processor): nat {
    if vs == [] then 0 else Held(vs[..|vs| - 1], p) + Is(vs[|vs| - 1], p)
  }

  function Is(v: Option<Processor>, p: Processor): nat {
    if v == Some(p) then 1 else 0
  }

  function InSlots(chains: seq<Chain>, p: Processor): nat
    requires |chains| == SLOTS
  {
    Held(chains[0].processors, p) + Held(chains[1].processors, p) + Held(chains[2].processors, p)
  }

  /** Processors the writer still carries in its argument vector. */
  function Pending(w: Writer): seq<Processor> {
    match w
    case Locked(u) => u.processors
    case KnowsCurrent(u, _) => u.processors
    case Clearing(u, _, _) => u.processors
    case Filling(u, _, i) => if i <= |u.processors| then u.processors[i..] else []
    case _ => []
  }

  /** How often p exists, over every place a processor can be. */
  function Copies(chains: seq<Chain>, w: Writer, destroyed: seq<Processor>, p: Processor): nat
    requires |chains| == SLOTS
  {
    InSlots(chains, p) + multiset(Pending(w))[p] + multiset(destroyed)[p]
  }

  /** Every processor handed in is in one slot, in the writer's hands or destroyed, exactly as
      often as it was handed in. */
  ghost predicate Conserved(s: State)
    requires |s.chains| == SLOTS
  {
    forall p :: multiset(s.handed)[p] == Copies(s.chains, s.writer, s.destroyed, p)
  }

  ghost predicate Inv(s: State) {
    && Shaped(s)
    && Progress(s.writer, s.chains, s.current)
    && Disjoint(s.writer, s.audio, s.current, s.reader)
    && Recorded(s.chains, s.holds, s.pubs, s.writer.Target(), s.current)
    && ReaderView(s.audio, s.holds, s.pubs, s.current, LastSeen(s.seen))
    && Linear(s.seen, s.pubs)
    && Conserved(s)
  }

  // ---------- Conservation ----------

  lemma {:induction false} HeldPut(vs: seq<Option<Processor>>, i: nat, v: Option<Processor>, p: Processor)
    requires i < |vs|
    ensures Held(vs[i := v], p) + Is(vs[i], p) == Held(vs, p) + Is(v, p)
  {
    var n := |vs| - 1;
    if i == n {
      assert vs[i := v][..n] == vs[..n];
    } else {
      HeldPut(vs[..n], i, v, p);
      assert vs[i := v][..n] == vs[..n][i := v];
    }
  }

  lemma {:induction false} HeldNone(vs: seq<Option<Processor>>, p: Processor)
    requires forall k :: 0 <= k < |vs| ==> vs[k] == None
    ensures Held(vs, p) == 0
  {
    if vs != [] {
      HeldNone(vs[..|vs| - 1], p);
    }
  }

  /** Writing entry i of slot k swaps the old entry for the new one. */
  lemma PutConserves(chains: seq<Chain>, k: nat, i: nat, v: Option<Processor>, p: Processor)
    requires k < |chains| == SLOTS && i < |chains[k].processors|
    ensures InSlots(chains[k := PutProcessor(chains[k], i, v)], p) + Is(chains[k].processors[i], p)
            == InSlots(chains, p) + Is(v, p)
  {
    HeldPut(chains[k].processors, i, v, p);
  }

  /** Writing the other fields of slot k moves no processor. */
  lemma FieldsConserve(chains: seq<Chain>, k: nat, c: Chain, p: Processor)
    requires k < |chains| == SLOTS && c.processors == chains[k].processors
    ensures InSlots(chains[k := c], p) == InSlots(chains, p)
  {
  }

  lemma ClearConserves(s: State, p: Processor)
    requires Shaped(s) && s.writer.Clearing?
    ensures var t := WriterStepOf(s);
      |t.chains| == SLOTS && Copies(t.chains, t.writer, t.destroyed, p) == Copies(s.chains, s.writer, s.destroyed, p)
  {
    var Clearing(u, k, i) := s.writer;
    if i < MAX_PROCESSORS {
      var v := s.chains[k].processors[i];
      PutConserves(s.chains, k, i, None, p);
    } else {
      assert u.processors[0..] == u.processors;
      FieldsConserve(s.chains, k, s.chains[k].(length := |u.processors|), p);
    }
  }

  lemma CountFirst(ps: seq<Processor>, p: Processor)
    requires ps != []
    ensures multiset(ps)[p] == Is(Some(ps[0]), p) + multiset(ps[1..])[p]
  {
    assert ps == [ps[0]] + ps[1..];
  }

  lemma FillConserves(s: State, p: Processor)
    requires Shaped(s) && s.writer.Filling? && s.writer.i <= |s.writer.u.processors|
    requires Filled(s.chains[s.writer.slot].processors, s.writer.u.processors[..s.writer.i])
    ensures var t := WriterStepOf(s);
      |t.chains| == SLOTS && Copies(t.chains, t.writer, t.destroyed, p) == Copies(s.chains, s.writer, s.destroyed, p)
  {
    var Filling(u, k, i) := s.writer;
    if i < |u.processors| {
      var rest := u.processors[i..];
      assert rest[0] == u.processors[i] && rest[1..] == u.processors[i + 1..];
      assert Is(s.chains[k].processors[i], p) == 0;
      PutConserves(s.chains, k, i, Some(rest[0]), p);
      CountFirst(rest, p);
    } else {
      FieldsConserve(s.chains, k, s.chains[k].(gain := u.gain), p);
    }
  }

  lemma ActivateConserves(s: State, p: Processor)
    requires Shaped(s) && s.writer.SettingActive?
    ensures var t := WriterStepOf(s);
      |t.chains| == SLOTS && Copies(t.chains, t.writer, t.destroyed, p) == Copies(s.chains, s.writer, s.destroyed, p)
  {
    var SettingActive(u, k) := s.writer;
    FieldsConserve(s.chains, k, s.chains[k].(active := u.active), p);
  }

  lemma SubmitConserves(s: State, u: Update)
    requires Shaped(s) && Conserved(s)
    ensures var t := SubmitStep(s, u); |t.chains| == SLOTS && Conserved(t)
  {
    var t := SubmitStep(s, u);
    assert forall p :: multiset(t.handed)[p] == Copies(t.chains, t.writer, t.destroyed, p);
  }

  lemma WriterConserves(s: State)
    requires Shaped(s) && Conserved(s) && Progress(s.writer, s.chains, s.current)
    ensures var t := WriterStepOf(s); |t.chains| == SLOTS && Conserved(t)
  {
    var t := WriterStepOf(s);
    assert t.handed == s.handed;
    forall p ensures |t.chains| == SLOTS && Copies(t.chains, t.writer, t.destroyed, p) == Copies(s.chains, s.writer, s.destroyed, p) {
      if s.writer.Clearing? {
        ClearConserves(s, p);
      } else if s.writer.Filling? {
        FillConserves(s, p);
      } else if s.writer.SettingActive? {
        ActivateConserves(s, p);
      }
    }
  }

  // ---------- Preservation ----------

  lemma FreeSlotIsFree(current: int, reader: int)
    requires 0 <= current < SLOTS && -1 <= reader < SLOTS
    ensures 0 <= FreeSlot(current, reader, 0) < SLOTS
    ensures FreeSlot(current, reader, 0) != current && FreeSlot(current, reader, 0) != reader
    ensures FreeSlot(current, reader, 0) == 2 <==> {current, reader} == {0, 1}
  {
    var a := FreeSlot(current, reader, 0);
    var b := FreeSlot(current, reader, 1);
    var c := FreeSlot(current, reader, 2);
    assert 0 in {current, reader} <==> current == 0 || reader == 0;
    assert 1 in {current, reader} <==> current == 1 || reader == 1;
  }

  lemma WriterKeepsProgress(s: State)
    requires Shaped(s) && Progress(s.writer, s.chains, s.current)
    ensures var t := WriterStepOf(s); Shaped(t) && Progress(t.writer, t.chains, t.current)
  {
    match s.writer
    case KnowsCurrent(u, cur) =>
      FreeSlotIsFree(cur, s.reader);
    case Clearing(u, k, i) =>
      ClearingProgress(s.chains[k], i);
    case Filling(u, k, i) =>
      FillingProgress(s.chains[k], u, i);
    case _ =>
  }

  lemma ClearingProgress(c: Chain, i: nat)
    requires i <= |c.processors| == MAX_PROCESSORS && AllNone(c.processors[..i])
    ensures i < MAX_PROCESSORS ==> AllNone(PutProcessor(c, i, None).processors[..i + 1])
    ensures i == MAX_PROCESSORS ==> Filled(c.processors, [])
  {
    if i == MAX_PROCESSORS {
      assert c.processors[..i] == c.processors;
    }
  }

  lemma FillingProgress(c: Chain, u: Update, i: nat)
    requires i <= |u.processors| <= MAX_PROCESSORS == |c.processors|
    requires Filled(c.processors, u.processors[..i]) && c.length == |u.processors|
    ensures i < |u.processors| ==> Filled(PutProcessor(c, i, Some(u.processors[i])).processors, u.processors[..i + 1])
    ensures i == |u.processors| ==> Faithful(c.(gain := u.gain, active := u.active), u)
  {
    if i == |u.processors| {
      assert u.processors[..i] == u.processors;
    }
  }

  lemma WriterKeepsDisjoint(s: State)
    requires Shaped(s) && Shaped(WriterStepOf(s))
    requires Progress(s.writer, s.chains, s.current) && Disjoint(s.writer, s.audio, s.current, s.reader)
    ensures var t := WriterStepOf(s); Disjoint(t.writer, t.audio, t.current, t.reader)
  {
    if s.writer.KnowsCurrent? {
      FreeSlotIsFree(s.writer.cur, s.reader);
    }
  }

  lemma WriterKeepsRecorded(s: State)
    requires Shaped(s) && Shaped(WriterStepOf(s)) && Progress(s.writer, s.chains, s.current)
    requires Recorded(s.chains, s.holds, s.pubs, s.writer.Target(), s.current)
    requires Disjoint(s.writer, s.audio, s.current, s.reader)
    ensures var t := WriterStepOf(s); Recorded(t.chains, t.holds, t.pubs, t.writer.Target(), t.current)
  {
    var t := WriterStepOf(s);
    forall k | 0 <= k < SLOTS && k != t.writer.Target()
      ensures Faithful(t.chains[k], t.pubs[t.holds[k]])
    {
      if k != s.writer.Target() {
        assert Faithful(s.chains[k], s.pubs[s.holds[k]]);
      }
    }
  }

  lemma WriterKeepsView(s: State)
    requires Shaped(s) && Shaped(WriterStepOf(s))
    requires Disjoint(s.writer, s.audio, s.current, s.reader)
    requires ReaderView(s.audio, s.holds, s.pubs, s.current, LastSeen(s.seen)) && Linear(s.seen, s.pubs)
    ensures var t := WriterStepOf(s);
      && ReaderView(t.audio, t.holds, t.pubs, t.current, LastSeen(t.seen)) && Linear(t.seen, t.pubs)
  {
  }

  lemma ReaderKeepsView(s: State)
    requires Shaped(s)
    requires Recorded(s.chains, s.holds, s.pubs, s.writer.Target(), s.current)
    requires Disjoint(s.writer, s.audio, s.current, s.reader)
    requires ReaderView(s.audio, s.holds, s.pubs, s.current, LastSeen(s.seen))
    ensures var t := ReaderStepOf(s);
      && Shaped(t)
      && ReaderView(t.audio, t.holds, t.pubs, t.current, LastSeen(t.seen))
      && Disjoint(t.writer, t.audio, t.current, t.reader)
  {
    match s.audio
    case Pinned(idx, ver, since) =>
      assert Faithful(s.chains[idx], s.pubs[ver]);
    case Running(idx, ver, i, ran, since) =>
      assert Faithful(s.chains[idx], s.pubs[ver]);
      RanNext(s.chains[idx], s.pubs[ver], i, ran);
    case _ =>
  }

  /** What a chain that is being run did so far, one processor further or at its end. */
  lemma RanNext(c: Chain, u: Update, i: nat, ran: seq<Processor>)
    requires Faithful(c, u) && i <= |u.processors| && ran == u.processors[..i]
    ensures i < c.length ==> c.processors[i].Some? && ran + [c.processors[i].value] == u.processors[..i + 1]
    ensures i >= c.length ==> ran == u.processors && c.gain == u.gain && i == |u.processors|
  {
    if i < |u.processors| {
      assert u.processors[..i + 1] == u.processors[..i] + [u.processors[i]];
    }
  }

  lemma ReaderKeepsLinear(s: State)
    requires Shaped(s) && Linear(s.seen, s.pubs)
    requires ReaderView(s.audio, s.holds, s.pubs, s.current, LastSeen(s.seen))
    ensures Linear(ReaderStepOf(s).seen, s.pubs)
  {
    var t := ReaderStepOf(s);
    if s.audio.Leaving? {
      forall i, j | 0 <= i < j < |t.seen| ensures t.seen[i].ver <= t.seen[j].since {
        if j == |s.seen| && i < j - 1 {
          assert s.seen[i].ver <= s.seen[j - 1].since;
        }
      }
    }
  }

  lemma WriterKeepsInv(s: State)
    requires Inv(s)
    ensures Inv(WriterStepOf(s))
  {
    WriterConserves(s);
    WriterKeepsProgress(s);
    WriterKeepsDisjoint(s);
    WriterKeepsRecorded(s);
    WriterKeepsView(s);
  }

  /** A reader step writes only the reader's own announcement and history. */
  lemma ReaderFrame(s: State)
    requires Shaped(s)
    ensures var t := ReaderStepOf(s);
      t.chains == s.chains && t.current == s.current && t.writer == s.writer && t.pubs == s.pubs && t.holds == s.holds
      && t.handed == s.handed && t.destroyed == s.destroyed
  {
  }

  lemma ReaderKeepsInv(s: State)
    requires Inv(s)
    ensures Inv(ReaderStepOf(s))
  {
    ReaderFrame(s);
    ReaderKeepsView(s);
    ReaderKeepsLinear(s);
  }

  lemma InvStep(s: State, a: Action)
    requires Inv(s)
    ensures Inv(Step(s, a))
  {
    match a
    case Submit(u) => SubmitConserves(s, u);
    case WriterStep => WriterKeepsInv(s);
    case ReaderStep => ReaderKeepsInv(s);
  }

  lemma InvInitial()
    ensures Inv(Initial())
  {
    var s := Initial();
    forall p ensures Copies(s.chains, s.writer, s.destroyed, p) == 0 { HeldNone(Empty().processors, p); }
  }

  /** The state that a schedule leads to. */
  ghost function Exec(s: State, schedule: seq<Action>): State {
    if schedule == [] then s
    else Step(Exec(s, schedule[..|schedule| - 1]), schedule[|schedule| - 1])
  }

  lemma {:induction false} ExecKeepsInv(s: State, schedule: seq<Action>)
    requires Inv(s)
    ensures Inv(Exec(s, schedule))
  {
    if schedule != [] {
      ExecKeepsInv(s, schedule[..|schedule| - 1]);
      InvStep(Exec(s, schedule[..|schedule| - 1]), schedule[|schedule| - 1]);
    }
  }

  /** All interleavings, from the beginning. */
  ghost function After(schedule: seq<Action>): State {
    Exec(Initial(), schedule)
  }

  lemma AfterInv(schedule: seq<Action>)
    ensures Inv(After(schedule))
  {
    InvInitial();
    ExecKeepsInv(Initial(), schedule);
  }

  // ---------- Results ----------

  /** Under every interleaving, the slot being cleared or filled is neither the published slot
      nor the slot the reader executes, and a slot to write always exists. */
  lemma SlotSafety(schedule: seq<Action>)
    ensures var s := After(schedule);
      && (s.writer.Target() != -1 ==>
            0 <= s.writer.Target() < SLOTS && s.writer.Target() != s.current && s.writer.Target() != s.audio.Executing())
      && (s.writer.KnowsCurrent? ==>
            0 <= FreeSlot(s.writer.cur, s.reader, 0) < SLOTS
            && FreeSlot(s.writer.cur, s.reader, 0) != s.current && FreeSlot(s.writer.cur, s.reader, 0) != s.audio.Executing())
  {
    AfterInv(schedule);
    var s := After(schedule);
    assert Progress(s.writer, s.chains, s.current) && Disjoint(s.writer, s.audio, s.current, s.reader);
    if s.writer.KnowsCurrent? {
      FreeSlotIsFree(s.writer.cur, s.reader);
    }
  }

  /** Under every interleaving, the published slot is complete, and the slot the reader executes
      stays exactly the update it validated. */
  lemma PublishedIsWhole(schedule: seq<Action>)
    ensures var s := After(schedule);
      && 0 <= s.current < |s.chains| && s.pubs != [] && Faithful(s.chains[s.current], s.pubs[|s.pubs| - 1])
      && (s.audio.Running? ==>
            0 <= s.audio.idx < |s.chains| && s.audio.ver < |s.pubs| && Faithful(s.chains[s.audio.idx], s.pubs[s.audio.ver]))
  {
    AfterInv(schedule);
    var s := After(schedule);
    assert Recorded(s.chains, s.holds, s.pubs, s.writer.Target(), s.current);
    assert ReaderView(s.audio, s.holds, s.pubs, s.current, LastSeen(s.seen));
  }

  /** Publication is linearizable: every block did exactly what one published update says, with
      its whole chain, gain and bypass flag; that update was the newest at some moment between the
      block's arrival at the route and its end; and no block uses an older update than a block
      before it. */
  lemma Linearizable(schedule: seq<Action>, i: nat)
    requires i < |After(schedule).seen|
    ensures var s := After(schedule); var b := s.seen[i];
      && b.since <= b.ver < |s.pubs|
      && b.effect == (if s.pubs[b.ver].active then Executed(s.pubs[b.ver].processors, s.pubs[b.ver].gain) else Bypassed)
      && (i > 0 ==> s.seen[i - 1].ver <= b.since)
  {
    AfterInv(schedule);
    var s := After(schedule);
    assert Linear(s.seen, s.pubs);
  }

  /** The history of publications and of destroyed processors only grows, and only a writer
      destroys: a reader step leaves every slot and the list of destroyed processors alone. */
  lemma OnlyWritersDestroy(schedule: seq<Action>, a: Action)
    ensures var s := After(schedule); var t := After(schedule + [a]);
      && s.pubs <= t.pubs && s.destroyed <= t.destroyed && s.handed <= t.handed && s.seen <= t.seen
      && (a.ReaderStep? ==> t.destroyed == s.destroyed && t.chains == s.chains)
  {
    AfterInv(schedule);
    ExecLast(Initial(), schedule, a);
    StepGrows(After(schedule), a);
  }

  lemma StepGrows(s: State, a: Action)
    requires Shaped(s)
    ensures var t := Step(s, a);
      && s.pubs <= t.pubs && s.destroyed <= t.destroyed && s.handed <= t.handed && s.seen <= t.seen
      && (a.ReaderStep? ==> t.destroyed == s.destroyed && t.chains == s.chains)
  {
  }

  /** A processor handed in once is afterwards in exactly one place: in one slot, still with the
      writer, or destroyed once. */
  lemma ProcessorsConserved(schedule: seq<Action>, p: Processor)
    ensures var s := After(schedule);
      |s.chains| == SLOTS
      && multiset(s.handed)[p] == InSlots(s.chains, p) + multiset(Pending(s.writer))[p] + multiset(s.destroyed)[p]
  {
    AfterInv(schedule);
    var s := After(schedule);
    assert Copies(s.chains, s.writer, s.destroyed, p) == multiset(s.handed)[p];
  }

  /** The reader's loop is lock-free: it repeats only when a writer published since its last load. */
  lemma RetryMeansProgress(schedule: seq<Action>)
    requires var s := After(schedule); s.audio.Announced? && s.audio.idx != s.current
    ensures var s := After(schedule); s.audio.at < |s.pubs| - 1
  {
    AfterInv(schedule);
    var s := After(schedule);
    assert ReaderView(s.audio, s.holds, s.pubs, s.current, LastSeen(s.seen));
  }

  // ---------- Progress of the writer ----------

  /** The writer's own steps until it releases the mutex. */
  function Work(w: Writer): nat {
    match w
    case Unlocked => 0
    case Locked(u) => 2 * MAX_PROCESSORS + 6
    case KnowsCurrent(u, _) => 2 * MAX_PROCESSORS + 5
    case Clearing(u, _, i) => if i <= MAX_PROCESSORS then 2 * MAX_PROCESSORS + 4 - i else 0
    case Filling(u, _, i) => if i <= MAX_PROCESSORS then MAX_PROCESSORS + 3 - i else 0
    case SettingActive(u, _) => 2
    case Publishing(u, _) => 1
  }

  /** Where the update in progress will go. */
  function Destination(s: State): int
    requires Shaped(s)
  {
    if s.writer.Target() != -1 then s.writer.Target() else FreeSlot(s.current, s.reader, 0)
  }

  lemma WriterAdvances(s: State)
    requires Inv(s) && !s.writer.Unlocked?
    ensures var t := WriterStepOf(s);
      && Work(t.writer) < Work(s.writer)
      && t.audio == s.audio && t.reader == s.reader
      && (t.writer.Unlocked? ==> t.current == Destination(s) && t.pubs == s.pubs + [s.writer.u])
      && (!t.writer.Unlocked? ==> t.writer.u == s.writer.u && t.pubs == s.pubs && t.current == s.current)
  {
  }

  lemma WriterTouchesTarget(s: State)
    requires Inv(s) && !s.writer.Unlocked? && Shaped(WriterStepOf(s))
    ensures var t := WriterStepOf(s);
      && (!t.writer.Unlocked? ==> Destination(t) == Destination(s))
      && (forall k :: 0 <= k < SLOTS && k != Destination(s) ==> t.chains[k] == s.chains[k])
  {
  }

  /** r is a state in which the update in progress in s has been published, and nothing else has
      changed. */
  ghost predicate Completes(s: State, r: State)
    requires Shaped(s) && !s.writer.Unlocked?
  {
    && Inv(r) && r.writer == Unlocked && r.pubs == s.pubs + [s.writer.u]
    && r.current == Destination(s) && r.audio == s.audio && r.reader == s.reader
    && forall k :: 0 <= k < SLOTS && k != r.current ==> r.chains[k] == s.chains[k]
  }

  lemma CompletesEarlier(s: State, r: State)
    requires Inv(s) && !s.writer.Unlocked? && Shaped(WriterStepOf(s))
    requires var t := WriterStepOf(s); if t.writer.Unlocked? then r == t && Inv(t) else Completes(t, r)
    ensures Completes(s, r)
  {
    WriterAdvances(s);
    WriterTouchesTarget(s);
  }

  /** An update never waits for the reader: from wherever it is, a bounded number of the
      writer's own steps publishes it, whatever the reader holds, and changes no other slot. */
  lemma {:induction false} UpdateCompletes(s: State) returns (steps: seq<Action>)
    requires Inv(s) && !s.writer.Unlocked?
    ensures |steps| <= Work(s.writer) && forall i :: 0 <= i < |steps| ==> steps[i] == WriterStep
    ensures Completes(s, Exec(s, steps))
    decreases Work(s.writer)
  {
    WriterKeepsInv(s);
    WriterAdvances(s);
    var t := WriterStepOf(s);
    if t.writer.Unlocked? {
      steps := [WriterStep];
      ExecLast(s, [], WriterStep);
      assert [] + [WriterStep] == [WriterStep];
    } else {
      var rest := UpdateCompletes(t);
      steps := [WriterStep] + rest;
      ExecHead(s, WriterStep, rest);
    }
    CompletesEarlier(s, Exec(s, steps));
  }

  lemma ExecLast(s: State, schedule: seq<Action>, a: Action)
    ensures Exec(s, schedule + [a]) == Step(Exec(s, schedule), a)
  {
    assert (schedule + [a])[..|schedule|] == schedule;
  }

  lemma {:induction false} ExecAppend(s: State, first: seq<Action>, second: seq<Action>)
    ensures Exec(s, first + second) == Exec(Exec(s, first), second)
  {
    if second == [] {
      assert first + second == first;
    } else {
      var n := |second| - 1;
      var init, last := second[..n], second[n];
      assert second == init + [last] && first + second == (first + init) + [last];
      ExecAppend(s, first, init);
      ExecLast(s, first + init, last);
      ExecLast(Exec(s, first), init, last);
    }
  }

  lemma ExecHead(s: State, a: Action, rest: seq<Action>)
    ensures Exec(s, [a] + rest) == Exec(Step(s, a), rest)
  {
    assert [] + [a] == [a];
    ExecLast(s, [], a);
    ExecAppend(s, [a], rest);
  }

  /** A slot holds exactly what u asks for. */
  ghost predicate Holds(c: Chain, u: Update) {
    && c.length == |u.processors| <= |c.processors| && c.gain == u.gain && c.active == u.active
    && forall k :: 0 <= k < |c.processors| ==>
         c.processors[k] == if k < |u.processors| then Some(u.processors[k]) else None
  }

  lemma NewestHolds(s: State)
    requires Inv(s) && s.writer == Unlocked
    ensures Holds(s.chains[s.current], s.pubs[|s.pubs| - 1])
  {
    assert Recorded(s.chains, s.holds, s.pubs, s.writer.Target(), s.current);
    assert Faithful(s.chains[s.current], s.pubs[s.holds[s.current]]);
  }

  /** With the mutex free, an update of at most 16 processors and a gain between 0 and 8 is
      published by the writer's own steps, whatever the reader holds. Any other leaves the slots,
      the reader and the publications as they are, and its processors are destroyed. */
  lemma UpdateIsPublishedIff(s: State, u: Update) returns (steps: seq<Action>)
    requires Inv(s) && s.writer == Unlocked
    ensures steps != [] && steps[0] == Submit(u) && forall i :: 0 < i < |steps| ==> steps[i] == WriterStep
    ensures var t := Exec(s, steps);
      if |u.processors| <= 16 && 0.0 <= u.gain <= 8.0 then
        && Inv(t) && t.writer == Unlocked && t.pubs == s.pubs + [u] && t.audio == s.audio && t.reader == s.reader
        && t.current != s.current && t.current != s.reader && Holds(t.chains[t.current], u)
        && forall k :: 0 <= k < 3 && k != t.current ==> t.chains[k] == s.chains[k]
      else
        t == s.(handed := s.handed + u.processors, destroyed := s.destroyed + u.processors)
  {
    var t := Step(s, Submit(u));
    InvStep(s, Submit(u));
    ExecHead(s, Submit(u), []);
    if |u.processors| <= 16 && 0.0 <= u.gain <= 8.0 {
      FreeSlotIsFree(s.current, s.reader);
      var rest := UpdateCompletes(t);
      steps := [Submit(u)] + rest;
      ExecHead(s, Submit(u), rest);
      NewestHolds(Exec(s, steps));
    } else {
      steps := [Submit(u)];
      assert [Submit(u)] + [] == [Submit(u)];
    }
  }

  // ---------- Progress of the reader ----------

  /** The reader's own steps until its block is over, when no writer publishes. */
  function Left(r: Reader, current: int): nat {
    match r
    case Idle => 0
    case Loaded(idx, _, _) => if idx == current then MAX_PROCESSORS + 6 else MAX_PROCESSORS + 9
    case Announced(idx, _, _) => if idx == current then MAX_PROCESSORS + 5 else MAX_PROCESSORS + 8
    case Looking(_) => MAX_PROCESSORS + 7
    case Pinned(_, _, _) => MAX_PROCESSORS + 4
    case Running(_, _, i, _, _) => if i <= MAX_PROCESSORS then MAX_PROCESSORS + 3 - i else 2
    case Leaving(_, _, _) => 1
  }

  /** The publication a block in progress will have used if no writer publishes any more. */
  function WillUse(r: Reader, newest: nat): nat {
    if r.Pinned? || r.Running? || r.Leaving? then r.ver else newest
  }

  lemma ReaderAdvances(s: State)
    requires Inv(s) && !s.audio.Idle?
    ensures var t := ReaderStepOf(s);
      && Left(t.audio, t.current) < Left(s.audio, s.current)
      && (!t.audio.Idle? ==> t.seen == s.seen && WillUse(t.audio, |s.pubs| - 1) == WillUse(s.audio, |s.pubs| - 1))
      && (t.audio.Idle? ==>
            && t.reader == -1 && |t.seen| == |s.seen| + 1 && s.seen == t.seen[..|s.seen|]
            && t.seen[|s.seen|].ver == WillUse(s.audio, |s.pubs| - 1))
  {
    assert Recorded(s.chains, s.holds, s.pubs, s.writer.Target(), s.current);
    assert ReaderView(s.audio, s.holds, s.pubs, s.current, LastSeen(s.seen));
  }

  /** Everything but the reader's own announcement and history is the same. */
  ghost predicate SameShared(s: State, t: State) {
    && t.chains == s.chains && t.current == s.current && t.writer == s.writer && t.pubs == s.pubs
    && t.holds == s.holds && t.handed == s.handed && t.destroyed == s.destroyed
  }

  /** In t the block in progress in s is over, having used publication ver, and nothing else has
      changed. */
  ghost predicate BlockOver(s: State, t: State, ver: nat) {
    && Inv(t) && t.audio == Idle && t.reader == -1 && SameShared(s, t)
    && |t.seen| == |s.seen| + 1 && s.seen == t.seen[..|s.seen|] && t.seen[|s.seen|].ver == ver
  }

  /** A block never waits for a writer: from wherever it is, its own steps finish it. */
  lemma {:induction false} BlockFinishes(s: State) returns (steps: seq<Action>)
    requires Inv(s) && !s.audio.Idle?
    ensures |steps| <= Left(s.audio, s.current) && forall i :: 0 <= i < |steps| ==> steps[i] == ReaderStep
    ensures BlockOver(s, Exec(s, steps), WillUse(s.audio, |s.pubs| - 1))
    decreases Left(s.audio, s.current)
  {
    ReaderKeepsInv(s);
    ReaderFrame(s);
    ReaderAdvances(s);
    var t := ReaderStepOf(s);
    if t.audio.Idle? {
      steps := [ReaderStep];
      ExecHead(s, ReaderStep, []);
      assert [ReaderStep] + [] == [ReaderStep];
    } else {
      var rest := BlockFinishes(t);
      steps := [ReaderStep] + rest;
      ExecHead(s, ReaderStep, rest);
    }
  }

  lemma BlockStarts(s: State) returns (t: State)
    requires Inv(s) && s.audio == Idle
    ensures t == Step(s, ReaderStep) && Inv(t) && SameShared(s, t) && t.seen == s.seen && t.audio.Looking?
  {
    ReaderKeepsInv(s);
    t := ReaderStepOf(s);
  }

  /** In t one more block is over, which did what the newest publication asks for. */
  ghost predicate HeardNewest(s: State, t: State)
    requires s.pubs != []
  {
    var u := s.pubs[|s.pubs| - 1];
    && BlockOver(s, t, |s.pubs| - 1)
    && t.seen[|s.seen|].effect == if u.active then Executed(u.processors, u.gain) else Bypassed
  }

  lemma BlockFromStart(s: State) returns (steps: seq<Action>)
    requires Inv(s) && s.audio.Looking?
    ensures forall i :: 0 <= i < |steps| ==> steps[i] == ReaderStep
    ensures s.pubs != [] && BlockOver(s, Exec(s, steps), |s.pubs| - 1)
  {
    steps := BlockFinishes(s);
  }

  lemma OverIsHeard(s: State, t: State, r: State, ver: nat)
    requires SameShared(s, t) && t.seen == s.seen && ver == |s.pubs| - 1 && BlockOver(t, r, ver)
    ensures HeardNewest(s, r)
  {
    assert Linear(r.seen, r.pubs);
  }

  /** The next block after a publication, with no writer in between, takes the update that was
      published last: it runs exactly those processors in order and applies that gain, or passes the
      route through when the update is inactive. */
  lemma NextBlockIsNewest(s: State) returns (steps: seq<Action>)
    requires Inv(s) && s.audio == Idle
    ensures forall i :: 0 <= i < |steps| ==> steps[i] == ReaderStep
    ensures HeardNewest(s, Exec(s, steps))
  {
    var t := BlockStarts(s);
    var rest := BlockFromStart(t);
    steps := [ReaderStep] + rest;
    ExecHead(s, ReaderStep, rest);
    OverIsHeard(s, t, Exec(t, rest), |s.pubs| - 1);
  }

  // ---------- Old processors may stay ----------

  /** Nothing is in flight, and slot 2 holds p but is not published. */
  ghost predicate Parked(s: State, p: Processor) {
    Inv(s) && s.writer == Unlocked && s.audio == Idle && s.reader == -1 && s.current in {0, 1}
    && Held(s.chains[2].processors, p) > 0
  }

  /** Without a reader in the way, an update goes to slot 0 or 1, so slot 2 stays as it is. */
  lemma UpdateKeepsParked(s: State, p: Processor, u: Update) returns (steps: seq<Action>)
    requires Parked(s, p) && Acceptable(u)
    ensures var t := Exec(s, steps); Parked(t, p) && |t.pubs| == |s.pubs| + 1
  {
    var t := Step(s, Submit(u));
    InvStep(s, Submit(u));
    FreeSlotIsFree(t.current, t.reader);
    assert t.reader !in {0, 1};
    var rest := UpdateCompletes(t);
    steps := [Submit(u)] + rest;
    ExecHead(s, Submit(u), rest);
  }

  /** So no number of further updates need ever reclaim it. */
  lemma {:induction false} ParkedForever(s: State, p: Processor, n: nat) returns (steps: seq<Action>)
    requires Parked(s, p)
    ensures var t := Exec(s, steps); Parked(t, p) && |t.pubs| == |s.pubs| + n
  {
    if n == 0 {
      steps := [];
    } else {
      var first := ParkedForever(s, p, n - 1);
      var second := UpdateKeepsParked(Exec(s, first), p, NOTHING);
      steps := first + second;
      ExecAppend(s, first, second);
    }
  }

  lemma {:induction false} HeldAt(vs: seq<Option<Processor>>, i: nat, p: Processor)
    requires i < |vs| && vs[i] == Some(p)
    ensures Held(vs, p) > 0
  {
    if i < |vs| - 1 {
      HeldAt(vs[..|vs| - 1], i, p);
    }
  }

  /** Submitting with the mutex free and letting the writer finish. */
  lemma Publish(s: State, u: Update) returns (steps: seq<Action>)
    requires Inv(s) && s.writer == Unlocked && Acceptable(u)
    ensures Inv(Exec(s, steps))
    ensures var t := Exec(s, steps);
      && t.writer == Unlocked && t.pubs == s.pubs + [u]
      && t.current == FreeSlot(s.current, s.reader, 0) && t.audio == s.audio && t.reader == s.reader
      && forall k :: 0 <= k < SLOTS && k != t.current ==> t.chains[k] == s.chains[k]
  {
    var t := Step(s, Submit(u));
    InvStep(s, Submit(u));
    var rest := UpdateCompletes(t);
    steps := [Submit(u)] + rest;
    ExecHead(s, Submit(u), rest);
  }

  lemma TwoReads(s: State)
    requires Inv(s)
    ensures Inv(ReaderStepOf(s)) && Exec(s, [ReaderStep, ReaderStep]) == ReaderStepOf(ReaderStepOf(s))
  {
    ReaderKeepsInv(s);
    ExecLast(s, [], ReaderStep);
    ExecLast(s, [ReaderStep], ReaderStep);
    assert [] + [ReaderStep] == [ReaderStep];
    assert [ReaderStep] + [ReaderStep] == [ReaderStep, ReaderStep];
  }

  lemma Unpin(s: State) returns (t: State)
    requires Inv(s) && s.audio.Pinned? && !s.chains[s.audio.idx].active
    ensures t == Exec(s, [ReaderStep, ReaderStep])
    ensures t.audio == Idle && t.reader == -1
    ensures Inv(t) && t.chains == s.chains && t.writer == s.writer && t.current == s.current
  {
    TwoReads(s);
    ReaderKeepsInv(ReaderStepOf(s));
    t := Exec(s, [ReaderStep, ReaderStep]);
  }

  /** Two updates while the reader executes slot 0 put the second one's processors in slot 2;
      one more update after the reader has left publishes elsewhere. */
  lemma Park(s0: State, p: Processor) returns (steps: seq<Action>)
    requires Inv(s0) && s0.writer == Unlocked && s0.audio.Pinned? && s0.audio.idx == 0 && s0.current == 0 && s0.reader == 0
    requires !s0.chains[0].active
    ensures Parked(Exec(s0, steps), p)
  {
    FreeSlotIsFree(0, 0);
    FreeSlotIsFree(1, 0);
    FreeSlotIsFree(2, -1);
    var first := Publish(s0, NOTHING);
    var s1 := Exec(s0, first);
    var second := Publish(s1, Update([p], 1.0, false));
    var s2 := Exec(s1, second);
    PublishedHolds(s2, p);
    var s3 := Unpin(s2);
    var third := Publish(s3, NOTHING);
    ExecAppend(s0, first, second);
    ExecAppend(s0, first + second, [ReaderStep, ReaderStep]);
    ExecAppend(s0, first + second + [ReaderStep, ReaderStep], third);
    steps := first + second + [ReaderStep, ReaderStep] + third;
  }

  lemma PublishedHolds(s: State, p: Processor)
    requires Inv(s) && s.writer == Unlocked && s.pubs[|s.pubs| - 1] == Update([p], 1.0, false)
    ensures Held(s.chains[s.current].processors, p) > 0
  {
    assert Recorded(s.chains, s.holds, s.pubs, s.writer.Target(), s.current);
    assert Faithful(s.chains[s.current], Update([p], 1.0, false));
    HeldAt(s.chains[s.current].processors, 0, p);
  }

  /** One reader that executes slot 0 during two updates is enough to park a processor in slot 2. */
  lemma ParkedReachable(p: Processor) returns (steps: seq<Action>)
    ensures Parked(After(steps), p)
  {
    InvInitial();
    var pair := [ReaderStep, ReaderStep];
    TwoReads(Initial());
    FirstPair();
    var m := Exec(Initial(), pair);
    TwoReads(m);
    SecondPair(m);
    var rest := Park(Exec(m, pair), p);
    ExecAppend(Initial(), pair, pair);
    ExecAppend(Initial(), pair + pair, rest);
    steps := pair + pair + rest;
  }

  lemma FirstPair()
    requires Shaped(Initial()) && Shaped(ReaderStepOf(Initial()))
    ensures ReaderStepOf(ReaderStepOf(Initial())) == Initial().(audio := Loaded(0, 0, 0))
  {
  }

  lemma SecondPair(m: State)
    requires Shaped(m) && Shaped(ReaderStepOf(m)) && m.audio.Loaded? && m.audio.idx == m.current
    ensures var t := ReaderStepOf(ReaderStepOf(m));
      t.audio.Pinned? && t.audio.idx == m.current && t.reader == m.current
      && t.current == m.current && t.writer == m.writer && t.chains == m.chains
  {
  }
}
