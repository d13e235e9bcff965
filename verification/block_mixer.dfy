/**
 * One audio block: the engine walks the execution order, adds each node's own input, and adds
 * every outgoing route of the node, through the route's DSP chain, to the destination buffer.
 * Buffers are interleaved with a stride of one node's width.
 */
module BlockMixer {
  import opened AudioGraph
  import opened ExecutionOrder
  import opened Limits

  /** The published DSP state of one route, as a block finds it. */
  datatype Slot<S> = Slot(processors: seq<S>, gain: real, active: bool)

  /** Publications by control threads around one route of a block: by ID, the newest that landed
      since the route before it and up to pinning the slot, and the newest that landed while the
      route was mixed. */
  datatype Landing<S> = Landing(before: map<nat, Slot<S>>, during: map<nat, Slot<S>>)

  type Process<!S> = (S, seq<real>) -> (S, seq<real>)

  ghost predicate KeepsLength<S(!new)>(process: Process<S>) {
    forall s, block {:trigger process(s, block)} :: |process(s, block).1| == |block|
  }

  // ---------- Interleaved cells ----------

  /** The cell of frame f and channel ch in a buffer of width w. */
  function Cell(w: nat, f: nat, ch: nat): nat {
    f * w + ch
  }

  /** The frame and the channel of a cell. */
  function Frame(w: nat, c: nat): nat
    requires 0 < w
  {
    c / w
  }

  function Channel(w: nat, c: nat): (ch: nat)
    requires 0 < w
    ensures ch < w
  {
    c % w
  }

  lemma {:induction false} MulMono(a: nat, b: nat, w: nat)
    requires a <= b
    ensures a * w <= b * w
  {
    if a < b {
      MulMono(a, b - 1, w);
      MulNext(b - 1, w);
    }
  }

  lemma MulNext(a: nat, w: nat)
    ensures (a + 1) * w == a * w + w
  {
  }

  lemma DivUnique(x: nat, w: nat, q: nat)
    requires q * w <= x < q * w + w
    ensures x / w == q && x % w == x - q * w
  {
    var d := x / w;
    assert x == d * w + x % w;
    if d < q {
      MulNext(d, w);
      MulMono(d + 1, q, w);
    } else if q < d {
      MulNext(q, w);
      MulMono(q + 1, d, w);
    }
  }

  lemma CellInverse(w: nat, f: nat, ch: nat)
    requires ch < w
    ensures Frame(w, Cell(w, f, ch)) == f && Channel(w, Cell(w, f, ch)) == ch
  {
    DivUnique(Cell(w, f, ch), w, f);
  }

  lemma CellBound(w: nat, frames: nat, f: nat, ch: nat)
    requires ch < w && f < frames
    ensures Cell(w, f, ch) < frames * w
  {
    MulNext(f, w);
    MulMono(f + 1, frames, w);
  }

  lemma CellCover(w: nat, frames: nat, c: nat)
    requires 0 < w && c < frames * w
    ensures Frame(w, c) < frames && Cell(w, Frame(w, c), Channel(w, c)) == c
  {
    var d := c / w;
    assert c == d * w + c % w;
    if frames <= d {
      MulMono(frames, d, w);
    }
  }

  // ---------- A route's chain ----------

  /** The first k processors of a chain, run in turn on one mono block. */
  function RunTo<S>(process: Process<S>, ps: seq<S>, block: seq<real>, k: nat): (r: (seq<S>, seq<real>))
    requires k <= |ps|
    ensures |r.0| == |ps|
  {
    if k == 0 then (ps, block)
    else
      var (qs, b) := RunTo(process, ps, block, k - 1);
      var (q, b') := process(ps[k - 1], b);
      (qs[k - 1 := q], b')
  }

  lemma {:induction false} RunKeepsLength<S(!new)>(process: Process<S>, ps: seq<S>, block: seq<real>, k: nat)
    requires KeepsLength(process) && k <= |ps|
    ensures |RunTo(process, ps, block, k).1| == |block|
  {
    if k > 0 {
      RunKeepsLength(process, ps, block, k - 1);
      var (qs, b) := RunTo(process, ps, block, k - 1);
      assert |process(ps[k - 1], b).1| == |b|;
    }
  }

  function Scaled(block: seq<real>, gain: real): (r: seq<real>)
    ensures |r| == |block|
  {
    seq(|block|, f requires 0 <= f < |block| => block[f] * gain)
  }

  /** The route's gain and the gain of its DSP together. */
  function Combined(gain: real, dspGain: real): real {
    gain * dspGain
  }

  /** What a route adds to its destination, before the sum: the tapped channel, through the chain
      when it is active, times the gains. */
  function Output<S>(process: Process<S>, slot: Slot<S>, gain: real, block: seq<real>): (r: seq<real>)
  {
    if slot.active
    then Scaled(RunTo(process, slot.processors, block, |slot.processors|).1, Combined(gain, slot.gain))
    else Scaled(block, gain)
  }

  lemma OutputActive<S>(process: Process<S>, slot: Slot<S>, gain: real, block: seq<real>, run: seq<real>)
    requires slot.active && run == RunTo(process, slot.processors, block, |slot.processors|).1
    ensures Output(process, slot, gain, block) == Scaled(run, Combined(gain, slot.gain))
  {
  }

  /** The slot after the block: only an active chain moves on. */
  function Advanced<S>(process: Process<S>, slot: Slot<S>, block: seq<real>): Slot<S> {
    if slot.active
    then slot.(processors := RunTo(process, slot.processors, block, |slot.processors|).0)
    else slot
  }

  /** One channel of an interleaved buffer. */
  function Tap(row: seq<real>, w: nat, frames: nat, ch: nat): (r: seq<real>)
    requires ch < w && frames * w <= |row|
    ensures |r| == frames
  {
    seq(frames, f requires 0 <= f < frames => CellBound(w, frames, f, ch); row[Cell(w, f, ch)])
  }

  /** Adding a mono block to one channel of an interleaved buffer. */
  function AddChannel(row: seq<real>, w: nat, ch: nat, block: seq<real>, upto: nat): (r: seq<real>)
    requires 0 < w
    ensures |r| == |row|
  {
    seq(|row|, c requires 0 <= c < |row| =>
      if Channel(w, c) == ch && Frame(w, c) < upto then row[c] + At(block, Frame(w, c)) else row[c])
  }

  lemma TapPrefix(row: seq<real>, w: nat, frames: nat, ch: nat)
    requires ch < w && frames * w <= |row|
    ensures Tap(row[..frames * w], w, frames, ch) == Tap(row, w, frames, ch)
  {
    forall f | 0 <= f < frames ensures Tap(row[..frames * w], w, frames, ch)[f] == Tap(row, w, frames, ch)[f] {
      CellBound(w, frames, f, ch);
    }
  }

  lemma AddChannelNone(row: seq<real>, w: nat, ch: nat, block: seq<real>)
    requires 0 < w
    ensures AddChannel(row, w, ch, block, 0) == row
  {
  }

  lemma CellOf(w: nat, c: nat)
    requires 0 < w
    ensures Cell(w, Frame(w, c), Channel(w, c)) == c
  {
    var d := c / w;
    assert c == d * w + c % w;
  }

  /** One more frame changes one cell. */
  lemma AddChannelNext(row: seq<real>, w: nat, ch: nat, block: seq<real>, f: nat)
    requires ch < w && Cell(w, f, ch) < |row|
    ensures var c := Cell(w, f, ch); var r := AddChannel(row, w, ch, block, f);
      r[c] == row[c] && AddChannel(row, w, ch, block, f + 1) == r[c := row[c] + At(block, f)]
  {
    var c := Cell(w, f, ch);
    var r := AddChannel(row, w, ch, block, f);
    CellInverse(w, f, ch);
    var next, want := AddChannel(row, w, ch, block, f + 1), r[c := row[c] + At(block, f)];
    forall d | 0 <= d < |row| ensures next[d] == want[d] {
      CellOf(w, d);
    }
  }

  // ---------- What a block must compute ----------

  /** Everything a block depends on: the graph, the samples each node brings in, for every route
      the DSP slot its activation found, and the publications around it. */
  datatype Setting<!S> = Setting(
    frames: nat, g: Graph, own: seq<seq<real>>, process: Process<S>, slots: seq<Slot<S>>, landings: seq<Landing<S>>)

  ghost predicate WellSet<S(!new)>(p: Setting<S>) {
    && WellBuilt(p.g) && KeepsLength(p.process) && |p.slots| == |p.landings| == |p.g.routes| && |p.own| == MAX_NODES
    && forall n :: n in p.g.order ==> |p.own[n]| == p.frames * p.g.widths[n]
  }

  /** The meaning of a node: its own input plus what every valid route into it brings, through
      any number of nodes before it. */
  ghost function Meaning<S(!new)>(p: Setting<S>, n: nat): (r: seq<real>)
    requires WellSet(p) && n in p.g.order
    ensures |r| == p.frames * p.g.widths[n]
    decreases p.g.Position(n), 1, 1
  {
    seq(p.frames * p.g.widths[n], c requires 0 <= c < p.frames * p.g.widths[n] => CellMeaning(p, n, c))
  }

  ghost function CellMeaning<S(!new)>(p: Setting<S>, n: nat, c: nat): real
    requires WellSet(p) && n in p.g.order && c < p.frames * p.g.widths[n]
    decreases p.g.Position(n), 1, 0
  {
    var w := p.g.widths[n];
    p.own[n][c] + Incoming(p, n, Channel(w, c), Frame(w, c), |p.g.routes|)
  }

  /** The sum over the first k routes of the snapshot. */
  ghost function Incoming<S(!new)>(p: Setting<S>, n: nat, ch: nat, f: nat, k: nat): real
    requires WellSet(p) && n in p.g.order && k <= |p.g.routes|
    decreases p.g.Position(n), 0, k
  {
    if k == 0 then 0.0
    else
      var i := k - 1;
      Incoming(p, n, ch, f, i) +
      if Feeds(p.g, i, n, ch) then
        EdgesGoForward(p.g, i);
        At(Contribution(p, i), f)
      else 0.0
  }

  function At(block: seq<real>, f: nat): real {
    if f < |block| then block[f] else 0.0
  }

  /** What route i brings. */
  ghost function Contribution<S(!new)>(p: Setting<S>, i: nat): seq<real>
    requires WellSet(p) && i < |p.g.routes| && ValidRoute(p.g, i) && p.g.routes[i].source in p.g.order
    decreases p.g.Position(p.g.routes[i].source), 2, 0
  {
    var r := p.g.routes[i];
    Output(p.process, p.slots[i], r.gain,
           Tap(Meaning(p, r.source), p.g.widths[r.source], p.frames, r.sourceChannel))
  }

  // ---------- Solving the equations ----------

  /** The sum of the contributions known so far. */
  ghost function Sum(g: Graph, contrib: map<nat, seq<real>>, n: nat, ch: nat, f: nat, k: nat): real
    requires Shaped(g)
  {
    if k == 0 then 0.0
    else Sum(g, contrib, n, ch, f, k - 1) +
         if k - 1 in contrib && Feeds(g, k - 1, n, ch) then At(contrib[k - 1], f) else 0.0
  }

  lemma {:induction false} SumEmpty(g: Graph, n: nat, ch: nat, f: nat, k: nat)
    requires Shaped(g)
    ensures Sum(g, map[], n, ch, f, k) == 0.0
  {
    if k > 0 {
      SumEmpty(g, n, ch, f, k - 1);
    }
  }

  /** A new contribution enters exactly the sums of the channel it feeds. */
  lemma {:induction false} SumAdd(g: Graph, contrib: map<nat, seq<real>>, i: nat, b: seq<real>, n: nat, ch: nat, f: nat, k: nat)
    requires Shaped(g) && i !in contrib
    ensures Sum(g, contrib[i := b], n, ch, f, k)
            == Sum(g, contrib, n, ch, f, k) + if i < k && Feeds(g, i, n, ch) then At(b, f) else 0.0
  {
    if k > 0 {
      SumAdd(g, contrib, i, b, n, ch, f, k - 1);
    }
  }

  /** The history of one block: node values and route contributions, the DSP slot each route
      found, the routes in the order they were mixed, and all published DSP slots when the block
      began and after each of them. */
  datatype Trace<!S> = Trace(
    val: map<nat, seq<real>>, contrib: map<nat, seq<real>>, slots: seq<Slot<S>>,
    acts: seq<nat>, states: seq<seq<Slot<S>>>)

  /** The value of node n is its own input plus the contributions known so far. */
  ghost predicate Settled<S(!new)>(p: Setting<S>, t: Trace<S>, n: nat)
    requires WellSet(p) && n in p.g.order
  {
    var w := p.g.widths[n];
    && n in t.val && |t.val[n]| == p.frames * w
    && forall c :: 0 <= c < p.frames * w ==>
         t.val[n][c] == p.own[n][c] + Sum(p.g, t.contrib, n, Channel(w, c), Frame(w, c), |p.g.routes|)
  }

  /** The buffer of a node that has not been reached holds the contributions known so far. */
  ghost predicate Gathering<S(!new)>(p: Setting<S>, t: Trace<S>, row: seq<real>, n: nat)
    requires WellSet(p) && n in p.g.order
  {
    var w := p.g.widths[n];
    && p.frames * w <= |row|
    && forall c :: 0 <= c < p.frames * w ==>
         row[c] == Sum(p.g, t.contrib, n, Channel(w, c), Frame(w, c), |p.g.routes|)
  }

  /** What route i brought is its chain applied to the channel it taps. */
  ghost predicate Brought<S(!new)>(p: Setting<S>, t: Trace<S>, i: nat)
    requires WellSet(p) && i in t.contrib
  {
    && ValidRoute(p.g, i) && i < |t.slots|
    && var r := p.g.routes[i];
       r.source in p.g.order && r.source in t.val && |t.val[r.source]| == p.frames * p.g.widths[r.source]
       && t.contrib[i] == Output(p.process, t.slots[i], r.gain,
                                 Tap(t.val[r.source], p.g.widths[r.source], p.frames, r.sourceChannel))
  }

  /** The buffers of the nodes up to k are still `rows`. */
  ghost predicate KeptIn(order: seq<nat>, now: seq<seq<real>>, rows: seq<seq<real>>, k: nat) {
    k < |order| && |now| == |rows| && forall m :: 0 <= m <= k ==> order[m] < |now| && now[order[m]] == rows[order[m]]
  }

  lemma KeptNext(order: seq<nat>, before: seq<seq<real>>, after: seq<seq<real>>, rows: seq<seq<real>>, k: nat, n: nat)
    requires KeptIn(order, before, rows, k) && n < |before| == |after| && after == before[n := after[n]]
    requires forall m :: 0 <= m <= k ==> order[m] != n
    ensures KeptIn(order, after, rows, k)
  {
  }

  /** A finished trace: every node settled, and every valid route from an ordered node brought. */
  ghost predicate Solved<S(!new)>(p: Setting<S>, t: Trace<S>)
    requires WellSet(p)
  {
    && (forall n :: n in p.g.order ==> Settled(p, t, n))
    && (forall i :: i in t.contrib ==> Brought(p, t, i))
    && (forall i :: 0 <= i < |p.g.routes| && ValidRoute(p.g, i) && p.g.routes[i].source in p.g.order ==> i in t.contrib)
  }

  /** The equations have one solution: the meaning of the graph. */
  lemma {:induction false} SolutionIsMeaning<S(!new)>(p: Setting<S>, t: Trace<S>, n: nat)
    requires WellSet(p) && Solved(p, t) && t.slots == p.slots && n in p.g.order
    ensures t.val[n] == Meaning(p, n)
    decreases p.g.Position(n), 1
  {
    assert Settled(p, t, n);
    var w := p.g.widths[n];
    forall c | 0 <= c < p.frames * w
      ensures t.val[n][c] == Meaning(p, n)[c]
    {
      SumIsIncoming(p, t, n, Channel(w, c), Frame(w, c), |p.g.routes|);
      assert Meaning(p, n)[c] == CellMeaning(p, n, c);
    }
  }

  lemma {:induction false} SumIsIncoming<S(!new)>(p: Setting<S>, t: Trace<S>, n: nat, ch: nat, f: nat, k: nat)
    requires WellSet(p) && Solved(p, t) && t.slots == p.slots && n in p.g.order && k <= |p.g.routes|
    ensures Sum(p.g, t.contrib, n, ch, f, k) == Incoming(p, n, ch, f, k)
    decreases p.g.Position(n), 0, k
  {
    if k > 0 {
      var i := k - 1;
      SumIsIncoming(p, t, n, ch, f, i);
      if Feeds(p.g, i, n, ch) {
        EdgesGoForward(p.g, i);
        SolutionIsMeaning(p, t, p.g.routes[i].source);
        assert Brought(p, t, i);
      }
    }
  }

  // ---------- The arithmetic written out ----------

  /** A chain is its processors in turn, each on what the one before put out and each with the state
      it had. */
  lemma {:induction false} ChainInTurn<S(!new)>(process: Process<S>, ps: seq<S>, block: seq<real>, k: nat)
      returns (blocks: seq<seq<real>>)
    requires k <= |ps|
    ensures |blocks| == k + 1 && blocks[0] == block && blocks[k] == RunTo(process, ps, block, k).1
    ensures forall j :: 0 <= j < k ==> process(ps[j], blocks[j]) == (RunTo(process, ps, block, k).0[j], blocks[j + 1])
    ensures forall j :: k <= j < |ps| ==> RunTo(process, ps, block, k).0[j] == ps[j]
  {
    if k == 0 {
      blocks := [block];
    } else {
      var before := ChainInTurn(process, ps, block, k - 1);
      blocks := before + [process(ps[k - 1], before[k - 1]).1];
    }
  }

  /** The samples of one channel, one for each frame. */
  ghost predicate IsChannel(block: seq<real>, row: seq<real>, w: nat, frames: nat, ch: nat) {
    |block| == frames && forall f :: 0 <= f < frames ==> block[f] == At(row, f * w + ch)
  }

  lemma TapIsChannel(block: seq<real>, row: seq<real>, w: nat, frames: nat, ch: nat)
    requires ch < w && frames * w <= |row| && IsChannel(block, row, w, frames, ch)
    ensures Tap(row, w, frames, ch) == block
  {
    var tapped := Tap(row, w, frames, ch);
    forall f | 0 <= f < frames ensures tapped[f] == block[f] {
      CellBound(w, frames, f, ch);
    }
  }

  /** What route i brings: through an active slot the chain's output times both gains, otherwise the
      tapped samples times the route's gain. */
  lemma ContributionIs<S(!new)>(p: Setting<S>, i: nat, tapped: seq<real>, f: nat)
    requires WellSet(p) && i < |p.g.routes| && ValidRoute(p.g, i) && p.g.routes[i].source in p.g.order && f < p.frames
    requires var r := p.g.routes[i]; IsChannel(tapped, Meaning(p, r.source), p.g.widths[r.source], p.frames, r.sourceChannel)
    ensures var r, slot := p.g.routes[i], p.slots[i];
      var run := RunTo(p.process, slot.processors, tapped, |slot.processors|).1;
      && |Contribution(p, i)| == |run| == p.frames
      && Contribution(p, i)[f] == if slot.active then run[f] * (r.gain * slot.gain) else tapped[f] * r.gain
  {
    var r, slot := p.g.routes[i], p.slots[i];
    TapIsChannel(tapped, Meaning(p, r.source), p.g.widths[r.source], p.frames, r.sourceChannel);
    RunKeepsLength(p.process, slot.processors, tapped, |slot.processors|);
  }

  function Total(parts: seq<real>): real {
    if parts == [] then 0.0 else Total(parts[..|parts| - 1]) + parts[|parts| - 1]
  }

  /** part is what route i adds to frame f of channel ch of node n; tapped is the channel it taps. */
  ghost predicate IsPart<S(!new)>(p: Setting<S>, n: nat, ch: nat, f: nat, i: nat, part: real, tapped: seq<real>)
    requires WellSet(p) && n in p.g.order && i < |p.g.routes| && f < p.frames
  {
    var r, slot := p.g.routes[i], p.slots[i];
    if ValidRoute(p.g, i) && r.destination == n && r.destinationChannel == ch then
      EdgesGoForward(p.g, i);
      IsChannel(tapped, Meaning(p, r.source), p.g.widths[r.source], p.frames, r.sourceChannel)
      && part == (if slot.active
                  then At(RunTo(p.process, slot.processors, tapped, |slot.processors|).1, f) * (r.gain * slot.gain)
                  else tapped[f] * r.gain)
    else part == 0.0
  }

  /** So each sample of a node is its own input plus what the valid routes into its channel add. */
  lemma CellIs<S(!new)>(p: Setting<S>, n: nat, f: nat, ch: nat, parts: seq<real>, taps: seq<seq<real>>)
    requires WellSet(p) && n in p.g.order && f < p.frames && ch < p.g.widths[n]
    requires |parts| == |taps| == |p.g.routes|
    requires forall i :: 0 <= i < |parts| ==> IsPart(p, n, ch, f, i, parts[i], taps[i])
    ensures var c := f * p.g.widths[n] + ch;
      c < |Meaning(p, n)| && c < |p.own[n]| && Meaning(p, n)[c] == p.own[n][c] + Total(parts)
  {
    var w := p.g.widths[n];
    CellBound(w, p.frames, f, ch);
    CellInverse(w, f, ch);
    assert Meaning(p, n)[Cell(w, f, ch)] == CellMeaning(p, n, Cell(w, f, ch));
    IncomingIsTotal(p, n, f, ch, parts, taps, |parts|);
    assert parts[..|parts|] == parts;
  }

  lemma {:induction false} IncomingIsTotal<S(!new)>(p: Setting<S>, n: nat, f: nat, ch: nat, parts: seq<real>, taps: seq<seq<real>>, k: nat)
    requires WellSet(p) && n in p.g.order && f < p.frames && |parts| == |taps| == |p.g.routes| && k <= |parts|
    requires forall i :: 0 <= i < |parts| ==> IsPart(p, n, ch, f, i, parts[i], taps[i])
    ensures Incoming(p, n, ch, f, k) == Total(parts[..k])
  {
    if k > 0 {
      IncomingIsTotal(p, n, f, ch, parts, taps, k - 1);
      assert parts[..k][..k - 1] == parts[..k - 1];
      PartIs(p, n, ch, f, k - 1, parts[k - 1], taps[k - 1]);
    }
  }

  lemma PartIs<S(!new)>(p: Setting<S>, n: nat, ch: nat, f: nat, i: nat, part: real, tapped: seq<real>)
    requires WellSet(p) && n in p.g.order && f < p.frames && i < |p.g.routes| && IsPart(p, n, ch, f, i, part, tapped)
    ensures Feeds(p.g, i, n, ch) ==> p.g.routes[i].source in p.g.order && part == At(Contribution(p, i), f)
    ensures !Feeds(p.g, i, n, ch) ==> part == 0.0
  {
    if Feeds(p.g, i, n, ch) {
      EdgesGoForward(p.g, i);
      ContributionIs(p, i, tapped, f);
    }
  }

  // ---------- DSP state from route to route ----------

  /** The slot a route finds; an ID without a slot is never processed. */
  function Found<S>(dsp: seq<Slot<S>>, id: nat): Slot<S>
    requires |dsp| == MAX_ROUTES
  {
    if Supported(id) then dsp[id] else Slot([], 1.0, false)
  }

  function AdvanceDsp<S>(process: Process<S>, dsp: seq<Slot<S>>, id: nat, block: seq<real>): (r: seq<Slot<S>>)
    requires |dsp| == MAX_ROUTES
    ensures |r| == MAX_ROUTES
  {
    if Supported(id) then dsp[id := Advanced(process, dsp[id], block)] else dsp
  }

  /** A slot after publications. */
  function LandedOn<S>(slot: Slot<S>, landed: map<nat, Slot<S>>, id: nat): Slot<S> {
    if Supported(id) && id in landed then landed[id] else slot
  }

  /** All published slots after publications. */
  function Landed<S>(dsp: seq<Slot<S>>, landed: map<nat, Slot<S>>): (r: seq<Slot<S>>)
    requires |dsp| == MAX_ROUTES
    ensures |r| == MAX_ROUTES
  {
    seq(MAX_ROUTES, id requires 0 <= id < MAX_ROUTES => LandedOn(dsp[id], landed, id))
  }

  /** All published slots after one route: what was published before it is what it finds, and what
      is published while its chain runs replaces what it leaves behind. */
  function NextDsp<S>(process: Process<S>, dsp: seq<Slot<S>>, l: Landing<S>, id: nat, block: seq<real>): (r: seq<Slot<S>>)
    requires |dsp| == MAX_ROUTES
    ensures |r| == MAX_ROUTES
  {
    Landed(AdvanceDsp(process, Landed(dsp, l.before), id, block), l.during)
  }

  /** The buffers hold whole blocks of both ends of route i. */
  ghost predicate EndsFit(g: Graph, frames: nat, rows: seq<seq<real>>, i: nat) {
    && Shaped(g) && |rows| == MAX_NODES && i < |g.routes| && ValidRoute(g, i)
    && frames * g.widths[g.routes[i].source] <= |rows[g.routes[i].source]|
  }

  ghost function TappedIn(g: Graph, frames: nat, rows: seq<seq<real>>, i: nat): seq<real>
    requires EndsFit(g, frames, rows, i)
  {
    var r := g.routes[i];
    Tap(rows[r.source], g.widths[r.source], frames, r.sourceChannel)
  }

  /** What mixing route i does to the slots and to the buffers. */
  ghost function DspAfter<S>(process: Process<S>, g: Graph, frames: nat, dsp: seq<Slot<S>>, l: Landing<S>,
                             rows: seq<seq<real>>, i: nat): seq<Slot<S>>
    requires EndsFit(g, frames, rows, i) && |dsp| == MAX_ROUTES
  {
    NextDsp(process, dsp, l, g.routes[i].id, TappedIn(g, frames, rows, i))
  }

  ghost function RowsAfter<S>(process: Process<S>, g: Graph, frames: nat, dsp: seq<Slot<S>>, l: Landing<S>,
                              rows: seq<seq<real>>, i: nat): seq<seq<real>>
    requires EndsFit(g, frames, rows, i) && |dsp| == MAX_ROUTES
  {
    var r := g.routes[i];
    rows[r.destination :=
      AddChannel(rows[r.destination], g.widths[r.destination], r.destinationChannel,
                 Output(process, Found(Landed(dsp, l.before), r.id), r.gain, TappedIn(g, frames, rows, i)), frames)]
  }

  /** The routes were mixed once each, in the order of `acts`, and each found its DSP slot as the
      ones before it and the publications up to then left it. */
  ghost predicate Threaded<S(!new)>(p: Setting<S>, t: Trace<S>)
    requires WellSet(p)
  {
    && |t.states| == |t.acts| + 1
    && (forall m :: 0 <= m < |t.states| ==> |t.states[m]| == MAX_ROUTES)
    && DuplicateFree(t.acts)
    && (forall i :: i in t.contrib <==> i in t.acts)
    && forall m :: 0 <= m < |t.acts| ==> StepOk(p, t, m)
  }

  ghost predicate StepOk<S(!new)>(p: Setting<S>, t: Trace<S>, m: nat)
    requires WellSet(p) && m < |t.acts| && |t.states| == |t.acts| + 1
    requires forall k :: 0 <= k < |t.states| ==> |t.states[k]| == MAX_ROUTES
  {
    var i := t.acts[m];
    && i in t.contrib && Brought(p, t, i)
    && var r := p.g.routes[i];
       var block := Tap(t.val[r.source], p.g.widths[r.source], p.frames, r.sourceChannel);
       && t.slots[i] == Found(Landed(t.states[m], p.landings[i].before), r.id)
       && t.states[m + 1] == NextDsp(p.process, t.states[m], p.landings[i], r.id, block)
  }

  /** Route IDs that have a DSP slot are not shared. */
  ghost predicate DistinctIds(routes: seq<AudioRoute>) {
    forall i, j :: 0 <= i < j < |routes| && Supported(routes[i].id) ==> routes[i].id != routes[j].id
  }

  /** The newest publication for an ID that landed around these routes, if any did. */
  function Newest<S>(landings: seq<Landing<S>>, acts: seq<nat>, id: nat, slot: Slot<S>): Slot<S>
    requires forall m :: 0 <= m < |acts| ==> acts[m] < |landings|
  {
    if acts == [] then slot
    else
      var n := |acts| - 1;
      LandedOn(LandedOn(Newest(landings, acts[..n], id, slot), landings[acts[n]].before, id), landings[acts[n]].during, id)
  }

  /** The routes mixed from the a-th to the b-th are others than the one with this ID. */
  ghost predicate Elsewhere<S(!new)>(p: Setting<S>, t: Trace<S>, id: nat, a: nat, b: nat)
    requires WellSet(p)
  {
    a <= b <= |t.acts| && forall m :: a <= m < b ==> t.acts[m] < |p.g.routes| && p.g.routes[t.acts[m]].id != id
  }

  /** A slot whose route is not mixed changes by publications only. */
  lemma {:induction false} SlotOnlyLanded<S(!new)>(p: Setting<S>, t: Trace<S>, id: nat, a: nat, b: nat)
    requires WellSet(p) && Threaded(p, t) && Supported(id) && Elsewhere(p, t, id, a, b)
    ensures t.states[b][id] == Newest(p.landings, t.acts[a..b], id, t.states[a][id])
    decreases b
  {
    if a < b {
      SlotOnlyLanded(p, t, id, a, b - 1);
      assert StepOk(p, t, b - 1);
      assert t.acts[a..b][..b - 1 - a] == t.acts[a..b - 1];
    }
  }

  lemma OthersElsewhere<S(!new)>(p: Setting<S>, t: Trace<S>, m: nat)
    requires WellSet(p) && Threaded(p, t) && DistinctIds(p.g.routes) && m < |t.acts|
    requires t.acts[m] < |p.g.routes| && Supported(p.g.routes[t.acts[m]].id)
    ensures var id := p.g.routes[t.acts[m]].id;
      Elsewhere(p, t, id, 0, m) && Elsewhere(p, t, id, m + 1, |t.acts|)
  {
    var i := t.acts[m];
    forall k | 0 <= k < |t.acts| && k != m
      ensures t.acts[k] < |p.g.routes| && p.g.routes[t.acts[k]].id != p.g.routes[i].id
    {
      assert StepOk(p, t, k);
      assert t.acts[k] != i;
    }
  }

  /** With unshared IDs every route's chain is run exactly once, on the slot it finds: the one
      published last before the route was reached, else the one the block began with. The block
      ends with the state after that one run, unless something was published since. */
  lemma ChainsRunOnce<S(!new)>(p: Setting<S>, t: Trace<S>, m: nat)
    requires WellSet(p) && Threaded(p, t) && DistinctIds(p.g.routes) && m < |t.acts|
    requires t.acts[m] < |p.g.routes| && Supported(p.g.routes[t.acts[m]].id)
    ensures var i := t.acts[m]; var r := p.g.routes[i];
      && Brought(p, t, i) && Elsewhere(p, t, r.id, 0, m) && Elsewhere(p, t, r.id, m + 1, |t.acts|)
      && t.slots[i] == LandedOn(Newest(p.landings, t.acts[..m], r.id, t.states[0][r.id]), p.landings[i].before, r.id)
      && t.states[|t.acts|][r.id] == Newest(p.landings, t.acts[m + 1..], r.id,
           LandedOn(Advanced(p.process, t.slots[i], Tap(t.val[r.source], p.g.widths[r.source], p.frames, r.sourceChannel)),
                    p.landings[i].during, r.id))
  {
    var i := t.acts[m];
    var id := p.g.routes[i].id;
    assert StepOk(p, t, m);
    OthersElsewhere(p, t, m);
    SlotOnlyLanded(p, t, id, 0, m);
    assert t.acts[0..m] == t.acts[..m];
    SlotOnlyLanded(p, t, id, m + 1, |t.acts|);
    assert t.acts[m + 1..|t.acts|] == t.acts[m + 1..];
  }

  /** A route finds what was published since the route before it, else, when nothing was published
      earlier in the block either, what the block began with. */
  lemma FoundIsNewest<S(!new)>(p: Setting<S>, t: Trace<S>, m: nat)
    requires WellSet(p) && Threaded(p, t) && DistinctIds(p.g.routes) && m < |t.acts|
    requires t.acts[m] < |p.g.routes| && 0 < p.g.routes[t.acts[m]].id < 1024
    ensures var i := t.acts[m]; var id := p.g.routes[i].id;
      && i < |t.slots| && |t.states[0]| == MAX_ROUTES
      && (id in p.landings[i].before ==> t.slots[i] == p.landings[i].before[id])
      && (id !in p.landings[i].before && NoneLands(p, t, id, 0, m) ==> t.slots[i] == t.states[0][id])
  {
    var i := t.acts[m];
    var id := p.g.routes[i].id;
    ChainsRunOnce(p, t, m);
    OthersElsewhere(p, t, m);
    ActsInRange(p, t);
    NewestSkips(p, t, id, 0, m, t.states[0][id]);
    assert t.acts[..0] == [];
  }

  /** And else what was published last while an earlier route was mixed, or just before it. */
  lemma FoundIsLast<S(!new)>(p: Setting<S>, t: Trace<S>, m: nat, a: nat)
    requires WellSet(p) && Threaded(p, t) && DistinctIds(p.g.routes) && a < m < |t.acts|
    requires t.acts[m] < |p.g.routes| && 0 < p.g.routes[t.acts[m]].id < 1024 && t.acts[a] < |p.landings|
    requires var id := p.g.routes[t.acts[m]].id; id !in p.landings[t.acts[m]].before && NoneLands(p, t, id, a + 1, m)
    ensures var i := t.acts[m]; var id := p.g.routes[i].id; var l := p.landings[t.acts[a]];
      && i < |t.slots|
      && (id in l.during ==> t.slots[i] == l.during[id])
      && (id !in l.during && id in l.before ==> t.slots[i] == l.before[id])
  {
    var i := t.acts[m];
    var id := p.g.routes[i].id;
    ChainsRunOnce(p, t, m);
    ActsInRange(p, t);
    NewestSkips(p, t, id, a + 1, m, t.states[0][id]);
    assert t.acts[..a + 1][..a] == t.acts[..a];
  }

  /** A route whose ID has no slot finds none that is active. */
  lemma NothingFoundBeyond<S(!new)>(p: Setting<S>, t: Trace<S>, m: nat)
    requires WellSet(p) && Threaded(p, t) && m < |t.acts| && t.acts[m] < |p.g.routes|
    requires var id := p.g.routes[t.acts[m]].id; id == 0 || 1024 <= id
    ensures t.acts[m] < |t.slots| && !t.slots[t.acts[m]].active
  {
    assert StepOk(p, t, m);
  }

  lemma ActsInRange<S(!new)>(p: Setting<S>, t: Trace<S>)
    requires WellSet(p) && Threaded(p, t)
    ensures forall m :: 0 <= m < |t.acts| ==> t.acts[m] < |p.landings|
  {
    forall m | 0 <= m < |t.acts| ensures t.acts[m] < |p.landings| {
      assert StepOk(p, t, m);
    }
  }

  /** Nothing is published for an ID around the routes from the a-th to the b-th. */
  ghost predicate NoneLands<S(!new)>(p: Setting<S>, t: Trace<S>, id: nat, a: nat, b: nat) {
    forall k :: a <= k < b && k < |t.acts| && t.acts[k] < |p.landings| ==>
      id !in p.landings[t.acts[k]].before && id !in p.landings[t.acts[k]].during
  }

  lemma {:induction false} NewestSkips<S(!new)>(p: Setting<S>, t: Trace<S>, id: nat, a: nat, b: nat, slot: Slot<S>)
    requires a <= b <= |t.acts| && forall m :: 0 <= m < b ==> t.acts[m] < |p.landings|
    ensures NoneLands(p, t, id, a, b) ==> Newest(p.landings, t.acts[..b], id, slot) == Newest(p.landings, t.acts[..a], id, slot)
    decreases b
  {
    if a < b {
      NewestSkips(p, t, id, a, b - 1, slot);
      assert t.acts[..b][..b - 1] == t.acts[..b - 1];
    }
  }

  /** Nothing was published for an ID while the block was mixed. */
  ghost predicate Undisturbed<S(!new)>(landings: seq<Landing<S>>, id: nat) {
    forall i :: 0 <= i < |landings| ==> id !in landings[i].before && id !in landings[i].during
  }

  lemma {:induction false} NothingLanded<S(!new)>(landings: seq<Landing<S>>, acts: seq<nat>, id: nat, slot: Slot<S>)
    requires Undisturbed(landings, id) && forall m :: 0 <= m < |acts| ==> acts[m] < |landings|
    ensures Newest(landings, acts, id, slot) == slot
  {
    if acts != [] {
      NothingLanded(landings, acts[..|acts| - 1], id, slot);
    }
  }

  /** So without a publication for it, a chain runs on the state the block began with, and the block
      ends with the processors as that one run left them, if the slot was active at all. */
  lemma UndisturbedChainRunsOn<S(!new)>(p: Setting<S>, t: Trace<S>, m: nat)
    requires WellSet(p) && Threaded(p, t) && DistinctIds(p.g.routes) && m < |t.acts|
    requires t.acts[m] < |p.g.routes| && Supported(p.g.routes[t.acts[m]].id)
    requires Undisturbed(p.landings, p.g.routes[t.acts[m]].id)
    ensures var i := t.acts[m]; var r := p.g.routes[i];
      && Brought(p, t, i)
      && var slot := t.states[0][r.id];
         var tapped := Tap(t.val[r.source], p.g.widths[r.source], p.frames, r.sourceChannel);
         var after := t.states[|t.acts|][r.id];
         && t.slots[i] == slot && after.gain == slot.gain && after.active == slot.active
         && after.processors == if slot.active then RunTo(p.process, slot.processors, tapped, |slot.processors|).0 else slot.processors
  {
    var i := t.acts[m];
    var r := p.g.routes[i];
    ChainsRunOnce(p, t, m);
    OthersElsewhere(p, t, m);
    NothingLanded(p.landings, t.acts[..m], r.id, t.states[0][r.id]);
    NothingLanded(p.landings, t.acts[m + 1..], r.id,
                  Advanced(p.process, t.slots[i], Tap(t.val[r.source], p.g.widths[r.source], p.frames, r.sourceChannel)));
  }

  // ---------- Keeping the equations while mixing ----------

  /** The state while node k's routes are mixed: nodes up to k have their final values, the buffers
      of later nodes hold what has been brought so far. */
  ghost predicate Mixing<S(!new)>(p: Setting<S>, t: Trace<S>, rows: seq<seq<real>>, k: nat)
    requires WellSet(p) && k <= |p.g.order| && |rows| == MAX_NODES
  {
    && |t.slots| == |p.g.routes|
    && (forall m :: 0 <= m < k ==> Settled(p, t, p.g.order[m]))
    && (forall m :: k <= m < |p.g.order| ==>
          p.g.order[m] in p.g.order && Gathering(p, t, rows[p.g.order[m]], p.g.order[m]))
    && (forall i :: i in t.contrib ==> Brought(p, t, i))
    && Threaded(p, t)
  }

  /** The effect of mixing route i on the history. */
  ghost function Mixed<S>(t: Trace<S>, i: nat, out: seq<real>, slot: Slot<S>, dsp: seq<Slot<S>>): Trace<S>
    requires i < |t.slots|
  {
    t.(contrib := t.contrib[i := out], slots := t.slots[i := slot], acts := t.acts + [i], states := t.states + [dsp])
  }

  /** A route that leaves node k ends behind the nodes up to k, or outside the order. */
  lemma EndsLater(g: Graph, i: nat, k: nat, m: nat)
    requires WellBuilt(g) && k < |g.order| && i < |g.routes| && ValidRoute(g, i) && g.routes[i].source == g.order[k]
    requires m <= k
    ensures g.routes[i].destination != g.order[m]
  {
    if g.routes[i].destination == g.order[m] {
      EdgesGoForward(g, i);
      IndexOf(g.order, k);
      IndexOf(g.order, m);
    }
  }

  lemma IndexOf(order: seq<nat>, k: nat)
    requires DuplicateFree(order) && k < |order|
    ensures Index(order, order[k]) == k
  {
  }

  lemma SettledStays<S(!new)>(p: Setting<S>, t: Trace<S>, t': Trace<S>, i: nat, out: seq<real>, n: nat)
    requires WellSet(p) && n in p.g.order && Settled(p, t, n) && i !in t.contrib
    requires t'.val == t.val && t'.contrib == t.contrib[i := out]
    requires i < |p.g.routes| && p.g.routes[i].destination != n
    ensures Settled(p, t', n)
  {
    var w := p.g.widths[n];
    forall c | 0 <= c < p.frames * w
      ensures t.val[n][c] == p.own[n][c] + Sum(p.g, t'.contrib, n, Channel(w, c), Frame(w, c), |p.g.routes|)
    {
      SumAdd(p.g, t.contrib, i, out, n, Channel(w, c), Frame(w, c), |p.g.routes|);
    }
  }

  lemma GatheringStays<S(!new)>(p: Setting<S>, t: Trace<S>, t': Trace<S>, i: nat, out: seq<real>, row: seq<real>, n: nat)
    requires WellSet(p) && n in p.g.order && Gathering(p, t, row, n) && i !in t.contrib
    requires t'.contrib == t.contrib[i := out]
    requires i < |p.g.routes| && p.g.routes[i].destination != n
    ensures Gathering(p, t', row, n)
  {
    var w := p.g.widths[n];
    forall c | 0 <= c < p.frames * w
      ensures row[c] == Sum(p.g, t'.contrib, n, Channel(w, c), Frame(w, c), |p.g.routes|)
    {
      SumAdd(p.g, t.contrib, i, out, n, Channel(w, c), Frame(w, c), |p.g.routes|);
    }
  }

  lemma GatheringAdds<S(!new)>(p: Setting<S>, t: Trace<S>, t': Trace<S>, i: nat, out: seq<real>, row: seq<real>, n: nat)
    requires WellSet(p) && n in p.g.order && Gathering(p, t, row, n) && i !in t.contrib
    requires t'.contrib == t.contrib[i := out]
    requires i < |p.g.routes| && ValidRoute(p.g, i) && p.g.routes[i].destination == n
    ensures Gathering(p, t', AddChannel(row, p.g.widths[n], p.g.routes[i].destinationChannel, out, p.frames), n)
  {
    var w := p.g.widths[n];
    var next := AddChannel(row, w, p.g.routes[i].destinationChannel, out, p.frames);
    forall c | 0 <= c < p.frames * w
      ensures next[c] == Sum(p.g, t'.contrib, n, Channel(w, c), Frame(w, c), |p.g.routes|)
    {
      CellCover(w, p.frames, c);
      SumAdd(p.g, t.contrib, i, out, n, Channel(w, c), Frame(w, c), |p.g.routes|);
    }
  }

  lemma BroughtStays<S(!new)>(p: Setting<S>, t: Trace<S>, i: nat, out: seq<real>, slot: Slot<S>, dsp: seq<Slot<S>>, j: nat)
    requires WellSet(p) && i < |t.slots| && i !in t.contrib && j in t.contrib && Brought(p, t, j)
    ensures Brought(p, Mixed(t, i, out, slot, dsp), j)
  {
  }

  /** The channel that route i taps. */
  ghost function Tapped<S(!new)>(p: Setting<S>, t: Trace<S>, i: nat): seq<real>
    requires WellSet(p) && i < |p.g.routes| && ValidRoute(p.g, i) && p.g.routes[i].source in t.val
    requires |t.val[p.g.routes[i].source]| == p.frames * p.g.widths[p.g.routes[i].source]
  {
    var r := p.g.routes[i];
    Tap(t.val[r.source], p.g.widths[r.source], p.frames, r.sourceChannel)
  }

  /** The history after mixing one more route. */
  ghost function NextTrace<S(!new)>(p: Setting<S>, t: Trace<S>, i: nat): Trace<S>
    requires WellSet(p) && Threaded(p, t) && i < |t.slots| == |p.g.routes| && ValidRoute(p.g, i)
    requires p.g.routes[i].source in t.val
    requires |t.val[p.g.routes[i].source]| == p.frames * p.g.widths[p.g.routes[i].source]
  {
    var r := p.g.routes[i];
    var dsp := t.states[|t.acts|];
    var slot := Found(Landed(dsp, p.landings[i].before), r.id);
    Mixed(t, i, Output(p.process, slot, r.gain, Tapped(p, t, i)), slot,
          NextDsp(p.process, dsp, p.landings[i], r.id, Tapped(p, t, i)))
  }

  lemma ThreadedGrows<S(!new)>(p: Setting<S>, t: Trace<S>, i: nat, k: nat)
    requires WellSet(p) && Threaded(p, t) && k < |p.g.order| && Settled(p, t, p.g.order[k])
    requires |t.slots| == |p.g.routes| && i < |p.g.routes| && ValidRoute(p.g, i)
    requires p.g.routes[i].source == p.g.order[k] && i !in t.contrib
    ensures Threaded(p, NextTrace(p, t, i)) && Brought(p, NextTrace(p, t, i), i)
  {
    var r := p.g.routes[i];
    var dsp := t.states[|t.acts|];
    var slot := Found(Landed(dsp, p.landings[i].before), r.id);
    var out := Output(p.process, slot, r.gain, Tapped(p, t, i));
    var next := NextDsp(p.process, dsp, p.landings[i], r.id, Tapped(p, t, i));
    var t' := Mixed(t, i, out, slot, next);
    forall m | 0 <= m < |t'.acts| ensures StepOk(p, t', m) {
      if m < |t.acts| {
        assert StepOk(p, t, m);
        BroughtStays(p, t, i, out, slot, next, t.acts[m]);
      }
    }
  }

  /** Mixing one more route of node k keeps the equations. */
  lemma MixingStep<S(!new)>(p: Setting<S>, t: Trace<S>, rows: seq<seq<real>>, k: nat, i: nat)
    requires WellSet(p) && k < |p.g.order| && |rows| == MAX_NODES && Mixing(p, t, rows, k + 1)
    requires i < |p.g.routes| && ValidRoute(p.g, i) && p.g.routes[i].source == p.g.order[k] && i !in t.contrib
    ensures Settled(p, t, p.g.order[k])
    ensures var r := p.g.routes[i];
      Mixing(p, NextTrace(p, t, i),
             rows[r.destination := AddChannel(rows[r.destination], p.g.widths[r.destination], r.destinationChannel,
                                              NextTrace(p, t, i).contrib[i], p.frames)],
             k + 1)
  {
    assert Settled(p, t, p.g.order[k]);
    var r := p.g.routes[i];
    var dsp := t.states[|t.acts|];
    var slot := Found(Landed(dsp, p.landings[i].before), r.id);
    var out := Output(p.process, slot, r.gain, Tapped(p, t, i));
    var next := NextDsp(p.process, dsp, p.landings[i], r.id, Tapped(p, t, i));
    var t' := Mixed(t, i, out, slot, next);
    ThreadedGrows(p, t, i, k);
    forall j | j in t'.contrib ensures Brought(p, t', j) {
      if j != i {
        BroughtStays(p, t, i, out, slot, next, j);
      }
    }
    forall m | 0 <= m < k + 1 ensures Settled(p, t', p.g.order[m]) {
      EndsLater(p.g, i, k, m);
      SettledStays(p, t, t', i, out, p.g.order[m]);
    }
    var w := p.g.widths[r.destination];
    var rows' := rows[r.destination := AddChannel(rows[r.destination], w, r.destinationChannel, out, p.frames)];
    forall m | k + 1 <= m < |p.g.order| ensures Gathering(p, t', rows'[p.g.order[m]], p.g.order[m]) {
      if p.g.order[m] == r.destination {
        GatheringAdds(p, t, t', i, out, rows[p.g.order[m]], p.g.order[m]);
      } else {
        GatheringStays(p, t, t', i, out, rows[p.g.order[m]], p.g.order[m]);
      }
    }
  }

  /** The buffer of node n holds its value in the history. */
  ghost predicate HoldsAt<S(!new)>(p: Setting<S>, t: Trace<S>, rows: seq<seq<real>>, n: nat)
    requires WellSet(p) && n < MAX_NODES
  {
    var size := p.frames * p.g.widths[n];
    n < |rows| && size <= |rows[n]| && n in t.val && rows[n][..size] == t.val[n]
  }

  /** During node k's turn: the history since t0 only mixed routes, and the buffers of the nodes up
      to k are still `first`. */
  ghost predicate InTurn<S(!new)>(p: Setting<S>, t0: Trace<S>, t: Trace<S>, rows: seq<seq<real>>, first: seq<seq<real>>, k: nat)
    requires WellSet(p)
  {
    && k < |p.g.order| && |rows| == MAX_NODES && Mixing(p, t, rows, k + 1)
    && p.g.order[k] < MAX_NODES && HoldsAt(p, t, rows, p.g.order[k])
    && t.val == t0.val && |t0.states| > 0 && t.states[0] == t0.states[0]
    && KeptIn(p.g.order, rows, first, k)
  }

  /** Mixing one more route of node k keeps the equations, and the buffers of the nodes up to k. */
  lemma RouteMixed<S(!new)>(p: Setting<S>, t0: Trace<S>, t: Trace<S>, before: seq<seq<real>>, first: seq<seq<real>>,
                            k: nat, i: nat)
    requires WellSet(p) && InTurn(p, t0, t, before, first, k)
    requires i < |p.g.routes| && ValidRoute(p.g, i) && p.g.routes[i].source == p.g.order[k] && i !in t.contrib
    ensures Settled(p, t, p.g.order[k]) && EndsFit(p.g, p.frames, before, i)
    ensures var t' := NextTrace(p, t, i); var dsp := t.states[|t.acts|];
      && t'.states == t.states + [DspAfter(p.process, p.g, p.frames, dsp, p.landings[i], before, i)]
      && t'.acts == t.acts + [i] && t'.contrib.Keys == t.contrib.Keys + {i}
      && InTurn(p, t0, t', RowsAfter(p.process, p.g, p.frames, dsp, p.landings[i], before, i), first, k)
  {
    MixingStep(p, t, before, k, i);
    var r := p.g.routes[i];
    TapPrefix(before[r.source], p.g.widths[r.source], p.frames, r.sourceChannel);
    assert TappedIn(p.g, p.frames, before, i) == Tapped(p, t, i);
    var after := RowsAfter(p.process, p.g, p.frames, t.states[|t.acts|], p.landings[i], before, i);
    forall m | 0 <= m <= k ensures p.g.order[m] != p.g.routes[i].destination {
      EndsLater(p.g, i, k, m);
    }
    KeptNext(p.g.order, before, after, first, k, p.g.routes[i].destination);
  }

  /** The first c cells overwritten. */
  function Splice(row: seq<real>, cells: seq<real>, c: nat): (r: seq<real>)
    requires c <= |cells| <= |row|
    ensures |r| == |row|
  {
    cells[..c] + row[c..]
  }

  lemma SpliceEnds(row: seq<real>, cells: seq<real>)
    requires |cells| <= |row|
    ensures Splice(row, cells, 0) == row && Splice(row, cells, |cells|) == cells + row[|cells|..]
  {
  }

  lemma SpliceNext(row: seq<real>, cells: seq<real>, c: nat)
    requires c < |cells| <= |row|
    ensures Splice(row, cells, c)[c := cells[c]] == Splice(row, cells, c + 1)
  {
  }

  /** A node's own input, added to its buffer. */
  function AddOwn(row: seq<real>, own: seq<real>): (r: seq<real>)
    ensures |r| == |row|
  {
    seq(|row|, c requires 0 <= c < |row| => row[c] + At(own, c))
  }

  lemma OwnSettles<S(!new)>(p: Setting<S>, t: Trace<S>, row: seq<real>, n: nat)
    requires WellSet(p) && n in p.g.order && Gathering(p, t, row, n)
    ensures Settled(p, t.(val := t.val[n := AddOwn(row, p.own[n])[..p.frames * p.g.widths[n]]]), n)
  {
  }

  /** When node k is reached all routes into it have been mixed, and with its own input its buffer
      holds its final value. */
  lemma NodeSettles<S(!new)>(p: Setting<S>, t: Trace<S>, rows: seq<seq<real>>, k: nat)
    requires WellSet(p) && k < |p.g.order| && |rows| == MAX_NODES && Mixing(p, t, rows, k)
    requires p.g.order[k] in p.g.order && p.g.order[k] !in t.val
    ensures var n := p.g.order[k]; var size := p.frames * p.g.widths[n];
      size <= |rows[n]| &&
      var row := AddOwn(rows[n], p.own[n]);
      Mixing(p, t.(val := t.val[n := row[..size]]), rows[n := row], k + 1)
  {
    var n := p.g.order[k];
    var size := p.frames * p.g.widths[n];
    assert Gathering(p, t, rows[n], n);
    var row := AddOwn(rows[n], p.own[n]);
    var t' := t.(val := t.val[n := row[..size]]);
    OwnSettles(p, t, rows[n], n);
    forall m | 0 <= m < k + 1 ensures Settled(p, t', p.g.order[m]) {
      if m < k {
        assert Settled(p, t, p.g.order[m]);
      }
    }
    forall m | k + 1 <= m < |p.g.order|
      ensures p.g.order[m] in p.g.order && Gathering(p, t', rows[n := row][p.g.order[m]], p.g.order[m])
    {
      assert Gathering(p, t, rows[p.g.order[m]], p.g.order[m]);
    }
    ValuesStay(p, t, n, row[..size]);
  }

  lemma ValuesStay<S(!new)>(p: Setting<S>, t: Trace<S>, n: nat, v: seq<real>)
    requires WellSet(p) && Threaded(p, t) && n !in t.val
    requires forall i :: i in t.contrib ==> Brought(p, t, i)
    ensures var t' := t.(val := t.val[n := v]);
      Threaded(p, t') && forall i :: i in t'.contrib ==> Brought(p, t', i)
  {
    var t' := t.(val := t.val[n := v]);
    forall i | i in t'.contrib ensures Brought(p, t', i) {
      assert Brought(p, t, i);
    }
    forall m | 0 <= m < |t'.acts| ensures StepOk(p, t', m) {
      assert StepOk(p, t, m);
    }
  }

  /** Changing only the buffers of nodes up to k keeps the equations. */
  lemma MixingIgnoresPast<S(!new)>(p: Setting<S>, t: Trace<S>, rows: seq<seq<real>>, k: nat, n: nat, row: seq<real>)
    requires WellSet(p) && k < |p.g.order| && |rows| == MAX_NODES && Mixing(p, t, rows, k + 1) && n == p.g.order[k]
    requires n < MAX_NODES
    ensures Mixing(p, t, rows[n := row], k + 1)
  {
    forall m | k + 1 <= m < |p.g.order|
      ensures p.g.order[m] in p.g.order && Gathering(p, t, rows[n := row][p.g.order[m]], p.g.order[m])
    {
      assert Gathering(p, t, rows[p.g.order[m]], p.g.order[m]);
    }
  }

  /** Nothing mixed yet, over silent buffers. */
  lemma MixingBegins<S(!new)>(p: Setting<S>, t: Trace<S>, rows: seq<seq<real>>)
    requires WellSet(p) && |rows| == MAX_NODES && |t.slots| == |p.g.routes|
    requires t.val == map[] && t.contrib == map[] && t.acts == [] && |t.states| == 1 && |t.states[0]| == MAX_ROUTES
    requires forall n :: n in p.g.order ==> p.frames * p.g.widths[n] <= |rows[n]| && Silent(rows[n][..p.frames * p.g.widths[n]])
    ensures Mixing(p, t, rows, 0)
  {
    forall m | 0 <= m < |p.g.order|
      ensures p.g.order[m] in p.g.order && Gathering(p, t, rows[p.g.order[m]], p.g.order[m])
    {
      var n := p.g.order[m];
      var w := p.g.widths[n];
      assert n in p.g.order;
      forall c | 0 <= c < p.frames * w
        ensures rows[n][c] == Sum(p.g, t.contrib, n, Channel(w, c), Frame(w, c), |p.g.routes|)
      {
        SumEmpty(p.g, n, Channel(w, c), Frame(w, c), |p.g.routes|);
        assert rows[n][..p.frames * w][c] == 0.0;
      }
    }
  }

  predicate Silent(block: seq<real>) {
    forall c :: 0 <= c < |block| ==> block[c] == 0.0
  }

  lemma AddOwnNext(row: seq<real>, own: seq<real>, c: nat)
    requires c < |own| <= |row|
    ensures AddOwn(row, own[..c + 1]) == AddOwn(row, own[..c])[c := row[c] + own[c]]
    ensures AddOwn(row, own[..c])[c] == row[c]
  {
  }

  lemma AddOwnSilent(row: seq<real>, own: seq<real>)
    requires Silent(own)
    ensures AddOwn(row, own) == row
  {
  }
}
