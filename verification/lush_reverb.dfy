/** The lush reverb: combs whose read position swings, averaged, through all-passes in series. */
module LushReverb {
  import opened AllPasses
  import opened DelayLines
  import opened SampleBounds

  const TWO_PI := 2.0 * 3.14159265

  // ---------- The read position ----------

  /** How often a position is moved by a length at most. */
  function Turns(r: real, size: real): int {
    if r < 0.0 then (-r).Floor + 1 else if r < size then 0 else r.Floor
  }

  /** A read position brought back into the buffer by whole lengths. */
  function Wrapped(r: real, size: real): (p: real)
    requires 1.0 <= size
    ensures 0.0 <= p < size
    decreases Turns(r, size)
  {
    if r < 0.0 then Wrapped(r + size, size) else if r >= size then Wrapped(r - size, size) else r
  }

  function Laps(r: real, size: real): int
    requires 1.0 <= size
    decreases Turns(r, size)
  {
    if r < 0.0 then Laps(r + size, size) + 1 else if r >= size then Laps(r - size, size) - 1 else 0
  }

  /** It is the same place modulo the buffer. */
  lemma {:induction false} WrappedIsCongruent(r: real, size: real)
    requires 1.0 <= size
    ensures Wrapped(r, size) == r + Laps(r, size) as real * size
    decreases Turns(r, size)
  {
    if r < 0.0 {
      WrappedIsCongruent(r + size, size);
      Distribute(Laps(r + size, size), 1, size);
    } else if r >= size {
      WrappedIsCongruent(r - size, size);
      Distribute(Laps(r - size, size), -1, size);
    }
  }

  lemma Distribute(k: int, d: int, size: real)
    ensures (k + d) as real * size == k as real * size + d as real * size
  {
  }

  function Between(a: real, b: real, fraction: real): real {
    a * (1.0 - fraction) + b * fraction
  }

  /** Reading between two neighbouring cells. */
  function ReadAt(cells: seq<real>, p: real): real
    requires 0.0 <= p < |cells| as real
  {
    Between(cells[p.Floor], cells[NextPos(p.Floor, |cells|)], p - p.Floor as real)
  }

  /** The fraction is one, so the value read lies between the two cells. */
  lemma ReadStays(cells: seq<real>, p: real, limit: real)
    requires 0.0 <= p < |cells| as real && AllWithin(cells, limit)
    ensures 0.0 <= p - p.Floor as real < 1.0 && Within(ReadAt(cells, p), limit)
  {
    Blended(cells[NextPos(p.Floor, |cells|)], cells[p.Floor], p - p.Floor as real, limit);
  }

  // ---------- One modulated comb ----------

  datatype ModulatedComb = ModulatedComb(line: Line, phase: real, increment: real)
  {
    predicate Fits() { line.Fits() && |line.cells| >= 2 }
  }

  function CombOut(c: ModulatedComb, sin: real -> real, depth: real): real
    requires c.Fits()
  {
    ReadAt(c.line.cells, Wrapped(Swung(c.line.pos as real, sin(c.phase), depth), |c.line.cells| as real))
  }

  function Swung(pos: real, swing: real, depth: real): real {
    pos - swing * depth
  }

  function Refed(x: real, out: real, feedback: real): real {
    x + out * feedback
  }

  function NextPhase(phase: real, increment: real): real {
    if phase + increment > TWO_PI then phase + increment - TWO_PI else phase + increment
  }

  function CombMoves(c: ModulatedComb, sin: real -> real, x: real, depth: real, feedback: real): (r: ModulatedComb)
    requires c.Fits()
    ensures r.Fits()
  {
    ModulatedComb(c.line.Put(Refed(x, CombOut(c, sin, depth), feedback)), NextPhase(c.phase, c.increment), c.increment)
  }

  datatype Setting = Setting(decay: real, diffusion: real, mix: real)
  {
    function Feedback(): real { 0.6 + 0.3 * decay }
    function Depth(): real { 0.5 * diffusion }
    predicate Admitted() { 0.1 <= decay <= 1.0 && 0.0 <= diffusion <= 1.0 && 0.0 <= mix <= 1.0 }
  }

  // ---------- The banks ----------

  predicate CombsFit(combs: seq<ModulatedComb>) {
    forall i :: 0 <= i < |combs| ==> combs[i].Fits()
  }

  function CombsAfter(combs: seq<ModulatedComb>, sin: real -> real, x: real, s: Setting, k: nat): (r: seq<ModulatedComb>)
    requires CombsFit(combs)
    ensures |r| == |combs| && CombsFit(r)
  {
    seq(|combs|, i requires 0 <= i < |combs| =>
      if i < k then CombMoves(combs[i], sin, x, s.Depth(), s.Feedback()) else combs[i])
  }

  function CombSum(combs: seq<ModulatedComb>, sin: real -> real, depth: real, k: nat): real
    requires CombsFit(combs) && k <= |combs|
  {
    if k == 0 then 0.0 else CombSum(combs, sin, depth, k - 1) + CombOut(combs[k - 1], sin, depth)
  }

  function Average(sum: real): real {
    sum * 0.125
  }

  datatype Bank = Bank(combs: seq<ModulatedComb>, passes: seq<Line>)
  {
    predicate Fits() { |combs| == 8 && |passes| == 4 && CombsFit(combs) && LinesFit(passes) }
  }

  function Wet(b: Bank, sin: real -> real, s: Setting): real
    requires b.Fits()
  {
    Through(b.passes, Average(CombSum(b.combs, sin, s.Depth(), 8)), 4).1
  }

  function After(b: Bank, sin: real -> real, x: real, s: Setting): (r: Bank)
    requires b.Fits()
    ensures r.Fits()
  {
    Bank(CombsAfter(b.combs, sin, x, s, 8), Through(b.passes, Average(CombSum(b.combs, sin, s.Depth(), 8)), 4).0)
  }

  ghost predicate Plays(s: Setting, sin: real -> real, bs: seq<Bank>, xs: seq<real>, ys: seq<real>, i: nat) {
    && i < |xs| && i < |ys| && i + 1 < |bs| && bs[i].Fits()
    && bs[i + 1] == After(bs[i], sin, xs[i], s) && ys[i] == Blend(xs[i], Wet(bs[i], sin, s), s.mix)
  }

  ghost predicate Course(s: Setting, sin: real -> real, bs: seq<Bank>, xs: seq<real>, ys: seq<real>, n: nat) {
    n <= |xs| && n <= |ys| && n < |bs| && forall i :: 0 <= i < n ==> Plays(s, sin, bs, xs, ys, i)
  }

  class LushReverbProcessor {
    const sin: real -> real
    var setting: Setting
    var combs: seq<ModulatedComb>
    var passes: seq<Line>

    constructor (sin: real -> real, setting: Setting, combSizes: seq<nat>, increments: seq<real>, passSizes: seq<nat>)
      requires |combSizes| == |increments| == 8 && |passSizes| == 4
      ensures this.sin == sin && this.setting == setting && Value().Fits() && SilentBank(Value())
      ensures forall i :: 0 <= i < 8 ==> combs[i].phase == 0.0 && combs[i].increment == increments[i]
      ensures forall i :: 0 <= i < 8 ==> |combs[i].line.cells| == if combSizes[i] < 2 then 2 else combSizes[i]
      ensures forall i :: 0 <= i < 4 ==> |passes[i].cells| == if passSizes[i] < 2 then 2 else passSizes[i]
    {
      this.sin := sin;
      this.setting := setting;
      combs := seq(8, i requires 0 <= i < 8 =>
        ModulatedComb(Line(seq(if combSizes[i] < 2 then 2 else combSizes[i], j => 0.0), 0), 0.0, increments[i]));
      passes := seq(4, i requires 0 <= i < 4 => Line(seq(if passSizes[i] < 2 then 2 else passSizes[i], j => 0.0), 0));
    }

    function Value(): Bank
      reads this
    {
      Bank(combs, passes)
    }

    /** The two loops that bring a read position back into the buffer. */
    method BringBack(r: real, size: real) returns (p: real)
      requires 1.0 <= size
      ensures p == Wrapped(r, size)
    {
      p := r;
      while p < 0.0
        invariant Wrapped(p, size) == Wrapped(r, size)
        decreases if p < 0.0 then (-p).Floor + 1 else 0
      {
        p := p + size;
      }
      while p >= size
        invariant 0.0 <= p && Wrapped(p, size) == Wrapped(r, size)
        decreases p.Floor
      {
        p := p - size;
      }
    }

    method CombProcess(k: nat, input: real) returns (output: real)
      requires CombsFit(combs) && k < |combs|
      modifies this`combs
      ensures output == CombOut(old(combs)[k], sin, setting.Depth())
      ensures combs == old(combs)[k := CombMoves(old(combs)[k], sin, input, setting.Depth(), setting.Feedback())]
    {
      var c := combs[k];
      var size := |c.line.cells|;
      var readPos := BringBack(Swung(c.line.pos as real, sin(c.phase), setting.Depth()), size as real);
      var i0 := readPos.Floor;
      Wraps(i0, size);
      Wraps(c.line.pos, size);
      var i1 := (i0 + 1) % size;
      output := Between(c.line.cells[i0], c.line.cells[i1], readPos - i0 as real);
      var stored := c.line.cells[c.line.pos := Refed(input, output, setting.Feedback())];
      combs := combs[k := ModulatedComb(Line(stored, (c.line.pos + 1) % size), NextPhase(c.phase, c.increment), c.increment)];
    }

    method PassProcess(k: nat, input: real) returns (output: real)
      requires LinesFit(passes) && k < |passes|
      modifies this`passes
      ensures passes == old(passes)[k := PassNext(old(passes)[k], input)]
      ensures output == PassOut(input, old(passes)[k].Oldest())
    {
      var line := passes[k];
      var bufOut := line.cells[line.pos];
      output := PassOut(input, bufOut);
      Wraps(line.pos, |line.cells|);
      passes := passes[k := Line(line.cells[line.pos := PassStores(input, bufOut)], (line.pos + 1) % |line.cells|)];
    }

    method Sample(input: real) returns (output: real)
      requires Value().Fits()
      modifies this`combs, this`passes
      ensures Value() == After(old(Value()), sin, input, setting)
      ensures output == Blend(input, Wet(old(Value()), sin, setting), setting.mix)
    {
      var combOut := 0.0;
      for k := 0 to |combs|
        invariant combs == CombsAfter(old(combs), sin, input, setting, k) && passes == old(passes)
        invariant combOut == CombSum(old(combs), sin, setting.Depth(), k)
      {
        var out := CombProcess(k, input);
        combOut := combOut + out;
      }
      var reverbOut := Average(combOut);
      for k := 0 to |passes|
        invariant (passes, reverbOut) == Through(old(passes), Average(combOut), k)
        invariant combs == CombsAfter(old(combs), sin, input, setting, 8)
      {
        reverbOut := PassProcess(k, reverbOut);
      }
      output := Blend(input, reverbOut, setting.mix);
    }

    /** A mono block in place. */
    method Process(block: array<real>) returns (ghost bs: seq<Bank>)
      requires Value().Fits()
      modifies this`combs, this`passes, block
      ensures Value().Fits() && |bs| == block.Length + 1 && bs[0] == old(Value()) && bs[block.Length] == Value()
      ensures Course(setting, sin, bs, old(block[..]), block[..], block.Length)
    {
      bs := [Value()];
      ghost var xs := block[..];
      for i := 0 to block.Length
        invariant Value().Fits() && |bs| == i + 1 && bs[0] == old(Value()) && bs[i] == Value()
        invariant block[i..] == xs[i..] && Course(setting, sin, bs, xs, block[..], i)
      {
        assert block[i] == block[i..][0] == xs[i];
        ghost var ys := block[..];
        var output := Sample(block[i]);
        block[i] := output;
        assert block[..] == ys[i := output];
        Continues(setting, sin, bs, xs, ys, i, Value(), output);
        bs := bs + [Value()];
      }
    }
  }

  lemma Continues(s: Setting, sin: real -> real, bs: seq<Bank>, xs: seq<real>, ys: seq<real>, n: nat, b: Bank, y: real)
    requires Course(s, sin, bs, xs, ys, n) && |bs| == n + 1 && n < |xs| == |ys| && bs[n].Fits()
    requires b == After(bs[n], sin, xs[n], s) && y == Blend(xs[n], Wet(bs[n], sin, s), s.mix)
    ensures Course(s, sin, bs + [b], xs, ys[n := y], n + 1)
  {
    var cs, zs := bs + [b], ys[n := y];
    forall i | 0 <= i < n + 1 ensures Plays(s, sin, cs, xs, zs, i) {
      if i < n {
        assert Plays(s, sin, bs, xs, ys, i);
      }
    }
  }

  // ---------- Results ----------

  predicate SilentBank(b: Bank) {
    (forall i :: 0 <= i < |b.combs| ==> AllWithin(b.combs[i].line.cells, 0.0))
    && (forall i :: 0 <= i < |b.passes| ==> AllWithin(b.passes[i].cells, 0.0))
  }

  /** What a comb puts out: its buffer, read between two neighbouring cells, the depth times the sine
      of its phase behind its position. */
  ghost predicate PutsOut(c: ModulatedComb, sin: real -> real, depth: real, out: real)
    requires c.Fits()
  {
    exists laps: int :: PutsOutAfter(c, sin, depth, out, laps)
  }

  ghost predicate PutsOutAfter(c: ModulatedComb, sin: real -> real, depth: real, out: real, laps: int)
    requires c.Fits()
  {
    ReadsBetween(c.line.cells, c.line.pos as real - sin(c.phase) * depth + laps as real * |c.line.cells| as real, out)
  }

  /** The value at a place between two cells, in the proportion of its distances. */
  predicate ReadsBetween(cells: seq<real>, place: real, out: real) {
    0.0 <= place < |cells| as real
    && var i := place.Floor; var fraction := place - i as real;
       out == cells[i] * (1.0 - fraction) + cells[(i + 1) % |cells|] * fraction
  }

  lemma ReadIsBetween(cells: seq<real>, place: real)
    requires 0.0 <= place < |cells| as real
    ensures ReadsBetween(cells, place, ReadAt(cells, place))
  {
    Wraps(place.Floor, |cells|);
  }

  lemma CombPutsOut(c: ModulatedComb, sin: real -> real, depth: real)
    requires c.Fits()
    ensures PutsOut(c, sin, depth, CombOut(c, sin, depth))
  {
    var size := |c.line.cells| as real;
    var swung := Swung(c.line.pos as real, sin(c.phase), depth);
    WrappedIsCongruent(swung, size);
    ReadIsBetween(c.line.cells, Wrapped(swung, size));
    Congruent(c, sin, depth, Laps(swung, size), Wrapped(swung, size), ReadAt(c.line.cells, Wrapped(swung, size)));
  }

  lemma Congruent(c: ModulatedComb, sin: real -> real, depth: real, laps: int, place: real, out: real)
    requires c.Fits() && ReadsBetween(c.line.cells, place, out)
    requires place == Swung(c.line.pos as real, sin(c.phase), depth) + laps as real * |c.line.cells| as real
    ensures PutsOut(c, sin, depth, out)
  {
    assert PutsOutAfter(c, sin, depth, out, laps);
  }

  function Eight(outs: seq<real>): real
    requires |outs| == 8
  {
    outs[0] + outs[1] + outs[2] + outs[3] + outs[4] + outs[5] + outs[6] + outs[7]
  }

  lemma EightSummed(combs: seq<ModulatedComb>, sin: real -> real, depth: real, outs: seq<real>)
    requires CombsFit(combs) && |combs| == |outs| == 8
    requires forall k :: 0 <= k < 8 ==> outs[k] == CombOut(combs[k], sin, depth)
    ensures CombSum(combs, sin, depth, 8) == Eight(outs)
  {
    assert CombSum(combs, sin, depth, 0) == 0.0;
    assert CombSum(combs, sin, depth, 1) == CombSum(combs, sin, depth, 0) + outs[0];
    assert CombSum(combs, sin, depth, 2) == CombSum(combs, sin, depth, 1) + outs[1];
    assert CombSum(combs, sin, depth, 3) == CombSum(combs, sin, depth, 2) + outs[2];
    assert CombSum(combs, sin, depth, 4) == CombSum(combs, sin, depth, 3) + outs[3];
    assert CombSum(combs, sin, depth, 5) == CombSum(combs, sin, depth, 4) + outs[4];
    assert CombSum(combs, sin, depth, 6) == CombSum(combs, sin, depth, 5) + outs[5];
    assert CombSum(combs, sin, depth, 7) == CombSum(combs, sin, depth, 6) + outs[6];
    assert CombSum(combs, sin, depth, 8) == CombSum(combs, sin, depth, 7) + outs[7];
  }

  /** What a comb stores, and how its phase moves. */
  predicate CombMoved(c: ModulatedComb, c': ModulatedComb, x: real, out: real, feedback: real)
    requires c.Fits()
  {
    && Moved(c.line, c'.line, x + out * feedback) && c'.increment == c.increment
    && c'.phase == (if c.phase + c.increment > 6.2831853 then c.phase + c.increment - 6.2831853 else c.phase + c.increment)
  }

  lemma CombIsMoved(c: ModulatedComb, sin: real -> real, x: real, depth: real, feedback: real)
    requires c.Fits()
    ensures CombMoved(c, CombMoves(c, sin, x, depth, feedback), x, CombOut(c, sin, depth), feedback)
  {
    PutMoves(c.line, Refed(x, CombOut(c, sin, depth), feedback));
  }

  /** What goes out of four all-passes with gain one half, and what each of them stores. */
  predicate PassedFour(a: seq<Line>, a': seq<Line>, x: real, y: real)
    requires |a| == |a'| == 4 && LinesFit(a)
  {
    var heard1 := a[0].cells[a[0].pos] - x / 2.0;
    var heard2 := a[1].cells[a[1].pos] - heard1 / 2.0;
    var heard3 := a[2].cells[a[2].pos] - heard2 / 2.0;
    && y == a[3].cells[a[3].pos] - heard3 / 2.0
    && Moved(a[0], a'[0], x + a[0].cells[a[0].pos] / 2.0)
    && Moved(a[1], a'[1], heard1 + a[1].cells[a[1].pos] / 2.0)
    && Moved(a[2], a'[2], heard2 + a[2].cells[a[2].pos] / 2.0)
    && Moved(a[3], a'[3], heard3 + a[3].cells[a[3].pos] / 2.0)
  }

  /** One sample written out: what the eight combs put out averaged, through four all-passes, mixed
      with the input; and how all filters move on. */
  lemma SampleIs(s: Setting, sin: real -> real, bs: seq<Bank>, xs: seq<real>, ys: seq<real>, n: nat, i: nat,
                 depth: real, feedback: real) returns (outs: seq<real>, wet: real)
    requires Course(s, sin, bs, xs, ys, n) && i < n
    requires depth == 0.5 * s.diffusion && feedback == 0.6 + 0.3 * s.decay
    ensures bs[i].Fits() && bs[i + 1].Fits() && |outs| == 8
    ensures IsMix(ys[i], xs[i], wet, s.mix)
    ensures PassedFour(bs[i].passes, bs[i + 1].passes, Eight(outs) / 8.0, wet)
    ensures forall j :: 0 <= j < 8 ==> PutsOut(bs[i].combs[j], sin, depth, outs[j])
    ensures forall j :: 0 <= j < 8 ==> CombMoved(bs[i].combs[j], bs[i + 1].combs[j], xs[i], outs[j], feedback)
  {
    assert Plays(s, sin, bs, xs, ys, i);
    wet := Wet(bs[i], sin, s);
    outs := BankIs(bs[i], sin, xs[i], s, depth, feedback);
    BlendIsMix(xs[i], wet, s.mix);
  }

  lemma BankIs(b: Bank, sin: real -> real, x: real, s: Setting, depth: real, feedback: real) returns (outs: seq<real>)
    requires b.Fits() && depth == s.Depth() && feedback == s.Feedback()
    ensures |outs| == 8 && PassedFour(b.passes, After(b, sin, x, s).passes, Eight(outs) / 8.0, Wet(b, sin, s))
    ensures forall j :: 0 <= j < 8 ==> PutsOut(b.combs[j], sin, depth, outs[j])
    ensures forall j :: 0 <= j < 8 ==> CombMoved(b.combs[j], After(b, sin, x, s).combs[j], x, outs[j], feedback)
  {
    outs := seq(8, j requires 0 <= j < 8 => CombOut(b.combs[j], sin, depth));
    forall j | 0 <= j < 8
      ensures PutsOut(b.combs[j], sin, depth, outs[j]) && CombMoved(b.combs[j], After(b, sin, x, s).combs[j], x, outs[j], feedback)
    {
      CombPutsOut(b.combs[j], sin, depth);
      CombIsMoved(b.combs[j], sin, x, depth, feedback);
      assert After(b, sin, x, s).combs[j] == CombMoves(b.combs[j], sin, x, depth, feedback);
    }
    EightSummed(b.combs, sin, depth, outs);
    EightAveraged(Eight(outs));
    FourPassesIs(b.passes, Average(Eight(outs)));
  }

  lemma EightAveraged(sum: real)
    ensures Average(sum) == sum / 8.0
  {
  }

  lemma FourPassesIs(a: seq<Line>, x: real)
    requires |a| == 4 && LinesFit(a)
    ensures var (ls, y) := Through(a, x, 4); PassedFour(a, ls, x, y)
  {
    PassIs(a, x, 0);
    PassIs(a, x, 1);
    PassIs(a, x, 2);
    PassIs(a, x, 3);
  }

  predicate ModulatedWithin(combs: seq<ModulatedComb>, limit: real) {
    forall i :: 0 <= i < |combs| ==> AllWithin(combs[i].line.cells, limit)
  }

  lemma OutStays(c: ModulatedComb, sin: real -> real, depth: real, limit: real)
    requires c.Fits() && AllWithin(c.line.cells, limit)
    ensures Within(CombOut(c, sin, depth), limit)
  {
    ReadStays(c.line.cells, Wrapped(Swung(c.line.pos as real, sin(c.phase), depth), |c.line.cells| as real), limit);
  }

  /** However far the position swings, a comb puts out at most what its cells hold, and stores at
      most the limit of its loop. */
  lemma ModulatedStays(c: ModulatedComb, sin: real -> real, x: real, depth: real, feedback: real, input: real, limit: real)
    requires c.Fits() && AllWithin(c.line.cells, limit) && Within(x, input) && Stable(input, feedback, limit)
    ensures Within(CombOut(c, sin, depth), limit)
    ensures AllWithin(CombMoves(c, sin, x, depth, feedback).line.cells, limit)
  {
    OutStays(c, sin, depth, limit);
    RefedWithin(x, CombOut(c, sin, depth), feedback, input, limit);
  }

  lemma RefedWithin(x: real, out: real, feedback: real, input: real, limit: real)
    requires Within(x, input) && Within(out, limit) && Stable(input, feedback, limit)
    ensures Within(Refed(x, out, feedback), limit)
  {
    FedBack(x, out, feedback, input, limit);
  }

  lemma SwungWithin(pos: real, swing: real, depth: real)
    requires -1.0 <= swing <= 1.0 && 0.0 <= depth <= 0.5
    ensures Within(Swung(pos, swing, depth) - pos, 0.5)
  {
    var m := swing * depth;
    Scaled(swing, depth, 1.0);
    assert Within(m, depth);
  }

  /** With a diffusion the registry admits, a comb reads at most half a sample off its position. */
  lemma SwingIsSmall(s: Setting, pos: real, swing: real)
    requires s.Admitted() && -1.0 <= swing <= 1.0
    ensures Within(Swung(pos, swing, s.Depth()) - pos, 0.5)
  {
    SwungWithin(pos, swing, s.Depth());
  }

  lemma {:induction false} ModulatedSumStays(combs: seq<ModulatedComb>, sin: real -> real, depth: real, limit: real, k: nat)
    requires CombsFit(combs) && ModulatedWithin(combs, limit) && k <= |combs|
    ensures Within(CombSum(combs, sin, depth, k), k as real * limit)
  {
    if k > 0 {
      ModulatedSumStays(combs, sin, depth, limit, k - 1);
      OutStays(combs[k - 1], sin, depth, limit);
      Summed(CombSum(combs, sin, depth, k - 1), CombOut(combs[k - 1], sin, depth), limit, k);
    }
  }

  lemma BankStays(b: Bank, sin: real -> real, x: real, s: Setting, input: real, limit: real)
    requires b.Fits() && ModulatedWithin(b.combs, limit) && PassesWithin(b.passes, limit)
    requires Within(x, input) && 0.0 <= input && Stable(input, s.Feedback(), limit)
    ensures ModulatedWithin(After(b, sin, x, s).combs, limit) && PassesWithin(After(b, sin, x, s).passes, limit)
    ensures Within(Wet(b, sin, s), 39.0625 * limit)
  {
    forall i | 0 <= i < 8 ensures AllWithin(CombsAfter(b.combs, sin, x, s, 8)[i].line.cells, limit) {
      ModulatedStays(b.combs[i], sin, x, s.Depth(), s.Feedback(), input, limit);
    }
    ModulatedSumStays(b.combs, sin, s.Depth(), limit, 8);
    Eighth(CombSum(b.combs, sin, s.Depth(), 8), limit);
    ThroughStays(b.passes, Average(CombSum(b.combs, sin, s.Depth(), 8)), limit, 4);
    FourPasses(limit);
  }

  lemma Eighth(sum: real, limit: real)
    requires Within(sum, 8.0 * limit)
    ensures Within(Average(sum), limit)
  {
  }

  lemma FourPasses(limit: real)
    ensures Heard(limit, 4) == 39.0625 * limit
  {
    assert Heard(limit, 1) == 2.5 * limit;
    assert Heard(limit, 2) == 6.25 * limit;
    assert Heard(limit, 3) == 15.625 * limit;
  }

  lemma {:induction false} LushCourseStays(s: Setting, sin: real -> real, bs: seq<Bank>, xs: seq<real>, ys: seq<real>, n: nat,
                                           input: real, limit: real)
    requires Course(s, sin, bs, xs, ys, n) && AllWithin(xs, input) && 0.0 <= input && Stable(input, s.Feedback(), limit)
    requires bs[0].Fits() && ModulatedWithin(bs[0].combs, limit) && PassesWithin(bs[0].passes, limit)
    ensures bs[n].Fits() && ModulatedWithin(bs[n].combs, limit) && PassesWithin(bs[n].passes, limit)
  {
    if n > 0 {
      LushCourseStays(s, sin, bs, xs, ys, n - 1, input, limit);
      assert Plays(s, sin, bs, xs, ys, n - 1);
      BankStays(bs[n - 1], sin, xs[n - 1], s, input, limit);
    }
  }

  /** From silence, over a stream of any length whose samples stay within M, every comb cell stays
      within M / (1 - feedback) however the read positions swing, and the wet signal within
      39.0625 times that. */
  lemma LushReverbIsStable(s: Setting, sin: real -> real, bs: seq<Bank>, xs: seq<real>, ys: seq<real>, n: nat, input: real)
    requires s.Admitted() && Course(s, sin, bs, xs, ys, n) && AllWithin(xs, input) && 0.0 <= input
    requires bs[0].Fits() && SilentBank(bs[0])
    ensures var limit := input / (1.0 - s.Feedback());
      bs[n].Fits() && ModulatedWithin(bs[n].combs, limit) && Within(Wet(bs[n], sin, s), 39.0625 * limit)
  {
    var limit := input / (1.0 - s.Feedback());
    StableLimit(input, s.Feedback());
    forall i | 0 <= i < 4 ensures AllWithin(bs[0].passes[i].cells, 2.0 * Heard(limit, i)) {
      HeardGrows(limit, i);
    }
    LushCourseStays(s, sin, bs, xs, ys, n, input, limit);
    BankStays(bs[n], sin, 0.0, s, input, limit);
  }
}
