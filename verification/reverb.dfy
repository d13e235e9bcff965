/** The reverb: parallel damped combs, averaged, through all-passes in series. */
module Reverb {
  import opened AllPasses
  import opened DelayLines
  import opened SampleBounds

  // ---------- One comb ----------

  datatype Setting = Setting(roomSize: real, damping: real, mix: real)
  {
    function Feedback(): real { 0.7 + 0.2 * roomSize }

    /** What the registry admits. */
    predicate Admitted() { 0.1 <= roomSize <= 1.0 && 0.0 <= damping <= 1.0 && 0.0 <= mix <= 1.0 }
  }

  /** What a comb stores: the fed-back sample, low-passed with what it put out. */
  function CombStores(x: real, out: real, feedback: real, damping: real): real {
    out * damping + (x + out * feedback) * (1.0 - damping)
  }

  function CombNext(l: Line, x: real, s: Setting): Line
    requires l.Fits()
  {
    l.Put(CombStores(x, l.Oldest(), s.Feedback(), s.damping))
  }

  /** On a stream a comb is a recurrence over its whole length, with loop gain
      damping + (1 - damping) * feedback. */
  lemma CombIsRecurrence(l: Line, ws: seq<real>, x: real, s: Setting)
    requires l.Fits() && Remembers(l.cells, l.pos, ws)
    ensures var past := Past(ws, |ws|, |l.cells|); var next := CombNext(l, x, s);
      && l.Oldest() == past
      && Remembers(next.cells, next.pos, ws + [CombStores(x, past, s.Feedback(), s.damping)])
      && CombStores(x, past, s.Feedback(), s.damping)
         == x * (1.0 - s.damping) + past * (s.damping + (1.0 - s.damping) * s.Feedback())
  {
    var past := Past(ws, |ws|, |l.cells|);
    OldestIsPast(l, ws, CombStores(x, past, s.Feedback(), s.damping));
    LoopGain(x, past, s.Feedback(), s.damping);
  }

  lemma LoopGain(x: real, past: real, f: real, d: real)
    ensures CombStores(x, past, f, d) == x * (1.0 - d) + past * (d + (1.0 - d) * f)
  {
  }

  lemma CombStays(l: Line, x: real, s: Setting, input: real, limit: real)
    requires l.Fits() && AllWithin(l.cells, limit) && Within(x, input)
    requires Stable(input, s.Feedback(), limit) && 0.0 <= s.damping <= 1.0
    ensures Within(l.Oldest(), limit) && AllWithin(CombNext(l, x, s).cells, limit)
  {
    DampedWithin(x, l.Oldest(), s.Feedback(), s.damping, input, limit);
  }

  lemma DampedWithin(x: real, out: real, f: real, d: real, input: real, limit: real)
    requires Within(out, limit) && Within(x, input) && Stable(input, f, limit) && 0.0 <= d <= 1.0
    ensures Within(CombStores(x, out, f, d), limit)
  {
    FedBack(x, out, f, input, limit);
    Blended(out, x + out * f, d, limit);
  }

  // ---------- The banks ----------

  /** The first k combs have moved on. */
  function CombsAfter(combs: seq<Line>, x: real, s: Setting, k: nat): (r: seq<Line>)
    requires LinesFit(combs)
    ensures |r| == |combs| && LinesFit(r)
  {
    seq(|combs|, i requires 0 <= i < |combs| => if i < k then CombNext(combs[i], x, s) else combs[i])
  }

  function CombSum(combs: seq<Line>, k: nat): real
    requires LinesFit(combs) && k <= |combs|
  {
    if k == 0 then 0.0 else CombSum(combs, k - 1) + combs[k - 1].Oldest()
  }

  datatype Filters = Filters(combs: seq<Line>, passes: seq<Line>)
  {
    predicate Fits() { |combs| == 4 && |passes| == 2 && LinesFit(combs) && LinesFit(passes) }
  }

  function Average(sum: real): real {
    sum * 0.25
  }

  function Wet(f: Filters): real
    requires f.Fits()
  {
    Through(f.passes, Average(CombSum(f.combs, 4)), 2).1
  }

  function After(f: Filters, x: real, s: Setting): (r: Filters)
    requires f.Fits()
    ensures r.Fits()
  {
    Filters(CombsAfter(f.combs, x, s, 4), Through(f.passes, Average(CombSum(f.combs, 4)), 2).0)
  }

  /** The i-th sample of a stream: the filters before and after it, and what goes out. */
  ghost predicate Plays(s: Setting, fs: seq<Filters>, xs: seq<real>, ys: seq<real>, i: nat) {
    && i < |xs| && i < |ys| && i + 1 < |fs| && fs[i].Fits()
    && fs[i + 1] == After(fs[i], xs[i], s) && ys[i] == Blend(xs[i], Wet(fs[i]), s.mix)
  }

  ghost predicate Course(s: Setting, fs: seq<Filters>, xs: seq<real>, ys: seq<real>, n: nat) {
    n <= |xs| && n <= |ys| && n < |fs| && forall i :: 0 <= i < n ==> Plays(s, fs, xs, ys, i)
  }

  class ReverbProcessor {
    var setting: Setting
    var combs: seq<Line>
    var passes: seq<Line>

    constructor (setting: Setting, combSizes: seq<nat>, passSizes: seq<nat>)
      requires |combSizes| == 4 && |passSizes| == 2
      requires (forall i :: 0 <= i < 4 ==> combSizes[i] > 0) && (forall i :: 0 <= i < 2 ==> passSizes[i] > 0)
      ensures this.setting == setting && Value().Fits() && SilentFilters(Value())
      ensures forall i :: 0 <= i < 4 ==> |combs[i].cells| == combSizes[i]
      ensures forall i :: 0 <= i < 2 ==> |passes[i].cells| == passSizes[i]
    {
      this.setting := setting;
      combs := seq(4, i requires 0 <= i < 4 => Line(seq(combSizes[i], j => 0.0), 0));
      passes := seq(2, i requires 0 <= i < 2 => Line(seq(passSizes[i], j => 0.0), 0));
    }

    function Value(): Filters
      reads this
    {
      Filters(combs, passes)
    }

    /** One comb's turn. */
    method CombProcess(k: nat, input: real) returns (output: real)
      requires LinesFit(combs) && k < |combs|
      modifies this`combs
      ensures combs == old(combs)[k := CombNext(old(combs)[k], input, setting)] && output == old(combs)[k].Oldest()
    {
      var line := combs[k];
      output := line.cells[line.pos];
      var stored := CombStores(input, output, setting.Feedback(), setting.damping);
      Wraps(line.pos, |line.cells|);
      combs := combs[k := Line(line.cells[line.pos := stored], (line.pos + 1) % |line.cells|)];
    }

    method PassProcess(k: nat, input: real) returns (output: real)
      requires LinesFit(passes) && k < |passes|
      modifies this`passes
      ensures passes == old(passes)[k := PassNext(old(passes)[k], input)]
      ensures output == PassOut(input, old(passes)[k].Oldest())
    {
      var line := passes[k];
      var bufOut := line.cells[line.pos];
      output := PassOut(input, bufOut);
      Wraps(line.pos, |line.cells|);
      passes := passes[k := Line(line.cells[line.pos := PassStores(input, bufOut)], (line.pos + 1) % |line.cells|)];
    }

    method Sample(input: real) returns (output: real)
      requires Value().Fits()
      modifies this`combs, this`passes
      ensures Value() == After(old(Value()), input, setting) && output == Blend(input, Wet(old(Value())), setting.mix)
    {
      var combOut := 0.0;
      for k := 0 to |combs|
        invariant combs == CombsAfter(old(combs), input, setting, k) && combOut == CombSum(old(combs), k)
        invariant passes == old(passes)
      {
        var out := CombProcess(k, input);
        combOut := combOut + out;
      }
      var reverbOut := Average(combOut);
      for k := 0 to |passes|
        invariant (passes, reverbOut) == Through(old(passes), Average(combOut), k)
        invariant combs == CombsAfter(old(combs), input, setting, 4)
      {
        reverbOut := PassProcess(k, reverbOut);
      }
      output := Blend(input, reverbOut, setting.mix);
    }

    /** A block in place. */
    method Process(block: array<real>) returns (ghost fs: seq<Filters>)
      requires Value().Fits()
      modifies this`combs, this`passes, block
      ensures Value().Fits() && |fs| == block.Length + 1 && fs[0] == old(Value()) && fs[block.Length] == Value()
      ensures Course(setting, fs, old(block[..]), block[..], block.Length)
    {
      fs := [Value()];
      ghost var xs := block[..];
      for i := 0 to block.Length
        invariant Value().Fits() && |fs| == i + 1 && fs[0] == old(Value()) && fs[i] == Value()
        invariant block[i..] == xs[i..] && Course(setting, fs, xs, block[..], i)
      {
        assert block[i] == block[i..][0] == xs[i];
        ghost var ys := block[..];
        var output := Sample(block[i]);
        block[i] := output;
        assert block[..] == ys[i := output];
        Continues(setting, fs, xs, ys, i, Value(), output);
        fs := fs + [Value()];
      }
    }
  }

  lemma Continues(s: Setting, fs: seq<Filters>, xs: seq<real>, ys: seq<real>, n: nat, f: Filters, y: real)
    requires Course(s, fs, xs, ys, n) && |fs| == n + 1 && n < |xs| == |ys| && fs[n].Fits()
    requires f == After(fs[n], xs[n], s) && y == Blend(xs[n], Wet(fs[n]), s.mix)
    ensures Course(s, fs + [f], xs, ys[n := y], n + 1)
  {
    var gs, zs := fs + [f], ys[n := y];
    forall i | 0 <= i < n + 1 ensures Plays(s, gs, xs, zs, i) {
      if i < n {
        assert Plays(s, fs, xs, ys, i);
      }
    }
  }

  // ---------- Results ----------

  predicate SilentFilters(f: Filters) {
    (forall i :: 0 <= i < |f.combs| ==> AllWithin(f.combs[i].cells, 0.0))
    && (forall i :: 0 <= i < |f.passes| ==> AllWithin(f.passes[i].cells, 0.0))
  }

  /** What a comb stores: its oldest sample, and the input fed back with it, in the proportion of the
      damping. */
  predicate CombMoved(c: Line, c': Line, x: real, out: real, feedback: real, damping: real)
    requires c.Fits()
  {
    out == c.cells[c.pos] && Moved(c, c', out * damping + (x + out * feedback) * (1.0 - damping))
  }

  lemma StoringMoves(c: Line, x: real, out: real, feedback: real, damping: real)
    requires c.Fits() && out == c.cells[c.pos]
    ensures CombMoved(c, c.Put(CombStores(x, out, feedback, damping)), x, out, feedback, damping)
  {
    PutMoves(c, CombStores(x, out, feedback, damping));
  }

  lemma CombsMoved(f: Filters, x: real, s: Setting, feedback: real, k: nat)
    requires f.Fits() && k < 4 && feedback == 0.7 + 0.2 * s.roomSize
    ensures CombMoved(f.combs[k], After(f, x, s).combs[k], x, f.combs[k].cells[f.combs[k].pos], feedback, s.damping)
  {
    StoringMoves(f.combs[k], x, f.combs[k].Oldest(), s.Feedback(), s.damping);
    assert s.Feedback() == feedback;
    assert After(f, x, s).combs[k] == CombNext(f.combs[k], x, s);
  }

  /** The four combs' oldest samples averaged, through two all-passes; and what these store. */
  predicate Heard4(f: Filters, passes: seq<Line>, wet: real)
    requires f.Fits() && |passes| == 2
  {
    var c, a := f.combs, f.passes;
    var average := (c[0].cells[c[0].pos] + c[1].cells[c[1].pos] + c[2].cells[c[2].pos] + c[3].cells[c[3].pos]) / 4.0;
    var first := a[0].cells[a[0].pos] - average / 2.0;
    && wet == a[1].cells[a[1].pos] - first / 2.0
    && Moved(a[0], passes[0], average + a[0].cells[a[0].pos] / 2.0)
    && Moved(a[1], passes[1], first + a[1].cells[a[1].pos] / 2.0)
  }

  /** One sample written out: the wet signal, the mix, and what each filter stores. */
  lemma SampleIs(s: Setting, fs: seq<Filters>, xs: seq<real>, ys: seq<real>, n: nat, i: nat, feedback: real) returns (wet: real)
    requires Course(s, fs, xs, ys, n) && i < n && feedback == 0.7 + 0.2 * s.roomSize
    ensures fs[i].Fits() && fs[i + 1].Fits()
    ensures Heard4(fs[i], fs[i + 1].passes, wet) && IsMix(ys[i], xs[i], wet, s.mix)
    ensures forall k :: 0 <= k < 4 ==> var c := fs[i].combs[k];
      CombMoved(c, fs[i + 1].combs[k], xs[i], c.cells[c.pos], feedback, s.damping)
  {
    assert Plays(s, fs, xs, ys, i);
    wet := Wet(fs[i]);
    forall k | 0 <= k < 4
      ensures var c := fs[i].combs[k]; CombMoved(c, fs[i + 1].combs[k], xs[i], c.cells[c.pos], feedback, s.damping)
    {
      CombsMoved(fs[i], xs[i], s, feedback, k);
    }
    WetIs(fs[i], xs[i], s);
    BlendIsMix(xs[i], wet, s.mix);
  }

  lemma WetIs(f: Filters, x: real, s: Setting)
    requires f.Fits()
    ensures Heard4(f, After(f, x, s).passes, Wet(f))
  {
    FourSummed(f.combs);
    PassIs(f.passes, Average(CombSum(f.combs, 4)), 0);
    PassIs(f.passes, Average(CombSum(f.combs, 4)), 1);
  }

  lemma FourSummed(c: seq<Line>)
    requires |c| == 4 && LinesFit(c)
    ensures CombSum(c, 4) == c[0].cells[c[0].pos] + c[1].cells[c[1].pos] + c[2].cells[c[2].pos] + c[3].cells[c[3].pos]
  {
    assert CombSum(c, 0) == 0.0;
    assert CombSum(c, 1) == CombSum(c, 0) + c[0].Oldest();
    assert CombSum(c, 2) == CombSum(c, 1) + c[1].Oldest();
    assert CombSum(c, 3) == CombSum(c, 2) + c[2].Oldest();
    assert CombSum(c, 4) == CombSum(c, 3) + c[3].Oldest();
  }

  /** Consecutive blocks are one stream. */
  lemma BlocksJoin(s: Setting, fs: seq<Filters>, xs: seq<real>, ys: seq<real>, gs: seq<Filters>, us: seq<real>, vs: seq<real>)
    requires Course(s, fs, xs, ys, |xs|) && Course(s, gs, us, vs, |us|) && fs[|xs|] == gs[0]
    requires |fs| == |xs| + 1 && |ys| == |xs|
    ensures Course(s, fs + gs[1..], xs + us, ys + vs, |xs| + |us|)
  {
    var n := |xs|;
    var hs, ws, zs := fs + gs[1..], xs + us, ys + vs;
    forall i | 0 <= i < n + |us| ensures Plays(s, hs, ws, zs, i) {
      if i < n {
        assert Plays(s, fs, xs, ys, i);
      } else {
        assert Plays(s, gs, us, vs, i - n);
      }
    }
  }

  predicate CombsWithin(combs: seq<Line>, limit: real) {
    forall i :: 0 <= i < |combs| ==> AllWithin(combs[i].cells, limit)
  }

  lemma {:induction false} SumStays(combs: seq<Line>, limit: real, k: nat)
    requires LinesFit(combs) && CombsWithin(combs, limit) && k <= |combs|
    ensures Within(CombSum(combs, k), k as real * limit)
  {
    if k > 0 {
      SumStays(combs, limit, k - 1);
      assert Within(combs[k - 1].Oldest(), limit);
      Summed(CombSum(combs, k - 1), combs[k - 1].Oldest(), limit, k);
    }
  }

  lemma CombsStay(combs: seq<Line>, x: real, s: Setting, input: real, limit: real)
    requires LinesFit(combs) && CombsWithin(combs, limit) && Within(x, input)
    requires Stable(input, s.Feedback(), limit) && 0.0 <= s.damping <= 1.0
    ensures CombsWithin(CombsAfter(combs, x, s, |combs|), limit)
  {
    forall i | 0 <= i < |combs| ensures AllWithin(CombsAfter(combs, x, s, |combs|)[i].cells, limit) {
      CombStays(combs[i], x, s, input, limit);
    }
  }

  lemma SampleStays(f: Filters, x: real, s: Setting, input: real, limit: real)
    requires f.Fits() && CombsWithin(f.combs, limit) && PassesWithin(f.passes, limit)
    requires Within(x, input) && Stable(input, s.Feedback(), limit) && 0.0 <= s.damping <= 1.0
    ensures CombsWithin(After(f, x, s).combs, limit) && PassesWithin(After(f, x, s).passes, limit)
    ensures Within(Wet(f), 6.25 * limit)
  {
    CombsStay(f.combs, x, s, input, limit);
    SumStays(f.combs, limit, 4);
    Quarter(CombSum(f.combs, 4), limit);
    ThroughStays(f.passes, Average(CombSum(f.combs, 4)), limit, 2);
    assert Heard(limit, 2) == 2.5 * Heard(limit, 1) == 2.5 * (2.5 * limit);
  }

  lemma Quarter(sum: real, limit: real)
    requires Within(sum, 4.0 * limit)
    ensures Within(Average(sum), limit)
  {
  }

  lemma {:induction false} CourseStays(s: Setting, fs: seq<Filters>, xs: seq<real>, ys: seq<real>, n: nat, input: real, limit: real)
    requires Course(s, fs, xs, ys, n) && AllWithin(xs, input) && Stable(input, s.Feedback(), limit) && 0.0 <= s.damping <= 1.0
    requires fs[0].Fits() && CombsWithin(fs[0].combs, limit) && PassesWithin(fs[0].passes, limit)
    ensures fs[n].Fits() && CombsWithin(fs[n].combs, limit) && PassesWithin(fs[n].passes, limit)
  {
    if n > 0 {
      CourseStays(s, fs, xs, ys, n - 1, input, limit);
      assert Plays(s, fs, xs, ys, n - 1);
      SampleStays(fs[n - 1], xs[n - 1], s, input, limit);
    }
  }

  /** From silence, over a stream of any length whose samples stay within M, every comb cell stays
      within M / (1 - feedback) whatever the damping, and the wet signal within 6.25 times that. */
  lemma ReverbIsStable(s: Setting, fs: seq<Filters>, xs: seq<real>, ys: seq<real>, n: nat, input: real)
    requires s.Admitted() && Course(s, fs, xs, ys, n) && AllWithin(xs, input) && 0.0 <= input
    requires fs[0].Fits() && SilentFilters(fs[0])
    ensures var limit := input / (1.0 - s.Feedback());
      fs[n].Fits() && CombsWithin(fs[n].combs, limit) && Within(Wet(fs[n]), 6.25 * limit)
  {
    var limit := input / (1.0 - s.Feedback());
    StableLimit(input, s.Feedback());
    forall i | 0 <= i < 2 ensures AllWithin(fs[0].passes[i].cells, 2.0 * Heard(limit, i)) {
      HeardGrows(limit, i);
    }
    CourseStays(s, fs, xs, ys, n, input, limit);
    SampleStays(fs[n], 0.0, s, input, limit);
  }
}
