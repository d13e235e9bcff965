/** All-pass filters in series, as both reverbs end with. */
module AllPasses {
  import opened DelayLines
  import opened SampleBounds

  function PassOut(x: real, past: real): real {
    -0.5 * x + past
  }

  function PassStores(x: real, past: real): real {
    x + 0.5 * past
  }

  function PassNext(l: Line, x: real): Line
    requires l.Fits()
  {
    l.Put(PassStores(x, l.Oldest()))
  }

  lemma PassIsRecurrence(l: Line, ws: seq<real>, x: real)
    requires l.Fits() && Remembers(l.cells, l.pos, ws)
    ensures var past := Past(ws, |ws|, |l.cells|); var next := PassNext(l, x);
      l.Oldest() == past && Remembers(next.cells, next.pos, ws + [PassStores(x, past)])
  {
    OldestIsPast(l, ws, PassStores(x, Past(ws, |ws|, |l.cells|)));
  }

  /** The i-th all-pass hears at most this. */
  function Heard(limit: real, i: nat): real {
    if i == 0 then limit else 2.5 * Heard(limit, i - 1)
  }

  /** An all-pass that hears at most r stores at most 2 r and puts out at most 2.5 r. */
  lemma PassStays(l: Line, x: real, r: real)
    requires l.Fits() && AllWithin(l.cells, 2.0 * r) && Within(x, r)
    ensures AllWithin(PassNext(l, x).cells, 2.0 * r) && Within(PassOut(x, l.Oldest()), 2.5 * r)
  {
  }

  predicate LinesFit(lines: seq<Line>) {
    forall i :: 0 <= i < |lines| ==> lines[i].Fits()
  }

  /** The sample after the first k all-passes, and the all-passes. */
  function Through(passes: seq<Line>, x: real, k: nat): (r: (seq<Line>, real))
    requires LinesFit(passes) && k <= |passes|
    ensures |r.0| == |passes| && LinesFit(r.0) && forall i :: k <= i < |passes| ==> r.0[i] == passes[i]
  {
    if k == 0 then (passes, x)
    else
      var (ls, y) := Through(passes, x, k - 1);
      (ls[k - 1 := PassNext(ls[k - 1], y)], PassOut(y, ls[k - 1].Oldest()))
  }

  /** A line has stored a sample where it read, and moved on by one cell. */
  predicate Moved(l: Line, l': Line, w: real)
    requires l.Fits()
  {
    l'.cells == l.cells[l.pos := w] && l'.pos == (l.pos + 1) % |l.cells|
  }

  lemma PutMoves(l: Line, w: real)
    requires l.Fits()
    ensures Moved(l, l.Put(w), w)
  {
    Wraps(l.pos, |l.cells|);
  }

  /** The k-th all-pass puts out its oldest sample less half of what it hears, and stores what it hears
      and half of its oldest sample. */
  lemma PassIs(a: seq<Line>, x: real, k: nat)
    requires LinesFit(a) && k < |a|
    ensures var (before, y) := Through(a, x, k); var (after, z) := Through(a, x, k + 1);
      && before[k] == a[k] && z == a[k].cells[a[k].pos] - y / 2.0
      && Moved(a[k], after[k], y + a[k].cells[a[k].pos] / 2.0)
      && forall j :: 0 <= j < |a| && j != k ==> after[j] == before[j]
  {
    var (before, y) := Through(a, x, k);
    PutMoves(a[k], PassStores(y, a[k].Oldest()));
  }

  function Blend(x: real, wet: real, mix: real): real {
    x * (1.0 - mix) + wet * mix
  }

  /** The dry and the wet signal in the proportion of the mix. */
  predicate IsMix(y: real, x: real, wet: real, mix: real) {
    y == x * (1.0 - mix) + wet * mix
  }

  lemma BlendIsMix(x: real, wet: real, mix: real)
    ensures IsMix(Blend(x, wet, mix), x, wet, mix)
  {
  }

  predicate PassesWithin(passes: seq<Line>, limit: real) {
    forall i :: 0 <= i < |passes| ==> AllWithin(passes[i].cells, 2.0 * Heard(limit, i))
  }

  lemma {:induction false} ThroughStays(passes: seq<Line>, x: real, limit: real, k: nat)
    requires LinesFit(passes) && PassesWithin(passes, limit) && Within(x, limit) && k <= |passes|
    ensures PassesWithin(Through(passes, x, k).0, limit) && Within(Through(passes, x, k).1, Heard(limit, k))
  {
    if k > 0 {
      ThroughStays(passes, x, limit, k - 1);
      var (ls, y) := Through(passes, x, k - 1);
      PassStays(ls[k - 1], y, Heard(limit, k - 1));
    }
  }

  lemma {:induction false} HeardGrows(limit: real, i: nat)
    requires 0.0 <= limit
    ensures limit <= Heard(limit, i)
  {
    if i > 0 {
      HeardGrows(limit, i - 1);
    }
  }
}
