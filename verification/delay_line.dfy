/** Circular delay lines: a write position that advances by one and wraps by remainder. */
module DelayLines {
  function NextPos(pos: nat, size: nat): (p: nat)
    requires pos < size
    ensures p < size
  {
    if pos + 1 == size then 0 else pos + 1
  }

  lemma Wraps(pos: nat, size: nat)
    requires pos < size
    ensures (pos + 1) % size == NextPos(pos, size)
  {
  }

  /** The cell a places behind pos. */
  function Back(pos: nat, a: nat, size: nat): (i: nat)
    requires pos < size && 1 <= a <= size
    ensures i < size
  {
    if a <= pos then pos - a else pos + size - a
  }

  /** What was written a samples ago, silence before the beginning. */
  function Past(ws: seq<real>, n: nat, a: nat): real
    requires n <= |ws|
  {
    if 1 <= a <= n then ws[n - a] else 0.0
  }

  /** The buffer holds the last samples written. */
  ghost predicate Remembers(cells: seq<real>, pos: nat, ws: seq<real>) {
    pos < |cells| && forall a :: 1 <= a <= |cells| ==> cells[Back(pos, a, |cells|)] == Past(ws, |ws|, a)
  }

  lemma Stored(cells: seq<real>, pos: nat, ws: seq<real>, w: real)
    requires Remembers(cells, pos, ws)
    ensures Remembers(cells[pos := w], NextPos(pos, |cells|), ws + [w])
  {
    var size := |cells|;
    var next := NextPos(pos, size);
    forall a | 1 <= a <= size ensures cells[pos := w][Back(next, a, size)] == Past(ws + [w], |ws| + 1, a) {
      if a > 1 {
        assert Back(next, a, size) == Back(pos, a - 1, size);
        assert cells[Back(pos, a - 1, size)] == Past(ws, |ws|, a - 1);
      }
    }
  }

  /** A delay line that is read where it is written next, so its delay is its whole length. */
  datatype Line = Line(cells: seq<real>, pos: nat)
  {
    predicate Fits() { pos < |cells| }

    function Oldest(): real
      requires Fits()
    {
      cells[pos]
    }

    function Put(w: real): (l: Line)
      requires Fits()
      ensures l.Fits() && |l.cells| == |cells|
    {
      Line(cells[pos := w], NextPos(pos, |cells|))
    }
  }

  /** What the line returns is what was written a whole length ago. */
  lemma OldestIsPast(l: Line, ws: seq<real>, w: real)
    requires l.Fits() && Remembers(l.cells, l.pos, ws)
    ensures l.Oldest() == Past(ws, |ws|, |l.cells|)
    ensures Remembers(l.Put(w).cells, l.Put(w).pos, ws + [w])
  {
    assert Back(l.pos, |l.cells|, |l.cells|) == l.pos;
    Stored(l.cells, l.pos, ws, w);
  }
}
