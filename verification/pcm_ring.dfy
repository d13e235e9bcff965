/**
 * The ring between the audio worker and an endpoint: one producer, one consumer, two cursors that
 * each carry a lap flag, and chunks that never cross the end of the buffer.
 */
module PcmRing {
  type Frame = seq<bv8>

  /** The cursors and the storage. Equal flags mean both cursors are on the same lap. */
  datatype Ring = Ring(cells: seq<Frame>, read: nat, readLap: bool, write: nat, writeLap: bool)
  {
    predicate SameLap() { readLap == writeLap }
  }

  predicate Fits(r: Ring) {
    && r.read < |r.cells| && r.write < |r.cells|
    && if r.SameLap() then r.read <= r.write else r.write <= r.read
  }

  /** The frames written and not yet read, oldest first. */
  function Contents(r: Ring): seq<Frame>
    requires Fits(r)
  {
    if r.SameLap() then r.cells[r.read..r.write] else r.cells[r.read..] + r.cells[..r.write]
  }

  /** The distance between the cursors. */
  function Filled(r: Ring): (n: nat)
    requires Fits(r)
    ensures n == |Contents(r)| && n <= |r.cells|
  {
    if r.SameLap() then r.write - r.read else r.write + (|r.cells| - r.read)
  }

  function Free(r: Ring): nat
    requires Fits(r)
  {
    |r.cells| - Filled(r)
  }

  /** How far the producer may write without a wrap, and how far the consumer may read. */
  function WriteSpan(r: Ring): nat
    requires Fits(r)
  {
    if r.SameLap() then |r.cells| - r.write else r.read - r.write
  }

  function ReadSpan(r: Ring): nat
    requires Fits(r)
  {
    if r.SameLap() then r.write - r.read else |r.cells| - r.read
  }

  function CommitWrite(r: Ring, n: nat): Ring
    requires r.write + n <= |r.cells|
  {
    if r.write + n == |r.cells| then r.(write := 0, writeLap := !r.writeLap) else r.(write := r.write + n)
  }

  function CommitRead(r: Ring, n: nat): Ring
    requires r.read + n <= |r.cells|
  {
    if r.read + n == |r.cells| then r.(read := 0, readLap := !r.readLap) else r.(read := r.read + n)
  }

  function Put(r: Ring, i: nat, f: Frame): Ring
    requires r.write + i < |r.cells|
  {
    r.(cells := r.cells[r.write + i := f])
  }

  /** The first n frames of data in front of the write cursor. */
  function PutAll(r: Ring, data: seq<Frame>, n: nat): Ring
    requires n <= |data| && r.write + n <= |r.cells|
  {
    r.(cells := r.cells[..r.write] + data[..n] + r.cells[r.write + n..])
  }

  lemma PutNext(r: Ring, data: seq<Frame>, i: nat)
    requires i < |data| && r.write + i < |r.cells|
    ensures Put(PutAll(r, data, i), i, data[i]) == PutAll(r, data, i + 1)
  {
  }

  lemma StillFits(r: Ring, data: seq<Frame>, i: nat)
    requires Fits(r) && i <= WriteSpan(r) && i <= |data|
    ensures Fits(PutAll(r, data, i)) && WriteSpan(PutAll(r, data, i)) == WriteSpan(r)
  {
  }

  lemma ChunkWritten(r: Ring, data: seq<Frame>, n: nat)
    requires Fits(r) && n <= WriteSpan(r) && n <= |data|
    ensures Fits(CommitWrite(PutAll(r, data, n), n))
    ensures Contents(CommitWrite(PutAll(r, data, n), n)) == Contents(r) + data[..n]
  {
    var q := PutAll(r, data, n);
    assert q.cells[q.write..q.write + n] == data[..n];
    assert Contents(q) == Contents(r);
    CommitWriteAppends(q, n);
  }

  lemma Grows(cells: seq<Frame>, from: nat, upto: nat, n: nat)
    requires from <= upto && upto + n <= |cells|
    ensures cells[from..upto] + cells[upto..upto + n] == cells[from..upto + n]
  {
  }

  /** Committing appends what was put in front of the write cursor. */
  lemma CommitWriteAppends(r: Ring, n: nat)
    requires Fits(r) && n <= WriteSpan(r)
    ensures Fits(CommitWrite(r, n))
    ensures Contents(CommitWrite(r, n)) == Contents(r) + r.cells[r.write..r.write + n]
  {
    if r.SameLap() {
      Grows(r.cells, r.read, r.write, n);
      if r.write + n == |r.cells| {
        assert r.cells[r.read..] + r.cells[..0] == r.cells[r.read..r.write + n];
      }
    } else {
      Grows(r.cells, 0, r.write, n);
      Regrouped(r.cells[r.read..], r.cells[..r.write], r.cells[..r.write] + r.cells[r.write..r.write + n], r.cells[r.write..r.write + n]);
    }
  }

  lemma Drops(cells: seq<Frame>, from: nat, upto: nat, n: nat)
    requires from + n <= upto <= |cells|
    ensures cells[from..upto][n..] == cells[from + n..upto] && cells[from..upto][..n] == cells[from..from + n]
  {
  }

  /** Committing a read drops the oldest frames, which are the ones in front of the read cursor. */
  lemma CommitReadDrops(r: Ring, n: nat)
    requires Fits(r) && n <= ReadSpan(r)
    ensures Fits(CommitRead(r, n)) && n <= |Contents(r)|
    ensures Contents(CommitRead(r, n)) == Contents(r)[n..] && Contents(r)[..n] == r.cells[r.read..r.read + n]
  {
    if r.SameLap() {
      Drops(r.cells, r.read, r.write, n);
    } else {
      CommitReadAcross(r, n);
    }
  }

  lemma CommitReadAcross(r: Ring, n: nat)
    requires Fits(r) && n <= ReadSpan(r) && !r.SameLap()
    ensures Contents(CommitRead(r, n)) == Contents(r)[n..] && Contents(r)[..n] == r.cells[r.read..r.read + n]
  {
    var a, b := r.cells[r.read..], r.cells[..r.write];
    assert a[n..] == r.cells[r.read + n..] && a[..n] == r.cells[r.read..r.read + n];
    DropsFront(a, b, n);
    assert r.read + n == |r.cells| ==> a[n..] + b == b;
  }

  lemma DropsFront(a: seq<Frame>, b: seq<Frame>, n: nat)
    requires n <= |a|
    ensures (a + b)[n..] == a[n..] + b && (a + b)[..n] == a[..n]
  {
  }

  /** The producer's stores never touch what the consumer may still read. */
  lemma PutIsInvisible(r: Ring, i: nat, f: Frame)
    requires Fits(r) && i < WriteSpan(r)
    ensures Fits(Put(r, i, f)) && Contents(Put(r, i, f)) == Contents(r)
    ensures Put(r, i, f).cells[r.read..r.read + ReadSpan(r)] == r.cells[r.read..r.read + ReadSpan(r)]
  {
  }

  /** As long as anything is free, the producer can write something now, and after a wrap all of
      what was free; and the other way around. */
  lemma SpansSuffice(r: Ring)
    requires Fits(r)
    ensures 0 < Free(r) ==> 0 < WriteSpan(r)
    ensures WriteSpan(r) < Free(r) ==> r.SameLap()
    ensures r.write == 0 ==> Free(r) <= WriteSpan(r)
    ensures 0 < Filled(r) ==> 0 < ReadSpan(r)
    ensures ReadSpan(r) < Filled(r) ==> !r.SameLap()
    ensures r.read == 0 ==> Filled(r) <= ReadSpan(r)
  {
  }

  lemma Appended(before: seq<Frame>, data: seq<Frame>, n: nat, more: nat, chunk: seq<Frame>)
    requires n + more <= |data| && more <= |chunk| && chunk[..more] == data[n..n + more]
    ensures before + data[..n] + chunk[..more] == before + data[..n + more]
  {
    assert data[..n] + data[n..n + more] == data[..n + more];
  }

  lemma Regrouped(got: seq<Frame>, chunk: seq<Frame>, before: seq<Frame>, after: seq<Frame>)
    requires before == chunk + after
    ensures got + before == (got + chunk) + after
  {
  }

  function Min(a: nat, b: nat): nat {
    if a < b then a else b
  }

  // ---------- The buffer used from one thread at a time ----------

  class PcmRingBuffer {
    const cells: array<Frame>
    var read: nat
    var readLap: bool
    var write: nat
    var writeLap: bool

    constructor (frames: nat)
      requires 0 < frames
      ensures fresh(cells) && Valid() && cells.Length == frames && Contents(Value()) == []
    {
      cells := new Frame[frames](i => []);
      read, readLap, write, writeLap := 0, false, 0, false;
    }

    ghost function Value(): Ring
      reads this, cells
    {
      Ring(cells[..], read, readLap, write, writeLap)
    }

    ghost predicate Valid()
      reads this, cells
    {
      Fits(Value())
    }

    method AvailableWrite() returns (n: nat)
      requires Valid()
      ensures n == Free(Value())
    {
      if readLap == writeLap {
        n := cells.Length - (write - read);
      } else {
        n := cells.Length - (write + (cells.Length - read));
      }
    }

    method AvailableRead() returns (n: nat)
      requires Valid()
      ensures n == Filled(Value())
    {
      if readLap == writeLap {
        n := write - read;
      } else {
        n := write + (cells.Length - read);
      }
    }

    method AcquireWrite(want: nat) returns (n: nat)
      requires Valid()
      ensures n == Min(want, WriteSpan(Value()))
    {
      var span := if readLap == writeLap then cells.Length - write else read - write;
      n := if want > span then span else want;
    }

    method CommitWritten(n: nat)
      requires Valid() && n <= WriteSpan(Value())
      modifies this`write, this`writeLap
      ensures Value() == CommitWrite(old(Value()), n)
    {
      write := write + n;
      if write == cells.Length {
        write, writeLap := 0, !writeLap;
      }
    }

    method AcquireRead(want: nat) returns (n: nat)
      requires Valid()
      ensures n == Min(want, ReadSpan(Value()))
    {
      var span := if readLap == writeLap then write - read else cells.Length - read;
      n := if want > span then span else want;
    }

    method CommitReading(n: nat)
      requires Valid() && n <= ReadSpan(Value())
      modifies this`read, this`readLap
      ensures Value() == CommitRead(old(Value()), n)
    {
      read := read + n;
      if read == cells.Length {
        read, readLap := 0, !readLap;
      }
    }

    /** One frame of the copy into an acquired chunk. */
    method Store(i: nat, f: Frame)
      requires Fits(Value()) && i < WriteSpan(Value())
      modifies cells
      ensures Value() == Put(old(Value()), i, f)
    {
      cells[write + i] := f;
    }

    method CopyIn(data: seq<Frame>, n: nat)
      requires Valid() && n <= |data| && n <= WriteSpan(Value())
      modifies cells
      ensures Value() == PutAll(old(Value()), data, n)
    {
      ghost var r := Value();
      assert PutAll(r, data, 0) == r;
      for i := 0 to n
        invariant Value() == PutAll(r, data, i)
      {
        PutNext(r, data, i);
        StillFits(r, data, i);
        Store(i, data[i]);
      }
    }

    /** One contiguous chunk. */
    method WriteChunk(data: seq<Frame>) returns (n: nat)
      requires Valid()
      modifies this`write, this`writeLap, cells
      ensures Valid() && n == Min(|data|, WriteSpan(old(Value()))) && Contents(Value()) == old(Contents(Value())) + data[..n]
    {
      n := AcquireWrite(|data|);
      ChunkWritten(Value(), data, n);
      StillFits(Value(), data, n);
      CopyIn(data, n);
      CommitWritten(n);
    }

    method ReadChunk(want: nat) returns (got: seq<Frame>)
      requires Valid()
      modifies this`read, this`readLap
      ensures Valid() && |got| == Min(want, ReadSpan(old(Value())))
      ensures old(Contents(Value())) == got + Contents(Value())
    {
      var n := AcquireRead(want);
      got := cells[read..read + n];
      CommitReadDrops(Value(), n);
      CommitReading(n);
    }

    /** Writing takes as many frames as were free, in order, in at most two chunks. */
    method Write(data: seq<Frame>) returns (n: nat)
      requires Valid()
      modifies this`write, this`writeLap, cells
      ensures Valid() && n == Min(|data|, Free(old(Value()))) && Contents(Value()) == old(Contents(Value())) + data[..n]
    {
      var free := AvailableWrite();
      var remaining: nat := if |data| < free then |data| else free;
      n := 0;
      ghost var before := Contents(Value());
      while remaining > 0
        invariant n + remaining == Min(|data|, Free(old(Value()))) && Written(before, data, n, remaining)
      {
        var actual := WriteNext(before, data, n, remaining);
        n := n + actual;
        remaining := remaining - actual;
      }
    }

    /** While a call runs: the first n frames are in, and what remains still fits. */
    ghost predicate Written(before: seq<Frame>, data: seq<Frame>, n: nat, remaining: nat)
      reads this, cells
    {
      Valid() && n + remaining <= |data| && remaining <= Free(Value()) && Contents(Value()) == before + data[..n]
    }

    method WriteNext(ghost before: seq<Frame>, data: seq<Frame>, n: nat, remaining: nat) returns (actual: nat)
      requires 0 < remaining && Written(before, data, n, remaining)
      modifies this`write, this`writeLap, cells
      ensures 0 < actual <= remaining && Written(before, data, n + actual, remaining - actual)
    {
      SpansSuffice(Value());
      var chunk := data[n..n + remaining];
      actual := WriteChunk(chunk);
      Appended(before, data, n, actual, chunk);
    }

    /** Reading returns as many of the oldest frames as were there. */
    method Read(want: nat) returns (got: seq<Frame>)
      requires Valid()
      modifies this`read, this`readLap
      ensures Valid() && |got| == Min(want, Filled(old(Value()))) && old(Contents(Value())) == got + Contents(Value())
    {
      var filled := AvailableRead();
      var remaining: nat := if want < filled then want else filled;
      got := [];
      while remaining > 0
        invariant Valid() && |got| + remaining == Min(want, Filled(old(Value()))) && remaining <= Filled(Value())
        invariant old(Contents(Value())) == got + Contents(Value())
      {
        SpansSuffice(Value());
        ghost var before := Contents(Value());
        var chunk := ReadChunk(remaining);
        Regrouped(got, chunk, before, Contents(Value()));
        got := got + chunk;
        remaining := remaining - |chunk|;
      }
    }
  }
}
