/**
 * One producer and one consumer on a PCM ring at the same time. Each cursor is stored only by its
 * owner, so every part of a call that loads the other side's cursor is one atomic step at that
 * load; frames are copied one by one in between.
 */
module RingProtocol {
  import opened PcmRing

  /** A write in progress: `done` frames committed, `remaining` to go. `free` is what the call saw
      on entry, `chunks` counts the chunks acquired so far. */
  datatype WriteCall = WriteCall(data: seq<Frame>, free: nat, done: nat, remaining: nat, chunks: nat)

  datatype Producer =
    | NotWriting
    | Write(call: WriteCall)                             // at the head of the loop
    | Filling(call: WriteCall, actual: nat, copied: nat) // a chunk is acquired

  datatype ReadCall = ReadCall(want: nat, filled: nat, got: seq<Frame>, remaining: nat, chunks: nat)

  datatype Consumer =
    | NotReading
    | Read(call: ReadCall)
    | Draining(call: ReadCall, actual: nat, part: seq<Frame>)

  /** Finished calls, in order. */
  datatype Wrote = Wrote(data: seq<Frame>, free: nat, count: nat)
  datatype Got = Got(want: nat, filled: nat, frames: seq<Frame>)

  datatype State = State(ring: Ring, producer: Producer, consumer: Consumer, finishedWrites: seq<Wrote>, finishedReads: seq<Got>)

  datatype Action = BeginWrite(data: seq<Frame>) | WriteStep | BeginRead(want: nat) | ReadStep

  // ---------- The steps ----------

  function BeginWriting(r: Ring, data: seq<Frame>): Producer
    requires Fits(r)
  {
    Write(WriteCall(data, Free(r), 0, Min(|data|, Free(r)), 0))
  }

  /** Acquiring a chunk; a call that is done, or finds nothing to acquire, returns. */
  function Acquire(r: Ring, c: WriteCall): Producer
    requires Fits(r)
  {
    var actual := Min(c.remaining, WriteSpan(r));
    if actual == 0 then NotWriting else Filling(c.(chunks := c.chunks + 1), actual, 0)
  }

  function ProducerStep(s: State): State
    requires Fits(s.ring) && ProducerFits(s.ring, s.producer)
  {
    match s.producer
    case NotWriting => s
    case Write(c) =>
      var p := Acquire(s.ring, c);
      if p.NotWriting? then s.(producer := p, finishedWrites := s.finishedWrites + [Wrote(c.data, c.free, c.done)]) else s.(producer := p)
    case Filling(c, actual, copied) =>
      if copied < actual then
        s.(ring := Put(s.ring, copied, c.data[c.done + copied]), producer := Filling(c, actual, copied + 1))
      else
        s.(ring := CommitWrite(s.ring, actual),
           producer := Write(c.(done := c.done + actual, remaining := c.remaining - actual)))
  }

  function BeginReading(r: Ring, want: nat): Consumer
    requires Fits(r)
  {
    Read(ReadCall(want, Filled(r), [], Min(want, Filled(r)), 0))
  }

  function ConsumerStep(s: State): State
    requires Fits(s.ring) && ConsumerFits(s.ring, s.consumer)
  {
    match s.consumer
    case NotReading => s
    case Read(c) =>
      var actual := Min(c.remaining, ReadSpan(s.ring));
      if actual == 0 then s.(consumer := NotReading, finishedReads := s.finishedReads + [Got(c.want, c.filled, c.got)])
      else s.(consumer := Draining(c.(chunks := c.chunks + 1), actual, []))
    case Draining(c, actual, part) =>
      if |part| < actual then s.(consumer := Draining(c, actual, part + [s.ring.cells[s.ring.read + |part|]]))
      else
        s.(ring := CommitRead(s.ring, actual),
           consumer := Read(c.(got := c.got + part, remaining := c.remaining - actual)))
  }

  predicate Shaped(s: State) {
    Fits(s.ring) && ProducerFits(s.ring, s.producer) && ConsumerFits(s.ring, s.consumer)
  }

  /** One step of either side; shaped states are the only ones that occur. */
  function Step(s: State, a: Action): State {
    if !Shaped(s) then s else
    match a
    case BeginWrite(data) => if s.producer.NotWriting? then s.(producer := BeginWriting(s.ring, data)) else s
    case WriteStep => ProducerStep(s)
    case BeginRead(want) => if s.consumer.NotReading? then s.(consumer := BeginReading(s.ring, want)) else s
    case ReadStep => ConsumerStep(s)
  }

  // ---------- What went in and what came out ----------

  function Accepted(ws: seq<Wrote>): seq<Frame> {
    if ws == [] then [] else
      var w := ws[|ws| - 1];
      Accepted(ws[..|ws| - 1]) + w.data[..Min(w.count, |w.data|)]
  }

  function Delivered(rs: seq<Got>): seq<Frame> {
    if rs == [] then [] else Delivered(rs[..|rs| - 1]) + rs[|rs| - 1].frames
  }

  /** Frames that the producer has committed, the current call's included. */
  function In(s: State): seq<Frame> {
    match s.producer
    case NotWriting => Accepted(s.finishedWrites)
    case Write(c) => Accepted(s.finishedWrites) + c.data[..Min(c.done, |c.data|)]
    case Filling(c, _, _) => Accepted(s.finishedWrites) + c.data[..Min(c.done, |c.data|)]
  }

  function Out(s: State): seq<Frame> {
    match s.consumer
    case NotReading => Delivered(s.finishedReads)
    case Read(c) => Delivered(s.finishedReads) + c.got
    case Draining(c, _, _) => Delivered(s.finishedReads) + c.got
  }

  // ---------- The invariant ----------

  predicate WriteFits(r: Ring, c: WriteCall)
    requires Fits(r)
  {
    c.done + c.remaining == Min(|c.data|, c.free) && c.remaining <= Free(r)
  }

  predicate Copied(cells: seq<Frame>, at: nat, data: seq<Frame>, from: nat, n: nat) {
    at + n <= |cells| && from + n <= |data| && forall k {:trigger cells[k]} :: at <= k < at + n ==> cells[k] == data[from + (k - at)]
  }

  lemma CopiedSlice(cells: seq<Frame>, at: nat, data: seq<Frame>, from: nat, n: nat)
    requires Copied(cells, at, data, from, n)
    ensures cells[at..at + n] == data[from..from + n]
  {
    var a, b := cells[at..at + n], data[from..from + n];
    forall i | 0 <= i < n ensures a[i] == b[i] {
      assert a[i] == cells[at + i];
    }
  }

  /** Whatever the consumer did since, the acquired chunk is still free; a second chunk starts at
      the beginning of the buffer and takes all that remains. */
  predicate ProducerFits(r: Ring, p: Producer)
    requires Fits(r)
  {
    match p
    case NotWriting => true
    case Write(c) => WriteFits(r, c) && (c.chunks == 0 || c.remaining == 0 || (c.chunks == 1 && r.write == 0))
    case Filling(c, actual, copied) =>
      && WriteFits(r, c) && 0 < actual <= c.remaining && actual <= WriteSpan(r) && copied <= actual
      && Copied(r.cells, r.write, c.data, c.done, copied)
      && (c.chunks == 1 || (c.chunks == 2 && actual == c.remaining))
      && (actual < c.remaining ==> r.write + actual == |r.cells|)
  }

  predicate ReadFits(r: Ring, c: ReadCall)
    requires Fits(r)
  {
    |c.got| + c.remaining == Min(c.want, c.filled) && c.remaining <= Filled(r)
  }

  predicate ConsumerFits(r: Ring, k: Consumer)
    requires Fits(r)
  {
    match k
    case NotReading => true
    case Read(c) => ReadFits(r, c) && (c.chunks == 0 || c.remaining == 0 || (c.chunks == 1 && r.read == 0))
    case Draining(c, actual, part) =>
      && ReadFits(r, c) && 0 < actual <= c.remaining && actual <= ReadSpan(r) && |part| <= actual
      && Copied(r.cells, r.read, part, 0, |part|)
      && (c.chunks == 1 || (c.chunks == 2 && actual == c.remaining))
      && (actual < c.remaining ==> r.read + actual == |r.cells|)
  }

  predicate Exact(ws: seq<Wrote>, rs: seq<Got>) {
    && (forall i :: 0 <= i < |ws| ==> ws[i].count == Min(|ws[i].data|, ws[i].free))
    && (forall i :: 0 <= i < |rs| ==> |rs[i].frames| == Min(rs[i].want, rs[i].filled))
  }

  ghost predicate Inv(s: State) {
    && Shaped(s)
    && In(s) == Out(s) + Contents(s.ring)
    && Exact(s.finishedWrites, s.finishedReads)
  }

  lemma PutFills(r: Ring, c: WriteCall, actual: nat, copied: nat)
    requires Fits(r) && ProducerFits(r, Filling(c, actual, copied)) && copied < actual
    requires Fits(Put(r, copied, c.data[c.done + copied]))
    ensures ProducerFits(Put(r, copied, c.data[c.done + copied]), Filling(c, actual, copied + 1))
  {
  }

  /** A store of the producer changes nothing for the consumer. */
  lemma PutSpares(r: Ring, k: Consumer, i: nat, f: Frame)
    requires Fits(r) && ConsumerFits(r, k) && i < WriteSpan(r)
    ensures Fits(Put(r, i, f)) && Contents(Put(r, i, f)) == Contents(r) && ConsumerFits(Put(r, i, f), k)
  {
    PutIsInvisible(r, i, f);
  }

  lemma CommitWriteKeeps(r: Ring, p: Producer, k: Consumer)
    requires Fits(r) && ProducerFits(r, p) && ConsumerFits(r, k) && p.Filling? && p.copied == p.actual
    ensures var r' := CommitWrite(r, p.actual); var c := p.call;
      Fits(r') && ConsumerFits(r', k)
      && Contents(r') == Contents(r) + c.data[c.done..c.done + p.actual]
      && ProducerFits(r', Write(c.(done := c.done + p.actual, remaining := c.remaining - p.actual)))
  {
    CommitWriteAppends(r, p.actual);
    CopiedSlice(r.cells, r.write, p.call.data, p.call.done, p.actual);
  }

  lemma CommitReadKeeps(r: Ring, p: Producer, k: Consumer)
    requires Fits(r) && ProducerFits(r, p) && ConsumerFits(r, k) && k.Draining? && |k.part| == k.actual
    ensures var r' := CommitRead(r, k.actual); var c := k.call;
      Fits(r') && ProducerFits(r', p)
      && Contents(r) == k.part + Contents(r')
      && ConsumerFits(r', Read(c.(got := c.got + k.part, remaining := c.remaining - k.actual)))
  {
    CommitReadDrops(r, k.actual);
    CopiedSlice(r.cells, r.read, k.part, 0, k.actual);
  }

  lemma AcquireKeeps(r: Ring, c: WriteCall)
    requires Fits(r) && ProducerFits(r, Write(c))
    ensures ProducerFits(r, Acquire(r, c)) && (Acquire(r, c).NotWriting? <==> c.remaining == 0)
  {
    SpansSuffice(r);
  }

  lemma SameFrames(s: State, r: Ring)
    requires Inv(s) && s.producer.Filling? && s.producer.copied < s.producer.actual
    requires r == Put(s.ring, s.producer.copied, s.producer.call.data[s.producer.call.done + s.producer.copied])
    requires Fits(r) && Contents(r) == Contents(s.ring) && ConsumerFits(r, s.consumer)
    requires ProducerFits(r, Filling(s.producer.call, s.producer.actual, s.producer.copied + 1))
    ensures Inv(ProducerStep(s))
  {
  }

  lemma PutKeeps(r: Ring, c: WriteCall, actual: nat, n: nat, k: Consumer)
    requires Fits(r) && ProducerFits(r, Filling(c, actual, n)) && n < actual && ConsumerFits(r, k)
    ensures var r' := Put(r, n, c.data[c.done + n]);
      Fits(r') && Contents(r') == Contents(r) && ConsumerFits(r', k) && ProducerFits(r', Filling(c, actual, n + 1))
  {
    PutSpares(r, k, n, c.data[c.done + n]);
    PutFills(r, c, actual, n);
  }

  lemma StoreStep(s: State)
    requires Inv(s) && s.producer.Filling? && s.producer.copied < s.producer.actual
    ensures Inv(ProducerStep(s))
  {
    var c, n := s.producer.call, s.producer.copied;
    PutKeeps(s.ring, c, s.producer.actual, n, s.consumer);
    SameFrames(s, Put(s.ring, n, c.data[c.done + n]));
  }

  lemma CommitStep(s: State)
    requires Inv(s) && s.producer.Filling? && s.producer.copied == s.producer.actual
    ensures Inv(ProducerStep(s))
  {
    var c := s.producer.call;
    CommitWriteKeeps(s.ring, s.producer, s.consumer);
    Joined(Accepted(s.finishedWrites), c.data, c.done, s.producer.actual, Out(s), Contents(s.ring));
  }

  lemma AcquireStep(s: State)
    requires Inv(s) && s.producer.Write?
    ensures Inv(ProducerStep(s))
  {
    var c := s.producer.call;
    AcquireKeeps(s.ring, c);
    var w := Wrote(c.data, c.free, c.done);
    assert (s.finishedWrites + [w])[..|s.finishedWrites|] == s.finishedWrites;
  }

  lemma ProducerKeeps(s: State)
    requires Inv(s)
    ensures Inv(ProducerStep(s))
  {
    if s.producer.Write? {
      AcquireStep(s);
    } else if s.producer.Filling? {
      if s.producer.copied < s.producer.actual {
        StoreStep(s);
      } else {
        CommitStep(s);
      }
    }
  }

  lemma Joined(before: seq<Frame>, data: seq<Frame>, n: nat, more: nat, out: seq<Frame>, contents: seq<Frame>)
    requires n + more <= |data| && before + data[..n] == out + contents
    ensures before + data[..n + more] == out + (contents + data[n..n + more])
  {
    assert data[..n + more] == data[..n] + data[n..n + more];
    assert before + (data[..n] + data[n..n + more]) == (before + data[..n]) + data[n..n + more];
    assert (out + contents) + data[n..n + more] == out + (contents + data[n..n + more]);
  }

  lemma FetchFits(r: Ring, c: ReadCall, actual: nat, part: seq<Frame>)
    requires Fits(r) && ConsumerFits(r, Draining(c, actual, part)) && |part| < actual
    ensures ConsumerFits(r, Draining(c, actual, part + [r.cells[r.read + |part|]]))
  {
  }

  lemma DrainedStep(s: State)
    requires Inv(s) && s.consumer.Draining? && |s.consumer.part| == s.consumer.actual
    ensures Inv(ConsumerStep(s))
  {
    CommitReadKeeps(s.ring, s.producer, s.consumer);
    Regrouped(Out(s), s.consumer.part, Contents(s.ring), Contents(CommitRead(s.ring, s.consumer.actual)));
    assert Out(s) + s.consumer.part == Delivered(s.finishedReads) + (s.consumer.call.got + s.consumer.part);
  }

  lemma AcquireReadStep(s: State)
    requires Inv(s) && s.consumer.Read?
    ensures Inv(ConsumerStep(s))
  {
    var c := s.consumer.call;
    SpansSuffice(s.ring);
    var g := Got(c.want, c.filled, c.got);
    assert (s.finishedReads + [g])[..|s.finishedReads|] == s.finishedReads;
  }

  lemma ConsumerKeeps(s: State)
    requires Inv(s)
    ensures Inv(ConsumerStep(s))
  {
    if s.consumer.Read? {
      AcquireReadStep(s);
    } else if s.consumer.Draining? {
      if |s.consumer.part| < s.consumer.actual {
        FetchFits(s.ring, s.consumer.call, s.consumer.actual, s.consumer.part);
      } else {
        DrainedStep(s);
      }
    }
  }

  lemma BeginWriteKeeps(s: State, data: seq<Frame>)
    requires Inv(s)
    ensures Inv(Step(s, BeginWrite(data)))
  {
    if s.producer.NotWriting? {
      assert Accepted(s.finishedWrites) + data[..0] == Accepted(s.finishedWrites);
    }
  }

  lemma BeginReadKeeps(s: State, want: nat)
    requires Inv(s)
    ensures Inv(Step(s, BeginRead(want)))
  {
    if s.consumer.NotReading? {
      assert Delivered(s.finishedReads) + [] == Delivered(s.finishedReads);
    }
  }

  lemma InvStep(s: State, a: Action)
    requires Inv(s)
    ensures Inv(Step(s, a))
  {
    match a {
      case BeginWrite(data) => BeginWriteKeeps(s, data);
      case WriteStep => ProducerKeeps(s);
      case BeginRead(want) => BeginReadKeeps(s, want);
      case ReadStep => ConsumerKeeps(s);
    }
  }

  function Initial(frames: nat): State
    requires 0 < frames
  {
    State(Ring(seq(frames, i => []), 0, false, 0, false), NotWriting, NotReading, [], [])
  }

  /** The state that a schedule leads to. */
  ghost function Exec(s: State, schedule: seq<Action>): State {
    if schedule == [] then s
    else Step(Exec(s, schedule[..|schedule| - 1]), schedule[|schedule| - 1])
  }

  lemma {:induction false} ExecKeepsInv(s: State, schedule: seq<Action>)
    requires Inv(s)
    ensures Inv(Exec(s, schedule))
  {
    if schedule != [] {
      ExecKeepsInv(s, schedule[..|schedule| - 1]);
      InvStep(Exec(s, schedule[..|schedule| - 1]), schedule[|schedule| - 1]);
    }
  }

  /** All interleavings, from an empty ring. */
  ghost function After(frames: nat, schedule: seq<Action>): State
    requires 0 < frames
  {
    Exec(Initial(frames), schedule)
  }

  lemma AfterInv(frames: nat, schedule: seq<Action>)
    requires 0 < frames
    ensures Inv(After(frames, schedule))
  {
    assert Inv(Initial(frames));
    ExecKeepsInv(Initial(frames), schedule);
  }

  // ---------- Results ----------

  /** However the two sides interleave, and over any number of wraps, what came out is what went in,
      in order and without loss, up to the frames still in the ring. */
  lemma FirstInFirstOut(frames: nat, schedule: seq<Action>)
    requires 0 < frames
    ensures var s := After(frames, schedule);
      Fits(s.ring)
      && Out(s) <= In(s) && In(s) == Out(s) + Contents(s.ring) && |Contents(s.ring)| <= |s.ring.cells|
  {
    AfterInv(frames, schedule);
  }

  /** Every finished write took exactly as much as was free when it began, and every finished read
      delivered exactly as much as was there when it began. */
  lemma CallsAreExact(frames: nat, schedule: seq<Action>, i: nat)
    requires 0 < frames
    ensures var s := After(frames, schedule);
      && (i < |s.finishedWrites| ==> s.finishedWrites[i].count == Min(|s.finishedWrites[i].data|, s.finishedWrites[i].free))
      && (i < |s.finishedReads| ==> |s.finishedReads[i].frames| == Min(s.finishedReads[i].want, s.finishedReads[i].filled))
  {
    AfterInv(frames, schedule);
  }

  /** No call needs more than two chunks. */
  lemma AtMostTwoChunks(frames: nat, schedule: seq<Action>)
    requires 0 < frames
    ensures var s := After(frames, schedule);
      && (s.producer.Filling? ==> s.producer.call.chunks <= 2)
      && (s.consumer.Draining? ==> s.consumer.call.chunks <= 2)
  {
    AfterInv(frames, schedule);
  }

  /** The steps a call still has to make at most. */
  function WriteWork(p: Producer): nat {
    match p
    case NotWriting => 0
    case Write(c) => 3 * c.remaining + 2
    case Filling(c, actual, copied) =>
      if copied <= c.remaining then 3 * (c.remaining - copied) + (if copied == 0 then 1 else 3) else 0
  }

  function ReadWork(k: Consumer): nat {
    match k
    case NotReading => 0
    case Read(c) => 3 * c.remaining + 2
    case Draining(c, actual, part) =>
      if |part| <= c.remaining then 3 * (c.remaining - |part|) + (if part == [] then 1 else 3) else 0
  }

  /** Each call ends within a number of its own steps fixed by what it saw on entry, however many
      steps the other side makes in between. */
  lemma CallsTerminate(s: State, a: Action)
    requires Inv(s)
    ensures a.WriteStep? && !s.producer.NotWriting? ==> WriteWork(Step(s, a).producer) < WriteWork(s.producer)
    ensures a.ReadStep? && !s.consumer.NotReading? ==> ReadWork(Step(s, a).consumer) < ReadWork(s.consumer)
    ensures a.ReadStep? || a.BeginRead? ==> Step(s, a).producer == s.producer
    ensures a.WriteStep? || a.BeginWrite? ==> Step(s, a).consumer == s.consumer
  {
    if a.WriteStep? && s.producer.Write? {
      AcquireKeeps(s.ring, s.producer.call);
    }
    if a.ReadStep? && s.consumer.Read? {
      SpansSuffice(s.ring);
    }
  }
}
