/**
 * What a call on the PCM ring saw when it began, over any schedule of both sides, and what it does
 * on its own.
 */
module RingCalls {
  import opened PcmRing
  import opened RingProtocol

  // ---------- What a call saw when it began ----------

  /** A call of an idle side records what is free, or filled, in the ring at that moment. */
  lemma BeginningsSee(s: State, data: seq<Frame>, want: nat)
    requires Inv(s)
    ensures s.producer.NotWriting? ==>
      var t := Step(s, BeginWrite(data));
      && t.producer.Write? && t.producer.call.data == data && t.producer.call.free == |s.ring.cells| - |Contents(s.ring)|
      && t == s.(producer := t.producer)
    ensures s.consumer.NotReading? ==>
      var t := Step(s, BeginRead(want));
      && t.consumer.Read? && t.consumer.call.want == want && t.consumer.call.filled == |Contents(s.ring)|
      && t == s.(consumer := t.consumer)
  {
  }

  /** How many writes, and reads, a schedule has begun. */
  ghost function WritesBegun(frames: nat, schedule: seq<Action>): nat
    requires 0 < frames
  {
    if schedule == [] then 0
    else
      var n := |schedule| - 1;
      WritesBegun(frames, schedule[..n]) +
      if schedule[n].BeginWrite? && After(frames, schedule[..n]).producer.NotWriting? then 1 else 0
  }

  ghost function ReadsBegun(frames: nat, schedule: seq<Action>): nat
    requires 0 < frames
  {
    if schedule == [] then 0
    else
      var n := |schedule| - 1;
      ReadsBegun(frames, schedule[..n]) +
      if schedule[n].BeginRead? && After(frames, schedule[..n]).consumer.NotReading? then 1 else 0
  }

  /** Step k of the schedule begins its i-th write, with this data, when so much is free. */
  ghost predicate WriteBeginsAt(frames: nat, schedule: seq<Action>, k: nat, i: nat, data: seq<Frame>, free: nat)
    requires 0 < frames
  {
    && k < |schedule| && schedule[k] == BeginWrite(data) && After(frames, schedule[..k]).producer.NotWriting?
    && WritesBegun(frames, schedule[..k]) == i
    && Fits(After(frames, schedule[..k]).ring)
    && free == |After(frames, schedule[..k]).ring.cells| - |Contents(After(frames, schedule[..k]).ring)|
  }

  ghost predicate ReadBeginsAt(frames: nat, schedule: seq<Action>, k: nat, i: nat, want: nat, filled: nat)
    requires 0 < frames
  {
    && k < |schedule| && schedule[k] == BeginRead(want) && After(frames, schedule[..k]).consumer.NotReading?
    && ReadsBegun(frames, schedule[..k]) == i
    && Fits(After(frames, schedule[..k]).ring)
    && filled == |Contents(After(frames, schedule[..k]).ring)|
  }

  ghost predicate WriteBegan(frames: nat, schedule: seq<Action>, i: nat, data: seq<Frame>, free: nat)
    requires 0 < frames
  {
    exists k: nat :: WriteBeginsAt(frames, schedule, k, i, data, free)
  }

  ghost predicate ReadBegan(frames: nat, schedule: seq<Action>, i: nat, want: nat, filled: nat)
    requires 0 < frames
  {
    exists k: nat :: ReadBeginsAt(frames, schedule, k, i, want, filled)
  }

  lemma WriteBeganStays(frames: nat, schedule: seq<Action>, a: Action, i: nat, data: seq<Frame>, free: nat)
    requires 0 < frames && WriteBegan(frames, schedule, i, data, free)
    ensures WriteBegan(frames, schedule + [a], i, data, free)
  {
    var k: nat :| WriteBeginsAt(frames, schedule, k, i, data, free);
    assert (schedule + [a])[..k] == schedule[..k];
    assert WriteBeginsAt(frames, schedule + [a], k, i, data, free);
  }

  lemma ReadBeganStays(frames: nat, schedule: seq<Action>, a: Action, i: nat, want: nat, filled: nat)
    requires 0 < frames && ReadBegan(frames, schedule, i, want, filled)
    ensures ReadBegan(frames, schedule + [a], i, want, filled)
  {
    var k: nat :| ReadBeginsAt(frames, schedule, k, i, want, filled);
    assert (schedule + [a])[..k] == schedule[..k];
    assert ReadBeginsAt(frames, schedule + [a], k, i, want, filled);
  }

  /** Every write so far with what it saw, the current one included. */
  function WriteCalls(s: State): (calls: seq<(seq<Frame>, nat)>)
    ensures |calls| == |s.finishedWrites| + if s.producer.NotWriting? then 0 else 1
    ensures forall i :: 0 <= i < |s.finishedWrites| ==> calls[i] == (s.finishedWrites[i].data, s.finishedWrites[i].free)
  {
    seq(|s.finishedWrites|, i requires 0 <= i < |s.finishedWrites| => (s.finishedWrites[i].data, s.finishedWrites[i].free))
    + if s.producer.NotWriting? then [] else [(s.producer.call.data, s.producer.call.free)]
  }

  function ReadCalls(s: State): (calls: seq<(nat, nat)>)
    ensures |calls| == |s.finishedReads| + if s.consumer.NotReading? then 0 else 1
    ensures forall i :: 0 <= i < |s.finishedReads| ==> calls[i] == (s.finishedReads[i].want, s.finishedReads[i].filled)
  {
    seq(|s.finishedReads|, i requires 0 <= i < |s.finishedReads| => (s.finishedReads[i].want, s.finishedReads[i].filled))
    + if s.consumer.NotReading? then [] else [(s.consumer.call.want, s.consumer.call.filled)]
  }

  lemma WriteCallsStay(s: State, a: Action)
    requires Inv(s) && !(a.BeginWrite? && s.producer.NotWriting?)
    ensures WriteCalls(Step(s, a)) == WriteCalls(s) && s.finishedWrites <= Step(s, a).finishedWrites
  {
    var t := Step(s, a);
    forall i | 0 <= i < |WriteCalls(s)| ensures WriteCalls(t)[i] == WriteCalls(s)[i] {
    }
  }

  lemma WriteCallsGrow(s: State, data: seq<Frame>)
    requires Inv(s) && s.producer.NotWriting?
    ensures WriteCalls(Step(s, BeginWrite(data))) == WriteCalls(s) + [(data, Free(s.ring))]
  {
    BeginningsSee(s, data, 0);
    RoomIs(s.ring);
  }

  lemma RoomIs(r: Ring)
    requires Fits(r)
    ensures |r.cells| - |Contents(r)| == Free(r)
  {
  }

  lemma ReadCallsStay(s: State, a: Action)
    requires Inv(s) && !(a.BeginRead? && s.consumer.NotReading?)
    ensures ReadCalls(Step(s, a)) == ReadCalls(s) && s.finishedReads <= Step(s, a).finishedReads
  {
    var t := Step(s, a);
    forall i | 0 <= i < |ReadCalls(s)| ensures ReadCalls(t)[i] == ReadCalls(s)[i] {
    }
  }

  lemma ReadCallsGrow(s: State, want: nat)
    requires Inv(s) && s.consumer.NotReading?
    ensures ReadCalls(Step(s, BeginRead(want))) == ReadCalls(s) + [(want, |Contents(s.ring)|)]
  {
    BeginningsSee(s, [], want);
  }

  /** The calls so far are those that the schedule began, in order. */
  ghost predicate WritesTraced(frames: nat, schedule: seq<Action>, calls: seq<(seq<Frame>, nat)>)
    requires 0 < frames
  {
    WritesBegun(frames, schedule) == |calls| && forall i :: 0 <= i < |calls| ==> WriteBegan(frames, schedule, i, calls[i].0, calls[i].1)
  }

  ghost predicate ReadsTraced(frames: nat, schedule: seq<Action>, calls: seq<(nat, nat)>)
    requires 0 < frames
  {
    ReadsBegun(frames, schedule) == |calls| && forall i :: 0 <= i < |calls| ==> ReadBegan(frames, schedule, i, calls[i].0, calls[i].1)
  }

  /** A step that begins no write adds none to the record, and one that does adds it. */
  lemma WriteGoesOn(frames: nat, schedule: seq<Action>, a: Action, calls: seq<(seq<Frame>, nat)>)
    requires 0 < frames && WritesTraced(frames, schedule, calls)
    requires !(a.BeginWrite? && After(frames, schedule).producer.NotWriting?)
    ensures WritesTraced(frames, schedule + [a], calls)
  {
    assert (schedule + [a])[..|schedule|] == schedule;
    forall i | 0 <= i < |calls| ensures WriteBegan(frames, schedule + [a], i, calls[i].0, calls[i].1) {
      WriteBeganStays(frames, schedule, a, i, calls[i].0, calls[i].1);
    }
  }

  lemma WriteBegins(frames: nat, schedule: seq<Action>, data: seq<Frame>, calls: seq<(seq<Frame>, nat)>)
    requires 0 < frames && WritesTraced(frames, schedule, calls)
    requires After(frames, schedule).producer.NotWriting? && Fits(After(frames, schedule).ring)
    ensures WritesTraced(frames, schedule + [BeginWrite(data)], calls + [(data, Free(After(frames, schedule).ring))])
  {
    var a, free := BeginWrite(data), Free(After(frames, schedule).ring);
    assert (schedule + [a])[..|schedule|] == schedule;
    RoomIs(After(frames, schedule).ring);
    assert WriteBeginsAt(frames, schedule + [a], |schedule|, |calls|, data, free);
    forall i | 0 <= i < |calls| ensures WriteBegan(frames, schedule + [a], i, calls[i].0, calls[i].1) {
      WriteBeganStays(frames, schedule, a, i, calls[i].0, calls[i].1);
    }
  }

  lemma WriteStepTraced(frames: nat, schedule: seq<Action>, a: Action, s: State)
    requires 0 < frames && s == After(frames, schedule) && Inv(s) && WritesTraced(frames, schedule, WriteCalls(s))
    ensures WritesTraced(frames, schedule + [a], WriteCalls(Step(s, a)))
  {
    if a.BeginWrite? && s.producer.NotWriting? {
      WriteCallsGrow(s, a.data);
      WriteBegins(frames, schedule, a.data, WriteCalls(s));
    } else {
      WriteCallsStay(s, a);
      WriteGoesOn(frames, schedule, a, WriteCalls(s));
    }
  }

  lemma ReadGoesOn(frames: nat, schedule: seq<Action>, a: Action, calls: seq<(nat, nat)>)
    requires 0 < frames && ReadsTraced(frames, schedule, calls)
    requires !(a.BeginRead? && After(frames, schedule).consumer.NotReading?)
    ensures ReadsTraced(frames, schedule + [a], calls)
  {
    assert (schedule + [a])[..|schedule|] == schedule;
    forall i | 0 <= i < |calls| ensures ReadBegan(frames, schedule + [a], i, calls[i].0, calls[i].1) {
      ReadBeganStays(frames, schedule, a, i, calls[i].0, calls[i].1);
    }
  }

  lemma ReadBegins(frames: nat, schedule: seq<Action>, want: nat, calls: seq<(nat, nat)>)
    requires 0 < frames && ReadsTraced(frames, schedule, calls)
    requires After(frames, schedule).consumer.NotReading? && Fits(After(frames, schedule).ring)
    ensures ReadsTraced(frames, schedule + [BeginRead(want)], calls + [(want, |Contents(After(frames, schedule).ring)|)])
  {
    var a, filled := BeginRead(want), |Contents(After(frames, schedule).ring)|;
    assert (schedule + [a])[..|schedule|] == schedule;
    assert ReadBeginsAt(frames, schedule + [a], |schedule|, |calls|, want, filled);
    forall i | 0 <= i < |calls| ensures ReadBegan(frames, schedule + [a], i, calls[i].0, calls[i].1) {
      ReadBeganStays(frames, schedule, a, i, calls[i].0, calls[i].1);
    }
  }

  lemma ReadStepTraced(frames: nat, schedule: seq<Action>, a: Action, s: State)
    requires 0 < frames && s == After(frames, schedule) && Inv(s) && ReadsTraced(frames, schedule, ReadCalls(s))
    ensures ReadsTraced(frames, schedule + [a], ReadCalls(Step(s, a)))
  {
    if a.BeginRead? && s.consumer.NotReading? {
      ReadCallsGrow(s, a.want);
      ReadBegins(frames, schedule, a.want, ReadCalls(s));
    } else {
      ReadCallsStay(s, a);
      ReadGoesOn(frames, schedule, a, ReadCalls(s));
    }
  }

  lemma WriteTracedOn(frames: nat, before: seq<Action>, a: Action)
    requires 0 < frames && WritesTraced(frames, before, WriteCalls(After(frames, before)))
    ensures WritesTraced(frames, before + [a], WriteCalls(After(frames, before + [a])))
  {
    AfterInv(frames, before);
    AfterMore(frames, before, a);
    WriteStepTraced(frames, before, a, After(frames, before));
  }

  lemma {:induction false} AllWritesTraced(frames: nat, schedule: seq<Action>)
    requires 0 < frames
    ensures WritesTraced(frames, schedule, WriteCalls(After(frames, schedule)))
  {
    if schedule != [] {
      var n := |schedule| - 1;
      AllWritesTraced(frames, schedule[..n]);
      assert schedule == schedule[..n] + [schedule[n]];
      WriteTracedOn(frames, schedule[..n], schedule[n]);
    }
  }

  lemma ReadTracedOn(frames: nat, before: seq<Action>, a: Action)
    requires 0 < frames && ReadsTraced(frames, before, ReadCalls(After(frames, before)))
    ensures ReadsTraced(frames, before + [a], ReadCalls(After(frames, before + [a])))
  {
    AfterInv(frames, before);
    AfterMore(frames, before, a);
    ReadStepTraced(frames, before, a, After(frames, before));
  }

  lemma {:induction false} AllReadsTraced(frames: nat, schedule: seq<Action>)
    requires 0 < frames
    ensures ReadsTraced(frames, schedule, ReadCalls(After(frames, schedule)))
  {
    if schedule != [] {
      var n := |schedule| - 1;
      AllReadsTraced(frames, schedule[..n]);
      assert schedule == schedule[..n] + [schedule[n]];
      ReadTracedOn(frames, schedule[..n], schedule[n]);
    }
  }

  lemma AfterMore(frames: nat, before: seq<Action>, a: Action)
    requires 0 < frames
    ensures After(frames, before + [a]) == Step(After(frames, before), a)
  {
    assert (before + [a])[..|before|] == before;
  }

  /** Over any schedule the i-th finished write is the i-th that was begun, and took the lesser of its
      data and what was free in the ring at the step that began it. */
  lemma WritesTakeWhatFits(frames: nat, schedule: seq<Action>, i: nat) returns (k: nat)
    requires 0 < frames && i < |After(frames, schedule).finishedWrites|
    ensures k < |schedule| && schedule[k].BeginWrite? && WritesBegun(frames, schedule[..k]) == i
    ensures var b := After(frames, schedule[..k]); var w := After(frames, schedule).finishedWrites[i];
      && b.producer.NotWriting? && Fits(b.ring) && w.data == schedule[k].data
      && var room := |b.ring.cells| - |Contents(b.ring)|;
         w.count == if |w.data| < room then |w.data| else room
  {
    AllWritesTraced(frames, schedule);
    CallsAreExact(frames, schedule, i);
    var w := After(frames, schedule).finishedWrites[i];
    assert WriteCalls(After(frames, schedule))[i] == (w.data, w.free);
    assert WriteBegan(frames, schedule, i, w.data, w.free);
    k :| WriteBeginsAt(frames, schedule, k, i, w.data, w.free);
  }

  /** And the i-th finished read delivered the lesser of what it wanted and what was there. */
  lemma ReadsTakeWhatIsThere(frames: nat, schedule: seq<Action>, i: nat) returns (k: nat)
    requires 0 < frames && i < |After(frames, schedule).finishedReads|
    ensures k < |schedule| && schedule[k].BeginRead? && ReadsBegun(frames, schedule[..k]) == i
    ensures var b := After(frames, schedule[..k]); var g := After(frames, schedule).finishedReads[i];
      && b.consumer.NotReading? && Fits(b.ring) && g.want == schedule[k].want
      && var there := |Contents(b.ring)|;
         |g.frames| == if g.want < there then g.want else there
  {
    AllReadsTraced(frames, schedule);
    CallsAreExact(frames, schedule, i);
    var g := After(frames, schedule).finishedReads[i];
    assert ReadCalls(After(frames, schedule))[i] == (g.want, g.filled);
    assert ReadBegan(frames, schedule, i, g.want, g.filled);
    k :| ReadBeginsAt(frames, schedule, k, i, g.want, g.filled);
  }

  lemma CapacityStep(s: State, a: Action)
    ensures |Step(s, a).ring.cells| == |s.ring.cells|
  {
  }

  /** The ring keeps the capacity it was made with, whatever is called, and never holds more. */
  lemma {:induction false} CapacityStays(frames: nat, schedule: seq<Action>)
    requires 0 < frames
    ensures var r := After(frames, schedule).ring; |r.cells| == frames && Fits(r) && |Contents(r)| <= frames
  {
    AfterInv(frames, schedule);
    if schedule != [] {
      var n := |schedule| - 1;
      CapacityStays(frames, schedule[..n]);
      CapacityStep(After(frames, schedule[..n]), schedule[n]);
    }
    RoomIs(After(frames, schedule).ring);
  }

  // ---------- A call on its own ----------

  lemma ExecHead(s: State, a: Action, rest: seq<Action>)
    ensures Exec(s, [a] + rest) == Exec(Step(s, a), rest)
  {
    if rest == [] {
      assert [a] + rest == [a] && [a][..0] == [];
    } else {
      var n := |rest| - 1;
      ExecHead(s, a, rest[..n]);
      assert ([a] + rest)[..|rest|] == [a] + rest[..n];
    }
  }

  /** The producer's own steps end its call. */
  lemma {:induction false} WriteEnds(s: State) returns (steps: seq<Action>)
    requires Inv(s) && !s.producer.NotWriting?
    ensures forall a :: a in steps ==> a == WriteStep
    ensures var t := Exec(s, steps);
      && Inv(t) && t.producer.NotWriting? && t.consumer == s.consumer && t.finishedReads == s.finishedReads
      && s.finishedWrites <= t.finishedWrites && WriteCalls(t) == WriteCalls(s)
    decreases WriteWork(s.producer)
  {
    ProducerKeeps(s);
    CallsTerminate(s, WriteStep);
    WriteCallsStay(s, WriteStep);
    OnlyWriter(s);
    var t := Step(s, WriteStep);
    if t.producer.NotWriting? {
      ExecHead(s, WriteStep, []);
      steps := [WriteStep] + [];
    } else {
      var rest := WriteEnds(t);
      ExecHead(s, WriteStep, rest);
      steps := [WriteStep] + rest;
    }
  }

  lemma OnlyWriter(s: State)
    requires Inv(s)
    ensures Step(s, WriteStep).consumer == s.consumer && Step(s, WriteStep).finishedReads == s.finishedReads
  {
  }

  lemma OnlyReader(s: State)
    requires Inv(s)
    ensures Step(s, ReadStep).producer == s.producer && Step(s, ReadStep).finishedWrites == s.finishedWrites
  {
  }

  lemma {:induction false} ReadEnds(s: State) returns (steps: seq<Action>)
    requires Inv(s) && !s.consumer.NotReading?
    ensures forall a :: a in steps ==> a == ReadStep
    ensures var t := Exec(s, steps);
      && Inv(t) && t.consumer.NotReading? && t.producer == s.producer && t.finishedWrites == s.finishedWrites
      && s.finishedReads <= t.finishedReads && ReadCalls(t) == ReadCalls(s)
    decreases ReadWork(s.consumer)
  {
    ConsumerKeeps(s);
    CallsTerminate(s, ReadStep);
    ReadCallsStay(s, ReadStep);
    OnlyReader(s);
    var t := Step(s, ReadStep);
    if t.consumer.NotReading? {
      ExecHead(s, ReadStep, []);
      steps := [ReadStep] + [];
    } else {
      var rest := ReadEnds(t);
      ExecHead(s, ReadStep, rest);
      steps := [ReadStep] + rest;
    }
  }

  /** In t the write of data that saw this room is over. */
  ghost predicate Took(s: State, t: State, data: seq<Frame>, room: nat)
    requires Fits(s.ring)
  {
    var n := if |data| < room then |data| else room;
    t.producer.NotWriting? && t.consumer == s.consumer && Fits(t.ring) && Contents(t.ring) == Contents(s.ring) + data[..n]
  }

  lemma WriteTakes(s: State, data: seq<Frame>) returns (steps: seq<Action>)
    requires Inv(s) && s.producer.NotWriting?
    ensures forall a :: a in steps ==> a == WriteStep
    ensures Took(s, Exec(Step(s, BeginWrite(data)), steps), data, Free(s.ring))
  {
    var b := WriteStarts(s, data);
    steps := WriteEnds(b);
    Appends(s, Exec(b, steps), data, Free(s.ring));
  }

  /** A write begun by an idle producer appends as much of its data as there is room for. */
  lemma WriteAppends(s: State, data: seq<Frame>) returns (steps: seq<Action>)
    requires Inv(s) && s.producer.NotWriting?
    ensures forall a :: a in steps ==> a == WriteStep
    ensures |Contents(s.ring)| <= |s.ring.cells|
    ensures Took(s, Exec(Step(s, BeginWrite(data)), steps), data, |s.ring.cells| - |Contents(s.ring)|)
  {
    RoomIs(s.ring);
    steps := WriteTakes(s, data);
  }

  lemma WriteStarts(s: State, data: seq<Frame>) returns (b: State)
    requires Inv(s) && s.producer.NotWriting?
    ensures b == Step(s, BeginWrite(data)) && Inv(b) && !b.producer.NotWriting?
    ensures b.consumer == s.consumer && b.finishedReads == s.finishedReads && b.finishedWrites == s.finishedWrites
    ensures WriteCalls(b) == WriteCalls(s) + [(data, Free(s.ring))]
  {
    b := Step(s, BeginWrite(data));
    RoomIs(s.ring);
    InvStep(s, BeginWrite(data));
    BeginningsSee(s, data, 0);
    WriteCallsGrow(s, data);
  }

  lemma Appends(s: State, t: State, data: seq<Frame>, room: nat)
    requires Inv(s) && Inv(t) && s.producer.NotWriting? && t.producer.NotWriting?
    requires t.consumer == s.consumer && t.finishedReads == s.finishedReads && s.finishedWrites <= t.finishedWrites
    requires WriteCalls(t) == WriteCalls(s) + [(data, room)]
    ensures var n := if |data| < room then |data| else room; Fits(t.ring) && Contents(t.ring) == Contents(s.ring) + data[..n]
  {
    var w := t.finishedWrites[|s.finishedWrites|];
    assert WriteCalls(t)[|s.finishedWrites|] == (w.data, w.free) && w.count == Min(|data|, room);
    assert t.finishedWrites == s.finishedWrites + [w];
    assert Accepted(t.finishedWrites) == Accepted(s.finishedWrites) + data[..w.count];
    Cancelled(Out(s), Contents(s.ring), Accepted(s.finishedWrites), data[..w.count], Contents(t.ring));
  }

  lemma Cancelled(out: seq<Frame>, contents: seq<Frame>, taken: seq<Frame>, more: seq<Frame>, next: seq<Frame>)
    requires taken == out + contents && taken + more == out + next
    ensures next == contents + more
  {
    assert (out + next)[|out|..] == next;
    assert (out + contents + more)[|out|..] == contents + more;
  }

  /** A read begun by an idle consumer takes the oldest frames, as many as it wants and as are there. */
  lemma ReadTakes(s: State, want: nat) returns (steps: seq<Action>)
    requires Inv(s) && s.consumer.NotReading?
    ensures forall a :: a in steps ==> a == ReadStep
    ensures var t := Exec(Step(s, BeginRead(want)), steps);
      var there := |Contents(s.ring)|; var n := if want < there then want else there;
      && t.consumer.NotReading? && t.producer == s.producer && Fits(t.ring)
      && |t.finishedReads| == |s.finishedReads| + 1 && t.finishedReads[|s.finishedReads|].frames == Contents(s.ring)[..n]
      && Contents(t.ring) == Contents(s.ring)[n..]
  {
    var b := ReadStarts(s, want);
    steps := ReadEnds(b);
    Takes(s, Exec(b, steps), want, |Contents(s.ring)|);
  }

  lemma ReadStarts(s: State, want: nat) returns (b: State)
    requires Inv(s) && s.consumer.NotReading?
    ensures b == Step(s, BeginRead(want)) && Inv(b) && !b.consumer.NotReading?
    ensures b.producer == s.producer && b.finishedReads == s.finishedReads && b.finishedWrites == s.finishedWrites
    ensures ReadCalls(b) == ReadCalls(s) + [(want, |Contents(s.ring)|)]
  {
    b := Step(s, BeginRead(want));
    InvStep(s, BeginRead(want));
    BeginningsSee(s, [], want);
    ReadCallsGrow(s, want);
  }

  /** The call that is over is the only new one, and exact. */
  lemma OneMoreRead(s: State, t: State, want: nat, there: nat) returns (g: Got)
    requires Inv(t) && s.consumer.NotReading? && t.consumer.NotReading? && s.finishedReads <= t.finishedReads
    requires ReadCalls(t) == ReadCalls(s) + [(want, there)]
    ensures t.finishedReads == s.finishedReads + [g] && |g.frames| == Min(want, there)
  {
    assert |ReadCalls(t)| == |ReadCalls(s)| + 1;
    g := t.finishedReads[|s.finishedReads|];
    assert ReadCalls(t)[|s.finishedReads|] == (g.want, g.filled);
    ReadIsExact(t, |s.finishedReads|);
  }

  lemma ReadIsExact(t: State, i: nat)
    requires Inv(t) && i < |t.finishedReads|
    ensures |t.finishedReads[i].frames| == Min(t.finishedReads[i].want, t.finishedReads[i].filled)
  {
  }

  lemma Takes(s: State, t: State, want: nat, there: nat)
    requires Inv(s) && Inv(t) && s.consumer.NotReading? && t.consumer.NotReading? && there == |Contents(s.ring)|
    requires t.producer == s.producer && t.finishedWrites == s.finishedWrites && s.finishedReads <= t.finishedReads
    requires ReadCalls(t) == ReadCalls(s) + [(want, there)]
    ensures |t.finishedReads| == |s.finishedReads| + 1
    ensures var n := if want < there then want else there;
      Fits(t.ring) && t.finishedReads[|s.finishedReads|].frames == Contents(s.ring)[..n] && Contents(t.ring) == Contents(s.ring)[n..]
  {
    var g := OneMoreRead(s, t, want, there);
    TakenOut(s, t, g);
  }

  lemma TakenOut(s: State, t: State, g: Got)
    requires Inv(s) && Inv(t) && s.consumer.NotReading? && t.consumer.NotReading?
    requires t.producer == s.producer && t.finishedWrites == s.finishedWrites && t.finishedReads == s.finishedReads + [g]
    ensures |g.frames| <= |Contents(s.ring)|
    ensures g.frames == Contents(s.ring)[..|g.frames|] && Contents(t.ring) == Contents(s.ring)[|g.frames|..]
  {
    InIsOutAndRing(s);
    InIsOutAndRing(t);
    DeliveredMore(s.finishedReads, g);
    Parted(Out(s), Contents(s.ring), g.frames, Contents(t.ring));
    PartedAt(Contents(s.ring), g.frames, Contents(t.ring));
  }

  lemma InIsOutAndRing(s: State)
    requires Inv(s)
    ensures In(s) == Out(s) + Contents(s.ring)
  {
  }

  lemma DeliveredMore(rs: seq<Got>, g: Got)
    ensures Delivered(rs + [g]) == Delivered(rs) + g.frames
  {
    assert (rs + [g])[..|rs|] == rs;
  }

  lemma PartedAt(contents: seq<Frame>, taken: seq<Frame>, next: seq<Frame>)
    requires contents == taken + next
    ensures contents[..|taken|] == taken && contents[|taken|..] == next
  {
  }

  lemma Parted(out: seq<Frame>, contents: seq<Frame>, taken: seq<Frame>, next: seq<Frame>)
    requires out + contents == out + taken + next
    ensures contents == taken + next
  {
    assert (out + contents)[|out|..] == contents;
    assert (out + taken + next)[|out|..] == taken + next;
  }
}
