/** The echo: a circular buffer read at a delay behind its write position. */
module Echo {
  import opened DelayLines
  import opened SampleBounds

  /** The delay in effect. A delay of the whole buffer or more is shortened, and with none the cell
      read is the one written next, so that the oldest sample is heard. */
  function Effective(delay: nat, size: nat): (d: nat)
    requires 0 < size
    ensures 1 <= d <= size
  {
    if delay == 0 || size == 1 then size else if delay >= size then size - 1 else delay
  }

  /** The delay that was asked for is the one in effect exactly if it fits the buffer. */
  lemma EffectiveIsGiven(delay: nat, size: nat)
    requires 0 < size
    ensures Effective(delay, size) == delay <==> 0 < delay < size || delay == size == 1
  {
  }

  const SAMPLE_RATE := 48000.0
  const BUFFER_SIZE := 96000

  function DelaySamples(delayMs: real): int {
    (delayMs / 1000.0 * SAMPLE_RATE).Floor
  }

  /** Of the delays that can be registered, all are met to the sample except the longest, which
      fills the whole buffer and comes out one sample short. */
  lemma OnlyLongestIsShortened(delayMs: real)
    requires 10.0 <= delayMs <= 2000.0
    ensures 0 <= DelaySamples(delayMs)
    ensures Effective(DelaySamples(delayMs), BUFFER_SIZE) == DelaySamples(delayMs) <==> delayMs < 2000.0
    ensures delayMs == 2000.0 ==> Effective(DelaySamples(delayMs), BUFFER_SIZE) == DelaySamples(delayMs) - 1
  {
    assert delayMs / 1000.0 * SAMPLE_RATE == delayMs * 48.0;
    EffectiveIsGiven(DelaySamples(delayMs), BUFFER_SIZE);
  }

  function Fed(x: real, past: real, feedback: real): real {
    x + past * feedback
  }

  function Blend(x: real, past: real, mix: real): real {
    x * (1.0 - mix) + past * mix
  }

  /** w[n] = x[n] + feedback * w[n - d]. */
  ghost predicate Recurrence(ws: seq<real>, xs: seq<real>, feedback: real, d: nat) {
    |ws| == |xs| && forall n :: 0 <= n < |ws| ==> ws[n] == Fed(xs[n], Past(ws, n, d), feedback)
  }

  /** The samples written for one block, and the block that went out, as the recurrence says. */
  ghost predicate Processed(ws: seq<real>, from: nat, xs: seq<real>, ys: seq<real>, feedback: real, mix: real, d: nat) {
    && |ws| == from + |xs| && |ys| == |xs|
    && forall i :: 0 <= i < |xs| ==> ProcessedAt(ws, from, xs, ys, feedback, mix, d, i)
  }

  ghost predicate ProcessedAt(ws: seq<real>, from: nat, xs: seq<real>, ys: seq<real>, feedback: real, mix: real, d: nat, i: nat)
    requires i < |xs| && i < |ys| && from + i < |ws|
  {
    && ws[from + i] == Fed(xs[i], Past(ws, from + i, d), feedback)
    && ys[i] == Blend(xs[i], Past(ws, from + i, d), mix)
  }

  class EchoProcessor {
    const buffer: array<real>
    var writePos: nat
    var delay: nat
    var feedback: real
    var mix: real
    ghost var written: seq<real>

    constructor (size: nat, delay: nat, feedback: real, mix: real)
      requires 0 < size
      ensures Valid() && written == [] && fresh(buffer) && buffer.Length == size
      ensures this.delay == delay && this.feedback == feedback && this.mix == mix
    {
      buffer := new real[size](i => 0.0);
      writePos := 0;
      this.delay, this.feedback, this.mix := delay, feedback, mix;
      written := [];
    }

    ghost predicate Valid()
      reads this, buffer
    {
      buffer.Length > 0 && Remembers(buffer[..], writePos, written)
    }

    method Sample(input: real, delaySamples: nat) returns (output: real)
      requires Valid() && delaySamples < buffer.Length
      modifies this`writePos, this`written, buffer
      ensures Valid()
      ensures var past := Past(old(written), |old(written)|, Effective(delaySamples, buffer.Length));
        written == old(written) + [Fed(input, past, feedback)] && output == Blend(input, past, mix)
    {
      var readPos: int := writePos - delaySamples;
      if readPos < 0 {
        readPos := readPos + buffer.Length;
      }
      assert readPos == Back(writePos, Effective(delaySamples, buffer.Length), buffer.Length);
      var delayed := buffer[readPos];
      assert delayed == buffer[..][readPos];
      Write(Fed(input, delayed, feedback));
      output := Blend(input, delayed, mix);
    }

    method Write(w: real)
      requires Valid()
      modifies this`writePos, this`written, buffer
      ensures Valid() && written == old(written) + [w]
    {
      Stored(buffer[..], writePos, written, w);
      buffer[writePos] := w;
      writePos := Advanced();
      written := written + [w];
    }

    method Advanced() returns (pos: nat)
      requires writePos < buffer.Length
      ensures pos == NextPos(writePos, buffer.Length)
    {
      Wraps(writePos, buffer.Length);
      pos := (writePos + 1) % buffer.Length;
    }

    /** One mono block in place. */
    method Process(block: array<real>)
      requires Valid() && block != buffer
      modifies this`writePos, this`written, buffer, block
      ensures Valid() && old(written) <= written
      ensures Processed(written, |old(written)|, old(block[..]), block[..], feedback, mix, Effective(delay, buffer.Length))
    {
      var delaySamples := delay;
      if delaySamples >= buffer.Length {
        delaySamples := buffer.Length - 1;
      }
      ghost var xs := block[..];
      for f := 0 to block.Length
        invariant Valid() && |written| == |old(written)| + f && old(written) <= written
        invariant block[f..] == xs[f..]
        invariant Processed(written, |old(written)|, xs[..f], block[..f], feedback, mix, Effective(delay, buffer.Length))
      {
        assert block[f] == block[f..][0] == xs[f];
        ghost var ws, ys := written, block[..f];
        var output := Sample(block[f], delaySamples);
        block[f] := output;
        OneMore(ws, written, |old(written)|, xs[..f], ys, xs[f], output, feedback, mix, Effective(delay, buffer.Length));
        assert xs[..f + 1] == xs[..f] + [xs[f]] && block[..f + 1] == ys + [output];
      }
      assert block[..block.Length] == block[..] && xs[..block.Length] == xs;
    }
  }

  lemma OneMore(ws: seq<real>, ws': seq<real>, from: nat, xs: seq<real>, ys: seq<real>, x: real, y: real,
                feedback: real, mix: real, d: nat)
    requires Processed(ws, from, xs, ys, feedback, mix, d)
    requires ws' == ws + [Fed(x, Past(ws, |ws|, d), feedback)] && y == Blend(x, Past(ws, |ws|, d), mix)
    ensures Processed(ws', from, xs + [x], ys + [y], feedback, mix, d)
  {
    forall i | 0 <= i < |xs| + 1 ensures ProcessedAt(ws', from, xs + [x], ys + [y], feedback, mix, d, i) {
      if i < |xs| {
        assert ProcessedAt(ws, from, xs, ys, feedback, mix, d, i);
      }
    }
  }

  // ---------- Results ----------

  /** Sample by sample: what is written is the input plus the feedback times what was written d samples
      ago, and what goes out is the input and that old sample in the proportion of the mix. */
  lemma EchoIs(ws: seq<real>, from: nat, xs: seq<real>, ys: seq<real>, feedback: real, mix: real, d: nat, i: nat)
    requires Processed(ws, from, xs, ys, feedback, mix, d) && 1 <= d && i < |xs|
    ensures var n := from + i; var past := if d <= n then ws[n - d] else 0.0;
      ws[n] == xs[i] + feedback * past && ys[i] == (1.0 - mix) * xs[i] + mix * past
  {
    assert ProcessedAt(ws, from, xs, ys, feedback, mix, d, i);
  }

  function Power(x: real, n: nat): real {
    if n == 0 then 1.0 else x * Power(x, n - 1)
  }

  /** The place k delays on. */
  function Delays(k: nat, d: nat): nat {
    if k == 0 then 0 else Delays(k - 1, d) + d
  }

  /** One click is heard again after every delay, each time weaker by the feedback, and not in
      between. */
  lemma {:induction false} ClickEchoes(ws: seq<real>, xs: seq<real>, feedback: real, d: nat, k: nat, rest: nat)
    requires Recurrence(ws, xs, feedback, d) && 1 <= d && rest < d && Delays(k, d) + rest < |xs|
    requires forall m :: 0 <= m < |xs| ==> xs[m] == if m == 0 then 1.0 else 0.0
    ensures ws[Delays(k, d) + rest] == if rest == 0 then Power(feedback, k) else 0.0
  {
    if k == 0 {
      FirstFed(ws, xs, feedback, d, rest);
    } else {
      ClickEchoes(ws, xs, feedback, d, k - 1, rest);
      var m, power := Delays(k - 1, d) + rest, Power(feedback, k - 1);
      ClickAgain(ws, xs, feedback, d, m, rest == 0, power);
      assert Delays(k, d) + rest == m + d;
      assert Power(feedback, k) == feedback * power;
    }
  }

  lemma ClickAgain(ws: seq<real>, xs: seq<real>, feedback: real, d: nat, m: nat, click: bool, power: real)
    requires Recurrence(ws, xs, feedback, d) && 1 <= d && m + d < |xs| && xs[m + d] == 0.0
    requires m < |ws| && ws[m] == if click then power else 0.0
    ensures m + d < |ws| && ws[m + d] == if click then feedback * power else 0.0
  {
    FedByPast(ws, xs, feedback, d, m);
    FedAgain(ws[m], feedback, power, click);
  }

  lemma FedByPast(ws: seq<real>, xs: seq<real>, feedback: real, d: nat, m: nat)
    requires Recurrence(ws, xs, feedback, d) && 1 <= d && m + d < |xs|
    ensures m + d < |ws| && ws[m + d] == Fed(xs[m + d], ws[m], feedback)
  {
    assert Past(ws, m + d, d) == ws[m];
  }

  lemma FirstFed(ws: seq<real>, xs: seq<real>, feedback: real, d: nat, n: nat)
    requires Recurrence(ws, xs, feedback, d) && n < d && n < |xs|
    ensures n < |ws| && ws[n] == xs[n]
  {
    assert Past(ws, n, d) == 0.0;
  }

  lemma FedAgain(past: real, feedback: real, power: real, click: bool)
    requires past == if click then power else 0.0
    ensures Fed(0.0, past, feedback) == if click then feedback * power else 0.0
  {
  }

  /** Blocks of any lengths continue one recurrence: what matters is the stream of all samples. */
  lemma BlocksJoin(ws: seq<real>, heard: seq<real>, xs: seq<real>, ys: seq<real>, feedback: real, mix: real, d: nat)
    requires |heard| <= |ws| && Recurrence(ws[..|heard|], heard, feedback, d)
    requires Processed(ws, |heard|, xs, ys, feedback, mix, d)
    ensures Recurrence(ws, heard + xs, feedback, d)
  {
    forall n | 0 <= n < |ws| ensures ws[n] == Fed((heard + xs)[n], Past(ws, n, d), feedback) {
      if n < |heard| {
        assert ws[..|heard|][n] == Fed(heard[n], Past(ws[..|heard|], n, d), feedback);
      } else {
        assert ProcessedAt(ws, |heard|, xs, ys, feedback, mix, d, n - |heard|);
      }
    }
  }

  /** The recurrence has one solution, so the stream decides everything that is written. */
  lemma {:induction false} RecurrenceUnique(ws: seq<real>, vs: seq<real>, xs: seq<real>, feedback: real, d: nat, n: nat)
    requires Recurrence(ws, xs, feedback, d) && Recurrence(vs, xs, feedback, d) && n < |xs| && 1 <= d
    ensures ws[n] == vs[n]
  {
    if d <= n {
      RecurrenceUnique(ws, vs, xs, feedback, d, n - d);
    }
  }

  lemma FedWithin(x: real, past: real, feedback: real, bound: real, limit: real)
    requires Stable(bound, feedback, limit) && Within(x, bound) && Within(past, limit)
    ensures Within(Fed(x, past, feedback), limit)
  {
    FedBack(x, past, feedback, bound, limit);
  }

  lemma BlendWithin(x: real, past: real, mix: real, limit: real)
    requires 0.0 <= mix <= 1.0 && Within(x, limit) && Within(past, limit)
    ensures Within(Blend(x, past, mix), limit)
  {
    Blended(past, x, mix, limit);
  }

  lemma {:induction false} WrittenWithin(ws: seq<real>, xs: seq<real>, feedback: real, d: nat, bound: real, limit: real, n: nat)
    requires Recurrence(ws, xs, feedback, d) && AllWithin(xs, bound) && Stable(bound, feedback, limit) && n < |ws|
    ensures Within(ws[n], limit)
  {
    if 1 <= d <= n {
      WrittenWithin(ws, xs, feedback, d, bound, limit, n - d);
    }
    FedWithin(xs[n], Past(ws, n, d), feedback, bound, limit);
  }

  /** With feedback below one the echo never runs away: inputs up to M keep everything written
      within M / (1 - feedback), for ever, whatever the delay. */
  lemma EchoStays(ws: seq<real>, xs: seq<real>, feedback: real, d: nat, bound: real, n: nat)
    requires Recurrence(ws, xs, feedback, d) && AllWithin(xs, bound) && 0.0 <= bound && 0.0 <= feedback < 1.0
    requires n < |ws|
    ensures Within(ws[n], bound / (1.0 - feedback))
  {
    StableLimit(bound, feedback);
    WrittenWithin(ws, xs, feedback, d, bound, bound / (1.0 - feedback), n);
  }

  lemma LimitHolds(input: real, gain: real, limit: real)
    requires Stable(input, gain, limit)
    ensures input <= limit
  {
    Scaled(limit, gain, limit);
  }

  lemma HeardWithin(ws: seq<real>, from: nat, xs: seq<real>, ys: seq<real>, heard: seq<real>,
                    feedback: real, mix: real, d: nat, bound: real, limit: real, i: nat)
    requires Processed(ws, from, xs, ys, feedback, mix, d) && Recurrence(ws, heard, feedback, d)
    requires AllWithin(heard, bound) && AllWithin(xs, bound) && Stable(bound, feedback, limit) && 0.0 <= mix <= 1.0
    requires i < |xs|
    ensures Within(ys[i], limit)
  {
    var n := from + i;
    assert ProcessedAt(ws, from, xs, ys, feedback, mix, d, i);
    if 1 <= d <= n {
      WrittenWithin(ws, heard, feedback, d, bound, limit, n - d);
    }
    LimitHolds(bound, feedback, limit);
    BlendWithin(xs[i], Past(ws, n, d), mix, limit);
  }

  /** And so does what goes out. */
  lemma OutputStays(ws: seq<real>, from: nat, xs: seq<real>, ys: seq<real>, heard: seq<real>,
                    feedback: real, mix: real, d: nat, bound: real, i: nat)
    requires Processed(ws, from, xs, ys, feedback, mix, d) && Recurrence(ws, heard, feedback, d)
    requires AllWithin(heard, bound) && AllWithin(xs, bound) && 0.0 <= bound && 0.0 <= feedback < 1.0 && 0.0 <= mix <= 1.0
    requires i < |xs|
    ensures Within(ys[i], bound / (1.0 - feedback))
  {
    StableLimit(bound, feedback);
    HeardWithin(ws, from, xs, ys, heard, feedback, mix, d, bound, bound / (1.0 - feedback), i);
  }
}
