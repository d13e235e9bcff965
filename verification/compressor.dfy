/** The compressor: an envelope follows the gain that the current sample asks for. */
module Compressor {
  import opened SampleBounds

  function Abs(x: real): real {
    if x < 0.0 then -x else x
  }

  datatype Setting = Setting(threshold: real, ratio: real, attackCoef: real, releaseCoef: real)

  /** What the registry admits: a ratio of at least one, a threshold that is an amplitude, and
      times that give coefficients strictly between zero and one. */
  predicate Admitted(s: Setting) {
    0.0 <= s.threshold && 1.0 <= s.ratio && 0.0 < s.attackCoef < 1.0 && 0.0 < s.releaseCoef < 1.0
  }

  function Target(s: Setting, x: real): real
    requires Admitted(s)
  {
    if Abs(x) > s.threshold then (s.threshold + (Abs(x) - s.threshold) / s.ratio) / Abs(x) else 1.0
  }

  function Coefficient(s: Setting, envelope: real, x: real): real
    requires Admitted(s)
  {
    if Target(s, x) < envelope then s.attackCoef else s.releaseCoef
  }

  function Next(s: Setting, envelope: real, x: real): real
    requires Admitted(s)
  {
    Smooth(Coefficient(s, envelope, x), envelope, Target(s, x))
  }

  function Smooth(k: real, e: real, t: real): real {
    k * e + (1.0 - k) * t
  }

  /** Sample i moves the envelope from es[i] to es[i + 1]. */
  ghost predicate Moves(s: Setting, es: seq<real>, xs: seq<real>, i: nat)
    requires Admitted(s)
  {
    i < |xs| && i + 1 < |es| && es[i + 1] == Next(s, es[i], xs[i])
  }

  /** The course of the envelope over a stream. */
  ghost predicate Course(s: Setting, es: seq<real>, xs: seq<real>)
    requires Admitted(s)
  {
    |es| == |xs| + 1 && forall i :: 0 <= i < |xs| ==> Moves(s, es, xs, i)
  }

  class CompressorProcessor {
    const setting: Setting
    var envelope: real

    constructor (setting: Setting)
      requires Admitted(setting)
      ensures this.setting == setting && envelope == 1.0
    {
      this.setting := setting;
      envelope := 1.0;
    }

    method Follow(input: real)
      requires Admitted(setting)
      modifies this
      ensures envelope == Next(setting, old(envelope), input)
    {
      var absInput := Abs(input);
      var targetGain := 1.0;
      if absInput > setting.threshold {
        targetGain := setting.threshold + (absInput - setting.threshold) / setting.ratio;
        targetGain := targetGain / absInput;
      }
      var coef := if targetGain < envelope then setting.attackCoef else setting.releaseCoef;
      envelope := coef * envelope + (1.0 - coef) * targetGain;
    }

    /** One sample in place. */
    method Sample(buffer: array<real>, i: nat)
      requires Admitted(setting) && i < buffer.Length
      modifies this, buffer
      ensures envelope == Next(setting, old(envelope), old(buffer[i]))
      ensures buffer[i] == old(buffer[i]) * envelope
      ensures forall j :: 0 <= j < buffer.Length && j != i ==> buffer[j] == old(buffer[j])
    {
      var input := buffer[i];
      Follow(input);
      var output := input * envelope;
      buffer[i] := output;
    }

    /** Processing in place: every sample leaves multiplied by the envelope after it. */
    method Process(buffer: array<real>) returns (ghost es: seq<real>)
      requires Admitted(setting)
      modifies this, buffer
      ensures Course(setting, es, old(buffer[..])) && es[0] == old(envelope) && es[buffer.Length] == envelope
      ensures forall i :: 0 <= i < buffer.Length ==> buffer[i] == old(buffer[i]) * es[i + 1]
    {
      es := [envelope];
      ghost var xs := buffer[..];
      for i := 0 to buffer.Length
        invariant |es| == i + 1 && es[0] == old(envelope) && es[i] == envelope
        invariant CourseTo(setting, es, xs, i)
        invariant forall j :: 0 <= j < i ==> buffer[j] == xs[j] * es[j + 1]
        invariant forall j :: i <= j < buffer.Length ==> buffer[j] == xs[j]
      {
        Sample(buffer, i);
        CourseGrows(setting, es, xs, i, envelope);
        es := es + [envelope];
      }
    }
  }

  ghost predicate CourseTo(s: Setting, es: seq<real>, xs: seq<real>, n: nat)
    requires Admitted(s)
  {
    n <= |xs| && n < |es| && forall i :: 0 <= i < n ==> Moves(s, es, xs, i)
  }

  lemma CourseGrows(s: Setting, es: seq<real>, xs: seq<real>, n: nat, e: real)
    requires Admitted(s) && CourseTo(s, es, xs, n) && |es| == n + 1 && n < |xs| && e == Next(s, es[n], xs[n])
    ensures CourseTo(s, es + [e], xs, n + 1)
  {
    forall i | 0 <= i < n + 1 ensures Moves(s, es + [e], xs, i) {
      if i < n {
        assert Moves(s, es, xs, i);
      }
    }
  }

  // ---------- Results ----------

  /** The gain (t + (a - t) / r) / a lies between 1 / r and 1. */
  lemma GainBounds(a: real, t: real, r: real, inverse: real, over: real, gain: real)
    requires 0.0 <= t < a && 1.0 <= r && inverse * r == 1.0 && over * r == a - t && gain * a == t + over
    ensures inverse <= gain <= 1.0
  {
    AtMost(over, r, a - t);
    var ga := gain * a;
    assert ga <= a;
    Cancel(gain, 1.0, a);
    Product(t, r - 1.0);
    assert (gain * a) * r == t * r + (a - t);
    assert t * r == t + t * (r - 1.0);
    assert (gain * r) * a == (gain * a) * r;
    Cancel(1.0, gain * r, a);
    assert inverse * r <= gain * r;
    Cancel(inverse, gain, r);
  }

  lemma Product(a: real, b: real)
    requires 0.0 <= a && 0.0 <= b
    ensures 0.0 <= a * b
  {
  }

  lemma AtMost(v: real, r: real, w: real)
    requires 1.0 <= r && v * r == w && 0.0 <= w
    ensures v <= w
  {
    if v < 0.0 {
      Product(-v, r - 1.0);
    } else {
      Product(v, r - 1.0);
    }
  }

  lemma Cancel(a: real, b: real, c: real)
    requires 0.0 < c && a * c <= b * c
    ensures a <= b
  {
    if b < a {
      Positive(a - b, c);
    }
  }

  lemma Positive(a: real, b: real)
    requires 0.0 < a && 0.0 < b
    ensures 0.0 < a * b
  {
  }

  lemma TargetBounds(s: Setting, x: real)
    requires Admitted(s)
    ensures 0.0 <= 1.0 / s.ratio <= Target(s, x) <= 1.0
  {
    Quotient(1.0, s.ratio);
    AtMost(1.0 / s.ratio, s.ratio, 1.0);
    var a := Abs(x);
    if a > s.threshold {
      Quotient(a - s.threshold, s.ratio);
      Quotient(s.threshold + (a - s.threshold) / s.ratio, a);
      GainBounds(a, s.threshold, s.ratio, 1.0 / s.ratio, (a - s.threshold) / s.ratio, Target(s, x));
    }
  }

  lemma SmoothBounds(k: real, e: real, t: real, low: real)
    requires 0.0 < k < 1.0 && low <= e <= 1.0 && low <= t <= 1.0
    ensures low <= Smooth(k, e, t) <= 1.0
  {
    Product(k, 1.0 - e);
    Product(1.0 - k, 1.0 - t);
    Product(k, e - low);
    Product(1.0 - k, t - low);
  }

  /** Over any stream the envelope stays between 1 / ratio and 1. */
  lemma {:induction false} EnvelopeBounds(s: Setting, es: seq<real>, xs: seq<real>, i: nat)
    requires Admitted(s) && Course(s, es, xs) && 1.0 / s.ratio <= es[0] <= 1.0 && i < |es|
    ensures 0.0 <= 1.0 / s.ratio <= es[i] <= 1.0
  {
    if i == 0 {
      Quotient(1.0, s.ratio);
    } else {
      EnvelopeBounds(s, es, xs, i - 1);
      TargetBounds(s, xs[i - 1]);
      assert Moves(s, es, xs, i - 1);
      SmoothBounds(Coefficient(s, es[i - 1], xs[i - 1]), es[i - 1], Target(s, xs[i - 1]), 1.0 / s.ratio);
    }
  }

  /** From the first sample on, the compressor never makes a sample louder, nor weaker than
      1 / ratio of it. */
  lemma NeverLouder(s: Setting, es: seq<real>, xs: seq<real>, i: nat)
    requires Admitted(s) && Course(s, es, xs) && es[0] == 1.0 && i < |xs|
    ensures Abs(xs[i]) * (1.0 / s.ratio) <= Abs(xs[i] * es[i + 1]) <= Abs(xs[i])
  {
    TargetBounds(s, xs[i]);
    EnvelopeBounds(s, es, xs, i + 1);
    Multiplied(xs[i], es[i + 1], 1.0 / s.ratio);
  }

  lemma Multiplied(x: real, e: real, low: real)
    requires 0.0 <= low <= e <= 1.0
    ensures Abs(x) * low <= Abs(x * e) <= Abs(x)
  {
    Product(Abs(x), 1.0 - e);
    Product(Abs(x), e - low);
    Product(Abs(x), e);
  }

  function Power(k: real, n: nat): real {
    if n == 0 then 1.0 else k * Power(k, n - 1)
  }

  lemma {:induction false} PowerPositive(k: real, n: nat)
    requires 0.0 < k
    ensures 0.0 < Power(k, n)
  {
    if n > 0 {
      PowerPositive(k, n - 1);
    }
  }

  /** The gain that a sample asks for leaves quiet samples alone and divides what a louder one has
      above the threshold by the ratio. */
  lemma TargetDividesExcess(s: Setting, x: real)
    requires Admitted(s)
    ensures var loud := if x < 0.0 then -x else x;
      if loud <= s.threshold then Target(s, x) == 1.0
      else (loud * Target(s, x) - s.threshold) * s.ratio == loud - s.threshold
  {
    var a := Abs(x);
    if a > s.threshold {
      Quotient(s.threshold + (a - s.threshold) / s.ratio, a);
      assert a * Target(s, x) == s.threshold + (a - s.threshold) / s.ratio by {
        var q := (s.threshold + (a - s.threshold) / s.ratio) / a;
        assert q * a == s.threshold + (a - s.threshold) / s.ratio;
      }
    }
  }

  /** Whatever the sample, the distance to what it asks for shrinks by exactly the coefficient: the
      attack's when the envelope is above it, the release's otherwise. */
  lemma DistanceShrinks(s: Setting, envelope: real, x: real)
    requires Admitted(s)
    ensures Next(s, envelope, x) - Target(s, x)
            == (if Target(s, x) < envelope then s.attackCoef else s.releaseCoef) * (envelope - Target(s, x))
  {
    SmoothDistance(Coefficient(s, envelope, x), envelope, Target(s, x));
  }

  lemma SmoothDistance(k: real, e: real, t: real)
    ensures Smooth(k, e, t) - t == k * (e - t)
  {
  }

  /** One sample further: attacking while above the target, and resting once there. */
  lemma OneCloser(k: real, release: real, power: real, e: real, t: real)
    requires 0.0 < k && 0.0 < power && t <= 1.0 && e - t == power * (1.0 - t)
    ensures t <= e
    ensures var next := Smooth(if t < e then k else release, e, t); next - t == (k * power) * (1.0 - t)
  {
    Product(power, 1.0 - t);
    SmoothDistance(k, e, t);
    assert k * (power * (1.0 - t)) == (k * power) * (1.0 - t);
    if e == t {
      if 1.0 - t > 0.0 {
        Positive(power, 1.0 - t);
      }
      SmoothDistance(release, e, t);
    }
  }

  /** Under a constant input above the threshold the envelope, which starts at 1, approaches the
      target from above: after n samples the distance is the n-th power of the attack coefficient
      times the first distance. */
  lemma {:induction false} Converges(s: Setting, es: seq<real>, xs: seq<real>, x: real, n: nat)
    requires Admitted(s) && Course(s, es, xs) && es[0] == 1.0 && n < |es|
    requires Abs(x) > s.threshold && forall i :: 0 <= i < |xs| ==> xs[i] == x
    ensures es[n] - Target(s, x) == Power(s.attackCoef, n) * (1.0 - Target(s, x)) && Target(s, x) <= es[n]
  {
    TargetBounds(s, x);
    if n > 0 {
      Converges(s, es, xs, x, n - 1);
      assert Moves(s, es, xs, n - 1);
      PowerPositive(s.attackCoef, n - 1);
      OneCloser(s.attackCoef, s.releaseCoef, Power(s.attackCoef, n - 1), es[n - 1], Target(s, x));
      PowerPositive(s.attackCoef, n);
      Product(Power(s.attackCoef, n), 1.0 - Target(s, x));
    }
  }
}
