/** Bounds on samples under the operations that filters use. */
module SampleBounds {
  predicate Within(x: real, bound: real) {
    -bound <= x <= bound
  }

  predicate AllWithin(xs: seq<real>, bound: real) {
    forall i :: 0 <= i < |xs| ==> Within(xs[i], bound)
  }

  lemma Scaled(x: real, a: real, bound: real)
    requires 0.0 <= a && Within(x, bound)
    ensures Within(x * a, bound * a)
  {
    assert (bound - x) * a >= 0.0;
    assert (bound + x) * a >= 0.0;
  }

  lemma Blended(x: real, y: real, a: real, bound: real)
    requires 0.0 <= a <= 1.0 && Within(x, bound) && Within(y, bound)
    ensures Within(x * a + y * (1.0 - a), bound)
  {
    Scaled(x, a, bound);
    Scaled(y, 1.0 - a, bound);
    Complement(bound, a);
    Joined(x * a, y * (1.0 - a), bound * a, bound * (1.0 - a));
  }

  lemma Joined(p: real, q: real, u: real, v: real)
    requires Within(p, u) && Within(q, v)
    ensures Within(p + q, u + v)
  {
  }

  lemma Complement(bound: real, a: real)
    ensures bound * a + bound * (1.0 - a) == bound
  {
  }

  /** One more summand within the same bound. */
  lemma Summed(sum: real, out: real, limit: real, k: nat)
    requires 0 < k && Within(sum, (k - 1) as real * limit) && Within(out, limit)
    ensures Within(sum + out, k as real * limit)
  {
    assert k as real * limit == (k - 1) as real * limit + limit;
  }

  /** A loop of this gain, fed with inputs up to `input`, stays within `bound`. */
  predicate Stable(input: real, gain: real, bound: real) {
    0.0 <= gain && 0.0 <= bound && input + bound * gain <= bound
  }

  lemma FedBack(x: real, w: real, gain: real, input: real, bound: real)
    requires Stable(input, gain, bound) && Within(x, input) && Within(w, bound)
    ensures Within(x + w * gain, bound)
  {
    Scaled(w, gain, bound);
  }

  /** The closed form: with a gain below one the limit is input / (1 - gain). */
  lemma StableLimit(input: real, gain: real)
    requires 0.0 <= input && 0.0 <= gain < 1.0
    ensures 0.0 <= input / (1.0 - gain) && Stable(input, gain, input / (1.0 - gain))
  {
    Quotient(input, 1.0 - gain);
    var bound := input / (1.0 - gain);
    assert bound * (1.0 - gain) == bound - bound * gain;
  }

  lemma Quotient(a: real, b: real)
    requires 0.0 <= a && 0.0 < b
    ensures 0.0 <= a / b && (a / b) * b == a
  {
  }
}
