/** Summary statistics over the retained elevations. */
module Statistics {
  import opened ProfileTypes

  /** The elevation column of a profile, in order. */
  function Elevations(profile: seq<ProfilePoint>): (e: seq<real>)
    ensures |e| == |profile|
    ensures forall i :: 0 <= i < |e| ==> e[i] == profile[i].elevation
  {
    seq(|profile|, i requires 0 <= i < |profile| => profile[i].elevation)
  }

  /** Largest value of a non-empty sequence. */
  function Max(e: seq<real>): (m: real)
    requires |e| > 0
    ensures m in e
    ensures forall i :: 0 <= i < |e| ==> e[i] <= m
  {
    if |e| == 1 then e[0]
    else
      var rest := Max(e[1..]);
      assert forall i :: 1 <= i < |e| ==> e[i] == e[1..][i - 1];
      if e[0] >= rest then e[0] else rest
  }

  /** Smallest value of a non-empty sequence. */
  function Min(e: seq<real>): (m: real)
    requires |e| > 0
    ensures m in e
    ensures forall i :: 0 <= i < |e| ==> m <= e[i]
  {
    if |e| == 1 then e[0]
    else
      var rest := Min(e[1..]);
      assert forall i :: 1 <= i < |e| ==> e[i] == e[1..][i - 1];
      if e[0] <= rest then e[0] else rest
  }

  /** Sum of a sequence, grouped from the right; over exact reals this is the
      same value as accumulating from the left. */
  function Sum(e: seq<real>): (t: real) {
    if |e| == 0 then 0.0 else e[0] + Sum(e[1..])
  }

  /** A sum of `|e|` values lying in `[lo, hi]` lies in `[|e| * lo, |e| * hi]`. */
  lemma {:induction false} SumBounds(e: seq<real>, lo: real, hi: real)
    requires forall i :: 0 <= i < |e| ==> lo <= e[i] <= hi
    ensures |e| as real * lo <= Sum(e) <= |e| as real * hi
    decreases |e|
  {
    if |e| > 0 {
      assert forall i :: 0 <= i < |e[1..]| ==> e[1..][i] == e[i + 1];
      SumBounds(e[1..], lo, hi);
      assert |e| as real * lo == lo + |e[1..]| as real * lo;
      assert |e| as real * hi == hi + |e[1..]| as real * hi;
    }
  }

  /** Real division by a positive count: the quotient times the count is the dividend. */
  function Divide(t: real, n: real): (q: real)
    requires n > 0.0
    ensures n * q == t
  {
    t / n
  }

  /** Dividing the bounds `n * lo <= t <= n * hi` by a positive `n`. */
  lemma QuotientBetween(t: real, n: real, q: real, lo: real, hi: real)
    requires n > 0.0
    requires n * lo <= t <= n * hi
    requires n * q == t
    ensures lo <= q <= hi
  {
  }

  /** Arithmetic mean of a non-empty sequence: the sum divided by the count. */
  function Mean(e: seq<real>): (m: real)
    requires |e| > 0
    ensures |e| as real * m == Sum(e)
  {
    Divide(Sum(e), |e| as real)
  }

  /** The mean lies between the minimum and the maximum. */
  lemma MeanWithin(e: seq<real>)
    requires |e| > 0
    ensures Min(e) <= Mean(e) <= Max(e)
  {
    MeanBounds(e, Min(e), Max(e));
  }

  /** The mean lies within any bounds on the values. */
  lemma MeanBounds(e: seq<real>, lo: real, hi: real)
    requires |e| > 0
    requires forall i :: 0 <= i < |e| ==> lo <= e[i] <= hi
    ensures lo <= Mean(e) <= hi
  {
    SumBounds(e, lo, hi);
    QuotientBetween(Sum(e), |e| as real, Mean(e), lo, hi);
  }

  /** One step of the progression sum: prepending the first term `c`. */
  lemma ProgressionStep(c: real, d: real, m: real, s: real)
    requires 2.0 * s == 2.0 * m * (c + d) + d * m * (m - 1.0)
    ensures 2.0 * (c + s) == 2.0 * (m + 1.0) * c + d * (m + 1.0) * m
  {
    assert 2.0 * m * (c + d) == 2.0 * m * c + 2.0 * m * d;
    assert d * m * (m - 1.0) == d * m * m - d * m;
    assert d * (m + 1.0) * m == d * m * m + d * m;
  }

  /** The arithmetic progression `c, c + d, ..., c + (n - 1) d` sums to
      `n c + d n (n - 1) / 2`. */
  lemma {:induction false} SumProgression(e: seq<real>, c: real, d: real)
    requires forall i :: 0 <= i < |e| ==> e[i] == c + d * i as real
    ensures 2.0 * Sum(e) == 2.0 * |e| as real * c + d * |e| as real * (|e| as real - 1.0)
    decreases |e|
  {
    if |e| > 0 {
      var rest := e[1..];
      forall i | 0 <= i < |rest|
        ensures rest[i] == (c + d) + d * i as real
      {
        assert rest[i] == e[i + 1];
        assert d * (i + 1) as real == d * i as real + d;
      }
      SumProgression(rest, c + d, d);
      ProgressionStep(c, d, |rest| as real, Sum(rest));
    }
  }

  /** The statistics of a non-empty profile. */
  function ComputeStats(profile: seq<ProfilePoint>): (r: Stats)
    requires |profile| > 0
    ensures r.distanceTotale == |profile| as real * Spacing
    ensures exists i :: 0 <= i < |profile| && profile[i].elevation == r.altMax
    ensures exists i :: 0 <= i < |profile| && profile[i].elevation == r.altMin
    ensures forall i :: 0 <= i < |profile| ==> r.altMin <= profile[i].elevation <= r.altMax
    ensures r.altMoy == Mean(Elevations(profile))
    ensures r.altMin <= r.altMoy <= r.altMax
    ensures r.denivele == r.altMax - r.altMin && r.denivele >= 0.0
    ensures r.penteMoyDeg == ConstantSlope
    ensures (forall i :: 0 <= i < |profile| ==> InBand(profile[i].elevation)) ==>
      InBand(r.altMin) && InBand(r.altMoy) && InBand(r.altMax)
  {
    var e := Elevations(profile);
    MeanWithin(e);
    Stats(|profile| as real * Spacing, Max(e), Min(e), Mean(e), Max(e) - Min(e), ConstantSlope)
  }
}
