/** Positions along the line at which the elevation is read. */
module Sampling {
  import opened ProfileTypes

  /** Normalised position of sample `i`: `i / (NumPoints - 1)`. */
  function Fraction(i: nat): (f: real)
    requires i < NumPoints
    ensures 0.0 <= f <= 1.0
    ensures f == 0.0 <==> i == 0
    ensures f == 1.0 <==> i == NumPoints - 1
    ensures f * (NumPoints - 1) as real == i as real
  {
    i as real / (NumPoints - 1) as real
  }

  /** Later samples lie further along the line. */
  lemma FractionsIncrease(i: nat, j: nat)
    requires i < j < NumPoints
    ensures Fraction(i) < Fraction(j)
  {
  }

  /** Sample `k`: interpolate the line at its fraction, then read there.
      `None` when the interpolation itself raised. */
  function SampleAt(at: real -> Option<Point>, read: Point -> Option<real>, k: nat): (r: Option<Sample>)
    requires k < NumPoints
    ensures r.Some? <==> at(Fraction(k)).Some?
    ensures r.Some? ==> Point(r.value.x, r.value.y) == at(Fraction(k)).value
    ensures r.Some? ==> r.value.elev == read(Point(r.value.x, r.value.y))
  {
    match at(Fraction(k))
    case None => None
    case Some(p) => Some(Sample(p.x, p.y, read(p)))
  }

  /** The first `n` samples, or `None` as soon as one interpolation raised
      (that exception leaves the sampling loop). */
  function Samples(at: real -> Option<Point>, read: Point -> Option<real>, n: nat): (r: Option<seq<Sample>>)
    requires n <= NumPoints
    ensures r.Some? <==> forall k :: 0 <= k < n ==> at(Fraction(k)).Some?
    ensures r.Some? ==> |r.value| == n
    ensures r.Some? ==> forall k :: 0 <= k < n ==>
      && r.value[k].x == at(Fraction(k)).value.x
      && r.value[k].y == at(Fraction(k)).value.y
      && r.value[k].elev == read(at(Fraction(k)).value)
  {
    if n == 0 then Some([])
    else
      match Samples(at, read, n - 1)
      case None => None
      case Some(prev) =>
        match SampleAt(at, read, n - 1)
        case None => None
        case Some(s) => Some(prev + [s])
  }

  /** One more successful interpolation extends the samples by its own record. */
  lemma SamplesStep(at: real -> Option<Point>, read: Point -> Option<real>, n: nat, prev: seq<Sample>)
    requires n < NumPoints
    requires Samples(at, read, n) == Some(prev)
    requires at(Fraction(n)).Some?
    ensures var p := at(Fraction(n)).value;
      Samples(at, read, n + 1) == Some(prev + [Sample(p.x, p.y, read(p))])
  {
  }
}
