/** The profile request handler: sample the line, filter, check the threshold,
    summarise, and fall back to a fixed fake profile on every failure outside
    the per-point reads. */
module ProfileProcess {
  import opened ProfileTypes
  import opened Sampling
  import opened Extraction
  import opened Statistics

  /** What the handler gets to work with. `Unreadable` stands for every failure
      before sampling starts: the `line` input is missing, its geometry JSON
      does not parse, the geometry cannot be built, the geometry has no single
      coordinate sequence (a polygon or a multi-part geometry), or the
      elevation raster cannot be opened. Otherwise
      `at` interpolates the line at a normalised fraction (`None`: the
      interpolation raised) and `read` reads the raster at a point (`None`:
      the read raised). */
  datatype Request =
    | Unreadable
    | Readable(at: real -> Option<Point>, read: Point -> Option<real>)

  /** Number of points of the fallback profile. */
  const FakeCount: nat := 50

  /** The fallback profile: point `i` at distance `100 * i`, at the origin,
      with elevation `1000 + 10 * i`. */
  function FakeProfile(): (f: seq<ProfilePoint>) {
    seq(FakeCount, i requires 0 <= i < FakeCount =>
      ProfilePoint(i as real * Spacing, 0.0, 0.0, 1000.0 + i as real * 10.0))
  }

  /** The fallback statistics, as literal values. */
  function FallbackStats(): (st: Stats) {
    Stats(5000.0, 1500.0, 1000.0, 1250.0, 500.0, 5.0)
  }

  /** The samples the handler reads, or `None` when it never gets to read them all. */
  function SampledLine(req: Request): (r: Option<seq<Sample>>)
    ensures r.Some? <==> req.Readable? && forall k :: 0 <= k < NumPoints ==> req.at(Fraction(k)).Some?
    ensures r.Some? ==> |r.value| == NumPoints
    ensures r.Some? ==> forall k :: 0 <= k < NumPoints ==>
      && r.value[k].x == req.at(Fraction(k)).value.x
      && r.value[k].y == req.at(Fraction(k)).value.y
      && r.value[k].elev == req.read(req.at(Fraction(k)).value)
  {
    match req
    case Unreadable => None
    case Readable(at, read) => Samples(at, read, NumPoints)
  }

  /** The threshold step: too few points is a failure, otherwise statistics. */
  function Summarise(profile: seq<ProfilePoint>): (o: Outcome)
    ensures o.Success? <==> |profile| >= MinPoints
    ensures o.Success? ==> o.profile == profile
    ensures o.Success? ==> o.stats == ComputeStats(profile)
    ensures o.Success? ==> o.stats.distanceTotale == |profile| as real * Spacing
    ensures o.Success? ==> forall i :: 0 <= i < |profile| ==>
      o.stats.altMin <= profile[i].elevation <= o.stats.altMax
  {
    if |profile| < MinPoints then Fallback
    else Success(profile, ComputeStats(profile))
  }

  /** One request, end to end. */
  function Handle(req: Request): (o: Outcome)
    ensures o.Success? <==>
      && req.Readable?
      && (forall k :: 0 <= k < NumPoints ==> req.at(Fraction(k)).Some?)
      && CountKept(SampledLine(req).value) >= MinPoints
    ensures o.Success? ==> o.profile == Extract(SampledLine(req).value)
    ensures o.Success? ==> MinPoints <= |o.profile| <= NumPoints
    ensures o.Success? ==> o.stats == ComputeStats(o.profile)
    ensures o.Success? ==>
      MinPoints as real * Spacing <= o.stats.distanceTotale <= NumPoints as real * Spacing
  {
    match SampledLine(req)
    case None => Fallback
    case Some(samples) =>
      ExtractCount(samples);
      Summarise(Extract(samples))
  }

  /** What is written back for an outcome. */
  function Body(o: Outcome): (r: Response) {
    match o
    case Success(profile, stats) => Response(profile, stats)
    case Fallback => Response(FakeProfile(), FallbackStats())
  }

  /** Profile point `p` is what sample position `k` of a readable request
      yields: its distance is 100 times `k`, its coordinates are the point
      interpolated at `k`'s fraction, and its elevation is the value read there. */
  predicate TracesTo(req: Request, k: nat, p: ProfilePoint) {
    && req.Readable?
    && k < NumPoints
    && p.distance == k as real * Spacing
    && req.at(Fraction(k)) == Some(Point(p.x, p.y))
    && req.read(Point(p.x, p.y)) == Some(p.elevation)
  }

  /** Every retained point comes from one sample position. */
  lemma SuccessPointTracesToSample(req: Request, j: nat)
    ensures var o := Handle(req);
      o.Success? && j < |o.profile| ==> exists k: nat :: TracesTo(req, k, o.profile[j])
  {
    var o := Handle(req);
    if o.Success? && j < |o.profile| {
      var s := SampledLine(req).value;
      assert |s| == NumPoints;
      assert o.profile == Extract(s);
      ExtractFrom(s, j);
      var k :| 0 <= k < |s| && Retain(s[k], k) == Some(o.profile[j]);
      var q := req.at(Fraction(k)).value;
      assert q == Point(s[k].x, s[k].y);
      assert TracesTo(req, k, o.profile[j]);
    }
  }

  /** Every sample position whose read succeeds inside the band yields its
      point: a failed or implausible read elsewhere does not stop the loop. */
  lemma SuccessKeepsEveryPlausibleRead(req: Request, k: nat)
    requires k < NumPoints
    ensures Handle(req).Success? ==>
      var p := req.at(Fraction(k)).value;
      req.read(p).Some? && InBand(req.read(p).value) ==>
        ProfilePoint(k as real * Spacing, p.x, p.y, req.read(p).value) in Handle(req).profile
  {
    if Handle(req).Success? {
      var s := SampledLine(req).value;
      if Retain(s[k], k).Some? {
        ExtractKeeps(s, k);
      }
    }
  }

  /** On success the profile is ordered by index, lies in the band, and its
      statistics bracket the mean between the extremes, all inside the band. */
  lemma SuccessProfileWellFormed(req: Request)
    ensures var o := Handle(req);
      o.Success? ==>
      && (forall i, j :: 0 <= i < j < |o.profile| ==> o.profile[i].distance < o.profile[j].distance)
      && (forall j :: 0 <= j < |o.profile| ==>
            0.0 <= o.profile[j].distance <= (NumPoints - 1) as real * Spacing)
      && (forall j :: 0 <= j < |o.profile| ==> InBand(o.profile[j].elevation))
      && o.stats.altMin <= o.stats.altMoy <= o.stats.altMax
      && o.stats.denivele == o.stats.altMax - o.stats.altMin
      && InBand(o.stats.altMin) && InBand(o.stats.altMoy) && InBand(o.stats.altMax)
  {
    if Handle(req).Success? {
      var s := SampledLine(req).value;
      assert |s| == NumPoints;
      ExtractOrdered(s);
    }
  }

  /** Fewer than five plausible reads always ends in the fallback. */
  lemma TooFewPointsFallsBack(req: Request)
    requires req.Readable? && SampledLine(req).Some?
    requires CountKept(SampledLine(req).value) < MinPoints
    ensures Handle(req) == Fallback
    ensures Body(Handle(req)) == Response(FakeProfile(), FallbackStats())
  {
  }

  /** The reported slope is the constant 5 degrees whichever path is taken. */
  lemma SlopeIsConstant(req: Request)
    ensures Body(Handle(req)).stats.penteMoyDeg == ConstantSlope
  {
  }

  /** The fallback profile has the shape of a real one: 50 points, strictly
      increasing distances from 0, every elevation inside the band. */
  lemma FakeProfileWellFormed()
    ensures |FakeProfile()| == FakeCount
    ensures FakeProfile()[0].distance == 0.0
    ensures forall i, j :: 0 <= i < j < FakeCount ==> FakeProfile()[i].distance < FakeProfile()[j].distance
    ensures forall i :: 0 <= i < FakeCount ==> InBand(FakeProfile()[i].elevation)
    ensures forall i :: 0 <= i < FakeCount ==> FakeProfile()[i].x == 0.0 && FakeProfile()[i].y == 0.0
  {
  }

  /** The fallback profile's elevations: `1000 + 10 i` for `i` in `0..49`. */
  predicate FakeShaped(f: seq<ProfilePoint>) {
    && |f| == FakeCount
    && forall i :: 0 <= i < |f| ==> f[i].elevation == 1000.0 + 10.0 * i as real
  }

  /** Statistics of any profile shaped like the fallback one. */
  lemma FakeShapedStats(f: seq<ProfilePoint>)
    requires FakeShaped(f)
    ensures ComputeStats(f).altMax == 1490.0
    ensures ComputeStats(f).altMin == 1000.0
    ensures ComputeStats(f).denivele == 490.0
    ensures ComputeStats(f).distanceTotale == 5000.0
    ensures Sum(Elevations(f)) == 62250.0
    ensures ComputeStats(f).altMoy == 1245.0
  {
    var st := ComputeStats(f);
    assert f[FakeCount - 1].elevation == 1490.0;
    assert f[0].elevation == 1000.0;
    var i :| 0 <= i < |f| && f[i].elevation == st.altMax;
    var j :| 0 <= j < |f| && f[j].elevation == st.altMin;
    var e := Elevations(f);
    SumProgression(e, 1000.0, 10.0);
    assert 2.0 * Sum(e) == 124500.0;
    assert 50.0 * Mean(e) == Sum(e);
  }

  /** The literal fallback statistics do not describe the fallback profile:
      its highest elevation is 1490, not the 1500 reported, so the relief is
      490, not 500; the elevations sum to 62250, so the mean is 1245, not
      1250. Only the total distance and the lowest elevation agree. */
  lemma FallbackStatsDisagree()
    ensures ComputeStats(FakeProfile()).altMax == 1490.0 != FallbackStats().altMax
    ensures ComputeStats(FakeProfile()).denivele == 490.0 != FallbackStats().denivele
    ensures Sum(Elevations(FakeProfile())) == 62250.0
    ensures ComputeStats(FakeProfile()).altMoy == 1245.0 != FallbackStats().altMoy
    ensures ComputeStats(FakeProfile()).distanceTotale == FallbackStats().distanceTotale
    ensures ComputeStats(FakeProfile()).altMin == FallbackStats().altMin
  {
    FakeShapedStats(FakeProfile());
  }

  /** The sampling loop: interpolate at each fraction in turn, read there and
      keep the plausible reads. `None` when an interpolation raised. */
  method SampleProfile(at: real -> Option<Point>, read: Point -> Option<real>)
    returns (r: Option<seq<ProfilePoint>>)
    ensures r.None? <==> Samples(at, read, NumPoints).None?
    ensures r.Some? ==> r.value == Extract(Samples(at, read, NumPoints).value)
  {
    var profile: seq<ProfilePoint> := [];
    ghost var samples: seq<Sample> := [];
    var i: nat := 0;
    while i < NumPoints
      invariant i <= NumPoints
      invariant Samples(at, read, i) == Some(samples)
      invariant profile == Extract(samples)
    {
      var fraction := i as real / (NumPoints - 1) as real;
      var point := at(fraction);
      if point.None? {
        assert fraction == Fraction(i);
        return None;
      }
      var p := point.value;
      assert at(Fraction(i)) == Some(p);
      var elevation := read(p);
      if elevation.Some? && LowElevation < elevation.value < HighElevation {
        profile := profile + [ProfilePoint(i as real * Spacing, p.x, p.y, elevation.value)];
      }
      SamplesStep(at, read, i, samples);
      ExtractSnoc(samples, Sample(p.x, p.y, elevation));
      samples := samples + [Sample(p.x, p.y, elevation)];
      i := i + 1;
    }
    return Some(profile);
  }

  /** The handler step by step: sampling loop, then the threshold, with every
      failure outside the per-point reads turned into the fallback; a failed
      read only drops its point. */
  method HandleLoop(req: Request) returns (o: Outcome)
    ensures o == Handle(req)
  {
    if req.Unreadable? {
      return Fallback;
    }
    var sampled := SampleProfile(req.at, req.read);
    if sampled.None? {
      return Fallback;
    }
    var profile := sampled.value;
    if |profile| < MinPoints {
      return Fallback;
    }
    return Success(profile, ComputeStats(profile));
  }
}
