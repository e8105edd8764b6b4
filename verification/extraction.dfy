/** The elevation filter: which samples become profile points, and with what distance. */
module Extraction {
  import opened ProfileTypes

  /** The profile point sample `s` at index `k` contributes, if its read
      succeeded and the elevation is inside the band; otherwise it is skipped. */
  function Retain(s: Sample, k: nat): (r: Option<ProfilePoint>)
    ensures r.Some? <==> s.elev.Some? && InBand(s.elev.value)
    ensures r.Some? ==> r.value.distance == k as real * Spacing
    ensures r.Some? ==> r.value.x == s.x && r.value.y == s.y && Some(r.value.elevation) == s.elev
  {
    if s.elev.Some? && InBand(s.elev.value)
    then Some(ProfilePoint(k as real * Spacing, s.x, s.y, s.elev.value))
    else None
  }

  /** The profile built from the samples `s`, in index order. */
  function Extract(s: seq<Sample>): (r: seq<ProfilePoint>)
    ensures |r| <= |s|
    ensures forall j :: 0 <= j < |r| ==> InBand(r[j].elevation)
    decreases |s|
  {
    if |s| == 0 then []
    else
      var n := |s| - 1;
      var prev := Extract(s[..n]);
      match Retain(s[n], n)
      case None => prev
      case Some(p) => prev + [p]
  }

  /** Profile distances lie in `[0, 100 (n - 1)]` and strictly increase:
      points keep the index order of their samples. */
  lemma {:induction false} ExtractOrdered(s: seq<Sample>)
    ensures forall j :: 0 <= j < |Extract(s)| ==>
      0.0 <= Extract(s)[j].distance <= (|s| - 1) as real * Spacing
    ensures forall i, j :: 0 <= i < j < |Extract(s)| ==> Extract(s)[i].distance < Extract(s)[j].distance
    decreases |s|
  {
    if |s| > 0 {
      var n := |s| - 1;
      assert s == s[..n] + [s[n]];
      ExtractSnoc(s[..n], s[n]);
      ExtractOrdered(s[..n]);
    }
  }

  /** One more sample appends at most its own point. */
  lemma ExtractSnoc(s: seq<Sample>, t: Sample)
    ensures Extract(s + [t]) ==
      if Retain(t, |s|).Some? then Extract(s) + [Retain(t, |s|).value] else Extract(s)
  {
    assert (s + [t])[..|s|] == s;
  }

  /** Completeness: the point of every sample that passes the filter is in the profile. */
  lemma {:induction false} ExtractKeeps(s: seq<Sample>, k: nat)
    requires k < |s| && Retain(s[k], k).Some?
    ensures Retain(s[k], k).value in Extract(s)
    decreases |s|
  {
    var n := |s| - 1;
    assert s == s[..n] + [s[n]];
    ExtractSnoc(s[..n], s[n]);
    if k < n {
      assert s[..n][k] == s[k];
      ExtractKeeps(s[..n], k);
    }
  }

  /** Soundness: every profile point is the point of one sample that passes the filter. */
  lemma {:induction false} ExtractFrom(s: seq<Sample>, j: nat)
    requires j < |Extract(s)|
    ensures exists k :: 0 <= k < |s| && Retain(s[k], k) == Some(Extract(s)[j])
    decreases |s|
  {
    var n := |s| - 1;
    assert s == s[..n] + [s[n]];
    ExtractSnoc(s[..n], s[n]);
    if j < |Extract(s[..n])| {
      ExtractFrom(s[..n], j);
      var k :| 0 <= k < n && Retain(s[..n][k], k) == Some(Extract(s[..n])[j]);
      assert s[..n][k] == s[k];
    } else {
      assert Retain(s[n], n) == Some(Extract(s)[j]);
    }
  }

  /** Number of samples that pass the filter, counted from the front. */
  function CountKept(s: seq<Sample>): (n: nat) {
    if |s| == 0 then 0
    else (if s[0].elev.Some? && InBand(s[0].elev.value) then 1 else 0) + CountKept(s[1..])
  }

  /** Counting from the back gives the same number. */
  lemma {:induction false} CountKeptSnoc(s: seq<Sample>, t: Sample)
    ensures CountKept(s + [t]) == CountKept(s) + (if t.elev.Some? && InBand(t.elev.value) then 1 else 0)
    decreases |s|
  {
    if |s| == 0 {
      assert s + [t] == [t];
      assert [t][1..] == [];
    } else {
      assert (s + [t])[1..] == s[1..] + [t];
      CountKeptSnoc(s[1..], t);
    }
  }

  /** Every sample that passes the filter yields exactly one profile point. */
  lemma {:induction false} ExtractCount(s: seq<Sample>)
    ensures |Extract(s)| == CountKept(s)
    decreases |s|
  {
    if |s| > 0 {
      var n := |s| - 1;
      assert s == s[..n] + [s[n]];
      ExtractCount(s[..n]);
      CountKeptSnoc(s[..n], s[n]);
    }
  }

  /** Reading further samples never revises the points already retained. */
  lemma {:induction false} ExtractPrefix(s: seq<Sample>, m: nat)
    requires m <= |s|
    ensures Extract(s[..m]) <= Extract(s)
    decreases |s|
  {
    if m == |s| {
      assert s[..m] == s;
    } else {
      var n := |s| - 1;
      var t := s[..n];
      assert t[..m] == s[..m];
      ExtractPrefix(t, m);
      assert Extract(t) <= Extract(s);
    }
  }
}
