/** Data model of the terrain-profile process: sample records, profile points,
    the summary statistics and the tagged outcome of one request. */
module ProfileTypes {

  /** Present or absent value; `None` marks a read that raised. */
  datatype Option<+T> = None | Some(value: T)

  /** Number of positions sampled along the line. */
  const NumPoints: nat := 100

  /** A profile with fewer retained points than this is rejected. */
  const MinPoints: nat := 5

  /** Distance assigned per sample index (a fictitious spacing, not a measured one). */
  const Spacing: real := 100.0

  /** Exclusive bounds of the plausible-elevation band. */
  const LowElevation: real := -1000.0
  const HighElevation: real := 9000.0

  /** The slope reported on every path. */
  const ConstantSlope: real := 5.0

  /** A position on the line, in the line's own coordinates. */
  datatype Point = Point(x: real, y: real)

  /** One sampled position with the outcome of reading the elevation there. */
  datatype Sample = Sample(x: real, y: real, elev: Option<real>)

  /** One entry of the output profile. */
  datatype ProfilePoint = ProfilePoint(distance: real, x: real, y: real, elevation: real)

  /** The `stats` object of the output. */
  datatype Stats = Stats(
    distanceTotale: real,
    altMax: real,
    altMin: real,
    altMoy: real,
    denivele: real,
    penteMoyDeg: real)

  /** The `profile` and `stats` members of the JSON written back. */
  datatype Response = Response(profile: seq<ProfilePoint>, stats: Stats)

  /** What one request ends in: computed statistics, or the exception fallback. */
  datatype Outcome = Success(profile: seq<ProfilePoint>, stats: Stats) | Fallback

  /** Strictly inside the plausible band. */
  predicate InBand(e: real) {
    LowElevation < e < HighElevation
  }
}
