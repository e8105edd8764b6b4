# Terrain profile process — Dafny model

This project models the `profil_topo` web process of a small geospatial
service. Given a line, the process samples 100 positions evenly along it,
reads the elevation at each from a digital elevation model, keeps the
plausible readings, and returns a profile with summary statistics. On any
failure outside the per-point reads it returns a fixed fake profile instead;
a failed per-point read only drops that point.

The model is a set of pure functions over immutable datatypes:

- `types.dfy` (`ProfileTypes`): samples, profile points, the `stats` record,
  the `Success`/`Fallback` outcome, and the constants (100 samples, at least 5
  points, 100 distance units per index, band (−1000, 9000), slope 5.0).
- `sampling.dfy` (`Sampling`): the sample fraction `i/99` and the 100
  interpolate-then-read steps. An interpolation that raises aborts the run.
- `extraction.dfy` (`Extraction`): the elevation filter. A sample whose read
  failed or fell outside the band is skipped. A kept sample at index `i`
  becomes a point at distance `100*i`.
- `statistics.dfy` (`Statistics`): max, min, sum and mean, and the `stats`
  record of a non-empty profile.
- `handler.dfy` (`ProfileProcess`): the whole request. It applies the
  five-point threshold and the exception fallback. `HandleLoop` is the
  handler's loop written imperatively and proved equal to `Handle`.

The geometry and raster libraries are parameters of a `Request`:
- `at` interpolates the line at a fraction. `None` means it raised.
- `read` samples the raster at a point. `None` means the read raised.
- `Unreadable` covers every failure before sampling: the `line` input is
  missing (line 29), its geometry JSON does not parse or the geometry cannot
  be built (lines 29-30), the geometry has no single coordinate sequence, as
  for a polygon or any multi-part geometry (line 31), or the raster cannot be
  opened (line 34). Such a request always falls back, even when the geometry
  itself is valid.

The code marks several of its values as placeholders, and the model keeps them as written:
- Distances are `100 * index`. The code comments this as a fictitious distance
  ("Distance fictive", line 52). It is not measured along the line.
- `distance_totale_m` is `100 * number of kept points`.
- The slope is the constant 5.0, commented as a test value ("Valeur fictive
  pour test", line 74).
- Every failure outside the per-point reads, that is every exception that
  reaches the outer handler at line 83, including the one raised for too few
  points at line 63, produces a 50-point fake profile
  with literal statistics, commented as debugging output (line 88).
  `FallbackStatsDisagree` shows those statistics do not fit the fake points.
  The reported maximum is 1500, but the fake elevations stop at 1490. The
  reported relief is 500, but the real one is 490. The reported mean is 1250,
  but the elevations sum to 62250, a mean of 1245.

## Model

| member | source | states |
|---|---|---|
| Sampling.Fraction | wps/profile_process.py:39-42 | the fraction of sample `i` lies in [0, 1]; it is 0 exactly for the first sample and 1 exactly for the last; times 99 it gives back `i` |
| Sampling.FractionsIncrease | wps/profile_process.py:41-42 | a later sample index has a strictly larger fraction along the line |
| ProfileTypes.InBand | wps/profile_process.py:50 | the plausibility test: strictly above −1000 and strictly below 9000 |
| Sampling.SampleAt | wps/profile_process.py:43-48 | the sample at index `k` exists exactly when the interpolation at `k/99` succeeds; it carries that point's coordinates and the read made at that point |
| Sampling.Samples | wps/profile_process.py:41-48 | the sampling exists exactly when every one of the first `n` interpolations succeeds; it then has `n` records, and record `k` has the coordinates interpolated at fraction `k/99` and the read made at that point |
| Extraction.Retain | wps/profile_process.py:50-56 | a sample gives a point exactly when its read succeeded and lies in the band; the point has distance `100·k` and the sample's `x`, `y` and elevation |
| Extraction.Extract | wps/profile_process.py:41-58 | at most one point per sample; every point's elevation is strictly inside (−1000, 9000) |
| Extraction.ExtractOrdered | wps/profile_process.py:41-56 | distances lie in [0, 100·(n−1)] and strictly increase along the profile: points keep the index order of their samples |
| Extraction.ExtractKeeps | wps/profile_process.py:45-58 | every sample whose read succeeded inside the band contributes its point, whatever failed before or after it |
| Extraction.ExtractFrom | wps/profile_process.py:50-56 | every profile point is the point of some kept sample `k`: distance `100·k`, the sample's own `x`, `y` and elevation |
| Extraction.ExtractCount | wps/profile_process.py:50-62 | the number of points equals the number of samples that pass the filter |
| Extraction.ExtractPrefix | wps/profile_process.py:41-58 | the points kept from the first `m` samples are a prefix of the final profile: later samples never revise earlier points |
| Statistics.Elevations | wps/profile_process.py:66 | the elevation list has one entry per profile point, in profile order |
| Statistics.Max | wps/profile_process.py:70 | the maximum is one of the values and is at least every value |
| Statistics.Min | wps/profile_process.py:71 | the minimum is one of the values and is at most every value |
| Statistics.Sum | wps/profile_process.py:72 | the `sum(elevations)`, over exact reals so that its grouping does not matter; what it computes is stated by `Statistics.SumBounds` (values in [lo, hi] sum to within [n·lo, n·hi]) and `Statistics.SumProgression` (the closed form of an arithmetic progression's sum) |
| Statistics.SumBounds | wps/profile_process.py:72 | a sum of `n` values in [lo, hi] lies in [n·lo, n·hi] |
| Statistics.Mean | wps/profile_process.py:72 | the mean times the number of values is their sum |
| Statistics.MeanBounds | wps/profile_process.py:72 | the mean lies within any lower and upper bound of the values |
| Statistics.MeanWithin | wps/profile_process.py:70-72 | the mean lies between the minimum and the maximum |
| Statistics.ComputeStats | wps/profile_process.py:66-75 | total distance is 100 × number of points; max and min are attained elevations that bound all others; the mean is the mean of the elevations; min ≤ mean ≤ max; relief = max − min ≥ 0; slope is 5.0; if every elevation is in the band, so are min, mean and max |
| ProfileProcess.Summarise | wps/profile_process.py:62-77 | the result is a success exactly when at least 5 points were kept; then it carries that profile and exactly the statistics `ComputeStats` gives for it |
| ProfileProcess.SampledLine | wps/profile_process.py:29-48 | the samples exist exactly when the request is readable and all 100 interpolations succeed; there are then 100 of them, and sample `k` has the coordinates interpolated at `k/99` and the read made at that point |
| ProfileProcess.Handle | wps/profile_process.py:27-107 | success exactly when the input is readable, all 100 interpolations succeed and at least 5 reads pass the filter; a success carries the filtered profile, 5 to 100 points, the statistics `ComputeStats` gives for that profile, and a total distance between 500 and 10000 |
| ProfileProcess.SuccessPointTracesToSample | wps/profile_process.py:43-56 | each point of a successful profile comes from one sample index `k`: distance `100·k`, coordinates equal to the point interpolated at `k/99`, elevation equal to the value read there |
| ProfileProcess.SuccessKeepsEveryPlausibleRead | wps/profile_process.py:45-58 | on success, every index whose read succeeded inside the band has its point in the profile |
| ProfileProcess.SuccessProfileWellFormed | wps/profile_process.py:50-73 | on success, distances strictly increase within [0, 9900]; elevations lie in the band; min ≤ mean ≤ max, all three inside the band; relief = max − min |
| ProfileProcess.TooFewPointsFallsBack | wps/profile_process.py:62-104 | fewer than 5 plausible reads always give the fallback: the fake profile with the literal statistics |
| ProfileProcess.SlopeIsConstant | wps/profile_process.py:68-104 | the reported slope is 5.0 on the success path and on the fallback path |
| ProfileProcess.FakeProfile | wps/profile_process.py:89-92 | the fake profile: point `i` of 50 at distance `100·i`, at the origin, elevation `1000 + 10·i` |
| ProfileProcess.FallbackStats | wps/profile_process.py:96-103 | the literal fallback statistics 5000, 1500, 1000, 1250, 500, 5.0 |
| ProfileProcess.Body | wps/profile_process.py:77-106 | what is written back: the computed profile and statistics on success, the fake profile and literal statistics on the fallback |
| ProfileProcess.FakeProfileWellFormed | wps/profile_process.py:89-92 | the fake profile has 50 points at the origin; distances start at 0 and strictly increase; every elevation is in the band |
| ProfileProcess.FakeShapedStats | wps/profile_process.py:89-92 | a 50-point profile with elevations `1000 + 10·i` has maximum 1490, minimum 1000, relief 490, total distance 5000, elevation sum 62250 and mean 1245 |
| ProfileProcess.FallbackStatsDisagree | wps/profile_process.py:89-104 | statistics computed from the fake profile differ from the literals in maximum (1490 vs 1500), relief (490 vs 500) and mean (1245 vs 1250); total distance and minimum agree |
| ProfileProcess.SampleProfile | wps/profile_process.py:38-58 | the step-by-step sampling loop fails exactly when some interpolation raises, and otherwise returns exactly the filtered profile of the 100 samples |
| ProfileProcess.HandleLoop | wps/profile_process.py:27-107 | the step-by-step handler (sampling loop, threshold, fallback) returns exactly what `Handle` returns for every request |

## Left out

- Geometry and raster access (`shape`, `interpolate`, `rasterio.open`, `sample`) are foreign calls. They are the parameters `at` and `read` of a request, plus the `Unreadable` case.
- JSON parsing and serialisation, `print` and traceback logging, and the process registration in the `ProfilTopo` constructor are plumbing and not modelled.
- IEEE floating point is not modelled. Elevations, fractions and the mean are exact reals. A NaN or infinite read fails the band test in the source, so it is dropped there just like a failed read (`None`) is dropped here.
- The fallback record writes distances, coordinates, elevations and five of its statistics as integers. Its `pente_moy_deg` is the float 5.0, and the success record uses floats throughout. All of them are reals here.
- Statistics.MeanWithin: min ≤ mean ≤ max holds for exact reals only. The source's float `sum(...) / len(...)` can round to one unit in the last place outside [min, max]; the same bracket in `Statistics.ComputeStats` and `ProfileProcess.SuccessProfileWellFormed` is likewise a property of the real-valued model.
- `wps/solar_exposure.py` returns hard-coded constants on both of its paths, so it has no logic to verify.
- `server.py` (file download, HTTP routes, CORS) and `app.py` (startup checks, health route) are web plumbing.
