# Everest terrain sampling, in Dafny

`everest_3D.py` samples an `n` x `n` lattice of latitude/longitude points
around a mountain. It asks the Google Elevation service for the height of
every point, sending batches of at most 100 points per HTTP request (the
last batch may be smaller), and reshapes
the answers into an elevation grid. It projects the lattice onto a flat
local metric frame centred on the lattice's own centroid and marks the
highest cell as the peak. This project models that data path and proves
what it promises:

- the lattice spans the requested area;
- the batches cover the location list exactly once, in order, with a
  pause between each two requests;
- the loop aborts at the first failing batch with that batch's error, and
  sends no later batch;
- the flatten/reshape round trip puts every elevation back in the cell
  whose location it was fetched for;
- the projection is centred, so X and Y each sum to zero;
- the peak is the first maximum of the grid in row-major order.

Modules, one per file:

- `Wrappers` (`wrappers.dfy`): `Option`, `Result` and `Min`.
- `Lattice` (`lattice.dfy`): `np.linspace` and the lattice axes,
  `np.meshgrid(..., indexing="ij")`, row-major `.flat` and `reshape`, the
  location strings, and `unravel_index` arithmetic.
- `Batching` (`batching.dfy`): `range(0, total, 100)` with
  `locations[i:i+100]`, the batch count, and `"|".join` together with
  its inverse.
- `ElevationFetch` (`fetch.dfy`): the response checks, the batch loop
  (a specification function `Gather` and the imperative
  `FetchElevations` proved against it), and the whole of
  `get_elevation_data` (`ElevationData` and the method
  `GetElevationData`). It also defines a deterministic stub service for
  the round-trip theorem.
- `LocalProjection` (`projection.dfy`): `lat_lon_to_3d`.
- `PeakSelection` (`peak.dfy`): `np.unravel_index(np.argmax(Z), Z.shape)`.

`requests.get` is an injected function `transport: Request -> Response`.
A `Response` is either `ConnectionFailed` or a reply with a status code,
a body text and an optional decoded JSON payload. The pause between
batches (`time.sleep(0.1)`) is a `Sleep` event in a returned trace, and
each request sent is a `Send` event. The API key is a parameter, and so
are the float-to-text conversion of the f-string (`fmt`) and
`cos(radians(.))` (`cosDeg`). Floats are `real`.

Where the code and its description differ, the model follows the code:

- Nothing checks that `grid_size >= 2` or that the area is positive. A
  negative `grid_size` ends in the `ValueError` of `np.linspace`
  (`NegativeGridSize`).
- A batch answered with fewer or more results than it asked for is not
  detected when it arrives; only the final `reshape` can fail
  (`ReshapeDecides`).
- `data["status"]` raises `KeyError` when the key is absent, so the
  `'Unknown'` default of the later `data.get('status', 'Unknown')` is
  never reached.

## Model

| member | source | states |
|---|---|---|
| Lattice.Linspace | everest_3D.py:46-47 | `np.linspace` returns exactly `num` values |
| Lattice.LinspaceAt | everest_3D.py:46-47 | value k is `start + k * step`; the first value is `start`; for `num > 1` the last value is exactly `stop` |
| Lattice.LinspaceMonotone | everest_3D.py:46-47 | the values never decrease along the axis, and strictly increase when `start < stop` |
| Lattice.AxisSpan | everest_3D.py:41-47 | each axis runs from `centre - area/2` to `centre + area/2`; it is strictly increasing for a positive area and constant at the centre for a zero area |
| Lattice.Axis | everest_3D.py:41-47 | an axis has `num` values; AxisSpan gives its ends and its order |
| Lattice.Meshgrid | everest_3D.py:48 | both grids are len(lat) x len(lon); cell (i, j) holds latitude i and longitude j |
| Lattice.UnravelIndex | everest_3D.py:235 | for `k < rows*cols`, `(k / cols, k % cols)` is a cell of the grid, and `row*cols + col == k` |
| Lattice.UnravelCell | everest_3D.py:235 | unravelling the flat position of cell (i, j) gives back (i, j) |
| Lattice.FlattenLength | everest_3D.py:53 | the flattening of a `rows x cols` grid has `rows*cols` entries |
| Lattice.FlattenAt | everest_3D.py:53 | `.flat[i*cols + j]` is cell (i, j) |
| Lattice.FlatAt | everest_3D.py:53 | `.flat[k]` is cell `(k / cols, k % cols)` |
| Lattice.Flatten | everest_3D.py:53 | `.flat` in row-major order; FlattenLength gives its length and FlattenAt its entries |
| Lattice.Reshape | everest_3D.py:105 | `reshape(rows, cols)` succeeds exactly when the length is `rows*cols`, and then gives a `rows x cols` grid |
| Lattice.ReshapeAt | everest_3D.py:105 | cell (i, j) of the reshaped grid is entry `i*cols + j` of the flat sequence |
| Lattice.ReshapeFlatten | everest_3D.py:105 | reshaping the flattening of a `rows x cols` grid gives the grid back |
| Lattice.FlattenReshape | everest_3D.py:105 | flattening a successful reshape gives the flat sequence back |
| Lattice.Locations | everest_3D.py:51-54 | the comprehension produces exactly `total` location strings |
| Lattice.FormatLocation | everest_3D.py:53 | `f"{lat},{lon}"`: the latitude text, one comma, then the longitude text |
| Lattice.LatticeLocations | everest_3D.py:46-54 | location k pairs latitude `k / cols` with longitude `k % cols`, which is cell `(k / cols, k % cols)` of both grids |
| Lattice.ReshapePerLocation | everest_3D.py:51-105 | values computed per location and then reshaped land in the cell their location came from |
| Batching.Slice | everest_3D.py:65 | `s[lo:hi]` with Python's clamping: `s[lo..min(hi, len(s))]`, or empty when `lo` is past the end or `lo >= hi` |
| Batching.NumBatches | everest_3D.py:64 | the number of values of `range(0, total, size)`; NumBatchesBound and BatchCount characterise it |
| Batching.NumBatchesBound | everest_3D.py:64 | batch k exists exactly when its start `k*size` is below the total |
| Batching.BatchCount | everest_3D.py:98 | the number of batches is `(total - 1) // size + 1`, the count the progress line prints |
| Batching.Batches | everest_3D.py:64-65 | one slice per loop iteration |
| Batching.BatchShape | everest_3D.py:59-65 | batch k starts inside the list, is `s[k*size .. min(k*size+size, len(s))]`, and holds between 1 and `size` locations |
| Batching.BatchesPrefix | everest_3D.py:64-65 | the first k batches, concatenated, are the prefix of the list up to `min(k*size, len(s))` |
| Batching.BatchesConcat | everest_3D.py:64-65 | the batches, concatenated, are the whole list: every location is sent once, in order |
| Batching.Split | everest_3D.py:66 | splitting on the separator always yields at least one part |
| Batching.SplitPlain | everest_3D.py:66 | a text without the separator splits into itself |
| Batching.SplitAfter | everest_3D.py:66 | splitting `a + sep + rest` gives `a` followed by the parts of `rest` |
| Batching.SplitJoin | everest_3D.py:66 | the pipe-join of a non-empty list of parts free of the pipe character can be split back into exactly those parts |
| Batching.Join | everest_3D.py:66 | the pipe-join of the batch; SplitJoin shows Split undoes it for pipe-free parts |
| ElevationFetch.Truncate | everest_3D.py:77-84 | `text[:500]` is the prefix of length `min(500, len(text))` |
| ElevationFetch.RaisesForStatus | everest_3D.py:78 | `raise_for_status` raises for a status from 400 to 599 |
| ElevationFetch.ElevationsOf | everest_3D.py:95 | the comprehension succeeds exactly when every result has an elevation, and then keeps every value in order; otherwise it is `KeyError('elevation')` |
| ElevationFetch.CheckResponse | everest_3D.py:74-95 | success holds exactly for a reply with a status outside 400-599, a JSON body, status `"OK"`, a `results` list and an elevation in every result, and then value k is result k's elevation; a connection failure gives `ConnectionError`; a 4xx/5xx status gives `HttpError` with that code and `text[:500]`; an undecodable body gives `InvalidJson`; a missing `status`, `results` or `elevation` gives `KeyError` for that key; `ApiError` occurs exactly for a status other than `"OK"`, with that status and the error message, `"No error message provided"` when it is absent |
| ElevationFetch.HttpStatusBeforeBody | everest_3D.py:77-86 | a 4xx/5xx status decides the outcome before the body is decoded |
| ElevationFetch.BatchValues | everest_3D.py:95-96 | when every check passes, there is one value list per batch |
| ElevationFetch.Gather | everest_3D.py:64-96 | the loop as a specification: an aborted loop names an existing batch; GatherFirstFailure characterises it |
| ElevationFetch.GatherSucceeds | everest_3D.py:64-96 | the loop completes exactly when every batch's check passes |
| ElevationFetch.GatherAborts | everest_3D.py:64-96 | an abort is at the first failing batch, with that batch's error, after every earlier check passed |
| ElevationFetch.GatherElevations | everest_3D.py:95-96 | a completed loop has collected every batch's values, batch after batch |
| ElevationFetch.GatherFirstFailure | everest_3D.py:64-96 | the three above together: completes iff every check passes; aborts at the first failure with its error; collects all values in order |
| ElevationFetch.GatherAbortIsFinal | everest_3D.py:77-93 | once aborted, later batches change nothing |
| ElevationFetch.TraceAppend | everest_3D.py:64-102 | the sent requests and the pauses of a trace add up over concatenation |
| ElevationFetch.Schedule | everest_3D.py:101-102 | the requests with one pause between each two: `2n - 1` events for n requests; ScheduleShape gives its contents |
| ElevationFetch.ScheduleShape | everest_3D.py:101-102 | a schedule sends exactly its requests, in order, pauses one time fewer than it sends, and ends with a request, not a pause |
| ElevationFetch.GatherStep | everest_3D.py:64-96 | one more batch either aborts there with its error or appends its values |
| ElevationFetch.ScheduleStep | everest_3D.py:64-102 | one more request comes after a pause unless it is the first |
| ElevationFetch.FetchAbortsAt | everest_3D.py:64-102 | when batch k is the first to fail, the fetch fails with its error, and the trace ends with batch k's request |
| ElevationFetch.FetchCompletes | everest_3D.py:64-102 | when every batch passed, the fetch returns what was collected, and the trace covers every batch |
| ElevationFetch.FetchAdvances | everest_3D.py:64-102 | a passing batch moves the loop's state on by one batch, including the pause that follows unless it was the last |
| ElevationFetch.SendBatch | everest_3D.py:65-95 | one pass of the loop sends batch k's joined locations with the key and checks the response |
| ElevationFetch.FetchElevations | everest_3D.py:59-102 | the imperative loop returns exactly the specified outcome and exactly the specified trace of requests and pauses |
| ElevationFetch.FetchSuccessTrace | everest_3D.py:64-102 | a successful fetch sends every batch in order, `(total - 1) // 100 + 1` requests in all, and pauses once fewer than it sends (never for an empty list) |
| ElevationFetch.FetchFailureTrace | everest_3D.py:64-102 | a fetch failing at batch k has sent batches 0..k and no later one, every earlier check passed, batch k's check gave the error, it paused k times, and the last event is batch k's request |
| ElevationFetch.SampleLattice | everest_3D.py:41-48 | both grids are `n x n` |
| ElevationFetch.SampleLocations | everest_3D.py:51-54 | there are `n*n` locations |
| ElevationFetch.ElevationData | everest_3D.py:22-107 | a negative size gives the `linspace` error; a returned result holds the sampled lattice and an `n x n` elevation grid |
| ElevationFetch.GetElevationData | everest_3D.py:22-107 | the method returns what `ElevationData` specifies; its trace is empty for a negative size, and otherwise is the fetch's trace |
| ElevationFetch.FailureReturnsNoGrid | everest_3D.py:64-107 | a fetch that fails ends `get_elevation_data` with that error, and no grid is returned |
| ElevationFetch.ReshapeDecides | everest_3D.py:105 | after a complete fetch, a grid is returned exactly when `n*n` elevations came back, and its flattening is those elevations; otherwise the result is the reshape error |
| ElevationFetch.StubAnswersBatch | everest_3D.py:65-95 | the stub answers a batch with one value per location, in order |
| ElevationFetch.GatherStub | everest_3D.py:64-96 | against the stub, the loop collects one value per location, in order |
| ElevationFetch.StubFetch | everest_3D.py:59-102 | against the stub, the fetch succeeds with one value per location, in order, and sends every batch |
| ElevationFetch.FormatLocationHasNoPipe | everest_3D.py:53 | a location string holds no pipe character when its two number texts hold none |
| ElevationFetch.SampleLocationsHaveNoPipe | everest_3D.py:51-54 | no location string of the lattice holds the pipe character when the number text never does |
| ElevationFetch.StubRoundTrip | everest_3D.py:22-107 | against the stub, `get_elevation_data` returns the lattice and an `n x n` grid whose cell (i, j) is the value for the location of cell (i, j), after sending every batch |
| LocalProjection.LatLonTo3D | everest_3D.py:110-133 | X has the longitude grid's shape, Y the latitude grid's, and Z is the elevation grid unchanged |
| LocalProjection.Mean | everest_3D.py:126-127 | `np.mean` of a grid; MeanOfShift and OffsetFromMeanSumsToZero characterise it |
| LocalProjection.Offset | everest_3D.py:130-131 | `(grid - centre) * scale`, keeping the grid's shape |
| LocalProjection.ProjectionAt | everest_3D.py:126-131 | cell (i, j): X is `(lon - mean lon) * 111000 * cos(mean lat)`, Y is `(lat - mean lat) * 111000` |
| LocalProjection.SumOffsetRow | everest_3D.py:130-131 | the sum of an offset row is `(sum - n*centre) * scale` |
| LocalProjection.FlattenOffset | everest_3D.py:130-131 | offsetting commutes with flattening |
| LocalProjection.OffsetFromMeanSumsToZero | everest_3D.py:126-131 | offsets from the grid's own mean sum to zero |
| LocalProjection.ProjectionIsCentered | everest_3D.py:126-133 | the projection is centred on the lattice's centroid: X and Y each sum to zero over the grid |
| LocalProjection.FlattenShift | everest_3D.py:126-131 | shifting commutes with flattening |
| LocalProjection.SumShiftRow | everest_3D.py:126-127 | shifting a row by d adds `n*d` to its sum |
| LocalProjection.MeanOfShift | everest_3D.py:126-127 | shifting a non-empty grid by d shifts its mean by d |
| LocalProjection.OffsetOfShift | everest_3D.py:130-131 | offsets from the mean do not change when the grid is translated |
| LocalProjection.TranslationKeepsY | everest_3D.py:126-130 | translating the lattice leaves Y unchanged |
| LocalProjection.TranslationRescalesX | everest_3D.py:126-131 | after a translation, X is the old longitude offsets scaled by the cosine of the new mean latitude |
| LocalProjection.ProjectionTranslation | everest_3D.py:126-133 | translating the lattice leaves Y and Z unchanged, rescales X only through the new mean latitude, and leaves X unchanged when the latitude shift is zero |
| PeakSelection.ArgMax | everest_3D.py:235 | `argmax` is absent exactly for an empty input; otherwise it is a position holding the maximum, and every earlier position holds strictly less |
| PeakSelection.PeakIndex | everest_3D.py:235 | the peak exists exactly when the grid has a cell, and is then a cell of the grid; PeakIsFirstMaximum says which |
| PeakSelection.PrecedesPosition | everest_3D.py:235 | row-major order of cells is the order of their flat positions |
| PeakSelection.PeakIsFirstMaximum | everest_3D.py:235 | there is a peak exactly when the grid has a cell; the peak is a cell holding the maximum, and every cell before it in row-major order holds strictly less |
| PeakSelection.CellAgainstPeak | everest_3D.py:235 | any cell is at most the peak, and strictly less when it comes first in row-major order |
| PeakSelection.FirstMaxAt | everest_3D.py:235 | every position is at most the first maximum, and strictly less before it |
| PeakSelection.PeakOfLevelGrid | everest_3D.py:235 | on a level grid the peak is cell (0, 0) |

## Left out

- Floating point is not modelled. `np.linspace`, `np.mean`, the
  products and `cos` are computed over the reals. In particular
  `LocalProjection.LatLonTo3D` multiplies `(lon - c)` by
  `111000 * cos(...)`, where the source multiplies by 111000 and then by
  the cosine. The two are equal over the reals but can round differently
  in floats.
- `np.mean` of an empty grid is NaN. `LocalProjection.MeanOf` uses 0
  there; no result of an empty lattice depends on it.
- `cos`/`radians` and the float-to-text conversion of the f-string are
  injected functions (`cosDeg`, `fmt`), because the model has no
  transcendental functions or float printing.
- `requests.get`, `raise_for_status` and `response.json()` are the
  injected `transport` and the `Response` datatype. The network, the URL
  and query-string encoding, and timeouts are not modelled.
  `ConnectionFailed` stands for any exception `requests.get` raises.
- `transport` is a pure function, so equal requests always get equal
  answers. A service whose answer to a repeated request changes (rate
  limiting, the reason for the pause) is not modelled. Repeats do occur:
  with a zero area every location string is the same, so equal batches
  are sent.
- ElevationFetch.CheckResponse: the `HttpError` carries the status code
  and the 500-character body prefix, but not the text of the
  `HTTPError` exception itself (`{e}`), which `requests` builds.
- JSON bodies that decode to something other than an object, and
  elevations that are `null` or not numbers, are not modelled. The
  payload has only the keys the code reads.
- The `print` progress lines are output only, so they are left out; the
  batch count they print is `Batching.BatchCount`.
- `time.sleep(0.1)` is recorded as a `Sleep` event; the duration is not
  modelled.
- `load_dotenv` and reading `GOOGLE_API_KEY` from the environment are
  left out; the key is a parameter.
- The command-line part is left out: `argparse`, the table of mountains,
  the name lookup with `.title()` on `args.peak`, and the error message
  for an unknown name (which reads an `args.mountain` that the parser
  never defines).
- Everything drawn with matplotlib is left out.
- PeakSelection.ArgMax: NaN heights are not modelled (numpy's `argmax`
  returns the first NaN).
- The reads of X, Y and Z at the peak index are plain array indexing and
  are not modelled separately.
