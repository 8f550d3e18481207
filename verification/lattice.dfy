/** The sampling lattice of `get_elevation_data`: two evenly spaced axes
    (`np.linspace`), the `indexing="ij"` mesh built from them
    (`np.meshgrid`), the row-major walk over that mesh (`.flat`) that gives
    the list of `"lat,lon"` strings, and the row-major `reshape` that puts
    a flat list back into a grid. Floats are modelled as `real`. */
module Lattice {
  import opened Wrappers

  /** `g` has `rows` rows of `cols` entries each, as a 2-D numpy array does. */
  predicate IsMatrix<T>(g: seq<seq<T>>, rows: nat, cols: nat) {
    |g| == rows && forall i :: 0 <= i < rows ==> |g[i]| == cols
  }

  // ---------------------------------------------------------------------
  // Row-major index arithmetic

  /** Multiplying by a natural number keeps `<=`. */
  lemma {:induction false} MulMonotone(a: nat, b: nat, c: nat)
    requires a <= b
    ensures a * c <= b * c
    decreases b - a
  {
    if a < b {
      MulMonotone(a, b - 1, c);
      assert b * c == (b - 1) * c + c;
    }
  }

  /** Row i of a `rows` x `cols` matrix ends no later than the matrix, and
      cell (i, j) lies inside row i. */
  lemma CellIndexBounds(i: nat, j: nat, rows: nat, cols: nat)
    requires i < rows && j <= cols
    ensures 0 <= i * cols && i * cols + j <= (i + 1) * cols <= rows * cols
  {
    MulMonotone(0, i, cols);
    MulMonotone(i + 1, rows, cols);
    assert (i + 1) * cols == i * cols + cols;
  }

  /** Euclidean quotient and remainder are unique. */
  lemma DivModUnique(k: int, cols: nat, q: int, r: int)
    requires cols > 0 && k == q * cols + r && 0 <= r < cols
    ensures k / cols == q && k % cols == r
  {
    var q', r' := k / cols, k % cols;
    assert k == q' * cols + r' && 0 <= r' < cols;
    if q' < q {
      MulMonotone(1, q - q', cols);
      assert false;
    } else if q < q' {
      MulMonotone(1, q' - q, cols);
      assert false;
    }
  }

  /** `np.unravel_index` undoes the row-major position of a cell. */
  lemma UnravelCell(i: nat, j: nat, cols: nat)
    requires j < cols
    ensures (i * cols + j) / cols == i && (i * cols + j) % cols == j
  {
    DivModUnique(i * cols + j, cols, i, j);
  }

  /** Every flat position below `rows * cols` is the position of a cell. */
  lemma UnravelIndex(k: nat, rows: nat, cols: nat)
    requires k < rows * cols
    ensures cols > 0 && 0 <= k / cols < rows && 0 <= k % cols < cols
    ensures (k / cols) * cols + k % cols == k
  {
    assert k == (k / cols) * cols + k % cols;
    if k / cols >= rows {
      MulMonotone(rows, k / cols, cols);
    }
  }

  // ---------------------------------------------------------------------
  // Axes

  /** Spacing of `np.linspace(start, stop, num)` with both endpoints
      included; a single sample has no spacing. */
  function Step(start: real, stop: real, num: nat): real {
    if 1 < num then (stop - start) / ((num - 1) as real) else 0.0
  }

  /** `np.linspace(start, stop, num)` over the reals: `start + k * step`,
      with the last sample set to `stop` exactly, as numpy does. */
  function Linspace(start: real, stop: real, num: nat): (r: seq<real>)
    ensures |r| == num
  {
    seq(num, k requires 0 <= k < num =>
      if 1 < num && k == num - 1 then stop else start + (k as real) * Step(start, stop, num))
  }

  /** Every sample, the last one included, is `start + k * step`: the axis
      is evenly spaced, begins at `start` and (from two samples on) ends
      at `stop`. */
  lemma LinspaceAt(start: real, stop: real, num: nat, k: nat)
    requires k < num
    ensures Linspace(start, stop, num)[k] == start + (k as real) * Step(start, stop, num)
    ensures k == 0 ==> Linspace(start, stop, num)[k] == start
    ensures 1 < num && k == num - 1 ==> Linspace(start, stop, num)[k] == stop
  {
    if 1 < num && k == num - 1 {
      var d := (num - 1) as real;
      assert d * ((stop - start) / d) == stop - start;
    }
  }

  /** An axis over a non-empty interval never decreases, and over a
      positive-width interval it strictly increases. */
  lemma LinspaceMonotone(start: real, stop: real, num: nat, a: nat, b: nat)
    requires start <= stop && a < b < num
    ensures Linspace(start, stop, num)[a] <= Linspace(start, stop, num)[b]
    ensures start < stop ==> Linspace(start, stop, num)[a] < Linspace(start, stop, num)[b]
  {
    LinspaceAt(start, stop, num, a);
    LinspaceAt(start, stop, num, b);
    var step := Step(start, stop, num);
    StepSign(start, stop, num);
    ScaledOrder(a as real, b as real, step);
    var xa, xb := Linspace(start, stop, num)[a], Linspace(start, stop, num)[b];
    assert xa == start + (a as real) * step;
    assert xb == start + (b as real) * step;
    assert xb - xa == (b as real) * step - (a as real) * step;
    assert (a as real) * step <= (b as real) * step;
    assert xa <= xb;
  }

  /** The spacing is non-negative over a non-empty interval, and positive
      over a positive-width one with at least two samples. */
  lemma StepSign(start: real, stop: real, num: nat)
    requires start <= stop
    ensures Step(start, stop, num) >= 0.0
    ensures start < stop && 1 < num ==> Step(start, stop, num) > 0.0
  {
    if 1 < num {
      var d := (num - 1) as real;
      assert d > 0.0;
      DivSign(stop - start, d);
    }
  }

  lemma DivSign(x: real, d: real)
    requires x >= 0.0 && d > 0.0
    ensures x / d >= 0.0 && (x > 0.0 ==> x / d > 0.0)
  {
    assert (x / d) * d == x;
  }

  lemma ScaledOrder(a: real, b: real, step: real)
    requires a < b && step >= 0.0
    ensures a * step <= b * step
    ensures step > 0.0 ==> a * step < b * step
  {
    assert b * step - a * step == (b - a) * step;
  }

  /** The axis of `get_elevation_data`: `num` samples from
      `center - area / 2` to `center + area / 2`. */
  function Axis(center: real, area: real, num: nat): (r: seq<real>)
    ensures |r| == num
  {
    Linspace(center - area / 2.0, center + area / 2.0, num)
  }

  /** The axis spans the requested area symmetrically about the centre and
      increases strictly when the area is positive. The code accepts any
      `num` and `area`: one sample gives just the lower edge, a zero area
      gives `num` copies of the centre. */
  lemma AxisSpan(center: real, area: real, num: nat)
    ensures num >= 1 ==> Axis(center, area, num)[0] == center - area / 2.0
    ensures num >= 2 ==> Axis(center, area, num)[num - 1] == center + area / 2.0
    ensures area > 0.0 ==> forall a, b :: 0 <= a < b < num ==> Axis(center, area, num)[a] < Axis(center, area, num)[b]
    ensures area == 0.0 ==> forall a :: 0 <= a < num ==> Axis(center, area, num)[a] == center
  {
    var lo, hi := center - area / 2.0, center + area / 2.0;
    if num >= 1 { LinspaceAt(lo, hi, num, 0); }
    if num >= 2 { LinspaceAt(lo, hi, num, num - 1); }
    forall a, b | 0 <= a < b < num && area > 0.0
      ensures Axis(center, area, num)[a] < Axis(center, area, num)[b]
    {
      LinspaceMonotone(lo, hi, num, a, b);
    }
    forall a | 0 <= a < num && area == 0.0
      ensures Axis(center, area, num)[a] == center
    {
      LinspaceAt(lo, hi, num, a);
    }
  }

  // ---------------------------------------------------------------------
  // Mesh

  /** `np.meshgrid(latVals, lonVals, indexing="ij")`: the full lattice, in
      which row i holds latitude i and column j holds longitude j. */
  function Meshgrid(latVals: seq<real>, lonVals: seq<real>): (grids: (seq<seq<real>>, seq<seq<real>>))
    ensures IsMatrix(grids.0, |latVals|, |lonVals|) && IsMatrix(grids.1, |latVals|, |lonVals|)
    ensures forall i, j :: 0 <= i < |latVals| && 0 <= j < |lonVals| ==>
      grids.0[i][j] == latVals[i] && grids.1[i][j] == lonVals[j]
  {
    (seq(|latVals|, i requires 0 <= i < |latVals| => seq(|lonVals|, _ => latVals[i])),
     seq(|latVals|, _ => lonVals))
  }

  // ---------------------------------------------------------------------
  // Row-major flatten and reshape

  /** The entries of `g` row after row (`.flat`, `ravel`). */
  function Flatten<T>(g: seq<seq<T>>): seq<T>
    decreases |g|
  {
    if g == [] then [] else Flatten(g[..|g| - 1]) + g[|g| - 1]
  }

  lemma FlattenSnoc<T>(g: seq<seq<T>>, k: nat)
    requires 0 < k <= |g|
    ensures Flatten(g[..k]) == Flatten(g[..k - 1]) + g[k - 1]
  {
    assert g[..k][..k - 1] == g[..k - 1];
  }

  lemma {:induction false} FlattenAppend<T>(g: seq<seq<T>>, h: seq<seq<T>>)
    ensures Flatten(g + h) == Flatten(g) + Flatten(h)
    decreases |h|
  {
    if h == [] {
      assert g + h == g;
    } else {
      var gh := g + h;
      assert gh[..|gh| - 1] == g + h[..|h| - 1];
      FlattenAppend(g, h[..|h| - 1]);
    }
  }

  /** A `rows` x `cols` matrix flattens to `rows * cols` entries, and cell
      (i, j) lands at position `i * cols + j`. */
  lemma {:induction false} FlattenAt<T>(g: seq<seq<T>>, rows: nat, cols: nat, i: nat, j: nat)
    requires IsMatrix(g, rows, cols) && i < rows && j < cols
    ensures |Flatten(g)| == rows * cols
    ensures 0 <= i * cols + j < |Flatten(g)| && Flatten(g)[i * cols + j] == g[i][j]
    decreases rows
  {
    FlattenLength(g, rows, cols);
    CellIndexBounds(i, j, rows, cols);
    var init := g[..rows - 1];
    assert IsMatrix(init, rows - 1, cols);
    FlattenLength(init, rows - 1, cols);
    if i < rows - 1 {
      FlattenAt(init, rows - 1, cols, i, j);
    } else {
      assert i * cols == (rows - 1) * cols;
    }
  }

  lemma {:induction false} FlattenLength<T>(g: seq<seq<T>>, rows: nat, cols: nat)
    requires IsMatrix(g, rows, cols)
    ensures |Flatten(g)| == rows * cols
    decreases rows
  {
    if rows > 0 {
      var init := g[..rows - 1];
      assert IsMatrix(init, rows - 1, cols);
      FlattenLength(init, rows - 1, cols);
    }
  }

  /** `.flat[k]` of a `rows` x `cols` matrix is the cell
      `(k / cols, k % cols)`. */
  lemma FlatAt<T>(g: seq<seq<T>>, rows: nat, cols: nat, k: nat)
    requires IsMatrix(g, rows, cols) && k < rows * cols
    ensures cols > 0 && k / cols < rows && k % cols < cols
    ensures |Flatten(g)| == rows * cols && Flatten(g)[k] == g[k / cols][k % cols]
  {
    UnravelIndex(k, rows, cols);
    FlattenAt(g, rows, cols, k / cols, k % cols);
  }

  /** Row i of `Reshape(s, rows, cols)`: entries `i * cols` up to
      `(i + 1) * cols` of `s`. */
  function ReshapeRow<T>(s: seq<T>, rows: nat, cols: nat, i: nat): (row: seq<T>)
    requires |s| == rows * cols && i < rows
    ensures |row| == cols
  {
    CellIndexBounds(i, 0, rows, cols);
    s[i * cols .. (i + 1) * cols]
  }

  /** `np.array(s).reshape(rows, cols)`: fails (numpy's `ValueError`)
      exactly when the element count is not `rows * cols`. */
  function Reshape<T>(s: seq<T>, rows: nat, cols: nat): (r: Option<seq<seq<T>>>)
    ensures r.Some? <==> |s| == rows * cols
    ensures r.Some? ==> IsMatrix(r.value, rows, cols)
  {
    if |s| != rows * cols then None
    else Some(seq(rows, i requires 0 <= i < rows => ReshapeRow(s, rows, cols, i)))
  }

  /** Cell (i, j) of the reshaped grid is flat entry `i * cols + j`. */
  lemma ReshapeAt<T>(s: seq<T>, rows: nat, cols: nat, i: nat, j: nat)
    requires |s| == rows * cols && i < rows && j < cols
    ensures Reshape(s, rows, cols).Some?
    ensures i * cols + j < |s| && Reshape(s, rows, cols).value[i][j] == s[i * cols + j]
  {
    CellIndexBounds(i, j, rows, cols);
  }

  /** Reshaping the row-major flattening of a matrix gives the matrix back. */
  lemma ReshapeFlatten<T>(g: seq<seq<T>>, rows: nat, cols: nat)
    requires IsMatrix(g, rows, cols)
    ensures Reshape(Flatten(g), rows, cols) == Some(g)
  {
    FlattenLength(g, rows, cols);
    var r := Reshape(Flatten(g), rows, cols).value;
    forall i | 0 <= i < rows ensures r[i] == g[i] {
      forall j | 0 <= j < cols ensures r[i][j] == g[i][j] {
        ReshapeAt(Flatten(g), rows, cols, i, j);
        FlattenAt(g, rows, cols, i, j);
      }
    }
    assert r == g;
  }

  lemma FlattenReshapeAt<T>(s: seq<T>, rows: nat, cols: nat, k: nat)
    requires |s| == rows * cols && k < |s|
    ensures Reshape(s, rows, cols).Some?
    ensures |Flatten(Reshape(s, rows, cols).value)| == |s| && Flatten(Reshape(s, rows, cols).value)[k] == s[k]
  {
    var g := Reshape(s, rows, cols).value;
    var i, j := k / cols, k % cols;
    UnravelIndex(k, rows, cols);
    FlattenAt(g, rows, cols, i, j);
    ReshapeAt(s, rows, cols, i, j);
  }

  /** Flattening a reshaped list gives the list back. */
  lemma FlattenReshape<T>(s: seq<T>, rows: nat, cols: nat)
    requires |s| == rows * cols
    ensures Reshape(s, rows, cols).Some? && Flatten(Reshape(s, rows, cols).value) == s
  {
    var g := Reshape(s, rows, cols).value;
    FlattenLength(g, rows, cols);
    var f := Flatten(g);
    forall k | 0 <= k < |s| ensures f[k] == s[k] {
      FlattenReshapeAt(s, rows, cols, k);
    }
    assert f == s;
  }

  // ---------------------------------------------------------------------
  // The request strings

  /** `f` applied to every element, in order. */
  function Map<A, B>(f: A -> B, s: seq<A>): (r: seq<B>)
    ensures |r| == |s| && forall k :: 0 <= k < |s| ==> r[k] == f(s[k])
  {
    seq(|s|, k requires 0 <= k < |s| => f(s[k]))
  }

  /** `f"{lat},{lon}"`, where `fmt` is the float-to-text conversion. */
  function FormatLocation(fmt: real -> string, lat: real, lon: real): (r: string)
    ensures |r| == |fmt(lat)| + 1 + |fmt(lon)| && r[|fmt(lat)|] == ','
    ensures r[..|fmt(lat)|] == fmt(lat) && r[|fmt(lat)| + 1..] == fmt(lon)
  {
    fmt(lat) + "," + fmt(lon)
  }

  /** The comprehension over `range(total)` that pairs `.flat[k]` of the
      latitude grid with `.flat[k]` of the longitude grid. */
  function Locations(latGrid: seq<seq<real>>, lonGrid: seq<seq<real>>, total: nat, fmt: real -> string): (locs: seq<string>)
    requires total <= |Flatten(latGrid)| && total <= |Flatten(lonGrid)|
    ensures |locs| == total
  {
    var lats, lons := Flatten(latGrid), Flatten(lonGrid);
    seq(total, k requires 0 <= k < total => FormatLocation(fmt, lats[k], lons[k]))
  }

  /** The locations of the lattice: `rows * cols` of them, the k-th pairing
      latitude `k / cols` with longitude `k % cols`, which is cell
      `(k / cols, k % cols)` of both grids. */
  lemma LatticeLocations(latVals: seq<real>, lonVals: seq<real>, fmt: real -> string, k: nat)
    requires k < |latVals| * |lonVals|
    ensures var (latGrid, lonGrid) := Meshgrid(latVals, lonVals);
      && |Flatten(latGrid)| == |Flatten(lonGrid)| == |latVals| * |lonVals|
      && 0 < |lonVals| && k / |lonVals| < |latVals|
      && Locations(latGrid, lonGrid, |latVals| * |lonVals|, fmt)[k]
         == FormatLocation(fmt, latVals[k / |lonVals|], lonVals[k % |lonVals|])
      && latGrid[k / |lonVals|][k % |lonVals|] == latVals[k / |lonVals|]
      && lonGrid[k / |lonVals|][k % |lonVals|] == lonVals[k % |lonVals|]
  {
    var (latGrid, lonGrid) := Meshgrid(latVals, lonVals);
    FlatAt(latGrid, |latVals|, |lonVals|, k);
    FlatAt(lonGrid, |latVals|, |lonVals|, k);
  }

  /** Values computed per location string and reshaped land in the cell
      the location came from: cell (i, j) holds the value for cell (i, j)
      of the two grids. */
  lemma ReshapePerLocation<T>(latGrid: seq<seq<real>>, lonGrid: seq<seq<real>>, n: nat, fmt: real -> string, valueAt: string -> T)
    requires IsMatrix(latGrid, n, n) && IsMatrix(lonGrid, n, n)
    ensures |Flatten(latGrid)| == n * n && |Flatten(lonGrid)| == n * n
    ensures var locs := Locations(latGrid, lonGrid, n * n, fmt);
      var values := Map(valueAt, locs);
      && Reshape(values, n, n).Some?
      && forall i, j :: 0 <= i < n && 0 <= j < n ==>
           Reshape(values, n, n).value[i][j] == valueAt(FormatLocation(fmt, latGrid[i][j], lonGrid[i][j]))
  {
    FlattenLength(latGrid, n, n);
    FlattenLength(lonGrid, n, n);
    var locs := Locations(latGrid, lonGrid, n * n, fmt);
    var values := Map(valueAt, locs);
    forall i, j | 0 <= i < n && 0 <= j < n
      ensures Reshape(values, n, n).value[i][j] == valueAt(FormatLocation(fmt, latGrid[i][j], lonGrid[i][j]))
    {
      ReshapeAt(values, n, n, i, j);
      FlattenAt(latGrid, n, n, i, j);
      FlattenAt(lonGrid, n, n, i, j);
    }
  }
}
