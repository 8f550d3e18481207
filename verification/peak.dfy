/** Line 235: `np.unravel_index(np.argmax(Z), Z.shape)`, the cell marked
    as the peak. `argmax` scans the row-major flattening of Z and keeps the
    first position that holds the maximum, so ties go to the earliest
    cell in row-major order. */
module PeakSelection {
  import opened Wrappers
  import opened Lattice

  /** `np.argmax` of a flat sequence: the first position of its maximum.
      numpy raises `ValueError` for an empty sequence; here that is
      `None`. */
  function ArgMax(s: seq<real>): (r: Option<nat>)
    ensures r.None? <==> s == []
    ensures r.Some? ==> r.value < |s|
    ensures r.Some? ==> forall j :: 0 <= j < |s| ==> s[j] <= s[r.value]
    ensures r.Some? ==> forall j :: 0 <= j < r.value ==> s[j] < s[r.value]
    decreases |s|
  {
    if s == [] then None
    else
      match ArgMax(s[..|s| - 1])
      case None => Some(0)
      case Some(k) => if s[k] < s[|s| - 1] then Some(|s| - 1) else Some(k)
  }

  /** The peak cell of a `rows` x `cols` grid: `argmax` of its flattening,
      unravelled to (row, column). `None` when the grid is empty. */
  function PeakIndex(z: seq<seq<real>>, rows: nat, cols: nat): (r: Option<(nat, nat)>)
    requires IsMatrix(z, rows, cols)
    ensures r.None? <==> rows * cols == 0
    ensures r.Some? ==> r.value.0 < rows && r.value.1 < cols
  {
    FlattenLength(z, rows, cols);
    match ArgMax(Flatten(z))
    case None => None
    case Some(k) => UnravelIndex(k, rows, cols); Some((k / cols, k % cols))
  }

  /** Row-major order: cell (a, b) comes before cell (i, j). */
  predicate Precedes(a: nat, b: nat, i: nat, j: nat) {
    a < i || (a == i && b < j)
  }

  lemma PrecedesPosition(a: nat, b: nat, i: nat, j: nat, cols: nat)
    requires b < cols && j < cols && Precedes(a, b, i, j)
    ensures a * cols + b < i * cols + j
  {
    if a < i {
      MulMonotone(a + 1, i, cols);
      assert (a + 1) * cols == a * cols + cols;
    }
  }

  /** The peak is a cell of the grid holding its maximum, and every cell
      before it in row-major order holds strictly less; there is a peak
      exactly when the grid is not empty. */
  lemma PeakIsFirstMaximum(z: seq<seq<real>>, rows: nat, cols: nat)
    requires IsMatrix(z, rows, cols)
    ensures PeakIndex(z, rows, cols).None? <==> rows * cols == 0
    ensures PeakIndex(z, rows, cols).Some? ==>
      var (i, j) := PeakIndex(z, rows, cols).value;
      && i < rows && j < cols
      && (forall a, b :: 0 <= a < rows && 0 <= b < cols ==> z[a][b] <= z[i][j])
      && (forall a, b :: 0 <= a < rows && 0 <= b < cols && Precedes(a, b, i, j) ==> z[a][b] < z[i][j])
  {
    FlattenLength(z, rows, cols);
    var flat := Flatten(z);
    if flat != [] {
      var k := ArgMax(flat).value;
      UnravelIndex(k, rows, cols);
      forall a, b | 0 <= a < rows && 0 <= b < cols
        ensures z[a][b] <= z[k / cols][k % cols]
        ensures Precedes(a, b, k / cols, k % cols) ==> z[a][b] < z[k / cols][k % cols]
      {
        CellAgainstPeak(z, rows, cols, k, a, b);
      }
    }
  }

  /** Cell (a, b) against the cell at the first maximum `k` of the
      flattening. */
  lemma CellAgainstPeak(z: seq<seq<real>>, rows: nat, cols: nat, k: nat, a: nat, b: nat)
    requires IsMatrix(z, rows, cols) && a < rows && b < cols
    requires ArgMax(Flatten(z)) == Some(k)
    ensures cols > 0 && k / cols < rows && k % cols < cols
    ensures z[a][b] <= z[k / cols][k % cols]
    ensures Precedes(a, b, k / cols, k % cols) ==> z[a][b] < z[k / cols][k % cols]
  {
    var flat := Flatten(z);
    FlattenLength(z, rows, cols);
    var i, j := k / cols, k % cols;
    UnravelIndex(k, rows, cols);
    FlatAt(z, rows, cols, k);
    FlattenAt(z, rows, cols, a, b);
    var p := a * cols + b;
    if Precedes(a, b, i, j) {
      PrecedesPosition(a, b, i, j, cols);
    }
    FirstMaxAt(flat, k, p);
  }

  /** Position `p` against the first maximum `k`. */
  lemma FirstMaxAt(s: seq<real>, k: nat, p: nat)
    requires ArgMax(s) == Some(k) && p < |s|
    ensures s[p] <= s[k] && (p < k ==> s[p] < s[k])
  {
  }

  /** When every cell holds the same height the peak is cell (0, 0). */
  lemma PeakOfLevelGrid(z: seq<seq<real>>, rows: nat, cols: nat)
    requires IsMatrix(z, rows, cols) && rows > 0 && cols > 0
    requires forall a, b :: 0 <= a < rows && 0 <= b < cols ==> z[a][b] == z[0][0]
    ensures PeakIndex(z, rows, cols) == Some((0, 0))
  {
    PeakIsFirstMaximum(z, rows, cols);
    MulMonotone(1, rows, cols);
    var (i, j) := PeakIndex(z, rows, cols).value;
    if (i, j) != (0, 0) {
      assert false;
    }
  }
}
