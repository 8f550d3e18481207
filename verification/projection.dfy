/** `lat_lon_to_3d`: the flat local projection of the lattice onto metres
    east-west (X) and north-south (Y) of the grid's own centroid, with the
    elevations passed through as Z. Floats are modelled as `real`; the
    cosine of the centre latitude, in degrees, is an injected function. */
module LocalProjection {
  import opened Lattice

  /** Metres per degree of latitude (and of longitude on the equator). */
  const MetersPerDegree: real := 111000.0

  /** The sum of a flat sequence. */
  function Sum(s: seq<real>): real
    decreases |s|
  {
    if s == [] then 0.0 else Sum(s[..|s| - 1]) + s[|s| - 1]
  }

  /** `np.mean` of a grid: the sum of all entries over their count. For an
      empty grid numpy gives NaN; 0 stands in for it here, and nothing
      in an empty result depends on it. */
  function Mean(g: seq<seq<real>>): real {
    MeanOf(Flatten(g))
  }

  /** The mean of a flat sequence, 0 when it is empty. */
  function MeanOf(s: seq<real>): real {
    if s == [] then 0.0 else Sum(s) / (|s| as real)
  }

  /** `(row - center) * scale`, entry by entry. */
  function OffsetRow(row: seq<real>, center: real, scale: real): (r: seq<real>)
    ensures |r| == |row|
  {
    seq(|row|, j requires 0 <= j < |row| => (row[j] - center) * scale)
  }

  /** `(g - center) * scale` for a grid, keeping its shape. */
  function Offset(g: seq<seq<real>>, center: real, scale: real): (r: seq<seq<real>>)
    ensures |r| == |g| && forall i :: 0 <= i < |g| ==> |r[i]| == |g[i]|
  {
    seq(|g|, i requires 0 <= i < |g| => OffsetRow(g[i], center, scale))
  }

  /** Lines 126-133: returns `(X, Y, Z)` = `(lon_m, lat_m, elevation_grid)`.
      `cosDeg` stands for `np.cos(np.radians(.))`. X has the shape of the
      longitude grid, Y that of the latitude grid, and Z is the elevation
      grid itself. */
  function LatLonTo3D(latGrid: seq<seq<real>>, lonGrid: seq<seq<real>>, elevationGrid: seq<seq<real>>,
                      cosDeg: real -> real): (xyz: (seq<seq<real>>, seq<seq<real>>, seq<seq<real>>))
    ensures |xyz.0| == |lonGrid| && forall i :: 0 <= i < |lonGrid| ==> |xyz.0[i]| == |lonGrid[i]|
    ensures |xyz.1| == |latGrid| && forall i :: 0 <= i < |latGrid| ==> |xyz.1[i]| == |latGrid[i]|
    ensures xyz.2 == elevationGrid
  {
    var centerLat := Mean(latGrid);
    var centerLon := Mean(lonGrid);
    var latM := Offset(latGrid, centerLat, MetersPerDegree);
    var lonM := Offset(lonGrid, centerLon, MetersPerDegree * cosDeg(centerLat));
    (lonM, latM, elevationGrid)
  }

  /** Each projected point: Y is the latitude's distance from the mean
      latitude at 111000 m per degree, X the longitude's distance from the
      mean longitude at 111000 m per degree shrunk by the cosine of the
      mean latitude. */
  lemma ProjectionAt(latGrid: seq<seq<real>>, lonGrid: seq<seq<real>>, elevationGrid: seq<seq<real>>,
                     cosDeg: real -> real, i: nat, j: nat)
    ensures var xyz := LatLonTo3D(latGrid, lonGrid, elevationGrid, cosDeg);
      && (i < |latGrid| && j < |latGrid[i]| ==>
            xyz.1[i][j] == (latGrid[i][j] - Mean(latGrid)) * 111000.0)
      && (i < |lonGrid| && j < |lonGrid[i]| ==>
            xyz.0[i][j] == (lonGrid[i][j] - Mean(lonGrid)) * 111000.0 * cosDeg(Mean(latGrid)))
  {
  }

  // ---------------------------------------------------------------------
  // Centering

  lemma {:induction false} SumOffsetRow(s: seq<real>, center: real, scale: real)
    ensures Sum(OffsetRow(s, center, scale)) == (Sum(s) - (|s| as real) * center) * scale
    decreases |s|
  {
    if s != [] {
      var init := s[..|s| - 1];
      OffsetRowSnoc(s, center, scale);
      SumOffsetRow(init, center, scale);
      OffsetSumStep(Sum(init), s[|s| - 1], |init| as real, Sum(s), |s| as real, center, scale);
    }
  }

  lemma OffsetRowSnoc(s: seq<real>, center: real, scale: real)
    requires s != []
    ensures var r := OffsetRow(s, center, scale);
      && r[..|s| - 1] == OffsetRow(s[..|s| - 1], center, scale)
      && r[|s| - 1] == (s[|s| - 1] - center) * scale
  {
    var init := s[..|s| - 1];
    var r := OffsetRow(s, center, scale);
    forall j | 0 <= j < |init| ensures r[j] == OffsetRow(init, center, scale)[j] {
      assert init[j] == s[j];
    }
    assert r[..|s| - 1] == OffsetRow(init, center, scale);
  }

  lemma OffsetSumStep(total: real, x: real, n: real, total': real, n': real, center: real, scale: real)
    requires total' == total + x && n' == n + 1.0
    ensures (total - n * center) * scale + (x - center) * scale == (total' - n' * center) * scale
  {
    assert n' * center == n * center + center;
  }

  lemma {:induction false} FlattenOffset(g: seq<seq<real>>, center: real, scale: real)
    ensures Flatten(Offset(g, center, scale)) == OffsetRow(Flatten(g), center, scale)
    decreases |g|
  {
    if g != [] {
      var init := g[..|g| - 1];
      assert Offset(g, center, scale)[..|g| - 1] == Offset(init, center, scale);
      FlattenOffset(init, center, scale);
      var a, b := Flatten(init), g[|g| - 1];
      var lhs, rhs := OffsetRow(a, center, scale) + OffsetRow(b, center, scale), OffsetRow(a + b, center, scale);
      forall k | 0 <= k < |a + b| ensures lhs[k] == rhs[k] {
        if k < |a| { assert (a + b)[k] == a[k]; } else { assert (a + b)[k] == b[k - |a|]; }
      }
      assert lhs == rhs;
    }
  }

  /** Measuring from the mean leaves entries that sum to zero, whatever
      the scale. */
  lemma OffsetFromMeanSumsToZero(g: seq<seq<real>>, scale: real)
    ensures Sum(Flatten(Offset(g, Mean(g), scale))) == 0.0
  {
    FlattenOffset(g, Mean(g), scale);
    OffsetRowFromMean(Flatten(g), scale);
  }

  lemma OffsetRowFromMean(s: seq<real>, scale: real)
    ensures Sum(OffsetRow(s, MeanOf(s), scale)) == 0.0
  {
    var m := MeanOf(s);
    SumOffsetRow(s, m, scale);
    if s == [] {
      CenteredSum(0.0, 0.0, m, scale);
    } else {
      CenteredSum(Sum(s), |s| as real, m, scale);
    }
  }

  lemma CenteredSum(total: real, n: real, m: real, scale: real)
    requires (n == 0.0 && total == 0.0) || (n > 0.0 && m == total / n)
    ensures (total - n * m) * scale == 0.0
  {
    if n > 0.0 {
      assert n * (total / n) == total;
    }
  }

  /** The projection is centred on the sampled centroid: the X values sum
      to zero over the grid, and so do the Y values. */
  lemma ProjectionIsCentered(latGrid: seq<seq<real>>, lonGrid: seq<seq<real>>, elevationGrid: seq<seq<real>>,
                             cosDeg: real -> real)
    ensures var xyz := LatLonTo3D(latGrid, lonGrid, elevationGrid, cosDeg);
      Sum(Flatten(xyz.0)) == 0.0 && Sum(Flatten(xyz.1)) == 0.0
  {
    OffsetFromMeanSumsToZero(lonGrid, MetersPerDegree * cosDeg(Mean(latGrid)));
    OffsetFromMeanSumsToZero(latGrid, MetersPerDegree);
  }

  // ---------------------------------------------------------------------
  // Translation

  /** `row + d`, entry by entry. */
  function ShiftRow(row: seq<real>, d: real): (r: seq<real>)
    ensures |r| == |row|
  {
    seq(|row|, j requires 0 <= j < |row| => row[j] + d)
  }

  /** Every entry of a grid moved by `d`. */
  function Shift(g: seq<seq<real>>, d: real): (r: seq<seq<real>>)
    ensures |r| == |g| && forall i :: 0 <= i < |g| ==> |r[i]| == |g[i]|
  {
    seq(|g|, i requires 0 <= i < |g| => ShiftRow(g[i], d))
  }

  lemma {:induction false} FlattenShift(g: seq<seq<real>>, d: real)
    ensures Flatten(Shift(g, d)) == ShiftRow(Flatten(g), d)
    decreases |g|
  {
    if g != [] {
      var init := g[..|g| - 1];
      assert Shift(g, d)[..|g| - 1] == Shift(init, d);
      FlattenShift(init, d);
      var a, b := Flatten(init), g[|g| - 1];
      var lhs, rhs := ShiftRow(a, d) + ShiftRow(b, d), ShiftRow(a + b, d);
      forall k | 0 <= k < |a + b| ensures lhs[k] == rhs[k] {
        if k < |a| { assert (a + b)[k] == a[k]; } else { assert (a + b)[k] == b[k - |a|]; }
      }
      assert lhs == rhs;
    }
  }

  lemma {:induction false} SumShiftRow(s: seq<real>, d: real)
    ensures Sum(ShiftRow(s, d)) == Sum(s) + (|s| as real) * d
    decreases |s|
  {
    if s != [] {
      var init := s[..|s| - 1];
      var r := ShiftRow(s, d);
      forall j | 0 <= j < |init| ensures r[j] == ShiftRow(init, d)[j] {
        assert init[j] == s[j];
      }
      assert r[..|s| - 1] == ShiftRow(init, d);
      SumShiftRow(init, d);
      assert Sum(r) == Sum(r[..|s| - 1]) + r[|s| - 1];
      assert (|init| as real) * d + d == (|s| as real) * d;
    }
  }

  /** Moving every entry of a non-empty grid by `d` moves its mean by `d`. */
  lemma MeanOfShift(g: seq<seq<real>>, d: real)
    requires Flatten(g) != []
    ensures Mean(Shift(g, d)) == Mean(g) + d
  {
    FlattenShift(g, d);
    SumShiftRow(Flatten(g), d);
    DivShift(Sum(Flatten(g)), |Flatten(g)| as real, d);
  }

  lemma DivShift(total: real, n: real, d: real)
    requires n > 0.0
    ensures (total + n * d) / n == total / n + d
  {
    assert (total + n * d) / n == total / n + (n * d) / n;
  }

  lemma OffsetRowShifted(row: seq<real>, d: real, m: real, scale: real)
    ensures OffsetRow(ShiftRow(row, d), m + d, scale) == OffsetRow(row, m, scale)
  {
    var a, b := OffsetRow(ShiftRow(row, d), m + d, scale), OffsetRow(row, m, scale);
    forall j | 0 <= j < |row| ensures a[j] == b[j] {
      assert row[j] + d - (m + d) == row[j] - m;
    }
  }

  lemma OffsetShifted(g: seq<seq<real>>, d: real, m: real, scale: real)
    ensures Offset(Shift(g, d), m + d, scale) == Offset(g, m, scale)
  {
    var a, b := Offset(Shift(g, d), m + d, scale), Offset(g, m, scale);
    forall i | 0 <= i < |g| ensures a[i] == b[i] {
      OffsetRowShifted(g[i], d, m, scale);
    }
  }

  lemma OffsetOfShift(g: seq<seq<real>>, d: real, scale: real)
    requires Flatten(g) != []
    ensures Offset(Shift(g, d), Mean(Shift(g, d)), scale) == Offset(g, Mean(g), scale)
  {
    MeanOfShift(g, d);
    OffsetShifted(g, d, Mean(g), scale);
  }

  /** X and Y are the offsets of the two grids from their own means. */
  lemma ProjectionParts(latGrid: seq<seq<real>>, lonGrid: seq<seq<real>>, elevationGrid: seq<seq<real>>,
                        cosDeg: real -> real, scale: real)
    requires scale == MetersPerDegree * cosDeg(Mean(latGrid))
    ensures LatLonTo3D(latGrid, lonGrid, elevationGrid, cosDeg).0 == Offset(lonGrid, Mean(lonGrid), scale)
    ensures LatLonTo3D(latGrid, lonGrid, elevationGrid, cosDeg).1 == Offset(latGrid, Mean(latGrid), MetersPerDegree)
  {
  }

  /** Translating the latitudes leaves Y as it was. */
  lemma TranslationKeepsY(latGrid: seq<seq<real>>, lonGrid: seq<seq<real>>, elevationGrid: seq<seq<real>>,
                          cosDeg: real -> real, dLat: real, dLon: real)
    requires Flatten(latGrid) != []
    ensures LatLonTo3D(Shift(latGrid, dLat), Shift(lonGrid, dLon), elevationGrid, cosDeg).1
         == LatLonTo3D(latGrid, lonGrid, elevationGrid, cosDeg).1
  {
    OffsetOfShift(latGrid, dLat, MetersPerDegree);
    ProjectionParts(latGrid, lonGrid, elevationGrid, cosDeg, MetersPerDegree * cosDeg(Mean(latGrid)));
    var lat2, lon2 := Shift(latGrid, dLat), Shift(lonGrid, dLon);
    ProjectionParts(lat2, lon2, elevationGrid, cosDeg, MetersPerDegree * cosDeg(Mean(lat2)));
  }

  /** Translating the longitudes keeps X's offsets from the centroid; only
      the cosine at the moved centre latitude rescales them. */
  lemma TranslationRescalesX(latGrid: seq<seq<real>>, lonGrid: seq<seq<real>>, elevationGrid: seq<seq<real>>,
                             cosDeg: real -> real, dLat: real, dLon: real)
    requires Flatten(latGrid) != [] && Flatten(lonGrid) != []
    ensures LatLonTo3D(Shift(latGrid, dLat), Shift(lonGrid, dLon), elevationGrid, cosDeg).0
         == Offset(lonGrid, Mean(lonGrid), MetersPerDegree * cosDeg(Mean(latGrid) + dLat))
  {
    var lat2, lon2 := Shift(latGrid, dLat), Shift(lonGrid, dLon);
    MeanOfShift(latGrid, dLat);
    var scale := MetersPerDegree * cosDeg(Mean(latGrid) + dLat);
    ProjectionParts(lat2, lon2, elevationGrid, cosDeg, scale);
    OffsetOfShift(lonGrid, dLon, scale);
  }

  /** Translating the lattice only moves the centroid: shifting every
      latitude by `dLat` and every longitude by `dLon` leaves Y and the
      elevations as they were, and X keeps its offsets from the centroid,
      rescaled only by the cosine at the moved centre latitude (so it is
      unchanged when `dLat` is 0). */
  lemma ProjectionTranslation(latGrid: seq<seq<real>>, lonGrid: seq<seq<real>>, elevationGrid: seq<seq<real>>,
                              cosDeg: real -> real, dLat: real, dLon: real)
    requires Flatten(latGrid) != [] && Flatten(lonGrid) != []
    ensures LatLonTo3D(Shift(latGrid, dLat), Shift(lonGrid, dLon), elevationGrid, cosDeg).1
         == LatLonTo3D(latGrid, lonGrid, elevationGrid, cosDeg).1
    ensures LatLonTo3D(Shift(latGrid, dLat), Shift(lonGrid, dLon), elevationGrid, cosDeg).2
         == LatLonTo3D(latGrid, lonGrid, elevationGrid, cosDeg).2
    ensures LatLonTo3D(Shift(latGrid, dLat), Shift(lonGrid, dLon), elevationGrid, cosDeg).0
         == Offset(lonGrid, Mean(lonGrid), MetersPerDegree * cosDeg(Mean(latGrid) + dLat))
    ensures dLat == 0.0 ==>
      LatLonTo3D(Shift(latGrid, dLat), Shift(lonGrid, dLon), elevationGrid, cosDeg).0
        == LatLonTo3D(latGrid, lonGrid, elevationGrid, cosDeg).0
  {
    var moved := LatLonTo3D(Shift(latGrid, dLat), Shift(lonGrid, dLon), elevationGrid, cosDeg);
    var xyz := LatLonTo3D(latGrid, lonGrid, elevationGrid, cosDeg);
    TranslationKeepsY(latGrid, lonGrid, elevationGrid, cosDeg, dLat, dLon);
    TranslationRescalesX(latGrid, lonGrid, elevationGrid, cosDeg, dLat, dLon);
    assert moved.2 == elevationGrid == xyz.2;
    if dLat == 0.0 {
      var scale := MetersPerDegree * cosDeg(Mean(latGrid));
      ProjectionParts(latGrid, lonGrid, elevationGrid, cosDeg, scale);
      assert Mean(latGrid) + dLat == Mean(latGrid);
      assert moved.0 == Offset(lonGrid, Mean(lonGrid), scale) == xyz.0;
    }
  }
}
