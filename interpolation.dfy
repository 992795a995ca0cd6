/**
 * Resampling of one record's scattered samples onto its query grid (`ismip_datum.interp_data`).
 * The scattered-data interpolator (scipy's griddata, linear method) is a parameter: for the
 * sample points, the sample values and one query point it yields a value, or None when the
 * query point is outside the convex hull of the samples (NaN in the original).
 * numpy.sqrt is a parameter as well.
 */
module Interpolation {
  import opened Wrappers
  import opened Arrays
  import opened QueryGrid
  import opened Classification

  /** A horizontal position, normalised or physical. */
  datatype Point = Point(x: real, y: real)

  /** The library interpolator: (sample points, sample values, query point) -> value or undefined. */
  type Interpolator = (seq<Point>, seq<real>, Point) -> Option<real>

  /** An interpolated field on the query grid; None marks a cell outside the hull. */
  type Field = seq<seq<Option<real>>>

  /**
   * A record's `array` attribute: the two-dimensional table `numpy.loadtxt` returns, or
   * the one-dimensional empty array `numpy.array([])` stored for unknown models.
   */
  datatype NdArray = EmptyVector | Matrix(rows: seq<seq<real>>)

  /** The exceptions numpy raises on out-of-range indexing. */
  datatype ArrayError =
    | TooManyIndices    // a two-index subscript of a one-dimensional array
    | IndexOutOfBounds  // a missing column, or row 0 of an empty table

  /**
   * The interpolated attributes, one variant per experiment: `vx_surf_i`, `vy_surf_i`,
   * `vnorm_surf_i` (a), plus `vz_surf_i` (c), plus `surf_i` (f); none for the others.
   */
  datatype Fields =
    | NoFields
    | SurfaceA(vx: Field, vy: Field, vnorm: Field)
    | SurfaceC(vx: Field, vy: Field, vz: Field, vnorm: Field)
    | FlowlineF(surf: Field, vx: Field, vy: Field, vz: Field, vnorm: Field)

  /** The number of leading columns the experiment's branch reads. */
  function ColumnsRead(e: char): nat
  {
    if e == 'a' then 4 else if e == 'c' then 5 else if e == 'f' then 6 else 0
  }

  predicate MinWidth(rows: seq<seq<real>>, w: nat)
  {
    forall i :: 0 <= i < |rows| ==> w <= |rows[i]|
  }

  /** The table has every column the experiment's branch reads (and, for f, a row 0). */
  predicate Conforms(e: char, arr: NdArray)
  {
    arr.Matrix? && MinWidth(arr.rows, ColumnsRead(e)) && (e == 'f' ==> |arr.rows| > 0)
  }

  /** `array[:, 0:2]`, the scattered sample positions. */
  function Positions(rows: seq<seq<real>>): (r: seq<Point>)
    requires MinWidth(rows, 2)
    ensures |r| == |rows| && forall i :: 0 <= i < |rows| ==> r[i] == Point(rows[i][0], rows[i][1])
  {
    seq(|rows|, i requires 0 <= i < |rows| => Point(rows[i][0], rows[i][1]))
  }

  /** The query meshes have one shape. */
  predicate MeshPair(X: seq<seq<real>>, Y: seq<seq<real>>)
  {
    Rectangular(X) && IsRect(Y, |X|, Cols(X))
  }

  lemma MeshPairSizes(X: seq<seq<real>>, Y: seq<seq<real>>)
    requires MeshPair(X, Y)
    ensures |Ravel(X)| == |Ravel(Y)| == |X| * Cols(X)
  {
    RavelLength(X, |X|, Cols(X));
    RavelLength(Y, |X|, Cols(X));
  }

  /**
   * `griddata(points, values, (X.ravel(), Y.ravel()))`: one interpolated value per cell of
   * the query mesh, in ravel order.
   */
  function GridData(gd: Interpolator, points: seq<Point>, values: seq<real>, X: seq<seq<real>>, Y: seq<seq<real>>): (r: seq<Option<real>>)
    requires MeshPair(X, Y)
    ensures |r| == |X| * Cols(X)
  {
    MeshPairSizes(X, Y);
    seq(|Ravel(X)|, k requires 0 <= k < |Ravel(X)| => gd(points, values, Point(Ravel(X)[k], Ravel(Y)[k])))
  }

  /** A square root: the non-negative root of every non-negative real. */
  ghost predicate IsSquareRoot(sqrt: real -> real)
  {
    forall v :: 0.0 <= v ==> 0.0 <= sqrt(v) && sqrt(v) * sqrt(v) == v
  }

  /** `sqrt(square(vx) + square(vy))`; NaN (None) in any component gives NaN. */
  function Norm2(sqrt: real -> real, a: Option<real>, b: Option<real>): Option<real>
  {
    if a.Some? && b.Some? then Some(sqrt(a.value * a.value + b.value * b.value)) else None
  }

  /** `sqrt(square(vx) + square(vy) + square(vz))`; NaN (None) in any component gives NaN. */
  function Norm3(sqrt: real -> real, a: Option<real>, b: Option<real>, c: Option<real>): Option<real>
  {
    if a.Some? && b.Some? && c.Some? then Some(sqrt(a.value * a.value + b.value * b.value + c.value * c.value)) else None
  }

  /** The two-component norm is defined exactly where both components are, and its square is vx² + vy². */
  lemma Norm2Squared(sqrt: real -> real, a: Option<real>, b: Option<real>)
    requires IsSquareRoot(sqrt)
    ensures Norm2(sqrt, a, b).Some? <==> a.Some? && b.Some?
    ensures Norm2(sqrt, a, b).Some? ==>
      var n := Norm2(sqrt, a, b).value; 0.0 <= n && n * n == a.value * a.value + b.value * b.value
  {
    if a.Some? && b.Some? {
      var s := a.value * a.value + b.value * b.value;
      assert 0.0 <= a.value * a.value && 0.0 <= b.value * b.value;
      assert 0.0 <= sqrt(s) && sqrt(s) * sqrt(s) == s;
    }
  }

  /** The three-component norm is defined exactly where all components are, and its square is vx² + vy² + vz². */
  lemma Norm3Squared(sqrt: real -> real, a: Option<real>, b: Option<real>, c: Option<real>)
    requires IsSquareRoot(sqrt)
    ensures Norm3(sqrt, a, b, c).Some? <==> a.Some? && b.Some? && c.Some?
    ensures Norm3(sqrt, a, b, c).Some? ==>
      var n := Norm3(sqrt, a, b, c).value;
      0.0 <= n && n * n == a.value * a.value + b.value * b.value + c.value * c.value
  {
    if a.Some? && b.Some? && c.Some? {
      var s := a.value * a.value + b.value * b.value + c.value * c.value;
      assert 0.0 <= a.value * a.value && 0.0 <= b.value * b.value && 0.0 <= c.value * c.value;
      assert 0.0 <= sqrt(s) && sqrt(s) * sqrt(s) == s;
    }
  }

  /** The affine map from the physical Exp. F frame (km from the centre) to normalised coordinates. */
  function ToNormalised(p: Point): Point
  {
    Point(p.x / 100.0 + 0.5, p.y / 100.0 + 0.5)
  }

  /** Its inverse: coordinates are recovered exactly. */
  function FromNormalised(p: Point): Point
  {
    Point((p.x - 0.5) * 100.0, (p.y - 0.5) * 100.0)
  }

  lemma NormalisedRoundTrip(p: Point)
    ensures FromNormalised(ToNormalised(p)) == p && ToNormalised(FromNormalised(p)) == p
  {
  }

  /**
   * The Exp. F convention fix: when the first sample's x is below -1.0 the whole table is
   * taken to be in the physical frame and every position is mapped by `c / 100 + 0.5`.
   */
  function NormaliseF(xy: seq<Point>): (r: seq<Point>)
    requires |xy| > 0
    ensures |r| == |xy|
  {
    if xy[0].x < -1.0 then seq(|xy|, k requires 0 <= k < |xy| => ToNormalised(xy[k])) else xy
  }

  /**
   * The rule fires exactly when row 0's x is below -1.0, and then rescales every row;
   * otherwise nothing changes. Only row 0 is looked at: any two tables that agree on
   * row 0 are treated alike.
   */
  lemma NormaliseFRule(xy: seq<Point>, other: seq<Point>)
    requires |xy| > 0 && |other| > 0 && other[0] == xy[0]
    ensures xy[0].x < -1.0 ==> forall k :: 0 <= k < |xy| ==> NormaliseF(xy)[k] == ToNormalised(xy[k])
    ensures xy[0].x < -1.0 ==> forall k :: 0 <= k < |xy| ==> FromNormalised(NormaliseF(xy)[k]) == xy[k]
    ensures -1.0 <= xy[0].x ==> NormaliseF(xy) == xy
    ensures (NormaliseF(xy) == xy && NormaliseF(other) == other) || (xy[0].x < -1.0 && other[0].x < -1.0)
  {
    if xy[0].x < -1.0 {
      forall k | 0 <= k < |xy| ensures FromNormalised(NormaliseF(xy)[k]) == xy[k] {
        NormalisedRoundTrip(xy[k]);
      }
    }
  }

  /** The worked case: -50 km maps to 0.0, and a first coordinate of 0.3 leaves the table alone. */
  lemma NormaliseFExamples(xy: seq<Point>)
    requires |xy| > 0
    ensures xy[0].x == -50.0 ==> NormaliseF(xy)[0].x == 0.0
    ensures xy[0].x == 0.3 ==> NormaliseF(xy) == xy
  {
  }

  /** The fields of experiment a: columns 2 and 3, and their norm, computed on the ravel and reshaped. */
  function FieldsA(gd: Interpolator, sqrt: real -> real, rows: seq<seq<real>>, X: seq<seq<real>>, Y: seq<seq<real>>): Fields
    requires MinWidth(rows, 4) && MeshPair(X, Y)
  {
    MeshPairSizes(X, Y);
    var pts := Positions(rows);
    var vx := GridData(gd, pts, ColumnOf(rows, 2), X, Y);
    var vy := GridData(gd, pts, ColumnOf(rows, 3), X, Y);
    var vnorm := seq(|vx|, k requires 0 <= k < |vx| => Norm2(sqrt, vx[k], vy[k]));
    SurfaceA(Reshape(vx, |X|, Cols(X)), Reshape(vy, |X|, Cols(X)), Reshape(vnorm, |X|, Cols(X)))
  }

  /** The fields of experiment c: columns 2, 3 and 4, and their norm. */
  function FieldsC(gd: Interpolator, sqrt: real -> real, rows: seq<seq<real>>, X: seq<seq<real>>, Y: seq<seq<real>>): Fields
    requires MinWidth(rows, 5) && MeshPair(X, Y)
  {
    MeshPairSizes(X, Y);
    var pts := Positions(rows);
    var vx := GridData(gd, pts, ColumnOf(rows, 2), X, Y);
    var vy := GridData(gd, pts, ColumnOf(rows, 3), X, Y);
    var vz := GridData(gd, pts, ColumnOf(rows, 4), X, Y);
    var vnorm := seq(|vx|, k requires 0 <= k < |vx| => Norm3(sqrt, vx[k], vy[k], vz[k]));
    SurfaceC(Reshape(vx, |X|, Cols(X)), Reshape(vy, |X|, Cols(X)), Reshape(vz, |X|, Cols(X)), Reshape(vnorm, |X|, Cols(X)))
  }

  /** The fields of experiment f: columns 2 to 5 over the normalised positions, and the velocity norm. */
  function FieldsF(gd: Interpolator, sqrt: real -> real, rows: seq<seq<real>>, X: seq<seq<real>>, Y: seq<seq<real>>): Fields
    requires MinWidth(rows, 6) && |rows| > 0 && MeshPair(X, Y)
  {
    MeshPairSizes(X, Y);
    var pts := NormaliseF(Positions(rows));
    var surf := GridData(gd, pts, ColumnOf(rows, 2), X, Y);
    var vx := GridData(gd, pts, ColumnOf(rows, 3), X, Y);
    var vy := GridData(gd, pts, ColumnOf(rows, 4), X, Y);
    var vz := GridData(gd, pts, ColumnOf(rows, 5), X, Y);
    var vnorm := seq(|vx|, k requires 0 <= k < |vx| => Norm3(sqrt, vx[k], vy[k], vz[k]));
    FlowlineF(Reshape(surf, |X|, Cols(X)), Reshape(vx, |X|, Cols(X)), Reshape(vy, |X|, Cols(X)),
              Reshape(vz, |X|, Cols(X)), Reshape(vnorm, |X|, Cols(X)))
  }

  /** Ravel position `i * cols + j` of griddata's output is the interpolant at mesh cell `(i, j)`. */
  lemma GridDataAt(gd: Interpolator, points: seq<Point>, values: seq<real>, X: seq<seq<real>>, Y: seq<seq<real>>, i: nat, j: nat)
    requires MeshPair(X, Y) && i < |X| && j < Cols(X)
    ensures i * Cols(X) + j < |X| * Cols(X)
    ensures GridData(gd, points, values, X, Y)[i * Cols(X) + j] == gd(points, values, Point(X[i][j], Y[i][j]))
  {
    var cols := Cols(X);
    MeshPairSizes(X, Y);
    RavelAt(X, |X|, cols, i, j);
    RavelAt(Y, |X|, cols, i, j);
    var k := i * cols + j;
    var g := GridData(gd, points, values, X, Y);
    assert g[k] == gd(points, values, Point(Ravel(X)[k], Ravel(Y)[k]));
  }

  /** Every field of a result has the shape of the query mesh. */
  predicate Shaped(f: Fields, rows: nat, cols: nat)
  {
    match f
    case NoFields => true
    case SurfaceA(vx, vy, vnorm) => IsRect(vx, rows, cols) && IsRect(vy, rows, cols) && IsRect(vnorm, rows, cols)
    case SurfaceC(vx, vy, vz, vnorm) =>
      IsRect(vx, rows, cols) && IsRect(vy, rows, cols) && IsRect(vz, rows, cols) && IsRect(vnorm, rows, cols)
    case FlowlineF(surf, vx, vy, vz, vnorm) =>
      IsRect(surf, rows, cols) && IsRect(vx, rows, cols) && IsRect(vy, rows, cols) &&
      IsRect(vz, rows, cols) && IsRect(vnorm, rows, cols)
  }

  /**
   * Experiment a, cell by cell: vx interpolates column 2 and vy column 3 over the positions in
   * columns 0-1, at the query point of that cell; the norm is taken of those two values.
   */
  lemma FieldsAAt(gd: Interpolator, sqrt: real -> real, rows: seq<seq<real>>, X: seq<seq<real>>, Y: seq<seq<real>>, i: nat, j: nat)
    requires MinWidth(rows, 4) && MeshPair(X, Y) && i < |X| && j < Cols(X)
    ensures var f := FieldsA(gd, sqrt, rows, X, Y);
      var q := Point(X[i][j], Y[i][j]);
      f.SurfaceA? && Shaped(f, |X|, Cols(X)) &&
      f.vx[i][j] == gd(Positions(rows), ColumnOf(rows, 2), q) &&
      f.vy[i][j] == gd(Positions(rows), ColumnOf(rows, 3), q) &&
      f.vnorm[i][j] == Norm2(sqrt, f.vx[i][j], f.vy[i][j])
  {
    var pts, cols := Positions(rows), Cols(X);
    GridDataAt(gd, pts, ColumnOf(rows, 2), X, Y, i, j);
    GridDataAt(gd, pts, ColumnOf(rows, 3), X, Y, i, j);
    var vx := GridData(gd, pts, ColumnOf(rows, 2), X, Y);
    var vy := GridData(gd, pts, ColumnOf(rows, 3), X, Y);
    var vnorm := seq(|vx|, k requires 0 <= k < |vx| => Norm2(sqrt, vx[k], vy[k]));
    ReshapeAt(vx, |X|, cols, i, j);
    ReshapeAt(vy, |X|, cols, i, j);
    ReshapeAt(vnorm, |X|, cols, i, j);
  }

  /** Experiment c, cell by cell: columns 2, 3 and 4, and the norm of the three values. */
  lemma FieldsCAt(gd: Interpolator, sqrt: real -> real, rows: seq<seq<real>>, X: seq<seq<real>>, Y: seq<seq<real>>, i: nat, j: nat)
    requires MinWidth(rows, 5) && MeshPair(X, Y) && i < |X| && j < Cols(X)
    ensures var f := FieldsC(gd, sqrt, rows, X, Y);
      var q := Point(X[i][j], Y[i][j]);
      f.SurfaceC? && Shaped(f, |X|, Cols(X)) &&
      f.vx[i][j] == gd(Positions(rows), ColumnOf(rows, 2), q) &&
      f.vy[i][j] == gd(Positions(rows), ColumnOf(rows, 3), q) &&
      f.vz[i][j] == gd(Positions(rows), ColumnOf(rows, 4), q) &&
      f.vnorm[i][j] == Norm3(sqrt, f.vx[i][j], f.vy[i][j], f.vz[i][j])
  {
    var pts, cols := Positions(rows), Cols(X);
    GridDataAt(gd, pts, ColumnOf(rows, 2), X, Y, i, j);
    GridDataAt(gd, pts, ColumnOf(rows, 3), X, Y, i, j);
    GridDataAt(gd, pts, ColumnOf(rows, 4), X, Y, i, j);
    var vx := GridData(gd, pts, ColumnOf(rows, 2), X, Y);
    var vy := GridData(gd, pts, ColumnOf(rows, 3), X, Y);
    var vz := GridData(gd, pts, ColumnOf(rows, 4), X, Y);
    var vnorm := seq(|vx|, k requires 0 <= k < |vx| => Norm3(sqrt, vx[k], vy[k], vz[k]));
    ReshapeAt(vx, |X|, cols, i, j);
    ReshapeAt(vy, |X|, cols, i, j);
    ReshapeAt(vz, |X|, cols, i, j);
    ReshapeAt(vnorm, |X|, cols, i, j);
  }

  /**
   * Experiment f, cell by cell: surf, vx, vy, vz interpolate columns 2 to 5 over the
   * normalised positions; the norm is taken of the three velocity values.
   */
  lemma FieldsFAt(gd: Interpolator, sqrt: real -> real, rows: seq<seq<real>>, X: seq<seq<real>>, Y: seq<seq<real>>, i: nat, j: nat)
    requires MinWidth(rows, 6) && |rows| > 0 && MeshPair(X, Y) && i < |X| && j < Cols(X)
    ensures var f := FieldsF(gd, sqrt, rows, X, Y);
      var q := Point(X[i][j], Y[i][j]);
      var pts := NormaliseF(Positions(rows));
      f.FlowlineF? && Shaped(f, |X|, Cols(X)) &&
      f.surf[i][j] == gd(pts, ColumnOf(rows, 2), q) &&
      f.vx[i][j] == gd(pts, ColumnOf(rows, 3), q) &&
      f.vy[i][j] == gd(pts, ColumnOf(rows, 4), q) &&
      f.vz[i][j] == gd(pts, ColumnOf(rows, 5), q) &&
      f.vnorm[i][j] == Norm3(sqrt, f.vx[i][j], f.vy[i][j], f.vz[i][j])
  {
    var pts, cols := NormaliseF(Positions(rows)), Cols(X);
    GridDataAt(gd, pts, ColumnOf(rows, 2), X, Y, i, j);
    GridDataAt(gd, pts, ColumnOf(rows, 3), X, Y, i, j);
    GridDataAt(gd, pts, ColumnOf(rows, 4), X, Y, i, j);
    GridDataAt(gd, pts, ColumnOf(rows, 5), X, Y, i, j);
    var surf := GridData(gd, pts, ColumnOf(rows, 2), X, Y);
    var vx := GridData(gd, pts, ColumnOf(rows, 3), X, Y);
    var vy := GridData(gd, pts, ColumnOf(rows, 4), X, Y);
    var vz := GridData(gd, pts, ColumnOf(rows, 5), X, Y);
    var vnorm := seq(|vx|, k requires 0 <= k < |vx| => Norm3(sqrt, vx[k], vy[k], vz[k]));
    ReshapeAt(surf, |X|, cols, i, j);
    ReshapeAt(vx, |X|, cols, i, j);
    ReshapeAt(vy, |X|, cols, i, j);
    ReshapeAt(vz, |X|, cols, i, j);
    ReshapeAt(vnorm, |X|, cols, i, j);
  }

  /**
   * `interp_data` as written: the a/c branch and the f branch run when the grid is
   * non-empty; indexing a one-dimensional array with two subscripts, a missing column or
   * row 0 of an empty f table raise IndexError.
   */
  function InterpAsWritten(gd: Interpolator, sqrt: real -> real, e: char, arr: NdArray, X: seq<seq<real>>, Y: seq<seq<real>>): Result<Fields, ArrayError>
    requires MeshPair(X, Y)
  {
    if Size(X) > 0 && (e == 'a' || e == 'c') then
      match arr
      case EmptyVector => Failure(TooManyIndices)
      case Matrix(rows) =>
        if !MinWidth(rows, ColumnsRead(e)) then Failure(IndexOutOfBounds)
        else if e == 'c' then Success(FieldsC(gd, sqrt, rows, X, Y))
        else Success(FieldsA(gd, sqrt, rows, X, Y))
    else if Size(X) > 0 && e == 'f' then
      match arr
      case EmptyVector => Failure(TooManyIndices)
      case Matrix(rows) =>
        if |rows| == 0 || !MinWidth(rows, ColumnsRead(e)) then Failure(IndexOutOfBounds)
        else Success(FieldsF(gd, sqrt, rows, X, Y))
    else Success(NoFields)
  }

  /**
   * On a non-empty grid, the interpolation of experiments a, c and f succeeds exactly on a
   * conforming table; every other experiment is skipped.
   */
  lemma InterpAsWrittenOutcome(gd: Interpolator, sqrt: real -> real, e: char, arr: NdArray, X: seq<seq<real>>, Y: seq<seq<real>>)
    requires MeshPair(X, Y) && Size(X) > 0
    ensures HasSlice(e) ==> (InterpAsWritten(gd, sqrt, e, arr, X, Y).Success? <==> Conforms(e, arr))
    ensures HasSlice(e) && arr == EmptyVector ==> InterpAsWritten(gd, sqrt, e, arr, X, Y) == Failure(TooManyIndices)
    ensures !HasSlice(e) ==> InterpAsWritten(gd, sqrt, e, arr, X, Y) == Success(NoFields)
    ensures InterpAsWritten(gd, sqrt, e, arr, X, Y).Success? ==>
      var f := InterpAsWritten(gd, sqrt, e, arr, X, Y).value;
      Shaped(f, |X|, Cols(X)) && (e == 'a' <==> f.SurfaceA?) && (e == 'c' <==> f.SurfaceC?) && (e == 'f' <==> f.FlowlineF?)
  {
  }

  /**
   * `interp_data` with the guard it evidently needs: records of an unknown model hold no
   * table and are not interpolated. For known models it is the code as written.
   */
  function Interp(gd: Interpolator, sqrt: real -> real, order: Order, e: char, arr: NdArray, X: seq<seq<real>>, Y: seq<seq<real>>): Fields
    requires MeshPair(X, Y)
    requires order != Unknown && Size(X) > 0 && HasSlice(e) ==> Conforms(e, arr)
  {
    if order == Unknown then NoFields
    else
      match InterpAsWritten(gd, sqrt, e, arr, X, Y)
      case Success(f) => f
      case Failure(_) => NoFields
  }

  /** The guarded version agrees with the code as written on known models and never raises. */
  lemma InterpAgreesWithAsWritten(gd: Interpolator, sqrt: real -> real, order: Order, e: char, arr: NdArray, X: seq<seq<real>>, Y: seq<seq<real>>)
    requires MeshPair(X, Y)
    requires order != Unknown && Size(X) > 0 && HasSlice(e) ==> Conforms(e, arr)
    ensures order != Unknown ==> InterpAsWritten(gd, sqrt, e, arr, X, Y) == Success(Interp(gd, sqrt, order, e, arr, X, Y))
    ensures order == Unknown ==> Interp(gd, sqrt, order, e, arr, X, Y) == NoFields
  {
    if order != Unknown && Size(X) > 0 {
      InterpAsWrittenOutcome(gd, sqrt, e, arr, X, Y);
    }
  }
}
