/**
 * The regular query grid onto which every model's scattered output is resampled
 * (`ismip_datum.make_grid`). For experiments a, c and f both axes are
 * linspace(0, 1, 4k + 1) with k = 25 points per quarter, meshed in 'xy' order, so that
 * the lines 1/4 and 1/2 fall exactly on grid indices k and 2k. Other experiments get
 * empty grids.
 */
module QueryGrid {
  import opened Wrappers
  import opened Arrays

  /** `points_p_quarter`. */
  const POINTS_PER_QUARTER: nat := 25

  /** Number of points along each axis: 4k + 1. */
  const GRID_SIDE: nat := POINTS_PER_QUARTER * 4 + 1

  /** The attributes `make_grid` sets; `ppq` is None where `points_p_quarter` is never assigned. */
  datatype Grid = Grid(ppq: Option<nat>, xHat: seq<real>, yHat: seq<real>, xHatGrid: seq<seq<real>>, yHatGrid: seq<seq<real>>)

  /** The experiments whose comparison figures are slices of the grid. */
  predicate HasSlice(e: char)
  {
    e == 'a' || e == 'c' || e == 'f'
  }

  /** The normalised axis with `n` points per quarter. */
  function UnitAxis(k: nat): seq<real>
  {
    Linspace(0.0, 1.0, k * 4 + 1)
  }

  /** The grid of `make_grid(exp)`. */
  function MakeGrid(e: char): Grid
  {
    if HasSlice(e) then
      var xHat := UnitAxis(POINTS_PER_QUARTER);
      var yHat := UnitAxis(POINTS_PER_QUARTER);
      var mesh := MeshgridXY(xHat, yHat);
      Grid(Some(POINTS_PER_QUARTER), xHat, yHat, mesh.0, mesh.1)
    else
      Grid(None, [], [], [], [])
  }

  /** Index `i` of the axis with `k` points per quarter is exactly `i / (4k)`. */
  lemma UnitAxisAt(k: nat, i: nat)
    requires k > 0 && i <= 4 * k
    ensures |UnitAxis(k)| == 4 * k + 1 && UnitAxis(k)[i] == (i as real) / ((4 * k) as real)
  {
  }

  /**
   * The landmarks the slicing depends on: with 4k + 1 points the axis starts at 0, ends
   * at 1, and index k is exactly 1/4 and index 2k exactly 1/2.
   */
  lemma QuarterAndHalf(k: nat)
    requires k > 0
    ensures var a := UnitAxis(k);
      |a| == 4 * k + 1 && a[0] == 0.0 && a[4 * k] == 1.0 && a[k] == 0.25 && a[2 * k] == 0.5
  {
    var n := (4 * k) as real;
    UnitAxisAt(k, k);
    UnitAxisAt(k, 2 * k);
    assert (k as real) == 0.25 * n;
    assert ((2 * k) as real) == 0.5 * n;
  }

  /**
   * A linspace over [0, 1] with `num` points hits 1/4 exactly at index `(num - 1) / 4`,
   * so it hits 1/4 at all only when 4 divides `num - 1`: this is why the grid has 4k + 1 points.
   */
  lemma QuarterNeedsMultipleOfFour(num: nat, i: nat)
    requires num >= 2 && i < num
    ensures Linspace(0.0, 1.0, num)[i] == 0.25 <==> 4 * i == num - 1
    ensures Linspace(0.0, 1.0, num)[i] == 0.25 ==> (num - 1) % 4 == 0
  {
    var d := (num - 1) as real;
    assert Linspace(0.0, 1.0, num)[i] == (i as real) * (1.0 / d);
    assert (i as real) * (1.0 / d) * d == i as real;
    if Linspace(0.0, 1.0, num)[i] == 0.25 {
      assert 0.25 * d == i as real;
      assert ((4 * i) as real) == d;
    } else {
      assert ((4 * i) as real) != d;
    }
  }

  /** The axis of the query grid is 101 points `i / 100`, strictly increasing inside [0, 1]. */
  lemma QueryAxis()
    ensures var a := UnitAxis(POINTS_PER_QUARTER);
      && |a| == GRID_SIDE == 101
      && (forall i :: 0 <= i < |a| ==> a[i] == (i as real) / 100.0 && 0.0 <= a[i] <= 1.0)
      && (forall i, j :: 0 <= i < j < |a| ==> a[i] < a[j])
      && a[0] == 0.0 && a[25] == 0.25 && a[50] == 0.5 && a[100] == 1.0
  {
    var a := UnitAxis(POINTS_PER_QUARTER);
    forall i | 0 <= i < |a|
      ensures a[i] == (i as real) / 100.0
    {
      UnitAxisAt(POINTS_PER_QUARTER, i);
    }
    QuarterAndHalf(POINTS_PER_QUARTER);
  }

  /**
   * What `make_grid` builds: for a, c and f, the 101-point axes and their 'xy' mesh, where
   * row `i` holds `y_hat[i]` and column `j` holds `x_hat[j]`; for any other experiment,
   * size-0 arrays and no `points_p_quarter`.
   */
  lemma MakeGridShape(e: char)
    ensures var g := MakeGrid(e);
      if HasSlice(e) then
        && g.ppq == Some(POINTS_PER_QUARTER)
        && g.xHat == g.yHat == UnitAxis(POINTS_PER_QUARTER)
        && IsRect(g.xHatGrid, GRID_SIDE, GRID_SIDE) && IsRect(g.yHatGrid, GRID_SIDE, GRID_SIDE)
        && (forall i, j :: 0 <= i < GRID_SIDE && 0 <= j < GRID_SIDE ==>
              g.xHatGrid[i][j] == (j as real) / 100.0 && g.yHatGrid[i][j] == (i as real) / 100.0)
        && Size(g.xHatGrid) == GRID_SIDE * GRID_SIDE > 0
      else
        g.ppq == None && g.xHat == g.yHat == [] && g.xHatGrid == g.yHatGrid == [] && Size(g.xHatGrid) == 0
  {
    if HasSlice(e) {
      var g := MakeGrid(e);
      QueryAxis();
      RavelLength(g.xHatGrid, GRID_SIDE, GRID_SIDE);
    }
  }
}
