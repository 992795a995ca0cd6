/**
 * The structured grid of the CISM ice-sheet model for one ISMIP-HOM domain size
 * (`cism_grids`): `nx` by `ny` cells of width `dx = size * 1000 / nx` metres, with the
 * unstaggered coordinates at the cell centres `(i + 0.5) * dx`, the staggered ones at the
 * cell corners `(i + 1) * dx`, both also divided by the domain length, and 'ij' meshes
 * of each. The `grids` table gives the grids of every experiment.
 */
module CismGrids {
  import opened Arrays

  /** The default number of cells along x (`ewn`) and y (`nsn`). */
  const EWN: nat := 40
  const NSN: nat := 40

  /** The domain sizes in km of every experiment (`sizes`). */
  const SIZES: map<char, seq<nat>> := map[
    'a' := [5, 10, 20, 40, 80, 160],
    'b' := [5, 10, 20, 40, 80, 160],
    'c' := [5, 10, 20, 40, 80, 160],
    'd' := [5, 10, 20, 40, 80, 160],
    'e' := [],
    'f' := [100]]

  /** The attributes of one `cism_grids` object. */
  datatype CismGrid = CismGrid(
    size: nat, nx: nat, ny: nat, dx: real, dy: real,
    x: seq<real>, y: seq<real>, yGrid: seq<seq<real>>, xGrid: seq<seq<real>>,
    xHat: seq<real>, yHat: seq<real>, yHatGrid: seq<seq<real>>, xHatGrid: seq<seq<real>>,
    xStag: seq<real>, yStag: seq<real>, yStagGrid: seq<seq<real>>, xStagGrid: seq<seq<real>>,
    xHatStag: seq<real>, yHatStag: seq<real>, yHatStagGrid: seq<seq<real>>, xHatStagGrid: seq<seq<real>>)

  /** The cell width in metres of a domain of `size` km cut into `n` cells. */
  function Spacing(size: nat, n: nat): real
  {
    if n == 0 then 0.0 else (size as real) * 1000.0 / (n as real)
  }

  /** `[(i + 0.5) * d for i in range(n)]`: the cell centres. */
  function Centred(n: nat, d: real): (r: seq<real>)
    ensures |r| == n && forall i :: 0 <= i < n ==> r[i] == ((i as real) + 0.5) * d
  {
    seq(n, i => ((i as real) + 0.5) * d)
  }

  /** `[(i + 1) * d for i in range(n - 1)]`: the corners between the cell centres. */
  function Staggered(n: nat, d: real): (r: seq<real>)
    ensures |r| == if n == 0 then 0 else n - 1
    ensures forall i :: 0 <= i < |r| ==> r[i] == ((i as real) + 1.0) * d
  {
    if n == 0 then [] else seq(n - 1, i => ((i as real) + 1.0) * d)
  }

  /** `[c / (size * 1000) for c in cs]`: coordinates as fractions of the domain length. */
  function Normalised(cs: seq<real>, size: nat): (r: seq<real>)
    requires size > 0
    ensures |r| == |cs| && forall i :: 0 <= i < |cs| ==> r[i] == cs[i] / ((size * 1000) as real)
  {
    seq(|cs|, i requires 0 <= i < |cs| => cs[i] / ((size * 1000) as real))
  }

  /** `cism_grids(size)`; a size of 0 makes the division by `size * 1000` raise. */
  function NewCismGrid(size: nat): CismGrid
    requires size > 0
  {
    var dx, dy := Spacing(size, EWN), Spacing(size, NSN);
    var x, y := Centred(EWN, dx), Centred(NSN, dy);
    var xHat, yHat := Normalised(x, size), Normalised(y, size);
    var xStag, yStag := Staggered(EWN, dx), Staggered(NSN, dy);
    var xHatStag, yHatStag := Normalised(xStag, size), Normalised(yStag, size);
    var mesh, hatMesh := MeshgridIJ(y, x), MeshgridIJ(yHat, xHat);
    var stagMesh, hatStagMesh := MeshgridIJ(yStag, xStag), MeshgridIJ(yHatStag, xHatStag);
    CismGrid(size, EWN, NSN, dx, dy,
             x, y, mesh.0, mesh.1, xHat, yHat, hatMesh.0, hatMesh.1,
             xStag, yStag, stagMesh.0, stagMesh.1, xHatStag, yHatStag, hatStagMesh.0, hatStagMesh.1)
  }

  /** Cell centres a positive width apart increase strictly, by exactly that width. */
  lemma CentredIncreasing(n: nat, d: real, i: nat, j: nat)
    requires 0.0 < d && i < j < n
    ensures Centred(n, d)[i] < Centred(n, d)[j]
    ensures j == i + 1 ==> Centred(n, d)[j] - Centred(n, d)[i] == d
  {
    var c := Centred(n, d);
    assert c[j] - c[i] == ((j - i) as real) * d;
  }

  /**
   * A grid's spacing is `size * 1000 / 40` metres along both axes, and each axis has 40
   * cell centres at `(i + 0.5) * dx`, increasing strictly with constant step `dx`.
   */
  lemma CentredAxes(size: nat, i: nat, j: nat)
    requires size > 0 && i < j < EWN
    ensures var g := NewCismGrid(size);
      && g.nx == g.ny == 40
      && g.dx == g.dy == (size as real) * 1000.0 / 40.0
      && |g.x| == |g.y| == 40
      && g.x[i] == ((i as real) + 0.5) * g.dx && g.y[i] == ((i as real) + 0.5) * g.dy
      && g.x[i] < g.x[j] && g.y[i] < g.y[j]
      && (j == i + 1 ==> g.x[j] - g.x[i] == g.dx && g.y[j] - g.y[i] == g.dy)
  {
    var g := NewCismGrid(size);
    CentredIncreasing(EWN, g.dx, i, j);
    CentredIncreasing(NSN, g.dy, i, j);
  }

  /** Each corner lies midway between the centres on either side of it. */
  lemma CornerMidway(n: nat, d: real, i: nat)
    requires i + 1 < n
    ensures Staggered(n, d)[i] == (Centred(n, d)[i] + Centred(n, d)[i + 1]) / 2.0
  {
    var c := Centred(n, d);
    assert c[i] + c[i + 1] == 2.0 * ((i as real) + 1.0) * d;
  }

  /** A centre divided by the domain length is `(i + 0.5) / n`, whatever the size. */
  lemma NormalisedCentre(n: nat, size: nat, i: nat)
    requires n > 0 && size > 0 && i < n
    ensures Centred(n, Spacing(size, n))[i] / ((size * 1000) as real) == ((i as real) + 0.5) / (n as real)
  {
    var L, N := (size * 1000) as real, n as real;
    var d := Spacing(size, n);
    assert d == L / N;
    assert ((i as real) + 0.5) * (L / N) / L == ((i as real) + 0.5) / N;
  }

  /** A corner divided by the domain length is `(i + 1) / n`, whatever the size. */
  lemma NormalisedCorner(n: nat, size: nat, i: nat)
    requires n > 1 && size > 0 && i < n - 1
    ensures Staggered(n, Spacing(size, n))[i] / ((size * 1000) as real) == ((i as real) + 1.0) / (n as real)
  {
    var L, N := (size * 1000) as real, n as real;
    var d := Spacing(size, n);
    assert d == L / N;
    assert ((i as real) + 1.0) * (L / N) / L == ((i as real) + 1.0) / N;
  }

  /**
   * The normalised centres are `(i + 0.5) / 40`, independent of the size, from 0.0125 to
   * 0.9875 and so strictly inside (0, 1).
   */
  lemma HatCentres(size: nat, i: nat)
    requires size > 0 && i < EWN
    ensures var g := NewCismGrid(size);
      && |g.xHat| == |g.yHat| == 40
      && g.xHat[i] == g.yHat[i] == ((i as real) + 0.5) / 40.0
      && 0.0125 <= g.xHat[i] <= 0.9875 && 0.0 < g.xHat[i] < 1.0
      && (i == 0 ==> g.xHat[i] == 0.0125) && (i == 39 ==> g.xHat[i] == 0.9875)
  {
    NormalisedCentre(EWN, size, i);
  }

  /**
   * The staggered axes have 39 points at `(i + 1) * dx`, each midway between the centres
   * `i` and `i + 1`; normalised they are `(i + 1) / 40`, from 0.025 to 0.975.
   */
  lemma StaggeredAxes(size: nat, i: nat)
    requires size > 0 && i < EWN - 1
    ensures var g := NewCismGrid(size);
      && |g.xStag| == |g.yStag| == 39 && |g.xHatStag| == |g.yHatStag| == 39
      && g.xStag[i] == ((i as real) + 1.0) * g.dx && g.yStag[i] == ((i as real) + 1.0) * g.dy
      && g.xStag[i] == (g.x[i] + g.x[i + 1]) / 2.0 && g.yStag[i] == (g.y[i] + g.y[i + 1]) / 2.0
      && g.xHatStag[i] == g.yHatStag[i] == ((i as real) + 1.0) / 40.0
      && 0.025 <= g.xHatStag[i] <= 0.975
      && (i == 0 ==> g.xHatStag[i] == 0.025) && (i == 38 ==> g.xHatStag[i] == 0.975)
  {
    var g := NewCismGrid(size);
    NormalisedCorner(EWN, size, i);
    CornerMidway(EWN, g.dx, i);
    CornerMidway(NSN, g.dy, i);
  }

  /** The normalised axes do not depend on the domain size. */
  lemma HatIndependentOfSize(s1: nat, s2: nat)
    requires s1 > 0 && s2 > 0
    ensures NewCismGrid(s1).xHat == NewCismGrid(s2).xHat && NewCismGrid(s1).yHat == NewCismGrid(s2).yHat
    ensures NewCismGrid(s1).xHatStag == NewCismGrid(s2).xHatStag && NewCismGrid(s1).yHatStag == NewCismGrid(s2).yHatStag
  {
    var g1, g2 := NewCismGrid(s1), NewCismGrid(s2);
    forall i | 0 <= i < EWN
      ensures g1.xHat[i] == g2.xHat[i] && g1.yHat[i] == g2.yHat[i]
    {
      HatCentres(s1, i);
      HatCentres(s2, i);
    }
    forall i | 0 <= i < EWN - 1
      ensures g1.xHatStag[i] == g2.xHatStag[i] && g1.yHatStag[i] == g2.yHatStag[i]
    {
      StaggeredAxes(s1, i);
      StaggeredAxes(s2, i);
    }
  }

  /**
   * Every mesh is `meshgrid(y, x, indexing='ij')`: `len(y)` rows of `len(x)` entries, the
   * y mesh constant along rows and the x mesh constant down columns.
   */
  lemma MeshesIJ(size: nat, i: nat, j: nat)
    requires size > 0 && i < NSN && j < EWN
    ensures var g := NewCismGrid(size);
      && IsRect(g.yGrid, 40, 40) && IsRect(g.xGrid, 40, 40)
      && IsRect(g.yHatGrid, 40, 40) && IsRect(g.xHatGrid, 40, 40)
      && g.yGrid[i][j] == g.y[i] && g.xGrid[i][j] == g.x[j]
      && g.yHatGrid[i][j] == g.yHat[i] && g.xHatGrid[i][j] == g.xHat[j]
      && IsRect(g.yStagGrid, 39, 39) && IsRect(g.xStagGrid, 39, 39)
      && IsRect(g.yHatStagGrid, 39, 39) && IsRect(g.xHatStagGrid, 39, 39)
      && (i < 39 && j < 39 ==>
            g.yStagGrid[i][j] == g.yStag[i] && g.xStagGrid[i][j] == g.xStag[j] &&
            g.yHatStagGrid[i][j] == g.yHatStag[i] && g.xHatStagGrid[i][j] == g.xHatStag[j])
  {
  }

  /** One grid per size, in order (`grd`, and the single grid of experiment f). */
  function GridsOf(sizes: seq<nat>): (r: seq<CismGrid>)
    requires forall k :: 0 <= k < |sizes| ==> sizes[k] > 0
    ensures |r| == |sizes|
  {
    if sizes == [] then []
    else GridsOf(sizes[..|sizes| - 1]) + [NewCismGrid(sizes[|sizes| - 1])]
  }

  /** Entry `k` of the list is the grid of the `k`-th size. */
  lemma {:induction false} GridsOfAt(sizes: seq<nat>, k: nat)
    requires forall k :: 0 <= k < |sizes| ==> sizes[k] > 0
    requires k < |sizes|
    ensures GridsOf(sizes)[k] == NewCismGrid(sizes[k])
  {
    var n := |sizes| - 1;
    if k < n {
      GridsOfAt(sizes[..n], k);
    }
  }

  /** The `grids` table: the grids of every experiment. */
  function Grids(): map<char, seq<CismGrid>>
  {
    var grd := GridsOf(SIZES['a']);
    map['a' := grd, 'b' := grd, 'c' := grd, 'd' := grd, 'e' := [], 'f' := [NewCismGrid(SIZES['f'][0])]]
  }

  /**
   * Experiments a to d share one list of six grids, of the sizes 5, 10, 20, 40, 80 and
   * 160 km in that order; e has no grid; f has one grid, of size 100 km.
   */
  lemma GridsTable(k: nat)
    requires k < 6
    ensures Grids().Keys == {'a', 'b', 'c', 'd', 'e', 'f'}
    ensures Grids()['a'] == Grids()['b'] == Grids()['c'] == Grids()['d']
    ensures |Grids()['a']| == 6 && Grids()['a'][k] == NewCismGrid([5, 10, 20, 40, 80, 160][k])
    ensures Grids()['a'][k].size == [5, 10, 20, 40, 80, 160][k]
    ensures Grids()['e'] == [] && Grids()['f'] == [NewCismGrid(100)]
  {
    GridsOfAt(SIZES['a'], k);
  }
}
