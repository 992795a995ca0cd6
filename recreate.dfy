/**
 * One ISMIP-HOM data file as the later script processes it (`ismip_datum`): the file name
 * gives the model, experiment and scenario; the model's order decides whether the table is
 * loaded; the experiment decides the query grid; and the table is resampled onto the grid.
 * The file's table (numpy.loadtxt), the interpolator and the square root are parameters.
 */
module Recreate {
  import opened Wrappers
  import opened Arrays
  import opened Classification
  import opened FileNames
  import opened QueryGrid
  import opened Interpolation

  /** A snapshot of a record's attributes. */
  datatype Record = Record(
    df: string, m: string, e: char, l: string,
    order: Order, arr: NdArray, grid: Grid, fields: Fields)

  /** `self.array`: the loaded table for a known model, `numpy.array([])` otherwise. */
  function LoadedArray(order: Order, table: seq<seq<real>>): (r: NdArray)
    ensures r.Matrix? <==> order != Unknown
    ensures r.Matrix? ==> r.rows == table
  {
    if order != Unknown then Matrix(table) else EmptyVector
  }

  /**
   * What the constructor needs from its input: a name of at least five characters (the
   * parser indexes position 4) and, for a known model in experiment a, c or f, a table
   * with the columns the interpolation reads.
   */
  predicate Admissible(df: string, table: seq<seq<real>>)
  {
    ParseFile(df).Some? &&
    var id := ParseFile(df).value;
    (Classify(id.model) != Unknown && HasSlice(id.experiment) ==> Conforms(id.experiment, Matrix(table)))
  }

  /** The meshes of every query grid have one shape. */
  lemma GridMeshPair(e: char)
    ensures MeshPair(MakeGrid(e).xHatGrid, MakeGrid(e).yHatGrid)
    ensures HasSlice(e) ==> |MakeGrid(e).xHatGrid| == GRID_SIDE && Cols(MakeGrid(e).xHatGrid) == GRID_SIDE
  {
    MakeGridShape(e);
  }

  /** The record the constructor builds from a file name and the file's table. */
  function DatumSpec(df: string, table: seq<seq<real>>, gd: Interpolator, sqrt: real -> real): Record
    requires Admissible(df, table)
  {
    var id := ParseFile(df).value;
    var order := Classify(id.model);
    var arr := LoadedArray(order, table);
    var grid := MakeGrid(id.experiment);
    MakeGridShape(id.experiment);
    GridMeshPair(id.experiment);
    Record(df, id.model, id.experiment, id.scenario, order, arr, grid,
           Interp(gd, sqrt, order, id.experiment, arr, grid.xHatGrid, grid.yHatGrid))
  }

  /**
   * The attributes the constructor computes, one by one: the file name, its parts, the
   * order of the model, the loaded table, the experiment's grid and the interpolated fields.
   */
  predicate Built(r: Record, df: string, table: seq<seq<real>>, gd: Interpolator, sqrt: real -> real)
  {
    && r.df == df && ParseFile(df) == Some(RecordId(r.m, r.e, r.l))
    && r.order == Classify(r.m) && r.arr == LoadedArray(r.order, table) && r.grid == MakeGrid(r.e)
    && MeshPair(r.grid.xHatGrid, r.grid.yHatGrid)
    && (r.order != Unknown && Size(r.grid.xHatGrid) > 0 && HasSlice(r.e) ==> Conforms(r.e, r.arr))
    && r.fields == Interp(gd, sqrt, r.order, r.e, r.arr, r.grid.xHatGrid, r.grid.yHatGrid)
  }

  /** The record the constructor specifies is the only one built so from the file and its table. */
  lemma BuiltIsDatumSpec(df: string, table: seq<seq<real>>, gd: Interpolator, sqrt: real -> real, r: Record)
    requires Admissible(df, table)
    ensures Built(r, df, table, gd, sqrt) <==> r == DatumSpec(df, table, gd, sqrt)
  {
    var id := ParseFile(df).value;
    GridMeshPair(id.experiment);
  }

  /** The fields match the experiment and all have the `n` by `n` shape of the grid. */
  predicate ShapedAs(e: char, f: Fields, n: nat)
  {
    Shaped(f, n, n) && (e == 'a' ==> f.SurfaceA?) && (e == 'c' ==> f.SurfaceC?) && (e == 'f' ==> f.FlowlineF?)
  }

  /** A record of a known model in a sliced experiment carries its grid and all its fields. */
  predicate Sliceable(r: Record)
  {
    r.order != Unknown && HasSlice(r.e) && r.grid.ppq == Some(POINTS_PER_QUARTER) &&
    ShapedAs(r.e, r.fields, GRID_SIDE)
  }

  /** What every constructed record promises the later stages. */
  predicate Processed(r: Record)
  {
    r.order != Unknown && HasSlice(r.e) ==> Sliceable(r)
  }

  /**
   * The constructor, attribute by attribute: `(M, E, L)` is the parse of the name, the order
   * is the classification of `M`, the table is kept exactly for known models, the grid is
   * that of `E`, a record of an unknown model gets no fields, and a known model in a, c or
   * f gets every field of its experiment on the 101 by 101 grid.
   */
  lemma DatumSpecFacts(df: string, table: seq<seq<real>>, gd: Interpolator, sqrt: real -> real)
    requires Admissible(df, table)
    ensures var r := DatumSpec(df, table, gd, sqrt);
      var id := ParseFile(df).value;
      && r.df == df && r.m == id.model && r.e == id.experiment && r.l == id.scenario
      && r.m + [r.e] + r.l == CodeName(df) && |r.m| == 4
      && r.order == Classify(r.m)
      && (r.order != Unknown <==> r.arr == Matrix(table))
      && (r.order == Unknown <==> r.arr == EmptyVector)
      && r.grid == MakeGrid(r.e)
      && (r.order == Unknown || !HasSlice(r.e) ==> r.fields == NoFields)
      && Processed(r)
  {
    var r := DatumSpec(df, table, gd, sqrt);
    GridMeshPair(r.e);
    MakeGridShape(r.e);
    InterpAgreesWithAsWritten(gd, sqrt, r.order, r.e, r.arr, r.grid.xHatGrid, r.grid.yHatGrid);
    if r.order != Unknown && HasSlice(r.e) {
      InterpAsWrittenOutcome(gd, sqrt, r.e, r.arr, r.grid.xHatGrid, r.grid.yHatGrid);
    }
  }

  /** `numpy.array([])` for an unknown model: the one-dimensional empty array. */
  lemma UnknownModelGetsEmptyArray(df: string, table: seq<seq<real>>, gd: Interpolator, sqrt: real -> real)
    requires Admissible(df, table) && Classify(ParseFile(df).value.model) == Unknown
    ensures DatumSpec(df, table, gd, sqrt).arr == EmptyVector
    ensures DatumSpec(df, table, gd, sqrt).fields == NoFields
  {
  }

  /**
   * The code as written crashes on an unknown model in experiment a, c or f: the empty
   * arr reaches `arr[:, 0:2]` and numpy raises IndexError (too many indices).
   */
  lemma UnknownRecordRaisesAsWritten(df: string, table: seq<seq<real>>, gd: Interpolator, sqrt: real -> real)
    requires ParseFile(df).Some?
    requires Classify(ParseFile(df).value.model) == Unknown && HasSlice(ParseFile(df).value.experiment)
    ensures var e := ParseFile(df).value.experiment;
      MeshPair(MakeGrid(e).xHatGrid, MakeGrid(e).yHatGrid) &&
      InterpAsWritten(gd, sqrt, e, LoadedArray(Unknown, table), MakeGrid(e).xHatGrid, MakeGrid(e).yHatGrid)
        == Failure(TooManyIndices)
  {
    var e := ParseFile(df).value.experiment;
    GridMeshPair(e);
    MakeGridShape(e);
    InterpAsWrittenOutcome(gd, sqrt, e, EmptyVector, MakeGrid(e).xHatGrid, MakeGrid(e).yHatGrid);
  }

  /**
   * The file 'zzz1a005.txt' is such a record: model 'zzz1' is Unknown, the experiment is a.
   * The name is given in parts, as in FileNames.LowerCaseRaw.
   */
  lemma UnknownExampleFile(model: string, scenario: string, ext: string)
    requires model == "zzz1" && scenario == "005" && ext == ".txt"
    ensures ParseFile(model + ['a'] + scenario + ext) == Some(RecordId("zzz1", 'a', "005"))
    ensures Classify(ParseFile(model + ['a'] + scenario + ext).value.model) == Unknown
  {
    LowerCaseExample(model, scenario, ext);
    Zzz1IsUnknown();
  }

  /** The query point of grid cell `(i, j)`. */
  function QueryPoint(g: Grid, i: nat, j: nat): Point
    requires i < |g.xHatGrid| && j < |g.xHatGrid[i]| && i < |g.yHatGrid| && j < |g.yHatGrid[i]|
  {
    Point(g.xHatGrid[i][j], g.yHatGrid[i][j])
  }

  /** Cell `(i, j)` of a sliced grid is the point `(j / 100, i / 100)`: rows follow y, columns x. */
  lemma QueryPointAt(e: char, i: nat, j: nat)
    requires HasSlice(e) && i < GRID_SIDE && j < GRID_SIDE
    ensures var g := MakeGrid(e);
      i < |g.xHatGrid| && j < |g.xHatGrid[i]| && i < |g.yHatGrid| && j < |g.yHatGrid[i]| &&
      QueryPoint(g, i, j) == Point((j as real) / 100.0, (i as real) / 100.0)
  {
    MakeGridShape(e);
  }

  /**
   * The fields of a known model's record, cell by cell: each interpolates its column of the
   * table at the cell's point `(j / 100, i / 100)`, over the table's positions (normalised
   * for f), and the norm is taken of the velocity components there.
   */
  lemma DatumCell(df: string, table: seq<seq<real>>, gd: Interpolator, sqrt: real -> real, i: nat, j: nat)
    requires Admissible(df, table) && i < GRID_SIDE && j < GRID_SIDE
    requires var r := DatumSpec(df, table, gd, sqrt); r.order != Unknown && HasSlice(r.e)
    ensures Sliceable(DatumSpec(df, table, gd, sqrt))
    ensures var r := DatumSpec(df, table, gd, sqrt);
      var q := Point((j as real) / 100.0, (i as real) / 100.0);
      && MinWidth(table, ColumnsRead(r.e))
      && (r.e == 'a' ==>
            r.fields.vx[i][j] == gd(Positions(table), ColumnOf(table, 2), q) &&
            r.fields.vy[i][j] == gd(Positions(table), ColumnOf(table, 3), q) &&
            r.fields.vnorm[i][j] == Norm2(sqrt, r.fields.vx[i][j], r.fields.vy[i][j]))
      && (r.e == 'c' ==>
            r.fields.vx[i][j] == gd(Positions(table), ColumnOf(table, 2), q) &&
            r.fields.vy[i][j] == gd(Positions(table), ColumnOf(table, 3), q) &&
            r.fields.vz[i][j] == gd(Positions(table), ColumnOf(table, 4), q) &&
            r.fields.vnorm[i][j] == Norm3(sqrt, r.fields.vx[i][j], r.fields.vy[i][j], r.fields.vz[i][j]))
      && (r.e == 'f' ==>
            |table| > 0 &&
            r.fields.surf[i][j] == gd(NormaliseF(Positions(table)), ColumnOf(table, 2), q) &&
            r.fields.vx[i][j] == gd(NormaliseF(Positions(table)), ColumnOf(table, 3), q) &&
            r.fields.vy[i][j] == gd(NormaliseF(Positions(table)), ColumnOf(table, 4), q) &&
            r.fields.vz[i][j] == gd(NormaliseF(Positions(table)), ColumnOf(table, 5), q) &&
            r.fields.vnorm[i][j] == Norm3(sqrt, r.fields.vx[i][j], r.fields.vy[i][j], r.fields.vz[i][j]))
  {
    var r := DatumSpec(df, table, gd, sqrt);
    var X, Y := r.grid.xHatGrid, r.grid.yHatGrid;
    DatumSpecFacts(df, table, gd, sqrt);
    GridMeshPair(r.e);
    QueryPointAt(r.e, i, j);
    InterpAgreesWithAsWritten(gd, sqrt, r.order, r.e, r.arr, X, Y);
    if r.e == 'a' {
      FieldsAAt(gd, sqrt, table, X, Y, i, j);
    } else if r.e == 'c' {
      FieldsCAt(gd, sqrt, table, X, Y, i, j);
    } else {
      FieldsFAt(gd, sqrt, table, X, Y, i, j);
    }
  }

  /** A record of the later script: the attributes `ismip_datum.__init__` sets. */
  class IsmipDatum {
    const df: string
    const m: string
    const e: char
    const l: string
    const order: Order
    const arr: NdArray
    var pointsPerQuarter: Option<nat>
    var xHat: seq<real>
    var yHat: seq<real>
    var xHatGrid: seq<seq<real>>
    var yHatGrid: seq<seq<real>>
    var fields: Fields

    /** The record's attributes as a value. */
    function View(): Record
      reads this
    {
      Record(df, m, e, l, order, arr, Grid(pointsPerQuarter, xHat, yHat, xHatGrid, yHatGrid), fields)
    }

    /** Parse, classify, load, build the grid, interpolate. */
    constructor (dataFile: string, table: seq<seq<real>>, gd: Interpolator, sqrt: real -> real)
      requires Admissible(dataFile, table)
      ensures View() == DatumSpec(dataFile, table, gd, sqrt)
    {
      var id := ParseFile(dataFile).value;
      var o := Classify(id.model);
      df, m, e, l, order := dataFile, id.model, id.experiment, id.scenario, o;
      if o != Unknown {
        arr := Matrix(table);
      } else {
        arr := EmptyVector;
      }
      pointsPerQuarter := None;
      new;
      MakeGrid(id.experiment);
      InterpData(id.experiment, gd, sqrt);
      BuiltIsDatumSpec(dataFile, table, gd, sqrt, View());
    }

    /** `make_grid(exp)`: the axes and meshes of the experiment's query grid. */
    method MakeGrid(exp: char)
      modifies this`pointsPerQuarter, this`xHat, this`yHat, this`xHatGrid, this`yHatGrid
      ensures HasSlice(exp) ==> pointsPerQuarter == Some(POINTS_PER_QUARTER)
      ensures !HasSlice(exp) ==> pointsPerQuarter == old(pointsPerQuarter)
      ensures xHat == QueryGrid.MakeGrid(exp).xHat && yHat == QueryGrid.MakeGrid(exp).yHat
      ensures xHatGrid == QueryGrid.MakeGrid(exp).xHatGrid && yHatGrid == QueryGrid.MakeGrid(exp).yHatGrid
      ensures MeshPair(xHatGrid, yHatGrid)
    {
      GridMeshPair(exp);
      if HasSlice(exp) {
        pointsPerQuarter := Some(POINTS_PER_QUARTER);
        xHat := Linspace(0.0, 1.0, POINTS_PER_QUARTER * 4 + 1);
        yHat := Linspace(0.0, 1.0, POINTS_PER_QUARTER * 4 + 1);
        var mesh := MeshgridXY(xHat, yHat);
        xHatGrid, yHatGrid := mesh.0, mesh.1;
      } else {
        xHat, yHat := [], [];
        xHatGrid, yHatGrid := [], [];
      }
    }

    /**
     * `interp_data(exp)`, with records of an unknown model skipped (the code as written
     * raises on them).
     */
    method InterpData(exp: char, gd: Interpolator, sqrt: real -> real)
      requires MeshPair(xHatGrid, yHatGrid)
      requires order != Unknown && Size(xHatGrid) > 0 && HasSlice(exp) ==> Conforms(exp, arr)
      modifies this`fields
      ensures fields == Interp(gd, sqrt, order, exp, arr, xHatGrid, yHatGrid)
    {
      fields := Interp(gd, sqrt, order, exp, arr, xHatGrid, yHatGrid);
    }
  }

  /** The snapshots of a list of records. */
  function Views(all: seq<IsmipDatum>): (r: seq<Record>)
    reads all
    ensures |r| == |all| && forall i :: 0 <= i < |all| ==> r[i] == all[i].View()
  {
    if all == [] then [] else Views(all[..|all| - 1]) + [all[|all| - 1].View()]
  }

  /** Every file name parses and every known model's table has the columns it needs. */
  predicate AllAdmissible(files: seq<string>, tables: seq<seq<seq<real>>>)
  {
    |files| == |tables| && forall i {:trigger Admissible(files[i], tables[i])} :: 0 <= i < |files| ==> Admissible(files[i], tables[i])
  }

  lemma AllAdmissiblePrefix(files: seq<string>, tables: seq<seq<seq<real>>>, n: nat)
    requires AllAdmissible(files, tables) && n <= |files|
    ensures AllAdmissible(files[..n], tables[..n])
  {
    forall i | 0 <= i < n
      ensures Admissible(files[..n][i], tables[..n][i])
    {
      assert files[..n][i] == files[i] && tables[..n][i] == tables[i];
    }
  }

  /** The records the constructor builds from the files and their tables. */
  function DatumSpecs(files: seq<string>, tables: seq<seq<seq<real>>>, gd: Interpolator, sqrt: real -> real): (r: seq<Record>)
    requires AllAdmissible(files, tables)
    ensures |r| == |files|
  {
    if files == [] then []
    else
      var n := |files| - 1;
      AllAdmissiblePrefix(files, tables, n);
      DatumSpecs(files[..n], tables[..n], gd, sqrt) + [DatumSpec(files[n], tables[n], gd, sqrt)]
  }

  lemma DatumSpecsSnoc(files: seq<string>, tables: seq<seq<seq<real>>>, gd: Interpolator, sqrt: real -> real, n: nat)
    requires AllAdmissible(files, tables) && n < |files|
    ensures AllAdmissible(files[..n], tables[..n]) && AllAdmissible(files[..n + 1], tables[..n + 1])
    ensures DatumSpecs(files[..n + 1], tables[..n + 1], gd, sqrt) ==
            DatumSpecs(files[..n], tables[..n], gd, sqrt) + [DatumSpec(files[n], tables[n], gd, sqrt)]
  {
    AllAdmissiblePrefix(files, tables, n);
    AllAdmissiblePrefix(files, tables, n + 1);
    assert files[..n + 1][..n] == files[..n] && tables[..n + 1][..n] == tables[..n];
  }

  /** Record i of the list is the record of file i and its table: the list keeps the files' order. */
  lemma DatumSpecsAt(files: seq<string>, tables: seq<seq<seq<real>>>, gd: Interpolator, sqrt: real -> real, i: nat)
    requires AllAdmissible(files, tables) && i < |files|
    ensures Admissible(files[i], tables[i])
    ensures DatumSpecs(files, tables, gd, sqrt)[i] == DatumSpec(files[i], tables[i], gd, sqrt)
  {
    var chain := seq(|files| + 1, k requires 0 <= k <= |files| =>
      AllAdmissiblePrefix(files, tables, k); DatumSpecs(files[..k], tables[..k], gd, sqrt));
    var elems := seq(|files|, k requires 0 <= k < |files| => DatumSpec(files[k], tables[k], gd, sqrt));
    forall k | 0 <= k < |files|
      ensures chain[k + 1] == chain[k] + [elems[k]]
    {
      DatumSpecsSnoc(files, tables, gd, sqrt, k);
    }
    SnocChainAt(chain, elems, i);
    assert files[..|files|] == files && tables[..|files|] == tables;
  }

  /** The `all_data` loop: one record per data file, in order. */
  method LoadAll(files: seq<string>, tables: seq<seq<seq<real>>>, gd: Interpolator, sqrt: real -> real)
    returns (all: seq<IsmipDatum>)
    requires AllAdmissible(files, tables)
    ensures |all| == |files|
    ensures Views(all) == DatumSpecs(files, tables, gd, sqrt)
    ensures forall i :: 0 <= i < |files| ==> Admissible(files[i], tables[i]) && all[i].View() == DatumSpec(files[i], tables[i], gd, sqrt)
  {
    all := [];
    var i := 0;
    AllAdmissiblePrefix(files, tables, 0);
    while i < |files|
      invariant 0 <= i <= |files| && |all| == i
      invariant AllAdmissible(files[..i], tables[..i])
      invariant Views(all) == DatumSpecs(files[..i], tables[..i], gd, sqrt)
    {
      ghost var before := Views(all);
      var d := new IsmipDatum(files[i], tables[i], gd, sqrt);
      assert Views(all) == before;
      DatumSpecsSnoc(files, tables, gd, sqrt, i);
      ghost var prev := all;
      all := all + [d];
      assert all[..i] == prev;
      i := i + 1;
    }
    assert files[..i] == files && tables[..i] == tables;
    forall k | 0 <= k < |files|
      ensures Admissible(files[k], tables[k]) && all[k].View() == DatumSpec(files[k], tables[k], gd, sqrt)
    {
      DatumSpecsAt(files, tables, gd, sqrt, k);
    }
  }
}
