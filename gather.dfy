/**
 * The earlier draft of the pipeline (gather_ismip_data.py): it parses and classifies every
 * data file by the same tables as the later script, but without lower-casing the name,
 * loads the table of every known model, and builds the CISM grids with an append loop.
 * It interpolates nothing. numpy.loadtxt is a parameter (the file's table).
 */
module Gather {
  import opened Wrappers
  import opened Arrays
  import opened Classification
  import opened FileNames
  import opened Interpolation
  import opened Recreate
  import opened CismGrids

  /** A snapshot of a record's attributes. */
  datatype GatherRecord = GatherRecord(df: string, m: string, e: char, l: string, order: Order, arr: NdArray)

  /**
   * The record the constructor builds: the raw parse of the name, the order of its model,
   * and the table for a known model or the empty list otherwise.
   */
  function GatherSpec(df: string, table: seq<seq<real>>): GatherRecord
    requires ParseFileRaw(df).Some?
  {
    var id := ParseFileRaw(df).value;
    var order := Classify(id.model);
    GatherRecord(df, id.model, id.experiment, id.scenario, order, LoadedArray(order, table))
  }

  /**
   * The draft's record, attribute by attribute: `(M, E, L)` cuts the base name without
   * extension, case kept; the order is the classification of `M`; the table is kept
   * exactly for known models.
   */
  lemma GatherSpecFacts(df: string, table: seq<seq<real>>)
    requires ParseFileRaw(df).Some?
    ensures var r := GatherSpec(df, table);
      && r.df == df && |r.m| == 4 && r.m + [r.e] + r.l == RawCodeName(df)
      && r.order == Classify(r.m)
      && (r.order != Unknown <==> r.arr == Matrix(table))
      && (r.order == Unknown <==> r.arr == EmptyVector)
  {
  }

  /** A record of the earlier draft: the attributes its `ismip_datum.__init__` sets. */
  class GatherDatum {
    const df: string
    const m: string
    const e: char
    const l: string
    const order: Order
    const arr: NdArray

    function View(): GatherRecord
      reads this
    {
      GatherRecord(df, m, e, l, order, arr)
    }

    /** Parse, classify through the if/elif chain, load the table of a known model. */
    constructor (dataFile: string, table: seq<seq<real>>)
      requires ParseFileRaw(dataFile).Some?
      ensures View() == GatherSpec(dataFile, table)
    {
      var id := ParseFileRaw(dataFile).value;
      df, m, e, l := dataFile, id.model, id.experiment, id.scenario;
      var o: Order;
      if id.model in FULL_STOKES {
        o := FullStokes;
      } else if id.model in HIGHER_ORDER {
        o := HigherOrder;
      } else if id.model in SIA {
        o := Sia;
      } else {
        o := Unknown;
      }
      order := o;
      if o != Unknown {
        arr := Matrix(table);
      } else {
        arr := EmptyVector;
      }
    }
  }

  /** Every file name has at least five characters, and there is one table per file. */
  predicate AllParse(files: seq<string>, tables: seq<seq<seq<real>>>)
  {
    |files| == |tables| && forall i {:trigger files[i]} :: 0 <= i < |files| ==> ParseFileRaw(files[i]).Some?
  }

  lemma AllParsePrefix(files: seq<string>, tables: seq<seq<seq<real>>>, n: nat)
    requires AllParse(files, tables) && n <= |files|
    ensures AllParse(files[..n], tables[..n])
  {
    forall i | 0 <= i < n
      ensures ParseFileRaw(files[..n][i]).Some?
    {
      assert files[..n][i] == files[i];
    }
  }

  /** The records the draft's constructor builds from the files and their tables. */
  function GatherSpecs(files: seq<string>, tables: seq<seq<seq<real>>>): (r: seq<GatherRecord>)
    requires AllParse(files, tables)
    ensures |r| == |files|
  {
    if files == [] then []
    else
      var n := |files| - 1;
      AllParsePrefix(files, tables, n);
      GatherSpecs(files[..n], tables[..n]) + [GatherSpec(files[n], tables[n])]
  }

  /** The snapshots of a list of the draft's records, as Recreate.Views is for the later class. */
  function GatherViews(all: seq<GatherDatum>): (r: seq<GatherRecord>)
    reads all
    ensures |r| == |all| && forall i :: 0 <= i < |all| ==> r[i] == all[i].View()
  {
    if all == [] then [] else GatherViews(all[..|all| - 1]) + [all[|all| - 1].View()]
  }

  lemma GatherSpecsSnoc(files: seq<string>, tables: seq<seq<seq<real>>>, n: nat)
    requires AllParse(files, tables) && n < |files|
    ensures AllParse(files[..n], tables[..n]) && AllParse(files[..n + 1], tables[..n + 1])
    ensures GatherSpecs(files[..n + 1], tables[..n + 1]) == GatherSpecs(files[..n], tables[..n]) + [GatherSpec(files[n], tables[n])]
  {
    AllParsePrefix(files, tables, n);
    AllParsePrefix(files, tables, n + 1);
    assert files[..n + 1][..n] == files[..n] && tables[..n + 1][..n] == tables[..n];
  }

  /** Record i of the list is the draft's record of file i and its table. */
  lemma GatherSpecsAt(files: seq<string>, tables: seq<seq<seq<real>>>, i: nat)
    requires AllParse(files, tables) && i < |files|
    ensures ParseFileRaw(files[i]).Some?
    ensures GatherSpecs(files, tables)[i] == GatherSpec(files[i], tables[i])
  {
    var chain := seq(|files| + 1, k requires 0 <= k <= |files| =>
      AllParsePrefix(files, tables, k); GatherSpecs(files[..k], tables[..k]));
    var elems := seq(|files|, k requires 0 <= k < |files| => GatherSpec(files[k], tables[k]));
    forall k | 0 <= k < |files|
      ensures chain[k + 1] == chain[k] + [elems[k]]
    {
      GatherSpecsSnoc(files, tables, k);
    }
    SnocChainAt(chain, elems, i);
    assert files[..|files|] == files && tables[..|files|] == tables;
  }

  /** The `all_data` loop of the draft: one record per data file, in order. */
  method LoadAll(files: seq<string>, tables: seq<seq<seq<real>>>) returns (all: seq<GatherDatum>)
    requires AllParse(files, tables)
    ensures |all| == |files|
    ensures GatherViews(all) == GatherSpecs(files, tables)
    ensures forall i :: 0 <= i < |files| ==> ParseFileRaw(files[i]).Some? && all[i].View() == GatherSpec(files[i], tables[i])
  {
    all := [];
    var i := 0;
    AllParsePrefix(files, tables, 0);
    while i < |files|
      invariant 0 <= i <= |files| && |all| == i
      invariant AllParse(files[..i], tables[..i])
      invariant GatherViews(all) == GatherSpecs(files[..i], tables[..i])
    {
      ghost var before := GatherViews(all);
      var d := new GatherDatum(files[i], tables[i]);
      assert GatherViews(all) == before;
      GatherSpecsSnoc(files, tables, i);
      ghost var prev := all;
      all := all + [d];
      assert all[..i] == prev;
      i := i + 1;
    }
    assert files[..i] == files && tables[..i] == tables;
    GatherViewsAt(all, files, tables);
  }

  /** Objects whose snapshots are the draft's records hold them file by file. */
  lemma GatherViewsAt(all: seq<GatherDatum>, files: seq<string>, tables: seq<seq<seq<real>>>)
    requires AllParse(files, tables) && GatherViews(all) == GatherSpecs(files, tables)
    ensures forall i :: 0 <= i < |files| ==> ParseFileRaw(files[i]).Some? && all[i].View() == GatherSpec(files[i], tables[i])
  {
    forall k | 0 <= k < |files|
      ensures ParseFileRaw(files[k]).Some? && all[k].View() == GatherSpec(files[k], tables[k])
    {
      GatherSpecsAt(files, tables, k);
    }
  }

  /** No table holds a code starting with 'O': all codes are lower-case. */
  lemma NoCodeStartsWithO(model: string)
    requires |model| > 0 && model[0] == 'O'
    ensures Classify(model) == Unknown
  {
    assert model !in FULL_STOKES by {
      forall t | t in FULL_STOKES ensures model != t { assert t[0] != 'O'; }
    }
    assert model !in HIGHER_ORDER by {
      forall t | t in HIGHER_ORDER ensures model != t { assert t[0] != 'O'; }
    }
    assert model !in SIA by {
      assert model != SIA[0];
    }
  }

  /**
   * The upper-case file "OGA1A005.txt" of the full-Stokes model oga1: the draft keeps
   * the case and classifies it Unknown, so it loads no table; the later script
   * lower-cases the name and classifies it full Stokes. The name is given in parts, as in
   * FileNames.LowerCaseRaw.
   */
  lemma UpperCaseFileClassifiedApart(model: string, scenario: string, ext: string, table: seq<seq<real>>)
    requires model == "OGA1" && scenario == "005" && ext == ".txt"
    ensures ParseFileRaw(model + ['A'] + scenario + ext).Some?
    ensures GatherSpec(model + ['A'] + scenario + ext, table).order == Unknown
    ensures GatherSpec(model + ['A'] + scenario + ext, table).arr == EmptyVector
    ensures ParseFile(model + ['A'] + scenario + ext).Some?
    ensures Classify(ParseFile(model + ['A'] + scenario + ext).value.model) == FullStokes
  {
    UpperCaseRaw(model, scenario, ext);
    UpperCaseNamesDiffer(model, scenario, ext);
    NoCodeStartsWithO(model);
    assert "oga1" in FULL_STOKES;
  }

  /** The `grd` loop: one CISM grid per size, appended in order. */
  method BuildGrd(sizes: seq<nat>) returns (grd: seq<CismGrid>)
    requires forall k :: 0 <= k < |sizes| ==> sizes[k] > 0
    ensures grd == GridsOf(sizes)
  {
    grd := [];
    for i := 0 to |sizes|
      invariant grd == GridsOf(sizes[..i])
    {
      assert sizes[..i + 1][..i] == sizes[..i];
      grd := grd + [NewCismGrid(sizes[i])];
    }
    assert sizes[..|sizes|] == sizes;
  }

  /** The draft's `grids` table, built from its `grd` loop: the same as the later module's. */
  method BuildGrids() returns (grids: map<char, seq<CismGrid>>)
    ensures grids == Grids()
  {
    var grd := BuildGrd(SIZES['a']);
    grids := map['a' := grd, 'b' := grd, 'c' := grd, 'd' := grd, 'e' := [], 'f' := [NewCismGrid(SIZES['f'][0])]];
  }
}
