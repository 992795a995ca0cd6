/**
 * The comparison figures of the later script (Fig. 5, 8, 12 and 13 of Pattyn et al., 2008):
 * the records are filtered by order, by experiment and by scenario; each member of a group
 * contributes one line of its grid; and each group is reduced point by point to its
 * envelope. The figures work on snapshots of the records.
 */
module Figures {
  import opened Wrappers
  import opened Arrays
  import opened Classification
  import opened QueryGrid
  import opened Interpolation
  import opened Envelope
  import opened Recreate

  /** The four comparison figures. */
  datatype Figure = Fig5 | Fig8 | Fig12 | Fig13

  /** Fig. 5 shows experiment a, Fig. 8 experiment c, Fig. 12 and 13 experiment f. */
  function FigureExperiment(fig: Figure): char
  {
    match fig
    case Fig5 => 'a'
    case Fig8 => 'c'
    case _ => 'f'
  }

  /** The length scales of experiments a and c, in km. */
  const PLOT_LS_AC: seq<string> := ["005", "010", "020", "040", "080", "160"]

  /** The two basal-slip scenarios of experiment f. */
  const PLOT_LS_F: seq<string> := ["000", "001"]

  /** The scenarios of a figure's panels (`plot_ls`), one panel each. */
  function PlotScenarios(fig: Figure): seq<string>
  {
    if fig == Fig5 || fig == Fig8 then PLOT_LS_AC else PLOT_LS_F
  }

  /** Python's `a in b` on strings: `a` occurs in `b` as a contiguous part. */
  predicate IsSubstring(a: string, b: string)
  {
    exists i :: 0 <= i <= |b| - |a| && Window(b, i, |a|) == a
  }

  /** The `n` characters of `b` from position `i` on. */
  function Window(b: string, i: nat, n: nat): (w: string)
    requires i + n <= |b|
    ensures |w| == n && forall k :: 0 <= k < n ==> w[k] == b[i + k]
  {
    b[i..i + n]
  }

  /** A string whose first character `b` lacks is no part of `b`. */
  lemma NotSubstring(a: string, b: string)
    requires |a| > 0 && a[0] !in b
    ensures !IsSubstring(a, b)
  {
    forall i | 0 <= i <= |b| - |a|
      ensures Window(b, i, |a|) != a
    {
      assert Window(b, i, |a|)[0] == b[i];
    }
  }

  /** The tests of the list comprehensions, on one record. */
  datatype Test =
    | OrderEquals(name: string)   // `data.order == name`
    | OrderWithin(name: string)   // `data.order in name`
    | ExperimentIs(e: char)       // `data.E == e`
    | ScenarioIs(l: string)       // `data.L == l`

  predicate Holds(t: Test, r: Record)
  {
    match t
    case OrderEquals(name) => OrderName(r.order) == name
    case OrderWithin(name) => IsSubstring(OrderName(r.order), name)
    case ExperimentIs(e) => r.e == e
    case ScenarioIs(l) => r.l == l
  }

  /** `[data for data in rs if test]`: the records that pass, in their order. */
  function Filter(rs: seq<Record>, t: Test): (r: seq<Record>)
    ensures |r| <= |rs|
  {
    if rs == [] then [] else Filter(rs[..|rs| - 1], t) + (if Holds(t, rs[|rs| - 1]) then [rs[|rs| - 1]] else [])
  }

  /** A record is kept exactly when it is in `rs` and passes. */
  lemma {:induction false} FilterMembers(rs: seq<Record>, t: Test, x: Record)
    ensures x in Filter(rs, t) <==> x in rs && Holds(t, x)
  {
    if rs != [] {
      var n := |rs| - 1;
      assert rs == rs[..n] + [rs[n]];
      FilterMembers(rs[..n], t, x);
    }
  }

  /** A record that fails the test adds nothing to the filtered list. */
  lemma FilterIgnores(rs: seq<Record>, r: Record, t: Test)
    requires !Holds(t, r)
    ensures Filter(rs + [r], t) == Filter(rs, t)
  {
    assert (rs + [r])[..|rs|] == rs;
  }

  /** Every string is a part of itself. */
  lemma SelfSubstring(a: string)
    ensures IsSubstring(a, a)
  {
    assert Window(a, 0, |a|) == a;
  }

  /**
   * The `data.order in 'higher_order'` test selects exactly the higher-order records: none of
   * "full_stokes", "sia" and "unknown" occurs in "higher_order".
   */
  lemma HigherOrderTestIsExact(o: Order)
    ensures IsSubstring(OrderName(o), "higher_order") <==> o == HigherOrder
  {
    var h := "higher_order";
    if o == HigherOrder {
      SelfSubstring(h);
    } else {
      NotSubstring(OrderName(o), h);
    }
  }

  /** The two families whose envelopes a panel shows. */
  datatype Family = FullStokesModels | HigherOrderModels

  /** `fs_data` keeps `order == 'full_stokes'`, `ho_data` keeps `order in 'higher_order'`. */
  function FamilyTest(fam: Family): Test
  {
    match fam
    case FullStokesModels => OrderEquals("full_stokes")
    case HigherOrderModels => OrderWithin("higher_order")
  }

  function FamilyOrder(fam: Family): Order
  {
    match fam
    case FullStokesModels => FullStokes
    case HigherOrderModels => HigherOrder
  }

  /** The records of one family, experiment and scenario, filtered in the script's order. */
  function Group(all: seq<Record>, fam: Family, fig: Figure, l: string): seq<Record>
  {
    Filter(Filter(Filter(all, FamilyTest(fam)), ExperimentIs(FigureExperiment(fig))), ScenarioIs(l))
  }

  /**
   * A group holds exactly the records of the family's order, of the figure's experiment and
   * of the scenario; in particular SIA and unknown records are never part of one.
   */
  lemma GroupMembers(all: seq<Record>, fam: Family, fig: Figure, l: string, r: Record)
    ensures r in Group(all, fam, fig, l) <==>
      r in all && r.order == FamilyOrder(fam) && r.e == FigureExperiment(fig) && r.l == l
    ensures r in Group(all, fam, fig, l) ==> r.order != Sia && r.order != Unknown
  {
    HigherOrderTestIsExact(r.order);
    var t, e := FamilyTest(fam), ExperimentIs(FigureExperiment(fig));
    FilterMembers(all, t, r);
    FilterMembers(Filter(all, t), e, r);
    FilterMembers(Filter(Filter(all, t), e), ScenarioIs(l), r);
  }

  /** Every record carries what its constructor promises. */
  predicate AllProcessed(all: seq<Record>)
  {
    forall r :: r in all ==> Processed(r)
  }

  /** The records built from data files all carry what the constructor promises. */
  lemma {:induction false} DatumSpecsProcessed(files: seq<string>, tables: seq<seq<seq<real>>>, gd: Interpolator, sqrt: real -> real)
    requires AllAdmissible(files, tables)
    ensures AllProcessed(DatumSpecs(files, tables, gd, sqrt))
  {
    if files != [] {
      var n := |files| - 1;
      AllAdmissiblePrefix(files, tables, n);
      DatumSpecsProcessed(files[..n], tables[..n], gd, sqrt);
      DatumSpecFacts(files[n], tables[n], gd, sqrt);
    }
  }

  /** The members of a group are records of a known model in a sliced experiment. */
  lemma GroupSliceable(all: seq<Record>, fam: Family, fig: Figure, l: string)
    requires AllProcessed(all)
    ensures forall r :: r in Group(all, fam, fig, l) ==> Sliceable(r) && r.e == FigureExperiment(fig)
  {
    forall r | r in Group(all, fam, fig, l)
      ensures Sliceable(r) && r.e == FigureExperiment(fig)
    {
      GroupMembers(all, fam, fig, l, r);
    }
  }

  /**
   * The line a figure takes from one record. For a and c it is row `points_p_quarter` of
   * the velocity norm, the line y_hat = 1/4 (the code as written takes the column; see
   * QuarterColumnAsWritten). For f it is row `2 * points_p_quarter`, the line y_hat = 1/2,
   * of the surface (Fig. 12) or of the velocity norm (Fig. 13).
   */
  function Slice(fig: Figure, r: Record): (line: seq<Option<real>>)
    requires Sliceable(r) && r.e == FigureExperiment(fig)
    ensures |line| == GRID_SIDE
  {
    var k := r.grid.ppq.value;
    match fig
    case Fig5 => r.fields.vnorm[k]
    case Fig8 => r.fields.vnorm[k]
    case Fig12 => r.fields.surf[2 * k]
    case Fig13 => r.fields.vnorm[2 * k]
  }

  /** `vnorm_surf_i[:, points_p_quarter]`, the slice Fig. 5 and 8 take as written. */
  function QuarterColumnAsWritten(r: Record): (line: seq<Option<real>>)
    requires Sliceable(r) && (r.e == 'a' || r.e == 'c')
    ensures |line| == GRID_SIDE
  {
    ColumnOf(r.fields.vnorm, r.grid.ppq.value)
  }

  /**
   * Entry `i` of the slice the code takes for a and c is cell `(i, 25)`, the point
   * `(1/4, i/100)`: it runs along y at x_hat = 1/4, not along x at y = L/4 as the figures
   * are labelled and plotted.
   */
  lemma QuarterColumnRunsAlongY(r: Record, i: nat)
    requires Sliceable(r) && (r.e == 'a' || r.e == 'c') && r.grid == MakeGrid(r.e) && i < GRID_SIDE
    ensures IsRect(r.grid.xHatGrid, GRID_SIDE, GRID_SIDE) && IsRect(r.grid.yHatGrid, GRID_SIDE, GRID_SIDE)
    ensures QuarterColumnAsWritten(r)[i] == r.fields.vnorm[i][POINTS_PER_QUARTER]
    ensures r.grid.xHatGrid[i][POINTS_PER_QUARTER] == 0.25
    ensures r.grid.yHatGrid[i][POINTS_PER_QUARTER] == (i as real) / 100.0
  {
    MakeGridShape(r.e);
  }

  /**
   * Entry `j` of a figure's line is the cell on the figure's line at x_hat = j/100: the
   * point `(j/100, 1/4)` for a and c, the point `(j/100, 1/2)` for f.
   */
  lemma SliceRunsAlongX(fig: Figure, r: Record, j: nat)
    requires Sliceable(r) && r.e == FigureExperiment(fig) && r.grid == MakeGrid(r.e) && j < GRID_SIDE
    ensures IsRect(r.grid.xHatGrid, GRID_SIDE, GRID_SIDE) && IsRect(r.grid.yHatGrid, GRID_SIDE, GRID_SIDE)
    ensures var row := if fig == Fig5 || fig == Fig8 then POINTS_PER_QUARTER else 2 * POINTS_PER_QUARTER;
      && r.grid.xHatGrid[row][j] == (j as real) / 100.0
      && r.grid.yHatGrid[row][j] == (if fig == Fig5 || fig == Fig8 then 0.25 else 0.5)
      && Slice(fig, r)[j] == (if fig == Fig12 then r.fields.surf[row][j] else r.fields.vnorm[row][j])
  {
    MakeGridShape(r.e);
  }

  /** The lines of a group's members, one per member in order. */
  function GroupLines(fig: Figure, group: seq<Record>): (lines: seq<seq<Option<real>>>)
    requires forall r :: r in group ==> Sliceable(r) && r.e == FigureExperiment(fig)
    ensures |lines| == |group| && Lines(lines, GRID_SIDE)
    ensures forall i :: 0 <= i < |group| ==> lines[i] == Slice(fig, group[i])
  {
    seq(|group|, i requires 0 <= i < |group| => Slice(fig, group[i]))
  }

  /** `numpy.mean`, `amin` and `amax` along axis 0 of one family's lines; None for no lines. */
  function FamilyEnvelope(all: seq<Record>, fam: Family, fig: Figure, l: string): Option<seq<PointStats>>
    requires AllProcessed(all)
  {
    GroupSliceable(all, fam, fig, l);
    Envelope.Envelope(GroupLines(fig, Group(all, fam, fig, l)), GRID_SIDE)
  }

  /** One panel: the full-Stokes and the higher-order envelope of one scenario. */
  datatype Panel = Panel(scenario: string, fs: Option<seq<PointStats>>, ho: Option<seq<PointStats>>)

  function PanelOf(all: seq<Record>, fig: Figure, l: string): Panel
    requires AllProcessed(all)
  {
    Panel(l, FamilyEnvelope(all, FullStokesModels, fig, l), FamilyEnvelope(all, HigherOrderModels, fig, l))
  }

  /**
   * What a family's envelope states at point `k`: it exists exactly when the group has a
   * member; the point is defined exactly when every member's line is defined there (NaN
   * propagates); and then minimum and maximum bound every member's value and the mean.
   */
  lemma FamilyEnvelopeAt(all: seq<Record>, fam: Family, fig: Figure, l: string, k: nat)
    requires AllProcessed(all) && k < GRID_SIDE
    ensures forall r :: r in Group(all, fam, fig, l) ==> Sliceable(r) && r.e == FigureExperiment(fig)
    ensures var env := FamilyEnvelope(all, fam, fig, l);
      var group := Group(all, fam, fig, l);
      && (env.Some? <==> |group| > 0)
      && (env.Some? ==>
            var s := env.value[k];
            && |env.value| == GRID_SIDE
            && (s.mean.Some? <==> forall r :: r in group ==> Slice(fig, r)[k].Some?)
            && (s.amin.Some? <==> s.mean.Some?) && (s.amax.Some? <==> s.mean.Some?)
            && (s.mean.Some? ==>
                  && s.amin.value <= s.mean.value <= s.amax.value
                  && forall r :: r in group ==> s.amin.value <= Slice(fig, r)[k].value <= s.amax.value))
  {
    GroupSliceable(all, fam, fig, l);
    var group := Group(all, fam, fig, l);
    var lines := GroupLines(fig, group);
    EnvelopeSpec(lines, GRID_SIDE, k);
    assert forall r :: r in group ==> exists i :: 0 <= i < |group| && group[i] == r && lines[i] == Slice(fig, r);
  }

  /** A record of no family's order leaves every group as it was. */
  lemma GroupIgnores(all: seq<Record>, r: Record, fam: Family, fig: Figure, l: string)
    requires r.order == Sia || r.order == Unknown
    ensures Group(all + [r], fam, fig, l) == Group(all, fam, fig, l)
  {
    HigherOrderTestIsExact(r.order);
    FilterIgnores(all, r, FamilyTest(fam));
  }

  /** Adding a SIA or unknown record leaves every panel as it was. */
  lemma PanelIgnores(all: seq<Record>, r: Record, fig: Figure, l: string)
    requires AllProcessed(all) && Processed(r) && (r.order == Sia || r.order == Unknown)
    ensures AllProcessed(all + [r])
    ensures PanelOf(all + [r], fig, l) == PanelOf(all, fig, l)
  {
    GroupIgnores(all, r, FullStokesModels, fig, l);
    GroupIgnores(all, r, HigherOrderModels, fig, l);
  }

  /** The panels of the scenarios `ls`, in order (the loop over `enumerate(plot_ls)`). */
  method ScenarioPanels(all: seq<Record>, fig: Figure, ls: seq<string>) returns (panels: seq<Panel>)
    requires AllProcessed(all)
    ensures |panels| == |ls|
    ensures forall j :: 0 <= j < |panels| ==> panels[j] == PanelOf(all, fig, ls[j])
  {
    panels := [];
    for j := 0 to |ls|
      invariant |panels| == j
      invariant forall q :: 0 <= q < j ==> panels[q] == PanelOf(all, fig, ls[q])
    {
      var fsEnvelope := FamilyEnvelope(all, FullStokesModels, fig, ls[j]);
      var hoEnvelope := FamilyEnvelope(all, HigherOrderModels, fig, ls[j]);
      panels := panels + [Panel(ls[j], fsEnvelope, hoEnvelope)];
    }
  }

  /** The panels of one figure, one per scenario of its `plot_ls`. */
  method FigurePanels(all: seq<Record>, fig: Figure) returns (panels: seq<Panel>)
    requires AllProcessed(all)
    ensures |panels| == |PlotScenarios(fig)|
    ensures forall j :: 0 <= j < |panels| ==> panels[j] == PanelOf(all, fig, PlotScenarios(fig)[j])
  {
    panels := ScenarioPanels(all, fig, PlotScenarios(fig));
  }

  /** `panels` are the panels of figure `fig` over the records `all`, one per scenario. */
  predicate PanelsOfFigure(panels: seq<Panel>, all: seq<Record>, fig: Figure)
  {
    AllProcessed(all) && |panels| == |PlotScenarios(fig)| &&
    forall j :: 0 <= j < |panels| ==> panels[j] == PanelOf(all, fig, PlotScenarios(fig)[j])
  }

  /**
   * The script: one record per data file, in order, and then the panels of Fig. 5, 8, 12
   * and 13 over those records.
   */
  method RecreateFigures(files: seq<string>, tables: seq<seq<seq<real>>>, gd: Interpolator, sqrt: real -> real)
    returns (fig5: seq<Panel>, fig8: seq<Panel>, fig12: seq<Panel>, fig13: seq<Panel>)
    requires AllAdmissible(files, tables)
    ensures PanelsOfFigure(fig5, DatumSpecs(files, tables, gd, sqrt), Fig5)
    ensures PanelsOfFigure(fig8, DatumSpecs(files, tables, gd, sqrt), Fig8)
    ensures PanelsOfFigure(fig12, DatumSpecs(files, tables, gd, sqrt), Fig12)
    ensures PanelsOfFigure(fig13, DatumSpecs(files, tables, gd, sqrt), Fig13)
  {
    var allData := LoadAll(files, tables, gd, sqrt);
    var all := Views(allData);
    DatumSpecsProcessed(files, tables, gd, sqrt);
    fig5 := FigurePanels(all, Fig5);
    fig8 := FigurePanels(all, Fig8);
    fig12 := FigurePanels(all, Fig12);
    fig13 := FigurePanels(all, Fig13);
  }
}
