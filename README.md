# ISMIP-HOMily in Dafny

ISMIP-HOMily post-processes the ISMIP-HOM ice-sheet benchmark. Each model's output file goes through the same steps:

- The file name `NNNMELLL.txt` gives the model code, the experiment letter and the scenario code.
- The model code is classified as full Stokes, higher order, SIA or unknown.
- The table of every known model is loaded.
- For experiments a, c and f, the later script `recreate.py` resamples the table onto a regular 101 × 101 query grid over the unit square. Then, for every scenario of Pattyn et al. (2008) figures 5, 8, 12 and 13, it reduces one grid line per model to the elementwise mean, minimum and maximum of the full-Stokes models and of the higher-order models.
- `cism_grids.py` builds the cell-centred and staggered CISM grids the results are compared with.
- `gather_ismip_data.py` is an earlier draft. It parses, classifies and loads in the same way (except that it keeps the case of the name) and builds the same grids.

## Modelling choices

- Floating point numbers are `real`, and an undefined value (NaN, a point outside the interpolator's convex hull) is `None`.
- `scipy.interpolate.griddata` is a function parameter `Interpolator` from (sample points, sample values, query point) to `Option<real>`. `numpy.sqrt` is a parameter `sqrt`, and the norm facts are stated on squares under `IsSquareRoot(sqrt)`.
- `numpy.loadtxt` is the table each file holds, passed as a parameter.

The modules are:

- `Arrays`: `linspace`, the `xy` and `ij` meshgrids, `ravel`, `reshape` and column slices.
- `Classification`: the order tables and the if/elif classifier.
- `FileNames`: `splitext`, `basename`, ASCII `lower` and the `(name[0:4], name[4], name[5:])` cut.
- `QueryGrid`: `make_grid`.
- `Interpolation`: the column wiring of `interp_data`, the experiment F coordinate rule, the norms and the reshape.
- `Recreate`: the class `IsmipDatum`, built step by step like `ismip_datum.__init__`, its `MakeGrid` and `InterpData` methods, and the `all_data` loop.
- `Envelope`: `numpy.mean`, `amin` and `amax` along axis 0, with NaN propagation.
- `Figures`: the list comprehensions that filter the records, the grid line each figure takes, and the per-scenario figure loops.
- `CismGrids`: `cism_grids.py`.
- `Gather`: `gather_ismip_data.py`.

The figure stage works on value snapshots (`Record`, taken by `IsmipDatum.View`) of the objects `LoadAll` builds.

### Behaviour worth knowing

- **The code `aaa1`.** It is in none of the three tables, so it is classified unknown (`Classification.Aaa1IsUnknown`).
- **Undefined values.** `numpy.mean`, `amin` and `amax` propagate NaN: one undefined member makes that point undefined for its whole family (`Envelope.EnvelopeSpec`).
- **Unknown models.** A record of an unknown model is kept, with the empty array. In experiments a, c and f the constructor still interpolates it, and that raises (Finding 1).
- **File names.** Any name of five or more characters is accepted. Only a shorter one fails, with an `IndexError` on `code_name[4]`. `FileNames.Split` returns `None` exactly then.
- **Empty groups.** `numpy.amin` and `numpy.amax` raise on an empty group. `Envelope.Envelope` returns `None` for one.
- **The experiment F line.** The comments at recreate.py:146 and 243 place it at x = 1/2. Row `2*points_p_quarter` of an `xy` meshgrid is the line ŷ = 1/2, with x̂ running from 0 to 1, which is the central flowline in the flow direction. The model takes the row, as the code does (`Figures.SliceRunsAlongX`).

## Model

| member | source | states |
|---|---|---|
| Classification.TablesDisjoint | recreate.py:62-72 | no model code is in two of the full-Stokes, higher-order and SIA tables |
| Classification.ClassifyIsPartition | recreate.py:104-111 | the classifier returns each order exactly for the codes of its table, and unknown exactly for codes in none |
| Classification.Aas1IsUnknown | recreate.py:62-64 | `aas1`, left out of the tables on purpose, is unknown |
| Classification.Aaa1IsUnknown | recreate.py:104-111 | `aaa1` is unknown |
| Classification.Zzz1IsUnknown | recreate.py:104-111 | `zzz1` is unknown |
| Classification.Ahu1IsHigherOrder | recreate.py:66-70 | `ahu1`, from the LMLA list, is higher order |
| FileNames.RFind | recreate.py:134 | the last index of a character, or -1 (every later position differs from it) |
| FileNames.LowerIsLowerCase | recreate.py:134 | a lower-cased name holds no ASCII capital letter, so lower-casing it again changes nothing |
| FileNames.LowerOfLowerCase | recreate.py:134 | a name with no capital letter is its own lower-case form |
| FileNames.Split | recreate.py:135 | the cut exists exactly when the name has at least five characters; the model part has four characters, and model, experiment and scenario concatenate back to the name |
| FileNames.ParseFileLowersRaw | recreate.py:134-135 | the later parse succeeds exactly when the draft's does, and it is the draft's parse lower-cased |
| FileNames.SeparatorOfDir | recreate.py:134 | in `dir/name` the last `/` is the end of the directory |
| FileNames.BasenameOfDir | recreate.py:134 | the base name of `dir/name` is `name` |
| FileNames.StripNoExtension | recreate.py:134 | a name without a dot keeps its whole text |
| FileNames.StripOneExtension | recreate.py:134 | `splitext` removes exactly one extension `.ext` |
| FileNames.RawCodeNameOfConvention | gather_ismip_data.py:88 | the draft's code name of `dir/name.ext` is `name` |
| FileNames.SplitParts | recreate.py:135 | cutting `model + e + scenario` with a four-character model gives back the three parts |
| FileNames.ParseNamingConventionRaw | gather_ismip_data.py:88-89 | the draft parses a file `dir/NNNMELLL.ext` to its three parts, case kept |
| FileNames.ParseNameRaw | gather_ismip_data.py:88-89 | the same for a bare name `NNNMELLL.ext` with no directory |
| FileNames.ParseNamingConvention | recreate.py:125-135 | a file `dir/NNNMELLL.ext` parses to its parts in the draft and to its lower-cased parts in the later script |
| FileNames.ParseFileOfLowerCase | recreate.py:134-135 | a name whose parts hold no upper-case letter parses the same in both scripts |
| FileNames.LowerCaseRaw | gather_ismip_data.py:88-89 | the draft parses `zzz1a005.txt` to (`zzz1`, `a`, `005`) |
| FileNames.LowerCaseExample | recreate.py:134-135 | `zzz1a005.txt` parses to (`zzz1`, `a`, `005`) |
| FileNames.UpperCaseRaw | gather_ismip_data.py:88-89 | the draft parses `OGA1A005.txt` to (`OGA1`, `A`, `005`), case kept |
| FileNames.UpperCaseNamesDiffer | recreate.py:134 | the later script parses `OGA1A005.txt` to (`oga1`, `a`, `005`), unlike the draft |
| FileNames.LowerExample | recreate.py:134 | lower-casing (`OGA1`, `A`, `005`) gives (`oga1`, `a`, `005`) |
| Arrays.Linspace | recreate.py:155-156 | `num` points; the first is `start`, the last is `stop`, and point i is `start + i*step` |
| Arrays.LinspaceSpacing | recreate.py:151-153 | consecutive points are `(stop-start)/(num-1)` apart |
| Arrays.MeshgridIJIsSwappedXY | cism_grids.py:49 | `meshgrid(y, x, indexing='ij')` is the `xy` meshgrid of (x, y) with its two outputs swapped |
| Arrays.RavelLength | recreate.py:166 | the flattened rows × cols array has rows·cols entries |
| Arrays.RavelAt | recreate.py:166 | entry (i, j) is at flat position i·cols + j (row-major) |
| Arrays.Reshape | recreate.py:174-178 | reshaping rows·cols values gives a rows × cols array |
| Arrays.ReshapeAt | recreate.py:174-178 | entry (i, j) of the reshape is flat value i·cols + j |
| Arrays.ReshapeRavel | recreate.py:166-178 | reshaping a flattened array gives back the array |
| QueryGrid.UnitAxisAt | recreate.py:155-156 | the axis has 4k+1 points, and point i is i/(4k) |
| QueryGrid.QuarterAndHalf | recreate.py:151-156 | axis points 0, k, 2k and 4k are exactly 0, 1/4, 1/2 and 1 |
| QueryGrid.QuarterNeedsMultipleOfFour | recreate.py:151-153 | point i of `linspace(0, 1, num)` is 1/4 exactly when 4i = num-1, so 1/4 is hit only when 4 divides num-1 |
| QueryGrid.QueryAxis | recreate.py:154-156 | the query axis has 101 strictly increasing points i/100 in [0, 1], with 1/4 at 25 and 1/2 at 50 |
| QueryGrid.MakeGridShape | recreate.py:150-162 | a, c and f get `points_p_quarter = 25` and equal axes meshed `xy` (101 × 101, x̂ = j/100, ŷ = i/100); any other experiment gets empty axes and grids of size 0 |
| Recreate.GridMeshPair | recreate.py:157 | the two grids of `make_grid` have the same shape, 101 × 101 for a, c and f |
| Recreate.DatumSpecFacts | recreate.py:99-123 | a record's (M, E, L) is the lower-cased cut of its file name; its order is the classification of M; its table is kept exactly when known; its grid is `make_grid(E)`; an unknown model or another experiment gets no fields |
| Recreate.UnknownModelGetsEmptyArray | recreate.py:114-117 | a record of an unknown model holds the empty vector and no interpolated fields |
| Recreate.UnknownRecordRaisesAsWritten | recreate.py:114-166 | as written, an unknown model in experiment a, c or f reaches `array[:,0:2]` on the 1-D empty vector and fails with "too many indices" |
| Recreate.UnknownExampleFile | recreate.py:104-111 | `zzz1a005.txt` is a record of experiment a with an unknown model |
| Recreate.QueryPointAt | recreate.py:166 | query point (i, j) of grid a, c or f is (j/100, i/100) |
| Recreate.DatumCell | recreate.py:164-199 | each interpolated cell of a known record is the interpolator at (j/100, i/100), fed columns 2 and 3 (a), 2 to 4 (c) or 2 to 5 over normalised positions (f), and its norm is built from those cells |
| Recreate.IsmipDatum.constructor | recreate.py:99-123 | the constructed object's snapshot is the record of its file name and table |
| Recreate.IsmipDatum.MakeGrid | recreate.py:141-162 | sets the axes and meshed grids to `make_grid(exp)`, and `points_p_quarter` to 25 for a, c and f only; the two grids form a mesh pair |
| Recreate.IsmipDatum.InterpData | recreate.py:164-199 | sets the interpolated fields to the interpolation of the object's table on its grid, and changes nothing else; this is the corrected `interp_data` of Finding 1, which gives an unknown model no fields instead of raising |
| Recreate.Views | recreate.py:221-223 | one snapshot per object, in order |
| Recreate.DatumSpecs | recreate.py:221-223 | one record per file (the order is stated by DatumSpecsAt) |
| Recreate.DatumSpecsAt | recreate.py:221-223 | record i of the list is the record of file i and its table |
| Recreate.LoadAll | recreate.py:221-223 | `all_data` has one object per file; the snapshots are the records of the files in order, and object i's snapshot is the record of file i (with Finding 1's correction: an unknown model gets no fields) |
| Interpolation.MeshPairSizes | recreate.py:166 | the flattened query grids have equal length rows·cols |
| Interpolation.GridData | recreate.py:166 | one interpolated value per query point |
| Interpolation.GridDataAt | recreate.py:166-167 | flat value i·cols + j is the interpolator at (X[i][j], Y[i][j]) |
| Interpolation.Norm2Squared | recreate.py:172 | the planar norm is defined exactly when both components are; it is non-negative, and its square is vx² + vy² |
| Interpolation.Norm3Squared | recreate.py:170 | the 3-D norm is defined exactly when all three components are; it is non-negative, and its square is vx² + vy² + vz² |
| Interpolation.NormalisedRoundTrip | recreate.py:186 | `c/100 + 0.5` and its inverse `(c - 0.5)*100` undo each other |
| Interpolation.NormaliseF | recreate.py:184-186 | the experiment F rule keeps the number of points |
| Interpolation.NormaliseFRule | recreate.py:184-186 | when row 0's x is below -1, every point maps to `c/100 + 0.5` (and back); otherwise all points stay unchanged; only row 0 decides |
| Interpolation.NormaliseFExamples | recreate.py:185-186 | a first x of -50 maps to 0; a first x of 0.3 leaves the table unchanged |
| Interpolation.FieldsAAt | recreate.py:165-178 | experiment a yields vx, vy and norm grids of the query shape; cell (i, j) interpolates columns 2 and 3, and the norm combines them |
| Interpolation.FieldsCAt | recreate.py:165-178 | experiment c yields vx, vy, vz and norm grids; cell (i, j) interpolates columns 2, 3 and 4, and the norm combines all three |
| Interpolation.FieldsFAt | recreate.py:180-199 | experiment f yields surface, vx, vy, vz and norm grids over the normalised positions; cell (i, j) interpolates columns 2 to 5 |
| Interpolation.InterpAsWrittenOutcome | recreate.py:164-199 | as written: for a, c and f the branch succeeds exactly when the array has the columns it reads; the empty vector fails with "too many indices"; other experiments produce nothing; a success has the experiment's fields in the grid's shape |
| Interpolation.InterpAgreesWithAsWritten | recreate.py:164-199 | for a known model the interpolation is the as-written one, and it succeeds; an unknown model gets no fields |
| Envelope.MinOf | recreate.py:270 | `amin` is a member of the values and at most every value |
| Envelope.MaxOf | recreate.py:271 | `amax` is a member of the values and at least every value |
| Envelope.MinLeMeanLeMax | recreate.py:269-271 | amin ≤ mean ≤ amax |
| Envelope.EnvelopeSpec | recreate.py:267-277 | the envelope exists exactly for a non-empty group and has one entry per position. Its mean is defined exactly when every line is defined there, and amin and amax are defined exactly when the mean is. Then every value lies in [amin, amax], both are attained, amin ≤ mean ≤ amax, and the mean is the sum over the group size |
| Envelope.SingletonEnvelope | recreate.py:269-271 | one line is its own mean, minimum and maximum |
| Envelope.StatsOfThree | recreate.py:269-271 | three defined values give mean (a+b+c)/3, their minimum and their maximum |
| Envelope.ThreeLineExample | recreate.py:269-271 | the envelope of three concrete lines, position by position |
| Figures.Filter | recreate.py:245 | a comprehension keeps at most the records it reads |
| Figures.FilterMembers | recreate.py:245-259 | a record survives a comprehension exactly when it was in the list and meets the condition |
| Figures.FilterIgnores | recreate.py:245-246 | appending a record that fails the condition leaves the comprehension unchanged |
| Figures.HigherOrderTestIsExact | recreate.py:246 | `order in 'higher_order'` holds for exactly the higher-order records among the four order names |
| Figures.GroupMembers | recreate.py:245-267 | a record is in a family's group for a figure and scenario exactly when it is loaded, of that family's order, of the figure's experiment and of that scenario; no SIA or unknown record is in a group |
| Figures.DatumSpecsProcessed | recreate.py:221-223 | every record of `all_data` whose model is known, in experiment a, c or f, has interpolated fields on the 101 × 101 grid |
| Figures.GroupSliceable | recreate.py:267 | every member of a group has the grid and fields the figure's slice reads |
| Figures.Slice | recreate.py:267-439 | is a line of 101 values: row `points_p_quarter` of the norm for figures 5 and 8 (corrected, see Findings), row `2*points_p_quarter` of the surface (figure 12) or of the norm (figure 13) |
| Figures.QuarterColumnAsWritten | recreate.py:267 | `vnorm_surf_i[:, points_p_quarter]` is a line of 101 values |
| Figures.QuarterColumnRunsAlongY | recreate.py:267 | entry i of the as-written slice is the norm at x̂ = 1/4 and ŷ = i/100: the line x̂ = 1/4, not ŷ = 1/4 |
| Figures.SliceRunsAlongX | recreate.py:378 | entry j of every figure's slice lies at x̂ = j/100, with ŷ = 1/4 (figures 5 and 8) or ŷ = 1/2 (figures 12 and 13) |
| Figures.FamilyEnvelopeAt | recreate.py:267-277 | a family's envelope exists exactly when its group is non-empty. At each position its mean is defined exactly when every member's slice is, and then amin ≤ mean ≤ amax, with every member's value in [amin, amax] |
| Figures.GroupIgnores | recreate.py:245-246 | adding an SIA or unknown record changes no group |
| Figures.PanelIgnores | recreate.py:245-277 | adding an SIA or unknown record changes no panel of any figure |
| Figures.ScenarioPanels | recreate.py:266-277 | one panel per scenario, in order; panel i is the two family envelopes of scenario i (figures 5 and 8 take the corrected row of Finding 2) |
| Figures.FigurePanels | recreate.py:265-277 | the panels of a figure's `plot_ls` scenarios (six lengths for figures 5 and 8, two slip cases for 12 and 13), with figures 5 and 8 taking the corrected row of Finding 2 |
| Figures.RecreateFigures | recreate.py:221-443 | loads every file, and returns the panels of figures 5, 8, 12 and 13 computed from the records of those files; this is the corrected program: unknown models get no fields (Finding 1), and figures 5 and 8 take the row (Finding 2) |
| CismGrids.CentredIncreasing | cism_grids.py:47-48 | the centres strictly increase, `d` apart |
| CismGrids.CentredAxes | cism_grids.py:42-48 | `nx = ny = 40`, `dx = dy = size*1000/40`, 40 centres `(i+0.5)*dx`, strictly increasing, `dx` apart |
| CismGrids.CornerMidway | cism_grids.py:55-56 | corner i lies midway between centres i and i+1 |
| CismGrids.NormalisedCentre | cism_grids.py:51-52 | a normalised centre is `(i+0.5)/nx` |
| CismGrids.NormalisedCorner | cism_grids.py:59-60 | a normalised corner is `(i+1)/nx` |
| CismGrids.HatCentres | cism_grids.py:51-52 | `x_hat[i] = y_hat[i] = (i+0.5)/40`, from 0.0125 to 0.9875, strictly inside (0, 1) |
| CismGrids.StaggeredAxes | cism_grids.py:55-60 | 39 corners `(i+1)*dx`, each midway between two centres; normalised `(i+1)/40`, from 0.025 to 0.975 |
| CismGrids.HatIndependentOfSize | cism_grids.py:51-60 | the normalised axes are the same for every size |
| CismGrids.MeshesIJ | cism_grids.py:49-61 | all four meshgrids are `ij` over (y, x): 40 × 40 or 39 × 39, with `Y[i][j] = y[i]` and `X[i][j] = x[j]` |
| CismGrids.GridsOf | cism_grids.py:67-69 | one grid per size |
| CismGrids.GridsOfAt | cism_grids.py:67-69 | grid k is the grid of size k, in order |
| CismGrids.GridsTable | cism_grids.py:67-77 | keys a to f; a to d share the six grids of sizes 5, 10, 20, 40, 80 and 160, in order; e is empty; f is the single grid of size 100 |
| Gather.GatherSpecFacts | gather_ismip_data.py:58-76 | the draft's (M, E, L) is the case-kept cut of the file name; its order is the classification of M; the table is kept exactly for a known model, and otherwise the array is empty |
| Gather.GatherDatum.constructor | gather_ismip_data.py:58-76 | the if/elif chain and the load give the draft's record of the file name and table |
| Gather.GatherSpecs | gather_ismip_data.py:163-165 | one draft record per file |
| Gather.GatherSpecsAt | gather_ismip_data.py:163-165 | record i of the list is the draft record of file i and its table |
| Gather.GatherViewsAt | gather_ismip_data.py:163-165 | objects whose snapshots are the draft's records of the files hold them file by file |
| Gather.GatherViews | gather_ismip_data.py:163-165 | one snapshot per draft object, in order |
| Gather.LoadAll | gather_ismip_data.py:163-165 | the draft's `all_data` has one object per file; the snapshots are the draft records of the files in order, and object i's snapshot is the draft record of file i |
| Gather.NoCodeStartsWithO | gather_ismip_data.py:28-37 | no table code starts with an upper-case `O`, so such a code is unknown |
| Gather.UpperCaseFileClassifiedApart | gather_ismip_data.py:88-89 | `OGA1A005.txt` is unknown with an empty array in the draft, but full Stokes in the later script |
| Gather.BuildGrd | gather_ismip_data.py:192-194 | the `grd` append loop builds one grid per size, in order |
| Gather.BuildGrids | gather_ismip_data.py:196-202 | the draft's `grids` table equals the one of `cism_grids.py` |

## Left out

- File discovery (`recursive_glob`), `numpy.loadtxt`, `numpy.savetxt`, `mkdir_p` and `display` are file I/O and console output. Each file's table is a parameter instead.
- All matplotlib plotting (figures, subplots, fills, labels, `savefig`, `show`) is UI. The model stops at the panels' envelopes.
- The internals of `scipy.interpolate.griddata` (Delaunay triangulation, linear barycentric interpolation) belong to a foreign library. Only how its inputs are wired and how its outputs are shaped is modelled.
- `numpy.sqrt` is a parameter, because there is no real square root in the model's arithmetic. IEEE rounding and NaN payloads are not modelled.
- The experiment F export tables at recreate.py:392 and 445 take their first column from `fs_data_c[0].x_hat`. They are output formatting I/O and are not modelled.
- The commented-out exploration in gather_ismip_data.py:169-185 is not modelled. Neither is the draft's `make_grid` stub at gather_ismip_data.py:95-96, which no code calls.
- The header tables (recreate.py:76-82) are informational only and unused.
- The draft's duplicate `cism_grids` class and `sizes` table (gather_ismip_data.py:47-53, 128-149) are textually identical to `cism_grids.py`. They are modelled once, by `CismGrids`. Likewise, the draft's classification tables (gather_ismip_data.py:28-37) are copies of those at recreate.py:62-72, and `Gather` uses `Classification` for them.
- Recreate.IsmipDatum.constructor: requires a name of at least five characters, and, for a known model in a, c or f, a table with the columns the branch reads. Otherwise the source raises an `IndexError`, and the model does not build that raising object.
- Recreate.LoadAll: does not state that the objects are freshly allocated and distinct.
- Recreate.IsmipDatum.InterpData: does not model the source's assignments one by one. The fields are assigned once, already reshaped, in place of the flat `griddata` result followed by the in-place `reshape`. The values are the same.
- Envelope.EnvelopeSpec: an empty group gives `None`, where `numpy.amin` and `numpy.amax` raise on an empty array (recreate.py:270-277, 325-332, 381-388 and 436-443). Any of the four figures would then stop the script.
- Figures.FilterMembers: does not state that a comprehension keeps the records' order, only keeps and drops them. The order does not change any mean, minimum or maximum.
- Figures.Slice: for figures 5 and 8 it takes the corrected row, not the column the code writes. The as-written column is `Figures.QuarterColumnAsWritten` (Finding 2).
- CismGrids.NewCismGrid: requires a positive size. A size of 0 raises `ZeroDivisionError` in the source, and every listed size is positive.
- Gather.GatherDatum.constructor: requires a name of at least five characters. On a shorter name the draft raises an `IndexError` at `code_name[4]`, and the model does not build that raising object.
- Gather.GatherDatum.constructor: the draft's empty Python list `[]` is modelled as the same empty vector the later script makes with `numpy.array([])`.
- Recreate.LoadedArray: every table is loaded as a two-dimensional array. `numpy.loadtxt` squeezes a one-row file to a one-dimensional array and an empty file to the empty one-dimensional array, on which `self.array[:,0:2]` (recreate.py:166 and 184) raises `IndexError`. The model interpolates such a table as a one-row or empty matrix instead.
- The `Interpolator` parameter is a total function. `scipy.interpolate.griddata` raises when it gets too few sample points or only collinear ones, and the model has no such failure.
- File names are sequences of characters, and `FileNames` slices characters. Python 2 `str` slices bytes, so the two differ on names with multi-byte characters. The ISMIP-HOM names are ASCII.

## Findings

| source | as written | input that shows it | evidently intended | confidence | as-written member | corrected member |
|---|---|---|---|---|---|---|
| recreate.py:114-166 | an unknown model gets `numpy.array([])`, and `__init__` still calls `interp_data`, which reaches `self.array[:,0:2]` for experiments a, c and f | a file `zzz1a005.txt` (model `zzz1`, in no table): the 1-D empty array raises `IndexError: too many indices` | unknown records are kept for bookkeeping and skipped by interpolation, as the classifier's purpose suggests | not executed | Recreate.UnknownRecordRaisesAsWritten | Interpolation.InterpAgreesWithAsWritten |
| recreate.py:267 | figures 5 and 8 take `vnorm_surf_i[:, points_p_quarter]`, a column of the `xy` meshgrid along which x̂ is fixed at 1/4 and ŷ runs from 0 to 1 | any record of experiment a or c: entry i of the slice is the norm at (x̂, ŷ) = (1/4, i/100) | the line ŷ = 1/4 with x̂ from 0 to 1, as the comments at recreate.py:145, 241 and 248 and the axis labels ("Normalized x") say, which is row `points_p_quarter` | not executed | Figures.QuarterColumnRunsAlongY | Figures.SliceRunsAlongX |
