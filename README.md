# Orange dendrogram layout and canvas package installer

A Dafny model of two pieces of the Orange data-mining suite.

- **Dendrogram and dissimilarity-matrix pictures** (`orange/orngDendrogram.py`,
  `DendrogramPlot.dendrogram` and `DendrogramPlot.matrix`). The model computes everything the
  drawing code needs, up to the drawing calls themselves: the frame (row spacing, canvas
  height, cell size), the widest label, and the layout extracted from a hierarchical-clustering
  result. The layout holds the y of every leaf row, the x and y of every cluster, the vertical
  line of every merge, the horizontal line of every cluster child, and the text origin and hook
  colour of every leaf. The model also computes the horizontal scale, and for `matrix` every
  caption and every coloured cell in drawing order.
  The source's mutable lists become `seq` values threaded through methods with loops. The
  per-leaf `origins` and hook colours (`attcolors`) are arrays updated in place. Each method is
  proved equal to a specification function, and lemmas state what the picture promises: rows go
  down the page, clusters sit between their children, merges lie left of their children, the
  tree spans the band between `margin` and `offset`, and the matrix is mirror-symmetric and fits
  its square canvas. In black and white, `matrix` raises `ZeroDivisionError` exactly when it
  would colour a zero.
- **Canvas package installer** (`Orange/OrangeCanvas/application/packageinstaller.py`).
  - `scheme_requires` collects a scheme's requirements: the explicit packages first, then the
    node projects that nothing names yet. It then drops the satisfied ones.
  - `is_req_satisfied` and `is_requirement_available` decide "installed". They go through an
    abstract `pkg_resources` environment.
  - `Installer` runs `easy_install` once per package and emits Qt signals. The class keeps the
    emitted signals as a trace; `run` and `__subprocessrun` are loops over that trace.
  - The model proves what a run reports: `started` first; then, for each package, a status and
    its output; then `finished` exactly when every package installed. Otherwise the run ends
    with an `error` for the first failing package.

Files:

- `options.dfy`: `Option`.
- `sequences.dfy`: `Distinct`.
- `dendrogram.dfy`: module `Dendrogram`.
- `dendrogram_properties.dfy`: module `DendrogramProperties`.
- `matrix.dfy`: module `DissimilarityMatrix`.
- `matrix_properties.dfy`: module `MatrixProperties`.
- `package_installer.dfy`: module `PackageInstaller`.
- `package_installer_properties.dfy`: module `InstallerProperties`.

Modelling choices that follow the code:

- Python's `int()` truncates toward zero (`Trunc`).
- `lineskip/2` on the integer row spacing is floor division. When a height is given, the row
  spacing is a float and the halving is real.
- A negative index into `diss` counts from the end (`DissRow`).
- `str(None)` is `"None"`, and a string is true exactly when it is non-empty.
- The position lists keep leaf `k` at index `n - k`, the string sentinel at index `n`, and
  cluster `c` at index `n + c`.
- The integer `0` placeholders in `attcolors` are `None`.
- The float `height` that `dendrogram` computes for the canvas is reset to `0.0` and reused as
  the running merge height. The scale divides by that reused value, so `ScaleOf` takes the merge
  height, not the canvas height. When it equals `displacement`, the division by zero is the
  outcome `ZeroDivision`.

## Model

| member | source | states |
|---|---|---|
| Dendrogram.DendrogramScheme | orange/orngDendrogram.py:93-96 | any non-zero `color_mode` selects the second colouring, zero the first; never black-and-white |
| Dendrogram.FrameFromFont | orange/orngDendrogram.py:74-77 | with no height given, the row spacing is `int(line_size*fontHeight+1)` and the canvas is taller than the margins, the rows and the font; the cell half-size leaves at least 2 of the row spacing, or is 0 without a matrix |
| Dendrogram.FrameFromHeight | orange/orngDendrogram.py:78-80 | with a height given, the margins, `rows - 1` row spacings and the font add up to exactly that height; cell half-size as above |
| Dendrogram.MaxLabelWidth | orange/orngDendrogram.py:81-83 | the loop computes `MaxWidth` of the label widths |
| DendrogramProperties.MaxWidthIsMaximum | orange/orngDendrogram.py:81-83 | `maxlabel` is at least 0 and at least every label width, and is 0 or one of the widths |
| Dendrogram.PlaceRows | orange/orngDendrogram.py:107-111 | after the row loop, index `n - order[i]` holds the y of the last row showing that leaf, and 0 where no row shows it |
| Dendrogram.VisitChild | orange/orngDendrogram.py:136-145 | a leaf child records the merge x as its origin and the horizontal colour as its hook; a cluster child adds one horizontal line from its x to the merge x; the child's y is returned |
| Dendrogram.MergeStep | orange/orngDendrogram.py:119-148 | one merge appends its x and mean y, its vertical line, its children's horizontal lines, updates the two leaf records, and advances `height` or `displacement` |
| Dendrogram.StartLayout | orange/orngDendrogram.py:101-113 | the state before the merge loop: zeroed origins, placeholder hooks, rows placed, sentinels appended |
| Dendrogram.Advance | orange/orngDendrogram.py:118-148 | one merge takes the layout after `i` merges to the layout after `i + 1` |
| Dendrogram.ExtractLayout | orange/orngDendrogram.py:99-148 | the extraction computes exactly `LayoutOf`, the layout after all `n - 1` merges |
| Dendrogram.ScaleOf | orange/orngDendrogram.py:152-157 | the division fails exactly when the merge height equals `displacement`; otherwise `offset` is the width less label, hook, margins and matrix columns, x = 0 maps to `offset`, and the extent maps to `margin` |
| Dendrogram.Plot | orange/orngDendrogram.py:64-157 | fewer than two labels leave the canvas unchanged; otherwise the frame, widest label, layout and scale are those of the specification functions, or the division by zero |
| DendrogramProperties.YSlots | orange/orngDendrogram.py:107-113 | the final y list holds every leaf's row y at `n - k` and every cluster's y at `n + 1 + i` |
| DendrogramProperties.LeafRows | orange/orngDendrogram.py:107-111 | with distinct shown leaves, the leaf of row `i` is at y = `margin + i * lineskip` |
| DendrogramProperties.LeafRowsGoDown | orange/orngDendrogram.py:107-111 | with a positive row spacing, consecutive rows go strictly down the page |
| DendrogramProperties.UnshownLeaf | orange/orngDendrogram.py:105-111 | a leaf no displayed row shows keeps y = 0 |
| DendrogramProperties.ClusterBetweenChildren | orange/orngDendrogram.py:135-147 | a cluster's y is the mean of its children's y, so it lies between them |
| DendrogramProperties.ClustersWithinRows | orange/orngDendrogram.py:107-147 | when every leaf is shown, every cluster's y lies between the first and the last row |
| DendrogramProperties.NonIncrementalDescends | orange/orngDendrogram.py:130-132 | non-incremental merges stand at the running sum of negated heights, so they only move left |
| DendrogramProperties.MergeLeftOfChildren | orange/orngDendrogram.py:126-132 | with non-negative heights a merge is at or left of both children and of x = 0, in both height modes |
| DendrogramProperties.DisplacementIsMinimum | orange/orngDendrogram.py:117-129 | incremental `displacement` is the minimum of 0 and every merge x, reached by one of them unless 0; non-incremental it stays 0 |
| DendrogramProperties.LineCounts | orange/orngDendrogram.py:134-144 | one vertical line per merge and one horizontal line per cluster child |
| DendrogramProperties.VLineSpansChildren | orange/orngDendrogram.py:134 | merge `i`'s vertical line stands at its x and joins its two children's y, with the new cluster between them |
| DendrogramProperties.HLinesRunLeft | orange/orngDendrogram.py:142-144 | with non-negative heights every horizontal line runs leftward from the child's x to the merge's x |
| DendrogramProperties.BlackWithoutColors | orange/orngDendrogram.py:119-124 | without exactly one colour pair per merge, every line and every recorded hook is black |
| DendrogramProperties.ColorsFromPairs | orange/orngDendrogram.py:119-121 | with one colour pair per merge, merge `i`'s vertical line takes the first colour of pair `i` |
| DendrogramProperties.OriginOfNamedLeaf | orange/orngDendrogram.py:138-141 | a leaf's origin and hook come from the last merge that names it |
| DendrogramProperties.OriginOfUnnamedLeaf | orange/orngDendrogram.py:103-106 | a leaf no merge names keeps origin 0 and the placeholder hook |
| DendrogramProperties.MergesSpanTheBand | orange/orngDendrogram.py:152-157 | with non-negative heights and a successful scale, the leaves map to `offset`, every merge lands between `margin` and `offset`, and the farthest merge lands on `margin` |
| DissimilarityMatrix.MatrixScheme | orange/orngDendrogram.py:242-247 | `color_mode` 1 and 0 select the two colourings, any other value black-and-white |
| DissimilarityMatrix.DrawPairs | orange/orngDendrogram.py:264-270 | the inner loop raises exactly when some earlier row `j` pairs with row `i` at a dissimilarity that black-and-white colouring divides by; otherwise it appends, for every earlier row `j`, the cell of rows `i` and `j` and its mirror, coloured by their dissimilarity |
| DissimilarityMatrix.DrawRow | orange/orngDendrogram.py:255-275 | one outer pass raises exactly when row `i` colours a zero in black and white; otherwise it appends the row and column caption of row `i`, its pair cells and, with gains, its diagonal cell |
| DissimilarityMatrix.DrawRows | orange/orngDendrogram.py:255-275 | the outer loop raises exactly when some row colours a zero in black and white; otherwise it draws every row's captions and cells |
| DissimilarityMatrix.Matrix | orange/orngDendrogram.py:217-275 | fewer than two labels leave the canvas unchanged; a black-and-white zero is the `ZeroDivisionError`; otherwise the captions and cells are exactly those of `PictureOf` |
| MatrixProperties.CellsHaveZero | orange/orngDendrogram.py:255-275 | the cells of the first `k` rows include one coloured 0 in black and white exactly when one of those rows colours a value that raises |
| MatrixProperties.RaisesIffZeroCell | orange/orngDendrogram.py:58-59 | `matrix` raises `ZeroDivisionError` exactly when the picture it would draw has a cell coloured 0 by `_blackwhite` |
| MatrixProperties.LargestIsMaximum | orange/orngDendrogram.py:231-232 | `max(labellen)` is at least every width and is one of them |
| MatrixProperties.LookupSymmetric | orange/orngDendrogram.py:266 | `diss[max-1][min]` does not depend on the order of the two labels |
| MatrixProperties.TriangularLookup | orange/orngDendrogram.py:266 | in a lower-triangular matrix every pair of distinct labels reads an in-range entry, without wrap-around |
| MatrixProperties.TriangularCovers | orange/orngDendrogram.py:264-266 | a lower-triangular matrix and a permutation of the rows define every pair the loop reads |
| MatrixProperties.CellCount | orange/orngDendrogram.py:264-275 | `k` rows draw `k*(k-1)` pair cells and, with gains, `k` diagonal cells |
| MatrixProperties.CellIndex | orange/orngDendrogram.py:264-270 | the cell of rows `i` and `j` (`j < i`) and then its mirror are drawn at a fixed index |
| MatrixProperties.DiagonalIndex | orange/orngDendrogram.py:271-275 | with gains, row `i`'s diagonal cell is drawn right after its pair cells, coloured by the gain |
| MatrixProperties.MirrorClosed | orange/orngDendrogram.py:269-270 | every drawn cell's mirror across the diagonal is also drawn, in the same colour |
| MatrixProperties.CellsOnGrid | orange/orngDendrogram.py:267-275 | every cell is centred on a row and a column of the grid |
| MatrixProperties.SideCoversGrid | orange/orngDendrogram.py:230-236 | with the default cell size and non-negative margin and font height, the side reaches past the last cell and a cell is no wider than a row |
| MatrixProperties.CellsInsideCanvas | orange/orngDendrogram.py:233-275 | every cell lies right of and below the caption band and inside the square canvas |
| MatrixProperties.CaptionsAligned | orange/orngDendrogram.py:255-263 | row `i` shows label `order[i]` twice: upright, ending half a row spacing right of the offset, and rotated, in the column at the row's position |
| PackageInstaller.Get | Orange/OrangeCanvas/application/packageinstaller.py:34-36 | `attrib.get` is `None` exactly for a missing key, else the attribute |
| PackageInstaller.SchemeRequires | Orange/OrangeCanvas/application/packageinstaller.py:25-46 | the loops collect exactly `Collected`, and the result is its unsatisfied part, or the raised error |
| InstallerProperties.NewProjectsMembers | Orange/OrangeCanvas/application/packageinstaller.py:39-44 | a node project is added exactly when some node has it and no explicit package names it |
| InstallerProperties.NewProjectsDistinct | Orange/OrangeCanvas/application/packageinstaller.py:40-44 | no node project is added twice |
| InstallerProperties.Collection | Orange/OrangeCanvas/application/packageinstaller.py:31-44 | explicit packages come first with their three attributes; then come node projects with a name and no spec or link, each named once and by no explicit package |
| InstallerProperties.NodesCovered | Orange/OrangeCanvas/application/packageinstaller.py:39-44 | every node's project is named by some collected requirement |
| InstallerProperties.UnsatisfiedAppend | Orange/OrangeCanvas/application/packageinstaller.py:46 | the filter keeps relative order: filtering a concatenation concatenates the filters |
| InstallerProperties.UnsatisfiedRaises | Orange/OrangeCanvas/application/packageinstaller.py:46-59 | the filter raises exactly when the check of some requirement raises |
| InstallerProperties.UnsatisfiedMembers | Orange/OrangeCanvas/application/packageinstaller.py:46 | otherwise it keeps exactly the requirements found not satisfied |
| PackageInstaller.RequirementString | Orange/OrangeCanvas/application/packageinstaller.py:53-56 | a non-empty spec gives `name spec`, otherwise the bare name; a missing name without a spec cannot be parsed |
| PackageInstaller.IsRequirementAvailable | Orange/OrangeCanvas/application/packageinstaller.py:63-75 | available exactly when the lookup raises neither `DistributionNotFound` nor `VersionConflict` |
| PackageInstaller.IsReqSatisfied | Orange/OrangeCanvas/application/packageinstaller.py:49-60 | raises exactly when the string cannot be formed or does not parse to one requirement; otherwise satisfied exactly when that one is found |
| PackageInstaller.UserSwitch | Orange/OrangeCanvas/application/packageinstaller.py:225-235 | the given arguments are kept in order, behind a `--user` that is there exactly when easy_install has the switch outside a virtualenv |
| PackageInstaller.InstallArguments | Orange/OrangeCanvas/application/packageinstaller.py:182-187 | `--user` leads exactly when supported outside a virtualenv; `--find-links` and the link follow exactly when there is a link; the name is last |
| PackageInstaller.Installer.constructor | Orange/OrangeCanvas/application/packageinstaller.py:164-167 | a new installer holds the packages, no interrupt and nothing emitted |
| PackageInstaller.Installer.Interrupt | Orange/OrangeCanvas/application/packageinstaller.py:172-173 | sets the interrupt flag and changes nothing else |
| PackageInstaller.Installer.SubprocessRun | Orange/OrangeCanvas/application/packageinstaller.py:197-216 | emits every line and then the non-empty rest on `stdout`, and returns the exit code and their concatenation |
| InstallerProperties.PrintedIsOutput | Orange/OrangeCanvas/application/packageinstaller.py:206-216 | the output returned is everything emitted on `stdout`, in order |
| PackageInstaller.Installer.InstallOne | Orange/OrangeCanvas/application/packageinstaller.py:180-193 | one package emits its status and output, and an `error` exactly when the exit code is not 0 |
| PackageInstaller.Installer.Run | Orange/OrangeCanvas/application/packageinstaller.py:178-195 | the signals emitted are exactly `RunTrace` of the packages |
| InstallerProperties.TraceShape | Orange/OrangeCanvas/application/packageinstaller.py:178-195 | `started` comes first, `finished` or `error` last, and only statuses and output in between |
| InstallerProperties.LastAttempt | Orange/OrangeCanvas/application/packageinstaller.py:180-195 | from any package on, the run ends with the `error` of the first failing package, or `finished` |
| InstallerProperties.FinishedIffAllSucceed | Orange/OrangeCanvas/application/packageinstaller.py:191-195 | the run ends with `finished` exactly when every package exits with code 0 |
| InstallerProperties.ErrorReportsFirstFailure | Orange/OrangeCanvas/application/packageinstaller.py:189-193 | a failed run's `error` carries the first failing package's exit code, `easy_install` and its whole output |
| InstallerProperties.StatusesOfAttempted | Orange/OrangeCanvas/application/packageinstaller.py:180-193 | one `Installing <name>` status per attempted package, in order, up to and including the first failing one |
| InstallerProperties.NothingToInstall | Orange/OrangeCanvas/application/packageinstaller.py:178-195 | with no packages the run emits only `started` and `finished` |

## Left out

- Drawing: canvas creation, font metrics, string widths and every `draw*` call are left out. Widths and font height are numbers given to the model.
- The drawing part of `dendrogram` (orange/orngDendrogram.py:158-215) is left out, with the coordinates it computes for itself: the optional line guides (the end of each guide from `offset`, `hook`, `hs`, the leaf's origin and its label width, and the column x's from `width`, `margin`, `block` and the number of matrix columns), the name and hook positions, `vlines.reverse()`, and the optional matrix beside the tree (cell x from `width`, `margin`, `block` and the column, grey level `1 - value`).
- Colours are symbolic (`Shade(scheme, value)`). The floating-point formulas of `_colorize0`, `_colorize1` and `_blackwhite` are not modelled; of their failures only the division by zero of `_blackwhite` is.
- Dendrogram.Plot: `_colorize0` and `_colorize1` call `math.exp`, which raises `OverflowError` for a `cluster_colors` value above about 71 or below about -70; the model has no outcome for that and reports `Plotted`.
- DissimilarityMatrix.Matrix: the same `OverflowError` for a dissimilarity or gain beyond those bounds under `color_mode` 0 or 1 has no outcome either. When `matrix` raises, the cells drawn before the failing one stay on a canvas the caller passed in; the outcome `ZeroDivision` does not record them.
- Floating point is modelled as exact reals. Rounding and NaN/infinity are not modelled.
- Dendrogram.WellFormed: row entries of `order` outside `1..n` and merge references to clusters not yet made are excluded by a precondition. In Python these wrap around to the end of a list, land on the wrong entry or raise.
- DissimilarityMatrix.Covered: the matrix picture requires every index it reads to exist. This covers `labellen[idx]`, `diss[..][..]` and `att_colors[idx]`. It also requires every shown `order` entry to be at least 1: for 0 or less, Python's `labellen[order[i]-1]` and `att_colors[order[i]-1]` wrap around to the end of the list instead of raising, and that wrap is not modelled (only `diss`'s negative row index is).
- XML parsing is left out. `scheme_requires` takes the `requires/package` and `nodes/node` elements as attribute maps in document order.
- `pkg_resources.parse_requirements` and `get_distribution` are the two functions of an abstract `Environment`. The `assert len(reqs) == 1` is modelled as the raising outcome `None`.
- The subprocess is a function from its argument list to the lines it prints, its remaining output and its exit code. `poll`, EINTR retries, the Python 2 `print` statements, `pipes.quote`, the generated script, `pip_process` and `QThread`/event plumbing are left out.
- Installer.Run: like the source, the loop never reads the interrupt flag, so `interupt` has no effect on a run.
- The dialog class (`InstallPackagesDialog`) is Qt user interface and is not part of this model.
