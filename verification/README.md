# momgrid grid metrics in Dafny

A model of the core of momgrid: the `MOMgrid` object that gathers the
horizontal grid metrics of a MOM6 ocean model run, and the helpers around
it. All of it is modelled as pure functions on immutable values.

- **Format detection** (`Util`). `is_hgrid` and `is_static` test a set of
  variable names. `is_symmetric` classifies a map of dimension lengths as
  symmetric or non-symmetric memory mode, or fails.
- **Building the grid** (`Classes.Build`, `MOMgrid.__init__`).
  - The memory mode is resolved first: a static file's own layout overrides
    the requested one.
  - A static file's metrics are copied unchanged, and a static file wins over
    a supergrid.
  - Otherwise the supergrid (`ocean_hgrid.nc`, twice the model resolution) is
    reduced to the tracer, u, v and corner cell metrics (`Supergrid`).
  - When neither format is present, the grid carries no metrics.
- **Supergrid reduction** (`Supergrid`). Each field is composed from
  stride-2 slicing, sums of neighbouring supergrid entries, periodic padding of the first row or column, one cyclic `np.roll`, and the
  symmetric/non-symmetric choice to keep or slice off the padded leading row
  or column. The contracts give each entry in closed form in supergrid
  indices, together with the shape in each memory mode.
- **Export** (`Classes.ToXarray`, `MOMgrid.to_xarray`). The twelve cell
  metrics are labelled with the dimensions (yh, xh), (yh, xq), (yq, xh) and
  (yq, xq). `Classes.ExportLoop` follows momgrid's loop over the four
  cell types; `Classes.ExportVars` lists the twelve variables by name, and
  the two are proved to agree. The lemma `Classes.HgridExportClassifiedBack`
  closes the loop: what a supergrid produces in a given memory mode, once exported, is classified
  by `is_symmetric` as that same mode.
- **xESMF hand-off** (`External.StaticToXesmf`, `static_to_xesmf`). The
  guarded renaming of five static-file variables.

Numpy arrays are `seq<seq<real>>` matrices (`Arrays`). An xarray dataset is a
map from variable name to (dimension names, matrix) plus a map of dimension
lengths (`Datasets`). Raised exceptions and failed `assert`s are `Err` values
of `Datasets.Result`.

Two oddities of the Python code are modelled as written:

- `dyCv` is computed with the same expression as `dyCu` (classes.py lines 156
  and 195), only padded along rows. `Supergrid.DyCvMatchesDyCu` states this.
- The tracer area sums the *padded* area array, so its 2x2 block sits one
  supergrid row and column south-west of the block under the tracer cell.
  On the south-west cell, the first supergrid cell is counted four times
  (`Supergrid.TracerAreaOffset`, `Supergrid.TracerAreaCornerCell`).

## Model

| member | source | states |
|---|---|---|
| Util.IsHgrid | src/momgrid/util.py:19-22 | a dataset is a supergrid file exactly when x, y, dx and dy are all among its variables |
| Util.IsStatic | src/momgrid/util.py:38-41 | a dataset is a static file exactly when geolon and geolat are among its variables |
| Util.DetectionMonotone | src/momgrid/util.py:20-41 | adding variables never turns either detection from true to false |
| Util.DetectionIgnoresOthers | src/momgrid/util.py:20-41 | variables other than x, y, dx, dy, geolon, geolat do not change either verdict |
| Util.IsSymmetricNamed | src/momgrid/util.py:44-80 | a missing dimension fails the lookup; unequal x and y deltas fail the first assertion; a common delta other than 0 or 1 fails the second; otherwise true exactly when both corner dimensions exceed the tracer ones by 1 and false exactly when they are equal |
| Util.IsSymmetric | src/momgrid/util.py:44 | with the default names xh, yh, xq, yq: success exactly for equal deltas in {0, 1}, true exactly for delta 1, false exactly for delta 0 |
| Util.IsSymmetricDependsOnlyOnFourLengths | src/momgrid/util.py:71-72 | two datasets that agree on the lengths of xh, yh, xq, yq are classified alike |
| Util.IsSymmetricOfOffset | src/momgrid/util.py:71-80 | corner dimensions exceeding tracer dimensions by the same k (0 or 1) on both axes are classified as symmetric exactly when k is 1 |
| Arrays.Stride | src/momgrid/classes.py:117 | numpy's `m[r0::2, c0::2]` has the stride lengths as shape and entry (j, i) equal to `m[r0 + 2j][c0 + 2i]`; every row index r0 + 2j and column index c0 + 2i inside the matrix is taken, none is left out |
| Arrays.NextCyclicIsMod | src/momgrid/classes.py:147 | the wrap-round column successor used for `np.roll` is `(i + 1) mod n` |
| Arrays.RollLeft | src/momgrid/classes.py:147 | `np.roll(m, -1, axis=-1)` keeps the shape and takes each entry from the next column, the last from column 0 |
| Supergrid.PadArea | src/momgrid/classes.py:103-106 | the padded area has shape (2ny+1, 2nx+1) and entry (r, c) equal to `area[max(r-1,0)][max(c-1,0)]` |
| Supergrid.TracerPoints | src/momgrid/classes.py:117-120 | tracer longitudes and latitudes have shape (ny, nx) and are the supergrid points `[2j+1][2i+1]` |
| Supergrid.Dxt | src/momgrid/classes.py:118 | `dxt` has shape (ny, nx) and entry `dx[2j+1][2i] + dx[2j+1][2i+1]` |
| Supergrid.Dyt | src/momgrid/classes.py:121 | `dyt` has shape (ny, nx) and entry `dy[2j][2i+1] + dy[2j+1][2i+1]` |
| Supergrid.TracerArea | src/momgrid/classes.py:123-130 | the tracer area has shape (ny, nx) and sums the padded area over rows 2j..2j+1 and columns 2i..2i+1 |
| Supergrid.TracerAreaOffset | src/momgrid/classes.py:104-130 | away from the south and west edges the tracer area is the raw 2x2 area block over rows 2j-1..2j and columns 2i-1..2i |
| Supergrid.TracerAreaCornerCell | src/momgrid/classes.py:104-130 | the south-west tracer area is four times the first supergrid cell area |
| Supergrid.PadCols | src/momgrid/classes.py:148-149 | padding a leading column keeps every entry one column further right in symmetric mode and in place otherwise; in symmetric mode column 0 duplicates column 1 |
| Supergrid.PadRows | src/momgrid/classes.py:187-188 | the same along rows: in symmetric mode row 0 duplicates row 1 |
| Supergrid.PadBoth | src/momgrid/classes.py:235-237 | the same along both axes: in symmetric mode row 0 duplicates row 1 and column 0 duplicates column 1 |
| Supergrid.PadColsTrimmed | src/momgrid/classes.py:148-149 | the non-symmetric field is the unpadded one, and is the symmetric one without its leading column |
| Supergrid.PadRowsTrimmed | src/momgrid/classes.py:187-188 | the non-symmetric field is the unpadded one, and is the symmetric one without its leading row |
| Supergrid.PadBothTrimmed | src/momgrid/classes.py:235-237 | the non-symmetric field is the unpadded one, and is the symmetric one without its leading row and column |
| Supergrid.UPoints | src/momgrid/classes.py:142-143 | u points have shape (ny, nx+1) in symmetric mode, entry (j, i) being the supergrid point `[2j+1][2i]`, and shape (ny, nx) otherwise, entry (j, i) being `[2j+1][2i+2]` |
| Supergrid.VPoints | src/momgrid/classes.py:182-183 | v points have shape (ny+1, nx) in symmetric mode with entries `[2j][2i+1]`, and shape (ny, nx) otherwise with entries `[2j+2][2i+1]` |
| Supergrid.CornerPoints | src/momgrid/classes.py:220-221 | corner points have shape (ny+1, nx+1) in symmetric mode with entries `[2j][2i]`, and shape (ny, nx) otherwise with entries `[2j+2][2i+2]` |
| Supergrid.CornerPointsTrimmed | src/momgrid/classes.py:220-226 | non-symmetric corner points are the symmetric ones without the leading row and column |
| Supergrid.DxCuRaw | src/momgrid/classes.py:146-147 | before padding, the u-cell x-width is `dx[2j+1][2i] + dx[2j+1][2*((i+1) mod nx)]` |
| Supergrid.DxCuRawWraps | src/momgrid/classes.py:147 | at the last u point of a row the `np.roll` wraps to the row's first supergrid edge |
| Supergrid.DxCu | src/momgrid/classes.py:146-150 | `dxCu` has shape (ny, nx+e), e being 1 in symmetric mode and 0 otherwise; its unpadded entries follow the wrapped formula and, in symmetric mode, column 0 duplicates column 1 |
| Supergrid.DxCuWraps | src/momgrid/classes.py:146-149 | in the non-symmetric layout the last `dxCu` entry of each row uses the row's first supergrid edge |
| Supergrid.DyCuRaw | src/momgrid/classes.py:156 | before padding, the u-cell y-width has shape (ny, nx) with entries `dy[2j][2i+2] + dy[2j+1][2i+2]` |
| Supergrid.DyCu | src/momgrid/classes.py:156-159 | `dyCu` has shape (ny, nx+e) with entries `dy[2j][2i+2] + dy[2j+1][2i+2]`; in symmetric mode column 0 duplicates column 1 |
| Supergrid.UAreaRaw | src/momgrid/classes.py:161-167 | before padding, the u-cell area is the padded area summed over rows 2j..2j+1 and columns 2i+1..2i+2 |
| Supergrid.UArea | src/momgrid/classes.py:161-170 | `areacello_u` has shape (ny, nx+e), the block sums after its leading column, and in symmetric mode column 0 duplicates column 1 |
| Supergrid.DxCvRaw | src/momgrid/classes.py:186 | before padding, the v-cell x-width has shape (ny, nx) with entries `dx[2j+2][2i] + dx[2j+2][2i+1]` |
| Supergrid.DxCv | src/momgrid/classes.py:186-189 | `dxCv` has shape (ny+e, nx) with entries `dx[2j+2][2i] + dx[2j+2][2i+1]`; in symmetric mode row 0 duplicates row 1 |
| Supergrid.DyCv | src/momgrid/classes.py:195-198 | `dyCv` has shape (ny+e, nx) and, as written, the entries of the `dyCu` formula; in symmetric mode row 0 duplicates row 1 |
| Supergrid.DyCvMatchesDyCu | src/momgrid/classes.py:195-197 | each `dyCv` entry equals the `dyCu` entry of the same cell, the one shifted by a leading row and the other by a leading column |
| Supergrid.VAreaRaw | src/momgrid/classes.py:200-206 | before padding, the v-cell area is the padded area summed over rows 2j+1..2j+2 and columns 2i..2i+1 |
| Supergrid.VArea | src/momgrid/classes.py:200-209 | `areacello_v` has shape (ny+e, nx), the block sums after its leading row, and in symmetric mode row 0 duplicates row 1 |
| Supergrid.CornerAreaRaw | src/momgrid/classes.py:228-234 | before padding, the corner area is the padded area summed over rows 2j+1..2j+2 and columns 2i+1..2i+2 |
| Supergrid.CornerArea | src/momgrid/classes.py:228-238 | `areacello_c` has shape (ny+e, nx+e) and the block sums after its leading row and column; in symmetric mode row 0 and column 0 duplicate their neighbours |
| Supergrid.CornerAreaTrimmed | src/momgrid/classes.py:235-237 | the non-symmetric corner area is the symmetric one without the leading row and column |
| Classes.ResolveSymmetric | src/momgrid/classes.py:80-91 | for a static file the memory mode is what `is_symmetric` detects (or its failure), whatever was requested; otherwise it is the request |
| Classes.StaticLayoutIgnoresRequest | src/momgrid/classes.py:82-89 | for a static file the requested mode makes no difference to the resolved one |
| Classes.FromStatic | src/momgrid/classes.py:109-216 | the static metrics succeed exactly when all 18 static variables are present and are then those arrays unchanged, with the u, v and corner areas from `areacello_cu`, `areacello_cv` and `areacello_bu`; otherwise the error names a missing one |
| Classes.TracerCell | src/momgrid/classes.py:116-130 | supergrid tracer metrics have shape (ny, nx); lon/lat are the points `[2j+1][2i+1]`; the area is the padded-area block written in raw area indices |
| Classes.UCell | src/momgrid/classes.py:141-170 | supergrid u metrics have shape (ny, nx+e); their points are `x[2j+1][2i]` (symmetric) or `x[2j+1][2i+2]` (non-symmetric), and likewise for y; the area of u cell (j, i) sits at column i+e and is the u-area block sum over the padded area; in symmetric mode column 0 of the area duplicates column 1 |
| Classes.VCell | src/momgrid/classes.py:181-209 | supergrid v metrics have shape (ny+e, nx); their points are `x[2j][2i+1]` (symmetric) or `x[2j+2][2i+1]` (non-symmetric), and likewise for y; the area of v cell (j, i) sits at row j+e and is the v-area block sum over the padded area; in symmetric mode row 0 of the area duplicates row 1 |
| Classes.CornerCell | src/momgrid/classes.py:219-238 | supergrid corner metrics have shape (ny+e, nx+e); their points are `x[2j][2i]` (symmetric) or `x[2j+2][2i+2]` (non-symmetric), and likewise for y; the area of corner cell (j, i) sits at (j+e, i+e) and is the corner-area block sum over the padded area; in symmetric mode row 0 and column 0 of the area duplicate their neighbours |
| Classes.HgridWidths | src/momgrid/classes.py:118-198 | supergrid widths: dxt, dyt of shape (ny, nx), dxCu, dyCu of shape (ny, nx+e), dxCv, dyCv of shape (ny+e, nx) |
| Classes.FromHgrid | src/momgrid/classes.py:116-238 | every supergrid metric has the shape of its cell type in the mode requested |
| Classes.WidthsTrimmed | src/momgrid/classes.py:149-197 | non-symmetric widths are the symmetric ones without the leading column (u) or row (v); tracer widths do not depend on the mode |
| Classes.UCellTrimmed | src/momgrid/classes.py:143-169 | non-symmetric u metrics are the symmetric ones without the leading column |
| Classes.VCellTrimmed | src/momgrid/classes.py:183-208 | non-symmetric v metrics are the symmetric ones without the leading row |
| Classes.CornerCellTrimmed | src/momgrid/classes.py:221-237 | non-symmetric corner metrics are the symmetric ones without the leading row and column |
| Classes.NonSymmetricIsTrimmedSymmetric | src/momgrid/classes.py:142-237 | the whole non-symmetric grid is the symmetric one with leading columns (u), rows (v) or both (corner) sliced off, and tracer metrics unchanged |
| Classes.BuildIn | src/momgrid/classes.py:94-238 | in a resolved mode: a supergrid without `area` fails; a static file with all the variables read (and `area` when it is also a supergrid) builds, copied unchanged, and wins over a supergrid; otherwise a supergrid builds exactly its reduction in that mode; with neither format there are no metrics |
| Classes.Build | src/momgrid/classes.py:76-238 | records both detections; resolves the mode (static files override the request and propagate `is_symmetric` failures); a supergrid without `area` fails; a static file with a valid layout and all the variables read builds, copied unchanged, and wins over a supergrid; otherwise a supergrid yields exactly its reduction in the requested mode, with the shapes of that mode; with neither format there are no metrics |
| Classes.StaticBuildIgnoresRequest | src/momgrid/classes.py:82-114 | a static file builds the same grid whatever mode was requested |
| Classes.ExportIsLabelled | src/momgrid/classes.py:254-272 | with consistent shapes every exported variable lies on its dimensions with their lengths and holds its metric |
| Classes.ExportUpToAll | src/momgrid/classes.py:254-272 | walking the four cell types in order, and naming each variable by appending the cell type's suffix, gives exactly the twelve-entry labelled map written out name by name |
| Classes.ExportLoop | src/momgrid/classes.py:254-272 | the loop over `cell_types`, assigning geolon, geolat and areacello of each cell type in turn, builds exactly that twelve-entry map |
| Classes.ToXarray | src/momgrid/classes.py:240-280 | a grid without metrics fails on the missing `geolon` attribute; otherwise the export succeeds exactly when the cell shapes agree on the four dimension lengths, and then it holds the twelve labelled metrics |
| Classes.ExportOfLayout | src/momgrid/classes.py:254-272 | metrics laid out with offset e export consistently, with yh = ny, xh = nx, yq = ny + e, xq = nx + e |
| Classes.ExportClassifiedBack | src/momgrid/classes.py:254-272 | metrics laid out with offset e export dims with len(xq) - len(xh) == len(yq) - len(yh) == e, classified by `is_symmetric` as symmetric exactly when e is 1 |
| Classes.HgridExportClassifiedBack | src/momgrid/classes.py:94-272 | a grid built from a supergrid in either mode exports, and `is_symmetric` classifies its export as that mode |
| Classes.StaticExportPassesThrough | src/momgrid/classes.py:109-272 | exporting a grid built from a static file hands back the static arrays, `areacello_cu`/`_cv`/`_bu` as `areacello_u`/`_v`/`_c` |
| External.StaticToXesmf | src/momgrid/external.py:25-42 | succeeds exactly for grid type "t", symmetric dimensions and all five source variables; a grid type other than "t" is rejected before anything else; `is_symmetric` failures propagate and non-symmetric input is rejected; the output is exactly lat, lon, lat_b, lon_b, mask holding geolat, geolon, geolat_c, geolon_c, wet unchanged, so the empty `else` dataset never occurs |
| External.BoundsEncloseCentres | src/momgrid/external.py:28-38 | on an accepted file whose centres lie on (yh, xh) and corners on (yq, xq), the bounds have one more row and column than the centres |

## Left out

- Loading a source by path, `xr.open_dataset`, and the "OM4"/"OM4p5" configurations that leave the dataset unbound (classes.py lines 50-74). These are file I/O and unimplemented branches. `Build` takes the dataset itself.
- `warnings.warn` when a static file overrides the requested mode. It is a side effect only; the resolved mode is modelled.
- The `astype(hgrid_dtype)` casts and float32/float64 precision. Entries are exact reals, so the order of summation plays no role.
- Zero-row arrays. A matrix is a sequence of rows, so an array with no rows has no recorded column count (`Width` is 0). `Classes.ExportDimLens` therefore reads xh and xq as 0 when the tracer or u arrays have no rows, where xarray would keep the numpy column count. For example, a static file with t (0, 5), u (0, 6), v (1, 5) and c (1, 6) exports in momgrid but gives `DimensionConflict` in the model. Grids with at least one row in every cell type are unaffected.
- xarray internals. A dataset is abstracted as names to (dims, matrix) plus dimension lengths. Coordinates carried along with a variable, attributes and dims of length other than what the variables use are not modelled. A dimension clash in `to_xarray` is the single error `DimensionConflict`.
- The commented-out dx/dy export and the attribute TODOs in `to_xarray` (classes.py lines 274-278). They are not implemented in momgrid.
- The `symmetric` argument is a `bool`. The Python code compares with `is not`, which for non-bool arguments such as `1` would count as a mismatch.
- `assert isinstance(dset, xr.Dataset)` in `static_to_xesmf`. The Dafny type guarantees it.
- Python `assert` statements vanish under `python -O`. The model always checks them.
- That inputs are not modified. This holds by construction: every operation is a pure function of immutable values.
- Classes.Build: requires `HgridReady`, so that a supergrid has the shapes listed above (with at least one tracer cell each way) and a padded `area` has a first row and column. momgrid never checks these. On other shapes numpy raises IndexError or broadcasts, and that is not modelled.
- Classes.FromHgrid: states only the shapes. It assembles `Classes.TracerCell`, `UCell`, `VCell`, `CornerCell` and `HgridWidths`, whose contracts give the entries.
- Classes.HgridWidths: states only the shapes. Each entry is stated by `Supergrid.Dxt`, `Dyt`, `DxCu`, `DyCu`, `DxCv` and `DyCv`.
- Classes.StaticExportPassesThrough: names five of the twelve exported variables, those whose source names differ or that come from the corner cell. `Classes.ToXarray` and `Classes.FromStatic` together give all twelve.
- External.StaticToXesmf: returns the variables of the new dataset. The dimension lengths xarray would derive from them are not modelled.
