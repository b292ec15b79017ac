/**
 The `MOMgrid` object (src/momgrid/classes.py): building the metrics of the
 four staggered cell types from a dataset, and exporting them again as a
 dataset with named dimensions.

 The dataset is detected as a static file, a supergrid file, both or neither.
 A static file's own memory layout overrides the requested one. A static file
 takes precedence over a supergrid: its metrics are copied unchanged.
 Otherwise a supergrid is reduced as in module Supergrid. When neither format
 is detected the grid carries no metrics at all.
 */
module Classes {
  import opened Arrays
  import opened Datasets
  import opened Util
  import opened Supergrid

  /** Longitude, latitude and area of one cell type. */
  datatype Cell = Cell(geolon: Matrix, geolat: Matrix, areacello: Matrix)

  /** Cell widths of the tracer, u and v cells (corner cells have none). */
  datatype Widths = Widths(dxt: Matrix, dyt: Matrix, dxCu: Matrix, dyCu: Matrix, dxCv: Matrix, dyCv: Matrix)

  /** The metrics of the tracer (t), u, v and corner (c) cells, and the cell widths. */
  datatype Metrics = Metrics(t: Cell, u: Cell, v: Cell, c: Cell, w: Widths)

  /** A constructed `MOMgrid`; `metrics` is None when no attribute was set. */
  datatype Grid = Grid(isHgrid: bool, isStatic: bool, symmetric: bool, metrics: Option<Metrics>)

  // ---------------------------------------------------------------------------
  // Memory layout

  /**
   The memory mode the grid is built in. A static file is asked for its own
   layout; when that differs from the request it wins (momgrid also warns).
   */
  function ResolveSymmetric(isStatic: bool, requested: bool, dimLens: map<string, nat>): (r: Result<bool>)
    ensures isStatic ==> r == IsSymmetric(dimLens)
    ensures !isStatic ==> r == Ok(requested)
  {
    if isStatic then
      match IsSymmetric(dimLens)
      case Err(e) => Err(e)
      case Ok(detected) => if detected != requested then Ok(detected) else Ok(requested)
    else
      Ok(requested)
  }

  /** For a static file the request makes no difference to the outcome. */
  lemma StaticLayoutIgnoresRequest(dimLens: map<string, nat>, a: bool, b: bool)
    ensures ResolveSymmetric(true, a, dimLens) == ResolveSymmetric(true, b, dimLens)
  {
  }

  // ---------------------------------------------------------------------------
  // Static files

  /** The static-file variables the builder reads. */
  const StaticReads: set<string> := {
    "geolon", "geolat", "areacello", "dxt", "dyt",
    "geolon_u", "geolat_u", "areacello_cu", "dxCu", "dyCu",
    "geolon_v", "geolat_v", "areacello_cv", "dxCv", "dyCv",
    "geolon_c", "geolat_c", "areacello_bu"}

  /**
   The metrics are the static file's own arrays, unchanged; the u, v and corner
   areas come from `areacello_cu`, `areacello_cv` and `areacello_bu`.
   */
  predicate CopiedFrom(m: Metrics, vars: map<string, Variable>)
    requires StaticReads <= vars.Keys
  {
    && m.t == Cell(vars["geolon"].data, vars["geolat"].data, vars["areacello"].data)
    && m.u == Cell(vars["geolon_u"].data, vars["geolat_u"].data, vars["areacello_cu"].data)
    && m.v == Cell(vars["geolon_v"].data, vars["geolat_v"].data, vars["areacello_cv"].data)
    && m.c == Cell(vars["geolon_c"].data, vars["geolat_c"].data, vars["areacello_bu"].data)
    && m.w == Widths(vars["dxt"].data, vars["dyt"].data, vars["dxCu"].data, vars["dyCu"].data,
                     vars["dxCv"].data, vars["dyCv"].data)
  }

  /** The static branches of `MOMgrid.__init__`, reading in momgrid's order. */
  function FromStatic(vars: map<string, Variable>): (r: Result<Metrics>)
    ensures r.Ok? <==> StaticReads <= vars.Keys
    ensures r.Ok? ==> CopiedFrom(r.value, vars)
    ensures r.Err? ==> r.error.MissingVariable? && r.error.name in StaticReads && r.error.name !in vars
  {
    var geolon :- Get(vars, "geolon");
    var geolat :- Get(vars, "geolat");
    var areacello :- Get(vars, "areacello");
    var dxt :- Get(vars, "dxt");
    var dyt :- Get(vars, "dyt");
    var geolonU :- Get(vars, "geolon_u");
    var geolatU :- Get(vars, "geolat_u");
    var areacelloU :- Get(vars, "areacello_cu");
    var dxCu :- Get(vars, "dxCu");
    var dyCu :- Get(vars, "dyCu");
    var geolonV :- Get(vars, "geolon_v");
    var geolatV :- Get(vars, "geolat_v");
    var areacelloV :- Get(vars, "areacello_cv");
    var dxCv :- Get(vars, "dxCv");
    var dyCv :- Get(vars, "dyCv");
    var geolonC :- Get(vars, "geolon_c");
    var geolatC :- Get(vars, "geolat_c");
    var areacelloC :- Get(vars, "areacello_bu");
    Ok(Metrics(
      Cell(geolon, geolat, areacello), Cell(geolonU, geolatU, areacelloU),
      Cell(geolonV, geolatV, areacelloV), Cell(geolonC, geolatC, areacelloC),
      Widths(dxt, dyt, dxCu, dyCu, dxCv, dyCv)))
  }

  // ---------------------------------------------------------------------------
  // Supergrid files

  /** The arrays of the supergrid variables. */
  function HgridOf(ds: Dataset): Hgrid
    requires IsHgrid(ds.vars.Keys) && "area" in ds.vars
  {
    Hgrid(ds.vars["x"].data, ds.vars["y"].data, ds.vars["dx"].data, ds.vars["dy"].data, ds.vars["area"].data)
  }

  /** The widths have the shapes of their cell types; `e` is the symmetric-mode extra row/column. */
  predicate WidthsLayout(w: Widths, ny: nat, nx: nat, e: nat) {
    && IsShape(w.dxt, ny, nx) && IsShape(w.dyt, ny, nx)
    && IsShape(w.dxCu, ny, nx + e) && IsShape(w.dyCu, ny, nx + e)
    && IsShape(w.dxCv, ny + e, nx) && IsShape(w.dyCv, ny + e, nx)
  }

  predicate CellLayout(c: Cell, rows: nat, cols: nat) {
    IsShape(c.geolon, rows, cols) && IsShape(c.geolat, rows, cols) && IsShape(c.areacello, rows, cols)
  }

  /** Every metric has the shape of its cell type. */
  predicate HasLayout(m: Metrics, ny: nat, nx: nat, e: nat) {
    && CellLayout(m.t, ny, nx) && CellLayout(m.u, ny, nx + e)
    && CellLayout(m.v, ny + e, nx) && CellLayout(m.c, ny + e, nx + e)
    && WidthsLayout(m.w, ny, nx, e)
  }

  /**
   Tracer cell from a supergrid, entry by entry in supergrid indices. The area
   sums the padded array, so away from the south and west edges it is the 2x2
   block one supergrid row and column south-west of the cell.
   */
  function TracerCell(g: Hgrid): (c: Cell)
    requires Valid(g)
    ensures CellLayout(c, Ny(g), Nx(g))
    ensures forall j, i :: 0 <= j < Ny(g) && 0 <= i < Nx(g) ==>
              c.geolon[j][i] == g.x[2 * j + 1][2 * i + 1] && c.geolat[j][i] == g.y[2 * j + 1][2 * i + 1]
    ensures forall j, i :: 0 <= j < Ny(g) && 0 <= i < Nx(g) ==>
              c.areacello[j][i] ==
              g.area[Max0(2 * j - 1)][Max0(2 * i - 1)] + g.area[2 * j][2 * i]
              + g.area[Max0(2 * j - 1)][2 * i] + g.area[2 * j][Max0(2 * i - 1)]
  {
    var ny, nx := Ny(g), Nx(g);
    var p := PadArea(g.area, ny, nx);
    Cell(TracerPoints(g.x, ny, nx), TracerPoints(g.y, ny, nx), TracerArea(p, ny, nx))
  }

  function UCell(g: Hgrid, symmetric: bool): (c: Cell)
    requires Valid(g)
    ensures CellLayout(c, Ny(g), Nx(g) + Extra(symmetric))
    ensures symmetric ==> forall j, i :: 0 <= j < Ny(g) && 0 <= i < Nx(g) + 1 ==>
              c.geolon[j][i] == g.x[2 * j + 1][2 * i] && c.geolat[j][i] == g.y[2 * j + 1][2 * i]
    ensures !symmetric ==> forall j, i :: 0 <= j < Ny(g) && 0 <= i < Nx(g) ==>
              c.geolon[j][i] == g.x[2 * j + 1][2 * i + 2] && c.geolat[j][i] == g.y[2 * j + 1][2 * i + 2]
    ensures forall j, i :: 0 <= j < Ny(g) && 0 <= i < Nx(g) ==>
              c.areacello[j][i + Extra(symmetric)] == UAreaAt(PadArea(g.area, Ny(g), Nx(g)), Ny(g), Nx(g), j, i)
    ensures symmetric ==> forall j :: 0 <= j < Ny(g) ==> c.areacello[j][0] == c.areacello[j][1]
  {
    var ny, nx := Ny(g), Nx(g);
    var p := PadArea(g.area, ny, nx);
    Cell(UPoints(g.x, ny, nx, symmetric), UPoints(g.y, ny, nx, symmetric), UArea(p, ny, nx, symmetric))
  }

  function VCell(g: Hgrid, symmetric: bool): (c: Cell)
    requires Valid(g)
    ensures CellLayout(c, Ny(g) + Extra(symmetric), Nx(g))
    ensures symmetric ==> forall j, i :: 0 <= j < Ny(g) + 1 && 0 <= i < Nx(g) ==>
              c.geolon[j][i] == g.x[2 * j][2 * i + 1] && c.geolat[j][i] == g.y[2 * j][2 * i + 1]
    ensures !symmetric ==> forall j, i :: 0 <= j < Ny(g) && 0 <= i < Nx(g) ==>
              c.geolon[j][i] == g.x[2 * j + 2][2 * i + 1] && c.geolat[j][i] == g.y[2 * j + 2][2 * i + 1]
    ensures forall j, i :: 0 <= j < Ny(g) && 0 <= i < Nx(g) ==>
              c.areacello[j + Extra(symmetric)][i] == VAreaAt(PadArea(g.area, Ny(g), Nx(g)), Ny(g), Nx(g), j, i)
    ensures symmetric ==> forall i :: 0 <= i < Nx(g) ==> c.areacello[0][i] == c.areacello[1][i]
  {
    var ny, nx := Ny(g), Nx(g);
    var p := PadArea(g.area, ny, nx);
    Cell(VPoints(g.x, ny, nx, symmetric), VPoints(g.y, ny, nx, symmetric), VArea(p, ny, nx, symmetric))
  }

  function CornerCell(g: Hgrid, symmetric: bool): (c: Cell)
    requires Valid(g)
    ensures CellLayout(c, Ny(g) + Extra(symmetric), Nx(g) + Extra(symmetric))
    ensures symmetric ==> forall j, i :: 0 <= j < Ny(g) + 1 && 0 <= i < Nx(g) + 1 ==>
              c.geolon[j][i] == g.x[2 * j][2 * i] && c.geolat[j][i] == g.y[2 * j][2 * i]
    ensures !symmetric ==> forall j, i :: 0 <= j < Ny(g) && 0 <= i < Nx(g) ==>
              c.geolon[j][i] == g.x[2 * j + 2][2 * i + 2] && c.geolat[j][i] == g.y[2 * j + 2][2 * i + 2]
    ensures forall j, i :: 0 <= j < Ny(g) && 0 <= i < Nx(g) ==>
              c.areacello[j + Extra(symmetric)][i + Extra(symmetric)]
              == CornerAreaAt(PadArea(g.area, Ny(g), Nx(g)), Ny(g), Nx(g), j, i)
    ensures symmetric ==> forall i :: 0 <= i < Nx(g) + 1 ==> c.areacello[0][i] == c.areacello[1][i]
    ensures symmetric ==> forall j :: 0 <= j < Ny(g) + 1 ==> c.areacello[j][0] == c.areacello[j][1]
  {
    var ny, nx := Ny(g), Nx(g);
    var p := PadArea(g.area, ny, nx);
    Cell(CornerPoints(g.x, ny, nx, symmetric), CornerPoints(g.y, ny, nx, symmetric), CornerArea(p, ny, nx, symmetric))
  }

  /**
   Cell widths from a supergrid. Each entry's closed form is stated by the
   Supergrid function that computes it; note that `dyCv` reuses the `dyCu`
   expression.
   */
  function HgridWidths(g: Hgrid, symmetric: bool): (w: Widths)
    requires Valid(g)
    ensures WidthsLayout(w, Ny(g), Nx(g), Extra(symmetric))
  {
    var ny, nx := Ny(g), Nx(g);
    Widths(Dxt(g.dx, ny, nx), Dyt(g.dy, ny, nx),
           DxCu(g.dx, ny, nx, symmetric), DyCu(g.dy, ny, nx, symmetric),
           DxCv(g.dx, ny, nx, symmetric), DyCv(g.dy, ny, nx, symmetric))
  }

  /** The supergrid branches of `MOMgrid.__init__`. */
  function FromHgrid(g: Hgrid, symmetric: bool): (m: Metrics)
    requires Valid(g)
    ensures HasLayout(m, Ny(g), Nx(g), Extra(symmetric))
  {
    Metrics(TracerCell(g), UCell(g, symmetric), VCell(g, symmetric), CornerCell(g, symmetric),
            HgridWidths(g, symmetric))
  }

  /** Non-symmetric widths: the u widths lose their leading column, the v widths their leading row. */
  lemma WidthsTrimmed(g: Hgrid)
    requires Valid(g)
    ensures var s, n, ny, nx := HgridWidths(g, true), HgridWidths(g, false), Ny(g), Nx(g);
            && n.dxt == s.dxt && n.dyt == s.dyt
            && n.dxCu == DropFirstCol(s.dxCu, ny, nx + 1)
            && n.dyCu == DropFirstCol(s.dyCu, ny, nx + 1)
            && n.dxCv == DropFirstRow(s.dxCv)
            && n.dyCv == DropFirstRow(s.dyCv)
  {
  }

  /** Non-symmetric u cells are the symmetric ones without their leading column. */
  lemma UCellTrimmed(g: Hgrid)
    requires Valid(g)
    ensures var s, n, ny, nx := UCell(g, true), UCell(g, false), Ny(g), Nx(g);
            && n.geolon == DropFirstCol(s.geolon, ny, nx + 1)
            && n.geolat == DropFirstCol(s.geolat, ny, nx + 1)
            && n.areacello == DropFirstCol(s.areacello, ny, nx + 1)
  {
  }

  /** Non-symmetric v cells are the symmetric ones without their leading row. */
  lemma VCellTrimmed(g: Hgrid)
    requires Valid(g)
    ensures var s, n := VCell(g, true), VCell(g, false);
            && n.geolon == DropFirstRow(s.geolon)
            && n.geolat == DropFirstRow(s.geolat)
            && n.areacello == DropFirstRow(s.areacello)
  {
  }

  /** Non-symmetric corner cells are the symmetric ones without leading row and column. */
  lemma CornerCellTrimmed(g: Hgrid)
    requires Valid(g)
    ensures var s, n, ny, nx := CornerCell(g, true), CornerCell(g, false), Ny(g), Nx(g);
            && n.geolon == DropFirstRowAndCol(s.geolon, ny, nx)
            && n.geolat == DropFirstRowAndCol(s.geolat, ny, nx)
            && n.areacello == DropFirstRowAndCol(s.areacello, ny, nx)
  {
    var ny, nx := Ny(g), Nx(g);
    CornerPointsTrimmed(g.x, ny, nx);
    CornerPointsTrimmed(g.y, ny, nx);
    CornerAreaTrimmed(PadArea(g.area, ny, nx), ny, nx);
  }

  /**
   Non-symmetric metrics are the symmetric ones with the leading column (u),
   row (v) or both (corner) sliced off; tracer metrics do not depend on the mode.
   */
  lemma NonSymmetricIsTrimmedSymmetric(g: Hgrid)
    requires Valid(g)
    ensures var s, n, ny, nx := FromHgrid(g, true), FromHgrid(g, false), Ny(g), Nx(g);
            && n.t == s.t
            && n.u == Cell(DropFirstCol(s.u.geolon, ny, nx + 1), DropFirstCol(s.u.geolat, ny, nx + 1),
                           DropFirstCol(s.u.areacello, ny, nx + 1))
            && n.v == Cell(DropFirstRow(s.v.geolon), DropFirstRow(s.v.geolat), DropFirstRow(s.v.areacello))
            && n.c == Cell(DropFirstRowAndCol(s.c.geolon, ny, nx),
                           DropFirstRowAndCol(s.c.geolat, ny, nx),
                           DropFirstRowAndCol(s.c.areacello, ny, nx))
            && n.w.dxt == s.w.dxt && n.w.dyt == s.w.dyt
            && n.w.dxCu == DropFirstCol(s.w.dxCu, ny, nx + 1)
            && n.w.dyCu == DropFirstCol(s.w.dyCu, ny, nx + 1)
            && n.w.dxCv == DropFirstRow(s.w.dxCv)
            && n.w.dyCv == DropFirstRow(s.w.dyCv)
  {
    UCellTrimmed(g);
    VCellTrimmed(g);
    CornerCellTrimmed(g);
    WidthsTrimmed(g);
  }

  // ---------------------------------------------------------------------------
  // The constructor

  /**
   What the constructor silently relies on when it finds supergrid variables:
   an `area` it can pad (at least one row and one column) and, when the
   supergrid is actually reduced, arrays of matching supergrid shapes.
   */
  predicate HgridReady(ds: Dataset) {
    IsHgrid(ds.vars.Keys) && "area" in ds.vars ==>
      if IsStatic(ds.vars.Keys) then
        var area := ds.vars["area"].data;
        |area| >= 1 && Width(area) >= 1 && IsShape(area, |area|, Width(area))
      else
        Valid(HgridOf(ds))
  }

  /** The constructor once the memory mode is resolved: which metrics it sets. */
  function BuildIn(ds: Dataset, symmetric: bool): (r: Result<Grid>)
    requires HgridReady(ds)
    ensures r.Ok? ==> && r.value.isHgrid == IsHgrid(ds.vars.Keys) && r.value.isStatic == IsStatic(ds.vars.Keys)
                      && r.value.symmetric == symmetric
    ensures IsHgrid(ds.vars.Keys) && "area" !in ds.vars ==> r == Err(MissingVariable("area"))
    ensures IsStatic(ds.vars.Keys) && r.Ok? ==>
              && StaticReads <= ds.vars.Keys
              && r.value.metrics.Some? && CopiedFrom(r.value.metrics.value, ds.vars)
    ensures (&& IsStatic(ds.vars.Keys) && StaticReads <= ds.vars.Keys
             && (IsHgrid(ds.vars.Keys) ==> "area" in ds.vars)) ==> r.Ok?
    ensures !IsStatic(ds.vars.Keys) && IsHgrid(ds.vars.Keys) ==> (r.Ok? <==> "area" in ds.vars)
    ensures !IsStatic(ds.vars.Keys) && IsHgrid(ds.vars.Keys) && r.Ok? ==>
              && Valid(HgridOf(ds)) && r.value.metrics == Some(FromHgrid(HgridOf(ds), symmetric))
    ensures !IsStatic(ds.vars.Keys) && !IsHgrid(ds.vars.Keys) ==> r == Ok(Grid(false, false, symmetric, None))
  {
    var names := ds.vars.Keys;
    var isHgrid := IsHgrid(names);
    var isStatic := IsStatic(names);
    if isHgrid && "area" !in ds.vars then Err(MissingVariable("area"))
    else if isStatic then
      match FromStatic(ds.vars)
      case Err(e) => Err(e)
      case Ok(m) => Ok(Grid(isHgrid, isStatic, symmetric, Some(m)))
    else if isHgrid then
      Ok(Grid(isHgrid, isStatic, symmetric, Some(FromHgrid(HgridOf(ds), symmetric))))
    else
      Ok(Grid(isHgrid, isStatic, symmetric, None))
  }

  /** `MOMgrid(ds, symmetric=requested)`. */
  function Build(ds: Dataset, requested: bool): (r: Result<Grid>)
    requires HgridReady(ds)
    ensures r.Ok? ==> r.value.isHgrid == IsHgrid(ds.vars.Keys) && r.value.isStatic == IsStatic(ds.vars.Keys)
    // memory layout
    ensures !IsStatic(ds.vars.Keys) && r.Ok? ==> r.value.symmetric == requested
    ensures IsStatic(ds.vars.Keys) && r.Ok? ==> IsSymmetric(ds.dimLens) == Ok(r.value.symmetric)
    ensures IsStatic(ds.vars.Keys) && IsSymmetric(ds.dimLens).Err? ==> r == Err(IsSymmetric(ds.dimLens).error)
    // a static file wins and is copied unchanged
    ensures IsStatic(ds.vars.Keys) && r.Ok? ==>
              && StaticReads <= ds.vars.Keys
              && r.value.metrics.Some? && CopiedFrom(r.value.metrics.value, ds.vars)
    ensures (&& IsStatic(ds.vars.Keys) && IsSymmetric(ds.dimLens).Ok? && StaticReads <= ds.vars.Keys
             && (IsHgrid(ds.vars.Keys) ==> "area" in ds.vars)) ==> r.Ok?
    // otherwise a supergrid is reduced
    ensures !IsStatic(ds.vars.Keys) && IsHgrid(ds.vars.Keys) ==>
              (r.Ok? <==> "area" in ds.vars)
    ensures !IsStatic(ds.vars.Keys) && IsHgrid(ds.vars.Keys) && r.Ok? ==>
              && Valid(HgridOf(ds)) && r.value.metrics.Some?
              && HasLayout(r.value.metrics.value, Ny(HgridOf(ds)), Nx(HgridOf(ds)), Extra(requested))
              && r.value.metrics.value == FromHgrid(HgridOf(ds), requested)
    ensures IsHgrid(ds.vars.Keys) && "area" !in ds.vars ==> r.Err?
    // neither: no metrics
    ensures !IsStatic(ds.vars.Keys) && !IsHgrid(ds.vars.Keys) ==> r == Ok(Grid(false, false, requested, None))
  {
    match ResolveSymmetric(IsStatic(ds.vars.Keys), requested, ds.dimLens)
    case Err(e) => Err(e)
    case Ok(symmetric) => BuildIn(ds, symmetric)
  }

  /** A static file is built the same whatever memory mode was requested. */
  lemma StaticBuildIgnoresRequest(ds: Dataset, a: bool, b: bool)
    requires HgridReady(ds) && IsStatic(ds.vars.Keys)
    ensures Build(ds, a) == Build(ds, b)
  {
    StaticLayoutIgnoresRequest(ds.dimLens, a, b);
  }

  // ---------------------------------------------------------------------------
  // Export

  /** The names `to_xarray` exports: tracer, u, v and corner cells. */
  const ExportNames: set<string> := {
    "geolon", "geolat", "areacello", "geolon_u", "geolat_u", "areacello_u",
    "geolon_v", "geolat_v", "areacello_v", "geolon_c", "geolat_c", "areacello_c"}

  /** The exported variable of each name holds the matching metric. */
  predicate Exports(m: Metrics, vars: map<string, Variable>)
    requires ExportNames <= vars.Keys
  {
    && vars["geolon"].data == m.t.geolon && vars["geolat"].data == m.t.geolat
    && vars["areacello"].data == m.t.areacello
    && vars["geolon_u"].data == m.u.geolon && vars["geolat_u"].data == m.u.geolat
    && vars["areacello_u"].data == m.u.areacello
    && vars["geolon_v"].data == m.v.geolon && vars["geolat_v"].data == m.v.geolat
    && vars["areacello_v"].data == m.v.areacello
    && vars["geolon_c"].data == m.c.geolon && vars["geolat_c"].data == m.c.geolat
    && vars["areacello_c"].data == m.c.areacello
  }

  function ExportVars(m: Metrics): map<string, Variable> {
    map[
      "geolon" := Variable(["yh", "xh"], m.t.geolon),
      "geolat" := Variable(["yh", "xh"], m.t.geolat),
      "areacello" := Variable(["yh", "xh"], m.t.areacello),
      "geolon_u" := Variable(["yh", "xq"], m.u.geolon),
      "geolat_u" := Variable(["yh", "xq"], m.u.geolat),
      "areacello_u" := Variable(["yh", "xq"], m.u.areacello),
      "geolon_v" := Variable(["yq", "xh"], m.v.geolon),
      "geolat_v" := Variable(["yq", "xh"], m.v.geolat),
      "areacello_v" := Variable(["yq", "xh"], m.v.areacello),
      "geolon_c" := Variable(["yq", "xq"], m.c.geolon),
      "geolat_c" := Variable(["yq", "xq"], m.c.geolat),
      "areacello_c" := Variable(["yq", "xq"], m.c.areacello)]
  }

  /**
   Dimension lengths as xarray fixes them: by the first variable that uses
   each dimension (geolon for yh and xh, geolon_u for xq, geolon_v for yq).
   */
  function ExportDimLens(m: Metrics): map<string, nat> {
    map["yh" := |m.t.geolon|, "xh" := Width(m.t.geolon), "xq" := Width(m.u.geolon), "yq" := |m.v.geolon|]
  }

  /** The cell shapes agree with the dimension lengths xarray fixes, so no dimension clashes. */
  predicate Consistent(m: Metrics) {
    var d := ExportDimLens(m);
    && CellLayout(m.t, d["yh"], d["xh"]) && CellLayout(m.u, d["yh"], d["xq"])
    && CellLayout(m.v, d["yq"], d["xh"]) && CellLayout(m.c, d["yq"], d["xq"])
  }

  /** Variable `n` is labelled with dimensions `y`, `x` and has their lengths. */
  predicate OnDims(ds: Dataset, n: string, y: string, x: string) {
    && n in ds.vars && y in ds.dimLens && x in ds.dimLens
    && ds.vars[n].dims == [y, x]
    && IsShape(ds.vars[n].data, ds.dimLens[y], ds.dimLens[x])
  }

  /** Exactly the export names, each on the dimensions of its cell type. */
  predicate Labelled(ds: Dataset) {
    && ds.vars.Keys == ExportNames
    && ds.dimLens.Keys == {"yh", "xh", "yq", "xq"}
    && OnDims(ds, "geolon", "yh", "xh") && OnDims(ds, "geolat", "yh", "xh") && OnDims(ds, "areacello", "yh", "xh")
    && OnDims(ds, "geolon_u", "yh", "xq") && OnDims(ds, "geolat_u", "yh", "xq") && OnDims(ds, "areacello_u", "yh", "xq")
    && OnDims(ds, "geolon_v", "yq", "xh") && OnDims(ds, "geolat_v", "yq", "xh") && OnDims(ds, "areacello_v", "yq", "xh")
    && OnDims(ds, "geolon_c", "yq", "xq") && OnDims(ds, "geolat_c", "yq", "xq") && OnDims(ds, "areacello_c", "yq", "xq")
  }

  lemma ExportKeys(m: Metrics)
    ensures ExportVars(m).Keys == ExportNames
    ensures ExportDimLens(m).Keys == {"yh", "xh", "yq", "xq"}
  {
  }

  /** Each exported variable, looked up by name. */
  lemma ExportEntries(m: Metrics)
    ensures var v := ExportVars(m);
            && v["geolon"] == Variable(["yh", "xh"], m.t.geolon)
            && v["geolat"] == Variable(["yh", "xh"], m.t.geolat)
            && v["areacello"] == Variable(["yh", "xh"], m.t.areacello)
            && v["geolon_u"] == Variable(["yh", "xq"], m.u.geolon)
            && v["geolat_u"] == Variable(["yh", "xq"], m.u.geolat)
            && v["areacello_u"] == Variable(["yh", "xq"], m.u.areacello)
            && v["geolon_v"] == Variable(["yq", "xh"], m.v.geolon)
            && v["geolat_v"] == Variable(["yq", "xh"], m.v.geolat)
            && v["areacello_v"] == Variable(["yq", "xh"], m.v.areacello)
            && v["geolon_c"] == Variable(["yq", "xq"], m.c.geolon)
            && v["geolat_c"] == Variable(["yq", "xq"], m.c.geolat)
            && v["areacello_c"] == Variable(["yq", "xq"], m.c.areacello)
  {
  }

  lemma ExportIsLabelled(m: Metrics)
    requires Consistent(m)
    ensures Labelled(Dataset(ExportVars(m), ExportDimLens(m)))
    ensures Exports(m, ExportVars(m))
  {
    ExportKeys(m);
    ExportEntries(m);
  }

  /** One entry of `cell_types` in `to_xarray`: a name suffix and the cell's dimensions. */
  datatype CellType = CellType(suffix: string, y: string, x: string)

  /** The cell types in the order the export walks them: tracer, u, v, corner. */
  const CellTypes: seq<CellType> :=
    [CellType("", "yh", "xh"), CellType("_u", "yh", "xq"), CellType("_v", "yq", "xh"), CellType("_c", "yq", "xq")]

  /** The metrics of the `k`-th cell type. */
  function CellOf(m: Metrics, k: nat): (c: Cell)
    requires k < |CellTypes|
  {
    if k == 0 then m.t else if k == 1 then m.u else if k == 2 then m.v else m.c
  }

  /** `vars` after one pass of the export loop for cell type `ct`. */
  function AddCell(vars: map<string, Variable>, ct: CellType, c: Cell): map<string, Variable> {
    vars["geolon" + ct.suffix := Variable([ct.y, ct.x], c.geolon)]
        ["geolat" + ct.suffix := Variable([ct.y, ct.x], c.geolat)]
        ["areacello" + ct.suffix := Variable([ct.y, ct.x], c.areacello)]
  }

  /** The variables after the first `k` passes of the export loop. */
  function ExportUpTo(m: Metrics, k: nat): map<string, Variable>
    requires k <= |CellTypes|
  {
    if k == 0 then map[] else AddCell(ExportUpTo(m, k - 1), CellTypes[k - 1], CellOf(m, k - 1))
  }

  /** All four passes give the twelve named variables. */
  lemma {:induction false} ExportUpToAll(m: Metrics)
    ensures ExportUpTo(m, |CellTypes|) == ExportVars(m)
  {
    var t := AddCell(map[], CellTypes[0], m.t);
    var u := AddCell(t, CellTypes[1], m.u);
    var v := AddCell(u, CellTypes[2], m.v);
    assert ExportUpTo(m, 1) == t;
    assert ExportUpTo(m, 2) == u;
    assert ExportUpTo(m, 3) == v;
    assert ExportUpTo(m, 4) == AddCell(v, CellTypes[3], m.c);
    assert "geolon" + "" == "geolon" && "geolat" + "" == "geolat" && "areacello" + "" == "areacello";
    assert "geolon" + "_u" == "geolon_u" && "geolat" + "_u" == "geolat_u" && "areacello" + "_u" == "areacello_u";
    assert "geolon" + "_v" == "geolon_v" && "geolat" + "_v" == "geolat_v" && "areacello" + "_v" == "areacello_v";
    assert "geolon" + "_c" == "geolon_c" && "geolat" + "_c" == "geolat_c" && "areacello" + "_c" == "areacello_c";
  }

  /** The loop of `to_xarray`, assigning three variables per cell type. */
  method ExportLoop(m: Metrics) returns (vars: map<string, Variable>)
    ensures vars == ExportVars(m)
  {
    vars := map[];
    for k := 0 to |CellTypes|
      invariant vars == ExportUpTo(m, k)
    {
      var ct, c := CellTypes[k], CellOf(m, k);
      vars := vars["geolon" + ct.suffix := Variable([ct.y, ct.x], c.geolon)];
      vars := vars["geolat" + ct.suffix := Variable([ct.y, ct.x], c.geolat)];
      vars := vars["areacello" + ct.suffix := Variable([ct.y, ct.x], c.areacello)];
    }
    ExportUpToAll(m);
  }

  /** `MOMgrid.to_xarray()`. */
  function ToXarray(grid: Grid): (r: Result<Dataset>)
    ensures grid.metrics.None? ==> r == Err(MissingAttribute("geolon"))
    ensures grid.metrics.Some? ==> (r.Ok? <==> Consistent(grid.metrics.value))
    ensures r.Ok? ==> Labelled(r.value) && Exports(grid.metrics.value, r.value.vars)
    ensures r.Ok? ==> r.value.dimLens == ExportDimLens(grid.metrics.value)
    ensures r.Err? && grid.metrics.Some? ==> r.error == DimensionConflict
  {
    match grid.metrics
    case None => Err(MissingAttribute("geolon"))
    case Some(m) =>
      if Consistent(m) then
        ExportIsLabelled(m);
        Ok(Dataset(ExportVars(m), ExportDimLens(m)))
      else Err(DimensionConflict)
  }

  /** Metrics laid out with offset `e` export with the matching dimension lengths. */
  lemma ExportOfLayout(m: Metrics, ny: nat, nx: nat, e: nat)
    requires ny >= 1 && HasLayout(m, ny, nx, e)
    ensures Consistent(m)
    ensures ExportDimLens(m) == map["yh" := ny, "xh" := nx, "xq" := nx + e, "yq" := ny + e]
  {
  }

  /**
   The layout round trip: metrics laid out with offset `e` export dimensions
   with len(xq) - len(xh) == len(yq) - len(yh) == e, which `is_symmetric`
   classifies back as symmetric exactly when `e` is 1.
   */
  lemma ExportClassifiedBack(grid: Grid, ny: nat, nx: nat, e: nat)
    requires e <= 1 && ny >= 1
    requires grid.metrics.Some? && HasLayout(grid.metrics.value, ny, nx, e)
    ensures ToXarray(grid).Ok?
    ensures var out := ToXarray(grid).value;
            && HasDims(out.dimLens, "xh", "yh", "xq", "yq")
            && Delta(out.dimLens, "xq", "xh") == Delta(out.dimLens, "yq", "yh") == e
            && IsSymmetric(out.dimLens) == Ok(e == 1)
  {
    var m := grid.metrics.value;
    ExportOfLayout(m, ny, nx, e);
    IsSymmetricOfOffset(ExportDimLens(m), ny, nx, e);
  }

  /** A grid built from a supergrid in either memory mode exports dimensions classified back as that mode. */
  lemma HgridExportClassifiedBack(ds: Dataset, requested: bool)
    requires HgridReady(ds)
    requires IsHgrid(ds.vars.Keys) && !IsStatic(ds.vars.Keys) && "area" in ds.vars
    ensures Build(ds, requested).Ok?
    ensures ToXarray(Build(ds, requested).value).Ok?
    ensures IsSymmetric(ToXarray(Build(ds, requested).value).value.dimLens) == Ok(requested)
  {
    var g := HgridOf(ds);
    ExportClassifiedBack(Build(ds, requested).value, Ny(g), Nx(g), Extra(requested));
  }

  /**
   Exporting a grid built from a static file hands back the static file's own
   arrays under the export names (`areacello_cu` as `areacello_u`, and so on).
   */
  lemma StaticExportPassesThrough(ds: Dataset, requested: bool)
    requires HgridReady(ds) && IsStatic(ds.vars.Keys)
    requires Build(ds, requested).Ok? && ToXarray(Build(ds, requested).value).Ok?
    ensures var out := ToXarray(Build(ds, requested).value).value.vars;
            && "areacello_bu" in ds.vars && "areacello_cu" in ds.vars && "areacello_cv" in ds.vars
            && out["geolon"] == Variable(["yh", "xh"], ds.vars["geolon"].data)
            && out["areacello_u"] == Variable(["yh", "xq"], ds.vars["areacello_cu"].data)
            && out["areacello_v"] == Variable(["yq", "xh"], ds.vars["areacello_cv"].data)
            && out["areacello_c"] == Variable(["yq", "xq"], ds.vars["areacello_bu"].data)
            && out["geolat_c"] == Variable(["yq", "xq"], ds.vars["geolat_c"].data)
  {
  }
}
