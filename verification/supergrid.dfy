/**
 Reducing an ocean_hgrid.nc supergrid to the metrics of the four staggered
 cell types (src/momgrid/classes.py, the `is_hgrid` branches of
 `MOMgrid.__init__`).

 The supergrid has twice the model resolution. For a model grid of `ny` by
 `nx` tracer cells:
   x, y  : (2ny+1, 2nx+1) point coordinates
   dx    : (2ny+1, 2nx)   widths of the supergrid edges along x
   dy    : (2ny, 2nx+1)   widths of the supergrid edges along y
   area  : (2ny, 2nx)     areas of the supergrid cells
 Tracer points sit at odd/odd supergrid indices, u points at odd/even, v
 points at even/odd and corners at even/even.

 Each field is composed from stride-2 slices, sums, padding and one
 `np.roll`; the contracts give the closed form of each entry
 in supergrid indices. In symmetric memory mode the u, v and corner fields keep
 one extra leading column, row or both; `Extra(symmetric)` is that offset.
 */
module Supergrid {
  import opened Arrays

  datatype Hgrid = Hgrid(x: Matrix, y: Matrix, dx: Matrix, dy: Matrix, area: Matrix)

  /** Tracer rows and columns of the model grid the supergrid describes. */
  function Ny(g: Hgrid): nat { |g.area| / 2 }
  function Nx(g: Hgrid): nat { Width(g.area) / 2 }

  /** The supergrid arrays have the shapes the builder silently relies on. */
  predicate Valid(g: Hgrid) {
    var ny, nx := Ny(g), Nx(g);
    && ny >= 1 && nx >= 1
    && IsShape(g.x, 2 * ny + 1, 2 * nx + 1)
    && IsShape(g.y, 2 * ny + 1, 2 * nx + 1)
    && IsShape(g.dx, 2 * ny + 1, 2 * nx)
    && IsShape(g.dy, 2 * ny, 2 * nx + 1)
    && IsShape(g.area, 2 * ny, 2 * nx)
  }

  /** The leading row or column symmetric memory mode keeps: 1, or 0 when dropped. */
  function Extra(symmetric: bool): nat {
    if symmetric then 1 else 0
  }

  function Add4(a: Matrix, b: Matrix, c: Matrix, d: Matrix, rows: nat, cols: nat): (r: Matrix)
    requires IsShape(a, rows, cols) && IsShape(b, rows, cols)
    requires IsShape(c, rows, cols) && IsShape(d, rows, cols)
    ensures IsShape(r, rows, cols)
    ensures forall j, i :: 0 <= j < rows && 0 <= i < cols ==>
              r[j][i] == a[j][i] + b[j][i] + c[j][i] + d[j][i]
  {
    Add(Add(Add(a, b, rows, cols), c, rows, cols), d, rows, cols)
  }


  // ---------------------------------------------------------------------------
  // Closed forms: each entry of a staggered field in supergrid indices

  /** u-cell x-width at u point (j, i): the edge east of it plus, wrapping round, the edge at the next u point. */
  function DxCuAt(dx: Matrix, ny: nat, nx: nat, j: nat, i: nat): real
    requires IsShape(dx, 2 * ny + 1, 2 * nx) && j < ny && i < nx
  {
    dx[2 * j + 1][2 * i] + dx[2 * j + 1][2 * NextCyclic(i, nx)]
  }

  /** u-cell y-width at u point (j, i): the two edges through the next u point east. */
  function DyCuAt(dy: Matrix, ny: nat, nx: nat, j: nat, i: nat): real
    requires IsShape(dy, 2 * ny, 2 * nx + 1) && j < ny && i < nx
  {
    dy[2 * j][2 * i + 2] + dy[2 * j + 1][2 * i + 2]
  }

  /** v-cell x-width at v point (j, i): the two edges through the next v point north. */
  function DxCvAt(dx: Matrix, ny: nat, nx: nat, j: nat, i: nat): real
    requires IsShape(dx, 2 * ny + 1, 2 * nx) && j < ny && i < nx
  {
    dx[2 * j + 2][2 * i] + dx[2 * j + 2][2 * i + 1]
  }

  /** u-cell area at (j, i): a 2x2 block of the padded area `p`. */
  function UAreaAt(p: Matrix, ny: nat, nx: nat, j: nat, i: nat): real
    requires IsShape(p, 2 * ny + 1, 2 * nx + 1) && j < ny && i < nx
  {
    p[2 * j][2 * i + 1] + p[2 * j + 1][2 * i + 2] + p[2 * j][2 * i + 2] + p[2 * j + 1][2 * i + 1]
  }

  /** v-cell area at (j, i). */
  function VAreaAt(p: Matrix, ny: nat, nx: nat, j: nat, i: nat): real
    requires IsShape(p, 2 * ny + 1, 2 * nx + 1) && j < ny && i < nx
  {
    p[2 * j + 1][2 * i] + p[2 * j + 2][2 * i + 1] + p[2 * j + 1][2 * i + 1] + p[2 * j + 2][2 * i]
  }

  /** Corner area at (j, i). */
  function CornerAreaAt(p: Matrix, ny: nat, nx: nat, j: nat, i: nat): real
    requires IsShape(p, 2 * ny + 1, 2 * nx + 1) && j < ny && i < nx
  {
    p[2 * j + 1][2 * i + 1] + p[2 * j + 2][2 * i + 2] + p[2 * j + 1][2 * i + 2] + p[2 * j + 2][2 * i + 1]
  }

  // ---------------------------------------------------------------------------
  // Periodic padding and the memory-mode choice

  /**
   Prepend a copy of the first column; symmetric mode keeps it, non-symmetric
   mode slices it off again (`[:, 1:]`).
   */
  function PadCols(m: Matrix, rows: nat, cols: nat, symmetric: bool): (r: Matrix)
    requires cols >= 1 && IsShape(m, rows, cols)
    ensures IsShape(r, rows, cols + Extra(symmetric))
    ensures forall j, i :: 0 <= j < rows && 0 <= i < cols ==> r[j][i + Extra(symmetric)] == m[j][i]
    ensures symmetric ==> forall j :: 0 <= j < rows ==> r[j][0] == r[j][1]
  {
    var p := PrependFirstCol(m, rows, cols);
    if symmetric then p else DropFirstCol(p, rows, cols + 1)
  }

  /** The same along rows: `np.append(m[0, :][None, :], m, axis=0)`, then `[1:, :]` unless symmetric. */
  function PadRows(m: Matrix, rows: nat, cols: nat, symmetric: bool): (r: Matrix)
    requires rows >= 1 && IsShape(m, rows, cols)
    ensures IsShape(r, rows + Extra(symmetric), cols)
    ensures forall j, i :: 0 <= j < rows && 0 <= i < cols ==> r[j + Extra(symmetric)][i] == m[j][i]
    ensures symmetric ==> forall i :: 0 <= i < cols ==> r[0][i] == r[1][i]
  {
    var p := PrependFirstRow(m, rows, cols);
    if symmetric then p else DropFirstRow(p)
  }

  /** Rows first, then columns; non-symmetric mode slices off both (`[1:, 1:]`). */
  function PadBoth(m: Matrix, rows: nat, cols: nat, symmetric: bool): (r: Matrix)
    requires rows >= 1 && cols >= 1 && IsShape(m, rows, cols)
    ensures IsShape(r, rows + Extra(symmetric), cols + Extra(symmetric))
    ensures symmetric ==> forall j, i :: 0 <= j < rows && 0 <= i < cols ==> r[j + 1][i + 1] == m[j][i]
    ensures !symmetric ==> forall j, i :: 0 <= j < rows && 0 <= i < cols ==> r[j][i] == m[j][i]
    ensures symmetric ==> forall i :: 0 <= i < cols + 1 ==> r[0][i] == r[1][i]
    ensures symmetric ==> forall j :: 0 <= j < rows + 1 ==> r[j][0] == r[j][1]
  {
    var p := PrependFirstCol(PrependFirstRow(m, rows, cols), rows + 1, cols);
    if symmetric then p else DropFirstRowAndCol(p, rows, cols)
  }

  /** Padding then trimming gives back the unpadded field. */
  lemma PadColsTrimmed(m: Matrix, rows: nat, cols: nat)
    requires cols >= 1 && IsShape(m, rows, cols)
    ensures PadCols(m, rows, cols, false) == m
    ensures PadCols(m, rows, cols, false) == DropFirstCol(PadCols(m, rows, cols, true), rows, cols + 1)
  {
    Extensionality(PadCols(m, rows, cols, false), m, rows, cols);
  }

  lemma PadRowsTrimmed(m: Matrix, rows: nat, cols: nat)
    requires rows >= 1 && IsShape(m, rows, cols)
    ensures PadRows(m, rows, cols, false) == m
    ensures PadRows(m, rows, cols, false) == DropFirstRow(PadRows(m, rows, cols, true))
  {
    Extensionality(PadRows(m, rows, cols, false), m, rows, cols);
  }

  lemma PadBothTrimmed(m: Matrix, rows: nat, cols: nat)
    requires rows >= 1 && cols >= 1 && IsShape(m, rows, cols)
    ensures PadBoth(m, rows, cols, false) == m
    ensures PadBoth(m, rows, cols, false) == DropFirstRowAndCol(PadBoth(m, rows, cols, true), rows, cols)
  {
    Extensionality(PadBoth(m, rows, cols, false), m, rows, cols);
  }

  // ---------------------------------------------------------------------------
  // Point coordinates (x for geolon, y for geolat)

  /** Tracer points `p[1::2, 1::2]`. */
  function TracerPoints(p: Matrix, ny: nat, nx: nat): (r: Matrix)
    requires IsShape(p, 2 * ny + 1, 2 * nx + 1)
    ensures IsShape(r, ny, nx)
    ensures forall j, i :: 0 <= j < ny && 0 <= i < nx ==> r[j][i] == p[2 * j + 1][2 * i + 1]
  {
    assert StrideLen(2 * ny + 1, 1) == ny && StrideLen(2 * nx + 1, 1) == nx;
    Stride(p, 2 * nx + 1, 1, 1)
  }

  /** u points `p[1::2, ::2]`, without the first column unless symmetric. */
  function UPoints(p: Matrix, ny: nat, nx: nat, symmetric: bool): (r: Matrix)
    requires IsShape(p, 2 * ny + 1, 2 * nx + 1)
    ensures IsShape(r, ny, nx + Extra(symmetric))
    ensures symmetric ==> forall j, i :: 0 <= j < ny && 0 <= i < nx + 1 ==> r[j][i] == p[2 * j + 1][2 * i]
    ensures !symmetric ==> forall j, i :: 0 <= j < ny && 0 <= i < nx ==> r[j][i] == p[2 * j + 1][2 * i + 2]
  {
    assert StrideLen(2 * ny + 1, 1) == ny && StrideLen(2 * nx + 1, 0) == nx + 1;
    var s := Stride(p, 2 * nx + 1, 1, 0);
    if symmetric then s else DropFirstCol(s, ny, nx + 1)
  }

  /** v points `p[::2, 1::2]`, without the first row unless symmetric. */
  function VPoints(p: Matrix, ny: nat, nx: nat, symmetric: bool): (r: Matrix)
    requires IsShape(p, 2 * ny + 1, 2 * nx + 1)
    ensures IsShape(r, ny + Extra(symmetric), nx)
    ensures symmetric ==> forall j, i :: 0 <= j < ny + 1 && 0 <= i < nx ==> r[j][i] == p[2 * j][2 * i + 1]
    ensures !symmetric ==> forall j, i :: 0 <= j < ny && 0 <= i < nx ==> r[j][i] == p[2 * j + 2][2 * i + 1]
  {
    assert StrideLen(2 * ny + 1, 0) == ny + 1 && StrideLen(2 * nx + 1, 1) == nx;
    var s := Stride(p, 2 * nx + 1, 0, 1);
    if symmetric then s else DropFirstRow(s)
  }

  /** Corner points `p[::2, ::2]`, without the first row and column unless symmetric. */
  function CornerPoints(p: Matrix, ny: nat, nx: nat, symmetric: bool): (r: Matrix)
    requires IsShape(p, 2 * ny + 1, 2 * nx + 1)
    ensures IsShape(r, ny + Extra(symmetric), nx + Extra(symmetric))
    ensures symmetric ==> forall j, i :: 0 <= j < ny + 1 && 0 <= i < nx + 1 ==> r[j][i] == p[2 * j][2 * i]
    ensures !symmetric ==> forall j, i :: 0 <= j < ny && 0 <= i < nx ==> r[j][i] == p[2 * j + 2][2 * i + 2]
  {
    assert StrideLen(2 * ny + 1, 0) == ny + 1 && StrideLen(2 * nx + 1, 0) == nx + 1;
    var s := Stride(p, 2 * nx + 1, 0, 0);
    if symmetric then s else DropFirstRowAndCol(s, ny, nx)
  }

  /** Non-symmetric corner points are the symmetric ones without leading row and column. */
  lemma CornerPointsTrimmed(p: Matrix, ny: nat, nx: nat)
    requires IsShape(p, 2 * ny + 1, 2 * nx + 1)
    ensures CornerPoints(p, ny, nx, false) == DropFirstRowAndCol(CornerPoints(p, ny, nx, true), ny, nx)
  {
  }

  // ---------------------------------------------------------------------------
  // Cell areas

  /**
   The supergrid cell areas made periodic: a copy of the first row is
   prepended, then a copy of the first column.
   */
  function PadArea(area: Matrix, ny: nat, nx: nat): (p: Matrix)
    requires ny >= 1 && nx >= 1 && IsShape(area, 2 * ny, 2 * nx)
    ensures IsShape(p, 2 * ny + 1, 2 * nx + 1)
    ensures forall r, c :: 0 <= r < 2 * ny + 1 && 0 <= c < 2 * nx + 1 ==>
              p[r][c] == area[Max0(r - 1)][Max0(c - 1)]
  {
    PrependFirstCol(PrependFirstRow(area, 2 * ny, 2 * nx), 2 * ny + 1, 2 * nx)
  }

  /** Tracer area: 2x2 block sums of the padded area with its last row and column cut. */
  function TracerArea(p: Matrix, ny: nat, nx: nat): (r: Matrix)
    requires ny >= 1 && nx >= 1 && IsShape(p, 2 * ny + 1, 2 * nx + 1)
    ensures IsShape(r, ny, nx)
    ensures forall j, i :: 0 <= j < ny && 0 <= i < nx ==>
              r[j][i] == p[2 * j][2 * i] + p[2 * j + 1][2 * i + 1] + p[2 * j][2 * i + 1] + p[2 * j + 1][2 * i]
  {
    var a := DropLastCol(DropLastRow(p), 2 * ny, 2 * nx + 1);
    assert StrideLen(2 * ny, 0) == ny && StrideLen(2 * ny, 1) == ny;
    assert StrideLen(2 * nx, 0) == nx && StrideLen(2 * nx, 1) == nx;
    assert forall j, i :: 0 <= j < 2 * ny && 0 <= i < 2 * nx ==> a[j][i] == p[j][i];
    Add4(Stride(a, 2 * nx, 0, 0), Stride(a, 2 * nx, 1, 1),
         Stride(a, 2 * nx, 0, 1), Stride(a, 2 * nx, 1, 0), ny, nx)
  }

  /** u-cell area before padding: blocks of the padded area with its last row cut. */
  function UAreaRaw(p: Matrix, ny: nat, nx: nat): (r: Matrix)
    requires ny >= 1 && nx >= 1 && IsShape(p, 2 * ny + 1, 2 * nx + 1)
    ensures IsShape(r, ny, nx)
    ensures forall j, i :: 0 <= j < ny && 0 <= i < nx ==>
              r[j][i] == UAreaAt(p, ny, nx, j, i)
  {
    var a := DropLastRow(p);
    assert IsShape(a, 2 * ny, 2 * nx + 1);
    assert StrideLen(2 * ny, 0) == ny && StrideLen(2 * ny, 1) == ny;
    assert StrideLen(2 * nx + 1, 1) == nx && StrideLen(2 * nx + 1, 2) == nx;
    Add4(Stride(a, 2 * nx + 1, 0, 1), Stride(a, 2 * nx + 1, 1, 2),
         Stride(a, 2 * nx + 1, 0, 2), Stride(a, 2 * nx + 1, 1, 1), ny, nx)
  }

  /** v-cell area before padding: blocks of the padded area with its last column cut. */
  function VAreaRaw(p: Matrix, ny: nat, nx: nat): (r: Matrix)
    requires ny >= 1 && nx >= 1 && IsShape(p, 2 * ny + 1, 2 * nx + 1)
    ensures IsShape(r, ny, nx)
    ensures forall j, i :: 0 <= j < ny && 0 <= i < nx ==>
              r[j][i] == VAreaAt(p, ny, nx, j, i)
  {
    var a := DropLastCol(p, 2 * ny + 1, 2 * nx + 1);
    assert StrideLen(2 * ny + 1, 1) == ny && StrideLen(2 * ny + 1, 2) == ny;
    assert StrideLen(2 * nx, 0) == nx && StrideLen(2 * nx, 1) == nx;
    Add4(Stride(a, 2 * nx, 1, 0), Stride(a, 2 * nx, 2, 1),
         Stride(a, 2 * nx, 1, 1), Stride(a, 2 * nx, 2, 0), ny, nx)
  }

  /** Corner area before padding: blocks of the whole padded area. */
  function CornerAreaRaw(p: Matrix, ny: nat, nx: nat): (r: Matrix)
    requires ny >= 1 && nx >= 1 && IsShape(p, 2 * ny + 1, 2 * nx + 1)
    ensures IsShape(r, ny, nx)
    ensures forall j, i :: 0 <= j < ny && 0 <= i < nx ==>
              r[j][i] == CornerAreaAt(p, ny, nx, j, i)
  {
    assert StrideLen(2 * ny + 1, 1) == ny && StrideLen(2 * ny + 1, 2) == ny;
    assert StrideLen(2 * nx + 1, 1) == nx && StrideLen(2 * nx + 1, 2) == nx;
    Add4(Stride(p, 2 * nx + 1, 1, 1), Stride(p, 2 * nx + 1, 2, 2),
         Stride(p, 2 * nx + 1, 1, 2), Stride(p, 2 * nx + 1, 2, 1), ny, nx)
  }

  // ---------------------------------------------------------------------------
  // Cell widths

  /** Tracer x-width: the two supergrid edges through the cell centre. */
  function Dxt(dx: Matrix, ny: nat, nx: nat): (r: Matrix)
    requires IsShape(dx, 2 * ny + 1, 2 * nx)
    ensures IsShape(r, ny, nx)
    ensures forall j, i :: 0 <= j < ny && 0 <= i < nx ==> r[j][i] == dx[2 * j + 1][2 * i] + dx[2 * j + 1][2 * i + 1]
  {
    assert StrideLen(2 * ny + 1, 1) == ny;
    assert StrideLen(2 * nx, 0) == nx && StrideLen(2 * nx, 1) == nx;
    Add(Stride(dx, 2 * nx, 1, 0), Stride(dx, 2 * nx, 1, 1), ny, nx)
  }

  /** Tracer y-width. */
  function Dyt(dy: Matrix, ny: nat, nx: nat): (r: Matrix)
    requires IsShape(dy, 2 * ny, 2 * nx + 1)
    ensures IsShape(r, ny, nx)
    ensures forall j, i :: 0 <= j < ny && 0 <= i < nx ==> r[j][i] == dy[2 * j][2 * i + 1] + dy[2 * j + 1][2 * i + 1]
  {
    assert StrideLen(2 * ny, 0) == ny && StrideLen(2 * ny, 1) == ny;
    assert StrideLen(2 * nx + 1, 1) == nx;
    Add(Stride(dy, 2 * nx + 1, 0, 1), Stride(dy, 2 * nx + 1, 1, 1), ny, nx)
  }

  /**
   u-cell x-width before padding: the edge east of the u point plus, through
   `np.roll`, the edge at the next u point, wrapping round at the east end.
   */
  function DxCuRaw(dx: Matrix, ny: nat, nx: nat): (r: Matrix)
    requires nx >= 1 && IsShape(dx, 2 * ny + 1, 2 * nx)
    ensures IsShape(r, ny, nx)
    ensures forall j, i :: 0 <= j < ny && 0 <= i < nx ==>
              r[j][i] == DxCuAt(dx, ny, nx, j, i)
  {
    assert StrideLen(2 * ny + 1, 1) == ny;
    assert StrideLen(2 * nx, 0) == nx && StrideLen(2 * nx - 1, 0) == nx;
    var trimmed := DropLastCol(dx, 2 * ny + 1, 2 * nx);
    Add(Stride(dx, 2 * nx, 1, 0), RollLeft(Stride(trimmed, 2 * nx - 1, 1, 0), ny, nx), ny, nx)
  }

  /** u-cell y-width before padding: the two edges through the next u point east. */
  function DyCuRaw(dy: Matrix, ny: nat, nx: nat): (r: Matrix)
    requires IsShape(dy, 2 * ny, 2 * nx + 1)
    ensures IsShape(r, ny, nx)
    ensures forall j, i :: 0 <= j < ny && 0 <= i < nx ==>
              r[j][i] == DyCuAt(dy, ny, nx, j, i)
  {
    assert StrideLen(2 * ny, 0) == ny && StrideLen(2 * ny, 1) == ny;
    assert StrideLen(2 * nx + 1, 2) == nx;
    Add(Stride(dy, 2 * nx + 1, 0, 2), Stride(dy, 2 * nx + 1, 1, 2), ny, nx)
  }

  /** v-cell x-width before padding: the two edges through the next v point north. */
  function DxCvRaw(dx: Matrix, ny: nat, nx: nat): (r: Matrix)
    requires IsShape(dx, 2 * ny + 1, 2 * nx)
    ensures IsShape(r, ny, nx)
    ensures forall j, i :: 0 <= j < ny && 0 <= i < nx ==>
              r[j][i] == DxCvAt(dx, ny, nx, j, i)
  {
    assert StrideLen(2 * ny + 1, 2) == ny;
    assert StrideLen(2 * nx, 0) == nx && StrideLen(2 * nx, 1) == nx;
    Add(Stride(dx, 2 * nx, 2, 0), Stride(dx, 2 * nx, 2, 1), ny, nx)
  }

  /** u-cell metrics in the memory mode requested: raw field with its leading column padded. */
  function DxCu(dx: Matrix, ny: nat, nx: nat, symmetric: bool): (r: Matrix)
    requires nx >= 1 && IsShape(dx, 2 * ny + 1, 2 * nx)
    ensures IsShape(r, ny, nx + Extra(symmetric))
    ensures forall j, i :: 0 <= j < ny && 0 <= i < nx ==>
              r[j][i + Extra(symmetric)] == DxCuAt(dx, ny, nx, j, i)
    ensures symmetric ==> forall j :: 0 <= j < ny ==> r[j][0] == r[j][1]
  {
    PadCols(DxCuRaw(dx, ny, nx), ny, nx, symmetric)
  }

  function DyCu(dy: Matrix, ny: nat, nx: nat, symmetric: bool): (r: Matrix)
    requires nx >= 1 && IsShape(dy, 2 * ny, 2 * nx + 1)
    ensures IsShape(r, ny, nx + Extra(symmetric))
    ensures forall j, i :: 0 <= j < ny && 0 <= i < nx ==>
              r[j][i + Extra(symmetric)] == DyCuAt(dy, ny, nx, j, i)
    ensures symmetric ==> forall j :: 0 <= j < ny ==> r[j][0] == r[j][1]
  {
    PadCols(DyCuRaw(dy, ny, nx), ny, nx, symmetric)
  }

  function UArea(p: Matrix, ny: nat, nx: nat, symmetric: bool): (r: Matrix)
    requires ny >= 1 && nx >= 1 && IsShape(p, 2 * ny + 1, 2 * nx + 1)
    ensures IsShape(r, ny, nx + Extra(symmetric))
    ensures forall j, i :: 0 <= j < ny && 0 <= i < nx ==>
              r[j][i + Extra(symmetric)] == UAreaAt(p, ny, nx, j, i)
    ensures symmetric ==> forall j :: 0 <= j < ny ==> r[j][0] == r[j][1]
  {
    PadCols(UAreaRaw(p, ny, nx), ny, nx, symmetric)
  }

  /** v-cell metrics in the memory mode requested: raw field with its leading row padded. */
  function DxCv(dx: Matrix, ny: nat, nx: nat, symmetric: bool): (r: Matrix)
    requires ny >= 1 && IsShape(dx, 2 * ny + 1, 2 * nx)
    ensures IsShape(r, ny + Extra(symmetric), nx)
    ensures forall j, i :: 0 <= j < ny && 0 <= i < nx ==>
              r[j + Extra(symmetric)][i] == DxCvAt(dx, ny, nx, j, i)
    ensures symmetric ==> forall i :: 0 <= i < nx ==> r[0][i] == r[1][i]
  {
    PadRows(DxCvRaw(dx, ny, nx), ny, nx, symmetric)
  }

  /** v-cell y-width: momgrid reuses the u-cell y-width expression here. */
  function DyCv(dy: Matrix, ny: nat, nx: nat, symmetric: bool): (r: Matrix)
    requires ny >= 1 && IsShape(dy, 2 * ny, 2 * nx + 1)
    ensures IsShape(r, ny + Extra(symmetric), nx)
    ensures forall j, i :: 0 <= j < ny && 0 <= i < nx ==>
              r[j + Extra(symmetric)][i] == DyCuAt(dy, ny, nx, j, i)
    ensures symmetric ==> forall i :: 0 <= i < nx ==> r[0][i] == r[1][i]
  {
    PadRows(DyCuRaw(dy, ny, nx), ny, nx, symmetric)
  }

  function VArea(p: Matrix, ny: nat, nx: nat, symmetric: bool): (r: Matrix)
    requires ny >= 1 && nx >= 1 && IsShape(p, 2 * ny + 1, 2 * nx + 1)
    ensures IsShape(r, ny + Extra(symmetric), nx)
    ensures forall j, i :: 0 <= j < ny && 0 <= i < nx ==>
              r[j + Extra(symmetric)][i] == VAreaAt(p, ny, nx, j, i)
    ensures symmetric ==> forall i :: 0 <= i < nx ==> r[0][i] == r[1][i]
  {
    PadRows(VAreaRaw(p, ny, nx), ny, nx, symmetric)
  }

  /** Corner area in the memory mode requested: leading row and column padded. */
  function CornerArea(p: Matrix, ny: nat, nx: nat, symmetric: bool): (r: Matrix)
    requires ny >= 1 && nx >= 1 && IsShape(p, 2 * ny + 1, 2 * nx + 1)
    ensures IsShape(r, ny + Extra(symmetric), nx + Extra(symmetric))
    ensures forall j, i :: 0 <= j < ny && 0 <= i < nx ==>
              r[j + Extra(symmetric)][i + Extra(symmetric)] == CornerAreaAt(p, ny, nx, j, i)
    ensures symmetric ==> forall i :: 0 <= i < nx + 1 ==> r[0][i] == r[1][i]
    ensures symmetric ==> forall j :: 0 <= j < ny + 1 ==> r[j][0] == r[j][1]
  {
    PadBoth(CornerAreaRaw(p, ny, nx), ny, nx, symmetric)
  }

  lemma CornerAreaTrimmed(p: Matrix, ny: nat, nx: nat)
    requires ny >= 1 && nx >= 1 && IsShape(p, 2 * ny + 1, 2 * nx + 1)
    ensures CornerArea(p, ny, nx, false) == DropFirstRowAndCol(CornerArea(p, ny, nx, true), ny, nx)
  {
    var raw := CornerAreaRaw(p, ny, nx);
    PadBothTrimmed(raw, ny, nx);
  }

  // ---------------------------------------------------------------------------
  // Relations between the fields

  /**
   The tracer area in terms of the raw supergrid areas: away from the southern
   and western edge it is the 2x2 block one row and one column south-west of
   the block under the tracer cell, because the sum runs over the padded array.
   */
  lemma TracerAreaOffset(area: Matrix, ny: nat, nx: nat, j: nat, i: nat)
    requires ny >= 1 && nx >= 1 && IsShape(area, 2 * ny, 2 * nx)
    requires 1 <= j < ny && 1 <= i < nx
    ensures TracerArea(PadArea(area, ny, nx), ny, nx)[j][i] ==
            area[2 * j - 1][2 * i - 1] + area[2 * j][2 * i] + area[2 * j - 1][2 * i] + area[2 * j][2 * i - 1]
  {
    var p := PadArea(area, ny, nx);
    assert p[2 * j][2 * i] == area[2 * j - 1][2 * i - 1];
    assert p[2 * j + 1][2 * i + 1] == area[2 * j][2 * i];
    assert p[2 * j][2 * i + 1] == area[2 * j - 1][2 * i];
    assert p[2 * j + 1][2 * i] == area[2 * j][2 * i - 1];
  }

  /** In the south-west tracer cell the padding counts the first supergrid cell four times. */
  lemma TracerAreaCornerCell(area: Matrix, ny: nat, nx: nat)
    requires ny >= 1 && nx >= 1 && IsShape(area, 2 * ny, 2 * nx)
    ensures TracerArea(PadArea(area, ny, nx), ny, nx)[0][0] ==
            area[0][0] + area[0][0] + area[0][0] + area[0][0]
  {
    var p := PadArea(area, ny, nx);
    assert p[0][0] == area[0][0] && p[1][1] == area[0][0];
    assert p[0][1] == area[0][0] && p[1][0] == area[0][0];
  }

  /** At the last u point of a row the closed form wraps round to the row's first edge. */
  lemma DxCuAtLast(dx: Matrix, ny: nat, nx: nat, j: nat)
    requires nx >= 1 && IsShape(dx, 2 * ny + 1, 2 * nx) && j < ny
    ensures DxCuAt(dx, ny, nx, j, nx - 1) == dx[2 * j + 1][2 * nx - 2] + dx[2 * j + 1][0]
  {
  }

  /** The `np.roll` in the u-cell x-width really wraps: the last u point takes the row's first edge. */
  lemma DxCuRawWraps(dx: Matrix, ny: nat, nx: nat, j: nat)
    requires nx >= 1 && IsShape(dx, 2 * ny + 1, 2 * nx) && j < ny
    ensures DxCuRaw(dx, ny, nx)[j][nx - 1] == dx[2 * j + 1][2 * nx - 2] + dx[2 * j + 1][0]
  {
    assert DxCuRaw(dx, ny, nx)[j][nx - 1] == DxCuAt(dx, ny, nx, j, nx - 1);
    DxCuAtLast(dx, ny, nx, j);
  }

  /** The same in the non-symmetric layout, where the raw field is used as it is. */
  lemma DxCuWraps(dx: Matrix, ny: nat, nx: nat, j: nat)
    requires nx >= 1 && IsShape(dx, 2 * ny + 1, 2 * nx) && j < ny
    ensures DxCu(dx, ny, nx, false)[j][nx - 1] == dx[2 * j + 1][2 * nx - 2] + dx[2 * j + 1][0]
  {
    DxCuRawWraps(dx, ny, nx, j);
    PadColsTrimmed(DxCuRaw(dx, ny, nx), ny, nx);
  }

  /** The v-cell y-width is the u-cell y-width laid out with a leading row instead of a column. */
  lemma DyCvMatchesDyCu(dy: Matrix, ny: nat, nx: nat, symmetric: bool, j: nat, i: nat)
    requires ny >= 1 && nx >= 1 && IsShape(dy, 2 * ny, 2 * nx + 1)
    requires j < ny && i < nx
    ensures DyCv(dy, ny, nx, symmetric)[j + Extra(symmetric)][i] == DyCu(dy, ny, nx, symmetric)[j][i + Extra(symmetric)]
  {
    var v := DyCv(dy, ny, nx, symmetric);
    var u := DyCu(dy, ny, nx, symmetric);
    assert v[j + Extra(symmetric)][i] == DyCuAt(dy, ny, nx, j, i);
    assert u[j][i + Extra(symmetric)] == DyCuAt(dy, ny, nx, j, i);
  }
}
