/**
 Dense two-dimensional arrays and the handful of numpy operations the grid
 builder uses on them: stride-2 slicing, dropping a leading or trailing row or
 column, elementwise addition, prepending a copy of the first row or column,
 and a cyclic shift of the columns (`np.roll(a, -1, axis=-1)`).

 A matrix is a sequence of rows; `IsShape(m, rows, cols)` says it is
 rectangular with the given extent. Entries are exact reals, so the float32
 casts in momgrid and the order of summation play no role.
 */
module Arrays {

  type Matrix = seq<seq<real>>

  /** `m` is rectangular with `rows` rows of `cols` entries each. */
  predicate IsShape(m: Matrix, rows: nat, cols: nat) {
    |m| == rows && forall r :: 0 <= r < |m| ==> |m[r]| == cols
  }

  /** Number of columns of a matrix, read off its first row (0 when empty). */
  function Width(m: Matrix): nat {
    if |m| == 0 then 0 else |m[0]|
  }

  function Max0(k: int): nat {
    if k < 0 then 0 else k
  }

  /** Length of Python's `s[start::2]` for a sequence of length `n`. */
  function StrideLen(n: nat, start: nat): nat {
    if start >= n then 0 else (n - start + 1) / 2
  }

  /** numpy's `m[r0::2, c0::2]` on a matrix with `cols` columns. */
  function Stride(m: Matrix, cols: nat, r0: nat, c0: nat): (r: Matrix)
    requires IsShape(m, |m|, cols)
    ensures IsShape(r, StrideLen(|m|, r0), StrideLen(cols, c0))
    ensures forall j, i :: 0 <= j < |r| && 0 <= i < |r[j]| ==>
              r0 + 2 * j < |m| && c0 + 2 * i < cols && r[j][i] == m[r0 + 2 * j][c0 + 2 * i]
    // no strided row or column is left out
    ensures |m| <= r0 + 2 * |r| && cols <= c0 + 2 * StrideLen(cols, c0)
  {
    var rows, width := StrideLen(|m|, r0), StrideLen(cols, c0);
    seq(rows, j requires 0 <= j < rows =>
      seq(width, i requires 0 <= i < width => m[r0 + 2 * j][c0 + 2 * i]))
  }

  /** numpy's `m[:-1, :]`. */
  function DropLastRow(m: Matrix): (r: Matrix)
    requires |m| >= 1
    ensures |r| == |m| - 1
    ensures forall j :: 0 <= j < |r| ==> r[j] == m[j]
  {
    m[..|m| - 1]
  }

  /** numpy's `m[:, :-1]`. */
  function DropLastCol(m: Matrix, rows: nat, cols: nat): (r: Matrix)
    requires cols >= 1 && IsShape(m, rows, cols)
    ensures IsShape(r, rows, cols - 1)
    ensures forall j, i :: 0 <= j < rows && 0 <= i < cols - 1 ==> r[j][i] == m[j][i]
  {
    seq(rows, j requires 0 <= j < rows => m[j][..cols - 1])
  }

  /** numpy's `m[1:, :]`. */
  function DropFirstRow(m: Matrix): (r: Matrix)
    requires |m| >= 1
    ensures |r| == |m| - 1
    ensures forall j :: 0 <= j < |r| ==> r[j] == m[j + 1]
  {
    m[1..]
  }

  /** numpy's `m[:, 1:]`. */
  function DropFirstCol(m: Matrix, rows: nat, cols: nat): (r: Matrix)
    requires cols >= 1 && IsShape(m, rows, cols)
    ensures IsShape(r, rows, cols - 1)
    ensures forall j, i :: 0 <= j < rows && 0 <= i < cols - 1 ==> r[j][i] == m[j][i + 1]
  {
    seq(rows, j requires 0 <= j < rows => m[j][1..])
  }

  /** numpy's `m[1:, 1:]`. */
  function DropFirstRowAndCol(m: Matrix, rows: nat, cols: nat): (r: Matrix)
    requires IsShape(m, rows + 1, cols + 1)
    ensures IsShape(r, rows, cols)
    ensures forall j, i :: 0 <= j < rows && 0 <= i < cols ==> r[j][i] == m[j + 1][i + 1]
  {
    seq(rows, j requires 0 <= j < rows => m[j + 1][1..])
  }

  /** Elementwise `a + b` of two matrices of the same shape. */
  function Add(a: Matrix, b: Matrix, rows: nat, cols: nat): (r: Matrix)
    requires IsShape(a, rows, cols) && IsShape(b, rows, cols)
    ensures IsShape(r, rows, cols)
    ensures forall j, i :: 0 <= j < rows && 0 <= i < cols ==> r[j][i] == a[j][i] + b[j][i]
  {
    seq(rows, j requires 0 <= j < rows => seq(cols, i requires 0 <= i < cols => a[j][i] + b[j][i]))
  }

  /** `np.append(m[0, :][None, :], m, axis=0)`: the first row, then all of `m`. */
  function PrependFirstRow(m: Matrix, rows: nat, cols: nat): (r: Matrix)
    requires rows >= 1 && IsShape(m, rows, cols)
    ensures IsShape(r, rows + 1, cols)
    ensures forall j, i :: 0 <= j < rows + 1 && 0 <= i < cols ==> r[j][i] == m[Max0(j - 1)][i]
  {
    [m[0]] + m
  }

  /** `np.append(m[:, 0][:, None], m, axis=1)`: the first column, then all of `m`. */
  function PrependFirstCol(m: Matrix, rows: nat, cols: nat): (r: Matrix)
    requires cols >= 1 && IsShape(m, rows, cols)
    ensures IsShape(r, rows, cols + 1)
    ensures forall j, i :: 0 <= j < rows && 0 <= i < cols + 1 ==> r[j][i] == m[j][Max0(i - 1)]
  {
    seq(rows, j requires 0 <= j < rows => [m[j][0]] + m[j])
  }

  /** The index after `i` among `0 .. n - 1`, wrapping round to 0 (Python's `(i + 1) % n`). */
  function NextCyclic(i: nat, n: nat): (k: nat)
    requires i < n
    ensures k < n
  {
    if i + 1 < n then i + 1 else 0
  }

  /** The wrap-round successor is Python's `(i + 1) % n`. */
  lemma NextCyclicIsMod(i: nat, n: nat)
    requires i < n
    ensures NextCyclic(i, n) == (i + 1) % n
  {
    if i + 1 == n {
      assert (i + 1) % n == 0;
    }
  }

  /** `np.roll(m, -1, axis=-1)`: every row shifted one place to the left, cyclically. */
  function RollLeft(m: Matrix, rows: nat, cols: nat): (r: Matrix)
    requires cols >= 1 && IsShape(m, rows, cols)
    ensures IsShape(r, rows, cols)
    ensures forall j, i :: 0 <= j < rows && 0 <= i < cols ==> r[j][i] == m[j][NextCyclic(i, cols)]
  {
    seq(rows, j requires 0 <= j < rows => m[j][1..] + [m[j][0]])
  }

  /** Two matrices of the same shape that agree everywhere are equal. */
  lemma Extensionality(a: Matrix, b: Matrix, rows: nat, cols: nat)
    requires IsShape(a, rows, cols) && IsShape(b, rows, cols)
    requires forall j, i :: 0 <= j < rows && 0 <= i < cols ==> a[j][i] == b[j][i]
    ensures a == b
  {
    forall j | 0 <= j < rows
      ensures a[j] == b[j]
    {
      assert |a[j]| == |b[j]| == cols;
    }
  }
}
