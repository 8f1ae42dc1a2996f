/** Two-dimensional real grids, the idealised numpy float arrays of the
    simulation. A grid is a sequence of rows; `g[i][j]` is row `i`, column `j`. */
module Grids {

  type Grid = seq<seq<real>>

  /** `g` has `rows` rows of `cols` cells each (numpy shape `(rows, cols)`). */
  ghost predicate IsGrid(g: Grid, rows: nat, cols: nat) {
    |g| == rows && forall i :: 0 <= i < |g| ==> |g[i]| == cols
  }

  /** `g` has shape `(n, n)`, the shape of every species field. */
  ghost predicate Square(g: Grid, n: nat) {
    IsGrid(g, n, n)
  }

  /** `(i, j)` addresses a cell of `g`. */
  predicate InGrid(g: Grid, i: int, j: int) {
    0 <= i < |g| && 0 <= j < |g[i]|
  }

  /** Cell `(i, j)` of `g`, or 0 outside the grid: the constant padding
      `mode="constant", cval=0` of `scipy.ndimage`. */
  function At(g: Grid, i: int, j: int): (r: real)
    ensures !InGrid(g, i, j) ==> r == 0.0
  {
    if InGrid(g, i, j) then g[i][j] else 0.0
  }

  /** `np.ones((n, n)) * v`. */
  function Fill(n: nat, v: real): (r: Grid)
    ensures Square(r, n)
    ensures forall i, j :: 0 <= i < n && 0 <= j < n ==> r[i][j] == v
  {
    seq(n, _ => seq(n, _ => v))
  }

  /** The element-wise combination of three grids of one shape, as numpy
      evaluates an arithmetic expression over arrays. */
  function Map3(x: Grid, y: Grid, z: Grid, f: (real, real, real) -> real): (r: Grid)
    requires |y| == |x| && |z| == |x|
    requires forall i :: 0 <= i < |x| ==> |y[i]| == |x[i]| && |z[i]| == |x[i]|
    ensures |r| == |x| && forall i :: 0 <= i < |r| ==> |r[i]| == |x[i]|
    ensures forall i, j :: 0 <= i < |r| && 0 <= j < |r[i]| ==> r[i][j] == f(x[i][j], y[i][j], z[i][j])
  {
    seq(|x|, i requires 0 <= i < |x| => seq(|x[i]|, j requires 0 <= j < |x[i]| => f(x[i][j], y[i][j], z[i][j])))
  }
}
