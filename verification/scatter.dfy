/** The numpy idioms `init_concentrations` relies on: truncating cast of
    scaled random draws to indices, and the augmented assignment
    `g[rows, cols] += vals` through integer-array indexing. */
module Scatter {
  import opened Wrappers
  import opened Grids

  /** `int(x)` / `.astype(int)`: truncation toward zero. */
  function Trunc(x: real): (r: int)
    ensures x >= 0.0 ==> r as real <= x < r as real + 1.0
    ensures x < 0.0 ==> r as real - 1.0 < x <= r as real
  {
    if x >= 0.0 then x.Floor else -((-x).Floor)
  }

  /** A uniform draw of `np.random.random`: a real in [0, 1). */
  predicate Unit(u: real) {
    0.0 <= u < 1.0
  }

  /** `(u * size).astype(int)`: the grid index of one draw. */
  function Index(u: real, size: nat): int {
    Trunc(u * size as real)
  }

  /** `(draws * size).astype(int)`: one grid index per draw. */
  function Indices(draws: seq<real>, size: nat): (r: seq<int>)
    ensures |r| == |draws|
    ensures forall k :: 0 <= k < |draws| ==> r[k] == Index(draws[k], size)
  {
    seq(|draws|, k requires 0 <= k < |draws| => Index(draws[k], size))
  }

  /** The product of a positive and a non-negative real is non-negative,
      and positive when both are positive. */
  lemma PositiveProduct(a: real, b: real)
    requires a > 0.0 && b >= 0.0
    ensures a * b >= 0.0
    ensures b > 0.0 ==> a * b > 0.0
  {
  }

  /** A draw in [0, 1) scaled by a positive size lands in [0, size). */
  lemma ScaledDrawInRange(u: real, n: real)
    requires Unit(u) && n >= 1.0
    ensures 0.0 <= u * n < n
  {
    assert n - u * n == (1.0 - u) * n;
    PositiveProduct(1.0 - u, n);
    PositiveProduct(n, u);
    assert u * n == n * u;
  }

  /** A draw in [0, 1) on a grid of at least one cell gives an index in
      [0, size): a draw can never reach one past the last row or column. */
  lemma IndexInRange(u: real, size: nat)
    requires Unit(u) && size >= 1
    ensures 0 <= Index(u, size) < size
  {
    var x := u * size as real;
    ScaledDrawInRange(u, size as real);
    var r := Trunc(x);
    assert r as real <= x < r as real + 1.0;
  }

  /** Draws in [0, 1) on a grid of at least one cell give indices in
      [0, size). */
  lemma IndicesInRange(draws: seq<real>, size: nat)
    requires forall k :: 0 <= k < |draws| ==> Unit(draws[k])
    requires size >= 1
    ensures forall k :: 0 <= k < |draws| ==> 0 <= Indices(draws, size)[k] < size
  {
    forall k | 0 <= k < |draws|
      ensures 0 <= Indices(draws, size)[k] < size
    {
      IndexInRange(draws[k], size);
    }
  }

  /** The two forms of augmented assignment the model uses. */
  datatype Update = Add | Sub

  function Apply(op: Update, v: real, d: real): real {
    match op
    case Add => v + d
    case Sub => v - d
  }

  /** Index pair `k` addresses cell `(i, j)`. */
  predicate Hits(rows: seq<int>, cols: seq<int>, k: nat, i: int, j: int)
    requires k < |rows| && k < |cols|
  {
    rows[k] == i && cols[k] == j
  }

  /** The last of the first `n` index pairs that addresses `(i, j)`, if any. */
  function LastHit(rows: seq<int>, cols: seq<int>, i: int, j: int, n: nat): (r: Option<nat>)
    requires n <= |rows| && n <= |cols|
    ensures r.Some? ==> r.value < n && Hits(rows, cols, r.value, i, j)
    ensures r.Some? ==> forall k :: r.value < k < n ==> !Hits(rows, cols, k, i, j)
    ensures r.None? <==> forall k :: 0 <= k < n ==> !Hits(rows, cols, k, i, j)
    decreases n
  {
    if n == 0 then None
    else if Hits(rows, cols, n - 1, i, j) then Some(n - 1)
    else LastHit(rows, cols, i, j, n - 1)
  }

  /** Every index pair addresses a cell of `g`. */
  ghost predicate IndexesInto(g: Grid, rows: seq<int>, cols: seq<int>) {
    |rows| == |cols| && forall k :: 0 <= k < |rows| ==> InGrid(g, rows[k], cols[k])
  }

  /** The first `n` writes of `g[rows, cols] op= vals`. numpy first gathers
      the addressed cells of `g`, combines them with `vals`, then stores the
      results pair by pair, so a cell addressed several times keeps only the
      value of its last pair: offsets of repeated cells do not accumulate. */
  function ScatterUpdate(g: Grid, op: Update, rows: seq<int>, cols: seq<int>, vals: seq<real>, n: nat): (r: Grid)
    requires IndexesInto(g, rows, cols) && |vals| == |rows| && n <= |rows|
    ensures |r| == |g| && forall i :: 0 <= i < |r| ==> |r[i]| == |g[i]|
    ensures forall i, j :: InGrid(g, i, j) ==>
      r[i][j] == match LastHit(rows, cols, i, j, n)
                 case None => g[i][j]
                 case Some(k) => Apply(op, g[i][j], vals[k])
    decreases n
  {
    if n == 0 then g
    else
      var prev := ScatterUpdate(g, op, rows, cols, vals, n - 1);
      var i, j := rows[n - 1], cols[n - 1];
      prev[i := prev[i][j := Apply(op, g[i][j], vals[n - 1])]]
  }

  /** A pair that addresses `(i, j)` with no later pair addressing it is the
      last hit of `(i, j)`. */
  lemma LastHitIsLast(rows: seq<int>, cols: seq<int>, i: int, j: int, k: nat)
    requires |rows| == |cols| && k < |rows| && Hits(rows, cols, k, i, j)
    requires forall l :: k < l < |rows| ==> !Hits(rows, cols, l, i, j)
    ensures LastHit(rows, cols, i, j, |rows|) == Some(k)
  {
    var h := LastHit(rows, cols, i, j, |rows|);
    assert h.Some?;
  }

  /** `g[rows, cols] op= vals`: every addressed cell holds its original value
      combined with the value of the last pair addressing it; every other
      cell is untouched. */
  function IndexedUpdate(g: Grid, op: Update, rows: seq<int>, cols: seq<int>, vals: seq<real>): (r: Grid)
    requires IndexesInto(g, rows, cols) && |vals| == |rows|
    ensures |r| == |g| && forall i :: 0 <= i < |r| ==> |r[i]| == |g[i]|
    ensures forall i, j :: InGrid(g, i, j) && (forall k :: 0 <= k < |rows| ==> !Hits(rows, cols, k, i, j)) ==>
      r[i][j] == g[i][j]
    ensures forall i, j, k ::
      && InGrid(g, i, j) && 0 <= k < |rows| && Hits(rows, cols, k, i, j)
      && (forall l :: k < l < |rows| ==> !Hits(rows, cols, l, i, j))
      ==> r[i][j] == Apply(op, g[i][j], vals[k])
  {
    var r := ScatterUpdate(g, op, rows, cols, vals, |rows|);
    assert forall i, j, k ::
      && InGrid(g, i, j) && 0 <= k < |rows| && Hits(rows, cols, k, i, j)
      && (forall l :: k < l < |rows| ==> !Hits(rows, cols, l, i, j))
      ==> r[i][j] == Apply(op, g[i][j], vals[k])
    by {
      forall i, j, k |
        && InGrid(g, i, j) && 0 <= k < |rows| && Hits(rows, cols, k, i, j)
        && (forall l :: k < l < |rows| ==> !Hits(rows, cols, l, i, j))
        ensures r[i][j] == Apply(op, g[i][j], vals[k])
      {
        LastHitIsLast(rows, cols, i, j, k);
      }
    }
    r
  }
}
