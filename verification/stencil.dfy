/** The diffusion operator: a 3x3 convolution with zero padding, minus the
    neighbour count times the cell, scaled by the diffusion coefficient and
    the cell area. */
module Stencil {
  import opened Grids

  /** A 3x3 convolution kernel. */
  ghost predicate IsKernel(k: Grid) {
    IsGrid(k, 3, 3)
  }

  /** The contribution of kernel entry `(a, b)` to output cell `(i, j)`.
      `scipy.ndimage.convolve` flips the kernel: entry `(a, b)` weighs the
      input cell at offset `(1 - a, 1 - b)` from the output cell. */
  function Tap(g: Grid, k: Grid, i: int, j: int, a: nat, b: nat): real
    requires IsKernel(k) && a < 3 && b < 3
  {
    k[a][b] * At(g, i + 1 - a, j + 1 - b)
  }

  /** Cell `(i, j)` of `convolve(g, k, mode="constant", cval=0)`. */
  function ConvolveAt(g: Grid, k: Grid, i: int, j: int): real
    requires IsKernel(k)
  {
    Tap(g, k, i, j, 0, 0) + Tap(g, k, i, j, 0, 1) + Tap(g, k, i, j, 0, 2)
    + Tap(g, k, i, j, 1, 0) + Tap(g, k, i, j, 1, 1) + Tap(g, k, i, j, 1, 2)
    + Tap(g, k, i, j, 2, 0) + Tap(g, k, i, j, 2, 1) + Tap(g, k, i, j, 2, 2)
  }

  /** The total weight of a kernel; the model's neighbour count equals it. */
  function Weight(k: Grid): real
    requires IsKernel(k)
  {
    k[0][0] + k[0][1] + k[0][2] + k[1][0] + k[1][1] + k[1][2] + k[2][0] + k[2][1] + k[2][2]
  }

  /** The four-neighbour (von Neumann) kernel and its neighbour count. */
  const VonNeumann: Grid := [[0.0, 1.0, 0.0], [1.0, 0.0, 1.0], [0.0, 1.0, 0.0]]

  /** The net exchange `to_cell - from_cell` of cell `(i, j)`: what the
      neighbours send in, minus `nb` times what the cell holds. */
  function Exchange(g: Grid, k: Grid, nb: real, i: int, j: int): real
    requires IsKernel(k)
  {
    ConvolveAt(g, k, i, j) - nb * At(g, i, j)
  }

  /** A net exchange `d` scaled by the coefficient over the cell area. */
  function Flux(mu: real, d: real, area: real): (r: real)
    requires area != 0.0
    ensures d == 0.0 ==> r == 0.0
  {
    mu * d / area
  }

  /** `mu * (convolve(g, k) - nb * g) / (dx * dy)`, the diffusion flux of a
      field; it has the shape of the field and each cell is the scaled net
      exchange of that cell. */
  function Diffuse(g: Grid, mu: real, k: Grid, nb: real, dx: real, dy: real): (r: Grid)
    requires IsKernel(k) && dx * dy != 0.0
    ensures |r| == |g| && forall i :: 0 <= i < |r| ==> |r[i]| == |g[i]|
    ensures forall i, j :: InGrid(g, i, j) ==> r[i][j] == Flux(mu, Exchange(g, k, nb, i, j), dx * dy)
  {
    seq(|g|, i requires 0 <= i < |g| =>
      seq(|g[i]|, j requires 0 <= j < |g[i]| => Flux(mu, Exchange(g, k, nb, i, j), dx * dy)))
  }

  /** The von Neumann kernel is a kernel of weight 4. */
  lemma VonNeumannWeight()
    ensures IsKernel(VonNeumann) && Weight(VonNeumann) == 4.0
  {
  }

  /** An all-zero field has zero flux everywhere, whatever the kernel. */
  lemma ZeroFieldNoFlux(g: Grid, mu: real, k: Grid, nb: real, dx: real, dy: real)
    requires IsKernel(k) && dx * dy != 0.0
    requires forall i, j :: InGrid(g, i, j) ==> g[i][j] == 0.0
    ensures forall i, j :: InGrid(g, i, j) ==> Diffuse(g, mu, k, nb, dx, dy)[i][j] == 0.0
  {
    forall i, j | InGrid(g, i, j)
      ensures Diffuse(g, mu, k, nb, dx, dy)[i][j] == 0.0
    {
      ZeroFieldConvolve(g, k, i, j);
      assert Exchange(g, k, nb, i, j) == 0.0;
    }
  }

  /** With zero input every tap reads 0, in or out of the grid. */
  lemma ZeroFieldConvolve(g: Grid, k: Grid, i: int, j: int)
    requires IsKernel(k)
    requires forall i, j :: InGrid(g, i, j) ==> g[i][j] == 0.0
    ensures ConvolveAt(g, k, i, j) == 0.0
  {
    forall a: nat, b: nat | a < 3 && b < 3
      ensures Tap(g, k, i, j, a, b) == 0.0
    {
    }
  }

  /** A cell whose whole 3x3 neighbourhood lies inside the grid. */
  predicate Interior(n: nat, i: int, j: int) {
    1 <= i < n - 1 && 1 <= j < n - 1
  }

  /** On a constant square field the convolution at an interior cell is the
      constant times the kernel weight. */
  lemma ConstantConvolveInterior(g: Grid, n: nat, c: real, k: Grid, i: int, j: int)
    requires IsKernel(k) && Square(g, n) && Interior(n, i, j)
    requires forall i, j :: 0 <= i < n && 0 <= j < n ==> g[i][j] == c
    ensures ConvolveAt(g, k, i, j) == c * Weight(k)
  {
    forall a: nat, b: nat | a < 3 && b < 3
      ensures Tap(g, k, i, j, a, b) == k[a][b] * c
    {
      assert InGrid(g, i + 1 - a, j + 1 - b);
    }
  }

  /** When the neighbour count equals the kernel weight, a constant field is
      in equilibrium at every interior cell: diffusion only moves matter. */
  lemma ConstantFieldInteriorEquilibrium(g: Grid, n: nat, c: real, mu: real, k: Grid, nb: real, dx: real, dy: real)
    requires IsKernel(k) && dx * dy != 0.0 && nb == Weight(k)
    requires Square(g, n)
    requires forall i, j :: 0 <= i < n && 0 <= j < n ==> g[i][j] == c
    ensures forall i, j :: Interior(n, i, j) ==> Diffuse(g, mu, k, nb, dx, dy)[i][j] == 0.0
  {
    forall i, j | Interior(n, i, j)
      ensures Diffuse(g, mu, k, nb, dx, dy)[i][j] == 0.0
    {
      ConstantConvolveInterior(g, n, c, k, i, j);
      assert InGrid(g, i, j);
      assert Exchange(g, k, nb, i, j) == 0.0;
    }
  }

  /** The five-point discrete Laplacian with absorbing (zero) boundary,
      written directly from the four orthogonal neighbours. */
  function FivePoint(g: Grid, i: int, j: int): real {
    At(g, i - 1, j) + At(g, i + 1, j) + At(g, i, j - 1) + At(g, i, j + 1) - 4.0 * At(g, i, j)
  }

  /** With the von Neumann kernel and its neighbour count 4, the net exchange
      of a cell is the five-point Laplacian, so by the contract of `Diffuse`
      each diffusion cell is the coefficient times that Laplacian over the
      cell area. */
  lemma VonNeumannIsFivePoint(g: Grid, i: int, j: int)
    ensures IsKernel(VonNeumann)
    ensures Exchange(g, VonNeumann, 4.0, i, j) == FivePoint(g, i, j)
  {
    var k := VonNeumann;
    assert k[0] == [0.0, 1.0, 0.0] && k[1] == [1.0, 0.0, 1.0] && k[2] == [0.0, 1.0, 0.0];
    assert Tap(g, k, i, j, 0, 0) == 0.0 && Tap(g, k, i, j, 0, 2) == 0.0;
    assert Tap(g, k, i, j, 2, 0) == 0.0 && Tap(g, k, i, j, 2, 2) == 0.0;
    assert Tap(g, k, i, j, 1, 1) == 0.0;
    assert Tap(g, k, i, j, 0, 1) == At(g, i + 1, j);
    assert Tap(g, k, i, j, 2, 1) == At(g, i - 1, j);
    assert Tap(g, k, i, j, 1, 0) == At(g, i, j + 1);
    assert Tap(g, k, i, j, 1, 2) == At(g, i, j - 1);
  }

  /** The number of orthogonal neighbours of `(i, j)` that fall outside an
      `n`-by-`n` grid. */
  function OutsideNeighbours(n: nat, i: int, j: int): real {
    (if i == 0 then 1.0 else 0.0) + (if i == n - 1 then 1.0 else 0.0)
    + (if j == 0 then 1.0 else 0.0) + (if j == n - 1 then 1.0 else 0.0)
  }

  /** Zero padding makes the boundary absorbing: on a constant field `c` the
      von Neumann net exchange of a cell is `-c` per orthogonal neighbour
      outside the grid, so interior cells are at rest, edge cells lose and
      corner cells lose twice as much. */
  lemma {:induction false} ConstantFieldBoundaryLeak(g: Grid, n: nat, c: real)
    requires Square(g, n)
    requires forall i, j :: 0 <= i < n && 0 <= j < n ==> g[i][j] == c
    ensures IsKernel(VonNeumann)
    ensures forall i, j :: 0 <= i < n && 0 <= j < n ==>
      Exchange(g, VonNeumann, 4.0, i, j) == -c * OutsideNeighbours(n, i, j)
  {
    VonNeumannWeight();
    forall i, j | 0 <= i < n && 0 <= j < n
      ensures Exchange(g, VonNeumann, 4.0, i, j) == -c * OutsideNeighbours(n, i, j)
    {
      VonNeumannIsFivePoint(g, i, j);
      assert InGrid(g, i, j);
      assert At(g, i - 1, j) == if i == 0 then 0.0 else c;
      assert At(g, i + 1, j) == if i == n - 1 then 0.0 else c;
      assert At(g, i, j - 1) == if j == 0 then 0.0 else c;
      assert At(g, i, j + 1) == if j == n - 1 then 0.0 else c;
    }
  }
}
