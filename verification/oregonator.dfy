/** The Oregonator model: three species X, Y, Z on a square grid, their
    reaction kinetics, and their diffusion with a per-species coefficient. */
module Oregonator {
  import opened Wrappers
  import opened Grids
  import opened Parameters
  import opened Stencil

  /** The species the model declares. */
  datatype Species = X | Y | Z

  /** `_concentration_names`. */
  const ConcentrationNames: seq<string> := ["X", "Y", "Z"]

  function Name(s: Species): string {
    match s
    case X => "X"
    case Y => "Y"
    case Z => "Z"
  }

  /** The species a name selects; any other name selects none. */
  function SpeciesOf(name: string): (r: Option<Species>)
    ensures r.Some? <==> name in ConcentrationNames
    ensures r.Some? ==> Name(r.value) == name
  {
    if name == "X" then Some(X)
    else if name == "Y" then Some(Y)
    else if name == "Z" then Some(Z)
    else None
  }

  /** Names and species correspond one to one. */
  lemma NameRoundTrip(s: Species)
    ensures SpeciesOf(Name(s)) == Some(s)
    ensures Name(s) in ConcentrationNames
  {
  }

  /** The concentration fields of the three species. */
  datatype Fields = Fields(x: Grid, y: Grid, z: Grid)

  function Field(f: Fields, s: Species): Grid {
    match s
    case X => f.x
    case Y => f.y
    case Z => f.z
  }

  /** `self[name] = g`: the fields with species `s` replaced by `g`. */
  function WithField(f: Fields, s: Species, g: Grid): (r: Fields)
    ensures Field(r, s) == g
    ensures forall t :: t != s ==> Field(r, t) == Field(f, t)
  {
    match s
    case X => f.(x := g)
    case Y => f.(y := g)
    case Z => f.(z := g)
  }

  /** Every field has the model's shape `(size, size)`. */
  ghost predicate Shaped(f: Fields, size: nat) {
    Square(f.x, size) && Square(f.y, size) && Square(f.z, size)
  }

  /** A model instance: grid geometry, the convolution kernel and neighbour
      count of the base model, the parameter values and the fields. */
  datatype Model = Model(size: nat, dx: real, dy: real, kernel: Grid, nbNeighbs: real, params: Params, fields: Fields)

  /** The reaction law of one species at one cell, given the three local
      concentrations:
        X: A - x + x^2 y
        Y: B (x - x^2 y - C y)
        Z: C (x - z) */
  function Kinetics(s: Species, p: Params, x: real, y: real, z: real): real {
    match s
    case X => p.A - x + x * x * y
    case Y => p.B * (x - x * x * y - p.C * y)
    case Z => p.C * (x - z)
  }

  /** `_reaction(name)`: the reaction rate field of the named species, or
      nothing for a name the model does not declare. The rate at a cell is
      the species' kinetic law applied to that same cell of X, Y and Z. */
  function Reaction(m: Model, name: string): (r: Option<Grid>)
    requires Shaped(m.fields, m.size)
    ensures r.Some? <==> name in ConcentrationNames
    ensures r.Some? ==> Square(r.value, m.size)
    ensures r.Some? ==> forall i, j :: 0 <= i < m.size && 0 <= j < m.size ==>
      r.value[i][j] == Kinetics(SpeciesOf(name).value, m.params, m.fields.x[i][j], m.fields.y[i][j], m.fields.z[i][j])
  {
    var p, f := m.params, m.fields;
    if name == "X" then Some(Map3(f.x, f.y, f.z, (x, y, z) => p.A - x + x * x * y))
    else if name == "Y" then Some(Map3(f.x, f.y, f.z, (x, y, z) => p.B * (x - x * x * y - p.C * y)))
    else if name == "Z" then Some(Map3(f.x, f.y, f.z, (x, y, z) => p.C * (x - z)))
    else None
  }

  /** The reaction rate at a cell depends only on that cell: two models with
      the same parameters whose fields agree at `(i, j)` have the same rate
      there, whatever the other cells hold. */
  lemma ReactionIsLocal(m1: Model, m2: Model, name: string, i: int, j: int)
    requires Shaped(m1.fields, m1.size) && Shaped(m2.fields, m2.size)
    requires m1.params == m2.params && name in ConcentrationNames
    requires 0 <= i < m1.size && 0 <= j < m1.size && 0 <= i < m2.size && 0 <= j < m2.size
    requires m1.fields.x[i][j] == m2.fields.x[i][j]
    requires m1.fields.y[i][j] == m2.fields.y[i][j]
    requires m1.fields.z[i][j] == m2.fields.z[i][j]
    ensures Reaction(m1, name).value[i][j] == Reaction(m2, name).value[i][j]
  {
  }

  /** The Z rate vanishes exactly where X equals Z, whenever C is non-zero
      (as the bounds on C guarantee). */
  lemma ZReactionVanishesWhereXEqualsZ(m: Model, i: int, j: int)
    requires Shaped(m.fields, m.size) && 0 <= i < m.size && 0 <= j < m.size
    requires m.params.C != 0.0
    ensures Reaction(m, "Z").value[i][j] == 0.0 <==> m.fields.x[i][j] == m.fields.z[i][j]
  {
    var x, z := m.fields.x[i][j], m.fields.z[i][j];
    assert Reaction(m, "Z").value[i][j] == m.params.C * (x - z);
    if m.params.C * (x - z) == 0.0 {
      assert x - z == 0.0;
    }
  }

  /** The autocatalytic term `x^2 y` cancels between X and Y: the X rate plus
      the Y rate over B is `A - C y` at every cell. */
  lemma ReactionBalance(m: Model, i: int, j: int)
    requires Shaped(m.fields, m.size) && 0 <= i < m.size && 0 <= j < m.size
    requires m.params.B != 0.0
    ensures Reaction(m, "X").value[i][j] + Reaction(m, "Y").value[i][j] / m.params.B
            == m.params.A - m.params.C * m.fields.y[i][j]
  {
    var p, x, y := m.params, m.fields.x[i][j], m.fields.y[i][j];
    assert Reaction(m, "Y").value[i][j] / p.B == x - x * x * y - p.C * y;
  }

  /** The diffusion coefficient of a species: mu_x, mu_y, mu_z. */
  function Mu(p: Params, s: Species): real {
    match s
    case X => p.muX
    case Y => p.muY
    case Z => p.muZ
  }

  /** `_diffusion(name)`: the diffusion flux field of the named species, or
      nothing for an undeclared name (where the source fails with `arr`
      unbound). The flux has the field's shape and is the species' own field
      diffused with the species' own coefficient. */
  function Diffusion(m: Model, name: string): (r: Option<Grid>)
    requires Shaped(m.fields, m.size) && IsKernel(m.kernel) && m.dx * m.dy != 0.0
    ensures r.Some? <==> name in ConcentrationNames
    ensures r.Some? ==> Square(r.value, m.size)
    ensures r.Some? ==> r.value == Diffuse(Field(m.fields, SpeciesOf(name).value), Mu(m.params, SpeciesOf(name).value),
                                           m.kernel, m.nbNeighbs, m.dx, m.dy)
  {
    var p, f := m.params, m.fields;
    var sel: Option<(Grid, real)> :=
      if name == "X" then Some((f.x, p.muX))
      else if name == "Y" then Some((f.y, p.muY))
      else if name == "Z" then Some((f.z, p.muZ))
      else None;
    match sel
    case None => None
    case Some((arr, mu)) => Some(Diffuse(arr, mu, m.kernel, m.nbNeighbs, m.dx, m.dy))
  }

  /** The flux of one species is blind to the other species: changing their
      fields and their coefficients leaves it unchanged. */
  lemma DiffusionIgnoresOtherSpecies(m1: Model, m2: Model, s: Species)
    requires Shaped(m1.fields, m1.size) && IsKernel(m1.kernel) && m1.dx * m1.dy != 0.0
    requires m2 == m1.(fields := m2.fields, params := m2.params)
    requires Shaped(m2.fields, m2.size)
    requires Field(m1.fields, s) == Field(m2.fields, s) && Mu(m1.params, s) == Mu(m2.params, s)
    ensures Diffusion(m1, Name(s)) == Diffusion(m2, Name(s))
  {
    NameRoundTrip(s);
  }

  /** With the neighbour count equal to the kernel weight, a species whose
      field is uniform has no flux at interior cells, and a species whose
      field is zero has no flux anywhere. */
  lemma DiffusionOfUniformField(m: Model, name: string, c: real)
    requires Shaped(m.fields, m.size) && IsKernel(m.kernel) && m.dx * m.dy != 0.0
    requires m.nbNeighbs == Weight(m.kernel)
    requires name in ConcentrationNames
    requires forall i, j :: 0 <= i < m.size && 0 <= j < m.size ==> Field(m.fields, SpeciesOf(name).value)[i][j] == c
    ensures forall i, j :: Interior(m.size, i, j) ==> Diffusion(m, name).value[i][j] == 0.0
    ensures c == 0.0 ==> forall i, j :: 0 <= i < m.size && 0 <= j < m.size ==> Diffusion(m, name).value[i][j] == 0.0
  {
    var s := SpeciesOf(name).value;
    var g := Field(m.fields, s);
    ConstantFieldInteriorEquilibrium(g, m.size, c, Mu(m.params, s), m.kernel, m.nbNeighbs, m.dx, m.dy);
    if c == 0.0 {
      ZeroFieldNoFlux(g, Mu(m.params, s), m.kernel, m.nbNeighbs, m.dx, m.dy);
    }
  }
}
