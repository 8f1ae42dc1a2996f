/** `init_concentrations`: uniform baseline fields perturbed at randomly drawn
    cells, with the random generator replaced by caller-supplied draws. */
module Initialisation {
  import opened Wrappers
  import opened Grids
  import opened Parameters
  import opened Scatter
  import opened Stencil
  import opened Oregonator

  /** The draws of one call: `np.random.random((2, nb_pos))` gives the row and
      column draws, `np.random.random(nb_pos)` the perturbation values. */
  datatype Draws = Draws(rowDraws: seq<real>, colDraws: seq<real>, values: seq<real>)

  /** Draws as the generator produces them: `n` of each, all in [0, 1). */
  ghost predicate ValidDraws(d: Draws, n: nat) {
    && |d.rowDraws| == n && |d.colDraws| == n && |d.values| == n
    && (forall k :: 0 <= k < n ==> Unit(d.rowDraws[k]))
    && (forall k :: 0 <= k < n ==> Unit(d.colDraws[k]))
    && (forall k :: 0 <= k < n ==> Unit(d.values[k]))
  }

  /** Indexing an empty grid with a drawn index raises numpy's IndexError. */
  datatype InitError = IndexOutOfBounds

  /** Whether a call with argument `which` (`None` for all species)
      initialises species `s`. */
  predicate Selected(which: Option<string>, s: Species) {
    which.None? || which.value == Name(s)
  }

  predicate SelectsAny(which: Option<string>) {
    Selected(which, X) || Selected(which, Y) || Selected(which, Z)
  }

  /** The uniform value of a freshly initialised field: A for X, B / A for
      Y and Z. */
  function Baseline(s: Species, p: Params): real
    requires p.A != 0.0
  {
    match s
    case X => p.A
    case Y => p.B / p.A
    case Z => p.B / p.A
  }

  /** X gains the perturbation values (`+=`), Y and Z lose them (`-=`). */
  function Direction(s: Species): Update {
    match s
    case X => Add
    case Y => Sub
    case Z => Sub
  }

  /** The initial field of one species: the baseline everywhere, moved by
      the value of the last perturbation drawn at each perturbed cell. */
  function Perturbed(s: Species, p: Params, size: nat, rows: seq<int>, cols: seq<int>, vals: seq<real>): (r: Grid)
    requires p.A != 0.0 && |rows| == |cols| == |vals|
    requires forall k :: 0 <= k < |rows| ==> 0 <= rows[k] < size && 0 <= cols[k] < size
    ensures Square(r, size)
    ensures forall i, j :: 0 <= i < size && 0 <= j < size && (forall k :: 0 <= k < |rows| ==> !Hits(rows, cols, k, i, j)) ==>
      r[i][j] == Baseline(s, p)
    ensures forall i, j, k ::
      && 0 <= i < size && 0 <= j < size && 0 <= k < |rows| && Hits(rows, cols, k, i, j)
      && (forall l :: k < l < |rows| ==> !Hits(rows, cols, l, i, j))
      ==> r[i][j] == Apply(Direction(s), Baseline(s, p), vals[k])
  {
    var g := Fill(size, Baseline(s, p));
    assert IndexesInto(g, rows, cols);
    IndexedUpdate(g, Direction(s), rows, cols, vals)
  }

  /** Replaces the field of `s` with its initial field when `which` selects it. */
  function InitSpecies(f: Fields, which: Option<string>, s: Species, p: Params, size: nat,
                       rows: seq<int>, cols: seq<int>, vals: seq<real>): (r: Fields)
    requires p.A != 0.0 && |rows| == |cols| == |vals|
    requires forall k :: 0 <= k < |rows| ==> 0 <= rows[k] < size && 0 <= cols[k] < size
    ensures Field(r, s) == if Selected(which, s) then Perturbed(s, p, size, rows, cols, vals) else Field(f, s)
    ensures forall t :: t != s ==> Field(r, t) == Field(f, t)
  {
    if Selected(which, s) then WithField(f, s, Perturbed(s, p, size, rows, cols, vals)) else f
  }

  /** Every index pair addresses a cell of a `size`-by-`size` grid. */
  predicate InRange(rows: seq<int>, cols: seq<int>, size: nat) {
    |rows| == |cols| && forall k :: 0 <= k < |rows| ==> 0 <= rows[k] < size && 0 <= cols[k] < size
  }

  /** The fields after initialising the species `which` selects, X first,
      then Y, then Z, at the given perturbation cells. */
  function InitFields(f: Fields, which: Option<string>, p: Params, size: nat,
                      rows: seq<int>, cols: seq<int>, vals: seq<real>): (r: Fields)
    requires p.A != 0.0 && InRange(rows, cols, size) && |vals| == |rows|
    ensures forall s :: Field(r, s) == if Selected(which, s) then Perturbed(s, p, size, rows, cols, vals) else Field(f, s)
  {
    var fx := InitSpecies(f, which, X, p, size, rows, cols, vals);
    var fy := InitSpecies(fx, which, Y, p, size, rows, cols, vals);
    InitSpecies(fy, which, Z, p, size, rows, cols, vals)
  }

  /** `init_concentrations(which)`. Every selected species gets its initial
      field; the others keep theirs. On an empty grid any drawn index is out
      of bounds, so a call that selects a species fails there. */
  function InitConcentrations(m: Model, which: Option<string>, d: Draws): (r: Result<Fields, InitError>)
    requires m.params.A != 0.0
    requires ValidDraws(d, m.params.nbPos)
    ensures r.Failure? <==> m.size == 0 && m.params.nbPos > 0 && SelectsAny(which)
    ensures r.Success? && !SelectsAny(which) ==> r.value == m.fields
    ensures r.Success? ==> forall s :: !Selected(which, s) ==> Field(r.value, s) == Field(m.fields, s)
    ensures r.Success? && SelectsAny(which) ==>
      && InRange(Indices(d.rowDraws, m.size), Indices(d.colDraws, m.size), m.size)
      && forall s :: Selected(which, s) ==>
           Field(r.value, s) == Perturbed(s, m.params, m.size, Indices(d.rowDraws, m.size), Indices(d.colDraws, m.size), d.values)
  {
    var rows, cols := Indices(d.rowDraws, m.size), Indices(d.colDraws, m.size);
    if !SelectsAny(which) then Success(m.fields)
    else if m.size == 0 && m.params.nbPos > 0 then Failure(IndexOutOfBounds)
    else
      assert InRange(rows, cols, m.size) by {
        if m.size >= 1 {
          IndicesInRange(d.rowDraws, m.size);
          IndicesInRange(d.colDraws, m.size);
        }
      }
      Success(InitFields(m.fields, which, m.params, m.size, rows, cols, d.values))
  }

  /** The cells the draws perturb. */
  ghost function PerturbedCells(rows: seq<int>, cols: seq<int>): set<(int, int)>
    requires |rows| == |cols|
  {
    set k | 0 <= k < |rows| :: (rows[k], cols[k])
  }

  /** A full initialisation on a non-empty grid succeeds and yields fields of
      the model's shape; Y and Z are identical, X + Y is A + B/A at every
      cell, and every cell outside the perturbed ones holds the baseline. */
  lemma InitAllInvariants(m: Model, d: Draws)
    requires m.params.A != 0.0 && ValidDraws(d, m.params.nbPos) && m.size >= 1
    ensures InitConcentrations(m, None, d).Success?
    ensures Shaped(InitConcentrations(m, None, d).value, m.size)
    ensures InitConcentrations(m, None, d).value.y == InitConcentrations(m, None, d).value.z
    ensures forall i, j :: 0 <= i < m.size && 0 <= j < m.size ==>
      InitConcentrations(m, None, d).value.x[i][j] + InitConcentrations(m, None, d).value.y[i][j]
      == m.params.A + m.params.B / m.params.A
    ensures forall i, j ::
      && 0 <= i < m.size && 0 <= j < m.size
      && (i, j) !in PerturbedCells(Indices(d.rowDraws, m.size), Indices(d.colDraws, m.size))
      ==>
      && InitConcentrations(m, None, d).value.x[i][j] == m.params.A
      && InitConcentrations(m, None, d).value.y[i][j] == m.params.B / m.params.A
      && InitConcentrations(m, None, d).value.z[i][j] == m.params.B / m.params.A
  {
    var f := InitConcentrations(m, None, d).value;
    var p := m.params;
    var rows, cols := Indices(d.rowDraws, m.size), Indices(d.colDraws, m.size);
    assert Selected(None, X) && Selected(None, Y) && Selected(None, Z);
    assert f.x == Perturbed(X, p, m.size, rows, cols, d.values);
    assert f.y == Perturbed(Y, p, m.size, rows, cols, d.values);
    assert f.z == Perturbed(Z, p, m.size, rows, cols, d.values);
    forall i, j | 0 <= i < m.size && 0 <= j < m.size
      ensures f.x[i][j] + f.y[i][j] == p.A + p.B / p.A
    {
    }
    forall i, j | 0 <= i < m.size && 0 <= j < m.size && (i, j) !in PerturbedCells(rows, cols)
      ensures f.x[i][j] == p.A && f.y[i][j] == p.B / p.A && f.z[i][j] == p.B / p.A
    {
      forall k | 0 <= k < |rows|
        ensures !Hits(rows, cols, k, i, j)
      {
        assert (rows[k], cols[k]) in PerturbedCells(rows, cols);
      }
    }
  }

  /** Perturbations are draws in [0, 1), so a full initialisation keeps X in
      [A, A + 1) and Y in (B/A - 1, B/A] at every cell. */
  lemma InitAllBounds(m: Model, d: Draws)
    requires m.params.A != 0.0 && ValidDraws(d, m.params.nbPos) && m.size >= 1
    ensures InitConcentrations(m, None, d).Success?
    ensures forall i, j :: 0 <= i < m.size && 0 <= j < m.size ==>
      && m.params.A <= InitConcentrations(m, None, d).value.x[i][j] < m.params.A + 1.0
      && m.params.B / m.params.A - 1.0 < InitConcentrations(m, None, d).value.y[i][j] <= m.params.B / m.params.A
  {
    var f := InitConcentrations(m, None, d).value;
    var p := m.params;
    var rows, cols := Indices(d.rowDraws, m.size), Indices(d.colDraws, m.size);
    assert Selected(None, X) && Selected(None, Y);
    assert f.x == Perturbed(X, p, m.size, rows, cols, d.values);
    assert f.y == Perturbed(Y, p, m.size, rows, cols, d.values);
    forall i, j | 0 <= i < m.size && 0 <= j < m.size
      ensures p.A <= f.x[i][j] < p.A + 1.0 && p.B / p.A - 1.0 < f.y[i][j] <= p.B / p.A
    {
      var h := LastHit(rows, cols, i, j, |rows|);
      if h.Some? {
        assert Unit(d.values[h.value]);
      }
    }
  }

  /** Initialising one named species on a non-empty grid succeeds, replaces
      that species' field by a field of the model's shape and leaves the
      other two fields as they were; an undeclared name changes nothing. */
  lemma InitOneSpecies(m: Model, name: string, d: Draws)
    requires m.params.A != 0.0 && ValidDraws(d, m.params.nbPos) && m.size >= 1
    ensures InitConcentrations(m, Some(name), d).Success?
    ensures name !in ConcentrationNames ==> InitConcentrations(m, Some(name), d).value == m.fields
    ensures name in ConcentrationNames ==>
      var s := SpeciesOf(name).value;
      && Square(Field(InitConcentrations(m, Some(name), d).value, s), m.size)
      && forall t :: t != s ==> Field(InitConcentrations(m, Some(name), d).value, t) == Field(m.fields, t)
  {
    var f := InitConcentrations(m, Some(name), d).value;
    if name in ConcentrationNames {
      var s := SpeciesOf(name).value;
      assert Selected(Some(name), s);
      forall t | t != s
        ensures !Selected(Some(name), t)
      {
        NameRoundTrip(t);
      }
    } else {
      forall t
        ensures !Selected(Some(name), t)
      {
        NameRoundTrip(t);
      }
      assert f.x == m.fields.x && f.y == m.fields.y && f.z == m.fields.z;
    }
  }

  /** A model built from the class defaults (default size and spacing, the
      four-neighbour kernel with its neighbour count, the default parameter
      values) meets the preconditions of every operation: each declared
      species has a reaction and a diffusion flux, and initialising all
      species succeeds with fields of the default shape. */
  lemma DefaultModelUsable(f: Fields, d: Draws)
    requires Shaped(f, DefaultSize)
    requires ValidDraws(d, Defaults().nbPos)
    ensures IsKernel(VonNeumann) && DefaultDx * DefaultDy != 0.0 && Defaults().A != 0.0
    ensures Weight(VonNeumann) == 4.0
    ensures forall n :: n in ConcentrationNames ==>
      && Reaction(Model(DefaultSize, DefaultDx, DefaultDy, VonNeumann, 4.0, Defaults(), f), n).Some?
      && Diffusion(Model(DefaultSize, DefaultDx, DefaultDy, VonNeumann, 4.0, Defaults(), f), n).Some?
    ensures InitConcentrations(Model(DefaultSize, DefaultDx, DefaultDy, VonNeumann, 4.0, Defaults(), f), None, d).Success?
    ensures Shaped(InitConcentrations(Model(DefaultSize, DefaultDx, DefaultDy, VonNeumann, 4.0, Defaults(), f), None, d).value, DefaultSize)
  {
    VonNeumannWeight();
    DefaultsInBounds();
    InBoundsPositive(Defaults());
    InitAllInvariants(Model(DefaultSize, DefaultDx, DefaultDy, VonNeumann, 4.0, Defaults(), f), d);
  }
}
