/** The tunable parameters the Oregonator model declares, with their defaults
    and bounds, and the record of current parameter values a model holds. */
module Parameters {

  /** Whether assignments to a parameter are cast to an integer. */
  datatype DType = Float | Int

  /** One declared tunable scalar: its default value, inclusive bounds, the
      exponent of its slider scaling (display only) and a description. */
  datatype ModelParameter = ModelParameter(
    name: string,
    value: real,
    min: real,
    max: real,
    exponent: real,
    description: string,
    dtype: DType)

  /** The bound discipline of a declared parameter: a non-empty range that
      holds the value. */
  predicate WellFormed(p: ModelParameter) {
    p.min < p.max && p.min <= p.value <= p.max
  }

  /** Whether `v` lies within the inclusive bounds of `p`. */
  predicate Admits(p: ModelParameter, v: real) {
    p.min <= v <= p.max
  }

  const ParamA := ModelParameter("A", 1.0, 0.1, 5.0, 1.0, "Concentration of productor of X", Float)
  const ParamB := ModelParameter("B", 1.0, 0.1, 5.0, 1.0, "Concentration of productor of Y (combined with X)", Float)
  const ParamC := ModelParameter("C", 0.1, 0.1, 5.0, 1.0, "Concentration of inhibitor", Float)
  const ParamMuX := ModelParameter("mu_x", 0.00002, 0.000001, 0.00005, 1.0, "Diffusion coefficient of X", Float)
  const ParamMuY := ModelParameter("mu_y", 0.00001, 0.0000001, 0.0002, 0.1, "Diffusion coefficient of Y", Float)
  const ParamMuZ := ModelParameter("mu_z", 0.00001, 0.0000001, 0.0002, 0.1, "Diffusion coefficient of Z", Float)
  const ParamNbPos := ModelParameter("nb_pos", 1.0, 1.0, 300.0, 1.0, "Number of random perturbations", Int)

  /** The ordered parameter list of the model; the necessary and the tunable
      parameters are the same list. */
  const Declared: seq<ModelParameter> := [ParamA, ParamB, ParamC, ParamMuX, ParamMuY, ParamMuZ, ParamNbPos]

  /** Class-level defaults of the model geometry (the default time step
      belongs to the explicit-Euler step, which is not part of this model). */
  const DefaultSize: nat := 200
  const DefaultDx: real := 1.0
  const DefaultDy: real := 1.0

  /** The current value of each parameter, as an instance holds them. */
  datatype Params = Params(A: real, B: real, C: real, muX: real, muY: real, muZ: real, nbPos: nat)

  /** Every current value is one its declared parameter admits. */
  predicate InBounds(p: Params) {
    && Admits(ParamA, p.A)
    && Admits(ParamB, p.B)
    && Admits(ParamC, p.C)
    && Admits(ParamMuX, p.muX)
    && Admits(ParamMuY, p.muY)
    && Admits(ParamMuZ, p.muZ)
    && Admits(ParamNbPos, p.nbPos as real)
  }

  /** The values of a freshly constructed instance: each declared default. */
  function Defaults(): (p: Params)
    ensures p.A == ParamA.value && p.B == ParamB.value && p.C == ParamC.value
    ensures p.muX == ParamMuX.value && p.muY == ParamMuY.value && p.muZ == ParamMuZ.value
    ensures p.nbPos as real == ParamNbPos.value
  {
    Params(ParamA.value, ParamB.value, ParamC.value, ParamMuX.value, ParamMuY.value, ParamMuZ.value, 1)
  }

  /** Every declared parameter is well formed, the names are distinct, and the
      inhibitor concentration C starts exactly on its lower bound. */
  lemma DeclaredWellFormed()
    ensures forall k :: 0 <= k < |Declared| ==> WellFormed(Declared[k])
    ensures forall k, l :: 0 <= k < l < |Declared| ==> Declared[k].name != Declared[l].name
    ensures ParamC.value == ParamC.min
    ensures ParamNbPos.dtype == Int && ParamNbPos.min == 1.0
  {
  }

  /** The default values respect every bound, so a default instance is a
      valid configuration. */
  lemma DefaultsInBounds()
    ensures InBounds(Defaults())
  {
  }

  /** In-bounds values keep the divisions of the model defined: A is positive
      (B / A in the initial state) and at least one perturbation is drawn. */
  lemma InBoundsPositive(p: Params)
    requires InBounds(p)
    ensures p.A > 0.0 && p.B > 0.0 && p.C > 0.0
    ensures p.muX > 0.0 && p.muY > 0.0 && p.muZ > 0.0
    ensures 1 <= p.nbPos <= 300
  {
  }
}
