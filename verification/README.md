# Oregonator reaction-diffusion model in Dafny

This project models the Oregonator model of the napari-turing simulator. The
model has three chemical species, X, Y and Z. Each species has a concentration
field on a square `size`-by-`size` grid. The model supplies three things to
the simulation engine:

- the **reaction kinetics** of each species;
- the **diffusion flux** of each species: a 3x3 convolution with zero padding,
  minus the neighbour count times the cell, scaled by the species' diffusion
  coefficient over the cell area `dx * dy`;
- the **initial fields**: uniform baselines (X = A, Y = Z = B/A) with random
  offsets added to X and subtracted from Y and Z at `nb_pos` drawn cells.

Values are Dafny `real`s, an idealisation of numpy doubles. Grids are
`seq<seq<real>>`. Species are chosen by name. For a name outside `"X"`,
`"Y"`, `"Z"`, the reaction and the diffusion both yield `None` (see
"## Left out" for what the source does in that case).

Modules:

- `Wrappers`: `Option` and `Result`.
- `Grids`: grid shape, zero-padded cell access, constant fill, element-wise maps.
- `Parameters`: the declared parameters with their defaults and bounds, and
  the record of current values.
- `Stencil`: the convolution as `scipy.ndimage.convolve(..., mode="constant", cval=0)`
  computes it (kernel flipped, zero padding), and the diffusion flux.
- `Scatter`: numpy's truncating `.astype(int)` and the augmented assignment
  `g[rows, cols] += vals` with integer-array indices.
- `Oregonator`: species, fields, `_reaction`, `_diffusion`.
- `Initialisation`: `init_concentrations`, with the random draws passed in.

## Model

| member | source | states |
|---|---|---|
| `Parameters.DeclaredWellFormed` | src/napari_turing/Models/Oregonator.py:13-71 | every declared parameter has min < max and min <= default <= max; the names are distinct; C's default 0.1 sits exactly on its lower bound; nb_pos is an integer parameter with minimum 1 |
| `Parameters.DefaultsInBounds` | src/napari_turing/Models/Oregonator.py:13-69 | the default parameter values make a configuration that every bound admits |
| `Parameters.InBoundsPositive` | src/napari_turing/Models/Oregonator.py:13-69 | any in-bounds configuration has positive A, B, C and diffusion coefficients and 1 <= nb_pos <= 300, so B / A is always defined |
| `Oregonator.SpeciesOf` | src/napari_turing/Models/Oregonator.py:72 | a name selects a species exactly when it is one of the declared concentration names, and the selected species carries that name |
| `Oregonator.NameRoundTrip` | src/napari_turing/Models/Oregonator.py:72 | species and declared names correspond one to one |
| `Oregonator.WithField` | src/napari_turing/Models/Oregonator.py:103 | storing a species field replaces that field and no other |
| `Oregonator.Reaction` | src/napari_turing/Models/Oregonator.py:74-80 | a rate field exists exactly for the declared names; it has the grid's shape; each cell is the species' kinetic law (X: A - x + x^2 y, Y: B (x - x^2 y - C y), Z: C (x - z)) at that same cell |
| `Oregonator.ReactionIsLocal` | src/napari_turing/Models/Oregonator.py:74-80 | two models with the same parameters whose fields agree at one cell have the same rate at that cell |
| `Oregonator.ZReactionVanishesWhereXEqualsZ` | src/napari_turing/Models/Oregonator.py:79-80 | with C non-zero, the Z rate at a cell is zero if and only if X equals Z there |
| `Oregonator.ReactionBalance` | src/napari_turing/Models/Oregonator.py:75-78 | the autocatalytic term cancels: the X rate plus the Y rate over B is A - C y at every cell |
| `Oregonator.Diffusion` | src/napari_turing/Models/Oregonator.py:82-95 | a flux exists exactly for the declared names; it has the grid's shape; it is the named species' own field diffused with that species' own coefficient (X with mu_x, Y with mu_y, Z with mu_z) |
| `Oregonator.DiffusionIgnoresOtherSpecies` | src/napari_turing/Models/Oregonator.py:83-94 | a species' flux does not change when the other species' fields or coefficients change |
| `Oregonator.DiffusionOfUniformField` | src/napari_turing/Models/Oregonator.py:92-94 | when the neighbour count equals the kernel weight, a uniform species field has zero flux at every interior cell, and an all-zero field has zero flux at every cell |
| `Stencil.Diffuse` | src/napari_turing/Models/Oregonator.py:92-94 | the flux has the field's shape, and each cell is the coefficient times (the zero-padded convolution minus the neighbour count times the cell) over the cell area |
| `Stencil.ZeroFieldNoFlux` | src/napari_turing/Models/Oregonator.py:92-94 | an all-zero field has zero flux everywhere, for any kernel and neighbour count |
| `Stencil.ConstantFieldInteriorEquilibrium` | src/napari_turing/Models/Oregonator.py:92-94 | with the neighbour count equal to the kernel weight, a constant field has zero flux at every cell whose 3x3 neighbourhood is inside the grid |
| `Stencil.VonNeumannIsFivePoint` | src/napari_turing/Models/Oregonator.py:92-93 | with the four-neighbour kernel and neighbour count 4, the net exchange of a cell equals the five-point Laplacian with zero outside the grid |
| `Stencil.ConstantFieldBoundaryLeak` | src/napari_turing/Models/Oregonator.py:92-93 | on a constant field c with the four-neighbour kernel, a cell's net exchange is -c for each orthogonal neighbour outside the grid: zero inside, -c on edges, -2c at corners |
| `Scatter.Trunc` | src/napari_turing/Models/Oregonator.py:98 | the cast to int truncates toward zero: the result is within one of the input, on the side of zero |
| `Scatter.IndicesInRange` | src/napari_turing/Models/Oregonator.py:98 | draws in [0, 1) scaled by a grid size of at least 1 give row and column indices in [0, size) |
| `Scatter.LastHit` | src/napari_turing/Models/Oregonator.py:102 | finds the last index pair that addresses a cell, or reports that none does |
| `Scatter.ScatterUpdate` | src/napari_turing/Models/Oregonator.py:102 | after the first n writes of an indexed augmented assignment, each cell holds its original value combined with the value of the last pair that addresses it, or its original value if no pair does |
| `Scatter.IndexedUpdate` | src/napari_turing/Models/Oregonator.py:102 | `g[rows, cols] op= vals` keeps the shape, leaves cells no pair addresses unchanged, and gives each addressed cell its original value combined with the value of its last pair; offsets do not accumulate |
| `Initialisation.Perturbed` | src/napari_turing/Models/Oregonator.py:100-110 | an initial field is square of the grid size; unperturbed cells hold the species baseline; a perturbed cell holds the baseline plus (X) or minus (Y, Z) the value of its last draw |
| `Initialisation.InitConcentrations` | src/napari_turing/Models/Oregonator.py:97-111 | the call fails exactly when it selects a species on an empty grid with a positive draw count; an undeclared name changes nothing; otherwise the indices are in range and every species holds its initial field if selected and its old field otherwise |
| `Initialisation.InitAllInvariants` | src/napari_turing/Models/Oregonator.py:100-111 | a full initialisation on a non-empty grid succeeds with all fields of the grid's shape; Y equals Z; X + Y equals A + B/A at every cell; unperturbed cells hold A (X) and B/A (Y, Z) |
| `Initialisation.InitAllBounds` | src/napari_turing/Models/Oregonator.py:99-110 | after a full initialisation X lies in [A, A + 1) and Y in (B/A - 1, B/A] at every cell |
| `Initialisation.DefaultModelUsable` | src/napari_turing/Models/Oregonator.py:7-69 | a model with the default size 200, spacing 1 by 1, the four-neighbour kernel and the default parameters meets every operation's preconditions: each declared species has a reaction and a diffusion flux, and initialising all species succeeds with 200-by-200 fields |
| `Initialisation.InitOneSpecies` | src/napari_turing/Models/Oregonator.py:100-111 | initialising one declared species on a non-empty grid succeeds, gives that field the grid's shape and leaves the other two fields unchanged; an undeclared name leaves all fields unchanged |

## Left out

- The explicit-Euler `step`, the kernel and `nb_neighbs` definitions, attribute access and `__setitem__`, and bound validation of parameter assignments all live in the base class `_TuringPattern` / `ModelParameter`. That base class is not part of this model. The kernel and neighbour count are fields of `Model`. Where a property needs the neighbour count to equal the kernel weight, it is a precondition. The four-neighbour kernel is given as `Stencil.VonNeumann`.
- `_model_list.py` only lists model classes in an enumeration. There is no logic in it to model.
- Floating point: rounding, NaN and infinity, and numerical stability are left out. Values are reals.
- The global `np.random` generator is left out. The row draws, column draws and perturbation values are passed in as sequences of reals in [0, 1).
- `default_dt` and the integer cast of assignments to `nb_pos` belong to the step and to parameter assignment in the base class. The parameter table keeps `nb_pos`'s integer type tag, and the model holds `nb_pos` as a natural number.
- `default_contrast_limits`, parameter exponents and descriptions are display metadata. The descriptions and exponents are kept in the parameter table. They play no part in any operation.
- Species fields are assumed to exist before `_reaction` and `_diffusion` are called. The uninitialised state is base-class behaviour.
- `Oregonator.Reaction`: requires the three fields to have the grid's shape. That shape is the invariant the base class keeps. numpy broadcasting of mismatched shapes is not modelled.
- `Oregonator.Diffusion`: requires a 3x3 kernel and a non-zero cell area `dx * dy`. With floats, a zero area would give infinities rather than an error.
- `Initialisation.InitConcentrations`: requires A non-zero. The declared bounds of A guarantee it, and `Parameters.InBoundsPositive` proves it.
- `Oregonator.Diffusion`: its `None` for an undeclared species name stands for the `UnboundLocalError` that `_diffusion` raises at Oregonator.py:92, where `arr` was never bound. The model does not distinguish this exception from the `None` that `_reaction` returns.
- Behaviours of the code that one might not expect, and which the model follows as written:
  - For an undeclared species name, `_reaction` raises nothing. Its branches fall through and it returns `None` (Oregonator.py:74-80). `_diffusion` instead raises `UnboundLocalError`. No dedicated unknown-species error exists in this file.
  - With repeated perturbation cells, numpy's `X[pos] += values` keeps only the last offset for a cell. Offsets do not accumulate.
  - On an empty grid (`size` 0), indexing with the drawn index 0 raises `IndexError` whenever `nb_pos >= 1`. This is modelled as `Failure(IndexOutOfBounds)`. It is not a no-op.
  - `init_concentrations` with a name other than `"X"`, `"Y"`, `"Z"` or `None` still draws the random numbers, then changes no field.
