# scatterxct split-operator stepper, in Dafny

This project models the propagation core of scatterxct, a solver for the
time-dependent Schrödinger equation of a particle on a spatial grid with
several coupled electronic states. The wavefunction is a grid-points × states
array `psi[i][j]`. One timestep of the split-operator method changes that
array in place using two elementary operations:

- the **kinetic step**: transform to momentum space, multiply row `i` by the
  kinetic factor `T[i]` (the same factor for every state), transform back;
- the **potential step**: at every grid point `i`, replace the state vector by
  its product with that point's coupling matrix,
  `psi'[i][j] = Σ_k V[j][k][i] · psi[i][k]`. Every sum reads the old `psi`.

The two steps are combined in one of three fixed orderings (PLAIN, TVT, VTV).
The dispatcher fetches the propagators at the input time and returns
`time + dt`. It rejects any other ordering.

The project also models the sampling helpers of the TullyOne scattering
scripts: the timestep clamp `estimate_dt`, the two-segment sigmoid momentum
sampler, and the initial-momentum list.

Files and modules:

- `results.dfy`, module `Results`: the errors the code raises and a `Result` type that carries them.
- `wavefunction.dfy`, module `Wavefunction`: amplitude tables as values (`Table`); the spectral transform pair, kept abstract; and the class `WaveFunctionData`. Its array field is `const`, so the storage can be overwritten but never rebound.
- `propagator.dfy`, module `Propagators`: the propagator provider, a class with `dt` and four query methods. The queries are pure functions of the time. A ghost log `fetched` records each query and the time it was made at.
- `step.dfy`, module `Step`: the stepper. The elementary steps and the orderings are defined as functions on tables. The in-place methods are proved against those functions, and the lemmas state what the steps mean.
- `utils.dfy`, module `TullyOneUtils`: `estimate_dt`, numpy-style `linspace` and `sort`, `linspace_log10`, `sample_sigmoid` and `get_tullyone_p0_list`.

Modelling choices:

- Amplitudes are exact `real`s, not complex floats. The structure is what is modelled: which operator runs in which order, in-place update, locality and time bookkeeping.
- The FFT pair is a pair of function values `forward`/`backward` on one grid column. `InversePair` requires that both keep the column length and that each undoes the other. The transforms act on each state column on its own, along the grid axis.
- `V` is indexed `V[j][k][i]`, shape (nstates, nstates, ngrid), as the einsum `"jki,ik->ij"` reads it. The comment at `scatterxct/dynamics/step.py:57` gives the shape as (ngrid, nstates, nstates); the code is followed here.
- The ordering reaches the dispatcher as its value: 1, 2 or 3 for PLAIN, TVT and VTV. Any other integer stands for an object that is not one of the three members, and it takes the `ValueError` path.
- `estimate_dt` uses `PI = 3.141592653589793`, the decimal value of numpy's `pi`. A zero frequency is modelled as the `ZeroDivisionError` that the division raises for a Python `float`; see "Left out" for the numpy scalar the script passes.
- Keyword defaults are kept as Dafny default parameters: `dt = 0.1` (`EstimateDt`), `split_operator_type = PLAIN` (`Propagate`, value 1), `num = 50` (`LinspaceLog10`) and `pulse_type = NO_PULSE` (`GetTullyOneP0List`). The uninterpreted `LogScale` comes first in the last two signatures so that the defaulted parameter can come last.
- Python's `//` on integers is modelled by Dafny's `/`. The divisors are the positive constants 2 and 3, and for those floor division and Euclidean division agree.

The model keeps these behaviours of the code as written:

- An unknown ordering raises `ValueError`.
- `step.py` validates no shapes. Shape agreement is a precondition here; see "Left out".
- For TVT and VTV, the half-step propagators are sampled at the start time `time`, not at a midpoint. The model keeps the start time.

## Model

| member | source | states |
|---|---|---|
| `Step.ParseSplitOperatorType` | scatterxct/dynamics/step.py:11-15 | The ordering is accepted exactly for the values 1, 2 and 3, each mapped to the member with that value. Every other value fails with `UnknownSplitOperatorType`. |
| `Step.ParseTag` | scatterxct/dynamics/step.py:11-15 | Each of PLAIN, TVT and VTV is recognised from its own value. |
| `Step.ScaleRows` | scatterxct/dynamics/step.py:29 | The broadcast product `psi * T[:, np.newaxis]` on tables: entry `[i][j]` of the result is `T[i]·m[i][j]`, and the table keeps its shape. |
| `Step.KineticStep` | scatterxct/dynamics/step.py:28-30 | The kinetic step on tables: the result keeps the table's shape, and its momentum-space form is the old momentum-space form with row `i` scaled by `T[i]`. |
| `Step.PotentialStep` | scatterxct/dynamics/step.py:40-42 | The potential step on tables: entry `[i][j]` is `Dot(V, m[i], i, j)`, the sum `Σ_k V[j][k][i]·psi[i][k]` over the old table, and the result keeps the table's shape. |
| `Step.PlainStep` | scatterxct/dynamics/step.py:50-51 | The PLAIN ordering on tables: the potential step by `V` applied to the kinetic step by `T`, keeping the shape. |
| `Step.TVTStep` | scatterxct/dynamics/step.py:59-61 | The TVT ordering on tables: kinetic by `halfT`, then potential by `V`, then kinetic by `halfT`, keeping the shape. |
| `Step.VTVStep` | scatterxct/dynamics/step.py:69-71 | The VTV ordering on tables: potential by `halfV`, then kinetic by `T`, then potential by `halfV`, keeping the shape. |
| `Step.KineticScalesInMomentumSpace` | scatterxct/dynamics/step.py:28-30 | Seen in momentum space, the kinetic step multiplies entry `[i][j]` by `T[i]` for every state `j`. It is exactly the row scaling by `T`. |
| `Step.KineticWithUnitFactorsIsIdentity` | scatterxct/dynamics/step.py:28-30 | With every kinetic factor equal to one, the kinetic step leaves `psi` unchanged. This uses the transform round trip. |
| `Step.KineticStepsCompose` | scatterxct/dynamics/step.py:28-30 | Two kinetic steps with factors `a` and then `b` equal one kinetic step with the factorwise product `a·b`. |
| `Step.PotentialWithIdentityIsIdentity` | scatterxct/dynamics/step.py:40-42 | With the identity matrix at every grid point, the potential step leaves `psi` unchanged. |
| `Step.PotentialIsLocal` | scatterxct/dynamics/step.py:40-42 | Row `i` of the potential step's result depends only on row `i` of `psi` and on the matrix `V[.][.][i]`. |
| `Step.PlainFreeParticleInMomentumSpace` | scatterxct/dynamics/step.py:50-51 | For a free particle (identity potential), one PLAIN step in momentum space only scales row `i` by `T[i]`. |
| `Step.TVTWithIdentityPotential` | scatterxct/dynamics/step.py:59-61 | With the identity potential, TVT equals a single kinetic step by the squared half-step factors. |
| `Step.VTVWithUnitKinetic` | scatterxct/dynamics/step.py:69-71 | With unit kinetic factors, VTV equals the half-step potential applied twice. |
| `Step.ScaleRowInPlace` | scatterxct/dynamics/step.py:29 | Only row `i` of the array changes, and each of its entries is multiplied by the factor. |
| `Step.ScaleRowsInPlace` | scatterxct/dynamics/step.py:29 | The in-place broadcast multiplication: the array's new contents are the old contents with row `i` scaled by `T[i]`. |
| `Step.KineticPropagate` | scatterxct/dynamics/step.py:17-31 | The array is overwritten with the kinetic step of its old contents: forward transform, row scaling, inverse transform. Only `psi` is modified, and the same container is returned. |
| `Step.CoupledAmplitude` | scatterxct/dynamics/step.py:40 | Returns `Σ_k V[j][k][i]·psi[i][k]`, the entry `[i][j]` of the einsum. It changes nothing. |
| `Step.CoupleStates` | scatterxct/dynamics/step.py:40 | The einsum `"jki,ik->ij"` into a freshly allocated `output` of the same shape. Every entry is computed from the unchanged input. |
| `Step.Overwrite` | scatterxct/dynamics/step.py:42 | The slice assignment `psi[:] = output`: every element of the existing array is overwritten, and the array is not replaced. |
| `Step.PotentialPropagate` | scatterxct/dynamics/step.py:33-43 | The array is overwritten with the potential step of its old contents, with every sum reading the old `psi`. Only `psi` is modified, and the same container is returned. |
| `Step.PlainPropagate` | scatterxct/dynamics/step.py:45-52 | The new contents are kinetic(T) followed by potential(V), applied to the old contents. |
| `Step.TVTPropagate` | scatterxct/dynamics/step.py:54-62 | The new contents are kinetic(halfT), then potential(V), then kinetic(halfT), applied to the old contents. |
| `Step.VTVPropagate` | scatterxct/dynamics/step.py:64-72 | The new contents are potential(halfV), then kinetic(T), then potential(halfV), applied to the old contents. |
| `Step.Propagate` | scatterxct/dynamics/step.py:74-96 | Succeeds exactly for values 1 to 3 and then returns `(time + dt, data)`. It applies that ordering's composition, using propagators fetched at the input `time`. The exact sequence of queries is stated: (full T, full V) for PLAIN, (half T, full V) for TVT, (full T, half V) for VTV. For an unknown value it fails with `UnknownSplitOperatorType`, leaves `psi` untouched and fetches nothing. |
| `Propagators.Propagator.GetTPropagator` | scatterxct/dynamics/step.py:81 | Returns the full kinetic propagator at the given time and logs a full-T query at that time. |
| `Propagators.Propagator.GetVPropagator` | scatterxct/dynamics/step.py:82 | Returns the full potential propagator at the given time and logs a full-V query at that time. |
| `Propagators.Propagator.GetHalfTPropagator` | scatterxct/dynamics/step.py:86 | Returns the half-step kinetic propagator at the given time and logs a half-T query at that time. |
| `Propagators.Propagator.GetHalfVPropagator` | scatterxct/dynamics/step.py:92 | Returns the half-step potential propagator at the given time and logs a half-V query at that time. |
| `Wavefunction.ToMomentum` | scatterxct/dynamics/step.py:28 | The table in momentum space: column `j` of the result is the forward transform of column `j`, and the shape is kept. |
| `Wavefunction.ToPosition` | scatterxct/dynamics/step.py:30 | The table in position space: column `j` of the result is the backward transform of column `j`, and the shape is kept. |
| `Wavefunction.WaveFunctionData.TransformColumns` | scatterxct/dynamics/step.py:28-30 | The in-place transform behind both calls: the same array is overwritten with `MapColumns` of its old contents, so each state column `c` becomes `f(c)`. |
| `Wavefunction.PositionAfterMomentum` | scatterxct/dynamics/step.py:28-30 | Transforming the whole table to momentum space and back returns the table unchanged. |
| `Wavefunction.MomentumAfterPosition` | scatterxct/dynamics/step.py:28-30 | The round trip in the other direction also returns the table unchanged. |
| `Wavefunction.MapColumns` | scatterxct/dynamics/step.py:28 | The transform acts along the grid axis only: column `j` of the result is the transform of column `j`. |
| `Wavefunction.WaveFunctionData.RealSpaceToKSpace` | scatterxct/dynamics/step.py:28 | The same array is overwritten with the momentum-space table of its old contents. |
| `Wavefunction.WaveFunctionData.KSpaceToRealSpace` | scatterxct/dynamics/step.py:30 | The same array is overwritten with the position-space table of its old contents. |
| `TullyOneUtils.EstimateDt` | simulation_scripts/00-tullyone/utils.py:59-65 | Fails exactly when `Omega == 0`. Otherwise the result is at most `dt`, at most `T/10` with `T = 2π/Omega`, and equal to one of the two. |
| `TullyOneUtils.EstimateDtIsMin` | simulation_scripts/00-tullyone/utils.py:59-65 | The result is `min(dt, T/10)`. |
| `TullyOneUtils.EstimateDtIdempotent` | simulation_scripts/00-tullyone/utils.py:59-65 | Feeding the result back in as `dt` returns it unchanged. |
| `TullyOneUtils.Sort` | simulation_scripts/00-tullyone/utils.py:42 | Returns an ascending permutation of its input, of the same length. |
| `TullyOneUtils.Insert` | simulation_scripts/00-tullyone/utils.py:44 | Inserting into a sorted sequence gives a sorted sequence holding one more copy of the inserted value. |
| `TullyOneUtils.Linspace` | simulation_scripts/00-tullyone/utils.py:56 | Fails exactly for a negative count. Otherwise it returns exactly `num` samples. |
| `TullyOneUtils.LinspaceEndpoints` | simulation_scripts/00-tullyone/utils.py:56 | The first sample is `start`. With at least two samples, the last sample is exactly `stop`. |
| `TullyOneUtils.LinspaceEvenlySpaced` | simulation_scripts/00-tullyone/utils.py:56 | Neighbouring samples differ by the constant spacing `(stop - start)/(num - 1)`. |
| `TullyOneUtils.LinspaceAscending` | simulation_scripts/00-tullyone/utils.py:56 | From a lower start to a higher stop, the samples ascend. |
| `TullyOneUtils.LinspaceLog10` | simulation_scripts/00-tullyone/utils.py:37-38 | Fails exactly for a negative count. Otherwise it returns exactly `num` samples. |
| `TullyOneUtils.SigmoidHead` | simulation_scripts/00-tullyone/utils.py:42 | The first segment has `n//2` samples and is ascending. |
| `TullyOneUtils.SigmoidHeadPermutation` | simulation_scripts/00-tullyone/utils.py:42 | For a non-negative count, the first segment is a permutation of the reflected log samples `x_center + x_left - linspace_log10(x_left, x_center, n//2)`. |
| `TullyOneUtils.SigmoidTail` | simulation_scripts/00-tullyone/utils.py:44 | The second segment has `n - n//2` samples and is ascending. |
| `TullyOneUtils.SigmoidTailPermutation` | simulation_scripts/00-tullyone/utils.py:44 | For a non-negative count, the second segment moved back down by `x_center - x_left + dp` is a permutation of the log samples `linspace_log10(x_left, x_center, n - n//2)`. |
| `TullyOneUtils.SampleSigmoid` | simulation_scripts/00-tullyone/utils.py:40-45 | On success, `n//2 ≥ 2` and there are exactly `n` samples. The first `n//2` are the sorted first segment, and the rest are the sorted second segment. `dp`, the gap between the last two samples of the first segment, is non-negative. |
| `TullyOneUtils.SampleSigmoidErrors` | simulation_scripts/00-tullyone/utils.py:42-43 | Fails exactly when `n//2 < 2`. A negative count raises linspace's error. A first segment of length 0 or 1 raises the IndexError of `p0_seg1[-1]` or of `p0_seg1[-2]`. |
| `TullyOneUtils.GetTullyOneP0List` | simulation_scripts/00-tullyone/utils.py:47-57 | On success, the list has exactly `nsamples` entries. |
| `TullyOneUtils.P0ListDefinedExactly` | simulation_scripts/00-tullyone/utils.py:47-57 | The list is built exactly when `nsamples ≥ 8` (NO_PULSE, PULSE_TYPE3) or `nsamples ≥ 6` (PULSE_TYPE1, PULSE_TYPE2). |
| `TullyOneUtils.P0ListSegments` | simulation_scripts/00-tullyone/utils.py:48-57 | The list splits at `nsamples//2` or `nsamples//3*2` into the sigmoid samples and the `linspace` of the second range. That segment is ascending, evenly spaced (by `LinspaceEvenlySpaced`) and runs exactly from the lower to the upper second bound: 13 to 35, or 20 to 35. |

## Left out

- The FFT itself (`real_space_to_k_space` / `k_space_to_real_space`) is not part of this model. It is an abstract pair of functions that are exact inverses along the grid axis.
- Complex arithmetic, floating-point rounding, unitarity, norm conservation and the accuracy order of TVT/VTV are not modelled. Amplitudes are exact reals; these are numerical claims, not structural ones.
- How the provider builds `T` and `V` (exponentials of the Hamiltonian) is not part of this model. The four queries are arbitrary pure functions of time.
- `Propagators.Propagator`: the `fetched` log is a ghost record kept by the model. scatterxct's `PropagatorBase` keeps no such record. The log only makes the query order and query times stateable.
- `Step.KineticPropagate`: requires `|T|` to equal the grid size. A length-1 `T` would scale every row by `T[0]`, and any other length different from the grid size would raise numpy's broadcasting error; neither is modelled.
- `Step.PotentialPropagate`: requires `V` to have shape (nstates, nstates, ngrid). A mismatch in V's second or third axis raises the einsum's shape error. A first axis of length 1 is broadcast over every state by `psi[:] = output`, and any other wrong length there raises that assignment's broadcast error. None of this is modelled.
- `Step.Propagate`: requires the provider's shapes to match the wavefunction. Shape errors are not modelled.
- `Step.Propagate`: the ordering is passed as its integer value. In Python a bare `1` does not compare equal to the plain `Enum` member `SplitOperatorType.PLAIN`, so a bare int also takes the `ValueError` branch there.
- `TullyOneUtils.EstimateDt`: the script passes `Omega` as a numpy `float64` element, for which a zero frequency gives an infinite period with a `RuntimeWarning`, and the function then returns `dt` (or `-inf` for `-0.0`). The model fails with `DivisionByZero` instead, as a Python `float` would; signed zeros and infinities are not modelled.
- `TullyOneUtils.LinspaceLog10`: `log10` and `10**x` are uninterpreted functions, so the actual log-spaced values are not modelled.
- `TullyOneUtils.Linspace`: numpy's float rounding, and its explicit write of `stop` into the last sample, are not modelled. Over exact reals the formula already ends at `stop`, as `LinspaceEndpoints` proves.
- `TullyOneUtils.Sort`: numpy's sorting algorithm is replaced by insertion sort. Only the result, an ascending permutation, is modelled.
- `TullyOneUtils.GetTullyOneP0List`: the pulse type is a closed datatype of the four members the scripts use. A fifth member would fall through both branches and raise `UnboundLocalError`; that case is not modelled.
- `estimate_delay_time_tullyone` (Ehrenfest dynamics through an external integrator, and printing) is not part of this model.
- `simulation_scripts/00-tullyone/01-scatter-tullyone.py` is orchestration and is not part of this model: argument parsing, parallel dispatch, file output and the ffmpeg probe.
