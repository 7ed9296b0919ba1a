# pycbc-cal calibration model in Dafny

This project models the `Calibration` class of `pycbc_cal/cal.py`: the
reference transfer functions of one gravitational-wave detector epoch t0,
and the sensing function C, open-loop gain G and response function R
rebuilt from them for drifted calibration parameters:

- C(f) = c_res(f) · κ_c / (1 + j f / (fc0 + Δfc)), with c_res = c0 · (1 + j f / fc0)
- G(f) = C(f) · d0(f) · (a_tst0(f) · κ_tst + a_pu0(f) · κ_pu)
- R(f) = (1 + G(f)) / C(f)

The source evaluates these with numpy in floating point. The model uses
exact reals: a complex number is a pair of `real`s (`complex.dfy`, module
`ComplexArith`), and a transfer function is a `seq<Complex>` with one sample
per frequency of the shared grid (`spectrum.dfy`, module `Spectrum`, which
holds numpy's element-wise `+`, `*`, `/`, `1.0 / x` and `numpy.real`). Under
exact arithmetic, `update_c`, `update_g` and `update_r` called with their
default arguments reproduce c0, g0 and r0 exactly, and the model proves it.

`cal.dfy` (module `Cal`) holds the class itself:

- Its fields are `const`. The constructor is the only code that sets them,
  so `update_c`, `update_g` and `update_r` cannot change `freq`, `c0`,
  `invc0`, `d0`, `a_tst0`, `a_pu0`, `fc0`, `g0`, `r0` or `c_res`. They are
  modelled as functions of the object (`UpdateC`, `UpdateG`, `UpdateR`) that
  return a new array.
- The constructor follows `__init__` step by step:
  1. It takes the real parts of `freq`.
  2. It runs the `invc0` branch and then the `c0` branch. The `c0` branch
     overwrites, so when both are given, c0 wins.
  3. It sets g0 and r0.
  4. It sets `c_res` only when `fc0` is given.
- The class invariant `Valid()` holds after construction and is required by
  every update. It says:
  - every array has the length of `freq`;
  - c0 has no zero sample, and c0·invc0 = 1 at every sample;
  - g0, r0 and c_res are given by their formulas.
- When the model has no `fc0`, `update_c` raises in the source, because
  `None + delta_fc` is a type error. Every update then returns
  `Failure(MissingReference)`. A construction with neither `c0` nor `invc0`
  is `Failure(InvalidInput)` in `SensingReference`. The source would fail on
  line 56, so the constructor requires one of the two.
- A division by zero in numpy gives inf/nan, not an error. Each such case is
  a precondition:
  - `invc0` is non-zero wherever it is given, because line 44 divides by it
    even when `c0` is also given;
  - `c0` is non-zero wherever it is given;
  - fc0 ≠ 0;
  - fc0 + Δfc ≠ 0 for an update;
  - κ_c ≠ 0 for `update_r`, which divides by C, when fc0 is given (without
    fc0 every κ_c gives `MissingReference`).
- A sample is "non-zero" when re² + im² ≠ 0. The pole factor 1 + j f/fc has
  real part 1, so it is never zero. This is why the pole can be factored out
  of c0 and put back exactly.
- The docstrings (cal.py:24, 27) ask for either `invc0` or `c0`; the code
  accepts both, and then c0 wins.
- The docstrings (cal.py:76, 98, 135) document κ_c as a float; the model
  takes a `real`.

## Model

| member | source | states |
|---|---|---|
| `Cal.SensingReference` | pycbc_cal/cal.py:42-47 | with neither c0 nor invc0 the result is `InvalidInput`; a given c0 is kept (it wins over invc0); with only invc0, invc0 is kept; in every success c0 has no zero and c0·invc0 = 1 at every sample |
| `Cal.Calibration.constructor` | pycbc_cal/cal.py:10-64 | establishes `Valid()`; freq is the real part of the argument; (c0, invc0) is what `SensingReference` chooses; d0, a_tst0, a_pu0, fc0 are stored as given; g0 = c0·d0·(a_tst0+a_pu0); r0 = (1+g0)/c0; c_res exists iff fc0 is given and then equals c0·(1 + j·freq/fc0); all fields are constants |
| `Cal.OpenLoopGain` | pycbc_cal/cal.py:56 | the gain c·d·(a_tst+a_pu) lies on the same grid as its inputs; the one formula serves both g0 (line 56) and G (line 121) |
| `Cal.Response` | pycbc_cal/cal.py:59 | the response R = (1+G)/C satisfies R·C = 1 + G at every sample, for a C with no zero |
| `Cal.Calibration.UpdateC` | pycbc_cal/cal.py:67-85 | fails with `MissingReference` exactly when fc0 was not given; otherwise returns one sample per frequency with C·(1 + j f/(fc0+Δfc)) = κ_c·c0·(1 + j f/fc0) |
| `Cal.Calibration.UpdateG` | pycbc_cal/cal.py:87-121 | fails with `MissingReference` exactly when fc0 was not given; otherwise one sample per frequency with G·(1 + j f/(fc0+Δfc)) = κ_c·c0·(1 + j f/fc0)·d0·(a_tst0·κ_tst + a_pu0·κ_pu), with κ_tst = κ_tst_re + j κ_tst_im and κ_pu likewise |
| `Cal.Calibration.UpdateR` | pycbc_cal/cal.py:124-159 | fails with `MissingReference` exactly when fc0 was not given; otherwise R·C = 1 + G at every frequency, with C and G from `UpdateC`/`UpdateG` at the same parameters |
| `Cal.SensingNonZero` | pycbc_cal/cal.py:84-85 | for κ_c ≠ 0 the updated sensing function has no zero sample, so the division on line 159 is defined |
| `Cal.SensingAtIdentity` | pycbc_cal/cal.py:63-85 | `update_c(0, 1)` returns exactly c0: the pole factor multiplied into c_res is divided back out |
| `Cal.SensingLinearInKappa` | pycbc_cal/cal.py:84-85 | `update_c(Δfc, s·κ_c)` = s·`update_c(Δfc, κ_c)` at every frequency |
| `Cal.GainAtIdentity` | pycbc_cal/cal.py:87-121 | `update_g` at the default parameters (0, 1, 1, 0, 1, 0) returns exactly g0 |
| `Cal.GainSplitsByStage` | pycbc_cal/cal.py:118-121 | G with both actuation corrections is G with only the test-mass correction plus G with only the penultimate-mass correction |
| `Cal.GainLinearInKappa` | pycbc_cal/cal.py:118-121 | `update_g` scales linearly with κ_c, like `update_c` |
| `Cal.ResponseAtIdentity` | pycbc_cal/cal.py:124-159 | `update_r` at the default parameters returns exactly r0 |
| `Cal.ResponseSplit` | pycbc_cal/cal.py:155-159 | R = 1/C + d0·(a_tst0·κ_tst + a_pu0·κ_pu) at every frequency: the actuation path does not depend on the sensing correction |
| `Cal.ReferenceResponseSplit` | pycbc_cal/cal.py:42-59 | r0 = invc0 + d0·(a_tst0 + a_pu0) at every frequency |
| `Cal.WorkedEpoch` | pycbc_cal/cal.py:56-59 | on unit c0 and d0 with a_tst0 = a_pu0 = 0.5, g0 = 1 and r0 = 2 at every frequency |
| `Spectrum.PoleFactor` | pycbc_cal/cal.py:64 | the pole factor 1 + j f/fc is never zero for fc ≠ 0 |
| `Spectrum.Over` | pycbc_cal/cal.py:85 | element-wise division: each quotient times its divisor is the dividend |
| `Spectrum.Reciprocal` | pycbc_cal/cal.py:44 | 1.0/x has no zero and multiplies x to 1 at every sample |
| `Cal.Calibration.Valid` | pycbc_cal/cal.py:39-64 | the class invariant that `__init__` establishes: every array has the length of freq, c0 has no zero and c0·invc0 = 1, g0, r0 and c_res are given by their formulas, and c_res exists exactly when fc0 does |
| `Cal.ActuationAt` | pycbc_cal/cal.py:119-121 | a_tst0·κ_tst + a_pu0·κ_pu at one frequency: at κ_tst = κ_pu = 1 it is a_tst0 + a_pu0 (line 56's actuation), and with one κ zero only the other stage remains |
| `Spectrum.PoleFactors` | pycbc_cal/cal.py:64 | the array 1 + j·freq/fc (also line 85 with fc = fc0 + Δfc): one sample per frequency, none of them zero |
| `Spectrum.Plus` | pycbc_cal/cal.py:56 | numpy's element-wise `a_tst0 + a_pu0` (also line 121): one sample per frequency of the inputs |
| `Spectrum.Times` | pycbc_cal/cal.py:56 | numpy's element-wise product `c0 * d0 * …` (also lines 64 and 121): one sample per frequency of the inputs |
| `Spectrum.OnePlus` | pycbc_cal/cal.py:59 | numpy's `1.0 + g` (also line 159): one sample per frequency of g |
| `Spectrum.Scaled` | pycbc_cal/cal.py:85 | `c_res * kappa_c` for a real κ_c: one sample per frequency of c_res |
| `Spectrum.TimesScalar` | pycbc_cal/cal.py:119-120 | `a_tst0 * (κ_re + 1j κ_im)` for a complex scalar: one sample per frequency of the array |
| `Spectrum.RealParts` | pycbc_cal/cal.py:39 | `numpy.real(freq)` keeps one real per sample |

## Left out

- Floating-point rounding, inf and nan: the model is exact over the reals. A
  division by a zero sample is excluded by a precondition instead of producing
  inf/nan.
- numpy broadcasting: every array must have the length of `freq`. Broadcasting
  a length-1 array or a scalar in place of an array is not modelled.
- Python's keyword defaults: Dafny has no default arguments. The identity laws
  (`SensingAtIdentity`, `GainAtIdentity`, `ResponseAtIdentity`) name the
  default values explicitly.
- A complex κ_c: the source documents it as a float, and it is modelled as a
  `real`.
- pycbc_cal/adjust.py (`adjust_strain`) is not part of this model. It is
  built on FFTs, `numpy.unwrap`/`angle`/`abs`/`exp` and scipy spline
  interpolation, which are floating-point and transcendental code outside
  this repository. It also calls `cal.R0` and `cal.update_R(deltafc=..., kc=...)`,
  which the `Calibration` class does not define.
- pycbc_cal/transfer.py is not part of this model. It holds matplotlib plots,
  dB conversion (log10, power), `np.loadtxt` file loading, and
  magnitude/phase error (square root, atan2). Its only algebraic step is a
  ratio of two responses, which is the complex division modelled here.
- pycbc_cal/triggers.py and setup.py are not part of this model. They run
  external programs, parse XML, and hold packaging metadata.
