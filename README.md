# Fixed-step ODE integrators and keyword-validated models, in Dafny

This project models two independent pieces of a small Python snippets
repository and proves properties of them.

**Time integrators** (`integrators/time_integrator.py`). A `TimeIntegrator`
holds a clock (`time`, `time_step`, `run_time`), a derivative function
`diff_eq(time, y_vec, masses)` and a history `y_vec_arr`. Six subclasses
advance a state vector by one step: Forward Euler, classical Runge–Kutta (RK4),
the Runge–Kutta 3/8 rule, Runge–Kutta–Fehlberg, two-step Adams–Bashforth, and
velocity Verlet. Verlet updates the caller's array in place, block by block
(`x, y, z, vx, vy, vz`).

- `ode_vectors.dfy` holds the vector arithmetic. It uses exact reals. The
  derivative is an arbitrary function whose result has the length of the
  state it is given.
- `runge_kutta.dfy` holds a reference definition of an explicit Runge–Kutta
  step driven by a Butcher tableau. It proves the general facts: a step is
  determined by its stage equations, a constant derivative moves the state by
  `Sum(b)·dt·c`, and a zero step changes nothing.
- `time_integrator.dfy` holds the integrators:
  - The Forward Euler, RK4, 3/8-rule and Fehlberg steps are each proved
    equal to the tableau method with their own coefficients. This fixes the
    time and state at which each calls the derivative, and how it weights the
    stages. Adams–Bashforth is proved to be Euler plus a correction, and
    Verlet is tied to exact motion under constant and uniform fields.
  - Verlet is an in-place method on an `array<real>`, proved against a
    function of the old contents.
  - The object is the class `TimeIntegrator`. It has `modifies` clauses on its
    clock and setters, and a ghost step counter relating `time` to the number
    of `update_time_step` calls.

**Validated models** (`metaclass/validation/model.py`, `fields.py`). A model
class declares typed, annotated attributes. Calling the class builds the
instance and then checks the keyword arguments field by field, in declaration
order:
- the keyword is present, else `AttributeError`;
- the value's type is exactly the annotated type, else `TypeError`;
- a field value passes its own `validate()`, else `ValidationError`.

The value is set on the instance only once all three checks pass. `URL`
validates its string with the pattern `https?://(?:www\.)?[a-zA-Z0-9./]+`,
matched at the start of the string only.

- `wrappers.dfy` holds the `Option` type both halves use.
- `validation_fields.dfy` holds the matcher. It is written by hand, following
  the pattern, and proved equal to a plain statement of what it accepts.
- `validation_model.dfy` holds the validation loop (`Call`). It is proved
  against the recursive specification `Instantiate`, and it also holds the
  repr (`Format`).

## Model

| member | source | states |
|---|---|---|
| `TimeIntegrators.ForwardEulerStep` | integrators/time_integrator.py:38-39 | `y + dt·f(time, y)`, a vector of the length of `y`. Its value is fixed by `ForwardEulerMatchesTableau`. |
| `TimeIntegrators.RungeKutta4Step` | integrators/time_integrator.py:49-55 | The RK4 step, a vector of the length of `y`. Its value is fixed by `RungeKutta4MatchesTableau`. |
| `TimeIntegrators.RungeKutta3dash8Step` | integrators/time_integrator.py:90-96 | The 3/8-rule step, a vector of the length of `y`. Its value is fixed by `RungeKutta3dash8MatchesTableau`. |
| `TimeIntegrators.RungeKuttaFehlbergStep` | integrators/time_integrator.py:106-114 | The Fehlberg step as written, a vector of the length of `y`. Its value is fixed by `FehlbergMatchesTableau` with the second stage at `time·time_step/4`. |
| `TimeIntegrators.VelocityVerlet` | integrators/time_integrator.py:65-80 | The Verlet step as a function of the old state, a vector of the length of `y`. `VelocityVerletInPlace` proves the two loops compute it, and `VelocityVerletConstantDerivative` and `VelocityVerletUniformAcceleration` fix its value for those fields. |
| `TimeIntegrators.ForwardEulerMatchesTableau` | integrators/time_integrator.py:38-39 | The Euler step is the one-stage method: one derivative call at `(time, y)`, weight 1 (weights sum to 1). |
| `TimeIntegrators.RungeKutta4MatchesTableau` | integrators/time_integrator.py:49-55 | RK4 calls `f` at `t`, `t+dt/2`, `t+dt/2`, `t+dt` with states `y`, `y+k1/2`, `y+k2/2`, `y+k3`, and weights (1,2,2,1)/6. This is the classical tableau; its weights sum to 1 and each row sums to its node. |
| `TimeIntegrators.RungeKutta3dash8MatchesTableau` | integrators/time_integrator.py:90-96 | The 3/8 rule calls `f` at `t`, `t+dt/3`, `t+2dt/3`, `t+dt` with states `y+k1/3`, `y-k1/3+k2`, `y+k1-k2+k3`, and weights (1,3,3,1)/8. Its weights sum to 1 and each row sums to its node. |
| `TimeIntegrators.FehlbergMatchesTableau` | integrators/time_integrator.py:106-114 | Whatever time the second call uses, the Fehlberg code is the Runge–Kutta–Fehlberg tableau, with the fifth-order weights and `k2` weighted 0. Its weights sum to 1 and each row sums to its node. |
| `TimeIntegrators.ClassicalIncrementsSolveStages` | integrators/time_integrator.py:50-53 | The four RK4 increments satisfy the stage equations of the classical tableau at its stage times. |
| `TimeIntegrators.ThreeEighthsIncrementsSolveStages` | integrators/time_integrator.py:91-94 | The four 3/8-rule increments satisfy the stage equations of the 3/8 tableau at its stage times. |
| `TimeIntegrators.FehlbergIncrementsSolveStages` | integrators/time_integrator.py:107-112 | The six Fehlberg increments satisfy the stage equations of the Runge–Kutta–Fehlberg tableau, with the second stage time as given. |
| `TimeIntegrators.FehlbergStageTwoTime` | integrators/time_integrator.py:108 | The stage times as written match the tableau's exactly when `t·dt/4 == t + dt/4`. At `t = 0` the second stage is sampled at time 0, which is not the tableau's time when `dt ≠ 0`. |
| `TimeIntegrators.FehlbergAsWrittenDiffers` | integrators/time_integrator.py:108 | A concrete derivative, `t = 0`, `dt = 1` and `y = [0]`: the step as written returns `[0]`, while the step at the tableau's stage times returns `[6656/12825 · 9/32]`. |
| `TimeIntegrators.FehlbergCanonicalIsTableau` | integrators/time_integrator.py:106-114 | With the second stage at `time + time_step/4`, the step is exactly the explicit Runge–Kutta–Fehlberg method. |
| `TimeIntegrators.AdamsBashforthStep` | integrators/time_integrator.py:124-131 | With one history entry the result is the Forward Euler result. An empty history fails at the `[-1]` index, and only then. The result has the length of `y`. |
| `TimeIntegrators.AdamsBashforthCorrectsEuler` | integrators/time_integrator.py:128-131 | With two or more history entries, the result is Euler plus `dt/2·(f(t,y) − f(t−dt, history[last]))`. This equals `y + 3/2·dt·f(t,y) − 1/2·dt·f(t−dt, last)`, and reads only the last entry. |
| `TimeIntegrators.AdamsBashforthConstantDerivative` | integrators/time_integrator.py:124-131 | With a non-empty history and a constant derivative `c`, both branches give `y + dt·c`. |
| `TimeIntegrators.Drift` | integrators/time_integrator.py:68-71 | The first Verlet pass leaves every velocity slot (offsets 3-5 of a block) as it was. |
| `TimeIntegrators.Kick` | integrators/time_integrator.py:75-78 | The second Verlet pass leaves every position slot (offsets 0-2 of a block) as it was. |
| `TimeIntegrators.DriftInPlace` | integrators/time_integrator.py:68-71 | The first loop leaves the array equal to `Drift` of its old contents. |
| `TimeIntegrators.KickInPlace` | integrators/time_integrator.py:75-78 | The second loop leaves the array equal to `Kick` of its old contents. |
| `TimeIntegrators.VelocityVerletInPlace` | integrators/time_integrator.py:65-80 | The array ends as the Verlet step of its old contents. The second derivative call is at `t+dt`, on the new positions and the old velocities. |
| `TimeIntegrators.VelocityVerletConstantDerivative` | integrators/time_integrator.py:65-80 | For a constant derivative `(w, a)`, every velocity grows by exactly `dt·a` and every position by `dt·w + dt²/2·a`. |
| `TimeIntegrators.VelocityVerletUniformAcceleration` | integrators/time_integrator.py:65-80 | When `f` returns each block's own velocity and a fixed acceleration `g`, the step gives the exact motion: `x + dt·v + dt²/2·g` and `v + dt·g`. |
| `TimeIntegrators.DriftKickConstant` | integrators/time_integrator.py:68-78 | The two passes with the acceleration `c` at both ends move each position by `dt·w + dt²/2·a` and each velocity by `dt·a`. |
| `TimeIntegrators.DriftKickUniform` | integrators/time_integrator.py:68-78 | The two passes under free motion in a uniform field `g` give `x + dt·v + dt²/2·g` and `v + dt·g`, and each position slot has its velocity three slots on. |
| `TimeIntegrators.SingleStageConstantDerivative` | integrators/time_integrator.py:38-114 | Euler, RK4, RK 3/8 and Fehlberg (stage time as written) all give exactly `y + dt·c` for a constant derivative `c`. |
| `TimeIntegrators.SingleStageZeroStep` | integrators/time_integrator.py:38-114 | Euler, RK4, RK 3/8 and Fehlberg all return `y` unchanged when `time_step` is 0. |
| `TimeIntegrators.TimeAfterIsProduct` | integrators/time_integrator.py:26-28 | After `n` clock updates from 0, `time` is `n·time_step`. |
| `TimeIntegrators.ContinuesExactly` | integrators/time_integrator.py:26-28 | For a positive step, update number `n` reports true exactly when `n` is below ⌈run_time/time_step⌉ (0 when `run_time ≤ 0`). |
| `TimeIntegrators.StoppedStaysStopped` | integrators/time_integrator.py:26-28 | With a non-negative step, once an update has reported false, every later one does too. |
| `TimeIntegrators.TimeIntegrator.constructor` | integrators/time_integrator.py:33-36 | `time` starts at 0. `time_step` and `run_time` are stored as given. `diff_eq` and `y_vec_arr` are not yet set. |
| `TimeIntegrators.TimeIntegrator.SetYVecArr` | integrators/time_integrator.py:20-21 | Stores the history and changes nothing else. |
| `TimeIntegrators.TimeIntegrator.SetDiffEq` | integrators/time_integrator.py:23-24 | Stores the derivative and changes nothing else. |
| `TimeIntegrators.TimeIntegrator.UpdateTimeStep` | integrators/time_integrator.py:26-28 | Adds exactly `time_step` to `time`, returns whether the new `time < run_time`, and keeps `time == steps·time_step`. `time_step` and `run_time` are constants. |
| `TimeIntegrators.TimeIntegrator.StepOutcome` | integrators/time_integrator.py:31-131 | Errors come in this order: missing `y_vec_arr` (Adams–Bashforth only), then missing `diff_eq`, then an empty history. A step succeeds exactly when `diff_eq` is set and, for Adams–Bashforth, the history is non-empty. |
| `TimeIntegrators.TimeIntegrator.SimulateStep` | integrators/time_integrator.py:31-131 | Returns the step of `StepOutcome`. Verlet updates `y` in place and returns the same array. Every other scheme leaves `y` alone and returns a new array. The clock is never touched. |
| `ValidationFields.MatchesUrlPattern` | metaclass/validation/fields.py:24-25 | The pattern, matched at the start, written out part by part; every match is at least 8 characters long. Its verdict for every string is fixed by `UrlPatternMeaning`. |
| `ValidationFields.HostIgnoresWww` | metaclass/validation/fields.py:24 | The optional `www.` group never changes the verdict. |
| `ValidationFields.UrlPatternMeaning` | metaclass/validation/fields.py:24-25 | The pattern matches exactly the strings that start with `http://` or `https://` followed by a character of `[a-zA-Z0-9./]`. |
| `ValidationFields.Url.Validate` | metaclass/validation/fields.py:22-25 | `validate` is true exactly when the string starts with `http://` or `https://` followed by a character of the class. |
| `ValidationFields.TrailingTextIgnored` | metaclass/validation/fields.py:24-25 | Anything appended to a valid address keeps it valid, because the match is anchored at the start only. |
| `ValidationFields.LocalAddressAccepted` | metaclass/tests/validation/test_model.py:16 | `http://127.0.0.1`, the address test_model.py:16 passes to `URL`, is accepted. |
| `ValidationFields.TrailingSpaceAccepted` | metaclass/validation/fields.py:24-25 | `http://a b` is accepted: only the start is matched, so the space after `a` is never looked at. |
| `ValidationFields.SecureAddressAccepted` | metaclass/validation/fields.py:24-25 | `https://www.example.org` is accepted. |
| `ValidationFields.PlainTextRejected` | metaclass/tests/validation/test_model.py:36 | `I am not a url`, the string test_model.py:36 passes to `URL`, is rejected. |
| `ValidationFields.BareSchemeRejected` | metaclass/validation/fields.py:24-25 | `http://` with nothing after it is rejected: the class needs at least one character. |
| `ValidationFields.UpperCaseSchemeRejected` | metaclass/validation/fields.py:24-25 | `HTTP://x` is rejected: the pattern is case-sensitive. |
| `ValidationModel.Value.TypeOf` | metaclass/validation/model.py:26-29 | A value's type is a `BaseField` subclass exactly when the value is a field, so `validate()` exists exactly for values of field types. A value's type is `URL` exactly when it is a `URL` field. |
| `ValidationModel.Value.Str` | metaclass/validation/fields.py:19-20 | A `URL` value prints, through its `__repr__`, as the string it was built with. |
| `ValidationModel.FieldError` | metaclass/validation/model.py:23-30 | Each outcome has its own condition. `AttributeError` exactly when the keyword is absent. `TypeError` exactly when it is present with a type other than the annotation. `ValidationError` exactly when the type matches, the type is a `BaseField` subclass and `validate()` fails. Otherwise the field passes. |
| `ValidationModel.UrlValuesAreValidated` | metaclass/validation/model.py:26-29 | A keyword whose type is `URL` is always a `URL` field, and it passes exactly when that `URL` validates; no value of type `URL` escapes `validate()`. |
| `ValidationModel.Instantiate` | metaclass/validation/model.py:22-34 | Construction succeeds exactly when every annotated field passes. The attributes are then the annotated names, in order, with the keyword values. Otherwise the first failing field, in annotation order, decides the error and the name. |
| `ValidationModel.Call` | metaclass/validation/model.py:18-34 | The validation loop raises what `Instantiate` says. On success it returns a new instance whose attributes are exactly `Instantiate`'s. Positional arguments play no part. |
| `ValidationModel.Instance.constructor` | metaclass/validation/model.py:39-40 | `BaseModel.__init__` ignores its arguments and sets no attribute. |
| `ValidationModel.Instance.SetAttr` | metaclass/validation/model.py:32 | `setattr` updates `__dict__` as `Assign` says. |
| `ValidationModel.Assign` | metaclass/validation/model.py:32 | A name not yet present is appended at the end, after all the old entries. |
| `ValidationModel.AssignInDict` | metaclass/validation/model.py:32 | On a dictionary (distinct names), setting keeps the names distinct; an existing name keeps its place and takes the new value, and every other entry is unchanged. |
| `ValidationModel.Instance.Show` | metaclass/validation/model.py:9-11 | The repr starts with `ClassName(` and ends with `)`. With no attributes it is `ClassName()`, with one it is `ClassName(k = v)`. |
| `ValidationModel.Format` | metaclass/validation/model.py:9-11 | `Name(k1 = v1, ...)` starts with `Name(` and ends with `)`. With no attributes it is `Name()`, with one it is `Name(k = v)`; with `FormatAppend` this fixes every repr. |
| `ValidationModel.JoinAppend` | metaclass/validation/model.py:10 | Joining one more attribute adds `", " + "k = v"` at the end. |
| `ValidationModel.FormatAppend` | metaclass/validation/model.py:9-11 | The repr after one more attribute is the old repr with `, k = v` inserted before the closing parenthesis. |
| `ValidationModel.OnlyAnnotatedKeywordsMatter` | metaclass/validation/model.py:22-32 | Two keyword maps that agree on the annotated names give the same outcome. Extra or misspelt keywords are never inspected or stored. |
| `ValidationModel.ValidKwargsPass` | metaclass/validation/model.py:23-30 | Each keyword of the valid call is present, has exactly its annotated type, and the `URL` value validates. |
| `ValidationModel.TestModelAccepted` | metaclass/tests/validation/test_model.py:15-20 | `TestModel(int_var=42, float_var=3.14, url=URL("http://127.0.0.1"))` sets the three attributes, in order, to the values passed. |
| `ValidationModel.TestModelShown` | metaclass/validation/model.py:9-11 | That instance prints as `TestModel(int_var = 42, float_var = 3.14, url = http://127.0.0.1)`. |
| `ValidationModel.TestModelWrongType` | metaclass/tests/validation/test_model.py:22-24 | A `str` for `float_var` raises `TypeError` for `float_var`. |
| `ValidationModel.TestModelMisspeltKeyword` | metaclass/tests/validation/test_model.py:26-28 | `urk=` instead of `url=` raises `AttributeError` for `url`. |
| `ValidationModel.TestModelMissingKeyword` | metaclass/tests/validation/test_model.py:30-32 | Leaving out `url` raises `AttributeError` for `url`. |
| `ValidationModel.TestModelInvalidUrl` | metaclass/tests/validation/test_model.py:34-36 | `URL("I am not a url")` raises `ValidationError` for `url`. |

## Findings

| source | as written | input that shows it | evidently intended | confidence | as-written member | corrected member |
|---|---|---|---|---|---|---|
| integrators/time_integrator.py:108 | The second Fehlberg stage calls the derivative at `time * (1/4) * time_step`, a product. | `t = 0`, `dt = 1`, `y = [0]`, and a derivative that is 1 at time 1/4, equals the state at time 3/8 and is 0 elsewhere. As written the step returns `[0]`; at the tableau's times it returns `[6656/12825 · 9/32]`. | The call is at `time + (1/4) * time_step`, the node 1/4 of the Runge–Kutta–Fehlberg tableau, as every other stage adds its offset to `time`. | high; not executed | `TimeIntegrators.RungeKuttaFehlbergStep` (shown by `TimeIntegrators.FehlbergAsWrittenDiffers`) | `TimeIntegrators.RungeKuttaFehlbergCanonicalStep` (proved by `TimeIntegrators.FehlbergCanonicalIsTableau`) |

The integrator class runs the Fehlberg step as written. The constant-derivative
and zero-step results hold for it anyway, because they do not depend on the
stage times. The corrected step is proved to be exactly the tableau method.

## Left out

- Floating point: states, times and coefficients are exact reals. IEEE-754 rounding, overflow and NaN comparisons in `time < run_time` are not modelled, and neither are numpy dtypes and broadcasting.
- The derivative function is an abstract, total, side-effect-free function whose result has the length of its input. A derivative that raises, mutates its argument or returns a vector of another length is not modelled. The `body` module and the concrete derivatives are not part of this model.
- `TimeIntegrators.VelocityVerletInPlace`: requires the array length to be a multiple of 6. On other lengths the source raises `IndexError` in the first loop, after the positions of every complete block have been updated. With 1 to 3 extra slots it raises before writing any slot of the incomplete block; with 4 or 5 it first updates one or two of that block's positions. These partial updates are not modelled. The same requirement is on `SimulateStep` and `StepOutcome` for the Verlet scheme.
- `TimeIntegrators.TimeIntegrator.SimulateStep`: the history is a value (`seq<seq<real>>`). The source stores the caller's list by reference, and an external driver appends to it between steps; that aliasing is not modelled. The driver loop itself is out of scope.
- `TimeIntegrators.TimeIntegrator.UpdateTimeStep`: requires the ghost invariant `Valid()` (`time == steps·time_step`), which the constructor establishes and every update keeps. The source starts `time` at the integer 0; here it is the real 0.
- The six Python subclasses are one class with a constant `scheme` tag. The abstract `simulate_step` of the base class, which raises `NotImplementedError`, has no counterpart.
- Convergence order, accuracy and energy conservation are numerical-analysis claims, not contracts of the code.
- Error messages: only the kind of exception and the annotated name are modelled, not the message text. `AttributeError` for an unset integrator attribute is `MissingAttribute(name)`.
- Python reflection: `get_annotations(..., eval_str=True)`, class creation in `BaseMeta.__new__`, `issubclass` and `setattr` are not modelled as such. Annotations are a sequence of distinct `(name, type)` pairs, and runtime types are tags compared by equality. Attributes that a user subclass's own `__init__` might set are not modelled.
- Plain values carry the text `str()` would print. Python's formatting of ints and floats is not modelled.
- Type identity: a class is a tag, and two field classes with the same name are the same tag.
- `validation.exceptions` is not part of this model; the three errors are a datatype.
- Regular expressions in general: only the one fixed URL pattern is matched, by hand.
