# Spinning top and orbit camera: the bookkeeping, verified

This project models the two small state machines inside a Unity "beyblade"
game:

- **Spin health of a top** (`spinningTop`): each top stores a spin speed,
  starts it at its impulse, loses `naturalSpinDecay` per second on every
  physics step, is knocked out (for good, with a raised angular drag) once
  the spin reaches `minSpinSpeed`, can be topped up with `AddSpin` up to
  `maxSpinSpeed`, and loses spin in collisions with other tops. The loss is
  `(baseSpinLossOnHit + draw) * Lerp(1, spinAdvantageMultiplier, ratio)`,
  where `ratio` is the top's own share of the pair's total spin, and the spin
  never drops below zero.
- **Orbit camera input** (`camerComtrol`): the scroll wheel changes the
  distance to the target, clamped to [3, 20]; dragging with the right mouse
  button turns the horizontal angle freely and the vertical angle within
  [minYAngle, maxYAngle].

Every quantity is a Dafny `real` in place of the C# `float`. The host
engine's inputs are method parameters: the physics step length
(`Time.fixedDeltaTime`), the value `Random.Range` returns, the mouse axes and
the right button's state.

Layout:

- `mathf.dfy` (module `Mathf`): Unity's `Clamp`, `Clamp01`, `Lerp`, `Min`, `Max`
  with the engine's semantics. `Clamp` tests the lower bound first, `Lerp`
  clamps its parameter to [0, 1], and `Min`/`Max` return the smaller and the larger argument.
- `spin.dfy` (module `Spin`): the state (`SpinState`), the tuning
  (`Tuning`, `DefaultTuning`), one pure function per callback, event runs
  (`Apply`, `Run`, `Steps`), the class `SpinningTop` and `ResolveContact`.
  `SpinningTop`'s fields and methods mirror the script. `ResolveContact` is
  the engine calling `OnCollisionEnter` on both bodies of one contact.
- `spin_properties.dfy` (module `SpinProperties`): lemmas over runs and collisions.
- `camera.dfy` (module `Camera`): the pure frame update `Updated`, runs,
  and the class `CameraControl`.
- `camera_properties.dfy` (module `CameraProperties`): lemmas over runs of frames.

Each class method says in its `ensures` that the new state equals a pure
function of the old one: `State() == AfterFixedUpdate(old(State()), Settings(), dt)`.
The properties are proved about those functions. Run-level properties are
stated over `Run`, which applies the host's calls in order.

Two points where the model is more precise than a plain reading of the code:

- Knockout happens on the physics step that brings the spin to the threshold
  or below (`<=` at `spinningTop.cs:83`). Take the declared constants
  and a 1/60 s step. In exact arithmetic the top is knocked out on step
  1,198,800, at exactly 10 (`DefaultTopKnockoutStep`).
- A collision can take spin to 0 without a knockout, because knockout is only
  checked in `FixedUpdate`. So the spin ratio `A / (A + B)` at
  `spinningTop.cs:146` is only defined when `A + B != 0`.
  `ContactCanEmptyTwoActiveTops` shows two active tops left at 0 by a single
  contact.

## Model

| member | source | states |
|---|---|---|
| `Mathf.Clamp` | spinningTop/Assets/camerComtrol.cs:22 | for ordered bounds the result lies within them; a value already inside is unchanged; the lower bound is tested first (below `min` gives `min`, else above `max` gives `max`) |
| `Mathf.Clamp01` | spinningTop/Assets/spinningTop.cs:33 | result in [0, 1]; values in [0, 1] unchanged; below 0 gives 0, above 1 gives 1 |
| `Mathf.Lerp` | spinningTop/Assets/spinningTop.cs:147 | result lies between `a` and `b`; parameter at most 0 gives `a`, at least 1 gives `b` |
| `Mathf.Min` | spinningTop/Assets/spinningTop.cs:190 | result is one of the arguments and no larger than either |
| `Mathf.Max` | spinningTop/Assets/spinningTop.cs:154 | result is one of the arguments and no smaller than either |
| `Mathf.LerpNonIncreasing` | spinningTop/Assets/spinningTop.cs:147 | towards a target no larger than the start, `Lerp` does not grow with the parameter |
| `Mathf.LerpDecreasing` | spinningTop/Assets/spinningTop.cs:147 | towards a strictly smaller target, `Lerp` strictly decreases on [0, 1] |
| `Spin.Created` | spinningTop/Assets/spinningTop.cs:29-30 | a top as the engine creates it has spin 0, is not knocked out and keeps its rigidbody's drag |
| `Spin.AfterStart` | spinningTop/Assets/spinningTop.cs:42 | spin part of `Start` (with line 70): spin becomes `spinImpulse`, angular drag 0.02, the flag is kept |
| `Spin.KnockedOut` | spinningTop/Assets/spinningTop.cs:178-185 | knockout raises the flag, sets angular drag 2 and keeps the spin |
| `Spin.AfterFixedUpdate` | spinningTop/Assets/spinningTop.cs:75-87 | a knocked-out top is unchanged; an active top loses exactly `naturalSpinDecay * dt`, is knocked out iff the decayed spin is `<= minSpinSpeed`, and then has drag 2; otherwise drag is unchanged |
| `Spin.AfterAddSpin` | spinningTop/Assets/spinningTop.cs:188-191 | spin becomes `old + amount` when that is at most `maxSpinSpeed`, else `maxSpinSpeed`; never above the maximum; strictly lower whenever the old spin was above the maximum; flag and drag untouched |
| `Spin.SpinRatio` | spinningTop/Assets/spinningTop.cs:146 | the ratio times the pair's total is the own spin; for non-negative spins it lies in [0, 1] |
| `Spin.SpinAdvantage` | spinningTop/Assets/spinningTop.cs:147 | the factor lies between the multiplier and 1; a share of 0 or less gives 1, a share of 1 or more gives the multiplier |
| `Spin.SpinLoss` | spinningTop/Assets/spinningTop.cs:150-151 | with a non-negative base-plus-draw: the loss is non-negative for a non-negative multiplier, and at most base-plus-draw for a multiplier at most 1 |
| `Spin.InDrawRange` | spinningTop/Assets/spinningTop.cs:150 | a draw of `Random.Range(-range, range)` lies between the smaller and the larger of the two bounds, whichever order they come in |
| `Spin.AfterHit` | spinningTop/Assets/spinningTop.cs:143-154 | spin is at least 0 and at least `old - loss`, and is exactly 0 or exactly `old - loss`; flag and drag untouched |
| `Spin.OnCollision` | spinningTop/Assets/spinningTop.cs:132-141 | scenery, a knocked-out other top or a knocked-out self leaves the state unchanged; otherwise the hit is applied; the flag is never changed |
| `Spin.ContactOutcome` | spinningTop/Assets/spinningTop.cs:132-154 | one contact, `a`'s call first: a contact with a knocked-out top changes nothing; between two active tops `a` takes `AfterHit` against `b`'s spin and `b` then takes `AfterHit` against `a`'s reduced spin; flags and drags are kept |
| `Spin.ColliderOf` | spinningTop/Assets/spinningTop.cs:135 | a body without a top component is scenery; another top is seen with its current spin and flag |
| `Spin.SpinningTop.constructor` | spinningTop/Assets/spinningTop.cs:13-30 | a new top has the given tuning, spin 0, is not knocked out, and has its rigidbody's drag |
| `Spin.SpinningTop.SpinHealthPercent` | spinningTop/Assets/spinningTop.cs:33 | always in [0, 1]; for a positive maximum it is `spin / max` on [0, max], 1 at or above the maximum, 0 at or below zero |
| `Spin.SpinningTop.Start` | spinningTop/Assets/spinningTop.cs:36-73 | spin part only: spin becomes `spinImpulse`, drag 0.02, flag untouched |
| `Spin.SpinningTop.KnockOut` | spinningTop/Assets/spinningTop.cs:178-185 | new state is `KnockedOut(old state)` |
| `Spin.SpinningTop.FixedUpdate` | spinningTop/Assets/spinningTop.cs:75-87 | new state is `AfterFixedUpdate(old state, tuning, dt)`; a knocked-out top changes no field |
| `Spin.SpinningTop.AddSpin` | spinningTop/Assets/spinningTop.cs:188-191 | spin becomes `Min(maxSpinSpeed, old + amount)`; nothing else changes |
| `Spin.SpinningTop.OnCollisionEnter` | spinningTop/Assets/spinningTop.cs:132-141 | new state is `OnCollision` of the old state and of what the other body is; the other top's spin is not modified |
| `Spin.SpinningTop.HandleBeybladeCollision` | spinningTop/Assets/spinningTop.cs:143-154 | new state is `AfterHit`; own spin ends at 0 or above; the other top's spin is not modified |
| `Spin.ResolveContact` | spinningTop/Assets/spinningTop.cs:132-154 | the engine's two calls for one contact give `ContactOutcome`: the second top's hit is computed from the first top's already-reduced spin |
| `SpinProperties.DefaultTuningIsDissipative` | spinningTop/Assets/spinningTop.cs:13-22 | the declared constants have non-negative decay, threshold and multiplier, and variance no larger than the base loss |
| `SpinProperties.KnockoutIsPermanent` | spinningTop/Assets/spinningTop.cs:178-191 | from a knocked-out state, every run of host calls keeps the flag set and the drag unchanged |
| `SpinProperties.KnockedOutTopIsInert` | spinningTop/Assets/spinningTop.cs:75-141 | a knocked-out top is left exactly as it is by any run of physics steps and collisions |
| `SpinProperties.AddSpinDoesNotRevive` | spinningTop/Assets/spinningTop.cs:188-191 | `AddSpin` on a knocked-out top keeps it knocked out, and the next physics step still changes nothing |
| `SpinProperties.StepNeverRaisesSpin` | spinningTop/Assets/spinningTop.cs:75-154 | under a dissipative tuning and host ranges, one physics step or collision never raises spin and keeps an active top's spin non-negative |
| `SpinProperties.SpinNeverRisesWithoutAddSpin` | spinningTop/Assets/spinningTop.cs:75-154 | over any run without `AddSpin`, spin never rises and an active top never holds negative spin |
| `SpinProperties.DecayWhileAboveThreshold` | spinningTop/Assets/spinningTop.cs:80-87 | `n` steps that stay above the threshold leave the top active with exactly `n * naturalSpinDecay * dt` less spin |
| `SpinProperties.KnockedOutOnThresholdStep` | spinningTop/Assets/spinningTop.cs:83-87 | the first step that reaches the threshold or below knocks the top out, with the exactly decayed spin and drag 2; the step before leaves it active |
| `SpinProperties.DefaultTopKnockoutStep` | spinningTop/Assets/spinningTop.cs:13-17 | with the declared constants and 1/60 s steps: active after 1,198,799 steps, knocked out at exactly 10 after 1,198,800 |
| `SpinProperties.AddSpinRightAfterStartLowersSpin` | spinningTop/Assets/spinningTop.cs:70 | right after `Start` (spin 10000 above the maximum 3000) any `AddSpin` lowers the spin |
| `SpinProperties.RatiosAreComplementary` | spinningTop/Assets/spinningTop.cs:146 | the two tops' ratios of one pair of spins add up to 1 |
| `SpinProperties.StrongerTopHasLargerShare` | spinningTop/Assets/spinningTop.cs:146 | for non-negative spins the stronger top's ratio is at least 1/2 and the weaker one's at most 1/2 (strict when the spins differ, both exactly 1/2 when equal) |
| `SpinProperties.AdvantageNonIncreasing` | spinningTop/Assets/spinningTop.cs:147 | for a multiplier at most 1 the advantage factor does not grow with the ratio |
| `SpinProperties.AdvantageDecreasing` | spinningTop/Assets/spinningTop.cs:147 | for a multiplier below 1, a strictly larger share in [0, 1] gives a strictly smaller advantage factor |
| `SpinProperties.StrongerTopLosesLess` | spinningTop/Assets/spinningTop.cs:146-151 | for the same draw, a positive base-plus-draw and a multiplier below 1, the top with more spin loses strictly less than the other |
| `SpinProperties.AdvantageFor100Against50` | spinningTop/Assets/spinningTop.cs:146-147 | spins 100 and 50 with multiplier 0.5 give the factors 2/3 and 5/6 |
| `SpinProperties.CollisionNeverRaisesSpin` | spinningTop/Assets/spinningTop.cs:146-154 | with a non-negative spin, a non-negative multiplier, a variance no larger than the base loss and an in-range draw, a hit leaves the spin in [0, old] |
| `SpinProperties.LossNonIncreasing` | spinningTop/Assets/spinningTop.cs:146-151 | for a multiplier at most 1 and a non-negative base-plus-draw, a larger share never gives a larger loss |
| `SpinProperties.SecondTopLosesNoMore` | spinningTop/Assets/spinningTop.cs:132-154 | for any contact with non-negative spins, a multiplier at most 1 for the second top and a loss-only first hit, the second top keeps at least the spin it would keep against the first top's pre-hit spin |
| `SpinProperties.ContactOrderMatters` | spinningTop/Assets/spinningTop.cs:132-154 | for spins 100 and 50 and zero draws the tops end with 260/3 and 1380/41, not the 100/3 the second would keep from the pre-hit spin; the two ratios used do not add up to 1 |
| `SpinProperties.ContactCanEmptyTwoActiveTops` | spinningTop/Assets/spinningTop.cs:154 | two active tops of spin 15 with draws 10 both end at spin 0, still active; a further contact between them has an undefined ratio |
| `Camera.Updated` | spinningTop/Assets/camerComtrol.cs:17-31 | distance becomes `Clamp(old - scroll * zoomSpeed, 3, 20)`, so lies in [3, 20]; without the button the angles are unchanged; with it the horizontal angle moves by exactly `dx * rotationSpeed` and the vertical angle becomes `Clamp(old - dy * rotationSpeed, minYAngle, maxYAngle)`: the moved angle when it lies within the bounds, `minYAngle` below them, `maxYAngle` above them, so within them for ordered bounds |
| `Camera.CameraControl.constructor` | spinningTop/Assets/camerComtrol.cs:8-15 | a new camera has the given settings and distance, horizontal angle 0 and vertical angle 30 |
| `Camera.CameraControl.Default` | spinningTop/Assets/camerComtrol.cs:8-15 | the declared settings (zoom 2, rotation 5, bounds [10, 80]) and the state (10, 0, 30) |
| `Camera.CameraControl.Update` | spinningTop/Assets/camerComtrol.cs:17-31 | new state is `Updated(old state, settings, input)`; distance in [3, 20]; without the button the angles are unchanged |
| `CameraProperties.DistanceStaysInRange` | spinningTop/Assets/camerComtrol.cs:21-22 | a distance in [3, 20] stays there over any run of frames |
| `CameraProperties.VerticalAngleStaysInRange` | spinningTop/Assets/camerComtrol.cs:28-29 | a vertical angle within the bounds stays within them over any run of frames |
| `CameraProperties.HorizontalAngleFollowsDrag` | spinningTop/Assets/camerComtrol.cs:27 | over any run, the horizontal angle moves by exactly the held horizontal mouse movement times the rotation speed (never clamped) |
| `CameraProperties.AnglesStillWithoutButton` | spinningTop/Assets/camerComtrol.cs:25-30 | a run of frames without the button leaves both angles unchanged |
| `CameraProperties.DefaultCameraStaysInRange` | spinningTop/Assets/camerComtrol.cs:11-15 | from the declared start (distance 10, vertical angle 30, bounds [10, 80]) distance and vertical angle stay in range over any run |

## Left out

- Rigidbody and collider configuration in `Start` (mass, drag, friction material, centre of mass, the initial random force and spin torque). The engine owns these, so only the spin assignment and the angular drag are modelled.
- The spin-maintenance torque, the ellipsoid bowl normal, the precession torque, the slope force and the anti-stall jitter in `FixedUpdate`. They are vector geometry on floats (normalisation, cross products, angles) applied through engine calls.
- Particles, audio, `Instantiate`/`Destroy`, the knockback impulse and `Debug.Log` in `HandleBeybladeCollision` and `KnockOut`. These are presentation, I/O and engine calls.
- `OnDrawGizmos`. It is debug drawing.
- The camera's `LateUpdate` (quaternion rotation, `LookAt`) and its target transform. They are float rotation maths over engine transforms.
- `Input.GetAxis`, `Input.GetMouseButton`, `Random.Range` and `Time.fixedDeltaTime`. They become parameters.
- The `IsKnockedOut` property just reads the `isKnockedOut` field.
- Floating point. Quantities are exact reals, so there is no rounding, NaN or infinity. With 32-bit floats, the decay of 1/120 per step from 10000 rounds on every step, so the exact step count of `DefaultTopKnockoutStep` holds only for reals.
- Spin.SpinRatio: requires the pair's total spin to be non-zero. A zero total would be a float division giving NaN, which reals cannot express.
- Spin.AfterHit: requires the pair's total spin to be non-zero, for the same reason.
- Spin.SpinningTop.HandleBeybladeCollision: requires the pair's total spin to be non-zero, for the same reason. It also requires the other top to be a different object, because the engine never reports a body colliding with itself.
- Spin.SpinningTop.OnCollisionEnter: requires the ratio to be defined when both tops are active. It also requires a different object.
- Spin.ResolveContact: requires both calls' ratios to be defined.
- Spin.SpinningTop.SpinHealthPercent: requires `maxSpinSpeed != 0`. Dividing by zero would give a float infinity or NaN.
- The tuning values are public inspector fields. The scripts never write them, so they are `const` fields set when a component is created. Writes by other scripts or by the editor at run time are not modelled.
- The random draw is not constrained by the methods: they accept any value. The lemmas that need the draw to come from `Random.Range(-range, range)` require it (`InDrawRange`).
