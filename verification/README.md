# PhysicalObject2D: a Dafny model of the 2D physical game object

This project models the class `PhysicalObject2D` of a networked multiplayer game
engine (`src/serialize/PhysicalObject2D.js`). The object mirrors a physics
engine's body and carries four attributes: position, velocity, angle and
angular velocity. The client keeps a locally predicted state. When an
authoritative update arrives, the object is reset to that baseline and then
"bent" back towards its prediction over a number of ticks, one increment per
tick, so that it does not jump.

Files:

- `Wrappers.dfy`: an `Option` type for the properties and overrides that may
  be absent.
- `TwoVector.dfy`: the 2D vector as a value (`Vec2`), with `Add`, `Sub`,
  `Scale` and `Lerp`.
- `Schemas.dfy`: the `netScheme` attribute schema and how it merges with the
  superclass's schema.
- `Bending.dfy`: the value-level specification. It holds:
  - `BodyState`, `BendingPlan` and `EntityState`;
  - how the bending strengths are resolved;
  - `Bent`, the state `bendToCurrent` leaves behind;
  - `Step`, one increment of `applyIncrementalBending`, and `Steps`, many of
    them at the canonical tick;
  - the lemmas about them: convergence, exhaustion and a concrete scenario.
- `PhysicalObject2D.dfy`: the classes `PhysicsBody` and `PhysicalObject2D`.
  Their methods update the fields in place and are proved against the
  functions of `Bending.dfy`.
- `AsWritten.dfy`: `applyIncrementalBending` as the source writes it, which
  reads a velocity-delta field that nothing assigns (see Findings).

Behaviour of the code that the model keeps, although a reader might expect
otherwise:

- The strength is `bendingMultiple` when the object defines it, and the
  passed-in `bending` otherwise. `bendingVelocityMultiple` goes into a local
  that is never used, so the velocity delta is scaled like the position delta.
  `BendToCurrent` keeps that dead local.
- After a bending step the angle is wrapped by PI, not by a full turn:
  - subtract PI once when above PI;
  - then add PI once when below 0.

  `WrapByPiRange` shows that this lands in [0, PI] exactly for inputs in
  [-PI, 2 PI].
- The constructor assigns no default angle (it sets an unused `quaternion`),
  only `props.angle` when that is truthy. The model starts the angle at 0.
- The reset keeps the predicted velocity, and the velocity delta is then added
  on top of it. So after a full correction the velocity is the prediction plus
  `bending` times the prediction-minus-baseline difference, not the
  prediction (`Convergence`, `FullBendingReachesPrediction`).
- In `netScheme` the superclass's entries are merged last, so on a name clash
  the inherited type wins.

## Model

| member | source | states |
|---|---|---|
| Schemas.NetScheme | src/serialize/PhysicalObject2D.js:33-41 | The schema holds exactly the own attributes and the inherited ones. Every inherited entry keeps its inherited type. An own attribute takes its own type only when the superclass does not declare it. |
| Schemas.SubclassKeepsBaseAttributes | src/serialize/PhysicalObject2D.js:21-31 | A subclass that merges its own attributes under this schema, as the documented pattern does, still sends every attribute of this class and of its ancestors, each with the ancestor's type. |
| PhysicalObjects.PhysicalObject2D.constructor | src/serialize/PhysicalObject2D.js:57-76 | A new object has player 0, no pending correction and no physics body. Each attribute comes from the props when given and is zero otherwise. |
| Bending.FirstPresent | src/serialize/PhysicalObject2D.js:109-123 | Reference reading of an override chain: the value of the first override present, or the fallback when none is. |
| Bending.ResolvedBending | src/serialize/PhysicalObject2D.js:110-111 | The strength is the first present of [`bendingMultiple`] with the passed-in `bending` as fallback. |
| Bending.AngleBending | src/serialize/PhysicalObject2D.js:118-123 | The angle strength is the first present of [local override if the object is local, angle override], with the strength as fallback. |
| Bending.Bent | src/serialize/PhysicalObject2D.js:125-144 | After `bendToCurrent` the body is the baseline with the predicted velocity. `n` increments are pending at the resolved strength, and the target is the prediction. |
| Bending.BentDeltas | src/serialize/PhysicalObject2D.js:125-138 | `n` increment scales make the strength. `n` position, velocity and angular-velocity deltas make the strength times the prediction-minus-baseline difference. `n` angle deltas make the whole angle correction. |
| PhysicalObjects.PhysicalObject2D.DeriveIncrements | src/serialize/PhysicalObject2D.js:125-141 | The scale, the four deltas and the target equal those of `Bent`. The four attributes and the counter are unchanged. |
| PhysicalObjects.PhysicalObject2D.BendToCurrent | src/serialize/PhysicalObject2D.js:107-150 | The new state and bending fields equal `Bent` applied to the old prediction and the old baseline, with the resolved strengths and the angle helper's correction. The physics body holds the new state. |
| PhysicalObjects.PhysicalObject2D.SyncTo | src/serialize/PhysicalObject2D.js:152-166 | The object takes the other's position, angle and angular velocity. It takes the velocity too unless that is kept. The bending fields are unchanged. An attached body then holds the new state. |
| PhysicalObjects.PhysicalObject2D.RefreshFromPhysics | src/serialize/PhysicalObject2D.js:169-174 | The object's four attributes become the body's, and nothing else changes. |
| PhysicalObjects.PhysicalObject2D.RefreshToPhysics | src/serialize/PhysicalObject2D.js:177-182 | The body's four attributes become the object's. |
| PhysicalObjects.RefreshRoundTrip | src/serialize/PhysicalObject2D.js:169-182 | Pushing to the body and reading back leaves the object's whole state as it was, with the body equal to it. |
| Bending.TimeFactor | src/serialize/PhysicalObject2D.js:189-191 | An absent or zero `dt` counts as one tick. Otherwise the factor times the canonical tick (1000/60 ms) is `dt`. |
| Bending.WrapByPiRange | src/serialize/PhysicalObject2D.js:199-200 | The PI fix-up leaves [0, PI] alone and only shifts by -PI, 0 or PI. It lands in [0, PI] from [-PI, 2 PI] and outside it from anywhere else. |
| Bending.Step | src/serialize/PhysicalObject2D.js:185-203 | With no increments left a step changes nothing. Otherwise the counter drops by one and every other bending field is kept. |
| Bending.StepDisplacement | src/serialize/PhysicalObject2D.js:193-200 | A pending step moves position, velocity and angular velocity by exactly their deltas times the time factor. The angle becomes the PI fix-up of the old angle plus its delta times the time factor. |
| Bending.StepAngleInRange | src/serialize/PhysicalObject2D.js:198-200 | A pending step from an angle in [0, PI] that turns by at most PI lands in [0, PI], shifted from the unwrapped sum by -PI, 0 or PI. |
| PhysicalObjects.PhysicalObject2D.ApplyIncrementalBending | src/serialize/PhysicalObject2D.js:185-203 | The object's new state and bending fields are `Step` of the old ones. The physics body and player are unchanged. |
| Bending.Steps | src/serialize/PhysicalObject2D.js:185-203 | After `k` canonical ticks the counter has dropped by `k`, stopping at 0, and every other bending field is kept. |
| Bending.StepsAccumulate | src/serialize/PhysicalObject2D.js:193-197 | After `k` pending canonical ticks, position, velocity and angular velocity have moved by `k` times their deltas. |
| Bending.StepsPastExhaustion | src/serialize/PhysicalObject2D.js:186-187 | Once the increments are used up, further ticks change nothing. |
| Bending.Convergence | src/serialize/PhysicalObject2D.js:101-106 | `bendToCurrent` then `n` canonical ticks leaves no increments. Position and angular velocity end at the baseline plus the strength times the prediction-minus-baseline difference. Velocity ends at the prediction plus that difference for velocity. |
| Bending.FullBendingReachesPrediction | src/serialize/PhysicalObject2D.js:101-106 | At strength 1, position and angular velocity end exactly at the prediction, and velocity one difference beyond it. |
| Bending.QuarterTurnScenario | src/serialize/PhysicalObject2D.js:196-202 | Correcting a quarter turn from angle 0 over 4 increments gives PI/8 per tick and PI/2 after four ticks, with no increments left. |
| PhysicalObjects.PhysicalObject2D.Interpolate | src/serialize/PhysicalObject2D.js:206-211 | The position becomes `Lerp` from the old position towards the next one by `percent`. The angle becomes the angle helper's value. Nothing else changes. |
| TwoVector.Lerp | src/serialize/PhysicalObject2D.js:209 | Interpolation starts at the first vector (p = 0) and ends at the second (p = 1). For p in [0, 1] it stays inside the box the two span. |
| AsWritten.StepAsWritten | src/serialize/PhysicalObject2D.js:193-194 | The step as written is a no-op with nothing pending. It throws when the property `bendingVelocDelta` is absent and an increment is pending. Where the property is present, it is the intended `Step`. |
| AsWritten.AsWrittenThrowsAfterBend | src/serialize/PhysicalObject2D.js:130-132 | After any `bendToCurrent` the object has `bendingVelocityDelta` and no `bendingVelocDelta`, so the first step as written throws. |

## Left out

- `MathUtils.interpolateDeltaWithWrapping` is not part of this model. Every operation that calls it takes it as a function parameter, and nothing is assumed about its result.
- `GameObject` (the superclass) is not part of this model: its constructor, `super.syncTo` and the object id. The model assumes `super.syncTo` leaves `playerId` alone, which is why `SyncTo` and `BendToCurrent` promise an unchanged `playerId`. `Schemas.NetScheme` takes the superclass's schema as a parameter.
- `toString` and `bendingToString` only format text for traces.
- The serializer's byte layout for `INT16`, `FLOAT32` and `CLASSINSTANCE` is not part of this model. A schema maps names to type tags only.
- Floating point: all arithmetic is on mathematical reals, and `Math.PI` is the decimal 3.141592653589793. The rounding of 64-bit floats and of `FLOAT32` attributes is not modelled.
- The physics engine is not part of this model. It is a `PhysicsBody` holding the four attributes, attached by the engine (`physicsObj` is null after construction).
- `worldSettings` is accepted by `bendToCurrent` but never read, so the model has no such parameter.
- The `quaternion` and `class` properties set by the constructor are not modelled. The source gives `angle` no default and assigns only a truthy `props.angle`; the model starts it at 0, so an absent or zero `props.angle` gives 0 where the source leaves `angle` undefined. A zero `props.angularVelocity` is skipped by the source's truthiness test, which gives the same 0 here.
- The constructor sets `bending`, `incrementScale` and the four deltas to zero and the target to `None`; the source leaves them unassigned. Nothing reads them while `bendingIncrements` is 0, so the behaviour is the same.
- `TwoVector` objects are values here. The source copies them with `copy` and `clone`, so no two fields share a vector, and the model cannot express aliasing between them.
- `bendingTarget` is a snapshot of the four attributes, not a fresh `PhysicalObject2D` instance. Its id, player and bending fields are not modelled.
- PhysicalObjects.PhysicalObject2D.BendToCurrent requires an attached physics body, because the source calls `refreshToPhysics` unconditionally. That call throws without a body, and the model does not capture the throw. RefreshToPhysics and RefreshFromPhysics require a body for the same reason.
- PhysicalObjects.PhysicalObject2D.BendToCurrent requires at least one increment. Zero makes the source divide by zero.
- Bending.Convergence states nothing about the angle, because the PI fix-up may shift any step. Bending.QuarterTurnScenario covers one concrete run.
- PhysicalObjects.PhysicalObject2D.ApplyIncrementalBending models the step the class evidently intends (see Findings). It does not model the TypeError that `AsWritten.StepAsWritten` captures.

## Findings

| source | as written | input that shows it | evidently intended | confidence | as-written member | corrected member |
|---|---|---|---|---|---|---|
| src/serialize/PhysicalObject2D.js:194 | The step reads the velocity delta from `this.bendingVelocDelta`. Only `bendingVelocityDelta` is ever assigned (line 130), so `clone()` is called on `undefined`. | Any `bendToCurrent` with `bendingIncrements >= 1`, then one `applyIncrementalBending`: a TypeError instead of the first increment. | Read `bendingVelocityDelta`, the delta `bendToCurrent` derives. | not executed | AsWritten.AsWrittenThrowsAfterBend | PhysicalObjects.PhysicalObject2D.ApplyIncrementalBending |
