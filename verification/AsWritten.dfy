/**
 * `applyIncrementalBending` exactly as the source writes it. It reads the
 * velocity delta from the property `bendingVelocDelta`, but the class only ever
 * assigns `bendingVelocityDelta`. Reading a property that was never assigned
 * gives `undefined`, and calling `clone()` on that throws a TypeError, so the
 * step fails whenever an increment is pending. Bending.Step and
 * PhysicalObject2D.ApplyIncrementalBending model the intended step instead.
 */
module AsWritten {
  import opened Wrappers
  import opened Bending

  /** Every property the class assigns, in its constructor and in `bendToCurrent`. */
  const AssignedProperties: set<string> := {
    "playerId", "bendingIncrements", "position", "velocity", "quaternion", "angularVelocity",
    "angle", "class", "incrementScale", "bendingPositionDelta", "bendingVelocityDelta",
    "bendingAVDelta", "bendingAngleDelta", "bendingTarget", "bending"
  }

  /** The property the source's step reads for the velocity delta. */
  const VelocityDeltaAsRead: string := "bendingVelocDelta"

  datatype Outcome = Completed(state: EntityState) | TypeError(property: string)

  /**
   * The step as written, on an object whose assigned properties are `present`:
   * a no-op with nothing pending; otherwise it throws unless the property it
   * reads exists, and if it exists (holding the velocity delta) it is the
   * intended step.
   */
  function StepAsWritten(s: EntityState, present: set<string>, dt: Option<real>): (r: Outcome)
    ensures s.plan.increments == 0 ==> r == Completed(s)
    ensures s.plan.increments > 0 && VelocityDeltaAsRead !in present ==> r == TypeError(VelocityDeltaAsRead)
    ensures VelocityDeltaAsRead in present ==> r == Completed(Step(s, dt))
  {
    if s.plan.increments == 0 then Completed(s)
    else if VelocityDeltaAsRead !in present then TypeError(VelocityDeltaAsRead)
    else Completed(Step(s, dt))
  }

  /**
   * The discrepancy: right after any `bendToCurrent`, the step as written throws
   * instead of applying the first increment.
   */
  lemma AsWrittenThrowsAfterBend(predicted: BodyState, original: BodyState, bending: real,
                                 angleCorrection: real, n: nat, dt: Option<real>)
    requires n >= 1
    ensures StepAsWritten(Bent(predicted, original, bending, angleCorrection, n), AssignedProperties, dt)
            == TypeError(VelocityDeltaAsRead)
  {
    assert VelocityDeltaAsRead !in AssignedProperties;
  }
}
