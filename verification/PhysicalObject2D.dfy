/**
 * The networked physical 2D object: its four physical attributes, its bending
 * fields, its per-class strength overrides and the physics body it mirrors.
 * Every method that changes the object is specified by the functions of the
 * Bending module, where the properties of those functions are proved.
 */
module PhysicalObjects {
  import opened Wrappers
  import opened TwoVector
  import opened Bending

  /**
   * The angle helper (`MathUtils.interpolateDeltaWithWrapping`), taking the
   * start angle, the end angle, a fraction and the low and high ends of the
   * angle range. Its definition is not part of this model, so every operation
   * that uses it takes it as a parameter and nothing is assumed about it.
   */
  type AngleInterpolator = (real, real, real, real, real) -> real

  /** The optional construction properties. */
  datatype Props = Props(position: Option<Vec2>, velocity: Option<Vec2>, angle: Option<real>, angularVelocity: Option<real>)

  /** The physics engine's body: the same four attributes, owned by the engine. */
  class PhysicsBody {
    var position: Vec2
    var velocity: Vec2
    var angle: real
    var angularVelocity: real

    constructor (s: BodyState)
      ensures State() == s
    {
      position, velocity, angle, angularVelocity := s.position, s.velocity, s.angle, s.angularVelocity;
    }

    function State(): BodyState
      reads this
    {
      BodyState(position, velocity, angle, angularVelocity)
    }
  }

  class PhysicalObject2D {
    var playerId: int
    var position: Vec2
    var velocity: Vec2
    var angle: real
    var angularVelocity: real

    var bendingIncrements: nat
    var bending: real
    var incrementScale: real
    var bendingPositionDelta: Vec2
    var bendingVelocityDelta: Vec2
    var bendingAVDelta: real
    var bendingAngleDelta: real
    var bendingTarget: Option<BodyState>

    /** Attached by the engine after construction; null until then. */
    var physicsObj: PhysicsBody?

    /** Strength overrides a subclass may define; absent when it does not. */
    const bendingMultiple: Option<real>
    const bendingVelocityMultiple: Option<real>
    const bendingAngleMultiple: Option<real>
    const bendingAngleLocalMultiple: Option<real>

    function State(): BodyState
      reads this
    {
      BodyState(position, velocity, angle, angularVelocity)
    }

    function Plan(): BendingPlan
      reads this
    {
      BendingPlan(bendingIncrements, bending, incrementScale, bendingPositionDelta,
                  bendingVelocityDelta, bendingAVDelta, bendingAngleDelta, bendingTarget)
    }

    function Snapshot(): EntityState
      reads this
    {
      EntityState(State(), Plan())
    }

    /**
     * A new object: zero player, no correction pending, no physics body, and
     * each physical attribute taken from `props` when given, zero otherwise.
     * The source gives `angle` no default (it sets an unused `quaternion`) and
     * assigns only a truthy `props.angle`; the model starts it at zero. The
     * bending fields besides the counter, which the source leaves unassigned,
     * start at zero and `None`; nothing reads them while no increment is pending.
     */
    constructor (props: Props, bendingMultiple: Option<real>, bendingVelocityMultiple: Option<real>,
                 bendingAngleMultiple: Option<real>, bendingAngleLocalMultiple: Option<real>)
      ensures playerId == 0 && physicsObj == null && Plan() == NoBending
      ensures State() == BodyState(props.position.GetOr(Zero), props.velocity.GetOr(Zero),
                                   props.angle.GetOr(0.0), props.angularVelocity.GetOr(0.0))
      ensures this.bendingMultiple == bendingMultiple && this.bendingVelocityMultiple == bendingVelocityMultiple
      ensures this.bendingAngleMultiple == bendingAngleMultiple
      ensures this.bendingAngleLocalMultiple == bendingAngleLocalMultiple
    {
      this.bendingMultiple := bendingMultiple;
      this.bendingVelocityMultiple := bendingVelocityMultiple;
      this.bendingAngleMultiple := bendingAngleMultiple;
      this.bendingAngleLocalMultiple := bendingAngleLocalMultiple;
      playerId := 0;
      bendingIncrements := 0;
      position := props.position.GetOr(Zero);
      velocity := props.velocity.GetOr(Zero);
      angle := props.angle.GetOr(0.0);
      angularVelocity := props.angularVelocity.GetOr(0.0);
      bending, incrementScale := 0.0, 0.0;
      bendingPositionDelta, bendingVelocityDelta := Zero, Zero;
      bendingAVDelta, bendingAngleDelta := 0.0, 0.0;
      bendingTarget := None;
      physicsObj := null;
    }

    /** `refreshToPhysics`: the body takes the object's four attributes. */
    method RefreshToPhysics()
      requires physicsObj != null
      modifies physicsObj
      ensures physicsObj.State() == State()
    {
      physicsObj.position := position;
      physicsObj.velocity := velocity;
      physicsObj.angle := angle;
      physicsObj.angularVelocity := angularVelocity;
    }

    /** `refreshFromPhysics`: the object takes the body's four attributes, nothing else changes. */
    method RefreshFromPhysics()
      requires physicsObj != null
      modifies this
      ensures State() == old(physicsObj.State())
      ensures physicsObj == old(physicsObj) && playerId == old(playerId) && Plan() == old(Plan())
    {
      position := physicsObj.position;
      velocity := physicsObj.velocity;
      angle := physicsObj.angle;
      angularVelocity := physicsObj.angularVelocity;
    }

    /**
     * `syncTo`: take the other object's position, angle and angular velocity,
     * and its velocity too unless `keepVelocity` is set; then, when a physics
     * body is attached, push the new state into it.
     */
    method SyncTo(other: PhysicalObject2D, keepVelocity: bool)
      modifies this, physicsObj
      ensures State() == old(other.State()).(velocity := if keepVelocity then old(velocity) else old(other.velocity))
      ensures physicsObj == old(physicsObj) && playerId == old(playerId) && Plan() == old(Plan())
      ensures physicsObj != null ==> physicsObj.State() == State()
    {
      position := other.position;
      angle := other.angle;
      angularVelocity := other.angularVelocity;
      if !keepVelocity {
        velocity := other.velocity;
      }
      if physicsObj != null {
        RefreshToPhysics();
      }
    }

    /**
     * `bendToCurrent`: the object holds its predicted state and `original` is the
     * authoritative one. Resolve the strengths from the overrides, derive the
     * per-increment deltas, keep the prediction as the target, reset to
     * `original` keeping the predicted velocity, arm `n` increments and push the
     * baseline into the physics body. The source divides by `n` and pushes into
     * the body unconditionally, so both must be there.
     */
    method BendToCurrent(original: PhysicalObject2D, bending: real, isLocal: bool, n: nat, wrap: AngleInterpolator)
      requires n >= 1
      requires physicsObj != null
      modifies this, physicsObj
      ensures Snapshot() == Bent(
        old(State()), old(original.State()), ResolvedBending(bendingMultiple, bending),
        wrap(old(original.angle), old(angle),
             AngleBending(bendingAngleMultiple, bendingAngleLocalMultiple, isLocal, ResolvedBending(bendingMultiple, bending)),
             0.0, 2.0 * PI),
        n)
      ensures physicsObj == old(physicsObj) && physicsObj.State() == State()
      ensures playerId == old(playerId)
    {
      var strength := ResolvedBending(bendingMultiple, bending);
      // Computed as in the source and, as there, never used: the velocity
      // delta is scaled by `incrementScale`, which comes from `strength`.
      var velocityBending := if bendingVelocityMultiple.Some? then bendingVelocityMultiple.value else strength;
      var angleBending := AngleBending(bendingAngleMultiple, bendingAngleLocalMultiple, isLocal, strength);
      ghost var expected := Bent(State(), original.State(), strength,
                                 wrap(original.angle, angle, angleBending, 0.0, 2.0 * PI), n);

      DeriveIncrements(original.State(), strength, wrap(original.angle, angle, angleBending, 0.0, 2.0 * PI), n);
      SyncTo(original, true);
      bendingIncrements := n;
      this.bending := strength;
      RefreshToPhysics();
      assert State() == expected.body;
    }

    /**
     * The middle of `bendToCurrent` (the increment scale, the four deltas and
     * the target snapshot), kept as its own method so that each proof stays
     * small. `angleCorrection` is the value the angle helper returned.
     */
    method DeriveIncrements(original: BodyState, strength: real, angleCorrection: real, n: nat)
      requires n >= 1
      modifies this
      ensures State() == old(State()) && physicsObj == old(physicsObj) && playerId == old(playerId)
      ensures bendingIncrements == old(bendingIncrements) && bending == old(bending)
      ensures Plan().(increments := 0, bending := 0.0) == Bent(old(State()), original, strength, angleCorrection, n).plan.(increments := 0, bending := 0.0)
    {
      incrementScale := strength / (n as real);
      bendingPositionDelta := Scale(Sub(position, original.position), incrementScale);
      bendingVelocityDelta := Scale(Sub(velocity, original.velocity), incrementScale);
      bendingAVDelta := (angularVelocity - original.angularVelocity) * incrementScale;
      bendingAngleDelta := angleCorrection / (n as real);
      bendingTarget := Some(State());
    }

    /**
     * `applyIncrementalBending`: one increment per call, no-op when none remain.
     * The source reads the velocity delta from a field named `bendingVelocDelta`,
     * which nothing assigns; this model reads `bendingVelocityDelta`, the field
     * `BendToCurrent` fills (see AsWritten.dfy for the source as written).
     */
    method ApplyIncrementalBending(dt: Option<real>)
      modifies this
      ensures Snapshot() == Step(old(Snapshot()), dt)
      ensures physicsObj == old(physicsObj) && playerId == old(playerId)
    {
      if bendingIncrements == 0 {
        return;
      }
      var timeFactor := TimeFactor(dt);
      position := Add(position, Scale(bendingPositionDelta, timeFactor));
      velocity := Add(velocity, Scale(bendingVelocityDelta, timeFactor));
      angularVelocity := angularVelocity + bendingAVDelta * timeFactor;
      // The two-step fix-up by PI, as in the source; see `WrapByPi`.
      angle := WrapByPi(angle + bendingAngleDelta * timeFactor);
      bendingIncrements := bendingIncrements - 1;
    }

    /**
     * `interpolate`: move the position towards `next`'s by the fraction
     * `percent` and take the angle the angle helper returns; nothing else changes.
     */
    method Interpolate(next: PhysicalObject2D, percent: real, wrap: AngleInterpolator)
      modifies this
      ensures position == Lerp(old(position), old(next.position), percent)
      ensures angle == wrap(old(angle), old(next.angle), percent, 0.0, 2.0 * PI)
      ensures velocity == old(velocity) && angularVelocity == old(angularVelocity)
      ensures Plan() == old(Plan()) && physicsObj == old(physicsObj) && playerId == old(playerId)
    {
      position := Lerp(position, next.position, percent);
      angle := wrap(angle, next.angle, percent, 0.0, 2.0 * PI);
    }
  }

  /** Pushing the state into the body and reading it back leaves the object as it was. */
  method RefreshRoundTrip(e: PhysicalObject2D)
    requires e.physicsObj != null
    modifies e, e.physicsObj
    ensures e.physicsObj == old(e.physicsObj) && e.Snapshot() == old(e.Snapshot())
    ensures e.physicsObj.State() == e.State()
  {
    e.RefreshToPhysics();
    e.RefreshFromPhysics();
  }
}
