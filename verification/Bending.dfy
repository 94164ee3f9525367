/**
 * The value-level specification of a physical 2D object's state and of its
 * "bending": after an authoritative update resets the object to a baseline, a
 * correction is spread over a number of ticks, one increment per tick, so that
 * the object drifts back towards the state it had predicted instead of jumping.
 * The class in PhysicalObject2D.dfy is proved against these functions.
 */
module Bending {
  import opened Wrappers
  import opened TwoVector

  /** JavaScript's `Math.PI`, written as the decimal it prints as. */
  const PI: real := 3.141592653589793

  /** The canonical tick length in milliseconds, `1000 / 60`. */
  const TickMillis: real := 1000.0 / 60.0

  /** The four attributes an object shares with its physics body. */
  datatype BodyState = BodyState(position: Vec2, velocity: Vec2, angle: real, angularVelocity: real)

  /**
   * The bending fields: the remaining increments, the strength used, the derived
   * per-increment scale, the four per-increment deltas and the snapshot of the
   * predicted state taken when the correction started (`bendingTarget`).
   */
  datatype BendingPlan = BendingPlan(
    increments: nat,
    bending: real,
    incrementScale: real,
    positionDelta: Vec2,
    velocityDelta: Vec2,
    avDelta: real,
    angleDelta: real,
    target: Option<BodyState>)

  datatype EntityState = EntityState(body: BodyState, plan: BendingPlan)

  /** The bending fields of a new object: no correction pending. */
  const NoBending: BendingPlan := BendingPlan(0, 0.0, 0.0, Zero, Zero, 0.0, 0.0, None)

  /**
   * The reference reading of an override chain: the first override that is
   * present, in priority order, and `fallback` when none is.
   */
  function FirstPresent(chain: seq<Option<real>>, fallback: real): (r: real)
    ensures (forall i :: 0 <= i < |chain| ==> chain[i].None?) ==> r == fallback
    ensures forall i :: 0 <= i < |chain| && chain[i].Some? && (forall j :: 0 <= j < i ==> chain[j].None?) ==>
              r == chain[i].value
  {
    if chain == [] then fallback
    else if chain[0].Some? then chain[0].value
    else FirstPresent(chain[1..], fallback)
  }

  /** The strength actually used: `bendingMultiple` when the object defines one. */
  function ResolvedBending(bendingMultiple: Option<real>, bending: real): (b: real)
    ensures b == FirstPresent([bendingMultiple], bending)
  {
    if bendingMultiple.Some? then bendingMultiple.value else bending
  }

  /**
   * The angle strength, as the source computes it: start from the (resolved)
   * strength, let `bendingAngleMultiple` replace it, and for a locally
   * controlled object let `bendingAngleLocalMultiple` replace that again.
   * It is the precedence chain local override, angle override, strength.
   */
  function AngleBending(angleMultiple: Option<real>, localMultiple: Option<real>, isLocal: bool, bending: real): (a: real)
    ensures a == FirstPresent([if isLocal then localMultiple else None, angleMultiple], bending)
  {
    var a := if angleMultiple.Some? then angleMultiple.value else bending;
    if isLocal && localMultiple.Some? then localMultiple.value else a
  }

  /**
   * How many canonical ticks a step of `dt` milliseconds lasts. An absent or
   * zero `dt` (both falsy in the source) counts as one tick.
   */
  function TimeFactor(dt: Option<real>): (f: real)
    ensures dt.None? || dt.value == 0.0 ==> f == 1.0
    ensures dt.Some? && dt.value != 0.0 ==> f * TickMillis == dt.value
  {
    if dt.Some? && dt.value != 0.0 then dt.value / TickMillis else 1.0
  }

  /**
   * The angle fix-up after a bending step: subtract PI once when above PI, then
   * add PI once when below 0.
   */
  function WrapByPi(a: real): real
  {
    var above := if a > PI then a - PI else a;
    if above < 0.0 then above + PI else above
  }

  /**
   * `WrapByPi` wraps by PI, not by a full turn: it leaves [0, PI] alone, only
   * ever shifts by PI or nothing, and lands in [0, PI] from anywhere in
   * [-PI, 2 PI], but not from further out.
   */
  lemma WrapByPiRange(a: real)
    ensures 0.0 <= a <= PI ==> WrapByPi(a) == a
    ensures -PI <= a <= 2.0 * PI ==> 0.0 <= WrapByPi(a) <= PI
    ensures WrapByPi(a) - a in {-PI, 0.0, PI}
    ensures a < -PI || a > 2.0 * PI ==> WrapByPi(a) < 0.0 || WrapByPi(a) > PI
  {
  }

  /**
   * One increment of bending (`applyIncrementalBending`): nothing happens when no
   * increments remain; otherwise each attribute moves by its delta times the
   * time factor, the angle is wrapped, and the counter drops by exactly one
   * whatever `dt` is.
   */
  function Step(s: EntityState, dt: Option<real>): (r: EntityState)
    ensures s.plan.increments == 0 ==> r == s
    ensures s.plan.increments > 0 ==> r.plan == s.plan.(increments := s.plan.increments - 1)
  {
    if s.plan.increments == 0 then s
    else
      var f := TimeFactor(dt);
      var b := s.body;
      EntityState(
        BodyState(
          Add(b.position, Scale(s.plan.positionDelta, f)),
          Add(b.velocity, Scale(s.plan.velocityDelta, f)),
          WrapByPi(b.angle + s.plan.angleDelta * f),
          b.angularVelocity + s.plan.avDelta * f),
        s.plan.(increments := s.plan.increments - 1))
  }

  /**
   * A step with an increment pending moves position, velocity and angular
   * velocity by exactly their deltas times the time factor: twice the delta
   * for a step twice the canonical length, and so on. The angle moves by its
   * delta times the time factor and then takes the PI fix-up.
   */
  lemma StepDisplacement(s: EntityState, dt: Option<real>)
    requires s.plan.increments > 0
    ensures Sub(Step(s, dt).body.position, s.body.position) == Scale(s.plan.positionDelta, TimeFactor(dt))
    ensures Sub(Step(s, dt).body.velocity, s.body.velocity) == Scale(s.plan.velocityDelta, TimeFactor(dt))
    ensures Step(s, dt).body.angularVelocity - s.body.angularVelocity == s.plan.avDelta * TimeFactor(dt)
    ensures Step(s, dt).body.angle == WrapByPi(s.body.angle + s.plan.angleDelta * TimeFactor(dt))
  {
  }

  /**
   * A pending step from an angle in [0, PI] that turns by at most PI either
   * way lands in [0, PI] again, and differs from the unwrapped sum by -PI, 0
   * or PI.
   */
  lemma StepAngleInRange(s: EntityState, dt: Option<real>)
    requires s.plan.increments > 0
    requires 0.0 <= s.body.angle <= PI
    requires -PI <= s.plan.angleDelta * TimeFactor(dt) <= PI
    ensures 0.0 <= Step(s, dt).body.angle <= PI
    ensures Step(s, dt).body.angle - (s.body.angle + s.plan.angleDelta * TimeFactor(dt)) in {-PI, 0.0, PI}
  {
    WrapByPiRange(s.body.angle + s.plan.angleDelta * TimeFactor(dt));
  }

  /** `k` successive steps at the canonical tick (no `dt`). */
  function Steps(s: EntityState, k: nat): (r: EntityState)
    ensures r.plan == s.plan.(increments := if k <= s.plan.increments then s.plan.increments - k else 0)
    decreases k
  {
    if k == 0 then s else Steps(Step(s, None), k - 1)
  }

  /**
   * `bendToCurrent` on values: `predicted` is the object's state when the
   * authoritative `original` arrives, `bending` the resolved strength,
   * `angleCorrection` the wrapped angle difference the angle helper returned,
   * `n` the number of increments. The object is reset to the baseline but keeps
   * its predicted velocity; each delta is the matching difference times
   * `bending`, split into `n` equal parts; the prediction is kept as the target.
   */
  function Bent(predicted: BodyState, original: BodyState, bending: real, angleCorrection: real, n: nat): (r: EntityState)
    requires n >= 1
    ensures r.body == original.(velocity := predicted.velocity)
    ensures r.plan.increments == n && r.plan.bending == bending && r.plan.target == Some(predicted)
  {
    var scale := bending / (n as real);
    EntityState(
      original.(velocity := predicted.velocity),
      BendingPlan(
        n, bending, scale,
        Scale(Sub(predicted.position, original.position), scale),
        Scale(Sub(predicted.velocity, original.velocity), scale),
        (predicted.angularVelocity - original.angularVelocity) * scale,
        angleCorrection / (n as real),
        Some(predicted)))
  }

  /**
   * The deltas `Bent` arms are the full corrections split into `n` equal
   * parts: `n` of them make `bending` times the predicted-minus-baseline
   * difference (and the whole angle correction).
   */
  lemma BentDeltas(predicted: BodyState, original: BodyState, bending: real, angleCorrection: real, n: nat)
    requires n >= 1
    ensures var p := Bent(predicted, original, bending, angleCorrection, n).plan;
            && p.incrementScale * (n as real) == bending
            && Scale(p.positionDelta, n as real) == Scale(Sub(predicted.position, original.position), bending)
            && Scale(p.velocityDelta, n as real) == Scale(Sub(predicted.velocity, original.velocity), bending)
            && p.avDelta * (n as real) == (predicted.angularVelocity - original.angularVelocity) * bending
            && p.angleDelta * (n as real) == angleCorrection
  {
    var m := n as real;
    assert (bending / m) * m == bending;
    ScaleSplit(Sub(predicted.position, original.position), bending, m);
    ScaleSplit(Sub(predicted.velocity, original.velocity), bending, m);
    SplitParts(predicted.angularVelocity - original.angularVelocity, bending, m);
  }

  /** After `k` canonical ticks of a pending correction each attribute has moved by `k` deltas. */
  lemma {:induction false} StepsAccumulate(s: EntityState, k: nat)
    requires k <= s.plan.increments
    decreases k
    ensures Steps(s, k).body.position == Add(s.body.position, Scale(s.plan.positionDelta, k as real))
    ensures Steps(s, k).body.velocity == Add(s.body.velocity, Scale(s.plan.velocityDelta, k as real))
    ensures Steps(s, k).body.angularVelocity == s.body.angularVelocity + s.plan.avDelta * (k as real)
  {
    if k > 0 {
      var s1 := Step(s, None);
      assert s1.plan.increments == s.plan.increments - 1;
      assert s1.body.position == Add(s.body.position, s.plan.positionDelta);
      assert s1.body.velocity == Add(s.body.velocity, s.plan.velocityDelta);
      StepsAccumulate(s1, k - 1);
      assert s1.body.angularVelocity == s.body.angularVelocity + s.plan.avDelta;
      assert s1.plan.avDelta == s.plan.avDelta;
      assert s.plan.avDelta + s.plan.avDelta * ((k - 1) as real) == s.plan.avDelta * (k as real);
      AddOneMore(s.body.position, s.plan.positionDelta, (k - 1) as real);
      AddOneMore(s.body.velocity, s.plan.velocityDelta, (k - 1) as real);
    }
  }

  /** Once the increments are used up, further ticks change nothing. */
  lemma {:induction false} StepsPastExhaustion(s: EntityState, k: nat)
    requires k >= s.plan.increments
    ensures Steps(s, k) == Steps(s, s.plan.increments)
    decreases k
  {
    if k > 0 {
      StepsPastExhaustion(Step(s, None), k - 1);
    }
  }

  /**
   * Convergence: a correction of `n` increments followed by `n` canonical ticks
   * leaves no increments and has added `bending` times the predicted-minus-
   * baseline difference to the baseline position and angular velocity. Since
   * the reset keeps the predicted velocity, the velocity ends at the prediction
   * plus `bending` times the same difference.
   */
  lemma Convergence(predicted: BodyState, original: BodyState, bending: real, angleCorrection: real, n: nat)
    requires n >= 1
    ensures var r := Steps(Bent(predicted, original, bending, angleCorrection, n), n);
            && r.plan.increments == 0
            && r.body.position == Add(original.position, Scale(Sub(predicted.position, original.position), bending))
            && r.body.velocity == Add(predicted.velocity, Scale(Sub(predicted.velocity, original.velocity), bending))
            && r.body.angularVelocity
               == original.angularVelocity + (predicted.angularVelocity - original.angularVelocity) * bending
  {
    StepsAccumulate(Bent(predicted, original, bending, angleCorrection, n), n);
    BentDeltas(predicted, original, bending, angleCorrection, n);
  }

  /**
   * At full strength the position and angular velocity end exactly at the
   * prediction, while the velocity, which started from the prediction, ends
   * one whole difference beyond it.
   */
  lemma FullBendingReachesPrediction(predicted: BodyState, original: BodyState, angleCorrection: real, n: nat)
    requires n >= 1
    ensures var r := Steps(Bent(predicted, original, 1.0, angleCorrection, n), n);
            && r.body.position == predicted.position
            && r.body.angularVelocity == predicted.angularVelocity
            && r.body.velocity == Add(predicted.velocity, Sub(predicted.velocity, original.velocity))
  {
    Convergence(predicted, original, 1.0, angleCorrection, n);
  }

  /**
   * A quarter turn corrected at full strength over four increments: with the
   * angle helper's correction of PI/2 each increment turns by PI/8, no step
   * leaves [0, PI], and after four canonical ticks the angle is PI/2 with no
   * increments left.
   */
  lemma QuarterTurnScenario(predicted: BodyState, original: BodyState)
    requires original.angle == 0.0
    ensures var r := Steps(Bent(predicted, original, 1.0, PI / 2.0, 4), 4);
            r.body.angle == PI / 2.0 && r.plan.increments == 0
  {
    var s0 := Bent(predicted, original, 1.0, PI / 2.0, 4);
    assert s0.plan.angleDelta == PI / 8.0;
    var s1 := Step(s0, None);
    assert s1.body.angle == PI / 8.0;
    var s2 := Step(s1, None);
    assert s2.body.angle == PI / 4.0;
    var s3 := Step(s2, None);
    assert s3.body.angle == 3.0 * PI / 8.0;
    var s4 := Step(s3, None);
    assert s4.body.angle == PI / 2.0;
    assert Steps(s0, 4) == Steps(s1, 3) == Steps(s2, 2) == Steps(s3, 1) == Steps(s4, 0);
  }
}
