/**
 * The mapping from the displayed state to animation parameters, and the per-frame smoothing
 * that moves the shown parameters toward the target ones by a bounded step. Numbers are
 * reals: the model does not follow floating-point rounding.
 */
module Mapping {
  import opened Simulate

  /** The parameters the animation engine blends with. */
  datatype AnimationParams = AnimationParams(
    state: AgentState,
    breathingWeight: real,
    blinkWeight: real,
    intensity: real,
    emotion: string)

  function Min(a: real, b: real): real { if a <= b then a else b }
  function Max(a: real, b: real): real { if a >= b then a else b }
  function Abs(a: real): real { if a < 0.0 then -a else a }
  function Sign(a: real): real { if a > 0.0 then 1.0 else if a < 0.0 then -1.0 else 0.0 }

  /** The breathing and blink weights each state shows. */
  function Weights(state: AgentState): (real, real)
  {
    match state
    case Idle => (1.0, 1.0)
    case ToolRunning => (0.6, 0.8)
    case Error => (0.8, 1.0)
    case _ => (1.0, 1.0)
  }

  /** `stateToAnimationParams`: the state and emotion pass through, the intensity is clamped
      to [0, 1] and further capped at 0.5 in the error state, and the weights are those of the
      state: (1, 1) when idle, (0.6, 0.8) while a tool runs, (0.8, 1) on error, and the
      defaults (1, 1) otherwise. */
  function StateToAnimationParams(state: AgentState, intensity: real, emotion: string): (r: AnimationParams)
    ensures r.state == state && r.emotion == emotion
    ensures 0.0 <= r.intensity <= 1.0
    ensures state != Error ==> r.intensity == Max(0.0, Min(1.0, intensity))
    ensures state == Error ==> r.intensity == Min(Max(0.0, Min(1.0, intensity)), 0.5)
    ensures state == ToolRunning ==> r.breathingWeight == 0.6 && r.blinkWeight == 0.8
    ensures state == Error ==> r.breathingWeight == 0.8 && r.blinkWeight == 1.0
    ensures state != ToolRunning && state != Error ==> r.breathingWeight == 1.0 && r.blinkWeight == 1.0
  {
    var clamped := Max(0.0, Min(1.0, intensity));
    var (breathing, blink) := Weights(state);
    AnimationParams(state, breathing, blink, if state == Error then Min(clamped, 0.5) else clamped, emotion)
  }

  /** Every weight and intensity the mapping produces lies in [0, 1]. */
  predicate InUnitRange(p: AnimationParams)
  {
    0.0 <= p.breathingWeight <= 1.0 && 0.0 <= p.blinkWeight <= 1.0 && 0.0 <= p.intensity <= 1.0
  }

  /** The mapping's output is in range and is a fixed point of the mapping: mapping its own
      state, intensity and emotion again gives it back. */
  lemma MappingStable(state: AgentState, intensity: real, emotion: string)
    ensures InUnitRange(StateToAnimationParams(state, intensity, emotion))
    ensures var p := StateToAnimationParams(state, intensity, emotion);
      StateToAnimationParams(p.state, p.intensity, p.emotion) == p
  {
  }

  /** One field's move toward its target: the sign of the gap times the smaller of the gap's
      size and the step limit. With a limit that is not negative the move never passes the
      target, is at most the limit, and lands on the target exactly when the gap is within
      the limit; a larger gap shrinks by exactly the limit. */
  function Step(from: real, to: real, deltaClamp: real): (r: real)
    ensures 0.0 <= deltaClamp ==> Abs(r - from) <= deltaClamp
    ensures 0.0 <= deltaClamp ==> Min(from, to) <= r <= Max(from, to)
    ensures 0.0 <= deltaClamp ==> (r == to <==> Abs(to - from) <= deltaClamp)
    ensures 0.0 <= deltaClamp && deltaClamp < Abs(to - from) ==> Abs(to - r) == Abs(to - from) - deltaClamp
  {
    var d := to - from;
    from + Sign(d) * Min(Abs(d), deltaClamp)
  }

  /** `lerpAnimationParams`: the state and emotion are the target's, and each number takes
      one bounded step toward the target's. */
  function Lerp(current: AnimationParams, target: AnimationParams, deltaClamp: real): (r: AnimationParams)
    ensures r.state == target.state && r.emotion == target.emotion
    ensures r.breathingWeight == Step(current.breathingWeight, target.breathingWeight, deltaClamp)
    ensures r.blinkWeight == Step(current.blinkWeight, target.blinkWeight, deltaClamp)
    ensures r.intensity == Step(current.intensity, target.intensity, deltaClamp)
  {
    AnimationParams(
      target.state,
      Step(current.breathingWeight, target.breathingWeight, deltaClamp),
      Step(current.blinkWeight, target.blinkWeight, deltaClamp),
      Step(current.intensity, target.intensity, deltaClamp),
      target.emotion)
  }

  /** Smoothing keeps parameters in range: a step from an in-range value toward an in-range
      target stays in range. */
  lemma LerpKeepsRange(current: AnimationParams, target: AnimationParams, deltaClamp: real)
    requires 0.0 <= deltaClamp
    requires InUnitRange(current) && InUnitRange(target)
    ensures InUnitRange(Lerp(current, target, deltaClamp))
  {
  }

  /** `frames` steps of one field toward a fixed target. */
  function Steps(from: real, to: real, deltaClamp: real, frames: nat): real
    decreases frames
  {
    if frames == 0 then from else Steps(Step(from, to, deltaClamp), to, deltaClamp, frames - 1)
  }

  /** A field reaches its target, and stays there, once the frames times the limit cover the
      gap. */
  lemma {:induction false} StepsReach(from: real, to: real, deltaClamp: real, frames: nat)
    requires 0.0 < deltaClamp
    requires Abs(to - from) <= frames as real * deltaClamp
    ensures Steps(from, to, deltaClamp, frames) == to
    decreases frames
  {
    if frames > 0 {
      var next := Step(from, to, deltaClamp);
      assert frames as real * deltaClamp == (frames - 1) as real * deltaClamp + deltaClamp;
      if Abs(to - from) <= deltaClamp {
        StepsAtTarget(to, deltaClamp, frames - 1);
      } else {
        StepsReach(next, to, deltaClamp, frames - 1);
      }
    }
  }

  /** A field already at its target stays there. */
  lemma {:induction false} StepsAtTarget(to: real, deltaClamp: real, frames: nat)
    requires 0.0 <= deltaClamp
    ensures Steps(to, to, deltaClamp, frames) == to
    decreases frames
  {
    if frames > 0 {
      StepsAtTarget(to, deltaClamp, frames - 1);
    }
  }
}
