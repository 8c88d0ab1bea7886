/**
 * The discrete PID controller of the heat pump component: proportional and
 * integral action on the error, derivative action on the measurement, an
 * inclusive output clamp, and anti-windup by clamping the integral sum too.
 * Floats become reals, so the NaN recovery of the integral sum is not needed.
 */
module PidController {
  import opened Wrappers

  /**
   * `applyOutputLimits`: the value clamped into [outputMin, outputMax],
   * testing the upper bound first.
   */
  function ApplyOutputLimits(outputMin: real, outputMax: real, x: real): (r: real)
    ensures outputMin <= outputMax ==> outputMin <= r <= outputMax
    ensures outputMin <= x <= outputMax ==> r == x
    ensures r == x || r == outputMin || r == outputMax
  {
    if x > outputMax then outputMax
    else if x < outputMin then outputMin
    else x
  }

  /** Clamping twice is clamping once. */
  lemma ApplyOutputLimitsIdempotent(outputMin: real, outputMax: real, x: real)
    requires outputMin <= outputMax
    ensures ApplyOutputLimits(outputMin, outputMax, ApplyOutputLimits(outputMin, outputMax, x))
         == ApplyOutputLimits(outputMin, outputMax, x)
  {
  }

  /** The clamp never reverses the order of two values. */
  lemma ApplyOutputLimitsMonotonic(outputMin: real, outputMax: real, x: real, y: real)
    requires outputMin <= outputMax
    requires x <= y
    ensures ApplyOutputLimits(outputMin, outputMax, x) <= ApplyOutputLimits(outputMin, outputMax, y)
  {
  }

  /**
   * The integral sum after one step of `update`: the old sum plus ki times
   * the error, clamped to the output limits (the anti-windup). A sum inside
   * the limits moves with the sign of the increment and never past a limit,
   * and a sum pinned at a limit stays there while the increment pushes
   * outward.
   */
  function NextOutputSum(outputMin: real, outputMax: real, outputSum: real, ki: real, error: real): (r: real)
    ensures outputMin <= outputMax ==> outputMin <= r <= outputMax
    ensures outputMin <= outputSum <= outputMax && ki * error >= 0.0 ==> outputSum <= r
    ensures outputMin <= outputSum <= outputMax && ki * error <= 0.0 ==> r <= outputSum
    ensures outputMin <= outputSum + ki * error <= outputMax ==> r == outputSum + ki * error
    ensures outputMin <= outputMax && outputSum == outputMax && ki * error >= 0.0 ==> r == outputMax
    ensures outputMin <= outputMax && outputSum == outputMin && ki * error <= 0.0 ==> r == outputMin
  {
    ApplyOutputLimits(outputMin, outputMax, outputSum + ki * error)
  }

  /**
   * The integral sum after n successive `update` calls that all see the
   * same error (the same input, with target and gains unchanged). Anti-windup
   * over a run: from a sum inside ordered limits, an increment that pushes
   * up never takes the sum below where it started nor past the upper limit,
   * and one that pushes down never takes it above its start nor past the
   * lower limit.
   */
  function IntegralSumAfter(outputMin: real, outputMax: real, outputSum: real, ki: real, error: real, n: nat): (r: real)
    ensures outputMin <= outputMax && outputMin <= outputSum <= outputMax && ki * error >= 0.0 ==>
      outputSum <= r <= outputMax
    ensures outputMin <= outputMax && outputMin <= outputSum <= outputMax && ki * error <= 0.0 ==>
      outputMin <= r <= outputSum
    decreases n
  {
    if n == 0 then outputSum
    else IntegralSumAfter(outputMin, outputMax, NextOutputSum(outputMin, outputMax, outputSum, ki, error), ki, error, n - 1)
  }

  /**
   * Along such a run the integral sum moves one way only: each further
   * update with a non-negative ki times error leaves it at least where it
   * was, and one with a non-positive ki times error at most where it was.
   */
  lemma {:induction false} IntegralSumMonotone(outputMin: real, outputMax: real, outputSum: real, ki: real, error: real, n: nat)
    requires outputMin <= outputMax && outputMin <= outputSum <= outputMax
    ensures ki * error >= 0.0 ==>
      IntegralSumAfter(outputMin, outputMax, outputSum, ki, error, n) <= IntegralSumAfter(outputMin, outputMax, outputSum, ki, error, n + 1)
    ensures ki * error <= 0.0 ==>
      IntegralSumAfter(outputMin, outputMax, outputSum, ki, error, n + 1) <= IntegralSumAfter(outputMin, outputMax, outputSum, ki, error, n)
    decreases n
  {
    if n > 0 {
      IntegralSumMonotone(outputMin, outputMax, NextOutputSum(outputMin, outputMax, outputSum, ki, error), ki, error, n - 1);
    }
  }

  /**
   * The output of one step of `update`: kp times the error plus the new
   * integral sum minus the derivative term, clamped to the output limits.
   */
  function StepOutput(outputMin: real, outputMax: real, kp: real, error: real, outputSum: real, derivative: real): (r: real)
    ensures outputMin <= outputMax ==> outputMin <= r <= outputMax
    ensures outputMin <= kp * error + (outputSum - derivative) <= outputMax ==> r == kp * error + (outputSum - derivative)
    ensures derivative == 0.0 ==> r == ApplyOutputLimits(outputMin, outputMax, kp * error + outputSum)
  {
    ApplyOutputLimits(outputMin, outputMax, kp * error + (outputSum - derivative))
  }

  /**
   * The derivative term of `update`, kd times the change of the input since
   * the previous step. The first step after a reset takes the input as its
   * own predecessor, so its derivative term is zero.
   */
  function DerivativeTerm(kd: real, lastInput: Option<real>, input: real): (r: real)
    ensures lastInput.None? ==> r == 0.0
    ensures lastInput.Some? ==> r == kd * (input - lastInput.value)
  {
    kd * (input - lastInput.GetOr(input))
  }

  /**
   * The sample time in seconds for a sample time in milliseconds. `setTunings`
   * rounds it with `roundToDecimals(s, 1000000)`, whose `pow(10, 1000000)`
   * does not fit an int; the model takes that rounding as the identity.
   */
  function SampleSeconds(sampleTime: int): (s: real)
    requires sampleTime > 0
    ensures s > 0.0
    ensures s * 1000.0 == sampleTime as real
  {
    sampleTime as real / 1000.0
  }

  class PIDController {
    const p: real
    const i: real
    const d: real

    var kp: real
    var ki: real
    var kd: real
    var outputMin: real
    var outputMax: real

    var output: real
    var outputSum: real
    var target: real
    var lastInput: Option<real>
    var sampleTime: int

    /** The gains follow from p, i, d and the sample time; no method changes them after construction. */
    ghost predicate TuningsValid()
      reads this`kp, this`ki, this`kd, this`sampleTime
    {
      sampleTime > 0 &&
      kp == p && ki == i * SampleSeconds(sampleTime) && kd == d / SampleSeconds(sampleTime)
    }

    /** The bounds are ordered and both the output and the integral sum lie within them. */
    ghost predicate Valid()
      reads this`outputMin, this`outputMax, this`output, this`outputSum
    {
      outputMin <= outputMax &&
      outputMin <= output <= outputMax &&
      outputMin <= outputSum <= outputMax
    }

    /**
     * The controller as its constructor leaves it. The C++ constructor reads `output`
     * before ever writing it, so the initial output is arbitrary and only
     * its clamped value is known; the limits must be ordered, or `setOutputLimits`
     * would leave them unset.
     */
    constructor (p: real, i: real, d: real, sampleTime: int, target: real, outputMin: real, outputMax: real)
      requires sampleTime > 0
      requires outputMin <= outputMax
      ensures Valid() && TuningsValid()
      ensures this.p == p && this.i == i && this.d == d && this.sampleTime == sampleTime
      ensures this.target == target
      ensures this.outputMin == outputMin && this.outputMax == outputMax
      ensures outputSum == ApplyOutputLimits(outputMin, outputMax, 0.0)
      ensures lastInput == None
    {
      this.p := p;
      this.i := i;
      this.d := d;
      outputSum := 0.0;
      this.sampleTime := sampleTime;
      new;
      SetTunings();
      SetOutputLimits(outputMin, outputMax);
      SetTarget(target);
    }

    /** `setTunings`: derives the internal gains from p, i, d and the sample time. */
    method SetTunings()
      requires sampleTime > 0
      modifies this`kp, this`ki, this`kd
      ensures TuningsValid()
      ensures kp == p
      ensures ki == i * (sampleTime as real / 1000.0)
      ensures kd == d / (sampleTime as real / 1000.0)
    {
      var sampleTimeSec := sampleTime as real / 1000.0;
      var sampleTimeSecRounded := sampleTimeSec;
      kp := p;
      ki := i * sampleTimeSecRounded;
      kd := d / sampleTimeSecRounded;
    }

    /**
     * `update`: one control step on the measurement `input`. The first step
     * after a reset takes `input` as its own previous value, so its
     * derivative term is zero. The integral sum is clamped before it enters
     * the output, and the output is clamped again.
     */
    method Update(input: real) returns (r: real)
      requires Valid()
      modifies this`outputSum, this`output, this`lastInput
      ensures Valid()
      ensures lastInput == Some(input)
      ensures outputSum == NextOutputSum(outputMin, outputMax, old(outputSum), ki, target - input)
      ensures output == StepOutput(outputMin, outputMax, kp, target - input, outputSum,
        DerivativeTerm(kd, old(lastInput), input))
      ensures r == output
    {
      // `update` first takes `input` as the previous input when there is none
      var derivative := DerivativeTerm(kd, lastInput, input);
      var error := target - input;
      outputSum := NextOutputSum(outputMin, outputMax, outputSum, ki, error);
      output := StepOutput(outputMin, outputMax, kp, error, outputSum, derivative);
      lastInput := Some(input);
      r := output;
    }

    /**
     * `setOutputLimits`: an inverted pair is ignored; otherwise both bounds
     * are taken and the output and the integral sum are re-clamped to them.
     */
    method SetOutputLimits(min: real, max: real)
      modifies this`outputMin, this`outputMax, this`output, this`outputSum
      ensures min > max ==>
        outputMin == old(outputMin) && outputMax == old(outputMax) &&
        output == old(output) && outputSum == old(outputSum)
      ensures min <= max ==>
        outputMin == min && outputMax == max &&
        output == ApplyOutputLimits(min, max, old(output)) &&
        outputSum == ApplyOutputLimits(min, max, old(outputSum))
      ensures min <= max ==> Valid()
      ensures old(Valid()) ==> Valid()
    {
      if min > max {
        return;
      }
      outputMin := min;
      outputMax := max;
      output := ApplyOutputLimits(outputMin, outputMax, output);
      outputSum := ApplyOutputLimits(outputMin, outputMax, outputSum);
    }

    /** `getOutputMin`. */
    method GetOutputMin() returns (r: real)
      ensures r == outputMin
    {
      r := outputMin;
    }

    /** `getOutputMax`. */
    method GetOutputMax() returns (r: real)
      ensures r == outputMax
    {
      r := outputMax;
    }

    /** `getTarget`. */
    method GetTarget() returns (r: real)
      ensures r == target
    {
      r := target;
    }

    /** `setTarget`: a new setpoint discards the integral history and the last measurement. */
    method SetTarget(t: real)
      modifies this`target, this`outputSum, this`lastInput
      ensures target == t
      ensures outputSum == ApplyOutputLimits(outputMin, outputMax, 0.0)
      ensures lastInput == None
      ensures old(Valid()) ==> Valid()
    {
      target := t;
      ResetState();
    }

    /** `resetState`: the integral sum restarts from the clamp of zero and the last measurement is forgotten. */
    method ResetState()
      modifies this`outputSum, this`lastInput
      ensures outputSum == ApplyOutputLimits(outputMin, outputMax, 0.0)
      ensures lastInput == None
      ensures old(Valid()) ==> Valid()
    {
      outputSum := ApplyOutputLimits(outputMin, outputMax, 0.0);
      lastInput := None;
    }
  }

  /**
   * A purely proportional controller (p = 1, i = d = 0) with target 70 and
   * limits of plus and minus 100 answers 10 to a measurement of 60.
   */
  method ProportionalStep() returns (r: real)
    ensures r == 10.0
  {
    var pid := new PIDController(1.0, 0.0, 0.0, 500, 70.0, -100.0, 100.0);
    r := pid.Update(60.0);
  }

  /**
   * After `setTarget`, the next `update` has no derivative term and no
   * history: it returns clamp(kp * error + clamp(clamp(0) + ki * error)).
   */
  method FirstUpdateAfterTarget(pid: PIDController, t: real, input: real) returns (r: real)
    requires pid.Valid()
    modifies pid
    ensures pid.Valid() && pid.target == t && pid.lastInput == Some(input)
    ensures r == ApplyOutputLimits(pid.outputMin, pid.outputMax,
      pid.kp * (pid.target - input)
      + ApplyOutputLimits(pid.outputMin, pid.outputMax,
          ApplyOutputLimits(pid.outputMin, pid.outputMax, 0.0) + pid.ki * (pid.target - input)))
  {
    pid.SetTarget(t);
    r := pid.Update(input);
  }
}
