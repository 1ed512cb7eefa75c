/** The temperature control loop: from the water and air temperatures it
    computes a clamped target air temperature, runs a PID loop on the air
    error to get the heater duty in [0, 100], and switches the patch heater
    on when the water is too far below the reference.

    Floats are modelled as reals. Two constants the code uses,
    `TEMPERATURE_REFERENCE_OFFSET` and `MAX_TARGET_AIR_TEMP`, have no
    definition in the repository's header, so they are fields fixed at
    construction. */
module TemperatureControl {
  import opened Mcu

  const KP_FAN: real := 20.0
  const KI_FAN: real := 0.0001
  const KD_FAN: real := 0.0
  const KP_AIR: real := 2.0
  const MILLIS_TO_SECONDS: real := 1000.0
  const DEFAULT_TEMP_REF: real := 37.0

  /** The heater duty a `uint8_t` field keeps: `constrain(control, 0, 100)`
      converted to an integer (truncation, which is the floor here since
      the clamped value is never negative). */
  function HeaterOutput(control: real): (r: nat)
    ensures r <= 100
    ensures control <= 0.0 ==> r == 0
    ensures control >= 100.0 ==> r == 100
    ensures 0.0 <= control <= 100.0 ==> r as real <= control < r as real + 1.0
  {
    Constrain(control, 0.0, 100.0).Floor
  }

  /** Target air temperature: a proportional term on the water deficit
      added to the reference, clamped to [0, maxTarget]. */
  function TargetAirTemp(tempRef: real, waterTemp: real, maxTarget: real): real
  {
    Constrain(KP_AIR * (tempRef - waterTemp) + tempRef, 0.0, maxTarget)
  }

  /** The PID sum `KP e + KI I + KD d` before clamping. */
  function HeaterControl(error: real, integral: real, derivative: real): real
  {
    KP_FAN * error + KI_FAN * integral + KD_FAN * derivative
  }

  /** The derivative gain is 0, so the derivative never reaches the heater. */
  lemma DerivativeUnused(error: real, integral: real, d1: real, d2: real)
    ensures HeaterControl(error, integral, d1) == HeaterControl(error, integral, d2)
            == 20.0 * error + 0.0001 * integral
  {
  }

  /** The integral after one step of `error` held for `dt` seconds. */
  function Integrate(integral: real, error: real, dt: real): real
  {
    integral + error * dt
  }

  /** The change of the error per second. */
  function Derivative(error: real, prevError: real, dt: real): real
    requires dt != 0.0
  {
    (error - prevError) / dt
  }

  datatype Controller = Controller(
    tempRef: real,
    integralError: real,
    prevError: real,
    prevTime: u32,
    pwmHeater: nat,
    patchState: bool,
    referenceOffset: real,
    maxTargetAirTemp: real)

  /** The constructor. `prevTime` is left uninitialised by the code, so the
      value it happens to hold is a parameter. */
  function InitialController(prevTime: u32, referenceOffset: real, maxTargetAirTemp: real): Controller
  {
    Controller(DEFAULT_TEMP_REF, 0.0, 0.0, prevTime, 0, false, referenceOffset, maxTargetAirTemp)
  }

  /** Seconds between the previous update and `now` (unsigned, wrapping). */
  function ElapsedSeconds(c: Controller, now: u32): real
  {
    Sub32(now, c.prevTime) as real / MILLIS_TO_SECONDS
  }

  /** `update(waterTemp, airTemp)` at millisecond `now`. The derivative
      divides by the elapsed time, so two updates in the same millisecond
      are outside what the code defines. */
  function UpdateStep(c: Controller, waterTemp: real, airTemp: real, now: u32): Controller
    requires now != c.prevTime
  {
    var target := TargetAirTemp(c.tempRef, waterTemp, c.maxTargetAirTemp);
    var dt := ElapsedSeconds(c, now);
    var error := target - airTemp;
    var derivative := Derivative(error, c.prevError, dt);
    var integral := Integrate(c.integralError, error, dt);
    c.(patchState := waterTemp < c.tempRef - c.referenceOffset,
       integralError := integral,
       prevError := error,
       prevTime := now,
       pwmHeater := HeaterOutput(HeaterControl(error, integral, derivative)))
  }

  /** `setReferenceTemperature(t)`. */
  function SetReferenceStep(c: Controller, tempRef: real): Controller
  {
    c.(tempRef := tempRef)
  }

  // ---------------------------------------------------------------------
  // Properties

  /** Two updates of the same millisecond are the only ones excluded: after
      the first update the next one must come at a different time. */
  lemma ElapsedPositive(c: Controller, now: u32)
    requires now != c.prevTime
    ensures ElapsedSeconds(c, now) > 0.0
  {
  }

  /** The patch heater is on exactly when the water is more than the offset
      below the reference, whatever it was before. */
  lemma PatchRecomputed(c: Controller, waterTemp: real, airTemp: real, now: u32)
    requires now != c.prevTime
    ensures UpdateStep(c, waterTemp, airTemp, now).patchState <==> waterTemp < c.tempRef - c.referenceOffset
    ensures UpdateStep(c.(patchState := !c.patchState), waterTemp, airTemp, now).patchState
            == UpdateStep(c, waterTemp, airTemp, now).patchState
  {
  }

  /** The target lies in [0, maxTarget], equals `2 (ref - water) + ref`
      when that is in range, and does not increase as the water warms up:
      one gain serves both signs of the error. */
  lemma TargetAirTempSpec(tempRef: real, w1: real, w2: real, maxTarget: real)
    requires maxTarget >= 0.0
    ensures 0.0 <= TargetAirTemp(tempRef, w1, maxTarget) <= maxTarget
    ensures 0.0 <= 2.0 * (tempRef - w1) + tempRef <= maxTarget ==>
              TargetAirTemp(tempRef, w1, maxTarget) == 2.0 * (tempRef - w1) + tempRef
    ensures w1 <= w2 ==> TargetAirTemp(tempRef, w2, maxTarget) <= TargetAirTemp(tempRef, w1, maxTarget)
    ensures w1 == tempRef && tempRef <= maxTarget && tempRef >= 0.0 ==> TargetAirTemp(tempRef, w1, maxTarget) == tempRef
  {
  }

  /** PID bookkeeping: the integral grows by `error * dt`, the error and the
      time are remembered, and the reference and constants stay put. */
  lemma PidBookkeeping(c: Controller, waterTemp: real, airTemp: real, now: u32)
    requires now != c.prevTime
    ensures var u := UpdateStep(c, waterTemp, airTemp, now);
      var error := TargetAirTemp(c.tempRef, waterTemp, c.maxTargetAirTemp) - airTemp;
      && u.integralError == c.integralError + error * ElapsedSeconds(c, now)
      && u.prevError == error
      && u.prevTime == now
      && u.tempRef == c.tempRef
      && u.referenceOffset == c.referenceOffset && u.maxTargetAirTemp == c.maxTargetAirTemp
  {
  }

  /** The heater duty is always in [0, 100]; with the derivative gain at 0
      it is the truncated clamp of `20 e + 0.0001 I`, `e` and `I` being the
      new error and integral. */
  lemma HeaterDuty(c: Controller, waterTemp: real, airTemp: real, now: u32)
    requires now != c.prevTime
    ensures var u := UpdateStep(c, waterTemp, airTemp, now);
      && 0 <= u.pwmHeater <= 100
      && u.pwmHeater == HeaterOutput(20.0 * u.prevError + 0.0001 * u.integralError)
  {
    var u := UpdateStep(c, waterTemp, airTemp, now);
    var error := TargetAirTemp(c.tempRef, waterTemp, c.maxTargetAirTemp) - airTemp;
    var dt := ElapsedSeconds(c, now);
    var integral := Integrate(c.integralError, error, dt);
    assert u.integralError == integral && u.prevError == error;
    DerivativeUnused(error, integral, Derivative(error, c.prevError, dt), 0.0);
  }

  /** When the air is at its target the integral holds its value. */
  lemma ZeroErrorHoldsIntegral(c: Controller, waterTemp: real, now: u32)
    requires now != c.prevTime
    ensures var target := TargetAirTemp(c.tempRef, waterTemp, c.maxTargetAirTemp);
      var u := UpdateStep(c, waterTemp, target, now);
      u.integralError == c.integralError && u.prevError == 0.0
  {
  }

  /** An air error of 5 degrees or more with a non-negative integral drives
      the heater to full power; a cold-enough air sample is never ignored. */
  lemma LargeErrorSaturates(c: Controller, waterTemp: real, airTemp: real, now: u32)
    requires now != c.prevTime && c.integralError >= 0.0
    requires TargetAirTemp(c.tempRef, waterTemp, c.maxTargetAirTemp) - airTemp >= 5.0
    ensures UpdateStep(c, waterTemp, airTemp, now).pwmHeater == 100
  {
    var error := TargetAirTemp(c.tempRef, waterTemp, c.maxTargetAirTemp) - airTemp;
    var integral := c.integralError + error * ElapsedSeconds(c, now);
    assert error * ElapsedSeconds(c, now) >= 0.0;
    assert 20.0 * error + 0.0001 * integral >= 100.0;
    DerivativeUnused(error, integral, (error - c.prevError) / ElapsedSeconds(c, now), 0.0);
  }

  /** Setting the reference changes nothing else. */
  lemma SetReferenceOnlyReference(c: Controller, t: real)
    ensures SetReferenceStep(c, t).tempRef == t
    ensures SetReferenceStep(c, t).(tempRef := c.tempRef) == c
  {
  }

  /** The constructor starts at 37 degrees with an empty integral, the
      heater off and the patch off. */
  lemma InitialState(p: u32, offset: real, maxTarget: real)
    ensures var c := InitialController(p, offset, maxTarget);
      c.tempRef == 37.0 && c.integralError == 0.0 && c.prevError == 0.0
      && c.pwmHeater == 0 && !c.patchState
  {
  }

  // ---------------------------------------------------------------------
  // The controller object

  class TemperatureController {
    var tempRef: real
    var integralError: real
    var prevError: real
    var prevTime: u32
    var pwmHeater: nat
    var patchState: bool
    const referenceOffset: real
    const maxTargetAirTemp: real

    function Model(): Controller
      reads this
    {
      Controller(tempRef, integralError, prevError, prevTime, pwmHeater, patchState,
                 referenceOffset, maxTargetAirTemp)
    }

    constructor (initialPrevTime: u32, offset: real, maxTarget: real)
      ensures Model() == InitialController(initialPrevTime, offset, maxTarget)
    {
      integralError := 0.0;
      prevError := 0.0;
      pwmHeater := 0;
      patchState := false;
      tempRef := DEFAULT_TEMP_REF;
      prevTime := initialPrevTime;
      referenceOffset := offset;
      maxTargetAirTemp := maxTarget;
    }

    /** `update(waterTemp, airTemp)` at millisecond `now`. */
    method Update(waterTemp: real, airTemp: real, now: u32)
      requires now != prevTime
      modifies this
      ensures Model() == UpdateStep(old(Model()), waterTemp, airTemp, now)
    {
      ghost var c := Model();
      patchState := waterTemp < tempRef - referenceOffset;
      var targetAirTemp := KP_AIR * (tempRef - waterTemp) + tempRef;
      targetAirTemp := Constrain(targetAirTemp, 0.0, maxTargetAirTemp);
      var dt := Sub32(now, prevTime) as real / MILLIS_TO_SECONDS;
      var error := targetAirTemp - airTemp;
      assert targetAirTemp == TargetAirTemp(c.tempRef, waterTemp, c.maxTargetAirTemp);
      assert dt == ElapsedSeconds(c, now);
      var derivative := Derivative(error, prevError, dt);
      integralError := Integrate(integralError, error, dt);
      prevError := error;
      prevTime := now;
      var heaterControl := HeaterControl(error, integralError, derivative);
      pwmHeater := HeaterOutput(heaterControl);
    }

    function GetHeaterPower(): (p: real)
      reads this
      ensures p == pwmHeater as real
    {
      pwmHeater as real
    }

    function IsPatchHeatingNeeded(): bool
      reads this
    {
      patchState
    }

    method SetReferenceTemperature(t: real)
      modifies this
      ensures Model() == SetReferenceStep(old(Model()), t)
    {
      tempRef := t;
    }
  }
}
