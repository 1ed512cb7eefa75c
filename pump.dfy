/** The DC peristaltic pump on a two-input H-bridge driver: the signed
    speed in [-255, 255] becomes a PWM duty on one of the two inputs while
    the other is held at 0.

    `analogWrite` is the only effect, so an operation is the ordered list
    of (pin, duty) writes it issues. */
module DcPump {

  datatype PwmWrite = PwmWrite(pin: nat, duty: int)

  /** `Pump(pin1, pin2)`: the two driver inputs; there is no other state. */
  datatype Pump = Pump(pin1: nat, pin2: nat)

  const MAX_DUTY: int := 255

  /** `constrain(speed, -255, 255)` on an `int`. */
  function ClampSpeed(speed: int): (r: int)
    ensures -MAX_DUTY <= r <= MAX_DUTY
    ensures -MAX_DUTY <= speed <= MAX_DUTY ==> r == speed
    ensures speed < -MAX_DUTY ==> r == -MAX_DUTY
    ensures speed > MAX_DUTY ==> r == MAX_DUTY
  {
    if speed < -MAX_DUTY then -MAX_DUTY else if speed > MAX_DUTY then MAX_DUTY else speed
  }

  /** `stop()`: both inputs to 0, first pin first. */
  function Stop(p: Pump): seq<PwmWrite>
  {
    [PwmWrite(p.pin1, 0), PwmWrite(p.pin2, 0)]
  }

  /** `setSpeed(speed)`: forward on the first input, reverse on the second,
      and `stop()` for zero. */
  function SetSpeed(p: Pump, speed: int): seq<PwmWrite>
  {
    var s := ClampSpeed(speed);
    if s > 0 then [PwmWrite(p.pin1, s), PwmWrite(p.pin2, 0)]
    else if s < 0 then [PwmWrite(p.pin1, 0), PwmWrite(p.pin2, -s)]
    else Stop(p)
  }

  /** The signed speed a pair of writes drives: first duty minus second. */
  function DrivenSpeed(w: seq<PwmWrite>): int
    requires |w| == 2
  {
    w[0].duty - w[1].duty
  }

  // ---------------------------------------------------------------------
  // Properties

  /** Every `setSpeed` writes the first input, then the second; both duties
      lie in [0, 255] and at most one of them is nonzero. */
  lemma SetSpeedOutputs(p: Pump, speed: int)
    ensures var w := SetSpeed(p, speed);
      && |w| == 2 && w[0].pin == p.pin1 && w[1].pin == p.pin2
      && 0 <= w[0].duty <= MAX_DUTY && 0 <= w[1].duty <= MAX_DUTY
      && (w[0].duty == 0 || w[1].duty == 0)
  {
  }

  /** The driven speed is the clamped request: the writes decode back to
      the speed itself whenever it lies within [-255, 255]. */
  lemma SetSpeedRoundTrip(p: Pump, speed: int)
    ensures DrivenSpeed(SetSpeed(p, speed)) == ClampSpeed(speed)
    ensures -MAX_DUTY <= speed <= MAX_DUTY ==> DrivenSpeed(SetSpeed(p, speed)) == speed
  {
  }

  /** Which input is driven: the first exactly for a positive speed, the
      second exactly for a negative one, neither for zero, where
      `setSpeed` is `stop`. */
  lemma SetSpeedDirection(p: Pump, speed: int)
    ensures SetSpeed(p, speed)[0].duty > 0 <==> speed > 0
    ensures SetSpeed(p, speed)[1].duty > 0 <==> speed < 0
    ensures speed == 0 <==> SetSpeed(p, speed) == Stop(p)
  {
  }

  /** Past the limits the pump runs at full duty in that direction. */
  lemma SaturatesAtFullDuty(p: Pump, s1: int, s2: int)
    requires s1 >= MAX_DUTY && s2 >= MAX_DUTY
    ensures SetSpeed(p, s1) == SetSpeed(p, s2) == [PwmWrite(p.pin1, MAX_DUTY), PwmWrite(p.pin2, 0)]
    ensures SetSpeed(p, -s1) == SetSpeed(p, -s2) == [PwmWrite(p.pin1, 0), PwmWrite(p.pin2, MAX_DUTY)]
  {
  }
}
