/** The gas controller of the pressure chamber: from the measured O2 (%)
    and CO2 (ppm) concentrations and the chamber pressure (Pa) it computes
    how long the O2, CO2 and air valves stay open, as deadlines on the
    millisecond clock, and reports which valves are open at a given time.

    Floats are modelled as reals (no rounding); the opening time of a valve
    is the gas volume to add divided by a Poiseuille flow rate. */
module PressureChamber {
  import opened Mcu

  /** `eValves`: O2 = 0, CO2, AIR, SAFETY, then the count MAX_VALVES. */
  datatype Valve = ValveO2 | ValveCo2 | ValveAir | ValveSafety | ValveMax

  /** Arduino's `PI`. */
  const PI: real := 3.1415926535897932384626433832795

  // Poiseuille flow through the supply tube.
  const R: real := 0.0043
  const L: real := 2.0
  const MU_AIR: real := 0.000018
  const MU_O2: real := 0.00002
  const MU_CO2: real := 0.000015
  const P_APPROV: real := 30.0 * 6895.0
  const P_CHAMBER: real := 25.0 * 6895.0
  const P_CHAMBER_MIN: real := P_CHAMBER - 2.0 * 6895.0
  /** Volume of the chamber in litres. */
  const V: real := 1.296

  const O2_REF: real := 85.0
  const CO2_REF: real := 50000.0
  const CO2_DEAD_ZONE: real := 100.0
  const O2_DEAD_ZONE: real := 0.1
  const PERCENT_TO_LITERS: real := 0.01 * V
  const PPM_TO_LITERS: real := 0.000001 * V
  const SECONDS_TO_MILLIS: real := 1000.0
  const AIR_VALVE_OPEN_TIME: real := 1000.0
  const CORRECTION_FACTOR_O2: real := 0.5
  const CORRECTION_FACTOR_O2_REDUCTION: real := 40.0
  const CORRECTION_FACTOR_CO2: real := 1.0
  const CORRECTION_FACTOR_CO2_REDUCTION: real := 30.0
  const CORRECTION_FACTOR_O2_SMALL: real := CORRECTION_FACTOR_O2 * 3.0
  const CORRECTION_FACTOR_CO2_SMALL: real := CORRECTION_FACTOR_CO2 * 4.0
  const SMALL_O2_ERROR_THRESHOLD: real := 10.0
  const SMALL_CO2_ERROR_THRESHOLD: real := 15000.0

  /** What a C float division `x / 0` with `x > 0` (+infinity) becomes once
      cast to `unsigned long` in this model: any value of at least 2^32
      saturates to 2^32 - 1. */
  const DIVISION_BY_ZERO_TIME: real := TWO_32 as real

  /** The flow rate of a gas in litres per second (Poiseuille's law):
      `PI r^4 / (8 mu L) * (P_APPROV - P_CHAMBER)`. */
  function FlowRate(mu: real): real
    requires mu > 0.0
  {
    (PI * (R * R * R * R)) / (8.0 * mu * L) * (P_APPROV - P_CHAMBER)
  }

  /** The supply pressure is above the chamber pressure, so every gas
      flows into the chamber; the floor is 2 psi below the set point, and
      the small-error factors are 3 and 4 times the base ones. */
  lemma ControllerConstants()
    ensures P_APPROV > P_CHAMBER && P_CHAMBER_MIN == P_CHAMBER - 2.0 * 6895.0
    ensures FlowRate(MU_O2) > 0.0 && FlowRate(MU_CO2) > 0.0 && FlowRate(MU_AIR) > 0.0
    ensures CORRECTION_FACTOR_O2_SMALL == 1.5 && CORRECTION_FACTOR_CO2_SMALL == 4.0
  {
  }

  /** `calculateTimeBeforeClosingValve(valve, error)` in milliseconds:
      volume to add over flow rate; 0 for SAFETY and MAX_VALVES. */
  function TimeBeforeClosing(valve: Valve, error: real): real
  {
    match valve
    case ValveO2 => error * PERCENT_TO_LITERS / FlowRate(MU_O2) * SECONDS_TO_MILLIS
    case ValveCo2 => error * PPM_TO_LITERS / FlowRate(MU_CO2) * SECONDS_TO_MILLIS
    case ValveAir => error * PERCENT_TO_LITERS / FlowRate(MU_AIR) * SECONDS_TO_MILLIS
    case _ => 0.0
  }

  /** The time is proportional to the error with a positive gain for the
      three gases: 0 at error 0 and strictly increasing; it is always 0 for
      the safety valve. */
  lemma TimeBeforeClosingMonotone(valve: Valve, e1: real, e2: real)
    ensures valve == ValveSafety || valve == ValveMax ==> TimeBeforeClosing(valve, e1) == 0.0
    ensures valve != ValveSafety && valve != ValveMax ==>
      && TimeBeforeClosing(valve, 0.0) == 0.0
      && (e1 < e2 ==> TimeBeforeClosing(valve, e1) < TimeBeforeClosing(valve, e2))
  {
    var g := TimeBeforeClosing(valve, 1.0);
    assert valve != ValveSafety && valve != ValveMax ==> g > 0.0;
    assert TimeBeforeClosing(valve, e1) == e1 * g;
    assert TimeBeforeClosing(valve, e2) == e2 * g;
    if valve != ValveSafety && valve != ValveMax && e1 < e2 {
      assert (e2 - e1) * g > 0.0;
    }
  }

  // ---------------------------------------------------------------------
  // The controller state and one update

  datatype Chamber = Chamber(
    enabled: bool,
    o2Deadline: u32,
    co2Deadline: u32,
    airDeadline: u32,
    o2Ref: real,
    o2MinRef: real,
    o2MaxRef: real,
    co2Ref: real,
    co2MinRef: real,
    co2MaxRef: real)

  /** The constructor: default references with their dead zones, chamber
      disabled, all deadlines 0. */
  function InitialChamber(): Chamber
  {
    Chamber(false, 0, 0, 0, O2_REF, O2_REF - O2_DEAD_ZONE, O2_REF + O2_DEAD_ZONE,
            CO2_REF, CO2_REF - CO2_DEAD_ZONE, CO2_REF + CO2_DEAD_ZONE)
  }

  /** The opening times (ms) one update computes for the three valves. */
  datatype Durations = Durations(o2: real, co2: real, air: real)

  /** The air time that reduces a gas in excess: `error / concentration`
      (the relative excess) through the air valve, times a factor. */
  function AirCandidate(error: real, concentration: real, factor: real): real
  {
    if concentration == 0.0 then DIVISION_BY_ZERO_TIME
    else TimeBeforeClosing(ValveAir, error / concentration) * factor
  }

  /** The O2 time for a deficit of `deficit` percent points. */
  function O2Time(deficit: real): real
  {
    var factor := if deficit < SMALL_O2_ERROR_THRESHOLD then CORRECTION_FACTOR_O2_SMALL else CORRECTION_FACTOR_O2;
    TimeBeforeClosing(ValveO2, deficit) * factor
  }

  /** The CO2 time for a deficit of `deficit` ppm. */
  function Co2Time(deficit: real): real
  {
    var factor := if deficit < SMALL_CO2_ERROR_THRESHOLD then CORRECTION_FACTOR_CO2_SMALL else CORRECTION_FACTOR_CO2;
    TimeBeforeClosing(ValveCo2, deficit) * factor
  }

  /** The three branches of `update()` (O2, CO2, pressure) computing the
      valve times; the pressure branch adds `millis()` to the air time. */
  function ValveTimes(c: Chamber, o2: real, co2: real, pressure: real, now: u32): Durations
  {
    var o2Error := o2 - c.o2Ref;
    var co2Error := co2 - c.co2Ref;
    var airFromO2 := if o2Error > 0.0 then AirCandidate(o2Error, o2, CORRECTION_FACTOR_O2_REDUCTION) else 0.0;
    var o2Time := if o2Error < 0.0 then O2Time(-o2Error) else 0.0;
    var airWithCo2 := if co2Error > 0.0
                      then MaxReal(airFromO2, AirCandidate(co2Error, co2, CORRECTION_FACTOR_CO2_REDUCTION))
                      else airFromO2;
    var co2Time := if co2Error < 0.0 then Co2Time(-co2Error) else 0.0;
    var air := if pressure < P_CHAMBER_MIN
               then MaxReal(airWithCo2, now as real + AIR_VALVE_OPEN_TIME)
               else airWithCo2;
    Durations(o2Time, co2Time, air)
  }

  /** `update(o2, co2, pressure)` at millisecond `now`. */
  function UpdateStep(c: Chamber, o2: real, co2: real, pressure: real, now: u32): Chamber
  {
    if !c.enabled then c
    else
      var d := ValveTimes(c, o2, co2, pressure, now);
      c.(o2Deadline := Add32(now, CastToU32(d.o2)),
         co2Deadline := Add32(now, CastToU32(d.co2)),
         airDeadline := Add32(now, CastToU32(d.air)))
  }

  /** `getValveState(valve)` at millisecond `now`; `co2SensorReady` is
      whether the CO2 sensor reports OK or INITIALIZED. */
  function ValveOpen(c: Chamber, valve: Valve, now: u32, co2SensorReady: bool): bool
  {
    if !c.enabled then false
    else
      match valve
      case ValveO2 => c.o2Deadline > now
      case ValveCo2 => c.co2Deadline > now && co2SensorReady
      case ValveAir => c.airDeadline > now
      case _ => false
  }

  /** `setReferenceLevel(valve, level)`: only O2 and CO2 have references. */
  function SetReferenceStep(c: Chamber, valve: Valve, level: real): Chamber
  {
    match valve
    case ValveO2 => c.(o2Ref := level, o2MinRef := level - O2_DEAD_ZONE, o2MaxRef := level + O2_DEAD_ZONE)
    case ValveCo2 => c.(co2Ref := level, co2MinRef := level - CO2_DEAD_ZONE, co2MaxRef := level + CO2_DEAD_ZONE)
    case _ => c
  }

  // ---------------------------------------------------------------------
  // Properties

  /** A disabled chamber ignores updates and reports every valve closed. */
  lemma DisabledChangesNothing(c: Chamber, o2: real, co2: real, pressure: real, now: u32, valve: Valve, ready: bool)
    requires !c.enabled
    ensures UpdateStep(c, o2, co2, pressure, now) == c
    ensures !ValveOpen(c, valve, now, ready)
  {
  }

  /** O2 above its reference asks only for air (40 times the air time of
      the relative excess), O2 below it only for O2 (factor 1.5 under a
      10-point deficit, 0.5 from there on), O2 at the reference for neither. */
  lemma O2Branches(c: Chamber, o2: real, co2: real, pressure: real, now: u32)
    ensures var d := ValveTimes(c, o2, co2, pressure, now);
      var err := o2 - c.o2Ref;
      && (err >= 0.0 ==> d.o2 == 0.0)
      && (err < 0.0 && -err < 10.0 ==> d.o2 == TimeBeforeClosing(ValveO2, -err) * 1.5)
      && (err < 0.0 && -err >= 10.0 ==> d.o2 == TimeBeforeClosing(ValveO2, -err) * 0.5)
      && (err > 0.0 && o2 != 0.0 ==> d.air >= TimeBeforeClosing(ValveAir, err / o2) * 40.0)
  {
  }

  /** CO2 follows the same structure: above its reference only air (factor
      30), below it only CO2 (factor 4 under a 15000 ppm deficit, 1 from
      there on), at the reference neither. */
  lemma Co2Branches(c: Chamber, o2: real, co2: real, pressure: real, now: u32)
    ensures var d := ValveTimes(c, o2, co2, pressure, now);
      var err := co2 - c.co2Ref;
      && (err >= 0.0 ==> d.co2 == 0.0)
      && (err < 0.0 && -err < 15000.0 ==> d.co2 == TimeBeforeClosing(ValveCo2, -err) * 4.0)
      && (err < 0.0 && -err >= 15000.0 ==> d.co2 == TimeBeforeClosing(ValveCo2, -err) * 1.0)
      && (err > 0.0 && co2 != 0.0 ==> d.air >= TimeBeforeClosing(ValveAir, err / co2) * 30.0)
  {
  }

  /** The air time is the largest of its active candidates (O2 excess, CO2
      excess, low pressure), and 0 when none is active. */
  lemma AirIsMaxOfCandidates(c: Chamber, o2: real, co2: real, pressure: real, now: u32)
    ensures var d := ValveTimes(c, o2, co2, pressure, now);
      var fromO2 := if o2 - c.o2Ref > 0.0 then AirCandidate(o2 - c.o2Ref, o2, 40.0) else 0.0;
      var fromCo2 := if co2 - c.co2Ref > 0.0 then AirCandidate(co2 - c.co2Ref, co2, 30.0) else 0.0;
      var fromPressure := if pressure < P_CHAMBER_MIN then now as real + 1000.0 else 0.0;
      && d.air >= fromO2
      && (co2 - c.co2Ref > 0.0 ==> d.air >= fromCo2)
      && (pressure < P_CHAMBER_MIN ==> d.air >= fromPressure)
      && (d.air == fromO2 || d.air == fromCo2 || d.air == fromPressure)
  {
  }

  /** An enabled update overwrites all three deadlines from `now` and the
      new times alone: the earlier deadlines play no part. */
  lemma DeadlinesOverwritten(c: Chamber, o2: real, co2: real, pressure: real, now: u32, a: u32, b: u32, d: u32)
    requires c.enabled
    ensures var c' := c.(o2Deadline := a, co2Deadline := b, airDeadline := d);
      UpdateStep(c', o2, co2, pressure, now) == UpdateStep(c, o2, co2, pressure, now)
  {
  }

  /** `update` never reads the min/max references set beside each reference. */
  lemma MinMaxNeverRead(c: Chamber, o2: real, co2: real, pressure: real, now: u32, lo1: real, hi1: real, lo2: real, hi2: real)
    ensures var c' := c.(o2MinRef := lo1, o2MaxRef := hi1, co2MinRef := lo2, co2MaxRef := hi2);
      UpdateStep(c', o2, co2, pressure, now) == UpdateStep(c, o2, co2, pressure, now).(o2MinRef := lo1, o2MaxRef := hi1, co2MinRef := lo2, co2MaxRef := hi2)
  {
  }

  /** With both gases at their references and the pressure above the floor,
      every deadline is `now`, so every valve reads closed at that instant
      (the test is a strict `>`). */
  lemma BalancedChamberAllClosed(c: Chamber, pressure: real, now: u32, valve: Valve, ready: bool)
    requires c.enabled && pressure >= P_CHAMBER_MIN
    ensures var u := UpdateStep(c, c.o2Ref, c.co2Ref, pressure, now);
      && u.o2Deadline == now && u.co2Deadline == now && u.airDeadline == now
      && !ValveOpen(u, valve, now, ready)
  {
  }

  /** Below the pressure floor with both gases balanced the air deadline is
      `now + (now + 1000)`: the clock is added twice. */
  lemma PressureFloorAddsClockTwice(c: Chamber, pressure: real, now: u32)
    requires c.enabled && pressure < P_CHAMBER_MIN && now + 1000 < TWO_32
    ensures UpdateStep(c, c.o2Ref, c.co2Ref, pressure, now).airDeadline == Add32(now, now + 1000)
  {
    var d := ValveTimes(c, c.o2Ref, c.co2Ref, pressure, now);
    assert d.air == now as real + AIR_VALVE_OPEN_TIME;
    assert CastToU32(d.air) == now + 1000;
  }

  /** O2 and AIR are open exactly while their deadline is ahead of the
      clock, CO2 also needs a ready sensor, SAFETY is never open. */
  lemma ValveOpenSpec(c: Chamber, now: u32, ready: bool)
    requires c.enabled
    ensures ValveOpen(c, ValveO2, now, ready) <==> c.o2Deadline > now
    ensures ValveOpen(c, ValveCo2, now, ready) <==> c.co2Deadline > now && ready
    ensures ValveOpen(c, ValveAir, now, ready) <==> c.airDeadline > now
    ensures !ValveOpen(c, ValveSafety, now, ready) && !ValveOpen(c, ValveMax, now, ready)
  {
  }

  /** Setting a reference moves its dead-zone bounds with it and touches
      nothing else; AIR and SAFETY have none and are ignored. */
  lemma SetReferenceSpec(c: Chamber, valve: Valve, level: real)
    ensures var u := SetReferenceStep(c, valve, level);
      && (valve == ValveO2 ==> u == c.(o2Ref := level, o2MinRef := level - 0.1, o2MaxRef := level + 0.1))
      && (valve == ValveCo2 ==> u == c.(co2Ref := level, co2MinRef := level - 100.0, co2MaxRef := level + 100.0))
      && (valve != ValveO2 && valve != ValveCo2 ==> u == c)
  {
  }

  /** The initial references are 85 % O2 and 50000 ppm CO2 with their dead zones. */
  lemma InitialReferences()
    ensures var c := InitialChamber();
      && !c.enabled && c.o2Ref == 85.0 && c.co2Ref == 50000.0
      && c.o2MinRef == 84.9 && c.o2MaxRef == 85.1
      && c.co2MinRef == 49900.0 && c.co2MaxRef == 50100.0
  {
  }

  // ---------------------------------------------------------------------
  // The controller object

  class PressureChamberController {
    var enabled: bool
    var o2Deadline: u32
    var co2Deadline: u32
    var airDeadline: u32
    var o2Ref: real
    var o2MinRef: real
    var o2MaxRef: real
    var co2Ref: real
    var co2MinRef: real
    var co2MaxRef: real

    function Model(): Chamber
      reads this
    {
      Chamber(enabled, o2Deadline, co2Deadline, airDeadline,
              o2Ref, o2MinRef, o2MaxRef, co2Ref, co2MinRef, co2MaxRef)
    }

    constructor ()
      ensures Model() == InitialChamber()
    {
      co2MinRef, co2MaxRef, co2Ref := CO2_REF - CO2_DEAD_ZONE, CO2_REF + CO2_DEAD_ZONE, CO2_REF;
      o2MinRef, o2MaxRef, o2Ref := O2_REF - O2_DEAD_ZONE, O2_REF + O2_DEAD_ZONE, O2_REF;
      enabled := false;
      o2Deadline, co2Deadline, airDeadline := 0, 0, 0;
    }

    method SetPressureChamberState(state: bool)
      modifies this
      ensures Model() == old(Model()).(enabled := state)
    {
      enabled := state;
    }

    /** `update(o2, co2, pressure)` at millisecond `now`. */
    method Update(o2: real, co2: real, pressure: real, now: u32)
      modifies this
      ensures Model() == UpdateStep(old(Model()), o2, co2, pressure, now)
    {
      if !enabled {
        return;
      }
      var o2ValveTime := 0.0;
      var co2ValveTime := 0.0;
      var airValveTime := 0.0;
      var o2Error := o2 - o2Ref;
      var co2Error := co2 - co2Ref;
      if o2Error > 0.0 {
        airValveTime := AirCandidate(o2Error, o2, CORRECTION_FACTOR_O2_REDUCTION);
      } else if o2Error < 0.0 {
        o2ValveTime := O2Time(-o2Error);
      }
      if co2Error > 0.0 {
        var airFromCo2 := AirCandidate(co2Error, co2, CORRECTION_FACTOR_CO2_REDUCTION);
        airValveTime := MaxReal(airValveTime, airFromCo2);
      } else if co2Error < 0.0 {
        co2ValveTime := Co2Time(-co2Error);
      }
      ghost var d := ValveTimes(Model(), o2, co2, pressure, now);
      assert o2ValveTime == d.o2 && co2ValveTime == d.co2;
      if pressure < P_CHAMBER_MIN {
        var airFromPressure := now as real + AIR_VALVE_OPEN_TIME;
        airValveTime := MaxReal(airValveTime, airFromPressure);
      }
      assert airValveTime == d.air;
      o2Deadline := Add32(now, CastToU32(o2ValveTime));
      co2Deadline := Add32(now, CastToU32(co2ValveTime));
      airDeadline := Add32(now, CastToU32(airValveTime));
    }

    function GetValveState(valve: Valve, now: u32, co2SensorReady: bool): bool
      reads this
    {
      ValveOpen(Model(), valve, now, co2SensorReady)
    }

    method SetReferenceLevel(valve: Valve, level: real)
      modifies this
      ensures Model() == SetReferenceStep(old(Model()), valve, level)
    {
      match valve
      case ValveO2 =>
        o2Ref := level;
        o2MinRef := level - O2_DEAD_ZONE;
        o2MaxRef := level + O2_DEAD_ZONE;
      case ValveCo2 =>
        co2Ref := level;
        co2MinRef := level - CO2_DEAD_ZONE;
        co2MaxRef := level + CO2_DEAD_ZONE;
      case _ =>
    }
  }
}
