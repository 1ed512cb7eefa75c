/** The orchestrator's glue: the process phase and its persistence, the
    setpoints reloaded at boot, the mapping of fans and valves onto eFuse
    channels of the I/O expander, the four stepper pumps on their two
    drivers, and the interval gating of the periodic tasks.

    The millisecond clock is the parameter `now` of each call (one reading
    per call), sensor readings are parameters, and the Preferences store is
    a map from key to stored value. */
module Bioreactor {
  import opened Mcu
  import opened IoExpander
  import TemperatureControl
  import PressureChamber
  import Tmc5041
  import Stepper

  // ---------------------------------------------------------------------
  // Phases

  /** `eBioreactorState`, in the order its codes are taken here. */
  datatype Phase =
    | Idle | Approv | Prepare | Run | GrowthLiquidReturn
    | CleaningLiquidApprov | CleaningCirculation | CleaningReturn
    | RinsingLiquidApprov | RinsingCirculation | RinsingReturn
    | ReduceOverflow | Sampling | Test | OpenValves

  /** `MAX_STATE`: the number of phases. */
  const MAX_STATE: nat := 15

  function PhaseCode(p: Phase): (code: nat)
    ensures code < MAX_STATE
  {
    match p
    case Idle => 0
    case Approv => 1
    case Prepare => 2
    case Run => 3
    case GrowthLiquidReturn => 4
    case CleaningLiquidApprov => 5
    case CleaningCirculation => 6
    case CleaningReturn => 7
    case RinsingLiquidApprov => 8
    case RinsingCirculation => 9
    case RinsingReturn => 10
    case ReduceOverflow => 11
    case Sampling => 12
    case Test => 13
    case OpenValves => 14
  }

  /** The phase a code in range names. */
  function PhaseOf(code: int): (p: Option<Phase>)
    ensures p.Some? <==> 0 <= code < MAX_STATE
  {
    if code == 0 then Some(Idle) else if code == 1 then Some(Approv)
    else if code == 2 then Some(Prepare) else if code == 3 then Some(Run)
    else if code == 4 then Some(GrowthLiquidReturn) else if code == 5 then Some(CleaningLiquidApprov)
    else if code == 6 then Some(CleaningCirculation) else if code == 7 then Some(CleaningReturn)
    else if code == 8 then Some(RinsingLiquidApprov) else if code == 9 then Some(RinsingCirculation)
    else if code == 10 then Some(RinsingReturn) else if code == 11 then Some(ReduceOverflow)
    else if code == 12 then Some(Sampling) else if code == 13 then Some(Test)
    else if code == 14 then Some(OpenValves) else None
  }

  /** Codes and phases are in one-to-one correspondence. */
  lemma PhaseCodeRoundTrip(p: Phase, code: int)
    ensures PhaseOf(PhaseCode(p)) == Some(p)
    ensures 0 <= code < MAX_STATE ==> PhaseCode(PhaseOf(code).value) == code
  {
  }

  // ---------------------------------------------------------------------
  // The Preferences store

  /** A stored value: `putFloat` or `putShort`. */
  datatype Pref = PrefFloat(f: real) | PrefShort(s: int)

  type Store = map<string, Pref>

  /** `getFloat(key, default)`: the stored float, or the default when the
      key is absent or holds another type. */
  function GetFloat(store: Store, key: string, default: real): (r: real)
    ensures key in store && store[key].PrefFloat? ==> r == store[key].f
    ensures !(key in store && store[key].PrefFloat?) ==> r == default
  {
    if key in store && store[key].PrefFloat? then store[key].f else default
  }

  /** `getShort(key, default)`, in the same way. */
  function GetShort(store: Store, key: string, default: int): (r: int)
    ensures key in store && store[key].PrefShort? ==> r == store[key].s
    ensures !(key in store && store[key].PrefShort?) ==> r == default
  {
    if key in store && store[key].PrefShort? then store[key].s else default
  }

  const DEFAULT_TEMPERATURE: real := 37.0
  const DEFAULT_PH: real := 7.0
  const DEFAULT_DO: real := 100.0
  const DEFAULT_CO2: real := 50000.0
  const DEFAULT_O2: real := 85.0

  /** What `beginBioreactorPreferences` loads: temperature, CO2 and O2
      references and the phase code, which is used without a range check. */
  datatype Loaded = Loaded(temperature: real, co2: real, o2: real, state: int)

  function LoadPreferences(store: Store): Loaded
  {
    Loaded(GetFloat(store, "temperature", DEFAULT_TEMPERATURE),
           GetFloat(store, "CO2", DEFAULT_CO2),
           GetFloat(store, "O2", DEFAULT_O2),
           GetShort(store, "state", PhaseCode(Idle)))
  }

  /** An empty store gives the documented defaults: 37 degrees, 50000 ppm
      CO2, 85 % O2 and the IDLE phase. */
  lemma LoadDefaults()
    ensures LoadPreferences(map[]) == Loaded(37.0, 50000.0, 85.0, 0)
  {
  }

  /** The loaded phase code is not range-checked: a stored short that names
      no phase becomes the current phase code as it is. */
  lemma LoadedStateUnchecked(store: Store, code: int)
    requires store == map["state" := PrefShort(code)]
    ensures LoadPreferences(store).state == code
    ensures code >= MAX_STATE ==> PhaseOf(LoadPreferences(store).state).None?
  {
  }

  /** What `setBioreactorState` persists is what the next boot reloads. */
  lemma PersistedPhaseReloads(store: Store, p: Phase)
    ensures LoadPreferences(store["state" := PrefShort(PhaseCode(p))]).state == PhaseCode(p)
    ensures PhaseOf(LoadPreferences(store["state" := PrefShort(PhaseCode(p))]).state) == Some(p)
  {
    PhaseCodeRoundTrip(p, 0);
  }

  // ---------------------------------------------------------------------
  // eFuse channels

  const EFUSE_VALVE_SUPPLY_INDEX: Channel := 0
  const EFUSE_VALVE_CIRCULATION_INDEX: Channel := 1
  const EFUSE_VALVE_RETURN_INDEX: Channel := 2
  const EFUSE_VALVE_O2_INDEX: Channel := 3
  const EFUSE_VALVE_CO2_INDEX: Channel := 4
  const EFUSE_VALVE_AIR_INDEX: Channel := 5
  const EFUSE_FAN_CIRCULATION_INDEX: Channel := 6
  const EFUSE_FAN_PCB_INDEX: Channel := 7
  const EFUSE_FAN_HEATER_INDEX: Channel := 8
  const EFUSE_FAN_RIGHT_INDEX: Channel := 16
  const EFUSE_FAN_LEFT_INDEX: Channel := 17
  const EFUSE_FAN_LOW_VOLT_INDEX: Channel := 18
  const EFUSE_FAN_HIGH_VOLT_INDEX: Channel := 19

  /** One `setEfuse(channel, state)` call. */
  datatype EfuseWrite = EfuseWrite(channel: Channel, on: bool)

  /** The mirror after a series of `setEfuse` calls, in order. */
  function ApplyEfuses(m: seq<byte>, ws: seq<EfuseWrite>): (r: seq<byte>)
    requires |m| == IOE_PORT_BYTES
    ensures |r| == IOE_PORT_BYTES
    decreases |ws|
  {
    if |ws| == 0 then m
    else SetEfuseStep(ApplyEfuses(m, ws[..|ws| - 1]), ws[|ws| - 1].channel, ws[|ws| - 1].on)
  }

  /** The transmissions of that series: one full mirror per call on a
      channel below 24. */
  function EfuseLog(m: seq<byte>, ws: seq<EfuseWrite>): seq<I2cWrite>
    requires |m| == IOE_PORT_BYTES
    decreases |ws|
  {
    if |ws| == 0 then []
    else EfuseLog(m, ws[..|ws| - 1])
         + (if ws[|ws| - 1].channel < OUTPUT_COUNT then [I2cWrite(IOE_REG_OUTPUT, ApplyEfuses(m, ws))] else [])
  }

  /** The last state written to channel `d` in the series, if any. */
  function LastWrite(ws: seq<EfuseWrite>, d: nat): Option<bool>
    decreases |ws|
  {
    if |ws| == 0 then None
    else if ws[|ws| - 1].channel == d then Some(ws[|ws| - 1].on)
    else LastWrite(ws[..|ws| - 1], d)
  }

  /** After a series of calls, channel `d` reads the last state written to
      it, or what it read before when the series never names it. */
  lemma {:induction false} ApplyEfusesChannel(m: seq<byte>, ws: seq<EfuseWrite>, d: nat)
    requires |m| == IOE_PORT_BYTES && d < OUTPUT_COUNT
    ensures ChannelOn(ApplyEfuses(m, ws), d) ==
              (match LastWrite(ws, d) case Some(s) => s case None => ChannelOn(m, d))
    decreases |ws|
  {
    if |ws| > 0 {
      var prefix, last := ws[..|ws| - 1], ws[|ws| - 1];
      ApplyEfusesChannel(m, prefix, d);
      var before := ApplyEfuses(m, prefix);
      if last.channel < OUTPUT_COUNT {
        SetEfuseExact(before, last.channel, last.on, d);
      } else {
        OutOfRangeIgnored(before, last.channel, last.on);
      }
    }
  }

  /** The mirror after the first k calls of the series. */
  function Prefix(m: seq<byte>, ws: seq<EfuseWrite>, k: nat): (r: seq<byte>)
    requires |m| == IOE_PORT_BYTES && k <= |ws|
    ensures |r| == IOE_PORT_BYTES
  {
    ApplyEfuses(m, ws[..k])
  }

  function PrefixLog(m: seq<byte>, ws: seq<EfuseWrite>, k: nat): seq<I2cWrite>
    requires |m| == IOE_PORT_BYTES && k <= |ws|
  {
    EfuseLog(m, ws[..k])
  }

  /** One more call extends the series. */
  lemma ApplyEfusesSnoc(m: seq<byte>, ws: seq<EfuseWrite>, k: nat)
    requires |m| == IOE_PORT_BYTES && k < |ws|
    ensures ApplyEfuses(m, ws[..k + 1]) == SetEfuseStep(ApplyEfuses(m, ws[..k]), ws[k].channel, ws[k].on)
    ensures EfuseLog(m, ws[..k + 1]) == EfuseLog(m, ws[..k])
              + (if ws[k].channel < OUTPUT_COUNT then [I2cWrite(IOE_REG_OUTPUT, ApplyEfuses(m, ws[..k + 1]))] else [])
  {
    assert ws[..k + 1][..k] == ws[..k];
  }

  /** One call per channel of `cs`, in order, channel `cs[i]` to `ss[i]`. */
  function Series(cs: seq<Channel>, ss: seq<bool>): (ws: seq<EfuseWrite>)
    requires |cs| == |ss|
    ensures |ws| == |cs|
  {
    seq(|cs|, i requires 0 <= i < |cs| => EfuseWrite(cs[i], ss[i]))
  }

  /** The channel lists in the order the source writes them. */
  const FAN_CHANNELS: seq<Channel> := [EFUSE_FAN_HEATER_INDEX, EFUSE_FAN_CIRCULATION_INDEX,
    EFUSE_FAN_RIGHT_INDEX, EFUSE_FAN_LEFT_INDEX, EFUSE_FAN_PCB_INDEX,
    EFUSE_FAN_LOW_VOLT_INDEX, EFUSE_FAN_HIGH_VOLT_INDEX]
  const VALVE_CHANNELS: seq<Channel> := [EFUSE_VALVE_SUPPLY_INDEX, EFUSE_VALVE_CIRCULATION_INDEX,
    EFUSE_VALVE_RETURN_INDEX]
  const CHAMBER_VALVE_CHANNELS: seq<Channel> := [EFUSE_VALVE_O2_INDEX, EFUSE_VALVE_CO2_INDEX,
    EFUSE_VALVE_AIR_INDEX]

  /** `setFansState(heater, circulation, right, left, pcb, lowVolt, highVolt)`. */
  function FanWrites(heater: bool, circulation: bool, right: bool, left: bool,
                     pcb: bool, lowVolt: bool, highVolt: bool): seq<EfuseWrite>
  {
    Series(FAN_CHANNELS, [heater, circulation, right, left, pcb, lowVolt, highVolt])
  }

  /** `setValvesState(supply, circulation, return)`. */
  function ValveWrites(supply: bool, circulation: bool, ret: bool): seq<EfuseWrite>
  {
    Series(VALVE_CHANNELS, [supply, circulation, ret])
  }

  /** `setPressureChamberValvesState(o2, co2, air)`. */
  function ChamberValveWrites(o2: bool, co2: bool, air: bool): seq<EfuseWrite>
  {
    Series(CHAMBER_VALVE_CHANNELS, [o2, co2, air])
  }

  /** The channels of a list are pairwise different. */
  predicate Distinct(cs: seq<Channel>)
  {
    forall i, j :: 0 <= i < j < |cs| ==> cs[i] != cs[j]
  }

  /** In a series of calls on different channels, the call on `d` is the
      last one on `d`. */
  lemma {:induction false} LastWriteOfDistinct(cs: seq<Channel>, ss: seq<bool>, i: nat)
    requires |cs| == |ss| && Distinct(cs) && i < |cs|
    ensures LastWrite(Series(cs, ss), cs[i]) == Some(ss[i])
    decreases |cs|
  {
    var n := |cs| - 1;
    assert Series(cs, ss)[..n] == Series(cs[..n], ss[..n]);
    if i < n {
      LastWriteOfDistinct(cs[..n], ss[..n], i);
    }
  }

  /** A series that never names `d` has no last write on it. */
  lemma {:induction false} LastWriteAbsent(cs: seq<Channel>, ss: seq<bool>, d: nat)
    requires |cs| == |ss| && d !in cs
    ensures LastWrite(Series(cs, ss), d) == None
    decreases |cs|
  {
    if |cs| > 0 {
      var n := |cs| - 1;
      assert Series(cs, ss)[..n] == Series(cs[..n], ss[..n]);
      assert cs == cs[..n] + [cs[n]];
      LastWriteAbsent(cs[..n], ss[..n], d);
    }
  }

  /** A series of calls on different channels below 24 sets each of them
      to its state and leaves every other channel as it was. */
  lemma ApplyDistinctEfuses(m: seq<byte>, cs: seq<Channel>, ss: seq<bool>, d: nat)
    requires |m| == IOE_PORT_BYTES && |cs| == |ss| && Distinct(cs) && d < OUTPUT_COUNT
    requires forall i :: 0 <= i < |cs| ==> cs[i] < OUTPUT_COUNT
    ensures forall i :: 0 <= i < |cs| ==> ChannelOn(ApplyEfuses(m, Series(cs, ss)), cs[i]) == ss[i]
    ensures d !in cs ==> ChannelOn(ApplyEfuses(m, Series(cs, ss)), d) == ChannelOn(m, d)
  {
    forall i | 0 <= i < |cs|
      ensures ChannelOn(ApplyEfuses(m, Series(cs, ss)), cs[i]) == ss[i]
    {
      LastWriteOfDistinct(cs, ss, i);
      ApplyEfusesChannel(m, Series(cs, ss), cs[i]);
    }
    if d !in cs {
      LastWriteAbsent(cs, ss, d);
      ApplyEfusesChannel(m, Series(cs, ss), d);
    }
  }

  /** The fans land on channels 8, 6, 16, 17, 7, 18 and 19, in the order
      of the arguments; every other channel keeps its state. */
  lemma FanChannels(m: seq<byte>, heater: bool, circulation: bool, right: bool, left: bool,
                    pcb: bool, lowVolt: bool, highVolt: bool, d: nat)
    requires |m| == IOE_PORT_BYTES && d < OUTPUT_COUNT
    ensures FAN_CHANNELS == [8, 6, 16, 17, 7, 18, 19]
    ensures var r := ApplyEfuses(m, FanWrites(heater, circulation, right, left, pcb, lowVolt, highVolt));
      && (forall i :: 0 <= i < |FAN_CHANNELS| ==>
            ChannelOn(r, FAN_CHANNELS[i]) == [heater, circulation, right, left, pcb, lowVolt, highVolt][i])
      && (d !in FAN_CHANNELS ==> ChannelOn(r, d) == ChannelOn(m, d))
  {
    ApplyDistinctEfuses(m, FAN_CHANNELS, [heater, circulation, right, left, pcb, lowVolt, highVolt], d);
  }

  /** The process valves land on channels 0 (supply), 1 (circulation) and
      2 (return); every other channel keeps its state. */
  lemma ValveChannels(m: seq<byte>, supply: bool, circulation: bool, ret: bool, d: nat)
    requires |m| == IOE_PORT_BYTES && d < OUTPUT_COUNT
    ensures VALVE_CHANNELS == [0, 1, 2]
    ensures var r := ApplyEfuses(m, ValveWrites(supply, circulation, ret));
      && (forall i :: 0 <= i < |VALVE_CHANNELS| ==> ChannelOn(r, VALVE_CHANNELS[i]) == [supply, circulation, ret][i])
      && (d !in VALVE_CHANNELS ==> ChannelOn(r, d) == ChannelOn(m, d))
  {
    ApplyDistinctEfuses(m, VALVE_CHANNELS, [supply, circulation, ret], d);
  }

  /** The gas valves land on channels 3 (O2), 4 (CO2) and 5 (air); every
      other channel keeps its state. */
  lemma ChamberValveChannels(m: seq<byte>, o2: bool, co2: bool, air: bool, d: nat)
    requires |m| == IOE_PORT_BYTES && d < OUTPUT_COUNT
    ensures CHAMBER_VALVE_CHANNELS == [3, 4, 5]
    ensures var r := ApplyEfuses(m, ChamberValveWrites(o2, co2, air));
      && (forall i :: 0 <= i < |CHAMBER_VALVE_CHANNELS| ==> ChannelOn(r, CHAMBER_VALVE_CHANNELS[i]) == [o2, co2, air][i])
      && (d !in CHAMBER_VALVE_CHANNELS ==> ChannelOn(r, d) == ChannelOn(m, d))
  {
    ApplyDistinctEfuses(m, CHAMBER_VALVE_CHANNELS, [o2, co2, air], d);
  }

  /** The fan channels, the process valve channels and the gas valve
      channels are three disjoint sets. */
  lemma ChannelGroupsDisjoint()
    ensures forall c :: c in FAN_CHANNELS ==> c !in VALVE_CHANNELS && c !in CHAMBER_VALVE_CHANNELS
    ensures forall c :: c in VALVE_CHANNELS ==> c !in CHAMBER_VALVE_CHANNELS
  {
  }

  // ---------------------------------------------------------------------
  // Periodic tasks

  /** The gate of every periodic task: `millis() - last > interval`, on
      unsigned 32-bit arithmetic. */
  predicate Due(now: u32, last: u32, interval: u32)
  {
    Sub32(now, last) > interval
  }

  /** The gate never fires twice in the same millisecond, and it is
      wrap-around safe: `e` milliseconds after `last` (e < 2^32) it fires
      exactly when `e > interval`, wherever the counter wraps. */
  lemma DueSpec(last: u32, e: nat, interval: u32)
    requires e < TWO_32
    ensures Due(last, last, interval) == false
    ensures Due(Add32(last, e), last, interval) <==> e > interval
  {
  }

  /** `eLedState`: the LED shows IDLE (0) or DOOR_OPEN (1). */
  const LED_STATE_IDLE: byte := 0
  const LED_STATE_DOOR_OPEN: byte := 1

  function LedStateOf(doorOpen: bool): byte
  {
    if doorOpen then LED_STATE_DOOR_OPEN else LED_STATE_IDLE
  }

  /** The level `setLevel(OFF)` writes. */
  const HEATER_OFF: nat := 0

  /** The chamber pressure the code passes while the sensor is not read:
      `25 * 6895` Pa, which is 25 psi (the source comment beside it says
      7.5 psi, which does not match the value). */
  const CHAMBER_PRESSURE: real := 25.0 * 6895.0

  // ---------------------------------------------------------------------
  // The orchestrator

  /** The orchestrator's own globals: the phase, its timer, the store, the
      task timestamps, the LED bookkeeping and the heater level. */
  datatype GlobalState = GlobalState(
    state: int, stateTimer: u32, store: Store,
    lastTemperatureControllerTime: u32, lastPressureChamberControllerTime: u32,
    lastMotorSetSpeedTime: u32, lastLedUpdateTime: u32, lastLedState: byte,
    ledSent: seq<byte>, heaterLevel: nat)

  class BioreactorController {
    var state: int
    var stateTimer: u32
    var store: Store
    var lastTemperatureControllerTime: u32
    var lastPressureChamberControllerTime: u32
    var lastMotorSetSpeedTime: u32
    var lastLedUpdateTime: u32
    var lastLedState: byte
    /** Every state sent to the LED controller. */
    var ledSent: seq<byte>
    /** The last level given to the heater's solid-state relay. */
    var heaterLevel: nat

    const io: IOExpander
    const temperature: TemperatureControl.TemperatureController
    const chamber: PressureChamber.PressureChamberController
    const drive1: Tmc5041.DriveTmc5041
    const drive3: Tmc5041.DriveTmc5041
    const approvPump: Stepper.StepperMotor
    const circulationPump: Stepper.StepperMotor
    const cultureChamberPump1: Stepper.StepperMotor
    const cultureChamberPump2: Stepper.StepperMotor

    const motorSetSpeedInterval: u32
    const temperatureInterval: u32
    const pressureChamberInterval: u32
    const ledUpdateInterval: u32

    function Globals(): GlobalState
      reads this
    {
      GlobalState(state, stateTimer, store, lastTemperatureControllerTime, lastPressureChamberControllerTime,
              lastMotorSetSpeedTime, lastLedUpdateTime, lastLedState, ledSent, heaterLevel)
    }

    /** The wiring: which pump is which motor of which driver, and the
        temperature controller's clock in step with its task's gate. */
    ghost predicate Valid()
      reads this, io, temperature
    {
      && io.Valid()
      && drive1 != drive3
      && approvPump.drive == drive1 && approvPump.motorName == Stepper.MOTOR_1
      && cultureChamberPump2.drive == drive1 && cultureChamberPump2.motorName == Stepper.MOTOR_2
      && cultureChamberPump1.drive == drive3 && cultureChamberPump1.motorName == Stepper.MOTOR_1
      && circulationPump.drive == drive3 && circulationPump.motorName == Stepper.MOTOR_2
      && temperature.prevTime == lastTemperatureControllerTime
      && temperature.pwmHeater <= 100
    }

    /** The global objects and variables as the program starts: phase TEST,
        every timestamp 0, the store holding what earlier runs persisted. */
    constructor (stored: Store, referenceOffset: real, maxTargetAirTemp: real,
                 cs1: byte, cs3: byte,
                 motorSetSpeedInterval: u32, temperatureInterval: u32,
                 pressureChamberInterval: u32, ledUpdateInterval: u32)
      ensures Valid()
      ensures state == PhaseCode(Test) && stateTimer == 0 && store == stored
      ensures lastTemperatureControllerTime == 0 && lastPressureChamberControllerTime == 0
      ensures lastMotorSetSpeedTime == 0 && lastLedUpdateTime == 0 && lastLedState == LED_STATE_IDLE
      ensures ledSent == [] && heaterLevel == 0
      ensures io.outputs[..] == [0, 0, 0] && io.written == []
      ensures temperature.Model() == TemperatureControl.InitialController(0, referenceOffset, maxTargetAirTemp)
      ensures chamber.Model() == PressureChamber.InitialChamber()
      ensures !approvPump.isInit && !circulationPump.isInit
      ensures !cultureChamberPump1.isInit && !cultureChamberPump2.isInit
      ensures drive1.sent == [] && drive3.sent == []
      ensures this.motorSetSpeedInterval == motorSetSpeedInterval && this.temperatureInterval == temperatureInterval
      ensures this.pressureChamberInterval == pressureChamberInterval && this.ledUpdateInterval == ledUpdateInterval
    {
      state := PhaseCode(Test);
      stateTimer := 0;
      store := stored;
      lastTemperatureControllerTime := 0;
      lastPressureChamberControllerTime := 0;
      lastMotorSetSpeedTime := 0;
      lastLedUpdateTime := 0;
      lastLedState := LED_STATE_IDLE;
      ledSent := [];
      heaterLevel := 0;
      io := new IOExpander();
      temperature := new TemperatureControl.TemperatureController(0, referenceOffset, maxTargetAirTemp);
      chamber := new PressureChamber.PressureChamberController();
      var d1 := new Tmc5041.DriveTmc5041(true, cs1);
      var d3 := new Tmc5041.DriveTmc5041(true, cs3);
      drive1 := d1;
      drive3 := d3;
      approvPump := new Stepper.StepperMotor(d1, Stepper.MOTOR_1);
      cultureChamberPump2 := new Stepper.StepperMotor(d1, Stepper.MOTOR_2);
      cultureChamberPump1 := new Stepper.StepperMotor(d3, Stepper.MOTOR_1);
      circulationPump := new Stepper.StepperMotor(d3, Stepper.MOTOR_2);
      this.motorSetSpeedInterval := motorSetSpeedInterval;
      this.temperatureInterval := temperatureInterval;
      this.pressureChamberInterval := pressureChamberInterval;
      this.ledUpdateInterval := ledUpdateInterval;
    }

    /** `setBioreactorState(code)`: a code at or above MAX_STATE changes
        nothing; a valid one becomes the phase, is persisted under "state"
        and restarts the phase timer. */
    method SetBioreactorState(code: byte, now: u32)
      modifies this
      ensures code as int >= MAX_STATE ==> Globals() == old(Globals())
      ensures code as int < MAX_STATE ==>
                Globals() == old(Globals()).(state := code as int,
                                             store := old(store)["state" := PrefShort(code as int)],
                                             stateTimer := now)
    {
      if code as int >= MAX_STATE {
        return;
      }
      state := code as int;
      store := store["state" := PrefShort(code as int)];
      stateTimer := now;
    }

    /** `beginBioreactorPreferences()`: the setpoints and the phase come
        from the store, with their defaults. */
    method BeginPreferences()
      requires Valid()
      modifies this, temperature, chamber
      ensures Valid()
      ensures var l := LoadPreferences(old(store));
        && state == l.state
        && temperature.Model() == TemperatureControl.SetReferenceStep(old(temperature.Model()), l.temperature)
        && chamber.Model() == PressureChamber.SetReferenceStep(
             PressureChamber.SetReferenceStep(old(chamber.Model()), PressureChamber.ValveCo2, l.co2),
             PressureChamber.ValveO2, l.o2)
      ensures Globals() == old(Globals()).(state := LoadPreferences(old(store)).state)
    {
      var temperatureRef := GetFloat(store, "temperature", DEFAULT_TEMPERATURE);
      var ph := GetFloat(store, "ph", DEFAULT_PH);
      var oxygenDissolved := GetFloat(store, "do", DEFAULT_DO);
      var co2 := GetFloat(store, "CO2", DEFAULT_CO2);
      var o2 := GetFloat(store, "O2", DEFAULT_O2);
      var loaded := GetShort(store, "state", PhaseCode(Idle));
      temperature.SetReferenceTemperature(temperatureRef);
      chamber.SetReferenceLevel(PressureChamber.ValveCo2, co2);
      chamber.SetReferenceLevel(PressureChamber.ValveO2, o2);
      state := loaded;
    }

    /** One `ioExpander.setEfuse` call of a series `ws` applied to the
        mirror `m0`, logging `w0` plus the series' transmissions so far. */
    method SetEfuseOf(ghost m0: seq<byte>, ghost w0: seq<I2cWrite>, ws: seq<EfuseWrite>, k: nat)
      requires io.Valid() && |m0| == IOE_PORT_BYTES && k < |ws|
      requires io.outputs[..] == Prefix(m0, ws, k)
      requires io.written == w0 + PrefixLog(m0, ws, k)
      modifies io, io.outputs
      ensures io.Valid()
      ensures io.outputs[..] == Prefix(m0, ws, k + 1)
      ensures io.written == w0 + PrefixLog(m0, ws, k + 1)
    {
      io.SetEfuse(ws[k].channel, ws[k].on);
      ApplyEfusesSnoc(m0, ws, k);
    }

    /** `setFansState(...)`: seven `setEfuse` calls in a row. */
    method SetFansState(heater: bool, circulation: bool, right: bool, left: bool,
                        pcb: bool, lowVolt: bool, highVolt: bool)
      requires io.Valid()
      modifies io, io.outputs
      ensures io.Valid()
      ensures io.outputs[..] == ApplyEfuses(old(io.outputs[..]), FanWrites(heater, circulation, right, left, pcb, lowVolt, highVolt))
      ensures io.written == old(io.written) + EfuseLog(old(io.outputs[..]), FanWrites(heater, circulation, right, left, pcb, lowVolt, highVolt))
    {
      ghost var m0, w0 := io.outputs[..], io.written;
      var ws := FanWrites(heater, circulation, right, left, pcb, lowVolt, highVolt);
      assert ws[..0] == [];
      SetEfuseOf(m0, w0, ws, 0);
      SetEfuseOf(m0, w0, ws, 1);
      SetEfuseOf(m0, w0, ws, 2);
      SetEfuseOf(m0, w0, ws, 3);
      SetEfuseOf(m0, w0, ws, 4);
      SetEfuseOf(m0, w0, ws, 5);
      SetEfuseOf(m0, w0, ws, 6);
      assert ws[..7] == ws;
    }

    /** `setValvesState(supply, circulation, return)`. */
    method SetValvesState(supply: bool, circulation: bool, ret: bool)
      requires io.Valid()
      modifies io, io.outputs
      ensures io.Valid()
      ensures io.outputs[..] == ApplyEfuses(old(io.outputs[..]), ValveWrites(supply, circulation, ret))
      ensures io.written == old(io.written) + EfuseLog(old(io.outputs[..]), ValveWrites(supply, circulation, ret))
    {
      ghost var m0, w0 := io.outputs[..], io.written;
      var ws := ValveWrites(supply, circulation, ret);
      assert ws[..0] == [];
      SetEfuseOf(m0, w0, ws, 0);
      SetEfuseOf(m0, w0, ws, 1);
      SetEfuseOf(m0, w0, ws, 2);
      assert ws[..3] == ws;
    }

    /** `setPressureChamberValvesState(o2, co2, air)`. */
    method SetPressureChamberValvesState(o2: bool, co2: bool, air: bool)
      requires io.Valid()
      modifies io, io.outputs
      ensures io.Valid()
      ensures io.outputs[..] == ApplyEfuses(old(io.outputs[..]), ChamberValveWrites(o2, co2, air))
      ensures io.written == old(io.written) + EfuseLog(old(io.outputs[..]), ChamberValveWrites(o2, co2, air))
    {
      ghost var m0, w0 := io.outputs[..], io.written;
      var ws := ChamberValveWrites(o2, co2, air);
      assert ws[..0] == [];
      SetEfuseOf(m0, w0, ws, 0);
      SetEfuseOf(m0, w0, ws, 1);
      SetEfuseOf(m0, w0, ws, 2);
      assert ws[..3] == ws;
    }

    /** `setPressureChamberState(state)`. */
    method SetPressureChamberState(on: bool)
      modifies chamber
      ensures chamber.Model() == old(chamber.Model()).(enabled := on)
    {
      chamber.SetPressureChamberState(on);
    }

    /** `setPumpsSpeed(approv, circulation, culture1, culture2)`: when the
        interval has passed, the four `setSpeed` calls in that order and
        the time recorded; otherwise nothing. */
    method SetPumpsSpeed(approv: real, circulation: real, culture1: real, culture2: real, now: u32)
      requires Valid()
      modifies this, drive1, drive3
      ensures Valid()
      ensures drive1.isInit == old(drive1.isInit) && drive3.isInit == old(drive3.isInit)
      ensures !Due(now, old(lastMotorSetSpeedTime), motorSetSpeedInterval) ==>
                Globals() == old(Globals())
                && drive1.sent == old(drive1.sent) && drive3.sent == old(drive3.sent)
      ensures Due(now, old(lastMotorSetSpeedTime), motorSetSpeedInterval) ==>
                && Globals() == old(Globals()).(lastMotorSetSpeedTime := now)
                && drive1.sent == old(drive1.sent)
                     + Stepper.SetSpeedLog(approvPump.isInit, Stepper.MOTOR_1, approv)
                     + Stepper.SetSpeedLog(cultureChamberPump2.isInit, Stepper.MOTOR_2, culture2)
                && drive3.sent == old(drive3.sent)
                     + Stepper.SetSpeedLog(circulationPump.isInit, Stepper.MOTOR_2, circulation)
                     + Stepper.SetSpeedLog(cultureChamberPump1.isInit, Stepper.MOTOR_1, culture1)
    {
      if !Due(now, lastMotorSetSpeedTime, motorSetSpeedInterval) {
        return;
      }
      DrivePumps(approv, circulation, culture1, culture2);
      lastMotorSetSpeedTime := now;
    }

    /** The four `setSpeed` calls of `setPumpsSpeed`, in source order;
        each driver receives the datagrams of its two motors. */
    method DrivePumps(approv: real, circulation: real, culture1: real, culture2: real)
      requires Valid()
      modifies drive1, drive3
      ensures drive1.isInit == old(drive1.isInit) && drive3.isInit == old(drive3.isInit)
      ensures drive1.sent == old(drive1.sent)
                + Stepper.SetSpeedLog(approvPump.isInit, Stepper.MOTOR_1, approv)
                + Stepper.SetSpeedLog(cultureChamberPump2.isInit, Stepper.MOTOR_2, culture2)
      ensures drive3.sent == old(drive3.sent)
                + Stepper.SetSpeedLog(circulationPump.isInit, Stepper.MOTOR_2, circulation)
                + Stepper.SetSpeedLog(cultureChamberPump1.isInit, Stepper.MOTOR_1, culture1)
    {
      ghost var sent1, sent3 := drive1.sent, drive3.sent;
      ghost var a := Stepper.SetSpeedLog(approvPump.isInit, Stepper.MOTOR_1, approv);
      ghost var b := Stepper.SetSpeedLog(circulationPump.isInit, Stepper.MOTOR_2, circulation);
      ghost var c := Stepper.SetSpeedLog(cultureChamberPump1.isInit, Stepper.MOTOR_1, culture1);
      ghost var d := Stepper.SetSpeedLog(cultureChamberPump2.isInit, Stepper.MOTOR_2, culture2);
      var _ := approvPump.SetSpeed(approv);
      assert drive1.sent == sent1 + a && drive3.sent == sent3;
      var _ := circulationPump.SetSpeed(circulation);
      assert drive1.sent == sent1 + a && drive3.sent == sent3 + b;
      var _ := cultureChamberPump1.SetSpeed(culture1);
      assert drive1.sent == sent1 + a && drive3.sent == sent3 + b + c;
      var _ := cultureChamberPump2.SetSpeed(culture2);
      assert drive1.sent == sent1 + a + d && drive3.sent == sent3 + b + c;
    }

    /** `setHeatersState(on)`: the controller's power, or OFF. */
    method SetHeatersState(on: bool)
      requires Valid()
      modifies this
      ensures Valid()
      ensures Globals() == old(Globals()).(heaterLevel := if on then temperature.pwmHeater else HEATER_OFF)
      ensures heaterLevel <= 100
    {
      if on {
        heaterLevel := temperature.GetHeaterPower().Floor;
      } else {
        heaterLevel := HEATER_OFF;
      }
    }

    /** `updateTemperatureController()`: when the interval has passed, the
        time is recorded and the controller runs on the air temperature
        (0 when the SHT40 read failed, `air` being None) and the water
        temperature. */
    method UpdateTemperatureController(air: Option<real>, water: real, now: u32)
      requires Valid()
      modifies this, temperature
      ensures Valid()
      ensures !Due(now, old(lastTemperatureControllerTime), temperatureInterval) ==>
                Globals() == old(Globals())
                && temperature.Model() == old(temperature.Model())
      ensures Due(now, old(lastTemperatureControllerTime), temperatureInterval) ==>
                && Globals() == old(Globals()).(lastTemperatureControllerTime := now)
                && old(temperature.prevTime) != now
                && temperature.Model() == TemperatureControl.UpdateStep(
                     old(temperature.Model()), water, if air.Some? then air.value else 0.0, now)
    {
      if !Due(now, lastTemperatureControllerTime, temperatureInterval) {
        return;
      }
      lastTemperatureControllerTime := now;
      var airTemperature := 0.0;
      if air.Some? {
        airTemperature := air.value;
      }
      temperature.Update(water, airTemperature, now);
      TemperatureControl.HeaterDuty(old(temperature.Model()), water, airTemperature, now);
    }

    /** `updatePressureChamberController()`: when the interval has passed,
        the time is recorded and the controller runs on the O2 and CO2
        readings; then, on every call, the three gas valves follow the
        controller's view of them. */
    method UpdatePressureChamberController(o2: real, co2: real, co2SensorReady: bool, now: u32)
      requires Valid()
      modifies this, chamber, io, io.outputs
      ensures Valid()
      ensures !Due(now, old(lastPressureChamberControllerTime), pressureChamberInterval) ==>
                Globals() == old(Globals())
                && chamber.Model() == old(chamber.Model())
      ensures Due(now, old(lastPressureChamberControllerTime), pressureChamberInterval) ==>
                Globals() == old(Globals()).(lastPressureChamberControllerTime := now)
                && chamber.Model() == PressureChamber.UpdateStep(old(chamber.Model()), o2, co2, CHAMBER_PRESSURE, now)
      ensures io.outputs[..] == ApplyEfuses(old(io.outputs[..]), ChamberValveWrites(
                chamber.GetValveState(PressureChamber.ValveO2, now, co2SensorReady),
                chamber.GetValveState(PressureChamber.ValveCo2, now, co2SensorReady),
                chamber.GetValveState(PressureChamber.ValveAir, now, co2SensorReady)))
      ensures io.written == old(io.written) + EfuseLog(old(io.outputs[..]), ChamberValveWrites(
                chamber.GetValveState(PressureChamber.ValveO2, now, co2SensorReady),
                chamber.GetValveState(PressureChamber.ValveCo2, now, co2SensorReady),
                chamber.GetValveState(PressureChamber.ValveAir, now, co2SensorReady)))
    {
      if Due(now, lastPressureChamberControllerTime, pressureChamberInterval) {
        lastPressureChamberControllerTime := now;
        chamber.Update(o2, co2, CHAMBER_PRESSURE, now);
      }
      var o2Open := chamber.GetValveState(PressureChamber.ValveO2, now, co2SensorReady);
      var co2Open := chamber.GetValveState(PressureChamber.ValveCo2, now, co2SensorReady);
      var airOpen := chamber.GetValveState(PressureChamber.ValveAir, now, co2SensorReady);
      SetPressureChamberValvesState(o2Open, co2Open, airOpen);
    }

    /** `updateLEDState()`: the LED is told the door state whenever it
        changes, and again every interval. */
    method UpdateLedState(doorOpen: bool, now: u32)
      modifies this
      ensures var led := LedStateOf(doorOpen);
        if led != old(lastLedState) || Due(now, old(lastLedUpdateTime), ledUpdateInterval) then
          Globals() == old(Globals()).(lastLedState := led, ledSent := old(ledSent) + [led], lastLedUpdateTime := now)
        else
          Globals() == old(Globals())
    {
      var ledState := LedStateOf(doorOpen);
      if ledState != lastLedState || Due(now, lastLedUpdateTime, ledUpdateInterval) {
        lastLedState := ledState;
        ledSent := ledSent + [ledState];
        lastLedUpdateTime := now;
      }
    }
  }
}
