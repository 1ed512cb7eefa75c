/** One motor of the TMC5041 dual driver. `begin` writes the motor's seven
    chopper and ramp registers; `setSpeed` writes the run current, the
    target velocity and the ramp mode, in that order; `stop` is a speed of
    zero, which also drops the run current to zero so the motor freewheels.

    The motor talks to the chip only through `DriveTmc5041.TmcWrite`, so
    what it does is read off the datagrams the driver object logs. */
module Stepper {
  import opened Mcu
  import opened Tmc5041

  /** `eMotorName`: MOTOR_1 = 0, MOTOR_2 = 1, MOTOR_NAME_MAX = 2. The field
      is an enum, so any value can reach `begin`, which checks it. */
  const MOTOR_1: nat := 0
  const MOTOR_2: nat := 1
  const MOTOR_NAME_MAX: nat := 2

  const CONFIG_MSG_SIZE: nat := 7

  /** Run current while turning: half of the default. */
  const RUNNING_TORQUE: bv32 := 0x8F82

  const IHOLD_IRUN_ADDR: seq<byte> := [0x30, 0x50]
  const SET_SPEED_ADDR: seq<byte> := [0x27, 0x47]
  const SET_MODE_ADDR: seq<byte> := [0x20, 0x40]

  /** The registers `begin` writes, per motor, and the words it writes
      there (the same for both motors; the second is `RUNNING_TORQUE * 2`). */
  const CONFIG_ADDR: seq<seq<byte>> :=
    [[0x6C, 0x30, 0x2C, 0x10, 0x32, 0x31, 0x26],
     [0x7C, 0x50, 0x4C, 0x18, 0x52, 0x51, 0x46]]
  const CONFIG_DATA: seq<bv32> :=
    [0x010100C5, 0x8F82 * 2, 0x00002710, 0x003501C8, 0x00061A80, 0x00007530, 0x00001388]

  // The ml/min-to-register factor, with C's `^` (exclusive or, not a
  // power) kept as written: `10 ^ 6` is 12 and `2 ^ 23` is 21.
  const FREQ_CLOCK: real := 13.3 * ((10 as bv8) ^ (6 as bv8)) as int as real
  const DEGREE_PER_STEP: real := 1.8
  const ML_PER_RPM: real := 0.1388
  const MICRO_STEP_PER_STEP: real := 256.0
  const REG_TO_ML_PER_MIN: real :=
    (FREQ_CLOCK / 2.0 / ((2 as bv8) ^ (23 as bv8)) as int as real / MICRO_STEP_PER_STEP
     / (360.0 / DEGREE_PER_STEP)) * 60.0 * ML_PER_RPM
  const ML_PER_MIN_TO_REG: real := 1.0 / REG_TO_ML_PER_MIN

  /** The constants as the compiler evaluates them: the clock is 159.6 "Hz"
      instead of 13.3 MHz, and one ml/min is about 1618 register units. */
  lemma ConversionAsWritten()
    ensures FREQ_CLOCK == 159.6
    ensures REG_TO_ML_PER_MIN == 0.00061809375
    ensures 1617.0 < ML_PER_MIN_TO_REG < 1618.0
  {
    assert (10 as bv8) ^ (6 as bv8) == 12;
    assert (2 as bv8) ^ (23 as bv8) == 21;
  }

  function Abs(x: real): (r: real)
    ensures r >= 0.0 && (r == x || r == -x)
  {
    if x < 0.0 then -x else x
  }

  /** `uint32_t(magnitude * ML_PER_MIN_TO_REG)`. */
  function Velocity(magnitude: real): u32
  {
    CastToU32(magnitude * ML_PER_MIN_TO_REG)
  }

  /** The velocity register `setSpeed(speed)` writes. */
  function SpeedRegister(speed: real): u32
  {
    Velocity(Abs(speed))
  }

  /** The same value as the 32-bit word on the wire. */
  function VelocityWord(magnitude: real): bv32
  {
    Velocity(magnitude) as bv32
  }

  /** The ramp mode `setSpeed` selects: counterclockwise unless the speed is
      negative (the doc comment promises the opposite for positive speeds). */
  function Direction(speed: real): MotorMode
  {
    if speed < 0.0 then SpeedClockwise else SpeedCounterClockwise
  }

  /** The run current `setSpeed` selects: zero for a zero speed. */
  function Torque(speed: real): bv32
  {
    if speed == 0.0 then 0 else RUNNING_TORQUE
  }

  /** The datagrams `begin` sends for motor `m`, the first `n` of them. */
  function ConfigWrites(m: nat, n: nat): (r: seq<seq<byte>>)
    requires m < MOTOR_NAME_MAX && n <= CONFIG_MSG_SIZE
    ensures |r| == n
  {
    if n == 0 then [] else ConfigWrites(m, n - 1) + [WriteDatagram(CONFIG_ADDR[m][n - 1], CONFIG_DATA[n - 1])]
  }

  /** The datagrams `setSpeed(speed)` sends for motor `m`. */
  function SpeedWrites(m: nat, speed: real): (r: seq<seq<byte>>)
    requires m < MOTOR_NAME_MAX
    ensures |r| == 3
  {
    [WriteDatagram(IHOLD_IRUN_ADDR[m], Torque(speed)),
     WriteDatagram(SET_SPEED_ADDR[m], VelocityWord(Abs(speed))),
     WriteDatagram(SET_MODE_ADDR[m], ModeCode(Direction(speed)))]
  }

  /** What a `setSpeed` call sends: its three datagrams once the motor is
      initialised, nothing before `begin` (which also refuses a motor name
      past `MOTOR_2`). */
  function SetSpeedLog(isInit: bool, m: nat, speed: real): seq<seq<byte>>
  {
    if isInit && m < MOTOR_NAME_MAX then SpeedWrites(m, speed) else []
  }

  /** The register and word a write datagram carries. */
  predicate WritesRegister(d: seq<byte>, address: byte, data: bv32)
  {
    |d| == 5 && d[0] & 0x80 == 0x80 && d[0] & 0x7F == address & 0x7F && Assemble(d[1..]) == data
  }

  // ---------------------------------------------------------------------
  // Properties

  /** The i-th datagram of `begin` writes `CONFIG_DATA[i]` to
      `CONFIG_ADDR[m][i]`. */
  lemma {:induction false} ConfigWritesAt(m: nat, n: nat, i: nat)
    requires m < MOTOR_NAME_MAX && i < n <= CONFIG_MSG_SIZE
    ensures ConfigWrites(m, n)[i] == WriteDatagram(CONFIG_ADDR[m][i], CONFIG_DATA[i])
  {
    if i < n - 1 {
      ConfigWritesAt(m, n - 1, i);
    }
  }

  /** `begin` sends exactly seven datagrams, and the i-th of them, decoded,
      writes `CONFIG_DATA[i]` to `CONFIG_ADDR[m][i]`. */
  lemma ConfigWritesDecode(m: nat)
    requires m < MOTOR_NAME_MAX
    ensures |ConfigWrites(m, CONFIG_MSG_SIZE)| == 7
    ensures forall i :: 0 <= i < CONFIG_MSG_SIZE ==>
              WritesRegister(ConfigWrites(m, CONFIG_MSG_SIZE)[i], CONFIG_ADDR[m][i], CONFIG_DATA[i])
  {
    forall i | 0 <= i < CONFIG_MSG_SIZE
      ensures WritesRegister(ConfigWrites(m, CONFIG_MSG_SIZE)[i], CONFIG_ADDR[m][i], CONFIG_DATA[i])
    {
      ConfigWritesAt(m, CONFIG_MSG_SIZE, i);
      WriteDatagramDecodes(CONFIG_ADDR[m][i], CONFIG_DATA[i]);
    }
  }

  /** Every register address in the tables fits in seven bits, so the
      decoded register is the table entry itself. */
  lemma AddressesSevenBit()
    ensures forall m, i :: 0 <= m < MOTOR_NAME_MAX && 0 <= i < CONFIG_MSG_SIZE ==>
              CONFIG_ADDR[m][i] < 0x80
    ensures forall m :: 0 <= m < MOTOR_NAME_MAX ==>
              IHOLD_IRUN_ADDR[m] < 0x80 && SET_SPEED_ADDR[m] < 0x80 && SET_MODE_ADDR[m] < 0x80
  {
  }

  /** Decoded, `setSpeed` writes the torque to IHOLD_IRUN, the velocity to
      the speed register and the mode to RAMPMODE: 0x30, 0x27, 0x20 for the
      first motor and 0x50, 0x47, 0x40 for the second. */
  lemma SpeedWritesDecode(m: nat, speed: real)
    requires m < MOTOR_NAME_MAX
    ensures var w := SpeedWrites(m, speed);
      && WritesRegister(w[0], IHOLD_IRUN_ADDR[m], Torque(speed))
      && WritesRegister(w[1], SET_SPEED_ADDR[m], VelocityWord(Abs(speed)))
      && WritesRegister(w[2], SET_MODE_ADDR[m], ModeCode(Direction(speed)))
    ensures m == MOTOR_1 ==> IHOLD_IRUN_ADDR[m] == 0x30 && SET_SPEED_ADDR[m] == 0x27 && SET_MODE_ADDR[m] == 0x20
    ensures m == MOTOR_2 ==> IHOLD_IRUN_ADDR[m] == 0x50 && SET_SPEED_ADDR[m] == 0x47 && SET_MODE_ADDR[m] == 0x40
  {
    WriteDatagramDecodes(IHOLD_IRUN_ADDR[m], Torque(speed));
    WriteDatagramDecodes(SET_SPEED_ADDR[m], VelocityWord(Abs(speed)));
    WriteDatagramDecodes(SET_MODE_ADDR[m], ModeCode(Direction(speed)));
  }

  /** Direction and torque: a zero speed gives torque 0 and mode 0x2; a
      negative one mode 0x1 (clockwise) at the running torque; a positive
      one mode 0x2 (counterclockwise) at the running torque. */
  lemma DirectionAndTorque(speed: real)
    ensures Torque(speed) == 0 <==> speed == 0.0
    ensures speed != 0.0 ==> Torque(speed) == RUNNING_TORQUE
    ensures ModeCode(Direction(speed)) == 0x1 <==> speed < 0.0
    ensures ModeCode(Direction(speed)) == 0x2 <==> speed >= 0.0
  {
  }

  /** The velocity register depends only on the magnitude of the speed, is
      0 at speed 0, and never decreases as the magnitude grows; below
      saturation it is `|speed| * ML_PER_MIN_TO_REG` truncated. */
  lemma SpeedRegisterSpec(s1: real, s2: real)
    ensures SpeedRegister(-s1) == SpeedRegister(s1)
    ensures SpeedRegister(0.0) == 0
    ensures Abs(s1) <= Abs(s2) ==> SpeedRegister(s1) <= SpeedRegister(s2)
    ensures Abs(s1) * ML_PER_MIN_TO_REG < TWO_32 as real ==>
              SpeedRegister(s1) as real <= Abs(s1) * ML_PER_MIN_TO_REG < SpeedRegister(s1) as real + 1.0
  {
    ConversionAsWritten();
    if Abs(s1) <= Abs(s2) {
      ScaleMonotone(Abs(s1), Abs(s2), ML_PER_MIN_TO_REG);
    }
  }

  lemma ScaleMonotone(a: real, b: real, k: real)
    requires 0.0 <= a <= b && k > 0.0
    ensures 0.0 <= a * k <= b * k
  {
  }

  /** Reversing the speed changes only the mode written; the run current
      and the velocity register stay the same. */
  lemma ReverseChangesOnlyMode(m: nat, speed: real)
    requires m < MOTOR_NAME_MAX && speed != 0.0
    ensures SpeedWrites(m, -speed)[..2] == SpeedWrites(m, speed)[..2]
    ensures SpeedWrites(m, -speed)[2] != SpeedWrites(m, speed)[2]
  {
    assert Abs(-speed) == Abs(speed);
    SpeedWritesDecode(m, speed);
    SpeedWritesDecode(m, -speed);
  }

  /** `stop` sends run current 0, velocity 0 and counterclockwise mode. */
  lemma StopWrites(m: nat)
    requires m < MOTOR_NAME_MAX
    ensures SpeedWrites(m, 0.0) ==
      [WriteDatagram(IHOLD_IRUN_ADDR[m], 0), WriteDatagram(SET_SPEED_ADDR[m], 0),
       WriteDatagram(SET_MODE_ADDR[m], 0x2)]
  {
    assert Abs(0.0) == 0.0 && Velocity(0.0) == 0;
    assert VelocityWord(0.0) == 0;
  }

  /** The two motors of one chip never write the same register. */
  lemma MotorsDisjoint()
    ensures forall i, j :: 0 <= i < CONFIG_MSG_SIZE && 0 <= j < CONFIG_MSG_SIZE ==>
              CONFIG_ADDR[MOTOR_1][i] != CONFIG_ADDR[MOTOR_2][j]
    ensures forall a :: a in [IHOLD_IRUN_ADDR[MOTOR_1], SET_SPEED_ADDR[MOTOR_1], SET_MODE_ADDR[MOTOR_1]] ==>
              a !in [IHOLD_IRUN_ADDR[MOTOR_2], SET_SPEED_ADDR[MOTOR_2], SET_MODE_ADDR[MOTOR_2]]
  {
  }

  // ---------------------------------------------------------------------
  // The motor object

  class StepperMotor {
    const drive: DriveTmc5041?
    const motorName: nat
    var isInit: bool

    /** Only a motor with a drive and a valid name gets initialised. */
    predicate Valid()
      reads this
    {
      isInit ==> drive != null && motorName < MOTOR_NAME_MAX
    }

    /** `StepperMotor(drive_handle, motorName)`. */
    constructor (drive: DriveTmc5041?, motorName: nat)
      ensures this.drive == drive && this.motorName == motorName && !isInit && Valid()
    {
      this.drive := drive;
      this.motorName := motorName;
      isInit := false;
    }

    /** `begin()`: refuses a null drive and an out-of-range name without
        sending anything; otherwise sends the seven configuration writes in
        order and marks the motor initialised. */
    method Begin() returns (status: MotorStatus)
      requires Valid()
      modifies this, drive
      ensures Valid()
      ensures drive == null ==> status == MotorNullVariable && isInit == old(isInit)
      ensures drive != null && motorName >= MOTOR_NAME_MAX ==>
                status == MotorIncorrectVariable && isInit == old(isInit) && unchanged(drive)
      ensures drive != null && motorName < MOTOR_NAME_MAX ==>
                && status == MotorOk && isInit
                && drive.sent == old(drive.sent) + ConfigWrites(motorName, CONFIG_MSG_SIZE)
                && drive.isInit == old(drive.isInit)
    {
      if drive == null {
        return MotorNullVariable;
      }
      if motorName >= MOTOR_NAME_MAX {
        return MotorIncorrectVariable;
      }
      var i := 0;
      while i < CONFIG_MSG_SIZE
        invariant 0 <= i <= CONFIG_MSG_SIZE
        invariant drive.sent == old(drive.sent) + ConfigWrites(motorName, i)
        invariant drive.isInit == old(drive.isInit)
      {
        drive.TmcWrite(CONFIG_ADDR[motorName][i], CONFIG_DATA[i]);
        assert ConfigWrites(motorName, i + 1)
            == ConfigWrites(motorName, i) + [WriteDatagram(CONFIG_ADDR[motorName][i], CONFIG_DATA[i])];
        i := i + 1;
      }
      isInit := true;
      return MotorOk;
    }

    /** `setSpeed(speed)` in ml/min. Before `begin` it sends nothing. */
    method SetSpeed(speed: real) returns (status: MotorStatus)
      requires Valid()
      modifies drive
      ensures isInit == old(isInit) && Valid()
      ensures status == (if isInit then MotorOk else MotorNotInitialised)
      ensures drive != null ==>
                drive.sent == old(drive.sent) + SetSpeedLog(isInit, motorName, speed)
                && drive.isInit == old(drive.isInit)
    {
      if !isInit {
        return MotorNotInitialised;
      }
      var direction := SpeedCounterClockwise;
      var torque := RUNNING_TORQUE;
      var magnitude := speed;
      if speed == 0.0 {
        torque := 0;
      } else if speed < 0.0 {
        direction := SpeedClockwise;
        magnitude := -speed;
      }
      assert torque == Torque(speed) && direction == Direction(speed) && magnitude == Abs(speed);
      ghost var before := drive.sent;
      ghost var a := WriteDatagram(IHOLD_IRUN_ADDR[motorName], torque);
      ghost var b := WriteDatagram(SET_SPEED_ADDR[motorName], VelocityWord(magnitude));
      ghost var c := WriteDatagram(SET_MODE_ADDR[motorName], ModeCode(direction));
      assert SpeedWrites(motorName, speed) == [a, b, c];
      drive.TmcWrite(IHOLD_IRUN_ADDR[motorName], torque);
      drive.TmcWrite(SET_SPEED_ADDR[motorName], VelocityWord(magnitude));
      drive.TmcWrite(SET_MODE_ADDR[motorName], ModeCode(direction));
      assert drive.sent == before + [a, b, c];
      return MotorOk;
    }

    /** `stop()`: `setSpeed(0)`, refused before `begin`. */
    method Stop() returns (status: MotorStatus)
      requires Valid()
      modifies drive
      ensures isInit == old(isInit) && Valid()
      ensures status == (if isInit then MotorOk else MotorNotInitialised)
      ensures drive != null ==>
                drive.sent == old(drive.sent) + SetSpeedLog(isInit, motorName, 0.0)
                && drive.isInit == old(drive.isInit)
    {
      if !isInit {
        return MotorNotInitialised;
      }
      var _ := SetSpeed(0.0);
      return MotorOk;
    }
  }
}
