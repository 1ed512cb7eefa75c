/** The SHT40 temperature and humidity sensor on I2C: a 6-byte reply made
    of two big-endian 16-bit readings, each followed by its Sensirion CRC-8,
    converted to degrees Celsius and % rH with the datasheet formulas.

    The I2C bus is not modelled: what `endTransmission` returns and the
    bytes `requestFrom` delivers are parameters. */
module Sht40 {
  import opened Mcu

  /** `eSHT40Status`. */
  datatype Sht40Status =
    | Sht40Ok
    | Sht40NotInitialised
    | Sht40InvalidI2cBus
    | Sht40FailedToSendRequest
    | Sht40InvalidCrc
    | Sht40WrongMsgLength

  const SHT40_RSP_SIZE: nat := 6
  const SHT40_REQ_TEMP: byte := 0xFD
  const RAW_TEMPERATURE_SIZE: nat := 2
  const RAW_HUMIDITY_SIZE: nat := 2
  const INDEX_TEMPERATURE: nat := 0
  const INDEX_CRC_TEMPERATURE: nat := 2
  const INDEX_HUMIDITY: nat := 3
  const INDEX_CRC_HUMIDITY: nat := 5
  const I2C_COMMUNICATION_SUCCESS: byte := 0

  // ---------------------------------------------------------------------
  // CRC-8 (polynomial 0x31, seed 0xFF, MSB first, no final XOR)

  /** One step: shift left, XOR 0x31 if the MSB was 1. */
  function Crc8Shift(crc: byte): byte
  {
    if crc & 0x80 != 0 then (crc << 1) ^ 0x31 else crc << 1
  }

  function Crc8Shifts(crc: byte, n: nat): byte
  {
    if n == 0 then crc else Crc8Shift(Crc8Shifts(crc, n - 1))
  }

  /** Eight shift steps, written out. */
  function Crc8ShiftByte(c: byte): byte
  {
    Crc8Shift(Crc8Shift(Crc8Shift(Crc8Shift(Crc8Shift(Crc8Shift(Crc8Shift(Crc8Shift(c))))))))
  }

  /** Absorb one byte: XOR it in, then eight shift steps. */
  function Crc8Byte(crc: byte, b: byte): byte
  {
    Crc8Shifts(crc ^ b, 8)
  }

  /** The Sensirion CRC-8 of a byte string. */
  function Crc8(s: seq<byte>): byte
  {
    if |s| == 0 then 0xFF else Crc8Byte(Crc8(s[..|s| - 1]), s[|s| - 1])
  }

  /** `crc8(data, len)`: `len` goes into a `uint8_t` counter, so only
      `len mod 256` bytes are read (for the two-byte readings, all of them). */
  method ComputeCrc8(data: seq<byte>, len: int) returns (crc: byte)
    requires len % 256 <= |data|
    ensures crc == Crc8(data[..len % 256])
  {
    crc := 0xFF;
    var count := len % 256;
    var pos := 0;
    while pos < count
      invariant 0 <= pos <= count
      invariant crc == Crc8(data[..pos])
    {
      crc := crc ^ data[pos];
      ghost var absorbed := crc;
      var i := 0;
      while i < 8
        invariant 0 <= i <= 8
        invariant crc == Crc8Shifts(absorbed, i)
      {
        if crc & 0x80 != 0 {
          crc := (crc << 1) ^ 0x31;
        } else {
          crc := crc << 1;
        }
        i := i + 1;
      }
      assert data[..pos + 1][..pos] == data[..pos];
      pos := pos + 1;
    }
  }

  lemma Crc8EightShifts(c: byte)
    ensures Crc8Shifts(c, 8) == Crc8ShiftByte(c)
  {
    assert Crc8Shifts(c, 1) == Crc8Shift(c);
    assert Crc8Shifts(c, 2) == Crc8Shift(Crc8Shifts(c, 1));
    assert Crc8Shifts(c, 3) == Crc8Shift(Crc8Shifts(c, 2));
    assert Crc8Shifts(c, 4) == Crc8Shift(Crc8Shifts(c, 3));
    assert Crc8Shifts(c, 5) == Crc8Shift(Crc8Shifts(c, 4));
    assert Crc8Shifts(c, 6) == Crc8Shift(Crc8Shifts(c, 5));
    assert Crc8Shifts(c, 7) == Crc8Shift(Crc8Shifts(c, 6));
  }

  lemma Crc8VectorSteps()
    ensures Crc8ShiftByte(0xFF ^ 0xBE) == 0x0C && Crc8ShiftByte(0x0C ^ 0xEF) == 0x92
    ensures Crc8ShiftByte(0xFF ^ 0x00) == 0xAC && Crc8ShiftByte(0xAC ^ 0x00) == 0x81
  {
  }

  /** The empty input gives the seed; the documented test data 0xBE 0xEF
      gives 0x92, and 0x00 0x00 gives 0x81 (the datasheet example). */
  lemma Crc8Vectors()
    ensures Crc8([]) == 0xFF
    ensures Crc8([0xBE, 0xEF]) == 0x92
    ensures Crc8([0x00, 0x00]) == 0x81
  {
    var a: seq<byte> := [0xBE, 0xEF];
    assert a[..1] == [0xBE] && [0xBE][..0] == [];
    var z: seq<byte> := [0x00, 0x00];
    assert z[..1] == [0x00] && [0x00][..0] == [];
    Crc8EightShifts(0xFF ^ 0xBE);
    Crc8EightShifts(0x0C ^ 0xEF);
    Crc8EightShifts(0xFF ^ 0x00);
    Crc8EightShifts(0xAC ^ 0x00);
    Crc8VectorSteps();
  }

  // ---------------------------------------------------------------------
  // Reply layout and conversion

  /** A big-endian 16-bit reading. */
  function Raw16(hi: byte, lo: byte): (r: nat)
    ensures r < 0x1_0000
  {
    hi as nat * 256 + lo as nat
  }

  /** The two bytes of a reading determine it and are recovered from it. */
  lemma Raw16Bytes(hi: byte, lo: byte)
    ensures Raw16(hi, lo) / 256 == hi as nat && Raw16(hi, lo) % 256 == lo as nat
  {
  }

  function TemperatureOf(raw: nat): real
  {
    -45.0 + 175.0 * (raw as real) / 65535.0
  }

  function HumidityOf(raw: nat): real
  {
    -6.0 + 125.0 * (raw as real) / 65535.0
  }

  /** The conversions span [-45, 130] degrees and [-6, 119] % rH over the
      16-bit range (humidity is not clipped to [0, 100]). */
  lemma ConversionRanges(raw: nat)
    requires raw < 0x1_0000
    ensures -45.0 <= TemperatureOf(raw) <= 130.0
    ensures -6.0 <= HumidityOf(raw) <= 119.0
    ensures TemperatureOf(0) == -45.0 && TemperatureOf(65535) == 130.0
    ensures HumidityOf(0) == -6.0 && HumidityOf(65535) == 119.0
  {
  }

  /** The two CRC tests of `fetchData`. */
  predicate ReplyCrcOk(rx: seq<byte>)
    requires |rx| == SHT40_RSP_SIZE
  {
    && rx[INDEX_CRC_TEMPERATURE] == Crc8(rx[INDEX_TEMPERATURE..INDEX_TEMPERATURE + RAW_TEMPERATURE_SIZE])
    && rx[INDEX_CRC_HUMIDITY] == Crc8(rx[INDEX_HUMIDITY..INDEX_HUMIDITY + RAW_HUMIDITY_SIZE])
  }

  /** The CRCs `fetchData` computes from the buffer's suffixes are those of
      the two data pairs, so its test is `ReplyCrcOk`. */
  lemma CrcTestsOfReply(rx: seq<byte>, crcTemp: byte, crcHumidity: byte)
    requires |rx| == SHT40_RSP_SIZE
    requires crcTemp == Crc8(rx[INDEX_TEMPERATURE..][..RAW_TEMPERATURE_SIZE % 256])
    requires crcHumidity == Crc8(rx[INDEX_HUMIDITY..][..RAW_HUMIDITY_SIZE % 256])
    ensures ReplyCrcOk(rx) <==> rx[INDEX_CRC_TEMPERATURE] == crcTemp && rx[INDEX_CRC_HUMIDITY] == crcHumidity
  {
    assert rx[INDEX_TEMPERATURE..][..2] == rx[0..2];
    assert rx[INDEX_HUMIDITY..][..2] == rx[3..5];
  }

  /** The reply the sensor sends: each reading's two bytes followed by
      their CRC. */
  function EncodeReply(t0: byte, t1: byte, h0: byte, h1: byte): (rx: seq<byte>)
    ensures |rx| == SHT40_RSP_SIZE
  {
    [t0, t1, Crc8([t0, t1]), h0, h1, Crc8([h0, h1])]
  }

  // ---------------------------------------------------------------------
  // The sensor state and its operations

  datatype Sensor = Sensor(hasBus: bool, isInit: bool, temperature: real, humidity: real, rxBuffer: seq<byte>)

  function InitialSensor(hasBus: bool): Sensor
  {
    Sensor(hasBus, false, 0.0, 0.0, [0, 0, 0, 0, 0, 0])
  }

  /** `begin()`: a null bus is refused and the sensor stays uninitialised. */
  function BeginStep(s: Sensor): (Sensor, Sht40Status)
  {
    if !s.hasBus then (s, Sht40InvalidI2cBus) else (s.(isInit := true), Sht40Ok)
  }

  /** `fetchData()`, given the `endTransmission` result `ack` and the bytes
      `received` that `requestFrom` delivered. */
  function FetchStep(s: Sensor, ack: byte, received: seq<byte>): (Sensor, Sht40Status)
  {
    if !s.isInit then (s, Sht40NotInitialised)
    else if ack != I2C_COMMUNICATION_SUCCESS then (s, Sht40FailedToSendRequest)
    else if |received| != SHT40_RSP_SIZE then (s, Sht40WrongMsgLength)
    else if !ReplyCrcOk(received) then (s.(rxBuffer := received), Sht40InvalidCrc)
    else
      (s.(rxBuffer := received,
          temperature := TemperatureOf(Raw16(received[0], received[1])),
          humidity := HumidityOf(Raw16(received[3], received[4]))),
       Sht40Ok)
  }

  /** `isConnected()`: before `begin` it returns the status code
      NOT_INITIALISED converted to `bool`, which is true. */
  function IsConnectedStep(s: Sensor, ack: byte): bool
  {
    if !s.isInit then true else ack == 0
  }

  // ---------------------------------------------------------------------
  // Properties

  /** `begin` succeeds exactly when there is a bus. */
  lemma BeginOutcome(s: Sensor)
    ensures BeginStep(s).1 == Sht40Ok <==> s.hasBus
    ensures s.hasBus ==> BeginStep(s).0.isInit
    ensures !s.hasBus ==> BeginStep(s).0 == s && BeginStep(s).1 == Sht40InvalidI2cBus
  {
  }

  /** Every error leaves the stored readings as they were; only a reply
      that passed both CRC tests changes them. */
  lemma ErrorsKeepReadings(s: Sensor, ack: byte, received: seq<byte>)
    ensures var (u, st) := FetchStep(s, ack, received);
      st != Sht40Ok ==> u.temperature == s.temperature && u.humidity == s.humidity && u.isInit == s.isInit
  {
  }

  /** The status of `fetchData`, case by case, in the order the code tests. */
  lemma FetchOutcomes(s: Sensor, ack: byte, received: seq<byte>)
    ensures var st := FetchStep(s, ack, received).1;
      && (!s.isInit <==> st == Sht40NotInitialised)
      && (s.isInit && ack != 0 <==> st == Sht40FailedToSendRequest)
      && (s.isInit && ack == 0 && |received| != 6 <==> st == Sht40WrongMsgLength)
      && (st == Sht40InvalidCrc <==> s.isInit && ack == 0 && |received| == 6 && !ReplyCrcOk(received))
      && (st == Sht40Ok <==> s.isInit && ack == 0 && |received| == 6 && ReplyCrcOk(received))
  {
  }

  /** A reply the sensor encodes passes both CRC tests and is decoded back
      to the readings of its data bytes, taken big-endian. */
  lemma ReplyRoundTrip(s: Sensor, t0: byte, t1: byte, h0: byte, h1: byte)
    requires s.isInit
    ensures var (u, st) := FetchStep(s, 0, EncodeReply(t0, t1, h0, h1));
      && st == Sht40Ok
      && u.temperature == TemperatureOf(t0 as nat * 256 + t1 as nat)
      && u.humidity == HumidityOf(h0 as nat * 256 + h1 as nat)
  {
    var rx := EncodeReply(t0, t1, h0, h1);
    assert rx[0..2] == [t0, t1] && rx[3..5] == [h0, h1];
    assert ReplyCrcOk(rx);
  }

  /** A temperature reply whose CRC byte differs from the CRC of its two
      data bytes is refused and the readings stay. */
  lemma CorruptCrcRefused(s: Sensor, rx: seq<byte>)
    requires s.isInit && |rx| == 6 && rx[2] != Crc8(rx[0..2])
    ensures FetchStep(s, 0, rx).1 == Sht40InvalidCrc
    ensures FetchStep(s, 0, rx).0.temperature == s.temperature
  {
  }

  /** Before `begin`, `isConnected` claims a device is present. */
  lemma UninitialisedClaimsConnected(s: Sensor, ack: byte)
    requires !s.isInit
    ensures IsConnectedStep(s, ack)
  {
  }

  // ---------------------------------------------------------------------
  // The sensor object

  class SHT40 {
    const hasBus: bool
    var isInit: bool
    var temperature: real
    var humidity: real
    const rxBuffer: array<byte>

    ghost predicate Valid()
      reads this
    {
      rxBuffer.Length == SHT40_RSP_SIZE
    }

    function Model(): Sensor
      reads this, rxBuffer
    {
      Sensor(hasBus, isInit, temperature, humidity, rxBuffer[..])
    }

    /** `SHT40(i2cBus)`; `hasBus` is whether `i2cBus` is non-null. */
    constructor (hasBus: bool)
      ensures Valid() && fresh(rxBuffer)
      ensures Model() == InitialSensor(hasBus)
    {
      this.hasBus := hasBus;
      isInit := false;
      temperature := 0.0;
      humidity := 0.0;
      rxBuffer := new byte[SHT40_RSP_SIZE](_ => 0);
    }

    method Begin() returns (status: Sht40Status)
      requires Valid()
      modifies this
      ensures Valid()
      ensures (Model(), status) == BeginStep(old(Model()))
    {
      if !hasBus {
        return Sht40InvalidI2cBus;
      }
      isInit := true;
      return Sht40Ok;
    }

    method IsConnected(ack: byte) returns (connected: bool)
      ensures connected == IsConnectedStep(Model(), ack)
    {
      if !isInit {
        return true;
      }
      connected := ack == 0;
    }

    function GetLastTemperature(): real
      reads this
    {
      temperature
    }

    function GetLastHumidity(): real
      reads this
    {
      humidity
    }

    /** `fetchData()`. */
    method FetchData(ack: byte, received: seq<byte>) returns (status: Sht40Status)
      requires Valid()
      modifies this, rxBuffer
      ensures Valid()
      ensures (Model(), status) == FetchStep(old(Model()), ack, received)
    {
      if !isInit {
        return Sht40NotInitialised;
      }
      if ack != I2C_COMMUNICATION_SUCCESS {
        return Sht40FailedToSendRequest;
      }
      if |received| != SHT40_RSP_SIZE {
        return Sht40WrongMsgLength;
      }
      ghost var s := Model();
      ReadReply(received);
      var rx := rxBuffer[..];
      assert Model() == s.(rxBuffer := received);
      var crcTemp := ComputeCrc8(rx[INDEX_TEMPERATURE..], RAW_TEMPERATURE_SIZE);
      var crcHumidity := ComputeCrc8(rx[INDEX_HUMIDITY..], RAW_HUMIDITY_SIZE);
      CrcTestsOfReply(rx, crcTemp, crcHumidity);
      if rx[INDEX_CRC_TEMPERATURE] != crcTemp || rx[INDEX_CRC_HUMIDITY] != crcHumidity {
        return Sht40InvalidCrc;
      }
      var rawTemp := Raw16(rx[INDEX_TEMPERATURE], rx[INDEX_TEMPERATURE + 1]);
      var rawHumidity := Raw16(rx[INDEX_HUMIDITY], rx[INDEX_HUMIDITY + 1]);
      temperature := TemperatureOf(rawTemp);
      humidity := HumidityOf(rawHumidity);
      return Sht40Ok;
    }

    /** The `memset` and read loop that copy the reply into `rxBuffer`. */
    method ReadReply(received: seq<byte>)
      requires Valid() && |received| == SHT40_RSP_SIZE
      modifies rxBuffer
      ensures rxBuffer[..] == received
    {
      var i := 0;
      while i < SHT40_RSP_SIZE
        invariant 0 <= i <= SHT40_RSP_SIZE
        invariant forall k :: 0 <= k < i ==> rxBuffer[k] == 0
      {
        rxBuffer[i] := 0;
        i := i + 1;
      }
      i := 0;
      while i < SHT40_RSP_SIZE
        invariant 0 <= i <= SHT40_RSP_SIZE
        invariant rxBuffer[..i] == received[..i]
      {
        rxBuffer[i] := received[i];
        i := i + 1;
      }
    }

    /** `getData(temperature, humidity)`: `wantTemperature` and
        `wantHumidity` say which of the two arguments are non-null; an out-parameter
        that is not written is `None`. */
    method GetData(ack: byte, received: seq<byte>, wantTemperature: bool, wantHumidity: bool)
      returns (status: Sht40Status, t: Option<real>, h: Option<real>)
      requires Valid()
      modifies this, rxBuffer
      ensures Valid()
      ensures (Model(), status) == FetchStep(old(Model()), ack, received)
      ensures status != Sht40Ok ==> t == None && h == None
      ensures status == Sht40Ok ==> t == (if wantTemperature then Some(temperature) else None)
      ensures status == Sht40Ok ==> h == (if wantHumidity then Some(humidity) else None)
    {
      t, h := None, None;
      status := FetchData(ack, received);
      if status != Sht40Ok {
        return;
      }
      if wantTemperature {
        t := Some(temperature);
      }
      if wantHumidity {
        h := Some(humidity);
      }
    }
  }
}
