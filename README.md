# Bioreactor firmware model

This project is a Dafny model of the control firmware of an ESP32 bioreactor. The firmware reads the culture's sensors, drives the pumps, valves, fans and heater, and takes operator commands on the USB serial line. The model covers the logic above the raw bus transfers:

- **VisiFerm** (`visiferm.dfy`): the Modbus RTU driver for the Hamilton VisiFerm dissolved-oxygen probe on RS-485. It covers CRC-16/MODBUS, the 8-byte Read Holding Registers request, the bounded 64-byte receive buffer and its frame-complete test, response validation, and the LSW-first 32-bit float word. It also covers the `IDLE -> WAIT_DO -> WAIT_TEMP -> IDLE` polling cycle, with its 500 ms interval and 200 ms timeout.
- **Sht40** (`sht40.dfy`): the SHT40 air temperature and humidity sensor. It covers the Sensirion CRC-8, the 6-byte reply check and the datasheet conversions.
- **Atlas** (`atlas.dfy`): the Atlas Scientific EZO pH and temperature circuits. It covers the request/poll engine with its idle, waiting and error states, the status-byte dispatch, the 900 ms conversion timeout, the 15 s loss-of-communication decay, the reply clean-up, the per-circuit fault test and the calibration command tables.
- **IoExpander** (`io_expander.dfy`): the I/O expander that switches the eFuses. Its 24-bit output mirror is updated channel by channel and sent whole.
- **Tmc5041** and **Stepper** (`tmc5041.dfy`, `stepper_motor.dfy`): the 5-byte SPI datagram of the TMC5041 driver. Also the configuration writes and the speed, direction and current register sequence of each stepper pump.
- **DcPump** (`pump.dfy`): the signed PWM split of the DC pump.
- **TemperatureControl** (`temperature_controller.dfy`): the patch-heater decision, the clamped target air temperature, the PI bookkeeping and the heater output clamp to [0, 100].
- **PressureChamber** (`pressure_chamber.dfy`): the gas controller. It opens the O2, CO2 and air valves for durations computed from the error of each gas, and reports each valve's state against its deadline.
- **Bioreactor** (`bioreactor.dfy`): the orchestrator. It covers the phase setter, the loading of the setpoints from the preferences store, the eFuse channel map of the fans and valves, and the 32-bit interval gates of the periodic tasks. It also covers the pump speed broadcast, the heater level, and the LED door indicator.
- **SerialReader** (`serial_reader.dfy`): the operator command line. It covers the fifteen exact `STATE=` commands, the `sscanf` numeric setpoint commands and the pH calibration commands.
- **Mcu** (`mcu.dfy`): the shared machine arithmetic. It covers the unsigned 32-bit `millis()` subtraction and addition, the float-to-`uint32_t` cast and `constrain`.

Each stateful C++ object is a Dafny `class` with the source's fields. Each of its methods is tied to a pure step function on a snapshot of those fields, by `Model() == Step(old(Model()))`. The properties are proved as lemmas about the step functions. Time is a `now` parameter holding the 32-bit `millis()` value, and one call reads one `now`. Bus traffic appears as logs of what is sent and as parameters for what is received. Floats are `real`, or raw 32-bit patterns where the source reinterprets bytes.

The model follows the code where the code and its documentation part ways:

- The temperature controller's target air law uses one gain `KP_AIR` on both sides of the reference (include/temperature_controller.h:39), not an asymmetric gain.
- `include/SHT40.h` declares an older interface, with another address and command. The model follows src/SHT40.cpp.
- `include/main.h` and `src/main.cpp` are older versions as well: their `eBioreactorState` has five phases. The model numbers the fifteen phases that the current sources use, IDLE = 0, APPROV, PREPARE and RUN first as in that older enum, then the others.
- The code has no per-phase actuator tables and no timed phase transitions: `stateTimer` is only written. So both are absent from the model.
- A VisiFerm frame whose CRC does not match is still passed to `parseData`, and is stored when it parses.
- The Atlas calibration result is inverted: `calibrateSinglePoint` reports failure exactly when the command was acknowledged.
- When the chamber pressure falls below its floor, the pressure-floor branch of the gas controller adds `millis()` twice.
- The stepper constants use `^`, which C evaluates as exclusive or, not as a power.
- `setSpeed` of a stepper pump is documented as "+ is clockwise" (src/stepper_motor.cpp:48), but the code selects the clockwise mode for a negative speed (src/stepper_motor.cpp:56-64). The model follows the code.

## Model

| member | source | states |
|---|---|---|
| VisiFerm.ModbusCrc | src/VisiFermRS485.cpp:227-250 | the two nested loops compute `Crc16` of the first `len` bytes: seed 0xFFFF, shift right, XOR 0xA001 when the low bit was set |
| VisiFerm.Crc16CheckVector | src/VisiFermRS485.cpp:227-250 | the Modbus serial-line example request 01 03 00 00 00 0A has CRC 0xCDC5, sent as C5 CD |
| VisiFerm.WordSplitJoin | src/VisiFermRS485.cpp:131-134 | a 16-bit field split into its high and low byte joins back to itself |
| VisiFerm.WordJoinSplit | src/VisiFermRS485.cpp:211-212 | two bytes joined high-first into a word split back into the same two bytes |
| VisiFerm.WordZero | src/VisiFermRS485.cpp:211-213 | a status word is zero exactly when both of its bytes are zero |
| VisiFerm.Join32SplitJoin | src/VisiFermRS485.cpp:255-266 | a 32-bit pattern split into its most and least significant words joins back to itself |
| VisiFerm.Join32JoinSplit | src/VisiFermRS485.cpp:255-266 | two 16-bit words joined into a 32-bit pattern are recovered by splitting it |
| VisiFerm.TrailerReadBack | src/VisiFermRS485.cpp:136-137 | the receiver's reading of two trailer bytes (high byte last) equals a CRC exactly when they are that CRC's trailer, low byte first |
| VisiFerm.ReadRequestDecodes | src/VisiFermRS485.cpp:123-145 | a read request is 8 bytes: the device address, function 0x03, the wire start address `reg - 1` and the count high byte first, then the CRC of the first six bytes |
| VisiFerm.RequestHeaders | include/VisiFermRS485.h:113-115 | the oxygen request reads ten registers from wire address 0x0829 (manual register 2090), the temperature request ten from 0x0969 (manual register 2410) |
| VisiFerm.CrcMatchesIffTrailer | src/VisiFermRS485.cpp:168-175 | a complete frame passes the CRC test exactly when the two bytes at its declared end are the trailer of the CRC of the bytes before them |
| VisiFerm.OversizedByteCountNeverCompletes | src/VisiFermRS485.cpp:158-166 | with at most 64 buffered bytes, a byte count above 59 never yields a complete frame |
| VisiFerm.FloatWordRoundTrip | src/VisiFermRS485.cpp:255-266 | the probe's byte order for a float (least significant word first, each word high byte first) decodes back to the same 32-bit pattern |
| VisiFerm.FloatBytesRoundTrip | src/VisiFermRS485.cpp:255-266 | every four data bytes are the encoding of the pattern they decode to, so the decoding is one-to-one |
| VisiFerm.FloatDecodeExamples | src/VisiFermRS485.cpp:255-266 | `00 00 3F 80` decodes to the bits of 1.0f, and the swapped order `00 00 80 3F` does not |
| VisiFerm.ParseData | src/VisiFermRS485.cpp:184-221 | parsing fails only with BAD_FRAME or SENSOR_STATUS_ERROR |
| VisiFerm.ParseDataAccepts | src/VisiFermRS485.cpp:184-221 | both directions: a frame parses exactly when it has at least 5 bytes, function 0x03, a byte count of at least 20 that its length covers, and zero status words in bytes 11 to 14; the value is then the float in bytes 7 to 10 |
| VisiFerm.ResponseFrameLayout | src/VisiFermRS485.cpp:161-164 | a reply is address, function, byte count, the data and the CRC of all that, low byte first: `byteCount + 5` bytes |
| VisiFerm.ResponseCompletes | src/VisiFermRS485.cpp:158-177 | a well-formed measurement reply fits the 64-byte buffer, is complete once buffered and passes the CRC test |
| VisiFerm.ResponseParses | src/VisiFermRS485.cpp:205-220 | a well-formed reply parses to the float it carries when its status words are zero, and to SENSOR_STATUS_ERROR otherwise |
| VisiFerm.WrongFunctionIsBadFrame | src/VisiFermRS485.cpp:192-196 | a reply whose function code is not 0x03, an exception reply among them, is a BAD_FRAME |
| VisiFerm.Fill | src/VisiFermRS485.cpp:153-156 | the receive loop keeps the byte order, never exceeds 64 bytes and stops only when the buffer is full or the UART is empty; nothing else changes |
| VisiFerm.FillUnique | src/VisiFermRS485.cpp:153-156 | any move of UART bytes into the buffer that keeps their order, stays within 64 bytes and stops only when full or empty is the one `Fill` makes |
| VisiFerm.HandleFrameStep | src/VisiFermRS485.cpp:55-73 | handling a frame always empties the buffer |
| VisiFerm.UpdateStep | src/VisiFermRS485.cpp:44-96 | `update()` never lets the buffer exceed 64 bytes |
| VisiFerm.TryReadShape | src/VisiFermRS485.cpp:151-178 | `tryReadFrame` reports a frame exactly when the filled buffer holds a complete one, changes nothing but the buffer and the UART, and changes the status only to CRC_ERROR on a reported frame |
| VisiFerm.HandleFrameShape | src/VisiFermRS485.cpp:55-73 | a parsed frame ends with status OK and read time `now`: in WAIT_DO it stores the oxygen and sends the temperature request, in WAIT_TEMP it stores the temperature and goes IDLE; a failed parse only sets its status and empties the buffer |
| VisiFerm.CrcErrorNeverSurvivesUpdate | src/VisiFermRS485.cpp:48-74 | the CRC_ERROR that `tryReadFrame` sets is always overwritten in the same `update()`, by OK or by the parse status |
| VisiFerm.ParsedOxygenStored | src/VisiFermRS485.cpp:55-61 | in WAIT_DO any complete frame that parses, whether or not its CRC matched, is stored as the oxygen value with status OK, and the temperature request follows at once |
| VisiFerm.OxygenBeforeTemperature | src/VisiFermRS485.cpp:57-61 | WAIT_TEMP is entered only from WAIT_DO, on a parsed frame whose value became the oxygen reading, together with the temperature request |
| VisiFerm.CacheChangesOnlyOnParsedFrame | src/VisiFermRS485.cpp:55-70 | the oxygen changes only in WAIT_DO and the temperature only in WAIT_TEMP, and each only with status OK |
| VisiFerm.ParseFailureKeepsState | src/VisiFermRS485.cpp:55-73 | a complete frame that fails to parse sets the parse status and empties the buffer; the poll state, both readings, the read time and the requests sent stay |
| VisiFerm.TimeoutAbortsCycle | src/VisiFermRS485.cpp:76-83 | more than 200 ms without a complete frame returns to IDLE with TIMEOUT and an empty buffer; readings and read time stay |
| VisiFerm.OxygenReadOnlyWhenDue | src/VisiFermRS485.cpp:89-93 | from IDLE the oxygen request is sent, with status WAITING_RESPONSE, exactly when 500 ms have passed since the last read; otherwise nothing changes |
| VisiFerm.RequestsSent | src/VisiFermRS485.cpp:44-96 | an `update()` sends nothing, the oxygen request from IDLE, or the temperature request from WAIT_DO |
| VisiFerm.ProbeReplyAccepted | src/VisiFermRS485.cpp:48-74 | a well-formed oxygen reply with zero status words, arriving while in WAIT_DO, is stored with status OK and the temperature read follows |
| VisiFerm.VisiFermRS485.constructor | src/VisiFermRS485.cpp:6-22 | the driver starts IDLE, NOT_INITIALISED, with NaN readings, an empty buffer and zero timers |
| VisiFerm.VisiFermRS485.Begin | src/VisiFermRS485.cpp:28-38 | `begin()` empties the buffer, goes IDLE and reports NOT_INITIALISED; nothing else changes |
| VisiFerm.VisiFermRS485.SendReadRegisters | src/VisiFermRS485.cpp:123-145 | writes exactly the request `ReadRequest` describes and empties the buffer |
| VisiFerm.VisiFermRS485.SendReadDO | src/VisiFermRS485.cpp:101-107 | drains the UART, sends the oxygen request and waits in WAIT_DO from `now` |
| VisiFerm.VisiFermRS485.SendReadTemp | src/VisiFermRS485.cpp:112-118 | drains the UART, sends the temperature request and waits in WAIT_TEMP from `now` |
| VisiFerm.VisiFermRS485.DrainUart | src/VisiFermRS485.cpp:153-156 | the receive loop over the array buffer has exactly the effect of `Fill` |
| VisiFerm.VisiFermRS485.TryReadFrame | src/VisiFermRS485.cpp:151-178 | `tryReadFrame()` has the effect and the result of `TryReadFrameStep` |
| VisiFerm.CheckBuffered | src/VisiFermRS485.cpp:158-177 | on the buffered bytes: complete exactly when `FrameComplete` holds, and then the CRC test passes exactly when the trailer equals `ModbusCrc` of the bytes before it (`CrcMatches`) |
| VisiFerm.VisiFermRS485.CheckFrame | src/VisiFermRS485.cpp:158-177 | the length and CRC checks on the array buffer agree with `FrameComplete` and `CrcMatches` |
| VisiFerm.VisiFermRS485.HandleFrame | src/VisiFermRS485.cpp:55-73 | the frame branch of `update()` has the effect of `HandleFrameStep` |
| VisiFerm.VisiFermRS485.StoreReading | src/VisiFermRS485.cpp:57-69 | storing a parsed value has the effect of `StoreStep` |
| VisiFerm.VisiFermRS485.AwaitResponse | src/VisiFermRS485.cpp:48-86 | while a response is awaited, `update()` has the effect of `AwaitStep`: a complete frame is handled, otherwise the poll is abandoned with TIMEOUT once more than the response timeout has passed |
| VisiFerm.VisiFermRS485.Update | src/VisiFermRS485.cpp:44-96 | `update()` has the effect of `UpdateStep` and returns the new status |
| Sht40.ComputeCrc8 | src/SHT40.cpp:153-168 | the byte-by-byte, bit-by-bit loop computes the Sensirion CRC-8 (polynomial 0x31, seed 0xFF, no final XOR) of the first `len` bytes, where `len` is cut to 8 bits by the `uint8_t` loop counter |
| Sht40.Crc8Vectors | src/SHT40.cpp:139-147 | the CRC-8 of 0xBE 0xEF is 0x92, the example the code documents; of no bytes it is the seed 0xFF, and of 0x00 0x00 it is 0x81 |
| Sht40.Raw16 | src/SHT40.cpp:93-94 | a raw reading built from its high and low byte lies below 65536 |
| Sht40.Raw16Bytes | src/SHT40.cpp:93-94 | the raw reading splits back into its high byte and its low byte |
| Sht40.ConversionRanges | src/SHT40.cpp:96-97 | every raw reading converts to a temperature in [-45, 130] degrees Celsius and a humidity in [-6, 119] % rH, and the end points are reached at raw 0 and 65535 |
| Sht40.CrcTestsOfReply | src/SHT40.cpp:88-90 | a reply passes both CRC tests exactly when byte 2 is the CRC-8 of bytes 0-1 and byte 5 is the CRC-8 of bytes 3-4 |
| Sht40.EncodeReply | src/SHT40.cpp:88-94 | the reply a sensor sends for two readings is six bytes long |
| Sht40.BeginOutcome | src/SHT40.cpp:17-23 | `begin` succeeds exactly when the sensor has a bus, and then marks it initialised; without a bus nothing changes and the status is INVALID_I2C_BUS |
| Sht40.ErrorsKeepReadings | src/SHT40.cpp:63-100 | a fetch that returns any error leaves the stored temperature, humidity and initialised flag as they were |
| Sht40.FetchOutcomes | src/SHT40.cpp:63-100 | the status is NOT_INITIALISED exactly before `begin`, FAILED_TO_SEND_REQUEST exactly when the request is not acknowledged, WRONG_MSG_LENGTH exactly when the reply is not 6 bytes, INVALID_CRC exactly when a CRC test fails, and OK otherwise |
| Sht40.ReplyRoundTrip | src/SHT40.cpp:76-99 | a correctly encoded reply is accepted and decoded to the readings of its data bytes, each taken big-endian |
| Sht40.CorruptCrcRefused | src/SHT40.cpp:88-90 | a reply whose temperature CRC byte is wrong is refused with INVALID_CRC and the temperature stays |
| Sht40.UninitialisedClaimsConnected | src/SHT40.cpp:30-33 | before `begin`, `isConnected` returns true, because it returns the nonzero NOT_INITIALISED status as a bool |
| Sht40.SHT40.constructor | src/SHT40.cpp:6-10 | a new sensor is not initialised, reads 0 degrees and 0 % rH, and has a zeroed six-byte buffer |
| Sht40.SHT40.Begin | src/SHT40.cpp:17-23 | the new state and the status are those of the `begin` step |
| Sht40.SHT40.IsConnected | src/SHT40.cpp:30-38 | the answer is true before `begin`, and afterwards true exactly when the address is acknowledged |
| Sht40.SHT40.FetchData | src/SHT40.cpp:63-100 | the new state and the status are those of the fetch step on the acknowledgement and the received bytes |
| Sht40.SHT40.ReadReply | src/SHT40.cpp:81-85 | the loop copies the six received bytes into the buffer in order |
| Sht40.SHT40.GetData | src/SHT40.cpp:111-124 | the state follows the fetch step; on an error no output is written, and on success each requested output receives its stored reading |
| Atlas.Code | include/AtlasBase.h:7-17 | the status numbering starts at OK = 0, and only OK has code 0 |
| Atlas.FaultBoundaries | include/AtlasTempSensor.h:25-27 | the temperature circuit rejects exactly the values below -50 °C (-50 itself is valid); the pH circuit inherits the base class and rejects none |
| Atlas.CString | src/AtlasBase.cpp:72-89 | the text read from the poll buffer is its prefix up to the first NUL, which it does not contain |
| Atlas.TrimLeft | src/AtlasBase.cpp:146 | the result is a suffix of the input that starts with no white space, and everything dropped is white space |
| Atlas.TrimRight | src/AtlasBase.cpp:146 | the result is a prefix of the input that ends with no white space, and everything dropped is white space |
| Atlas.DropJunkSpec | src/AtlasBase.cpp:147-150 | what remains is a suffix starting with a digit, '-' or '.', or is empty, and no dropped character could begin a number |
| Atlas.CleanString | src/AtlasBase.cpp:143-152 | the trimming loop returns exactly the cleaned text `Cleaned(buf)` |
| Atlas.NoNumberCleansToEmpty | src/AtlasBase.cpp:143-152 | a text with no digit, '-' or '.' cleans to the empty string |
| Atlas.WriteStep | src/AtlasBase.cpp:161-175 | a write logs the command followed by its NUL, and the status becomes OK exactly when the circuit acknowledged, FAILED_TO_SEND_REQUEST otherwise |
| Atlas.ResponseText | src/AtlasBase.cpp:84-89 | the poll keeps at most 63 characters after the status byte, in order, and all of them when fewer arrived |
| Atlas.AgeMs | src/AtlasBase.cpp:122-125 | the age is 0xFFFFFFFF before the first successful reading, and `now - lastReadyTime` afterwards |
| Atlas.CalibrationTable | src/AtlasPHSensor.cpp:29-36 | pH 7, 4 and 10 give "Cal,mid,7.00", "Cal,low,4.00" and "Cal,high,10.00"; the pH circuit refuses only the 100 °C point, and the temperature circuit accepts only that point, as "Cal,100.00" |
| Atlas.CalibrationResultInverted | src/AtlasPHSensor.cpp:23-43 | an unsupported point is a DEVICE_ERROR that writes nothing; otherwise the command is written and, because the test `!writeI2C(...)` is true for OK, an acknowledged command reports FAILED_TO_SEND_REQUEST and an unacknowledged one OK |
| Atlas.CommLossDecay | src/AtlasBase.cpp:21-24 | more than 15 s after the last successful reading the cached value becomes 0; nothing else changes, and nothing changes before that or before any reading |
| Atlas.RequestOutcomes | src/AtlasBase.cpp:49-64 | a request while WAITING does nothing; otherwise "R" and its NUL are written, and the engine waits from `now` with status OK if acknowledged, or is in ERROR with FAILED_TO_SEND_REQUEST if not |
| Atlas.PollOutcomes | src/AtlasBase.cpp:70-116 | no data, PENDING or FAILED reschedule the poll 50 ms later and change nothing else; another non-success byte is a DEVICE_ERROR; a success stores a nonzero, non-fault value and returns to IDLE, and anything else is a PARSING_ERROR that clears the value |
| Atlas.NumberlessReplyIsParsingError | src/AtlasBase.cpp:91-99 | a success reply whose text holds no digit, '-' or '.' converts to 0.0 and is a PARSING_ERROR |
| Atlas.NotDueNoPoll | src/AtlasBase.cpp:26-28 | while WAITING and before the next poll is due, `update()` neither requests nor polls, and only the comm-loss check acts |
| Atlas.ConversionTimeout | src/AtlasBase.cpp:28-34 | a due poll more than 900 ms after the request sets ERROR and TIMEOUT_EXCEEDED without polling |
| Atlas.RequestPolledAtOnce | src/AtlasBase.cpp:26-38 | with one clock reading per call, from IDLE or ERROR an acknowledged request is polled in the same `update()` |
| Atlas.ErrorIsRetried | src/AtlasBase.cpp:26 | in ERROR the next `update()` writes exactly one new "R" request |
| Atlas.UpdateKeepsInvariant | src/AtlasBase.cpp:17-40 | `update()` keeps the cached value 0 or acceptable to the circuit, and keeps WAITING paired with status OK |
| Atlas.AtlasSensor.constructor | include/AtlasBase.h:62-72 | the default member values, with I2C address 0x63 for pH and 0x66 for temperature |
| Atlas.AtlasSensor.Begin | src/AtlasBase.cpp:7-11 | `begin()` sets and returns INITIALIZED and changes nothing else |
| Atlas.AtlasSensor.GetReading | src/AtlasPHSensor.cpp:10-13 | `getPH()` and `getTemperatureC()` return the cached value |
| Atlas.AtlasSensor.GetAgeMs | src/AtlasBase.cpp:122-125 | agrees with `AgeMs` |
| Atlas.AtlasSensor.WriteI2C | src/AtlasBase.cpp:161-175 | agrees with `WriteStep` |
| Atlas.AtlasSensor.RequestMeasurement | src/AtlasBase.cpp:49-64 | agrees with `RequestStep`, in its new state and its result |
| Atlas.AtlasSensor.PollOnce | src/AtlasBase.cpp:70-116 | agrees with `PollStep` and returns the new status |
| Atlas.AtlasSensor.AcceptReading | src/AtlasBase.cpp:91-105 | converting the cleaned text and storing or refusing it agrees with `AcceptStep` |
| Atlas.AtlasSensor.Update | src/AtlasBase.cpp:17-40 | agrees with `UpdateStep` |
| Atlas.AtlasSensor.CalibrateSinglePoint | src/AtlasTempSensor.cpp:27-45 | agrees with `CalibrateStep`, for both circuits |
| IoExpander.BitMaskIsShift | src/ioExpander.cpp:78 | the mask table is `1 << bit` for each of the eight bit positions |
| IoExpander.SetEfuseStep | src/ioExpander.cpp:65-83 | the mirror stays three bytes long |
| IoExpander.WriteBitSpec | src/ioExpander.cpp:76-83 | setting or clearing bit i makes it read as written and keeps every other bit of the byte |
| IoExpander.ByteFromBits | src/ioExpander.cpp:76-83 | two bytes that agree on all eight bits are equal |
| IoExpander.ChannelOnAt | src/ioExpander.cpp:72-74 | channel `8 p + k` is bit k of port byte p |
| IoExpander.OutOfRangeIgnored | src/ioExpander.cpp:67-70 | a channel at or above 24 leaves the mirror untouched |
| IoExpander.DistinctChannels | src/ioExpander.cpp:72-74 | two different channels differ in their port or in their bit |
| IoExpander.SetEfuseTarget | src/ioExpander.cpp:65-83 | after `setEfuse(c, s)` channel c reads `s` |
| IoExpander.SetEfuseOthers | src/ioExpander.cpp:65-83 | after `setEfuse(c, s)` every other channel reads what it read before |
| IoExpander.SetEfuseExact | src/ioExpander.cpp:65-83 | both halves together: the target channel takes the new state and every other channel is unchanged |
| IoExpander.SetEfuseIdempotent | src/ioExpander.cpp:65-83 | repeating the same `setEfuse` call changes nothing more |
| IoExpander.MirrorDeterminedByChannels | include/ioExpander.h:34-35 | the three-byte mirror is determined by the on/off state of its 24 channels |
| IoExpander.SetEfuseCommutes | src/ioExpander.cpp:65-83 | calls on two different channels commute: the mirror does not depend on their order |
| IoExpander.ChannelAfterTwo | src/ioExpander.cpp:65-83 | after two calls on different channels each channel reads the state of the call aimed at it, or its old state |
| IoExpander.IOExpander.constructor | include/ioExpander.h:33-35 | the mirror starts all off and nothing has been written |
| IoExpander.IOExpander.WriteBytes | src/ioExpander.cpp:22-28 | one transmission of the register and its data is logged, and the result is true exactly when the bus acknowledged |
| IoExpander.IOExpander.Begin | src/ioExpander.cpp:38-58 | all 24 pins are configured as outputs first; if that fails nothing else happens and the result is false; otherwise the mirror is cleared and written, and the result is whether that write succeeded |
| IoExpander.IOExpander.SetEfuse | src/ioExpander.cpp:65-86 | the mirror becomes `SetEfuseStep` of the old one; a valid channel rewrites all three output bytes, an invalid one writes nothing |
| IoExpander.IOExpander.UpdateMirror | src/ioExpander.cpp:76-83 | only the addressed mirror byte changes, to the old byte with the bit written |
| Tmc5041.ModeCode | include/tmc5041.h:17-25 | every ramp mode is one of the values 0 to 3 written to RAMPMODE |
| Tmc5041.WordBytes | src/tmc5041.cpp:44-47 | a word goes on the wire as four bytes |
| Tmc5041.WriteDatagram | src/tmc5041.cpp:40-49 | a write datagram is five bytes |
| Tmc5041.AssembleFour | src/tmc5041.cpp:59-64 | the read loop's `value = (value << 8) \| byte` over four bytes gives the bytes most significant first |
| Tmc5041.AddressByteFlags | src/tmc5041.cpp:43 | a write's address byte has bit 7 set and a read's has it clear; both keep the register's low seven bits |
| Tmc5041.WordRoundTrip | src/tmc5041.cpp:44-64 | assembling the data bytes of a write gives back the word written |
| Tmc5041.BytesRoundTrip | src/tmc5041.cpp:44-64 | splitting the word assembled from four bytes gives back those bytes |
| Tmc5041.WriteDatagramDecodes | src/tmc5041.cpp:40-49 | a write datagram decodes to the write flag, the register and the word written |
| Tmc5041.DriveTmc5041.constructor | src/tmc5041.cpp:9-14 | the driver starts uninitialised with nothing sent |
| Tmc5041.DriveTmc5041.Begin | src/tmc5041.cpp:21-32 | a missing SPI handle returns NULL_VARIABLE and sends nothing; otherwise 0x08 is written to GCONF, the driver is initialised and the result is OK |
| Tmc5041.DriveTmc5041.TmcWrite | src/tmc5041.cpp:40-49 | exactly one datagram, the flagged address then the word most significant byte first, is sent |
| Tmc5041.DriveTmc5041.TmcRead | src/tmc5041.cpp:57-67 | sends the address with bit 7 clear and four zero bytes, and returns the four answer bytes assembled most significant first |
| Stepper.ConversionAsWritten | include/stepper_motor.h:45-50 | with `^` evaluated as C's exclusive or, `10 ^ 6` is 12 and `2 ^ 23` is 21: the clock constant is 159.6 and one ml/min is between 1617 and 1618 register units |
| Stepper.Abs | src/stepper_motor.cpp:65 | the magnitude is non-negative and is the speed or its negation |
| Stepper.ConfigWrites | src/stepper_motor.cpp:36-39 | the first `n` configuration writes are `n` datagrams |
| Stepper.SpeedWrites | src/stepper_motor.cpp:68-70 | `setSpeed` sends three datagrams |
| Stepper.ConfigWritesAt | src/stepper_motor.cpp:36-39 | the i-th configuration datagram writes the i-th data word to the i-th register of the motor's list |
| Stepper.ConfigWritesDecode | src/stepper_motor.cpp:7-8 | `begin` sends exactly seven datagrams, and the i-th decodes to a write of the i-th data word to the i-th register of the motor's list |
| Stepper.AddressesSevenBit | src/stepper_motor.cpp:3-7 | every register address in the tables fits in seven bits, so the address the chip decodes is the table entry itself |
| Stepper.SpeedWritesDecode | src/stepper_motor.cpp:68-70 | decoded, `setSpeed` writes the run current to IHOLD_IRUN, the velocity to the speed register and the mode to RAMPMODE: registers 0x30, 0x27, 0x20 for the first motor, 0x50, 0x47, 0x40 for the second |
| Stepper.DirectionAndTorque | src/stepper_motor.cpp:56-66 | the run current is 0 exactly for a zero speed and 0x8F82 otherwise; the mode is clockwise (1) exactly for a negative speed and counterclockwise (2) otherwise |
| Stepper.SpeedRegisterSpec | src/stepper_motor.cpp:69 | the velocity register depends only on the speed's magnitude, is 0 at speed 0, never decreases as the magnitude grows, and below 2^32 is the magnitude times the factor, truncated |
| Stepper.ScaleMonotone | src/stepper_motor.cpp:69 | scaling by a positive factor keeps the order of two magnitudes |
| Stepper.ReverseChangesOnlyMode | src/stepper_motor.cpp:56-70 | negating a nonzero speed changes only the mode written; the run current and velocity writes are the same |
| Stepper.StopWrites | src/stepper_motor.cpp:80-88 | `stop` sends run current 0, velocity 0 and the counterclockwise mode |
| Stepper.MotorsDisjoint | src/stepper_motor.cpp:3-7 | the two motors of one chip never write the same register |
| Stepper.StepperMotor.constructor | src/stepper_motor.cpp:16-21 | a motor starts uninitialised, with its drive and name |
| Stepper.StepperMotor.Begin | src/stepper_motor.cpp:28-43 | a null drive gives NULL_VARIABLE, a name past MOTOR_2 gives INCORRECT_VARIABLE, both sending nothing; otherwise the seven configuration writes go out in order and the motor is initialised |
| Stepper.StepperMotor.SetSpeed | src/stepper_motor.cpp:51-73 | before `begin` the result is NOT_INITIALISED and nothing is sent; afterwards the three speed datagrams are sent and the result is OK |
| Stepper.StepperMotor.Stop | src/stepper_motor.cpp:80-88 | `stop` is `setSpeed(0)`, refused before `begin` |
| DcPump.ClampSpeed | src/pump.cpp:27 | `constrain(speed, -255, 255)`: the result lies in [-255, 255], equals the speed inside that range and the nearer bound outside it |
| DcPump.SetSpeedOutputs | src/pump.cpp:24-42 | every `setSpeed` writes the first input, then the second; both duties lie in [0, 255] and at most one is nonzero |
| DcPump.SetSpeedRoundTrip | src/pump.cpp:24-42 | the first duty minus the second is the clamped speed, so the speed itself whenever it lies in [-255, 255] |
| DcPump.SetSpeedDirection | src/pump.cpp:28-41 | the first input is driven exactly for a positive speed and the second exactly for a negative one; a zero speed is exactly `stop()` |
| DcPump.SaturatesAtFullDuty | src/pump.cpp:27-37 | any speed at or beyond ±255 drives full duty 255 in its direction |
| TemperatureControl.HeaterOutput | src/temperature_controller.cpp:42 | the stored duty is within [0, 100]: 0 for a non-positive control, 100 from 100 up, and the control truncated in between |
| TemperatureControl.DerivativeUnused | include/temperature_controller.h:36-38 | with KD = 0 the derivative never reaches the heater: the PID sum is `20 e + 0.0001 I` whatever the derivative |
| TemperatureControl.ElapsedPositive | src/temperature_controller.cpp:33-34 | between updates at different milliseconds the elapsed time is positive, with wrap-around |
| TemperatureControl.PatchRecomputed | src/temperature_controller.cpp:26 | the patch heater is on exactly when the water is more than the offset below the reference, whatever its previous state |
| TemperatureControl.TargetAirTempSpec | src/temperature_controller.cpp:29-30 | the target lies in [0, max], is `2 (ref - water) + ref` when that is in range, never rises as the water warms, and is the reference when the water is at the reference |
| TemperatureControl.PidBookkeeping | src/temperature_controller.cpp:34-39 | the integral grows by `error * dt`, the error and the time are remembered, and the reference and constants stay |
| TemperatureControl.HeaterDuty | src/temperature_controller.cpp:41-42 | the duty is in [0, 100] and is the clamp of `20 e + 0.0001 I` with the new error and integral |
| TemperatureControl.ZeroErrorHoldsIntegral | src/temperature_controller.cpp:35-38 | when the air is at its target the integral keeps its value and the remembered error is 0 |
| TemperatureControl.LargeErrorSaturates | src/temperature_controller.cpp:35-42 | an air error of at least 5 degrees with a non-negative integral drives the heater to 100 |
| TemperatureControl.SetReferenceOnlyReference | src/temperature_controller.cpp:84-87 | setting the reference changes the reference and nothing else |
| TemperatureControl.InitialState | src/temperature_controller.cpp:6-13 | the controller starts at 37 degrees with zero integral, zero previous error, the heater at 0 and the patch off |
| TemperatureControl.TemperatureController.constructor | src/temperature_controller.cpp:6-13 | the object starts in `InitialController` |
| TemperatureControl.TemperatureController.Update | src/temperature_controller.cpp:22-42 | `update()` has the effect of `UpdateStep` |
| TemperatureControl.TemperatureController.GetHeaterPower | src/temperature_controller.cpp:67-70 | the stored duty, as a float |
| TemperatureControl.TemperatureController.SetReferenceTemperature | src/temperature_controller.cpp:84-87 | has the effect of `SetReferenceStep` |
| PressureChamber.ControllerConstants | include/pressure_chamber_controller.h:52-79 | the supply pressure exceeds the chamber pressure, so every gas flows in; the floor is 2 psi below the set point; the small-error factors are 1.5 and 4 |
| PressureChamber.TimeBeforeClosingMonotone | src/pressure_chamber_controller.cpp:113-139 | for O2, CO2 and air the opening time is 0 at error 0 and strictly increasing in the error; for SAFETY and MAX_VALVES it is always 0 |
| PressureChamber.DisabledChangesNothing | src/pressure_chamber_controller.cpp:32-33 | a disabled chamber ignores updates and reports every valve closed |
| PressureChamber.O2Branches | src/pressure_chamber_controller.cpp:42-55 | O2 at or above its reference opens no O2 valve; below it, the O2 time uses factor 1.5 under a 10-point deficit and 0.5 from there on; above it, the air time is at least 40 times that of the relative excess |
| PressureChamber.Co2Branches | src/pressure_chamber_controller.cpp:57-74 | CO2 at or above its reference opens no CO2 valve; below it, the CO2 time uses factor 4 under a 15000 ppm deficit and 1 from there on; above it, the air time is at least 30 times that of the relative excess |
| PressureChamber.AirIsMaxOfCandidates | src/pressure_chamber_controller.cpp:43-81 | the air time is the largest of its active candidates (O2 excess, CO2 excess, low pressure) and equals one of them, 0 when none is active |
| PressureChamber.DeadlinesOverwritten | src/pressure_chamber_controller.cpp:84-86 | an enabled update sets all three deadlines from `now` and the new times alone; earlier deadlines play no part |
| PressureChamber.MinMaxNeverRead | src/pressure_chamber_controller.cpp:30-101 | `update` never reads the min and max references kept beside each reference |
| PressureChamber.BalancedChamberAllClosed | src/pressure_chamber_controller.cpp:30-101 | with both gases at their references and the pressure above the floor, every deadline is `now`, so every valve reads closed at that instant |
| PressureChamber.PressureFloorAddsClockTwice | src/pressure_chamber_controller.cpp:77-86 | below the pressure floor with both gases balanced, the air deadline is `now + (now + 1000)`: the clock is added twice |
| PressureChamber.ValveOpenSpec | src/pressure_chamber_controller.cpp:146-165 | O2 and air are open exactly while their deadline is ahead of the clock; CO2 also needs the CO2 sensor OK or INITIALIZED; SAFETY and MAX_VALVES are never open |
| PressureChamber.SetReferenceSpec | src/pressure_chamber_controller.cpp:172-189 | setting the O2 or CO2 reference moves its dead-zone bounds with it (±0.1 % and ±100 ppm) and changes nothing else; the other valves are ignored |
| PressureChamber.InitialReferences | src/pressure_chamber_controller.cpp:6-22 | the chamber starts disabled at 85 % O2 (84.9 to 85.1) and 50000 ppm CO2 (49900 to 50100) |
| PressureChamber.PressureChamberController.constructor | src/pressure_chamber_controller.cpp:6-22 | the object starts in `InitialChamber` |
| PressureChamber.PressureChamberController.SetPressureChamberState | include/pressure_chamber_controller.h:26 | enables or disables the chamber and changes nothing else |
| PressureChamber.PressureChamberController.Update | src/pressure_chamber_controller.cpp:30-101 | `update()` has the effect of `UpdateStep` |
| PressureChamber.PressureChamberController.SetReferenceLevel | src/pressure_chamber_controller.cpp:172-189 | has the effect of `SetReferenceStep` |
| Bioreactor.PhaseCodeRoundTrip | src/bioreactor_controller.cpp:69-70 | phase codes 0 to 14 and the fifteen phases correspond one to one; every phase's code is below MAX_STATE |
| Bioreactor.PhaseOf | src/bioreactor_controller.cpp:69-73 | a code names a phase exactly when it lies in [0, MAX_STATE) |
| Bioreactor.GetFloat | src/bioreactor_controller.cpp:88-92 | `getFloat` returns the stored float when the key holds one, and the default otherwise |
| Bioreactor.GetShort | src/bioreactor_controller.cpp:93 | `getShort` returns the stored short when the key holds one, and the default otherwise |
| Bioreactor.LoadDefaults | src/bioreactor_controller.cpp:88-93 | an empty store loads 37.0 degrees, 50000 ppm CO2, 85 % O2 and the IDLE phase |
| Bioreactor.LoadedStateUnchecked | src/bioreactor_controller.cpp:93-101 | the loaded phase code has no range check, so a stored code at or above MAX_STATE becomes the current phase code although it names no phase |
| Bioreactor.PersistedPhaseReloads | src/bioreactor_controller.cpp:76-93 | the code `setBioreactorState` persists under "state" is the phase the next boot loads |
| Bioreactor.ApplyEfuses | src/bioreactor_controller.cpp:115-150 | a series of `setEfuse` calls keeps the three-byte mirror three bytes long |
| Bioreactor.ApplyEfusesChannel | src/bioreactor_controller.cpp:115-150 | after a series of `setEfuse` calls, each channel below 24 holds the last state written to it; a channel the series never names holds its earlier state |
| Bioreactor.Prefix | src/bioreactor_controller.cpp:115-124 | the mirror after the first k calls of a series is a three-byte mirror |
| Bioreactor.ApplyEfusesSnoc | src/bioreactor_controller.cpp:115-124 | one more call extends both the mirror and the transmission log by exactly that call's update and its one frame, and only a channel below 24 sends a frame |
| Bioreactor.Series | src/bioreactor_controller.cpp:115-150 | the calls of a setter are one per listed channel, in the argument order |
| Bioreactor.LastWriteOfDistinct | src/bioreactor_controller.cpp:115-150 | in a series on pairwise different channels, the last write on each channel is its own argument |
| Bioreactor.LastWriteAbsent | src/bioreactor_controller.cpp:115-150 | a series that never names a channel leaves no write on it |
| Bioreactor.ApplyDistinctEfuses | src/bioreactor_controller.cpp:115-150 | a series on different channels below 24 sets each of them to its argument and leaves every other channel unchanged |
| Bioreactor.FanChannels | include/pins.h:42-50 | `setFansState` drives heater, circulation, right, left, PCB, low-volt and high-volt on channels 8, 6, 16, 17, 7, 18 and 19, each to its own argument, and no other channel |
| Bioreactor.ValveChannels | include/pins.h:34-36 | `setValvesState` drives supply, circulation and return on channels 0, 1 and 2, and no other channel |
| Bioreactor.ChamberValveChannels | include/pins.h:38-40 | `setPressureChamberValvesState` drives O2, CO2 and air on channels 3, 4 and 5, and no other channel |
| Bioreactor.ChannelGroupsDisjoint | include/pins.h:34-50 | the fans, the process valves and the gas valves share no channel |
| Bioreactor.DueSpec | src/bioreactor_controller.cpp:164 | the `millis() - last > interval` gate never fires when no time has passed, and e milliseconds after `last` it fires exactly when e exceeds the interval, even when the 32-bit counter wraps |
| Bioreactor.BioreactorController.constructor | src/bioreactor_controller.cpp:4-33 | the globals at start-up: phase TEST, every timestamp 0, the LED last state IDLE, the mirror all off, the four pumps wired to their driver and motor and not yet initialised |
| Bioreactor.BioreactorController.SetBioreactorState | src/bioreactor_controller.cpp:67-79 | a code at or above MAX_STATE changes neither the phase, nor the store, nor the timer; a valid code becomes the phase, is stored under "state" and the timer restarts at now; nothing else changes |
| Bioreactor.BioreactorController.BeginPreferences | src/bioreactor_controller.cpp:84-103 | the temperature reference, then the CO2 and O2 references are set from the store or their defaults, and the phase becomes the stored code unchecked; no other global changes |
| Bioreactor.BioreactorController.SetEfuseOf | src/bioreactor_controller.cpp:117-123 | one `setEfuse` call of a series advances the mirror and the I2C log by one step of the series |
| Bioreactor.BioreactorController.SetFansState | src/bioreactor_controller.cpp:115-124 | the mirror and the I2C log become those of the seven fan calls applied in source order |
| Bioreactor.BioreactorController.SetValvesState | src/bioreactor_controller.cpp:132-137 | the mirror and the I2C log become those of the three valve calls applied in source order |
| Bioreactor.BioreactorController.SetPressureChamberValvesState | src/bioreactor_controller.cpp:145-150 | the mirror and the I2C log become those of the O2, CO2 and air calls applied in source order |
| Bioreactor.BioreactorController.SetPressureChamberState | src/bioreactor_controller.cpp:192-195 | only the chamber controller's enable flag changes, to the argument |
| Bioreactor.BioreactorController.SetPumpsSpeed | src/bioreactor_controller.cpp:162-173 | when the interval has not passed, nothing is sent and the time is kept; otherwise driver 1 gets the approv and culture-2 datagrams, driver 3 the circulation and culture-1 datagrams, and the time becomes now; both drivers keep their initialisation flag and no other global changes |
| Bioreactor.BioreactorController.DrivePumps | src/bioreactor_controller.cpp:166-169 | each driver receives exactly the datagrams of its two motors, in call order, and keeps its initialisation flag |
| Bioreactor.BioreactorController.SetHeatersState | src/bioreactor_controller.cpp:180-186 | the heater level becomes the controller's power when on and OFF otherwise, and never exceeds 100; no other global changes |
| Bioreactor.BioreactorController.UpdateTemperatureController | src/bioreactor_controller.cpp:200-213 | when the interval has not passed, the controller is untouched; otherwise the time becomes now and the controller takes one step on the water temperature and the air temperature, 0 when the SHT40 read failed; no other global changes |
| Bioreactor.BioreactorController.UpdatePressureChamberController | src/bioreactor_controller.cpp:218-244 | the controller steps, with the fixed 25 * 6895 Pa pressure, only when the interval has passed, and then the time becomes now; the three gas valves follow the controller's valve states on every call, and the I2C log grows by exactly those three `setEfuse` transmissions; no other global changes |
| Bioreactor.BioreactorController.UpdateLedState | src/bioreactor_controller.cpp:292-304 | the door state is sent, stored and timestamped exactly when it differs from the last one sent or the interval has passed; otherwise nothing changes, neither in the LED bookkeeping nor in any other global |
| SerialReader.SkipSpaceSpec | src/serialReader.cpp:70 | `%f` skips exactly the leading run of white space and stops at the first other character |
| SerialReader.MatchLiteralSpec | src/serialReader.cpp:70 | walking the format literal along the line, the line ends first exactly when it is a proper prefix of the literal, and the literal matches exactly when it is a prefix of the line, leaving the rest of it |
| SerialReader.DifferAt | src/serialReader.cpp:70-101 | a line that differs from the literal at some position makes `sscanf` return 0 |
| SerialReader.ScanFloatSpec | src/serialReader.cpp:70-101 | `sscanf(line, "<literal>%f")` returns EOF exactly when the line is a proper prefix of the literal or the literal followed by white space only, converts a value exactly when the literal is followed by text that converts, and returns 0 otherwise |
| SerialReader.ScanCommand | src/serialReader.cpp:70-101 | the literal followed by a convertible number yields that number |
| SerialReader.ExactActionsNone | src/serialReader.cpp:10-69 | a line equal to no command of a table of exact comparisons makes none of its calls |
| SerialReader.ExactActionsHit | src/serialReader.cpp:10-69 | in a table of different names, the line naming one command makes exactly that command's call |
| SerialReader.CommandTablesDistinct | src/serialReader.cpp:10-69 | the fifteen `STATE=` names are pairwise different, and so are the three `CALIB-PH=` names |
| SerialReader.NoStateCall | src/serialReader.cpp:10-69 | a line not starting with `S` makes no `STATE=` call |
| SerialReader.NoCalibrationCall | src/serialReader.cpp:113-124 | a line not starting with `CA` makes no `CALIB-PH=` call |
| SerialReader.NoTemperatureCall | src/serialReader.cpp:70-75 | a line not starting with `T` does not run the `TEMP=` branch |
| SerialReader.NoPhCall | src/serialReader.cpp:76-80 | a line not starting with `PH` does not run the `PH=` branch |
| SerialReader.NoDoCall | src/serialReader.cpp:81-85 | a line not starting with `D` does not run the `DO=` branch |
| SerialReader.NoCo2Call | src/serialReader.cpp:86-93 | a line not starting with `CO` does not run the `CO2=` branch |
| SerialReader.NoO2Call | src/serialReader.cpp:94-101 | a line not starting with `O` does not run the `O2=` branch |
| SerialReader.StateLine | src/serialReader.cpp:10-69 | a line starting with `S` reaches only the `STATE=` comparisons |
| SerialReader.StateCommand | src/serialReader.cpp:10-69 | each of the fifteen `STATE=` lines makes exactly one call, the phase change of its table entry: APPROV, HEAT to PREPARE, CULTURE to RUN, RETURN to GROWTH_LIQUID_RETURN, CLEANING to CLEANING_LIQUID_APPROV, and so on |
| SerialReader.CalibrationLine | src/serialReader.cpp:113-124 | a line starting with `CA` reaches only the `CALIB-PH=` comparisons |
| SerialReader.CalibrationCommand | src/serialReader.cpp:113-124 | `CALIB-PH=4`, `=7` and `=10` each make exactly one call, the single-point calibration at that pH |
| SerialReader.CalibDoIgnored | src/serialReader.cpp:125-132 | a `CALIB-DO=` line makes no call at all |
| SerialReader.CalibDoIsNotPh | src/serialReader.cpp:113-132 | a `CALIB-DO=` line matches none of the `CALIB-PH=` commands |
| SerialReader.PumpSpeedIgnored | src/serialReader.cpp:102-112 | a `PUMP-SPEED=` line makes no call, whatever its numbers |
| SerialReader.TemperatureLine | src/serialReader.cpp:70-75 | a line starting with `T` reaches only the `TEMP=` branch |
| SerialReader.TemperatureCommand | src/serialReader.cpp:70-75 | `TEMP=<v>` sets the temperature reference to v and then persists v under "temperature", and makes no other call |
| SerialReader.PhLine | src/serialReader.cpp:76-80 | a line starting with `PH` reaches only the `PH=` branch |
| SerialReader.PhCommand | src/serialReader.cpp:76-80 | `PH=<v>` only persists v under "ph" |
| SerialReader.DoLine | src/serialReader.cpp:81-85 | a line starting with `D` reaches only the `DO=` branch |
| SerialReader.DoCommand | src/serialReader.cpp:81-85 | `DO=<v>` only persists v under "do" |
| SerialReader.Co2Line | src/serialReader.cpp:86-93 | a line starting with `CO` reaches only the `CO2=` branch |
| SerialReader.Co2Command | src/serialReader.cpp:86-93 | `CO2=<v>` persists v under "CO2", then sets the chamber's CO2 reference to v |
| SerialReader.O2Line | src/serialReader.cpp:94-101 | a line starting with `O` reaches only the `O2=` branch |
| SerialReader.O2Command | src/serialReader.cpp:94-101 | `O2=<v>` persists v under "O2", then sets the chamber's O2 reference to v |
| SerialReader.EmptyLineScan | src/serialReader.cpp:70-101 | on an empty line every `sscanf` returns EOF |
| SerialReader.EmptyLineNoExact | src/serialReader.cpp:10-69 | an empty line matches no exact command |
| SerialReader.EmptyLineFiresEveryBranch | src/serialReader.cpp:70-101 | because EOF is nonzero, an empty line runs every numeric branch, in source order, with whatever the parse buffer held |
| SerialReader.StateChangesAppend | src/serialReader.cpp:10-132 | the phase changes of two call lists in a row add up |
| SerialReader.ExactStateChanges | src/serialReader.cpp:10-69 | a table of phase-change commands with different names changes the phase once when the line is one of its commands and never otherwise |
| SerialReader.ExactNoStateChanges | src/serialReader.cpp:113-124 | a table without phase changes makes none, whatever the line |
| SerialReader.NumericNoStateChanges | src/serialReader.cpp:70-101 | the numeric branches never change the phase |
| SerialReader.TableActions | src/serialReader.cpp:10-124 | every `STATE=` command changes the phase, and no `CALIB-PH=` command does |
| SerialReader.OnePhaseChangePerLine | src/serialReader.cpp:10-132 | a line changes the phase exactly once when it is one of the fifteen `STATE=` commands, and never otherwise |
| SerialReader.OrdinaryLineIgnored | src/serialReader.cpp:10-132 | a line whose first character is none of S, T, P, D, C and O makes no call |
| SerialReader.PersistOne | src/serialReader.cpp:70-101 | one `putFloat` beside a call that stores nothing updates exactly that key |
| SerialReader.TemperaturePersists | src/serialReader.cpp:70-75 | after `TEMP=<v>` the store differs only in "temperature", which holds v |
| SerialReader.PhPersists | src/serialReader.cpp:76-80 | after `PH=<v>` the store differs only in "ph", which holds v |
| SerialReader.DoPersists | src/serialReader.cpp:81-85 | after `DO=<v>` the store differs only in "do", which holds v |
| SerialReader.Co2Persists | src/serialReader.cpp:86-93 | after `CO2=<v>` the store differs only in "CO2", which holds v |
| SerialReader.O2Persists | src/serialReader.cpp:94-101 | after `O2=<v>` the store differs only in "O2", which holds v |
| SerialReader.TemperatureReloads | src/serialReader.cpp:74 | a temperature set with `TEMP=<v>` is the reference the next boot loads |
| SerialReader.Co2Reloads | src/serialReader.cpp:89 | a CO2 level set with `CO2=<v>` is the reference the next boot loads |
| SerialReader.O2Reloads | src/serialReader.cpp:97 | an O2 level set with `O2=<v>` is the reference the next boot loads |

## Left out

- Raw transports are not modelled: HardwareSerial, TwoWire and SPI calls, `Wire.begin`, `SPI.begin`, `pinMode`, `digitalWrite` and `analogWrite`. What a bus returns is a parameter (`ack`, `reply`, `received`, `miso`, `incoming`), and what is sent is appended to a log.
- Floating-point rounding is not modelled: controller arithmetic is over `real`. The `memcpy` reinterpretation in `modbusToFloat` is kept as a bit pattern, and the bit pattern is not given a value.
- `String::toFloat` (Atlas) and the `%f` conversion of `sscanf` (serial reader) are uninterpreted function parameters. The never-initialised `sscanf` buffer read after an EOF return is the parameter `stale`.
- Blocking delays are not modelled: `ClearI2CBuffer`, the calibration `delay`, the SHT40 10 ms read delay and `delay(1000)` in the main loop.
- `cleanSerialBuffer` and `_serial.flush` of the VisiFerm driver are not modelled beyond emptying the pending input. `VisiFerm.Receive` stands for the UART delivering bytes. It is the environment, not an operation of the driver.
- `heater.update()`, `co2Sensor.update()`, `o2Sensor.getO2()` and `co2Sensor.getCO2()` are foreign code, so their readings enter `UpdatePressureChamberController` as parameters. The O2 sensor, the GMP251 CO2 sensor, the Pyroscience stubs, the I2C multiplexer, the relays, the SSR relay's `setLevel`, the watchdog, the limit switch and the LED controller are not part of this model. The door state and the LED messages are a parameter and a log.
- `beginBioreactorController` only calls the `begin` of each object, and each of those is modelled on its own. `updateSensors` only calls the `update` of each sensor, and each of those is modelled on its own. `Pump::begin` only sets pin modes.
- `printBioreactorStateToSerial`, the `Serial` prints in `TemperatureController::update` and the prints in the `CO2=` and `O2=` commands are output only and not modelled.
- The phase numbering and MAX_STATE = 15 are an assumption: the current header declaring `eBioreactorState` is not part of this model. Heater `OFF` is taken as 0.
- `TEMPERATURE_REFERENCE_OFFSET`, `MAX_TARGET_AIR_TEMP` and the orchestrator's task intervals are used but not defined in the headers available, so they are constructor parameters. The initial `prevTime` of the temperature controller is uninitialised in the source, so it is a parameter too.
- TemperatureControl.TemperatureController.Update: requires `now != prevTime`, because the derivative term divides by the elapsed time. A float division by zero has no `real` counterpart. The orchestrator meets this through its interval gate, under the single clock reading described below.
- TemperatureControl.UpdateStep: requires `now != prevTime`, for the same reason.
- Mcu.CastToU32: a float-to-`uint32_t` conversion of a negative or too-large value is undefined in C++. The model saturates it.
- PressureChamber.AirCandidate: a gas in excess while its measured concentration is 0, which a negative `CO2=` or `O2=` reference allows, makes the C division at src/pressure_chamber_controller.cpp:45,60 give infinity. The model takes that time as 2^32 ms, which the cast then saturates. Floating-point infinity itself is not modelled.
- One clock reading per call: every `millis()` call within one modelled call reads the same `now`. The source reads the clock again after blocking bus transfers, and the model does not capture a tick passing in between. The next three lines name the members this affects.
- Atlas.RequestPolledAtOnce: holds under one clock reading per call. In the source `_cmdSentAt` and `_nextPollDue` are set after the I2C write (src/AtlasBase.cpp:61-62), so the poll can slip to the next `update()`.
- Bioreactor.BioreactorController.Valid: assumes `temperature.prevTime == lastTemperatureControllerTime`. In the source the temperature task stores `millis()`, the SHT40 read then blocks for 10 ms, and the controller reads `millis()` again (src/bioreactor_controller.cpp:206-211, src/temperature_controller.cpp:33).
- Bioreactor.BioreactorController.SetPumpsSpeed: records `now`, while the source reads the timestamp after the four SPI `setSpeed` calls (src/bioreactor_controller.cpp:171).
- Bioreactor.BioreactorController.UpdateTemperatureController: it takes the air reading (None when the SHT40 read fails) and the water reading as parameters. It does not call the modelled `Sht40.SHT40.GetData` and `Atlas.AtlasSensor.GetReading` itself.
- The TMC5041 `VMAX` register address is declared but never defined, so it is not modelled.
- The getters that only read a field (`getOxygen`, `getTemperature` and `getStatus` of the VisiFerm driver, and `getLastTemperature` and `getLastHumidity` of the SHT40) are functions without a contract of their own.
- The relative order of writes on different buses or chip selects is not kept: each driver, channel mirror and log keeps its own order. For example, `driveStepper1` and `driveStepper3` share one SPI bus with two chip selects, and `setPumpsSpeed` writes drive 1, drive 3, drive 3, drive 1 (src/bioreactor_controller.cpp:166-169). The model keeps one log per driver, so that interleaving is lost.
