/** Request/poll engine shared by the Atlas Scientific EZO circuits on I2C
    (ASCII protocol), with its two variants: the EZO-pH and the EZO-RTD
    temperature circuit.

    A measurement is requested with the command "R"; the circuit then
    answers every poll with a status byte (0x01 success, 0x02 failed, 0xFE
    still converting) followed by the value as text. The bus is abstracted:
    whether a write is acknowledged and what a poll returns are inputs, and
    every command written is kept in a log. `String::toFloat` is the
    uninterpreted parameter `toFloat`, of which only `toFloat("") == 0.0`
    is assumed. */
module Atlas {
  import opened Mcu

  /** `eAtlasStatus`, in declaration order: `AtlasOk` is 0. */
  datatype AtlasStatus =
    | AtlasOk
    | AtlasNotInitialised
    | AtlasInitialized
    | AtlasFailedToSendRequest
    | AtlasTimeoutExceeded
    | AtlasParsingError
    | AtlasDeviceError

  /** The numeric value of an `eAtlasStatus`. */
  function Code(s: AtlasStatus): (n: nat)
    ensures n == 0 <==> s == AtlasOk
  {
    match s
    case AtlasOk => 0
    case AtlasNotInitialised => 1
    case AtlasInitialized => 2
    case AtlasFailedToSendRequest => 3
    case AtlasTimeoutExceeded => 4
    case AtlasParsingError => 5
    case AtlasDeviceError => 6
  }

  datatype CalibrationValue = CalPh4 | CalPh7 | CalPh10 | CalTemp100C

  datatype InternalState = StIdle | StWaiting | StError

  /** The two circuits built on the base engine. */
  datatype Variant = PhSensor | TempSensor

  const SUCCESS_STATUS_BYTE: byte := 0x01
  const FAILED_STATUS_BYTE: byte := 0x02
  const PENDING_STATUS_BYTE: byte := 0xFE
  const RESPONSE_BUFFER_SIZE: nat := 64
  const NB_POLL_INTERVAL_MS: u32 := 50
  const NB_MAX_CONVERSION_MS: u32 := 900
  const COMM_LOSS_TIMEOUT_MS: u32 := 15000
  const NEGATIVE_TEMP_FAULT_C: real := -50.0
  const PH_I2C_ADDRESS: byte := 0x63
  const TEMP_I2C_ADDRESS: byte := 0x66

  /** The measurement command "R". */
  const MEASUREMENT_REQUEST_CMD: string := "R"

  /** `isValueFault`: the base class accepts every value (so the pH circuit
      rejects only the 0.0 that `pollOnce` itself refuses); the temperature
      circuit rejects anything below -50 °C. */
  predicate IsValueFault(variant: Variant, v: real)
  {
    match variant
    case PhSensor => false
    case TempSensor => v < NEGATIVE_TEMP_FAULT_C
  }

  /** -50.0 °C itself is a valid temperature; every colder value is a fault;
      the pH circuit has no fault values at all. */
  lemma FaultBoundaries(v: real)
    ensures !IsValueFault(TempSensor, NEGATIVE_TEMP_FAULT_C)
    ensures IsValueFault(TempSensor, v) <==> v < -50.0
    ensures !IsValueFault(PhSensor, v)
  {
  }

  // ---------------------------------------------------------------------
  // Cleaning the response text

  /** `isspace` of the C library, which `String::trim` uses. */
  predicate IsSpace(c: char)
  {
    c == ' ' || c == '\t' || c == '\n' || c == '\r' || c == '\U{000B}' || c == '\U{000C}'
  }

  /** A character that may begin a number: a digit, '-' or '.'. */
  predicate IsNumberStart(c: char)
  {
    ('0' <= c <= '9') || c == '-' || c == '.'
  }

  /** The C string held in the poll buffer: the characters up to the first NUL. */
  function CString(buf: seq<char>): (s: seq<char>)
    ensures |s| <= |buf| && s == buf[..|s|]
    ensures '\0' !in s
    ensures |s| < |buf| ==> buf[|s|] == '\0'
  {
    if |buf| == 0 || buf[0] == '\0' then [] else [buf[0]] + CString(buf[1..])
  }

  function TrimLeft(s: string): (r: string)
    ensures |r| <= |s| && r == s[|s| - |r|..]
    ensures r == [] || !IsSpace(r[0])
    ensures forall i :: 0 <= i < |s| - |r| ==> IsSpace(s[i])
  {
    if |s| > 0 && IsSpace(s[0]) then TrimLeft(s[1..]) else s
  }

  function TrimRight(s: string): (r: string)
    ensures |r| <= |s| && r == s[..|r|]
    ensures r == [] || !IsSpace(r[|r| - 1])
    ensures forall i :: |r| <= i < |s| ==> IsSpace(s[i])
  {
    if |s| > 0 && IsSpace(s[|s| - 1]) then TrimRight(s[..|s| - 1]) else s
  }

  /** `String::trim()`: leading and trailing white space removed. */
  function Trim(s: string): string
  {
    TrimRight(TrimLeft(s))
  }

  /** The characters `cleanString` strips in front of the number. */
  function DropJunk(s: string): string
  {
    if |s| > 0 && !IsNumberStart(s[0]) then DropJunk(s[1..]) else s
  }

  /** What `cleanString` keeps of the text: the trimmed text from its first
      character that can begin a number; nothing when there is none. */
  lemma {:induction false} DropJunkSpec(s: string)
    ensures var r := DropJunk(s);
      && |r| <= |s| && r == s[|s| - |r|..]
      && (r == [] || IsNumberStart(r[0]))
      && (forall i :: 0 <= i < |s| - |r| ==> !IsNumberStart(s[i]))
    decreases |s|
  {
    if |s| > 0 && !IsNumberStart(s[0]) {
      DropJunkSpec(s[1..]);
      var r := DropJunk(s[1..]);
      assert s[1..][|s| - 1 - |r|..] == s[|s| - |r|..];
      forall i | 0 <= i < |s| - |r|
        ensures !IsNumberStart(s[i])
      {
        if i > 0 {
          assert s[i] == s[1..][i - 1];
        }
      }
    }
  }

  /** `cleanString(buf)` before the conversion to float. */
  function Cleaned(buf: seq<char>): string
  {
    DropJunk(Trim(CString(buf)))
  }

  /** `cleanString(buf)`: trim, then drop leading characters until one can
      begin a number (the loop of the source). */
  method CleanString(buf: seq<char>) returns (s: string)
    ensures s == Cleaned(buf)
  {
    s := Trim(CString(buf));
    while |s| > 0 && !IsNumberStart(s[0])
      invariant DropJunk(s) == Cleaned(buf)
      decreases |s|
    {
      s := s[1..];
    }
  }

  /** A text with no digit, '-' or '.' cleans to the empty string, which
      converts to 0.0. */
  lemma NoNumberCleansToEmpty(buf: seq<char>)
    requires forall i :: 0 <= i < |buf| ==> !IsNumberStart(buf[i])
    ensures Cleaned(buf) == []
  {
    var t := Trim(CString(buf));
    DropJunkSpec(t);
    assert forall i :: 0 <= i < |t| ==> t[i] in buf;
  }

  // ---------------------------------------------------------------------
  // The engine

  /** What one poll returns: nothing, or a status byte and what follows it
      (as characters). */
  datatype Reply = Reply(statusByte: byte, payload: seq<char>)

  /** The engine's fields; `written` logs every command transmitted, each
      with its NUL terminator. */
  datatype Engine = Engine(
    state: InternalState,
    status: AtlasStatus,
    cmdSentAt: u32,
    lastReadyTime: u32,
    nextPollDue: u32,
    lastCommTime: u32,
    lastValue: real,
    written: seq<string>)

  function InitialEngine(): Engine
  {
    Engine(StIdle, AtlasNotInitialised, 0, 0, 0, 0, 0.0, [])
  }

  /** `writeI2C(cmd, strlen(cmd), true)`: transmit the command and its NUL;
      the status becomes OK when the circuit acknowledged, and
      FAILED_TO_SEND_REQUEST otherwise. */
  function WriteStep(e: Engine, cmd: string, ack: bool): (r: (Engine, AtlasStatus))
    ensures r.0 == e.(written := e.written + [cmd + ['\0']], status := r.1)
    ensures r.1 == (if ack then AtlasOk else AtlasFailedToSendRequest)
  {
    var st := if ack then AtlasOk else AtlasFailedToSendRequest;
    (e.(written := e.written + [cmd + ['\0']], status := st), st)
  }

  /** The comm-loss check at the start of `update()`. */
  function DecayStep(e: Engine, now: u32): Engine
  {
    if Sub32(now, e.lastCommTime) > COMM_LOSS_TIMEOUT_MS && e.lastCommTime != 0
    then e.(lastValue := 0.0)
    else e
  }

  /** `requestMeasurement()`: the new state and whether a request went out. */
  function RequestStep(e: Engine, now: u32, ack: bool): (Engine, bool)
  {
    if e.state == StWaiting then (e, false)
    else
      var (w, st) := WriteStep(e, MEASUREMENT_REQUEST_CMD, ack);
      if st != AtlasOk then (w.(state := StError, status := AtlasFailedToSendRequest), false)
      else (w.(state := StWaiting, cmdSentAt := now, nextPollDue := now), true)
  }

  /** What `pollOnce` copies into its buffer after the status byte: at
      most 63 characters (the 64th place holds the terminating NUL). */
  function ResponseText(payload: seq<char>): (buf: seq<char>)
    ensures |buf| < RESPONSE_BUFFER_SIZE && |buf| <= |payload| && buf == payload[..|buf|]
    ensures |payload| < RESPONSE_BUFFER_SIZE ==> buf == payload
  {
    payload[..Min(|payload|, RESPONSE_BUFFER_SIZE - 1)]
  }

  /** A successful reading converted to `v`: zero or a faulty value clears
      it and flags a parsing error, anything else is stored. */
  function AcceptStep(e: Engine, variant: Variant, v: real, now: u32): Engine
  {
    if v == 0.0 || IsValueFault(variant, v) then
      e.(lastValue := 0.0, state := StError, status := AtlasParsingError)
    else
      e.(lastValue := v, lastCommTime := now, lastReadyTime := now, state := StIdle, status := AtlasOk)
  }

  /** `pollOnce()` with the bytes the circuit returned. */
  function PollStep(e: Engine, variant: Variant, toFloat: string -> real, now: u32, reply: Option<Reply>): Engine
  {
    match reply
    case None => e.(nextPollDue := Add32(now, NB_POLL_INTERVAL_MS))
    case Some(r) =>
      if r.statusByte == SUCCESS_STATUS_BYTE then
        AcceptStep(e, variant, toFloat(Cleaned(ResponseText(r.payload))), now)
      else if r.statusByte == PENDING_STATUS_BYTE || r.statusByte == FAILED_STATUS_BYTE then
        e.(nextPollDue := Add32(now, NB_POLL_INTERVAL_MS))
      else
        e.(state := StError, status := AtlasDeviceError)
  }

  /** The poll part of `update()`, after the request. */
  function PollIfDueStep(e: Engine, variant: Variant, toFloat: string -> real, now: u32, reply: Option<Reply>): Engine
  {
    if e.state == StWaiting && now >= e.nextPollDue then
      if Sub32(now, e.cmdSentAt) > NB_MAX_CONVERSION_MS then
        e.(state := StError, status := AtlasTimeoutExceeded)
      else PollStep(e, variant, toFloat, now, reply)
    else e
  }

  /** One `update()` at millisecond `now`; `ack` is whether the circuit
      acknowledges the request and `reply` what a poll would return. */
  function UpdateStep(e: Engine, variant: Variant, toFloat: string -> real, now: u32, ack: bool, reply: Option<Reply>): Engine
  {
    PollIfDueStep(RequestStep(DecayStep(e, now), now, ack).0, variant, toFloat, now, reply)
  }

  /** `getAgeMs()`: all ones until the first successful reading. */
  function AgeMs(e: Engine, now: u32): (age: u32)
    ensures e.lastReadyTime == 0 ==> age == U32_MAX
    ensures e.lastReadyTime != 0 && now >= e.lastReadyTime ==> age == now - e.lastReadyTime
  {
    if e.lastReadyTime == 0 then U32_MAX else Sub32(now, e.lastReadyTime)
  }

  // ---------------------------------------------------------------------
  // Calibration

  /** The command each circuit sends for a calibration point. */
  function CalCommand(variant: Variant, value: CalibrationValue): Option<string>
  {
    match variant
    case PhSensor =>
      if value == CalPh7 then Some("Cal,mid,7.00")
      else if value == CalPh4 then Some("Cal,low,4.00")
      else if value == CalPh10 then Some("Cal,high,10.00")
      else None
    case TempSensor =>
      if value == CalTemp100C then Some("Cal,100.00") else None
  }

  /** `calibrateSinglePoint(value)`: an unsupported point is a DEVICE_ERROR
      with nothing written; otherwise the command is written and the result
      is `!writeI2C(...) ? FAILED_TO_SEND_REQUEST : OK`. */
  function CalibrateStep(e: Engine, variant: Variant, value: CalibrationValue, ack: bool): (Engine, AtlasStatus)
  {
    match CalCommand(variant, value)
    case None => (e, AtlasDeviceError)
    case Some(cmd) =>
      var (w, st) := WriteStep(e, cmd, ack);
      (w, if Code(st) == 0 then AtlasFailedToSendRequest else AtlasOk)
  }

  // ---------------------------------------------------------------------
  // Properties

  /** The pH table maps 7, 4 and 10 to the mid, low and high points and
      rejects the temperature point; the temperature circuit accepts only
      its 100 °C point. */
  lemma CalibrationTable(value: CalibrationValue)
    ensures CalCommand(PhSensor, CalPh7) == Some("Cal,mid,7.00")
    ensures CalCommand(PhSensor, CalPh4) == Some("Cal,low,4.00")
    ensures CalCommand(PhSensor, CalPh10) == Some("Cal,high,10.00")
    ensures CalCommand(PhSensor, value).None? <==> value == CalTemp100C
    ensures CalCommand(TempSensor, value).Some? <==> value == CalTemp100C
    ensures CalCommand(TempSensor, CalTemp100C) == Some("Cal,100.00")
  {
  }

  /** The inverted success test: an acknowledged calibration command is
      reported as FAILED_TO_SEND_REQUEST and an unacknowledged one as OK;
      an unsupported point writes nothing and leaves the engine alone. */
  lemma CalibrationResultInverted(e: Engine, variant: Variant, value: CalibrationValue, ack: bool)
    ensures var (f, st) := CalibrateStep(e, variant, value, ack);
      match CalCommand(variant, value)
      case None => f == e && st == AtlasDeviceError
      case Some(cmd) =>
        && f.written == e.written + [cmd + ['\0']]
        && f.status == (if ack then AtlasOk else AtlasFailedToSendRequest)
        && (st == AtlasFailedToSendRequest <==> ack)
        && (st == AtlasOk <==> !ack)
  {
  }

  /** After 15 s without a successful reading the cached value decays to 0;
      nothing else changes, and nothing changes before that or before the
      first reading. */
  lemma CommLossDecay(e: Engine, now: u32)
    ensures var d := DecayStep(e, now);
      && d == e.(lastValue := d.lastValue)
      && (d.lastValue == 0.0 || d.lastValue == e.lastValue)
      && (e.lastCommTime != 0 && Sub32(now, e.lastCommTime) > 15000 ==> d.lastValue == 0.0)
      && (e.lastCommTime == 0 || Sub32(now, e.lastCommTime) <= 15000 ==> d == e)
  {
  }

  /** A request while WAITING does nothing; otherwise "R" is written, and
      the engine waits from `now` when acknowledged or is in ERROR with
      FAILED_TO_SEND_REQUEST when not. */
  lemma RequestOutcomes(e: Engine, now: u32, ack: bool)
    ensures var (r, sent) := RequestStep(e, now, ack);
      && (e.state == StWaiting ==> r == e && !sent)
      && (e.state != StWaiting && !ack ==>
            !sent && r == e.(written := e.written + ["R\0"], state := StError, status := AtlasFailedToSendRequest))
      && (e.state != StWaiting && ack ==>
            sent && r == e.(written := e.written + ["R\0"], state := StWaiting, status := AtlasOk, cmdSentAt := now, nextPollDue := now))
  {
    assert MEASUREMENT_REQUEST_CMD + ['\0'] == "R\0";
  }

  /** Poll outcomes: no data, PENDING or FAILED reschedule the poll 50 ms
      later and keep state and status; another non-success byte is a
      DEVICE_ERROR; a success stores a value that is nonzero and no fault
      and returns to IDLE, anything else is a PARSING_ERROR with the value
      cleared. */
  lemma PollOutcomes(e: Engine, variant: Variant, toFloat: string -> real, now: u32, reply: Option<Reply>)
    ensures var p := PollStep(e, variant, toFloat, now, reply);
      match reply
      case None => p == e.(nextPollDue := Add32(now, 50))
      case Some(r) =>
        && (r.statusByte == 0xFE || r.statusByte == 0x02 ==> p == e.(nextPollDue := Add32(now, 50)))
        && (r.statusByte != 0x01 && r.statusByte != 0xFE && r.statusByte != 0x02 ==>
              p == e.(state := StError, status := AtlasDeviceError))
        && (r.statusByte == 0x01 ==>
              var v := toFloat(Cleaned(ResponseText(r.payload)));
              if v != 0.0 && !IsValueFault(variant, v) then
                p == e.(lastValue := v, lastCommTime := now, lastReadyTime := now, state := StIdle, status := AtlasOk)
              else p == e.(lastValue := 0.0, state := StError, status := AtlasParsingError))
  {
  }

  /** A success reply whose text holds no digit, '-' or '.' converts to 0.0
      and is therefore a PARSING_ERROR. */
  lemma NumberlessReplyIsParsingError(e: Engine, variant: Variant, toFloat: string -> real, now: u32, text: seq<char>)
    requires toFloat("") == 0.0
    requires forall i :: 0 <= i < |text| ==> !IsNumberStart(text[i])
    ensures PollStep(e, variant, toFloat, now, Some(Reply(SUCCESS_STATUS_BYTE, text))).status == AtlasParsingError
  {
    var t := text[..Min(|text|, RESPONSE_BUFFER_SIZE - 1)];
    assert forall i :: 0 <= i < |t| ==> t[i] == text[i];
    NoNumberCleansToEmpty(t);
  }

  /** While WAITING and before the next poll is due, `update` neither
      requests nor polls. */
  lemma NotDueNoPoll(e: Engine, variant: Variant, toFloat: string -> real, now: u32, ack: bool, reply: Option<Reply>)
    requires e.state == StWaiting && now < e.nextPollDue
    ensures UpdateStep(e, variant, toFloat, now, ack, reply) == DecayStep(e, now)
  {
  }

  /** A due poll more than 900 ms after the request times out without polling. */
  lemma ConversionTimeout(e: Engine, variant: Variant, toFloat: string -> real, now: u32, ack: bool, reply: Option<Reply>)
    requires e.state == StWaiting && now >= e.nextPollDue && Sub32(now, e.cmdSentAt) > 900
    ensures UpdateStep(e, variant, toFloat, now, ack, reply)
         == DecayStep(e, now).(state := StError, status := AtlasTimeoutExceeded)
  {
  }

  /** From IDLE or ERROR an acknowledged request is polled in the same
      `update`: the wait starts at `now` and the first poll is at once. */
  lemma RequestPolledAtOnce(e: Engine, variant: Variant, toFloat: string -> real, now: u32, reply: Option<Reply>)
    requires e.state != StWaiting
    ensures var r := DecayStep(e, now).(written := e.written + ["R\0"], state := StWaiting,
                                        status := AtlasOk, cmdSentAt := now, nextPollDue := now);
      UpdateStep(e, variant, toFloat, now, true, reply) == PollStep(r, variant, toFloat, now, reply)
  {
    RequestOutcomes(DecayStep(e, now), now, true);
  }

  /** An ERROR is retried: the next `update` writes a new request. */
  lemma ErrorIsRetried(e: Engine, variant: Variant, toFloat: string -> real, now: u32, ack: bool, reply: Option<Reply>)
    requires e.state == StError
    ensures UpdateStep(e, variant, toFloat, now, ack, reply).written == e.written + ["R\0"]
  {
    var d := DecayStep(e, now);
    RequestOutcomes(d, now, ack);
    var r := RequestStep(d, now, ack).0;
    if r.state == StWaiting && now >= r.nextPollDue && Sub32(now, r.cmdSentAt) <= NB_MAX_CONVERSION_MS {
      PollOutcomes(r, variant, toFloat, now, reply);
    }
  }

  /** The cached value is always 0 or a value the variant accepts. */
  predicate ValueAccepted(e: Engine, variant: Variant)
  {
    e.lastValue == 0.0 || !IsValueFault(variant, e.lastValue)
  }

  /** `update` keeps the cached value 0 or acceptable, and WAITING always
      comes with status OK (the acknowledged request set it). */
  lemma UpdateKeepsInvariant(e: Engine, variant: Variant, toFloat: string -> real, now: u32, ack: bool, reply: Option<Reply>)
    requires ValueAccepted(e, variant) && (e.state == StWaiting ==> e.status == AtlasOk)
    ensures var u := UpdateStep(e, variant, toFloat, now, ack, reply);
      ValueAccepted(u, variant) && (u.state == StWaiting ==> u.status == AtlasOk)
  {
    var d := DecayStep(e, now);
    RequestOutcomes(d, now, ack);
    var r := RequestStep(d, now, ack).0;
    if r.state == StWaiting && now >= r.nextPollDue && Sub32(now, r.cmdSentAt) <= NB_MAX_CONVERSION_MS {
      PollOutcomes(r, variant, toFloat, now, reply);
    }
  }

  // ---------------------------------------------------------------------
  // The driver object

  class AtlasSensor {
    const variant: Variant
    const i2cAddress: byte
    /** `String::toFloat`. */
    const toFloat: string -> real
    var state: InternalState
    var status: AtlasStatus
    var cmdSentAt: u32
    var lastReadyTime: u32
    var nextPollDue: u32
    var lastCommTime: u32
    var lastValue: real
    /** Every command transmitted on the bus. */
    var written: seq<string>

    ghost function Model(): Engine
      reads this
    {
      Engine(state, status, cmdSentAt, lastReadyTime, nextPollDue, lastCommTime, lastValue, written)
    }

    /** `AtlasPHSensor()` / `AtlasTempSensor()`: the default member values. */
    constructor (v: Variant, parse: string -> real)
      requires parse("") == 0.0
      ensures variant == v && toFloat == parse
      ensures i2cAddress == (if v == PhSensor then PH_I2C_ADDRESS else TEMP_I2C_ADDRESS)
      ensures Model() == InitialEngine()
    {
      variant := v;
      toFloat := parse;
      i2cAddress := if v == PhSensor then PH_I2C_ADDRESS else TEMP_I2C_ADDRESS;
      state := StIdle;
      status := AtlasNotInitialised;
      cmdSentAt, lastReadyTime, nextPollDue, lastCommTime := 0, 0, 0, 0;
      lastValue := 0.0;
      written := [];
    }

    /** `begin()`: status INITIALIZED, returned. */
    method Begin() returns (st: AtlasStatus)
      modifies this
      ensures Model() == old(Model()).(status := AtlasInitialized)
      ensures st == AtlasInitialized
    {
      status := AtlasInitialized;
      return status;
    }

    function GetLastValue(): real reads this { lastValue }
    function GetStatus(): AtlasStatus reads this { status }

    /** `getPH()` / `getTemperatureC()`: the cached value, unchanged. */
    function GetReading(): (v: real)
      reads this
      ensures v == GetLastValue()
    {
      lastValue
    }

    function GetAgeMs(now: u32): (age: u32)
      reads this
      ensures age == AgeMs(Model(), now)
    {
      if lastReadyTime == 0 then U32_MAX else Sub32(now, lastReadyTime)
    }

    method WriteI2C(cmd: string, ack: bool) returns (st: AtlasStatus)
      modifies this
      ensures (Model(), st) == WriteStep(old(Model()), cmd, ack)
    {
      written := written + [cmd + ['\0']];
      if !ack {
        status := AtlasFailedToSendRequest;
        return status;
      }
      status := AtlasOk;
      return status;
    }

    method RequestMeasurement(now: u32, ack: bool) returns (sent: bool)
      modifies this
      ensures (Model(), sent) == RequestStep(old(Model()), now, ack)
    {
      if state == StWaiting {
        return false;
      }
      var st := WriteI2C(MEASUREMENT_REQUEST_CMD, ack);
      if st != AtlasOk {
        state := StError;
        status := AtlasFailedToSendRequest;
        return false;
      }
      state := StWaiting;
      cmdSentAt := now;
      nextPollDue := now;
      return true;
    }

    method PollOnce(now: u32, reply: Option<Reply>) returns (st: AtlasStatus)
      modifies this
      ensures Model() == PollStep(old(Model()), variant, toFloat, now, reply)
      ensures st == status
    {
      if reply.None? {
        nextPollDue := Add32(now, NB_POLL_INTERVAL_MS);
        return status;
      }
      var statusByte := reply.value.statusByte;
      if statusByte == SUCCESS_STATUS_BYTE {
        var buf := ResponseText(reply.value.payload);
        AcceptReading(now, buf);
      } else if statusByte == PENDING_STATUS_BYTE || statusByte == FAILED_STATUS_BYTE {
        nextPollDue := Add32(now, NB_POLL_INTERVAL_MS);
      } else {
        state := StError;
        status := AtlasDeviceError;
      }
      return status;
    }

    /** The success branch of `pollOnce()`: convert the text and store it,
        or clear the value on a zero or faulty reading. */
    method AcceptReading(now: u32, buf: seq<char>)
      requires |buf| < RESPONSE_BUFFER_SIZE
      modifies this
      ensures Model() == AcceptStep(old(Model()), variant, toFloat(Cleaned(buf)), now)
    {
      var text := CleanString(buf);
      var v := toFloat(text);
      if v == 0.0 || IsValueFault(variant, v) {
        lastValue := 0.0;
        state := StError;
        status := AtlasParsingError;
        return;
      }
      lastValue := v;
      lastCommTime := now;
      lastReadyTime := now;
      state := StIdle;
      status := AtlasOk;
    }

    /** `update()` at millisecond `now`. */
    method Update(now: u32, ack: bool, reply: Option<Reply>)
      modifies this
      ensures Model() == UpdateStep(old(Model()), variant, toFloat, now, ack, reply)
    {
      if Sub32(now, lastCommTime) > COMM_LOSS_TIMEOUT_MS && lastCommTime != 0 {
        lastValue := 0.0;
      }
      var _ := RequestMeasurement(now, ack);
      if state == StWaiting && now >= nextPollDue {
        if Sub32(now, cmdSentAt) > NB_MAX_CONVERSION_MS {
          state := StError;
          status := AtlasTimeoutExceeded;
        } else {
          var _ := PollOnce(now, reply);
        }
      }
    }

    /** `calibrateSinglePoint(value)`; draining the bus and the blocking
        delays are not modelled. */
    method CalibrateSinglePoint(value: CalibrationValue, ack: bool) returns (st: AtlasStatus)
      modifies this
      ensures (Model(), st) == CalibrateStep(old(Model()), variant, value, ack)
    {
      var cmd := CalCommand(variant, value);
      if cmd.None? {
        return AtlasDeviceError;
      }
      var w := WriteI2C(cmd.value, ack);
      if Code(w) == 0 {
        return AtlasFailedToSendRequest;
      }
      return AtlasOk;
    }
  }
}
