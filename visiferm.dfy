/** Modbus RTU polling engine for the Hamilton VisiFerm dissolved-oxygen
    probe on RS485: CRC-16/MODBUS framing, the 8-byte Read Holding Registers
    request (function 0x03), accumulation of the reply in a 64-byte receive
    buffer, validation of the reply and the IDLE -> WAIT_DO -> WAIT_TEMP ->
    IDLE polling cycle.

    The serial port is a FIFO of received bytes (`incoming`) and a log of the
    frames written (`sent`); float values are kept as their raw IEEE-754 bit
    pattern. */
module VisiFerm {
  import opened Mcu

  datatype Status =
    | StatusOk
    | StatusNotInitialised
    | StatusWaitingResponse
    | StatusTimeout
    | StatusCrcError
    | StatusBadFrame
    | StatusSensorStatusError

  datatype PollState = PollIdle | PollWaitDo | PollWaitTemp

  const READ_INTERVAL_MS: u32 := 500
  const RESPONSE_TIMEOUT_MS: u32 := 200
  const MODBUS_FUNC_READ_HOLDING: byte := 0x03
  const MODBUS_READ_REGISTER_MSG_LEN: nat := 8
  const CRC_LEN: nat := 2
  /** addr(1) + func(1) + byteCount(1) + CRC(2) */
  const MIN_MSG_LEN: nat := 5
  /** 10 registers of 2 bytes */
  const DATA_LEN: nat := 20
  const MAX_BUF_SIZE: nat := 64

  /** Manual (1-based) register numbers of Primary Measurement Channels 1 and 6. */
  const REG_PMC1: bv16 := 2090
  const REG_PMC6: bv16 := 2410
  const REG_BLOCK_LEN: bv16 := 10

  /** Bit pattern of the C `NAN` macro (quiet NaN). */
  const NAN_BITS: bv32 := 0x7FC0_0000

  // ---------------------------------------------------------------------
  // CRC-16/MODBUS

  /** One step of the bitwise CRC: shift right, XOR 0xA001 if the LSB was 1. */
  function CrcShift(crc: bv16): bv16
  {
    if crc & 1 == 1 then (crc >> 1) ^ 0xA001 else crc >> 1
  }

  function CrcShifts(crc: bv16, n: nat): bv16
  {
    if n == 0 then crc else CrcShift(CrcShifts(crc, n - 1))
  }

  /** Eight shift steps, written out. */
  function ShiftByte(c: bv16): bv16
  {
    CrcShift(CrcShift(CrcShift(CrcShift(CrcShift(CrcShift(CrcShift(CrcShift(c))))))))
  }

  /** Absorb one byte: XOR it into the low byte, then eight shift steps. */
  function CrcByte(crc: bv16, b: byte): bv16
  {
    CrcShifts(crc ^ (b as bv16), 8)
  }

  lemma EightShifts(c: bv16)
    ensures CrcShifts(c, 8) == ShiftByte(c)
  {
    assert CrcShifts(c, 1) == CrcShift(c);
    assert CrcShifts(c, 2) == CrcShift(CrcShifts(c, 1));
    assert CrcShifts(c, 3) == CrcShift(CrcShifts(c, 2));
    assert CrcShifts(c, 4) == CrcShift(CrcShifts(c, 3));
    assert CrcShifts(c, 5) == CrcShift(CrcShifts(c, 4));
    assert CrcShifts(c, 6) == CrcShift(CrcShifts(c, 5));
    assert CrcShifts(c, 7) == CrcShift(CrcShifts(c, 6));
  }

  lemma ShiftOdd(c: bv16)
    requires c & 0x0001 == 1
    ensures CrcShift(c) == (c >> 1) ^ 0xA001
  {
  }

  lemma ShiftEven(c: bv16)
    requires c & 0x0001 != 1
    ensures CrcShift(c) == c >> 1
  {
  }

  /** CRC-16/MODBUS of a byte string: seed 0xFFFF, no final XOR. */
  function Crc16(s: seq<byte>): bv16
  {
    if |s| == 0 then 0xFFFF else CrcByte(Crc16(s[..|s| - 1]), s[|s| - 1])
  }

  /** `modbusCRC(buf, len)`: the two nested loops over the first `len` bytes. */
  method ModbusCrc(buf: seq<byte>, len: nat) returns (crc: bv16)
    requires len <= |buf|
    ensures crc == Crc16(buf[..len])
  {
    crc := 0xFFFF;
    var pos := 0;
    while pos < len
      invariant 0 <= pos <= len
      invariant crc == Crc16(buf[..pos])
    {
      crc := crc ^ (buf[pos] as bv16);
      ghost var absorbed := crc;
      var i := 0;
      while i < 8
        invariant 0 <= i <= 8
        invariant crc == CrcShifts(absorbed, i)
      {
        if crc & 0x0001 == 1 {
          ShiftOdd(crc);
          crc := crc >> 1;
          crc := crc ^ 0xA001;
        } else {
          ShiftEven(crc);
          crc := crc >> 1;
        }
        i := i + 1;
      }
      assert buf[..pos + 1][..pos] == buf[..pos];
      pos := pos + 1;
    }
    assert buf[..len] == buf[..pos];
  }

  // ---------------------------------------------------------------------
  // Bytes and words

  /** High byte of a 16-bit word, `(w >> 8) & 0xFF`. */
  function Hi(w: bv16): byte
  {
    ((w >> 8) & 0xFF) as byte
  }

  /** Low byte of a 16-bit word, `w & 0xFF`. */
  function Lo(w: bv16): byte
  {
    (w & 0xFF) as byte
  }

  /** A big-endian 16-bit word from two bytes: `(hi << 8) | lo`. */
  function Word16(hi: byte, lo: byte): bv16
  {
    ((hi as bv16) << 8) | (lo as bv16)
  }

  lemma WordSplitJoin(w: bv16)
    ensures Word16(Hi(w), Lo(w)) == w
  {
  }

  lemma WordJoinSplit(hi: byte, lo: byte)
    ensures Hi(Word16(hi, lo)) == hi && Lo(Word16(hi, lo)) == lo
  {
  }

  lemma WordZero(hi: byte, lo: byte)
    ensures Word16(hi, lo) == 0 <==> hi == 0 && lo == 0
  {
    WordJoinSplit(hi, lo);
  }

  /** A 32-bit word from its most and least significant 16-bit halves. */
  function Join32(msw: bv16, lsw: bv16): bv32
  {
    ((msw as bv32) << 16) | (lsw as bv32)
  }

  function Msw(raw: bv32): bv16
  {
    (raw >> 16) as bv16
  }

  function Lsw(raw: bv32): bv16
  {
    (raw & 0xFFFF) as bv16
  }

  lemma Join32SplitJoin(raw: bv32)
    ensures Join32(Msw(raw), Lsw(raw)) == raw
  {
  }

  lemma Join32JoinSplit(msw: bv16, lsw: bv16)
    ensures Msw(Join32(msw, lsw)) == msw && Lsw(Join32(msw, lsw)) == lsw
  {
  }

  // ---------------------------------------------------------------------
  // CRC trailer

  /** The two CRC bytes as they go on the wire: low byte first, then high. */
  function CrcTrailer(crc: bv16): (t: seq<byte>)
  {
    [Lo(crc), Hi(crc)]
  }

  /** How a receiver reads the CRC back: `hi = buf[len-1]`, `lo = buf[len-2]`. */
  function ReadCrc(lo: byte, hi: byte): bv16
  {
    Word16(hi, lo)
  }

  lemma TrailerReadBack(crc: bv16, lo: byte, hi: byte)
    ensures ReadCrc(lo, hi) == crc <==> [lo, hi] == CrcTrailer(crc)
  {
    WordJoinSplit(hi, lo);
    WordSplitJoin(crc);
  }

  lemma Crc16Snoc(s: seq<byte>, b: byte)
    ensures Crc16(s + [b]) == CrcByte(Crc16(s), b)
  {
    assert (s + [b])[..|s + [b]| - 1] == s;
  }

  lemma CrcByteUnrolled(crc: bv16, b: byte)
    ensures CrcByte(crc, b) == ShiftByte(crc ^ (b as bv16))
  {
    EightShifts(crc ^ (b as bv16));
  }

  lemma CheckVectorSteps()
    ensures ShiftByte(0xFFFF ^ 0x01) == 0x807E && ShiftByte(0x807E ^ 0x03) == 0x2140
    ensures ShiftByte(0x2140 ^ 0x00) == 0xF020 && ShiftByte(0xF020 ^ 0x00) == 0xD8F1
    ensures ShiftByte(0xD8F1 ^ 0x00) == 0x8419 && ShiftByte(0x8419 ^ 0x0A) == 0xCDC5
  {
  }

  /** The check vector of the Modbus serial-line guide: request 01 03 00 00 00 0A carries CRC bytes C5 CD. */
  lemma Crc16CheckVector()
    ensures Crc16([0x01, 0x03, 0x00, 0x00, 0x00, 0x0A]) == 0xCDC5
    ensures CrcTrailer(0xCDC5) == [0xC5, 0xCD]
  {
    var p0: seq<byte> := [];
    var p1 := p0 + [0x01];
    var p2 := p1 + [0x03];
    var p3 := p2 + [0x00];
    var p4 := p3 + [0x00];
    var p5 := p4 + [0x00];
    var p6 := p5 + [0x0A];
    Crc16Snoc(p0, 0x01);
    Crc16Snoc(p1, 0x03);
    Crc16Snoc(p2, 0x00);
    Crc16Snoc(p3, 0x00);
    Crc16Snoc(p4, 0x00);
    Crc16Snoc(p5, 0x0A);
    CrcByteUnrolled(0xFFFF, 0x01);
    CrcByteUnrolled(0x807E, 0x03);
    CrcByteUnrolled(0x2140, 0x00);
    CrcByteUnrolled(0xF020, 0x00);
    CrcByteUnrolled(0xD8F1, 0x00);
    CrcByteUnrolled(0x8419, 0x0A);
    CheckVectorSteps();
    assert p6 == [0x01, 0x03, 0x00, 0x00, 0x00, 0x0A];
  }

  // ---------------------------------------------------------------------
  // Read Holding Registers request

  /** The first six bytes of a request: address, function, start, count. */
  function RequestHeader(addr: byte, reg: bv16, count: bv16): (h: seq<byte>)
  {
    var start := reg - 1;
    [addr, MODBUS_FUNC_READ_HOLDING, Hi(start), Lo(start), Hi(count), Lo(count)]
  }

  /** The 8-byte request `sendReadRegisters(reg, count)` writes for the
      manual (1-based) register `reg`: the wire start address is `reg - 1`. */
  function ReadRequest(addr: byte, reg: bv16, count: bv16): (f: seq<byte>)
  {
    var h := RequestHeader(addr, reg, count);
    h + CrcTrailer(Crc16(h))
  }

  /** Decoding the request recovers every field, and its trailer read back
      as a receiver does is the CRC of the first six bytes. */
  lemma ReadRequestDecodes(addr: byte, reg: bv16, count: bv16)
    ensures var f := ReadRequest(addr, reg, count);
      && |f| == MODBUS_READ_REGISTER_MSG_LEN
      && f[0] == addr && f[1] == MODBUS_FUNC_READ_HOLDING
      && Word16(f[2], f[3]) + 1 == reg
      && Word16(f[4], f[5]) == count
      && ReadCrc(f[6], f[7]) == Crc16(f[..6])
  {
    var h := RequestHeader(addr, reg, count);
    var f := ReadRequest(addr, reg, count);
    assert f[..6] == h;
    WordSplitJoin(reg - 1);
    WordSplitJoin(count);
    TrailerReadBack(Crc16(h), f[6], f[7]);
  }

  /** The oxygen request reads from wire address 2089 = 0x0829, the
      temperature request from 2409 = 0x0969, ten registers each. */
  lemma RequestHeaders(addr: byte)
    ensures RequestHeader(addr, REG_PMC1, REG_BLOCK_LEN) == [addr, 0x03, 0x08, 0x29, 0x00, 0x0A]
    ensures RequestHeader(addr, REG_PMC6, REG_BLOCK_LEN) == [addr, 0x03, 0x09, 0x69, 0x00, 0x0A]
  {
  }

  // ---------------------------------------------------------------------
  // Reply frames

  /** Byte count field plus header and CRC: the length a reply must reach. */
  function ExpectedLen(rx: seq<byte>): nat
    requires |rx| >= 3
  {
    rx[2] as nat + MIN_MSG_LEN
  }

  /** `tryReadFrame`'s completeness test once the bytes are buffered. */
  predicate FrameComplete(rx: seq<byte>)
  {
    |rx| >= MIN_MSG_LEN && |rx| >= ExpectedLen(rx)
  }

  /** Trailing CRC (at the declared frame end) equals the CRC of what precedes it. */
  predicate CrcMatches(rx: seq<byte>)
    requires FrameComplete(rx)
  {
    var e := ExpectedLen(rx);
    ReadCrc(rx[e - 2], rx[e - 1]) == Crc16(rx[..e - 2])
  }

  /** A frame passes the CRC check exactly when its two bytes at the declared
      end are the trailer of the CRC of its prefix. */
  lemma CrcMatchesIffTrailer(rx: seq<byte>)
    requires FrameComplete(rx)
    ensures var e := ExpectedLen(rx);
      CrcMatches(rx) <==> rx[e - 2..e] == CrcTrailer(Crc16(rx[..e - 2]))
  {
    var e := ExpectedLen(rx);
    TrailerReadBack(Crc16(rx[..e - 2]), rx[e - 2], rx[e - 1]);
    assert rx[e - 2..e] == [rx[e - 2], rx[e - 1]];
  }

  /** A buffer of at most 64 bytes can only complete a frame whose byte
      count is at most 59: a larger count can only end by timeout. */
  lemma OversizedByteCountNeverCompletes(rx: seq<byte>)
    requires |rx| <= MAX_BUF_SIZE
    requires |rx| >= 3 && rx[2] as int > MAX_BUF_SIZE - MIN_MSG_LEN
    ensures !FrameComplete(rx)
  {
  }

  /** Raw float bits from the four data bytes, least significant word first,
      each word high byte first: `((b2<<8|b3) << 16) | (b0<<8|b1)`. */
  function ModbusToFloat(w: seq<byte>): (raw: bv32)
    requires |w| == 4
  {
    Join32(Word16(w[2], w[3]), Word16(w[0], w[1]))
  }

  /** The byte order in which the probe transmits a float's bits. */
  function FloatToModbus(raw: bv32): (w: seq<byte>)
  {
    [Hi(Lsw(raw)), Lo(Lsw(raw)), Hi(Msw(raw)), Lo(Msw(raw))]
  }

  lemma FloatWordRoundTrip(raw: bv32)
    ensures |FloatToModbus(raw)| == 4 && ModbusToFloat(FloatToModbus(raw)) == raw
  {
    WordSplitJoin(Lsw(raw));
    WordSplitJoin(Msw(raw));
    Join32SplitJoin(raw);
  }

  lemma FloatBytesRoundTrip(w: seq<byte>)
    requires |w| == 4
    ensures FloatToModbus(ModbusToFloat(w)) == w
  {
    Join32JoinSplit(Word16(w[2], w[3]), Word16(w[0], w[1]));
    WordJoinSplit(w[0], w[1]);
    WordJoinSplit(w[2], w[3]);
  }

  /** `00 00 3F 80` is 1.0f; the byte order `00 00 80 3F` is not. */
  lemma FloatDecodeExamples()
    ensures ModbusToFloat([0x00, 0x00, 0x3F, 0x80]) == 0x3F80_0000
    ensures ModbusToFloat([0x00, 0x00, 0x80, 0x3F]) == 0x803F_0000
  {
  }

  datatype Parsed = Parsed(raw: bv32) | ParseFailed(status: Status)

  /** `parseData(frame, len, out)` on the buffered bytes. */
  function ParseData(frame: seq<byte>): (p: Parsed)
    ensures p.ParseFailed? ==> p.status == StatusBadFrame || p.status == StatusSensorStatusError
  {
    if |frame| < MIN_MSG_LEN then ParseFailed(StatusBadFrame)
    else if frame[1] != MODBUS_FUNC_READ_HOLDING then ParseFailed(StatusBadFrame)
    else if (frame[2] as nat) < DATA_LEN || |frame| < frame[2] as nat + MIN_MSG_LEN then ParseFailed(StatusBadFrame)
    else
      var data := frame[3..];
      var value := ModbusToFloat(data[4..8]);
      var statusLo := Word16(data[8], data[9]);
      var statusHi := Word16(data[10], data[11]);
      if statusLo != 0 || statusHi != 0 then ParseFailed(StatusSensorStatusError)
      else Parsed(value)
  }

  /** A reply as the probe builds it: address, function, byte count, data, CRC. */
  function ResponseFrame(addr: byte, func: byte, count: byte, data: seq<byte>): (f: seq<byte>)
  {
    var prefix := [addr, func, count] + data;
    prefix + CrcTrailer(Crc16(prefix))
  }

  /** A measurement block: status words at data[8..12], value at data[4..8]. */
  predicate IsMeasurementBlock(count: byte, data: seq<byte>, raw: bv32)
  {
    count as int == |data| && DATA_LEN <= |data| <= MAX_BUF_SIZE - MIN_MSG_LEN && data[4..8] == FloatToModbus(raw)
  }

  /** parseData accepts exactly the frames with function 0x03, a byte count
      of at least 20 that the length covers, and zero status words, and then
      yields the float in bytes 7..11. */
  lemma ParseDataAccepts(frame: seq<byte>)
    ensures ParseData(frame).Parsed? <==>
      (&& |frame| >= MIN_MSG_LEN && frame[1] == MODBUS_FUNC_READ_HOLDING
       && frame[2] as nat >= DATA_LEN && |frame| >= frame[2] as nat + MIN_MSG_LEN
       && frame[11..15] == [0, 0, 0, 0])
    ensures ParseData(frame).Parsed? ==> ParseData(frame).raw == ModbusToFloat(frame[7..11])
  {
    if && |frame| >= MIN_MSG_LEN && frame[1] == MODBUS_FUNC_READ_HOLDING
       && frame[2] as nat >= DATA_LEN && |frame| >= frame[2] as nat + MIN_MSG_LEN {
      var d := frame[3..];
      assert d[4..8] == frame[7..11];
      WordZero(d[8], d[9]);
      WordZero(d[10], d[11]);
      if frame[11..15] == [0, 0, 0, 0] {
        assert frame[11] == 0 && frame[12] == 0 && frame[13] == 0 && frame[14] == 0;
      }
      if frame[11] == 0 && frame[12] == 0 && frame[13] == 0 && frame[14] == 0 {
        assert frame[11..15] == [0, 0, 0, 0];
      }
    }
  }

  /** Where the fields of a reply lie: the byte count says how much data
      follows, and the last two bytes are the trailer of everything before. */
  lemma ResponseFrameLayout(addr: byte, func: byte, count: byte, data: seq<byte>)
    requires count as int == |data|
    ensures var f := ResponseFrame(addr, func, count, data);
      && |f| == |data| + MIN_MSG_LEN
      && f[1] == func && f[2] as int == |data|
      && f[3..|data| + 3] == data
      && f[|data| + 3] == Lo(Crc16(f[..|data| + 3]))
      && f[|data| + 4] == Hi(Crc16(f[..|data| + 3]))
  {
    var prefix := [addr, func, count] + data;
    var f := ResponseFrame(addr, func, count, data);
    assert f[..|data| + 3] == prefix;
    assert f[3..|data| + 3] == data;
  }

  /** A well-formed reply fits the 64-byte buffer, is complete once
      buffered and passes the CRC check. */
  lemma ResponseCompletes(addr: byte, count: byte, data: seq<byte>, raw: bv32)
    requires IsMeasurementBlock(count, data, raw)
    ensures var f := ResponseFrame(addr, MODBUS_FUNC_READ_HOLDING, count, data);
      |f| <= MAX_BUF_SIZE && FrameComplete(f) && CrcMatches(f)
  {
    var f := ResponseFrame(addr, MODBUS_FUNC_READ_HOLDING, count, data);
    ResponseFrameLayout(addr, MODBUS_FUNC_READ_HOLDING, count, data);
    var n := |data| + 3;
    assert ExpectedLen(f) == n + 2;
    WordSplitJoin(Crc16(f[..n]));
  }

  /** A well-formed reply parses to its value when its status words are
      zero and to SENSOR_STATUS_ERROR otherwise. */
  lemma ResponseParses(addr: byte, count: byte, data: seq<byte>, raw: bv32)
    requires IsMeasurementBlock(count, data, raw)
    ensures var f := ResponseFrame(addr, MODBUS_FUNC_READ_HOLDING, count, data);
      && (data[8..12] == [0, 0, 0, 0] ==> ParseData(f) == Parsed(raw))
      && (data[8..12] != [0, 0, 0, 0] ==> ParseData(f) == ParseFailed(StatusSensorStatusError))
  {
    var f := ResponseFrame(addr, MODBUS_FUNC_READ_HOLDING, count, data);
    ResponseFrameLayout(addr, MODBUS_FUNC_READ_HOLDING, count, data);
    var n := |data| + 3;
    assert f[7..11] == data[4..8] && f[11..15] == data[8..12] by {
      assert f[3..n][4..8] == f[7..11] && f[3..n][8..12] == f[11..15];
    }
    FloatWordRoundTrip(raw);
    ParseDataAccepts(f);
  }

  /** A reply whose function code is not 0x03 (a Modbus exception reply,
      for one) is a BAD_FRAME. */
  lemma WrongFunctionIsBadFrame(frame: seq<byte>)
    requires |frame| >= MIN_MSG_LEN && frame[1] != MODBUS_FUNC_READ_HOLDING
    ensures ParseData(frame) == ParseFailed(StatusBadFrame)
  {
  }

  // ---------------------------------------------------------------------
  // The polling session

  /** The driver's state: `rx` is `_rxBuf[0.._rxLen)`, `incoming` the bytes
      waiting in the UART, `sent` every frame written. */
  datatype Session = Session(
    pollState: PollState,
    status: Status,
    oxygen: bv32,
    temperature: bv32,
    rx: seq<byte>,
    waitStartMs: u32,
    lastReadTime: u32,
    incoming: seq<byte>,
    sent: seq<seq<byte>>)

  function InitialSession(): Session
  {
    Session(PollIdle, StatusNotInitialised, NAN_BITS, NAN_BITS, [], 0, 0, [], [])
  }

  /** The `while (available && _rxLen < 64)` loop of tryReadFrame: move bytes
      from the UART into the buffer until one of the two runs out. */
  function Fill(s: Session): (t: Session)
    requires |s.rx| <= MAX_BUF_SIZE
    ensures |t.rx| <= MAX_BUF_SIZE
    ensures t.rx + t.incoming == s.rx + s.incoming
    ensures |t.rx| >= |s.rx|
    ensures |t.rx| == MAX_BUF_SIZE || t.incoming == []
    ensures t == s.(rx := t.rx, incoming := t.incoming)
  {
    var n := Min(|s.incoming|, MAX_BUF_SIZE - |s.rx|);
    assert s.incoming == s.incoming[..n] + s.incoming[n..];
    s.(rx := s.rx + s.incoming[..n], incoming := s.incoming[n..])
  }

  /** Fill is the only way to move bytes from the UART into the buffer
      that keeps their order, stays within 64 bytes and stops only when the
      buffer is full or the UART empty. */
  lemma FillUnique(s: Session, rx: seq<byte>, pending: seq<byte>)
    requires |s.rx| <= |rx| <= MAX_BUF_SIZE
    requires rx + pending == s.rx + s.incoming
    requires |rx| == MAX_BUF_SIZE || pending == []
    ensures Fill(s) == s.(rx := rx, incoming := pending)
  {
    var k := |rx| - |s.rx|;
    assert rx == (rx + pending)[..|rx|];
    assert pending == (rx + pending)[|rx|..];
    assert (s.rx + s.incoming)[..|rx|] == s.rx + s.incoming[..k];
    assert (s.rx + s.incoming)[|rx|..] == s.incoming[k..];
  }

  /** The tests of `tryReadFrame()` on the buffered bytes: the frame is
      complete once its declared length has arrived, and then its trailer
      is compared with `modbusCRC` of what precedes it. */
  method CheckBuffered(rx: seq<byte>) returns (complete: bool, crcOk: bool)
    ensures complete == FrameComplete(rx)
    ensures complete ==> crcOk == CrcMatches(rx)
  {
    if |rx| < MIN_MSG_LEN {
      return false, false;
    }
    var expectedLen := rx[2] as nat + MIN_MSG_LEN;
    if |rx| < expectedLen {
      return false, false;
    }
    var frameCRC := ReadCrc(rx[expectedLen - CRC_LEN], rx[expectedLen - 1]);
    var calcCRC := ModbusCrc(rx, expectedLen - CRC_LEN);
    return true, frameCRC == calcCRC;
  }

  function CheckFrameStep(t: Session): (Session, bool)
  {
    if !FrameComplete(t.rx) then (t, false)
    else if !CrcMatches(t.rx) then (t.(status := StatusCrcError), true)
    else (t, true)
  }

  /** `tryReadFrame()`: the new state and whether a frame (valid or not) is there. */
  function TryReadFrameStep(s: Session): (Session, bool)
    requires |s.rx| <= MAX_BUF_SIZE
  {
    CheckFrameStep(Fill(s))
  }

  /** `sendReadDO` / `sendReadTemp`: drain the UART, write the request,
      empty the buffer, enter the wait state and start the response timer. */
  function SendRead(s: Session, addr: byte, reg: bv16, wait: PollState, now: u32): Session
  {
    s.(incoming := [], sent := s.sent + [ReadRequest(addr, reg, REG_BLOCK_LEN)],
       rx := [], pollState := wait, waitStartMs := now)
  }

  /** The branch of `update()` that handles a frame tryReadFrame reported:
      parse it, store the value for the current wait state (moving on to the
      temperature read after the oxygen one) and empty the buffer. */
  function HandleFrameStep(t: Session, addr: byte, now: u32): (u: Session)
    ensures u.rx == []
  {
    match ParseData(t.rx)
    case Parsed(v) => StoreStep(t, v, addr, now)
    case ParseFailed(e) => t.(status := e, rx := [])
  }

  /** A parsed value `v`: the oxygen one sends the temperature request, the
      temperature one completes the cycle; either way status OK and the
      read time is `now`. */
  function StoreStep(t: Session, v: bv32, addr: byte, now: u32): (u: Session)
  {
    var u := if t.pollState == PollWaitDo
             then SendRead(t.(oxygen := v), addr, REG_PMC6, PollWaitTemp, now)
             else if t.pollState == PollWaitTemp then t.(temperature := v, pollState := PollIdle)
             else t;
    u.(status := StatusOk, lastReadTime := now, rx := [])
  }

  /** The branch of `update()` taken while a response is awaited: read,
      handle a complete frame, or give up after the response timeout. */
  function AwaitStep(s: Session, addr: byte, now: u32): Session
    requires |s.rx| <= MAX_BUF_SIZE
  {
    var (t, complete) := TryReadFrameStep(s);
    if complete then HandleFrameStep(t, addr, now)
    else if Sub32(now, t.waitStartMs) > RESPONSE_TIMEOUT_MS then
      t.(pollState := PollIdle, rx := [], status := StatusTimeout)
    else t
  }

  /** One call of `update()` at millisecond `now`. */
  function UpdateStep(s: Session, addr: byte, now: u32): (t: Session)
    requires |s.rx| <= MAX_BUF_SIZE
    ensures |t.rx| <= MAX_BUF_SIZE
  {
    if s.pollState == PollWaitDo || s.pollState == PollWaitTemp then
      AwaitStep(s, addr, now)
    else if Sub32(now, s.lastReadTime) >= READ_INTERVAL_MS then
      SendRead(s, addr, REG_PMC1, PollWaitDo, now).(status := StatusWaitingResponse)
    else s
  }

  // ---------------------------------------------------------------------
  // Properties of the polling cycle

  /** tryReadFrame only buffers bytes and reports completeness; the one
      field it may change besides the buffer is the status, to CRC_ERROR. */
  lemma TryReadShape(s: Session)
    requires |s.rx| <= MAX_BUF_SIZE
    ensures var (t, complete) := TryReadFrameStep(s);
      && complete == FrameComplete(Fill(s).rx)
      && t == Fill(s).(status := t.status)
      && (t.status == s.status || (complete && t.status == StatusCrcError))
  {
  }

  /** Handling a frame ends with status OK after a parsed frame and with
      parseData's error otherwise; only the value of the current wait state
      is stored, and only WAIT_DO sends a request. */
  lemma HandleFrameShape(t: Session, addr: byte, now: u32)
    ensures var u := HandleFrameStep(t, addr, now);
      match ParseData(t.rx)
      case Parsed(v) =>
        && u.status == StatusOk && u.lastReadTime == now && u.rx == []
        && (t.pollState == PollWaitDo ==>
              u == SendRead(t.(oxygen := v), addr, REG_PMC6, PollWaitTemp, now).(status := StatusOk, lastReadTime := now))
        && (t.pollState == PollWaitTemp ==>
              u == t.(temperature := v, pollState := PollIdle, status := StatusOk, lastReadTime := now, rx := []))
        && (t.pollState == PollIdle ==> u == t.(status := StatusOk, lastReadTime := now, rx := []))
      case ParseFailed(e) => u == t.(status := e, rx := [])
  {
  }

  /** The CRC_ERROR status set by tryReadFrame never survives update(): a
      handled frame always ends with parseData's status or OK. */
  lemma CrcErrorNeverSurvivesUpdate(s: Session, addr: byte, now: u32)
    requires |s.rx| <= MAX_BUF_SIZE && s.status != StatusCrcError
    ensures UpdateStep(s, addr, now).status != StatusCrcError
  {
    if s.pollState != PollIdle {
      TryReadShape(s);
      var (t, complete) := TryReadFrameStep(s);
      if complete {
        HandleFrameShape(t, addr, now);
      }
    }
  }

  /** In WAIT_DO a complete frame that parses is stored as the oxygen
      value with status OK and the temperature read is sent, whether or not
      its CRC matched: tryReadFrame reports a mismatching frame as complete
      and its CRC_ERROR is overwritten. */
  lemma ParsedOxygenStored(s: Session, addr: byte, now: u32, v: bv32)
    requires |s.rx| <= MAX_BUF_SIZE && s.pollState == PollWaitDo
    requires FrameComplete(Fill(s).rx) && ParseData(Fill(s).rx) == Parsed(v)
    ensures var t := UpdateStep(s, addr, now);
      && t.oxygen == v && t.status == StatusOk && t.pollState == PollWaitTemp
      && t.sent == s.sent + [ReadRequest(addr, REG_PMC6, REG_BLOCK_LEN)]
      && t.lastReadTime == now && t.waitStartMs == now
  {
    if s.pollState != PollIdle {
      TryReadShape(s);
      var (t, complete) := TryReadFrameStep(s);
      if complete {
        HandleFrameShape(t, addr, now);
      }
    }
  }

  /** The cycle samples oxygen before temperature: WAIT_TEMP is entered only
      from WAIT_DO on a parsed frame, storing its value as the oxygen
      reading and sending the temperature request. */
  lemma OxygenBeforeTemperature(s: Session, addr: byte, now: u32)
    requires |s.rx| <= MAX_BUF_SIZE
    requires UpdateStep(s, addr, now).pollState == PollWaitTemp && s.pollState != PollWaitTemp
    ensures s.pollState == PollWaitDo
    ensures FrameComplete(Fill(s).rx) && ParseData(Fill(s).rx) == Parsed(UpdateStep(s, addr, now).oxygen)
    ensures UpdateStep(s, addr, now).sent == s.sent + [ReadRequest(addr, REG_PMC6, REG_BLOCK_LEN)]
    ensures UpdateStep(s, addr, now).status == StatusOk && UpdateStep(s, addr, now).lastReadTime == now
  {
    if s.pollState != PollIdle {
      TryReadShape(s);
      var (t, complete) := TryReadFrameStep(s);
      if complete {
        HandleFrameShape(t, addr, now);
      }
    }
  }

  /** Cached values change only through a parsed frame: the oxygen only in
      WAIT_DO, the temperature only in WAIT_TEMP. */
  lemma CacheChangesOnlyOnParsedFrame(s: Session, addr: byte, now: u32)
    requires |s.rx| <= MAX_BUF_SIZE
    ensures var t := UpdateStep(s, addr, now);
      (t.oxygen != s.oxygen ==> s.pollState == PollWaitDo && t.status == StatusOk)
      && (t.temperature != s.temperature ==> s.pollState == PollWaitTemp && t.status == StatusOk)
  {
    if s.pollState != PollIdle {
      TryReadShape(s);
      var (t, complete) := TryReadFrameStep(s);
      if complete {
        HandleFrameShape(t, addr, now);
      }
    }
  }

  /** A frame that fails to parse clears the buffer, sets the parse status
      and leaves the poll state and both cached values as they were. */
  lemma ParseFailureKeepsState(s: Session, addr: byte, now: u32)
    requires |s.rx| <= MAX_BUF_SIZE
    requires s.pollState != PollIdle
    requires FrameComplete(Fill(s).rx) && ParseData(Fill(s).rx).ParseFailed?
    ensures var t := UpdateStep(s, addr, now);
      && t.pollState == s.pollState && t.rx == []
      && t.status == ParseData(Fill(s).rx).status
      && t.oxygen == s.oxygen && t.temperature == s.temperature
      && t.sent == s.sent && t.lastReadTime == s.lastReadTime
  {
    if s.pollState != PollIdle {
      TryReadShape(s);
      var (t, complete) := TryReadFrameStep(s);
      if complete {
        HandleFrameShape(t, addr, now);
      }
    }
  }

  /** With no complete frame after more than 200 ms the cycle aborts to
      IDLE with TIMEOUT; the cached values and the last read time stay. */
  lemma TimeoutAbortsCycle(s: Session, addr: byte, now: u32)
    requires |s.rx| <= MAX_BUF_SIZE
    requires s.pollState != PollIdle
    requires !FrameComplete(Fill(s).rx) && Sub32(now, s.waitStartMs) > RESPONSE_TIMEOUT_MS
    ensures var t := UpdateStep(s, addr, now);
      && t.pollState == PollIdle && t.status == StatusTimeout && t.rx == []
      && t.oxygen == s.oxygen && t.temperature == s.temperature
      && t.lastReadTime == s.lastReadTime && t.sent == s.sent
  {
    if s.pollState != PollIdle {
      TryReadShape(s);
      var (t, complete) := TryReadFrameStep(s);
      if complete {
        HandleFrameShape(t, addr, now);
      }
    }
  }

  /** A new oxygen read is sent exactly when the engine is IDLE and at least
      500 ms have passed since the last successful read. */
  lemma OxygenReadOnlyWhenDue(s: Session, addr: byte, now: u32)
    requires |s.rx| <= MAX_BUF_SIZE && s.pollState == PollIdle
    ensures var t := UpdateStep(s, addr, now);
      if Sub32(now, s.lastReadTime) >= READ_INTERVAL_MS then
        && t.sent == s.sent + [ReadRequest(addr, REG_PMC1, REG_BLOCK_LEN)]
        && t.pollState == PollWaitDo && t.waitStartMs == now && t.rx == [] && t.incoming == []
        && t.status == StatusWaitingResponse
      else t == s
  {
  }

  /** Only two requests are ever written: the oxygen read from IDLE, the
      temperature read from WAIT_DO; a wait state sends nothing else. */
  lemma RequestsSent(s: Session, addr: byte, now: u32)
    requires |s.rx| <= MAX_BUF_SIZE
    ensures var t := UpdateStep(s, addr, now);
      || t.sent == s.sent
      || (s.pollState == PollIdle && t.sent == s.sent + [ReadRequest(addr, REG_PMC1, REG_BLOCK_LEN)])
      || (s.pollState == PollWaitDo && t.sent == s.sent + [ReadRequest(addr, REG_PMC6, REG_BLOCK_LEN)])
  {
    if s.pollState != PollIdle {
      TryReadShape(s);
      var (t, complete) := TryReadFrameStep(s);
      if complete {
        HandleFrameShape(t, addr, now);
      }
    }
  }

  /** A reply that arrives completely while waiting for the oxygen value
      (well-formed, zero status words) is stored and the temperature read
      follows at once. */
  lemma ProbeReplyAccepted(s: Session, addr: byte, now: u32, count: byte, data: seq<byte>, raw: bv32)
    requires s.pollState == PollWaitDo && s.rx == []
    requires IsMeasurementBlock(count, data, raw) && data[8..12] == [0, 0, 0, 0]
    requires s.incoming == ResponseFrame(addr, MODBUS_FUNC_READ_HOLDING, count, data)
    ensures var t := UpdateStep(s, addr, now);
      && t.oxygen == raw && t.status == StatusOk && t.pollState == PollWaitTemp
      && t.sent == s.sent + [ReadRequest(addr, REG_PMC6, REG_BLOCK_LEN)]
  {
    var f := ResponseFrame(addr, MODBUS_FUNC_READ_HOLDING, count, data);
    ResponseCompletes(addr, count, data, raw);
    ResponseParses(addr, count, data, raw);
    assert Fill(s).rx == f by {
      assert s.incoming[..|f|] == f;
    }
    ParsedOxygenStored(s, addr, now, raw);
  }

  // ---------------------------------------------------------------------
  // The driver object

  class VisiFermRS485 {
    const addr: byte
    const rxBuf: array<byte>
    var pollState: PollState
    var status: Status
    var oxygen: bv32
    var temperature: bv32
    var rxLen: nat
    var waitStartMs: u32
    var lastReadTime: u32
    /** The UART receive FIFO. */
    var incoming: seq<byte>
    /** Every frame written to the RS485 line. */
    var sent: seq<seq<byte>>

    ghost predicate Valid()
      reads this
    {
      rxBuf.Length == MAX_BUF_SIZE && rxLen <= MAX_BUF_SIZE
    }

    ghost function Model(): (s: Session)
      reads this, rxBuf
      requires Valid()
      ensures |s.rx| <= MAX_BUF_SIZE
    {
      Session(pollState, status, oxygen, temperature, rxBuf[..rxLen],
              waitStartMs, lastReadTime, incoming, sent)
    }

    constructor (deviceAddress: byte)
      ensures Valid() && fresh(rxBuf) && addr == deviceAddress
      ensures Model() == InitialSession()
    {
      addr := deviceAddress;
      rxBuf := new byte[MAX_BUF_SIZE];
      pollState, status := PollIdle, StatusNotInitialised;
      oxygen, temperature := NAN_BITS, NAN_BITS;
      rxLen, waitStartMs, lastReadTime := 0, 0, 0;
      incoming, sent := [], [];
    }

    /** `begin()`: empty the buffer, go IDLE, report NOT_INITIALISED. */
    method Begin() returns (st: Status)
      requires Valid()
      modifies this
      ensures Valid()
      ensures Model() == old(Model()).(rx := [], pollState := PollIdle, status := StatusNotInitialised)
      ensures st == StatusNotInitialised
    {
      rxLen := 0;
      pollState := PollIdle;
      status := StatusNotInitialised;
      st := status;
    }

    /** Bytes arriving on the RS485 line (the environment's side of the UART). */
    method Receive(bytes: seq<byte>)
      requires Valid()
      modifies this
      ensures Valid()
      ensures Model() == old(Model()).(incoming := old(incoming) + bytes)
    {
      incoming := incoming + bytes;
    }

    function GetOxygen(): bv32 reads this { oxygen }
    function GetTemperature(): bv32 reads this { temperature }
    function GetLastReadMs(): u32 reads this { lastReadTime }
    function GetStatus(): Status reads this { status }

    method SendReadRegisters(reg: bv16, count: bv16)
      requires Valid()
      modifies this
      ensures Valid()
      ensures Model() == old(Model()).(sent := old(sent) + [ReadRequest(addr, reg, count)], rx := [])
    {
      var startAddr := reg - 1;
      var frame := [addr, MODBUS_FUNC_READ_HOLDING, Hi(startAddr), Lo(startAddr), Hi(count), Lo(count)];
      var crc := ModbusCrc(frame, MODBUS_READ_REGISTER_MSG_LEN - CRC_LEN);
      assert frame[..6] == frame;
      frame := frame + [Lo(crc), Hi(crc)];
      sent := sent + [frame];
      rxLen := 0;
    }

    method SendReadDO(now: u32)
      requires Valid()
      modifies this
      ensures Valid()
      ensures Model() == SendRead(old(Model()), addr, REG_PMC1, PollWaitDo, now)
    {
      incoming := [];
      SendReadRegisters(REG_PMC1, REG_BLOCK_LEN);
      pollState := PollWaitDo;
      waitStartMs := now;
    }

    method SendReadTemp(now: u32)
      requires Valid()
      modifies this
      ensures Valid()
      ensures Model() == SendRead(old(Model()), addr, REG_PMC6, PollWaitTemp, now)
    {
      incoming := [];
      SendReadRegisters(REG_PMC6, REG_BLOCK_LEN);
      pollState := PollWaitTemp;
      waitStartMs := now;
    }

    /** The reading loop of `tryReadFrame()`: copy UART bytes into the
        buffer while there are any and the buffer is not full. */
    method DrainUart()
      requires Valid()
      modifies this, rxBuf
      ensures Valid()
      ensures Model() == Fill(old(Model()))
    {
      ghost var s := Model();
      var pending := incoming;
      var len := rxLen;
      while |pending| > 0 && len < MAX_BUF_SIZE
        modifies rxBuf
        invariant |s.rx| <= len <= MAX_BUF_SIZE
        invariant rxBuf[..len] + pending == s.rx + s.incoming
        invariant rxBuf[..|s.rx|] == s.rx
        decreases |pending|
      {
        rxBuf[len] := pending[0];
        pending := pending[1..];
        len := len + 1;
      }
      FillUnique(s, rxBuf[..len], pending);
      incoming := pending;
      rxLen := len;
    }

    method TryReadFrame() returns (complete: bool)
      requires Valid()
      modifies this, rxBuf
      ensures Valid()
      ensures (Model(), complete) == TryReadFrameStep(old(Model()))
    {
      DrainUart();
      complete := CheckFrame();
    }

    /** The length and CRC checks of `tryReadFrame()`. */
    method CheckFrame() returns (complete: bool)
      requires Valid()
      modifies this
      ensures Valid()
      ensures (Model(), complete) == CheckFrameStep(old(Model()))
    {
      var crcOk;
      complete, crcOk := CheckBuffered(rxBuf[..rxLen]);
      if complete && !crcOk {
        status := StatusCrcError;
      }
    }

    /** The frame-handling branch of `update()`. */
    method HandleFrame(now: u32)
      requires Valid()
      modifies this
      ensures Valid()
      ensures Model() == HandleFrameStep(old(Model()), addr, now)
    {
      var parsed := ParseData(rxBuf[..rxLen]);
      if parsed.Parsed? {
        StoreReading(parsed.raw, now);
      } else {
        status := parsed.status;
        rxLen := 0;
      }
    }

    /** A parsed value: store it for the current wait state, report OK,
        note the time and empty the buffer. */
    method StoreReading(v: bv32, now: u32)
      requires Valid()
      modifies this
      ensures Valid()
      ensures Model() == StoreStep(old(Model()), v, addr, now)
    {
      if pollState == PollWaitDo {
        oxygen := v;
        SendReadTemp(now);
      } else if pollState == PollWaitTemp {
        temperature := v;
        pollState := PollIdle;
      }
      status := StatusOk;
      lastReadTime := now;
      rxLen := 0;
    }

    /** The waiting branch of `update()`. */
    method AwaitResponse(now: u32)
      requires Valid()
      modifies this, rxBuf
      ensures Valid()
      ensures Model() == AwaitStep(old(Model()), addr, now)
    {
      var complete := TryReadFrame();
      if complete {
        HandleFrame(now);
      } else if Sub32(now, waitStartMs) > RESPONSE_TIMEOUT_MS {
        pollState := PollIdle;
        rxLen := 0;
        status := StatusTimeout;
      }
    }

    /** `update()` at millisecond `now`; returns the status. */
    method Update(now: u32) returns (st: Status)
      requires Valid()
      modifies this, rxBuf
      ensures Valid()
      ensures Model() == UpdateStep(old(Model()), addr, now)
      ensures st == status
    {
      if pollState == PollWaitDo || pollState == PollWaitTemp {
        AwaitResponse(now);
        return status;
      }
      if Sub32(now, lastReadTime) >= READ_INTERVAL_MS {
        SendReadDO(now);
        status := StatusWaitingResponse;
      }
      return status;
    }
  }
}
