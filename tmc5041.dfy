/** The TMC5041 dual stepper driver on SPI. Every access is a 5-byte
    datagram framed by chip select: an address byte whose bit 7 says write
    (1) or read (0), then a 32-bit word, most significant byte first.

    The SPI bus is not modelled: every datagram sent is appended to `sent`,
    and the bytes the chip clocks back during a read are a parameter. */
module Tmc5041 {
  import opened Mcu

  /** `eMotorStatus`. */
  datatype MotorStatus = MotorOk | MotorNotInitialised | MotorIncorrectVariable | MotorNullVariable

  /** `eMotorMode`: the ramp modes written to RAMPMODE. */
  datatype MotorMode = PositionControl | SpeedClockwise | SpeedCounterClockwise | Hold

  function ModeCode(m: MotorMode): (b: bv32)
    ensures b < 4
  {
    match m
    case PositionControl => 0x0
    case SpeedClockwise => 0x1
    case SpeedCounterClockwise => 0x2
    case Hold => 0x3
  }

  const WRITE_BIT: byte := 0x80
  const GCONF: byte := 0x00
  const GCONF_VALUE: bv32 := 0x08

  /** The four bytes of a word, most significant first. */
  function WordBytes(data: bv32): (r: seq<byte>)
    ensures |r| == 4
  {
    [((data >> 24) & 0xFF) as byte, ((data >> 16) & 0xFF) as byte,
     ((data >> 8) & 0xFF) as byte, (data & 0xFF) as byte]
  }

  /** `tmc_write(address, data)`: the datagram on the wire. */
  function WriteDatagram(address: byte, data: bv32): (r: seq<byte>)
    ensures |r| == 5
  {
    [address | WRITE_BIT] + WordBytes(data)
  }

  /** The word a read shifts in: `value = (value << 8) | byte` for each byte. */
  function Assemble(s: seq<byte>): bv32
  {
    if |s| == 0 then 0 else (Assemble(s[..|s| - 1]) << 8) | (s[|s| - 1] as bv32)
  }

  /** Four bytes written out. */
  lemma AssembleFour(s: seq<byte>)
    requires |s| == 4
    ensures Assemble(s) == (s[0] as bv32 << 24) | (s[1] as bv32 << 16) | (s[2] as bv32 << 8) | (s[3] as bv32)
  {
    var b0, b1, b2, b3 := s[0] as bv32, s[1] as bv32, s[2] as bv32, s[3] as bv32;
    AssembleSnoc(s, 1);
    AssembleSnoc(s, 2);
    AssembleSnoc(s, 3);
    AssembleSnoc(s, 4);
    assert s[..4] == s;
    ShiftLayout(b0, b1, b2, b3);
  }

  /** One more byte: the assembled prefix shifted, ORed with the byte. */
  lemma AssembleSnoc(s: seq<byte>, k: nat)
    requires 0 < k <= |s|
    ensures Assemble(s[..k]) == (Assemble(s[..k - 1]) << 8) | (s[k - 1] as bv32)
  {
    assert s[..k][..k - 1] == s[..k - 1];
  }

  lemma ShiftLayout(b0: bv32, b1: bv32, b2: bv32, b3: bv32)
    requires b0 < 256 && b1 < 256 && b2 < 256 && b3 < 256
    ensures ((((((((0 as bv32) << 8) | b0) << 8) | b1) << 8) | b2) << 8) | b3
            == (b0 << 24) | (b1 << 16) | (b2 << 8) | b3
  {
  }

  /** A write's address byte has bit 7 set and keeps the low seven bits of
      the register; a read's has bit 7 clear. */
  lemma AddressByteFlags(address: byte)
    ensures (address | WRITE_BIT) & 0x80 == 0x80 && (address | WRITE_BIT) & 0x7F == address & 0x7F
    ensures (address & 0x7F) & 0x80 == 0 && (address & 0x7F) & 0x7F == address & 0x7F
  {
  }

  /** The 32-bit word round-trips: assembling the data bytes of a write
      datagram gives the word written. */
  lemma WordRoundTrip(data: bv32)
    ensures Assemble(WordBytes(data)) == data
  {
    AssembleFour(WordBytes(data));
  }

  /** And the other way: splitting the word assembled from four bytes gives
      those bytes back. */
  lemma BytesRoundTrip(s: seq<byte>)
    requires |s| == 4
    ensures WordBytes(Assemble(s)) == s
  {
    AssembleFour(s);
  }

  /** A write datagram is the flagged address followed by the word. */
  lemma WriteDatagramDecodes(address: byte, data: bv32)
    ensures var d := WriteDatagram(address, data);
      d[0] & 0x80 == 0x80 && d[0] & 0x7F == address & 0x7F && Assemble(d[1..]) == data
  {
    AddressByteFlags(address);
    assert WriteDatagram(address, data)[1..] == WordBytes(data);
    WordRoundTrip(data);
  }

  // ---------------------------------------------------------------------
  // The driver object

  class DriveTmc5041 {
    const hasSpi: bool
    const cs: byte
    var isInit: bool
    var sent: seq<seq<byte>>

    /** `DriveTmc5041(spi, cs)`; `hasSpi` is whether the handle is non-null. */
    constructor (hasSpi: bool, cs: byte)
      ensures this.hasSpi == hasSpi && this.cs == cs && !isInit && sent == []
    {
      this.hasSpi := hasSpi;
      this.cs := cs;
      isInit := false;
      sent := [];
    }

    /** `begin()`: a null SPI handle is refused; otherwise the global
        configuration 0x08 is written to GCONF. */
    method Begin() returns (status: MotorStatus)
      modifies this
      ensures !hasSpi ==> status == MotorNullVariable && isInit == old(isInit) && sent == old(sent)
      ensures hasSpi ==> status == MotorOk && isInit && sent == old(sent) + [WriteDatagram(GCONF, GCONF_VALUE)]
    {
      if !hasSpi {
        return MotorNullVariable;
      }
      TmcWrite(GCONF, GCONF_VALUE);
      isInit := true;
      return MotorOk;
    }

    /** `tmc_write(address, data)`: one framed datagram. */
    method TmcWrite(address: byte, data: bv32)
      modifies this
      ensures sent == old(sent) + [WriteDatagram(address, data)]
      ensures isInit == old(isInit)
    {
      var frame := [address | WRITE_BIT];
      frame := frame + [((data >> 24) & 0xFF) as byte];
      frame := frame + [((data >> 16) & 0xFF) as byte];
      frame := frame + [((data >> 8) & 0xFF) as byte];
      frame := frame + [(data & 0xFF) as byte];
      assert frame == [address | WRITE_BIT] + WordBytes(data);
      sent := sent + [frame];
    }

    /** `tmc_read(address)`: the address byte with bit 7 clear, then four
        zero bytes while the chip answers with `miso`. */
    method TmcRead(address: byte, miso: seq<byte>) returns (value: bv32)
      requires |miso| == 4
      modifies this
      ensures value == Assemble(miso)
      ensures sent == old(sent) + [[address & 0x7F, 0, 0, 0, 0]]
      ensures isInit == old(isInit)
    {
      value := 0;
      var i := 0;
      while i < 4
        invariant 0 <= i <= 4
        invariant value == Assemble(miso[..i])
      {
        value := (value << 8) | (miso[i] as bv32);
        assert miso[..i + 1][..i] == miso[..i];
        i := i + 1;
      }
      assert miso[..4] == miso;
      sent := sent + [[address & 0x7F, 0, 0, 0, 0]];
    }
  }
}
