/** The 24-channel I2C I/O expander (PI4IOE5V6524) that switches the 20
    eFuses and 4 debug LEDs. The driver keeps a 3-byte mirror of the output
    registers, one bit per channel, and rewrites all three bytes on every
    change.

    The bus is not modelled: every transmission is appended to `written`,
    and what `endTransmission` returns is a parameter. */
module IoExpander {
  import opened Mcu

  const OUTPUT_COUNT: nat := 24
  const REGISTER_OFF: byte := 0x00
  const CONFIG_OUTPUT_MODE: byte := 0x00
  const IOE_PORT_BYTES: nat := 3
  const IOE_I2C_ADDRESS: byte := 0x46 >> 1
  const IOE_REG_INPUT: byte := 0x00
  const IOE_REG_OUTPUT: byte := 0x04
  const IOE_REG_POLARITY: byte := 0x08
  const IOE_REG_CONFIG: byte := 0x0C

  /** A `uint8_t` channel number. */
  type Channel = c: int | 0 <= c < 256

  /** One I2C transmission: the register, then the data bytes. */
  datatype I2cWrite = I2cWrite(reg: byte, data: seq<byte>)

  const BIT_MASKS: seq<byte> := [0x01, 0x02, 0x04, 0x08, 0x10, 0x20, 0x40, 0x80]

  /** `1U << bit` cast to `uint8_t`, as a table. */
  function BitMask(bit: nat): byte
    requires bit < 8
  {
    BIT_MASKS[bit]
  }

  /** The table is the shift. */
  lemma BitMaskIsShift(bit: nat)
    requires bit < 8
    ensures BitMask(bit) == (1 as byte) << bit
  {
  }

  /** Whether bit `k` of `x` is 1. */
  predicate BitSet(x: byte, k: nat)
    requires k < 8
  {
    x & BitMask(k) != 0
  }

  /** `x |= 1 << k` when `on`, `x &= ~(1 << k)` otherwise. */
  function WriteBit(x: byte, k: nat, on: bool): byte
    requires k < 8
  {
    if on then x | BitMask(k) else x & !BitMask(k)
  }

  /** Whether channel `c` is on in the mirror: bit `c % 8` of byte `c / 8`. */
  predicate ChannelOn(m: seq<byte>, c: nat)
    requires |m| == IOE_PORT_BYTES && c < OUTPUT_COUNT
  {
    BitSet(m[c / 8], c % 8)
  }

  /** The mirror after `setEfuse(channel, state)`. */
  function SetEfuseStep(m: seq<byte>, channel: Channel, state: bool): (r: seq<byte>)
    requires |m| == IOE_PORT_BYTES
    ensures |r| == IOE_PORT_BYTES
  {
    if channel >= OUTPUT_COUNT then m
    else
      var port := channel / 8;
      var bit := channel % 8;
      m[port := WriteBit(m[port], bit, state)]
  }

  // ---------------------------------------------------------------------
  // Bit facts

  /** Writing bit i sets it to the value written and keeps every other bit. */
  lemma WriteBitSpec(x: byte, i: nat, on: bool, j: nat)
    requires i < 8 && j < 8
    ensures BitSet(WriteBit(x, i, on), i) == on
    ensures i != j ==> BitSet(WriteBit(x, i, on), j) == BitSet(x, j)
  {
    var a, b := BitMask(i), BitMask(j);
    assert a == 0x01 || a == 0x02 || a == 0x04 || a == 0x08 || a == 0x10 || a == 0x20 || a == 0x40 || a == 0x80;
    assert b == 0x01 || b == 0x02 || b == 0x04 || b == 0x08 || b == 0x10 || b == 0x20 || b == 0x40 || b == 0x80;
    assert i != j ==> a != b;
  }

  /** Two bytes with the same eight bits are equal. */
  lemma ByteFromBits(x: byte, y: byte)
    requires forall k :: 0 <= k < 8 ==> BitSet(x, k) == BitSet(y, k)
    ensures x == y
  {
    assert BitSet(x, 0) == BitSet(y, 0) && BitSet(x, 1) == BitSet(y, 1);
    assert BitSet(x, 2) == BitSet(y, 2) && BitSet(x, 3) == BitSet(y, 3);
    assert BitSet(x, 4) == BitSet(y, 4) && BitSet(x, 5) == BitSet(y, 5);
    assert BitSet(x, 6) == BitSet(y, 6) && BitSet(x, 7) == BitSet(y, 7);
  }

  /** Channel `8 p + k` is bit k of byte p. */
  lemma ChannelOnAt(m: seq<byte>, p: nat, k: nat)
    requires |m| == IOE_PORT_BYTES && p < IOE_PORT_BYTES && k < 8
    ensures ChannelOn(m, 8 * p + k) == BitSet(m[p], k)
  {
    assert (8 * p + k) / 8 == p && (8 * p + k) % 8 == k;
  }

  // ---------------------------------------------------------------------
  // Properties

  /** A channel at or above 24 leaves the mirror untouched. */
  lemma OutOfRangeIgnored(m: seq<byte>, channel: Channel, state: bool)
    requires |m| == IOE_PORT_BYTES && channel >= OUTPUT_COUNT
    ensures SetEfuseStep(m, channel, state) == m
  {
  }

  /** Two different channels differ in their byte or in their bit. */
  lemma DistinctChannels(c: nat, d: nat)
    requires c != d
    ensures c / 8 != d / 8 || c % 8 != d % 8
  {
  }

  /** After `setEfuse(c, s)` channel c reads `s`. */
  lemma SetEfuseTarget(m: seq<byte>, c: Channel, state: bool)
    requires |m| == IOE_PORT_BYTES && c < OUTPUT_COUNT
    ensures ChannelOn(SetEfuseStep(m, c, state), c) == state
  {
    WriteBitSpec(m[c / 8], c % 8, state, c % 8);
  }

  /** After `setEfuse(c, s)` every other channel reads what it read before. */
  lemma SetEfuseOthers(m: seq<byte>, c: Channel, state: bool, d: nat)
    requires |m| == IOE_PORT_BYTES && c < OUTPUT_COUNT && d < OUTPUT_COUNT && d != c
    ensures ChannelOn(SetEfuseStep(m, c, state), d) == ChannelOn(m, d)
  {
    DistinctChannels(c, d);
    if d / 8 == c / 8 {
      WriteBitSpec(m[c / 8], c % 8, state, d % 8);
    }
  }

  /** Both halves: channel c reads `s`, every other channel is unchanged. */
  lemma SetEfuseExact(m: seq<byte>, c: Channel, state: bool, d: nat)
    requires |m| == IOE_PORT_BYTES && c < OUTPUT_COUNT && d < OUTPUT_COUNT
    ensures ChannelOn(SetEfuseStep(m, c, state), c) == state
    ensures d != c ==> ChannelOn(SetEfuseStep(m, c, state), d) == ChannelOn(m, d)
  {
    SetEfuseTarget(m, c, state);
    if d != c {
      SetEfuseOthers(m, c, state, d);
    }
  }

  /** Repeating the same call changes nothing more. */
  lemma SetEfuseIdempotent(m: seq<byte>, c: Channel, state: bool)
    requires |m| == IOE_PORT_BYTES
    ensures SetEfuseStep(SetEfuseStep(m, c, state), c, state) == SetEfuseStep(m, c, state)
  {
  }

  /** The mirror is a function of the channel bits: two mirrors that agree
      on every channel are equal. */
  lemma MirrorDeterminedByChannels(m1: seq<byte>, m2: seq<byte>)
    requires |m1| == IOE_PORT_BYTES && |m2| == IOE_PORT_BYTES
    requires forall c: nat :: c < OUTPUT_COUNT ==> ChannelOn(m1, c) == ChannelOn(m2, c)
    ensures m1 == m2
  {
    forall p | 0 <= p < IOE_PORT_BYTES
      ensures m1[p] == m2[p]
    {
      forall k | 0 <= k < 8
        ensures BitSet(m1[p], k) == BitSet(m2[p], k)
      {
        assert ChannelOn(m1, 8 * p + k) == ChannelOn(m2, 8 * p + k);
        ChannelOnAt(m1, p, k);
        ChannelOnAt(m2, p, k);
      }
      ByteFromBits(m1[p], m2[p]);
    }
  }

  /** Calls on two different channels commute: the mirror does not depend
      on their order. */
  lemma SetEfuseCommutes(m: seq<byte>, c1: Channel, s1: bool, c2: Channel, s2: bool)
    requires |m| == IOE_PORT_BYTES && c1 != c2
    ensures SetEfuseStep(SetEfuseStep(m, c1, s1), c2, s2) == SetEfuseStep(SetEfuseStep(m, c2, s2), c1, s1)
  {
    var a := SetEfuseStep(SetEfuseStep(m, c1, s1), c2, s2);
    var b := SetEfuseStep(SetEfuseStep(m, c2, s2), c1, s1);
    forall d: nat | d < OUTPUT_COUNT
      ensures ChannelOn(a, d) == ChannelOn(b, d)
    {
      ChannelAfterTwo(m, c1, s1, c2, s2, d);
      ChannelAfterTwo(m, c2, s2, c1, s1, d);
    }
    MirrorDeterminedByChannels(a, b);
  }

  /** Channel d after two calls on different channels: the one aimed at it
      decides, or it keeps its old value. */
  lemma ChannelAfterTwo(m: seq<byte>, c1: Channel, s1: bool, c2: Channel, s2: bool, d: nat)
    requires |m| == IOE_PORT_BYTES && c1 != c2 && d < OUTPUT_COUNT
    ensures var r := SetEfuseStep(SetEfuseStep(m, c1, s1), c2, s2);
      ChannelOn(r, d) == (if d == c1 && c1 < OUTPUT_COUNT then s1
                          else if d == c2 && c2 < OUTPUT_COUNT then s2
                          else ChannelOn(m, d))
  {
    var m1 := SetEfuseStep(m, c1, s1);
    if c1 < OUTPUT_COUNT {
      SetEfuseExact(m, c1, s1, d);
    }
    if c2 < OUTPUT_COUNT {
      SetEfuseExact(m1, c2, s2, d);
    }
  }

  // ---------------------------------------------------------------------
  // The driver object

  class IOExpander {
    const outputs: array<byte>
    var written: seq<I2cWrite>

    ghost predicate Valid()
      reads this
    {
      outputs.Length == IOE_PORT_BYTES
    }

    constructor ()
      ensures Valid() && fresh(outputs)
      ensures outputs[..] == [REGISTER_OFF, REGISTER_OFF, REGISTER_OFF] && written == []
    {
      outputs := new byte[IOE_PORT_BYTES](_ => REGISTER_OFF);
      written := [];
    }

    /** `writeBytes(reg, data, len)`: one transmission; true when the bus
        acknowledged (`ack == 0`). */
    method WriteBytes(reg: byte, data: seq<byte>, ack: byte) returns (ok: bool)
      modifies this
      ensures written == old(written) + [I2cWrite(reg, data)]
      ensures ok <==> ack == 0
    {
      written := written + [I2cWrite(reg, data)];
      ok := ack == 0;
    }

    /** `begin()`: configure all 24 pins as outputs, then clear and write
        the mirror; `configAck` and `outputAck` are the two transmissions'
        results. */
    method Begin(configAck: byte, outputAck: byte) returns (ok: bool)
      requires Valid()
      modifies this, outputs
      ensures Valid()
      ensures configAck != 0 ==>
        !ok && outputs[..] == old(outputs[..])
        && written == old(written) + [I2cWrite(IOE_REG_CONFIG, [0, 0, 0])]
      ensures configAck == 0 ==>
        (ok <==> outputAck == 0) && outputs[..] == [0, 0, 0]
        && written == old(written) + [I2cWrite(IOE_REG_CONFIG, [0, 0, 0]), I2cWrite(IOE_REG_OUTPUT, [0, 0, 0])]
    {
      var cfg := [CONFIG_OUTPUT_MODE, CONFIG_OUTPUT_MODE, CONFIG_OUTPUT_MODE];
      var configured := WriteBytes(IOE_REG_CONFIG, cfg, configAck);
      if !configured {
        return false;
      }
      outputs[0] := REGISTER_OFF;
      outputs[1] := REGISTER_OFF;
      outputs[2] := REGISTER_OFF;
      var cleared := WriteBytes(IOE_REG_OUTPUT, outputs[..], outputAck);
      if !cleared {
        return false;
      }
      return true;
    }

    /** `setEfuse(channel, state)`; the write's result is ignored, as in the
        code. */
    method SetEfuse(channel: Channel, state: bool)
      requires Valid()
      modifies this, outputs
      ensures Valid()
      ensures outputs[..] == SetEfuseStep(old(outputs[..]), channel, state)
      ensures channel >= OUTPUT_COUNT ==> written == old(written)
      ensures channel < OUTPUT_COUNT ==> written == old(written) + [I2cWrite(IOE_REG_OUTPUT, outputs[..])]
    {
      if channel >= OUTPUT_COUNT {
        return;
      }
      var port := channel / 8;
      var bit := channel % 8;
      UpdateMirror(port, bit, state);
      var _ := WriteBytes(IOE_REG_OUTPUT, outputs[..], 0);
    }

    /** The bit update of `setEfuse` on the mirror byte `port`. */
    method UpdateMirror(port: nat, bit: nat, state: bool)
      requires Valid() && port < IOE_PORT_BYTES && bit < 8
      modifies outputs
      ensures outputs[..] == old(outputs[..])[port := WriteBit(old(outputs[port]), bit, state)]
    {
      if state {
        outputs[port] := outputs[port] | BitMask(bit);
      } else {
        outputs[port] := outputs[port] & !BitMask(bit);
      }
    }
  }
}
