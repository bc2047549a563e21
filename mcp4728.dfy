/** The MCP4728 four-channel DAC: voltages mapped to 12-bit codes over a
    fixed range per channel, single-channel writes through the DAC command,
    and the all-channel write and status read over the I2C adapter. */
module MCP4728 {
  import opened Numeric
  import opened Outcomes
  import opened CommandsProto
  import opened PacketHandler
  import opened I2CBus

  const BASE_ADDRESS: nat := 0x60

  /** VRANGES: the output range of each channel, low then high. */
  const VRANGES: seq<(real, real)> := [(0.0, 3.3), (0.0, 3.3), (-3.3, 3.3), (-5.0, 5.0)]

  /** setVoltage's code: `int(4095 * (v - R0) / (R1 - R0))`. */
  function RawCode(chan: nat, v: real): int
    requires chan < 4
  {
    var (lo, hi) := VRANGES[chan];
    Trunc(4095.0 * (v - lo) / (hi - lo))
  }

  /** The voltage a code stands for: `(R1 - R0) * v / 4095. + R0`, as
      __setRawVoltage__ computes it. */
  function Readback(chan: nat, raw: int): real
    requires chan < 4
  {
    var (lo, hi) := VRANGES[chan];
    (hi - lo) * raw as real / 4095.0 + lo
  }

  /** setVoltage's own return, `(R[1]-R[0])*v/4095+R[0]`: for channel 3
      the range holds Python ints, so Python 2 divides by 4095 as an
      integer division. */
  function ReadbackAsWritten(chan: nat, raw: int): real
    requires chan < 4
  {
    if chan == 3 then ((10 * raw) / 4095 - 5) as real else Readback(chan, raw)
  }

  /** For a voltage inside its channel's range the code is in 0..4095 and
      the voltage it stands for is at most one step below the request. */
  lemma ReadbackBrackets(chan: nat, v: real)
    requires chan < 4 && VRANGES[chan].0 <= v <= VRANGES[chan].1
    ensures 0 <= RawCode(chan, v) <= 4095
    ensures Readback(chan, RawCode(chan, v)) <= v < Readback(chan, RawCode(chan, v) + 1)
  {
    var (lo, hi) := VRANGES[chan];
    var x := 4095.0 * (v - lo) / (hi - lo);
    var raw := RawCode(chan, v);
    assert 0.0 <= x <= 4095.0;
    assert raw as real <= x < raw as real + 1.0;
    assert Readback(chan, raw) == (hi - lo) * raw as real / 4095.0 + lo;
    assert v == (hi - lo) * x / 4095.0 + lo;
  }

  /** setVoltage(3, 0.0) sends code 2047, which stands for about -0.0012 V,
      yet returns -1. */
  lemma ReadbackAsWrittenFloors()
    ensures RawCode(3, 0.0) == 2047
    ensures ReadbackAsWritten(3, 2047) == -1.0
    ensures -0.01 < Readback(3, 2047) < 0.0
  {
    assert 4095.0 * (0.0 - -5.0) / (5.0 - -5.0) == 2047.5;
  }

  /** The word __setRawVoltage__ sends: the reference bit at 15, the
      power-down bits at 13, bit 12 set and the code below, in the low 16
      bits that __sendInt__ keeps (Python's | on a negative code agrees
      with this in those bits). */
  function ChannelWord(vref: nat, off: nat, raw: int): nat
  {
    Or(Or(Or(vref * 32768, off * 8192), 4096), raw % 65536)
  }

  /** With a one-bit reference and power-down setting and a code within 12
      bits, the word is the sum of its fields, so its low 12 bits are the
      code. */
  lemma ChannelWordFields(vref: nat, off: nat, raw: int)
    requires vref < 2 && off < 2 && 0 <= raw <= 4095
    ensures ChannelWord(vref, off, raw) == 32768 * vref + 8192 * off + 4096 + raw
    ensures ChannelWord(vref, off, raw) % 4096 == raw
  {
    assert Pow2(12) == 4096 && Pow2(13) == 8192 && Pow2(15) == 32768;
    DivUnique(raw, 65536, 0, raw);
    // the reference and power-down bits, as a multiple of 2^13
    var c: nat := 4 * vref + off;
    assert Or(vref * 32768, off * 8192) == c * 8192 by {
      if vref == 1 && off == 1 {
        OrAbove(1, 32768, 15, 8192);
      }
    }
    OrAbove(c, 8192, 13, 4096);
    var k: nat := 2 * c + 1;
    assert c * 8192 + 4096 == k * 4096;
    var high := Or(Or(vref * 32768, off * 8192), 4096);
    assert high == k * 4096;
    OrAbove(k, 4096, 12, raw);
    assert ChannelWord(vref, off, raw) == Or(high, raw);
    FieldSum(vref, off, raw, ChannelWord(vref, off, raw));
  }

  /** The arithmetic of the word's fields. */
  lemma FieldSum(vref: nat, off: nat, raw: int, w: int)
    requires 0 <= raw < 4096 && w == raw + (8 * vref + 2 * off + 1) * 4096
    ensures w == 32768 * vref + 8192 * off + 4096 + raw && w % 4096 == raw
  {
    DivUnique(w, 4096, 8 * vref + 2 * off + 1, raw);
  }

  /** Setting bits above a value's highest bit adds them. */
  lemma OrAbove(c: nat, m: nat, k: nat, a: nat)
    requires m == Pow2(k) && a < m
    ensures Or(c * m, a) == c * m + a
  {
    OrComm(c * m, a);
    OrDisjoint(a, c, k);
  }

  /** `(v >> 8) & 0xF` and `v & 0xFF`: the two bytes __writeall__ sends for
      each code. */
  function HighNibble(v: int): byte
  {
    (v / 256) % 16
  }

  function LowByte(v: int): byte
  {
    v % 256
  }

  /** A 12-bit code is rebuilt from its two bytes. */
  lemma NibbleBytesRoundTrip(v: int)
    requires 0 <= v < 4096
    ensures 256 * HighNibble(v) + LowByte(v) == v
  {
  }

  /** The send steps of __writeall__: for each code its high nibble,
      then its low byte. */
  function CodeFrames(vs: seq<int>): (fs: seq<seq<byte>>)
    ensures |fs| == 2 * |vs|
    ensures forall i :: 0 <= i < |vs| ==>
      fs[2 * i] == SendCmd(HighNibble(vs[i])) && fs[2 * i + 1] == SendCmd(LowByte(vs[i]))
  {
    assert forall i :: 0 <= i < |vs| ==>
      (2 * i) % 2 == 0 && (2 * i) / 2 == i && (2 * i + 1) % 2 == 1 && (2 * i + 1) / 2 == i;
    seq(2 * |vs|, j requires 0 <= j < 2 * |vs| =>
      if j % 2 == 0 then SendCmd(HighNibble(vs[j / 2])) else SendCmd(LowByte(vs[j / 2])))
  }

  /** The steps of __writeall__: one start in write mode, the eight sends,
      and one stop. */
  function WriteAllFrames(address: nat, vs: seq<int>): (fs: seq<seq<byte>>)
    ensures |fs| == 2 * |vs| + 2
  {
    [StartCmd(address, 0)] + CodeFrames(vs) + [STOP_CMD]
  }

  class MCP4728 {
    const H: Handler
    const bus: I2C
    const devid: nat
    const addr: nat
    const switchedOff: seq<nat>
    const vrefs: seq<nat>

    /** MCP4728(H, devid=0): address `0x60 | devid`, every channel on and
        referenced to Vdd. */
    constructor(h: Handler, devid: nat := 0)
      ensures H == h && bus.H == h && fresh(bus)
      ensures this.devid == devid && addr == Or(BASE_ADDRESS, devid)
      ensures switchedOff == [0, 0, 0, 0] && vrefs == [0, 0, 0, 0]
      ensures Valid()
    {
      H := h;
      bus := new I2C(h);
      this.devid := devid;
      addr := Or(BASE_ADDRESS, devid);
      switchedOff := [0, 0, 0, 0];
      vrefs := [0, 0, 0, 0];
    }

    predicate Valid()
    {
      |switchedOff| == 4 && |vrefs| == 4 && bus.H == H
    }

    /** __setRawVoltage__(chan, v): DAC, SET_DAC, the address shifted left
        by one, the channel and the channel word, then the acknowledgement;
        returns the voltage the code stands for.  The shifted address or
        the channel past a byte fails where chr() meets it; a channel past
        the four fails in the list lookup, before the word is sent. */
    method SetRawVoltage(chan: nat, v: int) returns (r: Result<real>)
      requires Valid()
      modifies H
      ensures var p, a := old(H.State()), 2 * addr;
        if a >= 256 then r == Err(InvalidByte) && H.State() == Xfer(p, [DAC, SET_DAC], 0, 0)
        else if chan >= 256 then r == Err(InvalidByte) && H.State() == Xfer(p, [DAC, SET_DAC, a as byte], 0, 0)
        else if chan >= 4 then
          r == Err(IndexOutOfRange) && H.State() == Xfer(p, [DAC, SET_DAC, a as byte, chan as byte], 0, 0)
        else
          H.State() == Xfer(p, [DAC, SET_DAC, a as byte, chan as byte] +
                               IntToString(ChannelWord(vrefs[chan], switchedOff[chan], v)), 0, 1) &&
          (r.Ok? <==> Answers(p, 0, 1)) && (r.Err? ==> r == Err(MissingAck)) &&
          (r.Ok? ==> r.value == Readback(chan, v))
    {
      if 2 * addr >= 256 {
        H.SendBytes([DAC, SET_DAC]);
        return Err(InvalidByte);
      }
      if chan >= 256 {
        H.SendBytes([DAC, SET_DAC, (2 * addr) as byte]);
        return Err(InvalidByte);
      }
      if chan >= 4 {
        H.SendBytes([DAC, SET_DAC, (2 * addr) as byte, chan as byte]);
        return Err(IndexOutOfRange);
      }
      var head := [DAC, SET_DAC, (2 * addr) as byte, chan as byte];
      var word := ChannelWord(vrefs[chan], switchedOff[chan], v);
      assert head + Words([word]) + [] == head + IntToString(word);
      var _ :- H.Command(head, [word], []);
      r := Ok(Readback(chan, v));
    }

    /** setVoltage(chan, v) as written: the code of v over the channel's
        range written with __setRawVoltage__; returns ReadbackAsWritten of
        that code, which for channel 3 is rounded down to a whole volt
        (ReadbackAsWrittenFloors). */
    method SetVoltage(chan: nat, v: real) returns (r: Result<real>)
      requires Valid()
      modifies H
      ensures chan >= 4 ==> r == Err(IndexOutOfRange) && H.State() == old(H.State())
      ensures var p, a := old(H.State()), 2 * addr;
        chan < 4 && a < 256 ==>
          H.State() == Xfer(p, [DAC, SET_DAC, a as byte, chan as byte] +
                               IntToString(ChannelWord(vrefs[chan], switchedOff[chan], RawCode(chan, v))), 0, 1) &&
          (r.Ok? <==> Answers(p, 0, 1)) && (r.Err? ==> r == Err(MissingAck)) &&
          (r.Ok? ==> r.value == ReadbackAsWritten(chan, RawCode(chan, v)))
      ensures chan < 4 && 2 * addr >= 256 ==>
        r == Err(InvalidByte) && H.State() == Xfer(old(H.State()), [DAC, SET_DAC], 0, 0)
    {
      if chan >= 4 {
        return Err(IndexOutOfRange);
      }
      var raw := RawCode(chan, v);
      var _ :- SetRawVoltage(chan, raw);
      r := Ok(ReadbackAsWritten(chan, raw));
    }

    /** setVoltage(chan, v) as intended: the same write, returning the
        voltage the code stands for as __setRawVoltage__ computes it, never
        more than v and less than one step below it when v is in range
        (ReadbackBrackets). */
    method SetVoltageIntended(chan: nat, v: real) returns (r: Result<real>)
      requires Valid()
      modifies H
      ensures chan >= 4 ==> r == Err(IndexOutOfRange) && H.State() == old(H.State())
      ensures var p, a := old(H.State()), 2 * addr;
        chan < 4 && a < 256 ==>
          H.State() == Xfer(p, [DAC, SET_DAC, a as byte, chan as byte] +
                               IntToString(ChannelWord(vrefs[chan], switchedOff[chan], RawCode(chan, v))), 0, 1) &&
          (r.Ok? <==> Answers(p, 0, 1)) && (r.Err? ==> r == Err(MissingAck)) &&
          (r.Ok? ==> r.value == Readback(chan, RawCode(chan, v)))
      ensures chan < 4 && 2 * addr >= 256 ==>
        r == Err(InvalidByte) && H.State() == Xfer(old(H.State()), [DAC, SET_DAC], 0, 0)
    {
      if chan >= 4 {
        return Err(IndexOutOfRange);
      }
      var raw := RawCode(chan, v);
      var _ :- SetRawVoltage(chan, raw);
      r := Ok(Readback(chan, raw));
    }

    /** __writeall__(v1, v2, v3, v4): one write transaction carrying each
        code as its high nibble and low byte, every step acknowledged; a
        missing acknowledgement ends it after its step. */
    method WriteAll(v1: int, v2: int, v3: int, v4: int) returns (r: Result<()>)
      modifies H
      ensures var p, fs := old(H.State()), WriteAllFrames(addr, [v1, v2, v3, v4]);
        (r.Ok? <==> Answers(p, 0, 10)) &&
        (r.Ok? ==> H.State() == Xfer(p, Concat(fs), 0, 10)) &&
        (r.Err? ==>
          r == Err(MissingAck) && !p.loadBurst && |p.incoming| < 10 &&
          H.State() == Xfer(p, Concat(fs[..|p.incoming| + 1]), 0, |p.incoming| + 1))
    {
      r := H.Steps(WriteAllFrames(addr, [v1, v2, v3, v4]));
    }

    /** stat(): the 24 bytes read from register 0, which the driver prints. */
    method Stat() returns (r: Result<seq<byte>>)
      requires Valid()
      modifies H
      ensures var p := old(H.State());
        (r.Ok? <==> Answers(p, 24, 28)) &&
        (r.Ok? ==>
          H.State() == Xfer(p, RegisterCmds(false, addr, 0) + ReadCmds(23) + STOP_CMD, 24, 28) &&
          r.value == RegisterReply(p, 24))
      ensures r.Err? ==> r == Err(MissingAck) || r == Err(CommunicationError)
    {
      r := bus.ReadRegisters(false, addr, 0, 24);
    }
  }
}
