/** The Interface object of the driver: the command sequences it sends
    through the packet handler for the oscilloscope, the logic analyzer,
    the waveform generator and the digital outputs, and the settings it
    keeps between commands.

    Every state-changing command is stated by the handler step it amounts
    to (`Xfer` of the bytes sent, the data read and the acknowledgements
    expected) and by the new value of the settings it updates. */
module ScopeInterface {
  import opened Numeric
  import opened Outcomes
  import opened CommandsProto
  import opened PacketHandler
  import opened AnalogChannels
  import opened ScopeMath
  import opened CaptureFetch

  /** The 4000 slots of the shared sample buffer. */
  const BUFFER_SLOTS := 4000

  /** The start-up DDS clock in Hz, before map_reference_clock replaces it. */
  const INITIAL_DDS_CLOCK := 1000000.0

  const INITIAL_GAINS: map<string, int> := map["CH1" := 0, "CH2" := 0, "CH3" := 0, "CH4" := 0]

  /** The settings start_one_channel_LA / start_four_channel_LA leave on a
      digital channel: prescaler, datatype, length, maximum time in
      microseconds and capture mode. */
  datatype DigitalSetup = DigitalSetup(prescaler: int, kind: string, length: int,
                                       maximumTime: real, mode: int)

  /** The scalar settings of the Interface object. */
  datatype Settings = Settings(timebase: real, samples: int, channelsInBuffer: int,
                               digitalChannelsInBuffer: int, analogGains: map<string, int>,
                               sensorGain: int, sensorMultiplexChannel: int, ddsClock: real)

  /** The four progress counts and the initial input levels that
      get_LA_initial_states returns. */
  datatype LaStates = LaStates(a: int, b: int, c: int, d: int, levels: seq<bool>)

  /** pga_chip_select_map: the amplifier behind an input; CH1-CH4 have
      their own, the multiplexed inputs share amplifier 5. */
  function PgaChipSelect(name: string): (r: Option<byte>)
    ensures r.Some? <==> name in INITIAL_GAINS || UnipolarIndex(name) != -1
    ensures UnipolarIndex(name) != -1 ==> r == Some(5)
    ensures r.Some? ==> 1 <= r.value <= 5
  {
    if name == "CH1" then Some(1) else if name == "CH2" then Some(2)
    else if name == "CH3" then Some(3) else if name == "CH4" then Some(4)
    else if UnipolarIndex(name) != -1 then Some(5) else None
  }

  /** The channel bit 1 << chan, for a channel whose bit fits a byte. */
  function ChannelBit(chan: int): (b: byte)
    requires 0 <= chan < 8
    ensures b == Pow2(chan)
  {
    PowMonotone(chan, 7);
    assert Pow2(7) == 128;
    Pow2(chan)
  }

  /** From channel 8 on, 1 << chan no longer fits a byte. */
  lemma ShiftOverflowsByte(chan: int)
    requires chan >= 8
    ensures Pow2(chan) >= 256
  {
    PowMonotone(8, chan);
    assert Pow2(8) == 256;
  }

  /** Whether __calcCHOSA__ has to select a multiplexed input on the device:
      the name is one of them and differs from the cached selection. */
  predicate MuxSwitch(name: string, cached: int)
  {
    UnipolarIndex(Upper(name)) != -1 && UnipolarIndex(Upper(name)) != cached
  }

  /** The handler state after __calcCHOSA__(name). */
  function MuxPort(p: Port, name: string, cached: int): Port
  {
    if MuxSwitch(name, cached) then Xfer(p, [ADC, SELECT_PGA_CHANNEL, UnipolarIndex(Upper(name))], 0, 1) else p
  }

  /** The cached multiplexer selection after __calcCHOSA__(name). */
  function MuxCache(name: string, cached: int): int
  {
    if UnipolarIndex(Upper(name)) != -1 then UnipolarIndex(Upper(name)) else cached
  }

  /** The gain capture_traces gives the first channel: its analog gain, the
      sensor gain for a multiplexed input, 0 for anything else. */
  function CaptureGain(gains: map<string, int>, sensorGain: int, name: string): int
  {
    if name in gains then gains[name] else if UnipolarIndex(name) != -1 then sensorGain else 0
  }

  /** How many channel objects capture_traces reconfigures: 1, 2, or all
      four for three or four channels. */
  function ActiveChannels(num: int): (n: nat)
    requires 1 <= num <= 4
    ensures 1 <= n <= 4
  {
    if num == 1 then 1 else if num == 2 then 2 else 4
  }

  /** Whether capture_traces reconfigures channel object i. */
  predicate Reconfigured(num: int, i: nat)
  {
    1 <= num <= 4 && i < ActiveChannels(num)
  }

  /** The capture opcode and the selector byte, for a channel count that
      has an opcode; nothing otherwise. */
  function CaptureHead(num: int, sel: nat): (r: seq<byte>)
    requires CaptureOpcode(num).Some? ==> sel < 256
    ensures CaptureOpcode(num).Some? ==> r == [CaptureOpcode(num).value, sel as byte]
    ensures CaptureOpcode(num).None? ==> r == []
  {
    if CaptureOpcode(num).Some? then [CaptureOpcode(num).value, sel as byte] else []
  }

  /** The name set_params gives channel object i in capture_traces. */
  function CaptureName(i: nat, first: string): string
    requires i < 4
  {
    if i == 0 then first else BIPOLAR_NAMES[i]
  }

  /** A channel's parameters after set_params(channel=name, length=n, timebase=t). */
  function Retuned(c: ChannelParams, name: string, n: int, t: real): ChannelParams
  {
    c.(name := name, length := n, timebase := t)
  }

  /** The channel parameters once capture_traces has assigned the gains:
      the first channel's from its input, CH2..CH4's from analog_gains. */
  function WithCaptureGains(cs: seq<ChannelParams>, first: string, gains: map<string, int>, sensorGain: int)
    : (r: seq<ChannelParams>)
    requires |cs| == 4 && INITIAL_GAINS.Keys <= gains.Keys
    ensures |r| == 4
    ensures r[0].gain == CaptureGain(gains, sensorGain, first)
    ensures forall i :: 1 <= i < 4 ==> r[i].gain == gains[BIPOLAR_NAMES[i]]
    ensures forall i :: 0 <= i < 4 ==> r[i] == cs[i].(gain := r[i].gain)
  {
    [cs[0].(gain := CaptureGain(gains, sensorGain, first)), cs[1].(gain := gains["CH2"]),
     cs[2].(gain := gains["CH3"]), cs[3].(gain := gains["CH4"])]
  }

  /** The channel parameters after the set_params calls of capture_traces:
      the reconfigured channels take their capture name, the sample count
      and the timebase, and keep their gain and resolution; the others are
      untouched. */
  function Reconfigure(cs: seq<ChannelParams>, num: int, first: string, n: int, t: real): (r: seq<ChannelParams>)
    requires |cs| == 4
    ensures |r| == 4
    ensures forall i :: 0 <= i < 4 ==>
      if Reconfigured(num, i)
      then r[i].name == CaptureName(i, first) && r[i].length == n && r[i].timebase == t &&
           r[i].gain == cs[i].gain && r[i].resolution == cs[i].resolution
      else r[i] == cs[i]
  {
    if !(1 <= num <= 4) then cs
    else if num == 1 then [Retuned(cs[0], first, n, t), cs[1], cs[2], cs[3]]
    else if num == 2 then [Retuned(cs[0], first, n, t), Retuned(cs[1], "CH2", n, t), cs[2], cs[3]]
    else [Retuned(cs[0], first, n, t), Retuned(cs[1], "CH2", n, t), Retuned(cs[2], "CH3", n, t),
          Retuned(cs[3], "CH4", n, t)]
  }

  /** The channel object achans[channel_number - 1] picks, with Python's
      indexing of a four-element list: 1..4 are CH1..CH4 and 0..-3 count
      from the end. */
  function Slot(ch: int): (i: nat)
    ensures i < 4
    ensures 1 <= ch <= 4 ==> i == ch - 1
    ensures -3 <= ch <= 0 ==> i == ch + 3
  {
    (ch - 1) % 4
  }

  /** What start_one_channel_LA writes to each digital channel: prescaler
      0, 32-bit timestamps, 800 of them, the maximum time in microseconds
      and every edge. */
  function OneChannelSetup(maximumTime: real): DigitalSetup
  {
    DigitalSetup(0, "long", MAX_SAMPLES / 4, maximumTime * 1000000.0, EVERY_EDGE as int)
  }

  /** What start_four_channel_LA writes to digital channel n: prescaler 0,
      800 16-bit timestamps, the maximum time in microseconds and mode[n]. */
  function FourChannelSetups(maximumTime: real, mode: seq<nat>): (r: seq<Option<DigitalSetup>>)
    requires |mode| >= 4
    ensures |r| == 4
    ensures forall n :: 0 <= n < 4 ==> r[n] == Some(DigitalSetup(0, "int", MAX_SAMPLES / 4, maximumTime * 1000000.0, mode[n]))
  {
    seq(4, n requires 0 <= n < 4 => Some(DigitalSetup(0, "int", MAX_SAMPLES / 4, maximumTime * 1000000.0, mode[n])))
  }

  /** The four analog channel objects of __init__, for CH1..CH4. */
  method NewChannels(calfacs: Calibration) returns (cs: seq<AnalogChannel>)
    ensures |cs| == 4
    ensures forall i :: 0 <= i < 4 ==> fresh(cs[i]) && cs[i].Valid() && cs[i].channel == BIPOLAR_NAMES[i]
    ensures forall i, j :: 0 <= i < j < 4 ==> cs[i] != cs[j] && cs[i].xaxis != cs[j].xaxis
  {
    var c1 := new AnalogChannel("CH1", calfacs);
    var c2 := new AnalogChannel("CH2", calfacs);
    var c3 := new AnalogChannel("CH3", calfacs);
    var c4 := new AnalogChannel("CH4", calfacs);
    cs := [c1, c2, c3, c4];
  }

  class Interface {
    const H: Handler
    /** The four analog channel objects, for CH1..CH4. */
    const achans: seq<AnalogChannel>
    /** The shared sample buffer `buff`. */
    const buff: array<int>
    var timebase: real
    var samples: int
    var channelsInBuffer: int
    var digitalChannelsInBuffer: int
    var analogGains: map<string, int>
    var sensorGain: int
    var sensorMultiplexChannel: int
    var ddsClock: real
    /** What start_*_LA last wrote to each of the four digital channels;
        None while a channel keeps the values its own constructor gave it. */
    const dchans: array<Option<DigitalSetup>>

    function Config(): Settings
      reads this
    {
      Settings(timebase, samples, channelsInBuffer, digitalChannelsInBuffer, analogGains,
               sensorGain, sensorMultiplexChannel, ddsClock)
    }

    /** The channel objects, the buffer and the digital channel list are
        set up once and never replaced. */
    ghost predicate Valid()
      reads achans
    {
      |achans| == 4 &&
      (forall i :: 0 <= i < 4 ==> achans[i].Valid()) &&
      (forall i, j :: 0 <= i < j < 4 ==> achans[i] != achans[j] && achans[i].xaxis != achans[j].xaxis) &&
      buff.Length == BUFFER_SLOTS && dchans.Length == 4
    }

    /** analog_gains keeps the keys CH1..CH4 it starts with: set_gain only
        updates keys already present. */
    predicate GainsKept()
      reads this
    {
      INITIAL_GAINS.Keys <= analogGains.Keys
    }

    /** The object as __init__ builds it before talking to the device: four
        analog channels, an empty buffer, 40 us timebase and 3200 samples. */
    constructor(handler: Handler, calfacs: Calibration)
      ensures Valid() && H == handler && fresh(buff) && fresh(dchans)
      ensures forall i :: 0 <= i < 4 ==> fresh(achans[i]) && achans[i].channel == BIPOLAR_NAMES[i]
      ensures Config() == Settings(40.0, MAX_SAMPLES, 0, 0, INITIAL_GAINS, 0, 0, INITIAL_DDS_CLOCK)
      ensures forall a :: 0 <= a < BUFFER_SLOTS ==> buff[a] == 0
      ensures dchans[..] == [None, None, None, None]
    {
      var cs := NewChannels(calfacs);
      H := handler;
      achans := cs;
      buff := new int[BUFFER_SLOTS](_ => 0);
      timebase, samples := 40.0, MAX_SAMPLES;
      channelsInBuffer, digitalChannelsInBuffer := 0, 0;
      analogGains, sensorGain, sensorMultiplexChannel := INITIAL_GAINS, 0, 0;
      ddsClock := INITIAL_DDS_CLOCK;
      dchans := new Option<DigitalSetup>[4](_ => None);
    }

    // -------------------------------------------------------------------
    // plain command sequences

    /** clear_buffer(starting_position, total_points) */
    method ClearBuffer(start: int, total: int) returns (r: Result<()>)
      modifies H
      ensures H.State() == Xfer(old(H.State()), [COMMON, CLEAR_BUFFER] + IntToString(start) + IntToString(total), 0, 1)
      ensures r.Ok? <==> Answers(old(H.State()), 0, 1)
      ensures r.Err? ==> r == Err(MissingAck)
    {
      r := H.Exchange([COMMON, CLEAR_BUFFER] + IntToString(start) + IntToString(total));
    }

    /** The parameters of the four channel objects, in order. */
    function AllParams(): (r: seq<ChannelParams>)
      requires |achans| == 4
      reads achans
      ensures |r| == 4
    {
      [achans[0].Params(), achans[1].Params(), achans[2].Params(), achans[3].Params()]
    }

    /** The time axes of the four channel objects. */
    ghost function Axes(): (r: seq<seq<real>>)
      requires |achans| == 4
      reads achans, achans[0].xaxis, achans[1].xaxis, achans[2].xaxis, achans[3].xaxis
      ensures |r| == 4
    {
      [achans[0].xaxis[..], achans[1].xaxis[..], achans[2].xaxis[..], achans[3].xaxis[..]]
    }

    /** Every channel object's time axis is as set_params leaves it, against
        the parameters ps and the axes xs it had before: rebuilt where the
        length or the timebase changed, untouched elsewhere. */
    ghost predicate AxesAfter(ps: seq<ChannelParams>, xs: seq<seq<real>>)
      requires |achans| == 4 && |ps| == 4 && |xs| == 4
      reads achans, achans[0].xaxis, achans[1].xaxis, achans[2].xaxis, achans[3].xaxis
    {
      achans[0].AxisAfter(ps[0].timebase, ps[0].length, xs[0]) &&
      achans[1].AxisAfter(ps[1].timebase, ps[1].length, xs[1]) &&
      achans[2].AxisAfter(ps[2].timebase, ps[2].length, xs[2]) &&
      achans[3].AxisAfter(ps[3].timebase, ps[3].length, xs[3])
    }

    /** capture_traces(num, samples, tg, channel_one_input, CH123SA,
        trigger=): ADC, the channel gains, the selector (which may first
        switch the multiplexer), the clamped settings on the channel objects,
        the capture opcode with the selector byte, the sample count and the
        timer word, and an acknowledgement.  An unanswered multiplexer switch
        fails before the opcode; a selector past a byte fails after it. */
    method CaptureTraces(num: int, count: int, tg: real, first: string, ch123sa: nat, trigger: bool)
      returns (r: Result<()>)
      requires Valid() && GainsKept()
      modifies this, H, achans[0], achans[1], achans[2], achans[3]
      modifies achans[0].xaxis, achans[1].xaxis, achans[2].xaxis, achans[3].xaxis
      ensures Valid() && GainsKept()
      ensures var cache := MuxCache(first, old(sensorMultiplexChannel));
        var p := MuxPort(Xfer(old(H.State()), [ADC], 0, 0), first, old(sensorMultiplexChannel));
        MuxSwitch(first, old(sensorMultiplexChannel)) && !Answers(old(H.State()), 0, 1) ==>
          r == Err(MissingAck) && H.State() == p &&
          Config() == old(Config()).(timebase := tg, sensorMultiplexChannel := cache)
      ensures var cache := MuxCache(first, old(sensorMultiplexChannel));
        var p := MuxPort(Xfer(old(H.State()), [ADC], 0, 0), first, old(sensorMultiplexChannel));
        var sel := CaptureSelector(num, SelectorOf(Upper(first)), ch123sa, trigger);
        var t, n := ClampTimebase(num, tg), ClampSamples(num, count);
        (!MuxSwitch(first, old(sensorMultiplexChannel)) || Answers(old(H.State()), 0, 1)) ==>
          if CaptureOpcode(num).Some? && sel >= 256 then
            r == Err(InvalidByte) && H.State() == Xfer(p, [CaptureOpcode(num).value], 0, 0) &&
            Config() == old(Config()).(timebase := t, sensorMultiplexChannel := cache)
          else
            H.State() == Xfer(p, CaptureHead(num, sel) + Words([n, TimerTicks(t)]), 0, 1) &&
            (r.Ok? <==> Answers(p, 0, 1)) &&
            Config() == old(Config()).(timebase := t, samples := n, sensorMultiplexChannel := cache,
                                       channelsInBuffer := if r.Ok? then num else old(channelsInBuffer))
      ensures var g := WithCaptureGains(old(AllParams()), first, old(analogGains), old(sensorGain));
        AllParams() ==
          if !MuxSwitch(first, old(sensorMultiplexChannel)) || Answers(old(H.State()), 0, 1)
          then Reconfigure(g, num, first, ClampSamples(num, count), ClampTimebase(num, tg))
          else g
      ensures AxesAfter(old(AllParams()), old(Axes()))
    {
      ghost var p := H.State();
      timebase := tg;
      H.SendByte(ADC);
      SendKeepsAnswers(p, [ADC], 0, 1);
      CaptureGains(first);
      assert Config() == old(Config()).(timebase := tg);
      r := CaptureSelect(num, count, tg, first, ch123sa, trigger);
    }

    /** The gains capture_traces gives the four channel objects. */
    method CaptureGains(first: string)
      requires Valid() && GainsKept()
      modifies achans[0], achans[1], achans[2], achans[3]
      ensures Valid()
      ensures AllParams() == WithCaptureGains(old(AllParams()), first, analogGains, sensorGain)
    {
      achans[0].gain := CaptureGain(analogGains, sensorGain, first);
      achans[1].gain := analogGains["CH2"];
      achans[2].gain := analogGains["CH3"];
      achans[3].gain := analogGains["CH4"];
    }

    /** The part of capture_traces from __calcCHOSA__ on. */
    method CaptureSelect(num: int, count: int, tg: real, first: string, ch123sa: nat, trigger: bool)
      returns (r: Result<()>)
      requires Valid()
      modifies this, H, achans[0], achans[1], achans[2], achans[3]
      modifies achans[0].xaxis, achans[1].xaxis, achans[2].xaxis, achans[3].xaxis
      ensures Valid()
      ensures var cache := MuxCache(first, old(sensorMultiplexChannel));
        MuxSwitch(first, old(sensorMultiplexChannel)) && !Answers(old(H.State()), 0, 1) ==>
          r == Err(MissingAck) && H.State() == MuxPort(old(H.State()), first, old(sensorMultiplexChannel)) &&
          Config() == old(Config()).(sensorMultiplexChannel := cache)
      ensures var cache := MuxCache(first, old(sensorMultiplexChannel));
        var p := MuxPort(old(H.State()), first, old(sensorMultiplexChannel));
        var sel := CaptureSelector(num, SelectorOf(Upper(first)), ch123sa, trigger);
        var t, n := ClampTimebase(num, tg), ClampSamples(num, count);
        (!MuxSwitch(first, old(sensorMultiplexChannel)) || Answers(old(H.State()), 0, 1)) ==>
          if CaptureOpcode(num).Some? && sel >= 256 then
            r == Err(InvalidByte) && H.State() == Xfer(p, [CaptureOpcode(num).value], 0, 0) &&
            Config() == old(Config()).(timebase := t, sensorMultiplexChannel := cache)
          else
            H.State() == Xfer(p, CaptureHead(num, sel) + Words([n, TimerTicks(t)]), 0, 1) &&
            (r.Ok? <==> Answers(p, 0, 1)) &&
            Config() == old(Config()).(timebase := t, samples := n, sensorMultiplexChannel := cache,
                                       channelsInBuffer := if r.Ok? then num else old(channelsInBuffer))
      ensures AllParams() ==
        if !MuxSwitch(first, old(sensorMultiplexChannel)) || Answers(old(H.State()), 0, 1)
        then Reconfigure(old(AllParams()), num, first, ClampSamples(num, count), ClampTimebase(num, tg))
        else old(AllParams())
      ensures AxesAfter(old(AllParams()), old(Axes()))
    {
      var chosa :- CalcCHOSA(first);
      r := CaptureRun(num, count, tg, first, chosa, ch123sa, trigger);
    }

    /** The part of capture_traces after the selector is known: clamping,
        set_params on the channel objects, and the capture frame. */
    method CaptureRun(num: int, count: int, tg: real, first: string, chosa: nat, ch123sa: nat, trigger: bool)
      returns (r: Result<()>)
      requires Valid()
      modifies this, H, achans[0], achans[1], achans[2], achans[3]
      modifies achans[0].xaxis, achans[1].xaxis, achans[2].xaxis, achans[3].xaxis
      ensures Valid()
      ensures var sel, t, n := CaptureSelector(num, chosa, ch123sa, trigger), ClampTimebase(num, tg), ClampSamples(num, count);
        if CaptureOpcode(num).Some? && sel >= 256 then
          r == Err(InvalidByte) && H.State() == Xfer(old(H.State()), [CaptureOpcode(num).value], 0, 0) &&
          Config() == old(Config()).(timebase := t)
        else
          H.State() == Xfer(old(H.State()), CaptureHead(num, sel) + Words([n, TimerTicks(t)]), 0, 1) &&
          (r.Ok? <==> Answers(old(H.State()), 0, 1)) &&
          Config() == old(Config()).(timebase := t, samples := n,
                                     channelsInBuffer := if r.Ok? then num else old(channelsInBuffer))
      ensures AllParams() == Reconfigure(old(AllParams()), num, first, ClampSamples(num, count), ClampTimebase(num, tg))
      ensures AxesAfter(old(AllParams()), old(Axes()))
    {
      var n := CaptureSetup(num, count, tg, first);
      var sel := CaptureSelector(num, chosa, ch123sa, trigger);
      r := CaptureSend(num, n, sel);
    }

    /** The clamping of capture_traces and set_params on the channel
        objects; nothing is sent. */
    method CaptureSetup(num: int, count: int, tg: real, first: string) returns (n: int)
      requires Valid()
      modifies this, achans[0], achans[1], achans[2], achans[3]
      modifies achans[0].xaxis, achans[1].xaxis, achans[2].xaxis, achans[3].xaxis
      ensures Valid()
      ensures n == ClampSamples(num, count)
      ensures Config() == old(Config()).(timebase := ClampTimebase(num, tg))
      ensures AllParams() == Reconfigure(old(AllParams()), num, first, n, ClampTimebase(num, tg))
      ensures AxesAfter(old(AllParams()), old(Axes()))
    {
      n := ClampSamples(num, count);
      timebase := ClampTimebase(num, tg);
      ghost var c := Config();
      CaptureParams(num, first, n, timebase);
      assert Config() == c;
    }

    /** The capture frame of capture_traces: the opcode and the selector
        byte (none for a channel count other than 1 to 4), the sample count
        and the timer word of the clamped timebase, then the
        acknowledgement.  A selector past a byte fails after the opcode. */
    method CaptureSend(num: int, n: int, sel: nat) returns (r: Result<()>)
      modifies this, H
      ensures if CaptureOpcode(num).Some? && sel >= 256 then
          r == Err(InvalidByte) && H.State() == Xfer(old(H.State()), [CaptureOpcode(num).value], 0, 0) &&
          Config() == old(Config())
        else
          H.State() == Xfer(old(H.State()), CaptureHead(num, sel) + Words([n, TimerTicks(timebase)]), 0, 1) &&
          (r.Ok? <==> Answers(old(H.State()), 0, 1)) &&
          Config() == old(Config()).(samples := n, channelsInBuffer := if r.Ok? then num else old(channelsInBuffer))
    {
      if CaptureOpcode(num).Some? && sel >= 256 {
        H.SendBytes([CaptureOpcode(num).value]);
        return Err(InvalidByte);
      }
      samples := n;
      ghost var frame := CaptureHead(num, sel) + Words([n, TimerTicks(timebase)]);
      assert frame + [] == frame;
      var _ :- H.Command(CaptureHead(num, sel), [n, TimerTicks(timebase)], []);
      channelsInBuffer := num;
      r := Ok(());
    }

    /** set_params(channel=, length=, timebase=) on the first channel object
        and, for two channels, on CH2's, or for three or four on CH2, CH3
        and CH4's in turn. */
    method CaptureParams(num: int, first: string, n: int, t: real)
      requires Valid() && (1 <= num <= 4 ==> n <= AXIS_SLOTS)
      modifies achans[0], achans[1], achans[2], achans[3]
      modifies achans[0].xaxis, achans[1].xaxis, achans[2].xaxis, achans[3].xaxis
      ensures Valid()
      ensures AllParams() == Reconfigure(old(AllParams()), num, first, n, t)
      ensures AxesAfter(old(AllParams()), old(Axes()))
    {
      if num < 1 || num > 4 {
        return;
      }
      Reparam(0, first, n, t);
      if num == 2 {
        Reparam(1, "CH2", n, t);
      } else if num >= 3 {
        ReparamBipolars(n, t);
      }
    }

    /** The loop over CH2, CH3 and CH4 of capture_traces for three or four
        channels. */
    method ReparamBipolars(n: int, t: real)
      requires Valid() && n <= AXIS_SLOTS
      modifies achans[1], achans[2], achans[3], achans[1].xaxis, achans[2].xaxis, achans[3].xaxis
      ensures Valid()
      ensures var ps := old(AllParams());
        AllParams() == [ps[0], Retuned(ps[1], "CH2", n, t), Retuned(ps[2], "CH3", n, t), Retuned(ps[3], "CH4", n, t)]
      ensures AxesAfter(old(AllParams()), old(Axes()))
    {
      ghost var ps, xs := AllParams(), Axes();
      for a := 1 to 4
        invariant Valid()
        invariant forall i :: 0 <= i < 4 ==>
          AllParams()[i] == if 1 <= i < a then Retuned(ps[i], BIPOLAR_NAMES[i], n, t) else ps[i]
        invariant forall i :: a <= i < 4 ==> Axes()[i] == xs[i]
        invariant AxesAfter(ps, xs)
      {
        Reparam(a, BIPOLAR_NAMES[a], n, t);
      }
    }

    /** set_params(channel=name, length=n, timebase=t) on channel object i;
        a length within the axis slots cannot fail. */
    method Reparam(i: nat, name: string, n: int, t: real)
      requires Valid() && i < 4 && n <= AXIS_SLOTS
      modifies achans[i], achans[i].xaxis
      ensures Valid()
      ensures AllParams() == old(AllParams())[i := Retuned(old(AllParams())[i], name, n, t)]
      ensures AxesAfter(old(AllParams()), old(Axes()))
    {
      var _ := achans[i].SetParams(None, Some(name), None, Some(n), Some(t));
    }

    /** __selectSensorChannel__(channel): multiplexer input for amplifier 5. */
    method SelectSensorChannel(channel: byte) returns (r: Result<()>)
      modifies H
      ensures H.State() == Xfer(old(H.State()), [ADC, SELECT_PGA_CHANNEL, channel], 0, 1)
      ensures r.Ok? <==> Answers(old(H.State()), 0, 1)
      ensures r.Err? ==> r == Err(MissingAck)
    {
      r := H.Exchange([ADC, SELECT_PGA_CHANNEL, channel]);
    }

    /** __calcCHOSA__(name): the selector of an input name.  A multiplexed
        input different from the cached one is selected on the device first,
        the cache being updated before the selection is sent. */
    method CalcCHOSA(name: string) returns (r: Result<nat>)
      modifies this, H
      ensures Config() == old(Config()).(sensorMultiplexChannel := MuxCache(name, old(sensorMultiplexChannel)))
      ensures H.State() == MuxPort(old(H.State()), name, old(sensorMultiplexChannel))
      ensures r.Ok? <==> !MuxSwitch(name, old(sensorMultiplexChannel)) || Answers(old(H.State()), 0, 1)
      ensures r.Ok? ==> r.value == SelectorOf(Upper(name))
      ensures r.Err? ==> r == Err(MissingAck)
    {
      var u := Upper(name);
      var k := UnipolarIndex(u);
      if k != -1 && sensorMultiplexChannel != k {
        sensorMultiplexChannel := k;
        var _ :- SelectSensorChannel(k);
      }
      r := Ok(SelectorOf(u));
    }

    /** The effect of rebuilding a fetched trace of n samples into buff and
        calibrating it into channel object i's yaxis, against the buffer
        b0, the parameters c0 and the yaxis y0 from before: the samples the
        data holds are stored (up to the 4000 slots) and the rest of buff
        is kept; a short reply or a trace past the slots fails with an
        IndexError and the channel untouched; otherwise fix_value decides,
        and a calibrated trace replaces the yaxis. */
    ghost predicate Loaded(i: nat, data: seq<byte>, n: nat, r: Result<bool>,
                           b0: seq<int>, c0: ChannelParams, y0: array<real>)
      requires i < 4 && |achans| == 4 && buff.Length == BUFFER_SLOTS
      reads this, buff, achans, achans[i].yaxis
    {
      var c := achans[i];
      var w := Min(n, Min(|data| / 2, BUFFER_SLOTS));
      |b0| == buff.Length &&
      (forall a :: 0 <= a < w ==> 2 * a + 1 < |data| && buff[a] == Sample(data, a)) &&
      (forall a :: w <= a < buff.Length ==> buff[a] == b0[a]) &&
      c.name == c0.name && c.resolution == c0.resolution && c.length == c0.length && c.timebase == c0.timebase &&
      if w < n || ChannelIndex(c.name) == -1 then
        r == (if w < n then Err(IndexOutOfRange) else Err(UnknownChannel)) && c.gain == c0.gain && c.yaxis == y0
      else
        c.gain == EffectiveGain(c.name, c0.gain) &&
        match Polynomial(c.calfacs, c.name, c0.gain)
        case Ok(poly) =>
          r == Ok(true) && c.yaxis.Length == n &&
          forall a :: 0 <= a < n ==>
            2 * a + 1 < |data| && c.yaxis[a] == Calibrated(c.calibrationRef196, poly, c.resolution, Sample(data, a) as real)
        case Err(f) => r == Err(f) && c.yaxis == y0
    }

    /** __fetch_channel__(channel_number): the channel's trace fetched in
        requests of 20 samples and one for the remainder, each with its
        read and its acknowledgement, then rebuilt and calibrated.  The
        channel object is picked with Python's indexing (0 and below count
        from the end, the length being read before anything else); a
        channel past the capture gives False with nothing sent, and one
        below 1 fails when its number is sent. */
    method FetchChannel(ch: int) returns (r: Result<bool>)
      requires Valid() && achans[Slot(ch)].length >= 0
      modifies H, buff, achans[Slot(ch)]
      ensures Valid()
      ensures !(-3 <= ch <= 4) ==> r == Err(IndexOutOfRange)
      ensures -3 <= ch <= 4 && ch > channelsInBuffer ==> r == Ok(false)
      ensures (!(-3 <= ch <= 4) || ch > channelsInBuffer) ==>
        H.State() == old(H.State()) && buff[..] == old(buff[..]) &&
        achans[Slot(ch)].Params() == old(achans[Slot(ch)].Params())
      ensures -3 <= ch <= 0 && ch <= channelsInBuffer ==>
        r == Err(InvalidByte) && H.State() == Xfer(old(H.State()), [ADC, GET_CAPTURE_CHANNEL], 0, 0)
      ensures 1 <= ch <= 4 && ch <= channelsInBuffer ==>
        var i, p := Slot(ch), old(H.State());
        var n := old(achans[i].length);
        var k := RequestCount(n);
        if p.loadBurst || Answers(p, 2 * n, k) then
          H.State() == Xfer(p, Requests(i as byte, n, k), 2 * n, k) &&
          Loaded(i, Collected(p.incoming, n, p.loadBurst, k), n, r,
                 old(buff[..]), old(achans[i].Params()), old(achans[i].yaxis))
        else (r == Err(MissingAck) && buff[..] == old(buff[..]) &&
              achans[i].Params() == old(achans[i].Params()) && achans[i].yaxis == old(achans[i].yaxis))
    {
      if ch < -3 || ch > 4 {
        return Err(IndexOutOfRange);
      }
      var i := Slot(ch);
      var samples := achans[i].length;
      if ch > channelsInBuffer {
        return Ok(false);
      }
      if ch < 1 {
        H.SendBytes([ADC, GET_CAPTURE_CHANNEL]);
        return Err(InvalidByte);
      }
      r := FetchTrace(i, samples);
    }

    /** The fetch and the rebuilding of channel object i's trace of n
        samples, for a channel number i + 1 that exists. */
    method FetchTrace(i: nat, n: nat) returns (r: Result<bool>)
      requires Valid() && i < 4
      modifies H, buff, achans[i]
      ensures Valid()
      ensures var p, k := old(H.State()), RequestCount(n);
        if p.loadBurst || Answers(p, 2 * n, k) then
          H.State() == Xfer(p, Requests(i as byte, n, k), 2 * n, k) &&
          Loaded(i, Collected(p.incoming, n, p.loadBurst, k), n, r,
                 old(buff[..]), old(achans[i].Params()), old(achans[i].yaxis))
        else (r == Err(MissingAck) && buff[..] == old(buff[..]) &&
              achans[i].Params() == old(achans[i].Params()) && achans[i].yaxis == old(achans[i].yaxis))
    {
      ghost var b0, c0, y0 := buff[..], achans[i].Params(), achans[i].yaxis;
      var data :- FetchData(i as byte, n);
      assert buff[..] == b0 && achans[i].Params() == c0 && achans[i].yaxis == y0;
      r := LoadTrace(i, data, n);
    }

    /** __fetch_channel_oneshot__(channel_number): as __fetch_channel__, in
        a single request for the whole trace from offset 0. */
    method FetchChannelOneshot(ch: int) returns (r: Result<bool>)
      requires Valid() && achans[Slot(ch)].length >= 0
      modifies H, buff, achans[Slot(ch)]
      ensures Valid()
      ensures !(-3 <= ch <= 4) ==> r == Err(IndexOutOfRange)
      ensures -3 <= ch <= 4 && ch > channelsInBuffer ==> r == Ok(false)
      ensures (!(-3 <= ch <= 4) || ch > channelsInBuffer) ==>
        H.State() == old(H.State()) && buff[..] == old(buff[..]) &&
        achans[Slot(ch)].Params() == old(achans[Slot(ch)].Params())
      ensures -3 <= ch <= 0 && ch <= channelsInBuffer ==>
        r == Err(InvalidByte) && H.State() == Xfer(old(H.State()), [ADC, GET_CAPTURE_CHANNEL], 0, 0)
      ensures 1 <= ch <= 4 && ch <= channelsInBuffer ==>
        var i, p := Slot(ch), old(H.State());
        var n := old(achans[i].length);
        if p.loadBurst || 2 * n < |p.incoming| then
          H.State() == Xfer(p, [ADC, GET_CAPTURE_CHANNEL, i as byte] + Words([n, 0]), 2 * n, 1) &&
          Loaded(i, p.incoming[..Min(2 * n, |p.incoming|)], n, r,
                 old(buff[..]), old(achans[i].Params()), old(achans[i].yaxis))
        else (r == Err(MissingAck) &&
              H.State() == Xfer(p, [ADC, GET_CAPTURE_CHANNEL, i as byte] + Words([n, 0]), 2 * n, 1) &&
              buff[..] == old(buff[..]) &&
              achans[i].Params() == old(achans[i].Params()) && achans[i].yaxis == old(achans[i].yaxis))
    {
      if ch < -3 || ch > 4 {
        return Err(IndexOutOfRange);
      }
      var i := Slot(ch);
      var samples := achans[i].length;
      if ch > channelsInBuffer {
        return Ok(false);
      }
      if ch < 1 {
        H.SendBytes([ADC, GET_CAPTURE_CHANNEL]);
        return Err(InvalidByte);
      }
      r := FetchTraceOneshot(i, samples);
    }

    /** The single request of __fetch_channel_oneshot__ for channel object
        i's trace of n samples, and its rebuilding. */
    method FetchTraceOneshot(i: nat, n: nat) returns (r: Result<bool>)
      requires Valid() && i < 4
      modifies H, buff, achans[i]
      ensures Valid()
      ensures var p := old(H.State());
        if p.loadBurst || 2 * n < |p.incoming| then
          H.State() == Xfer(p, [ADC, GET_CAPTURE_CHANNEL, i as byte] + Words([n, 0]), 2 * n, 1) &&
          Loaded(i, p.incoming[..Min(2 * n, |p.incoming|)], n, r,
                 old(buff[..]), old(achans[i].Params()), old(achans[i].yaxis))
        else (r == Err(MissingAck) &&
              H.State() == Xfer(p, [ADC, GET_CAPTURE_CHANNEL, i as byte] + Words([n, 0]), 2 * n, 1) &&
              buff[..] == old(buff[..]) &&
              achans[i].Params() == old(achans[i].Params()) && achans[i].yaxis == old(achans[i].yaxis))
    {
      ghost var b0, c0, y0 := buff[..], achans[i].Params(), achans[i].yaxis;
      var data :- H.ChunkQuery([ADC, GET_CAPTURE_CHANNEL, i as byte], [n, 0], 2 * n);
      assert buff[..] == b0 && achans[i].Params() == c0 && achans[i].yaxis == y0;
      r := LoadTrace(i, data, n);
    }

    /** The request loop of __fetch_channel__: samples/20 requests of 20
        samples at offsets i*20, then the remainder, each read followed by
        an acknowledgement.  Outside burst mode a reply that runs short
        leaves an acknowledgement missing. */
    method FetchData(chan: byte, samples: nat) returns (r: Result<seq<byte>>)
      modifies H
      ensures var p := old(H.State());
        r.Ok? <==> p.loadBurst || Answers(p, 2 * samples, RequestCount(samples))
      ensures var p, k := old(H.State()), RequestCount(samples);
        r.Ok? ==> H.State() == Xfer(p, Requests(chan, samples, k), 2 * samples, k) &&
                  r.value == Collected(p.incoming, samples, p.loadBurst, k)
      ensures r.Err? ==> r == Err(MissingAck)
    {
      ghost var p := H.State();
      var data: seq<byte> := [];
      for i := 0 to samples / SPLITTING
        invariant H.State() == Xfer(p, Requests(chan, samples, i), 2 * Requested(samples, i), i)
        invariant data == Collected(p.incoming, samples, p.loadBurst, i)
      {
        data :- FetchChunk(p, chan, samples, i, data, [SPLITTING, i * SPLITTING]);
      }
      var k := samples / SPLITTING;
      data :- FetchChunk(p, chan, samples, k, data, [samples % SPLITTING, samples - samples % SPLITTING]);
      if !p.loadBurst {
        FullReply(p, samples);
      }
      r := Ok(data);
    }

    /** Request i of __fetch_channel__, sent with the count and offset its
        loop computes for it, its read appended to the data so far. */
    method FetchChunk(ghost p: Port, chan: byte, samples: nat, i: nat, data: seq<byte>, words: seq<int>)
      returns (r: Result<seq<byte>>)
      requires i < RequestCount(samples) && words == [ChunkSize(samples, i), Offset(samples, i)]
      requires H.State() == Xfer(p, Requests(chan, samples, i), 2 * Requested(samples, i), i)
      requires data == Collected(p.incoming, samples, p.loadBurst, i)
      modifies H
      ensures r.Ok? ==> H.State() == Xfer(p, Requests(chan, samples, i + 1), 2 * Requested(samples, i + 1), i + 1)
      ensures r.Ok? ==> r.value == Collected(p.incoming, samples, p.loadBurst, i + 1)
      ensures r.Ok? && i == samples / SPLITTING && !p.loadBurst ==>
        |Remaining(p.incoming, samples, false, i)| > 2 * ChunkSize(samples, i)
      ensures r.Err? ==> r == Err(MissingAck) && !p.loadBurst && !Answers(p, 2 * samples, RequestCount(samples))
    {
      RequestStep(p, chan, samples, i);
      var d := H.ChunkQuery([ADC, GET_CAPTURE_CHANNEL, chan], words, 2 * ChunkSize(samples, i));
      if d.Err? {
        ShortReply(p, samples, i);
        return Err(MissingAck);
      }
      r := Ok(data + d.value);
    }

    /** for a in range(samples): buff[a] = data[2a] | data[2a+1] << 8, then
        yaxis = fix_value(buff[:samples]) on channel object i. */
    method LoadTrace(i: nat, data: seq<byte>, n: nat) returns (r: Result<bool>)
      requires Valid() && i < 4
      modifies buff, achans[i]
      ensures Valid()
      ensures Loaded(i, data, n, r, old(buff[..]), old(achans[i].Params()), old(achans[i].yaxis))
    {
      var _ :- StoreSamples(data, n);
      var vals := AsReals(buff[..n]);
      assert forall a :: 0 <= a < n ==> 2 * a + 1 < |data| && vals[a] == Sample(data, a) as real;
      r := achans[i].LoadYaxis(vals);
    }

    /** The rebuilding loop: sample a into buff[a] for every a below n; a
        reply short of 2n bytes or a trace past the 4000 slots stops with an
        IndexError, the samples before it stored. */
    method StoreSamples(data: seq<byte>, n: nat) returns (r: Result<()>)
      requires Valid()
      modifies buff
      ensures var w := Min(n, Min(|data| / 2, BUFFER_SLOTS));
        (r.Ok? <==> w == n) && (r.Err? ==> r == Err(IndexOutOfRange)) &&
        (forall a :: 0 <= a < w ==> 2 * a + 1 < |data| && buff[a] == Sample(data, a)) &&
        (forall a :: w <= a < buff.Length ==> buff[a] == old(buff[a]))
    {
      for a := 0 to n
        invariant a <= |data| / 2 && a <= BUFFER_SLOTS
        invariant forall j :: 0 <= j < a ==> 2 * j + 1 < |data| && buff[j] == Sample(data, j)
        invariant forall j :: a <= j < buff.Length ==> buff[j] == old(buff[j])
      {
        if 2 * a + 1 >= |data| || a >= buff.Length {
          return Err(IndexOutOfRange);
        }
        buff[a] := Sample(data, a);
      }
      r := Ok(());
    }

    /** set_gain(channel, gain): the gain is stored (in analog_gains or as
        the sensor gain) before it is sent; an input without an amplifier is
        ignored.  Returns the gain factor. */
    method SetGain(channel: string, gain: int) returns (r: Result<Option<int>>)
      modifies this, H
      ensures PgaChipSelect(channel).None? ==>
        r == Ok(None) && H.State() == old(H.State()) && Config() == old(Config())
      ensures PgaChipSelect(channel).Some? ==>
        Config() == old(Config()).(
          analogGains := if channel in old(analogGains) then old(analogGains)[channel := gain] else old(analogGains),
          sensorGain := if channel in old(analogGains) then old(sensorGain) else gain)
      ensures PgaChipSelect(channel).Some? && 0 <= gain < 256 ==>
        H.State() == Xfer(old(H.State()), [ADC, SET_PGA_GAIN, PgaChipSelect(channel).value, gain], 0, 1) &&
        (r.Ok? <==> Answers(old(H.State()), 0, 1) && gain < |GAINS|) &&
        (r.Ok? ==> r.value == Some(GAINS[gain]))
      ensures PgaChipSelect(channel).Some? && !(0 <= gain < 256) ==>
        H.State() == Xfer(old(H.State()), [ADC, SET_PGA_GAIN, PgaChipSelect(channel).value], 0, 0) &&
        r == Err(InvalidByte)
    {
      var chan := PgaChipSelect(channel);
      if chan.None? {
        return Ok(None);
      }
      if channel in analogGains {
        analogGains := analogGains[channel := gain];
      } else {
        sensorGain := gain;
      }
      if !(0 <= gain < 256) {
        H.SendBytes([ADC, SET_PGA_GAIN, chan.value]);
        return Err(InvalidByte);
      }
      var _ :- H.Exchange([ADC, SET_PGA_GAIN, chan.value, gain]);
      if gain >= |GAINS| {
        return Err(IndexOutOfRange);
      }
      r := Ok(Some(GAINS[gain]));
    }

    /** configure_trigger(chan, level): the channel as the bit 1 << chan and
        the trigger word for the level at that channel's gain.  A negative
        shift, a bit past a byte, a channel past the four, or a gain index
        past the gain table each raise. */
    method ConfigureTrigger(chan: int, level: real) returns (r: Result<()>)
      requires Valid()
      modifies H
      ensures chan < 0 ==>
        r == Err(NegativeShift) && H.State() == Xfer(old(H.State()), [ADC, CONFIGURE_TRIGGER], 0, 0)
      ensures chan >= 8 ==>
        r == Err(InvalidByte) && H.State() == Xfer(old(H.State()), [ADC, CONFIGURE_TRIGGER], 0, 0)
      ensures 4 <= chan < 8 ==>
        r == Err(IndexOutOfRange) && H.State() == Xfer(old(H.State()), [ADC, CONFIGURE_TRIGGER, ChannelBit(chan)], 0, 0)
      ensures 0 <= chan < 4 && !InRange(|GAINS|, achans[chan].gain) ==>
        r == Err(IndexOutOfRange) && H.State() == Xfer(old(H.State()), [ADC, CONFIGURE_TRIGGER, ChannelBit(chan)], 0, 0)
      ensures 0 <= chan < 4 && InRange(|GAINS|, achans[chan].gain) ==>
        H.State() == Xfer(old(H.State()), [ADC, CONFIGURE_TRIGGER, ChannelBit(chan)] +
                          IntToString(TriggerWord(level, At(GAINS, achans[chan].gain))), 0, 1) &&
        (r.Ok? <==> Answers(old(H.State()), 0, 1))
    {
      if chan < 0 {
        H.SendBytes([ADC, CONFIGURE_TRIGGER]);
        return Err(NegativeShift);
      }
      if chan >= 8 {
        ShiftOverflowsByte(chan);
        H.SendBytes([ADC, CONFIGURE_TRIGGER]);
        return Err(InvalidByte);
      }
      var bit := ChannelBit(chan);
      if chan >= |achans| || !InRange(|GAINS|, achans[chan].gain) {
        H.SendBytes([ADC, CONFIGURE_TRIGGER, bit]);
        return Err(IndexOutOfRange);
      }
      var word := TriggerWord(level, At(GAINS, achans[chan].gain));
      r := H.Exchange([ADC, CONFIGURE_TRIGGER, bit] + IntToString(word));
    }

    /** map_reference_clock(scaler, *args): routes the 128 MHz reference,
        divided by 2^scaler, to the outputs named in args; with 'wavegen'
        among them the DDS clock becomes that frequency. */
    method MapReferenceClock(scaler: int, args: seq<string>) returns (r: Result<()>)
      modifies this, H
      ensures !(0 <= scaler < 256) ==>
        r == Err(InvalidByte) && Config() == old(Config()) &&
        H.State() == Xfer(old(H.State()), [WAVEGEN, MAP_REFERENCE, ReferenceOutputs(args)], 0, 0)
      ensures 0 <= scaler < 256 ==>
        H.State() == Xfer(old(H.State()), [WAVEGEN, MAP_REFERENCE, ReferenceOutputs(args), scaler], 0, 1) &&
        Config() == old(Config()).(ddsClock := if "wavegen" in args then ReferenceClock(scaler) else old(ddsClock)) &&
        (r.Ok? <==> Answers(old(H.State()), 0, 1))
    {
      var chan := ReferenceOutputs(args);
      if !(0 <= scaler < 256) {
        H.SendBytes([WAVEGEN, MAP_REFERENCE, chan]);
        return Err(InvalidByte);
      }
      if "wavegen" in args {
        ddsClock := ReferenceClock(scaler);
      }
      r := H.Exchange([WAVEGEN, MAP_REFERENCE, chan, scaler]);
    }

    // -------------------------------------------------------------------
    // waveform generator

    /** set_sine1 (opcode SET_WG1) and set_sine2 (SET_WG2): the tuning word
        of the frequency at the current DDS clock, sent as two 14-bit halves
        to frequency register 14 + register.  Returns the frequency. */
    method SetSine(wg: byte, frequency: real, register: int) returns (r: Result<real>)
      requires wg == SET_WG1 || wg == SET_WG2
      modifies H
      ensures ddsClock == 0.0 ==> r == Err(ZeroDivision) && H.State() == old(H.State())
      ensures ddsClock != 0.0 && !(0 <= 14 + register < 256) ==>
        r == Err(InvalidByte) && H.State() == Xfer(old(H.State()), [WAVEGEN, wg], 0, 0)
      ensures ddsClock != 0.0 && 0 <= 14 + register < 256 ==>
        H.State() == Xfer(old(H.State()), [WAVEGEN, wg, 14 + register] + Words(SineWords(frequency, ddsClock)) + [], 0, 1) &&
        (r.Ok? <==> Answers(old(H.State()), 0, 1)) && (r.Ok? ==> r.value == frequency)
    {
      if ddsClock == 0.0 {
        return Err(ZeroDivision);
      }
      if !(0 <= 14 + register < 256) {
        H.SendBytes([WAVEGEN, wg]);
        return Err(InvalidByte);
      }
      var _ :- H.Command([WAVEGEN, wg, 14 + register], SineWords(frequency, ddsClock), []);
      r := Ok(frequency);
    }

    /** sqr1 (opcode SET_SQR1) and sqr2 (SET_SQR2): the first prescaler
        whose wavelength is under 65525 ticks, then the rounded wavelength,
        the rounded high time and the prescaler index.  With no prescaler
        left nothing is sent. */
    method Sqr(opcode: byte, freq: real, dutyCycle: real) returns (r: Result<()>)
      requires opcode == SET_SQR1 || opcode == SET_SQR2
      modifies H
      ensures freq == 0.0 ==> r == Err(ZeroDivision) && H.State() == old(H.State())
      ensures freq != 0.0 && SqrPrescalerFrom(freq, 0).None? ==> r == Ok(()) && H.State() == old(H.State())
      ensures freq != 0.0 && SqrPrescalerFrom(freq, 0).Some? ==>
        var i := SqrPrescalerFrom(freq, 0).value;
        var wl := SqrWavelength(freq, i);
        H.State() == Xfer(old(H.State()), [WAVEGEN, opcode] + Words(SqrTimes(wl, dutyCycle)) + [i], 0, 1) &&
        (r.Ok? <==> Answers(old(H.State()), 0, 1))
    {
      if freq == 0.0 {
        return Err(ZeroDivision);
      }
      var prescaler := 0;
      var wavelength := 0.0;
      while prescaler <= 3
        invariant 0 <= prescaler <= 4
        invariant SqrPrescalerFrom(freq, prescaler) == SqrPrescalerFrom(freq, 0)
        decreases 4 - prescaler
      {
        wavelength := SqrWavelength(freq, prescaler);
        if wavelength < 65525.0 {
          break;
        }
        prescaler := prescaler + 1;
      }
      if prescaler == 4 {
        return Ok(());
      }
      r := H.Command([WAVEGEN, opcode], SqrTimes(wavelength, dutyCycle), [prescaler]);
    }

    /** sqr4_pulse: the period in 64 MHz ticks (nothing is sent past 65535),
        SQR1's high time, the two edges of SQR2, OD1 and OD2, and the byte
        marking which of those wrap around the period. */
    method Sqr4Pulse(freq: real, h0: real, p1: real, h1: real, p2: real, h2: real, p3: real, h3: real)
      returns (r: Result<()>)
      modifies H
      ensures freq == 0.0 ==> r == Err(ZeroDivision) && H.State() == old(H.State())
      ensures freq != 0.0 && Trunc(64000000.0 / freq) > 65535 ==> r == Ok(()) && H.State() == old(H.State())
      ensures freq != 0.0 && Trunc(64000000.0 / freq) <= 65535 ==>
        var w := Trunc(64000000.0 / freq);
        var e1, e2, e3 := PulseEdges(w, h1, p1), PulseEdges(w, h2, p2), PulseEdges(w, h3, p3);
        H.State() == Xfer(old(H.State()), [WAVEGEN, SQR4] +
          Words(PulseWords(w, h0, e1, e2, e3)) +
          [WrapBits(e1.wraps, e2.wraps, e3.wraps)], 0, 1) &&
        (r.Ok? <==> Answers(old(H.State()), 0, 1))
    {
      if freq == 0.0 {
        return Err(ZeroDivision);
      }
      var w := Trunc(64000000.0 / freq);
      if w > 65535 {
        return Ok(());
      }
      var e1, e2, e3 := PulseEdges(w, h1, p1), PulseEdges(w, h2, p2), PulseEdges(w, h3, p3);
      r := H.Command([WAVEGEN, SQR4], PulseWords(w, h0, e1, e2, e3), [WrapBits(e1.wraps, e2.wraps, e3.wraps)]);
    }

    /** sqr4_continuous: the period and prescaler code of ContinuousTiming
        (nothing is sent when the frequency is too low), SQR1's high time,
        and the fractional-phase edges of SQR2, OD1 and OD2. */
    method Sqr4Continuous(freq: real, h0: real, p1: real, h1: real, p2: real, h2: real, p3: real, h3: real)
      returns (r: Result<()>)
      modifies H
      ensures freq == 0.0 ==> r == Err(ZeroDivision) && H.State() == old(H.State())
      ensures freq != 0.0 && ContinuousTiming(freq).None? ==> r == Ok(()) && H.State() == old(H.State())
      ensures freq != 0.0 && ContinuousTiming(freq).Some? ==>
        var t := ContinuousTiming(freq).value;
        H.State() == Xfer(old(H.State()), [WAVEGEN, SQR4] +
          Words(ContinuousWords(t.wavelength, h0, p1, h1, p2, h2, p3, h3)) + [t.params], 0, 1) &&
        (r.Ok? <==> Answers(old(H.State()), 0, 1))
    {
      if freq == 0.0 {
        return Err(ZeroDivision);
      }
      var timing := ContinuousTiming(freq);
      if timing.None? {
        return Ok(());
      }
      var t := timing.value;
      r := H.Command([WAVEGEN, SQR4], ContinuousWords(t.wavelength, h0, p1, h1, p2, h2, p3, h3), [t.params]);
    }

    // -------------------------------------------------------------------
    // digital outputs and inputs, DAC, interval measurement

    /** set_state(OD1=, OD2=, SQR1=, SQR2=): one byte with an enable bit and
        a level bit for every output given. */
    method SetState(od1: Drive, od2: Drive, sqr1: Drive, sqr2: Drive) returns (r: Result<()>)
      modifies H
      ensures H.State() == Xfer(old(H.State()), [DOUT, SET_STATE, StateByte(od1, od2, sqr1, sqr2)], 0, 1)
      ensures r.Ok? <==> Answers(old(H.State()), 0, 1)
    {
      r := H.Exchange([DOUT, SET_STATE, StateByte(od1, od2, sqr1, sqr2)]);
    }

    /** get_states: one state byte read back and decoded into ID1..ID4. */
    method GetStates() returns (r: Result<map<string, bool>>)
      modifies H
      ensures |old(H.incoming)| == 0 ==>
        r == Err(CommunicationError) && H.State() == Xfer(old(H.State()), [DIN, GET_STATES], 1, 0)
      ensures |old(H.incoming)| > 0 ==> H.State() == Xfer(old(H.State()), [DIN, GET_STATES], 1, 1)
      ensures r.Ok? <==> Answers(old(H.State()), 1, 1)
      ensures r.Ok? ==> r.value == InputStates(old(H.incoming)[0])
    {
      var s :- H.ByteQuery([DIN, GET_STATES]);
      r := Ok(InputStates(s));
    }

    /** write_dac(channel, n): the opcode goes out, then the undefined name
        SET_PVS1 raises before the DAC word (DacWord) is built. */
    method WriteDac(channel: int, n: int) returns (r: Result<()>)
      modifies H
      ensures r == Err(UndefinedName) && H.State() == Xfer(old(H.State()), [DAC], 0, 0)
    {
      H.SendByte(DAC);
      r := Err(UndefinedName);
    }

    /** write_dac(channel, n) with the name that is missing standing for the
        DAC sub-command `sub`: the opcode, the sub-command, the DAC word as a
        16-bit word (DacWordLayout gives its fields), then the
        acknowledgement. */
    method WriteDacWord(sub: byte, channel: nat, n: nat) returns (r: Result<()>)
      modifies H
      ensures H.State() == Xfer(old(H.State()), [DAC, sub] + Words([DacWord(channel, n)]), 0, 1)
      ensures r.Ok? <==> Answers(old(H.State()), 0, 1)
      ensures r.Err? ==> r == Err(MissingAck)
    {
      var head: seq<byte> := [DAC, sub];
      assert head + Words([DacWord(channel, n)]) + [] == head + Words([DacWord(channel, n)]);
      r := H.Command(head, [DacWord(channel, n)], []);
    }

    /** MeasureInterval(channel1, channel2, edge1, edge2, timeout): the
        timeout's upper bits, the two input numbers and the two edge codes;
        then the reply, and the interval in seconds (-1 on a timeout). */
    method MeasureInterval(channel1: string, channel2: string, edge1: string, edge2: string, timeout: real)
      returns (r: Result<real>)
      modifies H
      ensures var p := old(H.State());
        var frame := [TIMING, INTERVAL_MEASUREMENTS] + Words([TimeoutMsb(timeout)]) +
                     [IntervalChannels(channel1, channel2), IntervalParams(edge1, edge2)];
        |p.incoming| < 10 ==> r == Err(CommunicationError) && H.State() == Xfer(p, frame, 10, 0)
      ensures var p := old(H.State());
        var frame := [TIMING, INTERVAL_MEASUREMENTS] + Words([TimeoutMsb(timeout)]) +
                     [IntervalChannels(channel1, channel2), IntervalParams(edge1, edge2)];
        |p.incoming| >= 10 ==> H.State() == Xfer(p, frame, 10, 1) && (r.Ok? <==> Answers(p, 10, 1))
      ensures var p := old(H.State());
        r.Ok? ==> r.value == IntervalTime(StringToLong(p.incoming), StringToLong(p.incoming[4..]),
                                          StringToInt(p.incoming[8..]), TimeoutMsb(timeout))
    {
      var msb := TimeoutMsb(timeout);
      var reply :- H.IntervalQuery([TIMING, INTERVAL_MEASUREMENTS], [msb],
                                   [IntervalChannels(channel1, channel2), IntervalParams(edge1, edge2)]);
      r := Ok(IntervalTime(reply.0, reply.1, reply.2, msb));
    }
  

    // -------------------------------------------------------------------
    // logic analyzer

    /** get_LA_initial_states(): five DMA pointers, the state byte and the
        acknowledgement; the progress of channel k is its pointer against
        the first one, normalised, and the levels are the byte's low bits. */
    method GetLaInitialStates() returns (r: Result<LaStates>)
      modifies H
      ensures |old(H.incoming)| < 11 ==>
        r == Err(CommunicationError) && H.State() == Xfer(old(H.State()), [TIMING, GET_INITIAL_DIGITAL_STATES], 11, 0)
      ensures var p := old(H.State());
        11 <= |p.incoming| ==>
          H.State() == Xfer(p, [TIMING, GET_INITIAL_DIGITAL_STATES], 11, 1) &&
          (r.Ok? <==> Answers(p, 11, 1)) && (r.Err? ==> r == Err(MissingAck))
      ensures r.Ok? ==> var s := old(H.incoming);
        |s| >= 11 &&
        r.value.a == ChannelProgress(StringToInt(s[2..]), StringToInt(s), 0) &&
        r.value.b == ChannelProgress(StringToInt(s[4..]), StringToInt(s), 1) &&
        r.value.c == ChannelProgress(StringToInt(s[6..]), StringToInt(s), 2) &&
        r.value.d == ChannelProgress(StringToInt(s[8..]), StringToInt(s), 3) &&
        r.value.levels == InitialLevels(s[10] as nat)
    {
      var reply :- H.IntsByteQuery([TIMING, GET_INITIAL_DIGITAL_STATES], 5);
      var w, s := reply.0, reply.1;
      r := Ok(LaStates(ChannelProgress(w[1], w[0], 0), ChannelProgress(w[2], w[0], 1),
                       ChannelProgress(w[3], w[0], 2), ChannelProgress(w[4], w[0], 3),
                       InitialLevels(s as nat)));
    }

    /** fetch_int_data_from_LA(bytes, chan): n words by __getInt__, the
        acknowledgement, then np.trim_zeros and the rollover correction.  A
        channel number whose chan - 1 is no byte fails when it is sent. */
    method FetchIntDataFromLa(n: nat, chan: int) returns (r: Result<seq<int>>)
      modifies H
      ensures !(1 <= chan <= 256) ==> (r == Err(InvalidByte) &&
        H.State() == Xfer(old(H.State()), [TIMING, FETCH_INT_DMA_DATA] + Words([n]), 0, 0))
      ensures 1 <= chan <= 256 && |old(H.incoming)| < 2 * n ==>
        r == Err(CommunicationError) &&
        H.State() == Xfer(old(H.State()), [TIMING, FETCH_INT_DMA_DATA] + Words([n]) + [(chan - 1) as byte], 2 * n, 0)
      ensures var p := old(H.State());
        1 <= chan <= 256 && 2 * n <= |p.incoming| ==>
          H.State() == Xfer(p, [TIMING, FETCH_INT_DMA_DATA] + Words([n]) + [(chan - 1) as byte], 2 * n, 1) &&
          (r.Ok? <==> Answers(p, 2 * n, 1)) && (r.Err? ==> r == Err(MissingAck)) &&
          (r.Ok? ==> r.value == Unrolled(TrimZeros(Ints(p.incoming, n)), 1))
    {
      if chan < 1 || chan > 256 {
        H.SendFrame([TIMING, FETCH_INT_DMA_DATA], [n], []);
        assert [TIMING, FETCH_INT_DMA_DATA] + Words([n]) + [] == [TIMING, FETCH_INT_DMA_DATA] + Words([n]);
        return Err(InvalidByte);
      }
      var t :- H.IntsQuery([TIMING, FETCH_INT_DMA_DATA], [n], [(chan - 1) as byte], n);
      var u := Unroll(TrimZeros(t));
      r := Ok(u);
    }

    /** fetch_long_data_from_LA(bytes, chan): fd.read(4n), the timestamps
        decoded into an array of 4n zeros, the acknowledgement, then
        np.trim_zeros.  A short reply fails in the decoding, before the
        acknowledgement is read. */
    method FetchLongDataFromLa(n: nat, chan: int) returns (r: Result<seq<int>>)
      modifies H
      ensures !(1 <= chan <= 256) ==> (r == Err(InvalidByte) &&
        H.State() == Xfer(old(H.State()), [TIMING, FETCH_LONG_DMA_DATA] + Words([n]), 0, 0))
      ensures var p := old(H.State());
        1 <= chan <= 256 && |p.incoming| < 4 * n ==> (r == Err(IndexOutOfRange) &&
          H.State() == Xfer(p, [TIMING, FETCH_LONG_DMA_DATA] + Words([n]) + [(chan - 1) as byte], 4 * n, 0))
      ensures var p := old(H.State());
        1 <= chan <= 256 && 4 * n <= |p.incoming| ==>
          H.State() == Xfer(p, [TIMING, FETCH_LONG_DMA_DATA] + Words([n]) + [(chan - 1) as byte], 4 * n, 1) &&
          (r.Ok? <==> Answers(p, 4 * n, 1)) && (r.Err? ==> r == Err(MissingAck)) &&
          (r.Ok? ==> r.value == TrimZeros(Longs(p.incoming, n)))
    {
      if chan < 1 || chan > 256 {
        H.SendFrame([TIMING, FETCH_LONG_DMA_DATA], [n], []);
        assert [TIMING, FETCH_LONG_DMA_DATA] + Words([n]) + [] == [TIMING, FETCH_LONG_DMA_DATA] + Words([n]);
        return Err(InvalidByte);
      }
      ghost var p := H.State();
      var tmp :- LongsQuery(n, (chan - 1) as byte);
      TrimZerosPadded(Longs(p.incoming, n), 3 * n);
      r := Ok(TrimZeros(tmp));
    }

    /** The request, read and decoding of fetch_long_data_from_LA, before
        the zeros are trimmed. */
    method LongsQuery(n: nat, chan: byte) returns (r: Result<seq<int>>)
      modifies H
      ensures var p := old(H.State());
        |p.incoming| < 4 * n ==> (r == Err(IndexOutOfRange) &&
          H.State() == Xfer(p, [TIMING, FETCH_LONG_DMA_DATA] + Words([n]) + [chan], 4 * n, 0))
      ensures var p := old(H.State());
        4 * n <= |p.incoming| ==>
          H.State() == Xfer(p, [TIMING, FETCH_LONG_DMA_DATA] + Words([n]) + [chan], 4 * n, 1) &&
          (r.Ok? <==> Answers(p, 4 * n, 1)) && (r.Err? ==> r == Err(MissingAck)) &&
          (r.Ok? ==> r.value == Longs(p.incoming, n) + Zeros(3 * n))
    {
      ghost var p, f := H.State(), [TIMING, FETCH_LONG_DMA_DATA] + Words([n]) + [chan];
      var ss := H.Request([TIMING, FETCH_LONG_DMA_DATA], [n], [chan], 4 * n);
      ghost var q := H.State();
      assert q == Xfer(p, f, 4 * n, 0);
      assert |ss| < 4 * n <==> |p.incoming| < 4 * n;
      var tmp :- DecodeLongs(ss, n);
      assert ss == p.incoming[..4 * n];
      LongsOfPrefix(p.incoming, 4 * n, n);
      assert tmp == Longs(p.incoming, n) + Zeros(3 * n);
      AckAfterRead(p, f, 4 * n);
      var _ :- H.GetAck();
      assert H.State() == Xfer(q, [], 0, 1);
      r := Ok(tmp);
    }

    /** start_one_channel_LA(trigger, channel, maximum_time, ...): the buffer
        cleared, then the command with the trigger byte (whose channel bit
        sits above bit 7 for LMETER and CH4, so that chr() fails), the
        acknowledgement, and every digital channel set to 32-bit
        timestamps of every edge. */
    method StartOneChannelLa(trigger: nat, channel: string, maximumTime: real,
                             trigChannels: Option<seq<string>>, rising: bool) returns (r: Result<()>)
      requires Valid()
      modifies H, this, dchans
      ensures Valid()
      ensures var p := old(H.State());
        var q := Xfer(p, [COMMON, CLEAR_BUFFER] + IntToString(0) + IntToString(MAX_SAMPLES / 2), 0, 1);
        var t := OneChannelTrigger(trigger, trigChannels, rising, DigitalChannel(channel));
        var head := [TIMING, START_ONE_CHAN_LA] + Words([MAX_SAMPLES / 4]);
        if !Answers(p, 0, 1) then r == Err(MissingAck) && H.State() == q
        else if t >= 256 then r == Err(InvalidByte) && H.State() == Xfer(q, head, 0, 0)
        else H.State() == Xfer(q, head + [t as byte], 0, 1) && (r.Ok? <==> Answers(q, 0, 1)) &&
             (r.Err? ==> r == Err(MissingAck))
      ensures Config() == old(Config()).(digitalChannelsInBuffer := if r.Ok? then 1 else old(digitalChannelsInBuffer))
      ensures dchans[..] == if r.Ok? then seq(4, _ => Some(OneChannelSetup(maximumTime))) else old(dchans[..])
    {
      var _ :- ClearBuffer(0, MAX_SAMPLES / 2);
      var t := OneChannelTrigger(trigger, trigChannels, rising, DigitalChannel(channel));
      if t >= 256 {
        H.SendFrame([TIMING, START_ONE_CHAN_LA], [MAX_SAMPLES / 4], []);
        assert [TIMING, START_ONE_CHAN_LA] + Words([MAX_SAMPLES / 4]) + [] == [TIMING, START_ONE_CHAN_LA] + Words([MAX_SAMPLES / 4]);
        return Err(InvalidByte);
      }
      r := H.Command([TIMING, START_ONE_CHAN_LA], [MAX_SAMPLES / 4], [t as byte]);
      if r.Ok? {
        digitalChannelsInBuffer := 1;
        SetDigitalChannels(seq(4, _ => Some(OneChannelSetup(maximumTime))));
      }
    }

    /** start_four_channel_LA(trigger, maximum_time, mode, ...): the buffer
        cleared, then the command with the mode word (mode[0..3] one nibble
        each), prescaler 0 and the trigger byte, the acknowledgement, and
        the digital channels set to 16-bit timestamps in their modes.  A
        mode list shorter than four fails when the mode word is built. */
    method StartFourChannelLa(trigger: nat, maximumTime: real, mode: seq<nat>,
                              tId1: bool, tId2: bool, tId3: bool, rising: bool) returns (r: Result<()>)
      requires Valid()
      modifies H, this, dchans
      ensures Valid()
      ensures var p := old(H.State());
        var q := Xfer(p, [COMMON, CLEAR_BUFFER] + IntToString(0) + IntToString(MAX_SAMPLES), 0, 1);
        var t := FourChannelTrigger(trigger, tId1, tId2, tId3, rising);
        var head := [TIMING, START_FOUR_CHAN_LA] + Words([MAX_SAMPLES / 4]);
        if !Answers(p, 0, 1) then r == Err(MissingAck) && H.State() == q
        else if |mode| < 4 then r == Err(IndexOutOfRange) && H.State() == Xfer(q, head, 0, 0)
        else if t >= 256 then r == Err(InvalidByte) &&
          H.State() == Xfer(q, [TIMING, START_FOUR_CHAN_LA] + Words([MAX_SAMPLES / 4, ModeWord(mode)]) + [0], 0, 0)
        else H.State() == Xfer(q, [TIMING, START_FOUR_CHAN_LA] + Words([MAX_SAMPLES / 4, ModeWord(mode)]) + [0, t as byte], 0, 1) &&
             (r.Ok? <==> Answers(q, 0, 1)) && (r.Err? ==> r == Err(MissingAck))
      ensures Config() == old(Config()).(digitalChannelsInBuffer := if r.Ok? then 4 else old(digitalChannelsInBuffer))
      ensures dchans[..] == if r.Ok? then FourChannelSetups(maximumTime, mode) else old(dchans[..])
    {
      var _ :- ClearBuffer(0, MAX_SAMPLES);
      r := FourChannelCommand(trigger, maximumTime, mode, tId1, tId2, tId3, rising);
    }

    /** The part of start_four_channel_LA after the buffer is cleared: the
        mode word, the command, the acknowledgement and the new channel
        settings. */
    method FourChannelCommand(trigger: nat, maximumTime: real, mode: seq<nat>,
                              tId1: bool, tId2: bool, tId3: bool, rising: bool) returns (r: Result<()>)
      requires Valid()
      modifies H, this, dchans
      ensures Valid()
      ensures var q := old(H.State());
        var t := FourChannelTrigger(trigger, tId1, tId2, tId3, rising);
        var head := [TIMING, START_FOUR_CHAN_LA] + Words([MAX_SAMPLES / 4]);
        if |mode| < 4 then r == Err(IndexOutOfRange) && H.State() == Xfer(q, head, 0, 0)
        else if t >= 256 then r == Err(InvalidByte) &&
          H.State() == Xfer(q, [TIMING, START_FOUR_CHAN_LA] + Words([MAX_SAMPLES / 4, ModeWord(mode)]) + [0], 0, 0)
        else H.State() == Xfer(q, [TIMING, START_FOUR_CHAN_LA] + Words([MAX_SAMPLES / 4, ModeWord(mode)]) + [0, t as byte], 0, 1) &&
             (r.Ok? <==> Answers(q, 0, 1)) && (r.Err? ==> r == Err(MissingAck))
      ensures Config() == old(Config()).(digitalChannelsInBuffer := if r.Ok? then 4 else old(digitalChannelsInBuffer))
      ensures dchans[..] == if r.Ok? then FourChannelSetups(maximumTime, mode) else old(dchans[..])
    {
      if |mode| < 4 {
        H.SendFrame([TIMING, START_FOUR_CHAN_LA], [MAX_SAMPLES / 4], []);
        assert [TIMING, START_FOUR_CHAN_LA] + Words([MAX_SAMPLES / 4]) + [] == [TIMING, START_FOUR_CHAN_LA] + Words([MAX_SAMPLES / 4]);
        return Err(IndexOutOfRange);
      }
      var t := FourChannelTrigger(trigger, tId1, tId2, tId3, rising);
      if t >= 256 {
        H.SendFrame([TIMING, START_FOUR_CHAN_LA], [MAX_SAMPLES / 4, ModeWord(mode)], [0]);
        return Err(InvalidByte);
      }
      r := H.Command([TIMING, START_FOUR_CHAN_LA], [MAX_SAMPLES / 4, ModeWord(mode)], [0, t as byte]);
      if r.Ok? {
        digitalChannelsInBuffer := 4;
        SetDigitalChannels(FourChannelSetups(maximumTime, mode));
      }
    }

    /** The loop over self.dchans that stores each channel's new settings. */
    method SetDigitalChannels(setups: seq<Option<DigitalSetup>>)
      requires Valid() && |setups| == 4
      modifies dchans
      ensures dchans[..] == setups
    {
      for k := 0 to 4
        invariant forall j :: 0 <= j < k ==> dchans[j] == setups[j]
      {
        dchans[k] := setups[k];
      }
    }

    /** write_flash(location, string_to_write): the string padded with '.'
        to 16 bytes, the command and location byte by byte, the string in
        one fd.write straight to the port, then the acknowledgement. */
    method WriteFlash(location: byte, s: seq<byte>) returns (r: Result<()>)
      modifies H
      ensures var p := old(H.State());
        H.State() == Xfer(Direct(Xfer(p, [FLASH, WRITE_FLASH, location], 0, 0), Padded(s)), [], 0, 1)
      ensures var p := old(H.State());
        !p.loadBurst ==> H.State() == Xfer(p, [FLASH, WRITE_FLASH, location] + Padded(s), 0, 1)
      ensures r.Ok? <==> Answers(old(H.State()), 0, 1)
      ensures r.Err? ==> r == Err(MissingAck)
    {
      ghost var p := H.State();
      var padded := PadFlash(s);
      H.SendBytes([FLASH, WRITE_FLASH, location]);
      H.Write(padded);
      assert H.State() == Direct(Xfer(p, [FLASH, WRITE_FLASH, location], 0, 0), Padded(s));
      var _ :- H.GetAck();
      r := Ok(());
    }
  }
}
