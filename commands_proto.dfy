/** The wire vocabulary of the instrument: command group and operation codes,
    the little-endian integer codec, the 8-bit reversal helper, and the search
    for timer parameters of the sine table generator. */
module CommandsProto {
  import opened Numeric
  import opened Outcomes

  /** One byte on the serial line. */
  type byte = x: int | 0 <= x < 256

  /** One binary digit. */
  type bit = x: int | 0 <= x < 2

  const ACKNOWLEDGE: byte := 254

  // flash memory
  const FLASH: byte := 1
  const READ_FLASH: byte := 1
  const WRITE_FLASH: byte := 2
  const WRITE_BULK_FLASH: byte := 3
  const READ_BULK_FLASH: byte := 4

  // ADC
  const ADC: byte := 2
  const CAPTURE_ONE: byte := 1
  const CAPTURE_TWO: byte := 2
  const CAPTURE_FOUR: byte := 4
  const CONFIGURE_TRIGGER: byte := 5
  const GET_CAPTURE_STATUS: byte := 6
  const GET_CAPTURE_CHANNEL: byte := 7
  const SET_PGA_GAIN: byte := 8
  const GET_VOLTAGE: byte := 9
  const GET_VOLTAGE_SUMMED: byte := 10
  const START_ADC_STREAMING: byte := 11
  const SELECT_PGA_CHANNEL: byte := 12
  const CAPTURE_12BIT: byte := 13

  // SPI
  const SPI_HEADER: byte := 3
  const START_SPI: byte := 1
  const SEND_SPI8: byte := 2
  const SEND_SPI16: byte := 3
  const STOP_SPI: byte := 4
  const SET_SPI_PARAMETERS: byte := 5
  const SEND_SPI8_BURST: byte := 6
  const SEND_SPI16_BURST: byte := 7

  // I2C
  const I2C_HEADER: byte := 4
  const I2C_START: byte := 1
  const I2C_SEND: byte := 2
  const I2C_STOP: byte := 3
  const I2C_RESTART: byte := 4
  const I2C_READ_END: byte := 5
  const I2C_READ_MORE: byte := 6
  const I2C_WAIT: byte := 7
  const I2C_SEND_BURST: byte := 8
  const I2C_CONFIG: byte := 9
  const I2C_STATUS: byte := 10

  // second UART
  const UART_2: byte := 5
  const SEND_CHAR: byte := 1
  const SEND_INT: byte := 2
  const SEND_ADDRESS: byte := 3
  const SET_BAUD: byte := 4
  const SET_MODE: byte := 5

  // DAC
  const DAC: byte := 6
  const SET_DAC: byte := 1
  const SET_PVS2: byte := 2
  const SET_PVS3: byte := 3
  const SET_PCS: byte := 4

  // wave generator
  const WAVEGEN: byte := 7
  const SET_WG1: byte := 2
  const SET_WG2: byte := 1
  const SET_SQR1: byte := 3
  const SET_SQR2: byte := 4
  const SET_SQRS: byte := 5
  const TUNE_SINE_OSCILLATOR: byte := 6
  const SQR4: byte := 7
  const MAP_REFERENCE: byte := 8
  const SET_BOTH_WG: byte := 9
  const SET_WAVEFORM_TYPE: byte := 10
  const SELECT_FREQ_REGISTER: byte := 11
  const DELAY_GENERATOR: byte := 12

  // digital outputs and inputs
  const DOUT: byte := 8
  const SET_STATE: byte := 1
  const DIN: byte := 9
  const GET_STATE: byte := 1
  const GET_STATES: byte := 2

  const ID1: byte := 0
  const ID2: byte := 1
  const ID3: byte := 2
  const ID4: byte := 3
  const LMETER: byte := 4

  // timing
  const TIMING: byte := 10
  const GET_TIMING: byte := 1
  const GET_PULSE_TIME: byte := 2
  const GET_DUTY_CYCLE: byte := 3
  const START_ONE_CHAN_LA: byte := 4
  const START_TWO_CHAN_LA: byte := 5
  const START_FOUR_CHAN_LA: byte := 6
  const FETCH_DMA_DATA: byte := 7
  const FETCH_INT_DMA_DATA: byte := 8
  const FETCH_LONG_DMA_DATA: byte := 9
  const GET_LA_PROGRESS: byte := 10
  const GET_INITIAL_DIGITAL_STATES: byte := 11
  const TIMING_MEASUREMENTS: byte := 12
  const INTERVAL_MEASUREMENTS: byte := 13
  const CONFIGURE_COMPARATOR: byte := 14
  const START_ALTERNATE_ONE_CHAN_LA: byte := 15
  const START_THREE_CHAN_LA: byte := 16

  // miscellaneous
  const COMMON: byte := 11
  const GET_CTMU_VOLTAGE: byte := 1
  const GET_CAPACITANCE: byte := 2
  const GET_FREQUENCY: byte := 3
  const GET_INDUCTANCE: byte := 4
  const GET_VERSION: byte := 5
  const RETRIEVE_BUFFER: byte := 8
  const GET_HIGH_FREQUENCY: byte := 9
  const CLEAR_BUFFER: byte := 10
  const SET_RGB: byte := 11
  const READ_PROGRAM_ADDRESS: byte := 12
  const WRITE_PROGRAM_ADDRESS: byte := 13
  const READ_DATA_ADDRESS: byte := 14
  const WRITE_DATA_ADDRESS: byte := 15
  const GET_CAP_RANGE: byte := 16
  const SET_ONBOARD_RGB: byte := 17

  // baud rate of the main channel
  const SETBAUD: byte := 12
  const BAUD9600: byte := 1
  const BAUD14400: byte := 2
  const BAUD19200: byte := 3
  const BAUD28800: byte := 4
  const BAUD38400: byte := 5
  const BAUD57600: byte := 6
  const BAUD115200: byte := 7
  const BAUD230400: byte := 8
  const BAUD1000000: byte := 9

  // NRF24L01 radio
  const NRFL01: byte := 13
  const NRF_SETUP: byte := 1
  const NRF_RXMODE: byte := 2
  const NRF_TXMODE: byte := 3
  const NRF_POWER_DOWN: byte := 4
  const NRF_RXCHAR: byte := 5
  const NRF_TXCHAR: byte := 6
  const NRF_HASDATA: byte := 7
  const NRF_FLUSH: byte := 8
  const NRF_WRITEREG: byte := 9
  const NRF_READREG: byte := 10
  const NRF_GETSTATUS: byte := 11
  const NRF_WRITECOMMAND: byte := 12
  const NRF_WRITEPAYLOAD: byte := 13
  const NRF_READPAYLOAD: byte := 14
  const NRF_WRITEADDRESS: byte := 15
  const NRF_TRANSACTION: byte := 16

  // non-standard IO and passthroughs
  const NONSTANDARD_IO: byte := 14
  const HX711_HEADER: byte := 1
  const HCSR04_HEADER: byte := 2
  const AM2302_HEADER: byte := 3
  const TCD1304_HEADER: byte := 4
  const PASSTHROUGHS: byte := 15
  const PASS_UART: byte := 1
  const STOP_STREAMING: byte := 253

  // input capture modes
  const EVERY_SIXTEENTH_RISING_EDGE: byte := 5
  const EVERY_FOURTH_RISING_EDGE: byte := 4
  const EVERY_RISING_EDGE: byte := 3
  const EVERY_FALLING_EDGE: byte := 2
  const EVERY_EDGE: byte := 1
  const DISABLED: byte := 0

  // chip selects
  const CSA1: byte := 1
  const CSA2: byte := 2
  const CSA3: byte := 3
  const CSA4: byte := 4
  const CSA5: byte := 5
  const CS1: byte := 6
  const CS2: byte := 7

  // ADC resolutions
  const TEN_BIT: byte := 10
  const TWELVE_BIT: byte := 12

  // ---------------------------------------------------------------------
  // Little-endian integer codec

  /** Two bytes, low byte first, of `v` taken modulo 2^16 (Python's & and >> on
      unbounded integers, negative values included). */
  function IntToString(v: int): (r: seq<byte>)
    ensures |r| == 2
    ensures r[0] as int + 256 * r[1] as int == v % 65536
  {
    var lo := v % 256;
    var hi := (v / 256) % 256;
    assert v == 65536 * ((v / 256) / 256) + (lo + 256 * hi);
    DivUnique(v, 65536, (v / 256) / 256, lo + 256 * hi);
    [lo, hi]
  }

  /** The 16-bit value of the first two bytes, low byte first. */
  function StringToInt(s: seq<byte>): (r: int)
    requires |s| >= 2
    ensures 0 <= r < 65536
  {
    s[0] as int + 256 * s[1] as int
  }

  /** Decoding two bytes and encoding the value again gives the bytes back. */
  lemma IntDecodeRoundTrip(s: seq<byte>)
    requires |s| >= 2
    ensures IntToString(StringToInt(s)) == s[..2]
  {
    DivUnique(StringToInt(s), 256, s[1], s[0]);
  }

  lemma {:induction false} IntRoundTrip(v: int)
    ensures StringToInt(IntToString(v)) == v % 65536
  {
  }

  /** The 32-bit value of the first four bytes, low byte first. */
  function StringToLong(s: seq<byte>): (r: int)
    requires |s| >= 4
    ensures 0 <= r < 0x1_0000_0000
  {
    (s[0] as int + 256 * s[1] as int) + 65536 * (s[2] as int + 256 * s[3] as int)
  }

  /** Each of the four bytes can be read back out of the 32-bit value. */
  lemma LongBytes(s: seq<byte>)
    requires |s| >= 4
    ensures var r := StringToLong(s);
      r % 256 == s[0] && (r / 256) % 256 == s[1] &&
      (r / 65536) % 256 == s[2] && r / 0x100_0000 == s[3]
  {
    var low := s[0] as int + 256 * s[1] as int;
    var high := s[2] as int + 256 * s[3] as int;
    DivUnique(low, 256, s[1], s[0]);
    DivUnique(high, 256, s[3], s[2]);
    var r: int := low + 65536 * high;
    DivUnique(r, 65536, high, low);
    DivUnique(r, 256, s[1] + 256 * high, s[0]);
    DivUnique(r / 256, 256, high, s[1]);
    DivUnique(r, 0x100_0000, s[3], s[0] as int + 256 * s[1] as int + 65536 * s[2] as int);
  }

  lemma {:induction false} LongDecodeInjective(s: seq<byte>, t: seq<byte>)
    requires |s| >= 4 && |t| >= 4
    requires StringToLong(s) == StringToLong(t)
    ensures s[..4] == t[..4]
  {
    LongBytes(s);
    LongBytes(t);
  }

  // ---------------------------------------------------------------------
  // reverse_bits: '{:08b}'.format(x) reversed and parsed back in base 2

  /** Number of binary digits of x; 0 has none. */
  function BitLength(x: nat): (r: nat)
    ensures x < Pow2(r)
  {
    if x == 0 then 0 else 1 + BitLength(x / 2)
  }

  /** Width of the digit string '{:08b}' produces: at least eight. */
  function Width(x: nat): nat
  {
    Max(8, BitLength(x))
  }

  /** The w low binary digits of x, most significant first. */
  function BinaryString(x: nat, w: nat): (s: seq<bit>)
    ensures |s| == w
  {
    if w == 0 then [] else BinaryString(x / 2, w - 1) + [x % 2]
  }

  /** int(s, 2): a digit string read most significant first. */
  function ParseBinary(s: seq<bit>): (r: nat)
    ensures r < Pow2(|s|)
  {
    if s == [] then 0 else 2 * ParseBinary(s[..|s| - 1]) + s[|s| - 1]
  }

  function Reverse<T>(s: seq<T>): (r: seq<T>)
    ensures |r| == |s|
    ensures forall i :: 0 <= i < |s| ==> r[i] == s[|s| - 1 - i]
  {
    if s == [] then [] else [s[|s| - 1]] + Reverse(s[..|s| - 1])
  }

  function ReverseBits(x: nat): nat
  {
    ParseBinary(Reverse(BinaryString(x, Width(x))))
  }

  lemma {:induction false} ParseOfBinary(x: nat, w: nat)
    requires x < Pow2(w)
    ensures ParseBinary(BinaryString(x, w)) == x
  {
    if w > 0 {
      var s := BinaryString(x, w);
      assert s[..w - 1] == BinaryString(x / 2, w - 1);
      ParseOfBinary(x / 2, w - 1);
    }
  }

  lemma {:induction false} BinaryOfParse(s: seq<bit>)
    ensures BinaryString(ParseBinary(s), |s|) == s
  {
    if s != [] {
      var init := s[..|s| - 1];
      var v := ParseBinary(s);
      assert v / 2 == ParseBinary(init) && v % 2 == s[|s| - 1];
      BinaryOfParse(init);
      assert s == init + [s[|s| - 1]];
    }
  }

  lemma {:induction false} SmallWidth(x: nat)
    requires x < 256
    ensures Width(x) == 8
  {
    BitLengthUpper(x, 8);
  }

  lemma {:induction false} BitLengthUpper(x: nat, k: nat)
    requires x < Pow2(k)
    ensures BitLength(x) <= k
  {
    if x > 0 {
      BitLengthUpper(x / 2, k - 1);
    }
  }

  /** For a byte, reverse_bits stays a byte and undoes itself. */
  lemma {:induction false} ReverseBitsInvolution(x: nat)
    requires x < 256
    ensures ReverseBits(x) < 256
    ensures ReverseBits(ReverseBits(x)) == x
  {
    SmallWidth(x);
    var s := BinaryString(x, 8);
    var y := ParseBinary(Reverse(s));
    assert Pow2(8) == 256;
    SmallWidth(y);
    BinaryOfParse(Reverse(s));
    assert Reverse(Reverse(s)) == s;
    ParseOfBinary(x, 8);
  }

  /** The digit of weight 2^i sits at position w-1-i of the string. */
  lemma {:induction false} BinaryDigit(x: nat, w: nat, i: nat)
    requires i < w
    ensures BinaryString(x, w)[w - 1 - i] == (x / Pow2(i)) % 2
  {
    if i > 0 {
      BinaryDigit(x / 2, w - 1, i - 1);
      assert BinaryString(x, w)[w - 1 - i] == BinaryString(x / 2, w - 1)[w - 1 - i];
      DivDiv(x, 2, Pow2(i - 1));
    }
  }

  /** Bit i of reverse_bits(x) is bit 7-i of x. */
  lemma {:induction false} ReverseBitsMirror(x: nat, i: nat)
    requires x < 256 && i < 8
    ensures (ReverseBits(x) / Pow2(i)) % 2 == (x / Pow2(7 - i)) % 2
  {
    SmallWidth(x);
    var s := Reverse(BinaryString(x, 8));
    BinaryOfParse(s);
    BinaryDigit(ParseBinary(s), 8, i);
    BinaryDigit(x, 8, 7 - i);
  }

  // ---------------------------------------------------------------------
  // get_wave_parameters: timer period register search for the sine table

  const TABLE_SIZE: byte := 180

  /** PR2(T, multiplier, postscaler) */
  function PR2(t: real, multiplier: int, postscaler: int): real
    requires postscaler >= 0
  {
    (t * 8000000.0 * multiplier as real) / (TABLE_SIZE as real * (1 + postscaler) as real)
  }

  /** getfreq(pr2, m, p): the frequency the rounded register actually yields. */
  function GetFreq(pr2: real, m: int, p: int): real
    requires p >= 0 && Round(pr2) != 0
  {
    (8000000.0 * m as real) / (Round(pr2) as real * TABLE_SIZE as real * (p + 1) as real)
  }

  /** The next multiplier: 1, 2, 4, 5 (3 is skipped). */
  function NextMultiplier(m: int): int
  {
    if m + 1 == 3 then 4 else m + 1
  }

  predicate ValidMultiplier(m: int)
  {
    m == 1 || m == 2 || m == 4 || m == 5
  }

  /** The (m, p) pair at which the search of get_wave_parameters stops,
      starting from (m, p): raise m while the register is under 40, then p
      while it is over 255. */
  function Search(t: real, m: int, p: int): (r: (int, int))
    requires ValidMultiplier(m) && 0 <= p <= 16
    decreases 5 - m, 16 - p
  {
    var pr2 := PR2(t, m, p);
    if pr2 < 40.0 && m < 5 then Search(t, NextMultiplier(m), p)
    else if pr2 > 255.0 && p < 16 then Search(t, m, p + 1)
    else (m, p)
  }

  /** Does some step of the search from (m, p) round the register to zero?
      (getfreq then divides by zero.) */
  predicate HitsZero(t: real, m: int, p: int)
    requires ValidMultiplier(m) && 0 <= p <= 16
    decreases 5 - m, 16 - p
  {
    var pr2 := PR2(t, m, p);
    Round(pr2) == 0 ||
    (if pr2 < 40.0 && m < 5 then HitsZero(t, NextMultiplier(m), p)
     else if pr2 > 255.0 && p < 16 then HitsZero(t, m, p + 1)
     else false)
  }

  /** What the search settles on: m only moves up through 1, 2, 4, 5, p only
      up to 16, and neither rule applies any more at the stopping point. */
  lemma {:induction false} SearchStops(t: real, m: int, p: int)
    requires ValidMultiplier(m) && 0 <= p <= 16
    ensures var (m', p') := Search(t, m, p);
      ValidMultiplier(m') && p <= p' <= 16 && m <= m' &&
      !(PR2(t, m', p') < 40.0 && m' < 5) && !(PR2(t, m', p') > 255.0 && p' < 16)
    decreases 5 - m, 16 - p
  {
    var pr2 := PR2(t, m, p);
    if pr2 < 40.0 && m < 5 {
      SearchStops(t, NextMultiplier(m), p);
    } else if pr2 > 255.0 && p < 16 {
      SearchStops(t, m, p + 1);
    }
  }

  datatype WaveParameters = WaveParameters(success: bool, closest: real, pr2: int, m: int, p: int)

  /** get_wave_parameters(freq): success, the frequency obtained and [pr2, m, p]. */
  method GetWaveParameters(freq: real) returns (r: Result<WaveParameters>)
    ensures freq == 0.0 ==> r == Err(ZeroDivision)
    ensures freq != 0.0 ==> (r.Err? <==> HitsZero(1.0 / freq, 1, 0))
    ensures r.Ok? ==>
      var t := 1.0 / freq;
      var w := r.value;
      (w.m, w.p) == Search(t, 1, 0) &&
      ValidMultiplier(w.m) && 0 <= w.p <= 16 &&
      w.pr2 == Round(PR2(t, w.m, w.p)) && w.pr2 != 0 &&
      w.closest == GetFreq(PR2(t, w.m, w.p), w.m, w.p) &&
      (w.success <==> 40 <= w.pr2 <= 255)
  {
    if freq == 0.0 {
      return Err(ZeroDivision);
    }
    var t := 1.0 / freq;
    var m, p := 1, 0;
    var pr2: real;
    var a0: int;
    var closest: real;
    while true
      invariant ValidMultiplier(m) && 0 <= p <= 16
      invariant Search(t, m, p) == Search(t, 1, 0)
      invariant HitsZero(t, 1, 0) <==> HitsZero(t, m, p)
      decreases 5 - m, 16 - p
    {
      pr2 := PR2(t, m, p);
      a0 := Round(pr2);
      if a0 == 0 {
        return Err(ZeroDivision);
      }
      closest := GetFreq(pr2, m, p);
      if pr2 < 40.0 && m < 5 {
        m := m + 1;
        if m == 3 {
          m := 4;
        }
      } else if pr2 > 255.0 && p < 16 {
        p := p + 1;
      } else {
        break;
      }
    }
    r := Ok(WaveParameters(40 <= a0 <= 255, closest, a0, m, p));
  }
}
