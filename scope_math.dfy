/** The arithmetic of the oscilloscope, logic analyzer and waveform generator
    commands: the values the interface computes before transmitting them. */
module ScopeMath {
  import opened Numeric
  import opened Outcomes
  import opened CommandsProto

  const MAX_SAMPLES := 3200

  /** 0xFFFFFFF - 1: the largest DDS tuning word. */
  const DDS_MAX_FREQ := 268435454

  // ---------------------------------------------------------------------
  // capture_traces

  /** The shortest sampling interval, in microseconds, for a channel count. */
  function MinTimebase(num: int): real
    requires 1 <= num <= 4
  {
    if num == 1 then 1.0 else if num == 2 then 1.25 else 1.75
  }

  /** The most samples per channel for a channel count. */
  function MaxSamplesPerChannel(num: int): int
    requires 1 <= num <= 4
  {
    if num == 1 then MAX_SAMPLES else if num == 2 then MAX_SAMPLES / 2 else MAX_SAMPLES / 4
  }

  /** The timebase capture_traces keeps: raised to the minimum for 1 to 4
      channels, untouched for any other count. */
  function ClampTimebase(num: int, tg: real): (t: real)
    ensures 1 <= num <= 4 ==> t >= MinTimebase(num) && (tg >= MinTimebase(num) ==> t == tg)
    ensures 1 <= num <= 4 && tg < MinTimebase(num) ==> t == MinTimebase(num)
    ensures !(1 <= num <= 4) ==> t == tg
  {
    if 1 <= num <= 4 && tg < MinTimebase(num) then MinTimebase(num) else tg
  }

  /** The sample count capture_traces keeps: cut to the maximum for 1 to 4
      channels, untouched for any other count. */
  function ClampSamples(num: int, samples: int): (s: int)
    ensures 1 <= num <= 4 ==> s == Min(samples, MaxSamplesPerChannel(num))
    ensures !(1 <= num <= 4) ==> s == samples
  {
    if 1 <= num <= 4 && samples > MaxSamplesPerChannel(num) then MaxSamplesPerChannel(num) else samples
  }

  /** Clamping twice is clamping once. */
  lemma {:induction false} ClampIdempotent(num: int, tg: real, samples: int)
    ensures ClampTimebase(num, ClampTimebase(num, tg)) == ClampTimebase(num, tg)
    ensures ClampSamples(num, ClampSamples(num, samples)) == ClampSamples(num, samples)
  {
  }

  /** For 1, 2 and 4 channels the clamped capture fits the 3200-sample buffer. */
  lemma {:induction false} CaptureFitsBuffer(num: int, samples: int)
    requires num == 1 || num == 2 || num == 4
    ensures num * ClampSamples(num, samples) <= MAX_SAMPLES
  {
  }

  /** The timer word sent after the sample count: int(timebase * 8), eight
      ticks of the 8 MHz timer per microsecond. */
  function TimerTicks(timebase: real): (r: int)
    ensures timebase >= 0.0 ==> r as real <= timebase * 8.0 < r as real + 1.0
  {
    Trunc(timebase * 8.0)
  }

  /** The opcode capture_traces sends for a channel count, if any. */
  function CaptureOpcode(num: int): Option<byte>
  {
    if num == 1 then Some(CAPTURE_ONE) else if num == 2 then Some(CAPTURE_TWO)
    else if num == 3 || num == 4 then Some(CAPTURE_FOUR) else None
  }

  /** The selector byte: CHOSA, for three or four channels CH123SA in the
      high nibble, and bit 7 unless triggering is off. */
  function CaptureSelector(num: int, chosa: nat, ch123sa: nat, trigger: bool): (r: nat)
    ensures trigger ==> Bit(r, 7) == 1
  {
    var low := if num == 3 || num == 4 then Or(chosa, ch123sa * 16) else chosa;
    OrBit(low, if trigger then 128 else 0, 7);
    assert Pow2(7) == 128;
    BitOfPow(7, 7);
    Or(low, if trigger then 128 else 0)
  }

  /** When the fields fit their bit ranges the byte is their plain sum. */
  lemma {:induction false} CaptureSelectorLayout(num: int, chosa: nat, ch123sa: nat, trigger: bool)
    ensures chosa < 16 && ch123sa < 8 && (num == 3 || num == 4) ==>
      CaptureSelector(num, chosa, ch123sa, trigger) == chosa + 16 * ch123sa + (if trigger then 128 else 0)
    ensures chosa < 128 && !(num == 3 || num == 4) ==>
      CaptureSelector(num, chosa, ch123sa, trigger) == chosa + (if trigger then 128 else 0)
  {
    assert Pow2(4) == 16 && Pow2(7) == 128;
    if (num == 3 || num == 4) && chosa < 16 && ch123sa < 8 {
      OrDisjoint(chosa, ch123sa, 4);
      OrDisjoint(chosa + 16 * ch123sa, if trigger then 1 else 0, 7);
    } else if !(num == 3 || num == 4) && chosa < 128 {
      OrDisjoint(chosa, if trigger then 1 else 0, 7);
    }
  }

  // ---------------------------------------------------------------------
  // __calcCHOSA__

  /** str.upper on ASCII. */
  function Upper(s: string): (r: string)
    ensures |r| == |s|
    ensures forall i :: 0 <= i < |s| ==>
      r[i] == (if 'a' <= s[i] <= 'z' then (s[i] as int - 32) as char else s[i])
  {
    if s == [] then [] else
      [if 'a' <= s[0] <= 'z' then (s[0] as int - 32) as char else s[0]] + Upper(s[1..])
  }

  lemma {:induction false} UpperIdempotent(s: string)
    ensures Upper(Upper(s)) == Upper(s)
  {
    var u := Upper(s);
    assert forall i :: 0 <= i < |u| ==> !('a' <= u[i] <= 'z');
  }

  /** Position of an (upper-cased) name among CH5..CH9, 5V, PCS, 9V, the
      inputs behind the sensor multiplexer; -1 for any other name. */
  function UnipolarIndex(name: string): (i: int)
    ensures -1 <= i < 8
  {
    if name == "CH5" then 0 else if name == "CH6" then 1 else if name == "CH7" then 2
    else if name == "CH8" then 3 else if name == "CH9" then 4 else if name == "5V" then 5
    else if name == "PCS" then 6 else if name == "9V" then 7 else -1
  }

  /** The CHOSA value of an upper-cased channel name. */
  function SelectorOf(name: string): (r: nat)
    ensures r <= 8
    ensures r == 4 <==> UnipolarIndex(name) != -1
  {
    if name == "CH2" then 0 else if name == "CH3" then 1 else if name == "CH4" then 2
    else if name == "CH1" then 3
    else if UnipolarIndex(name) != -1 then 4
    else if name == "IN1" then 5 else if name == "CHIP SELECT. IGNORE" then 6
    else if name == "SEN" then 7 else if name == "TEMP" then 8
    else 3
  }

  /** The selector table: CH2, CH3, CH4, CH1 are 0..3, every multiplexed
      input 4, IN1 5, SEN 7, TEMP 8, and an unknown name falls back to CH1's 3. */
  lemma {:induction false} SelectorTable(name: string)
    ensures SelectorOf("CH2") == 0 && SelectorOf("CH3") == 1 && SelectorOf("CH4") == 2
    ensures SelectorOf("CH1") == 3 && SelectorOf("IN1") == 5 && SelectorOf("SEN") == 7
    ensures SelectorOf("TEMP") == 8 && SelectorOf("CHIP SELECT. IGNORE") == 6
    ensures UnipolarIndex(name) != -1 ==> SelectorOf(name) == 4
    ensures (UnipolarIndex(name) == -1 && !(name in {"CH1", "CH2", "CH3", "CH4", "IN1",
      "CHIP SELECT. IGNORE", "SEN", "TEMP"})) ==> SelectorOf(name) == 3
  {
  }

  // ---------------------------------------------------------------------
  // configure_trigger

  function ClampReal(x: real, lo: real, hi: real): (r: real)
    requires lo <= hi
    ensures lo <= r <= hi
    ensures lo <= x <= hi ==> r == x
  {
    if x > hi then hi else if x < lo then lo else x
  }

  /** The trigger word: int(511 - 31*level*gain) clamped to 0..1023. */
  function TriggerWord(level: real, gain: int): (r: int)
    ensures 0 <= r <= 1023
  {
    Trunc(ClampReal(TriggerScaled(level, gain), 0.0, 1023.0))
  }

  /** 511 - 31*level*gain before clamping. */
  function TriggerScaled(level: real, gain: int): real
  {
    511.0 - 31.0 * level * (gain as real)
  }

  /** Level 0 is mid-scale whatever the gain. */
  lemma TriggerWordZero(gain: int)
    ensures TriggerWord(0.0, gain) == 511
  {
    assert 31.0 * 0.0 * (gain as real) == 0.0;
    assert ClampReal(511.0, 0.0, 1023.0) == 511.0;
    assert Trunc(511.0) == 511;
  }

  /** A higher level never yields a higher word, for a positive gain. */
  lemma {:induction false} TriggerWordMonotone(l1: real, l2: real, gain: int)
    requires l1 <= l2 && gain > 0
    ensures TriggerWord(l2, gain) <= TriggerWord(l1, gain)
  {
    var x, y := TriggerScaled(l2, gain), TriggerScaled(l1, gain);
    TriggerScaledMonotone(l1, l2, gain);
    ClampMonotone(x, y, 0.0, 1023.0);
    TruncMonotone(ClampReal(x, 0.0, 1023.0), ClampReal(y, 0.0, 1023.0));
  }

  lemma TriggerScaledMonotone(l1: real, l2: real, gain: int)
    requires l1 <= l2 && gain > 0
    ensures TriggerScaled(l2, gain) <= TriggerScaled(l1, gain)
  {
    ScaleMonotone(31.0 * l1, 31.0 * l2, gain as real);
  }

  lemma ClampMonotone(x: real, y: real, lo: real, hi: real)
    requires x <= y && lo <= hi
    ensures ClampReal(x, lo, hi) <= ClampReal(y, lo, hi)
  {
  }

  // ---------------------------------------------------------------------
  // get_LA_initial_states

  /** Progress count of logic analyzer channel k from the raw DMA pointer:
      (raw - initial)/2 - k*800, then 0 made 800, then negatives made 0. */
  function ChannelProgress(raw: int, initial: int, k: int): (r: int)
    ensures r >= 0
    ensures (raw - initial) / 2 - k * (MAX_SAMPLES / 4) == 0 ==> r == MAX_SAMPLES / 4
    ensures (raw - initial) / 2 - k * (MAX_SAMPLES / 4) < 0 ==> r == 0
    ensures (raw - initial) / 2 - k * (MAX_SAMPLES / 4) > 0 ==>
      r == (raw - initial) / 2 - k * (MAX_SAMPLES / 4)
  {
    var c := (raw - initial) / 2 - k * (MAX_SAMPLES / 4);
    var c' := if c == 0 then MAX_SAMPLES / 4 else c;
    if c' < 0 then 0 else c'
  }

  /** [s&1 != 0, s&2 != 0, s&4 != 0, s&8 != 0] */
  function InitialLevels(s: nat): (r: seq<bool>)
    ensures |r| == 4
    ensures forall i :: 0 <= i < 4 ==> (r[i] <==> Bit(s, i) == 1)
  {
    [Bit(s, 0) == 1, Bit(s, 1) == 1, Bit(s, 2) == 1, Bit(s, 3) == 1]
  }

  /** get_states' dictionary: ID1..ID4 are s&1, s&2, s&4, s&8 compared
      against 0. */
  function InputStates(s: nat): (r: map<string, bool>)
    ensures r.Keys == {"ID1", "ID2", "ID3", "ID4"}
  {
    map["ID1" := s % 2 != 0, "ID2" := s / 2 % 2 != 0, "ID3" := s / 4 % 2 != 0, "ID4" := s / 8 % 2 != 0]
  }

  /** get_states reads a state byte the way get_LA_initial_states does:
      input IDk is bit k-1, which is initial level k-1. */
  lemma InputStatesAreLevels(s: nat)
    ensures var m, l := InputStates(s), InitialLevels(s);
      m["ID1"] == l[0] && m["ID2"] == l[1] && m["ID3"] == l[2] && m["ID4"] == l[3]
  {
    assert Pow2(0) == 1 && Pow2(1) == 2 && Pow2(2) == 4 && Pow2(3) == 8;
  }

  // ---------------------------------------------------------------------
  // np.trim_zeros and the 16-bit rollover correction

  function TrimFront(t: seq<int>): (r: seq<int>)
    ensures |r| <= |t| && r == t[|t| - |r|..]
    ensures forall i :: 0 <= i < |t| - |r| ==> t[i] == 0
    ensures r == [] || r[0] != 0
  {
    if t != [] && t[0] == 0 then TrimFront(t[1..]) else t
  }

  function TrimBack(t: seq<int>): (r: seq<int>)
    ensures |r| <= |t| && r == t[..|r|]
    ensures forall i :: |r| <= i < |t| ==> t[i] == 0
    ensures r == [] || r[|r| - 1] != 0
  {
    if t != [] && t[|t| - 1] == 0 then TrimBack(t[..|t| - 1]) else t
  }

  /** r is t[i:j] for some i <= j, with only zeros of t outside it. */
  predicate ZeroPadded(t: seq<int>, r: seq<int>)
  {
    exists i, j :: (0 <= i <= j <= |t| && r == t[i..j] &&
      (forall k :: 0 <= k < i ==> t[k] == 0) && (forall k :: j <= k < |t| ==> t[k] == 0))
  }

  /** np.trim_zeros: the slice between the first and the last nonzero entry. */
  function TrimZeros(t: seq<int>): (r: seq<int>)
    ensures ZeroPadded(t, r)
    ensures r == [] || (r[0] != 0 && r[|r| - 1] != 0)
  {
    TrimBothEnds(t);
    TrimBack(TrimFront(t))
  }

  /** Trimming the back of the front-trimmed sequence leaves a slice of t
      with only zeros outside it, and nonzero ends. */
  lemma TrimBothEnds(t: seq<int>)
    ensures ZeroPadded(t, TrimBack(TrimFront(t)))
    ensures var r := TrimBack(TrimFront(t));
      r == [] || (r[0] != 0 && r[|r| - 1] != 0)
  {
    var f := TrimFront(t);
    var r := TrimBack(f);
    var i := |t| - |f|;
    TrimBackOfSuffix(t, i);
    assert r == t[i..i + |r|];
    ZeroPaddedAt(t, r, i, i + |r|);
    if r != [] {
      assert r[0] == f[0];
    }
  }

  /** The witnesses of ZeroPadded. */
  lemma ZeroPaddedAt(t: seq<int>, r: seq<int>, i: nat, j: nat)
    requires i <= j <= |t| && r == t[i..j]
    requires forall k :: 0 <= k < i ==> t[k] == 0
    requires forall k :: j <= k < |t| ==> t[k] == 0
    ensures ZeroPadded(t, r)
  {
  }

  /** What TrimBack drops from a suffix of t is zeros of t. */
  lemma TrimBackOfSuffix(t: seq<int>, i: nat)
    requires i <= |t|
    ensures forall k :: i + |TrimBack(t[i..])| <= k < |t| ==> t[k] == 0
  {
    var f := t[i..];
    forall k | i + |TrimBack(f)| <= k < |t|
      ensures t[k] == 0
    {
      assert t[k] == f[k - i];
    }
  }

  lemma {:induction false} TrimZerosIdempotent(t: seq<int>)
    ensures TrimZeros(TrimZeros(t)) == TrimZeros(t)
  {
    var r := TrimZeros(t);
    assert TrimFront(r) == r;
    assert TrimBack(r) == r;
  }

  /** The correction step at a descent: 65535 added to t[b:]. */
  function AddFrom(t: seq<int>, b: nat): (r: seq<int>)
    ensures |r| == |t|
    ensures forall i :: 0 <= i < |t| ==> r[i] == (if i >= b then t[i] + 65535 else t[i])
  {
    seq(|t|, i requires 0 <= i < |t| => if i >= b then t[i] + 65535 else t[i])
  }

  /** The rollover loop of fetch_int_data_from_LA from position b on: at
      each b, a value below its predecessor and not zero starts a new 65535
      span. */
  function Unrolled(t: seq<int>, b: nat): (r: seq<int>)
    requires b >= 1
    ensures |r| == |t|
    ensures forall i :: 0 <= i < Min(b, |t|) ==> r[i] == t[i]
    decreases |t| - b
  {
    if b >= |t| then t
    else Unrolled(if t[b] < t[b - 1] && t[b] != 0 then AddFrom(t, b) else t, b + 1)
  }

  predicate NonDecreasing(t: seq<int>)
  {
    forall i, j :: 0 <= i <= j < |t| ==> t[i] <= t[j]
  }

  /** Already ordered timestamps are left as they are. */
  lemma {:induction false} UnrolledOrdered(t: seq<int>, b: nat)
    requires b >= 1 && NonDecreasing(t)
    ensures Unrolled(t, b) == t
    decreases |t| - b
  {
    if b < |t| {
      UnrolledOrdered(t, b + 1);
    }
  }

  /** From position b on, every entry is positive and drops by at most 65535
      against its predecessor, and the prefix is already ordered: then the
      correction orders the whole sequence. */
  lemma {:induction false} UnrolledOrders(t: seq<int>, b: nat)
    requires 1 <= b <= |t|
    requires NonDecreasing(t[..b])
    requires forall i :: b - 1 <= i < |t| ==> t[i] > 0
    requires forall i :: b <= i < |t| ==> t[i - 1] - t[i] <= 65535
    ensures NonDecreasing(Unrolled(t, b))
    decreases |t| - b
  {
    if b < |t| {
      var t' := if t[b] < t[b - 1] && t[b] != 0 then AddFrom(t, b) else t;
      assert t'[..b] == t[..b];
      assert t'[b - 1] <= t'[b];
      assert forall i :: b + 1 <= i < |t| ==> t'[i - 1] - t'[i] == t[i - 1] - t[i];
      var u := t'[..b + 1];
      assert NonDecreasing(u) by {
        forall i, j | 0 <= i <= j < |u|
          ensures u[i] <= u[j]
        {
          if j == b && i < b {
            assert t[..b][i] <= t[..b][b - 1];
          } else if j < b {
            assert t[..b][i] <= t[..b][j];
          }
        }
      }
      UnrolledOrders(t', b + 1);
    } else {
      assert t[..b] == t;
    }
  }

  /** Trimmed 16-bit words in 1..65535 come out non-decreasing. */
  lemma {:induction false} WordsUnrollOrdered(t: seq<int>)
    requires |t| >= 1
    requires forall i :: 0 <= i < |t| ==> 1 <= t[i] <= 65535
    ensures NonDecreasing(Unrolled(t, 1))
  {
    UnrolledOrders(t, 1);
  }

  /** [60000, 5000, 6000] becomes [60000, 70535, 71535]. */
  lemma UnrolledExample()
    ensures Unrolled([60000, 5000, 6000], 1) == [60000, 70535, 71535]
  {
    assert AddFrom([60000, 5000, 6000], 1) == [60000, 70535, 71535];
    assert Unrolled([60000, 70535, 71535], 2) == [60000, 70535, 71535];
  }

  /** The rollover loop on a local array, as fetch_int_data_from_LA runs it. */
  method Unroll(words: seq<int>) returns (r: seq<int>)
    ensures r == Unrolled(words, 1)
  {
    if |words| == 0 {
      return [];
    }
    var t := new int[|words|](i requires 0 <= i < |words| => words[i]);
    assert t[..] == words;
    var b := 1;
    while b < t.Length
      invariant 1 <= b <= t.Length
      invariant Unrolled(t[..], b) == Unrolled(words, 1)
      decreases t.Length - b
    {
      if t[b] < t[b - 1] && t[b] != 0 {
        ghost var before := t[..];
        forall k | b <= k < t.Length {
          t[k] := t[k] + 65535;
        }
        assert t[..] == AddFrom(before, b);
      }
      b := b + 1;
    }
    r := t[..];
  }

  // ---------------------------------------------------------------------
  // fetch_long_data_from_LA: 32-bit timestamps

  /** Timestamp a of fetched bytes, as `fetch_long_data_from_LA` rebuilds it:
      ss[4a] | ss[4a+1] << 8 | ss[4a+2] << 16 | ss[4a+3] << 24. */
  function LongAt(ss: seq<byte>, a: nat): nat
    requires 4 * a + 3 < |ss|
  {
    Or(Or(Or(ss[4 * a] as nat, ss[4 * a + 1] as nat * 256), ss[4 * a + 2] as nat * 65536),
       ss[4 * a + 3] as nat * 0x100_0000)
  }

  /** The four bytes do not overlap, so the or-ed timestamp is the
      little-endian 32-bit value __getLong__ decodes. */
  lemma LongAtValue(ss: seq<byte>, a: nat)
    requires 4 * a + 3 < |ss|
    ensures LongAt(ss, a) == StringToLong(ss[4 * a..])
  {
    var b0, b1, b2, b3 := ss[4 * a] as nat, ss[4 * a + 1] as nat, ss[4 * a + 2] as nat, ss[4 * a + 3] as nat;
    var x1 := OrBelow(b0, b1, 8, 256);
    var x2 := OrBelow(x1, b2, 16, 65536);
    var x3 := OrBelow(x2, b3, 24, 0x100_0000);
  }

  /** a | (b << k) as a sum, for a below 2^k = m; the sum is returned. */
  lemma OrBelow(a: nat, b: nat, k: nat, m: nat) returns (x: nat)
    requires m == Pow2(k) && a < m
    ensures x == Or(a, b * m) == a + b * m
  {
    OrDisjoint(a, b, k);
    x := a + b * m;
  }

  /** The first n timestamps of ss. */
  function Longs(ss: seq<byte>, n: nat): (r: seq<int>)
    requires 4 * n <= |ss|
    ensures |r| == n && forall j :: 0 <= j < n ==> r[j] == LongAt(ss, j)
  {
    seq(n, j requires 0 <= j < n => LongAt(ss, j))
  }

  /** The longs of n words read from the front of a stream are the longs
      of the stream. */
  lemma LongsOfPrefix(s: seq<byte>, k: nat, n: nat)
    requires 4 * n <= k <= |s|
    ensures Longs(s[..k], n) == Longs(s, n)
  {
    forall j | 0 <= j < n
      ensures LongAt(s[..k], j) == LongAt(s, j)
    {
    }
  }

  function Zeros(m: nat): (r: seq<int>)
    ensures |r| == m && forall i :: 0 <= i < m ==> r[i] == 0
  {
    seq(m, _ => 0)
  }

  /** The decoding loop of fetch_long_data_from_LA over np.zeros(bytes*4):
      the first n slots get the timestamps, the other 3n stay 0; a reply
      short of 4n bytes stops it with an IndexError. */
  method DecodeLongs(ss: seq<byte>, n: nat) returns (r: Result<seq<int>>)
    ensures r.Ok? <==> 4 * n <= |ss|
    ensures r.Ok? ==> r.value == Longs(ss, n) + Zeros(3 * n)
    ensures r.Err? ==> r == Err(IndexOutOfRange)
  {
    var tmp := new int[4 * n](_ => 0);
    for a := 0 to n
      invariant 4 * a <= |ss|
      invariant forall j :: 0 <= j < a ==> 4 * j + 3 < |ss| && tmp[j] == LongAt(ss, j)
      invariant forall j :: a <= j < 4 * n ==> tmp[j] == 0
    {
      if 4 * a + 3 >= |ss| {
        return Err(IndexOutOfRange);
      }
      tmp[a] := LongAt(ss, a);
    }
    assert tmp[..] == Longs(ss, n) + Zeros(3 * n);
    r := Ok(tmp[..]);
  }

  /** Zeros appended to x are trimmed away again: the 3n unused slots of
      fetch_long_data_from_LA's array never reach its result. */
  lemma TrimZerosPadded(x: seq<int>, m: nat)
    ensures TrimZeros(x + Zeros(m)) == TrimZeros(x)
  {
    TrimFrontPadded(x, m);
    if TrimFront(x) != [] {
      TrimBackPadded(TrimFront(x), m);
    }
  }

  lemma {:induction false} TrimFrontPadded(x: seq<int>, m: nat)
    ensures TrimFront(x + Zeros(m)) == if TrimFront(x) == [] then [] else TrimFront(x) + Zeros(m)
  {
    if x == [] {
      assert x + Zeros(m) == Zeros(m);
      AllZerosTrimmed(m);
    } else if x[0] == 0 {
      assert (x + Zeros(m))[1..] == x[1..] + Zeros(m);
      TrimFrontPadded(x[1..], m);
    }
  }

  lemma {:induction false} AllZerosTrimmed(m: nat)
    ensures TrimFront(Zeros(m)) == []
  {
    if m > 0 {
      assert Zeros(m)[1..] == Zeros(m - 1);
      AllZerosTrimmed(m - 1);
    }
  }

  lemma {:induction false} TrimBackPadded(y: seq<int>, m: nat)
    ensures TrimBack(y + Zeros(m)) == TrimBack(y)
  {
    if m == 0 {
      assert y + Zeros(m) == y;
    } else {
      var t := y + Zeros(m);
      assert t[..|t| - 1] == y + Zeros(m - 1);
      TrimBackPadded(y, m - 1);
    }
  }

  // ---------------------------------------------------------------------
  // fetch_LA_channels: trigger-channel offset

  /** The offset subtracted from every fetched channel: the trigger
      channel's first timestamp when it has more than one entry and only one
      channel was captured, 0 otherwise.  An empty timestamp array under
      that rule is an IndexError. */
  function LaOffset(trigDlength: int, trigTimestamps: seq<real>, digitalChannelsInBuffer: int): (r: Result<real>)
    ensures trigDlength > 1 && digitalChannelsInBuffer == 1 && |trigTimestamps| >= 1 ==>
      r == Ok(trigTimestamps[0])
    ensures trigDlength > 1 && digitalChannelsInBuffer == 1 && |trigTimestamps| == 0 ==>
      r == Err(IndexOutOfRange)
    ensures !(trigDlength > 1 && digitalChannelsInBuffer == 1) ==> r == Ok(0.0)
  {
    if trigDlength > 1 && digitalChannelsInBuffer == 1 then
      (if |trigTimestamps| >= 1 then Ok(trigTimestamps[0]) else Err(IndexOutOfRange))
    else Ok(0.0)
  }

  /** The loaded channels' timestamps with the offset subtracted: channels
      before number `count` are shifted, the rest are untouched. */
  function Aligned(timestamps: seq<seq<real>>, count: int, offset: real): (r: seq<seq<real>>)
    ensures |r| == |timestamps|
    ensures forall c :: 0 <= c < |r| && c < count ==> (|r[c]| == |timestamps[c]| &&
      forall i :: 0 <= i < |r[c]| ==> r[c][i] == timestamps[c][i] - offset)
    ensures forall c :: 0 <= c < |r| && c >= count ==> r[c] == timestamps[c]
  {
    seq(|timestamps|, c requires 0 <= c < |timestamps| =>
      if c < count then seq(|timestamps[c]|, i requires 0 <= i < |timestamps[c]| => timestamps[c][i] - offset)
      else timestamps[c])
  }

  /** After a single-channel capture the trigger channel starts at time zero. */
  lemma {:induction false} TriggerChannelStartsAtZero(timestamps: seq<seq<real>>, trig: int)
    requires 0 <= trig < |timestamps| && trig < 1 && |timestamps[trig]| > 1
    ensures var off := LaOffset(|timestamps[trig]|, timestamps[trig], 1);
      off.Ok? && Aligned(timestamps, 1, off.value)[trig][0] == 0.0
  {
  }

  /** With one channel captured and a trigger channel 2 to 4, only the
      first channel is shifted, by the trigger channel's first (stale)
      timestamp, and the trigger channel itself keeps its timestamps. */
  lemma {:induction false} OtherTriggerShiftsFirstChannel(timestamps: seq<seq<real>>, trig: int)
    requires 1 <= trig < |timestamps| && |timestamps[trig]| > 1
    ensures var off := LaOffset(|timestamps[trig]|, timestamps[trig], 1);
      var al := Aligned(timestamps, 1, off.value);
      off == Ok(timestamps[trig][0]) && al[trig] == timestamps[trig] &&
      |al[0]| == |timestamps[0]| &&
      forall i :: 0 <= i < |al[0]| ==> al[0][i] == timestamps[0][i] - timestamps[trig][0]
  {
  }

  // ---------------------------------------------------------------------
  // set_sine1 / set_sine2: the DDS tuning word

  /** int(round(frequency * DDS_MAX_FREQ / DDS_CLOCK)) */
  function TuningWord(frequency: real, ddsClock: real): int
    requires ddsClock != 0.0
  {
    Round(frequency / ddsClock * DDS_MAX_FREQ as real)
  }

  /** The two 14-bit halves sent: (f & 0x3FFF, (f >> 14) & 0x3FFF). */
  function TuningHalves(f: int): (r: (int, int))
    ensures 0 <= r.0 < 16384 && 0 <= r.1 < 16384
  {
    (f % 16384, (f / 16384) % 16384)
  }

  /** The two words set_sine sends for a frequency at a DDS clock. */
  function SineWords(frequency: real, ddsClock: real): (r: seq<int>)
    requires ddsClock != 0.0
    ensures |r| == 2 && 0 <= r[0] < 16384 && 0 <= r[1] < 16384
  {
    var f := TuningHalves(TuningWord(frequency, ddsClock));
    [f.0, f.1]
  }

  /** A 28-bit word is exactly its low half plus 2^14 times its high half. */
  lemma {:induction false} TuningHalvesJoin(f: int)
    requires 0 <= f < 0x1000_0000
    ensures TuningHalves(f).0 + 16384 * TuningHalves(f).1 == f
  {
    assert f / 16384 < 16384;
  }

  /** Frequencies from 0 up to the DDS clock give 28-bit words. */
  lemma {:induction false} TuningWordFits(frequency: real, ddsClock: real)
    requires ddsClock > 0.0 && 0.0 <= frequency <= ddsClock
    ensures 0 <= TuningWord(frequency, ddsClock) <= DDS_MAX_FREQ
  {
    var q := frequency / ddsClock;
    assert 0.0 <= q <= 1.0;
    ScaleMonotone(q, 1.0, DDS_MAX_FREQ as real);
  }

  // ---------------------------------------------------------------------
  // sqr1 / sqr2: the prescaler search

  const SQR_PRESCALERS: seq<int> := [1, 8, 64, 256]

  /** 64e6/freq/p[i]: timer ticks per period at prescaler index i. */
  function SqrWavelength(freq: real, i: int): real
    requires freq != 0.0 && 0 <= i < 4
  {
    64000000.0 / freq / SQR_PRESCALERS[i] as real
  }

  /** The first prescaler index from i on whose wavelength is under 65525. */
  function SqrPrescalerFrom(freq: real, i: nat): (r: Option<nat>)
    requires freq != 0.0 && i <= 4
    ensures r.Some? ==> (i <= r.value < 4 && SqrWavelength(freq, r.value) < 65525.0 &&
      forall j :: i <= j < r.value ==> SqrWavelength(freq, j) >= 65525.0)
    ensures r.None? ==> forall j :: i <= j < 4 ==> SqrWavelength(freq, j) >= 65525.0
    decreases 4 - i
  {
    if i == 4 then None
    else if SqrWavelength(freq, i) < 65525.0 then Some(i)
    else SqrPrescalerFrom(freq, i + 1)
  }

  /** For a positive frequency the rounded wavelength fits 16 bits, so the
      word sent is the wavelength itself. */
  lemma {:induction false} SqrWavelengthFits(freq: real)
    requires freq > 0.0
    ensures var r := SqrPrescalerFrom(freq, 0);
      r.Some? ==> 0 <= Round(SqrWavelength(freq, r.value)) <= 65525
  {
  }

  /** A positive frequency finds no prescaler exactly when even the largest
      divisor leaves 65525 ticks or more. */
  lemma {:induction false} SqrOutOfRange(freq: real)
    requires freq > 0.0
    ensures SqrPrescalerFrom(freq, 0).None? <==> SqrWavelength(freq, 3) >= 65525.0
  {
    if SqrWavelength(freq, 3) >= 65525.0 {
      assert SqrWavelength(freq, 0) == 256.0 * SqrWavelength(freq, 3);
      assert SqrWavelength(freq, 1) == 32.0 * SqrWavelength(freq, 3);
      assert SqrWavelength(freq, 2) == 4.0 * SqrWavelength(freq, 3);
    }
  }

  /** The two words of sqr1/sqr2: the rounded wavelength and the rounded
      high time, duty cycle percent of it. */
  function SqrTimes(wavelength: real, dutyCycle: real): (r: seq<int>)
    ensures |r| == 2
  {
    [Round(wavelength), Round(wavelength * dutyCycle / 100.0)]
  }

  // ---------------------------------------------------------------------
  // sqr4_pulse

  datatype Edges = Edges(rise: int, fall: int, wraps: bool)

  /** The two edge positions of one output of sqr4_pulse; a phase of 0 counts
      as 1, and a pulse running past the period wraps around. */
  function PulseEdges(wavelength: int, h: real, p: real): (e: Edges)
  {
    EdgesAt(wavelength, h, if p == 0.0 then 1.0 else p)
  }

  /** The edges for a phase already made nonzero. */
  function EdgesAt(wavelength: int, h: real, p: real): (e: Edges)
    ensures e.wraps <==> h + p > 1.0
  {
    if h + p > 1.0 then Edges(Edge(Frac(h + p), wavelength), Edge(p, wavelength), true)
    else Edges(Edge(p, wavelength), Edge(h + p, wavelength), false)
  }

  /** int(f * wavelength): the tick at fraction f of the period. */
  function Edge(f: real, wavelength: int): int
  {
    Trunc(f * wavelength as real)
  }

  lemma TruncMonotone(x: real, y: real)
    requires 0.0 <= x <= y
    ensures 0 <= Trunc(x) <= Trunc(y)
  {
  }

  lemma ScaleMonotone(a: real, b: real, w: real)
    requires a <= b && 0.0 <= w
    ensures a * w <= b * w
  {
    assert (b - a) * w >= 0.0;
  }

  /** When h + p passes 1 (and stays at most 2) its fractional part is at
      most p. */
  lemma FracOfWrap(h: real, p: real)
    requires 0.0 <= h <= 1.0 && 0.0 <= p <= 1.0 && h + p > 1.0
    ensures Frac(h + p) <= p
  {
    if h + p < 2.0 {
      assert (h + p).Floor == 1;
    } else {
      assert (h + p).Floor == 2;
    }
  }

  /** Two fractions of a whole period, truncated, stay in order and within it. */
  lemma ScaledTrunc(x: real, y: real, wavelength: int)
    requires 0.0 <= x <= y <= 1.0 && wavelength >= 0
    ensures 0 <= Edge(x, wavelength) <= Edge(y, wavelength) <= wavelength
  {
    EdgeMonotone(x, y, wavelength);
    EdgeMonotone(y, 1.0, wavelength);
    EdgeOfWhole(wavelength);
  }

  /** A later fraction of the period never gives an earlier tick. */
  lemma EdgeMonotone(x: real, y: real, wavelength: int)
    requires 0.0 <= x <= y && wavelength >= 0
    ensures 0 <= Edge(x, wavelength) <= Edge(y, wavelength)
  {
    var w := wavelength as real;
    ScaleMonotone(0.0, x, w);
    ScaleMonotone(x, y, w);
    TruncMonotone(x * w, y * w);
  }

  /** The whole period is its last tick. */
  lemma EdgeOfWhole(wavelength: int)
    ensures Edge(1.0, wavelength) == wavelength
  {
    assert 1.0 * wavelength as real == wavelength as real;
    TruncWhole(wavelength);
  }

  lemma TruncWhole(n: int)
    ensures Trunc(n as real) == n
  {
  }

  /** A pulse running past the end of the period: it rises at the
      fractional part of h + p and falls at p. */
  lemma WrappedEdges(wavelength: int, h: real, p: real)
    requires wavelength >= 0 && 0.0 <= h <= 1.0 && 0.0 <= p <= 1.0 && h + p > 1.0
    ensures 0 <= Edge(Frac(h + p), wavelength) <= Edge(p, wavelength) <= wavelength
  {
    FracOfWrap(h, p);
    ScaledTrunc(Frac(h + p), p, wavelength);
  }

  /** For duty and phase in [0, 1] both edges lie within the period, and
      the first never comes after the second; a phase of 0 counts as 1. */
  lemma {:induction false} PulseEdgesInPeriod(wavelength: int, h: real, p: real)
    requires wavelength >= 0 && 0.0 <= h <= 1.0 && 0.0 <= p <= 1.0
    ensures var e := PulseEdges(wavelength, h, p);
      0 <= e.rise <= e.fall <= wavelength && (e.wraps <==> h + (if p == 0.0 then 1.0 else p) > 1.0)
  {
    var p' := if p == 0.0 then 1.0 else p;
    EdgesAtInPeriod(wavelength, h, p');
  }

  lemma EdgesAtInPeriod(wavelength: int, h: real, p: real)
    requires wavelength >= 0 && 0.0 <= h <= 1.0 && 0.0 <= p <= 1.0
    ensures var e := EdgesAt(wavelength, h, p);
      0 <= e.rise <= e.fall <= wavelength
  {
    if h + p > 1.0 {
      WrappedEdges(wavelength, h, p);
    } else {
      ScaledTrunc(p, h + p, wavelength);
    }
  }

  /** The eight words of sqr4_pulse: the period, SQR1's high time and the
      rise and fall edges of SQR2, OD1 and OD2. */
  function PulseWords(w: int, h0: real, e1: Edges, e2: Edges, e3: Edges): (r: seq<int>)
    ensures |r| == 8 && r[0] == w
  {
    [w, Trunc(w as real * h0), e1.rise, e1.fall, e2.rise, e2.fall, e3.rise, e3.fall]
  }

  /** The wrap byte of sqr4_pulse: bit 2, 3, 4 for SQR2, OD1, OD2. */
  function WrapBits(w1: bool, w2: bool, w3: bool): (r: nat)
    ensures r < 32
    ensures Bit(r, 2) == 1 <==> w1
    ensures Bit(r, 3) == 1 <==> w2
    ensures Bit(r, 4) == 1 <==> w3
  {
    (if w1 then 4 else 0) + (if w2 then 8 else 0) + (if w3 then 16 else 0)
  }

  // ---------------------------------------------------------------------
  // sqr4_continuous

  datatype Timing = Timing(wavelength: int, params: int)

  /** The wavelength and prescaler code: the 64 MHz count, divided by 8, 64
      or 256 once it passes 0xFFFF, 0x7FFF8 or 0x3FFFC0; bit 5 marks the
      continuous mode.  Above 0xFFFF00 the frequency is too low. */
  function ContinuousTiming(freq: real): (r: Option<Timing>)
    requires freq != 0.0
    ensures r.Some? ==> 32 <= r.value.params <= 35
    ensures r.None? <==> Trunc(64000000.0 / freq) > 0xFF_FF00
  {
    var w := Trunc(64000000.0 / freq);
    if w > 0xFF_FF00 then None
    else if w > 0x3F_FFC0 then Some(Timing(Trunc(64000000.0 / freq / 256.0), 3 + 32))
    else if w > 0x7_FFF8 then Some(Timing(Trunc(64000000.0 / freq / 64.0), 2 + 32))
    else if w > 0xFFFF then Some(Timing(Trunc(64000000.0 / freq / 8.0), 1 + 32))
    else Some(Timing(w, 32))
  }

  /** For a positive frequency the chosen wavelength always fits 16 bits and
      the code is one of 32..35. */
  lemma {:induction false} ContinuousFits(freq: real)
    requires freq > 0.0
    ensures var r := ContinuousTiming(freq);
      r.Some? ==> 0 <= r.value.wavelength <= 0xFFFF && 32 <= r.value.params <= 35
  {
    var x := 64000000.0 / freq;
    var w := Trunc(x);
    assert w as real <= x < w as real + 1.0;
    if w <= 0xFF_FF00 && w > 0x3F_FFC0 {
      assert x / 256.0 < 65536.0;
    } else if w <= 0x3F_FFC0 && w > 0x7_FFF8 {
      assert x / 64.0 < 65536.0;
    } else if w <= 0x7_FFF8 && w > 0xFFFF {
      assert x / 8.0 < 65536.0;
    }
  }

  /** The continuous edges: int(p%1 * wavelength) and int((h+p)%1 * wavelength). */
  function ContinuousEdges(wavelength: int, h: real, p: real): (int, int)
  {
    (Edge(Frac(p), wavelength), Edge(Frac(h + p), wavelength))
  }

  /** The eight words of sqr4_continuous: the wavelength, SQR1's high time
      and the two edges of SQR2, OD1 and OD2. */
  function ContinuousWords(w: int, h0: real, p1: real, h1: real, p2: real, h2: real, p3: real, h3: real)
    : (r: seq<int>)
    ensures |r| == 8 && r[0] == w
  {
    var e1, e2, e3 := ContinuousEdges(w, h1, p1), ContinuousEdges(w, h2, p2), ContinuousEdges(w, h3, p3);
    [w, Trunc(w as real * h0), e1.0, e1.1, e2.0, e2.1, e3.0, e3.1]
  }

  /** Both continuous edges lie within the period. */
  lemma {:induction false} ContinuousEdgesInPeriod(wavelength: int, h: real, p: real)
    requires wavelength >= 0
    ensures var e := ContinuousEdges(wavelength, h, p);
      0 <= e.0 <= wavelength && 0 <= e.1 <= wavelength
  {
    var x, y := Frac(p), Frac(h + p);
    EdgeInPeriod(x, wavelength);
    EdgeInPeriod(y, wavelength);
  }

  lemma EdgeInPeriod(f: real, wavelength: int)
    requires 0.0 <= f <= 1.0 && wavelength >= 0
    ensures 0 <= Edge(f, wavelength) <= wavelength
  {
    ScaledTrunc(f, f, wavelength);
  }

  // ---------------------------------------------------------------------
  // map_reference_clock

  /** The output mask: sqr1, sqr2, od1, od2, wavegen as bits 0..4. */
  function ReferenceOutputs(args: seq<string>): (r: nat)
    ensures r < 32
  {
    (if "sqr1" in args then 1 else 0) + (if "sqr2" in args then 2 else 0) +
    (if "od1" in args then 4 else 0) + (if "od2" in args then 8 else 0) +
    (if "wavegen" in args then 16 else 0)
  }

  /** Each output named in args has its own bit. */
  lemma ReferenceOutputsBits(args: seq<string>)
    ensures var r := ReferenceOutputs(args);
      (Bit(r, 0) == 1 <==> "sqr1" in args) && (Bit(r, 1) == 1 <==> "sqr2" in args) &&
      (Bit(r, 2) == 1 <==> "od1" in args) && (Bit(r, 3) == 1 <==> "od2" in args) &&
      (Bit(r, 4) == 1 <==> "wavegen" in args)
  {
    assert Pow2(0) == 1 && Pow2(1) == 2 && Pow2(2) == 4 && Pow2(3) == 8 && Pow2(4) == 16;
  }

  /** 128e6 / (1 << scaler): the reference frequency in Hz. */
  function ReferenceClock(scaler: nat): (r: real)
    ensures r > 0.0
  {
    128000000.0 / Pow2(scaler) as real
  }

  // ---------------------------------------------------------------------
  // set_state

  /** Four bits packed low first. */
  function Nibble(b0: bit, b1: bit, b2: bit, b3: bit): (r: nat)
    ensures r < 16
  {
    b0 + 2 * (b1 + 2 * (b2 + 2 * b3))
  }

  lemma NibbleBits(b0: bit, b1: bit, b2: bit, b3: bit)
    ensures var r := Nibble(b0, b1, b2, b3);
      Bit(r, 0) == b0 && Bit(r, 1) == b1 && Bit(r, 2) == b2 && Bit(r, 3) == b3
  {
    assert Pow2(0) == 1 && Pow2(1) == 2 && Pow2(2) == 4 && Pow2(3) == 8;
  }

  /** One keyword argument of set_state: the output left alone, or driven
      to a level. */
  datatype Drive = Untouched | Drive(level: bit) {
    function Level(): bit
    {
      if Drive? then level else 0
    }

    function Enabled(): bit
    {
      if Drive? then 1 else 0
    }
  }

  /** The output byte: for each output given, an enable bit (SQR1 4, SQR2 5,
      OD1 6, OD2 7) and its level (SQR1 0, SQR2 1, OD1 2, OD2 3); the parts
      never overlap, so or-ing them is adding them. */
  function StateByte(od1: Drive, od2: Drive, sqr1: Drive, sqr2: Drive): (r: nat)
    ensures r < 256
  {
    Nibble(sqr1.Level(), sqr2.Level(), od1.Level(), od2.Level()) +
    16 * Nibble(sqr1.Enabled(), sqr2.Enabled(), od1.Enabled(), od2.Enabled())
  }

  lemma NibbleSplit(lo: nat, hi: nat)
    requires lo < 16
    ensures (lo + 16 * hi) % 16 == lo && (lo + 16 * hi) / 16 == hi
  {
  }

  /** The low nibble of the byte holds the levels (SQR1, SQR2, OD1, OD2 as
      bits 0-3, an output left alone reading as 0), the high nibble marks in
      the same order the outputs that are driven. */
  lemma {:induction false} StateByteNibbles(od1: Drive, od2: Drive, sqr1: Drive, sqr2: Drive)
    ensures StateByte(od1, od2, sqr1, sqr2) % 16 == Nibble(sqr1.Level(), sqr2.Level(), od1.Level(), od2.Level())
    ensures StateByte(od1, od2, sqr1, sqr2) / 16 == Nibble(sqr1.Enabled(), sqr2.Enabled(), od1.Enabled(), od2.Enabled())
  {
    NibbleSplit(Nibble(sqr1.Level(), sqr2.Level(), od1.Level(), od2.Level()),
                Nibble(sqr1.Enabled(), sqr2.Enabled(), od1.Enabled(), od2.Enabled()));
  }

  /** Bit by bit: level k and enable k of each output. */
  lemma {:induction false} StateByteFields(od1: Drive, od2: Drive, sqr1: Drive, sqr2: Drive)
    ensures var r := StateByte(od1, od2, sqr1, sqr2);
      Bit(r % 16, 0) == sqr1.Level() && Bit(r % 16, 1) == sqr2.Level() &&
      Bit(r % 16, 2) == od1.Level() && Bit(r % 16, 3) == od2.Level() &&
      (Bit(r / 16, 0) == 1 <==> sqr1.Drive?) && (Bit(r / 16, 1) == 1 <==> sqr2.Drive?) &&
      (Bit(r / 16, 2) == 1 <==> od1.Drive?) && (Bit(r / 16, 3) == 1 <==> od2.Drive?)
  {
    StateByteNibbles(od1, od2, sqr1, sqr2);
    NibbleBits(sqr1.Level(), sqr2.Level(), od1.Level(), od2.Level());
    NibbleBits(sqr1.Enabled(), sqr2.Enabled(), od1.Enabled(), od2.Enabled());
  }

  // ---------------------------------------------------------------------
  // __calcDChan__ and MeasureInterval

  /** Position among ID1, ID2, ID3, ID4, LMETER, CH4; anything else is ID1. */
  function DigitalChannel(name: string): (r: nat)
    ensures r < 6
    ensures r != 0 ==> name in {"ID2", "ID3", "ID4", "LMETER", "CH4"}
  {
    if name == "ID1" then 0 else if name == "ID2" then 1 else if name == "ID3" then 2
    else if name == "ID4" then 3 else if name == "LMETER" then 4 else if name == "CH4" then 5
    else 0
  }

  /** The capture mode number of an edge name: rising 3, falling 2, any other
      (four rising edges) 4. */
  function EdgeCode(edge: string): (r: nat)
    ensures 2 <= r <= 4
  {
    if edge == "rising" then 3 else if edge == "falling" then 2 else 4
  }

  /** The params byte: edge1's code in bits 0-2, edge2's in bits 3-5. */
  function IntervalParams(edge1: string, edge2: string): (r: nat)
    ensures r < 64 && r % 8 == EdgeCode(edge1) && r / 8 == EdgeCode(edge2)
  {
    EdgeCode(edge1) + 8 * EdgeCode(edge2)
  }

  /** The channel byte: channel1 in the low nibble, channel2 in the high one. */
  function IntervalChannels(channel1: string, channel2: string): (r: nat)
    ensures r < 256 && r % 16 == DigitalChannel(channel1) && r / 16 == DigitalChannel(channel2)
  {
    DigitalChannel(channel1) + 16 * DigitalChannel(channel2)
  }

  /** int(timeout * 64e6) >> 16 */
  function TimeoutMsb(timeout: real): int
  {
    Trunc(timeout * 64000000.0) / 65536
  }

  /** MeasureInterval's answer from the two timestamps and the timeout
      counter: -1 once the counter reached the timeout or no second edge
      came, otherwise B - A + 20 ticks of the 64 MHz clock, in seconds. */
  function IntervalTime(a: int, b: int, tmt: int, timeoutMsb: int): (r: real)
    ensures tmt >= timeoutMsb || b == 0 ==> r == -1.0
    ensures tmt < timeoutMsb && b != 0 ==> r * 64000000.0 == (b - a + 20) as real
  {
    if tmt >= timeoutMsb || b == 0 then -1.0 else (b - a + 20) as real / 64000000.0
  }

  // ---------------------------------------------------------------------
  // logic analyzer command bytes

  /** The trigger byte of start_one_channel_LA. With trigger_channels given
      and bit 0 of trigger set, bits 4-6 mark ID1-ID3 among them; otherwise
      bit (channel+4) marks the acquired channel.  Bit 1 is the rising edge
      and the channel number is or-ed in from bit 2. */
  function OneChannelTrigger(trigger: nat, trigChannels: Option<seq<string>>, rising: bool, dchan: nat): nat
  {
    var t1 := if trigChannels.Some? && Bit(trigger, 0) == 1 then
      Or(Or(Or(trigger, Flag("ID1" in trigChannels.value, 4)), Flag("ID2" in trigChannels.value, 5)),
         Flag("ID3" in trigChannels.value, 6))
    else Or(trigger, Pow2(dchan + 4));
    Or(Or(t1, Flag(rising, 1)), dchan * 4)
  }

  /** Whether trigger_channels decides the trigger inputs. */
  predicate ExplicitInputs(trigger: nat, trigChannels: Option<seq<string>>)
  {
    trigChannels.Some? && Bit(trigger, 0) == 1
  }

  /** The byte before the rising flag and the channel number are or-ed in. */
  function TriggerInputs(trigger: nat, trigChannels: Option<seq<string>>, dchan: nat): nat
  {
    if ExplicitInputs(trigger, trigChannels) then
      Or(Or(Or(trigger, Flag("ID1" in trigChannels.value, 4)), Flag("ID2" in trigChannels.value, 5)),
         Flag("ID3" in trigChannels.value, 6))
    else Or(trigger, Pow2(dchan + 4))
  }

  lemma OneChannelTriggerSplit(trigger: nat, trigChannels: Option<seq<string>>, rising: bool, dchan: nat)
    ensures OneChannelTrigger(trigger, trigChannels, rising, dchan) ==
            Or(Or(TriggerInputs(trigger, trigChannels, dchan), Flag(rising, 1)), dchan * 4)
  {
  }

  /** The channel number, shifted to bit 2, leaves bits 0 and 1 alone. */
  lemma ChannelFieldLow(dchan: nat, i: nat)
    requires i < 2
    ensures Bit(dchan * 4, i) == 0
  {
    assert Pow2(2) == 4;
    BitBelowShift(dchan, 2, i);
  }

  /** Bit 0 of the one-channel trigger byte is the caller's trigger flag. */
  lemma OneChannelTriggerFlag(trigger: nat, trigChannels: Option<seq<string>>, rising: bool, dchan: nat)
    ensures Bit(OneChannelTrigger(trigger, trigChannels, rising, dchan), 0) == Bit(trigger, 0)
  {
    var t1 := TriggerInputs(trigger, trigChannels, dchan);
    if ExplicitInputs(trigger, trigChannels) {
      var s := trigChannels.value;
      var a1 := Or(trigger, Flag("ID1" in s, 4));
      var a2 := Or(a1, Flag("ID2" in s, 5));
      FlagBit("ID1" in s, 4, 0);
      FlagBit("ID2" in s, 5, 0);
      FlagBit("ID3" in s, 6, 0);
      OrKeeps(trigger, Flag("ID1" in s, 4), 0);
      OrKeeps(a1, Flag("ID2" in s, 5), 0);
      OrKeeps(a2, Flag("ID3" in s, 6), 0);
    } else {
      BitOfPow(dchan + 4, 0);
      OrKeeps(trigger, Pow2(dchan + 4), 0);
    }
    FlagBit(rising, 1, 0);
    OrKeeps(t1, Flag(rising, 1), 0);
    ChannelFieldLow(dchan, 0);
    OrKeeps(Or(t1, Flag(rising, 1)), dchan * 4, 0);
    OneChannelTriggerSplit(trigger, trigChannels, rising, dchan);
  }

  /** A rising edge sets bit 1. */
  lemma OneChannelTriggerRising(trigger: nat, trigChannels: Option<seq<string>>, rising: bool, dchan: nat)
    requires rising
    ensures Bit(OneChannelTrigger(trigger, trigChannels, rising, dchan), 1) == 1
  {
    var t1 := TriggerInputs(trigger, trigChannels, dchan);
    FlagBit(rising, 1, 1);
    OrSetsRight(t1, Flag(rising, 1), 1);
    OrSetsLeft(Or(t1, Flag(rising, 1)), dchan * 4, 1);
    OneChannelTriggerSplit(trigger, trigChannels, rising, dchan);
  }

  /** A set bit of the inputs part survives the rest of the byte. */
  lemma OneChannelTriggerKeeps(trigger: nat, trigChannels: Option<seq<string>>, rising: bool, dchan: nat, i: nat)
    requires Bit(TriggerInputs(trigger, trigChannels, dchan), i) == 1
    ensures Bit(OneChannelTrigger(trigger, trigChannels, rising, dchan), i) == 1
  {
    var t1 := TriggerInputs(trigger, trigChannels, dchan);
    OrSetsLeft(t1, Flag(rising, 1), i);
    OrSetsLeft(Or(t1, Flag(rising, 1)), dchan * 4, i);
    OneChannelTriggerSplit(trigger, trigChannels, rising, dchan);
  }

  /** Without trigger_channels (or with the flag clear) the acquired
      channel's own bit, channel + 4, is set. */
  lemma OneChannelTriggerOwnInput(trigger: nat, trigChannels: Option<seq<string>>, rising: bool, dchan: nat)
    requires !ExplicitInputs(trigger, trigChannels)
    ensures Bit(OneChannelTrigger(trigger, trigChannels, rising, dchan), dchan + 4) == 1
  {
    BitOfPow(dchan + 4, dchan + 4);
    OrSetsRight(trigger, Pow2(dchan + 4), dchan + 4);
    OneChannelTriggerKeeps(trigger, trigChannels, rising, dchan, dchan + 4);
  }

  /** With trigger_channels and the flag set, each of ID1-ID3 named there
      sets its bit among 4-6. */
  lemma OneChannelTriggerNamed(trigger: nat, trigChannels: Option<seq<string>>, rising: bool, dchan: nat,
                               name: string, k: nat)
    requires ExplicitInputs(trigger, trigChannels)
    requires (name, k) in {("ID1", 4), ("ID2", 5), ("ID3", 6)} && name in trigChannels.value
    ensures Bit(OneChannelTrigger(trigger, trigChannels, rising, dchan), k) == 1
  {
    var s := trigChannels.value;
    var f1, f2, f3 := Flag("ID1" in s, 4), Flag("ID2" in s, 5), Flag("ID3" in s, 6);
    var a1 := Or(trigger, f1);
    var a2 := Or(a1, f2);
    if k == 4 {
      FlagBit(true, 4, 4);
      OrSetsRight(trigger, f1, 4);
      OrSetsLeft(a1, f2, 4);
      OrSetsLeft(a2, f3, 4);
    } else if k == 5 {
      FlagBit(true, 5, 5);
      OrSetsRight(a1, f2, 5);
      OrSetsLeft(a2, f3, 5);
    } else {
      FlagBit(true, 6, 6);
      OrSetsRight(a2, f3, 6);
    }
    OneChannelTriggerKeeps(trigger, trigChannels, rising, dchan, k);
  }

  /** Bit 0 is the caller's trigger flag, bit 1 the rising edge, and the
      trigger inputs chosen: ID1-ID3 at bits 4-6 when trigger_channels is
      given with the flag set, otherwise the acquired channel's own bit. */
  lemma {:induction false} OneChannelTriggerBits(trigger: nat, trigChannels: Option<seq<string>>,
                                                 rising: bool, dchan: nat)
    ensures var r := OneChannelTrigger(trigger, trigChannels, rising, dchan);
      (Bit(r, 0) == Bit(trigger, 0)) && (rising ==> Bit(r, 1) == 1) &&
      ((trigChannels.None? || Bit(trigger, 0) == 0) ==> Bit(r, dchan + 4) == 1) &&
      (trigChannels.Some? && Bit(trigger, 0) == 1 ==>
        ("ID1" in trigChannels.value ==> Bit(r, 4) == 1) &&
        ("ID2" in trigChannels.value ==> Bit(r, 5) == 1) &&
        ("ID3" in trigChannels.value ==> Bit(r, 6) == 1))
  {
    OneChannelTriggerFlag(trigger, trigChannels, rising, dchan);
    if rising {
      OneChannelTriggerRising(trigger, trigChannels, rising, dchan);
    }
    if !ExplicitInputs(trigger, trigChannels) {
      OneChannelTriggerOwnInput(trigger, trigChannels, rising, dchan);
    } else {
      var s := trigChannels.value;
      if "ID1" in s {
        OneChannelTriggerNamed(trigger, trigChannels, rising, dchan, "ID1", 4);
      }
      if "ID2" in s {
        OneChannelTriggerNamed(trigger, trigChannels, rising, dchan, "ID2", 5);
      }
      if "ID3" in s {
        OneChannelTriggerNamed(trigger, trigChannels, rising, dchan, "ID3", 6);
      }
    }
  }

  /** For ID1-ID4 and a plain on/off trigger the byte fits, so it can be sent. */
  lemma {:induction false} OneChannelTriggerFits(trigger: nat, trigChannels: Option<seq<string>>,
                                                 rising: bool, dchan: nat)
    requires trigger < 2 && dchan < 4
    ensures OneChannelTrigger(trigger, trigChannels, rising, dchan) < 256
  {
    assert Pow2(8) == 256;
    var t1 := TriggerInputs(trigger, trigChannels, dchan);
    assert t1 < 256 by {
      if ExplicitInputs(trigger, trigChannels) {
        var s := trigChannels.value;
        var f1, f2, f3 := Flag("ID1" in s, 4), Flag("ID2" in s, 5), Flag("ID3" in s, 6);
        FlagBound("ID1" in s, 4, 8);
        FlagBound("ID2" in s, 5, 8);
        FlagBound("ID3" in s, 6, 8);
        OrBound(trigger, f1, 8);
        OrBound(Or(trigger, f1), f2, 8);
        OrBound(Or(Or(trigger, f1), f2), f3, 8);
      } else {
        PowMonotone(dchan + 5, 8);
        OrBound(trigger, Pow2(dchan + 4), 8);
      }
    }
    FlagBound(rising, 1, 8);
    OrBound(t1, Flag(rising, 1), 8);
    OrBound(Or(t1, Flag(rising, 1)), dchan * 4, 8);
    OneChannelTriggerSplit(trigger, trigChannels, rising, dchan);
  }

  /** For LMETER and CH4 (numbers 4 and 5) without explicit trigger inputs,
      the channel's bit lands at bit 8 or 9: the byte cannot be sent. */
  lemma {:induction false} OneChannelTriggerOverflows(trigger: nat, rising: bool, dchan: nat)
    requires dchan >= 4
    ensures OneChannelTrigger(trigger, None, rising, dchan) >= 256
  {
    OneChannelTriggerOwnInput(trigger, None, rising, dchan);
    BitSetAtLeast(OneChannelTrigger(trigger, None, rising, dchan), dchan + 4);
    PowMonotone(8, dchan + 4);
    assert Pow2(8) == 256;
  }

  /** The mode word of start_four_channel_LA: mode[k] at bit 4k. */
  function ModeWord(mode: seq<nat>): nat
    requires |mode| >= 4
  {
    Or(Or(Or(mode[0], mode[1] * 16), mode[2] * 256), mode[3] * 4096)
  }

  /** Modes below 16 occupy one nibble each, so each can be read back. */
  lemma {:induction false} ModeWordNibbles(mode: seq<nat>)
    requires |mode| >= 4 && forall k :: 0 <= k < 4 ==> mode[k] < 16
    ensures ModeWord(mode) == mode[0] + 16 * mode[1] + 256 * mode[2] + 4096 * mode[3]
    ensures ModeWord(mode) < 65536
    ensures ModeWord(mode) % 16 == mode[0] && ModeWord(mode) / 16 % 16 == mode[1]
    ensures ModeWord(mode) / 256 % 16 == mode[2] && ModeWord(mode) / 4096 == mode[3]
  {
    var a, b, c, d := mode[0], mode[1], mode[2], mode[3];
    assert a < 16 && b < 16 && c < 16 && d < 16;
    NibbleWordIsSum(a, b, c, d);
    NibbleWordDigits(a, b, c, d);
  }

  /** Or-ing four nibbles at bits 0, 4, 8, 12 is their positional sum. */
  lemma NibbleWordIsSum(a: nat, b: nat, c: nat, d: nat)
    requires a < 16 && b < 16 && c < 16
    ensures Or(Or(Or(a, b * 16), c * 256), d * 4096) == a + 16 * b + 256 * c + 4096 * d
  {
    NibblePowers();
    OrShift(a, b, 4, 16);
    var x1 := a + b * 16;
    OrShift(x1, c, 8, 256);
    var x2 := x1 + c * 256;
    OrShift(x2, d, 12, 4096);
  }

  lemma NibblePowers()
    ensures Pow2(4) == 16 && Pow2(8) == 256 && Pow2(12) == 4096
  {
    Pow2Add(4, 4);
    Pow2Add(8, 4);
  }

  /** OrDisjoint with the power of two written out as m. */
  lemma OrShift(a: nat, b: nat, k: nat, m: nat)
    requires m == Pow2(k) && a < m
    ensures Or(a, b * m) == a + b * m
  {
    OrDisjoint(a, b, k);
  }

  /** Each nibble of a + 16b + 256c + 4096d reads back. */
  lemma NibbleWordDigits(a: nat, b: nat, c: nat, d: nat)
    requires a < 16 && b < 16 && c < 16 && d < 16
    ensures var w := a + 16 * b + 256 * c + 4096 * d;
      w < 65536 && w % 16 == a && w / 16 % 16 == b && w / 256 % 16 == c && w / 4096 == d
  {
    var w := a + 16 * b + 256 * c + 4096 * d;
    var hi := b + 16 * c + 256 * d;
    assert w == 16 * hi + a;
    DivUnique(w, 16, hi, a);
    DivUnique(hi, 16, c + 16 * d, b);
    var lo := a + 16 * b;
    assert w == 256 * (c + 16 * d) + lo;
    DivUnique(w, 256, c + 16 * d, lo);
    DivUnique(c + 16 * d, 16, d, c);
    assert w == 4096 * d + (lo + 256 * c);
    DivUnique(w, 4096, d, lo + 256 * c);
  }

  /** The trigger options of start_four_channel_LA: ID1-ID3 at bits 2-4. */
  function FourChannelOptions(tID1: bool, tID2: bool, tID3: bool): nat
  {
    Or(Or(Flag(tID1, 2), Flag(tID2, 3)), Flag(tID3, 4))
  }

  /** The trigger byte of start_four_channel_LA: the options (ID1 when none
      is chosen) and bit 1 for a rising edge, or-ed into trigger. */
  function FourChannelTrigger(trigger: nat, tID1: bool, tID2: bool, tID3: bool, rising: bool): nat
  {
    var opts := FourChannelOptions(tID1, tID2, tID3);
    var t := if opts == 0 then Or(trigger, 4) else trigger;
    Or(t, Or(opts, Flag(rising, 1)))
  }

  /** Bit i of the options is set exactly for the chosen inputs. */
  lemma FourChannelOptionsBit(tID1: bool, tID2: bool, tID3: bool, i: nat)
    ensures Bit(FourChannelOptions(tID1, tID2, tID3), i) ==
            (if (i == 2 && tID1) || (i == 3 && tID2) || (i == 4 && tID3) then 1 else 0)
  {
    FlagBit(tID1, 2, i);
    FlagBit(tID2, 3, i);
    FlagBit(tID3, 4, i);
    OrBit(Flag(tID1, 2), Flag(tID2, 3), i);
    OrBit(Or(Flag(tID1, 2), Flag(tID2, 3)), Flag(tID3, 4), i);
  }

  /** With no input chosen the options are 0, so ID1 is selected. */
  lemma FourChannelOptionsNone()
    ensures FourChannelOptions(false, false, false) == 0
  {
    assert Flag(false, 2) == 0 && Flag(false, 3) == 0 && Flag(false, 4) == 0;
  }

  /** Bit i of the four-channel byte: set in the (possibly widened) trigger
      or in the options and rising flag. */
  lemma FourChannelTriggerBit(trigger: nat, tID1: bool, tID2: bool, tID3: bool, rising: bool, i: nat)
    ensures var opts := FourChannelOptions(tID1, tID2, tID3);
      var t := if opts == 0 then Or(trigger, 4) else trigger;
      Bit(FourChannelTrigger(trigger, tID1, tID2, tID3, rising), i) ==
      Max(Bit(t, i), Max(Bit(opts, i), Bit(Flag(rising, 1), i)))
  {
    var opts := FourChannelOptions(tID1, tID2, tID3);
    var t := if opts == 0 then Or(trigger, 4) else trigger;
    OrBit(opts, Flag(rising, 1), i);
    OrBit(t, Or(opts, Flag(rising, 1)), i);
  }

  /** Bit 2 selects ID1 when no input is chosen; the chosen inputs set bits
      2-4, a rising edge bit 1, and the caller's flag stays in bit 0. */
  lemma {:induction false} FourChannelTriggerBits(trigger: nat, tID1: bool, tID2: bool, tID3: bool, rising: bool)
    ensures var r := FourChannelTrigger(trigger, tID1, tID2, tID3, rising);
      Bit(r, 0) == Bit(trigger, 0) && (rising ==> Bit(r, 1) == 1) &&
      ((tID1 || !(tID2 || tID3)) ==> Bit(r, 2) == 1) &&
      (tID2 ==> Bit(r, 3) == 1) && (tID3 ==> Bit(r, 4) == 1)
  {
    var opts := FourChannelOptions(tID1, tID2, tID3);
    if opts == 0 {
      assert Pow2(2) == 4;
      BitOfPow(2, 0);
      BitOfPow(2, 2);
      OrBit(trigger, 4, 0);
      OrBit(trigger, 4, 2);
    }
    if !(tID1 || tID2 || tID3) {
      FourChannelOptionsNone();
    }
    FourChannelOptionsBit(tID1, tID2, tID3, 0);
    FourChannelOptionsBit(tID1, tID2, tID3, 1);
    FourChannelOptionsBit(tID1, tID2, tID3, 2);
    FourChannelOptionsBit(tID1, tID2, tID3, 3);
    FourChannelOptionsBit(tID1, tID2, tID3, 4);
    FlagBit(rising, 1, 0);
    FlagBit(rising, 1, 1);
    FlagBit(rising, 1, 2);
    FlagBit(rising, 1, 3);
    FlagBit(rising, 1, 4);
    FourChannelTriggerBit(trigger, tID1, tID2, tID3, rising, 0);
    FourChannelTriggerBit(trigger, tID1, tID2, tID3, rising, 1);
    FourChannelTriggerBit(trigger, tID1, tID2, tID3, rising, 2);
    FourChannelTriggerBit(trigger, tID1, tID2, tID3, rising, 3);
    FourChannelTriggerBit(trigger, tID1, tID2, tID3, rising, 4);
  }

  /** For a plain on/off trigger the byte fits in five bits. */
  lemma {:induction false} FourChannelTriggerFits(trigger: nat, tID1: bool, tID2: bool, tID3: bool, rising: bool)
    requires trigger < 2
    ensures FourChannelTrigger(trigger, tID1, tID2, tID3, rising) < 32
  {
    assert Pow2(5) == 32;
    var opts := FourChannelOptions(tID1, tID2, tID3);
    FlagBound(tID1, 2, 5);
    FlagBound(tID2, 3, 5);
    FlagBound(tID3, 4, 5);
    FlagBound(rising, 1, 5);
    OrBound(Flag(tID1, 2), Flag(tID2, 3), 5);
    OrBound(Or(Flag(tID1, 2), Flag(tID2, 3)), Flag(tID3, 4), 5);
    OrBound(trigger, 4, 5);
    OrBound(opts, Flag(rising, 1), 5);
    var t := if opts == 0 then Or(trigger, 4) else trigger;
    OrBound(t, Or(opts, Flag(rising, 1)), 5);
  }

  // ---------------------------------------------------------------------
  // write_dac and write_flash

  /** The DAC word write_dac assembles: channel at bit 15, buffer, gain and
      on bits at 14-12, the value below (never reached, see WriteDac). */
  function DacWord(channel: nat, n: nat): nat
  {
    Or(Or(Or(Or(channel * 32768, 16384), 8192), 4096), n)
  }

  /** For a 12-bit value the word is the value with bits 12-14 set and the
      channel from bit 15 on. */
  lemma {:induction false} DacWordLayout(channel: nat, n: nat)
    requires n < 4096
    ensures DacWord(channel, n) == 32768 * channel + 28672 + n
  {
    assert Pow2(12) == 4096 && Pow2(13) == 8192 && Pow2(14) == 16384 && Pow2(15) == 32768;
    OrComm(channel * 32768, 16384);
    OrDisjoint(16384, channel, 15);
    var x1 := Or(channel * 32768, 16384);
    assert x1 == (2 * channel + 1) * 16384;
    OrComm(x1, 8192);
    OrDisjoint(8192, 2 * channel + 1, 14);
    var x2 := Or(x1, 8192);
    assert x2 == (4 * channel + 3) * 8192;
    OrComm(x2, 4096);
    OrDisjoint(4096, 4 * channel + 3, 13);
    var x3 := Or(x2, 4096);
    assert x3 == (8 * channel + 7) * 4096;
    OrComm(x3, n);
    OrDisjoint(n, 8 * channel + 7, 12);
  }

  const DOT: byte := 46

  /** A flash record: the string, then '.' up to 16 bytes; a longer string
      is kept whole. */
  function Padded(s: seq<byte>): (r: seq<byte>)
    ensures |r| == Max(16, |s|)
    ensures r[..|s|] == s
    ensures forall i :: |s| <= i < |r| ==> r[i] == DOT
  {
    s + seq(Max(16, |s|) - |s|, _ => DOT)
  }

  /** write_flash's padding loop: '.' appended until the string is 16 long. */
  method PadFlash(s: seq<byte>) returns (r: seq<byte>)
    ensures r == Padded(s)
  {
    r := s;
    while |r| < 16
      invariant |s| <= |r| <= Max(16, |s|)
      invariant r[..|s|] == s
      invariant forall i :: |s| <= i < |r| ==> r[i] == DOT
      decreases 16 - |r|
    {
      r := r + [DOT];
    }
    assert r == Padded(s);
  }
}
