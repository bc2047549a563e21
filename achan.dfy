/** One analog input of the oscilloscope: its calibration polynomials, gain
    and resolution settings, and the time and voltage axes of its last trace. */
module AnalogChannels {
  import opened Numeric
  import opened Outcomes

  const TEN_BIT := 10
  const TWELVE_BIT := 12

  /** Slots of the preallocated time and voltage axes. */
  const AXIS_SLOTS := 4000

  /** The programmable gain amplifier's gain for each gain index. */
  const GAINS: seq<int> := [1, 2, 4, 5, 8, 10, 16, 32]

  const CHANNEL_NAMES: seq<string> :=
    ["CH1", "CH2", "CH3", "CH4", "CH5", "CH6", "CH7", "CH8", "CH9", "5V", "PCS", "9V", "IN1", "SEN", "TEMP"]

  /** The settings of a channel object that set_params changes. */
  datatype ChannelParams = ChannelParams(gain: int, name: string, resolution: int, length: int, timebase: real)

  /** A polynomial as numpy's poly1d holds it: coefficients, highest power first. */
  type Poly = seq<real>

  /** The calibration dictionary: per channel name, one polynomial per gain index. */
  type Calibration = map<string, seq<Poly>>

  /** The polynomial's value at x (Horner's rule). */
  function Eval(c: Poly, x: real): real
  {
    if c == [] then 0.0 else Eval(c[..|c| - 1], x) * x + c[|c| - 1]
  }

  /** A poly1d with coefficients [0, a, b] is the line a*x + b. */
  lemma {:induction false} EvalLine(a: real, b: real, x: real)
    ensures Eval([0.0, a, b], x) == a * x + b
  {
    assert [0.0][..0] == [];
    assert Eval([0.0], x) == 0.0;
    assert [0.0, a][..1] == [0.0];
    assert Eval([0.0, a], x) == a;
    assert [0.0, a, b][..2] == [0.0, a];
  }

  /** Eight gain-index entries [0, slope/GAINS[g], offset/GAINS[g]]. */
  function GainTable(slope: real, offset: real): (t: seq<Poly>)
    ensures |t| == |GAINS|
    ensures forall g :: 0 <= g < |t| ==>
      t[g] == [0.0, slope / GAINS[g] as real, offset / GAINS[g] as real]
  {
    seq(|GAINS|, g requires 0 <= g < |GAINS| =>
      [0.0, slope / GAINS[g] as real, offset / GAINS[g] as real])
  }

  /** The fallback for the inverting inputs CH1-CH4. */
  function BipolarTable(): seq<Poly>
  {
    GainTable(-33.0 / 1023.0, 16.5)
  }

  /** The fallback for CH5-CH9. */
  function UnipolarTable(): seq<Poly>
  {
    GainTable(3.3 / 1023.0, 0.0)
  }

  /** The single-gain table of IN1, SEN and TEMP. */
  const SINGLE_GAIN_TABLE: seq<Poly> := [[0.0, 3.3 / 1023.0, 0.0]]

  /** The fallback calibration of CH1-CH4 maps a reading x at gain index g
      to -33/1023/gain*x + 16.5/gain. */
  lemma {:induction false} BipolarFallback(g: int, x: real)
    requires 0 <= g < |GAINS|
    ensures Eval(BipolarTable()[g], x) ==
      (-33.0 / 1023.0) / GAINS[g] as real * x + 16.5 / GAINS[g] as real
  {
    EvalLine((-33.0 / 1023.0) / GAINS[g] as real, 16.5 / GAINS[g] as real, x);
  }

  /** The fallback calibration of CH5-CH9 is 3.3/1023/gain*x, zero at zero. */
  lemma {:induction false} UnipolarFallback(g: int, x: real)
    requires 0 <= g < |GAINS|
    ensures Eval(UnipolarTable()[g], x) == (3.3 / 1023.0) / GAINS[g] as real * x
    ensures Eval(UnipolarTable()[g], 0.0) == 0.0
  {
    EvalLine((3.3 / 1023.0) / GAINS[g] as real, 0.0 / GAINS[g] as real, x);
    EvalLine((3.3 / 1023.0) / GAINS[g] as real, 0.0 / GAINS[g] as real, 0.0);
  }

  const BIPOLAR_NAMES: seq<string> := ["CH1", "CH2", "CH3", "CH4"]
  const UNIPOLAR_NAMES: seq<string> := ["CH5", "CH6", "CH7", "CH8", "CH9"]

  /** The tables installed whatever the calibration file holds: 5V, PCS and
      9V per gain index, IN1, SEN and TEMP with a single entry. */
  const FIXED_TABLES: Calibration := map[
    "5V" := GainTable(2.0 * 3.3 / 1023.0, 0.0),
    "PCS" := GainTable(3.3 / 1023.0, 0.0),
    "9V" := GainTable(33.0 / 1023.0, 0.0),
    "IN1" := SINGLE_GAIN_TABLE,
    "SEN" := SINGLE_GAIN_TABLE,
    "TEMP" := SINGLE_GAIN_TABLE]

  /** The fallback dictionary the module builds when no calibration file
      loads: the inverting table for CH1-CH4, the plain one for CH5-CH9. */
  method FallbackCalfacs() returns (calfacs: Calibration)
    ensures calfacs.Keys == (set k | k in BIPOLAR_NAMES) + (set k | k in UNIPOLAR_NAMES)
    ensures forall k :: k in BIPOLAR_NAMES ==> calfacs[k] == BipolarTable()
    ensures forall k :: k in UNIPOLAR_NAMES ==> calfacs[k] == UnipolarTable()
  {
    calfacs := SetTables(map[], BIPOLAR_NAMES, BipolarTable());
    PolarNamesDisjoint();
    calfacs := SetTables(calfacs, UNIPOLAR_NAMES, UnipolarTable());
  }

  /** `for n in names: calfacs[n] = table`. */
  method SetTables(m: Calibration, names: seq<string>, table: seq<Poly>) returns (r: Calibration)
    ensures r.Keys == m.Keys + (set k | k in names)
    ensures forall k :: k in names ==> r[k] == table
    ensures forall k :: k in m && k !in names ==> r[k] == m[k]
  {
    r := m;
    for n := 0 to |names|
      invariant r.Keys == m.Keys + (set k | k in names[..n])
      invariant forall k :: k in names[..n] ==> r[k] == table
      invariant forall k :: k in m && k !in names[..n] ==> r[k] == m[k]
    {
      assert names[..n + 1] == names[..n] + [names[n]];
      r := r[names[n] := table];
    }
    assert names[..|names|] == names;
  }

  lemma PolarNamesDisjoint()
    ensures forall k :: k in BIPOLAR_NAMES ==> k !in UNIPOLAR_NAMES
  {
  }

  /** The module-level calfacs dictionary, built from the calibration file's
      contents when it loads (`loaded`) or from the fallback tables when it
      does not; the fixed tables are set either way, over whatever the file
      held for those names. */
  method BuildCalfacs(loaded: Option<Calibration>) returns (calfacs: Calibration)
    ensures forall k :: k in FIXED_TABLES ==> k in calfacs && calfacs[k] == FIXED_TABLES[k]
    ensures loaded.Some? ==> (calfacs.Keys == loaded.value.Keys + FIXED_TABLES.Keys &&
      forall k :: k in loaded.value && k !in FIXED_TABLES ==> calfacs[k] == loaded.value[k])
    ensures loaded.None? ==>
      calfacs.Keys == (set k | k in BIPOLAR_NAMES) + (set k | k in UNIPOLAR_NAMES) + FIXED_TABLES.Keys &&
      (forall k :: k in BIPOLAR_NAMES ==> calfacs[k] == BipolarTable()) &&
      (forall k :: k in UNIPOLAR_NAMES ==> calfacs[k] == UnipolarTable())
  {
    if loaded.Some? {
      calfacs := loaded.value + FIXED_TABLES;
    } else {
      var fallback := FallbackCalfacs();
      FallbackNotFixed();
      calfacs := fallback + FIXED_TABLES;
    }
  }

  lemma FallbackNotFixed()
    ensures forall k :: k in BIPOLAR_NAMES || k in UNIPOLAR_NAMES ==> k !in FIXED_TABLES
  {
    assert FIXED_TABLES.Keys == {"5V", "PCS", "9V", "IN1", "SEN", "TEMP"};
  }

  /** channel_names.index(name), with -1 for a name not in the list
      (where list.index raises). */
  function ChannelIndex(name: string): (i: int)
    ensures -1 <= i < |CHANNEL_NAMES|
  {
    if name == "CH1" then 0 else if name == "CH2" then 1 else if name == "CH3" then 2
    else if name == "CH4" then 3 else if name == "CH5" then 4 else if name == "CH6" then 5
    else if name == "CH7" then 6 else if name == "CH8" then 7 else if name == "CH9" then 8
    else if name == "5V" then 9 else if name == "PCS" then 10 else if name == "9V" then 11
    else if name == "IN1" then 12 else if name == "SEN" then 13 else if name == "TEMP" then 14
    else -1
  }

  /** ChannelIndex is the position in CHANNEL_NAMES, and -1 exactly for the
      names missing from it. */
  lemma ChannelIndexIsPosition(i: int, name: string)
    requires 0 <= i < |CHANNEL_NAMES|
    ensures ChannelIndex(CHANNEL_NAMES[i]) == i
    ensures ChannelIndex(name) == -1 <==> name !in CHANNEL_NAMES
  {
  }

  /** Exactly IN1, SEN and TEMP sit past index 11 of the channel names. */
  lemma SingleGainNames(name: string)
    ensures ChannelIndex(name) > 11 <==> name == "IN1" || name == "SEN" || name == "TEMP"
  {
  }

  /** Python list indexing, negative indices counting from the end. */
  predicate InRange(n: int, i: int)
  {
    -n <= i < n
  }

  function At<T>(s: seq<T>, i: int): (x: T)
    requires InRange(|s|, i)
    ensures x == s[if i < 0 then i + |s| else i]
  {
    if i < 0 then s[i + |s|] else s[i]
  }

  /** The end of the Python slice s[:n] of a sequence of length len. */
  function SliceEnd(n: int, len: nat): (e: nat)
    ensures e <= len
    ensures 0 <= n ==> e == Min(n, len)
    ensures n < 0 ==> e == Max(0, len + n)
  {
    if n >= 0 then Min(n, len) else Max(0, len + n)
  }

  /** The point the polynomial is evaluated at: 12-bit readings are
      brought to the 10-bit scale first. */
  function Scaled(resolution: int, val: real): real
  {
    if resolution == TWELVE_BIT then val / 4.0 else val
  }

  /** The voltage of one raw reading: the reference correction times the
      calibration polynomial at the scaled reading. */
  function Calibrated(ref: real, poly: Poly, resolution: int, val: real): real
  {
    ref * Eval(poly, Scaled(resolution, val))
  }

  /** A 12-bit reading of 4v calibrates exactly like a 10-bit reading of v. */
  lemma {:induction false} TwelveBitIsQuarter(poly: Poly, v: real)
    ensures Eval(poly, Scaled(TWELVE_BIT, 4.0 * v)) == Eval(poly, Scaled(TEN_BIT, v))
  {
  }

  /** The gain index fix_value applies: single-gain channels always use 0. */
  function EffectiveGain(name: string, gain: int): int
  {
    if ChannelIndex(name) > 11 then 0 else gain
  }

  /** The calibration polynomial fix_value applies, or why there is none. */
  function Polynomial(calfacs: Calibration, name: string, gain: int): (r: Result<Poly>)
    ensures ChannelIndex(name) == -1 || name !in calfacs ==> r == Err(UnknownChannel)
    ensures r.Ok? ==> (ChannelIndex(name) != -1 && name in calfacs &&
      InRange(|calfacs[name]|, EffectiveGain(name, gain)) &&
      r.value == At(calfacs[name], EffectiveGain(name, gain)))
    ensures (ChannelIndex(name) != -1 && name in calfacs &&
      !InRange(|calfacs[name]|, EffectiveGain(name, gain))) ==> r == Err(IndexOutOfRange)
  {
    if ChannelIndex(name) == -1 || name !in calfacs then Err(UnknownChannel)
    else if !InRange(|calfacs[name]|, EffectiveGain(name, gain)) then Err(IndexOutOfRange)
    else Ok(At(calfacs[name], EffectiveGain(name, gain)))
  }

  /** Integer readings as the floats numpy holds them. */
  function AsReals(s: seq<int>): (r: seq<real>)
    ensures |r| == |s|
    ensures forall i :: 0 <= i < |s| ==> r[i] == s[i] as real
  {
    if s == [] then [] else AsReals(s[..|s| - 1]) + [s[|s| - 1] as real]
  }

  /** A fresh numpy array holding s. */
  method NewArray(s: seq<real>) returns (a: array<real>)
    ensures fresh(a) && a[..] == s
  {
    a := new real[|s|](i requires 0 <= i < |s| => s[i]);
  }

  /** Whatever gain is set, a single-gain channel has a polynomial as long as
      its table has one entry. */
  lemma {:induction false} SingleGainAlwaysFound(calfacs: Calibration, name: string, gain: int)
    requires name == "IN1" || name == "SEN" || name == "TEMP"
    requires name in calfacs && |calfacs[name]| >= 1
    ensures Polynomial(calfacs, name, gain) == Ok(calfacs[name][0])
  {
    SingleGainNames(name);
  }

  class AnalogChannel {
    var name: string
    var gain: int
    /** The name given at construction; set_params falls back to it. */
    const channel: string
    /** Measured reference voltage over 3.3; fixed at 1. */
    const calibrationRef196: real
    var resolution: int
    const xaxis: array<real>
    var yaxis: array<real>
    var length: int
    var timebase: real
    /** The module-level calibration dictionary. */
    const calfacs: Calibration

    ghost predicate Valid()
      reads this
    {
      xaxis.Length == AXIS_SLOTS && xaxis != yaxis
    }

    constructor(a: string, calfacs: Calibration)
      ensures Valid()
      ensures name == "" && gain == 0 && channel == a && resolution == TEN_BIT
      ensures calibrationRef196 == 1.0 && length == 100 && timebase == 1.0
      ensures this.calfacs == calfacs
      ensures fresh(xaxis) && fresh(yaxis) && yaxis.Length == AXIS_SLOTS
      ensures forall i :: 0 <= i < AXIS_SLOTS ==> xaxis[i] == 0.0 && yaxis[i] == 0.0
    {
      name, gain, channel := "", 0, a;
      calibrationRef196 := 1.0;
      resolution := TEN_BIT;
      xaxis := new real[AXIS_SLOTS](i => 0.0);
      yaxis := new real[AXIS_SLOTS](i => 0.0);
      length, timebase := 100, 1.0;
      this.calfacs := calfacs;
    }

    /** fix_value(val): the calibrated voltage of one raw reading.  A
        single-gain channel has its gain reset to 0 first; an unknown name
        leaves the gain as it was. */
    method FixValue(val: real) returns (r: Result<real>)
      modifies this
      ensures name == old(name) && resolution == old(resolution)
      ensures length == old(length) && timebase == old(timebase) && yaxis == old(yaxis)
      ensures ChannelIndex(name) == -1 ==> gain == old(gain) && r == Err(UnknownChannel)
      ensures ChannelIndex(name) != -1 ==> gain == EffectiveGain(name, old(gain))
      ensures ChannelIndex(name) != -1 ==>
        match Polynomial(calfacs, name, old(gain))
        case Ok(poly) => r.Ok? && r.value == Calibrated(calibrationRef196, poly, resolution, val)
        case Err(f) => r == Err(f)
    {
      if ChannelIndex(name) == -1 {
        return Err(UnknownChannel);
      }
      ghost var g0 := gain;
      if ChannelIndex(name) > 11 {
        gain := 0;
      }
      var found := Polynomial(calfacs, name, gain);
      assert found == Polynomial(calfacs, name, g0);
      if found.Err? {
        return Err(found.fault);
      }
      var poly := found.value;
      var y := Calibrated(calibrationRef196, poly, resolution, val);
      r := Ok(y);
    }

    /** fix_value applied to a whole numpy array of readings. */
    method FixValues(vals: seq<real>) returns (r: Result<seq<real>>)
      modifies this
      ensures name == old(name) && resolution == old(resolution)
      ensures length == old(length) && timebase == old(timebase) && yaxis == old(yaxis)
      ensures ChannelIndex(name) == -1 ==> gain == old(gain) && r == Err(UnknownChannel)
      ensures ChannelIndex(name) != -1 ==> gain == EffectiveGain(name, old(gain))
      ensures ChannelIndex(name) != -1 ==>
        match Polynomial(calfacs, name, old(gain))
        case Ok(poly) => r.Ok? && |r.value| == |vals| &&
          forall i :: 0 <= i < |vals| ==>
            r.value[i] == Calibrated(calibrationRef196, poly, resolution, vals[i])
        case Err(f) => r == Err(f)
    {
      if ChannelIndex(name) == -1 {
        return Err(UnknownChannel);
      }
      ghost var g0 := gain;
      if ChannelIndex(name) > 11 {
        gain := 0;
      }
      var found := Polynomial(calfacs, name, gain);
      assert found == Polynomial(calfacs, name, g0);
      if found.Err? {
        return Err(found.fault);
      }
      var poly := found.value;
      var out: seq<real> := [];
      for i := 0 to |vals|
        invariant |out| == i
        invariant forall j :: 0 <= j < i ==>
          out[j] == Calibrated(calibrationRef196, poly, resolution, vals[j])
      {
        out := out + [Calibrated(calibrationRef196, poly, resolution, vals[i])];
      }
      r := Ok(out);
    }

    /** self.yaxis = self.fix_value(vals): the trace replaced by a new array
        of the calibrated readings; on a failed calibration the old trace
        stays. */
    method LoadYaxis(vals: seq<real>) returns (r: Result<bool>)
      requires Valid()
      modifies this
      ensures Valid()
      ensures name == old(name) && resolution == old(resolution)
      ensures length == old(length) && timebase == old(timebase)
      ensures ChannelIndex(name) == -1 ==>
        gain == old(gain) && r == Err(UnknownChannel) && yaxis == old(yaxis)
      ensures ChannelIndex(name) != -1 ==> gain == EffectiveGain(name, old(gain))
      ensures ChannelIndex(name) != -1 ==>
        match Polynomial(calfacs, name, old(gain))
        case Ok(poly) => r == Ok(true) && fresh(yaxis) && yaxis.Length == |vals| &&
          forall i :: 0 <= i < |vals| ==>
            yaxis[i] == Calibrated(calibrationRef196, poly, resolution, vals[i])
        case Err(f) => r == Err(f) && yaxis == old(yaxis)
    {
      var ys :- FixValues(vals);
      var y := NewArray(ys);
      yaxis := y;
      r := Ok(true);
    }

    /** set_yval(pos, val): the calibrated reading stored at pos. */
    method SetYval(pos: int, val: real) returns (r: Result<()>)
      requires Valid()
      modifies this, yaxis
      ensures Valid() && yaxis == old(yaxis)
      ensures name == old(name) && resolution == old(resolution)
      ensures ChannelIndex(name) != -1 ==> gain == EffectiveGain(name, old(gain))
      ensures ChannelIndex(name) == -1 ==> gain == old(gain)
      ensures r.Ok? <==> ChannelIndex(name) != -1 && Polynomial(calfacs, name, old(gain)).Ok? &&
                         InRange(yaxis.Length, pos)
      ensures r.Ok? ==>
        var i := if pos < 0 then pos + yaxis.Length else pos;
        yaxis[..] == old(yaxis[..])[i := Calibrated(calibrationRef196,
          Polynomial(calfacs, name, old(gain)).value, resolution, val)]
      ensures r.Err? ==> yaxis[..] == old(yaxis[..])
    {
      var y :- FixValue(val);
      if !InRange(yaxis.Length, pos) {
        return Err(IndexOutOfRange);
      }
      var i := if pos < 0 then pos + yaxis.Length else pos;
      yaxis[i] := y;
      r := Ok(());
    }

    /** set_xval(pos, val): val stored at pos of the time axis, a negative
        pos counting from the end; a position outside the axis fails. */
    method SetXval(pos: int, val: real) returns (r: Result<()>)
      requires Valid()
      modifies xaxis
      ensures r.Ok? <==> InRange(xaxis.Length, pos)
      ensures r.Ok? ==>
        xaxis[..] == old(xaxis[..])[(if pos < 0 then pos + xaxis.Length else pos) := val]
      ensures r.Err? ==> r == Err(IndexOutOfRange) && xaxis[..] == old(xaxis[..])
    {
      if !InRange(xaxis.Length, pos) {
        return Err(IndexOutOfRange);
      }
      var i := if pos < 0 then pos + xaxis.Length else pos;
      xaxis[i] := val;
      r := Ok(());
    }

    /** The settings set_params changes. */
    function Params(): ChannelParams
      reads this
    {
      ChannelParams(gain, name, resolution, length, timebase)
    }

    /** The time axis after set_params, from the timebase, length and axis
        it had before: untouched when neither setting changed, otherwise
        timebase * a in every slot below the new length, the rest as it was. */
    ghost predicate AxisAfter(timebase0: real, length0: int, axis0: seq<real>)
      reads this, xaxis
    {
      |axis0| == xaxis.Length &&
      if timebase == timebase0 && length == length0 then xaxis[..] == axis0
      else (forall a :: 0 <= a < Min(length, xaxis.Length) ==> xaxis[a] == timebase * a as real) &&
           (forall a :: Max(length, 0) <= a < xaxis.Length ==> xaxis[a] == axis0[a])
    }

    /** set_params(gain=, channel=, resolution=, length=, timebase=).  An
        absent channel resets the name to the constructor's; the time axis
        is rebuilt only when the length or the timebase changes. */
    method SetParams(gain: Option<int>, channel: Option<string>, resolution: Option<int>,
                     length: Option<int>, timebase: Option<real>) returns (r: Result<()>)
      requires Valid()
      modifies this, xaxis
      ensures Valid() && yaxis == old(yaxis)
      ensures this.gain == (if gain.Some? then gain.value else old(this.gain))
      ensures name == (if channel.Some? then channel.value else this.channel)
      ensures this.resolution == (if resolution.Some? then resolution.value else old(this.resolution))
      ensures this.length == (if length.Some? then length.value else old(this.length))
      ensures this.timebase == (if timebase.Some? then timebase.value else old(this.timebase))
      ensures AxisAfter(old(this.timebase), old(this.length), old(xaxis[..]))
      ensures r.Err? <==> (this.timebase != old(this.timebase) || this.length != old(this.length)) &&
                          this.length > AXIS_SLOTS
    {
      this.gain := if gain.Some? then gain.value else this.gain;
      name := if channel.Some? then channel.value else this.channel;
      this.resolution := if resolution.Some? then resolution.value else this.resolution;
      var l := if length.Some? then length.value else this.length;
      var t := if timebase.Some? then timebase.value else this.timebase;
      r := Ok(());
      if t != this.timebase || l != this.length {
        this.timebase := t;
        this.length := l;
        r := RegenerateXaxis();
      }
    }

    /** regenerate_xaxis: xaxis[a] = timebase * a for every a below length;
        a length past the 4000 slots fails once the slots run out. */
    method RegenerateXaxis() returns (r: Result<()>)
      requires Valid()
      modifies xaxis
      ensures r.Err? <==> length > AXIS_SLOTS
      ensures r.Err? ==> r.fault == IndexOutOfRange
      ensures forall a :: 0 <= a < Min(length, AXIS_SLOTS) ==> xaxis[a] == timebase * a as real
      ensures forall a :: Max(length, 0) <= a < AXIS_SLOTS ==> xaxis[a] == old(xaxis[a])
    {
      var a := 0;
      while a < length
        invariant 0 <= a <= Max(length, 0)
        invariant a <= AXIS_SLOTS
        invariant forall k :: 0 <= k < a ==> xaxis[k] == timebase * k as real
        invariant forall k :: a <= k < AXIS_SLOTS ==> xaxis[k] == old(xaxis[k])
        decreases length - a
      {
        if a >= xaxis.Length {
          return Err(IndexOutOfRange);
        }
        xaxis[a] := timebase * a as real;
        a := a + 1;
      }
      r := Ok(());
    }

    /** get_xaxis: the first `length` entries of the time axis. */
    function GetXaxis(): (r: seq<real>)
      reads this, xaxis
      ensures |r| == SliceEnd(length, xaxis.Length)
      ensures forall i :: 0 <= i < |r| ==> r[i] == xaxis[i]
    {
      xaxis[..SliceEnd(length, xaxis.Length)]
    }

    /** get_yaxis: the first `length` entries of the voltage axis. */
    function GetYaxis(): (r: seq<real>)
      reads this, yaxis
      ensures |r| == SliceEnd(length, yaxis.Length)
      ensures forall i :: 0 <= i < |r| ==> r[i] == yaxis[i]
    {
      yaxis[..SliceEnd(length, yaxis.Length)]
    }
  }
}
