/** The register words the MPU6050 and HMC5883L report: two bytes, high
    byte first, read as numpy's int16 (two's complement, wrapping). */
module SignedWords {
  import opened Numeric
  import opened CommandsProto
  import opened PacketHandler
  import opened I2CBus

  /** `hi << 8 | lo`: the unsigned word of a high and a low byte. */
  function BigEndian(hi: byte, lo: byte): (w: nat)
    ensures w == 256 * hi + lo && w < 65536
  {
    assert Pow2(8) == 256;
    OrComm(hi as nat * 256, lo as nat);
    OrDisjoint(lo as nat, hi as nat, 8);
    Or(hi as nat * 256, lo as nat)
  }

  /** np.int16(w): w wrapped into the signed 16-bit range. */
  function Int16(w: int): (r: int)
    ensures -32768 <= r < 32768
    ensures (w - r) % 65536 == 0
  {
    (w + 32768) % 65536 - 32768
  }

  /** A register pair is negative exactly when the sign bit of the high
      byte is set, and is then the word less 2^16. */
  lemma Int16OfPair(hi: byte, lo: byte)
    ensures Int16(BigEndian(hi, lo)) < 0 <==> hi >= 128
    ensures Int16(BigEndian(hi, lo)) == if hi < 128 then 256 * hi + lo else 256 * hi + lo - 65536
  {
    var w := 256 * hi + lo;
    if hi < 128 {
      assert (w + 32768) % 65536 == w + 32768;
    } else {
      assert (w + 32768) % 65536 == w + 32768 - 65536;
    }
  }

  /** The bytes a 16-bit signed value is sent as, high byte first. */
  function HighByte(x: int): byte
  {
    (x % 65536) / 256
  }

  function LowByte(x: int): byte
  {
    x % 256
  }

  /** Every signed 16-bit value is read back from its two bytes. */
  lemma Int16RoundTrip(x: int)
    requires -32768 <= x < 32768
    ensures Int16(BigEndian(HighByte(x), LowByte(x))) == x
  {
    var u := x % 65536;
    assert u == if x >= 0 then x else x + 65536;
    assert LowByte(x) == u % 256;
    assert 256 * HighByte(x) + LowByte(x) == u;
    Int16OfPair(HighByte(x), LowByte(x));
  }

  /** The signed words of the byte pairs (2i, 2i + 1) of vals, for i < k. */
  function Pairs(vals: seq<byte>, k: nat): (r: seq<int>)
    requires 2 * k <= |vals|
    ensures |r| == k
    ensures forall i :: 0 <= i < k ==> -32768 <= r[i] < 32768
  {
    seq(k, i requires 0 <= i < k => Int16(BigEndian(vals[2 * i], vals[2 * i + 1])))
  }

  /** The register bytes of signed values, each high byte first. */
  function Encoded(xs: seq<int>): (r: seq<byte>)
    ensures |r| == 2 * |xs|
  {
    seq(2 * |xs|, j requires 0 <= j < 2 * |xs| => if j % 2 == 0 then HighByte(xs[j / 2]) else LowByte(xs[j / 2]))
  }

  /** Decoding the pairs of encoded signed 16-bit values gives them back. */
  lemma PairsOfEncoded(xs: seq<int>)
    requires forall i :: 0 <= i < |xs| ==> -32768 <= xs[i] < 32768
    ensures Pairs(Encoded(xs), |xs|) == xs
  {
    var e := Encoded(xs);
    forall i | 0 <= i < |xs|
      ensures Pairs(e, |xs|)[i] == xs[i]
    {
      assert (2 * i) / 2 == i && (2 * i + 1) / 2 == i;
      assert e[2 * i] == HighByte(xs[i]) && e[2 * i + 1] == LowByte(xs[i]);
      Int16RoundTrip(xs[i]);
    }
  }

  /** Signed values held in a device's registers come back from a
      register read outside burst mode, whatever it acknowledges. */
  lemma RegistersReadBack(xs: seq<int>, acks: seq<byte>, rest: seq<byte>)
    requires forall i :: 0 <= i < |xs| ==> -32768 <= xs[i] < 32768
    requires |acks| == 2 * |xs|
    ensures |xs| == 0 || Place(false, 2 * |xs| - 1) < |Interleave(Encoded(xs), acks) + rest|
    ensures Pairs(ReadData(Interleave(Encoded(xs), acks) + rest, false, 2 * |xs|), |xs|) == xs
  {
    ReadDataInterleaved(Encoded(xs), acks, rest);
    PairsOfEncoded(xs);
  }

  /** A register read answered outside burst mode by a device that
      acknowledges the opening, sends the registers holding xs (each byte
      acknowledged) and acknowledges the stop returns xs. */
  lemma ReplyReadsBack(p: Port, xs: seq<int>, opening: seq<byte>, acks: seq<byte>, rest: seq<byte>)
    requires forall i :: 0 <= i < |xs| ==> -32768 <= xs[i] < 32768
    requires !p.loadBurst && |xs| >= 1 && |opening| == 3 && |acks| == 2 * |xs| && |rest| >= 1
    requires p.incoming == opening + Interleave(Encoded(xs), acks) + rest
    ensures Answers(p, 2 * |xs|, 2 * |xs| + 4)
    ensures Pairs(RegisterReply(p, 2 * |xs|), |xs|) == xs
  {
    var tail := Interleave(Encoded(xs), acks) + rest;
    assert Drop(p.incoming, 3) == tail;
    RegistersReadBack(xs, acks, rest);
  }
}
