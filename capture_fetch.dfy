/** The byte streams of __fetch_channel__ and __fetch_channel_oneshot__:
    the requests sent for a trace of a given length, the bytes the reads
    collect from what the device sends back, and the samples rebuilt from
    them. */
module CaptureFetch {
  import opened Numeric
  import opened CommandsProto
  import opened PacketHandler

  /** Samples per request in __fetch_channel__. */
  const SPLITTING := 20

  /** The requests __fetch_channel__ makes for a trace of `samples`
      samples: one per full chunk of 20, then one for the remainder. */
  function RequestCount(samples: nat): nat
  {
    samples / SPLITTING + 1
  }

  /** The samples request i asks for. */
  function ChunkSize(samples: nat, i: nat): nat
  {
    if i < samples / SPLITTING then SPLITTING else samples % SPLITTING
  }

  /** The offset request i asks from: i*20 for a full chunk,
      samples - samples%20 for the remainder. */
  function Offset(samples: nat, i: nat): int
  {
    if i < samples / SPLITTING then i * SPLITTING else samples - samples % SPLITTING
  }

  /** The samples the first n requests ask for together: 20 per full
      chunk, and all of them once the remainder is asked for too. */
  function Requested(samples: nat, n: nat): (t: nat)
    requires n <= RequestCount(samples)
    ensures n <= samples / SPLITTING ==> t == SPLITTING * n
    ensures n == RequestCount(samples) ==> t == samples
  {
    if n == 0 then 0 else Requested(samples, n - 1) + ChunkSize(samples, n - 1)
  }

  /** Every request starts where the ones before it stopped: the requests
      cover the trace from sample 0 on, in order, without gap or overlap. */
  lemma OffsetsContiguous(samples: nat, i: nat)
    requires i < RequestCount(samples)
    ensures Offset(samples, i) == Requested(samples, i)
    ensures Requested(samples, i + 1) == Offset(samples, i) + ChunkSize(samples, i)
  {
  }

  /** The bytes of request i: ADC, GET_CAPTURE_CHANNEL, the channel, the
      sample count and the offset. */
  function Request(chan: byte, samples: nat, i: nat): seq<byte>
  {
    [ADC, GET_CAPTURE_CHANNEL, chan] + Words([ChunkSize(samples, i), Offset(samples, i)])
  }

  /** The bytes of the first n requests. */
  function Requests(chan: byte, samples: nat, n: nat): seq<byte>
  {
    if n == 0 then [] else Requests(chan, samples, n - 1) + Request(chan, samples, n - 1)
  }

  /** The bytes n acknowledgements take from the stream straight away:
      none in burst mode, where they are only queued. */
  function AckBytes(burst: bool, n: nat): nat
  {
    if burst then 0 else n
  }

  /** What is left of the stream s after n requests: their data bytes and
      their acknowledgements are gone. */
  function Remaining(s: seq<byte>, samples: nat, burst: bool, n: nat): seq<byte>
    requires n <= RequestCount(samples)
  {
    Drop(s, 2 * Requested(samples, n) + AckBytes(burst, n))
  }

  /** What the reads of the first n requests collect from the stream s:
      each takes the request's two bytes per sample from what is left,
      fewer when the stream runs out. */
  function Collected(s: seq<byte>, samples: nat, burst: bool, n: nat): seq<byte>
    requires n <= RequestCount(samples)
  {
    if n == 0 then []
    else
      var rest := Remaining(s, samples, burst, n - 1);
      Collected(s, samples, burst, n - 1) + rest[..Min(2 * ChunkSize(samples, n - 1), |rest|)]
  }

  /** Reading request n's bytes and its acknowledgement leaves what is
      left after n + 1 requests. */
  lemma RemainingStep(s: seq<byte>, samples: nat, burst: bool, n: nat)
    requires n < RequestCount(samples)
    ensures Drop(Remaining(s, samples, burst, n), 2 * ChunkSize(samples, n) + AckBytes(burst, 1)) ==
            Remaining(s, samples, burst, n + 1)
  {
    DropDrop(s, 2 * Requested(samples, n) + AckBytes(burst, n), 2 * ChunkSize(samples, n) + AckBytes(burst, 1));
  }

  /** d is the stream s without one acknowledgement byte after each chunk
      of 40 data bytes: data byte j is stream byte j + j/40. */
  predicate Deinterleaved(d: seq<byte>, s: seq<byte>)
  {
    forall j :: 0 <= j < |d| ==> j + j / (2 * SPLITTING) < |s| && d[j] == s[j + j / (2 * SPLITTING)]
  }

  /** When the stream holds every reply, the collected data is the stream
      with the acknowledgement bytes taken out. */
  lemma {:induction false} CollectComplete(s: seq<byte>, samples: nat, n: nat)
    requires n <= RequestCount(samples)
    requires 2 * Requested(samples, n) + n <= |s|
    ensures |Collected(s, samples, false, n)| == 2 * Requested(samples, n)
    ensures Deinterleaved(Collected(s, samples, false, n), s)
  {
    if n > 0 {
      var m := 2 * ChunkSize(samples, n - 1);
      var base := 2 * Requested(samples, n - 1);
      CollectComplete(s, samples, n - 1);
      assert base == 2 * SPLITTING * (n - 1);
      var rest := s[base + (n - 1)..];
      assert Remaining(s, samples, false, n - 1) == rest;
      DeinterleavedExtend(Collected(s, samples, false, n - 1), s, n - 1, m);
    }
  }

  /** One more chunk of data, read right after the acknowledgement of the
      chunk before it. */
  lemma DeinterleavedExtend(d: seq<byte>, s: seq<byte>, c: nat, m: nat)
    requires Deinterleaved(d, s) && |d| == 2 * SPLITTING * c && m <= 2 * SPLITTING
    requires |d| + c + m <= |s|
    ensures Deinterleaved(d + s[|d| + c..][..m], s)
  {
    var e := d + s[|d| + c..][..m];
    forall j | 0 <= j < |e|
      ensures j + j / (2 * SPLITTING) < |s| && e[j] == s[j + j / (2 * SPLITTING)]
    {
      if j >= |d| {
        ChunkIndex(j, |d|, c, m);
      }
    }
  }

  /** A byte of chunk c of the data falls in stream chunk c. */
  lemma ChunkIndex(j: nat, base: nat, c: nat, m: nat)
    requires base == 2 * SPLITTING * c && base <= j < base + m && m <= 2 * SPLITTING
    ensures j / (2 * SPLITTING) == c
  {
    DivUnique(j, 2 * SPLITTING, c, j - base);
  }

  /** In burst mode the acknowledgements take nothing from the stream, and
      the collected data is its front. */
  lemma {:induction false} CollectBurst(s: seq<byte>, samples: nat, n: nat)
    requires n <= RequestCount(samples)
    ensures Collected(s, samples, true, n) == s[..Min(2 * Requested(samples, n), |s|)]
  {
    if n > 0 {
      var m := 2 * ChunkSize(samples, n - 1);
      CollectBurst(s, samples, n - 1);
      var a := Min(2 * Requested(samples, n - 1), |s|);
      assert Remaining(s, samples, true, n - 1) == s[a..];
      FrontJoin(s, a, Min(m, |s| - a));
    }
  }

  /** A front and the next bytes make a longer front. */
  lemma FrontJoin(s: seq<byte>, a: nat, k: nat)
    requires a + k <= |s|
    ensures s[..a] + s[a..][..k] == s[..a + k]
  {
  }

  /** Request i with its read and its acknowledgement extends the step of
      the requests before it; that step has left the stream as Remaining
      says. */
  lemma RequestStep(p: Port, chan: byte, samples: nat, i: nat)
    requires i < RequestCount(samples)
    ensures var q := Xfer(p, Requests(chan, samples, i), 2 * Requested(samples, i), i);
      q.loadBurst == p.loadBurst && q.incoming == Remaining(p.incoming, samples, p.loadBurst, i) &&
      Xfer(q, Request(chan, samples, i), 2 * ChunkSize(samples, i), 1) ==
        Xfer(p, Requests(chan, samples, i + 1), 2 * Requested(samples, i + 1), i + 1)
  {
    XferThen(p, Requests(chan, samples, i), 2 * Requested(samples, i), i,
             Request(chan, samples, i), 2 * ChunkSize(samples, i), 1);
  }

  /** The requests never ask past the trace. */
  lemma RequestedAtMost(samples: nat, n: nat)
    requires n <= RequestCount(samples)
    ensures Requested(samples, n) <= samples
  {
    if n <= samples / SPLITTING {
      MulDivBelow(samples, SPLITTING);
      assert SPLITTING * n <= SPLITTING * (samples / SPLITTING);
    }
  }

  lemma MulDivBelow(x: nat, m: nat)
    requires m > 0
    ensures m * (x / m) <= x
  {
  }

  /** Outside burst mode, a stream that leaves no acknowledgement after the
      data of request i does not hold every reply. */
  lemma ShortReply(p: Port, samples: nat, i: nat)
    requires i < RequestCount(samples) && !p.loadBurst
    requires |Remaining(p.incoming, samples, false, i)| <= 2 * ChunkSize(samples, i)
    ensures !Answers(p, 2 * samples, RequestCount(samples))
  {
    RequestedAtMost(samples, i + 1);
  }

  /** Outside burst mode, a stream that still holds the last
      acknowledgement after the last data holds every reply. */
  lemma FullReply(p: Port, samples: nat)
    requires !p.loadBurst
    requires |Remaining(p.incoming, samples, false, samples / SPLITTING)| > 2 * ChunkSize(samples, samples / SPLITTING)
    ensures Answers(p, 2 * samples, RequestCount(samples))
  {
  }

  /** Sample a of fetched bytes, as `__fetch_channel__` rebuilds it:
      data[2a] | data[2a + 1] << 8. */
  function Sample(data: seq<byte>, a: nat): nat
    requires 2 * a + 1 < |data|
  {
    Or(data[2 * a] as nat, data[2 * a + 1] as nat * Pow2(8))
  }

  /** A sample is the little-endian word of its two bytes, so a reply the
      device encoded as words (__sendInt__'s layout) reads back as those
      words modulo 2^16. */
  lemma SampleValue(data: seq<byte>, a: nat)
    requires 2 * a + 1 < |data|
    ensures Sample(data, a) == data[2 * a] as int + 256 * data[2 * a + 1] as int
    ensures Sample(data, a) == StringToInt(data[2 * a..])
    ensures Sample(data, a) < 65536
  {
    assert Pow2(8) == 256;
    OrDisjoint(data[2 * a] as nat, data[2 * a + 1] as nat, 8);
  }

  lemma SampleOfWords(vs: seq<int>, a: nat)
    requires a < |vs|
    ensures Sample(Words(vs), a) == vs[a] % 65536
  {
    SampleValue(Words(vs), a);
    WordsEncode(vs, a);
  }
}
