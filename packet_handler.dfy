/** The serial packet handler: byte and word transmission, the readers for
    device replies, and the deferred "burst" mode in which transmissions are
    collected in a buffer and acknowledgements are only counted, to be sent
    and read back in one go by SendBurst.

    The serial port is abstract: `written` is everything the host has put on
    the wire, `incoming` is what the device has still to deliver.  A read of
    n bytes returns the first min(n, |incoming|) of them, which is what a
    timed-out read on the real port does. */
module PacketHandler {
  import opened Numeric
  import opened Outcomes
  import opened CommandsProto

  /** What __get_ack__ yields: the byte the device answered with, or, in
      burst mode, nothing yet (the byte is queued for SendBurst). */
  datatype Ack = Received(value: byte) | Queued {
    /** ack >> 4: the status nibble that the bus adapters return. */
    function Shifted(): (a: Ack)
      ensures a.Received? <==> Received?
      ensures Received? ==> a.value == value / 16 && a.value < 16
    {
      if Received? then Received(value / 16) else Queued
    }
  }

  /** The handler's observable state at one point in time. */
  datatype Port = Port(written: seq<byte>, incoming: seq<byte>, burstBuffer: seq<byte>,
                       loadBurst: bool, inputQueueSize: nat)

  /** s after a read of n bytes: at most |s| of them can be taken. */
  function Drop(s: seq<byte>, n: nat): (r: seq<byte>)
    ensures |r| == |s| - Min(n, |s|)
    ensures n <= |s| ==> s == s[..n] + r
  {
    s[Min(n, |s|)..]
  }

  /** Two reads in a row take as much as one read of both lengths. */
  lemma DropDrop(s: seq<byte>, a: nat, b: nat)
    ensures Drop(Drop(s, a), b) == Drop(s, a + b)
  {
  }

  /** How many incoming bytes a step that reads `data` bytes and expects
      `acks` acknowledgements consumes from the port straight away. */
  function Needed(p: Port, data: nat, acks: nat): (n: nat)
    ensures n == data + acks || (p.loadBurst && n == data)
  {
    if p.loadBurst then data else data + acks
  }

  /** The state after a step that transmits `out`, reads `data` bytes and
      expects `acks` acknowledgements: in burst mode the bytes go to the
      buffer and the acknowledgements to the queue counter; otherwise the
      bytes go to the wire and the acknowledgements are read at once. */
  function Xfer(p: Port, out: seq<byte>, data: nat, acks: nat): (q: Port)
  {
    if p.loadBurst then
      p.(burstBuffer := p.burstBuffer + out, incoming := Drop(p.incoming, data),
         inputQueueSize := p.inputQueueSize + acks)
    else
      p.(written := p.written + out, incoming := Drop(p.incoming, data + acks))
  }

  /** Two steps in a row are one step with the transmissions joined and the
      reads added up. */
  lemma {:induction false} XferThen(p: Port, o1: seq<byte>, d1: nat, a1: nat,
                                    o2: seq<byte>, d2: nat, a2: nat)
    ensures Xfer(Xfer(p, o1, d1, a1), o2, d2, a2) == Xfer(p, o1 + o2, d1 + d2, a1 + a2)
  {
    var s := p.incoming;
    var n1, n2 := Needed(p, d1, a1), Needed(p, d2, a2);
    assert Drop(Drop(s, n1), n2) == Drop(s, n1 + n2);
    assert p.written + o1 + o2 == p.written + (o1 + o2);
    assert p.burstBuffer + o1 + o2 == p.burstBuffer + (o1 + o2);
  }

  /** A transmission followed by __get_ack__ is one step. */
  lemma AckAfter(p: Port, out: seq<byte>)
    ensures Xfer(Xfer(p, out, 0, 0), [], 0, 1) == Xfer(p, out, 0, 1)
  {
    assert p.written + out + [] == p.written + out;
    assert p.burstBuffer + out + [] == p.burstBuffer + out;
  }

  /** A transmission, a read of `data` bytes and __get_ack__ make one step,
      and so do the first two of them. */
  lemma ReadAfter(p: Port, out: seq<byte>, data: nat)
    ensures Xfer(Xfer(p, out, 0, 0), [], data, 0) == Xfer(p, out, data, 0)
    ensures Xfer(Xfer(Xfer(p, out, 0, 0), [], data, 0), [], 0, 1) == Xfer(p, out, data, 1)
  {
    assert p.written + out + [] == p.written + out;
    assert p.written + out + [] + [] == p.written + out;
    assert p.burstBuffer + out + [] == p.burstBuffer + out;
    assert p.burstBuffer + out + [] + [] == p.burstBuffer + out;
    DropDrop(p.incoming, data, 1);
  }

  /** A step that reads `data` bytes, when they were there, followed by
      __get_ack__ is one step, and the acknowledgement is there exactly
      when the combined step's bytes are. */
  lemma AckAfterRead(p: Port, out: seq<byte>, data: nat)
    requires data <= |p.incoming|
    ensures Xfer(Xfer(p, out, data, 0), [], 0, 1) == Xfer(p, out, data, 1)
    ensures Answers(Xfer(p, out, data, 0), 0, 1) <==> Answers(p, data, 1)
  {
    assert p.written + out + [] == p.written + out;
    assert p.burstBuffer + out + [] == p.burstBuffer + out;
    DropDrop(p.incoming, data, 1);
  }

  /** The device answers two steps in a row exactly when it answers the
      first and then, from what is left, the second. */
  lemma AnswersThen(p: Port, o1: seq<byte>, d1: nat, a1: nat, d2: nat, a2: nat)
    ensures Answers(p, d1 + d2, a1 + a2) <==> Answers(p, d1, a1) && Answers(Xfer(p, o1, d1, a1), d2, a2)
  {
  }

  /** Once the stream has run out, reading further takes nothing more. */
  lemma ReadPast(p: Port, d1: nat, d2: nat)
    requires |p.incoming| <= d1 <= d2
    ensures Xfer(p, [], d1, 0) == Xfer(p, [], d2, 0)
  {
  }

  /** The bytes of a run of __sendInt__ calls: each word low byte first. */
  function Words(vs: seq<int>): (r: seq<byte>)
    ensures |r| == 2 * |vs|
  {
    if vs == [] then [] else Words(vs[..|vs| - 1]) + IntToString(vs[|vs| - 1])
  }

  /** Bytes 2i and 2i + 1 of a run of words are word i modulo 2^16, low
      byte first. */
  lemma {:induction false} WordsEncode(vs: seq<int>, i: nat)
    requires i < |vs|
    ensures var r := Words(vs);
      r[2 * i] as int + 256 * r[2 * i + 1] as int == vs[i] % 65536
  {
    var init := vs[..|vs| - 1];
    if i < |vs| - 1 {
      WordsEncode(init, i);
      assert Words(vs)[2 * i] == Words(init)[2 * i];
      assert Words(vs)[2 * i + 1] == Words(init)[2 * i + 1];
    }
  }

  /** One more word: the bytes of the first k + 1 words are those of the
      first k followed by the last word's two bytes. */
  lemma WordsStep(vs: seq<int>, k: nat)
    requires k < |vs|
    ensures Words(vs[..k + 1]) == Words(vs[..k]) + IntToString(vs[k])
  {
    var u := vs[..k + 1];
    assert u[..|u| - 1] == vs[..k];
  }

  /** The first n words of s as a run of __getInt__ calls decodes them. */
  function Ints(s: seq<byte>, n: nat): (r: seq<int>)
    requires 2 * n <= |s|
    ensures |r| == n
    ensures forall j :: 0 <= j < n ==> r[j] == StringToInt(s[2 * j..])
  {
    if n == 0 then [] else Ints(s, n - 1) + [StringToInt(s[2 * (n - 1)..])]
  }

  /** Words sent with __sendInt__ read back with __getInt__ as themselves
      modulo 2^16. */
  lemma IntsOfWords(vs: seq<int>)
    ensures forall j :: 0 <= j < |vs| ==> Ints(Words(vs), |vs|)[j] == vs[j] % 65536
  {
    forall j | 0 <= j < |vs|
      ensures Ints(Words(vs), |vs|)[j] == vs[j] % 65536
    {
      WordsEncode(vs, j);
    }
  }

  /** A write straight to the port (fd.write), which bypasses the burst
      buffer even in burst mode. */
  function Direct(p: Port, out: seq<byte>): (q: Port)
    ensures !p.loadBurst ==> q == Xfer(p, out, 0, 0)
    ensures q.incoming == p.incoming && q.burstBuffer == p.burstBuffer && q.loadBurst == p.loadBurst
  {
    p.(written := p.written + out)
  }

  /** The device has delivered everything a step reads straight away. */
  predicate Answers(p: Port, data: nat, acks: nat)
  {
    Needed(p, data, acks) <= |p.incoming|
  }

  /** A step that only transmits leaves what the device has delivered. */
  lemma SendKeepsAnswers(p: Port, out: seq<byte>, data: nat, acks: nat)
    ensures Xfer(p, out, 0, 0).incoming == p.incoming && Xfer(p, out, 0, 0).loadBurst == p.loadBurst
    ensures Answers(Xfer(p, out, 0, 0), data, acks) <==> Answers(p, data, acks)
  {
    assert p.incoming[0..] == p.incoming;
  }

  /** Outside burst mode nothing is ever left in the buffer or the queue. */
  ghost predicate Settled(p: Port)
  {
    !p.loadBurst ==> p.burstBuffer == [] && p.inputQueueSize == 0
  }

  lemma {:induction false} XferSettled(p: Port, out: seq<byte>, data: nat, acks: nat)
    requires Settled(p)
    ensures Settled(Xfer(p, out, data, acks))
  {
  }

  /** The bytes of a run of steps, one after the other. */
  function Concat(fs: seq<seq<byte>>): (r: seq<byte>)
  {
    if fs == [] then [] else Concat(fs[..|fs| - 1]) + fs[|fs| - 1]
  }

  lemma ConcatPush(fs: seq<seq<byte>>, f: seq<byte>)
    ensures Concat(fs + [f]) == Concat(fs) + f
  {
    assert (fs + [f])[..|fs|] == fs;
  }

  /** The bytes of two runs of steps are those of the first, then those of
      the second. */
  lemma {:induction false} ConcatJoin(fs: seq<seq<byte>>, gs: seq<seq<byte>>)
    ensures Concat(fs + gs) == Concat(fs) + Concat(gs)
    decreases |gs|
  {
    if gs == [] {
      assert fs + gs == fs;
    } else {
      var g, last := gs[..|gs| - 1], gs[|gs| - 1];
      assert gs == g + [last];
      assert fs + gs == (fs + g) + [last];
      ConcatPush(fs + g, last);
      ConcatPush(g, last);
      ConcatJoin(fs, g);
    }
  }

  /** What __get_ack__ yields in state p: the next incoming byte, a queued
      acknowledgement in burst mode, or the failure of an empty read. */
  function AckReply(p: Port): (r: Result<Ack>)
    ensures r.Err? <==> !p.loadBurst && |p.incoming| == 0
    ensures r.Ok? ==> (r.value.Received? <==> !p.loadBurst)
    ensures r.Ok? && r.value.Received? ==> |p.incoming| > 0 && r.value.value == p.incoming[0]
  {
    if p.loadBurst then Ok(Queued)
    else if |p.incoming| > 0 then Ok(Received(p.incoming[0]))
    else Err(MissingAck)
  }

  /** `__get_ack__() >> 4`: the status nibble of the acknowledgement. */
  function StatusReply(p: Port): (r: Result<Ack>)
    ensures r.Err? <==> !p.loadBurst && |p.incoming| == 0
    ensures r.Ok? ==> (r.value.Received? <==> !p.loadBurst)
    ensures r.Ok? && r.value.Received? ==> |p.incoming| > 0 && r.value.value == p.incoming[0] / 16 < 16
  {
    match AckReply(p)
    case Ok(a) => Ok(a.Shifted())
    case Err(f) => Err(f)
  }

  class Handler {
    /** Bytes put on the wire so far. */
    var written: seq<byte>
    /** Number of fd.write calls so far. */
    var writeCalls: nat
    /** Replies the device has still to deliver. */
    var incoming: seq<byte>
    var burstBuffer: seq<byte>
    var loadBurst: bool
    var inputQueueSize: nat

    function State(): Port
      reads this
    {
      Port(written, incoming, burstBuffer, loadBurst, inputQueueSize)
    }

    /** A handler on an open port whose device will answer with `replies`;
        burst mode off, nothing buffered or queued. */
    constructor(replies: seq<byte>)
      ensures State() == Port([], replies, [], false, 0)
      ensures Settled(State())
      ensures writeCalls == 0
    {
      written, writeCalls, incoming := [], 0, replies;
      burstBuffer, loadBurst, inputQueueSize := [], false, 0;
    }

    /** `loadBurst = True`: from now on transmissions are collected. */
    method BeginBurst()
      modifies this
      ensures State() == old(State()).(loadBurst := true)
      ensures writeCalls == old(writeCalls)
    {
      loadBurst := true;
    }

    /** fd.write(s) */
    method Write(s: seq<byte>)
      modifies this
      ensures State() == old(State()).(written := old(written) + s)
      ensures writeCalls == old(writeCalls) + 1
    {
      written := written + s;
      writeCalls := writeCalls + 1;
    }

    /** fd.read(n) */
    method Read(n: nat) returns (s: seq<byte>)
      modifies this
      ensures s == old(incoming)[..Min(n, |old(incoming)|)]
      ensures old(incoming) == s + incoming
      ensures State() == old(State()).(incoming := Drop(old(incoming), n))
      ensures State() == Xfer(old(State()), [], n, 0)
      ensures writeCalls == old(writeCalls)
    {
      s := incoming[..Min(n, |incoming|)];
      incoming := Drop(incoming, n);
    }

    /** __sendByte__(val) for an int val: one byte, to the wire or the buffer. */
    method SendByte(v: byte)
      modifies this
      ensures State() == Xfer(old(State()), [v], 0, 0)
      ensures writeCalls == old(writeCalls) + (if old(loadBurst) then 0 else 1)
    {
      if !loadBurst {
        Write([v]);
      } else {
        burstBuffer := burstBuffer + [v];
      }
    }

    /** A run of __sendByte__ calls, one per byte of bs. */
    method SendBytes(bs: seq<byte>)
      modifies this
      ensures State() == Xfer(old(State()), bs, 0, 0)
      ensures writeCalls == old(writeCalls) + (if old(loadBurst) then 0 else |bs|)
    {
      var k := 0;
      while k < |bs|
        invariant 0 <= k <= |bs|
        invariant State() == Xfer(old(State()), bs[..k], 0, 0)
        invariant writeCalls == old(writeCalls) + (if old(loadBurst) then 0 else k)
      {
        SendByte(bs[k]);
        assert bs[..k + 1] == bs[..k] + [bs[k]];
        k := k + 1;
      }
      assert bs[..k] == bs;
    }

    /** A run of __sendInt__ calls, one per word of vs. */
    method SendInts(vs: seq<int>)
      modifies this
      ensures State() == Xfer(old(State()), Words(vs), 0, 0)
      ensures writeCalls == old(writeCalls) + (if old(loadBurst) then 0 else |vs|)
    {
      var k := 0;
      while k < |vs|
        invariant 0 <= k <= |vs|
        invariant State() == Xfer(old(State()), Words(vs[..k]), 0, 0)
        invariant writeCalls == old(writeCalls) + (if old(loadBurst) then 0 else k)
      {
        SendInt(vs[k]);
        WordsStep(vs, k);
        k := k + 1;
      }
      assert vs[..k] == vs;
    }

    /** A run of __sendByte__ calls, a run of __sendInt__ calls and another
        run of __sendByte__ calls, as most commands are framed. */
    method SendFrame(head: seq<byte>, words: seq<int>, tail: seq<byte>)
      modifies this
      ensures State() == Xfer(old(State()), head + Words(words) + tail, 0, 0)
      ensures writeCalls == old(writeCalls) + (if old(loadBurst) then 0 else |head| + |words| + |tail|)
    {
      ghost var p := State();
      SendBytes(head);
      SendInts(words);
      XferThen(p, head, 0, 0, Words(words), 0, 0);
      ghost var q := State();
      SendBytes(tail);
      XferThen(p, head + Words(words), 0, 0, tail, 0, 0);
    }

    /** A framed command followed by __get_ack__: the step a setter makes. */
    method Command(head: seq<byte>, words: seq<int>, tail: seq<byte>) returns (r: Result<()>)
      modifies this
      ensures State() == Xfer(old(State()), head + Words(words) + tail, 0, 1)
      ensures r.Ok? <==> Answers(old(State()), 0, 1)
      ensures r.Err? ==> r == Err(MissingAck)
      ensures writeCalls == old(writeCalls) + (if old(loadBurst) then 0 else |head| + |words| + |tail|)
    {
      ghost var p := State();
      SendFrame(head, words, tail);
      ghost var f := head + Words(words) + tail;
      AckAfter(p, f);
      assert State() == Xfer(p, f, 0, 0);
      var _ :- GetAck();
      r := Ok(());
    }

    /** A framed request answered by fd.read(n), which returns fewer bytes
        when fewer have arrived, and then __get_ack__. */
    method ChunkQuery(head: seq<byte>, words: seq<int>, n: nat) returns (r: Result<seq<byte>>)
      modifies this
      ensures State() == Xfer(old(State()), head + Words(words), n, 1)
      ensures r.Ok? <==> old(loadBurst) || n < |old(incoming)|
      ensures r.Ok? ==> r.value == old(incoming)[..Min(n, |old(incoming)|)]
      ensures r.Err? ==> r == Err(MissingAck)
    {
      ghost var p := State();
      ghost var f := head + Words(words);
      SendFrame(head, words, []);
      assert f + [] == f;
      assert incoming == p.incoming && loadBurst == p.loadBurst;
      ReadAfter(p, f, n);
      var d := Read(n);
      assert State() == Xfer(Xfer(p, f, 0, 0), [], n, 0);
      assert |incoming| > 0 <==> n < |p.incoming|;
      var _ :- GetAck();
      r := Ok(d);
    }

    /** A run of __sendByte__ calls followed by __get_ack__. */
    method Exchange(frame: seq<byte>) returns (r: Result<()>)
      modifies this
      ensures State() == Xfer(old(State()), frame, 0, 1)
      ensures r.Ok? <==> Answers(old(State()), 0, 1)
      ensures r.Err? ==> r == Err(MissingAck)
      ensures writeCalls == old(writeCalls) + (if old(loadBurst) then 0 else |frame|)
    {
      ghost var p := State();
      SendBytes(frame);
      AckAfter(p, frame);
      var _ :- GetAck();
      r := Ok(());
    }

    /** A run of __sendByte__ calls followed by __get_ack__, whose value
        is returned. */
    method Handshake(frame: seq<byte>) returns (r: Result<Ack>)
      modifies this
      ensures State() == Xfer(old(State()), frame, 0, 1)
      ensures r == AckReply(old(State()))
    {
      ghost var p := State();
      SendBytes(frame);
      AckAfter(p, frame);
      r := GetAck();
    }

    /** A run of command-and-acknowledge steps, such as a bus adapter's
        start, send and stop calls: each step's bytes, then its
        acknowledgement. The first missing acknowledgement ends the run,
        after the step it belongs to. */
    method Steps(frames: seq<seq<byte>>) returns (r: Result<()>)
      modifies this
      ensures r.Ok? <==> Answers(old(State()), 0, |frames|)
      ensures r.Ok? ==> State() == Xfer(old(State()), Concat(frames), 0, |frames|)
      ensures r.Err? ==> (r == Err(MissingAck) && !old(loadBurst) &&
        var k := |old(incoming)|;
        k < |frames| && State() == Xfer(old(State()), Concat(frames[..k + 1]), 0, k + 1))
    {
      ghost var p := State();
      for k := 0 to |frames|
        invariant Answers(p, 0, k)
        invariant State() == Xfer(p, Concat(frames[..k]), 0, k)
      {
        ghost var q := State();
        ghost var done := Concat(frames[..k]);
        var a := Exchange(frames[k]);
        XferThen(p, done, 0, k, frames[k], 0, 1);
        assert frames[..k + 1][..k] == frames[..k];
        assert Concat(frames[..k + 1]) == done + frames[k];
        AnswersThen(p, done, 0, k, 0, 1);
        if a.Err? {
          assert !p.loadBurst && |p.incoming| == k;
          return Err(MissingAck);
        }
      }
      assert frames[..|frames|] == frames;
      r := Ok(());
    }

    /** __sendInt__(val): the 16-bit word, low byte first. */
    method SendInt(v: int)
      modifies this
      ensures State() == Xfer(old(State()), IntToString(v), 0, 0)
      ensures writeCalls == old(writeCalls) + (if old(loadBurst) then 0 else 1)
    {
      if !loadBurst {
        Write(IntToString(v));
      } else {
        burstBuffer := burstBuffer + IntToString(v);
      }
    }

    /** __get_ack__: one byte read at once, or in burst mode one more
        acknowledgement queued and nothing read. An empty read makes ord()
        fail. */
    method GetAck() returns (r: Result<Ack>)
      modifies this
      ensures State() == Xfer(old(State()), [], 0, 1)
      ensures writeCalls == old(writeCalls)
      ensures old(loadBurst) ==> r == Ok(Queued)
      ensures !old(loadBurst) && |old(incoming)| > 0 ==> r == Ok(Received(old(incoming)[0]))
      ensures !old(loadBurst) && |old(incoming)| == 0 ==> r == Err(MissingAck)
    {
      if !loadBurst {
        var x := Read(1);
        if x == [] {
          return Err(MissingAck);
        }
        r := Ok(Received(x[0]));
      } else {
        inputQueueSize := inputQueueSize + 1;
        r := Ok(Queued);
      }
    }

    /** __getByte__: one byte, or the fatal communication error on an empty
        read. The read happens in burst mode too. */
    method GetByte() returns (r: Result<byte>)
      modifies this
      ensures State() == Xfer(old(State()), [], 1, 0)
      ensures writeCalls == old(writeCalls)
      ensures |old(incoming)| > 0 ==> r == Ok(old(incoming)[0])
      ensures |old(incoming)| == 0 ==> r == Err(CommunicationError)
    {
      var ss := Read(1);
      if |ss| == 0 {
        return Err(CommunicationError);
      }
      r := Ok(ss[0]);
    }

    /** __getInt__: two bytes, low first, or the fatal communication error
        on a short read (which still consumes what arrived). */
    method GetInt() returns (r: Result<int>)
      modifies this
      ensures State() == Xfer(old(State()), [], 2, 0)
      ensures writeCalls == old(writeCalls)
      ensures r.Ok? <==> |old(incoming)| >= 2
      ensures r.Ok? ==> r.value == StringToInt(old(incoming)) && 0 <= r.value < 65536
      ensures r.Err? ==> r.fault == CommunicationError
    {
      var ss := Read(2);
      if |ss| != 2 {
        return Err(CommunicationError);
      }
      r := Ok(StringToInt(ss));
    }

    /** __getLong__: four bytes, low first; a short read gives -1 and is
        not fatal. */
    method GetLong() returns (r: int)
      modifies this
      ensures State() == Xfer(old(State()), [], 4, 0)
      ensures writeCalls == old(writeCalls)
      ensures |old(incoming)| >= 4 ==> r == StringToLong(old(incoming))
      ensures |old(incoming)| < 4 ==> r == -1
    {
      var ss := Read(4);
      if |ss| == 4 {
        r := StringToLong(ss);
      } else {
        r := -1;
      }
    }

    /** __getLong__, __getLong__ and __getInt__ in a row: the reply of an
        interval measurement, ten bytes in all. */
    method GetInterval() returns (r: Result<(int, int, int)>)
      modifies this
      ensures State() == Xfer(old(State()), [], 10, 0)
      ensures writeCalls == old(writeCalls)
      ensures r.Ok? <==> |old(incoming)| >= 10
      ensures r.Ok? ==> var s := old(incoming);
        r.value == (StringToLong(s), StringToLong(s[4..]), StringToInt(s[8..]))
      ensures r.Err? ==> r.fault == CommunicationError
    {
      var a := GetLong();
      var b := GetLong();
      var tmt :- GetInt();
      r := Ok((a, b, tmt));
    }

    /** A count byte read with __getByte__, then fd.read(count) when the
        count is not zero, which returns fewer bytes when fewer arrived. */
    method CountedRead() returns (r: Result<seq<byte>>)
      modifies this
      ensures |old(incoming)| == 0 ==> r == Err(CommunicationError) && State() == Xfer(old(State()), [], 1, 0)
      ensures var s := old(incoming);
        |s| > 0 ==> r == Ok(s[1..Min(1 + s[0] as int, |s|)]) && State() == Xfer(old(State()), [], 1 + s[0] as int, 0)
    {
      ghost var p := State();
      var count :- GetByte();
      if count == 0 {
        assert p.incoming[1..Min(1 + p.incoming[0] as int, |p.incoming|)] == [];
        return Ok([]);
      }
      assert incoming == p.incoming[1..];
      var data := Read(count);
      XferThen(p, [], 1, 0, [], count, 0);
      ghost var e: seq<byte> := [];
      assert e + e == e;
      assert data == p.incoming[1..Min(1 + count as int, |p.incoming|)];
      r := Ok(data);
    }

    /** A command that reads one byte (__getByte__) before its
        acknowledgement. */
    method ByteQuery(head: seq<byte>) returns (r: Result<byte>)
      modifies this
      ensures |old(incoming)| == 0 ==> r == Err(CommunicationError) && State() == Xfer(old(State()), head, 1, 0)
      ensures |old(incoming)| > 0 ==> State() == Xfer(old(State()), head, 1, 1)
      ensures r.Ok? <==> Answers(old(State()), 1, 1)
      ensures r.Ok? ==> r.value == old(incoming)[0]
      ensures r.Err? && |old(incoming)| > 0 ==> r == Err(MissingAck)
    {
      ghost var p := State();
      ReadAfter(p, head, 1);
      SendBytes(head);
      var b :- GetByte();
      var _ :- GetAck();
      r := Ok(b);
    }

    /** A framed command answered by an interval reply (GetInterval). */
    method IntervalRequest(head: seq<byte>, words: seq<int>, tail: seq<byte>) returns (r: Result<(int, int, int)>)
      modifies this
      ensures State() == Xfer(old(State()), head + Words(words) + tail, 10, 0)
      ensures r.Ok? <==> |old(incoming)| >= 10
      ensures r.Ok? ==> var s := old(incoming);
        r.value == (StringToLong(s), StringToLong(s[4..]), StringToInt(s[8..]))
      ensures r.Err? ==> r.fault == CommunicationError
    {
      ghost var p := State();
      SendFrame(head, words, tail);
      ReadAfter(p, head + Words(words) + tail, 10);
      r := GetInterval();
    }

    /** The request, then __get_ack__ when the reply was complete. */
    method IntervalQuery(head: seq<byte>, words: seq<int>, tail: seq<byte>) returns (r: Result<(int, int, int)>)
      modifies this
      ensures var p, frame := old(State()), head + Words(words) + tail;
        |p.incoming| < 10 ==> r == Err(CommunicationError) && State() == Xfer(p, frame, 10, 0)
      ensures var p, frame := old(State()), head + Words(words) + tail;
        |p.incoming| >= 10 ==> State() == Xfer(p, frame, 10, 1) && (r.Ok? <==> Answers(p, 10, 1))
      ensures var s := old(incoming);
        r.Ok? ==> r.value == (StringToLong(s), StringToLong(s[4..]), StringToInt(s[8..]))
    {
      ghost var p, frame := State(), head + Words(words) + tail;
      var reply :- IntervalRequest(head, words, tail);
      AckAfterRead(p, frame, 10);
      var _ :- GetAck();
      r := Ok(reply);
    }

    /** n __getInt__ calls in a row, as a list comprehension makes them; a
        short read is the fatal communication error. */
    method GetInts(n: nat) returns (r: Result<seq<int>>)
      modifies this
      ensures State() == Xfer(old(State()), [], 2 * n, 0)
      ensures r.Ok? <==> 2 * n <= |old(incoming)|
      ensures r.Ok? ==> r.value == Ints(old(incoming), n)
      ensures r.Ok? ==> incoming == old(incoming)[2 * n..]
      ensures r.Err? ==> r == Err(CommunicationError)
    {
      ghost var p := State();
      var vs: seq<int> := [];
      for k := 0 to n
        invariant 2 * k <= |p.incoming| && incoming == p.incoming[2 * k..]
        invariant written == p.written && burstBuffer == p.burstBuffer
        invariant loadBurst == p.loadBurst && inputQueueSize == p.inputQueueSize
        invariant vs == Ints(p.incoming, k)
      {
        ghost var q := State();
        assert p.written + [] == p.written && p.burstBuffer + [] == p.burstBuffer;
        assert q == Xfer(p, [], 2 * k, 0);
        var v := GetInt();
        if v.Err? {
          XferThen(p, [], 2 * k, 0, [], 2, 0);
          ReadPast(p, 2 * k + 2, 2 * n);
          return Err(CommunicationError);
        }
        vs := vs + [v.value];
      }
      assert p.written + [] == p.written && p.burstBuffer + [] == p.burstBuffer;
      r := Ok(vs);
    }

    /** A framed request followed by fd.read(n), which returns fewer bytes
        when fewer have arrived. */
    method Request(head: seq<byte>, words: seq<int>, tail: seq<byte>, n: nat) returns (s: seq<byte>)
      modifies this
      ensures State() == Xfer(old(State()), head + Words(words) + tail, n, 0)
      ensures s == old(incoming)[..Min(n, |old(incoming)|)]
    {
      ghost var p := State();
      SendFrame(head, words, tail);
      ReadAfter(p, head + Words(words) + tail, n);
      s := Read(n);
    }

    /** A framed request answered by n words read with __getInt__, then
        __get_ack__. */
    method IntsQuery(head: seq<byte>, words: seq<int>, tail: seq<byte>, n: nat) returns (r: Result<seq<int>>)
      modifies this
      ensures |old(incoming)| < 2 * n ==>
        r == Err(CommunicationError) && State() == Xfer(old(State()), head + Words(words) + tail, 2 * n, 0)
      ensures var p := old(State());
        2 * n <= |p.incoming| ==>
          State() == Xfer(p, head + Words(words) + tail, 2 * n, 1) &&
          (r.Ok? <==> Answers(p, 2 * n, 1)) &&
          (r.Ok? ==> r.value == Ints(p.incoming, n)) && (r.Err? ==> r == Err(MissingAck))
    {
      ghost var p, f := State(), head + Words(words) + tail;
      SendFrame(head, words, tail);
      ReadAfter(p, f, 2 * n);
      var vs := GetInts(n);
      assert State() == Xfer(p, f, 2 * n, 0);
      if vs.Err? {
        return Err(CommunicationError);
      }
      AckAfterRead(p, f, 2 * n);
      var _ :- GetAck();
      r := Ok(vs.value);
    }

    /** n __getInt__ calls and one __getByte__ call in a row. */
    method GetIntsByte(n: nat) returns (r: Result<(seq<int>, byte)>)
      modifies this
      ensures State() == Xfer(old(State()), [], 2 * n + 1, 0)
      ensures r.Ok? <==> 2 * n + 1 <= |old(incoming)|
      ensures r.Ok? ==> r.value == (Ints(old(incoming), n), old(incoming)[2 * n])
      ensures r.Err? ==> r == Err(CommunicationError)
    {
      ghost var p := State();
      var vs := GetInts(n);
      if vs.Err? {
        ReadPast(p, 2 * n, 2 * n + 1);
        return Err(CommunicationError);
      }
      var b := GetByte();
      XferThen(p, [], 2 * n, 0, [], 1, 0);
      if b.Err? {
        return Err(CommunicationError);
      }
      r := Ok((vs.value, b.value));
    }

    /** A request answered by n words read with __getInt__ and one byte read
        with __getByte__, then __get_ack__. */
    method IntsByteQuery(head: seq<byte>, n: nat) returns (r: Result<(seq<int>, byte)>)
      modifies this
      ensures |old(incoming)| < 2 * n + 1 ==>
        r == Err(CommunicationError) && State() == Xfer(old(State()), head, 2 * n + 1, 0)
      ensures var p := old(State());
        2 * n + 1 <= |p.incoming| ==>
          State() == Xfer(p, head, 2 * n + 1, 1) &&
          (r.Ok? <==> Answers(p, 2 * n + 1, 1)) &&
          (r.Ok? ==> r.value == (Ints(p.incoming, n), p.incoming[2 * n])) && (r.Err? ==> r == Err(MissingAck))
    {
      ghost var p := State();
      SendBytes(head);
      ReadAfter(p, head, 2 * n + 1);
      var reply := GetIntsByte(n);
      assert State() == Xfer(p, head, 2 * n + 1, 0);
      if reply.Err? {
        assert |p.incoming| < 2 * n + 1;
        return Err(CommunicationError);
      }
      assert 2 * n + 1 <= |p.incoming|;
      assert reply.value == (Ints(p.incoming, n), p.incoming[2 * n]);
      AckAfterRead(p, head, 2 * n + 1);
      var _ :- GetAck();
      r := Ok(reply.value);
    }

    /** sendBurst: the collected bytes in one write, then exactly as many
        bytes read as acknowledgements were queued; buffer, flag and counter
        reset. The acknowledgements come back in arrival order. */
    method SendBurst() returns (acks: seq<byte>)
      modifies this
      ensures written == old(written) + old(burstBuffer)
      ensures writeCalls == old(writeCalls) + 1
      ensures burstBuffer == [] && !loadBurst && inputQueueSize == 0
      ensures acks == old(incoming)[..Min(old(inputQueueSize), |old(incoming)|)]
      ensures incoming == Drop(old(incoming), old(inputQueueSize))
      ensures old(incoming) == acks + incoming
      ensures Settled(State())
    {
      Write(burstBuffer);
      burstBuffer := [];
      loadBurst := false;
      acks := Read(inputQueueSize);
      inputQueueSize := 0;
    }

    /** send_char(c): relays c through the second UART. */
    method SendChar(c: byte) returns (r: Result<()>)
      modifies this
      ensures State() == Xfer(old(State()), [UART_2, SEND_CHAR, c], 0, 1)
      ensures r.Ok? <==> Needed(old(State()), 0, 1) <= |old(incoming)|
    {
      r := Exchange([UART_2, SEND_CHAR, c]);
    }
  }
}
