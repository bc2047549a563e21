/** The I2C bus adapter: every bus operation is a fixed command sent
    through the handler, answered by data bytes and an acknowledgement. */
module I2CBus {
  import opened Numeric
  import opened Outcomes
  import opened CommandsProto
  import opened PacketHandler

  /** The address byte of start and restart: `((address << 1) | rw) & 0xFF`. */
  function AddressByte(address: nat, rw: nat): byte
  {
    (Or(2 * address, rw) % 256) as byte
  }

  /** For a 7-bit address and a read/write bit, the address byte holds the
      address in its top seven bits and the read/write bit in bit 0. */
  lemma AddressByteFields(address: nat, rw: nat)
    requires address < 128 && rw < 2
    ensures AddressByte(address, rw) as int == 2 * address + rw
    ensures AddressByte(address, rw) / 2 == address as byte && AddressByte(address, rw) % 2 == rw as byte
  {
    assert Pow2(1) == 2;
    OrComm(2 * address, rw);
    OrDisjoint(rw, address, 1);
  }

  /** The baud-rate generator value config sends for a bus frequency:
      `int((1/freq - 1/1e7) * 64e6 - 1)`. */
  function Brg(freq: real): int
    requires freq != 0.0
  {
    Trunc((1.0 / freq - 1.0 / 10000000.0) * 64000000.0 - 1.0)
  }

  /** The bus frequency a generator value gives, as config's own comment
      states it: 1 / ((BRG + 1) / 64e6 + 1 / 1e7). */
  function BusFrequency(brg: nat): (f: real)
    ensures f > 0.0
  {
    1.0 / ((brg as real + 1.0) / 64000000.0 + 1.0 / 10000000.0)
  }

  /** The truncation only ever rounds the generator value down, so the bus
      runs at least as fast as asked. */
  lemma BrgNotSlower(freq: real)
    requires freq > 0.0 && (1.0 / freq - 1.0 / 10000000.0) * 64000000.0 >= 1.0
    ensures Brg(freq) >= 0 && BusFrequency(Brg(freq)) >= freq
  {
    var x := (1.0 / freq - 1.0 / 10000000.0) * 64000000.0 - 1.0;
    var b := Brg(freq);
    assert b as real <= x;
    var d := (b as real + 1.0) / 64000000.0 + 1.0 / 10000000.0;
    assert d <= (x + 1.0) / 64000000.0 + 1.0 / 10000000.0;
    assert (x + 1.0) / 64000000.0 + 1.0 / 10000000.0 == 1.0 / freq;
    ReciprocalAntitone(d, 1.0 / freq);
    assert 1.0 / (1.0 / freq) == freq;
  }

  lemma ReciprocalAntitone(a: real, b: real)
    requires 0.0 < a <= b
    ensures 1.0 / b <= 1.0 / a
  {
    assert (1.0 / b) * b == 1.0;
    assert (1.0 / a) * a == 1.0;
  }

  /** The two frequencies the driver itself uses: scan's default 100 kHz
      and the 40 kHz of the MPU6050. */
  lemma BrgOfDefaults()
    ensures Brg(100000.0) == 632 && Brg(40000.0) == 1592
  {
    assert (1.0 / 100000.0 - 1.0 / 10000000.0) * 64000000.0 - 1.0 == 632.6;
    assert (1.0 / 40000.0 - 1.0 / 10000000.0) * 64000000.0 - 1.0 == 1592.6;
  }

  // The bytes of each bus command.

  function ConfigCmd(freq: real): seq<byte>
    requires freq != 0.0
  {
    [I2C_HEADER, I2C_CONFIG] + Words([Brg(freq)])
  }

  function StartCmd(address: nat, rw: nat): seq<byte>
  {
    [I2C_HEADER, I2C_START, AddressByte(address, rw)]
  }

  function RestartCmd(address: nat, rw: nat): seq<byte>
  {
    [I2C_HEADER, I2C_RESTART, AddressByte(address, rw)]
  }

  function SendCmd(data: byte): seq<byte>
  {
    [I2C_HEADER, I2C_SEND, data]
  }

  /** The opening of a register read: start (or restart) in write mode,
      the register number, then restart in read mode. */
  function RegisterCmds(restartFirst: bool, address: nat, register: byte): (r: seq<byte>)
    ensures |r| == 9 && r[3..6] == SendCmd(register) && r[6..] == RestartCmd(address, 1)
  {
    (if restartFirst then RestartCmd(address, 0) else StartCmd(address, 0)) + SendCmd(register) + RestartCmd(address, 1)
  }

  const STOP_CMD: seq<byte> := [I2C_HEADER, I2C_STOP]
  const WAIT_CMD: seq<byte> := [I2C_HEADER, I2C_WAIT]
  const READ_MORE_CMD: seq<byte> := [I2C_HEADER, I2C_READ_MORE]
  const READ_END_CMD: seq<byte> := [I2C_HEADER, I2C_READ_END]
  const STATUS_CMD: seq<byte> := [I2C_HEADER, I2C_STATUS]

  /** The data bytes a register read of m bytes returns from state p,
      when the device answers it: round j's byte, after the three
      acknowledgements of the opening. */
  function RegisterReply(p: Port, m: nat): (r: seq<byte>)
    requires m >= 1 && Answers(p, m, m + 4)
    ensures |r| == m
    ensures !p.loadBurst ==> forall j :: 0 <= j < m ==> r[j] == p.incoming[3 + 2 * j]
    ensures p.loadBurst ==> r == p.incoming[..m]
  {
    ReadData(Drop(p.incoming, Needed(p, 0, 3)), p.loadBurst, m)
  }

  /** The steps of a register read compose: the device answers them all
      exactly when it answers each in turn, and their bytes follow one
      another. */
  lemma RegisterReadSteps(p: Port, head: seq<byte>, m: nat)
    requires m >= 1
    ensures var q := Xfer(p, head, 0, 3);
      var q2 := Xfer(q, ReadCmds(m - 1), m, m);
      q.loadBurst == p.loadBurst && q.incoming == Drop(p.incoming, Needed(p, 0, 3)) &&
      (Answers(p, m, m + 4) <==> Answers(p, 0, 3) && Answers(q, m, m) && Answers(q2, 0, 1)) &&
      Xfer(q2, STOP_CMD, 0, 1) == Xfer(p, head + ReadCmds(m - 1) + STOP_CMD, m, m + 4)
  {
    var q := Xfer(p, head, 0, 3);
    AnswersThen(p, head, 0, 3, m, m + 1);
    AnswersThen(q, ReadCmds(m - 1), m, m, 0, 1);
    XferThen(p, head, 0, 3, ReadCmds(m - 1), m, m);
    XferThen(p, head + ReadCmds(m - 1), m, m + 3, STOP_CMD, 0, 1);
  }

  /** The commands of k read_repeat calls. */
  function ReadMores(k: nat): (r: seq<byte>)
    ensures |r| == 2 * k
  {
    if k == 0 then [] else ReadMores(k - 1) + READ_MORE_CMD
  }

  /** The commands of read(n): n - 1 READ_MORE, then one READ_END. */
  function ReadCmds(more: nat): (r: seq<byte>)
    ensures |r| == 2 * more + 2
  {
    ReadMores(more) + READ_END_CMD
  }

  /** The state after a read_repeat rounds of read(), one after another. */
  function AfterReads(p: Port, a: nat): Port
  {
    if a == 0 then p else Xfer(AfterReads(p, a - 1), READ_MORE_CMD, 1, 1)
  }

  /** a rounds are one step with their commands joined. */
  lemma {:induction false} AfterReadsXfer(p: Port, a: nat)
    ensures AfterReads(p, a) == Xfer(p, ReadMores(a), a, a)
  {
    if a == 0 {
      assert p.written + [] == p.written && p.burstBuffer + [] == p.burstBuffer;
    } else {
      AfterReadsXfer(p, a - 1);
      XferThen(p, ReadMores(a - 1), a - 1, a - 1, READ_MORE_CMD, 1, 1);
    }
  }

  /** a rounds take a bytes from the stream in burst mode and 2a outside
      it, where an acknowledgement follows each data byte. */
  lemma {:induction false} AfterReadsStream(p: Port, a: nat)
    requires Place(p.loadBurst, a) <= |p.incoming|
    ensures AfterReads(p, a).loadBurst == p.loadBurst
    ensures AfterReads(p, a).incoming == p.incoming[Place(p.loadBurst, a)..]
  {
    if a > 0 {
      AfterReadsStream(p, a - 1);
      var s := p.incoming[Place(p.loadBurst, a - 1)..];
      assert s[Place(p.loadBurst, 1)..] == p.incoming[Place(p.loadBurst, a)..];
    }
  }

  /** The fault a read that runs out of stream ends with: the missing
      data byte when the stream ends at one (always in burst mode), the
      missing acknowledgement when it ends after a data byte. */
  function ReadFault(p: Port): (f: Fault)
    ensures f == CommunicationError || f == MissingAck
    ensures f == MissingAck <==> !p.loadBurst && |p.incoming| % 2 == 1
  {
    if p.loadBurst || |p.incoming| % 2 == 0 then CommunicationError else MissingAck
  }

  /** What round a of read() finds: its byte at position a of the data,
      and a stream that has run out fails at a data byte exactly when its
      length is even (or in burst mode, where no acknowledgement is read). */
  lemma ReadRound(p: Port, a: nat)
    requires Place(p.loadBurst, a) <= |p.incoming|
    ensures var q := AfterReads(p, a);
      q.loadBurst == p.loadBurst &&
      q.incoming == p.incoming[Place(p.loadBurst, a)..] &&
      (Answers(q, 1, 1) <==> Place(p.loadBurst, a + 1) <= |p.incoming|) &&
      (|q.incoming| > 0 ==> q.incoming[0] == p.incoming[Place(p.loadBurst, a)]) &&
      (|q.incoming| == 0 ==> p.loadBurst || |p.incoming| % 2 == 0) &&
      (|q.incoming| > 0 && !Answers(q, 1, 1) ==> !p.loadBurst && |p.incoming| % 2 == 1)
  {
    AfterReadsStream(p, a);
    if !p.loadBurst {
      assert |AfterReads(p, a).incoming| == |p.incoming| - 2 * a;
    }
  }

  /** The number of bytes read(length) returns: one per requested byte,
      and one even for a length of 0 or less. */
  function ReadCount(length: int): (n: nat)
    ensures n >= 1
    ensures length >= 1 ==> n == length
  {
    if length >= 1 then length else 1
  }

  /** Where data byte j of a read sits in the stream: every other byte when
      an acknowledgement follows each one, consecutively in burst mode. */
  function Place(burst: bool, j: nat): nat
  {
    if burst then j else 2 * j
  }

  /** The data bytes n rounds of reading take from the stream s. */
  function ReadData(s: seq<byte>, burst: bool, n: nat): (r: seq<byte>)
    requires n == 0 || Place(burst, n - 1) < |s|
    ensures |r| == n
  {
    seq(n, j requires 0 <= j < n => s[Place(burst, j)])
  }

  /** One more round reads the byte at the next place. */
  lemma ReadDataNext(s: seq<byte>, burst: bool, n: nat)
    requires Place(burst, n) < |s|
    ensures ReadData(s, burst, n + 1) == ReadData(s, burst, n) + [s[Place(burst, n)]]
  {
    var d, e := ReadData(s, burst, n), ReadData(s, burst, n + 1);
    assert forall j :: 0 <= j < n ==> e[j] == d[j];
  }

  /** The stream a device answering every round of a read sends back
      outside burst mode: each data byte followed by its acknowledgement. */
  function Interleave(data: seq<byte>, acks: seq<byte>): (s: seq<byte>)
    requires |acks| == |data|
    ensures |s| == 2 * |data|
  {
    seq(2 * |data|, j requires 0 <= j < 2 * |data| => if j % 2 == 0 then data[j / 2] else acks[j / 2])
  }

  /** read() takes back exactly the data bytes of such a stream, whatever
      the acknowledgements and whatever follows. */
  lemma ReadDataInterleaved(data: seq<byte>, acks: seq<byte>, rest: seq<byte>)
    requires |acks| == |data|
    ensures |data| == 0 || Place(false, |data| - 1) < |Interleave(data, acks) + rest|
    ensures ReadData(Interleave(data, acks) + rest, false, |data|) == data
  {
    var s := Interleave(data, acks) + rest;
    forall j | 0 <= j < |data|
      ensures s[Place(false, j)] == data[j]
    {
      assert (2 * j) % 2 == 0 && (2 * j) / 2 == j;
    }
  }

  /** The probe of one address in scan: start in write mode, then stop. */
  function Probe(a: nat): seq<byte>
  {
    StartCmd(a, 0) + STOP_CMD
  }

  function Probes(n: nat): seq<byte>
  {
    if n == 0 then [] else Probes(n - 1) + Probe(n - 1)
  }

  /** One more probe extends the probes before it. */
  lemma ProbeStep(q: Port, a: nat)
    ensures Xfer(Xfer(q, Probes(a), 0, 2 * a), Probe(a), 0, 2) == Xfer(q, Probes(a + 1), 0, 2 * (a + 1))
    ensures Xfer(q, Probes(a), 0, 2 * a).loadBurst == q.loadBurst
    ensures !q.loadBurst ==> Xfer(q, Probes(a), 0, 2 * a).incoming == Drop(q.incoming, 2 * a)
    ensures !q.loadBurst && 2 * a <= |q.incoming| ==>
      |Xfer(q, Probes(a), 0, 2 * a).incoming| == |q.incoming| - 2 * a &&
      (2 * a < |q.incoming| ==> Xfer(q, Probes(a), 0, 2 * a).incoming[0] == q.incoming[2 * a])
  {
    XferThen(q, Probes(a), 0, 2 * a, Probe(a), 0, 2);
  }

  /** The addresses below n whose start acknowledgement, in the stream s
      of acknowledgements (start, stop, start, ...), has bit 0 of its
      status nibble clear. */
  function Responders(s: seq<byte>, n: nat): (r: seq<nat>)
    requires 2 * n <= |s|
  {
    if n == 0 then []
    else Responders(s, n - 1) + (if (s[2 * (n - 1)] / 16) % 2 == 0 then [n - 1] else [])
  }

  /** scan reports each address at most once, in ascending order. */
  lemma {:induction false} RespondersAscending(s: seq<byte>, n: nat)
    requires 2 * n <= |s|
    ensures forall i, j :: 0 <= i < j < |Responders(s, n)| ==> Responders(s, n)[i] < Responders(s, n)[j]
    ensures forall i :: 0 <= i < |Responders(s, n)| ==> Responders(s, n)[i] < n
  {
    if n > 0 {
      RespondersAscending(s, n - 1);
    }
  }

  /** scan reports exactly the addresses that acknowledged. */
  lemma {:induction false} RespondersMembers(s: seq<byte>, n: nat, a: nat)
    requires 2 * n <= |s|
    ensures a in Responders(s, n) <==> a < n && (s[2 * a] / 16) % 2 == 0
  {
    if n > 0 {
      RespondersMembers(s, n - 1, a);
      if a == n - 1 {
        RespondersAscending(s, n - 1);
      }
    }
  }

  class I2C {
    const H: Handler

    constructor(h: Handler)
      ensures H == h
    {
      H := h;
    }

    /** config(freq): the generator value, then the acknowledgement.  A
        frequency of 0 fails in the division, after the two opcodes. */
    method Config(freq: real) returns (r: Result<()>)
      modifies H
      ensures freq == 0.0 ==> r == Err(ZeroDivision) && H.State() == Xfer(old(H.State()), [I2C_HEADER, I2C_CONFIG], 0, 0)
      ensures freq != 0.0 ==>
        H.State() == Xfer(old(H.State()), ConfigCmd(freq), 0, 1) &&
        (r.Ok? <==> Answers(old(H.State()), 0, 1)) && (r.Err? ==> r == Err(MissingAck))
    {
      if freq == 0.0 {
        H.SendBytes([I2C_HEADER, I2C_CONFIG]);
        return Err(ZeroDivision);
      }
      r := H.Command([I2C_HEADER, I2C_CONFIG], [Brg(freq)], []);
      assert ConfigCmd(freq) + [] == ConfigCmd(freq);
    }

    /** start(address, rw): the address byte, then `ack >> 4`. */
    method Start(address: nat, rw: nat) returns (r: Result<Ack>)
      modifies H
      ensures H.State() == Xfer(old(H.State()), StartCmd(address, rw), 0, 1)
      ensures r == StatusReply(old(H.State()))
    {
      var a :- H.Handshake(StartCmd(address, rw));
      r := Ok(a.Shifted());
    }

    /** restart(address, rw): as start, with the restart opcode. */
    method Restart(address: nat, rw: nat) returns (r: Result<Ack>)
      modifies H
      ensures H.State() == Xfer(old(H.State()), RestartCmd(address, rw), 0, 1)
      ensures r == StatusReply(old(H.State()))
    {
      var a :- H.Handshake(RestartCmd(address, rw));
      r := Ok(a.Shifted());
    }

    /** send(data): one data byte, then `ack >> 4`. */
    method Send(data: byte) returns (r: Result<Ack>)
      modifies H
      ensures H.State() == Xfer(old(H.State()), SendCmd(data), 0, 1)
      ensures r == StatusReply(old(H.State()))
    {
      var a :- H.Handshake(SendCmd(data));
      r := Ok(a.Shifted());
    }

    /** send_burst(data): three bytes and no acknowledgement. */
    method SendBurst(data: byte)
      modifies H
      ensures H.State() == Xfer(old(H.State()), [I2C_HEADER, I2C_SEND_BURST, data], 0, 0)
    {
      H.SendBytes([I2C_HEADER, I2C_SEND_BURST, data]);
    }

    method Stop() returns (r: Result<()>)
      modifies H
      ensures H.State() == Xfer(old(H.State()), STOP_CMD, 0, 1)
      ensures r.Ok? <==> Answers(old(H.State()), 0, 1)
      ensures r.Err? ==> r == Err(MissingAck)
    {
      r := H.Exchange(STOP_CMD);
    }

    method Wait() returns (r: Result<()>)
      modifies H
      ensures H.State() == Xfer(old(H.State()), WAIT_CMD, 0, 1)
      ensures r.Ok? <==> Answers(old(H.State()), 0, 1)
      ensures r.Err? ==> r == Err(MissingAck)
    {
      r := H.Exchange(WAIT_CMD);
    }

    /** read_repeat(): one byte read with acknowledge (READ_MORE). */
    method ReadRepeat() returns (r: Result<byte>)
      modifies H
      ensures |old(H.incoming)| == 0 ==> r == Err(CommunicationError) && H.State() == Xfer(old(H.State()), READ_MORE_CMD, 1, 0)
      ensures |old(H.incoming)| > 0 ==> H.State() == Xfer(old(H.State()), READ_MORE_CMD, 1, 1)
      ensures r.Ok? <==> Answers(old(H.State()), 1, 1)
      ensures r.Ok? ==> r.value == old(H.incoming)[0]
      ensures r.Err? && |old(H.incoming)| > 0 ==> r == Err(MissingAck)
    {
      r := H.ByteQuery(READ_MORE_CMD);
    }

    /** read_end(): the last byte, read with no-acknowledge (READ_END). */
    method ReadEnd() returns (r: Result<byte>)
      modifies H
      ensures |old(H.incoming)| == 0 ==> r == Err(CommunicationError) && H.State() == Xfer(old(H.State()), READ_END_CMD, 1, 0)
      ensures |old(H.incoming)| > 0 ==> H.State() == Xfer(old(H.State()), READ_END_CMD, 1, 1)
      ensures r.Ok? <==> Answers(old(H.State()), 1, 1)
      ensures r.Ok? ==> r.value == old(H.incoming)[0]
      ensures r.Err? && |old(H.incoming)| > 0 ==> r == Err(MissingAck)
    {
      r := H.ByteQuery(READ_END_CMD);
    }

    /** read(length): length - 1 bytes with acknowledge, then one with
        no-acknowledge; each byte is followed by the handler's
        acknowledgement.  A stream that runs out fails at the data byte
        (the fatal communication error) or at its acknowledgement. */
    method Read(length: int) returns (r: Result<seq<byte>>)
      modifies H
      ensures var p, m := old(H.State()), ReadCount(length);
        (r.Ok? <==> Answers(p, m, m)) &&
        (r.Ok? ==> H.State() == Xfer(p, ReadCmds(m - 1), m, m) && Place(p.loadBurst, m - 1) < |p.incoming| &&
                   r.value == ReadData(p.incoming, p.loadBurst, m))
      ensures r.Err? ==> r == Err(ReadFault(old(H.State())))
    {
      ghost var p := H.State();
      var m := ReadCount(length);
      var data :- ReadMany(m - 1);
      r := ReadLast(p, m - 1, data);
    }

    /** The read_end round of read(), after a read_repeat rounds. */
    method ReadLast(ghost p: Port, a: nat, data: seq<byte>) returns (r: Result<seq<byte>>)
      requires Place(p.loadBurst, a) <= |p.incoming|
      requires a == 0 || Place(p.loadBurst, a - 1) < |p.incoming|
      requires H.State() == Xfer(p, ReadMores(a), a, a)
      requires data == ReadData(p.incoming, p.loadBurst, a)
      modifies H
      ensures r.Ok? <==> Place(p.loadBurst, a + 1) <= |p.incoming|
      ensures r.Ok? ==>
        Place(p.loadBurst, a) < |p.incoming| && H.State() == Xfer(p, ReadCmds(a), a + 1, a + 1) &&
        r.value == ReadData(p.incoming, p.loadBurst, a + 1)
      ensures r.Err? ==> r == Err(ReadFault(p))
    {
      AfterReadsXfer(p, a);
      ReadRound(p, a);
      var v :- ReadEnd();
      XferThen(p, ReadMores(a), a, a, READ_END_CMD, 1, 1);
      ReadDataNext(p.incoming, p.loadBurst, a);
      r := Ok(data + [v]);
    }

    /** The loop of read(): k read_repeat rounds. */
    method ReadMany(k: nat) returns (r: Result<seq<byte>>)
      modifies H
      ensures var p := old(H.State());
        (r.Ok? <==> Answers(p, k, k)) &&
        (r.Ok? ==> H.State() == Xfer(p, ReadMores(k), k, k) && (k == 0 || Place(p.loadBurst, k - 1) < |p.incoming|) &&
                   r.value == ReadData(p.incoming, p.loadBurst, k))
      ensures r.Err? ==> r == Err(ReadFault(old(H.State())))
    {
      ghost var p := H.State();
      var data := [];
      for a := 0 to k
        invariant Place(p.loadBurst, a) <= |p.incoming|
        invariant a == 0 || Place(p.loadBurst, a - 1) < |p.incoming|
        invariant H.State() == AfterReads(p, a)
        invariant data == ReadData(p.incoming, p.loadBurst, a)
      {
        data :- ReadNext(p, a, data);
      }
      AfterReadsXfer(p, k);
      r := Ok(data);
    }

    /** Round a of read(): one read_repeat after the a before it. */
    method ReadNext(ghost p: Port, a: nat, data: seq<byte>) returns (r: Result<seq<byte>>)
      requires Place(p.loadBurst, a) <= |p.incoming|
      requires a == 0 || Place(p.loadBurst, a - 1) < |p.incoming|
      requires H.State() == AfterReads(p, a)
      requires data == ReadData(p.incoming, p.loadBurst, a)
      modifies H
      ensures r.Ok? <==> Place(p.loadBurst, a + 1) <= |p.incoming|
      ensures r.Ok? ==>
        Place(p.loadBurst, a) < |p.incoming| && H.State() == AfterReads(p, a + 1) &&
        r.value == ReadData(p.incoming, p.loadBurst, a + 1)
      ensures r.Err? ==> r == Err(ReadFault(p))
    {
      ReadRound(p, a);
      var v :- ReadRepeat();
      ReadDataNext(p.incoming, p.loadBurst, a);
      r := Ok(data + [v]);
    }

    /** read_status(): one 16-bit word, low byte first, then the
        acknowledgement. */
    method ReadStatus() returns (r: Result<int>)
      modifies H
      ensures |old(H.incoming)| < 2 ==> r == Err(CommunicationError) && H.State() == Xfer(old(H.State()), STATUS_CMD, 2, 0)
      ensures var p := old(H.State());
        2 <= |p.incoming| ==>
          H.State() == Xfer(p, STATUS_CMD, 2, 1) &&
          (r.Ok? <==> Answers(p, 2, 1)) && (r.Err? ==> r == Err(MissingAck)) &&
          (r.Ok? ==> r.value == StringToInt(p.incoming))
    {
      ghost var p := H.State();
      H.SendBytes(STATUS_CMD);
      ReadAfter(p, STATUS_CMD, 2);
      var v :- H.GetInt();
      AckAfterRead(p, STATUS_CMD, 2);
      var _ :- H.GetAck();
      r := Ok(v);
    }

    /** scan(frequency): config, then a start and a stop for each address
        0..127 in turn; the addresses whose status nibble has bit 0 clear
        are collected.  That test inspects the acknowledgement, which
        burst mode only queues. */
    method Scan(frequency: real) returns (r: Result<seq<nat>>)
      modifies H
      ensures var p := old(H.State());
        frequency == 0.0 ==> r == Err(ZeroDivision) && H.State() == Xfer(p, [I2C_HEADER, I2C_CONFIG], 0, 0)
      ensures var p := old(H.State());
        frequency != 0.0 && p.loadBurst ==>
          r == Err(QueuedAck) && H.State() == Xfer(p, ConfigCmd(frequency) + StartCmd(0, 0), 0, 2)
      ensures var p := old(H.State());
        frequency != 0.0 && !p.loadBurst ==>
          (r.Ok? <==> 257 <= |p.incoming|) && (r.Err? ==> r == Err(MissingAck)) &&
          (r.Ok? ==> H.State() == Xfer(p, ConfigCmd(frequency) + Probes(128), 0, 257) &&
                     r.value == Responders(p.incoming[1..], 128))
    {
      ghost var p := H.State();
      var _ :- Config(frequency);
      ghost var q := H.State();
      r := ProbeAll(128);
      if p.loadBurst {
        XferThen(p, ConfigCmd(frequency), 0, 1, StartCmd(0, 0), 0, 1);
      } else {
        XferThen(p, ConfigCmd(frequency), 0, 1, Probes(128), 0, 256);
        assert q.incoming == p.incoming[1..];
      }
    }

    /** scan's loop over the addresses below n (128 in scan), on whatever
        the configuration left. */
    method ProbeAll(n: nat) returns (r: Result<seq<nat>>)
      modifies H
      ensures var q := old(H.State());
        q.loadBurst && n > 0 ==> r == Err(QueuedAck) && H.State() == Xfer(q, StartCmd(0, 0), 0, 1)
      ensures var q := old(H.State());
        !q.loadBurst ==>
          (r.Ok? <==> 2 * n <= |q.incoming|) && (r.Err? ==> r == Err(MissingAck)) &&
          (r.Ok? ==> H.State() == Xfer(q, Probes(n), 0, 2 * n) && r.value == Responders(q.incoming, n))
    {
      ghost var q := H.State();
      var addrs := [];
      if H.loadBurst {
        if n == 0 {
          return Ok(addrs);
        }
        // the first status bit inspected is one burst mode only queued
        var _ := ProbeAddress(0);
        return Err(QueuedAck);
      }
      for a := 0 to n
        invariant 2 * a <= |q.incoming|
        invariant H.State() == Xfer(q, Probes(a), 0, 2 * a)
        invariant addrs == Responders(q.incoming, a)
      {
        addrs :- ProbeNext(q, a, addrs);
      }
      r := Ok(addrs);
    }

    /** One round of scan's loop, extending the addresses found so far. */
    method ProbeNext(ghost q: Port, a: nat, addrs: seq<nat>) returns (r: Result<seq<nat>>)
      requires !q.loadBurst && 2 * a <= |q.incoming|
      requires H.State() == Xfer(q, Probes(a), 0, 2 * a)
      requires addrs == Responders(q.incoming, a)
      modifies H
      ensures r.Ok? <==> 2 * (a + 1) <= |q.incoming|
      ensures r.Err? ==> r == Err(MissingAck)
      ensures r.Ok? ==>
        H.State() == Xfer(q, Probes(a + 1), 0, 2 * (a + 1)) && r.value == Responders(q.incoming, a + 1)
    {
      ProbeStep(q, a);
      var found :- ProbeAddress(a);
      r := Ok(if found then addrs + [a] else addrs);
    }

    /** One round of scan's loop: start(a, 0), the test of bit 0 of its
        status nibble, then stop. */
    method ProbeAddress(a: nat) returns (r: Result<bool>)
      modifies H
      ensures var p := old(H.State());
        p.loadBurst ==> r == Err(QueuedAck) && H.State() == Xfer(p, StartCmd(a, 0), 0, 1)
      ensures var p := old(H.State());
        !p.loadBurst ==>
          (r.Ok? <==> 2 <= |p.incoming|) && (r.Err? ==> r == Err(MissingAck)) &&
          (r.Ok? ==> H.State() == Xfer(p, Probe(a), 0, 2) && r.value == ((p.incoming[0] / 16) % 2 == 0))
    {
      ghost var p := H.State();
      var x :- Start(a, 0);
      if x.Queued? {
        return Err(QueuedAck);
      }
      var _ :- Stop();
      XferThen(p, StartCmd(a, 0), 0, 1, STOP_CMD, 0, 1);
      r := Ok(x.value % 2 == 0);
    }
  
    /** The register read the sensor adapters make: start (restart for the
        MPU6050) in write mode, send(register), restart in read mode,
        read(length), stop.  It succeeds exactly when the device answers
        every step, and then returns the data bytes of the read rounds. */
    method ReadRegisters(restartFirst: bool, address: nat, register: byte, length: int)
      returns (r: Result<seq<byte>>)
      modifies H
      ensures var p, m := old(H.State()), ReadCount(length);
        (r.Ok? <==> Answers(p, m, m + 4)) &&
        (r.Ok? ==>
          H.State() == Xfer(p, RegisterCmds(restartFirst, address, register) + ReadCmds(m - 1) + STOP_CMD, m, m + 4) &&
          r.value == RegisterReply(p, m))
      ensures r.Err? ==> r == Err(MissingAck) || r == Err(CommunicationError)
    {
      ghost var p := H.State();
      RegisterReadSteps(p, RegisterCmds(restartFirst, address, register), ReadCount(length));
      var _ :- OpenRegister(restartFirst, address, register);
      var vals :- Read(length);
      var _ :- Stop();
      r := Ok(vals);
    }

    /** The first three steps of a register read, each acknowledged. */
    method OpenRegister(restartFirst: bool, address: nat, register: byte) returns (r: Result<()>)
      modifies H
      ensures r.Ok? <==> Answers(old(H.State()), 0, 3)
      ensures r.Ok? ==> H.State() == Xfer(old(H.State()), RegisterCmds(restartFirst, address, register), 0, 3)
      ensures r.Err? ==> r == Err(MissingAck)
    {
      var frames: seq<seq<byte>> := [if restartFirst then RestartCmd(address, 0) else StartCmd(address, 0),
                     SendCmd(register), RestartCmd(address, 1)];
      assert Concat(frames) == RegisterCmds(restartFirst, address, register) by {
        var e: seq<seq<byte>> := [];
        assert e + [frames[0]] == [frames[0]] && Concat(e) == [];
        ConcatPush(e, frames[0]);
        assert [frames[0]] + [frames[1]] == [frames[0], frames[1]];
        ConcatPush([frames[0]], frames[1]);
        assert [frames[0], frames[1]] + [frames[2]] == frames;
        ConcatPush([frames[0], frames[1]], frames[2]);
      }
      r := H.Steps(frames);
    }
  }
}
