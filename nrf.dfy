/** The NRF24L01 radio on the add-on port: every operation is an NRFL01
    command through the handler, answered by an acknowledgement whose high
    nibble is the radio's status.  The object keeps the payload sizes it
    last configured. */
module NRF24L01 {
  import opened Numeric
  import opened Outcomes
  import opened CommandsProto
  import opened PacketHandler

  // Radio commands and registers.
  const TX_PAYLOAD: byte := 0xA0
  const ACK_PAYLOAD: byte := 0xA8
  const EN_AA: byte := 0x01
  const EN_RXADDR: byte := 0x02
  const RF_CH: byte := 0x05
  const RF_SETUP: byte := 0x06
  const SETUP_RETR: byte := 0x04
  const RX_ADDR_P0: byte := 0x0A
  const RX_ADDR_P1: byte := 0x0B
  const TX_ADDR: byte := 0x10
  const RX_PW_P0: byte := 0x11
  const DYNPD: byte := 0x1C
  const FEATURE: byte := 0x1D

  /** The address a receiver listens on when none is given. */
  const DEFAULT_ADDRESS: int := 0xA523B5
  /** The most data bytes an acknowledgement payload carries. */
  const MAX_ACK_PAYLOAD: nat := 15

  const SETUP_CMD: seq<byte> := [NRFL01, NRF_SETUP]
  const RXMODE_CMD: seq<byte> := [NRFL01, NRF_RXMODE]
  const TXMODE_CMD: seq<byte> := [NRFL01, NRF_TXMODE]
  const FLUSH_CMD: seq<byte> := [NRFL01, NRF_FLUSH]

  function WriteRegisterCmd(address: byte, value: byte): seq<byte>
  {
    [NRFL01, NRF_WRITEREG, address, value]
  }

  /** The three bytes of a radio address, low first: `address & 0xFF`,
      `(address >> 8) & 0xFF`, `(address >> 16) & 0xFF`. */
  function AddressBytes(address: int): (r: seq<byte>)
    ensures |r| == 3
  {
    [address % 256, (address / 256) % 256, (address / 65536) % 256]
  }

  /** The address bytes are the low 24 bits of the address, so a 24-bit
      address is rebuilt from them. */
  lemma AddressBytesRoundTrip(address: int)
    ensures var b := AddressBytes(address);
      b[0] as int + 256 * b[1] as int + 65536 * b[2] as int == address % 16777216
    ensures 0 <= address < 16777216 ==>
      var b := AddressBytes(address);
      b[0] as int + 256 * b[1] as int + 65536 * b[2] as int == address
  {
    var b := AddressBytes(address);
    var b0, b1, b2: int := b[0], b[1], b[2];
    var q := address / 256;
    assert address == 256 * q + b0;
    assert q == 256 * (q / 256) + b1;
    assert q / 256 == address / 65536 by {
      DivUnique(address, 65536, q / 256, b0 + 256 * b1);
    }
    var t := b0 + 256 * b1 + 65536 * b2;
    assert address == 16777216 * (address / 65536 / 256) + t;
    DivUnique(address, 16777216, address / 65536 / 256, t);
  }

  function WriteAddressCmd(register: byte, address: int): seq<byte>
  {
    [NRFL01, NRF_WRITEADDRESS, register] + AddressBytes(address)
  }

  /** `if x:` on a keyword argument: given and not zero. */
  predicate Truthy(x: Option<int>)
  {
    x.Some? && x.value != 0
  }

  /** enabled_pipes after the loop has looked at pipes lo .. k - 1:
      `1 << a` added for each pipe whose address is truthy, starting from
      0 (lo = 0) or from pipe 0 alone (lo = 1). */
  function Mask(addrs: seq<Option<int>>, lo: nat, k: nat): (m: nat)
    requires |addrs| == 6 && lo <= 1 && k <= 6
    ensures m < 64
  {
    if k <= lo then (if lo == 0 then 0 else 1)
    else if Truthy(addrs[k - 1]) then
      OrBound(Mask(addrs, lo, k - 1), Pow2(k - 1), 6);
      FlagBound(true, k - 1, 6);
      assert Pow2(6) == 64;
      Or(Mask(addrs, lo, k - 1), Pow2(k - 1))
    else Mask(addrs, lo, k - 1)
  }

  /** Bit i of the mask is set exactly for the pipes below lo and the
      pipes from lo on, among the first k, whose address is truthy. */
  lemma {:induction false} MaskBits(addrs: seq<Option<int>>, lo: nat, k: nat)
    requires |addrs| == 6 && lo <= 1 && k <= 6
    ensures forall i :: 0 <= i < 6 ==>
      (Bit(Mask(addrs, lo, k), i) == 1 <==> i < lo || (lo <= i < k && Truthy(addrs[i])))
  {
    if k <= lo {
      forall i | 0 <= i < 6
        ensures Bit(Mask(addrs, lo, k), i) == 1 <==> i < lo
      {
        FlagBit(lo == 1, 0, i);
        assert Mask(addrs, lo, k) == Flag(lo == 1, 0);
      }
    } else {
      MaskBits(addrs, lo, k - 1);
      if Truthy(addrs[k - 1]) {
        forall i | 0 <= i < 6
          ensures Bit(Mask(addrs, lo, k), i) == Max(Bit(Mask(addrs, lo, k - 1), i), if i == k - 1 then 1 else 0)
        {
          OrBit(Mask(addrs, lo, k - 1), Pow2(k - 1), i);
          FlagBit(true, k - 1, i);
        }
      }
    }
  }

  /** The address writes of the loop over pipes lo .. k - 1: one for each
      truthy address, to RX_ADDR_P0 + a, in pipe order. */
  function PipeFrames(addrs: seq<Option<int>>, lo: nat, k: nat): (fs: seq<seq<byte>>)
    requires |addrs| == 6 && k <= 6
    ensures |fs| <= k
  {
    if k <= lo then []
    else
      var last := if Truthy(addrs[k - 1]) then [WriteAddressCmd(RX_ADDR_P0 + (k - 1), addrs[k - 1].value)] else [];
      PipeFrames(addrs, lo, k - 1) + last
  }

  /** The loop writes the address of every truthy pipe and nothing else. */
  lemma {:induction false} PipeFramesWrite(addrs: seq<Option<int>>, lo: nat, k: nat)
    requires |addrs| == 6 && k <= 6
    ensures forall a :: lo <= a < k && Truthy(addrs[a]) ==>
      WriteAddressCmd(RX_ADDR_P0 + a, addrs[a].value) in PipeFrames(addrs, lo, k)
    ensures forall f :: f in PipeFrames(addrs, lo, k) ==>
      exists a :: lo <= a < k && Truthy(addrs[a]) && f == WriteAddressCmd(RX_ADDR_P0 + a, addrs[a].value)
  {
    if k > lo {
      PipeFramesWrite(addrs, lo, k - 1);
    }
  }

  /** The pipe loop of init_shockburst_receiver (lo = 0) and init_receiver
      (lo = 1): the mask of enabled pipes and the address writes, in the
      order the loop makes them. */
  method EnabledPipes(addrs: seq<Option<int>>, lo: nat) returns (mask: nat, frames: seq<seq<byte>>)
    requires |addrs| == 6 && lo <= 1
    ensures mask == Mask(addrs, lo, 6) && frames == PipeFrames(addrs, lo, 6)
    ensures mask < 64
    ensures forall i :: 0 <= i < 6 ==> (Bit(mask, i) == 1 <==> i < lo || Truthy(addrs[i]))
  {
    mask := if lo == 0 then 0 else 1;
    frames := [];
    for a := lo to 6
      invariant mask == Mask(addrs, lo, a) && frames == PipeFrames(addrs, lo, a)
    {
      var x := addrs[a];
      if x.Some? && x.value != 0 {
        mask := Or(mask, Pow2(a));
        frames := frames + [WriteAddressCmd(RX_ADDR_P0 + a, x.value)];
      }
    }
    MaskBits(addrs, lo, 6);
  }

  /** `myaddr0` defaults to DEFAULT_ADDRESS when it is not given. */
  function ShockburstAddresses(addrs: seq<Option<int>>): (r: seq<Option<int>>)
    requires |addrs| == 6
    ensures |r| == 6 && r[1..] == addrs[1..]
  {
    if addrs[0].None? then addrs[0 := Some(DEFAULT_ADDRESS)] else addrs
  }

  /** RX_ADDR_P1 once more, when `myaddr1` is truthy. */
  function P1Again(addrs: seq<Option<int>>): seq<seq<byte>>
    requires |addrs| == 6
  {
    if Truthy(addrs[1]) then [WriteAddressCmd(RX_ADDR_P1, addrs[1].value)] else []
  }

  /** The steps of init_shockburst_receiver, keyword `myaddr<a>` standing
      at addrs[a]. */
  function ShockburstReceiverFrames(addrs: seq<Option<int>>): (fs: seq<seq<byte>>)
    requires |addrs| == 6
  {
    var all := ShockburstAddresses(addrs);
    var m := Mask(all, 0, 6) as byte;
    [SETUP_CMD, WriteRegisterCmd(RF_CH, 10), WriteRegisterCmd(RF_SETUP, 0x26)] +
    PipeFrames(all, 0, 6) + P1Again(all) +
    [WriteRegisterCmd(EN_RXADDR, m), WriteRegisterCmd(EN_AA, m), WriteRegisterCmd(DYNPD, m),
     WriteRegisterCmd(FEATURE, 0x06), RXMODE_CMD, FLUSH_CMD]
  }

  /** The steps init_shockburst_receiver sends, built as it builds them:
      `myaddr0` defaulted, then the pipe loop. */
  method ShockburstReceiverPlan(addrs: seq<Option<int>>) returns (fs: seq<seq<byte>>)
    requires |addrs| == 6
    ensures fs == ShockburstReceiverFrames(addrs)
  {
    var all := if addrs[0].None? then addrs[0 := Some(DEFAULT_ADDRESS)] else addrs;
    var mask, pipes := EnabledPipes(all, 0);
    var again: seq<seq<byte>> := [];
    if Truthy(all[1]) {
      again := [WriteAddressCmd(RX_ADDR_P1, all[1].value)];
    }
    var m := mask as byte;
    fs := [SETUP_CMD, WriteRegisterCmd(RF_CH, 10), WriteRegisterCmd(RF_SETUP, 0x26)] + pipes + again +
      [WriteRegisterCmd(EN_RXADDR, m), WriteRegisterCmd(EN_AA, m), WriteRegisterCmd(DYNPD, m),
       WriteRegisterCmd(FEATURE, 0x06), RXMODE_CMD, FLUSH_CMD];
  }

  /** init_shockburst_receiver writes one mask to EN_RXADDR, EN_AA and
      DYNPD; pipe 0 is in it unless `myaddr0` is given as 0, and pipe a > 0
      exactly when `myaddr<a>` is truthy.  Nothing writes an address after
      the repeated RX_ADDR_P1, so pipe 1's address is written last. */
  lemma ShockburstReceiverSetsPipes(addrs: seq<Option<int>>)
    requires |addrs| == 6
    ensures var fs, n := ShockburstReceiverFrames(addrs), |PipeFrames(ShockburstAddresses(addrs), 0, 6)|;
      var m := Mask(ShockburstAddresses(addrs), 0, 6) as byte;
      |fs| == 9 + n + |P1Again(addrs)| &&
      fs[|fs| - 6] == WriteRegisterCmd(EN_RXADDR, m) &&
      fs[|fs| - 5] == WriteRegisterCmd(EN_AA, m) &&
      fs[|fs| - 4] == WriteRegisterCmd(DYNPD, m) &&
      (forall i :: 0 <= i < 6 ==> (Bit(m, i) == 1 <==> if i == 0 then addrs[0] != Some(0) else Truthy(addrs[i]))) &&
      (Truthy(addrs[1]) ==>
        fs[3 + n] == WriteAddressCmd(RX_ADDR_P1, addrs[1].value) &&
        forall j :: 3 + n < j < |fs| ==> fs[j][1] != NRF_WRITEADDRESS)
  {
    var all := ShockburstAddresses(addrs);
    assert all[1] == addrs[1];
    MaskBits(all, 0, 6);
    forall i | 1 <= i < 6
      ensures all[i] == addrs[i]
    {
      assert all[1..][i - 1] == addrs[1..][i - 1];
    }
  }

  /** The steps of init_receiver after the always-enabled pipe 0: pipes
      1 .. 5 from `myaddr<a>` at addrs[a] (addrs[0] is not used). */
  function ReceiverFrames(payloadSize: byte, myaddr: int, sendaddr: int, addrs: seq<Option<int>>): (fs: seq<seq<byte>>)
    requires |addrs| == 6
  {
    var m := Mask(addrs, 1, 6) as byte;
    [SETUP_CMD, WriteRegisterCmd(RF_CH, 10), WriteRegisterCmd(RF_SETUP, 0x26),
     WriteAddressCmd(TX_ADDR, sendaddr), WriteAddressCmd(RX_ADDR_P0, myaddr)] +
    PipeFrames(addrs, 1, 6) + P1Again(addrs) +
    [WriteRegisterCmd(EN_RXADDR, m), WriteRegisterCmd(EN_AA, 0), WriteRegisterCmd(DYNPD, 0),
     WriteRegisterCmd(FEATURE, 0), WriteRegisterCmd(RX_PW_P0, payloadSize), RXMODE_CMD, FLUSH_CMD]
  }

  /** The steps init_receiver sends, built as it builds them: pipe 0
      always enabled, then the loop over pipes 1 .. 5. */
  method ReceiverPlan(payloadSize: byte, myaddr: int, sendaddr: int, addrs: seq<Option<int>>) returns (fs: seq<seq<byte>>)
    requires |addrs| == 6
    ensures fs == ReceiverFrames(payloadSize, myaddr, sendaddr, addrs)
  {
    var mask, pipes := EnabledPipes(addrs, 1);
    var again: seq<seq<byte>> := [];
    if Truthy(addrs[1]) {
      again := [WriteAddressCmd(RX_ADDR_P1, addrs[1].value)];
    }
    fs := [SETUP_CMD, WriteRegisterCmd(RF_CH, 10), WriteRegisterCmd(RF_SETUP, 0x26),
           WriteAddressCmd(TX_ADDR, sendaddr), WriteAddressCmd(RX_ADDR_P0, myaddr)] + pipes + again +
      [WriteRegisterCmd(EN_RXADDR, mask as byte), WriteRegisterCmd(EN_AA, 0), WriteRegisterCmd(DYNPD, 0),
       WriteRegisterCmd(FEATURE, 0), WriteRegisterCmd(RX_PW_P0, payloadSize), RXMODE_CMD, FLUSH_CMD];
  }

  /** init_receiver always enables pipe 0 and enables pipe a > 0 exactly
      when `myaddr<a>` is truthy; auto acknowledgement, dynamic payloads
      and the feature register are cleared, and pipe 0 gets the payload
      size. */
  lemma ReceiverSetsPipes(payloadSize: byte, myaddr: int, sendaddr: int, addrs: seq<Option<int>>)
    requires |addrs| == 6
    ensures var fs := ReceiverFrames(payloadSize, myaddr, sendaddr, addrs);
      var m := Mask(addrs, 1, 6) as byte;
      |fs| >= 12 &&
      fs[3] == WriteAddressCmd(TX_ADDR, sendaddr) && fs[4] == WriteAddressCmd(RX_ADDR_P0, myaddr) &&
      fs[|fs| - 7] == WriteRegisterCmd(EN_RXADDR, m) &&
      fs[|fs| - 6] == WriteRegisterCmd(EN_AA, 0) && fs[|fs| - 5] == WriteRegisterCmd(DYNPD, 0) &&
      fs[|fs| - 3] == WriteRegisterCmd(RX_PW_P0, payloadSize) &&
      (forall i :: 0 <= i < 6 ==> (Bit(m, i) == 1 <==> i == 0 || Truthy(addrs[i])))
  {
    MaskBits(addrs, 1, 6);
  }

  /** The common opening of every init_*: setup, channel 10 and 2 Mbps. */
  const RADIO_SETUP: seq<seq<byte>> := [SETUP_CMD, WriteRegisterCmd(RF_CH, 10), WriteRegisterCmd(RF_SETUP, 0x26)]

  /** The steps of init_shockburst_transmitter: the addresses, pipe 0 with
      auto acknowledgement and dynamic payloads, 15 retransmits, the
      payload width, transmit mode and a flush. */
  function ShockburstTransmitterFrames(payloadSize: byte, myaddr: int, sendaddr: int): (fs: seq<seq<byte>>)
  {
    RADIO_SETUP +
    [WriteAddressCmd(TX_ADDR, sendaddr), WriteAddressCmd(RX_ADDR_P0, myaddr),
     WriteRegisterCmd(EN_AA, 0x01), WriteRegisterCmd(DYNPD, 0x01), WriteRegisterCmd(EN_RXADDR, 0x01),
     WriteRegisterCmd(FEATURE, 0x04), WriteRegisterCmd(SETUP_RETR, 0xFF),
     WriteRegisterCmd(RX_PW_P0, payloadSize), TXMODE_CMD, FLUSH_CMD]
  }

  /** The steps of init_transmitter: as init_shockburst_transmitter, with
      auto acknowledgement, dynamic payloads and retransmits off and the
      pipe-enable register left alone. */
  function TransmitterFrames(payloadSize: byte, myaddr: int, sendaddr: int): (fs: seq<seq<byte>>)
  {
    RADIO_SETUP +
    [WriteAddressCmd(TX_ADDR, sendaddr), WriteAddressCmd(RX_ADDR_P0, myaddr),
     WriteRegisterCmd(EN_AA, 0x00), WriteRegisterCmd(DYNPD, 0x00),
     WriteRegisterCmd(FEATURE, 0x00), WriteRegisterCmd(SETUP_RETR, 0x00),
     WriteRegisterCmd(RX_PW_P0, payloadSize), TXMODE_CMD, FLUSH_CMD]
  }

  /** Both transmitters open the same way, send to `sendaddr`, listen for
      acknowledgements on `myaddr` through pipe 0, and close with the
      payload width, transmit mode and a flush; the shockburst one has one
      step more, enabling pipe 0 alone, and turns auto acknowledgement on
      where the plain one turns it off. */
  lemma TransmittersAgree(payloadSize: byte, myaddr: int, sendaddr: int)
    ensures var s, t := ShockburstTransmitterFrames(payloadSize, myaddr, sendaddr), TransmitterFrames(payloadSize, myaddr, sendaddr);
      |s| == 13 && |t| == 12 && s[..5] == t[..5] && s[10..] == t[9..] &&
      s[3] == WriteAddressCmd(TX_ADDR, sendaddr) && s[4] == WriteAddressCmd(RX_ADDR_P0, myaddr) &&
      s[10] == WriteRegisterCmd(RX_PW_P0, payloadSize) &&
      s[5] == WriteRegisterCmd(EN_AA, 1) && t[5] == WriteRegisterCmd(EN_AA, 0) &&
      s[7] == WriteRegisterCmd(EN_RXADDR, 1) &&
      forall j :: 0 <= j < |t| ==> !(|t[j]| == 4 && t[j][1] == NRF_WRITEREG && t[j][2] == EN_RXADDR)
  {
  }

  /** The length byte of write_payload, `len(data) | 0x80`: a valid byte
      with the transmit flag set exactly when there are fewer than 256 data
      bytes, and the length plus 128 below 128 bytes. */
  lemma PayloadLengthByte(n: nat)
    ensures Or(n, 0x80) < 256 <==> n < 256
    ensures n < 256 ==> Or(n, 0x80) >= 0x80
    ensures n < 128 ==> Or(n, 0x80) == n + 0x80
  {
    assert Pow2(7) == 128 && Pow2(8) == 256;
    OrAtLeast(n, 0x80);
    if n < 256 {
      OrBound(n, 0x80, 8);
    }
    if n < 128 {
      OrDisjoint(n, 1, 7);
    }
  }

  /** `ACK_PAYLOAD | pipe` names the pipe in the low three bits. */
  lemma AckPayloadCommand(pipe: nat)
    requires pipe < 8
    ensures Or(ACK_PAYLOAD as nat, pipe) == 0xA8 + pipe
  {
    assert Pow2(3) == 8;
    OrComm(ACK_PAYLOAD as nat, pipe);
    OrDisjoint(pipe, 21, 3);
  }

  /** The command of transaction: the data length, the 16-bit timeout and
      the data. */
  function TransactionCmd(data: seq<byte>, timeout: int): seq<byte>
    requires |data| < 256
  {
    [NRFL01, NRF_TRANSACTION, |data|] + Words([timeout]) + data
  }

  /** The reply bytes of a transaction: as many as the count byte says,
      or as many as arrived. */
  function Payload(p: Port): (r: seq<byte>)
    requires |p.incoming| > 0
    ensures |r| <= p.incoming[0]
    ensures |r| == Min(p.incoming[0], |p.incoming| - 1)
    ensures r == p.incoming[1..1 + |r|]
  {
    p.incoming[1..Min(1 + p.incoming[0] as int, |p.incoming|)]
  }

  /** A node that sends a count, that many bytes and an acknowledgement
      is heard in full. */
  lemma PayloadReadsBack(p: Port, reply: seq<byte>, ack: byte, rest: seq<byte>)
    requires |reply| < 256 && p.incoming == [|reply|] + reply + [ack] + rest
    ensures Payload(p) == reply
    ensures Answers(p, 1 + |reply|, 1) && p.incoming[1 + |reply|] == ack
  {
    assert p.incoming[1..1 + |reply|] == reply;
  }

  class NRF24L01 {
    const H: Handler
    /** PAYLOAD_SIZE: the pipe-0 payload width init_receiver writes. */
    var payloadSize: byte
    /** ACK_PAYLOAD_SIZE: the length of the last acknowledgement payload. */
    var ackPayloadSize: nat

    predicate Valid()
      reads this
    {
      ackPayloadSize <= MAX_ACK_PAYLOAD
    }

    constructor(h: Handler)
      ensures H == h && payloadSize == 0 && ackPayloadSize == 0 && Valid()
    {
      H := h;
      payloadSize := 0;
      ackPayloadSize := 0;
    }

    /** init(): NRF_SETUP, then the acknowledgement. */
    method Init() returns (r: Result<()>)
      modifies H
      ensures H.State() == Xfer(old(H.State()), SETUP_CMD, 0, 1)
      ensures r.Ok? <==> Answers(old(H.State()), 0, 1)
      ensures r.Err? ==> r == Err(MissingAck)
    {
      r := H.Exchange(SETUP_CMD);
    }

    /** rxmode(): the radio starts listening. */
    method RxMode() returns (r: Result<()>)
      modifies H
      ensures H.State() == Xfer(old(H.State()), RXMODE_CMD, 0, 1)
      ensures r.Ok? <==> Answers(old(H.State()), 0, 1)
      ensures r.Err? ==> r == Err(MissingAck)
    {
      r := H.Exchange(RXMODE_CMD);
    }

    /** txmode(): the radio goes to transmit mode. */
    method TxMode() returns (r: Result<()>)
      modifies H
      ensures H.State() == Xfer(old(H.State()), TXMODE_CMD, 0, 1)
      ensures r.Ok? <==> Answers(old(H.State()), 0, 1)
      ensures r.Err? ==> r == Err(MissingAck)
    {
      r := H.Exchange(TXMODE_CMD);
    }

    /** flush(): both FIFOs of the radio are emptied. */
    method Flush() returns (r: Result<()>)
      modifies H
      ensures H.State() == Xfer(old(H.State()), FLUSH_CMD, 0, 1)
      ensures r.Ok? <==> Answers(old(H.State()), 0, 1)
      ensures r.Err? ==> r == Err(MissingAck)
    {
      r := H.Exchange(FLUSH_CMD);
    }

    /** power_down() as written: NRFL01 goes out, then the name
        NRF_POWERDOWN, which the command table does not define (it defines
        NRF_POWER_DOWN), raises before anything else is sent. */
    method PowerDownAsWritten() returns (r: Result<()>)
      modifies H
      ensures r == Err(UndefinedName) && H.State() == Xfer(old(H.State()), [NRFL01], 0, 0)
    {
      H.SendByte(NRFL01);
      r := Err(UndefinedName);
    }

    /** power_down() with the command table's NRF_POWER_DOWN: the radio is
        put to sleep, then the acknowledgement. */
    method PowerDown() returns (r: Result<()>)
      modifies H
      ensures H.State() == Xfer(old(H.State()), [NRFL01, NRF_POWER_DOWN], 0, 1)
      ensures r.Ok? <==> Answers(old(H.State()), 0, 1)
      ensures r.Err? ==> r == Err(MissingAck)
    {
      r := H.Exchange([NRFL01, NRF_POWER_DOWN]);
    }

    /** txchar(char): one byte sent; returns the status nibble. */
    method TxChar(c: byte) returns (r: Result<Ack>)
      modifies H
      ensures H.State() == Xfer(old(H.State()), [NRFL01, NRF_TXCHAR, c], 0, 1)
      ensures r == StatusReply(old(H.State()))
    {
      var a :- H.Handshake([NRFL01, NRF_TXCHAR, c]);
      r := Ok(a.Shifted());
    }

    /** write_register(address, value). */
    method WriteRegister(address: byte, value: byte) returns (r: Result<()>)
      modifies H
      ensures H.State() == Xfer(old(H.State()), WriteRegisterCmd(address, value), 0, 1)
      ensures r.Ok? <==> Answers(old(H.State()), 0, 1)
      ensures r.Err? ==> r == Err(MissingAck)
    {
      r := H.Exchange(WriteRegisterCmd(address, value));
    }

    /** read_register(address): the register's byte, read before the
        acknowledgement. */
    method ReadRegister(address: byte) returns (r: Result<byte>)
      modifies H
      ensures var p := old(H.State());
        |p.incoming| == 0 ==> r == Err(CommunicationError) && H.State() == Xfer(p, [NRFL01, NRF_READREG, address], 1, 0)
      ensures var p := old(H.State());
        |p.incoming| > 0 ==> H.State() == Xfer(p, [NRFL01, NRF_READREG, address], 1, 1)
      ensures r.Ok? <==> Answers(old(H.State()), 1, 1)
      ensures r.Ok? ==> r.value == old(H.State()).incoming[0]
      ensures r.Err? && |old(H.State()).incoming| > 0 ==> r == Err(MissingAck)
    {
      r := H.ByteQuery([NRFL01, NRF_READREG, address]);
    }

    /** rxchar(), hasData() and get_status(): the command, then the one
        byte the radio answers with (a received character, the RX FIFO
        flag or the STATUS register), read before the acknowledgement. */
    method ByteCommand(opcode: byte) returns (r: Result<byte>)
      modifies H
      ensures var p := old(H.State());
        |p.incoming| == 0 ==> r == Err(CommunicationError) && H.State() == Xfer(p, [NRFL01, opcode], 1, 0)
      ensures var p := old(H.State());
        |p.incoming| > 0 ==> H.State() == Xfer(p, [NRFL01, opcode], 1, 1)
      ensures r.Ok? <==> Answers(old(H.State()), 1, 1)
      ensures r.Ok? ==> r.value == old(H.State()).incoming[0]
      ensures r.Err? && |old(H.State()).incoming| > 0 ==> r == Err(MissingAck)
    {
      r := H.ByteQuery([NRFL01, opcode]);
    }

    /** write_command(cmd): one radio command byte. */
    method WriteCommand(cmd: byte) returns (r: Result<()>)
      modifies H
      ensures H.State() == Xfer(old(H.State()), [NRFL01, NRF_WRITECOMMAND, cmd], 0, 1)
      ensures r.Ok? <==> Answers(old(H.State()), 0, 1)
      ensures r.Err? ==> r == Err(MissingAck)
    {
      r := H.Exchange([NRFL01, NRF_WRITECOMMAND, cmd]);
    }

    /** read_payload(numbytes): the command and the count, then
        fd.read(numbytes), which returns fewer bytes when fewer arrived,
        and the acknowledgement. */
    method ReadPayload(numbytes: byte) returns (r: Result<seq<byte>>)
      modifies H
      ensures H.State() == Xfer(old(H.State()), [NRFL01, NRF_READPAYLOAD, numbytes], numbytes as nat, 1)
      ensures r.Ok? <==> old(H.State()).loadBurst || (numbytes as nat) < |old(H.State()).incoming|
      ensures var s := old(H.State()).incoming;
        r.Ok? ==> r.value == s[..Min(numbytes as nat, |s|)] && |r.value| <= numbytes as nat
      ensures r.Err? ==> r == Err(MissingAck)
    {
      var head: seq<byte> := [NRFL01, NRF_READPAYLOAD, numbytes];
      assert Words([]) == [];
      assert head + Words([]) == head;
      r := H.ChunkQuery(head, [], numbytes as nat);
    }

    /** write_address(register, address): the register, then the address
        bytes low, middle and high. */
    method WriteAddress(register: byte, address: int) returns (r: Result<()>)
      modifies H
      ensures H.State() == Xfer(old(H.State()), WriteAddressCmd(register, address), 0, 1)
      ensures r.Ok? <==> Answers(old(H.State()), 0, 1)
      ensures r.Err? ==> r == Err(MissingAck)
    {
      r := H.Exchange(WriteAddressCmd(register, address));
    }

    /** init_shockburst_receiver(**args): `PAYLOAD_SIZE` kept when not
        given, `myaddr<a>` at addrs[a].  The pipe loop is run first and its
        address writes are then sent in its order, with the other steps,
        each acknowledged; a missing acknowledgement ends the run after its
        step. */
    method InitShockburstReceiver(payload: Option<byte>, addrs: seq<Option<int>>) returns (r: Result<()>)
      requires |addrs| == 6
      modifies this, H
      ensures payloadSize == (if payload.Some? then payload.value else old(payloadSize))
      ensures ackPayloadSize == old(ackPayloadSize)
      ensures var p, fs := old(H.State()), ShockburstReceiverFrames(addrs);
        (r.Ok? <==> Answers(p, 0, |fs|)) &&
        (r.Ok? ==> H.State() == Xfer(p, Concat(fs), 0, |fs|)) &&
        (r.Err? ==>
          r == Err(MissingAck) && !p.loadBurst && |p.incoming| < |fs| &&
          H.State() == Xfer(p, Concat(fs[..|p.incoming| + 1]), 0, |p.incoming| + 1))
    {
      payloadSize := if payload.Some? then payload.value else payloadSize;
      var fs := ShockburstReceiverPlan(addrs);
      r := H.Steps(fs);
    }

    /** init_receiver(**args): `myaddr` and `sendaddr` default to
        DEFAULT_ADDRESS, `PAYLOAD_SIZE` is kept when not given, and
        `myaddr<a>` for a = 1 .. 5 stands at addrs[a]. */
    method InitReceiver(payload: Option<byte>, myaddr: Option<int>, sendaddr: Option<int>, addrs: seq<Option<int>>)
      returns (r: Result<()>)
      requires |addrs| == 6
      modifies this, H
      ensures payloadSize == (if payload.Some? then payload.value else old(payloadSize))
      ensures ackPayloadSize == old(ackPayloadSize)
      ensures var p := old(H.State());
        var fs := ReceiverFrames(payloadSize, if myaddr.Some? then myaddr.value else DEFAULT_ADDRESS,
                                 if sendaddr.Some? then sendaddr.value else DEFAULT_ADDRESS, addrs);
        (r.Ok? <==> Answers(p, 0, |fs|)) &&
        (r.Ok? ==> H.State() == Xfer(p, Concat(fs), 0, |fs|)) &&
        (r.Err? ==>
          r == Err(MissingAck) && !p.loadBurst && |p.incoming| < |fs| &&
          H.State() == Xfer(p, Concat(fs[..|p.incoming| + 1]), 0, |p.incoming| + 1))
    {
      payloadSize := if payload.Some? then payload.value else payloadSize;
      var my := if myaddr.Some? then myaddr.value else DEFAULT_ADDRESS;
      var send := if sendaddr.Some? then sendaddr.value else DEFAULT_ADDRESS;
      var fs := ReceiverPlan(payloadSize, my, send, addrs);
      r := H.Steps(fs);
    }

    /** init_shockburst_transmitter(**args) (`shockburst`) and
        init_transmitter(**args): `myaddr` and `sendaddr` default to
        DEFAULT_ADDRESS and `PAYLOAD_SIZE` is kept when not given; then the
        fixed steps, each acknowledged. */
    method InitTransmitter(shockburst: bool, payload: Option<byte>, myaddr: Option<int>, sendaddr: Option<int>)
      returns (r: Result<()>)
      modifies this, H
      ensures payloadSize == (if payload.Some? then payload.value else old(payloadSize))
      ensures ackPayloadSize == old(ackPayloadSize)
      ensures var p := old(H.State());
        var my, send := if myaddr.Some? then myaddr.value else DEFAULT_ADDRESS,
                        if sendaddr.Some? then sendaddr.value else DEFAULT_ADDRESS;
        var fs := if shockburst then ShockburstTransmitterFrames(payloadSize, my, send)
                  else TransmitterFrames(payloadSize, my, send);
        (r.Ok? <==> Answers(p, 0, |fs|)) &&
        (r.Ok? ==> H.State() == Xfer(p, Concat(fs), 0, |fs|)) &&
        (r.Err? ==>
          r == Err(MissingAck) && !p.loadBurst && |p.incoming| < |fs| &&
          H.State() == Xfer(p, Concat(fs[..|p.incoming| + 1]), 0, |p.incoming| + 1))
    {
      payloadSize := if payload.Some? then payload.value else payloadSize;
      var my := if myaddr.Some? then myaddr.value else DEFAULT_ADDRESS;
      var send := if sendaddr.Some? then sendaddr.value else DEFAULT_ADDRESS;
      var fs := if shockburst then ShockburstTransmitterFrames(payloadSize, my, send)
                else TransmitterFrames(payloadSize, my, send);
      r := H.Steps(fs);
    }

    /** write_payload(data, verbose=False): `len(data) | 0x80`, TX_PAYLOAD
        and the data, then the acknowledgement.  Returns the status nibble,
        or nothing when verbose, which inspects the status (and so fails on
        an acknowledgement burst mode only queued). */
    method WritePayload(data: seq<byte>, verbose: bool) returns (r: Result<Option<Ack>>)
      modifies H
      ensures var p, len := old(H.State()), Or(|data|, 0x80);
        len >= 256 ==> r == Err(InvalidByte) && H.State() == Xfer(p, [NRFL01, NRF_WRITEPAYLOAD], 0, 0)
      ensures var p, len := old(H.State()), Or(|data|, 0x80);
        len < 256 ==>
          H.State() == Xfer(p, [NRFL01, NRF_WRITEPAYLOAD, len, TX_PAYLOAD] + data, 0, 1) &&
          (StatusReply(p).Err? ==> r == Err(MissingAck)) &&
          (StatusReply(p).Ok? && !verbose ==> r == Ok(Some(StatusReply(p).value))) &&
          (StatusReply(p).Ok? && verbose ==> r == if p.loadBurst then Err(QueuedAck) else Ok(None))
    {
      var len := Or(|data|, 0x80);
      if len >= 256 {
        H.SendBytes([NRFL01, NRF_WRITEPAYLOAD]);
        return Err(InvalidByte);
      }
      var a :- H.Handshake([NRFL01, NRF_WRITEPAYLOAD, len, TX_PAYLOAD] + data);
      var val := a.Shifted();
      if verbose {
        if val.Queued? {
          return Err(QueuedAck);
        }
        return Ok(None);
      }
      r := Ok(Some(val));
    }

    /** write_ack_payload(data, pipe): a length that differs from the last
        one becomes the new ACK_PAYLOAD_SIZE, cut to 15 together with the
        data; then the length, `ACK_PAYLOAD | pipe` and the data, and the
        status nibble of the acknowledgement. */
    method WriteAckPayload(data: seq<byte>, pipe: nat) returns (r: Result<Ack>)
      requires Valid()
      modifies this, H
      ensures Valid()
      ensures payloadSize == old(payloadSize)
      ensures ackPayloadSize == if |data| != old(ackPayloadSize) then Min(|data|, MAX_ACK_PAYLOAD) else old(ackPayloadSize)
      ensures var p, sent, cmd := old(H.State()), data[..Min(|data|, MAX_ACK_PAYLOAD)], Or(ACK_PAYLOAD as nat, pipe);
        if cmd >= 256 then
          r == Err(InvalidByte) && H.State() == Xfer(p, [NRFL01, NRF_WRITEPAYLOAD, |sent|], 0, 0)
        else
          H.State() == Xfer(p, [NRFL01, NRF_WRITEPAYLOAD, |sent|, cmd] + sent, 0, 1) &&
          r == StatusReply(p)
    {
      var d := data;
      if |data| != ackPayloadSize {
        ackPayloadSize := |data|;
        if ackPayloadSize > MAX_ACK_PAYLOAD {
          ackPayloadSize := MAX_ACK_PAYLOAD;
          d := data[..MAX_ACK_PAYLOAD];
        }
      }
      assert d == data[..Min(|data|, MAX_ACK_PAYLOAD)];
      var cmd := Or(ACK_PAYLOAD as nat, pipe);
      if cmd >= 256 {
        H.SendBytes([NRFL01, NRF_WRITEPAYLOAD, |d|]);
        return Err(InvalidByte);
      }
      var a :- H.Handshake([NRFL01, NRF_WRITEPAYLOAD, |d|, cmd] + d);
      r := Ok(a.Shifted());
    }

    /** transaction's request and reply: the command, the count byte and
        fd.read(count), which returns fewer bytes when fewer arrived. */
    method TransactionReply(data: seq<byte>, timeout: int) returns (r: Result<seq<byte>>)
      requires |data| < 256
      modifies H
      ensures var p := old(H.State());
        |p.incoming| == 0 ==> r == Err(CommunicationError) && H.State() == Xfer(p, TransactionCmd(data, timeout), 1, 0)
      ensures var p := old(H.State());
        |p.incoming| > 0 ==>
          r == Ok(Payload(p)) && H.State() == Xfer(p, TransactionCmd(data, timeout), 1 + p.incoming[0] as int, 0)
    {
      ghost var p := H.State();
      var cmd := TransactionCmd(data, timeout);
      H.SendFrame([NRFL01, NRF_TRANSACTION, |data|], [timeout], data);
      SendKeepsAnswers(p, cmd, 0, 0);
      if |p.incoming| > 0 {
        XferThen(p, cmd, 0, 0, [], 1 + p.incoming[0] as int, 0);
      } else {
        XferThen(p, cmd, 0, 0, [], 1, 0);
      }
      assert cmd + [] == cmd;
      r := H.CountedRead();
    }

    /** transaction(data, timeout=100, verbose=True): the request, the
        reply and the acknowledgement.  When verbose, a status with any of
        its low three bits set (no radio, no acknowledgement from the node,
        no reply) flushes the radio and returns nothing; inspecting the
        status fails on an acknowledgement burst mode only queued. */
    method Transaction(data: seq<byte>, timeout: int, verbose: bool) returns (r: Result<Option<seq<byte>>>)
      modifies H
      ensures var p := old(H.State());
        |data| >= 256 ==> r == Err(InvalidByte) && H.State() == Xfer(p, [NRFL01, NRF_TRANSACTION], 0, 0)
      ensures var p := old(H.State());
        |data| < 256 && |p.incoming| == 0 ==>
          r == Err(CommunicationError) && H.State() == Xfer(p, TransactionCmd(data, timeout), 1, 0)
      ensures var p := old(H.State());
        |data| < 256 && |p.incoming| > 0 ==>
          var n, cmd := 1 + p.incoming[0] as int, TransactionCmd(data, timeout);
          ((!verbose || p.loadBurst || !Answers(p, n, 1)) ==>
            H.State() == Xfer(p, cmd, n, 1) &&
            r == if !Answers(p, n, 1) && !p.loadBurst then Err(MissingAck)
                 else if verbose then Err(QueuedAck) else Ok(Some(Payload(p)))) &&
          (verbose && !p.loadBurst && Answers(p, n, 1) ==>
            var status := p.incoming[n] / 16;
            (status % 8 == 0 ==> r == Ok(Some(Payload(p))) && H.State() == Xfer(p, cmd, n, 1)) &&
            (status % 8 != 0 ==>
              H.State() == Xfer(p, cmd + FLUSH_CMD, n, 2) &&
              (r.Ok? <==> Answers(p, n, 2)) && (r.Ok? ==> r.value == None) && (r.Err? ==> r == Err(MissingAck))))
    {
      ghost var p := H.State();
      if |data| >= 256 {
        H.SendBytes([NRFL01, NRF_TRANSACTION]);
        return Err(InvalidByte);
      }
      var reply :- TransactionReply(data, timeout);
      ghost var cmd, n := TransactionCmd(data, timeout), 1 + p.incoming[0] as int;
      StatusAfterReply(p, cmd, n);
      var a :- H.GetAck();
      var val := a.Shifted();
      if verbose {
        if val.Queued? {
          return Err(QueuedAck);
        }
        if val.value % 8 != 0 {
          XferThen(p, cmd, n, 1, FLUSH_CMD, 0, 1);
          AnswersThen(p, cmd, n, 1, 0, 1);
          var _ :- Flush();
          return Ok(None);
        }
      }
      r := Ok(Some(reply));
    }
  }

  /** The acknowledgement after a transaction's reply: the state it leaves
      and the byte it reads. */
  lemma StatusAfterReply(p: Port, cmd: seq<byte>, n: nat)
    ensures Xfer(Xfer(p, cmd, n, 0), [], 0, 1) == Xfer(p, cmd, n, 1)
    ensures !p.loadBurst ==> (|Xfer(p, cmd, n, 0).incoming| > 0 <==> Answers(p, n, 1))
    ensures !p.loadBurst && Answers(p, n, 1) ==> Xfer(p, cmd, n, 0).incoming[0] == p.incoming[n]
  {
    XferThen(p, cmd, n, 0, [], 0, 1);
    assert cmd + [] == cmd;
  }
}
