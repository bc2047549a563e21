/** The HMC5883L magnetometer on the I2C bus: two configuration writes,
    and the six data registers from 0x03 read as three signed words. */
module HMC5883L {
  import opened Outcomes
  import opened CommandsProto
  import opened PacketHandler
  import opened I2CBus
  import opened SignedWords

  const DEFAULT_ADDRESS: nat := 0x1E
  const CONFIG_B: byte := 0x01
  const MODE: byte := 0x02
  const DATA_X_MSB: byte := 0x03

  /** One start/stop write transaction: register, then value. */
  function WriteTransaction(address: nat, register: byte, value: byte): seq<seq<byte>>
  {
    [StartCmd(address, 0), SendCmd(register), SendCmd(value), STOP_CMD]
  }

  /** The steps of connect: the smallest gain range, then continuous
      measurement. */
  function ConnectFrames(address: nat): (fs: seq<seq<byte>>)
    ensures |fs| == 8
  {
    WriteTransaction(address, CONFIG_B, 0) + WriteTransaction(address, MODE, 0)
  }

  /** connect's bytes are two complete write transactions, the gain
      register first: each opens with the address in write mode and closes
      with a stop. */
  lemma ConnectBytes(address: nat)
    ensures Concat(ConnectFrames(address)) ==
      (StartCmd(address, 0) + SendCmd(CONFIG_B) + SendCmd(0) + STOP_CMD) +
      (StartCmd(address, 0) + SendCmd(MODE) + SendCmd(0) + STOP_CMD)
  {
    forall reg: byte, v: byte
      ensures Concat(WriteTransaction(address, reg, v)) == StartCmd(address, 0) + SendCmd(reg) + SendCmd(v) + STOP_CMD
    {
      var fs := WriteTransaction(address, reg, v);
      var e: seq<seq<byte>> := [];
      assert e + [fs[0]] == [fs[0]] && Concat(e) == [];
      ConcatPush(e, fs[0]);
      assert [fs[0]] + [fs[1]] == fs[..2];
      ConcatPush([fs[0]], fs[1]);
      assert fs[..2] + [fs[2]] == fs[..3];
      ConcatPush(fs[..2], fs[2]);
      assert fs[..3] + [fs[3]] == fs;
      ConcatPush(fs[..3], fs[3]);
    }
    ConcatJoin(WriteTransaction(address, CONFIG_B, 0), WriteTransaction(address, MODE, 0));
  }

  class HMC5883L {
    const bus: I2C
    const address: nat

    /** HMC5883L(ADDRESS=0x1E), on an interface whose I2C adapter is bus. */
    constructor(bus: I2C, address: nat := DEFAULT_ADDRESS)
      ensures this.bus == bus && this.address == address
    {
      this.bus := bus;
      this.address := address;
    }

    /** connect(): the two write transactions, every step acknowledged; a
        missing acknowledgement ends it after its step. */
    method Connect() returns (r: Result<()>)
      modifies bus.H
      ensures var p := old(bus.H.State());
        (r.Ok? <==> Answers(p, 0, 8)) &&
        (r.Ok? ==> bus.H.State() == Xfer(p, Concat(ConnectFrames(address)), 0, 8))
      ensures var p := old(bus.H.State());
        r.Err? ==>
          r == Err(MissingAck) && !p.loadBurst && |p.incoming| < 8 &&
          bus.H.State() == Xfer(p, Concat(ConnectFrames(address)[..|p.incoming| + 1]), 0, |p.incoming| + 1)
    {
      r := bus.H.Steps(ConnectFrames(address));
    }

    /** __getVals__(addr, bytes): the register read from addr. */
    method GetVals(register: byte, n: int) returns (r: Result<seq<byte>>)
      modifies bus.H
      ensures var p, m := old(bus.H.State()), ReadCount(n);
        (r.Ok? <==> Answers(p, m, m + 4)) &&
        (r.Ok? ==>
          bus.H.State() == Xfer(p, RegisterCmds(false, address, register) + ReadCmds(m - 1) + STOP_CMD, m, m + 4) &&
          r.value == RegisterReply(p, m))
      ensures r.Err? ==> r == Err(MissingAck) || r == Err(CommunicationError)
    {
      r := bus.ReadRegisters(false, address, register, n);
    }

    /** read(): the six bytes from 0x03, as the signed big-endian words
        x, y and z. */
    method Read() returns (r: Result<(int, int, int)>)
      modifies bus.H
      ensures var p := old(bus.H.State());
        (r.Ok? <==> Answers(p, 6, 10)) &&
        (r.Ok? ==>
          var v := RegisterReply(p, 6);
          bus.H.State() == Xfer(p, RegisterCmds(false, address, DATA_X_MSB) + ReadCmds(5) + STOP_CMD, 6, 10) &&
          r.value == (Int16(BigEndian(v[0], v[1])), Int16(BigEndian(v[2], v[3])), Int16(BigEndian(v[4], v[5]))))
      ensures r.Ok? ==> var (x, y, z) := r.value;
        -32768 <= x < 32768 && -32768 <= y < 32768 && -32768 <= z < 32768
      ensures r.Err? ==> r == Err(MissingAck) || r == Err(CommunicationError)
    {
      var vals :- GetVals(DATA_X_MSB, 6);
      var xyz := Pairs(vals, 3);
      r := Ok((xyz[0], xyz[1], xyz[2]));
    }
  }
}
