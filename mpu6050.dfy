/** The MPU6050 accelerometer and gyroscope on the I2C bus: a wake-up
    write when the object is made, and register reads decoded as signed
    big-endian words scaled by 1/65535. */
module MPU6050 {
  import opened Outcomes
  import opened CommandsProto
  import opened PacketHandler
  import opened I2CBus
  import opened SignedWords

  const ADDRESS: nat := 0x68
  const BUS_FREQUENCY: real := 40000.0
  const PWR_MGMT_1: byte := 0x6B
  const ACCEL_XOUT_H: byte := 0x3B
  const TEMP_OUT_H: byte := 0x41
  const GYRO_XOUT_H: byte := 0x43

  /** The steps of the constructor after config: write 0 to the power
      management register. */
  function WakeFrames(): (fs: seq<seq<byte>>)
    ensures |fs| == 4
  {
    [StartCmd(ADDRESS, 0), SendCmd(PWR_MGMT_1), SendCmd(0), STOP_CMD]
  }

  /** A reading divided by 65535, as the driver reports it. */
  function Scaled(ws: seq<int>): (r: seq<real>)
    ensures |r| == |ws|
    ensures forall i :: 0 <= i < |r| ==> r[i] * 65535.0 == ws[i] as real
  {
    seq(|ws|, i requires 0 <= i < |ws| => ws[i] as real / 65535.0)
  }

  /** Scaled signed words stay within half of full scale, just over. */
  lemma ScaledBounds(ws: seq<int>)
    requires forall i :: 0 <= i < |ws| ==> -32768 <= ws[i] < 32768
    ensures forall i :: 0 <= i < |ws| ==> -32768.0 / 65535.0 <= Scaled(ws)[i] <= 32767.0 / 65535.0
  {
    forall i | 0 <= i < |ws|
      ensures -32768.0 / 65535.0 <= Scaled(ws)[i] <= 32767.0 / 65535.0
    {
      var x := ws[i] as real;
      assert -32768.0 <= x <= 32767.0;
      assert Scaled(ws)[i] == x / 65535.0;
    }
  }

  class MPU6050 {
    const bus: I2C

    constructor(bus: I2C)
      ensures this.bus == bus
    {
      this.bus := bus;
    }

    /** MPU6050(I): config(40000), then start(0x68, 0), send(0x6B),
        send(0) and stop, every step acknowledged. */
    static method Create(bus: I2C) returns (r: Result<MPU6050>)
      modifies bus.H
      ensures var p := old(bus.H.State());
        (r.Ok? <==> Answers(p, 0, 5)) &&
        (r.Ok? ==> fresh(r.value) && r.value.bus == bus &&
                   bus.H.State() == Xfer(p, ConfigCmd(BUS_FREQUENCY) + Concat(WakeFrames()), 0, 5))
      ensures r.Err? ==> r == Err(MissingAck)
    {
      ghost var p := bus.H.State();
      AnswersThen(p, ConfigCmd(BUS_FREQUENCY), 0, 1, 0, 4);
      var _ :- bus.Config(BUS_FREQUENCY);
      var _ :- bus.H.Steps(WakeFrames());
      XferThen(p, ConfigCmd(BUS_FREQUENCY), 0, 1, Concat(WakeFrames()), 0, 4);
      var m := new MPU6050(bus);
      r := Ok(m);
    }

    /** getVals(addr, bytes): restart(0x68, 0), send(addr),
        restart(0x68, 1), read(bytes) and stop. */
    method GetVals(register: byte, n: int) returns (r: Result<seq<byte>>)
      modifies bus.H
      ensures var p, m := old(bus.H.State()), ReadCount(n);
        (r.Ok? <==> Answers(p, m, m + 4)) &&
        (r.Ok? ==>
          bus.H.State() == Xfer(p, RegisterCmds(true, ADDRESS, register) + ReadCmds(m - 1) + STOP_CMD, m, m + 4) &&
          r.value == RegisterReply(p, m))
      ensures r.Err? ==> r == Err(MissingAck) || r == Err(CommunicationError)
    {
      r := bus.ReadRegisters(true, ADDRESS, register, n);
    }

    /** getRaw(): the fourteen bytes from 0x3B as seven scaled readings:
        acceleration x, y, z, temperature, rotation x, y, z. */
    method GetRaw() returns (r: Result<seq<real>>)
      modifies bus.H
      ensures var p := old(bus.H.State());
        (r.Ok? <==> Answers(p, 14, 18)) &&
        (r.Ok? ==>
          bus.H.State() == Xfer(p, RegisterCmds(true, ADDRESS, ACCEL_XOUT_H) + ReadCmds(13) + STOP_CMD, 14, 18) &&
          r.value == Scaled(Pairs(RegisterReply(p, 14), 7)))
      ensures r.Err? ==> r == Err(MissingAck) || r == Err(CommunicationError)
    {
      var vals :- GetVals(ACCEL_XOUT_H, 14);
      r := Ok(Scaled(Pairs(vals, 7)));
    }

    /** getAccel(): six bytes from 0x3B, three scaled readings. */
    method GetAccel() returns (r: Result<seq<real>>)
      modifies bus.H
      ensures var p := old(bus.H.State());
        (r.Ok? <==> Answers(p, 6, 10)) &&
        (r.Ok? ==>
          bus.H.State() == Xfer(p, RegisterCmds(true, ADDRESS, ACCEL_XOUT_H) + ReadCmds(5) + STOP_CMD, 6, 10) &&
          r.value == Scaled(Pairs(RegisterReply(p, 6), 3)))
      ensures r.Err? ==> r == Err(MissingAck) || r == Err(CommunicationError)
    {
      var vals :- GetVals(ACCEL_XOUT_H, 6);
      r := Ok(Scaled(Pairs(vals, 3)));
    }

    /** getTemp(): six bytes from 0x41, of which only the first pair is
        used. */
    method GetTemp() returns (r: Result<real>)
      modifies bus.H
      ensures var p := old(bus.H.State());
        (r.Ok? <==> Answers(p, 6, 10)) &&
        (r.Ok? ==>
          var v := RegisterReply(p, 6);
          bus.H.State() == Xfer(p, RegisterCmds(true, ADDRESS, TEMP_OUT_H) + ReadCmds(5) + STOP_CMD, 6, 10) &&
          r.value * 65535.0 == Int16(BigEndian(v[0], v[1])) as real)
      ensures r.Err? ==> r == Err(MissingAck) || r == Err(CommunicationError)
    {
      var vals :- GetVals(TEMP_OUT_H, 6);
      r := Ok(Scaled(Pairs(vals, 1))[0]);
    }

    /** getGyro(): six bytes from 0x43, three scaled readings. */
    method GetGyro() returns (r: Result<seq<real>>)
      modifies bus.H
      ensures var p := old(bus.H.State());
        (r.Ok? <==> Answers(p, 6, 10)) &&
        (r.Ok? ==>
          bus.H.State() == Xfer(p, RegisterCmds(true, ADDRESS, GYRO_XOUT_H) + ReadCmds(5) + STOP_CMD, 6, 10) &&
          r.value == Scaled(Pairs(RegisterReply(p, 6), 3)))
      ensures r.Err? ==> r == Err(MissingAck) || r == Err(CommunicationError)
    {
      var vals :- GetVals(GYRO_XOUT_H, 6);
      r := Ok(Scaled(Pairs(vals, 3)));
    }
  }
}
