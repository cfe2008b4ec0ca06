/** The physical layer of the nRF24L01+ driver: SPI command framing, register
    access and the multi-byte address registers.

    The SPI bus is a stream of replies: `miso(t)` is the byte the chip clocks
    back during the `t`-th byte exchange, and `clock` counts the exchanges so
    far. Every chip-select framed exchange is logged as a `Transaction`: the
    command, the data bytes sent after it and the bytes received for them. The
    reply to the command byte itself is kept in `status`, as in the driver. */
module Nrf24Phy {
  import opened Ints

  /** Registers the driver names; `RxAddr(p)` is `RX_ADDR_P0 + p`. */
  datatype Register = RxAddr(pipe: uint8) | TxAddr | Other(id: uint8)

  /** The SPI commands of the chip. */
  datatype Command =
    | ReadRegister(reg: Register)   // R_REGISTER
    | WriteRegister(reg: Register)  // W_REGISTER
    | ReadRxPayloadWidth            // R_RX_PL_WID
    | ReadRxPayload                 // R_RX_PAYLOAD
    | WriteTxPayload                // W_TX_PAYLOAD
    | WriteTxPayloadNoAck           // W_TX_PAYLOAD_NOACK
    | WriteAckPayload(pipe: uint8)  // W_ACK_PAYLOAD for a pipe
    | FlushTx                       // FLUSH_TX
    | FlushRx                       // FLUSH_RX
    | ReuseTxPayload                // REUSE_TX_PL
    | Nop                           // NOP

  datatype Transaction = Transaction(cmd: Command, sent: seq<uint8>, received: seq<uint8>)

  /** Width of the TX_ADDR and RX_ADDR_P0/P1 registers, in bytes. */
  const AddressSize: nat := 5
  /** Number of receive pipes. */
  const RxPipeCount: nat := 6

  /** The first `n` bytes of an address, least significant first: what the
      loop of the driver computes with `& 0xff` and `>>= 8`. */
  function Split(a: uint64, n: nat): (r: seq<uint8>)
    ensures |r| == n
  {
    if n == 0 then [] else [a % 0x100] + Split(a / 0x100, n - 1)
  }

  /** The bytes of an address register, as the driver sends them. */
  function AddressBytes(a: uint64): (r: seq<uint8>)
    ensures |r| == AddressSize
  {
    Split(a, AddressSize)
  }

  /** Reassembling register bytes sent least significant first. */
  function Join(bs: seq<uint8>): nat
    decreases |bs|
  {
    if bs == [] then 0 else bs[0] + 0x100 * Join(bs[1..])
  }

  /** Writing an address and reading the same bytes back gives the address
      modulo 2^40: the upper three bytes are dropped. */
  lemma {:induction false} AddressRoundTrip(a: uint64)
    ensures Join(AddressBytes(a)) == a % 0x100_0000_0000
  {
    var r1 := a / 0x100;
    var r2 := r1 / 0x100;
    var r3 := r2 / 0x100;
    var r4 := r3 / 0x100;
    var bs := AddressBytes(a);
    assert Split(a, 5) == [a % 0x100] + Split(r1, 4);
    assert Split(r1, 4) == [r1 % 0x100] + Split(r2, 3);
    assert Split(r2, 3) == [r2 % 0x100] + Split(r3, 2);
    assert Split(r3, 2) == [r3 % 0x100] + Split(r4, 1);
    assert Split(r4, 1) == [r4 % 0x100];
    JoinCons(Split(r4, 1));
    JoinCons(Split(r3, 2));
    JoinCons(Split(r2, 3));
    JoinCons(Split(r1, 4));
    JoinCons(Split(a, 5));
    assert Join(bs) == a % 0x100 + 0x100 * (r1 % 0x100 + 0x100 * (r2 % 0x100 + 0x100 * (r3 % 0x100 + 0x100 * (r4 % 0x100))));
    assert a == a % 0x100 + 0x100 * r1;
    assert r1 == r1 % 0x100 + 0x100 * r2;
    assert r2 == r2 % 0x100 + 0x100 * r3;
    assert r3 == r3 % 0x100 + 0x100 * r4;
    assert r4 == r4 % 0x100 + 0x100 * (r4 / 0x100);
    assert r4 / 0x100 == a / 0x100_0000_0000;
  }

  lemma JoinCons(bs: seq<uint8>)
    requires |bs| > 0
    ensures Join(bs) == bs[0] + 0x100 * Join(bs[1..])
  {
  }

  /** Division by 256 undoes `b + 256 * q` for a byte `b`. */
  lemma ByteDivMod(b: int, q: int)
    requires 0 <= b < 0x100
    ensures (b + 0x100 * q) % 0x100 == b && (b + 0x100 * q) / 0x100 == q
  {
  }

  /** Any five register bytes join to a 40-bit address that splits back into
      the same bytes. */
  lemma {:induction false} JoinThenSplit(bs: seq<uint8>)
    requires |bs| == AddressSize
    ensures Join(bs) < 0x100_0000_0000
    ensures AddressBytes(Join(bs)) == bs
  {
    var j4: int := bs[4];
    var j3: int := bs[3] + 0x100 * j4;
    var j2: int := bs[2] + 0x100 * j3;
    var j1: int := bs[1] + 0x100 * j2;
    var j0: int := bs[0] + 0x100 * j1;
    assert bs[4..][1..] == [];
    assert bs[3..][1..] == bs[4..];
    assert bs[2..][1..] == bs[3..];
    assert bs[1..][1..] == bs[2..];
    JoinCons(bs[4..]);
    JoinCons(bs[3..]);
    JoinCons(bs[2..]);
    JoinCons(bs[1..]);
    JoinCons(bs);
    assert Join(bs) == j0;
    ByteDivMod(bs[0], j1);
    ByteDivMod(bs[1], j2);
    ByteDivMod(bs[2], j3);
    ByteDivMod(bs[3], j4);
    ByteDivMod(bs[4], 0);
    assert Split(j4, 1) == [bs[4]];
    assert Split(j3, 2) == [bs[3]] + Split(j4, 1);
    assert Split(j2, 3) == [bs[2]] + Split(j3, 2);
    assert Split(j1, 4) == [bs[1]] + Split(j2, 3);
    assert Split(j0, 5) == [bs[0]] + Split(j1, 4);
  }

  /** Bitwise `a | b` of two bytes. */
  function Or(a: uint8, b: uint8): uint8
  {
    ((a as bv8) | (b as bv8)) as int
  }

  /** Bitwise `a & ~b` of two bytes. */
  function AndNot(a: uint8, b: uint8): uint8
  {
    ((a as bv8) & !(b as bv8)) as int
  }

  function Pow256(n: nat): (r: nat)
    ensures r > 0
  {
    if n == 0 then 1 else 0x100 * Pow256(n - 1)
  }

  /** `n` zero bytes, sent when a command has no argument buffer. */
  function Zeros(n: nat): (r: seq<uint8>)
    ensures |r| == n && forall k :: 0 <= k < n ==> r[k] == 0
  {
    if n == 0 then [] else Zeros(n - 1) + [0]
  }

  class Phy {
    /** Reply to the command byte of the latest transaction. */
    var status: uint8
    /** Static payload length; 0 selects dynamic payloads. */
    var payloadLen: uint8
    /** The chip's replies, one per byte exchange. */
    const miso: nat -> uint8
    var clock: nat
    var log: seq<Transaction>

    constructor (miso: nat -> uint8, payloadLen: uint8)
      ensures this.miso == miso && this.payloadLen == payloadLen
      ensures clock == 0 && log == []
    {
      this.miso := miso;
      this.payloadLen := payloadLen;
      status := 0;
      clock := 0;
      log := [];
    }

    /** The `n` replies following exchange `start`. */
    function Replies(start: nat, n: nat): (r: seq<uint8>)
      ensures |r| == n
    {
      if n == 0 then [] else Replies(start, n - 1) + [miso(start + n - 1)]
    }

    method WriteCommandNoData(cmd: Command)
      modifies this
      ensures status == miso(old(clock)) && clock == old(clock) + 1
      ensures log == old(log) + [Transaction(cmd, [], [])]
      ensures payloadLen == old(payloadLen)
    {
      status := miso(clock);
      clock := clock + 1;
      log := log + [Transaction(cmd, [], [])];
    }

    method WriteCommandSingleData(cmd: Command, data: uint8) returns (ret: uint8)
      modifies this
      ensures status == miso(old(clock)) && ret == miso(old(clock) + 1) && clock == old(clock) + 2
      ensures log == old(log) + [Transaction(cmd, [data], [ret])]
      ensures payloadLen == old(payloadLen)
    {
      status := miso(clock);
      ret := miso(clock + 1);
      clock := clock + 2;
      log := log + [Transaction(cmd, [data], [ret])];
    }

    /** One data byte clocked over the bus: the chip's reply to it. */
    method Exchange() returns (data: uint8)
      modifies this
      ensures data == miso(old(clock)) && clock == old(clock) + 1
      ensures status == old(status) && log == old(log) && payloadLen == old(payloadLen)
    {
      data := miso(clock);
      clock := clock + 1;
    }

    /** One command followed by `argc` data exchanges: the bytes sent are
        `argv`, or zeros when there is none; the replies are stored into
        `retv` only when there is one. */
    method WriteCommandMultiData(cmd: Command, argv: array?<uint8>, retv: array?<uint8>, argc: uint8)
      requires argv != null ==> argc <= argv.Length
      requires retv != null ==> argc <= retv.Length
      modifies this, retv
      ensures status == miso(old(clock)) && clock == old(clock) + 1 + argc
      ensures log == old(log) + [Transaction(cmd,
        if argv == null then Zeros(argc) else old(argv[..argc]),
        Replies(old(clock) + 1, argc))]
      ensures retv != null ==> retv[..argc] == Replies(old(clock) + 1, argc)
                               && retv[argc..] == old(retv[argc..])
      ensures payloadLen == old(payloadLen)
    {
      ghost var args := if argv == null then Zeros(argc) else argv[..argc];
      status := miso(clock);
      clock := clock + 1;
      var sent, received := ExchangeData(argv, retv, argc, args);
      log := log + [Transaction(cmd, sent, received)];
    }

    /** The data phase of a multi-byte command: `argc` exchanges sending the
        bytes of `args` (taken from `argv`, or zeros) and storing each reply
        into `retv` when there is one. */
    method ExchangeData(argv: array?<uint8>, retv: array?<uint8>, argc: uint8, ghost args: seq<uint8>)
      returns (sent: seq<uint8>, received: seq<uint8>)
      requires argv != null ==> argc <= argv.Length
      requires retv != null ==> argc <= retv.Length
      requires args == if argv == null then Zeros(argc) else argv[..argc]
      modifies this, retv
      ensures sent == args && received == Replies(old(clock), argc) && clock == old(clock) + argc
      ensures retv != null ==> retv[..argc] == received && retv[argc..] == old(retv[argc..])
      ensures status == old(status) && log == old(log) && payloadLen == old(payloadLen)
    {
      var start := clock;
      sent := [];
      received := [];
      var i := 0;
      while i < argc
        invariant 0 <= i <= argc && clock == start + i
        invariant |sent| == i && |received| == i
        invariant forall k :: 0 <= k < i ==> sent[k] == args[k]
        invariant argv != null ==> forall k :: i <= k < argc ==> argv[k] == args[k]
        invariant received == Replies(start, i)
        invariant retv != null ==> forall k :: 0 <= k < i ==> retv[k] == received[k]
        invariant retv != null ==> forall k :: i <= k < retv.Length ==> retv[k] == old(retv[k])
        invariant log == old(log) && payloadLen == old(payloadLen) && status == old(status)
      {
        var arg: uint8 := 0;
        if argv != null {
          arg := argv[i];
        }
        var data := Exchange();
        if retv != null {
          retv[i] := data;
        }
        sent := sent + [arg];
        received := received + [data];
        i := i + 1;
      }
    }

    method ReadRegisterValue(reg: Register) returns (r: uint8)
      modifies this
      ensures r == miso(old(clock) + 1) && clock == old(clock) + 2 && status == miso(old(clock))
      ensures log == old(log) + [Transaction(ReadRegister(reg), [0], [r])]
      ensures payloadLen == old(payloadLen)
    {
      r := WriteCommandSingleData(ReadRegister(reg), 0x00);
    }

    method WriteRegisterValue(reg: Register, data: uint8)
      modifies this
      ensures clock == old(clock) + 2 && status == miso(old(clock))
      ensures log == old(log) + [Transaction(WriteRegister(reg), [data], [miso(old(clock) + 1)])]
      ensures payloadLen == old(payloadLen)
    {
      var _ := WriteCommandSingleData(WriteRegister(reg), data);
    }

    /** Read-modify-write of one register: the value read, with `flags` set,
        is written back to the same register. */
    method SetBits(reg: Register, flags: uint8)
      modifies this
      ensures var old_ := miso(old(clock) + 1);
        log == old(log) + [Transaction(ReadRegister(reg), [0], [old_]),
                           Transaction(WriteRegister(reg), [Or(old_, flags)], [miso(old(clock) + 3)])]
      ensures clock == old(clock) + 4 && status == miso(old(clock) + 2) && payloadLen == old(payloadLen)
    {
      var v := ReadRegisterValue(reg);
      WriteRegisterValue(reg, Or(v, flags));
    }

    /** Read-modify-write of one register clearing `flags`. */
    method ClearBits(reg: Register, flags: uint8)
      modifies this
      ensures var old_ := miso(old(clock) + 1);
        log == old(log) + [Transaction(ReadRegister(reg), [0], [old_]),
                           Transaction(WriteRegister(reg), [AndNot(old_, flags)], [miso(old(clock) + 3)])]
      ensures clock == old(clock) + 4 && status == miso(old(clock) + 2) && payloadLen == old(payloadLen)
    {
      var v := ReadRegisterValue(reg);
      WriteRegisterValue(reg, AndNot(v, flags));
    }

    method FlushTxFifo()
      modifies this
      ensures log == old(log) + [Transaction(FlushTx, [], [])] && clock == old(clock) + 1
      ensures status == miso(old(clock)) && payloadLen == old(payloadLen)
    {
      WriteCommandNoData(FlushTx);
    }

    method FlushRxFifo()
      modifies this
      ensures log == old(log) + [Transaction(FlushRx, [], [])] && clock == old(clock) + 1
      ensures status == miso(old(clock)) && payloadLen == old(payloadLen)
    {
      WriteCommandNoData(FlushRx);
    }

    method ReuseTxPayloadCommand()
      modifies this
      ensures log == old(log) + [Transaction(ReuseTxPayload, [], [])] && clock == old(clock) + 1
      ensures status == miso(old(clock)) && payloadLen == old(payloadLen)
    {
      WriteCommandNoData(ReuseTxPayload);
    }

    method ReadRxPayloadWidthValue() returns (r: uint8)
      modifies this
      ensures r == miso(old(clock) + 1) && clock == old(clock) + 2 && status == miso(old(clock))
      ensures log == old(log) + [Transaction(ReadRxPayloadWidth, [0], [r])]
      ensures payloadLen == old(payloadLen)
    {
      r := WriteCommandSingleData(ReadRxPayloadWidth, 0x00);
    }

    /** The number of payload bytes the next `readRxPayload` reads: the static
        payload length, or the width the chip reports when that is 0. */
    function RxPayloadCount(): (n: uint8)
      reads this
      ensures payloadLen != 0 ==> n == payloadLen
      ensures payloadLen == 0 ==> n == miso(clock + 1)
    {
      if payloadLen != 0 then payloadLen else miso(clock + 1)
    }

    /** Reads `RxPayloadCount()` bytes into the buffer and returns that count. */
    method ReadRxPayloadInto(buffer: array<uint8>) returns (n: uint8)
      requires RxPayloadCount() <= buffer.Length
      modifies this, buffer
      ensures n == old(RxPayloadCount())
      ensures old(payloadLen) != 0 ==> log == old(log) + [Transaction(ReadRxPayload, Zeros(n), Replies(old(clock) + 1, n))]
      ensures old(payloadLen) == 0 ==>
        log == old(log) + [Transaction(ReadRxPayloadWidth, [0], [n]),
                           Transaction(ReadRxPayload, Zeros(n), Replies(old(clock) + 3, n))]
      ensures old(payloadLen) != 0 ==> buffer[..n] == Replies(old(clock) + 1, n)
      ensures old(payloadLen) == 0 ==> buffer[..n] == Replies(old(clock) + 3, n)
      ensures buffer[n..] == old(buffer[n..])
      ensures payloadLen == old(payloadLen)
      ensures old(payloadLen) != 0 ==> clock == old(clock) + 1 + n && status == miso(old(clock))
      ensures old(payloadLen) == 0 ==> clock == old(clock) + 3 + n && status == miso(old(clock) + 2)
    {
      n := payloadLen;
      if n == 0 {
        var w := ReadRxPayloadWidthValue();
        n := w;
      }
      WriteCommandMultiData(ReadRxPayload, null, buffer, n);
    }

    /** A TX payload longer than the payload length is dropped: nothing is sent. */
    method WriteTxPayloadFrom(buffer: array<uint8>, len: uint8)
      requires len <= payloadLen ==> len <= buffer.Length
      modifies this
      ensures len > old(payloadLen) ==> log == old(log) && clock == old(clock)
      ensures len <= old(payloadLen) ==>
        log == old(log) + [Transaction(WriteTxPayload, buffer[..len], Replies(old(clock) + 1, len))]
      ensures len > old(payloadLen) ==> status == old(status)
      ensures len <= old(payloadLen) ==> clock == old(clock) + 1 + len && status == miso(old(clock))
      ensures payloadLen == old(payloadLen)
    {
      if len > payloadLen {
        return;
      }
      WriteCommandMultiData(WriteTxPayload, buffer, null, len);
    }

    method WriteTxPayloadNoAckFrom(buffer: array<uint8>, len: uint8)
      requires len <= payloadLen ==> len <= buffer.Length
      modifies this
      ensures len > old(payloadLen) ==> log == old(log) && clock == old(clock)
      ensures len <= old(payloadLen) ==>
        log == old(log) + [Transaction(WriteTxPayloadNoAck, buffer[..len], Replies(old(clock) + 1, len))]
      ensures len > old(payloadLen) ==> status == old(status)
      ensures len <= old(payloadLen) ==> clock == old(clock) + 1 + len && status == miso(old(clock))
      ensures payloadLen == old(payloadLen)
    {
      if len > payloadLen {
        return;
      }
      WriteCommandMultiData(WriteTxPayloadNoAck, buffer, null, len);
    }

    method WriteAckPayloadFrom(pipe: uint8, buffer: array<uint8>, len: uint8)
      requires len <= payloadLen ==> len <= buffer.Length
      modifies this
      ensures len > old(payloadLen) ==> log == old(log) && clock == old(clock)
      ensures len <= old(payloadLen) ==>
        log == old(log) + [Transaction(WriteAckPayload(pipe), buffer[..len], Replies(old(clock) + 1, len))]
      ensures len > old(payloadLen) ==> status == old(status)
      ensures len <= old(payloadLen) ==> clock == old(clock) + 1 + len && status == miso(old(clock))
      ensures payloadLen == old(payloadLen)
    {
      if len > payloadLen {
        return;
      }
      WriteCommandMultiData(WriteAckPayload(pipe), buffer, null, len);
    }

    /** The status byte clocked back while sending NOP. */
    method ReadStatus() returns (r: uint8)
      modifies this
      ensures r == miso(old(clock)) && clock == old(clock) + 1
      ensures log == old(log) + [Transaction(Nop, [], [])]
      ensures status == r && payloadLen == old(payloadLen)
    {
      WriteCommandNoData(Nop);
      r := status;
    }

    /** The address split into register bytes, least significant first. */
    method SplitAddress(address: uint64) returns (addr: array<uint8>)
      ensures fresh(addr) && addr[..] == AddressBytes(address)
    {
      addr := new uint8[AddressSize];
      var a := address;
      var i := 0;
      while i < AddressSize
        invariant 0 <= i <= AddressSize
        invariant addr[..i] + Split(a, AddressSize - i) == AddressBytes(address)
      {
        assert Split(a, AddressSize - i) == [a % 0x100] + Split(a / 0x100, AddressSize - i - 1);
        addr[i] := a % 0x100;
        a := a / 0x100;
        i := i + 1;
        assert addr[..i] == addr[..i - 1] + [addr[i - 1]];
      }
    }

    /** Reassembling register bytes read back, most significant byte first.
        The accumulator stays below 2^40, so `<<= 8` and `|=` are a
        multiplication by 256 and an addition. */
    method JoinAddress(addr: array<uint8>) returns (address: uint64)
      requires addr.Length == AddressSize
      ensures address == Join(addr[..])
    {
      assert Pow256(AddressSize) == 0x100_0000_0000;
      address := 0;
      var i := AddressSize;
      while i != 0
        invariant 0 <= i <= AddressSize
        invariant address == Join(addr[i..])
        invariant address < Pow256(AddressSize - i)
        decreases i
      {
        i := i - 1;
        assert addr[i..][1..] == addr[i + 1..];
        address := address * 0x100 + addr[i];
      }
      assert addr[0..] == addr[..];
    }

    /** Pipes 0 and 1 hold full addresses, sent least significant byte
        first; pipes 2 to 5 hold the low byte only; other pipes are ignored. */
    method SetRxAddress(pipe: uint8, address: uint64)
      modifies this
      ensures pipe <= 1 ==>
        log == old(log) + [Transaction(WriteRegister(RxAddr(pipe)), AddressBytes(address), Replies(old(clock) + 1, AddressSize))]
      ensures 1 < pipe < RxPipeCount ==>
        log == old(log) + [Transaction(WriteRegister(RxAddr(pipe)), [address % 0x100], [miso(old(clock) + 1)])]
      ensures pipe >= RxPipeCount ==> log == old(log) && clock == old(clock)
      ensures pipe <= 1 ==> clock == old(clock) + 1 + AddressSize && status == miso(old(clock))
      ensures 1 < pipe < RxPipeCount ==> clock == old(clock) + 2 && status == miso(old(clock))
      ensures pipe >= RxPipeCount ==> status == old(status)
      ensures payloadLen == old(payloadLen)
    {
      if pipe <= 1 {
        var addr := SplitAddress(address);
        assert addr[..AddressSize] == addr[..];
        WriteCommandMultiData(WriteRegister(RxAddr(pipe)), addr, null, AddressSize);
      } else if pipe < RxPipeCount {
        WriteRegisterValue(RxAddr(pipe), address % 0x100);
      }
    }

    method SetTxAddress(address: uint64)
      modifies this
      ensures log == old(log)
        + [Transaction(WriteRegister(TxAddr), AddressBytes(address), Replies(old(clock) + 1, AddressSize))]
      ensures clock == old(clock) + 1 + AddressSize && status == miso(old(clock))
      ensures payloadLen == old(payloadLen)
    {
      var addr := SplitAddress(address);
      assert addr[..AddressSize] == addr[..];
      WriteCommandMultiData(WriteRegister(TxAddr), addr, null, AddressSize);
    }

    /** Pipes 0 and 1: the register bytes read back, joined; pipes 2 to 5
        (the bound the driver checks is `address_size`): the one register
        byte; any other pipe: 0, without bus traffic. */
    method GetRxAddress(pipe: uint8) returns (r: uint64)
      modifies this
      ensures pipe <= 1 ==>
        && r == Join(Replies(old(clock) + 1, AddressSize))
        && log == old(log) + [Transaction(ReadRegister(RxAddr(pipe)), Zeros(AddressSize), Replies(old(clock) + 1, AddressSize))]
      ensures 1 < pipe <= AddressSize ==>
        && r == miso(old(clock) + 1)
        && log == old(log) + [Transaction(ReadRegister(RxAddr(pipe)), [0], [miso(old(clock) + 1)])]
      ensures pipe > AddressSize ==> r == 0 && log == old(log) && clock == old(clock)
      ensures pipe <= 1 ==> clock == old(clock) + 1 + AddressSize && status == miso(old(clock))
      ensures 1 < pipe <= AddressSize ==> clock == old(clock) + 2 && status == miso(old(clock))
      ensures pipe > AddressSize ==> status == old(status)
      ensures payloadLen == old(payloadLen)
    {
      if pipe <= 1 {
        var addr := new uint8[AddressSize];
        WriteCommandMultiData(ReadRegister(RxAddr(pipe)), null, addr, AddressSize);
        assert addr[..AddressSize] == addr[..];
        r := JoinAddress(addr);
      } else if pipe <= AddressSize {
        var v := ReadRegisterValue(RxAddr(pipe));
        r := v;
      } else {
        r := 0;
      }
    }

    method GetTxAddress() returns (r: uint64)
      modifies this
      ensures r == Join(Replies(old(clock) + 1, AddressSize))
      ensures log == old(log) + [Transaction(ReadRegister(TxAddr), Zeros(AddressSize), Replies(old(clock) + 1, AddressSize))]
      ensures clock == old(clock) + 1 + AddressSize && status == miso(old(clock))
      ensures payloadLen == old(payloadLen)
    {
      var addr := new uint8[AddressSize];
      WriteCommandMultiData(ReadRegister(TxAddr), null, addr, AddressSize);
      assert addr[..AddressSize] == addr[..];
      r := JoinAddress(addr);
    }
  }
}
