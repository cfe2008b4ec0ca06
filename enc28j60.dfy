/** The ENC28J60 Ethernet controller driver: the receive and transmit
    pointer bookkeeping of `initialize`, `receivePacket` and `sendPacket`.

    The SPI operations the driver issues are logged in `ops`. What the chip
    answers is a parameter: whether a packet is pending (the EIR.PKTIF bit)
    and the byte stream read from its receive buffer (`rx`), which starts
    with the six-byte receive header: next-packet pointer, byte count and
    status, each low byte first. */
module Enc28j60 {

  import opened Ints

  datatype Option<T> = None | Some(value: T)

  /** The control registers the modelled code touches. */
  datatype Reg = ERDPTL | ERDPTH | EWRPTL | EWRPTH | ETXSTL | ETXSTH | ETXNDL | ETXNDH
               | ERXSTL | ERXSTH | ERXNDL | ERXNDH | ERXRDPTL | ERXRDPTH | EIR | ECON1 | ECON2

  /** The control bits set and cleared with the bit-field operations. */
  datatype Flag = RXEN | TXRST | TXRTS | PKTDEC

  /** One SPI operation on the chip. */
  datatype Op = SoftReset
              | WriteReg(reg: Reg, value: uint8)
              | ReadReg(reg: Reg)
              | BitFieldSet(reg: Reg, flag: Flag)
              | BitFieldClear(reg: Reg, flag: Flag)
              | ReadBufferMemory(count: nat)
              | WriteBufferMemory(bytes: seq<uint8>)

  /** The low byte of a 16-bit value: what the 8-bit register write keeps. */
  function Lo(x: uint16): uint8
  {
    x % 0x100
  }

  function Hi(x: uint16): uint8
  {
    x / 0x100
  }

  /** `lo | hi << 8`. */
  function Join(lo: uint8, hi: uint8): uint16
  {
    lo + 0x100 * hi
  }

  lemma JoinSplit(x: uint16)
    ensures Join(Lo(x), Hi(x)) == x
  {
  }

  /** The two writes of a 16-bit pointer register pair, low byte first as the
      chip requires. */
  function WritePointer(lo: Reg, hi: Reg, x: uint16): seq<Op>
  {
    [WriteReg(lo, Lo(x)), WriteReg(hi, Hi(x))]
  }

  /** The last value written to a register, if any. */
  function LastWrite(ops: seq<Op>, reg: Reg): Option<uint8>
  {
    if ops == [] then None
    else if ops[|ops| - 1].WriteReg? && ops[|ops| - 1].reg == reg then Some(ops[|ops| - 1].value)
    else LastWrite(ops[..|ops| - 1], reg)
  }

  /** The value of a pointer register pair after `ops`, once both halves have
      been written. */
  function Pointer(ops: seq<Op>, lo: Reg, hi: Reg): Option<uint16>
  {
    match (LastWrite(ops, lo), LastWrite(ops, hi))
    case (Some(l), Some(h)) => Some(Join(l, h))
    case _ => None
  }

  /** A register's last write in `ops + more` is its last write in `more`, if
      `more` writes it at all. */
  lemma {:induction false} LastWriteAppend(ops: seq<Op>, more: seq<Op>, reg: Reg)
    ensures LastWrite(ops + more, reg) == if LastWrite(more, reg).Some? then LastWrite(more, reg) else LastWrite(ops, reg)
    decreases |more|
  {
    if more == [] {
      assert ops + more == ops;
    } else {
      var all := ops + more;
      assert all[..|all| - 1] == ops + more[..|more| - 1];
      LastWriteAppend(ops, more[..|more| - 1], reg);
    }
  }

  /** Writing a pointer pair makes the pair read back as the pointer, whatever
      came before and whatever follows that leaves the pair alone. */
  lemma {:induction false} PointerAfterWrite(before: seq<Op>, lo: Reg, hi: Reg, x: uint16, after: seq<Op>)
    requires lo != hi
    requires LastWrite(after, lo) == None && LastWrite(after, hi) == None
    ensures Pointer(before + WritePointer(lo, hi, x) + after, lo, hi) == Some(x)
  {
    var w := WritePointer(lo, hi, x);
    assert w[..1] == [WriteReg(lo, Lo(x))];
    assert w[..1][..0] == [];
    LastWriteAppend(before, w, lo);
    LastWriteAppend(before, w, hi);
    LastWriteAppend(before + w, after, lo);
    LastWriteAppend(before + w, after, hi);
    JoinSplit(x);
  }

  /** A pair that `ops` writes reads the same whatever operations came
      before, so the pointer lemmas below hold after any earlier history. */
  lemma {:induction false} PointerKeepsLast(before: seq<Op>, ops: seq<Op>, lo: Reg, hi: Reg)
    requires LastWrite(ops, lo).Some? && LastWrite(ops, hi).Some?
    ensures Pointer(before + ops, lo, hi) == Pointer(ops, lo, hi)
  {
    LastWriteAppend(before, ops, lo);
    LastWriteAppend(before, ops, hi);
  }

  /** How often an operation occurs. */
  function Count(ops: seq<Op>, op: Op): (n: nat)
    ensures n <= |ops|
  {
    if ops == [] then 0 else (if ops[0] == op then 1 else 0) + Count(ops[1..], op)
  }

  lemma {:induction false} NotCounted(ops: seq<Op>, op: Op)
    requires forall k :: 0 <= k < |ops| ==> ops[k] != op
    ensures Count(ops, op) == 0
  {
    if ops != [] {
      NotCounted(ops[1..], op);
    }
  }

  lemma {:induction false} CountAppend(a: seq<Op>, b: seq<Op>, op: Op)
    ensures Count(a + b, op) == Count(a, op) + Count(b, op)
  {
    if a == [] {
      assert a + b == b;
    } else {
      assert (a + b)[1..] == a[1..] + b;
      CountAppend(a[1..], b, op);
    }
  }

  /** The bytes sent into the chip's buffer memory, in order. */
  function BufferWrites(ops: seq<Op>): seq<uint8>
  {
    if ops == [] then []
    else (if ops[0].WriteBufferMemory? then ops[0].bytes else []) + BufferWrites(ops[1..])
  }

  /** `len -= 4` in 16-bit unsigned arithmetic, then capped at `maxlen`: the
      CRC is dropped and at most `maxlen` bytes are fetched. */
  function ReceivedLength(reported: uint16, maxlen: uint16): (r: uint16)
    ensures r <= maxlen
    ensures r == if ToUint16(reported - 4) >= maxlen then maxlen else ToUint16(reported - 4)
    ensures reported >= 4 ==> r == maxlen || r == reported - 4
  {
    var len := ToUint16(reported - 4);
    if len >= maxlen then maxlen else len
  }

  /** A frame that fits loses exactly its four CRC bytes. */
  lemma FittingFrame(reported: uint16, maxlen: uint16)
    requires 4 <= reported && reported - 4 < maxlen
    ensures ReceivedLength(reported, maxlen) == reported - 4
  {
  }

  /** A byte count below 4 wraps around to a huge length, which the cap then
      turns into `maxlen`. */
  lemma ShortCountWraps(reported: uint16, maxlen: uint16)
    requires reported < 4 && maxlen <= 0xFFFC
    ensures ReceivedLength(reported, maxlen) == maxlen
  {
  }

  /** The SPI operations of a received packet: set the read pointer, read the
      six header bytes, fetch the packet, free its buffer space and count it
      off. */
  function ReceiveOps(readFrom: uint16, next: uint16, len: uint16): seq<Op>
  {
    [ReadReg(EIR), WriteReg(ERDPTL, Lo(readFrom)), WriteReg(ERDPTH, Hi(readFrom)),
     ReadBufferMemory(6), ReadBufferMemory(len),
     WriteReg(ERXRDPTL, Lo(next)), WriteReg(ERXRDPTH, Hi(next)), BitFieldSet(ECON2, PKTDEC)]
  }

  /** The SPI operations of `initialize` that set up the buffer layout: the
      soft reset, the four pointer pairs, low byte first, and RXEN. */
  function InitOps(rxStart: uint16, rxStop: uint16, txStart: uint16): seq<Op>
  {
    [SoftReset] + WritePointer(ERXSTL, ERXSTH, rxStart) + WritePointer(ERXRDPTL, ERXRDPTH, rxStart)
    + WritePointer(ERXNDL, ERXNDH, rxStop) + WritePointer(ETXSTL, ETXSTH, txStart) + [BitFieldSet(ECON1, RXEN)]
  }

  /** The SPI operations of a sent packet. */
  function SendOps(txStart: uint16, packet: seq<uint8>, len: uint16): seq<Op>
  {
    [BitFieldSet(ECON1, TXRST), BitFieldClear(ECON1, TXRST)]
    + WritePointer(EWRPTL, EWRPTH, txStart)
    + WritePointer(ETXNDL, ETXNDH, ToUint16(txStart + len))
    + [WriteBufferMemory([0x00]), WriteBufferMemory(packet), BitFieldSet(ECON1, TXRTS)]
  }

  /** Each received packet decrements the chip's packet counter exactly
      once. */
  lemma {:induction false} ReceiveDecrementsOnce(readFrom: uint16, next: uint16, len: uint16)
    ensures Count(ReceiveOps(readFrom, next, len), BitFieldSet(ECON2, PKTDEC)) == 1
  {
    var d := BitFieldSet(ECON2, PKTDEC);
    var head := [ReadReg(EIR)] + WritePointer(ERDPTL, ERDPTH, readFrom) + [ReadBufferMemory(6), ReadBufferMemory(len)]
                + WritePointer(ERXRDPTL, ERXRDPTH, next);
    assert ReceiveOps(readFrom, next, len) == head + [d];
    CountAppend(head, [d], d);
    NotCounted(head, d);
  }

  /** After a received packet the buffer read pointer was set to where the
      packet started, and the receive read pointer, which frees buffer space,
      ends at the next packet. */
  lemma {:induction false} ReceivePointers(readFrom: uint16, next: uint16, len: uint16)
    ensures Pointer(ReceiveOps(readFrom, next, len), ERXRDPTL, ERXRDPTH) == Some(next)
    ensures Pointer(ReceiveOps(readFrom, next, len), ERDPTL, ERDPTH) == Some(readFrom)
  {
    var pre := [ReadReg(EIR)];
    var mid := [ReadBufferMemory(6), ReadBufferMemory(len)];
    var post := [BitFieldSet(ECON2, PKTDEC)];
    var ops := ReceiveOps(readFrom, next, len);
    assert ops == (pre + WritePointer(ERDPTL, ERDPTH, readFrom) + mid) + WritePointer(ERXRDPTL, ERXRDPTH, next) + post;
    NoWrites(post, ERXRDPTL, ERXRDPTH);
    PointerAfterWrite(pre + WritePointer(ERDPTL, ERDPTH, readFrom) + mid, ERXRDPTL, ERXRDPTH, next, post);
    var tail := mid + WritePointer(ERXRDPTL, ERXRDPTH, next) + post;
    assert ops == pre + WritePointer(ERDPTL, ERDPTH, readFrom) + tail;
    NoWrites(tail, ERDPTL, ERDPTH);
    PointerAfterWrite(pre, ERDPTL, ERDPTH, readFrom, tail);
  }

  /** A sent packet goes into the buffer after its control byte 0x00. */
  lemma {:induction false} SendBufferContents(txStart: uint16, packet: seq<uint8>, len: uint16)
    ensures BufferWrites(SendOps(txStart, packet, len)) == [0x00] + packet
  {
    var post := [WriteBufferMemory([0x00]), WriteBufferMemory(packet), BitFieldSet(ECON1, TXRTS)];
    var pointers := [BitFieldSet(ECON1, TXRST), BitFieldClear(ECON1, TXRST)]
                    + WritePointer(EWRPTL, EWRPTH, txStart) + WritePointer(ETXNDL, ETXNDH, ToUint16(txStart + len));
    assert SendOps(txStart, packet, len) == pointers + post;
    BufferWritesAppend(pointers, post);
    NoBufferWrites(pointers);
    assert post[1..][1..][1..] == [];
    assert BufferWrites(post[1..][1..]) == [];
    assert BufferWrites(post[1..]) == packet;
  }

  /** The write pointer is set to the start of the transmit buffer, and the
      end pointer to the last byte written: the control byte at `txStart` is
      followed by the `len` packet bytes. */
  lemma {:induction false} SendPointers(txStart: uint16, packet: seq<uint8>, len: uint16)
    requires |packet| == len
    ensures Pointer(SendOps(txStart, packet, len), ETXNDL, ETXNDH) == Some(ToUint16(txStart + |[0x00] + packet| - 1))
    ensures Pointer(SendOps(txStart, packet, len), EWRPTL, EWRPTH) == Some(txStart)
  {
    var ops := SendOps(txStart, packet, len);
    var pre := [BitFieldSet(ECON1, TXRST), BitFieldClear(ECON1, TXRST)];
    var post := [WriteBufferMemory([0x00]), WriteBufferMemory(packet), BitFieldSet(ECON1, TXRTS)];
    assert ops == (pre + WritePointer(EWRPTL, EWRPTH, txStart)) + WritePointer(ETXNDL, ETXNDH, ToUint16(txStart + len)) + post;
    NoWrites(post, ETXNDL, ETXNDH);
    PointerAfterWrite(pre + WritePointer(EWRPTL, EWRPTH, txStart), ETXNDL, ETXNDH, ToUint16(txStart + len), post);
    var tail := WritePointer(ETXNDL, ETXNDH, ToUint16(txStart + len)) + post;
    assert ops == pre + WritePointer(EWRPTL, EWRPTH, txStart) + tail;
    NoWrites(tail, EWRPTL, EWRPTH);
    PointerAfterWrite(pre, EWRPTL, EWRPTH, txStart, tail);
  }

  lemma {:induction false} BufferWritesAppend(a: seq<Op>, b: seq<Op>)
    ensures BufferWrites(a + b) == BufferWrites(a) + BufferWrites(b)
  {
    if a == [] {
      assert a + b == b;
    } else {
      assert (a + b)[1..] == a[1..] + b;
      BufferWritesAppend(a[1..], b);
    }
  }

  lemma {:induction false} NoBufferWrites(ops: seq<Op>)
    requires forall k :: 0 <= k < |ops| ==> !ops[k].WriteBufferMemory?
    ensures BufferWrites(ops) == []
  {
    if ops != [] {
      NoBufferWrites(ops[1..]);
    }
  }

  class Driver {
    /** RXSTART_INIT, RXSTOP_INIT and TXSTART_INIT: the buffer layout. */
    const rxStart: uint16
    const rxStop: uint16
    const txStart: uint16
    var nextPacketPtr: uint16
    /** Every SPI operation issued, in order. */
    var ops: seq<Op>

    constructor (rxStart: uint16, rxStop: uint16, txStart: uint16)
      ensures this.rxStart == rxStart && this.rxStop == rxStop && this.txStart == txStart
      ensures nextPacketPtr == 0 && ops == []
    {
      this.rxStart := rxStart;
      this.rxStop := rxStop;
      this.txStart := txStart;
      nextPacketPtr := 0;
      ops := [];
    }

    /** The buffer-pointer setup of `initialize`: the receive buffer starts
        and is read from `rxStart`, ends at `rxStop`, and transmission starts
        at `txStart`; reception is then enabled. */
    method Initialize()
      modifies this
      ensures nextPacketPtr == rxStart
      ensures ops == old(ops) + InitOps(rxStart, rxStop, txStart)
    {
      ops := ops + [SoftReset];
      nextPacketPtr := rxStart;
      ops := ops + WritePointer(ERXSTL, ERXSTH, rxStart);
      ops := ops + WritePointer(ERXRDPTL, ERXRDPTH, rxStart);
      ops := ops + WritePointer(ERXNDL, ERXNDH, rxStop);
      ops := ops + WritePointer(ETXSTL, ETXSTH, txStart);
      ops := ops + [BitFieldSet(ECON1, RXEN)];
    }

    /** `receivePacket(maxlen, packet)`: with no packet pending nothing is
        read and 0 is returned; otherwise the packet at `nextPacketPtr` is
        fetched, its first `len` bytes land in `packet`, and `nextPacketPtr`
        moves to the pointer in the packet's header. */
    method ReceivePacket(maxlen: uint16, packet: array<uint8>, pending: bool, rx: seq<uint8>) returns (len: uint16)
      requires packet.Length >= maxlen && |rx| >= 6 + maxlen
      modifies this, packet
      ensures !pending ==> len == 0 && nextPacketPtr == old(nextPacketPtr) && ops == old(ops) + [ReadReg(EIR)]
                           && packet[..] == old(packet[..])
      ensures pending ==> nextPacketPtr == Join(rx[0], rx[1])
                          && len == ReceivedLength(Join(rx[2], rx[3]), maxlen)
                          && packet[..len] == rx[6..6 + len]
                          && packet[len..] == old(packet[len..])
                          && ops == old(ops) + ReceiveOps(old(nextPacketPtr), nextPacketPtr, len)
    {
      if !pending {
        ops := ops + [ReadReg(EIR)];
        return 0;
      }
      ghost var readFrom := nextPacketPtr;
      ops := ops + [ReadReg(EIR)] + WritePointer(ERDPTL, ERDPTH, nextPacketPtr);
      nextPacketPtr := Join(rx[0], rx[1]);
      len := Join(rx[2], rx[3]);
      var rxstat := Join(rx[4], rx[5]);
      ops := ops + [ReadBufferMemory(6)];
      len := ToUint16(len - 4);
      if len >= maxlen {
        len := maxlen;
      }
      assert len == ReceivedLength(Join(rx[2], rx[3]), maxlen);
      ghost var head := ops;
      ReadBuffer(len, packet, rx[6..]);
      assert rx[6..][..len] == rx[6..6 + len];
      ops := ops + WritePointer(ERXRDPTL, ERXRDPTH, nextPacketPtr);
      ops := ops + [BitFieldSet(ECON2, PKTDEC)];
      assert ops == head + [ReadBufferMemory(len)] + WritePointer(ERXRDPTL, ERXRDPTH, nextPacketPtr) + [BitFieldSet(ECON2, PKTDEC)];
    }

    /** `readBuffer(len, packet)`: `len` bytes from the receive buffer into
        `packet`, one at a time. */
    method ReadBuffer(len: uint16, packet: array<uint8>, bytes: seq<uint8>)
      requires len <= packet.Length && len <= |bytes|
      modifies this, packet
      ensures packet[..len] == bytes[..len] && packet[len..] == old(packet[len..])
      ensures ops == old(ops) + [ReadBufferMemory(len)] && nextPacketPtr == old(nextPacketPtr)
    {
      var i := 0;
      while i < len
        invariant 0 <= i <= len
        invariant packet[..i] == bytes[..i]
        invariant packet[len..] == old(packet[len..])
        invariant ops == old(ops) && nextPacketPtr == old(nextPacketPtr)
      {
        packet[i] := bytes[i];
        i := i + 1;
      }
      ops := ops + [ReadBufferMemory(len)];
    }

    /** `sendPacket(len, packet)`: reset the transmit logic, point the
        transmit window at `txStart .. txStart + len`, write the control byte
        and the packet, and request transmission. */
    method SendPacket(len: uint16, packet: array<uint8>)
      requires len <= packet.Length
      modifies this
      ensures ops == old(ops) + SendOps(txStart, packet[..len], len)
      ensures nextPacketPtr == old(nextPacketPtr)
    {
      ops := ops + [BitFieldSet(ECON1, TXRST), BitFieldClear(ECON1, TXRST)];
      ops := ops + WritePointer(EWRPTL, EWRPTH, txStart);
      var txStartEnd := ToUint16(txStart + len);
      ops := ops + WritePointer(ETXNDL, ETXNDH, txStartEnd);
      ops := ops + [WriteBufferMemory([0x00])];
      ops := ops + [WriteBufferMemory(packet[..len])];
      ops := ops + [BitFieldSet(ECON1, TXRTS)];
    }
  }

  /** After `initialize` the receive buffer starts at `rxStart`. */
  lemma {:induction false} InitReceiveStart(rxStart: uint16, rxStop: uint16, txStart: uint16)
    ensures Pointer(InitOps(rxStart, rxStop, txStart), ERXSTL, ERXSTH) == Some(rxStart)
  {
    var rest := WritePointer(ERXRDPTL, ERXRDPTH, rxStart) + WritePointer(ERXNDL, ERXNDH, rxStop)
                + WritePointer(ETXSTL, ETXSTH, txStart) + [BitFieldSet(ECON1, RXEN)];
    NoWrites(rest, ERXSTL, ERXSTH);
    assert InitOps(rxStart, rxStop, txStart) == [SoftReset] + WritePointer(ERXSTL, ERXSTH, rxStart) + rest;
    PointerAfterWrite([SoftReset], ERXSTL, ERXSTH, rxStart, rest);
  }

  /** After `initialize` the receive read pointer is `rxStart`. */
  lemma {:induction false} InitReceiveRead(rxStart: uint16, rxStop: uint16, txStart: uint16)
    ensures Pointer(InitOps(rxStart, rxStop, txStart), ERXRDPTL, ERXRDPTH) == Some(rxStart)
  {
    var pre := [SoftReset] + WritePointer(ERXSTL, ERXSTH, rxStart);
    var rest := WritePointer(ERXNDL, ERXNDH, rxStop) + WritePointer(ETXSTL, ETXSTH, txStart) + [BitFieldSet(ECON1, RXEN)];
    NoWrites(rest, ERXRDPTL, ERXRDPTH);
    assert InitOps(rxStart, rxStop, txStart) == pre + WritePointer(ERXRDPTL, ERXRDPTH, rxStart) + rest;
    PointerAfterWrite(pre, ERXRDPTL, ERXRDPTH, rxStart, rest);
  }

  /** After `initialize` the receive buffer ends at `rxStop`. */
  lemma {:induction false} InitReceiveEnd(rxStart: uint16, rxStop: uint16, txStart: uint16)
    ensures Pointer(InitOps(rxStart, rxStop, txStart), ERXNDL, ERXNDH) == Some(rxStop)
  {
    var pre := [SoftReset] + WritePointer(ERXSTL, ERXSTH, rxStart) + WritePointer(ERXRDPTL, ERXRDPTH, rxStart);
    var rest := WritePointer(ETXSTL, ETXSTH, txStart) + [BitFieldSet(ECON1, RXEN)];
    NoWrites(rest, ERXNDL, ERXNDH);
    assert InitOps(rxStart, rxStop, txStart) == pre + WritePointer(ERXNDL, ERXNDH, rxStop) + rest;
    PointerAfterWrite(pre, ERXNDL, ERXNDH, rxStop, rest);
  }

  /** After `initialize` the transmit buffer starts at `txStart`. */
  lemma {:induction false} InitTransmitStart(rxStart: uint16, rxStop: uint16, txStart: uint16)
    ensures Pointer(InitOps(rxStart, rxStop, txStart), ETXSTL, ETXSTH) == Some(txStart)
  {
    var pre := [SoftReset] + WritePointer(ERXSTL, ERXSTH, rxStart) + WritePointer(ERXRDPTL, ERXRDPTH, rxStart)
               + WritePointer(ERXNDL, ERXNDH, rxStop);
    var rest := [BitFieldSet(ECON1, RXEN)];
    NoWrites(rest, ETXSTL, ETXSTH);
    PointerAfterWrite(pre, ETXSTL, ETXSTH, txStart, rest);
  }

  /** A sequence of pointer writes to other registers leaves a pair
      unwritten. */
  lemma {:induction false} NoWrites(ops: seq<Op>, lo: Reg, hi: Reg)
    requires forall k :: 0 <= k < |ops| ==> ops[k].WriteReg? ==> ops[k].reg != lo && ops[k].reg != hi
    ensures LastWrite(ops, lo) == None && LastWrite(ops, hi) == None
    decreases |ops|
  {
    if ops != [] {
      NoWrites(ops[..|ops| - 1], lo, hi);
    }
  }
}
