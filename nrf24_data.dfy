/** The data layer of the nRF24 driver: the layout of the frames sent over
    the air, the network addresses, and the one-shot "packet processed" flag. */
module Nrf24Data {
  import opened Ints

  /** `sizeof(Header)`: source and destination address. */
  const HeaderLength: nat := 2
  /** Data bytes of a frame: the 32-byte maximum payload of the radio less the header. */
  const FrameDataLength: nat := 30

  datatype FrameHeader = FrameHeader(src: uint8, dest: uint8)

  /** The packed frame: header, then 30 data bytes. */
  datatype Frame = Frame(header: FrameHeader, data: seq<uint8>)

  ghost predicate WellFormed(f: Frame)
  {
    |f.data| == FrameDataLength
  }

  /** The bytes of a packed frame as they go over the air. */
  function FrameBytes(f: Frame): (r: seq<uint8>)
    requires WellFormed(f)
    ensures |r| == HeaderLength + FrameDataLength
    ensures r[0] == f.header.src && r[1] == f.header.dest && r[HeaderLength..] == f.data
  {
    [f.header.src, f.header.dest] + f.data
  }

  /** Reading a received 32-byte frame. */
  function ParseFrame(bytes: seq<uint8>): (f: Frame)
    requires |bytes| == HeaderLength + FrameDataLength
    ensures WellFormed(f)
  {
    Frame(FrameHeader(bytes[0], bytes[1]), bytes[HeaderLength..])
  }

  /** A frame is 32 bytes, and the packed layout is read back unchanged. */
  lemma FrameLayout(f: Frame, bytes: seq<uint8>)
    requires WellFormed(f) && |bytes| == HeaderLength + FrameDataLength
    ensures ParseFrame(FrameBytes(f)) == f
    ensures FrameBytes(ParseFrame(bytes)) == bytes
  {
    assert bytes == [bytes[0], bytes[1]] + bytes[HeaderLength..];
  }

  datatype Payload = Payload(data: seq<uint8>, length: uint8)

  /** The packet the user hands to the data layer. */
  datatype Packet = Packet(payload: Payload, dest: uint8, src: uint8)

  /** `Packet()`: addressed to 0, from 0, with the full payload length. */
  function NewPacket(maxPayload: uint8): (p: Packet)
    ensures p.dest == 0 && p.src == 0
    ensures p.payload.length == maxPayload && |p.payload.data| == maxPayload
  {
    Packet(Payload(seq(maxPayload, _ => 0), maxPayload), 0, 0)
  }

  /** `getPayloadLength()`: the PHY payload length less the frame header, in
      `uint8_t` arithmetic. */
  function PayloadLength(phyPayloadLength: uint8): (r: uint8)
    ensures phyPayloadLength >= HeaderLength ==> r + HeaderLength == phyPayloadLength
    ensures phyPayloadLength < HeaderLength ==> r == phyPayloadLength + 0x100 - HeaderLength
  {
    (phyPayloadLength - HeaderLength) % 0x100
  }

  /** With the radio's 32-byte maximum payload, the user payload is the 30
      data bytes of a frame. */
  lemma PayloadFillsFrame()
    ensures PayloadLength(HeaderLength + FrameDataLength) == FrameDataLength
  {
  }

  /** `assembleAddress`: the 64-bit base address with the node address or'ed in. */
  function AssembleAddress(baseAddress: bv64, address: bv8): (r: bv64)
  {
    baseAddress | (address as bv64)
  }

  /** A base address whose last byte is free (the documented layout: base
      address above, node address in the last byte) yields the node address
      in the last byte. */
  lemma AssembleAddressLowByte(baseAddress: bv64, address: bv8)
    requires baseAddress & 0xff == 0
    ensures AssembleAddress(baseAddress, address) & 0xff == address as bv64
  {
    var a := address as bv64;
    assert a & 0xff == a;
    assert (baseAddress | a) & 0xff == (baseAddress & 0xff) | (a & 0xff);
  }

  /** The node address does not reach the upper bytes of the base address. */
  lemma AssembleAddressHighBytes(baseAddress: bv64, address: bv8)
    ensures AssembleAddress(baseAddress, address) >> 8 == baseAddress >> 8
  {
    var a := address as bv64;
    assert a >> 8 == 0;
    assert (baseAddress | a) >> 8 == (baseAddress >> 8) | (a >> 8);
  }

  /** With a free last byte, distinct node addresses give distinct radio
      addresses. */
  lemma {:induction false} AssembleAddressInjective(baseAddress: bv64, address: bv8, other: bv8)
    requires baseAddress & 0xff == 0 && address != other
    ensures AssembleAddress(baseAddress, address) != AssembleAddress(baseAddress, other)
  {
    AssembleAddressLowByte(baseAddress, address);
    AssembleAddressLowByte(baseAddress, other);
    assert address as bv64 != other as bv64;
  }

  /** The static state of the data layer that the shown members touch. */
  class DataLayer {
    var packetProcessed: bool

    constructor ()
      ensures !packetProcessed
    {
      packetProcessed := false;
    }

    /** True once per processed packet: the flag is reported and cleared. */
    method IsPacketProcessed() returns (r: bool)
      modifies this
      ensures r == old(packetProcessed) && !packetProcessed
    {
      if packetProcessed {
        packetProcessed := false;
        return true;
      }
      return false;
    }
  }

  /** Asking twice without the flag being set again answers true at most once. */
  method AtMostOncePerPacket(d: DataLayer) returns (first: bool, second: bool)
    modifies d
    ensures first == old(d.packetProcessed) && !second && !d.packetProcessed
  {
    first := d.IsPacketProcessed();
    second := d.IsPacketProcessed();
  }
}
