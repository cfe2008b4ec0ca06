/** The frame of the hosted TCP/IP backend: a TCPHeader (message type, the
    embedded xpcc header, the payload length) followed by the payload bytes.

    The C++ code copies the TCPHeader struct byte for byte into the frame. The
    model stands for that native layout with a fixed 10-byte little-endian
    encoding (`EncodeHeader`): one byte for the message type, five for the xpcc
    header, four for the 32-bit `dataLength`. As on the little-endian targets of
    the library, the low byte of `dataLength`, which is all `getDataSize`
    reports, is the first byte of the length field. */
module TcpipMessage {
  import opened Ints
  import opened Communication

  /** TCPHeader::Type: a registration of a component, or a data message. */
  datatype MessageType = REGISTER | DATA

  datatype TCPHeader = TCPHeader(messageType: MessageType, header: Header, dataLength: int32)

  /** `sizeof(TCPHeader)` of the model's layout. */
  const HeaderSize: nat := 10

  /** Largest frame: `getDataSize` never reports more than 255 payload bytes. */
  const MaxMessageLength: nat := HeaderSize + 255

  /** The xpcc header a default-constructed TCPHeader holds before the
      registering constructor sets its source. */
  const DefaultHeader: Header := Header(REQUEST, false, 0, 0, 0)

  // --- TCPHeader constructors and getters ----------------------------------

  /** `TCPHeader(sender)`: a registration with no payload, naming the sender. */
  function RegisterHeader(sender: uint8): TCPHeader
  {
    TCPHeader(REGISTER, DefaultHeader.(source := sender), 0)
  }

  /** `TCPHeader(header, dataSize)`: a data message. */
  function DataHeader(header: Header, dataSize: int32): TCPHeader
  {
    TCPHeader(DATA, header, dataSize)
  }

  /** `getDataSize()`: the `int` length narrowed to `uint8_t`. */
  function DataSize(h: TCPHeader): (r: uint8)
    ensures r == h.dataLength % 0x100
  {
    ToUint8(h.dataLength)
  }

  /** `getMessageLength()`. */
  function MessageLength(h: TCPHeader): (r: nat)
    ensures HeaderSize <= r <= MaxMessageLength
    ensures r == HeaderSize + DataSize(h)
  {
    HeaderSize + DataSize(h)
  }

  /** The narrowed length of a payload of `n` bytes is `n` modulo 256, so it
      is the whole payload exactly when the payload is shorter than 256 bytes. */
  lemma {:induction false} DataSizeOfPayload(n: nat)
    ensures DataSize(DataHeader(DefaultHeader, ToInt32(n))) == n % 0x100
    ensures DataSize(DataHeader(DefaultHeader, ToInt32(n))) == n <==> n < 0x100
  {
    var r := ToInt32(n);
    assert (r - n) % 0x1_0000_0000 == 0;
    var q := (r - n) / 0x1_0000_0000;
    assert r == n + q * 0x1_0000_0000;
    assert r == n + (q * 0x100_0000) * 0x100;
    ModShift(n, q * 0x100_0000);
  }

  lemma ModShift(a: int, k: int)
    ensures (a + k * 0x100) % 0x100 == a % 0x100
  {
  }

  // --- the wire layout of the header -----------------------------------------

  function TypeCode(t: MessageType): uint8
  {
    match t
    case REGISTER => 0
    case DATA => 1
  }

  function HeaderTypeCode(t: HeaderType): uint8
  {
    match t
    case REQUEST => 0
    case RESPONSE => 1
    case NEGATIVE_RESPONSE => 2
  }

  /** Four bytes, least significant first. */
  function LE32(u: uint32): (r: seq<uint8>)
    ensures |r| == 4 && r[0] == u % 0x100
  {
    [u % 0x100, (u / 0x100) % 0x100, (u / 0x1_0000) % 0x100, u / 0x100_0000]
  }

  function FromLE32(b: seq<uint8>): uint32
    requires |b| == 4
  {
    var b0: int, b1: int, b2: int, b3: int := b[0], b[1], b[2], b[3];
    b0 + 0x100 * (b1 + 0x100 * (b2 + 0x100 * b3))
  }

  lemma {:induction false} LE32RoundTrip(u: uint32)
    ensures FromLE32(LE32(u)) == u
  {
    var r1 := u / 0x100;
    var r2 := r1 / 0x100;
    assert u == u % 0x100 + 0x100 * r1;
    assert r1 == r1 % 0x100 + 0x100 * r2;
    assert r2 == r2 % 0x100 + 0x100 * (r2 / 0x100);
    assert r2 / 0x100 == u / 0x100_0000;
  }

  /** The header as it appears on the wire. */
  function EncodeHeader(h: TCPHeader): (r: seq<uint8>)
    ensures |r| == HeaderSize
  {
    [ TypeCode(h.messageType),
      HeaderTypeCode(h.header.headerType),
      if h.header.isAcknowledge then 1 else 0,
      h.header.destination,
      h.header.source,
      h.header.packetIdentifier ]
    + LE32(h.dataLength % 0x1_0000_0000)
  }

  /** What `getDataSize()` reads from a raw header buffer: the low byte of the
      length field. */
  function DataSizeOfBytes(raw: seq<uint8>): uint8
    requires |raw| == HeaderSize
  {
    raw[6]
  }

  /** Reinterpreting header bytes as a TCPHeader; bytes no TCPHeader produces
      give `None`. */
  function DecodeHeader(raw: seq<uint8>): Option<TCPHeader>
    requires |raw| == HeaderSize
  {
    if raw[0] > 1 || raw[1] > 2 || raw[2] > 1 then None
    else
      var u := FromLE32(raw[6..10]);
      Some(TCPHeader(
        if raw[0] == 0 then REGISTER else DATA,
        Header(if raw[1] == 0 then REQUEST else if raw[1] == 1 then RESPONSE else NEGATIVE_RESPONSE,
               raw[2] == 1, raw[3], raw[4], raw[5]),
        if u < 0x8000_0000 then u else u - 0x1_0000_0000))
  }

  datatype Option<T> = None | Some(value: T)

  /** Reinterpreting the five bytes of an embedded xpcc header (bytes 1 to 5
      of a raw TCPHeader); bytes no xpcc header produces give `None`. */
  function DecodeXpccHeader(b: seq<uint8>): Option<Header>
    requires |b| == 5
  {
    if b[0] > 2 || b[1] > 1 then None
    else Some(Header(if b[0] == 0 then REQUEST else if b[0] == 1 then RESPONSE else NEGATIVE_RESPONSE,
                     b[1] == 1, b[2], b[3], b[4]))
  }

  /** The header bytes decode back to the header, and the length byte the
      receiver reads is the header's data size. */
  lemma {:induction false} HeaderRoundTrip(h: TCPHeader)
    ensures DecodeHeader(EncodeHeader(h)) == Some(h)
    ensures DataSizeOfBytes(EncodeHeader(h)) == DataSize(h)
    ensures DecodeXpccHeader(EncodeHeader(h)[1..6]) == Some(h.header)
  {
    var raw := EncodeHeader(h);
    var u := h.dataLength % 0x1_0000_0000;
    assert raw[6..10] == LE32(u);
    LE32RoundTrip(u);
    assert FromLE32(raw[6..10]) == u;
    Int32Bits(h.dataLength);
  }

  /** The 32-bit pattern of an `int32` reads back as the same signed value,
      and its low byte is the value's low byte. */
  lemma Int32Bits(x: int32)
    ensures var u := x % 0x1_0000_0000;
      && (if u < 0x8000_0000 then u else u - 0x1_0000_0000) == x
      && u % 0x100 == x % 0x100
  {
    var u := x % 0x1_0000_0000;
    if x < 0 {
      assert u == x + 0x1_0000_0000;
      ModShift(x, 0x100_0000);
    }
  }

  // --- frames -----------------------------------------------------------------

  /** The encoded frame: the header bytes, then the first `getDataSize()`
      payload bytes. */
  function Frame(h: TCPHeader, payload: seq<uint8>): (r: seq<uint8>)
    requires DataSize(h) <= |payload|
    ensures |r| == MessageLength(h)
  {
    EncodeHeader(h) + payload[..DataSize(h)]
  }

  /** Splitting a frame at the header size and taking the length the header
      announces gives back the header and the transmitted payload; the
      transmitted payload is the whole payload exactly when it fits in the
      narrowed length. */
  lemma {:induction false} FrameRoundTrip(h: TCPHeader, payload: seq<uint8>)
    requires h.dataLength == ToInt32(|payload|)
    ensures DataSize(h) == |payload| % 0x100
    ensures var f := Frame(h, payload);
      && DecodeHeader(f[..HeaderSize]) == Some(h)
      && HeaderSize + DataSizeOfBytes(f[..HeaderSize]) == |f|
      && f[HeaderSize..] == payload[..|payload| % 0x100]
      && (f[HeaderSize..] == payload <==> |payload| < 0x100)
  {
    DataSizeOfPayload(|payload|);
    assert DataSize(h) == DataSize(DataHeader(DefaultHeader, ToInt32(|payload|)));
    var f := Frame(h, payload);
    assert f[..HeaderSize] == EncodeHeader(h);
    HeaderRoundTrip(h);
    assert f[HeaderSize..] == payload[..DataSize(h)];
    if f[HeaderSize..] == payload {
      assert |payload| == DataSize(h);
    }
  }

  // --- the message object -----------------------------------------------------

  /** A message: its TCP header, its payload, and the buffer its encoded frame
      is written to. */
  class Message {
    const header: TCPHeader
    const data: seq<uint8>
    const dataStorage: array<uint8>

    /** The length field always describes the payload. */
    ghost predicate Valid()
      reads this
    {
      && header.dataLength == ToInt32(|data|)
      && dataStorage.Length == MaxMessageLength
    }

    /** `Message(header, payload)`: a DATA message carrying the payload. */
    constructor (header: Header, payload: seq<uint8>)
      ensures Valid() && fresh(dataStorage)
      ensures this.header == TCPHeader(DATA, header, ToInt32(|payload|)) && data == payload
    {
      this.header := DataHeader(header, ToInt32(|payload|));
      data := payload;
      dataStorage := new uint8[MaxMessageLength];
    }

    /** `Message(type, header, payload)`. */
    constructor Typed(messageType: MessageType, header: Header, payload: seq<uint8>)
      ensures Valid() && fresh(dataStorage)
      ensures this.header == TCPHeader(messageType, header, ToInt32(|payload|)) && data == payload
    {
      this.header := TCPHeader(messageType, header, ToInt32(|payload|));
      data := payload;
      dataStorage := new uint8[MaxMessageLength];
    }

    /** `Message(identifier)`: the registration of a component, without payload. */
    constructor Register(identifier: uint8)
      ensures Valid() && fresh(dataStorage)
      ensures header.messageType == REGISTER && header.dataLength == 0
      ensures header.header.source == identifier && data == []
    {
      header := RegisterHeader(identifier);
      data := [];
      dataStorage := new uint8[MaxMessageLength];
    }

    /** The copy constructor keeps header and payload; the payload bytes are shared. */
    constructor Copy(msg: Message)
      requires msg.Valid()
      ensures Valid() && fresh(dataStorage)
      ensures header == msg.header && data == msg.data
    {
      header := msg.header;
      data := msg.data;
      dataStorage := new uint8[MaxMessageLength];
    }

    /** The number of bytes `encodeMessage` lays out: the header followed by
        the payload bytes the header announces. */
    function GetMessageLength(): (r: nat)
      reads this
      ensures r == HeaderSize + DataSize(header) && r <= MaxMessageLength
      ensures DataSize(header) <= |data| ==> r == |Frame(header, data)|
    {
      MessageLength(header)
    }

    /** `encodeMessage()`: clear the frame, copy the header bytes, and copy the
        payload only when the announced size is not zero. Nothing past the
        frame changes. */
    method EncodeMessage()
      requires Valid()
      modifies dataStorage
      ensures GetMessageLength() <= dataStorage.Length
      ensures DataSize(header) <= |data|
      ensures dataStorage[..GetMessageLength()] == Frame(header, data)
      ensures dataStorage[GetMessageLength()..] == old(dataStorage[GetMessageLength()..])
    {
      DataSizeOfPayload(|data|);
      assert DataSize(header) == DataSize(DataHeader(DefaultHeader, ToInt32(|data|)));
      var raw := EncodeHeader(header);
      var len := GetMessageLength();

      var i := 0;
      while i < len
        invariant 0 <= i <= len
        invariant forall k :: 0 <= k < i ==> dataStorage[k] == 0
        invariant dataStorage[len..] == old(dataStorage[len..])
      {
        dataStorage[i] := 0;
        i := i + 1;
      }

      i := 0;
      while i < HeaderSize
        invariant 0 <= i <= HeaderSize
        invariant forall k :: 0 <= k < i ==> dataStorage[k] == raw[k]
        invariant forall k :: HeaderSize <= k < len ==> dataStorage[k] == 0
        invariant dataStorage[len..] == old(dataStorage[len..])
      {
        dataStorage[i] := raw[i];
        i := i + 1;
      }

      if DataSize(header) > 0 {
        i := HeaderSize;
        while i < len
          invariant HeaderSize <= i <= len
          invariant forall k :: 0 <= k < HeaderSize ==> dataStorage[k] == raw[k]
          invariant forall k :: HeaderSize <= k < i ==> dataStorage[k] == data[k - HeaderSize]
          invariant dataStorage[len..] == old(dataStorage[len..])
        {
          dataStorage[i] := data[i - HeaderSize];
          i := i + 1;
        }
      }
      assert dataStorage[..len] == raw + data[..DataSize(header)];
    }
  }
}
