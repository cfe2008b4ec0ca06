/** The per-component receiver of the hosted TCP/IP backend: it accepts one
    connection, then reads frames from it, header first, body second, and hands
    each complete frame to its parent client.

    The socket is modelled by `input`, every byte the peer sends before it
    closes the connection. An asynchronous read of `n` bytes completes with
    the next `n` bytes of `input`, or with an error when fewer remain (end of
    stream) or when the socket reports one (the `error` argument of the
    handlers). The parent's `receiveNewMessage` is the log `delivered`. */
module TcpipReceiver {
  import opened Ints
  import opened Communication
  import opened TcpipMessage

  /** A frame read from the connection: the header buffer and the body bytes
      read after it. The message handed to the parent for it is
      `Message(getXpccHeader(), payload)`, whose header is `DeliveredHeader`. */
  datatype Received = Received(rawHeader: seq<uint8>, body: seq<uint8>)

  /** `getXpccHeader()` of a raw header buffer. */
  function XpccHeaderOf(raw: seq<uint8>): Option<Header>
    requires |raw| == HeaderSize
  {
    DecodeXpccHeader(raw[1..6])
  }

  /** The TCPHeader of a delivered message: a fresh DATA header around the
      received xpcc header, whose length is the size of the body. The message
      type and the length that arrived are not kept. `None` when the bytes
      are no xpcc header. */
  function DeliveredHeader(r: Received): (m: Option<TCPHeader>)
    requires |r.rawHeader| == HeaderSize
    ensures m.Some? <==> XpccHeaderOf(r.rawHeader).Some?
    ensures |r.body| < 0x100 && m.Some? ==>
              m.value.messageType == DATA && m.value.header == XpccHeaderOf(r.rawHeader).value
              && DataSize(m.value) == |r.body|
  {
    match XpccHeaderOf(r.rawHeader)
    case None => None
    case Some(x) => Some(DataHeader(x, ToInt32(|r.body|)))
  }

  datatype Phase =
    | Accepting       // waiting for the connection
    | AcceptFailed    // the one accept failed; the receiver never connects
    | Connected       // connection accepted, no read issued yet
    | AwaitingHeader  // a read of HeaderSize bytes is pending
    | AwaitingBody    // a read of the header's data size is pending
    | Closed          // shut down after a complete message
    | Stalled         // a read failed; no further read is ever issued

  // --- the frames a byte stream carries -------------------------------------

  /** The complete frames of `s` from offset `i` on, in order; a trailing
      partial frame yields nothing. Every body is at most 255 bytes, the
      most a `uint8_t` data size announces. */
  function ParseFrom(s: seq<uint8>, i: nat): (r: seq<Received>)
    requires i <= |s|
    decreases |s| - i
  {
    if |s| - i < HeaderSize then []
    else
      var n := DataSizeOfBytes(s[i..i + HeaderSize]);
      if |s| - i < HeaderSize + n then []
      else [Received(s[i..i + HeaderSize], s[i + HeaderSize..i + HeaderSize + n])] + ParseFrom(s, i + HeaderSize + n)
  }

  function Parse(s: seq<uint8>): seq<Received>
  {
    ParseFrom(s, 0)
  }

  /** A complete frame at offset `i` is the next frame parsed. */
  lemma ParseFromFrame(s: seq<uint8>, i: nat, header: seq<uint8>)
    requires i + HeaderSize <= |s| && header == s[i..i + HeaderSize]
    requires i + HeaderSize + DataSizeOfBytes(header) <= |s|
    ensures var n := DataSizeOfBytes(header);
      ParseFrom(s, i) == [Received(header, s[i + HeaderSize..i + HeaderSize + n])] + ParseFrom(s, i + HeaderSize + n)
  {
  }

  /** Delivering the complete frame at offset `start` keeps the deliveries
      the frames parsed before the next offset. */
  lemma DeliverNext(s: seq<uint8>, delivered: seq<Received>, start: nat, header: seq<uint8>)
    requires start + HeaderSize <= |s| && header == s[start..start + HeaderSize]
    requires start + HeaderSize + DataSizeOfBytes(header) <= |s|
    requires Parse(s) == delivered + ParseFrom(s, start)
    ensures var next := start + HeaderSize + DataSizeOfBytes(header);
      var now := delivered + [Received(header, s[start + HeaderSize..next])];
      Parse(s) == now + ParseFrom(s, next) && now <= Parse(s)
  {
    var next := start + HeaderSize + DataSizeOfBytes(header);
    var now := delivered + [Received(header, s[start + HeaderSize..next])];
    ParseFromFrame(s, start, header);
    assert Parse(s) == now + ParseFrom(s, next);
  }

  /** Parsing does not look at the bytes before the offset. */
  lemma {:induction false} ParseFromSuffix(a: seq<uint8>, b: seq<uint8>, i: nat)
    requires i <= |b|
    ensures ParseFrom(a + b, |a| + i) == ParseFrom(b, i)
    decreases |b| - i
  {
    if FrameComplete(b, i) {
      ParseFromSuffix(a, b, i + HeaderSize + DataSizeOfBytes(b[i..i + HeaderSize]));
      SuffixFrame(a, b, i);
    } else {
      SuffixEnd(a, b, i);
    }
  }

  /** A whole frame starts at offset `i`. */
  predicate FrameComplete(s: seq<uint8>, i: nat)
    requires i <= |s|
  {
    |s| - i >= HeaderSize && |s| - i >= HeaderSize + DataSizeOfBytes(s[i..i + HeaderSize])
  }

  lemma SuffixEnd(a: seq<uint8>, b: seq<uint8>, i: nat)
    requires i <= |b| && !FrameComplete(b, i)
    ensures ParseFrom(a + b, |a| + i) == [] == ParseFrom(b, i)
  {
    if |b| - i >= HeaderSize {
      assert (a + b)[|a| + i..|a| + i + HeaderSize] == b[i..i + HeaderSize];
    }
  }

  lemma SuffixFrame(a: seq<uint8>, b: seq<uint8>, i: nat)
    requires i <= |b| && FrameComplete(b, i)
    requires var next := i + HeaderSize + DataSizeOfBytes(b[i..i + HeaderSize]);
      ParseFrom(a + b, |a| + next) == ParseFrom(b, next)
    ensures ParseFrom(a + b, |a| + i) == ParseFrom(b, i)
  {
    var s, j := a + b, |a| + i;
    var header := b[i..i + HeaderSize];
    var n := DataSizeOfBytes(header);
    assert s[j..j + HeaderSize] == header;
    assert s[j + HeaderSize..j + HeaderSize + n] == b[i + HeaderSize..i + HeaderSize + n];
    ParseFromFrame(s, j, header);
    ParseFromFrame(b, i, header);
  }



  /** No frame carries more than 255 body bytes, the most a `uint8_t` data
      size announces. */
  lemma {:induction false} ParseBodiesShort(s: seq<uint8>, i: nat)
    requires i <= |s|
    ensures forall k :: 0 <= k < |ParseFrom(s, i)| ==>
              |ParseFrom(s, i)[k].rawHeader| == HeaderSize && |ParseFrom(s, i)[k].body| < 0x100
    decreases |s| - i
  {
    if |s| - i >= HeaderSize {
      var n := DataSizeOfBytes(s[i..i + HeaderSize]);
      if |s| - i >= HeaderSize + n {
        ParseBodiesShort(s, i + HeaderSize + n);
      }
    }
  }


  /** A message as handed to the sender: its TCP header and its payload. */
  datatype Outgoing = Outgoing(header: TCPHeader, payload: seq<uint8>)

  ghost predicate Encodable(ms: seq<Outgoing>)
  {
    forall k :: 0 <= k < |ms| ==> DataSize(ms[k].header) <= |ms[k].payload|
  }

  /** The byte stream a sender produces by writing the encoded frames in order. */
  function Stream(ms: seq<Outgoing>): (r: seq<uint8>)
    requires Encodable(ms)
  {
    if ms == [] then [] else Frame(ms[0].header, ms[0].payload) + Stream(ms[1..])
  }

  /** What the receiver is expected to deliver for those messages. */
  function Expected(ms: seq<Outgoing>): (r: seq<Received>)
    requires Encodable(ms)
    ensures |r| == |ms|
  {
    if ms == [] then []
    else [Received(EncodeHeader(ms[0].header), ms[0].payload[..DataSize(ms[0].header)])] + Expected(ms[1..])
  }

  /** Each expected delivery is a DATA message around the sent xpcc header,
      whatever type was sent, whose length is the size of the transmitted
      payload. */
  lemma ExpectedDelivers(ms: seq<Outgoing>, k: nat)
    requires Encodable(ms) && k < |ms|
    ensures |Expected(ms)[k].rawHeader| == HeaderSize
    ensures DeliveredHeader(Expected(ms)[k]) == Some(DataHeader(ms[k].header.header, DataSize(ms[k].header)))
    decreases k
  {
    if k > 0 {
      assert Encodable(ms[1..]) by {
        forall j | 0 <= j < |ms[1..]| ensures DataSize(ms[1..][j].header) <= |ms[1..][j].payload| {
          assert ms[1..][j] == ms[j + 1];
        }
      }
      assert Expected(ms)[k] == Expected(ms[1..])[k - 1];
      assert ms[k] == ms[1..][k - 1];
      ExpectedDelivers(ms[1..], k - 1);
    } else {
      HeaderRoundTrip(ms[0].header);
    }
  }

  /** Parsing the stream of encoded frames gives back, frame by frame, the
      sent xpcc header and the first `getDataSize()` payload bytes. */
  lemma {:induction false} ParseStream(ms: seq<Outgoing>)
    requires Encodable(ms)
    ensures Parse(Stream(ms)) == Expected(ms)
    decreases |ms|
  {
    if ms != [] {
      var h, p := ms[0].header, ms[0].payload;
      var f := Frame(h, p);
      var s := Stream(ms);
      assert Encodable(ms[1..]) by {
        forall k | 0 <= k < |ms[1..]| ensures DataSize(ms[1..][k].header) <= |ms[1..][k].payload| {
          assert ms[1..][k] == ms[k + 1];
        }
      }
      ParseStream(ms[1..]);
      HeaderRoundTrip(h);
      assert s == f + Stream(ms[1..]);
      assert s[0..HeaderSize] == EncodeHeader(h);
      var n := DataSizeOfBytes(s[0..HeaderSize]);
      assert n == DataSize(h);
      assert s[HeaderSize..HeaderSize + n] == p[..DataSize(h)];
      ParseFromSuffix(f, Stream(ms[1..]), 0);
      assert ParseFrom(s, HeaderSize + n) == Parse(Stream(ms[1..]));
    }
  }

  // --- the receiver -------------------------------------------------------------

  class Receiver {
    const componentId: int
    /** The port the receiver listens on. */
    const port: int
    /** Every byte the peer writes to the connection, in order. */
    const input: seq<uint8>

    var connected: bool
    var shutdown: bool
    var phase: Phase
    /** Number of bytes of `input` consumed by completed reads. */
    var pos: nat
    /** The header buffer. */
    var header: seq<uint8>
    /** The size of every read issued on the socket, in order. */
    var requests: seq<nat>
    /** The messages handed to the parent client, in order. */
    var delivered: seq<Received>

    /** Deliveries are always the complete frames of the stream read so far;
        a pending read is the one the phase names. */
    ghost predicate Valid()
      reads this
    {
      && pos <= |input|
      && delivered <= Parse(input)
      && (phase == Accepting || phase == AcceptFailed ==> !connected && pos == 0 && requests == [] && delivered == [])
      && (phase == Connected ==> connected && pos == 0 && requests == [] && delivered == [])
      && (phase == AwaitingHeader ==>
            connected && |requests| > 0 && requests[|requests| - 1] == HeaderSize
            && Parse(input) == delivered + ParseFrom(input, pos))
      && (phase == AwaitingBody ==>
            connected && pos >= HeaderSize && header == input[pos - HeaderSize..pos]
            && |requests| > 0 && requests[|requests| - 1] == DataSizeOfBytes(header)
            && Parse(input) == delivered + ParseFrom(input, pos - HeaderSize))
    }

    /** A new receiver listens on the server port + 1 + its component id,
        neither connected nor shut down. */
    constructor (serverPort: int, componentId: int, input: seq<uint8>)
      ensures Valid()
      ensures this.componentId == componentId && port == serverPort + 1 + componentId
      ensures this.input == input
      ensures !connected && !shutdown && phase == Accepting
      ensures requests == [] && delivered == []
    {
      this.componentId := componentId;
      port := serverPort + 1 + componentId;
      this.input := input;
      connected := false;
      shutdown := false;
      phase := Accepting;
      pos := 0;
      header := [];
      requests := [];
      delivered := [];
    }

    function GetId(): (r: int)
      reads this
      ensures r == componentId
    {
      componentId
    }

    /** The completion of the one accept: success connects; after an error
        no accept is issued again, so the receiver never connects. */
    method AcceptHandler(error: bool)
      requires Valid() && phase == Accepting
      modifies this
      ensures Valid()
      ensures connected == !error
      ensures phase == (if error then AcceptFailed else Connected)
      ensures shutdown == old(shutdown) && requests == old(requests) && delivered == old(delivered)
    {
      if !error {
        connected := true;
        phase := Connected;
      } else {
        phase := AcceptFailed;
      }
    }

    /** `readHeader()`: issue a read of exactly HeaderSize bytes. */
    method ReadHeader()
      requires phase == Connected || phase == AwaitingBody
      modifies this
      ensures phase == AwaitingHeader && requests == old(requests) + [HeaderSize]
      ensures connected == old(connected) && shutdown == old(shutdown) && pos == old(pos)
      ensures delivered == old(delivered) && header == old(header)
    {
      requests := requests + [HeaderSize];
      phase := AwaitingHeader;
    }

    /** One pass of the polling loop of `run()`: once connected, the first
        header read is issued and `run` returns true; before that nothing
        happens, and after a failed accept it never does. */
    method Run() returns (done: bool)
      requires Valid() && (phase == Accepting || phase == AcceptFailed || phase == Connected)
      modifies this
      ensures Valid()
      ensures done == old(connected)
      ensures done ==> phase == AwaitingHeader && requests == [HeaderSize]
      ensures !done ==> phase == old(phase) && requests == []
      ensures old(phase) == AcceptFailed ==> !done
      ensures delivered == old(delivered) && shutdown == old(shutdown)
    {
      done := connected;
      if done {
        ReadHeader();
      }
    }

    /** The completion of the header read and `readHeaderHandler`: on success
        the body read of exactly the header's data size is issued; on error
        nothing is delivered and no read is issued. */
    method ReadHeaderHandler(error: bool)
      requires Valid() && phase == AwaitingHeader
      modifies this
      ensures Valid()
      ensures delivered == old(delivered) && shutdown == old(shutdown)
      ensures var ok := !error && old(pos) + HeaderSize <= |input|;
        && (ok ==> phase == AwaitingBody && pos == old(pos) + HeaderSize
                   && header == input[old(pos)..pos]
                   && requests == old(requests) + [DataSizeOfBytes(header)])
        && (!ok ==> phase == Stalled && pos == old(pos) && requests == old(requests))
      ensures !error && phase == Stalled ==> delivered == Parse(input)
    {
      if !error && pos + HeaderSize <= |input| {
        header := input[pos..pos + HeaderSize];
        pos := pos + HeaderSize;
        // readMessage(header)
        requests := requests + [DataSizeOfBytes(header)];
        phase := AwaitingBody;
      } else {
        phase := Stalled;
        if !error {
          assert ParseFrom(input, pos) == [];
        }
      }
    }

    /** The completion of the body read and `readMessageHandler`: on success
        exactly one message, the header and the body, is delivered, and the
        next header read is issued unless shutdown was requested, in which
        case the connection closes. On error nothing is delivered and no read
        is issued. */
    method ReadMessageHandler(error: bool)
      requires Valid() && phase == AwaitingBody
      modifies this
      ensures Valid()
      ensures shutdown == old(shutdown) && header == old(header)
      ensures var n := DataSizeOfBytes(header);
        var ok := !error && old(pos) + n <= |input|;
        && (ok ==> pos == old(pos) + n
                   && delivered == old(delivered) + [Received(header, input[old(pos)..pos])]
                   && (!shutdown ==> phase == AwaitingHeader && requests == old(requests) + [HeaderSize])
                   && (shutdown ==> phase == Closed && requests == old(requests)))
        && (!ok ==> phase == Stalled && pos == old(pos)
                    && delivered == old(delivered) && requests == old(requests))
      ensures !error && phase == Stalled ==> delivered == Parse(input)
    {
      var n := DataSizeOfBytes(header);
      if !error && pos + n <= |input| {
        Deliver();
      } else {
        phase := Stalled;
        if !error {
          assert ParseFrom(input, pos - HeaderSize) == [];
        }
      }
    }

    /** The successful end of `readMessageHandler`: deliver the message and
        read on, or close. */
    method Deliver()
      requires Valid() && phase == AwaitingBody && pos + DataSizeOfBytes(header) <= |input|
      modifies this
      ensures Valid()
      ensures shutdown == old(shutdown) && header == old(header)
      ensures pos == old(pos) + DataSizeOfBytes(header)
      ensures delivered == old(delivered) + [Received(header, input[old(pos)..pos])]
      ensures !shutdown ==> phase == AwaitingHeader && requests == old(requests) + [HeaderSize]
      ensures shutdown ==> phase == Closed && requests == old(requests)
    {
      var n := DataSizeOfBytes(header);
      DeliverNext(input, delivered, pos - HeaderSize, header);
      delivered := delivered + [Received(header, input[pos..pos + n])];
      pos := pos + n;
      if !shutdown {
        ReadHeader();
      } else {
        phase := Closed;
      }
    }

    /** `shutdownCommand()`: only the flag is set; it takes effect once the
        next message is complete. */
    method ShutdownCommand()
      requires Valid()
      modifies this
      ensures Valid() && shutdown
      ensures phase == old(phase) && connected == old(connected) && pos == old(pos)
      ensures requests == old(requests) && delivered == old(delivered) && header == old(header)
    {
      shutdown := true;
    }

    /** Serving an error-free connection until the stream ends delivers every
        complete frame of the stream, and only those. */
    method Drain()
      requires Valid() && phase == AwaitingHeader && !shutdown
      modifies this
      ensures Valid() && phase == Stalled
      ensures delivered == Parse(input)
      ensures forall k :: 0 <= k < |delivered| ==>
                |delivered[k].rawHeader| == HeaderSize && |delivered[k].body| < 0x100
                && (DeliveredHeader(delivered[k]).Some? ==> DataSize(DeliveredHeader(delivered[k]).value) == |delivered[k].body|)
    {
      while phase == AwaitingHeader
        invariant Valid() && !shutdown
        invariant phase == AwaitingHeader || phase == Stalled
        invariant phase == Stalled ==> delivered == Parse(input)
        decreases |input| - pos + (if phase == AwaitingHeader then 1 else 0)
      {
        ReadHeaderHandler(false);
        if phase == AwaitingBody {
          ReadMessageHandler(false);
        }
      }
      ParseBodiesShort(input, 0);
    }
  }
}
