/** The MCP23x17 16-bit I/O expander: its register addresses, the pin
    encoding (port A the low byte, port B the high byte), the driver's packed
    shadow copy of the chip's registers and the bit tests over it.

    The shadow copy is a union of a packed record and a 22-byte buffer; the
    record is `Memory`, the buffer is `Serialize(m)` (little-endian 16-bit
    fields, as on the ARM and AVR targets of the library). */
module Mcp23x17 {

  /** The register addresses in the chip's default bank mode, where the A and B
      halves of each register are adjacent. */
  datatype Register = IODIR | IPOL | GPINTEN | DEFVAL | INTCON | IOCON | GPPU | INTF | INTCAP | GPIO | OLAT

  function Address(r: Register): nat
  {
    match r
    case IODIR => 0x00
    case IPOL => 0x02
    case GPINTEN => 0x04
    case DEFVAL => 0x06
    case INTCON => 0x08
    case IOCON => 0x0A
    case GPPU => 0x0C
    case INTF => 0x0E
    case INTCAP => 0x10
    case GPIO => 0x12
    case OLAT => 0x14
  }

  datatype Port = PortA | PortB

  /** A pin: its port and its number 0..7 within the port. */
  datatype Pin = Pin(port: Port, index: nat)

  predicate ValidPin(p: Pin)
  {
    p.index < 8
  }

  /** The byte with only bit `k` set. */
  function ByteMask(k: nat): bv8
    requires k < 8
  {
    if k == 0 then 0x01 else if k == 1 then 0x02 else if k == 2 then 0x04 else if k == 3 then 0x08
    else if k == 4 then 0x10 else if k == 5 then 0x20 else if k == 6 then 0x40 else 0x80
  }

  /** The `Pin` enumerator's value: bit `x` for Ax, bit `8 + x` for Bx. */
  function PinMask(p: Pin): (r: bv16)
    requires ValidPin(p)
  {
    if p.port == PortA then ByteMask(p.index) as bv16 else Join(0, ByteMask(p.index))
  }

  /** Port B is the high byte: Bx is Ax moved up eight bits, and every pin mask
      has exactly one bit in its own byte. */
  lemma PortBIsHighByte(x: nat)
    requires x < 8
    ensures PinMask(Pin(PortA, x)) == (1 as bv16) << x
    ensures PinMask(Pin(PortB, x)) == (1 as bv16) << (8 + x)
  {
  }

  /** Different pins have different masks. */
  lemma PinMaskInjective(p: Pin, q: Pin)
    requires ValidPin(p) && ValidPin(q) && p != q
    ensures PinMask(p) & PinMask(q) == 0
  {
  }

  /** The packed shadow registers, in address order. */
  datatype Memory = Memory(
    direction: bv16,
    polarity: bv16,
    interruptEnable: bv16,
    interruptDefault: bv16,
    interruptControl: bv16,
    controlA: bv8,
    controlB: bv8,
    pullup: bv16,
    interruptFlag: bv16,
    interruptCapture: bv16,
    gpio: bv16,
    outputLatch: bv16)

  /** `Memory()`: every pin an input, everything else 0. */
  function NewMemory(): (m: Memory)
    ensures m.direction == 0xffff
    ensures m.polarity == 0 && m.interruptEnable == 0 && m.interruptDefault == 0 && m.interruptControl == 0
    ensures m.controlA == 0 && m.controlB == 0 && m.pullup == 0
    ensures m.interruptFlag == 0 && m.interruptCapture == 0 && m.gpio == 0 && m.outputLatch == 0
  {
    Memory(0xffff, 0, 0, 0, 0, 0, 0, 0, 0, 0, 0, 0)
  }

  function Lo(x: bv16): bv8
  {
    (x & 0xff) as bv8
  }

  function Hi(x: bv16): bv8
  {
    (x >> 8) as bv8
  }

  function Join(lo: bv8, hi: bv8): bv16
  {
    (lo as bv16) | ((hi as bv16) << 8)
  }

  lemma JoinSplit(x: bv16)
    ensures Join(Lo(x), Hi(x)) == x
  {
  }

  lemma SplitJoin(lo: bv8, hi: bv8)
    ensures Lo(Join(lo, hi)) == lo && Hi(Join(lo, hi)) == hi
  {
  }

  /** Byte `k` of the union's buffer. */
  function ByteAt(m: Memory, k: nat): bv8
    requires k < 22
  {
    if k == 0 then Lo(m.direction) else if k == 1 then Hi(m.direction)
    else if k == 2 then Lo(m.polarity) else if k == 3 then Hi(m.polarity)
    else if k == 4 then Lo(m.interruptEnable) else if k == 5 then Hi(m.interruptEnable)
    else if k == 6 then Lo(m.interruptDefault) else if k == 7 then Hi(m.interruptDefault)
    else if k == 8 then Lo(m.interruptControl) else if k == 9 then Hi(m.interruptControl)
    else if k == 10 then m.controlA else if k == 11 then m.controlB
    else if k == 12 then Lo(m.pullup) else if k == 13 then Hi(m.pullup)
    else if k == 14 then Lo(m.interruptFlag) else if k == 15 then Hi(m.interruptFlag)
    else if k == 16 then Lo(m.interruptCapture) else if k == 17 then Hi(m.interruptCapture)
    else if k == 18 then Lo(m.gpio) else if k == 19 then Hi(m.gpio)
    else if k == 20 then Lo(m.outputLatch) else Hi(m.outputLatch)
  }

  /** The 22 bytes of the union's buffer. */
  function Serialize(m: Memory): (b: seq<bv8>)
    ensures |b| == 22
  {
    seq(22, k requires 0 <= k < 22 => ByteAt(m, k))
  }

  /** The record read back from the buffer. */
  function Parse(b: seq<bv8>): Memory
    requires |b| == 22
  {
    Memory(Join(b[0], b[1]), Join(b[2], b[3]), Join(b[4], b[5]), Join(b[6], b[7]),
           Join(b[8], b[9]), b[10], b[11], Join(b[12], b[13]), Join(b[14], b[15]),
           Join(b[16], b[17]), Join(b[18], b[19]), Join(b[20], b[21]))
  }

  /** The record and the buffer are two views of the same bytes. */
  lemma {:induction false} ParseSerialize(m: Memory)
    ensures Parse(Serialize(m)) == m
  {
    JoinSplit(m.direction);
    JoinSplit(m.polarity);
    JoinSplit(m.interruptEnable);
    JoinSplit(m.interruptDefault);
    JoinSplit(m.interruptControl);
    JoinSplit(m.pullup);
    JoinSplit(m.interruptFlag);
    JoinSplit(m.interruptCapture);
    JoinSplit(m.gpio);
    JoinSplit(m.outputLatch);
  }

  /** The register a field shadows, as a 16-bit value (IOCON: A low, B high). */
  function Field(m: Memory, r: Register): bv16
  {
    match r
    case IODIR => m.direction
    case IPOL => m.polarity
    case GPINTEN => m.interruptEnable
    case DEFVAL => m.interruptDefault
    case INTCON => m.interruptControl
    case IOCON => Join(m.controlA, m.controlB)
    case GPPU => m.pullup
    case INTF => m.interruptFlag
    case INTCAP => m.interruptCapture
    case GPIO => m.gpio
    case OLAT => m.outputLatch
  }

  lemma LowByteAt(m: Memory, r: Register)
    ensures Address(r) < 21 && ByteAt(m, Address(r)) == Lo(Field(m, r))
  {
    if r == IOCON {
      SplitJoin(m.controlA, m.controlB);
    }
  }

  lemma HighByteAt(m: Memory, r: Register)
    ensures Address(r) < 21 && ByteAt(m, Address(r) + 1) == Hi(Field(m, r))
  {
    if r == IOCON {
      SplitJoin(m.controlA, m.controlB);
    }
  }

  /** Each field's byte offset in the packed record is its register's address,
      so a block read from the chip lands in the right fields. */
  lemma {:induction false} LayoutMatchesRegisters(m: Memory, r: Register)
    ensures Address(r) + 1 < 22
    ensures Serialize(m)[Address(r)] == Lo(Field(m, r))
    ensures Serialize(m)[Address(r) + 1] == Hi(Field(m, r))
  {
    LowByteAt(m, r);
    HighByteAt(m, r);
  }

  /** `readInput()` after a successful transfer: the eight bytes read from INTF
      on fill buffer bytes 14..21. */
  function ReadInput(m: Memory, data: seq<bv8>): (r: Memory)
    requires |data| == 8
    ensures r == m.(interruptFlag := Join(data[0], data[1]), interruptCapture := Join(data[2], data[3]),
                    gpio := Join(data[4], data[5]), outputLatch := Join(data[6], data[7]))
  {
    ParseSerialize(m);
    Parse(Serialize(m)[..14] + data)
  }

  /** `readInput()` reads from the INTF register on. */
  lemma ReadInputStart()
    ensures Address(INTF) == 14 && Address(OLAT) + 2 == 14 + 8
  {
  }

  datatype Direction = In | Out

  /** `isSet(pin)`: the pin's bit in the output latch. */
  function IsSet(m: Memory, p: Pin): bool
    requires ValidPin(p)
  {
    m.outputLatch & PinMask(p) != 0
  }

  /** `getDirection(pin)`: 1 in IODIR is an input. */
  function GetDirection(m: Memory, p: Pin): Direction
    requires ValidPin(p)
  {
    if m.direction & PinMask(p) != 0 then In else Out
  }

  /** `read(pin)`: the pin's bit in the last GPIO value read. */
  function Read(m: Memory, p: Pin): bool
    requires ValidPin(p)
  {
    m.gpio & PinMask(p) != 0
  }

  function GetOutputs(m: Memory): bv16
  {
    m.outputLatch
  }

  function GetInputs(m: Memory): bv16
  {
    m.gpio
  }

  /** `getDirections()`: 1 is an output, the complement of IODIR. */
  function GetDirections(m: Memory): bv16
  {
    !m.direction
  }

  function GetPolarities(m: Memory): bv16
  {
    m.polarity
  }

  /** A pin mask has exactly one bit set. */
  lemma PinMaskSingleBit(p: Pin)
    requires ValidPin(p)
    ensures PinMask(p) != 0 && PinMask(p) & (PinMask(p) - 1) == 0
  {
  }

  /** A single bit is set in the complement of a value iff it is clear in the
      value. */
  lemma ComplementBit(d: bv16, m: bv16)
    requires m != 0 && m & (m - 1) == 0
    ensures (!d) & m != 0 <==> d & m == 0
  {
  }

  /** The whole-port getters agree with the single-pin tests: a pin is an output
      iff its bit in `getDirections()` is set, is set iff its bit in
      `getOutputs()` is, and reads high iff its bit in `getInputs()` is. */
  lemma {:induction false} GettersAgree(m: Memory, p: Pin)
    requires ValidPin(p)
    ensures GetDirection(m, p) == Out <==> GetDirections(m) & PinMask(p) != 0
    ensures IsSet(m, p) <==> GetOutputs(m) & PinMask(p) != 0
    ensures Read(m, p) <==> GetInputs(m) & PinMask(p) != 0
  {
    PinMaskSingleBit(p);
    ComplementBit(m.direction, PinMask(p));
  }

  /** After construction every pin is an input, no output is set and every
      pin reads low. */
  lemma FreshMemory(p: Pin)
    requires ValidPin(p)
    ensures GetDirection(NewMemory(), p) == In
    ensures !IsSet(NewMemory(), p) && !Read(NewMemory(), p)
    ensures GetDirections(NewMemory()) == 0
  {
    PortBIsHighByte(p.index);
  }
}
