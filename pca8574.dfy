/** The PCA8574 8-bit I2C port expander driver: shadow copies of the pin
    directions, the output latch and the last input byte, and the one-byte I2C
    writes and reads that keep the chip in step with them.

    Each resumable operation is one atomic step. Whether the I2C transaction
    succeeds is a parameter (`ack`); the bytes written to the chip are appended
    to `written`. The chip's outputs are quasi-bidirectional: a pin is an input
    while its output bit is high, so `direction` has a 1 for every output. */
module Pca8574 {

  /** `Flags::set`: the bits of `m` become 1, the others stay. */
  function SetBits(x: bv8, m: bv8): (r: bv8)
    ensures r & m == m && r & !m == x & !m
  {
    x | m
  }

  /** `Flags::reset`: the bits of `m` become 0, the others stay. */
  function ClearBits(x: bv8, m: bv8): (r: bv8)
    ensures r & m == 0 && r & !m == x & !m
  {
    x & !m
  }

  /** `Flags::toggle`: the bits of `m` flip, the others stay. */
  function ToggleBits(x: bv8, m: bv8): (r: bv8)
    ensures r ^ x == m
  {
    x ^ m
  }

  /** `Flags::update`: the bits of `m` become `value`, the others stay. */
  function UpdateBits(x: bv8, m: bv8, value: bool): (r: bv8)
    ensures r & m == (if value then m else 0) && r & !m == x & !m
  {
    if value then SetBits(x, m) else ClearBits(x, m)
  }

  /** Toggling the same bits twice restores the byte. */
  lemma ToggleTwice(x: bv8, m: bv8)
    ensures ToggleBits(ToggleBits(x, m), m) == x
  {
    assert (x ^ m) ^ m == x ^ (m ^ m);
  }

  /** Setting bits that are already set changes nothing, and so does clearing
      bits that are already clear. */
  lemma SetClearIdempotent(x: bv8, m: bv8)
    ensures SetBits(SetBits(x, m), m) == SetBits(x, m)
    ensures ClearBits(ClearBits(x, m), m) == ClearBits(x, m)
  {
  }

  class Expander {
    const address: bv8
    /** 1: output, 0: input. */
    var direction: bv8
    var output: bv8
    var input: bv8
    /** Every byte written to the chip, in order. */
    var written: seq<bv8>

    /** All pins are outputs driven high, and the input shadow is 0xff. */
    constructor (address: bv8)
      ensures this.address == address
      ensures direction == 0xff && output == 0xff && input == 0xff && written == []
    {
      this.address := address;
      direction := 0xff;
      output := 0xff;
      input := 0xff;
      written := [];
    }

    /** `writePort(value)`: the output shadow becomes `value`, which is sent to
        the chip in a one-byte write; the result is whether it succeeded. */
    method WritePort(value: bv8, ack: bool) returns (ok: bool)
      modifies this
      ensures output == value && written == old(written) + [value] && ok == ack
      ensures direction == old(direction) && input == old(input)
    {
      output := value;
      written := written + [output];
      ok := ack;
    }

    /** `set(pins)`: a pin can always be driven high, whatever its direction. */
    method Set(pins: bv8, ack: bool) returns (ok: bool)
      modifies this
      ensures output == SetBits(old(output), pins)
      ensures written == old(written) + [output] && ok == ack
      ensures direction == old(direction) && input == old(input)
    {
      var next := SetBits(output, pins);
      ok := WritePort(next, ack);
    }

    /** `reset(pins)`: only the pins configured as outputs are pulled low. */
    method Reset(pins: bv8, ack: bool) returns (ok: bool)
      modifies this
      ensures output == ClearBits(old(output), pins & old(direction))
      ensures written == old(written) + [output] && ok == ack
      ensures direction == old(direction) && input == old(input)
    {
      var next := ClearBits(output, pins & direction);
      ok := WritePort(next, ack);
    }

    /** `toggle(pins)`: only the pins configured as outputs flip. */
    method Toggle(pins: bv8, ack: bool) returns (ok: bool)
      modifies this
      ensures output == ToggleBits(old(output), pins & old(direction))
      ensures written == old(written) + [output] && ok == ack
      ensures direction == old(direction) && input == old(input)
    {
      var next := ToggleBits(output, pins & direction);
      ok := WritePort(next, ack);
    }

    /** `set(pins, value)`: only the pins configured as outputs take `value`. */
    method SetValue(pins: bv8, value: bool, ack: bool) returns (ok: bool)
      modifies this
      ensures output == UpdateBits(old(output), pins & old(direction), value)
      ensures written == old(written) + [output] && ok == ack
      ensures direction == old(direction) && input == old(input)
    {
      var next := UpdateBits(output, pins & direction, value);
      ok := WritePort(next, ack);
    }

    /** `setInput(pins)`: the pins stop being outputs and are driven high, which
        releases them as inputs. */
    method SetInput(pins: bv8, ack: bool) returns (ok: bool)
      modifies this
      ensures direction == ClearBits(old(direction), pins)
      ensures output == SetBits(old(output), pins)
      ensures written == old(written) + [output] && ok == ack
      ensures input == old(input)
    {
      direction := ClearBits(direction, pins);
      var next := SetBits(output, pins);
      ok := WritePort(next, ack);
    }

    /** `readPort(value)`: a one-byte read into the input shadow; the caller's
        `value` is replaced only when the read succeeds. */
    method ReadPort(value: bv8, ack: bool, received: bv8) returns (ok: bool, value': bv8)
      modifies this
      ensures ok == ack
      ensures ack ==> input == received && value' == received
      ensures !ack ==> input == old(input) && value' == value
      ensures direction == old(direction) && output == old(output) && written == old(written)
    {
      if ack {
        input := received;
        value' := input;
        ok := true;
      } else {
        value' := value;
        ok := false;
      }
    }
  }

  /** After `setInput(pins)`, `reset` and `toggle` leave those pins high: they
      act only on outputs. */
  lemma InputsStayHigh(direction: bv8, output: bv8, pins: bv8, other: bv8, value: bool)
    ensures var d := ClearBits(direction, pins);
            var o := SetBits(output, pins);
            ClearBits(o, other & d) & pins == pins
            && ToggleBits(o, other & d) & pins == pins
            && UpdateBits(o, other & d, value) & pins == pins
  {
  }
}
