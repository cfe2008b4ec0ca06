/** The bit-banged SPI master: the static operation mode (clock phase, clock
    polarity, bit order) and the byte exchange that drives SCK and MOSI and
    samples MISO eight times.

    The pins are modelled by their traces: every level written to MOSI and to
    SCK is appended to `mosiTrace` and `sckTrace`; the level read from MISO at
    the `t`-th sample is `miso(t)`, and `samples` counts the samples taken.
    The delays between edges are left out. */
module SoftwareSpi {

  /** `DataMode`: bit 0 is the clock phase, bit 1 the clock polarity. */
  type DataMode = m: bv8 | m < 4

  datatype DataOrder = MsbFirst | LsbFirst

  /** The byte with only bit `k` set. */
  function Mask(k: nat): bv8
    requires k < 8
  {
    if k == 0 then 0x01 else if k == 1 then 0x02 else if k == 2 then 0x04 else if k == 3 then 0x08
    else if k == 4 then 0x10 else if k == 5 then 0x20 else if k == 6 then 0x40 else 0x80
  }

  /** Bit `k` of a byte. */
  function Bit(x: bv8, k: nat): bool
    requires k < 8
  {
    x & Mask(k) != 0
  }

  /** Bytes are equal when all their bits are. */
  lemma BitsDetermine(a: bv8, b: bv8)
    requires forall k :: 0 <= k < 8 ==> Bit(a, k) == Bit(b, k)
    ensures a == b
  {
    assert Bit(a, 0) == Bit(b, 0) && Bit(a, 1) == Bit(b, 1) && Bit(a, 2) == Bit(b, 2) && Bit(a, 3) == Bit(b, 3);
    assert Bit(a, 4) == Bit(b, 4) && Bit(a, 5) == Bit(b, 5) && Bit(a, 6) == Bit(b, 6) && Bit(a, 7) == Bit(b, 7);
  }

  /** Setting bit `n` sets that bit and no other. */
  lemma OrMaskBit(y: bv8, n: nat, k: nat)
    requires n < 8 && k < 8
    ensures Bit(y | Mask(n), k) == (Bit(y, k) || k == n)
  {
  }

  /** Shifting right by one moves every bit down one place and clears bit 7. */
  lemma ShrBit(y: bv8, k: nat)
    requires k < 8
    ensures Bit(y >> 1, k) == (k < 7 && Bit(y, k + 1))
  {
  }

  /** Shifting left by one moves every bit up one place and clears bit 0. */
  lemma ShlBit(y: bv8, k: nat)
    requires k < 8
    ensures Bit(y << 1, k) == (k > 0 && Bit(y, k - 1))
  {
  }

  /** The byte whose bit `k` is `s[k]`. */
  function FromBitsLsb(s: seq<bool>): (r: bv8)
    requires |s| <= 8
    decreases |s|
  {
    if s == [] then 0
    else if s[|s| - 1] then FromBitsLsb(s[..|s| - 1]) | Mask(|s| - 1)
    else FromBitsLsb(s[..|s| - 1])
  }

  /** The byte whose bits, most significant first, are `s`. */
  function FromBitsMsb(s: seq<bool>): (r: bv8)
    requires |s| <= 8
    decreases |s|
  {
    if s == [] then 0
    else if s[|s| - 1] then (FromBitsMsb(s[..|s| - 1]) << 1) | Mask(0)
    else FromBitsMsb(s[..|s| - 1]) << 1
  }

  /** The byte assembled from eight MISO samples in the given bit order. */
  function Received(samples: seq<bool>, lsbFirst: bool): bv8
    requires |samples| == 8
  {
    if lsbFirst then FromBitsLsb(samples) else FromBitsMsb(samples)
  }

  /** Each MISO sample lands in the bit the bit order gives it: the first in
      bit 0 when LSB first, in bit 7 when MSB first. */
  lemma {:induction false} ReceivedBits(samples: seq<bool>, lsbFirst: bool)
    requires |samples| == 8
    ensures forall k :: 0 <= k < 8 ==>
      Bit(Received(samples, lsbFirst), k) == samples[if lsbFirst then k else 7 - k]
  {
    forall k | 0 <= k < 8
      ensures Bit(Received(samples, lsbFirst), k) == samples[if lsbFirst then k else 7 - k]
    {
      if lsbFirst {
        LsbBit(samples, k);
      } else {
        MsbBit(samples, k);
      }
    }
  }

  lemma {:induction false} LsbBit(s: seq<bool>, k: nat)
    requires |s| <= 8 && k < 8
    ensures Bit(FromBitsLsb(s), k) == (k < |s| && s[k])
    decreases |s|
  {
    if s != [] {
      var p := s[..|s| - 1];
      LsbBit(p, k);
      if s[|s| - 1] {
        OrMaskBit(FromBitsLsb(p), |s| - 1, k);
      }
      if k < |p| {
        assert p[k] == s[k];
      }
    }
  }

  lemma {:induction false} MsbBit(s: seq<bool>, k: nat)
    requires |s| <= 8 && k < 8
    ensures Bit(FromBitsMsb(s), k) == (k < |s| && s[|s| - 1 - k])
    decreases |s|
  {
    if s != [] {
      var p := s[..|s| - 1];
      ShlBit(FromBitsMsb(p), k);
      if s[|s| - 1] {
        OrMaskBit(FromBitsMsb(p) << 1, 0, k);
      }
      if k > 0 {
        MsbBit(p, k - 1);
        if k - 1 < |p| {
          assert p[|p| - 1 - (k - 1)] == s[|s| - 1 - k];
        }
      }
    }
  }

  /** Loopback: when every MISO sample is the MOSI bit just sent, the byte
      received is the byte sent, in either bit order. */
  lemma {:induction false} Loopback(data: bv8, lsbFirst: bool)
    ensures Received(MosiBits(data, lsbFirst), lsbFirst) == data
  {
    var m := MosiBits(data, lsbFirst);
    ReceivedBits(m, lsbFirst);
    forall k | 0 <= k < 8 ensures Bit(Received(m, lsbFirst), k) == Bit(data, k) {
      MosiBitsAt(data, lsbFirst, if lsbFirst then k else 7 - k);
    }
    BitsDetermine(Received(m, lsbFirst), data);
  }

  // --- the exchange loop's intermediate values -------------------------------

  /** LSB first, the input after the samples `s`: each step shifts right and
      sets bit 7 for a high sample. */
  function LsbPartial(s: seq<bool>): bv8
    requires |s| <= 8
    decreases |s|
  {
    if s == [] then 0
    else if s[|s| - 1] then (LsbPartial(s[..|s| - 1]) >> 1) | Mask(7)
    else LsbPartial(s[..|s| - 1]) >> 1
  }

  /** The samples taken so far sit in the top `|s|` bits, the first lowest. */
  lemma {:induction false} LsbPartialBit(s: seq<bool>, j: nat)
    requires |s| <= 8 && j < 8
    ensures Bit(LsbPartial(s), j) == (8 - |s| <= j && s[j - (8 - |s|)])
    decreases |s|
  {
    if s != [] {
      var p := s[..|s| - 1];
      ShrBit(LsbPartial(p), j);
      if s[|s| - 1] {
        OrMaskBit(LsbPartial(p) >> 1, 7, j);
      }
      if j < 7 {
        LsbPartialBit(p, j + 1);
      }
    }
  }

  /** After eight samples the LSB-first input is the received byte. */
  lemma LsbPartialComplete(s: seq<bool>)
    requires |s| == 8
    ensures LsbPartial(s) == Received(s, true)
  {
    ReceivedBits(s, true);
    forall j | 0 <= j < 8 ensures Bit(LsbPartial(s), j) == Bit(Received(s, true), j) {
      LsbPartialBit(s, j);
    }
    BitsDetermine(LsbPartial(s), Received(s, true));
  }

  /** `x` shifted right one place at a time, `n` times. */
  function ShiftRight(x: bv8, n: nat): bv8
  {
    if n == 0 then x else ShiftRight(x, n - 1) >> 1
  }

  /** `x` shifted left one place at a time, `n` times. */
  function ShiftLeft(x: bv8, n: nat): bv8
  {
    if n == 0 then x else ShiftLeft(x, n - 1) << 1
  }

  lemma {:induction false} ShiftRightBit(x: bv8, n: nat, j: nat)
    requires j < 8
    ensures Bit(ShiftRight(x, n), j) == (j + n < 8 && Bit(x, j + n))
  {
    if n > 0 {
      ShrBit(ShiftRight(x, n - 1), j);
      if j < 7 {
        ShiftRightBit(x, n - 1, j + 1);
      }
    }
  }

  lemma {:induction false} ShiftLeftBit(x: bv8, n: nat, j: nat)
    requires j < 8
    ensures Bit(ShiftLeft(x, n), j) == (n <= j && Bit(x, j - n))
  {
    if n > 0 {
      ShlBit(ShiftLeft(x, n - 1), j);
      if j > 0 {
        ShiftLeftBit(x, n - 1, j - 1);
      }
    }
  }

  /** The SCK levels of `n` clock pulses: the active level, then the idle level. */
  function Pulses(n: nat, cpol: bool): (r: seq<bool>)
    ensures |r| == 2 * n
  {
    if n == 0 then [] else Pulses(n - 1, cpol) + [!cpol, cpol]
  }

  /** The MOSI bits of a sequence of bytes. */
  function MosiStream(bytes: seq<bv8>, lsbFirst: bool): (r: seq<bool>)
    ensures |r| == 8 * |bytes|
  {
    if bytes == [] then [] else MosiStream(bytes[..|bytes| - 1], lsbFirst) + MosiBits(bytes[|bytes| - 1], lsbFirst)
  }

  /** `trace` followed by `n` clock pulses, one level at a time. */
  function PulsesAfter(trace: seq<bool>, n: nat, cpol: bool): seq<bool>
  {
    if n == 0 then trace else PulsesAfter(trace, n - 1, cpol) + [!cpol] + [cpol]
  }

  lemma {:induction false} PulsesAfterIs(trace: seq<bool>, n: nat, cpol: bool)
    ensures PulsesAfter(trace, n, cpol) == trace + Pulses(n, cpol)
  {
    if n > 0 {
      PulsesAfterIs(trace, n - 1, cpol);
      assert trace + Pulses(n - 1, cpol) + [!cpol] + [cpol] == trace + (Pulses(n - 1, cpol) + [!cpol, cpol]);
    }
  }

  // --- the MOSI levels ------------------------------------------------------------

  /** The `j`-th level on MOSI: the low bit of `data` shifted right `j` times
      when LSB first, the high bit of `data` shifted left `j` times otherwise. */
  function MosiBit(data: bv8, lsbFirst: bool, j: nat): bool
  {
    if lsbFirst then ShiftRight(data, j) & 0x01 != 0 else ShiftLeft(data, j) & 0x80 != 0
  }

  /** The `j`-th level on MOSI is bit `j` of the byte when LSB first, bit `7 - j`
      when MSB first. */
  lemma MosiBitIs(data: bv8, lsbFirst: bool, j: nat)
    requires j < 8
    ensures MosiBit(data, lsbFirst, j) == Bit(data, if lsbFirst then j else 7 - j)
  {
    if lsbFirst {
      ShiftRightBit(data, j, 0);
    } else {
      ShiftLeftBit(data, j, 7);
    }
  }

  /** `trace` followed by the first `n` MOSI levels of `data`, one at a time. */
  function BitsAfter(trace: seq<bool>, data: bv8, lsbFirst: bool, n: nat): (r: seq<bool>)
    ensures |r| == |trace| + n
  {
    if n == 0 then trace
    else BitsAfter(trace, data, lsbFirst, n - 1) + [MosiBit(data, lsbFirst, n - 1)]
  }

  /** The bits of `data` in the order they leave on MOSI. */
  function MosiBits(data: bv8, lsbFirst: bool): (r: seq<bool>)
    ensures |r| == 8
  {
    BitsAfter([], data, lsbFirst, 8)
  }

  lemma {:induction false} BitsAfterAt(trace: seq<bool>, data: bv8, lsbFirst: bool, n: nat, j: nat)
    requires j < n
    ensures BitsAfter(trace, data, lsbFirst, n)[|trace| + j] == MosiBit(data, lsbFirst, j)
  {
    if j < n - 1 {
      BitsAfterAt(trace, data, lsbFirst, n - 1, j);
    }
  }

  /** The `j`-th bit on MOSI is bit `j` of the byte when LSB first, bit `7 - j`
      when MSB first. */
  lemma MosiBitsAt(data: bv8, lsbFirst: bool, j: nat)
    requires j < 8
    ensures MosiBits(data, lsbFirst)[j] == Bit(data, if lsbFirst then j else 7 - j)
  {
    BitsAfterAt([], data, lsbFirst, 8, j);
    MosiBitIs(data, lsbFirst, j);
  }

  lemma {:induction false} BitsAfterIs(trace: seq<bool>, data: bv8, lsbFirst: bool, n: nat)
    ensures BitsAfter(trace, data, lsbFirst, n) == trace + BitsAfter([], data, lsbFirst, n)
  {
    if n > 0 {
      BitsAfterIs(trace, data, lsbFirst, n - 1);
      var b := [MosiBit(data, lsbFirst, n - 1)];
      assert trace + BitsAfter([], data, lsbFirst, n - 1) + b == trace + (BitsAfter([], data, lsbFirst, n - 1) + b);
    }
  }

  /** `trace` followed by the MOSI bits of the first `n` of `bytes`, one byte
      at a time. */
  function StreamAfter(trace: seq<bool>, bytes: seq<bv8>, n: nat, lsbFirst: bool): seq<bool>
    requires n <= |bytes|
  {
    if n == 0 then trace
    else StreamAfter(trace, bytes, n - 1, lsbFirst) + MosiBits(bytes[n - 1], lsbFirst)
  }

  lemma {:induction false} StreamAfterIs(trace: seq<bool>, bytes: seq<bv8>, n: nat, lsbFirst: bool)
    requires n <= |bytes|
    ensures StreamAfter(trace, bytes, n, lsbFirst) == trace + MosiStream(bytes[..n], lsbFirst)
  {
    if n > 0 {
      StreamAfterIs(trace, bytes, n - 1, lsbFirst);
      assert bytes[..n][..n - 1] == bytes[..n - 1];
      var m := MosiBits(bytes[n - 1], lsbFirst);
      assert trace + MosiStream(bytes[..n - 1], lsbFirst) + m == trace + (MosiStream(bytes[..n - 1], lsbFirst) + m);
    }
  }

  /** Bit 2 of the operation mode: least significant bit first. */
  function IsLsbFirst(mode: bv8): bool
  {
    mode & 0x4 != 0
  }

  /** Bit 1 of the operation mode: the clock polarity, SCK's idle level. */
  function ClockPolarity(mode: bv8): bool
  {
    mode & 0x2 != 0
  }

  class SimpleMaster {
    /** The static operation mode: bits 0-1 the data mode, bit 2 set for LSB first. */
    var operationMode: bv8
    var sck: bool
    var mosi: bool
    var sckTrace: seq<bool>
    var mosiTrace: seq<bool>
    /** The MISO level at each sample. */
    const miso: nat -> bool
    var samples: nat

    /** A master with the statically initialised mode 0. */
    constructor (miso: nat -> bool)
      ensures operationMode == 0 && this.miso == miso && samples == 0
      ensures sckTrace == [] && mosiTrace == []
    {
      operationMode := 0;
      this.miso := miso;
      samples := 0;
      sck := false;
      mosi := false;
      sckTrace := [];
      mosiTrace := [];
    }

    /** `n` MISO samples from sample `start` on. */
    function Samples(start: nat, n: nat): (r: seq<bool>)
      ensures |r| == n
    {
      if n == 0 then [] else Samples(start, n - 1) + [miso(start + n - 1)]
    }

    /** The byte received in one exchange whose first sample is `start`. */
    function ByteFrom(start: nat, lsbFirst: bool): bv8
    {
      Received(Samples(start, 8), lsbFirst)
    }

    /** The bytes received in `n` exchanges of eight samples each, from sample
        `start` on. */
    function ReceivedStream(start: nat, n: nat, lsbFirst: bool): (r: seq<bv8>)
      ensures |r| == n
    {
      if n == 0 then [] else ReceivedStream(start, n - 1, lsbFirst) + [ByteFrom(start + 8 * (n - 1), lsbFirst)]
    }

    /** The byte received in exchange `k` counted from sample `start`. */
    function NthByte(start: nat, k: nat, lsbFirst: bool): bv8
    {
      ByteFrom(start + 8 * k, lsbFirst)
    }

    /** A buffer holding the received bytes in its first `n` places, and its
        earlier contents after them. */
    lemma ReceivedPrefix(now: seq<bv8>, before: seq<bv8>, start: nat, n: nat, lsbFirst: bool)
      requires n <= |now| == |before|
      requires forall k :: 0 <= k < n ==> now[k] == NthByte(start, k, lsbFirst)
      requires forall k :: n <= k < |now| ==> now[k] == before[k]
      ensures now[..n] == ReceivedStream(start, n, lsbFirst) && now[n..] == before[n..]
    {
      ReceivedStreamBytes(start, n, lsbFirst);
    }

    /** The stream is, byte by byte, what each exchange received. */
    lemma ReceivedStreamBytes(start: nat, n: nat, lsbFirst: bool)
      ensures forall k :: 0 <= k < n ==> ReceivedStream(start, n, lsbFirst)[k] == NthByte(start, k, lsbFirst)
    {
      forall k | 0 <= k < n
        ensures ReceivedStream(start, n, lsbFirst)[k] == NthByte(start, k, lsbFirst)
      {
        ReceivedStreamAt(start, n, lsbFirst, k);
      }
    }

    /** Byte `k` of the stream is made of samples `start + 8k` to `start + 8k + 7`. */
    lemma {:induction false} ReceivedStreamAt(start: nat, n: nat, lsbFirst: bool, k: nat)
      requires k < n
      ensures ReceivedStream(start, n, lsbFirst)[k] == Received(Samples(start + 8 * k, 8), lsbFirst)
    {
      if k < n - 1 {
        ReceivedStreamAt(start, n - 1, lsbFirst, k);
      }
    }

    /** LSB first, the input after `n` samples from `start`: each step shifts
        right and sets bit 7 for a high sample. */
    function LsbInput(start: nat, n: nat): bv8
    {
      if n == 0 then 0
      else if miso(start + n - 1) then (LsbInput(start, n - 1) >> 1) | 0x80
      else LsbInput(start, n - 1) >> 1
    }

    /** MSB first, the input after `n` samples from `start`: each step shifts
        left and sets bit 0 for a high sample. */
    function MsbInput(start: nat, n: nat): bv8
    {
      if n == 0 then 0
      else if miso(start + n - 1) then (MsbInput(start, n - 1) << 1) | 0x01
      else MsbInput(start, n - 1) << 1
    }

    lemma {:induction false} LsbInputIs(start: nat, n: nat)
      requires n <= 8
      ensures LsbInput(start, n) == LsbPartial(Samples(start, n))
    {
      if n > 0 {
        LsbInputIs(start, n - 1);
        assert Samples(start, n)[..n - 1] == Samples(start, n - 1);
      }
    }

    lemma {:induction false} MsbInputIs(start: nat, n: nat)
      requires n <= 8
      ensures MsbInput(start, n) == FromBitsMsb(Samples(start, n))
    {
      if n > 0 {
        MsbInputIs(start, n - 1);
        assert Samples(start, n)[..n - 1] == Samples(start, n - 1);
      }
    }

    /** `initialize()`: both output lines low. */
    method Initialize()
      modifies this
      ensures !sck && !mosi
      ensures sckTrace == old(sckTrace) + [false] && mosiTrace == old(mosiTrace) + [false]
      ensures operationMode == old(operationMode) && samples == old(samples)
    {
      sck := false;
      sckTrace := sckTrace + [false];
      mosi := false;
      mosiTrace := mosiTrace + [false];
    }

    /** Only the two mode bits change; SCK goes to the idle level of the new
        polarity. */
    method SetDataMode(mode: DataMode)
      modifies this
      ensures operationMode & 0x3 == mode && operationMode & !0x3 == old(operationMode) & !0x3
      ensures sck == (mode & 0x2 != 0) && sckTrace == old(sckTrace) + [sck]
      ensures mosiTrace == old(mosiTrace) && samples == old(samples)
    {
      operationMode := (operationMode & !0x3) | mode;
      sck := operationMode & 0x2 != 0;
      sckTrace := sckTrace + [sck];
    }

    /** Only the bit-order bit changes. */
    method SetDataOrder(order: DataOrder)
      modifies this
      ensures IsLsbFirst(operationMode) == (order == LsbFirst)
      ensures operationMode & !0x4 == old(operationMode) & !0x4
      ensures sckTrace == old(sckTrace) && mosiTrace == old(mosiTrace) && samples == old(samples)
    {
      if order == LsbFirst {
        operationMode := operationMode | 0x4;
      } else {
        operationMode := operationMode & !0x4;
      }
    }

    /** One byte exchange: eight clock pulses ending at the idle level, the
        bits of `data` on MOSI in the configured order, and eight MISO
        samples assembled in the same order. */
    method WriteReadBlocking(data: bv8) returns (input: bv8)
      modifies this
      ensures input == ByteFrom(old(samples), IsLsbFirst(old(operationMode)))
      ensures mosiTrace == old(mosiTrace) + MosiBits(data, IsLsbFirst(old(operationMode)))
      ensures sckTrace == old(sckTrace) + Pulses(8, ClockPolarity(old(operationMode)))
      ensures sck == ClockPolarity(old(operationMode))
      ensures samples == old(samples) + 8 && operationMode == old(operationMode)
    {
      // The bit order does not change during the exchange, so the test of the
      // mode bit inside the loop is hoisted into one loop per bit order.
      var lsb, cpol, start, mosiBefore, sckBefore := IsLsbFirst(operationMode), ClockPolarity(operationMode), samples, mosiTrace, sckTrace;
      if lsb {
        input := ExchangeLsbFirst(data);
        LsbInputIs(start, 8);
        LsbPartialComplete(Samples(start, 8));
      } else {
        input := ExchangeMsbFirst(data);
        MsbInputIs(start, 8);
      }
      BitsAfterIs(mosiBefore, data, lsb, 8);
      PulsesAfterIs(sckBefore, 8, cpol);
    }

    /** The exchange loop LSB first: shift the input right, put bit 0 of the
        data on MOSI, set bit 7 of the input for a high sample, shift the data
        right. */
    method ExchangeLsbFirst(data: bv8) returns (input: bv8)
      modifies this
      ensures input == LsbInput(old(samples), 8)
      ensures mosiTrace == BitsAfter(old(mosiTrace), data, true, 8)
      ensures sckTrace == PulsesAfter(old(sckTrace), 8, ClockPolarity(old(operationMode)))
      ensures sck == ClockPolarity(old(operationMode))
      ensures samples == old(samples) + 8 && operationMode == old(operationMode)
    {
      var cpol := ClockPolarity(operationMode);
      var start := samples;
      input := 0;
      var d := data;
      var ii := 0;
      while ii < 8
        invariant 0 <= ii <= 8 && samples == start + ii && operationMode == old(operationMode)
        invariant d == ShiftRight(data, ii) && input == LsbInput(start, ii)
        invariant mosiTrace == BitsAfter(old(mosiTrace), data, true, ii)
        invariant sckTrace == PulsesAfter(old(sckTrace), ii, cpol)
        invariant ii > 0 ==> sck == cpol
      {
        d, input := LsbStep(data, ii, d, input, start, old(mosiTrace), old(sckTrace));
        ii := ii + 1;
      }
    }

    /** The exchange loop MSB first: shift the input left, put bit 7 of the
        data on MOSI, set bit 0 of the input for a high sample, shift the data
        left. */
    method ExchangeMsbFirst(data: bv8) returns (input: bv8)
      modifies this
      ensures input == MsbInput(old(samples), 8)
      ensures mosiTrace == BitsAfter(old(mosiTrace), data, false, 8)
      ensures sckTrace == PulsesAfter(old(sckTrace), 8, ClockPolarity(old(operationMode)))
      ensures sck == ClockPolarity(old(operationMode))
      ensures samples == old(samples) + 8 && operationMode == old(operationMode)
    {
      var cpol := ClockPolarity(operationMode);
      var start := samples;
      input := 0;
      var d := data;
      var ii := 0;
      while ii < 8
        invariant 0 <= ii <= 8 && samples == start + ii && operationMode == old(operationMode)
        invariant d == ShiftLeft(data, ii) && input == MsbInput(start, ii)
        invariant mosiTrace == BitsAfter(old(mosiTrace), data, false, ii)
        invariant sckTrace == PulsesAfter(old(sckTrace), ii, cpol)
        invariant ii > 0 ==> sck == cpol
      {
        d, input := MsbStep(data, ii, d, input, start, old(mosiTrace), old(sckTrace));
        ii := ii + 1;
      }
    }

    /** One turn of the MSB-first exchange loop. */
    method MsbStep(data: bv8, ii: nat, d: bv8, input: bv8, ghost start: nat, ghost mosi0: seq<bool>, ghost sck0: seq<bool>)
      returns (d': bv8, input': bv8)
      requires samples == start + ii && d == ShiftLeft(data, ii) && input == MsbInput(start, ii)
      requires mosiTrace == BitsAfter(mosi0, data, false, ii)
      requires sckTrace == PulsesAfter(sck0, ii, ClockPolarity(operationMode))
      modifies this
      ensures samples == start + ii + 1 && operationMode == old(operationMode)
      ensures d' == ShiftLeft(data, ii + 1) && input' == MsbInput(start, ii + 1)
      ensures mosiTrace == BitsAfter(mosi0, data, false, ii + 1)
      ensures sckTrace == PulsesAfter(sck0, ii + 1, ClockPolarity(operationMode))
      ensures sck == ClockPolarity(operationMode)
    {
      input' := input << 1;
      var bit := ClockCycle(d & 0x80 != 0);
      if bit {
        input' := input' | 0x01;
      }
      d' := d << 1;
      assert d' == ShiftLeft(data, ii + 1);
      assert input' == MsbInput(start, ii + 1);
    }

    /** One turn of the LSB-first exchange loop. */
    method LsbStep(data: bv8, ii: nat, d: bv8, input: bv8, ghost start: nat, ghost mosi0: seq<bool>, ghost sck0: seq<bool>)
      returns (d': bv8, input': bv8)
      requires samples == start + ii && d == ShiftRight(data, ii) && input == LsbInput(start, ii)
      requires mosiTrace == BitsAfter(mosi0, data, true, ii)
      requires sckTrace == PulsesAfter(sck0, ii, ClockPolarity(operationMode))
      modifies this
      ensures samples == start + ii + 1 && operationMode == old(operationMode)
      ensures d' == ShiftRight(data, ii + 1) && input' == LsbInput(start, ii + 1)
      ensures mosiTrace == BitsAfter(mosi0, data, true, ii + 1)
      ensures sckTrace == PulsesAfter(sck0, ii + 1, ClockPolarity(operationMode))
      ensures sck == ClockPolarity(operationMode)
    {
      input' := input >> 1;
      var bit := ClockCycle(d & 0x01 != 0);
      if bit {
        input' := input' | 0x80;
      }
      d' := d >> 1;
      assert d' == ShiftRight(data, ii + 1);
      assert input' == LsbInput(start, ii + 1);
    }

    /** One clock cycle of the exchange: the output bit on MOSI, SCK to the
        active level, one MISO sample, SCK back to the idle level. */
    method ClockCycle(level: bool) returns (bit: bool)
      modifies this
      ensures mosi == level && mosiTrace == old(mosiTrace) + [level]
      ensures sck == ClockPolarity(operationMode) && sckTrace == old(sckTrace) + [!ClockPolarity(operationMode)] + [ClockPolarity(operationMode)]
      ensures bit == miso(old(samples)) && samples == old(samples) + 1
      ensures operationMode == old(operationMode)
    {
      mosi := level;
      mosiTrace := mosiTrace + [mosi];
      sck := !ClockPolarity(operationMode);
      sckTrace := sckTrace + [sck];
      bit := miso(samples);
      samples := samples + 1;
      sck := ClockPolarity(operationMode);
      sckTrace := sckTrace + [sck];
    }

    /** `length` byte exchanges: the byte sent is `tx[i]`, or 0xff when there is
        no transmit buffer; the byte received is stored to `rx[i]` only when there
        is a receive buffer. */
    method TransferBlocking(tx: array?<bv8>, rx: array?<bv8>, length: nat)
      requires tx != null ==> length <= tx.Length
      requires rx != null ==> length <= rx.Length
      modifies this, rx
      ensures samples == old(samples) + 8 * length && operationMode == old(operationMode)
      ensures mosiTrace == old(mosiTrace) + MosiStream(if tx == null then Fill(length) else old(tx[..length]), IsLsbFirst(old(operationMode)))
      ensures rx != null ==> rx[..length] == ReceivedStream(old(samples), length, IsLsbFirst(old(operationMode)))
      ensures rx != null ==> rx[length..] == old(rx[length..])
    {
      ghost var lsb := IsLsbFirst(operationMode);
      ghost var start := samples;
      ghost var sent := if tx == null then Fill(length) else tx[..length];
      TransferLoop(tx, rx, length, sent);
      StreamAfterIs(old(mosiTrace), sent, length, lsb);
      assert sent[..length] == sent;
      if rx != null {
        ReceivedPrefix(rx[..], old(rx[..]), start, length, lsb);
      }
    }

    /** The loop of `transferBlocking`, one `TransferStep` per byte. */
    method TransferLoop(tx: array?<bv8>, rx: array?<bv8>, length: nat, ghost sent: seq<bv8>)
      requires tx != null ==> length <= tx.Length
      requires rx != null ==> length <= rx.Length
      requires sent == if tx == null then Fill(length) else tx[..length]
      modifies this, rx
      ensures samples == old(samples) + 8 * length && operationMode == old(operationMode)
      ensures mosiTrace == StreamAfter(old(mosiTrace), sent, length, IsLsbFirst(operationMode))
      ensures rx != null ==> forall k :: 0 <= k < length ==> rx[k] == NthByte(old(samples), k, IsLsbFirst(operationMode))
      ensures rx != null ==> forall k :: length <= k < rx.Length ==> rx[k] == old(rx[k])
    {
      var lsb := IsLsbFirst(operationMode);
      var start := samples;
      var txByte: bv8 := 0xff;
      var i := 0;
      while i < length
        invariant 0 <= i <= length && samples == start + 8 * i && operationMode == old(operationMode)
        invariant mosiTrace == StreamAfter(old(mosiTrace), sent, i, lsb)
        invariant tx != null ==> forall k :: i <= k < length ==> tx[k] == sent[k]
        invariant rx != null ==> forall k :: 0 <= k < i ==> rx[k] == NthByte(start, k, lsb)
        invariant rx != null ==> forall k :: length <= k < rx.Length ==> rx[k] == old(rx[k])
        invariant tx == null ==> txByte == 0xff
      {
        txByte := TransferStep(tx, rx, i, txByte, start, sent, old(mosiTrace));
        i := i + 1;
      }
    }

    /** One turn of the transfer loop: the byte sent is `tx[i]`, or the previous
        `txByte` without a transmit buffer; the byte received is stored to
        `rx[i]` when there is a receive buffer, and no other place of `rx`
        changes. The MOSI trace grows by the byte's bits. */
    method TransferStep(tx: array?<bv8>, rx: array?<bv8>, i: nat, txByte: bv8,
                        ghost start: nat, ghost sent: seq<bv8>, ghost trace: seq<bool>) returns (sentByte: bv8)
      requires i < |sent| && samples == start + 8 * i
      requires tx != null ==> i < tx.Length && tx[i] == sent[i]
      requires tx == null ==> txByte == sent[i]
      requires mosiTrace == StreamAfter(trace, sent, i, IsLsbFirst(operationMode))
      requires rx != null ==> i < rx.Length
      modifies this, rx
      ensures sentByte == sent[i] && (tx == null ==> sentByte == txByte)
      ensures samples == old(samples) + 8 && operationMode == old(operationMode)
      ensures mosiTrace == StreamAfter(trace, sent, i + 1, IsLsbFirst(operationMode))
      ensures rx != null ==> rx[i] == NthByte(start, i, IsLsbFirst(operationMode))
      ensures rx != null ==> forall k :: 0 <= k < rx.Length && k != i ==> rx[k] == old(rx[k])
    {
      sentByte := txByte;
      if tx != null {
        sentByte := tx[i];
      }
      var rxByte := WriteReadBlocking(sentByte);
      if rx != null {
        rx[i] := rxByte;
      }
    }
  }

  /** `n` bytes 0xff: what is sent without a transmit buffer. */
  function Fill(n: nat): (r: seq<bv8>)
    ensures |r| == n && forall k :: 0 <= k < n ==> r[k] == 0xff
  {
    if n == 0 then [] else Fill(n - 1) + [0xff]
  }
}
