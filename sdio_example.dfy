/** The helpers of the two SD card example programs (the polled and the
    DMA one carry identical copies): `UIntToString`, which writes an
    unsigned number in decimal into a character buffer, the `xorshift32`
    generator over the global `x32`, the test-file names and the printable
    fill characters. */
module SdioExample {

  import opened Ints

  /** The character of decimal digit `d`. */
  function DigitChar(d: nat): char
    requires d < 10
  {
    ('0' as int + d) as char
  }

  /** The decimal digits of `v`, most significant first, with no leading
      zero (a single `'0'` for zero). */
  function Digits(v: nat): (s: seq<char>)
    ensures |s| >= 1
  {
    (if v < 10 then [] else Digits(v / 10)) + [DigitChar(v % 10)]
  }

  /** The decimal digits of `v`, least significant first: the order in
      which `UIntToString` produces them. */
  function LowDigits(v: nat): (s: seq<char>)
    ensures |s| >= 1
  {
    [DigitChar(v % 10)] + if v < 10 then [] else LowDigits(v / 10)
  }

  function Reverse(s: seq<char>): (r: seq<char>)
    ensures |r| == |s|
  {
    if s == [] then [] else Reverse(s[1..]) + [s[0]]
  }

  lemma {:induction false} ReverseIndex(s: seq<char>)
    ensures forall k :: 0 <= k < |s| ==> Reverse(s)[k] == s[|s| - 1 - k]
  {
    if s != [] {
      ReverseIndex(s[1..]);
    }
  }

  /** Reversing the digits in production order gives the written order. */
  lemma {:induction false} DigitsReverse(v: nat)
    ensures Digits(v) == Reverse(LowDigits(v))
  {
    var low := LowDigits(v);
    assert low[1..] == if v < 10 then [] else LowDigits(v / 10);
    if v >= 10 {
      DigitsReverse(v / 10);
    }
  }

  /** The number a string of decimal digits denotes. */
  function ParseDecimal(s: seq<char>): int
  {
    if s == [] then 0 else ParseDecimal(s[..|s| - 1]) * 10 + (s[|s| - 1] as int - '0' as int)
  }

  /** Reading the digits back gives the number. */
  lemma {:induction false} ParseDigits(v: nat)
    ensures ParseDecimal(Digits(v)) == v
  {
    var s := Digits(v);
    assert s[..|s| - 1] == if v < 10 then [] else Digits(v / 10);
    if v >= 10 {
      ParseDigits(v / 10);
    }
  }

  /** Every character is a decimal digit, and only zero starts with `'0'`. */
  lemma {:induction false} DigitsAreDecimal(v: nat)
    ensures forall k :: 0 <= k < |Digits(v)| ==> '0' <= Digits(v)[k] <= '9'
    ensures Digits(v)[0] == '0' ==> v == 0
  {
    if v >= 10 {
      DigitsAreDecimal(v / 10);
    }
  }

  function Pow10(k: nat): (p: nat)
    ensures p >= 1
  {
    if k == 0 then 1 else 10 * Pow10(k - 1)
  }

  /** `v` has at most `k` digits iff it is below `10^k`: the digit string
      is as short as the number allows. */
  lemma {:induction false} DigitCount(v: nat, k: nat)
    requires k >= 1
    ensures |Digits(v)| <= k <==> v < Pow10(k)
  {
    if k == 1 {
    } else if v < 10 {
      assert Pow10(k) == 10 * Pow10(k - 1);
    } else {
      DigitCount(v / 10, k - 1);
    }
  }

  /** A 32-bit number has at most ten digits. */
  lemma DigitsOfUint32(v: uint32)
    ensures |Digits(v)| <= 10
  {
    assert Pow10(10) == 10_000_000_000;
    DigitCount(v, 10);
  }

  /** The digits still to come from `rest` in production order. */
  function PendingDigits(rest: nat): seq<char>
  {
    if rest == 0 then [] else LowDigits(rest)
  }

  /** There are as many digits in either order. */
  lemma {:induction false} LowDigitsLength(v: nat)
    ensures |LowDigits(v)| == |Digits(v)|
  {
    if v >= 10 {
      LowDigitsLength(v / 10);
    }
  }

  /** While something is left, the next digit comes from it. */
  lemma PendingStep(v: nat)
    requires v != 0
    ensures PendingDigits(v) == [DigitChar(v % 10)] + PendingDigits(v / 10)
  {
    LowDigitsSplit(v);
  }

  /** Producing one digit leaves those of `v / 10` to come. */
  lemma LowDigitsSplit(v: nat)
    ensures LowDigits(v) == [DigitChar(v % 10)] + PendingDigits(v / 10)
  {
  }

  /** `UIntToString(in, out)`: write the decimal digits of `value` into
      `out` followed by a NUL and return how many digits there are. The
      digits are produced least significant first into a 32-character
      scratch buffer and then copied back in reverse. */
  method UIntToString(value: uint32, out: array<char>) returns (n: uint8)
    requires out.Length > |Digits(value)|
    modifies out
    ensures n as int == |Digits(value)| && 1 <= n <= 10
    ensures out[..n] == Digits(value) && out[n] == '\0'
    ensures out[n as int + 1..] == old(out[n as int + 1..])
  {
    DigitsOfUint32(value);
    DigitsReverse(value);
    var temp := new char[32](_ => '\0');
    var count := ProduceDigits(value, temp);
    out[count] := '\0';
    CopyReversed(temp, count, out);
    n := count as uint8;
  }

  /** The first loop of `UIntToString`: divide by ten until nothing is
      left, storing each remainder's digit in `temp`. */
  method ProduceDigits(value: uint32, temp: array<char>) returns (count: nat)
    requires temp.Length == 32
    modifies temp
    ensures count <= 10 && temp[..count] == LowDigits(value)
  {
    ghost var low := LowDigits(value);
    DigitsOfUint32(value);
    LowDigitsLength(value);
    var v: nat := value;
    temp[0] := DigitChar(v % 10);
    LowDigitsSplit(v);
    v := v / 10;
    count := 1;
    while v != 0
      invariant 1 <= count <= |low| <= 10
      invariant forall k :: 0 <= k < count ==> temp[k] == low[k]
      invariant low[count..] == PendingDigits(v)
      decreases v
    {
      PendingStep(v);
      assert low[count + 1..] == low[count..][1..];
      temp[count] := DigitChar(v % 10);
      v := v / 10;
      count := count + 1;
    }
    assert temp[..count] == low;
  }

  /** The second loop of `UIntToString`: copy the first `count` characters
      of `temp` into `out` in reverse order. */
  method CopyReversed(temp: array<char>, count: nat, out: array<char>)
    requires temp != out && count <= temp.Length && count <= out.Length
    modifies out
    ensures out[..count] == Reverse(temp[..count])
    ensures forall k :: count <= k < out.Length ==> out[k] == old(out[k])
  {
    var i: nat := count;
    var j: nat := 0;
    while i != 0
      invariant i <= count && j == count - i
      invariant forall k :: i <= k < count ==> out[k] == temp[count - 1 - k]
      invariant forall k :: count <= k < out.Length ==> out[k] == old(out[k])
    {
      out[i - 1] := temp[j];
      i := i - 1;
      j := j + 1;
    }
    ReverseIndex(temp[..count]);
  }

  /** `x ^= x << 13`, modulo 2^32. */
  function StepLeft13(x: bv32): bv32
  {
    x ^ (x << 13)
  }

  /** `x ^= x >> 17`. */
  function StepRight17(x: bv32): bv32
  {
    x ^ (x >> 17)
  }

  /** `x ^= x << 5`, modulo 2^32. */
  function StepLeft5(x: bv32): bv32
  {
    x ^ (x << 5)
  }

  /** One step of Marsaglia's xorshift32: the three shift-xor updates in
      order. */
  function XorShift(x: bv32): bv32
  {
    StepLeft5(StepRight17(StepLeft13(x)))
  }

  /** The state after `k` steps from `x`. */
  function Iterate(x: bv32, k: nat): bv32
  {
    if k == 0 then x else XorShift(Iterate(x, k - 1))
  }

  /** The generator's global state `x32`. */
  class Generator {
    var x32: bv32

    constructor ()
      ensures x32 == 314159265
    {
      x32 := 314159265;
    }

    /** `xorshift32()`: advance `x32` by one step and return it. */
    method Next() returns (r: bv32)
      modifies this
      ensures x32 == XorShift(old(x32)) && r == x32
    {
      x32 := StepLeft13(x32);
      x32 := StepRight17(x32);
      x32 := StepLeft5(x32);
      r := x32;
    }
  }

  /** The fill character for generator output `r`: `(r % 89) + 33`. */
  function FillChar(r: bv32): (c: char)
    ensures '!' <= c <= 'y'
  {
    (r as int % 89 + 33) as char
  }

  /** The buffer fill of the file test: every character from a fresh
      generator output, so each is printable ASCII between `'!'` (33) and
      `'y'` (121). */
  method Fill(g: Generator, buffer: array<char>)
    modifies g, buffer
    ensures g.x32 == Iterate(old(g.x32), buffer.Length)
    ensures forall i :: 0 <= i < buffer.Length ==> buffer[i] == FillChar(Iterate(old(g.x32), i + 1))
  {
    var i := 0;
    while i < buffer.Length
      invariant 0 <= i <= buffer.Length
      invariant g.x32 == Iterate(old(g.x32), i)
      invariant forall k :: 0 <= k < i ==> buffer[k] == FillChar(Iterate(old(g.x32), k + 1))
    {
      var r := g.Next();
      buffer[i] := FillChar(r);
      i := i + 1;
    }
  }

  /** The name of test file number `i`: its digits and `.txt`. */
  function FileName(i: nat): seq<char>
  {
    Digits(i) + ".txt"
  }

  /** Different file numbers give different names, and no name contains a
      NUL, so the NUL-terminated buffer holds exactly the name. */
  lemma FileNamesDistinct(i: nat, j: nat)
    ensures FileName(i) == FileName(j) ==> i == j
    ensures forall k :: 0 <= k < |FileName(i)| ==> FileName(i)[k] != '\0'
  {
    DigitsAreDecimal(i);
    if FileName(i) == FileName(j) {
      assert Digits(i) == FileName(i)[..|FileName(i)| - 4] == Digits(j);
      ParseDigits(i);
      ParseDigits(j);
    }
  }

  /** The name buffer of the file test: 32 NUL characters, the digits of
      `i` from `UIntToString`, then `.txt` over its NUL and the ones after. */
  method MakeFileName(i: uint8) returns (name: array<char>)
    ensures fresh(name) && name.Length == 32 && |FileName(i)| <= 14
    ensures name[..|FileName(i)| + 1] == FileName(i) + ['\0']
  {
    name := new char[32](_ => '\0');
    DigitsOfUint32(i);
    var num := UIntToString(i, name);
    name[num] := '.';
    name[num as int + 1] := 't';
    name[num as int + 2] := 'x';
    name[num as int + 3] := 't';
  }
}
