/** The STM32F1 GPIO pin types: the 4-bit mode/configuration field of each
    pin in the CRL (pins 0..7) and CRH (pins 8..15) registers, the set and
    reset registers BSRR and BRR, and the input data register IDR.

    One port is a `GpioPort` object holding its registers; a pin type of the
    library (`GPIO__IO`, `GPIO__OUTPUT`, `GPIO__INPUT`) is a pin number on it.
    Writes to BSRR and BRR are logged in `writes` and act on the output data
    register `odr` as the hardware does; `idr` is set by the pins' levels. */
module Stm32Gpio {

  /** `InputMode`. */
  datatype InputMode = Input | Analog

  function InputModeValue(m: InputMode): bv32
  {
    match m
    case Input => 0x1
    case Analog => 0x0
  }

  /** `InputType`. */
  datatype InputType = Floating | PullUp | PullDown

  function InputTypeValue(t: InputType): bv32
  {
    match t
    case Floating => 0x4
    case PullUp => 0x9
    case PullDown => 0x8
  }

  /** `OutputMode`. */
  datatype OutputMode = Output | Alternate

  function OutputModeValue(m: OutputMode): bv32
  {
    match m
    case Output => 0x0
    case Alternate => 0x8
  }

  /** `OutputType`. */
  datatype OutputType = PushPull | OpenDrain

  function OutputTypeValue(t: OutputType): bv32
  {
    match t
    case PushPull => 0x0
    case OpenDrain => 0x4
  }

  /** `OutputSpeed`. */
  datatype OutputSpeed = Speed2MHz | Speed10MHz | Speed50MHz

  function OutputSpeedValue(s: OutputSpeed): bv32
  {
    match s
    case Speed2MHz => 0x2
    case Speed10MHz => 0x1
    case Speed50MHz => 0x3
  }

  /** The mask of a pin's bit in BSRR, BRR and IDR: `1 << pin` for the pins
      0..15. */
  function PinBit(pin: nat): bv32
  {
    if pin < 8 then LowPinBit(pin) else LowPinBit(pin - 8) << 8
  }

  function LowPinBit(pin: nat): bv32
  {
    if pin == 0 then 0x01 else if pin == 1 then 0x02 else if pin == 2 then 0x04 else if pin == 3 then 0x08
    else if pin == 4 then 0x10 else if pin == 5 then 0x20 else if pin == 6 then 0x40 else 0x80
  }

  /** `x << (4 * n)`: a value moved to field `n` (0..7) of a configuration
      register. */
  function ToField(x: bv32, n: nat): bv32
  {
    if n == 0 then x else if n == 1 then x << 4 else if n == 2 then x << 8 else if n == 3 then x << 12
    else if n == 4 then x << 16 else if n == 5 then x << 20 else if n == 6 then x << 24 else x << 28
  }

  /** The bits of field `n`: `0xf << (4 * n)`. */
  function FieldMask(n: nat): bv32
  {
    ToField(0xf, n)
  }

  /** Field `n` of `reg` holds the mode `m`. */
  predicate HoldsMode(reg: bv32, n: nat, m: bv32)
  {
    reg & FieldMask(n) == ToField(m, n)
  }

  /** `reg` and `reg'` agree outside field `n`. */
  predicate SameOutside(reg: bv32, reg': bv32, n: nat)
  {
    reg & !FieldMask(n) == reg' & !FieldMask(n)
  }

  /** The two statements of `setMode` on one register: clear field `n`, then OR
      in `m` shifted to it, unmasked. */
  function SetField(reg: bv32, n: nat, m: bv32): bv32
  {
    (reg & !FieldMask(n)) | ToField(m, n)
  }

  /** A mode below 16 moved to field `n` lies within it, and different modes
      stay different. */
  lemma ToFieldWithin(m: bv32, n: nat)
    requires n < 8 && m < 16
    ensures ToField(m, n) & !FieldMask(n) == 0
  {
  }

  lemma ToFieldInjective(m: bv32, m': bv32, n: nat)
    requires n < 8 && m < 16 && m' < 16 && m != m'
    ensures ToField(m, n) != ToField(m', n)
  {
  }

  /** Clearing the bits `a` and OR-ing in `t`, which lies within `a`, sets the
      bits `a` to `t` and keeps every other bit. */
  lemma ClearThenOr(reg: bv32, a: bv32, t: bv32)
    requires t & !a == 0
    ensures ((reg & !a) | t) & a == t
    ensures ((reg & !a) | t) & !a == reg & !a
  {
  }

  /** Writing a value that lies within field `n` sets the field to it and
      keeps every other bit. */
  lemma SetFieldMasks(reg: bv32, n: nat, m: bv32)
    requires n < 8 && ToField(m, n) & !FieldMask(n) == 0
    ensures HoldsMode(SetField(reg, n, m), n, m)
    ensures SameOutside(SetField(reg, n, m), reg, n)
  {
    ClearThenOr(reg, FieldMask(n), ToField(m, n));
  }

  /** A mode below 16 lands in its field and leaves every other bit of the
      register alone; the field then names that mode and no other. */
  lemma {:induction false} SetFieldOnlyField(reg: bv32, n: nat, m: bv32)
    requires n < 8 && m < 16
    ensures HoldsMode(SetField(reg, n, m), n, m)
    ensures SameOutside(SetField(reg, n, m), reg, n)
    ensures forall m' :: m' < 16 && m' != m ==> !HoldsMode(SetField(reg, n, m), n, m')
  {
    ToFieldWithin(m, n);
    SetFieldMasks(reg, n, m);
    forall m' | m' < 16 && m' != m
      ensures !HoldsMode(SetField(reg, n, m), n, m')
    {
      ToFieldInjective(m, m', n);
    }
  }

  /** `m` is not masked: a mode of 16 or more also sets bits outside its
      field, e.g. 0x13 written to pin 0 turns on bit 0 of pin 1's field. */
  lemma SetFieldSpills()
    ensures HoldsMode(SetField(0, 0, 0x13), 0, 0x3)
    ensures HoldsMode(SetField(0, 0, 0x13), 1, 0x1)
    ensures !SameOutside(SetField(0, 0, 0x13), 0, 0)
  {
  }

  /** `configureOutput`/`configure` of an output: mode | type | speed. */
  function OutputConfig(mode: OutputMode, otype: OutputType, speed: OutputSpeed): (c: bv32)
    ensures c < 16
  {
    OutputModeValue(mode) | OutputTypeValue(otype) | OutputSpeedValue(speed)
  }

  /** The default output configuration is push-pull output at 50 MHz, field
      value 0x3; the three parts occupy disjoint bits, so the field value
      tells them apart. */
  lemma {:induction false} OutputConfigDecodes(mode: OutputMode, otype: OutputType, speed: OutputSpeed,
                                              mode': OutputMode, otype': OutputType, speed': OutputSpeed)
    ensures OutputConfig(Output, PushPull, Speed50MHz) == 0x3
    ensures OutputConfig(mode, otype, speed) == OutputConfig(mode', otype', speed')
            <==> mode == mode' && otype == otype' && speed == speed'
  {
    var c := OutputConfig(mode, otype, speed);
    var c' := OutputConfig(mode', otype', speed');
    assert c & 0x8 == OutputModeValue(mode) && c & 0x4 == OutputTypeValue(otype) && c & 0x3 == OutputSpeedValue(speed);
    assert c' & 0x8 == OutputModeValue(mode') && c' & 0x4 == OutputTypeValue(otype') && c' & 0x3 == OutputSpeedValue(speed');
  }

  /** `GPIO__INPUT::configure`: (mode | type) & 0xc for an input, 0 (analog)
      otherwise. */
  function InputConfig(mode: InputMode, itype: InputType): (c: bv32)
    ensures c < 16
  {
    if mode == Input then (InputModeValue(mode) | InputTypeValue(itype)) & 0xc else 0
  }

  /** Floating input is field value 0x4, pull-up and pull-down inputs are 0x8,
      analog is 0. */
  lemma InputConfigValues(itype: InputType)
    ensures InputConfig(Input, Floating) == 0x4
    ensures InputConfig(Input, PullUp) == 0x8 && InputConfig(Input, PullDown) == 0x8
    ensures InputConfig(Analog, itype) == 0
  {
  }

  /** `GPIO__IO::configureInput` as written: the mask is 0xc0. */
  function IoInputConfigAsWritten(mode: InputMode, itype: InputType): bv32
  {
    if mode != Analog then (InputModeValue(mode) | InputTypeValue(itype)) & 0xc0 else 0
  }

  /** As written, every input configuration of `GPIO__IO` writes field value 0,
      the analog mode, where `GPIO__INPUT` writes 0x4 or 0x8. */
  lemma IoInputConfigIsAnalog(mode: InputMode, itype: InputType)
    ensures IoInputConfigAsWritten(mode, itype) == InputConfig(Analog, itype)
    ensures mode == Input ==> IoInputConfigAsWritten(mode, itype) != InputConfig(mode, itype)
  {
  }

  /** A write of the driver to the set/reset registers. */
  datatype PortWrite = Bsrr(bits: bv32) | Brr(bits: bv32)

  /** The output data register after the pin's bit is written to BSRR (`high`)
      or to BRR. */
  function Drive(odr: bv32, pin: nat, high: bool): bv32
  {
    if high then odr | PinBit(pin) else odr & !PinBit(pin)
  }

  /** The one-bit write to BSRR (`high`) or BRR. */
  function DriveWrite(pin: nat, high: bool): PortWrite
  {
    if high then Bsrr(PinBit(pin)) else Brr(PinBit(pin))
  }

  /** Driving a pin sets its output bit to the level and leaves the other
      fifteen pins' bits as they were. */
  lemma DriveEffect(odr: bv32, pin: nat, high: bool)
    requires pin < 16
    ensures (Drive(odr, pin, high) & PinBit(pin) != 0) == high
    ensures Drive(odr, pin, high) & !PinBit(pin) == odr & !PinBit(pin)
  {
  }

  class GpioPort {
    var crl: bv32
    var crh: bv32
    var odr: bv32
    var idr: bv32
    var writes: seq<PortWrite>

    constructor (crl: bv32, crh: bv32, odr: bv32, idr: bv32)
      ensures this.crl == crl && this.crh == crh && this.odr == odr && this.idr == idr && writes == []
    {
      this.crl := crl;
      this.crh := crh;
      this.odr := odr;
      this.idr := idr;
      writes := [];
    }

    /** `GpioMode<P, N>::setMode(m)`: read-modify-write of CRH for pins 8..15,
        of CRL for pins 0..7. */
    method SetMode(pin: nat, m: bv32)
      requires pin < 16
      modifies this
      ensures pin >= 8 ==> crh == SetField(old(crh), pin - 8, m) && crl == old(crl)
      ensures pin < 8 ==> crl == SetField(old(crl), pin, m) && crh == old(crh)
      ensures odr == old(odr) && idr == old(idr) && writes == old(writes)
    {
      if pin >= 8 {
        crh := crh & !FieldMask(pin - 8);
        crh := crh | ToField(m, pin - 8);
      } else {
        crl := crl & !FieldMask(pin);
        crl := crl | ToField(m, pin);
      }
    }

    /** `set()`: the pin's bit written to BSRR, which drives it high. */
    method Set(pin: nat)
      requires pin < 16
      modifies this
      ensures writes == old(writes) + [DriveWrite(pin, true)] && odr == Drive(old(odr), pin, true)
      ensures crl == old(crl) && crh == old(crh) && idr == old(idr)
    {
      writes := writes + [Bsrr(PinBit(pin))];
      odr := odr | PinBit(pin);
    }

    /** `reset()`: the pin's bit written to BRR, which drives it low. */
    method Reset(pin: nat)
      requires pin < 16
      modifies this
      ensures writes == old(writes) + [DriveWrite(pin, false)] && odr == Drive(old(odr), pin, false)
      ensures crl == old(crl) && crh == old(crh) && idr == old(idr)
    {
      writes := writes + [Brr(PinBit(pin))];
      odr := odr & !PinBit(pin);
    }

    /** `read()`: the pin's bit in IDR. */
    function Read(pin: nat): bool
      requires pin < 16
      reads this
    {
      idr & PinBit(pin) != 0
    }

    /** `set(status)`. */
    method SetStatus(pin: nat, status: bool)
      requires pin < 16
      modifies this
      ensures writes == old(writes) + [DriveWrite(pin, status)] && odr == Drive(old(odr), pin, status)
      ensures crl == old(crl) && crh == old(crh) && idr == old(idr)
    {
      if status {
        Set(pin);
      } else {
        Reset(pin);
      }
    }

    /** `toggle()`: reset when the pin reads high, set otherwise. */
    method Toggle(pin: nat)
      requires pin < 16
      modifies this
      ensures writes == old(writes) + [DriveWrite(pin, !old(Read(pin)))]
      ensures odr == Drive(old(odr), pin, !old(Read(pin)))
      ensures crl == old(crl) && crh == old(crh) && idr == old(idr)
    {
      if idr & PinBit(pin) != 0 {
        Reset(pin);
      } else {
        Set(pin);
      }
    }

    /** `configureOutput(mode, type, speed)` of `GPIO__IO` and `configure` of
        `GPIO__OUTPUT`. */
    method ConfigureOutput(pin: nat, mode: OutputMode, otype: OutputType, speed: OutputSpeed)
      requires pin < 16
      modifies this
      ensures ConfiguredAs(crl, crh, pin, OutputConfig(mode, otype, speed))
      ensures OnlyPinChanged(old(crl), old(crh), crl, crh, pin)
      ensures odr == old(odr) && idr == old(idr) && writes == old(writes)
    {
      SetMode(pin, OutputConfig(mode, otype, speed));
      SetModeEffect(old(crl), old(crh), crl, crh, pin, OutputConfig(mode, otype, speed));
    }

    /** `setOutput(status)`: the level first, then the default output
        configuration, push-pull at 50 MHz. */
    method SetOutput(pin: nat, status: bool)
      requires pin < 16
      modifies this
      ensures ConfiguredAs(crl, crh, pin, 0x3) && OnlyPinChanged(old(crl), old(crh), crl, crh, pin)
      ensures writes == old(writes) + [DriveWrite(pin, status)] && odr == Drive(old(odr), pin, status)
      ensures idr == old(idr)
    {
      SetStatus(pin, status);
      ConfigureOutput(pin, Output, PushPull, Speed50MHz);
      OutputConfigDecodes(Output, PushPull, Speed50MHz, Output, PushPull, Speed50MHz);
    }

    /** `configure(mode, type)` of `GPIO__INPUT`, and `configureInput` of
        `GPIO__IO` with the mask corrected to 0xc: an input selects its pull
        direction through the output data register, high for a pull-up, low
        otherwise; analog mode writes neither. */
    method ConfigureInput(pin: nat, mode: InputMode, itype: InputType)
      requires pin < 16
      modifies this
      ensures ConfiguredAs(crl, crh, pin, InputConfig(mode, itype))
      ensures OnlyPinChanged(old(crl), old(crh), crl, crh, pin)
      ensures mode == Analog ==> writes == old(writes) && odr == old(odr)
      ensures mode == Input ==> writes == old(writes) + [DriveWrite(pin, itype == PullUp)]
                                && odr == Drive(old(odr), pin, itype == PullUp)
      ensures idr == old(idr)
    {
      var config := InputConfig(mode, itype);
      if mode == Input {
        if itype == PullUp {
          Set(pin);
        } else {
          Reset(pin);
        }
      }
      ghost var crl0, crh0 := crl, crh;
      SetMode(pin, config);
      SetModeEffect(crl0, crh0, crl, crh, pin, config);
    }

    /** `setInput()`: a floating input, field value 0x4, its output bit
        cleared. */
    method SetInput(pin: nat)
      requires pin < 16
      modifies this
      ensures ConfiguredAs(crl, crh, pin, 0x4) && OnlyPinChanged(old(crl), old(crh), crl, crh, pin)
      ensures writes == old(writes) + [Brr(PinBit(pin))] && odr == Drive(old(odr), pin, false)
      ensures idr == old(idr)
    {
      ConfigureInput(pin, Input, Floating);
    }
  }

  /** A pin whose input reads back its output level (a push-pull output)
      changes level on `toggle()`. */
  lemma ToggleFlips(odr: bv32, idr: bv32, pin: nat)
    requires pin < 16 && idr & PinBit(pin) == odr & PinBit(pin)
    ensures var odr' := Drive(odr, pin, idr & PinBit(pin) == 0);
            (odr' & PinBit(pin) != 0) == (odr & PinBit(pin) == 0)
  {
  }

  /** After `setMode(pin, m)` with `m < 16`, the pin's field holds `m` and
      no other bit of CRL or CRH has changed. */
  lemma {:induction false} SetModeEffect(crl: bv32, crh: bv32, crl': bv32, crh': bv32, pin: nat, m: bv32)
    requires pin < 16 && m < 16
    requires pin >= 8 ==> crh' == SetField(crh, pin - 8, m) && crl' == crl
    requires pin < 8 ==> crl' == SetField(crl, pin, m) && crh' == crh
    ensures ConfiguredAs(crl', crh', pin, m) && OnlyPinChanged(crl, crh, crl', crh', pin)
  {
    if pin >= 8 {
      SetFieldOnlyField(crh, pin - 8, m);
    } else {
      SetFieldOnlyField(crl, pin, m);
    }
  }

  /** The field of `pin` in CRL/CRH holds `m`. */
  predicate ConfiguredAs(crl: bv32, crh: bv32, pin: nat, m: bv32)
    requires pin < 16
  {
    if pin >= 8 then HoldsMode(crh, pin - 8, m) else HoldsMode(crl, pin, m)
  }

  /** CRL/CRH changed at most in the field of `pin`. */
  predicate OnlyPinChanged(crl: bv32, crh: bv32, crl': bv32, crh': bv32, pin: nat)
    requires pin < 16
  {
    if pin >= 8 then crl' == crl && SameOutside(crh', crh, pin - 8)
    else crh' == crh && SameOutside(crl', crl, pin)
  }
}
