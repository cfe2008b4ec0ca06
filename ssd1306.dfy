/** The SSD1306 OLED display driver over I2C: the 14-byte command buffer
    whose even bytes are the control byte 0x80 ("a command byte follows"),
    the command writes built on it, and the adapter that streams the frame
    buffer to the display in four segments.

    Each resumable operation is one atomic step. The driver's waits for a
    free adapter are taken to end with the transaction started; the outcome
    of a transfer, which the I2C tag adapter reports in `i2cSuccess`, is a
    parameter (`reported`). Transactions started on the command adapter are
    logged in `sent`. */
module Ssd1306 {

  // Command codes of the controller used by the driver.
  const SetContrastControl: bv8 := 0x81
  const SetChargePump: bv8 := 0x8D
  const SetEntireDisplayResumeToRam: bv8 := 0xA4
  const SetNormalDisplay: bv8 := 0xA6
  const SetInvertedDisplay: bv8 := 0xA7
  const SetDisplayOff: bv8 := 0xAE
  const SetDisplayOn: bv8 := 0xAF
  const SetHorizontalScrollRight: bv8 := 0x26
  const SetHorizontalScrollLeft: bv8 := 0x27
  const SetDisableScroll: bv8 := 0x2E
  const SetMemoryMode: bv8 := 0x20
  const SetColumnAddress: bv8 := 0x21
  const SetPageAddress: bv8 := 0x22
  const SetDisplayStartLine: bv8 := 0x40
  const SetSegmentRemap0: bv8 := 0xA0
  const SetSegmentRemap127: bv8 := 0xA1
  const SetMultiplexRatio: bv8 := 0xA8
  const SetComOutputScanDirectionIncrement: bv8 := 0xC0
  const SetComOutputScanDirectionDecrement: bv8 := 0xC8
  const SetDisplayOffset: bv8 := 0xD3
  const SetComPins: bv8 := 0xDA
  const SetDisplayClockDivideRatio: bv8 := 0xD5
  const SetPreChargePeriod: bv8 := 0xD9
  const SetV_DeselectLevel: bv8 := 0xDB

  /** The `I2cTask` codes: besides these, `i2cTask` holds the command byte of
      the running command transaction. */
  const Idle: bv8 := 0x00
  const WriteDisplay: bv8 := 0xFE
  const Ping: bv8 := 0xFF

  datatype Rotation = Normal | UpsideDown
  datatype ScrollDirection = Right | Left

  datatype ScrollStep = Frames2 | Frames3 | Frames4 | Frames5 | Frames25 | Frames64 | Frames128 | Frames256

  function ScrollStepValue(s: ScrollStep): bv8
  {
    match s
    case Frames2 => 0x7
    case Frames3 => 0x4
    case Frames4 => 0x5
    case Frames5 => 0x0
    case Frames25 => 0x6
    case Frames64 => 0x1
    case Frames128 => 0x2
    case Frames256 => 0x3
  }

  /** Command bytes interleaved with the control byte 0x80, which tells the
      controller that a command byte follows. */
  function Interleave(c: seq<bv8>): (f: seq<bv8>)
    ensures |f| == 2 * |c|
  {
    if c == [] then [] else [0x80, c[0]] + Interleave(c[1..])
  }

  /** The bytes at the odd positions of a frame: what the controller takes as
      command and data bytes. */
  function OddBytes(f: seq<bv8>): (r: seq<bv8>)
    ensures |r| == |f| / 2
  {
    if |f| < 2 then [] else [f[1]] + OddBytes(f[2..])
  }

  /** Byte `2k` of an interleaved command is the control byte, byte `2k+1`
      the `k`th command byte. */
  lemma {:induction false} InterleaveAt(c: seq<bv8>, k: nat)
    requires k < |c|
    ensures Interleave(c)[2 * k] == 0x80 && Interleave(c)[2 * k + 1] == c[k]
  {
    if k > 0 {
      InterleaveAt(c[1..], k - 1);
    }
  }

  /** The controller reads back exactly the command bytes. */
  lemma {:induction false} InterleaveDecodes(c: seq<bv8>)
    ensures OddBytes(Interleave(c)) == c
  {
    if c != [] {
      var f := Interleave(c);
      assert f[2..] == Interleave(c[1..]);
      InterleaveDecodes(c[1..]);
      assert [c[0]] + c[1..] == c;
    }
  }

  /** A buffer with 0x80 at every even byte and `c` at the odd bytes is the
      interleaved `c`. */
  lemma InterleaveOf(b: seq<bv8>, c: seq<bv8>)
    requires |b| == 2 * |c|
    requires forall k :: 0 <= k < |c| ==> b[2 * k] == 0x80 && b[2 * k + 1] == c[k]
    ensures b == Interleave(c)
  {
    forall i | 0 <= i < |b|
      ensures b[i] == Interleave(c)[i]
    {
      var k := i / 2;
      InterleaveAt(c, k);
      assert i == 2 * k || i == 2 * k + 1;
    }
  }

  /** The bytes of a command with up to two data bytes. */
  function CommandFrame(command: bv8, data: seq<bv8>): (f: seq<bv8>)
    requires |data| <= 2
    ensures |f| == 2 + 2 * |data|
  {
    Interleave([command] + data)
  }

  /** `configureScroll`'s page range: the requested pages `origin` to
      `origin + size` (summed in `int`, without wrap-around), clipped to the
      eight pages of the display. */
  function ScrollPages(origin: bv8, size: bv8): (r: (bv8, bv8))
    ensures r.0 <= r.1 <= 7
    ensures origin as int <= 7 ==> r.0 == origin
    ensures origin as int > 7 ==> r == (7, 7)
    ensures origin as int + size as int <= 7 ==> r.1 as int == origin as int + size as int
    ensures origin as int + size as int > 7 ==> r.1 == 7
  {
    var beginY: bv8 := if origin as int > 7 then 7 else origin;
    var endY: bv8 := if origin as int + size as int > 7 then 7 else (origin as int + size as int) as bv8;
    (beginY, if endY < beginY then beginY else endY)
  }

  /** The scroll setup: command, a dummy byte, start page, step, end page and
      two more fixed bytes. */
  function ScrollCommand(origin: bv8, size: bv8, direction: ScrollDirection, steps: ScrollStep): (c: seq<bv8>)
    ensures |c| == 7
  {
    var pages := ScrollPages(origin, size);
    [if direction == Left then SetHorizontalScrollLeft else SetHorizontalScrollRight,
     0x00, pages.0, ScrollStepValue(steps), pages.1, 0x00, 0xFF]
  }

  /** The commands of `initialize`, in order. */
  function InitCommands(): (r: seq<(bv8, seq<bv8>)>)
    ensures |r| == 16
    ensures forall k :: 0 <= k < 16 ==> |r[k].1| <= 2
  {
    [(SetDisplayOff, []),
     (SetDisplayClockDivideRatio, [0xF0]),
     (SetMultiplexRatio, [0x3F]),
     (SetDisplayOffset, [0x00]),
     (SetDisplayStartLine | 0x00, []),
     (SetChargePump, [0x14]),
     (SetMemoryMode, [0x01]),
     (SetSegmentRemap127, []),
     (SetComOutputScanDirectionDecrement, []),
     (SetComPins, [0x12]),
     (SetContrastControl, [0xCE]),
     (SetPreChargePeriod, [0xF1]),
     (SetV_DeselectLevel, [0x40]),
     (SetEntireDisplayResumeToRam, []),
     (SetNormalDisplay, []),
     (SetDisplayOn, [])]
  }

  /** The frames of the first `n` commands of `initialize`, in order. */
  function InitFrames(n: nat): (r: seq<seq<bv8>>)
    requires n <= 16
    ensures |r| == n
  {
    if n == 0 then [] else InitFrames(n - 1) + [CommandFrame(InitCommands()[n - 1].0, InitCommands()[n - 1].1)]
  }

  /** Whether the first `n` commands of `initialize` reported success. */
  predicate InitSucceeded(reported: seq<bv8>, n: nat)
    requires n <= 16 && |reported| == 16
  {
    n == 0 || (InitSucceeded(reported, n - 1) && reported[n - 1] == InitCommands()[n - 1].0)
  }

  /** `initialize` succeeds iff every command reported its own code. */
  lemma {:induction false} InitSucceededAll(reported: seq<bv8>, n: nat)
    requires n <= 16 && |reported| == 16
    ensures InitSucceeded(reported, n) <==> forall k :: 0 <= k < n ==> reported[k] == InitCommands()[k].0
  {
    if n > 0 {
      InitSucceededAll(reported, n - 1);
    }
  }

  /** Frame `k` is the `k`th command of the table with its data. */
  lemma {:induction false} InitFramesAt(n: nat, k: nat)
    requires k < n <= 16
    ensures InitFrames(n)[k] == CommandFrame(InitCommands()[k].0, InitCommands()[k].1)
  {
    if k < n - 1 {
      InitFramesAt(n - 1, k);
    }
  }

  /** No command code is one of the task codes: while a command runs the
      frame buffer is writable, and its completion is told apart from a ping
      and a display write. */
  lemma CommandsAreNotTasks(k: nat)
    requires k < 16
    ensures InitCommands()[k].0 != WriteDisplay && InitCommands()[k].0 != Ping && InitCommands()[k].0 != Idle
  {
  }

  /** What the frame adapter sends after a write. */
  datatype AfterWrite = Restart | Write | Stop

  /** One segment the frame adapter hands to the I2C master. */
  datatype Segment = Segment(bytes: seq<bv8>, after: AfterWrite)

  /** `writing()` as a function of the adapter's `control` state and the frame
      configured: the next segment and the next state. */
  function NextSegment(control: bv8, frame: seq<bv8>): (bv8, Segment)
  {
    if control == 0xff then (0xfe, Segment([0x80, SetColumnAddress, 0x80, 0, 0x80, 127], Restart))
    else if control == 0xfe then (0xfd, Segment([0x80, SetPageAddress, 0x80, 0, 0x80, 7], Restart))
    else if control == 0xfd then (0x40, Segment([0x40], Write))
    else (control, Segment(frame, Stop))
  }

  /** A configured transfer sends four segments, in order: the column window
      0..127, the page window 0..7 (each as the bytes of the matching
      command), the data marker 0x40, and the frame with a stop; after that
      the adapter keeps sending the frame. */
  lemma {:induction false} FrameTransfer(frame: seq<bv8>)
    ensures var (c1, s1) := NextSegment(0xff, frame);
            var (c2, s2) := NextSegment(c1, frame);
            var (c3, s3) := NextSegment(c2, frame);
            var (c4, s4) := NextSegment(c3, frame);
            s1 == Segment(CommandFrame(SetColumnAddress, [0, 127]), Restart)
            && s2 == Segment(CommandFrame(SetPageAddress, [0, 7]), Restart)
            && s3 == Segment([0x40], Write)
            && s4 == Segment(frame, Stop)
            && NextSegment(c4, frame) == (c4, s4)
  {
    CommandBufferIs([0x80, SetColumnAddress, 0x80, 0, 0x80, 127], SetColumnAddress, [0, 127]);
    CommandBufferIs([0x80, SetPageAddress, 0x80, 0, 0x80, 7], SetPageAddress, [0, 7]);
  }

  /** The frame adapter (`DataTransmissionAdapter`): its state byte and its
      six-byte command buffer. */
  class DataAdapter {
    var control: bv8
    const buffer: array<bv8>
    /** The frame passed to the last accepted `configureWrite`. */
    var frame: seq<bv8>

    /** The control bytes and the middle data byte of `buffer` never change. */
    ghost predicate Valid()
      reads this, buffer
    {
      buffer.Length == 6 && buffer[0] == 0x80 && buffer[2] == 0x80 && buffer[3] == 0 && buffer[4] == 0x80
    }

    constructor ()
      ensures Valid() && fresh(buffer)
      ensures control == 0x40 && buffer[..] == [0x80, 0, 0x80, 0, 0x80, 0] && frame == []
    {
      control := 0x40;
      frame := [];
      var b := new bv8[6];
      b[0], b[1], b[2], b[3], b[4], b[5] := 0x80, 0, 0x80, 0, 0x80, 0;
      buffer := b;
    }

    /** `configureWrite`: when the base adapter accepts the frame, the
        transfer starts over at the column command. */
    method ConfigureWrite(frame: seq<bv8>, accepted: bool) returns (ok: bool)
      modifies this
      ensures ok == accepted
      ensures accepted ==> control == 0xff && this.frame == frame
      ensures !accepted ==> control == old(control) && this.frame == old(this.frame)
    {
      if accepted {
        this.frame := frame;
        control := 0xff;
        ok := true;
      } else {
        ok := false;
      }
    }

    /** `writing()`: only `buffer[1]` and `buffer[5]` are ever written. */
    method Writing() returns (s: Segment)
      requires Valid()
      modifies this, buffer
      ensures Valid() && frame == old(frame)
      ensures (control, s) == NextSegment(old(control), frame)
    {
      if control == 0xff {
        buffer[1] := SetColumnAddress;
        buffer[5] := 127;
        control := 0xfe;
        assert buffer[..] == [0x80, SetColumnAddress, 0x80, 0, 0x80, 127];
        s := Segment(buffer[..], Restart);
        return;
      }
      if control == 0xfe {
        buffer[1] := SetPageAddress;
        buffer[5] := 7;
        control := 0xfd;
        assert buffer[..] == [0x80, SetPageAddress, 0x80, 0, 0x80, 7];
        s := Segment(buffer[..], Restart);
        return;
      }
      if control == 0xfd {
        control := 0x40;
        s := Segment([control], Write);
        return;
      }
      s := Segment(frame, Stop);
    }
  }

  class Display {
    var i2cTask: bv8
    var i2cSuccess: bv8
    const commandBuffer: array<bv8>
    var initSuccessful: bool
    const adapterData: DataAdapter
    /** The byte strings of the command transactions started, in order. */
    var sent: seq<seq<bv8>>

    /** The even bytes of the command buffer stay the control byte 0x80. */
    ghost predicate Valid()
      reads this, commandBuffer, adapterData, adapterData.buffer
    {
      commandBuffer.Length == 14 && commandBuffer != adapterData.buffer && adapterData.Valid()
      && commandBuffer[0] == 0x80 && commandBuffer[2] == 0x80 && commandBuffer[4] == 0x80
      && commandBuffer[6] == 0x80 && commandBuffer[8] == 0x80 && commandBuffer[10] == 0x80
      && commandBuffer[12] == 0x80
    }

    constructor ()
      ensures Valid() && fresh(commandBuffer) && fresh(adapterData) && fresh(adapterData.buffer)
      ensures i2cTask == Idle && i2cSuccess == 0 && sent == []
      ensures commandBuffer[..] == [0x80, 0, 0x80, 0, 0x80, 0, 0x80, 0, 0x80, 0, 0x80, 0, 0x80, 0]
      ensures adapterData.control == 0x40
    {
      i2cTask := Idle;
      i2cSuccess := 0;
      sent := [];
      commandBuffer := new bv8[14](k => if k % 2 == 0 then 0x80 else 0);
      adapterData := new DataAdapter();
    }

    /** `isWritable()`: the frame buffer is not being copied to the display. */
    function IsWritable(): bool
      reads this
    {
      i2cTask != WriteDisplay
    }

    /** `startTransactionWithLength(length)`: on a started transaction the
        first `length` bytes of the command buffer go out and `i2cTask`
        becomes the command byte; otherwise nothing changes. */
    method StartTransactionWithLength(length: nat, started: bool) returns (ok: bool)
      requires length <= 14 && commandBuffer.Length == 14
      modifies this
      ensures ok == started
      ensures started ==> i2cTask == commandBuffer[1] && sent == old(sent) + [commandBuffer[..length]]
      ensures !started ==> i2cTask == old(i2cTask) && sent == old(sent)
      ensures i2cSuccess == old(i2cSuccess) && initSuccessful == old(initSuccessful)
    {
      if started {
        i2cTask := commandBuffer[1];
        sent := sent + [commandBuffer[..length]];
        ok := true;
      } else {
        ok := false;
      }
    }

    /** `writeCommand(command[, data1[, data2]])`: the command and its data go
        to the odd bytes 1, 3, 5 of the buffer and 2, 4 or 6 bytes are sent;
        the command succeeded iff the reported outcome is the command byte. */
    method WriteCommand(command: bv8, data: seq<bv8>, reported: bv8) returns (ok: bool)
      requires Valid() && |data| <= 2
      modifies this, commandBuffer
      ensures Valid()
      ensures sent == old(sent) + [CommandFrame(command, data)]
      ensures ok == (reported == command)
      ensures i2cTask == Idle && i2cSuccess == reported && initSuccessful == old(initSuccessful)
      ensures commandBuffer[1] == command
    {
      commandBuffer[1] := command;
      if |data| >= 1 {
        commandBuffer[3] := data[0];
      }
      if |data| == 2 {
        commandBuffer[5] := data[1];
      }
      CommandBufferIs(commandBuffer[..], command, data);
      assert commandBuffer[..][..2 + 2 * |data|] == commandBuffer[..2 + 2 * |data|];
      var started := StartTransactionWithLength(2 + 2 * |data|, true);
      i2cTask, i2cSuccess := Idle, reported;
      ok := i2cSuccess == command;
    }

    /** `initialize()`: all sixteen commands are sent whatever their
        outcomes, and the result is whether every one succeeded. */
    method Initialize(reported: seq<bv8>) returns (ok: bool)
      requires Valid() && |reported| == 16
      modifies this, commandBuffer
      ensures Valid()
      ensures sent == old(sent) + InitFrames(16)
      ensures ok == initSuccessful
      ensures ok <==> forall k :: 0 <= k < 16 ==> reported[k] == InitCommands()[k].0
      ensures i2cTask == Idle && i2cSuccess == reported[15]
    {
      initSuccessful := true;
      var k := 0;
      while k < 16
        invariant 0 <= k <= 16 && Valid()
        invariant sent == old(sent) + InitFrames(k)
        invariant initSuccessful == InitSucceeded(reported, k)
        invariant k > 0 ==> i2cTask == Idle && i2cSuccess == reported[k - 1]
      {
        // `&=` evaluates every command, whatever the earlier outcomes.
        var r := WriteCommand(InitCommands()[k].0, InitCommands()[k].1, reported[k]);
        initSuccessful := initSuccessful && r;
        k := k + 1;
      }
      ok := initSuccessful;
      InitSucceededAll(reported, 16);
    }

    /** `invertDisplay(invert)`. */
    method InvertDisplay(invert: bool, reported: bv8) returns (ok: bool)
      requires Valid()
      modifies this, commandBuffer
      ensures Valid()
      ensures sent == old(sent) + [CommandFrame(if invert then SetInvertedDisplay else SetNormalDisplay, [])]
      ensures ok == (reported == if invert then SetInvertedDisplay else SetNormalDisplay)
      ensures i2cTask == Idle && i2cSuccess == reported && initSuccessful == old(initSuccessful)
    {
      ok := WriteCommand(if invert then SetInvertedDisplay else SetNormalDisplay, [], reported);
    }

    /** `setContrast(contrast)`. */
    method SetContrast(contrast: bv8, reported: bv8) returns (ok: bool)
      requires Valid()
      modifies this, commandBuffer
      ensures Valid()
      ensures sent == old(sent) + [CommandFrame(SetContrastControl, [contrast])]
      ensures ok == (reported == SetContrastControl)
      ensures i2cTask == Idle && i2cSuccess == reported && initSuccessful == old(initSuccessful)
    {
      ok := WriteCommand(SetContrastControl, [contrast], reported);
    }

    /** `setRotation(rotation)`: the segment remap, then, only if that
        succeeded, the scan direction. */
    method SetRotation(rotation: Rotation, reported1: bv8, reported2: bv8) returns (ok: bool)
      requires Valid()
      modifies this, commandBuffer
      ensures Valid()
      ensures var (first, second) := RotationCommands(rotation);
              sent == old(sent) + [CommandFrame(first, [])] + (if reported1 == first then [CommandFrame(second, [])] else [])
              && ok == (reported1 == first && reported2 == second)
              && i2cSuccess == (if reported1 == first then reported2 else reported1)
      ensures i2cTask == Idle && initSuccessful == old(initSuccessful)
    {
      var first := if rotation == Normal then SetSegmentRemap127 else SetSegmentRemap0;
      var r := WriteCommand(first, [], reported1);
      ok := false;
      if r {
        var second := if rotation == Normal then SetComOutputScanDirectionDecrement else SetComOutputScanDirectionIncrement;
        ok := WriteCommand(second, [], reported2);
      }
    }

    /** `configureScroll(origin, size, direction, steps)`: scrolling is
        disabled first, and on failure nothing more happens; then the seven
        scroll bytes go to the odd bytes of the buffer and all 14 are sent. */
    method ConfigureScroll(origin: bv8, size: bv8, direction: ScrollDirection, steps: ScrollStep,
                           disableReported: bv8, reported: bv8) returns (ok: bool)
      requires Valid()
      modifies this, commandBuffer
      ensures Valid()
      ensures disableReported != SetDisableScroll ==>
                !ok && sent == old(sent) + [CommandFrame(SetDisableScroll, [])]
      ensures disableReported == SetDisableScroll ==>
                sent == old(sent) + [CommandFrame(SetDisableScroll, []), Interleave(ScrollCommand(origin, size, direction, steps))]
                && ok == (reported == ScrollCommand(origin, size, direction, steps)[0])
      ensures i2cSuccess == (if disableReported == SetDisableScroll then reported else disableReported)
      ensures i2cTask == Idle && initSuccessful == old(initSuccessful)
    {
      var disabled := WriteCommand(SetDisableScroll, [], disableReported);
      if !disabled {
        return false;
      }
      FillCommand(ScrollCommand(origin, size, direction, steps));
      assert commandBuffer[..14] == commandBuffer[..];
      var started := StartTransactionWithLength(14, true);
      i2cTask, i2cSuccess := Idle, reported;
      ok := i2cSuccess == commandBuffer[1];
    }

    /** The seven stores of `configureScroll` into the odd bytes of the
        command buffer. */
    method FillCommand(c: seq<bv8>)
      requires Valid() && |c| == 7
      modifies commandBuffer
      ensures Valid() && commandBuffer[..] == Interleave(c)
    {
      commandBuffer[1] := c[0];
      commandBuffer[3] := c[1];
      commandBuffer[5] := c[2];
      commandBuffer[7] := c[3];
      commandBuffer[9] := c[4];
      commandBuffer[11] := c[5];
      commandBuffer[13] := c[6];
      ScrollBufferIs(commandBuffer[..], c);
    }

    /** `ping()`: the ping transaction; success iff the ping is reported. */
    method DoPing(reported: bv8) returns (ok: bool)
      modifies this
      ensures ok == (reported == Ping)
      ensures sent == old(sent) && i2cTask == Idle && i2cSuccess == reported
      ensures initSuccessful == old(initSuccessful)
    {
      i2cTask := Ping;
      i2cTask, i2cSuccess := Idle, reported;
      ok := i2cSuccess == Ping;
    }

    /** `startWriteDisplay()`: the frame adapter is configured with the
        1024-byte frame and the display is not writable until it finishes. */
    method StartWriteDisplay(frame: seq<bv8>)
      requires Valid() && |frame| == 1024
      modifies this, adapterData
      ensures Valid()
      ensures adapterData.control == 0xff && adapterData.frame == frame
      ensures i2cTask == WriteDisplay && !IsWritable() && sent == old(sent)
      ensures i2cSuccess == old(i2cSuccess) && initSuccessful == old(initSuccessful)
    {
      var configured := adapterData.ConfigureWrite(frame, true);
      i2cTask := WriteDisplay;
    }

    /** `writeDisplay()`: start the frame transfer and report whether it
        succeeded. */
    method DoWriteDisplay(frame: seq<bv8>, reported: bv8) returns (ok: bool)
      requires Valid() && |frame| == 1024
      modifies this, adapterData
      ensures Valid()
      ensures adapterData.frame == frame && sent == old(sent)
      ensures ok == (reported == WriteDisplay)
      ensures IsWritable() && i2cTask == Idle && i2cSuccess == reported
      ensures initSuccessful == old(initSuccessful)
    {
      StartWriteDisplay(frame);
      i2cTask, i2cSuccess := Idle, reported;
      ok := i2cSuccess == WriteDisplay;
    }
  }

  /** The two commands of `setRotation`. */
  function RotationCommands(rotation: Rotation): (r: (bv8, bv8))
    ensures rotation == Normal ==> r == (SetSegmentRemap127, SetComOutputScanDirectionDecrement)
    ensures rotation == UpsideDown ==> r == (SetSegmentRemap0, SetComOutputScanDirectionIncrement)
  {
    if rotation == Normal then (SetSegmentRemap127, SetComOutputScanDirectionDecrement)
    else (SetSegmentRemap0, SetComOutputScanDirectionIncrement)
  }

  /** The command buffer after `configureScroll` filled its odd bytes. */
  lemma ScrollBufferIs(b: seq<bv8>, c: seq<bv8>)
    requires |b| == 14 && |c| == 7
    requires b[0] == 0x80 && b[2] == 0x80 && b[4] == 0x80 && b[6] == 0x80 && b[8] == 0x80 && b[10] == 0x80 && b[12] == 0x80
    requires b[1] == c[0] && b[3] == c[1] && b[5] == c[2] && b[7] == c[3] && b[9] == c[4] && b[11] == c[5] && b[13] == c[6]
    ensures b == Interleave(c)
  {
    forall k | 0 <= k < 7
      ensures b[2 * k] == 0x80 && b[2 * k + 1] == c[k]
    {
      assert k == 0 || k == 1 || k == 2 || k == 3 || k == 4 || k == 5 || k == 6;
    }
    InterleaveOf(b, c);
  }

  /** The command buffer after `writeCommand` filled bytes 1, 3 and 5. */
  lemma CommandBufferIs(b: seq<bv8>, command: bv8, data: seq<bv8>)
    requires |data| <= 2 && |b| >= 2 + 2 * |data|
    requires b[0] == 0x80 && b[1] == command
    requires |data| >= 1 ==> b[2] == 0x80 && b[3] == data[0]
    requires |data| == 2 ==> b[4] == 0x80 && b[5] == data[1]
    ensures b[..2 + 2 * |data|] == CommandFrame(command, data)
  {
    var c := [command] + data;
    forall k | 0 <= k < |c|
      ensures b[..2 + 2 * |data|][2 * k] == 0x80 && b[..2 + 2 * |data|][2 * k + 1] == c[k]
    {
      assert k == 0 || k == 1 || k == 2;
    }
    InterleaveOf(b[..2 + 2 * |data|], c);
  }
}
