/** What the two SDMMC card drivers share: the card commands, the way a
    command's outcome is read from the status flags, the card-identification
    sequence with its voltage poll, and the decoding of the card capacity from
    a version 2.0 CSD register (section 5.3.3 of the SD Physical Layer
    Simplified Specification).

    The card and the SDMMC peripheral are an environment: the `k`th command
    the host issues gets `answers(k)`, the status flags and the four response
    registers the peripheral shows when its wait for the command ends. */
module SdCard {

  import opened Ints

  datatype Command = GoIdleState | GetCid | SendRelAdd | SelectCard | HsSendExtCsd | SendCsd
                   | StopTransmission | SetBlockSize | ReadSingleBlock | ReadMultiBlock
                   | WriteSingleBlock | WriteMultiBlock | AppCmd | ReadOcr | SdAppOpCond
                   | SendStatus | SetBusWidth

  /** The command index sent to the card. */
  function Index(c: Command): nat
  {
    match c
    case GoIdleState => 0
    case GetCid => 2
    case SendRelAdd => 3
    case SelectCard => 7
    case HsSendExtCsd => 8
    case SendCsd => 9
    case StopTransmission => 12
    case SetBlockSize => 16
    case ReadSingleBlock => 17
    case ReadMultiBlock => 18
    case WriteSingleBlock => 24
    case WriteMultiBlock => 25
    case AppCmd => 55
    case ReadOcr => 58
    case SdAppOpCond => 41
    case SendStatus => 13
    case SetBusWidth => 6
  }

  /** Different commands have different indices. */
  lemma IndexInjective(c: Command, d: Command)
    requires c != d
    ensures Index(c) != Index(d)
  {
  }

  datatype Response = NoResponse | Short | Long

  datatype CommandError = Success | Timeout | CrcFail

  function ErrorCode(e: CommandError): uint8
  {
    match e
    case Success => 0
    case Timeout => 1
    case CrcFail => 2
  }

  datatype CardType = StdCapacityV1 | HighCapacity | MMC

  const SdCheckVoltage: bv32 := 0x1AA
  const SdMaxTrial: nat := 0xFFFF
  const SdResp1NoError: bv32 := 0xFDFFE008
  const SdVoltageWindow: bv32 := 0x80100000
  const SdHighCapacity: bv32 := 0x40000000

  /** The status flags and response registers after a command. */
  datatype Reply = Reply(timeout: bool, crcFail: bool, resp1: bv32, resp2: bv32, resp3: bv32, resp4: bv32)

  /** One command the host issued: command, expected response and argument. */
  datatype Issued = Issued(cmd: Command, resp: Response, arg: bv32)

  /** `sendCommand`'s verdict: a timeout wins over a CRC failure, and only a
      reply with neither flag is a success. */
  function ErrorOf(r: Reply): (e: CommandError)
    ensures e == Timeout <==> r.timeout
    ensures e == CrcFail <==> !r.timeout && r.crcFail
    ensures e == Success <==> !r.timeout && !r.crcFail
  {
    if r.timeout then Timeout else if r.crcFail then CrcFail else Success
  }

  /** `getCommandResp1()`: the R1 response with its error bits masked. */
  function Resp1(r: Reply): bv32
  {
    r.resp1 & SdResp1NoError
  }

  /** The busy bit (bit 31) of the OCR in an `SD_APP_OP_COND` reply survives
      the mask, so the poll sees it. */
  lemma Resp1KeepsBusyBit(r: Reply)
    ensures (Resp1(r) >> 31 == 1) <==> (r.resp1 >> 31 == 1)
  {
  }

  /** One try of the voltage poll: `APP_CMD`, then `SD_APP_OP_COND`, whose R3
      reply carries no CRC, so anything but a CRC failure is an error. */
  datatype TryResult = AppCmdFailed | OpCondFailed | Busy | Ready

  function TryOf(appCmd: Reply, opCond: Reply): TryResult
  {
    if ErrorOf(appCmd) != Success then AppCmdFailed
    else if ErrorOf(opCond) != CrcFail then OpCondFailed
    else if Resp1(opCond) >> 31 == 1 then Ready
    else Busy
  }

  /** The try whose `APP_CMD` is command number `c`. */
  function TryAt(answers: nat -> Reply, c: nat): TryResult
  {
    TryOf(answers(c), answers(c + 1))
  }

  /** How the poll ends: the last try's result (`Busy` when the tries ran
      out) and the value of `tries` then. */
  datatype PollEnd = PollEnd(result: TryResult, tries: nat)

  /** The poll from try number `t` on, that try's `APP_CMD` being command
      number `c`. */
  function PollFrom(answers: nat -> Reply, c: nat, t: nat): (p: PollEnd)
    requires t <= SdMaxTrial
    ensures t <= p.tries <= SdMaxTrial
    ensures p.result != Ready ==> p.tries < SdMaxTrial || p.result == Busy
    decreases SdMaxTrial - t
  {
    if t == SdMaxTrial then PollEnd(Busy, t)
    else match TryAt(answers, c)
      case AppCmdFailed => PollEnd(AppCmdFailed, t)
      case OpCondFailed => PollEnd(OpCondFailed, t)
      case Ready => PollEnd(Ready, t + 1)
      case Busy => PollFrom(answers, c + 2, t + 1)
  }

  /** The poll from try `t` on ends with the card ready. */
  predicate PollReady(answers: nat -> Reply, c: nat, t: nat)
    requires t <= SdMaxTrial
    decreases SdMaxTrial - t
  {
    t < SdMaxTrial
    && (TryAt(answers, c) == Ready || (TryAt(answers, c) == Busy && PollReady(answers, c + 2, t + 1)))
  }

  function AppCmdIssued(): Issued
  {
    Issued(AppCmd, Short, 0)
  }

  function OpCondIssued(): Issued
  {
    Issued(SdAppOpCond, Short, SdVoltageWindow | SdHighCapacity)
  }

  /** The commands of one try: `APP_CMD`, then `SD_APP_OP_COND` unless
      `APP_CMD` failed. */
  function TryIssued(r: TryResult): seq<Issued>
  {
    if r == AppCmdFailed then [AppCmdIssued()] else [AppCmdIssued(), OpCondIssued()]
  }

  /** The commands the poll issues from try `t` on: those of each try,
      until one does not find the card busy or the tries run out. */
  function PollTrace(answers: nat -> Reply, c: nat, t: nat): seq<Issued>
    requires t <= SdMaxTrial
    decreases SdMaxTrial - t
  {
    if t == SdMaxTrial then []
    else if TryAt(answers, c) == Busy then TryIssued(Busy) + PollTrace(answers, c + 2, t + 1)
    else TryIssued(TryAt(answers, c))
  }

  /** The number of commands a poll issues. */
  function PollUsed(p: PollEnd): nat
  {
    match p.result
    case AppCmdFailed => 2 * p.tries + 1
    case OpCondFailed => 2 * p.tries + 2
    case _ => 2 * p.tries
  }

  /** The poll as the source checks it (`tries >= SD_MAX_TRIAL` after the
      loop): accepted iff the last try saw the card ready and the tries did
      not all run out. */
  function PollAcceptedAsWritten(p: PollEnd): bool
  {
    p.result == Ready && p.tries < SdMaxTrial
  }

  /** The poll as evidently intended: accepted iff the card reported ready. */
  function PollAccepted(p: PollEnd): bool
  {
    p.result == Ready
  }

  /** The `n` tries from command number `c` on all find the card busy. */
  predicate BusyFor(answers: nat -> Reply, c: nat, n: nat)
    decreases n
  {
    n == 0 || (TryAt(answers, c) == Busy && BusyFor(answers, c + 2, n - 1))
  }

  /** The poll never takes more than `SD_MAX_TRIAL` tries, and a card that
      stays busy through all of them fails initialisation. */
  lemma {:induction false} PollBounded(answers: nat -> Reply, c: nat, t: nat)
    requires t <= SdMaxTrial && BusyFor(answers, c, SdMaxTrial - t)
    ensures PollFrom(answers, c, t) == PollEnd(Busy, SdMaxTrial)
    ensures !PollAccepted(PollFrom(answers, c, t))
    decreases SdMaxTrial - t
  {
    if t < SdMaxTrial {
      PollBounded(answers, c + 2, t + 1);
    }
  }

  /** The try `n` tries after command number `c` finds the card ready and
      the ones before it find it busy. */
  predicate ReadyAfter(answers: nat -> Reply, c: nat, n: nat)
    decreases n
  {
    if n == 0 then TryAt(answers, c) == Ready
    else TryAt(answers, c) == Busy && ReadyAfter(answers, c + 2, n - 1)
  }

  /** A card that becomes ready on the very last try. */
  lemma {:induction false} ReadyOnLastTry(answers: nat -> Reply, c: nat, t: nat)
    requires t < SdMaxTrial && ReadyAfter(answers, c, SdMaxTrial - 1 - t)
    ensures PollFrom(answers, c, t) == PollEnd(Ready, SdMaxTrial)
    decreases SdMaxTrial - t
  {
    if t < SdMaxTrial - 1 {
      ReadyOnLastTry(answers, c + 2, t + 1);
    }
  }

  /** Answers in which every try succeeds and the card reports ready only on
      try number `SD_MAX_TRIAL`. */
  function LastTryReadyAnswers(k: nat): Reply
  {
    if k % 2 == 0 then Reply(false, false, 0, 0, 0, 0)
    else Reply(false, true, if k == 2 * SdMaxTrial - 1 then 0x8000_0000 else 0, 0, 0, 0)
  }

  lemma {:induction false} LastTryReadyFrom(u: nat)
    requires u < SdMaxTrial
    ensures ReadyAfter(LastTryReadyAnswers, 2 * u, SdMaxTrial - 1 - u)
    decreases SdMaxTrial - u
  {
    assert (2 * u) % 2 == 0 && (2 * u + 1) % 2 == 1;
    if u < SdMaxTrial - 1 {
      LastTryReadyFrom(u + 1);
    }
  }

  /** The check after the loop rejects a card that became ready on the last
      allowed try, which the corrected check accepts. */
  lemma LastTryRejectedAsWritten()
    ensures PollFrom(LastTryReadyAnswers, 0, 0) == PollEnd(Ready, SdMaxTrial)
    ensures !PollAcceptedAsWritten(PollFrom(LastTryReadyAnswers, 0, 0))
    ensures PollAccepted(PollFrom(LastTryReadyAnswers, 0, 0))
  {
    LastTryReadyFrom(0);
    ReadyOnLastTry(LastTryReadyAnswers, 0, 0);
  }

  /** The two checks agree except on that one case. */
  lemma AcceptanceDiffersOnlyOnLastTry(p: PollEnd)
    requires p.tries <= SdMaxTrial
    ensures PollAcceptedAsWritten(p) != PollAccepted(p) <==> p.result == Ready && p.tries == SdMaxTrial
  {
  }

  /** One try of the poll: its commands, and whether the poll goes on. */
  lemma PollAdvance(answers: nat -> Reply, c: nat, t: nat)
    requires t < SdMaxTrial
    ensures TryAt(answers, c) == Busy ==>
              PollTrace(answers, c, t) == TryIssued(Busy) + PollTrace(answers, c + 2, t + 1)
              && PollReady(answers, c, t) == PollReady(answers, c + 2, t + 1)
    ensures TryAt(answers, c) != Busy ==>
              PollTrace(answers, c, t) == TryIssued(TryAt(answers, c))
              && PollReady(answers, c, t) == (TryAt(answers, c) == Ready)
  {
  }

  /** The state of the poll loop after `tries` tries, `done` being the
      commands issued so far and `before` those issued before the poll: the
      card was found ready (`voltage`) and the poll is over, or what is left
      of it is the poll from try `tries`. */
  predicate Polling(answers: nat -> Reply, before: seq<Issued>, done: seq<Issued>, tries: nat, voltage: bool)
  {
    tries <= SdMaxTrial
    && if voltage then done == before + PollTrace(answers, |before|, 0) && PollReady(answers, |before|, 0)
       else done + PollTrace(answers, |done|, tries) == before + PollTrace(answers, |before|, 0)
            && PollReady(answers, |before|, 0) == PollReady(answers, |done|, tries)
  }

  lemma PollingStarts(answers: nat -> Reply, before: seq<Issued>)
    ensures Polling(answers, before, before, 0, false)
  {
  }

  /** A try that finds the card busy or ready moves the loop on. */
  lemma PollingStep(answers: nat -> Reply, before: seq<Issued>, done: seq<Issued>, tries: nat, r: TryResult, next: seq<Issued>)
    requires Polling(answers, before, done, tries, false) && tries < SdMaxTrial
    requires r == TryAt(answers, |done|) && (r == Busy || r == Ready) && next == done + TryIssued(r)
    ensures Polling(answers, before, next, tries + 1, r == Ready)
  {
    PollAdvance(answers, |done|, tries);
    AppendAssociates(done, TryIssued(r), PollTrace(answers, |done| + 2, tries + 1));
  }

  /** A failed try ends the poll, which is then not accepted. */
  lemma PollingFails(answers: nat -> Reply, before: seq<Issued>, done: seq<Issued>, tries: nat)
    requires Polling(answers, before, done, tries, false) && tries < SdMaxTrial
    requires TryAt(answers, |done|) == AppCmdFailed || TryAt(answers, |done|) == OpCondFailed
    ensures done + TryIssued(TryAt(answers, |done|)) == before + PollTrace(answers, |before|, 0)
    ensures !PollReady(answers, |before|, 0)
  {
    PollAdvance(answers, |done|, tries);
  }

  /** When the loop stops, the poll is over. */
  lemma PollingEnds(answers: nat -> Reply, before: seq<Issued>, done: seq<Issued>, tries: nat, voltage: bool)
    requires Polling(answers, before, done, tries, voltage) && (voltage || tries == SdMaxTrial)
    ensures done == before + PollTrace(answers, |before|, 0)
    ensures voltage == PollReady(answers, |before|, 0)
  {
    if !voltage {
      assert PollTrace(answers, |done|, tries) == [];
    }
  }

  /** A poll from try `t` issues at most two commands per remaining try. */
  lemma {:induction false} PollTraceBound(answers: nat -> Reply, c: nat, t: nat)
    requires t <= SdMaxTrial
    ensures |PollTrace(answers, c, t)| <= 2 * (SdMaxTrial - t)
    decreases SdMaxTrial - t
  {
    if t < SdMaxTrial && TryAt(answers, c) == Busy {
      PollTraceBound(answers, c + 2, t + 1);
    }
  }

  /** `PollReady` and `PollTrace` agree with `PollFrom`: the poll is accepted
      iff the card reported ready, and it issues `PollUsed` commands. */
  lemma {:induction false} PollSummary(answers: nat -> Reply, c: nat, t: nat)
    requires t <= SdMaxTrial
    ensures PollReady(answers, c, t) == PollAccepted(PollFrom(answers, c, t))
    ensures 2 * t + |PollTrace(answers, c, t)| == PollUsed(PollFrom(answers, c, t))
    decreases SdMaxTrial - t
  {
    if t < SdMaxTrial {
      PollStep(answers, c, t);
      if TryAt(answers, c) == Busy {
        PollSummary(answers, c + 2, t + 1);
      }
    }
  }

  /** One step of the poll's recursion. */
  lemma PollStep(answers: nat -> Reply, c: nat, t: nat)
    requires t < SdMaxTrial
    ensures TryAt(answers, c) == AppCmdFailed ==> PollFrom(answers, c, t) == PollEnd(AppCmdFailed, t)
    ensures TryAt(answers, c) == OpCondFailed ==> PollFrom(answers, c, t) == PollEnd(OpCondFailed, t)
    ensures TryAt(answers, c) == Ready ==> PollFrom(answers, c, t) == PollEnd(Ready, t + 1)
    ensures TryAt(answers, c) == Busy ==> PollFrom(answers, c, t) == PollFrom(answers, c + 2, t + 1)
  {
  }

  /** C_SIZE of a version 2.0 CSD, as `getCardInfo` assembles it: bits 5..0
      of RESP2 above bits 31..16 of RESP3. */
  function CSize(resp2: uint32, resp3: uint32): (c: int)
    ensures 0 <= c < 0x40_0000
  {
    (resp2 % 0x40) * 0x1_0000 + resp3 / 0x1_0000
  }

  /** The first three commands of the identification: reset, the version
      2.0 probe with the check pattern, and `APP_CMD`. */
  function IdentifyProbe(): seq<Issued>
  {
    [Issued(GoIdleState, NoResponse, 0), Issued(HsSendExtCsd, Short, SdCheckVoltage), AppCmdIssued()]
  }

  /** The commands the first part of `initializeCard` issues when its first
      command is number `s`: only the reset if that fails, else the probe
      and, unless `APP_CMD` fails, the voltage poll. */
  function ProbeTrace(answers: nat -> Reply, s: nat): seq<Issued>
  {
    if ErrorOf(answers(s)) != Success then [Issued(GoIdleState, NoResponse, 0)]
    else if ErrorOf(answers(s + 2)) != Success then IdentifyProbe()
    else IdentifyProbe() + PollTrace(answers, s + 3, 0)
  }

  /** The first part succeeds iff the reset succeeds and the card is an MMC
      or the voltage poll finds it ready. */
  predicate ProbeOk(answers: nat -> Reply, s: nat)
  {
    ErrorOf(answers(s)) == Success && (ErrorOf(answers(s + 2)) != Success || PollReady(answers, s + 3, 0))
  }

  /** The card type after the first part, from the type `before` it: an MMC
      when `APP_CMD` fails, high capacity when the version 2.0 probe is
      answered, and otherwise unchanged. */
  function ProbeType(answers: nat -> Reply, s: nat, before: CardType): CardType
  {
    if ErrorOf(answers(s)) != Success then before
    else if ErrorOf(answers(s + 2)) != Success then MMC
    else if ErrorOf(answers(s + 1)) == Success then HighCapacity
    else before
  }

  /** The commands reading the CID and the relative address, from command
      number `n` on. */
  function AddressTrace(answers: nat -> Reply, n: nat): seq<Issued>
  {
    if ErrorOf(answers(n)) != Success then [Issued(GetCid, Long, 0)]
    else [Issued(GetCid, Long, 0), Issued(SendRelAdd, Short, 0)]
  }

  predicate AddressOk(answers: nat -> Reply, n: nat)
  {
    ErrorOf(answers(n)) == Success && ErrorOf(answers(n + 1)) == Success
  }

  /** The commands of the whole identification from command number `s`. */
  function IdentifyTrace(answers: nat -> Reply, s: nat): seq<Issued>
  {
    var p := ProbeTrace(answers, s);
    if ProbeOk(answers, s) then p + AddressTrace(answers, s + |p|) else p
  }

  /** The identification succeeds iff the first part does and both the CID
      and the address are read. */
  predicate IdentifyOk(answers: nat -> Reply, s: nat)
  {
    ProbeOk(answers, s) && AddressOk(answers, s + |ProbeTrace(answers, s)|)
  }

  /** Every identification begins with the reset; a failed reset ends it. */
  lemma IdentifyStartsWithReset(answers: nat -> Reply, s: nat)
    ensures |IdentifyTrace(answers, s)| > 0 && IdentifyTrace(answers, s)[0] == Issued(GoIdleState, NoResponse, 0)
    ensures ErrorOf(answers(s)) != Success ==>
              !IdentifyOk(answers, s) && IdentifyTrace(answers, s) == [Issued(GoIdleState, NoResponse, 0)]
  {
  }

  /** Once the first part succeeds, the identification ends with the
      address commands; a successful one reads both. */
  lemma IdentifyEnds(answers: nat -> Reply, s: nat)
    requires IdentifyOk(answers, s)
    ensures IdentifyTrace(answers, s) == ProbeTrace(answers, s) + [Issued(GetCid, Long, 0), Issued(SendRelAdd, Short, 0)]
  {
    var n := s + |ProbeTrace(answers, s)|;
    IdentifySplits(answers, s, n);
    IdentifyOkSplits(answers, s, n);
  }

  /** The number of the `SEND_REL_ADD` command of an identification whose
      first command is number `s`: it follows the probe and `ALL_SEND_CID`. */
  function RelAddIndex(answers: nat -> Reply, s: nat): nat
  {
    s + |ProbeTrace(answers, s)| + 1
  }

  /** A successful identification ends with `SEND_REL_ADD`, so the address
      the host keeps comes from that command's reply. */
  /** The relative address the host keeps after an identification from
      command number `s`: the masked `SEND_REL_ADD` reply when it succeeds,
      `before` otherwise. */
  function AddressAfterIdentify(answers: nat -> Reply, s: nat, before: bv32): bv32
  {
    if IdentifyOk(answers, s) then Resp1(answers(RelAddIndex(answers, s))) else before
  }

  /** `deviceSize` after an `initializeCard` from command number `s`,
      which reads the CSD right after the `SEND_REL_ADD` reply: the
      capacity from that CSD when the identification succeeds, `before`
      otherwise. */
  function SizeAfterInit(answers: nat -> Reply, s: nat, before: uint64): uint64
  {
    if IdentifyOk(answers, s) then SizeAfterCsd(answers(RelAddIndex(answers, s) + 1), before) else before
  }

  /** `sectorCount` after `initializeCard` from command number `s`. */
  function SectorsAfterInit(answers: nat -> Reply, s: nat, before: uint32): uint32
  {
    if IdentifyOk(answers, s) then SectorsAfterCsd(answers(RelAddIndex(answers, s) + 1), before) else before
  }

  lemma IdentifyEndsAtRelAdd(answers: nat -> Reply, s: nat)
    requires IdentifyOk(answers, s)
    ensures s + |IdentifyTrace(answers, s)| == RelAddIndex(answers, s) + 1
    ensures IdentifyTrace(answers, s)[|IdentifyTrace(answers, s)| - 1] == Issued(SendRelAdd, Short, 0)
  {
    IdentifyEnds(answers, s);
  }

  /** A successful identification issued the probe first and the CID and
      address reads last. */
  lemma IdentifySucceeded(answers: nat -> Reply, s: nat)
    requires IdentifyOk(answers, s)
    ensures var trace := IdentifyTrace(answers, s);
            |trace| >= 5 && trace[..3] == IdentifyProbe()
            && trace[|trace| - 2..] == [Issued(GetCid, Long, 0), Issued(SendRelAdd, Short, 0)]
  {
    var p := ProbeTrace(answers, s);
    var tail := [Issued(GetCid, Long, 0), Issued(SendRelAdd, Short, 0)];
    IdentifyEnds(answers, s);
    ProbeCases(answers, s);
    assert p[..3] == IdentifyProbe();
    assert (p + tail)[..3] == p[..3];
  }

  /** An MMC is identified without the voltage poll. */
  lemma IdentifyMmc(answers: nat -> Reply, s: nat)
    requires IdentifyOk(answers, s) && ErrorOf(answers(s + 2)) != Success
    ensures IdentifyTrace(answers, s) == IdentifyProbe() + [Issued(GetCid, Long, 0), Issued(SendRelAdd, Short, 0)]
  {
    IdentifyEnds(answers, s);
    ProbeCases(answers, s);
  }

  /** An SD card is identified only once the poll found it ready, within
      `SD_MAX_TRIAL` tries. */
  lemma IdentifyPolled(answers: nat -> Reply, s: nat)
    requires IdentifyOk(answers, s) && ErrorOf(answers(s + 2)) == Success
    ensures PollReady(answers, s + 3, 0)
    ensures |IdentifyTrace(answers, s)| <= 5 + 2 * SdMaxTrial
  {
    IdentifyEnds(answers, s);
    ProbeCases(answers, s);
    PollTraceBound(answers, s + 3, 0);
  }

  /** The 128-bit CSD register, RESP1 holding its top word. */
  function Csd(resp1: uint32, resp2: uint32, resp3: uint32, resp4: uint32): int
  {
    ((resp1 * 0x1_0000_0000 + resp2) * 0x1_0000_0000 + resp3) * 0x1_0000_0000 + resp4
  }

  lemma DivModField(x: int, q: int, r: int)
    requires 0 <= r < 0x1_0000_0000_0000 && x == q * 0x1_0000_0000_0000 + r
    ensures x / 0x1_0000_0000_0000 == q && x % 0x1_0000_0000_0000 == r
  {
  }

  lemma DivModCSize(x: int, q: int, r: int)
    requires 0 <= r < 0x40_0000 && x == q * 0x40_0000 + r
    ensures x % 0x40_0000 == r
  {
  }

  /** `CSize` is the CSD field C_SIZE, bits 69..48 of the register. */
  lemma {:induction false} CSizeIsCsdField(resp1: uint32, resp2: uint32, resp3: uint32, resp4: uint32)
    ensures CSize(resp2, resp3) == (Csd(resp1, resp2, resp3, resp4) / 0x1_0000_0000_0000) % 0x40_0000
  {
    var c := CSize(resp2, resp3);
    var high := resp1 * 0x400_0000 + resp2 / 0x40;
    var low := (resp3 % 0x1_0000) * 0x1_0000_0000 + resp4;
    assert resp2 == (resp2 / 0x40) * 0x40 + resp2 % 0x40;
    assert resp3 == (resp3 / 0x1_0000) * 0x1_0000 + resp3 % 0x1_0000;
    assert Csd(resp1, resp2, resp3, resp4) == (high * 0x40_0000 + c) * 0x1_0000_0000_0000 + low;
    DivModField(Csd(resp1, resp2, resp3, resp4), high * 0x40_0000 + c, low);
    DivModCSize(high * 0x40_0000 + c, high, c);
  }

  /** The card capacity in bytes, `(C_SIZE + 1) * 512 KiB`, in 64 bits: a
      whole number of 512 KiB units, from 512 KiB up to 2 TiB. */
  function CsdCapacity(resp2: uint32, resp3: uint32): (bytes: uint64)
    ensures bytes % 0x8_0000 == 0 && 0x8_0000 <= bytes <= 0x200_0000_0000
  {
    (CSize(resp2, resp3) + 1) * 512 * 1024
  }

  /** The number of 512-byte sectors, `(C_SIZE + 1) * 1024`, truncated to
      the 32-bit `sectorCount`. */
  function CsdSectorCount(resp2: uint32, resp3: uint32): (n: uint32)
  {
    ToUint32((CSize(resp2, resp3) + 1) * 1024)
  }

  /** `deviceSize` after a `SEND_CSD` with reply `r`: the capacity from the
      CSD when the command succeeds, `before` otherwise. */
  function SizeAfterCsd(r: Reply, before: uint64): uint64
  {
    if ErrorOf(r) == Success then CsdCapacity(r.resp2 as int, r.resp3 as int) else before
  }

  /** `sectorCount` after a `SEND_CSD` with reply `r`. */
  function SectorsAfterCsd(r: Reply, before: uint32): uint32
  {
    if ErrorOf(r) == Success then CsdSectorCount(r.resp2 as int, r.resp3 as int) else before
  }

  /** Sector count and capacity agree for every C_SIZE but the largest, where
      the sector count wraps to 0. */
  lemma SectorsCoverCapacity(resp2: uint32, resp3: uint32)
    ensures CSize(resp2, resp3) < 0x3F_FFFF ==> CsdSectorCount(resp2, resp3) * 512 == CsdCapacity(resp2, resp3)
    ensures CSize(resp2, resp3) == 0x3F_FFFF ==> CsdSectorCount(resp2, resp3) == 0
  {
  }

  /** The polled driver's capacity as written: the second assignment
      replaces the first, so the high six bits of C_SIZE and the `+ 1` are
      lost, and the product is taken in 32 bits. */
  function PolledCapacityAsWritten(resp2: uint32, resp3: uint32): (bytes: uint32)
    ensures bytes == (CSize(resp2, resp3) % 0x1_0000) * 0x8_0000 % 0x1_0000_0000
    ensures bytes < CsdCapacity(resp2, resp3)
  {
    ToUint32((resp3 / 0x1_0000) * 512 * 1024)
  }

  /** A card with C_SIZE 7679 (3.75 GiB) is reported 512 KiB short, and one
      with C_SIZE 0x10000 as empty. */
  lemma PolledCapacityIsWrong()
    ensures PolledCapacityAsWritten(0, 0x1DFF_0000) == 0xEFF8_0000
    ensures CsdCapacity(0, 0x1DFF_0000) == 0xF000_0000
    ensures PolledCapacityAsWritten(1, 0) == 0 && CsdCapacity(1, 0) == 0x8_0008_0000
  {
  }

  /** Once the first part succeeds, the identification goes on with the
      address commands from where it stopped. */
  lemma IdentifySplits(answers: nat -> Reply, s: nat, n: nat)
    requires ProbeOk(answers, s) && n == s + |ProbeTrace(answers, s)|
    ensures IdentifyTrace(answers, s) == ProbeTrace(answers, s) + AddressTrace(answers, n)
  {
  }

  lemma IdentifyOkSplits(answers: nat -> Reply, s: nat, n: nat)
    requires ProbeOk(answers, s) && n == s + |ProbeTrace(answers, s)|
    ensures IdentifyOk(answers, s) == AddressOk(answers, n)
    ensures RelAddIndex(answers, s) == n + 1
  {
  }

  lemma IdentifyStopsAtProbe(answers: nat -> Reply, s: nat)
    requires !ProbeOk(answers, s)
    ensures IdentifyTrace(answers, s) == ProbeTrace(answers, s) && !IdentifyOk(answers, s)
  {
  }

  /** The three ways the first part of `initializeCard` can go. */
  lemma ProbeCases(answers: nat -> Reply, s: nat)
    ensures ErrorOf(answers(s)) != Success ==>
              ProbeTrace(answers, s) == [Issued(GoIdleState, NoResponse, 0)] && !ProbeOk(answers, s)
    ensures ErrorOf(answers(s)) == Success && ErrorOf(answers(s + 2)) != Success ==>
              ProbeTrace(answers, s) == IdentifyProbe() && ProbeOk(answers, s)
    ensures ErrorOf(answers(s)) == Success && ErrorOf(answers(s + 2)) == Success ==>
              ProbeTrace(answers, s) == IdentifyProbe() + PollTrace(answers, s + 3, 0)
              && ProbeOk(answers, s) == PollReady(answers, s + 3, 0)
  {
  }

  lemma AppendAssociates<T>(a: seq<T>, b: seq<T>, c: seq<T>)
    ensures a + b + c == a + (b + c)
  {
  }

  /** The data command `readBlocks` or `writeBlocks` sends for a transfer
      of `count` blocks: the single-block command for exactly one block,
      the multiple-block command otherwise. */
  function TransferCommand(write: bool, count: uint32): Command
  {
    if write then (if count == 1 then WriteSingleBlock else WriteMultiBlock)
    else if count == 1 then ReadSingleBlock else ReadMultiBlock
  }

  predicate SingleBlock(c: Command)
  {
    c == ReadSingleBlock || c == WriteSingleBlock
  }

  predicate WritesData(c: Command)
  {
    c == WriteSingleBlock || c == WriteMultiBlock
  }

  /** The data command is a single-block one iff one block moves, and a
      write iff the transfer is a write. */
  lemma TransferCommandChoice(write: bool, count: uint32)
    ensures SingleBlock(TransferCommand(write, count)) <==> count == 1
    ensures WritesData(TransferCommand(write, count)) <==> write
  {
  }

  /** The host side of the SDMMC peripheral: the commands issued, the
      response registers, and the card type and relative address the
      identification sequence records. */
  class Host {
    const answers: nat -> Reply
    var issued: seq<Issued>
    /** The response registers after the last command. */
    var last: Reply
    var cardType: CardType
    var relativeAddress: bv32

    constructor (answers: nat -> Reply)
      ensures this.answers == answers && issued == [] && cardType == StdCapacityV1 && relativeAddress == 0
      ensures last == Reply(false, false, 0, 0, 0, 0)
    {
      this.answers := answers;
      issued := [];
      last := Reply(false, false, 0, 0, 0, 0);
      cardType := StdCapacityV1;
      relativeAddress := 0;
    }

    /** `sendCommand(cmd, resp, argument)`: the command goes out and its
        outcome is read from the flags the wait ended on. */
    method SendCommand(cmd: Command, resp: Response, arg: bv32) returns (e: CommandError)
      modifies this
      ensures issued == old(issued) + [Issued(cmd, resp, arg)]
      ensures last == answers(|issued| - 1) && e == ErrorOf(last)
      ensures cardType == old(cardType) && relativeAddress == old(relativeAddress)
    {
      last := answers(|issued|);
      issued := issued + [Issued(cmd, resp, arg)];
      if last.timeout {
        return Timeout;
      }
      if last.crcFail {
        return CrcFail;
      }
      return Success;
    }

    /** `getCommandResp1()`. */
    function CommandResp1(): bv32
      reads this
    {
      Resp1(last)
    }

    /** One try of the voltage poll, the body of `initializeCard`'s loop:
        `APP_CMD`, then `SD_APP_OP_COND`, whose reply tells whether the card
        is ready. */
    method PollTry() returns (r: TryResult)
      modifies this
      ensures r == TryAt(answers, |old(issued)|)
      ensures issued == old(issued) + TryIssued(r)
      ensures cardType == old(cardType) && relativeAddress == old(relativeAddress)
    {
      var e := SendCommand(AppCmd, Short, 0);
      if e != Success {
        return AppCmdFailed;
      }
      e := SendCommand(SdAppOpCond, Short, SdVoltageWindow | SdHighCapacity);
      if e != CrcFail {
        return OpCondFailed;
      }
      var resp := CommandResp1();
      r := if resp >> 31 == 1 then Ready else Busy;
    }

    /** `PollTry` as a step of the poll loop: a failed try ends the poll,
        any other moves the loop on. */
    method PollOnce(ghost before: seq<Issued>, ghost tries: nat) returns (r: TryResult)
      requires Polling(answers, before, issued, tries, false) && tries < SdMaxTrial
      modifies this
      ensures r == AppCmdFailed || r == OpCondFailed ==>
                issued == before + PollTrace(answers, |before|, 0) && !PollReady(answers, |before|, 0)
      ensures r == Busy || r == Ready ==> Polling(answers, before, issued, tries + 1, r == Ready)
      ensures cardType == old(cardType) && relativeAddress == old(relativeAddress)
    {
      ghost var prev := issued;
      r := PollTry();
      if r == AppCmdFailed || r == OpCondFailed {
        PollingFails(answers, before, prev, tries);
      } else {
        PollingStep(answers, before, prev, tries, r, issued);
      }
    }

    /** The voltage poll of `initializeCard`: at most `SD_MAX_TRIAL` tries,
        each `APP_CMD` then `SD_APP_OP_COND`, until the card reports ready.
        The result uses the corrected check after the loop. */
    method PollVoltage() returns (ok: bool)
      modifies this
      ensures ok == PollReady(answers, |old(issued)|, 0)
      ensures issued == old(issued) + PollTrace(answers, |old(issued)|, 0)
      ensures cardType == old(cardType) && relativeAddress == old(relativeAddress)
    {
      ghost var before := issued;
      var voltage := false;
      var tries := 0;
      PollingStarts(answers, before);
      while !voltage && tries < SdMaxTrial
        invariant Polling(answers, before, issued, tries, voltage)
        invariant cardType == old(cardType) && relativeAddress == old(relativeAddress)
        decreases SdMaxTrial - tries
      {
        var result := PollOnce(before, tries);
        if result == AppCmdFailed || result == OpCondFailed {
          return false;
        }
        voltage := result == Ready;
        tries := tries + 1;
      }
      PollingEnds(answers, before, issued, tries, voltage);
      ok := voltage;
    }

    /** The first part of `initializeCard`: reset the card, probe for a
        version 2.0 card, and run the voltage poll unless `APP_CMD` fails,
        which marks the card an MMC. */
    method Probe() returns (ok: bool)
      modifies this
      ensures issued == old(issued) + ProbeTrace(answers, |old(issued)|)
      ensures ok == ProbeOk(answers, |old(issued)|)
      ensures cardType == ProbeType(answers, |old(issued)|, old(cardType))
      ensures relativeAddress == old(relativeAddress)
    {
      ghost var s := |issued|;
      ghost var head := old(issued) + IdentifyProbe();
      ProbeCases(answers, s);
      var e := SendCommand(GoIdleState, NoResponse, 0);
      if e != Success {
        return false;
      }
      e := SendCommand(HsSendExtCsd, Short, SdCheckVoltage);
      if e == Success {
        cardType := HighCapacity;
      }
      e := SendCommand(AppCmd, Short, 0);
      assert issued == head;
      if e == Success {
        assert ErrorOf(answers(s + 2)) == Success && |head| == s + 3;
        ok := PollVoltage();
        AppendAssociates(old(issued), IdentifyProbe(), PollTrace(answers, s + 3, 0));
      } else {
        cardType := MMC;
        ok := true;
      }
    }

    /** The identification part of `initializeCard`: `Probe`, then read the
        CID and ask for the relative card address. */
    method Identify() returns (ok: bool)
      modifies this
      ensures issued == old(issued) + IdentifyTrace(answers, |old(issued)|)
      ensures ok == IdentifyOk(answers, |old(issued)|)
      ensures cardType == ProbeType(answers, |old(issued)|, old(cardType))
      ensures relativeAddress == if ok then Resp1(answers(RelAddIndex(answers, |old(issued)|))) else old(relativeAddress)
    {
      ghost var s := |issued|;
      ok := Probe();
      if !ok {
        IdentifyStopsAtProbe(answers, s);
        return;
      }
      ghost var mid := issued;
      IdentifySplits(answers, s, |mid|);
      ok := FinishIdentify(s);
      AppendAssociates(old(issued), ProbeTrace(answers, s), AddressTrace(answers, |mid|));
    }

    /** The identification after a successful first part that began with
        command number `s`. */
    method FinishIdentify(ghost s: nat) returns (ok: bool)
      requires ProbeOk(answers, s) && |issued| == s + |ProbeTrace(answers, s)|
      modifies this
      ensures issued == old(issued) + AddressTrace(answers, |old(issued)|)
      ensures ok == IdentifyOk(answers, s)
      ensures ok ==> relativeAddress == Resp1(answers(RelAddIndex(answers, s)))
      ensures !ok ==> relativeAddress == old(relativeAddress)
      ensures cardType == old(cardType)
    {
      IdentifyOkSplits(answers, s, |issued|);
      ok := RequestAddress();
    }

    /** The end of the identification: read the CID (`ALL_SEND_CID`) and
        ask the card for its relative address (`SEND_REL_ADD`), which is
        kept from the R6 reply. */
    method RequestAddress() returns (ok: bool)
      modifies this
      ensures issued == old(issued) + AddressTrace(answers, |old(issued)|)
      ensures ok == AddressOk(answers, |old(issued)|)
      ensures ok ==> relativeAddress == Resp1(answers(|old(issued)| + 1))
      ensures !ok ==> relativeAddress == old(relativeAddress)
      ensures cardType == old(cardType)
    {
      var e := SendCommand(GetCid, Long, 0);
      if e != Success {
        return false;
      }
      e := SendCommand(SendRelAdd, Short, 0);
      if e != Success {
        return false;
      }
      relativeAddress := CommandResp1();
      ok := true;
    }
  }
}
