/** The SDMMC driver of the second SD card example (`Sdio1`, with its
    methods out of line) and the FatFs disk glue over it: card
    initialisation with the switch to a 4-bit bus, reading the CSD, the
    block transfers with the wait for the card to finish programming, the
    `disk_*` functions and the fixed FAT timestamp. The data words moved
    through the FIFO are not modelled; each method's commands are. */
module SdioDisk {

  import opened Ints
  import opened SdCard

  datatype Option<T> = None | Some(value: T)

  /** The switch to the 4-bit bus after a successful `SELECT_CARD`, from
      command number `m` on: `APP_CMD`, then `SET_BUS_WIDTH` with argument 2
      if `APP_CMD` succeeds. */
  function WideBusTrace(answers: nat -> Reply, m: nat, rca: bv32): seq<Issued>
  {
    [Issued(AppCmd, Short, rca)] + if ErrorOf(answers(m)) != Success then [] else [Issued(SetBusWidth, Short, 2)]
  }

  /** The commands after a successful identification, from command number
      `n` on: `SEND_CSD` (its outcome ignored), `SELECT_CARD`, and the switch
      to the 4-bit bus if `SELECT_CARD` succeeds. */
  function BusSetupTrace(answers: nat -> Reply, n: nat, rca: bv32): seq<Issued>
  {
    [Issued(SendCsd, Long, rca), Issued(SelectCard, Short, rca)]
    + if ErrorOf(answers(n + 1)) != Success then [] else WideBusTrace(answers, n + 2, rca)
  }

  /** The bus setup succeeds iff `SELECT_CARD`, `APP_CMD` and
      `SET_BUS_WIDTH` all do. */
  predicate BusSetupOk(answers: nat -> Reply, n: nat)
  {
    ErrorOf(answers(n + 1)) == Success && ErrorOf(answers(n + 2)) == Success && ErrorOf(answers(n + 3)) == Success
  }

  /** The commands `initializeCard` issues after the identification that
      began with command number `s`. */
  function SetupTrace(answers: nat -> Reply, s: nat): seq<Issued>
  {
    if !IdentifyOk(answers, s) then []
    else BusSetupTrace(answers, RelAddIndex(answers, s) + 1, Resp1(answers(RelAddIndex(answers, s))))
  }

  /** The commands of `initializeCard` from command number `s`. */
  function InitTrace(answers: nat -> Reply, s: nat): seq<Issued>
  {
    IdentifyTrace(answers, s) + SetupTrace(answers, s)
  }

  /** `initializeCard` returns 0 iff the identification and the bus setup
      succeed. */
  predicate InitOk(answers: nat -> Reply, s: nat)
  {
    IdentifyOk(answers, s) && BusSetupOk(answers, RelAddIndex(answers, s) + 1)
  }

  /** A failed identification ends the initialisation, which fails. */
  lemma InitStops(answers: nat -> Reply, s: nat)
    requires !IdentifyOk(answers, s)
    ensures InitTrace(answers, s) == IdentifyTrace(answers, s) && !InitOk(answers, s)
  {
  }

  /** After a successful identification, the outcome of the initialisation
      is that of the bus setup from command number `n`. */
  lemma InitOkAfter(answers: nat -> Reply, s: nat, n: nat)
    requires IdentifyOk(answers, s) && n == RelAddIndex(answers, s) + 1
    ensures InitOk(answers, s) == BusSetupOk(answers, n)
  {
  }

  /** A successful initialisation ends by selecting the card at the address
      from the `SEND_REL_ADD` reply and switching it to the 4-bit bus. */
  lemma InitEndsWithWideBus(answers: nat -> Reply, s: nat)
    requires InitOk(answers, s)
    ensures var t := InitTrace(answers, s);
            var k := RelAddIndex(answers, s) - s;
            var rca := Resp1(answers(s + k));
            |t| == k + 5 && t[k].cmd == SendRelAdd
            && t[k + 1..] == [Issued(SendCsd, Long, rca), Issued(SelectCard, Short, rca),
                              Issued(AppCmd, Short, rca), Issued(SetBusWidth, Short, 2)]
  {
    IdentifyEndsAtRelAdd(answers, s);
  }

  /** A failed bus setup command stops the initialisation, which then
      reports failure. */
  lemma InitStopsAtFailure(answers: nat -> Reply, s: nat)
    requires IdentifyOk(answers, s) && !InitOk(answers, s)
    ensures var t := InitTrace(answers, s);
            |IdentifyTrace(answers, s)| + 2 <= |t| <= |IdentifyTrace(answers, s)| + 4
            && ErrorOf(answers(s + |t| - 1)) != Success
  {
    IdentifyEndsAtRelAdd(answers, s);
  }

  /** The commands `readBlocks`, and `writeBlocks` before its wait, issue
      when command number `n` is the data command: `STOP_TRANSMISSION`
      follows iff the data command succeeds and more than one block moves. */
  function TransferTrace(write: bool, answers: nat -> Reply, n: nat, count: uint32, block: bv32): seq<Issued>
  {
    [Issued(TransferCommand(write, count), Short, block)]
    + if ErrorOf(answers(n)) == Success && count > 1 then [Issued(StopTransmission, Short, 0)] else []
  }

  /** The transfer succeeds iff the data command does and, for more than
      one block, `STOP_TRANSMISSION` does. */
  predicate TransferOk(answers: nat -> Reply, n: nat, count: uint32)
  {
    ErrorOf(answers(n)) == Success && (count > 1 ==> ErrorOf(answers(n + 1)) == Success)
  }

  /** `STOP_TRANSMISSION` is sent iff the data command succeeded and the
      transfer is of more than one block; the data command is the
      single-block one iff exactly one block moves, so a transfer of zero
      blocks uses the multiple-block command and is never stopped. */
  lemma TransferStopsIffMultiple(write: bool, answers: nat -> Reply, n: nat, count: uint32, block: bv32)
    ensures var t := TransferTrace(write, answers, n, count, block);
            (|t| == 2 <==> ErrorOf(answers(n)) == Success && count > 1)
            && (|t| == 2 ==> t[1] == Issued(StopTransmission, Short, 0))
            && (SingleBlock(t[0].cmd) <==> count == 1) && (WritesData(t[0].cmd) <==> write)
            && t[0].arg == block
  {
    TransferCommandChoice(write, count);
  }

  /** A transfer fails iff its last command fails. */
  lemma TransferFailsAtLastCommand(write: bool, answers: nat -> Reply, n: nat, count: uint32, block: bv32)
    ensures TransferOk(answers, n, count)
            <==> ErrorOf(answers(n + |TransferTrace(write, answers, n, count, block)| - 1)) == Success
  {
  }

  /** The card's current state, bits 12..9 of the R1 card status. */
  function CardState(r: Reply): bv32
  {
    (r.resp1 >> 9) & 0xF
  }

  /** The card is still receiving data (state 6) or programming (state 7). */
  predicate CardBusy(r: Reply)
  {
    CardState(r) == 7 || CardState(r) == 6
  }

  /** The first command number from `m` on whose status shows the card no
      longer busy; `end`, a number where it is not busy, bounds the search. */
  function FirstIdle(answers: nat -> Reply, m: nat, end: nat): (k: nat)
    requires m <= end && !CardBusy(answers(end))
    ensures m <= k <= end && !CardBusy(answers(k))
    ensures forall j :: m <= j < k ==> CardBusy(answers(j))
    decreases end - m
  {
    if !CardBusy(answers(m)) then m else FirstIdle(answers, m + 1, end)
  }

  /** The first idle status does not depend on the bound used to find it. */
  lemma FirstIdleIs(answers: nat -> Reply, m: nat, end: nat, k: nat)
    requires m <= end && !CardBusy(answers(end))
    requires m <= k && !CardBusy(answers(k)) && forall j :: m <= j < k ==> CardBusy(answers(j))
    ensures FirstIdle(answers, m, end) == k
  {
    var f := FirstIdle(answers, m, end);
  }

  /** `k` status requests for the card at address `rca`. */
  function StatusPolls(k: nat, rca: bv32): (polls: seq<Issued>)
    ensures |polls| == k
  {
    if k == 0 then [] else StatusPolls(k - 1, rca) + [Issued(SendStatus, Short, rca)]
  }

  /** Every one of them is a `SEND_STATUS` to that address. */
  lemma {:induction false} StatusPollsAreStatus(k: nat, rca: bv32)
    ensures forall i :: 0 <= i < k ==> StatusPolls(k, rca)[i] == Issued(SendStatus, Short, rca)
  {
    if k > 0 {
      StatusPollsAreStatus(k - 1, rca);
    }
  }

  /** The wait at the end of `writeBlocks` from command number `m`: status
      requests until, and including, the first that shows the card idle. */
  function WaitTrace(answers: nat -> Reply, m: nat, end: nat, rca: bv32): seq<Issued>
    requires m <= end && !CardBusy(answers(end))
  {
    StatusPolls(FirstIdle(answers, m, end) - m + 1, rca)
  }

  /** `end` bounds the wait of a `writeBlocks` whose data command is command
      number `n`: when the transfer succeeds, the card is idle at command
      number `end`, after the transfer's commands. A failed transfer waits for
      nothing and asks nothing of `end`. */
  predicate WaitEnds(answers: nat -> Reply, n: nat, count: uint32, end: nat)
  {
    TransferOk(answers, n, count) ==> n + (if count > 1 then 2 else 1) <= end && !CardBusy(answers(end))
  }

  /** The commands of `writeBlocks` when command number `n` is the data
      command: the transfer and, if it succeeds, the wait. */
  function WriteTrace(answers: nat -> Reply, n: nat, count: uint32, block: bv32, rca: bv32, end: nat): seq<Issued>
    requires WaitEnds(answers, n, count, end)
  {
    var head := TransferTrace(true, answers, n, count, block);
    head + if TransferOk(answers, n, count) then WaitTrace(answers, n + |head|, end, rca) else []
  }

  /** After a successful transfer the wait follows it, and `end` bounds the
      wait. */
  lemma WriteTraceOk(before: seq<Issued>, answers: nat -> Reply, count: uint32, block: bv32, rca: bv32, end: nat)
    requires WaitEnds(answers, |before|, count, end) && TransferOk(answers, |before|, count)
    ensures var head := TransferTrace(true, answers, |before|, count, block);
      && |before| + |head| <= end && !CardBusy(answers(end))
      && before + head + WaitTrace(answers, |before| + |head|, end, rca)
         == before + WriteTrace(answers, |before|, count, block, rca, end)
  {
    var head := TransferTrace(true, answers, |before|, count, block);
    assert |head| == if count > 1 then 2 else 1;
    AppendAssociates(before, head, WaitTrace(answers, |before| + |head|, end, rca));
  }

  /** After a failed transfer nothing follows. */
  lemma WriteTraceFails(before: seq<Issued>, answers: nat -> Reply, count: uint32, block: bv32, rca: bv32, end: nat)
    requires WaitEnds(answers, |before|, count, end) && !TransferOk(answers, |before|, count)
    ensures before + TransferTrace(true, answers, |before|, count, block)
            == before + WriteTrace(answers, |before|, count, block, rca, end)
  {
    var head := TransferTrace(true, answers, |before|, count, block);
    assert head + [] == head;
  }

  /** The wait ends on the first status that shows the card idle: every
      status before it showed the card busy. */
  lemma WaitEndsWhenIdle(answers: nat -> Reply, m: nat, end: nat, rca: bv32)
    requires m <= end && !CardBusy(answers(end))
    ensures var w := WaitTrace(answers, m, end, rca);
            |w| >= 1 && !CardBusy(answers(m + |w| - 1))
            && (forall j :: m <= j < m + |w| - 1 ==> CardBusy(answers(j)))
            && forall i :: 0 <= i < |w| ==> w[i] == Issued(SendStatus, Short, rca)
  {
    StatusPollsAreStatus(FirstIdle(answers, m, end) - m + 1, rca);
  }

  /** The FAT timestamp fields: the year from 1980, and seconds stored in
      two-second steps. */
  datatype Timestamp = Timestamp(year: nat, month: nat, day: nat, hour: nat, minute: nat, second: nat)

  predicate ValidTimestamp(t: Timestamp)
  {
    1980 <= t.year < 2108 && 1 <= t.month <= 12 && 1 <= t.day <= 31
    && t.hour < 24 && t.minute < 60 && t.second < 60 && t.second % 2 == 0
  }

  /** The packed FAT date and time: bits 31..25 the year since 1980, 24..21
      the month, 20..16 the day, 15..11 the hour, 10..5 the minute, 4..0 the
      seconds halved; written field by field from the top. */
  function PackTimestamp(t: Timestamp): uint32
    requires ValidTimestamp(t)
  {
    (((((t.year - 1980) * 0x10 + t.month) * 0x20 + t.day) * 0x20 + t.hour) * 0x40 + t.minute) * 0x20 + t.second / 2
  }

  /** The fields of a packed date and time, taken off from the bottom. */
  function UnpackTimestamp(w: uint32): Timestamp
  {
    var second := w % 0x20;
    var w1 := w / 0x20;
    var minute := w1 % 0x40;
    var w2 := w1 / 0x40;
    var hour := w2 % 0x20;
    var w3 := w2 / 0x20;
    var day := w3 % 0x20;
    var w4 := w3 / 0x20;
    Timestamp(1980 + w4 / 0x10, w4 % 0x10, day, hour, minute, second * 2)
  }

  /** Taking a field of width `d` (16, 32 or 64) off `q * d + r` gives back
      `q` and `r`. */
  lemma TakeField(q: nat, r: nat, d: nat)
    requires d == 0x10 || d == 0x20 || d == 0x40
    requires 0 <= r < d
    ensures (q * d + r) / d == q && (q * d + r) % d == r
  {
    if d == 0x10 {
      assert (q * 0x10 + r) / 0x10 == q;
    } else if d == 0x20 {
      assert (q * 0x20 + r) / 0x20 == q;
    } else {
      assert (q * 0x40 + r) / 0x40 == q;
    }
  }

  /** Unpacking a packed timestamp gives it back. */
  lemma UnpackPack(t: Timestamp)
    requires ValidTimestamp(t)
    ensures UnpackTimestamp(PackTimestamp(t)) == t
  {
    var w4 := (t.year - 1980) * 0x10 + t.month;
    var w3 := w4 * 0x20 + t.day;
    var w2 := w3 * 0x20 + t.hour;
    var w1 := w2 * 0x40 + t.minute;
    TakeField(w1, t.second / 2, 0x20);
    TakeField(w2, t.minute, 0x40);
    TakeField(w3, t.hour, 0x20);
    TakeField(w4, t.day, 0x20);
    TakeField(t.year - 1980, t.month, 0x10);
  }

  /** `get_fattime()`: a fixed time, assembled from shifted fields. */
  function FatTime(): uint32
  {
    (((2010 - 1980) as bv32 << 25) | (5 as bv32 << 21) | (30 as bv32 << 16) | (16 as bv32 << 11) | (0 as bv32 << 5) | 0) as int
  }

  /** Every file is stamped 30 May 2010, 16:00:00. */
  lemma FatTimeIsFixed()
    ensures FatTime() == PackTimestamp(Timestamp(2010, 5, 30, 16, 0, 0))
    ensures UnpackTimestamp(FatTime()) == Timestamp(2010, 5, 30, 16, 0, 0)
  {
    var b: bv32 := (30 as bv32 << 25) | (5 as bv32 << 21) | (30 as bv32 << 16) | (16 as bv32 << 11) | (0 as bv32 << 5) | 0;
    assert b == 0x3CBE_8000;
    assert FatTime() == b as int == 0x3CBE_8000;
    UnpackPack(Timestamp(2010, 5, 30, 16, 0, 0));
  }

  /** The static state of `Sdio1`: the host's card type and relative
      address, and the sizes read from the CSD. */
  class Sdio1 {
    const host: Host
    var deviceSize: uint64
    var sectorCount: uint32

    constructor (answers: nat -> Reply)
      ensures fresh(host) && host.answers == answers && host.issued == []
      ensures host.cardType == StdCapacityV1 && host.relativeAddress == 0
      ensures deviceSize == 0 && sectorCount == 0
    {
      host := new Host(answers);
      deviceSize := 0;
      sectorCount := 0;
    }

    /** `getCardInfo()`: read the CSD of the selected card and keep its
        capacity and sector count. `failed` is the path returning 1; the
        other path ends without a return value. */
    method GetCardInfo() returns (failed: bool)
      modifies this, host
      ensures host.issued == old(host.issued) + [Issued(SendCsd, Long, host.relativeAddress)]
      ensures host.last == host.answers(|old(host.issued)|)
      ensures failed == (ErrorOf(host.last) != Success)
      ensures deviceSize == SizeAfterCsd(host.last, old(deviceSize))
      ensures sectorCount == SectorsAfterCsd(host.last, old(sectorCount))
      ensures host.cardType == old(host.cardType) && host.relativeAddress == old(host.relativeAddress)
    {
      var e := host.SendCommand(SendCsd, Long, host.relativeAddress);
      if e != Success {
        return true;
      }
      deviceSize := SizeAfterCsd(host.last, deviceSize);
      sectorCount := SectorsAfterCsd(host.last, sectorCount);
      failed := false;
    }

    /** `initializeCard()`: identify the card, read its CSD, select it and
        switch it to the 4-bit bus. */
    method InitializeCard() returns (r: uint8)
      modifies this, host
      ensures host.issued == old(host.issued) + InitTrace(host.answers, |old(host.issued)|)
      ensures r == if InitOk(host.answers, |old(host.issued)|) then 0 else 1
      ensures host.cardType == ProbeType(host.answers, |old(host.issued)|, old(host.cardType))
      ensures deviceSize == SizeAfterInit(host.answers, |old(host.issued)|, old(deviceSize))
      ensures sectorCount == SectorsAfterInit(host.answers, |old(host.issued)|, old(sectorCount))
      ensures host.relativeAddress == AddressAfterIdentify(host.answers, |old(host.issued)|, old(host.relativeAddress))
    {
      ghost var s := |host.issued|;
      var ok := host.Identify();
      if !ok {
        InitStops(host.answers, s);
        return 1;
      }
      IdentifyEndsAtRelAdd(host.answers, s);
      r := SetUpIdentified(s);
      AppendAssociates(old(host.issued), IdentifyTrace(host.answers, s), SetupTrace(host.answers, s));
    }

    /** The rest of `initializeCard` once the identification from command
        number `s` succeeded and left the card's address in the host. */
    method SetUpIdentified(ghost s: nat) returns (r: uint8)
      requires IdentifyOk(host.answers, s) && |host.issued| == RelAddIndex(host.answers, s) + 1
      requires host.relativeAddress == Resp1(host.answers(RelAddIndex(host.answers, s)))
      modifies this, host
      ensures host.issued == old(host.issued) + SetupTrace(host.answers, s)
      ensures r == if InitOk(host.answers, s) then 0 else 1
      ensures deviceSize == SizeAfterInit(host.answers, s, old(deviceSize))
      ensures sectorCount == SectorsAfterInit(host.answers, s, old(sectorCount))
      ensures host.cardType == old(host.cardType) && host.relativeAddress == old(host.relativeAddress)
    {
      ghost var n := RelAddIndex(host.answers, s) + 1;
      InitOkAfter(host.answers, s, n);
      r := SetUpBus(n);
    }

    /** The end of `initializeCard` from command number `n`: `getCardInfo()`,
        whose result is ignored, `SELECT_CARD`, then `APP_CMD` and
        `SET_BUS_WIDTH`. */
    method SetUpBus(ghost n: nat) returns (r: uint8)
      requires n == |host.issued|
      modifies this, host
      ensures host.issued == old(host.issued) + BusSetupTrace(host.answers, n, host.relativeAddress)
      ensures r == if BusSetupOk(host.answers, n) then 0 else 1
      ensures deviceSize == SizeAfterCsd(host.answers(n), old(deviceSize))
      ensures sectorCount == SectorsAfterCsd(host.answers(n), old(sectorCount))
      ensures host.cardType == old(host.cardType) && host.relativeAddress == old(host.relativeAddress)
    {
      var _ := GetCardInfo();
      var e := host.SendCommand(SelectCard, Short, host.relativeAddress);
      if e != Success {
        return 1;
      }
      r := SwitchToWideBus(n + 2);
      AppendAssociates(old(host.issued), [Issued(SendCsd, Long, host.relativeAddress), Issued(SelectCard, Short, host.relativeAddress)],
                       WideBusTrace(host.answers, n + 2, host.relativeAddress));
    }

    /** `APP_CMD` and `SET_BUS_WIDTH(2)`, from command number `m`. */
    method SwitchToWideBus(ghost m: nat) returns (r: uint8)
      requires m == |host.issued|
      modifies host
      ensures host.issued == old(host.issued) + WideBusTrace(host.answers, m, host.relativeAddress)
      ensures r == if ErrorOf(host.answers(m)) == Success && ErrorOf(host.answers(m + 1)) == Success then 0 else 1
      ensures host.cardType == old(host.cardType) && host.relativeAddress == old(host.relativeAddress)
    {
      var e := host.SendCommand(AppCmd, Short, host.relativeAddress);
      if e != Success {
        return 1;
      }
      e := host.SendCommand(SetBusWidth, Short, 2);
      if e != Success {
        return 1;
      }
      return 0;
    }

    /** The command part shared by `readBlocks` and `writeBlocks`: the data
        command, then `STOP_TRANSMISSION` for more than one block. */
    method Transfer(write: bool, numberOfBlocks: uint32, blockAddress: bv32) returns (r: uint8)
      modifies host
      ensures host.issued == old(host.issued) + TransferTrace(write, host.answers, |old(host.issued)|, numberOfBlocks, blockAddress)
      ensures r == if TransferOk(host.answers, |old(host.issued)|, numberOfBlocks) then 0 else 1
      ensures host.cardType == old(host.cardType) && host.relativeAddress == old(host.relativeAddress)
    {
      var cmd := TransferCommand(write, numberOfBlocks);
      var e := host.SendCommand(cmd, Short, blockAddress);
      if e != Success {
        return 1;
      }
      if numberOfBlocks > 1 {
        e := host.SendCommand(StopTransmission, Short, 0);
        if e != Success {
          return 1;
        }
      }
      return 0;
    }

    /** `readBlocks(data, numberOfBlocks, blockAdress)`. */
    method ReadBlocks(numberOfBlocks: uint32, blockAddress: bv32) returns (r: uint8)
      modifies host
      ensures host.issued == old(host.issued) + TransferTrace(false, host.answers, |old(host.issued)|, numberOfBlocks, blockAddress)
      ensures r == if TransferOk(host.answers, |old(host.issued)|, numberOfBlocks) then 0 else 1
      ensures host.cardType == old(host.cardType) && host.relativeAddress == old(host.relativeAddress)
    {
      r := Transfer(false, numberOfBlocks, blockAddress);
    }

    /** `writeBlocks(data, numberOfBlocks, blockAddress)`: the transfer and,
        if it succeeds, the wait for the card to finish. The wait loop of
        the source ends only when the card reports an idle state; `end` is a
        command number where it does. */
    method WriteBlocks(numberOfBlocks: uint32, blockAddress: bv32, ghost end: nat) returns (r: uint8)
      requires WaitEnds(host.answers, |host.issued|, numberOfBlocks, end)
      modifies host
      ensures host.issued
              == old(host.issued) + WriteTrace(host.answers, |old(host.issued)|, numberOfBlocks, blockAddress, host.relativeAddress, end)
      ensures r == if TransferOk(host.answers, |old(host.issued)|, numberOfBlocks) then 0 else 1
      ensures host.cardType == old(host.cardType) && host.relativeAddress == old(host.relativeAddress)
    {
      ghost var before := host.issued;
      r := Transfer(true, numberOfBlocks, blockAddress);
      if r != 0 {
        WriteTraceFails(before, host.answers, numberOfBlocks, blockAddress, host.relativeAddress, end);
        return;
      }
      WriteTraceOk(before, host.answers, numberOfBlocks, blockAddress, host.relativeAddress, end);
      WaitWhileBusy(end);
    }

    /** One `SEND_STATUS` and the card state it reports. */
    method RequestStatus() returns (status: bv32)
      modifies host
      ensures host.issued == old(host.issued) + [Issued(SendStatus, Short, host.relativeAddress)]
      ensures status == CardState(host.answers(|old(host.issued)|))
      ensures host.cardType == old(host.cardType) && host.relativeAddress == old(host.relativeAddress)
    {
      var _ := host.SendCommand(SendStatus, Short, host.relativeAddress);
      status := CardState(host.last);
    }

    /** One more turn of the wait: the polls so far grow by one. */
    method PollAgain(ghost before: seq<Issued>, ghost k: nat, ghost rca: bv32) returns (status: bv32)
      requires host.issued == before + StatusPolls(k, rca) && host.relativeAddress == rca
      modifies host
      ensures host.issued == before + StatusPolls(k + 1, rca)
      ensures status == CardState(host.answers(|before| + k))
      ensures (status == 7 || status == 6) == CardBusy(host.answers(|before| + k))
      ensures host.cardType == old(host.cardType) && host.relativeAddress == rca
    {
      status := RequestStatus();
      AppendAssociates(before, StatusPolls(k, rca), [Issued(SendStatus, Short, rca)]);
    }

    /** The `SEND_STATUS` loop at the end of `writeBlocks`: ask for the card
        status until its state is neither receive-data nor programming. */
    method WaitWhileBusy(ghost end: nat)
      requires |host.issued| <= end && !CardBusy(host.answers(end))
      modifies host
      ensures host.issued == old(host.issued) + WaitTrace(host.answers, |old(host.issued)|, end, host.relativeAddress)
      ensures host.cardType == old(host.cardType) && host.relativeAddress == old(host.relativeAddress)
    {
      ghost var m := |host.issued|;
      ghost var rca := host.relativeAddress;
      ghost var idle := FirstIdle(host.answers, m, end);
      var status := RequestStatus();
      ghost var k := 1;
      while status == 7 || status == 6
        invariant 1 <= k <= idle + 1 - m && |host.issued| == m + k
        invariant host.issued == old(host.issued) + StatusPolls(k, rca)
        invariant (status == 7 || status == 6) == CardBusy(host.answers(m + k - 1))
        invariant host.cardType == old(host.cardType) && host.relativeAddress == rca
        decreases idle + 1 - m - k
      {
        status := PollAgain(old(host.issued), k, rca);
        k := k + 1;
      }
    }
  }

  /** FatFs's `disk_read`/`disk_write`/`disk_ioctl` results. */
  datatype DResult = ResOk | ResError

  /** The `disk_ioctl` commands the glue answers; any other is accepted and
      left unanswered. */
  datatype IoctlCommand = GetSectorCount | GetBlockSize | OtherIoctl

  /** FatFs's "drive not initialised" status flag. */
  const StaNoInit: uint8 := 0x01

  /** The FatFs disk glue: the global `sdio` driver and the `initialized`
      flag. The drive number is ignored by every function. */
  class Disk {
    const sdio: Sdio1
    var initialized: bool

    constructor (answers: nat -> Reply)
      ensures fresh(sdio) && fresh(sdio.host) && sdio.host.answers == answers && sdio.host.issued == []
      ensures !initialized
    {
      sdio := new Sdio1(answers);
      initialized := false;
    }

    /** `disk_status()`: 0 iff the drive is initialised. */
    function Status(): (st: uint8)
      reads this
      ensures st == 0 <==> initialized
      ensures st != 0 ==> st == StaNoInit
    {
      if initialized then 0 else StaNoInit
    }

    /** `disk_initialize()`: initialise the card once. A drive already
        initialised issues nothing; otherwise the card is initialised and
        the flag set iff that succeeds. Either way the result is 0 iff the
        drive is now initialised. */
    method Initialize() returns (st: uint8)
      modifies this, sdio, sdio.host
      ensures old(initialized) ==> initialized && sdio.host.issued == old(sdio.host.issued)
      ensures !old(initialized) ==>
                sdio.host.issued == old(sdio.host.issued) + InitTrace(sdio.host.answers, |old(sdio.host.issued)|)
                && initialized == InitOk(sdio.host.answers, |old(sdio.host.issued)|)
      ensures old(initialized) ==> unchanged(sdio, sdio.host)
      ensures !old(initialized) ==>
                var s := |old(sdio.host.issued)|;
                && sdio.host.cardType == ProbeType(sdio.host.answers, s, old(sdio.host.cardType))
                && sdio.host.relativeAddress == AddressAfterIdentify(sdio.host.answers, s, old(sdio.host.relativeAddress))
                && sdio.deviceSize == SizeAfterInit(sdio.host.answers, s, old(sdio.deviceSize))
                && sdio.sectorCount == SectorsAfterInit(sdio.host.answers, s, old(sdio.sectorCount))
      ensures st == 0 <==> initialized
      ensures st <= 1
    {
      if !initialized {
        var r := sdio.InitializeCard();
        if r != 0 {
          return 1;
        }
        initialized := true;
      }
      return 0;
    }

    /** `disk_read()`: `RES_OK` iff `readBlocks` returned 0. */
    method Read(sector: bv32, count: uint32) returns (res: DResult)
      modifies sdio.host
      ensures sdio.host.issued == old(sdio.host.issued) + TransferTrace(false, sdio.host.answers, |old(sdio.host.issued)|, count, sector)
      ensures res == ResOk <==> TransferOk(sdio.host.answers, |old(sdio.host.issued)|, count)
      ensures sdio.host.cardType == old(sdio.host.cardType) && sdio.host.relativeAddress == old(sdio.host.relativeAddress)
    {
      var r := sdio.ReadBlocks(count, sector);
      res := if r == 0 then ResOk else ResError;
    }

    /** `disk_write()`: `RES_OK` iff `writeBlocks` returned 0. */
    method Write(sector: bv32, count: uint32, ghost end: nat) returns (res: DResult)
      requires WaitEnds(sdio.host.answers, |sdio.host.issued|, count, end)
      modifies sdio.host
      ensures sdio.host.issued
              == old(sdio.host.issued) + WriteTrace(sdio.host.answers, |old(sdio.host.issued)|, count, sector, old(sdio.host.relativeAddress), end)
      ensures res == ResOk <==> TransferOk(sdio.host.answers, |old(sdio.host.issued)|, count)
      ensures sdio.host.cardType == old(sdio.host.cardType) && sdio.host.relativeAddress == old(sdio.host.relativeAddress)
    {
      var r := sdio.WriteBlocks(count, sector, end);
      res := if r == 0 then ResOk else ResError;
    }

    /** `disk_ioctl()`: re-read the CSD, then answer the sector count (as
        `getSectorCount()` returns it after the read) or a block size of
        512; always `RES_OK`. */
    method Ioctl(cmd: IoctlCommand) returns (res: DResult, answer: Option<uint32>)
      modifies sdio, sdio.host
      ensures sdio.host.issued == old(sdio.host.issued) + [Issued(SendCsd, Long, old(sdio.host.relativeAddress))]
      ensures sdio.deviceSize == SizeAfterCsd(sdio.host.answers(|old(sdio.host.issued)|), old(sdio.deviceSize))
      ensures sdio.sectorCount == SectorsAfterCsd(sdio.host.answers(|old(sdio.host.issued)|), old(sdio.sectorCount))
      ensures sdio.host.cardType == old(sdio.host.cardType) && sdio.host.relativeAddress == old(sdio.host.relativeAddress)
      ensures res == ResOk
      ensures answer == match cmd
                        case GetSectorCount => Some(sdio.sectorCount)
                        case GetBlockSize => Some(512)
                        case OtherIoctl => None
    {
      var _ := sdio.GetCardInfo();
      res := ResOk;
      match cmd
      case GetSectorCount =>
        answer := Some(sdio.sectorCount);
      case GetBlockSize =>
        answer := Some(512);
      case OtherIoctl =>
        answer := None;
    }
  }
}
