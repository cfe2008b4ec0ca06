/** The polled SDMMC driver of the first SD card example (`Sdio1`, all in
    one header): card initialisation, reading the CSD, and the block
    transfers, over the shared `SdCard.Host`. The data words moved through
    the FIFO are not modelled; each method's commands are. */
module SdioPolled {

  import opened Ints
  import opened SdCard

  /** The address a transfer sends: `blockAdress *= 512`, wrapping in 32
      bits, on a high-capacity card; the block number as given on any other. */
  function CardAddress(cardType: CardType, block: bv32): bv32
  {
    if cardType == HighCapacity then block * 512 else block
  }

  /** Scaling keeps the low 23 bits of the block number, shifted into place:
      the address is a multiple of 512 whose quotient is those bits, and
      blocks 2^23 apart share an address. Other card types get the block
      number unchanged. */
  lemma CardAddressScaling(cardType: CardType, block: bv32)
    ensures cardType == HighCapacity ==> CardAddress(cardType, block) == (block & 0x7F_FFFF) << 9
    ensures cardType == HighCapacity ==> CardAddress(cardType, block) >> 9 == block & 0x7F_FFFF
    ensures cardType == HighCapacity ==> CardAddress(cardType, block + 0x80_0000) == CardAddress(cardType, block)
    ensures cardType != HighCapacity ==> CardAddress(cardType, block) == block
  {
  }

  /** The commands a transfer issues: the data command at the card address,
      then `STOP_TRANSMISSION`, whatever the data command's outcome. */
  function TransferTrace(write: bool, cardType: CardType, count: uint32, block: bv32): seq<Issued>
  {
    [Issued(TransferCommand(write, count), Short, CardAddress(cardType, block)), Issued(StopTransmission, Short, 0)]
  }

  /** Every transfer ends with `STOP_TRANSMISSION`, also for one block; its
      data command is the single-block one iff one block moves. */
  lemma TransferAlwaysStops(write: bool, cardType: CardType, count: uint32, block: bv32)
    ensures var t := TransferTrace(write, cardType, count, block);
            |t| == 2 && t[1] == Issued(StopTransmission, Short, 0)
            && (SingleBlock(t[0].cmd) <==> count == 1) && (WritesData(t[0].cmd) <==> write)
  {
    TransferCommandChoice(write, count);
  }

  /** The commands `initializeCard` issues after the identification that
      began with command number `s`: none if it failed, else `SEND_CSD` and
      `SELECT_CARD`, both with the address from the `SEND_REL_ADD` reply. */
  function SelectTrace(answers: nat -> Reply, s: nat): seq<Issued>
  {
    if !IdentifyOk(answers, s) then []
    else
      var rca := Resp1(answers(RelAddIndex(answers, s)));
      [Issued(SendCsd, Long, rca), Issued(SelectCard, Short, rca)]
  }

  /** The commands of `initializeCard` from command number `s`. */
  function InitTrace(answers: nat -> Reply, s: nat): seq<Issued>
  {
    IdentifyTrace(answers, s) + SelectTrace(answers, s)
  }

  /** `initializeCard` returns 0 iff the identification and `SELECT_CARD`
      succeed; the outcome of `SEND_CSD` is ignored. */
  predicate InitOk(answers: nat -> Reply, s: nat)
  {
    IdentifyOk(answers, s) && ErrorOf(answers(RelAddIndex(answers, s) + 2)) == Success
  }

  /** A failed identification ends the initialisation. */
  lemma InitStops(answers: nat -> Reply, s: nat)
    requires !IdentifyOk(answers, s)
    ensures InitTrace(answers, s) == IdentifyTrace(answers, s) && !InitOk(answers, s)
  {
  }

  /** After a successful identification, the outcome of the initialisation
      is that of `SELECT_CARD`, command number `n + 1`. */
  lemma InitOkAfter(answers: nat -> Reply, s: nat, n: nat)
    requires IdentifyOk(answers, s) && n == RelAddIndex(answers, s) + 1
    ensures InitOk(answers, s) == (ErrorOf(answers(n + 1)) == Success)
  {
  }

  /** A successful initialisation selects the card whose address the
      `SEND_REL_ADD` reply carried, after reading its CSD. */
  lemma InitSelectsAddressedCard(answers: nat -> Reply, s: nat)
    requires InitOk(answers, s)
    ensures var t := InitTrace(answers, s);
            var k := RelAddIndex(answers, s) - s;
            |t| == k + 3 && t[k].cmd == SendRelAdd
            && t[k + 1] == Issued(SendCsd, Long, Resp1(answers(s + k)))
            && t[k + 2] == Issued(SelectCard, Short, Resp1(answers(s + k)))
  {
    IdentifyEndsAtRelAdd(answers, s);
  }

  /** Initialisation begins with the reset, and stops there when the reset
      fails. */
  lemma InitStartsWithReset(answers: nat -> Reply, s: nat)
    ensures |InitTrace(answers, s)| > 0 && InitTrace(answers, s)[0] == Issued(GoIdleState, NoResponse, 0)
    ensures ErrorOf(answers(s)) != Success ==> !InitOk(answers, s) && |InitTrace(answers, s)| == 1
  {
    IdentifyStartsWithReset(answers, s);
  }

  /** The static state of `Sdio1`: the host's card type and relative address,
      and the device size. `deviceSize` holds the corrected capacity,
      `(C_SIZE + 1) * 512 KiB` in 64 bits (`SdCard.CsdCapacity`); the
      source's 32-bit computation is `SdCard.PolledCapacityAsWritten`. */
  class Sdio1 {
    const host: Host
    var deviceSize: uint64

    constructor (answers: nat -> Reply)
      ensures fresh(host) && host.answers == answers && host.issued == []
      ensures host.cardType == StdCapacityV1 && host.relativeAddress == 0 && deviceSize == 0
    {
      host := new Host(answers);
      deviceSize := 0;
    }

    /** `getCardInfo()`: read the CSD of the selected card and keep its
        capacity. `failed` is the path returning 1; the other path ends
        without a return value. */
    method GetCardInfo() returns (failed: bool)
      modifies this, host
      ensures host.issued == old(host.issued) + [Issued(SendCsd, Long, host.relativeAddress)]
      ensures host.last == host.answers(|old(host.issued)|)
      ensures failed == (ErrorOf(host.last) != Success)
      ensures deviceSize == SizeAfterCsd(host.last, old(deviceSize))
      ensures host.cardType == old(host.cardType) && host.relativeAddress == old(host.relativeAddress)
    {
      var e := host.SendCommand(SendCsd, Long, host.relativeAddress);
      if e != Success {
        return true;
      }
      deviceSize := SizeAfterCsd(host.last, deviceSize);
      failed := false;
    }

    /** `initializeCard()`: identify the card, read its CSD and select it. */
    method InitializeCard() returns (r: uint8)
      modifies this, host
      ensures host.issued == old(host.issued) + InitTrace(host.answers, |old(host.issued)|)
      ensures r == if InitOk(host.answers, |old(host.issued)|) then 0 else 1
      ensures host.cardType == ProbeType(host.answers, |old(host.issued)|, old(host.cardType))
      ensures deviceSize == SizeAfterInit(host.answers, |old(host.issued)|, old(deviceSize))
      ensures host.relativeAddress == AddressAfterIdentify(host.answers, |old(host.issued)|, old(host.relativeAddress))
    {
      ghost var s := |host.issued|;
      var ok := host.Identify();
      if !ok {
        InitStops(host.answers, s);
        return 1;
      }
      IdentifyEndsAtRelAdd(host.answers, s);
      r := SelectIdentified(s);
      AppendAssociates(old(host.issued), IdentifyTrace(host.answers, s), SelectTrace(host.answers, s));
    }

    /** The rest of `initializeCard` once the identification from command
        number `s` succeeded and left the card's address in the host. */
    method SelectIdentified(ghost s: nat) returns (r: uint8)
      requires IdentifyOk(host.answers, s) && |host.issued| == RelAddIndex(host.answers, s) + 1
      requires host.relativeAddress == Resp1(host.answers(RelAddIndex(host.answers, s)))
      modifies this, host
      ensures host.issued == old(host.issued) + SelectTrace(host.answers, s)
      ensures r == if InitOk(host.answers, s) then 0 else 1
      ensures deviceSize == SizeAfterInit(host.answers, s, old(deviceSize))
      ensures host.cardType == old(host.cardType) && host.relativeAddress == old(host.relativeAddress)
    {
      ghost var n := RelAddIndex(host.answers, s) + 1;
      InitOkAfter(host.answers, s, n);
      r := ReadCsdAndSelect(n);
    }

    /** The end of `initializeCard`: `getCardInfo()`, whose result is
        ignored, then `SELECT_CARD` with the relative address, the two
        being commands number `n` and `n + 1`. */
    method ReadCsdAndSelect(ghost n: nat) returns (r: uint8)
      requires n == |host.issued|
      modifies this, host
      ensures host.issued == old(host.issued)
                             + [Issued(SendCsd, Long, host.relativeAddress), Issued(SelectCard, Short, host.relativeAddress)]
      ensures r == if ErrorOf(host.answers(n + 1)) == Success then 0 else 1
      ensures deviceSize == SizeAfterCsd(host.answers(n), old(deviceSize))
      ensures host.cardType == old(host.cardType) && host.relativeAddress == old(host.relativeAddress)
    {
      var _ := GetCardInfo();
      var e := host.SendCommand(SelectCard, Short, host.relativeAddress);
      if e != Success {
        return 1;
      }
      return 0;
    }

    /** `readBlocks(data, numberOfBlocks, blockAdress)`: `failed` is the
        path returning 1, taken iff `STOP_TRANSMISSION` fails. */
    method ReadBlocks(numberOfBlocks: uint32, blockAddress: bv32) returns (failed: bool)
      modifies host
      ensures host.issued == old(host.issued) + TransferTrace(false, host.cardType, numberOfBlocks, blockAddress)
      ensures failed == (ErrorOf(host.answers(|host.issued| - 1)) != Success)
      ensures host.cardType == old(host.cardType) && host.relativeAddress == old(host.relativeAddress)
    {
      var address := blockAddress;
      if host.cardType == HighCapacity {
        address := address * 512;
      }
      var cmd := if numberOfBlocks == 1 then ReadSingleBlock else ReadMultiBlock;
      var e := host.SendCommand(cmd, Short, address);
      e := host.SendCommand(StopTransmission, Short, 0);
      failed := e != Success;
    }

    /** `writeBlocks(data, numberOfBlocks, blockAddress)`, the same command
        sequence with the write commands. */
    method WriteBlocks(numberOfBlocks: uint32, blockAddress: bv32) returns (failed: bool)
      modifies host
      ensures host.issued == old(host.issued) + TransferTrace(true, host.cardType, numberOfBlocks, blockAddress)
      ensures failed == (ErrorOf(host.answers(|host.issued| - 1)) != Success)
      ensures host.cardType == old(host.cardType) && host.relativeAddress == old(host.relativeAddress)
    {
      var address := blockAddress;
      if host.cardType == HighCapacity {
        address := address * 512;
      }
      var cmd := if numberOfBlocks == 1 then WriteSingleBlock else WriteMultiBlock;
      var e := host.SendCommand(cmd, Short, address);
      e := host.SendCommand(StopTransmission, Short, 0);
      failed := e != Success;
    }
  }
}


