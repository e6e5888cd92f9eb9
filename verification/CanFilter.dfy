/** The CAN filter banks: a table of configurations spread over two words per bank
    and one bit per bank in four shared registers
    (FWLIB/STM32F10x_FWLib/src/stm32f10x_can.c). */
module CanFilter {
  import opened Words

  type Half = bv16

  /** Bit of FMR that opens the filter registers for writing. */
  const FINIT: nat := 0

  datatype Config = Config(
    number: nat, idHigh: Half, idLow: Half, maskHigh: Half, maskLow: Half,
    secondFifo: bool, list: bool, wide: bool, active: bool)

  /** What a filter bank is configured to do. */
  datatype Bank = Bank(
    idHigh: Half, idLow: Half, maskHigh: Half, maskLow: Half,
    secondFifo: bool, list: bool, wide: bool, active: bool)

  function BankFor(c: Config): Bank {
    Bank(c.idHigh, c.idLow, c.maskHigh, c.maskLow, c.secondFifo, c.list, c.wide, c.active)
  }

  function Pack(high: Half, low: Half): Word {
    ((high as Word) << 16) | (low as Word)
  }

  function High(w: Word): Half {
    (w >> 16) as Half
  }

  function Low(w: Word): Half {
    (w & 0xFFFF) as Half
  }

  lemma HighOfPack(high: Half, low: Half)
    ensures High(Pack(high, low)) == high
  {
  }

  lemma LowOfPack(high: Half, low: Half)
    ensures Low(Pack(high, low)) == low
  {
  }

  /** Reading a bank as the hardware does: in 32-bit scale the first word is the
      identifier and the second the mask; in 16-bit scale each word pairs a mask, in
      its upper half, with an identifier. */
  function BankOf(r1: Word, r2: Word, secondFifo: bool, list: bool, wide: bool, active: bool): Bank {
    if wide then Bank(High(r1), Low(r1), High(r2), Low(r2), secondFifo, list, wide, active)
    else Bank(Low(r2), Low(r1), High(r2), High(r1), secondFifo, list, wide, active)
  }

  /** The two words the driver writes for a configuration. */
  function FirstWord(c: Config): Word {
    if c.wide then Pack(c.idHigh, c.idLow) else Pack(c.maskLow, c.idLow)
  }

  function SecondWord(c: Config): Word {
    if c.wide then Pack(c.maskHigh, c.maskLow) else Pack(c.maskHigh, c.idHigh)
  }

  /** Reading back what was written gives the configuration, in both scales. */
  lemma WordsRoundTrip(c: Config)
    ensures BankOf(FirstWord(c), SecondWord(c), c.secondFifo, c.list, c.wide, c.active) == BankFor(c)
  {
    hide High, Low, Pack;
    HighOfPack(c.idHigh, c.idLow);
    LowOfPack(c.idHigh, c.idLow);
    HighOfPack(c.maskLow, c.idLow);
    LowOfPack(c.maskLow, c.idLow);
    HighOfPack(c.maskHigh, c.maskLow);
    LowOfPack(c.maskHigh, c.maskLow);
    HighOfPack(c.maskHigh, c.idHigh);
    LowOfPack(c.maskHigh, c.idHigh);
  }

  // ---- a run of configurations ---------------------------------------------------

  /** Configure one bank after the other. */
  function Configured(table: seq<Bank>, cs: seq<Config>): (r: seq<Bank>)
    requires forall c | c in cs :: c.number < |table|
    ensures |r| == |table|
    decreases cs
  {
    if cs == [] then table else Configured(table[cs[0].number := BankFor(cs[0])], cs[1..])
  }

  /** The last configuration given for bank `n`, if any. */
  function LastFor(cs: seq<Config>, n: nat): (r: seq<Config>)
    ensures |r| <= 1
  {
    if cs == [] then []
    else if LastFor(cs[1..], n) != [] then LastFor(cs[1..], n)
    else if cs[0].number == n then [cs[0]]
    else []
  }

  /** After any run each bank does what it was last told to do, and a bank that was
      told nothing is as before. */
  lemma {:induction false} LastConfigurationWins(table: seq<Bank>, cs: seq<Config>, n: nat)
    requires forall c | c in cs :: c.number < |table|
    requires n < |table|
    ensures Configured(table, cs)[n] == if LastFor(cs, n) == [] then table[n] else BankFor(LastFor(cs, n)[0])
    decreases cs
  {
    if cs == [] {
    } else {
      LastConfigurationWins(table[cs[0].number := BankFor(cs[0])], cs[1..], n);
    }
  }

  // ---- the registers as values ------------------------------------------------------

  datatype Registers = Registers(fm1r: Word, fs1r: Word, ffa1r: Word, fa1r: Word, fr1: seq<Word>, fr2: seq<Word>)

  predicate WellSized(r: Registers) {
    |r.fr1| == |r.fr2| <= 28
  }

  function BankAt(r: Registers, n: nat): Bank
    requires WellSized(r) && n < |r.fr1|
  {
    BankOf(r.fr1[n], r.fr2[n], Has(r.ffa1r, n), Has(r.fm1r, n), Has(r.fs1r, n), Has(r.fa1r, n))
  }

  /** The table of banks the registers hold. */
  function Table(r: Registers): (t: seq<Bank>)
    requires WellSized(r)
    ensures |t| == |r.fr1|
  {
    seq(|r.fr1|, n requires 0 <= n < |r.fr1| && WellSized(r) => BankAt(r, n))
  }

  /** Write one bit of a shared register. */
  function PutBit(w: Word, n: nat, on: bool): Word
    requires n < 32
  {
    if on then SetBit(w, n) else ClearBit(w, n)
  }

  lemma FinitCycle(fmr: Word)
    ensures Has(SetBit(fmr, FINIT), FINIT)
    ensures forall i: nat | i < 32 :: Has(ClearBit(SetBit(fmr, FINIT), FINIT), i) <==> i != FINIT && Has(fmr, i)
  {
    hide Has, SetBit, ClearBit;
    HasSetBit(fmr, FINIT, FINIT);
    forall i: nat | i < 32
      ensures Has(ClearBit(SetBit(fmr, FINIT), FINIT), i) <==> i != FINIT && Has(fmr, i)
    {
      HasSetBit(fmr, FINIT, i);
      HasClearBit(SetBit(fmr, FINIT), FINIT, i);
    }
  }

  lemma HasPutBit(w: Word, n: nat, on: bool, i: nat)
    requires n < 32 && i < 32
    ensures Has(PutBit(w, n, on), i) == if i == n then on else Has(w, i)
  {
    hide Has, SetBit, ClearBit;
    HasSetBit(w, n, i);
    HasClearBit(w, n, i);
  }

  /** All registers after a bank was configured. */
  function Rewritten(r: Registers, c: Config): Registers
    requires WellSized(r) && c.number < |r.fr1|
  {
    var n := c.number;
    Registers(PutBit(r.fm1r, n, c.list), PutBit(r.fs1r, n, c.wide), PutBit(r.ffa1r, n, c.secondFifo),
      if c.active then SetBit(ClearBit(r.fa1r, n), n) else ClearBit(r.fa1r, n),
      r.fr1[n := FirstWord(c)], r.fr2[n := SecondWord(c)])
  }

  lemma RewrittenAt(r: Registers, c: Config, i: nat)
    requires WellSized(r) && c.number < |r.fr1| && i < |r.fr1|
    ensures BankAt(Rewritten(r, c), i) == if i == c.number then BankFor(c) else BankAt(r, i)
  {
    hide Has, SetBit, ClearBit, PutBit, BankOf, FirstWord, SecondWord;
    var n := c.number;
    HasPutBit(r.fm1r, n, c.list, i);
    HasPutBit(r.fs1r, n, c.wide, i);
    HasPutBit(r.ffa1r, n, c.secondFifo, i);
    HasClearBit(r.fa1r, n, i);
    HasSetBit(ClearBit(r.fa1r, n), n, i);
    WordsRoundTrip(c);
  }

  predicate Halves(w: Word, high: Half, low: Half) {
    w >> 16 == high as Word && w & 0xFFFF == low as Word
  }

  /** Bank `n` as section 24.9.4 of RM0008 lays it out: FM1R set for a list, FS1R for 32 bits,
      FFA1R for the second FIFO, FA1R for an active bank; one identifier and one mask of 32
      bits, or two pairs of 16 bits with the identifier in the lower half. */
  predicate LaidOut(r: Registers, c: Config)
    requires WellSized(r) && c.number < |r.fr1|
  {
    var n := c.number;
    (Has(r.fm1r, n) <==> c.list) && (Has(r.fs1r, n) <==> c.wide) &&
    (Has(r.ffa1r, n) <==> c.secondFifo) && (Has(r.fa1r, n) <==> c.active) &&
    if c.wide then
      Halves(r.fr1[n], c.idHigh, c.idLow) && Halves(r.fr2[n], c.maskHigh, c.maskLow)
    else
      Halves(r.fr1[n], c.maskLow, c.idLow) && Halves(r.fr2[n], c.maskHigh, c.idHigh)
  }

  lemma PackHalves(high: Half, low: Half)
    ensures Halves(Pack(high, low), high, low)
  {
  }

  lemma RewrittenLaidOut(r: Registers, c: Config)
    requires WellSized(r) && c.number < |r.fr1|
    ensures LaidOut(Rewritten(r, c), c)
  {
    hide Has, SetBit, ClearBit, PutBit, Pack, Halves;
    var n := c.number;
    HasPutBit(r.fm1r, n, c.list, n);
    HasPutBit(r.fs1r, n, c.wide, n);
    HasPutBit(r.ffa1r, n, c.secondFifo, n);
    HasClearBit(r.fa1r, n, n);
    HasSetBit(ClearBit(r.fa1r, n), n, n);
    PackHalves(c.idHigh, c.idLow);
    PackHalves(c.maskHigh, c.maskLow);
    PackHalves(c.maskLow, c.idLow);
    PackHalves(c.maskHigh, c.idHigh);
  }

  /** Rewriting the registers replaces one entry of the table and no other. */
  lemma RewrittenTable(r: Registers, c: Config)
    requires WellSized(r) && c.number < |r.fr1|
    ensures Table(Rewritten(r, c)) == Table(r)[c.number := BankFor(c)]
  {
    hide BankAt;
    forall i: nat | i < |r.fr1| {
      RewrittenAt(r, c, i);
    }
  }

  // ---- the registers ---------------------------------------------------------------

  /** Filter registers of CAN1. As section 24.9.4 of the reference manual RM0008
      says, FM1R, FS1R and FFA1R can be written only while FINIT is set, and the
      words of a bank only while FINIT is set or the bank is inactive. */
  class Filters {
    var FMR: Word
    var FM1R: Word
    var FS1R: Word
    var FFA1R: Word
    var FA1R: Word
    const FR1: array<Word>
    const FR2: array<Word>

    constructor (banks: nat)
      requires banks <= 28
      ensures Valid() && FR1.Length == banks && fresh(FR1) && fresh(FR2)
    {
      FMR, FM1R, FS1R, FFA1R, FA1R := 1, 0, 0, 0, 0;
      FR1 := new Word[banks](_ => 0);
      FR2 := new Word[banks](_ => 0);
    }

    predicate Valid() {
      FR1.Length == FR2.Length <= 28 && FR1 != FR2
    }

    ghost function Values(): Registers
      reads this, FR1, FR2
    {
      Registers(FM1R, FS1R, FFA1R, FA1R, FR1[..], FR2[..])
    }

    // Writes that the hardware takes only in initialisation mode.

    method WriteMode(v: Word)
      modifies this`FM1R
      ensures FM1R == if Has(FMR, FINIT) then v else old(FM1R)
    {
      if Has(FMR, FINIT) {
        FM1R := v;
      }
    }

    method WriteScale(v: Word)
      modifies this`FS1R
      ensures FS1R == if Has(FMR, FINIT) then v else old(FS1R)
    {
      if Has(FMR, FINIT) {
        FS1R := v;
      }
    }

    method WriteFifo(v: Word)
      modifies this`FFA1R
      ensures FFA1R == if Has(FMR, FINIT) then v else old(FFA1R)
    {
      if Has(FMR, FINIT) {
        FFA1R := v;
      }
    }

    method WriteWords(n: nat, r1: Word, r2: Word)
      requires Valid() && n < FR1.Length
      modifies FR1, FR2
      ensures FR1[..] == if Has(FMR, FINIT) || !Has(FA1R, n) then old(FR1[..])[n := r1] else old(FR1[..])
      ensures FR2[..] == if Has(FMR, FINIT) || !Has(FA1R, n) then old(FR2[..])[n := r2] else old(FR2[..])
    {
      if Has(FMR, FINIT) || !Has(FA1R, n) {
        FR1[n] := r1;
        FR2[n] := r2;
      }
    }

    /** What FilterInit does in initialisation mode. */
    method Configure(c: Config)
      requires Valid() && c.number < FR1.Length && Has(FMR, FINIT)
      modifies this`FM1R, this`FS1R, this`FFA1R, this`FA1R, FR1, FR2
      ensures Values() == Rewritten(old(Values()), c)
    {
      hide Has, SetBit, ClearBit, Pack;
      var n := c.number;
      // Filter deactivation.
      FA1R := ClearBit(FA1R, n);
      // Filter scale, identifier and mask.
      if !c.wide {
        WriteScale(ClearBit(FS1R, n));
        WriteWords(n, Pack(c.maskLow, c.idLow), Pack(c.maskHigh, c.idHigh));
      } else {
        WriteScale(SetBit(FS1R, n));
        WriteWords(n, Pack(c.idHigh, c.idLow), Pack(c.maskHigh, c.maskLow));
      }
      // Filter mode and FIFO assignment.
      WriteMode(if !c.list then ClearBit(FM1R, n) else SetBit(FM1R, n));
      WriteFifo(if !c.secondFifo then ClearBit(FFA1R, n) else SetBit(FFA1R, n));
      // Filter activation.
      if c.active {
        FA1R := SetBit(FA1R, n);
      }
    }

    /** CAN_FilterInit replaces the configuration of one bank, leaves every other bank
        as it was, and leaves initialisation mode. */
    method FilterInit(c: Config)
      requires Valid() && c.number < FR1.Length
      modifies this, FR1, FR2
      ensures Table(Values()) == Table(old(Values()))[c.number := BankFor(c)]
      ensures LaidOut(Values(), c) && !Has(FMR, 0)
      ensures forall i: nat | i < 32 :: Has(FMR, i) <==> i != FINIT && old(Has(FMR, i))
    {
      hide Has, SetBit, ClearBit, Rewritten, Table, BankFor, LaidOut;
      FinitCycle(FMR);
      RewrittenTable(Values(), c);
      RewrittenLaidOut(Values(), c);
      FMR := SetBit(FMR, FINIT);
      Configure(c);
      FMR := ClearBit(FMR, FINIT);
    }
  }
}
