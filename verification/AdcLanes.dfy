/** The lanes of the ADC sequencer registers: three bits per sample time, five bits
    per channel slot, and the two sequence lengths
    (FWLIB/STM32F10x_FWLib/src/stm32f10x_adc.c). */
module AdcLanes {
  import opened Words

  // ---- lanes of three bits (sample times) -----------------------------------------

  function TimeMask(i: nat): Word
    requires i < 10
  {
    7 << (3 * i)
  }

  function TimeAt(i: nat, v: Word): Word
    requires i < 10
  {
    v << (3 * i)
  }

  function TimeLane(w: Word, i: nat): Word
    requires i < 10
  {
    (w & TimeMask(i)) >> (3 * i)
  }

  /** The register holds `v` in the three bits from `3 * i`. */
  predicate TimeBits(w: Word, i: nat, v: Word)
    requires i < 10
  {
    w & (7 << (3 * i)) == v << (3 * i)
  }

  lemma TimeInside(i: nat, v: Word)
    requires i < 10 && v <= 7
    ensures TimeAt(i, v) & !TimeMask(i) == 0
  {
  }

  lemma TimeBack(i: nat, v: Word)
    requires i < 10 && v <= 7
    ensures TimeAt(i, v) >> (3 * i) == v
  {
  }

  lemma TimeAbove(i: nat, j: nat)
    requires i < j < 10
    ensures TimeMask(i) & TimeMask(j) == 0
  {
  }

  lemma TimesApart(i: nat, j: nat)
    requires i < 10 && j < 10 && i != j
    ensures TimeMask(i) & TimeMask(j) == 0
  {
    if i < j {
      TimeAbove(i, j);
    } else {
      TimeAbove(j, i);
    }
  }

  lemma TimeHit(w: Word, i: nat, v: Word)
    requires i < 10 && v <= 7
    ensures TimeLane(Splice(w, TimeMask(i), TimeAt(i, v)), i) == v
  {
    TimeInside(i, v);
    SpliceHit(w, TimeMask(i), TimeAt(i, v));
    TimeBack(i, v);
    hide Splice, TimeMask, TimeAt;
  }

  lemma TimePlaced(w: Word, i: nat, v: Word)
    requires i < 10 && v <= 7
    ensures TimeBits(Splice(w, TimeMask(i), TimeAt(i, v)), i, v)
  {
    hide Splice;
    TimeInside(i, v);
    SpliceHit(w, TimeMask(i), TimeAt(i, v));
  }

  lemma TimeMiss(w: Word, i: nat, v: Word, j: nat)
    requires i < 10 && v <= 7 && j < 10 && i != j
    ensures TimeLane(Splice(w, TimeMask(i), TimeAt(i, v)), j) == TimeLane(w, j)
  {
    TimeInside(i, v);
    TimesApart(i, j);
    SpliceMiss(w, TimeMask(i), TimeAt(i, v), TimeMask(j));
    hide Splice, TimeMask, TimeAt;
  }

  // ---- lanes of five bits (channels) ------------------------------------------------

  // Index 6 is reached only by an injected rank past the sequence length; its lane is
  // cut off by the end of the word.

  function SlotMask(i: nat): Word
    requires i < 7
  {
    0x1F << (5 * i)
  }

  function SlotAt(i: nat, v: Word): Word
    requires i < 7
  {
    v << (5 * i)
  }

  function SlotLane(w: Word, i: nat): Word
    requires i < 6
  {
    (w & SlotMask(i)) >> (5 * i)
  }

  /** The register holds `v` in the five bits from `5 * i`. */
  predicate SlotBits(w: Word, i: nat, v: Word)
    requires i < 6
  {
    w & (0x1F << (5 * i)) == v << (5 * i)
  }

  lemma SlotInside(i: nat, v: Word)
    requires i < 7 && v <= 0x1F
    ensures SlotAt(i, v) & !SlotMask(i) == 0
  {
  }

  lemma SlotBack(i: nat, v: Word)
    requires i < 6 && v <= 0x1F
    ensures SlotAt(i, v) >> (5 * i) == v
  {
  }

  lemma SlotAbove(i: nat, j: nat)
    requires i < j < 7
    ensures SlotMask(i) & SlotMask(j) == 0
  {
  }

  lemma SlotsApart(i: nat, j: nat)
    requires i < 7 && j < 7 && i != j
    ensures SlotMask(i) & SlotMask(j) == 0
  {
    if i < j {
      SlotAbove(i, j);
    } else {
      SlotAbove(j, i);
    }
  }

  lemma SlotHit(w: Word, i: nat, v: Word)
    requires i < 6 && v <= 0x1F
    ensures SlotLane(Splice(w, SlotMask(i), SlotAt(i, v)), i) == v
  {
    SlotInside(i, v);
    SpliceHit(w, SlotMask(i), SlotAt(i, v));
    SlotBack(i, v);
    hide Splice, SlotMask, SlotAt;
  }

  lemma SlotPlaced(w: Word, i: nat, v: Word)
    requires i < 6 && v <= 0x1F
    ensures SlotBits(Splice(w, SlotMask(i), SlotAt(i, v)), i, v)
  {
    hide Splice;
    SlotInside(i, v);
    SpliceHit(w, SlotMask(i), SlotAt(i, v));
  }

  lemma SlotMiss(w: Word, i: nat, v: Word, j: nat)
    requires i < 7 && v <= 0x1F && j < 6 && i != j
    ensures SlotLane(Splice(w, SlotMask(i), SlotAt(i, v)), j) == SlotLane(w, j)
  {
    SlotInside(i, v);
    SlotsApart(i, j);
    SpliceMiss(w, SlotMask(i), SlotAt(i, v), SlotMask(j));
    hide Splice, SlotMask, SlotAt;
  }

  // ---- lengths ------------------------------------------------------------------------

  /** L, in SQR1 above the four channel lanes. */
  function LengthLane(w: Word): Word {
    (w & 0x00F0_0000) >> 20
  }

  function PutLength(w: Word, v: Word): Word {
    Splice(w, 0x00F0_0000, v << 20)
  }

  /** JL, in JSQR above the four channel lanes. */
  function JLengthLane(w: Word): Word {
    (w & 0x0030_0000) >> 20
  }

  function PutJLength(w: Word, v: Word): Word {
    Splice(w, 0x0030_0000, v << 20)
  }

  /** L lies at bits 20 to 23, JL at bits 20 and 21. */
  lemma LengthPlace(w: Word)
    ensures LengthLane(w) == (w >> 20) & 0xF && JLengthLane(w) == (w >> 20) & 3
  {
  }

  lemma PutLengthHit(w: Word, v: Word)
    requires v <= 0xF
    ensures LengthLane(PutLength(w, v)) == v
  {
  }

  lemma PutLengthMiss(w: Word, v: Word, i: nat)
    requires v <= 0xF && i < 4
    ensures SlotLane(PutLength(w, v), i) == SlotLane(w, i)
  {
    assert 0x00F0_0000 & SlotMask(i) == 0;
    SpliceMiss(w, 0x00F0_0000, v << 20, SlotMask(i));
    hide Splice, SlotMask;
  }

  lemma PutJLengthHit(w: Word, v: Word)
    requires v <= 3
    ensures JLengthLane(PutJLength(w, v)) == v
  {
  }

  lemma PutJLengthMiss(w: Word, v: Word, i: nat)
    requires v <= 3 && i < 4
    ensures SlotLane(PutJLength(w, v), i) == SlotLane(w, i)
  {
    assert 0x0030_0000 & SlotMask(i) == 0;
    SpliceMiss(w, 0x0030_0000, v << 20, SlotMask(i));
    hide Splice, SlotMask;
  }

  lemma SlotKeepsLength(w: Word, i: nat, v: Word)
    requires i < 4 && v <= 0x1F
    ensures LengthLane(Splice(w, SlotMask(i), SlotAt(i, v))) == LengthLane(w)
  {
    SlotInside(i, v);
    assert SlotMask(i) & 0x00F0_0000 == 0;
    SpliceMiss(w, SlotMask(i), SlotAt(i, v), 0x00F0_0000);
    hide Splice, SlotMask, SlotAt;
  }

  /** Writing an injected slot keeps the length, except in the lane just above the
      four slots, which is the length. */
  lemma SlotKeepsJLength(w: Word, i: nat, v: Word)
    requires i < 7 && i != 4 && v <= 0x1F
    ensures JLengthLane(Splice(w, SlotMask(i), SlotAt(i, v))) == JLengthLane(w)
  {
    SlotInside(i, v);
    assert SlotMask(i) & 0x0030_0000 == 0;
    SpliceMiss(w, SlotMask(i), SlotAt(i, v), 0x0030_0000);
    hide Splice, SlotMask, SlotAt;
  }

  lemma SlotIsJLength(w: Word, v: Word)
    requires v <= 0x1F
    ensures JLengthLane(Splice(w, SlotMask(4), SlotAt(4, v))) == v & 3
  {
  }

  lemma JLengthBound(w: Word)
    ensures JLengthLane(w) <= 3
  {
  }
}
