/** Interrupt priorities: a preemption level and a subpriority packed in the four
    implemented bits, computed twice in the code base (CORE/core_cm3.h and
    FWLIB/STM32F10x_FWLib/src/misc.c). */
module NvicPriority {
  import opened Words

  /** Implemented priority bits. */
  const PRIO_BITS: Word := 4

  // ---- CORE/core_cm3.h ---------------------------------------------------------------

  /** Bits of the preemption level; only the low three bits of a grouping count. */
  function PreemptBits(group: Word): (n: Word)
    ensures n <= 4
  {
    var p := group & 7;
    if 7 - p > PRIO_BITS then PRIO_BITS else 7 - p
  }

  /** Bits of the subpriority. */
  function SubBits(group: Word): (n: Word)
    ensures n <= 4
  {
    var p := group & 7;
    if p + PRIO_BITS < 7 then 0 else p - 7 + PRIO_BITS
  }

  function Ones(n: Word): Word
    requires n <= 4
  {
    (1 << n) - 1
  }

  /** NVIC_EncodePriority. */
  function Encode(group: Word, preempt: Word, sub: Word): Word {
    ((preempt & Ones(PreemptBits(group))) << SubBits(group)) | (sub & Ones(SubBits(group)))
  }

  /** The two results of NVIC_DecodePriority. */
  function DecodedPreempt(priority: Word, group: Word): Word {
    (priority >> SubBits(group)) & Ones(PreemptBits(group))
  }

  function DecodedSub(priority: Word, group: Word): Word {
    priority & Ones(SubBits(group))
  }

  lemma PreemptBack(group: Word, preempt: Word, sub: Word)
    ensures DecodedPreempt(Encode(group, preempt, sub), group) == preempt & Ones(PreemptBits(group))
  {
  }

  lemma SubBack(group: Word, preempt: Word, sub: Word)
    ensures DecodedSub(Encode(group, preempt, sub), group) == sub & Ones(SubBits(group))
  {
  }

  /** Decoding undoes encoding, up to the bits the grouping leaves to each part. */
  lemma DecodeInvertsEncode(group: Word, preempt: Word, sub: Word)
    ensures DecodedPreempt(Encode(group, preempt, sub), group) == preempt & Ones(PreemptBits(group))
    ensures DecodedSub(Encode(group, preempt, sub), group) == sub & Ones(SubBits(group))
  {
    PreemptBack(group, preempt, sub);
    SubBack(group, preempt, sub);
  }

  /** Encoding undoes decoding on the implemented bits. */
  lemma EncodeInvertsDecode(group: Word, priority: Word)
    requires priority <= 0xF
    ensures Encode(group, DecodedPreempt(priority, group), DecodedSub(priority, group)) == priority
  {
  }

  lemma EncodeFits(group: Word, preempt: Word, sub: Word)
    ensures Encode(group, preempt, sub) <= 0xF
  {
  }

  /** The pair fits the grouping. */
  predicate Fits(group: Word, preempt: Word, sub: Word)
  {
    preempt <= Ones(PreemptBits(group)) && sub <= Ones(SubBits(group))
  }

  /** Numeric order of encoded priorities is lexicographic order of the pairs. */
  lemma EncodedOrder(group: Word, a: Word, b: Word, c: Word, d: Word)
    requires Fits(group, a, b) && Fits(group, c, d)
    ensures Encode(group, a, b) < Encode(group, c, d) <==> a < c || (a == c && b < d)
  {
  }

  // ---- the priority byte -------------------------------------------------------------------

  /** What NVIC_SetPriority stores. */
  function Stored(priority: Word): Word {
    (priority << 4) & 0xFF
  }

  /** What NVIC_GetPriority reads from a stored byte. */
  function Read(byte: Word): Word {
    byte >> 4
  }

  lemma ReadStored(priority: Word)
    ensures Read(Stored(priority)) == priority & 0xF
  {
  }

  lemma StoredOrder(a: Word, b: Word)
    requires a <= 0xF && b <= 0xF
    ensures Stored(a) < Stored(b) <==> a < b
  {
  }

  /** The four bits of a byte that are implemented are the upper ones. */
  lemma StoredPlace(priority: Word)
    ensures Stored(priority) >> 4 == priority & 0xF && Stored(priority) & 0xFFFF_FF0F == 0
  {
  }

  /** What the five groups make of a preemption level and a subpriority that fit: four, three,
      two, one or no bits for the level, the others for the subpriority. */
  lemma EncodedValue(preempt: Word, sub: Word)
    ensures preempt < 16 && sub == 0 ==> Encode(3, preempt, sub) == preempt
    ensures preempt < 8 && sub < 2 ==> Encode(4, preempt, sub) == 2 * preempt + sub
    ensures preempt < 4 && sub < 4 ==> Encode(5, preempt, sub) == 4 * preempt + sub
    ensures preempt < 2 && sub < 8 ==> Encode(6, preempt, sub) == 8 * preempt + sub
    ensures preempt == 0 && sub < 16 ==> Encode(7, preempt, sub) == sub
  {
  }

  // ---- FWLIB/STM32F10x_FWLib/src/misc.c ------------------------------------------------------------------------------------

  /** PRIGROUP as NVIC_GetPriorityGrouping reads it. */
  function PriGroup(aircr: Word): Word {
    (aircr & 0x700) >> 8
  }

  /** A write takes effect only with the key in the upper half, which reads back
      inverted (section B3.2.6 of the ARMv7-M Architecture Reference Manual). */
  function AfterAircr(was: Word, v: Word): Word {
    if v & 0xFFFF_0000 == 0x05FA_0000 then 0xFA05_0000 | (was & 0xF8F8) | (v & 0x700) else was
  }

  /** The value NVIC_SetPriorityGrouping writes. */
  function GroupingWrite(aircr: Word, group: Word): Word {
    (aircr & !0xFFFF_0700) | 0x05FA_0000 | ((group & 7) << 8)
  }

  lemma GroupingReadBack(aircr: Word, group: Word)
    ensures PriGroup(AfterAircr(aircr, GroupingWrite(aircr, group))) == group & 7
  {
  }

  /** The five groups of misc.h. */
  predicate IsGroup(g: Word) {
    g == 0x700 || g == 0x600 || g == 0x500 || g == 0x400 || g == 0x300
  }

  lemma ConfigReadBack(aircr: Word, g: Word)
    requires IsGroup(g)
    ensures PriGroup(AfterAircr(aircr, 0x05FA_0000 | g)) == g >> 8
  {
  }

  /** The shift distance that NVIC_Init derives from AIRCR. */
  function Distance(aircr: Word): Word {
    (0x700 - (aircr & 0x700)) >> 8
  }

  /** The steps of NVIC_Init for the priority byte. The shifts are defined only when the
      distance is at most the number of priority bits. */
  function InitByte(aircr: Word, preempt: Word, sub: Word): Word
    requires Distance(aircr) <= 4
  {
    var level := preempt << (4 - Distance(aircr));
    var mask := (0xF as Word) >> Distance(aircr);
    ((level | (sub & mask)) << 4) & 0xFF
  }

  /** The two implementations agree under the grouping read back from AIRCR, also for a
      preemption level or subpriority too large for it: both drop the excess bits. */
  lemma SameByte(aircr: Word, preempt: Word, sub: Word)
    requires Distance(aircr) <= 4
    ensures InitByte(aircr, preempt, sub) == Stored(Encode(PriGroup(aircr), preempt, sub))
  {
  }

  /** The distance is in range exactly for the five groups of misc.h; it is not after
      reset, before a group is configured. */
  lemma DistanceInRange(aircr: Word)
    ensures Distance(aircr) <= 4 <==> IsGroup(aircr & 0x700)
  {
  }

  lemma ConfigInRange(aircr: Word, g: Word)
    requires IsGroup(g)
    ensures Distance(AfterAircr(aircr, 0x05FA_0000 | g)) <= 4
  {
  }

  lemma GroupingInRange(aircr: Word, group: Word)
    ensures Distance(AfterAircr(aircr, GroupingWrite(aircr, group))) <= 4 <==> group & 7 >= 3
  {
  }

  /** For pairs that fit the grouping, the stored bytes order the interrupts by
      preemption level and then by subpriority. */
  lemma StoredLexicographic(group: Word, a: Word, b: Word, c: Word, d: Word)
    requires Fits(group, a, b) && Fits(group, c, d)
    ensures Stored(Encode(group, a, b)) < Stored(Encode(group, c, d)) <==> a < c || (a == c && b < d)
  {
    hide Encode, Stored, Fits;
    EncodeFits(group, a, b);
    EncodeFits(group, c, d);
    EncodedOrder(group, a, b, c, d);
    StoredOrder(Encode(group, a, b), Encode(group, c, d));
  }
}
