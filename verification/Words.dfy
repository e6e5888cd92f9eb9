/** Bit and lane algebra of 32-bit peripheral registers.

    Every driver in this project keeps an object packed in registers and edits
    it with shifts and masks. The lemmas here say once what such an edit does to
    one bit (`Has`) or to one multi-bit lane (`Lane`), so that the drivers never
    reason about whole words. */
module Words {
  type Word = bv32

  function Bit(i: nat): Word
    requires i < 32
  {
    (1 as Word) << i
  }

  /** Some bit of mask `k` is set in `w`. */
  predicate Meets(w: Word, k: Word) {
    w & k != 0
  }

  predicate Has(w: Word, i: nat)
    requires i < 32
  {
    Meets(w, Bit(i))
  }

  predicate OneHot(k: Word) {
    k != 0 && k & (k - 1) == 0
  }

  // ---- single bits --------------------------------------------------------

  lemma OrSplits(w: Word, m: Word, k: Word)
    ensures (w | m) & k == (w & k) | (m & k)
    ensures k & (w | m) == (k & w) | (k & m)
  {
  }

  lemma OrIsZero(a: Word, b: Word)
    ensures a | b == 0 <==> a == 0 && b == 0
  {
  }

  lemma MeetsOr(w: Word, m: Word, k: Word)
    ensures Meets(w | m, k) <==> Meets(w, k) || Meets(m, k)
  {
    OrSplits(w, m, k);
    OrIsZero(w & k, m & k);
  }

  lemma MeetsAnd(w: Word, m: Word, k: Word)
    requires OneHot(k)
    ensures Meets(w & m, k) <==> Meets(w, k) && Meets(m, k)
  {
  }

  lemma MeetsNot(w: Word, k: Word)
    requires OneHot(k)
    ensures Meets(!w, k) <==> !Meets(w, k)
  {
  }

  lemma MeetsClear(w: Word, m: Word, k: Word)
    requires OneHot(k)
    ensures Meets(w & !m, k) <==> Meets(w, k) && !Meets(m, k)
  {
    MeetsNot(m, k);
    MeetsAnd(w, !m, k);
  }

  lemma MeetsXor(a: Word, b: Word, k: Word)
    requires OneHot(k)
    ensures Meets(a ^ b, k) <==> (Meets(a, k) <==> !Meets(b, k))
  {
  }

  lemma BitIsOneHot(i: nat)
    requires i < 32
    ensures OneHot(Bit(i))
  {
  }

  lemma HasOr(w: Word, m: Word, i: nat)
    requires i < 32
    ensures Has(w | m, i) <==> Has(w, i) || Has(m, i)
  {
    MeetsOr(w, m, Bit(i));
  }

  lemma HasClear(w: Word, m: Word, i: nat)
    requires i < 32
    ensures Has(w & !m, i) <==> Has(w, i) && !Has(m, i)
  {
    BitIsOneHot(i);
    MeetsClear(w, m, Bit(i));
  }

  lemma HasBit(j: nat, i: nat)
    requires i < 32 && j < 32
    ensures Has(Bit(j), i) <==> i == j
  {
  }

  /** The two edits of one bit that drivers make. */
  function SetBit(w: Word, j: nat): Word
    requires j < 32
  {
    w | Bit(j)
  }

  function ClearBit(w: Word, j: nat): Word
    requires j < 32
  {
    w & !Bit(j)
  }

  lemma HasSetBit(w: Word, j: nat, i: nat)
    requires i < 32 && j < 32
    ensures Has(SetBit(w, j), i) <==> i == j || Has(w, i)
  {
    hide Has, Bit;
    HasOr(w, Bit(j), i);
    HasBit(j, i);
  }

  lemma HasClearBit(w: Word, j: nat, i: nat)
    requires i < 32 && j < 32
    ensures Has(ClearBit(w, j), i) <==> i != j && Has(w, i)
  {
    hide Has, Bit;
    HasClear(w, Bit(j), i);
    HasBit(j, i);
  }

  lemma HasZero(i: nat)
    requires i < 32
    ensures !Has(0, i)
  {
  }

  // ---- a word is its 32 bits ----------------------------------------------

  function From(n: nat): Word
    requires n <= 32
  {
    (0xFFFF_FFFF as Word) << n
  }

  lemma FromStep(n: nat)
    requires n < 32
    ensures From(n) == Bit(n) | From(n + 1)
  {
  }

  lemma {:induction false} SomeBit(d: Word, n: nat) returns (i: nat)
    requires n <= 32 && Meets(d, From(n))
    ensures i < 32 && Has(d, i)
    decreases 32 - n
  {
    if n == 32 {
      assert false;
    } else if Has(d, n) {
      i := n;
    } else {
      FromStep(n);
      OrSplits(Bit(n), From(n + 1), d);
      OrIsZero(d & Bit(n), d & From(n + 1));
      i := SomeBit(d, n + 1);
    }
  }

  /** The bits in which two words differ. */
  function Diff(a: Word, b: Word): Word {
    a ^ b
  }

  lemma NoDiff(a: Word, b: Word)
    requires Diff(a, b) == 0
    ensures a == b
  {
  }

  lemma MeetsAll(d: Word)
    requires d != 0
    ensures Meets(d, From(0))
  {
  }

  lemma HasDiff(a: Word, b: Word, i: nat)
    requires i < 32
    ensures Has(Diff(a, b), i) <==> (Has(a, i) <==> !Has(b, i))
  {
    hide Bit, Meets;
    BitIsOneHot(i);
    MeetsXor(a, b, Bit(i));
  }

  /** Words with the same 32 bits are equal. */
  lemma SameBits(a: Word, b: Word)
    requires forall i: nat | i < 32 :: Has(a, i) == Has(b, i)
    ensures a == b
  {
    hide Diff, Has, From, Meets;
    if Diff(a, b) == 0 {
      NoDiff(a, b);
    } else {
      MeetsAll(Diff(a, b));
      var i := SomeBit(Diff(a, b), 0);
      HasDiff(a, b, i);
      assert false;
    }
  }

  // ---- read-modify-write ----------------------------------------------------

  /** Clear the bits of mask `m`, then OR in `v`. */
  function Splice(w: Word, m: Word, v: Word): Word {
    (w & !m) | v
  }

  lemma SpliceMeets(w: Word, m: Word, v: Word, k: Word)
    requires OneHot(k)
    ensures Meets(Splice(w, m, v), k) <==> (Meets(w, k) && !Meets(m, k)) || Meets(v, k)
  {
    MeetsOr(w & !m, v, k);
    MeetsClear(w, m, k);
  }

  /** Under its own mask the word is what was written. */
  lemma SpliceHit(w: Word, m: Word, v: Word)
    requires v & !m == 0
    ensures Splice(w, m, v) & m == v
  {
  }

  /** Under a disjoint mask the word is as before. */
  lemma SpliceMiss(w: Word, m: Word, v: Word, m': Word)
    requires v & !m == 0 && m & m' == 0
    ensures Splice(w, m, v) & m' == w & m'
  {
  }

  /** Outside its mask the word is as before. */
  lemma SpliceKeeps(w: Word, m: Word, v: Word)
    requires v & !m == 0
    ensures Splice(w, m, v) & !m == w & !m
  {
  }

  // ---- small numbers in words -------------------------------------------------

  function Code(n: nat): Word
    requires n < 32
  {
    n as Word
  }

  function Value(w: Word): nat {
    w as nat
  }

  lemma ValueOfCode(n: nat)
    requires n < 32
    ensures Value(Code(n)) == n
  {
  }

  lemma SameValue(a: Word, b: Word)
    requires Value(a) == Value(b)
    ensures a == b
  {
    assert (a as nat) as Word == a;
  }

  lemma CodeFits(n: nat)
    requires n < 32
    ensures Code(n) <= 0x1F
  {
  }

  lemma CodeFitsFour(n: nat)
    requires n < 16
    ensures Code(n) <= 0xF
  {
  }

  lemma CodeFitsThree(n: nat)
    requires n < 8
    ensures Code(n) <= 7
  {
  }

  lemma CodeFitsTwo(n: nat)
    requires n < 4
    ensures Code(n) <= 3
  {
  }

  lemma LowTwoBits(n: nat)
    requires n < 32
    ensures Value(Code(n) & 3) == n % 4
  {
  }
}
