/** GPIO pin configuration: sixteen four-bit fields in CRL and CRH, and the output bits
    that select pull-up or pull-down (FWLIB/STM32F10x_FWLib/src/stm32f10x_gpio.c). */
module Gpio {
  import opened Words

  // ---- a port as a caller sees it ---------------------------------------------------

  datatype Mode = AIN | InFloating | IPD | IPU | OutOD | OutPP | AfOD | AfPP

  /** The configuration field of each pin, and its output bit. */
  datatype Port = Port(fields: seq<nat>, levels: seq<bool>)

  datatype Call = Call(pins: set<nat>, mode: Mode, speed: nat)

  predicate WellFormed(p: Port) {
    |p.fields| == 16 && |p.levels| == 16
  }

  predicate IsOutput(m: Mode) {
    m == OutOD || m == OutPP || m == AfOD || m == AfPP
  }

  /** The speed is asserted for outputs only. */
  predicate Legal(c: Call) {
    (forall i | i in c.pins :: i < 16) && (IsOutput(c.mode) ==> 1 <= c.speed <= 3)
  }

  /** CNF in the two high bits, the output speed (zero for an input) in the low bits. */
  function Field(m: Mode, speed: nat): nat {
    match m
    case AIN => 0
    case InFloating => 4
    case IPD => 8
    case IPU => 8
    case OutOD => 4 + speed
    case OutPP => speed
    case AfOD => 12 + speed
    case AfPP => 8 + speed
  }

  /** The pulled inputs drive the output bit; the other modes leave it. */
  function Level(m: Mode, was: bool): bool {
    if m == IPD then false else if m == IPU then true else was
  }

  /** Effect of one call: the selected pins and nothing else. */
  function Configured(p: Port, c: Call): (r: Port)
    requires WellFormed(p)
    ensures WellFormed(r)
  {
    Port(seq(16, i requires 0 <= i < 16 => if i in c.pins then Field(c.mode, c.speed) else p.fields[i]),
         seq(16, i requires 0 <= i < 16 => if i in c.pins then Level(c.mode, p.levels[i]) else p.levels[i]))
  }

  function ConfiguredAll(p: Port, cs: seq<Call>): (r: Port)
    requires WellFormed(p)
    ensures WellFormed(r)
    decreases cs
  {
    if cs == [] then p else ConfiguredAll(Configured(p, cs[0]), cs[1..])
  }

  // ---- what a caller can rely on -------------------------------------------------------

  function SinglePin(c: Call, pins: seq<nat>): (cs: seq<Call>)
    ensures |cs| == |pins|
  {
    seq(|pins|, k requires 0 <= k < |pins| => c.(pins := {pins[k]}))
  }

  /** The call on a set of pins is the calls on its pins one at a time, in any order and
      with any repetition. */
  lemma {:induction false} OneAtATime(p: Port, c: Call, pins: seq<nat>)
    requires WellFormed(p) && (forall i :: i in c.pins <==> i in pins)
    ensures ConfiguredAll(p, SinglePin(c, pins)) == Configured(p, c)
    decreases pins
  {
    if pins == [] {
    } else {
      var rest := c.(pins := set i | i in pins[1..]);
      var first := c.(pins := {pins[0]});
      OneAtATime(Configured(p, first), rest, pins[1..]);
      assert SinglePin(c, pins)[1..] == SinglePin(rest, pins[1..]);
      assert SinglePin(c, pins)[0] == first;
      assert forall i :: i in c.pins <==> i == pins[0] || i in pins[1..];
      assert Configured(Configured(p, first), rest) == Configured(p, c);
    }
  }

  /** Calls on disjoint sets of pins commute, whatever their modes. */
  lemma DisjointCommute(p: Port, a: Call, b: Call)
    requires WellFormed(p) && a.pins !! b.pins
    ensures Configured(Configured(p, a), b) == Configured(Configured(p, b), a)
  {
    forall i: nat | i < 16
      ensures Configured(Configured(p, a), b).fields[i] == Configured(Configured(p, b), a).fields[i]
      ensures Configured(Configured(p, a), b).levels[i] == Configured(Configured(p, b), a).levels[i]
    {
    }
  }

  lemma PullsApart(a: Mode, b: Mode)
    ensures {a, b} == {IPU, IPD} <==> (a == IPU && b == IPD) || (a == IPD && b == IPU)
  {
    if {a, b} == {IPU, IPD} {
      assert IPU in {a, b} && IPD in {a, b};
    }
  }

  /** Calls that share a pin commute exactly when they ask the same of it. */
  lemma OverlapCommutes(p: Port, a: Call, b: Call)
    requires WellFormed(p) && Legal(a) && Legal(b) && a.pins * b.pins != {}
    ensures Configured(Configured(p, a), b) == Configured(Configured(p, b), a) <==>
            Field(a.mode, a.speed) == Field(b.mode, b.speed) && {a.mode, b.mode} != {IPU, IPD}
  {
    var i :| i in a.pins * b.pins;
    var ab, ba := Configured(Configured(p, a), b), Configured(Configured(p, b), a);
    assert ab.fields[i] == Field(b.mode, b.speed) && ba.fields[i] == Field(a.mode, a.speed);
    assert ab.levels[i] == Level(b.mode, Level(a.mode, p.levels[i]));
    assert ba.levels[i] == Level(a.mode, Level(b.mode, p.levels[i]));
    PullsApart(a.mode, b.mode);
    if Field(a.mode, a.speed) == Field(b.mode, b.speed) && {a.mode, b.mode} != {IPU, IPD} {
      assert ab.fields == ba.fields;
      assert ab.levels == ba.levels;
    }
  }

  /** Field of the last call that selects the pin. */
  function LastField(cs: seq<Call>, pin: nat, was: nat): nat
    decreases cs
  {
    if cs == [] then was
    else LastField(cs[1..], pin, if pin in cs[0].pins then Field(cs[0].mode, cs[0].speed) else was)
  }

  /** Pull of the last pulled-input call that selects the pin. */
  function LastLevel(cs: seq<Call>, pin: nat, was: bool): bool
    decreases cs
  {
    if cs == [] then was
    else LastLevel(cs[1..], pin, if pin in cs[0].pins then Level(cs[0].mode, was) else was)
  }

  lemma {:induction false} LastCallWins(p: Port, cs: seq<Call>, pin: nat)
    requires WellFormed(p) && pin < 16
    ensures ConfiguredAll(p, cs).fields[pin] == LastField(cs, pin, p.fields[pin])
    ensures ConfiguredAll(p, cs).levels[pin] == LastLevel(cs, pin, p.levels[pin])
    decreases cs
  {
    if cs == [] {
    } else {
      LastCallWins(Configured(p, cs[0]), cs[1..], pin);
    }
  }

  // ---- lanes of four bits -------------------------------------------------------------

  function NibbleMask(i: nat): Word
    requires i < 8
  {
    0xF << (4 * i)
  }

  function NibbleAt(i: nat, v: Word): Word
    requires i < 8
  {
    v << (4 * i)
  }

  function NibbleLane(w: Word, i: nat): Word
    requires i < 8
  {
    (w & NibbleMask(i)) >> (4 * i)
  }

  lemma NibbleInside(i: nat, v: Word)
    requires i < 8 && v <= 0xF
    ensures NibbleAt(i, v) & !NibbleMask(i) == 0
  {
  }

  lemma NibbleBack(i: nat, v: Word)
    requires i < 8 && v <= 0xF
    ensures NibbleAt(i, v) >> (4 * i) == v
  {
  }

  lemma NibbleAbove(i: nat, j: nat)
    requires i < j < 8
    ensures NibbleMask(i) & NibbleMask(j) == 0
  {
  }

  lemma NibblesApart(i: nat, j: nat)
    requires i < 8 && j < 8 && i != j
    ensures NibbleMask(i) & NibbleMask(j) == 0
  {
    if i < j {
      NibbleAbove(i, j);
    } else {
      NibbleAbove(j, i);
    }
  }

  lemma NibbleHit(w: Word, i: nat, v: Word)
    requires i < 8 && v <= 0xF
    ensures NibbleLane(Splice(w, NibbleMask(i), NibbleAt(i, v)), i) == v
  {
    NibbleInside(i, v);
    SpliceHit(w, NibbleMask(i), NibbleAt(i, v));
    NibbleBack(i, v);
    hide Splice, NibbleMask, NibbleAt;
  }

  lemma NibbleMiss(w: Word, i: nat, v: Word, j: nat)
    requires i < 8 && v <= 0xF && j < 8 && i != j
    ensures NibbleLane(Splice(w, NibbleMask(i), NibbleAt(i, v)), j) == NibbleLane(w, j)
  {
    NibbleInside(i, v);
    NibblesApart(i, j);
    SpliceMiss(w, NibbleMask(i), NibbleAt(i, v), NibbleMask(j));
    hide Splice, NibbleMask, NibbleAt;
  }

  /** Clear the field of a pin and write it. */
  function NibblePut(w: Word, i: nat, v: Word): Word
    requires i < 8
  {
    Splice(w, NibbleMask(i), NibbleAt(i, v))
  }

  lemma NibbleAfter(w: Word, i: nat, v: Word, j: nat)
    requires i < 8 && v <= 0xF && j < 8
    ensures NibbleLane(NibblePut(w, i, v), j) == if j == i then v else NibbleLane(w, j)
  {
    hide Splice, NibbleMask, NibbleAt, NibbleLane;
    if i == j {
      NibbleHit(w, i, v);
    } else {
      NibbleMiss(w, i, v, j);
    }
  }

  // ---- a word is its eight fields --------------------------------------------------------

  lemma NibbleOf(w: Word, i: nat)
    requires i < 8
    ensures NibbleAt(i, NibbleLane(w, i)) == w & NibbleMask(i)
  {
  }

  function Part(w: Word, i: nat): Word
    requires i < 8
  {
    w & NibbleMask(i)
  }

  function Gather(w: Word): Word {
    Part(w, 0) | Part(w, 1) | Part(w, 2) | Part(w, 3) | Part(w, 4) | Part(w, 5) | Part(w, 6) | Part(w, 7)
  }

  lemma Gathered(w: Word)
    ensures w == Gather(w)
  {
  }

  function NibbleIn(w: Word, i: nat): nat
    requires i < 8
  {
    Value(NibbleLane(w, i))
  }

  lemma SamePart(a: Word, b: Word, i: nat)
    requires i < 8 && NibbleIn(a, i) == NibbleIn(b, i)
    ensures Part(a, i) == Part(b, i)
  {
    hide NibbleLane, NibbleAt, NibbleMask, Value;
    SameValue(NibbleLane(a, i), NibbleLane(b, i));
    NibbleOf(a, i);
    NibbleOf(b, i);
  }

  /** Registers with the same eight fields are equal. */
  lemma SameNibbles(a: Word, b: Word)
    requires forall i: nat | i < 8 :: NibbleIn(a, i) == NibbleIn(b, i)
    ensures a == b
  {
    hide NibbleIn, Part;
    forall i: nat | i < 8
      ensures Part(a, i) == Part(b, i)
    {
      SamePart(a, b, i);
    }
    Gathered(a);
    Gathered(b);
  }

  // ---- the registers ---------------------------------------------------------------------

  datatype Registers = Registers(crl: Word, crh: Word, odr: Word)

  function FieldOf(r: Registers, i: nat): nat
    requires i < 16
  {
    if i < 8 then NibbleIn(r.crl, i) else NibbleIn(r.crh, i - 8)
  }

  /** What the registers hold. */
  function View(r: Registers): (p: Port)
    ensures WellFormed(p)
  {
    Port(seq(16, i requires 0 <= i < 16 => FieldOf(r, i)), seq(16, i requires 0 <= i < 16 => Has(r.odr, i)))
  }

  /** The port has sixteen output bits. */
  predicate Half(odr: Word) {
    odr <= 0xFFFF
  }

  lemma NoUpperBit(odr: Word, i: nat)
    requires Half(odr) && 16 <= i < 32
    ensures !Has(odr, i)
  {
  }

  lemma SameLevels(r: Registers, r': Registers)
    requires View(r).levels == View(r').levels && Half(r.odr) && Half(r'.odr)
    ensures r.odr == r'.odr
  {
    hide FieldOf, Has, Half;
    forall i: nat | i < 32
      ensures Has(r.odr, i) == Has(r'.odr, i)
    {
      if i < 16 {
        assert View(r).levels[i] == View(r').levels[i];
      } else {
        NoUpperBit(r.odr, i);
        NoUpperBit(r'.odr, i);
      }
    }
    SameBits(r.odr, r'.odr);
  }

  /** The configuration registers have no bits beyond the sixteen fields. */
  lemma SameFields(r: Registers, r': Registers)
    requires View(r).fields == View(r').fields
    ensures r.crl == r'.crl && r.crh == r'.crh
  {
    hide NibbleIn, Has;
    forall i: nat | i < 8
      ensures NibbleIn(r.crl, i) == NibbleIn(r'.crl, i)
      ensures NibbleIn(r.crh, i) == NibbleIn(r'.crh, i)
    {
      assert View(r).fields[i] == View(r').fields[i];
      assert View(r).fields[i + 8] == View(r').fields[i + 8];
    }
    SameNibbles(r.crl, r'.crl);
    SameNibbles(r.crh, r'.crh);
  }

  /** The registers have no other bits: runs that leave the same port leave the same
      register values. */
  lemma SameRegisters(r: Registers, r': Registers)
    requires View(r) == View(r') && Half(r.odr) && Half(r'.odr)
    ensures r == r'
  {
    hide View, Half;
    SameFields(r, r');
    SameLevels(r, r');
  }

  /** CNF, the upper half of the field: analog, floating or pulled input, push-pull or open
      drain, for an output or an alternate function (section 9.2.1 of RM0008). */
  function Configuration(m: Mode): nat {
    match m
    case AIN | OutPP => 0
    case InFloating | OutOD => 1
    case IPD | IPU | AfPP => 2
    case AfOD => 3
  }

  /** The word holds `v` in the four bits from `4 * i`. */
  predicate NibbleBits(w: Word, i: nat, v: Word)
    requires i < 8
  {
    w & (0xF << (4 * i)) == v << (4 * i)
  }

  lemma NibblePlaced(w: Word, i: nat)
    requires i < 8
    ensures NibbleBits(w, i, NibbleLane(w, i))
  {
    hide NibbleLane;
    NibbleOf(w, i);
  }

  /** Field `i` holds CNF in its upper and MODE in its lower two bits, four bits a pin, the
      lower eight pins in CRL. */
  predicate FieldBits(r: Registers, i: nat, cnf: nat, mode: nat)
    requires i < 16 && cnf < 4 && mode < 4
  {
    NibbleBits(if i < 8 then r.crl else r.crh, i % 8, Code(4 * cnf + mode))
  }

  lemma CodeOfValue(w: Word)
    requires w <= 0xF
    ensures Value(w) < 16 && Code(Value(w)) == w
  {
  }

  lemma NibbleFits(w: Word, i: nat)
    requires i < 8
    ensures NibbleLane(w, i) <= 0xF
  {
  }

  lemma FieldIs(m: Mode, speed: nat)
    requires IsOutput(m) ==> speed < 4
    ensures Field(m, speed) == 4 * Configuration(m) + if IsOutput(m) then speed else 0
  {
  }

  lemma FieldPlaced(r: Registers, i: nat, cnf: nat, mode: nat)
    requires i < 16 && cnf < 4 && mode < 4 && FieldOf(r, i) == 4 * cnf + mode
    ensures FieldBits(r, i, cnf, mode)
  {
    hide NibbleLane, Value, Code, NibbleBits;
    var w := if i < 8 then r.crl else r.crh;
    NibblePlaced(w, i % 8);
    NibbleFits(w, i % 8);
    CodeOfValue(NibbleLane(w, i % 8));
  }

  /** The pins a mask selects. */
  function Pins(mask: Word): set<nat> {
    set i: nat | i < 16 && Has(mask, i)
  }

  // ---- bits of the mode argument -------------------------------------------------------------

  function ModeBits(m: Mode): Word {
    match m
    case AIN => 0x0
    case InFloating => 0x04
    case IPD => 0x28
    case IPU => 0x48
    case OutOD => 0x14
    case OutPP => 0x10
    case AfOD => 0x1C
    case AfPP => 0x18
  }

  /** The field written for a mode: its low four bits, with the speed if bit 4 is set. */
  function CurrentMode(m: Mode, speed: nat): Word
    requires IsOutput(m) ==> speed < 4
  {
    if IsOutput(m) then (ModeBits(m) & 0xF) | Code(speed) else ModeBits(m) & 0xF
  }

  lemma OutputBit(m: Mode)
    ensures ModeBits(m) & 0x10 != 0 <==> IsOutput(m)
  {
  }

  lemma PullBits(m: Mode)
    ensures (ModeBits(m) == 0x28 <==> m == IPD) && (ModeBits(m) == 0x48 <==> m == IPU)
  {
  }

  lemma CurrentModeIs(m: Mode, speed: nat)
    requires IsOutput(m) ==> 1 <= speed <= 3
    ensures Value(CurrentMode(m, speed)) == Field(m, speed)
  {
  }

  lemma CurrentModeFits(m: Mode, speed: nat)
    requires IsOutput(m) ==> speed < 4
    ensures CurrentMode(m, speed) <= 0xF
  {
  }

  // ---- bits of the pin mask ---------------------------------------------------------------------

  /** The test of the loops: the pin's bit, taken out of the mask, is itself. */
  predicate Picks(mask: Word, k: Word) {
    mask & k == k
  }

  lemma MaskedAll(mask: Word, k: Word)
    requires OneHot(k)
    ensures Picks(mask, k) <==> Meets(mask, k)
  {
  }

  lemma MaskedPin(mask: Word, i: nat)
    requires i < 32
    ensures Picks(mask, Bit(i)) <==> Has(mask, i)
  {
    hide Bit, Meets, Picks;
    BitIsOneHot(i);
    MaskedAll(mask, Bit(i));
  }

  lemma NoLowPin(mask: Word, i: nat)
    requires mask & 0xFF == 0 && i < 8
    ensures !Has(mask, i)
  {
  }

  lemma NoHighPin(mask: Word, i: nat)
    requires mask <= 0xFF && 8 <= i < 16
    ensures !Has(mask, i)
  {
  }

  /** A write to BSRR sets the bits of its low half and resets those of its high half;
      setting wins (section 9.2.5 of RM0008). */
  function AfterBSRR(odr: Word, v: Word): Word {
    ((odr & !(v >> 16)) | v) & 0xFFFF
  }

  function AfterBRR(odr: Word, v: Word): Word {
    odr & !(v & 0xFFFF)
  }

  function With(odr: Word, k: Word): Word {
    odr | k
  }

  lemma LowHalfSets(odr: Word, k: Word)
    requires odr <= 0xFFFF && k <= 0xFFFF
    ensures AfterBSRR(odr, k) == odr | k
  {
  }

  lemma LowHalfWith(odr: Word, k: Word)
    requires Half(odr) && Half(k)
    ensures AfterBSRR(odr, k) == With(odr, k)
  {
    hide AfterBSRR;
    LowHalfSets(odr, k);
  }

  lemma PinBitLow(i: nat)
    requires i < 16
    ensures Half(Bit(i))
  {
  }

  lemma SetBitIs(odr: Word, i: nat)
    requires i < 16
    ensures SetBit(odr, i) == With(odr, Bit(i))
  {
  }

  lemma PinSet(odr: Word, i: nat)
    requires i < 16 && Half(odr)
    ensures AfterBSRR(odr, Bit(i)) == SetBit(odr, i)
  {
    hide Bit, AfterBSRR, SetBit, With, Half;
    PinBitLow(i);
    LowHalfWith(odr, Bit(i));
    SetBitIs(odr, i);
  }

  lemma PinReset(odr: Word, i: nat)
    requires i < 16
    ensures AfterBRR(odr, Bit(i)) == ClearBit(odr, i)
  {
  }

  lemma SetBitLow(odr: Word, i: nat)
    requires i < 16 && odr <= 0xFFFF
    ensures SetBit(odr, i) <= 0xFFFF
  {
  }

  lemma ClearBitLow(odr: Word, i: nat)
    requires i < 16 && odr <= 0xFFFF
    ensures ClearBit(odr, i) <= 0xFFFF
  {
  }

  // ---- the driver -----------------------------------------------------------------------------------

  /** The field of each pin of one configuration register after the loop has passed the
      first `n` of them. */
  predicate FieldsDone(was: Word, now: Word, mask: Word, base: nat, field: Word, n: nat)
    requires base <= 8 && n <= 8
  {
    forall j: nat | j < 8 ::
      NibbleLane(now, j) == if j < n && Has(mask, base + j) then field else NibbleLane(was, j)
  }

  /** The output bits after the loop has passed the pins from `lo` up to `hi`. */
  predicate LevelsDone(was: Word, now: Word, mask: Word, m: Mode, lo: nat, hi: nat)
    requires lo <= hi <= 16
  {
    Half(now) &&
    forall j: nat | j < 16 ::
      Has(now, j) == if lo <= j < hi && Has(mask, j) then Level(m, Has(was, j)) else Has(was, j)
  }

  lemma FieldsStep(was: Word, now: Word, mask: Word, base: nat, field: Word, n: nat)
    requires base <= 8 && n < 8 && field <= 0xF
    requires FieldsDone(was, now, mask, base, field, n) && Has(mask, base + n)
    ensures FieldsDone(was, NibblePut(now, n, field), mask, base, field, n + 1)
  {
    hide Has, NibbleLane, NibblePut;
    forall j: nat | j < 8
      ensures NibbleLane(NibblePut(now, n, field), j) ==
              if j < n + 1 && Has(mask, base + j) then field else NibbleLane(was, j)
    {
      NibbleAfter(now, n, field, j);
    }
  }

  function Driven(odr: Word, m: Mode, i: nat): Word
    requires i < 16
  {
    if m == IPD then ClearBit(odr, i) else if m == IPU then SetBit(odr, i) else odr
  }

  lemma HasDriven(odr: Word, m: Mode, i: nat, j: nat)
    requires i < 16 && j < 16
    ensures Has(Driven(odr, m, i), j) == if j == i then Level(m, Has(odr, j)) else Has(odr, j)
  {
    hide Has, SetBit, ClearBit;
    if m == IPD {
      HasClearBit(odr, i, j);
    } else if m == IPU {
      HasSetBit(odr, i, j);
    }
  }

  lemma DrivenLow(odr: Word, m: Mode, i: nat)
    requires i < 16 && Half(odr)
    ensures Half(Driven(odr, m, i))
  {
    hide SetBit, ClearBit;
    SetBitLow(odr, i);
    ClearBitLow(odr, i);
  }

  lemma LevelsStep(was: Word, now: Word, mask: Word, m: Mode, lo: nat, hi: nat)
    requires lo <= hi < 16 && LevelsDone(was, now, mask, m, lo, hi) && Has(mask, hi)
    ensures LevelsDone(was, Driven(now, m, hi), mask, m, lo, hi + 1)
  {
    hide Has, Driven, Half;
    DrivenLow(now, m, hi);
    forall j: nat | j < 16
      ensures Has(Driven(now, m, hi), j) ==
              if lo <= j < hi + 1 && Has(mask, j) then Level(m, Has(was, j)) else Has(was, j)
    {
      HasDriven(now, m, hi, j);
    }
  }

  lemma Skip(was: Word, now: Word, was': Word, now': Word, mask: Word, m: Mode, base: nat, field: Word, n: nat)
    requires base <= 8 && n < 8 && !Has(mask, base + n)
    requires FieldsDone(was, now, mask, base, field, n) && LevelsDone(was', now', mask, m, base, base + n)
    ensures FieldsDone(was, now, mask, base, field, n + 1) && LevelsDone(was', now', mask, m, base, base + n + 1)
  {
    hide Has, NibbleLane, Half;
  }

  lemma Start(reg: Word, odr: Word, mask: Word, m: Mode, base: nat, field: Word)
    requires base <= 8 && Half(odr)
    ensures FieldsDone(reg, reg, mask, base, field, 0) && LevelsDone(odr, odr, mask, m, base, base)
  {
    hide Has, NibbleLane, Half;
  }

  lemma NoneLow(reg: Word, odr: Word, mask: Word, m: Mode, field: Word)
    requires mask & 0xFF == 0 && Half(odr)
    ensures FieldsDone(reg, reg, mask, 0, field, 8) && LevelsDone(odr, odr, mask, m, 0, 8)
  {
    hide NibbleLane, Half, Has;
    forall j: nat | j < 8
      ensures !Has(mask, j)
    {
      NoLowPin(mask, j);
    }
  }

  lemma NoneHigh(reg: Word, odr: Word, mask: Word, m: Mode, field: Word)
    requires mask <= 0xFF && Half(odr)
    ensures FieldsDone(reg, reg, mask, 8, field, 8) && LevelsDone(odr, odr, mask, m, 8, 16)
  {
    hide NibbleLane, Half, Has;
    forall j: nat | 8 <= j < 16
      ensures !Has(mask, j)
    {
      NoHighPin(mask, j);
    }
  }

  lemma BothDone(r: Registers, r': Registers, odr: Word, mask: Word, m: Mode, speed: nat, field: Word)
    requires FieldsDone(r.crl, r'.crl, mask, 0, field, 8) && FieldsDone(r.crh, r'.crh, mask, 8, field, 8)
    requires LevelsDone(r.odr, odr, mask, m, 0, 8) && LevelsDone(odr, r'.odr, mask, m, 8, 16)
    requires Value(field) == Field(m, speed)
    ensures View(r') == Configured(View(r), Call(Pins(mask), m, speed))
  {
    hide NibbleLane, Half, Has, Value, Field, Level;
    var p := Configured(View(r), Call(Pins(mask), m, speed));
    forall i: nat | i < 16
      ensures View(r').fields[i] == p.fields[i]
    {
      if i >= 8 {
        assert NibbleLane(r'.crh, i - 8) == if Has(mask, 8 + (i - 8)) then field else NibbleLane(r.crh, i - 8);
      }
    }
    assert View(r').levels == p.levels;
  }

  lemma DoneHalf(was: Word, now: Word, mask: Word, m: Mode, lo: nat, hi: nat)
    requires lo <= hi <= 16 && LevelsDone(was, now, mask, m, lo, hi)
    ensures Half(now)
  {
  }

  /** A configured port, read from the registers: each selected pin has the fields of the
      mode, and is pulled up or down by its output bit. */
  lemma InRegisters(r: Registers, r': Registers, mask: Word, m: Mode, speed: nat)
    requires View(r') == Configured(View(r), Call(Pins(mask), m, speed)) && (IsOutput(m) ==> speed < 4)
    ensures forall i: nat | i < 16 && Has(mask, i) ::
              FieldBits(r', i, Configuration(m), if IsOutput(m) then speed else 0)
    ensures forall i: nat | i < 16 :: Has(r'.odr, i) <==>
              if Has(mask, i) && m == IPU then true
              else if Has(mask, i) && m == IPD then false
              else Has(r.odr, i)
  {
    hide Has, FieldBits, FieldOf;
    FieldIs(m, speed);
    forall i: nat | i < 16 && Has(mask, i)
      ensures FieldBits(r', i, Configuration(m), if IsOutput(m) then speed else 0)
    {
      assert View(r').fields[i] == Field(m, speed);
      FieldPlaced(r', i, Configuration(m), if IsOutput(m) then speed else 0);
    }
    forall i: nat | i < 16
      ensures Has(r'.odr, i) <==> if Has(mask, i) then Level(m, Has(r.odr, i)) else Has(r.odr, i)
    {
      assert View(r').levels[i] == Configured(View(r), Call(Pins(mask), m, speed)).levels[i];
    }
  }

  class Device {
    var CRL: Word
    var CRH: Word
    var ODR: Word

    ghost function Values(): Registers
      reads this
    {
      Registers(CRL, CRH, ODR)
    }

    method WriteBSRR(v: Word)
      modifies this`ODR
      ensures ODR == AfterBSRR(old(ODR), v)
    {
      ODR := AfterBSRR(ODR, v);
    }

    method WriteBRR(v: Word)
      modifies this`ODR
      ensures ODR == AfterBRR(old(ODR), v)
    {
      ODR := AfterBRR(ODR, v);
    }

    /** The pull of one selected pin. */
    method Drive(mode: Mode, pin: nat)
      requires pin < 16 && Half(ODR)
      modifies this`ODR
      ensures ODR == Driven(old(ODR), mode, pin)
    {
      hide Bit, AfterBSRR, AfterBRR, SetBit, ClearBit;
      PullBits(mode);
      PinSet(ODR, pin);
      PinReset(ODR, pin);
      if ModeBits(mode) == 0x28 {
        WriteBRR(Bit(pin));
      } else if ModeBits(mode) == 0x48 {
        WriteBSRR(Bit(pin));
      }
    }

    static method PutField(reg: Word, i: nat, field: Word) returns (r: Word)
      requires i < 8
      ensures r == NibblePut(reg, i, field)
    {
      r := reg & !NibbleMask(i);
      r := r | NibbleAt(i, field);
    }

    static method Selected(mask: Word, pin: nat) returns (b: bool)
      requires pin < 32
      ensures b == Has(mask, pin)
    {
      hide Has, Bit, Picks;
      MaskedPin(mask, pin);
      var pos := Bit(pin);
      b := Picks(mask, pos);
    }

    /** One iteration; `was` and `odr` are what the loop started from. */
    method ConfigurePin(ghost was: Word, ghost odr: Word, reg: Word, mask: Word, base: nat, pinpos: nat,
                        mode: Mode, field: Word)
      returns (r: Word)
      requires base <= 8 && pinpos < 8 && field <= 0xF
      requires FieldsDone(was, reg, mask, base, field, pinpos)
      requires LevelsDone(odr, ODR, mask, mode, base, base + pinpos)
      modifies this`ODR
      ensures FieldsDone(was, r, mask, base, field, pinpos + 1)
      ensures LevelsDone(odr, ODR, mask, mode, base, base + pinpos + 1)
    {
      hide Has, Bit, NibbleLane, NibblePut, Driven, FieldsDone, LevelsDone, Half;
      var selected := Selected(mask, base + pinpos);
      assert Half(ODR) by {
        DoneHalf(odr, ODR, mask, mode, base, base + pinpos);
      }
      if selected {
        FieldsStep(was, reg, mask, base, field, pinpos);
        LevelsStep(odr, ODR, mask, mode, base, base + pinpos);
        r := PutField(reg, pinpos, field);
        Drive(mode, base + pinpos);
      } else {
        Skip(was, reg, odr, ODR, mask, mode, base, field, pinpos);
        r := reg;
      }
    }

    /** One of the two loops over eight pins. */
    method ConfigureEight(reg: Word, mask: Word, base: nat, mode: Mode, field: Word) returns (r: Word)
      requires (base == 0 || base == 8) && field <= 0xF && Half(ODR)
      modifies this`ODR
      ensures FieldsDone(reg, r, mask, base, field, 8)
      ensures LevelsDone(old(ODR), ODR, mask, mode, base, base + 8)
    {
      hide FieldsDone, LevelsDone, Half;
      r := reg;
      var pinpos := 0;
      Start(reg, ODR, mask, mode, base, field);
      while pinpos < 8
        invariant pinpos <= 8
        invariant FieldsDone(reg, r, mask, base, field, pinpos)
        invariant LevelsDone(old(ODR), ODR, mask, mode, base, base + pinpos)
      {
        r := ConfigurePin(reg, old(ODR), r, mask, base, pinpos, mode, field);
        pinpos := pinpos + 1;
      }
    }

    method ConfigureLow(mask: Word, mode: Mode, field: Word)
      requires field <= 0xF && Half(ODR)
      modifies this`CRL, this`ODR
      ensures FieldsDone(old(CRL), CRL, mask, 0, field, 8)
      ensures LevelsDone(old(ODR), ODR, mask, mode, 0, 8)
    {
      hide Has, FieldsDone, LevelsDone, Half;
      if mask & 0xFF != 0 {
        CRL := ConfigureEight(CRL, mask, 0, mode, field);
      } else {
        NoneLow(CRL, ODR, mask, mode, field);
      }
    }

    method ConfigureHigh(mask: Word, mode: Mode, field: Word)
      requires mask <= 0xFFFF && field <= 0xF && Half(ODR)
      modifies this`CRH, this`ODR
      ensures FieldsDone(old(CRH), CRH, mask, 8, field, 8)
      ensures LevelsDone(old(ODR), ODR, mask, mode, 8, 16)
    {
      hide Has, FieldsDone, LevelsDone, Half;
      if mask > 0xFF {
        CRH := ConfigureEight(CRH, mask, 8, mode, field);
      } else {
        NoneHigh(CRH, ODR, mask, mode, field);
      }
    }

    static method ModeField(mode: Mode, speed: nat) returns (field: Word)
      requires IsOutput(mode) ==> 1 <= speed <= 3
      ensures field <= 0xF && field == CurrentMode(mode, speed)
    {
      hide ModeBits, Code;
      CurrentModeFits(mode, speed);
      OutputBit(mode);
      field := ModeBits(mode) & 0xF;
      if ModeBits(mode) & 0x10 != 0 {
        field := field | Code(speed);
      }
    }

    /** GPIO_Init. */
    method Init(mask: Word, mode: Mode, speed: nat)
      requires mask <= 0xFFFF && (IsOutput(mode) ==> 1 <= speed <= 3) && Half(ODR)
      modifies this
      ensures View(Values()) == Configured(View(old(Values())), Call(Pins(mask), mode, speed))
      ensures Half(ODR)
      ensures forall i: nat | i < 16 && Has(mask, i) ::
                FieldBits(Values(), i, Configuration(mode), if IsOutput(mode) then speed else 0)
      ensures forall i: nat | i < 16 :: Has(ODR, i) <==>
                if Has(mask, i) && mode == IPU then true
                else if Has(mask, i) && mode == IPD then false
                else old(Has(ODR, i))
    {
      hide Has, FieldsDone, LevelsDone, Half, View, Pins, CurrentMode, NibbleLane;
      var field := ModeField(mode, speed);
      ghost var was := Values();
      ConfigureLow(mask, mode, field);
      ghost var odr := ODR;
      DoneHalf(was.odr, odr, mask, mode, 0, 8);
      ConfigureHigh(mask, mode, field);
      DoneHalf(odr, ODR, mask, mode, 8, 16);
      CurrentModeIs(mode, speed);
      BothDone(was, Values(), odr, mask, mode, speed, field);
      InRegisters(was, Values(), mask, mode, speed);
    }
  }
}
