/** The clock configuration registers: their fields, and the values the setters leave in
    them (USER/system_stm32f10x.c, bit definitions in USER/stm32f10x.h). */
module ClockFields {
  import opened Words
  import opened ClockTree

  /** The frequencies that can be configured at compile time. */
  datatype Target = To24 | To36 | To48 | To56 | To72

  function Hertz(t: Target): nat {
    match t
    case To24 => 24_000_000
    case To36 => 36_000_000
    case To48 => 48_000_000
    case To56 => 56_000_000
    case To72 => 72_000_000
  }

  /** The value line offers 24 MHz only. */
  predicate Supported(line: Line, t: Target) {
    line == ValueLine ==> t == To24
  }

  // ---- fields ------------------------------------------------------------------------------

  function SourceField(cfgr: Word): Word { (cfgr & 0xC) >> 2 }
  function MullField(cfgr: Word): Word { (cfgr & 0x003C_0000) >> 18 }
  function HpreField(cfgr: Word): Word { (cfgr & 0xF0) >> 4 }
  function Prediv1Field(cfgr2: Word): Word { cfgr2 & 0xF }
  function Prediv2Field(cfgr2: Word): Word { (cfgr2 & 0xF0) >> 4 }
  function Pll2mulField(cfgr2: Word): Word { (cfgr2 & 0xF00) >> 8 }
  predicate PllHse(cfgr: Word) { cfgr & 0x0001_0000 != 0 }
  predicate Xtpre(cfgr: Word) { cfgr & 0x0002_0000 != 0 }
  predicate FromPll2(cfgr2: Word) { cfgr2 & 0x0001_0000 != 0 }

  /** The fields of CFGR by bit number, as section 7.3.2 of RM0008 places them: SWS, HPRE,
      PLLSRC, PLLXTPRE and PLLMUL. */
  lemma FieldPlaces(cfgr: Word)
    ensures SourceField(cfgr) == (cfgr >> 2) & 3 && HpreField(cfgr) == (cfgr >> 4) & 0xF
    ensures (PllHse(cfgr) <==> (cfgr >> 16) & 1 == 1) && (Xtpre(cfgr) <==> (cfgr >> 17) & 1 == 1)
    ensures MullField(cfgr) == (cfgr >> 18) & 0xF
  {
  }

  /** PREDIV1, PREDIV2, PLL2MUL and PREDIV1SRC in CFGR2 (section 8.3.12). */
  lemma DividerPlaces(cfgr2: Word)
    ensures Prediv1Field(cfgr2) == cfgr2 & 0xF && Prediv2Field(cfgr2) == (cfgr2 >> 4) & 0xF
    ensures Pll2mulField(cfgr2) == (cfgr2 >> 8) & 0xF && (FromPll2(cfgr2) <==> (cfgr2 >> 16) & 1 == 1)
  {
  }

  // ---- buses and flash -----------------------------------------------------------------------

  /** The APB1 prescaler of a target. */
  function ApbBits(t: Target): Word {
    if t == To24 || t == To36 then 0 else 0x400
  }

  /** The flash wait states of a target. */
  function Latency(t: Target): Word {
    match t
    case To24 => 0
    case To36 => 1
    case To48 => 1
    case To56 => 2
    case To72 => 2
  }

  /** What a prescaler code of the APB buses divides by (section 7.3.2 of RM0008). */
  function ApbDivisor(code: Word): nat {
    if code < 4 then 1 else if code == 4 then 2 else if code == 5 then 4 else if code == 6 then 8 else 16
  }

  /** Codes with the upper bit set divide by two, four, eight and sixteen. */
  lemma ApbPowers(code: Word)
    requires code < 8
    ensures ApbDivisor(code) == if code & 4 == 0 then 1 else Pow2(Value(code) - 3)
  {
    PowersOfTwo();
  }

  function Apb1Code(cfgr: Word): Word { (cfgr & 0x700) >> 8 }
  function Apb2Code(cfgr: Word): Word { (cfgr & 0x3800) >> 11 }

  lemma ApbPlaces(cfgr: Word)
    ensures Apb1Code(cfgr) == (cfgr >> 8) & 7 && Apb2Code(cfgr) == (cfgr >> 11) & 7
  {
  }

  /** The divisor of APB1 is the least that keeps the bus within 36 MHz (section 7.2 of
      RM0008). */
  predicate LeastDivisor(t: Target, d: nat)
    requires d >= 1
  {
    Hertz(t) / d <= 36_000_000 && forall e: nat | e in [1, 2, 4, 8, 16] && Hertz(t) / e <= 36_000_000 :: d <= e
  }

  /** The core and APB2 run undivided, APB1 as fast as it may. */
  predicate BusesFor(t: Target, cfgr: Word) {
    HpreField(cfgr) == 0 && ApbDivisor(Apb2Code(cfgr)) == 1 && LeastDivisor(t, ApbDivisor(Apb1Code(cfgr)))
  }

  /** The flash gets a wait state for every 24 MHz beyond the first, and no more (section
      3.3.3 of RM0008). */
  predicate LeastWaits(t: Target, n: nat) {
    Hertz(t) <= 24_000_000 * (n + 1) && (n > 0 ==> Hertz(t) > 24_000_000 * n)
  }

  /** Wait states and prefetch. */
  predicate FlashFor(t: Target, acr: Word) {
    LeastWaits(t, Value(acr & 3)) && acr & 0x10 != 0
  }

  lemma BusCodes(t: Target, cfgr: Word)
    requires cfgr & 0x3FF0 == ApbBits(t)
    ensures HpreField(cfgr) == 0 && Apb2Code(cfgr) == 0 && Apb1Code(cfgr) == if t == To24 || t == To36 then 0 else 4
  {
  }

  lemma BusBitsFor(t: Target, cfgr: Word)
    requires cfgr & 0x3FF0 == ApbBits(t)
    ensures BusesFor(t, cfgr)
  {
    hide HpreField, Apb1Code, Apb2Code;
    BusCodes(t, cfgr);
  }

  /** What the setters write to the flash. */
  function FlashWritten(acr: Word, t: Target): Word {
    ((acr | 0x10) & !3) | Latency(t)
  }

  /** The other bits of the register. */
  function FlashRest(acr: Word): Word { acr & 0xFFFF_FFEC }

  lemma RestKept(acr: Word, v: Word)
    requires v & !3 == 0
    ensures FlashRest(((acr | 0x10) & !3) | v) == FlashRest(acr)
  {
  }

  lemma LatencyFits(t: Target)
    ensures Latency(t) & !3 == 0
  {
  }

  lemma RestWritten(t: Target, acr: Word)
    ensures FlashRest(FlashWritten(acr, t)) == FlashRest(acr)
  {
    hide Latency, FlashRest;
    LatencyFits(t);
    RestKept(acr, Latency(t));
  }

  lemma WaitsWritten(t: Target, acr: Word)
    ensures FlashWritten(acr, t) & 3 == Latency(t)
  {
  }

  lemma PrefetchWritten(t: Target, acr: Word)
    ensures FlashWritten(acr, t) & 0x10 != 0
  {
  }

  lemma LatencyValue(t: Target)
    ensures LeastWaits(t, Value(Latency(t)))
  {
  }

  lemma FlashWrittenFor(t: Target, acr: Word)
    ensures FlashFor(t, FlashWritten(acr, t)) && FlashRest(FlashWritten(acr, t)) == FlashRest(acr)
  {
    hide FlashWritten, FlashRest, Value, Latency, LeastWaits;
    WaitsWritten(t, acr);
    PrefetchWritten(t, acr);
    RestWritten(t, acr);
    LatencyValue(t);
  }

  /** PLLSRC, PLLXTPRE and PLLMULL as the setter writes them. */
  function PllBits(line: Line, t: Target): Word {
    match t
    case To24 => if line == Connectivity then 0x0011_0000 else 0x0013_0000
    case To36 => if line == Connectivity then 0x001D_0000 else 0x001F_0000
    case To48 => 0x0011_0000
    case To56 => 0x0015_0000
    case To72 => 0x001D_0000
  }

  /** PREDIV1, PREDIV2, PLL2MUL and PREDIV1SRC on the connectivity line. */
  function DividerBits(t: Target): Word {
    if t == To24 || t == To36 then 0x0001_0649 else 0x0001_0644
  }

  // ---- decoding ------------------------------------------------------------------------------

  function Decode(cfgr: Word, cfgr2: Word): Settings {
    Settings(Value(SourceField(cfgr)), PllHse(cfgr), Xtpre(cfgr), Value(MullField(cfgr)), Value(HpreField(cfgr)),
             Value(Prediv1Field(cfgr2)), FromPll2(cfgr2), Value(Prediv2Field(cfgr2)), Value(Pll2mulField(cfgr2)))
  }

  lemma FourBits(w: Word)
    requires w <= 0xF
    ensures Value(w) < 16
  {
  }

  lemma HpreBound(cfgr: Word)
    ensures Value(HpreField(cfgr)) < 16
  {
    hide Value;
    FourBits(HpreField(cfgr));
  }

  lemma Pll2mulBound(cfgr2: Word)
    ensures Value(Pll2mulField(cfgr2)) < 16
  {
    hide Value;
    FourBits(Pll2mulField(cfgr2));
  }

  /** The low bit set, as PLLXTPRE does to PREDIV1. */
  function OddField(w: Word): Word { (w & 0xE) | 1 }

  lemma OddFieldValue(w: Word)
    requires w <= 0xF
    ensures Value(OddField(w)) == Value(w) / 2 * 2 + 1
  {
  }

  lemma Prediv1Bound(cfgr2: Word)
    ensures Prediv1Field(cfgr2) <= 0xF
  {
  }

  /** The switch status, as it stands in the register. */
  function Status(cfgr: Word): Word { cfgr & 0xC }

  lemma SourceOfStatus(cfgr: Word)
    requires Status(cfgr) == 8
    ensures SourceField(cfgr) == 2
  {
  }

  lemma SourceOfReset(cfgr: Word)
    requires Status(cfgr) == 0
    ensures SourceField(cfgr) == 0
  {
  }

  // ---- the settings of a target -------------------------------------------------------------------

  function TargetMull(t: Target): nat {
    if t == To24 || t == To48 then 4 else if t == To56 then 5 else 7
  }

  function TargetPrediv1(t: Target): nat {
    if t == To24 || t == To36 then 9 else 4
  }

  lemma PllBitsAre(line: Line, t: Target)
    ensures Value(MullField(PllBits(line, t))) == TargetMull(t)
    ensures PllHse(PllBits(line, t)) && (line == Standard ==> (Xtpre(PllBits(line, t)) <==> t == To24 || t == To36))
  {
  }

  lemma DividerBitsAre(t: Target)
    ensures var d := DividerBits(t);
            Value(Prediv1Field(d)) == TargetPrediv1(t) && Value(Prediv2Field(d)) == 4 &&
            Value(Pll2mulField(d)) == 6 && FromPll2(d)
  {
  }

  /** What a setter leaves behind. The fields of a PLL can be written only while it is off:
      those of the main PLL while `on` is false, PLL2MUL while PLL2 is off and PREDIV2 while
      PLL2 and PLL3 are (sections 7.3.2 and 8.3 of RM0008). The AHB prescaler is kept in any
      case, and on the value line so are the upper bits of PREDIV1. */
  function Left(line: Line, t: Target, s: Settings, on: bool, on2: bool, on3: bool): Settings {
    Settings(
      2,
      if on then s.pllHse else true,
      if on then s.xtpre else t == To24 || t == To36,
      if on then s.mull else TargetMull(t),
      s.hpre,
      if on then s.prediv1 else if line == ValueLine then s.prediv1 / 2 * 2 + 1 else TargetPrediv1(t),
      if on then s.fromPll2 else true,
      if on2 || on3 then s.prediv2 else 4,
      if on2 then s.pll2mul else 6)
  }

  /** The fields that decide the clock agree. */
  predicate Agree(line: Line, a: Settings, b: Settings) {
    a.source == b.source && a.hpre == b.hpre &&
    (a.source == 2 ==>
       a.mull == b.mull && a.pllHse == b.pllHse &&
       (a.pllHse ==>
          match line
          case Standard => a.xtpre == b.xtpre
          case ValueLine => a.prediv1 == b.prediv1
          case Connectivity =>
            a.prediv1 == b.prediv1 && a.fromPll2 == b.fromPll2 &&
            (a.fromPll2 ==> a.prediv2 == b.prediv2 && a.pll2mul == b.pll2mul)))
  }

  lemma SameClock(line: Line, a: Settings, b: Settings)
    requires Agree(line, a, b) && a.hpre < 16
    ensures CoreClock(line, a) == CoreClock(line, b) && SysClock(line, a) == SysClock(line, b)
  {
    hide Mul32, Shr;
  }

  /** The PLL fields are those of the target. */
  predicate SetFor(line: Line, t: Target, s: Settings) {
    s.source == 2 && s.pllHse && s.mull == TargetMull(t) &&
    (line == Standard ==> (s.xtpre <==> t == To24 || t == To36)) &&
    (line == Connectivity ==> s.prediv1 == TargetPrediv1(t) && s.prediv2 == 4 && s.pll2mul == 6 && s.fromPll2)
  }

  /** The PLL input of a target on the lines that configure it fully. */
  function Input(t: Target): nat {
    if t == To24 || t == To36 then 4_000_000
    else 8_000_000
  }

  lemma SetForInput(line: Line, t: Target, s: Settings)
    requires line != ValueLine && SetFor(line, t, s)
    ensures PllInput(line, s) == Input(t)
    ensures PllFactor(line, s) == TargetMull(t) + 2
  {
    if line == Connectivity {
      assert Hse(line) / (s.prediv2 + 1) == 5_000_000;
      assert Mul32(5_000_000, 8) == 40_000_000;
      assert 40_000_000 / 10 == 4_000_000 && 40_000_000 / 5 == 8_000_000;
    }
  }

  lemma Factors()
    ensures Mul32(4_000_000, 6) == 24_000_000 && Mul32(4_000_000, 9) == 36_000_000
    ensures Mul32(8_000_000, 6) == 48_000_000 && Mul32(8_000_000, 7) == 56_000_000
    ensures Mul32(8_000_000, 9) == 72_000_000
  {
  }

  lemma SetForClock(line: Line, t: Target, s: Settings)
    requires Supported(line, t) && SetFor(line, t, s)
    ensures SysClock(line, s) == if line == ValueLine then 8_000_000 / (s.prediv1 + 1) * 6 % WORD else Hertz(t)
  {
    if line != ValueLine {
      SetForInput(line, t, s);
      hide PllInput, SetFor;
      Factors();
      hide Mul32;
    }
  }

  lemma DivisorsAre(f: nat, hpre: nat)
    requires hpre < 16 && f > 0
    ensures f / Divisor(hpre) == f <==> hpre < 8
    ensures f / Divisor(hpre) <= f
  {
  }

  lemma DividedByMore(x: nat, d: nat, k: nat)
    requires d >= k >= 1
    ensures x / d <= x / k
  {
    var q := x / d;
    assert x == q * d + x % d;
    assert q * k <= q * d;
    assert x == x / k * k + x % k;
    AtLeastOnce(q - x / k, k);
  }

  /** The input undivided, halved, or divided by three or more. */
  lemma ValueLineClock(v: nat)
    ensures var f := 8_000_000 / (v + 1) * 6 % WORD; if v == 0 then f == 48_000_000 else if v == 1 then f == 24_000_000
            else f <= 16_000_000
  {
    if v >= 2 {
      DividedByMore(8_000_000, v + 1, 3);
    }
  }

  lemma FullClock(t: Target, f: nat, hpre: nat)
    requires hpre < 16 && (f == Hertz(t) || f <= 16_000_000)
    ensures f / Divisor(hpre) == Hertz(t) <==> f == Hertz(t) && hpre < 8
  {
    hide Divisor;
    if f == 0 {
      assert f / Divisor(hpre) == 0;
    } else {
      DivisorsAre(f, hpre);
    }
  }

  /** A PLL with the fields of a target, and PREDIV1 odd on the value line, gives its
      frequency exactly when no AHB divisor is in effect and, on the value line, nothing is
      left in the upper bits of PREDIV1. */
  lemma ReachesTarget(line: Line, t: Target, s: Settings)
    requires Supported(line, t) && SetFor(line, t, s) && s.hpre < 16 && (line == ValueLine ==> s.prediv1 % 2 == 1)
    ensures CoreClock(line, s) == Hertz(t) <==> s.hpre < 8 && (line == ValueLine ==> s.prediv1 == 1)
  {
    hide SysClock, Shr, Divisor, SetFor;
    SetForClock(line, t, s);
    ValueLineClock(s.prediv1);
    AhbIsDivision(SysClock(line, s), s.hpre);
    FullClock(t, SysClock(line, s), s.hpre);
  }

  // ---- when a setter reaches its frequency --------------------------------------------------------------

  predicate Unlocked(line: Line, on: bool, on2: bool, on3: bool) {
    !on && (line == Connectivity ==> !on2 && !on3)
  }

  /** The present settings with the PLL selected; a PLL2 that feeds it but is off gets the
      fields that every setter gives it. */
  function Running(line: Line, s: Settings, on2: bool, on3: bool): Settings {
    if line == Connectivity && s.pllHse && s.fromPll2 && !on2 then
      s.(source := 2, prediv2 := if on3 then s.prediv2 else 4, pll2mul := 6)
    else s.(source := 2)
  }

  /** What PLL2 gives when PREDIV2 is kept, and PLL2MUL if PLL2 is on. */
  function Pll2Kept(s: Settings, on2: bool): nat {
    Product(25_000_000 / (s.prediv2 + 1), (if on2 then s.pll2mul else 6) + 2)
  }

  /** When a setter reaches its frequency, from what the registers hold before. With every
      PLL off: no AHB divisor is set and, on the value line, PREDIV1 divides by one or two.
      With the PLL on: the PLL as it is set now gives the frequency. With the PLL off but
      PLL2 or PLL3 on: PLL2 as it is set now, divided for the target, gives the input that
      the target needs, times the AHB divisor. */
  predicate Reaches(line: Line, t: Target, s: Settings, on: bool, on2: bool, on3: bool)
    requires s.hpre < 16
  {
    if Unlocked(line, on, on2, on3) then s.hpre < 8 && (line == ValueLine ==> s.prediv1 < 2)
    else if on then CoreClock(line, Running(line, s, on2, on3)) == Hertz(t)
    else Pll2Kept(s, on2) / (TargetPrediv1(t) + 1) == Input(t) * Divisor(s.hpre)
  }

  /** A PLL that is on keeps running as it is, unless it is fed by a PLL2 that is off. */
  lemma LockedKeepsPll(line: Line, t: Target, s: Settings, on2: bool, on3: bool)
    requires s.hpre < 16 && (line == Connectivity && s.pllHse && s.fromPll2 ==> on2)
    ensures CoreClock(line, Left(line, t, s, true, on2, on3)) == CoreClock(line, s.(source := 2))
  {
    hide CoreClock, SysClock;
    SameClock(line, Left(line, t, s, true, on2, on3), s.(source := 2));
  }

  lemma RunningClock(line: Line, t: Target, s: Settings, on2: bool, on3: bool)
    requires s.hpre < 16
    ensures CoreClock(line, Left(line, t, s, true, on2, on3)) == CoreClock(line, Running(line, s, on2, on3))
  {
    hide CoreClock, SysClock;
    SameClock(line, Left(line, t, s, true, on2, on3), Running(line, s, on2, on3));
  }

  /** The clock from a PLL2 that is kept. */
  lemma KeptPll2Clock(t: Target, s: Settings, on2: bool, on3: bool)
    requires s.hpre < 16 && s.pll2mul < 16 && (on2 || on3)
    ensures CoreClock(Connectivity, Left(Connectivity, t, s, false, on2, on3)) ==
            Product(Pll2Kept(s, on2) / (TargetPrediv1(t) + 1), TargetMull(t) + 2) / Divisor(s.hpre)
  {
    hide Product, Shr, Divisor;
    var l := Left(Connectivity, t, s, false, on2, on3);
    var v := Pll2Kept(s, on2);
    AhbIsDivision(SysClock(Connectivity, l), s.hpre);
    DivideShrinks(25_000_000, s.prediv2 + 1);
    ProductBound(25_000_000 / (s.prediv2 + 1), l.pll2mul + 2, 25_000_000, 17);
    Unwrapped(25_000_000 / (s.prediv2 + 1), l.pll2mul + 2);
    DivideShrinks(v, TargetPrediv1(t) + 1);
    ProductBound(v / (TargetPrediv1(t) + 1), TargetMull(t) + 2, 425_000_000, 9);
    Unwrapped(v / (TargetPrediv1(t) + 1), TargetMull(t) + 2);
  }

  /** The value of a floor division. */
  lemma FloorIs(x: nat, d: nat, y: nat)
    requires d >= 1
    ensures x / d == y <==> y * d <= x < y * d + d
  {
    if y * d <= x < y * d + d {
      DivideIs(x, d, y, x - y * d);
    }
  }

  /** PLL2 gives a multiple of the crystal, or at most half of its highest frequency. */
  lemma Pll2Values(q: nat, a: nat, m: nat)
    requires a >= 1 && m <= 17 && q == 25_000_000 / a
    ensures Product(q, m) == 25_000_000 * m || Product(q, m) <= 212_500_000
  {
    if a >= 2 {
      DividedByMore(25_000_000, a, 2);
      ProductBound(q, m, 12_500_000, 17);
    }
  }

  /** The input of the PLL cannot lie just above a multiple of what the target needs. */
  lemma InputExactly(t: Target, v: nat, m: nat, hpre: nat)
    requires v == 25_000_000 * m || v <= 212_500_000
    requires m <= 17 && hpre < 16
    ensures var p := v / (TargetPrediv1(t) + 1);
            Product(p, TargetMull(t) + 2) / Divisor(hpre) == Hertz(t) <==> p == Input(t) * Divisor(hpre)
  {
    var b, f, d := TargetPrediv1(t) + 1, TargetMull(t) + 2, Divisor(hpre);
    var p := v / b;
    FloorIs(Product(p, f), d, Hertz(t));
    assert Hertz(t) == Input(t) * f;
    assert Hertz(t) * d == Product(Input(t) * d, f);
    if p > Input(t) * d {
      assert v >= p * b >= (Input(t) * d + 1) * b;
    }
  }

  lemma LeftReaches(line: Line, t: Target, s: Settings, on: bool, on2: bool, on3: bool)
    requires Supported(line, t) && s.hpre < 16 && s.pll2mul < 16
    ensures CoreClock(line, Left(line, t, s, on, on2, on3)) == Hertz(t) <==> Reaches(line, t, s, on, on2, on3)
  {
    hide CoreClock, SysClock, Product, Divisor;
    if Unlocked(line, on, on2, on3) {
      var l := Left(line, t, s, on, on2, on3);
      assert SetFor(line, t, l);
      ReachesTarget(line, t, l);
    } else if on {
      RunningClock(line, t, s, on2, on3);
    } else {
      var m := (if on2 then s.pll2mul else 6) + 2;
      KeptPll2Clock(t, s, on2, on3);
      Pll2Values(25_000_000 / (s.prediv2 + 1), s.prediv2 + 1, m);
      InputExactly(t, Pll2Kept(s, on2), m, s.hpre);
    }
  }

  /** With the PLL on, the setter reaches its frequency if the PLL fields are already those
      of the target, under the same conditions on the divisors. */
  lemma AlreadySet(line: Line, t: Target, s: Settings, on2: bool, on3: bool)
    requires Supported(line, t) && s.hpre < 16 && SetFor(line, t, s.(source := 2))
    requires line == ValueLine ==> s.prediv1 % 2 == 1
    ensures Reaches(line, t, s, true, on2, on3) <==> s.hpre < 8 && (line == ValueLine ==> s.prediv1 == 1)
  {
    var l := Left(line, t, s, true, on2, on3);
    assert SetFor(line, t, l);
    ReachesTarget(line, t, l);
    hide CoreClock, SysClock;
  }

  lemma LowCode()
    ensures Value(MullField(0x0011_000A)) == 4 && Value(HpreField(0x0011_000A)) == 0
    ensures PllHse(0x0011_000A) && !Xtpre(0x0011_000A)
  {
  }

  /** A device that runs at 48 MHz without a divisor and is told to run at 72 MHz stays at
      48 MHz: CFGR holds PLLMUL 6, PLLSRC and SW and SWS for the PLL. */
  lemma SetterIgnored()
    ensures var s := Decode(0x0011_000A, 0);
            s.hpre == 0 && CoreClock(Standard, Left(Standard, To72, s, true, false, false)) == 48_000_000
  {
    var s := Decode(0x0011_000A, 0);
    LowCode();
    assert s.pllHse && !s.xtpre && s.mull == 4 && s.hpre == 0;
    hide Decode;
    LockedKeepsPll(Standard, To72, s, false, false);
    Factors();
    hide Mul32;
  }

  /** On the internal oscillator without a divisor the clock is 8 MHz. */
  lemma ResetClock(line: Line, s: Settings)
    requires s.source == 0 && s.hpre < 8
    ensures CoreClock(line, s) == HSI
  {
    hide Shr;
    AhbIsDivision(HSI, s.hpre);
  }

  // ---- from the registers --------------------------------------------------------------------------------

  /** The core clock that the registers stand for. */
  function Rate(line: Line, cfgr: Word, cfgr2: Word): nat {
    HpreBound(cfgr);
    CoreClock(line, Decode(cfgr, cfgr2))
  }

  /** The core clock that a setter leaves. */
  function RateLeft(line: Line, t: Target, cfgr: Word, cfgr2: Word, on: bool, on2: bool, on3: bool): nat {
    HpreBound(cfgr);
    CoreClock(line, Left(line, t, Decode(cfgr, cfgr2), on, on2, on3))
  }

  predicate ReachesFrom(line: Line, t: Target, cfgr: Word, cfgr2: Word, on: bool, on2: bool, on3: bool) {
    HpreBound(cfgr);
    Reaches(line, t, Decode(cfgr, cfgr2), on, on2, on3)
  }

  // ---- examples ---------------------------------------------------------------------------------------

  lemma Halved()
    ensures Shr(8_000_000, 1) == 4_000_000
  {
    assert Shr(4_000_000, 0) == 4_000_000;
  }

  /** Clock settings by register value: the PLL at its highest factor from half the internal
      oscillator, and from half the crystal; the crystal, also behind an AHB divisor of two. */
  lemma StandardExamples()
    ensures Rate(Standard, 0x0038_0008, 0) == 64_000_000 && Rate(Standard, 0x0003_0008, 0) == 8_000_000
    ensures Rate(Standard, 0x0000_0004, 0) == 8_000_000 && Rate(Standard, 0x0000_0084, 0) == 4_000_000
  {
    Halved();
  }

  /** The crystal divided by three, times six. */
  lemma ValueLineExample()
    ensures Rate(ValueLine, 0x0011_0008, 2) == 15_999_996
  {
  }

  /** The crystal; a fifth of it times six and a half, cut to six; and PLL2. */
  lemma ConnectivityExamples()
    ensures Rate(Connectivity, 0x0000_0004, 0) == 25_000_000
    ensures Rate(Connectivity, 0x0035_0008, 4) == 30_000_000
    ensures Rate(Connectivity, 0x001D_0008, 0x0001_0644) == 72_000_000
  {
  }
}
