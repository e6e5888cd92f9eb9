/** The core clock computed from the clock configuration, in 32-bit integer steps
    (SystemCoreClockUpdate, USER/system_stm32f10x.c:306-412). */
module ClockTree {
  /** The three device lines, which derive the PLL input differently. */
  datatype Line = Standard | ValueLine | Connectivity

  const HSI: nat := 8_000_000
  const WORD: nat := 0x1_0000_0000

  /** The crystal each line is built for. */
  function Hse(line: Line): nat {
    if line == Connectivity then 25_000_000 else 8_000_000
  }

  /** The fields of CFGR and CFGR2 that the computation reads. */
  datatype Settings = Settings(
    source: nat, pllHse: bool, xtpre: bool, mull: nat, hpre: nat,
    prediv1: nat, fromPll2: bool, prediv2: nat, pll2mul: nat)

  predicate InFields(s: Settings) {
    s.source < 4 && s.mull < 16 && s.hpre < 16 && s.prediv1 < 16 && s.prediv2 < 16 && s.pll2mul < 16
  }

  /** Multiplier codes that the integer formula represents: on the connectivity line
      factors 4 to 9 of the PLL, and 8 to 14 and 16 of PLL2; elsewhere 2 to 16. */
  predicate Legal(line: Line, s: Settings) {
    InFields(s) &&
    if line == Connectivity then
      2 <= s.mull <= 7 && (s.fromPll2 ==> 6 <= s.pll2mul <= 12 || s.pll2mul == 14)
    else s.mull < 15
  }

  // ---- what the code computes ------------------------------------------------------------

  function Product(a: nat, b: nat): nat {
    a * b
  }

  /** Multiplication of 32-bit words. */
  function Mul32(a: nat, b: nat): nat {
    Product(a, b) % WORD
  }

  /** PLL factor; code 13 of the connectivity line stands for 6.5 and is cut to 6. */
  function PllFactor(line: Line, s: Settings): nat {
    if line == Connectivity && s.mull == 13 then 13 / 2 else s.mull + 2
  }

  /** Crystal, divided by PREDIV2, through PLL2, divided by PREDIV1. */
  function ThroughPll2(s: Settings): nat {
    Mul32(Hse(Connectivity) / (s.prediv2 + 1), s.pll2mul + 2) / (s.prediv1 + 1)
  }

  function PllInput(line: Line, s: Settings): nat {
    if !s.pllHse then HSI / 2
    else match line
      case Standard => if s.xtpre then Hse(line) / 2 else Hse(line)
      case ValueLine => Hse(line) / (s.prediv1 + 1)
      case Connectivity =>
        if !s.fromPll2 then Hse(line) / (s.prediv1 + 1)
        else ThroughPll2(s)
  }

  /** The clock before the AHB prescaler. */
  function SysClock(line: Line, s: Settings): nat {
    if s.source == 1 then Hse(line)
    else if s.source == 2 then Mul32(PllInput(line, s), PllFactor(line, s))
    else HSI
  }

  const AHB_SHIFTS: seq<nat> := [0, 0, 0, 0, 0, 0, 0, 0, 1, 2, 3, 4, 6, 7, 8, 9]

  /** Right shift. */
  function Shr(x: nat, n: nat): nat {
    if n == 0 then x else Shr(x / 2, n - 1)
  }

  function CoreClock(line: Line, s: Settings): nat
    requires s.hpre < 16
  {
    Shr(SysClock(line, s), AHB_SHIFTS[s.hpre])
  }

  // ---- the AHB prescaler ---------------------------------------------------------------------

  /** The divisor that the header names for each code of HPRE. */
  function Divisor(hpre: nat): (d: nat)
    ensures d >= 1
  {
    match hpre
    case 8 => 2
    case 9 => 4
    case 10 => 8
    case 11 => 16
    case 12 => 64
    case 13 => 128
    case 14 => 256
    case 15 => 512
    case _ => 1
  }

  function Pow2(n: nat): (p: nat)
    ensures p >= 1
  {
    if n == 0 then 1 else 2 * Pow2(n - 1)
  }

  lemma AtLeastOnce(k: int, d: nat)
    ensures (k >= 1 ==> k * d >= d) && (k <= -1 ==> k * d <= -(d as int))
  {
  }

  lemma DivideIs(x: nat, d: nat, q: nat, r: nat)
    requires d >= 1 && r < d && x == q * d + r
    ensures x / d == q
  {
    var k := x / d - q;
    assert k * d == r - x % d;
    AtLeastOnce(k, d);
  }

  lemma HalfThenDivide(x: nat, d: nat)
    requires d >= 1
    ensures x / 2 / d == x / (2 * d)
  {
    var q := x / (2 * d);
    var r := x % (2 * d);
    assert x == q * (2 * d) + r;
    assert x / 2 == q * d + r / 2;
    assert r / 2 < d;
    DivideIs(x / 2, d, q, r / 2);
  }

  lemma {:induction false} ShrDivides(x: nat, n: nat)
    ensures Shr(x, n) == x / Pow2(n)
  {
    if n == 0 {
    } else {
      ShrDivides(x / 2, n - 1);
      HalfThenDivide(x, Pow2(n - 1));
    }
  }

  lemma PowersOfTwo()
    ensures Pow2(0) == 1 && Pow2(1) == 2 && Pow2(2) == 4 && Pow2(3) == 8 && Pow2(4) == 16
    ensures Pow2(6) == 64 && Pow2(7) == 128 && Pow2(8) == 256 && Pow2(9) == 512
  {
    assert Pow2(2) == 4;
    assert Pow2(4) == 16;
    assert Pow2(6) == 64;
    assert Pow2(8) == 256;
  }

  /** The shift table is exact floor division by the named divisor. */
  lemma AhbIsDivision(x: nat, hpre: nat)
    requires hpre < 16
    ensures Shr(x, AHB_SHIFTS[hpre]) == x / Divisor(hpre)
  {
    ShrDivides(x, AHB_SHIFTS[hpre]);
    PowersOfTwo();
  }

  // ---- the exact frequency ---------------------------------------------------------------------

  function Ratio(a: nat, b: nat): real
    requires b >= 1
  {
    a as real / b as real
  }

  function Scaled(x: real, k: nat): real {
    x * k as real
  }

  function ExactThroughPll2(s: Settings): real {
    Scaled(Ratio(Hse(Connectivity), s.prediv2 + 1), s.pll2mul + 2) / (s.prediv1 + 1) as real
  }

  function ExactInput(line: Line, s: Settings): real {
    if !s.pllHse then Ratio(HSI, 2)
    else match line
      case Standard => if s.xtpre then Ratio(Hse(line), 2) else Hse(line) as real
      case ValueLine => Ratio(Hse(line), s.prediv1 + 1)
      case Connectivity =>
        if !s.fromPll2 then Ratio(Hse(line), s.prediv1 + 1)
        else ExactThroughPll2(s)
  }

  /** The frequency of the oscillator and PLL chain before the AHB prescaler. */
  function Exact(line: Line, s: Settings): real {
    if s.source == 1 then Hse(line) as real
    else if s.source == 2 then Scaled(ExactInput(line, s), s.mull + 2)
    else HSI as real
  }

  /** Bound on what the integer divisions lose before the AHB prescaler. */
  function Loss(line: Line, s: Settings): real {
    if s.source != 2 || !s.pllHse || line == Standard then 0.0
    else if line == Connectivity && s.fromPll2 then
      Scaled(Ratio(s.pll2mul + 2, s.prediv1 + 1) + 1.0, s.mull + 2)
    else (s.mull + 2) as real
  }

  /** The input of PLL2. */
  function Pll2Input(s: Settings): nat {
    25_000_000 / (s.prediv2 + 1)
  }

  lemma DivideShrinks(x: nat, d: nat)
    requires d >= 1
    ensures x / d <= x
  {
    assert x == x / d * d + x % d;
  }

  lemma Pll2InputIs(s: Settings)
    ensures Pll2Input(s) == Hse(Connectivity) / (s.prediv2 + 1) <= 25_000_000
  {
    DivideShrinks(25_000_000, s.prediv2 + 1);
  }

  lemma ProductBound(a: nat, b: nat, x: nat, y: nat)
    requires a <= x && b <= y
    ensures Product(a, b) <= x * y
  {
    assert a * b <= x * b <= x * y;
  }

  lemma Pll2Product(s: Settings)
    requires Legal(Connectivity, s) && s.fromPll2
    ensures Product(Hse(Connectivity) / (s.prediv2 + 1), s.pll2mul + 2) <= 400_000_000
  {
    hide Product;
    Pll2InputIs(s);
    ProductBound(Pll2Input(s), s.pll2mul + 2, 25_000_000, 16);
  }

  lemma Unwrapped(a: nat, b: nat)
    requires Product(a, b) < WORD
    ensures Mul32(a, b) == Product(a, b)
  {
    hide Product;
  }

  lemma InputBounded(line: Line, s: Settings)
    requires Legal(line, s)
    ensures PllInput(line, s) <= if line == Connectivity then 400_000_000 else 8_000_000
  {
    hide Product, Mul32;
    DivideShrinks(Hse(line), s.prediv1 + 1);
    if line == Connectivity && s.fromPll2 {
      Pll2Product(s);
      Unwrapped(Hse(line) / (s.prediv2 + 1), s.pll2mul + 2);
      DivideShrinks(Product(Hse(line) / (s.prediv2 + 1), s.pll2mul + 2), s.prediv1 + 1);
    }
  }

  /** No product of a legal setting wraps. */
  lemma NeverWraps(line: Line, s: Settings)
    requires Legal(line, s)
    ensures Product(PllInput(line, s), PllFactor(line, s)) < WORD
    ensures line == Connectivity && s.fromPll2 ==> Product(Hse(line) / (s.prediv2 + 1), s.pll2mul + 2) < WORD
  {
    hide Product;
    hide PllInput;
    if line == Connectivity && s.fromPll2 {
      Pll2Product(s);
    }
    InputBounded(line, s);
    if line == Connectivity {
      ProductBound(PllInput(line, s), PllFactor(line, s), 400_000_000, 9);
    } else {
      ProductBound(PllInput(line, s), PllFactor(line, s), 8_000_000, 16);
    }
  }

  /** A product does wrap for a code the data sheet leaves out: factor 17 of the PLL with
      factor 16 of PLL2. */
  lemma WrapsOutsideLegal()
    ensures var s := Settings(2, true, false, 15, 0, 0, true, 0, 14);
            InFields(s) && Product(PllInput(Connectivity, s), PllFactor(Connectivity, s)) >= WORD
  {
  }

  // ---- one integer division ----------------------------------------------------------------------

  lemma Distribute(f: real, q: real, d: real)
    ensures (f - q) * d == f * d - q * d
  {
  }

  lemma AtLeastOne(t: real, d: real)
    requires d > 0.0
    ensures (t >= 1.0 ==> t * d >= d) && (t < 0.0 ==> t * d < 0.0)
  {
    if t >= 1.0 {
      assert (t - 1.0) * d >= 0.0;
    }
  }

  lemma RatioIs(x: real, d: real, q: real, r: real)
    requires d > 0.0 && x == q * d + r && 0.0 <= r < d
    ensures q <= x / d < q + 1.0
  {
    var t := x / d - q;
    assert x / d * d == x;
    Distribute(x / d, q, d);
    assert t * d == r;
    AtLeastOne(t, d);
  }

  /** The floor of a division is at most the exact quotient and less than one below. */
  lemma FloorLoss(x: nat, d: nat)
    requires d >= 1
    ensures (x / d) as real <= Ratio(x, d) < (x / d) as real + 1.0
  {
    var q, r := x / d, x % d;
    assert x == q * d + r && r < d;
    assert x as real == q as real * d as real + r as real;
    RatioIs(x as real, d as real, q as real, r as real);
  }

  /** Multiplying a value between `a` and `a + w`. */
  lemma Multiplied(a: real, x: real, w: real, m: real)
    requires m > 0.0 && a <= x < a + w
    ensures a * m <= x * m < a * m + w * m
  {
    assert (x - a) * m >= 0.0;
    assert (a + w - x) * m > 0.0;
  }

  lemma Divided(a: real, x: real, w: real, p: real)
    requires p > 0.0 && a <= x < a + w
    ensures a / p <= x / p < a / p + w / p
  {
    Multiplied(a, x, w, 1.0 / p);
    assert a / p == a * (1.0 / p) && x / p == x * (1.0 / p) && w / p == w * (1.0 / p);
  }

  lemma ProductIsReal(i: nat, k: nat)
    ensures Product(i, k) as real == Scaled(i as real, k)
  {
  }

  lemma ProductLoss(i: nat, x: real, w: real, k: nat)
    requires k >= 1 && i as real <= x < i as real + w
    ensures Product(i, k) as real <= Scaled(x, k) < Product(i, k) as real + Scaled(w, k)
  {
    ProductIsReal(i, k);
    Multiplied(i as real, x, w, k as real);
  }

  lemma FirstDivision(h: nat, p2: nat, m2: nat)
    requires p2 >= 1 && m2 >= 1
    ensures var n := Product(h / p2, m2);
            n as real <= Scaled(Ratio(h, p2), m2) < n as real + m2 as real
  {
    FloorLoss(h, p2);
    ProductLoss(h / p2, Ratio(h, p2), 1.0, m2);
    assert Scaled(1.0, m2) == m2 as real;
    hide Scaled, Product, Ratio;
  }

  lemma SecondDivision(n: nat, y: real, w: nat, p: nat)
    requires p >= 1 && n as real <= y < n as real + w as real
    ensures (n / p) as real <= y / p as real < (n / p) as real + Ratio(w, p) + 1.0
  {
    FloorLoss(n, p);
    Divided(n as real, y, w as real, p as real);
  }

  /** Two divisions with a factor between them: the loss of the first is scaled by the
      factor and the second divisor, and the second loses less than one more. */
  lemma TwoDivisions(h: nat, p2: nat, m2: nat, p1: nat)
    requires p2 >= 1 && m2 >= 1 && p1 >= 1
    ensures var q := Product(h / p2, m2) / p1;
            q as real <= Scaled(Ratio(h, p2), m2) / p1 as real < q as real + Ratio(m2, p1) + 1.0
  {
    hide Scaled, Product;
    FirstDivision(h, p2, m2);
    SecondDivision(Product(h / p2, m2), Scaled(Ratio(h, p2), m2), m2, p1);
  }

  // ---- the error bound ------------------------------------------------------------------------------

  /** Whether the PLL input goes through an integer division that may lose. */
  predicate Divides(line: Line, s: Settings) {
    s.pllHse && line != Standard
  }

  function InputLoss(line: Line, s: Settings): real {
    if line == Connectivity && s.fromPll2 then Ratio(s.pll2mul + 2, s.prediv1 + 1) + 1.0 else 1.0
  }

  lemma Pll2Unwrapped(s: Settings)
    requires Legal(Connectivity, s) && s.fromPll2
    ensures ThroughPll2(s) == Product(Hse(Connectivity) / (s.prediv2 + 1), s.pll2mul + 2) / (s.prediv1 + 1)
  {
    hide Product, Mul32, Hse;
    Pll2Product(s);
    Unwrapped(Hse(Connectivity) / (s.prediv2 + 1), s.pll2mul + 2);
  }

  lemma Pll2Bound(s: Settings)
    requires Legal(Connectivity, s) && s.fromPll2
    ensures ThroughPll2(s) as real <= ExactThroughPll2(s)
    ensures ExactThroughPll2(s) < ThroughPll2(s) as real + InputLoss(Connectivity, s)
  {
    hide Ratio, Product, Scaled, Hse, ThroughPll2, Legal;
    Pll2Unwrapped(s);
    TwoDivisions(Hse(Connectivity), s.prediv2 + 1, s.pll2mul + 2, s.prediv1 + 1);
  }

  lemma InputBound(line: Line, s: Settings)
    requires Legal(line, s) && Divides(line, s)
    ensures PllInput(line, s) as real <= ExactInput(line, s)
    ensures ExactInput(line, s) < PllInput(line, s) as real + InputLoss(line, s)
  {
    hide Ratio;
    if line == Connectivity && s.fromPll2 {
      Pll2Bound(s);
    } else {
      FloorLoss(Hse(line), s.prediv1 + 1);
    }
  }

  lemma InputExact(line: Line, s: Settings)
    requires !Divides(line, s)
    ensures ExactInput(line, s) == PllInput(line, s) as real
  {
  }

  lemma PllExpands(line: Line, s: Settings)
    requires Legal(line, s) && s.source == 2
    ensures SysClock(line, s) == Product(PllInput(line, s), s.mull + 2)
    ensures Exact(line, s) == Scaled(ExactInput(line, s), s.mull + 2)
  {
    hide PllInput, ExactInput, Product, Mul32, Scaled;
    NeverWraps(line, s);
    Unwrapped(PllInput(line, s), s.mull + 2);
  }

  /** The loss of the PLL input, scaled by the factor. */
  lemma PllBound(line: Line, s: Settings)
    requires Legal(line, s) && s.source == 2 && Divides(line, s)
    ensures var c := SysClock(line, s) as real;
            c <= Exact(line, s) < c + Scaled(InputLoss(line, s), s.mull + 2)
  {
    hide *;
    PllExpands(line, s);
    InputBound(line, s);
    ProductLoss(PllInput(line, s), ExactInput(line, s), InputLoss(line, s), s.mull + 2);
  }

  lemma LossIs(line: Line, s: Settings)
    requires s.source == 2 && Divides(line, s)
    ensures Loss(line, s) == Scaled(InputLoss(line, s), s.mull + 2)
  {
    hide Ratio;
  }

  lemma PllExact(line: Line, s: Settings)
    requires Legal(line, s) && s.source == 2 && !Divides(line, s)
    ensures SysClock(line, s) as real == Exact(line, s)
  {
    hide *;
    PllExpands(line, s);
    InputExact(line, s);
    ProductIsReal(PllInput(line, s), s.mull + 2);
  }

  /** For every legal setting the computed clock is the exact one or falls short of it by
      less than the bound, and never exceeds it. */
  lemma SysClockBound(line: Line, s: Settings)
    requires Legal(line, s)
    ensures var c := SysClock(line, s) as real;
            c <= Exact(line, s) && (c == Exact(line, s) || Exact(line, s) < c + Loss(line, s))
  {
    if s.source == 2 {
      if Divides(line, s) {
        PllBound(line, s);
        LossIs(line, s);
      } else {
        PllExact(line, s);
      }
      hide SysClock, Exact, Loss, InputLoss, Divides;
    }
  }

  lemma FinalDivision(f: nat, x: real, w: real, d: nat)
    requires d >= 1 && w >= 0.0 && f as real <= x && (x == f as real || x < f as real + w)
    ensures (f / d) as real <= x / d as real < (f / d) as real + 1.0 + w / d as real
  {
    FloorLoss(f, d);
    if x == f as real {
      assert w / d as real >= 0.0;
    } else {
      Divided(f as real, x, w, d as real);
    }
  }

  lemma LossNotNegative(line: Line, s: Settings)
    ensures Loss(line, s) >= 0.0
  {
    assert Ratio(s.pll2mul + 2, s.prediv1 + 1) >= 0.0;
  }

  /** After the prescaler the result is still at most the exact frequency, and less than
      one hertz more is lost. */
  lemma CoreClockBound(line: Line, s: Settings)
    requires Legal(line, s)
    ensures var c := CoreClock(line, s) as real; var d := Divisor(s.hpre) as real;
            c <= Exact(line, s) / d < c + 1.0 + Loss(line, s) / d
  {
    hide SysClock, Exact, Loss, Divisor, Shr;
    AhbIsDivision(SysClock(line, s), s.hpre);
    SysClockBound(line, s);
    LossNotNegative(line, s);
    FinalDivision(SysClock(line, s), Exact(line, s), Loss(line, s), Divisor(s.hpre));
  }
}
