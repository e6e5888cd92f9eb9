/** Setting up the system clock after reset: SystemInit, the SetSysClockTo variants and
    SystemCoreClockUpdate (USER/system_stm32f10x.c).

    The hardware is an environment: it decides at each read whether the crystal is ready,
    after how many polls a PLL locks and the clock switches, and when the clock leaves a PLL
    that is being turned off. */
module ClockSetup {
  import opened Words
  import opened ClockTree
  import opened ClockFields
  import opened ClockRegisters

  const HSE_STARTUP_TIMEOUT: nat := 0x500

  /** When the hardware switches back to the internal oscillator, once SystemInit has selected
      it: before the write that turns the PLL off, between that and the write that turns PLL2
      off, later, or not before SystemInit returns or selects the PLL. */
  datatype Moment = BeforePllOff | BeforePll2Off | Later | Never

  /** `hse(k)` is the crystal's ready flag at the k-th read; the delays count polls. */
  datatype Environment = Environment(
    hse: nat -> bool, pll2Delay: nat, pllDelay: nat, switchDelay: nat, switchBack: Moment)

  // ---- the crystal ----------------------------------------------------------------------------

  /** How many reads the bounded wait makes: up to the first ready one, or the timeout. */
  function Reads(hse: nat -> bool, k: nat): (n: nat)
    requires k < HSE_STARTUP_TIMEOUT
    ensures k < n <= HSE_STARTUP_TIMEOUT
    decreases HSE_STARTUP_TIMEOUT - k
  {
    if hse(k) || k + 1 == HSE_STARTUP_TIMEOUT then k + 1 else Reads(hse, k + 1)
  }

  /** The crystal counts as started: it is ready at the read after the wait. */
  predicate Starts(hse: nat -> bool) {
    hse(Reads(hse, 0))
  }

  lemma {:induction false} ReadsAre(hse: nat -> bool, k: nat, n: nat)
    requires k < n <= HSE_STARTUP_TIMEOUT
    requires (forall i: nat | k <= i < n - 1 :: !hse(i)) && (hse(n - 1) || n == HSE_STARTUP_TIMEOUT)
    ensures Reads(hse, k) == n
    decreases n - k
  {
    if k + 1 == n {
    } else {
      ReadsAre(hse, k + 1, n);
    }
  }

  lemma {:induction false} ReadsEnd(hse: nat -> bool, k: nat)
    requires k < HSE_STARTUP_TIMEOUT
    ensures hse(Reads(hse, k) - 1) || Reads(hse, k) == HSE_STARTUP_TIMEOUT
    decreases HSE_STARTUP_TIMEOUT - k
  {
    if hse(k) || k + 1 == HSE_STARTUP_TIMEOUT {
    } else {
      ReadsEnd(hse, k + 1);
    }
  }

  /** A crystal that stays ready once it is counts as started exactly when it is ready by
      the end of the timeout. */
  lemma SteadyCrystal(hse: nat -> bool)
    requires forall i: nat, j: nat | i <= j && hse(i) :: hse(j)
    ensures Starts(hse) <==> hse(0x500)
  {
    ReadsEnd(hse, 0);
  }

  /** The PLL still drives the system clock when it is turned off. */
  predicate Busy(cfgr: Word, env: Environment) {
    Status(cfgr) == 8 && env.switchBack != BeforePllOff
  }

  /** A PLL2 that feeds this PLL cannot be turned off either. */
  predicate Fed(env: Environment) {
    env.switchBack != BeforePll2Off
  }

  // ---- the clock that a setter leaves ----------------------------------------------------------

  lemma BusesSet(t: Target, c: Word)
    requires BusBits(c) == ApbBits(t)
    ensures BusesFor(t, c)
  {
    hide BusesFor, ApbBits;
    BusBitsFor(t, c);
  }

  lemma DecodedBounds(cfgr: Word, cfgr2: Word)
    ensures Decode(cfgr, cfgr2).hpre < 16 && Decode(cfgr, cfgr2).pll2mul < 16
  {
    hide Value;
    HpreBound(cfgr);
    Pll2mulBound(cfgr2);
  }

  /** The clock that settled registers give. */
  lemma RateSettled(line: Line, t: Target, c: Word, d: Word, on: bool, on2: bool, on3: bool, c': Word, d': Word)
    requires Supported(line, t) && Settled(line, t, c, d, on, on2, on3, c', d')
    requires Status(c') == 8 && HpreField(c') == HpreField(c)
    ensures Rate(line, c', d') == RateLeft(line, t, c, d, on, on2, on3)
    ensures Rate(line, c', d') == Hertz(t) <==> ReachesFrom(line, t, c, d, on, on2, on3)
  {
    hide Settled, Status, HpreField, Agree, CoreClock, Left, Reaches, Decode;
    SettledLeaves(line, t, c, d, on, on2, on3, c', d');
    DecodedBounds(c, d);
    DecodedBounds(c', d');
    SameClock(line, Decode(c', d'), Left(line, t, Decode(c, d), on, on2, on3));
    LeftReaches(line, t, Decode(c, d), on, on2, on3);
  }

  // ---- the clock after SystemInit ------------------------------------------------------------------

  /** What the core runs at when SystemInit returns. If the crystal starts: the target if the
      PLL could be turned off, otherwise that PLL as it was, undivided, with a PLL2 that could
      be turned off set up anew. Without the crystal: the internal oscillator if the clock was
      switched back to it, otherwise the system clock from before, undivided. */
  function ClockAfterInit(line: Line, t: Target, cfgr: Word, cfgr2: Word, env: Environment): nat {
    if Starts(env.hse) then
      if Busy(cfgr, env) then SysClock(line, Running(line, Decode(cfgr, cfgr2), Fed(env), false)) else Hertz(t)
    else
      if env.switchBack.Never? then SysClock(line, Decode(cfgr, cfgr2)) else HSI
  }

  /** The registers that reset leaves when no PLL is on: a setter reaches its target. */
  lemma ResetReaches(line: Line, t: Target, c: Word, d: Word, on2: bool, on3: bool)
    requires BusBits(c) == 0 && (line == Connectivity ==> !on2 && !on3)
    requires line == ValueLine ==> Prediv1Field(d) == 0
    ensures ReachesFrom(line, t, c, d, false, on2, on3)
  {
    NoBusBits(c);
    hide Value, BusBits, HpreField, Prediv1Field, SourceField, MullField, Prediv2Field, Pll2mulField, PllHse, Xtpre,
         FromPll2, CoreClock, Left;
  }

  /** What the reset of the clocks leaves: `c'` and `d'` from `c` and `d`. */
  predicate IsReset(line: Line, c: Word, d: Word, env: Environment, c': Word, d': Word, on2: bool, on3: bool) {
    BusBits(c') == 0 && (Status(c') == if env.switchBack.Never? then Status(c) else 0) &&
    (line == Connectivity ==> !on3) &&
    if Busy(c, env) then
      KeptPll(line, c, d, c', d', Fed(env)) &&
      (line == Connectivity && PllHse(c') && FromPll2(d') ==> on2 == Fed(env))
    else
      (line == Connectivity ==> !on2) && (line == ValueLine ==> Prediv1Field(d') == 0)
  }

  lemma SameInput(line: Line, b: Settings)
    ensures PllInput(line, b.(hpre := 0)) == PllInput(line, b)
  {
  }

  /** A system clock that keeps running loses its AHB divisor. */
  lemma SameUndivided(line: Line, a: Settings, b: Settings)
    requires Agree(line, a, b.(hpre := 0))
    ensures a.hpre < 16 && CoreClock(line, a) == SysClock(line, b)
  {
    hide Mul32, PllInput;
    SameClock(line, a, b.(hpre := 0));
    assert SysClock(line, b.(hpre := 0)) == SysClock(line, b) by {
      SameInput(line, b);
    }
  }

  lemma ZeroValue()
    ensures Value(0) == 0
  {
  }

  lemma BusyAgree(line: Line, t: Target, c: Word, d: Word, c': Word, d': Word, fed: bool, on2: bool, on3: bool)
    requires Status(c) == 8 && BusBits(c') == 0 && KeptPll(line, c, d, c', d', fed)
    requires line == Connectivity ==> !on3 && (PllHse(c') && FromPll2(d') ==> on2 == fed)
    ensures Agree(line, Left(line, t, Decode(c', d'), true, on2, on3),
                  Running(line, Decode(c, d), fed, false).(hpre := 0))
  {
    hide Value, Status, BusBits, HpreField, Prediv1Field, SourceField, MullField, Prediv2Field, Pll2mulField, PllHse,
         Xtpre, FromPll2;
    NoBusBits(c');
    SourceOfStatus(c);
    ZeroValue();
  }

  /** A PLL that was on all along is what a setter leaves. */
  lemma BusyKeeps(line: Line, t: Target, c: Word, d: Word, c': Word, d': Word, fed: bool, on2: bool, on3: bool)
    requires Status(c) == 8 && BusBits(c') == 0 && KeptPll(line, c, d, c', d', fed)
    requires line == Connectivity ==> !on3 && (PllHse(c') && FromPll2(d') ==> on2 == fed)
    ensures RateLeft(line, t, c', d', true, on2, on3) == SysClock(line, Running(line, Decode(c, d), fed, false))
  {
    hide Status, BusBits, HpreField, Value, KeptPll, PllHse, FromPll2, CoreClock, SysClock, Left, Running, Decode, Agree;
    HpreBound(c');
    BusyAgree(line, t, c, d, c', d', fed, on2, on3);
    SameUndivided(line, Left(line, t, Decode(c', d'), true, on2, on3), Running(line, Decode(c, d), fed, false));
  }

  lemma NotPll(c: Word)
    requires Status(c) != 8
    ensures Value(SourceField(c)) != 2
  {
  }

  /** Without the setter: the system clock before, undivided. */
  lemma ResetKeeps(line: Line, c: Word, d: Word, c': Word, d': Word)
    requires Status(c') == Status(c) && BusBits(c') == 0 && (Status(c) == 8 ==> KeptPll(line, c, d, c', d', true))
    ensures Rate(line, c', d') == SysClock(line, Decode(c, d))
  {
    NoBusBits(c');
    if Status(c) != 8 {
      NotPll(c);
    }
    hide Value, Status, BusBits, HpreField, Prediv1Field, SourceField, MullField, Prediv2Field, Pll2mulField, PllHse,
         Xtpre, FromPll2, CoreClock, SysClock;
    SameUndivided(line, Decode(c', d'), Decode(c, d));
  }

  lemma ResetSource(line: Line, c: Word, d: Word)
    ensures Status(c) == 0 ==> SysClock(line, Decode(c, d)) == HSI
  {
    if Status(c) == 0 {
      SourceOfReset(c);
    }
    hide Value, Status, SourceField, MullField, HpreField, Prediv1Field, Prediv2Field, Pll2mulField, PllHse, Xtpre,
         FromPll2, PllInput, Mul32;
  }

  lemma SwitchedRate(line: Line, c: Word, d: Word)
    requires Status(c) == 0 && BusBits(c) == 0
    ensures Rate(line, c, d) == HSI
  {
    NoBusBits(c);
    SourceOfReset(c);
    hide Value, Status, BusBits, HpreField, Prediv1Field, SourceField, MullField, Prediv2Field, Pll2mulField, PllHse,
         Xtpre, FromPll2, CoreClock;
    ResetClock(line, Decode(c, d));
  }

  /** The clock after a reset, and what a setter then makes of it. */
  lemma AfterReset(line: Line, t: Target, c: Word, d: Word, env: Environment, c': Word, d': Word, on2: bool, on3: bool)
    requires IsReset(line, c, d, env, c', d', on2, on3)
    ensures Rate(line, c', d') == if env.switchBack.Never? then SysClock(line, Decode(c, d)) else HSI
    ensures if Busy(c, env) then
              RateLeft(line, t, c', d', true, on2, on3) == SysClock(line, Running(line, Decode(c, d), Fed(env), false))
            else ReachesFrom(line, t, c', d', false, on2, on3)
  {
    hide BusBits, Status, PllHse, FromPll2, Rate, RateLeft, ReachesFrom, KeptPll, SysClock, Prediv1Field, Decode,
         Running;
    if Busy(c, env) {
      BusyKeeps(line, t, c, d, c', d', Fed(env), on2, on3);
    } else {
      ResetReaches(line, t, c', d', on2, on3);
    }
    if env.switchBack.Never? {
      ResetKeeps(line, c, d, c', d');
    } else {
      SwitchedRate(line, c', d');
    }
  }

  // ---- the driver --------------------------------------------------------------------------------------

  class Rcc {
    const line: Line
    var CFGR: Word
    var CFGR2: Word
    var ACR: Word
    var hseOn: bool
    var pllOn: bool
    var pllReady: bool
    var pll2On: bool
    var pll2Ready: bool
    var pll3On: bool
    var SystemCoreClock: nat

    predicate InSync()
      reads this
    {
      Synced(line, CFGR, CFGR2)
    }

    /** A PLL that drives the system clock is on, and so is a PLL that is ready. */
    predicate Valid()
      reads this
    {
      InSync() && (Status(CFGR) == 8 ==> pllOn) && (pllReady ==> pllOn) && (pll2Ready ==> pll2On) &&
      (line == Connectivity && Status(CFGR) == 8 && PllHse(CFGR) && FromPll2(CFGR2) ==> pll2On)
    }

    /** The registers after a hardware reset. */
    constructor (line: Line, t: Target)
      ensures Valid() && Status(CFGR) == 0 && !pllOn && !pll2On && SystemCoreClock == Hertz(t) && this.line == line
    {
      this.line := line;
      CFGR, CFGR2, ACR := 0, 0, 0;
      hseOn, pllOn, pllReady, pll2On, pll2Ready, pll3On := false, false, false, false, false, false;
      SystemCoreClock := Hertz(t);
    }

    method WriteCFGR(v: Word)
      modifies this`CFGR, this`CFGR2
      ensures CFGR == Stored(old(CFGR), v, pllOn) && CFGR2 == Follow(line, old(CFGR2), CFGR) && InSync()
    {
      hide Stored, Follow, Synced;
      CFGR := Stored(CFGR, v, pllOn);
      FollowSync(line, CFGR2, CFGR);
      CFGR2 := Follow(line, CFGR2, CFGR);
    }

    method WriteCFGR2(v: Word)
      modifies this`CFGR, this`CFGR2
      ensures CFGR2 == StoredDividers(old(CFGR2), v, pllOn, pll2On, pll3On)
      ensures CFGR == Precede(line, old(CFGR), CFGR2) && InSync()
    {
      hide StoredDividers, Precede, Synced;
      CFGR2 := StoredDividers(CFGR2, v, pllOn, pll2On, pll3On);
      PrecedeSync(line, CFGR, CFGR2);
      CFGR := Precede(line, CFGR, CFGR2);
    }

    method ClearCFGR(mask: Word)
      requires mask & 0x003F_000C == 0 && InSync()
      modifies this`CFGR, this`CFGR2
      ensures CFGR == Outside(old(CFGR), mask) && CFGR2 == old(CFGR2) && InSync()
    {
      hide Stored, Follow, Outside, PllPart, Synced;
      StoredClear(CFGR, mask, pllOn);
      OutsidePll(CFGR, mask);
      SameSynced(line, CFGR, Outside(CFGR, mask), CFGR2);
      FollowKeeps(line, CFGR2, Outside(CFGR, mask));
      WriteCFGR(Outside(CFGR, mask));
    }

    method SetCFGR(bits: Word)
      requires bits & 0x003F_000C == 0 && InSync()
      modifies this`CFGR, this`CFGR2
      ensures CFGR == Joined(old(CFGR), bits) && CFGR2 == old(CFGR2) && InSync()
    {
      hide Stored, Follow, Joined, PllPart, Synced;
      StoredSet(CFGR, bits, pllOn);
      JoinedPll(CFGR, bits);
      SameSynced(line, CFGR, Joined(CFGR, bits), CFGR2);
      FollowKeeps(line, CFGR2, Joined(CFGR, bits));
      WriteCFGR(Joined(CFGR, bits));
    }

    /** Clear the PLL fields, then set them; both writes are ignored while the PLL is on. */
    method EditPll(bits: Word)
      requires bits & !0x003F_0000 == 0 && InSync()
      modifies this`CFGR, this`CFGR2
      ensures CFGR == PllEdited(old(CFGR), bits, pllOn) && CFGR2 == Follow(line, old(CFGR2), CFGR) && InSync()
    {
      ghost var c, d := CFGR, CFGR2;
      if pllOn {
        ClearedOn(c);
      } else {
        ClearedOff(c);
        SetOff(Outside(c, 0x003F_0000), bits);
        SpliceParts(c, 0x003F_0000, bits);
      }
      hide Stored, Follow, Outside, Joined, Splice, Synced;
      WriteCFGR(Outside(CFGR, 0x003F_0000));
      ghost var c1 := CFGR;
      WriteCFGR(Joined(CFGR, bits));
      FollowTwice(line, d, c1, CFGR);
    }

    method EditDividers(bits: Word)
      modifies this`CFGR, this`CFGR2
      ensures CFGR2 == DividersEdited(old(CFGR2), bits, pllOn, pll2On, pll3On)
      ensures CFGR == Precede(line, old(CFGR), CFGR2) && InSync()
    {
      hide StoredDividers, Precede, Outside, Joined, Synced;
      ghost var c := CFGR;
      WriteCFGR2(Outside(CFGR2, 0x0001_0FFF));
      ghost var d1 := CFGR2;
      WriteCFGR2(Joined(CFGR2, bits));
      PrecedeTwice(line, c, d1, CFGR2);
    }

    /** Bounded wait for the crystal, whatever it does: the loop ends at the first read
        that sees it ready or at the timeout, and the flag is read once more. */
    static method WaitForHse(hse: nat -> bool) returns (ready: bool, count: nat)
      ensures 1 <= count <= 0x500
      ensures forall k: nat | k < count - 1 :: !hse(k)
      ensures hse(count - 1) || count == 0x500
      ensures ready == hse(count) && (ready <==> Starts(hse))
    {
      var status := hse(0);
      count := 1;
      while !status && count != HSE_STARTUP_TIMEOUT
        invariant 1 <= count <= HSE_STARTUP_TIMEOUT
        invariant status == hse(count - 1)
        invariant forall k: nat | k < count - 1 :: !hse(k)
        decreases HSE_STARTUP_TIMEOUT - count
      {
        status := hse(count);
        count := count + 1;
      }
      ready := hse(count);
      ReadsAre(hse, 0, count);
    }

    /** The waits without a bound end when the hardware does its part. */
    method AwaitPll(delay: nat)
      modifies this`pllReady
      ensures pllReady
    {
      var polls := 0;
      while !pllReady
        invariant 0 < polls && delay <= polls ==> pllReady
        decreases if pllReady then 0 else delay + 1 - polls
      {
        polls := polls + 1;
        if delay <= polls {
          pllReady := true;
        }
      }
    }

    method AwaitPll2(delay: nat)
      modifies this`pll2Ready
      ensures pll2Ready
    {
      var polls := 0;
      while !pll2Ready
        invariant 0 < polls && delay <= polls ==> pll2Ready
        decreases if pll2Ready then 0 else delay + 1 - polls
      {
        polls := polls + 1;
        if delay <= polls {
          pll2Ready := true;
        }
      }
    }

    /** The hardware carries out the switch that SW selects. */
    method AwaitSwitch(delay: nat)
      requires Selected(CFGR)
      modifies this`CFGR
      ensures CFGR == Switched(old(CFGR), 8)
    {
      hide Switched, Status;
      var polls := 0;
      ghost var c := CFGR;
      SwitchFollows(c);
      SwitchedStatus(c, 8);
      var selected := (CFGR & 3) << 2;
      if Status(c) == 8 {
        SwitchedAlready(c);
      }
      while Status(CFGR) != 8
        invariant CFGR == c || CFGR == Switched(c, 8)
        invariant 0 < polls && delay <= polls ==> CFGR == Switched(c, 8)
        decreases if Status(CFGR) == 8 then 0 else delay + 1 - polls
      {
        polls := polls + 1;
        if delay <= polls {
          CFGR := Switched(CFGR, selected);
        }
      }
    }

    // ---- reset of the clocks --------------------------------------------------------------------------

    /** SW, the bus prescalers and MCO. */
    method ClearSource()
      requires InSync()
      modifies this`CFGR, this`CFGR2
      ensures InSync() && CFGR2 == old(CFGR2)
      ensures BusBits(CFGR) == 0 && PllPart(CFGR) == PllPart(old(CFGR)) && Status(CFGR) == Status(old(CFGR))
    {
      hide Stored, BusBits, PllPart, Follow, Status, Synced, SourceCleared;
      var v := SourceCleared(line, CFGR);
      ghost var w := Stored(CFGR, v, pllOn);
      ResetBus(line, CFGR, pllOn);
      ResetPll(line, CFGR, pllOn);
      StoredStatus(CFGR, v, pllOn);
      SameSynced(line, CFGR, w, CFGR2);
      FollowKeeps(line, CFGR2, w);
      WriteCFGR(v);
    }

    /** The hardware has switched to the internal oscillator. */
    method SwitchBack()
      requires InSync()
      modifies this`CFGR
      ensures InSync() && Status(CFGR) == 0
      ensures BusBits(CFGR) == BusBits(old(CFGR)) && PllPart(CFGR) == PllPart(old(CFGR))
    {
      hide Status, BusBits, PllPart, Switched, Synced;
      SwitchedStatus(CFGR, 0);
      SwitchedPll(CFGR, 0);
      SwitchedBus(CFGR, 0);
      SameSynced(line, CFGR, Switched(CFGR, 0), CFGR2);
      CFGR := Switched(CFGR, 0);
    }

    /** Select the internal oscillator; the hardware may have switched by the next access. */
    method SelectHsi(env: Environment)
      requires InSync()
      modifies this`CFGR, this`CFGR2
      ensures InSync() && CFGR2 == old(CFGR2) && BusBits(CFGR) == 0 && PllPart(CFGR) == PllPart(old(CFGR))
      ensures Status(CFGR) == if env.switchBack.BeforePllOff? then 0 else Status(old(CFGR))
    {
      hide Status, PllPart, BusBits, Synced;
      ClearSource();
      if env.switchBack.BeforePllOff? {
        SwitchBack();
      }
    }

    /** PLLSRC, PLLXTPRE and PLLMUL. */
    method ClearPllFields()
      requires InSync() && BusBits(CFGR) == 0
      modifies this`CFGR, this`CFGR2
      ensures InSync() && BusBits(CFGR) == 0 && Status(CFGR) == Status(old(CFGR))
      ensures if pllOn then PllPart(CFGR) == PllPart(old(CFGR)) && CFGR2 == old(CFGR2) else PllPart(CFGR) == 0
    {
      hide Stored, BusBits, PllPart, Follow, Status, Synced, PllCleared;
      var v := PllCleared(CFGR);
      ghost var w := Stored(CFGR, v, pllOn);
      MaskedBus(CFGR, pllOn);
      MaskedPll(CFGR);
      ClearedPll(CFGR);
      StoredStatus(CFGR, v, pllOn);
      if pllOn {
        SameSynced(line, CFGR, w, CFGR2);
        FollowKeeps(line, CFGR2, w);
      }
      WriteCFGR(v);
    }

    /** HSEON, PLLON and the PLL fields. */
    method TurnOffPll()
      requires InSync() && BusBits(CFGR) == 0
      modifies this`CFGR, this`CFGR2, this`hseOn, this`pllOn, this`pllReady
      ensures InSync() && BusBits(CFGR) == 0 && Status(CFGR) == Status(old(CFGR))
      ensures pllOn == (old(pllOn) && Status(CFGR) == 8) && pllReady == (old(pllReady) && pllOn)
      ensures if pllOn then PllPart(CFGR) == PllPart(old(CFGR)) && CFGR2 == old(CFGR2) else PllPart(CFGR) == 0
    {
      hide Status, PllPart, BusBits, Synced, PllHse;
      hseOn := hseOn && (Status(CFGR) == 4 || (Status(CFGR) == 8 && PllHse(CFGR)));
      pllOn := pllOn && Status(CFGR) == 8;
      pllReady := pllReady && pllOn;
      ClearPllFields();
    }

    /** PLL2ON and PLL3ON on the connectivity line; the hardware may switch before or after. */
    method TurnOffPll2(env: Environment)
      requires InSync() && BusBits(CFGR) == 0
      modifies this`CFGR, this`pll2On, this`pll2Ready, this`pll3On
      ensures InSync() && BusBits(CFGR) == 0 && PllPart(CFGR) == PllPart(old(CFGR))
      ensures Status(CFGR) == if env.switchBack.BeforePll2Off? || env.switchBack.Later? then 0 else Status(old(CFGR))
      ensures if line == Connectivity then
                !pll3On && pll2Ready == (old(pll2Ready) && pll2On) &&
                pll2On == (old(pll2On) && Fed(env) && Status(old(CFGR)) == 8 && PllHse(CFGR) && FromPll2(CFGR2))
              else pll2On == old(pll2On) && pll2Ready == old(pll2Ready)
    {
      hide Status, PllPart, BusBits, Synced, PllHse, FromPll2;
      if env.switchBack.BeforePll2Off? {
        SwitchBack();
      }
      if line == Connectivity {
        pll2On := pll2On && Status(CFGR) == 8 && PllHse(CFGR) && FromPll2(CFGR2);
        pll2Ready := pll2Ready && pll2On;
        pll3On := false;
      }
      if env.switchBack.Later? {
        ghost var c := CFGR;
        SwitchBack();
        SamePll(c, CFGR);
      }
    }

    method TurnOffPlls(ghost c: Word, ghost d: Word, env: Environment)
      requires InSync() && BusBits(CFGR) == 0 && PllPart(CFGR) == PllPart(c) && CFGR2 == d
      modifies this`CFGR, this`CFGR2, this`hseOn, this`pllOn, this`pllReady, this`pll2On, this`pll2Ready, this`pll3On
      ensures InSync() && BusBits(CFGR) == 0
      ensures Status(CFGR) == if env.switchBack.BeforePll2Off? || env.switchBack.Later? then 0 else Status(old(CFGR))
      ensures pllOn == (old(pllOn) && Status(old(CFGR)) == 8) && pllReady == (old(pllReady) && pllOn)
      ensures if line == Connectivity then
                !pll3On && pll2Ready == (old(pll2Ready) && pll2On) &&
                pll2On == (old(pll2On) && Fed(env) && Status(old(CFGR)) == 8 && PllHse(CFGR) && FromPll2(CFGR2))
              else pll2On == old(pll2On) && pll2Ready == old(pll2Ready)
      ensures if pllOn then KeptPll(line, c, d, CFGR, CFGR2, Fed(env)) && (PllHse(CFGR) <==> PllHse(c)) && CFGR2 == d
              else PllPart(CFGR) == 0
    {
      hide Status, PllPart, BusBits, Synced, PllHse, FromPll2, KeptPll, MullField, Xtpre;
      TurnOffPll();
      TurnOffPll2(env);
      if pllOn {
        SamePll(c, CFGR);
        KeptFrom(line, c, d, CFGR, CFGR2, Fed(env));
      }
    }

    /** Select the internal oscillator and turn the PLLs off, as far as they can be. */
    method LeavePlls(env: Environment)
      requires Valid()
      modifies this`CFGR, this`CFGR2, this`hseOn, this`pllOn, this`pllReady, this`pll2On, this`pll2Ready, this`pll3On
      ensures InSync() && BusBits(CFGR) == 0 && (Status(CFGR) == if env.switchBack.Never? then Status(old(CFGR)) else 0)
      ensures pllOn == Busy(old(CFGR), env) && (pllReady ==> pllOn) && (pll2Ready ==> pll2On)
      ensures line == Connectivity ==> !pll3On && if pllOn && PllHse(CFGR) && FromPll2(CFGR2) then pll2On == Fed(env) else !pll2On
      ensures if pllOn then KeptPll(line, old(CFGR), old(CFGR2), CFGR, CFGR2, Fed(env)) else PllPart(CFGR) == 0
    {
      hide Status, PllPart, BusBits, Synced, PllHse, FromPll2, KeptPll, MullField, Xtpre;
      ghost var c, d := CFGR, CFGR2;
      SelectHsi(env);
      TurnOffPlls(c, d, env);
    }

    /** CFGR2 exists on these lines only; what is locked stays. */
    method ResetDividers(ghost c: Word, ghost d: Word, ghost fed: bool)
      requires line != Standard && InSync() && BusBits(CFGR) == 0
      requires pllOn ==> KeptPll(line, c, d, CFGR, CFGR2, fed)
      requires fed && line == Connectivity && pllOn && PllHse(CFGR) && FromPll2(CFGR2) ==> pll2On
      requires !pllOn ==> PllPart(CFGR) == 0
      modifies this`CFGR, this`CFGR2
      ensures InSync() && BusBits(CFGR) == 0 && Status(CFGR) == Status(old(CFGR))
      ensures pllOn ==> KeptPll(line, c, d, CFGR, CFGR2, fed)
      ensures PllHse(CFGR) == PllHse(old(CFGR)) && (pllOn ==> FromPll2(CFGR2) == FromPll2(old(CFGR2)))
      ensures !pllOn ==> Prediv1Field(CFGR2) == 0 && PllPart(CFGR) == 0
    {
      hide StoredDividers, AliasDown, BusBits, PllPart, Status, MullField, PllHse, Xtpre, Prediv1Field, FromPll2,
           Prediv2Field, Pll2mulField, Synced, KeptPll;
      ghost var e := StoredDividers(CFGR2, 0, pllOn, pll2On, pll3On);
      DownBus(CFGR, e);
      DownStatus(CFGR, e);
      DownPllHse(CFGR, e);
      if pllOn {
        ZeroKeeps(line, c, d, CFGR, CFGR2, fed, pll2On, pll3On);
      } else {
        ZeroClears(CFGR, CFGR2, pll2On, pll3On);
      }
      WriteCFGR2(0);
    }

    /** Reset of the clock configuration. A PLL that still drives the system clock cannot be
        turned off, and keeps its fields (section 7.3.1 of RM0008). */
    method ResetClocks(env: Environment)
      requires Valid()
      modifies this`CFGR, this`CFGR2, this`hseOn, this`pllOn, this`pllReady, this`pll2On, this`pll2Ready, this`pll3On
      ensures Valid() && pllOn == Busy(old(CFGR), env) && (!pllOn ==> PllPart(CFGR) == 0)
      ensures IsReset(line, old(CFGR), old(CFGR2), env, CFGR, CFGR2, pll2On, pll3On)
    {
      hide Status, PllPart, BusBits, Synced, PllHse, FromPll2, KeptPll, Prediv1Field;
      ghost var c, d := CFGR, CFGR2;
      LeavePlls(env);
      if line != Standard {
        ResetDividers(c, d, Fed(env));
      }
    }

    // ---- the SetSysClockTo variants and SystemInit ------------------------------------------------------------

    /** HPRE_DIV1 and PPRE2_DIV1 set nothing; only the APB1 prescaler may. */
    method SetPrescalers(t: Target)
      requires InSync()
      modifies this`CFGR, this`CFGR2
      ensures InSync() && CFGR2 == old(CFGR2)
      ensures BusBits(CFGR) == Joined(BusBits(old(CFGR)), ApbBits(t)) && PllPart(CFGR) == PllPart(old(CFGR))
    {
      hide Joined, BusBits, ApbBits, PllPart, Synced;
      ApbOutside(t);
      ghost var c := CFGR;
      JoinedZero(c);
      JoinedBus(c, ApbBits(t));
      JoinedPll(c, ApbBits(t));
      SetCFGR(0);
      SetCFGR(0);
      SetCFGR(ApbBits(t));
    }

    method WritePll(t: Target)
      requires InSync()
      modifies this`CFGR, this`CFGR2
      ensures CFGR == PllEdited(old(CFGR), PllBits(line, t), pllOn) && CFGR2 == Follow(line, old(CFGR2), CFGR)
      ensures InSync() && BusBits(CFGR) == BusBits(old(CFGR))
    {
      hide PllEdited, PllBits, BusBits, Follow, Synced;
      PllBitsFit(line, t);
      PllEditedBus(CFGR, PllBits(line, t), pllOn);
      EditPll(PllBits(line, t));
    }

    /** Dividers of the connectivity line, and its second PLL. */
    method WriteDividers(t: Target, pll2Delay: nat)
      requires line == Connectivity
      modifies this`CFGR, this`CFGR2, this`pll2On, this`pll2Ready
      ensures CFGR2 == DividersEdited(old(CFGR2), DividerBits(t), pllOn, old(pll2On), pll3On)
      ensures CFGR == AliasDown(old(CFGR), CFGR2)
      ensures InSync() && BusBits(CFGR) == BusBits(old(CFGR)) && pll2On && pll2Ready
    {
      hide DividersEdited, AliasDown, DividerBits, BusBits, Synced;
      DownBus(CFGR, DividersEdited(CFGR2, DividerBits(t), pllOn, pll2On, pll3On));
      EditDividers(DividerBits(t));
      pll2On := true;
      AwaitPll2(pll2Delay);
    }

    /** The PLL and its dividers; on the connectivity line the order of the two depends on
        the target. */
    method ConfigurePll(t: Target, pll2Delay: nat)
      requires InSync() && Supported(line, t)
      modifies this`CFGR, this`CFGR2, this`pll2On, this`pll2Ready
      ensures Settled(line, t, old(CFGR), old(CFGR2), pllOn, old(pll2On), pll3On, CFGR, CFGR2)
      ensures InSync() && BusBits(CFGR) == BusBits(old(CFGR))
      ensures if line == Connectivity then pll2On && pll2Ready else pll2On == old(pll2On) && pll2Ready == old(pll2Ready)
    {
      hide PllEdited, DividersEdited, AliasDown, AliasUp, PllBits, DividerBits, BusBits, Settled, Synced;
      ghost var c, d := CFGR, CFGR2;
      if line != Connectivity {
        PllOnly(line, t, c, d, pllOn, pll2On, pll3On);
        WritePll(t);
      } else if t == To24 || t == To36 {
        PllThenDividers(t, c, d, pllOn, pll2On, pll3On);
        WritePll(t);
        WriteDividers(t, pll2Delay);
      } else {
        DividersThenPll(t, c, d, pllOn, pll2On, pll3On);
        WriteDividers(t, pll2Delay);
        WritePll(t);
      }
    }

    predicate HasLatency(t: Target)
      reads this`ACR
    {
      line != ValueLine ==> FlashFor(t, ACR)
    }

    /** Prefetch and the flash wait states, which the value line does not have. */
    method SetLatency(t: Target)
      modifies this`ACR
      ensures HasLatency(t)
      ensures FlashRest(ACR) == FlashRest(old(ACR)) && (line == ValueLine ==> ACR == old(ACR))
    {
      hide FlashFor, FlashRest;
      FlashWrittenFor(t, ACR);
      if line != ValueLine {
        ACR := ACR | 0x10;
        ACR := ACR & !3;
        ACR := ACR | Latency(t);
      }
    }

    /** Select the PLL, which is ready, as system clock and wait for the switch; the flash
        is already slow enough. */
    method SelectPll(t: Target, switchDelay: nat)
      requires InSync() && pllOn && pllReady && HasLatency(t)
      modifies this`CFGR, this`CFGR2
      ensures InSync() && Status(CFGR) == 8 && CFGR2 == old(CFGR2)
      ensures BusBits(CFGR) == BusBits(old(CFGR)) && PllPart(CFGR) == PllPart(old(CFGR))
    {
      hide Joined, Outside, BusBits, PllPart, Status, Selected, Switched, Synced, Latency;
      ghost var c := CFGR;
      ghost var c1 := Joined(Outside(c, 3), 2);
      SelectBus(c);
      OutsidePll(c, 3);
      JoinedPll(Outside(c, 3), 2);
      SelectsPll(c);
      SwitchedBus(c1, 8);
      SwitchedPll(c1, 8);
      SwitchedStatus(c1, 8);
      ClearCFGR(3);
      SetCFGR(2);
      SameSynced(line, CFGR, Switched(c1, 8), CFGR2);
      AwaitSwitch(switchDelay);
    }

    /** Set up the PLL, turn it on and switch to it once it is ready. */
    method RunPll(t: Target, env: Environment)
      requires InSync() && Supported(line, t) && HasLatency(t)
      modifies this`CFGR, this`CFGR2, this`pllOn, this`pllReady, this`pll2On, this`pll2Ready
      ensures Settled(line, t, old(CFGR), old(CFGR2), old(pllOn), old(pll2On), pll3On, CFGR, CFGR2)
      ensures InSync() && Status(CFGR) == 8 && BusBits(CFGR) == BusBits(old(CFGR)) && pllOn && pllReady
      ensures if line == Connectivity then pll2On && pll2Ready else pll2On == old(pll2On) && pll2Ready == old(pll2Ready)
    {
      hide BusBits, PllPart, Status, Synced, Settled, HasLatency;
      ghost var c, d, on, on2 := CFGR, CFGR2, pllOn, pll2On;
      ConfigurePll(t, env.pll2Delay);
      pllOn := true;
      AwaitPll(env.pllDelay);
      ghost var c2 := CFGR;
      SelectPll(t, env.switchDelay);
      KeepsSettled(line, t, c, d, on, on2, pll3On, c2, CFGR, CFGR2);
    }

    /** Wait states, prescalers, PLL and switch, in this order. */
    method Configure(t: Target, env: Environment)
      requires InSync() && Supported(line, t)
      modifies this`CFGR, this`CFGR2, this`ACR, this`pllOn, this`pllReady, this`pll2On, this`pll2Ready
      ensures Settled(line, t, old(CFGR), old(CFGR2), old(pllOn), old(pll2On), pll3On, CFGR, CFGR2)
      ensures InSync() && Status(CFGR) == 8 && BusBits(CFGR) == Joined(BusBits(old(CFGR)), ApbBits(t))
      ensures HasLatency(t) && FlashRest(ACR) == FlashRest(old(ACR)) && pllOn && pllReady
      ensures if line == Connectivity then pll2On && pll2Ready else pll2On == old(pll2On) && pll2Ready == old(pll2Ready)
    {
      hide BusBits, PllPart, Status, Synced, Settled, Joined, ApbBits, HasLatency, FlashRest;
      ghost var c, d, on, on2 := CFGR, CFGR2, pllOn, pll2On;
      SetLatency(t);
      SetPrescalers(t);
      ghost var c1 := CFGR;
      RunPll(t, env);
      SettledFrom(line, t, c1, d, on, on2, pll3On, c, CFGR, CFGR2);
    }

    /** From any state, the clock that a setter leaves: it reaches its frequency exactly when
        the crystal starts and, with every PLL off, no AHB divisor is set and PREDIV1 is
        small enough on the value line, or, with a PLL on, the settings it cannot change
        give the frequency. Without the crystal nothing is touched. */
    method SetSysClock(t: Target, env: Environment) returns (ready: bool)
      requires Valid() && Supported(line, t)
      modifies this`CFGR, this`CFGR2, this`ACR, this`hseOn, this`pllOn, this`pllReady, this`pll2On, this`pll2Ready
      ensures Valid() && hseOn && (ready <==> Starts(env.hse))
      ensures !ready ==> CFGR == old(CFGR) && CFGR2 == old(CFGR2) && ACR == old(ACR)
      ensures !ready ==> pllOn == old(pllOn) && pll2On == old(pll2On)
      ensures ready ==> Status(CFGR) == 8 && BusBits(CFGR) == Joined(BusBits(old(CFGR)), ApbBits(t))
      ensures ready && BusBits(old(CFGR)) == 0 ==> BusesFor(t, CFGR)
      ensures FlashRest(ACR) == FlashRest(old(ACR)) && (ready ==> HasLatency(t))
      ensures ready ==> pllOn && pllReady && (line == Connectivity ==> pll2On && pll2Ready)
      ensures ready ==> (Rate(line, CFGR, CFGR2) ==
                         RateLeft(line, t, old(CFGR), old(CFGR2), old(pllOn), old(pll2On), pll3On))
      ensures ready ==> (Rate(line, CFGR, CFGR2) == Hertz(t) <==>
                         ReachesFrom(line, t, old(CFGR), old(CFGR2), old(pllOn), old(pll2On), pll3On))
    {
      hide BusBits, Status, Synced, Settled, Joined, ApbBits, Starts, HasLatency, FlashRest, BusesFor, PllHse, FromPll2,
           Rate, RateLeft, ReachesFrom;
      ghost var c, d, on, on2 := CFGR, CFGR2, pllOn, pll2On;
      hseOn := true;
      var count;
      ready, count := WaitForHse(env.hse);
      if ready {
        Configure(t, env);
        SameHpre(t, CFGR, c);
        if BusBits(c) == 0 {
          ZeroJoined(ApbBits(t));
          BusesSet(t, CFGR);
        }
        RateSettled(line, t, c, d, on, on2, pll3On, CFGR, CFGR2);
      }
    }

    /** SystemInit from any state and under any environment. The variable keeps its value,
        the advertised frequency: after reset it is right exactly when the crystal starts. */
    method SystemInit(t: Target, env: Environment) returns (ready: bool)
      requires Valid() && Supported(line, t)
      modifies this`CFGR, this`CFGR2, this`ACR, this`hseOn, this`pllOn, this`pllReady, this`pll2On, this`pll2Ready,
               this`pll3On
      ensures Valid() && (ready <==> Starts(env.hse))
      ensures Rate(line, CFGR, CFGR2) == ClockAfterInit(line, t, old(CFGR), old(CFGR2), env)
      ensures ready ==> Status(CFGR) == 8 && BusesFor(t, CFGR) && HasLatency(t)
      ensures FlashRest(ACR) == FlashRest(old(ACR))
      ensures !ready ==> BusBits(CFGR) == 0 && pllOn == Busy(old(CFGR), env) && (!pllOn ==> PllPart(CFGR) == 0)
      ensures Status(old(CFGR)) == 0 && SystemCoreClock == Hertz(t) ==>
                (SystemCoreClock == Rate(line, CFGR, CFGR2) <==> Starts(env.hse))
    {
      hide PllPart, Status, Joined, ApbBits, Starts, HasLatency, PllHse, FromPll2, Rate, RateLeft, ReachesFrom, KeptPll,
           Synced, SysClock, Prediv1Field, Running, BusBits, Decode, BusesFor, FlashRest;
      ghost var c, d := CFGR, CFGR2;
      ResetSource(line, c, d);
      ResetClocks(env);
      AfterReset(line, t, c, d, env, CFGR, CFGR2, pll2On, pll3On);
      ready := SetSysClock(t, env);
    }

    // ---- SystemCoreClockUpdate -----------------------------------------------------------------

    /** PREDIV1 clocked from PLL2. */
    method ReadPll2Input() returns (hz: nat)
      ensures hz == ThroughPll2(Decode(CFGR, CFGR2))
    {
      hide PllHse, Xtpre, FromPll2, Value, SourceField, MullField, HpreField, Prediv1Field, Prediv2Field, Pll2mulField,
           Mul32, Hse;
      var prediv1factor := Value(Prediv1Field(CFGR2)) + 1;
      var prediv2factor := Value(Prediv2Field(CFGR2)) + 1;
      var pll2mull := Value(Pll2mulField(CFGR2)) + 2;
      hz := Mul32(Hse(Connectivity) / prediv2factor, pll2mull) / prediv1factor;
    }

    /** PREDIV1 clocked from the crystal. */
    method ReadHseInput() returns (hz: nat)
      ensures hz == Hse(line) / (Value(Prediv1Field(CFGR2)) + 1)
    {
      hide Value, Prediv1Field, Hse;
      var prediv1factor := Value(Prediv1Field(CFGR2)) + 1;
      hz := Hse(line) / prediv1factor;
    }

    /** The PLL input as the code derives it on each line. */
    method ReadPllInput() returns (hz: nat)
      ensures hz == PllInput(line, Decode(CFGR, CFGR2))
    {
      hide PllHse, Xtpre, FromPll2, Value, SourceField, MullField, HpreField, Prediv1Field, Prediv2Field, Pll2mulField,
           ThroughPll2, Hse;
      if !PllHse(CFGR) {
        hz := HSI / 2;
      } else if line == Standard {
        hz := if Xtpre(CFGR) then Hse(line) / 2 else Hse(line);
      } else if line == ValueLine || !FromPll2(CFGR2) {
        hz := ReadHseInput();
      } else {
        hz := ReadPll2Input();
      }
    }

    /** The clock before the AHB prescaler. */
    method ReadSysClock() returns (hz: nat)
      ensures hz == SysClock(line, Decode(CFGR, CFGR2))
    {
      hide PllHse, Xtpre, FromPll2, Value, SourceField, MullField, HpreField, Prediv1Field, Prediv2Field, Pll2mulField,
           PllInput, Mul32, Hse;
      var source := Value(SourceField(CFGR));
      if source == 1 {
        hz := Hse(line);
      } else if source == 2 {
        var pllmull := Value(MullField(CFGR));
        pllmull := if line == Connectivity && pllmull == 0x0D then 13 / 2 else pllmull + 2;
        var input := ReadPllInput();
        hz := Mul32(input, pllmull);
      } else {
        hz := HSI;
      }
    }

    method SystemCoreClockUpdate()
      modifies this`SystemCoreClock
      ensures SystemCoreClock == Rate(line, CFGR, CFGR2)
    {
      hide PllHse, Xtpre, FromPll2, Value, SourceField, MullField, HpreField, Prediv1Field, Prediv2Field, Pll2mulField,
           SysClock, Shr;
      HpreBound(CFGR);
      SystemCoreClock := ReadSysClock();
      SystemCoreClock := Shr(SystemCoreClock, AHB_SHIFTS[Value(HpreField(CFGR))]);
    }

    /** SystemInit followed by SystemCoreClockUpdate. */
    method InitThenUpdate(t: Target, env: Environment) returns (ready: bool)
      requires Valid() && Supported(line, t)
      modifies this
      ensures Valid() && (ready <==> Starts(env.hse))
      ensures SystemCoreClock == Rate(line, CFGR, CFGR2) == ClockAfterInit(line, t, old(CFGR), old(CFGR2), env)
      ensures Status(old(CFGR)) == 0 ==> SystemCoreClock == if Starts(env.hse) then Hertz(t) else 8_000_000
    {
      hide BusBits, Status, Starts, PllHse, FromPll2, Rate, Synced, SysClock, HasLatency;
      ResetSource(line, CFGR, CFGR2);
      ready := SystemInit(t, env);
      SystemCoreClockUpdate();
    }
  }
}
