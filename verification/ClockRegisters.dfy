/** The clock registers as the hardware keeps them: the locks on the PLL fields, the bit that
    two registers share, and what each edit of the code does to each field
    (USER/system_stm32f10x.c). */
module ClockRegisters {
  import opened Words
  import opened ClockTree
  import opened ClockFields

  // ---- register writes ----------------------------------------------------------------------

  /** The switch status is read-only, and while the PLL is on so are its fields. */
  function Stored(was: Word, v: Word, on: bool): Word {
    var keep: Word := if on then 0x003F_000C else 0xC;
    (v & !keep) | (was & keep)
  }

  /** PREDIV1 and PREDIV1SRC are locked while the PLL is on, PLL2MUL while PLL2 is, PREDIV2
      while PLL2 or PLL3 is. */
  function StoredDividers(was: Word, v: Word, on: bool, on2: bool, on3: bool): Word {
    var keep: Word := (if on then 0x0001_000F else 0) | (if on2 then 0xF00 else 0) | (if on2 || on3 then 0xF0 else 0);
    (v & !keep) | (was & keep)
  }

  function Outside(w: Word, m: Word): Word { w & !m }
  function Joined(w: Word, v: Word): Word { w | v }

  predicate LowPrediv(cfgr2: Word) { cfgr2 & 1 == 1 }

  /** Except on the standard line PLLXTPRE and the low bit of PREDIV1 are one bit, seen
      in both registers (section 8.3.2 of RM0008). */
  function AliasUp(cfgr2: Word, cfgr: Word): Word {
    Splice(cfgr2, 1, (cfgr >> 17) & 1)
  }

  function AliasDown(cfgr: Word, cfgr2: Word): Word {
    Splice(cfgr, 0x0002_0000, (cfgr2 & 1) << 17)
  }

  /** What a CFGR write does to CFGR2. */
  function Follow(line: Line, cfgr2: Word, cfgr: Word): Word {
    if line == Standard then cfgr2 else AliasUp(cfgr2, cfgr)
  }

  /** What a CFGR2 write does to CFGR. */
  function Precede(line: Line, cfgr: Word, cfgr2: Word): Word {
    if line == Standard then cfgr else AliasDown(cfgr, cfgr2)
  }

  /** The shared bit reads the same in both registers. */
  predicate Synced(line: Line, cfgr: Word, cfgr2: Word) {
    line != Standard ==> (Xtpre(cfgr) <==> LowPrediv(cfgr2))
  }

  lemma AliasUpSync(d: Word, c: Word)
    ensures LowPrediv(AliasUp(d, c)) <==> Xtpre(c)
  {
  }

  lemma AliasUpKeeps(d: Word, c: Word)
    requires LowPrediv(d) <==> Xtpre(c)
    ensures AliasUp(d, c) == d
  {
  }

  lemma AliasDownSync(c: Word, d: Word)
    ensures Xtpre(AliasDown(c, d)) <==> LowPrediv(d)
  {
  }

  lemma FollowSync(line: Line, cfgr2: Word, cfgr: Word)
    ensures Synced(line, cfgr, Follow(line, cfgr2, cfgr))
  {
    hide AliasUp, LowPrediv, Xtpre;
    AliasUpSync(cfgr2, cfgr);
  }

  lemma PrecedeSync(line: Line, cfgr: Word, cfgr2: Word)
    ensures Synced(line, Precede(line, cfgr, cfgr2), cfgr2)
  {
    hide AliasDown, LowPrediv, Xtpre;
    AliasDownSync(cfgr, cfgr2);
  }

  lemma FollowKeeps(line: Line, cfgr2: Word, cfgr: Word)
    requires Synced(line, cfgr, cfgr2)
    ensures Follow(line, cfgr2, cfgr) == cfgr2
  {
    hide AliasUp, LowPrediv, Xtpre;
    if line != Standard {
      AliasUpKeeps(cfgr2, cfgr);
    }
  }

  lemma OutsideKept(w: Word, m: Word, v: Word)
    requires v & !m == 0
    ensures Outside(Splice(w, m, v), m) == Outside(w, m)
  {
  }

  lemma SpliceParts(w: Word, m: Word, v: Word)
    ensures Splice(w, m, v) == Joined(Outside(w, m), v)
  {
  }

  lemma SpliceTwice(w: Word, m: Word, a: Word, b: Word)
    requires a & !m == 0
    ensures Splice(Splice(w, m, a), m, b) == Splice(w, m, b)
  {
    hide Splice, Outside, Joined;
    OutsideKept(w, m, a);
    SpliceParts(w, m, b);
    SpliceParts(Splice(w, m, a), m, b);
  }

  lemma FollowTwice(line: Line, d: Word, a: Word, b: Word)
    ensures Follow(line, Follow(line, d, a), b) == Follow(line, d, b)
  {
    hide Splice;
    assert ((a >> 17) & 1) & !1 == 0;
    SpliceTwice(d, 1, (a >> 17) & 1, (b >> 17) & 1);
  }

  lemma PrecedeTwice(line: Line, c: Word, a: Word, b: Word)
    ensures Precede(line, Precede(line, c, a), b) == Precede(line, c, b)
  {
    hide Splice;
    assert ((a & 1) << 17) & !0x0002_0000 == 0;
    SpliceTwice(c, 0x0002_0000, (a & 1) << 17, (b & 1) << 17);
  }

  // ---- what an edit does to one field ------------------------------------------------------------

  /** The prescalers of the three buses: HPRE, PPRE1 and PPRE2. */
  function BusBits(c: Word): Word { c & 0x3FF0 }

  /** The fields of the main PLL. */
  function PllPart(c: Word): Word { c & 0x003F_0000 }

  lemma MullOfPart(c: Word)
    ensures MullField(c) == MullField(PllPart(c))
  {
  }

  lemma PllHseOfPart(c: Word)
    ensures PllHse(c) == PllHse(PllPart(c))
  {
  }

  lemma XtpreOfPart(c: Word)
    ensures Xtpre(c) == Xtpre(PllPart(c))
  {
  }

  lemma SamePll(a: Word, b: Word)
    requires PllPart(a) == PllPart(b)
    ensures MullField(a) == MullField(b) && (PllHse(a) <==> PllHse(b)) && (Xtpre(a) <==> Xtpre(b))
  {
    hide MullField, PllHse, Xtpre, PllPart;
    MullOfPart(a);
    MullOfPart(b);
    PllHseOfPart(a);
    PllHseOfPart(b);
    XtpreOfPart(a);
    XtpreOfPart(b);
  }

  /** The clear and the set of the PLL fields. */
  function PllEdited(c: Word, bits: Word, on: bool): Word {
    if on then c else Splice(c, 0x003F_0000, bits)
  }

  lemma ClearedOff(c: Word)
    ensures Stored(c, Outside(c, 0x003F_0000), false) == Outside(c, 0x003F_0000)
  {
  }

  lemma ClearedOn(c: Word)
    ensures Stored(c, Outside(c, 0x003F_0000), true) == c
  {
  }

  lemma StoredSet(c: Word, bits: Word, on: bool)
    requires bits & 0xC == 0 && (on ==> bits & 0x003F_000C == 0)
    ensures Stored(c, Joined(c, bits), on) == Joined(c, bits)
  {
  }

  lemma NotStatus(bits: Word)
    requires bits & !0x003F_0000 == 0
    ensures bits & 0xC == 0
  {
  }

  lemma SetOff(c: Word, bits: Word)
    requires bits & !0x003F_0000 == 0
    ensures Stored(c, Joined(c, bits), false) == Joined(c, bits)
  {
    hide Stored, Joined;
    NotStatus(bits);
    StoredSet(c, bits, false);
  }

  lemma PllEditedPart(c: Word, bits: Word, on: bool)
    requires bits & !0x003F_0000 == 0
    ensures PllPart(PllEdited(c, bits, on)) == if on then PllPart(c) else bits
  {
    hide Splice;
    SpliceHit(c, 0x003F_0000, bits);
  }

  lemma PllEditedBus(c: Word, bits: Word, on: bool)
    requires bits & !0x003F_0000 == 0
    ensures BusBits(PllEdited(c, bits, on)) == BusBits(c)
  {
    hide Splice;
    SpliceMiss(c, 0x003F_0000, bits, 0x3FF0);
  }

  lemma PllBitsFit(line: Line, t: Target)
    ensures PllBits(line, t) & !0x003F_0000 == 0
  {
  }

  /** The clear and the set of the dividers. */
  function DividersEdited(d: Word, bits: Word, on: bool, on2: bool, on3: bool): Word {
    var e := StoredDividers(d, Outside(d, 0x0001_0FFF), on, on2, on3);
    StoredDividers(e, Joined(e, bits), on, on2, on3)
  }

  lemma EditedPrediv1(d: Word, bits: Word, on: bool, on2: bool, on3: bool)
    requires bits & !0x0001_0FFF == 0
    ensures Prediv1Field(DividersEdited(d, bits, on, on2, on3)) == if on then Prediv1Field(d) else Prediv1Field(bits)
  {
  }

  lemma EditedFromPll2(d: Word, bits: Word, on: bool, on2: bool, on3: bool)
    requires bits & !0x0001_0FFF == 0
    ensures FromPll2(DividersEdited(d, bits, on, on2, on3)) == if on then FromPll2(d) else FromPll2(bits)
  {
  }

  lemma EditedPrediv2(d: Word, bits: Word, on: bool, on2: bool, on3: bool)
    requires bits & !0x0001_0FFF == 0
    ensures Prediv2Field(DividersEdited(d, bits, on, on2, on3)) ==
            if on2 || on3 then Prediv2Field(d) else Prediv2Field(bits)
  {
  }

  lemma EditedPll2mul(d: Word, bits: Word, on: bool, on2: bool, on3: bool)
    requires bits & !0x0001_0FFF == 0
    ensures Pll2mulField(DividersEdited(d, bits, on, on2, on3)) ==
            if on2 then Pll2mulField(d) else Pll2mulField(bits)
  {
  }

  lemma EditedLow(d: Word, bits: Word, on2: bool, on3: bool)
    requires bits & !0x0001_0FFF == 0
    ensures LowPrediv(DividersEdited(d, bits, false, on2, on3)) <==> LowPrediv(bits)
  {
  }

  lemma DividerBitsFit(t: Target)
    ensures DividerBits(t) & !0x0001_0FFF == 0
  {
  }

  lemma DividerBitsLow(t: Target)
    ensures LowPrediv(DividerBits(t)) <==> t == To24 || t == To36
  {
  }

  // The shared bit touches PREDIV1 and PLLXTPRE only.

  lemma UpFromPll2(d: Word, c: Word)
    ensures FromPll2(AliasUp(d, c)) == FromPll2(d)
  {
  }

  lemma UpPrediv2(d: Word, c: Word)
    ensures Prediv2Field(AliasUp(d, c)) == Prediv2Field(d)
  {
  }

  lemma UpPll2mul(d: Word, c: Word)
    ensures Pll2mulField(AliasUp(d, c)) == Pll2mulField(d)
  {
  }

  lemma UpOdd(d: Word, c: Word)
    requires Xtpre(c)
    ensures Prediv1Field(AliasUp(d, c)) == OddField(Prediv1Field(d))
  {
  }

  lemma DownMull(c: Word, d: Word)
    ensures MullField(AliasDown(c, d)) == MullField(c)
  {
  }

  lemma DownPllHse(c: Word, d: Word)
    ensures PllHse(AliasDown(c, d)) == PllHse(c)
  {
  }

  lemma DownBus(c: Word, d: Word)
    ensures BusBits(AliasDown(c, d)) == BusBits(c)
  {
  }

  lemma DownStatus(c: Word, d: Word)
    ensures Status(AliasDown(c, d)) == Status(c)
  {
  }

  // ---- the PLL set up for a target ----------------------------------------------------------------------

  /** The fields that decide the PLL, from what the registers held before. */
  predicate Settled(line: Line, t: Target, c: Word, d: Word, on: bool, on2: bool, on3: bool, c': Word, d': Word) {
    MullField(c') == (if on then MullField(c) else MullField(PllBits(line, t))) &&
    (PllHse(c') <==> if on then PllHse(c) else PllHse(PllBits(line, t))) &&
    (line == Standard ==> (Xtpre(c') <==> if on then Xtpre(c) else Xtpre(PllBits(line, t)))) &&
    (line == ValueLine ==> Prediv1Field(d') == if on then Prediv1Field(d) else OddField(Prediv1Field(d))) &&
    (line == Connectivity ==>
       Prediv1Field(d') == (if on then Prediv1Field(d) else Prediv1Field(DividerBits(t))) &&
       (FromPll2(d') <==> if on then FromPll2(d) else FromPll2(DividerBits(t))) &&
       Prediv2Field(d') == (if on2 || on3 then Prediv2Field(d) else Prediv2Field(DividerBits(t))) &&
       Pll2mulField(d') == (if on2 then Pll2mulField(d) else Pll2mulField(DividerBits(t))))
  }

  /** These fields and the switch status decide the clock. */
  lemma SettledLeaves(line: Line, t: Target, c: Word, d: Word, on: bool, on2: bool, on3: bool, c': Word, d': Word)
    requires Settled(line, t, c, d, on, on2, on3, c', d') && Status(c') == 8 && HpreField(c') == HpreField(c)
    ensures Agree(line, Decode(c', d'), Left(line, t, Decode(c, d), on, on2, on3))
  {
    SourceOfStatus(c');
    assert Value(2) == 2;
    PllBitsAre(line, t);
    DividerBitsAre(t);
    Prediv1Bound(d);
    OddFieldValue(Prediv1Field(d));
    hide SourceField, MullField, HpreField, Prediv1Field, Prediv2Field, Pll2mulField, PllHse, Xtpre, FromPll2, Value,
         Status, PllBits, DividerBits, OddField;
  }

  lemma WholePart(line: Line, t: Target)
    ensures PllPart(PllBits(line, t)) == PllBits(line, t)
  {
  }

  lemma EditedPll(line: Line, t: Target, c: Word, on: bool)
    ensures var c' := PllEdited(c, PllBits(line, t), on);
            MullField(c') == (if on then MullField(c) else MullField(PllBits(line, t))) &&
            (PllHse(c') <==> if on then PllHse(c) else PllHse(PllBits(line, t))) &&
            (Xtpre(c') <==> if on then Xtpre(c) else Xtpre(PllBits(line, t)))
  {
    hide PllEdited, PllPart, PllBits, MullField, PllHse, Xtpre;
    var bits := PllBits(line, t);
    var c' := PllEdited(c, bits, on);
    PllBitsFit(line, t);
    PllEditedPart(c, bits, on);
    WholePart(line, t);
    SamePll(c', if on then c else bits);
  }

  lemma ValueLineOdd()
    ensures Xtpre(PllBits(ValueLine, To24))
  {
  }

  /** Without dividers in CFGR2. */
  lemma PllOnly(line: Line, t: Target, c: Word, d: Word, on: bool, on2: bool, on3: bool)
    requires line != Connectivity && Supported(line, t) && Synced(line, c, d)
    ensures var c' := PllEdited(c, PllBits(line, t), on);
            Settled(line, t, c, d, on, on2, on3, c', Follow(line, d, c'))
  {
    hide PllBits, MullField, PllHse, Xtpre, Prediv1Field, OddField, AliasUp, Splice, LowPrediv;
    var c' := PllEdited(c, PllBits(line, t), on);
    EditedPll(line, t, c, on);
    if on {
      FollowKeeps(line, d, c);
    } else if line == ValueLine {
      ValueLineOdd();
      UpOdd(d, c');
    }
  }

  lemma EditedDividers(d: Word, bits: Word, on: bool, on2: bool, on3: bool)
    requires bits & !0x0001_0FFF == 0
    ensures var d' := DividersEdited(d, bits, on, on2, on3);
            Prediv1Field(d') == (if on then Prediv1Field(d) else Prediv1Field(bits)) &&
            (FromPll2(d') <==> if on then FromPll2(d) else FromPll2(bits)) &&
            Prediv2Field(d') == (if on2 || on3 then Prediv2Field(d) else Prediv2Field(bits)) &&
            Pll2mulField(d') == (if on2 then Pll2mulField(d) else Pll2mulField(bits))
  {
    hide Prediv1Field, Prediv2Field, Pll2mulField, FromPll2, DividersEdited;
    EditedPrediv1(d, bits, on, on2, on3);
    EditedFromPll2(d, bits, on, on2, on3);
    EditedPrediv2(d, bits, on, on2, on3);
    EditedPll2mul(d, bits, on, on2, on3);
  }

  /** PLL first, dividers second. */
  lemma PllThenDividers(t: Target, c: Word, d: Word, on: bool, on2: bool, on3: bool)
    requires Synced(Connectivity, c, d)
    ensures var c1 := PllEdited(c, PllBits(Connectivity, t), on);
            var d' := DividersEdited(AliasUp(d, c1), DividerBits(t), on, on2, on3);
            Settled(Connectivity, t, c, d, on, on2, on3, AliasDown(c1, d'), d')
  {
    hide PllBits, DividerBits, MullField, PllHse, Xtpre, Prediv1Field, Prediv2Field, Pll2mulField, FromPll2, AliasUp,
         AliasDown, Splice, LowPrediv, DividersEdited;
    var c1 := PllEdited(c, PllBits(Connectivity, t), on);
    var d1 := AliasUp(d, c1);
    var bits := DividerBits(t);
    var d' := DividersEdited(d1, bits, on, on2, on3);
    EditedPll(Connectivity, t, c, on);
    DividerBitsFit(t);
    EditedDividers(d1, bits, on, on2, on3);
    UpFromPll2(d, c1);
    UpPrediv2(d, c1);
    UpPll2mul(d, c1);
    DownMull(c1, d');
    DownPllHse(c1, d');
    if on {
      AliasUpKeeps(d, c);
    }
  }

  lemma LaterPllEven(t: Target)
    requires t != To24 && t != To36
    ensures !Xtpre(PllBits(Connectivity, t))
  {
  }

  /** Dividers first, PLL second. */
  lemma DividersThenPll(t: Target, c: Word, d: Word, on: bool, on2: bool, on3: bool)
    requires t != To24 && t != To36 && Synced(Connectivity, c, d)
    ensures var d1 := DividersEdited(d, DividerBits(t), on, on2, on3);
            var c' := PllEdited(AliasDown(c, d1), PllBits(Connectivity, t), on);
            Settled(Connectivity, t, c, d, on, on2, on3, c', AliasUp(d1, c'))
  {
    hide PllBits, DividerBits, MullField, PllHse, Xtpre, Prediv1Field, Prediv2Field, Pll2mulField, FromPll2, AliasUp,
         AliasDown, Splice, LowPrediv, DividersEdited;
    var bits := DividerBits(t);
    var d1 := DividersEdited(d, bits, on, on2, on3);
    var c1 := AliasDown(c, d1);
    var c' := PllEdited(c1, PllBits(Connectivity, t), on);
    DividerBitsFit(t);
    EditedDividers(d, bits, on, on2, on3);
    EditedPll(Connectivity, t, c1, on);
    DownMull(c, d1);
    DownPllHse(c, d1);
    AliasDownSync(c, d1);
    if !on {
      EditedLow(d, bits, on2, on3);
      DividerBitsLow(t);
      LaterPllEven(t);
    }
    AliasUpKeeps(d1, c');
  }

  // ---- edits outside the PLL fields -------------------------------------------------------------------------

  lemma StoredClear(c: Word, clear: Word, on: bool)
    requires clear & 0x003F_000C == 0
    ensures Stored(c, Outside(c, clear), on) == Outside(c, clear)
  {
  }

  lemma OutsidePll(c: Word, clear: Word)
    requires clear & 0x003F_000C == 0
    ensures PllPart(Outside(c, clear)) == PllPart(c)
  {
  }

  lemma JoinedPll(c: Word, bits: Word)
    requires bits & 0x003F_000C == 0
    ensures PllPart(Joined(c, bits)) == PllPart(c)
  {
  }

  lemma JoinedBus(c: Word, bits: Word)
    requires bits & !0x3FF0 == 0
    ensures BusBits(Joined(c, bits)) == Joined(BusBits(c), bits)
  {
  }

  lemma JoinedZero(c: Word)
    ensures Joined(c, 0) == c
  {
  }

  lemma ZeroJoined(c: Word)
    ensures Joined(0, c) == c
  {
  }

  lemma ApbOutside(t: Target)
    ensures ApbBits(t) & !0x3FF0 == 0 && ApbBits(t) & 0x003F_000C == 0
  {
  }

  /** A prescaler of APB1 is not one of AHB. */
  lemma SameHpre(t: Target, c: Word, was: Word)
    requires BusBits(c) == Joined(BusBits(was), ApbBits(t))
    ensures HpreField(c) == HpreField(was)
  {
  }

  lemma NoBusBits(c: Word)
    requires BusBits(c) == 0
    ensures HpreField(c) == 0
  {
  }

  /** An edit that keeps the PLL fields keeps what was settled, and CFGR2. */
  lemma KeepsSettled(line: Line, t: Target, c: Word, d: Word, on: bool, on2: bool, on3: bool, a: Word, b: Word, d': Word)
    requires Settled(line, t, c, d, on, on2, on3, a, d') && PllPart(a) == PllPart(b)
    ensures Settled(line, t, c, d, on, on2, on3, b, d')
  {
    hide PllBits, DividerBits, MullField, PllHse, Xtpre, Prediv1Field, Prediv2Field, Pll2mulField, FromPll2, PllPart,
         OddField;
    SamePll(a, b);
  }

  /** Starting from registers with the same PLL fields makes no difference. */
  lemma SettledFrom(line: Line, t: Target, c: Word, d: Word, on: bool, on2: bool, on3: bool, c0: Word, a: Word, d': Word)
    requires Settled(line, t, c, d, on, on2, on3, a, d') && PllPart(c) == PllPart(c0)
    ensures Settled(line, t, c0, d, on, on2, on3, a, d')
  {
    hide PllBits, DividerBits, MullField, PllHse, Xtpre, Prediv1Field, Prediv2Field, Pll2mulField, FromPll2, PllPart,
         OddField;
    SamePll(c, c0);
  }

  lemma SameSynced(line: Line, a: Word, b: Word, d: Word)
    requires Synced(line, a, d) && PllPart(a) == PllPart(b)
    ensures Synced(line, b, d)
  {
    hide MullField, PllHse, Xtpre, LowPrediv, PllPart;
    SamePll(a, b);
  }

  // ---- the switch of the clock ----------------------------------------------------------------------------

  /** The hardware changes the switch status. */
  function Switched(c: Word, status: Word): Word { Splice(c, 0xC, status) }

  /** SW selects the PLL. */
  predicate Selected(c: Word) { c & 3 == 2 }

  lemma SwitchedAlready(c: Word)
    requires Status(c) == 8
    ensures Switched(c, 8) == c
  {
  }

  lemma SwitchFollows(c: Word)
    requires Selected(c)
    ensures Switched(c, (c & 3) << 2) == Switched(c, 8)
  {
  }

  lemma SwitchedStatus(c: Word, status: Word)
    requires status & !0xC == 0
    ensures Status(Switched(c, status)) == status
  {
    hide Splice;
    SpliceHit(c, 0xC, status);
  }

  lemma SwitchedPll(c: Word, status: Word)
    requires status & !0xC == 0
    ensures PllPart(Switched(c, status)) == PllPart(c)
  {
    hide Splice;
    SpliceMiss(c, 0xC, status, 0x003F_0000);
  }

  lemma SwitchedBus(c: Word, status: Word)
    requires status & !0xC == 0
    ensures BusBits(Switched(c, status)) == BusBits(c)
  {
    hide Splice;
    SpliceMiss(c, 0xC, status, 0x3FF0);
  }

  lemma SelectsPll(c: Word)
    ensures Selected(Joined(Outside(c, 3), 2))
  {
  }

  lemma SelectBus(c: Word)
    ensures BusBits(Joined(Outside(c, 3), 2)) == BusBits(c)
  {
  }

  // ---- reset ----------------------------------------------------------------------------------------------

  /** The two masks of SystemInit; the first differs on the connectivity line. */
  function SourceCleared(line: Line, c: Word): Word {
    c & (if line == Connectivity then 0xF0FF_0000 else 0xF8FF_0000)
  }

  function PllCleared(c: Word): Word { c & 0xFF80_FFFF }

  lemma ResetBus(line: Line, c: Word, on: bool)
    ensures BusBits(Stored(c, SourceCleared(line, c), on)) == 0
  {
  }

  lemma ResetPll(line: Line, c: Word, on: bool)
    ensures PllPart(Stored(c, SourceCleared(line, c), on)) == PllPart(c)
  {
  }

  lemma MaskedBus(c: Word, on: bool)
    requires BusBits(c) == 0
    ensures BusBits(Stored(c, PllCleared(c), on)) == 0
  {
  }

  lemma MaskedPll(c: Word)
    ensures PllPart(Stored(c, PllCleared(c), true)) == PllPart(c)
  {
  }

  lemma ClearedPll(c: Word)
    ensures PllPart(Stored(c, PllCleared(c), false)) == 0
  {
  }

  lemma DownPllPart(c: Word, d: Word)
    requires PllPart(c) == 0 && Prediv1Field(d) == 0
    ensures PllPart(AliasDown(c, d)) == 0
  {
  }

  lemma StoredStatus(c: Word, v: Word, on: bool)
    ensures Status(Stored(c, v, on)) == Status(c)
  {
  }

  lemma ZeroPrediv1(d: Word, on: bool, on2: bool, on3: bool)
    ensures Prediv1Field(StoredDividers(d, 0, on, on2, on3)) == if on then Prediv1Field(d) else 0
  {
  }

  lemma ZeroFromPll2(d: Word, on: bool, on2: bool, on3: bool)
    ensures FromPll2(StoredDividers(d, 0, on, on2, on3)) <==> on && FromPll2(d)
  {
  }

  lemma ZeroPrediv2(d: Word, on: bool, on3: bool)
    ensures Prediv2Field(StoredDividers(d, 0, on, true, on3)) == Prediv2Field(d)
  {
  }

  lemma ZeroPll2mul(d: Word, on: bool, on3: bool)
    ensures Pll2mulField(StoredDividers(d, 0, on, true, on3)) == Pll2mulField(d)
  {
  }

  /** The fields of a PLL that could not be turned off, and of the PLL2 that feeds it if that
      could not be either. */
  predicate KeptPll(line: Line, c: Word, d: Word, c': Word, d': Word, fed: bool) {
    MullField(c') == MullField(c) && (PllHse(c') <==> PllHse(c)) &&
    (line == Standard ==> (Xtpre(c') <==> Xtpre(c))) &&
    (line != Standard ==> Prediv1Field(d') == Prediv1Field(d) && (FromPll2(d') <==> FromPll2(d))) &&
    (fed && line == Connectivity && PllHse(c) && FromPll2(d) ==>
       Prediv2Field(d') == Prediv2Field(d) && Pll2mulField(d') == Pll2mulField(d))
  }

  lemma KeptFrom(line: Line, c: Word, d: Word, c': Word, d': Word, fed: bool)
    requires PllPart(c) == PllPart(c') && d == d'
    ensures KeptPll(line, c, d, c', d', fed)
  {
    hide MullField, PllHse, Xtpre, Prediv1Field, FromPll2, Prediv2Field, Pll2mulField, PllPart;
    SamePll(c, c');
  }

  /** The reset of the dividers leaves a PLL that is on as it is. */
  lemma ZeroKeeps(line: Line, c: Word, d: Word, c1: Word, d1: Word, fed: bool, on2: bool, on3: bool)
    requires line != Standard && KeptPll(line, c, d, c1, d1, fed)
    requires fed && line == Connectivity && PllHse(c1) && FromPll2(d1) ==> on2
    ensures var e := StoredDividers(d1, 0, true, on2, on3);
            KeptPll(line, c, d, AliasDown(c1, e), e, fed) && (FromPll2(e) <==> FromPll2(d1))
  {
    hide StoredDividers, AliasDown, MullField, PllHse, Xtpre, Prediv1Field, FromPll2, Prediv2Field, Pll2mulField;
    var e := StoredDividers(d1, 0, true, on2, on3);
    DownMull(c1, e);
    DownPllHse(c1, e);
    ZeroPrediv1(d1, true, on2, on3);
    ZeroFromPll2(d1, true, on2, on3);
    if on2 {
      ZeroPrediv2(d1, true, on3);
      ZeroPll2mul(d1, true, on3);
    }
  }

  /** And clears everything if the PLL is off. */
  lemma ZeroClears(c1: Word, d1: Word, on2: bool, on3: bool)
    requires PllPart(c1) == 0
    ensures var e := StoredDividers(d1, 0, false, on2, on3);
            PllPart(AliasDown(c1, e)) == 0 && Prediv1Field(e) == 0
  {
    hide StoredDividers, AliasDown, PllPart, Prediv1Field;
    var e := StoredDividers(d1, 0, false, on2, on3);
    ZeroPrediv1(d1, false, on2, on3);
    DownPllPart(c1, e);
  }
}
