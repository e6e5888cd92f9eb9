/** External interrupt lines: interrupt and event masks and the edge selections
    (FWLIB/STM32F10x_FWLib/src/stm32f10x_exti.c). */
module Exti {
  import opened Words

  // ---- a line as a caller sees it ---------------------------------------------------

  datatype Mode = Interrupt | Event
  datatype Trigger = Rising | Falling | RisingFalling
  datatype Line = Line(interrupt: bool, event: bool, rising: bool, falling: bool)
  datatype Call = Call(lines: set<nat>, mode: Mode, trigger: Trigger, enable: bool)

  const LINES: nat := 20

  function Enabled(c: Call): Line {
    Line(c.mode == Interrupt, c.mode == Event, c.trigger != Falling, c.trigger != Rising)
  }

  /** Enabling replaces the whole configuration of a line; disabling clears it from the
      register of the given mode only. */
  function After(l: Line, c: Call): Line {
    if c.enable then Enabled(c)
    else if c.mode == Interrupt then l.(interrupt := false)
    else l.(event := false)
  }

  function Apply(s: seq<Line>, c: Call): (r: seq<Line>)
    ensures |r| == |s|
  {
    seq(|s|, i requires 0 <= i < |s| => if i in c.lines then After(s[i], c) else s[i])
  }

  function Run(s: seq<Line>, cs: seq<Call>): (r: seq<Line>)
    ensures |r| == |s|
    decreases |cs|
  {
    if cs == [] then s else Apply(Run(s, cs[..|cs| - 1]), cs[|cs| - 1])
  }

  function Reset(): (s: seq<Line>)
    ensures |s| == LINES
  {
    seq(LINES, i requires 0 <= i < LINES => Line(false, false, false, false))
  }

  predicate On(l: Line) {
    l.interrupt || l.event
  }

  /** Not in both masks, and an edge is selected for a line that is in one. */
  predicate Sane(l: Line) {
    !(l.interrupt && l.event) && (On(l) ==> l.rising || l.falling)
  }

  lemma {:induction false} AlwaysSane(cs: seq<Call>)
    ensures forall i: nat | i < LINES :: Sane(Run(Reset(), cs)[i])
    decreases |cs|
  {
    if cs == [] {
    } else {
      AlwaysSane(cs[..|cs| - 1]);
    }
  }

  /** Call `k` enables the line and no later call touches it, except to disable it in the
      other mode. */
  predicate Holds(cs: seq<Call>, k: nat, line: nat)
    requires k < |cs|
  {
    line in cs[k].lines && cs[k].enable &&
    forall j | k < j < |cs| && line in cs[j].lines :: !cs[j].enable && cs[j].mode != cs[k].mode
  }

  lemma HoldsPrefix(cs: seq<Call>, k: nat, line: nat)
    requires k + 1 < |cs|
    ensures Holds(cs, k, line) <==>
            Holds(cs[..|cs| - 1], k, line) &&
            var c := cs[|cs| - 1]; line in c.lines ==> !c.enable && c.mode != cs[k].mode
  {
    var was := cs[..|cs| - 1];
    assert forall j | k < j < |was| :: was[j] == cs[j];
  }

  /** A line that is on has the mode and edges of the call that holds it. */
  lemma {:induction false} HoldsConfigures(cs: seq<Call>, k: nat, line: nat)
    requires k < |cs| && line < LINES && Holds(cs, k, line)
    ensures Run(Reset(), cs)[line] == Enabled(cs[k])
    decreases |cs|
  {
    if k + 1 == |cs| {
    } else {
      HoldsPrefix(cs, k, line);
      HoldsConfigures(cs[..|cs| - 1], k, line);
    }
  }

  lemma {:induction false} OnIsHeld(cs: seq<Call>, line: nat) returns (k: nat)
    requires line < LINES && On(Run(Reset(), cs)[line])
    ensures k < |cs| && Holds(cs, k, line)
    decreases |cs|
  {
    if cs == [] {
      assert false;
    } else {
      var c := cs[|cs| - 1];
      if line in c.lines && c.enable {
        k := |cs| - 1;
      } else {
        k := OnIsHeld(cs[..|cs| - 1], line);
        HoldsConfigures(cs[..|cs| - 1], k, line);
        HoldsPrefix(cs, k, line);
      }
    }
  }

  /** Over any run from reset, a line is on exactly when some enabling call still holds
      it, and then its mode and edges are those of that call. */
  lemma OnExactlyWhenHeld(cs: seq<Call>, line: nat)
    requires line < LINES
    ensures On(Run(Reset(), cs)[line]) <==> exists k: nat :: k < |cs| && Holds(cs, k, line)
    ensures forall k: nat | k < |cs| && Holds(cs, k, line) :: Run(Reset(), cs)[line] == Enabled(cs[k])
  {
    if On(Run(Reset(), cs)[line]) {
      var k := OnIsHeld(cs, line);
    }
    forall k: nat | k < |cs| && Holds(cs, k, line)
      ensures Run(Reset(), cs)[line] == Enabled(cs[k])
    {
      HoldsConfigures(cs, k, line);
    }
  }

  /** Disabling turns a line off exactly when it is not on in the other mode. */
  lemma DisableTurnsOff(s: seq<Line>, c: Call, line: nat)
    requires line < |s| && line in c.lines && !c.enable && Sane(s[line])
    ensures !On(Apply(s, c)[line]) <==> !On(s[line]) || (c.mode == Interrupt <==> s[line].interrupt)
  {
  }

  /** A line enabled for interrupts stays enabled when it is disabled in event mode. */
  lemma DisableMisses(line: nat)
    requires line < LINES
    ensures var enable := Call({line}, Interrupt, Rising, true);
            Run(Reset(), [enable, enable.(mode := Event, enable := false)])[line] == Line(true, false, true, false)
  {
    var enable := Call({line}, Interrupt, Rising, true);
    HoldsConfigures([enable, enable.(mode := Event, enable := false)], 0, line);
  }

  // ---- the registers ----------------------------------------------------------------------

  datatype Registers = Registers(imr: Word, emr: Word, rtsr: Word, ftsr: Word)

  function LineOf(r: Registers, i: nat): Line
    requires i < LINES
  {
    Line(Has(r.imr, i), Has(r.emr, i), Has(r.rtsr, i), Has(r.ftsr, i))
  }

  function View(r: Registers): (s: seq<Line>)
    ensures |s| == LINES
  {
    seq(LINES, i requires 0 <= i < LINES => LineOf(r, i))
  }

  function Selected(mask: Word): set<nat> {
    set i: nat | i < LINES && Has(mask, i)
  }

  function SetMask(w: Word, m: Word): Word {
    w | m
  }

  function ClearMask(w: Word, m: Word): Word {
    w & !m
  }

  lemma HasSetMask(w: Word, m: Word, i: nat)
    requires i < 32
    ensures Has(SetMask(w, m), i) <==> Has(w, i) || Has(m, i)
  {
    hide Has;
    HasOr(w, m, i);
  }

  lemma HasClearMask(w: Word, m: Word, i: nat)
    requires i < 32
    ensures Has(ClearMask(w, m), i) <==> Has(w, i) && !Has(m, i)
  {
    hide Has;
    HasClear(w, m, i);
  }

  function Written(w: Word, m: Word, on: bool): Word {
    if on then SetMask(ClearMask(w, m), m) else ClearMask(w, m)
  }

  lemma HasWritten(w: Word, m: Word, on: bool, i: nat)
    requires i < 32
    ensures Has(Written(w, m, on), i) == if Has(m, i) then on else Has(w, i)
  {
    hide Has, SetMask, ClearMask;
    HasClearMask(w, m, i);
    HasSetMask(ClearMask(w, m), m, i);
  }

  /** The registers after a call on the lines of a mask. */
  function Executed(r: Registers, mask: Word, mode: Mode, trigger: Trigger, enable: bool): Registers {
    if enable then
      var l := Enabled(Call({}, mode, trigger, true));
      Registers(Written(r.imr, mask, l.interrupt), Written(r.emr, mask, l.event),
                Written(r.rtsr, mask, l.rising), Written(r.ftsr, mask, l.falling))
    else if mode == Interrupt then r.(imr := ClearMask(r.imr, mask))
    else r.(emr := ClearMask(r.emr, mask))
  }

  /** Bit `i` of each register after a call: a selected line is enabled in the register of
      its mode only, with its edges; disabling clears it in the register of the mode given. */
  predicate BitAfter(r: Registers, r': Registers, mask: Word, mode: Mode, trigger: Trigger, enable: bool, i: nat)
    requires i < 32
  {
    if !Has(mask, i) then
      Has(r'.imr, i) == Has(r.imr, i) && Has(r'.emr, i) == Has(r.emr, i) &&
      Has(r'.rtsr, i) == Has(r.rtsr, i) && Has(r'.ftsr, i) == Has(r.ftsr, i)
    else if enable then
      (Has(r'.imr, i) <==> mode == Interrupt) && (Has(r'.emr, i) <==> mode == Event) &&
      (Has(r'.rtsr, i) <==> trigger == Rising || trigger == RisingFalling) &&
      (Has(r'.ftsr, i) <==> trigger == Falling || trigger == RisingFalling)
    else
      (if mode == Interrupt then !Has(r'.imr, i) && Has(r'.emr, i) == Has(r.emr, i)
       else Has(r'.imr, i) == Has(r.imr, i) && !Has(r'.emr, i)) &&
      Has(r'.rtsr, i) == Has(r.rtsr, i) && Has(r'.ftsr, i) == Has(r.ftsr, i)
  }

  lemma ExecutedBit(r: Registers, mask: Word, mode: Mode, trigger: Trigger, enable: bool, i: nat)
    requires i < 32
    ensures BitAfter(r, Executed(r, mask, mode, trigger, enable), mask, mode, trigger, enable, i)
  {
    hide Has, Written, ClearMask;
    if enable {
      var l := Enabled(Call({}, mode, trigger, true));
      HasWritten(r.imr, mask, l.interrupt, i);
      HasWritten(r.emr, mask, l.event, i);
      HasWritten(r.rtsr, mask, l.rising, i);
      HasWritten(r.ftsr, mask, l.falling, i);
    } else {
      HasClearMask(r.imr, mask, i);
      HasClearMask(r.emr, mask, i);
    }
  }

  lemma ExecutedLine(r: Registers, mask: Word, mode: Mode, trigger: Trigger, enable: bool, i: nat)
    requires i < LINES
    ensures LineOf(Executed(r, mask, mode, trigger, enable), i) ==
            if Has(mask, i) then After(LineOf(r, i), Call({}, mode, trigger, enable)) else LineOf(r, i)
  {
    hide Has, Written, ClearMask;
    if enable {
      var l := Enabled(Call({}, mode, trigger, true));
      HasWritten(r.imr, mask, l.interrupt, i);
      HasWritten(r.emr, mask, l.event, i);
      HasWritten(r.rtsr, mask, l.rising, i);
      HasWritten(r.ftsr, mask, l.falling, i);
    } else {
      HasClearMask(r.imr, mask, i);
      HasClearMask(r.emr, mask, i);
    }
  }

  /** The call on the registers is the call on the lines they hold. */
  lemma ExecutedView(r: Registers, mask: Word, mode: Mode, trigger: Trigger, enable: bool)
    ensures View(Executed(r, mask, mode, trigger, enable)) ==
            Apply(View(r), Call(Selected(mask), mode, trigger, enable))
  {
    hide LineOf, Executed, Has;
    forall i: nat | i < LINES
      ensures LineOf(Executed(r, mask, mode, trigger, enable), i) ==
              if Has(mask, i) then After(LineOf(r, i), Call({}, mode, trigger, enable)) else LineOf(r, i)
    {
      ExecutedLine(r, mask, mode, trigger, enable, i);
    }
  }

  lemma ResetView()
    ensures View(Registers(0, 0, 0, 0)) == Reset()
  {
    hide Has;
    forall i: nat | i < LINES ensures !Has(0, i) {
      HasZero(i);
    }
  }

  // ---- the driver ------------------------------------------------------------------------------

  function ModeOffset(m: Mode): nat {
    if m == Interrupt then 0x00 else 0x04
  }

  /** The trigger codes: an offset, except for the last, which would be SWIER's. */
  function TriggerOffset(t: Trigger): nat {
    match t
    case Rising => 0x08
    case Falling => 0x0C
    case RisingFalling => 0x10
  }

  class Device {
    var IMR: Word
    var EMR: Word
    var RTSR: Word
    var FTSR: Word
    var PR: Word

    ghost function Values(): Registers
      reads this
    {
      Registers(IMR, EMR, RTSR, FTSR)
    }

    /** EXTI_DeInit. Writing ones to PR clears the twenty pending bits (section 10.3.6 of
        RM0008). */
    method DeInit()
      modifies this
      ensures View(Values()) == Reset() && Values() == Registers(0, 0, 0, 0)
      ensures PR == ClearMask(old(PR), 0x000F_FFFF)
    {
      hide View, ClearMask;
      ResetView();
      IMR := 0;
      EMR := 0;
      RTSR := 0;
      FTSR := 0;
      PR := ClearMask(PR, 0x000F_FFFF);
    }

    /** A read-modify-write that sets bits through a computed address. */
    method SetAt(offset: nat, line: Word)
      requires offset == 0x00 || offset == 0x04 || offset == 0x08 || offset == 0x0C
      modifies this`IMR, this`EMR, this`RTSR, this`FTSR
      ensures Values() == match offset
              case 0x00 => old(Values()).(imr := SetMask(old(IMR), line))
              case 0x04 => old(Values()).(emr := SetMask(old(EMR), line))
              case 0x08 => old(Values()).(rtsr := SetMask(old(RTSR), line))
              case _ => old(Values()).(ftsr := SetMask(old(FTSR), line))
    {
      hide SetMask;
      match offset {
        case 0x00 => IMR := SetMask(IMR, line);
        case 0x04 => EMR := SetMask(EMR, line);
        case 0x08 => RTSR := SetMask(RTSR, line);
        case _ => FTSR := SetMask(FTSR, line);
      }
    }

    method ClearAt(offset: nat, line: Word)
      requires offset == 0x00 || offset == 0x04
      modifies this`IMR, this`EMR
      ensures Values() == if offset == 0 then old(Values()).(imr := ClearMask(old(IMR), line))
                          else old(Values()).(emr := ClearMask(old(EMR), line))
    {
      hide ClearMask;
      if offset == 0 {
        IMR := ClearMask(IMR, line);
      } else {
        EMR := ClearMask(EMR, line);
      }
    }

    method SelectMode(line: Word, mode: Mode)
      modifies this`IMR, this`EMR, this`RTSR, this`FTSR
      ensures Values() == Registers(Written(old(IMR), line, mode == Interrupt),
                                    Written(old(EMR), line, mode == Event), old(RTSR), old(FTSR))
    {
      hide SetMask, ClearMask;
      IMR := ClearMask(IMR, line);
      EMR := ClearMask(EMR, line);
      SetAt(ModeOffset(mode), line);
    }

    method SelectEdges(line: Word, trigger: Trigger)
      modifies this`IMR, this`EMR, this`RTSR, this`FTSR
      ensures Values() == Registers(old(IMR), old(EMR), Written(old(RTSR), line, trigger != Falling),
                                    Written(old(FTSR), line, trigger != Rising))
    {
      hide SetMask, ClearMask;
      RTSR := ClearMask(RTSR, line);
      FTSR := ClearMask(FTSR, line);
      if trigger == RisingFalling {
        RTSR := SetMask(RTSR, line);
        FTSR := SetMask(FTSR, line);
      } else {
        SetAt(TriggerOffset(trigger), line);
      }
    }

    /** EXTI_Init. */
    method Init(line: Word, mode: Mode, trigger: Trigger, enable: bool)
      requires line & 0xFFF0_0000 == 0 && line != 0
      modifies this`IMR, this`EMR, this`RTSR, this`FTSR
      ensures View(Values()) == Apply(View(old(Values())), Call(Selected(line), mode, trigger, enable))
      ensures Values() == Executed(old(Values()), line, mode, trigger, enable)
      ensures forall i: nat | i < 32 :: BitAfter(old(Values()), Values(), line, mode, trigger, enable, i)
    {
      hide View, Apply, Selected, Written, ClearMask, BitAfter;
      ExecutedView(Values(), line, mode, trigger, enable);
      forall i: nat | i < 32
        ensures BitAfter(Values(), Executed(Values(), line, mode, trigger, enable), line, mode, trigger, enable, i)
      {
        ExecutedBit(Values(), line, mode, trigger, enable, i);
      }
      if enable {
        SelectMode(line, mode);
        SelectEdges(line, trigger);
      } else {
        ClearAt(ModeOffset(mode), line);
      }
    }
  }
}
