/** The interrupt controller: a set of enabled interrupts behind write-one registers, and
    a priority byte for each (CORE/core_cm3.h, FWLIB/STM32F10x_FWLib/src/misc.c). */
module NvicController {
  import opened Words
  import opened NvicPriority

  const IRQS: nat := 240

  // ---- the controller as a caller sees it --------------------------------------------------

  datatype State<W> = State(enabled: set<nat>, bytes: seq<W>)

  datatype Call<W> = Enable(irq: nat) | Disable(irq: nat) | Assign(irq: nat, byte: W)

  function Apply<W>(s: State<W>, c: Call<W>): (r: State<W>)
    ensures |r.bytes| == |s.bytes|
  {
    match c
    case Enable(irq) => s.(enabled := s.enabled + {irq})
    case Disable(irq) => s.(enabled := s.enabled - {irq})
    case Assign(irq, byte) => if irq < |s.bytes| then s.(bytes := s.bytes[irq := byte]) else s
  }

  function ApplyAll<W>(s: State<W>, cs: seq<Call<W>>): (r: State<W>)
    ensures |r.bytes| == |s.bytes|
    decreases cs
  {
    if cs == [] then s else ApplyAll(Apply(s, cs[0]), cs[1..])
  }

  /** Call `k` is the last of a run to enable or disable the interrupt. */
  predicate LastSwitch<W>(cs: seq<Call<W>>, k: nat, irq: nat)
    requires k < |cs|
  {
    !cs[k].Assign? && cs[k].irq == irq && forall j | k < j < |cs| && cs[j].irq == irq :: cs[j].Assign?
  }

  lemma LastSwitchTail<W>(cs: seq<Call<W>>, k: nat, irq: nat)
    requires k + 1 < |cs|
    ensures LastSwitch(cs, k + 1, irq) <==> LastSwitch(cs[1..], k, irq)
  {
    var t := cs[1..];
    assert forall j | 0 <= j < |t| :: t[j] == cs[j + 1];
    if LastSwitch(t, k, irq) {
      forall j | k + 1 < j < |cs| && cs[j].irq == irq
        ensures cs[j].Assign?
      {
        assert t[j - 1] == cs[j];
      }
    }
  }

  /** Over any run an interrupt is enabled exactly when the last call to switch it
      enabled it, or none switched it and it was; calls on others make no difference. */
  lemma {:induction false} EnabledByLastSwitch<W>(s: State<W>, cs: seq<Call<W>>, irq: nat)
    ensures irq in ApplyAll(s, cs).enabled <==>
            (exists k: nat :: k < |cs| && LastSwitch(cs, k, irq) && cs[k].Enable?) ||
            (irq in s.enabled && forall k | 0 <= k < |cs| && cs[k].irq == irq :: cs[k].Assign?)
    decreases cs
  {
    if cs == [] {
    } else {
      EnabledByLastSwitch(Apply(s, cs[0]), cs[1..], irq);
      forall k: nat | k + 1 < |cs|
        ensures LastSwitch(cs, k + 1, irq) <==> LastSwitch(cs[1..], k, irq)
      {
        LastSwitchTail(cs, k, irq);
      }
      if k: nat :| k < |cs| && LastSwitch(cs, k, irq) && cs[k].Enable? {
        if k > 0 {
          assert LastSwitch(cs[1..], k - 1, irq);
        } else {
          assert forall j | 0 <= j < |cs[1..]| && cs[1..][j].irq == irq :: cs[1..][j] == cs[j + 1];
        }
      }
      if k: nat :| k < |cs[1..]| && LastSwitch(cs[1..], k, irq) && cs[1..][k].Enable? {
        assert LastSwitch(cs, k + 1, irq) && cs[k + 1].Enable?;
      }
      if irq in Apply(s, cs[0]).enabled && forall k | 0 <= k < |cs[1..]| && cs[1..][k].irq == irq :: cs[1..][k].Assign? {
        assert forall j | 0 < j < |cs| :: cs[j] == cs[1..][j - 1];
        if cs[0].irq == irq && !cs[0].Assign? {
          assert LastSwitch(cs, 0, irq);
        }
      }
      assert forall j | 0 <= j < |cs[1..]| :: cs[1..][j] == cs[j + 1];
    }
  }

  // ---- write-one registers -------------------------------------------------------------------

  /** The interrupts whose bit is set; interrupt `i` is bit `i & 0x1F` of word `i >> 5`. */
  function EnabledSet(words: seq<Word>): set<nat>
    requires |words| == 8
  {
    set i: nat | i < 256 && Has(words[i / 32], i % 32)
  }

  lemma SetEnables(words: seq<Word>, irq: nat)
    requires |words| == 8 && irq < 256
    ensures EnabledSet(words[irq / 32 := SetBit(words[irq / 32], irq % 32)]) == EnabledSet(words) + {irq}
  {
    hide Has, SetBit;
    var after := words[irq / 32 := SetBit(words[irq / 32], irq % 32)];
    forall i: nat | i < 256
      ensures Has(after[i / 32], i % 32) <==> i == irq || Has(words[i / 32], i % 32)
    {
      HasSetBit(words[irq / 32], irq % 32, i % 32);
    }
  }

  lemma ClearDisables(words: seq<Word>, irq: nat)
    requires |words| == 8 && irq < 256
    ensures EnabledSet(words[irq / 32 := ClearBit(words[irq / 32], irq % 32)]) == EnabledSet(words) - {irq}
  {
    hide Has, ClearBit;
    var after := words[irq / 32 := ClearBit(words[irq / 32], irq % 32)];
    forall i: nat | i < 256
      ensures Has(after[i / 32], i % 32) <==> i != irq && Has(words[i / 32], i % 32)
    {
      HasClearBit(words[irq / 32], irq % 32, i % 32);
    }
  }

  lemma NoneEnabled()
    ensures EnabledSet(seq(8, i => 0)) == {}
  {
    hide Has;
    forall i: nat | i < 256
      ensures !Has(0, i % 32)
    {
      HasZero(i % 32);
    }
  }

  // ---- the driver ---------------------------------------------------------------------------------

  class Controller {
    const ENABLED: array<Word>
    const IP: array<Word>
    const SHP: array<Word>
    var AIRCR: Word

    ghost predicate Valid()
      reads this
    {
      ENABLED.Length == 8 && IP.Length == IRQS && SHP.Length == 12 &&
      ENABLED != IP && IP != SHP && ENABLED != SHP
    }

    /** The registers after a hardware reset: no interrupt is enabled. */
    constructor ()
      ensures Valid() && fresh(ENABLED) && fresh(IP) && fresh(SHP)
      ensures View() == State({}, seq(IRQS, i => 0)) && PriGroup(AIRCR) == 0
    {
      NoneEnabled();
      ENABLED := new Word[8](_ => 0);
      IP := new Word[IRQS](_ => 0);
      SHP := new Word[12](_ => 0);
      AIRCR := 0xFA05_0000;
      new;
      hide Has;
      assert ENABLED[..] == seq(8, i => 0) && IP[..] == seq(IRQS, i => 0);
    }

    ghost function View(): State<Word>
      requires Valid()
      reads this, ENABLED, IP
    {
      State(EnabledSet(ENABLED[..]), IP[..])
    }

    /** The priority byte of an interrupt, or of a system handler for a negative number. */
    ghost function ByteOf(irq: int): Word
      requires Valid() && -12 <= irq < IRQS
      reads this, IP, SHP
    {
      if irq < 0 then SHP[irq + 12] else IP[irq]
    }

    /** Writing ones to ISER sets bits; zeros have no effect. */
    method WriteISER(k: nat, v: Word)
      requires Valid() && k < 8
      modifies ENABLED
      ensures ENABLED[..] == old(ENABLED[..])[k := old(ENABLED[k]) | v]
    {
      ENABLED[k] := ENABLED[k] | v;
    }

    /** Writing ones to ICER clears bits; zeros have no effect. */
    method WriteICER(k: nat, v: Word)
      requires Valid() && k < 8
      modifies ENABLED
      ensures ENABLED[..] == old(ENABLED[..])[k := old(ENABLED[k]) & !v]
    {
      ENABLED[k] := ENABLED[k] & !v;
    }

    method EnableIRQ(irq: nat)
      requires Valid() && irq < IRQS
      modifies ENABLED
      ensures View() == Apply(old(View()), Enable(irq)) && Has(ENABLED[irq / 32], irq % 32)
    {
      hide Has, Bit;
      SetEnables(ENABLED[..], irq);
      HasSetBit(ENABLED[irq / 32], irq % 32, irq % 32);
      WriteISER(irq / 32, Bit(irq % 32));
    }

    method DisableIRQ(irq: nat)
      requires Valid() && irq < IRQS
      modifies ENABLED
      ensures View() == Apply(old(View()), Disable(irq)) && !Has(ENABLED[irq / 32], irq % 32)
    {
      hide Has, Bit;
      ClearDisables(ENABLED[..], irq);
      HasClearBit(ENABLED[irq / 32], irq % 32, irq % 32);
      WriteICER(irq / 32, Bit(irq % 32));
    }

    /** NVIC_SetPriority; the index of a system handler is `(irq & 0xF) - 4`. */
    method SetPriority(irq: int, priority: Word)
      requires Valid() && -12 <= irq < IRQS
      modifies IP, SHP
      ensures ByteOf(irq) == Stored(priority)
      ensures forall i | -12 <= i < IRQS && i != irq :: ByteOf(i) == old(ByteOf(i))
      ensures irq >= 0 ==> View() == Apply(old(View()), Assign(irq, Stored(priority)))
      ensures irq < 0 ==> View() == old(View())
      ensures if irq < 0 then SHP[..] == old(SHP[..])[irq + 12 := Stored(priority)] && IP[..] == old(IP[..])
              else IP[..] == old(IP[..])[irq := Stored(priority)] && SHP[..] == old(SHP[..])
    {
      hide Stored, Has;
      if irq < 0 {
        SHP[irq % 16 - 4] := Stored(priority);
      } else {
        IP[irq] := Stored(priority);
      }
    }

    method GetPriority(irq: int) returns (priority: Word)
      requires Valid() && -12 <= irq < IRQS
      ensures priority == Read(ByteOf(irq))
      ensures priority == Read(if irq < 0 then SHP[irq + 12] else IP[irq])
    {
      hide Read;
      if irq < 0 {
        priority := Read(SHP[irq % 16 - 4]);
      } else {
        priority := Read(IP[irq]);
      }
    }

    method WriteAIRCR(v: Word)
      modifies this`AIRCR
      ensures AIRCR == AfterAircr(old(AIRCR), v)
    {
      AIRCR := AfterAircr(AIRCR, v);
    }

    method SetPriorityGrouping(group: Word)
      modifies this`AIRCR
      ensures PriGroup(AIRCR) == group & 7
      ensures Distance(AIRCR) <= 4 <==> group & 7 >= 3
    {
      hide PriGroup, AfterAircr, GroupingWrite, Distance;
      GroupingReadBack(AIRCR, group);
      GroupingInRange(AIRCR, group);
      WriteAIRCR(GroupingWrite(AIRCR, group));
    }

    method GetPriorityGrouping() returns (group: Word)
      ensures group == PriGroup(AIRCR)
    {
      group := (AIRCR & 0x700) >> 8;
    }

    method PriorityGroupConfig(group: Word)
      requires IsGroup(group)
      modifies this`AIRCR
      ensures PriGroup(AIRCR) == group >> 8 && Distance(AIRCR) <= 4
    {
      hide PriGroup, AfterAircr, Distance;
      ConfigReadBack(AIRCR, group);
      ConfigInRange(AIRCR, group);
      WriteAIRCR(0x05FA_0000 | group);
    }

    /** NVIC_Init; an enabled channel gets its priority first. The shift distance must be
        in range, which it is once a group is configured. */
    method Init(irq: nat, preempt: Word, sub: Word, enable: bool)
      requires Valid() && irq < IRQS
      requires enable ==> Distance(AIRCR) <= 4
      modifies ENABLED, IP
      ensures View() == if enable then
                Apply(Apply(old(View()), Assign(irq, Stored(Encode(PriGroup(AIRCR), preempt, sub)))), Enable(irq))
              else Apply(old(View()), Disable(irq))
      ensures Has(ENABLED[irq / 32], irq % 32) <==> enable
      ensures enable ==> IP[irq] == Stored(Encode(PriGroup(AIRCR), preempt, sub))
    {
      if enable {
        SameByte(AIRCR, preempt, sub);
        hide InitByte, Stored, Encode, PriGroup, Has, Distance;
        IP[irq] := InitByte(AIRCR, preempt, sub);
        EnableIRQ(irq);
      } else {
        hide InitByte, Stored, Encode, PriGroup, Has, Distance;
        DisableIRQ(irq);
      }
    }
  }
}
