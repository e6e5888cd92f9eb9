/** The CAN transmit status register: one group of flags per mailbox, cleared by
    writing ones (rc_w1) as section 24.9.2 of the reference manual RM0008 says, and
    the status the driver derives from it. */
module CanTsr {
  import opened Words

  type Byte = bv8

  const STATUS_FAILED: Byte := 0
  const STATUS_OK: Byte := 1
  const STATUS_PENDING: Byte := 2
  const NO_MAILBOX: Byte := 4

  /** The flags the driver reads or writes: RQCP, TXOK, ABRQ and TME. */
  datatype Flag = Done | Ok | Abort | Empty

  function Mask(f: Flag, m: nat): Word {
    match f
    case Done => if m == 0 then 0x1 else if m == 1 then 0x100 else 0x1_0000
    case Ok => if m == 0 then 0x2 else if m == 1 then 0x200 else 0x2_0000
    case Abort => if m == 0 then 0x80 else if m == 1 then 0x8000 else 0x80_0000
    case Empty => if m == 0 then 0x400_0000 else if m == 1 then 0x800_0000 else 0x1000_0000
  }

  /** ALST and TERR, which the driver never looks at. */
  function Noise(m: nat): Word {
    if m == 0 then 0xC else if m == 1 then 0xC00 else 0xC_0000
  }

  /** The completion flags RQCP, TXOK, ALST and TERR. */
  function Group(m: nat): Word {
    if m == 0 then 0xF else if m == 1 then 0xF00 else 0xF_0000
  }

  /** RQCP, TXOK and ABRQ of mailbox `m` are bits 0, 1 and 7 of its byte, TME is bit 26 + `m`
      (section 24.9.2 of RM0008). */
  lemma FlagPlaces(m: nat)
    requires m < 3
    ensures Mask(Done, m) == Bit(8 * m) && Mask(Ok, m) == Bit(8 * m + 1)
    ensures Mask(Abort, m) == Bit(8 * m + 7) && Mask(Empty, m) == Bit(26 + m)
  {
  }

  /** ALST and TERR are bits 2 and 3 of the byte; the flags that a completion acknowledges are
      its lower four. */
  lemma ErrorPlaces(m: nat)
    requires m < 3
    ensures Noise(m) == Bit(8 * m + 2) | Bit(8 * m + 3) && Group(m) == Mask(Done, m) | Mask(Ok, m) | Noise(m)
  {
  }

  predicate Is(tsr: Word, f: Flag, m: nat) {
    Meets(tsr, Mask(f, m))
  }

  // ---- what the hardware does to the register ----------------------------------

  function StartedBits(m: nat): Word {
    Group(m) | Mask(Empty, m)
  }

  function Without(w: Word, m: Word): Word {
    w & !m
  }

  /** A transmit request was written to mailbox `m`. */
  function Started(tsr: Word, m: nat): Word {
    Without(tsr, StartedBits(m))
  }

  function FinishedBits(m: nat, ok: bool, noise: Word): Word {
    Mask(Empty, m) | Mask(Done, m) | (if ok then Mask(Ok, m) else 0) | (noise & Noise(m))
  }

  /** Mailbox `m` became empty. */
  function Finished(tsr: Word, m: nat, ok: bool, noise: Word): Word {
    Splice(tsr, Group(m) | Mask(Abort, m), FinishedBits(m, ok, noise))
  }

  /** An attempt to send failed and will be repeated. */
  function Retried(tsr: Word, m: nat, noise: Word): Word {
    Splice(tsr, Noise(m), noise & Noise(m))
  }

  /** The priority code fields changed. */
  function Ranked(tsr: Word, noise: Word): Word {
    Splice(tsr, 0xE300_0000, noise & 0xE300_0000)
  }

  /** Flags of mailbox `m` that a software write of `v` clears: clearing RQCP
      clears the whole group. */
  function Acknowledged(v: Word, m: nat): Word {
    if Is(v, Done, m) then Group(m) else v & Group(m)
  }

  /** An abort request has an effect only on a mailbox that is pending. */
  function AbortSet(tsr: Word, v: Word, m: nat): Word {
    if Is(v, Abort, m) && !Is(tsr, Empty, m) then Mask(Abort, m) else 0
  }

  function Or3(a: Word, b: Word, c: Word): Word {
    a | (b | c)
  }

  /** Software writes `v` to the register. */
  function Written(tsr: Word, v: Word): Word {
    Splice(tsr,
      Or3(Acknowledged(v, 0), Acknowledged(v, 1), Acknowledged(v, 2)),
      Or3(AbortSet(tsr, v, 0), AbortSet(tsr, v, 1), AbortSet(tsr, v, 2)))
  }

  lemma MeetsWithout(w: Word, m: Word, k: Word)
    requires OneHot(k)
    ensures Meets(Without(w, m), k) <==> Meets(w, k) && !Meets(m, k)
  {
    hide Meets, OneHot;
    MeetsClear(w, m, k);
  }

  lemma MaskIsOneHot(f: Flag, k: nat)
    requires k < 3
    ensures OneHot(Mask(f, k))
  {
  }

  lemma StartedClears(m: nat, f: Flag, k: nat)
    requires m < 3 && k < 3
    ensures Meets(StartedBits(m), Mask(f, k)) <==> k == m && !f.Abort?
  {
  }

  lemma StartedFlag(tsr: Word, m: nat, f: Flag, k: nat)
    requires m < 3 && k < 3
    ensures Is(Started(tsr, m), f, k) <==> if k == m && !f.Abort? then false else Is(tsr, f, k)
  {
    hide Mask, StartedBits, Meets, OneHot, Without;
    MaskIsOneHot(f, k);
    StartedClears(m, f, k);
    MeetsWithout(tsr, StartedBits(m), Mask(f, k));
  }

  lemma FinishedClears(m: nat, f: Flag, k: nat)
    requires m < 3 && k < 3
    ensures Meets(Group(m) | Mask(Abort, m), Mask(f, k)) <==> k == m && !f.Empty?
  {
  }

  lemma FinishedSets(m: nat, ok: bool, noise: Word, f: Flag, k: nat)
    requires m < 3 && k < 3
    ensures Meets(FinishedBits(m, ok, noise), Mask(f, k)) <==> k == m && (if f.Ok? then ok else !f.Abort?)
  {
  }

  lemma FinishedFlag(tsr: Word, m: nat, ok: bool, noise: Word, f: Flag, k: nat)
    requires m < 3 && k < 3
    ensures Is(Finished(tsr, m, ok, noise), f, k) <==>
            if k == m then (if f.Ok? then ok else !f.Abort?) else Is(tsr, f, k)
  {
    MaskIsOneHot(f, k);
    FinishedClears(m, f, k);
    FinishedSets(m, ok, noise, f, k);
    SpliceMeets(tsr, Group(m) | Mask(Abort, m), FinishedBits(m, ok, noise), Mask(f, k));
  }

  lemma RetriedFlag(tsr: Word, m: nat, noise: Word, f: Flag, k: nat)
    requires m < 3 && k < 3
    ensures Is(Retried(tsr, m, noise), f, k) <==> Is(tsr, f, k)
  {
  }

  lemma RankedFlag(tsr: Word, noise: Word, f: Flag, k: nat)
    requires k < 3
    ensures Is(Ranked(tsr, noise), f, k) <==> Is(tsr, f, k)
  {
  }

  lemma AcknowledgedFlag(v: Word, m: nat, f: Flag, k: nat)
    requires m < 3 && k < 3
    ensures Meets(Acknowledged(v, m), Mask(f, k)) <==>
            k == m && (f.Done? || f.Ok?) && (Is(v, Done, k) || Is(v, f, k))
  {
  }

  lemma AbortSetFlag(tsr: Word, v: Word, m: nat, f: Flag, k: nat)
    requires m < 3 && k < 3
    ensures Meets(AbortSet(tsr, v, m), Mask(f, k)) <==>
            k == m && f.Abort? && Is(v, Abort, k) && !Is(tsr, Empty, k)
  {
  }

  lemma MeetsOr3(a: Word, b: Word, c: Word, k: Word)
    ensures Meets(Or3(a, b, c), k) <==> Meets(a, k) || Meets(b, k) || Meets(c, k)
  {
    MeetsOr(a, b | c, k);
    MeetsOr(b, c, k);
  }

  lemma WrittenFlag(tsr: Word, v: Word, f: Flag, k: nat)
    requires k < 3
    ensures Is(Written(tsr, v), f, k) <==>
            match f
            case Done => Is(tsr, Done, k) && !Is(v, Done, k)
            case Ok => Is(tsr, Ok, k) && !Is(v, Done, k) && !Is(v, Ok, k)
            case Abort => Is(tsr, Abort, k) || (Is(v, Abort, k) && !Is(tsr, Empty, k))
            case Empty => Is(tsr, Empty, k)
  {
    hide Mask, Acknowledged, AbortSet, Meets, OneHot, Or3, Splice;
    MaskIsOneHot(f, k);
    var clears := Or3(Acknowledged(v, 0), Acknowledged(v, 1), Acknowledged(v, 2));
    var sets := Or3(AbortSet(tsr, v, 0), AbortSet(tsr, v, 1), AbortSet(tsr, v, 2));
    SpliceMeets(tsr, clears, sets, Mask(f, k));
    MeetsOr3(Acknowledged(v, 0), Acknowledged(v, 1), Acknowledged(v, 2), Mask(f, k));
    MeetsOr3(AbortSet(tsr, v, 0), AbortSet(tsr, v, 1), AbortSet(tsr, v, 2), Mask(f, k));
    forall m: nat | m < 3
      ensures Meets(Acknowledged(v, m), Mask(f, k)) <==>
              k == m && (f.Done? || f.Ok?) && (Is(v, Done, k) || Is(v, f, k))
      ensures Meets(AbortSet(tsr, v, m), Mask(f, k)) <==>
              k == m && f.Abort? && Is(v, Abort, k) && !Is(tsr, Empty, k)
    {
      AcknowledgedFlag(v, m, f, k);
      AbortSetFlag(tsr, v, m, f, k);
    }
  }

  // ---- what the driver does with the register -----------------------------------

  lemma AbortMask(m: nat, f: Flag, k: nat)
    requires m < 3 && k < 3
    ensures Meets(Mask(Abort, m), Mask(f, k)) <==> f.Abort? && k == m
  {
  }

  /** CAN_CancelTransmit reads the register, sets one abort bit and writes it all back. */
  lemma CancelWrites(tsr: Word, m: nat, f: Flag, k: nat)
    requires m < 3 && k < 3
    ensures Is(tsr | Mask(Abort, m), f, k) <==> Is(tsr, f, k) || (f.Abort? && k == m)
  {
    MeetsOr(tsr, Mask(Abort, m), Mask(f, k));
    AbortMask(m, f, k);
  }

  lemma DoneMask(m: nat, f: Flag, k: nat)
    requires m < 3 && k < 3
    ensures Is(Mask(Done, m), f, k) <==> f.Done? && k == m
  {
  }

  /** The bits CAN_TransmitStatus selects for a mailbox number; a number above 2
      selects none. */
  function Selected(tsr: Word, mailbox: Byte): Word {
    if mailbox == 0 then tsr & 0x400_0003
    else if mailbox == 1 then tsr & 0x800_0300
    else if mailbox == 2 then tsr & 0x1003_0000
    else STATUS_FAILED as Word
  }

  /** The status code for selected bits, in the order of the source's switch. */
  function StatusCode(state: Word): Byte {
    if state == 0 then STATUS_PENDING
    else if state == 0x400_0001 || state == 0x800_0100 || state == 0x1001_0000 then STATUS_FAILED
    else if state == 0x400_0003 || state == 0x800_0300 || state == 0x1003_0000 then STATUS_OK
    else STATUS_FAILED
  }

  function StatusFor(done: bool, ok: bool, empty: bool): Byte {
    if !done && !ok && !empty then STATUS_PENDING
    else if done && ok && empty then STATUS_OK
    else STATUS_FAILED
  }

  /** The status of a mailbox depends on its own three flags only. */
  lemma StatusFromFlags(tsr: Word, mailbox: Byte)
    requires mailbox < 3
    ensures StatusCode(Selected(tsr, mailbox)) ==
            var m := mailbox as nat;
            StatusFor(Is(tsr, Done, m), Is(tsr, Ok, m), Is(tsr, Empty, m))
  {
  }

  /** A caller that passes on the number CAN_Transmit returns when it found no
      mailbox is told that the message is pending, not that it failed. */
  lemma NoMailboxLooksPending(tsr: Word, mailbox: Byte)
    requires mailbox > 2
    ensures StatusCode(Selected(tsr, mailbox)) == STATUS_PENDING
  {
  }
}
