/** The three transmit mailboxes as a protocol between the driver and the hardware.

    A step is one driver call or one thing the hardware does on its own; a run is
    any sequence of steps. The flags here are those of the status register (CanTsr),
    the frames those held in the mailbox words (CanFrame). */
module CanMailboxes {
  import CanTsr

  /** What the status register shows about one mailbox. */
  datatype Flags = Flags(done: bool, ok: bool, abort: bool, empty: bool)

  /** History of the last message accepted into a mailbox. `shown` holds until its
      completion flags are cleared. */
  datatype Fate = Unused | Waiting | Ended(ok: bool, shown: bool)

  /** One mailbox: its flags, the frame in its words, and its history. */
  datatype Slot<W> = Slot(flags: Flags, held: W, fate: Fate)

  /** The mailboxes together with the history of the run: the frames accepted by
      the driver, sent by the hardware, and given up. `once` is the NART setting:
      no automatic retransmission. */
  datatype Cell<W> = Cell(
    slots: seq<Slot<W>>, once: bool,
    accepted: multiset<W>, bus: multiset<W>, failed: multiset<W>)

  /** What the driver does, and what the hardware does on its own. A transmit names the
      mailbox, because the driver chooses it before it takes effect. */
  datatype Event<W> =
    | Transmit(m: nat, w: W)
    | Refuse
    | Cancel(m: nat)
    | Clear(m: nat)
    | ClearAll
    | Complete(m: nat, ok: bool)

  const NONE: nat := 4

  // ---- steps -------------------------------------------------------------------

  predicate Shape<W>(c: Cell<W>) {
    |c.slots| == 3
  }

  /** Mailbox `m` is filled with frame `w` and requested. */
  function Accept<W>(c: Cell<W>, m: nat, w: W): Cell<W>
    requires Shape(c) && m < 3
  {
    c.(slots := c.slots[m := Slot(Flags(false, false, c.slots[m].flags.abort, false), w, Waiting)],
       accepted := c.accepted + multiset{w})
  }

  function Hidden(fate: Fate): Fate {
    match fate
    case Ended(ok, _) => Ended(ok, false)
    case _ => fate
  }

  /** A slot after an abort request: the register is written back whole, so every
      completion flag that was set is cleared, in all mailboxes. */
  function Cancelled<W>(s: Slot<W>, mine: bool): Slot<W> {
    Slot(Flags(false, false, s.flags.abort || (mine && !s.flags.empty), s.flags.empty), s.held, Hidden(s.fate))
  }

  function CancelStep<W>(c: Cell<W>, m: nat): Cell<W>
    requires Shape(c)
  {
    if m >= 3 then c else
      c.(slots := [Cancelled(c.slots[0], m == 0), Cancelled(c.slots[1], m == 1), Cancelled(c.slots[2], m == 2)])
  }

  function Cleared<W>(s: Slot<W>): Slot<W> {
    Slot(s.flags.(done := false, ok := false), s.held, Hidden(s.fate))
  }

  function ClearStep<W>(c: Cell<W>, m: nat): Cell<W>
    requires Shape(c) && m < 3
  {
    c.(slots := c.slots[m := Cleared(c.slots[m])])
  }

  /** The hardware empties a pending mailbox: the frame was sent, or it was given
      up because an abort was requested or retransmission is off. */
  predicate CanComplete<W>(c: Cell<W>, m: nat, ok: bool)
    requires Shape(c)
  {
    m < 3 && !c.slots[m].flags.empty && (ok || c.slots[m].flags.abort || c.once)
  }

  function CompleteStep<W>(c: Cell<W>, m: nat, ok: bool): Cell<W>
    requires Shape(c) && CanComplete(c, m, ok)
  {
    var w := c.slots[m].held;
    c.(slots := c.slots[m := Slot(Flags(true, ok, false, true), w, Ended(ok, true))],
       bus := if ok then c.bus + multiset{w} else c.bus,
       failed := if ok then c.failed else c.failed + multiset{w})
  }

  /** An event that cannot happen in a state leaves it as it is. */
  function Step<W>(c: Cell<W>, e: Event<W>): (r: Cell<W>)
    requires Shape(c)
    ensures Shape(r)
  {
    match e
    case Transmit(m, w) => if m < 3 && c.slots[m].flags.empty then Accept(c, m, w) else c
    case Refuse => c
    case Cancel(m) => CancelStep(c, m)
    case Clear(m) => if m < 3 then ClearStep(c, m) else c
    case ClearAll => ClearStep(ClearStep(ClearStep(c, 0), 1), 2)
    case Complete(m, ok) => if CanComplete(c, m, ok) then CompleteStep(c, m, ok) else c
  }

  function Run<W>(c: Cell<W>, es: seq<Event<W>>): (r: Cell<W>)
    requires Shape(c)
    ensures Shape(r)
    decreases es
  {
    if es == [] then c else Run(Step(c, es[0]), es[1..])
  }

  lemma {:induction false} RunAppend<W>(c: Cell<W>, es: seq<Event<W>>, fs: seq<Event<W>>)
    requires Shape(c)
    ensures Run(c, es + fs) == Run(Run(c, es), fs)
    decreases es
  {
    hide Step;
    if es == [] {
      assert es + fs == fs;
    } else {
      assert (es + fs)[1..] == es[1..] + fs;
      RunAppend(Step(c, es[0]), es[1..], fs);
    }
  }

  lemma RunOne<W>(c: Cell<W>, e: Event<W>)
    requires Shape(c)
    ensures Run(c, [e]) == Step(c, e)
  {
    assert Run(Step(c, e), [e][1..]) == Step(c, e);
  }

  // ---- events the hardware makes on its own --------------------------------------

  /** Each event is a completion that can happen when its turn comes. */
  predicate HardwareRun<W>(c: Cell<W>, es: seq<Event<W>>)
    requires Shape(c)
    decreases es
  {
    es == [] ||
    (es[0].Complete? && CanComplete(c, es[0].m, es[0].ok) && HardwareRun(Step(c, es[0]), es[1..]))
  }

  lemma {:induction false} HardwareAppend<W>(c: Cell<W>, es: seq<Event<W>>, fs: seq<Event<W>>)
    requires Shape(c)
    ensures HardwareRun(c, es + fs) <==> HardwareRun(c, es) && HardwareRun(Run(c, es), fs)
    decreases es
  {
    hide Step, CanComplete;
    if es == [] {
      assert es + fs == fs;
    } else {
      HardwareAppend(Step(c, es[0]), es[1..], fs);
      assert (es + fs)[1..] == es[1..] + fs;
    }
  }

  /** The hardware never fills a mailbox and never touches an empty one. */
  lemma {:induction false} HardwareKeepsEmpty<W>(c: Cell<W>, es: seq<Event<W>>, m: nat)
    requires Shape(c) && HardwareRun(c, es) && m < 3 && c.slots[m].flags.empty
    ensures Run(c, es).slots[m] == c.slots[m]
    decreases es
  {
    if es == [] {
    } else {
      HardwareKeepsEmpty(Step(c, es[0]), es[1..], m);
    }
  }

  // ---- invariant -----------------------------------------------------------------

  /** The flags of a mailbox say exactly what became of its last message. */
  predicate Tells<W>(s: Slot<W>) {
    && (s.flags.empty <==> !s.fate.Waiting?)
    && (s.flags.done <==> s.fate.Ended? && s.fate.shown)
    && (s.flags.ok <==> s.fate.Ended? && s.fate.shown && s.fate.ok)
    && (s.flags.abort ==> s.fate.Waiting?)
  }

  /** How many copies of `w` a mailbox still has to send. */
  function Owed<W(==)>(s: Slot<W>, w: W): nat {
    if !s.flags.empty && s.held == w then 1 else 0
  }

  /** Each frame was accepted as often as it was sent, given up, or is pending. */
  ghost predicate Balanced<W(!new)>(c: Cell<W>)
    requires Shape(c)
  {
    forall w: W ::
      c.accepted[w] ==
      c.bus[w] + c.failed[w] + Owed(c.slots[0], w) + Owed(c.slots[1], w) + Owed(c.slots[2], w)
  }

  ghost predicate Inv<W(!new)>(c: Cell<W>) {
    && Shape(c)
    && Tells(c.slots[0]) && Tells(c.slots[1]) && Tells(c.slots[2])
    && Balanced(c)
  }

  /** After reset every mailbox is empty and nothing has happened. */
  function Reset<W>(w0: W, w1: W, w2: W, once: bool): Cell<W> {
    var f := Flags(false, false, false, true);
    Cell([Slot(f, w0, Unused), Slot(f, w1, Unused), Slot(f, w2, Unused)], once, multiset{}, multiset{}, multiset{})
  }

  lemma ResetInv<W(!new)>(w0: W, w1: W, w2: W, once: bool)
    ensures Inv(Reset(w0, w1, w2, once))
  {
  }

  /** Replacing one slot by one that tells the truth keeps the invariant if the
      histories account for the frames that came and went. */
  lemma SlotInv<W(!new)>(c: Cell<W>, c': Cell<W>, m: nat, s: Slot<W>)
    requires Inv(c) && m < 3 && Tells(s)
    requires c'.slots == c.slots[m := s]
    requires forall w: W ::
      c'.accepted[w] + (c.bus[w] + c.failed[w] + Owed(c.slots[m], w)) ==
      c.accepted[w] + (c'.bus[w] + c'.failed[w] + Owed(s, w))
    ensures Inv(c')
  {
  }

  lemma CancelledTells<W(!new)>(s: Slot<W>, mine: bool)
    requires Tells(s)
    ensures Tells(Cancelled(s, mine))
  {
  }

  lemma CancelInv<W(!new)>(c: Cell<W>, m: nat)
    requires Inv(c)
    ensures Inv(CancelStep(c, m))
  {
    CancelledTells(c.slots[0], m == 0);
    CancelledTells(c.slots[1], m == 1);
    CancelledTells(c.slots[2], m == 2);
  }

  lemma ClearInv<W(!new)>(c: Cell<W>, m: nat)
    requires Inv(c) && m < 3
    ensures Inv(ClearStep(c, m))
  {
    SlotInv(c, ClearStep(c, m), m, Cleared(c.slots[m]));
  }

  /** Every step keeps the invariant. */
  lemma StepInv<W(!new)>(c: Cell<W>, e: Event<W>)
    requires Inv(c)
    ensures Inv(Step(c, e))
  {
    match e
    case Transmit(m, w) =>
      if m < 3 && c.slots[m].flags.empty {
        SlotInv(c, Step(c, e), m, Step(c, e).slots[m]);
      }
    case Refuse =>
    case Cancel(m) =>
      CancelInv(c, m);
    case Clear(m) =>
      if m < 3 {
        ClearInv(c, m);
      }
    case ClearAll =>
      ClearInv(c, 0);
      ClearInv(ClearStep(c, 0), 1);
      ClearInv(ClearStep(ClearStep(c, 0), 1), 2);
    case Complete(m, ok) =>
      if CanComplete(c, m, ok) {
        SlotInv(c, CompleteStep(c, m, ok), m, CompleteStep(c, m, ok).slots[m]);
      }
  }

  /** Conservation over every run: each accepted frame is, unchanged, on the bus,
      among the failed, or pending in a mailbox, and nothing else is. */
  lemma {:induction false} Conservation<W(!new)>(c: Cell<W>, es: seq<Event<W>>)
    requires Inv(c)
    ensures Inv(Run(c, es))
    decreases es
  {
    if es == [] {
    } else {
      StepInv(c, es[0]);
      Conservation(Step(c, es[0]), es[1..]);
    }
  }

  /** How often the run transmits a frame. */
  function Transmits<W(==)>(es: seq<Event<W>>, w: W): nat
    decreases es
  {
    if es == [] then 0 else (if es[0].Transmit? && es[0].w == w then 1 else 0) + Transmits(es[1..], w)
  }

  lemma {:induction false} AcceptedBounded<W(!new)>(c: Cell<W>, es: seq<Event<W>>, w: W)
    requires Shape(c)
    ensures Run(c, es).accepted[w] <= c.accepted[w] + Transmits(es, w)
    decreases es
  {
    if es == [] {
    } else {
      AcceptedBounded(Step(c, es[0]), es[1..], w);
    }
  }

  /** Over any run a frame is sent or given up at most as often as it was transmitted. */
  lemma BusBounded<W(!new)>(c: Cell<W>, es: seq<Event<W>>, w: W)
    requires Inv(c)
    ensures Run(c, es).bus[w] + Run(c, es).failed[w] <= c.accepted[w] + Transmits(es, w)
  {
    hide Run;
    Conservation(c, es);
    AcceptedBounded(c, es, w);
  }

  lemma {:induction false} TransmitsSome<W(!new)>(es: seq<Event<W>>, w: W)
    requires Transmits(es, w) > 0
    ensures exists m :: Transmit(m, w) in es
    decreases es
  {
    if es[0].Transmit? && es[0].w == w {
      assert Transmit(es[0].m, w) in es;
    } else {
      TransmitsSome(es[1..], w);
    }
  }

  // ---- what a caller can rely on ---------------------------------------------------

  /** The choice of the driver, which reads the empty flags one after the other: mailbox 0
      as it is in `a`, mailbox 1 in `b`, mailbox 2 in `d`. */
  function Chosen<W>(a: Cell<W>, b: Cell<W>, d: Cell<W>): nat
    requires Shape(a) && Shape(b) && Shape(d)
  {
    if a.slots[0].flags.empty then 0
    else if b.slots[1].flags.empty then 1
    else if d.slots[2].flags.empty then 2
    else NONE
  }

  /** `m` is chosen in a call that begins in `c`; the prefixes say how far the hardware has
      come at each of the three reads. */
  predicate Selects<W>(c: Cell<W>, p0: seq<Event<W>>, p1: seq<Event<W>>, p2: seq<Event<W>>, m: nat) {
    Shape(c) && p0 <= p1 <= p2 && HardwareRun(c, p2) && m == Chosen(Run(c, p0), Run(c, p1), Run(c, p2))
  }

  /** A mailbox that waits later waited before: the hardware alone never fills one. */
  lemma WaitedBefore<W>(c: Cell<W>, p: seq<Event<W>>, q: seq<Event<W>>, m: nat)
    requires Shape(c) && p <= q && HardwareRun(c, q) && m < 3 && Run(c, p).slots[m].flags.empty
    ensures Run(c, q).slots[m].flags.empty
  {
    assert q == p + q[|p|..];
    HardwareAppend(c, p, q[|p|..]);
    RunAppend(c, p, q[|p|..]);
    HardwareKeepsEmpty(Run(c, p), q[|p|..], m);
  }

  lemma EmptyIsFree<W(!new)>(c: Cell<W>)
    requires Inv(c)
    ensures Shape(c) && forall k: nat | k < 3 :: c.slots[k].flags.empty <==> !c.slots[k].fate.Waiting?
  {
  }

  lemma RunNone<W>(c: Cell<W>)
    requires Shape(c)
    ensures Run(c, []) == c
  {
  }

  /** Once free, a mailbox stays free from read to read. */
  lemma Monotone<W>(c: Cell<W>, p0: seq<Event<W>>, p1: seq<Event<W>>, p2: seq<Event<W>>, k: nat)
    requires Shape(c) && p0 <= p1 <= p2 && HardwareRun(c, p2) && k < 3
    ensures c.slots[k].flags.empty ==> Run(c, p0).slots[k].flags.empty
    ensures Run(c, p0).slots[k].flags.empty ==> Run(c, p1).slots[k].flags.empty
    ensures Run(c, p1).slots[k].flags.empty ==> Run(c, p2).slots[k].flags.empty
  {
    hide HardwareRun, Step;
    assert p2 == p1 + p2[|p1|..] && p2 == p0 + p2[|p0|..];
    HardwareAppend(c, p1, p2[|p1|..]);
    HardwareAppend(c, p0, p2[|p0|..]);
    assert Run(c, []) == c;
    if c.slots[k].flags.empty {
      WaitedBefore(c, [], p0, k);
    }
    if Run(c, p0).slots[k].flags.empty {
      WaitedBefore(c, p0, p1, k);
    }
    if Run(c, p1).slots[k].flags.empty {
      WaitedBefore(c, p1, p2, k);
    }
  }

  /** A call is refused exactly when each mailbox waits at the moment it is read: only if
      all three wait when the call begins, and surely if all three still wait at the last
      read. Otherwise the mailbox taken is free from then on, and every lower one waited
      when the call began. Without completions during the call the two bounds meet. */
  lemma RefusedWhenAllWait<W(!new)>(c: Cell<W>, p0: seq<Event<W>>, p1: seq<Event<W>>, p2: seq<Event<W>>, m: nat)
    requires Inv(c) && Selects(c, p0, p1, p2, m)
    ensures m == NONE ==> forall k: nat | k < 3 :: c.slots[k].fate.Waiting?
    ensures (forall k: nat | k < 3 :: Run(c, p2).slots[k].fate.Waiting?) ==> m == NONE
    ensures m != NONE ==>
              m < 3 && !Run(c, p2).slots[m].fate.Waiting? && forall k: nat | k < m :: c.slots[k].fate.Waiting?
    ensures p2 == [] ==> (m == NONE <==> forall k: nat | k < 3 :: c.slots[k].fate.Waiting?)
  {
    hide Run, HardwareRun, Inv, Step;
    Conservation(c, p2);
    EmptyIsFree(c);
    EmptyIsFree(Run(c, p2));
    RunNone(c);
    Monotone(c, p0, p1, p2, 0);
    Monotone(c, p0, p1, p2, 1);
    Monotone(c, p0, p1, p2, 2);
  }

  /** With all three waiting, a frame is refused although mailbox 0 is free by the time of
      the last read. */
  lemma RefusedThoughFree<W>(c: Cell<W>)
    requires Shape(c) && forall k: nat | k < 3 :: !c.slots[k].flags.empty
    ensures var es := [Complete(0, true)];
            Selects(c, [], [], es, NONE) && Run(c, es).slots[0].flags.empty
  {
    var e: Event<W> := Complete(0, true);
    RunOne(c, e);
    RunNone(c);
    assert [e][1..] == [];
  }

  /** The event uses or empties mailbox `m` when it happens in state `c`. */
  predicate Takes<W>(c: Cell<W>, e: Event<W>, m: nat)
    requires Shape(c)
  {
    match e
    case Transmit(k, _) => k == m && k < 3 && c.slots[k].flags.empty
    case Complete(k, ok) => k == m && CanComplete(c, k, ok)
    case _ => false
  }

  predicate NeverTaken<W>(c: Cell<W>, es: seq<Event<W>>, m: nat)
    requires Shape(c)
    decreases es
  {
    es == [] || (!Takes(c, es[0], m) && NeverTaken(Step(c, es[0]), es[1..], m))
  }

  /** Events that clear the completion flags of mailbox `m`: clearing them, and
      cancelling any mailbox. */
  predicate Hides<W>(e: Event<W>, m: nat) {
    match e
    case Cancel(k) => k < 3
    case Clear(k) => k == m
    case ClearAll => true
    case _ => false
  }

  /** What an event that does not take a mailbox does to it. */
  lemma UntakenSlot<W(!new)>(c: Cell<W>, e: Event<W>, m: nat)
    requires Shape(c) && m < 3 && !Takes(c, e, m)
    ensures var s, s' := c.slots[m], Step(c, e).slots[m];
            && s'.held == s.held
            && s'.fate == (if Hides(e, m) then Hidden(s.fate) else s.fate)
  {
  }

  /** The hardware never empties mailbox `m` during the run. */
  predicate NeverEmptied<W>(c: Cell<W>, es: seq<Event<W>>, m: nat)
    requires Shape(c)
    decreases es
  {
    es == [] ||
    (!(es[0].Complete? && es[0].m == m && CanComplete(c, m, es[0].ok)) && NeverEmptied(Step(c, es[0]), es[1..], m))
  }

  /** Until the hardware empties it, a waiting mailbox keeps its frame untouched,
      whatever calls are made. */
  lemma {:induction false} WaitingFrameKept<W(!new)>(c: Cell<W>, es: seq<Event<W>>, m: nat)
    requires Inv(c) && m < 3 && c.slots[m].fate.Waiting? && NeverEmptied(c, es, m)
    ensures Run(c, es).slots[m].held == c.slots[m].held
    ensures Run(c, es).slots[m].fate.Waiting?
    decreases es
  {
    if es == [] {
    } else {
      StepInv(c, es[0]);
      UntakenSlot(c, es[0], m);
      WaitingFrameKept(Step(c, es[0]), es[1..], m);
    }
  }

  /** The driver's status for mailbox `m`. */
  function Status<W>(c: Cell<W>, m: nat): CanTsr.Byte
    requires Shape(c) && m < 3
  {
    CanTsr.StatusFor(c.slots[m].flags.done, c.slots[m].flags.ok, c.slots[m].flags.empty)
  }

  /** In every reachable state the status is what the history of the mailbox says,
      as long as its completion flags are shown. */
  lemma StatusMeaning<W(!new)>(c: Cell<W>, m: nat)
    requires Inv(c) && m < 3
    ensures Status(c, m) == CanTsr.STATUS_PENDING <==> c.slots[m].fate.Waiting?
    ensures Status(c, m) == CanTsr.STATUS_OK <==> c.slots[m].fate == Ended(true, true)
    ensures Status(c, m) == CanTsr.STATUS_FAILED <==>
            c.slots[m].fate.Unused? || (c.slots[m].fate.Ended? && c.slots[m].fate != Ended(true, true))
  {
  }

  predicate AnyHides<W>(es: seq<Event<W>>, m: nat) {
    es != [] && (Hides(es[0], m) || AnyHides(es[1..], m))
  }

  lemma {:induction false} FateUntilTaken<W(!new)>(c: Cell<W>, es: seq<Event<W>>, m: nat)
    requires Inv(c) && m < 3 && c.slots[m].fate.Ended? && NeverTaken(c, es, m)
    ensures Run(c, es).slots[m].fate == if AnyHides(es, m) then Hidden(c.slots[m].fate) else c.slots[m].fate
    decreases es
  {
    if es == [] {
    } else {
      StepInv(c, es[0]);
      UntakenSlot(c, es[0], m);
      FateUntilTaken(Step(c, es[0]), es[1..], m);
    }
  }

  /** A frame that was sent is reported as sent, as long as its mailbox is not used
      again, exactly until some mailbox is cancelled or its own flags are cleared. */
  lemma SentReportedUntilHidden<W(!new)>(c: Cell<W>, es: seq<Event<W>>, m: nat)
    requires Inv(c) && m < 3 && c.slots[m].fate == Ended(true, true) && NeverTaken(c, es, m)
    ensures Status(Run(c, es), m) == CanTsr.STATUS_OK <==> !AnyHides(es, m)
  {
    Conservation(c, es);
    StatusMeaning(Run(c, es), m);
    FateUntilTaken(c, es, m);
  }

  /** The status of a sent frame is lost when another mailbox is cancelled: two
      frames are accepted, the first is sent, the second is cancelled, and the first
      is reported as failed. */
  lemma CancelHidesSuccess<W(!new)>(w0: W, w1: W)
    ensures var c := Run(Reset(w0, w0, w0, false), [Transmit(0, w0), Transmit(1, w1), Complete(0, true), Cancel(1)]);
            c.bus == multiset{w0} && Status(c, 0) == CanTsr.STATUS_FAILED
  {
    var es: seq<Event<W>> := [Transmit(0, w0), Transmit(1, w1), Complete(0, true), Cancel(1)];
    var c0 := Reset(w0, w0, w0, false);
    var c1 := Step(c0, es[0]);
    var c2 := Step(c1, es[1]);
    var c3 := Step(c2, es[2]);
    var c4 := Step(c3, es[3]);
    assert Run(c3, es[3..]) == c4;
    assert es[2..][1..] == es[3..] && Run(c2, es[2..]) == c4;
    assert es[1..][1..] == es[2..] && Run(c1, es[1..]) == c4;
  }

  predicate NoAbort<W>(c: Cell<W>)
    requires Shape(c)
  {
    !c.slots[0].flags.abort && !c.slots[1].flags.abort && !c.slots[2].flags.abort
  }

  lemma NoCancelStep<W(!new)>(c: Cell<W>, e: Event<W>)
    requires Shape(c) && !c.once && NoAbort(c) && !e.Cancel?
    ensures var c' := Step(c, e); c'.failed == c.failed && !c'.once && NoAbort(c')
  {
  }

  /** With automatic retransmission on, no frame is given up unless someone cancels. */
  lemma {:induction false} NoLossWithoutCancel<W(!new)>(c: Cell<W>, es: seq<Event<W>>)
    requires Shape(c) && !c.once && NoAbort(c)
    requires forall e | e in es :: !e.Cancel?
    ensures Run(c, es).failed == c.failed
    decreases es
  {
    if es == [] {
    } else {
      NoCancelStep(c, es[0]);
      NoLossWithoutCancel(Step(c, es[0]), es[1..]);
    }
  }
}
