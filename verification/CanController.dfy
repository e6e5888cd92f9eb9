/** The CAN driver's transmit and receive calls, register access by register access,
    with the hardware free to act before each access. */
module CanController {
  import opened Words
  import opened CanFrame
  import opened CanMailboxes
  import Tsr = CanTsr

  /** A frame as the bus sees it. */
  datatype Wire = Wire(id: Word, dlc: Byte, data: Bytes)

  function WireOf(box: Mailbox): Wire {
    Wire(WithoutRequest(box.ir), LengthOf(box), DataOf(box))
  }

  function WireFor(msg: TxMsg): Wire {
    Wire(IdWord(0, msg), msg.dlc, msg.data)
  }

  /** A loaded mailbox holds the frame of the message, with or without the request. */
  lemma LoadedWire(was: Mailbox, msg: TxMsg)
    requires WellTyped(msg)
    ensures WireOf(Load(was, msg)) == WireFor(msg)
  {
    RequestIsBit(was.ir);
    IdWordFlags(msg, Request(was.ir));
    LoadedLength(was, msg);
    LoadedData(was, msg);
  }

  lemma NoRequest(ir: Word)
    ensures Request(WithoutRequest(ir)) == 0
  {
  }

  function WithRequest(ir: Word): Word {
    ir | TXRQ
  }

  function Requested(box: Mailbox): Mailbox {
    box.(ir := WithRequest(box.ir))
  }

  /** The hardware withdraws the request of a mailbox it emptied. */
  function Released(box: Mailbox): Mailbox {
    box.(ir := WithoutRequest(box.ir))
  }

  /** Withdrawing the request of the old content makes no difference. */
  lemma WrittenFrom(was: Mailbox, was': Mailbox, now: Mailbox, msg: TxMsg)
    requires CanFrame.Written(was', now, msg) && (was' == was || was' == Released(was))
    ensures CanFrame.Written(was, now, msg)
  {
    hide DataPlaced, LengthField, IdFits, IdPlaced, WithoutRequest;
  }

  lemma StandardSet(ir: Word, id: Word, rtr: Byte)
    requires StandardFields(ir, id, rtr)
    ensures StandardFields(WithRequest(ir), id, rtr)
  {
  }

  lemma StandardClear(ir: Word, id: Word, rtr: Byte)
    requires StandardFields(ir, id, rtr)
    ensures StandardFields(WithoutRequest(ir), id, rtr)
  {
  }

  lemma ExtendedSet(ir: Word, id: Word, rtr: Byte)
    requires ExtendedFields(ir, id, rtr)
    ensures ExtendedFields(WithRequest(ir), id, rtr)
  {
  }

  lemma ExtendedClear(ir: Word, id: Word, rtr: Byte)
    requires ExtendedFields(ir, id, rtr)
    ensures ExtendedFields(WithoutRequest(ir), id, rtr)
  {
  }

  lemma RequestBit(ir: Word)
    ensures WithRequest(ir) & 1 == 1 && WithoutRequest(ir) & 1 == 0
  {
  }

  lemma RequestPlaced(ir: Word, msg: TxMsg)
    requires IdPlaced(ir, msg)
    ensures IdPlaced(WithRequest(ir), msg) && IdPlaced(WithoutRequest(ir), msg)
  {
    hide StandardFields, ExtendedFields, WithRequest, WithoutRequest;
    if msg.ide == ID_STANDARD {
      StandardSet(ir, msg.stdId, msg.rtr);
      StandardClear(ir, msg.stdId, msg.rtr);
    } else {
      ExtendedSet(ir, msg.extId, msg.rtr);
      ExtendedClear(ir, msg.extId, msg.rtr);
    }
  }

  /** The request is bit 0; setting or withdrawing it changes nothing of the message. */
  lemma RequestedWritten(was: Mailbox, now: Mailbox, msg: TxMsg)
    requires CanFrame.Written(was, now, msg)
    ensures CanFrame.Written(was, Requested(now), msg) && CanFrame.Written(was, Released(now), msg)
    ensures Requested(now).ir & 1 == 1 && Released(now).ir & 1 == 0
  {
    hide BytesAre, LengthField, IdFits, IdPlaced, WithRequest, WithoutRequest;
    RequestBit(now.ir);
    if IdFits(msg) {
      RequestPlaced(now.ir, msg);
    }
  }

  lemma RequestedWire(box: Mailbox)
    ensures WireOf(Requested(box)) == WireOf(box)
  {
  }

  lemma StandardNoRequest(req: Word, id: Word, rtr: Byte)
    requires rtr & 0xFD == 0 && req & 1 == 0
    ensures Request(StandardWord(req, id, rtr)) == 0
  {
  }

  lemma ExtendedNoRequest(req: Word, id: Word, rtr: Byte)
    requires rtr & 0xFD == 0 && req & 1 == 0
    ensures Request(ExtendedWord(req, id, rtr)) == 0
  {
  }

  /** Writing the identifier to a mailbox without a request does not make one. */
  lemma NoRequestYet(ir: Word, msg: TxMsg)
    requires WellTyped(msg) && Request(ir) == 0
    ensures Request(Request(ir)) == 0 && Request(IdWord(Request(ir), msg)) == 0
  {
    RemoteBit(msg.rtr);
    StandardNoRequest(Request(ir), msg.stdId, msg.rtr);
    ExtendedNoRequest(Request(ir), msg.extId, msg.rtr);
  }

  // ---- calls and what the hardware does meanwhile -----------------------------------

  lemma HardwareSingle(c: Cell<Wire>, m: nat, ok: bool)
    requires Shape(c) && CanComplete(c, m, ok)
    ensures HardwareRun(c, [Complete(m, ok)]) && Run(c, [Complete(m, ok)]) == CompleteStep(c, m, ok)
  {
    var es := [Complete(m, ok)];
    assert Run(Step(c, es[0]), es[1..]) == Step(c, es[0]);
  }

  /** State `c` is reached from `o` by hardware events alone. */
  predicate Follows(o: Cell<Wire>, es: seq<Event<Wire>>, c: Cell<Wire>) {
    Shape(o) && HardwareRun(o, es) && c == Run(o, es)
  }

  lemma FollowsOn(o: Cell<Wire>, es: seq<Event<Wire>>, c: Cell<Wire>, m: nat, ok: bool)
    requires Follows(o, es, c) && Shape(c) && CanComplete(c, m, ok)
    ensures Follows(o, es + [Complete(m, ok)], CompleteStep(c, m, ok))
  {
    HardwareSingle(c, m, ok);
    HardwareAppend(o, es, [Complete(m, ok)]);
    RunAppend(o, es, [Complete(m, ok)]);
  }

  /** A call that takes effect at one moment, with hardware events before and after. */
  predicate Called(o: Cell<Wire>, before: seq<Event<Wire>>, e: Event<Wire>, after: seq<Event<Wire>>, c: Cell<Wire>)
    requires Shape(o)
  {
    HardwareRun(o, before) && HardwareRun(Step(Run(o, before), e), after) && c == Run(o, before + [e] + after)
  }

  lemma CalledAt(o: Cell<Wire>, before: seq<Event<Wire>>, c: Cell<Wire>, e: Event<Wire>, after: seq<Event<Wire>>,
                 d: Cell<Wire>)
    requires Follows(o, before, c) && Shape(c) && Follows(Step(c, e), after, d)
    ensures Called(o, before, e, after, d)
  {
    hide Step, HardwareRun;
    RunAppend(o, before, [e]);
    RunAppend(o, before + [e], after);
  }

  /** Each mailbox but `m` is as it was, or without its request: no one but the hardware
      has written to it. */
  predicate Untouched(was: seq<Mailbox>, now: seq<Mailbox>, m: nat) {
    |was| == |now| == 3 && forall k: nat | k < 3 && k != m :: now[k] == was[k] || now[k] == Released(was[k])
  }

  lemma ReleasedTwice(box: Mailbox)
    ensures Released(Released(box)) == Released(box)
  {
  }

  lemma UntouchedOn(a: seq<Mailbox>, b: seq<Mailbox>, c: seq<Mailbox>, m: nat)
    requires Untouched(a, b, m) && Untouched(b, c, m)
    ensures Untouched(a, c, m)
  {
    hide Released;
    forall k: nat | k < 3
      ensures Released(Released(a[k])) == Released(a[k])
    {
      ReleasedTwice(a[k]);
    }
  }

  lemma SameOrReleased(a: seq<Mailbox>, b: seq<Mailbox>, m: nat)
    requires Untouched(a, b, NONE) && m < 3
    ensures |a| == |b| == 3 && (b[m] == a[m] || b[m] == Released(a[m]))
  {
    hide Released;
  }

  /** Writing one mailbox. */
  lemma UntouchedWrite(a: seq<Mailbox>, b: seq<Mailbox>, m: nat, box: Mailbox)
    requires Untouched(a, b, m) && m < 3
    ensures Untouched(a, b[m := box], m)
  {
    hide Released;
  }

  lemma UntouchedExcept(a: seq<Mailbox>, b: seq<Mailbox>, m: nat)
    requires Untouched(a, b, NONE)
    ensures Untouched(a, b, m)
  {
    hide Released;
  }

  lemma UntouchedSame(a: seq<Mailbox>, m: nat)
    requires |a| == 3
    ensures Untouched(a, a, m)
  {
    hide Released;
  }

  /** A slot that the hardware completed since. */
  predicate JustEnded(s: Slot<Wire>) {
    s.fate.Ended? && s.flags == Flags(true, s.fate.ok, false, true)
  }

  /** `y` is the state reached when the cancel call took effect at `c`, `x` the
      state reached without it. */
  predicate CancelledAt(c: Cell<Wire>, x: Cell<Wire>, y: Cell<Wire>, m: nat) {
    && Shape(c) && Shape(x) && Shape(y)
    && y == x.(slots := y.slots)
    && forall k: nat | k < 3 ::
      || (x.slots[k] == c.slots[k] && y.slots[k] == Cancelled(c.slots[k], k == m))
      || (!c.slots[k].flags.empty && x.slots[k] == y.slots[k] && JustEnded(x.slots[k]))
  }

  lemma CancelledShape(c: Cell<Wire>, x: Cell<Wire>, y: Cell<Wire>, m: nat)
    requires CancelledAt(c, x, y, m)
    ensures Shape(x) && Shape(y)
  {
  }

  lemma CancelCommutesStep(c: Cell<Wire>, x: Cell<Wire>, y: Cell<Wire>, m: nat, k: nat, ok: bool)
    requires CancelledAt(c, x, y, m) && CanComplete(x, k, ok)
    ensures CanComplete(y, k, ok) && CancelledAt(c, CompleteStep(x, k, ok), CompleteStep(y, k, ok), m)
  {
  }

  lemma {:induction false} CancelCommutes(c: Cell<Wire>, x: Cell<Wire>, y: Cell<Wire>, m: nat, es: seq<Event<Wire>>)
    requires CancelledAt(c, x, y, m) && HardwareRun(x, es)
    ensures HardwareRun(y, es) && CancelledAt(c, Run(x, es), Run(y, es), m)
    decreases es
  {
    hide CancelledAt, CanComplete, CompleteStep;
    assert Shape(x) && Shape(y) by {
      CancelledShape(c, x, y, m);
    }
    if es == [] {
    } else {
      CancelCommutesStep(c, x, y, m, es[0].m, es[0].ok);
      CancelCommutes(c, Step(x, es[0]), Step(y, es[0]), m, es[1..]);
    }
  }

  // ---- registers and flags --------------------------------------------------------

  function FlagsOf(tsr: Word, m: nat): Flags {
    Flags(Tsr.Is(tsr, Tsr.Done, m), Tsr.Is(tsr, Tsr.Ok, m), Tsr.Is(tsr, Tsr.Abort, m), Tsr.Is(tsr, Tsr.Empty, m))
  }

  /** The status register shows all flags of the protocol state. */
  predicate FlagsAgree(c: Cell<Wire>, tsr: Word) {
    Shape(c) && forall m: nat | m < 3 :: c.slots[m].flags == FlagsOf(tsr, m)
  }

  /** A pending mailbox holds its frame, an empty one no request. */
  predicate HoldsFrame(s: Slot<Wire>, box: Mailbox) {
    if s.flags.empty then Request(box.ir) == 0 else WireOf(box) == s.held
  }

  /** Completion as the status register shows it. */
  lemma FinishedFlags(tsr: Word, m: nat, ok: bool, noise: Word, k: nat)
    requires m < 3 && k < 3
    ensures FlagsOf(Tsr.Finished(tsr, m, ok, noise), k) == if k == m then Flags(true, ok, false, true) else FlagsOf(tsr, k)
  {
    Tsr.FinishedFlag(tsr, m, ok, noise, Tsr.Done, k);
    Tsr.FinishedFlag(tsr, m, ok, noise, Tsr.Ok, k);
    Tsr.FinishedFlag(tsr, m, ok, noise, Tsr.Abort, k);
    Tsr.FinishedFlag(tsr, m, ok, noise, Tsr.Empty, k);
  }

  lemma NoiseFlags(tsr: Word, m: nat, noise: Word, k: nat)
    requires m < 3 && k < 3
    ensures FlagsOf(Tsr.Retried(tsr, m, noise), k) == FlagsOf(tsr, k) == FlagsOf(Tsr.Ranked(tsr, noise), k)
  {
    forall f: Tsr.Flag
      ensures Tsr.Is(Tsr.Retried(tsr, m, noise), f, k) == Tsr.Is(tsr, f, k) == Tsr.Is(Tsr.Ranked(tsr, noise), f, k)
    {
      Tsr.RetriedFlag(tsr, m, noise, f, k);
      Tsr.RankedFlag(tsr, noise, f, k);
    }
  }

  lemma StartedFlags(tsr: Word, m: nat, k: nat)
    requires m < 3 && k < 3
    ensures FlagsOf(Tsr.Started(tsr, m), k) ==
            if k == m then Flags(false, false, FlagsOf(tsr, m).abort, false) else FlagsOf(tsr, k)
  {
    Tsr.StartedFlag(tsr, m, Tsr.Done, k);
    Tsr.StartedFlag(tsr, m, Tsr.Ok, k);
    Tsr.StartedFlag(tsr, m, Tsr.Abort, k);
    Tsr.StartedFlag(tsr, m, Tsr.Empty, k);
  }

  /** Writing back a value read earlier with one abort bit added. */
  lemma CancelledFlags(tsr: Word, read: Word, m: nat, k: nat)
    requires m < 3 && k < 3
    ensures FlagsOf(Tsr.Written(tsr, read | Tsr.Mask(Tsr.Abort, m)), k) ==
            var f, r := FlagsOf(tsr, k), FlagsOf(read, k);
            Flags(f.done && !r.done, f.ok && !r.done && !r.ok, f.abort || ((r.abort || k == m) && !f.empty), f.empty)
  {
    var v := read | Tsr.Mask(Tsr.Abort, m);
    forall f: Tsr.Flag
      ensures Tsr.Is(v, f, k) <==> Tsr.Is(read, f, k) || (f.Abort? && k == m)
    {
      Tsr.CancelWrites(read, m, f, k);
    }
    Tsr.WrittenFlag(tsr, v, Tsr.Done, k);
    Tsr.WrittenFlag(tsr, v, Tsr.Ok, k);
    Tsr.WrittenFlag(tsr, v, Tsr.Abort, k);
    Tsr.WrittenFlag(tsr, v, Tsr.Empty, k);
  }

  /** The registers show the state of the protocol. */
  ghost predicate Shows(c: Cell<Wire>, tsr: Word, boxes: seq<Mailbox>) {
    && |boxes| == 3
    && Inv(c) && FlagsAgree(c, tsr)
    && forall m: nat | m < 3 :: HoldsFrame(c.slots[m], boxes[m])
  }

  lemma CompleteInv(c: Cell<Wire>, m: nat, ok: bool)
    requires Inv(c) && CanComplete(c, m, ok)
    ensures Inv(CompleteStep(c, m, ok))
  {
    StepInv(c, Event.Complete(m, ok));
  }

  lemma ReleasedHolds(s: Slot<Wire>, box: Mailbox)
    requires s.flags.empty
    ensures HoldsFrame(s, Released(box))
  {
    NoRequest(box.ir);
  }

  lemma AcceptInv(c: Cell<Wire>, m: nat, w: Wire)
    requires Inv(c) && m < 3 && c.slots[m].flags.empty
    ensures Inv(Accept(c, m, w))
  {
    SlotInv(c, Accept(c, m, w), m, Accept(c, m, w).slots[m]);
  }

  lemma RequestedHolds(s: Slot<Wire>, box: Mailbox)
    requires !s.flags.empty && WireOf(box) == s.held
    ensures HoldsFrame(s, Requested(box))
  {
    RequestedWire(box);
  }

  lemma StartedAgree(c: Cell<Wire>, tsr: Word, m: nat, w: Wire)
    requires FlagsAgree(c, tsr) && m < 3
    ensures FlagsAgree(Accept(c, m, w), Tsr.Started(tsr, m))
  {
    forall k: nat | k < 3 {
      StartedFlags(tsr, m, k);
    }
  }

  lemma AcceptShows(c: Cell<Wire>, tsr: Word, boxes: seq<Mailbox>, m: nat, w: Wire)
    requires Shows(c, tsr, boxes) && m < 3 && c.slots[m].flags.empty && WireOf(boxes[m]) == w
    ensures Shows(Accept(c, m, w), Tsr.Started(tsr, m), boxes[m := Requested(boxes[m])])
  {
    var c' := Accept(c, m, w);
    AcceptInv(c, m, w);
    hide FlagsAgree, HoldsFrame, Requested, Tsr.Started, Inv, WireOf;
    StartedAgree(c, tsr, m, w);
    RequestedHolds(c'.slots[m], boxes[m]);
  }

  /** ... and that state follows from the last driver action. */
  ghost predicate Good(c: Cell<Wire>, tsr: Word, boxes: seq<Mailbox>, nart: bool, o: Cell<Wire>, es: seq<Event<Wire>>) {
    Shape(c) && |boxes| == 3 && Shows(c, tsr, boxes) && c.once == nart && Follows(o, es, c)
  }

  lemma FinishedAgree(c: Cell<Wire>, tsr: Word, m: nat, ok: bool, noise: Word)
    requires FlagsAgree(c, tsr) && CanComplete(c, m, ok)
    ensures FlagsAgree(CompleteStep(c, m, ok), Tsr.Finished(tsr, m, ok, noise))
  {
    forall k: nat | k < 3 {
      FinishedFlags(tsr, m, ok, noise, k);
    }
  }

  lemma CompleteShows(c: Cell<Wire>, tsr: Word, boxes: seq<Mailbox>, m: nat, ok: bool, noise: Word)
    requires Shows(c, tsr, boxes) && CanComplete(c, m, ok)
    ensures Shows(CompleteStep(c, m, ok), Tsr.Finished(tsr, m, ok, noise), boxes[m := Released(boxes[m])])
  {
    hide FlagsAgree, HoldsFrame, Released, Tsr.Finished, WireOf;
    assert Shape(c);
    hide Inv;
    CompleteInv(c, m, ok);
    var c' := CompleteStep(c, m, ok);
    assert Shape(c');
    FinishedAgree(c, tsr, m, ok, noise);
    ReleasedHolds(c'.slots[m], boxes[m]);
  }

  lemma CompleteGood(c: Cell<Wire>, tsr: Word, boxes: seq<Mailbox>, nart: bool, o: Cell<Wire>, es: seq<Event<Wire>>,
                     m: nat, ok: bool, noise: Word)
    requires Good(c, tsr, boxes, nart, o, es) && CanComplete(c, m, ok)
    ensures Good(CompleteStep(c, m, ok), Tsr.Finished(tsr, m, ok, noise), boxes[m := Released(boxes[m])], nart,
                 o, es + [Complete(m, ok)])
  {
    hide Shows, Follows, Released, Tsr.Finished;
    CompleteShows(c, tsr, boxes, m, ok, noise);
    FollowsOn(o, es, c, m, ok);
  }

  lemma AcceptGood(c: Cell<Wire>, tsr: Word, boxes: seq<Mailbox>, nart: bool, o: Cell<Wire>, es: seq<Event<Wire>>,
                   m: nat, w: Wire)
    requires Good(c, tsr, boxes, nart, o, es) && m < 3 && c.slots[m].flags.empty && WireOf(boxes[m]) == w
    ensures Good(Accept(c, m, w), Tsr.Started(tsr, m), boxes[m := Requested(boxes[m])], nart, Accept(c, m, w), [])
  {
    hide Shows, Requested, Tsr.Started;
    AcceptShows(c, tsr, boxes, m, w);
  }

  lemma EmptyHasNoRequest(c: Cell<Wire>, tsr: Word, boxes: seq<Mailbox>, m: nat)
    requires Shows(c, tsr, boxes) && m < 3 && c.slots[m].flags.empty
    ensures Request(boxes[m].ir) == 0
  {
    hide Request;
    assert HoldsFrame(c.slots[m], boxes[m]);
  }

  /** One mailbox: `r` are its flags when the register was read, `f` when it is written. */
  lemma CancelSlot(c: Slot<Wire>, x: Slot<Wire>, y: Slot<Wire>, mine: bool)
    requires Tells(c)
    requires (x == c && y == Cancelled(c, mine)) || (!c.flags.empty && x == y && JustEnded(x))
    ensures var f, r := x.flags, c.flags;
            y.flags == Flags(f.done && !r.done, f.ok && !r.done && !r.ok, f.abort || ((r.abort || mine) && !f.empty), f.empty)
  {
  }

  lemma CancelAgreeAt(c: Cell<Wire>, x: Cell<Wire>, y: Cell<Wire>, tsr: Word, read: Word, m: nat, k: nat)
    requires m < 3 && k < 3 && Inv(c) && CancelledAt(c, x, y, m)
    requires c.slots[k].flags == FlagsOf(read, k) && x.slots[k].flags == FlagsOf(tsr, k)
    ensures y.slots[k].flags == FlagsOf(Tsr.Written(tsr, read | Tsr.Mask(Tsr.Abort, m)), k)
  {
    hide FlagsOf, Tsr.Written, Tells, Cancelled, JustEnded, Balanced;
    CancelledFlags(tsr, read, m, k);
    CancelSlot(c.slots[k], x.slots[k], y.slots[k], k == m);
  }

  /** The flags after the write are those of the state in which the cancel call took
      effect when it read the register. */
  lemma CancelAgree(c: Cell<Wire>, x: Cell<Wire>, y: Cell<Wire>, tsr: Word, read: Word, m: nat)
    requires m < 3 && Inv(c) && CancelledAt(c, x, y, m) && FlagsAgree(c, read) && FlagsAgree(x, tsr)
    ensures FlagsAgree(y, Tsr.Written(tsr, read | Tsr.Mask(Tsr.Abort, m)))
  {
    hide FlagsOf, Tsr.Written, Inv;
    forall k: nat | k < 3 {
      CancelAgreeAt(c, x, y, tsr, read, m, k);
    }
  }

  lemma CancelShows(c: Cell<Wire>, x: Cell<Wire>, y: Cell<Wire>, tsr: Word, read: Word, boxes: seq<Mailbox>, m: nat)
    requires m < 3 && Inv(c) && Inv(y) && CancelledAt(c, x, y, m) && FlagsAgree(c, read) && Shows(x, tsr, boxes)
    ensures Shows(y, Tsr.Written(tsr, read | Tsr.Mask(Tsr.Abort, m)), boxes)
  {
    hide FlagsAgree, Inv, Tsr.Written, WireOf, Request;
    CancelAgree(c, x, y, tsr, read, m);
  }

  lemma CancelGood(c: Cell<Wire>, x: Cell<Wire>, tsr: Word, read: Word, boxes: seq<Mailbox>, nart: bool,
                   es: seq<Event<Wire>>, m: nat)
    requires Good(x, tsr, boxes, nart, c, es) && m < 3 && Inv(c) && FlagsAgree(c, read)
    ensures var c' := CancelStep(c, m);
            Follows(c', es, Run(c', es)) &&
            Good(Run(c', es), Tsr.Written(tsr, read | Tsr.Mask(Tsr.Abort, m)), boxes, nart, c', es)
  {
    hide Shows, Inv, FlagsAgree, Tsr.Written;
    var c' := CancelStep(c, m);
    CancelCommutes(c, c, c', m, es);
    CancelInv(c, m);
    Conservation(c', es);
    CancelShows(c, x, Run(c', es), tsr, read, boxes, m);
  }

  lemma ClearedFlags(tsr: Word, m: nat, k: nat)
    requires m < 3 && k < 3
    ensures FlagsOf(Tsr.Written(tsr, Tsr.Mask(Tsr.Done, m)), k) ==
            if k == m then FlagsOf(tsr, k).(done := false, ok := false) else FlagsOf(tsr, k)
  {
    var v := Tsr.Mask(Tsr.Done, m);
    forall f: Tsr.Flag
      ensures Tsr.Is(v, f, k) <==> f.Done? && k == m
    {
      Tsr.DoneMask(m, f, k);
    }
    Tsr.WrittenFlag(tsr, v, Tsr.Done, k);
    Tsr.WrittenFlag(tsr, v, Tsr.Ok, k);
    Tsr.WrittenFlag(tsr, v, Tsr.Abort, k);
    Tsr.WrittenFlag(tsr, v, Tsr.Empty, k);
  }

  lemma ClearAgree(c: Cell<Wire>, tsr: Word, m: nat)
    requires FlagsAgree(c, tsr) && m < 3
    ensures FlagsAgree(ClearStep(c, m), Tsr.Written(tsr, Tsr.Mask(Tsr.Done, m)))
  {
    hide FlagsOf, Tsr.Written;
    forall k: nat | k < 3 {
      ClearedFlags(tsr, m, k);
    }
  }

  lemma ClearGood(c: Cell<Wire>, tsr: Word, boxes: seq<Mailbox>, nart: bool, o: Cell<Wire>, es: seq<Event<Wire>>, m: nat)
    requires Good(c, tsr, boxes, nart, o, es) && m < 3
    ensures Good(ClearStep(c, m), Tsr.Written(tsr, Tsr.Mask(Tsr.Done, m)), boxes, nart, ClearStep(c, m), [])
  {
    hide FlagsAgree, Inv, Tsr.Written, WireOf, Request;
    ClearAgree(c, tsr, m);
    ClearInv(c, m);
  }

  lemma StoreGood(c: Cell<Wire>, tsr: Word, boxes: seq<Mailbox>, nart: bool, o: Cell<Wire>, es: seq<Event<Wire>>,
                  m: nat, box: Mailbox)
    requires Good(c, tsr, boxes, nart, o, es) && m < 3 && c.slots[m].flags.empty && Request(box.ir) == 0
    ensures Good(c, tsr, boxes[m := box], nart, o, es)
  {
    assert HoldsFrame(c.slots[m], box);
    hide HoldsFrame, FlagsAgree, Inv, Follows, Request;
  }

  lemma EmptyFlag(c: Cell<Wire>, tsr: Word, m: nat)
    requires FlagsAgree(c, tsr) && m < 3
    ensures c.slots[m].flags.empty == Tsr.Is(tsr, Tsr.Empty, m)
  {
    hide Tsr.Is;
    assert c.slots[m].flags == FlagsOf(tsr, m);
  }

  lemma CanCompleteFlags(c: Cell<Wire>, tsr: Word, m: nat, ok: bool)
    requires FlagsAgree(c, tsr) && m < 3
    ensures CanComplete(c, m, ok) <==> !Tsr.Is(tsr, Tsr.Empty, m) && (ok || Tsr.Is(tsr, Tsr.Abort, m) || c.once)
  {
    hide Tsr.Is;
    assert c.slots[m].flags == FlagsOf(tsr, m);
  }

  lemma NoiseAgree(c: Cell<Wire>, tsr: Word, m: nat, noise: Word)
    requires FlagsAgree(c, tsr) && m < 3
    ensures FlagsAgree(c, Tsr.Retried(tsr, m, noise)) && FlagsAgree(c, Tsr.Ranked(tsr, noise))
  {
    forall k: nat | k < 3 {
      NoiseFlags(tsr, m, noise, k);
    }
  }

  // ---- the peripheral ---------------------------------------------------------------

  class Can {
    var TSR: Word
    const sTxMailBox: array<Mailbox>
    const nart: bool
    ghost var cell: Cell<Wire>

    // Protocol state at the last driver action, and what the hardware did since.
    ghost var origin: Cell<Wire>
    ghost var since: seq<Event<Wire>>

    /** The registers show the state of the protocol. */
    ghost predicate Valid()
      reads this, sTxMailBox
    {
      Good(cell, TSR, sTxMailBox[..], nart, origin, since)
    }

    constructor (nart: bool)
      ensures Valid() && fresh(sTxMailBox)
      ensures cell.accepted == cell.bus == cell.failed == multiset{}
    {
      var box := Mailbox(0, 0, 0, 0);
      this.nart := nart;
      TSR := 0x1C00_0000;
      sTxMailBox := new Mailbox[3](_ => box);
      cell := Reset(WireOf(box), WireOf(box), WireOf(box), nart);
      origin := Reset(WireOf(box), WireOf(box), WireOf(box), nart);
      since := [];
      new;
      ResetInv(WireOf(box), WireOf(box), WireOf(box), nart);
    }

    // ---- the hardware -----------------------------------------------------------

    lemma HasThree()
      requires Valid()
      ensures Shape(cell) && sTxMailBox.Length == 3
    {
      hide Shows, Follows;
    }

    /** An attempt to send mailbox `m` fails and will be repeated, or the priority
        code changes: nothing the driver looks at. */
    method Attempt(m: nat, retried: bool, noise: Word)
      requires Valid() && m < 3
      modifies this`TSR
      ensures Valid()
    {
      hide FlagsAgree, HoldsFrame, Inv;
      NoiseAgree(cell, TSR, m, noise);
      TSR := if retried then Tsr.Retried(TSR, m, noise) else Tsr.Ranked(TSR, noise);
    }

    lemma Agrees()
      requires Valid()
      ensures Shape(cell) && sTxMailBox.Length == 3 && cell.once == nart
      ensures Inv(cell) && FlagsAgree(cell, TSR) && Follows(origin, since, cell)
    {
      hide Inv, FlagsAgree, HoldsFrame, Follows;
    }

    /** Mailbox `m` becomes empty; the hardware withdraws the request. */
    method Complete(m: nat, ok: bool, noise: Word)
      requires Valid() && CanComplete(cell, m, ok)
      modifies this`TSR, this`cell, this`since, sTxMailBox
      ensures Valid() && cell == CompleteStep(old(cell), m, ok) && since == old(since) + [Event.Complete(m, ok)]
      ensures sTxMailBox[..] == old(sTxMailBox[..])[m := Released(old(sTxMailBox[m]))]
    {
      hide Good, Released, Tsr.Finished;
      HasThree();
      CompleteGood(cell, TSR, sTxMailBox[..], nart, origin, since, m, ok, noise);
      TSR := Tsr.Finished(TSR, m, ok, noise);
      sTxMailBox[m] := Released(sTxMailBox[m]);
      cell := CompleteStep(cell, m, ok);
      since := since + [Event.Complete(m, ok)];
      assert sTxMailBox[..] == old(sTxMailBox[..])[m := Released(old(sTxMailBox[m]))];
    }

    /** Mailbox `m` becomes empty if the flags allow it. */
    method TryComplete(m: nat, ok: bool, noise: Word)
      requires Valid() && m < 3
      modifies this`TSR, this`cell, this`since, sTxMailBox
      ensures Valid() && old(since) <= since && Untouched(old(sTxMailBox[..]), sTxMailBox[..], NONE)
      ensures Shape(old(cell)) && Shape(cell) && sTxMailBox.Length == 3
      ensures forall k: nat | k < 3 && old(cell).slots[k].flags.empty ::
                cell.slots[k] == old(cell).slots[k] && sTxMailBox[k] == old(sTxMailBox[k])
    {
      hide Good, Released, FlagsAgree, Tsr.Is, Inv, Follows;
      Agrees();
      CanCompleteFlags(cell, TSR, m, ok);
      if !Tsr.Is(TSR, Tsr.Empty, m) && (ok || Tsr.Is(TSR, Tsr.Abort, m) || nart) {
        assert CanComplete(cell, m, ok);
        Complete(m, ok, noise);
      }
    }

    /** The hardware acts, or not: it may complete pending mailboxes, fail attempts
        and rank the mailboxes, any number of times. */
    method Hardware()
      requires Valid()
      modifies this`TSR, this`cell, this`since, sTxMailBox
      ensures Valid() && old(since) <= since && Untouched(old(sTxMailBox[..]), sTxMailBox[..], NONE)
      ensures forall k: nat | k < 3 && old(cell).slots[k].flags.empty ::
                cell.slots[k] == old(cell).slots[k] && sTxMailBox[k] == old(sTxMailBox[k])
    {
      hide Untouched, Released, Good;
      var steps: nat := *;
      HasThree();
      UntouchedSame(sTxMailBox[..], NONE);
      while steps > 0
        invariant Valid() && old(since) <= since && Untouched(old(sTxMailBox[..]), sTxMailBox[..], NONE)
        invariant Shape(old(cell)) && Shape(cell) && sTxMailBox.Length == 3
        invariant forall k: nat | k < 3 && old(cell).slots[k].flags.empty ::
                    cell.slots[k] == old(cell).slots[k] && sTxMailBox[k] == old(sTxMailBox[k])
      {
        ghost var boxes := sTxMailBox[..];
        var m: nat, ok: bool, kind: nat, noise: Word := *, *, *, *;
        if m < 3 && kind == 0 {
          TryComplete(m, ok, noise);
          UntouchedOn(old(sTxMailBox[..]), boxes, sTxMailBox[..], NONE);
        } else if m < 3 {
          Attempt(m, kind == 1, noise);
        }
        HasThree();
        steps := steps - 1;
      }
    }

    // ---- CAN_Transmit ---------------------------------------------------------------

    /** A new call begins. */
    ghost method StartHere()
      requires Valid()
      modifies this`origin, this`since
      ensures Valid() && origin == cell && since == []
    {
      hide Shows;
      origin, since := cell, [];
    }

    ghost method Refused() returns (before: seq<Event<Wire>>)
      requires Valid()
      modifies this`origin, this`since
      ensures Valid() && before == old(since) && since == []
      ensures Shape(old(origin)) && Called(old(origin), before, Refuse, since, cell)
    {
      hide Shows;
      before := since;
      CalledAt(origin, since, cell, Refuse, [], cell);
      origin, since := cell, [];
    }

    /** The hardware acts, which leaves an empty mailbox alone. */
    method HardwareBeside(m: nat, ghost boxes: seq<Mailbox>)
      requires Valid() && m < 3 && cell.slots[m].flags.empty && Untouched(boxes, sTxMailBox[..], m)
      modifies this`TSR, this`cell, this`since, sTxMailBox
      ensures Valid() && cell.slots[m].flags.empty && sTxMailBox[m] == old(sTxMailBox[m])
      ensures old(since) <= since && Untouched(boxes, sTxMailBox[..], m)
    {
      hide Good, Untouched, Released;
      Hardware();
      UntouchedExcept(old(sTxMailBox[..]), sTxMailBox[..], m);
      UntouchedOn(boxes, old(sTxMailBox[..]), sTxMailBox[..], m);
    }

    /** Write to an empty mailbox without requesting transmission. */
    method Store(m: nat, box: Mailbox, ghost boxes: seq<Mailbox>)
      requires Valid() && m < 3 && cell.slots[m].flags.empty && Request(box.ir) == 0
      requires Untouched(boxes, sTxMailBox[..], m)
      modifies this`TSR, this`cell, this`since, sTxMailBox
      ensures Valid() && cell.slots[m].flags.empty && sTxMailBox[m] == box
      ensures old(since) <= since && Untouched(boxes, sTxMailBox[..], m)
    {
      HardwareBeside(m, boxes);
      ghost var middle := sTxMailBox[..];
      UntouchedWrite(boxes, middle, m, box);
      StoreGood(cell, TSR, middle, nart, origin, since, m, box);
      hide Good, Untouched, Released;
      sTxMailBox[m] := box;
      assert sTxMailBox[..] == middle[m := box];
    }

    /** Set up the identifier. */
    method FillId(m: nat, msg: TxMsg, ghost boxes: seq<Mailbox>)
      requires Valid() && WellTyped(msg) && m < 3 && cell.slots[m].flags.empty && Untouched(boxes, sTxMailBox[..], m)
      modifies this`TSR, this`cell, this`since, sTxMailBox
      ensures Valid() && cell.slots[m].flags.empty && old(since) <= since && Untouched(boxes, sTxMailBox[..], m)
      ensures sTxMailBox[m] == old(sTxMailBox[m]).(ir := IdWord(Request(old(sTxMailBox[m]).ir), msg))
    {
      var box := sTxMailBox[m];
      EmptyHasNoRequest(cell, TSR, sTxMailBox[..], m);
      NoRequestYet(box.ir, msg);
      hide Good, Untouched, Request, IdWord;
      box := box.(ir := Request(box.ir));
      Store(m, box, boxes);
      box := box.(ir := IdWord(box.ir, msg));
      Store(m, box, boxes);
    }

    /** Set up the length. */
    method FillLength(m: nat, msg: TxMsg, ghost boxes: seq<Mailbox>)
      requires Valid() && WellTyped(msg) && m < 3 && cell.slots[m].flags.empty && Untouched(boxes, sTxMailBox[..], m)
      modifies this`TSR, this`cell, this`since, sTxMailBox
      ensures Valid() && cell.slots[m].flags.empty && old(since) <= since && Untouched(boxes, sTxMailBox[..], m)
      ensures sTxMailBox[m] == old(sTxMailBox[m]).(dtr := WithLength(WithoutLength(old(sTxMailBox[m]).dtr), msg.dlc & 0xF))
    {
      var box := sTxMailBox[m];
      EmptyHasNoRequest(cell, TSR, sTxMailBox[..], m);
      hide Good, Untouched, Request, WithoutLength, WithLength;
      box := box.(dtr := WithoutLength(box.dtr));
      Store(m, box, boxes);
      box := box.(dtr := WithLength(box.dtr, msg.dlc & 0xF));
      Store(m, box, boxes);
    }

    /** Set up the data field. */
    method FillData(m: nat, msg: TxMsg, ghost boxes: seq<Mailbox>)
      requires Valid() && WellTyped(msg) && m < 3 && cell.slots[m].flags.empty && Untouched(boxes, sTxMailBox[..], m)
      modifies this`TSR, this`cell, this`since, sTxMailBox
      ensures Valid() && cell.slots[m].flags.empty && old(since) <= since && Untouched(boxes, sTxMailBox[..], m)
      ensures sTxMailBox[m] == old(sTxMailBox[m]).(
                dlr := Pack4(msg.data.d0, msg.data.d1, msg.data.d2, msg.data.d3),
                dhr := Pack4(msg.data.d4, msg.data.d5, msg.data.d6, msg.data.d7))
    {
      var box := sTxMailBox[m];
      EmptyHasNoRequest(cell, TSR, sTxMailBox[..], m);
      hide Good, Untouched, Request, Pack4;
      box := box.(dlr := Pack4(msg.data.d0, msg.data.d1, msg.data.d2, msg.data.d3));
      Store(m, box, boxes);
      box := box.(dhr := Pack4(msg.data.d4, msg.data.d5, msg.data.d6, msg.data.d7));
      Store(m, box, boxes);
    }

    /** Write the identifier, the length and the data of the message to an empty
        mailbox, one register access at a time. */
    method Fill(m: nat, msg: TxMsg, ghost boxes: seq<Mailbox>)
      requires Valid() && WellTyped(msg) && m < 3 && cell.slots[m].flags.empty && Untouched(boxes, sTxMailBox[..], m)
      modifies this`TSR, this`cell, this`since, sTxMailBox
      ensures Valid() && cell.slots[m].flags.empty && old(since) <= since && Untouched(boxes, sTxMailBox[..], m)
      ensures sTxMailBox[m] == Load(old(sTxMailBox[m]), msg)
    {
      hide Good, Untouched, Request, IdWord, Pack4;
      FillId(m, msg, boxes);
      FillLength(m, msg, boxes);
      FillData(m, msg, boxes);
    }

    /** The mailbox, already loaded, gets its transmit request: the hardware marks it
        pending and clears its completion flags. */
    method RequestTransmission(m: nat, ghost w: Wire, ghost boxes: seq<Mailbox>)
      requires Valid() && m < 3 && Shape(cell) && cell.slots[m].flags.empty && WireOf(sTxMailBox[m]) == w
      requires Untouched(boxes, sTxMailBox[..], m)
      modifies this, sTxMailBox
      ensures Valid() && cell == origin == Accept(old(cell), m, w) && since == []
      ensures Untouched(boxes, sTxMailBox[..], m) && sTxMailBox[m] == Requested(old(sTxMailBox[m]))
    {
      hide Good, Requested, Tsr.Started, Untouched, Released, WireOf;
      HasThree();
      AcceptGood(cell, TSR, sTxMailBox[..], nart, origin, since, m, w);
      UntouchedWrite(boxes, sTxMailBox[..], m, Requested(sTxMailBox[m]));
      sTxMailBox[m] := Requested(sTxMailBox[m]);
      TSR := Tsr.Started(TSR, m);
      cell := Accept(cell, m, w);
      origin, since := cell, [];
      assert sTxMailBox[..] == old(sTxMailBox[..])[m := Requested(old(sTxMailBox[m]))];
    }

    /** An empty mailbox is loaded and its transmission requested. */
    method Accepted(m: nat, msg: TxMsg, ghost boxes: seq<Mailbox>) returns (ghost before: seq<Event<Wire>>)
      requires Valid() && WellTyped(msg) && m < 3 && Shape(cell) && cell.slots[m].flags.empty
      requires Untouched(boxes, sTxMailBox[..], m)
      modifies this, sTxMailBox
      ensures Valid() && old(since) <= before
      ensures Shape(old(origin)) && Run(old(origin), before).slots[m].flags.empty
      ensures Called(old(origin), before, Event.Transmit(m, WireFor(msg)), since, cell)
      ensures Untouched(boxes, sTxMailBox[..], m) && CanFrame.Written(old(sTxMailBox[m]), sTxMailBox[m], msg)
    {
      hide CanFrame.Written;
      ghost var box := sTxMailBox[m];
      LoadedWritten(box, msg);
      RequestedWritten(box, Load(box, msg), msg);
      Fill(m, msg, boxes);
      LoadedWire(box, msg);
      HardwareBeside(m, boxes);
      before := since;
      ghost var c := cell;
      RequestTransmission(m, WireFor(msg), boxes);
      ghost var middle := sTxMailBox[..];
      RequestedWritten(box, sTxMailBox[m], msg);
      Hardware();
      SameOrReleased(middle, sTxMailBox[..], m);
      UntouchedExcept(middle, sTxMailBox[..], m);
      UntouchedOn(boxes, middle, sTxMailBox[..], m);
      hide Good, Untouched, Released, HardwareRun, Run;
      CalledAt(old(origin), before, c, Event.Transmit(m, WireFor(msg)), since, cell);
    }

    method ReadEmpty(m: nat, ghost boxes: seq<Mailbox>) returns (empty: bool)
      requires Valid() && m < 3 && Untouched(boxes, sTxMailBox[..], NONE)
      modifies this`TSR, this`cell, this`since, sTxMailBox
      ensures Valid() && Shape(cell) && empty == cell.slots[m].flags.empty && old(since) <= since
      ensures Follows(origin, since, cell) && Untouched(boxes, sTxMailBox[..], NONE)
    {
      Hardware();
      UntouchedOn(boxes, old(sTxMailBox[..]), sTxMailBox[..], NONE);
      EmptyFlag(cell, TSR, m);
      empty := Tsr.Is(TSR, Tsr.Empty, m);
      hide Untouched, Shows, Follows, FlagsAgree;
    }

    /** Select one empty transmit mailbox; the register is read once for each. */
    method SelectMailbox()
      returns (mailbox: Byte, ghost p0: seq<Event<Wire>>, ghost p1: seq<Event<Wire>>, ghost p2: seq<Event<Wire>>)
      requires Valid()
      modifies this`TSR, this`cell, this`since, sTxMailBox
      ensures Valid() && Shape(cell)
      ensures mailbox < 3 || mailbox == Tsr.NO_MAILBOX
      ensures mailbox < 3 ==> cell.slots[mailbox].flags.empty
      ensures p2 == since && Selects(origin, p0, p1, p2, mailbox as nat)
      ensures Untouched(old(sTxMailBox[..]), sTxMailBox[..], NONE)
    {
      hide Shows, HardwareRun, Run, Untouched, Released;
      ghost var start := sTxMailBox[..];
      HasThree();
      UntouchedSame(start, NONE);
      var empty := ReadEmpty(0, start);
      p0, p1, p2 := since, since, since;
      if empty {
        return 0, p0, p1, p2;
      }
      empty := ReadEmpty(1, start);
      p1, p2 := since, since;
      if empty {
        return 1, p0, p1, p2;
      }
      empty := ReadEmpty(2, start);
      p2 := since;
      mailbox := if empty then 2 else Tsr.NO_MAILBOX;
    }

    /** CAN_Transmit, with the hardware free to act before each register access. The
        call is one event of the protocol: the accept of the frame of the message, at the
        moment TXRQ is set, or a refusal, with `before` what the hardware did until then
        and `since` what it did afterwards. `p0`, `p1` and `p2` say how far it had come at
        the three reads that choose the mailbox. Nothing else is written. */
    method Transmit(msg: TxMsg)
      returns (mailbox: Byte, ghost before: seq<Event<Wire>>,
               ghost p0: seq<Event<Wire>>, ghost p1: seq<Event<Wire>>, ghost p2: seq<Event<Wire>>)
      requires Valid() && WellTyped(msg)
      modifies this, sTxMailBox
      ensures Valid()
      ensures mailbox < 3 || mailbox == 4
      ensures Selects(old(cell), p0, p1, p2, mailbox as nat) && p2 <= before
      ensures mailbox < 3 ==> Shape(old(cell)) && Run(old(cell), before).slots[mailbox].flags.empty
      ensures Shape(old(cell)) && Called(old(cell), before,
                if mailbox < 3 then Event.Transmit(mailbox as nat, WireFor(msg)) else Refuse, since, cell)
      ensures Untouched(old(sTxMailBox[..]), sTxMailBox[..], mailbox as nat)
      ensures mailbox < 3 ==> CanFrame.Written(old(sTxMailBox[..])[mailbox], sTxMailBox[mailbox], msg)
    {
      hide CanFrame.Written, Untouched, Released, Selects, HardwareRun, Good;
      HasThree();
      StartHere();
      ghost var boxes := sTxMailBox[..];
      mailbox, p0, p1, p2 := SelectMailbox();
      if mailbox != Tsr.NO_MAILBOX {
        ghost var box := sTxMailBox[mailbox];
        SameOrReleased(boxes, sTxMailBox[..], mailbox as nat);
        UntouchedExcept(boxes, sTxMailBox[..], mailbox as nat);
        before := Accepted(mailbox as nat, msg, boxes);
        WrittenFrom(boxes[mailbox], box, sTxMailBox[mailbox], msg);
      } else {
        before := Refused();
      }
    }

    // ---- status and cancelling ---------------------------------------------------------

    /** CAN_TransmitStatus: one read of the register. */
    method TransmitStatus(mailbox: Byte) returns (status: Byte)
      requires Valid()
      ensures mailbox < 3 ==> status == Status(cell, mailbox as nat)
      ensures mailbox < 3 ==> var fate := cell.slots[mailbox].fate;
                status == if fate.Waiting? then 2 else if fate == Ended(true, true) then 1 else 0
      ensures mailbox >= 3 ==> status == 2
    {
      status := Tsr.StatusCode(Tsr.Selected(TSR, mailbox));
      if mailbox < 3 {
        assert cell.slots[mailbox].flags == FlagsOf(TSR, mailbox as nat);
        Tsr.StatusFromFlags(TSR, mailbox);
        hide Tsr.StatusCode, Tsr.Selected, Tsr.Is, Tsr.StatusFor;
      } else {
        Tsr.NoMailboxLooksPending(TSR, mailbox);
      }
    }

    /** Write back the value read, with one abort bit added. */
    method WriteCancel(m: nat, read: Word, ghost c: Cell<Wire>)
      requires Valid() && m < 3 && c == origin && Shape(c) && Inv(c) && FlagsAgree(c, read)
      modifies this
      ensures Valid() && Follows(CancelStep(c, m), since, cell)
    {
      hide Shows, Follows, Run, FlagsAgree, Tsr.Written, Inv;
      CancelGood(c, cell, TSR, read, sTxMailBox[..], nart, since, m);
      TSR := Tsr.Written(TSR, read | Tsr.Mask(Tsr.Abort, m));
      origin := CancelStep(c, m);
      cell := Run(CancelStep(c, m), since);
    }

    /** CAN_CancelTransmit reads the status register, sets an abort bit and writes the
        register back; the hardware may act in between. The call takes effect when it
        reads: `before` is what the hardware did until then. */
    method CancelTransmit(mailbox: Byte) returns (ghost before: seq<Event<Wire>>)
      requires Valid()
      modifies this, sTxMailBox
      ensures Valid()
      ensures Shape(old(cell)) && Called(old(cell), before, Event.Cancel(mailbox as nat), since, cell)
      ensures Untouched(old(sTxMailBox[..]), sTxMailBox[..], NONE)
    {
      hide Good, Untouched, Run, HardwareRun, FlagsAgree, Inv;
      HasThree();
      StartHere();
      if mailbox < 3 {
        var m := mailbox as nat;
        Hardware();
        before := since;
        var read := TSR;
        ghost var c := cell;
        ghost var boxes := sTxMailBox[..];
        Agrees();
        StartHere();
        Hardware();
        UntouchedOn(old(sTxMailBox[..]), boxes, sTxMailBox[..], NONE);
        WriteCancel(m, read, c);
        CalledAt(old(cell), before, c, Event.Cancel(m), since, cell);
      } else {
        before := [];
        UntouchedSame(sTxMailBox[..], NONE);
        Agrees();
        CalledAt(cell, [], cell, Event.Cancel(mailbox as nat), [], cell);
      }
    }

    /** CAN_ClearFlag for the request-completed flag of a mailbox: one write. */
    method ClearRequestCompleted(m: nat)
      requires Valid() && m < 3
      modifies this
      ensures Valid() && cell == Step(old(cell), Event.Clear(m))
    {
      hide Good, Tsr.Written, Tsr.Mask;
      HasThree();
      ClearGood(cell, TSR, sTxMailBox[..], nart, origin, since, m);
      TSR := Tsr.Written(TSR, Tsr.Mask(Tsr.Done, m));
      cell := ClearStep(cell, m);
      origin, since := cell, [];
    }
  }

  // ---- from the call to the receiver -------------------------------------------------------

  /** Every transmit of the run is one of the driver, for a message. */
  ghost predicate FromDriver(es: seq<Event<Wire>>) {
    forall e | e in es && e.Transmit? :: exists msg :: WellTyped(msg) && e.w == WireFor(msg)
  }

  /** After any run of calls and hardware steps, a frame that went over the bus and is taken
      from a receive mailbox is one that was transmitted in this run, and is read as its
      message exactly when the identifier fits. */
  lemma SentFrameIsReceived(c: Cell<Wire>, es: seq<Event<Wire>>, sent: Mailbox, rx: Mailbox, before: RxMsg)
    requires Inv(c) && c.accepted == multiset{} && FromDriver(es)
    requires WireOf(sent) in Run(c, es).bus && Delivers(sent, rx)
    ensures exists m, msg :: Event.Transmit(m, WireFor(msg)) in es && WellTyped(msg) && WireFor(msg) == WireOf(sent) &&
                             (SameFrame(msg, Unload(rx, before)) <==> IdFits(msg))
  {
    hide Unload, SameFrame, IdFits, Delivers;
    var w := WireOf(sent);
    BusBounded(c, es, w);
    TransmitsSome(es, w);
    var m :| Event.Transmit(m, w) in es;
    assert Event.Transmit(m, w).w == w;
    var msg :| WellTyped(msg) && w == WireFor(msg);
    FrameArrives(msg, sent, rx, before);
  }
}
