/** The command server: datagrams drive the LEDs and two motors, a one-shot latch limits
    motor 1 to one start per arming, and a polling loop replies and re-arms it (readme.md;
    LWIP/lwip_app/udp_demo/udp_demo.c).

    The receive callback runs in the interrupt of external line 1
    (HARDWARE/ENC28J60/enc28j60.c:504), so it can come between any two accesses that the
    polling loop makes to what they share: the loop is modelled one access at a time. */
module UdpMotor {
  import opened UdpFrame

  /** What the server does to the motors. */
  datatype Action = Start1(forward: bool) | Stop1 | Start2 | Stop2

  datatype Leds = Leds(led0: bool, led1: bool, led2: bool)

  /** Where the polling loop stands: before its test of the flag, about to copy field `k` of
      the command into the reply, about to set the latch, about to load the flag, or about
      to store it with the pending bit cleared. */
  datatype Pc = Idle | Replying(k: nat) | Arming | Loading | Storing(reg: bv8)

  /** `latch` is elengine_wyx; `flag` is udp_demo_flag; `reply` holds the command fields of
      the send buffer; `log` collects the actions. */
  datatype State = State(
    command: Command, leds: Leds, latch: bool, flag: bv8, reply: Command, pc: Pc, log: seq<Action>)

  /** A datagram arrives or the connection is dropped, both in the interrupt, or the loop
      makes its next access; `buffer` says whether a packet buffer for a reply can be had. */
  datatype Event = Datagram(wire: seq<Byte>) | Disconnect | Tick(buffer: bool)

  const ZERO: Byte := 0x30
  const ONE: Byte := 0x31

  predicate Pending(flag: bv8) {
    flag & 0x40 != 0
  }

  predicate Connected(flag: bv8) {
    flag & 0x20 != 0
  }

  function Mark(flag: bv8): bv8 { flag | 0x40 }
  function Unmark(flag: bv8): bv8 { flag & 0xBF }
  function Drop(flag: bv8): bv8 { flag & 0xDF }

  /** The command asks motor 1 to turn. */
  predicate Asks(c: Command) {
    c.humi0 == 1 && c.elengine0 == ONE && (c.elengine1 == ONE || c.elengine1 == ZERO)
  }

  function Actions1(c: Command, latch: bool): seq<Action> {
    if c.humi0 != 1 then [Stop1] else if Asks(c) && latch then [Start1(c.elengine1 == ONE)] else []
  }

  function Actions2(c: Command): seq<Action> {
    if c.elengine0 != ZERO then [] else if c.elengine1 == ONE then [Start2]
    else if c.elengine1 == ZERO then [Stop2] else []
  }

  /** The actions of one command, first on motor 1, then on motor 2. */
  function Actions(c: Command, latch: bool): seq<Action> {
    Actions1(c, latch) + Actions2(c)
  }

  function LedsOf(c: Command): Leds {
    Leds(c.led0 == ONE, c.led1 == ONE, c.led2 == ONE)
  }

  /** Message_processing. */
  function Processed(s: State): State {
    s.(leds := LedsOf(s.command), latch := s.latch && !Asks(s.command), log := s.log + Actions(s.command, s.latch))
  }

  /** What a command does, by its bytes: each LED is on for the character '1'; with humi[0] at
      one and the latch set, elengine "11" starts motor 1 forward and "10" backward, which
      spends the latch; humi[0] at another value stops motor 1; "01" starts motor 2 and "00"
      stops it. */
  predicate Obeyed(s: State, t: State) {
    var c := s.command;
    var stop1 := if c.humi0 == 1 then [] else [Stop1];
    t.leds == Leds(c.led0 == 0x31, c.led1 == 0x31, c.led2 == 0x31) &&
    if c.elengine0 == 0x31 && c.humi0 == 1 && s.latch && c.elengine1 == 0x31 then
      t.log == s.log + [Start1(true)] && !t.latch
    else if c.elengine0 == 0x31 && c.humi0 == 1 && s.latch && c.elengine1 == 0x30 then
      t.log == s.log + [Start1(false)] && !t.latch
    else if c.elengine0 == 0x30 && c.elengine1 == 0x31 then
      t.log == s.log + stop1 + [Start2] && t.latch == s.latch
    else if c.elengine0 == 0x30 && c.elengine1 == 0x30 then
      t.log == s.log + stop1 + [Stop2] && t.latch == s.latch
    else
      t.log == s.log + stop1 && t.latch == s.latch
  }

  lemma ProcessedObeys(s: State)
    ensures Obeyed(s, Processed(s))
  {
  }

  /** Bit 6 of the flag says that a datagram waits, bit 5 that the connection is up. */
  lemma FlagPlaces(flag: bv8)
    ensures Pending(flag) == ((flag >> 6) & 1 == 1) && Connected(flag) == ((flag >> 5) & 1 == 1)
  {
  }

  /** Fields of the command, in the order in which the reply takes them. */
  const FIELDS: nat := 7

  /** `to` with field `k` taken from `from`. */
  function Copied(to: Command, from: Command, k: nat): Command {
    if k == 0 then to.(humi0 := from.humi0)
    else if k == 1 then to.(humi1 := from.humi1)
    else if k == 2 then to.(elengine0 := from.elengine0)
    else if k == 3 then to.(elengine1 := from.elengine1)
    else if k == 4 then to.(led0 := from.led0)
    else if k == 5 then to.(led1 := from.led1)
    else to.(led2 := from.led2)
  }

  /** The next access of the loop. Without a packet buffer there is no reply. */
  function Ticked(s: State, buffer: bool): State {
    match s.pc
    case Idle => if Pending(s.flag) then s.(pc := if buffer then Replying(0) else Arming) else s
    case Replying(k) =>
      s.(reply := Copied(s.reply, s.command, k), pc := if k + 1 < FIELDS then Replying(k + 1) else Arming)
    case Arming => s.(latch := true, pc := Loading)
    case Loading => s.(pc := Storing(s.flag))
    case Storing(reg) => s.(flag := Unmark(reg), pc := Idle)
  }

  ghost function Step(s: State, e: Event): State {
    match e
    case Datagram(wire) =>
      var t := Processed(s.(command := Understood(s.command, Received(wire))));
      t.(flag := Mark(t.flag))
    case Disconnect => s.(flag := Drop(s.flag))
    case Tick(buffer) => Ticked(s, buffer)
  }

  ghost function Run(s: State, es: seq<Event>): State
    decreases es
  {
    if es == [] then s else Run(Step(s, es[0]), es[1..])
  }

  lemma {:induction false} RunAppend(s: State, es: seq<Event>, fs: seq<Event>)
    ensures Run(s, es + fs) == Run(Run(s, es), fs)
    decreases es
  {
    if es == [] {
      assert es + fs == fs;
    } else {
      assert (es + fs)[1..] == es[1..] + fs;
      RunAppend(Step(s, es[0]), es[1..], fs);
    }
  }

  lemma RunOne(s: State, e: Event)
    ensures Run(s, [e]) == Step(s, e)
  {
    assert Run(Step(s, e), [e][1..]) == Step(s, e);
  }

  function One(b: bool): nat {
    if b then 1 else 0
  }

  /** How many accesses the loop makes. */
  function Accesses(es: seq<Event>): nat
    decreases es
  {
    if es == [] then 0 else One(es[0].Tick?) + Accesses(es[1..])
  }

  lemma {:induction false} AccessesAppend(es: seq<Event>, fs: seq<Event>)
    ensures Accesses(es + fs) == Accesses(es) + Accesses(fs)
    decreases es
  {
    if es == [] {
      assert es + fs == fs;
    } else {
      assert (es + fs)[1..] == es[1..] + fs;
      AccessesAppend(es[1..], fs);
    }
  }

  lemma AccessesTick(es: seq<Event>, buffer: bool)
    ensures Accesses(es + [Tick(buffer)]) == Accesses(es) + 1
  {
    AccessesAppend(es, [Tick(buffer)]);
    assert Accesses([Tick(buffer)][1..]) == 0;
  }

  /** Only the interrupt. */
  predicate Callbacks(es: seq<Event>) {
    forall e | e in es :: !e.Tick?
  }

  lemma {:induction false} NoAccess(es: seq<Event>)
    ensures Callbacks(es) <==> Accesses(es) == 0
    decreases es
  {
    if es == [] {
    } else {
      NoAccess(es[1..]);
      assert Callbacks(es) <==> !es[0].Tick? && Callbacks(es[1..]);
    }
  }

  lemma {:induction false} CallbacksKeepPc(s: State, es: seq<Event>)
    requires Callbacks(es)
    ensures Run(s, es).pc == s.pc && Run(s, es).reply == s.reply
    decreases es
  {
    if es == [] {
    } else {
      CallbacksKeepPc(Step(s, es[0]), es[1..]);
    }
  }

  // ---- the one-shot latch -----------------------------------------------------------------

  function Starts(log: seq<Action>): nat {
    if log == [] then 0 else Starts(log[..|log| - 1]) + (if log[|log| - 1].Start1? then 1 else 0)
  }

  lemma {:induction false} StartsAppend(a: seq<Action>, b: seq<Action>)
    ensures Starts(a + b) == Starts(a) + Starts(b)
    decreases |b|
  {
    if b == [] {
      assert a + b == a;
    } else {
      var n := |b| - 1;
      assert (a + b)[..|a + b| - 1] == a + b[..n];
      StartsAppend(a, b[..n]);
    }
  }

  /** How often the loop arms the latch. */
  ghost function Rearms(s: State, es: seq<Event>): nat
    decreases es
  {
    if es == [] then 0
    else One(es[0].Tick? && s.pc.Arming?) + Rearms(Step(s, es[0]), es[1..])
  }

  function Datagrams(es: seq<Event>): nat
    decreases es
  {
    if es == [] then 0 else One(es[0].Datagram?) + Datagrams(es[1..])
  }

  lemma ActionsStarts(c: Command, latch: bool)
    ensures Starts(Actions(c, latch)) == One(Asks(c) && latch)
  {
    StartsAppend(Actions1(c, latch), Actions2(c));
  }

  /** Motor 1 starts at a datagram, at most once, and exactly when the latch is set and the
      command in force asks for it; nothing else starts it. */
  lemma StartsExactlyWhen(s: State, e: Event)
    ensures Starts(Step(s, e).log) ==
            Starts(s.log) + One(e.Datagram? && s.latch && Asks(Understood(s.command, Received(e.wire))))
  {
    if e.Datagram? {
      var c := Understood(s.command, Received(e.wire));
      ActionsStarts(c, s.latch);
      StartsAppend(s.log, Actions(c, s.latch));
    }
  }

  /** Over any run, starts plus the latch are at most re-arms plus the initial latch. */
  lemma {:induction false} StartsBoundedByRearms(s: State, es: seq<Event>)
    ensures Starts(Run(s, es).log) + One(Run(s, es).latch) <= Starts(s.log) + Rearms(s, es) + One(s.latch)
    decreases es
  {
    if es == [] {
    } else {
      StartsExactlyWhen(s, es[0]);
      StartsBoundedByRearms(Step(s, es[0]), es[1..]);
    }
  }

  lemma SetPending(flag: bv8)
    ensures Pending(Mark(flag))
  {
  }

  lemma ClearPending(flag: bv8)
    ensures !Pending(Unmark(flag))
  {
  }

  lemma DisconnectKeepsPending(flag: bv8)
    ensures Pending(Drop(flag)) <==> Pending(flag)
  {
  }

  /** An arming that the loop is bound to: it has seen the pending bit, or will. */
  predicate Due(s: State) {
    s.pc.Replying? || s.pc.Arming? || (s.pc.Idle? && Pending(s.flag))
  }

  lemma DueStep(s: State, e: Event)
    ensures One(e.Tick? && s.pc.Arming?) + One(Due(Step(s, e))) <= One(e.Datagram?) + One(Due(s))
  {
    hide Pending, Mark, Unmark, Drop, Processed, Understood;
    SetPending(s.flag);
    if s.pc.Storing? {
      ClearPending(s.pc.reg);
    }
    DisconnectKeepsPending(s.flag);
  }

  /** Every re-arm uses up a datagram. */
  lemma {:induction false} RearmsBoundedByDatagrams(s: State, es: seq<Event>)
    ensures Rearms(s, es) + One(Due(Run(s, es))) <= Datagrams(es) + One(Due(s))
    decreases es
  {
    hide Due, Step;
    if es == [] {
    } else {
      DueStep(s, es[0]);
      RearmsBoundedByDatagrams(Step(s, es[0]), es[1..]);
    }
  }

  /** Over any run motor 1 starts at most once for each datagram, beyond what was armed or
      due at the beginning. */
  lemma StartsBoundedByDatagrams(s: State, es: seq<Event>)
    ensures Starts(Run(s, es).log) <= Starts(s.log) + Datagrams(es) + One(Due(s)) + One(s.latch)
  {
    StartsBoundedByRearms(s, es);
    RearmsBoundedByDatagrams(s, es);
  }

  lemma {:induction false} NoTickNoRearm(s: State, es: seq<Event>)
    requires Callbacks(es)
    ensures Rearms(s, es) == 0
    decreases es
  {
    if es == [] {
    } else {
      NoTickNoRearm(Step(s, es[0]), es[1..]);
    }
  }

  /** However many datagrams arrive between two accesses of the loop, motor 1 starts at
      most once. */
  lemma OneStartBetweenAccesses(s: State, es: seq<Event>)
    requires Callbacks(es)
    ensures Starts(Run(s, es).log) <= Starts(s.log) + 1
  {
    StartsBoundedByRearms(s, es);
    NoTickNoRearm(s, es);
  }

  // ---- the flag bits ----------------------------------------------------------------------------

  lemma PendingKeepsConnected(flag: bv8)
    ensures (Connected(Mark(flag)) <==> Connected(flag)) && (Connected(Unmark(flag)) <==> Connected(flag))
  {
  }

  lemma DisconnectClears(flag: bv8)
    ensures !Connected(Drop(flag))
  {
  }

  /** Bits 0 to 4 and 7. */
  function OtherBits(flag: bv8): bv8 {
    flag & 0x9F
  }

  lemma OtherBitsKept(flag: bv8)
    ensures OtherBits(Mark(flag)) == OtherBits(flag) && OtherBits(Unmark(flag)) == OtherBits(flag)
    ensures OtherBits(Drop(flag)) == OtherBits(flag)
  {
  }

  /** The flag with the store that the loop is about to make. */
  function Settled(s: State): bv8 {
    if s.pc.Storing? then Unmark(s.pc.reg) else s.flag
  }

  /** A disconnect that counts: one that lands between the load and the store of the loop
      is overwritten. */
  predicate Drops(s: State, e: Event) {
    e.Disconnect? && !s.pc.Storing?
  }

  ghost predicate AnyDrops(s: State, es: seq<Event>)
    decreases es
  {
    es != [] && (Drops(s, es[0]) || AnyDrops(Step(s, es[0]), es[1..]))
  }

  lemma StepFlag(s: State, e: Event)
    ensures Step(s, e).flag == match e
              case Datagram(_) => Mark(s.flag)
              case Disconnect => Drop(s.flag)
              case Tick(_) => if s.pc.Storing? then Unmark(s.pc.reg) else s.flag
    ensures if e.Tick? then (Step(s, e).pc.Storing? <==> s.pc.Loading?) && (s.pc.Loading? ==> Step(s, e).pc.reg == s.flag)
            else Step(s, e).pc == s.pc
  {
    hide Pending, Mark, Unmark, Drop, Actions, LedsOf, Copied, Understood, Asks, Received;
  }

  lemma SettledStep(s: State, e: Event)
    ensures Connected(Settled(Step(s, e))) <==> Connected(Settled(s)) && !Drops(s, e)
    ensures OtherBits(s.flag) == OtherBits(Settled(s)) ==>
              OtherBits(Step(s, e).flag) == OtherBits(Settled(Step(s, e))) == OtherBits(s.flag)
  {
    hide Step, Pending, Connected, OtherBits, Mark, Unmark, Drop;
    StepFlag(s, e);
    PendingKeepsConnected(s.flag);
    DisconnectClears(s.flag);
    OtherBitsKept(s.flag);
  }

  /** Over any run the connection counts as up exactly when it was and no disconnect came
      outside the window between a load of the loop and its store. */
  lemma {:induction false} ConnectedExactly(s: State, es: seq<Event>)
    ensures Connected(Settled(Run(s, es))) <==> Connected(Settled(s)) && !AnyDrops(s, es)
    decreases es
  {
    hide Connected, Settled, Step, Drops;
    if es == [] {
    } else {
      SettledStep(s, es[0]);
      ConnectedExactly(Step(s, es[0]), es[1..]);
    }
  }

  /** No other bit ever changes. */
  lemma {:induction false} OtherBitsUntouched(s: State, es: seq<Event>)
    requires OtherBits(s.flag) == OtherBits(Settled(s))
    ensures OtherBits(Run(s, es).flag) == OtherBits(s.flag)
    decreases es
  {
    hide OtherBits, Settled, Step;
    if es == [] {
    } else {
      SettledStep(s, es[0]);
      OtherBitsUntouched(Step(s, es[0]), es[1..]);
    }
  }

  // ---- where the interrupt lands -----------------------------------------------------------------

  /** A datagram is waiting to be seen by the loop's next test. */
  predicate Marked(s: State) {
    s.pc.Idle? && Pending(s.flag)
  }

  /** A datagram of the run lands while the loop is at its test, and no access follows. */
  ghost predicate MarkSurvives(s: State, es: seq<Event>)
    decreases es
  {
    es != [] &&
    ((es[0].Datagram? && s.pc.Idle? && Callbacks(es[1..])) || MarkSurvives(Step(s, es[0]), es[1..]))
  }

  lemma MarkedStep(s: State, e: Event)
    ensures Marked(Step(s, e)) <==> (s.pc.Idle? && e.Datagram?) || (Marked(s) && !e.Tick?)
  {
    hide Pending, Mark, Unmark, Drop, Actions, Understood, Copied, LedsOf, Asks, Received;
    SetPending(s.flag);
    if s.pc.Storing? {
      ClearPending(s.pc.reg);
    }
    DisconnectKeepsPending(s.flag);
  }

  /** Over any run a datagram waits to be seen exactly when one landed while the loop was
      at its test and the loop has made no access since. The mark of a datagram that lands
      anywhere between the test and the store is lost. */
  lemma {:induction false} MarkExactly(s: State, es: seq<Event>)
    ensures Marked(Run(s, es)) <==> (Marked(s) && Callbacks(es)) || MarkSurvives(s, es)
    decreases es
  {
    hide Marked, Step;
    if es == [] {
    } else {
      MarkedStep(s, es[0]);
      MarkExactly(Step(s, es[0]), es[1..]);
      assert Callbacks(es) <==> !es[0].Tick? && Callbacks(es[1..]);
    }
  }

  /** With nothing waiting the loop has left the latch set. */
  predicate Armed(s: State) {
    (s.pc.Idle? && !Pending(s.flag) ==> s.latch) && (s.pc.Loading? || s.pc.Storing? ==> s.latch)
  }

  /** A datagram that asks for a start lands after the arming and before the store. */
  ghost predicate StartInWindow(s: State, e: Event) {
    e.Datagram? && (s.pc.Loading? || s.pc.Storing?) && Asks(Understood(s.command, Received(e.wire)))
  }

  /** A step leaves the latch in order exactly when it is not such a datagram. */
  lemma ArmedStep(s: State, e: Event)
    requires Armed(s)
    ensures Armed(Step(s, e)) <==> !StartInWindow(s, e)
  {
    hide Pending, Mark, Unmark, Drop, Actions, Understood, Copied, LedsOf, Asks, Received;
    SetPending(s.flag);
    if s.pc.Storing? {
      ClearPending(s.pc.reg);
    }
    DisconnectKeepsPending(s.flag);
  }

  ghost predicate AnyStartInWindow(s: State, es: seq<Event>)
    decreases es
  {
    es != [] && (StartInWindow(s, es[0]) || AnyStartInWindow(Step(s, es[0]), es[1..]))
  }

  /** Over any run without one, motor 1 is ready whenever nothing waits. */
  lemma {:induction false} ArmedUnlessStartInWindow(s: State, es: seq<Event>)
    requires Armed(s) && !AnyStartInWindow(s, es)
    ensures Armed(Run(s, es))
    decreases es
  {
    hide Armed, Step, StartInWindow;
    if es == [] {
    } else {
      ArmedStep(s, es[0]);
      ArmedUnlessStartInWindow(Step(s, es[0]), es[1..]);
    }
  }

  /** The command in force after callbacks. */
  ghost function CommandAfter(c: Command, es: seq<Event>): Command
    decreases es
  {
    if es == [] then c
    else CommandAfter(if es[0].Datagram? then Understood(c, Received(es[0].wire)) else c, es[1..])
  }

  /** Some callback carries out a command that asks for a start. */
  ghost predicate AnyAsks(c: Command, es: seq<Event>)
    decreases es
  {
    es != [] &&
    var d := if es[0].Datagram? then Understood(c, Received(es[0].wire)) else c;
    (es[0].Datagram? && Asks(d)) || AnyAsks(d, es[1..])
  }

  lemma {:induction false} CallbacksDo(s: State, es: seq<Event>)
    requires Callbacks(es)
    ensures Run(s, es).command == CommandAfter(s.command, es)
    ensures Run(s, es).latch <==> s.latch && !AnyAsks(s.command, es)
    ensures Connected(Run(s, es).flag) <==> Connected(s.flag) && Disconnect !in es
    decreases es
  {
    if es == [] {
    } else {
      CallbacksDo(Step(s, es[0]), es[1..]);
      PendingKeepsConnected(s.flag);
      DisconnectClears(s.flag);
      hide Connected, Mark, Drop, Actions, LedsOf, Understood, Asks;
    }
  }

  /** The end of an iteration, from the arming on, with callbacks `a` before the load and
      `b` between load and store: no mark is left, the latch is left set exactly when none
      of them asked for a start, and a disconnect takes effect exactly when it came before
      the load. */
  lemma EndOfIteration(s: State, a: seq<Event>, load: Event, b: seq<Event>, store: Event)
    requires s.pc.Loading? && s.latch && Callbacks(a) && Callbacks(b) && load.Tick? && store.Tick?
    ensures var t := Run(s, a + [load] + b + [store]);
            t.pc.Idle? && !Pending(t.flag) &&
            (t.latch <==> !AnyAsks(s.command, a) && !AnyAsks(CommandAfter(s.command, a), b)) &&
            (Connected(t.flag) <==> Connected(s.flag) && Disconnect !in a)
  {
    var s1 := Run(s, a);
    var s2 := Step(s1, load);
    var s3 := Run(s2, b);
    var s4 := Step(s3, store);
    CallbacksDo(s, a);
    CallbacksKeepPc(s, a);
    CallbacksDo(s2, b);
    CallbacksKeepPc(s2, b);
    PendingKeepsConnected(s1.flag);
    assert Run(s, a + [load] + b + [store]) == s4 by {
      RunOne(s1, load);
      RunOne(s3, store);
      RunAppend(s, a, [load]);
      RunAppend(s, a + [load], b);
      RunAppend(s, a + [load] + b, [store]);
    }
    hide Connected, Pending, Unmark, AnyAsks, CommandAfter, Run;
  }

  // ---- an iteration of the loop ----------------------------------------------------------------------

  /** Accesses of the loop without an interrupt, with a buffer for the reply. */
  function Ticks(n: nat): (es: seq<Event>)
    ensures |es| == n
  {
    seq(n, _ => Tick(true))
  }

  lemma TicksSplit(m: nat, n: nat)
    ensures Ticks(m + n) == Ticks(m) + Ticks(n)
  {
  }

  lemma RunTick(s: State, n: nat)
    requires n >= 1
    ensures Run(s, Ticks(n)) == Run(Ticked(s, true), Ticks(n - 1))
  {
    assert Ticks(n)[1..] == Ticks(n - 1);
  }

  /** `to` with fields `i` up to `j` taken from `from`. */
  function Taken(to: Command, from: Command, i: nat, j: nat): Command
    decreases j - i
  {
    if i >= j then to else Taken(Copied(to, from, i), from, i + 1, j)
  }

  lemma TakenAll(to: Command, from: Command)
    ensures Taken(to, from, 0, FIELDS) == from
  {
    var t1 := Copied(to, from, 0);
    var t2 := Copied(t1, from, 1);
    var t3 := Copied(t2, from, 2);
    var t4 := Copied(t3, from, 3);
    var t5 := Copied(t4, from, 4);
    var t6 := Copied(t5, from, 5);
    var t7 := Copied(t6, from, 6);
    assert Taken(t6, from, 6, 7) == t7;
    assert Taken(t4, from, 4, 7) == t7;
    assert Taken(t2, from, 2, 7) == t7;
  }

  /** The state in which the reply has `j` of its fields. */
  function ReplyingAt(j: nat): Pc {
    if j < FIELDS then Replying(j) else Arming
  }

  /** Undisturbed accesses of the reply. */
  lemma {:induction false} QuietReply(s: State, i: nat, j: nat)
    requires i <= j <= FIELDS && s.pc == ReplyingAt(i)
    ensures Run(s, Ticks(j - i)) == s.(reply := Taken(s.reply, s.command, i, j), pc := ReplyingAt(j))
    decreases j - i
  {
    if i == j {
    } else {
      RunTick(s, j - i);
      QuietReply(Ticked(s, true), i + 1, j);
    }
  }

  lemma ArmingTick(s: State)
    requires s.pc.Arming?
    ensures Run(s, Ticks(1)) == s.(latch := true, pc := Loading)
  {
    hide Pending, Copied, Unmark;
    RunTick(s, 1);
    assert Ticks(0) == [];
  }

  /** Test, reply and arming without an interrupt. */
  lemma QuietArming(s: State)
    requires Marked(s)
    ensures Run(s, Ticks(9)) == s.(reply := s.command, latch := true, pc := Loading)
  {
    hide Taken, Pending, Copied, Ticks, Run;
    var s1 := s.(pc := Replying(0));
    var s2 := s1.(reply := s.command, pc := Arming);
    assert Ticked(s, true) == s1;
    RunTick(s, 9);
    TicksSplit(7, 1);
    RunAppend(s1, Ticks(7), Ticks(1));
    QuietReply(s1, 0, FIELDS);
    TakenAll(s.reply, s.command);
    ArmingTick(s2);
  }

  /** Load and store without an interrupt. */
  lemma QuietStore(s: State)
    requires s.pc.Loading?
    ensures Run(s, Ticks(2)) == s.(flag := Unmark(s.flag), pc := Idle)
  {
    RunTick(s, 2);
    assert Ticks(0) == [];
    hide Unmark;
  }

  /** A whole iteration without an interrupt is one step: reply, arm, clear the mark. */
  lemma QuietPoll(s: State)
    requires Marked(s)
    ensures Run(s, Ticks(11)) == s.(reply := s.command, latch := true, flag := Unmark(s.flag), pc := Idle)
  {
    hide Marked, Unmark, Run, Ticks;
    var s1 := s.(reply := s.command, latch := true, pc := Loading);
    TicksSplit(9, 2);
    RunAppend(s, Ticks(9), Ticks(2));
    QuietArming(s);
    QuietStore(s1);
  }

  /** Without a packet buffer the loop arms and clears the mark all the same, and the reply
      is not touched. */
  lemma QuietSkip(s: State)
    requires Marked(s)
    ensures Run(s, [Tick(false)] + Ticks(3)) == s.(latch := true, flag := Unmark(s.flag), pc := Idle)
  {
    hide Unmark, Run, Ticks;
    var s1 := s.(pc := Arming);
    RunOne(s, Tick(false));
    RunAppend(s, [Tick(false)], Ticks(3));
    TicksSplit(1, 2);
    RunAppend(s1, Ticks(1), Ticks(2));
    ArmingTick(s1);
    QuietStore(s1.(latch := true, pc := Loading));
  }

  // ---- the reply ----------------------------------------------------------------------------------------

  function FieldOf(c: Command, k: nat): Byte {
    if k == 0 then c.humi0 else if k == 1 then c.humi1 else if k == 2 then c.elengine0
    else if k == 3 then c.elengine1 else if k == 4 then c.led0 else if k == 5 then c.led1 else c.led2
  }

  lemma CopiedFields(to: Command, from: Command, k: nat, i: nat)
    requires k < FIELDS && i < FIELDS
    ensures FieldOf(Copied(to, from, k), i) == if i == k then FieldOf(from, i) else FieldOf(to, i)
  {
  }

  lemma {:induction false} TakenFields(to: Command, from: Command, i: nat, j: nat, k: nat)
    requires i <= j <= FIELDS && k < FIELDS
    ensures FieldOf(Taken(to, from, i, j), k) == if i <= k < j then FieldOf(from, k) else FieldOf(to, k)
    decreases j - i
  {
    hide FieldOf, Copied;
    if i == j {
    } else {
      CopiedFields(to, from, i, k);
      TakenFields(Copied(to, from, i), from, i + 1, j, k);
    }
  }

  lemma SameFields(a: Command, b: Command)
    ensures a == b <==> forall k: nat | k < FIELDS :: FieldOf(a, k) == FieldOf(b, k)
  {
    if forall k: nat | k < FIELDS :: FieldOf(a, k) == FieldOf(b, k) {
      assert FieldOf(a, 0) == FieldOf(b, 0) && FieldOf(a, 1) == FieldOf(b, 1) && FieldOf(a, 2) == FieldOf(b, 2);
      assert FieldOf(a, 3) == FieldOf(b, 3) && FieldOf(a, 4) == FieldOf(b, 4) && FieldOf(a, 5) == FieldOf(b, 5);
      assert FieldOf(a, 6) == FieldOf(b, 6);
    }
  }

  /** The command in force when the loop copies field `k` of the reply. */
  ghost function Taking(s: State, es: seq<Event>, k: nat): Command
    decreases es
  {
    if es == [] || (es[0].Tick? && s.pc == Replying(k)) then s.command
    else Taking(Step(s, es[0]), es[1..], k)
  }

  /** A reply in progress, with any callbacks before each of its accesses: when it is
      complete each field is that of the command in force when it was copied. */
  lemma {:induction false} ReplyTakes(s: State, i: nat, es: seq<Event>, k: nat)
    requires i <= FIELDS && s.pc == ReplyingAt(i) && Accesses(es) == FIELDS - i && k < FIELDS
    ensures var t := Run(s, es);
            t.pc == Arming && FieldOf(t.reply, k) == FieldOf(if k < i then s.reply else Taking(s, es, k), k)
    decreases es
  {
    hide FieldOf, Copied, Actions, LedsOf, Asks, Received, Pending, Understood, Mark, Unmark, Drop;
    if es == [] {
    } else if es[0].Tick? {
      CopiedFields(s.reply, s.command, i, k);
      ReplyTakes(Step(s, es[0]), i + 1, es[1..], k);
    } else {
      ReplyTakes(Step(s, es[0]), i, es[1..], k);
    }
  }

  /** Over every run that makes a reply, the reply is that of a command exactly when each
      field was copied while its value was that of this command. */
  lemma ReplyWholeExactly(s: State, es: seq<Event>, c: Command)
    requires s.pc == Replying(0) && Accesses(es) == FIELDS
    ensures Run(s, es).pc == Arming
    ensures Run(s, es).reply == c <==> forall k: nat | k < FIELDS :: FieldOf(Taking(s, es, k), k) == FieldOf(c, k)
  {
    hide FieldOf, Run, Taking;
    ReplyTakes(s, 0, es, 0);
    SameFields(Run(s, es).reply, c);
    forall k: nat | k < FIELDS
      ensures FieldOf(Run(s, es).reply, k) == FieldOf(Taking(s, es, k), k)
    {
      ReplyTakes(s, 0, es, k);
    }
  }

  lemma {:induction false} AccessesTicks(n: nat)
    ensures Accesses(Ticks(n)) == n
  {
    if n == 0 {
    } else {
      AccessesTicks(n - 1);
      assert Ticks(n)[1..] == Ticks(n - 1);
    }
  }

  /** Callbacks leave the command in force, whichever field comes next. */
  lemma {:induction false} TakingCallbacks(s: State, es: seq<Event>, fs: seq<Event>, k: nat)
    requires Callbacks(es)
    ensures Taking(s, es + fs, k) == Taking(Run(s, es), fs, k)
    decreases es
  {
    if es == [] {
      assert es + fs == fs;
    } else {
      assert (es + fs)[1..] == es[1..] + fs;
      TakingCallbacks(Step(s, es[0]), es[1..], fs, k);
    }
  }

  lemma MixedAccesses(j: nat, es: seq<Event>)
    requires j <= FIELDS && Callbacks(es)
    ensures Accesses(Ticks(j) + es + Ticks(FIELDS - j)) == FIELDS
  {
    AccessesAppend(Ticks(j), es);
    AccessesAppend(Ticks(j) + es, Ticks(FIELDS - j));
    NoAccess(es);
    AccessesTicks(j);
    AccessesTicks(FIELDS - j);
  }

  /** Undisturbed accesses take every field of the rest from the present command. */
  lemma {:induction false} TakingQuiet(s: State, i: nat, n: nat, fs: seq<Event>, k: nat)
    requires i + n <= FIELDS && s.pc == ReplyingAt(i) && i <= k < FIELDS
    ensures Taking(s, Ticks(n) + fs, k) == if k < i + n then s.command else Taking(Run(s, Ticks(n)), fs, k)
    decreases n
  {
    if n == 0 {
      assert Ticks(n) + fs == fs;
    } else {
      assert (Ticks(n) + fs)[1..] == Ticks(n - 1) + fs;
      RunTick(s, n);
      if k > i {
        TakingQuiet(Ticked(s, true), i + 1, n - 1, fs, k);
      }
    }
  }
  /** Callbacks that all land after `j` fields leave these fields of the old command and the
      others of the new one. */
  lemma ReplyMixed(s: State, j: nat, es: seq<Event>)
    requires s.pc == Replying(0) && j <= FIELDS && Callbacks(es)
    ensures var t := Run(s, Ticks(j) + es + Ticks(FIELDS - j)); var c := CommandAfter(s.command, es);
            t.pc == Arming && forall k: nat | k < FIELDS :: FieldOf(t.reply, k) == FieldOf(if k < j then s.command else c, k)
  {
    hide FieldOf, Run, Taking, Taken, CommandAfter, Connected, AnyAsks, Accesses, Ticks;
    var s1 := Run(s, Ticks(j));
    var rest := Ticks(FIELDS - j);
    var all := Ticks(j) + es + rest;
    assert all == Ticks(j) + (es + rest) && rest + [] == rest;
    MixedAccesses(j, es);
    QuietReply(s, 0, j);
    CallbacksKeepPc(s1, es);
    CallbacksDo(s1, es);
    ReplyTakes(s, 0, all, 0);
    forall k: nat | k < FIELDS
      ensures Taking(s, all, k) == if k < j then s.command else CommandAfter(s.command, es)
      ensures FieldOf(Run(s, all).reply, k) == FieldOf(Taking(s, all, k), k)
    {
      ReplyTakes(s, 0, all, k);
      TakingQuiet(s, 0, j, es + rest, k);
      if k >= j {
        TakingCallbacks(s1, es, rest, k);
        TakingQuiet(Run(s1, es), j, FIELDS - j, [], k);
      }
    }
  }

  // ---- commands from the wire ---------------------------------------------------------------------

  /** A frame behind any short prefix without a header is obeyed. */
  lemma FrameObeyed(s: State, prefix: seq<Byte>, c: Command, data: seq<Byte>, suffix: seq<Byte>)
    requires |data| == 4 && |prefix| < LENGTH && forall j: nat :: !HeaderAt(prefix, j)
    ensures var t := Step(s, Datagram(prefix + Frame(c, data) + suffix));
            t.command == c && t.leds == LedsOf(c) && t.log == s.log + Actions(c, s.latch)
  {
    ParserUndoesPrinter(s.command, prefix, c, data, suffix);
  }

  /** A datagram without a header is not ignored: the command in force is carried out
      again, and starts motor 1 exactly when it asks for it and the latch is set. */
  lemma GarbageReplays(s: State, wire: seq<Byte>)
    requires forall j: nat | j < LENGTH :: !HeaderAt(wire, j)
    ensures var t := Step(s, Datagram(wire));
            t.command == s.command && t.log == s.log + Actions(s.command, s.latch) &&
            (Starts(t.log) == Starts(s.log) + 1 <==> s.latch && Asks(s.command))
  {
    FrameTooLate(s.command, wire);
    StartsExactlyWhen(s, Datagram(wire));
  }

  lemma PlainFrameObeyed(s: State, c: Command, data: seq<Byte>)
    requires |data| == 4
    ensures var t := Step(s, Datagram(Frame(c, data)));
            t.command == c && t.log == s.log + Actions(c, s.latch) && t.latch == (s.latch && !Asks(c)) &&
            t.flag == Mark(s.flag) && t.pc == s.pc && t.reply == s.reply &&
            Starts(t.log) == Starts(s.log) + One(s.latch && Asks(c))
  {
    hide Frame, Received, Actions, Asks, Starts, Mark, LedsOf;
    assert [] + Frame(c, data) + [] == Frame(c, data);
    FrameObeyed(s, [], c, data, []);
    StartsExactlyWhen(s, Datagram(Frame(c, data)));
    ParserUndoesPrinter(s.command, [], c, data, []);
  }

  lemma ThreeTaken(to: Command, c: Command, a: Command, b: Command)
    ensures Taken(Taken(Taken(to, c, 0, 1), a, 1, 2), b, 2, FIELDS) == b.(humi0 := c.humi0, humi1 := a.humi1)
  {
    var r := Taken(Taken(to, c, 0, 1), a, 1, 2);
    var t := Taken(r, b, 2, FIELDS);
    forall k: nat | k < FIELDS
      ensures FieldOf(t, k) == FieldOf(b.(humi0 := c.humi0, humi1 := a.humi1), k)
    {
      TakenFields(r, b, 2, FIELDS, k);
      TakenFields(Taken(to, c, 0, 1), a, 1, 2, k);
      TakenFields(to, c, 0, 1, k);
    }
    SameFields(t, b.(humi0 := c.humi0, humi1 := a.humi1));
  }

  /** Two commands that arrive one field apart: the reply has fields of three. */
  lemma ReplyOfThree(s: State, a: Command, b: Command, data: seq<Byte>)
    requires s.pc == Replying(0) && |data| == 4
    ensures var es := Ticks(1) + [Datagram(Frame(a, data))] + Ticks(1) + [Datagram(Frame(b, data))] + Ticks(5);
            var t := Run(s, es);
            t.pc == Arming && t.reply == b.(humi0 := s.command.humi0, humi1 := a.humi1)
  {
    hide Run, Step, Ticks, Taken, Frame, Starts, Asks, Actions, Mark, Pending;
    var e, f := Datagram(Frame(a, data)), Datagram(Frame(b, data));
    var s1 := s.(reply := Taken(s.reply, s.command, 0, 1), pc := Replying(1));
    var s2 := Step(s1, e);
    var s3 := s2.(reply := Taken(s2.reply, s2.command, 1, 2), pc := Replying(2));
    var s4 := Step(s3, f);
    RunAppend(s, Ticks(1), [e]);
    RunAppend(s, Ticks(1) + [e], Ticks(1));
    RunAppend(s, Ticks(1) + [e] + Ticks(1), [f]);
    RunAppend(s, Ticks(1) + [e] + Ticks(1) + [f], Ticks(5));
    QuietReply(s, 0, 1);
    RunOne(s1, e);
    PlainFrameObeyed(s1, a, data);
    QuietReply(s2, 1, 2);
    RunOne(s3, f);
    PlainFrameObeyed(s3, b, data);
    QuietReply(s4, 2, FIELDS);
    ThreeTaken(s.reply, s.command, a, b);
  }

  /** One command, an undisturbed poll and an empty datagram start motor 1 twice. */
  lemma ReplayStartsAgain(s: State, c: Command, data: seq<Byte>)
    requires s.pc.Idle? && s.latch && Asks(c) && |data| == 4
    ensures Starts(Run(s, [Datagram(Frame(c, data))] + Ticks(11) + [Datagram([])]).log) == Starts(s.log) + 2
  {
    hide Run, Step, Starts, Asks, Frame, Actions, Mark, Unmark, Understood;
    var first, second := [Datagram(Frame(c, data))], [Datagram([])];
    var s1 := Step(s, first[0]);
    RunOne(s, first[0]);
    PlainFrameObeyed(s, c, data);
    SetPending(s.flag);
    var s2 := s1.(reply := s1.command, latch := true, flag := Unmark(s1.flag), pc := Idle);
    QuietPoll(s1);
    RunOne(s2, second[0]);
    GarbageReplays(s2, []);
    StartsExactlyWhen(s2, second[0]);
    RunAppend(s, first, Ticks(11));
    RunAppend(s, first + Ticks(11), second);
  }

  /** A start command that lands between the arming and the store is carried out, but its
      mark is lost: the loop is idle, nothing waits, the latch is spent, and the next start
      command is ignored. */
  lemma LostMark(s: State, c: Command, d: Command, data: seq<Byte>)
    requires Marked(s) && Asks(c) && Asks(d) && |data| == 4
    ensures var es := Ticks(9) + [Datagram(Frame(c, data))] + Ticks(2);
            var t := Run(s, es);
            t.pc.Idle? && !t.latch && !Pending(t.flag) &&
            Starts(Step(t, Datagram(Frame(d, data))).log) == Starts(t.log) == Starts(s.log) + 1
  {
    hide Step, Run, Starts, Asks, Frame, Actions, Mark, Unmark, Pending, Marked, Understood, Ticks;
    var s1 := s.(reply := s.command, latch := true, pc := Loading);
    QuietArming(s);
    var e := Datagram(Frame(c, data));
    var s2 := Step(s1, e);
    PlainFrameObeyed(s1, c, data);
    RunOne(s1, e);
    var s3 := s2.(flag := Unmark(s2.flag), pc := Idle);
    QuietStore(s2);
    RunAppend(s, Ticks(9), [e]);
    RunAppend(s, Ticks(9) + [e], Ticks(2));
    ClearPending(s2.flag);
    PlainFrameObeyed(s3, d, data);
  }

  /** A disconnect between the load and the store of the flag is undone. */
  lemma LostDisconnect(s: State)
    requires Marked(s) && Connected(s.flag)
    ensures Connected(Run(s, Ticks(10) + [Disconnect] + Ticks(1)).flag)
  {
    hide Run, Connected, Marked;
    var s1 := s.(reply := s.command, latch := true, pc := Loading);
    var tick := Tick(true);
    assert Ticks(10) == Ticks(9) + [tick];
    assert Ticks(1) == [tick];
    assert Ticks(10) + [Disconnect] + Ticks(1) == Ticks(9) + ([] + [tick] + [Disconnect] + [tick]);
    RunAppend(s, Ticks(9), [] + [tick] + [Disconnect] + [tick]);
    QuietArming(s);
    EndOfIteration(s1, [], tick, [Disconnect], tick);
  }
}
