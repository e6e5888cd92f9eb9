/** The ADC sequencer: sixteen regular ranks, up to four injected ranks and eighteen
    sample times, packed in six registers
    (FWLIB/STM32F10x_FWLib/src/stm32f10x_adc.c). */
module AdcSequencer {
  import opened Words
  import opened AdcLanes

  // ---- the sequencer as a caller sees it ----------------------------------------------

  /** `ranks` are the channels of the regular sequence, of which the first `length` are
      converted; of the four `slots` of the injected sequence the last `jlength` are. */
  datatype Sequencer = Sequencer(
    times: seq<nat>, ranks: seq<nat>, length: nat, slots: seq<nat>, jlength: nat)

  datatype Call =
    | Regular(channel: nat, rank: nat, time: nat)
    | Injected(channel: nat, rank: nat, time: nat)
    | InjectedLength(n: nat)
    | Init(n: nat)

  /** The ranges the driver asserts. */
  predicate Legal(c: Call) {
    match c
    case Regular(channel, rank, time) => channel < 18 && 1 <= rank <= 16 && time <= 7
    case Injected(channel, rank, time) => channel < 18 && 1 <= rank <= 4 && time <= 7
    case InjectedLength(n) => 1 <= n <= 4
    case Init(n) => 1 <= n <= 16
  }

  predicate WellFormed(s: Sequencer) {
    |s.times| == 18 && |s.ranks| == 16 && |s.slots| == 4 && 1 <= s.jlength <= 4
  }

  /** Channel `v` is written for an injected rank. A rank within the length fills the
      slot that is converted at that position; the rank just past it overwrites the
      length; ranks further out hit reserved bits only. */
  function Placed(s: Sequencer, rank: nat, v: nat): Sequencer
    requires WellFormed(s) && 1 <= rank <= 4
  {
    if rank <= s.jlength then s.(slots := s.slots[4 - s.jlength + rank - 1 := v])
    else if rank == s.jlength + 1 then s.(jlength := v % 4 + 1)
    else s
  }

  /** Effect of one call. */
  function Apply(s: Sequencer, c: Call): (r: Sequencer)
    requires WellFormed(s) && Legal(c)
    ensures WellFormed(r)
  {
    match c
    case Regular(channel, rank, time) =>
      s.(times := s.times[channel := time], ranks := s.ranks[rank - 1 := channel])
    case Injected(channel, rank, time) =>
      Placed(s.(times := s.times[channel := time]), rank, channel)
    case InjectedLength(n) => s.(jlength := n)
    case Init(n) => s.(length := n)
  }

  function ApplyAll(s: Sequencer, cs: seq<Call>): (r: Sequencer)
    requires WellFormed(s) && forall c | c in cs :: Legal(c)
    ensures WellFormed(r)
    decreases cs
  {
    if cs == [] then s else ApplyAll(Apply(s, cs[0]), cs[1..])
  }

  // ---- what a caller can rely on --------------------------------------------------------

  /** The injected channels in the order they are converted. */
  function Converted(s: Sequencer): (r: seq<nat>)
    requires WellFormed(s)
    ensures |r| == s.jlength
  {
    s.slots[4 - s.jlength..]
  }

  predicate Asks(c: Call, want: seq<nat>) {
    match c
    case Injected(channel, rank, _) => 1 <= rank <= |want| && channel == want[rank - 1]
    case InjectedLength(n) => n == |want|
    case _ => true
  }

  /** Every call that touches the injected sequence configures it as the list `want` says. */
  predicate Requests(cs: seq<Call>, want: seq<nat>) {
    forall c | c in cs :: Legal(c) && Asks(c, want)
  }

  /** Some call of the run configures the injected rank. */
  predicate Configures(cs: seq<Call>, rank: nat) {
    exists c :: c in cs && c.Injected? && c.rank == rank
  }

  /** The positions of the list that the calls have filled are right, and the length
      has not changed. */
  lemma {:induction false} RequestedRanks(s: Sequencer, cs: seq<Call>, want: seq<nat>, done: set<nat>)
    requires WellFormed(s) && s.jlength == |want| && Requests(cs, want)
    requires forall r | r in done :: 1 <= r <= |want| && Converted(s)[r - 1] == want[r - 1]
    ensures ApplyAll(s, cs).jlength == |want|
    ensures forall r: nat | r in done || Configures(cs, r) ::
              1 <= r <= |want| && Converted(ApplyAll(s, cs))[r - 1] == want[r - 1]
    decreases cs
  {
    if cs == [] {
    } else {
      assert Asks(cs[0], want);
      var more := if cs[0].Injected? then done + {cs[0].rank} else done;
      RequestedRanks(Apply(s, cs[0]), cs[1..], want, more);
      forall r: nat | r in done || Configures(cs, r)
        ensures r in more || Configures(cs[1..], r)
      {
        if c :| c in cs && c.Injected? && c.rank == r {
          assert c == cs[0] || c in cs[1..];
        }
      }
    }
  }

  /** After the length is set to that of a list, configuring the ranks in any order,
      each at least once and among any regular calls, makes the converted sequence the
      list. */
  lemma InjectedInAnyOrder(s: Sequencer, cs: seq<Call>, want: seq<nat>)
    requires WellFormed(s) && 1 <= |want| <= 4 && Requests(cs, want)
    requires forall k: nat | 1 <= k <= |want| :: Configures(cs, k)
    ensures Converted(ApplyAll(Apply(s, InjectedLength(|want|)), cs)) == want
  {
    var t := Apply(s, InjectedLength(|want|));
    RequestedRanks(t, cs, want, {});
    forall k: nat | k < |want|
      ensures Converted(ApplyAll(t, cs))[k] == want[k]
    {
      assert Configures(cs, k + 1);
    }
  }

  /** Configuring an injected rank keeps the length exactly when it is not the rank
      just past it, or the channel number happens to spell the length. */
  lemma LengthSurvives(s: Sequencer, channel: nat, rank: nat, time: nat)
    requires WellFormed(s) && Legal(Injected(channel, rank, time))
    ensures Apply(s, Injected(channel, rank, time)).jlength == s.jlength <==>
            rank != s.jlength + 1 || channel % 4 + 1 == s.jlength
  {
  }

  /** The injected length after a call, if the call respects it. */
  function LengthAsked(c: Call, n: nat): nat {
    if c.InjectedLength? then c.n else n
  }

  /** The injected length last given. */
  function LastJLength(cs: seq<Call>, was: nat): nat
    decreases cs
  {
    if cs == [] then was else LastJLength(cs[1..], LengthAsked(cs[0], was))
  }

  /** No call configures the rank just past the length in force, `n` at first, unless its
      channel spells this length. */
  predicate SparesLength(cs: seq<Call>, n: nat)
    decreases cs
  {
    cs == [] ||
    ((cs[0].Injected? ==> cs[0].rank != n + 1 || cs[0].channel % 4 + 1 == n) &&
     SparesLength(cs[1..], LengthAsked(cs[0], n)))
  }

  /** After the first `k` calls the injected length is what the last length call made it. */
  predicate LengthIsLast(s: Sequencer, cs: seq<Call>, k: nat)
    requires WellFormed(s) && (forall c | c in cs :: Legal(c)) && k <= |cs|
  {
    ApplyAll(s, cs[..k]).jlength == LastJLength(cs[..k], s.jlength)
  }

  lemma LengthIsLastOne(s: Sequencer, cs: seq<Call>)
    requires WellFormed(s) && (forall c | c in cs :: Legal(c)) && cs != []
    ensures LengthIsLast(s, cs, 1) <==> Apply(s, cs[0]).jlength == LengthAsked(cs[0], s.jlength)
  {
    hide Apply;
    var one := cs[..1];
    assert one[1..] == [] && one[0] == cs[0];
    assert ApplyAll(s, one) == ApplyAll(Apply(s, cs[0]), []);
    assert LastJLength(one, s.jlength) == LastJLength([], LengthAsked(cs[0], s.jlength));
  }

  lemma LengthIsLastTail(s: Sequencer, cs: seq<Call>, k: nat)
    requires WellFormed(s) && (forall c | c in cs :: Legal(c)) && 1 <= k <= |cs| && LengthIsLast(s, cs, 1)
    ensures LengthIsLast(s, cs, k) <==> LengthIsLast(Apply(s, cs[0]), cs[1..], k - 1)
  {
    hide Apply;
    LengthIsLastOne(s, cs);
    assert cs[..k][0] == cs[0] && cs[..k][1..] == cs[1..][..k - 1];
  }

  /** Over any run the injected length is what the last length call made it, after every
      call, exactly when no call overwrites it. */
  lemma {:induction false} LengthKept(s: Sequencer, cs: seq<Call>)
    requires WellFormed(s) && (forall c | c in cs :: Legal(c))
    ensures (forall k: nat | k <= |cs| :: LengthIsLast(s, cs, k)) <==> SparesLength(cs, s.jlength)
    decreases cs
  {
    if cs == [] {
      assert LengthIsLast(s, cs, 0);
    } else {
      var t, rest := Apply(s, cs[0]), cs[1..];
      LengthIsLastOne(s, cs);
      LengthKept(t, rest);
      assert LengthIsLast(s, cs, 0);
      if LengthIsLast(s, cs, 1) {
        forall k: nat | 1 <= k <= |cs|
          ensures LengthIsLast(s, cs, k) <==> LengthIsLast(t, rest, k - 1)
        {
          LengthIsLastTail(s, cs, k);
        }
        assert forall k: nat | k <= |rest| :: LengthIsLast(s, cs, k + 1) <==> LengthIsLast(t, rest, k);
      }
    }
  }

  /** Configuring rank 2 of a sequence of one, with channel 3, makes it four long. */
  lemma LengthOverwritten(s: Sequencer)
    requires WellFormed(s)
    ensures Apply(Apply(s, InjectedLength(1)), Injected(3, 2, 0)).jlength == 4
  {
  }

  /** The sample time last given for a channel, by a regular or an injected call. */
  function LastTime(cs: seq<Call>, channel: nat, was: nat): nat
    decreases cs
  {
    if cs == [] then was
    else LastTime(cs[1..], channel,
      if (cs[0].Regular? || cs[0].Injected?) && cs[0].channel == channel then cs[0].time else was)
  }

  /** The channel last given for a regular rank. */
  function LastChannel(cs: seq<Call>, rank: nat, was: nat): nat
    decreases cs
  {
    if cs == [] then was
    else LastChannel(cs[1..], rank, if cs[0].Regular? && cs[0].rank == rank then cs[0].channel else was)
  }

  /** The number of regular channels last given. */
  function LastLength(cs: seq<Call>, was: nat): nat
    decreases cs
  {
    if cs == [] then was else LastLength(cs[1..], if cs[0].Init? then cs[0].n else was)
  }

  /** Over any run the sample-time table is shared by both sequences and the last
      write wins; each regular rank holds the channel last given for it. */
  lemma {:induction false} LastWriteWins(s: Sequencer, cs: seq<Call>, channel: nat, rank: nat)
    requires WellFormed(s) && (forall c | c in cs :: Legal(c)) && channel < 18 && 1 <= rank <= 16
    ensures ApplyAll(s, cs).times[channel] == LastTime(cs, channel, s.times[channel])
    ensures ApplyAll(s, cs).ranks[rank - 1] == LastChannel(cs, rank, s.ranks[rank - 1])
    ensures ApplyAll(s, cs).length == LastLength(cs, s.length)
    decreases cs
  {
    if cs == [] {
    } else {
      LastWriteWins(Apply(s, cs[0]), cs[1..], channel, rank);
    }
  }

  // ---- the registers --------------------------------------------------------------------

  datatype Registers = Registers(smpr1: Word, smpr2: Word, sqr1: Word, sqr2: Word, sqr3: Word, jsqr: Word)

  function TimeIn(w: Word, i: nat): nat
    requires i < 10
  {
    Value(TimeLane(w, i))
  }

  function SlotIn(w: Word, i: nat): nat
    requires i < 6
  {
    Value(SlotLane(w, i))
  }

  /** Clear the lane of a sample time and write it. */
  function TimePut(w: Word, i: nat, time: nat): Word
    requires i < 10 && time <= 7
  {
    Splice(w, TimeMask(i), TimeAt(i, Code(time)))
  }

  /** Clear the lane of a channel and write it. */
  function SlotPut(w: Word, i: nat, channel: nat): Word
    requires i < 7 && channel < 18
  {
    Splice(w, SlotMask(i), SlotAt(i, Code(channel)))
  }

  function TimeOf(r: Registers, c: nat): nat
    requires c < 18
  {
    if c > 9 then TimeIn(r.smpr1, c - 10) else TimeIn(r.smpr2, c)
  }

  function RankOf(r: Registers, k: nat): nat
    requires k < 16
  {
    if k < 6 then SlotIn(r.sqr3, k) else if k < 12 then SlotIn(r.sqr2, k - 6) else SlotIn(r.sqr1, k - 12)
  }

  function LengthOf(r: Registers): nat {
    Value(LengthLane(r.sqr1)) + 1
  }

  function JLengthOf(jsqr: Word): (n: nat)
    ensures 1 <= n <= 4
  {
    JLengthBound(jsqr);
    Value(JLengthLane(jsqr)) + 1
  }

  /** What the registers hold. */
  function View(r: Registers): (s: Sequencer)
    ensures WellFormed(s)
  {
    Sequencer(
      seq(18, c requires 0 <= c < 18 => TimeOf(r, c)),
      seq(16, k requires 0 <= k < 16 => RankOf(r, k)),
      LengthOf(r),
      seq(4, i requires 0 <= i < 4 => SlotIn(r.jsqr, i)),
      JLengthOf(r.jsqr))
  }

  /** Clear the lane of the channel and write the sample time. */
  function PutTime(r: Registers, c: nat, time: nat): Registers
    requires c < 18 && time <= 7
  {
    if c > 9 then r.(smpr1 := TimePut(r.smpr1, c - 10, time))
    else r.(smpr2 := TimePut(r.smpr2, c, time))
  }

  function PutRank(r: Registers, rank: nat, channel: nat): Registers
    requires 1 <= rank <= 16 && channel < 18
  {
    if rank < 7 then r.(sqr3 := SlotPut(r.sqr3, rank - 1, channel))
    else if rank < 13 then r.(sqr2 := SlotPut(r.sqr2, rank - 7, channel))
    else r.(sqr1 := SlotPut(r.sqr1, rank - 13, channel))
  }

  /** The lane of an injected rank depends on the length held in the same word. */
  function InjectedLane(jsqr: Word, rank: nat): (i: nat)
    requires 1 <= rank <= 4
    ensures i < 7 && i == rank + 3 - JLengthOf(jsqr)
  {
    rank + 3 - JLengthOf(jsqr)
  }

  function PutInjected(jsqr: Word, rank: nat, channel: nat): Word
    requires 1 <= rank <= 4 && channel < 18
  {
    var i := InjectedLane(jsqr, rank);
    SlotPut(jsqr, i, channel)
  }

  /** The registers after one call. */
  function Executed(r: Registers, c: Call): Registers
    requires Legal(c)
  {
    match c
    case Regular(channel, rank, time) => PutRank(PutTime(r, channel, time), rank, channel)
    case Injected(channel, rank, time) =>
      var t := PutTime(r, channel, time);
      t.(jsqr := PutInjected(t.jsqr, rank, channel))
    case InjectedLength(n) => r.(jsqr := PutJLength(r.jsqr, Code(n - 1)))
    case Init(n) => r.(sqr1 := PutLength(r.sqr1, Code(n - 1)))
  }

  function ExecutedAll(r: Registers, cs: seq<Call>): Registers
    requires forall c | c in cs :: Legal(c)
    decreases cs
  {
    if cs == [] then r else ExecutedAll(Executed(r, cs[0]), cs[1..])
  }

  // ---- one edit, one lane ---------------------------------------------------------------

  lemma TimeInPut(w: Word, i: nat, time: nat, j: nat)
    requires i < 10 && j < 10 && time <= 7
    ensures TimeIn(TimePut(w, i, time), j) == if j == i then time else TimeIn(w, j)
  {
    hide Splice, TimeMask, TimeAt, TimeLane, Value, Code;
    ValueOfCode(time);
    CodeFitsThree(time);
    if i == j {
      TimeHit(w, i, Code(time));
    } else {
      TimeMiss(w, i, Code(time), j);
    }
  }

  lemma SlotInPut(w: Word, i: nat, channel: nat, j: nat)
    requires i < 7 && j < 6 && channel < 18
    ensures SlotIn(SlotPut(w, i, channel), j) == if j == i then channel else SlotIn(w, j)
  {
    hide Splice, SlotMask, SlotAt, SlotLane, Value, Code;
    ValueOfCode(channel);
    CodeFits(channel);
    if i == j {
      SlotHit(w, i, Code(channel));
    } else {
      SlotMiss(w, i, Code(channel), j);
    }
  }

  lemma TimeAfter(r: Registers, c: nat, time: nat, d: nat)
    requires c < 18 && d < 18 && time <= 7
    ensures TimeOf(PutTime(r, c, time), d) == if d == c then time else TimeOf(r, d)
  {
    hide TimeIn, TimePut;
    if c > 9 && d > 9 {
      TimeInPut(r.smpr1, c - 10, time, d - 10);
    } else if c <= 9 && d <= 9 {
      TimeInPut(r.smpr2, c, time, d);
    }
  }

  lemma RankAfter(r: Registers, rank: nat, channel: nat, k: nat)
    requires 1 <= rank <= 16 && channel < 18 && k < 16
    ensures RankOf(PutRank(r, rank, channel), k) == if k == rank - 1 then channel else RankOf(r, k)
  {
    hide SlotIn, SlotPut;
    if rank < 7 && k < 6 {
      SlotInPut(r.sqr3, rank - 1, channel, k);
    } else if 7 <= rank < 13 && 6 <= k < 12 {
      SlotInPut(r.sqr2, rank - 7, channel, k - 6);
    } else if 13 <= rank && 12 <= k {
      SlotInPut(r.sqr1, rank - 13, channel, k - 12);
    }
  }

  lemma LengthAfterSlot(w: Word, i: nat, channel: nat)
    requires i < 4 && channel < 18
    ensures LengthLane(SlotPut(w, i, channel)) == LengthLane(w)
  {
    hide Splice, SlotMask, SlotAt, LengthLane, Code;
    CodeFits(channel);
    SlotKeepsLength(w, i, Code(channel));
  }

  lemma LengthAfterRank(r: Registers, rank: nat, channel: nat)
    requires 1 <= rank <= 16 && channel < 18
    ensures LengthOf(PutRank(r, rank, channel)) == LengthOf(r)
  {
    hide SlotPut, LengthLane, Value;
    if rank >= 13 {
      LengthAfterSlot(r.sqr1, rank - 13, channel);
    }
  }

  lemma SlotAfter(jsqr: Word, rank: nat, channel: nat, i: nat)
    requires 1 <= rank <= 4 && channel < 18 && i < 4
    ensures SlotIn(PutInjected(jsqr, rank, channel), i) ==
            if i == InjectedLane(jsqr, rank) then channel else SlotIn(jsqr, i)
  {
    hide SlotIn, SlotPut, InjectedLane, JLengthOf;
    SlotInPut(jsqr, InjectedLane(jsqr, rank), channel, i);
  }

  lemma JLengthAfter(jsqr: Word, rank: nat, channel: nat)
    requires 1 <= rank <= 4 && channel < 18
    ensures JLengthOf(PutInjected(jsqr, rank, channel)) ==
            if InjectedLane(jsqr, rank) == 4 then channel % 4 + 1 else JLengthOf(jsqr)
  {
    hide Splice, SlotMask, SlotAt, JLengthLane, InjectedLane, Value, Code;
    CodeFits(channel);
    LowTwoBits(channel);
    var lane := InjectedLane(jsqr, rank);
    if lane == 4 {
      SlotIsJLength(jsqr, Code(channel));
    } else {
      SlotKeepsJLength(jsqr, lane, Code(channel));
    }
  }

  lemma JLengthSet(jsqr: Word, n: nat)
    requires 1 <= n <= 4
    ensures JLengthOf(PutJLength(jsqr, Code(n - 1))) == n
  {
    hide PutJLength, JLengthLane, Value, Code;
    ValueOfCode(n - 1);
    CodeFitsTwo(n - 1);
    PutJLengthHit(jsqr, Code(n - 1));
  }

  lemma JSlotKept(jsqr: Word, n: nat, i: nat)
    requires 1 <= n <= 4 && i < 4
    ensures SlotIn(PutJLength(jsqr, Code(n - 1)), i) == SlotIn(jsqr, i)
  {
    hide PutJLength, SlotLane, Value, Code;
    CodeFitsTwo(n - 1);
    PutJLengthMiss(jsqr, Code(n - 1), i);
  }

  lemma LengthSet(r: Registers, n: nat)
    requires 1 <= n <= 16
    ensures LengthOf(r.(sqr1 := PutLength(r.sqr1, Code(n - 1)))) == n
  {
    hide PutLength, LengthLane, Value, Code;
    ValueOfCode(n - 1);
    CodeFitsFour(n - 1);
    PutLengthHit(r.sqr1, Code(n - 1));
  }

  lemma RankKept(r: Registers, n: nat, k: nat)
    requires 1 <= n <= 16 && k < 16
    ensures RankOf(r.(sqr1 := PutLength(r.sqr1, Code(n - 1))), k) == RankOf(r, k)
  {
    hide SlotLane, PutLength, Code;
    CodeFitsFour(n - 1);
    if k >= 12 {
      PutLengthMiss(r.sqr1, Code(n - 1), k - 12);
    }
  }

  // ---- refinement -------------------------------------------------------------------------

  /** The view is determined by its parts. */
  lemma ViewParts(r: Registers, s: Sequencer)
    requires WellFormed(s)
    requires forall c: nat | c < 18 :: TimeOf(r, c) == s.times[c]
    requires forall k: nat | k < 16 :: RankOf(r, k) == s.ranks[k]
    requires forall i: nat | i < 4 :: SlotIn(r.jsqr, i) == s.slots[i]
    requires LengthOf(r) == s.length && JLengthOf(r.jsqr) == s.jlength
    ensures View(r) == s
  {
    hide TimeOf, RankOf, SlotIn, LengthOf, JLengthOf;
  }

  lemma PutTimeFrame(r: Registers, c: nat, time: nat)
    requires c < 18 && time <= 7
    ensures var r' := PutTime(r, c, time);
            r'.sqr1 == r.sqr1 && r'.sqr2 == r.sqr2 && r'.sqr3 == r.sqr3 && r'.jsqr == r.jsqr
  {
    hide TimePut;
  }

  lemma SameRanks(r: Registers, r': Registers)
    requires r.sqr1 == r'.sqr1 && r.sqr2 == r'.sqr2 && r.sqr3 == r'.sqr3
    ensures forall k: nat | k < 16 :: RankOf(r, k) == RankOf(r', k)
  {
    hide SlotIn;
  }

  lemma SameLength(r: Registers, r': Registers)
    requires r.sqr1 == r'.sqr1
    ensures LengthOf(r) == LengthOf(r')
  {
    hide LengthLane, Value;
  }

  lemma TimesView(r: Registers, c: nat, time: nat)
    requires c < 18 && time <= 7
    ensures View(PutTime(r, c, time)) == View(r).(times := View(r).times[c := time])
  {
    hide TimeOf, PutTime, RankOf, LengthOf, JLengthOf, SlotIn;
    var r' := PutTime(r, c, time);
    PutTimeFrame(r, c, time);
    SameRanks(r, r');
    SameLength(r, r');
    forall d: nat | d < 18
      ensures TimeOf(r', d) == if d == c then time else TimeOf(r, d)
    {
      TimeAfter(r, c, time, d);
    }
    ViewParts(r', View(r).(times := View(r).times[c := time]));
  }

  lemma SameTimes(r: Registers, r': Registers)
    requires r.smpr1 == r'.smpr1 && r.smpr2 == r'.smpr2
    ensures forall c: nat | c < 18 :: TimeOf(r, c) == TimeOf(r', c)
  {
    hide TimeIn;
  }

  lemma PutRankFrame(r: Registers, rank: nat, channel: nat)
    requires 1 <= rank <= 16 && channel < 18
    ensures var r' := PutRank(r, rank, channel); r'.smpr1 == r.smpr1 && r'.smpr2 == r.smpr2 && r'.jsqr == r.jsqr
  {
    hide SlotPut;
  }

  lemma RanksView(r: Registers, rank: nat, channel: nat)
    requires 1 <= rank <= 16 && channel < 18
    ensures View(PutRank(r, rank, channel)) == View(r).(ranks := View(r).ranks[rank - 1 := channel])
  {
    hide TimeOf, RankOf, PutRank, LengthOf, JLengthOf, SlotIn;
    var r' := PutRank(r, rank, channel);
    LengthAfterRank(r, rank, channel);
    PutRankFrame(r, rank, channel);
    SameTimes(r, r');
    forall k: nat | k < 16
      ensures RankOf(r', k) == if k == rank - 1 then channel else RankOf(r, k)
    {
      RankAfter(r, rank, channel, k);
    }
    ViewParts(r', View(r).(ranks := View(r).ranks[rank - 1 := channel]));
  }

  lemma RegularView(r: Registers, channel: nat, rank: nat, time: nat)
    requires Legal(Regular(channel, rank, time))
    ensures View(Executed(r, Regular(channel, rank, time))) == Apply(View(r), Regular(channel, rank, time))
  {
    hide View, PutTime, PutRank;
    TimesView(r, channel, time);
    RanksView(PutTime(r, channel, time), rank, channel);
  }

  lemma SlotsView(r: Registers, rank: nat, channel: nat)
    requires 1 <= rank <= 4 && channel < 18
    ensures View(r.(jsqr := PutInjected(r.jsqr, rank, channel))) == Placed(View(r), rank, channel)
  {
    hide TimeOf, RankOf, PutInjected, LengthOf, JLengthOf, SlotIn, InjectedLane;
    var r' := r.(jsqr := PutInjected(r.jsqr, rank, channel));
    SameTimes(r, r');
    SameRanks(r, r');
    assert LengthOf(r') == LengthOf(r) by {
      SameLength(r, r');
    }
    JLengthAfter(r.jsqr, rank, channel);
    forall i: nat | i < 4
      ensures SlotIn(r'.jsqr, i) == if i == InjectedLane(r.jsqr, rank) then channel else SlotIn(r.jsqr, i)
    {
      SlotAfter(r.jsqr, rank, channel, i);
    }
    ViewParts(r', Placed(View(r), rank, channel));
  }

  lemma InjectedView(r: Registers, channel: nat, rank: nat, time: nat)
    requires Legal(Injected(channel, rank, time))
    ensures View(Executed(r, Injected(channel, rank, time))) == Apply(View(r), Injected(channel, rank, time))
  {
    hide View, PutTime, PutInjected;
    TimesView(r, channel, time);
    SlotsView(PutTime(r, channel, time), rank, channel);
  }

  lemma InjectedLengthView(r: Registers, n: nat)
    requires 1 <= n <= 4
    ensures View(Executed(r, InjectedLength(n))) == View(r).(jlength := n)
  {
    hide TimeOf, RankOf, PutJLength, LengthOf, JLengthOf, SlotIn, Code;
    var r' := r.(jsqr := PutJLength(r.jsqr, Code(n - 1)));
    JLengthSet(r.jsqr, n);
    SameTimes(r, r');
    SameRanks(r, r');
    SameLength(r, r');
    forall i: nat | i < 4
      ensures SlotIn(r'.jsqr, i) == SlotIn(r.jsqr, i)
    {
      JSlotKept(r.jsqr, n, i);
    }
    ViewParts(r', View(r).(jlength := n));
  }

  lemma InitView(r: Registers, n: nat)
    requires 1 <= n <= 16
    ensures View(Executed(r, Init(n))) == View(r).(length := n)
  {
    hide TimeOf, RankOf, PutLength, LengthOf, JLengthOf, SlotIn, Code;
    var r' := r.(sqr1 := PutLength(r.sqr1, Code(n - 1)));
    LengthSet(r, n);
    SameTimes(r, r');
    forall k: nat | k < 16
      ensures RankOf(r', k) == RankOf(r, k)
    {
      RankKept(r, n, k);
    }
    ViewParts(r', View(r).(length := n));
  }

  /** The call on the registers is the call on the sequencer they hold. */
  lemma ExecutedView(r: Registers, c: Call)
    requires Legal(c)
    ensures View(Executed(r, c)) == Apply(View(r), c)
  {
    match c
    case Regular(channel, rank, time) => RegularView(r, channel, rank, time);
    case Injected(channel, rank, time) => InjectedView(r, channel, rank, time);
    case InjectedLength(n) => InjectedLengthView(r, n);
    case Init(n) => InitView(r, n);
  }

  /** Any run of calls on the registers is the same run on the sequencer: nothing a
      call does not name changes, in any of the six registers. */
  lemma {:induction false} RunRefines(r: Registers, cs: seq<Call>)
    requires forall c | c in cs :: Legal(c)
    ensures View(ExecutedAll(r, cs)) == ApplyAll(View(r), cs)
    decreases cs
  {
    hide View, Executed, Apply;
    if cs == [] {
    } else {
      ExecutedView(r, cs[0]);
      RunRefines(Executed(r, cs[0]), cs[1..]);
    }
  }

  // ---- the driver -------------------------------------------------------------------------------

  /** What ADC_Init writes beside the length. */
  datatype Options = Options(mode: Word, scan: bool, continuous: bool, trigger: Word, align: Word)

  const CR1_FIELDS: Word := 0x000F_0100
  const CR2_FIELDS: Word := 0x000E_0802

  /** Each option lies in its own field. */
  predicate Fits(o: Options) {
    o.mode & !0x000F_0000 == 0 && o.trigger & !0x000E_0000 == 0 && o.align & !0x800 == 0
  }

  function ScanBits(o: Options): Word {
    o.mode | (if o.scan then 0x100 else 0)
  }

  function ConversionBits(o: Options): Word {
    o.align | o.trigger | (if o.continuous then 2 else 0)
  }

  lemma ScanBitsFit(o: Options)
    requires Fits(o)
    ensures ScanBits(o) & !CR1_FIELDS == 0
  {
  }

  lemma ConversionBitsFit(o: Options)
    requires Fits(o)
    ensures ConversionBits(o) & !CR2_FIELDS == 0
  {
  }

  /** The fields are written, every other bit is kept. */
  predicate Replaced(was: Word, now: Word, fields: Word, bits: Word) {
    now & fields == bits && now & !fields == was & !fields
  }

  lemma SpliceReplaces(w: Word, m: Word, v: Word)
    requires v & !m == 0
    ensures Replaced(w, Splice(w, m, v), m, v)
  {
    hide Splice;
    SpliceHit(w, m, v);
    SpliceKeeps(w, m, v);
  }

  /** Mode and scan bit as the reference manual places them in CR1 (section 11.12.2 of
      RM0008), every other bit kept. */
  predicate ScanWritten(was: Word, now: Word, o: Options) {
    now & 0x000F_0000 == o.mode && (now & 0x100 != 0 <==> o.scan) && now & 0xFFF0_FEFF == was & 0xFFF0_FEFF
  }

  /** Alignment, trigger and continuous bit in CR2 (section 11.12.3), every other bit kept. */
  predicate ConversionWritten(was: Word, now: Word, o: Options) {
    now & 0x800 == o.align && now & 0x000E_0000 == o.trigger && (now & 2 != 0 <==> o.continuous) &&
    now & 0xFFF1_F7FD == was & 0xFFF1_F7FD
  }

  lemma ScanPlaced(was: Word, now: Word, o: Options)
    requires Fits(o) && Replaced(was, now, CR1_FIELDS, ScanBits(o))
    ensures ScanWritten(was, now, o)
  {
  }

  lemma ConversionPlaced(was: Word, now: Word, o: Options)
    requires Fits(o) && Replaced(was, now, CR2_FIELDS, ConversionBits(o))
    ensures ConversionWritten(was, now, o)
  {
  }

  class Adc {
    var CR1: Word
    var CR2: Word
    var SMPR1: Word
    var SMPR2: Word
    var SQR1: Word
    var SQR2: Word
    var SQR3: Word
    var JSQR: Word

    ghost function Values(): Registers
      reads this
    {
      Registers(SMPR1, SMPR2, SQR1, SQR2, SQR3, JSQR)
    }

    /** Read-modify-write: clear the bits of a mask, then set new ones. */
    static method Edit(reg: Word, mask: Word, bits: Word) returns (r: Word)
      ensures r == Splice(reg, mask, bits)
    {
      r := reg & !mask;
      r := r | bits;
    }

    method PutSampleTime(channel: nat, time: nat)
      requires channel < 18 && time <= 7
      modifies this`SMPR1, this`SMPR2
      ensures Values() == PutTime(old(Values()), channel, time)
      ensures if channel > 9 then TimeBits(SMPR1, channel - 10, Code(time)) else TimeBits(SMPR2, channel, Code(time))
    {
      hide Splice, TimeMask, TimeAt, Code, TimeBits;
      CodeFitsThree(time);
      TimePlaced(if channel > 9 then SMPR1 else SMPR2, channel % 10, Code(time));
      if channel > 9 {
        SMPR1 := Edit(SMPR1, TimeMask(channel - 10), TimeAt(channel - 10, Code(time)));
      } else {
        SMPR2 := Edit(SMPR2, TimeMask(channel), TimeAt(channel, Code(time)));
      }
    }

    method PutRegularRank(channel: nat, rank: nat)
      requires channel < 18 && 1 <= rank <= 16
      modifies this`SQR1, this`SQR2, this`SQR3
      ensures Values() == PutRank(old(Values()), rank, channel)
      ensures if rank < 7 then SlotBits(SQR3, rank - 1, Code(channel))
              else if rank < 13 then SlotBits(SQR2, rank - 7, Code(channel)) else SlotBits(SQR1, rank - 13, Code(channel))
    {
      hide Splice, SlotMask, SlotAt, Code, SlotBits;
      CodeFits(channel);
      SlotPlaced(if rank < 7 then SQR3 else if rank < 13 then SQR2 else SQR1, (rank - 1) % 6, Code(channel));
      if rank < 7 {
        SQR3 := Edit(SQR3, SlotMask(rank - 1), SlotAt(rank - 1, Code(channel)));
      } else if rank < 13 {
        SQR2 := Edit(SQR2, SlotMask(rank - 7), SlotAt(rank - 7, Code(channel)));
      } else {
        SQR1 := Edit(SQR1, SlotMask(rank - 13), SlotAt(rank - 13, Code(channel)));
      }
    }

    /** ADC_RegularChannelConfig. */
    method RegularChannelConfig(channel: nat, rank: nat, time: nat)
      requires Legal(Regular(channel, rank, time))
      modifies this`SMPR1, this`SMPR2, this`SQR1, this`SQR2, this`SQR3
      ensures Values() == Executed(old(Values()), Regular(channel, rank, time))
      ensures View(Values()) == Apply(View(old(Values())), Regular(channel, rank, time))
      ensures if channel > 9 then TimeBits(SMPR1, channel - 10, Code(time)) else TimeBits(SMPR2, channel, Code(time))
      ensures if rank < 7 then SlotBits(SQR3, rank - 1, Code(channel))
              else if rank < 13 then SlotBits(SQR2, rank - 7, Code(channel)) else SlotBits(SQR1, rank - 13, Code(channel))
    {
      hide View, Apply, PutTime, PutRank, TimeBits, SlotBits, Code;
      ExecutedView(Values(), Regular(channel, rank, time));
      PutSampleTime(channel, time);
      PutRegularRank(channel, rank);
    }

    method PutInjectedRank(channel: nat, rank: nat)
      requires channel < 18 && 1 <= rank <= 4
      modifies this`JSQR
      ensures JSQR == PutInjected(old(JSQR), rank, channel)
      ensures rank <= JLengthOf(old(JSQR)) ==> SlotBits(JSQR, rank + 3 - JLengthOf(old(JSQR)), Code(channel))
    {
      hide Splice, SlotMask, SlotAt, Code, InjectedLane, JLengthOf, SlotBits;
      CodeFits(channel);
      if rank <= JLengthOf(JSQR) {
        SlotPlaced(JSQR, rank + 3 - JLengthOf(JSQR), Code(channel));
      }
      // The lane depends on the length: (rank - 1) + (4 - JL - 1).
      var lane := InjectedLane(JSQR, rank);
      JSQR := Edit(JSQR, SlotMask(lane), SlotAt(lane, Code(channel)));
    }

    /** ADC_InjectedChannelConfig. */
    method InjectedChannelConfig(channel: nat, rank: nat, time: nat)
      requires Legal(Injected(channel, rank, time))
      modifies this`SMPR1, this`SMPR2, this`JSQR
      ensures Values() == Executed(old(Values()), Injected(channel, rank, time))
      ensures View(Values()) == Apply(View(old(Values())), Injected(channel, rank, time))
      ensures if channel > 9 then TimeBits(SMPR1, channel - 10, Code(time)) else TimeBits(SMPR2, channel, Code(time))
      ensures rank <= JLengthOf(old(JSQR)) ==> SlotBits(JSQR, rank + 3 - JLengthOf(old(JSQR)), Code(channel))
    {
      hide View, Apply, PutTime, PutInjected, TimeBits, SlotBits, Code, JLengthOf;
      ExecutedView(Values(), Injected(channel, rank, time));
      PutSampleTime(channel, time);
      PutInjectedRank(channel, rank);
    }

    static method PutJL(jsqr: Word, v: Word) returns (r: Word)
      ensures r == PutJLength(jsqr, v)
    {
      r := Edit(jsqr, 0x0030_0000, v << 20);
    }

    /** ADC_InjectedSequencerLengthConfig. */
    method InjectedSequencerLengthConfig(n: nat)
      requires Legal(InjectedLength(n))
      modifies this`JSQR
      ensures Values() == Executed(old(Values()), InjectedLength(n))
      ensures View(Values()) == View(old(Values())).(jlength := n)
      ensures Value((JSQR >> 20) & 3) + 1 == n
    {
      hide View, PutJLength, Code, Value, JLengthLane;
      LengthPlace(PutJLength(JSQR, Code(n - 1)));
      JLengthSet(JSQR, n);
      ExecutedView(Values(), InjectedLength(n));
      JSQR := PutJL(JSQR, Code(n - 1));
    }

    static method PutL(sqr1: Word, v: Word) returns (r: Word)
      ensures r == PutLength(sqr1, v)
    {
      r := Edit(sqr1, 0x00F0_0000, v << 20);
    }

    method InitScan(o: Options)
      requires Fits(o)
      modifies this`CR1
      ensures ScanWritten(old(CR1), CR1, o)
    {
      hide Splice, ScanBits, Replaced, ScanWritten, Fits;
      ScanBitsFit(o);
      SpliceReplaces(CR1, CR1_FIELDS, ScanBits(o));
      ScanPlaced(CR1, Splice(CR1, CR1_FIELDS, ScanBits(o)), o);
      CR1 := Edit(CR1, CR1_FIELDS, ScanBits(o));
    }

    method InitConversion(o: Options)
      requires Fits(o)
      modifies this`CR2
      ensures ConversionWritten(old(CR2), CR2, o)
    {
      hide Splice, ConversionBits, Replaced, ConversionWritten, Fits;
      ConversionBitsFit(o);
      SpliceReplaces(CR2, CR2_FIELDS, ConversionBits(o));
      ConversionPlaced(CR2, Splice(CR2, CR2_FIELDS, ConversionBits(o)), o);
      CR2 := Edit(CR2, CR2_FIELDS, ConversionBits(o));
    }

    method InitOptions(o: Options)
      requires Fits(o)
      modifies this`CR1, this`CR2
      ensures ScanWritten(old(CR1), CR1, o) && ConversionWritten(old(CR2), CR2, o)
    {
      hide ScanWritten, ConversionWritten, Fits;
      InitScan(o);
      InitConversion(o);
    }

    method InitLength(n: nat)
      requires Legal(Call.Init(n))
      modifies this`SQR1
      ensures Values() == Executed(old(Values()), Call.Init(n))
      ensures View(Values()) == View(old(Values())).(length := n)
      ensures Value((SQR1 >> 20) & 0xF) + 1 == n
    {
      hide View, PutLength, Code, Value, LengthLane;
      LengthPlace(PutLength(SQR1, Code(n - 1)));
      LengthSet(Values(), n);
      ExecutedView(Values(), Call.Init(n));
      SQR1 := PutL(SQR1, Code(n - 1));
    }

    /** ADC_Init: mode and scan bits in CR1; alignment, trigger and continuous bits in
        CR2; the number of regular channels in SQR1. */
    method Init(o: Options, n: nat)
      requires Fits(o) && Legal(Call.Init(n))
      modifies this`CR1, this`CR2, this`SQR1
      ensures Values() == Executed(old(Values()), Call.Init(n))
      ensures View(Values()) == View(old(Values())).(length := n)
      ensures Value((SQR1 >> 20) & 0xF) + 1 == n
      ensures ScanWritten(old(CR1), CR1, o) && ConversionWritten(old(CR2), CR2, o)
    {
      hide View, Executed, Fits, ScanWritten, ConversionWritten, Value;
      InitOptions(o);
      InitLength(n);
    }
  }
}
