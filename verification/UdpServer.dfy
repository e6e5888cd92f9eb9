/** The command server itself: the receive callback, and the polling loop with the
    callback's interrupt free to come before each of its accesses (readme.md;
    LWIP/lwip_app/udp_demo/udp_demo.c). */
module UdpServer {
  import opened UdpFrame
  import opened UdpMotor

  lemma NoEvents(s: State)
    ensures Run(s, []) == s && Accesses([]) == 0
  {
  }

  /** Header and data are not part of the fields. */
  lemma KeepsFields(was: seq<Byte>, now: seq<Byte>)
    requires |was| == |now| == LENGTH + 1 && was[4..11] == now[4..11]
    ensures Parsed(was, 4) == Parsed(now, 4)
  {
    assert forall i | 4 <= i < 11 :: was[i] == was[4..11][i - 4] && now[i] == now[4..11][i - 4];
  }

  class Server {
    const recvbuf: array<Byte>
    const sendbuf: array<Byte>
    var command: Command
    var leds: Leds
    var elengine_wyx: bool
    var udp_demo_flag: bv8
    var log: seq<Action>

    /** Where the polling loop stands. */
    ghost var pc: Pc

    ghost predicate Valid() {
      recvbuf.Length == RX_BUFSIZE && sendbuf.Length == LENGTH + 1 && recvbuf != sendbuf
    }

    ghost function View(): State
      requires Valid()
      reads this, sendbuf
    {
      State(command, leds, elengine_wyx, udp_demo_flag, Parsed(sendbuf[..], 4), pc, log)
    }

    /** The server before its loop: an empty command, the latch set, the flag clear. */
    constructor ()
      ensures Valid() && fresh(recvbuf) && fresh(sendbuf)
      ensures Armed(View()) && View().pc == Idle && udp_demo_flag == 0 && elengine_wyx && log == []
    {
      recvbuf := new Byte[RX_BUFSIZE](_ => 0);
      sendbuf := new Byte[LENGTH + 1](_ => 0);
      command := Command(0, 0, 0, 0, 0, 0, 0);
      leds := Leds(false, false, false);
      elengine_wyx, udp_demo_flag := true, 0;
      log := [];
      pc := Idle;
    }

    /** readrecv. */
    method ReadRecv()
      requires Valid()
      modifies this`command
      ensures command == Understood(old(command), recvbuf[..])
    {
      var found := Judge(recvbuf);
      if found != 0 {
        UnderstoodAt(command, recvbuf[..], found - 4);
        var position := found;
        command := command.(led0 := recvbuf[position]);
        position := position + 1;
        command := command.(led1 := recvbuf[position]);
        position := position + 1;
        command := command.(led2 := recvbuf[position]);
        position := position + 1;
        command := command.(elengine0 := recvbuf[position]);
        position := position + 1;
        command := command.(elengine1 := recvbuf[position]);
        position := position + 1;
        command := command.(humi0 := Wrapped(recvbuf[position] - OFFSET));
        position := position + 1;
        command := command.(humi1 := Wrapped(recvbuf[position] - OFFSET));
      }
    }

    method Do(a: Action)
      modifies this`log
      ensures log == old(log) + [a]
    {
      log := log + [a];
    }

    method SetLeds()
      modifies this`leds
      ensures leds == LedsOf(command)
    {
      if command.led0 == ONE {
        leds := leds.(led0 := true);
      } else {
        leds := leds.(led0 := false);
      }
      if command.led1 == ONE {
        leds := leds.(led1 := true);
      } else {
        leds := leds.(led1 := false);
      }
      if command.led2 == ONE {
        leds := leds.(led2 := true);
      } else {
        leds := leds.(led2 := false);
      }
    }

    method DriveMotor1()
      modifies this`elengine_wyx, this`log
      ensures elengine_wyx == (old(elengine_wyx) && !Asks(command))
      ensures log == old(log) + Actions1(command, old(elengine_wyx))
    {
      if command.humi0 == 1 {
        if command.elengine0 == ONE && command.elengine1 == ONE && elengine_wyx {
          Do(Start1(true));
          elengine_wyx := false;
        }
        if command.elengine0 == ONE && command.elengine1 == ZERO && elengine_wyx {
          Do(Start1(false));
          elengine_wyx := false;
        }
      } else {
        Do(Stop1);
      }
    }

    method DriveMotor2()
      modifies this`log
      ensures log == old(log) + Actions2(command)
    {
      if command.elengine0 == ZERO && command.elengine1 == ONE {
        Do(Start2);
      }
      if command.elengine0 == ZERO && command.elengine1 == ZERO {
        Do(Stop2);
      }
    }

    /** Message_processing. */
    method MessageProcessing()
      requires Valid()
      modifies this`leds, this`elengine_wyx, this`log
      ensures View() == Processed(old(View())) && Obeyed(old(View()), View())
    {
      hide Asks, LedsOf, Actions1, Actions2, Obeyed;
      ProcessedObeys(View());
      SetLeds();
      DriveMotor1();
      DriveMotor2();
    }

    /** udp_demo_recv; no buffer means that the connection is dropped. */
    method Recv(p: Chain)
      requires Valid() && Sized(p)
      modifies this`command, this`leds, this`elengine_wyx, this`udp_demo_flag, this`log, recvbuf
      ensures View() == Step(old(View()), if p.Pbuf? then Datagram(Concat(p)) else Disconnect)
    {
      hide Received;
      if p.Pbuf? {
        CopyChain(recvbuf, p);
        ReadRecv();
        MessageProcessing();
        udp_demo_flag := Mark(udp_demo_flag);
      } else {
        udp_demo_flag := Drop(udp_demo_flag);
      }
    }

    // ---- the loop, with the interrupt free to come before each access ------------------------------

    /** Any number of callbacks. */
    method Interrupts() returns (ghost es: seq<Event>)
      requires Valid()
      modifies this`command, this`leds, this`elengine_wyx, this`udp_demo_flag, this`log, recvbuf
      ensures Callbacks(es) && View() == Run(old(View()), es)
    {
      var more: nat := *;
      es := [];
      ghost var start := View();
      while more > 0
        invariant Callbacks(es) && View() == Run(start, es)
      {
        var p: Chain := *;
        if Sized(p) {
          ghost var e := if p.Pbuf? then Datagram(Concat(p)) else Disconnect;
          hide Run, Step;
          RunAppend(start, es, [e]);
          RunOne(View(), e);
          Recv(p);
          es := es + [e];
        }
        more := more - 1;
      }
    }

    /** One access of the loop, made to the shared state as it is now. */
    method Access(ghost es: seq<Event>, ghost start: State, ghost tick: Event := Tick(true))
      returns (ghost fs: seq<Event>)
      requires Valid() && View() == Run(start, es) && tick.Tick?
      modifies this`command, this`leds, this`elengine_wyx, this`udp_demo_flag, this`log, recvbuf
      ensures View() == Run(start, fs) && Step(View(), tick) == Run(start, fs + [tick])
      ensures Accesses(fs) == Accesses(es) && Accesses(fs + [tick]) == Accesses(es) + 1
    {
      hide Run, Step, Accesses;
      var cs := Interrupts();
      RunAppend(start, es, cs);
      fs := es + cs;
      AccessesAppend(es, cs);
      NoAccess(cs);
      AccessesTick(fs, tick.buffer);
      RunAppend(start, fs, [tick]);
      RunOne(View(), tick);
    }

    method PutField(k: nat)
      requires Valid() && k < FIELDS && pc == Replying(k)
      modifies this`pc, sendbuf
      ensures View() == Step(old(View()), Tick(true)) && pc == ReplyingAt(k + 1)
      ensures sendbuf[..4] == old(sendbuf[..4]) && sendbuf[11..] == old(sendbuf[11..])
    {
      hide Wrapped;
      WrapBack(command.humi0);
      WrapBack(command.humi1);
      match k {
        case 0 => sendbuf[9] := Wrapped(command.humi0 + OFFSET);
        case 1 => sendbuf[10] := Wrapped(command.humi1 + OFFSET);
        case 2 => sendbuf[7] := command.elengine0;
        case 3 => sendbuf[8] := command.elengine1;
        case 4 => sendbuf[4] := command.led0;
        case 5 => sendbuf[5] := command.led1;
        case _ => sendbuf[6] := command.led2;
      }
      pc := ReplyingAt(k + 1);
    }

    /** Field `k` of the reply. */
    method SendField(k: nat, ghost es: seq<Event>, ghost start: State) returns (ghost fs: seq<Event>)
      requires Valid() && k < FIELDS && pc == Replying(k) && View() == Run(start, es)
      modifies this`command, this`leds, this`elengine_wyx, this`udp_demo_flag, this`log, this`pc, recvbuf, sendbuf
      ensures View() == Run(start, fs) && pc == ReplyingAt(k + 1) && Accesses(fs) == Accesses(es) + 1
      ensures sendbuf[..4] == old(sendbuf[..4]) && sendbuf[11..] == old(sendbuf[11..])
    {
      hide Run, Step, Accesses, Parsed;
      fs := Access(es, start);
      PutField(k);
      fs := fs + [Tick(true)];
    }

    method SendHeader()
      requires Valid()
      modifies sendbuf
      ensures sendbuf[..4] == [Z, N, J, J] && View() == old(View())
    {
      sendbuf[0] := Z;
      sendbuf[1] := N;
      sendbuf[2] := J;
      sendbuf[3] := J;
      KeepsFields(old(sendbuf[..]), sendbuf[..]);
    }

    method SendData(data: seq<Byte>)
      requires Valid() && |data| == 4
      modifies sendbuf
      ensures sendbuf[11..LENGTH] == data && sendbuf[..4] == old(sendbuf[..4]) && View() == old(View())
    {
      for i := 11 to LENGTH
        invariant sendbuf[11..i] == data[..i - 11]
        invariant sendbuf[..11] == old(sendbuf[..11])
      {
        sendbuf[i] := data[i - 11];
        assert sendbuf[11..i + 1] == sendbuf[11..i] + [sendbuf[i]];
      }
      assert sendbuf[..4] == sendbuf[..11][..4] && sendbuf[4..11] == sendbuf[..11][4..];
      KeepsFields(old(sendbuf[..]), sendbuf[..]);
    }

    method SendBody(ghost es: seq<Event>, ghost start: State) returns (ghost fs: seq<Event>)
      requires Valid() && pc == Replying(2) && View() == Run(start, es)
      modifies this`command, this`leds, this`elengine_wyx, this`udp_demo_flag, this`log, this`pc, recvbuf, sendbuf
      ensures View() == Run(start, fs) && pc == Arming && Accesses(fs) == Accesses(es) + 5
      ensures sendbuf[..4] == old(sendbuf[..4]) && sendbuf[11..] == old(sendbuf[11..])
    {
      hide Run, Accesses, Parsed;
      fs := SendField(2, es, start);
      fs := SendField(3, fs, start);
      fs := SendField(4, fs, start);
      fs := SendField(5, fs, start);
      fs := SendField(6, fs, start);
    }

    /** setsendbuf: each field is taken from the command in force at that moment. */
    method SetSendBuf(data: seq<Byte>, ghost es: seq<Event>, ghost start: State) returns (ghost fs: seq<Event>)
      requires Valid() && |data| == 4 && pc == Replying(0) && View() == Run(start, es)
      modifies this`command, this`leds, this`elengine_wyx, this`udp_demo_flag, this`log, this`pc, recvbuf, sendbuf
      ensures View() == Run(start, fs) && pc == Arming && Accesses(fs) == Accesses(es) + FIELDS
      ensures sendbuf[..LENGTH] == Frame(View().reply, data)
    {
      hide Run, Accesses, Parsed, Frame;
      SendHeader();
      fs := SendField(0, es, start);
      fs := SendField(1, fs, start);
      SendData(data);
      fs := SendBody(fs, start);
      assert sendbuf[11..LENGTH] == sendbuf[11..][..4];
      FrameFrom(sendbuf[..], View().reply, data);
    }

    method Arm(ghost es: seq<Event>, ghost start: State) returns (ghost fs: seq<Event>)
      requires Valid() && pc == Arming && View() == Run(start, es)
      modifies this`command, this`leds, this`elengine_wyx, this`udp_demo_flag, this`log, this`pc, recvbuf
      ensures View() == Run(start, fs) && pc == Loading && Accesses(fs) == Accesses(es) + 1
    {
      hide Run, Accesses, Parsed;
      fs := Access(es, start);
      elengine_wyx := true;
      pc := Loading;
      fs := fs + [Tick(true)];
    }

    /** The read-modify-write of the flag is a load and a store. */
    method ClearMark(ghost es: seq<Event>, ghost start: State) returns (ghost fs: seq<Event>)
      requires Valid() && pc == Loading && View() == Run(start, es)
      modifies this`command, this`leds, this`elengine_wyx, this`udp_demo_flag, this`log, this`pc, recvbuf
      ensures View() == Run(start, fs) && pc == Idle && Accesses(fs) == Accesses(es) + 2
    {
      hide Run, Accesses, Parsed, Unmark;
      fs := Access(es, start);
      var reg := udp_demo_flag;
      pc := Storing(reg);
      fs := fs + [Tick(true)];
      fs := Access(fs, start);
      udp_demo_flag := Unmark(reg);
      pc := Idle;
      fs := fs + [Tick(true)];
    }

    /** One iteration of the loop in udp_demo_test, with the interrupt free to come before
        each of its accesses: it is the run of the eleven accesses of a reply, of four when no
        packet buffer can be had, or of the test alone when nothing waits, and of the callbacks
        in between. */
    method PollOnce(data: seq<Byte>) returns (ghost es: seq<Event>)
      requires Valid() && |data| == 4 && pc == Idle
      modifies this`command, this`leds, this`elengine_wyx, this`udp_demo_flag, this`log, this`pc, recvbuf, sendbuf
      ensures View() == Run(old(View()), es) && pc == Idle
      ensures Accesses(es) == 1 || Accesses(es) == 4 || Accesses(es) == 11
      ensures if Accesses(es) == 11 then sendbuf[..LENGTH] == Frame(View().reply, data) else sendbuf[..] == old(sendbuf[..])
    {
      hide Run, Accesses, Parsed, Pending, Frame;
      ghost var start := View();
      NoEvents(start);
      // pbuf_alloc
      var ptr: bool := *;
      es := Access([], start, Tick(ptr));
      es := es + [Tick(ptr)];
      if Pending(udp_demo_flag) {
        pc := if ptr then Replying(0) else Arming;
        if ptr {
          es := SetSendBuf(data, es, start);
        }
        es := Arm(es, start);
        es := ClearMark(es, start);
      }
    }
  }
}
