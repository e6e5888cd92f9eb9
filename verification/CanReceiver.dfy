/** Receiving a CAN frame: copying the head of a FIFO and releasing it, with the hardware
    acting in between (FWLIB/STM32F10x_FWLib/src/stm32f10x_can.c). */
module CanReceiver {
  import opened Words
  import opened CanFrame

  /** The caller's message structure, filled in place. */
  class RxMessage {
    var stdId: Word
    var extId: Word
    var ide: Byte
    var rtr: Byte
    var dlc: Byte
    var data: Bytes
    var fmi: Byte

    function Value(): RxMsg
      reads this
    {
      RxMsg(stdId, extId, ide, rtr, dlc, data, fmi)
    }
  }

  const RFOM: Word := 0x20

  /** The receive register of a FIFO: FULL and FOVR are set by the hardware and cleared by
      writing ones, RFOM is set by software, the message count is read-only (section
      24.9.3 of RM0008). */
  predicate Full(rfr: Word) { rfr & 0x08 != 0 }
  predicate Overrun(rfr: Word) { rfr & 0x10 != 0 }
  predicate Releases(rfr: Word) { rfr & 0x20 != 0 }

  /** Software writes `v`. */
  function AfterRfr(was: Word, v: Word): Word {
    (was & !(v & 0x18)) | (v & RFOM)
  }

  /** The hardware acts: frames arrive, and a release is carried out. */
  function Arrived(was: Word, noise: Word): Word {
    (was & 0x18) | (noise & 0x3B)
  }

  /** The hardware never takes a flag back, and can set it at any time. */
  lemma ArrivedSets(was: Word, noise: Word)
    ensures Full(Arrived(was, noise)) <==> was & 0x08 != 0 || noise & 0x08 != 0
    ensures Overrun(Arrived(was, noise)) <==> was & 0x10 != 0 || noise & 0x10 != 0
  {
  }

  lemma ReleaseSets(was: Word, read: Word)
    ensures Releases(AfterRfr(was, read | RFOM))
  {
  }

  lemma ReleaseOverrun(was: Word, read: Word)
    ensures Overrun(AfterRfr(was, read | RFOM)) <==> !Overrun(read) && Overrun(was)
  {
  }

  lemma ReleaseFull(was: Word, read: Word)
    ensures Full(AfterRfr(was, read | RFOM)) <==> !Full(read) && Full(was)
  {
  }

  /** What the read-modify-write leaves: the release, and an overrun or full flag exactly
      when it was not there at the read and came before the write. */
  lemma ReleaseHides(read: Word, noise: Word)
    ensures var now := AfterRfr(Arrived(read, noise), read | RFOM);
            Releases(now) && (Overrun(now) <==> !Overrun(read) && Overrun(Arrived(read, noise))) &&
            (Full(now) <==> !Full(read) && Full(Arrived(read, noise)))
  {
    hide AfterRfr, Arrived, Overrun, Full, Releases;
    ReleaseSets(Arrived(read, noise), read);
    ReleaseOverrun(Arrived(read, noise), read);
    ReleaseFull(Arrived(read, noise), read);
  }

  /** Receiving a frame after an overrun takes the report of the overrun away. */
  lemma ReceiveHidesOverrun()
    ensures Overrun(0x1B) && !Overrun(AfterRfr(0x1B, 0x1B | RFOM))
  {
  }

  /** The two receive FIFOs: the mailbox at the head of each, and its register. */
  class Receiver {
    const sFIFOMailBox: array<Mailbox>
    var RF0R: Word
    var RF1R: Word

    constructor ()
      ensures sFIFOMailBox.Length == 2 && fresh(sFIFOMailBox)
    {
      sFIFOMailBox := new Mailbox[2](_ => Mailbox(0, 0, 0, 0));
      RF0R, RF1R := 0, 0;
    }

    /** Copy the head of a FIFO into the caller's message. */
    method Copy(fifo: Byte, rx: RxMessage)
      requires sFIFOMailBox.Length == 2 && fifo < 2
      modifies rx
      ensures rx.Value() == Unload(sFIFOMailBox[fifo], old(rx.Value()))
      ensures CanFrame.Received(sFIFOMailBox[fifo], rx.Value())
    {
      hide IdeOf, StdIdOf, ExtIdOf, RtrOf, LengthOf, FmiOf, DataOf;
      UnloadedReceived(sFIFOMailBox[fifo], rx.Value());
      var box := sFIFOMailBox[fifo];
      // Get the identifier.
      rx.ide := IdeOf(box.ir);
      if rx.ide == ID_STANDARD {
        rx.stdId := StdIdOf(box.ir);
      } else {
        rx.extId := ExtIdOf(box.ir);
      }
      rx.rtr := RtrOf(box.ir);
      // Get the length, the filter match index and the data.
      rx.dlc := LengthOf(box);
      rx.fmi := FmiOf(box);
      rx.data := DataOf(box);
    }

    /** CAN_Receive: copy the head of a FIFO and release it. The release is a
        read-modify-write with the hardware acting before each of its accesses, as
        `earlier` and `later` say; `read` is what was read. */
    method Receive(fifo: Byte, rx: RxMessage) returns (ghost earlier: Word, ghost read: Word, ghost later: Word)
      requires sFIFOMailBox.Length == 2 && fifo < 2
      modifies this, rx
      ensures rx.Value() == Unload(sFIFOMailBox[fifo], old(rx.Value()))
      ensures read == Arrived(if fifo == 0 then old(RF0R) else old(RF1R), earlier)
      ensures CanFrame.Received(sFIFOMailBox[fifo], rx.Value())
      ensures var now := AfterRfr(Arrived(read, later), read | RFOM);
              if fifo == 0 then RF0R == now && RF1R == old(RF1R) else RF1R == now && RF0R == old(RF0R)
    {
      hide Arrived, AfterRfr, Unload, CanFrame.Received;
      Copy(fifo, rx);
      var n0: Word, n1: Word := *, *;
      earlier, later := n0, n1;
      // Release the FIFO.
      if fifo == 0 {
        RF0R := Arrived(RF0R, n0);
        var rfr := RF0R;
        read := rfr;
        RF0R := Arrived(RF0R, n1);
        RF0R := AfterRfr(RF0R, rfr | RFOM);
      } else {
        RF1R := Arrived(RF1R, n0);
        var rfr := RF1R;
        read := rfr;
        RF1R := Arrived(RF1R, n1);
        RF1R := AfterRfr(RF1R, rfr | RFOM);
      }
    }
  }
}
