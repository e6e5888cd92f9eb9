# A verified model of the STM32F103 drivers and the UDP command server

The firmware keeps abstract objects packed inside hardware registers: a pool of CAN
mailboxes, a table of filter banks, an ADC sequence, sixteen pin configurations, an
interrupt set, a clock tree. Its application adds a small command protocol over UDP. This
project models each of them twice, as the object a caller has in mind and as the registers
or buffers the code edits, and proves which steps of the object a call on the registers is:
one step where nothing can come in between, otherwise one step among those of the hardware
or of the interrupt, wherever these land. The properties a user relies on are then proved
about the object over every such run; where the code breaks one, there is a run that shows
it and the exact condition under which it holds.

`dafny verify dfyconfig.toml` checks everything.

## How it is organised

| file | what it holds |
|---|---|
| `Words.dfy` | bits and masks of 32-bit words, read-modify-write, words determined by their bits |
| `CanFrame.dfy` | CAN frames packed into and unpacked from mailboxes |
| `CanTsr.dfy` | the transmit status register, with its write-one-to-clear flags |
| `CanMailboxes.dfy` | the three mailboxes as a protocol between driver and hardware, and its properties over all runs |
| `CanController.dfy` | the transmit, status and cancel calls, one register access at a time, the hardware acting before each |
| `CanReceiver.dfy` | receiving a frame and releasing its FIFO |
| `CanFilter.dfy` | the filter banks |
| `AdcLanes.dfy`, `AdcSequencer.dfy` | the ADC sequencer over six registers |
| `Gpio.dfy` | pin configuration |
| `Exti.dfy` | external interrupt lines |
| `NvicPriority.dfy`, `NvicController.dfy` | interrupt priorities and enables |
| `ClockTree.dfy`, `ClockFields.dfy` | the computed clock and its error; the configuration fields and what a setter makes of them |
| `ClockRegisters.dfy`, `ClockSetup.dfy` | the clock registers with their locks and the bit that two of them share; the setup sequence |
| `UdpFrame.dfy` | the bytes of the command protocol |
| `UdpMotor.dfy`, `UdpServer.dfy` | the motor latch and the flag over all runs of interrupt and polling loop; the server itself |

Registers are 32-bit words (`bv32`). Lemmas about single edits work on words; everything
above them works on numbers, sets and sequences. Driver calls are methods of classes whose
fields are the registers, and each is proved against the step of the abstract object. Beside
that, contracts and lemmas say bit by bit where each field stands in the registers, so that
the object and the registers cannot both be wrong in the same way.

Hardware is adversarial. Between any two register accesses of `CAN_Transmit`,
`CAN_CancelTransmit` and `CAN_Receive` it may do whatever it is allowed to: complete
mailboxes, deliver frames, overrun. The crystal's ready flag is an arbitrary function of the
read. Write-one-to-set, write-one-to-clear and key-protected registers, and fields that are
locked while their PLL is on, are modelled as the hardware implements them (RM0008; ARMv7-M
Architecture Reference Manual, section B3). The receive callback of the command server runs
in the interrupt of external line 1 (`HARDWARE/ENC28J60/enc28j60.c`,
`LWIP/lwip_app/udp_demo/udp_demo.c`), so any number of callbacks may come before each access
of the polling loop, also between the load and the store of its `&=`.

## What the code does not do as it says

These are lemmas with a concrete input or run, next to the exact condition under which the
code does behave.

- **A start command can lose its mark.** If its datagram lands after the polling loop has
  armed the latch and before it has stored the cleared flag, the motor starts, but the loop
  then clears the mark: nothing waits, the latch is spent and the next start command is
  ignored (`UdpMotor.LostMark`). A mark survives exactly when its datagram lands while the
  loop is at its test (`UdpMotor.MarkExactly`); the latch is left in order exactly when no
  asking datagram lands in that window (`UdpMotor.ArmedStep`, `UdpMotor.EndOfIteration`).
- **A disconnect can be undone.** If it lands between that load and that store
  (`UdpMotor.LostDisconnect`), and only then (`UdpMotor.ConnectedExactly`).
- **A reply can mix commands.** Each field is taken from the command in force when it is
  copied, wherever the interrupts land (`UdpMotor.ReplyTakes`), so that with two commands
  that arrive during the reply it has fields of three (`UdpMotor.ReplyOfThree`). It is the
  reply of a given command exactly when every field had that command's value when it was
  copied (`UdpMotor.ReplyWholeExactly`).
- **A datagram without a header is obeyed.** The previous command is carried out again and
  can start the motor again (`UdpMotor.GarbageReplays`, `UdpMotor.ReplayStartsAgain`).
- **A cancel can turn a success into a failure.** `CAN_CancelTransmit` reads the status
  register, sets one bit and writes it all back, which clears the completion flags of the
  other mailboxes. A frame that was sent is then reported as failed
  (`CanMailboxes.CancelHidesSuccess`); `CanMailboxes.SentReportedUntilHidden` says exactly
  when the report stays right.
- **Receiving a frame takes the overrun report away.** The release of the FIFO writes back
  the flags it has read, which clears them (`CanReceiver.ReceiveHidesOverrun`); a flag is left
  exactly when it came between the read and the write (`CanReceiver.ReleaseHides`).
- **A refused frame looks pending.** `CAN_TransmitStatus` given the number that
  `CAN_Transmit` returns for "no mailbox" answers pending, not failed
  (`CanTsr.NoMailboxLooksPending`).
- **A free mailbox can be refused.** `CAN_Transmit` reads the status register once for each
  mailbox, so a mailbox that completes after its own read is not used
  (`CanMailboxes.RefusedThoughFree`); a frame is refused exactly when each mailbox waits at
  its own read (`CanController.Can.Transmit`, bounds in `CanMailboxes.RefusedWhenAllWait`).
- **An injected rank can overwrite the sequence length.** The rank just past the length is
  written over the length field (`AdcSequencer.LengthOverwritten`, with the exact condition
  for a call in `AdcSequencer.LengthSurvives` and for a run in `AdcSequencer.LengthKept`).
- **Disabling an interrupt line may leave it on.** `EXTI_Init` clears the line only in the
  register of the mode it is given (`Exti.DisableMisses`, exact condition in
  `Exti.DisableTurnsOff`).
- **The priority shift is undefined before a group is configured**: exactly for the groups
  of `misc.h` it is in range (`NvicPriority.DistanceInRange`).
- **A clock setter alone may miss its frequency.** It only ORs the AHB prescaler in, and its
  writes to the fields of a PLL that is on are ignored: a device running at 48 MHz that is
  told to run at 72 MHz stays at 48 MHz (`ClockFields.SetterIgnored`). It reaches its
  frequency exactly when the crystal starts and, with every PLL off, no AHB divisor was set
  and the PREDIV1 field was at most one on the value line; with the PLL on, the PLL as it is
  set gives the frequency; with only PLL2 or PLL3 on, PLL2 as it is set gives the input that
  the target needs, times the AHB divisor (`ClockFields.LeftReaches`,
  `ClockSetup.Rcc.SetSysClock`). `SystemInit` first clears all of this, unless the PLL still
  drives the system clock when it is told to turn off.
- **The advertised frequency may be wrong.** `SystemInit` does not update `SystemCoreClock`:
  after reset it is right exactly when the crystal starts (`ClockSetup.Rcc.SystemInit`).

## Model

| member | source | states |
|---|---|---|
| CanFrame.FrameRoundTrip | FWLIB/STM32F10x_FWLib/src/stm32f10x_can.c:545-575 | for every message and every previous mailbox content, the words written by CAN_Transmit and read by CAN_Receive give the same identifier, IDE, RTR, length and data exactly when the identifier fits its 11 or 29 bits |
| CanFrame.IdWordId | FWLIB/STM32F10x_FWLib/src/stm32f10x_can.c:546-557 | the identifier survives packing and unpacking if and only if it is in the asserted range |
| CanFrame.FrameArrives | FWLIB/STM32F10x_FWLib/src/stm32f10x_can.c:677-704 | any receive mailbox that the bus fills from a mailbox holding the message is read as that message, if and only if its identifier fits |
| CanFrame.LoadedWritten | FWLIB/STM32F10x_FWLib/src/stm32f10x_can.c:545-575 | each field of the message stands where the mailbox registers have it: a standard identifier in the upper 11 bits and an extended one in the upper 29, IDE in bit 2, RTR in bit 1, the length in the low four bits of TDTR with all others kept, the first data byte lowest |
| CanFrame.UpperElevenBits | FWLIB/STM32F10x_FWLib/src/stm32f10x_can.c:546-557 | a standard and an extended identifier agree in the upper eleven bits of their words if and only if the standard one is the upper eleven bits of the extended one |
| CanFrame.UnloadedReceived | FWLIB/STM32F10x_FWLib/src/stm32f10x_can.c:677-698 | the message read is what the receive mailbox holds, register field by register field, and the identifier of the other kind is kept |
| CanFrame.IndexAndLength | FWLIB/STM32F10x_FWLib/src/stm32f10x_can.c:687-691 | for every time stamp, filter index and length in RDTR, the filter match index and the length are read as such |
| CanFrame.BytesInOrder | FWLIB/STM32F10x_FWLib/src/stm32f10x_can.c:567-575 | byte k of a message is the k-th data byte |
| CanTsr.WrittenFlag | FWLIB/STM32F10x_FWLib/src/stm32f10x_can.c:643-660 | what a software write to the status register does to each flag of each mailbox: completion flags are cleared by ones, an abort takes effect only on a pending mailbox |
| CanTsr.FinishedFlag | FWLIB/STM32F10x_FWLib/src/stm32f10x_can.c:589-635 | when the hardware empties a mailbox exactly the flags of that mailbox change |
| CanTsr.StatusFromFlags | FWLIB/STM32F10x_FWLib/src/stm32f10x_can.c:596-634 | the status code of a mailbox depends on its own three flags only, whatever the other twenty-nine bits |
| CanTsr.NoMailboxLooksPending | FWLIB/STM32F10x_FWLib/src/stm32f10x_can.c:608-634 | for a mailbox number above 2, also the "no mailbox" number, the answer is pending |
| CanTsr.FlagPlaces | FWLIB/STM32F10x_FWLib/src/stm32f10x_can.c:596-634 | RQCP, TXOK and ABRQ of a mailbox are bits 0, 1 and 7 of its byte, and TME is bit 26 plus its number |
| CanTsr.ErrorPlaces | FWLIB/STM32F10x_FWLib/src/stm32f10x_can.c:596-634 | the two error flags are bits 2 and 3 of the byte of a mailbox, and a completion is acknowledged by its lower four bits together |
| CanMailboxes.Conservation | FWLIB/STM32F10x_FWLib/src/stm32f10x_can.c:515-578 | over every run of transmits into whichever empty mailbox, refusals, cancels, clears and hardware steps, each frame was accepted as often as it was sent, given up or is still pending, with its content unchanged, and the flags of each mailbox say what became of its last message |
| CanMailboxes.StepInv | FWLIB/STM32F10x_FWLib/src/stm32f10x_can.c:643-660 | every single step keeps that invariant |
| CanMailboxes.WaitingFrameKept | FWLIB/STM32F10x_FWLib/src/stm32f10x_can.c:521-537 | over any run in which the hardware does not empty it, a mailbox that holds a request is not rewritten, whatever calls are made |
| CanMailboxes.RefusedWhenAllWait | FWLIB/STM32F10x_FWLib/src/stm32f10x_can.c:521-543 | with the hardware acting between the three reads that choose a mailbox: a frame is refused only if all three were pending when the call began, and surely if all three still are at the last read; a mailbox that is taken is free, and every lower one was pending when the call began; if the hardware does nothing during the call, refused exactly when all three are pending |
| CanMailboxes.RefusedThoughFree | FWLIB/STM32F10x_FWLib/src/stm32f10x_can.c:521-543 | with all three pending, a completion of the first after its read leaves the frame refused although that mailbox is free |
| CanMailboxes.StatusMeaning | FWLIB/STM32F10x_FWLib/src/stm32f10x_can.c:589-635 | in every reachable state the status is pending exactly for a waiting message, ok exactly for a sent one whose flags are shown, and failed exactly for one given up, one whose flags are hidden, or none |
| CanMailboxes.SentReportedUntilHidden | FWLIB/STM32F10x_FWLib/src/stm32f10x_can.c:589-635 | over every run that does not reuse the mailbox, a sent frame is reported as sent if and only if no mailbox was cancelled and its flags were not cleared |
| CanMailboxes.CancelHidesSuccess | FWLIB/STM32F10x_FWLib/src/stm32f10x_can.c:649-660 | a run in which cancelling the second mailbox makes the sent frame of the first be reported as failed |
| CanMailboxes.NoLossWithoutCancel | FWLIB/STM32F10x_FWLib/src/stm32f10x_can.c:643-660 | with automatic retransmission no frame is given up over any run without a cancel |
| CanController.Can.Transmit | FWLIB/STM32F10x_FWLib/src/stm32f10x_can.c:515-578 | with the hardware acting before every register access, the call takes the old state to the new one by hardware steps, then one event, then hardware steps: the transmit of the frame of the message in a mailbox that is empty at that moment, or a refusal; the mailbox is the first that its own read found empty; in every other mailbox only the hardware changes anything, and when the frame is refused nothing is written; every field of the message ends up where the mailbox registers have it |
| CanController.Can.TransmitStatus | FWLIB/STM32F10x_FWLib/src/stm32f10x_can.c:589-635 | the code read from the register is 2 for a waiting message, 1 for a sent one whose flags are shown, and 0 otherwise |
| CanController.Can.CancelTransmit | FWLIB/STM32F10x_FWLib/src/stm32f10x_can.c:643-660 | the read-modify-write, with the hardware acting in between, is hardware steps, one cancel at the moment of the read, and hardware steps; no mailbox is written |
| CanController.Can.ClearRequestCompleted | FWLIB/STM32F10x_FWLib/src/stm32f10x_can.c:1143-1180 | clearing the request-completed flag of a mailbox is one clear of the protocol: the completion flags of that mailbox only |
| CanController.Can.Hardware | FWLIB/STM32F10x_FWLib/src/stm32f10x_can.c:515-635 | whatever the hardware does, registers and protocol state stay in agreement, and an empty mailbox is not touched |
| CanController.CancelCommutes | FWLIB/STM32F10x_FWLib/src/stm32f10x_can.c:643-660 | a cancel that takes effect at the read and the hardware steps up to the write can be reordered |
| CanMailboxes.BusBounded | FWLIB/STM32F10x_FWLib/src/stm32f10x_can.c:515-578 | over every run a frame is sent or given up at most as often as it was transmitted, beyond what was accepted before |
| CanController.SentFrameIsReceived | FWLIB/STM32F10x_FWLib/src/stm32f10x_can.c:515-711 | after every run of calls and hardware steps, a frame that went over the bus and is taken from a receive mailbox is one that the driver transmitted in that run, and is read as its message if and only if the identifier fits |
| CanReceiver.Receiver.Receive | FWLIB/STM32F10x_FWLib/src/stm32f10x_can.c:671-711 | copies the head of the chosen FIFO, each field from where the mailbox registers have it, keeps the identifier field of the other kind, and releases that FIFO only, by writing back what it read with the release bit set, whatever the hardware did before the read and before the write |
| CanReceiver.ReleaseHides | FWLIB/STM32F10x_FWLib/src/stm32f10x_can.c:700-711 | that write always releases, and leaves the overrun or the full flag set if and only if it was clear at the read and set by the time of the write |
| CanReceiver.ArrivedSets | FWLIB/STM32F10x_FWLib/src/stm32f10x_can.c:700-711 | the hardware may set the full and the overrun flag at any time and never takes them back |
| CanReceiver.ReceiveHidesOverrun | FWLIB/STM32F10x_FWLib/src/stm32f10x_can.c:700-711 | an overrun flag that was set is cleared by receiving a frame |
| CanFilter.WordsRoundTrip | FWLIB/STM32F10x_FWLib/src/stm32f10x_can.c:311-340 | the two words written for a bank read back as its configuration, in 16-bit and in 32-bit scale |
| CanFilter.RewrittenTable | FWLIB/STM32F10x_FWLib/src/stm32f10x_can.c:292-376 | rewriting the five shared registers and two words replaces one entry of the bank table and no other |
| CanFilter.LastConfigurationWins | FWLIB/STM32F10x_FWLib/src/stm32f10x_can.c:292-376 | after any run each bank does what it was last told, and a bank that was told nothing is as before |
| CanFilter.Filters.FilterInit | FWLIB/STM32F10x_FWLib/src/stm32f10x_can.c:292-376 | with registers writable only in initialisation mode, the call replaces the entry of its bank, with the mode, scale, FIFO and activation bits in FM1R, FS1R, FFA1R and FA1R and the identifiers and masks in their halves of the two words, and FINIT is clear on exit with the other bits of FMR kept |
| AdcSequencer.ExecutedView | FWLIB/STM32F10x_FWLib/src/stm32f10x_adc.c:590-677 | each call on the six registers is the call on the sequencer they hold |
| AdcSequencer.RunRefines | FWLIB/STM32F10x_FWLib/src/stm32f10x_adc.c:590-677 | the same for any run of the four calls: every rank, sample time, slot and length bit that is not addressed keeps its value |
| AdcSequencer.LastWriteWins | FWLIB/STM32F10x_FWLib/src/stm32f10x_adc.c:930-968 | over any run the sample-time table, shared by both sequences, holds the last value given for each channel, each regular rank its last channel, and the length the last number of channels |
| AdcSequencer.InjectedInAnyOrder | FWLIB/STM32F10x_FWLib/src/stm32f10x_adc.c:969-1010 | after the length is set, configuring the ranks in any order, among any regular calls, initialisations and further calls that set the same length, makes the converted part of the injected slots the requested channel list |
| AdcSequencer.LengthKept | FWLIB/STM32F10x_FWLib/src/stm32f10x_adc.c:969-1010 | over any run, the injected length is what the last length call made it, after every call, if and only if no call configures the rank just past the length in force with a channel that spells another length |
| AdcSequencer.LengthSurvives | FWLIB/STM32F10x_FWLib/src/stm32f10x_adc.c:969-983 | one injected call keeps the length if and only if its rank is not the one just past it, or the channel number spells the same length |
| AdcSequencer.LengthOverwritten | FWLIB/STM32F10x_FWLib/src/stm32f10x_adc.c:969-983 | rank 2 of a sequence of one, with channel 3, makes it four long |
| AdcSequencer.Adc.RegularChannelConfig | FWLIB/STM32F10x_FWLib/src/stm32f10x_adc.c:590-677 | sets the sample time and the rank of a channel and nothing else in the sequencer: three bits from 3 times the channel in SMPR2, or SMPR1 from channel 10, and five bits from 5 times the rank in SQR3, SQR2 or SQR1 |
| AdcSequencer.Adc.InjectedChannelConfig | FWLIB/STM32F10x_FWLib/src/stm32f10x_adc.c:918-983 | sets the sample time and fills the slot that the length held in the same word selects, five bits from 5 times (rank + 3 - length) |
| AdcSequencer.Adc.InjectedSequencerLengthConfig | FWLIB/STM32F10x_FWLib/src/stm32f10x_adc.c:993-1010 | sets the injected length and nothing else, in bits 20 and 21 of JSQR |
| AdcSequencer.Adc.Init | FWLIB/STM32F10x_FWLib/src/stm32f10x_adc.c:218-268 | after the call the mode is in bits 16 to 19 of CR1 and the scan bit 8 is set if and only if scanning is asked for; the alignment is in bit 11 and the trigger in bits 17 to 19 of CR2, and bit 1 is set if and only if continuous conversion is asked for; every other bit of both is kept; the number of regular channels is set |
| Gpio.Device.Init | FWLIB/STM32F10x_FWLib/src/stm32f10x_gpio.c:173-258 | for any mask, mode and old state, each selected pin has the CNF of the mode and the speed in its four bits of CRL or CRH, its output bit is set by a pull-up, cleared by a pull-down and kept otherwise, and every other pin is kept |
| Gpio.OneAtATime | FWLIB/STM32F10x_FWLib/src/stm32f10x_gpio.c:173-258 | one call on a set of pins equals calls on its pins one at a time, in any order and with any repetition |
| Gpio.DisjointCommute | FWLIB/STM32F10x_FWLib/src/stm32f10x_gpio.c:173-258 | calls on disjoint sets of pins commute |
| Gpio.OverlapCommutes | FWLIB/STM32F10x_FWLib/src/stm32f10x_gpio.c:173-258 | calls that share a pin commute if and only if they write the same field and do not pull in opposite directions |
| Gpio.LastCallWins | FWLIB/STM32F10x_FWLib/src/stm32f10x_gpio.c:173-258 | over any run each pin has the field of the last call that selects it and the pull of the last pulled-input call that does |
| Gpio.SameRegisters | FWLIB/STM32F10x_FWLib/src/stm32f10x_gpio.c:173-258 | the sixteen fields and output bits determine CRL, CRH and ODR, so the above hold of the register values |
| Gpio.CurrentModeIs | FWLIB/STM32F10x_FWLib/src/stm32f10x_gpio.c:184-190 | the low bits of the mode code, with the speed if bit 4 is set, are the field of the mode |
| Gpio.FieldIs | FWLIB/STM32F10x_FWLib/src/stm32f10x_gpio.c:184-190 | the field of a mode is its CNF above the speed, or above zero for an input |
| Exti.AlwaysSane | FWLIB/STM32F10x_FWLib/src/stm32f10x_exti.c:85-149 | over any run from reset no line is in both masks, and every line in one has an edge selected |
| Exti.OnExactlyWhenHeld | FWLIB/STM32F10x_FWLib/src/stm32f10x_exti.c:99-149 | over any run a line is on if and only if some enabling call still holds it, and then its mode and edges are that call's |
| Exti.DisableTurnsOff | FWLIB/STM32F10x_FWLib/src/stm32f10x_exti.c:142-148 | disabling turns a line off if and only if it was not on in the other mode |
| Exti.DisableMisses | FWLIB/STM32F10x_FWLib/src/stm32f10x_exti.c:142-148 | a line enabled for interrupts survives being disabled in event mode |
| Exti.ExecutedView | FWLIB/STM32F10x_FWLib/src/stm32f10x_exti.c:99-149 | a call on the registers is the call on the lines they hold |
| Exti.Device.Init | FWLIB/STM32F10x_FWLib/src/stm32f10x_exti.c:99-149 | the read-modify-writes through computed addresses change exactly the selected lines: enabling sets the bit in IMR or EMR by mode and clears it in the other, with RTSR and FTSR by trigger; disabling clears it in the register of the mode given |
| Exti.Device.DeInit | FWLIB/STM32F10x_FWLib/src/stm32f10x_exti.c:85-92 | reaches the reset state |
| NvicPriority.DecodeInvertsEncode | CORE/core_cm3.h:1634-1676 | for every grouping, decoding an encoded pair gives it back up to the bits the grouping leaves to each part |
| NvicPriority.EncodeInvertsDecode | CORE/core_cm3.h:1634-1676 | for every grouping, encoding a decoded priority gives it back |
| NvicPriority.EncodedOrder | CORE/core_cm3.h:1634-1647 | numeric order of encoded priorities is lexicographic order of the pairs that fit |
| NvicPriority.StoredLexicographic | CORE/core_cm3.h:1586-1592 | the same for the stored priority bytes |
| NvicPriority.SameByte | FWLIB/STM32F10x_FWLib/src/misc.c:121-132 | the byte NVIC_Init computes from AIRCR is the one NVIC_EncodePriority and NVIC_SetPriority give under the grouping read back, also for values too large for the group |
| NvicPriority.EncodedValue | CORE/core_cm3.h:1634-1647 | for operands that fit, groups 3 to 7 encode the level alone, twice, four times or eight times the level plus the subpriority, and the subpriority alone |
| NvicPriority.DistanceInRange | FWLIB/STM32F10x_FWLib/src/misc.c:96-124 | the shift distance is in range if and only if PRIGROUP is one of the five groups |
| NvicPriority.ReadStored | CORE/core_cm3.h:1586-1616 | a priority is read back cut to the implemented bits |
| NvicPriority.StoredPlace | CORE/core_cm3.h:1586-1592 | the stored priority is in the upper four bits of the byte |
| NvicController.EnabledByLastSwitch | CORE/core_cm3.h:1502-1518 | over any run an interrupt is enabled if and only if the last call to switch it enabled it, or none did and it was |
| NvicController.SetEnables | CORE/core_cm3.h:1502-1505 | setting bit irq & 31 of word irq >> 5 adds exactly that interrupt to the enabled set |
| NvicController.ClearDisables | CORE/core_cm3.h:1515-1518 | clearing it removes exactly that interrupt |
| NvicController.Controller.Init | FWLIB/STM32F10x_FWLib/src/misc.c:108-143 | enabling stores the encoded priority byte and adds the interrupt to the enabled set, leaving every other byte and interrupt; disabling only removes it |
| NvicController.Controller.EnableIRQ | CORE/core_cm3.h:1502-1505 | adds one interrupt to the set through the write-one register |
| NvicController.Controller.DisableIRQ | CORE/core_cm3.h:1515-1518 | removes one interrupt from the set through the write-one register |
| NvicController.Controller.SetPriority | CORE/core_cm3.h:1586-1592 | stores the byte of one interrupt in IP, or of one system handler in SHP at its number plus 12, and leaves every other |
| NvicController.Controller.GetPriority | CORE/core_cm3.h:1609-1616 | reads the implemented bits of the byte of an interrupt or system handler |
| NvicController.Controller.SetPriorityGrouping | CORE/core_cm3.h:1468-1492 | the key-protected write is read back as the low three bits of the grouping |
| NvicController.Controller.PriorityGroupConfig | FWLIB/STM32F10x_FWLib/src/misc.c:96-103 | the grouping read back is the configured one, and the shift of NVIC_Init is then defined |
| ClockTree.SysClockBound | USER/system_stm32f10x.c:306-405 | for every legal setting of the three lines, the computed clock never exceeds the exact one; it is exact, or short by less than the factor m, or less than m times (m2/p1 + 1) through PLL2 |
| ClockTree.CoreClockBound | USER/system_stm32f10x.c:406-412 | after the AHB prescaler it still never exceeds the exact frequency and loses less than one hertz more |
| ClockTree.NeverWraps | USER/system_stm32f10x.c:325-402 | no product of a legal setting wraps 32 bits |
| ClockTree.WrapsOutsideLegal | USER/system_stm32f10x.c:393-402 | a setting outside the legal codes whose product does wrap |
| ClockTree.TwoDivisions | USER/system_stm32f10x.c:393-402 | the loss of two integer divisions with a factor in between, for all operands |
| ClockTree.AhbIsDivision | USER/system_stm32f10x.c:167 | the shift table is exact floor division by the named divisor |
| ClockFields.ReachesTarget | USER/system_stm32f10x.c:987-1080 | a PLL configured for a target gives its frequency if and only if no AHB divisor is in effect and, on the value line, nothing is left in the upper bits of PREDIV1 |
| ClockFields.LeftReaches | USER/system_stm32f10x.c:579-1080 | what a setter leaves behind gives its frequency if and only if: with every PLL off, no AHB divisor was set and PREDIV1 was below two on the value line; with the PLL on, the PLL as it is set gives it, fed by PLL2 as the setter sets that up if it was off; with only PLL2 or PLL3 on, PLL2 as it is set gives the input of the target times the AHB divisor |
| ClockFields.AlreadySet | USER/system_stm32f10x.c:579-1080 | with the PLL on and its fields already those of the target, the setter reaches it if and only if no AHB divisor is set and, on the value line, PREDIV1 divides by two |
| ClockFields.LockedKeepsPll | FWLIB/STM32F10x_FWLib/src/stm32f10x_rcc.c:361-391 | with the PLL on, a setter leaves it running as it is set, on all three lines, if a PLL2 that feeds it is on too |
| ClockFields.SetterIgnored | FWLIB/STM32F10x_FWLib/src/stm32f10x_rcc.c:361-391 | a device that runs at 48 MHz and is told to run at 72 MHz stays at 48 MHz |
| ClockFields.BusBitsFor | USER/system_stm32f10x.c:1012-1028 | with the bus prescalers of each target the core and APB2 are undivided, and the divisor of APB1 is the least that keeps it within 36 MHz |
| ClockFields.FlashWrittenFor | USER/system_stm32f10x.c:1012-1020 | the flash gets a wait state for every 24 MHz beyond the first and no more, with the prefetch buffer on and every other bit kept |
| ClockFields.ApbPowers | USER/system_stm32f10x.c:1012-1028 | the codes of an APB prescaler divide by one, or by two, four, eight and sixteen |
| ClockFields.ApbPlaces | USER/system_stm32f10x.c:1018-1028 | the codes of APB1 and APB2 are bits 8 to 10 and 11 to 13 of CFGR |
| ClockFields.FieldPlaces | USER/system_stm32f10x.c:325-410 | SWS, HPRE, PLLSRC, PLLXTPRE and PLLMUL are read from the bits of CFGR that the reference manual gives them |
| ClockFields.DividerPlaces | USER/system_stm32f10x.c:360-402 | PREDIV1, PREDIV2, PLL2MUL and PREDIV1SRC likewise in CFGR2 |
| ClockFields.StandardExamples | USER/system_stm32f10x.c:306-412 | register values and their clock: 64 MHz from the internal oscillator, the crystal halved and doubled, the crystal, and behind an AHB divisor |
| ClockFields.ValueLineExample | USER/system_stm32f10x.c:341-356 | a register value of the value line and its clock: the crystal divided by three, times six |
| ClockFields.ConnectivityExamples | USER/system_stm32f10x.c:325-402 | register values and their clock: the crystal, factor 13 read as six, and PLL2 |
| ClockSetup.Rcc.WaitForHse | USER/system_stm32f10x.c:995-1009 | for every behaviour of the crystal the wait ends within its bound, at the first ready read or the timeout; the answer is the flag read once more, which is what `Starts` says of that behaviour |
| ClockSetup.SteadyCrystal | USER/system_stm32f10x.c:995-1009 | a crystal that stays ready once it is starts if and only if it is ready by the end of the timeout |
| ClockSetup.Rcc.SetSysClock | USER/system_stm32f10x.c:579-1080 | from any register state: it succeeds if and only if the crystal starts, and then the clock is the one that its writes can leave under the locks of the PLLs, which is the target if and only if the condition of ClockFields.LeftReaches holds before the call; the flash has the least wait states for the target, APB1 the least divisor if no prescaler was set before; the PLLs are on and ready, also on a device on which they were ready before; if the crystal fails nothing is switched or written |
| ClockSetup.Rcc.SelectPll | USER/system_stm32f10x.c:1066-1074 | the switch to the PLL, which is required to come after the PLL is ready and the flash has its wait states, changes the switch fields only |
| ClockSetup.Rcc.SystemInit | USER/system_stm32f10x.c:212-269 | from any register state, on all three lines and for all five variants, whenever the hardware switches back to the internal oscillator: if the crystal starts the core runs at the target, with the core and APB2 undivided, APB1 as fast as 36 MHz allow and the least wait states, or, if the PLL still drove the system clock when it was turned off, at the clock of that PLL, undivided, with a PLL2 that could be turned off set up anew; if it does not start, at 8 MHz once switched back, and else at the system clock from before, undivided; SystemCoreClock is not updated, so after reset the advertised value is right if and only if the crystal starts |
| ClockSetup.Rcc.SystemCoreClockUpdate | USER/system_stm32f10x.c:306-412 | SystemCoreClock becomes the core clock of the decoded fields |
| ClockSetup.Rcc.InitThenUpdate | USER/system_stm32f10x.c:212-412 | reset, configuration and read-back together give the frequency the core runs at: after reset the target if the crystal starts, and 8 MHz if not |
| UdpFrame.CopyChain | readme.md:363-378 | for every chain of payloads the buffer ends as the first 2000 bytes of their concatenation padded with zeros, with every copy in bounds and the space left never negative |
| UdpFrame.Judge | readme.md:402-415 | returns the position behind the first header among the first fifteen positions, and zero if and only if there is none |
| UdpFrame.FrameFound | readme.md:402-415 | a frame behind a prefix is found where it starts if and only if the prefix is shorter than fifteen bytes and holds no header itself |
| UdpFrame.ParserUndoesPrinter | readme.md:417-438 | behind every such prefix the parser restores the printed command from the receive buffer, for every value of every byte |
| UdpFrame.FrameExample | readme.md:402-438 | one frame byte by byte, header included, and its command |
| UdpFrame.NoOverlap | readme.md:402-415 | two occurrences of the header cannot overlap |
| UdpFrame.FrameTooLate | readme.md:402-415 | without a header among the first fifteen positions the command in force is kept |
| UdpServer.Server.ReadRecv | readme.md:417-438 | the command becomes the one behind the first header, or stays |
| UdpServer.Server.SetSendBuf | readme.md:536-555 | with the interrupt free to come before each access, the buffer ends as the frame of the reply, whose fields are taken one by one from the command then in force, and of the data |
| UdpServer.Server.MessageProcessing | readme.md:440-482 | LED i is on if and only if its byte is '1'; with humi[0] at 1 and the latch set, "11" starts motor 1 forward and "10" backward and spends the latch; humi[0] at another value stops it; "01" starts motor 2 and "00" stops it; nothing else happens |
| UdpServer.Server.Recv | readme.md:363-396 | a datagram, or its absence, is one step of the server, whatever its fragmentation |
| UdpServer.Server.Interrupts | readme.md:363-396 | any number of callbacks is the run of their steps |
| UdpServer.Server.PollOnce | readme.md:328-344 | a polling iteration, with any callbacks before each of its accesses, is the run of the accesses of the loop and of these callbacks: the test alone when nothing waits, four accesses when no packet buffer can be had, otherwise eleven, among them the load and the store of the flag; after eleven the buffer holds the frame of the reply, otherwise it is untouched |
| UdpMotor.StartsExactlyWhen | readme.md:440-482 | motor 1 starts at most once per datagram, and exactly when the latch is set and the command in force asks for it; no access of the loop starts it |
| UdpMotor.StartsBoundedByRearms | readme.md:328-344 | over any run, with callbacks anywhere inside the iterations of the loop, starts plus the latch are at most re-arms plus the initial latch |
| UdpMotor.RearmsBoundedByDatagrams | readme.md:328-344 | over any such run every re-arm uses up a datagram |
| UdpMotor.StartsBoundedByDatagrams | readme.md:363-396 | over any such run there are at most as many starts as datagrams, beyond what was armed or due at the beginning |
| UdpMotor.OneStartBetweenAccesses | readme.md:440-482 | however many datagrams arrive between two accesses of the loop, there is at most one start |
| UdpMotor.MarkExactly | readme.md:336-341 | over any run a datagram waits to be seen if and only if one landed while the loop was at its test, or waited before, and the loop has made no access since |
| UdpMotor.ConnectedExactly | readme.md:381-395 | over any run the connection counts as up if and only if it was and no disconnect landed outside the window between a load of the loop and its store |
| UdpMotor.OtherBitsUntouched | readme.md:381-395 | over any run no bit of the flag other than these two changes |
| UdpMotor.ArmedStep | readme.md:336-341 | a step leaves the latch set while nothing waits if and only if it is not a datagram that asks for a start between the arming and the store |
| UdpMotor.ArmedUnlessStartInWindow | readme.md:328-344 | over any run without such a datagram motor 1 is ready whenever nothing waits |
| UdpMotor.EndOfIteration | readme.md:336-341 | for callbacks before the load and between load and store: the mark is gone in any case, the latch is left set if and only if none of them asks for a start, and the connection is dropped if and only if a disconnect came before the load |
| UdpMotor.QuietPoll | readme.md:336-341 | without an interrupt, and with a packet buffer, the iteration is one step: reply with the command, arm, clear the mark |
| UdpMotor.QuietSkip | readme.md:493-509 | without a packet buffer the loop arms and clears the mark all the same, and makes no reply |
| UdpMotor.ReplyTakes | readme.md:536-555 | over every run that completes a reply, with any callbacks before each of its accesses, each field of the reply is that of the command in force when it was copied |
| UdpMotor.ReplyMixed | readme.md:536-555 | callbacks that all land after j fields of the reply leave these fields of the old command and the others of the new one |
| UdpMotor.ReplyWholeExactly | readme.md:536-555 | over every run that makes a reply, it is the reply of a command if and only if every field was copied while it had that command's value |
| UdpMotor.ReplyOfThree | readme.md:536-555 | two commands that arrive one field apart leave a reply with fields of three |
| UdpMotor.LostMark | readme.md:328-482 | a start command that lands between arming and store is carried out, then nothing waits, the latch is spent and the next start command is ignored |
| UdpMotor.LostDisconnect | readme.md:328-396 | a disconnect between load and store is undone |
| UdpMotor.FrameObeyed | readme.md:417-482 | a frame behind any short prefix without a header is obeyed |
| UdpMotor.GarbageReplays | readme.md:417-482 | a datagram without a header repeats the command in force, starting motor 1 if and only if it asks and the latch is set |
| UdpMotor.ReplayStartsAgain | readme.md:328-482 | one command, a poll and an empty datagram start motor 1 twice |

## Left out

- CAN_OperatingModeRequest and CAN_Init: bounded waits for a mode; the mailbox model needs no mode beyond the NART setting, which is a parameter of `CanController.Can`.
- CAN arbitration and the timing of the bus: the hardware completes pending mailboxes in any order, which allows every order a priority scheme would choose.
- CanReceiver.Receiver.Receive: the FIFO behind the head mailbox is not modelled; the head is whatever the bus delivered, and the hardware may set the full and overrun flags at any time.
- CanFilter.Filters.FilterInit: the start bank split between CAN1 and CAN2, and the matching of identifiers against banks.
- ADC calibration, conversion and the analog watchdog: thin register writes, or behaviour of the hardware.
- GPIO remapping, EXTI source selection and locking: single writes, or a shift whose distance exceeds the word.
- NvicController.Controller.Init: a shift by a negative distance, which C leaves undefined, is excluded by the precondition on AIRCR; an interrupt number past the 240 priority bytes is excluded too.
- ClockTree.SysClockBound: the factor 6.5 of the connectivity line (cut to 6), PLL2 factor 20 and multiplier code 15 of the other lines are not values the integer formula represents and are excluded by `Legal`.
- ClockSetup.Rcc.SystemInit: the clock interrupt register, external memory setup and the vector table are not modelled; a wait for a PLL or for the switch ends after a number of polls that is a parameter; a PLL that is turned off stops being ready at once; the clock security system is off.
- ClockSetup.Rcc.SetSysClock: SetSysClockToHSE, which runs on the crystal without a PLL, is not modelled; PLL3 has no configuration of its own, it only locks PREDIV2.
- UdpServer.Server.PollOnce: sending the reply, which measures it as a string, and a failure to allocate the send buffer itself are not modelled; neither are the replies to key presses, the sensor readout and its digits (setdata), the remote address and printing. The data digits of the reply are a parameter.
- UdpServer.Server.Recv: opening the connection and its `|=` of bit 5, which has the same window as the loop's `&=`, and closing it are not modelled.
- lwIP, the ENC28J60 driver and DHCP: a packet buffer chain is a list of byte sequences with 16-bit lengths.
- The block allocator (mymalloc, myfree): buffers of the command server are taken as given.
- Sleep and power modes, DMA, timers, serial ports, the display and the other peripheral drivers: thin register writes.
