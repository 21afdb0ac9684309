# Verified model of the SA-02m bridge and cloud-binding core

This project models, in Dafny 4.11, the parts of the SA-02m controller software that decide something:
the template poll engine of the Modbus to MQTT bridge, its serial and TCP transports, its Fast Modbus
event parser, its write path, its port scheduler, the reset of the cloud binding, and the installer's
guard. `dafny verify dfyconfig.toml` checks all of it.

| file | what it models |
|---|---|
| `Base.dfy` | `Option`, `byte`, and arithmetic every component needs |
| `BlockPlan.dfy`, `ReadPlan.dfy` | the planner that merges template channels into block reads, and why no plan is shorter |
| `PollEngine.dfy` | one pass of the poll engine as a function of the poller's state and the device |
| `TemplatePoller.dfy` | the same pass as the object that updates its fields, proved equal to that function |
| `PollInvariants.dfy`, `PollPublish.dfy` | what every run keeps, for any plan and any device |
| `Silence.dfy` | silence and return, for any plan |
| `SinglePlan.dfy`, `ReturningDevice.dfy`, `ProbeRotation.dfy`, `LiveDevice.dfy` | single-channel plans: probing, return, and live devices with broken channels |
| `RefusedBlocks.dfy` | devices that refuse blocks but serve single reads |
| `SerialRead.dfy` | reply decoding and reads cut again by the serial port |
| `Crc16.dfy` | the Modbus CRC and what its check is worth |
| `EventWire.dfy`, `EventMask.dfy` | the two event grammars on one wire; the configure reply's mask |
| `TcpClient.dfy` | request and reply matching on a reused socket |
| `TemplateWrite.dfy`, `WriteEcho.dfy`, `WriteQueue.dfy` | a write's raw value, its echo against older polls, its queue |
| `PortCycle.dfy` | event bursts against classic polling on one port |
| `Refusals.dfy`, `JournalCursor.dfy`, `StandDown.dfy` | when the board erases its cloud binding, and that it never counts evidence twice |
| `InstallBoard.dfy`, `InstallGuard.dfy` | the installer's journal around stopping and restoring services |

## How the environment is modelled

- A Modbus device is a register memory and a set of requests it answers, both free to change from one
  request to the next (`PollEngine.Device`); theorems that need more say so (`Steady`, `Serves`,
  `Silent`, `Answering`, `Responsive`).
- The TCP peer answers each request at most once, in whatever segments and after whatever delays; its
  answer is one frame. The local send may fail after the bytes have left. Every connection, send, piece
  received, end and timeout is written to a record (`TcpClient.Wire`), and the promises about resending
  are about that record.
- journalctl, the cursor file and the clock are a per-tick `Luck` value; journal lines are written, the
  process is restarted and the board rebooted in any order. Only the last refusal marker of a line
  matters, so a line carries at most one class.
- systemctl and the file system may fail at any call, or succeed and do something else. On a board with
  working `services` commands do what their verb says; a start behind an unmet condition succeeds and
  starts nothing, a start of a masked unit is refused. The storage of the journal works, is broken, or
  may do either.
- Clock readings are nondecreasing reals, and sections the code runs under one lock are atomic.

## Where the code differs from its documentation

- The module comment of the poll engine (opt/sa02m-modbus-mqtt/bridge_template.py:46-60) says that a live
  device with broken channels reads every channel every pass. That is false for the second pass of
  exactly one family: the first unit is broken and at least `offline_after_fails` units fail after the
  last one that answers. The failure count of the first pass is carried into the second, which then
  stops after one request. `LiveDevice.LiveDevicePasses` gives the exact condition,
  `LiveDevice.PromiseFails` a concrete device.
- That no value is lost to a refused block (opt/sa02m-modbus-mqtt/bridge_template.py:605-607) holds for a
  device that serves single reads exactly when the threshold is at least 2 or it refuses no block
  (`RefusedBlocks.LosslessIff`).
- The grace period of a write's echo ends early once a poll has shown the written value
  (`WriteEcho.GraceCanEndEarly`; the exact condition is `WriteEcho.EarlyIff`). That older data never
  overtakes the echo does hold, and needs a single poll thread (`WriteEcho.OneThreadIsNeeded`).
- The reboot rule (opt/sa02m-modbus-mqtt/bridge_fmb.py:460-477) is sound for the frames its comment speaks
  of; it does not make the grammars unambiguous. WB frames are read back under any cached generation
  (`EventWire.WbReadBackUnderAnyCache`), legacy frames exactly when the WB grammar rejects them; a single legacy COIL record at 0x0F00..0x0FFF is the one single record that is misread
  (`EventWire.SingleRecordReadBackIff`).
- That nothing counted is read again after a cursor is dropped
  (opt/sa02m-cloud-agent/binding_core.py:401-402), or after a restart, needs the second of the count to
  be over: a counted line can be shown again exactly if it was written in the
  second of the refusal or restart and the next read finds no cursor (`JournalCursor.ShownAgainIff`).
  For refused cursors the 60 s watchdog period discharges this (`JournalCursor.PacedIsLegal`); what is
  left is a loop entered again, or a process restarted, within the second of a count
  (`JournalCursor.QuickRestartCountsTwice`).
- The write queue moves a resubmitted key to its back, so a storm on two keys can starve one of them
  for as long as it lasts (`WriteQueue.ResubmittingCanStarve`).
- When saving the installer's journal fails, closing the guard still issues service commands. On
  working services every step of such a run is safe from a crash exactly when no unit was running
  masked: its restart unmasks it for a moment (`InstallGuard.Session`, and a run that shows it,
  `InstallGuard.FailedSaveIsNotCovered`).
- A marker that cannot be written after a successful wipe raises: every binding file is gone, the card
  keeps its old status and nothing is left pending (`StandDown.ErasedMeansGone`).

## Model

| member | source | states |
|---|---|---|
| `BlockPlan.JoinTest` | opt/sa02m-modbus-mqtt/bridge_template.py:175-180 | the planner's two comparisons decide exactly whether the next channel may join a block under cap and hole |
| `BlockPlan.StaysAhead` | opt/sa02m-modbus-mqtt/bridge_template.py:153-190 | each cut of the greedy plan lies at or beyond the same cut of any valid plan |
| `BlockPlan.ForcedPlanIsShortest` | opt/sa02m-modbus-mqtt/bridge_template.py:153-190 | no valid plan of one register type has fewer requests than one whose every cut was forced |
| `ReadPlan.PlanType` | opt/sa02m-modbus-mqtt/bridge_template.py:173-188 | the planning loop of one type yields a valid plan in which every cut is forced |
| `ReadPlan.PlanOneType` | opt/sa02m-modbus-mqtt/bridge_template.py:153-190 | each channel of a type exactly once, every unit within the protocol and template caps, fewest requests |
| `ReadPlan.PlanSingles` | opt/sa02m-modbus-mqtt/bridge_template.py:153-164 | with grouping off, one unit per channel in template order |
| `ReadPlan.PlanBlocks` | opt/sa02m-modbus-mqtt/bridge_template.py:153-190 | with grouping on, a partition sorted by first channel, fewest requests per type |
| `ReadPlan.BuildReadUnits` | opt/sa02m-modbus-mqtt/bridge_template.py:153-190 | units partition the channels, share one type, stay within 125 registers or 2000 bits, and no cutting of the four sorted lists under the same limits needs fewer requests |
| `TemplatePoller.Poller.constructor` | opt/sa02m-modbus-mqtt/bridge_template.py:244-275 | a new poller has no memory of any unit and no failure on its count |
| `TemplatePoller.Poller.NoteRead` | opt/sa02m-modbus-mqtt/bridge_template.py:519-528 | an answer clears the count and the probe; a failure counts unless its unit was known broken |
| `TemplatePoller.Poller.MayStop` | opt/sa02m-modbus-mqtt/bridge_template.py:566-572 | true exactly when this is not the first pass and the fresh failures have reached the threshold |
| `TemplatePoller.Poller.PollSingle` | opt/sa02m-modbus-mqtt/bridge_template.py:652-665 | one channel is published or flagged, and its outcome noted |
| `TemplatePoller.Poller.CloseSweep` | opt/sa02m-modbus-mqtt/bridge_template.py:643-649 | a finished sweep counts toward the split if it read anything, and resets the count if not |
| `TemplatePoller.Poller.SweepSingles` | opt/sa02m-modbus-mqtt/bridge_template.py:623-650 | the sweep, its stall and its resumption are those of the engine function |
| `TemplatePoller.Poller.PublishBlock` | opt/sa02m-modbus-mqtt/bridge_template.py:616-618 | every channel of an answered block gets its own slice |
| `TemplatePoller.Poller.PollUnit` | opt/sa02m-modbus-mqtt/bridge_template.py:590-621 | block, single or resumed sweep, as the engine function says |
| `TemplatePoller.Poller.SplitUnits` | opt/sa02m-modbus-mqtt/bridge_template.py:574-588 | each block to split is replaced by its channels' single reads |
| `TemplatePoller.Poller.FlagRest` | opt/sa02m-modbus-mqtt/bridge_template.py:676-678 | every channel of the skipped units is flagged stale |
| `TemplatePoller.Poller.PollOrder` | opt/sa02m-modbus-mqtt/bridge_template.py:488-508 | the loop of a pass, with its stop and next probe |
| `TemplatePoller.Poller.ClosePass` | opt/sa02m-modbus-mqtt/bridge_template.py:509-517 | failures in an answered pass mark their units broken, then the splits are made |
| `TemplatePoller.Poller.PollIo` | opt/sa02m-modbus-mqtt/bridge_template.py:481-517 | one call moves the object exactly as `PollEngine.Pass` moves its state, so every run theorem is about it |
| `TemplatePoller.RunPolls` | opt/sa02m-modbus-mqtt/bridge_template.py:481-517 | any sequence of calls, due or not, leaves the object in the state of as many engine passes as were due |
| `TemplatePoller.PlanTemplate` | opt/sa02m-modbus-mqtt/bridge_template.py:153-190 | what the planner builds is, on any device, a plan as the run theorems ask for |
| `TemplatePoller.RunDevice` | opt/sa02m-modbus-mqtt/bridge_template.py:153-190 | from a template through its plan to any number of calls: every run theorem about a fresh plan is about the poller that follows |
| `PollInvariants.RunInv` | opt/sa02m-modbus-mqtt/bridge_template.py:481-650 | every state of every run, any plan, any device: the units partition the template, sweeps are pending only inside blocks, probing implies the threshold was reached |
| `PollInvariants.SilentPassAsksOnce` | opt/sa02m-modbus-mqtt/bridge_template.py:481-517 | a pass over a probed device that stays silent issues exactly one request (block, single or sweep step) and stays probing |
| `PollPublish.SliceIsSingleRead` | opt/sa02m-modbus-mqtt/bridge_template.py:590-621 | a channel's slice of a block is its own single read, for any memory |
| `PollPublish.RunPublishesHonestly` | opt/sa02m-modbus-mqtt/bridge_template.py:590-665 | in every pass of every run each published value is what reading that channel alone would have returned |
| `PollPublish.RunTouchesEveryChannel` | opt/sa02m-modbus-mqtt/bridge_template.py:481-650 | every pass publishes or flags each channel exactly once, except those a pending sweep has behind it |
| `SinglePlan.NextProbeAlive` | opt/sa02m-modbus-mqtt/bridge_template.py:548-564 | after a failed probe the next one is a unit that answered when last read, if there is any |
| `SinglePlan.SingleRunInv` | opt/sa02m-modbus-mqtt/bridge_template.py:481-572 | single-channel plans keep their units and a probe that answered, in every reachable state |
| `SinglePlan.ProbeIsNeverBroken` | opt/sa02m-modbus-mqtt/bridge_template.py:530-564 | once any pass was answered, some unit is always marked answering and the probe is one of them |
| `ReturningDevice.ReturningDeviceIsReadInFull` | opt/sa02m-modbus-mqtt/bridge_template.py:481-572 | single-channel plans: the first window in which all units not marked broken answer reads every unit exactly once and ends with the failure count at 0 |
| `Silence.SilenceIsNoticed` | opt/sa02m-modbus-mqtt/bridge_template.py:481-650 | any plan, any reachable state, blocks and pending sweeps included: a lasting silence is noticed within threshold + 1 passes, and each later pass costs one request |
| `Silence.RunIsHopeful` | opt/sa02m-modbus-mqtt/bridge_template.py:509-572 | in every reachable state of any plan some unit is not known broken or the count has reached the threshold |
| `Silence.AnsweredPassIsComplete` | opt/sa02m-modbus-mqtt/bridge_template.py:481-650 | any plan, any reachable state: a pass in which every request is answered asks every unit, publishes every channel no pending sweep had behind it, flags none, and leaves no sweep, no count and no probe |
| `ProbeRotation.ProbeMovesOn` | opt/sa02m-modbus-mqtt/bridge_template.py:548-564 | a silent pass moves the probe to the nearest unit, going round, that answered when last read, or to simply the next while none ever has |
| `ProbeRotation.EveryLiveUnitIsProbed` | opt/sa02m-modbus-mqtt/bridge_template.py:53-58 | during a lasting silence each such unit is, within as many passes as there are units, the one a whole pass is spent on |
| `LiveDevice.CalmPass` | opt/sa02m-modbus-mqtt/bridge_template.py:481-572 | with right marks a pass is complete unless a carried-over count and a broken first unit stop it after one request |
| `LiveDevice.LiveDevicePasses` | opt/sa02m-modbus-mqtt/bridge_template.py:46-60 | every pass over a live device is complete, except exactly the second pass of the family named above |
| `LiveDevice.PromiseFails` | opt/sa02m-modbus-mqtt/bridge_template.py:46-60 | five coils, one answering, threshold 3: the second pass is cut short |
| `LiveDevice.BuiltPlanFails` | opt/sa02m-modbus-mqtt/bridge_template.py:46-60 | the same with the plan the planner builds for that template |
| `RefusedBlocks.NoValueIsLost` | opt/sa02m-modbus-mqtt/bridge_template.py:574-650 | threshold at least 2, or no block refused: every pass publishes every channel once and flags none, and no refused block is left after two passes |
| `RefusedBlocks.ThresholdOneLosesValues` | opt/sa02m-modbus-mqtt/bridge_template.py:574-650 | threshold 1: the second pass flags channels whenever the plan holds a refused block |
| `RefusedBlocks.LosslessIff` | opt/sa02m-modbus-mqtt/bridge_template.py:574-650 | over all thresholds the code allows, no value is ever lost exactly when the threshold is at least 2 or nothing is refused |
| `SerialRead.WordsRoundTrip` | opt/sa02m-modbus-mqtt/bridge_serial.py:309-311 | decoding a register reply returns the registers it was made from |
| `SerialRead.BitsRoundTrip` | opt/sa02m-modbus-mqtt/bridge_serial.py:304-306 | decoding a bit reply returns the bits it was made from |
| `SerialRead.FifoSafeReadRegs` | opt/sa02m-modbus-mqtt/bridge_serial.py:117-131 | the cap is between 2 and 125; on a fast built-in UART the whole reply fits the receive FIFO with room to spare |
| `SerialRead.ReadWords` | opt/sa02m-modbus-mqtt/bridge_serial.py:568-584 | a read in pieces succeeds exactly when every piece is answered, and returns what one read would |
| `SerialRead.ReadBlock` | opt/sa02m-modbus-mqtt/bridge_template.py:597-620 | a block cut again by the port still gives each channel what reading it alone gives |
| `Crc16.ComputeCrc` | opt/sa02m-modbus-mqtt/bridge_serial.py:181-188 | the two nested loops compute the register function |
| `Crc16.AppendCrc` | opt/sa02m-modbus-mqtt/bridge_serial.py:191-194 | a frame with its CRC appended is accepted and has residue 0 |
| `Crc16.ResidueIffAccepted` | opt/sa02m-modbus-mqtt/bridge_serial.py:535-536 | the receiver's comparison accepts a frame exactly when the CRC of all its bytes is 0 |
| `Crc16.BurstChangesCrc` | opt/sa02m-modbus-mqtt/bridge_serial.py:181-188 | equal-length strings differing only within two neighbouring bytes have different CRCs |
| `Crc16.CorruptionIsRejected` | opt/sa02m-modbus-mqtt/bridge_serial.py:521-540 | an accepted frame corrupted within two neighbouring bytes, trailer included, is rejected |
| `EventWire.EventParser.SetDefault` | opt/sa02m-modbus-mqtt/bridge_fmb.py:446-489 | an unknown generation is filled in, a known one kept, other slaves untouched |
| `EventWire.EventParser.ParseEventRecords` | opt/sa02m-modbus-mqtt/bridge_fmb.py:446-489 | the reboot rule and the attempt order, with the cache it leaves |
| `EventWire.ParseEventsWb` | opt/sa02m-modbus-mqtt/bridge_fmb.py:491-518 | the loop accepts exactly the WB grammar over exactly the given bytes |
| `EventWire.ParseEventsLegacy` | opt/sa02m-modbus-mqtt/bridge_fmb.py:520-545 | the loop accepts exactly the legacy grammar |
| `EventWire.WbInverts` | opt/sa02m-modbus-mqtt/bridge_fmb.py:491-518 | every list of events survives the WB wire |
| `EventWire.LegacyInverts` | opt/sa02m-modbus-mqtt/bridge_fmb.py:520-545 | every list of events survives the legacy wire |
| `EventWire.WbOnly` | opt/sa02m-modbus-mqtt/bridge_fmb.py:491-518 | the WB parser accepts nothing but the frame of the events it returns |
| `EventWire.WbNeverLegacy` | opt/sa02m-modbus-mqtt/bridge_fmb.py:446-489 | a nonempty WB frame without a reboot never parses as legacy |
| `EventWire.WbReadBackUnderAnyCache` | opt/sa02m-modbus-mqtt/bridge_fmb.py:446-489 | every WB frame is read back whatever generation is cached |
| `EventWire.LegacyReadBackIff` | opt/sa02m-modbus-mqtt/bridge_fmb.py:446-489 | a nonempty legacy frame is read back, under any cache, exactly when the WB grammar rejects it |
| `EventWire.LegacyBelowLimitReadBack` | opt/sa02m-modbus-mqtt/bridge_fmb.py:446-489 | a legacy frame whose first record is a reboot or below its type's register limit is read back under any cache |
| `EventWire.SingleRecordReadBackIff` | opt/sa02m-modbus-mqtt/bridge_fmb.py:446-489 | the one family of single legacy records that is misread |
| `EventWire.SlaveIsReadBack` | opt/sa02m-modbus-mqtt/bridge_fmb.py:446-489 | over any number of frames of one slave each is read back; a known generation is never overwritten, an unknown slave is learned for what it is |
| `EventMask.ReplyMask` | opt/sa02m-modbus-mqtt/bridge_fmb.py:75-90 | the mask of the first CRC-valid reply, or none if there is none |
| `EventMask.FirstMaskUnique` | opt/sa02m-modbus-mqtt/bridge_fmb.py:75-90 | that description determines the mask |
| `EventMask.NoiseNeverHidesReply` | opt/sa02m-modbus-mqtt/bridge_fmb.py:75-90 | bytes other than the slave address in front of a good reply never hide it, whatever follows it |
| `EventMask.ExpectedMask` | opt/sa02m-modbus-mqtt/bridge_fmb.py:93-102 | a byte per eight registers of each range, low bits first, padding clear |
| `EventMask.CompareMask` | opt/sa02m-modbus-mqtt/bridge_fmb.py:105-120 | the loop compares exactly the bits in use |
| `EventMask.BytesOkIffAgrees` | opt/sa02m-modbus-mqtt/bridge_fmb.py:105-120 | comparing used bits byte by byte is comparing register by register |
| `EventMask.ReplyConfirms` | opt/sa02m-modbus-mqtt/bridge_fmb.py:105-120 | true exactly when the first reply's mask has the right length and says of every requested register what was asked |
| `EventMask.PaddingIgnored` | opt/sa02m-modbus-mqtt/bridge_fmb.py:105-120 | masks equal on the registers confirm alike |
| `TcpClient.RecvExact` | opt/sa02m-modbus-mqtt/bridge_tcp.py:63-90 | exactly n bytes over any segments; on the record, an early end is one before any byte of the reply, a timeout is time running out, and nothing is sent |
| `TcpClient.Exchange` | opt/sa02m-modbus-mqtt/bridge_tcp.py:270-305 | one send and no other; the outcome says what the record shows: closed with no byte, time ran out, cut or unreadable, or a whole frame, which on a quiet connection is the whole answer to this request |
| `TcpClient.Outcomes` | opt/sa02m-modbus-mqtt/bridge_tcp.py:281-305 | the outcomes of an exchange are told apart by the record alone |
| `TcpClient.WholeFrameTaken` | opt/sa02m-modbus-mqtt/bridge_tcp.py:276-280 | the header and the bytes its length field names use the answer up |
| `TcpClient.Client.ConnectFailed` | opt/sa02m-modbus-mqtt/bridge_tcp.py:161-166 | the reconnect window grows along the back-off steps |
| `TcpClient.Client.Open` | opt/sa02m-modbus-mqtt/bridge_tcp.py:174-210 | a new connection is quiet; inside the window none is made |
| `TcpClient.Client.Succeeded` | opt/sa02m-modbus-mqtt/bridge_tcp.py:168-172 | success clears the window |
| `TcpClient.Client.UnitTimedOut` | opt/sa02m-modbus-mqtt/bridge_tcp.py:218-232 | a unit is muted after its run of timeouts, for growing periods |
| `TcpClient.Client.TryOnce` | opt/sa02m-modbus-mqtt/bridge_tcp.py:250-322 | one attempt: an open socket is quiet again or dropped; a retry is asked for exactly if a reused connection ended or the send failed with no byte of a reply on the record |
| `TcpClient.Client.Transact` | opt/sa02m-modbus-mqtt/bridge_tcp.py:250-322 | on the record of a call: at most two sends; the second only on a new connection, after a reused one ended with no byte of a reply; none after time ran out; a stale session is always retried; a delivered reply answers this very call |
| `TemplateWrite.RoundIsNearest` | opt/sa02m-modbus-mqtt/bridge_template.py:747 | rounding gives a nearest integer, the even one of two |
| `TemplateWrite.MaskKeepsValue` | opt/sa02m-modbus-mqtt/bridge_template.py:748-755 | the word of an accepted write reads back as the rounded raw value: no sign wrap |
| `TemplateWrite.AcceptedWriteReadsBack` | opt/sa02m-modbus-mqtt/bridge_template.py:745-758 | an accepted u16 or s16 write reads back within half the absolute scale, and no other word would be nearer |
| `TemplateWrite.AcceptedIff` | opt/sa02m-modbus-mqtt/bridge_template.py:745-758 | which values are accepted, for every format and scale, to the half step at either end; with scale 0 always, and the register is written 0 and reads as the offset |
| `TemplateWrite.RefusedIsOutOfReach` | opt/sa02m-modbus-mqtt/bridge_template.py:748-754 | for a refused value every word reads back at least half a step away |
| `TemplateWrite.WriteOfReadIsIdentity` | opt/sa02m-modbus-mqtt/bridge_template.py:428-446 | writing back what a register reads leaves it as it was |
| `WriteEcho.Controls.WbDone` | opt/sa02m-modbus-mqtt/bridge_device.py:173-182 | the echo is shown and the write goes on guard |
| `WriteEcho.Controls.WbPublishPoll` | opt/sa02m-modbus-mqtt/bridge_device.py:184-200 | a polled value is shown, or held back and nothing changes |
| `WriteEcho.GuardAfter` | opt/sa02m-modbus-mqtt/bridge_device.py:173-200 | a write stays on guard until a poll of its control is let through, whatever happens to other controls |
| `WriteEcho.DifferingShownIff` | opt/sa02m-modbus-mqtt/bridge_device.py:184-200 | exactly when a differing value is shown after a write, over any run |
| `WriteEcho.EchoIsNotOvertaken` | opt/sa02m-modbus-mqtt/bridge_device.py:173-200 | the first differing value is a later write or comes from a read begun no earlier than the write, and is later than the grace period unless a poll confirmed the write |
| `WriteEcho.EarlyIff` | opt/sa02m-modbus-mqtt/bridge_device.py:184-200 | a first differing poll comes within the grace period exactly when a poll has confirmed the write |
| `WriteEcho.GraceCanEndEarly` | opt/sa02m-modbus-mqtt/bridge_device.py:184-200 | a run in which it does |
| `WriteEcho.OneThreadIsNeeded` | opt/sa02m-modbus-mqtt/bridge_device.py:184-200 | two overlapping polls in which older data does overtake the echo |
| `WriteQueue.WritebackWorker.Submit` | opt/sa02m-modbus-mqtt/bridge_serial.py:766-770 | the key's earlier job goes, the new one is last |
| `WriteQueue.WritebackWorker.Take` | opt/sa02m-modbus-mqtt/bridge_serial.py:772-777 | the oldest job goes, or the worker waits |
| `WriteQueue.Work` | opt/sa02m-modbus-mqtt/bridge_serial.py:766-781 | a run of the worker executes and leaves pending what the history function says |
| `WriteQueue.EveryRun` | opt/sa02m-modbus-mqtt/bridge_serial.py:737-781 | at most one pending job per key and it is the newest; every job ran, waits or was superseded; a key's jobs ran in order, each once |
| `WriteQueue.DrainedRanTheLast` | opt/sa02m-modbus-mqtt/bridge_serial.py:737-781 | a drained queue has run each key's last submission, after all others of it |
| `WriteQueue.RunsInItsTurn` | opt/sa02m-modbus-mqtt/bridge_serial.py:766-781 | a job runs after as many takes as stand before it, and one more, unless its key is submitted again |
| `WriteQueue.ResubmittingCanStarve` | opt/sa02m-modbus-mqtt/bridge_serial.py:766-770 | a storm of any length on two keys that serves only one |
| `PortCycle.Scheduler.RunTurn` | opt/sa02m-modbus-mqtt/bridge_device.py:477-560 | one turn of the loop: the wait, the choice, the bookkeeping |
| `PortCycle.BurstsInARow` | opt/sa02m-modbus-mqtt/bridge_device.py:477-540 | bursts in a row put at least a period each on the balancing counter, from the second on |
| `PortCycle.ClassicIsNotStarved` | opt/sa02m-modbus-mqtt/bridge_device.py:477-560 | fewer than T / P + 2 event bursts run between two classic slices |
| `PortCycle.NeverStarved` | opt/sa02m-modbus-mqtt/bridge_device.py:477-560 | the same bound at any point of a run from the start of the loop |
| `PortCycle.DueEventsWaitOneSlice` | opt/sa02m-modbus-mqtt/bridge_device.py:499-560 | an event poll that is due waits for one classic slice at most |
| `PortCycle.Rotation.ClassicSlice` | opt/sa02m-modbus-mqtt/bridge_device.py:385-408 | who is polled in a slice, when it may end early, that a pass that raises never counts as bus use, and that the start moves on by one |
| `PortCycle.NthIsRemainder` | opt/sa02m-modbus-mqtt/bridge_device.py:398 | the k-th poller of a slice is the one the remainder names |
| `PortCycle.SweptAll` | opt/sa02m-modbus-mqtt/bridge_device.py:392-407 | a slice that ran to its end polled every poller not backing off |
| `PortCycle.EveryPollerHasItsTurn` | opt/sa02m-modbus-mqtt/bridge_device.py:385-408 | in any n consecutive slices each of n pollers has its turn |
| `PortCycle.RunSlices` | opt/sa02m-modbus-mqtt/bridge_device.py:385-408 | n slices run one after another poll each poller unless it is backing off in its turn |
| `JournalCursor.JournalReader.constructor` | opt/sa02m-cloud-agent/binding_core.py:354-363 | a process starts with the saved file and a window from its start |
| `JournalCursor.JournalReader.ReadCursor` | opt/sa02m-cloud-agent/binding_core.py:372-379 | memory wins over the file |
| `JournalCursor.JournalReader.SaveCursor` | opt/sa02m-cloud-agent/binding_core.py:382-397 | memory moves even when the file cannot |
| `JournalCursor.JournalReader.DropCursor` | opt/sa02m-cloud-agent/binding_core.py:400-408 | a refused cursor is forgotten and a window from now armed |
| `JournalCursor.JournalReader.RejectReason` | opt/sa02m-cloud-agent/binding_core.py:411-495 | one tick of the reader, in every outcome |
| `JournalCursor.LatestRefusal` | opt/sa02m-cloud-agent/binding_core.py:488-495 | the latest refusal shown wins |
| `JournalCursor.WatchdogTick` | opt/sa02m-cloud-agent/sa02m-cloud-agent.py:1023-1040 | the tick on its reader and its tracker is the step of the run theorems |
| `JournalCursor.StepKeeps` | opt/sa02m-cloud-agent/binding_core.py:354-495 | writes, ticks, restarts and reboots keep everything counted behind the reader |
| `JournalCursor.NoLineCountedTwice` | opt/sa02m-cloud-agent/binding_core.py:354-495 | no line lies in two windows that each returned a refusal, over any interleaving of failures and restarts |
| `JournalCursor.CountedIsBehindFile` | opt/sa02m-cloud-agent/binding_core.py:382-408 | while there is a cursor file, every counted line is at or before it |
| `JournalCursor.GoodTickReportsLatest` | opt/sa02m-cloud-agent/binding_core.py:411-495 | a tick that goes well reports the latest refusal and leaves nothing unread |
| `JournalCursor.StandDownHasThreeLines` | opt/sa02m-cloud-agent/sa02m-cloud-agent.py:1020-1040 | a stand-down by the journal rests on three different lines of one class |
| `JournalCursor.PacedIsLegal` | opt/sa02m-cloud-agent/sa02m-cloud-agent.py:1020-1040 | ticks of one loop a watchdog period apart discharge the hypothesis on refused cursors; the first tick of a loop comes as soon as it is entered, after a stand-down too |
| `JournalCursor.ShownAgainIff` | opt/sa02m-cloud-agent/binding_core.py:400-408 | exactly which counted lines a re-armed window can show again |
| `JournalCursor.QuickRestartCountsTwice` | opt/sa02m-cloud-agent/binding_core.py:354-361 | why a restart within the second of a count is left out |
| `Refusals.RefusalTracker.NoteSuccess` | opt/sa02m-cloud-agent/binding_core.py:147-149 | a success forgets class and count |
| `Refusals.RefusalTracker.Note` | opt/sa02m-cloud-agent/binding_core.py:151-160 | a refusal counts within its class and reports the threshold |
| `StandDown.Heartbeat` | opt/sa02m-cloud-agent/sa02m-cloud-agent.py:1042-1068 | the tracker follows the history of heartbeats and gives its verdict |
| `StandDown.TrackIsSince` | opt/sa02m-cloud-agent/binding_core.py:130-160 | the count is the number of refusals of the class since the last reset |
| `StandDown.StandsDownIff` | opt/sa02m-cloud-agent/binding_core.py:130-180 | a heartbeat stands the board down exactly when it closes an uninterrupted series of that many refusals of one class |
| `StandDown.NoiseChangesNothing` | opt/sa02m-cloud-agent/sa02m-cloud-agent.py:470-479 | transport errors, 5xx and unknown 403s change nothing |
| `StandDown.Door.WipeBinding` | opt/sa02m-cloud-agent/binding_core.py:184-205 | what was removed and what was absent; success leaves no named file |
| `StandDown.WipedFacts` | opt/sa02m-cloud-agent/binding_core.py:184-205 | a wipe removes only named files, and all of them if it succeeds |
| `StandDown.Door.StandDown` | opt/sa02m-cloud-agent/binding_core.py:221-246 | a wipe that worked is erased, one that failed is pending |
| `StandDown.Door.FinishStandDown` | opt/sa02m-cloud-agent/binding_core.py:285-294 | marker and then status of the class; a marker that cannot be written raises and changes nothing |
| `StandDown.Door.RetryWipe` | opt/sa02m-cloud-agent/binding_core.py:297-317 | a retry finishes the pending stand-down or keeps it |
| `StandDown.Door.BindAgain` | opt/sa02m-cloud-agent/binding_core.py:87 | a new pairing brings files back and clears the marker |
| `StandDown.ErasedMeansGone` | opt/sa02m-cloud-agent/binding_core.py:184-317 | over any run, pairings in between included, an erased status means every binding file is gone, a pending wipe that one is left, a raised marker write that all are gone unsaid, and no other file is touched |
| `InstallBoard.Order` | scripts/install-maintenance.py:124 | every saved unit once, the web stack after all others |
| `InstallGuard.Guard.Save` | scripts/install-maintenance.py:71-80 | the journal is the new record, or what it was if saving failed |
| `InstallGuard.Guard.UseInstalledInfra` | scripts/install-maintenance.py:82-86 | the choice is made and journalled |
| `InstallGuard.Guard.Capture` | scripts/install-maintenance.py:90 | all units as they are, or nothing |
| `InstallGuard.Guard.CreateDropIns` | scripts/install-maintenance.py:92-100 | every unit but a missing consumer is gated; the journal is in place at each step |
| `InstallGuard.Guard.Enter` | scripts/install-maintenance.py:88-101 | no drop-in exists before the journal does, and no service is touched |
| `InstallGuard.Guard.StopUnits` | scripts/install-maintenance.py:103-108 | exactly the saved units are stopped and checked |
| `InstallGuard.Guard.RestoreUnit` | scripts/install-maintenance.py:147-181 | success means running and autostart as saved, whatever systemctl did; on working services it succeeds exactly when the unit exists, and a unit that is as saved stays so at every step exactly if it does not run masked |
| `InstallGuard.Guard.RestoreInfra` | scripts/install-maintenance.py:126-142 | success means the unit runs exactly if the new web stack wants it |
| `InstallGuard.Guard.Close` | scripts/install-maintenance.py:110-186 | at every step the journal is untouched or nothing is left to do; success means no drop-in, everything restored, no journal; units that are as saved stay so at every step exactly if none runs masked |
| `InstallGuard.Guard.Recover` | scripts/install-maintenance.py:188-199 | the same from any board an earlier process left; on a working board it succeeds exactly when the record is acceptable and every saved unit can be brought back |
| `InstallGuard.Session` | scripts/install-maintenance.py:331-366 | a whole run: the record holds the states from before the first stop; a journal left by a crash at any step is one recovery accepts, and without one nothing is gated; on working services every step is safe exactly when the journal was saved or no unit was running masked |
| `InstallGuard.TryAndCrash` | scripts/install-maintenance.py:188-199 | recoveries that fail or crash leave the journal as it was, or nothing to do |
| `InstallGuard.CrashAndRecover` | scripts/install-maintenance.py:188-199 | from a crash at any step of a session, whatever commands and saves failed in it, and any number of recoveries that fail or crash after it, a recovery on a working board succeeds exactly when every unit there before still exists, and leaves no drop-in, every consumer as before the session and no journal; where no journal is left nothing is gated |
| `InstallGuard.FailedSaveIsNotCovered` | scripts/install-maintenance.py:165-173 | a run with broken storage in which a crash leaves a masked unit unmasked and no journal |

## Left out

- Serial, socket, MQTT, systemctl and journalctl calls themselves: only the outcomes the code branches on are modelled.
- Logging, warn-once flags, message texts and port statistics.
- Template JSON parsing, channel names and 32-bit decoding: a channel is its register type, address and width.
- Floating-point rounding: scaling is exact, and the formatting of published values is not part of this model.
- The order of register types in the planner's dictionary: the final sort by first channel hides it.
- PollPublish.RunPublishesHonestly: takes a block read as one request at one moment; a block the serial port cuts into several transactions is treated under the port lock in `SerialRead.ReadBlock`.
- LiveDevice.LiveDevicePasses: is about single-channel plans; blocks are treated by the sweep and split theorems.
- PortCycle.ClassicIsNotStarved: takes the bookkeeping between turns as instantaneous and an event period between 0.05 s and 2 s; the bridge uses 0.05, 0.10 and 0.20 s.
- JournalCursor.NoLineCountedTwice: leaves out a cursor refused or a process restarted within the second of a count; `ShownAgainIff` says exactly what it could read again.
- InstallGuard.Session: covers crashes between steps; the creation of a drop-in file is one step, so a file created but not yet written is not modelled.
- InstallGuard.Guard.Recover: assumes, for its success on working services, that a successful unmask leaves the unit unmasked and a successful enable leaves it enabled.
- Stop flags, scan holds and the configure retries of the port cycle.
- Availability marking and the back-off after failed reads: simple counters.
- The configure and back-off manager of Fast Modbus, and the dispatch of events to devices.
- Device register maps and their pollers, the HDLC scheduler, the bus scanner and the scan lease.
- PortCycle.Rotation.ClassicSlice: leaves out the slow channels polled at the end of a slice.
- Persisting a pending wipe over a restart of the agent, enrollment, claiming and the rendering of configuration.
- The installer's checks for busy lines, running updates and web health, and its locks.
- Packaging, signing, OPC UA, SNMP, the flasher, the device logger and the web panel.
