# KegPulse pulse ledger

A model of KegPulse's measurement path, from the interrupt that counts flow
edges on the board to the money a person is charged, with proofs about every
run of it. All times on the board are 32-bit and wrap, all counters have their
real widths and clamps, and storage and the serial line may fail at any moment.

## How the model is laid out

| files | what they model |
|---|---|
| `Firmware`, `SessionMachine`, `Conservation`, `Runs`, `RecoveryDelay` | the board's session machine as a step function and as a class over its four-slot array; what every run of it keeps, and how soon its recovery counter can move |
| `Twin`, `TwinBooks`, `Refinement`, `Divergence`, `Timing` | the host's unbounded-time model of the same machine and its own pulse books, the refinement between the two, and where its hypotheses are needed |
| `MainLoop`, `NoiseGate`, `BatchExact`, `DrainTiming`, `Announcements`, `BootIdentity` | the pulse interrupt and its noise gate, the drain before every command and tick, when a batch is the same as its edges, which session an edge belongs to, which results have been sent, and the boot counter in EEPROM |
| `Crc`, `CrcPolynomial`, `CheckValues`, `Frames`, `FrameGrammar`, `RoundTrip`, `NanoParser`, `Streams`, `SimulatorChannel` | the check value as a register and as a remainder, the KP1 codec, the host's and the board's parsers, and the simulated line with its faults; the check value is the CRC with generator x^16 + x^12 + x^5 + 1 of section 2.2.7 of ITU-T Recommendation X.25, preset 0xFFFF, most significant bit first, not complemented |
| `Decimal`, `PulseIntegrity`, `Wire`, `WidestRun`, `HostResult`, `HostCounters`, `StatusReport` | decimal texts, the plausibility envelope, frame sizes and the run that attains them, and a RESULT, a COUNTERS and a STATUS from the board's memory to what the host reads |
| `CounterStream`, `Attribution`, `CounterRuns`, `StreamRuns`, `StreamConverse` | the coordinator's retry queue as one counter stream sees it: a pass, runs of passes, and which streams are attributed rightly in every run |
| `Coordinator`, `ResultOwner`, `LoopRuns`, `RetryLoss`, `RetryHeld` | the whole queue with results, other streams and the 128-entry limit, runs of its loop, when it loses a measurement and what it holds until it commits |
| `Ledger`, `LedgerRuns`, `LedgerTheorems`, `LedgerBilling`, `LedgerAttribution`, `LedgerAudit`, `Repository`, `PourExport` | the tables as one value with transactions as functions, their invariants, what a commit stores and charges, the object that updates the tables in place, and the paged export |
| `Delivery`, `DeliverySafety`, `DeliverySums`, `DeliveryTheorems`, `DeliveryLine`, `DeliveryProgress`, `DeliveryLoss`, `DeliveryMisstamped`, `DeliveryRollover` | boards, faulty channel and host as one step relation, composed from the machine's books, the RESULT and COUNTERS codecs and the ledger's transactions; what the host hears, from where delivery can finish, and what may be lost, booked twice or held back |
| `Calibration`, `CalibrationTheorems`, `CalibrationRows` | the pooled factor, the rows, the spread and the robust outlier flags over exact reals |

Operations that the source performs step by step on an object are methods of a
class here (`SessionMachine`, `DeviceSessionMachine`, `MainBoard`, `BootStore`,
`HostParser`, `NanoFrameParser`, `SimulatorQueue`, `EventLoop`, `Repository`);
each is proved equal to a function of the old state, and the theorems are about
those functions.

## Where the code does not do what it is for

Each of these is a lemma, with the exact condition under which the code is right.

- **A folded boundary charges the wrong keg.** When a due counter boundary
  fails while a later boundary of the same context still waits, the two are
  coalesced, and the due boundaries of other contexts between them then take its
  pulses. A nondecreasing stream of readings is charged rightly in every run the
  loop can make of it, whatever its split into passes, its failures and its timing,
  if and only if no context comes back after another one has counted pulses
  (`StreamConverse.TransparentExactly`). `LoopRuns.LoopTransparentExactly` says the
  same of the whole loop, and `Attribution.SafeExactly` of one pass, by its queue.
  In such a run the clock never goes back and two passes are at least 50 ms apart;
  the failing runs (`StreamConverse.ReturningMischarges`) are three passes 60 ms
  apart.
- **A counters reading may be booked to the wrong boot.** COUNTERS frames name no
  board and carry the boot of the last handshake, so a reset in place between the
  STATUS that confirms the boot and the COUNTERS that follows it lets recovery
  pulses be booked under both boots: `DeliveryMisstamped.BookedTwice` books eleven
  of six, with the shipped timers, although equal counters are not queued twice.
  The window is narrow. A board left to itself needs four whole pours after
  power-up, nine seconds, before its recovery counter can move
  (`RecoveryDelay.RecoveryTakesFourPours`); COUNTERS is tried twice for two
  seconds, so the host must stall between the two polls; and the four RESULT
  frames the new boot sends meanwhile must be lost, or the host hangs up on the
  first of them. `DeliveryTheorems.PulsesBalance` accounts for every pulse in
  every run, whatever is misstamped; by it the host never holds more than a boot
  counted if and only if it has checkpointed no more recovery pulses for that
  boot than the boot reports (`DeliveryTheorems.HostNeverExceedsBoard`), and holds
  each pulse once if and only if the two are equal (`DeliveryTheorems.ExactlyOnce`).
- **A result the host does not have when its board resets may be lost**: the store
  is memory. Once the board runs under a new boot, a result the host would accept
  can still become durable if and only if it was sent before
  (`DeliveryLoss.LostExactly`); an answer to a handshake may be as late as any other
  message. After every pass of `emit_new_results` all that is retained has been sent
  (`Announcements.PassSendsEverything`), and while its boot is live a finalized
  result is in its store or durable (`DeliveryTheorems.NoResultLost`).
- **The host's model loses pulses when sequence numbers run out**; the board keeps
  them in recovery (`Divergence.ExhaustionDiverges`). Short of the clamps the
  model's books balance if and only if no pulse arrives with nothing open, a free
  slot and no number left (`TwinBooks.TwinBooksExactly`).
- **A batch is not always its edges.** Four edges that overflow the open event differ
  (`MainLoop.SaturatedBatchDiffers`). Below the clamps a batch is its edges
  (`MainLoop.BatchIsExact`); `BatchExact.BatchAgreesExactly` gives the condition, in
  both directions, for every state a run can reach and every batch.
- **Genuine counters are refused after the board's clock rolls over.** The uptime a
  STATUS reports is 32-bit and the accepted count is not, and the host holds the
  count against that uptime. Counters inside the envelope of the board's true uptime
  are accepted if and only if that uptime is below 2^32 ms or the count is at most
  100000 and ten for each millisecond since the last rollover
  (`HostCounters.RolloverRefusesExactly`, and for every run of the board
  `HostCounters.RolloverDelivered`; `HostCounters.RolloverExample` is one refused).
  The manager then does not queue the same counters again, so nothing is
  checkpointed until they change (`DeliveryRollover.HeldBackAfterRollover`).
- **The noise gate compares stamps, not times.** An edge is counted exactly when it is
  at least the gate after the last one counted, but for two cases: a near edge after
  a stamp of zero is counted, and one a whole number of clock turns and less than the
  gate later is not (`NoiseGate.GateExactly`).
- **The simulator's corruption fault leaves a frame intact whose check field is
  already 0000**, and only then (`SimulatorChannel.CorruptExactly`).
- **The decision record says any unequal ratio is flagged when the median absolute
  deviation is zero**; the code allows five percent. The deviation is zero exactly
  when more than half of the ratios are one value
  (`CalibrationTheorems.ZeroDeviationExactly`), and the code then meets the record
  if and only if no ratio lies within five percent of that value without being it
  (`CalibrationTheorems.JitterTolerated`; 1, 1 and 1.04 fail it,
  `CalibrationTheorems.JitterExample`). The model follows the code.

Smaller differences the model follows the code in: an event cancelled with
pulses carries the fault `cancelled` on the board and `none` in the host's model;
the fault `lifetime_saturated` loses its last letter in a result's 18-byte field;
the widest reachable STATUS frame is 245 bytes, not 254; a result that an ARM's
own tick closes is followed by no pass of `emit_new_results` and is sent at the
next one.

## Model

| member | source | states |
|---|---|---|
| SessionMachineObject.SessionMachine.FinalizeEvent | firmware/src/session_machine.cpp:282-307 | closing appends the open event to the store, or refuses without an event or a slot; the object equals the step function in state and reply |
| SessionMachineObject.SessionMachine.TickAt | firmware/src/session_machine.cpp:240-267 | arm time-out, the gap to settling and completion at their deadlines, equal to the step function; the reply says whether a result was produced |
| SessionMachineObject.SessionMachine.ArmEvent | firmware/src/session_machine.cpp:75-117 | ticks first, then recognizes a retry, refuses, or opens exactly the next sequence number |
| SessionMachineObject.SessionMachine.CancelEvent | firmware/src/session_machine.cpp:119-146 | ticks first; an event with pulses becomes an interrupted result, one without disappears |
| SessionMachineObject.SessionMachine.AddRecoveryPulses | firmware/src/session_machine.cpp:67-73 | adds to the recovery counter, saturating at its width |
| SessionMachineObject.SessionMachine.Pulses | firmware/src/session_machine.cpp:148-212 | an edge count reaches the open event, a new unattributed one, or recovery, with both clamps |
| SessionMachineObject.SessionMachine.PulseBatch | firmware/src/session_machine.cpp:214-238 | a batch is its first edge at the first time and the rest at the last time; the first error wins |
| SessionMachineObject.SessionMachine.MarkSaturated | firmware/src/session_machine.cpp:269-280 | an overflowed interrupt counter interrupts the open event |
| SessionMachineObject.SessionMachine.Acknowledged | firmware/src/session_machine.cpp:309-328 | removes the one result with the number by shifting the rest left, or reports it already gone |
| SessionMachineObject.SessionMachine.TakeReading | firmware/src/session_machine.cpp:330-357 | the snapshot shows the open event, else the newest retained result, and how long an arm still has |
| Conservation.FinalizeKeeps | firmware/src/session_machine.cpp:282-307 | with an event open the store always has a slot: closing never reports BUSY, keeps store order and loses no pulse |
| Conservation.TickKeeps | firmware/src/session_machine.cpp:240-267 | a tick keeps the store and sequence invariant and every held pulse |
| Conservation.AddPulsesKeeps | firmware/src/session_machine.cpp:148-212 | counted pulses are all held afterwards below the two clamps, and never more than counted at a clamp; recovery never grows more than lifetime |
| Conservation.BatchKeeps | firmware/src/session_machine.cpp:214-238 | the same for a batch, clamped in either half |
| Conservation.ArmKeeps | firmware/src/session_machine.cpp:75-117 | arming keeps the invariant and every pulse |
| Conservation.CancelKeeps | firmware/src/session_machine.cpp:119-146 | cancelling keeps the invariant and every pulse |
| Conservation.AcknowledgeKeeps | firmware/src/session_machine.cpp:309-328 | an acknowledgement releases exactly the removed result's pulses and disturbs nothing else |
| Conservation.RunsBalance | firmware/src/session_machine.cpp:75-328 | in every run, acknowledged, retained, open and recovery pulses equal lifetime and the edges fed in until a clamp fires, and never exceed them; finalized results never share a sequence number |
| Runs.PulsesConserved | firmware/src/session_machine.cpp:57-73 | the same from power-on, the sums written out |
| Runs.CountersMonotone | firmware/src/session_machine.cpp:161-181 | any two readings of one boot in order satisfy recovery within lifetime and recovery growth within lifetime growth |
| Runs.RecoveryNeverSaturates | firmware/src/session_machine.cpp:67-73 | the saturating branch of the recovery counter is unreachable |
| Runs.FinalizeNeverBusy | firmware/src/session_machine.cpp:282-291 | from power-on the store never holds more than four results and an open event always carries the newest number and a free slot |
| Runs.ArmOpensExactly | firmware/src/session_machine.cpp:75-117 | ARM opens an event under exactly one stated condition; otherwise it does no more than a tick |
| Runs.ArmRetryIsIdempotent | firmware/src/session_machine.cpp:82-95 | an ARM that opened an event, retried after any further calls, never opens a second one for that number |
| Twin.DeviceSessionMachine.ArmEvent | src/kegpulse/domain/device_machine.py:95-131 | the host's model of ARM on unbounded time, in place, equal to its step function |
| Twin.DeviceSessionMachine.CancelEvent | src/kegpulse/domain/device_machine.py:133-151 | the host's model of CANCEL |
| Twin.DeviceSessionMachine.Pulse | src/kegpulse/domain/device_machine.py:164-226 | the host's model of counting pulses, with its own saturation and exhaustion branches |
| Twin.DeviceSessionMachine.TickAt | src/kegpulse/domain/device_machine.py:228-250 | the host's model of a tick |
| Twin.DeviceSessionMachine.Acknowledge | src/kegpulse/domain/device_machine.py:153-162 | the host's model of an acknowledgement |
| Refinement.DueIsUnbounded | firmware/src/session_machine.cpp:40-46 | within half the clock the wrapping comparison is the comparison of unbounded times |
| Refinement.StepMatches | firmware/src/session_machine.cpp:75-328 | one call on usable inputs takes machine and unbounded-time model to matching states with matching replies |
| Refinement.RunMatches | src/kegpulse/domain/device_machine.py:95-273 | every usable run keeps the two in step across any number of rollovers, timestamps equal modulo 2^32 |
| Refinement.PowerOnMatches | src/kegpulse/domain/device_machine.py:95-273 | the same from power-on |
| Divergence.DueExactly | firmware/src/session_machine.cpp:40-46 | for any two times, the wrapping comparison holds exactly in every other half period after the deadline |
| Divergence.LateTickParts | firmware/src/session_machine.cpp:240-250 | an armed event times out on the board exactly when the tick comes an even number of half periods late |
| TwinBooks.TwinBooksExactly | src/kegpulse/domain/device_machine.py:164-226 | over every run short of the clamps, the model's acknowledged, retained, open and recovery pulses equal its lifetime if and only if no pulse arrived with nothing open, a free slot and no number left; else they are fewer |
| Timing.TwinTicksCollapse | src/kegpulse/domain/device_machine.py:228-250 | on unbounded time any nondecreasing run of ticks leaves what its last tick leaves |
| Timing.TicksCollapse | firmware/src/session_machine.cpp:240-267 | the same on the board within half the clock, down to a result's end time |
| Timing.FirstEdgeDecided | firmware/src/session_machine.cpp:148-160 | the first edge after ARM, after any quiet calls, joins the armed session exactly when captured by the deadline and before any call reached it |
| Timing.PourEndsExactly | firmware/src/session_machine.cpp:250-267 | a tick leaves a pour open before the gap and the settling time after its last edge are over, and from then on closes it as complete at that moment, with its pulses |
| DrainTiming.DrainedEdgeDecided | firmware/src/main.cpp:472-531 | over runs of interrupt and loop, the drained batch begun by the first edge after ARM goes to the armed session exactly when that edge was captured by the deadline and no linearized call had reached it; an edge before the deadline always joins, one after never |
| MainLoop.BatchIsExact | firmware/src/session_machine.cpp:214-238 | a drained batch reaches the very state that its edges one by one reach, from every start state short of saturation |
| BatchExact.BatchAgreesExactly | firmware/src/session_machine.cpp:148-238 | for every batch and every state that meets the run invariant, clamps included: batch and single edges reach the same state if and only if a stated condition on the times, the open event, the lifetime counter and the store holds |
| MainLoop.EdgesConserved | firmware/src/main.cpp:104-128 | accepted edges are those pending plus those the machine accounts for at every linearization point, until one of three counters clamps |
| MainLoop.PoweredEdgesConserved | firmware/src/main.cpp:104-128 | the same from power-on |
| MainLoop.DrainIsExact | firmware/src/main.cpp:472-501 | a drain hands the machine exactly the pending edges, each at its capture time |
| MainLoop.MainBoard.PulseIsr | firmware/src/main.cpp:104-128 | the interrupt's globals after an edge: gated, counted, or saturated |
| NoiseGate.AcceptedApart | firmware/src/main.cpp:104-118 | over every run, two edges counted one after the other within one turn of the microsecond clock are at least the gate apart, unless the earlier was stamped zero |
| NoiseGate.EdgeDecided | firmware/src/main.cpp:104-118 | after every run, an edge at least the gate and less than a turn after the last counted one is counted and nothing rejected; a nearer one changes the rejected counter alone; the first of all is counted |
| NoiseGate.GateExactly | firmware/src/main.cpp:104-118 | for every distance, exactly when the interrupt counts an edge if and only if it is at least the gate after the last one counted |
| NoiseGate.GateOff | firmware/src/main.cpp:104-118 | with the gate at 0 every edge is counted and none rejected |
| NoiseGate.BounceExample | firmware/src/main.cpp:104-128 | gate 150: an edge 10 ms later is counted, a bounce 50 microseconds later is not |
| MainLoop.MainBoard.EmitNewResults | firmware/src/main.cpp:285-292 | a pass over the store sends each result numbered above the last one sent and remembers the newest |
| MainLoop.MainBoard.Drain | firmware/src/main.cpp:472-501 | capture resets the globals, apply makes the batch and saturation calls and a pass over the store |
| MainLoop.MainBoard.TickLinearized | firmware/src/main.cpp:503-531 | pending edges are ordered before the tick, and a result the tick closes is sent |
| Announcements.AnnouncedExactly | firmware/src/main.cpp:285-292 | on an ascending store a pass sends exactly what is numbered above the last one sent, in order and once each |
| Announcements.PassSendsEverything | firmware/src/main.cpp:261-292 | over every run of calls, passes and RESULTS requests, remembering only the last number never skips a result: after every pass all that is retained has been sent |
| RecoveryDelay.RecoveryTakesFourPours | firmware/src/session_machine.cpp:170-182 | a board left to itself has nothing in recovery before four whole pours after power-up, short of the clamps |
| BootIdentity.LastRecordSpared | firmware/src/main.cpp:85-102 | the next write goes to the slot of the last completed boot exactly when the counter is exhausted; a torn or missing write before that changes nothing readable |
| BootIdentity.BootsIncrease | firmware/src/main.cpp:85-102 | under any sequence of complete, torn and missing writes, counters that reach the main loop strictly increase until the last, which repeats |
| BootIdentity.BootsDistinctUntilExhausted | firmware/src/main.cpp:96-101 | two power-ups share a boot identity exactly when the counter had run out |
| BootIdentity.BootStore.InitializeBootIdentity | firmware/src/main.cpp:85-102 | picks the highest valid record, counts on and writes by parity; the next power-up sees exactly whether the write completed |
| Crc.ComputeCrc | src/kegpulse/protocol/frames.py:36-42 | the byte loop computes the bitwise polynomial division |
| CrcPolynomial.CheckIsRemainder | src/kegpulse/protocol/frames.py:36-42 | over GF(2), the check value of any data is the one remainder of degree below 16 that x^16 times the message plus x^(8n) times sixteen ones leaves on division by x^16 + x^12 + x^5 + 1 |
| CheckValues.CheckOfDigits | tests/unit/test_protocol.py:7-8 | the nine digits have check value 29B1 |
| CheckValues.PingVector | tests/fixtures/protocol/frames.json:6-12 | the protocol's PING vector, encoded and decoded |
| FrameGrammar.TokensAre | src/kegpulse/protocol/frames.py:45-68 | which letters and how many a key, a value, an operation, a request id and a kind are made of |
| FrameGrammar.SizeLimit | src/kegpulse/protocol/frames.py:45-114 | 256 bytes at most, both ways |
| FrameGrammar.NumbersAre | firmware/src/main.cpp:130-152 | numbers and boot identities are written most significant digit first |
| Crc.StepInjective | firmware/src/protocol.cpp:14-20 | one shift step is invertible |
| Crc.BurstDetected | src/kegpulse/protocol/frames.py:36-42 | two bit strings that differ only within sixteen adjacent bits have different check values |
| Crc.TwoByteBurstDetected | src/kegpulse/protocol/frames.py:83-90 | so do two byte strings that differ only within two adjacent bytes |
| Crc.OddErrorDetected | src/kegpulse/protocol/frames.py:36-42 | and two strings that differ in an odd number of bits |
| Frames.EncodeFrame | src/kegpulse/protocol/frames.py:45-68 | the encoding loop with its checks and size limit, equal to the encoder function, errors included |
| Frames.DecodeFrame | src/kegpulse/protocol/frames.py:71-114 | the decoding loop, equal to the decoder function, errors included |
| RoundTrip.DecodeEncode | src/kegpulse/protocol/frames.py:45-114 | every frame that encodes decodes back exactly, fields in order |
| RoundTrip.EncodeDecode | src/kegpulse/protocol/frames.py:71-114 | every accepted line encodes back to itself, save for an optional CR |
| RoundTrip.AcceptedExactly | src/kegpulse/protocol/frames.py:71-114 | the accepted lines are exactly the encodings of valid frames, with an optional CR |
| RoundTrip.DamagedFrameRejected | src/kegpulse/protocol/frames.py:83-90 | a frame damaged within two adjacent payload bytes never decodes |
| RoundTrip.OddlyFlippedFrameRejected | src/kegpulse/protocol/frames.py:83-90 | nor does one with an odd number of payload bits flipped |
| NanoParser.ParseFrame | firmware/src/protocol.cpp:135-223 | the board's tokenizing parser, equal to its function on lines and fields |
| NanoParser.NanoAgrees | firmware/src/protocol.cpp:135-223 | every frame the host's decoder accepts is read the same by the board within its twelve fields, and refused with more |
| Streams.ChunkingIrrelevant | src/kegpulse/protocol/frames.py:117-149 | for any chunking of any bytes and any size limit, a parser reports one reading per line in order, one TOO_LONG per long line, with a bounded buffer that resynchronizes |
| Streams.HostParser.Feed | src/kegpulse/protocol/frames.py:125-149 | a fed chunk yields exactly the frames and errors of the lines it completes; the buffer is what the bytes so far leave |
| Streams.NanoFrameParser.PushByte | firmware/src/protocol.cpp:227-255 | the same for the board's parser a byte at a time, at 128 bytes in its fixed buffer |
| SimulatorChannel.SimulatorQueue.Put | src/kegpulse/serialio/simulator.py:116-128 | one enqueue under the corrupt, delay and duplicate faults, each spent when used |
| SimulatorChannel.SimulatorQueue.FlushDelayed | src/kegpulse/serialio/simulator.py:343-349 | delayed frames join the line in order or reversed |
| SimulatorChannel.SimulatorQueue.Read | src/kegpulse/serialio/simulator.py:99-114 | a read takes a prefix of the line, no longer than the limit and chunk size |
| SimulatorChannel.CorruptExactly | src/kegpulse/serialio/simulator.py:117-120 | a corrupted frame still decodes exactly when its check field was 0000 already, and then to itself |
| SimulatorChannel.OnlySentFramesArrive | src/kegpulse/serialio/simulator.py:99-128 | whatever the faults, flushes and read sizes, the host accepts only frames that were sent |
| SimulatorChannel.QuietChannelIsExact | src/kegpulse/serialio/simulator.py:99-128 | without faults it accepts exactly what was sent, in order |
| Decimal.U64ToAscii | firmware/src/main.cpp:130-141 | fills the buffer from the end and moves it to the front: the decimal text of every 64-bit value, terminated, in bounds |
| Decimal.ParseU32 | firmware/src/main.cpp:154-171 | accepts exactly the decimal texts of values up to 2^32 - 1 and returns their value |
| Decimal.PrintedReadsBack | firmware/src/main.cpp:143-171 | what is printed reads back |
| Decimal.MachineWidths | firmware/src/main.cpp:130-143 | ten and twenty digits are enough for 32-bit and 64-bit values, and no fewer |
| PulseIntegrity.ElapsedIsTrueDuration | src/kegpulse/domain/pulse_integrity.py:65-71 | elapsed time recovers every true duration under half the clock and refuses any longer one within a rollover |
| Wire.WriteFrame | firmware/src/main.cpp:195-228 | the running check and the field loops write the checked frame, over the limit an INTERNAL error in its place, and nothing if that is too long as well |
| Wire.FrameLengthExact | firmware/src/main.cpp:195-212 | the size computed first is the size written |
| Wire.ResultFits | firmware/src/main.cpp:261-283 | every RESULT of a good result is at most 253 bytes |
| Wire.StatusFits | firmware/src/main.cpp:294-324 | every STATUS of a reachable machine is at most 245 bytes |
| Wire.BoundsReached | firmware/src/main.cpp:261-324 | both bounds are attained, by a good result and by one state |
| WidestRun.WidestReached | firmware/src/session_machine.cpp:75-328 | a run from power-on that reaches that state |
| Wire.FallbackNeverFires | firmware/src/main.cpp:195-228 | the INTERNAL fallback is never taken for RESULT or STATUS in any run |
| Wire.CommandsFit | firmware/include/kegpulse/protocol.hpp:8-12 | every ARM, CANCEL and ACK the host can form is at most 113 bytes, within the board's 128 |
| HostResult.ResultReadBack | src/kegpulse/application/coordinator.py:572-632 | every good result passes all structural checks of the host and is read back field for field; only the duration and rate envelope can refuse it |
| HostResult.ResultDelivered | firmware/src/main.cpp:261-283 | the bytes the board writes for any result of any run decode on the host to exactly that result, unless outside the envelope |
| HostResult.RecordGuarantees | src/kegpulse/application/coordinator.py:572-632 | whatever line a record was read from: its numbers are those of the texts under their names, in range and inside the envelope, its status ends an event, a time-out has no pulses and an attributed one a session id |
| HostCounters.CountersParsed | src/kegpulse/domain/pulse_integrity.py:74-88 | the host's snapshot of a reply is its counters, refused exactly when recovery exceeds accepted, the fault is no token or the accepted count is outside the envelope |
| HostCounters.CountersDelivered | firmware/src/main.cpp:326-343 | every COUNTERS of any run is at most 159 bytes, decodes, and is read back unless the accepted count is outside the envelope |
| HostCounters.EnvelopeInNumbers | src/kegpulse/domain/pulse_integrity.py:47-88 | counters are taken exactly up to 100000 edges and ten for each millisecond of uptime, and a thousand million from 99990000 ms on |
| StatusReport.StatusDelivered | firmware/src/main.cpp:294-324 | in every run a STATUS decodes and shows the open event, else the newest result still retained, else none, with the counts as they are |
| StatusReport.ArmCountsDown | firmware/src/session_machine.cpp:330-340 | after any quiet calls short of the deadline, arm_left at any later moment is the time still left, and a tick then ends the session if and only if it is 0 |
| StatusReport.ArmBegins | firmware/src/session_machine.cpp:75-117 | an ARM that opens an event starts that count at its time to live |
| HostCounters.RolloverRefusesExactly | src/kegpulse/domain/pulse_integrity.py:47-88 | genuine counters are accepted by the 32-bit uptime exactly when the true uptime is below one rollover or the count is inside the envelope of the time since the last one |
| HostCounters.RolloverDelivered | src/kegpulse/domain/pulse_integrity.py:74-88 | the same for the counters of every run of the board that is inside the envelope of its true uptime |
| HostCounters.RolloverExample | src/kegpulse/domain/pulse_integrity.py:74-88 | a run whose counters are refused when the clock comes round |
| Attribution.ScheduleIsNorm | src/kegpulse/application/coordinator.py:243-313 | rescheduling inserts a boundary in value order and coalesces, leaving a well-formed queue |
| Attribution.SafePassIsExact | src/kegpulse/application/coordinator.py:84-128 | from a safe queue a pass charges every context as if each boundary had committed when observed, whichever commits fail |
| Attribution.SafeExactly | src/kegpulse/application/coordinator.py:84-128 | the same under every pattern of failures and whenever the steps read the clock, if and only if the queue is safe |
| Attribution.UnsafePassMischarges | src/kegpulse/application/coordinator.py:243-313 | from every unsafe queue a failure pattern, by a clock that does not run back, and a context that is undercharged |
| CounterRuns.FoldedBoundaryMischarges | src/kegpulse/application/coordinator.py:243-313 | at 0.12 one failure folds a boundary past another keg's and its pulses are charged there |
| CounterRuns.StalledIsReachable | src/kegpulse/application/coordinator.py:84-128 | two passes the loop can make from an empty queue, 60 ms apart, lead to that state, and the pause after them is over by then |
| StreamRuns.GroupedIsSafe | src/kegpulse/application/coordinator.py:243-313 | on a stream in which no context comes back, every queue a run can hold is safe at every time |
| StreamRuns.GroupedIsTransparent | src/kegpulse/application/coordinator.py:84-128 | such a stream is charged, in every split into passes, under every pattern of failures and by every clock, as if each reading had committed when observed |
| StreamConverse.ReturningMischarges | src/kegpulse/application/coordinator.py:208-313 | for every nondecreasing stream in which one does, three passes the loop can make and a failure that undercharge a context |
| StreamConverse.TransparentExactly | src/kegpulse/application/coordinator.py:84-128 | both directions: all runs the loop can make of a nondecreasing stream, passes 50 ms apart and the clock never going back, attribute rightly if and only if no context comes back after another one counted |
| Coordinator.PassSeparates | src/kegpulse/application/coordinator.py:84-128 | a pass of the whole loop seen from one counter stream is a pass of that stream alone, unless the queue overflowed |
| LoopRuns.RunLoopSeparates | src/kegpulse/application/coordinator.py:84-128 | a run of the whole loop that loses nothing is, seen from one counter stream, a run of that stream alone |
| LoopRuns.LoopIsTransparent | src/kegpulse/application/coordinator.py:84-128 | so in every such run a grouped stream is charged rightly, whatever else shares the queue |
| LoopRuns.LoopTransparentExactly | src/kegpulse/application/coordinator.py:84-313 | and of the streams that fit the queue, only a grouped one is charged rightly in every run of that kind the loop can make |
| Coordinator.EventLoop.HandleEvent | src/kegpulse/application/coordinator.py:102-118 | defer behind a pending measurement, else process, else reschedule |
| Coordinator.EventLoop.ScheduleRetry | src/kegpulse/application/coordinator.py:130-178 | coalesces by identity keeping a result's first context, gives up on other events, and at 128 entries replaces an unimportant one or reports the loss |
| Coordinator.EventLoop.ScheduleCounterRetry | src/kegpulse/application/coordinator.py:243-313 | rebuilds the queue around the stream's sorted, coalesced boundaries |
| Coordinator.EventLoop.NormalizeLoop | src/kegpulse/application/coordinator.py:267-296 | the merging loop: equal values keep the first, one context keeps the last, deadlines never fall |
| Coordinator.EventLoop.Pass | src/kegpulse/application/coordinator.py:84-128 | splits off what is due, then handles it and what arrived |
| RetryLoss.PassLoses | src/kegpulse/application/coordinator.py:161-175 | a pass that loses a measurement held at least 128 entries, all of them measurements, when it did |
| RetryLoss.NeverLost | src/kegpulse/application/coordinator.py:130-178 | a run in which at most 128 different measurements arrive, results by identity and counters by stream and value, loses none, whatever fails and whatever else arrives |
| RetryHeld.ResultKept | src/kegpulse/application/coordinator.py:130-178 | in a run that loses nothing every result that arrived is committed or still queued under its identity |
| RetryHeld.ValueKept | src/kegpulse/application/coordinator.py:208-313 | and every counter value is committed or still queued, or one at least as high of its stream |
| RetryHeld.AllCommitted | src/kegpulse/application/coordinator.py:84-128 | with at most 128 different measurements, one pass in which everything is due and nothing fails commits all that ever arrived and empties the queue |
| RetryHeld.OtherRetried | src/kegpulse/application/coordinator.py:130-138 | any other event is tried thirteen times while there is room |
| RetryHeld.RetryDelays | src/kegpulse/application/coordinator.py:315-320 | a retry waits 0.1 s, doubled each time, at most 5 s |
| RetryHeld.FirstFailureWaits | src/kegpulse/application/coordinator.py:176-178 | a result that fails with nothing queued waits a tenth of a second |
| ResultOwner.PassKeepsOwner | src/kegpulse/application/coordinator.py:139-158 | through one pass a result keeps the event and context of its first observation, whatever is replayed or fails |
| LoopRuns.FirstArrivalOwns | src/kegpulse/application/coordinator.py:84-178 | over every run of the loop that loses nothing, a result belongs to its first arrival, in the queue and finally when committed |
| RepositoryObject.Repository.AdjustParticipantBalance | src/kegpulse/persistence/repository.py:139-168 | one ledger entry and the new balance, or an error and no change; sound tables stay sound |
| RepositoryObject.Repository.Charge | src/kegpulse/persistence/repository.py:206-250 | charges the rounded price unless it or the rate is not positive or the person unknown |
| RepositoryObject.Repository.ReassignPour | src/kegpulse/persistence/repository.py:1587-1684 | writes the audit row, moves a pour and its charge, refunding the old owner, or charges an uncharged one; sound tables stay sound |
| RepositoryObject.Repository.FinalizeDeviceResult | src/kegpulse/persistence/repository.py:1078-1262 | commits a result once, with its binding, duplicate, calibration-session and empty time-out cases; sound tables stay sound |
| RepositoryObject.Repository.CheckpointRecoveryPulses | src/kegpulse/persistence/repository.py:1264-1408 | materializes only what is new in a cumulative reading, or refuses it; sound tables stay sound |
| LedgerRuns.ReassignKeeps | src/kegpulse/persistence/repository.py:1587-1684 | a reassignment keeps every table invariant |
| LedgerRuns.FinalizeKeeps | src/kegpulse/persistence/repository.py:1078-1262 | so does committing a result |
| LedgerRuns.CheckpointKeeps | src/kegpulse/persistence/repository.py:1264-1408 | so does a recovery checkpoint: recovery pours of a boot add up to its checkpoint |
| LedgerRuns.RunKeepsSound | src/kegpulse/persistence/repository.py:139-250 | over every run, balances are ledger sums, entries show running balances, a pour's entries net to minus its charge on its owner and zero on others, and no result key has two rows |
| LedgerTheorems.BalanceExplained | src/kegpulse/persistence/repository.py:206-250 | a balance is the adjustments made less the charges of the pours that now carry the person's name, whatever was reassigned |
| LedgerTheorems.ReassignBack | src/kegpulse/persistence/repository.py:1612-1671 | reassigning a charged pour and giving it back restores every balance and the charge |
| LedgerAudit.AuditExplainsOwners | src/kegpulse/persistence/repository.py:1600-1609 | over every run of transactions a pour belongs to whoever its last audit row gave it to, and each row took it from whoever the row before gave it to |
| LedgerTheorems.PriceIsNearest | src/kegpulse/persistence/repository.py:224-230 | a price is within half a cent of volume times rate, ties up |
| LedgerBilling.CommitBills | src/kegpulse/persistence/repository.py:1191-1254 | a fresh result of a session of a known person, with factor f and a positive rate: the balance falls by exactly the whole cents nearest to pulses / f / 29.5735295625 * rate, no other balance moves, and the pour has the session's person, keg and calibration and the volume pulses / f |
| LedgerBilling.PourCommitted | src/kegpulse/persistence/repository.py:1078-1262 | for every fresh pour: the row it stores, from the session or from the context captured, and who pays what for it, or that nobody does |
| LedgerBilling.RowOnly | src/kegpulse/persistence/repository.py:1141-1189 | a calibration session's result and an empty time-out add one result row and nothing else |
| LedgerBilling.UnattributedIsFree | src/kegpulse/persistence/repository.py:1193-1200 | nobody pays for a result without a session |
| LedgerBilling.BillExample | src/kegpulse/persistence/repository.py:224-250 | 1000 pulses at 10 a millilitre and 100 cents an ounce are 338 cents |
| LedgerBilling.ResultTaken | src/kegpulse/persistence/repository.py:1086-1139 | a result is refused exactly outside the envelope, an attributed one not bound to its event is a conflict, and of the rest a known one is a duplicate |
| LedgerBilling.ReadingTakenExactly | src/kegpulse/persistence/repository.py:1278-1320 | a recovery reading is taken if and only if it is in range, goes back on neither counter, claims no more recovery than edges, is less than half a clock turn later and inside the envelope |
| LedgerBilling.RecoveryPour | src/kegpulse/persistence/repository.py:1321-1408 | a recovery pour is nobody's, has just the difference, the keg and calibration captured with the reading, or the current ones when none was, and the volume by that factor |
| LedgerBilling.AdjustmentBooked | src/kegpulse/persistence/repository.py:139-168 | an adjustment reaches one balance by its cents, and when it is refused |
| LedgerBilling.ReassignBills | src/kegpulse/persistence/repository.py:1612-1671 | giving an uncharged pour to a person charges them its price |
| LedgerBilling.RunLasts | src/kegpulse/persistence/repository.py:1078-1408 | over every run no pour changes its measurement, keg, calibration or volume, no charge its amount, and no checkpoint goes back |
| LedgerAttribution.BookingsAttribute | src/kegpulse/persistence/repository.py:1264-1408 | readings booked in order pour each context's rise from its own keg under its own calibration |
| LedgerAttribution.ObservedIsPoured | src/kegpulse/application/coordinator.py:84-128 | from observation to the pours: a stream in which no context comes back, once the retry queue has emptied, is poured context by context as if each reading had been committed when observed |
| LedgerTheorems.ReplayChangesNothing | src/kegpulse/persistence/repository.py:1122-1133 | a committed result replayed after any transactions changes nothing and is reported as a duplicate, unless its session was bound to another event |
| LedgerTheorems.GenuineReadingAccepted | src/kegpulse/persistence/repository.py:1289-1320 | a later reading of the same firmware run passes every check but the rate envelope, which sees the true elapsed time across a rollover |
| LedgerTheorems.FirstReadingAccepted | src/kegpulse/persistence/repository.py:1289-1320 | the first reading of a boot is held only against its uptime |
| PourExport.IterPours | src/kegpulse/persistence/repository.py:1555-1585 | the paged export is strictly newest first, holds every pour there at the start and none that never was, whatever is inserted between pages |
| DeliverySafety.StepKeeps | src/kegpulse/application/coordinator.py:322-397 | every step of boards, channel and host keeps: messages genuine, acknowledgements only for what is kept, rows genuine |
| DeliverySafety.BootTextInjective | firmware/src/main.cpp:145-152 | two boots of one board never share a text |
| DeliveryTheorems.NoResultLost | src/kegpulse/application/coordinator.py:336-390 | in every reachable state each result a boot finalized is in its store or durable on the host: committed, or quarantined when outside the envelope |
| DeliveryTheorems.OnlyDurableRemoved | firmware/src/main.cpp:449-468 | no acknowledgement, stale, repeated or for another boot, removes a result before the host has it |
| DeliveryTheorems.PulsesBalance | src/kegpulse/persistence/repository.py:1105-1408 | in every run, what the host holds of a boot, what is retained and not held, what is open and the recovery counter add up to the pulses fed in plus the host's checkpoint for it, until a clamp fires, and are never more |
| DeliveryTheorems.HostNeverExceedsBoard | src/kegpulse/persistence/repository.py:1105-1408 | committed, recovery and quarantined pulses, with those still to come, stay within what the boot counted if, and short of a clamp only if, the checkpoint is not ahead of the boot's recovery counter |
| DeliveryTheorems.ExactlyOnce | src/kegpulse/application/coordinator.py:322-397 | when nothing is open, all results are delivered and nothing clamped, the host holds every pulse fed in once if and only if its checkpoint is the boot's recovery counter |
| DeliveryTheorems.HonestNeverExceeds | src/kegpulse/serialio/manager.py:371-397 | when every reading is stamped with the boot it came from, no checkpoint is ahead of its board |
| DeliveryProgress.AckExactly | src/kegpulse/application/coordinator.py:336-390 | in every run, processing a RESULT sends exactly one ACK, for its boot and number, if the host accepts it and last shook hands with that boot, and otherwise none; what is not accepted changes nothing |
| DeliveryProgress.RetainedIsReleased | src/kegpulse/application/coordinator.py:336-390 | in every run, a sent, acceptable result of the live boot is acknowledged once heard after a handshake and processed, and that ACK takes it, and no other, out of the store |
| DeliveryProgress.StoreCanEmpty | src/kegpulse/application/coordinator.py:322-397 | from every reachable state, if the host accepts all the live boot retains, some continuation makes it all durable and empties the store |
| DeliveryProgress.ExactlyOnceIsReached | src/kegpulse/application/coordinator.py:322-397 | and, with nothing open and its counters bookable, ends with the host holding every pulse of that boot once |
| DeliveryLine.QueuedResultWasHeard | src/kegpulse/serialio/manager.py:399-406 | in every run a queued RESULT was heard on a line whose last handshake was with its own boot |
| DeliveryLine.QueuedCountersWereHeard | src/kegpulse/serialio/manager.py:371-397 | and queued counters on a confirmed line, stamped with its boot, when they differed from the last |
| DeliveryLine.ConfirmedByStatus | src/kegpulse/serialio/manager.py:347-353 | a line is confirmed only since a STATUS with the text of its boot, with no handshake or hang-up after it |
| DeliveryLoss.DurableWasSent | src/kegpulse/application/coordinator.py:322-351 | whatever is durable was sent by the boot that finalized it |
| DeliveryLoss.LostWithBoot | firmware/src/session_machine.cpp:282-307 | a result finalized and not sent when its board reset never becomes durable |
| DeliveryLoss.LostExactly | src/kegpulse/application/coordinator.py:322-351 | of the results the host would accept, exactly those sent before their board came back under a new boot can still become durable |
| DeliveryRollover.NothingCheckpointed | src/kegpulse/serialio/manager.py:371-397 | in every continuation that reports the same counters, whose last queued reading is refused, no checkpoint moves |
| DeliveryRollover.HeldBackAfterRollover | src/kegpulse/serialio/manager.py:371-397 | so a reading refused after a rollover is not made up for when the uptime would admit it |
| DeliveryMisstamped.ReadingBooked | src/kegpulse/serialio/manager.py:371-397 | a reading the repository accepts is booked in full to the boot of the last handshake, wherever it came from, and to no other |
| DeliveryMisstamped.BookedToOldBoot | src/kegpulse/serialio/manager.py:347-397 | for every device, a run with the shipped timers in which a reset in place books five pulses to a boot that counted none |
| DeliveryMisstamped.BookedTwice | src/kegpulse/serialio/manager.py:347-397 | and, once a further pulse makes the counters differ, all six to the new boot |
| Calibration.Pool | src/kegpulse/domain/calibration.py:118-119 | the pooled sums over the included samples |
| Calibration.Rows | src/kegpulse/domain/calibration.py:125-131 | each included sample takes the flag at its own rank among the included, and no other sample a flag |
| Calibration.AnalyzeCalibration | src/kegpulse/domain/calibration.py:99-141 | the factor, one row a sample and the spread, or the first error that applies |
| CalibrationRows.RowMeans | src/kegpulse/domain/calibration.py:125-131 | predicted times the factor is the pulses, predicted less residual is mass over density, and percentage times that volume a hundred times the size of the residual |
| CalibrationRows.ResidualSign | src/kegpulse/domain/calibration.py:125-131 | a residual is positive exactly when the sample's ratio exceeds the factor |
| CalibrationRows.MedianIsMiddle | src/kegpulse/domain/calibration.py:84-87 | the median is halfway between the values of the two middle ranks, each the only one of its rank |
| CalibrationRows.FlaggedExactly | src/kegpulse/domain/calibration.py:84-96 | a ratio is flagged exactly beyond 7000/1349 times the median deviation, or beyond a twentieth of the median where that is zero |
| CalibrationRows.SpreadMeans | src/kegpulse/domain/calibration.py:134-140 | the spread in the ratios' sum and sum of squares alone |
| CalibrationTheorems.ResidualsCancel | src/kegpulse/domain/calibration.py:121-131 | the residuals of the included samples sum to zero |
| CalibrationTheorems.FactorBetweenRatios | src/kegpulse/domain/calibration.py:118-121 | the factor lies within any bounds on the included ratios |
| CalibrationTheorems.SupportedNeverFails | src/kegpulse/domain/calibration.py:102-123 | for samples the constructor accepts, only the two counts can fail |
| CalibrationTheorems.AtMostHalfFlagged | src/kegpulse/domain/calibration.py:84-96 | at most half of any list of ratios is flagged |
| CalibrationTheorems.AtMostHalfOfSamplesFlagged | src/kegpulse/domain/calibration.py:123-131 | an analysis flags at most half of the included samples and no other |
| CalibrationTheorems.FlagsFollowReordering | src/kegpulse/domain/calibration.py:84-96 | equal ratios of two reordered lists are flagged alike |
| CalibrationTheorems.FlagsIgnoreScale | src/kegpulse/domain/calibration.py:84-96 | multiplying every ratio by a positive number changes no flag |
| CalibrationTheorems.SpreadZeroExactly | src/kegpulse/domain/calibration.py:134-140 | the spread is never negative, and zero exactly when all included ratios are equal |
| CalibrationTheorems.ZeroDeviationExactly | src/kegpulse/domain/calibration.py:87-90 | the median deviation is zero exactly when more than half of the ratios are the median |
| CalibrationTheorems.JitterTolerated | src/kegpulse/domain/calibration.py:90-95 | with more than half of the ratios one value, every unequal ratio is flagged if and only if none lies within five percent of it without being it |

## Left out

- Wire.CommandsFit: covers ARM, CANCEL and ACK; the short HELLO, PING, STATUS, COUNTERS and RESULTS requests only add easier cases.
- NanoParser.ParseFrame: does not model `strtok_r` writing NULs into the line; tokens are values, so aliasing of the parsed frame with the receive buffer is not captured.
- Attribution.SafePassIsExact: does not claim exactness for every queue, because `Attribution.SafeExactly` shows the code is exact from safe queues only.
- LoopRuns.LoopTransparentExactly: takes streams of at most 128 readings; with more the queue may overflow, which is a loss and not a mischarge.
- DeliveryTheorems.ExactlyOnce: leaves out `recover_same_boot_delta`.
- Coordinator.EventLoop.HandleEvent: the commit and the ACK behind it are a log entry or a failure; what they do to the tables and the board is in `Repository` and `Delivery`.
- RepositoryObject.Repository.FinalizeDeviceResult: the status and captured count written back to the session row are not stored, because nothing in the model reads them.
- Calibration.AnalyzeCalibration: the spread is the square of the coefficient of variation as a fraction; the code reports a hundred times its root.
- Refinement.RunMatches: compares open event, results, lifetime, recovery and next sequence on usable calls; the state label, which the two sides reset at different moments, and saturated counters are not compared.
- LedgerTheorems.PriceIsNearest: exact reals stand for Decimal values; precision contexts are not modelled.
- `recover_same_boot_delta`: it takes the whole lifetime delta since binding, so it is exact only if nothing else of that boot was committed in between.
- The retry queue model carries a counter reading's recovery value and context. It takes readings the host does not reject: one that does not parse or is implausible is quarantined and dropped, not retried, and a commit that fails in the model is any other failure.
- In the delivery model counters may be stamped with any uptime, and a reading is booked without waiting in the retry queue.
- In the delivery model a failed or timed-out request is a step that does not happen, and a reset takes a boot identity never used before; when boot identities repeat is stated in `BootIdentity`.
- A torn EEPROM write is taken to be recognized by its magic and CRC; what a torn record may look like byte by byte is not modelled.
- In the delivery model the board may send any retained result at any time, which includes what `emit_new_results` and RESULTS send.
- The simulator's request handlers, reset and raw injection; a reset that cuts a frame in half may join two frames on the line, which the channel theorem does not cover.
- SQL text and SQLite durability: a transaction either applies or leaves the tables unchanged; ids are positions, timestamps are ranks, and session status, photos, samples and the truncation of texts are not stored.
- A schema reference to a keg, calibration or session that would be violated is one Conflict; unique ids from uuid5 are taken not to collide.
- Anomaly pruning at 500 rows: quarantined results are kept.
- The guard that activates a calibration.
- Threads, asyncio and queue timing of the connection manager; HTTP, websocket, user interface, camera, PIN, backup and logging code; unit conversion and range validators.
