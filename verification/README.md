# Verified model of a speaker and charging-case firmware

The firmware drives a Bluetooth speaker chip and a charging case for ear buds. Most of it moves
registers; the files modelled here hold algorithms and state machines whose behaviour over whole
runs is worth proving. Each source file has two kinds of modules. One describes the file's state as
a value and each operation as a function, and proves lemmas about single operations and about all
runs. The other holds the source's own form - a class with its fields, arrays updated in place, the
loops - and proves each method equal to its function.

| modules | what they model | main results |
|---|---|---|
| `ToneMaker`, `ToneStream`, `ToneSound`, `SinTone` | resumable tone generator | the audio of every list under every split into calls, and what every frame of it sounds like; when the split makes no difference; exact length; exact condition for the loop to end |
| `UartQueue`, `UartDev` | UART receive ring fed by DMA | bytes read are a prefix of bytes received over every interleaving and counter wrap, and all of them exactly when no announcement is lost |
| `I2cBus`, `I2cSampling`, `SoftIic`, `GSensor` | bit-banged I2C master (NXP UM10204 sections 3.1.3 to 3.1.6) and the motion sensor's accesses over it | start, stop and data-validity conditions of whole transactions; write and read round trips; what is read is what the slave holds at the rising edges |
| `ChargeBox`, `ChargeBoxSafety`, `ChargeBoxHandshake`, `ChargeBoxCtrl` | charging-case controller with its comm thread | one inductive invariant over all event orders; handshake conservation and power only after it; the exact races that break this for the 5 V switch |
| `ChargeBoxOutputs`, `ChargeBoxPorts`, `ChargeBoxLedger`, `ChargeBoxFields`, `ChargeBoxEars`, `ChargeBoxCounters` | the same controller, variable by variable | for each output, pin, message and variable, exactly which steps change it and to what; when power stops and stays off; pins and 5 V exclude each other up to exact races |
| `AdcQueue`, `AdcTiming`, `AdcApi` | ADC round robin with occupy mode | every value stored by a scan comes from its slot's channel, with the exact discipline needed; fairness over runs; periodic starts exactly when due |
| `VolumeRamp`, `VolumeMix`, `Ducking`, `DvolList` | digital volume stage | linear ramp, the exact sound of a faded buffer, chunking, strided loop equals ramped loop, ducking restores |
| `TouchFilter`, `Plcnt` | touch-key baseline filter | no overshoot, exact range without wrap, convergence and its rate |
| `SoftLed`, `LedFades`, `LedPanel` | soft-PWM breathing LEDs | invariant, duty of a period, idle is reached, exact length and shape of ramps, breaths and flashes; exactly when a fade starts without a jump |
| `TrimmedMean`, `PowerDetect`, `LevelVote` | battery, wireless, USB and lid detection | sort and trimmed mean with exact fault tolerance; alternating events |
| `IrCodec`, `Irflt` | infrared sender and receiver | round trip of every 32-bit code from sender to receiver under jitter and timer ticks; exact condition on what precedes the frame |
| `ChargerDetect`, `Charge` | 5 V input debouncer | exact condition for confirming a zone, events only on a change of zone |
| `ClockDemand`, `ClockManager` | clock demand table | slots refine a set of types; exact condition for the least sufficient frequency, independent of call order |
| `CInt`, `Bits` | C integer widths, bits and powers of two | shared arithmetic |

## How the hardware and the threads are modelled

- Integers are unbounded; every place where the source's width can matter applies `U8`, `U16`,
  `U32`, `S16` or `S32` explicitly.
- Registers, GPIO, timers and posted events are fields or traces of the models. A timer is whether
  it is armed; interrupts and timer callbacks are steps that may come in any order.
- The case controller runs in a main task, a comm thread and interrupts. The comm thread's
  `exit_hook` first tests the mode and later switches the output; the model keeps these as two
  steps, so another task can run in between. A handler that blocks on the mutex is modelled as
  waiting and resumed by a later step.
- The UART hardware writes bytes round the ring and counts them towards the current frame; a
  completed frame raises one flag, whatever has been served. The interrupt handler's two tests are
  two steps, so bytes may arrive between them.
- The sine function of the tone generator is a parameter, because the original is foreign assembly;
  its values are cut to the 32 bits the source holds them in. The volume mixer follows the C form of
  the macro, not the assembly form.
- `adc_check_vbat_lowpower` returns 0 on every path, so the battery judgement does not take its
  result as an input.

## Where the code falls short of what it promises

The models keep the code as it is. For each point below, the lemma named gives inputs that show it,
or the exact condition under which the promise holds, or both.

- A tone list whose first tone has no points, and which has more tones or repeats, moves on to the
  next tone when a call ends inside the opening prefix, so it sounds different when requested in
  pieces (`ToneStream.CallsAgreeIff`, `TwoCallsAgreeIff`, `ChunkUnsafe`; `CallsFollowPieces` says
  what it does sound like). A first call of 480 frames or more avoids it (`LongFirstCall`).
- The comm thread's `exit_hook` switches the 5 V output on outside CHARGE if the mode changes
  between its test and its switch (`ChargeBoxSafety.RaceIff`, `RaceHappens`), and before the
  CLOSE_LID handshake is complete if a step there arms it again
  (`ChargeBoxHandshake.SwitchAfterFiveIff`, `SwitchAfterRunIff`, `PoweredTooEarly`).
- The end of temperature protection brings 5 V back only when a short is flagged or seen; without
  one the case takes the ears for full (`ChargeBoxOutputs.ResumesIffShort`).
- 5 V can be on with the pins the ears are talked to over not shut, or without charging, if charging
  ends or heat comes between the test and the switch of `exit_hook`, or a short ends with 5 V on
  (`ChargeBoxPorts.WireSafeIff`).
- Entering ADC occupy mode twice, or leaving it without taking the result, lets a scan store a value
  of another channel, unless occupy mode was on that channel too (`AdcQueue.EnterKeepsChannelIff`,
  `ExitKeepsChannelIff`, `EnterTwiceStoresForeign`, `ExitUntakenStoresForeign`).
- Running ADC occupy mode twice in a row hands out, as the occupy channel's, the pending result of
  the scanned channel (`AdcQueue.RunReturnsOccupiedIff`, `RunTwiceReturnsForeign`).
- Adding a channel while a freed slot's conversion is pending stores that result under the new
  channel (`AdcQueue.AddKeepsOwedIff`, `AddGivenAwayStoresForeign`).
- Two nested foreground opens lose the volume of a ducked voice (`Ducking.NestedOpenForgets`). A
  request above the maximum made while a voice is ducked is restored unclamped, so the volume ends
  above its maximum (`Ducking.RestoredWithinIff`, `RestoredAboveMax`); the table is read out of
  range only for some of these requests (`Ducking.RequestLeavesTableIff`). Ducking swaps two voices
  at volumes 9 and 10, or 13 and 14: the louder one ends quieter (`Ducking.DuckKeepsOrderIff`).
- A UART frame completed before the interrupt of the last one was served, or between the two tests
  of the interrupt handler with a timeout pending, is never announced, and readers lag behind by as
  many bytes from then on (`UartQueue.DrainsAllIff`, `ServiceLosesIff`, `LossHappens`,
  `TwoFramesMerge`).
- The touch filter wraps for samples above 32767 (`TouchFilter.KeepsRangeIff`).
- A breathing request made at full duty takes one control step more than the step counts say
  (`SoftLed.BreatheRequestLasts`).
- Fades are matched to the present light by the ramp they replace, so a LED that breathed slowly
  jumps when it is switched on, and one that is fading out because another was chosen lights up when
  it is then switched off (`LedFades.SwitchOnSmoothIff`, `SwitchOffSmoothIff`).
- Flashes asked for in the light or the dark phase of a breath are dropped
  (`LedFades.FlashDroppedIff`).
- The first infrared frame after a pause is lost if the pause, in the 16 bits it is measured in,
  happens to read as less than 3 ms (`IrCodec.AfterPauseIff`, `FrameReceivedIff`).
- A plug-out filter above 65525 can never be satisfied (`ChargerDetect.OffConfirmableIff`).
- Add then remove of a clock type that was already active switches its clock off
  (`ClockDemand.AddRemoveRestoresIff`).
- Clock demands of 2^16 MHz and more wrap, beyond any list that is shipped
  (`ClockDemand.FrequencyCoversIff`, `ModestFits`).

## Model

| member | source | states |
|---|---|---|
| ToneStream.CallFollowsStream | apps/common/audio/sine_make.c:188-294 | for every list, a call for n frames returns the next n frames of the list described frame by frame (phase k*add mod 2^25, constant volume for the 480-frame prefix, then max(0, TOTAL - j*decay)) and leaves the generator at the frame after them - or, if that lies in the prefix of a tone without points, at the start of the following tone |
| ToneStream.CallsFollowPieces | apps/common/audio/sine_make.c:188-294 | for every list and every split into calls, the audio is that of the pieces: each continues where the last one left the generator |
| ToneStream.ChunkIndependent | apps/common/audio/sine_make.c:188-294 | for a list that starts with an audible tone or is a single one-shot tone, any split of a request into calls yields the audio of one big call |
| ToneStream.LongFirstCall | apps/common/audio/sine_make.c:188-294 | for every list, chunk-safe or not, any split whose first call takes the whole prefix of 480 frames yields the audio of one big call |
| ToneStream.CallsAgreeIff | apps/common/audio/sine_make.c:188-294 | for every list whose calls end and every split, the calls give the audio of one big call if and only if each of them, from where the one before it left the generator, plays what the list has there |
| ToneStream.TwoCallsAgreeIff | apps/common/audio/sine_make.c:188-294 | in frames: for every list that is not chunk-safe, every sine and every split k + n inside the prefix, the two calls give the audio of one if and only if frames k to k + n of the first tone are those the following tone starts with |
| ToneStream.SplitDiffersIff | apps/common/audio/sine_make.c:188-294 | in particular two calls of one frame differ from one call of two if and only if the second frame of the first tone differs from the first frame of the next |
| ToneStream.ChunkUnsafe | apps/common/audio/sine_make.c:188-294 | they do differ for every such list of plain 200 Hz tones and every 32-bit sine that is 0 at phase 0 and between 2^10 and 2^24 one sample later |
| ToneStream.OneShotLength | apps/common/audio/sine_make.c:188-294 | every one-shot list, however it is requested, gives exactly 480 + sum of points frames and then nothing |
| ToneStream.SampleIsFrame | apps/common/audio/sine_make.c:235-271 | inside a tone, sample i of the inner loop is frame off + i of the description, whatever volume decrement is in force |
| ToneStream.PassFollowsStream | apps/common/audio/sine_make.c:188-294 | one turn of the loop, silent or not, advances along the description by the frames it wrote |
| ToneStream.StreamSplits | apps/common/audio/sine_make.c:188-294 | the next a + b frames are the next a frames, then b frames from where those end |
| ToneStream.OpenStands | apps/common/audio/sine_make.c:31-67 | a freshly opened generator stands at the first frame of the list |
| ToneSound.CallSounds | apps/common/audio/sine_make.c:188-294 | for sines of amplitude at most 2^24 and volumes that do not grow, every frame f of a call has 2^34 f <= loudness * sine(phase) < 2^34 (f + 1) at its place in the list, where the loudness is the sine of the window phase for a windowed tone and max(0, 26843546 - decay * frames past the prefix) for a plain one |
| ToneSound.IncrementIsFrequency | apps/common/audio/sine_make.c:205-233 | a phase of 2^25 steps a turn, advanced 16000 times a second, turns freq / 512 times a second to within one step of the advance |
| ToneSound.ToneAt | apps/common/audio/sine_make.c:188-294 | frame j of a one-shot list is in the tone, and at the offset, that j frames of prefix and tones before it leave; after 480 + sum of points frames comes nothing |
| ToneSound.ToneComesRound | apps/common/audio/sine_make.c:188-294 | a repeating list with an audible tone comes round: past its prefix, frame j of the cycle is the one that j modulo the sum of points precede |
| ToneMaker.LoopEndsIff | apps/common/audio/sine_make.c:205-291 | the do-while loop ends if and only if the list is one-shot, some tone has points, or the request fits into the opening prefix |
| ToneMaker.PassProgress | apps/common/audio/sine_make.c:205-291 | each turn of an ending loop either consumes frames or moves closer to audio or to the end of the list, so the recursion that defines a call is well founded |
| SinTone.SinToneOpen | apps/common/audio/sine_make.c:31-67 | `sin_tone_open`: no generator for an empty list or without memory, otherwise one at the start of the description |
| SinTone.SinToneMaker.Make | apps/common/audio/sine_make.c:188-294 | `sin_tone_make`: the buffer holds the frames of one call interleaved over the channels - for sines of amplitude at most 2^24 each of them the product of loudness and sine over 2^34 its place in the list gives -, what lies behind is untouched, the byte count is len minus the unused frames, and the object is in the state after the call |
| SinTone.InterleavedAt | apps/common/audio/sine_make.c:248-266 | copy j of frame i stands at entry i * copies + j of the buffer |
| SinTone.SinToneMaker.Turn | apps/common/audio/sine_make.c:205-291 | one turn of the loop keeps the account of what is written and what the rest of the call will add, and decreases the loop measure |
| SinTone.SinToneMaker.Render | apps/common/audio/sine_make.c:235-271 | the inner loop writes one tone segment, copied over 1, 2 or 4 channels, and steps both phases and the volume accordingly |
| SinTone.SinToneMaker.TonePoints | apps/common/audio/sine_make.c:296-307 | `sin_tone_points` is the sum of the points of the list |
| UartQueue.AcceptedSizes | cpu/br25/uart_dev.c:802-806 | the size & (size - 1) check accepts exactly the powers of two |
| UartQueue.RingIndex | cpu/br25/uart_dev.c:57-71 | masking a counter that wrapped at 2^32 still gives the ring index of the unwrapped count |
| UartQueue.CountersAgree | cpu/br25/uart_dev.c:57-75 | the wrapped difference of the counters is the number of published unread bytes, at most the ring size |
| UartQueue.GetIsNextBytes | cpu/br25/uart_dev.c:57-71 | the two slices taken from the ring are the oldest published unread bytes, in order, as many as asked for or available |
| UartQueue.StepKeepsInv | cpu/br25/uart_dev.c:57-209 | DMA writes, idle line, interrupts and reads keep the ring invariant in any order, given no overrun |
| UartQueue.OverrunIff | cpu/br25/uart_dev.c:131-165 | a DMA write leaves the unread bytes as received if and only if the ring was not full (or the byte equals the one it replaces) |
| UartQueue.StepAnnounces | cpu/br25/uart_dev.c:131-165 | each step announces exactly what is due: a full frame at the first test, the partial one at the second, nothing otherwise |
| UartQueue.TimeoutDueIff | cpu/br25/uart_dev.c:141-164 | over any run a timeout is due if and only if the line has gone idle since the last one was served |
| UartQueue.RunKeepsInv | cpu/br25/uart_dev.c:57-209 | over any run without overrun the invariant holds and the history is what the DMA engine was fed |
| UartQueue.DeliveredIsPrefix | cpu/br25/uart_dev.c:57-209 | over every interleaving that does not overrun the ring, frames completed before the last one was served included, the concatenation of all bytes read is a prefix of all bytes received, across ring and counter wrap |
| UartQueue.QuietLineDrains | cpu/br25/uart_dev.c:131-209 | after idle line, interrupt and one large read everything received has been delivered but for lost announcements |
| UartQueue.DrainsAllIff | cpu/br25/uart_dev.c:131-209 | over every run without overrun, followed by idle line, interrupt and one large read, everything that arrived has been delivered if and only if, with a completed frame unannounced, no timeout was served and no other frame completed |
| UartQueue.ServiceLosesIff | cpu/br25/uart_dev.c:141-164 | one service of the interrupt, with anything between its two tests, loses an announcement if and only if the bytes arriving between the tests complete two frames, or complete one and the line went idle before the second test |
| UartQueue.LossHappens | cpu/br25/uart_dev.c:141-164 | from a newly opened port with one-byte frames: line idle, first test, a byte, second test; after idle line, interrupt and a large read that byte is still withheld |
| UartQueue.TwoFramesMerge | cpu/br25/uart_dev.c:141-148 | from a newly opened port with one-byte frames: two bytes before the interrupt is served; after idle line, interrupt and a large read the second is still withheld |
| UartDev.DevOpen | cpu/br25/uart_dev.c:764-862 | opening fails exactly when no port is idle or a ring is given whose size is not a power of two; without a ring there is no receive queue |
| UartDev.UartBus.constructor | cpu/br25/uart_dev.c:258-282 | an opened port has empty counters over the given ring |
| UartDev.UartBus.DmaByte | cpu/br25/uart_dev.c:258-282 | a received byte lands in the next ring slot; a full frame raises the interrupt, unannounced if it is up already |
| UartDev.UartBus.IsrFrame | cpu/br25/uart_dev.c:141-148 | the handler publishes a full frame |
| UartDev.UartBus.IsrTimeout | cpu/br25/uart_dev.c:149-164 | after a timeout it publishes the partial frame and clears the frame flag again, dropping a frame completed meanwhile |
| UartDev.UartBus.RingCopy | cpu/br25/uart_dev.c:57-71 | the two memcpy calls put the ring part up to its end, then the part from its start, into the caller buffer and leave the rest of it alone |
| UartDev.UartBus.KfifoGet | cpu/br25/uart_dev.c:57-71 | `kfifo_get` returns the next published bytes, up to len, and advances the out counter by them |
| UartDev.UartBus.ReadBuf | cpu/br25/uart_dev.c:174-209 | `UT0_read_buf` in DMA mode returns the next bytes and keeps delivered a prefix of received |
| I2cBus.TransactionConditions | cpu/br25/iic_soft.c:136-304 | in start, any bytes and repeated starts, stop: SDA moves under high SCL once per start (falling) and once at the stop (rising) and never otherwise; SCL is low between bytes; the bus ends idle (UM10204 sections 3.1.3 and 3.1.4) |
| I2cBus.TxOnBus | cpu/br25/iic_soft.c:175-267 | a byte sent drives its eight bits most significant first, releases SDA for the ninth clock, and never moves SDA under high SCL |
| I2cBus.RxOnBus | cpu/br25/iic_soft.c:206-304 | a byte received leaves SDA floating for eight clocks and then drives the acknowledge bit |
| I2cBus.StartOnBus | cpu/br25/iic_soft.c:136-155 | a start, first or repeated, is exactly one falling edge of SDA under high SCL |
| I2cBus.StopOnBus | cpu/br25/iic_soft.c:157-173 | a stop is exactly one rising edge under high SCL and leaves the bus idle |
| I2cBus.BitsRoundTrip | cpu/br25/iic_soft.c:242-304 | assembling the transmitted bits, most significant first, gives the byte back |
| I2cBus.WriteRoundTrip | cpu/br25/iic_soft.c:321-336 | sampling SDA at every SCL rise of a buffer write recovers the bytes sent, each followed by one acknowledge slot (UM10204 sections 3.1.5 and 3.1.6) |
| I2cBus.ReadAnswers | cpu/br25/iic_soft.c:307-319 | a buffer read acknowledges every byte but the last |
| I2cBus.BufferWrite | cpu/br25/iic_soft.c:136-336 | start, a buffer write and stop: one falling and one rising edge under high SCL, whatever is refused, the bus left idle, and the bytes sent recovered by a listener |
| I2cSampling.TransactionSamples | cpu/br25/iic_soft.c:136-304 | in start, any bytes and repeated starts, stop, every look at SDA comes with SCL high and SDA let go |
| I2cSampling.RxReadsHeld | cpu/br25/iic_soft.c:206-304 | from a slave that keeps SDA steady under high SCL, the eight levels read are those it holds at the eight rising edges of SCL |
| I2cSampling.SlotReadsHeld | cpu/br25/iic_soft.c:175-204 | and the acknowledge read is the level it holds at the ninth |
| SoftIic.TopBitAfterShift | cpu/br25/iic_soft.c:252-257 | testing the top bit of the byte shifted left i times walks its bits from bit 7 down |
| SoftIic.WriteHeard | cpu/br25/iic_soft.c:321-336 | what the slave clocks in is the bytes up to and including the refused one, or all of them |
| SoftIic.Master.Start | cpu/br25/iic_soft.c:136-155 | the pin actions of `soft_iic_start` |
| SoftIic.Master.Stop | cpu/br25/iic_soft.c:157-173 | the pin actions of `soft_iic_stop` |
| SoftIic.Master.CheckAck | cpu/br25/iic_soft.c:175-204 | the acknowledge is the inverted level sampled under the ninth clock |
| SoftIic.Master.TxByte | cpu/br25/iic_soft.c:242-267 | the loop drives exactly the actions of one transmitted byte and returns the acknowledge |
| SoftIic.Master.RxByte | cpu/br25/iic_soft.c:206-304 | the value returned is the one denoted by the eight levels sampled, followed by the answer asked for; for every slave that changes SDA only under low SCL it is the byte the slave holds at the rising edges |
| SoftIic.Master.WriteBuf | cpu/br25/iic_soft.c:321-336 | returns the index of the first byte refused or len (0 for a negative len, -1 for no buffer or len 0), having sent exactly the bytes up to there |
| SoftIic.Master.ReadBuf | cpu/br25/iic_soft.c:307-319 | fills the buffer with the values of the frames clocked in, acknowledging all but the last |
| GSensor.Command | apps/common/device/gSensor/gSensor_manage.c:100-130 | `gravity_sensor_command`: whatever is refused, one transaction that meets the bus conditions and leaves the bus idle; 1 if and only if chip, register and command were all acknowledged; the slave hears the bytes up to the refused one |
| GSensor.GetData | apps/common/device/gSensor/gSensor_manage.c:132-174 | `_gravity_sensor_get_ndata`: on every path one transaction, with a repeated start if the register was accepted, that meets the bus conditions and leaves the bus idle; 0 and an untouched buffer if something was refused, otherwise the bytes clocked in, one even when none are asked for |
| GSensor.RegisterActs | apps/common/device/gSensor/gSensor_manage.c:132-174 | the pin actions of a register read are those of its bytes and repeated start, until one is refused |
| ChargeBoxSafety.ReachableBase | apps/common/charge_box/chgbox_ctrl.c:82-1190 | in every state reachable from power-on, races included: boost only in CHARGE; `charge` only in CHARGE with both counters 0; each counter 0 or 0x80..0x85 and never both; pairing only in COMM; no auto-shutdown timer in COMM; messages sent plus remaining make five |
| ChargeBoxSafety.ReachableInv | apps/common/charge_box/chgbox_ctrl.c:82-1190 | in every state reachable from power-on by a race-free run, the 5 V switch too is on, or about to be switched on, only in CHARGE |
| ChargeBoxSafety.StepKeepsBase | apps/common/charge_box/chgbox_ctrl.c:82-1096 | every single step of main task, comm thread, interrupts and timeouts keeps all that does not depend on the 5 V switch |
| ChargeBoxSafety.StepKeepsInv | apps/common/charge_box/chgbox_ctrl.c:82-1096 | and the 5 V switch too, unless the step leaves CHARGE while the hook is about to switch |
| ChargeBoxSafety.RaceIff | apps/common/charge_box/chgbox_box.c:107-123 | with `exit_hook` past its test but not yet at its switch, the outputs are safe after the switch if and only if the step in between did not leave CHARGE |
| ChargeBoxSafety.RaceHappens | apps/common/charge_box/chgbox_box.c:107-123 | a run from power-on that does leave it: six ticks, a talk with the ears, the lid opened between test and switch, and 5 V is on in COMM |
| ChargeBoxSafety.LeavesChargeIff | apps/common/charge_box/chgbox_ctrl.c:531-646 | exactly which events and keys take the controller out of CHARGE |
| ChargeBoxSafety.SetModeKeeps | apps/common/charge_box/chgbox_ctrl.c:1020-1096 | leaving one mode and entering another keeps the invariant |
| ChargeBoxSafety.ChargeTickKeeps | apps/common/charge_box/chgbox_ctrl.c:293-351 | the 200 ms work in CHARGE keeps the invariant, short check and mutex wait included |
| ChargeBoxSafety.ChargeEventKeeps | apps/common/charge_box/chgbox_ctrl.c:531-646 | every CHARGE event keeps the invariant |
| ChargeBoxSafety.CommEventKeeps | apps/common/charge_box/chgbox_ctrl.c:669-786 | every COMM event keeps the invariant |
| ChargeBoxSafety.LowPowerEventKeeps | apps/common/charge_box/chgbox_ctrl.c:799-897 | every LOWPOWER event keeps the invariant |
| ChargeBoxSafety.KeyKeeps | apps/common/charge_box/chgbox_ctrl.c:926-1010 | every key keeps the invariant |
| ChargeBoxSafety.InitInv | apps/common/charge_box/chgbox_ctrl.c:1130-1190 | power-on establishes the invariant |
| ChargeBoxHandshake.ChargeOnlyAfterFive | apps/common/charge_box/chgbox_ctrl.c:293-329 | `charge` is only ever set by the 200 ms tick that finds the lid handshake finished, after exactly five CLOSE_LID |
| ChargeBoxHandshake.BoostOnlyAfterFive | apps/common/charge_box/chgbox_ctrl.c:293-329 | whatever the tasks do, a step that turns the boost on comes after exactly five CLOSE_LID |
| ChargeBoxHandshake.PoweredAfterFive | apps/common/charge_box/chgbox_box.c:88-123 | from power-on, by any run in which no step between the test and the switch of `exit_hook` arms the handshake again, a step that turns the 5 V switch on comes after five CLOSE_LID |
| ChargeBoxHandshake.SwitchAfterFiveIff | apps/common/charge_box/chgbox_box.c:107-123 | with `exit_hook` past its test, whatever one step does before its switch, five CLOSE_LID have been sent when 5 V comes on if and only if that step did not arm the handshake again: EXIT_CURRENT_PROTECT, or low power or shutdown entered with the ears not full |
| ChargeBoxHandshake.SwitchAfterRunIff | apps/common/charge_box/chgbox_box.c:107-123 | the same for any run between test and switch: five have been sent if and only if the run did not arm the handshake again, or sent all five since |
| ChargeBoxHandshake.StepCounts | apps/common/charge_box/chgbox_ctrl.c:293-329 | over every step of every task, the CLOSE_LID sent since the handshake was last armed go to 0 exactly when it is armed, grow by one with each 200 ms event that sends one, and change in no other way |
| ChargeBoxHandshake.ClearsChargeIff | apps/common/charge_box/chgbox_ctrl.c:531-646 | exactly which steps clear `charge`: those that leave CHARGE, EAR_FULL, EXIT_CURRENT_PROTECT |
| ChargeBoxHandshake.ClearedYetSent | apps/common/charge_box/chgbox_box.c:107-123 | full ears or an opened lid between test and switch clear `charge`, and 5 V comes on with the five CLOSE_LID sent all the same |
| ChargeBoxHandshake.PoweredTooEarly | apps/common/charge_box/chgbox_ctrl.c:633-643 | a run from power-on in which EXIT_CURRENT_PROTECT comes between test and switch: 5 V is on with no CLOSE_LID sent of the five |
| ChargeBoxHandshake.PowerOffAfterClose | apps/common/charge_box/chgbox_ctrl.c:835-897 | LOWPOWER switches the case off only after the whole CLOSE_LID handshake |
| ChargeBoxHandshake.LowPowerGoodbye | apps/common/charge_box/chgbox_ctrl.c:799-833 | LOWPOWER entered without full ears and given eleven 200 ms events sends exactly five CLOSE_LID, then five SHUTDOWN, and closes the ports with the eleventh and no earlier |
| ChargeBoxHandshake.TickIsEvent | apps/common/charge_box/chgbox_ctrl.c:799-897 | a 200 ms event in LOWPOWER is one tick of the two countdowns |
| ChargeBoxHandshake.ReachableEarInv | apps/common/charge_box/chgbox_box.c:163-201 | in every reachable state the on-line and off-line announcements of each ear strictly alternate, and the last one says whether it is on line |
| ChargeBoxHandshake.StepKeepsEarInv | apps/common/charge_box/chgbox_box.c:163-201 | every step keeps the announcements alternating and truthful |
| ChargeBoxHandshake.SilentEarGoesOffline | apps/common/charge_box/chgbox_box.c:163-201 | over any run, races included, each unanswered exchange costs an ear one of its four misses, so after four of the five exchanges it is off line |
| ChargeBoxHandshake.FullDetectSound | apps/common/charge_box/chgbox_ctrl.c:360-419 | EAR_FULL is announced only when forced charging is over and no ear on line is still charging |
| ChargeBoxOutputs.BoostIff | apps/common/charge_box/chgbox_ctrl.c:173-419 | over every step of every task: the boost is on afterwards if and only if the step switches on - the lid handshake over with nothing short, hot or talking; heat over while charging with a short flagged; a waiting handler resumed -, or it was on and the step is none of full ears, a short, leaving CHARGE and the temperature timeout without external power |
| ChargeBoxOutputs.PwrIff | apps/common/charge_box/chgbox_ctrl.c:173-419 | and the 5 V switch if and only if the step switches on, or is the hook's switch, or it was on and the step is none of full ears, a short, leaving CHARGE, and, while charging, temperature protection and the start of a talk |
| ChargeBoxOutputs.ChargingStops | apps/common/charge_box/chgbox_ctrl.c:531-646 | full ears and a short in CHARGE, a short interrupt not yet flagged, and every step that leaves CHARGE end with boost and 5 V off; temperature protection while charging ends with 5 V off |
| ChargeBoxOutputs.StaysDark | apps/common/charge_box/chgbox_ctrl.c:531-646 | once both are off with nothing charging, armed or waiting, they stay off over any run in which the handshake is not armed again and the hook does not switch |
| ChargeBoxOutputs.FullEarsGoDark | apps/common/charge_box/chgbox_ctrl.c:604-620 | full ears in CHARGE lead there, with five SHUTDOWN to send |
| ChargeBoxOutputs.ResumesIffShort | apps/common/charge_box/chgbox_ctrl.c:173-251 | the end of temperature protection while charging brings 5 V back if and only if a short is flagged or seen |
| ChargeBoxPorts.PortsIff | apps/common/charge_box/chgbox_ctrl.c:293-646 | over every step of every task, what becomes of the pins the ears are talked to over: shut when the outputs go on, at the end of the SHUTDOWN handshake and after a talk in the middle of charging; open from full ears, leaving CHARGE, heat while charging and the start of a talk; closed after any other talk |
| ChargeBoxPorts.WireSafeIff | apps/common/charge_box/chgbox_box.c:88-123 | 5 V on the wire only while charging and with the pins shut, and off during a talk: a step keeps this if and only if it is none of - with the hook about to switch - ending of charging and temperature protection, and, with 5 V on, the end of a short in CHARGE |
| ChargeBoxPorts.ReachableWire | apps/common/charge_box/chgbox_box.c:88-123 | so it holds in every state reached from power-on without such a step |
| ChargeBoxLedger.StepSays | apps/common/charge_box/chgbox_ctrl.c:82-1096 | over every step of every task, exactly which messages go to the ears and which events are posted |
| ChargeBoxFields.StepCore | apps/common/charge_box/chgbox_ctrl.c:82-1096 | mode, `charge`, both handshake counters and the auto-shutdown timer after every step of every task, each said on its own: when CHARGE, COMM and LOWPOWER are left and for what, when the counters are armed with five, run down and are dropped |
| ChargeBoxEars.StepEars | apps/common/charge_box/chgbox_ctrl.c:360-419 | what every step makes of the ears: four misses to go off line, seen full six times in a row to count as full, forced charging for 240 half seconds at most, and when the case takes the ears for full without being told |
| ChargeBoxCounters.StepRest | apps/common/charge_box/chgbox_ctrl.c:82-1096 | what every step makes of pairing, the counters for auto-exit, power query and failed boost, the temperature timer, the flagged short, the wait for the mutex and power-off |
| ChargeBoxCounters.IdleExit | apps/common/charge_box/chgbox_ctrl.c:669-786 | over any run without activity and without a request to leave, COMM lasts through 121 half seconds, which are counted exactly |
| ChargeBoxCounters.IdleEnds | apps/common/charge_box/chgbox_ctrl.c:669-786 | and the next one leaves it for LOWPOWER or CHARGE by the battery |
| ChargeBoxCtrl.Controller.constructor | apps/common/charge_box/chgbox_ctrl.c:1141-1190 | the initial state by lid, battery and USB, which satisfies every invariant |
| ChargeBoxCtrl.ControlInit | apps/common/charge_box/chgbox_ctrl.c:1130-1190 | `charge_box_ctrl_init`: no controller if the charge chip did not initialise, otherwise one in that state |
| ChargeBoxCtrl.Controller.EventHandler | apps/common/charge_box/chgbox_ctrl.c:906-917 | an event, through the common part and the handler of the mode, makes the step of the specification, whose every variable `StepCore`, `StepEars`, `StepRest`, `BoostIff`, `PwrIff`, `PortsIff` and `StepSays` fix, and keeps every invariant that its step keeps |
| ChargeBoxCtrl.Controller.KeyHandler | apps/common/charge_box/chgbox_ctrl.c:926-1010 | the same for a key |
| ChargeBoxCtrl.Controller.ResumeHandler | apps/common/charge_box/chgbox_ctrl.c:306-320 | the same for the rest of a handler that waited for the mutex |
| ChargeBoxCtrl.Controller.SetNewStatus | apps/common/charge_box/chgbox_ctrl.c:1020-1096 | leaving a mode and entering another, field by field |
| ChargeBoxCtrl.Controller.EarFullDet | apps/common/charge_box/chgbox_ctrl.c:360-419 | the timeout that looks for full ears makes its step and keeps the invariants |
| ChargeBoxCtrl.Controller.SetOutputShort | apps/common/charge_box/chgbox_ctrl.c:155-164 | the same for the short-circuit interrupt |
| ChargeBoxCtrl.Controller.TempProtectTimeout | apps/common/charge_box/chgbox_ctrl.c:113-121 | the same for the temperature timeout |
| ChargeBoxCtrl.Controller.EnterHook | apps/common/charge_box/chgbox_box.c:88-98 | the same for the start of a talk with the ears |
| ChargeBoxCtrl.Controller.ExitHookTest | apps/common/charge_box/chgbox_box.c:107-123 | the same for `exit_hook` up to its last test |
| ChargeBoxCtrl.Controller.ExitHookSwitch | apps/common/charge_box/chgbox_box.c:107-123 | the same for its switch, which turns 5 V on whatever has happened since the test |
| ChargeBoxCtrl.Controller.CheckOnline | apps/common/charge_box/chgbox_box.c:163-201 | one exchange with both ears, and the reset of the line when both are off line |
| AdcQueue.StepKeepsInv | cpu/br25/adc_api.c:51-403 | every interleaving of scan, interrupt, occupy calls and channel changes keeps each stored value one converted on its slot's channel, given the occupy discipline |
| AdcQueue.ReachableInv | cpu/br25/adc_api.c:51-403 | so it holds in every state an orderly run reaches from the empty queue |
| AdcQueue.ScanCollectsOwed | cpu/br25/adc_api.c:358-403 | what a scan stores for a slot is the very conversion started for it, even if occupy mode ran in between |
| AdcQueue.RunReturnsOccupiedIff | cpu/br25/adc_api.c:222-239 | `adc_occupy_run` hands out the converted value, 1 instead of 0; it was converted on the occupy channel if and only if occupy mode was entered since the last run, or the result taken instead is of that channel |
| AdcQueue.RunTwiceReturnsForeign | cpu/br25/adc_api.c:222-239 | a sequence of steps from the empty queue: the second of two runs hands out the conversion of the scanned channel |
| AdcQueue.EnterKeepsOwedIff | cpu/br25/adc_api.c:210-217 | with a result pending, entering occupy mode keeps it exactly when the last borrowed conversion was taken |
| AdcQueue.ExitKeepsOwedIff | cpu/br25/adc_api.c:218-221 | likewise for leaving occupy mode |
| AdcQueue.EnterKeepsChannelIff | cpu/br25/adc_api.c:210-217 | the value the scan will store is still one of its channel after entering if and only if the converter was busy, the last borrowed conversion was taken, or it was of that channel too |
| AdcQueue.ExitKeepsChannelIff | cpu/br25/adc_api.c:218-221 | likewise for leaving |
| AdcQueue.AddKeepsOwedIff | cpu/br25/adc_api.c:51-68 | with a result pending, adding a channel keeps it exactly when the waiting slot is not given to another channel |
| AdcQueue.EnterTwiceStoresForeign | cpu/br25/adc_api.c:210-239 | a sequence of steps from the empty queue: entering twice makes the scan store an occupy result in a slot of another channel |
| AdcQueue.ExitUntakenStoresForeign | cpu/br25/adc_api.c:210-239 | a sequence of steps from the empty queue: leaving without taking the result does the same |
| AdcQueue.AddGivenAwayStoresForeign | cpu/br25/adc_api.c:51-93 | a sequence of steps from the empty queue: a slot freed while its conversion runs and given to another channel stores that conversion |
| AdcQueue.SlotIsServed | cpu/br25/adc_api.c:94-102 | over any run that leaves the channels alone, with occupy calls and interrupts in between, every occupied slot is selected within as many productive scans as there are slots |
| AdcQueue.StepMoves | cpu/br25/adc_api.c:358-403 | a productive scan moves on to the next occupied slot, any other step leaves the position, and both keep the channels |
| AdcTiming.ScanStartsIff | cpu/br25/adc_api.c:358-403 | a productive scan starts a conversion of the next occupied channel if and only if its period is 0 or its due time has passed, and then, for a periodic one, moves the due time on by one period |
| AdcTiming.NeverEarly | cpu/br25/adc_api.c:358-403 | over any run that leaves channels and periods alone, start k of a periodic slot comes only after its first due time plus k periods, and the due time is that plus one period a start |
| AdcTiming.OncePerPeriod | cpu/br25/adc_api.c:358-403 | after a period is set at t0, start k of its slot, counted from 0, comes only after t0 + (k + 1) periods |
| AdcTiming.ScanAsksReference | cpu/br25/adc_api.c:358-403 | a scan asked for it converts the reference channel instead, leaving its position |
| AdcTiming.ScanStores | cpu/br25/adc_api.c:358-403 | a waiting result goes to the scanned slot, that of the reference channel also, or only, to the reference, and nothing else is stored |
| AdcApi.AdcDriver.AddSampleCh | cpu/br25/adc_api.c:51-68 | the loop stops at the channel's own slot or the first free one, and claims it |
| AdcApi.AdcDriver.RemoveSampleCh | cpu/br25/adc_api.c:83-93 | the first slot of the channel is freed |
| AdcApi.AdcDriver.SetSampleFreq | cpu/br25/adc_api.c:70-81 | the first slot of the channel gets its period and is next due one period from now; stored values are untouched |
| AdcApi.AdcDriver.GetNextCh | cpu/br25/adc_api.c:94-102 | the next occupied slot, or slot 0 |
| AdcApi.AdcDriver.Sample | cpu/br25/adc_api.c:320-351 | starts a conversion and returns the result register it replaces |
| AdcApi.AdcDriver.AdcScan | cpu/br25/adc_api.c:358-403 | collects a finished conversion and starts the next slot when its time has come, which `AdcTiming.ScanStartsIff` says exactly |
| AdcApi.AdcDriver.AdcIsr | cpu/br25/adc_api.c:303-318 | the conversion interrupt |
| AdcApi.AdcDriver.EnterOccupyMode | cpu/br25/adc_api.c:210-217 | sets the pending result aside and borrows the converter, also when entered again; keeps the invariant if the call is disciplined |
| AdcApi.AdcDriver.RunOccupy | cpu/br25/adc_api.c:222-239 | returns the borrowed result and puts the one set aside back into the result register; 0 outside occupy mode |
| AdcApi.AdcDriver.ExitOccupyMode | cpu/br25/adc_api.c:218-221 | ends the borrowing, also with an untaken result; keeps the invariant if the call is disciplined |
| VolumeRamp.MoveIdealIff | apps/common/audio/audio_digital_vol.c:188-250 | the 16-bit gain update never overshoots or wraps, for every gain and target, if and only if the step is at most 16384 |
| VolumeRamp.RampIsLinear | apps/common/audio/audio_digital_vol.c:188-250 | after k frames the distance to the target is max(0, initial - k * step) |
| VolumeRamp.ScaleShrinks | apps/common/audio/audio_digital_vol.c:218-247 | a scaled sample keeps its sign, is no larger in magnitude, and never meets the clamps |
| VolumeRamp.RunConcatenates | apps/common/audio/audio_digital_vol.c:188-250 | two buffers run in turn are their concatenation run at once |
| VolumeRamp.RunFades | apps/common/audio/audio_digital_vol.c:188-250 | for gains within 16384 and a step of at most 16384, every sample x of stereo frame k becomes the y that is x * g / 16384 rounded towards zero (as a bracket), g being the gain k + 1 steps on, or the target without fading |
| VolumeRamp.SoftenedEnds | apps/common/audio/audio_digital_vol.c:218-247 | so gain 16384 leaves every sample as it is and gain 0 silences it |
| VolumeRamp.ScaleSaturates | apps/common/audio/audio_digital_vol.c:218-247 | at any gain, what does not fit 16 bits is cut to the nearest value that does |
| VolumeRamp.Volume.RunFrames | apps/common/audio/audio_digital_vol.c:200-247 | the loop: the first n samples become the specified ones, frame by frame, and the rest stays |
| VolumeRamp.Volume.Run | apps/common/audio/audio_digital_vol.c:188-250 | `audio_digital_vol_run`: the buffer is the specified one, every stereo frame scaled after one more gain step, and softened as `RunFades` says |
| VolumeMix.ThirdIff | apps/common/audio/audio_digital_vol.c:541-665 | (len * 5462) >> 14 is len / 3 if and only if the accumulated error stays below one |
| VolumeMix.ThirdRange | apps/common/audio/audio_digital_vol.c:541-665 | in particular below 8192, and for multiples of three below 24576 |
| VolumeMix.FinishedRampIsConstant | apps/common/audio/audio_digital_vol.c:467-535 | with the ramp finished, the frame-interleaved loop scales every sample by the constant gain |
| VolumeMix.MixConcatenates | apps/common/audio/audio_digital_vol.c:467-535 | two buffers of whole frames run in turn are their concatenation run at once |
| VolumeMix.RampedFades | apps/common/audio/audio_digital_vol.c:467-535 | every sample x of frame k becomes the y with 16384 y <= x * g < 16384 (y + 1), g being the gain k + 1 linear steps on; the clamps never bite |
| VolumeMix.ConstantFades | apps/common/audio/audio_digital_vol.c:467-535 | and in the strided loop the same with the target gain |
| VolumeMix.GainIsLinear | apps/common/audio/audio_digital_vol.c:467-535 | the gain left after n frames is the target, or n steps nearer to it |
| VolumeMix.SoftenedEnds | apps/common/audio/audio_digital_vol.c:498-535 | gain 16384 leaves every sample as it is and gain 0 silences it |
| VolumeMix.MixSaturates | apps/common/audio/audio_digital_vol.c:498-535 | and at any gain, what does not fit 16 bits is cut to the nearest value that does |
| VolumeMix.Gain.ConstantGain | apps/common/audio/audio_digital_vol.c:467-535 | the channel-strided loop scales every sample of the buffer by the constant gain |
| VolumeMix.Gain.RampedGain | apps/common/audio/audio_digital_vol.c:467-535 | the ramped loop moves the gain once per frame and scales the frame with it |
| VolumeMix.Gain.Run | apps/common/audio/audio_digital_vol.c:541-665 | `user_audio_digital_volume_run`: refused for a handle switched off or more than four channels; otherwise the buffer and the gain left are those of the ramp, or of the target gain without fading, and every sample x of a frame at gain g becomes the y with 16384 y <= x * g < 16384 (y + 1) |
| Ducking.LevelInTable | apps/common/audio/audio_digital_vol.c:83-179 | the table index vol * 31 / vol_max is in range whenever vol <= vol_max |
| Ducking.LevelInTableIff | apps/common/audio/audio_digital_vol.c:83-179 | for any volume at all the row lies in the table if and only if 31 * vol modulo 256 * vol_max is below 32 * vol_max |
| Ducking.SetKeepsValidIff | apps/common/audio/audio_digital_vol.c:161-179 | a set keeps volume and backup within the maximum if and only if the request is, or the voice is not ducked |
| Ducking.RestoredWithinIff | apps/common/audio/audio_digital_vol.c:132-179 | after any requests, in range or not, a voice brought back is within its maximum if and only if it was not ducked or the last request was |
| Ducking.RestoredAboveMax | apps/common/audio/audio_digital_vol.c:83-179 | a voice of maximum 32 or more, opened at 6 or more, ducked, asked for one above its maximum and brought back, is one above its maximum |
| Ducking.RequestLeavesTableIff | apps/common/audio/audio_digital_vol.c:132-179 | a request makes the restore read outside the table if and only if the voice is ducked and the row of the request lies outside |
| Ducking.DuckingRestoresIff | apps/common/audio/audio_digital_vol.c:83-179 | after duck, any sets and restore, a voice is at its last requested volume if and only if something was requested meanwhile or it was not already ducked |
| Ducking.NestedOpenForgets | apps/common/audio/audio_digital_vol.c:83-130 | two nested opens: the second overwrites the volume set aside by the first, so the voice does not come back |
| Ducking.ForegroundRestores | apps/common/audio/audio_digital_vol.c:83-179 | across one foreground open and close with arbitrary sets in between, every other voice ends at its last request, or at its volume before |
| Ducking.DuckKeepsOrderIff | apps/common/audio/audio_digital_vol.c:104-123 | of two voices the quieter stays no louder under ducking if and only if their volumes are not 9 and 10 or 13 and 14 |
| Ducking.GainRises | apps/common/audio/audio_digital_vol.c:26-60 | volume 0 is silence, the maximum is unity gain, and a louder volume never has a smaller gain |
| DvolList.Handle.constructor | apps/common/audio/audio_digital_vol.c:83-130 | an opened voice is clamped to its maximum and has the table gain of its volume |
| DvolList.Handle.DuckDown | apps/common/audio/audio_digital_vol.c:104-123 | the step down by volume range, the old volume set aside |
| DvolList.Handle.BringBack | apps/common/audio/audio_digital_vol.c:132-154 | the volume set aside comes back, once and unclamped |
| DvolList.Handle.Set | apps/common/audio/audio_digital_vol.c:161-179 | a request is clamped, remembered for the restore, and turned into a table gain |
| DvolList.VoiceList.Open | apps/common/audio/audio_digital_vol.c:83-130 | the new voice goes to the head, every other voice is ducked if fading is on; voices within their maxima stay so |
| DvolList.VoiceList.Close | apps/common/audio/audio_digital_vol.c:132-154 | the voice is unlinked and every other one restored, whatever was requested of it |
| TouchFilter.NoOvershoot | cpu/br25/plcnt.c:68-141 | an update puts the baseline between its old value and the smoothed sample, in either key state |
| TouchFilter.RunWithin | cpu/br25/plcnt.c:68-141 | over any run of samples within a range ending by 32767 the baseline stays within it |
| TouchFilter.KeepsRangeIff | cpu/br25/plcnt.c:68-141 | ranges are kept if and only if they end by 32767; above, the sum of two samples wraps |
| TouchFilter.DriftBounded | cpu/br25/plcnt.c:111-128 | the drift is at most eight times a rise and never larger than the fall, in 16-bit arithmetic |
| TouchFilter.UpdateMoves | cpu/br25/plcnt.c:68-141 | what an update adds to the scaled baseline: released, eight times a rise but at most 1280, a fall down to -80 as it is, an eighth (rounded down) of a larger one; held, an eighth up to the board's threshold and nothing above |
| TouchFilter.SmoothedIsMean | cpu/br25/plcnt.c:88-104 | without wrap the smoothed value is the mean of two successive filter values, rounded down |
| TouchFilter.Settling | cpu/br25/plcnt.c:68-87 | over the settling samples both filters are the last sample and no key is pressed |
| TouchFilter.KeyChangesAtThresholds | cpu/br25/plcnt.c:136-140 | the key changes state exactly at the press and release thresholds |
| TouchFilter.Converges | cpu/br25/plcnt.c:68-141 | under a constant input a released key's baseline reaches it within a number of updates given by their distance, and stays |
| TouchFilter.RiseRate | cpu/br25/plcnt.c:68-141 | towards a constant input less than 160 above, a released key's baseline closes a sixteenth of the distance with every update, up to the rounding of one |
| Plcnt.CtmKeys.constructor | cpu/br25/plcnt.c:223-281 | every key released, sixteen settling samples, zero filters |
| Plcnt.CtmKeys.CtmIrq | cpu/br25/plcnt.c:68-141 | one measurement updates its channel's filters and key state as specified and no other channel |
| Plcnt.CtmKeys.GetValue | cpu/br25/plcnt.c:202-219 | the first key held, if any |
| SoftLed.ReachableInv | apps/common/charge_box/chgbox_ui_drv_timer.c:101-751 | in every state reachable from power-on by interrupts and setters, duty, PWM counter, step counts and divisors are in range |
| SoftLed.TickKeepsInv | apps/common/charge_box/chgbox_ui_drv_timer.c:450-632 | every interrupt keeps them there |
| SoftLed.SettersKeepInv | apps/common/charge_box/chgbox_ui_drv_timer.c:101-259 | and every setter |
| SoftLed.PeriodIsDuty | apps/common/charge_box/chgbox_ui_drv_timer.c:603-632 | a full period without reconfiguration is lit for exactly cur_duty of its 128 ticks |
| SoftLed.OffReachesIdle | apps/common/charge_box/chgbox_ui_drv_timer.c:450-586 | an OFF LED is dark and idle after at most the ranked number of control steps, flicker included |
| SoftLed.PeriodsAreControls | apps/common/charge_box/chgbox_ui_drv_timer.c:450-620 | 128 n interrupts from the start of a period are n control steps, and the idle flag is the answer of the last one |
| SoftLed.OffGoesIdle | apps/common/charge_box/chgbox_ui_drv_timer.c:450-620 | in interrupts, from anywhere in a period: it is idle and dark after the rest of the period and 128 interrupts for each of them |
| SoftLed.BreatheLasts | apps/common/charge_box/chgbox_ui_drv_timer.c:450-586 | a finite breathing request ends after exactly the steps left in it |
| SoftLed.BreathingEnds | apps/common/charge_box/chgbox_ui_drv_timer.c:450-620 | in interrupts, from anywhere in a period: breathing is over with exactly the period in which the last of those steps falls |
| SoftLed.BreatheRequestLasts | apps/common/charge_box/chgbox_ui_drv_timer.c:165-202 | a request of n breaths from phase UP takes n * (up + light + down + dark) minus the step count carried over - exactly when the LED was below full duty, one step more otherwise |
| SoftLed.MatchedSteps | apps/common/charge_box/chgbox_ui_drv_timer.c:101-259 | the step count matched to the present brightness stays within the ramp |
| LedFades.FadesIn | apps/common/charge_box/chgbox_ui_drv_timer.c:472-483 | a LED switched on shows, n control steps later, the share of the ramp it has gone: up * duty <= step * 51 < up * (duty + 1); from the last step on it is full |
| LedFades.FadesOut | apps/common/charge_box/chgbox_ui_drv_timer.c:502-514 | one switched off shows the share that is left until that is less than one tick of light |
| LedFades.BreathShape | apps/common/charge_box/chgbox_ui_drv_timer.c:516-556 | a breath step by step: brighter by shares of the full duty, full, darker by shares, dark, and then one breath fewer, unless they are endless |
| LedFades.FlashShape | apps/common/charge_box/chgbox_ui_drv_timer.c:557-584 | a flash step by step: full for up + light steps, dark for down + dark, then one fewer |
| LedFades.WinkHolds | apps/common/charge_box/chgbox_ui_drv_timer.c:453-514 | a wink holds its dark or full turning point for the steps it was given and ends with the last |
| LedFades.WinkRamps | apps/common/charge_box/chgbox_ui_drv_timer.c:453-514 | before that turning point a LED that is on dims by the ramp down, one that is off brightens by the ramp up |
| LedFades.SleepsIff | apps/common/charge_box/chgbox_ui_drv_timer.c:450-586 | a LED may sleep if and only if it is off and dark with no wink to come, or has no breath or flash left, and it then stays as it is |
| LedFades.FlashDroppedIff | apps/common/charge_box/chgbox_ui_drv_timer.c:557-584 | a flash is lit in phase UP and dark otherwise; with more than one asked for, the first control step drops them all if and only if the LED is in the light or the dark phase of a breath |
| LedFades.SettersStart | apps/common/charge_box/chgbox_ui_drv_timer.c:101-259 | without a fade the LED is full or dark at once; with one its light stays and the step count starts at the share it stands for - of the ramp before the call, except for other LEDs told to breathe |
| LedFades.ReachableUsual | apps/common/charge_box/chgbox_ui_drv_timer.c:101-259 | ramps of 50 or 200 steps up and 20, 50 or 200 down are the only ones in states reached from power-on |
| LedFades.SwitchOnSmoothIff | apps/common/charge_box/chgbox_ui_drv_timer.c:112-131 | switching on with a fade starts within one tick of the present light if and only if the ramp up was the fast one, or the LED is dark or one tick below full |
| LedFades.SwitchOffSmoothIff | apps/common/charge_box/chgbox_ui_drv_timer.c:132-145 | switching off starts within two ticks of it if and only if the ramp down was of 50 steps, or was one of 20 or 200 and the light is near the ends |
| LedPanel.Lamp.Ctrl | apps/common/charge_box/chgbox_ui_drv_timer.c:450-586 | `soft_pwm_led_ctrl` on one LED's fields |
| LedPanel.Lamp.OnTimer | apps/common/charge_box/chgbox_ui_drv_timer.c:603-632 | one LED's share of the interrupt |
| LedPanel.Lamp.SetStu | apps/common/charge_box/chgbox_ui_drv_timer.c:101-153 | one LED's share of `chgbox_set_led_stu` |
| LedPanel.Lamp.SetBre | apps/common/charge_box/chgbox_ui_drv_timer.c:165-202 | one LED's share of `chgbox_set_led_bre` |
| LedPanel.Lamp.SetAll | apps/common/charge_box/chgbox_ui_drv_timer.c:211-259 | one LED's share of all-off and all-on |
| LedPanel.Panel.constructor | apps/common/charge_box/chgbox_ui_drv_timer.c:720-751 | all LEDs start off and dark |
| LedPanel.Panel.Isr | apps/common/charge_box/chgbox_ui_drv_timer.c:603-632 | all LEDs are ticked; the panel may sleep once every one may |
| LedPanel.Panel.SetLedStu | apps/common/charge_box/chgbox_ui_drv_timer.c:101-153 | one LED is set, all others go dark |
| TrimmedMean.SortReadings | apps/common/charge_box/chgbox_det.c:103-112 | the in-place sort leaves a sorted permutation of the readings |
| TrimmedMean.SiftDown | apps/common/charge_box/chgbox_det.c:105-111 | the inner loop, which runs down to 0 without stopping early, carries one reading into the sorted prefix |
| TrimmedMean.MeanOfKept | apps/common/charge_box/chgbox_det.c:113-117 | the 16-bit sum of the readings kept, divided by their number |
| TrimmedMean.MeanRobust | apps/common/charge_box/chgbox_det.c:103-117 | with at most `cut` wrong readings, the mean lies within the range of the others and the sum does not wrap, when kept readings at the top of that range fit in 16 bits |
| TrimmedMean.ToleratesIff | apps/common/charge_box/chgbox_det.c:103-117 | up to `cut` wrong readings are tolerated for ranges ending at hi if and only if (n - 2 cut) * hi < 65536 |
| TrimmedMean.CutIsTight | apps/common/charge_box/chgbox_det.c:103-117 | one wrong reading more than the cut can move the mean |
| PowerDetect.EventsAlternate | apps/common/charge_box/chgbox_det.c:118-146 | the low-power flag follows the recorded voltage with hysteresis and its events strictly alternate |
| PowerDetect.OffUsb | apps/common/charge_box/chgbox_det.c:118-146 | away from USB power the recorded voltage is the least mean seen, and low power is entered at most once and never left |
| PowerDetect.OnUsb | apps/common/charge_box/chgbox_det.c:118-146 | on USB it is the greatest seen |
| PowerDetect.Hysteresis | apps/common/charge_box/chgbox_det.c:133-147 | after a measurement the flag is set up to 3300, clear above 3320, and as before in between |
| PowerDetect.ShippedMeans | apps/common/charge_box/chgbox_det.c:103-117 | the battery's mean is that of the middle six of ten readings, the wireless one of the middle three of five, rounded down |
| PowerDetect.NoFalseAlarm | apps/common/charge_box/chgbox_det.c:88-151 | two wrong readings in ten cannot raise a low-power alarm |
| PowerDetect.BatteryMonitor.Detect | apps/common/charge_box/chgbox_det.c:88-151 | `power_detect_func`: store a reading; on the tenth sort, average, ratchet, judge and stop the timer; start over when told to skip |
| PowerDetect.WirelessCalcPower | apps/common/charge_box/chgbox_wireless.c:275-295 | the same mean over a copy of five readings; the table itself is not reordered |
| LevelVote.SessionOpenIff | apps/common/charge_box/chgbox_det.c:175-228 | a USB or lid session stays open exactly while neither level has its quorum, and is decided by its last sample; the samples need not be in a row |
| LevelVote.SessionBounded | apps/common/charge_box/chgbox_det.c:175-228 | an undecided session has at most online + offline - 2 samples |
| LevelVote.ShippedSensorsDecide | apps/common/charge_box/chgbox_det.c:29-37 | USB needs 10 samples to come on line and 25 to go off, the lid 5 and 15, so they decide within 34 and 19 |
| LevelVote.WakeOpensSession | apps/common/charge_box/chgbox_det.c:175-286 | the wake-up of an idle sensor opens a session of its own |
| LevelVote.EventsAlternate | apps/common/charge_box/chgbox_det.c:175-286 | over any wake-ups and samples, on-line and off-line events strictly alternate and the counters stay below their quorums |
| LevelVote.Detector.Detect | apps/common/charge_box/chgbox_det.c:175-286 | `usb_detect_func` and `hall_detect_func` on their counters |
| IrCodec.SenderPeriods | cpu/br25/irflt.c:241-266 | after 2k timer interrupts the sender runs period k of the frame: leader, then bits from the most significant |
| IrCodec.SenderStops | cpu/br25/irflt.c:241-266 | the 68th interrupt stops it |
| IrCodec.SixteenShifts | cpu/br25/irflt.c:49-80 | sixteen shifts replace the register: bit i is the i-th bit shifted in |
| IrCodec.ReceiveBits | cpu/br25/irflt.c:49-80 | receiving bits shifts the register, counts the state and latches the user code at 16 |
| IrCodec.SentIsReceived | cpu/br25/irflt.c:49-80 | the frame the sender emits for any v, each gap off by less than 240 us and with up to 56 timeout ticks in it, leaves state 32 and the bit-reversed halves in the receiver |
| IrCodec.KeyDecoded | cpu/br25/irflt.c:49-135 | the key decoded from the frame sent for v is the upper byte of its low half, bit-reversed, if and only if the lower byte is its complement; otherwise it is 255 and the receiver starts over |
| IrCodec.IrRoundTrip | cpu/br25/irflt.c:49-80 | so do a leader and 32 gaps within their tolerances - from a fresh receiver or straight after another frame |
| IrCodec.HearsIsCaptures | cpu/br25/irflt.c:160-171 | timeout ticks between edges make no difference as long as 57 do not fall between two of them |
| IrCodec.LeadersIgnored | cpu/br25/irflt.c:49-80 | gaps of 3 ms and more change nothing but the overflow counter |
| IrCodec.StateCountsShorts | cpu/br25/irflt.c:49-80 | over any gaps the state counts those under 3 ms, starting over after 32 |
| IrCodec.FrameReceivedIff | cpu/br25/irflt.c:49-80 | whatever gaps come before them, a leader and the 32 gaps of v leave state 32, and then the code of v, if and only if the state and the short gaps before make a multiple of 32 |
| IrCodec.AfterPauseIff | cpu/br25/irflt.c:49-171 | after a pause of 57 ticks or more the sender's frame is received if and only if the 16-bit count the pause is captured with reads as 3 ms or more |
| IrCodec.NominalPeriodsRead | cpu/br25/irflt.c:241-266 | the sender's own periods lie within the receiver's tolerances |
| IrCodec.ComplementSum | cpu/br25/irflt.c:123-135 | two n-bit numbers differ in every bit if and only if they add up to 2^n - 1 |
| Irflt.SetIrClk | cpu/br25/irflt.c:97-113 | the first divider that brings one millisecond into the counter's range |
| Irflt.IrCode.TimerIrIsr | cpu/br25/irflt.c:49-80 | one edge updates register, state and codes as specified |
| Irflt.IrCode.IrTimeout | cpu/br25/irflt.c:160-171 | the timeout tick counts, resets the state and opens the start gate |
| Irflt.IrCode.GetValue | cpu/br25/irflt.c:123-135 | the key of a complete complementary code; a bad code resets the receiver |
| Irflt.IrSender.Timer5Isr | cpu/br25/irflt.c:241-266 | one timer interrupt of the sender |
| ChargerDetect.ReachableInv | cpu/br25/charge.c:308-401 | at most one of the three counters is nonzero, none without the timer, over any wake-ups and samples |
| ChargerDetect.SessionOpenIff | cpu/br25/charge.c:308-393 | a session stays open exactly while no zone was seen 51 times in a row (filter + 11 for OFF); the counters are the current streaks |
| ChargerDetect.WakeOpensSession | cpu/br25/charge.c:308-401 | the wake-up opens such a session, whatever came before |
| ChargerDetect.ConfirmedBy | cpu/br25/charge.c:308-393 | the sample that ends it confirms its own zone after exactly 51 of it in a row, filter + 11 for OFF: flag, online flag and event |
| ChargerDetect.OffConfirmableIff | cpu/br25/charge.c:341-365 | a plug-out can be confirmed at all if and only if filter + 10 fits the 16-bit counter |
| ChargerDetect.AnnouncedIffChanged | cpu/br25/charge.c:308-401 | over any run the flag is the last confirmed zone, and a confirmation is announced exactly when it changes the zone |
| ChargerDetect.NoRepeatedEvent | cpu/br25/charge.c:308-401 | between two equal announcements another zone was confirmed |
| ChargerDetect.LastEventTellsZone | cpu/br25/charge.c:308-401 | over any run from a fresh detector with a filter, the last event the application heard tells the last zone confirmed; without a filter it does so unless that was a brown-out |
| Charge.Charger.constructor | cpu/br25/charge.c:485-533 | with a supply present sampling starts at once, otherwise the zone is known to be OFF |
| Charge.Charger.Ldo5vDetect | cpu/br25/charge.c:308-393 | one timer tick with its three branches |
| Charge.Charger.SubWakeupIsr | cpu/br25/charge.c:396-401 | the wake-up arms the timer if it is not running |
| ClockDemand.PushIsSetAdd | cpu/br25/clock_manager.c:231-249 | a push adds to the set of active types, refused exactly for type 0, an active type, or a full table |
| ClockDemand.PopIsSetRemove | cpu/br25/clock_manager.c:251-261 | a pop removes from that set |
| ClockDemand.TotalIsDemand | cpu/br25/clock_manager.c:276-294 | the sum over the slots is the sum over the set, whatever the order of the slots |
| ClockDemand.FrequencyCoversIff | cpu/br25/clock_manager.c:263-311 | the frequency is the least table entry covering idle clock plus active clocks, or 192 if none does, if and only if that sum fits 16 bits or what is left of it asks for 192 again |
| ClockDemand.ModestFits | cpu/br25/clock_manager.c:276-311 | it fits for every table and idle type when no type asks for 256 MHz or more |
| ClockDemand.FrequencySteps | cpu/br25/clock_manager.c:263-311 | as long as the sum fits, the frequency is the least of 24, 32, 48, 60, 80, 96, 120, 160 and 192 MHz that covers it, or 192 |
| ClockDemand.TypeClockIs | cpu/br25/clock_manager.c:276-294 | a type with one row in the list asks for its clock, one without for nothing |
| ClockDemand.IdleClockIs | cpu/br25/clock_manager.c:213-229 | an idle type asks for the clock of its first row, in 8 bits, and for 24 without one |
| ClockDemand.RunIsSet | cpu/br25/clock_manager.c:326-390 | over any run of add, remove and idle the table is the set of active types and the programmed frequency is the one the sum of that set, taken modulo 2^16, asks for, hence independent of the order of slots |
| ClockDemand.AddNeverLowers | cpu/br25/clock_manager.c:366-376 | adding never lowers the frequency as long as the sum fits 16 bits |
| ClockDemand.AddsInAnyOrder | cpu/br25/clock_manager.c:366-376 | adds that fit into the table give the union, in any order |
| ClockDemand.AddRemoveRestoresIff | cpu/br25/clock_manager.c:231-261 | add then remove restores the slot table if and only if the type was not active before |
| ClockManager.Manager.ExtPush | cpu/br25/clock_manager.c:231-249 | the two loops of a push |
| ClockManager.Manager.ExtPop | cpu/br25/clock_manager.c:251-261 | the loop of a pop |
| ClockManager.Manager.Match | cpu/br25/clock_manager.c:263-273 | the lookup returns the least covering entry, or the last |
| ClockManager.Manager.IdleSelect | cpu/br25/clock_manager.c:213-229 | the first row of the idle type, or 24 |
| ClockManager.Manager.ExtCal | cpu/br25/clock_manager.c:276-294 | the nested summing loop |
| ClockManager.Manager.CurCal | cpu/br25/clock_manager.c:296-311 | the frequency of the present table |
| ClockManager.Manager.Idle | cpu/br25/clock_manager.c:326-335 | a new idle type reprograms the clock |
| ClockManager.Manager.AddSet | cpu/br25/clock_manager.c:366-376 | push, and reprogram unless refused |
| ClockManager.Manager.RemoveSet | cpu/br25/clock_manager.c:378-390 | pop, and reprogram unless refused |
| ClockManager.Manager.Add | cpu/br25/clock_manager.c:338-345 | push without reprogramming |
| ClockManager.Manager.Remove | cpu/br25/clock_manager.c:347-355 | pop without reprogramming |
| ClockManager.Manager.SetCur | cpu/br25/clock_manager.c:357-363 | whatever was deferred, the clock is settled again |

## Left out

- Tone lists of 256 tones or more (the source counts them in 8 bits), negative lengths and points,
  and overflow of `sin_tone_points` beyond 31 bits; the table interpolator `get_sine_value`, which
  the generator does not call.
- UART: how a port is chosen among the idle ones, the transmit path, the non-DMA `getbyte` loop,
  semaphore timeouts, and UT1/UT2, which repeat UT0; what a read returns once the ring has been
  overrun.
- I2C: how the motion sensor is chosen and interpreted; pin set-up, delays and suspend/resume; reads
  with a negative length.
- Charging case: the UI, Bluetooth and address-exchange layers, soft-off and its life counter,
  battery charge start, the wireless and handshake parts of the common handler, and the scan of
  advertising addresses (its success is an input); how the power level of the box is looked up
  (`get_box_power_lvl`); the 200 ms delay before full detection, which may come at any time here.
- Charging case: "5 V on implies no current limit" is not stated, because EXIT_TEMP_PROTECT switches
  on with a short flagged (`ChargeBoxOutputs.ResumesIffShort`).
- AdcApi.AdcDriver.Sample: the shortcut that reads a pin shared with another function without a
  conversion is not modelled.
- ADC: the occupy slot keeps its last value when occupy mode is entered for another channel, so
  provenance is stated for the scanned slots and for the value a run hands out; the hooks that share
  pins with other functions, the jiffies counter wrapping, conversion to millivolts in floating
  point, and the query functions.
- Volume: what a read outside the volume table yields; buffers with half a stereo frame at the end
  (the source reads past them), the assembly mixer, user-defined volume tables, and the
  process-handler registration around the volume stage.
- Touch: pin and timer set-up and the channel rotation in `scan_capkey`; each channel is measured in
  any order.
- LED: the busy flag that lets the interrupt skip a half-written setting (setters are atomic here),
  and the per-colour pin drivers.
- IR: pin routing and timer set-up; edges are delivered as measured gaps.
- Detection: current, temperature and boost detection, and logging.
- LevelVote.Detector.Detect: the battery-skip flag and the wake-up edge it also sets are not
  modelled.
- Charger: charging start, full detection and trim configuration.
- Clock: the debug dump, pause and play, and the contents of the board's clock list, which is a
  parameter; the shipped one has at most 160 MHz a type.
