# Sampling drivers and the capture pipeline, in Dafny

The project models three parts of the firmware and proves what they promise.

**The SAADC driver** (`Saadc*.dfy`). The control block and the peripheral registers are two
records that every API call, every event handler and the interrupt handler update step by step;
`Saadc.Driver` is the class whose methods do so. A ghost log records what a user can observe.
`SaadcHistory` defines, in one small step function, which logs are allowed; `SaadcState.Inv` ties
the control block and the registers to the state that machine is in; `SaadcTraces` proves what
every allowed log satisfies. `SaadcCalls` and `SaadcEvents` give the effect of every API call and of
every interrupt, callbacks included, as a function of the control block and the registers; the
methods of the class are proved equal to these functions, and lemmas say what they can and cannot
do. `Driver.Run` puts the parts together: for any sequence of API calls and interrupts, with
callbacks that may make any API calls of their own, the invariant holds and the theorems about logs
apply. `SaadcRuns` holds runs from a fresh driver: one for each mode and a calibration when all goes
well, and three that show where the driver falls short.

**Capture and replay** (`Averaging`, `Baseline`, `Rms`, `Sampler`, `Cyclic`, `Ring`, `Samples`, `Crc`,
`Psram`, `Recorder`, `Replay`, `EndToEnd`). Each method with loops is proved against a plain
function of the history: the last 1024 samples of silence followed by the history, the sum of
squares of the last hundred values, the remainder of a polynomial division. `EndToEnd` composes
them into statements about the published packets. Every sample is a `Quad` with the four channels
in the order ch0, ch1, ch2, ch3 of `main.c`.

**The legacy ADC driver** (`Adc`). A linked list of channel objects and an interrupt-driven scan.

## What is assumed of the surroundings

- The register layer `nrfy_saadc` is not part of this model. It appears as `SaadcState.Registers`:
  the buffer last programmed, the buffer last latched, the interrupt mask, the SAMPLE and STOP tasks
  triggered, and the buffers that START tasks took over, in order. START latches the programmed buffer at once.
- An interrupt carries any subset of CALIBRATEDONE, STOPPED, END, STARTED and limit events, with
  three restrictions (`Driver.Possible`): some interrupt is enabled, CALIBRATEDONE arrives only
  during a calibration that has not had it, and END during a calibration only after it, because no
  buffer is latched before. API calls and interrupts are atomic with respect to each other.
- Callbacks are arbitrary sequences of API calls, chosen per event (`Irq.handler`). Calls that the
  source leaves undefined are skipped in `Driver.Do`: a mode set with an empty mask or channels that
  do not exist, a channel number above 7, limits out of order, and a buffer before the first mode set, where
  `reseni_adc/nrfx_saadc.c:480` takes a remainder by zero.
- `adc_read` delivers values of at most 14 bits in size; the readings are a parameter. Each read of
  the serial RAM is disturbed by an arbitrary error pattern `noise(t)`; whether the k-th publish
  succeeds is `publishOk(k)`.
- The legacy driver is called as its assertions demand: a channel is enabled once, a scan has at
  least one channel and asks for at least one sample.

## What the proofs found

- `reseni_adc/nrfx_saadc.c:636` with `reseni_adc/nrfx_saadc.c:835-850`: abort only asks for a stop. If
  an END is handled before the STOPPED event, every buffer pending at the call is still reported. So at
  most one more DONE follows an abort if and only if at most one buffer was pending when it was called
  (`SaadcTraces.OneDoneAfterAbort`); a run with two is `SaadcRuns.TwoDonesAfterAbort`.
- `reseni_adc/nrfx_saadc.c:871-890`: a limit callback that switches to blocking operation clears the
  event handler; if another limit of the same interrupt is still to be reported the loop calls a null
  pointer. `Driver.LimitsHandle` returns false exactly when a limit raised and enabled is not reported,
  which `SaadcEvents.OnLimits` computes from the callbacks beforehand. It cannot happen during a
  conversion, nor when every callback but the last keeps the handler (`SaadcEvents.LimitsFacts`); a run
  in which it happens is `SaadcRuns.LostLimitRun`.
- `reseni_adc/nrfx_saadc.c:836-842`: with start-on-end a run that goes on after END is started again if
  and only if its next buffer was there before the callback of DONE (`SaadcEvents.GoesOn`). One supplied only in
  that callback is programmed and becomes primary, but the END has passed without a latch
  (`SaadcEvents.LateBuffer`, `SaadcRuns.LateBufferRun`).
- `reseni_adc/nrfx_saadc.c:912-917`: an abort outside a conversion still cuts the waiting primary
  buffer's length and drops the secondary one (`Driver.StoppedHandle`).
- `mqtt_working/src/main.c:1581-1589`: the padding is 1000 records but a packet holds 1024. The recording
  itself is always sent whole and in order (`EndToEnd.FaultFreeStream`), but the slots after it repeat its
  last sample, whatever the serial RAM held before, if and only if at least 24 recorded samples fall into
  the last packet (`EndToEnd.TailExactly`). Over a memory of zeros the last slot of a shorter packet shows
  the marker (`EndToEnd.BlankStream`).
- `mqtt_working/src/main.c:1556`: with an end duration of 65535 the 16-bit counter wraps before it can
  exceed it, so such a recording ends only by the sample limit (`Recorder.CounterDecides`).
- `mqtt_working/src/main.c:708`: 46340 is the largest sample size for which the mean square fits its
  32-bit variable (`Rms.MeanFits`, `Rms.MeanOverflows`).
- `mqtt_working/src/main.c:498`: the fail count is stored after the publish and overwritten by line
  352 before the next one, so the checksum field of every published packet is 0xABCD (`Replay.PacketAt`).
- `mqtt_working/src/main.c:356-358`: the window flag is cleared before the publish, so after a failed
  first publish the pre-trigger window is not sent again (`Replay.Sender.Send`, `Replay.SendAgain`).
- `mqtt_working/src/main.c:691`: for a constant reading the truncating division stops the baseline up to 24
  short of it when it approaches from below (`Baseline.SettleStuck`). The gathered offset equals a constant
  non-negative 14-bit reading if and only if that is at most 4885 (`Baseline.ConstantBaseline`).

## Model

| member | source | states |
|---|---|---|
| Saadc.Driver.Run | reseni_adc/nrfx_saadc.c:466-943 | over any interleaving of API calls and interrupts with any callbacks: the invariant holds, the callbacks so far are complete runs and a prefix of one, calibrations come in pairs of equal snapshots, the interrupt mask outside a calibration is the one the mode calls for, a set secondary buffer is the one programmed while a run is started, a run in progress has a pending buffer, since a mode set without aborts the accepted buffers are the reported ones followed by the pending ones, and since an abort was called without a new buffer no more was reported than was pending then |
| SaadcTraces.Fifo | reseni_adc/nrfx_saadc.c:498-514 | without aborts, pending-before followed by accepted equals reported followed by pending-after: every buffer once and in acceptance order |
| SaadcTraces.FifoSinceModeSet | reseni_adc/nrfx_saadc.c:835-850 | the same from a mode set on, where nothing is pending |
| SaadcTraces.PendingAlways | reseni_adc/nrfx_saadc.c:841-849 | at every moment of every allowed log only real buffers are pending, and during a run they have run out exactly when its last DONE was just reported |
| SaadcTraces.FinishedExactly | reseni_adc/nrfx_saadc.c:841-849 | during a run FINISHED is possible if and only if no accepted buffer is left, and then no other callback of the run is |
| SaadcTraces.DonesBounded | reseni_adc/nrfx_saadc.c:840-842 | without new buffers the reports to come and what stays pending are bounded by what is pending |
| SaadcTraces.AtMostOneDoneAfterStop | reseni_adc/nrfx_saadc.c:910-917 | after the STOPPED event of an abort at most one further DONE as long as no buffer is added |
| SaadcTraces.DonesAfterAbort | reseni_adc/nrfx_saadc.c:629-644 | from the call of an abort on, without a new buffer, no more is reported than was pending at the call |
| SaadcTraces.OneDoneAfterAbort | reseni_adc/nrfx_saadc.c:629-644 | at most one DONE in every continuation without a new buffer if and only if at most one buffer was pending at the call |
| SaadcRuns.TwoDonesAfterAbort | reseni_adc/nrfx_saadc.c:629-644 | a run of the driver with two buffers pending at the abort, both of which are reported |
| SaadcTraces.TraceShape | reseni_adc/nrfx_saadc.c:768-850 | the callbacks, limit events aside, are runs of one READY, any mix of BUF_REQ and DONE, and a DONE immediately followed by FINISHED; the unfinished rest is empty exactly when no run is in progress |
| SaadcTraces.CalibrationsPaired | reseni_adc/nrfx_saadc.c:696-766 | every non-blocking calibration ends at most once, by an abort without a callback before its CALIBRATEDONE event or by one callback after it, and gives back the mode, buffers, channels, limits, progress and interrupt mask it started from |
| SaadcTraces.CalibrationDecided | reseni_adc/nrfx_saadc.c:901-927 | a calibration is completed if and only if CALIBRATEDONE came before its end |
| SaadcRuns.CalibrationRun | reseni_adc/nrfx_saadc.c:696-766 | a run of the driver through a completed calibration: the scratch buffer latched once, one callback, everything else as before |
| SaadcTraces.ChunksTile | reseni_adc/nrfx_saadc.c:572-616 | the chunks of a buffer stay inside it and each slot lies in exactly one of them |
| SaadcTraces.SlicesTile | reseni_adc/nrfx_saadc.c:572-616 | consecutive slices of the channel count lie in the buffer one after the other and cover every address of it |
| SaadcHistory.ReplayConcat | reseni_adc/nrfx_saadc.c:466-943 | the state after a log depends on its first part only through the state that part leads to |
| Saadc.Driver.constructor | reseni_adc/nrfx_saadc.c:249-279 | the state after the first initialisation meets the invariant with an empty log |
| Saadc.LowestBit | reseni_adc/nrfx_saadc.c:161 | the smallest channel of a mask |
| Saadc.Driver.DeconfigLoop | reseni_adc/nrfx_saadc.c:157-169 | the mask-clearing loop removes exactly the channels of the mask |
| Saadc.Driver.ChannelsConfig | reseni_adc/nrfx_saadc.c:297-322 | busy in a conversion or calibration, otherwise success if and only if no channel is named twice; what is configured afterwards in each case |
| Saadc.Driver.ConfigLoop | reseni_adc/nrfx_saadc.c:310-321 | the loop ends at the first channel that was named before |
| SaadcCalls.ConfiguredUpTo | reseni_adc/nrfx_saadc.c:310-321 | what is configured afterwards is the list up to its first repetition, and all of it exactly without one |
| Saadc.Driver.ChannelConfig | reseni_adc/nrfx_saadc.c:324-337 | adds one channel, or reports busy and changes nothing |
| Saadc.Driver.ChannelsDeconfig | reseni_adc/nrfx_saadc.c:346-358 | removes channels, or reports busy and changes nothing |
| Saadc.Driver.ChannelCountGet | reseni_adc/nrfx_saadc.c:122-144 | the number of channels in the mask, or an error if and only if one is not configured |
| Saadc.Driver.ConfigCheck | reseni_adc/nrfx_saadc.c:422-440 | which advanced configurations are refused |
| Saadc.Driver.GenericModeSet | reseni_adc/nrfx_saadc.c:196-247 | both buffers, all limits and the progress are dropped and the interrupt mask follows the handler |
| Saadc.Driver.SimpleModeSet | reseni_adc/nrfx_saadc.c:360-400 | each error with its condition, nothing changed on an error, the whole new state otherwise |
| Saadc.Driver.AdvancedModeSet | reseni_adc/nrfx_saadc.c:402-464 | each error with its condition, nothing changed on an error, the whole new state otherwise |
| SaadcSteps.ModeSetStep | reseni_adc/nrfx_saadc.c:442-463 | a mode set keeps the invariant and starts a new history |
| Saadc.Driver.BufferSet | reseni_adc/nrfx_saadc.c:466-521 | each error with its condition and precedence; an accepted buffer is queued behind the primary one, and programmed at once only while a run is started |
| SaadcSteps.AcceptStep | reseni_adc/nrfx_saadc.c:498-514 | accepting a buffer appends it to the pending queue and keeps driver and hardware in step |
| Saadc.Driver.ModeTrigger | reseni_adc/nrfx_saadc.c:523-627 | per mode: the buffer handed to the hardware by exactly one START, how many SAMPLE tasks are given, what is returned, and the new state; in advanced blocking mode that buffer begins at the slot reached so far |
| SaadcSteps.TriggerStep | reseni_adc/nrfx_saadc.c:560-568 | a non-blocking trigger starts a run on the pending queue with its first buffer latched |
| SaadcSteps.SimpleTriggerStep | reseni_adc/nrfx_saadc.c:536-555 | a simple-mode trigger keeps the invariant, with or without a handler |
| Saadc.Driver.SampleOnce | reseni_adc/nrfx_saadc.c:587-604 | exactly as many SAMPLE tasks as one oversampled result needs |
| Saadc.Driver.TriggerChunk | reseni_adc/nrfx_saadc.c:569-618 | one blocking trigger latches the next chunk, at the slot reached so far, and reports BUSY until the buffer is full |
| SaadcSteps.ChunkStep | reseni_adc/nrfx_saadc.c:606-616 | progress stays a multiple of the channel count below the buffer length, and the secondary is promoted exactly when the buffer is full |
| SaadcSteps.FillStep | reseni_adc/nrfx_saadc.c:606-616 | the next chunk never passes the end of the buffer and the last one meets it |
| Saadc.Driver.FillBuffer | reseni_adc/nrfx_saadc.c:572-616 | triggering until the result is not BUSY takes length / count triggers; the buffers the hardware was given tile the buffer without gap or overlap, and the secondary is promoted |
| Saadc.Driver.Abort | reseni_adc/nrfx_saadc.c:629-644 | STOP is given, and the call logged outside a calibration, when a handler is waiting; otherwise the buffers and the progress are dropped |
| SaadcSteps.DiscardStep | reseni_adc/nrfx_saadc.c:640-642 | dropping the buffers together with the progress keeps the invariant |
| SaadcSteps.AbortStep | reseni_adc/nrfx_saadc.c:633-637 | asking for an abort keeps the invariant and the pending buffers |
| Saadc.Driver.LimitsSet | reseni_adc/nrfx_saadc.c:646-694 | each error with its condition; afterwards the interrupt mask again equals the one the activated limits call for |
| SaadcSteps.LimitsStep | reseni_adc/nrfx_saadc.c:667-691 | a limit change keeps the invariant when both masks change together |
| Saadc.Driver.OffsetCalibrate | reseni_adc/nrfx_saadc.c:696-740 | a blocking calibration changes nothing but the scratch fields; a non-blocking one records what it must give back and disables channel 0's limits |
| Saadc.Driver.CalibrateBlocking | reseni_adc/nrfx_saadc.c:721-737 | mode and interrupt mask are as before |
| Saadc.Driver.CalibrateNonBlocking | reseni_adc/nrfx_saadc.c:705-719 | the interrupt mask during a calibration |
| SaadcSteps.CalibrateStep | reseni_adc/nrfx_saadc.c:705-719 | the calibration state remembers the snapshot it must give back |
| SaadcSteps.BlockingCalibrateStep | reseni_adc/nrfx_saadc.c:705-737 | nothing a user can observe changes |
| Saadc.Driver.PreCalibrationStateRestore | reseni_adc/nrfx_saadc.c:742-766 | the exact mode and interrupt mask from before the calibration, whichever way it ended |
| SaadcSteps.RestoredInts | reseni_adc/nrfx_saadc.c:745-764 | the mask put together from what is enabled during a calibration is the one the mode calls for |
| SaadcSteps.RestoreStep | reseni_adc/nrfx_saadc.c:742-766 | the restored state matches the snapshot of the calibration and keeps the invariant |
| Saadc.Driver.Do | reseni_adc/nrfx_saadc.c:297-740 | any API call with any arguments does what SaadcCalls.Perform says, state, registers and log |
| SaadcCalls.PerformPolite | reseni_adc/nrfx_saadc.c:297-740 | a call changes at most the next buffer and the limits during a conversion, nothing but a STOP during a calibration, logs no callback, and takes the handler away only as a mode set without one |
| SaadcCalls.Harmlessly | reseni_adc/nrfx_saadc.c:768-891 | the same for any sequence of calls |
| SaadcCalls.NothingAdded | reseni_adc/nrfx_saadc.c:470-473 | without buffer_set no sequence of calls fills the next slot during a conversion |
| SaadcCalls.SlotTaken | reseni_adc/nrfx_saadc.c:470-473 | with the next slot taken no sequence of calls has a buffer accepted |
| Saadc.Driver.Script | reseni_adc/nrfx_saadc.c:768-891 | any sequence of calls in a callback does what the calls do one after the other |
| Saadc.Driver.Invoke | reseni_adc/nrfx_saadc.c:776 | the event is reported first, then whatever its callback calls; the invariant holds throughout |
| Saadc.Driver.StartedHandle | reseni_adc/nrfx_saadc.c:768-814 | per state the effect SaadcEvents.OnStarted |
| SaadcEvents.StartedFacts | reseni_adc/nrfx_saadc.c:768-814 | READY first on the first STARTED, BUF_REQ exactly when no next buffer is set then, and nothing when one is; one SAMPLE in simple mode, one STOP in a calibration |
| Saadc.Driver.FirstStarted | reseni_adc/nrfx_saadc.c:774-789 | READY and the switch to the started state, as SaadcEvents.FirstStart says |
| SaadcEvents.FirstStartFacts | reseni_adc/nrfx_saadc.c:774-789 | after READY the run is started and a buffer supplied early or in the callback is programmed, without a START |
| Saadc.Driver.BufferRequest | reseni_adc/nrfx_saadc.c:791-799 | BUF_REQ exactly when no next buffer is set |
| SaadcSteps.ReadyStep | reseni_adc/nrfx_saadc.c:774-776 | READY is allowed in this state and only moves the run on |
| SaadcSteps.BufReqStep | reseni_adc/nrfx_saadc.c:792-797 | BUF_REQ is allowed only with exactly one buffer pending |
| SaadcSteps.StartedStep | reseni_adc/nrfx_saadc.c:784-788 | the switch to the started state keeps driver and hardware in step |
| Saadc.Driver.EndHandle | reseni_adc/nrfx_saadc.c:816-862 | per state the effect SaadcEvents.OnEnd |
| SaadcEvents.EndFacts | reseni_adc/nrfx_saadc.c:816-862 | per state the first callback of END; in simple mode the callback finds the driver idle and disabled and can start the next conversion; in a run a next buffer becomes primary and nothing else is reported, and without one and without buffer_set FINISHED follows |
| SaadcRuns.SimpleTwice | reseni_adc/nrfx_saadc.c:801-833 | a run of the driver in which the callback of a simple conversion starts another |
| SaadcRuns.StreamingRun | reseni_adc/nrfx_saadc.c:835-850 | a run of the driver with two buffers in a row under start-on-end |
| SaadcEvents.RunEndFacts | reseni_adc/nrfx_saadc.c:835-850 | the same for a run, with aborts asked for in the callback of DONE the only entries before FINISHED |
| SaadcEvents.LatchExactly | reseni_adc/nrfx_saadc.c:836-840 | END gives START exactly when start-on-end is set and the next buffer was there before, and takes over the one programmed |
| SaadcEvents.GoesOn | reseni_adc/nrfx_saadc.c:836-850 | the run goes on exactly when there is a next buffer after the callback, which becomes primary; under start-on-end it was started again exactly when that buffer was there before |
| SaadcEvents.LateBuffer | reseni_adc/nrfx_saadc.c:836-842 | the whole effect of a buffer supplied only in the callback of DONE: programmed, primary, never latched |
| SaadcRuns.LateBufferRun | reseni_adc/nrfx_saadc.c:836-842 | a run of the driver that ends there, with one START given in all |
| Saadc.Driver.AdvancedEnd | reseni_adc/nrfx_saadc.c:835-850 | DONE for the first pending buffer, the latch, the move up and FINISHED, as SaadcEvents.RunEnd says |
| SaadcSteps.SimpleDoneStep | reseni_adc/nrfx_saadc.c:825-833 | the simple-mode callback sees the idle mode again |
| Saadc.Driver.NotifyDone | reseni_adc/nrfx_saadc.c:835-840 | the report of the primary buffer, before which the latch happens if a next buffer is set |
| Saadc.Driver.Promote | reseni_adc/nrfx_saadc.c:841-849 | the queue moves up, FINISHED exactly when it is empty |
| SaadcSteps.DoneStep | reseni_adc/nrfx_saadc.c:835-840 | what the callback of DONE sees is consistent with the first pending buffer being gone |
| SaadcSteps.PromoteStep | reseni_adc/nrfx_saadc.c:841-849 | moving up keeps the invariant, with or without a next buffer |
| Saadc.Driver.LimitsHandle | reseni_adc/nrfx_saadc.c:864-891 | only limits raised and enabled are reported, each as its channel and kind; true if and only if none of them is missing; always so during a conversion and when every callback but the last keeps the handler |
| SaadcEvents.BitPositions | reseni_adc/nrfx_saadc.c:876-883 | bit 2c is the high limit of channel c and bit 2c + 1 its low limit |
| SaadcEvents.HonestLimits | reseni_adc/nrfx_saadc.c:864-890 | in terms of channels and the interrupt mask, nothing is reported that was not raised and enabled, and the outcome is right exactly when nothing that was is missing |
| SaadcRuns.LowLimitRun | reseni_adc/nrfx_saadc.c:864-890 | a run of the driver in which the low limit of channel 0 is reported as that |
| Saadc.Driver.LimitsLoop | reseni_adc/nrfx_saadc.c:871-890 | the lowest limits first, up to the first that finds no handler |
| SaadcEvents.OkIsReported | reseni_adc/nrfx_saadc.c:871-890 | what the callbacks do decides it: the outcome is right exactly when each of the limits is among the reports |
| SaadcEvents.LimitsFacts | reseni_adc/nrfx_saadc.c:871-890 | failing is leaving a limit out and losing the handler; it needs a callback before the last that takes the handler away, outside a conversion |
| SaadcEvents.LostLimit | reseni_adc/nrfx_saadc.c:871-890 | an input on which the second of two limits is lost |
| SaadcRuns.LostLimitRun | reseni_adc/nrfx_saadc.c:871-890 | a run of the driver on that input |
| Saadc.Driver.IrqHandler | reseni_adc/nrfx_saadc.c:893-943 | any interrupt in any state, with any callbacks, does what SaadcEvents.OnIrq says, state, registers, log and lost limits |
| SaadcEvents.IrqFacts | reseni_adc/nrfx_saadc.c:901-927 | CALIBRATEDONE disables its interrupt and latches the scratch buffer by one START, and nothing else changes; STOPPED cuts the queue in every state outside a calibration; it ends a calibration only before CALIBRATEDONE, without a callback; the rest of the interrupt works on what is left |
| SaadcEvents.TailFacts | reseni_adc/nrfx_saadc.c:929-942 | END first, STARTED on what END left, the limits on what both left, for every combination; a calibration takes no notice of anything but END |
| Saadc.Driver.EndStartedLimits | reseni_adc/nrfx_saadc.c:929-942 | the order END, STARTED, limits |
| Saadc.Driver.CalibratedHandle | reseni_adc/nrfx_saadc.c:901-908 | the event is logged, the scratch buffer latched by a START and the CALIBRATEDONE interrupt off |
| Saadc.Driver.StoppedHandle | reseni_adc/nrfx_saadc.c:910-927 | outside a calibration the primary buffer is cut and the secondary dropped; in one that is not done the state before it comes back |
| SaadcSteps.StoppedStep | reseni_adc/nrfx_saadc.c:912-917 | cutting and dropping keep the invariant |
| SaadcSteps.CalibratedStep | reseni_adc/nrfx_saadc.c:901-908 | CALIBRATEDONE is allowed once in a calibration and keeps the invariant |
| EndToEnd.MeasurementStage | mqtt_working/src/main.c:1360-1589 | from the offsets on: the readings gathered first decide the offsets, and the theorem about the stream holds of everything published |
| EndToEnd.CaptureAndSend | mqtt_working/src/main.c:1402-1589 | the first loud sample triggers, the recording goes on to the first sample that meets the stop condition, the memory holds its padded records, and packets 1 to 2 + n / 1024 carry the window of the last 1024 samples up to the trigger and then what the reads deliver, up to the first failing publish; with fault-free reads and successful publishes the stream is the window and the whole recording in order, then what EndToEnd.Replayed says |
| EndToEnd.RecordAndSend | mqtt_working/src/main.c:1459-1589 | the same from the trigger on |
| EndToEnd.FaultFreeStream | mqtt_working/src/main.c:337-503 | with fault-free reads and successful publishes the first 1024 + n slots are the window and all n recorded samples without gap or repeat, for every n >= 1, and every later slot is known exactly |
| EndToEnd.RecordingInOrder | mqtt_working/src/main.c:394-434 | the replay starts with the whole recording |
| EndToEnd.SlotsReplayed | mqtt_working/src/main.c:394-434 | the slots read back are the replay of the recording |
| EndToEnd.FaithfulTail | mqtt_working/src/main.c:1581-1589 | with n mod 1024 >= 24 every later slot of the stream repeats the last sample |
| EndToEnd.BlankStream | mqtt_working/src/main.c:1581-1589 | with n mod 1024 < 24 over a memory of zeros the last slot of the stream is the marker |
| EndToEnd.FaultFreeReplay | mqtt_working/src/main.c:394-434 | slot by slot for every n, including what the slots beyond the padding show |
| EndToEnd.TailExactly | mqtt_working/src/main.c:1581-1589 | the slots after the recording repeat its last sample for every earlier content of the memory if and only if n mod 1024 >= 24 |
| EndToEnd.BlankTail | mqtt_working/src/main.c:1581-1589 | the earlier content that shows it fails otherwise |
| EndToEnd.DetectableReplay | mqtt_working/src/main.c:413-477 | if every read error is a burst of at most 16 bits or of odd weight, each slot is the recorded sample or the marker, never ambiguous |
| EndToEnd.StreamOf | mqtt_working/src/main.c:344-500 | the packets put end to end are the window and a prefix of the slots |
| EndToEnd.TriggerLast | mqtt_working/src/main.c:1437-1454 | the last sample of the window is the one that triggered |
| EndToEnd.StoredOnChip | mqtt_working/src/main.c:1538-1589 | records written one after the other sit at ten times their number, and the memory beyond the padding is untouched |
| EndToEnd.Capture | mqtt_working/src/main.c:1472-1589 | what the recording and the padding leave in the memory |
| Crc.Crc16Ccitt | mqtt_working/src/unit_lib.c:5-22 | the two loops compute the remainder of the preset message under polynomial division |
| Crc.InnerRound | mqtt_working/src/unit_lib.c:13-19 | one round of the inner loop is one division step that brings down one message bit |
| Crc.PolyIs | mqtt_working/src/unit_lib.c:16 | the constant 0x1021 is the generator less its leading term |
| Polynomials.DivisionIdentity | mqtt_working/src/unit_lib.c:13-19 | the shift register is long division: quotient times generator plus remainder is the message |
| Polynomials.RemainderDecides | mqtt_working/src/unit_lib.c:13-19 | the register ends at zero if and only if the generator divides the message |
| Crc.ChecksumIsUnique | mqtt_working/src/unit_lib.c:5-22 | data with two more bytes is a codeword if and only if they are its checksum, high byte first |
| Crc.UndetectedErrors | mqtt_working/src/main.c:413-418 | a valid record disturbed by an error pattern passes the reader's comparison if and only if the pattern is a codeword without preset |
| Crc.DivStepBijective | mqtt_working/src/unit_lib.c:15-18 | one step of the register is a bijection: every value is reached, from exactly one other |
| Crc.BurstsDetected | mqtt_working/src/unit_lib.c:5-22 | no burst of at most 16 bits, wherever it lies, is a codeword |
| Crc.MultiplesAreEven | mqtt_working/src/unit_lib.c:16 | every codeword has even weight |
| Crc.DetectableRejected | mqtt_working/src/main.c:413-418 | bursts of at most 16 bits and errors of odd weight, anywhere in the ten bytes, are rejected |
| Samples.SaturateChannelValues | mqtt_working/src/unit_lib.c:25-38 | each channel by itself: above 32750 becomes 32750, below -32750 becomes -32750, anything else is unchanged |
| Samples.StoreSample | mqtt_working/src/main.c:1507-1536 | the ten bytes of a record |
| Samples.StoreChecksum | mqtt_working/src/main.c:1533-1536 | the checksum of the first eight bytes, high byte first, and those bytes untouched |
| Samples.LoadSample | mqtt_working/src/main.c:421-433 | the value of the eight data bytes |
| Samples.ChecksumMatches | mqtt_working/src/main.c:413-418 | the reader's comparison |
| Samples.RecordRoundTrip | mqtt_working/src/main.c:1507-1536 | a stored record is accepted and read back as the 16-bit sample it was made from |
| Samples.RecordLayout | mqtt_working/src/main.c:1507-1536 | the four channels in order in two's complement and the checksum of those eight bytes, each high byte first |
| Psram.AddressRoundTrip | mqtt_working/src/drivers/APS6404L.c:34-36 | the three address bytes name every address below 2^24 |
| Psram.HeaderIs | mqtt_working/src/drivers/APS6404L.c:33-36 | the command and the three address bytes as numbers, highest first |
| Psram.AddressIs | mqtt_working/src/drivers/APS6404L.c:34-36 | the address that three bytes name |
| Psram.Chip.Transfer | mqtt_working/src/drivers/APS6404L.c:56-58 | what one bus transfer does to the memory and what it answers |
| Psram.Chip.Frame | mqtt_working/src/drivers/APS6404L.c:31-36 | command and address of a frame |
| Psram.Chip.WriteByteArray | mqtt_working/src/drivers/APS6404L.c:29-59 | exactly the addressed bytes change, to the given ones |
| Psram.Chip.ReadData | mqtt_working/src/drivers/APS6404L.c:61-84 | the addressed bytes as the bus delivers them, and the memory unchanged |
| Memory.ClearBuffer | mqtt_working/src/unit_lib.c:42-45 | zeros up to the length, the rest untouched |
| Ring.CircularBuffer.Init | mqtt_working/src/main.c:712-720 | an empty history that already counts as overflowed |
| Ring.CircularBuffer.AddValue | mqtt_working/src/main.c:722-743 | the ring stays the last 1024 samples of silence followed by the history; the returned head is in 1 to 1024 |
| Ring.CircularBuffer.CopyOut | mqtt_working/src/main.c:1591-1621 | the wrap-around loop terminates and yields that window for every head |
| Ring.WindowAt | mqtt_working/src/main.c:712-743 | the window entry by entry: silence, then the history, the newest last |
| Ring.ZipAt | mqtt_working/src/main.c:726-729 | which array holds which channel |
| Cyclic.LastSnoc | mqtt_working/src/main.c:722-743 | one sample in, the oldest out |
| Cyclic.UnrollStep | mqtt_working/src/main.c:722-743 | a write at the head is a shift of the unrolled contents |
| Averaging.Averager.AddSamples | mqtt_working/src/main.c:651-662 | the rows hold the last four readings, oldest at the index |
| Averaging.Averager.AverageOfVectors | mqtt_working/src/main.c:676-687 | the truncated mean of the last four readings, per channel |
| Averaging.ReadAverage | mqtt_working/src/main.c:1415-1417 | one reading in, the mean of the last four out |
| Averaging.Mean4Between | mqtt_working/src/main.c:685 | the truncated mean lies between the least and the greatest of the four |
| Averaging.TruncDivIs | mqtt_working/src/main.c:685-691 | what truncating division means for negative sums too |
| Averaging.AverageIs | mqtt_working/src/main.c:676-687 | each channel's average is made from that channel of the last four readings |
| Averaging.RotatedMean | mqtt_working/src/main.c:681-684 | where the oldest row lies does not matter |
| Baseline.FilterBetween | mqtt_working/src/main.c:689-692 | the filtered value lies between the previous value and the new sample |
| Baseline.FilterRunBetween | mqtt_working/src/main.c:689-692 | over any run the filtered value lies between the least and the greatest of the start and all inputs |
| Baseline.SettleBy | mqtt_working/src/main.c:689-692 | under a constant input the filter never crosses it, and every step takes off at least a twenty-fifth of the distance, rounded down |
| Baseline.SettleDown | mqtt_working/src/main.c:689-692 | from at most 24 above, the exact value after any number of steps |
| Baseline.SettleStuck | mqtt_working/src/main.c:689-692 | from at most 24 below, the filter does not move |
| Baseline.SettleBelow | mqtt_working/src/main.c:689-692 | from below the input is never reached |
| Baseline.Settled | mqtt_working/src/main.c:689-692 | after 274 steps the filter is at the input from above, at most 24 below it from below |
| Baseline.GatherOffsets | mqtt_working/src/main.c:1360-1392 | the offsets are the filter run over the averages of all 5000 readings |
| Baseline.FilterChannels | mqtt_working/src/main.c:1378-1386 | one filter step on each of the four channels |
| Baseline.ConstantBaseline | mqtt_working/src/main.c:1360-1392 | for a constant non-negative 14-bit reading the gathered offset is it or at most 24 below, and it is it if and only if the reading is at most 4885 |
| Baseline.StartsAbove | mqtt_working/src/main.c:1190-1384 | once the averages have filled up the filter is at or above the reading if and only if that is at most 4885 |
| Rms.RmsChannel.UpdateRms | mqtt_working/src/main.c:694-710 | the running sum is the sum of squares of the last 100 values and the result the root of their mean, narrowed to 32 bits, which is exact while the mean fits |
| Rms.SlideSquares | mqtt_working/src/main.c:696-702 | taking out the oldest square and adding the newest slides the window |
| Rms.ISqrt | mqtt_working/src/main.c:709 | the floor square root |
| Rms.RmsAbove | mqtt_working/src/main.c:1454 | the RMS exceeds t if and only if the sum of squares is at least 100 (t + 1)^2 |
| Rms.MeanFits | mqtt_working/src/main.c:708 | no overflow while no value exceeds 46340 |
| Rms.MeanOverflows | mqtt_working/src/main.c:708 | 46341 overflows |
| Sampler.Chain.Measure | mqtt_working/src/main.c:1415-1435 | one more sample, which with the offset makes the average of the last four readings in each channel; it is stored as it is while within the limit; both watched RMS values are those of the whole history |
| Sampler.SteadySample | mqtt_working/src/main.c:1415-1435 | after four equal readings the sample is the reading less the offset |
| EndToEnd.ConstantOffsets | mqtt_working/src/main.c:1360-1392 | gathered from a constant reading of at most 4885 the offsets are that reading, each channel its own |
| EndToEnd.RiseIsStored | mqtt_working/src/main.c:1360-1435 | four readings that lie x above such a reading are stored as x |
| Sampler.Chain.UpdateAll | mqtt_working/src/main.c:1419-1433 | each channel's RMS state follows its own column of the history |
| Sampler.RmsExact | mqtt_working/src/main.c:1419-1433 | samples of a 14-bit converter stay in the range where the RMS is exact |
| Sampler.AverageBounded | mqtt_working/src/main.c:1416-1417 | averages stay in the range of the readings |
| Sampler.BaselineBounded | mqtt_working/src/main.c:1360-1392 | gathered offsets stay in the range of the readings |
| Recorder.WaitForTrigger | mqtt_working/src/main.c:1409-1454 | the first sample after which a watched RMS exceeds the threshold triggers, and the ring then holds every sample up to it |
| Recorder.WaitOne | mqtt_working/src/main.c:1411-1454 | one pass: the sample enters the ring, and the trigger looks at channels 0 and 2 |
| Recorder.RecordRun | mqtt_working/src/main.c:1479-1575 | the memory holds the record of every sample in order, the loop ends at the first sample that meets the stop condition, after at most 79977 samples |
| Recorder.RecordOne | mqtt_working/src/main.c:1485-1538 | one sample measured, packed and written |
| Recorder.Decide | mqtt_working/src/main.c:1547-1571 | the counter and the two ways to end |
| Recorder.LowRunMeans | mqtt_working/src/main.c:1547-1556 | the counter reaches n if and only if the last n samples were all quiet |
| Recorder.StopsMeans | mqtt_working/src/main.c:1547-1566 | the stop condition in terms of the samples: the last duration + 1 all quiet, or 79977 samples |
| Recorder.LoudIs | mqtt_working/src/main.c:1454 | the trigger in terms of the sums of squares of channels 0 and 2: either reaches 100 (t + 1)^2 |
| Recorder.QuietIs | mqtt_working/src/main.c:1547 | quiet is both sums of squares below 100 t^2 |
| Recorder.CounterDecides | mqtt_working/src/main.c:1547-1566 | until it stops, the wrapping 16-bit counter decides as an unbounded one, for every duration below 65535 |
| Recorder.Pad | mqtt_working/src/main.c:1581-1589 | the last record a thousand more times |
| Recorder.RestoreChecksum | mqtt_working/src/main.c:1584-1586 | recomputing the checksum of a finished record changes nothing |
| Recorder.FlatAt | mqtt_working/src/main.c:1538-1542 | record k lies at ten times k |
| Replay.Sender.Send | mqtt_working/src/main.c:326-503 | the number of packets, their numbering and contents, where the send ends, the train counter, and the window flag taken back, for any read errors and publish results |
| Replay.SendAgain | mqtt_working/src/main.c:356-358 | after a send whose first publish failed, the next one publishes no window |
| Replay.Sender.SendAll | mqtt_working/src/main.c:344-500 | every packet in turn until the first publish that fails |
| Replay.Sender.SendNext | mqtt_working/src/main.c:346-498 | one packet built, numbered and published, or the end of the send |
| Replay.Sender.BuildNext | mqtt_working/src/main.c:356-480 | the window once if the flag is set, otherwise the next 1024 slots |
| Replay.Sender.LoadPacket | mqtt_working/src/main.c:392-479 | 1024 more slots whatever the reads deliver; the measure (1024 - loaded, 101 - counter) shows it ends, and failed reads = 101 * fail counter + error counter and address = 10 * slots throughout |
| Replay.Sender.ReadOnce | mqtt_working/src/main.c:397-478 | one read: a slot more, or one more on the error counter |
| Replay.Sender.CountFailure | mqtt_working/src/main.c:436-477 | the slot is given up exactly on the 101st failure since the last one given up |
| Replay.Sender.GiveUp | mqtt_working/src/main.c:461-477 | -32760 in all four channels, one more failed sample and the next address |
| Replay.Sender.TakeSample | mqtt_working/src/main.c:418-434 | an accepted read fills the slot without touching the error counter |
| Replay.Sender.Fetch | mqtt_working/src/main.c:398-418 | the bytes read and the verdict of the comparison |
| Replay.SeedPacket.CopyRing | mqtt_working/src/main.c:360-388 | the block copies yield the window for every head, the same as the wrap-around loop |
| Replay.FaultFree | mqtt_working/src/main.c:394-434 | without read errors a slot is its record decoded, or the marker if the record is no valid one |
| Replay.SampleOrMarker | mqtt_working/src/main.c:418-468 | under detectable errors a slot is the recorded sample or the marker, and it is the marker if and only if all its reads were rejected |
| Adc.ScanClosedForm | reseni_adc/nrfx_adc.c:227-248 | sample k comes from channel k mod n, and k samples need k / n starts from outside, rounded up |
| Adc.Driver.ChannelEnable | reseni_adc/nrfx_adc.c:114-135 | the list grows by the channel at its end |
| Adc.Driver.ChannelDisable | reseni_adc/nrfx_adc.c:137-160 | the list loses exactly that channel and keeps its order |
| Adc.Driver.Find | reseni_adc/nrfx_adc.c:142-149 | the search ends at the channel with its predecessor |
| Adc.Driver.AllChannelsDisable | reseni_adc/nrfx_adc.c:162-167 | the list is empty |
| Adc.Driver.Sample | reseni_adc/nrfx_adc.c:169-174 | during a scan a start from outside is counted; between scans, with the ADC disabled, it has no effect |
| Adc.Driver.SampleConvert | reseni_adc/nrfx_adc.c:176-219 | busy if and only if powered on; the blocking form returns the result, the other leaves it to the interrupt |
| Adc.Driver.SampleProcess | reseni_adc/nrfx_adc.c:221-255 | the result goes to the next slot and the scan is done exactly at the requested size |
| Adc.Driver.Store | reseni_adc/nrfx_adc.c:223-226 | the result of the configured channel in the next slot |
| Adc.Driver.Advance | reseni_adc/nrfx_adc.c:230-248 | on to the next channel, started at once unless the list wraps |
| Adc.Driver.NextChannel | reseni_adc/nrfx_adc.c:229-242 | the channel of the next sample, and whether it is not the head |
| Adc.Driver.BufferConvert | reseni_adc/nrfx_adc.c:257-307 | busy if and only if powered on; otherwise a scan at its beginning |
| Adc.Driver.BufferConvertBlocking | reseni_adc/nrfx_adc.c:290-300 | every slot holds the result of its channel when it returns |
| Adc.Driver.WaitLoop | reseni_adc/nrfx_adc.c:290-299 | the loop ends after exactly size samples, each from its channel |
| Adc.Driver.IrqHandler | reseni_adc/nrfx_adc.c:315-344 | one notification at the end of a scan or of a single conversion, none before |
| Adc.Driver.ScanAll | reseni_adc/nrfx_adc.c:221-344 | a whole non-blocking scan: slot k from channel k mod n, one DONE after exactly size END events, size / n starts rounded up |

## Left out

- Network and sensors: MQTT, the modem, AT commands, SUPL, cloud code, the BME280 driver and the log backends are plumbing over libraries that are not part of this model; a publish appends to a sequence or fails.
- The UART variant and the variant without serial RAM of the sender: the UART variant steps by 8 bytes (`mqtt_working/src/main.c:568-570`) through records of 10.
- `nrfx_saadc_uninit` and a second initialisation: neither clears the activated limits, so the interrupt mask invariant does not hold across them; the model starts at the first initialisation.
- The register workaround of anomaly 212, and the gain, resolution and pin settings of a channel: they do not reach the driver's state.
- Widths of words in the checksum and the records: bytes and 16-bit words are bit strings of that length; channel masks are sets of channel numbers.
- Timing, timestamps and the real order of interrupts: an interrupt handler runs to its end before the next event.
- Rms.RmsChannel.UpdateRms: the result is arbitrary when the narrowed mean is negative, since the source then converts a NaN to an integer; narrowing keeps the low 32 bits, as the compilers of this target do; the double-precision root is modelled as the integer floor root, which it equals on this range.
- Recorder.WaitForTrigger: works through a finite sequence of readings, while the loop of the source would wait for ever without a trigger.
- EndToEnd.CaptureAndSend: takes at least 79977 readings as available for the recording, the most it can use, and does not run the copy into the result arrays, which is Ring.CircularBuffer.CopyOut and feeds nothing published.
- Replay.Sender.Send: the packet's timestamp is not modelled.
- Saadc.Driver.LimitsHandle: when a callback has taken the handler away the model stops where the source would call a null pointer.
- Saadc.Driver.ModeTrigger: sample values are not modelled, only which buffer and chunk the hardware was given.
