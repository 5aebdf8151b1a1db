/** Each state change of the driver keeps the invariant, stated on values. */
module SaadcSteps {
  import opened SaadcHistory
  import opened SaadcState
  import opened SaadcTraces
  import opened Arith

  /** The control block a mode set leaves behind. */
  function WithMode(cb: ControlBlock, mode: State, mask: set<nat>, handler: bool,
                    startOnEnd: bool, withoutBurst: bool): ControlBlock
  {
    cb.(limitsLow := {}, limitsHigh := {}, primary := Null, secondary := Null,
        eventHandler := handler, channelsActivated := mask, samplesConverted := 0,
        channelsActivatedCount := |mask|, state := mode,
        startOnEnd := startOnEnd, oversamplingWithoutBurst := withoutBurst)
  }

  lemma ModeSetStep(cb: ControlBlock, hw: Registers, log: seq<Entry>,
                    mode: State, mask: set<nat>, handler: bool, soe: bool, burst: bool, timer: bool,
                    oversample: Positive)
    requires Inv(cb, hw, log, Outside)
    requires cb.state.Idle? || cb.state.SimpleMode? || cb.state.AdvMode?
    requires mode.SimpleMode? || mode.AdvMode?
    requires mask != {} && mask <= cb.channelsConfigured
    ensures var c1 := WithMode(cb, mode, mask, handler, soe, burst);
            Inv(c1, hw.(inten := ModeInts(c1), continuous := timer, oversample := oversample), log + [ModeSet], Outside)
  {
    Parts(cb, hw, log, Outside);
    var c1 := WithMode(cb, mode, mask, handler, soe, burst);
    Parts(c1, hw.(inten := ModeInts(c1), continuous := timer, oversample := oversample), log + [ModeSet], Outside);
    ReplaySnoc(log, ModeSet);
    assert 0 % |mask| == 0;
    assert c1.Outstanding(Outside) == [];
  }

  /** Which channels are configured matters only to the next mode set. */
  lemma ChannelsStep(cb: ControlBlock, hw: Registers, log: seq<Entry>, site: Site, configured: set<nat>)
    requires Inv(cb, hw, log, site) && !cb.Busy() && configured <= CHANNELS
    ensures Inv(cb.(channelsConfigured := configured), hw, log, site)
  {
    var c1 := cb.(channelsConfigured := configured);
    Parts(cb, hw, log, site);
    Parts(c1, hw, log, site);
    assert c1.Outstanding(site) == cb.Outstanding(site);
  }

  /** Tasks given change nothing by themselves. */
  lemma TasksStep(cb: ControlBlock, hw: Registers, log: seq<Entry>, site: Site, h1: Registers)
    requires Inv(cb, hw, log, site) && h1 == hw.(sampleTasks := h1.sampleTasks, stopTasks := h1.stopTasks)
    ensures Inv(cb, h1, log, site)
  {
    Parts(cb, hw, log, site);
    Parts(cb, h1, log, site);
  }

  lemma AcceptStep(cb: ControlBlock, hw: Registers, log: seq<Entry>, site: Site, b: Buffer)
    requires Inv(cb, hw, log, site)
    requires cb.secondary.Null? && cb.Advanced() && !cb.state.Calibration?
    requires BlockSized(b, cb.channelsActivatedCount) && b.Buf?
    ensures var c1 := if cb.primary.Buf? then cb.(secondary := b) else cb.(primary := b);
            var h1 := if cb.state.AdvModeSampleStarted? then hw.(programmed := b) else hw;
            Inv(c1, h1, log + [Accepted(b)], site)
  {
    var c1 := if cb.primary.Buf? then cb.(secondary := b) else cb.(primary := b);
    var h1 := if cb.state.AdvModeSampleStarted? then hw.(programmed := b) else hw;
    Parts(cb, hw, log, site);
    Parts(c1, h1, log + [Accepted(b)], site);
    ReplaySnoc(log, Accepted(b));
    assert c1.Outstanding(site) == cb.Outstanding(site) + [b];
  }

  lemma SimpleTriggerStep(cb: ControlBlock, hw: Registers, log: seq<Entry>, site: Site, h1: Registers)
    requires Inv(cb, hw, log, site) && cb.state.SimpleMode? && cb.primary.Buf?
    requires h1.inten == hw.inten && h1.enabled == cb.eventHandler
    ensures Inv(if cb.eventHandler then cb.(state := SimpleModeSample) else cb, h1, log, site)
  {
    Parts(cb, hw, log, site);
    Parts(if cb.eventHandler then cb.(state := SimpleModeSample) else cb, h1, log, site);
  }

  lemma TriggerStep(cb: ControlBlock, hw: Registers, log: seq<Entry>, site: Site)
    requires Inv(cb, hw, log, site) && cb.state.AdvMode? && cb.eventHandler && cb.primary.Buf?
    ensures Inv(cb.(state := AdvModeSample),
                hw.WithBuffer(cb.primary, true).(enabled := true),
                log + [Triggered], site)
  {
    Parts(cb, hw, log, site);
    Parts(cb.(state := AdvModeSample), hw.WithBuffer(cb.primary, true).(enabled := true), log + [Triggered], site);
    ReplaySnoc(log, Triggered);
    assert cb.Outstanding(site) == cb.(state := AdvModeSample).Outstanding(site);
  }

  // ---------- blocking chunks ----------

  function ChunkNow(cb: ControlBlock): Entry {
    Chunk(cb.primary, cb.samplesConverted, cb.channelsActivatedCount)
  }

  function ChunkBuffer(cb: ControlBlock): Buffer
    requires cb.primary.Buf?
  { Buf(cb.primary.addr + cb.samplesConverted, cb.channelsActivatedCount) }

  function AfterChunk(cb: ControlBlock): ControlBlock
    requires cb.primary.Buf?
  {
    var n := cb.samplesConverted + cb.channelsActivatedCount;
    if n < cb.primary.length then cb.(samplesConverted := n)
    else cb.(samplesConverted := 0, primary := cb.secondary, secondary := Null)
  }

  /** SAMPLE tasks one blocking trigger needs. */
  function SamplesPerChunk(cb: ControlBlock, hw: Registers): nat {
    if cb.oversamplingWithoutBurst then hw.oversample else 1
  }

  /** The registers after one blocking trigger. */
  function ChunkTaken(cb: ControlBlock, hw: Registers): Registers
    requires cb.primary.Buf?
  { hw.WithBuffer(ChunkBuffer(cb), true).(sampleTasks := hw.sampleTasks + SamplesPerChunk(cb, hw)) }

  lemma ChunkStep(cb: ControlBlock, hw: Registers, log: seq<Entry>, site: Site, h1: Registers)
    requires Inv(cb, hw, log, site) && cb.state.AdvMode? && !cb.eventHandler && cb.primary.Buf?
    requires h1.inten == hw.inten && !h1.enabled
    ensures Inv(AfterChunk(cb), h1, log + [ChunkNow(cb)], site)
    ensures AfterChunk(cb).samplesConverted == 0 <==>
            cb.samplesConverted + cb.channelsActivatedCount >= cb.primary.length
  {
    Parts(cb, hw, log, site);
    Parts(AfterChunk(cb), h1, log + [ChunkNow(cb)], site);
    MultiplesStep(cb.samplesConverted, cb.primary.length, cb.channelsActivatedCount);
    ReplaySnoc(log, ChunkNow(cb));
    assert 0 % cb.channelsActivatedCount == 0;
    var q := cb.Outstanding(site);
    assert q[0] == cb.primary && q[1..] == AsQueue(cb.secondary);
    var more := cb.samplesConverted + cb.channelsActivatedCount < cb.primary.length;
    assert AfterChunk(cb).Outstanding(site) == if more then q else q[1..];
  }

  /** Samples in the buffer after k blocking triggers. */
  function FillLevel(cb: ControlBlock, k: nat): nat { k * cb.channelsActivatedCount }

  predicate IsFull(cb: ControlBlock, k: nat)
    requires cb.primary.Buf?
  { FillLevel(cb, k) >= cb.primary.length }

  /** now is what cb has become after k blocking triggers. */
  predicate FilledTo(cb: ControlBlock, k: nat, now: ControlBlock)
    requires cb.primary.Buf?
  {
    if IsFull(cb, k)
    then now == cb.(primary := cb.secondary, secondary := Null) && FillLevel(cb, k) == cb.primary.length
    else now == cb.(samplesConverted := FillLevel(cb, k))
  }

  lemma FillStart(cb: ControlBlock)
    requires cb.BuffersOk() && cb.state.AdvMode? && !cb.eventHandler && cb.primary.Buf? && cb.samplesConverted == 0
    ensures FilledTo(cb, 0, cb) && !IsFull(cb, 0)
    ensures Chunks(cb.primary, cb.channelsActivatedCount, 0) == []
    ensures Slices(cb.primary, cb.channelsActivatedCount, 0) == [] && cb.channelsActivatedCount > 0
  {
  }

  /** The next chunk fits, and the one that fills the buffer ends exactly at its length. */
  lemma FillStep(cb: ControlBlock, k: nat, now: ControlBlock)
    requires cb.samplesConverted == 0 && cb.primary.Buf? && FilledTo(cb, k, now) && !IsFull(cb, k)
    requires now.BuffersOk() && now.state.AdvMode? && !now.eventHandler
    ensures FilledTo(cb, k + 1, AfterChunk(now))
    ensures AfterChunk(now).samplesConverted == 0 <==> IsFull(cb, k + 1)
    ensures FillLevel(cb, k) < FillLevel(cb, k + 1) <= cb.primary.length
    ensures var n := cb.channelsActivatedCount;
            && Chunks(cb.primary, n, k + 1) == Chunks(cb.primary, n, k) + [ChunkNow(now)]
            && Slices(cb.primary, n, k + 1)
               == Slices(cb.primary, n, k) + [Buf(now.primary.addr + now.samplesConverted, n)]
  {
    var n := cb.channelsActivatedCount;
    assert (k + 1) * n == k * n + n;
    MultiplesStep(now.samplesConverted, now.primary.length, n);
  }

  /** Asking for an abort changes nothing until STOPPED arrives. */
  lemma AbortStep(cb: ControlBlock, hw: Registers, log: seq<Entry>, site: Site)
    requires Inv(cb, hw, log, site) && !cb.state.Calibration?
    ensures Inv(cb, hw.(stopTasks := hw.stopTasks + 1), log + [AbortCalled], site)
  {
    Parts(cb, hw, log, site);
    Parts(cb, hw.(stopTasks := hw.stopTasks + 1), log + [AbortCalled], site);
    ReplaySnoc(log, AbortCalled);
  }

  lemma DiscardStep(cb: ControlBlock, hw: Registers, log: seq<Entry>, site: Site)
    requires Inv(cb, hw, log, site) && !cb.eventHandler && !cb.state.Calibration?
    ensures Inv(cb.(primary := Null, secondary := Null, samplesConverted := 0), hw, log + [Discarded], site)
  {
    Parts(cb, hw, log, site);
    var c1 := cb.(primary := Null, secondary := Null, samplesConverted := 0);
    Parts(cb.(primary := Null, secondary := Null, samplesConverted := 0), hw, log + [Discarded], site);
    ReplaySnoc(log, Discarded);
    if cb.channelsActivatedCount != 0 { assert 0 % cb.channelsActivatedCount == 0; }
    assert c1.Outstanding(site) == [];
  }

  // ---------- limits and calibration ----------

  function WithLimits(cb: ControlBlock, channel: nat, lowOff: bool, highOff: bool): ControlBlock {
    cb.(limitsLow := if lowOff then cb.limitsLow - {channel} else cb.limitsLow + {channel},
        limitsHigh := if highOff then cb.limitsHigh - {channel} else cb.limitsHigh + {channel})
  }

  lemma LimitsStep(cb: ControlBlock, hw: Registers, log: seq<Entry>, site: Site,
                   channel: nat, lowOff: bool, highOff: bool)
    requires Inv(cb, hw, log, site) && cb.eventHandler && !cb.state.Calibration?
    requires channel in cb.channelsActivated
    ensures var c1 := WithLimits(cb, channel, lowOff, highOff);
            Inv(c1, hw.(inten := ModeInts(c1)), log, site)
  {
    Parts(cb, hw, log, site);
    var c1 := WithLimits(cb, channel, lowOff, highOff);
    Parts(c1, hw.(inten := ModeInts(c1)), log, site);
    assert c1.Outstanding(site) == cb.Outstanding(site);
  }

  /** The interrupts of a non-blocking calibration. */
  function CalibrationInts(cb: ControlBlock): Ints {
    Ints(true, true, true, true, cb.limitsLow - {0}, cb.limitsHigh - {0})
  }

  lemma CalibrateStep(cb: ControlBlock, hw: Registers, log: seq<Entry>, site: Site)
    requires Inv(cb, hw, log, site)
    requires cb.state.Idle? || cb.state.SimpleMode? || cb.state.AdvMode?
    ensures Inv(cb.(statePrev := cb.state, state := Calibration, calibEventHandler := true),
                hw.(enabled := true, inten := CalibrationInts(cb)),
                log + [CalibStarted(cb.Snap(hw.inten))], site)
  {
    Parts(cb, hw, log, site);
    var c1 := cb.(statePrev := cb.state, state := Calibration, calibEventHandler := true);
    Parts(c1, hw.(enabled := true, inten := CalibrationInts(cb)), log + [CalibStarted(cb.Snap(hw.inten))], site);
    ReplaySnoc(log, CalibStarted(cb.Snap(hw.inten)));
    assert c1.Outstanding(site) == cb.Outstanding(site);
    assert ModeInts(c1) == hw.inten;
  }

  /** CALIBRATEDONE is logged once: its interrupt is off afterwards. */
  lemma CalibratedStep(cb: ControlBlock, hw: Registers, log: seq<Entry>, site: Site)
    requires Inv(cb, hw, log, site) && cb.state.Calibration? && hw.inten.calibrated
    ensures Inv(cb, hw.(inten := hw.inten.(calibrated := false)).WithBuffer(CALIB_BUFFER, true),
                log + [Calibrated], site)
  {
    var h1 := hw.(inten := hw.inten.(calibrated := false)).WithBuffer(CALIB_BUFFER, true);
    Parts(cb, hw, log, site);
    Parts(cb, h1, log + [Calibrated], site);
    ReplaySnoc(log, Calibrated);
  }

  lemma RestoredInts(cb: ControlBlock, hw: Registers, mask: Ints)
    requires cb.ChannelsOk() && InterruptsOk(cb, hw) && cb.state.Calibration?
    requires mask.started == mask.stopped == mask.end == cb.eventHandler && !mask.calibrated
    requires mask.low == if 0 in cb.limitsLow then hw.inten.low + {0} else hw.inten.low
    requires mask.high == if 0 in cb.limitsHigh then hw.inten.high + {0} else hw.inten.high
    ensures mask == ModeInts(cb)
  {
    assert mask.low == cb.limitsLow && mask.high == cb.limitsHigh;
  }

  lemma RestoreStep(cb: ControlBlock, hw: Registers, log: seq<Entry>, site: Site, e: Entry)
    requires Inv(cb, hw, log, site) && cb.state.Calibration?
    requires var c1 := cb.(state := cb.statePrev);
             e == if hw.inten.calibrated then CalibAborted(c1.Snap(ModeInts(c1))) else CalibDone(c1.Snap(ModeInts(c1)))
    ensures var c1 := cb.(state := cb.statePrev);
            Inv(c1, hw.(enabled := false, inten := ModeInts(c1)), log + [e], site)
  {
    Parts(cb, hw, log, site);
    var c1 := cb.(state := cb.statePrev);
    Parts(c1, hw.(enabled := false, inten := ModeInts(c1)), log + [e], site);
    ReplaySnoc(log, e);
    assert c1.Snap(ModeInts(c1)) == cb.Snap(ModeInts(cb));
    assert c1.Outstanding(site) == cb.Outstanding(site);
  }

  /** A blocking calibration leaves everything but the scratch fields as it was. */
  lemma BlockingCalibrateStep(cb: ControlBlock, hw: Registers, log: seq<Entry>, site: Site, h1: Registers)
    requires Inv(cb, hw, log, site)
    requires cb.state.Idle? || cb.state.SimpleMode? || cb.state.AdvMode?
    requires h1.inten == hw.inten && !h1.enabled
    ensures Inv(cb.(statePrev := cb.state, calibEventHandler := false), h1, log, site)
  {
    Parts(cb, hw, log, site);
    var c1 := cb.(statePrev := cb.state, calibEventHandler := false);
    Parts(cb.(statePrev := cb.state, calibEventHandler := false), h1, log, site);
    assert c1.Outstanding(site) == cb.Outstanding(site);
  }

  // ---------- event handlers ----------

  lemma ReadyStep(cb: ControlBlock, hw: Registers, log: seq<Entry>)
    requires Inv(cb, hw, log, Outside) && cb.state.AdvModeSample?
    ensures Inv(cb, hw, log + [Ready], InReady)
  {
    Parts(cb, hw, log, Outside);
    Parts(cb, hw, log + [Ready], InReady);
    ReplaySnoc(log, Ready);
    assert cb.Outstanding(InReady) == cb.Outstanding(Outside);
  }

  lemma StartedStep(cb: ControlBlock, hw: Registers, log: seq<Entry>, h1: Registers)
    requires Inv(cb, hw, log, InReady)
    requires h1.inten == hw.inten && h1.enabled == hw.enabled
    requires cb.secondary.Buf? ==> h1.programmed == cb.secondary
    ensures Inv(cb.(state := AdvModeSampleStarted), h1, log, Outside)
  {
    Parts(cb, hw, log, InReady);
    Parts(cb.(state := AdvModeSampleStarted), h1, log, Outside);
    assert cb.(state := AdvModeSampleStarted).Outstanding(Outside) == cb.Outstanding(InReady);
  }

  lemma BufReqStep(cb: ControlBlock, hw: Registers, log: seq<Entry>)
    requires Inv(cb, hw, log, Outside) && cb.state.AdvModeSampleStarted? && cb.secondary.Null?
    ensures Inv(cb, hw, log + [BufReq], Outside)
  {
    Parts(cb, hw, log, Outside);
    Parts(cb, hw, log + [BufReq], Outside);
    ReplaySnoc(log, BufReq);
  }

  lemma SimpleDoneStep(cb: ControlBlock, hw: Registers, log: seq<Entry>)
    requires Inv(cb, hw, log, Outside) && cb.state.SimpleModeSample?
    ensures Inv(cb.(state := SimpleMode), hw.(enabled := false), log + [SimpleDone(cb.primary)], Outside)
  {
    Parts(cb, hw, log, Outside);
    Parts(cb.(state := SimpleMode), hw.(enabled := false), log + [SimpleDone(cb.primary)], Outside);
    ReplaySnoc(log, SimpleDone(cb.primary));
  }

  lemma FirstPending(cb: ControlBlock)
    requires cb.state.AdvModeSampleStarted? && cb.primary.Buf?
    ensures var q := cb.Outstanding(Outside);
            q != [] && q[0] == cb.primary && q[1..] == cb.Outstanding(InDone)
  {
  }

  lemma DoneStep(cb: ControlBlock, hw: Registers, log: seq<Entry>, h1: Registers)
    requires Inv(cb, hw, log, Outside) && cb.state.AdvModeSampleStarted?
    requires h1 == hw.(latched := h1.latched, started := h1.started)
    ensures Inv(cb, h1, log + [Done(cb.primary)], InDone)
  {
    Parts(cb, hw, log, Outside);
    Parts(cb, h1, log + [Done(cb.primary)], InDone);
    ReplaySnoc(log, Done(cb.primary));
    FirstPending(cb);
  }

  lemma PromoteStep(cb: ControlBlock, hw: Registers, log: seq<Entry>)
    requires Inv(cb, hw, log, InDone)
    ensures cb.secondary.Buf? ==> Inv(cb.(primary := cb.secondary, secondary := Null), hw, log, Outside)
    ensures cb.secondary.Null? ==>
      Inv(cb.(primary := Null, secondary := Null, state := AdvMode), hw.(enabled := false),
          log + [Finished], Outside)
  {
    Parts(cb, hw, log, InDone);
    Parts(cb.(primary := cb.secondary, secondary := Null), hw, log, Outside);
    Parts(cb.(primary := Null, secondary := Null, state := AdvMode), hw.(enabled := false), log + [Finished], Outside);
    ReplaySnoc(log, Finished);
    if cb.secondary.Buf? {
      assert cb.(primary := cb.secondary, secondary := Null).Outstanding(Outside) == cb.Outstanding(InDone);
    } else {
      assert cb.(primary := Null, secondary := Null, state := AdvMode).Outstanding(Outside) == [];
    }
  }

  lemma LimitStep(cb: ControlBlock, hw: Registers, log: seq<Entry>, e: Entry)
    requires Inv(cb, hw, log, Outside) && e.Limit?
    ensures Inv(cb, hw, log + [e], Outside)
  {
    Parts(cb, hw, log, Outside);
    Parts(cb, hw, log + [e], Outside);
    ReplaySnoc(log, e);
  }

  /** STOPPED cuts the current buffer to what was sampled and drops the next one. */
  function StoppedBlock(cb: ControlBlock, amount: nat): ControlBlock {
    cb.(primary := if cb.primary.Buf? then cb.primary.(length := amount) else Null, secondary := Null)
  }

  lemma StoppedQueue(cb: ControlBlock, amount: nat)
    requires cb.BuffersOk()
    ensures var q, c1 := cb.Outstanding(Outside), StoppedBlock(cb, amount);
      c1.Outstanding(Outside) == if q == [] || q[0].Null? then [] else [q[0].(length := amount)]
  {
    var c1 := StoppedBlock(cb, amount);
    if cb.Advanced() && cb.primary.Buf? {
      assert cb.Outstanding(Outside)[0] == cb.primary;
      assert c1.Outstanding(Outside) == [c1.primary];
    } else {
      assert c1.Outstanding(Outside) == [];
    }
  }

  lemma StoppedStep(cb: ControlBlock, hw: Registers, log: seq<Entry>, amount: nat)
    requires Inv(cb, hw, log, Outside) && hw.inten != NO_INTS && !cb.state.Calibration?
    ensures Inv(StoppedBlock(cb, amount), hw, log + [Stopped(amount)], Outside)
  {
    Parts(cb, hw, log, Outside);
    Parts(StoppedBlock(cb, amount), hw, log + [Stopped(amount)], Outside);
    ReplaySnoc(log, Stopped(amount));
    StoppedQueue(cb, amount);
    assert cb.eventHandler;
  }
}
