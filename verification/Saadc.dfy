/** The SAADC driver: API calls, event handlers and the interrupt handler. */
module Saadc {
  import opened SaadcHistory
  import opened SaadcState
  import opened SaadcSteps
  import opened SaadcCalls
  import opened SaadcEvents
  import opened SaadcTraces

  /** NRF_CTZ. */
  method LowestBit(mask: set<nat>) returns (bit: nat)
    requires mask != {}
    ensures bit in mask && forall b | b in mask :: bit <= b
  {
    var b: nat :| b in mask;
    bit := b;
    var left := mask - {b};
    while left != {}
      invariant bit in mask && left <= mask
      invariant forall c | c in mask && c !in left :: bit <= c
      decreases left
    {
      var c: nat :| c in left;
      if c < bit { bit := c; }
      left := left - {c};
    }
  }

  // ---------- whole runs ----------

  /** Accepted since this mode set: what was reported, then what is pending. */
  ghost predicate FifoSince(cb: ControlBlock, log: seq<Entry>, k: nat)
    requires k < |log|
  {
    log[k].ModeSet? && Uncut(log[k+1..]) ==>
      Accepts(log[k+1..]) == Dones(log[k+1..]) + cb.Outstanding(Outside)
  }

  /** Since this abort was called, without a new buffer, at most what was pending then was reported. */
  ghost predicate AbortBound(log: seq<Entry>, k: nat)
    requires k < |log|
  {
    log[k].AbortCalled? && AddsNothing(log[k+1..]) ==>
      Replay(log[..k]).Some? && |Dones(log[k+1..])| <= |Replay(log[..k]).value.queue|
  }

  lemma AbortBounded(log: seq<Entry>, k: nat)
    requires Replay(log).Some? && k < |log|
    ensures AbortBound(log, k)
  {
    if log[k].AbortCalled? && AddsNothing(log[k+1..]) {
      assert log == log[..k] + [AbortCalled] + log[k+1..];
      DonesAfterAbort(log[..k], log[k+1..]);
    }
  }

  /** The visible trace so far: complete runs, then an unfinished one in the phase the driver is in. */
  ghost predicate TraceIs(cb: ControlBlock, log: seq<Entry>) {
    exists runs, rest :: Decomposes(Visible(log), runs, rest, cb.PhaseNow(Outside))
  }

  /** Outside a calibration the interrupts the mode calls for, a pending buffer during a run, and the
      hardware programmed with the next buffer once the run is started. */
  ghost predicate InStep(cb: ControlBlock, hw: Registers) {
    && (!cb.state.Calibration? ==>
          hw.inten == Ints(cb.eventHandler, cb.eventHandler, cb.eventHandler, false, cb.limitsLow, cb.limitsHigh))
    && (cb.state.AdvModeSample? || cb.state.AdvModeSampleStarted? ==> cb.Outstanding(Outside) != [])
    && (cb.state.AdvModeSampleStarted? && cb.secondary.Buf? ==> hw.programmed == cb.secondary)
  }

  /** What holds between any two events of a run. */
  ghost predicate RunPromise(cb: ControlBlock, hw: Registers, log: seq<Entry>) {
    && TraceIs(cb, log) && Paired(CalibEvents(log)) && InStep(cb, hw) && QueueIs(cb, log)
    && (forall k | 0 <= k < |log| :: FifoSince(cb, log, k))
    && (forall k | 0 <= k < |log| :: AbortBound(log, k))
  }

  lemma TraceNow(cb: ControlBlock, hw: Registers, log: seq<Entry>)
    requires Inv(cb, hw, log, Outside)
    ensures TraceIs(cb, log) && Paired(CalibEvents(log))
  {
    Parts(cb, hw, log, Outside);
    TraceShape(log);
    CalibrationsPaired(log);
  }

  lemma InStepNow(cb: ControlBlock, hw: Registers, log: seq<Entry>)
    requires Inv(cb, hw, log, Outside)
    ensures InStep(cb, hw) && Replay(log).Some?
  {
    Parts(cb, hw, log, Outside);
  }

  lemma FifoNow(cb: ControlBlock, hw: Registers, log: seq<Entry>, k: nat)
    requires Inv(cb, hw, log, Outside) && k < |log|
    ensures FifoSince(cb, log, k)
  {
    Parts(cb, hw, log, Outside);
    if log[k].ModeSet? && Uncut(log[k+1..]) {
      assert log == log[..k] + [ModeSet] + log[k+1..];
      FifoSinceModeSet(log[..k], log[k+1..]);
    }
  }

  /** The pending queue is the primary buffer and then the secondary one. */
  ghost predicate QueueIs(cb: ControlBlock, log: seq<Entry>) {
    cb.state.AdvMode? || cb.state.AdvModeSample? || cb.state.AdvModeSampleStarted? ==>
      Replay(log).Some? && Replay(log).value.queue
        == if cb.secondary.Buf? then [cb.primary, cb.secondary] else if cb.primary.Buf? then [cb.primary] else []
  }

  lemma QueueNow(cb: ControlBlock, hw: Registers, log: seq<Entry>)
    requires Inv(cb, hw, log, Outside)
    ensures QueueIs(cb, log)
  {
    Parts(cb, hw, log, Outside);
  }

  lemma WholeRun(cb: ControlBlock, hw: Registers, log: seq<Entry>)
    requires Inv(cb, hw, log, Outside)
    ensures RunPromise(cb, hw, log)
  {
    TraceNow(cb, hw, log);
    InStepNow(cb, hw, log);
    QueueNow(cb, hw, log);
    forall k | 0 <= k < |log| ensures FifoSince(cb, log, k) {
      FifoNow(cb, hw, log, k);
    }
    forall k | 0 <= k < |log| ensures AbortBound(log, k) {
      AbortBounded(log, k);
    }
  }

  class Driver {
    var cb: ControlBlock
    var hw: Registers
    ghost var log: seq<Entry>
    ghost var site: Site

    ghost predicate Valid()
      reads this
    { Inv(cb, hw, log, site) }

    /** The state nrfx_saadc_init leaves after reset. */
    constructor ()
      ensures Valid() && cb.state.Idle? && log == [] && site.Outside?
      ensures cb.channelsConfigured == {} && hw == Registers(NO_INTS, false, false, 1, Null, Null, 0, 0, [])
    {
      cb := ControlBlock(false, false, Null, Null, 0, Idle, Idle, {}, {}, 0, {}, {}, false, false);
      hw := Registers(NO_INTS, false, false, 1, Null, Null, 0, 0, []);
      log, site := [], Outside;
    }

    predicate BusyCheck()
      reads this
    { cb.Busy() }

    // ---------- channels ----------

    method DeconfigLoop(mask: set<nat>)
      modifies `cb
      ensures cb == old(cb).(channelsConfigured := old(cb.channelsConfigured) - mask)
    {
      var left := mask;
      while left != {}
        invariant left <= mask
        invariant cb == old(cb).(channelsConfigured := old(cb.channelsConfigured) - (mask - left))
        decreases left
      {
        var channel := LowestBit(left);
        left := left - {channel};
        cb := cb.(channelsConfigured := cb.channelsConfigured - {channel});
      }
    }

    method ChannelsConfig(list: seq<nat>) returns (r: Err)
      requires Valid() && Known(list)
      modifies `cb
      ensures Valid()
      ensures r == if old(BusyCheck()) then Busy else if Distinct(list) then Success else InvalidParam
      ensures cb == if r.Busy? then old(cb) else old(cb).(channelsConfigured := Configured(list))
    {
      if BusyCheck() { return Busy; }
      Parts(cb, hw, log, site);
      DeconfigLoop(CHANNELS);
      ghost var i;
      r, i := ConfigLoop(list);
      ConfiguredUpTo(list, i);
      ChannelsStep(old(cb), hw, log, site, cb.channelsConfigured);
    }

    /** The loop of nrfx_saadc_channels_config, which stops at a channel named before. */
    method ConfigLoop(list: seq<nat>) returns (r: Err, ghost n: nat)
      requires cb.channelsConfigured == {}
      modifies `cb
      ensures n <= |list| && Distinct(list[..n]) && (n < |list| ==> list[n] in list[..n])
      ensures r == if n == |list| then Success else InvalidParam
      ensures cb == old(cb).(channelsConfigured := set c | c in list[..n])
    {
      var i := 0;
      n := 0;
      while i < |list|
        invariant i == n <= |list| && Distinct(list[..n])
        invariant cb == old(cb).(channelsConfigured := set c | c in list[..n])
      {
        if list[i] in cb.channelsConfigured {
          return InvalidParam, n;
        }
        cb := cb.(channelsConfigured := cb.channelsConfigured + {list[i]});
        assert list[..i+1] == list[..i] + [list[i]];
        i, n := i + 1, n + 1;
      }
      r := Success;
    }

    method ChannelConfig(channel: nat) returns (r: Err)
      requires Valid() && channel in CHANNELS
      modifies `cb
      ensures Valid()
      ensures r == if old(BusyCheck()) then Busy else Success
      ensures cb == if r.Busy? then old(cb)
                    else old(cb).(channelsConfigured := old(cb.channelsConfigured) + {channel})
    {
      Parts(cb, hw, log, site);
      if BusyCheck() { return Busy; }
      cb := cb.(channelsConfigured := cb.channelsConfigured + {channel});
      ChannelsStep(old(cb), hw, log, site, cb.channelsConfigured);
      return Success;
    }

    method ChannelsDeconfig(mask: set<nat>) returns (r: Err)
      requires Valid() && mask <= CHANNELS
      modifies `cb
      ensures Valid()
      ensures r == if old(BusyCheck()) then Busy else Success
      ensures cb == if r.Busy? then old(cb)
                    else old(cb).(channelsConfigured := old(cb.channelsConfigured) - mask)
    {
      Parts(cb, hw, log, site);
      if BusyCheck() { return Busy; }
      DeconfigLoop(mask);
      ChannelsStep(old(cb), hw, log, site, cb.channelsConfigured);
      return Success;
    }

    method ChannelCountGet(mask: set<nat>) returns (r: Err, count: nat)
      requires mask <= CHANNELS
      ensures r == if mask <= cb.channelsConfigured then Success else InvalidParam
      ensures r.Success? ==> count == |mask|
    {
      count := 0;
      ghost var seen: set<nat> := {};
      for ch := 0 to 8
        invariant seen == set c | c in mask && c < ch
        invariant seen <= cb.channelsConfigured
        invariant count == |seen|
      {
        if ch in mask {
          if ch !in cb.channelsConfigured { return InvalidParam, 0; }
          count := count + 1;
          seen := seen + {ch};
        }
      }
      assert seen == mask;
      return Success, count;
    }

    // ---------- modes ----------

    method GenericModeSet(mask: set<nat>, oversample: Positive, handler: bool)
      modifies `cb, `hw
      ensures cb == old(cb).(limitsLow := {}, limitsHigh := {}, primary := Null, secondary := Null,
                             eventHandler := handler, channelsActivated := mask, samplesConverted := 0)
      ensures hw == old(hw).(oversample := oversample,
                             inten := if handler then Ints(true, true, true, false, {}, {}) else NO_INTS)
    {
      cb := cb.(limitsLow := {});
      cb := cb.(limitsHigh := {});
      cb := cb.(primary := Null);
      cb := cb.(secondary := Null);
      cb := cb.(eventHandler := handler);
      cb := cb.(channelsActivated := mask);
      cb := cb.(samplesConverted := 0);
      hw := hw.(oversample := oversample);
      if handler {
        hw := hw.(inten := Ints(true, true, true, false, {}, {}));
      } else {
        hw := hw.(inten := NO_INTS);
      }
    }

    method SimpleModeSet(mask: set<nat>, oversample: Positive, handler: bool) returns (r: Err)
      requires Valid() && mask != {} && mask <= CHANNELS
      modifies `cb, `hw, `log
      ensures Valid()
      ensures r == if old(BusyCheck()) then Busy
                   else if !(mask <= old(cb.channelsConfigured)) then InvalidParam else Success
      ensures !r.Success? ==> unchanged(this)
      ensures r.Success? ==>
        && log == old(log) + [ModeSet]
        && cb == old(cb).(state := SimpleMode, eventHandler := handler, primary := Null, secondary := Null,
                          channelsActivated := mask, channelsActivatedCount := |mask|,
                          limitsLow := {}, limitsHigh := {}, samplesConverted := 0)
        && hw == old(hw).(inten := Ints(handler, handler, handler, false, {}, {}), oversample := oversample)
    {
      Parts(cb, hw, log, site);
      if BusyCheck() { return Busy; }
      var count;
      r, count := ChannelCountGet(mask);
      if r != Success { return; }
      GenericModeSet(mask, oversample, handler);
      cb := cb.(channelsActivatedCount := count);
      cb := cb.(state := SimpleMode);
      log := log + [ModeSet];
      ModeSetStep(old(cb), old(hw), old(log), SimpleMode, mask, handler,
                  cb.startOnEnd, cb.oversamplingWithoutBurst, hw.continuous, oversample);
    }

    static method ConfigCheck(config: AdvConfig, count: nat, handler: bool) returns (r: Err, withoutBurst: bool)
      ensures r == if config.timer != 0 && (count > 1 || !handler) then NotSupported
                   else if config.oversample > 1 && !config.burst && count > 1 then NotSupported
                   else Success
      ensures r.Success? ==> withoutBurst == (config.oversample > 1 && !config.burst)
    {
      withoutBurst := false;
      if config.timer != 0 && (count > 1 || !handler) { return NotSupported, false; }
      if config.oversample > 1 && !config.burst {
        if count > 1 { return NotSupported, false; }
        withoutBurst := true;
      }
      r := Success;
    }

    method AdvancedModeSet(mask: set<nat>, config: AdvConfig, handler: bool) returns (r: Err)
      requires Valid() && mask != {} && mask <= CHANNELS
      modifies `cb, `hw, `log
      ensures Valid()
      ensures r == if old(BusyCheck()) then Busy
                   else if !(mask <= old(cb.channelsConfigured)) then InvalidParam
                   else if config.timer != 0 && (|mask| > 1 || !handler) then NotSupported
                   else if config.oversample > 1 && !config.burst && |mask| > 1 then NotSupported
                   else Success
      ensures !r.Success? ==> unchanged(this)
      ensures r.Success? ==>
        && log == old(log) + [ModeSet]
        && cb == old(cb).(state := AdvMode, eventHandler := handler, primary := Null, secondary := Null,
                          channelsActivated := mask, channelsActivatedCount := |mask|,
                          limitsLow := {}, limitsHigh := {}, samplesConverted := 0,
                          startOnEnd := config.startOnEnd,
                          oversamplingWithoutBurst := config.oversample > 1 && !config.burst)
        && hw == old(hw).(inten := Ints(handler, handler, handler, false, {}, {}),
                          oversample := config.oversample, continuous := config.timer != 0)
    {
      Parts(cb, hw, log, site);
      if BusyCheck() { return Busy; }
      var count;
      r, count := ChannelCountGet(mask);
      if r != Success { return; }
      var withoutBurst;
      r, withoutBurst := ConfigCheck(config, count, handler);
      if r != Success { return; }
      GenericModeSet(mask, config.oversample, handler);
      hw := hw.(continuous := config.timer != 0);
      cb := cb.(channelsActivatedCount := count);
      cb := cb.(startOnEnd := config.startOnEnd);
      cb := cb.(oversamplingWithoutBurst := withoutBurst);
      cb := cb.(state := AdvMode);
      log := log + [ModeSet];
      ModeSetStep(old(cb), old(hw), old(log), AdvMode, mask, handler,
                  config.startOnEnd, withoutBurst, hw.continuous, config.oversample);
    }

    // ---------- buffers and triggers ----------

    /** nrfy_saadc_buffer_set: RESULT.PTR and RESULT.MAXCNT, then START if asked. */
    method HwBufferSet(b: Buffer, start: bool)
      modifies `hw
      ensures hw == old(hw.WithBuffer(b, start))
    {
      hw := hw.(programmed := b);
      if start {
        hw := hw.(latched := hw.programmed);
        hw := hw.(started := hw.started + [hw.latched]);
      }
    }

    method BufferSet(addr: int, size: nat, inRam: bool) returns (r: Err)
      requires Valid()
      requires cb.secondary.Null? && inRam ==> cb.channelsActivatedCount != 0
      modifies `cb, `hw, `log
      ensures Valid()
      ensures !r.Success? ==> unchanged(this)
      ensures r == if old(cb.secondary).Buf? then Already
                   else if !inRam then InvalidAddr
                   else if size % old(cb.channelsActivatedCount) != 0 || size > MAX_COUNT || size == 0
                     || (old(cb.state).SimpleMode? && size != old(cb.channelsActivatedCount)) then InvalidLength
                   else if old(cb.state).Idle? || old(cb.state).SimpleModeSample? || old(cb.state).Calibration?
                     then InvalidState
                   else Success
      ensures r.Success? ==>
        var b := Buf(addr, size);
        if cb.state.SimpleMode? then cb == old(cb).(primary := b) && hw == old(hw) && log == old(log)
        else
          && log == old(log) + [Accepted(b)]
          && cb == (if old(cb.primary).Null? then old(cb).(primary := b) else old(cb).(secondary := b))
          && hw == (if cb.state.AdvModeSampleStarted? then old(hw).WithBuffer(b, false) else old(hw))
    {
      Parts(cb, hw, log, site);
      if cb.secondary.Buf? { return Already; }
      if !inRam { return InvalidAddr; }
      if size % cb.channelsActivatedCount != 0 || size > MAX_COUNT || size == 0 { return InvalidLength; }
      var buffer := Buf(addr, size);
      match cb.state {
        case SimpleMode =>
          if cb.channelsActivatedCount != size { return InvalidLength; }
          cb := cb.(primary := buffer);
        case AdvModeSampleStarted =>
          HwBufferSet(buffer, false);
          Enqueue(buffer);
        case AdvMode =>
          Enqueue(buffer);
        case AdvModeSample =>
          Enqueue(buffer);
        case _ =>
          return InvalidState;
      }
      if !cb.state.SimpleMode? {
        AcceptStep(old(cb), old(hw), old(log), site, buffer);
      }
      return Success;
    }

    method Enqueue(buffer: Buffer)
      modifies `cb, `log
      ensures log == old(log) + [Accepted(buffer)]
      ensures cb == if old(cb.primary).Buf? then old(cb).(secondary := buffer) else old(cb).(primary := buffer)
    {
      if cb.primary.Buf? {
        cb := cb.(secondary := buffer);
      } else {
        cb := cb.(primary := buffer);
      }
      log := log + [Accepted(buffer)];
    }

    method ModeTrigger() returns (r: Err)
      requires Valid()
      modifies `cb, `hw, `log
      ensures Valid()
      ensures r.NoMem? <==> old(cb.primary).Null?
      ensures r.NoMem? || r.InvalidState? ==> unchanged(this)
      ensures Became(AfterTrigger(old(cb), old(hw)), old(log), cb, hw, log)
      ensures old(cb.primary).Buf? ==>
        match old(cb.state)
        case SimpleMode =>
          && r == Success && log == old(log)
          && hw.programmed == hw.latched == old(cb.primary) && hw.started == old(hw.started) + [old(cb.primary)]
          && (if cb.eventHandler
              then cb == old(cb).(state := SimpleModeSample) && hw.sampleTasks == old(hw.sampleTasks)
              else cb == old(cb) && hw.sampleTasks == old(hw.sampleTasks) + 1)
        case AdvMode =>
          if cb.eventHandler then
            && r == Success && log == old(log) + [Triggered]
            && cb == old(cb).(state := AdvModeSample)
            && hw == old(hw).WithBuffer(cb.primary, true).(enabled := true)
          else
            && r == (if cb.samplesConverted == 0 then Success else Busy)
            && log == old(log) + [Chunk(old(cb.primary), old(cb.samplesConverted), old(cb.channelsActivatedCount))]
            && cb == AfterChunk(old(cb))
            && hw.latched == Buf(old(cb.primary).addr + old(cb.samplesConverted), old(cb.channelsActivatedCount))
            && hw.started == old(hw.started) + [hw.latched]
            && hw.sampleTasks == old(hw.sampleTasks)
                                 + (if old(cb.oversamplingWithoutBurst) then old(hw.oversample) else 1)
        case _ => r == InvalidState
    {
      Parts(cb, hw, log, site);
      if cb.primary.Null? { return NoMem; }
      r := Success;
      match cb.state {
        case SimpleMode =>
          hw := hw.(enabled := true);
          if cb.eventHandler {
            cb := cb.(state := SimpleModeSample);
            HwBufferSet(cb.primary, true);
          } else {
            HwBufferSet(cb.primary, true);
            hw := hw.(sampleTasks := hw.sampleTasks + 1);
            hw := hw.(enabled := false);
          }
          SimpleTriggerStep(old(cb), old(hw), log, site, hw);
        case AdvMode =>
          if cb.eventHandler {
            hw := hw.(enabled := true);
            cb := cb.(state := AdvModeSample);
            HwBufferSet(cb.primary, true);
            log := log + [Triggered];
            TriggerStep(old(cb), old(hw), old(log), site);
          } else {
            r := TriggerChunk();
          }
        case _ =>
          r := InvalidState;
      }
    }

    /** Triggers SAMPLE until the hardware has taken one result from every active channel. */
    method SampleOnce()
      modifies `hw
      ensures hw == old(hw).(sampleTasks := old(hw.sampleTasks)
                                            + if cb.oversamplingWithoutBurst then old(hw.oversample) else 1)
    {
      if cb.oversamplingWithoutBurst {
        var samplesToTake: nat := hw.oversample;
        var idx: nat := 0;
        while idx < samplesToTake - 1
          invariant idx <= samplesToTake - 1
          invariant hw == old(hw).(sampleTasks := old(hw.sampleTasks) + idx)
        {
          hw := hw.(sampleTasks := hw.sampleTasks + 1);
          idx := idx + 1;
        }
      }
      hw := hw.(sampleTasks := hw.sampleTasks + 1);
    }

    method AdvanceProgress() returns (r: Err)
      requires cb.primary.Buf?
      modifies `cb
      ensures cb == AfterChunk(old(cb))
      ensures r == if old(cb.samplesConverted) + cb.channelsActivatedCount < old(cb.primary).length
                   then Busy else Success
    {
      cb := cb.(samplesConverted := cb.samplesConverted + cb.channelsActivatedCount);
      if cb.samplesConverted < cb.primary.length {
        return Busy;
      }
      cb := cb.(samplesConverted := 0);
      cb := cb.(primary := cb.secondary);
      cb := cb.(secondary := Null);
      return Success;
    }

    /** The blocking branch of an advanced trigger: one sample of every active channel. */
    method TriggerChunk() returns (r: Err)
      requires Valid() && cb.state.AdvMode? && !cb.eventHandler && cb.primary.Buf?
      modifies `cb, `hw, `log
      ensures Valid()
      ensures r == if cb.samplesConverted == 0 then Success else Busy
      ensures log == old(log) + [ChunkNow(old(cb))]
      ensures cb == AfterChunk(old(cb))
      ensures hw == ChunkTaken(old(cb), old(hw))
      ensures hw.latched == Buf(old(cb.primary).addr + old(cb.samplesConverted), old(cb.channelsActivatedCount))
      ensures hw.started == old(hw.started) + [hw.latched]
    {
      Parts(cb, hw, log, site);
      hw := hw.(enabled := true);
      var chunk := Buf(cb.primary.addr + cb.samplesConverted, cb.channelsActivatedCount);
      HwBufferSet(chunk, true);
      SampleOnce();
      r := AdvanceProgress();
      hw := hw.(enabled := false);
      log := log + [ChunkNow(old(cb))];
      ChunkStep(old(cb), old(hw), old(log), site, hw);
    }

    method Abort()
      requires Valid()
      modifies `cb, `hw, `log
      ensures Valid()
      ensures if old(HandlerWaits(cb))
              then (cb == old(cb) && hw == old(hw).(stopTasks := old(hw.stopTasks) + 1)
                    && log == old(log) + if cb.state.Calibration? then [] else [AbortCalled])
              else (hw == old(hw) && log == old(log) + [Discarded]
                    && cb == old(cb).(primary := Null, secondary := Null, samplesConverted := 0))
    {
      Parts(cb, hw, log, site);
      if (if cb.state.Calibration? then cb.calibEventHandler else cb.eventHandler) {
        hw := hw.(stopTasks := hw.stopTasks + 1);
        if !cb.state.Calibration? {
          log := log + [AbortCalled];
          AbortStep(cb, old(hw), old(log), site);
        }
      } else {
        cb := cb.(primary := Null);
        cb := cb.(secondary := Null);
        cb := cb.(samplesConverted := 0);
        log := log + [Discarded];
        DiscardStep(old(cb), hw, old(log), site);
      }
    }

    method LimitsSet(channel: nat, low: int, high: int) returns (r: Err)
      requires Valid() && channel < 8 && INT16_MIN <= low <= high <= INT16_MAX
      modifies `cb, `hw
      ensures Valid()
      ensures r == if !cb.eventHandler then Forbidden
                   else if cb.state.Idle? || cb.state.Calibration? then InvalidState
                   else if channel !in cb.channelsActivated then InvalidParam else Success
      ensures !r.Success? ==> unchanged(this)
      ensures r.Success? ==>
        && cb == WithLimits(old(cb), channel, low == INT16_MIN, high == INT16_MAX)
        && hw == old(hw).(inten := ModeInts(cb))
      ensures r.Success? ==>
        && (channel in cb.limitsLow <==> low != INT16_MIN) && (channel in cb.limitsHigh <==> high != INT16_MAX)
        && cb.limitsLow - {channel} == old(cb.limitsLow) - {channel}
        && cb.limitsHigh - {channel} == old(cb.limitsHigh) - {channel}
        && hw.inten == old(hw.inten).(low := cb.limitsLow, high := cb.limitsHigh)
    {
      Parts(cb, hw, log, site);
      if !cb.eventHandler { return Forbidden; }
      if cb.state.Idle? || cb.state.Calibration? { return InvalidState; }
      if channel !in cb.channelsActivated { return InvalidParam; }
      LimitsStore(channel, low == INT16_MIN, high == INT16_MAX);
      LimitsStep(old(cb), old(hw), log, site, channel, low == INT16_MIN, high == INT16_MAX);
      return Success;
    }

    /** The activated limits and their interrupts, changed together. */
    method LimitsStore(channel: nat, lowOff: bool, highOff: bool)
      modifies `cb, `hw
      ensures cb == WithLimits(old(cb), channel, lowOff, highOff)
      ensures hw.inten.low == if lowOff then old(hw.inten.low) - {channel} else old(hw.inten.low) + {channel}
      ensures hw.inten.high == if highOff then old(hw.inten.high) - {channel} else old(hw.inten.high) + {channel}
      ensures hw == old(hw).(inten := old(hw.inten).(low := hw.inten.low, high := hw.inten.high))
    {
      if lowOff {
        cb := cb.(limitsLow := cb.limitsLow - {channel});
        hw := hw.(inten := hw.inten.(low := hw.inten.low - {channel}));
      } else {
        cb := cb.(limitsLow := cb.limitsLow + {channel});
        hw := hw.(inten := hw.inten.(low := hw.inten.low + {channel}));
      }
      if highOff {
        cb := cb.(limitsHigh := cb.limitsHigh - {channel});
        hw := hw.(inten := hw.inten.(high := hw.inten.high - {channel}));
      } else {
        cb := cb.(limitsHigh := cb.limitsHigh + {channel});
        hw := hw.(inten := hw.inten.(high := hw.inten.high + {channel}));
      }
    }

    // ---------- calibration ----------

    method OffsetCalibrate(handler: bool) returns (r: Err)
      requires Valid()
      modifies `cb, `hw, `log
      ensures Valid()
      ensures r == if old(BusyCheck()) then Busy else Success
      ensures r.Busy? ==> unchanged(this)
      ensures r.Success? && !handler ==>
        && log == old(log)
        && cb == old(cb).(statePrev := old(cb.state), calibEventHandler := false)
        && hw == old(hw).WithBuffer(CALIB_BUFFER, true).(stopTasks := old(hw.stopTasks) + 1)
      ensures r.Success? && handler ==>
        && log == old(log) + [CalibStarted(old(cb.Snap(hw.inten)))]
        && cb == old(cb).(statePrev := old(cb.state), state := Calibration, calibEventHandler := true)
        && hw == old(hw).(enabled := true,
                          inten := Ints(true, true, true, true, cb.limitsLow - {0}, cb.limitsHigh - {0}))
    {
      if BusyCheck() { return Busy; }
      if handler {
        CalibrateNonBlocking();
      } else {
        CalibrateBlocking();
      }
      return Success;
    }

    method CalibrateNonBlocking()
      requires Valid() && !BusyCheck()
      modifies `cb, `hw, `log
      ensures Valid()
      ensures log == old(log) + [CalibStarted(old(cb.Snap(hw.inten)))]
      ensures cb == old(cb).(statePrev := old(cb.state), state := Calibration, calibEventHandler := true)
      ensures hw == old(hw).(enabled := true,
                             inten := Ints(true, true, true, true, cb.limitsLow - {0}, cb.limitsHigh - {0}))
    {
      Parts(cb, hw, log, site);
      cb := cb.(statePrev := cb.state);
      cb := cb.(state := Calibration);
      cb := cb.(calibEventHandler := true);
      hw := hw.(enabled := true);
      var intMask := hw.inten;
      hw := hw.(inten := NO_INTS);
      intMask := intMask.(low := intMask.low - {0}, high := intMask.high - {0});
      hw := hw.(inten := intMask.(started := true, stopped := true, end := true, calibrated := true));
      log := log + [CalibStarted(old(cb.Snap(hw.inten)))];
      CalibrateStep(old(cb), old(hw), old(log), site);
    }

    method CalibrateBlocking()
      requires Valid() && !BusyCheck()
      modifies `cb, `hw
      ensures Valid()
      ensures cb == old(cb).(statePrev := old(cb.state), calibEventHandler := false)
      ensures hw == old(hw).WithBuffer(CALIB_BUFFER, true).(stopTasks := old(hw.stopTasks) + 1)
    {
      Parts(cb, hw, log, site);
      cb := cb.(statePrev := cb.state);
      cb := cb.(state := Calibration);
      cb := cb.(calibEventHandler := false);
      hw := hw.(enabled := true);
      var intMask := hw.inten;
      hw := hw.(inten := NO_INTS);
      HwBufferSet(CALIB_BUFFER, true);
      hw := hw.(stopTasks := hw.stopTasks + 1);
      hw := hw.(enabled := false);
      cb := cb.(state := cb.statePrev);
      hw := hw.(inten := intMask);
      BlockingCalibrateStep(old(cb), old(hw), log, site, hw);
    }

    /** saadc_pre_calibration_state_restore: back to the exact state before the calibration. */
    method PreCalibrationStateRestore()
      requires Valid() && cb.state.Calibration?
      modifies `cb, `hw
      ensures cb == old(cb).(state := old(cb.statePrev))
      ensures hw == old(hw).(enabled := false, inten := ModeInts(cb))
      ensures !old(hw.inten).calibrated ==> Inv(cb, hw, log + [CalibDone(cb.Snap(hw.inten))], site)
      ensures old(hw.inten).calibrated ==> Inv(cb, hw, log + [CalibAborted(cb.Snap(hw.inten))], site)
    {
      Parts(cb, hw, log, site);
      hw := hw.(enabled := false);
      var intMask := hw.inten.(started := false, stopped := false, end := false, calibrated := false);
      cb := cb.(state := cb.statePrev);
      if cb.eventHandler {
        intMask := intMask.(started := true, stopped := true, end := true);
      }
      if 0 in cb.limitsLow {
        intMask := intMask.(low := intMask.low + {0});
      }
      if 0 in cb.limitsHigh {
        intMask := intMask.(high := intMask.high + {0});
      }
      hw := hw.(inten := intMask);
      RestoredInts(old(cb), old(hw), intMask);
      RestoreStep(old(cb), old(hw), log, site,
                  if old(hw.inten).calibrated then CalibAborted(cb.Snap(intMask)) else CalibDone(cb.Snap(intMask)));
    }

    // ---------- callbacks ----------

    /** One API call with any arguments. Calls the source leaves undefined are skipped: a mode
        set on no channels or on channels that do not exist, a channel number above 7, and a
        buffer before the first mode set, where line 480 divides by zero. */
    method Do(call: Call)
      requires Valid()
      modifies `cb, `hw, `log
      ensures Valid() && Became(Perform(call, old(cb), old(hw)), old(log), cb, hw, log)
    {
      var r;
      match call
      case CallBufferSet(addr, size, inRam) =>
        if cb.channelsActivatedCount != 0 || cb.secondary.Buf? || !inRam {
          r := BufferSet(addr, size, inRam);
        }
      case CallModeTrigger =>
        r := ModeTrigger();
      case CallAbort =>
        Abort();
      case CallOffsetCalibrate(handler) =>
        r := OffsetCalibrate(handler);
      case _ =>
        Configure(call);
    }

    method Configure(call: Call)
      requires Valid() && !call.CallBufferSet? && !call.CallModeTrigger?
      requires !call.CallAbort? && !call.CallOffsetCalibrate?
      modifies `cb, `hw, `log
      ensures Valid() && Became(Perform(call, old(cb), old(hw)), old(log), cb, hw, log)
    {
      var r;
      match call
      case CallLimitsSet(channel, low, high) =>
        if channel < 8 && INT16_MIN <= low <= high <= INT16_MAX {
          r := LimitsSet(channel, low, high);
        }
      case CallSimpleModeSet(mask, oversample, handler) =>
        if mask != {} && mask <= CHANNELS {
          r := SimpleModeSet(mask, oversample, handler);
        }
      case CallAdvancedModeSet(mask, config, handler) =>
        if mask != {} && mask <= CHANNELS {
          r := AdvancedModeSet(mask, config, handler);
        }
      case CallChannelsConfig(list) =>
        if forall c | c in list :: c in CHANNELS {
          r := ChannelsConfig(list);
        }
      case CallChannelConfig(channel) =>
        if channel in CHANNELS {
          r := ChannelConfig(channel);
        }
      case CallChannelsDeconfig(mask) =>
        if mask <= CHANNELS {
          r := ChannelsDeconfig(mask);
        }
    }

    /** What a user callback does: any calls, in order. */
    method Script(calls: seq<Call>)
      requires Valid()
      modifies `cb, `hw, `log
      ensures Valid() && Became(PerformAll(calls, old(cb), old(hw)), old(log), cb, hw, log)
    {
      for i := 0 to |calls|
        invariant Valid() && CallsMade(calls, i, old(cb), old(hw), old(log), cb, hw, log)
      {
        ghost var c, h, l := cb, hw, log;
        Do(calls[i]);
        CallMade(calls, i, old(cb), old(hw), old(log), c, h, l, cb, hw, log);
      }
      assert calls[..|calls|] == calls;
    }

    /** The driver calls the user's handler with event e. */
    method Invoke(e: Entry, handler: Handler)
      requires Inv(cb, hw, log + [e], site)
      modifies `cb, `hw, `log
      ensures Valid() && Became(Called(e, handler, old(cb), old(hw)), old(log), cb, hw, log)
    {
      log := log + [e];
      Script(handler(e));
    }

    // ---------- event handlers ----------

    /** See SaadcEvents.StartedFacts for what the user sees of it. */
    method StartedHandle(handler: Handler)
      requires Valid() && site.Outside?
      modifies this
      ensures Valid() && site.Outside?
      ensures Became(OnStarted(handler, old(cb), old(hw)), old(log), cb, hw, log)
    {
      match cb.state {
        case AdvModeSample =>
          FirstStarted(handler);
          BufferRequest(handler);
        case AdvModeSampleStarted =>
          BufferRequest(handler);
        case SimpleModeSample =>
          hw := hw.(sampleTasks := hw.sampleTasks + 1);
          TasksStep(cb, old(hw), log, site, hw);
        case Calibration =>
          hw := hw.(stopTasks := hw.stopTasks + 1);
          TasksStep(cb, old(hw), log, site, hw);
        case _ =>
      }
    }

    /** READY, and the switch to the started state. */
    method FirstStarted(handler: Handler)
      requires Valid() && site.Outside? && cb.state.AdvModeSample?
      modifies this
      ensures Valid() && site.Outside? && cb.state.AdvModeSampleStarted?
      ensures Became(FirstStart(handler, old(cb), old(hw)), old(log), cb, hw, log)
    {
      site := InReady;
      ReadyStep(cb, hw, log);
      Invoke(Ready, handler);
      ghost var c, h := cb, hw;
      if hw.continuous {
        hw := hw.(sampleTasks := hw.sampleTasks + 1);
      }
      cb := cb.(state := AdvModeSampleStarted);
      if cb.secondary.Buf? {
        HwBufferSet(cb.secondary, false);
      }
      site := Outside;
      StartedStep(c, h, log, hw);
    }

    method BufferRequest(handler: Handler)
      requires Valid() && site.Outside? && cb.state.AdvModeSampleStarted?
      modifies `cb, `hw, `log
      ensures Valid() && Became(Request(handler, old(cb), old(hw)), old(log), cb, hw, log)
    {
      if cb.secondary.Null? {
        BufReqStep(cb, hw, log);
        Invoke(BufReq, handler);
      }
    }

    /** See SaadcEvents.EndFacts for what the user sees of it. */
    method EndHandle(handler: Handler)
      requires Valid() && site.Outside? && (cb.state.Calibration? ==> !hw.inten.calibrated)
      modifies this
      ensures Valid() && site.Outside?
      ensures Became(OnEnd(handler, old(cb), old(hw)), old(log), cb, hw, log)
    {
      match cb.state {
        case SimpleModeSample =>
          var e := SimpleDone(cb.primary);
          hw := hw.(enabled := false);
          cb := cb.(state := SimpleMode);
          SimpleDoneStep(old(cb), old(hw), log);
          Invoke(e, handler);
        case AdvModeSampleStarted =>
          AdvancedEnd(handler);
        case Calibration =>
          PreCalibrationStateRestore();
          Invoke(CalibDone(cb.Snap(hw.inten)), handler);
        case _ =>
      }
    }

    method AdvancedEnd(handler: Handler)
      requires Valid() && site.Outside? && cb.state.AdvModeSampleStarted?
      modifies this
      ensures Valid() && site.Outside?
      ensures Became(RunEnd(handler, old(cb), old(hw)), old(log), cb, hw, log)
    {
      NotifyDone(handler);
      Promote(handler);
    }

    method NotifyDone(handler: Handler)
      requires Valid() && site.Outside? && cb.state.AdvModeSampleStarted?
      modifies this
      ensures Valid() && site.InDone?
      ensures Became(Reporting(handler, old(cb), old(hw)), old(log), cb, hw, log)
    {
      var e := Done(cb.primary);
      if cb.startOnEnd && cb.secondary.Buf? {
        hw := hw.(latched := hw.programmed);
        hw := hw.(started := hw.started + [hw.latched]);
      }
      site := InDone;
      DoneStep(cb, old(hw), log, hw);
      Invoke(e, handler);
    }

    /** The queue moves up; the run ends when it is empty. */
    method Promote(handler: Handler)
      requires Valid() && site.InDone?
      modifies this
      ensures Valid() && site.Outside?
      ensures Became(MoveUp(handler, old(cb), old(hw)), old(log), cb, hw, log)
    {
      PromoteStep(cb, hw, log);
      cb := cb.(primary := cb.secondary);
      cb := cb.(secondary := Null);
      site := Outside;
      if cb.primary.Null? {
        hw := hw.(enabled := false);
        cb := cb.(state := AdvMode);
        Invoke(Finished, handler);
      }
    }

    /** One callback per raised and enabled limit, lowest bit first. The result is false exactly
        when one of them is not reported, because a callback took the event handler away and the
        source would call a null pointer. */
    method LimitsHandle(raised: set<nat>, handler: Handler) returns (ok: bool)
      requires Valid() && site.Outside? && !cb.state.Calibration?
      modifies `cb, `hw, `log
      ensures Valid()
      ensures var r := AllLimits(raised, handler, old(cb), old(hw));
              ok == r.ok && Became(r.effect, old(log), cb, hw, log)
      ensures ok <==> Reported(raised * old(EnabledLimits(hw.inten)), old(log), log)
      ensures AllGenuine(log[|old(log)|..], raised, old(hw.inten))
      ensures ok <==> AllTold(log[|old(log)|..], raised, old(hw.inten))
      ensures !ok ==> !cb.eventHandler
      ensures old(cb.Sampling()) ==> ok
      ensures AllButLastKeep(0, raised * old(EnabledLimits(hw.inten)), handler) ==> ok
      ensures raised * old(EnabledLimits(hw.inten)) == {} ==> cb == old(cb) && hw == old(hw) && log == old(log)
    {
      Parts(cb, hw, log, site);
      var triggered := raised * EnabledLimits(hw.inten);
      LimitsFacts(triggered, handler, cb, hw);
      HonestLimits(raised, handler, cb, hw);
      if triggered == {} {
        assert Onward(0, triggered) == {};
        NoneLeft(0, triggered, handler, cb, hw);
      }
      ok := LimitsLoop(triggered, handler);
    }

    method LimitsLoop(triggered: set<nat>, handler: Handler) returns (ok: bool)
      requires Valid() && site.Outside? && forall b | b in triggered :: b < 16
      modifies `cb, `hw, `log
      ensures Valid()
      ensures var r := OnLimits(0, triggered, handler, old(cb), old(hw));
              ok == r.ok && Became(r.effect, old(log), cb, hw, log)
    {
      ghost var all, entries, bit := OnLimits(0, triggered, handler, cb, hw), [], 0;
      var left := triggered;
      while left != {}
        invariant Valid() && bit <= 16 && left == Onward(bit, triggered) && log == old(log) + entries
        invariant SoFar(all, entries, OnLimits(bit, triggered, handler, cb, hw))
        decreases left
      {
        var limit := LowestBit(left);
        assert forall b | bit <= b < limit :: b in triggered ==> b in left;
        NoneBetween(bit, limit, triggered, handler, cb, hw);
        if !cb.eventHandler { return false; }
        entries := ReportLimit(limit, handler, triggered, all, entries, old(log));
        left, bit := left - {limit}, limit + 1;
      }
      NoneLeft(bit, triggered, handler, cb, hw);
      ok := true;
    }

    /** The callback of one limit; entries were logged for those before it. */
    method ReportLimit(limit: nat, handler: Handler, ghost bits: set<nat>, ghost all: Reports,
                       ghost entries: seq<Entry>, ghost l0: seq<Entry>)
      returns (ghost entries': seq<Entry>)
      requires Valid() && site.Outside? && cb.eventHandler && limit < 16 && limit in bits
      requires log == l0 + entries && SoFar(all, entries, OnLimits(limit, bits, handler, cb, hw))
      modifies `cb, `hw, `log
      ensures Valid() && log == l0 + entries'
      ensures SoFar(all, entries', OnLimits(limit + 1, bits, handler, cb, hw))
    {
      ghost var e := Called(LimitEntry(limit), handler, cb, hw);
      entries' := entries + e.entries;
      OneLimit(limit, bits, handler, cb, hw, all, entries);
      LimitStep(cb, hw, log, LimitEntry(limit));
      Invoke(LimitEntry(limit), handler);
    }

    /** END during a calibration comes after CALIBRATEDONE: nothing is latched before it. */
    ghost predicate EndAfterCalibrated(irq: Irq)
      reads this
    { irq.end && cb.state.Calibration? ==> !hw.inten.calibrated }

    /** CALIBRATEDONE belongs to the calibration in progress; the rest may arrive in any mix. */
    ghost predicate Possible(irq: Irq)
      reads this
    {
      && hw.inten != NO_INTS
      && (irq.calibrated ==> cb.state.Calibration? && hw.inten.calibrated)
      && (irq.calibrated || EndAfterCalibrated(irq))
    }

    method IrqHandler(irq: Irq) returns (ok: bool)
      requires Valid() && site.Outside? && Possible(irq)
      modifies this
      ensures Valid() && site.Outside?
      ensures var r := OnIrq(irq, old(cb), old(hw));
              ok == r.ok && Became(r.effect, old(log), cb, hw, log)
      ensures !ok ==> !cb.eventHandler
      ensures AllButLastKeep(0, irq.limits, irq.handler) ==> ok
    {
      ghost var e := CalibratedPart(irq, cb, hw);
      if irq.calibrated {
        CalibratedHandle();
      }
      ghost var r, l := OnLater(irq, cb, hw), log;
      ok := StoppedAndLater(irq);
      InSequence(e, r, old(log), l, cb, hw, log);
    }

    /** All but the first part of the interrupt handler. */
    method StoppedAndLater(irq: Irq) returns (ok: bool)
      requires Valid() && site.Outside? && hw.inten != NO_INTS && EndAfterCalibrated(irq)
      modifies this
      ensures Valid() && site.Outside?
      ensures var r := OnLater(irq, old(cb), old(hw));
              ok == r.ok && Became(r.effect, old(log), cb, hw, log)
      ensures !ok ==> !cb.eventHandler
      ensures AllButLastKeep(0, irq.limits, irq.handler) ==> ok
    {
      ghost var e := StoppedPart(irq, cb, hw);
      if irq.stopped {
        StoppedHandle(irq.amount);
      }
      ghost var r, l := OnTail(irq, cb, hw), log;
      ok := EndStartedLimits(irq);
      InSequence(e, r, old(log), l, cb, hw, log);
    }

    /** The last three parts of the interrupt handler: END, STARTED, limits. */
    method EndStartedLimits(irq: Irq) returns (ok: bool)
      requires Valid() && site.Outside? && EndAfterCalibrated(irq)
      modifies this
      ensures Valid() && site.Outside?
      ensures var r := OnTail(irq, old(cb), old(hw));
              ok == r.ok && Became(r.effect, old(log), cb, hw, log)
      ensures !ok ==> !cb.eventHandler
      ensures AllButLastKeep(0, irq.limits, irq.handler) ==> ok
    {
      ghost var e := EndPart(irq, cb, hw);
      if irq.end {
        EndHandle(irq.handler);
      }
      ghost var r, l := OnRest(irq, cb, hw), log;
      ok := StartedLimits(irq);
      InSequence(e, r, old(log), l, cb, hw, log);
    }

    method StartedLimits(irq: Irq) returns (ok: bool)
      requires Valid() && site.Outside?
      modifies this
      ensures Valid() && site.Outside?
      ensures var r := OnRest(irq, old(cb), old(hw));
              ok == r.ok && Became(r.effect, old(log), cb, hw, log)
      ensures !ok ==> !cb.eventHandler
      ensures AllButLastKeep(0, irq.limits, irq.handler) ==> ok
    {
      if irq.started {
        StartedHandle(irq.handler);
      }
      ok := Limits(irq);
    }

    method Limits(irq: Irq) returns (ok: bool)
      requires Valid() && site.Outside?
      modifies `cb, `hw, `log
      ensures Valid()
      ensures var r := AllLimits(irq.limits, irq.handler, old(cb), old(hw));
              ok == r.ok && Became(r.effect, old(log), cb, hw, log)
      ensures !ok ==> !cb.eventHandler
      ensures AllButLastKeep(0, irq.limits, irq.handler) ==> ok
    {
      ok := true;
      if !cb.state.Calibration? {
        ok := LimitsHandle(irq.limits, irq.handler);
      }
    }

    /** The CALIBRATEDONE branch of the interrupt handler. */
    method CalibratedHandle()
      requires Valid() && cb.state.Calibration? && hw.inten.calibrated
      modifies `hw, `log
      ensures Valid() && log == old(log) + [Calibrated]
      ensures hw == old(hw).(inten := old(hw.inten).(calibrated := false), programmed := CALIB_BUFFER,
                             latched := CALIB_BUFFER, started := old(hw.started) + [CALIB_BUFFER])
      ensures hw.inten != NO_INTS
    {
      Parts(cb, hw, log, site);
      hw := hw.(inten := hw.inten.(calibrated := false));
      HwBufferSet(CALIB_BUFFER, true);
      log := log + [Calibrated];
      CalibratedStep(cb, old(hw), old(log), site);
    }

    /** The STOPPED branch of the interrupt handler. */
    method StoppedHandle(amount: nat)
      requires Valid() && site.Outside? && hw.inten != NO_INTS
      modifies `cb, `hw, `log
      ensures Valid() && Became(OnStopped(amount, old(cb), old(hw)), old(log), cb, hw, log)
      ensures if old(cb.state).Calibration? then
                if old(hw.inten).calibrated then
                  && log == old(log) + [CalibAborted(cb.Snap(hw.inten))]
                  && cb == old(cb).(state := old(cb.statePrev)) && !cb.state.Calibration?
                else unchanged(this)
              else
                && log == old(log) + [Stopped(amount)] && hw == old(hw)
                && cb == old(cb).(secondary := Null,
                                  primary := if old(cb.primary).Buf? then Buf(old(cb.primary).addr, amount) else Null)
    {
      Parts(cb, hw, log, site);
      if !cb.state.Calibration? {
        if cb.primary.Buf? {
          cb := cb.(primary := cb.primary.(length := amount));
        }
        cb := cb.(secondary := Null);
        log := log + [Stopped(amount)];
        StoppedStep(old(cb), hw, old(log), amount);
      }
      if hw.inten.calibrated {
        PreCalibrationStateRestore();
        log := log + [CalibAborted(cb.Snap(hw.inten))];
      }
    }

    // ---------- whole runs ----------

    /** Any interleaving of API calls and interrupts, with any callbacks. */
    method Run(events: seq<Event>)
      requires Valid() && site.Outside?
      modifies this
      ensures Valid() && site.Outside? && old(log) <= log
      ensures RunPromise(cb, hw, log)
    {
      for i := 0 to |events|
        invariant Valid() && site.Outside? && old(log) <= log
      {
        match events[i]
        case Api(call) =>
          Do(call);
        case Interrupt(irq) =>
          var possible := PossibleNow(irq);
          if possible {
            var ok := IrqHandler(irq);
          }
      }
      WholeRun(cb, hw, log);
    }

    method PossibleNow(irq: Irq) returns (b: bool)
      ensures b == Possible(irq)
    {
      b := hw.inten != NO_INTS && (irq.calibrated ==> cb.state.Calibration? && hw.inten.calibrated)
        && (irq.calibrated || (irq.end && cb.state.Calibration? ==> !hw.inten.calibrated));
    }

    /** The documented use of the blocking mode: trigger until the result is not BUSY. The buffers
        the hardware was given meanwhile fill the buffer without gap or overlap. */
    method FillBuffer() returns (calls: nat)
      requires Valid() && cb.state.AdvMode? && !cb.eventHandler && cb.primary.Buf? && cb.samplesConverted == 0
      modifies `cb, `hw, `log
      ensures Valid()
      ensures calls * cb.channelsActivatedCount == old(cb.primary).length
      ensures log == old(log) + Chunks(old(cb.primary), cb.channelsActivatedCount, calls)
      ensures cb == old(cb).(primary := old(cb.secondary), secondary := Null)
      ensures old(hw.started) <= hw.started && |hw.started| == |old(hw.started)| + calls
      ensures Tile(hw.started[|old(hw.started)|..], old(cb.primary))
    {
      calls := FillLoop();
      SlicesTile(old(cb.primary), old(cb.channelsActivatedCount), calls);
      assert hw.started[|old(hw.started)|..] == Slices(old(cb.primary), old(cb.channelsActivatedCount), calls);
    }

    method FillLoop() returns (calls: nat)
      requires Valid() && cb.state.AdvMode? && !cb.eventHandler && cb.primary.Buf? && cb.samplesConverted == 0
      modifies `cb, `hw, `log
      ensures Valid() && cb.channelsActivatedCount > 0
      ensures calls * cb.channelsActivatedCount == old(cb.primary).length
      ensures log == old(log) + Chunks(old(cb.primary), cb.channelsActivatedCount, calls)
      ensures cb == old(cb).(primary := old(cb.secondary), secondary := Null)
      ensures hw.started == old(hw.started) + Slices(old(cb.primary), cb.channelsActivatedCount, calls)
    {
      Parts(cb, hw, log, site);
      FillStart(cb);
      calls := 0;
      var r := Busy;
      while r == Busy
        invariant Valid() && FilledTo(old(cb), calls, cb)
        invariant log == old(log) + Chunks(old(cb.primary), old(cb.channelsActivatedCount), calls)
        invariant hw.started == old(hw.started) + Slices(old(cb.primary), old(cb.channelsActivatedCount), calls)
        invariant r == Busy <==> !IsFull(old(cb), calls)
        decreases if r == Busy then old(cb.primary).length - FillLevel(old(cb), calls) else 0
      {
        r := FillOne(old(cb), old(hw), old(log), calls);
        calls := calls + 1;
      }
    }

    /** One trigger of it, the k-th since control block c0. */
    method FillOne(ghost c0: ControlBlock, ghost h0: Registers, ghost l0: seq<Entry>, ghost k: nat) returns (r: Err)
      requires Valid() && c0.state.AdvMode? && !c0.eventHandler && c0.primary.Buf? && c0.samplesConverted == 0
      requires FilledTo(c0, k, cb) && !IsFull(c0, k)
      requires log == l0 + Chunks(c0.primary, c0.channelsActivatedCount, k)
      requires hw.started == h0.started + Slices(c0.primary, c0.channelsActivatedCount, k)
      modifies `cb, `hw, `log
      ensures Valid() && FilledTo(c0, k + 1, cb) && FillLevel(c0, k) < FillLevel(c0, k + 1)
      ensures log == l0 + Chunks(c0.primary, c0.channelsActivatedCount, k + 1)
      ensures hw.started == h0.started + Slices(c0.primary, c0.channelsActivatedCount, k + 1)
      ensures r == if IsFull(c0, k + 1) then Success else Busy
    {
      Parts(cb, hw, log, site);
      FillStep(c0, k, cb);
      r := ModeTrigger();
    }
  }

  datatype Event = Api(call: Call) | Interrupt(irq: Irq)
}
