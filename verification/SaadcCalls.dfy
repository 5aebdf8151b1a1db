/** The effect of every API call as a function of the control block and the registers, and what
    calls made from a callback can and cannot change. */
module SaadcCalls {
  import opened SaadcHistory
  import opened SaadcState
  import opened SaadcSteps

  /** A control block and registers, and the log entries on the way to them. */
  datatype Effect = Effect(cb: ControlBlock, hw: Registers, entries: seq<Entry>)

  function Nothing(cb: ControlBlock, hw: Registers): Effect { Effect(cb, hw, []) }

  /** One effect after another. */
  function Then(e: Effect, f: Effect): Effect { Effect(f.cb, f.hw, e.entries + f.entries) }

  /** The driver has gone through this effect since log l0. */
  ghost predicate Became(e: Effect, l0: seq<Entry>, cb: ControlBlock, hw: Registers, log: seq<Entry>) {
    cb == e.cb && hw == e.hw && log == l0 + e.entries
  }

  // ---------- single calls ----------

  /** When a buffer is taken: a free slot, RAM, a length that fits the channels, a mode to use it. */
  predicate TakesBuffer(cb: ControlBlock, size: nat, inRam: bool) {
    && cb.secondary.Null? && inRam && cb.channelsActivatedCount != 0
    && size % cb.channelsActivatedCount == 0 && 0 < size <= MAX_COUNT
    && match cb.state
       case SimpleMode => size == cb.channelsActivatedCount
       case AdvMode => true
       case AdvModeSample => true
       case AdvModeSampleStarted => true
       case _ => false
  }

  function AfterBufferSet(b: Buffer, cb: ControlBlock, hw: Registers): Effect {
    if cb.state.SimpleMode? then Effect(cb.(primary := b), hw, [])
    else Effect(if cb.primary.Null? then cb.(primary := b) else cb.(secondary := b),
                if cb.state.AdvModeSampleStarted? then hw.WithBuffer(b, false) else hw,
                [Accepted(b)])
  }

  function AfterTrigger(cb: ControlBlock, hw: Registers): Effect {
    if cb.primary.Null? then Nothing(cb, hw)
    else match cb.state
      case SimpleMode =>
        var h := hw.WithBuffer(cb.primary, true);
        if cb.eventHandler then Effect(cb.(state := SimpleModeSample), h.(enabled := true), [])
        else Effect(cb, h.(sampleTasks := h.sampleTasks + 1), [])
      case AdvMode =>
        if cb.eventHandler
        then Effect(cb.(state := AdvModeSample), hw.WithBuffer(cb.primary, true).(enabled := true), [Triggered])
        else Effect(AfterChunk(cb), ChunkTaken(cb, hw), [ChunkNow(cb)])
      case _ => Nothing(cb, hw)
  }

  /** Whether somebody waits for the end of what is going on. */
  predicate HandlerWaits(cb: ControlBlock) {
    if cb.state.Calibration? then cb.calibEventHandler else cb.eventHandler
  }

  function AfterAbort(cb: ControlBlock, hw: Registers): Effect {
    if HandlerWaits(cb)
    then Effect(cb, hw.(stopTasks := hw.stopTasks + 1), if cb.state.Calibration? then [] else [AbortCalled])
    else Effect(cb.(primary := Null, secondary := Null, samplesConverted := 0), hw, [Discarded])
  }

  function AfterCalibrate(handler: bool, cb: ControlBlock, hw: Registers): Effect {
    if cb.Busy() then Nothing(cb, hw)
    else if handler
    then Effect(cb.(statePrev := cb.state, state := Calibration, calibEventHandler := true),
                hw.(enabled := true, inten := CalibrationInts(cb)), [CalibStarted(cb.Snap(hw.inten))])
    else Effect(cb.(statePrev := cb.state, calibEventHandler := false),
                hw.WithBuffer(CALIB_BUFFER, true).(stopTasks := hw.stopTasks + 1), [])
  }

  function AfterLimits(channel: nat, low: int, high: int, cb: ControlBlock, hw: Registers): Effect {
    if channel < 8 && INT16_MIN <= low <= high <= INT16_MAX && cb.eventHandler
       && !cb.state.Idle? && !cb.state.Calibration? && channel in cb.channelsActivated
    then
      var c := WithLimits(cb, channel, low == INT16_MIN, high == INT16_MAX);
      Effect(c, hw.(inten := ModeInts(c)), [])
    else Nothing(cb, hw)
  }

  predicate CanSetMode(mask: set<nat>, cb: ControlBlock) {
    mask != {} && mask <= CHANNELS && !cb.Busy() && mask <= cb.channelsConfigured
  }

  function AfterSimpleMode(mask: set<nat>, oversample: Positive, handler: bool,
                           cb: ControlBlock, hw: Registers): Effect
  {
    if CanSetMode(mask, cb) then
      var c := WithMode(cb, SimpleMode, mask, handler, cb.startOnEnd, cb.oversamplingWithoutBurst);
      Effect(c, hw.(inten := ModeInts(c), oversample := oversample), [ModeSet])
    else Nothing(cb, hw)
  }

  predicate Supported(config: AdvConfig, mask: set<nat>, handler: bool) {
    && (config.timer != 0 ==> |mask| <= 1 && handler)
    && (config.oversample > 1 && !config.burst ==> |mask| <= 1)
  }

  function AfterAdvancedMode(mask: set<nat>, config: AdvConfig, handler: bool,
                             cb: ControlBlock, hw: Registers): Effect
  {
    if CanSetMode(mask, cb) && Supported(config, mask, handler) then
      var c := WithMode(cb, AdvMode, mask, handler, config.startOnEnd, config.oversample > 1 && !config.burst);
      Effect(c, hw.(inten := ModeInts(c), oversample := config.oversample, continuous := config.timer != 0), [ModeSet])
    else Nothing(cb, hw)
  }

  predicate Known(list: seq<nat>) { forall c | c in list :: c in CHANNELS }

  predicate Distinct(list: seq<nat>) { forall i, j | 0 <= i < j < |list| :: list[i] != list[j] }

  /** The channels of a list before the first that is named again. */
  function Configured(list: seq<nat>): (c: set<nat>)
    ensures Distinct(list) ==> c == set x | x in list
    ensures forall x | x in c :: x in list
  {
    if list == [] then {}
    else
      var n := |list| - 1;
      var c := Configured(list[..n]);
      assert Distinct(list) ==> Distinct(list[..n]);
      assert list == list[..n] + [list[n]];
      if Distinct(list[..n]) then c + {list[n]} else c
  }

  lemma {:induction false} ConfiguredUpTo(list: seq<nat>, n: nat)
    requires n <= |list| && Distinct(list[..n]) && (n < |list| ==> list[n] in list[..n])
    ensures Configured(list) == set c | c in list[..n]
    ensures Distinct(list) <==> n == |list|
  {
    if n < |list| {
      var front := list[..|list|-1];
      assert front[..n] == list[..n];
      if n < |front| {
        ConfiguredUpTo(front, n);
      } else {
        assert front == list[..n];
      }
    } else {
      assert list[..n] == list;
    }
  }

  function AfterChannels(call: Call, cb: ControlBlock, hw: Registers): Effect {
    if cb.Busy() then Nothing(cb, hw)
    else match call
      case CallChannelsConfig(list) =>
        if Known(list) then Effect(cb.(channelsConfigured := Configured(list)), hw, []) else Nothing(cb, hw)
      case CallChannelConfig(channel) =>
        if channel in CHANNELS
        then Effect(cb.(channelsConfigured := cb.channelsConfigured + {channel}), hw, []) else Nothing(cb, hw)
      case CallChannelsDeconfig(mask) =>
        if mask <= CHANNELS
        then Effect(cb.(channelsConfigured := cb.channelsConfigured - mask), hw, []) else Nothing(cb, hw)
      case _ => Nothing(cb, hw)
  }

  /** Any API call with any arguments. Calls the source leaves undefined do nothing. */
  function Perform(call: Call, cb: ControlBlock, hw: Registers): Effect {
    match call
    case CallBufferSet(addr, size, inRam) =>
      if TakesBuffer(cb, size, inRam) then AfterBufferSet(Buf(addr, size), cb, hw) else Nothing(cb, hw)
    case CallModeTrigger => AfterTrigger(cb, hw)
    case CallAbort => AfterAbort(cb, hw)
    case CallLimitsSet(channel, low, high) => AfterLimits(channel, low, high, cb, hw)
    case CallOffsetCalibrate(handler) => AfterCalibrate(handler, cb, hw)
    case CallSimpleModeSet(mask, oversample, handler) => AfterSimpleMode(mask, oversample, handler, cb, hw)
    case CallAdvancedModeSet(mask, config, handler) => AfterAdvancedMode(mask, config, handler, cb, hw)
    case _ => AfterChannels(call, cb, hw)
  }

  /** Calls one after the other. */
  function PerformAll(calls: seq<Call>, cb: ControlBlock, hw: Registers): Effect {
    if calls == [] then Nothing(cb, hw)
    else
      var e := PerformAll(calls[..|calls|-1], cb, hw);
      Then(e, Perform(calls[|calls|-1], e.cb, e.hw))
  }

  /** The first i calls have been made since control block c0, registers h0 and log l0. */
  ghost predicate CallsMade(calls: seq<Call>, i: nat, c0: ControlBlock, h0: Registers, l0: seq<Entry>,
                       cb: ControlBlock, hw: Registers, log: seq<Entry>)
  {
    i <= |calls| && Became(PerformAll(calls[..i], c0, h0), l0, cb, hw, log)
  }

  lemma CallMade(calls: seq<Call>, i: nat, c0: ControlBlock, h0: Registers, l0: seq<Entry>,
                c1: ControlBlock, h1: Registers, l1: seq<Entry>, c2: ControlBlock, h2: Registers, l2: seq<Entry>)
    requires i < |calls| && CallsMade(calls, i, c0, h0, l0, c1, h1, l1)
    requires Became(Perform(calls[i], c1, h1), l1, c2, h2, l2)
    ensures CallsMade(calls, i + 1, c0, h0, l0, c2, h2, l2)
  {
    assert calls[..i+1][..i] == calls[..i];
  }

  // ---------- what calls cannot do ----------

  /** All that API calls can change while a conversion is running. */
  ghost predicate SamplingFrame(c0: ControlBlock, h0: Registers, c1: ControlBlock, h1: Registers) {
    && c1 == c0.(secondary := c1.secondary, limitsLow := c1.limitsLow, limitsHigh := c1.limitsHigh)
    && h1 == h0.(inten := h1.inten, programmed := h1.programmed, stopTasks := h1.stopTasks)
    && (c0.secondary.Buf? ==> c1.secondary == c0.secondary)
    && (c1.secondary == c0.secondary ==> h1.programmed == h0.programmed)
  }

  /** A conversion or a calibration in progress has somebody waiting for it. */
  predicate Attended(cb: ControlBlock) {
    && (cb.Sampling() ==> cb.eventHandler && cb.primary.Buf?)
    && (cb.state.Calibration? ==> cb.calibEventHandler)
  }

  predicate AllAborts(entries: seq<Entry>) {
    forall i | 0 <= i < |entries| :: entries[i].AbortCalled?
  }

  /** Buffers taken and aborts asked for, nothing else. */
  predicate AllQuiet(entries: seq<Entry>) {
    forall i | 0 <= i < |entries| :: entries[i].Accepted? || entries[i].AbortCalled?
  }

  predicate IsCallback(e: Entry) {
    e.Ready? || e.BufReq? || e.Done? || e.Finished? || e.SimpleDone? || e.Limit? || e.CalibDone?
  }

  /** No API call reports anything by itself. */
  predicate NoCallbacks(entries: seq<Entry>) {
    forall i | 0 <= i < |entries| :: !IsCallback(entries[i])
  }

  /** What calls guarantee to whoever is in the middle of something: during a conversion nothing
      but a next buffer or a limit changes, during a calibration nothing at all. */
  ghost predicate Harmless(cb: ControlBlock, hw: Registers, e: Effect) {
    && NoCallbacks(e.entries)
    && (cb.Sampling() ==>
          && SamplingFrame(cb, hw, e.cb, e.hw) && AllQuiet(e.entries)
          && (e.cb.secondary == cb.secondary ==> AllAborts(e.entries)))
    && (cb.state.Calibration? ==> e.cb == cb && e.entries == [] && e.hw == hw.(stopTasks := e.hw.stopTasks))
    && (e.cb.state.AdvModeSampleStarted? ==> cb.state.AdvModeSampleStarted?)
    && Attended(e.cb)
  }

  /** What single calls guarantee besides. */
  ghost predicate Polite(call: Call, cb: ControlBlock, hw: Registers, e: Effect) {
    && Harmless(cb, hw, e)
    && (cb.Sampling() && !call.CallBufferSet? ==> e.cb.secondary == cb.secondary)
    && (cb.Sampling() && !call.CallBufferSet? && !call.CallAbort? ==> e.entries == [])
    && (cb.eventHandler && !DropsHandler(call) ==> e.cb.eventHandler)
  }

  lemma NothingPolite(call: Call, cb: ControlBlock, hw: Registers)
    requires Attended(cb)
    ensures Polite(call, cb, hw, Nothing(cb, hw))
  {
  }

  lemma BufferSetPolite(call: Call, cb: ControlBlock, hw: Registers)
    requires Attended(cb) && call.CallBufferSet? && TakesBuffer(cb, call.size, call.inRam)
    ensures Polite(call, cb, hw, AfterBufferSet(Buf(call.addr, call.size), cb, hw))
  {
  }

  lemma TriggerPolite(call: Call, cb: ControlBlock, hw: Registers)
    requires Attended(cb) && call.CallModeTrigger?
    ensures Polite(call, cb, hw, AfterTrigger(cb, hw))
  {
  }

  lemma AbortPolite(call: Call, cb: ControlBlock, hw: Registers)
    requires Attended(cb) && call.CallAbort?
    ensures Polite(call, cb, hw, AfterAbort(cb, hw))
  {
  }

  lemma CalibratePolite(call: Call, cb: ControlBlock, hw: Registers)
    requires Attended(cb) && call.CallOffsetCalibrate?
    ensures Polite(call, cb, hw, AfterCalibrate(call.handler, cb, hw))
  {
  }

  lemma LimitsPolite(call: Call, cb: ControlBlock, hw: Registers)
    requires Attended(cb) && call.CallLimitsSet?
    ensures Polite(call, cb, hw, AfterLimits(call.channel, call.low, call.high, cb, hw))
  {
  }

  lemma ModePolite(call: Call, cb: ControlBlock, hw: Registers)
    requires Attended(cb)
    ensures call.CallSimpleModeSet? ==>
      Polite(call, cb, hw, AfterSimpleMode(call.mask, call.oversample, call.handler, cb, hw))
    ensures call.CallAdvancedModeSet? ==>
      Polite(call, cb, hw, AfterAdvancedMode(call.mask, call.config, call.handler, cb, hw))
  {
  }

  lemma ChannelsPolite(call: Call, cb: ControlBlock, hw: Registers)
    requires Attended(cb)
    ensures Polite(call, cb, hw, AfterChannels(call, cb, hw))
  {
  }

  lemma PerformPolite(call: Call, cb: ControlBlock, hw: Registers)
    requires Attended(cb)
    ensures Polite(call, cb, hw, Perform(call, cb, hw))
  {
    match call
    case CallBufferSet(_, size, inRam) =>
      if TakesBuffer(cb, size, inRam) { BufferSetPolite(call, cb, hw); } else { NothingPolite(call, cb, hw); }
    case CallModeTrigger => TriggerPolite(call, cb, hw);
    case CallAbort => AbortPolite(call, cb, hw);
    case CallLimitsSet(_, _, _) => LimitsPolite(call, cb, hw);
    case CallOffsetCalibrate(_) => CalibratePolite(call, cb, hw);
    case CallSimpleModeSet(_, _, _) => ModePolite(call, cb, hw);
    case CallAdvancedModeSet(_, _, _) => ModePolite(call, cb, hw);
    case _ => ChannelsPolite(call, cb, hw);
  }

  lemma {:induction false} Harmlessly(calls: seq<Call>, cb: ControlBlock, hw: Registers)
    requires Attended(cb)
    ensures Harmless(cb, hw, PerformAll(calls, cb, hw))
    ensures cb.eventHandler && KeepsHandler(calls) ==> PerformAll(calls, cb, hw).cb.eventHandler
  {
    if calls != [] {
      var n := |calls| - 1;
      var e := PerformAll(calls[..n], cb, hw);
      Harmlessly(calls[..n], cb, hw);
      PerformPolite(calls[n], e.cb, e.hw);
      assert KeepsHandler(calls) ==> KeepsHandler(calls[..n]) && !DropsHandler(calls[n]);
    }
  }

  /** Only buffer_set fills the next slot during a conversion, and only abort is logged besides. */
  lemma {:induction false} NothingAdded(calls: seq<Call>, cb: ControlBlock, hw: Registers)
    requires Attended(cb) && cb.Sampling()
    ensures var e := PerformAll(calls, cb, hw);
      && (!AddsBuffer(calls) ==> e.cb.secondary == cb.secondary)
      && (!AddsBuffer(calls) && !Aborts(calls) ==> e.entries == [])
  {
    if calls != [] {
      var n := |calls| - 1;
      var e := PerformAll(calls[..n], cb, hw);
      Harmlessly(calls[..n], cb, hw);
      NothingAdded(calls[..n], cb, hw);
      assert AddsBuffer(calls[..n]) ==> AddsBuffer(calls);
      assert Aborts(calls[..n]) ==> Aborts(calls);
      assert calls[n].CallBufferSet? ==> AddsBuffer(calls);
      assert calls[n].CallAbort? ==> Aborts(calls);
      PerformPolite(calls[n], e.cb, e.hw);
    }
  }

  /** With the next slot taken, no call of a conversion is logged but an abort. */
  lemma {:induction false} SlotTaken(calls: seq<Call>, cb: ControlBlock, hw: Registers)
    requires Attended(cb) && cb.Sampling() && cb.secondary.Buf? && !Aborts(calls)
    ensures PerformAll(calls, cb, hw).entries == []
  {
    if calls != [] {
      var n := |calls| - 1;
      var e := PerformAll(calls[..n], cb, hw);
      assert Aborts(calls[..n]) ==> Aborts(calls);
      assert !calls[n].CallAbort?;
      Harmlessly(calls[..n], cb, hw);
      SlotTaken(calls[..n], cb, hw);
      PerformPolite(calls[n], e.cb, e.hw);
      assert AllAborts(Perform(calls[n], e.cb, e.hw).entries);
    }
  }

  predicate Aborts(calls: seq<Call>) {
    exists i | 0 <= i < |calls| :: calls[i].CallAbort?
  }

  lemma OneCall(call: Call, cb: ControlBlock, hw: Registers)
    ensures PerformAll([call], cb, hw) == Perform(call, cb, hw)
  {
    assert [call][..0] == [];
    assert PerformAll([call], cb, hw) == Then(Nothing(cb, hw), Perform(call, cb, hw));
  }
}
