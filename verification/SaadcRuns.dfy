/** Short runs of a fresh driver: what each mode does when all goes well, and three runs in which it
    does not do what one would expect. */
module SaadcRuns {
  import opened SaadcHistory
  import opened SaadcState
  import opened SaadcSteps
  import opened SaadcCalls
  import opened SaadcEvents
  import opened Saadc

  /** A user whose callbacks call nothing. */
  const SILENT: Handler := (e: Entry) => []

  function EndOnly(handler: Handler): Irq { Irq(false, false, true, false, 0, {}, handler) }

  function StartedOnly(handler: Handler): Irq { Irq(false, false, false, true, 0, {}, handler) }

  function StopAndEnd(amount: nat): Irq { Irq(false, true, true, false, amount, {}, SILENT) }

  lemma NoLimits(cb: ControlBlock, hw: Registers, handler: Handler)
    ensures AllLimits({}, handler, cb, hw) == Reports(true, Nothing(cb, hw))
  {
    NoneBetween(0, 16, {} * EnabledLimits(hw.inten), handler, cb, hw);
  }

  lemma EndAlone(cb: ControlBlock, hw: Registers, handler: Handler)
    ensures OnIrq(EndOnly(handler), cb, hw) == Reports(true, OnEnd(handler, cb, hw))
  {
    var e := OnEnd(handler, cb, hw);
    NoLimits(e.cb, e.hw, handler);
    assert Before(e, Before(Nothing(e.cb, e.hw), Reports(true, Nothing(e.cb, e.hw)))) == Reports(true, e);
    assert Before(Nothing(cb, hw), OnTail(EndOnly(handler), cb, hw)) == OnTail(EndOnly(handler), cb, hw);
  }

  lemma StartedAlone(cb: ControlBlock, hw: Registers, handler: Handler)
    ensures OnIrq(StartedOnly(handler), cb, hw) == Reports(true, OnStarted(handler, cb, hw))
  {
    var e := OnStarted(handler, cb, hw);
    var irq := StartedOnly(handler);
    NoLimits(e.cb, e.hw, handler);
    assert OnRest(irq, cb, hw) == Reports(true, e);
    assert OnTail(irq, cb, hw) == Reports(true, e);
    assert OnLater(irq, cb, hw) == Reports(true, e);
  }

  lemma StoppedThenEnd(cb: ControlBlock, hw: Registers, amount: nat)
    requires !cb.state.Calibration?
    ensures var c := StoppedBlock(cb, amount);
      OnIrq(StopAndEnd(amount), cb, hw)
        == Reports(true, Then(Effect(c, hw, [Stopped(amount)]), OnEnd(SILENT, c, hw)))
  {
    var c := StoppedBlock(cb, amount);
    EndAlone(c, hw, SILENT);
    assert OnTail(StopAndEnd(amount), c, hw) == OnTail(EndOnly(SILENT), c, hw);
  }

  /** A driver with one channel in advanced non-blocking mode, a run triggered on buffer b. */
  method Triggering(b: Buffer, startOnEnd: bool) returns (d: Driver)
    requires b.Buf? && 0 < b.length <= MAX_COUNT
    ensures fresh(d) && d.Valid() && d.site.Outside? && d.cb.state.AdvModeSample?
    ensures d.cb.primary == b && d.cb.secondary.Null? && d.cb.eventHandler && d.cb.startOnEnd == startOnEnd
    ensures d.cb.channelsActivatedCount == 1 && !d.hw.continuous
    ensures d.hw.latched == b && d.hw.started == [b] && d.log == [ModeSet, Accepted(b), Triggered]
  {
    d := new Driver();
    var r := d.ChannelsConfig([0]);
    assert Configured([0]) == {0} by { assert [0][..0] == []; }
    r := d.AdvancedModeSet({0}, AdvConfig(1, false, 0, startOnEnd), true);
    assert |{0}| == 1 && b.length % 1 == 0;
    r := d.BufferSet(b.addr, b.length, true);
    r := d.ModeTrigger();
  }

  /** The same after STARTED, with callbacks that call nothing. */
  method Starting(b: Buffer, startOnEnd: bool) returns (d: Driver)
    requires b.Buf? && 0 < b.length <= MAX_COUNT
    ensures fresh(d) && d.Valid() && d.site.Outside? && d.cb.state.AdvModeSampleStarted?
    ensures d.cb.primary == b && d.cb.secondary.Null? && d.cb.eventHandler && d.cb.startOnEnd == startOnEnd
    ensures d.cb.channelsActivatedCount == 1
    ensures d.hw.latched == b && d.hw.started == [b]
    ensures d.log == [ModeSet, Accepted(b), Triggered, Ready, BufReq]
  {
    d := Triggering(b, startOnEnd);
    Parts(d.cb, d.hw, d.log, d.site);
    StartedAlone(d.cb, d.hw, SILENT);
    var ok := d.IrqHandler(StartedOnly(SILENT));
  }

  /** Two buffers pending when abort is called, END before STOPPED: both are reported. */
  method TwoDonesAfterAbort(b: Buffer, c: Buffer, amount: nat) returns (d: Driver)
    requires b.Buf? && c.Buf? && 0 < b.length <= MAX_COUNT && 0 < c.length <= MAX_COUNT
    ensures d.Valid()
    ensures d.log == [ModeSet, Accepted(b), Triggered, Ready, BufReq, Accepted(c),
                      AbortCalled, Done(b), Stopped(amount), Done(c.(length := amount)), Finished]
  {
    d := AbortThenEnd(b, c);
    Parts(d.cb, d.hw, d.log, d.site);
    StoppedThenEnd(d.cb, d.hw, amount);
    var ok := d.IrqHandler(StopAndEnd(amount));
  }

  /** The same up to the first END. */
  method AbortThenEnd(b: Buffer, c: Buffer) returns (d: Driver)
    requires b.Buf? && c.Buf? && 0 < b.length <= MAX_COUNT && 0 < c.length <= MAX_COUNT
    ensures fresh(d) && d.Valid() && d.site.Outside? && d.cb.state.AdvModeSampleStarted? && d.cb.eventHandler
    ensures d.cb.primary == c && d.cb.secondary.Null? && !d.cb.startOnEnd
    ensures d.log == [ModeSet, Accepted(b), Triggered, Ready, BufReq, Accepted(c), AbortCalled, Done(b)]
  {
    d := Starting(b, false);
    var r := d.BufferSet(c.addr, c.length, true);
    d.Abort();
    EndAlone(d.cb, d.hw, SILENT);
    Parts(d.cb, d.hw, d.log, d.site);
    var ok := d.IrqHandler(EndOnly(SILENT));
  }

  /** The next buffer supplied only in the callback of DONE, under start-on-end: the run waits for
      that buffer, but the hardware has only ever been given the first one. */
  method LateBufferRun(b: Buffer, c: Buffer) returns (d: Driver)
    requires b.Buf? && c.Buf? && 0 < b.length <= MAX_COUNT && 0 < c.length <= MAX_COUNT
    ensures d.Valid() && d.cb.state.AdvModeSampleStarted? && d.cb.startOnEnd
    ensures d.cb.primary == c && d.hw.programmed == c && d.hw.latched == b && d.hw.started == [b]
    ensures d.log == [ModeSet, Accepted(b), Triggered, Ready, BufReq, Done(b), Accepted(c)]
  {
    d := Starting(b, true);
    var handler: Handler := (e: Entry) => if e.Done? then [CallBufferSet(c.addr, c.length, true)] else [];
    EndAlone(d.cb, d.hw, handler);
    LateBuffer(handler, d.cb, d.hw, c);
    Parts(d.cb, d.hw, d.log, d.site);
    var ok := d.IrqHandler(EndOnly(handler));
  }

  /** Simple mode on two channels with a high limit each. */
  method TwoLimits() returns (d: Driver)
    ensures fresh(d) && d.Valid() && d.site.Outside? && d.cb.state.SimpleMode? && d.cb.eventHandler
    ensures d.log == [ModeSet] && d.cb.channelsConfigured == {0, 1} && d.hw.inten.high == {0, 1}
  {
    d := new Driver();
    var r := d.ChannelsConfig([0, 1]);
    assert Configured([0, 1]) == {0, 1} by {
      assert [0, 1][..1] == [0];
      assert [0][..0] == [];
    }
    r := d.SimpleModeSet({0, 1}, 1, true);
    r := d.LimitsSet(0, INT16_MIN, 100);
    r := d.LimitsSet(1, INT16_MIN, 100);
  }

  /** The high limits of channels 0 and 1 at once, and a callback that switches to blocking
      operation: the second limit finds no handler. */
  method LostLimitRun() returns (d: Driver, ok: bool)
    ensures d.Valid() && !ok && !d.cb.eventHandler
    ensures d.log == [ModeSet, Limit(0, true), ModeSet]
  {
    d := TwoLimits();
    var handler: Handler := (e: Entry) => [CallSimpleModeSet({0}, 1, false)];
    Parts(d.cb, d.hw, d.log, d.site);
    assert {0, 2} * EnabledLimits(d.hw.inten) == {0, 2};
    LostLimit(handler, d.cb, d.hw);
    ok := d.LimitsHandle({0, 2}, handler);
  }

  // ---------- runs in which all goes well ----------

  const CALIBRATED: Irq := Irq(true, false, false, false, 0, {}, SILENT)

  lemma CalibratedAlone(cb: ControlBlock, hw: Registers)
    ensures OnIrq(CALIBRATED, cb, hw) == Reports(true, OnCalibrated(cb, hw))
  {
    var e := OnCalibrated(cb, hw);
    NoLimits(e.cb, e.hw, SILENT);
    TailFacts(CALIBRATED, e.cb, e.hw);
    IrqFacts(CALIBRATED, cb, hw);
    InTurn(e, Nothing(e.cb, e.hw), Reports(true, Nothing(e.cb, e.hw)));
  }

  /** The STOPPED and END that drop the scratch samples. */
  lemma ScratchEnd(cb: ControlBlock, hw: Registers)
    requires cb.state.Calibration? && !hw.inten.calibrated
    ensures OnIrq(StopAndEnd(0), cb, hw) == Reports(true, OnEnd(SILENT, cb, hw))
  {
    EndAlone(cb, hw, SILENT);
    IrqFacts(StopAndEnd(0), cb, hw);
    IrqFacts(EndOnly(SILENT), cb, hw);
    assert OnTail(StopAndEnd(0), cb, hw) == OnTail(EndOnly(SILENT), cb, hw);
  }

  /** A driver in advanced non-blocking mode with one buffer, not triggered. */
  method Loaded(b: Buffer) returns (d: Driver)
    requires b.Buf? && 0 < b.length <= MAX_COUNT
    ensures fresh(d) && d.Valid() && d.site.Outside? && d.cb.state.AdvMode? && d.cb.eventHandler
    ensures d.cb.primary == b && d.cb.secondary.Null? && d.log == [ModeSet, Accepted(b)] && d.hw.started == []
    ensures d.hw.inten == Ints(true, true, true, false, {}, {}) && d.cb.limitsLow == d.cb.limitsHigh == {}
  {
    d := new Driver();
    var r := d.ChannelsConfig([0]);
    assert Configured([0]) == {0} by { assert [0][..0] == []; }
    r := d.AdvancedModeSet({0}, AdvConfig(1, false, 0, false), true);
    assert |{0}| == 1 && b.length % 1 == 0;
    r := d.BufferSet(b.addr, b.length, true);
  }

  /** A calibration that is completed: CALIBRATEDONE, the scratch buffer, one callback, and everything
      as before. */
  method CalibrationRun(b: Buffer) returns (d: Driver, ghost s: Snapshot)
    requires b.Buf? && 0 < b.length <= MAX_COUNT
    ensures d.Valid() && d.cb.state.AdvMode? && d.cb.primary == b && d.cb.secondary.Null?
    ensures s == d.cb.Snap(d.hw.inten) && d.hw.inten == Ints(true, true, true, false, {}, {})
    ensures d.log == [ModeSet, Accepted(b), CalibStarted(s), Calibrated, CalibDone(s)]
    ensures d.hw.started == [CALIB_BUFFER] && !d.hw.enabled
  {
    d := Loaded(b);
    s := d.cb.Snap(d.hw.inten);
    var r := d.OffsetCalibrate(true);
    CalibratedAlone(d.cb, d.hw);
    var ok := d.IrqHandler(CALIBRATED);
    StartedAlone(d.cb, d.hw, SILENT);
    ok := d.IrqHandler(StartedOnly(SILENT));
    ScratchEnd(d.cb, d.hw);
    ok := d.IrqHandler(StopAndEnd(0));
  }

  /** Simple mode twice: the callback of the first conversion starts the second. */
  method SimpleTwice(addr: int) returns (d: Driver)
    ensures d.Valid() && d.cb.state.SimpleMode? && !d.hw.enabled
    ensures d.log == [ModeSet, SimpleDone(Buf(addr, 1)), SimpleDone(Buf(addr, 1))]
    ensures d.hw.started == [Buf(addr, 1), Buf(addr, 1)] && d.hw.sampleTasks == 2
  {
    d := SimpleOnce(addr);
    StartedAlone(d.cb, d.hw, SILENT);
    var ok := d.IrqHandler(StartedOnly(SILENT));
    EndAlone(d.cb, d.hw, SILENT);
    ok := d.IrqHandler(EndOnly(SILENT));
  }

  /** The same up to the second trigger. */
  method SimpleOnce(addr: int) returns (d: Driver)
    ensures fresh(d) && d.Valid() && d.site.Outside? && d.cb.state.SimpleModeSample? && d.cb.eventHandler
    ensures d.cb.primary == Buf(addr, 1) && d.log == [ModeSet, SimpleDone(Buf(addr, 1))]
    ensures d.hw.started == [Buf(addr, 1), Buf(addr, 1)] && d.hw.sampleTasks == 1
    ensures d.hw.inten == Ints(true, true, true, false, {}, {})
  {
    d := SimpleTriggered(addr);
    StartedAlone(d.cb, d.hw, SILENT);
    var ok := d.IrqHandler(StartedOnly(SILENT));
    var handler: Handler := (e: Entry) => [CallModeTrigger];
    EndAlone(d.cb, d.hw, handler);
    OneCall(CallModeTrigger, d.cb.(state := SimpleMode), d.hw.(enabled := false));
    ok := d.IrqHandler(EndOnly(handler));
  }

  method SimpleTriggered(addr: int) returns (d: Driver)
    ensures fresh(d) && d.Valid() && d.site.Outside? && d.cb.state.SimpleModeSample? && d.cb.eventHandler
    ensures d.cb.primary == Buf(addr, 1) && d.log == [ModeSet]
    ensures d.hw.started == [Buf(addr, 1)] && d.hw.sampleTasks == 0
    ensures d.hw.inten == Ints(true, true, true, false, {}, {})
  {
    d := new Driver();
    var r := d.ChannelsConfig([0]);
    assert Configured([0]) == {0} by { assert [0][..0] == []; }
    r := d.SimpleModeSet({0}, 1, true);
    assert |{0}| == 1;
    r := d.BufferSet(addr, 1, true);
    r := d.ModeTrigger();
  }

  /** Two buffers in a row under start-on-end: the END of the first starts the second, and the
      STARTED of the same interrupt asks for a third. */
  method StreamingRun(b: Buffer, c: Buffer) returns (d: Driver)
    requires b.Buf? && c.Buf? && 0 < b.length <= MAX_COUNT && 0 < c.length <= MAX_COUNT
    ensures d.Valid() && d.cb.state.AdvModeSampleStarted? && d.cb.primary == c && d.cb.secondary.Null?
    ensures d.hw.started == [b, c] && d.hw.latched == c
    ensures d.log == [ModeSet, Accepted(b), Triggered, Ready, BufReq, Accepted(c), Done(b), BufReq]
  {
    d := Starting(b, true);
    var r := d.BufferSet(c.addr, c.length, true);
    var irq := Irq(false, false, true, true, 0, {}, SILENT);
    EndAndStarted(d.cb, d.hw);
    Parts(d.cb, d.hw, d.log, d.site);
    var ok := d.IrqHandler(irq);
  }

  lemma EndAndStarted(cb: ControlBlock, hw: Registers)
    ensures var e := OnEnd(SILENT, cb, hw);
      OnIrq(Irq(false, false, true, true, 0, {}, SILENT), cb, hw)
        == Reports(true, Then(e, OnStarted(SILENT, e.cb, e.hw)))
  {
    var irq := Irq(false, false, true, true, 0, {}, SILENT);
    var e := OnEnd(SILENT, cb, hw);
    var f := OnStarted(SILENT, e.cb, e.hw);
    IrqFacts(irq, cb, hw);
    TailFacts(irq, cb, hw);
    NoLimits(f.cb, f.hw, SILENT);
  }

  /** The low limit of channel 0 alone: bit 1, reported as that. */
  method LowLimitRun() returns (d: Driver, ok: bool)
    ensures d.Valid() && ok && d.log == [ModeSet, Limit(0, false)]
  {
    d := new Driver();
    var r := d.ChannelsConfig([0]);
    assert Configured([0]) == {0} by { assert [0][..0] == []; }
    r := d.SimpleModeSet({0}, 1, true);
    r := d.LimitsSet(0, -100, INT16_MAX);
    Parts(d.cb, d.hw, d.log, d.site);
    assert {1} * EnabledLimits(d.hw.inten) == {1};
    assert OnLimits(2, {1}, SILENT, d.cb, d.hw) == Reports(true, Nothing(d.cb, d.hw)) by {
      NoneBetween(2, 16, {1}, SILENT, d.cb, d.hw);
    }
    ok := d.LimitsHandle({1}, SILENT);
  }
}
