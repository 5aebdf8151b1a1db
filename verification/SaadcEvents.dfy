/** The effect of every interrupt, callbacks included, as a function of the control block and the
    registers, and what follows for start-on-end, aborts and limits. */
module SaadcEvents {
  import opened SaadcHistory
  import opened SaadcState
  import opened SaadcSteps
  import opened SaadcCalls

  type Handler = Entry -> seq<Call>

  /** One callback: the event, then whatever its handler calls. */
  function Called(e: Entry, handler: Handler, cb: ControlBlock, hw: Registers): Effect {
    Then(Effect(cb, hw, [e]), PerformAll(handler(e), cb, hw))
  }

  // ---------- STARTED ----------

  function Request(handler: Handler, cb: ControlBlock, hw: Registers): Effect {
    if cb.secondary.Buf? then Nothing(cb, hw) else Called(BufReq, handler, cb, hw)
  }

  /** After READY: the internal timer, the started state, a next buffer if there is one. */
  function MarkStarted(cb: ControlBlock, hw: Registers): Effect {
    var h := if hw.continuous then hw.(sampleTasks := hw.sampleTasks + 1) else hw;
    Effect(cb.(state := AdvModeSampleStarted), if cb.secondary.Buf? then h.WithBuffer(cb.secondary, false) else h, [])
  }

  function FirstStart(handler: Handler, cb: ControlBlock, hw: Registers): Effect {
    var e := Called(Ready, handler, cb, hw);
    Then(e, MarkStarted(e.cb, e.hw))
  }

  function OnStarted(handler: Handler, cb: ControlBlock, hw: Registers): Effect {
    match cb.state
    case AdvModeSample =>
      var e := FirstStart(handler, cb, hw);
      Then(e, Request(handler, e.cb, e.hw))
    case AdvModeSampleStarted => Request(handler, cb, hw)
    case SimpleModeSample => Nothing(cb, hw.(sampleTasks := hw.sampleTasks + 1))
    case Calibration => Nothing(cb, hw.(stopTasks := hw.stopTasks + 1))
    case _ => Nothing(cb, hw)
  }

  // ---------- END ----------

  /** START once more if start-on-end is set and the next buffer is already there. */
  function Latched(cb: ControlBlock, hw: Registers): Registers {
    if cb.startOnEnd && cb.secondary.Buf?
    then hw.(latched := hw.programmed, started := hw.started + [hw.programmed]) else hw
  }

  function Reporting(handler: Handler, cb: ControlBlock, hw: Registers): Effect {
    Called(Done(cb.primary), handler, cb, Latched(cb, hw))
  }

  /** The queue moves up; when it is empty the run is over. */
  function MoveUp(handler: Handler, cb: ControlBlock, hw: Registers): Effect {
    if cb.secondary.Buf? then Nothing(cb.(primary := cb.secondary, secondary := Null), hw)
    else Called(Finished, handler, cb.(primary := Null, secondary := Null, state := AdvMode),
                hw.(enabled := false))
  }

  function RunEnd(handler: Handler, cb: ControlBlock, hw: Registers): Effect {
    var e := Reporting(handler, cb, hw);
    Then(e, MoveUp(handler, e.cb, e.hw))
  }

  /** Back to what was before the calibration. */
  function Restored(cb: ControlBlock): ControlBlock { cb.(state := cb.statePrev) }

  function RestoredHw(cb: ControlBlock, hw: Registers): Registers {
    hw.(enabled := false, inten := ModeInts(Restored(cb)))
  }

  function CalibrationSnap(cb: ControlBlock): Snapshot { Restored(cb).Snap(ModeInts(Restored(cb))) }

  function OnEnd(handler: Handler, cb: ControlBlock, hw: Registers): Effect {
    match cb.state
    case SimpleModeSample =>
      Called(SimpleDone(cb.primary), handler, cb.(state := SimpleMode), hw.(enabled := false))
    case AdvModeSampleStarted => RunEnd(handler, cb, hw)
    case Calibration => Called(CalibDone(CalibrationSnap(cb)), handler, Restored(cb), RestoredHw(cb, hw))
    case _ => Nothing(cb, hw)
  }

  // ---------- STOPPED and CALIBRATEDONE ----------

  function OnStopped(amount: nat, cb: ControlBlock, hw: Registers): Effect {
    if !cb.state.Calibration? then Effect(StoppedBlock(cb, amount), hw, [Stopped(amount)])
    else if hw.inten.calibrated
    then Effect(Restored(cb), RestoredHw(cb, hw), [CalibAborted(CalibrationSnap(cb))])
    else Nothing(cb, hw)
  }

  function OnCalibrated(cb: ControlBlock, hw: Registers): Effect {
    Effect(cb, hw.(inten := hw.inten.(calibrated := false)).WithBuffer(CALIB_BUFFER, true), [Calibrated])
  }

  // ---------- limits ----------

  /** Whether every limit was reported, and the effect up to there. */
  datatype Reports = Reports(ok: bool, effect: Effect)

  function Before(e: Effect, r: Reports): Reports { Reports(r.ok, Then(e, r.effect)) }

  /** The limits from bit on, in order, until one finds no handler. */
  function OnLimits(bit: nat, bits: set<nat>, handler: Handler, cb: ControlBlock, hw: Registers): Reports
    decreases 16 - bit
  {
    if bit >= 16 then Reports(true, Nothing(cb, hw))
    else if bit !in bits then OnLimits(bit + 1, bits, handler, cb, hw)
    else if !cb.eventHandler then Reports(false, Nothing(cb, hw))
    else
      var e := Called(LimitEntry(bit), handler, cb, hw);
      Before(e, OnLimits(bit + 1, bits, handler, e.cb, e.hw))
  }

  function AllLimits(raised: set<nat>, handler: Handler, cb: ControlBlock, hw: Registers): Reports {
    if cb.state.Calibration? then Reports(true, Nothing(cb, hw))
    else OnLimits(0, raised * EnabledLimits(hw.inten), handler, cb, hw)
  }

  // ---------- the interrupt ----------

  function EndPart(irq: Irq, cb: ControlBlock, hw: Registers): Effect {
    if irq.end then OnEnd(irq.handler, cb, hw) else Nothing(cb, hw)
  }

  function StartedPart(irq: Irq, cb: ControlBlock, hw: Registers): Effect {
    if irq.started then OnStarted(irq.handler, cb, hw) else Nothing(cb, hw)
  }

  /** STARTED and the limits. */
  function OnRest(irq: Irq, cb: ControlBlock, hw: Registers): Reports {
    var e := StartedPart(irq, cb, hw);
    Before(e, AllLimits(irq.limits, irq.handler, e.cb, e.hw))
  }

  /** END, STARTED and the limits. */
  function OnTail(irq: Irq, cb: ControlBlock, hw: Registers): Reports {
    var e := EndPart(irq, cb, hw);
    Before(e, OnRest(irq, e.cb, e.hw))
  }

  function CalibratedPart(irq: Irq, cb: ControlBlock, hw: Registers): Effect {
    if irq.calibrated then OnCalibrated(cb, hw) else Nothing(cb, hw)
  }

  function StoppedPart(irq: Irq, cb: ControlBlock, hw: Registers): Effect {
    if irq.stopped then OnStopped(irq.amount, cb, hw) else Nothing(cb, hw)
  }

  /** STOPPED and what comes after it. */
  function OnLater(irq: Irq, cb: ControlBlock, hw: Registers): Reports {
    var e := StoppedPart(irq, cb, hw);
    Before(e, OnTail(irq, e.cb, e.hw))
  }

  function OnIrq(irq: Irq, cb: ControlBlock, hw: Registers): Reports {
    var e := CalibratedPart(irq, cb, hw);
    Before(e, OnLater(irq, e.cb, e.hw))
  }

  // ---------- what the user sees of one event ----------

  /** READY comes first; then the run is started, and a next buffer that was supplied early or in
      the callback is programmed. */
  lemma FirstStartFacts(handler: Handler, cb: ControlBlock, hw: Registers)
    requires Attended(cb) && cb.state.AdvModeSample?
    ensures var e := FirstStart(handler, cb, hw);
      && e.entries != [] && e.entries[0] == Ready && AllQuiet(e.entries[1..])
      && e.cb == cb.(state := AdvModeSampleStarted, secondary := e.cb.secondary,
                     limitsLow := e.cb.limitsLow, limitsHigh := e.cb.limitsHigh)
      && (cb.secondary.Buf? ==> e.cb.secondary == cb.secondary)
      && (e.cb.secondary.Buf? ==> e.hw.programmed == e.cb.secondary)
      && e.hw.latched == hw.latched && e.hw.started == hw.started
      && e.hw.sampleTasks == hw.sampleTasks + if hw.continuous then 1 else 0
  {
    Harmlessly(handler(Ready), cb, hw);
  }

  /** What STARTED promises: READY first on a new run; BUF_REQ exactly when there is no next buffer,
      after READY as well as later. */
  ghost predicate StartedPromise(handler: Handler, cb: ControlBlock, hw: Registers, e: Effect) {
    match cb.state
    case AdvModeSampleStarted =>
      if cb.secondary.Buf? then e == Nothing(cb, hw)
      else e.entries != [] && e.entries[0] == BufReq && SamplingFrame(cb, hw, e.cb, e.hw)
    case AdvModeSample =>
      && e.entries != [] && e.entries[0] == Ready && e.cb.state.AdvModeSampleStarted?
      && (BufReq in e.entries <==> FirstStart(handler, cb, hw).cb.secondary.Null?)
      && (e.cb.secondary.Null? ==> BufReq in e.entries)
    case SimpleModeSample => e == Effect(cb, hw.(sampleTasks := hw.sampleTasks + 1), [])
    case Calibration => e == Effect(cb, hw.(stopTasks := hw.stopTasks + 1), [])
    case _ => e == Effect(cb, hw, [])
  }

  lemma StartedFacts(handler: Handler, cb: ControlBlock, hw: Registers)
    requires Attended(cb)
    ensures StartedPromise(handler, cb, hw, OnStarted(handler, cb, hw))
  {
    if cb.state.AdvModeSample? {
      FirstStartFacts(handler, cb, hw);
      var e := FirstStart(handler, cb, hw);
      assert forall i | 1 <= i < |e.entries| :: e.entries[i] == e.entries[1..][i-1];
      Harmlessly(handler(BufReq), e.cb, e.hw);
      if e.cb.secondary.Null? {
        assert OnStarted(handler, cb, hw).entries[|e.entries|] == BufReq;
      }
    } else if cb.state.AdvModeSampleStarted? {
      Harmlessly(handler(BufReq), cb, hw);
    }
  }

  /** DONE, then nothing but aborts asked for by its callback, then FINISHED. */
  predicate FinishesAfter(d: Entry, handler: Handler, entries: seq<Entry>) {
    exists n: nat :: n + 1 < |entries| && FinishesAt(d, handler, entries, n)
  }

  predicate FinishesAt(d: Entry, handler: Handler, entries: seq<Entry>, n: nat)
    requires n + 1 < |entries|
  {
    && entries[0] == d && AllAborts(entries[1..n+1]) && entries[n+1] == Finished
    && (!Aborts(handler(d)) ==> n == 0)
  }

  /** What END promises: its first callback, what becomes of the queue, and when FINISHED follows. */
  ghost predicate EndPromise(handler: Handler, cb: ControlBlock, hw: Registers, e: Effect) {
    match cb.state
    case SimpleModeSample =>
      var d := SimpleDone(cb.primary);
      && e.entries != [] && e.entries[0] == d
      && (handler(d) == [] ==> e == Effect(cb.(state := SimpleMode), hw.(enabled := false), [d]))
      && (handler(d) == [CallModeTrigger] && cb.primary.Buf? && cb.eventHandler ==>
            && e.cb == cb && e.hw.enabled && e.entries == [d]
            && e.hw.latched == cb.primary && e.hw.started == hw.started + [cb.primary])
    case AdvModeSampleStarted =>
      var d := Done(cb.primary);
      && e.entries != [] && e.entries[0] == d
      && (cb.secondary.Buf? ==>
            && e.cb == cb.(primary := cb.secondary, secondary := Null,
                           limitsLow := e.cb.limitsLow, limitsHigh := e.cb.limitsHigh)
            && AllAborts(e.entries[1..]) && (!Aborts(handler(d)) ==> e.entries == [d])
            && e.hw.latched == if cb.startOnEnd then hw.programmed else hw.latched)
      && (cb.secondary.Null? && !AddsBuffer(handler(d)) ==> FinishesAfter(d, handler, e.entries))
    case Calibration =>
      var d := CalibDone(CalibrationSnap(cb));
      && e.entries != [] && e.entries[0] == d
      && (handler(d) == [] ==> e.cb == cb.(state := cb.statePrev) && !e.hw.enabled && e.entries == [d])
    case _ => e == Nothing(cb, hw)
  }

  lemma EndFacts(handler: Handler, cb: ControlBlock, hw: Registers)
    requires Attended(cb)
    ensures EndPromise(handler, cb, hw, OnEnd(handler, cb, hw))
  {
    if cb.state.AdvModeSampleStarted? {
      RunEndFacts(handler, cb, hw);
    } else if cb.state.SimpleModeSample? {
      OneCall(CallModeTrigger, cb.(state := SimpleMode), hw.(enabled := false));
    }
  }

  lemma RunEndFacts(handler: Handler, cb: ControlBlock, hw: Registers)
    requires Attended(cb) && cb.state.AdvModeSampleStarted?
    ensures var e, d := RunEnd(handler, cb, hw), Done(cb.primary);
      && e.entries != [] && e.entries[0] == d
      && (cb.secondary.Buf? ==>
            && e.cb == cb.(primary := cb.secondary, secondary := Null,
                           limitsLow := e.cb.limitsLow, limitsHigh := e.cb.limitsHigh)
            && AllAborts(e.entries[1..]) && (!Aborts(handler(d)) ==> e.entries == [d])
            && e.hw.latched == if cb.startOnEnd then hw.programmed else hw.latched)
      && (cb.secondary.Null? && !AddsBuffer(handler(d)) ==> FinishesAfter(d, handler, e.entries))
  {
    var d, e := Done(cb.primary), RunEnd(handler, cb, hw);
    var calls := PerformAll(handler(d), cb, Latched(cb, hw));
    Harmlessly(handler(d), cb, Latched(cb, hw));
    NothingAdded(handler(d), cb, Latched(cb, hw));
    if cb.secondary.Buf? {
      assert e.entries == [d] + calls.entries;
      if !Aborts(handler(d)) { SlotTaken(handler(d), cb, Latched(cb, hw)); }
    } else if !AddsBuffer(handler(d)) {
      var n := |calls.entries|;
      assert e.entries[1..n+1] == calls.entries && e.entries[n+1] == Finished;
      assert FinishesAt(d, handler, e.entries, n);
    }
  }

  /** What the first two branches of the interrupt do. CALIBRATEDONE is logged, its interrupt disabled
      and the scratch buffer latched by a START; nothing else changes. STOPPED cuts the waiting buffer
      and drops the next one in every state outside a calibration; a calibration it ends only before
      CALIBRATEDONE, without a callback. The rest of the interrupt works on what is left. */
  lemma IrqFacts(irq: Irq, cb: ControlBlock, hw: Registers)
    ensures irq.calibrated ==>
      OnIrq(irq, cb, hw) == var h := hw.(inten := hw.inten.(calibrated := false), programmed := CALIB_BUFFER,
                                         latched := CALIB_BUFFER, started := hw.started + [CALIB_BUFFER]);
                            Before(Effect(cb, h, [Calibrated]), OnLater(irq, cb, h))
    ensures !irq.calibrated ==> OnIrq(irq, cb, hw) == OnLater(irq, cb, hw)
    ensures !irq.stopped || (cb.state.Calibration? && !hw.inten.calibrated) ==>
      OnLater(irq, cb, hw) == OnTail(irq, cb, hw)
    ensures irq.stopped && !cb.state.Calibration? ==>
      OnLater(irq, cb, hw) == var p := if cb.primary.Buf? then Buf(cb.primary.addr, irq.amount) else Null;
                              var c := cb.(primary := p, secondary := Null);
                              Before(Effect(c, hw, [Stopped(irq.amount)]), OnTail(irq, c, hw))
    ensures irq.stopped && cb.state.Calibration? && hw.inten.calibrated ==>
      var r := OnLater(irq, cb, hw).effect;
      r.entries != [] && r.entries[0] == CalibAborted(CalibrationSnap(cb))
  {
    var t, u := OnTail(irq, cb, hw), OnLater(irq, cb, hw);
    assert Before(Nothing(cb, hw), t) == t && Before(Nothing(cb, hw), u) == u;
  }

  /** The other three branches, in order: END, STARTED on what END left, the limits on what both left. */
  lemma TailFacts(irq: Irq, cb: ControlBlock, hw: Registers)
    ensures irq.end && irq.started ==>
      var e := OnEnd(irq.handler, cb, hw);
      var f := OnStarted(irq.handler, e.cb, e.hw);
      OnTail(irq, cb, hw) == Before(Then(e, f), AllLimits(irq.limits, irq.handler, f.cb, f.hw))
    ensures irq.end && !irq.started ==>
      var e := OnEnd(irq.handler, cb, hw);
      OnTail(irq, cb, hw) == Before(e, AllLimits(irq.limits, irq.handler, e.cb, e.hw))
    ensures !irq.end && irq.started ==>
      var f := OnStarted(irq.handler, cb, hw);
      OnTail(irq, cb, hw) == Before(f, AllLimits(irq.limits, irq.handler, f.cb, f.hw))
    ensures !irq.end && !irq.started ==> OnTail(irq, cb, hw) == AllLimits(irq.limits, irq.handler, cb, hw)
    ensures cb.state.Calibration? && !irq.end ==>
      OnTail(irq, cb, hw).effect.cb == cb && OnTail(irq, cb, hw).effect.entries == []
  {
    var e := EndPart(irq, cb, hw);
    var f := StartedPart(irq, e.cb, e.hw);
    var r := AllLimits(irq.limits, irq.handler, f.cb, f.hw);
    InTurn(e, f, r);
    if !irq.end { InTurn(Nothing(cb, hw), f, r); }
    if !irq.started { InTurn(e, Nothing(e.cb, e.hw), r); }
  }

  lemma InTurn(e: Effect, f: Effect, r: Reports)
    ensures Before(e, Before(f, r)) == Before(Then(e, f), r)
    ensures f.entries == [] && f.cb == e.cb && f.hw == e.hw ==> Before(f, r) == r && Then(e, f) == e
    ensures e.entries == [] ==> Then(e, f) == f && Before(e, Before(f, r)) == Before(f, r)
  {
    assert Before(e, Before(f, r)).effect.entries == Before(Then(e, f), r).effect.entries;
  }

  /** One part of the interrupt and then the others. */
  lemma InSequence(e: Effect, r: Reports, l0: seq<Entry>, l1: seq<Entry>,
                   cb: ControlBlock, hw: Registers, l2: seq<Entry>)
    requires l1 == l0 + e.entries && Became(r.effect, l1, cb, hw, l2)
    ensures Became(Before(e, r).effect, l0, cb, hw, l2)
  {
    assert (l0 + e.entries) + r.effect.entries == l0 + (e.entries + r.effect.entries);
  }

  // ---------- start-on-end ----------

  /** END gives START exactly when start-on-end is set and the next buffer was there before; then
      the buffer taken over is the one programmed. No callback of DONE gives a START. */
  lemma LatchExactly(handler: Handler, cb: ControlBlock, hw: Registers)
    requires Attended(cb) && cb.state.AdvModeSampleStarted?
    ensures var e := Reporting(handler, cb, hw);
      && (e.hw.started == hw.started + [hw.programmed] <==> cb.startOnEnd && cb.secondary.Buf?)
      && (e.hw.started == hw.started <==> !(cb.startOnEnd && cb.secondary.Buf?))
      && e.hw.latched == if cb.startOnEnd && cb.secondary.Buf? then hw.programmed else hw.latched
  {
    Harmlessly(handler(Done(cb.primary)), cb, Latched(cb, hw));
  }

  /** A run goes on after END exactly when there is a next buffer after the callback of DONE. With
      start-on-end it was started again exactly when that buffer was there before the callback. */
  lemma GoesOn(handler: Handler, cb: ControlBlock, hw: Registers)
    requires Attended(cb) && cb.state.AdvModeSampleStarted?
    ensures var c, e := Reporting(handler, cb, hw).cb, RunEnd(handler, cb, hw);
      && (e.cb.state.AdvModeSampleStarted? <==> c.secondary.Buf?)
      && (c.secondary.Buf? ==> e.cb.primary == c.secondary && e.cb.secondary.Null?)
      && (c.secondary.Buf? ==>
            (e.hw.started == hw.started + [hw.programmed] <==> cb.startOnEnd && cb.secondary.Buf?))
  {
    var d := Reporting(handler, cb, hw);
    LatchExactly(handler, cb, hw);
    Harmlessly(handler(Done(cb.primary)), cb, Latched(cb, hw));
    if d.cb.secondary.Null? {
      var c := d.cb.(primary := Null, secondary := Null, state := AdvMode);
      Harmlessly(handler(Finished), c, d.hw.(enabled := false));
    }
  }

  /** A buffer supplied only in the callback of DONE is programmed and becomes the primary one,
      and the run goes on, but no START has taken it over. */
  lemma LateBuffer(handler: Handler, cb: ControlBlock, hw: Registers, b: Buffer)
    requires cb.state.AdvModeSampleStarted? && cb.startOnEnd && cb.primary.Buf? && cb.secondary.Null?
    requires b.Buf? && TakesBuffer(cb, b.length, true)
    requires handler(Done(cb.primary)) == [CallBufferSet(b.addr, b.length, true)]
    ensures RunEnd(handler, cb, hw)
         == Effect(cb.(primary := b, secondary := Null), hw.(programmed := b), [Done(cb.primary), Accepted(b)])
  {
    OneCall(CallBufferSet(b.addr, b.length, true), cb, hw);
  }

  // ---------- limits without a handler ----------

  lemma LimitsInjective(b: nat, c: nat)
    requires LimitEntry(b) == LimitEntry(c)
    ensures b == c
  {
  }

  predicate AllReported(bit: nat, bits: set<nat>, entries: seq<Entry>) {
    forall b | b in bits && b >= bit :: LimitEntry(b) in entries
  }

  /** Callbacks of other limits and what they call do not report this one. */
  lemma ReportedLater(bit: nat, b: nat, calls: seq<Entry>, rest: seq<Entry>)
    requires b != bit && NoCallbacks(calls)
    ensures LimitEntry(b) in [LimitEntry(bit)] + calls + rest <==> LimitEntry(b) in rest
  {
    if LimitEntry(b) == LimitEntry(bit) { LimitsInjective(b, bit); }
    forall i | 0 <= i < |calls| ensures calls[i] != LimitEntry(b) {
      assert !IsCallback(calls[i]);
    }
  }

  lemma ReportedFromHere(bit: nat, bits: set<nat>, calls: seq<Entry>, rest: seq<Entry>)
    requires bit in bits && NoCallbacks(calls)
    ensures AllReported(bit, bits, [LimitEntry(bit)] + calls + rest) <==> AllReported(bit + 1, bits, rest)
  {
    var all := [LimitEntry(bit)] + calls + rest;
    assert all[0] == LimitEntry(bit);
    forall b | b in bits && b > bit ensures LimitEntry(b) in all <==> LimitEntry(b) in rest {
      ReportedLater(bit, b, calls, rest);
    }
  }

  /** The limits are all right exactly when every one raised and enabled is reported. */
  lemma {:induction false} OkIsReported(bit: nat, bits: set<nat>, handler: Handler, cb: ControlBlock, hw: Registers)
    requires Attended(cb) && forall b | b in bits :: b < 16
    ensures var r := OnLimits(bit, bits, handler, cb, hw);
      Attended(r.effect.cb) && (r.ok <==> AllReported(bit, bits, r.effect.entries))
    decreases 16 - bit
  {
    var r := OnLimits(bit, bits, handler, cb, hw);
    if bit >= 16 {
    } else if bit !in bits {
      OkIsReported(bit + 1, bits, handler, cb, hw);
    } else if !cb.eventHandler {
      assert LimitEntry(bit) !in r.effect.entries;
    } else {
      var e := Called(LimitEntry(bit), handler, cb, hw);
      var calls := PerformAll(handler(LimitEntry(bit)), cb, hw).entries;
      var t := OnLimits(bit + 1, bits, handler, e.cb, e.hw);
      Harmlessly(handler(LimitEntry(bit)), cb, hw);
      OkIsReported(bit + 1, bits, handler, e.cb, e.hw);
      assert r.effect.entries == [LimitEntry(bit)] + calls + t.effect.entries;
      ReportedFromHere(bit, bits, calls, t.effect.entries);
    }
  }

  /** Where the limits of a channel are among the interrupts, and what the user is told of them. */
  lemma BitPositions(c: nat, i: Ints)
    requires c < 8
    ensures 2 * c in EnabledLimits(i) <==> c in i.high
    ensures 2 * c + 1 in EnabledLimits(i) <==> c in i.low
    ensures LimitEntry(2 * c) == Limit(c, true) && LimitEntry(2 * c + 1) == Limit(c, false)
  {
  }

  /** A limit reported was raised, and enabled for that channel and kind. */
  predicate Genuine(e: Entry, raised: set<nat>, i: Ints) {
    e.Limit? ==>
      if e.high then e.channel in i.high && 2 * e.channel in raised
      else e.channel in i.low && 2 * e.channel + 1 in raised
  }

  predicate AllGenuine(entries: seq<Entry>, raised: set<nat>, i: Ints) {
    forall k | 0 <= k < |entries| :: Genuine(entries[k], raised, i)
  }

  /** Both limits of a channel are reported if raised and enabled. */
  predicate ToldOf(c: nat, entries: seq<Entry>, raised: set<nat>, i: Ints) {
    && (c in i.high && 2 * c in raised ==> Limit(c, true) in entries)
    && (c in i.low && 2 * c + 1 in raised ==> Limit(c, false) in entries)
  }

  predicate AllTold(entries: seq<Entry>, raised: set<nat>, i: Ints) {
    forall c: nat | c < 8 :: ToldOf(c, entries, raised, i)
  }

  predicate IsOneOf(e: Entry, bits: set<nat>) { e.Limit? ==> exists b :: b in bits && e == LimitEntry(b) }

  predicate AllOneOf(entries: seq<Entry>, bits: set<nat>) {
    forall k | 0 <= k < |entries| :: IsOneOf(entries[k], bits)
  }

  lemma OneOfThree(bit: nat, calls: seq<Entry>, rest: seq<Entry>, bits: set<nat>)
    requires bit in bits && NoCallbacks(calls) && AllOneOf(rest, bits)
    ensures AllOneOf([LimitEntry(bit)] + calls + rest, bits)
  {
    var all := [LimitEntry(bit)] + calls + rest;
    forall k | 0 <= k < |all| ensures IsOneOf(all[k], bits) {
      if 0 < k <= |calls| {
        assert all[k] == calls[k-1] && !IsCallback(calls[k-1]);
      } else if k > |calls| {
        assert all[k] == rest[k - 1 - |calls|] && IsOneOf(rest[k - 1 - |calls|], bits);
      }
    }
  }

  lemma {:induction false} OnlyThese(bit: nat, bits: set<nat>, handler: Handler, cb: ControlBlock, hw: Registers)
    requires Attended(cb)
    ensures AllOneOf(OnLimits(bit, bits, handler, cb, hw).effect.entries, bits)
    decreases 16 - bit
  {
    if bit < 16 {
      if bit !in bits {
        OnlyThese(bit + 1, bits, handler, cb, hw);
      } else if cb.eventHandler {
        var e := Called(LimitEntry(bit), handler, cb, hw);
        var calls := PerformAll(handler(LimitEntry(bit)), cb, hw).entries;
        var t := OnLimits(bit + 1, bits, handler, e.cb, e.hw).effect.entries;
        Harmlessly(handler(LimitEntry(bit)), cb, hw);
        OnlyThese(bit + 1, bits, handler, e.cb, e.hw);
        OneOfThree(bit, calls, t, bits);
        assert OnLimits(bit, bits, handler, cb, hw).effect.entries == [LimitEntry(bit)] + calls + t;
      }
    }
  }

  /** In terms of channels and the interrupt mask: nothing is reported that was not raised and
      enabled, and the outcome is right exactly when nothing that was is missing. */
  lemma HonestLimits(raised: set<nat>, handler: Handler, cb: ControlBlock, hw: Registers)
    requires Attended(cb) && !cb.state.Calibration?
    ensures var r := AllLimits(raised, handler, cb, hw);
      && AllGenuine(r.effect.entries, raised, hw.inten)
      && (r.ok <==> AllTold(r.effect.entries, raised, hw.inten))
  {
    var bits := raised * EnabledLimits(hw.inten);
    var r := OnLimits(0, bits, handler, cb, hw);
    OnlyThese(0, bits, handler, cb, hw);
    OkIsReported(0, bits, handler, cb, hw);
    forall k | 0 <= k < |r.effect.entries| ensures Genuine(r.effect.entries[k], raised, hw.inten) {
      assert IsOneOf(r.effect.entries[k], bits);
    }
    forall c: nat | c < 8
      ensures ToldOf(c, r.effect.entries, raised, hw.inten) <==>
        && (2 * c in bits ==> LimitEntry(2 * c) in r.effect.entries)
        && (2 * c + 1 in bits ==> LimitEntry(2 * c + 1) in r.effect.entries)
    {
      BitPositions(c, hw.inten);
    }
    if AllTold(r.effect.entries, raised, hw.inten) {
      forall b | b in bits ensures LimitEntry(b) in r.effect.entries {
        assert ToldOf(b / 2, r.effect.entries, raised, hw.inten);
      }
    }
  }

  /** During a conversion no callback can take the handler away. */
  lemma {:induction false} SamplingOk(bit: nat, bits: set<nat>, handler: Handler, cb: ControlBlock, hw: Registers)
    requires Attended(cb) && cb.Sampling()
    ensures OnLimits(bit, bits, handler, cb, hw).ok
    decreases 16 - bit
  {
    if bit < 16 {
      if bit !in bits {
        SamplingOk(bit + 1, bits, handler, cb, hw);
      } else {
        var e := Called(LimitEntry(bit), handler, cb, hw);
        Harmlessly(handler(LimitEntry(bit)), cb, hw);
        SamplingOk(bit + 1, bits, handler, e.cb, e.hw);
      }
    }
  }

  /** Every callback but the last keeps the handler. */
  predicate AllButLastKeep(bit: nat, bits: set<nat>, handler: Handler) {
    forall b, c | b in bits && c in bits && bit <= b < c :: KeepsHandler(handler(LimitEntry(b)))
  }

  lemma {:induction false} KeepingOk(bit: nat, bits: set<nat>, handler: Handler, cb: ControlBlock, hw: Registers)
    requires Attended(cb) && AllButLastKeep(bit, bits, handler)
    requires (exists b :: b in bits && b >= bit) ==> cb.eventHandler
    ensures OnLimits(bit, bits, handler, cb, hw).ok
    decreases 16 - bit
  {
    if bit < 16 {
      if bit !in bits {
        KeepingOk(bit + 1, bits, handler, cb, hw);
      } else {
        var e := Called(LimitEntry(bit), handler, cb, hw);
        Harmlessly(handler(LimitEntry(bit)), cb, hw);
        assert (exists c :: c in bits && c > bit) ==> KeepsHandler(handler(LimitEntry(bit)));
        KeepingOk(bit + 1, bits, handler, e.cb, e.hw);
      }
    }
  }

  /** The bits still to come. */
  function Onward(bit: nat, bits: set<nat>): set<nat> { set b | b in bits && b >= bit }

  /** All of it is what was done so far and what is left. */
  predicate SoFar(all: Reports, entries: seq<Entry>, left: Reports) {
    && all.ok == left.ok && all.effect.cb == left.effect.cb && all.effect.hw == left.effect.hw
    && all.effect.entries == entries + left.effect.entries
  }

  lemma OneLimit(bit: nat, bits: set<nat>, handler: Handler, cb: ControlBlock, hw: Registers,
                 all: Reports, entries: seq<Entry>)
    requires bit < 16 && bit in bits && cb.eventHandler
    requires SoFar(all, entries, OnLimits(bit, bits, handler, cb, hw))
    ensures var e := Called(LimitEntry(bit), handler, cb, hw);
            SoFar(all, entries + e.entries, OnLimits(bit + 1, bits, handler, e.cb, e.hw))
  {
    var e := Called(LimitEntry(bit), handler, cb, hw);
    var r := OnLimits(bit + 1, bits, handler, e.cb, e.hw);
    assert OnLimits(bit, bits, handler, cb, hw) == Before(e, r);
    assert entries + (e.entries + r.effect.entries) == (entries + e.entries) + r.effect.entries;
  }

  lemma {:induction false} NoneBetween(bit: nat, next: nat, bits: set<nat>, handler: Handler,
                                       cb: ControlBlock, hw: Registers)
    requires bit <= next <= 16 && forall b | bit <= b < next :: b !in bits
    ensures OnLimits(bit, bits, handler, cb, hw) == OnLimits(next, bits, handler, cb, hw)
    decreases next - bit
  {
    if bit < next { NoneBetween(bit + 1, next, bits, handler, cb, hw); }
  }

  lemma NoneLeft(bit: nat, bits: set<nat>, handler: Handler, cb: ControlBlock, hw: Registers)
    requires bit <= 16 && Onward(bit, bits) == {}
    ensures OnLimits(bit, bits, handler, cb, hw) == Reports(true, Nothing(cb, hw))
  {
    forall b | bit <= b < 16 ensures b !in bits { assert b !in Onward(bit, bits); }
    NoneBetween(bit, 16, bits, handler, cb, hw);
  }

  /** Failing means that the handler is gone. */
  lemma {:induction false} FailedWithout(bit: nat, bits: set<nat>, handler: Handler, cb: ControlBlock, hw: Registers)
    ensures var r := OnLimits(bit, bits, handler, cb, hw); !r.ok ==> !r.effect.cb.eventHandler
    decreases 16 - bit
  {
    if bit < 16 {
      if bit in bits && cb.eventHandler {
        var e := Called(LimitEntry(bit), handler, cb, hw);
        FailedWithout(bit + 1, bits, handler, e.cb, e.hw);
      } else if bit !in bits {
        FailedWithout(bit + 1, bits, handler, cb, hw);
      }
    }
  }

  lemma LimitsFacts(bits: set<nat>, handler: Handler, cb: ControlBlock, hw: Registers)
    requires Attended(cb) && (forall b | b in bits :: b < 16) && (bits != {} ==> cb.eventHandler)
    ensures var r := OnLimits(0, bits, handler, cb, hw);
      && (r.ok <==> AllReported(0, bits, r.effect.entries))
      && (!r.ok ==> !r.effect.cb.eventHandler)
      && (cb.Sampling() ==> r.ok)
      && (AllButLastKeep(0, bits, handler) ==> r.ok)
  {
    OkIsReported(0, bits, handler, cb, hw);
    FailedWithout(0, bits, handler, cb, hw);
    if cb.Sampling() { SamplingOk(0, bits, handler, cb, hw); }
    if AllButLastKeep(0, bits, handler) { KeepingOk(0, bits, handler, cb, hw); }
  }

  /** Outside a conversion, when both limits of two channels fire and the first callback switches
      to blocking operation, the second finds no handler. */
  lemma LostLimit(handler: Handler, cb: ControlBlock, hw: Registers)
    requires cb.state.SimpleMode? && cb.eventHandler && 0 in cb.channelsConfigured
    requires handler(LimitEntry(0)) == [CallSimpleModeSet({0}, 1, false)]
    ensures !OnLimits(0, {0, 2}, handler, cb, hw).ok
    ensures OnLimits(0, {0, 2}, handler, cb, hw).effect.entries == [LimitEntry(0), ModeSet]
  {
    var call := CallSimpleModeSet({0}, 1, false);
    OneCall(call, cb, hw);
    assert CanSetMode({0}, cb);
    var e := Called(LimitEntry(0), handler, cb, hw);
    assert !e.cb.eventHandler;
    assert !OnLimits(2, {0, 2}, handler, e.cb, e.hw).ok;
    assert OnLimits(1, {0, 2}, handler, e.cb, e.hw) == OnLimits(2, {0, 2}, handler, e.cb, e.hw);
  }
}
