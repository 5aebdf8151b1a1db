/** The SAADC driver's control block and registers, and the invariant that ties them to
    each other and to the history of the run. */
module SaadcState {
  import opened SaadcHistory

  datatype Err =
    | Success | Busy | NoMem | InvalidState | InvalidParam | InvalidAddr | InvalidLength
    | Already | NotSupported | Forbidden

  type Positive = n: nat | n > 0 witness 1

  const CHANNELS: set<nat> := set c: nat | c < 8
  const MAX_COUNT: nat := 0x7fff
  const INT16_MIN: int := -0x8000
  const INT16_MAX: int := 0x7fff

  const NO_INTS := Ints(false, false, false, false, {}, {})

  /** The peripheral: interrupt enables, ENABLE, continuous mode, samples per oversampled
      result, the buffer last written to RESULT.PTR, the buffer the last START task took over,
      the SAMPLE and STOP tasks triggered so far, and the buffers START tasks took over, in order. */
  datatype Registers = Registers(inten: Ints, enabled: bool, continuous: bool, oversample: Positive,
                                 programmed: Buffer, latched: Buffer,
                                 sampleTasks: nat, stopTasks: nat, started: seq<Buffer>)
  {
    /** After nrfy_saadc_buffer_set. */
    function WithBuffer(b: Buffer, start: bool): Registers {
      if start then this.(programmed := b, latched := b, started := started + [b])
      else this.(programmed := b)
    }
  }

  /** The scratch buffer calib_samples of the control block. */
  const CALIB_BUFFER := Buf(-1, 2)

  /** Where a user callback is running inside an event handler, if anywhere. */
  datatype Site = Outside | InReady | InDone

  /** nrfx_saadc_cb_t; channel masks as sets of channel numbers, handlers by presence. */
  datatype ControlBlock = ControlBlock(
    eventHandler: bool, calibEventHandler: bool,
    primary: Buffer, secondary: Buffer, samplesConverted: nat,
    state: State, statePrev: State,
    channelsConfigured: set<nat>, channelsActivated: set<nat>, channelsActivatedCount: nat,
    limitsLow: set<nat>, limitsHigh: set<nat>,
    startOnEnd: bool, oversamplingWithoutBurst: bool)
  {
    function Mode(): State {
      if state.Calibration? then statePrev else state
    }

    predicate Sampling() {
      state.SimpleModeSample? || state.AdvModeSample? || state.AdvModeSampleStarted?
    }

    predicate Busy() {
      !(state.Idle? || state.AdvMode? || state.SimpleMode?)
    }

    predicate Advanced() {
      Mode().AdvMode? || Mode().AdvModeSample? || Mode().AdvModeSampleStarted?
    }

    predicate AdvancedBlocking() {
      Mode().AdvMode? && !eventHandler
    }

    /** Accepted buffers not yet reported, in order. */
    function Outstanding(site: Site): seq<Buffer> {
      if !Advanced() then []
      else if site.InDone? then AsQueue(secondary)
      else AsQueue(primary) + AsQueue(secondary)
    }

    function PhaseNow(site: Site): Phase {
      if state.AdvModeSample? then (if site.InReady? then Running else Armed)
      else if state.AdvModeSampleStarted? then
        (if site.InDone? && secondary.Null? then Emptied else Running)
      else Off
    }

    function Snap(inten: Ints): Snapshot {
      Snapshot(Mode(), primary, secondary, eventHandler, channelsConfigured, channelsActivated,
               channelsActivatedCount, limitsLow, limitsHigh, samplesConverted, startOnEnd,
               oversamplingWithoutBurst, inten)
    }

    ghost predicate BuffersOk() {
      && (secondary.Buf? ==> primary.Buf?)
      && (Mode().Idle? ==> primary.Null?)
      && (!Advanced() ==> secondary.Null?)
      && (Sampling() ==> primary.Buf? && eventHandler)
      && (!AdvancedBlocking() ==> samplesConverted == 0)
      && (AdvancedBlocking() ==>
            && BlockSized(primary, channelsActivatedCount)
            && BlockSized(secondary, channelsActivatedCount)
            && samplesConverted % channelsActivatedCount == 0
            && (if primary.Buf? then samplesConverted < primary.length else samplesConverted == 0))
    }

    ghost predicate ChannelsOk() {
      && channelsConfigured <= CHANNELS
      && channelsActivated <= CHANNELS
      && channelsActivatedCount == |channelsActivated|
      && (Mode().Idle? <==> channelsActivatedCount == 0)
      && limitsLow <= channelsActivated && limitsHigh <= channelsActivated
      && (!eventHandler ==> limitsLow == limitsHigh == {})
      && (Mode().Idle? ==> !eventHandler)
    }
  }

  function AsQueue(b: Buffer): seq<Buffer> { if b.Null? then [] else [b] }

  predicate BlockSized(b: Buffer, count: nat) {
    count > 0 && (b.Buf? ==> 0 < b.length <= MAX_COUNT && b.length % count == 0)
  }

  predicate SameAddress(a: Buffer, b: Buffer) {
    a.Buf? && b.Buf? && a.addr == b.addr
  }

  /** Exactly the interrupts the mode needs; during a calibration channel 0's limits are off
      and the CALIBRATEDONE interrupt is on until the event arrives. */
  ghost predicate InterruptsOk(cb: ControlBlock, hw: Registers) {
    if cb.state.Calibration?
    then hw.inten == Ints(true, true, true, hw.inten.calibrated, cb.limitsLow - {0}, cb.limitsHigh - {0})
    else hw.inten == ModeInts(cb)
  }

  function ModeInts(cb: ControlBlock): Ints {
    if cb.eventHandler then Ints(true, true, true, false, cb.limitsLow, cb.limitsHigh) else NO_INTS
  }

  ghost predicate HardwareOk(cb: ControlBlock, hw: Registers) {
    && (hw.enabled <==> cb.Sampling() || cb.state.Calibration?)
    && (cb.state.AdvModeSample? ==>
          SameAddress(hw.programmed, cb.primary) && SameAddress(hw.latched, cb.primary))
    && (cb.state.AdvModeSampleStarted? && cb.secondary.Buf? ==> hw.programmed == cb.secondary)
  }

  /** The calibration in progress, by what the control block looked like before it. */
  function CalibrationNow(cb: ControlBlock): Option<Snapshot> {
    if cb.state.Calibration? then Some(cb.Snap(ModeInts(cb))) else None
  }

  ghost predicate CalibrationOk(cb: ControlBlock) {
    cb.state.Calibration? ==>
      cb.calibEventHandler && (cb.statePrev.Idle? || cb.statePrev.SimpleMode? || cb.statePrev.AdvMode?)
  }

  ghost predicate SiteOk(cb: ControlBlock, site: Site) {
    && (site.InReady? ==> cb.state.AdvModeSample?)
    && (site.InDone? ==> cb.state.AdvModeSampleStarted?)
  }

  /** The parts of the invariant. */
  datatype Part = Buffers | InterruptMask | Hardware | Calibrating | Place | ChannelMasks | History

  ghost predicate Holds(p: Part, cb: ControlBlock, hw: Registers, log: seq<Entry>, site: Site) {
    match p
    case Buffers => cb.BuffersOk()
    case ChannelMasks => cb.ChannelsOk()
    case InterruptMask => InterruptsOk(cb, hw)
    case Hardware => HardwareOk(cb, hw)
    case Calibrating => CalibrationOk(cb)
    case Place => SiteOk(cb, site)
    case History =>
      Replay(log) == Some(Session(cb.Outstanding(site), cb.samplesConverted, cb.PhaseNow(site),
                                  CalibrationNow(cb), cb.state.Calibration? && !hw.inten.calibrated))
  }

  /** Every part holds. */
  ghost predicate Inv(cb: ControlBlock, hw: Registers, log: seq<Entry>, site: Site) {
    forall p: Part :: Holds(p, cb, hw, log, site)
  }

  lemma Parts(cb: ControlBlock, hw: Registers, log: seq<Entry>, site: Site)
    ensures Inv(cb, hw, log, site) <==>
      && Holds(Buffers, cb, hw, log, site) && Holds(ChannelMasks, cb, hw, log, site)
      && Holds(InterruptMask, cb, hw, log, site) && Holds(Hardware, cb, hw, log, site)
      && Holds(Calibrating, cb, hw, log, site) && Holds(Place, cb, hw, log, site)
      && Holds(History, cb, hw, log, site)
  {
  }

  // ---------- what the user may do ----------

  /** Oversampling by its sample count, 1 when disabled; timer 0 means no internal timer. */
  datatype AdvConfig = AdvConfig(oversample: Positive, burst: bool, timer: nat, startOnEnd: bool)

  datatype Call =
    | CallBufferSet(addr: int, size: nat, inRam: bool)
    | CallModeTrigger
    | CallAbort
    | CallLimitsSet(channel: nat, low: int, high: int)
    | CallOffsetCalibrate(handler: bool)
    | CallSimpleModeSet(mask: set<nat>, oversample: Positive, handler: bool)
    | CallAdvancedModeSet(mask: set<nat>, config: AdvConfig, handler: bool)
    | CallChannelsConfig(list: seq<nat>)
    | CallChannelConfig(channel: nat)
    | CallChannelsDeconfig(mask: set<nat>)

  predicate AddsBuffer(calls: seq<Call>) {
    exists i | 0 <= i < |calls| :: calls[i].CallBufferSet?
  }

  /** A switch to blocking operation takes the event handler away. */
  predicate DropsHandler(call: Call) {
    (call.CallSimpleModeSet? || call.CallAdvancedModeSet?) && !call.handler
  }

  predicate KeepsHandler(calls: seq<Call>) {
    forall i | 0 <= i < |calls| :: !DropsHandler(calls[i])
  }

  /** One interrupt: the events found raised, the sample count of a stopped conversion, the
      raised limit events by bit position, and the API calls each callback makes. */
  datatype Irq = Irq(calibrated: bool, stopped: bool, end: bool, started: bool,
                     amount: nat, limits: set<nat>, handler: Entry -> seq<Call>)

  function LimitEntry(bit: nat): Entry { Limit(bit / 2, bit % 2 == 0) }

  /** Enabled limit interrupts by bit position; the high limit of a channel comes first. */
  function EnabledLimits(i: Ints): set<nat> {
    set b: nat | b < 16 && (if b % 2 == 0 then b / 2 in i.high else b / 2 in i.low)
  }

  /** Every one of these limits was reported between log l0 and log l1. */
  ghost predicate Reported(bits: set<nat>, l0: seq<Entry>, l1: seq<Entry>) {
    l0 <= l1 && forall b | b in bits :: LimitEntry(b) in l1[|l0|..]
  }
}
