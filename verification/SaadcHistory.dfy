/** What a user of the SAADC driver may observe over a whole run, as a small abstract
    machine over log entries, and the theorems every accepted log satisfies. The driver
    class is proved to produce only accepted logs and to stay in the abstract state. */
module SaadcHistory {
  datatype Option<T> = None | Some(value: T)

  /** A result buffer: NULL, or a RAM address with its length in samples. */
  datatype Buffer = Null | Buf(addr: int, length: nat)

  datatype State =
    | Idle | SimpleMode | SimpleModeSample
    | AdvMode | AdvModeSample | AdvModeSampleStarted
    | Calibration

  /** INTEN: the four sampling interrupts and the two limit interrupts of each channel. */
  datatype Ints = Ints(started: bool, stopped: bool, end: bool, calibrated: bool,
                       low: set<nat>, high: set<nat>)

  /** What a calibration must give back: the mode with its buffers, channels, limits, progress
      and interrupt mask. */
  datatype Snapshot = Snapshot(mode: State, primary: Buffer, secondary: Buffer, eventHandler: bool,
                               configured: set<nat>, activated: set<nat>, count: nat,
                               low: set<nat>, high: set<nat>, samples: nat,
                               startOnEnd: bool, oversampling: bool, inten: Ints)

  datatype Entry =
    | ModeSet                                       // a mode was (re)configured
    | Accepted(b: Buffer)                           // advanced mode took a buffer
    | Triggered                                     // a non-blocking advanced run was started
    | Ready | BufReq | Done(b: Buffer) | Finished   // callbacks of an advanced run
    | AbortCalled                                   // abort of a non-blocking mode
    | Stopped(amount: nat)                          // the STOPPED event of an abort
    | Chunk(b: Buffer, offset: nat, count: nat)     // one blocking trigger
    | Discarded                                     // abort in blocking mode
    | SimpleDone(b: Buffer)                         // callback of a simple-mode run
    | Limit(channel: nat, high: bool)               // limit callback
    | CalibStarted(before: Snapshot)                // non-blocking calibration
    | Calibrated                                    // its CALIBRATEDONE event
    | CalibDone(after: Snapshot) | CalibAborted(after: Snapshot)

  /** Off: no advanced run. Armed: triggered, READY not yet reported. Running: READY was
      reported. Emptied: the last pending buffer was just reported. */
  datatype Phase = Off | Armed | Running | Emptied

  /** The pending buffers, the samples in the first of them, the phase of the run, what a calibration
      in progress must give back, and whether it has had its CALIBRATEDONE. */
  datatype Session = Session(queue: seq<Buffer>, filled: nat, phase: Phase,
                             calibrating: Option<Snapshot>, measured: bool)

  const FRESH := Session([], 0, Off, None, false)

  function Step(s: Session, e: Entry): Option<Session> {
    match e
    case ModeSet =>
      if s.phase.Off? && s.calibrating.None? then Some(FRESH) else None
    case Accepted(b) =>
      if |s.queue| < 2 && s.calibrating.None? && b.Buf?
      then Some(s.(queue := s.queue + [b], phase := if s.phase.Emptied? then Running else s.phase))
      else None
    case Triggered =>
      if s.phase.Off? && s.queue != [] && s.calibrating.None? then Some(s.(phase := Armed)) else None
    case Ready =>
      if s.phase.Armed? then Some(s.(phase := Running)) else None
    case BufReq =>
      if s.phase.Running? && |s.queue| == 1 then Some(s) else None
    case Done(b) =>
      if s.phase.Running? && s.queue != [] && s.queue[0] == b
      then Some(s.(queue := s.queue[1..], phase := if |s.queue| == 1 then Emptied else Running))
      else None
    case Finished =>
      if s.phase.Emptied? then Some(s.(phase := Off)) else None
    case AbortCalled =>
      if s.calibrating.None? then Some(s) else None
    case Stopped(n) =>
      if s.calibrating.Some? then None
      else if s.queue == [] || s.queue[0].Null? then Some(s.(queue := []))
      else Some(s.(queue := [s.queue[0].(length := n)]))
    case Chunk(b, offset, count) =>
      if s.phase.Off? && s.calibrating.None? && s.queue != [] && s.queue[0] == b && b.Buf?
         && offset == s.filled && offset + count <= b.length
      then Some(if offset + count < b.length then s.(filled := offset + count)
                else s.(queue := s.queue[1..], filled := 0))
      else None
    case Discarded =>
      if s.phase.Off? && s.calibrating.None? then Some(s.(queue := [], filled := 0)) else None
    case SimpleDone(_) =>
      if s.phase.Off? && s.calibrating.None? then Some(s) else None
    case Limit(_, _) => Some(s)
    case CalibStarted(before) =>
      if s.phase.Off? && s.calibrating.None? then Some(s.(calibrating := Some(before), measured := false)) else None
    case Calibrated =>
      if s.calibrating.Some? && !s.measured then Some(s.(measured := true)) else None
    case CalibDone(after) =>
      if s.calibrating == Some(after) && s.measured then Some(s.(calibrating := None, measured := false)) else None
    case CalibAborted(after) =>
      if s.calibrating == Some(after) && !s.measured then Some(s.(calibrating := None)) else None
  }

  /** The session after a run of entries, None once an entry was out of place. */
  function ReplayFrom(s: Session, run: seq<Entry>): Option<Session> {
    if run == [] then Some(s)
    else match ReplayFrom(s, run[..|run|-1])
      case None => None
      case Some(t) => Step(t, run[|run|-1])
  }

  function Replay(log: seq<Entry>): Option<Session> { ReplayFrom(FRESH, log) }

  lemma ReplaySnoc(log: seq<Entry>, e: Entry)
    ensures Replay(log + [e]) == match Replay(log) case None => None case Some(s) => Step(s, e)
  {
    assert (log + [e])[..|log|] == log;
  }

  lemma {:induction false} ReplayConcat(s: Session, a: seq<Entry>, b: seq<Entry>)
    ensures ReplayFrom(s, a + b) ==
            match ReplayFrom(s, a) case None => None case Some(t) => ReplayFrom(t, b)
  {
    if b == [] {
      assert a + b == a;
    } else {
      ReplayConcat(s, a, b[..|b|-1]);
      assert (a + b)[..|a + b| - 1] == a + b[..|b|-1];
    }
  }
}
