/** What every accepted log of the SAADC driver promises its user. */
module SaadcTraces {
  import opened SaadcHistory
  import opened Arith

  // ---------- first in, first out ----------

  function AcceptOf(e: Entry): seq<Buffer> { if e.Accepted? then [e.b] else [] }

  function DoneOf(e: Entry): seq<Buffer> { if e.Done? then [e.b] else [] }

  function Accepts(log: seq<Entry>): seq<Buffer> {
    if log == [] then [] else Accepts(log[..|log|-1]) + AcceptOf(log[|log|-1])
  }

  function Dones(log: seq<Entry>): seq<Buffer> {
    if log == [] then [] else Dones(log[..|log|-1]) + DoneOf(log[|log|-1])
  }

  predicate Cuts(e: Entry) { e.ModeSet? || e.Stopped? || e.Discarded? || e.Chunk? }

  /** No mode set, no abort, no blocking trigger. */
  predicate Uncut(log: seq<Entry>) {
    forall i | 0 <= i < |log| :: !Cuts(log[i])
  }

  lemma FifoStep(s: Session, e: Entry)
    requires Step(s, e).Some? && !Cuts(e)
    ensures s.queue + AcceptOf(e) == DoneOf(e) + Step(s, e).value.queue
  {
  }

  lemma Regroup(q: seq<Buffer>, a: seq<Buffer>, d: seq<Buffer>, r: seq<Buffer>,
                x: seq<Buffer>, y: seq<Buffer>, t: seq<Buffer>)
    requires q + a == d + r && r + x == y + t
    ensures q + (a + x) == (d + y) + t
  {
    assert q + (a + x) == (q + a) + x == d + (r + x) == (d + y) + t;
  }

  /** Whatever the interleaving, buffers are reported exactly once, in acceptance order, and
      the pending queue is what was accepted and not yet reported. */
  lemma {:induction false} Fifo(s: Session, run: seq<Entry>)
    requires ReplayFrom(s, run).Some? && Uncut(run)
    ensures s.queue + Accepts(run) == Dones(run) + ReplayFrom(s, run).value.queue
  {
    if run != [] {
      var n := |run| - 1;
      var t, e := ReplayFrom(s, run[..n]).value, run[n];
      Fifo(s, run[..n]);
      FifoStep(t, e);
      Regroup(s.queue, Accepts(run[..n]), Dones(run[..n]), t.queue, AcceptOf(e), DoneOf(e), Step(t, e).value.queue);
    }
  }

  lemma RunFrom(before: seq<Entry>, e: Entry, run: seq<Entry>) returns (t: Session)
    requires Replay(before + [e] + run).Some?
    ensures Replay(before).Some? && Step(Replay(before).value, e) == Some(t)
    ensures ReplayFrom(t, run) == Replay(before + [e] + run)
  {
    ReplayConcat(FRESH, before + [e], run);
    ReplaySnoc(before, e);
    t := Step(Replay(before).value, e).value;
  }

  /** Since the mode was set, without aborts: accepted = reported ++ pending. */
  lemma FifoSinceModeSet(before: seq<Entry>, run: seq<Entry>)
    requires Replay(before + [ModeSet] + run).Some? && Uncut(run)
    ensures Accepts(run) == Dones(run) + Replay(before + [ModeSet] + run).value.queue
  {
    var t := RunFrom(before, ModeSet, run);
    Fifo(t, run);
    assert [] + Accepts(run) == Accepts(run);
  }

  // ---------- aborts ----------

  predicate AddsNothing(log: seq<Entry>) {
    forall i | 0 <= i < |log| :: !log[i].Accepted?
  }

  lemma {:induction false} DonesBounded(s: Session, run: seq<Entry>)
    requires ReplayFrom(s, run).Some? && AddsNothing(run)
    ensures |Dones(run)| + |ReplayFrom(s, run).value.queue| <= |s.queue|
  {
    if run != [] {
      DonesBounded(s, run[..|run|-1]);
    }
  }

  /** Once an abort has stopped the conversion, at most one more DONE is reported for as long
      as no new buffer is accepted. */
  lemma AtMostOneDoneAfterStop(before: seq<Entry>, amount: nat, run: seq<Entry>)
    requires Replay(before + [Stopped(amount)] + run).Some? && AddsNothing(run)
    ensures |Dones(run)| <= 1
  {
    var t := RunFrom(before, Stopped(amount), run);
    assert |t.queue| <= 1;
    DonesBounded(t, run);
  }

  /** From the call of an abort on, as long as no buffer is accepted, no more is reported than
      was pending at the call. */
  lemma DonesAfterAbort(before: seq<Entry>, run: seq<Entry>)
    requires Replay(before + [AbortCalled] + run).Some? && AddsNothing(run)
    ensures Replay(before).Some? && |Dones(run)| <= |Replay(before).value.queue|
  {
    var t := RunFrom(before, AbortCalled, run);
    DonesBounded(t, run);
  }

  ghost predicate FewDones(before: seq<Entry>, run: seq<Entry>) {
    Replay(before + [AbortCalled] + run).Some? && AddsNothing(run) ==> |Dones(run)| <= 1
  }

  /** After the call of an abort at most one more DONE is reported, whatever follows without a new
      buffer, if and only if at most one buffer was pending at the call. */
  lemma OneDoneAfterAbort(before: seq<Entry>)
    requires Replay(before + [AbortCalled]).Some?
    ensures (forall run :: FewDones(before, run)) <==> |Replay(before).value.queue| <= 1
  {
    ReplaySnoc(before, AbortCalled);
    var s := Replay(before).value;
    if |s.queue| <= 1 {
      forall run ensures FewDones(before, run) {
        if Replay(before + [AbortCalled] + run).Some? && AddsNothing(run) { DonesAfterAbort(before, run); }
      }
    } else {
      PendingAlways(before);
      var run := TwoDones(s);
      ReplayConcat(FRESH, before + [AbortCalled], run);
      assert !FewDones(before, run);
    }
  }

  lemma OneMore(s: Session, run: seq<Entry>, e: Entry)
    requires ReplayFrom(s, run).Some? && AddsNothing(run) && !e.Accepted?
    ensures ReplayFrom(s, run + [e]) == Step(ReplayFrom(s, run).value, e)
    ensures AddsNothing(run + [e]) && Dones(run + [e]) == Dones(run) + DoneOf(e)
  {
    DonesSnoc(run, e);
    assert (run + [e])[..|run|] == run;
  }

  lemma DonesSnoc(run: seq<Entry>, e: Entry)
    ensures Dones(run + [e]) == Dones(run) + DoneOf(e)
  {
    assert (run + [e])[..|run|] == run;
  }

  lemma Arm(s: Session)
    requires s.queue != [] && s.calibrating.None? && s.phase.Off?
    ensures ReplayFrom(s, [Triggered]) == Some(s.(phase := Armed))
    ensures AddsNothing([Triggered]) && Dones([Triggered]) == []
  {
    OneMore(s, [], Triggered);
    assert [] + [Triggered] == [Triggered];
  }

  lemma Launch(s: Session, run: seq<Entry>)
    requires ReplayFrom(s, run) == Some(s.(phase := Armed)) && AddsNothing(run) && Dones(run) == []
    ensures ReplayFrom(s, run + [Ready]) == Some(s.(phase := Running))
    ensures AddsNothing(run + [Ready]) && Dones(run + [Ready]) == []
  {
    OneMore(s, run, Ready);
  }

  /** The shortest way to a running conversion. */
  lemma StartUp(s: Session) returns (run: seq<Entry>)
    requires s.queue != [] && s.calibrating.None? && !s.phase.Emptied?
    ensures ReplayFrom(s, run) == Some(s.(phase := Running)) && AddsNothing(run) && Dones(run) == []
  {
    if s.phase.Off? {
      Arm(s);
      Launch(s, [Triggered]);
      run := [Triggered] + [Ready];
    } else if s.phase.Armed? {
      Launch(s, []);
      run := [] + [Ready];
    } else {
      run := [];
    }
  }

  /** The shortest way to report two pending buffers. */
  lemma TwoDones(s: Session) returns (run: seq<Entry>)
    requires |s.queue| >= 2 && s.calibrating.None? && !s.phase.Emptied?
    ensures ReplayFrom(s, run).Some? && AddsNothing(run) && |Dones(run)| == 2
  {
    run := StartUp(s);
    var first, second := Done(s.queue[0]), Done(s.queue[1]);
    OneMore(s, run, first);
    OneMore(s, run + [first], second);
    run := run + [first] + [second];
  }

  // ---------- when a run finishes ----------

  /** Only real buffers are pending, and they run out exactly when the run is about to finish. */
  predicate Pending(s: Session) {
    && (forall i | 0 <= i < |s.queue| :: s.queue[i].Buf?)
    && (!s.phase.Off? ==> (s.queue == [] <==> s.phase.Emptied?))
  }

  lemma {:induction false} PendingAlways(log: seq<Entry>)
    requires Replay(log).Some?
    ensures Pending(Replay(log).value)
  {
    if log != [] {
      var s := Replay(log[..|log|-1]).value;
      PendingAlways(log[..|log|-1]);
      assert log[|log|-1].Done? ==> |s.queue[1..]| == |s.queue| - 1;
    }
  }

  /** During a run FINISHED may come, and must come unless the DONE callback adds a buffer, just
      when no accepted buffer is left; the other callbacks of a run need one. */
  lemma FinishedExactly(log: seq<Entry>, e: Entry)
    requires Replay(log).Some? && !Replay(log).value.phase.Off?
    ensures Replay(log + [Finished]).Some? <==> Replay(log).value.queue == []
    ensures Replay(log).value.queue == [] && Replay(log + [e]).Some? && IsVisible(e) ==> e.Finished?
  {
    PendingAlways(log);
    ReplaySnoc(log, Finished);
    ReplaySnoc(log, e);
  }

  // ---------- the shape of the visible trace ----------

  predicate IsVisible(e: Entry) {
    e.Triggered? || e.Ready? || e.BufReq? || e.Done? || e.Finished?
  }

  function VisibleOf(e: Entry): seq<Entry> { if IsVisible(e) then [e] else [] }

  /** The callbacks of advanced runs with their triggers; limit events and everything that is
      not a callback are left out. */
  function Visible(log: seq<Entry>): seq<Entry> {
    if log == [] then [] else Visible(log[..|log|-1]) + VisibleOf(log[|log|-1])
  }

  /** READY first, then BUF_REQ and DONE in any mix. */
  predicate IsStarted(t: seq<Entry>) {
    && |t| >= 2 && t[0].Triggered? && t[1].Ready?
    && forall i | 2 <= i < |t| :: t[i].BufReq? || t[i].Done?
  }

  /** A complete run: the last DONE is immediately followed by FINISHED. */
  predicate IsRun(t: seq<Entry>) {
    |t| >= 4 && t[|t|-1].Finished? && t[|t|-2].Done? && IsStarted(t[..|t|-1])
  }

  predicate IsPartial(t: seq<Entry>, phase: Phase) {
    match phase
    case Off => t == []
    case Armed => t == [Triggered]
    case Running => IsStarted(t)
    case Emptied => |t| >= 3 && IsStarted(t) && t[|t|-1].Done?
  }

  function Concat(runs: seq<seq<Entry>>): seq<Entry> {
    if runs == [] then [] else Concat(runs[..|runs|-1]) + runs[|runs|-1]
  }

  predicate AllRuns(runs: seq<seq<Entry>>) {
    forall i | 0 <= i < |runs| :: IsRun(runs[i])
  }

  /** t is a sequence of complete runs followed by an unfinished one in the given phase. */
  ghost predicate Decomposes(t: seq<Entry>, runs: seq<seq<Entry>>, rest: seq<Entry>, phase: Phase) {
    t == Concat(runs) + rest && AllRuns(runs) && IsPartial(rest, phase)
  }

  /** What one more entry does to the unfinished run. */
  lemma PartialStep(s: Session, e: Entry, rest: seq<Entry>)
    requires Step(s, e).Some? && IsPartial(rest, s.phase)
    ensures var phase := Step(s, e).value.phase;
            if !IsVisible(e) then IsPartial(rest, phase)
            else if e.Finished? then IsRun(rest + [e]) && phase.Off?
            else IsPartial(rest + [e], phase)
  {
    if e.Finished? {
      assert (rest + [e])[..|rest|] == rest;
    } else if e.Triggered? {
      assert rest + [e] == [Triggered];
    }
  }

  lemma ConcatSnoc(runs: seq<seq<Entry>>, r: seq<Entry>)
    ensures Concat(runs + [r]) == Concat(runs) + r
  {
    assert (runs + [r])[..|runs|] == runs;
  }

  lemma RunGrows(t: seq<Entry>, e: Entry, runs: seq<seq<Entry>>, rest: seq<Entry>, phase: Phase)
    requires t == Concat(runs) + rest && AllRuns(runs) && IsPartial(rest + [e], phase)
    ensures Decomposes(t + [e], runs, rest + [e], phase)
  {
    assert t + [e] == Concat(runs) + (rest + [e]);
  }

  lemma RunCompletes(t: seq<Entry>, e: Entry, runs: seq<seq<Entry>>, rest: seq<Entry>)
    requires t == Concat(runs) + rest && AllRuns(runs) && IsRun(rest + [e])
    ensures Decomposes(t + [e], runs + [rest + [e]], [], Off)
  {
    ConcatSnoc(runs, rest + [e]);
    assert t + [e] == Concat(runs) + (rest + [e]) == Concat(runs + [rest + [e]]) + [];
  }

  lemma DecomposeStep(s: Session, e: Entry, t: seq<Entry>, runs: seq<seq<Entry>>, rest: seq<Entry>)
    returns (runs': seq<seq<Entry>>, rest': seq<Entry>)
    requires Step(s, e).Some? && Decomposes(t, runs, rest, s.phase)
    ensures Decomposes(t + VisibleOf(e), runs', rest', Step(s, e).value.phase)
  {
    PartialStep(s, e, rest);
    if !IsVisible(e) {
      assert t + [] == t;
      return runs, rest;
    } else if e.Finished? {
      RunCompletes(t, e, runs, rest);
      return runs + [rest + [e]], [];
    } else {
      RunGrows(t, e, runs, rest, Step(s, e).value.phase);
      return runs, rest + [e];
    }
  }

  /** The trace of every accepted log is a sequence of complete runs followed by a prefix of
      one, and the prefix is empty exactly when no run is in progress. */
  lemma {:induction false} TraceShape(log: seq<Entry>)
    requires Replay(log).Some?
    ensures exists runs, rest :: Decomposes(Visible(log), runs, rest, Replay(log).value.phase)
  {
    if log == [] {
      var none: seq<seq<Entry>> := [];
      assert Decomposes(Visible(log), none, [], Replay(log).value.phase);
    } else {
      var n := |log| - 1;
      var s := Replay(log[..n]).value;
      TraceShape(log[..n]);
      var runs, rest :| Decomposes(Visible(log[..n]), runs, rest, s.phase);
      var runs', rest' := DecomposeStep(s, log[n], Visible(log[..n]), runs, rest);
      assert Decomposes(Visible(log), runs', rest', Replay(log).value.phase);
    }
  }

  // ---------- calibrations ----------

  predicate IsCalib(e: Entry) { e.CalibStarted? || e.Calibrated? || IsCalibEnd(e) }

  predicate IsCalibEnd(e: Entry) { e.CalibDone? || e.CalibAborted? }

  function CalibOf(e: Entry): seq<Entry> { if IsCalib(e) then [e] else [] }

  function CalibEvents(log: seq<Entry>): seq<Entry> {
    if log == [] then [] else CalibEvents(log[..|log|-1]) + CalibOf(log[|log|-1])
  }

  /** What must come before entry i: an end before a start, a start before CALIBRATEDONE and before
      an abort, both before a completion; and every end finds the snapshot its start recorded. */
  predicate FollowsAt(t: seq<Entry>, i: nat)
    requires i < |t|
  {
    match t[i]
    case CalibStarted(_) => i == 0 || IsCalibEnd(t[i-1])
    case Calibrated => i >= 1 && t[i-1].CalibStarted?
    case CalibDone(after) => i >= 2 && t[i-1].Calibrated? && t[i-2] == CalibStarted(after)
    case CalibAborted(after) => i >= 1 && t[i-1] == CalibStarted(after)
    case _ => false
  }

  predicate Paired(t: seq<Entry>) { forall i | 0 <= i < |t| :: FollowsAt(t, i) }

  predicate OpenAs(t: seq<Entry>, s: Session) {
    match s.calibrating
    case None => t == [] || IsCalibEnd(t[|t|-1])
    case Some(before) =>
      if s.measured then |t| >= 2 && t[|t|-1].Calibrated? && t[|t|-2] == CalibStarted(before)
      else t != [] && t[|t|-1] == CalibStarted(before)
  }

  lemma PairedStep(s: Session, e: Entry, t: seq<Entry>)
    requires Step(s, e).Some? && Paired(t) && OpenAs(t, s)
    ensures Paired(t + CalibOf(e)) && OpenAs(t + CalibOf(e), Step(s, e).value)
  {
    var u := t + CalibOf(e);
    assert t + [] == t;
    forall i | 0 <= i < |u| ensures FollowsAt(u, i) {
      if i < |t| { assert FollowsAt(t, i); }
    }
  }

  /** Every non-blocking calibration ends at most once: by an abort without a callback before its
      CALIBRATEDONE event, or by one callback after it; and it gives back the exact state it
      started from. */
  lemma {:induction false} CalibrationsPaired(log: seq<Entry>)
    requires Replay(log).Some?
    ensures Paired(CalibEvents(log)) && OpenAs(CalibEvents(log), Replay(log).value)
  {
    if log != [] {
      var n := |log| - 1;
      CalibrationsPaired(log[..n]);
      PairedStep(Replay(log[..n]).value, log[n], CalibEvents(log[..n]));
    }
  }

  /** What follows the start of a calibration: CALIBRATEDONE and then the callback, or the abort. It
      is completed if and only if CALIBRATEDONE came. */
  lemma CalibrationDecided(t: seq<Entry>, i: nat)
    requires Paired(t) && i + 1 < |t| && t[i].CalibStarted?
    ensures t[i+1].Calibrated? || t[i+1] == CalibAborted(t[i].before)
    ensures i + 2 < |t| ==> (t[i+1].Calibrated? <==> t[i+2] == CalibDone(t[i].before))
  {
    assert FollowsAt(t, i + 1);
    if i + 2 < |t| { assert FollowsAt(t, i + 2); }
  }

  // ---------- blocking chunks ----------

  /** The entries of n blocking triggers on buffer b, count samples each. */
  function Chunks(b: Buffer, count: nat, n: nat): (c: seq<Entry>)
    ensures |c| == n
  { seq(n, (k: nat) => Chunk(b, k * count, count)) }

  /** The chunk that writes a slot. */
  function ChunkOf(slot: nat, count: nat): nat
    requires count > 0
  { slot / count }

  /** Filling a buffer writes every slot exactly once and never leaves the buffer. */
  lemma ChunksTile(b: Buffer, count: nat, slot: nat, k: nat)
    requires b.Buf? && count > 0 && b.length % count == 0 && slot < b.length && k < b.length / count
    ensures var c := Chunks(b, count, b.length / count)[k];
            && c.offset + c.count <= b.length
            && (c.offset <= slot < c.offset + c.count <==> k == ChunkOf(slot, count))
    ensures ChunkOf(slot, count) < b.length / count
  {
    var n, home := b.length / count, ChunkOf(slot, count);
    assert b.length == count * n;
    assert count * home <= slot < count * home + count;
    MulMonotone(count, k + 1, n);
    assert count * (k + 1) == k * count + count;
    assert count * (home + 1) == count * home + count;
    if n <= home { MulMonotone(count, n, home); }
    if k < home { MulMonotone(count, k + 1, home); }
    if home < k { MulMonotone(count, home + 1, k); }
  }

  /** Consecutive slices of a buffer, count samples each. */
  function Slices(b: Buffer, count: nat, n: nat): (s: seq<Buffer>)
    requires b.Buf?
    ensures |s| == n
  { seq(n, (k: nat) => Buf(b.addr + k * count, count)) }

  predicate Covers(b: Buffer, addr: int) { b.Buf? && b.addr <= addr < b.addr + b.length }

  predicate Inside(p: Buffer, b: Buffer) {
    p.Buf? && b.Buf? && p.length > 0 && b.addr <= p.addr && p.addr + p.length <= b.addr + b.length
  }

  predicate Ahead(p: Buffer, q: Buffer) { p.Buf? && q.Buf? && p.addr + p.length <= q.addr }

  ghost predicate CoveredBy(parts: seq<Buffer>, addr: int) { exists p :: p in parts && Covers(p, addr) }

  /** The parts lie inside the buffer one after the other, and every address of it is in one. */
  ghost predicate Tile(parts: seq<Buffer>, b: Buffer) {
    && (forall k | 0 <= k < |parts| :: Inside(parts[k], b))
    && (forall j, k | 0 <= j < k < |parts| :: Ahead(parts[j], parts[k]))
    && (forall addr | Covers(b, addr) :: CoveredBy(parts, addr))
  }

  lemma SliceInside(b: Buffer, count: nat, n: nat, k: nat)
    requires b.Buf? && count > 0 && n * count == b.length && k < n
    ensures Inside(Slices(b, count, n)[k], b)
  {
    MulMonotone(count, k + 1, n);
    assert count * (k + 1) == k * count + count && count * n == b.length;
  }

  lemma SlicesAhead(b: Buffer, count: nat, n: nat, j: nat, k: nat)
    requires b.Buf? && j < k < n
    ensures Ahead(Slices(b, count, n)[j], Slices(b, count, n)[k])
  {
    MulMonotone(count, j + 1, k);
    assert count * (j + 1) == j * count + count && count * k == k * count;
  }

  lemma SliceFound(b: Buffer, count: nat, n: nat, addr: int)
    requires b.Buf? && count > 0 && n * count == b.length && Covers(b, addr)
    ensures CoveredBy(Slices(b, count, n), addr)
  {
    var x: nat := addr - b.addr;
    var k: nat := x / count;
    assert x == count * k + x % count;
    if k >= n {
      MulMonotone(count, n, k);
      assert false;
    }
    assert k * count == count * k;
    assert Covers(Slices(b, count, n)[k], addr);
  }

  lemma SlicesTile(b: Buffer, count: nat, n: nat)
    requires b.Buf? && count > 0 && n * count == b.length
    ensures Tile(Slices(b, count, n), b)
  {
    forall k | 0 <= k < n ensures Inside(Slices(b, count, n)[k], b) { SliceInside(b, count, n, k); }
    forall j, k | 0 <= j < k < n ensures Ahead(Slices(b, count, n)[j], Slices(b, count, n)[k]) {
      SlicesAhead(b, count, n, j, k);
    }
    forall addr | Covers(b, addr) ensures CoveredBy(Slices(b, count, n), addr) { SliceFound(b, count, n, addr); }
  }
}
