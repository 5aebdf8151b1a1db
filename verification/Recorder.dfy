/** The trigger-waiting loop and the recording loop of main, with the padding that follows. */
module Recorder {
  import opened Words
  import opened Crc
  import opened Psram
  import opened Ring
  import opened Rms
  import opened Samples
  import opened Sampler

  const NR_OF_SAMPLES_TO_MEASURE: nat := 81000
  const PAD: nat := 1000

  /** The most samples a recording can hold: the counter starts at 1024 and stops past 81000. */
  const MAX_SAMPLES: nat := 79977

  function SaturatedAll(d: seq<Quad>): (s: seq<Quad>)
    ensures |s| == |d|
  { seq(|d|, i requires 0 <= i < |d| => Saturated(d[i])) }

  /** Records one after the other. */
  function Flat(recs: seq<Record>): (b: seq<Byte>)
    ensures |b| == 10 * |recs|
  { if recs == [] then [] else Flat(recs[..|recs|-1]) + recs[|recs|-1] }

  lemma {:induction false} FlatAt(recs: seq<Record>, k: nat)
    requires k < |recs|
    ensures Flat(recs)[10 * k..10 * k + 10] == recs[k]
  {
    if k < |recs| - 1 {
      FlatAt(recs[..|recs|-1], k);
    }
  }

  /** The records written so far, then the memory as it was. */
  ghost function Stored(recs: seq<Record>, m: seq<Byte>): (s: seq<Byte>)
    requires 10 * |recs| <= |m|
    ensures |s| == |m|
  { Flat(recs) + m[10 * |recs|..] }

  lemma StoredSnoc(recs: seq<Record>, r: Record, m: seq<Byte>)
    requires 10 * |recs| + 10 <= |m|
    ensures var s := Stored(recs, m);
            Stored(recs + [r], m) == s[..10 * |recs|] + r + s[10 * |recs| + 10..]
  {
    assert (recs + [r])[..|recs|] == recs;
  }

  // ---------- when a recording stops ----------

  /** Either watched RMS above the start threshold. */
  ghost predicate Loud(d: seq<Quad>, threshold: int) {
    RmsAfter(d, 0) > threshold || RmsAfter(d, 2) > threshold
  }

  /** Both watched RMS values below the end threshold. */
  ghost predicate Quiet(d: seq<Quad>, threshold: int) {
    RmsAfter(d, 0) < threshold && RmsAfter(d, 2) < threshold
  }

  /** The sum of squares of the last hundred values of channel 0, and of channel 2. */
  ghost function Energy0(d: seq<Quad>): nat {
    SumSquares(LastValues(RMS_SIZE, seq(|d|, i requires 0 <= i < |d| => d[i].c0)))
  }

  ghost function Energy2(d: seq<Quad>): nat {
    SumSquares(LastValues(RMS_SIZE, seq(|d|, i requires 0 <= i < |d| => d[i].c2)))
  }

  lemma WatchedColumns(d: seq<Quad>)
    ensures RmsAfter(d, 0) == RmsOf(seq(|d|, i requires 0 <= i < |d| => d[i].c0))
    ensures RmsAfter(d, 2) == RmsOf(seq(|d|, i requires 0 <= i < |d| => d[i].c2))
  {
    assert Column(d, 0) == seq(|d|, i requires 0 <= i < |d| => d[i].c0);
    assert Column(d, 2) == seq(|d|, i requires 0 <= i < |d| => d[i].c2);
  }

  /** The two tests of the source in terms of sums of squares of channels 0 and 2. */
  lemma LoudIs(d: seq<Quad>, t: nat)
    ensures Loud(d, t) <==>
      Energy0(d) >= RMS_SIZE * ((t + 1) * (t + 1)) || Energy2(d) >= RMS_SIZE * ((t + 1) * (t + 1))
  {
    WatchedColumns(d);
    RmsAbove(seq(|d|, i requires 0 <= i < |d| => d[i].c0), t);
    RmsAbove(seq(|d|, i requires 0 <= i < |d| => d[i].c2), t);
  }

  lemma QuietIs(d: seq<Quad>, t: nat)
    ensures Quiet(d, t) <==> Energy0(d) < RMS_SIZE * (t * t) && Energy2(d) < RMS_SIZE * (t * t)
  {
    WatchedColumns(d);
    if t > 0 {
      RmsAbove(seq(|d|, i requires 0 <= i < |d| => d[i].c0), t - 1);
      RmsAbove(seq(|d|, i requires 0 <= i < |d| => d[i].c2), t - 1);
    }
  }

  /** How many of the latest samples in a row were quiet. */
  function LowRun(lows: seq<bool>): (n: nat)
    ensures n <= |lows|
  { if lows == [] || !lows[|lows|-1] then 0 else LowRun(lows[..|lows|-1]) + 1 }

  /** The last n samples were all quiet. */
  predicate QuietFor(lows: seq<bool>, n: nat) {
    n <= |lows| && forall i | |lows| - n <= i < |lows| :: lows[i]
  }

  lemma {:induction false} LowRunMeans(lows: seq<bool>, n: nat)
    ensures LowRun(lows) >= n <==> QuietFor(lows, n)
  {
    if lows != [] && lows[|lows|-1] && n > 0 {
      var l := lows[..|lows|-1];
      LowRunMeans(l, n - 1);
      if QuietFor(l, n - 1) {
        forall i | |lows| - n <= i < |lows| ensures lows[i] { assert i < |l| ==> lows[i] == l[i]; }
      }
    }
  }

  /** The stop condition after the samples whose quietness is given: a quiet stretch longer than
      the configured duration, which the 16-bit counter can only see below 65535, or the limit. */
  predicate Stops(lows: seq<bool>, duration: nat) {
    (duration < 0xffff && LowRun(lows) > duration) || |lows| >= MAX_SAMPLES
  }

  /** In terms of the samples: the last duration + 1 of them were all quiet, or the limit. */
  lemma StopsMeans(lows: seq<bool>, duration: nat)
    ensures Stops(lows, duration) <==>
      (duration < 0xffff && duration < |lows| && forall i | |lows| - duration <= i + 1 <= |lows| :: lows[i])
      || |lows| >= 79977
  {
    LowRunMeans(lows, duration + 1);
    if duration < |lows| && (forall i | |lows| - duration <= i + 1 <= |lows| :: lows[i]) {
      assert QuietFor(lows, duration + 1);
    }
  }

  lemma LowRunSnoc(lows: seq<bool>, low: bool)
    ensures LowRun(lows + [low]) == if low then LowRun(lows) + 1 else 0
  {
    assert (lows + [low])[..|lows|] == lows;
  }

  lemma CounterWraps(run: nat, next: nat, duration: nat)
    requires duration <= 0xffff && (duration < 0xffff ==> run <= duration)
    requires next == run + 1 || next == 0
    ensures next % 0x1_0000 > duration <==> duration < 0xffff && next > duration
  {
  }

  /** The wrapping 16-bit counter decides exactly as the unbounded one while it has not stopped. */
  lemma CounterDecides(lows: seq<bool>, low: bool, duration: nat)
    requires duration <= 0xffff && !Stops(lows, duration)
    ensures LowRun(lows + [low]) % 0x1_0000 > duration || 1024 + |lows| + 1 > NR_OF_SAMPLES_TO_MEASURE
       <==> Stops(lows + [low], duration)
  {
    LowRunSnoc(lows, low);
    CounterWraps(LowRun(lows), LowRun(lows + [low]), duration);
  }

  // ---------- the loops of main ----------

  /** One pass of the waiting loop. */
  method WaitOne(chain: Chain, ring: CircularBuffer, reading: Quad, threshold: nat)
    returns (loud: bool, last: nat)
    requires chain.Valid() && ring.Valid() && chain.Repr !! ring.Objects() && Bounded(reading, RAW)
    modifies chain.Repr, ring.Objects()
    ensures chain.Valid() && ring.Valid() && ring.overflow == (old(ring.overflow) || old(ring.head) == SIZE)
    ensures ring.head == last
    ensures chain.averager.history == old(chain.averager.history) + [reading]
    ensures |chain.diffs| == |old(chain.diffs)| + 1 && chain.diffs[..|old(chain.diffs)|] == old(chain.diffs)
    ensures ring.history == old(ring.history) + [Saturated(chain.diffs[|old(chain.diffs)|])]
    ensures loud == Loud(chain.diffs, threshold)
  {
    var q, rms0, rms2 := chain.Measure(reading);
    last := ring.AddValue(q.c0, q.c1, q.c2, q.c3);
    loud := rms0 > threshold || rms2 > threshold;
  }

  ghost predicate LoudAfter(d: seq<Quad>, k: nat, threshold: int)
    requires k <= |d|
  { Loud(d[..k], threshold) }

  /** No shorter run of samples was loud. */
  ghost predicate FirstLoud(d: seq<Quad>, threshold: int) {
    forall k | 1 <= k < |d| :: !LoudAfter(d, k, threshold)
  }

  lemma FirstLoudSnoc(d: seq<Quad>, d': seq<Quad>, threshold: int)
    requires |d'| == |d| + 1 && d'[..|d|] == d
    requires FirstLoud(d, threshold) && (|d| >= 1 ==> !Loud(d, threshold))
    ensures FirstLoud(d', threshold)
  {
    forall k | 1 <= k < |d'| ensures !LoudAfter(d', k, threshold) {
      if k < |d| {
        assert !LoudAfter(d, k, threshold);
        assert d'[..k] == d[..k];
      }
    }
  }

  /** WaitOne with the bookkeeping of what has been seen so far. */
  method WaitNext(chain: Chain, ring: CircularBuffer, reading: Quad, threshold: nat)
    returns (loud: bool, last: nat)
    requires chain.Valid() && ring.Valid() && ring.overflow && chain.Repr !! ring.Objects() && Bounded(reading, RAW)
    requires ring.history == SaturatedAll(chain.diffs) && FirstLoud(chain.diffs, threshold)
    requires chain.diffs != [] ==> !Loud(chain.diffs, threshold)
    modifies chain.Repr, ring.Objects()
    ensures chain.Valid() && ring.Valid() && ring.overflow && ring.head == last
    ensures chain.averager.history == old(chain.averager.history) + [reading]
    ensures |chain.diffs| == |old(chain.diffs)| + 1
    ensures ring.history == SaturatedAll(chain.diffs) && FirstLoud(chain.diffs, threshold)
    ensures loud == Loud(chain.diffs, threshold)
  {
    ghost var d := chain.diffs;
    loud, last := WaitOne(chain, ring, reading, threshold);
    FirstLoudSnoc(d, chain.diffs, threshold);
    assert SaturatedAll(chain.diffs) == SaturatedAll(d) + [Saturated(chain.diffs[|d|])];
  }

  /** Waits until an RMS value crosses the start threshold, keeping the last 1024 samples.
      readings are what adc_read delivers; without a trigger the loop would go on past them. */
  method WaitForTrigger(chain: Chain, ring: CircularBuffer, readings: seq<Quad>, threshold: nat)
    returns (triggered: bool, n: nat, last: nat)
    requires chain.Valid() && ring.Valid() && ring.overflow && chain.Repr !! ring.Objects()
    requires chain.diffs == [] && ring.history == [] && ring.head == 0 && AllBounded(readings, RAW)
    modifies chain.Repr, ring.Objects()
    ensures chain.Valid() && ring.Valid() && ring.overflow && ring.head == last
    ensures n <= |readings| && |chain.diffs| == n
    ensures chain.averager.history == old(chain.averager.history) + readings[..n]
    ensures ring.history == SaturatedAll(chain.diffs)
    ensures FirstLoud(chain.diffs, threshold)
    ensures if triggered then n >= 1 && Loud(chain.diffs, threshold)
            else n == |readings| && (n >= 1 ==> !Loud(chain.diffs, threshold))
  {
    triggered, n, last := false, 0, 0;
    while n < |readings| && !triggered
      invariant chain.Valid() && ring.Valid() && ring.overflow && ring.head == last
      invariant n <= |readings| && |chain.diffs| == n
      invariant chain.averager.history == old(chain.averager.history) + readings[..n]
      invariant ring.history == SaturatedAll(chain.diffs)
      invariant FirstLoud(chain.diffs, threshold)
      invariant triggered <==> n >= 1 && Loud(chain.diffs, threshold)
      decreases |readings| - n, !triggered
    {
      triggered, last := WaitNext(chain, ring, readings[n], threshold);
      assert readings[..n+1] == readings[..n] + [readings[n]];
      n := n + 1;
    }
  }

  /** Packs a sample, appends the checksum and writes the record. */
  method SaveSample(chip: Chip, buf: array<Byte>, q: Quad, address: nat)
    requires chip.Valid() && buf.Length == 40 && address + 10 <= |chip.mem|
    modifies chip, buf
    ensures chip.Valid() && buf[..10] == RecordOf(q)
    ensures chip.mem == old(chip.mem)[..address] + RecordOf(q) + old(chip.mem)[address + 10..]
  {
    StoreSample(buf, q);
    ghost var r := buf[..10];
    chip.WriteByteArray(address, buf, 10);
    assert buf[..10] == r;
  }

  /** One pass of the recording loop: measure, pack, checksum, write. */
  method RecordOne(chain: Chain, chip: Chip, buf: array<Byte>, reading: Quad, address: nat, trigEnd: int)
    returns (q: Quad, low: bool)
    requires chain.Valid() && chip.Valid() && buf.Length == 40 && Bounded(reading, RAW)
    requires {buf, chip} !! chain.Repr && address + 10 <= |chip.mem|
    modifies chain.Repr, chip, buf
    ensures chain.Valid() && chip.Valid()
    ensures chain.averager.history == old(chain.averager.history) + [reading]
    ensures |chain.diffs| == |old(chain.diffs)| + 1 && chain.diffs[..|old(chain.diffs)|] == old(chain.diffs)
    ensures q == Saturated(chain.diffs[|old(chain.diffs)|]) && low == Quiet(chain.diffs, trigEnd)
    ensures buf[..10] == RecordOf(q)
    ensures chip.mem == old(chip.mem)[..address] + RecordOf(q) + old(chip.mem)[address + 10..]
  {
    var rms0, rms2;
    q, rms0, rms2 := chain.Measure(reading);
    SaveSample(chip, buf, q, address);
    low := rms0 < trigEnd && rms2 < trigEnd;
  }

  ghost predicate LowAt(d: seq<Quad>, base: nat, lows: seq<bool>, trigEnd: int, k: nat)
    requires k < |lows| && base + k < |d|
  { lows[k] == Quiet(d[..base + k + 1], trigEnd) }

  predicate StopsAfter(lows: seq<bool>, duration: nat, k: nat)
    requires k <= |lows|
  { Stops(lows[..k], duration) }

  predicate SavedAt(d: seq<Quad>, base: nat, recs: seq<Record>, k: nat)
    requires k < |recs| && base + k < |d|
  { recs[k] == RecordOf(Saturated(d[base + k])) }

  /** recs[k] is the record of sample k after the first base samples, saturated; lows[k] says
      whether it was quiet; and none of the samples before the last met the stop condition. */
  ghost predicate Recorded(d: seq<Quad>, base: nat, recs: seq<Record>, lows: seq<bool>, trigEnd: int, duration: nat) {
    && |d| == base + |lows| && |recs| == |lows|
    && (forall k | 0 <= k < |recs| :: SavedAt(d, base, recs, k))
    && (forall k | 0 <= k < |lows| :: LowAt(d, base, lows, trigEnd, k))
    && (forall k | 0 <= k < |lows| :: !StopsAfter(lows, duration, k))
  }

  /** The 16-bit quiet counter after these samples. */
  predicate Counts(counter: nat, lows: seq<bool>) { counter == LowRun(lows) % 0x1_0000 }

  lemma NothingYet(d: seq<Quad>, m: seq<Byte>, trigEnd: int, duration: nat)
    ensures Recorded(d, |d|, [], [], trigEnd, duration) && Stored([], m) == m
    ensures !Stops([], duration) && Counts(0, [])
  {
  }

  /** The recording loop. It stops at the first sample that meets the stop condition. */
  method RecordRun(chain: Chain, chip: Chip, buf: array<Byte>, readings: seq<Quad>, trigEnd: int, duration: nat)
    returns (n: nat, stopped: bool, ghost recs: seq<Record>, ghost lows: seq<bool>)
    requires chain.Valid() && chip.Valid() && buf.Length == 40 && {buf, chip} !! chain.Repr
    requires AllBounded(readings, RAW) && duration <= 0xffff
    modifies chain.Repr, chip, buf
    ensures chain.Valid() && chip.Valid()
    ensures |lows| == n <= |readings| && n <= MAX_SAMPLES
    ensures chain.averager.history == old(chain.averager.history) + readings[..n]
    ensures Recorded(chain.diffs, |old(chain.diffs)|, recs, lows, trigEnd, duration)
    ensures chain.diffs[..|old(chain.diffs)|] == old(chain.diffs)
    ensures if stopped then n >= 1 && Stops(lows, duration) else n == |readings| && !Stops(lows, duration)
    ensures chip.mem == Stored(recs, old(chip.mem)) && (n >= 1 ==> buf[..10] == recs[n-1])
  {
    ghost var base, mem := |chain.diffs|, chip.mem;
    var address, counter, sampleCntr := 0, 0, SIZE;
    n, stopped, recs, lows := 0, false, [], [];
    NothingYet(chain.diffs, mem, trigEnd, duration);
    while n < |readings| && !stopped
      invariant chain.Valid() && chip.Valid() && |lows| == n <= |readings| && n <= MAX_SAMPLES
      invariant Taken(old(chain.averager.history), readings, n, chain.averager.history)
      invariant Recorded(chain.diffs, base, recs, lows, trigEnd, duration) && chain.diffs[..base] == old(chain.diffs)
      invariant stopped <==> Stops(lows, duration)
      invariant chip.mem == Stored(recs, mem)
      invariant n >= 1 ==> buf[..10] == recs[n-1]
      invariant address == 10 * n && sampleCntr == SIZE + n && Counts(counter, lows)
      decreases |readings| - n, !stopped
    {
      sampleCntr := sampleCntr + 1;
      ghost var h := chain.averager.history;
      counter, stopped, recs, lows := RecordNext(chain, chip, buf, readings[n], address, counter, sampleCntr,
                                                 trigEnd, duration, base, recs, lows, mem);
      address := address + 10;
      TakenOne(old(chain.averager.history), readings, n, h, chain.averager.history);
      n := n + 1;
    }
  }

  /** The first n readings have been taken since the averager's history was h0. */
  ghost predicate Taken(h0: seq<Quad>, readings: seq<Quad>, n: nat, h: seq<Quad>) {
    n <= |readings| && h == h0 + readings[..n]
  }

  lemma TakenOne(h0: seq<Quad>, readings: seq<Quad>, n: nat, h: seq<Quad>, h': seq<Quad>)
    requires n < |readings| && Taken(h0, readings, n, h) && h' == h + [readings[n]]
    ensures Taken(h0, readings, n + 1, h')
  {
    assert readings[..n+1] == readings[..n] + [readings[n]];
  }

  /** RecordOne and Decide with the bookkeeping of what has been recorded so far. */
  method RecordNext(chain: Chain, chip: Chip, buf: array<Byte>, reading: Quad, address: nat,
                    counter: nat, sampleCntr: nat, trigEnd: int, duration: nat, ghost base: nat,
                    ghost recs: seq<Record>, ghost lows: seq<bool>, ghost mem: seq<Byte>)
    returns (newCounter: nat, stopped: bool, ghost recs': seq<Record>, ghost lows': seq<bool>)
    requires chain.Valid() && chip.Valid() && buf.Length == 40 && Bounded(reading, RAW)
    requires {buf, chip} !! chain.Repr && address == 10 * |recs|
    requires Recorded(chain.diffs, base, recs, lows, trigEnd, duration) && !Stops(lows, duration)
    requires Counts(counter, lows) && sampleCntr == SIZE + |lows| + 1 && duration <= 0xffff
    requires |mem| == |chip.mem| && chip.mem == Stored(recs, mem)
    modifies chain.Repr, chip, buf
    ensures chain.Valid() && chip.Valid()
    ensures chain.averager.history == old(chain.averager.history) + [reading]
    ensures Recorded(chain.diffs, base, recs', lows', trigEnd, duration)
    ensures chain.diffs[..base] == old(chain.diffs)[..base]
    ensures |lows'| == |lows| + 1 <= MAX_SAMPLES
    ensures Counts(newCounter, lows') && (stopped <==> Stops(lows', duration))
    ensures chip.mem == Stored(recs', mem) && buf[..10] == recs'[|recs|]
  {
    ghost var d := chain.diffs;
    var q, low := RecordOne(chain, chip, buf, reading, address, trigEnd);
    StoredSnoc(recs, RecordOf(q), mem);
    RecordedSnoc(d, chain.diffs, base, recs, RecordOf(q), lows, low, trigEnd, duration);
    recs', lows' := recs + [RecordOf(q)], lows + [low];
    newCounter, stopped := Decide(counter, low, duration, sampleCntr, lows');
  }

  /** The quiet counter and the two ways to end; the last of lows is the sample just taken. */
  method Decide(counter: nat, low: bool, duration: nat, sampleCntr: nat, ghost lows: seq<bool>)
    returns (newCounter: nat, stopped: bool)
    requires lows != [] && lows[|lows|-1] == low && Counts(counter, lows[..|lows|-1])
    requires sampleCntr == SIZE + |lows| && duration <= 0xffff && !Stops(lows[..|lows|-1], duration)
    ensures Counts(newCounter, lows)
    ensures stopped <==> Stops(lows, duration)
  {
    assert lows == lows[..|lows|-1] + [low];
    LowRunSnoc(lows[..|lows|-1], low);
    CounterDecides(lows[..|lows|-1], low, duration);
    if low {
      newCounter := (counter + 1) % 0x1_0000;
    } else {
      newCounter := 0;
    }
    stopped := false;
    if newCounter > duration { stopped := true; }
    if sampleCntr > NR_OF_SAMPLES_TO_MEASURE { stopped := true; }
  }

  lemma SavedSnoc(d: seq<Quad>, d': seq<Quad>, base: nat, recs: seq<Record>, r: Record)
    requires |d'| == |d| + 1 && d'[..|d|] == d && |d| == base + |recs| && r == RecordOf(Saturated(d'[|d|]))
    requires forall k | 0 <= k < |recs| :: SavedAt(d, base, recs, k)
    ensures forall k | 0 <= k < |recs| + 1 :: SavedAt(d', base, recs + [r], k)
  {
    forall k | 0 <= k < |recs| + 1 ensures SavedAt(d', base, recs + [r], k) {
      if k < |recs| {
        assert SavedAt(d, base, recs, k);
        assert d'[base + k] == d[base + k];
      }
    }
  }

  lemma LowSnoc(d: seq<Quad>, d': seq<Quad>, base: nat, lows: seq<bool>, low: bool, trigEnd: int)
    requires |d'| == |d| + 1 && d'[..|d|] == d && |d| == base + |lows| && low == Quiet(d', trigEnd)
    requires forall k | 0 <= k < |lows| :: LowAt(d, base, lows, trigEnd, k)
    ensures forall k | 0 <= k < |lows| + 1 :: LowAt(d', base, lows + [low], trigEnd, k)
  {
    forall k | 0 <= k < |lows| + 1 ensures LowAt(d', base, lows + [low], trigEnd, k) {
      if k < |lows| {
        assert LowAt(d, base, lows, trigEnd, k);
        assert d'[..base + k + 1] == d[..base + k + 1];
      } else {
        assert d'[..base + k + 1] == d';
      }
    }
  }

  lemma RecordedSnoc(d: seq<Quad>, d': seq<Quad>, base: nat, recs: seq<Record>, r: Record,
                     lows: seq<bool>, low: bool, trigEnd: int, duration: nat)
    requires |d'| == |d| + 1 && d'[..|d|] == d && r == RecordOf(Saturated(d'[|d|])) && low == Quiet(d', trigEnd)
    requires Recorded(d, base, recs, lows, trigEnd, duration) && !Stops(lows, duration)
    ensures Recorded(d', base, recs + [r], lows + [low], trigEnd, duration)
    ensures d'[..base] == d[..base]
  {
    SavedSnoc(d, d', base, recs, r);
    LowSnoc(d, d', base, lows, low, trigEnd);
    var l := lows + [low];
    forall k | 0 <= k < |l| ensures !StopsAfter(l, duration, k) {
      if k < |lows| {
        assert !StopsAfter(lows, duration, k);
        assert l[..k] == lows[..k];
      } else {
        assert l[..k] == lows;
      }
    }
  }

  /** The padding loop: the last record a thousand more times. */
  method Pad(chip: Chip, buf: array<Byte>, ghost recs: seq<Record>, ghost q: Quad, ghost mem: seq<Byte>, n: nat)
    requires chip.Valid() && buf.Length == 40 && n == |recs| <= MAX_SAMPLES && |mem| == |chip.mem|
    requires chip.mem == Stored(recs, mem) && buf[..10] == RecordOf(q)
    modifies chip, buf
    ensures chip.Valid() && chip.mem == Stored(recs + Repeat(RecordOf(q), PAD), mem)
  {
    ghost var r := RecordOf(q);
    var count, address := 0, 10 * n;
    assert recs + Repeat(r, 0) == recs;
    while count < PAD
      invariant count <= PAD && address == 10 * (n + count)
      invariant chip.Valid() && chip.mem == Stored(recs + Repeat(r, count), mem)
      invariant buf[..10] == r
    {
      RestoreChecksum(buf, q);
      StoredSnoc(recs + Repeat(r, count), r, mem);
      assert (recs + Repeat(r, count)) + [r] == recs + Repeat(r, count + 1);
      chip.WriteByteArray(address, buf, 10);
      address := address + 10;
      count := count + 1;
    }
  }

  /** Computing the checksum of a finished record again changes nothing. */
  method RestoreChecksum(buf: array<Byte>, ghost q: Quad)
    requires buf.Length == 40 && buf[..10] == RecordOf(q)
    modifies buf
    ensures buf[..10] == RecordOf(q)
  {
    assert buf[..8] == buf[..10][..8] == Payload(q);
    StoreChecksum(buf);
    assert buf[..10] == buf[..8] + [buf[8], buf[9]];
  }

  function Repeat(r: Record, n: nat): (s: seq<Record>)
    ensures |s| == n
  { seq(n, _ => r) }
}
