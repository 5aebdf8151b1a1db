/** From the converter to the published packets. */
module EndToEnd {
  import opened Words
  import opened Averaging
  import opened Baseline
  import opened Crc
  import opened Psram
  import opened Ring
  import opened Samples
  import opened Sampler
  import opened Recorder
  import opened Replay

  /** Sample k of a recording that began after base samples, as it is stored. */
  function Sample(d: seq<Quad>, base: nat, k: nat): Quad
    requires base + k < |d|
  { Saturated(d[base + k]) }

  /** Which recorded sample slot k of the replay repeats: its own, or the last one. */
  function Source(k: nat, n: nat): nat
    requires n >= 1
  { if k < n then k else n - 1 }

  /** Record k is that of its sample. */
  ghost predicate HoldsAt(mem: seq<Byte>, d: seq<Quad>, base: nat, n: nat, k: nat)
    requires n >= 1 && |d| == base + n && 10 * k + 10 <= |mem|
  { RecordIn(mem, k) == RecordOf(Sample(d, base, Source(k, n))) }

  /** The memory after a recording of n samples and its padding. */
  ghost predicate OnChip(mem: seq<Byte>, d: seq<Quad>, base: nat, n: nat, oldMem: seq<Byte>) {
    && n >= 1 && |d| == base + n && |mem| == |oldMem| && 10 * (n + PAD) <= |mem|
    && (forall k | 0 <= k < n + PAD :: HoldsAt(mem, d, base, n, k))
    && mem[10 * (n + PAD)..] == oldMem[10 * (n + PAD)..]
  }

  lemma StoredOnChip(recs: seq<Record>, d: seq<Quad>, base: nat, n: nat, m: seq<Byte>)
    requires n >= 1 && |recs| == n && |d| == base + n && 10 * (n + PAD) <= |m|
    requires forall k | 0 <= k < n :: SavedAt(d, base, recs, k)
    ensures OnChip(Stored(recs + Repeat(RecordOf(Sample(d, base, n - 1)), PAD), m), d, base, n, m)
  {
    var last := RecordOf(Sample(d, base, n - 1));
    var all := recs + Repeat(last, PAD);
    var s := Stored(all, m);
    forall k | 0 <= k < n + PAD ensures HoldsAt(s, d, base, n, k) {
      if k < n { assert SavedAt(d, base, recs, k); }
      FlatAt(all, k);
      assert s[10 * k..10 * k + 10] == Flat(all)[10 * k..10 * k + 10];
    }
  }

  /** Fault-free reads give back the recording with no gap and no repeat, then the last sample;
      slots past the padding show whatever the memory held before. */
  lemma FaultFreeReplay(mem: seq<Byte>, d: seq<Quad>, base: nat, n: nat, m: seq<Byte>,
                        noise: nat -> Record, slots: seq<Quad>, marks: seq<nat>, k: nat)
    requires OnChip(mem, d, base, n, m) && Loaded(mem, noise, slots, marks) && k < |slots|
    requires forall t :: noise(t) == NO_ERROR
    ensures k < n + PAD ==> slots[k] == Sample(d, base, Source(k, n))
    ensures k >= n + PAD && 10 * k + 10 <= |m| ==>
      slots[k] == if Accepted(RecordIn(m, k)) then Decode(RecordIn(m, k)) else MARKER
  {
    FaultFree(mem, noise, slots, marks, k);
    if k < n + PAD {
      assert HoldsAt(mem, d, base, n, k);
      RecordRoundTrip(Sample(d, base, Source(k, n)));
    } else {
      assert RecordIn(mem, k) == RecordIn(m, k) by {
        var z := 10 * (n + PAD);
        assert mem[10 * k..10 * k + 10] == mem[z..][10 * k - z..10 * k + 10 - z];
        assert m[10 * k..10 * k + 10] == m[z..][10 * k - z..10 * k + 10 - z];
      }
    }
  }

  /** Under detectable read errors every replayed slot is the recorded sample or the marker,
      and the two are never the same value. */
  lemma DetectableReplay(mem: seq<Byte>, d: seq<Quad>, base: nat, n: nat, m: seq<Byte>,
                         noise: nat -> Record, slots: seq<Quad>, marks: seq<nat>, k: nat)
    requires OnChip(mem, d, base, n, m) && Loaded(mem, noise, slots, marks) && k < |slots| && k < n + PAD
    requires forall t :: noise(t) == NO_ERROR || Detectable(noise(t))
    ensures slots[k] == Sample(d, base, Source(k, n)) || slots[k] == MARKER
    ensures Sample(d, base, Source(k, n)) != MARKER
  {
    assert HoldsAt(mem, d, base, n, k);
    SampleOrMarker(mem, noise, slots, marks, k, Sample(d, base, Source(k, n)));
  }

  // ---------- the published stream ----------

  /** The slots of the published packets, one packet after the other. */
  function Stream(sent: seq<Packet>): seq<Quad> {
    if sent == [] then [] else Stream(sent[..|sent|-1]) + sent[|sent|-1].slots
  }

  lemma {:induction false} StreamOf(sent: seq<Packet>, total: nat, train: nat, window: seq<Quad>, slots: seq<Quad>)
    requires AllSent(sent, 1, total, train, window, slots) && sent != []
    ensures var loaded := WAVE_SAMPLE_LEN * (|sent| - 1);
            loaded <= |slots| && Stream(sent) == window + slots[..loaded]
  {
    var k := |sent| - 1;
    assert PacketAt(sent, k, 1, total, train, window, slots);
    var front := sent[..k];
    if k > 0 {
      forall i | 0 <= i < k ensures PacketAt(front, i, 1, total, train, window, slots) {
        assert PacketAt(sent, i, 1, total, train, window, slots);
      }
      StreamOf(front, total, train, window, slots);
      var a := WAVE_SAMPLE_LEN * (k - 1);
      assert slots[..a] + slots[a..a + WAVE_SAMPLE_LEN] == slots[..a + WAVE_SAMPLE_LEN];
    }
  }

  ghost predicate Quietly(noise: nat -> Record) { forall t :: noise(t) == NO_ERROR }

  /** How many slots a whole send replays. */
  function Replays(n: nat): (count: nat)
    ensures n < count <= n + WAVE_SAMPLE_LEN
  { WAVE_SAMPLE_LEN * (1 + n / WAVE_SAMPLE_LEN) }

  /** What fault-free reads find at slot k of a memory that nobody wrote to. */
  function Stale(m: seq<Byte>, k: nat): Quad
    requires 10 * k + 10 <= |m|
  { if Accepted(RecordIn(m, k)) then Decode(RecordIn(m, k)) else MARKER }

  /** The recording, its last sample up to the end of the padding, then what was there before. */
  function Replayed(d: seq<Quad>, base: nat, n: nat, m: seq<Byte>, count: nat): (s: seq<Quad>)
    requires n >= 1 && |d| == base + n && 10 * count <= |m|
    ensures |s| == count
  {
    seq(count, k requires 0 <= k < count =>
      if k < n + PAD then Sample(d, base, Source(k, n)) else Stale(m, k))
  }

  /** The n recorded samples, then the last of them over and over, count slots in all. */
  function Continued(d: seq<Quad>, base: nat, n: nat, count: nat): (s: seq<Quad>)
    requires n >= 1 && |d| == base + n && count >= n
    ensures |s| == count
  { SaturatedAll(d[base..]) + seq(count - n, _ => Saturated(d[|d| - 1])) }

  lemma SlotsReplayed(mem: seq<Byte>, d: seq<Quad>, base: nat, n: nat, m: seq<Byte>,
                      noise: nat -> Record, slots: seq<Quad>, marks: seq<nat>)
    requires OnChip(mem, d, base, n, m) && Loaded(mem, noise, slots, marks) && Quietly(noise)
    ensures slots == Replayed(d, base, n, m, |slots|)
  {
    var r := Replayed(d, base, n, m, |slots|);
    forall k | 0 <= k < |slots| ensures slots[k] == r[k] {
      FaultFreeReplay(mem, d, base, n, m, noise, slots, marks, k);
    }
  }

  /** The recording itself is replayed in order without gap or repeat, whatever its length. */
  lemma RecordingInOrder(d: seq<Quad>, base: nat, n: nat, m: seq<Byte>, count: nat)
    requires n >= 1 && |d| == base + n && n <= count && 10 * count <= |m|
    ensures Replayed(d, base, n, m, count)[..n] == SaturatedAll(d[base..])
  {
  }

  /** A memory of zeros holds no record: its checksum field is wrong. */
  lemma BlankRejected(r: Record)
    requires r == NO_ERROR
    ensures !Accepted(r)
  {
    var p := Preset(BitsOf(r));
    AcceptedIsMultiple(r);
    forall i | 0 <= i < |p| ensures p[i] == (i < 16) { ZeroBits(r, i); }
    assert p[0] && Within(p, 0);
    BurstsDetected(p);
  }

  lemma {:induction false} ZeroBits(data: seq<Byte>, i: nat)
    requires i < 8 * |data| && forall k | 0 <= k < |data| :: data[k] == Zeros8()
    ensures !BitsOf(data)[i]
  {
    if i < 8 * (|data| - 1) { ZeroBits(data[..|data|-1], i); }
  }

  ghost function Blank(size: nat): seq<Byte> { seq(size, _ => Zeros8()) }

  ghost predicate TailRepeats(d: seq<Quad>, base: nat, n: nat, m: seq<Byte>)
    requires n >= 1 && |d| == base + n && 10 * Replays(n) <= |m|
  { Replayed(d, base, n, m, Replays(n)) == Continued(d, base, n, Replays(n)) }

  /** With fewer than 24 recorded samples in the last packet, over a memory of zeros, the last
      slot shows the marker instead of the last sample. */
  lemma BlankTail(d: seq<Quad>, base: nat, n: nat, size: nat)
    requires n >= 1 && |d| == base + n && 10 * Replays(n) <= size && n % WAVE_SAMPLE_LEN < 24
    ensures Replayed(d, base, n, Blank(size), Replays(n))[Replays(n) - 1] == MARKER
    ensures !TailRepeats(d, base, n, Blank(size))
  {
    var k := Replays(n) - 1;
    assert k >= n + PAD;
    assert RecordIn(Blank(size), k) == NO_ERROR;
    BlankRejected(NO_ERROR);
  }

  /** The slots after the recording repeat its last sample whatever the memory held before, if and
      only if at least 24 recorded samples fall into the last packet. */
  lemma TailExactly(d: seq<Quad>, base: nat, n: nat, size: nat)
    requires n >= 1 && |d| == base + n && 10 * Replays(n) <= size
    ensures (forall m | |m| == size :: TailRepeats(d, base, n, m)) <==> n % WAVE_SAMPLE_LEN >= 24
  {
    if n % WAVE_SAMPLE_LEN >= 24 {
      forall m | |m| == size ensures TailRepeats(d, base, n, m) {
        assert Replays(n) <= n + PAD;
      }
    } else {
      BlankTail(d, base, n, size);
      assert |Blank(size)| == size;
    }
  }

  /** Every packet of one send, delivered in order up to the first failing publish. */
  ghost predicate Delivered(sent: seq<Packet>, n: nat, train: nat, window: seq<Quad>, slots: seq<Quad>,
                            publishOk: nat -> bool, ok: bool)
  {
    && AllSent(sent, 1, 2 + n / WAVE_SAMPLE_LEN, train, window, slots)
    && Outcome(publishOk, |sent|, 2 + n / WAVE_SAMPLE_LEN, ok)
    && (ok ==> |slots| == Replays(n))
  }

  /** The published slots are the window up to the trigger and the replay; the first 1024 + n of
      them are the window and the whole recording. */
  ghost predicate Faithful(sent: seq<Packet>, d: seq<Quad>, base: nat, n: nat, m: seq<Byte>) {
    && n >= 1 && |d| == base + n && 10 * Replays(n) <= |m|
    && Stream(sent) == Window(SIZE, SaturatedAll(d[..base])) + Replayed(d, base, n, m, Replays(n))
    && Stream(sent)[..SIZE + n] == Window(SIZE, SaturatedAll(d[..base])) + SaturatedAll(d[base..])
  }

  /** What a whole send publishes when nothing fails, for every length of the recording. */
  lemma FaultFreeStream(mem: seq<Byte>, d: seq<Quad>, base: nat, n: nat, m: seq<Byte>, noise: nat -> Record,
                        slots: seq<Quad>, marks: seq<nat>, sent: seq<Packet>, train: nat, publishOk: nat -> bool)
    requires OnChip(mem, d, base, n, m) && Loaded(mem, noise, slots, marks) && Quietly(noise)
    requires Delivered(sent, n, train, Window(SIZE, SaturatedAll(d[..base])), slots, publishOk, true)
    ensures Faithful(sent, d, base, n, m)
  {
    var w := Window(SIZE, SaturatedAll(d[..base]));
    StreamOf(sent, |sent|, train, w, slots);
    SlotsReplayed(mem, d, base, n, m, noise, slots, marks);
    RecordingInOrder(d, base, n, m, |slots|);
    assert slots[..|slots|] == slots;
    assert (w + slots)[..SIZE + n] == w + slots[..n];
  }

  lemma FaultFreeSend(mem: seq<Byte>, d: seq<Quad>, base: nat, n: nat, m: seq<Byte>, noise: nat -> Record,
                      slots: seq<Quad>, marks: seq<nat>, sent: seq<Packet>, train: nat,
                      publishOk: nat -> bool, ok: bool)
    requires OnChip(mem, d, base, n, m) && Loaded(mem, noise, slots, marks)
    requires Delivered(sent, n, train, Window(SIZE, SaturatedAll(d[..base])), slots, publishOk, ok)
    ensures ok && Quietly(noise) ==> Faithful(sent, d, base, n, m)
  {
    if ok && Quietly(noise) {
      FaultFreeStream(mem, d, base, n, m, noise, slots, marks, sent, train, publishOk);
    }
  }

  /** A faithful stream ends with repetitions of the last sample when the padding suffices. */
  lemma FaithfulTail(sent: seq<Packet>, d: seq<Quad>, base: nat, n: nat, m: seq<Byte>)
    requires Faithful(sent, d, base, n, m) && n % WAVE_SAMPLE_LEN >= 24
    ensures Stream(sent) == Window(SIZE, SaturatedAll(d[..base])) + Continued(d, base, n, Replays(n))
  {
    TailExactly(d, base, n, |m|);
    assert TailRepeats(d, base, n, m);
  }

  /** When it does not, a stream that was recorded over a memory of zeros ends with the marker. */
  lemma BlankStream(sent: seq<Packet>, d: seq<Quad>, base: nat, n: nat, m: seq<Byte>)
    requires Faithful(sent, d, base, n, m) && n % WAVE_SAMPLE_LEN < 24 && m == Blank(|m|)
    ensures Stream(sent)[SIZE + Replays(n) - 1] == MARKER != Saturated(d[|d| - 1])
  {
    BlankTail(d, base, n, |m|);
    var w, r := Window(SIZE, SaturatedAll(d[..base])), Replayed(d, base, n, m, Replays(n));
    assert (w + r)[SIZE + Replays(n) - 1] == r[Replays(n) - 1];
  }

  /** The last sample before the recording in the window is the one that triggered it. */
  lemma TriggerLast(d: seq<Quad>, base: nat)
    requires 1 <= base <= |d|
    ensures Window(SIZE, SaturatedAll(d[..base]))[SIZE - 1] == Saturated(d[base - 1])
  {
  }

  // ---------- the measurement stage ----------

  /** The ring and the waiting loop. */
  method Await(chain: Chain, ring: CircularBuffer, waiting: seq<Quad>, trigStart: nat)
    returns (triggered: bool, base: nat, last: nat)
    requires chain.Valid() && chain.diffs == [] && ring.Shape() && chain.Repr !! ring.Objects()
    requires AllBounded(waiting, RAW)
    modifies chain.Repr, ring.Objects()
    ensures chain.Valid() && old(chain.averager.history) <= chain.averager.history
    ensures ring.Valid() && ring.overflow && ring.head == last
    ensures |chain.diffs| == base <= |waiting| && FirstLoud(chain.diffs, trigStart)
    ensures if triggered then base >= 1 && Loud(chain.diffs, trigStart) else base == |waiting|
    ensures ring.history == SaturatedAll(chain.diffs)
  {
    ring.Init();
    triggered, base, last := WaitForTrigger(chain, ring, waiting, trigStart);
  }

  /** What a recording after base samples is: it goes on to the first sample that meets the stop
      condition and lies in the memory, padded. */
  ghost predicate Captured(d: seq<Quad>, base: nat, n: nat, recs: seq<Record>, lows: seq<bool>,
                           trigEnd: nat, duration: nat, mem: seq<Byte>, m: seq<Byte>)
  {
    && 1 <= n == |lows| <= MAX_SAMPLES
    && Recorded(d, base, recs, lows, trigEnd, duration) && Stops(lows, duration)
    && OnChip(mem, d, base, n, m)
  }

  /** The recording loop and the padding, from the trigger on. */
  method Capture(chain: Chain, chip: Chip, writeBuf: array<Byte>, recording: seq<Quad>, trigEnd: nat, duration: nat)
    returns (n: nat, ghost recs: seq<Record>, ghost lows: seq<bool>)
    requires chain.Valid() && chip.Valid() && writeBuf.Length == 40 && {writeBuf, chip} !! chain.Repr
    requires AllBounded(recording, RAW) && |recording| >= MAX_SAMPLES && duration <= 0xffff
    modifies chain.Repr, chip, writeBuf
    ensures chain.Valid() && old(chain.averager.history) <= chain.averager.history
    ensures chip.Valid() && old(chain.diffs) <= chain.diffs
    ensures Captured(chain.diffs, |old(chain.diffs)|, n, recs, lows, trigEnd, duration, chip.mem, old(chip.mem))
  {
    ghost var base, m := |chain.diffs|, chip.mem;
    var stopped;
    n, stopped, recs, lows := RecordRun(chain, chip, writeBuf, recording, trigEnd, duration);
    ghost var d := chain.diffs;
    assert SavedAt(d, base, recs, n - 1);
    Pad(chip, writeBuf, recs, Sample(d, base, n - 1), m, n);
    StoredOnChip(recs, d, base, n, m);
  }

  /** Sending what was captured: the window of the ring first, then the replay. */
  method SendCaptured(sender: Sender, n: nat, last: nat, noise: nat -> Record, publishOk: nat -> bool,
                      ghost d: seq<Quad>, ghost base: nat, ghost m: seq<Byte>)
    returns (ok: bool, ghost sent: seq<Packet>)
    requires sender.Shape() && sender.ring.Valid() && sender.ring.overflow && last == sender.ring.head
    requires n <= MAX_SAMPLES && OnChip(sender.chip.mem, d, base, n, m)
    requires sender.ring.history == SaturatedAll(d[..base])
    modifies sender, sender.chip, sender.readBuf, sender.seed.Objects(), sender.ring
    ensures sender.chip.mem == old(sender.chip.mem)
    ensures sender.published == old(sender.published) + sent
    ensures Loaded(sender.chip.mem, noise, sender.slots, sender.marks)
    ensures Delivered(sent, n, old(sender.trainCounter), Window(SIZE, SaturatedAll(d[..base])),
                      sender.slots, publishOk, ok)
    ensures ok && Quietly(noise) ==> Faithful(sent, d, base, n, m)
  {
    ghost var train, mem := sender.trainCounter, sender.chip.mem;
    ok, sent := sender.Send(SIZE + n, last, noise, publishOk);
    FaultFreeSend(mem, d, base, n, m, noise, sender.slots, sender.marks, sent, train, publishOk, ok);
  }

  ghost predicate Separate(chain: Chain, sender: Sender, writeBuf: array<Byte>) {
    && {sender, sender.chip, sender.readBuf, writeBuf} + sender.seed.Objects() + sender.ring.Objects() !! chain.Repr
    && Apart(sender, writeBuf)
  }

  ghost predicate Apart(sender: Sender, writeBuf: array<Byte>) {
    && writeBuf != sender.readBuf && writeBuf !in sender.seed.Objects() && writeBuf !in sender.ring.Objects()
    && sender !in sender.ring.Objects() && sender.chip !in sender.seed.Objects() + sender.ring.Objects()
  }

  /** All that follows the trigger. */
  method RecordAndSend(chain: Chain, sender: Sender, writeBuf: array<Byte>, recording: seq<Quad>,
                       trigEnd: nat, duration: nat, last: nat, noise: nat -> Record, publishOk: nat -> bool)
    returns (n: nat, ok: bool, ghost recs: seq<Record>, ghost lows: seq<bool>, ghost sent: seq<Packet>)
    requires chain.Valid() && sender.Shape() && writeBuf.Length == 40 && Separate(chain, sender, writeBuf)
    requires sender.ring.Valid() && sender.ring.overflow && last == sender.ring.head
    requires sender.ring.history == SaturatedAll(chain.diffs)
    requires AllBounded(recording, RAW) && |recording| >= MAX_SAMPLES && duration <= 0xffff
    modifies chain.Repr, sender, sender.chip, sender.readBuf, writeBuf, sender.seed.Objects(), sender.ring
    ensures chain.Valid() && old(chain.averager.history) <= chain.averager.history
    ensures old(chain.diffs) <= chain.diffs
    ensures Captured(chain.diffs, |old(chain.diffs)|, n, recs, lows, trigEnd, duration,
                     sender.chip.mem, old(sender.chip.mem))
    ensures Loaded(sender.chip.mem, noise, sender.slots, sender.marks)
    ensures sender.published == old(sender.published) + sent
    ensures Delivered(sent, n, old(sender.trainCounter), Window(SIZE, SaturatedAll(old(chain.diffs))),
                      sender.slots, publishOk, ok)
    ensures ok && Quietly(noise) ==> Faithful(sent, chain.diffs, |old(chain.diffs)|, n, old(sender.chip.mem))
  {
    ghost var d, m := chain.diffs, sender.chip.mem;
    n, recs, lows := Capture(chain, sender.chip, writeBuf, recording, trigEnd, duration);
    assert chain.diffs[..|d|] == d;
    ok, sent := SendCaptured(sender, n, last, noise, publishOk, chain.diffs, |d|, m);
  }

  /** The measurement stage of main: wait for the trigger, record, pad, send. */
  method CaptureAndSend(chain: Chain, sender: Sender, writeBuf: array<Byte>,
                        waiting: seq<Quad>, recording: seq<Quad>,
                        trigStart: nat, trigEnd: nat, duration: nat,
                        noise: nat -> Record, publishOk: nat -> bool)
    returns (triggered: bool, base: nat, n: nat, ok: bool,
             ghost recs: seq<Record>, ghost lows: seq<bool>, ghost sent: seq<Packet>)
    requires chain.Valid() && chain.diffs == [] && sender.Shape() && sender.ring.Shape() && writeBuf.Length == 40
    requires Separate(chain, sender, writeBuf)
    requires AllBounded(waiting, RAW) && AllBounded(recording, RAW) && |recording| >= MAX_SAMPLES
    requires duration <= 0xffff
    modifies chain.Repr, sender, sender.chip, sender.readBuf, writeBuf, sender.seed.Objects(), sender.ring.Objects()
    ensures chain.Valid() && old(chain.averager.history) <= chain.averager.history
    ensures base <= |waiting| && base <= |chain.diffs| && FirstLoud(chain.diffs[..base], trigStart)
    ensures !triggered ==> base == |waiting| && sender.published == old(sender.published)
    ensures triggered ==> base >= 1 && Loud(chain.diffs[..base], trigStart)
    ensures triggered ==>
      && Captured(chain.diffs, base, n, recs, lows, trigEnd, duration, sender.chip.mem, old(sender.chip.mem))
      && Loaded(sender.chip.mem, noise, sender.slots, sender.marks)
      && sender.published == old(sender.published) + sent
      && Delivered(sent, n, old(sender.trainCounter), Window(SIZE, SaturatedAll(chain.diffs[..base])),
                   sender.slots, publishOk, ok)
    ensures triggered && ok && Quietly(noise) ==>
      Faithful(sent, chain.diffs, base, n, old(sender.chip.mem))
  {
    var last;
    triggered, base, last := Await(chain, sender.ring, waiting, trigStart);
    n, ok, sent, recs, lows := 0, false, [], [], [];
    ghost var d := chain.diffs;
    assert d[..base] == d;
    if triggered {
      n, ok, recs, lows, sent :=
        RecordAndSend(chain, sender, writeBuf, recording, trigEnd, duration, last, noise, publishOk);
      assert chain.diffs[..base] == d;
    }
  }

  /** The whole stage from the start: gather the offsets, then capture and send with them. */
  method MeasurementStage(gathering: seq<Quad>, waiting: seq<Quad>, recording: seq<Quad>,
                          content: seq<Byte>, trigStart: nat, trigEnd: nat, duration: nat,
                          noise: nat -> Record, publishOk: nat -> bool)
    returns (chain: Chain, sender: Sender, triggered: bool, base: nat, n: nat, ok: bool)
    requires |gathering| == GATHER && |content| == 0x100_0000
    requires AllBounded(gathering, RAW) && AllBounded(waiting, RAW) && AllBounded(recording, RAW)
    requires |recording| >= MAX_SAMPLES && duration <= 0xffff
    ensures chain.Valid() && chain.warm == GATHER && base <= |chain.diffs|
    ensures chain.averager.history[..GATHER] == gathering
    ensures chain.offsets == Offsets(gathering)
    ensures triggered ==> base >= 1 && Loud(chain.diffs[..base], trigStart)
    ensures FirstLoud(chain.diffs[..base], trigStart)
    ensures triggered && ok && Quietly(noise) ==> Faithful(sender.published, chain.diffs, base, n, content)
  {
    var writeBuf;
    chain, sender, writeBuf := Prepare(gathering, content);
    ghost var recs, lows, sent;
    triggered, base, n, ok, recs, lows, sent :=
      CaptureAndSend(chain, sender, writeBuf, waiting, recording, trigStart, trigEnd, duration, noise, publishOk);
    assert triggered ==> sender.published == sent;
  }

  /** Everything the stage works on, with the offsets gathered. */
  method Prepare(gathering: seq<Quad>, content: seq<Byte>)
    returns (chain: Chain, sender: Sender, writeBuf: array<Byte>)
    requires |gathering| == GATHER && |content| == 0x100_0000 && AllBounded(gathering, RAW)
    ensures chain.Valid() && chain.diffs == [] && chain.warm == GATHER
    ensures chain.averager.history == gathering && chain.offsets == Offsets(gathering)
    ensures sender.Shape() && sender.ring.Shape() && sender.published == [] && sender.chip.mem == content
    ensures writeBuf.Length == 40 && Separate(chain, sender, writeBuf)
    ensures fresh(chain.Repr) && fresh({sender, sender.chip, sender.readBuf, writeBuf})
    ensures fresh(sender.seed.Objects()) && fresh(sender.ring.Objects())
  {
    chain := Gather(gathering);
    sender, writeBuf := NewSender(content);
  }

  method Gather(gathering: seq<Quad>) returns (chain: Chain)
    requires |gathering| == GATHER && AllBounded(gathering, RAW)
    ensures chain.Valid() && chain.diffs == [] && chain.warm == GATHER && fresh(chain.Repr)
    ensures chain.averager.history == gathering && chain.offsets == Offsets(gathering)
  {
    var averager := new Averager();
    var o := GatherOffsets(averager, gathering);
    OffsetsBounded(gathering);
    chain := new Chain(averager, Quad(o[0], o[1], o[2], o[3]));
  }

  method NewSender(content: seq<Byte>) returns (sender: Sender, writeBuf: array<Byte>)
    requires |content| == 0x100_0000
    ensures sender.Shape() && sender.ring.Shape() && sender.published == [] && sender.chip.mem == content
    ensures writeBuf.Length == 40 && Apart(sender, writeBuf)
    ensures fresh({sender, sender.chip, sender.readBuf, writeBuf})
    ensures fresh(sender.seed.Objects()) && fresh(sender.ring.Objects())
  {
    var ring := new CircularBuffer();
    var chip := new Chip(content);
    sender := new Sender(ring, chip);
    writeBuf := new Byte[40](_ => Zeros8());
  }

  /** The offsets the gathering loop leaves. */
  ghost function Offsets(h: seq<Quad>): Quad {
    Quad(Baseline.Baseline(h, 0), Baseline.Baseline(h, 1), Baseline.Baseline(h, 2), Baseline.Baseline(h, 3))
  }

  /** Gathered from a constant reading, the offsets are that reading, each channel its own. */
  lemma ConstantOffsets(h: seq<Quad>, q: Quad)
    requires |h| == GATHER && (forall k | 0 <= k < |h| :: h[k] == q)
    requires 0 <= q.c0 <= 4885 && 0 <= q.c1 <= 4885 && 0 <= q.c2 <= 4885 && 0 <= q.c3 <= 4885
    ensures Offsets(h) == q
  {
    ConstantBaseline(h, 0, q.c0);
    ConstantBaseline(h, 1, q.c1);
    ConstantBaseline(h, 2, q.c2);
    ConstantBaseline(h, 3, q.c3);
  }

  /** With the offsets gathered from a constant reading q, four readings x above it make a sample of
      exactly x, which is stored as it is while it is within the limit. */
  lemma RiseIsStored(h: seq<Quad>, d: seq<Quad>, i: nat, q: Quad, x: Quad)
    requires |h| >= GATHER && Corrected(h, GATHER, Offsets(h[..GATHER]), d) && 3 <= i < |d|
    requires forall k | 0 <= k < GATHER :: h[k] == q
    requires 0 <= q.c0 <= 4885 && 0 <= q.c1 <= 4885 && 0 <= q.c2 <= 4885 && 0 <= q.c3 <= 4885
    requires forall k | GATHER + i - 3 <= k <= GATHER + i ::
      h[k] == Quad(q.c0 + x.c0, q.c1 + x.c1, q.c2 + x.c2, q.c3 + x.c3)
    ensures d[i] == x && (WithinLimit(x) ==> Saturated(d[i]) == x)
  {
    ConstantOffsets(h[..GATHER], q);
    SteadySample(h, GATHER, q, d, i, Quad(q.c0 + x.c0, q.c1 + x.c1, q.c2 + x.c2, q.c3 + x.c3));
  }

  lemma OffsetsBounded(h: seq<Quad>)
    requires AllBounded(h, RAW)
    ensures Bounded(Offsets(h), RAW)
  {
    BaselineBounded(h, 0);
    BaselineBounded(h, 1);
    BaselineBounded(h, 2);
    BaselineBounded(h, 3);
  }
}
