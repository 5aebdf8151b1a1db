/** Sending a recording: the pre-trigger window, then the records read back from the serial
    RAM with retries, in numbered packets. */
module Replay {
  import opened Cyclic
  import opened Memory
  import opened Words
  import opened Crc
  import opened Psram
  import opened Ring
  import opened Samples

  const WAVE_SAMPLE_LEN: nat := 1024
  const MAX_RETRIES: nat := 100

  /** What is published of seed_packet; slots hold chan_0_vlt, chan_0_int, chan_1_vlt and
      chan_1_int as the four components. */
  datatype Packet = Packet(header: nat, version: nat, number: nat, total: nat,
                           trainCounter: nat, slots: seq<Quad>, crc: nat)

  /** The record at slot k of a memory. */
  function RecordIn(mem: seq<Byte>, k: nat): Record
    requires 10 * k + 10 <= |mem|
  { mem[10 * k..10 * k + 10] }

  /** Slot value q was obtained from record r by reads t0 up to t1: all but the last were
      rejected; the last was accepted and decoded, or rejected too and the marker stored. */
  ghost predicate ReadAs(r: Record, noise: nat -> Record, t0: nat, t1: nat, q: Quad) {
    && t0 < t1
    && AllRejected(r, noise, t0, t1 - 1)
    && q == if Accepted(Corrupt(r, noise(t1 - 1))) then Decode(Corrupt(r, noise(t1 - 1))) else MARKER
  }

  ghost predicate Rejected(r: Record, noise: nat -> Record, t: nat) {
    !Accepted(Corrupt(r, noise(t)))
  }

  ghost predicate AllRejected(r: Record, noise: nat -> Record, t0: nat, t1: nat) {
    forall t | t0 <= t < t1 :: Rejected(r, noise, t)
  }

  lemma AcceptedRead(r: Record, noise: nat -> Record, t0: nat, t1: nat, q: Quad)
    requires t0 < t1 && AllRejected(r, noise, t0, t1 - 1) && !Rejected(r, noise, t1 - 1)
    requires q == Decode(Corrupt(r, noise(t1 - 1)))
    ensures ReadAs(r, noise, t0, t1, q)
  {
  }

  ghost predicate SlotAt(mem: seq<Byte>, noise: nat -> Record, slots: seq<Quad>, marks: seq<nat>, k: nat)
    requires k < |slots| && k + 1 < |marks| && 10 * k + 10 <= |mem|
  { ReadAs(RecordIn(mem, k), noise, marks[k], marks[k + 1], slots[k]) }

  /** Slot k of the replay comes from the record at address 10 k, by its own stretch of reads. */
  ghost predicate Loaded(mem: seq<Byte>, noise: nat -> Record, slots: seq<Quad>, marks: seq<nat>) {
    && |marks| == |slots| + 1 && marks[0] == 0 && 10 * |slots| <= |mem|
    && forall k | 0 <= k < |slots| :: SlotAt(mem, noise, slots, marks, k)
  }

  lemma LoadedSnoc(mem: seq<Byte>, noise: nat -> Record, slots: seq<Quad>, marks: seq<nat>, q: Quad, t: nat)
    requires Loaded(mem, noise, slots, marks) && 10 * |slots| + 10 <= |mem|
    requires ReadAs(RecordIn(mem, |slots|), noise, marks[|slots|], t, q)
    ensures Loaded(mem, noise, slots + [q], marks + [t])
  {
    forall k | 0 <= k < |slots| + 1 ensures SlotAt(mem, noise, slots + [q], marks + [t], k) {
      if k < |slots| { assert SlotAt(mem, noise, slots, marks, k); }
    }
  }

  // ---------- what the slots can hold ----------

  const NO_ERROR: Record := seq(10, _ => Zeros8())

  function Zeros8(): Byte { [false, false, false, false, false, false, false, false] }

  lemma NoErrorKeeps(r: Record)
    ensures Corrupt(r, NO_ERROR) == r
  {
    forall i | 0 <= i < 10 ensures Corrupt(r, NO_ERROR)[i] == r[i] {
      assert XorByte(r[i], NO_ERROR[i]) == r[i];
    }
  }

  /** With fault-free reads every slot is its record decoded, or the marker if the record is no
      valid one. */
  lemma FaultFree(mem: seq<Byte>, noise: nat -> Record, slots: seq<Quad>, marks: seq<nat>, k: nat)
    requires Loaded(mem, noise, slots, marks) && k < |slots|
    requires forall t :: noise(t) == NO_ERROR
    ensures var r := RecordIn(mem, k);
            slots[k] == if Accepted(r) then Decode(r) else MARKER
  {
    assert SlotAt(mem, noise, slots, marks, k);
    NoErrorKeeps(RecordIn(mem, k));
  }

  /** If every read error is a burst of at most 16 bits or of odd weight, a slot whose record is
      that of a recorded sample holds exactly that sample or the marker, and a reader can tell
      which. */
  lemma SampleOrMarker(mem: seq<Byte>, noise: nat -> Record, slots: seq<Quad>, marks: seq<nat>, k: nat, q: Quad)
    requires Loaded(mem, noise, slots, marks) && k < |slots|
    requires forall t :: noise(t) == NO_ERROR || Detectable(noise(t))
    requires RecordIn(mem, k) == RecordOf(q) && WithinLimit(q)
    ensures slots[k] == q || slots[k] == MARKER
    ensures q != MARKER
    ensures slots[k] == MARKER <==> AllRejected(RecordOf(q), noise, marks[k], marks[k + 1])
  {
    RecordRoundTrip(q);
    assert SlotAt(mem, noise, slots, marks, k);
    ReadOrMarker(RecordOf(q), noise, marks[k], marks[k + 1], slots[k]);
  }

  lemma ReadOrMarker(r: Record, noise: nat -> Record, t0: nat, t1: nat, q: Quad)
    requires ReadAs(r, noise, t0, t1, q) && Accepted(r) && Decode(r) != MARKER
    requires forall t :: noise(t) == NO_ERROR || Detectable(noise(t))
    ensures q == if AllRejected(r, noise, t0, t1) then MARKER else Decode(r)
  {
    var t := t1 - 1;
    NoErrorKeeps(r);
    if noise(t) == NO_ERROR {
      assert !Rejected(r, noise, t);
    } else {
      DetectableRejected(r, noise(t));
      assert Rejected(r, noise, t);
    }
  }

  // ---------- the sending code ----------

  /** The four wave arrays of seed_packet. */
  class SeedPacket {
    const chan0Vlt: array<int>
    const chan0Int: array<int>
    const chan1Vlt: array<int>
    const chan1Int: array<int>

    ghost function Objects(): set<object> { {chan0Vlt, chan0Int, chan1Vlt, chan1Int} }

    ghost predicate Shape()
    {
      && chan0Vlt.Length == chan0Int.Length == chan1Vlt.Length == chan1Int.Length == WAVE_SAMPLE_LEN
      && chan0Vlt != chan0Int && chan0Vlt != chan1Vlt && chan0Vlt != chan1Int
      && chan0Int != chan1Vlt && chan0Int != chan1Int && chan1Vlt != chan1Int
    }

    ghost function View(): (v: seq<Quad>)
      requires Shape()
      reads Objects()
      ensures |v| == WAVE_SAMPLE_LEN
    { Zip(chan0Vlt[..], chan0Int[..], chan1Vlt[..], chan1Int[..]) }

    constructor ()
      ensures Shape() && fresh(Objects())
    {
      chan0Vlt, chan0Int := new int[WAVE_SAMPLE_LEN], new int[WAVE_SAMPLE_LEN];
      chan1Vlt, chan1Int := new int[WAVE_SAMPLE_LEN], new int[WAVE_SAMPLE_LEN];
    }

    method Put(i: nat, q: Quad)
      requires Shape() && i < WAVE_SAMPLE_LEN
      modifies Objects()
      ensures View() == old(View())[i := q]
    {
      chan0Vlt[i] := q.c0;
      chan0Int[i] := q.c1;
      chan1Vlt[i] := q.c2;
      chan1Int[i] := q.c3;
    }

    /** The slots as values, for publishing. */
    method Snapshot() returns (v: seq<Quad>)
      requires Shape()
      ensures v == View()
    {
      v := seq(WAVE_SAMPLE_LEN, i requires 0 <= i < WAVE_SAMPLE_LEN reads Objects() =>
        Quad(chan0Vlt[i], chan0Int[i], chan1Vlt[i], chan1Int[i]));
    }

    /** One memcpy into each of the four arrays. */
    method CopyAll(offset: nat, s0: seq<int>, s1: seq<int>, s2: seq<int>, s3: seq<int>)
      requires Shape() && |s0| == |s1| == |s2| == |s3| && offset + |s0| <= WAVE_SAMPLE_LEN
      modifies Objects()
      ensures View() == old(View())[..offset] + Zip(s0, s1, s2, s3) + old(View())[offset + |s0|..]
    {
      MemCopy(chan0Vlt, offset, s0);
      MemCopy(chan0Int, offset, s1);
      MemCopy(chan1Vlt, offset, s2);
      MemCopy(chan1Int, offset, s3);
    }

    /** The memcpy unrolling of the ring into the packet. */
    method CopyRing(ring: CircularBuffer, last: nat)
      requires Shape() && ring.Valid() && last == ring.head && ring.Objects() !! Objects()
      modifies Objects()
      ensures ring.Valid() && View() == Window(SIZE, ring.history)
    {
      var head, tail := last, SIZE - last;
      ghost var v := ring.View();
      if tail == 0 {
        CopyAll(0, ring.ch0[..SIZE], ring.ch1[..SIZE], ring.ch2[..SIZE], ring.ch3[..SIZE]);
      } else {
        CopyAll(0, ring.ch0[head..head + tail], ring.ch1[head..head + tail],
                ring.ch2[head..head + tail], ring.ch3[head..head + tail]);
        assert View()[..tail] == v[head..];
        CopyAll(tail, ring.ch0[..head], ring.ch1[..head], ring.ch2[..head], ring.ch3[..head]);
      }
      assert View() == Unroll(v, last);
    }
  }

  /** What packet k of a send must be: numbered from one, the window first if the ring has one,
      then consecutive runs of 1024 slots. */
  ghost predicate PacketAt(sent: seq<Packet>, k: nat, first: nat, total: nat, train: nat,
                           window: seq<Quad>, slots: seq<Quad>)
    requires k < |sent|
  {
    && sent[k].header == 0xBEEF && sent[k].version == 0x0101 && sent[k].crc == 0xABCD
    && sent[k].number == k + 1 && sent[k].total == total && sent[k].trainCounter == train
    && if k < first then sent[k].slots == window
       else (WAVE_SAMPLE_LEN * (k - first + 1) <= |slots|
             && sent[k].slots == slots[WAVE_SAMPLE_LEN * (k - first)..WAVE_SAMPLE_LEN * (k - first + 1)])
  }

  ghost predicate AllSent(sent: seq<Packet>, first: nat, total: nat, train: nat,
                          window: seq<Quad>, slots: seq<Quad>)
  {
    forall k | 0 <= k < |sent| :: PacketAt(sent, k, first, total, train, window, slots)
  }

  lemma SentSnoc(sent: seq<Packet>, p: Packet, first: nat, total: nat, train: nat,
                 window: seq<Quad>, slots: seq<Quad>, slots': seq<Quad>)
    requires AllSent(sent, first, total, train, window, slots) && slots <= slots'
    requires PacketAt(sent + [p], |sent|, first, total, train, window, slots')
    ensures AllSent(sent + [p], first, total, train, window, slots')
  {
    forall k | 0 <= k < |sent| + 1 ensures PacketAt(sent + [p], k, first, total, train, window, slots') {
      if k < |sent| {
        assert PacketAt(sent, k, first, total, train, window, slots);
      }
    }
  }

  lemma SentPrefix(sent: seq<Packet>, first: nat, total: nat, train: nat,
                   window: seq<Quad>, slots: seq<Quad>, slots': seq<Quad>)
    requires AllSent(sent, first, total, train, window, slots) && slots <= slots'
    ensures AllSent(sent, first, total, train, window, slots')
  {
    forall k | 0 <= k < |sent| ensures PacketAt(sent, k, first, total, train, window, slots') {
      assert PacketAt(sent, k, first, total, train, window, slots);
    }
  }

  /** n of total packets delivered: all of them, or up to the first publish that failed. */
  ghost predicate Outcome(publishOk: nat -> bool, n: nat, total: nat, ok: bool) {
    && (forall k | 0 <= k < n :: publishOk(k))
    && if ok then n == total else n < total && !publishOk(n)
  }

  class Sender {
    const seed: SeedPacket
    const ring: CircularBuffer
    const chip: Chip
    const readBuf: array<Byte>
    var trainCounter: nat
    var addressRead: nat
    var crcErrCounter: nat
    var failCounter: nat
    var published: seq<Packet>
    var readCount: nat             // reads of the chip so far in this send
    ghost var failed: nat         // reads rejected so far in this send
    ghost var slots: seq<Quad>    // slots loaded so far in this send
    ghost var marks: seq<nat>     // the read at which each slot began

    constructor (ring: CircularBuffer, chip: Chip)
      ensures this.ring == ring && this.chip == chip && readBuf.Length == 40 && seed.Shape()
      ensures fresh(seed.Objects()) && fresh(readBuf) && published == []
    {
      this.ring := ring;
      this.chip := chip;
      seed := new SeedPacket();
      readBuf := new Byte[40](_ => Zeros8());
      trainCounter, addressRead, crcErrCounter, failCounter, published := 0, 0, 0, 0, [];
      readCount, failed, slots, marks := 0, 0, [], [0];
    }

    ghost predicate Shape()
      reads chip
    {
      && seed.Shape() && readBuf.Length == 40 && chip.Valid()
      && readBuf !in seed.Objects() && this !in seed.Objects() && readBuf !in ring.Objects()
      && ring.Objects() !! seed.Objects()
    }

    /** Retries: every rejected read is either part of a full budget of 101 or still counted. */
    ghost predicate Counters()
      reads this
    {
      && failed == (MAX_RETRIES + 1) * failCounter + crcErrCounter && crcErrCounter <= MAX_RETRIES
      && addressRead == 10 * |slots| && readCount + failCounter == |slots| + failed
    }

    ghost predicate Progress(noise: nat -> Record)
      reads this, chip
    {
      && Shape() && Counters() && Loaded(chip.mem, noise, slots, marks) && marks[|slots|] <= readCount
      && (10 * |slots| + 10 <= |chip.mem| ==>
            AllRejected(RecordIn(chip.mem, |slots|), noise, marks[|slots|], readCount))
    }

    /** One pass of the retry loop for slot number loaded of the current packet. */
    method ReadOnce(noise: nat -> Record, loaded: nat) returns (advanced: bool)
      requires Progress(noise) && loaded < WAVE_SAMPLE_LEN && 10 * |slots| + 10 <= |chip.mem|
      modifies `addressRead, `crcErrCounter, `failCounter, `readCount, `failed, `slots, `marks,
               chip, readBuf, seed.Objects()
      ensures Progress(noise) && chip.mem == old(chip.mem)
      ensures if advanced then |slots| == |old(slots)| + 1 && slots[..|old(slots)|] == old(slots)
                else slots == old(slots) && crcErrCounter == old(crcErrCounter) + 1
      ensures seed.View() == if advanced then old(seed.View())[loaded := slots[|old(slots)|]] else old(seed.View())
    {
      var ok := Fetch(noise, |slots|);
      if ok {
        TakeSample(noise, loaded);
        advanced := true;
      } else {
        advanced := CountFailure(noise, loaded);
      }
    }

    /** The state between a read and what is done with it. */
    ghost predicate Fetched(noise: nat -> Record)
      reads this, chip
    {
      && Shape() && 10 * |slots| + 10 <= |chip.mem|
      && failed == (MAX_RETRIES + 1) * failCounter + crcErrCounter && crcErrCounter <= MAX_RETRIES
      && addressRead == 10 * |slots| && readCount + failCounter == |slots| + failed + 1
      && Loaded(chip.mem, noise, slots, marks) && marks[|slots|] < readCount
      && AllRejected(RecordIn(chip.mem, |slots|), noise, marks[|slots|], readCount - 1)
    }

    /** The accepted read: next address, next slot. */
    method TakeSample(noise: nat -> Record, loaded: nat)
      requires Fetched(noise) && loaded < WAVE_SAMPLE_LEN
      requires readBuf[..10] == Corrupt(RecordIn(chip.mem, |slots|), noise(readCount - 1))
      requires !Rejected(RecordIn(chip.mem, |slots|), noise, readCount - 1)
      modifies `addressRead, `slots, `marks, seed.Objects()
      ensures Progress(noise)
      ensures |slots| == |old(slots)| + 1 && slots[..|old(slots)|] == old(slots)
      ensures seed.View() == old(seed.View())[loaded := slots[|old(slots)|]]
    {
      addressRead := addressRead + 10;
      var q := DecodeRead(noise, RecordIn(chip.mem, |slots|), marks[|slots|]);
      Accept(noise, loaded, q);
    }

    /** The bytes of an accepted read as the sample of the slot whose reads began at t0. */
    method DecodeRead(ghost noise: nat -> Record, ghost r: Record, ghost t0: nat) returns (q: Quad)
      requires readBuf.Length == 40 && t0 < readCount && AllRejected(r, noise, t0, readCount - 1)
      requires !Rejected(r, noise, readCount - 1) && readBuf[..10] == Corrupt(r, noise(readCount - 1))
      ensures ReadAs(r, noise, t0, readCount, q)
    {
      q := LoadSample(readBuf);
      AcceptedRead(r, noise, t0, readCount, q);
    }

    /** The rejected read: one more failure, and past the budget the marker. */
    method CountFailure(noise: nat -> Record, loaded: nat) returns (advanced: bool)
      requires Fetched(noise) && loaded < WAVE_SAMPLE_LEN
      requires Rejected(RecordIn(chip.mem, |slots|), noise, readCount - 1)
      modifies `addressRead, `crcErrCounter, `failCounter, `failed, `slots, `marks, seed.Objects()
      ensures Progress(noise)
      ensures if advanced then |slots| == |old(slots)| + 1 && slots[..|old(slots)|] == old(slots)
                else slots == old(slots) && crcErrCounter == old(crcErrCounter) + 1
      ensures advanced <==> old(crcErrCounter) == MAX_RETRIES
      ensures advanced ==> slots[|old(slots)|] == MARKER
      ensures seed.View() == if advanced then old(seed.View())[loaded := MARKER] else old(seed.View())
    {
      ghost var r, m := RecordIn(chip.mem, |slots|), marks[|slots|];
      crcErrCounter := crcErrCounter + 1;
      failed := failed + 1;
      assert AllRejected(r, noise, m, readCount);
      advanced := crcErrCounter > MAX_RETRIES;
      if advanced {
        GiveUp(noise, loaded);
      }
    }

    /** The 101st failure since the last marker: the slot is given up and marked. */
    method GiveUp(noise: nat -> Record, loaded: nat)
      requires Shape() && loaded < WAVE_SAMPLE_LEN && 10 * |slots| + 10 <= |chip.mem|
      requires crcErrCounter == MAX_RETRIES + 1
      requires failed == (MAX_RETRIES + 1) * failCounter + crcErrCounter
      requires addressRead == 10 * |slots| && readCount + failCounter == |slots| + failed
      requires Loaded(chip.mem, noise, slots, marks) && marks[|slots|] < readCount
      requires AllRejected(RecordIn(chip.mem, |slots|), noise, marks[|slots|], readCount)
      modifies `addressRead, `crcErrCounter, `failCounter, `slots, `marks, seed.Objects()
      ensures Progress(noise) && slots == old(slots) + [MARKER]
      ensures slots[|old(slots)|] == Quad(-32760, -32760, -32760, -32760)
      ensures seed.View() == old(seed.View())[loaded := MARKER]
    {
      crcErrCounter := 0;
      failCounter := failCounter + 1;
      addressRead := addressRead + 10;
      assert Rejected(RecordIn(chip.mem, |slots|), noise, readCount - 1);
      Accept(noise, loaded, MARKER);
    }

    /** One read of ten bytes and its checksum test. */
    method Fetch(noise: nat -> Record, ghost k: nat) returns (ok: bool)
      requires Shape() && addressRead == 10 * k && 10 * k + 10 <= |chip.mem|
      modifies `readCount, chip, readBuf
      ensures Shape() && chip.mem == old(chip.mem) && readCount == old(readCount) + 1
      ensures readBuf[..10] == Corrupt(RecordIn(chip.mem, k), noise(old(readCount)))
      ensures ok <==> !Rejected(RecordIn(chip.mem, k), noise, old(readCount))
    {
      chip.ReadData(addressRead, readBuf, 10, noise(readCount));
      readCount := readCount + 1;
      ok := ChecksumMatches(readBuf);
    }

    /** Stores the value of the current slot. */
    method Accept(noise: nat -> Record, loaded: nat, q: Quad)
      requires Shape() && loaded < WAVE_SAMPLE_LEN && 10 * |slots| + 10 <= |chip.mem|
      requires Loaded(chip.mem, noise, slots, marks)
      requires ReadAs(RecordIn(chip.mem, |slots|), noise, marks[|slots|], readCount, q)
      modifies `slots, `marks, seed.Objects()
      ensures Shape() && slots == old(slots) + [q] && marks == old(marks) + [readCount]
      ensures Loaded(chip.mem, noise, slots, marks)
      ensures seed.View() == old(seed.View())[loaded := q]
    {
      seed.Put(loaded, q);
      LoadedSnoc(chip.mem, noise, slots, marks, q, readCount);
      slots, marks := slots + [q], marks + [readCount];
    }

    /** Loads the next 1024 slots; terminates whatever the reads deliver. */
    method LoadPacket(noise: nat -> Record)
      requires Progress(noise) && 10 * (|slots| + WAVE_SAMPLE_LEN) <= |chip.mem|
      modifies `addressRead, `crcErrCounter, `failCounter, `readCount, `failed, `slots, `marks,
               chip, readBuf, seed.Objects()
      ensures Progress(noise) && chip.mem == old(chip.mem)
      ensures |slots| == |old(slots)| + WAVE_SAMPLE_LEN && old(slots) <= slots
      ensures seed.View() == slots[|old(slots)|..]
    {
      ghost var base := |slots|;
      var loaded := 0;
      while loaded < WAVE_SAMPLE_LEN
        invariant loaded <= WAVE_SAMPLE_LEN && Progress(noise) && chip.mem == old(chip.mem)
        invariant |slots| == base + loaded && slots[..base] == old(slots)
        invariant seed.View()[..loaded] == slots[base..]
        decreases WAVE_SAMPLE_LEN - loaded, MAX_RETRIES + 1 - crcErrCounter
      {
        ghost var s, v := slots, seed.View();
        var advanced := ReadOnce(noise, loaded);
        if advanced {
          assert slots == s + [slots[|s|]];
          loaded := loaded + 1;
        }
      }
    }

    /** Slots loaded once n packets have been built, the first of which may be the window. */
    static function SlotsAfter(n: nat, first: nat): nat {
      if n < first then 0 else WAVE_SAMPLE_LEN * (n - first)
    }

    /** What holds between two packets of a send: n packets built, all as they must be. */
    ghost predicate Between(noise: nat -> Record, sent: seq<Packet>, first: nat, total: nat)
      reads this, chip, ring, ring.Objects()
    {
      && Progress(noise) && ring.Valid() && first <= 1 && ring.overflow == (|sent| < first)
      && |slots| == SlotsAfter(|sent|, first)
      && AllSent(sent, first, total, trainCounter, Window(SIZE, ring.history), slots)
    }

    /** Builds the contents of the next packet in seed_packet. */
    method BuildNext(noise: nat -> Record, last: nat, total: nat, ghost sent: seq<Packet>, ghost first: nat)
      requires Between(noise, sent, first, total) && last == ring.head
      requires 10 * SlotsAfter(|sent| + 1, first) <= |chip.mem|
      modifies `addressRead, `crcErrCounter, `failCounter, `readCount, `failed, `slots, `marks,
               chip, readBuf, seed.Objects(), ring`overflow
      ensures Progress(noise) && ring.Valid() && chip.mem == old(chip.mem)
      ensures ring.overflow == (|sent| + 1 < first) && ring.head == old(ring.head) && ring.history == old(ring.history)
      ensures |slots| == SlotsAfter(|sent| + 1, first) && old(slots) <= slots
      ensures if |sent| < first then seed.View() == Window(SIZE, ring.history)
              else seed.View() == slots[|old(slots)|..]
    {
      if ring.overflow {
        ring.overflow := false;
        seed.CopyRing(ring, last);
      } else {
        LoadPacket(noise);
      }
    }

    /** The counters at the start of a send. */
    method Begin(ghost noise: nat -> Record, ghost total: nat)
      requires Shape() && ring.Valid()
      modifies `crcErrCounter, `failCounter, `addressRead, `readCount, `failed, `slots, `marks
      ensures slots == [] && Between(noise, [], if ring.overflow then 1 else 0, total)
    {
      crcErrCounter, failCounter, addressRead := 0, 0, 0;
      readCount, failed, slots, marks := 0, 0, [], [0];
    }

    /** One pass of the packet loop: fill in, build, publish. */
    method SendNext(noise: nat -> Record, last: nat, number: nat, total: nat, delivered: bool,
                    ghost sent: seq<Packet>, ghost first: nat)
      returns (ghost sent': seq<Packet>)
      requires Between(noise, sent, first, total) && last == ring.head && number == |sent| + 1
      requires 10 * SlotsAfter(number, first) <= |chip.mem|
      modifies `addressRead, `crcErrCounter, `failCounter, `readCount, `failed, `slots, `marks,
               `published, chip, readBuf, seed.Objects(), ring`overflow
      ensures chip.mem == old(chip.mem) && ring.head == old(ring.head) && ring.history == old(ring.history)
      ensures Progress(noise) && ring.Valid() && |slots| == SlotsAfter(number, first) && !ring.overflow
      ensures delivered ==> Between(noise, sent', first, total) && |sent'| == number
      ensures !delivered ==> sent' == sent
      ensures AllSent(sent', first, total, trainCounter, Window(SIZE, ring.history), slots)
      ensures sent <= sent' && published == old(published) + sent'[|sent|..]
    {
      var crcField := 0xABCD;
      ghost var before := slots;
      BuildNext(noise, last, total, sent, first);
      var wave := seed.Snapshot();
      var p := Packet(0xBEEF, 0x0101, number, total, trainCounter, wave, crcField);
      sent' := sent;
      SentSnoc(sent, p, first, total, trainCounter, Window(SIZE, ring.history), before, slots);
      SentPrefix(sent, first, total, trainCounter, Window(SIZE, ring.history), before, slots);
      if delivered {
        published := published + [p];
        sent' := sent + [p];
        crcField := failCounter;
      }
    }

    /** The packet loop: every packet in turn until the first publish that fails. */
    method SendAll(noise: nat -> Record, last: nat, total: nat, publishOk: nat -> bool, ghost first: nat)
      returns (ok: bool, ghost sent: seq<Packet>)
      requires Between(noise, [], first, total) && last == ring.head
      requires 10 * SlotsAfter(total, first) <= |chip.mem|
      modifies `addressRead, `crcErrCounter, `failCounter, `readCount, `failed, `slots, `marks,
               `published, chip, readBuf, seed.Objects(), ring`overflow
      ensures published == old(published) + sent && chip.mem == old(chip.mem)
      ensures Progress(noise) && ring.Valid() && ring.history == old(ring.history) && ring.head == last
      ensures ring.overflow ==> total == 0 && first == 1
      ensures AllSent(sent, first, total, trainCounter, Window(SIZE, ring.history), slots)
      ensures |slots| == SlotsAfter(if ok then total else |sent| + 1, first)
      ensures Outcome(publishOk, |sent|, total, ok)
    {
      sent := [];
      var pcktCnt := 1;
      while pcktCnt <= total
        invariant 1 <= pcktCnt <= total + 1 && |sent| == pcktCnt - 1
        invariant Between(noise, sent, first, total) && ring.head == last
        invariant published == old(published) + sent && chip.mem == old(chip.mem)
        invariant ring.history == old(ring.history) && (ring.overflow ==> sent == [] && first == 1)
        invariant forall k | 0 <= k < |sent| :: publishOk(k)
      {
        var delivered := publishOk(pcktCnt - 1);
        sent := SendNext(noise, last, pcktCnt, total, delivered, sent, first);
        pcktCnt := pcktCnt + 1;
        if !delivered {
          return false, sent;
        }
      }
      return true, sent;
    }

    /** send_measured_train_data_with_multiple_packets_from_flash. publishOk(k) says whether the
        k-th publish succeeds; the first failure ends the send. */
    method Send(totalRecordedSamples: nat, last: nat, noise: nat -> Record, publishOk: nat -> bool)
      returns (ok: bool, ghost sent: seq<Packet>)
      requires Shape() && ring.Valid() && last == ring.head && 10 * totalRecordedSamples <= |chip.mem|
      modifies this, chip, readBuf, seed.Objects(), ring`overflow
      ensures published == old(published) + sent && chip.mem == old(chip.mem)
      ensures Progress(noise) && ring.Valid() && ring.history == old(ring.history) && ring.head == last
      ensures !ring.overflow
      ensures trainCounter == old(trainCounter) + if ok then 1 else 0
      ensures var first := if old(ring.overflow) then 1 else 0;
              var total := totalRecordedSamples / WAVE_SAMPLE_LEN + first;
              && AllSent(sent, first, total, old(trainCounter), Window(SIZE, ring.history), slots)
              && |slots| == SlotsAfter(if ok then total else |sent| + 1, first)
              && Outcome(publishOk, |sent|, total, ok)
    {
      ghost var first := if ring.overflow then 1 else 0;
      var total := totalRecordedSamples / WAVE_SAMPLE_LEN;
      if ring.overflow { total := total + 1; }
      Begin(noise, total);
      ok, sent := SendAll(noise, last, total, publishOk, first);
      if ok {
        trainCounter := trainCounter + 1;
      }
    }
  }

  /** A send whose first publish fails, and another one: the window is lost, since the flag that
      asks for it was taken back before the publish. */
  method SendAgain(sender: Sender, totalRecordedSamples: nat, last: nat,
                   noise: nat -> Record, again: nat -> Record, publishOk: nat -> bool, publishAgain: nat -> bool)
    returns (ok: bool, ghost sent: seq<Packet>)
    requires sender.Shape() && sender.ring.Valid() && sender.ring.overflow && last == sender.ring.head
    requires 10 * totalRecordedSamples <= |sender.chip.mem| && !publishOk(0)
    modifies sender, sender.chip, sender.readBuf, sender.seed.Objects(), sender.ring`overflow
    ensures sender.published == old(sender.published) + sent
    ensures AllSent(sent, 0, totalRecordedSamples / WAVE_SAMPLE_LEN, old(sender.trainCounter),
                    Window(SIZE, sender.ring.history), sender.slots)
    ensures Loaded(sender.chip.mem, again, sender.slots, sender.marks)
    ensures Outcome(publishAgain, |sent|, totalRecordedSamples / WAVE_SAMPLE_LEN, ok)
  {
    ok, sent := sender.Send(totalRecordedSamples, last, noise, publishOk);
    assert sent == [] && !ok;
    ok, sent := sender.Send(totalRecordedSamples, last, again, publishAgain);
  }
}
