/** The per-sample work shared by the trigger loop and the recording loop: average, offset,
    four running RMS values, saturation. */
module Sampler {
  import opened Averaging
  import opened Baseline
  import opened Ring
  import opened Rms
  import opened Samples

  function Minus(a: Quad, b: Quad): (d: Quad)
    ensures d.c0 + b.c0 == a.c0 && d.c1 + b.c1 == a.c1 && d.c2 + b.c2 == a.c2 && d.c3 + b.c3 == a.c3
  { Quad(a.c0 - b.c0, a.c1 - b.c1, a.c2 - b.c2, a.c3 - b.c3) }

  /** What was measured is the sample above the offsets, channel by channel. */
  predicate Above(d: Quad, offsets: Quad, measured: Quad) {
    && d.c0 + offsets.c0 == measured.c0 && d.c1 + offsets.c1 == measured.c1
    && d.c2 + offsets.c2 == measured.c2 && d.c3 + offsets.c3 == measured.c3
  }

  /** Every component within +-b. */
  predicate Bounded(q: Quad, b: int) {
    -b <= q.c0 <= b && -b <= q.c1 <= b && -b <= q.c2 <= b && -b <= q.c3 <= b
  }

  /** The range of the 14-bit converter. */
  const RAW: int := 0x4000

  ghost predicate AllBounded(h: seq<Quad>, b: int) { forall i | 0 <= i < |h| :: Bounded(h[i], b) }

  function Column(d: seq<Quad>, channel: nat): (c: seq<int>)
    requires channel < 4
    ensures |c| == |d|
  { seq(|d|, i requires 0 <= i < |d| => Component(d[i], channel)) }

  /** The RMS of one channel after the offset-corrected samples d. */
  ghost function RmsAfter(d: seq<Quad>, channel: nat): nat
    requires channel < 4
  { RmsOf(Column(d, channel)) }

  lemma ColumnsSnoc(d: seq<Quad>, q: Quad)
    ensures Column(d + [q], 0) == Column(d, 0) + [q.c0] && Column(d + [q], 1) == Column(d, 1) + [q.c1]
    ensures Column(d + [q], 2) == Column(d, 2) + [q.c2] && Column(d + [q], 3) == Column(d, 3) + [q.c3]
  {
  }

  lemma AverageBounded(h: seq<Quad>, b: int)
    requires AllBounded(h, b) && b >= 0
    ensures Bounded(Average(h), b)
  {
    var w := Window(4, h);
    assert forall i | 0 <= i < 4 :: w[i] == SILENCE || (exists j | 0 <= j < |h| :: w[i] == h[j]);
    assert Bounded(w[0], b) && Bounded(w[1], b) && Bounded(w[2], b) && Bounded(w[3], b);
    Mean4Between(w[0].c0, w[1].c0, w[2].c0, w[3].c0);
    Mean4Between(w[0].c1, w[1].c1, w[2].c1, w[3].c1);
    Mean4Between(w[0].c2, w[1].c2, w[2].c2, w[3].c2);
    Mean4Between(w[0].c3, w[1].c3, w[2].c3, w[3].c3);
  }

  /** The gathered offsets stay in the range of the readings. */
  lemma BaselineBounded(h: seq<Quad>, channel: nat)
    requires channel < 4 && AllBounded(h, RAW)
    ensures -RAW <= Baseline.Baseline(h, channel) <= RAW
  {
    var a := Averages(h, channel);
    forall i | 0 <= i < |a| ensures -RAW <= a[i] <= RAW {
      AverageBounded(h[..i+1], RAW);
    }
    FilterRunBetween(BASE, a, -RAW, RAW);
  }

  /** Offset-corrected samples stay far inside the range where the RMS is exact. */
  lemma RmsExact(d: seq<Quad>, channel: nat)
    requires channel < 4 && AllBounded(d, 2 * RAW)
    ensures MeanIsSmall(Column(d, channel))
  {
    var c := Column(d, channel);
    var w := LastValues(RMS_SIZE, c);
    forall i | 0 <= i < |w| ensures -46340 <= w[i] <= 46340 {
      assert w[i] == 0 || (exists j | 0 <= j < |c| :: w[i] == c[j]) by {
        if |c| + i >= RMS_SIZE { assert w[i] == c[|c| + i - RMS_SIZE]; }
      }
    }
    MeanFits(w);
  }

  /** Both watched RMS values are exact. */
  lemma WatchedExact(d: seq<Quad>)
    requires AllBounded(d, 2 * RAW)
    ensures MeanIsSmall(Column(d, 0)) && MeanIsSmall(Column(d, 2))
  {
    RmsExact(d, 0);
    RmsExact(d, 2);
  }

  /** Sample i is the average of the last four readings less the offsets, where the first warm
      readings came before the measurement. */
  ghost predicate CorrectedAt(h: seq<Quad>, warm: nat, offsets: Quad, d: seq<Quad>, i: nat)
    requires i < |d| && warm + i < |h|
  { d[i] == Minus(Average(h[..warm + i + 1]), offsets) }

  ghost predicate Corrected(h: seq<Quad>, warm: nat, offsets: Quad, d: seq<Quad>) {
    |h| == warm + |d| && forall i | 0 <= i < |d| :: CorrectedAt(h, warm, offsets, d, i)
  }

  /** After four readings r in a row the sample is r less the offsets, and so is what is stored if
      it is within the limit. */
  lemma SteadySample(h: seq<Quad>, warm: nat, offsets: Quad, d: seq<Quad>, i: nat, r: Quad)
    requires Corrected(h, warm, offsets, d) && i < |d| && warm + i >= 3
    requires forall k | warm + i - 3 <= k <= warm + i :: h[k] == r
    ensures Above(d[i], offsets, r) && (WithinLimit(d[i]) ==> Saturated(d[i]) == d[i])
  {
    assert CorrectedAt(h, warm, offsets, d, i);
    var g := h[..warm + i + 1];
    AverageIs(g);
  }

  lemma CorrectedSnoc(h: seq<Quad>, warm: nat, offsets: Quad, d: seq<Quad>, q: Quad)
    requires Corrected(h, warm, offsets, d)
    ensures Corrected(h + [q], warm, offsets, d + [Minus(Average(h + [q]), offsets)])
  {
    var h', d' := h + [q], d + [Minus(Average(h + [q]), offsets)];
    forall i | 0 <= i < |d'| ensures CorrectedAt(h', warm, offsets, d', i) {
      if i < |d| {
        assert CorrectedAt(h, warm, offsets, d, i);
        assert h'[..warm + i + 1] == h[..warm + i + 1];
      } else {
        assert h'[..warm + i + 1] == h';
      }
    }
  }

  class Chain {
    const averager: Averager
    /** buffer_rms_ch0..3 with their indices and sums. */
    const rms: seq<RmsChannel>
    const offsets: Quad
    ghost const warm: nat          // readings averaged before the measurement stage
    ghost var diffs: seq<Quad>
    ghost const Repr: set<object>

    ghost predicate Shape()
    {
      && |rms| == 4 && {this, averager, averager.rows} <= Repr
      && (forall i | 0 <= i < 4 :: rms[i] in Repr && rms[i].buffer in Repr)
      && (forall i, j | 0 <= i < j < 4 :: rms[i] != rms[j] && rms[i].buffer != rms[j].buffer)
    }

    ghost predicate RmsValid()
      requires Shape()
      reads Repr
    {
      forall i | 0 <= i < 4 :: rms[i].Valid() && rms[i].history == Column(diffs, i)
    }

    ghost predicate Valid()
      reads this, Repr
    {
      && Shape() && averager.Valid() && RmsValid()
      && Corrected(averager.history, warm, offsets, diffs)
      && Bounded(offsets, RAW) && AllBounded(averager.history, RAW) && AllBounded(diffs, 2 * RAW)
    }

    /** The measurement stage starts with the averager warm, fresh RMS channels and the offsets
        just gathered. */
    constructor (averager: Averager, offsets: Quad)
      requires averager.Valid() && Bounded(offsets, RAW) && AllBounded(averager.history, RAW)
      ensures Valid() && diffs == [] && this.averager == averager && this.offsets == offsets
      ensures warm == |averager.history|
      ensures fresh(Repr - {averager, averager.rows})
    {
      this.averager := averager;
      this.offsets := offsets;
      var channels := SilentChannels();
      rms := channels;
      diffs := [];
      warm := |averager.history|;
      Repr := {this, averager, averager.rows, channels[0], channels[0].buffer, channels[1], channels[1].buffer,
               channels[2], channels[2].buffer, channels[3], channels[3].buffer};
    }

    /** Four RMS channels at rest. */
    static method SilentChannels() returns (rms: seq<RmsChannel>)
      ensures |rms| == 4 && forall i | 0 <= i < 4 ::
        fresh(rms[i]) && fresh(rms[i].buffer) && rms[i].Valid() && rms[i].history == []
      ensures forall i, j | 0 <= i < j < 4 :: rms[i] != rms[j] && rms[i].buffer != rms[j].buffer
    {
      rms := [];
      for k := 0 to 4
        invariant |rms| == k && forall i | 0 <= i < k ::
          fresh(rms[i]) && fresh(rms[i].buffer) && rms[i].Valid() && rms[i].history == []
        invariant forall i, j | 0 <= i < j < k :: rms[i] != rms[j] && rms[i].buffer != rms[j].buffer
      {
        var r := new RmsChannel();
        rms := rms + [r];
      }
    }

    /** One sample. The result is what is stored; the RMS values are those of channels 0 and 2. */
    method Measure(reading: Quad) returns (q: Quad, rmsValue0: int, rmsValue2: int)
      requires Valid() && Bounded(reading, RAW)
      modifies Repr
      ensures Valid() && averager.history == old(averager.history) + [reading]
      ensures |diffs| == |old(diffs)| + 1 && diffs[..|old(diffs)|] == old(diffs)
      ensures diffs == old(diffs) + [Minus(Average(averager.history), offsets)]
      ensures Above(diffs[|diffs|-1], offsets, Average(averager.history))
      ensures WithinLimit(diffs[|diffs|-1]) ==> q == diffs[|diffs|-1]
      ensures q == Saturated(diffs[|diffs|-1]) && WithinLimit(q)
      ensures rmsValue0 == RmsAfter(diffs, 0) && rmsValue2 == RmsAfter(diffs, 2)
    {
      var average := ReadAverage(averager, reading);
      AverageBounded(averager.history, RAW);
      var d := Minus(average, offsets);
      rmsValue0, rmsValue2 := UpdateAll(d);
      CorrectedSnoc(old(averager.history), warm, offsets, old(diffs), reading);
      var c0, c1, c2, c3 := SaturateChannelValues(d.c0, d.c1, d.c2, d.c3);
      q := Quad(c0, c1, c2, c3);
    }

    method UpdateAll(d: Quad) returns (rmsValue0: int, rmsValue2: int)
      requires Shape() && RmsValid() && AllBounded(diffs, 2 * RAW) && Bounded(d, 2 * RAW)
      modifies this, set i | 0 <= i < 4 :: rms[i], set i | 0 <= i < 4 :: rms[i].buffer
      ensures RmsValid() && diffs == old(diffs) + [d]
      ensures rmsValue0 == RmsAfter(diffs, 0) && rmsValue2 == RmsAfter(diffs, 2)
    {
      ColumnsSnoc(diffs, d);
      WatchedExact(diffs + [d]);
      rmsValue0 := UpdatePair(0, d.c0, d.c1);
      rmsValue2 := UpdatePair(2, d.c2, d.c3);
      diffs := diffs + [d];
    }

    /** Two neighbouring channels; the second RMS value is not looked at. */
    method UpdatePair(i: nat, x: int, y: int) returns (rmsValue: int)
      requires Shape() && i < 3 && rms[i].Valid() && rms[i + 1].Valid()
      modifies rms[i], rms[i].buffer, rms[i + 1], rms[i + 1].buffer
      ensures rms[i].Valid() && rms[i].history == old(rms[i].history) + [x]
      ensures rms[i + 1].Valid() && rms[i + 1].history == old(rms[i + 1].history) + [y]
      ensures MeanIsSmall(rms[i].history) ==> rmsValue == RmsOf(rms[i].history)
    {
      rmsValue := rms[i].UpdateRms(x);
      var other := rms[i + 1].UpdateRms(y);
    }
  }
}
