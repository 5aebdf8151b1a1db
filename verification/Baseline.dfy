/** The baseline filter and the offset gathering loop. */
module Baseline {
  import opened Averaging
  import opened Samples
  import opened Ring
  import Words

  const ALPHA_NUM: nat := 1
  const ALPHA_DEN: nat := 25

  function ExponentialFilter(previous: int, newSample: int): int {
    TruncDiv(ALPHA_NUM * newSample + (ALPHA_DEN - ALPHA_NUM) * previous, ALPHA_DEN)
  }

  lemma FilterBetween(p: int, x: int)
    ensures Min(p, x) <= ExponentialFilter(p, x) <= Max(p, x)
  {
  }

  /** The filter over a run of inputs. */
  function FilterRun(start: int, inputs: seq<int>): int {
    if inputs == [] then start
    else ExponentialFilter(FilterRun(start, inputs[..|inputs|-1]), inputs[|inputs|-1])
  }

  lemma FilterRunSnoc(start: int, inputs: seq<int>, x: int)
    ensures FilterRun(start, inputs + [x]) == ExponentialFilter(FilterRun(start, inputs), x)
  {
    assert (inputs + [x])[..|inputs|] == inputs;
  }

  predicate AllBetween(inputs: seq<int>, lo: int, hi: int) { forall i | 0 <= i < |inputs| :: lo <= inputs[i] <= hi }

  /** Over any run the filter stays between the least and the greatest of its start and inputs. */
  lemma {:induction false} FilterRunBetween(start: int, inputs: seq<int>, lo: int, hi: int)
    requires lo <= start <= hi && AllBetween(inputs, lo, hi)
    ensures lo <= FilterRun(start, inputs) <= hi
  {
    if inputs != [] {
      var n := |inputs| - 1;
      FilterRunBetween(start, inputs[..n], lo, hi);
      FilterBetween(FilterRun(start, inputs[..n]), inputs[n]);
    }
  }

  /** The filter after n equal inputs. */
  function Settle(p: int, c: int, n: nat): int {
    if n == 0 then p else ExponentialFilter(Settle(p, c, n - 1), c)
  }

  lemma {:induction false} FilterRunConstant(p: int, inputs: seq<int>, c: int, n: nat)
    ensures FilterRun(p, inputs + seq(n, _ => c)) == Settle(FilterRun(p, inputs), c, n)
  {
    if n == 0 {
      assert inputs + seq(0, _ => c) == inputs;
    } else {
      FilterRunConstant(p, inputs, c, n - 1);
      assert (inputs + seq(n, _ => c))[..|inputs| + n - 1] == inputs + seq(n - 1, _ => c);
    }
  }

  lemma {:induction false} SettleConcat(p: int, c: int, a: nat, b: nat)
    ensures Settle(p, c, a + b) == Settle(Settle(p, c, a), c, b)
  {
    if b > 0 {
      SettleConcat(p, c, a, b - 1);
    }
  }

  /** How a step changes the distance to a non-negative constant input. */
  lemma DistanceStep(p: int, c: int)
    requires c >= 0 && p >= 0
    ensures p >= c ==> ExponentialFilter(p, c) == c + 24 * (p - c) / 25
    ensures p < c ==> ExponentialFilter(p, c) == c - ((c - p) - (c - p) / 25)
  {
  }

  function Distance(p: int, c: int): nat { if p >= c then p - c else c - p }

  /** The value stays on its side of the input, and while the distance is at least 25 k every
      step takes off at least k. */
  lemma {:induction false} SettleBy(p: int, c: int, k: nat, n: nat)
    requires c >= 0 && p >= 0
    ensures Settle(p, c, n) >= 0
    ensures if p >= c then Settle(p, c, n) >= c else Settle(p, c, n) <= c && Settle(p, c, n) >= p
    ensures Distance(Settle(p, c, n), c) < 25 * k || Distance(Settle(p, c, n), c) + k * n <= Distance(p, c)
  {
    if n > 0 {
      SettleBy(p, c, k, n - 1);
      DistanceStep(Settle(p, c, n - 1), c);
      assert k * n == k * (n - 1) + k;
    } else {
      assert k * 0 == 0;
    }
  }

  /** 25 steps halve the distance, so 250 steps bring any 14-bit distance below 25. */
  lemma {:induction false} SettleNear(p: int, c: int, rounds: nat)
    requires c >= 0 && p >= 0 && Distance(p, c) < 25 * Words.Pow2(rounds)
    ensures Distance(Settle(p, c, 25 * rounds), c) < 25
    decreases rounds
  {
    if rounds > 0 {
      SettleBy(p, c, Words.Pow2(rounds - 1), 25);
      SettleNear(Settle(p, c, 25), c, rounds - 1);
      SettleConcat(p, c, 25, 25 * (rounds - 1));
    }
  }

  /** From at most 24 above, each step takes off one until the input is met. */
  lemma {:induction false} SettleDown(p: int, c: int, n: nat)
    requires c >= 0 && c <= p < c + 25
    ensures Settle(p, c, n) == if n >= p - c then c else p - n
  {
    if n > 0 {
      SettleDown(p, c, n - 1);
      DistanceStep(Settle(p, c, n - 1), c);
    }
  }

  /** From at most 24 below, the truncating division holds the filter where it is. */
  lemma {:induction false} SettleStuck(p: int, c: int, n: nat)
    requires c >= 0 && p >= 0 && c - 25 < p <= c
    ensures Settle(p, c, n) == p
  {
    if n > 0 {
      SettleStuck(p, c, n - 1);
      DistanceStep(p, c);
    }
  }

  /** From below the input is never reached. */
  lemma {:induction false} SettleBelow(p: int, c: int, n: nat)
    requires 0 <= p < c
    ensures 0 <= Settle(p, c, n) < c
  {
    if n > 0 {
      SettleBelow(p, c, n - 1);
      DistanceStep(Settle(p, c, n - 1), c);
    }
  }

  /** For a constant input the filter settles exactly from above and at most 24 short from
      below. */
  lemma Settled(p: int, c: int, n: nat)
    requires c >= 0 && p >= 0 && Distance(p, c) < 25600 && n >= 274
    ensures if p >= c then Settle(p, c, n) == c else c - 24 <= Settle(p, c, n) <= c
  {
    assert Words.Pow2(10) == 1024 by { assert Words.Pow2(8) == 256 by { Words.Pow2Words(); } }
    SettleNear(p, c, 10);
    SettleBy(p, c, 0, 250);
    SettleConcat(p, c, 250, n - 250);
    if p >= c {
      SettleDown(Settle(p, c, 250), c, n - 250);
    } else {
      SettleStuck(Settle(p, c, 250), c, n - 250);
    }
  }

  // ---------- the offset gathering loop ----------

  const GATHER: nat := 5000
  const BASE: int := 5200

  function Component(q: Quad, channel: nat): int
    requires channel < 4
  { if channel == 0 then q.c0 else if channel == 1 then q.c1 else if channel == 2 then q.c2 else q.c3 }

  /** The averages the filter of one channel sees over a run of readings. */
  ghost function Averages(h: seq<Quad>, channel: nat): (a: seq<int>)
    requires channel < 4
    ensures |a| == |h|
  { seq(|h|, i requires 0 <= i < |h| => Component(Average(h[..i+1]), channel)) }

  ghost function Baseline(h: seq<Quad>, channel: nat): int
    requires channel < 4
  { FilterRun(BASE, Averages(h, channel)) }

  lemma AveragesSnoc(h: seq<Quad>, q: Quad, channel: nat)
    requires channel < 4
    ensures Averages(h + [q], channel) == Averages(h, channel) + [Component(Average(h + [q]), channel)]
  {
    var a, b := Averages(h + [q], channel), Averages(h, channel);
    forall i | 0 <= i < |h| ensures a[i] == b[i] {
      assert (h + [q])[..i+1] == h[..i+1];
    }
    assert (h + [q])[..|h|+1] == h + [q];
  }

  lemma BaselineSnoc(h: seq<Quad>, q: Quad, channel: nat)
    requires channel < 4
    ensures Baseline(h + [q], channel) == ExponentialFilter(Baseline(h, channel), Component(Average(h + [q]), channel))
  {
    AveragesSnoc(h, q, channel);
    FilterRunSnoc(BASE, Averages(h, channel), Component(Average(h + [q]), channel));
  }

  /** The channel loop of the gathering loop. */
  method FilterChannels(filtered: array<int>, average: Quad, ghost before: seq<Quad>, ghost q: Quad)
    requires filtered.Length == 4 && forall c | 0 <= c < 4 :: filtered[c] == Baseline(before, c)
    requires average == Average(before + [q])
    modifies filtered
    ensures forall c | 0 <= c < 4 :: filtered[c] == Baseline(before + [q], c)
  {
    var chsel := 0;
    while chsel < 4
      invariant chsel <= 4
      invariant forall c | 0 <= c < 4 ::
        filtered[c] == if c < chsel then Baseline(before + [q], c) else Baseline(before, c)
    {
      BaselineSnoc(before, q, chsel);
      filtered[chsel] := ExponentialFilter(filtered[chsel], Component(average, chsel));
      chsel := chsel + 1;
    }
  }

  /** The gathering loop; readings[i] is what the i-th adc_read delivers. */
  method GatherOffsets(averager: Averager, readings: seq<Quad>) returns (offsets: array<int>)
    requires averager.Valid() && averager.history == [] && |readings| == GATHER
    modifies averager, averager.rows
    ensures averager.Valid() && averager.history == readings && fresh(offsets)
    ensures offsets.Length == 4 && forall c | 0 <= c < 4 :: offsets[c] == Baseline(readings, c)
  {
    offsets := new int[4](_ => BASE);
    var i := 0;
    while i < GATHER
      invariant i <= GATHER && averager.Valid() && averager.history == readings[..i]
      invariant forall c | 0 <= c < 4 :: offsets[c] == Baseline(readings[..i], c)
    {
      assert readings[..i+1] == readings[..i] + [readings[i]];
      var average := ReadAverage(averager, readings[i]);
      FilterChannels(offsets, average, readings[..i], readings[i]);
      i := i + 1;
    }
    assert readings[..i] == readings;
  }

  /** For a constant non-negative reading c of at most 14 bits, the gathered offset is c or at
      most 24 below it, and it is c if and only if c is at most 4885. */
  lemma ConstantBaseline(readings: seq<Quad>, channel: nat, c: int)
    requires channel < 4 && |readings| == GATHER && 0 <= c < 0x4000
    requires forall i | 0 <= i < |readings| :: Component(readings[i], channel) == c
    ensures c - 24 <= Baseline(readings, channel) <= c
    ensures Baseline(readings, channel) == c <==> c <= 4885
  {
    var a := Averages(readings, channel);
    forall i: nat | i < |readings|
      ensures a[i] == if i == 0 then c / 4 else if i == 1 then c / 2 else if i == 2 then 3 * c / 4 else c
    {
      ConstantAverage(readings[..i+1], channel, c);
    }
    var warm := [c / 4, c / 2, 3 * c / 4];
    assert a == warm + seq(GATHER - 3, _ => c);
    FilterRunConstant(BASE, warm, c, GATHER - 3);
    WarmUp(c);
    Settled(WarmedUp(c), c, GATHER - 3);
    StartsAbove(c);
    if WarmedUp(c) < c { SettleBelow(WarmedUp(c), c, GATHER - 3); }
  }

  /** The filter after the three averages in which the four-deep average fills up with c. */
  function WarmedUp(c: int): int {
    ExponentialFilter(ExponentialFilter(ExponentialFilter(BASE, c / 4), c / 2), 3 * c / 4)
  }

  /** The filter follows both its inputs, and never by more than they move. */
  lemma FilterFollows(p: int, x: int, q: int, y: int, k: nat)
    requires 0 <= p <= q <= p + k && 0 <= x <= y <= x + k
    ensures ExponentialFilter(p, x) <= ExponentialFilter(q, y) <= ExponentialFilter(p, x) + k
  {
    assert (x + k) + 24 * (p + k) == (x + 24 * p) + 25 * k;
  }

  lemma WarmedUpFollows(c: int, d: int)
    requires 0 <= c <= d
    ensures WarmedUp(c) <= WarmedUp(d) <= WarmedUp(c) + (d - c)
  {
    var k := d - c;
    FilterFollows(BASE, c / 4, BASE, d / 4, k);
    var p, q := ExponentialFilter(BASE, c / 4), ExponentialFilter(BASE, d / 4);
    FilterFollows(p, c / 2, q, d / 2, k);
    FilterFollows(ExponentialFilter(p, c / 2), 3 * c / 4, ExponentialFilter(q, d / 2), 3 * d / 4, k);
  }

  lemma WarmedUpAt()
    ensures WarmedUp(4885) == 4885 == WarmedUp(4886)
  {
    assert ExponentialFilter(5200, 1221) == 5040;
    assert ExponentialFilter(5040, 2442) == 4936 == ExponentialFilter(5040, 2443);
    assert ExponentialFilter(4936, 3663) == 4885 == ExponentialFilter(4936, 3664);
  }

  /** Up to 4885 the filter starts to settle from above. */
  lemma StartsAbove(c: int)
    requires c >= 0
    ensures WarmedUp(c) >= c <==> c <= 4885
  {
    WarmedUpAt();
    if c <= 4885 {
      WarmedUpFollows(c, 4885);
    } else {
      WarmedUpFollows(4886, c);
    }
  }

  lemma ConstantAverage(h: seq<Quad>, channel: nat, c: int)
    requires channel < 4 && |h| > 0 && c >= 0
    requires forall i | 0 <= i < |h| :: Component(h[i], channel) == c
    ensures Component(Average(h), channel)
         == if |h| == 1 then c / 4 else if |h| == 2 then c / 2 else if |h| == 3 then 3 * c / 4 else c
  {
    var w := Window(4, h);
    assert w[3] == h[|h|-1];
    assert w[2] == if |h| >= 2 then h[|h|-2] else SILENCE;
    assert w[1] == if |h| >= 3 then h[|h|-3] else SILENCE;
    assert w[0] == if |h| >= 4 then h[|h|-4] else SILENCE;
  }

  lemma WarmUp(c: int)
    requires 0 <= c < 0x4000
    ensures FilterRun(BASE, [c / 4, c / 2, 3 * c / 4]) == WarmedUp(c)
    ensures 0 <= WarmedUp(c) < 25600
  {
    FilterRunSnoc(BASE, [], c / 4);
    FilterRunSnoc(BASE, [c / 4], c / 2);
    FilterRunSnoc(BASE, [c / 4, c / 2], 3 * c / 4);
    assert [] + [c / 4] == [c / 4] && [c / 4] + [c / 2] == [c / 4, c / 2];
    assert [c / 4, c / 2] + [3 * c / 4] == [c / 4, c / 2, 3 * c / 4];
    FilterBetween(BASE, c / 4);
    FilterBetween(FilterRun(BASE, [c / 4]), c / 2);
    FilterBetween(FilterRun(BASE, [c / 4, c / 2]), 3 * c / 4);
  }
}
