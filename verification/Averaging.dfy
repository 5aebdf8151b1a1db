/** The four-deep average of the readings. */
module Averaging {
  import opened Samples
  import opened Cyclic
  import opened Ring

  /** C integer division, which truncates towards zero. */
  function TruncDiv(a: int, b: int): int
    requires b > 0
  { if a >= 0 then a / b else -((-a) / b) }

  /** The quotient of the two divisors in use: as often as the divisor fits into the size of the
      dividend, with the dividend's sign. */
  lemma TruncDivIs(a: int)
    ensures var q := TruncDiv(a, 4); if a >= 0 then 4 * q <= a < 4 * q + 4 else 4 * q - 4 < a <= 4 * q
    ensures var q := TruncDiv(a, 25); if a >= 0 then 25 * q <= a < 25 * q + 25 else 25 * q - 25 < a <= 25 * q
  {
  }

  function Min(a: int, b: int): int { if a < b then a else b }

  function Max(a: int, b: int): int { if a > b then a else b }

  const BUFFER_LENGTH: nat := 4

  /** Truncated mean of four readings of one channel. */
  function Mean4(a: int, b: int, c: int, d: int): int { TruncDiv(a + b + c + d, BUFFER_LENGTH) }

  lemma Mean4Between(a: int, b: int, c: int, d: int)
    ensures Min(Min(a, b), Min(c, d)) <= Mean4(a, b, c, d) <= Max(Max(a, b), Max(c, d))
  {
    var lo, hi, s := Min(Min(a, b), Min(c, d)), Max(Max(a, b), Max(c, d)), a + b + c + d;
    assert 4 * lo <= s <= 4 * hi;
    if s >= 0 {
      assert lo <= s / 4 <= hi;
    } else {
      assert -hi <= (-s) / 4 <= -lo;
    }
  }

  ghost function Average(h: seq<Quad>): Quad {
    var w := Window(BUFFER_LENGTH, h);
    Quad(Mean4(w[0].c0, w[1].c0, w[2].c0, w[3].c0), Mean4(w[0].c1, w[1].c1, w[2].c1, w[3].c1),
         Mean4(w[0].c2, w[1].c2, w[2].c2, w[3].c2), Mean4(w[0].c3, w[1].c3, w[2].c3, w[3].c3))
  }

  /** The truncated mean of the last four readings, each channel by itself. */
  lemma AverageIs(h: seq<Quad>)
    requires |h| >= 4
    ensures var a, n := Average(h), |h|;
      && a.c0 == TruncDiv(h[n-4].c0 + h[n-3].c0 + h[n-2].c0 + h[n-1].c0, 4)
      && a.c1 == TruncDiv(h[n-4].c1 + h[n-3].c1 + h[n-2].c1 + h[n-1].c1, 4)
      && a.c2 == TruncDiv(h[n-4].c2 + h[n-3].c2 + h[n-2].c2 + h[n-1].c2, 4)
      && a.c3 == TruncDiv(h[n-4].c3 + h[n-3].c3 + h[n-2].c3 + h[n-1].c3, 4)
  {
    var w, n := Window(4, h), |h|;
    assert w[0] == h[n-4] && w[1] == h[n-3] && w[2] == h[n-2] && w[3] == h[n-1];
  }

  class Averager {
    /** int16_t buffer[4][4], one row per reading. */
    const rows: array2<int>
    var index: nat
    ghost var history: seq<Quad>

    ghost function Row(i: nat): Quad
      requires rows.Length0 == rows.Length1 == 4 && i < 4
      reads rows
    { Quad(rows[i, 0], rows[i, 1], rows[i, 2], rows[i, 3]) }

    ghost function View(): (v: seq<Quad>)
      requires rows.Length0 == rows.Length1 == 4
      reads rows
      ensures |v| == 4
    { [Row(0), Row(1), Row(2), Row(3)] }

    ghost predicate Valid()
      reads this, rows
    {
      && rows.Length0 == rows.Length1 == 4 && index < 4
      && Unroll(View(), index) == Window(BUFFER_LENGTH, history)
    }

    constructor ()
      ensures Valid() && history == [] && fresh(rows)
    {
      rows := new int[4, 4]((i, j) => 0);
      index, history := 0, [];
      new;
      assert View() == Silent(4);
      assert Unroll(View(), 0) == View();
    }

    /** add_samples_to_buffer. */
    method AddSamples(samples: array<int>)
      requires Valid() && samples.Length == 4
      modifies this, rows
      ensures Valid()
      ensures history == old(history) + [Quad(samples[0], samples[1], samples[2], samples[3])]
    {
      ghost var view, q := View(), Quad(samples[0], samples[1], samples[2], samples[3]);
      FillRow(samples);
      UnrollStep(view, index, q);
      LastSnoc(BUFFER_LENGTH, SILENCE, history, q);
      index := index + 1;
      if index == BUFFER_LENGTH {
        index := 0;
        assert Unroll(View(), 0) == View() == Unroll(View(), 4);
      }
      history := history + [q];
    }

    /** The inner loop: the row at index takes the new samples. */
    method FillRow(samples: array<int>)
      requires rows.Length0 == rows.Length1 == 4 && index < 4 && samples.Length == 4
      modifies rows
      ensures View() == old(View())[index := Quad(samples[0], samples[1], samples[2], samples[3])]
    {
      var i := 0;
      while i < 4
        invariant i <= 4
        invariant forall r, c | 0 <= r < 4 && 0 <= c < 4 ::
          rows[r, c] == if r == index && c < i then samples[c] else old(rows[r, c])
      {
        rows[index, i] := samples[i];
        i := i + 1;
      }
    }

    /** average_of_vectors: order within the buffer does not matter. */
    method AverageOfVectors(averages: array<int>)
      requires Valid() && averages.Length == 4
      modifies averages
      ensures Quad(averages[0], averages[1], averages[2], averages[3]) == Average(history)
    {
      var i := 0;
      while i < 4
        invariant i <= 4
        invariant forall c | 0 <= c < i :: averages[c] == Mean4(rows[0, c], rows[1, c], rows[2, c], rows[3, c])
      {
        var totalSum := 0;
        var j := 0;
        while j < 4
          invariant j <= 4
          invariant totalSum == (if j > 0 then rows[0, i] else 0) + (if j > 1 then rows[1, i] else 0)
                              + (if j > 2 then rows[2, i] else 0) + (if j > 3 then rows[3, i] else 0)
        {
          totalSum := totalSum + rows[j, i];
          j := j + 1;
        }
        averages[i] := TruncDiv(totalSum, BUFFER_LENGTH);
        i := i + 1;
      }
      RotatedMean(View(), index);
    }
  }

  /** adc_read into sample_buffer, then the two calls both sampling loops make. */
  method ReadAverage(averager: Averager, reading: Quad) returns (average: Quad)
    requires averager.Valid()
    modifies averager, averager.rows
    ensures averager.Valid() && averager.history == old(averager.history) + [reading]
    ensures average == Average(averager.history)
  {
    var sampleBuffer, sampleBuffer2 := new int[4], new int[4];
    sampleBuffer[0], sampleBuffer[1] := reading.c0, reading.c1;
    sampleBuffer[2], sampleBuffer[3] := reading.c2, reading.c3;
    averager.AddSamples(sampleBuffer);
    averager.AverageOfVectors(sampleBuffer2);
    average := Quad(sampleBuffer2[0], sampleBuffer2[1], sampleBuffer2[2], sampleBuffer2[3]);
  }

  lemma RotatedMean(v: seq<Quad>, index: nat)
    requires |v| == 4 && index < 4
    ensures var w := Unroll(v, index);
      && w[0].c0 + w[1].c0 + w[2].c0 + w[3].c0 == v[0].c0 + v[1].c0 + v[2].c0 + v[3].c0
      && w[0].c1 + w[1].c1 + w[2].c1 + w[3].c1 == v[0].c1 + v[1].c1 + v[2].c1 + v[3].c1
      && w[0].c2 + w[1].c2 + w[2].c2 + w[3].c2 == v[0].c2 + v[1].c2 + v[2].c2 + v[3].c2
      && w[0].c3 + w[1].c3 + w[2].c3 + w[3].c3 == v[0].c3 + v[1].c3 + v[2].c3 + v[3].c3
  {
  }
}
