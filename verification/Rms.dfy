/** The incremental RMS over the last hundred values. */
module Rms {
  import opened Arith
  import opened Cyclic

  const RMS_SIZE: nat := 100

  function SumSquares(w: seq<int>): (s: nat) {
    if w == [] then 0 else SumSquares(w[..|w|-1]) + w[|w|-1] * w[|w|-1]
  }

  lemma {:induction false} SumSquaresHead(w: seq<int>)
    requires w != []
    ensures SumSquares(w) == w[0] * w[0] + SumSquares(w[1..])
  {
    if |w| > 1 {
      SumSquaresHead(w[..|w|-1]);
      assert w[..|w|-1][1..] == w[1..][..|w|-2];
    }
  }

  /** The last n values of a history that starts with zeros. */
  ghost function LastValues(n: nat, h: seq<int>): (w: seq<int>)
    ensures |w| == n
  { Last(n, 0, h) }

  /** One value in, the oldest out. */
  lemma SlideSquares(n: nat, h: seq<int>, x: int)
    requires n > 0
    ensures LastValues(n, h + [x]) == LastValues(n, h)[1..] + [x]
    ensures SumSquares(LastValues(n, h + [x]))
         == SumSquares(LastValues(n, h)) - LastValues(n, h)[0] * LastValues(n, h)[0] + x * x
  {
    var w := LastValues(n, h);
    LastSnoc(n, 0, h, x);
    SumSquaresHead(w);
    assert (w[1..] + [x])[..n-1] == w[1..];
  }

  /** Floor square root. */
  function ISqrt(n: nat): (r: nat)
    ensures r * r <= n < (r + 1) * (r + 1)
  {
    if n == 0 then 0 else
      var r := ISqrt(n - 1);
      if (r + 1) * (r + 1) <= n then r + 1 else r
  }

  /** The RMS over a window of the last hundred values: the root of the floored mean. */
  ghost function RmsOf(h: seq<int>): nat { ISqrt(SumSquares(LastValues(RMS_SIZE, h)) / RMS_SIZE) }

  lemma SquareLess(a: nat, b: nat)
    requires a < b
    ensures a * a < b * b
  {
    MulMonotone(a, a, b);
    MulMonotone(b, a, b);
    assert a * b == b * a;
    MulAtLeast(b, b - a);
  }

  /** The RMS exceeds a threshold exactly when the sum of squares reaches 100 (t + 1)^2. */
  lemma RmsAbove(h: seq<int>, t: nat)
    ensures RmsOf(h) > t <==> SumSquares(LastValues(RMS_SIZE, h)) >= RMS_SIZE * ((t + 1) * (t + 1))
  {
    var s := SumSquares(LastValues(RMS_SIZE, h));
    var m, r, b := s / RMS_SIZE, RmsOf(h), (t + 1) * (t + 1);
    assert s >= RMS_SIZE * b <==> m >= b;
    if r > t {
      if r > t + 1 { SquareLess(t + 1, r); }
    } else if r < t {
      SquareLess(r + 1, t + 1);
    }
  }

  const INT32_LIMIT: int := 0x8000_0000

  /** Conversion to int32_t as the compilers of this target do it, keeping the low 32 bits. */
  function Narrow(x: nat): (r: int)
    ensures -INT32_LIMIT <= r < INT32_LIMIT && (x < INT32_LIMIT ==> r == x)
  {
    var low: int := x % (2 * INT32_LIMIT);
    if low < INT32_LIMIT then low else low - 2 * INT32_LIMIT
  }

  /** The mean square of the last hundred values fits the 32-bit variable it is narrowed to. */
  ghost predicate MeanIsSmall(h: seq<int>) {
    SumSquares(LastValues(RMS_SIZE, h)) / RMS_SIZE < INT32_LIMIT
  }

  /** While no value exceeds 46340 in size the mean of squares fits the 32-bit variable it is
      narrowed to, and 46340 is the largest such bound. */
  lemma MeanFits(w: seq<int>)
    requires |w| == RMS_SIZE && forall i | 0 <= i < |w| :: -46340 <= w[i] <= 46340
    ensures SumSquares(w) / RMS_SIZE < INT32_LIMIT
  {
    SumBounded(w, 46340);
  }

  lemma {:induction false} SumBounded(w: seq<int>, b: int)
    requires b >= 0 && forall i | 0 <= i < |w| :: -b <= w[i] <= b
    ensures SumSquares(w) <= |w| * (b * b)
  {
    if w != [] {
      SumBounded(w[..|w|-1], b);
      var x := w[|w|-1];
      if x >= 0 { MulMonotone(x, x, b); MulMonotone(b, x, b); } else { MulMonotone(-x, -x, b); MulMonotone(b, -x, b); }
      assert x * x == (-x) * (-x);
      assert |w| * (b * b) == (|w| - 1) * (b * b) + b * b;
    }
  }

  lemma MeanOverflows(w: seq<int>)
    requires w == seq(RMS_SIZE, _ => 46341)
    ensures SumSquares(w) / RMS_SIZE >= INT32_LIMIT
  {
    ConstantSquares(46341, RMS_SIZE);
  }

  lemma {:induction false} ConstantSquares(x: int, n: nat)
    ensures SumSquares(seq(n, _ => x)) == n * (x * x)
  {
    if n > 0 {
      ConstantSquares(x, n - 1);
      assert seq(n, _ => x)[..n-1] == seq(n - 1, _ => x);
      assert n * (x * x) == (n - 1) * (x * x) + x * x;
    }
  }

  class RmsChannel {
    const buffer: array<int>
    var index: nat
    var sumSquares: int
    ghost var history: seq<int>

    ghost predicate Valid()
      reads this, buffer
    {
      && buffer.Length == RMS_SIZE && index < RMS_SIZE
      && Unroll(buffer[..], index) == LastValues(RMS_SIZE, history)
      && sumSquares == SumSquares(LastValues(RMS_SIZE, history))
    }

    constructor ()
      ensures Valid() && history == [] && fresh(buffer)
    {
      buffer := new int[RMS_SIZE](_ => 0);
      index, sumSquares, history := 0, 0, [];
      new;
      assert Unroll(buffer[..], 0) == seq(RMS_SIZE, _ => 0) == LastValues(RMS_SIZE, []);
      ConstantSquares(0, RMS_SIZE);
    }

    /** update_rms: replace the oldest square by the newest. The mean is narrowed to 32 bits
        before its root is taken; for a negative result the source converts a NaN. */
    method UpdateRms(newSample: int) returns (rms: int)
      requires Valid()
      modifies this, buffer
      ensures Valid() && history == old(history) + [newSample]
      ensures var m := Narrow(SumSquares(LastValues(RMS_SIZE, history)) / RMS_SIZE); m >= 0 ==> rms == ISqrt(m)
      ensures MeanIsSmall(history) ==> rms == RmsOf(history)
    {
      var oldSample := buffer[index];
      sumSquares := sumSquares - oldSample * oldSample;
      SlideSquares(RMS_SIZE, history, newSample);
      UnrollWrapped(buffer[..], index, (index + 1) % RMS_SIZE, newSample);
      buffer[index] := newSample;
      sumSquares := sumSquares + newSample * newSample;
      assert buffer[..] == old(buffer[..])[index := newSample];
      index := (index + 1) % RMS_SIZE;
      history := history + [newSample];
      var meanSquare := Narrow(sumSquares / RMS_SIZE);
      if meanSquare >= 0 {
        rms := ISqrt(meanSquare);
      } else {
        rms := *;
      }
    }
  }
}
