/** Polynomials over GF(2), written as bit strings with the highest power first, and
    division by the generator x^16 + x^12 + x^5 + 1 of section 2 of ITU-T V.41.
    A multiple of the generator is defined by its quotient alone; the shift register
    below is proved to compute the remainder. */
module Polynomials {
  type Bits = seq<bool>

  function Zeros(n: nat): Bits { seq(n, _ => false) }

  /** Coefficient-wise sum. */
  function Add(p: Bits, q: Bits): (s: Bits)
    requires |p| == |q|
    ensures |s| == |p|
  { seq(|p|, i requires 0 <= i < |p| => p[i] != q[i]) }

  /** q * (x^16 + x^12 + x^5 + 1). */
  function TimesG(q: Bits): (p: Bits)
    ensures |p| == |q| + 16
  {
    Add(Add(q + Zeros(16), Zeros(4) + q + Zeros(12)),
        Add(Zeros(11) + q + Zeros(5), Zeros(16) + q))
  }

  ghost predicate MultipleOfG(p: Bits) {
    exists q: Bits :: TimesG(q) == p
  }

  /** The generator without its leading coefficient: x^12 + x^5 + 1. */
  const G_LOW: Bits := Zeros(3) + [true] + Zeros(6) + [true] + Zeros(4) + [true]

  /** One step of long division: bring down the next bit, subtract the generator if the
      bit shifted out was set. */
  function DivStep(r: Bits, b: bool): (s: Bits)
    requires |r| == 16
    ensures |s| == 16
  {
    if r[0] then Add(r[1..] + [b], G_LOW) else r[1..] + [b]
  }

  function Remainder(p: Bits): (r: Bits)
    ensures |r| == 16
  {
    if p == [] then Zeros(16) else DivStep(Remainder(p[..|p|-1]), p[|p|-1])
  }

  /** What one quotient bit subtracts: the generator or nothing. */
  function Row(t: bool): (g: Bits)
    ensures |g| == 17
  {
    if t then [true] + G_LOW else Zeros(17)
  }

  function Quotient(p: Bits): (q: Bits)
    requires |p| >= 16
    ensures |q| == |p| - 16
  {
    if |p| == 16 then [] else Quotient(p[..|p|-1]) + [Remainder(p[..|p|-1])[0]]
  }

  lemma RemainderSnoc(p: Bits, b: bool)
    ensures Remainder(p + [b]) == DivStep(Remainder(p), b)
  {
    assert (p + [b])[..|p|] == p;
  }

  lemma DivStepLinear(r: Bits, s: Bits, a: bool, b: bool)
    requires |r| == |s| == 16
    ensures DivStep(Add(r, s), a != b) == Add(DivStep(r, a), DivStep(s, b))
  {
  }

  lemma {:induction false} RemainderLinear(p: Bits, q: Bits)
    requires |p| == |q|
    ensures Remainder(Add(p, q)) == Add(Remainder(p), Remainder(q))
  {
    if p != [] {
      var n := |p| - 1;
      RemainderLinear(p[..n], q[..n]);
      assert Add(p, q) == Add(p[..n], q[..n]) + [p[n] != q[n]];
      RemainderSnoc(Add(p[..n], q[..n]), p[n] != q[n]);
      DivStepLinear(Remainder(p[..n]), Remainder(q[..n]), p[n], q[n]);
    }
  }

  lemma {:induction false} RemainderLeadingZeros(k: nat, p: Bits)
    ensures Remainder(Zeros(k) + p) == Remainder(p)
  {
    if p != [] {
      var n := |p| - 1;
      RemainderLeadingZeros(k, p[..n]);
      assert (Zeros(k) + p)[..k + n] == Zeros(k) + p[..n];
    } else if k > 0 {
      RemainderLeadingZeros(k - 1, []);
      assert Zeros(k) + [] == (Zeros(k - 1) + []) + [false];
      RemainderSnoc(Zeros(k - 1) + [], false);
    }
  }

  /** Sixteen bits or fewer are their own remainder. */
  lemma {:induction false} RemainderShort(p: Bits)
    requires |p| <= 16
    ensures Remainder(p) == Zeros(16 - |p|) + p
  {
    if p != [] {
      RemainderShort(p[..|p|-1]);
    }
  }

  /** Bringing down bit b turns remainder r into s by subtracting g. */
  lemma DivisionStep(x: Bits, m: nat, r: Bits, b: bool, g: Bits, s: Bits)
    requires |x| == m + 16 && |r| == |s| == 16 && |g| == 17
    requires Add(g, [false] + s) == r + [b]
    ensures Add(Add(x + [false], Zeros(m) + g), Zeros(m + 1) + s) == Add(x, Zeros(m) + r) + [b]
  {
    var left := Add(Add(x + [false], Zeros(m) + g), Zeros(m + 1) + s);
    var right := Add(x, Zeros(m) + r) + [b];
    forall i | m <= i < m + 17 ensures left[i] == right[i] {
      assert Add(g, [false] + s)[i - m] == (r + [b])[i - m];
    }
  }

  /** p = q * G + r. */
  ghost predicate IsDivision(p: Bits, q: Bits, r: Bits) {
    |r| == 16 && |p| == |q| + 16 && Add(TimesG(q), Zeros(|q|) + r) == p
  }

  lemma DivisionExtend(p: Bits, q: Bits, r: Bits, b: bool)
    requires IsDivision(p, q, r)
    ensures IsDivision(p + [b], q + [r[0]], DivStep(r, b))
  {
    TimesGSnoc(q, r[0]);
    SubtractG(r, b);
    DivisionStep(TimesG(q), |q|, r, b, Row(r[0]), DivStep(r, b));
  }

  lemma NothingDivided(p: Bits)
    requires |p| == 16
    ensures IsDivision(p, [], p)
  {
    assert TimesG([]) == Zeros(16);
  }

  /** Long division is correct. */
  lemma {:induction false} DivisionIdentity(p: Bits)
    requires |p| >= 16
    ensures IsDivision(p, Quotient(p), Remainder(p))
  {
    if |p| == 16 {
      RemainderShort(p);
      assert Zeros(0) + p == p;
      NothingDivided(p);
    } else {
      var p0, b := p[..|p|-1], p[|p|-1];
      DivisionIdentity(p0);
      assert p == p0 + [b];
      DivisionExtend(p0, Quotient(p0), Remainder(p0), b);
    }
  }

  lemma SubtractG(r: Bits, b: bool)
    requires |r| == 16
    ensures Add(Row(r[0]), [false] + DivStep(r, b)) == r + [b]
  {
  }

  /** One more quotient bit adds one more shifted copy of the generator. */
  lemma TimesGSnoc(q: Bits, t: bool)
    ensures TimesG(q + [t]) == Add(TimesG(q) + [false], Zeros(|q|) + Row(t))
  {
  }

  /** A shifted copy of the generator leaves no remainder. */
  lemma RemainderOfShiftedG(n: nat, t: bool)
    ensures Remainder(Zeros(n) + Row(t)) == Zeros(16)
  {
    var g := Row(t);
    RemainderLeadingZeros(n, g);
    RemainderShort(g[..16]);
    assert g == g[..16] + [t];
    RemainderSnoc(g[..16], t);
  }

  lemma RemainderOfLongerMultiple(q: Bits, t: bool)
    requires Remainder(TimesG(q)) == Zeros(16)
    ensures Remainder(TimesG(q + [t])) == Zeros(16)
  {
    TimesGSnoc(q, t);
    RemainderSnoc(TimesG(q), false);
    RemainderLinear(TimesG(q) + [false], Zeros(|q|) + Row(t));
    RemainderOfShiftedG(|q|, t);
    assert Add(DivStep(Zeros(16), false), Zeros(16)) == Zeros(16);
  }

  lemma {:induction false} RemainderOfMultiple(q: Bits)
    ensures Remainder(TimesG(q)) == Zeros(16)
  {
    if q == [] {
      RemainderShort(TimesG(q));
      assert TimesG(q) == Zeros(16);
    } else {
      RemainderOfMultiple(q[..|q|-1]);
      RemainderOfLongerMultiple(q[..|q|-1], q[|q|-1]);
      assert q == q[..|q|-1] + [q[|q|-1]];
    }
  }

  lemma DivisionWithoutRemainder(p: Bits, q: Bits)
    requires IsDivision(p, q, Zeros(16))
    ensures MultipleOfG(p)
  {
    assert Add(TimesG(q), Zeros(|q|) + Zeros(16)) == TimesG(q);
  }

  /** The shift register decides divisibility by the generator. */
  lemma RemainderDecides(p: Bits)
    requires |p| >= 16
    ensures MultipleOfG(p) <==> Remainder(p) == Zeros(16)
  {
    if Remainder(p) == Zeros(16) {
      DivisionIdentity(p);
      DivisionWithoutRemainder(p, Quotient(p));
    }
    if q: Bits :| TimesG(q) == p {
      RemainderOfMultiple(q);
    }
  }
}
