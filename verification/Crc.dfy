/** The record checksum of unit_lib.c: the C loops, what they compute as a polynomial
    remainder, and which read errors the checksum detects. */
module Crc {
  import opened Polynomials
  import opened Words

  function BitsOf(data: seq<Byte>): (s: Bits)
    ensures |s| == 8 * |data|
  {
    if data == [] then [] else BitsOf(data[..|data|-1]) + data[|data|-1]
  }

  /** The all-ones preset complements the first sixteen bits. */
  function Preset(p: Bits): (s: Bits)
    ensures |s| == |p|
  { seq(|p|, i requires 0 <= i < |p| => p[i] != (i < 16)) }

  /** Remainder of message * x^16 with the first sixteen bits complemented. */
  function Register(message: Bits): (r: Bits)
    ensures |r| == 16
  { Remainder(Preset(message + Zeros(16))) }

  function Checksum(data: seq<Byte>): (r: Bits)
    ensures |r| == 16
  { Register(BitsOf(data)) }

  // ---------- The register under polynomial arithmetic ----------

  lemma RegisterPlusWord(m: Bits, u: Bits)
    requires |u| == 16
    ensures Remainder(Preset(m + u)) == Add(Register(m), u)
  {
    assert Preset(m + u) == Add(Preset(m + Zeros(16)), Zeros(|m|) + u);
    RemainderLinear(Preset(m + Zeros(16)), Zeros(|m|) + u);
    RemainderLeadingZeros(|m|, u);
    RemainderShort(u);
    assert Zeros(0) + u == u;
  }

  lemma RegisterSnoc(m: Bits, b: bool)
    ensures Register(m + [b]) == DivStep(Add(Register(m), [b] + Zeros(15)), false)
  {
    assert Preset((m + [b]) + Zeros(16)) == Preset(m + ([b] + Zeros(15))) + [false];
    RegisterPlusWord(m, [b] + Zeros(15));
    RemainderSnoc(Preset(m + ([b] + Zeros(15))), false);
  }

  /** Shifting in the first of the pending bits of a byte. */
  lemma RegisterShift(m: Bits, b: bool, rest: Bits)
    requires |rest| == 15
    ensures DivStep(Add(Register(m), [b] + rest), false) == Add(Register(m + [b]), rest + [false])
  {
    RegisterSnoc(m, b);
    var r := Register(m);
    assert Add(r, [b] + rest) == Add(Add(r, [b] + Zeros(15)), [false] + rest);
    DivStepLinear(Add(r, [b] + Zeros(15)), [false] + rest, false, false);
    assert DivStep([false] + rest, false) == rest + [false];
  }

  // ---------- The C code ----------

  /** x^12 + x^5 + 1, the constant of the source. */
  const POLY: Word16 := [false, false, false, true, false, false, false, false,
                         false, false, true, false, false, false, false, true]

  /** The constant is 0x1021, the generator less its leading term. */
  lemma PolyIs()
    ensures FromBits(POLY) == 0x1021 && POLY == G_LOW
  {
    var p := [false, false, false, true];
    FromNibble(false, false, false, true);
    AppendNibble(p, false, false, false, false);
    FromNibble(false, false, false, false);
    var q := p + [false, false, false, false];
    AppendNibble(q, false, false, true, false);
    FromNibble(false, false, true, false);
    AppendNibble(q + [false, false, true, false], false, false, false, true);
    assert POLY == q + [false, false, true, false] + [false, false, false, true];
  }

  /** One round of the inner loop consumes one bit of the current byte. */
  lemma InnerRound(done: Bits, byte: Byte, bit: nat)
    requires bit < 8
    ensures DivStep(Add(Register(done + byte[..bit]), byte[bit..] + Zeros(8 + bit)), false)
         == Add(Register(done + byte[..bit+1]), byte[bit+1..] + Zeros(9 + bit))
  {
    RegisterShift(done + byte[..bit], byte[bit], byte[bit+1..] + Zeros(8 + bit));
    assert byte[bit..] + Zeros(8 + bit) == [byte[bit]] + (byte[bit+1..] + Zeros(8 + bit));
    assert (done + byte[..bit]) + [byte[bit]] == done + byte[..bit+1];
    assert (byte[bit+1..] + Zeros(8 + bit)) + [false] == byte[bit+1..] + Zeros(9 + bit);
  }

  method Crc16Ccitt(data: array<Byte>, length: nat) returns (crc: Word16)
    requires length <= data.Length && length < 256
    ensures crc == Checksum(data[..length])
  {
    crc := seq(16, _ => true);
    RegisterOfNothing();
    assert POLY == G_LOW;
    var i := 0;
    while i < length
      invariant i <= length
      invariant crc == Checksum(data[..i])
    {
      crc := Add(crc, data[i] + Zeros(8));
      ghost var done, byte := BitsOf(data[..i]), data[i];
      assert done + byte[..0] == done && byte[0..] == byte;
      var bit := 0;
      while bit < 8
        invariant bit <= 8
        invariant crc == Add(Register(done + byte[..bit]), byte[bit..] + Zeros(8 + bit))
      {
        InnerRound(done, byte, bit);
        if crc[0] {
          crc := Add(crc[1..] + [false], POLY);
        } else {
          crc := crc[1..] + [false];
        }
        bit := bit + 1;
      }
      assert data[..i+1][..i] == data[..i];
      assert done + byte[..8] == BitsOf(data[..i+1]);
      i := i + 1;
    }
  }

  lemma RegisterOfNothing()
    ensures Checksum([]) == seq(16, _ => true)
  {
    RemainderShort(Preset([] + Zeros(16)));
  }

  // ---------- What the checksum detects ----------

  /** Appending a word to any message gives a multiple of the generator (after the preset)
      exactly when the word is the checksum of the message. */
  lemma ChecksumIsUnique(data: seq<Byte>, w: Word16)
    ensures MultipleOfG(Preset(BitsOf(data) + w)) <==> w == Checksum(data)
  {
    RegisterPlusWord(BitsOf(data), w);
    RemainderDecides(Preset(BitsOf(data) + w));
    var sum := Add(Checksum(data), w);
    if sum == Zeros(16) {
      forall i | 0 <= i < 16 ensures w[i] == Checksum(data)[i] {
        assert sum[i] == false;
      }
    }
  }

  type Record = r: seq<Byte> | |r| == 10 witness seq(10, _ => Zeros(8))

  /** The reader's test: bytes 8 and 9 against the checksum of bytes 0..7. */
  predicate Accepted(r: Record) { Join(r[8], r[9]) == Checksum(r[..8]) }

  function XorByte(a: Byte, b: Byte): Byte { Add(a, b) }

  function Corrupt(r: seq<Byte>, e: seq<Byte>): (c: seq<Byte>)
    requires |r| == |e|
    ensures |c| == |r|
  { seq(|r|, i requires 0 <= i < |r| => XorByte(r[i], e[i])) }

  lemma {:induction false} BitsOfCorrupt(r: seq<Byte>, e: seq<Byte>)
    requires |r| == |e|
    ensures BitsOf(Corrupt(r, e)) == Add(BitsOf(r), BitsOf(e))
  {
    if r != [] {
      var n := |r| - 1;
      BitsOfCorrupt(r[..n], e[..n]);
      assert Corrupt(r, e)[..n] == Corrupt(r[..n], e[..n]);
    }
  }

  lemma BitsOfRecord(r: Record)
    ensures BitsOf(r) == BitsOf(r[..8]) + Join(r[8], r[9])
  {
    assert r[..9][..8] == r[..8];
  }

  lemma AcceptedIsMultiple(r: Record)
    ensures Accepted(r) <==> MultipleOfG(Preset(BitsOf(r)))
  {
    BitsOfRecord(r);
    ChecksumIsUnique(r[..8], Join(r[8], r[9]));
  }

  /** A valid record read back with error pattern e passes the reader's test exactly when
      e is itself a multiple of the generator. */
  lemma UndetectedErrors(r: Record, e: Record)
    requires Accepted(r)
    ensures Accepted(Corrupt(r, e)) <==> MultipleOfG(BitsOf(e))
  {
    var p, q := BitsOf(r), BitsOf(e);
    AcceptedIsMultiple(r);
    AcceptedIsMultiple(Corrupt(r, e));
    BitsOfCorrupt(r, e);
    assert Preset(Add(p, q)) == Add(Preset(p), q);
    RemainderLinear(Preset(p), q);
    RemainderDecides(Preset(p));
    RemainderDecides(Preset(Add(p, q)));
    RemainderDecides(q);
    assert Add(Zeros(16), Remainder(q)) == Remainder(q);
  }

  ghost predicate Within(p: Bits, lo: nat) {
    forall i | 0 <= i < |p| && p[i] :: lo <= i < lo + 16
  }

  /** Not zero, and every set bit lies in a window of sixteen. */
  ghost predicate IsBurst(p: Bits) {
    && (exists i | 0 <= i < |p| :: p[i])
    && (exists lo: nat :: Within(p, lo))
  }

  function OddWeight(p: Bits): bool {
    if p == [] then false else OddWeight(p[..|p|-1]) != p[|p|-1]
  }

  /** The register step is injective, so zeros cannot clear a nonzero register. */
  lemma DivStepInjective(r: Bits, s: Bits, b: bool)
    requires |r| == |s| == 16 && DivStep(r, b) == DivStep(s, b)
    ensures r == s
  {
    var x, y := DivStep(r, b), DivStep(s, b);
    assert r[0] == (x[15] != b) && s[0] == (y[15] != b);
    forall i | 1 <= i < 16 ensures r[i] == s[i] {
      assert r[i] == (x[i-1] != (r[0] && G_LOW[i-1]));
      assert s[i] == (y[i-1] != (s[0] && G_LOW[i-1]));
    }
  }

  /** The register before the step that left s. */
  function Undone(s: Bits, b: bool): (r: Bits)
    requires |s| == 16
    ensures |r| == 16
  {
    var out := s[15] != b;
    seq(16, i requires 0 <= i < 16 => if i == 0 then out else s[i-1] != (out && G_LOW[i-1]))
  }

  /** Every register is reached, from exactly one other: the step is a bijection. */
  lemma DivStepBijective(r: Bits, s: Bits, b: bool)
    requires |r| == |s| == 16
    ensures DivStep(r, b) == s <==> r == Undone(s, b)
  {
    var u := Undone(s, b);
    assert u[1..] + [b] == seq(16, i requires 0 <= i < 16 => if i == 15 then b else u[i+1]);
    assert DivStep(u, b) == s by {
      forall i | 0 <= i < 16 ensures DivStep(u, b)[i] == s[i] {
        assert i < 15 ==> u[i+1] == (s[i] != (u[0] && G_LOW[i]));
      }
    }
    if DivStep(r, b) == s {
      DivStepInjective(r, u, b);
    }
  }

  lemma {:induction false} TrailingZeros(p: Bits, k: nat)
    requires Remainder(p) != Zeros(16)
    ensures Remainder(p + Zeros(k)) != Zeros(16)
  {
    if k == 0 {
      assert p + Zeros(0) == p;
    } else {
      TrailingZeros(p, k - 1);
      assert p + Zeros(k) == (p + Zeros(k - 1)) + [false];
      RemainderSnoc(p + Zeros(k - 1), false);
      assert DivStep(Zeros(16), false) == Zeros(16);
      if DivStep(Remainder(p + Zeros(k - 1)), false) == Zeros(16) {
        DivStepInjective(Remainder(p + Zeros(k - 1)), Zeros(16), false);
      }
    }
  }

  lemma BurstRemainder(lo: nat, body: Bits, i: nat, k: nat)
    requires i < |body| <= 16 && body[i]
    ensures Remainder((Zeros(lo) + body) + Zeros(k)) != Zeros(16)
  {
    RemainderLeadingZeros(lo, body);
    RemainderShort(body);
    assert (Zeros(16 - |body|) + body)[16 - |body| + i];
    TrailingZeros(Zeros(lo) + body, k);
  }

  lemma WindowSplit(p: Bits, lo: nat, hi: nat)
    requires lo <= hi <= |p| && Within(p, lo) && (hi == |p| || hi == lo + 16)
    ensures p == (Zeros(lo) + p[lo..hi]) + Zeros(|p| - hi)
  {
  }

  lemma BurstAt(p: Bits, lo: nat, hi: nat, i: nat)
    requires lo <= i < hi <= |p| && hi - lo <= 16 && p[i]
    requires p == (Zeros(lo) + p[lo..hi]) + Zeros(|p| - hi)
    ensures Remainder(p) != Zeros(16)
  {
    assert p[lo..hi][i - lo];
    BurstRemainder(lo, p[lo..hi], i - lo, |p| - hi);
  }

  lemma BurstsDetected(p: Bits)
    requires |p| >= 16 && IsBurst(p)
    ensures !MultipleOfG(p)
  {
    var lo: nat, i: nat :| Within(p, lo) && i < |p| && p[i];
    var hi := if lo + 16 < |p| then lo + 16 else |p|;
    WindowSplit(p, lo, hi);
    BurstAt(p, lo, hi, i);
    RemainderDecides(p);
  }

  lemma {:induction false} OddWeightAdd(p: Bits, q: Bits)
    requires |p| == |q|
    ensures OddWeight(Add(p, q)) == (OddWeight(p) != OddWeight(q))
  {
    if p != [] {
      var n := |p| - 1;
      OddWeightAdd(p[..n], q[..n]);
      assert Add(p, q)[..n] == Add(p[..n], q[..n]);
    }
  }

  lemma {:induction false} OddWeightConcat(p: Bits, q: Bits)
    ensures OddWeight(p + q) == (OddWeight(p) != OddWeight(q))
  {
    if q == [] {
      assert p + q == p;
    } else {
      OddWeightConcat(p, q[..|q|-1]);
      assert (p + q)[..|p + q| - 1] == p + q[..|q|-1];
    }
  }

  lemma {:induction false} OddWeightZeros(k: nat)
    ensures !OddWeight(Zeros(k))
  {
    if k > 0 {
      OddWeightZeros(k - 1);
      assert Zeros(k)[..k-1] == Zeros(k - 1);
    }
  }

  /** Every multiple of the generator has even weight, since x + 1 divides it. */
  lemma MultiplesAreEven(q: Bits)
    ensures !OddWeight(TimesG(q))
  {
    OddWeightZeros(16); OddWeightZeros(4); OddWeightZeros(12); OddWeightZeros(11); OddWeightZeros(5);
    OddWeightConcat(q, Zeros(16));
    OddWeightConcat(Zeros(4) + q, Zeros(12));
    OddWeightConcat(Zeros(4), q);
    OddWeightConcat(Zeros(11) + q, Zeros(5));
    OddWeightConcat(Zeros(11), q);
    OddWeightConcat(Zeros(16), q);
    OddWeightAdd(q + Zeros(16), Zeros(4) + q + Zeros(12));
    OddWeightAdd(Zeros(11) + q + Zeros(5), Zeros(16) + q);
    OddWeightAdd(Add(q + Zeros(16), Zeros(4) + q + Zeros(12)), Add(Zeros(11) + q + Zeros(5), Zeros(16) + q));
  }

  /** A read error the checksum is guaranteed to catch. */
  ghost predicate Detectable(e: Record) {
    IsBurst(BitsOf(e)) || OddWeight(BitsOf(e))
  }

  /** A valid record hit by one burst of at most sixteen bits, anywhere in its eighty bits,
      or by any odd number of bit errors, is rejected. */
  lemma DetectableRejected(r: Record, e: Record)
    requires Accepted(r) && Detectable(e)
    ensures !Accepted(Corrupt(r, e))
  {
    var p := BitsOf(e);
    UndetectedErrors(r, e);
    if IsBurst(p) {
      BurstsDetected(p);
    } else if q: Bits :| TimesG(q) == p {
      MultiplesAreEven(q);
    }
  }
}
