/** Machine words as bit strings, highest bit first, and their numeric values. */
module Words {
  import opened Arith
  import opened Polynomials

  type Byte = b: Bits | |b| == 8 witness Zeros(8)
  type Word16 = b: Bits | |b| == 16 witness Zeros(16)

  function Pow2(w: nat): (p: nat)
    ensures p > 0
  { if w == 0 then 1 else 2 * Pow2(w - 1) }

  lemma Pow2Words()
    ensures Pow2(8) == 0x100 && Pow2(16) == 0x1_0000
  {
    assert Pow2(4) == 16;
    assert Pow2(6) == 64;
    assert Pow2(8) == 256;
    assert Pow2(10) == 1024;
    assert Pow2(12) == 4096;
    assert Pow2(14) == 16384;
  }

  /** The w low bits of n. */
  function ToBits(n: nat, w: nat): (b: Bits)
    ensures |b| == w
  { if w == 0 then [] else ToBits(n / 2, w - 1) + [n % 2 == 1] }

  function FromBits(b: Bits): nat {
    if b == [] then 0 else 2 * FromBits(b[..|b|-1]) + if b[|b|-1] then 1 else 0
  }

  lemma {:induction false} FromToBits(n: nat, w: nat)
    requires n < Pow2(w)
    ensures FromBits(ToBits(n, w)) == n
  {
    if w > 0 {
      FromToBits(n / 2, w - 1);
      assert ToBits(n, w)[..w-1] == ToBits(n / 2, w - 1);
    }
  }

  /** Of a number that does not fit, the low bits are kept. */
  lemma {:induction false} FromLowBits(n: nat, w: nat)
    ensures FromBits(ToBits(n, w)) == n % Pow2(w)
  {
    if w > 0 {
      FromLowBits(n / 2, w - 1);
      assert ToBits(n, w)[..w-1] == ToBits(n / 2, w - 1);
      HalfRemainder(n, Pow2(w - 1));
    }
  }

  lemma HalfRemainder(n: nat, m: nat)
    requires m > 0
    ensures n % (2 * m) == 2 * (n / 2 % m) + n % 2
  {
    var q, r := n / 2 / m, n / 2 % m;
    assert n / 2 == m * q + r && n == 2 * (n / 2) + n % 2;
    assert n == (2 * m) * q + (2 * r + n % 2);
    DivMod(n, 2 * m, q, 2 * r + n % 2);
  }

  lemma {:induction false} FromBitsConcat(a: Bits, b: Bits)
    ensures FromBits(a + b) == FromBits(a) * Pow2(|b|) + FromBits(b)
  {
    if b == [] {
      assert a + b == a;
    } else {
      var n := |b| - 1;
      FromBitsConcat(a, b[..n]);
      assert (a + b)[..|a + b| - 1] == a + b[..n];
      assert 2 * (FromBits(a) * Pow2(n)) == FromBits(a) * Pow2(n + 1);
    }
  }

  /** What comes before a byte counts 256 times as much. */
  lemma AppendByte(a: Bits, lo: Byte)
    ensures FromBits(a + lo) == 0x100 * FromBits(a) + FromBits(lo)
  {
    Pow2Words();
    FromBitsConcat(a, lo);
  }

  lemma JoinIs(hi: Byte, lo: Byte)
    ensures FromBits(Join(hi, lo)) == 0x100 * FromBits(hi) + FromBits(lo)
  {
    AppendByte(hi, lo);
  }

  lemma FromNibble(a: bool, b: bool, c: bool, d: bool)
    ensures FromBits([a, b, c, d])
         == (if a then 8 else 0) + (if b then 4 else 0) + (if c then 2 else 0) + (if d then 1 else 0)
  {
    assert [a, b, c, d][..3] == [a, b, c] && [a, b, c][..2] == [a, b] && [a, b][..1] == [a] && [a][..0] == [];
    assert FromBits([a]) == if a then 1 else 0;
    assert FromBits([a, b]) == 2 * FromBits([a]) + if b then 1 else 0;
    assert FromBits([a, b, c]) == 2 * FromBits([a, b]) + if c then 1 else 0;
  }

  lemma AppendNibble(p: Bits, a: bool, b: bool, c: bool, d: bool)
    ensures FromBits(p + [a, b, c, d]) == 16 * FromBits(p) + FromBits([a, b, c, d])
  {
    assert Pow2(2) == 4 && Pow2(4) == 16;
    FromBitsConcat(p, [a, b, c, d]);
  }

  lemma {:induction false} FromBitsBound(b: Bits)
    ensures FromBits(b) < Pow2(|b|)
  {
    if b != [] {
      FromBitsBound(b[..|b|-1]);
    }
  }

  /** Two's complement of a 16-bit signed value. */
  function WordOf(v: int): Word16 { ToBits(v % 0x1_0000, 16) }

  function ValueOf(w: Word16): (v: int)
    ensures -0x8000 <= v < 0x8000
  {
    FromBitsBound(w);
    Pow2Words();
    var u := FromBits(w);
    if u < 0x8000 then u else u - 0x1_0000
  }

  function Join(hi: Byte, lo: Byte): (w: Word16)
    ensures w[..8] == hi && w[8..] == lo
  {
    var h: Bits := hi;
    h + lo
  }

  lemma ValueOfWord(v: int)
    requires -0x8000 <= v < 0x8000
    ensures ValueOf(WordOf(v)) == v
  {
    Pow2Words();
    FromToBits(v % 0x1_0000, 16);
  }
}
