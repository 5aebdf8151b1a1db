/** Four-channel samples, their saturation and their ten-byte records. */
module Samples {
  import opened Words
  import opened Crc

  /** One sample of the four channels, in the order ch0, ch1, ch2, ch3 of main.c. */
  datatype Quad = Quad(c0: int, c1: int, c2: int, c3: int)

  const SILENCE := Quad(0, 0, 0, 0)

  /** Stored for a sample that could not be read back. */
  const MARKER := Quad(-32760, -32760, -32760, -32760)

  const LIMIT: int := 32750

  function Clamp(v: int): (r: int)
    ensures -LIMIT <= r <= LIMIT && (-LIMIT <= v <= LIMIT ==> r == v)
    ensures (v >= LIMIT ==> r == LIMIT) && (v <= -LIMIT ==> r == -LIMIT)
  { if v > LIMIT then LIMIT else if v < -LIMIT then -LIMIT else v }

  function Saturated(q: Quad): Quad {
    Quad(Clamp(q.c0), Clamp(q.c1), Clamp(q.c2), Clamp(q.c3))
  }

  predicate Is16Bit(v: int) { -0x8000 <= v < 0x8000 }

  predicate Fits(q: Quad) { Is16Bit(q.c0) && Is16Bit(q.c1) && Is16Bit(q.c2) && Is16Bit(q.c3) }

  predicate WithinLimit(q: Quad) {
    && -LIMIT <= q.c0 <= LIMIT && -LIMIT <= q.c1 <= LIMIT
    && -LIMIT <= q.c2 <= LIMIT && -LIMIT <= q.c3 <= LIMIT
  }

  method SaturateChannelValues(ch0: int, ch1: int, ch2: int, ch3: int) returns (r0: int, r1: int, r2: int, r3: int)
    ensures Quad(r0, r1, r2, r3) == Saturated(Quad(ch0, ch1, ch2, ch3))
    ensures WithinLimit(Quad(r0, r1, r2, r3))
    ensures r0 == if ch0 > 32750 then 32750 else if ch0 < -32750 then -32750 else ch0
    ensures r1 == if ch1 > 32750 then 32750 else if ch1 < -32750 then -32750 else ch1
    ensures r2 == if ch2 > 32750 then 32750 else if ch2 < -32750 then -32750 else ch2
    ensures r3 == if ch3 > 32750 then 32750 else if ch3 < -32750 then -32750 else ch3
  {
    r0, r1, r2, r3 := ch0, ch1, ch2, ch3;
    if r0 > 32750 { r0 := 32750; }
    if r0 < -32750 { r0 := -32750; }
    if r1 > 32750 { r1 := 32750; }
    if r1 < -32750 { r1 := -32750; }
    if r2 > 32750 { r2 := 32750; }
    if r2 < -32750 { r2 := -32750; }
    if r3 > 32750 { r3 := 32750; }
    if r3 < -32750 { r3 := -32750; }
  }

  // ---------- records ----------

  /** Two's complement, high byte first. */
  function BytesOf(v: int): (b: seq<Byte>)
    ensures |b| == 2
  { [WordOf(v)[..8], WordOf(v)[8..]] }

  function Payload(q: Quad): (p: seq<Byte>)
    ensures |p| == 8
  { BytesOf(q.c0) + BytesOf(q.c1) + BytesOf(q.c2) + BytesOf(q.c3) }

  function RecordOf(q: Quad): Record {
    var crc := Checksum(Payload(q));
    Payload(q) + [crc[..8], crc[8..]]
  }

  function Decode(r: Record): Quad {
    Quad(ValueOf(Join(r[0], r[1])), ValueOf(Join(r[2], r[3])),
         ValueOf(Join(r[4], r[5])), ValueOf(Join(r[6], r[7])))
  }

  lemma JoinSplit(w: Word16)
    ensures Join(w[..8], w[8..]) == w
  {
  }

  lemma BytesRoundTrip(v: int)
    requires Is16Bit(v)
    ensures ValueOf(Join(BytesOf(v)[0], BytesOf(v)[1])) == v
  {
    JoinSplit(WordOf(v));
    ValueOfWord(v);
  }

  /** A record passes the reader's test and decodes to the sample it was made from. */
  lemma RecordRoundTrip(q: Quad)
    requires Fits(q)
    ensures Accepted(RecordOf(q)) && Decode(RecordOf(q)) == q
  {
    assert RecordOf(q)[..8] == Payload(q);
    JoinSplit(Checksum(Payload(q)));
    BytesRoundTrip(q.c0);
    BytesRoundTrip(q.c1);
    BytesRoundTrip(q.c2);
    BytesRoundTrip(q.c3);
  }

  /** The value of two bytes, high byte first. */
  function Number(hi: Byte, lo: Byte): nat { 0x100 * FromBits(hi) + FromBits(lo) }

  lemma BytesNumber(v: int)
    ensures Number(BytesOf(v)[0], BytesOf(v)[1]) == v % 0x1_0000
  {
    Pow2Words();
    JoinSplit(WordOf(v));
    JoinIs(WordOf(v)[..8], WordOf(v)[8..]);
    FromToBits(v % 0x1_0000, 16);
  }

  /** The layout of a record: the four channels in order in two's complement, then the checksum of
      those eight bytes, each number with its high byte first. */
  lemma RecordLayout(q: Quad)
    ensures var r := RecordOf(q);
      && Number(r[0], r[1]) == q.c0 % 0x1_0000 && Number(r[2], r[3]) == q.c1 % 0x1_0000
      && Number(r[4], r[5]) == q.c2 % 0x1_0000 && Number(r[6], r[7]) == q.c3 % 0x1_0000
      && Number(r[8], r[9]) == FromBits(Checksum(r[..8]))
  {
    BytesNumber(q.c0);
    BytesNumber(q.c1);
    BytesNumber(q.c2);
    BytesNumber(q.c3);
    var crc := Checksum(Payload(q));
    assert RecordOf(q)[..8] == Payload(q);
    JoinSplit(crc);
    JoinIs(crc[..8], crc[8..]);
  }

  /** The write side of the recording loop: eight data bytes, then the checksum. */
  method StoreSample(buf: array<Byte>, q: Quad)
    requires buf.Length == 40
    modifies buf
    ensures buf[..10] == RecordOf(q)
  {
    var w0, w1, w2, w3 := WordOf(q.c0), WordOf(q.c1), WordOf(q.c2), WordOf(q.c3);
    buf[0] := w0[..8];
    buf[1] := w0[8..];
    buf[2] := w1[..8];
    buf[3] := w1[8..];
    buf[4] := w2[..8];
    buf[5] := w2[8..];
    buf[6] := w3[..8];
    buf[7] := w3[8..];
    assert buf[..8] == Payload(q);
    StoreChecksum(buf);
    assert buf[..10] == buf[..8] + [buf[8], buf[9]];
  }

  method StoreChecksum(buf: array<Byte>)
    requires buf.Length == 40
    modifies buf
    ensures buf[..8] == old(buf[..8])
    ensures [buf[8], buf[9]] == [Checksum(buf[..8])[..8], Checksum(buf[..8])[8..]]
  {
    var crc := Crc16Ccitt(buf, 8);
    ghost var data := buf[..8];
    buf[8] := crc[..8];
    buf[9] := crc[8..];
    assert buf[..8] == data;
  }

  /** The read side: eight bytes in pairs, high byte first, one channel each. */
  method LoadSample(buf: array<Byte>) returns (q: Quad)
    requires buf.Length == 40
    ensures q == Decode(buf[..10])
  {
    q := Quad(ValueOf(Join(buf[0], buf[1])), ValueOf(Join(buf[2], buf[3])),
              ValueOf(Join(buf[4], buf[5])), ValueOf(Join(buf[6], buf[7])));
  }

  /** The reader's test on the first ten bytes of the read buffer. */
  method ChecksumMatches(buf: array<Byte>) returns (ok: bool)
    requires buf.Length == 40
    ensures ok == Accepted(buf[..10])
  {
    var crcToCompare := Join(buf[8], buf[9]);
    var crc := Crc16Ccitt(buf, 8);
    assert buf[..10][..8] == buf[..8];
    ok := crc == crcToCompare;
  }
}
