/** The serial RAM: command frames, the 24-bit address in three bytes, and the byte memory
    behind it. */
module Psram {
  import opened Polynomials
  import opened Words
  import opened Crc
  import opened Memory

  const SPI_FLASH_WRITE: nat := 0x02
  const SPI_FLASH_READ: nat := 0x03

  function ByteOf(n: nat): Byte { ToBits(n, 8) }

  function ShiftRight(n: nat, k: nat): nat {
    if k == 0 then n else ShiftRight(n / 2, k - 1)
  }

  lemma {:induction false} ToBitsSplit(n: nat, hi: nat, lo: nat)
    ensures ToBits(n, hi + lo) == ToBits(ShiftRight(n, lo), hi) + ToBits(n, lo)
  {
    if lo > 0 {
      ToBitsSplit(n / 2, hi, lo - 1);
      var tail := [n % 2 == 1];
      assert ToBits(n, hi + lo) == ToBits(n / 2, hi + lo - 1) + tail;
      assert (ToBits(ShiftRight(n, lo), hi) + ToBits(n / 2, lo - 1)) + tail
          == ToBits(ShiftRight(n, lo), hi) + (ToBits(n / 2, lo - 1) + tail);
    }
  }

  lemma ShiftTwo(n: nat, k: nat)
    requires k >= 2
    ensures ShiftRight(n, k) == ShiftRight(n / 4, k - 2)
  {
    assert ShiftRight(n, k) == ShiftRight(n / 2, k - 1);
    assert n / 2 / 2 == n / 4;
  }

  lemma ShiftByte(n: nat)
    ensures ShiftRight(n, 8) == n / 0x100
  {
    ShiftTwo(n, 8);
    ShiftTwo(n / 4, 6);
    ShiftTwo(n / 4 / 4, 4);
    ShiftTwo(n / 4 / 4 / 4, 2);
  }

  /** The three address bytes of a frame name the address they were split from. */
  lemma AddressRoundTrip(address: nat)
    requires address < 0x100_0000
    ensures AddressOf(ByteOf(address / 0x1_0000), ByteOf(address / 0x100), ByteOf(address)) == address
  {
    ToBitsSplit(address, 16, 8);
    ToBitsSplit(address / 0x100, 8, 8);
    ShiftByte(address);
    ShiftByte(address / 0x100);
    assert address / 0x100 / 0x100 == address / 0x1_0000;
    Pow2Words();
    assert Pow2(24) == 0x100_0000 by {
      assert Pow2(18) == 0x4_0000;
      assert Pow2(20) == 0x10_0000;
      assert Pow2(22) == 0x40_0000;
    }
    FromToBits(address, 24);
  }

  /** Three address bytes as a number, highest first. */
  lemma AddressIs(high: Byte, middle: Byte, low: Byte)
    ensures AddressOf(high, middle, low) == 0x1_0000 * FromBits(high) + 0x100 * FromBits(middle) + FromBits(low)
  {
    var h: Bits, m: Bits := high, middle;
    AppendByte(h + m, low);
    AppendByte(h, middle);
  }

  /** The first four bytes of a frame as numbers. */
  lemma HeaderIs(command: nat, address: nat)
    ensures var t := Header(command, address);
      && |t| == 4 && FromBits(t[0]) == command % 0x100
      && FromBits(t[1]) == address / 0x1_0000 % 0x100
      && FromBits(t[2]) == address / 0x100 % 0x100 && FromBits(t[3]) == address % 0x100
  {
    Pow2Words();
    FromLowBits(command, 8);
    FromLowBits(address / 0x1_0000, 8);
    FromLowBits(address / 0x100, 8);
    FromLowBits(address, 8);
  }

  function AddressOf(high: Byte, middle: Byte, low: Byte): nat {
    var h: Bits, m: Bits := high, middle;
    FromBits((h + m) + low)
  }

  /** The memory chip on the SPI bus. */
  class Chip {
    var mem: seq<Byte>

    ghost predicate Valid()
      reads this
    { |mem| == 0x100_0000 }

    constructor (content: seq<Byte>)
      requires |content| == 0x100_0000
      ensures Valid() && mem == content
    {
      mem := content;
    }

    /** One transfer: a command, three address bytes, then data. A write stores the data; a
        read answers with the memory, as the bus delivers it under error pattern noise. */
    method Transfer(tx: seq<Byte>, noise: seq<Byte>) returns (rx: seq<Byte>)
      requires Valid() && |tx| >= 4 && |noise| == |tx| - 4
      requires AddressOf(tx[1], tx[2], tx[3]) + |tx| - 4 <= |mem|
      modifies this
      ensures Valid() && |rx| == |tx|
      ensures var a, n := AddressOf(tx[1], tx[2], tx[3]), |tx| - 4;
              if tx[0] == ByteOf(SPI_FLASH_WRITE) then mem == old(mem)[..a] + tx[4..] + old(mem)[a + n..]
              else mem == old(mem) && (tx[0] == ByteOf(SPI_FLASH_READ) ==> rx[4..] == Corrupt(mem[a..a + n], noise))
    {
      var a, n := AddressOf(tx[1], tx[2], tx[3]), |tx| - 4;
      rx := seq(|tx|, _ => Zeros(8));
      if tx[0] == ByteOf(SPI_FLASH_WRITE) {
        mem := mem[..a] + tx[4..] + mem[a + n..];
      } else if tx[0] == ByteOf(SPI_FLASH_READ) {
        rx := rx[..4] + Corrupt(mem[a..a + n], noise);
      }
    }

    /** tx of both driver functions before the data: 36 bytes, command and address filled in. */
    static method Frame(command: nat, address: nat) returns (tx: array<Byte>)
      ensures fresh(tx) && tx.Length == 36
      ensures tx[..4] == Header(command, address)
    {
      tx := new Byte[36](_ => Zeros(8));
      tx[0] := ByteOf(command);
      tx[1] := ByteOf(address / 0x1_0000);
      tx[2] := ByteOf(address / 0x100);
      tx[3] := ByteOf(address);
    }

    /** FLASH_MEMORY_WRITE_BYTE_ARRAY. The frame holds 36 bytes, so at most 32 data bytes. */
    method WriteByteArray(address: nat, buf: array<Byte>, length: nat)
      requires Valid() && length <= buf.Length && length <= 32 && address < |mem| && address + length <= |mem|
      modifies this
      ensures Valid()
      ensures mem == old(mem)[..address] + buf[..length] + old(mem)[address + length..]
    {
      var tx := Frame(SPI_FLASH_WRITE, address);
      MemCopy(tx, 4, buf[..length]);
      AddressRoundTrip(address);
      CommandsDiffer();
      var rx := Transfer(tx[..length + 4], seq(length, _ => Zeros(8)));
    }

    /** FLASH_MEMORY_READ_DATA. */
    method ReadData(address: nat, buf: array<Byte>, length: nat, noise: seq<Byte>)
      requires Valid() && length <= buf.Length && length <= 32 && address < |mem| && address + length <= |mem|
      requires |noise| == length
      modifies this, buf
      ensures Valid() && mem == old(mem)
      ensures buf[..length] == Corrupt(mem[address..address + length], noise)
    {
      var tx := Frame(SPI_FLASH_READ, address);
      AddressRoundTrip(address);
      CommandsDiffer();
      ghost var data := mem[address..address + length];
      var rx := Transfer(tx[..length + 4], noise);
      assert rx[4..] == Corrupt(data, noise);
      MemCopy(buf, 0, rx[4..]);
    }
  }

  function Header(command: nat, address: nat): seq<Byte> {
    [ByteOf(command), ByteOf(address / 0x1_0000), ByteOf(address / 0x100), ByteOf(address)]
  }

  lemma CommandsDiffer()
    ensures ByteOf(SPI_FLASH_WRITE) != ByteOf(SPI_FLASH_READ)
  {
    assert ByteOf(SPI_FLASH_WRITE)[7] == false;
    assert ByteOf(SPI_FLASH_READ)[7] == true;
  }
}
