/**
 * Bytes and the fixed-width little-endian integers of the Molecule format
 * (Nervos RFC 0008 "Serialization"): `Uint8`, `Uint32` and `Uint64` are byte
 * arrays of width 1, 4 and 8 holding the value low byte first.
 */
module Bytes {

  import opened Wrappers

  type byte = b: int | 0 <= b < 0x100

  const TWO_32: nat := 0x1_0000_0000
  const TWO_64: nat := 0x1_0000_0000_0000_0000

  /** Go's `uint8`, `uint32` and `uint64`. */
  type u8 = n: nat | n < 0x100
  type u32 = n: nat | n < 0x1_0000_0000
  type u64 = n: nat | n < 0x1_0000_0000_0000_0000

  function Pow256(width: nat): (r: nat)
    ensures r > 0
  {
    if width == 0 then 1 else 256 * Pow256(width - 1)
  }

  lemma Pow256Widths()
    ensures Pow256(1) == 0x100 && Pow256(4) == TWO_32 && Pow256(8) == TWO_64
  {
    assert Pow256(1) == 256;
    assert Pow256(2) == 256 * 256;
    assert Pow256(4) == 256 * 256 * 256 * 256;
    assert Pow256(8) == Pow256(4) * Pow256(4) by { Pow256Add(4, 4); }
  }

  lemma {:induction false} Pow256Add(a: nat, b: nat)
    ensures Pow256(a + b) == Pow256(a) * Pow256(b)
  {
    if a > 0 {
      Pow256Add(a - 1, b);
    }
  }

  /** `n` in exactly `width` bytes, the least significant byte first. */
  function LittleEndian(n: nat, width: nat): (r: seq<byte>)
    requires n < Pow256(width)
    ensures |r| == width
  {
    if width == 0 then []
    else
      assert n / 256 < Pow256(width - 1) by { DivBound(n, Pow256(width - 1)); }
      [n % 256] + LittleEndian(n / 256, width - 1)
  }

  lemma DivBound(n: nat, p: nat)
    requires n < 256 * p
    ensures n / 256 < p
  {
  }

  /** The value of a little-endian byte string of any width. */
  function FromLittleEndian(b: seq<byte>): (n: nat)
    ensures n < Pow256(|b|)
  {
    if b == [] then 0
    else
      var rest := FromLittleEndian(b[1..]);
      assert b[0] + 256 * rest < Pow256(|b|) by {
        assert rest + 1 <= Pow256(|b| - 1);
        assert 256 * (rest + 1) <= 256 * Pow256(|b| - 1);
      }
      b[0] + 256 * rest
  }

  lemma {:induction false} FromToLittleEndian(n: nat, width: nat)
    requires n < Pow256(width)
    ensures FromLittleEndian(LittleEndian(n, width)) == n
  {
    if width > 0 {
      DivBound(n, Pow256(width - 1));
      FromToLittleEndian(n / 256, width - 1);
      assert LittleEndian(n, width)[1..] == LittleEndian(n / 256, width - 1);
    }
  }

  lemma {:induction false} ToFromLittleEndian(b: seq<byte>)
    ensures LittleEndian(FromLittleEndian(b), |b|) == b
  {
    if b != [] {
      ToFromLittleEndian(b[1..]);
      var rest := FromLittleEndian(b[1..]);
      assert (b[0] + 256 * rest) % 256 == b[0];
      assert (b[0] + 256 * rest) / 256 == rest;
    }
  }

  /** Go's `molecule.GoU32ToBytes(uint32(n))`: the conversion to `uint32` keeps the low 32 bits. */
  function U32(n: nat): (r: seq<byte>)
    ensures |r| == 4
  {
    Pow256Widths();
    LittleEndian(n % TWO_32, 4)
  }

  /** `molecule.GoU64ToMoleculeU64(n).RawData()`. */
  function U64(n: u64): (r: seq<byte>)
    ensures |r| == 8
  {
    Pow256Widths();
    LittleEndian(n, 8)
  }

  /** `molecule.Bytes2GoU32`: the value of exactly four bytes, or an error. */
  function Bytes2GoU32(b: seq<byte>): (r: Option<u32>)
    ensures r.Some? <==> |b| == 4
  {
    Pow256Widths();
    if |b| == 4 then Some(FromLittleEndian(b)) else None
  }

  /** `molecule.Bytes2GoU64`: the value of exactly eight bytes, or an error. */
  function Bytes2GoU64(b: seq<byte>): (r: Option<u64>)
    ensures r.Some? <==> |b| == 8
  {
    Pow256Widths();
    if |b| == 8 then Some(FromLittleEndian(b)) else None
  }

  lemma U32RoundTrip(n: u32)
    ensures Bytes2GoU32(U32(n)) == Some(n)
  {
    Pow256Widths();
    FromToLittleEndian(n, 4);
  }

  lemma U64RoundTrip(n: u64)
    ensures Bytes2GoU64(U64(n)) == Some(n)
  {
    Pow256Widths();
    FromToLittleEndian(n, 8);
  }

  lemma Bytes2GoU32Inverse(b: seq<byte>)
    requires |b| == 4
    ensures U32(Bytes2GoU32(b).value) == b
  {
    Pow256Widths();
    ToFromLittleEndian(b);
  }

  lemma Bytes2GoU64Inverse(b: seq<byte>)
    requires |b| == 8
    ensures U64(Bytes2GoU64(b).value) == b
  {
    Pow256Widths();
    ToFromLittleEndian(b);
  }

  /** A Go string literal of ASCII characters as the bytes Go stores for it. */
  function Ascii(s: string): (r: seq<byte>)
    ensures |r| == |s|
    ensures forall i :: 0 <= i < |s| ==> r[i] == s[i] as int % 0x100
  {
    seq(|s|, i requires 0 <= i < |s| => s[i] as int % 0x100)
  }
}
