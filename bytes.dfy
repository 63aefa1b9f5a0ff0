/**
 * Fixed-width unsigned integers, byte sums, the bitwise byte operators, and
 * the little-endian layout that `encoding/binary.LittleEndian` (and a `memcpy`
 * on the little-endian hosts the DLL runs on) gives to multi-byte fields.
 */
module Bytes {

  type uint8 = x: int | 0 <= x < 0x100
  type uint32 = x: int | 0 <= x < 0x1_0000_0000
  type uint64 = x: int | 0 <= x < 0x1_0000_0000_0000_0000

  const TWO_TO_32: nat := 0x1_0000_0000

  /** Sum of the bytes as an unbounded integer (the checksums reduce it mod 256). */
  function Sum(s: seq<uint8>): nat
  {
    if s == [] then 0 else s[0] + Sum(s[1..])
  }

  lemma {:induction false} SumConcat(a: seq<uint8>, b: seq<uint8>)
    ensures Sum(a + b) == Sum(a) + Sum(b)
  {
    if a == [] {
      assert a + b == b;
    } else {
      assert (a + b)[1..] == a[1..] + b;
      SumConcat(a[1..], b);
    }
  }

  lemma SumSingle(b: uint8)
    ensures Sum([b]) == b
  {
    assert [b][1..] == [];
  }

  lemma SumSnoc(s: seq<uint8>, k: nat)
    requires k < |s|
    ensures Sum(s[..k + 1]) == Sum(s[..k]) + s[k]
  {
    assert s[..k + 1] == s[..k] + [s[k]];
    SumConcat(s[..k], [s[k]]);
    SumSingle(s[k]);
  }

  lemma SumSliceSnoc(s: seq<uint8>, a: nat, k: nat)
    requires a <= k < |s|
    ensures Sum(s[a..k + 1]) == Sum(s[a..k]) + s[k]
  {
    assert s[a..k + 1] == s[a..k] + [s[k]];
    SumConcat(s[a..k], [s[k]]);
    SumSingle(s[k]);
  }

  /** An 8-bit accumulator holding a sum's low byte still does after the next addition. */
  lemma WrappingAdd(acc: uint8, total: nat, x: uint8)
    requires acc == total % 256
    ensures (acc + x) % 256 == (total + x) % 256
  {
    assert total + x == 256 * (total / 256) + (acc + x);
  }

  /** A run of zero bytes, as `make([]byte, n)` allocates it. */
  function Zeros(n: nat): (z: seq<uint8>)
    ensures |z| == n
    ensures forall k :: 0 <= k < n ==> z[k] == 0
  {
    seq(n, _ => 0)
  }

  /** A Go `bool` written as a byte: 1 for true, 0 for false. */
  function FromBool(b: bool): uint8
  {
    if b then 1 else 0
  }

  /** A byte read back as a Go or C `bool`: anything nonzero is true. */
  function ToBool(b: uint8): bool
  {
    b != 0
  }

  lemma FromBoolToBool(b: bool)
    ensures ToBool(FromBool(b)) == b
  {
  }

  function Or(a: uint8, b: uint8): uint8
  {
    ((a as bv8) | (b as bv8)) as int
  }

  function And(a: uint8, b: uint8): uint8
  {
    ((a as bv8) & (b as bv8)) as int
  }

  function Pow256(k: nat): nat
  {
    if k == 0 then 1 else 256 * Pow256(k - 1)
  }

  /** The value of the bytes read little-endian (first byte least significant). */
  function LeValue(s: seq<uint8>): nat
  {
    if s == [] then 0 else s[0] + 256 * LeValue(s[1..])
  }

  /** The k low-order bytes of n, least significant first. */
  function LeBytes(n: nat, k: nat): (s: seq<uint8>)
    ensures |s| == k
  {
    if k == 0 then [] else [n % 256] + LeBytes(n / 256, k - 1)
  }

  lemma {:induction false} LeValueBound(s: seq<uint8>)
    ensures LeValue(s) < Pow256(|s|)
  {
    if s != [] {
      LeValueBound(s[1..]);
    }
  }

  lemma {:induction false} LeRoundTrip(n: nat, k: nat)
    requires n < Pow256(k)
    ensures LeValue(LeBytes(n, k)) == n
  {
    if k > 0 {
      LeRoundTrip(n / 256, k - 1);
      assert LeBytes(n, k)[1..] == LeBytes(n / 256, k - 1);
    }
  }

  lemma {:induction false} LeBytesOfValue(s: seq<uint8>)
    ensures LeBytes(LeValue(s), |s|) == s
  {
    if s != [] {
      LeBytesOfValue(s[1..]);
      assert LeValue(s) % 256 == s[0];
      assert LeValue(s) / 256 == LeValue(s[1..]);
    }
  }

  /** `binary.LittleEndian.Uint32`: the first four bytes; Go panics on fewer. */
  function LeUint32(s: seq<uint8>): (v: uint32)
    requires |s| >= 4
    ensures LeBytes(v, 4) == s[..4]
  {
    LeValueBound(s[..4]);
    assert Pow256(4) == TWO_TO_32;
    LeBytesOfValue(s[..4]);
    LeValue(s[..4])
  }

  /** `binary.LittleEndian.Uint64`: the first eight bytes; Go panics on fewer. */
  function LeUint64(s: seq<uint8>): (v: uint64)
    requires |s| >= 8
    ensures LeBytes(v, 8) == s[..8]
  {
    LeValueBound(s[..8]);
    assert Pow256(8) == 0x1_0000_0000_0000_0000;
    LeBytesOfValue(s[..8]);
    LeValue(s[..8])
  }

  /** The eight bytes a uint64 occupies on the wire. */
  lemma LeUint64OfBytes(n: uint64, rest: seq<uint8>)
    ensures LeUint64(LeBytes(n, 8) + rest) == n
  {
    var s := LeBytes(n, 8) + rest;
    assert s[..8] == LeBytes(n, 8);
    assert Pow256(8) == 0x1_0000_0000_0000_0000;
    LeRoundTrip(n, 8);
  }
}
