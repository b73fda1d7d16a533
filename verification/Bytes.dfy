/** Bytes, little-endian words, alignment, and the fixed-width integer types of the C++ sources. */
module Bytes {

  type Byte = b: int | 0 <= b < 256
  type UInt16 = x: int | 0 <= x < 0x1_0000
  type UInt32 = x: int | 0 <= x < 0x1_0000_0000
  type UInt64 = x: int | 0 <= x < 0x1_0000_0000_0000_0000
  type Int8 = x: int | -0x80 <= x < 0x80
  type Int16 = x: int | -0x8000 <= x < 0x8000
  type Int32 = x: int | -0x8000_0000 <= x < 0x8000_0000
  type Int64 = x: int | -0x8000_0000_0000_0000 <= x < 0x8000_0000_0000_0000

  datatype Option<+T> = None | Some(value: T)

  /** The conversion to `uint32_t`: keep the low 32 bits. */
  function ToU32(x: int): UInt32 {
    x % 0x1_0000_0000
  }

  /** The conversion to `uint16_t`: keep the low 16 bits. */
  function ToU16(x: int): UInt16 {
    x % 0x1_0000
  }

  function Zeros(n: nat): (s: seq<Byte>)
    ensures |s| == n
  {
    seq(n, _ => 0)
  }

  function Pow256(n: nat): (r: nat)
    ensures r > 0
  {
    if n == 0 then 1 else 256 * Pow256(n - 1)
  }

  /** `x << 8 * n`. */
  function ShiftBytes(x: nat, n: nat): nat {
    if n == 0 then x else 256 * ShiftBytes(x, n - 1)
  }

  /** The low `n` bytes of `v`, least significant first. */
  function Le(n: nat, v: int): (s: seq<Byte>)
    ensures |s| == n
  {
    if n == 0 then [] else [v % 256] + Le(n - 1, v / 256)
  }

  function FromLe(s: seq<Byte>): nat {
    if s == [] then 0 else s[0] + 256 * FromLe(s[1..])
  }

  lemma FromLeBound(s: seq<Byte>)
    ensures FromLe(s) < Pow256(|s|)
  {
  }

  /** Reading back the low `n` bytes of a value that fits in them gives the value. */
  lemma {:induction false} LeRoundTrip(n: nat, v: nat)
    requires v < Pow256(n)
    ensures FromLe(Le(n, v)) == v
  {
    if n > 0 {
      LeRoundTrip(n - 1, v / 256);
      assert Le(n, v)[1..] == Le(n - 1, v / 256);
    }
  }

  lemma {:induction false} LeOfFromLe(s: seq<Byte>)
    ensures Le(|s|, FromLe(s)) == s
  {
    if s != [] {
      LeOfFromLe(s[1..]);
      assert FromLe(s) % 256 == s[0] && FromLe(s) / 256 == FromLe(s[1..]);
      assert s == [s[0]] + s[1..];
    }
  }

  lemma LeTwo(x: UInt16)
    ensures Le(2, x) == [x % 256, x / 256]
  {
    assert Le(2, x) == [x % 256] + Le(1, x / 256) && Le(1, x / 256) == [x / 256 % 256] + Le(0, x / 256 / 256);
  }

  lemma Pow256Values()
    ensures Pow256(1) == 0x100 && Pow256(2) == 0x1_0000 && Pow256(3) == 0x100_0000
    ensures Pow256(4) == 0x1_0000_0000 && Pow256(8) == 0x1_0000_0000_0000_0000
  {
    assert Pow256(3) == 256 * Pow256(2);
    assert Pow256(5) == 256 * Pow256(4);
    assert Pow256(7) == 256 * Pow256(6);
  }

  /** The alignments the writers use: 1 byte, 2 for compact code items, `kDexSectionWordAlignment`, `kDataSectionAlignment`. */
  type Alignment = a: nat | a == 1 || a == 2 || a == 4 || a == 8 witness 1

  lemma DivUnique(x: int, d: nat, q: int, r: nat)
    requires d > 0 && r < d && x == d * q + r
    ensures x / d == q && x % d == r
  {
    var q', r' := x / d, x % d;
    assert x == d * q' + r';
    assert d * (q - q') == r' - r;
    assert q - q' >= 1 ==> d * (q - q') >= d;
    assert q - q' <= -1 ==> d * (q - q') + d <= 0;
  }

  /** `RoundUp`: the least multiple of `a` that is not below `p`. */
  function AlignUp(p: nat, a: Alignment): (r: nat)
    ensures p <= r < p + a
  {
    if a == 4 then (if p % 4 == 0 then p else p - p % 4 + 4)
    else if a == 8 then (if p % 8 == 0 then p else p - p % 8 + 8)
    else if a == 2 then p + p % 2
    else p
  }

  lemma Aligns2(p: nat)
    ensures (p + p % 2) % 2 == 0
  {
  }

  lemma Aligns4(p: nat)
    ensures (p - p % 4 + 4) % 4 == 0
  {
  }

  lemma Aligns8(p: nat)
    ensures (p - p % 8 + 8) % 8 == 0
  {
  }

  lemma AlignUpAligns(p: nat, a: Alignment)
    ensures AlignUp(p, a) % a == 0
  {
    if a == 2 {
      Aligns2(p);
    } else if a == 4 {
      Aligns4(p);
    } else if a == 8 {
      Aligns8(p);
    }
  }
}
