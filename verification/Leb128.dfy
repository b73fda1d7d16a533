/** LEB128 as the dex writers and readers use it (libartbase/base/leb128.h). */
module Leb128 {
  import opened Bytes

  /** The unsigned encoding: seven bits a byte, low bits first, the top bit set on all but the last. */
  function Uleb(v: nat): (s: seq<Byte>)
    ensures |s| > 0
  {
    if v < 128 then [v] else [v % 128 + 128] + Uleb(v / 128)
  }

  /** The signed encoding: stops as soon as the remaining bits are the sign. */
  function Sleb(v: int): (s: seq<Byte>)
    ensures |s| > 0
    decreases if v < 0 then -v else v
  {
    if -64 <= v < 64 then [v % 128] else [v % 128 + 128] + Sleb(v / 128)
  }

  /** A decoded value and the bytes after it. */
  datatype Decoded<+T> = Decoded(value: T, rest: seq<Byte>)

  /**
    * `DecodeUnsignedLeb128` from its `k`-th byte on. The fifth byte always ends the value, and
    * only its low four bits fit into the result.
    */
  function UlebFrom(s: seq<Byte>, k: nat): (r: Option<Decoded<nat>>)
    requires k <= 4
    ensures r.Some? ==> |r.value.rest| < |s|
    decreases 4 - k
  {
    if s == [] then None
    else if k == 4 then Some(Decoded(s[0] % 16, s[1..]))
    else if s[0] < 128 then Some(Decoded(s[0], s[1..]))
    else match UlebFrom(s[1..], k + 1)
         case None => None
         case Some(d) => Some(Decoded(s[0] - 128 + 128 * d.value, d.rest))
  }

  lemma UlebFromBound(s: seq<Byte>)
    ensures UlebFrom(s, 4).Some? ==> UlebFrom(s, 4).value.value < 0x10
    ensures UlebFrom(s, 3).Some? ==> UlebFrom(s, 3).value.value < 0x800
    ensures UlebFrom(s, 2).Some? ==> UlebFrom(s, 2).value.value < 0x4_0000
    ensures UlebFrom(s, 1).Some? ==> UlebFrom(s, 1).value.value < 0x200_0000
    ensures UlebFrom(s, 0).Some? ==> UlebFrom(s, 0).value.value < 0x1_0000_0000
  {
  }

  function ReadUleb(s: seq<Byte>): (r: Option<Decoded<UInt32>>)
    ensures r.Some? ==> |r.value.rest| < |s|
  {
    UlebFromBound(s);
    match UlebFrom(s, 0)
    case None => None
    case Some(d) => Some(Decoded(d.value, d.rest))
  }

  /** One past the largest value `UlebFrom(_, k)` can return. */
  function UlebLimit(k: nat): nat {
    if k == 0 then 0x1_0000_0000
    else if k == 1 then 0x200_0000
    else if k == 2 then 0x4_0000
    else if k == 3 then 0x800
    else 0x10
  }

  lemma {:induction false} UlebRoundTripFrom(v: nat, k: nat, rest: seq<Byte>)
    requires k <= 4 && v < UlebLimit(k)
    ensures UlebFrom(Uleb(v) + rest, k) == Some(Decoded(v, rest))
    decreases 4 - k
  {
    hide *;
    UlebStep(v, rest);
    if v < 128 {
      UlebFromStep([v] + rest, k);
      SmallFits(v, k);
    } else {
      LimitStep(v, k);
      UlebRoundTripFrom(v / 128, k + 1, rest);
      UlebFromStep([v % 128 + 128] + (Uleb(v / 128) + rest), k);
    }
  }

  lemma UlebStep(v: nat, rest: seq<Byte>)
    ensures v < 128 ==> Uleb(v) + rest == [v] + rest && ([v] + rest)[1..] == rest
    ensures v >= 128 ==> Uleb(v) + rest == [v % 128 + 128] + (Uleb(v / 128) + rest)
    ensures v >= 128 ==> ([v % 128 + 128] + (Uleb(v / 128) + rest))[1..] == Uleb(v / 128) + rest
  {
  }

  lemma UlebFromStep(s: seq<Byte>, k: nat)
    requires k <= 4 && s != []
    ensures k == 4 ==> UlebFrom(s, k) == Some(Decoded(s[0] % 16, s[1..]))
    ensures k < 4 && s[0] < 128 ==> UlebFrom(s, k) == Some(Decoded(s[0], s[1..]))
    ensures k < 4 && s[0] >= 128 && UlebFrom(s[1..], k + 1).Some? ==>
              var d := UlebFrom(s[1..], k + 1).value;
              UlebFrom(s, k) == Some(Decoded(s[0] - 128 + 128 * d.value, d.rest))
  {
  }

  lemma SmallFits(v: nat, k: nat)
    requires k <= 4 && v < UlebLimit(k)
    ensures k == 4 ==> v % 16 == v
  {
  }

  lemma LimitStep(v: nat, k: nat)
    requires k <= 4 && 128 <= v < UlebLimit(k)
    ensures k < 4 && v / 128 < UlebLimit(k + 1) && v % 128 + 128 * (v / 128) == v
  {
  }

  /** Reading an encoded `uint32_t` back, whatever follows it, gives the value and what follows. */
  lemma UlebRoundTrip(v: UInt32, rest: seq<Byte>)
    ensures ReadUleb(Uleb(v) + rest) == Some(Decoded(v, rest))
  {
    UlebRoundTripFrom(v, 0, rest);
  }

  /** No byte string that decodes to a value is shorter than the encoding of that value. */
  lemma {:induction false} UlebShortestFrom(s: seq<Byte>, k: nat)
    requires k <= 4 && UlebFrom(s, k).Some?
    ensures |Uleb(UlebFrom(s, k).value.value)| <= |s| - |UlebFrom(s, k).value.rest|
    decreases 4 - k
  {
    if k < 4 && s[0] >= 128 {
      UlebShortestFrom(s[1..], k + 1);
    }
  }

  lemma UlebShortest(s: seq<Byte>)
    requires ReadUleb(s).Some?
    ensures |Uleb(ReadUleb(s).value.value)| <= |s| - |ReadUleb(s).value.rest|
  {
    UlebShortestFrom(s, 0);
  }

  /** The sign of a value of `bits` bits. */
  function SignOf(v: nat, half: nat): int
    requires v < 2 * half
  {
    if v < half then v else v - 2 * half
  }

  /** `DecodeSignedLeb128` from its `k`-th byte on. */
  function SlebFrom(s: seq<Byte>, k: nat): (r: Option<Decoded<int>>)
    requires k <= 4
    ensures r.Some? ==> |r.value.rest| < |s|
    decreases 4 - k
  {
    if s == [] then None
    else if k == 4 then Some(Decoded(SignOf(s[0] % 16, 8), s[1..]))
    else if s[0] < 128 then Some(Decoded(SignOf(s[0], 64), s[1..]))
    else match SlebFrom(s[1..], k + 1)
         case None => None
         case Some(d) => Some(Decoded(s[0] - 128 + 128 * d.value, d.rest))
  }

  function ReadSleb(s: seq<Byte>): (r: Option<Decoded<int>>)
    ensures r.Some? ==> |r.value.rest| < |s|
  {
    SlebFrom(s, 0)
  }

  /** The values `SlebFrom(_, k)` can return. */
  predicate InSlebRange(v: int, k: nat) {
    var half := UlebLimit(k) / 2;
    0 <= v + half && v < half
  }

  lemma {:induction false} SlebOneByte(v: int, k: nat, rest: seq<Byte>)
    requires k <= 4 && -64 <= v < 64 && InSlebRange(v, k)
    ensures SlebFrom([v % 128] + rest, k) == Some(Decoded(v, rest))
  {
    assert ([v % 128] + rest)[1..] == rest;
  }

  lemma {:induction false} SlebRoundTripFrom(v: int, k: nat, rest: seq<Byte>)
    requires k <= 4 && InSlebRange(v, k)
    ensures SlebFrom(Sleb(v) + rest, k) == Some(Decoded(v, rest))
    decreases 4 - k
  {
    hide *;
    SlebStep(v, rest);
    if -64 <= v < 64 {
      SlebOneByte(v, k, rest);
    } else {
      SlebRangeStep(v, k);
      SlebRoundTripFrom(v / 128, k + 1, rest);
      SlebFromStep([v % 128 + 128] + (Sleb(v / 128) + rest), k);
    }
  }

  lemma SlebStep(v: int, rest: seq<Byte>)
    ensures -64 <= v < 64 ==> Sleb(v) + rest == [v % 128] + rest
    ensures !(-64 <= v < 64) ==> Sleb(v) + rest == [v % 128 + 128] + (Sleb(v / 128) + rest)
    ensures !(-64 <= v < 64) ==> ([v % 128 + 128] + (Sleb(v / 128) + rest))[1..] == Sleb(v / 128) + rest
  {
  }

  lemma SlebFromStep(s: seq<Byte>, k: nat)
    requires k < 4 && s != [] && s[0] >= 128 && SlebFrom(s[1..], k + 1).Some?
    ensures var d := SlebFrom(s[1..], k + 1).value;
            SlebFrom(s, k) == Some(Decoded(s[0] - 128 + 128 * d.value, d.rest))
  {
  }

  lemma SlebRangeStep(v: int, k: nat)
    requires k <= 4 && InSlebRange(v, k) && !(-64 <= v < 64)
    ensures k < 4 && InSlebRange(v / 128, k + 1) && v % 128 + 128 * (v / 128) == v
  {
  }

  lemma SlebRoundTrip(v: Int32, rest: seq<Byte>)
    ensures ReadSleb(Sleb(v) + rest) == Some(Decoded(v, rest))
  {
    SlebRoundTripFrom(v, 0, rest);
  }

  lemma UlebSize(v: UInt32)
    ensures |Uleb(v)| <= 5
  {
    assert |Uleb(v / 128 / 128 / 128 / 128)| == 1;
    assert |Uleb(v / 128 / 128)| <= 3;
  }

  lemma SlebSize(v: Int32)
    ensures |Sleb(v)| <= 5
  {
    assert |Sleb(v / 128 / 128 / 128 / 128)| == 1;
    assert |Sleb(v / 128 / 128)| <= 3;
  }

  /** The encoder's loop emits the unsigned encoding. */
  method EncodeUnsignedLeb128(value: UInt32) returns (s: seq<Byte>)
    ensures s == Uleb(value)
  {
    s := [];
    var out: nat, v: nat := value % 128, value / 128;
    ghost var left: nat := value;
    while v != 0
      invariant out == left % 128 && v == left / 128
      invariant s + Uleb(left) == Uleb(value)
      decreases v
    {
      assert Uleb(left) == [out + 128] + Uleb(v);
      assert s + Uleb(left) == s + [out + 128] + Uleb(v);
      s := s + [out + 128];
      left := v;
      out, v := v % 128, v / 128;
    }
    s := s + [out];
  }

  /** The encoder's loop, driven by the bits above the sign, emits the signed encoding. */
  method EncodeSignedLeb128(value: Int32) returns (s: seq<Byte>)
    ensures s == Sleb(value)
  {
    s := [];
    var v: int := value;
    var extraBits := (if v >= 0 then v else -v - 1) / 64;
    var out := v % 128;
    while extraBits != 0
      invariant out == v % 128 && extraBits == (if v >= 0 then v else -v - 1) / 64
      invariant s + Sleb(v) == Sleb(value)
      decreases extraBits
    {
      assert s + Sleb(v) == s + [out + 128] + Sleb(v / 128);
      s := s + [out + 128];
      v := v / 128;
      out := v % 128;
      extraBits := extraBits / 128;
    }
    s := s + [out];
  }
}
