/** The bytes of an encoded value, by the numbers of the format. */
module EncodedValueFormat {
  import opened Bytes
  import opened Leb128
  import opened EncodedValues
  import opened EncodedValueRoundTrip

  /** The type of a value, as the format numbers it. */
  function TypeNumber(v: EncodedValue): nat {
    match v
    case ByteValue(_) => 0x00
    case ShortValue(_) => 0x02
    case CharValue(_) => 0x03
    case IntValue(_) => 0x04
    case LongValue(_) => 0x06
    case FloatValue(_) => 0x10
    case DoubleValue(_) => 0x11
    case IndexValue(MethodType, _) => 0x15
    case IndexValue(MethodHandle, _) => 0x16
    case IndexValue(StringIdx, _) => 0x17
    case IndexValue(TypeIdx, _) => 0x18
    case IndexValue(FieldIdx, _) => 0x19
    case IndexValue(MethodIdx, _) => 0x1a
    case IndexValue(EnumIdx, _) => 0x1b
    case ArrayValue(_) => 0x1c
    case AnnotationValue(_) => 0x1d
    case NullValue => 0x1e
    case BooleanValue(_) => 0x1f
    case OtherValue(t) => t
  }

  /** The values that are numbers or indices. */
  predicate IsScalar(v: EncodedValue) {
    !v.ArrayValue? && !v.AnnotationValue? && !v.NullValue? && !v.BooleanValue? && !v.OtherValue?
  }

  /** The most bytes a scalar takes. */
  function Width(v: EncodedValue): nat {
    match v
    case ByteValue(_) => 1
    case ShortValue(_) => 2
    case CharValue(_) => 2
    case LongValue(_) => 8
    case DoubleValue(_) => 8
    case _ => 4
  }

  /**
    * The first byte: the type in the low five bits; above it, for a number or an index, one less
    * than the number of bytes that follow, for a boolean the value itself, for the others zero.
    */
  lemma FirstByte(v: EncodedValue)
    requires !v.OtherValue?
    ensures var s := EncodeValue(v);
            && s != [] && s[0] % 32 == TypeNumber(v)
            && (IsScalar(v) ==> 2 <= |s| <= 1 + Width(v) && s[0] / 32 == |s| - 2)
            && (v.BooleanValue? ==> |s| == 1 && s[0] / 32 == if v.z then 1 else 0)
            && (v.NullValue? ==> |s| == 1 && s[0] / 32 == 0)
            && (v.ArrayValue? ==> s[0] / 32 == 0 && s[1..] == EncodeArray(v.values))
            && (v.AnnotationValue? ==> s[0] / 32 == 0 && s[1..] == EncodeAnnotation(v.annotation))
  {
    hide EncodeArray, EncodeAnnotation, SignedBytes, UnsignedBytes, TrimLow, ValueHeader;
    if IsScalar(v) {
      PayloadWidth(v);
      HeaderParts(TypeNumber(v), |EncodeValue(v)| - 2);
    } else {
      HeaderParts(TypeNumber(v), if v.BooleanValue? && v.z then 1 else 0);
    }
  }

  lemma PayloadWidth(v: EncodedValue)
    requires IsScalar(v)
    ensures 2 <= |EncodeValue(v)| <= 1 + Width(v)
    ensures EncodeValue(v)[0] == ValueHeader(TypeNumber(v), |EncodeValue(v)| - 2)
  {
    hide SignedBytes, UnsignedBytes, TrimLow, ValueHeader;
    match v
    case ByteValue(b) => SignedFits(b, 1);
    case ShortValue(s) => SignedFits(s, 2);
    case CharValue(c) => UnsignedFits(c, 2);
    case IntValue(i) => SignedFits(i, 4);
    case LongValue(l) => SignedFits(l, 8);
    case IndexValue(_, x) => UnsignedFits(x, 4);
    case _ =>
  }

  lemma SignedFits(x: int, n: nat)
    requires (n == 1 && -0x80 <= x < 0x80) || (n == 2 && -0x8000 <= x < 0x8000) || (n == 4 && -0x8000_0000 <= x < 0x8000_0000)
             || (n == 8 && -0x8000_0000_0000_0000 <= x < 0x8000_0000_0000_0000)
    ensures |SignedBytes(x)| <= n
  {
    Pow256Values();
    assert Pow256(0) == 1 && Pow256(7) * 256 == Pow256(8);
    hide Pow256, SignedBytes;
    SignedBytesSize(x, n);
  }

  lemma UnsignedFits(x: nat, n: nat)
    requires (n == 2 && x < 0x1_0000) || (n == 4 && x < 0x1_0000_0000)
    ensures |UnsignedBytes(x)| <= n
  {
    Pow256Values();
    hide Pow256, UnsignedBytes;
    UnsignedBytesSize(x, n);
  }

  /** Two's complement in as many bytes as there are, least significant first. */
  function SignedFrom(p: seq<Byte>): int
    requires p != []
  {
    FromLeBound(p);
    SignOf(FromLe(p), 128 * Pow256(|p| - 1))
  }

  /** The bytes behind the first: a number in two's complement, an index as it is, a float without its low zero bytes. */
  lemma Payload(v: EncodedValue)
    requires IsScalar(v)
    ensures |EncodeValue(v)| >= 2
    ensures var p := EncodeValue(v)[1..];
            match v
            case ByteValue(x) => SignedFrom(p) == x
            case ShortValue(x) => SignedFrom(p) == x
            case IntValue(x) => SignedFrom(p) == x
            case LongValue(x) => SignedFrom(p) == x
            case CharValue(x) => FromLe(p) == x
            case IndexValue(_, x) => FromLe(p) == x
            case FloatValue(x) => |p| <= 4 && ShiftBytes(FromLe(p), 4 - |p|) == x
            case DoubleValue(x) => |p| <= 8 && ShiftBytes(FromLe(p), 8 - |p|) == x
            case _ => true
  {
    hide SignedBytes, UnsignedBytes, TrimLow, ValueHeader, FromLe, Le, SignOf, Pow256;
    PayloadWidth(v);
    match v
    case ByteValue(x) => SignedPayload(TAG_BYTE, x);
    case ShortValue(x) => SignedPayload(TAG_SHORT, x);
    case IntValue(x) => SignedPayload(TAG_INT, x);
    case LongValue(x) => SignedPayload(TAG_LONG, x);
    case CharValue(x) => UnsignedPayload(TAG_CHAR, x);
    case IndexValue(k, x) => UnsignedPayload(IndexTag(k), x);
    case FloatValue(x) => FilledPayload(TAG_FLOAT, x, 4);
    case DoubleValue(x) => FilledPayload(TAG_DOUBLE, x, 8);
    case _ =>
  }

  lemma SignedPayload(tag: Byte, x: int)
    ensures Tagged(tag, SignedBytes(x))[1..] == SignedBytes(x) && SignedFrom(SignedBytes(x)) == x
  {
    hide SignedBytes, FromLe, SignOf, Pow256;
    SignedBytesValue(x);
  }

  lemma UnsignedPayload(tag: Byte, x: nat)
    ensures Tagged(tag, UnsignedBytes(x))[1..] == UnsignedBytes(x) && FromLe(UnsignedBytes(x)) == x
  {
    hide UnsignedBytes, FromLe;
    UnsignedBytesValue(x);
  }

  lemma FilledPayload(tag: Byte, x: nat, n: nat)
    requires (n == 4 && x < 0x1_0000_0000) || (n == 8 && x < 0x1_0000_0000_0000_0000)
    ensures var p := TrimLow(Le(n, x)); Tagged(tag, p)[1..] == p && |p| <= n && ShiftBytes(FromLe(p), n - |p|) == x
  {
    Pow256Values();
    hide TrimLow, Le, FromLe, ShiftBytes, Pow256;
    FilledBytesValue(x, n);
  }
}
