/** What the writer emits for an encoded value, the builder reads back; nothing shorter would do. */
module EncodedValueRoundTrip {
  import opened Bytes
  import opened Leb128
  import opened EncodedValues

  // ------------------------------------------------------------------ scalars

  /** Sign-extending the shortest form gives the value back. */
  lemma {:induction false} SignedBytesValue(v: int)
    ensures FromLe(SignedBytes(v)) < Pow256(|SignedBytes(v)|)
    ensures SignOf(FromLe(SignedBytes(v)), 128 * Pow256(|SignedBytes(v)| - 1)) == v
    decreases if v < 0 then -v else v
  {
    FromLeBound(SignedBytes(v));
    if !(-128 <= v < 128) {
      SignedBytesValue(v / 256);
      assert SignedBytes(v)[1..] == SignedBytes(v / 256);
    }
  }

  /** A value of `n` bytes takes at most `n` bytes. */
  lemma {:induction false} SignedBytesSize(v: int, n: nat)
    requires n > 0 && 0 <= v + 128 * Pow256(n - 1) && v < 128 * Pow256(n - 1)
    ensures |SignedBytes(v)| <= n
    decreases n
  {
    if !(-128 <= v < 128) {
      SignedBytesSize(v / 256, n - 1);
    }
  }

  lemma {:induction false} UnsignedBytesValue(v: nat)
    ensures FromLe(UnsignedBytes(v)) == v
  {
    if v >= 256 {
      UnsignedBytesValue(v / 256);
      assert UnsignedBytes(v)[1..] == UnsignedBytes(v / 256);
    }
  }

  lemma {:induction false} UnsignedBytesSize(v: nat, n: nat)
    requires n > 0 && v < Pow256(n)
    ensures |UnsignedBytes(v)| <= n
    decreases n
  {
    if v >= 256 {
      UnsignedBytesSize(v / 256, n - 1);
    }
  }

  /** Filling the trimmed form with zeros on the right gives the value back. */
  lemma {:induction false} TrimLowValue(s: seq<Byte>)
    requires |s| > 0
    ensures ShiftBytes(FromLe(TrimLow(s)), |s| - |TrimLow(s)|) == FromLe(s)
  {
    if |s| > 1 && s[0] == 0 {
      TrimLowValue(s[1..]);
      var t := TrimLow(s[1..]);
      assert TrimLow(s) == t;
      assert ShiftBytes(FromLe(t), |s| - |t|) == 256 * ShiftBytes(FromLe(t), |s[1..]| - |t|);
      assert FromLe(s) == 256 * FromLe(s[1..]);
    } else {
      assert TrimLow(s) == s;
    }
  }

  /** Shifting left by whole bytes puts zeros at the low end. */
  lemma {:induction false} LeShift(n: nat, x: nat, z: nat)
    ensures Le(n + z, ShiftBytes(x, z)) == Zeros(z) + Le(n, x)
  {
    if z > 0 {
      LeShift(n, x, z - 1);
      assert [0] + Zeros(z - 1) == Zeros(z);
    }
  }

  lemma {:induction false} TrimLowSize(z: nat, t: seq<Byte>)
    requires |t| > 0
    ensures |TrimLow(Zeros(z) + t)| <= |t|
  {
    if z > 0 {
      TrimLowSize(z - 1, t);
      assert (Zeros(z) + t)[1..] == Zeros(z - 1) + t;
    } else {
      assert Zeros(z) + t == t;
    }
  }

  /** The header byte splits into its type and argument again. */
  lemma HeaderParts(tag: nat, arg: nat)
    requires tag < 32 && arg < 8
    ensures ValueHeader(tag, arg) % 32 == tag && ValueHeader(tag, arg) / 32 == arg
  {
  }

  /** A payload is read back as the number it spells. */
  lemma {:induction false} ReadPayload(payload: seq<Byte>, rest: seq<Byte>)
    requires 0 < |payload|
    ensures FromLe(payload) < Pow256(|payload|)
    ensures ReadVarWidth(payload + rest, |payload| - 1) == Some(Decoded(FromLe(payload), rest))
  {
    FromLeBound(payload);
    assert (payload + rest)[..|payload|] == payload;
    assert (payload + rest)[|payload|..] == rest;
  }

  /** The reader takes a tagged payload apart again. */
  lemma {:induction false} ReadTagged(tag: Byte, payload: seq<Byte>, rest: seq<Byte>)
    requires 0 < |payload| <= 8 && HasPayload(tag) && (tag == TAG_FLOAT ==> |payload| <= 4)
    ensures FromLe(payload) < Pow256(|payload|)
    ensures ReadValue(Tagged(tag, payload) + rest)
         == Some(Decoded(ScalarOf(tag, |payload| - 1, FromLe(payload)), rest))
  {
    var s, arg := Tagged(tag, payload) + rest, |payload| - 1;
    HeaderParts(tag, arg);
    ReadPayload(payload, rest);
    assert s[0] == ValueHeader(tag, arg) && s[1..] == payload + rest;
    assert ReadValue(s) == ReadScalar(s[1..], tag, arg);
  }

  /** A signed value of at most `n` bytes, written and read back. */
  lemma {:induction false} ReadTaggedSigned(tag: Byte, x: int, n: nat, rest: seq<Byte>)
    requires 0 < n <= 8 && 0 <= x + 128 * Pow256(n - 1) && x < 128 * Pow256(n - 1)
    requires HasPayload(tag) && tag != TAG_FLOAT
    ensures |SignedBytes(x)| <= n && FromLe(SignedBytes(x)) < Pow256(|SignedBytes(x)|)
    ensures SignExtend(FromLe(SignedBytes(x)), |SignedBytes(x)| - 1) == x
    ensures ReadValue(Tagged(tag, SignedBytes(x)) + rest)
         == Some(Decoded(ScalarOf(tag, |SignedBytes(x)| - 1, FromLe(SignedBytes(x))), rest))
  {
    SignedBytesSize(x, n);
    SignedBytesValue(x);
    ReadTagged(tag, SignedBytes(x), rest);
  }

  /** The signed types and the width of their values. */
  predicate SignedType(v: EncodedValue, tag: Byte, x: int, n: nat) {
    match v
    case ByteValue(b) => tag == TAG_BYTE && x == b && n == 1
    case ShortValue(s) => tag == TAG_SHORT && x == s && n == 2
    case IntValue(i) => tag == TAG_INT && x == i && n == 4
    case LongValue(l) => tag == TAG_LONG && x == l && n == 8
    case _ => false
  }

  lemma SignedTypeRange(v: EncodedValue, tag: Byte, x: int, n: nat)
    requires SignedType(v, tag, x, n)
    ensures 0 < n <= 8 && 0 <= x + 128 * Pow256(n - 1) && x < 128 * Pow256(n - 1)
  {
    Pow256Values();
  }

  lemma CutInRange(x: int)
    ensures -0x80 <= x < 0x80 ==> ToI8(x) == x
    ensures -0x8000 <= x < 0x8000 ==> ToI16(x) == x
    ensures -0x8000_0000 <= x < 0x8000_0000 ==> ToI32(x) == x
    ensures -0x8000_0000_0000_0000 <= x < 0x8000_0000_0000_0000 ==> ToI64(x) == x
  {
  }

  lemma {:induction false} SignedTypeScalar(v: EncodedValue, tag: Byte, x: int, n: nat, length: nat, raw: nat)
    requires SignedType(v, tag, x, n)
    requires length < n && raw < Pow256(length + 1) && SignExtend(raw, length) == x
    ensures ScalarOf(tag, length, raw) == v
  {
    CutInRange(x);
    if tag == TAG_BYTE { ByteCut(raw, length); }
  }

  /** A byte is read without sign extension, but its low eight bits are the same either way. */
  lemma {:induction false} ByteCut(x: nat, length: nat)
    requires x < Pow256(length + 1)
    ensures ToI8(x) == ToI8(SignExtend(x, length))
  {
    assert Pow256(length + 1) == 256 * Pow256(length);
  }

  lemma {:induction false} SignedRoundTrip(v: EncodedValue, tag: Byte, x: int, n: nat, rest: seq<Byte>)
    requires SignedType(v, tag, x, n)
    ensures ReadValue(EncodeValue(v) + rest) == Some(Decoded(v, rest))
  {
    SignedTypeRange(v, tag, x, n);
    ReadTaggedSigned(tag, x, n, rest);
    SignedTypeScalar(v, tag, x, n, |SignedBytes(x)| - 1, FromLe(SignedBytes(x)));
    assert EncodeValue(v) == Tagged(tag, SignedBytes(x));
  }

  lemma {:induction false} ReadTaggedUnsigned(tag: Byte, x: nat, n: nat, rest: seq<Byte>)
    requires 0 < n <= 8 && x < Pow256(n)
    requires HasPayload(tag) && tag != TAG_FLOAT
    ensures |UnsignedBytes(x)| <= n && x < Pow256(|UnsignedBytes(x)|)
    ensures ReadValue(Tagged(tag, UnsignedBytes(x)) + rest)
         == Some(Decoded(ScalarOf(tag, |UnsignedBytes(x)| - 1, x), rest))
  {
    UnsignedBytesSize(x, n);
    UnsignedBytesValue(x);
    ReadTagged(tag, UnsignedBytes(x), rest);
  }

  lemma {:induction false} CharRoundTrip(x: UInt16, rest: seq<Byte>)
    ensures ReadValue(EncodeValue(CharValue(x)) + rest) == Some(Decoded(CharValue(x), rest))
  {
    ReadTaggedUnsigned(TAG_CHAR, x, 2, rest);
  }

  lemma IndexScalar(kind: IndexKind, x: UInt32, length: nat)
    requires length < 8 && x < Pow256(length + 1)
    ensures HasPayload(IndexTag(kind)) && IndexTag(kind) != TAG_FLOAT
    ensures ScalarOf(IndexTag(kind), length, x) == IndexValue(kind, x)
  {
  }

  lemma {:induction false} IndexRoundTrip(v: EncodedValue, kind: IndexKind, x: UInt32, n: nat, rest: seq<Byte>)
    requires v == IndexValue(kind, x) && n == 4
    ensures ReadValue(EncodeValue(v) + rest) == Some(Decoded(v, rest))
  {
    Pow256Values();
    assert HasPayload(IndexTag(kind));
    ReadTaggedUnsigned(IndexTag(kind), x, n, rest);
    IndexScalar(kind, x, |UnsignedBytes(x)| - 1);
    assert EncodeValue(v) == Tagged(IndexTag(kind), UnsignedBytes(x));
  }

  /** The right-filled types and the width of their bit patterns. */
  predicate FilledType(v: EncodedValue, tag: Byte, x: nat, n: nat) {
    match v
    case FloatValue(bits) => tag == TAG_FLOAT && x == bits && n == 4
    case DoubleValue(bits) => tag == TAG_DOUBLE && x == bits && n == 8
    case _ => false
  }

  lemma FilledTypeRange(v: EncodedValue, tag: Byte, x: nat, n: nat)
    requires FilledType(v, tag, x, n)
    ensures x < Pow256(n)
  {
    Pow256Values();
  }

  lemma {:induction false} FilledTypeScalar(v: EncodedValue, tag: Byte, x: nat, n: nat, length: nat, raw: nat)
    requires FilledType(v, tag, x, n)
    requires length < n && raw < Pow256(length + 1) && ShiftBytes(raw, n - 1 - length) == x
    ensures ScalarOf(tag, length, raw) == v
  {
  }

  lemma {:induction false} FilledBytesValue(x: nat, n: nat)
    requires n > 0 && x < Pow256(n)
    ensures FromLe(TrimLow(Le(n, x))) < Pow256(|TrimLow(Le(n, x))|)
    ensures ShiftBytes(FromLe(TrimLow(Le(n, x))), n - |TrimLow(Le(n, x))|) == x
  {
    LeRoundTrip(n, x);
    TrimLowValue(Le(n, x));
    FromLeBound(TrimLow(Le(n, x)));
  }

  lemma {:induction false} FilledRoundTrip(v: EncodedValue, tag: Byte, x: nat, n: nat, rest: seq<Byte>)
    requires FilledType(v, tag, x, n)
    ensures ReadValue(EncodeValue(v) + rest) == Some(Decoded(v, rest))
  {
    FilledTypeRange(v, tag, x, n);
    FilledBytesValue(x, n);
    var t := TrimLow(Le(n, x));
    assert EncodeValue(v) == Tagged(tag, t);
    FilledTypeScalar(v, tag, x, n, |t| - 1, FromLe(t));
    ReadTagged(tag, t, rest);
  }

  // ------------------------------------------------------------------ nested values

  /** Every type in the value is a known one and every count in it fits the 32 bits it is written with. */
  predicate Representable(v: EncodedValue)
    decreases v, 1
  {
    match v
    case ArrayValue(values) => |values| < 0x1_0000_0000 && AllRepresentable(values)
    case AnnotationValue(a) => RepresentableAnnotation(a)
    case OtherValue(_) => false
    case _ => true
  }

  predicate AllRepresentable(values: seq<EncodedValue>)
    decreases values, 0
  {
    values == [] || (Representable(values[0]) && AllRepresentable(values[1..]))
  }

  predicate RepresentableAnnotation(a: EncodedAnnotation)
    decreases a, 2
  {
    |a.elements| < 0x1_0000_0000 && ElementsRepresentable(a.elements)
  }

  predicate ElementsRepresentable(es: seq<AnnotationElement>)
    decreases es, 0
  {
    es == [] || (ElementRepresentable(es[0]) && ElementsRepresentable(es[1..]))
  }

  predicate ElementRepresentable(e: AnnotationElement)
    decreases e, 2
  {
    Representable(e.value)
  }

  lemma {:induction false} ReadHeadedArray(t: seq<Byte>)
    requires ReadArray(t).Some?
    ensures ReadValue([ValueHeader(TAG_ARRAY, 0)] + t)
         == Some(Decoded(ArrayValue(ReadArray(t).value.value), ReadArray(t).value.rest))
  {
    HeaderParts(TAG_ARRAY, 0);
    assert ([ValueHeader(TAG_ARRAY, 0)] + t)[1..] == t;
  }

  lemma {:induction false} ReadHeadedAnnotation(t: seq<Byte>)
    requires ReadAnnotation(t).Some?
    ensures ReadValue([ValueHeader(TAG_ANNOTATION, 0)] + t)
         == Some(Decoded(AnnotationValue(ReadAnnotation(t).value.value), ReadAnnotation(t).value.rest))
  {
    HeaderParts(TAG_ANNOTATION, 0);
    assert ([ValueHeader(TAG_ANNOTATION, 0)] + t)[1..] == t;
  }

  lemma {:induction false} ReadHeaderOnly(v: EncodedValue, rest: seq<Byte>)
    requires v.NullValue? || v.BooleanValue?
    ensures ReadValue(EncodeValue(v) + rest) == Some(Decoded(v, rest))
  {
    var tag, arg := if v.NullValue? then TAG_NULL else TAG_BOOLEAN, if v == BooleanValue(true) then 1 else 0;
    HeaderParts(tag, arg);
    var s := EncodeValue(v) + rest;
    assert s[0] == ValueHeader(tag, arg) && s[1..] == rest;
    assert ReadValue(s) == ReadScalar(rest, tag, arg);
  }

  lemma {:induction false} ScalarRoundTrip(v: EncodedValue, rest: seq<Byte>)
    requires !v.ArrayValue? && !v.AnnotationValue? && !v.OtherValue?
    ensures ReadValue(EncodeValue(v) + rest) == Some(Decoded(v, rest))
  {
    match v
    case ByteValue(b) => SignedRoundTrip(v, TAG_BYTE, b, 1, rest);
    case ShortValue(s) => SignedRoundTrip(v, TAG_SHORT, s, 2, rest);
    case IntValue(i) => SignedRoundTrip(v, TAG_INT, i, 4, rest);
    case LongValue(l) => SignedRoundTrip(v, TAG_LONG, l, 8, rest);
    case CharValue(c) => CharRoundTrip(c, rest);
    case FloatValue(bits) => FilledRoundTrip(v, TAG_FLOAT, bits, 4, rest);
    case DoubleValue(bits) => FilledRoundTrip(v, TAG_DOUBLE, bits, 8, rest);
    case IndexValue(kind, index) => IndexRoundTrip(v, kind, index, 4, rest);
    case NullValue => ReadHeaderOnly(v, rest);
    case BooleanValue(z) => ReadHeaderOnly(v, rest);
  }

  /** Reading back a written value, whatever follows it, gives the value and exactly what follows. */
  lemma {:induction false} ValueRoundTrip(v: EncodedValue, rest: seq<Byte>)
    requires Representable(v)
    ensures ReadValue(EncodeValue(v) + rest) == Some(Decoded(v, rest))
    decreases v, 1
  {
    match v
    case ArrayValue(values) =>
      ArrayRoundTrip(values, rest);
      assert EncodeValue(v) + rest == [ValueHeader(TAG_ARRAY, 0)] + (EncodeArray(values) + rest);
      ReadHeadedArray(EncodeArray(values) + rest);
    case AnnotationValue(a) =>
      AnnotationRoundTrip(a, rest);
      assert EncodeValue(v) + rest == [ValueHeader(TAG_ANNOTATION, 0)] + (EncodeAnnotation(a) + rest);
      ReadHeadedAnnotation(EncodeAnnotation(a) + rest);
    case _ => ScalarRoundTrip(v, rest);
  }

  lemma {:induction false} ArrayRoundTrip(values: seq<EncodedValue>, rest: seq<Byte>)
    requires |values| < 0x1_0000_0000 && AllRepresentable(values)
    ensures ReadArray(EncodeArray(values) + rest) == Some(Decoded(values, rest))
    decreases values, 2
  {
    var tail := EncodeValues(values) + rest;
    assert EncodeArray(values) + rest == Uleb(|values|) + tail;
    UlebRoundTrip(|values|, tail);
    ValuesRoundTrip(values, rest);
  }

  lemma {:induction false} ValuesRoundTrip(values: seq<EncodedValue>, rest: seq<Byte>)
    requires AllRepresentable(values)
    ensures ReadValues(EncodeValues(values) + rest, |values|) == Some(Decoded(values, rest))
    decreases values, 0
  {
    if values == [] {
      assert EncodeValues(values) + rest == rest;
    } else {
      var tail := EncodeValues(values[1..]) + rest;
      assert EncodeValues(values) + rest == EncodeValue(values[0]) + tail;
      ValueRoundTrip(values[0], tail);
      ValuesRoundTrip(values[1..], rest);
      assert values == [values[0]] + values[1..];
    }
  }

  lemma {:induction false} AnnotationRoundTrip(a: EncodedAnnotation, rest: seq<Byte>)
    requires RepresentableAnnotation(a)
    ensures ReadAnnotation(EncodeAnnotation(a) + rest) == Some(Decoded(a, rest))
    decreases a, 2
  {
    var tail := EncodeElements(a.elements) + rest;
    var sized := Uleb(|a.elements|) + tail;
    assert EncodeAnnotation(a) + rest == Uleb(a.typeIdx) + sized;
    UlebRoundTrip(a.typeIdx, sized);
    UlebRoundTrip(|a.elements|, tail);
    ElementsRoundTrip(a.elements, rest);
  }

  lemma {:induction false} ElementsRoundTrip(es: seq<AnnotationElement>, rest: seq<Byte>)
    requires ElementsRepresentable(es)
    ensures ReadElements(EncodeElements(es) + rest, |es|) == Some(Decoded(es, rest))
    decreases es, 0
  {
    if es == [] {
      assert EncodeElements(es) + rest == rest;
    } else {
      var tail := EncodeElements(es[1..]) + rest;
      assert EncodeElements(es) + rest == EncodeElement(es[0]) + tail;
      ElementRoundTrip(es[0], tail);
      ElementsRoundTrip(es[1..], rest);
      assert es == [es[0]] + es[1..];
    }
  }

  lemma {:induction false} ElementRoundTrip(e: AnnotationElement, rest: seq<Byte>)
    requires ElementRepresentable(e)
    ensures ReadElement(EncodeElement(e) + rest) == Some(Decoded(e, rest))
    decreases e, 2
  {
    var named := EncodeValue(e.value) + rest;
    assert EncodeElement(e) + rest == Uleb(e.name) + named;
    UlebRoundTrip(e.name, named);
    ValueRoundTrip(e.value, rest);
  }
}
