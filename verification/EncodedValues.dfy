/**
  * Encoded values, arrays and annotations: the writer's encoding and the builder's reader
  * ("encoded_value encoding" of the Dalvik Executable format).
  */
module EncodedValues {
  import opened Bytes
  import opened Leb128

  /** The value types whose payload is an index into an id table. */
  datatype IndexKind = MethodType | MethodHandle | StringIdx | TypeIdx | FieldIdx | MethodIdx | EnumIdx

  datatype EncodedValue =
    | ByteValue(b: Int8)
    | ShortValue(s: Int16)
    | CharValue(c: UInt16)
    | IntValue(i: Int32)
    | LongValue(l: Int64)
    | FloatValue(floatBits: UInt32)
    | DoubleValue(doubleBits: UInt64)
    | IndexValue(kind: IndexKind, index: UInt32)
    | ArrayValue(values: seq<EncodedValue>)
    | AnnotationValue(annotation: EncodedAnnotation)
    | NullValue
    | BooleanValue(z: bool)
    | OtherValue(tag: OtherTag)

  datatype AnnotationElement = AnnotationElement(name: UInt32, value: EncodedValue)

  datatype EncodedAnnotation = EncodedAnnotation(typeIdx: UInt32, elements: seq<AnnotationElement>)

  const TAG_BYTE: Byte := 0x00
  const TAG_SHORT: Byte := 0x02
  const TAG_CHAR: Byte := 0x03
  const TAG_INT: Byte := 0x04
  const TAG_LONG: Byte := 0x06
  const TAG_FLOAT: Byte := 0x10
  const TAG_DOUBLE: Byte := 0x11
  const TAG_ARRAY: Byte := 0x1c
  const TAG_ANNOTATION: Byte := 0x1d
  const TAG_NULL: Byte := 0x1e
  const TAG_BOOLEAN: Byte := 0x1f

  function IndexTag(k: IndexKind): Byte {
    match k
    case MethodType => 0x15
    case MethodHandle => 0x16
    case StringIdx => 0x17
    case TypeIdx => 0x18
    case FieldIdx => 0x19
    case MethodIdx => 0x1a
    case EnumIdx => 0x1b
  }

  function KindOfTag(t: Byte): IndexKind
    requires 0x15 <= t <= 0x1b
  {
    match t
    case 0x15 => MethodType
    case 0x16 => MethodHandle
    case 0x17 => StringIdx
    case 0x18 => TypeIdx
    case 0x19 => FieldIdx
    case 0x1a => MethodIdx
    case 0x1b => EnumIdx
  }

  /** The five-bit types that neither the writer nor the reader knows. */
  predicate IsOtherTag(t: int) {
    t == 0x01 || t == 0x05 || 0x07 <= t <= 0x0f || 0x12 <= t <= 0x14
  }

  type OtherTag = t: int | IsOtherTag(t) witness 0x01

  // ------------------------------------------------------------------ writing

  /** The shortest two's-complement form of `v`, least significant byte first. */
  function SignedBytes(v: int): (s: seq<Byte>)
    ensures |s| > 0
    decreases if v < 0 then -v else v
  {
    if -128 <= v < 128 then [v % 256] else [v % 256] + SignedBytes(v / 256)
  }

  /** The shortest zero-extended form of `v`. */
  function UnsignedBytes(v: nat): (s: seq<Byte>)
    ensures |s| > 0
  {
    if v < 256 then [v] else [v % 256] + UnsignedBytes(v / 256)
  }

  /** Drops low zero bytes, keeping at least one byte: what is left is filled with zeros on the right. */
  function TrimLow(s: seq<Byte>): (t: seq<Byte>)
    requires |s| > 0
    ensures 0 < |t| <= |s|
  {
    if |s| > 1 && s[0] == 0 then TrimLow(s[1..]) else s
  }

  /** The header byte: the type in the low five bits, the argument above it, cut to a byte. */
  function ValueHeader(tag: nat, arg: nat): Byte {
    (arg * 32 + tag) % 256
  }

  /** A header whose argument is the payload length less one, and the payload. */
  function Tagged(tag: nat, payload: seq<Byte>): seq<Byte>
    requires |payload| > 0
  {
    [ValueHeader(tag, |payload| - 1)] + payload
  }

  function EncodeValue(v: EncodedValue): seq<Byte>
    decreases v, 1
  {
    match v
    case ByteValue(b) => Tagged(TAG_BYTE, SignedBytes(b))
    case ShortValue(s) => Tagged(TAG_SHORT, SignedBytes(s))
    case CharValue(c) => Tagged(TAG_CHAR, UnsignedBytes(c))
    case IntValue(i) => Tagged(TAG_INT, SignedBytes(i))
    case LongValue(l) => Tagged(TAG_LONG, SignedBytes(l))
    case FloatValue(bits) => Tagged(TAG_FLOAT, TrimLow(Le(4, bits)))
    case DoubleValue(bits) => Tagged(TAG_DOUBLE, TrimLow(Le(8, bits)))
    case IndexValue(kind, index) => Tagged(IndexTag(kind), UnsignedBytes(index))
    case ArrayValue(values) => [ValueHeader(TAG_ARRAY, 0)] + EncodeArray(values)
    case AnnotationValue(a) => [ValueHeader(TAG_ANNOTATION, 0)] + EncodeAnnotation(a)
    case NullValue => [ValueHeader(TAG_NULL, 0)]
    case BooleanValue(z) => [ValueHeader(TAG_BOOLEAN, if z then 1 else 0)]
    case OtherValue(_) => []
  }

  function EncodeArray(values: seq<EncodedValue>): seq<Byte>
    decreases values, 2
  {
    Uleb(ToU32(|values|)) + EncodeValues(values)
  }

  function EncodeValues(values: seq<EncodedValue>): seq<Byte>
    decreases values, 0
  {
    if values == [] then [] else EncodeValue(values[0]) + EncodeValues(values[1..])
  }

  function EncodeAnnotation(a: EncodedAnnotation): seq<Byte>
    decreases a, 2
  {
    Uleb(a.typeIdx) + Uleb(ToU32(|a.elements|)) + EncodeElements(a.elements)
  }

  function EncodeElements(es: seq<AnnotationElement>): seq<Byte>
    decreases es, 0
  {
    if es == [] then [] else EncodeElement(es[0]) + EncodeElements(es[1..])
  }

  function EncodeElement(e: AnnotationElement): seq<Byte>
    decreases e, 2
  {
    Uleb(e.name) + EncodeValue(e.value)
  }

  // ------------------------------------------------------------------ reading

  /** `ReadVarWidth` without sign extension: `length + 1` bytes, least significant first. */
  function ReadVarWidth(s: seq<Byte>, length: nat): (r: Option<Decoded<nat>>)
    ensures r.Some? ==> |r.value.rest| == |s| - length - 1
    ensures r.Some? ==> r.value.value < Pow256(length + 1)
  {
    if |s| <= length then None
    else
      FromLeBound(s[..length + 1]);
      Some(Decoded(FromLe(s[..length + 1]), s[length + 1..]))
  }

  /** The sign extension at the end of `ReadVarWidth`. */
  function SignExtend(x: nat, length: nat): int
    requires x < Pow256(length + 1)
  {
    SignOf(x, 128 * Pow256(length))
  }

  function ToI8(x: int): Int8 { SignOf(x % 0x100, 0x80) }
  function ToI16(x: int): Int16 { SignOf(x % 0x1_0000, 0x8000) }
  function ToI32(x: int): Int32 { SignOf(x % 0x1_0000_0000, 0x8000_0000) }
  function ToI64(x: int): Int64 { SignOf(x % 0x1_0000_0000_0000_0000, 0x8000_0000_0000_0000) }

  /** The types that are followed by a variable-width payload. */
  predicate HasPayload(tag: int) {
    || tag == TAG_BYTE || tag == TAG_SHORT || tag == TAG_CHAR || tag == TAG_INT || tag == TAG_LONG
    || tag == TAG_FLOAT || tag == TAG_DOUBLE || 0x15 <= tag <= 0x1b
  }

  /** The value that a payload of `length + 1` bytes stands for. */
  function ScalarOf(tag: Byte, length: nat, x: nat): EncodedValue
    requires HasPayload(tag) && length < 8 && (tag == TAG_FLOAT ==> length < 4)
    requires x < Pow256(length + 1)
  {
    if tag == TAG_BYTE then ByteValue(ToI8(x))
    else if tag == TAG_SHORT then ShortValue(ToI16(SignExtend(x, length)))
    else if tag == TAG_CHAR then CharValue(ToU16(x))
    else if tag == TAG_INT then IntValue(ToI32(SignExtend(x, length)))
    else if tag == TAG_LONG then LongValue(ToI64(SignExtend(x, length)))
    else if tag == TAG_FLOAT then FloatValue(ToU32(ShiftBytes(x, 3 - length)))
    else if tag == TAG_DOUBLE then
      DoubleValue(ShiftBytes(x, 7 - length) % 0x1_0000_0000_0000_0000)
    else IndexValue(KindOfTag(tag), ToU32(x))
  }

  /** The scalar cases; a float longer than four bytes would be shifted by a negative amount. */
  function ReadScalar(s: seq<Byte>, tag: Byte, arg: nat): (r: Option<Decoded<EncodedValue>>)
    requires tag < 32 && tag != TAG_ARRAY && tag != TAG_ANNOTATION && arg < 8
    ensures r.Some? ==> |r.value.rest| <= |s|
  {
    if HasPayload(tag) then
      match ReadVarWidth(s, arg)
      case None => None
      case Some(d) =>
        if tag == TAG_FLOAT && arg > 3 then None else Some(Decoded(ScalarOf(tag, arg, d.value), d.rest))
    else if tag == TAG_NULL then Some(Decoded(NullValue, s))
    else if tag == TAG_BOOLEAN then Some(Decoded(BooleanValue(arg != 0), s))
    else Some(Decoded(OtherValue(tag), s))
  }

  /** `ReadEncodedValue`; `None` is a read past the end of the data. */
  function ReadValue(s: seq<Byte>): (r: Option<Decoded<EncodedValue>>)
    ensures r.Some? ==> |r.value.rest| < |s|
    decreases |s|, 0, 3
  {
    if s == [] then None
    else
      var tag, arg := s[0] % 32, s[0] / 32;
      if tag == TAG_ARRAY then
        match ReadArray(s[1..])
        case None => None
        case Some(d) => Some(Decoded(ArrayValue(d.value), d.rest))
      else if tag == TAG_ANNOTATION then
        match ReadAnnotation(s[1..])
        case None => None
        case Some(d) => Some(Decoded(AnnotationValue(d.value), d.rest))
      else ReadScalar(s[1..], tag, arg)
  }

  function ReadArray(s: seq<Byte>): (r: Option<Decoded<seq<EncodedValue>>>)
    ensures r.Some? ==> |r.value.rest| < |s|
    decreases |s|, 0, 2
  {
    match ReadUleb(s)
    case None => None
    case Some(size) => ReadValues(size.rest, size.value)
  }

  function ReadValues(s: seq<Byte>, n: nat): (r: Option<Decoded<seq<EncodedValue>>>)
    ensures r.Some? ==> |r.value.value| == n
    ensures r.Some? ==> |r.value.rest| <= |s|
    decreases |s|, n, 4
  {
    if n == 0 then Some(Decoded([], s))
    else
      match ReadValue(s)
      case None => None
      case Some(v) =>
        match ReadValues(v.rest, n - 1)
        case None => None
        case Some(vs) => Some(Decoded([v.value] + vs.value, vs.rest))
  }

  function ReadAnnotation(s: seq<Byte>): (r: Option<Decoded<EncodedAnnotation>>)
    ensures r.Some? ==> |r.value.rest| < |s|
    decreases |s|, 0, 2
  {
    match ReadUleb(s)
    case None => None
    case Some(ty) =>
      match ReadUleb(ty.rest)
      case None => None
      case Some(size) =>
        match ReadElements(size.rest, size.value)
        case None => None
        case Some(es) => Some(Decoded(EncodedAnnotation(ty.value, es.value), es.rest))
  }

  function ReadElement(s: seq<Byte>): (r: Option<Decoded<AnnotationElement>>)
    ensures r.Some? ==> |r.value.rest| < |s|
    decreases |s|, 0, 2
  {
    match ReadUleb(s)
    case None => None
    case Some(name) =>
      match ReadValue(name.rest)
      case None => None
      case Some(v) => Some(Decoded(AnnotationElement(name.value, v.value), v.rest))
  }

  function ReadElements(s: seq<Byte>, n: nat): (r: Option<Decoded<seq<AnnotationElement>>>)
    ensures r.Some? ==> |r.value.value| == n
    ensures r.Some? ==> |r.value.rest| <= |s|
    decreases |s|, n, 4
  {
    if n == 0 then Some(Decoded([], s))
    else
      match ReadElement(s)
      case None => None
      case Some(e) =>
        match ReadElements(e.rest, n - 1)
        case None => None
        case Some(es) => Some(Decoded([e.value] + es.value, es.rest))
  }
}
