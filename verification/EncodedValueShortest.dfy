/**
  * The writer's encoding is the shortest the reader accepts, and it is faithful exactly for the
  * values whose types are all known and whose counts fit 32 bits.
  */
module EncodedValueShortest {
  import opened Bytes
  import opened Leb128
  import opened EncodedValues
  import opened EncodedValueRoundTrip

  /** The number of values of unknown type inside `v`: the reader consumes a byte for each, the writer emits none. */
  function Others(v: EncodedValue): nat
    decreases v, 1
  {
    match v
    case ArrayValue(values) => OthersIn(values)
    case AnnotationValue(a) => OthersInElements(a.elements)
    case OtherValue(_) => 1
    case _ => 0
  }

  function OthersIn(values: seq<EncodedValue>): nat
    decreases values, 0
  {
    if values == [] then 0 else Others(values[0]) + OthersIn(values[1..])
  }

  function OthersInElements(es: seq<AnnotationElement>): nat
    decreases es, 0
  {
    if es == [] then 0 else OthersInElement(es[0]) + OthersInElements(es[1..])
  }

  function OthersInElement(e: AnnotationElement): nat
    decreases e, 2
  {
    Others(e.value)
  }

  /** The counts inside `v` all fit 32 bits. */
  predicate CountsFit(v: EncodedValue)
    decreases v, 1
  {
    match v
    case ArrayValue(values) => |values| < 0x1_0000_0000 && AllCountsFit(values)
    case AnnotationValue(a) => |a.elements| < 0x1_0000_0000 && ElementCountsFit(a.elements)
    case _ => true
  }

  predicate AllCountsFit(values: seq<EncodedValue>)
    decreases values, 0
  {
    values == [] || (CountsFit(values[0]) && AllCountsFit(values[1..]))
  }

  predicate ElementCountsFit(es: seq<AnnotationElement>)
    decreases es, 0
  {
    es == [] || (ElementFits(es[0]) && ElementCountsFit(es[1..]))
  }

  predicate ElementFits(e: AnnotationElement)
    decreases e, 2
  {
    CountsFit(e.value)
  }

  // ------------------------------------------------------------------ scalars

  lemma {:induction false} Pow256Monotone(m: nat, n: nat)
    requires m <= n
    ensures Pow256(m) <= Pow256(n)
    decreases n
  {
    if m < n { Pow256Monotone(m, n - 1); }
  }

  lemma {:induction false} SignedFits(y: int, length: nat, n: nat)
    requires length < n && 0 <= y + 128 * Pow256(length) && y < 128 * Pow256(length)
    ensures 0 <= y + 128 * Pow256(n - 1) && y < 128 * Pow256(n - 1)
  {
    Pow256Monotone(length, n - 1);
  }

  /** Cutting a sign-extended value to `n` bytes never makes its shortest form longer. */
  lemma {:induction false} CutSize(y: int, z: int, length: nat, n: nat)
    requires n > 0 && 0 <= y + 128 * Pow256(length) && y < 128 * Pow256(length)
    requires 0 <= z + 128 * Pow256(n - 1) && z < 128 * Pow256(n - 1)
    requires 0 <= y + 128 * Pow256(n - 1) && y < 128 * Pow256(n - 1) ==> z == y
    ensures |SignedBytes(z)| <= length + 1
  {
    if length < n {
      SignedFits(y, length, n);
      SignedBytesSize(y, length + 1);
    } else {
      SignedBytesSize(z, n);
    }
  }

  /** The four signed types: what is read from `y` and how wide it is. */
  predicate CutTo(tag: Byte, y: int, z: int, n: nat) {
    || (tag == TAG_BYTE && z == ToI8(y) && n == 1)
    || (tag == TAG_SHORT && z == ToI16(y) && n == 2)
    || (tag == TAG_INT && z == ToI32(y) && n == 4)
    || (tag == TAG_LONG && z == ToI64(y) && n == 8)
  }

  lemma CutToRange(tag: Byte, y: int, z: int, n: nat)
    requires CutTo(tag, y, z, n)
    ensures 0 <= z + 128 * Pow256(n - 1) && z < 128 * Pow256(n - 1)
    ensures 0 <= y + 128 * Pow256(n - 1) && y < 128 * Pow256(n - 1) ==> z == y
  {
    Pow256Values();
  }

  lemma {:induction false} SignedScalarShortest(tag: Byte, length: nat, x: nat, z: int, n: nat)
    requires length < 8 && x < Pow256(length + 1) && CutTo(tag, SignExtend(x, length), z, n)
    ensures |SignedBytes(z)| <= length + 1
  {
    CutToRange(tag, SignExtend(x, length), z, n);
    CutSize(SignExtend(x, length), z, length, n);
  }

  lemma {:induction false} UnsignedScalarShortest(tag: Byte, length: nat, x: nat)
    requires tag == TAG_CHAR || 0x15 <= tag <= 0x1b
    requires length < 8 && x < Pow256(length + 1)
    ensures |EncodeValue(ScalarOf(tag, length, x))| <= length + 2
  {
    Pow256Values();
    var n := if tag == TAG_CHAR then 2 else 4;
    var y := if tag == TAG_CHAR then ToU16(x) else ToU32(x);
    assert EncodeValue(ScalarOf(tag, length, x))[1..] == UnsignedBytes(y);
    if length < n {
      Pow256Monotone(length + 1, n);
      UnsignedBytesSize(x, length + 1);
    } else {
      UnsignedBytesSize(y, n);
    }
  }

  lemma {:induction false} ShiftBound(x: nat, m: nat, z: nat)
    requires x < Pow256(m)
    ensures ShiftBytes(x, z) < Pow256(m + z)
  {
    if z > 0 { ShiftBound(x, m, z - 1); }
  }

  lemma {:induction false} FilledShortest(n: nat, length: nat, x: nat)
    requires length < n && x < Pow256(length + 1)
    ensures |TrimLow(Le(n, ShiftBytes(x, n - 1 - length)))| <= length + 1
  {
    LeShift(length + 1, x, n - 1 - length);
    TrimLowSize(n - 1 - length, Le(length + 1, x));
  }

  predicate FilledAs(tag: Byte, y: nat, n: nat, v: EncodedValue) {
    || (tag == TAG_FLOAT && n == 4 && v == FloatValue(ToU32(y)))
    || (tag == TAG_DOUBLE && n == 8 && v == DoubleValue(y % 0x1_0000_0000_0000_0000))
  }

  lemma {:induction false} FilledAsType(tag: Byte, y: nat, n: nat, v: EncodedValue)
    requires FilledAs(tag, y, n, v) && y < Pow256(n)
    ensures FilledType(v, tag, y, n)
  {
    Pow256Values();
  }

  lemma {:induction false} EncodeFilled(v: EncodedValue, tag: Byte, y: nat, n: nat)
    requires FilledType(v, tag, y, n)
    ensures EncodeValue(v) == Tagged(tag, TrimLow(Le(n, y)))
  {
  }

  lemma {:induction false} FilledScalarShortest(tag: Byte, n: nat, length: nat, x: nat, v: EncodedValue)
    requires length < n && x < Pow256(length + 1) && FilledAs(tag, ShiftBytes(x, n - 1 - length), n, v)
    ensures |EncodeValue(v)| <= length + 2
  {
    var y := ShiftBytes(x, n - 1 - length);
    ShiftBound(x, length + 1, n - 1 - length);
    FilledShortest(n, length, x);
    FilledAsType(tag, y, n, v);
    EncodeFilled(v, tag, y, n);
  }

  /** What a payload of `length + 1` bytes is read as is never written with more bytes. */
  lemma {:induction false} ScalarShortest(tag: Byte, length: nat, x: nat)
    requires HasPayload(tag) && length < 8 && (tag == TAG_FLOAT ==> length < 4)
    requires x < Pow256(length + 1)
    ensures |EncodeValue(ScalarOf(tag, length, x))| <= length + 2
  {
    var v := ScalarOf(tag, length, x);
    var y := SignExtend(x, length);
    if tag == TAG_BYTE {
      SignedScalarShortest(tag, length, x, ToI8(y), 1);
      ByteCut(x, length);
    } else if tag == TAG_SHORT {
      SignedScalarShortest(tag, length, x, ToI16(y), 2);
    } else if tag == TAG_INT {
      SignedScalarShortest(tag, length, x, ToI32(y), 4);
    } else if tag == TAG_LONG {
      SignedScalarShortest(tag, length, x, ToI64(y), 8);
    } else if tag == TAG_FLOAT {
      FilledScalarShortest(tag, 4, length, x, v);
    } else if tag == TAG_DOUBLE {
      FilledScalarShortest(tag, 8, length, x, v);
    } else {
      UnsignedScalarShortest(tag, length, x);
    }
  }

  // ------------------------------------------------------------------ nested values

  lemma {:induction false} ReadScalarShortest(s: seq<Byte>, tag: Byte, arg: nat)
    requires tag < 32 && tag != TAG_ARRAY && tag != TAG_ANNOTATION && arg < 8
    requires ReadScalar(s, tag, arg).Some?
    ensures var d := ReadScalar(s, tag, arg).value;
            && |EncodeValue(d.value)| + Others(d.value) <= 1 + |s| - |d.rest|
            && CountsFit(d.value)
  {
    if HasPayload(tag) {
      ScalarShortest(tag, arg, ReadVarWidth(s, arg).value.value);
    }
  }

  /** What the reader consumes for a value is no shorter than what the writer emits for it. */
  lemma {:induction false} ReadShortest(s: seq<Byte>)
    requires ReadValue(s).Some?
    ensures var d := ReadValue(s).value;
            && |EncodeValue(d.value)| + Others(d.value) <= |s| - |d.rest|
            && CountsFit(d.value)
    decreases |s|, 0, 3
  {
    var tag, arg := s[0] % 32, s[0] / 32;
    if tag == TAG_ARRAY {
      ReadArrayShortest(s[1..]);
    } else if tag == TAG_ANNOTATION {
      ReadAnnotationShortest(s[1..]);
    } else {
      ReadScalarShortest(s[1..], tag, arg);
    }
  }

  lemma EncodedCount(n: UInt32)
    ensures ToU32(n) == n
  {
  }

  lemma {:induction false} ReadArrayShortest(s: seq<Byte>)
    requires ReadArray(s).Some?
    ensures var d := ReadArray(s).value;
            && |EncodeArray(d.value)| + OthersIn(d.value) <= |s| - |d.rest|
            && |d.value| < 0x1_0000_0000 && AllCountsFit(d.value)
    decreases |s|, 0, 2
  {
    UlebShortest(s);
    var size := ReadUleb(s).value;
    ReadValuesShortest(size.rest, size.value);
    var values := ReadValues(size.rest, size.value).value.value;
    assert ReadArray(s) == ReadValues(size.rest, size.value);
    EncodedCount(size.value);
    assert |EncodeArray(values)| == |Uleb(size.value)| + |EncodeValues(values)|;
  }

  lemma {:induction false} ReadValuesShortest(s: seq<Byte>, n: nat)
    requires ReadValues(s, n).Some?
    ensures var d := ReadValues(s, n).value;
            && |EncodeValues(d.value)| + OthersIn(d.value) <= |s| - |d.rest|
            && AllCountsFit(d.value)
    decreases |s|, n, 4
  {
    if n > 0 {
      var v := ReadValue(s).value;
      var vs := ReadValues(v.rest, n - 1).value;
      ReadShortest(s);
      ReadValuesShortest(v.rest, n - 1);
      assert ([v.value] + vs.value)[1..] == vs.value;
    }
  }

  lemma {:induction false} ReadAnnotationShortest(s: seq<Byte>)
    requires ReadAnnotation(s).Some?
    ensures var d := ReadAnnotation(s).value;
            && |EncodeAnnotation(d.value)| + OthersInElements(d.value.elements) <= |s| - |d.rest|
            && |d.value.elements| < 0x1_0000_0000 && ElementCountsFit(d.value.elements)
    decreases |s|, 0, 2
  {
    UlebShortest(s);
    var ty := ReadUleb(s).value;
    UlebShortest(ty.rest);
    var size := ReadUleb(ty.rest).value;
    ReadElementsShortest(size.rest, size.value);
    var es := ReadElements(size.rest, size.value).value;
    assert ReadAnnotation(s) == Some(Decoded(EncodedAnnotation(ty.value, es.value), es.rest));
    EncodedCount(size.value);
    assert |EncodeAnnotation(EncodedAnnotation(ty.value, es.value))|
        == |Uleb(ty.value)| + |Uleb(size.value)| + |EncodeElements(es.value)|;
  }

  lemma {:induction false} ReadElementShortest(s: seq<Byte>)
    requires ReadElement(s).Some?
    ensures var d := ReadElement(s).value;
            && |EncodeElement(d.value)| + OthersInElement(d.value) <= |s| - |d.rest|
            && ElementFits(d.value)
    decreases |s|, 0, 2
  {
    UlebShortest(s);
    ReadShortest(ReadUleb(s).value.rest);
  }

  lemma {:induction false} ReadElementsShortest(s: seq<Byte>, n: nat)
    requires ReadElements(s, n).Some?
    ensures var d := ReadElements(s, n).value;
            && |EncodeElements(d.value)| + OthersInElements(d.value) <= |s| - |d.rest|
            && ElementCountsFit(d.value)
    decreases |s|, n, 4
  {
    if n > 0 {
      var e := ReadElement(s).value;
      var es := ReadElements(e.rest, n - 1).value;
      ReadElementShortest(s);
      ReadElementsShortest(e.rest, n - 1);
      assert ([e.value] + es.value)[1..] == es.value;
    }
  }

  // ------------------------------------------------------------------ exactly the representable values

  lemma {:induction false} FittingIsRepresentable(v: EncodedValue)
    requires CountsFit(v) && Others(v) == 0
    ensures Representable(v)
    decreases v, 1
  {
    match v
    case ArrayValue(values) => FittingAreRepresentable(values);
    case AnnotationValue(a) => FittingElementsAreRepresentable(a.elements);
    case _ =>
  }

  lemma {:induction false} FittingAreRepresentable(values: seq<EncodedValue>)
    requires AllCountsFit(values) && OthersIn(values) == 0
    ensures AllRepresentable(values)
    decreases values, 0
  {
    if values != [] {
      FittingIsRepresentable(values[0]);
      FittingAreRepresentable(values[1..]);
    }
  }

  lemma {:induction false} FittingElementIsRepresentable(e: AnnotationElement)
    requires ElementFits(e) && OthersInElement(e) == 0
    ensures ElementRepresentable(e)
    decreases e, 2
  {
    FittingIsRepresentable(e.value);
  }

  lemma {:induction false} FittingElementsAreRepresentable(es: seq<AnnotationElement>)
    requires ElementCountsFit(es) && OthersInElements(es) == 0
    ensures ElementsRepresentable(es)
    decreases es, 0
  {
    if es != [] {
      FittingElementIsRepresentable(es[0]);
      FittingElementsAreRepresentable(es[1..]);
    }
  }

  predicate RoundTrips(v: EncodedValue, rest: seq<Byte>) {
    ReadValue(EncodeValue(v) + rest) == Some(Decoded(v, rest))
  }

  /** A value survives being written and read, whatever follows, exactly when it is representable. */
  lemma {:induction false} RoundTripsIffRepresentable(v: EncodedValue)
    ensures (forall rest :: RoundTrips(v, rest)) <==> Representable(v)
  {
    if Representable(v) {
      forall rest ensures RoundTrips(v, rest) { ValueRoundTrip(v, rest); }
    }
    if forall rest :: RoundTrips(v, rest) {
      assert RoundTrips(v, []);
      ReadShortest(EncodeValue(v) + []);
      FittingIsRepresentable(v);
    }
  }

  /** An array holding a value of an unknown type is cut short: its count says one, nothing follows. */
  lemma UnknownTypeIsLost()
    ensures EncodeValue(ArrayValue([OtherValue(0x01)])) == [0x1c, 0x01]
    ensures ReadValue([0x1c, 0x01]) == None
  {
    UnknownIsNotWritten();
    UnknownIsMissed();
  }

  lemma UnknownIsNotWritten()
    ensures EncodeValue(ArrayValue([OtherValue(0x01)])) == [0x1c, 0x01]
  {
    var vs := [OtherValue(0x01)];
    assert EncodeValues(vs) == EncodeValue(vs[0]) + EncodeValues(vs[1..]);
    assert EncodeArray(vs) == [0x01];
  }

  lemma UnknownIsMissed()
    ensures ReadValue([0x1c, 0x01]) == None
  {
    var s: seq<Byte> := [0x1c, 0x01];
    assert s[1..] == [0x01];
    assert ReadUleb([0x01]) == Some(Decoded(1, []));
    assert ReadValue([]) == None;
    assert ReadArray([0x01]) == None;
  }
}
