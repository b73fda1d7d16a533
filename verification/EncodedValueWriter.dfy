/** The writer's loops: filling the value buffer byte by byte and walking nested values. */
module EncodedValueWriter {
  import opened Bytes
  import opened Leb128
  import opened Streams
  import opened EncodedValues
  import opened EncodedValueRoundTrip

  /** `EncodeIntValue` and `EncodeLongValue`: low bytes until what is left is a sign-extended byte. */
  method EncodeSignedValue(value: Int64, buffer: array<Byte>) returns (length: nat)
    requires buffer.Length == 8
    modifies buffer
    ensures length == |SignedBytes(value)| <= 8
    ensures buffer[..length] == SignedBytes(value)
  {
    hide SignedBytes;
    Pow256Values();
    SignedBytesSize(value, 8);
    var v: int := value;
    length := 0;
    if v >= 0 {
      while v > 0x7f
        invariant v >= 0 && length + |SignedBytes(v)| == |SignedBytes(value)|
        invariant buffer[..length] + SignedBytes(v) == SignedBytes(value)
      {
        SignedBytesStep(v);
        buffer[length] := v % 256;
        length := length + 1;
        v := v / 256;
      }
    } else {
      while v < -0x80
        invariant v < 0 && length + |SignedBytes(v)| == |SignedBytes(value)|
        invariant buffer[..length] + SignedBytes(v) == SignedBytes(value)
        decreases -v
      {
        SignedBytesStep(v);
        buffer[length] := v % 256;
        length := length + 1;
        v := v / 256;
      }
    }
    SignedBytesStep(v);
    buffer[length] := v % 256;
    length := length + 1;
  }

  lemma SignedBytesStep(v: int)
    ensures -0x80 <= v <= 0x7f ==> SignedBytes(v) == [v % 256]
    ensures !(-0x80 <= v <= 0x7f) ==> SignedBytes(v) == [v % 256] + SignedBytes(v / 256)
  {
  }

  /** `EncodeUIntValue`: low bytes until nothing is left, at least one. */
  method EncodeUIntValue(value: UInt32, buffer: array<Byte>) returns (length: nat)
    requires buffer.Length == 8
    modifies buffer
    ensures length == |UnsignedBytes(value)| <= 4
    ensures buffer[..length] == UnsignedBytes(value)
  {
    Pow256Values();
    UnsignedBytesSize(value, 4);
    var v: nat := value;
    buffer[0] := v % 256;
    length := 1;
    v := v / 256;
    while v != 0
      invariant 0 < length <= |UnsignedBytes(value)|
      invariant v == 0 ==> buffer[..length] == UnsignedBytes(value)
      invariant v != 0 ==> buffer[..length] + UnsignedBytes(v) == UnsignedBytes(value)
      decreases v
    {
      buffer[length] := v % 256;
      length := length + 1;
      v := v / 256;
    }
  }

  // ------------------------------------------------------------------ right-filled bit patterns

  /** The top byte of a number and the rest of it. */
  lemma {:induction false} FromLeSplit(w: seq<Byte>)
    requires |w| > 0
    ensures FromLe(w) == FromLe(w[..|w| - 1]) + w[|w| - 1] * Pow256(|w| - 1)
  {
    hide FromLe, Pow256;
    var n := |w|;
    FromLeStep(w);
    FromLeStep(w[..n - 1]);
    if n > 1 {
      FromLeSplit(w[1..]);
      assert w[1..][..n - 2] == w[..n - 1][1..];
      NextPower(w[n - 1], n - 1);
    } else {
      NextPower(w[0], 0);
      assert w[1..] == [] && w[..0] == [];
      FromLeStep(w[1..]);
    }
  }

  lemma FromLeStep(w: seq<Byte>)
    ensures w == [] ==> FromLe(w) == 0
    ensures w != [] ==> FromLe(w) == w[0] + 256 * FromLe(w[1..])
  {
  }

  lemma NextPower(x: nat, n: nat)
    ensures n == 0 ==> x * Pow256(n) == x
    ensures n > 0 ==> x * Pow256(n) == 256 * (x * Pow256(n - 1))
  {
  }

  lemma {:induction false} TopAndRest(w: seq<Byte>)
    requires |w| > 0
    ensures FromLe(w) / Pow256(|w| - 1) == w[|w| - 1]
    ensures FromLe(w) % Pow256(|w| - 1) == FromLe(w[..|w| - 1])
  {
    FromLeSplit(w);
    FromLeBound(w[..|w| - 1]);
    DivUnique(FromLe(w), Pow256(|w| - 1), w[|w| - 1], FromLe(w[..|w| - 1]));
  }

  lemma {:induction false} ZeroValue(w: seq<Byte>)
    ensures FromLe(w) == 0 <==> (forall i | 0 <= i < |w| :: w[i] == 0)
  {
    if w != [] {
      ZeroValue(w[1..]);
      assert w == [w[0]] + w[1..];
    }
  }

  /** Trimming stops at the lowest byte that is not zero. */
  lemma {:induction false} TrimLowAt(s: seq<Byte>, k: nat)
    requires k < |s| && (forall i | 0 <= i < k :: s[i] == 0) && (k == |s| - 1 || s[k] != 0)
    ensures TrimLow(s) == s[k..]
  {
    if k > 0 {
      TrimLowAt(s[1..], k - 1);
      assert s[1..][k - 1..] == s[k..];
    }
  }

  /** `s` shifted left by `k` bytes within its own width. */
  function Shifted(s: seq<Byte>, k: nat): (w: seq<Byte>)
    requires k <= |s|
    ensures |w| == |s|
  {
    Zeros(k) + s[..|s| - k]
  }

  lemma {:induction false} ShiftedStep(s: seq<Byte>, k: nat)
    requires k < |s|
    ensures FromLe(Shifted(s, k)) / Pow256(|s| - 1) == s[|s| - 1 - k]
    ensures 256 * (FromLe(Shifted(s, k)) % Pow256(|s| - 1)) == FromLe(Shifted(s, k + 1))
  {
    var w := Shifted(s, k);
    TopAndRest(w);
    assert [0] + w[..|s| - 1] == Shifted(s, k + 1);
    assert Shifted(s, k + 1)[1..] == w[..|s| - 1];
  }

  lemma {:induction false} ShiftedIsZero(s: seq<Byte>, k: nat)
    requires k <= |s|
    ensures FromLe(Shifted(s, k)) == 0 <==> (forall i | 0 <= i < |s| - k :: s[i] == 0)
  {
    var w := Shifted(s, k);
    ZeroValue(w);
    assert forall i | 0 <= i < |s| - k :: w[i + k] == s[i];
  }

  /** One round of the loop: the top byte of the pattern, and the pattern shifted left by a byte. */
  method TakeTop(v: nat, n: nat, ghost s: seq<Byte>, ghost k: nat) returns (top: Byte, left: nat)
    requires 0 < n == |s| && k < n && v == FromLe(Shifted(s, k))
    ensures top == s[n - 1 - k]
    ensures left == FromLe(Shifted(s, k + 1))
    ensures left == 0 <==> (forall i | 0 <= i < n - 1 - k :: s[i] == 0)
  {
    ShiftedStep(s, k);
    ShiftedIsZero(s, k + 1);
    top := v / Pow256(n - 1);
    left := 256 * (v % Pow256(n - 1));
  }

  /** The loop has stopped: what is left is zero, what was taken last was not, unless it was the first. */
  predicate FillDone(s: seq<Byte>, taken: nat) {
    && 0 < taken <= |s|
    && (forall i | 0 <= i < |s| - taken :: s[i] == 0)
    && (taken == 1 || s[|s| - taken] != 0)
  }

  /** From the top byte down, shifting the pattern left until nothing is left. */
  method FillFromTop(bits: nat, n: nat, buffer: array<Byte>, ghost full: seq<Byte>) returns (length: nat)
    requires 0 < n == |full| <= buffer.Length && bits == FromLe(full)
    modifies buffer
    ensures FillDone(full, length)
    ensures forall i | n - length <= i < n :: buffer[i] == full[i]
  {
    var index: int, v, first := n - 1, bits, true;
    assert Shifted(full, 0) == full;
    while first || v != 0
      invariant -1 <= index < n && first == (index == n - 1)
      invariant v == FromLe(Shifted(full, n - 1 - index))
      invariant !first ==> (v == 0 <==> (forall i | 0 <= i <= index :: full[i] == 0))
      invariant forall i | index < i < n :: buffer[i] == full[i]
      invariant !first && v == 0 ==> FillDone(full, n - 1 - index)
      decreases index
    {
      var top;
      top, v := TakeTop(v, n, full, n - 1 - index);
      buffer[index] := top;
      index, first := index - 1, false;
    }
    length := n - 1 - index;
  }

  /**
    * `EncodeFloatValue` (`n == 4`) and `EncodeDoubleValue` (`n == 8`): the right-filled form of
    * the bit pattern, ending at `buffer[n - 1]`.
    */
  method EncodeFilledValue(bits: nat, n: nat, buffer: array<Byte>) returns (length: nat)
    requires 0 < n <= buffer.Length && bits < Pow256(n)
    modifies buffer
    ensures length == |TrimLow(Le(n, bits))|
    ensures buffer[n - length..n] == TrimLow(Le(n, bits))
  {
    ghost var full := Le(n, bits);
    LeRoundTrip(n, bits);
    length := FillFromTop(bits, n, buffer, full);
    TrimLowAt(full, n - length);
  }

  // ------------------------------------------------------------------ nested values

  /** `WriteEncodedValue`, with the array and annotation writers it calls. */
  method WriteEncodedValue(stream: Stream, v: EncodedValue)
    requires stream.Valid() && ZeroAt(stream.image, stream.position, |EncodeValue(v)|)
    modifies stream, stream.section
    ensures stream.Valid()
    ensures stream.position == old(stream.position) + |EncodeValue(v)|
    ensures stream.image == Splice(old(stream.image), old(stream.position), EncodeValue(v))
    decreases v, 1
  {
    hide *;
    ValueParts(v);
    match v
    case ArrayValue(values) =>
      WriteHeaderByte(stream, TAG_ARRAY, 0, |EncodeArray(values)|);
      WriteEncodedArray(stream, values);
      SpliceSplice(old(stream.image), old(stream.position), [ValueHeader(TAG_ARRAY, 0)], EncodeArray(values));
    case AnnotationValue(a) =>
      WriteHeaderByte(stream, TAG_ANNOTATION, 0, |EncodeAnnotation(a)|);
      WriteEncodedAnnotation(stream, a);
      SpliceSplice(old(stream.image), old(stream.position), [ValueHeader(TAG_ANNOTATION, 0)], EncodeAnnotation(a));
    case NullValue =>
      WriteHeaderByte(stream, TAG_NULL, 0, 0);
    case BooleanValue(z) =>
      WriteHeaderByte(stream, TAG_BOOLEAN, if z then 1 else 0, 0);
    case OtherValue(_) =>
      stream.Reached();
      SpliceNothing(stream.image, stream.position);
    case _ =>
      WriteScalar(stream, v);
  }

  /** The values that are not scalars. */
  lemma ValueParts(v: EncodedValue)
    ensures v.ArrayValue? ==> EncodeValue(v) == [ValueHeader(TAG_ARRAY, 0)] + EncodeArray(v.values)
    ensures v.AnnotationValue? ==> EncodeValue(v) == [ValueHeader(TAG_ANNOTATION, 0)] + EncodeAnnotation(v.annotation)
    ensures v.NullValue? ==> EncodeValue(v) == [ValueHeader(TAG_NULL, 0)]
    ensures v.BooleanValue? ==> EncodeValue(v) == [ValueHeader(TAG_BOOLEAN, if v.z then 1 else 0)]
    ensures v.OtherValue? ==> EncodeValue(v) == []
  {
    hide ValueHeader, EncodeArray, EncodeAnnotation;
  }

  /** `WriteEncodedValueHeader`; `more` bytes behind it stay zero. */
  method WriteHeaderByte(stream: Stream, tag: nat, arg: nat, ghost more: nat)
    requires stream.Valid() && ZeroAt(stream.image, stream.position, 1 + more)
    modifies stream, stream.section
    ensures stream.Valid() && stream.position == old(stream.position) + 1
    ensures stream.image == Splice(old(stream.image), old(stream.position), [ValueHeader(tag, arg)])
    ensures ZeroAt(stream.image, stream.position, more)
  {
    ZeroAfterSplice(stream.image, stream.position, [ValueHeader(tag, arg)], more);
    stream.Write([ValueHeader(tag, arg)]);
  }

  lemma TaggedBytes(tag: nat, payload: seq<Byte>)
    requires |payload| > 0
    ensures Tagged(tag, payload) == [ValueHeader(tag, |payload| - 1)] + payload
  {
  }

  /** The scalar cases: fill the buffer, then write the header and the part of the buffer in use. */
  method WriteScalar(stream: Stream, v: EncodedValue)
    requires !v.ArrayValue? && !v.AnnotationValue? && !v.NullValue? && !v.BooleanValue? && !v.OtherValue?
    requires stream.Valid() && ZeroAt(stream.image, stream.position, |EncodeValue(v)|)
    modifies stream, stream.section
    ensures stream.Valid()
    ensures stream.position == old(stream.position) + |EncodeValue(v)|
    ensures stream.image == Splice(old(stream.image), old(stream.position), EncodeValue(v))
  {
    hide *;
    var tag, payload := ScalarPayload(v);
    TaggedBytes(tag, payload);
    WriteHeaderByte(stream, tag, |payload| - 1, |payload|);
    stream.Write(payload);
    SpliceSplice(old(stream.image), old(stream.position), [ValueHeader(tag, |payload| - 1)], payload);
  }

  /** The buffer, cut from `start` to `start + length`. */
  method ScalarPayload(v: EncodedValue) returns (tag: Byte, payload: seq<Byte>)
    requires !v.ArrayValue? && !v.AnnotationValue? && !v.NullValue? && !v.BooleanValue? && !v.OtherValue?
    ensures |payload| > 0 && EncodeValue(v) == Tagged(tag, payload)
  {
    var buffer := new Byte[8];
    var start, length := 0, 0;
    match v {
      case ByteValue(b) => tag := TAG_BYTE; length := EncodeSignedValue(b, buffer);
      case ShortValue(s) => tag := TAG_SHORT; length := EncodeSignedValue(s, buffer);
      case CharValue(c) => tag := TAG_CHAR; length := EncodeUIntValue(c, buffer);
      case IntValue(i) => tag := TAG_INT; length := EncodeSignedValue(i, buffer);
      case LongValue(l) => tag := TAG_LONG; length := EncodeSignedValue(l, buffer);
      case FloatValue(bits) =>
        Pow256Values();
        tag := TAG_FLOAT;
        length := EncodeFilledValue(bits, 4, buffer);
        start := 4 - length;
      case DoubleValue(bits) =>
        Pow256Values();
        tag := TAG_DOUBLE;
        length := EncodeFilledValue(bits, 8, buffer);
        start := 8 - length;
      case IndexValue(kind, index) => tag := IndexTag(kind); length := EncodeUIntValue(index, buffer);
    }
    payload := buffer[start..start + length];
  }

  lemma ArrayBytes(values: seq<EncodedValue>)
    ensures EncodeArray(values) == Uleb(ToU32(|values|)) + EncodeValues(values)
    ensures EncodeValues(values[..0]) == []
  {
  }

  lemma AnnotationBytes(a: EncodedAnnotation)
    ensures EncodeAnnotation(a) == Uleb(a.typeIdx) + Uleb(ToU32(|a.elements|)) + EncodeElements(a.elements)
    ensures EncodeElements(a.elements[..0]) == []
  {
  }

  lemma ElementBytes(e: AnnotationElement)
    ensures EncodeElement(e) == Uleb(e.name) + EncodeValue(e.value)
  {
  }

  method WriteEncodedArray(stream: Stream, values: seq<EncodedValue>)
    requires stream.Valid() && ZeroAt(stream.image, stream.position, |EncodeArray(values)|)
    modifies stream, stream.section
    ensures stream.Valid()
    ensures stream.position == old(stream.position) + |EncodeArray(values)|
    ensures stream.image == Splice(old(stream.image), old(stream.position), EncodeArray(values))
    decreases values, 2
  {
    hide *;
    var count := ToU32(|values|);
    ArrayBytes(values);
    ZeroAfterSplice(stream.image, stream.position, Uleb(count), |EncodeValues(values)|);
    var _ := stream.WriteUleb128(count);
    ghost var img, pos := stream.image, stream.position;
    SpliceNothing(img, pos);
    for i := 0 to |values|
      invariant stream.Valid() && stream.position == pos + |EncodeValues(values[..i])|
      invariant stream.image == Splice(img, pos, EncodeValues(values[..i]))
    {
      EncodeValuesSplit(values, i);
      ZeroAfterSplice(img, pos, EncodeValues(values[..i]), |EncodeValue(values[i])|);
      WriteEncodedValue(stream, values[i]);
      SpliceSplice(img, pos, EncodeValues(values[..i]), EncodeValue(values[i]));
    }
    assert values[..|values|] == values;
    SpliceSplice(old(stream.image), old(stream.position), Uleb(count), EncodeValues(values));
  }

  lemma EncodeValuesCons(x: EncodedValue, xs: seq<EncodedValue>)
    ensures EncodeValues([x] + xs) == EncodeValue(x) + EncodeValues(xs) && EncodeValues([]) == []
  {
    hide EncodeValue;
    assert ([x] + xs)[1..] == xs && ([x] + xs)[0] == x;
  }

  lemma {:induction false} EncodeValuesConcat(a: seq<EncodedValue>, b: seq<EncodedValue>)
    ensures EncodeValues(a + b) == EncodeValues(a) + EncodeValues(b)
  {
    hide *;
    if a == [] {
      assert a + b == b;
      NoEncodeValues();
    } else {
      EncodeValuesConcat(a[1..], b);
      EncodeValuesCons(a[0], a[1..]);
      EncodeValuesCons(a[0], a[1..] + b);
      assert a == [a[0]] + a[1..] && a + b == [a[0]] + (a[1..] + b);
    }
  }

  lemma NoEncodeValues()
    ensures EncodeValues([]) == []
  {
  }

  lemma {:induction false} EncodeValuesSplit(values: seq<EncodedValue>, i: nat)
    requires i < |values|
    ensures EncodeValues(values[..i + 1]) == EncodeValues(values[..i]) + EncodeValue(values[i])
    ensures |EncodeValues(values[..i])| + |EncodeValue(values[i])| <= |EncodeValues(values)|
  {
    hide *;
    assert values[..i + 1] == values[..i] + [values[i]] && [values[i]] == [values[i]] + [];
    EncodeValuesConcat(values[..i], [values[i]]);
    assert values == values[..i + 1] + values[i + 1..];
    EncodeValuesConcat(values[..i + 1], values[i + 1..]);
    EncodeValuesCons(values[i], []);
  }

  method WriteEncodedAnnotation(stream: Stream, a: EncodedAnnotation)
    requires stream.Valid() && ZeroAt(stream.image, stream.position, |EncodeAnnotation(a)|)
    modifies stream, stream.section
    ensures stream.Valid()
    ensures stream.position == old(stream.position) + |EncodeAnnotation(a)|
    ensures stream.image == Splice(old(stream.image), old(stream.position), EncodeAnnotation(a))
    decreases a, 2
  {
    hide *;
    var count := ToU32(|a.elements|);
    var es := a.elements;
    ghost var head := Uleb(a.typeIdx) + Uleb(count);
    AnnotationBytes(a);
    ZeroAfterSplice(stream.image, stream.position, head, |EncodeElements(es)|);
    var _ := stream.WriteUleb128(a.typeIdx);
    var _ := stream.WriteUleb128(count);
    SpliceSplice(old(stream.image), old(stream.position), Uleb(a.typeIdx), Uleb(count));
    ghost var img, pos := stream.image, stream.position;
    SpliceNothing(img, pos);
    for i := 0 to |es|
      invariant stream.Valid() && stream.position == pos + |EncodeElements(es[..i])|
      invariant stream.image == Splice(img, pos, EncodeElements(es[..i]))
    {
      EncodeElementsSplit(es, i);
      ZeroAfterSplice(img, pos, EncodeElements(es[..i]), |EncodeElement(es[i])|);
      WriteElement(stream, es[i]);
      SpliceSplice(img, pos, EncodeElements(es[..i]), EncodeElement(es[i]));
    }
    assert es[..|es|] == es;
    SpliceSplice(old(stream.image), old(stream.position), head, EncodeElements(es));
  }

  method WriteElement(stream: Stream, e: AnnotationElement)
    requires stream.Valid() && ZeroAt(stream.image, stream.position, |EncodeElement(e)|)
    modifies stream, stream.section
    ensures stream.Valid()
    ensures stream.position == old(stream.position) + |EncodeElement(e)|
    ensures stream.image == Splice(old(stream.image), old(stream.position), EncodeElement(e))
    decreases e, 2
  {
    hide *;
    ElementBytes(e);
    ZeroAfterSplice(stream.image, stream.position, Uleb(e.name), |EncodeValue(e.value)|);
    var _ := stream.WriteUleb128(e.name);
    WriteEncodedValue(stream, e.value);
    SpliceSplice(old(stream.image), old(stream.position), Uleb(e.name), EncodeValue(e.value));
  }

  lemma EncodeElementsCons(x: AnnotationElement, xs: seq<AnnotationElement>)
    ensures EncodeElements([x] + xs) == EncodeElement(x) + EncodeElements(xs) && EncodeElements([]) == []
  {
    hide EncodeElement;
    assert ([x] + xs)[1..] == xs && ([x] + xs)[0] == x;
  }

  lemma {:induction false} EncodeElementsConcat(a: seq<AnnotationElement>, b: seq<AnnotationElement>)
    ensures EncodeElements(a + b) == EncodeElements(a) + EncodeElements(b)
  {
    hide *;
    if a == [] {
      assert a + b == b;
      NoEncodeElements();
    } else {
      EncodeElementsConcat(a[1..], b);
      EncodeElementsCons(a[0], a[1..]);
      EncodeElementsCons(a[0], a[1..] + b);
      assert a == [a[0]] + a[1..] && a + b == [a[0]] + (a[1..] + b);
    }
  }

  lemma NoEncodeElements()
    ensures EncodeElements([]) == []
  {
  }

  lemma {:induction false} EncodeElementsSplit(es: seq<AnnotationElement>, i: nat)
    requires i < |es|
    ensures EncodeElements(es[..i + 1]) == EncodeElements(es[..i]) + EncodeElement(es[i])
    ensures |EncodeElements(es[..i])| + |EncodeElement(es[i])| <= |EncodeElements(es)|
  {
    hide *;
    assert es[..i + 1] == es[..i] + [es[i]] && [es[i]] == [es[i]] + [];
    EncodeElementsConcat(es[..i], [es[i]]);
    assert es == es[..i + 1] + es[i + 1..];
    EncodeElementsConcat(es[..i + 1], es[i + 1..]);
    EncodeElementsCons(es[i], []);
  }
}
