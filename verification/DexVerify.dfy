/**
  * The comparison of two IRs that dexlayout uses to check its output, and what exactly it compares:
  * it accepts two IRs if and only if they have the same projection.
  */
module DexVerify {
  import opened Bytes
  import opened EncodedValues
  import opened DexIr
  import opened Items

  // ------------------------------------------------------------------ encoded values

  /** Method types and method handles: their indices are not looked at. */
  predicate NotCompared(k: IndexKind) {
    k == IndexKind.MethodType || k == IndexKind.MethodHandle
  }

  function ProjValue(v: EncodedValue): EncodedValue
    decreases v, 1
  {
    match v
    case IndexValue(kind, index) => IndexValue(kind, if NotCompared(kind) then 0 else index)
    case ArrayValue(values) => ArrayValue(ProjValues(values))
    case AnnotationValue(a) => AnnotationValue(ProjAnnotation(a))
    case _ => v
  }

  function ProjValues(vs: seq<EncodedValue>): (r: seq<EncodedValue>)
    ensures |r| == |vs|
    decreases vs, 0
  {
    if vs == [] then [] else [ProjValue(vs[0])] + ProjValues(vs[1..])
  }

  function ProjAnnotation(a: EncodedAnnotation): EncodedAnnotation
    decreases a, 2
  {
    EncodedAnnotation(a.typeIdx, ProjElements(a.elements))
  }

  function ProjElements(es: seq<AnnotationElement>): (r: seq<AnnotationElement>)
    ensures |r| == |es|
    decreases es, 0
  {
    if es == [] then [] else [ProjElement(es[0])] + ProjElements(es[1..])
  }

  function ProjElement(e: AnnotationElement): AnnotationElement
    decreases e, 2
  {
    AnnotationElement(e.name, ProjValue(e.value))
  }

  lemma {:induction false} ProjValuesAt(vs: seq<EncodedValue>, i: nat)
    requires i < |vs|
    ensures ProjValues(vs)[i] == ProjValue(vs[i])
    decreases i
  {
    hide ProjValue;
    if i > 0 { ProjValuesAt(vs[1..], i - 1); }
  }

  lemma {:induction false} ProjElementsAt(es: seq<AnnotationElement>, i: nat)
    requires i < |es|
    ensures ProjElements(es)[i] == ProjElement(es[i])
    decreases i
  {
    hide ProjElement;
    if i > 0 { ProjElementsAt(es[1..], i - 1); }
  }

  method VerifyEncodedValue(a: EncodedValue, b: EncodedValue) returns (ok: bool)
    ensures ok <==> ProjValue(a) == ProjValue(b)
    decreases a, 1
  {
    match a
    case ArrayValue(values) =>
      if !b.ArrayValue? {
        return false;
      }
      ok := VerifyValues(values, b.values);
    case AnnotationValue(x) =>
      if !b.AnnotationValue? {
        return false;
      }
      ok := VerifyEncodedAnnotation(x, b.annotation);
    case IndexValue(kind, index) =>
      ok := b.IndexValue? && kind == b.kind && (NotCompared(kind) || index == b.index);
    case _ => ok := a == b;
  }

  method VerifyValues(a: seq<EncodedValue>, b: seq<EncodedValue>) returns (ok: bool)
    ensures ok <==> ProjValues(a) == ProjValues(b)
    decreases a, 0
  {
    hide *;
    if |a| != |b| {
      return false;
    }
    for i := 0 to |a|
      invariant forall j | 0 <= j < i :: ProjValues(a)[j] == ProjValues(b)[j]
    {
      ProjValuesAt(a, i);
      ProjValuesAt(b, i);
      var same := VerifyEncodedValue(a[i], b[i]);
      if !same {
        return false;
      }
    }
    ok := true;
  }

  method VerifyEncodedAnnotation(a: EncodedAnnotation, b: EncodedAnnotation) returns (ok: bool)
    ensures ok <==> ProjAnnotation(a) == ProjAnnotation(b)
    decreases a, 2
  {
    hide *;
    ProjAnnotationIs(a);
    ProjAnnotationIs(b);
    if a.typeIdx != b.typeIdx || |a.elements| != |b.elements| {
      return false;
    }
    for i := 0 to |a.elements|
      invariant forall j | 0 <= j < i :: ProjElements(a.elements)[j] == ProjElements(b.elements)[j]
    {
      ProjElementsAt(a.elements, i);
      ProjElementsAt(b.elements, i);
      var same := VerifyAnnotationElement(a.elements[i], b.elements[i]);
      if !same {
        return false;
      }
    }
    ok := true;
  }

  lemma ProjAnnotationIs(a: EncodedAnnotation)
    ensures ProjAnnotation(a) == EncodedAnnotation(a.typeIdx, ProjElements(a.elements))
  {
    hide ProjElements;
  }

  method VerifyAnnotationElement(a: AnnotationElement, b: AnnotationElement) returns (ok: bool)
    ensures ok <==> ProjElement(a) == ProjElement(b)
    decreases a, 2
  {
    if a.name != b.name {
      return false;
    }
    ok := VerifyEncodedValue(a.value, b.value);
  }

  method VerifyEncodedArray(a: Option<seq<EncodedValue>>, b: Option<seq<EncodedValue>>) returns (ok: bool)
    ensures ok <==> ProjArray(a) == ProjArray(b)
  {
    if a.None? || b.None? {
      return a.None? && b.None?;
    }
    ok := VerifyValues(a.value, b.value);
  }

  function ProjArray(a: Option<seq<EncodedValue>>): Option<seq<EncodedValue>> {
    if a.None? then None else Some(ProjValues(a.value))
  }

  // ------------------------------------------------------------------ annotations

  function ProjItem(a: AnnotationItem): AnnotationItem {
    AnnotationItem(a.visibility, ProjAnnotation(a.annotation))
  }

  function ProjItems(items: seq<AnnotationItem>): (r: seq<AnnotationItem>)
    ensures |r| == |items| && forall i | 0 <= i < |r| :: r[i] == ProjItem(items[i])
  {
    seq(|items|, i requires 0 <= i < |items| => ProjItem(items[i]))
  }

  /** The annotations of a set, its pointers followed. */
  function ItemsOf(ir: Header, set_: seq<nat>): (r: seq<AnnotationItem>)
    requires GoodSet(ir, set_)
    ensures |r| == |set_| && forall i | 0 <= i < |r| :: r[i] == ir.annotations[set_[i]]
  {
    seq(|set_|, i requires 0 <= i < |set_| => ir.annotations[set_[i]])
  }

  function ProjSet(s: Option<seq<AnnotationItem>>): Option<seq<AnnotationItem>> {
    if s.None? then None else Some(ProjItems(s.value))
  }

  method VerifyAnnotationSet(a: Option<seq<AnnotationItem>>, b: Option<seq<AnnotationItem>>) returns (ok: bool)
    ensures ok <==> ProjSet(a) == ProjSet(b)
  {
    hide ProjAnnotation;
    if a.None? || b.None? {
      return a.None? && b.None?;
    }
    if |a.value| != |b.value| {
      return false;
    }
    for i := 0 to |a.value|
      invariant forall j | 0 <= j < i :: ProjItems(a.value)[j] == ProjItems(b.value)[j]
    {
      var x, y := a.value[i], b.value[i];
      if x.visibility != y.visibility {
        assert ProjItems(a.value)[i] != ProjItems(b.value)[i];
        return false;
      }
      var same := VerifyEncodedAnnotation(x.annotation, y.annotation);
      if !same {
        assert ProjItems(a.value)[i] != ProjItems(b.value)[i];
        return false;
      }
    }
    assert ProjItems(a.value) == ProjItems(b.value);
    ok := true;
  }

  /** A member and its annotations, or those of its parameters. */
  datatype Member = Member(index: UInt32, sets: seq<Option<seq<AnnotationItem>>>)

  function ProjSets(ss: seq<Option<seq<AnnotationItem>>>): (r: seq<Option<seq<AnnotationItem>>>)
    ensures |r| == |ss| && forall i | 0 <= i < |r| :: r[i] == ProjSet(ss[i])
  {
    seq(|ss|, i requires 0 <= i < |ss| => ProjSet(ss[i]))
  }

  function ProjMember(m: Member): Member {
    Member(m.index, ProjSets(m.sets))
  }

  function ProjMembers(ms: seq<Member>): (r: seq<Member>)
    ensures |r| == |ms| && forall i | 0 <= i < |r| :: r[i] == ProjMember(ms[i])
  {
    seq(|ms|, i requires 0 <= i < |ms| => ProjMember(ms[i]))
  }

  function ProjMembersOf(ms: Option<seq<Member>>): Option<seq<Member>> {
    if ms.None? then None else Some(ProjMembers(ms.value))
  }

  method VerifyAnnotationSetRefList(a: seq<Option<seq<AnnotationItem>>>, b: seq<Option<seq<AnnotationItem>>>) returns (ok: bool)
    ensures ok <==> ProjSets(a) == ProjSets(b)
  {
    hide ProjSet;
    if |a| != |b| {
      return false;
    }
    for i := 0 to |a|
      invariant forall j | 0 <= j < i :: ProjSets(a)[j] == ProjSets(b)[j]
    {
      var same := VerifyAnnotationSet(a[i], b[i]);
      if !same {
        assert ProjSets(a)[i] != ProjSets(b)[i];
        return false;
      }
    }
    ok := true;
  }

  /** The annotations of fields, of methods or of parameters: the three differ in what a member holds. */
  method VerifyMemberAnnotations(a: Option<seq<Member>>, b: Option<seq<Member>>) returns (ok: bool)
    ensures ok <==> ProjMembersOf(a) == ProjMembersOf(b)
  {
    hide ProjSets;
    if a.None? || b.None? {
      return a.None? && b.None?;
    }
    if |a.value| != |b.value| {
      return false;
    }
    for i := 0 to |a.value|
      invariant forall j | 0 <= j < i :: ProjMembers(a.value)[j] == ProjMembers(b.value)[j]
    {
      var x, y := a.value[i], b.value[i];
      if x.index != y.index {
        assert ProjMembers(a.value)[i] != ProjMembers(b.value)[i];
        return false;
      }
      var same := VerifyAnnotationSetRefList(x.sets, y.sets);
      if !same {
        assert ProjMembers(a.value)[i] != ProjMembers(b.value)[i];
        return false;
      }
    }
    assert ProjMembers(a.value) == ProjMembers(b.value);
    ok := true;
  }

  datatype Directory = Directory(
    onClass: Option<seq<AnnotationItem>>, fields: Option<seq<Member>>, methods: Option<seq<Member>>, parameters: Option<seq<Member>>)

  function ProjDirectory(d: Option<Directory>): Option<Directory> {
    if d.None? then None
    else Some(Directory(ProjSet(d.value.onClass), ProjMembersOf(d.value.fields), ProjMembersOf(d.value.methods), ProjMembersOf(d.value.parameters)))
  }

  method VerifyAnnotationsDirectory(a: Option<Directory>, b: Option<Directory>) returns (ok: bool)
    ensures ok <==> ProjDirectory(a) == ProjDirectory(b)
  {
    hide ProjSet, ProjMembersOf;
    if a.None? || b.None? {
      return a.None? && b.None?;
    }
    ok := VerifyAnnotationSet(a.value.onClass, b.value.onClass);
    if !ok {
      return;
    }
    ok := VerifyMemberAnnotations(a.value.fields, b.value.fields);
    if !ok {
      return;
    }
    ok := VerifyMemberAnnotations(a.value.methods, b.value.methods);
    if !ok {
      return;
    }
    ok := VerifyMemberAnnotations(a.value.parameters, b.value.parameters);
  }

  // ------------------------------------------------------------------ code

  /** A try item with the clauses of its handler. */
  datatype Try = Try(startAddr: UInt32, insnCount: UInt16, clauses: seq<TypeAddrPair>)

  /** The lists of try items and handlers may be null. */
  datatype Code = Code(
    registers: UInt16, ins: UInt16, outs: UInt16, debug: Option<seq<Byte>>, insns: seq<UInt16>, tries: Option<seq<Try>>,
    handlers: Option<seq<seq<TypeAddrPair>>>)

  function TriesCount(c: Code): UInt16 {
    if c.tries.None? then 0 else ToU16(|c.tries.value|)
  }

  /** `memcmp` is given the number of code units as a number of bytes: half of the code is compared. */
  function ComparedBytes(insns: seq<UInt16>): seq<Byte> {
    U16s(insns)[..|insns|]
  }

  datatype CodeProj = CodeProj(
    registers: UInt16, ins: UInt16, outs: UInt16, debug: Option<seq<Byte>>, size: nat, front: seq<Byte>, tries: Option<seq<Try>>,
    handlers: Option<seq<seq<TypeAddrPair>>>)

  function ProjCode(c: Option<Code>): Option<CodeProj> {
    if c.None? then None
    else Some(CodeProj(c.value.registers, c.value.ins, c.value.outs, c.value.debug, |c.value.insns|, ComparedBytes(c.value.insns),
                       c.value.tries, c.value.handlers))
  }

  method VerifyHandler(a: seq<TypeAddrPair>, b: seq<TypeAddrPair>) returns (ok: bool)
    ensures ok <==> a == b
  {
    if |a| != |b| {
      return false;
    }
    for i := 0 to |a|
      invariant forall j | 0 <= j < i :: a[j] == b[j]
    {
      if a[i].typeIdx.None? || b[i].typeIdx.None? {
        if !(a[i].typeIdx.None? && b[i].typeIdx.None?) {
          return false;
        }
      } else if a[i].typeIdx.value != b[i].typeIdx.value {
        return false;
      }
      if a[i].address != b[i].address {
        return false;
      }
    }
    ok := true;
  }

  method VerifyTries(orig: Option<seq<Try>>, output: Option<seq<Try>>) returns (ok: bool)
    ensures ok <==> orig == output
  {
    if orig.None? || output.None? {
      return orig.None? && output.None?;
    }
    var a, b := orig.value, output.value;
    if |a| != |b| {
      return false;
    }
    for i := 0 to |a|
      invariant forall j | 0 <= j < i :: a[j] == b[j]
    {
      if a[i].startAddr != b[i].startAddr || a[i].insnCount != b[i].insnCount {
        return false;
      }
      var same := VerifyHandler(a[i].clauses, b[i].clauses);
      if !same {
        return false;
      }
    }
    assert a == b;
    ok := true;
  }

  method VerifyHandlers(orig: Option<seq<seq<TypeAddrPair>>>, output: Option<seq<seq<TypeAddrPair>>>) returns (ok: bool)
    ensures ok <==> orig == output
  {
    if orig.None? || output.None? {
      return orig.None? && output.None?;
    }
    var a, b := orig.value, output.value;
    if |a| != |b| {
      return false;
    }
    for i := 0 to |a|
      invariant forall j | 0 <= j < i :: a[j] == b[j]
    {
      var same := VerifyHandler(a[i], b[i]);
      if !same {
        return false;
      }
    }
    assert a == b;
    ok := true;
  }

  method VerifyCode(a: Option<Code>, b: Option<Code>) returns (ok: bool)
    ensures ok <==> ProjCode(a) == ProjCode(b)
  {
    hide ComparedBytes;
    if a.None? || b.None? {
      return a.None? && b.None?;
    }
    var x, y := a.value, b.value;
    if x.registers != y.registers || x.ins != y.ins || x.outs != y.outs || TriesCount(x) != TriesCount(y) {
      return false;
    }
    if x.debug != y.debug || |x.insns| != |y.insns| {
      return false;
    }
    if ComparedBytes(x.insns) != ComparedBytes(y.insns) {
      return false;
    }
    ok := VerifyTries(x.tries, y.tries);
    if !ok {
      return;
    }
    ok := VerifyHandlers(x.handlers, y.handlers);
  }

  lemma UnitBytes(x: UInt16, xs: seq<UInt16>)
    ensures U16s([x] + xs) == [x % 256, x / 256] + U16s(xs)
  {
    assert ([x] + xs)[1..] == xs;
    LeTwo(x);
  }

  /** The first `m` bytes of a run of units agree: half as many units do, and the low byte of the next if `m` is odd. */
  predicate UnitsAgree(xs: seq<UInt16>, ys: seq<UInt16>, m: nat)
    requires |xs| == |ys| && m <= 2 * |xs|
  {
    xs[..m / 2] == ys[..m / 2] && (m % 2 == 1 ==> xs[m / 2] % 256 == ys[m / 2] % 256)
  }

  lemma FrontShort(xs: seq<UInt16>, ys: seq<UInt16>, m: nat)
    requires |xs| == |ys| && m <= 2 * |xs| && m < 2
    ensures U16s(xs)[..m] == U16s(ys)[..m] <==> UnitsAgree(xs, ys, m)
  {
    hide U16s;
    if m == 1 {
      assert xs == [xs[0]] + xs[1..] && ys == [ys[0]] + ys[1..];
      UnitBytes(xs[0], xs[1..]);
      UnitBytes(ys[0], ys[1..]);
      assert U16s(xs)[..1] == [xs[0] % 256] && U16s(ys)[..1] == [ys[0] % 256];
    }
  }

  lemma SameUnit(x: UInt16, y: UInt16)
    ensures x % 256 == y % 256 && x / 256 == y / 256 <==> x == y
  {
  }

  lemma {:induction false} FrontUnits(xs: seq<UInt16>, ys: seq<UInt16>, m: nat)
    requires |xs| == |ys| && m <= 2 * |xs|
    ensures U16s(xs)[..m] == U16s(ys)[..m] <==> UnitsAgree(xs, ys, m)
  {
    hide U16s, UnitsAgree;
    if m < 2 {
      FrontShort(xs, ys, m);
    } else {
      var s, t := U16s(xs[1..]), U16s(ys[1..]);
      var p: seq<Byte>, q: seq<Byte> := [xs[0] % 256, xs[0] / 256], [ys[0] % 256, ys[0] / 256];
      assert xs == [xs[0]] + xs[1..] && ys == [ys[0]] + ys[1..];
      UnitBytes(xs[0], xs[1..]);
      UnitBytes(ys[0], ys[1..]);
      assert U16s(xs)[..m] == p + s[..m - 2] && U16s(ys)[..m] == q + t[..m - 2];
      FrontSplit(p, s[..m - 2], q, t[..m - 2]);
      SameUnit(xs[0], ys[0]);
      FrontUnits(xs[1..], ys[1..], m - 2);
      AgreeSplit(xs, ys, m);
    }
  }

  lemma FrontSplit(a: seq<Byte>, s: seq<Byte>, b: seq<Byte>, t: seq<Byte>)
    requires |a| == |b| == 2
    ensures a + s == b + t <==> a[0] == b[0] && a[1] == b[1] && s == t
  {
    if a + s == b + t {
      assert a == (a + s)[..2] && b == (b + t)[..2] && s == (a + s)[2..] && t == (b + t)[2..];
    }
  }

  lemma AgreeSplit(xs: seq<UInt16>, ys: seq<UInt16>, m: nat)
    requires |xs| == |ys| && 2 <= m <= 2 * |xs|
    ensures UnitsAgree(xs, ys, m) <==> xs[0] == ys[0] && UnitsAgree(xs[1..], ys[1..], m - 2)
  {
    var h := m / 2;
    assert (m - 2) / 2 == h - 1 && (m - 2) % 2 == m % 2;
    assert xs[..h] == [xs[0]] + xs[1..][..h - 1] && ys[..h] == [ys[0]] + ys[1..][..h - 1];
    if xs[..h] == ys[..h] {
      assert xs[0] == xs[..h][0] && ys[0] == ys[..h][0] && xs[1..][..h - 1] == xs[..h][1..] && ys[1..][..h - 1] == ys[..h][1..];
    }
  }

  /**
    * Codes that differ at most in their instructions, of which they have equally many, are accepted
    * exactly when the instructions agree on half as many units.
    */
  lemma CodeAcceptedIff(c: Code, insns: seq<UInt16>)
    requires |insns| == |c.insns|
    ensures ProjCode(Some(c)) == ProjCode(Some(c.(insns := insns))) <==> UnitsAgree(c.insns, insns, |insns|)
  {
    hide U16s;
    FrontUnits(c.insns, insns, |insns|);
  }

  /** The second half of a method's code is not compared: from two units on, the last one may be any. */
  lemma SecondHalfNotCompared(c: Code, x: UInt16)
    requires |c.insns| >= 2
    ensures ProjCode(Some(c)) == ProjCode(Some(c.(insns := c.insns[|c.insns| - 1 := x])))
  {
    hide ProjCode;
    CodeAcceptedIff(c, c.insns[|c.insns| - 1 := x]);
  }

  // ------------------------------------------------------------------ class data

  datatype Method = Method(index: UInt32, accessFlags: UInt32, code: Option<Code>)

  datatype MethodProj = MethodProj(index: UInt32, accessFlags: UInt32, code: Option<CodeProj>)

  function ProjMethod(m: Method): MethodProj {
    MethodProj(m.index, m.accessFlags, ProjCode(m.code))
  }

  function ProjMethods(ms: seq<Method>): (r: seq<MethodProj>)
    ensures |r| == |ms| && forall i | 0 <= i < |r| :: r[i] == ProjMethod(ms[i])
  {
    seq(|ms|, i requires 0 <= i < |ms| => ProjMethod(ms[i]))
  }

  method VerifyFields(a: seq<FieldItem>, b: seq<FieldItem>) returns (ok: bool)
    ensures ok <==> a == b
  {
    if |a| != |b| {
      return false;
    }
    for i := 0 to |a|
      invariant forall j | 0 <= j < i :: a[j] == b[j]
    {
      if a[i].field != b[i].field || a[i].accessFlags != b[i].accessFlags {
        return false;
      }
    }
    ok := true;
  }

  method VerifyMethods(a: seq<Method>, b: seq<Method>) returns (ok: bool)
    ensures ok <==> ProjMethods(a) == ProjMethods(b)
  {
    hide ProjCode;
    if |a| != |b| {
      return false;
    }
    for i := 0 to |a|
      invariant forall j | 0 <= j < i :: ProjMethods(a)[j] == ProjMethods(b)[j]
    {
      if a[i].index != b[i].index || a[i].accessFlags != b[i].accessFlags {
        assert ProjMethods(a)[i] != ProjMethods(b)[i];
        return false;
      }
      var same := VerifyCode(a[i].code, b[i].code);
      if !same {
        assert ProjMethods(a)[i] != ProjMethods(b)[i];
        return false;
      }
    }
    ok := true;
  }

  datatype Data = Data(staticFields: seq<FieldItem>, instanceFields: seq<FieldItem>, directMethods: seq<Method>, virtualMethods: seq<Method>)

  datatype DataProj = DataProj(
    staticFields: seq<FieldItem>, instanceFields: seq<FieldItem>, directMethods: seq<MethodProj>, virtualMethods: seq<MethodProj>)

  function ProjData(d: Option<Data>): Option<DataProj> {
    if d.None? then None
    else Some(DataProj(d.value.staticFields, d.value.instanceFields, ProjMethods(d.value.directMethods), ProjMethods(d.value.virtualMethods)))
  }

  method VerifyClassData(a: Option<Data>, b: Option<Data>) returns (ok: bool)
    ensures ok <==> ProjData(a) == ProjData(b)
  {
    hide ProjMethods;
    if a.None? || b.None? {
      return a.None? && b.None?;
    }
    ok := VerifyFields(a.value.staticFields, b.value.staticFields);
    if !ok {
      return;
    }
    ok := VerifyFields(a.value.instanceFields, b.value.instanceFields);
    if !ok {
      return;
    }
    ok := VerifyMethods(a.value.directMethods, b.value.directMethods);
    if !ok {
      return;
    }
    ok := VerifyMethods(a.value.virtualMethods, b.value.virtualMethods);
  }

  // ------------------------------------------------------------------ classes

  /** A class definition with its pointers followed; the source file is its string. */
  datatype Class = Class(
    classType: UInt16, accessFlags: UInt32, superclass: Option<UInt16>, interfaces: Option<seq<UInt16>>, sourceFile: Option<seq<Byte>>,
    annotations: Option<Directory>, data: Option<Data>, staticValues: Option<seq<EncodedValue>>)

  datatype ClassProj = ClassProj(
    classType: UInt16, accessFlags: UInt32, superclass: UInt16, interfaces: Option<seq<UInt16>>, sourceFile: seq<Byte>,
    annotations: Option<Directory>, data: Option<DataProj>, staticValues: Option<seq<EncodedValue>>)

  /** No superclass counts as type 0, no source file as the empty string. */
  function ProjClass(c: Class): ClassProj {
    ClassProj(c.classType, c.accessFlags, if c.superclass.None? then 0 else c.superclass.value, c.interfaces,
              if c.sourceFile.None? then [] else c.sourceFile.value, ProjDirectory(c.annotations), ProjData(c.data), ProjArray(c.staticValues))
  }

  method VerifyTypeList(a: Option<seq<UInt16>>, b: Option<seq<UInt16>>) returns (ok: bool)
    ensures ok <==> a == b
  {
    if a.None? || b.None? {
      return a.None? && b.None?;
    }
    if |a.value| != |b.value| {
      return false;
    }
    for i := 0 to |a.value|
      invariant forall j | 0 <= j < i :: a.value[j] == b.value[j]
    {
      if a.value[i] != b.value[i] {
        return false;
      }
    }
    assert a.value == b.value;
    ok := true;
  }

  method VerifyClassDef(a: Class, b: Class) returns (ok: bool)
    ensures ok <==> ProjClass(a) == ProjClass(b)
  {
    hide ProjDirectory, ProjData, ProjArray;
    if a.classType != b.classType || a.accessFlags != b.accessFlags {
      return false;
    }
    var aSuper := if a.superclass.None? then 0 else a.superclass.value;
    var bSuper := if b.superclass.None? then 0 else b.superclass.value;
    if aSuper != bSuper {
      return false;
    }
    ok := VerifyTypeList(a.interfaces, b.interfaces);
    if !ok {
      return;
    }
    var aSource := if a.sourceFile.None? then [] else a.sourceFile.value;
    var bSource := if b.sourceFile.None? then [] else b.sourceFile.value;
    if aSource != bSource {
      return false;
    }
    ok := VerifyAnnotationsDirectory(a.annotations, b.annotations);
    if !ok {
      return;
    }
    ok := VerifyClassData(a.data, b.data);
    if !ok {
      return;
    }
    ok := VerifyEncodedArray(a.staticValues, b.staticValues);
  }

  /** Two superclasses pass for the same if they are, or if one is missing and the other is type 0. */
  lemma SuperclassAcceptedIff(c: Class, p: Option<UInt16>, q: Option<UInt16>)
    ensures ProjClass(c.(superclass := p)) == ProjClass(c.(superclass := q))
            <==> p == q || (p == None && q == Some(0)) || (p == Some(0) && q == None)
  {
    hide ProjDirectory, ProjData, ProjArray;
  }

  /** Two source files pass for the same if they are, or if one is missing and the other is empty. */
  lemma SourceAcceptedIff(c: Class, p: Option<seq<Byte>>, q: Option<seq<Byte>>)
    ensures ProjClass(c.(sourceFile := p)) == ProjClass(c.(sourceFile := q))
            <==> p == q || (p == None && q == Some([])) || (p == Some([]) && q == None)
  {
    hide ProjDirectory, ProjData, ProjArray;
  }

  /** Strictly by class type. */
  predicate ByType(s: seq<Class>) {
    forall i, j | 0 <= i < j < |s| :: s[i].classType < s[j].classType
  }

  predicate UniqueTypes(s: seq<Class>) {
    forall i, j | 0 <= i < j < |s| :: s[i].classType != s[j].classType
  }

  /** A class in its place among classes ordered by type; the first class of a type stays. */
  function Inserted(s: seq<Class>, c: Class): seq<Class> {
    if s == [] then [c]
    else if s[0].classType < c.classType then [s[0]] + Inserted(s[1..], c)
    else if s[0].classType == c.classType then s
    else [c] + s
  }

  /** The set ordered by class type that a list of classes is inserted into. */
  function Kept(s: seq<Class>): seq<Class> {
    if s == [] then [] else Inserted(Kept(s[..|s| - 1]), s[|s| - 1])
  }

  lemma {:induction false} InsertedIs(s: seq<Class>, c: Class)
    requires ByType(s)
    ensures ByType(Inserted(s, c))
    ensures forall x :: x in Inserted(s, c) <==> x in s || (x == c && forall y | y in s :: y.classType != c.classType)
  {
    if s != [] {
      assert s == [s[0]] + s[1..];
      if s[0].classType < c.classType {
        InsertedIs(s[1..], c);
        InsertedAbove(s, c);
      } else if s[0].classType > c.classType {
        forall y | y in s ensures y.classType != c.classType {}
      } else {
        assert s[0] in s;
      }
    }
  }

  lemma InsertedAbove(s: seq<Class>, c: Class)
    requires ByType(s) && s != [] && s[0].classType < c.classType
    requires ByType(Inserted(s[1..], c)) && forall x | x in Inserted(s[1..], c) :: x in s[1..] || x == c
    ensures ByType([s[0]] + Inserted(s[1..], c))
  {
    var t := Inserted(s[1..], c);
    forall j | 0 <= j < |t| ensures s[0].classType < t[j].classType { assert t[j] in t; }
  }

  /** The first class of its type in a list. */
  predicate IsFirst(s: seq<Class>, x: Class) {
    exists i | 0 <= i < |s| :: s[i] == x && forall j | 0 <= j < i :: s[j].classType != x.classType
  }

  /** What is kept of a list: the first class of each type, in the order of the types. */
  lemma {:induction false} KeptIs(s: seq<Class>)
    ensures ByType(Kept(s)) && forall x :: x in Kept(s) <==> IsFirst(s, x)
  {
    if s != [] {
      hide ByType, IsFirst, Inserted;
      var t, c := s[..|s| - 1], s[|s| - 1];
      KeptIs(t);
      InsertedIs(Kept(t), c);
      forall x ensures x in Kept(s) <==> IsFirst(s, x) { FirstOfMore(s, x); }
    } else {
      NoneByType();
    }
  }

  lemma FirstStays(t: seq<Class>, c: Class, x: Class)
    requires IsFirst(t, x)
    ensures IsFirst(t + [c], x)
  {
    var i :| 0 <= i < |t| && t[i] == x && forall j | 0 <= j < i :: t[j].classType != x.classType;
    var s := t + [c];
    assert s[i] == x && forall j | 0 <= j < i :: s[j].classType != x.classType;
  }

  lemma FirstOfNewType(t: seq<Class>, c: Class)
    requires forall y | IsFirst(t, y) :: y.classType != c.classType
    ensures IsFirst(t + [c], c)
  {
    var s := t + [c];
    forall j | 0 <= j < |t| ensures s[j].classType != c.classType { var y := TypeHasFirst(t, j); }
    assert s[|t|] == c;
  }

  lemma FirstCameFrom(t: seq<Class>, c: Class, x: Class)
    requires IsFirst(t + [c], x)
    ensures IsFirst(t, x) || (x == c && forall y | IsFirst(t, y) :: y.classType != c.classType)
  {
    var s := t + [c];
    var i :| 0 <= i < |s| && s[i] == x && forall j | 0 <= j < i :: s[j].classType != x.classType;
    if i < |t| {
      assert t[i] == s[i] && forall j | 0 <= j < i :: t[j] == s[j];
    } else {
      forall y | IsFirst(t, y) ensures y.classType != c.classType {
        var k :| 0 <= k < |t| && t[k] == y;
        assert s[k] == y;
      }
    }
  }

  lemma FirstOfMore(s: seq<Class>, x: Class)
    requires s != []
    ensures var t, c := s[..|s| - 1], s[|s| - 1];
            IsFirst(s, x) <==> IsFirst(t, x) || (x == c && forall y | IsFirst(t, y) :: y.classType != c.classType)
  {
    hide IsFirst;
    var t, c := s[..|s| - 1], s[|s| - 1];
    assert s == t + [c];
    if IsFirst(t, x) {
      FirstStays(t, c, x);
    } else if IsFirst(s, x) {
      FirstCameFrom(t, c, x);
    } else if x == c && forall y | IsFirst(t, y) :: y.classType != c.classType {
      FirstOfNewType(t, c);
    }
  }

  lemma {:induction false} TypeHasFirst(s: seq<Class>, j: nat) returns (y: Class)
    requires j < |s|
    ensures IsFirst(s, y) && y.classType == s[j].classType
  {
    if k :| 0 <= k < j && s[k].classType == s[j].classType {
      y := TypeHasFirst(s, k);
    } else {
      y := s[j];
    }
  }

  /** With one class of each type, all are kept. */
  lemma UniqueAreFirst(s: seq<Class>)
    requires UniqueTypes(s)
    ensures forall x :: x in s <==> IsFirst(s, x)
  {
    forall x | x in s ensures IsFirst(s, x) { var i :| 0 <= i < |s| && s[i] == x; }
  }

  lemma InsertedStep(s: seq<Class>, c: Class)
    ensures s == [] ==> Inserted(s, c) == [c]
    ensures s != [] && s[0].classType < c.classType ==> Inserted(s, c) == [s[0]] + Inserted(s[1..], c)
    ensures s != [] && s[0].classType == c.classType ==> Inserted(s, c) == s
    ensures s != [] && s[0].classType > c.classType ==> Inserted(s, c) == [c] + s
  {
  }

  lemma InsertedPast(s: seq<Class>, c: Class, i: nat)
    requires i < |s| && s[i].classType < c.classType
    ensures s[..i] + Inserted(s[i..], c) == s[..i + 1] + Inserted(s[i + 1..], c)
  {
    hide Inserted;
    InsertedStep(s[i..], c);
    var tail := Inserted(s[i + 1..], c);
    assert s[i..][1..] == s[i + 1..];
    assert s[..i + 1] == s[..i] + [s[i]];
    assert s[..i] + ([s[i]] + tail) == s[..i] + [s[i]] + tail;
  }

  lemma InsertedHere(s: seq<Class>, c: Class, i: nat)
    requires i <= |s| && (i < |s| ==> s[i].classType >= c.classType)
    ensures s[..i] + Inserted(s[i..], c) == if i < |s| && s[i].classType == c.classType then s else s[..i] + [c] + s[i..]
  {
    hide Inserted;
    InsertedStep(s[i..], c);
    assert s[..i] + s[i..] == s;
    assert s[..i] + ([c] + s[i..]) == s[..i] + [c] + s[i..];
    assert s[i..] == [] ==> s[..i] + [c] + s[i..] == s[..i] + [c];
  }

  /** `insert` into a set ordered by class type. */
  method InsertClass(s: seq<Class>, c: Class) returns (r: seq<Class>)
    ensures r == Inserted(s, c)
  {
    hide Inserted;
    var i := 0;
    assert s[0..] == s && s[..0] == [] && [] + Inserted(s, c) == Inserted(s, c);
    while i < |s| && s[i].classType < c.classType
      invariant i <= |s| && Inserted(s, c) == s[..i] + Inserted(s[i..], c)
    {
      InsertedPast(s, c, i);
      i := i + 1;
    }
    InsertedHere(s, c, i);
    if i < |s| && s[i].classType == c.classType {
      return s;
    }
    r := s[..i] + [c] + s[i..];
  }

  function ProjClasses(s: seq<Class>): (r: seq<ClassProj>)
    ensures |r| == |s| && forall i | 0 <= i < |r| :: r[i] == ProjClass(s[i])
  {
    seq(|s|, i requires 0 <= i < |s| => ProjClass(s[i]))
  }

  /** What is compared of the classes: their projections, in no order. */
  function ClassSet(s: seq<Class>): set<ClassProj> {
    set p | p in ProjClasses(s)
  }

  predicate Sorted(ps: seq<ClassProj>) {
    forall i, j | 0 <= i < j < |ps| :: ps[i].classType < ps[j].classType
  }

  lemma SameHead(ps: seq<ClassProj>, qs: seq<ClassProj>)
    requires Sorted(ps) && Sorted(qs) && ps != [] && qs != [] && ps[0] in qs && qs[0] in ps
    ensures ps[0] == qs[0]
  {
    var i :| 0 <= i < |qs| && qs[i] == ps[0];
    var j :| 0 <= j < |ps| && ps[j] == qs[0];
  }

  lemma TailsAgree(ps: seq<ClassProj>, qs: seq<ClassProj>)
    requires Sorted(ps) && Sorted(qs) && ps != [] && qs != [] && ps[0] == qs[0] && forall x :: x in ps <==> x in qs
    ensures Sorted(ps[1..]) && Sorted(qs[1..]) && forall x :: x in ps[1..] <==> x in qs[1..]
  {
    forall x ensures x in ps[1..] <==> x in qs[1..] {
      InTail(ps, x);
      InTail(qs, x);
    }
  }

  lemma InTail(ps: seq<ClassProj>, x: ClassProj)
    requires Sorted(ps) && ps != []
    ensures x in ps[1..] <==> x in ps && x != ps[0]
  {
    assert ps == [ps[0]] + ps[1..];
  }

  lemma HasMember(ps: seq<ClassProj>)
    ensures ps != [] ==> exists x :: x in ps
  {
    if ps != [] { assert ps[0] in ps; }
  }

  /** Sorted lists with the same members are equal. */
  lemma {:induction false} SortedAgree(ps: seq<ClassProj>, qs: seq<ClassProj>)
    requires Sorted(ps) && Sorted(qs) && forall x :: x in ps <==> x in qs
    ensures ps == qs
  {
    hide Sorted;
    HasMember(ps);
    HasMember(qs);
    if ps != [] {
      assert ps[0] in qs;
      assert qs[0] in ps;
      SameHead(ps, qs);
      TailsAgree(ps, qs);
      SortedAgree(ps[1..], qs[1..]);
      assert ps == [ps[0]] + ps[1..] && qs == [qs[0]] + qs[1..];
    }
  }

  /** All classes of a list, inserted one after the other. */
  method SortClasses(s: seq<Class>) returns (r: seq<Class>)
    ensures r == Kept(s)
  {
    hide Inserted;
    r := [];
    for i := 0 to |s|
      invariant r == Kept(s[..i])
    {
      assert s[..i + 1][..i] == s[..i];
      r := InsertClass(r, s[i]);
    }
    assert s[..|s|] == s;
  }

  lemma NoneByType()
    ensures ByType([])
  {
  }

  /** The zip of the two ordered sets, which stops at the end of the shorter one. */
  method CompareSorted(a: seq<Class>, b: seq<Class>) returns (ok: bool)
    ensures ok <==> ProjClasses(a) <= ProjClasses(b) || ProjClasses(b) <= ProjClasses(a)
  {
    hide ProjClass;
    var i := 0;
    while i < |a| && i < |b|
      invariant i <= |a| && i <= |b| && forall j | 0 <= j < i :: ProjClasses(a)[j] == ProjClasses(b)[j]
    {
      var same := VerifyClassDef(a[i], b[i]);
      if !same {
        assert ProjClasses(a)[i] != ProjClasses(b)[i];
        return false;
      }
      i := i + 1;
    }
    ok := true;
  }

  lemma ProjSorted(s: seq<Class>)
    requires ByType(s)
    ensures Sorted(ProjClasses(s))
  {
    forall i | 0 <= i < |s| ensures ProjClasses(s)[i].classType == s[i].classType { assert ProjClasses(s)[i] == ProjClass(s[i]); }
  }

  lemma SameMembers(s: seq<Class>, r: seq<Class>)
    requires forall x :: x in r <==> x in s
    ensures forall p :: p in ProjClasses(s) <==> p in ProjClasses(r)
  {
    hide ProjClass;
    forall p ensures p in ProjClasses(s) <==> p in ProjClasses(r) {
      if p in ProjClasses(s) {
        var i :| 0 <= i < |s| && ProjClasses(s)[i] == p;
        assert s[i] in r;
        var j :| 0 <= j < |r| && r[j] == s[i];
        assert ProjClasses(r)[j] == p;
      }
      if p in ProjClasses(r) {
        var i :| 0 <= i < |r| && ProjClasses(r)[i] == p;
        assert r[i] in s;
        var j :| 0 <= j < |s| && s[j] == r[i];
        assert ProjClasses(s)[j] == p;
      }
    }
  }

  /** Comparing in order of type is comparing the sets of classes. */
  lemma SortedIffSets(a: seq<Class>, b: seq<Class>, sa: seq<Class>, sb: seq<Class>)
    requires ByType(sa) && ByType(sb) && (forall x :: x in sa <==> x in a) && (forall x :: x in sb <==> x in b)
    ensures ProjClasses(sa) == ProjClasses(sb) <==> ClassSet(a) == ClassSet(b)
  {
    hide ProjClasses, Sorted, ByType;
    SameMembers(a, sa);
    SameMembers(b, sb);
    ProjSorted(sa);
    ProjSorted(sb);
    if ClassSet(a) == ClassSet(b) {
      forall p ensures p in ProjClasses(sa) <==> p in ProjClasses(sb) {
        assert p in ProjClasses(a) <==> p in ClassSet(a);
        assert p in ProjClasses(b) <==> p in ClassSet(b);
      }
      SortedAgree(ProjClasses(sa), ProjClasses(sb));
    }
  }

  /** What is accepted of the classes: as many of them, and the kept ones equal as far as both go. */
  predicate SameClasses(a: seq<Class>, b: seq<Class>) {
    |a| == |b| && (ProjClasses(Kept(a)) <= ProjClasses(Kept(b)) || ProjClasses(Kept(b)) <= ProjClasses(Kept(a)))
  }

  method VerifyClassDefs(a: seq<Class>, b: seq<Class>) returns (ok: bool)
    ensures ok <==> SameClasses(a, b)
  {
    hide Kept, ProjClasses;
    var sa := SortClasses(a);
    var sb := SortClasses(b);
    if |a| != |b| {
      return false;
    }
    ok := CompareSorted(sa, sb);
  }

  function Gathered(s: seq<Class>): (r: set<Class>)
    ensures forall x :: x in r <==> x in s
  {
    if s == [] then {}
    else
      assert s == s[..|s| - 1] + [s[|s| - 1]];
      Gathered(s[..|s| - 1]) + {s[|s| - 1]}
  }

  lemma {:induction false} UniqueSize(s: seq<Class>)
    requires UniqueTypes(s)
    ensures |Gathered(s)| == |s|
  {
    if s != [] {
      UniqueSize(s[..|s| - 1]);
      assert s[|s| - 1] !in s[..|s| - 1];
    }
  }

  lemma ByTypeSize(s: seq<Class>, r: seq<Class>)
    requires UniqueTypes(s) && UniqueTypes(r) && forall x :: x in r <==> x in s
    ensures |r| == |s|
  {
    hide Gathered;
    UniqueSize(s);
    UniqueSize(r);
    assert Gathered(s) == Gathered(r);
  }

  /** With one class of each type on both sides, exactly the same classes, in any order, are accepted. */
  lemma UniqueClasses(a: seq<Class>, b: seq<Class>)
    requires UniqueTypes(a) && UniqueTypes(b)
    ensures SameClasses(a, b) <==> ClassSet(a) == ClassSet(b)
  {
    hide Kept, ProjClasses, ClassSet, IsFirst;
    KeptIs(a);
    KeptIs(b);
    UniqueAreFirst(a);
    UniqueAreFirst(b);
    ByTypeSize(a, Kept(a));
    ByTypeSize(b, Kept(b));
    SortedIffSets(a, b, Kept(a), Kept(b));
    var p, q := ProjClasses(Kept(a)), ProjClasses(Kept(b));
    assert |p| == |q| ==> ((p <= q || q <= p) <==> p == q);
  }

  /** A second class of a type is not looked at: it passes for any class of a higher type. */
  lemma SecondOfTypePasses(c: Class, again: Class, d: Class)
    requires again.classType == c.classType < d.classType
    ensures SameClasses([c, again], [c, d])
    ensures ClassSet([c, again]) != ClassSet([c, d])
  {
    hide ProjClass;
    assert [c, again][..1] == [c] && [c, d][..1] == [c] && [c][..0] == [];
    assert [c][1..] == [] && Inserted([], d) == [d];
    assert Kept([c]) == [c];
    assert Kept([c, again]) == Inserted([c], again) == [c];
    assert Kept([c, d]) == Inserted([c], d) == [c] + [d] == [c, d];
    var p, q := ProjClasses([c]), ProjClasses([c, d]);
    assert p[0] == q[0];
    assert ProjClasses([c, d])[1] == ProjClass(d) && ProjClass(d) in ClassSet([c, d]);
    TypeKept(c);
    TypeKept(again);
    TypeKept(d);
    forall x | x in ClassSet([c, again]) ensures x != ProjClass(d) {
      var i :| 0 <= i < 2 && ProjClasses([c, again])[i] == x;
    }
  }

  lemma TypeKept(c: Class)
    ensures ProjClass(c).classType == c.classType
  {
  }

  // ------------------------------------------------------------------ the whole IR

  /** What the comparison sees of an IR: ids by position, classes with their pointers followed. */
  datatype View = View(
    strings: seq<seq<Byte>>, types: seq<UInt32>, protos: seq<(UInt32, UInt32)>, fields: seq<FieldId>, methods: seq<MethodId>, classes: seq<Class>)

  datatype Projection = Projection(
    strings: seq<seq<Byte>>, types: seq<UInt32>, protos: seq<(UInt32, UInt32)>, fields: seq<FieldId>, methods: seq<MethodId>, classes: set<ClassProj>)

  function Project(v: View): Projection {
    Projection(v.strings, v.types, v.protos, v.fields, v.methods, ClassSet(v.classes))
  }

  predicate SameIds(a: View, b: View) {
    a.strings == b.strings && a.types == b.types && a.protos == b.protos && a.fields == b.fields && a.methods == b.methods
  }

  // The IR, its pointers followed.

  function SetOf(ir: Header, i: Option<nat>): Option<seq<AnnotationItem>> {
    if i.None? || i.value >= |ir.annotationSets| || !GoodSet(ir, ir.annotationSets[i.value]) then None
    else Some(ItemsOf(ir, ir.annotationSets[i.value]))
  }

  function SetsOf(ir: Header, refs: seq<Option<nat>>): (r: seq<Option<seq<AnnotationItem>>>)
    ensures |r| == |refs|
  {
    seq(|refs|, i requires 0 <= i < |refs| => SetOf(ir, refs[i]))
  }

  function MembersIn(ir: Header, ms: Option<seq<MemberAnnotation>>): Option<seq<Member>> {
    if ms.None? then None
    else Some(seq(|ms.value|, i requires 0 <= i < |ms.value| => Member(ms.value[i].member, [SetOf(ir, Some(ms.value[i].set_))])))
  }

  function ParametersIn(ir: Header, ms: Option<seq<MemberAnnotation>>): Option<seq<Member>> {
    if ms.None? then None
    else Some(seq(|ms.value|, i requires 0 <= i < |ms.value| =>
                Member(ms.value[i].member, if ms.value[i].set_ < |ir.annotationSetRefs| then SetsOf(ir, ir.annotationSetRefs[ms.value[i].set_]) else [])))
  }

  function DirectoryOf(ir: Header, i: Option<nat>): Option<Directory> {
    if i.None? || i.value >= |ir.annotationDirs| then None
    else
      var d := ir.annotationDirs[i.value];
      Some(Directory(SetOf(ir, d.classAnnotation), MembersIn(ir, d.fields), MembersIn(ir, d.methods), ParametersIn(ir, d.parameters)))
  }

  function ClausesOf(hs: seq<CatchHandler>): seq<seq<TypeAddrPair>> {
    seq(|hs|, i requires 0 <= i < |hs| => hs[i].handlers)
  }

  function TriesOf(c: CodeItem): seq<Try> {
    seq(|c.tries|, i requires 0 <= i < |c.tries| =>
      Try(c.tries[i].startAddr, c.tries[i].insnCount, if c.tries[i].handler < |c.handlers| then c.handlers[c.tries[i].handler].handlers else []))
  }

  function CodeOf(ir: Header, i: Option<nat>): Option<Code> {
    if i.None? || i.value >= |ir.codeItems| then None
    else
      var c := ir.codeItems[i.value];
      Some(Code(c.registersSize, c.insSize, c.outsSize,
                if c.debugInfo.None? || c.debugInfo.value >= |ir.debugInfos| then None else Some(ir.debugInfos[c.debugInfo.value]),
                c.insns,
                if c.tries == [] then None else Some(TriesOf(c)),
                if c.tries == [] && c.handlers == [] then None else Some(ClausesOf(c.handlers))))
  }

  function MethodsOf(ir: Header, ms: seq<MethodItem>): seq<Method> {
    seq(|ms|, i requires 0 <= i < |ms| => Method(ms[i].method_, ms[i].accessFlags, CodeOf(ir, ms[i].code)))
  }

  function DataOf(ir: Header, i: Option<nat>): Option<Data> {
    if i.None? || i.value >= |ir.classDatas| then None
    else
      var d := ir.classDatas[i.value];
      Some(Data(d.staticFields, d.instanceFields, MethodsOf(ir, d.directMethods), MethodsOf(ir, d.virtualMethods)))
  }

  function StringOf(ir: Header, i: nat): seq<Byte> {
    if i < |ir.stringIds| && ir.stringIds[i] < |ir.stringDatas| then ir.stringDatas[ir.stringIds[i]] else []
  }

  function ClassOf(ir: Header, c: ClassDef): Class {
    Class(c.classType, c.accessFlags, c.superclass,
          if c.interfaces.None? || c.interfaces.value >= |ir.typeLists| then None else Some(ir.typeLists[c.interfaces.value]),
          if c.sourceFile.None? then None else Some(StringOf(ir, c.sourceFile.value)),
          DirectoryOf(ir, c.annotations), DataOf(ir, c.classData),
          if c.staticValues.None? || c.staticValues.value >= |ir.encodedArrays| then None else Some(ir.encodedArrays[c.staticValues.value]))
  }

  function ViewOf(ir: Header): View {
    View(seq(|ir.stringIds|, i requires 0 <= i < |ir.stringIds| => StringOf(ir, i)),
         ir.typeIds,
         seq(|ir.protoIds|, i requires 0 <= i < |ir.protoIds| => (ir.protoIds[i].shorty, ir.protoIds[i].returnType)),
         ir.fieldIds, ir.methodIds,
         seq(|ir.classDefs|, i requires 0 <= i < |ir.classDefs| => ClassOf(ir, ir.classDefs[i])))
  }

  /** `VerifyIds`: element by element, and then the lengths. */
  method VerifyIds<T(==)>(a: seq<T>, b: seq<T>) returns (ok: bool)
    ensures ok <==> a == b
  {
    var i := 0;
    while i < |a| && i < |b|
      invariant i <= |a| && i <= |b| && a[..i] == b[..i]
    {
      if a[i] != b[i] {
        return false;
      }
      i := i + 1;
    }
    if i != |a| || i != |b| {
      return false;
    }
    assert a[..i] == a && b[..i] == b;
    ok := true;
  }

  /**
    * `VerifyOutputDexFile`: the ids must be equal and the classes accepted; with one class of each
    * type that is exactly an equal projection. A mismatch of proto parameters only sets the error
    * message, so prototypes are pairs.
    */
  method VerifyOutputDexFile(orig: Header, output: Header) returns (ok: bool)
    ensures var a, b := ViewOf(orig), ViewOf(output);
            && (ok <==> SameIds(a, b) && SameClasses(a.classes, b.classes))
            && (UniqueTypes(a.classes) && UniqueTypes(b.classes) ==> (ok <==> Project(a) == Project(b)))
  {
    hide ClassSet, UniqueTypes, ViewOf, SameClasses;
    var a, b := ViewOf(orig), ViewOf(output);
    if UniqueTypes(a.classes) && UniqueTypes(b.classes) { UniqueClasses(a.classes, b.classes); }
    ok := VerifyIds(a.strings, b.strings);
    if !ok {
      return;
    }
    ok := VerifyIds(a.types, b.types);
    if !ok {
      return;
    }
    ok := VerifyIds(a.protos, b.protos);
    if !ok {
      return;
    }
    ok := VerifyIds(a.fields, b.fields);
    if !ok {
      return;
    }
    ok := VerifyIds(a.methods, b.methods);
    if !ok {
      return;
    }
    ok := VerifyClassDefs(a.classes, b.classes);
  }

  lemma MembersWithoutProtos(ir: Header, ps: seq<ProtoId>, ms: Option<seq<MemberAnnotation>>)
    ensures MembersIn(ir.(protoIds := ps), ms) == MembersIn(ir, ms)
    ensures ParametersIn(ir.(protoIds := ps), ms) == ParametersIn(ir, ms)
  {
    var ir' := ir.(protoIds := ps);
    forall x: Option<nat> ensures SetOf(ir', x) == SetOf(ir, x) { SetWithoutProtos(ir, ps, x); }
    hide SetOf;
    if ms.Some? {
      forall refs: seq<Option<nat>> ensures SetsOf(ir', refs) == SetsOf(ir, refs) {}
      assert MembersIn(ir', ms).value == MembersIn(ir, ms).value;
      assert ParametersIn(ir', ms).value == ParametersIn(ir, ms).value;
    }
  }

  lemma DirectoryWithoutProtos(ir: Header, ps: seq<ProtoId>, i: Option<nat>)
    ensures DirectoryOf(ir.(protoIds := ps), i) == DirectoryOf(ir, i)
  {
    hide SetOf, MembersIn, ParametersIn;
    if i.Some? && i.value < |ir.annotationDirs| {
      var d := ir.annotationDirs[i.value];
      SetWithoutProtos(ir, ps, d.classAnnotation);
      MembersWithoutProtos(ir, ps, d.fields);
      MembersWithoutProtos(ir, ps, d.methods);
      MembersWithoutProtos(ir, ps, d.parameters);
    }
  }

  lemma SetWithoutProtos(ir: Header, ps: seq<ProtoId>, i: Option<nat>)
    ensures SetOf(ir.(protoIds := ps), i) == SetOf(ir, i)
  {
  }

  lemma DataWithoutProtos(ir: Header, ps: seq<ProtoId>, i: Option<nat>)
    ensures DataOf(ir.(protoIds := ps), i) == DataOf(ir, i)
  {
    forall x: Option<nat> ensures CodeOf(ir.(protoIds := ps), x) == CodeOf(ir, x) { CodeWithoutProtos(ir, ps, x); }
    hide CodeOf;
    forall ms: seq<MethodItem> ensures MethodsOf(ir.(protoIds := ps), ms) == MethodsOf(ir, ms) {}
  }

  lemma CodeWithoutProtos(ir: Header, ps: seq<ProtoId>, i: Option<nat>)
    ensures CodeOf(ir.(protoIds := ps), i) == CodeOf(ir, i)
  {
    hide TriesOf, ClausesOf;
  }

  lemma ClassWithoutProtos(ir: Header, ps: seq<ProtoId>, c: ClassDef)
    ensures ClassOf(ir.(protoIds := ps), c) == ClassOf(ir, c)
  {
    DirectoryWithoutProtos(ir, ps, c.annotations);
    DataWithoutProtos(ir, ps, c.classData);
    hide DirectoryOf, DataOf;
  }

  /** Two lists of prototypes pass for the same exactly when they agree but for the parameters. */
  lemma ProtosAcceptedIff(ir: Header, ps: seq<ProtoId>)
    ensures ViewOf(ir) == ViewOf(ir.(protoIds := ps))
            <==> |ps| == |ir.protoIds| && forall i | 0 <= i < |ps| :: ps[i].shorty == ir.protoIds[i].shorty && ps[i].returnType == ir.protoIds[i].returnType
  {
    var a, b := ViewOf(ir), ViewOf(ir.(protoIds := ps));
    forall i | 0 <= i < |ir.classDefs| ensures a.classes[i] == b.classes[i] { ClassWithoutProtos(ir, ps, ir.classDefs[i]); }
    hide ClassOf;
    assert a.classes == b.classes && a.strings == b.strings;
    if a.protos == b.protos {
      forall i | 0 <= i < |ps| ensures ps[i].shorty == ir.protoIds[i].shorty && ps[i].returnType == ir.protoIds[i].returnType {
        assert a.protos[i] == b.protos[i];
      }
    }
  }

  /** Two indices inside values pass for the same if they are, or if they are of a kind that is not looked at. */
  lemma IndexAcceptedIff(k: IndexKind, x: UInt32, y: UInt32)
    ensures ProjValue(IndexValue(k, x)) == ProjValue(IndexValue(k, y))
            <==> x == y || k == IndexKind.MethodType || k == IndexKind.MethodHandle
  {
  }

  /** The order of the classes does not matter. */
  lemma OrderDoesNotMatter(v: View, classes: seq<Class>)
    requires forall c :: c in classes <==> c in v.classes
    ensures Project(v.(classes := classes)) == Project(v)
  {
    hide ProjClasses;
    SameMembers(v.classes, classes);
    assert ClassSet(classes) == ClassSet(v.classes);
  }
}
