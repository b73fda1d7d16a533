/**
  * What the comparison of two IRs accepts, said of the IRs themselves: a relation that follows the
  * pointers of both side by side.
  */
module DexVerifyMeaning {
  import opened Bytes
  import opened EncodedValues
  import opened DexIr
  import opened Items
  import opened DexVerify

  // ------------------------------------------------------------------ values

  /** The same value, but for the indices of method types and method handles. */
  predicate SameValue(v: EncodedValue, w: EncodedValue)
    decreases v
  {
    match v
    case ArrayValue(vs) => w.ArrayValue? && |vs| == |w.values| && forall i | 0 <= i < |vs| :: SameValue(vs[i], w.values[i])
    case AnnotationValue(x) => w.AnnotationValue? && SameAnnotation(x, w.annotation)
    case IndexValue(kind, index) =>
      w.IndexValue? && w.kind == kind && (w.index == index || kind == IndexKind.MethodType || kind == IndexKind.MethodHandle)
    case _ => v == w
  }

  /** The same type and, name by name, the same values. */
  predicate SameAnnotation(x: EncodedAnnotation, y: EncodedAnnotation)
    decreases x
  {
    && x.typeIdx == y.typeIdx && |x.elements| == |y.elements|
    && forall i | 0 <= i < |x.elements| :: x.elements[i].name == y.elements[i].name && SameValue(x.elements[i].value, y.elements[i].value)
  }

  predicate SameValues(vs: seq<EncodedValue>, ws: seq<EncodedValue>) {
    |vs| == |ws| && forall i | 0 <= i < |vs| :: SameValue(vs[i], ws[i])
  }

  lemma {:induction false} ValueIff(v: EncodedValue, w: EncodedValue)
    ensures SameValue(v, w) <==> ProjValue(v) == ProjValue(w)
    decreases v
  {
    if v.ArrayValue? && w.ArrayValue? && |v.values| == |w.values| {
      forall i | 0 <= i < |v.values|
        ensures SameValue(v.values[i], w.values[i]) <==> ProjValues(v.values)[i] == ProjValues(w.values)[i]
      {
        ValueIff(v.values[i], w.values[i]);
        ProjValuesAt(v.values, i);
        ProjValuesAt(w.values, i);
      }
      hide ProjValues;
      assert ProjValues(v.values) == ProjValues(w.values) <==> forall i | 0 <= i < |v.values| :: ProjValues(v.values)[i] == ProjValues(w.values)[i];
    } else if v.AnnotationValue? && w.AnnotationValue? {
      AnnotationIff(v.annotation, w.annotation);
    }
  }

  lemma {:induction false} AnnotationIff(x: EncodedAnnotation, y: EncodedAnnotation)
    ensures SameAnnotation(x, y) <==> ProjAnnotation(x) == ProjAnnotation(y)
    decreases x
  {
    var es, fs := x.elements, y.elements;
    if |es| == |fs| {
      forall i | 0 <= i < |es|
        ensures es[i].name == fs[i].name && SameValue(es[i].value, fs[i].value) <==> ProjElements(es)[i] == ProjElements(fs)[i]
      {
        ValueIff(es[i].value, fs[i].value);
        ProjElementsAt(es, i);
        ProjElementsAt(fs, i);
      }
      hide ProjElements, SameValue;
      assert ProjElements(es) == ProjElements(fs) <==> forall i | 0 <= i < |es| :: ProjElements(es)[i] == ProjElements(fs)[i];
    }
  }

  lemma ValuesIff(vs: seq<EncodedValue>, ws: seq<EncodedValue>)
    ensures SameValues(vs, ws) <==> ProjValues(vs) == ProjValues(ws)
  {
    hide SameValue, ProjValues;
    if |vs| == |ws| {
      forall i | 0 <= i < |vs| ensures SameValue(vs[i], ws[i]) <==> ProjValues(vs)[i] == ProjValues(ws)[i] {
        ValueIff(vs[i], ws[i]);
        ProjValuesAt(vs, i);
        ProjValuesAt(ws, i);
      }
      assert ProjValues(vs) == ProjValues(ws) <==> forall i | 0 <= i < |vs| :: ProjValues(vs)[i] == ProjValues(ws)[i];
    }
  }

  // ------------------------------------------------------------------ annotations

  /** Two pointers that are both null, or both point somewhere. */
  predicate BothOrNone(p: Option<nat>, n: nat, q: Option<nat>, m: nat) {
    (p.None? && q.None?) || (p.Some? && q.Some? && p.value < n && q.value < m)
  }

  predicate SameItem(x: AnnotationItem, y: AnnotationItem) {
    x.visibility == y.visibility && SameAnnotation(x.annotation, y.annotation)
  }

  /** Two annotation sets: both missing, or the same annotations in the same order. */
  predicate SameSet(a: Header, p: Option<nat>, b: Header, q: Option<nat>)
    requires WellFormed(a) && WellFormed(b)
  {
    && BothOrNone(p, |a.annotationSets|, q, |b.annotationSets|)
    && (p.Some? ==>
          var s, t := a.annotationSets[p.value], b.annotationSets[q.value];
          && |s| == |t|
          && forall i | 0 <= i < |s| ::
               s[i] < |a.annotations| && t[i] < |b.annotations| && SameItem(a.annotations[s[i]], b.annotations[t[i]]))
  }

  lemma SetIff(a: Header, p: Option<nat>, b: Header, q: Option<nat>)
    requires WellFormed(a) && WellFormed(b) && OptionBelow(p, |a.annotationSets|) && OptionBelow(q, |b.annotationSets|)
    ensures SameSet(a, p, b, q) <==> ProjSet(SetOf(a, p)) == ProjSet(SetOf(b, q))
  {
    hide SameAnnotation, ProjAnnotation;
    if p.Some? && q.Some? {
      assert GoodSet(a, a.annotationSets[p.value]) && GoodSet(b, b.annotationSets[q.value]);
      var s, t := a.annotationSets[p.value], b.annotationSets[q.value];
      hide WellFormed;
      var x, y := ProjItems(ItemsOf(a, s)), ProjItems(ItemsOf(b, t));
      if |s| == |t| {
        forall i | 0 <= i < |s| ensures SameItem(a.annotations[s[i]], b.annotations[t[i]]) <==> x[i] == y[i] {
          AnnotationIff(a.annotations[s[i]].annotation, b.annotations[t[i]].annotation);
        }
        assert x == y <==> forall i | 0 <= i < |s| :: x[i] == y[i];
      }
    }
  }

  /** Two lists of annotation sets, element by element. */
  predicate SameRefs(a: Header, i: nat, b: Header, j: nat)
    requires WellFormed(a) && WellFormed(b)
  {
    && i < |a.annotationSetRefs| && j < |b.annotationSetRefs|
    && var r, t := a.annotationSetRefs[i], b.annotationSetRefs[j];
       |r| == |t| && forall k | 0 <= k < |r| :: SameSet(a, r[k], b, t[k])
  }

  lemma RefsIff(a: Header, i: nat, b: Header, j: nat)
    requires WellFormed(a) && WellFormed(b) && i < |a.annotationSetRefs| && j < |b.annotationSetRefs|
    ensures SameRefs(a, i, b, j) <==> ProjSets(SetsOf(a, a.annotationSetRefs[i])) == ProjSets(SetsOf(b, b.annotationSetRefs[j]))
  {
    assert GoodSetRefs(a, a.annotationSetRefs[i]) && GoodSetRefs(b, b.annotationSetRefs[j]);
    hide SameSet, ProjSet, SetOf, WellFormed;
    var r, t := a.annotationSetRefs[i], b.annotationSetRefs[j];
    var x, y := ProjSets(SetsOf(a, r)), ProjSets(SetsOf(b, t));
    if |r| == |t| {
      forall k | 0 <= k < |r| ensures SameSet(a, r[k], b, t[k]) <==> x[k] == y[k] { SetIff(a, r[k], b, t[k]); }
      assert x == y <==> forall k | 0 <= k < |r| :: x[k] == y[k];
    }
  }

  /** The annotated fields or methods: both lists missing, or the same members with the same sets. */
  predicate SameMembers(a: Header, ms: Option<seq<MemberAnnotation>>, b: Header, ns: Option<seq<MemberAnnotation>>)
    requires WellFormed(a) && WellFormed(b)
  {
    || (ms.None? && ns.None?)
    || (&& ms.Some? && ns.Some? && |ms.value| == |ns.value|
        && forall i | 0 <= i < |ms.value| ::
             ms.value[i].member == ns.value[i].member && SameSet(a, Some(ms.value[i].set_), b, Some(ns.value[i].set_)))
  }

  lemma MembersIff(a: Header, ms: Option<seq<MemberAnnotation>>, b: Header, ns: Option<seq<MemberAnnotation>>)
    requires WellFormed(a) && WellFormed(b) && MembersBelow(ms, |a.annotationSets|) && MembersBelow(ns, |b.annotationSets|)
    ensures SameMembers(a, ms, b, ns) <==> ProjMembersOf(MembersIn(a, ms)) == ProjMembersOf(MembersIn(b, ns))
  {
    hide SameSet, ProjSet, SetOf, WellFormed;
    if ms.Some? && ns.Some? && |ms.value| == |ns.value| {
      var x, y := ProjMembers(MembersIn(a, ms).value), ProjMembers(MembersIn(b, ns).value);
      forall i | 0 <= i < |ms.value|
        ensures ms.value[i].member == ns.value[i].member && SameSet(a, Some(ms.value[i].set_), b, Some(ns.value[i].set_)) <==> x[i] == y[i]
      {
        SetIff(a, Some(ms.value[i].set_), b, Some(ns.value[i].set_));
        OneSet(SetOf(a, Some(ms.value[i].set_)), SetOf(b, Some(ns.value[i].set_)));
      }
      assert x == y <==> forall i | 0 <= i < |ms.value| :: x[i] == y[i];
    }
  }

  lemma OneSet(s: Option<seq<AnnotationItem>>, t: Option<seq<AnnotationItem>>)
    ensures ProjSets([s]) == ProjSets([t]) <==> ProjSet(s) == ProjSet(t)
  {
    hide ProjSet;
    if ProjSets([s]) == ProjSets([t]) {
      assert ProjSets([s])[0] == ProjSets([t])[0];
    }
  }

  predicate SameParameters(a: Header, ms: Option<seq<MemberAnnotation>>, b: Header, ns: Option<seq<MemberAnnotation>>)
    requires WellFormed(a) && WellFormed(b)
  {
    || (ms.None? && ns.None?)
    || (&& ms.Some? && ns.Some? && |ms.value| == |ns.value|
        && forall i | 0 <= i < |ms.value| ::
             ms.value[i].member == ns.value[i].member && SameRefs(a, ms.value[i].set_, b, ns.value[i].set_))
  }

  lemma ParametersIff(a: Header, ms: Option<seq<MemberAnnotation>>, b: Header, ns: Option<seq<MemberAnnotation>>)
    requires WellFormed(a) && WellFormed(b) && MembersBelow(ms, |a.annotationSetRefs|) && MembersBelow(ns, |b.annotationSetRefs|)
    ensures SameParameters(a, ms, b, ns) <==> ProjMembersOf(ParametersIn(a, ms)) == ProjMembersOf(ParametersIn(b, ns))
  {
    hide SameRefs, ProjSets, SetsOf, WellFormed;
    if ms.Some? && ns.Some? && |ms.value| == |ns.value| {
      var x, y := ProjMembers(ParametersIn(a, ms).value), ProjMembers(ParametersIn(b, ns).value);
      forall i | 0 <= i < |ms.value|
        ensures ms.value[i].member == ns.value[i].member && SameRefs(a, ms.value[i].set_, b, ns.value[i].set_) <==> x[i] == y[i]
      {
        RefsIff(a, ms.value[i].set_, b, ns.value[i].set_);
      }
      assert x == y <==> forall i | 0 <= i < |ms.value| :: x[i] == y[i];
    }
  }

  predicate SameDirectory(a: Header, p: Option<nat>, b: Header, q: Option<nat>)
    requires WellFormed(a) && WellFormed(b)
  {
    && BothOrNone(p, |a.annotationDirs|, q, |b.annotationDirs|)
    && (p.Some? ==>
          var d, e := a.annotationDirs[p.value], b.annotationDirs[q.value];
          && SameSet(a, d.classAnnotation, b, e.classAnnotation)
          && SameMembers(a, d.fields, b, e.fields) && SameMembers(a, d.methods, b, e.methods)
          && SameParameters(a, d.parameters, b, e.parameters))
  }

  lemma DirectoryIff(a: Header, p: Option<nat>, b: Header, q: Option<nat>)
    requires WellFormed(a) && WellFormed(b) && OptionBelow(p, |a.annotationDirs|) && OptionBelow(q, |b.annotationDirs|)
    ensures SameDirectory(a, p, b, q) <==> ProjDirectory(DirectoryOf(a, p)) == ProjDirectory(DirectoryOf(b, q))
  {
    hide SameSet, SameMembers, SameParameters, ProjSet, ProjMembersOf, SetOf, MembersIn, ParametersIn;
    if p.Some? && q.Some? {
      var d, e := a.annotationDirs[p.value], b.annotationDirs[q.value];
      assert GoodDirectory(a, d) && GoodDirectory(b, e);
      hide WellFormed;
      SetIff(a, d.classAnnotation, b, e.classAnnotation);
      MembersIff(a, d.fields, b, e.fields);
      MembersIff(a, d.methods, b, e.methods);
      ParametersIff(a, d.parameters, b, e.parameters);
    }
  }

  // ------------------------------------------------------------------ code and members

  /** The clauses of a handler of a code item. */
  predicate SameClauses(c: CodeItem, h: nat, d: CodeItem, i: nat) {
    h < |c.handlers| && i < |d.handlers| && c.handlers[h].handlers == d.handlers[i].handlers
  }

  /**
    * Two code items: equal sizes, debug info, try items and clauses. Of the instructions, as many
    * bytes as there are units.
    */
  predicate SameCode(a: Header, p: Option<nat>, b: Header, q: Option<nat>)
    requires WellFormed(a) && WellFormed(b)
  {
    && BothOrNone(p, |a.codeItems|, q, |b.codeItems|)
    && (p.Some? ==>
          var c, d := a.codeItems[p.value], b.codeItems[q.value];
          && c.registersSize == d.registersSize && c.insSize == d.insSize && c.outsSize == d.outsSize
          && BothOrNone(c.debugInfo, |a.debugInfos|, d.debugInfo, |b.debugInfos|)
          && (c.debugInfo.Some? ==> a.debugInfos[c.debugInfo.value] == b.debugInfos[d.debugInfo.value])
          && |c.insns| == |d.insns| && UnitsAgree(c.insns, d.insns, |c.insns|)
          && |c.tries| == |d.tries|
          && (forall t | 0 <= t < |c.tries| ::
                && c.tries[t].startAddr == d.tries[t].startAddr && c.tries[t].insnCount == d.tries[t].insnCount
                && SameClauses(c, c.tries[t].handler, d, d.tries[t].handler))
          && |c.handlers| == |d.handlers| && (forall h | 0 <= h < |c.handlers| :: SameClauses(c, h, d, h)))
  }

  lemma TriesIff(c: CodeItem, d: CodeItem)
    requires |c.tries| == |d.tries|
    requires forall t | 0 <= t < |c.tries| :: c.tries[t].handler < |c.handlers| && d.tries[t].handler < |d.handlers|
    ensures TriesOf(c) == TriesOf(d)
            <==> forall t | 0 <= t < |c.tries| ::
                   && c.tries[t].startAddr == d.tries[t].startAddr && c.tries[t].insnCount == d.tries[t].insnCount
                   && SameClauses(c, c.tries[t].handler, d, d.tries[t].handler)
  {
    var x, y := TriesOf(c), TriesOf(d);
    forall t | 0 <= t < |c.tries|
      ensures x[t] == y[t] <==> && c.tries[t].startAddr == d.tries[t].startAddr && c.tries[t].insnCount == d.tries[t].insnCount
                                && SameClauses(c, c.tries[t].handler, d, d.tries[t].handler)
    {
    }
    hide SameClauses, TriesOf;
    assert x == y <==> forall t | 0 <= t < |c.tries| :: x[t] == y[t];
  }

  lemma ClausesIff(c: CodeItem, d: CodeItem)
    ensures ClausesOf(c.handlers) == ClausesOf(d.handlers)
            <==> |c.handlers| == |d.handlers| && forall h | 0 <= h < |c.handlers| :: SameClauses(c, h, d, h)
  {
    var x, y := ClausesOf(c.handlers), ClausesOf(d.handlers);
    if |c.handlers| == |d.handlers| {
      forall h | 0 <= h < |c.handlers| ensures x[h] == y[h] <==> SameClauses(c, h, d, h) {
      }
      assert x == y <==> forall h | 0 <= h < |c.handlers| :: x[h] == y[h];
    }
  }

  lemma ProjCodeIff(x: Code, y: Code)
    ensures ProjCode(Some(x)) == ProjCode(Some(y))
            <==> && x.registers == y.registers && x.ins == y.ins && x.outs == y.outs && x.debug == y.debug && x.tries == y.tries
                 && x.handlers == y.handlers && |x.insns| == |y.insns| && UnitsAgree(x.insns, y.insns, |x.insns|)
  {
    hide UnitsAgree, U16s;
    if |x.insns| == |y.insns| { FrontUnits(x.insns, y.insns, |x.insns|); }
  }

  lemma CodeIff(a: Header, p: Option<nat>, b: Header, q: Option<nat>)
    requires WellFormed(a) && WellFormed(b) && OptionBelow(p, |a.codeItems|) && OptionBelow(q, |b.codeItems|)
    ensures SameCode(a, p, b, q) <==> ProjCode(CodeOf(a, p)) == ProjCode(CodeOf(b, q))
  {
    hide UnitsAgree, SameClauses, TriesOf, ClausesOf;
    if p.Some? && q.Some? {
      var c, d := a.codeItems[p.value], b.codeItems[q.value];
      assert GoodCodeItem(a, c) && GoodCodeItem(b, d);
      hide WellFormed;
      var x, y := CodeOf(a, p).value, CodeOf(b, q).value;
      ProjCodeIff(x, y);
      hide ProjCode;
      ClausesIff(c, d);
      SizesOf(c);
      SizesOf(d);
      if |c.tries| == |d.tries| { TriesIff(c, d); }
    }
  }

  lemma SizesOf(c: CodeItem)
    ensures |TriesOf(c)| == |c.tries| && |ClausesOf(c.handlers)| == |c.handlers|
  {
  }

  predicate SameMethods(a: Header, ms: seq<MethodItem>, b: Header, ns: seq<MethodItem>)
    requires WellFormed(a) && WellFormed(b)
  {
    && |ms| == |ns|
    && forall i | 0 <= i < |ms| ::
         ms[i].method_ == ns[i].method_ && ms[i].accessFlags == ns[i].accessFlags && SameCode(a, ms[i].code, b, ns[i].code)
  }

  lemma MethodsIff(a: Header, ms: seq<MethodItem>, b: Header, ns: seq<MethodItem>)
    requires WellFormed(a) && WellFormed(b) && GoodMethods(a, ms) && GoodMethods(b, ns)
    ensures SameMethods(a, ms, b, ns) <==> ProjMethods(MethodsOf(a, ms)) == ProjMethods(MethodsOf(b, ns))
  {
    hide SameCode, ProjCode, CodeOf, WellFormed;
    if |ms| == |ns| {
      var x, y := ProjMethods(MethodsOf(a, ms)), ProjMethods(MethodsOf(b, ns));
      forall i | 0 <= i < |ms|
        ensures ms[i].method_ == ns[i].method_ && ms[i].accessFlags == ns[i].accessFlags && SameCode(a, ms[i].code, b, ns[i].code) <==> x[i] == y[i]
      {
        CodeIff(a, ms[i].code, b, ns[i].code);
      }
      assert x == y <==> forall i | 0 <= i < |ms| :: x[i] == y[i];
    }
  }

  predicate SameData(a: Header, p: Option<nat>, b: Header, q: Option<nat>)
    requires WellFormed(a) && WellFormed(b)
  {
    && BothOrNone(p, |a.classDatas|, q, |b.classDatas|)
    && (p.Some? ==>
          var c, d := a.classDatas[p.value], b.classDatas[q.value];
          && c.staticFields == d.staticFields && c.instanceFields == d.instanceFields
          && SameMethods(a, c.directMethods, b, d.directMethods) && SameMethods(a, c.virtualMethods, b, d.virtualMethods))
  }

  lemma DataIff(a: Header, p: Option<nat>, b: Header, q: Option<nat>)
    requires WellFormed(a) && WellFormed(b) && OptionBelow(p, |a.classDatas|) && OptionBelow(q, |b.classDatas|)
    ensures SameData(a, p, b, q) <==> ProjData(DataOf(a, p)) == ProjData(DataOf(b, q))
  {
    hide SameMethods, ProjMethods, MethodsOf, GoodMethods;
    if p.Some? && q.Some? {
      var c, d := a.classDatas[p.value], b.classDatas[q.value];
      assert GoodClassData(a, c) && GoodClassData(b, d);
      hide WellFormed;
      MethodsIff(a, c.directMethods, b, d.directMethods);
      MethodsIff(a, c.virtualMethods, b, d.virtualMethods);
    }
  }

  // ------------------------------------------------------------------ classes

  /** The text of a class's source file, empty if it has none. */
  function SourceText(a: Header, c: ClassDef): seq<Byte>
    requires WellFormed(a)
  {
    if c.sourceFile.None? || c.sourceFile.value >= |a.stringIds| then [] else a.stringDatas[a.stringIds[c.sourceFile.value]]
  }

  predicate SameTypes(a: Header, p: Option<nat>, b: Header, q: Option<nat>) {
    BothOrNone(p, |a.typeLists|, q, |b.typeLists|) && (p.Some? ==> a.typeLists[p.value] == b.typeLists[q.value])
  }

  predicate SameArray(a: Header, p: Option<nat>, b: Header, q: Option<nat>) {
    BothOrNone(p, |a.encodedArrays|, q, |b.encodedArrays|) && (p.Some? ==> SameValues(a.encodedArrays[p.value], b.encodedArrays[q.value]))
  }

  /** Two class definitions, everything they point at included. */
  predicate SameClass(a: Header, c: ClassDef, b: Header, d: ClassDef)
    requires WellFormed(a) && WellFormed(b)
  {
    && c.classType == d.classType && c.accessFlags == d.accessFlags
    && (if c.superclass.None? then 0 else c.superclass.value) == (if d.superclass.None? then 0 else d.superclass.value)
    && SameTypes(a, c.interfaces, b, d.interfaces)
    && SourceText(a, c) == SourceText(b, d)
    && SameDirectory(a, c.annotations, b, d.annotations)
    && SameData(a, c.classData, b, d.classData)
    && SameArray(a, c.staticValues, b, d.staticValues)
  }

  lemma ArrayIff(a: Header, p: Option<nat>, b: Header, q: Option<nat>)
    requires OptionBelow(p, |a.encodedArrays|) && OptionBelow(q, |b.encodedArrays|)
    ensures SameArray(a, p, b, q)
            <==> ProjArray(if p.None? || p.value >= |a.encodedArrays| then None else Some(a.encodedArrays[p.value]))
                 == ProjArray(if q.None? || q.value >= |b.encodedArrays| then None else Some(b.encodedArrays[q.value]))
  {
    hide SameValues, ProjValues;
    if p.Some? && q.Some? { ValuesIff(a.encodedArrays[p.value], b.encodedArrays[q.value]); }
  }

  lemma SourceIs(a: Header, c: ClassDef)
    requires WellFormed(a)
    ensures SourceText(a, c) == if c.sourceFile.None? then [] else StringOf(a, c.sourceFile.value)
  {
  }

  /** A class definition is accepted for another exactly when the two are the same in this sense. */
  lemma ClassAcceptedIff(a: Header, c: ClassDef, b: Header, d: ClassDef)
    requires WellFormed(a) && WellFormed(b) && GoodClassDef(a, c) && GoodClassDef(b, d)
    ensures SameClass(a, c, b, d) <==> ProjClass(ClassOf(a, c)) == ProjClass(ClassOf(b, d))
  {
    hide WellFormed, SameDirectory, SameData, SameArray, ProjDirectory, ProjData, ProjArray, DirectoryOf, DataOf, SourceText, StringOf;
    DirectoryIff(a, c.annotations, b, d.annotations);
    DataIff(a, c.classData, b, d.classData);
    ArrayIff(a, c.staticValues, b, d.staticValues);
    SourceIs(a, c);
    SourceIs(b, d);
  }

  // ------------------------------------------------------------------ the whole IR

  /** The id tables: strings by their text, prototypes without their parameters, everything else as it is. */
  predicate SameTables(a: Header, b: Header)
    requires WellFormed(a) && WellFormed(b)
  {
    && |a.stringIds| == |b.stringIds|
    && (forall i | 0 <= i < |a.stringIds| :: a.stringDatas[a.stringIds[i]] == b.stringDatas[b.stringIds[i]])
    && a.typeIds == b.typeIds
    && |a.protoIds| == |b.protoIds|
    && (forall i | 0 <= i < |a.protoIds| :: a.protoIds[i].shorty == b.protoIds[i].shorty && a.protoIds[i].returnType == b.protoIds[i].returnType)
    && a.fieldIds == b.fieldIds && a.methodIds == b.methodIds
  }

  predicate HasCounterpart(a: Header, c: ClassDef, b: Header)
    requires WellFormed(a) && WellFormed(b)
  {
    exists j | 0 <= j < |b.classDefs| :: SameClass(a, c, b, b.classDefs[j])
  }

  predicate HasOriginal(a: Header, b: Header, d: ClassDef)
    requires WellFormed(a) && WellFormed(b)
  {
    exists i | 0 <= i < |a.classDefs| :: SameClass(a, a.classDefs[i], b, d)
  }

  /** The classes, in any order. */
  predicate SameClassDefs(a: Header, b: Header)
    requires WellFormed(a) && WellFormed(b)
  {
    && (forall i | 0 <= i < |a.classDefs| :: HasCounterpart(a, a.classDefs[i], b))
    && (forall j | 0 <= j < |b.classDefs| :: HasOriginal(a, b, b.classDefs[j]))
  }

  lemma TablesIff(a: Header, b: Header)
    requires WellFormed(a) && WellFormed(b)
    ensures SameTables(a, b) <==> SameIds(ViewOf(a), ViewOf(b))
  {
    hide ClassOf;
    var x, y := ViewOf(a), ViewOf(b);
    if SameIds(x, y) {
      forall i | 0 <= i < |a.stringIds| ensures a.stringDatas[a.stringIds[i]] == b.stringDatas[b.stringIds[i]] { assert x.strings[i] == y.strings[i]; }
      forall i | 0 <= i < |a.protoIds|
        ensures a.protoIds[i].shorty == b.protoIds[i].shorty && a.protoIds[i].returnType == b.protoIds[i].returnType
      {
        assert x.protos[i] == y.protos[i];
      }
    }
    if SameTables(a, b) {
      assert x.strings == y.strings && x.protos == y.protos;
    }
  }

  function ClassProjs(a: Header): (ps: seq<ClassProj>)
    ensures |ps| == |a.classDefs| && forall i | 0 <= i < |ps| :: ps[i] == ProjClass(ClassOf(a, a.classDefs[i]))
  {
    seq(|a.classDefs|, i requires 0 <= i < |a.classDefs| => ProjClass(ClassOf(a, a.classDefs[i])))
  }

  lemma ClassSetIs(a: Header)
    ensures ClassSet(ViewOf(a).classes) == set p | p in ClassProjs(a)
  {
    hide ProjClass, ClassOf;
    assert ProjClasses(ViewOf(a).classes) == ClassProjs(a);
  }

  predicate Covers(ps: seq<ClassProj>, qs: seq<ClassProj>) {
    forall i | 0 <= i < |ps| :: ps[i] in qs
  }

  lemma CoverEachOther(ps: seq<ClassProj>, qs: seq<ClassProj>)
    ensures Covers(ps, qs) && Covers(qs, ps) <==> (set p | p in ps) == (set p | p in qs)
  {
    var x, y := set p | p in ps, set p | p in qs;
    if x == y {
      forall i | 0 <= i < |ps| ensures ps[i] in qs { assert ps[i] in x; }
      forall i | 0 <= i < |qs| ensures qs[i] in ps { assert qs[i] in y; }
    }
  }

  lemma CounterpartIff(a: Header, c: ClassDef, b: Header)
    requires WellFormed(a) && WellFormed(b) && GoodClassDef(a, c)
    ensures HasCounterpart(a, c, b) <==> ProjClass(ClassOf(a, c)) in ClassProjs(b)
  {
    forall j | 0 <= j < |b.classDefs| ensures SameClass(a, c, b, b.classDefs[j]) <==> ProjClass(ClassOf(a, c)) == ClassProjs(b)[j] {
      ClassAcceptedIff(a, c, b, b.classDefs[j]);
    }
    hide SameClass, WellFormed, ClassProjs, ProjClass, ClassOf;
  }

  lemma OriginalIff(a: Header, b: Header, d: ClassDef)
    requires WellFormed(a) && WellFormed(b) && GoodClassDef(b, d)
    ensures HasOriginal(a, b, d) <==> ProjClass(ClassOf(b, d)) in ClassProjs(a)
  {
    forall i | 0 <= i < |a.classDefs| ensures SameClass(a, a.classDefs[i], b, d) <==> ClassProjs(a)[i] == ProjClass(ClassOf(b, d)) {
      ClassAcceptedIff(a, a.classDefs[i], b, d);
    }
    hide SameClass, WellFormed, ClassProjs, ProjClass, ClassOf;
  }

  lemma CoversIff(a: Header, b: Header)
    requires WellFormed(a) && WellFormed(b)
    ensures SameClassDefs(a, b) <==> Covers(ClassProjs(a), ClassProjs(b)) && Covers(ClassProjs(b), ClassProjs(a))
  {
    forall i | 0 <= i < |a.classDefs| ensures HasCounterpart(a, a.classDefs[i], b) <==> ClassProjs(a)[i] in ClassProjs(b) {
      CounterpartIff(a, a.classDefs[i], b);
    }
    forall j | 0 <= j < |b.classDefs| ensures HasOriginal(a, b, b.classDefs[j]) <==> ClassProjs(b)[j] in ClassProjs(a) {
      OriginalIff(a, b, b.classDefs[j]);
    }
    hide HasCounterpart, HasOriginal, WellFormed, ClassProjs;
  }

  lemma ClassDefsIff(a: Header, b: Header)
    requires WellFormed(a) && WellFormed(b)
    ensures SameClassDefs(a, b) <==> ClassSet(ViewOf(a).classes) == ClassSet(ViewOf(b).classes)
  {
    hide *;
    ClassSetIs(a);
    ClassSetIs(b);
    CoversIff(a, b);
    CoverEachOther(ClassProjs(a), ClassProjs(b));
  }

  /** One class of each type. */
  predicate OneOfEachType(a: Header) {
    forall i, j | 0 <= i < j < |a.classDefs| :: a.classDefs[i].classType != a.classDefs[j].classType
  }

  /**
    * The whole comparison, of IRs whose classes have different types: it accepts exactly those whose
    * tables are the same and whose classes, everything they point at included, are the same in any
    * order.
    */
  method VerifyOutput(orig: Header, output: Header) returns (ok: bool)
    requires WellFormed(orig) && WellFormed(output)
    ensures OneOfEachType(orig) && OneOfEachType(output) ==> (ok <==> SameTables(orig, output) && SameClassDefs(orig, output))
  {
    hide *;
    ok := VerifyOutputDexFile(orig, output);
    TablesIff(orig, output);
    ClassDefsIff(orig, output);
    if OneOfEachType(orig) && OneOfEachType(output) {
      TypesDiffer(orig);
      TypesDiffer(output);
      ProjectIs(ViewOf(orig), ViewOf(output));
    }
  }

  lemma TypesDiffer(a: Header)
    requires OneOfEachType(a)
    ensures UniqueTypes(ViewOf(a).classes)
  {
    hide DirectoryOf, DataOf;
  }

  lemma ProjectIs(x: View, y: View)
    ensures Project(x) == Project(y) <==> SameIds(x, y) && ClassSet(x.classes) == ClassSet(y.classes)
  {
    hide ClassSet;
  }
}
