/** What an IR means: its items with every pointer followed, and the reader's answers at its offsets. */
module FileMeaning {
  import opened Bytes
  import opened EncodedValues
  import opened DexIr
  import opened Items
  import opened ItemWriters
  import opened Reading
  import opened FileReader
  import opened ItemDecoding

  // ------------------------------------------------------------------ the IR, pointers followed

  function ViewTypeList(ir: Header, i: Option<nat>): Option<seq<nat>> {
    if i.None? || i.value >= |ir.typeLists| then None else Some(ir.typeLists[i.value])
  }

  function ViewArray(ir: Header, i: Option<nat>): Option<seq<EncodedValue>> {
    if i.None? || i.value >= |ir.encodedArrays| then None else Some(ir.encodedArrays[i.value])
  }

  function ViewCode(ir: Header, c: CodeItem): CodeView {
    CodeView(c.registersSize, c.insSize, c.outsSize,
             if c.debugInfo.None? || c.debugInfo.value >= |ir.debugInfos| then None else Some(ir.debugInfos[c.debugInfo.value]),
             c.insns, TriesFrom(c, 0))
  }

  function ViewCodeOf(ir: Header, i: Option<nat>): Option<CodeView> {
    if i.None? || i.value >= |ir.codeItems| then None else Some(ViewCode(ir, ir.codeItems[i.value]))
  }

  function ViewMethods(ir: Header, ms: seq<MethodItem>): seq<MethodView> {
    if ms == [] then []
    else [MethodView(ms[0].method_, ms[0].accessFlags, ViewCodeOf(ir, ms[0].code))] + ViewMethods(ir, ms[1..])
  }

  function ViewClassData(ir: Header, c: ClassData): ClassDataView {
    ClassDataView(c.staticFields, c.instanceFields, ViewMethods(ir, c.directMethods), ViewMethods(ir, c.virtualMethods))
  }

  function ViewSet(ir: Header, set_: seq<nat>): seq<AnnotationItem> {
    if set_ == [] then []
    else [if set_[0] < |ir.annotations| then ir.annotations[set_[0]] else NO_ANNOTATION] + ViewSet(ir, set_[1..])
  }

  function ViewSetOf(ir: Header, i: nat): seq<AnnotationItem> {
    if i < |ir.annotationSets| then ViewSet(ir, ir.annotationSets[i]) else []
  }

  function ViewRefs(ir: Header, refs: seq<Option<nat>>): seq<Option<seq<AnnotationItem>>> {
    if refs == [] then []
    else [if refs[0].None? then None else Some(ViewSetOf(ir, refs[0].value))] + ViewRefs(ir, refs[1..])
  }

  function ViewRefsOf(ir: Header, i: nat): seq<Option<seq<AnnotationItem>>> {
    if i < |ir.annotationSetRefs| then ViewRefs(ir, ir.annotationSetRefs[i]) else []
  }

  function ViewMembers(ir: Header, ms: seq<MemberAnnotation>): seq<MemberView> {
    if ms == [] then [] else [MemberView(ms[0].member, ViewSetOf(ir, ms[0].set_))] + ViewMembers(ir, ms[1..])
  }

  function ViewParameters(ir: Header, ms: seq<MemberAnnotation>): seq<ParameterView> {
    if ms == [] then [] else [ParameterView(ms[0].member, ViewRefsOf(ir, ms[0].set_))] + ViewParameters(ir, ms[1..])
  }

  function ViewDirectory(ir: Header, d: AnnotationsDirectory): DirectoryView {
    DirectoryView(if d.classAnnotation.None? then None else Some(ViewSetOf(ir, d.classAnnotation.value)),
                  ViewMembers(ir, MembersOf(d.fields)), ViewMembers(ir, MembersOf(d.methods)), ViewParameters(ir, MembersOf(d.parameters)))
  }

  function ViewClass(ir: Header, c: ClassDef): ClassView {
    ClassView(c.classType, c.accessFlags,
              if c.superclass.None? then None else Some(c.superclass.value),
              ViewTypeList(ir, c.interfaces),
              if c.sourceFile.None? then None else Some(c.sourceFile.value),
              if c.annotations.None? || c.annotations.value >= |ir.annotationDirs| then None
              else Some(ViewDirectory(ir, ir.annotationDirs[c.annotations.value])),
              if c.classData.None? || c.classData.value >= |ir.classDatas| then None
              else Some(ViewClassData(ir, ir.classDatas[c.classData.value])),
              ViewArray(ir, c.staticValues))
  }

  function ViewProto(ir: Header, p: ProtoId): ProtoView {
    ProtoView(p.shorty, p.returnType, ViewTypeList(ir, p.parameters))
  }

  function ViewString(ir: Header, i: nat): seq<Byte> {
    if i < |ir.stringDatas| then ir.stringDatas[i] else []
  }

  function ViewHidden(f: HiddenapiFlags): Option<seq<UInt32>> {
    if FlagsSize(f) == 0 then None else f
  }

  /** The whole IR; hidden-API flags that are all zero do not show. */
  function ViewFile(ir: Header): FileView {
    FileView(seq(|ir.stringIds|, i requires 0 <= i < |ir.stringIds| => ViewString(ir, ir.stringIds[i])),
             ir.typeIds,
             seq(|ir.protoIds|, i requires 0 <= i < |ir.protoIds| => ViewProto(ir, ir.protoIds[i])),
             seq(|ir.fieldIds|, i requires 0 <= i < |ir.fieldIds| => IdView(ir.fieldIds[i].classIdx, ir.fieldIds[i].typeIdx, ir.fieldIds[i].name)),
             seq(|ir.methodIds|, i requires 0 <= i < |ir.methodIds| => IdView(ir.methodIds[i].classIdx, ir.methodIds[i].proto, ir.methodIds[i].name)),
             seq(|ir.classDefs|, i requires 0 <= i < |ir.classDefs| => ViewClass(ir, ir.classDefs[i])),
             seq(|ir.callSiteIds|, i requires 0 <= i < |ir.callSiteIds| =>
               (if ir.callSiteIds[i] < |ir.encodedArrays| then ir.encodedArrays[ir.callSiteIds[i]] else [])),
             seq(|ir.methodHandles|, i requires 0 <= i < |ir.methodHandles| => (ir.methodHandles[i].handleType, ir.methodHandles[i].fieldOrMethod)),
             seq(|ir.hiddenapi|, i requires 0 <= i < |ir.hiddenapi| => ViewHidden(ir.hiddenapi[i])))
  }

  // ------------------------------------------------------------------ a file in which every offset leads to its item

  /** An assigned offset, below 2^32. */
  predicate Good(o: Offsets, k: Kind, i: nat) {
    0 < Off(o, k, i) < LIMIT
  }

  predicate ListsRead(ir: Header, o: Offsets, f: seq<Byte>) {
    forall i | 0 <= i < |ir.typeLists| :: Good(o, TypeLists, i) && ReadTypeList(f, Off(o, TypeLists, i)) == ir.typeLists[i]
  }

  predicate ArraysRead(ir: Header, o: Offsets, f: seq<Byte>) {
    forall i | 0 <= i < |ir.encodedArrays| :: Good(o, EncodedArrays, i) && ReadEncodedArray(f, Off(o, EncodedArrays, i)) == ir.encodedArrays[i]
  }

  predicate DebugRead(ir: Header, o: Offsets, f: seq<Byte>) {
    forall i | 0 <= i < |ir.debugInfos| :: Good(o, DebugInfos, i) && ReadDebugInfo(f, Off(o, DebugInfos, i)) == ir.debugInfos[i]
  }

  predicate CodeRead(ir: Header, o: Offsets, f: seq<Byte>) {
    forall i | 0 <= i < |ir.codeItems| :: Good(o, CodeItems, i) && ReadCode(f, Off(o, CodeItems, i)) == ViewCode(ir, ir.codeItems[i])
  }

  predicate DataRead(ir: Header, o: Offsets, f: seq<Byte>) {
    forall i | 0 <= i < |ir.classDatas| :: Good(o, ClassDatas, i) && ReadClassData(f, Off(o, ClassDatas, i)) == ViewClassData(ir, ir.classDatas[i])
  }

  predicate AnnotationsRead(ir: Header, o: Offsets, f: seq<Byte>) {
    forall i | 0 <= i < |ir.annotations| :: Good(o, Annotations, i) && ReadAnnotationItem(f, Off(o, Annotations, i)) == ir.annotations[i]
  }

  predicate SetsRead(ir: Header, o: Offsets, f: seq<Byte>) {
    forall i | 0 <= i < |ir.annotationSets| :: Good(o, AnnotationSets, i) && ReadAnnotationSet(f, Off(o, AnnotationSets, i)) == ViewSetOf(ir, i)
  }

  predicate RefsRead(ir: Header, o: Offsets, f: seq<Byte>) {
    forall i | 0 <= i < |ir.annotationSetRefs| :: Good(o, AnnotationSetRefs, i) && ReadSetRefs(f, Off(o, AnnotationSetRefs, i)) == ViewRefsOf(ir, i)
  }

  predicate DirsRead(ir: Header, o: Offsets, f: seq<Byte>) {
    forall i | 0 <= i < |ir.annotationDirs| ::
      Good(o, AnnotationDirs, i) && ReadDirectory(f, Off(o, AnnotationDirs, i)) == ViewDirectory(ir, ir.annotationDirs[i])
  }

  // ------------------------------------------------------------------ class data

  lemma Difference(x: UInt32, prev: UInt32)
    ensures ToU32(prev + ToU32(x - prev)) == x
  {
  }

  lemma {:induction false} FieldsDecode(fs: seq<FieldItem>, prev: UInt32)
    ensures FieldsOf(FieldWords(fs, prev), prev) == fs
  {
    hide ToU32;
    if fs != [] {
      var ws, tail := FieldWords(fs, prev), FieldWords(fs[1..], fs[0].field);
      assert ws == [ToU32(fs[0].field - prev), fs[0].accessFlags] + tail && ws[2..] == tail;
      Difference(fs[0].field, prev);
      FieldsDecode(fs[1..], fs[0].field);
      assert fs == [fs[0]] + fs[1..];
    }
  }

  lemma {:induction false} MethodsDecode(ir: Header, o: Offsets, f: seq<Byte>, ms: seq<MethodItem>, prev: UInt32)
    requires CodeRead(ir, o, f) && GoodMethods(ir, ms)
    ensures MethodsOf(f, MethodWords(o, ms, prev), prev) == ViewMethods(ir, ms)
  {
    hide ToU32, ReadCode, ViewCode, CodeRead;
    if ms != [] {
      var ws, tail := MethodWords(o, ms, prev), MethodWords(o, ms[1..], ms[0].method_);
      var m := ms[0];
      assert ws == [ToU32(m.method_ - prev), m.accessFlags, ToU32(OffOrZero(o, CodeItems, m.code))] + tail && ws[3..] == tail;
      Difference(m.method_, prev);
      CodePointer(ir, o, f, m.code);
      MethodsDecode(ir, o, f, ms[1..], m.method_);
    }
  }

  lemma CodePointer(ir: Header, o: Offsets, f: seq<Byte>, i: Option<nat>)
    requires CodeRead(ir, o, f) && OptionBelow(i, |ir.codeItems|)
    ensures var off := ToU32(OffOrZero(o, CodeItems, i));
            (if off == 0 then None else Some(ReadCode(f, off))) == ViewCodeOf(ir, i)
  {
    hide ReadCode, ViewCode;
    if i.Some? {
      assert Good(o, CodeItems, i.value);
      FitsWord(Off(o, CodeItems, i.value));
    }
  }

  /** The words of a class, cut at the ends of its parts. */
  lemma ClassDataSlices(o: Offsets, c: ClassData)
    ensures var ws := FieldWords(c.staticFields, 0) + FieldWords(c.instanceFields, 0)
                      + MethodWords(o, c.directMethods, 0) + MethodWords(o, c.virtualMethods, 0);
            var a, b := 2 * |c.staticFields|, 2 * |c.staticFields| + 2 * |c.instanceFields|;
            var e := b + 3 * |c.directMethods|;
            && |ws| == e + 3 * |c.virtualMethods|
            && ws[..a] == FieldWords(c.staticFields, 0) && ws[a..b] == FieldWords(c.instanceFields, 0)
            && ws[b..e] == MethodWords(o, c.directMethods, 0) && ws[e..] == MethodWords(o, c.virtualMethods, 0)
  {
    hide FieldWords, MethodWords;
  }

  lemma CountsFit(c: ClassData)
    requires MemberCount(c) < LIMIT
    ensures ClassDataCounts(c) == [|c.staticFields|, |c.instanceFields|, |c.directMethods|, |c.virtualMethods|]
  {
  }

  lemma ReadClassDataIs(f: seq<Byte>, off: nat, counts: seq<UInt32>, ws: seq<UInt32>, rest: seq<Byte>)
    requires |counts| == 4 && From(f, off) == Ulebs(counts) + (Ulebs(ws) + rest)
    requires |ws| == 2 * (counts[0] as int) + 2 * (counts[1] as int) + 3 * (counts[2] as int) + 3 * (counts[3] as int)
    ensures var a: nat, b: nat, c: nat := counts[0], counts[1], counts[2];
            ReadClassData(f, off) == ClassDataFrom(f, ws, 2 * a, 2 * a + 2 * b, 2 * a + 2 * b + 3 * c)
  {
    hide ReadUlebs, Ulebs, From, ClassDataFrom;
    UlebsRoundTrip(counts, Ulebs(ws) + rest);
    UlebsRoundTrip(ws, rest);
  }

  lemma ClassDataDecode(ir: Header, o: Offsets, f: seq<Byte>, off: nat, c: ClassData)
    requires CodeRead(ir, o, f) && GoodClassData(ir, c) && MemberCount(c) < LIMIT
    requires Holds(f, off, Ulebs(ClassDataWords(o, c)))
    ensures ReadClassData(f, off) == ViewClassData(ir, c)
  {
    hide *;
    var w1, w2 := FieldWords(c.staticFields, 0), FieldWords(c.instanceFields, 0);
    var w3, w4 := MethodWords(o, c.directMethods, 0), MethodWords(o, c.virtualMethods, 0);
    var counts, ws := ClassDataCounts(c), w1 + w2 + w3 + w4;
    CountsFit(c);
    ClassDataSlices(o, c);
    ClassDataWordsAre(o, c);
    UlebsConcat(counts, ws);
    FromRest(f, off, Ulebs(ClassDataWords(o, c)));
    var rest := From(f, off + |Ulebs(ClassDataWords(o, c))|);
    assert From(f, off) == Ulebs(counts) + (Ulebs(ws) + rest);
    ReadClassDataIs(f, off, counts, ws, rest);
    GoodClassDataIs(ir, c);
    FieldsDecode(c.staticFields, 0);
    FieldsDecode(c.instanceFields, 0);
    MethodsDecode(ir, o, f, c.directMethods, 0);
    MethodsDecode(ir, o, f, c.virtualMethods, 0);
    ClassDataFromIs(f, ws, 2 * |c.staticFields|, 2 * |c.staticFields| + 2 * |c.instanceFields|,
                    2 * |c.staticFields| + 2 * |c.instanceFields| + 3 * |c.directMethods|);
    ViewClassDataIs(ir, c);
  }

  lemma ClassDataWordsAre(o: Offsets, c: ClassData)
    ensures ClassDataWords(o, c)
         == ClassDataCounts(c) + (FieldWords(c.staticFields, 0) + FieldWords(c.instanceFields, 0)
                                  + MethodWords(o, c.directMethods, 0) + MethodWords(o, c.virtualMethods, 0))
  {
    hide ClassDataCounts, FieldWords, MethodWords;
  }

  lemma GoodClassDataIs(ir: Header, c: ClassData)
    requires GoodClassData(ir, c)
    ensures GoodMethods(ir, c.directMethods) && GoodMethods(ir, c.virtualMethods)
  {
    hide GoodMethods;
  }

  lemma ClassDataFromIs(f: seq<Byte>, ws: seq<UInt32>, a: nat, b: nat, c: nat)
    requires a <= b <= c <= |ws|
    ensures ClassDataFrom(f, ws, a, b, c)
         == ClassDataView(FieldsOf(ws[..a], 0), FieldsOf(ws[a..b], 0), MethodsOf(f, ws[b..c], 0), MethodsOf(f, ws[c..], 0))
  {
    hide FieldsOf, MethodsOf;
  }

  lemma ViewClassDataIs(ir: Header, c: ClassData)
    ensures ViewClassData(ir, c)
         == ClassDataView(c.staticFields, c.instanceFields, ViewMethods(ir, c.directMethods), ViewMethods(ir, c.virtualMethods))
  {
    hide ViewMethods;
  }

  // ------------------------------------------------------------------ annotations

  lemma OffsOfCons(o: Offsets, k: Kind, xs: seq<nat>)
    requires xs != []
    ensures OffsOf(o, k, xs) == [Off(o, k, xs[0])] + OffsOf(o, k, xs[1..])
  {
    hide Off;
  }

  lemma OffsOrZeroCons(o: Offsets, k: Kind, xs: seq<Option<nat>>)
    requires xs != []
    ensures OffsOrZero(o, k, xs) == [OffOrZero(o, k, xs[0])] + OffsOrZero(o, k, xs[1..])
  {
    hide OffOrZero;
  }

  lemma {:induction false} ItemsDecode(ir: Header, o: Offsets, f: seq<Byte>, p: nat, set_: seq<nat>)
    requires AnnotationsRead(ir, o, f) && GoodSet(ir, set_) && Holds(f, p, U32s(OffsOf(o, Annotations, set_)))
    ensures ReadItems(f, p, |set_|) == ViewSet(ir, set_)
    decreases |set_|
  {
    hide ReadAnnotationItem, Word, Holds, U32s, OffsOf, Off;
    if set_ != [] {
      var x := Off(o, Annotations, set_[0]);
      assert Good(o, Annotations, set_[0]);
      OffsOfCons(o, Annotations, set_);
      U32sCons(x, OffsOf(o, Annotations, set_[1..]));
      HoldsConcat(f, p, Le(4, x), U32s(OffsOf(o, Annotations, set_[1..])));
      HoldsWord(f, p, x);
      FitsWord(x);
      ItemsDecode(ir, o, f, p + 4, set_[1..]);
    }
  }

  lemma SetDecode(ir: Header, o: Offsets, f: seq<Byte>, off: nat, set_: seq<nat>)
    requires AnnotationsRead(ir, o, f) && GoodSet(ir, set_) && |set_| < LIMIT && Holds(f, off, AnnotationSetBytes(o, set_))
    ensures ReadAnnotationSet(f, off) == ViewSet(ir, set_)
  {
    hide ReadItems, Word, Holds, U32s, OffsOf, AnnotationsRead, GoodSet;
    U32sConcat([|set_|], OffsOf(o, Annotations, set_));
    HoldsConcat(f, off, U32s([|set_|]), U32s(OffsOf(o, Annotations, set_)));
    WordAt(f, off, [|set_|], 0);
    ItemsDecode(ir, o, f, off + 4, set_);
  }

  lemma {:induction false} RefsDecode(ir: Header, o: Offsets, f: seq<Byte>, p: nat, refs: seq<Option<nat>>)
    requires SetsRead(ir, o, f) && GoodSetRefs(ir, refs) && Holds(f, p, U32s(OffsOrZero(o, AnnotationSets, refs)))
    ensures ReadRefs(f, p, |refs|) == ViewRefs(ir, refs)
    decreases |refs|
  {
    hide ReadAnnotationSet, Word, Holds, U32s, OffsOrZero, ViewSetOf, SetsRead;
    if refs != [] {
      var x := OffOrZero(o, AnnotationSets, refs[0]);
      SetPointer(ir, o, f, refs[0]);
      OffsOrZeroCons(o, AnnotationSets, refs);
      U32sCons(x, OffsOrZero(o, AnnotationSets, refs[1..]));
      HoldsConcat(f, p, Le(4, x), U32s(OffsOrZero(o, AnnotationSets, refs[1..])));
      HoldsWord(f, p, x);
      RefsDecode(ir, o, f, p + 4, refs[1..]);
    }
  }

  lemma SetPointer(ir: Header, o: Offsets, f: seq<Byte>, i: Option<nat>)
    requires SetsRead(ir, o, f) && OptionBelow(i, |ir.annotationSets|)
    ensures var x := OffOrZero(o, AnnotationSets, i);
            ToU32(x) == x && (if x == 0 then None else Some(ReadAnnotationSet(f, x))) == if i.None? then None else Some(ViewSetOf(ir, i.value))
  {
    hide ReadAnnotationSet, ViewSetOf;
    if i.Some? {
      assert Good(o, AnnotationSets, i.value);
      FitsWord(Off(o, AnnotationSets, i.value));
    }
  }

  lemma SetRefsDecode(ir: Header, o: Offsets, f: seq<Byte>, off: nat, refs: seq<Option<nat>>)
    requires SetsRead(ir, o, f) && GoodSetRefs(ir, refs) && |refs| < LIMIT && Holds(f, off, AnnotationSetRefBytes(o, refs))
    ensures ReadSetRefs(f, off) == ViewRefs(ir, refs)
  {
    hide ReadRefs, Word, Holds, U32s, OffsOrZero, SetsRead, GoodSetRefs;
    U32sConcat([|refs|], OffsOrZero(o, AnnotationSets, refs));
    HoldsConcat(f, off, U32s([|refs|]), U32s(OffsOrZero(o, AnnotationSets, refs)));
    WordAt(f, off, [|refs|], 0);
    RefsDecode(ir, o, f, off + 4, refs);
  }

  /** The first pair of words of a run of member annotations. */
  lemma MemberWordsHold(f: seq<Byte>, p: nat, o: Offsets, k: Kind, ms: seq<MemberAnnotation>)
    requires ms != [] && Holds(f, p, U32s(MemberWords(o, k, ms)))
    ensures Word(f, p) == ms[0].member && Word(f, p + 4) == ToU32(Off(o, k, ms[0].set_))
    ensures Holds(f, p + 8, U32s(MemberWords(o, k, ms[1..])))
  {
    hide Holds, Word, U32s, Off, ToU32;
    var head, tail := [ms[0].member, Off(o, k, ms[0].set_)], MemberWords(o, k, ms[1..]);
    assert MemberWords(o, k, ms) == head + tail;
    U32sConcat(head, tail);
    HoldsConcat(f, p, U32s(head), U32s(tail));
    WordOfRun(f, p, head, 0);
    WordOfRun(f, p, head, 1);
    FitsWord(ms[0].member);
  }

  lemma {:induction false} MembersDecode(ir: Header, o: Offsets, f: seq<Byte>, p: nat, ms: seq<MemberAnnotation>)
    requires SetsRead(ir, o, f) && (forall i | 0 <= i < |ms| :: ms[i].set_ < |ir.annotationSets|)
    requires Holds(f, p, U32s(MemberWords(o, AnnotationSets, ms)))
    ensures ReadMembers(f, p, |ms|) == ViewMembers(ir, ms)
    decreases |ms|
  {
    hide ReadAnnotationSet, Word, Holds, U32s, ViewSetOf, MemberWords, Off;
    if ms != [] {
      MemberWordsHold(f, p, o, AnnotationSets, ms);
      assert Good(o, AnnotationSets, ms[0].set_);
      FitsWord(Off(o, AnnotationSets, ms[0].set_));
      MembersDecode(ir, o, f, p + 8, ms[1..]);
    }
  }

  lemma {:induction false} ParametersDecode(ir: Header, o: Offsets, f: seq<Byte>, p: nat, ms: seq<MemberAnnotation>)
    requires RefsRead(ir, o, f) && (forall i | 0 <= i < |ms| :: ms[i].set_ < |ir.annotationSetRefs|)
    requires Holds(f, p, U32s(MemberWords(o, AnnotationSetRefs, ms)))
    ensures ReadParameters(f, p, |ms|) == ViewParameters(ir, ms)
    decreases |ms|
  {
    hide ReadSetRefs, Word, Holds, U32s, ViewRefsOf, MemberWords, Off;
    if ms != [] {
      MemberWordsHold(f, p, o, AnnotationSetRefs, ms);
      assert Good(o, AnnotationSetRefs, ms[0].set_);
      FitsWord(Off(o, AnnotationSetRefs, ms[0].set_));
      ParametersDecode(ir, o, f, p + 8, ms[1..]);
    }
  }

  lemma DirectoryParts(o: Offsets, d: AnnotationsDirectory)
    ensures var head := [OffOrZero(o, AnnotationSets, d.classAnnotation), |MembersOf(d.fields)|, |MembersOf(d.methods)|, |MembersOf(d.parameters)|];
            U32s(DirectoryWords(o, d))
            == U32s(head) + U32s(MemberWords(o, AnnotationSets, MembersOf(d.fields)))
               + U32s(MemberWords(o, AnnotationSets, MembersOf(d.methods)))
               + U32s(MemberWords(o, AnnotationSetRefs, MembersOf(d.parameters)))
  {
    hide U32s, MemberWords, OffOrZero;
    var head := [OffOrZero(o, AnnotationSets, d.classAnnotation), |MembersOf(d.fields)|, |MembersOf(d.methods)|, |MembersOf(d.parameters)|];
    var a, b := MemberWords(o, AnnotationSets, MembersOf(d.fields)), MemberWords(o, AnnotationSets, MembersOf(d.methods));
    U32sConcat(head, a);
    U32sConcat(head + a, b);
    U32sConcat(head + a + b, MemberWords(o, AnnotationSetRefs, MembersOf(d.parameters)));
  }

  predicate SmallDirectory(d: AnnotationsDirectory) {
    |MembersOf(d.fields)| < LIMIT && |MembersOf(d.methods)| < LIMIT && |MembersOf(d.parameters)| < LIMIT
  }

  lemma DirectoryDecode(ir: Header, o: Offsets, f: seq<Byte>, off: nat, d: AnnotationsDirectory)
    requires SetsRead(ir, o, f) && RefsRead(ir, o, f) && GoodDirectory(ir, d) && SmallDirectory(d)
    requires Holds(f, off, U32s(DirectoryWords(o, d)))
    ensures ReadDirectory(f, off) == ViewDirectory(ir, d)
  {
    hide ReadAnnotationSet, Word, Holds, U32s, ViewSetOf, MemberWords, OffOrZero, SetsRead, RefsRead, ReadMembers, ReadParameters,
         ViewMembers, ViewParameters, DirectoryWords;
    var fs, ms, ps := MembersOf(d.fields), MembersOf(d.methods), MembersOf(d.parameters);
    var head := [OffOrZero(o, AnnotationSets, d.classAnnotation), |fs|, |ms|, |ps|];
    var a, b, c := U32s(MemberWords(o, AnnotationSets, fs)), U32s(MemberWords(o, AnnotationSets, ms)), U32s(MemberWords(o, AnnotationSetRefs, ps));
    DirectoryParts(o, d);
    HoldsConcat(f, off, U32s(head) + a + b, c);
    HoldsConcat(f, off, U32s(head) + a, b);
    HoldsConcat(f, off, U32s(head), a);
    SetPointer(ir, o, f, d.classAnnotation);
    WordOfRun(f, off, head, 0);
    WordAt(f, off, head, 1);
    WordAt(f, off, head, 2);
    WordAt(f, off, head, 3);
    MembersDecode(ir, o, f, off + 16, fs);
    MembersDecode(ir, o, f, off + 16 + 8 * |fs|, ms);
    ParametersDecode(ir, o, f, off + 16 + 8 * |fs| + 8 * |ms|, ps);
  }
}
