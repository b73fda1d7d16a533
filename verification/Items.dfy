/** The bytes of every item of the file, given the offsets assigned to the items it points at. */
module Items {
  import opened Bytes
  import opened Leb128
  import opened EncodedValues
  import opened DexIr
  import opened CatchHandlers

  datatype Ref = Ref(kind: Kind, index: nat)

  /** The offsets assigned so far; an item without an entry is unassigned. */
  type Offsets = map<Ref, nat>

  function Off(o: Offsets, k: Kind, i: nat): nat {
    if Ref(k, i) in o then o[Ref(k, i)] else 0
  }

  function OffOrZero(o: Offsets, k: Kind, i: Option<nat>): nat {
    if i.None? then 0 else Off(o, k, i.value)
  }

  // ------------------------------------------------------------------ runs of words

  function U16s(xs: seq<int>): (s: seq<Byte>)
    ensures |s| == 2 * |xs|
  {
    if xs == [] then [] else Le(2, xs[0]) + U16s(xs[1..])
  }

  function U32s(xs: seq<int>): (s: seq<Byte>)
    ensures |s| == 4 * |xs|
  {
    if xs == [] then [] else Le(4, xs[0]) + U32s(xs[1..])
  }

  function Ulebs(xs: seq<UInt32>): (s: seq<Byte>)
    ensures |s| >= |xs|
  {
    if xs == [] then [] else Uleb(xs[0]) + Ulebs(xs[1..])
  }

  // ------------------------------------------------------------------ id tables

  const NO_INDEX := 0xffff_ffff

  function ProtoIdBytes(o: Offsets, p: ProtoId): (s: seq<Byte>)
    ensures |s| == 12
  {
    U32s([p.shorty, p.returnType, OffOrZero(o, TypeLists, p.parameters)])
  }

  function FieldIdBytes(f: FieldId): (s: seq<Byte>)
    ensures |s| == 8
  {
    U16s([f.classIdx, f.typeIdx]) + U32s([f.name])
  }

  function MethodIdBytes(m: MethodId): (s: seq<Byte>)
    ensures |s| == 8
  {
    U16s([m.classIdx, m.proto]) + U32s([m.name])
  }

  function ClassDefWords(o: Offsets, c: ClassDef): (s: seq<int>)
    ensures |s| == 8
  {
    [c.classType,
     c.accessFlags,
     if c.superclass.None? then NO_INDEX else c.superclass.value,
     OffOrZero(o, TypeLists, c.interfaces),
     if c.sourceFile.None? then NO_INDEX else c.sourceFile.value,
     OffOrZero(o, AnnotationDirs, c.annotations),
     OffOrZero(o, ClassDatas, c.classData),
     OffOrZero(o, EncodedArrays, c.staticValues)]
  }

  function MethodHandleBytes(m: MethodHandle): (s: seq<Byte>)
    ensures |s| == 8
  {
    U16s([m.handleType, 0, m.fieldOrMethod, 0])
  }

  // ------------------------------------------------------------------ data items

  function TryBytes(startAddr: UInt32, insnCount: UInt16, handlerOff: UInt16): (s: seq<Byte>)
    ensures |s| == 8
  {
    U32s([startAddr]) + U16s([insnCount, handlerOff])
  }

  function TryItemBytes(c: CodeItem, t: TryItem): (s: seq<Byte>)
    ensures |s| == 8
  {
    TryBytes(t.startAddr, t.insnCount, if t.handler < |c.handlers| then c.handlers[t.handler].listOffset else 0)
  }

  function TryItemsBytes(c: CodeItem, n: nat): (s: seq<Byte>)
    requires n <= |c.tries|
    ensures |s| == 8 * n
  {
    if n == 0 then [] else TryItemsBytes(c, n - 1) + TryItemBytes(c, c.tries[n - 1])
  }

  /** `TriesSize`: a `uint16_t`. */
  function TriesSize(c: CodeItem): UInt16 {
    ToU16(|c.tries|)
  }

  function CodeHeader(registers: UInt16, ins: UInt16, outs: UInt16, tries: UInt16, debugOff: nat, insns: nat): (s: seq<Byte>)
    ensures |s| == 16
  {
    U16s([registers, ins, outs, tries]) + U32s([debugOff, insns])
  }

  function CodeHeaderBytes(o: Offsets, c: CodeItem): (s: seq<Byte>)
    ensures |s| == 16
  {
    CodeHeader(c.registersSize, c.insSize, c.outsSize, TriesSize(c), OffOrZero(o, DebugInfos, c.debugInfo), |c.insns|)
  }

  /** Padding to the try items' alignment; the code item itself starts on a word. */
  function CodePadding(c: CodeItem): nat {
    (2 * |c.insns|) % 4
  }

  /** What follows the instructions: nothing, or padding, try items and the handler list. */
  function PostInstructionBytes(c: CodeItem): seq<Byte> {
    if TriesSize(c) == 0 then []
    else Zeros(CodePadding(c)) + TryItemsBytes(c, |c.tries|) + HandlerBlock(c.handlers)
  }

  function CodeItemBytes(o: Offsets, c: CodeItem): seq<Byte> {
    CodeHeaderBytes(o, c) + U16s(c.insns) + PostInstructionBytes(c)
  }

  /** The offsets of a list of items of one kind. */
  function OffsOf(o: Offsets, k: Kind, xs: seq<nat>): (s: seq<int>)
    ensures |s| == |xs|
  {
    seq(|xs|, i requires 0 <= i < |xs| => Off(o, k, xs[i]))
  }

  function OffsOrZero(o: Offsets, k: Kind, xs: seq<Option<nat>>): (s: seq<int>)
    ensures |s| == |xs|
  {
    seq(|xs|, i requires 0 <= i < |xs| => OffOrZero(o, k, xs[i]))
  }

  function AnnotationSetBytes(o: Offsets, set_: seq<nat>): seq<Byte> {
    U32s([|set_|] + OffsOf(o, Annotations, set_))
  }

  function AnnotationSetRefBytes(o: Offsets, refs: seq<Option<nat>>): seq<Byte> {
    U32s([|refs|] + OffsOrZero(o, AnnotationSets, refs))
  }

  /** Member index and offset, for each annotated member. */
  function MemberWords(o: Offsets, k: Kind, ms: seq<MemberAnnotation>): (s: seq<int>)
    ensures |s| == 2 * |ms|
  {
    if ms == [] then [] else [ms[0].member, Off(o, k, ms[0].set_)] + MemberWords(o, k, ms[1..])
  }

  function MembersOf(ms: Option<seq<MemberAnnotation>>): seq<MemberAnnotation> {
    if ms.None? then [] else ms.value
  }

  function DirectoryWords(o: Offsets, d: AnnotationsDirectory): seq<int> {
    [OffOrZero(o, AnnotationSets, d.classAnnotation),
     |MembersOf(d.fields)|, |MembersOf(d.methods)|, |MembersOf(d.parameters)|]
    + MemberWords(o, AnnotationSets, MembersOf(d.fields))
    + MemberWords(o, AnnotationSets, MembersOf(d.methods))
    + MemberWords(o, AnnotationSetRefs, MembersOf(d.parameters))
  }

  function TypeListBytes(ts: seq<UInt16>): seq<Byte> {
    U32s([|ts|]) + U16s(ts)
  }

  /** Index differences and access flags. */
  function FieldWords(fs: seq<FieldItem>, prev: UInt32): (s: seq<UInt32>)
    ensures |s| == 2 * |fs|
  {
    if fs == [] then []
    else [ToU32(fs[0].field - prev), fs[0].accessFlags] + FieldWords(fs[1..], fs[0].field)
  }

  /** Index differences, access flags and code offsets. */
  function MethodWords(o: Offsets, ms: seq<MethodItem>, prev: UInt32): (s: seq<UInt32>)
    ensures |s| == 3 * |ms|
  {
    if ms == [] then []
    else [ToU32(ms[0].method_ - prev), ms[0].accessFlags, ToU32(OffOrZero(o, CodeItems, ms[0].code))]
         + MethodWords(o, ms[1..], ms[0].method_)
  }

  function ClassDataCounts(c: ClassData): (s: seq<UInt32>)
    ensures |s| == 4
  {
    [ToU32(|c.staticFields|), ToU32(|c.instanceFields|), ToU32(|c.directMethods|), ToU32(|c.virtualMethods|)]
  }

  function ClassDataWords(o: Offsets, c: ClassData): seq<UInt32> {
    ClassDataCounts(c)
    + FieldWords(c.staticFields, 0) + FieldWords(c.instanceFields, 0)
    + MethodWords(o, c.directMethods, 0) + MethodWords(o, c.virtualMethods, 0)
  }

  /** `CountModifiedUtf8Chars`. */
  function CountUtf8Chars(s: seq<Byte>): nat
    decreases |s|
  {
    if s == [] then 0
    else if s[0] < 0x80 then 1 + CountUtf8Chars(s[1..])
    else if s[0] / 0x20 % 2 == 0 then 1 + CountUtf8Chars(Drop(s, 2))
    else if s[0] / 0x10 % 2 == 0 then 1 + CountUtf8Chars(Drop(s, 3))
    else 2 + CountUtf8Chars(Drop(s, 4))
  }

  function Drop(s: seq<Byte>, n: nat): (r: seq<Byte>)
    ensures s != [] && n > 0 ==> |r| < |s|
  {
    if n <= |s| then s[n..] else []
  }

  /** The character count, the bytes and the terminating zero. */
  function StringDataBytes(s: seq<Byte>): seq<Byte> {
    Uleb(ToU32(CountUtf8Chars(s))) + s + [0]
  }

  // ------------------------------------------------------------------ hidden API flags

  /** `ItemSize`: zero when no flag is set, however many members there are. */
  function FlagsSize(f: HiddenapiFlags): nat {
    if f.Some? && (exists i | 0 <= i < |f.value| :: f.value[i] != 0) then |Ulebs(f.value)| else 0
  }

  /** The end of the first `n` classes' flags, from the start of the section. */
  function FlagsEnd(fs: seq<HiddenapiFlags>, n: nat): nat
    requires n <= |fs|
  {
    if n == 0 then 4 * (|fs| + 1) else FlagsEnd(fs, n - 1) + FlagsSize(fs[n - 1])
  }

  /** The total size and the offset of each class's flags, zero for a class without any. */
  function HiddenapiHeader(fs: seq<HiddenapiFlags>): (s: seq<int>)
    ensures |s| == |fs| + 1
  {
    [FlagsEnd(fs, |fs|)]
    + seq(|fs|, i requires 0 <= i < |fs| => if FlagsSize(fs[i]) == 0 then 0 else FlagsEnd(fs, i))
  }

  function FlagStreams(fs: seq<HiddenapiFlags>, n: nat): seq<Byte>
    requires n <= |fs|
  {
    if n == 0 then []
    else FlagStreams(fs, n - 1) + (if FlagsSize(fs[n - 1]) == 0 then [] else Ulebs(fs[n - 1].value))
  }

  function HiddenapiBytes(fs: seq<HiddenapiFlags>): seq<Byte> {
    U32s(HiddenapiHeader(fs)) + FlagStreams(fs, |fs|)
  }

  // ------------------------------------------------------------------ all kinds

  function Count(ir: Header, k: Kind): nat {
    match k
    case StringIds => |ir.stringIds|
    case TypeIds => |ir.typeIds|
    case ProtoIds => |ir.protoIds|
    case FieldIds => |ir.fieldIds|
    case MethodIds => |ir.methodIds|
    case ClassDefs => |ir.classDefs|
    case CallSiteIds => |ir.callSiteIds|
    case MethodHandles => |ir.methodHandles|
    case CodeItems => |ir.codeItems|
    case DebugInfos => |ir.debugInfos|
    case EncodedArrays => |ir.encodedArrays|
    case Annotations => |ir.annotations|
    case AnnotationSets => |ir.annotationSets|
    case AnnotationSetRefs => |ir.annotationSetRefs|
    case AnnotationDirs => |ir.annotationDirs|
    case TypeLists => |ir.typeLists|
    case ClassDatas => |ir.classDatas|
    case StringDatas => |ir.stringDatas|
    case Hiddenapi => if ir.hiddenapi == [] then 0 else 1
  }

  /** `SectionAlignment`. */
  function SectionAlignment(k: Kind): Alignment {
    if k == ClassDatas || k == StringDatas || k == DebugInfos || k == Annotations || k == EncodedArrays then 1 else 4
  }

  function ItemBytes(ir: Header, o: Offsets, k: Kind, i: nat): seq<Byte>
    requires i < Count(ir, k)
  {
    match k
    case StringIds => U32s([Off(o, StringDatas, ir.stringIds[i])])
    case TypeIds => U32s([ir.typeIds[i]])
    case ProtoIds => ProtoIdBytes(o, ir.protoIds[i])
    case FieldIds => FieldIdBytes(ir.fieldIds[i])
    case MethodIds => MethodIdBytes(ir.methodIds[i])
    case ClassDefs => U32s(ClassDefWords(o, ir.classDefs[i]))
    case CallSiteIds => U32s([Off(o, EncodedArrays, ir.callSiteIds[i])])
    case MethodHandles => MethodHandleBytes(ir.methodHandles[i])
    case CodeItems => CodeItemBytes(o, ir.codeItems[i])
    case DebugInfos => ir.debugInfos[i]
    case EncodedArrays => EncodeArray(ir.encodedArrays[i])
    case Annotations => [ir.annotations[i].visibility] + EncodeAnnotation(ir.annotations[i].annotation)
    case AnnotationSets => AnnotationSetBytes(o, ir.annotationSets[i])
    case AnnotationSetRefs => AnnotationSetRefBytes(o, ir.annotationSetRefs[i])
    case AnnotationDirs => U32s(DirectoryWords(o, ir.annotationDirs[i]))
    case TypeLists => TypeListBytes(ir.typeLists[i])
    case ClassDatas => Ulebs(ClassDataWords(o, ir.classDatas[i]))
    case StringDatas => StringDataBytes(ir.stringDatas[i])
    case Hiddenapi => HiddenapiBytes(ir.hiddenapi)
  }

  /** The kinds whose offsets the items of a kind hold. */
  function Needs(k: Kind): set<Kind> {
    match k
    case StringIds => {StringDatas}
    case ProtoIds => {TypeLists}
    case ClassDefs => {TypeLists, AnnotationDirs, ClassDatas, EncodedArrays}
    case CallSiteIds => {EncodedArrays}
    case CodeItems => {DebugInfos}
    case AnnotationSets => {Annotations}
    case AnnotationSetRefs => {AnnotationSets}
    case AnnotationDirs => {AnnotationSets, AnnotationSetRefs}
    case ClassDatas => {CodeItems}
    case _ => {}
  }

  /** Every item of kind `k` has an offset. */
  predicate Assigned(ir: Header, o: Offsets, k: Kind) {
    forall i | 0 <= i < Count(ir, k) :: Ref(k, i) in o && o[Ref(k, i)] != 0
  }
}
