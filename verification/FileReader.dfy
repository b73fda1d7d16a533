/** Reading a dex file: a reader that knows only the format and follows the offsets in the bytes. */
module FileReader {
  import opened Bytes
  import opened Leb128
  import opened EncodedValues
  import opened DexIr
  import opened Reading
  import opened CatchHandlerLists
  import opened HiddenApi
  import Debug = DebugInfo

  // ------------------------------------------------------------------ what is read: no offsets left

  datatype TryView = TryView(startAddr: nat, insnCount: nat, clauses: seq<TypeAddrPair>)

  datatype CodeView = CodeView(
    registers: nat, ins: nat, outs: nat, debug: Option<seq<Byte>>, insns: seq<nat>, tries: seq<TryView>)

  datatype MethodView = MethodView(method_: UInt32, accessFlags: UInt32, code: Option<CodeView>)

  datatype ClassDataView = ClassDataView(
    staticFields: seq<FieldItem>, instanceFields: seq<FieldItem>, directMethods: seq<MethodView>, virtualMethods: seq<MethodView>)

  /** The annotations of a member, and those of a method's parameters. */
  datatype MemberView = MemberView(member: nat, annotations: seq<AnnotationItem>)

  datatype ParameterView = ParameterView(member: nat, annotations: seq<Option<seq<AnnotationItem>>>)

  datatype DirectoryView = DirectoryView(
    onClass: Option<seq<AnnotationItem>>, fields: seq<MemberView>, methods: seq<MemberView>, parameters: seq<ParameterView>)

  datatype ClassView = ClassView(
    classType: nat, accessFlags: nat, superclass: Option<nat>, interfaces: Option<seq<nat>>, sourceFile: Option<nat>,
    annotations: Option<DirectoryView>, classData: Option<ClassDataView>, staticValues: Option<seq<EncodedValue>>)

  datatype ProtoView = ProtoView(shorty: nat, returnType: nat, parameters: Option<seq<nat>>)

  /** A field or method id: class, type or prototype, and name. */
  datatype IdView = IdView(classIdx: nat, other: nat, name: nat)

  // ------------------------------------------------------------------ runs

  function From(f: seq<Byte>, p: nat): seq<Byte> {
    if p <= |f| then f[p..] else []
  }

  function Halves(f: seq<Byte>, p: nat, n: nat): (s: seq<nat>)
    ensures |s| == n
    decreases n
  {
    if n == 0 then [] else [Half(f, p)] + Halves(f, p + 2, n - 1)
  }

  /** Up to the terminating zero. */
  function CString(s: seq<Byte>): seq<Byte> {
    if s == [] || s[0] == 0 then [] else [s[0]] + CString(s[1..])
  }

  function ReadStringData(f: seq<Byte>, off: nat): seq<Byte> {
    match ReadUleb(From(f, off))
    case None => []
    case Some(d) => CString(d.rest)
  }

  function ReadTypeList(f: seq<Byte>, off: nat): seq<nat> {
    Halves(f, off + 4, Word(f, off))
  }

  function ReadEncodedArray(f: seq<Byte>, off: nat): seq<EncodedValue> {
    match ReadArray(From(f, off))
    case None => []
    case Some(d) => d.value
  }

  // ------------------------------------------------------------------ code

  function ReadTyped(s: seq<Byte>, n: nat): Option<Decoded<seq<TypeAddrPair>>>
    decreases n
  {
    if n == 0 then Some(Decoded([], s))
    else
      match ReadUleb(s)
      case None => None
      case Some(t) =>
        match ReadUleb(t.rest)
        case None => None
        case Some(a) =>
          match ReadTyped(a.rest, n - 1)
          case None => None
          case Some(d) => Some(Decoded([TypeAddrPair(TypeOrNull(t.value), a.value)] + d.value, d.rest))
  }

  /** The clauses of a catch handler: typed ones, and the catch-all if the size is not positive. */
  function ReadClauses(s: seq<Byte>): seq<TypeAddrPair> {
    match ReadSleb(s)
    case None => []
    case Some(size) =>
      match ReadTyped(size.rest, if size.value < 0 then -size.value else size.value)
      case None => []
      case Some(typed) =>
        if size.value > 0 then typed.value
        else
          match ReadUleb(typed.rest)
          case None => []
          case Some(a) => typed.value + [TypeAddrPair(None, a.value)]
  }

  function ReadTries(f: seq<Byte>, p: nat, n: nat, base: nat): seq<TryView>
    decreases n
  {
    if n == 0 then []
    else [TryView(Word(f, p), Half(f, p + 4), ReadClauses(From(f, base + Half(f, p + 6))))] + ReadTries(f, p + 8, n - 1, base)
  }

  function ReadDebugInfo(f: seq<Byte>, off: nat): seq<Byte> {
    match Debug.DebugRest(From(f, off))
    case None => []
    case Some(rest) => if |rest| <= |From(f, off)| then From(f, off)[..|From(f, off)| - |rest|] else []
  }

  function ReadCode(f: seq<Byte>, p: nat): CodeView {
    var n, tries := Word(f, p + 12), Half(f, p + 6);
    var at := AlignUp(p + 16 + 2 * n, 4);
    CodeView(Half(f, p), Half(f, p + 2), Half(f, p + 4),
             if Word(f, p + 8) == 0 then None else Some(ReadDebugInfo(f, Word(f, p + 8))),
             Halves(f, p + 16, n),
             ReadTries(f, at, tries, at + 8 * tries))
  }

  // ------------------------------------------------------------------ class data

  function FieldsOf(ws: seq<UInt32>, prev: UInt32): seq<FieldItem>
    decreases |ws|
  {
    if |ws| < 2 then [] else [FieldItem(ToU32(prev + ws[0]), ws[1])] + FieldsOf(ws[2..], ToU32(prev + ws[0]))
  }

  function MethodsOf(f: seq<Byte>, ws: seq<UInt32>, prev: UInt32): seq<MethodView>
    decreases |ws|
  {
    if |ws| < 3 then []
    else [MethodView(ToU32(prev + ws[0]), ws[1], if ws[2] == 0 then None else Some(ReadCode(f, ws[2])))]
         + MethodsOf(f, ws[3..], ToU32(prev + ws[0]))
  }

  const NO_CLASS_DATA := ClassDataView([], [], [], [])

  function ClassDataFrom(f: seq<Byte>, ws: seq<UInt32>, a: nat, b: nat, c: nat): ClassDataView
    requires a <= b <= c <= |ws|
  {
    ClassDataView(FieldsOf(ws[..a], 0), FieldsOf(ws[a..b], 0), MethodsOf(f, ws[b..c], 0), MethodsOf(f, ws[c..], 0))
  }

  function ReadClassData(f: seq<Byte>, off: nat): ClassDataView {
    match ReadUlebs(From(f, off), 4)
    case None => NO_CLASS_DATA
    case Some(d) =>
      var a: nat, b: nat, c: nat, e: nat := d.value[0], d.value[1], d.value[2], d.value[3];
      match ReadUlebs(d.rest, 2 * a + 2 * b + 3 * c + 3 * e)
      case None => NO_CLASS_DATA
      case Some(w) => ClassDataFrom(f, w.value, 2 * a, 2 * a + 2 * b, 2 * a + 2 * b + 3 * c)
  }

  // ------------------------------------------------------------------ annotations

  const NO_ANNOTATION := AnnotationItem(0, EncodedAnnotation(0, []))

  function ReadAnnotationItem(f: seq<Byte>, off: nat): AnnotationItem {
    if off >= |f| then NO_ANNOTATION
    else
      match ReadAnnotation(From(f, off + 1))
      case None => NO_ANNOTATION
      case Some(d) => AnnotationItem(f[off], d.value)
  }

  function ReadItems(f: seq<Byte>, p: nat, n: nat): seq<AnnotationItem>
    decreases n
  {
    if n == 0 then [] else [ReadAnnotationItem(f, Word(f, p))] + ReadItems(f, p + 4, n - 1)
  }

  function ReadAnnotationSet(f: seq<Byte>, off: nat): seq<AnnotationItem> {
    ReadItems(f, off + 4, Word(f, off))
  }

  function ReadRefs(f: seq<Byte>, p: nat, n: nat): seq<Option<seq<AnnotationItem>>>
    decreases n
  {
    if n == 0 then []
    else [if Word(f, p) == 0 then None else Some(ReadAnnotationSet(f, Word(f, p)))] + ReadRefs(f, p + 4, n - 1)
  }

  function ReadSetRefs(f: seq<Byte>, off: nat): seq<Option<seq<AnnotationItem>>> {
    ReadRefs(f, off + 4, Word(f, off))
  }

  function ReadMembers(f: seq<Byte>, p: nat, n: nat): seq<MemberView>
    decreases n
  {
    if n == 0 then [] else [MemberView(Word(f, p), ReadAnnotationSet(f, Word(f, p + 4)))] + ReadMembers(f, p + 8, n - 1)
  }

  function ReadParameters(f: seq<Byte>, p: nat, n: nat): seq<ParameterView>
    decreases n
  {
    if n == 0 then [] else [ParameterView(Word(f, p), ReadSetRefs(f, Word(f, p + 4)))] + ReadParameters(f, p + 8, n - 1)
  }

  function ReadDirectory(f: seq<Byte>, off: nat): DirectoryView {
    var a, b, c := Word(f, off + 4), Word(f, off + 8), Word(f, off + 12);
    DirectoryView(if Word(f, off) == 0 then None else Some(ReadAnnotationSet(f, Word(f, off))),
                  ReadMembers(f, off + 16, a),
                  ReadMembers(f, off + 16 + 8 * a, b),
                  ReadParameters(f, off + 16 + 8 * a + 8 * b, c))
  }

  // ------------------------------------------------------------------ tables

  const NONE: nat := 0xffff_ffff

  function ReadClass(f: seq<Byte>, p: nat): ClassView {
    ClassView(Word(f, p), Word(f, p + 4),
              if Word(f, p + 8) == NONE then None else Some(Word(f, p + 8)),
              if Word(f, p + 12) == 0 then None else Some(ReadTypeList(f, Word(f, p + 12))),
              if Word(f, p + 16) == NONE then None else Some(Word(f, p + 16)),
              if Word(f, p + 20) == 0 then None else Some(ReadDirectory(f, Word(f, p + 20))),
              if Word(f, p + 24) == 0 then None else Some(ReadClassData(f, Word(f, p + 24))),
              if Word(f, p + 28) == 0 then None else Some(ReadEncodedArray(f, Word(f, p + 28))))
  }

  function ReadProto(f: seq<Byte>, p: nat): ProtoView {
    ProtoView(Word(f, p), Word(f, p + 4), if Word(f, p + 8) == 0 then None else Some(ReadTypeList(f, Word(f, p + 8))))
  }

  function ReadId(f: seq<Byte>, p: nat): IdView {
    IdView(Half(f, p), Half(f, p + 2), Word(f, p + 4))
  }

  function ReadHandle(f: seq<Byte>, p: nat): (nat, nat) {
    (Half(f, p), Half(f, p + 4))
  }

  // ------------------------------------------------------------------ the file

  datatype FileView = FileView(
    strings: seq<seq<Byte>>, types: seq<nat>, protos: seq<ProtoView>, fields: seq<IdView>, methods: seq<IdView>,
    classes: seq<ClassView>, callSites: seq<seq<EncodedValue>>, methodHandles: seq<(nat, nat)>, hidden: seq<Option<seq<UInt32>>>)

  /** The size and offset of the first map entry of a type. */
  function FindEntry(f: seq<Byte>, p: nat, n: nat, type_: nat): Option<(nat, nat)>
    decreases n
  {
    if n == 0 then None
    else if Half(f, p) == type_ then Some((Word(f, p + 4), Word(f, p + 8)))
    else FindEntry(f, p + 12, n - 1, type_)
  }

  function MapEntry(f: seq<Byte>, type_: nat): Option<(nat, nat)> {
    var off := Word(f, 52);
    FindEntry(f, off + 4, Word(f, off), type_)
  }

  function ReadStrings(f: seq<Byte>, off: nat, n: nat): (s: seq<seq<Byte>>)
    ensures |s| == n && forall i | 0 <= i < n :: s[i] == ReadStringData(f, Word(f, off + 4 * i))
  {
    seq(n, i requires 0 <= i < n => ReadStringData(f, Word(f, off + 4 * i)))
  }

  function ReadTypes(f: seq<Byte>, off: nat, n: nat): (s: seq<nat>)
    ensures |s| == n && forall i | 0 <= i < n :: s[i] == Word(f, off + 4 * i)
  {
    seq(n, i requires 0 <= i < n => Word(f, off + 4 * i))
  }

  function ReadProtos(f: seq<Byte>, off: nat, n: nat): (s: seq<ProtoView>)
    ensures |s| == n && forall i | 0 <= i < n :: s[i] == ReadProto(f, off + 12 * i)
  {
    seq(n, i requires 0 <= i < n => ReadProto(f, off + 12 * i))
  }

  function ReadIds(f: seq<Byte>, off: nat, n: nat): (s: seq<IdView>)
    ensures |s| == n && forall i | 0 <= i < n :: s[i] == ReadId(f, off + 8 * i)
  {
    seq(n, i requires 0 <= i < n => ReadId(f, off + 8 * i))
  }

  function ReadClasses(f: seq<Byte>, off: nat, n: nat): (s: seq<ClassView>)
    ensures |s| == n && forall i | 0 <= i < n :: s[i] == ReadClass(f, off + 32 * i)
  {
    seq(n, i requires 0 <= i < n => ReadClass(f, off + 32 * i))
  }

  function ReadCallSites(f: seq<Byte>, e: Option<(nat, nat)>): (s: seq<seq<EncodedValue>>)
    ensures e.None? ==> s == []
    ensures e.Some? ==> |s| == e.value.0 && forall i | 0 <= i < |s| :: s[i] == ReadEncodedArray(f, Word(f, e.value.1 + 4 * i))
  {
    if e.None? then []
    else seq(e.value.0, i requires 0 <= i < e.value.0 => ReadEncodedArray(f, Word(f, e.value.1 + 4 * i)))
  }

  function ReadHandles(f: seq<Byte>, e: Option<(nat, nat)>): (s: seq<(nat, nat)>)
    ensures e.None? ==> s == []
    ensures e.Some? ==> |s| == e.value.0 && forall i | 0 <= i < |s| :: s[i] == ReadHandle(f, e.value.1 + 8 * i)
  {
    if e.None? then [] else seq(e.value.0, i requires 0 <= i < e.value.0 => ReadHandle(f, e.value.1 + 8 * i))
  }

  function Members(c: ClassView): nat {
    if c.classData.None? then 0
    else |c.classData.value.staticFields| + |c.classData.value.instanceFields|
         + |c.classData.value.directMethods| + |c.classData.value.virtualMethods|
  }

  function ReadHidden(f: seq<Byte>, e: Option<(nat, nat)>, classes: seq<ClassView>): (s: seq<Option<seq<UInt32>>>)
    ensures e.None? ==> s == []
    ensures e.Some? ==> |s| == |classes| && forall i | 0 <= i < |s| :: s[i] == ReadFlags(From(f, e.value.1), i, Members(classes[i]))
  {
    if e.None? then []
    else seq(|classes|, i requires 0 <= i < |classes| => ReadFlags(From(f, e.value.1), i, Members(classes[i])))
  }

  /** Everything a file says, found from its header and its map list. */
  function ReadFile(f: seq<Byte>): FileView {
    var classes := ReadClasses(f, Word(f, 100), Word(f, 96));
    FileView(ReadStrings(f, Word(f, 60), Word(f, 56)),
             ReadTypes(f, Word(f, 68), Word(f, 64)),
             ReadProtos(f, Word(f, 76), Word(f, 72)),
             ReadIds(f, Word(f, 84), Word(f, 80)),
             ReadIds(f, Word(f, 92), Word(f, 88)),
             classes,
             ReadCallSites(f, MapEntry(f, 0x0007)),
             ReadHandles(f, MapEntry(f, 0x0008)),
             ReadHidden(f, MapEntry(f, 0xF000), classes))
  }
}
