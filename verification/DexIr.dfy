/**
  * The dex IR: the collections a `dex_ir::Header` owns. A pointer to an item is the index of the
  * item in its collection; a pointer that may be null is an `Option`.
  */
module DexIr {
  import opened Bytes
  import opened EncodedValues

  datatype ProtoId = ProtoId(shorty: UInt32, returnType: UInt32, parameters: Option<nat>)

  datatype FieldId = FieldId(classIdx: UInt16, typeIdx: UInt16, name: UInt32)

  datatype MethodId = MethodId(classIdx: UInt16, proto: UInt16, name: UInt32)

  datatype ClassDef = ClassDef(
    classType: UInt16,
    accessFlags: UInt32,
    superclass: Option<UInt16>,
    interfaces: Option<nat>,
    sourceFile: Option<UInt32>,
    annotations: Option<nat>,
    classData: Option<nat>,
    staticValues: Option<nat>)

  datatype MethodHandle = MethodHandle(handleType: UInt16, fieldOrMethod: UInt16)

  /** A catch clause; a clause without a type catches everything. */
  datatype TypeAddrPair = TypeAddrPair(typeIdx: Option<UInt16>, address: UInt32)

  datatype CatchHandler = CatchHandler(catchAll: bool, listOffset: UInt16, handlers: seq<TypeAddrPair>)

  /** `handler` is the index of the catch handler in the code item's list. */
  datatype TryItem = TryItem(startAddr: UInt32, insnCount: UInt16, handler: nat)

  datatype CodeItem = CodeItem(
    registersSize: UInt16,
    insSize: UInt16,
    outsSize: UInt16,
    debugInfo: Option<nat>,
    insns: seq<UInt16>,
    tries: seq<TryItem>,
    handlers: seq<CatchHandler>)

  datatype AnnotationItem = AnnotationItem(visibility: Byte, annotation: EncodedAnnotation)

  /** A field or method index and the annotation set, or set reference list, attached to it. */
  datatype MemberAnnotation = MemberAnnotation(member: UInt32, set_: nat)

  datatype AnnotationsDirectory = AnnotationsDirectory(
    classAnnotation: Option<nat>,
    fields: Option<seq<MemberAnnotation>>,
    methods: Option<seq<MemberAnnotation>>,
    parameters: Option<seq<MemberAnnotation>>)

  datatype FieldItem = FieldItem(field: UInt32, accessFlags: UInt32)

  datatype MethodItem = MethodItem(method_: UInt32, accessFlags: UInt32, code: Option<nat>)

  datatype ClassData = ClassData(
    staticFields: seq<FieldItem>,
    instanceFields: seq<FieldItem>,
    directMethods: seq<MethodItem>,
    virtualMethods: seq<MethodItem>)

  /**
    * The hidden-API flags of a class, one per member in class-data order (static fields, instance
    * fields, direct methods, virtual methods); `None` is a null flags map.
    */
  type HiddenapiFlags = Option<seq<UInt32>>

  /** The sections, in the order in which they lie in the file. */
  datatype Kind =
    | StringIds | TypeIds | ProtoIds | FieldIds | MethodIds | ClassDefs | CallSiteIds | MethodHandles
    | CodeItems | DebugInfos | EncodedArrays | Annotations | AnnotationSets | AnnotationSetRefs
    | AnnotationDirs | TypeLists | ClassDatas | StringDatas | Hiddenapi

  datatype Header = Header(
    stringIds: seq<nat>,
    typeIds: seq<UInt32>,
    protoIds: seq<ProtoId>,
    fieldIds: seq<FieldId>,
    methodIds: seq<MethodId>,
    classDefs: seq<ClassDef>,
    callSiteIds: seq<nat>,
    methodHandles: seq<MethodHandle>,
    codeItems: seq<CodeItem>,
    debugInfos: seq<seq<Byte>>,
    encodedArrays: seq<seq<EncodedValue>>,
    annotations: seq<AnnotationItem>,
    annotationSets: seq<seq<nat>>,
    annotationSetRefs: seq<seq<Option<nat>>>,
    annotationDirs: seq<AnnotationsDirectory>,
    typeLists: seq<seq<UInt16>>,
    classDatas: seq<ClassData>,
    stringDatas: seq<seq<Byte>>,
    hiddenapi: seq<HiddenapiFlags>,
    linkData: seq<Byte>,
    /** The link offset before writing; it stays when there is no link data. */
    linkOffset: UInt32,
    /** The offsets of the collections before writing; that of an empty section stays. */
    sectionOffsets: map<Kind, nat>,
    /** Magic, checksum and signature, copied as they are: 32 bytes. */
    prefix: seq<Byte>,
    endianTag: UInt32)

  /** The number of members of a class, in class-data order. */
  function MemberCount(c: ClassData): nat {
    |c.staticFields| + |c.instanceFields| + |c.directMethods| + |c.virtualMethods|
  }

  predicate OptionBelow(o: Option<nat>, n: nat) {
    o.None? || o.value < n
  }

  predicate MembersBelow(ms: Option<seq<MemberAnnotation>>, n: nat) {
    ms.None? || forall i | 0 <= i < |ms.value| :: ms.value[i].set_ < n
  }

  predicate GoodClassDef(ir: Header, c: ClassDef) {
    && OptionBelow(c.interfaces, |ir.typeLists|)
    && OptionBelow(c.annotations, |ir.annotationDirs|)
    && OptionBelow(c.classData, |ir.classDatas|)
    && OptionBelow(c.staticValues, |ir.encodedArrays|)
  }

  predicate GoodCodeItem(ir: Header, c: CodeItem) {
    && OptionBelow(c.debugInfo, |ir.debugInfos|)
    && (forall t | 0 <= t < |c.tries| :: c.tries[t].handler < |c.handlers|)
  }

  predicate GoodMethods(ir: Header, ms: seq<MethodItem>) {
    forall i | 0 <= i < |ms| :: OptionBelow(ms[i].code, |ir.codeItems|)
  }

  predicate GoodClassData(ir: Header, c: ClassData) {
    GoodMethods(ir, c.directMethods) && GoodMethods(ir, c.virtualMethods)
  }

  predicate GoodDirectory(ir: Header, d: AnnotationsDirectory) {
    && OptionBelow(d.classAnnotation, |ir.annotationSets|)
    && MembersBelow(d.fields, |ir.annotationSets|)
    && MembersBelow(d.methods, |ir.annotationSets|)
    && MembersBelow(d.parameters, |ir.annotationSetRefs|)
  }

  /** Hidden-API data is absent, or holds an entry per class whose flags match the class's members. */
  predicate GoodHiddenapi(ir: Header) {
    ir.hiddenapi == [] ||
    (&& |ir.hiddenapi| == |ir.classDefs|
     && forall i | 0 <= i < |ir.hiddenapi| :: ir.hiddenapi[i].Some? ==> GoodFlags(ir, i))
  }

  predicate GoodFlags(ir: Header, i: nat)
    requires i < |ir.hiddenapi| == |ir.classDefs| && ir.hiddenapi[i].Some?
  {
    var data := ir.classDefs[i].classData;
    data.Some? && data.value < |ir.classDatas| && |ir.hiddenapi[i].value| == MemberCount(ir.classDatas[data.value])
  }

  /** Every pointer of the IR points into its collection. */
  predicate WellFormed(ir: Header) {
    && (forall i | 0 <= i < |ir.stringIds| :: ir.stringIds[i] < |ir.stringDatas|)
    && (forall i | 0 <= i < |ir.protoIds| :: OptionBelow(ir.protoIds[i].parameters, |ir.typeLists|))
    && (forall i | 0 <= i < |ir.classDefs| :: GoodClassDef(ir, ir.classDefs[i]))
    && (forall i | 0 <= i < |ir.callSiteIds| :: ir.callSiteIds[i] < |ir.encodedArrays|)
    && (forall i | 0 <= i < |ir.codeItems| :: GoodCodeItem(ir, ir.codeItems[i]))
    && (forall i | 0 <= i < |ir.annotationSets| :: GoodSet(ir, ir.annotationSets[i]))
    && (forall i | 0 <= i < |ir.annotationSetRefs| :: GoodSetRefs(ir, ir.annotationSetRefs[i]))
    && (forall i | 0 <= i < |ir.annotationDirs| :: GoodDirectory(ir, ir.annotationDirs[i]))
    && (forall i | 0 <= i < |ir.classDatas| :: GoodClassData(ir, ir.classDatas[i]))
    && GoodHiddenapi(ir)
    && |ir.prefix| == 32
  }

  predicate GoodSet(ir: Header, set_: seq<nat>) {
    forall j | 0 <= j < |set_| :: set_[j] < |ir.annotations|
  }

  predicate GoodSetRefs(ir: Header, refs: seq<Option<nat>>) {
    forall j | 0 <= j < |refs| :: OptionBelow(refs[j], |ir.annotationSets|)
  }
}
