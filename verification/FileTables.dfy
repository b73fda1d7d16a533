/** The tables of a written file, the map list, and the file as a whole, read back. */
module FileTables {
  import opened Bytes
  import opened Packing
  import opened DexIr
  import opened Items
  import opened HiddenApi
  import opened Layout
  import opened LayoutFacts
  import opened SectionWriter
  import opened FileSections
  import opened MapList
  import opened DexFileWriter
  import opened FileTheorems
  import opened Reading
  import opened FileReader
  import opened ItemDecoding
  import opened FileMeaning
  import opened FileRoundTrip

  // ------------------------------------------------------------------ where the rows of a table are

  /** The tables lie before the data section and have rows of one size. */
  function Stride(k: Kind): nat {
    match k
    case StringIds => 4
    case TypeIds => 4
    case ProtoIds => 12
    case FieldIds => 8
    case MethodIds => 8
    case ClassDefs => 32
    case CallSiteIds => 4
    case MethodHandles => 8
    case _ => 0
  }

  lemma RowSize(ir: Header, o: Offsets, k: Kind, i: nat)
    requires i < Count(ir, k) && Stride(k) != 0
    ensures |ItemBytes(ir, o, k, i)| == Stride(k) && SectionAlignment(k) == 4 && Stride(k) % 4 == 0
  {
    hide U32s, U16s, ClassDefWords;
  }

  lemma {:induction false} RowsEnd(start: nat, list: seq<seq<Byte>>, st: nat, n: nat)
    requires n <= |list| && start % 4 == 0 && st % 4 == 0 && forall i | 0 <= i < |list| :: |list[i]| == st
    ensures EndAt(4, start, list, n) == start + st * n && EndAt(4, start, list, n) % 4 == 0
    ensures StartAt(4, start, list, n) == start + st * n
  {
    hide *;
    NothingPacked(4, start, list);
    if n > 0 {
      RowsEnd(start, list, st, n - 1);
      StartIs(4, start, list, n - 1);
      OneRowMore(st, n);
      BothMultiples(start + st * (n - 1), st);
    }
    AlignedAlready(EndAt(4, start, list, n));
    StartAlways(4, start, list, n);
  }

  lemma OneRowMore(st: nat, n: nat)
    requires n > 0
    ensures st * n == st * (n - 1) + st
  {
  }

  lemma BothMultiples(x: nat, y: nat)
    ensures x % 4 == 0 && y % 4 == 0 ==> (x + y) % 4 == 0
  {
  }

  lemma StartAlways(a: Alignment, start: nat, list: seq<seq<Byte>>, i: nat)
    requires i <= |list|
    ensures StartAt(a, start, list, i) == AlignUp(EndAt(a, start, list, i), a)
  {
    hide AlignUp, EndAt;
  }

  lemma AlignedAlready(p: nat)
    ensures p % 4 == 0 ==> AlignUp(p, 4) == p
  {
  }

  lemma {:induction false} TablesAligned(ir: Header, n: nat)
    requires n <= 8
    ensures Placed(ir, n).pos % 4 == 0
  {
    hide *;
    PlacedStart(ir);
    Constants();
    if n > 0 {
      TablesAligned(ir, n - 1);
      var k := KindAt(n - 1);
      TableKind(n - 1);
      PlacedAfter(ir, k);
      StartOfOther(ir, k);
      TableEnd(ir, k);
    }
  }

  lemma TableKind(n: nat)
    requires n < 8
    ensures KindAt(n) != CodeItems && IndexOf(KindAt(n)) == n && Stride(KindAt(n)) != 0
  {
  }

  /** A table whose start is aligned: its rows, and its end. */
  lemma TableEnd(ir: Header, k: Kind)
    requires Stride(k) != 0 && StartOf(ir, k) % 4 == 0
    ensures (StartOf(ir, k) + |SectionBytes(ir, k)|) % 4 == 0
    ensures forall i | 0 <= i < Count(ir, k) :: ItemStart(ir, k, i) == StartOf(ir, k) + Stride(k) * i
  {
    hide *;
    var list, start := ItemList(ir, FinalOffsets(ir), k), StartOf(ir, k);
    SectionIs(ir, k);
    forall i | 0 <= i < Count(ir, k) ensures |list[i]| == Stride(k) && SectionAlignment(k) == 4 && Stride(k) % 4 == 0 {
      RowSize(ir, FinalOffsets(ir), k, i);
      ListElement(ir, FinalOffsets(ir), k, i);
    }
    if Count(ir, k) == 0 {
      NothingPacked(SectionAlignment(k), start, list);
    } else {
      RowSize(ir, FinalOffsets(ir), k, 0);
      RowsEnd(start, list, Stride(k), Count(ir, k));
    }
    forall i | 0 <= i < Count(ir, k) ensures ItemStart(ir, k, i) == StartOf(ir, k) + Stride(k) * i {
      RowSize(ir, FinalOffsets(ir), k, 0);
      RowsEnd(start, list, Stride(k), i);
      ItemStartIs(ir, k, i);
    }
  }

  lemma TableIndex(k: Kind)
    requires Stride(k) != 0
    ensures IndexOf(k) < 8 && k != CodeItems && k != DebugInfos && k != Hiddenapi
  {
  }

  /** Row `i` of a table, as a row of the bytes. */
  lemma RowInFile(ir: Header, items: seq<MapItem>, f: seq<Byte>, k: Kind, i: nat)
    requires IsFileOf(ir, items, f) && Stride(k) != 0 && i < Count(ir, k)
    ensures Holds(f, FinalSectionOff(ir, k) + Stride(k) * i, ItemBytes(ir, FinalOffsets(ir), k, i))
    ensures FinalSectionOff(ir, k) < LIMIT && Count(ir, k) < LIMIT
  {
    hide *;
    FileGives(ir, items, f);
    TableIndex(k);
    TablesAligned(ir, IndexOf(k));
    StartOfOther(ir, k);
    TableEnd(ir, k);
    TableTakesRoom(ir, k);
    FinalOffIs(ir, k);
    SectionOffsetsStep(ir, k);
    ItemInFile(ir, items, k, i);
    var last := Count(ir, k) - 1;
    ItemInFile(ir, items, k, last);
    HoldsInside(f, ItemStart(ir, k, last), ItemBytes(ir, FinalOffsets(ir), k, last));
    RowSize(ir, FinalOffsets(ir), k, last);
    AtLeast(Stride(k), last);
  }

  lemma AtLeast(st: nat, n: nat)
    requires st >= 1
    ensures st * n >= n
  {
  }

  // ------------------------------------------------------------------ the header's sizes and offsets

  lemma HeaderTable(ir: Header, items: seq<MapItem>, f: seq<Byte>, k: Kind, j: nat)
    requires IsFileOf(ir, items, f) && Stride(k) != 0 && j < 19
    requires HeaderWords(ir)[j] == Count(ir, k) && HeaderWords(ir)[j + 1] == FinalSectionOff(ir, k)
    ensures Word(f, 32 + 4 * j) == Count(ir, k)
    ensures Count(ir, k) > 0 ==> Word(f, 32 + 4 * (j + 1)) == FinalSectionOff(ir, k)
  {
    hide *;
    FileGives(ir, items, f);
    HeaderWordInFile(ir, items, j);
    HeaderWordInFile(ir, items, j + 1);
    if Count(ir, k) > 0 {
      RowInFile(ir, items, f, k, 0);
      FitsWord(FinalSectionOff(ir, k));
      FitsWord(Count(ir, k));
    } else {
      FitsWord(0);
    }
  }

  lemma HeaderFieldsAt(ir: Header)
    requires |ir.prefix| == 32
    ensures var h := HeaderWords(ir);
            && h[6] == Count(ir, StringIds) && h[7] == FinalSectionOff(ir, StringIds)
            && h[8] == Count(ir, TypeIds) && h[9] == FinalSectionOff(ir, TypeIds)
            && h[10] == Count(ir, ProtoIds) && h[11] == FinalSectionOff(ir, ProtoIds)
            && h[12] == Count(ir, FieldIds) && h[13] == FinalSectionOff(ir, FieldIds)
            && h[14] == Count(ir, MethodIds) && h[15] == FinalSectionOff(ir, MethodIds)
            && h[16] == Count(ir, ClassDefs) && h[17] == FinalSectionOff(ir, ClassDefs)
            && h[5] == MapOffset(ir)
  {
    hide *;
    DexFileWriter.HeaderIs(ir);
    FinalSectionOffset(ir, StringIds);
    FinalSectionOffset(ir, TypeIds);
    FinalSectionOffset(ir, ProtoIds);
    FinalSectionOffset(ir, FieldIds);
    FinalSectionOffset(ir, MethodIds);
    FinalSectionOffset(ir, ClassDefs);
    FieldsAt(ir, SectionOffsets(ir, KINDS), FileSize(ir), LinkOffset(ir), MapOffset(ir), DataEnd(ir) - DataOffset(ir), DataOffset(ir));
    TableCounts(ir);
  }

  /** The place among the header's words of an id table's size; its offset is behind it. */
  function SizeWord(k: Kind): nat {
    if k == StringIds then 6 else if k == TypeIds then 8 else if k == ProtoIds then 10
    else if k == FieldIds then 12 else if k == MethodIds then 14 else 16
  }

  /** The tables that the header names. */
  predicate InHeader(k: Kind) {
    k == StringIds || k == TypeIds || k == ProtoIds || k == FieldIds || k == MethodIds || k == ClassDefs
  }

  lemma HeaderFieldsOf(ir: Header, k: Kind)
    requires |ir.prefix| == 32 && InHeader(k)
    ensures SizeWord(k) < 17 && HeaderWords(ir)[SizeWord(k)] == Count(ir, k) && HeaderWords(ir)[SizeWord(k) + 1] == FinalSectionOff(ir, k)
  {
    hide Count, FinalSectionOff, HeaderWords;
    HeaderFieldsAt(ir);
  }

  lemma TableOffset(ir: Header, k: Kind)
    requires InHeader(k)
    ensures FinalSectionOff(ir, k) == if Count(ir, k) > 0 then StartOf(ir, k) else SecOff(ir.sectionOffsets, k)
  {
    hide FinalSectionOff, StartOf, SecOff, Count, SectionBytes;
    FinalOffIs(ir, k);
    SectionOffsetsStep(ir, k);
    if Count(ir, k) > 0 {
      TableTakesRoom(ir, k);
    } else {
      EmptySection(ir, k);
    }
  }

  /**
    * What the written file's header says of an id table. With items: their number and where the
    * table begins. Without: size zero, and the offset the collection had before writing, so that
    * the offset is the zero the format asks for exactly when that one was.
    */
  lemma HeaderOffsetOfTable(ir: Header, items: seq<MapItem>, k: Kind)
    requires |ir.prefix| == 32 && |items| == |MapEntries(ir)| && InHeader(k)
    ensures var f, at := FileBytes(ir, items), 32 + 4 * SizeWord(k);
            && Word(f, at) == ToU32(Count(ir, k))
            && Word(f, at + 4) == ToU32(if Count(ir, k) > 0 then StartOf(ir, k) else SecOff(ir.sectionOffsets, k))
            && (Count(ir, k) == 0 ==> Word(f, at) == 0 && (Word(f, at + 4) == 0 <==> ToU32(SecOff(ir.sectionOffsets, k)) == 0))
  {
    hide *;
    HeaderFieldsOf(ir, k);
    TableOffset(ir, k);
    HeaderWordInFile(ir, items, SizeWord(k));
    HeaderWordInFile(ir, items, SizeWord(k) + 1);
    LimitIs();
    FitsWord(0);
  }

  /** The format's rule for a table of a file: size zero and offset zero go together. */
  predicate ZeroTogether(f: seq<Byte>, k: Kind) {
    Word(f, 32 + 4 * SizeWord(k)) == 0 <==> Word(f, 32 + 4 * SizeWord(k) + 4) == 0
  }

  /** A file below 4 GiB obeys the rule for a table exactly when the table has items or its old offset was zero. */
  lemma ZeroTogetherIff(ir: Header, items: seq<MapItem>, f: seq<Byte>, k: Kind)
    requires IsFileOf(ir, items, f) && InHeader(k)
    ensures ZeroTogether(f, k) <==> Count(ir, k) > 0 || ToU32(SecOff(ir.sectionOffsets, k)) == 0
  {
    hide *;
    FileGives(ir, items, f);
    HeaderOffsetOfTable(ir, items, k);
    TableOffset(ir, k);
    ZeroTogetherIs(f, k);
    if Count(ir, k) > 0 {
      InHeaderIsTable(k);
      RowInFile(ir, items, f, k, 0);
      FitsWord(Count(ir, k));
      FitsWord(StartOf(ir, k));
      HeaderNotZero();
    }
  }

  lemma ZeroTogetherIs(f: seq<Byte>, k: Kind)
    ensures ZeroTogether(f, k) <==> (Word(f, 32 + 4 * SizeWord(k)) == 0 <==> Word(f, 32 + 4 * SizeWord(k) + 4) == 0)
  {
    hide Word, SizeWord;
  }

  lemma InHeaderIsTable(k: Kind)
    requires InHeader(k)
    ensures Stride(k) != 0
  {
  }

  /**
    * The IR of an input with one class, `A`, read with a class filter that leaves it out. The
    * collections have the offsets of the input; the class is gone, its string and type are not.
    */
  const FILTERED: Header :=
    Header([0], [0], [], [], [], [], [], [], [], [], [], [], [], [], [], [], [], [['L' as int, 'A' as int, ';' as int]], [], [], 0,
           map[StringIds := 0x70, TypeIds := 0x74, ClassDefs := 0x78, StringDatas := 0x98], seq(32, i => 0), 0x1234_5678)

  /** Writing it breaks the rule: no classes, and the class definitions' offset of the input. */
  lemma FilteredClassesKeepOffset(items: seq<MapItem>)
    requires |items| == |MapEntries(FILTERED)|
    ensures WellFormed(FILTERED) && |FILTERED.prefix| == 32
    ensures var f := FileBytes(FILTERED, items); Word(f, 96) == 0 && Word(f, 100) == 0x78 && !ZeroTogether(f, ClassDefs)
  {
    FilteredIs();
    hide *;
    LimitIs();
    SizeWordOfClasses();
    HeaderOffsetOfTable(FILTERED, items, ClassDefs);
    ZeroTogetherIs(FileBytes(FILTERED, items), ClassDefs);
    FitsWord(0x78);
  }

  lemma SizeWordOfClasses()
    ensures SizeWord(ClassDefs) == 16 && InHeader(ClassDefs)
  {
  }

  lemma FilteredIs()
    ensures WellFormed(FILTERED) && |FILTERED.prefix| == 32
    ensures Count(FILTERED, ClassDefs) == 0 && SecOff(FILTERED.sectionOffsets, ClassDefs) == 0x78
  {
  }

  lemma FieldsAt(ir: Header, offs: map<Kind, nat>, fileSize: nat, linkOffset: nat, mapOffset: nat, dataSize: int, dataOffset: nat)
    ensures var h := HeaderFields(ir, offs, fileSize, linkOffset, mapOffset, dataSize, dataOffset);
            && h[5] == mapOffset && h[6] == |ir.stringIds| && h[7] == SecOff(offs, StringIds)
            && h[8] == |ir.typeIds| && h[9] == SecOff(offs, TypeIds) && h[10] == |ir.protoIds| && h[11] == SecOff(offs, ProtoIds)
            && h[12] == |ir.fieldIds| && h[13] == SecOff(offs, FieldIds) && h[14] == |ir.methodIds| && h[15] == SecOff(offs, MethodIds)
            && h[16] == |ir.classDefs| && h[17] == SecOff(offs, ClassDefs)
            && h[0] == fileSize && h[1] == HEADER_SIZE && h[2] == ir.endianTag && h[3] == |ir.linkData| && h[4] == linkOffset
            && h[18] == dataSize && h[19] == dataOffset
  {
    hide SecOff;
  }

  lemma TableCounts(ir: Header)
    ensures Count(ir, StringIds) == |ir.stringIds| && Count(ir, TypeIds) == |ir.typeIds| && Count(ir, ProtoIds) == |ir.protoIds|
    ensures Count(ir, FieldIds) == |ir.fieldIds| && Count(ir, MethodIds) == |ir.methodIds| && Count(ir, ClassDefs) == |ir.classDefs|
    ensures Count(ir, CallSiteIds) == |ir.callSiteIds| && Count(ir, MethodHandles) == |ir.methodHandles|
    ensures Count(ir, Hiddenapi) == if ir.hiddenapi == [] then 0 else 1
  {
  }

  // ------------------------------------------------------------------ the rows

  lemma RowBytes(ir: Header, o: Offsets, k: Kind, i: nat)
    requires i < Count(ir, k)
    ensures k == StringIds ==> ItemBytes(ir, o, k, i) == U32s([Off(o, StringDatas, ir.stringIds[i])])
    ensures k == TypeIds ==> ItemBytes(ir, o, k, i) == U32s([ir.typeIds[i]])
    ensures k == ProtoIds ==>
              ItemBytes(ir, o, k, i) == U32s([ir.protoIds[i].shorty, ir.protoIds[i].returnType, OffOrZero(o, TypeLists, ir.protoIds[i].parameters)])
    ensures k == FieldIds ==>
              ItemBytes(ir, o, k, i) == U16s([ir.fieldIds[i].classIdx, ir.fieldIds[i].typeIdx]) + U32s([ir.fieldIds[i].name])
    ensures k == MethodIds ==>
              ItemBytes(ir, o, k, i) == U16s([ir.methodIds[i].classIdx, ir.methodIds[i].proto]) + U32s([ir.methodIds[i].name])
    ensures k == ClassDefs ==> ItemBytes(ir, o, k, i) == U32s(ClassDefWords(o, ir.classDefs[i]))
    ensures k == CallSiteIds ==> ItemBytes(ir, o, k, i) == U32s([Off(o, EncodedArrays, ir.callSiteIds[i])])
    ensures k == MethodHandles ==> ItemBytes(ir, o, k, i) == U16s([ir.methodHandles[i].handleType, 0, ir.methodHandles[i].fieldOrMethod, 0])
  {
    hide U32s, U16s, ClassDefWords, Off, OffOrZero;
  }

  lemma PointersBelow(ir: Header, i: nat)
    requires WellFormed(ir)
    ensures i < |ir.stringIds| ==> ir.stringIds[i] < |ir.stringDatas|
    ensures i < |ir.callSiteIds| ==> ir.callSiteIds[i] < |ir.encodedArrays|
    ensures i < |ir.protoIds| ==> OptionBelow(ir.protoIds[i].parameters, |ir.typeLists|)
    ensures i < |ir.classDefs| ==> GoodClassDef(ir, ir.classDefs[i])
  {
    hide GoodClassDef, OptionBelow;
  }

  lemma StringRow(ir: Header, items: seq<MapItem>, f: seq<Byte>, i: nat)
    requires IsFileOf(ir, items, f) && i < |ir.stringIds|
    ensures ReadStringData(f, Word(f, FinalSectionOff(ir, StringIds) + 4 * i)) == ViewString(ir, ir.stringIds[i])
  {
    hide *;
    FileGives(ir, items, f);
    TableCounts(ir);
    StridesAre();
    RowInFile(ir, items, f, StringIds, i);
    RowBytes(ir, FinalOffsets(ir), StringIds, i);
    PointersBelow(ir, i);
    var s, off := ir.stringIds[i], Off(FinalOffsets(ir), StringDatas, ir.stringIds[i]);
    MoreFacts(ir, FinalOffsets(ir), StringDatas, s);
    Pointed(ir, items, f, StringDatas, s);
    GoodIs(FinalOffsets(ir), StringDatas, s);
    WordAt(f, FinalSectionOff(ir, StringIds) + 4 * i, [off], 0);
    ReadableItems(ir, items, f, s);
    StringDecode(f, off, ir.stringDatas[s]);
    ViewStringIs(ir, s);
  }

  lemma ViewStringIs(ir: Header, s: nat)
    ensures s < |ir.stringDatas| ==> ViewString(ir, s) == ir.stringDatas[s]
  {
  }

  lemma StridesAre()
    ensures Stride(StringIds) == 4 && Stride(TypeIds) == 4 && Stride(ProtoIds) == 12 && Stride(FieldIds) == 8 && Stride(MethodIds) == 8
    ensures Stride(ClassDefs) == 32 && Stride(CallSiteIds) == 4 && Stride(MethodHandles) == 8
  {
  }

  lemma TypeRow(ir: Header, items: seq<MapItem>, f: seq<Byte>, i: nat)
    requires IsFileOf(ir, items, f) && i < |ir.typeIds|
    ensures Word(f, FinalSectionOff(ir, TypeIds) + 4 * i) == ir.typeIds[i]
  {
    hide *;
    TableCounts(ir);
    StridesAre();
    RowInFile(ir, items, f, TypeIds, i);
    RowBytes(ir, FinalOffsets(ir), TypeIds, i);
    LimitIs();
    WordAt(f, FinalSectionOff(ir, TypeIds) + 4 * i, [ir.typeIds[i]], 0);
  }

  /** A nullable pointer to a type list, as a word of the file. */
  lemma ListPointer(ir: Header, o: Offsets, f: seq<Byte>, i: Option<nat>)
    requires ListsRead(ir, o, f) && OptionBelow(i, |ir.typeLists|)
    ensures var x := OffOrZero(o, TypeLists, i);
            x < LIMIT && (if x == 0 then None else Some(ReadTypeList(f, x))) == ViewTypeList(ir, i)
  {
    hide ReadTypeList;
    if i.Some? { assert FileMeaning.Good(o, TypeLists, i.value); }
  }

  lemma ArrayPointer(ir: Header, o: Offsets, f: seq<Byte>, i: Option<nat>)
    requires ArraysRead(ir, o, f) && OptionBelow(i, |ir.encodedArrays|)
    ensures var x := OffOrZero(o, EncodedArrays, i);
            x < LIMIT && (if x == 0 then None else Some(ReadEncodedArray(f, x))) == ViewArray(ir, i)
  {
    hide ReadEncodedArray;
    if i.Some? { assert FileMeaning.Good(o, EncodedArrays, i.value); }
  }

  lemma DirPointer(ir: Header, o: Offsets, f: seq<Byte>, i: Option<nat>)
    requires DirsRead(ir, o, f) && OptionBelow(i, |ir.annotationDirs|)
    ensures var x := OffOrZero(o, AnnotationDirs, i);
            x < LIMIT && (if x == 0 then None else Some(ReadDirectory(f, x)))
                         == if i.None? || i.value >= |ir.annotationDirs| then None else Some(ViewDirectory(ir, ir.annotationDirs[i.value]))
  {
    hide ReadDirectory, ViewDirectory;
    if i.Some? { assert FileMeaning.Good(o, AnnotationDirs, i.value); }
  }

  lemma DataPointer(ir: Header, o: Offsets, f: seq<Byte>, i: Option<nat>)
    requires DataRead(ir, o, f) && OptionBelow(i, |ir.classDatas|)
    ensures var x := OffOrZero(o, ClassDatas, i);
            x < LIMIT && (if x == 0 then None else Some(ReadClassData(f, x)))
                         == if i.None? || i.value >= |ir.classDatas| then None else Some(ViewClassData(ir, ir.classDatas[i.value]))
  {
    hide ReadClassData, ViewClassData;
    if i.Some? { assert FileMeaning.Good(o, ClassDatas, i.value); }
  }

  lemma ProtoRow(ir: Header, items: seq<MapItem>, f: seq<Byte>, i: nat)
    requires IsFileOf(ir, items, f) && i < |ir.protoIds|
    ensures ReadProto(f, FinalSectionOff(ir, ProtoIds) + 12 * i) == ViewProto(ir, ir.protoIds[i])
  {
    hide *;
    FileGives(ir, items, f);
    TableCounts(ir);
    StridesAre();
    RowInFile(ir, items, f, ProtoIds, i);
    RowBytes(ir, FinalOffsets(ir), ProtoIds, i);
    PointersBelow(ir, i);
    ListsAreRead(ir, items, f);
    var p, row := ir.protoIds[i], FinalSectionOff(ir, ProtoIds) + 12 * i;
    ListPointer(ir, FinalOffsets(ir), f, p.parameters);
    var xs := [p.shorty, p.returnType, OffOrZero(FinalOffsets(ir), TypeLists, p.parameters)];
    LimitIs();
    WordAt(f, row, xs, 0);
    WordAt(f, row, xs, 1);
    WordAt(f, row, xs, 2);
    ProtosAre(ir, f, row, p);
  }

  lemma ProtosAre(ir: Header, f: seq<Byte>, row: nat, p: ProtoId)
    ensures ReadProto(f, row)
         == ProtoView(Word(f, row), Word(f, row + 4), if Word(f, row + 8) == 0 then None else Some(ReadTypeList(f, Word(f, row + 8))))
    ensures ViewProto(ir, p) == ProtoView(p.shorty, p.returnType, ViewTypeList(ir, p.parameters))
  {
    hide Word, ReadTypeList, ViewTypeList;
  }

  /** A row of two halves and a word. */
  lemma IdRow(f: seq<Byte>, row: nat, a: UInt16, b: UInt16, c: UInt32)
    requires Holds(f, row, U16s([a, b]) + U32s([c]))
    ensures ReadId(f, row) == IdView(a, b, c)
  {
    hide Holds, U16s, U32s, Half, Word;
    HoldsConcat(f, row, U16s([a, b]), U32s([c]));
    HalfOfRun(f, row, [a, b], 0);
    HalfOfRun(f, row, [a, b], 1);
    FitsHalf(a);
    FitsHalf(b);
    WordAt(f, row + 4, [c], 0);
  }

  lemma FieldRow(ir: Header, items: seq<MapItem>, f: seq<Byte>, i: nat)
    requires IsFileOf(ir, items, f) && i < |ir.fieldIds|
    ensures ReadId(f, FinalSectionOff(ir, FieldIds) + 8 * i) == IdView(ir.fieldIds[i].classIdx, ir.fieldIds[i].typeIdx, ir.fieldIds[i].name)
  {
    hide *;
    TableCounts(ir);
    StridesAre();
    RowInFile(ir, items, f, FieldIds, i);
    RowBytes(ir, FinalOffsets(ir), FieldIds, i);
    IdRow(f, FinalSectionOff(ir, FieldIds) + 8 * i, ir.fieldIds[i].classIdx, ir.fieldIds[i].typeIdx, ir.fieldIds[i].name);
  }

  lemma MethodRow(ir: Header, items: seq<MapItem>, f: seq<Byte>, i: nat)
    requires IsFileOf(ir, items, f) && i < |ir.methodIds|
    ensures ReadId(f, FinalSectionOff(ir, MethodIds) + 8 * i) == IdView(ir.methodIds[i].classIdx, ir.methodIds[i].proto, ir.methodIds[i].name)
  {
    hide *;
    TableCounts(ir);
    StridesAre();
    RowInFile(ir, items, f, MethodIds, i);
    RowBytes(ir, FinalOffsets(ir), MethodIds, i);
    IdRow(f, FinalSectionOff(ir, MethodIds) + 8 * i, ir.methodIds[i].classIdx, ir.methodIds[i].proto, ir.methodIds[i].name);
  }

  lemma ClassWords(o: Offsets, c: ClassDef)
    requires c.sourceFile != Some(NONE)
    ensures var w := ClassDefWords(o, c);
            && w[0] == c.classType && w[1] == c.accessFlags
            && 0 <= w[2] < LIMIT && (w[2] == NONE <==> c.superclass.None?) && (c.superclass.Some? ==> w[2] == c.superclass.value)
            && w[3] == OffOrZero(o, TypeLists, c.interfaces)
            && 0 <= w[4] < LIMIT && (w[4] == NONE <==> c.sourceFile.None?) && (c.sourceFile.Some? ==> w[4] == c.sourceFile.value)
            && w[5] == OffOrZero(o, AnnotationDirs, c.annotations)
            && w[6] == OffOrZero(o, ClassDatas, c.classData)
            && w[7] == OffOrZero(o, EncodedArrays, c.staticValues)
  {
    hide OffOrZero;
  }

  lemma ClassRow(ir: Header, items: seq<MapItem>, f: seq<Byte>, i: nat)
    requires IsFileOf(ir, items, f) && i < |ir.classDefs|
    ensures ReadClass(f, FinalSectionOff(ir, ClassDefs) + 32 * i) == ViewClass(ir, ir.classDefs[i])
  {
    hide *;
    FileGives(ir, items, f);
    TableCounts(ir);
    StridesAre();
    RowInFile(ir, items, f, ClassDefs, i);
    RowBytes(ir, FinalOffsets(ir), ClassDefs, i);
    PointersBelow(ir, i);
    ReadableItems(ir, items, f, i);
    ListsAreRead(ir, items, f);
    ArraysAreRead(ir, items, f);
    DirsAreRead(ir, items, f);
    DataIsRead(ir, items, f);
    ClassDecode(ir, FinalOffsets(ir), f, FinalSectionOff(ir, ClassDefs) + 32 * i, ir.classDefs[i]);
  }

  lemma GoodClassDefIs(ir: Header, c: ClassDef)
    requires GoodClassDef(ir, c)
    ensures OptionBelow(c.interfaces, |ir.typeLists|) && OptionBelow(c.annotations, |ir.annotationDirs|)
    ensures OptionBelow(c.classData, |ir.classDatas|) && OptionBelow(c.staticValues, |ir.encodedArrays|)
  {
    hide OptionBelow;
  }

  lemma ClassDecode(ir: Header, o: Offsets, f: seq<Byte>, row: nat, c: ClassDef)
    requires ListsRead(ir, o, f) && ArraysRead(ir, o, f) && DirsRead(ir, o, f) && DataRead(ir, o, f)
    requires GoodClassDef(ir, c) && c.sourceFile != Some(NONE) && Holds(f, row, U32s(ClassDefWords(o, c)))
    ensures ReadClass(f, row) == ViewClass(ir, c)
  {
    hide *;
    GoodClassDefIs(ir, c);
    ListPointer(ir, o, f, c.interfaces);
    ArrayPointer(ir, o, f, c.staticValues);
    DirPointer(ir, o, f, c.annotations);
    DataPointer(ir, o, f, c.classData);
    var w := ClassDefWords(o, c);
    ClassWords(o, c);
    LimitIs();
    WordAt(f, row, w, 0);
    WordAt(f, row, w, 1);
    WordAt(f, row, w, 2);
    WordAt(f, row, w, 3);
    WordAt(f, row, w, 4);
    WordAt(f, row, w, 5);
    WordAt(f, row, w, 6);
    WordAt(f, row, w, 7);
    ReadClassIs(f, row);
    ViewClassIs(ir, c);
  }

  lemma ReadClassIs(f: seq<Byte>, p: nat)
    ensures var r := ReadClass(f, p);
            && r.classType == Word(f, p) && r.accessFlags == Word(f, p + 4)
            && r.superclass == (if Word(f, p + 8) == NONE then None else Some(Word(f, p + 8)))
            && r.interfaces == (if Word(f, p + 12) == 0 then None else Some(ReadTypeList(f, Word(f, p + 12))))
            && r.sourceFile == (if Word(f, p + 16) == NONE then None else Some(Word(f, p + 16)))
            && r.annotations == (if Word(f, p + 20) == 0 then None else Some(ReadDirectory(f, Word(f, p + 20))))
            && r.classData == (if Word(f, p + 24) == 0 then None else Some(ReadClassData(f, Word(f, p + 24))))
            && r.staticValues == (if Word(f, p + 28) == 0 then None else Some(ReadEncodedArray(f, Word(f, p + 28))))
  {
    hide Word, ReadTypeList, ReadDirectory, ReadClassData, ReadEncodedArray;
  }

  lemma ViewClassIs(ir: Header, c: ClassDef)
    ensures var r := ViewClass(ir, c);
            && r.classType == c.classType && r.accessFlags == c.accessFlags
            && r.superclass == (if c.superclass.None? then None else Some(c.superclass.value))
            && r.interfaces == ViewTypeList(ir, c.interfaces)
            && r.sourceFile == (if c.sourceFile.None? then None else Some(c.sourceFile.value))
            && r.annotations == (if c.annotations.None? || c.annotations.value >= |ir.annotationDirs| then None
                                 else Some(ViewDirectory(ir, ir.annotationDirs[c.annotations.value])))
            && r.classData == (if c.classData.None? || c.classData.value >= |ir.classDatas| then None
                               else Some(ViewClassData(ir, ir.classDatas[c.classData.value])))
            && r.staticValues == ViewArray(ir, c.staticValues)
  {
    hide ViewTypeList, ViewDirectory, ViewClassData, ViewArray;
  }

  lemma CallSiteRow(ir: Header, items: seq<MapItem>, f: seq<Byte>, i: nat)
    requires IsFileOf(ir, items, f) && i < |ir.callSiteIds|
    ensures ir.callSiteIds[i] < |ir.encodedArrays|
    ensures ReadEncodedArray(f, Word(f, FinalSectionOff(ir, CallSiteIds) + 4 * i)) == ir.encodedArrays[ir.callSiteIds[i]]
  {
    hide *;
    FileGives(ir, items, f);
    TableCounts(ir);
    StridesAre();
    RowInFile(ir, items, f, CallSiteIds, i);
    RowBytes(ir, FinalOffsets(ir), CallSiteIds, i);
    PointersBelow(ir, i);
    ArraysAreRead(ir, items, f);
    ArrayAt(ir, FinalOffsets(ir), f, ir.callSiteIds[i]);
    WordAt(f, FinalSectionOff(ir, CallSiteIds) + 4 * i, [Off(FinalOffsets(ir), EncodedArrays, ir.callSiteIds[i])], 0);
  }

  lemma ArrayAt(ir: Header, o: Offsets, f: seq<Byte>, i: nat)
    requires ArraysRead(ir, o, f) && i < |ir.encodedArrays|
    ensures Off(o, EncodedArrays, i) < LIMIT && ReadEncodedArray(f, Off(o, EncodedArrays, i)) == ir.encodedArrays[i]
  {
    hide ReadEncodedArray;
    assert FileMeaning.Good(o, EncodedArrays, i);
  }

  lemma HandleRow(ir: Header, items: seq<MapItem>, f: seq<Byte>, i: nat)
    requires IsFileOf(ir, items, f) && i < |ir.methodHandles|
    ensures ReadHandle(f, FinalSectionOff(ir, MethodHandles) + 8 * i) == (ir.methodHandles[i].handleType, ir.methodHandles[i].fieldOrMethod)
  {
    hide *;
    TableCounts(ir);
    StridesAre();
    RowInFile(ir, items, f, MethodHandles, i);
    RowBytes(ir, FinalOffsets(ir), MethodHandles, i);
    var row, h := FinalSectionOff(ir, MethodHandles) + 8 * i, ir.methodHandles[i];
    var xs := [h.handleType, 0, h.fieldOrMethod, 0];
    HalfOfRun(f, row, xs, 0);
    HalfOfRun(f, row, xs, 2);
    FitsHalf(h.handleType);
    FitsHalf(h.fieldOrMethod);
    HandleIs(f, row);
  }

  lemma HandleIs(f: seq<Byte>, p: nat)
    ensures ReadHandle(f, p) == (Half(f, p), Half(f, p + 4))
  {
    hide Half;
  }
}
