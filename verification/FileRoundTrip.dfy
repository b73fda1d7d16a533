/** Reading a written file gives back what was written. */
module FileRoundTrip {
  import opened Bytes
  import opened Packing
  import opened EncodedValues
  import opened EncodedValueRoundTrip
  import opened DexIr
  import opened Items
  import opened Layout
  import opened LayoutFacts
  import opened SectionWriter
  import opened MapList
  import opened DexFileWriter
  import opened FileTheorems
  import opened Reading
  import opened FileReader
  import opened ItemDecoding
  import opened FileMeaning
  import Debug = DebugInfo

  // ------------------------------------------------------------------ what can be read back

  ghost predicate IsDebugInfo(b: seq<Byte>) {
    exists d: Debug.DebugItem :: Debug.GoodItem(d) && b == Debug.ItemBytes(d)
  }

  /** IRs whose items a dex file can express, and whose file is smaller than 4 GiB. */
  ghost predicate Readable(ir: Header) {
    && WellFormed(ir) && FileSize(ir) < LIMIT
    && (forall i | 0 <= i < |ir.stringDatas| :: 0 !in ir.stringDatas[i])
    && (forall i | 0 <= i < |ir.encodedArrays| :: |ir.encodedArrays[i]| < LIMIT && AllRepresentable(ir.encodedArrays[i]))
    && (forall i | 0 <= i < |ir.annotations| :: RepresentableAnnotation(ir.annotations[i].annotation))
    && (forall i | 0 <= i < |ir.debugInfos| :: IsDebugInfo(ir.debugInfos[i]))
    && (forall i | 0 <= i < |ir.codeItems| :: ReadableCode(ir.codeItems[i]))
    && (forall i | 0 <= i < |ir.classDefs| :: ir.classDefs[i].sourceFile != Some(NONE))
  }

  /** The file written for `ir`. */
  ghost predicate IsFileOf(ir: Header, items: seq<MapItem>, f: seq<Byte>) {
    && Readable(ir) && |items| == |MapEntries(ir)| && f == FileBytes(ir, items)
    && multiset(items) == multiset(MapEntries(ir)) && Sorted(items)
  }

  lemma FileGives(ir: Header, items: seq<MapItem>, f: seq<Byte>)
    requires IsFileOf(ir, items, f)
    ensures WellFormed(ir) && SectionsTakeRoom(ir) && |ir.prefix| == 32 && |items| == |MapEntries(ir)|
    ensures f == FileBytes(ir, items) && |f| == FileSize(ir) < LIMIT
    ensures multiset(items) == multiset(MapEntries(ir)) && Sorted(items)
  {
    hide SectionsTakeRoom, FileSize, FileBytes, MapEntries, IsDebugInfo, ReadableCode, AllRepresentable, RepresentableAnnotation;
    RoomIffDebugInfo(ir);
    if ir.debugInfos != [] { DebugTakesRoom(ir.debugInfos[0]); }
  }

  lemma DebugTakesRoom(b: seq<Byte>)
    requires IsDebugInfo(b)
    ensures b != []
  {
    hide Debug.GoodItem;
  }

  /** A file without items: header, a map list of two entries, padding to 8 and the link data. */
  lemma EmptyIsReadable(ir: Header)
    requires |ir.prefix| == 32 && 144 + |ir.linkData| < LIMIT && NoItems(ir)
    ensures Readable(ir) && FileSize(ir) == 144 + |ir.linkData|
  {
    hide FileSize;
    EmptyFileSize(ir);
    LimitIs();
  }

  lemma EmptyFileSize(ir: Header)
    requires NoItems(ir)
    ensures FileSize(ir) == 144 + |ir.linkData|
  {
    hide *;
    NothingPlaced(ir, KINDS);
    MapOffsetIs(ir);
    MapEntriesAre(ir);
    EmptySize();
  }

  lemma EmptySize()
    ensures AlignUp(HEADER_SIZE, 4) == HEADER_SIZE && AlignUp(HEADER_SIZE, 8) == HEADER_SIZE
    ensures AlignUp(HEADER_SIZE + 28, DATA_ALIGNMENT) == 144
  {
  }

  predicate NoItems(ir: Header) {
    && ir.stringIds == [] && ir.typeIds == [] && ir.protoIds == [] && ir.fieldIds == [] && ir.methodIds == []
    && ir.classDefs == [] && ir.callSiteIds == [] && ir.methodHandles == [] && ir.codeItems == [] && ir.debugInfos == []
    && ir.encodedArrays == [] && ir.annotations == [] && ir.annotationSets == [] && ir.annotationSetRefs == []
    && ir.annotationDirs == [] && ir.typeLists == [] && ir.classDatas == [] && ir.stringDatas == [] && ir.hiddenapi == []
  }

  lemma NothingCounted(ir: Header, k: Kind)
    requires NoItems(ir)
    ensures Count(ir, k) == 0
  {
  }

  lemma {:induction false} NothingPlaced(ir: Header, n: nat)
    requires n <= KINDS && NoItems(ir)
    ensures Placed(ir, n).pos == HEADER_SIZE && LayoutEntries(ir, n) == [HEADER_ENTRY]
  {
    hide *;
    EntriesStep(ir, n);
    PlacedPos(ir, n);
    if n > 0 {
      NothingPlaced(ir, n - 1);
      var k := KindAt(n - 1);
      NothingCounted(ir, k);
      EmptySize();
      var prev := Placed(ir, n - 1);
      NothingPacked(SectionAlignment(k), SectionStart(k, prev.pos), ItemList(ir, prev.offs, k));
      SectionStartIs(k, prev.pos);
    }
  }

  lemma SectionStartIs(k: Kind, pos: nat)
    ensures SectionStart(k, pos) == if k == CodeItems then AlignUp(pos, 8) else pos
  {
    hide AlignUp;
  }

  lemma PlacedPos(ir: Header, n: nat)
    requires n <= KINDS
    ensures n == 0 ==> Placed(ir, n).pos == HEADER_SIZE
    ensures n > 0 ==> var prev, k := Placed(ir, n - 1), KindAt(n - 1);
                      var start, list := SectionStart(k, prev.pos), ItemList(ir, prev.offs, k);
                      Placed(ir, n).pos == EndAt(SectionAlignment(k), start, list, |list|)
  {
    hide SectionStart, ItemList, EndAt, SectionAlignment, KindAt, PlaceOffsets;
  }

  /** Following an item's offset leads to the item. */
  lemma Pointed(ir: Header, items: seq<MapItem>, f: seq<Byte>, k: Kind, i: nat)
    requires IsFileOf(ir, items, f) && HasOffset(k) && i < Count(ir, k)
    ensures var p, b := Off(FinalOffsets(ir), k, i), ItemBytes(ir, FinalOffsets(ir), k, i);
            FileMeaning.Good(FinalOffsets(ir), k, i) && Holds(f, p, b) && p + |b| <= |f| < LIMIT && p % SectionAlignment(k) == 0
  {
    hide *;
    FileGives(ir, items, f);
    OffsetIsPosition(ir, k, i);
    ItemInFile(ir, items, k, i);
    HoldsInside(f, ItemStart(ir, k, i), ItemBytes(ir, FinalOffsets(ir), k, i));
    HeaderNotZero();
    GoodIs(FinalOffsets(ir), k, i);
  }

  lemma HeaderNotZero()
    ensures HEADER_SIZE > 0
  {
  }

  lemma HoldsInside(f: seq<Byte>, p: nat, part: seq<Byte>)
    requires Holds(f, p, part)
    ensures p + |part| <= |f|
  {
  }

  lemma GoodIs(o: Offsets, k: Kind, i: nat)
    ensures FileMeaning.Good(o, k, i) <==> 0 < Off(o, k, i) < LIMIT
  {
    hide Off;
  }

  // ------------------------------------------------------------------ every offset leads to what it should

  lemma ListsAreRead(ir: Header, items: seq<MapItem>, f: seq<Byte>)
    requires IsFileOf(ir, items, f)
    ensures ListsRead(ir, FinalOffsets(ir), f)
  {
    hide *;
    var o := FinalOffsets(ir);
    forall i | 0 <= i < |ir.typeLists| ensures FileMeaning.Good(o, TypeLists, i) && ReadTypeList(f, Off(o, TypeLists, i)) == ir.typeLists[i] {
      Facts(ir, o, TypeLists, i);
      Pointed(ir, items, f, TypeLists, i);
      ListLength(ir.typeLists[i]);
      TypeListDecode(f, Off(o, TypeLists, i), ir.typeLists[i]);
    }
    ListsReadIs(ir, o, f);
  }

  lemma ListLength(ts: seq<UInt16>)
    ensures |TypeListBytes(ts)| >= |ts|
  {
  }

  /** Which items these are, and how they are encoded. */
  lemma Facts(ir: Header, o: Offsets, k: Kind, i: nat)
    ensures k == TypeLists && i < |ir.typeLists| ==> HasOffset(k) && i < Count(ir, k) && ItemBytes(ir, o, k, i) == TypeListBytes(ir.typeLists[i])
    ensures k == DebugInfos && i < |ir.debugInfos| ==> HasOffset(k) && i < Count(ir, k) && ItemBytes(ir, o, k, i) == ir.debugInfos[i]
    ensures k == AnnotationSets && i < |ir.annotationSets| ==>
              HasOffset(k) && i < Count(ir, k) && ItemBytes(ir, o, k, i) == AnnotationSetBytes(o, ir.annotationSets[i])
    ensures k == AnnotationSetRefs && i < |ir.annotationSetRefs| ==>
              HasOffset(k) && i < Count(ir, k) && ItemBytes(ir, o, k, i) == AnnotationSetRefBytes(o, ir.annotationSetRefs[i])
    ensures k == AnnotationDirs && i < |ir.annotationDirs| ==>
              HasOffset(k) && i < Count(ir, k) && ItemBytes(ir, o, k, i) == U32s(DirectoryWords(o, ir.annotationDirs[i]))
  {
    hide TypeListBytes, AnnotationSetBytes, AnnotationSetRefBytes, DirectoryWords, U32s;
  }

  lemma MoreFacts(ir: Header, o: Offsets, k: Kind, i: nat)
    ensures k == EncodedArrays && i < |ir.encodedArrays| ==> HasOffset(k) && i < Count(ir, k) && ItemBytes(ir, o, k, i) == EncodeArray(ir.encodedArrays[i])
    ensures k == Annotations && i < |ir.annotations| ==>
              HasOffset(k) && i < Count(ir, k)
              && ItemBytes(ir, o, k, i) == [ir.annotations[i].visibility] + EncodeAnnotation(ir.annotations[i].annotation)
    ensures k == CodeItems && i < |ir.codeItems| ==> HasOffset(k) && i < Count(ir, k) && ItemBytes(ir, o, k, i) == CodeItemBytes(o, ir.codeItems[i])
    ensures k == ClassDatas && i < |ir.classDatas| ==>
              HasOffset(k) && i < Count(ir, k) && ItemBytes(ir, o, k, i) == Ulebs(ClassDataWords(o, ir.classDatas[i]))
    ensures k == StringDatas && i < |ir.stringDatas| ==> HasOffset(k) && i < Count(ir, k) && ItemBytes(ir, o, k, i) == StringDataBytes(ir.stringDatas[i])
    ensures SectionAlignment(CodeItems) == 4
  {
    hide EncodeArray, EncodeAnnotation, CodeItemBytes, ClassDataWords, Ulebs, StringDataBytes;
  }

  lemma ListsReadIs(ir: Header, o: Offsets, f: seq<Byte>)
    requires forall i | 0 <= i < |ir.typeLists| :: FileMeaning.Good(o, TypeLists, i) && ReadTypeList(f, Off(o, TypeLists, i)) == ir.typeLists[i]
    ensures ListsRead(ir, o, f)
  {
    hide FileMeaning.Good, ReadTypeList, Off;
  }

  lemma ReadableItems(ir: Header, items: seq<MapItem>, f: seq<Byte>, i: nat)
    requires IsFileOf(ir, items, f)
    ensures i < |ir.encodedArrays| ==> |ir.encodedArrays[i]| < LIMIT && AllRepresentable(ir.encodedArrays[i])
    ensures i < |ir.annotations| ==> RepresentableAnnotation(ir.annotations[i].annotation)
    ensures i < |ir.debugInfos| ==> IsDebugInfo(ir.debugInfos[i])
    ensures i < |ir.codeItems| ==> ReadableCode(ir.codeItems[i])
    ensures i < |ir.stringDatas| ==> 0 !in ir.stringDatas[i]
    ensures i < |ir.classDefs| ==> ir.classDefs[i].sourceFile != Some(NONE)
  {
    hide SectionsTakeRoom, FileSize, FileBytes, MapEntries, IsDebugInfo, ReadableCode, AllRepresentable, RepresentableAnnotation, WellFormed;
  }

  lemma ArraysAreRead(ir: Header, items: seq<MapItem>, f: seq<Byte>)
    requires IsFileOf(ir, items, f)
    ensures ArraysRead(ir, FinalOffsets(ir), f)
  {
    hide *;
    var o := FinalOffsets(ir);
    forall i | 0 <= i < |ir.encodedArrays|
      ensures FileMeaning.Good(o, EncodedArrays, i) && ReadEncodedArray(f, Off(o, EncodedArrays, i)) == ir.encodedArrays[i]
    {
      MoreFacts(ir, o, EncodedArrays, i);
      Pointed(ir, items, f, EncodedArrays, i);
      ReadableItems(ir, items, f, i);
      ArrayDecode(f, Off(o, EncodedArrays, i), ir.encodedArrays[i]);
    }
    ArraysReadIs(ir, o, f);
  }

  lemma ArraysReadIs(ir: Header, o: Offsets, f: seq<Byte>)
    requires forall i | 0 <= i < |ir.encodedArrays| :: FileMeaning.Good(o, EncodedArrays, i) && ReadEncodedArray(f, Off(o, EncodedArrays, i)) == ir.encodedArrays[i]
    ensures ArraysRead(ir, o, f)
  {
    hide FileMeaning.Good, ReadEncodedArray, Off;
  }

  lemma DebugIsRead(ir: Header, items: seq<MapItem>, f: seq<Byte>)
    requires IsFileOf(ir, items, f)
    ensures DebugRead(ir, FinalOffsets(ir), f)
  {
    hide *;
    var o := FinalOffsets(ir);
    forall i | 0 <= i < |ir.debugInfos|
      ensures FileMeaning.Good(o, DebugInfos, i) && ReadDebugInfo(f, Off(o, DebugInfos, i)) == ir.debugInfos[i]
    {
      Facts(ir, o, DebugInfos, i);
      Pointed(ir, items, f, DebugInfos, i);
      ReadableItems(ir, items, f, i);
      var d := TheDebugItem(ir.debugInfos[i]);
      DebugDecode(f, Off(o, DebugInfos, i), d);
    }
    DebugReadIs(ir, o, f);
  }

  lemma DebugReadIs(ir: Header, o: Offsets, f: seq<Byte>)
    requires forall i | 0 <= i < |ir.debugInfos| :: FileMeaning.Good(o, DebugInfos, i) && ReadDebugInfo(f, Off(o, DebugInfos, i)) == ir.debugInfos[i]
    ensures DebugRead(ir, o, f)
  {
    hide FileMeaning.Good, ReadDebugInfo, Off;
  }

  lemma TheDebugItem(b: seq<Byte>) returns (d: Debug.DebugItem)
    requires IsDebugInfo(b)
    ensures Debug.GoodItem(d) && b == Debug.ItemBytes(d)
  {
    hide Debug.GoodItem, Debug.ItemBytes;
    d :| Debug.GoodItem(d) && b == Debug.ItemBytes(d);
  }

  lemma DebugPointer(ir: Header, o: Offsets, f: seq<Byte>, i: Option<nat>)
    requires DebugRead(ir, o, f) && OptionBelow(i, |ir.debugInfos|)
    ensures var d := OffOrZero(o, DebugInfos, i);
            d < LIMIT && (if d == 0 then None else Some(ReadDebugInfo(f, d)))
                         == if i.None? || i.value >= |ir.debugInfos| then None else Some(ir.debugInfos[i.value])
  {
    hide ReadDebugInfo;
    if i.Some? { assert FileMeaning.Good(o, DebugInfos, i.value); }
  }

  lemma GoodDebugPointer(ir: Header, i: nat)
    requires WellFormed(ir) && i < |ir.codeItems|
    ensures OptionBelow(ir.codeItems[i].debugInfo, |ir.debugInfos|)
  {
    assert GoodCodeItem(ir, ir.codeItems[i]);
  }

  lemma CodeIsRead(ir: Header, items: seq<MapItem>, f: seq<Byte>)
    requires IsFileOf(ir, items, f)
    ensures CodeRead(ir, FinalOffsets(ir), f)
  {
    hide *;
    var o := FinalOffsets(ir);
    FileGives(ir, items, f);
    DebugIsRead(ir, items, f);
    forall i | 0 <= i < |ir.codeItems|
      ensures FileMeaning.Good(o, CodeItems, i) && ReadCode(f, Off(o, CodeItems, i)) == ViewCode(ir, ir.codeItems[i])
    {
      var c := ir.codeItems[i];
      MoreFacts(ir, o, CodeItems, i);
      Pointed(ir, items, f, CodeItems, i);
      ReadableItems(ir, items, f, i);
      GoodDebugPointer(ir, i);
      DebugPointer(ir, o, f, c.debugInfo);
      CodeDecode(f, Off(o, CodeItems, i), o, c);
      ViewCodeIs(ir, c);
    }
    CodeReadIs(ir, o, f);
  }

  lemma CodeReadIs(ir: Header, o: Offsets, f: seq<Byte>)
    requires forall i | 0 <= i < |ir.codeItems| :: FileMeaning.Good(o, CodeItems, i) && ReadCode(f, Off(o, CodeItems, i)) == ViewCode(ir, ir.codeItems[i])
    ensures CodeRead(ir, o, f)
  {
    hide FileMeaning.Good, ReadCode, Off, ViewCode;
  }

  lemma ViewCodeIs(ir: Header, c: CodeItem)
    ensures ViewCode(ir, c)
         == CodeView(c.registersSize, c.insSize, c.outsSize,
                     if c.debugInfo.None? || c.debugInfo.value >= |ir.debugInfos| then None else Some(ir.debugInfos[c.debugInfo.value]),
                     c.insns, TriesFrom(c, 0))
  {
    hide TriesFrom;
  }

  lemma DataLength(o: Offsets, c: ClassData)
    ensures |Ulebs(ClassDataWords(o, c))| >= MemberCount(c)
  {
    hide FieldWords, MethodWords, Ulebs;
  }

  lemma DataIsRead(ir: Header, items: seq<MapItem>, f: seq<Byte>)
    requires IsFileOf(ir, items, f)
    ensures DataRead(ir, FinalOffsets(ir), f)
  {
    hide *;
    var o := FinalOffsets(ir);
    FileGives(ir, items, f);
    CodeIsRead(ir, items, f);
    forall i | 0 <= i < |ir.classDatas|
      ensures FileMeaning.Good(o, ClassDatas, i) && ReadClassData(f, Off(o, ClassDatas, i)) == ViewClassData(ir, ir.classDatas[i])
    {
      MoreFacts(ir, o, ClassDatas, i);
      Pointed(ir, items, f, ClassDatas, i);
      DataLength(o, ir.classDatas[i]);
      GoodDataAt(ir, i);
      ClassDataDecode(ir, o, f, Off(o, ClassDatas, i), ir.classDatas[i]);
    }
    DataReadIs(ir, o, f);
  }

  lemma DataReadIs(ir: Header, o: Offsets, f: seq<Byte>)
    requires forall i | 0 <= i < |ir.classDatas| :: FileMeaning.Good(o, ClassDatas, i) && ReadClassData(f, Off(o, ClassDatas, i)) == ViewClassData(ir, ir.classDatas[i])
    ensures DataRead(ir, o, f)
  {
    hide FileMeaning.Good, ReadClassData, Off, ViewClassData;
  }

  lemma GoodDataAt(ir: Header, i: nat)
    requires WellFormed(ir) && i < |ir.classDatas|
    ensures GoodClassData(ir, ir.classDatas[i])
  {
    hide GoodClassData;
  }

  lemma AnnotationsAreRead(ir: Header, items: seq<MapItem>, f: seq<Byte>)
    requires IsFileOf(ir, items, f)
    ensures AnnotationsRead(ir, FinalOffsets(ir), f)
  {
    hide *;
    var o := FinalOffsets(ir);
    forall i | 0 <= i < |ir.annotations|
      ensures FileMeaning.Good(o, Annotations, i) && ReadAnnotationItem(f, Off(o, Annotations, i)) == ir.annotations[i]
    {
      MoreFacts(ir, o, Annotations, i);
      Pointed(ir, items, f, Annotations, i);
      ReadableItems(ir, items, f, i);
      AnnotationDecode(f, Off(o, Annotations, i), ir.annotations[i]);
    }
    AnnotationsReadIs(ir, o, f);
  }

  lemma AnnotationsReadIs(ir: Header, o: Offsets, f: seq<Byte>)
    requires forall i | 0 <= i < |ir.annotations| :: FileMeaning.Good(o, Annotations, i) && ReadAnnotationItem(f, Off(o, Annotations, i)) == ir.annotations[i]
    ensures AnnotationsRead(ir, o, f)
  {
    hide FileMeaning.Good, ReadAnnotationItem, Off;
  }

  lemma SetsAreRead(ir: Header, items: seq<MapItem>, f: seq<Byte>)
    requires IsFileOf(ir, items, f)
    ensures SetsRead(ir, FinalOffsets(ir), f)
  {
    hide *;
    var o := FinalOffsets(ir);
    FileGives(ir, items, f);
    AnnotationsAreRead(ir, items, f);
    forall i | 0 <= i < |ir.annotationSets|
      ensures FileMeaning.Good(o, AnnotationSets, i) && ReadAnnotationSet(f, Off(o, AnnotationSets, i)) == ViewSetOf(ir, i)
    {
      Facts(ir, o, AnnotationSets, i);
      Pointed(ir, items, f, AnnotationSets, i);
      SetLength(o, ir.annotationSets[i], []);
      GoodSetAt(ir, i);
      SetDecode(ir, o, f, Off(o, AnnotationSets, i), ir.annotationSets[i]);
      ViewsAre(ir, i);
    }
    SetsReadIs(ir, o, f);
  }

  lemma SetsReadIs(ir: Header, o: Offsets, f: seq<Byte>)
    requires forall i | 0 <= i < |ir.annotationSets| :: FileMeaning.Good(o, AnnotationSets, i) && ReadAnnotationSet(f, Off(o, AnnotationSets, i)) == ViewSetOf(ir, i)
    ensures SetsRead(ir, o, f)
  {
    hide FileMeaning.Good, ReadAnnotationSet, Off, ViewSetOf;
  }

  lemma ViewsAre(ir: Header, i: nat)
    ensures i < |ir.annotationSets| ==> ViewSetOf(ir, i) == ViewSet(ir, ir.annotationSets[i])
    ensures i < |ir.annotationSetRefs| ==> ViewRefsOf(ir, i) == ViewRefs(ir, ir.annotationSetRefs[i])
  {
    hide ViewSet, ViewRefs;
  }

  lemma SetLength(o: Offsets, set_: seq<nat>, refs: seq<Option<nat>>)
    ensures |AnnotationSetBytes(o, set_)| >= |set_| && |AnnotationSetRefBytes(o, refs)| >= |refs|
  {
    hide U32s;
  }

  lemma GoodSetAt(ir: Header, i: nat)
    requires WellFormed(ir)
    ensures i < |ir.annotationSets| ==> GoodSet(ir, ir.annotationSets[i])
    ensures i < |ir.annotationSetRefs| ==> GoodSetRefs(ir, ir.annotationSetRefs[i])
    ensures i < |ir.annotationDirs| ==> GoodDirectory(ir, ir.annotationDirs[i])
  {
    hide GoodSet, GoodSetRefs, GoodDirectory;
  }

  lemma RefsAreRead(ir: Header, items: seq<MapItem>, f: seq<Byte>)
    requires IsFileOf(ir, items, f)
    ensures RefsRead(ir, FinalOffsets(ir), f)
  {
    hide *;
    var o := FinalOffsets(ir);
    FileGives(ir, items, f);
    SetsAreRead(ir, items, f);
    forall i | 0 <= i < |ir.annotationSetRefs|
      ensures FileMeaning.Good(o, AnnotationSetRefs, i) && ReadSetRefs(f, Off(o, AnnotationSetRefs, i)) == ViewRefsOf(ir, i)
    {
      Facts(ir, o, AnnotationSetRefs, i);
      Pointed(ir, items, f, AnnotationSetRefs, i);
      SetLength(o, [], ir.annotationSetRefs[i]);
      GoodSetAt(ir, i);
      SetRefsDecode(ir, o, f, Off(o, AnnotationSetRefs, i), ir.annotationSetRefs[i]);
      ViewsAre(ir, i);
    }
    RefsReadIs(ir, o, f);
  }

  lemma RefsReadIs(ir: Header, o: Offsets, f: seq<Byte>)
    requires forall i | 0 <= i < |ir.annotationSetRefs| :: FileMeaning.Good(o, AnnotationSetRefs, i) && ReadSetRefs(f, Off(o, AnnotationSetRefs, i)) == ViewRefsOf(ir, i)
    ensures RefsRead(ir, o, f)
  {
    hide FileMeaning.Good, ReadSetRefs, Off, ViewRefsOf;
  }

  lemma DirectoryLength(o: Offsets, d: AnnotationsDirectory)
    requires |U32s(DirectoryWords(o, d))| < LIMIT
    ensures SmallDirectory(d)
  {
    hide U32s, MemberWords, OffOrZero;
  }

  lemma DirsAreRead(ir: Header, items: seq<MapItem>, f: seq<Byte>)
    requires IsFileOf(ir, items, f)
    ensures DirsRead(ir, FinalOffsets(ir), f)
  {
    hide *;
    var o := FinalOffsets(ir);
    FileGives(ir, items, f);
    SetsAreRead(ir, items, f);
    RefsAreRead(ir, items, f);
    forall i | 0 <= i < |ir.annotationDirs|
      ensures FileMeaning.Good(o, AnnotationDirs, i) && ReadDirectory(f, Off(o, AnnotationDirs, i)) == ViewDirectory(ir, ir.annotationDirs[i])
    {
      Facts(ir, o, AnnotationDirs, i);
      Pointed(ir, items, f, AnnotationDirs, i);
      DirectoryLength(o, ir.annotationDirs[i]);
      GoodSetAt(ir, i);
      DirectoryDecode(ir, o, f, Off(o, AnnotationDirs, i), ir.annotationDirs[i]);
    }
    DirsReadIs(ir, o, f);
  }

  lemma DirsReadIs(ir: Header, o: Offsets, f: seq<Byte>)
    requires forall i | 0 <= i < |ir.annotationDirs| :: FileMeaning.Good(o, AnnotationDirs, i) && ReadDirectory(f, Off(o, AnnotationDirs, i)) == ViewDirectory(ir, ir.annotationDirs[i])
    ensures DirsRead(ir, o, f)
  {
    hide FileMeaning.Good, ReadDirectory, Off, ViewDirectory;
  }
}
