/** Writing a whole dex file: all sections, the map list, the link data and, last, the header. */
module DexFileWriter {
  import opened Bytes
  import opened Streams
  import opened DexIr
  import opened Items
  import opened ItemWriters
  import opened Layout
  import opened FileBody
  import opened SectionWriter
  import opened FileSections
  import opened MapList

  // ------------------------------------------------------------------ the file as a function of the IR

  const HEADER_ENTRY := MapItem(TYPE_HEADER, 1, 0)

  function Entry(ir: Header, k: Kind): MapItem {
    MapItem(MapType(k), Count(ir, k), FinalSectionOff(ir, k))
  }

  /** The header and the sections among the first `n` that have items, in layout order. */
  function LayoutEntries(ir: Header, n: nat): (ms: seq<MapItem>)
    requires n <= KINDS
    ensures |ms| > 0
  {
    if n == 0 then [HEADER_ENTRY]
    else LayoutEntries(ir, n - 1) + (if Count(ir, KindAt(n - 1)) == 0 then [] else [Entry(ir, KindAt(n - 1))])
  }

  function MapOffset(ir: Header): (r: nat)
    ensures r >= Placed(ir, KINDS).pos
  {
    AlignUp(Placed(ir, KINDS).pos, 4)
  }

  function MapListEntry(ir: Header): MapItem {
    MapItem(TYPE_MAP_LIST, 1, MapOffset(ir))
  }

  function MapEntries(ir: Header): (ms: seq<MapItem>)
    ensures |ms| > 0
  {
    LayoutEntries(ir, KINDS) + [MapListEntry(ir)]
  }

  /** The end of the data section: behind the map list, and aligned. */
  function DataEnd(ir: Header): (r: nat)
    ensures r >= MapOffset(ir) + 4 + 12 * |MapEntries(ir)|
  {
    AlignUp(MapOffset(ir) + 4 + 12 * |MapEntries(ir)|, DATA_ALIGNMENT)
  }

  function FileSize(ir: Header): nat {
    DataEnd(ir) + |ir.linkData|
  }

  function DataOffset(ir: Header): nat {
    StartOf(ir, CodeItems)
  }

  lemma DataNotEmpty(ir: Header)
    ensures HEADER_SIZE <= DataOffset(ir) < DataEnd(ir)
  {
    hide *;
    DataOffsetIs(ir);
    SectionInside(ir, CodeItems, KINDS);
  }

  lemma DataOffsetIs(ir: Header)
    ensures DataOffset(ir) == StartOf(ir, CodeItems) && IndexOf(CodeItems) < KINDS
  {
    hide StartOf;
  }

  /** The header behind magic, checksum and signature, from its fields and the collections' offsets. */
  function HeaderFields(ir: Header, offs: map<Kind, nat>, fileSize: nat, linkOffset: nat, mapOffset: nat, dataSize: int, dataOffset: nat)
    : (s: seq<int>)
    ensures |s| == 20
  {
    [fileSize, HEADER_SIZE, ir.endianTag, |ir.linkData|, linkOffset, mapOffset,
     |ir.stringIds|, SecOff(offs, StringIds),
     |ir.typeIds|, SecOff(offs, TypeIds),
     |ir.protoIds|, SecOff(offs, ProtoIds),
     |ir.fieldIds|, SecOff(offs, FieldIds),
     |ir.methodIds|, SecOff(offs, MethodIds),
     |ir.classDefs|, SecOff(offs, ClassDefs),
     dataSize, dataOffset]
  }

  function LinkOffset(ir: Header): nat {
    if ir.linkData == [] then ir.linkOffset else DataEnd(ir)
  }

  function HeaderWords(ir: Header): (s: seq<int>)
    ensures |s| == 20
  {
    HeaderFields(ir, SectionOffsets(ir, KINDS), FileSize(ir), LinkOffset(ir), MapOffset(ir), DataEnd(ir) - DataOffset(ir), DataOffset(ir))
  }

  function HeaderBytes(ir: Header): (s: seq<Byte>)
    requires |ir.prefix| == 32
    ensures |s| == HEADER_SIZE
  {
    ir.prefix + U32s(HeaderWords(ir))
  }

  /** What is written once the data sections are. */
  const DATA_DONE: set<Kind> :=
    {TypeIds, FieldIds, MethodIds, MethodHandles} + {DebugInfos} + {CodeItems}
    + {EncodedArrays} + {Annotations} + {AnnotationSets} + {AnnotationSetRefs} + {AnnotationDirs} + {TypeLists}
    + {ClassDatas} + {StringDatas} + {Hiddenapi}

  /** Every kind. */
  const ALL: set<Kind> := DATA_DONE + {StringIds} + {ProtoIds} + {ClassDefs} + {CallSiteIds}

  /** Everything but the header, whose place is still zero. */
  function Unheaded(ir: Header, items: seq<MapItem>): (s: seq<Byte>)
    requires |items| == |MapEntries(ir)|
    ensures |s| == FileSize(ir)
  {
    Extend(Extend(Body(ir, ALL, KINDS), MapOffset(ir)) + MapListBytes(items), DataEnd(ir)) + ir.linkData
  }

  /** The finished file, with `items` as its map list. */
  function FileBytes(ir: Header, items: seq<MapItem>): (s: seq<Byte>)
    requires |ir.prefix| == 32 && |items| == |MapEntries(ir)|
    ensures |s| == FileSize(ir)
  {
    DataNotEmpty(ir);
    HeaderBytes(ir) + Unheaded(ir, items)[HEADER_SIZE..]
  }

  // ------------------------------------------------------------------ the sections, in the order of `Write`

  lemma Constants()
    ensures KINDS == 19 && HEADER_SIZE == 0x70 && DATA_ALIGNMENT == 8
    ensures HEADER_ENTRY == MapItem(TYPE_HEADER, 1, 0)
  {
  }

  lemma IndexSectionIndices()
    ensures IndexOf(StringIds) == 0 && IndexOf(TypeIds) == 1 && IndexOf(ProtoIds) == 2 && IndexOf(FieldIds) == 3
    ensures IndexOf(MethodIds) == 4 && IndexOf(ClassDefs) == 5 && IndexOf(CallSiteIds) == 6 && IndexOf(MethodHandles) == 7
    ensures IndexOf(CodeItems) == 8 && IndexOf(DebugInfos) == 9
  {
  }

  lemma DataSectionIndices()
    ensures IndexOf(EncodedArrays) == 10 && IndexOf(Annotations) == 11
    ensures IndexOf(AnnotationSets) == 12 && IndexOf(AnnotationSetRefs) == 13 && IndexOf(AnnotationDirs) == 14
    ensures IndexOf(TypeLists) == 15 && IndexOf(ClassDatas) == 16 && IndexOf(StringDatas) == 17 && IndexOf(Hiddenapi) == 18
  {
  }

  lemma ReservedKinds()
    ensures Reserved(StringIds) && Reserved(ProtoIds) && Reserved(ClassDefs) && Reserved(CallSiteIds) && Reserved(CodeItems)
    ensures !Reserved(TypeIds) && !Reserved(FieldIds) && !Reserved(MethodIds) && !Reserved(MethodHandles) && !Reserved(DebugInfos)
    ensures !Reserved(EncodedArrays) && !Reserved(Annotations) && !Reserved(AnnotationSets) && !Reserved(AnnotationSetRefs)
    ensures !Reserved(AnnotationDirs) && !Reserved(TypeLists) && !Reserved(ClassDatas) && !Reserved(StringDatas)
  {
  }

  lemma NeedsOf()
    ensures Needs(CodeItems) == {DebugInfos} && Needs(StringIds) == {StringDatas} && Needs(ProtoIds) == {TypeLists}
    ensures Needs(ClassDefs) == {TypeLists, AnnotationDirs, ClassDatas, EncodedArrays} && Needs(CallSiteIds) == {EncodedArrays}
  {
  }

  method Append(w: DexWriter, k: Kind, ghost done: set<Kind>)
    requires WellFormed(w.ir) && !Reserved(k) && k != Hiddenapi
    requires At(w, done, IndexOf(k))
    modifies w, w.stream, w.stream.section
    ensures At(w, done + {k}, IndexOf(k) + 1)
  {
    hide *;
    ReservedKinds();
    NextSection(w, done, k);
    AppendSection(w, k, done);
  }

  method Reserve(w: DexWriter, k: Kind, ghost done: set<Kind>) returns (offset: nat)
    requires WellFormed(w.ir) && Reserved(k) && k != CodeItems && k != Hiddenapi && k !in done
    requires At(w, done, IndexOf(k))
    modifies w, w.stream, w.stream.section
    ensures At(w, done, IndexOf(k) + 1)
    ensures offset == StartOf(w.ir, k)
  {
    hide *;
    NextSection(w, done, k);
    BeforeGives(w, done, k);
    offset := w.stream.position;
    ReserveSection(w, k, done);
  }

  /** The index sections; returns where the reserved ones begin. */
  method WriteIndexSections(w: DexWriter) returns (stringIds: nat, protoIds: nat, classDefs: nat, callSiteIds: nat)
    requires WellFormed(w.ir) && At(w, {}, 0)
    modifies w, w.stream, w.stream.section
    ensures At(w, {TypeIds, FieldIds, MethodIds, MethodHandles}, 8)
    ensures stringIds == StartOf(w.ir, StringIds) && protoIds == StartOf(w.ir, ProtoIds)
    ensures classDefs == StartOf(w.ir, ClassDefs) && callSiteIds == StartOf(w.ir, CallSiteIds)
  {
    hide *;
    IndexSectionIndices();
    DataSectionIndices();
    ReservedKinds();
    stringIds := Reserve(w, StringIds, {});
    Append(w, TypeIds, {});
    protoIds := Reserve(w, ProtoIds, {} + {TypeIds});
    Append(w, FieldIds, {} + {TypeIds});
    Append(w, MethodIds, {} + {TypeIds} + {FieldIds});
    ghost var done := {} + {TypeIds} + {FieldIds} + {MethodIds};
    classDefs := Reserve(w, ClassDefs, done);
    callSiteIds := Reserve(w, CallSiteIds, done);
    Append(w, MethodHandles, done);
    assert done + {MethodHandles} == {TypeIds, FieldIds, MethodIds, MethodHandles};
  }

  lemma BeforeCode(w: DexWriter, done: set<Kind>)
    requires w.stream.Valid()
    requires w.stream.image == Extend(Body(w.ir, done, IndexOf(CodeItems)), StartOf(w.ir, CodeItems))
    requires w.stream.position == StartOf(w.ir, CodeItems)
    requires w.offs == Placed(w.ir, IndexOf(CodeItems)).offs && w.sectionOffs == SectionOffsets(w.ir, IndexOf(CodeItems))
    ensures Before(w, done, CodeItems)
  {
    hide Body, Placed, SectionOffsets, StartOf, Extend;
  }

  /** Code items are reserved first, since they hold debug-info offsets. */
  method ReserveCodeItems(w: DexWriter, ghost done: set<Kind>) returns (offset: nat)
    requires WellFormed(w.ir) && At(w, done, IndexOf(CodeItems)) && CodeItems !in done
    modifies w, w.stream, w.stream.section
    ensures At(w, done, IndexOf(CodeItems) + 1) && offset == StartOf(w.ir, CodeItems)
  {
    hide *;
    ReservedKinds();
    AtGives(w, done, IndexOf(CodeItems));
    StartOfOther(w.ir, CodeItems);
    w.stream.AlignTo(DATA_ALIGNMENT);
    offset := w.stream.position;
    BeforeCode(w, done);
    ReserveSection(w, CodeItems, done);
  }

  /** Debug infos, and then the code items, at the offset where they were reserved. */
  method WriteCodeAndDebugInfo(w: DexWriter, ghost done: set<Kind>) returns (dataOffset: nat)
    requires WellFormed(w.ir) && At(w, done, 8) && CodeItems !in done
    modifies w, w.stream, w.stream.section
    ensures At(w, done + {DebugInfos} + {CodeItems}, 10) && dataOffset == StartOf(w.ir, CodeItems)
  {
    hide *;
    IndexSectionIndices();
    NeedsOf();
    ReservedKinds();
    dataOffset := ReserveCodeItems(w, done);
    Append(w, DebugInfos, done);
    FillSection(w, CodeItems, dataOffset, done + {DebugInfos}, 10);
  }

  /** The rest of the data section. */
  method WriteDataSections(w: DexWriter, ghost done: set<Kind>) returns (ghost after: set<Kind>)
    requires WellFormed(w.ir) && At(w, done, 10)
    modifies w, w.stream, w.stream.section
    ensures after == done + {EncodedArrays} + {Annotations} + {AnnotationSets} + {AnnotationSetRefs} + {AnnotationDirs} + {TypeLists}
                     + {ClassDatas} + {StringDatas} + {Hiddenapi}
    ensures At(w, after, 19)
  {
    hide *;
    IndexSectionIndices();
    DataSectionIndices();
    ReservedKinds();
    Append(w, EncodedArrays, done);
    after := done + {EncodedArrays};
    Append(w, Annotations, after);
    after := after + {Annotations};
    Append(w, AnnotationSets, after);
    after := after + {AnnotationSets};
    Append(w, AnnotationSetRefs, after);
    after := after + {AnnotationSetRefs};
    Append(w, AnnotationDirs, after);
    after := after + {AnnotationDirs};
    Append(w, TypeLists, after);
    after := after + {TypeLists};
    Append(w, ClassDatas, after);
    after := after + {ClassDatas};
    Append(w, StringDatas, after);
    after := after + {StringDatas};
    WriteHiddenapi(w, after);
    after := after + {Hiddenapi};
  }

  /** The id sections that depend on data sections. */
  method FillIndexSections(w: DexWriter, stringIds: nat, protoIds: nat, classDefs: nat, callSiteIds: nat, ghost done: set<Kind>)
    returns (ghost after: set<Kind>)
    requires WellFormed(w.ir) && At(w, done, 19)
    requires StringIds !in done && ProtoIds !in done && ClassDefs !in done && CallSiteIds !in done
    requires stringIds == StartOf(w.ir, StringIds) && protoIds == StartOf(w.ir, ProtoIds)
    requires classDefs == StartOf(w.ir, ClassDefs) && callSiteIds == StartOf(w.ir, CallSiteIds)
    modifies w, w.stream, w.stream.section
    ensures after == done + {StringIds} + {ProtoIds} + {ClassDefs} + {CallSiteIds}
    ensures At(w, after, 19)
  {
    hide *;
    IndexSectionIndices();
    DataSectionIndices();
    NeedsOf();
    ReservedKinds();
    FillSection(w, StringIds, stringIds, done, 19);
    after := done + {StringIds};
    FillSection(w, ProtoIds, protoIds, after, 19);
    after := after + {ProtoIds};
    FillSection(w, ClassDefs, classDefs, after, 19);
    after := after + {ClassDefs};
    FillSection(w, CallSiteIds, callSiteIds, after, 19);
    after := after + {CallSiteIds};
  }

  /** Every section, from behind the header to the map list; returns where the data section begins. */
  method WriteSections(w: DexWriter) returns (dataOffset: nat)
    requires WellFormed(w.ir) && At(w, {}, 0)
    modifies w, w.stream, w.stream.section
    ensures At(w, ALL, KINDS) && dataOffset == DataOffset(w.ir)
  {
    hide *;
    IndexSectionIndices();
    DataSectionIndices();
    Constants();
    var stringIds, protoIds, classDefs, callSiteIds := WriteIndexSections(w);
    ghost var done := {TypeIds, FieldIds, MethodIds, MethodHandles};
    DataOffsetIs(w.ir);
    dataOffset := WriteCodeAndDebugInfo(w, done);
    done := done + {DebugInfos} + {CodeItems};
    done := WriteDataSections(w, done);
    SetsAre();
    NotYet(StringIds);
    NotYet(ProtoIds);
    NotYet(ClassDefs);
    NotYet(CallSiteIds);
    done := FillIndexSections(w, stringIds, protoIds, classDefs, callSiteIds, done);
  }

  lemma SetsAre()
    ensures DATA_DONE == {TypeIds, FieldIds, MethodIds, MethodHandles} + {DebugInfos} + {CodeItems}
                         + {EncodedArrays} + {Annotations} + {AnnotationSets} + {AnnotationSetRefs} + {AnnotationDirs} + {TypeLists}
                         + {ClassDatas} + {StringDatas} + {Hiddenapi}
    ensures ALL == DATA_DONE + {StringIds} + {ProtoIds} + {ClassDefs} + {CallSiteIds}
  {
  }

  lemma NotYet(k: Kind)
    requires k == StringIds || k == ProtoIds || k == ClassDefs || k == CallSiteIds
    ensures k !in DATA_DONE
  {
  }

  lemma InAll(k: Kind)
    ensures k in ALL
  {
  }

  // ------------------------------------------------------------------ the map list

  lemma LayoutStep(ir: Header, k: Kind)
    ensures multiset(LayoutEntries(ir, IndexOf(k) + 1)) == multiset(LayoutEntries(ir, IndexOf(k))) + NonEmpty(Entry(ir, k))
  {
    hide Count, FinalSectionOff, MapType;
  }

  lemma LayoutStart(ir: Header)
    ensures multiset(LayoutEntries(ir, 0)) == NonEmpty(HEADER_ENTRY)
    ensures multiset(MapEntries(ir)) == multiset(LayoutEntries(ir, KINDS)) + NonEmpty(MapListEntry(ir))
  {
    hide MapOffset;
  }

  /** The entries of the index sections, in either order. */
  lemma IndexEntries(ir: Header)
    ensures multiset(LayoutEntries(ir, 8))
         == NonEmpty(HEADER_ENTRY) + NonEmpty(Entry(ir, StringIds)) + NonEmpty(Entry(ir, TypeIds)) + NonEmpty(Entry(ir, ProtoIds))
            + NonEmpty(Entry(ir, FieldIds)) + NonEmpty(Entry(ir, MethodIds)) + NonEmpty(Entry(ir, ClassDefs))
            + NonEmpty(Entry(ir, CallSiteIds)) + NonEmpty(Entry(ir, MethodHandles))
  {
    hide *;
    IndexSectionIndices();
    DataSectionIndices();
    LayoutStart(ir);
    LayoutStep(ir, StringIds);
    LayoutStep(ir, TypeIds);
    LayoutStep(ir, ProtoIds);
    LayoutStep(ir, FieldIds);
    LayoutStep(ir, MethodIds);
    LayoutStep(ir, ClassDefs);
    LayoutStep(ir, CallSiteIds);
    LayoutStep(ir, MethodHandles);
  }

  lemma DataEntries(ir: Header)
    ensures multiset(LayoutEntries(ir, KINDS))
         == multiset(LayoutEntries(ir, 8)) + NonEmpty(Entry(ir, CodeItems)) + NonEmpty(Entry(ir, DebugInfos))
            + NonEmpty(Entry(ir, EncodedArrays)) + NonEmpty(Entry(ir, Annotations)) + NonEmpty(Entry(ir, AnnotationSets))
            + NonEmpty(Entry(ir, AnnotationSetRefs)) + NonEmpty(Entry(ir, AnnotationDirs)) + NonEmpty(Entry(ir, TypeLists))
            + NonEmpty(Entry(ir, ClassDatas)) + NonEmpty(Entry(ir, StringDatas)) + NonEmpty(Entry(ir, Hiddenapi))
  {
    hide *;
    IndexSectionIndices();
    DataSectionIndices();
    Constants();
    LayoutStep(ir, CodeItems);
    LayoutStep(ir, DebugInfos);
    LayoutStep(ir, EncodedArrays);
    LayoutStep(ir, Annotations);
    LayoutStep(ir, AnnotationSets);
    LayoutStep(ir, AnnotationSetRefs);
    LayoutStep(ir, AnnotationDirs);
    LayoutStep(ir, TypeLists);
    LayoutStep(ir, ClassDatas);
    LayoutStep(ir, StringDatas);
    LayoutStep(ir, Hiddenapi);
  }

  /** The data sections' entries, in the order in which the queue receives them. */
  lemma Reordered(start: multiset<MapItem>, code: multiset<MapItem>, debug: multiset<MapItem>, arrays: multiset<MapItem>,
                  annos: multiset<MapItem>, sets: multiset<MapItem>, refs: multiset<MapItem>, dirs: multiset<MapItem>,
                  types: multiset<MapItem>, classes: multiset<MapItem>, strings: multiset<MapItem>, hidden: multiset<MapItem>,
                  maps: multiset<MapItem>)
    ensures start + maps + types + refs + sets + classes + code + strings + debug + annos + arrays + dirs + hidden
         == start + code + debug + arrays + annos + sets + refs + dirs + types + classes + strings + hidden + maps
  {
  }

  method AddSection(w: DexWriter, queue: MapItemQueue, k: Kind)
    requires w.sectionOffs == SectionOffsets(w.ir, KINDS)
    modifies queue
    ensures multiset(queue.items) == multiset(old(queue.items)) + NonEmpty(Entry(w.ir, k))
  {
    hide *;
    FinalSectionOffset(w.ir, k);
    EntryIs(w.ir, k);
    queue.AddIfNotEmpty(MapItem(MapType(k), Count(w.ir, k), SecOff(w.sectionOffs, k)));
  }

  lemma EntryIs(ir: Header, k: Kind)
    ensures Entry(ir, k) == MapItem(MapType(k), Count(ir, k), FinalSectionOff(ir, k))
  {
    hide MapType, Count, FinalSectionOff;
  }

  method QueueIndexSections(w: DexWriter, queue: MapItemQueue)
    requires w.sectionOffs == SectionOffsets(w.ir, KINDS) && queue.items == []
    modifies queue
    ensures multiset(queue.items) == multiset(LayoutEntries(w.ir, 8))
  {
    hide *;
    Constants();
    queue.AddIfNotEmpty(MapItem(TYPE_HEADER, 1, 0));
    AddSection(w, queue, StringIds);
    AddSection(w, queue, TypeIds);
    AddSection(w, queue, ProtoIds);
    AddSection(w, queue, FieldIds);
    AddSection(w, queue, MethodIds);
    AddSection(w, queue, ClassDefs);
    AddSection(w, queue, CallSiteIds);
    AddSection(w, queue, MethodHandles);
    IndexEntries(w.ir);
  }

  method QueueDataSections(w: DexWriter, queue: MapItemQueue, mapListOffset: nat)
    requires w.sectionOffs == SectionOffsets(w.ir, KINDS) && mapListOffset == MapOffset(w.ir)
    requires multiset(queue.items) == multiset(LayoutEntries(w.ir, 8))
    modifies queue
    ensures multiset(queue.items) == multiset(MapEntries(w.ir))
  {
    hide *;
    ghost var ir, start := w.ir, multiset(queue.items);
    queue.AddIfNotEmpty(MapItem(TYPE_MAP_LIST, 1, mapListOffset));
    AddSection(w, queue, TypeLists);
    AddSection(w, queue, AnnotationSetRefs);
    AddSection(w, queue, AnnotationSets);
    AddSection(w, queue, ClassDatas);
    AddSection(w, queue, CodeItems);
    AddSection(w, queue, StringDatas);
    AddSection(w, queue, DebugInfos);
    AddSection(w, queue, Annotations);
    AddSection(w, queue, EncodedArrays);
    AddSection(w, queue, AnnotationDirs);
    AddSection(w, queue, Hiddenapi);
    DataEntries(ir);
    LayoutStart(ir);
    MapListEntryIs(ir);
    Reordered(start, NonEmpty(Entry(ir, CodeItems)), NonEmpty(Entry(ir, DebugInfos)), NonEmpty(Entry(ir, EncodedArrays)),
              NonEmpty(Entry(ir, Annotations)), NonEmpty(Entry(ir, AnnotationSets)), NonEmpty(Entry(ir, AnnotationSetRefs)),
              NonEmpty(Entry(ir, AnnotationDirs)), NonEmpty(Entry(ir, TypeLists)), NonEmpty(Entry(ir, ClassDatas)),
              NonEmpty(Entry(ir, StringDatas)), NonEmpty(Entry(ir, Hiddenapi)), NonEmpty(MapListEntry(ir)));
  }

  lemma MapListEntryIs(ir: Header)
    ensures MapListEntry(ir) == MapItem(TYPE_MAP_LIST, 1, MapOffset(ir))
  {
    hide MapOffset;
  }

  /** `GenerateAndWriteMapItems`. */
  method GenerateAndWriteMapItems(w: DexWriter) returns (items: seq<MapItem>)
    requires w.sectionOffs == SectionOffsets(w.ir, KINDS) && w.stream.position == MapOffset(w.ir)
    requires w.stream.Valid() && |w.stream.image| <= w.stream.position
    modifies w.stream, w.stream.section
    ensures multiset(items) == multiset(MapEntries(w.ir)) && Sorted(items)
    ensures w.stream.Valid() && w.stream.position == old(w.stream.position) + |MapListBytes(items)|
    ensures w.stream.image == Splice(old(w.stream.image), old(w.stream.position), MapListBytes(items))
  {
    hide *;
    var queue := new MapItemQueue();
    QueueIndexSections(w, queue);
    QueueDataSections(w, queue, w.stream.position);
    NothingBeyond(w.stream.image, w.stream.position, 4 + 12 * |queue.items|);
    items := WriteMapItems(w.stream, queue);
  }

  // ------------------------------------------------------------------ the whole file

  method StartWriter(ir: Header, output: VectorSection) returns (w: DexWriter)
    requires output.data == []
    modifies output
    ensures fresh(w) && fresh(w.stream) && w.ir == ir && w.stream.section == output
    ensures At(w, {}, 0)
  {
    hide *;
    var stream := new Stream(output);
    stream.Seek(HEADER_SIZE);
    w := new DexWriter(ir, stream);
    BodyStart(ir, {});
    SectionOffsetsStep(ir, StringIds);
    PlacedStart(ir);
    ExtendNothing(HEADER_SIZE);
    AtIs(w, {}, 0);
  }

  lemma PlacedStart(ir: Header)
    ensures Placed(ir, 0).pos == HEADER_SIZE
  {
  }

  lemma ExtendNothing(n: nat)
    ensures Extend([], n) == Zeros(n)
  {
  }

  lemma SizeOfEntries(a: seq<MapItem>, b: seq<MapItem>)
    requires multiset(a) == multiset(b)
    ensures |a| == |b|
  {
    assert |multiset(a)| == |a| && |multiset(b)| == |b|;
  }

  lemma MapOffsetIs(ir: Header)
    ensures MapOffset(ir) == AlignUp(Placed(ir, KINDS).pos, 4)
    ensures DataEnd(ir) == AlignUp(MapOffset(ir) + 4 + 12 * |MapEntries(ir)|, DATA_ALIGNMENT)
    ensures FileSize(ir) == DataEnd(ir) + |ir.linkData|
  {
    hide AlignUp, Placed, MapEntries;
  }

  /** Behind the sections: the map list, padding, and the link data. */
  method WriteTail(w: DexWriter) returns (items: seq<MapItem>, mapOffset: nat, dataEnd: nat, linkOffset: nat)
    requires WellFormed(w.ir) && At(w, ALL, KINDS)
    modifies w.stream, w.stream.section
    ensures multiset(items) == multiset(MapEntries(w.ir)) && Sorted(items) && |items| == |MapEntries(w.ir)|
    ensures mapOffset == MapOffset(w.ir) && dataEnd == DataEnd(w.ir)
    ensures linkOffset == LinkOffset(w.ir)
    ensures w.stream.Valid() && w.stream.position == FileSize(w.ir)
    ensures w.stream.image == Unheaded(w.ir, items)
  {
    hide *;
    AtGives(w, ALL, KINDS);
    MapOffsetIs(w.ir);
    ghost var body := Body(w.ir, ALL, KINDS);
    w.stream.AlignTo(4);
    mapOffset := w.stream.position;
    ghost var padded := w.stream.image;
    items := GenerateAndWriteMapItems(w);
    SizeOfEntries(items, MapEntries(w.ir));
    SpliceAtEnd(padded, MapListBytes(items));
    w.stream.AlignTo(DATA_ALIGNMENT);
    dataEnd := w.stream.position;
    ghost var data := w.stream.image;
    linkOffset := w.ir.linkOffset;
    LinkOffsetIs(w.ir);
    UnheadedIs(w.ir, items);
    SpliceAtEnd(data, w.ir.linkData);
    if |w.ir.linkData| > 0 {
      linkOffset := w.stream.position;
      NothingBeyond(w.stream.image, w.stream.position, |w.ir.linkData|);
      w.stream.Write(w.ir.linkData);
    } else {
      assert data + w.ir.linkData == data;
    }
  }

  lemma LinkOffsetIs(ir: Header)
    ensures LinkOffset(ir) == if ir.linkData == [] then ir.linkOffset else DataEnd(ir)
  {
    hide DataEnd;
  }

  lemma UnheadedIs(ir: Header, items: seq<MapItem>)
    requires |items| == |MapEntries(ir)|
    ensures Unheaded(ir, items)
         == Extend(Extend(Body(ir, ALL, KINDS), MapOffset(ir)) + MapListBytes(items), DataEnd(ir)) + ir.linkData
  {
    hide Extend, Body, MapOffset, MapListBytes, DataEnd, MapEntries;
  }

  /** `WriteHeader`, from the collections' sizes and offsets and the header's own fields. */
  method WriteHeader(w: DexWriter, fileSize: nat, mapOffset: nat, linkOffset: nat, dataSize: nat, dataOffset: nat)
    requires WellFormed(w.ir) && w.stream.Valid()
    requires w.sectionOffs == SectionOffsets(w.ir, KINDS)
    requires fileSize == FileSize(w.ir) && mapOffset == MapOffset(w.ir)
    requires linkOffset == LinkOffset(w.ir)
    requires dataSize == DataEnd(w.ir) - DataOffset(w.ir) && dataOffset == DataOffset(w.ir)
    modifies w.stream, w.stream.section
    ensures w.stream.Valid()
    ensures w.stream.image == Splice(old(w.stream.image), 0, HeaderBytes(w.ir))
  {
    hide *;
    PrefixSize(w.ir);
    var words := HeaderFields(w.ir, w.sectionOffs, fileSize, linkOffset, mapOffset, dataSize, dataOffset);
    HeaderIs(w.ir);
    ExtendShort(w.stream.image, 0);
    w.stream.Seek(0);
    w.stream.Overwrite(w.ir.prefix + U32s(words));
  }

  lemma PrefixSize(ir: Header)
    requires WellFormed(ir)
    ensures |ir.prefix| == 32
  {
  }

  lemma HeaderIs(ir: Header)
    requires |ir.prefix| == 32
    ensures HeaderBytes(ir) == ir.prefix + U32s(HeaderWords(ir))
    ensures HeaderWords(ir)
         == HeaderFields(ir, SectionOffsets(ir, KINDS), FileSize(ir), LinkOffset(ir), MapOffset(ir),
                         DataEnd(ir) - DataOffset(ir), DataOffset(ir))
  {
    hide HeaderFields, FileSize, DataEnd, MapOffset, DataOffset, LinkOffset, SectionOffsets, U32s, StartOf, MapEntries, Placed, AlignUp;
  }

  lemma SpliceHead(s: seq<Byte>, h: seq<Byte>)
    requires |h| <= |s|
    ensures Splice(s, 0, h) == h + s[|h|..]
  {
  }

  lemma FileIs(ir: Header, items: seq<MapItem>)
    requires |ir.prefix| == 32 && |items| == |MapEntries(ir)|
    ensures Splice(Unheaded(ir, items), 0, HeaderBytes(ir)) == FileBytes(ir, items)
    ensures |FileBytes(ir, items)| == FileSize(ir)
  {
    hide HeaderBytes, Unheaded, MapEntries, DataOffset, DataEnd, Splice;
    DataNotEmpty(ir);
    SpliceHead(Unheaded(ir, items), HeaderBytes(ir));
  }

  lemma TrimToImage(data: seq<Byte>, image: seq<Byte>, trimmed: seq<Byte>)
    requires |image| <= |data| && data[..|image|] == image && |trimmed| == |image|
    requires forall i | 0 <= i < |trimmed| :: trimmed[i] == if i < |data| then data[i] else 0
    ensures trimmed == image
  {
    forall i | 0 <= i < |trimmed| ensures trimmed[i] == image[i] { assert image[i] == data[..|image|][i]; }
  }

  /**
    * `DexWriter::Write` with computed offsets: the container's section ends up holding exactly the
    * file, whose map list `items` is the entries sorted by offset.
    */
  method Write(ir: Header, output: VectorSection) returns (items: seq<MapItem>)
    requires WellFormed(ir) && output.data == []
    modifies output
    ensures multiset(items) == multiset(MapEntries(ir)) && Sorted(items) && |items| == |MapEntries(ir)|
    ensures output.data == FileBytes(ir, items)
  {
    hide *;
    PrefixSize(ir);
    var w := StartWriter(ir, output);
    var dataOffset := WriteSections(w);
    AtGives(w, ALL, KINDS);
    var mapOffset, dataEnd, linkOffset;
    items, mapOffset, dataEnd, linkOffset := WriteTail(w);
    DataNotEmpty(ir);
    var dataSize := dataEnd - dataOffset;
    dataOffset := if dataSize != 0 then dataOffset else 0;
    var fileSize := w.stream.position;
    WriteHeader(w, fileSize, mapOffset, linkOffset, dataSize, dataOffset);
    FileIs(ir, items);
    w.stream.Storage();
    ghost var before, image := output.data, w.stream.image;
    output.Resize(fileSize);
    TrimToImage(before, image, output.data);
  }
}
