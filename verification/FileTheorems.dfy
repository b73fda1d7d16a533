/** What holds of every file the writer produces. */
module FileTheorems {
  import opened Bytes
  import opened Streams
  import opened Packing
  import opened EncodedValues
  import opened DexIr
  import opened Items
  import opened ItemWriters
  import opened Layout
  import opened LayoutFacts
  import opened FileBody
  import opened SectionWriter
  import opened FileSections
  import opened MapList
  import opened DexFileWriter
  import opened Reading

  // ------------------------------------------------------------------ parts of the file

  lemma HeadReplaced(h: seq<Byte>, rest: seq<Byte>, p: nat, part: seq<Byte>)
    requires |h| <= |rest| && |h| <= p && Holds(rest, p, part)
    ensures Holds(h + rest[|h|..], p, part)
  {
    var f := h + rest[|h|..];
    forall i | 0 <= i < |part| ensures f[p..p + |part|][i] == part[i] { assert rest[p..p + |part|][i] == part[i]; }
  }

  lemma HoldsInPrefix(a: seq<Byte>, n: nat, b: seq<Byte>, p: nat, part: seq<Byte>)
    requires Holds(a, p, part)
    ensures Holds(Extend(a, n) + b, p, part)
  {
    var f := Extend(a, n) + b;
    forall i | 0 <= i < |part| ensures f[p..p + |part|][i] == part[i] { assert a[p..p + |part|][i] == part[i]; }
  }

  lemma HoldsAtEnd(a: seq<Byte>, b: seq<Byte>)
    ensures Holds(a + b, |a|, b)
  {
  }

  lemma FileParts(ir: Header, items: seq<MapItem>)
    requires |ir.prefix| == 32 && |items| == |MapEntries(ir)|
    ensures FileBytes(ir, items) == HeaderBytes(ir) + Unheaded(ir, items)[HEADER_SIZE..]
    ensures HEADER_SIZE <= DataOffset(ir) < DataEnd(ir) && FileSize(ir) == DataEnd(ir) + |ir.linkData|
  {
    hide HeaderBytes, Unheaded, MapEntries, DataOffset, DataEnd;
    DataNotEmpty(ir);
  }

  /** Whatever the body, the map list or the link data holds, the file holds. */
  lemma InFile(ir: Header, items: seq<MapItem>, p: nat, part: seq<Byte>)
    requires |ir.prefix| == 32 && |items| == |MapEntries(ir)| && HEADER_SIZE <= p && Holds(Unheaded(ir, items), p, part)
    ensures Holds(FileBytes(ir, items), p, part)
  {
    hide *;
    FileParts(ir, items);
    HeadReplaced(HeaderBytes(ir), Unheaded(ir, items), p, part);
  }

  lemma InBody(ir: Header, items: seq<MapItem>, p: nat, part: seq<Byte>)
    requires |ir.prefix| == 32 && |items| == |MapEntries(ir)| && HEADER_SIZE <= p && Holds(Body(ir, ALL, KINDS), p, part)
    ensures Holds(FileBytes(ir, items), p, part)
  {
    hide *;
    UnheadedIs(ir, items);
    HoldsInPrefix(Body(ir, ALL, KINDS), MapOffset(ir), MapListBytes(items), p, part);
    HoldsInPrefix(Extend(Body(ir, ALL, KINDS), MapOffset(ir)) + MapListBytes(items), DataEnd(ir), ir.linkData, p, part);
    InFile(ir, items, p, part);
  }

  lemma IndexBelow(k: Kind)
    ensures IndexOf(k) < KINDS
  {
  }

  lemma HoldsSlice(s: seq<Byte>, p: nat, part: seq<Byte>)
    requires p + |part| <= |s| && s[p..p + |part|] == part
    ensures Holds(s, p, part)
  {
  }

  /** Every section stands at its start. */
  lemma SectionInFile(ir: Header, items: seq<MapItem>, k: Kind)
    requires |ir.prefix| == 32 && |items| == |MapEntries(ir)|
    ensures Holds(FileBytes(ir, items), StartOf(ir, k), SectionBytes(ir, k))
  {
    hide *;
    IndexBelow(k);
    InAll(k);
    BodySection(ir, ALL, k, KINDS);
    ImageDone(ir, ALL, k);
    HoldsSlice(Body(ir, ALL, KINDS), StartOf(ir, k), SectionBytes(ir, k));
    InBody(ir, items, StartOf(ir, k), SectionBytes(ir, k));
  }

  /**
    * Every item stands, whole, at its position, and its bytes are the encoding of the IR's item
    * with the final offset of everything it points at.
    */
  lemma ItemInFile(ir: Header, items: seq<MapItem>, k: Kind, i: nat)
    requires |ir.prefix| == 32 && |items| == |MapEntries(ir)| && i < Count(ir, k)
    ensures Holds(FileBytes(ir, items), ItemStart(ir, k, i), ItemBytes(ir, FinalOffsets(ir), k, i))
    ensures ItemStart(ir, k, i) % SectionAlignment(k) == 0 && ItemStart(ir, k, i) >= HEADER_SIZE
  {
    hide *;
    var list, start, a := ItemList(ir, FinalOffsets(ir), k), StartOf(ir, k), SectionAlignment(k);
    SectionInFile(ir, items, k);
    SectionIs(ir, k);
    ItemStartIs(ir, k, i);
    ListElement(ir, FinalOffsets(ir), k, i);
    PackItem(a, start, list, Count(ir, k), i);
    HoldsSlice(SectionBytes(ir, k), ItemStart(ir, k, i) - start, list[i]);
    HoldsPart(FileBytes(ir, items), start, SectionBytes(ir, k), ItemStart(ir, k, i) - start, list[i]);
    AlignedTo(a, start, list, i);
  }

  lemma AlignedTo(a: Alignment, start: nat, list: seq<seq<Byte>>, i: nat)
    requires i <= |list|
    ensures StartAt(a, start, list, i) % a == 0
  {
    hide AlignUp;
    AlignUpAligns(EndAt(a, start, list, i), a);
  }

  /** The end of an item. */
  function ItemEnd(ir: Header, k: Kind, i: nat): nat
    requires i < Count(ir, k)
  {
    ItemStart(ir, k, i) + |ItemBytes(ir, FinalOffsets(ir), k, i)|
  }

  lemma ItemEndIs(ir: Header, k: Kind, i: nat)
    requires i < Count(ir, k)
    ensures ItemEnd(ir, k, i) == ItemStart(ir, k, i) + |ItemBytes(ir, FinalOffsets(ir), k, i)|
  {
    hide ItemStart, ItemBytes, FinalOffsets, Count;
  }

  /** An item lies inside its section. */
  lemma ItemInside(ir: Header, k: Kind, i: nat)
    requires i < Count(ir, k)
    ensures StartOf(ir, k) <= ItemStart(ir, k, i) && ItemEnd(ir, k, i) <= StartOf(ir, k) + |SectionBytes(ir, k)|
  {
    hide *;
    var list, start, a := ItemList(ir, FinalOffsets(ir), k), StartOf(ir, k), SectionAlignment(k);
    SectionIs(ir, k);
    ItemEndIs(ir, k, i);
    ItemStartIs(ir, k, i);
    ListElement(ir, FinalOffsets(ir), k, i);
    PackOrdered(a, start, list, i, Count(ir, k));
  }

  /** The order of items: by section, then by position in the collection. */
  predicate Earlier(k1: Kind, i1: nat, k2: Kind, i2: nat) {
    IndexOf(k1) < IndexOf(k2) || (k1 == k2 && i1 < i2)
  }

  /** Items do not overlap: each ends before the next one begins, in the order of the file. */
  lemma NoOverlap(ir: Header, k1: Kind, i1: nat, k2: Kind, i2: nat)
    requires i1 < Count(ir, k1) && i2 < Count(ir, k2) && Earlier(k1, i1, k2, i2)
    ensures ItemEnd(ir, k1, i1) <= ItemStart(ir, k2, i2)
  {
    EarlierIs(k1, i1, k2, i2);
    hide *;
    if k1 == k2 {
      var list, start, a := ItemList(ir, FinalOffsets(ir), k1), StartOf(ir, k1), SectionAlignment(k1);
      ItemEndIs(ir, k1, i1);
      ItemStartIs(ir, k1, i1);
      ItemStartIs(ir, k1, i2);
      ListElement(ir, FinalOffsets(ir), k1, i1);
      PackOrdered(a, start, list, i1, i2);
    } else {
      ItemInside(ir, k1, i1);
      ItemInside(ir, k2, i2);
      IndexBelow(k2);
      SectionInside(ir, k1, IndexOf(k2));
      StartBehind(ir, k2);
    }
  }

  lemma EarlierIs(k1: Kind, i1: nat, k2: Kind, i2: nat)
    ensures Earlier(k1, i1, k2, i2) <==> IndexOf(k1) < IndexOf(k2) || (k1 == k2 && i1 < i2)
  {
    hide IndexOf;
  }

  // ------------------------------------------------------------------ the map list

  /** Every section with items takes room; only debug infos could all be empty. */
  predicate SectionsTakeRoom(ir: Header) {
    forall k: Kind :: Count(ir, k) > 0 ==> SectionBytes(ir, k) != []
  }

  lemma {:induction false} EntriesBelow(ir: Header, n: nat)
    requires n <= KINDS && SectionsTakeRoom(ir)
    ensures StrictlySorted(LayoutEntries(ir, n))
    ensures forall m | m in LayoutEntries(ir, n) :: m.offset < Placed(ir, n).pos
  {
    hide *;
    EntriesStep(ir, n);
    if n > 0 {
      var k, prev := KindAt(n - 1), LayoutEntries(ir, n - 1);
      KindAtIndex(n - 1);
      EntriesBelow(ir, n - 1);
      StartBehind(ir, k);
      PlacedAfter(ir, k);
      if Count(ir, k) > 0 {
        TakesRoom(ir, k);
        RecordedBetween(ir, k);
        EntryIs(ir, k);
        SortedSnoc(prev, Entry(ir, k));
      } else {
        assert prev + [] == prev;
      }
    } else {
      Constants();
      PlacedStart(ir);
      OneSorted(HEADER_ENTRY);
    }
  }

  lemma TakesRoom(ir: Header, k: Kind)
    requires SectionsTakeRoom(ir) && Count(ir, k) > 0
    ensures SectionBytes(ir, k) != [] && FinalSectionOff(ir, k) == RecordedStart(ir, k)
  {
    hide SectionBytes, Count, RecordedStart;
  }

  lemma EntriesStep(ir: Header, n: nat)
    requires n <= KINDS
    ensures n == 0 ==> LayoutEntries(ir, n) == [HEADER_ENTRY]
    ensures n > 0 ==> LayoutEntries(ir, n)
                      == LayoutEntries(ir, n - 1) + (if Count(ir, KindAt(n - 1)) == 0 then [] else [Entry(ir, KindAt(n - 1))])
  {
    hide Count, Entry, KindAt;
  }

  lemma SortedSnoc(ms: seq<MapItem>, m: MapItem)
    requires StrictlySorted(ms) && forall x | x in ms :: x.offset < m.offset
    ensures StrictlySorted(ms + [m])
  {
  }

  lemma OneSorted(m: MapItem)
    ensures StrictlySorted([m])
  {
  }

  /** The recorded offset is behind everything before the section and before the section's end. */
  lemma RecordedBetween(ir: Header, k: Kind)
    requires SectionBytes(ir, k) != []
    ensures StartOf(ir, k) <= RecordedStart(ir, k) < StartOf(ir, k) + |SectionBytes(ir, k)|
  {
    hide *;
    SectionOffsetsStep(ir, k);
    EmptyOrNot(SectionBytes(ir, k));
    if k == Hiddenapi {
      HiddenapiOffsets(ir);
      HiddenapiSection(ir);
      HiddenapiNotEmpty(ir.hiddenapi);
    }
  }

  /**
    * The map list is the header, the sections that have items, in layout order and at strictly
    * increasing offsets, and the map list itself.
    */
  lemma MapListInOrder(ir: Header, items: seq<MapItem>)
    requires SectionsTakeRoom(ir) && multiset(items) == multiset(MapEntries(ir)) && Sorted(items)
    ensures items == MapEntries(ir) && StrictlySorted(items)
  {
    hide *;
    EntriesBelow(ir, KINDS);
    MapOffsetIs(ir);
    MapEntriesAre(ir);
    MapListEntryIs(ir);
    SortedSnoc(LayoutEntries(ir, KINDS), MapListEntry(ir));
    SortedUnique(MapEntries(ir), items);
  }

  lemma MapEntriesAre(ir: Header)
    ensures MapEntries(ir) == LayoutEntries(ir, KINDS) + [MapListEntry(ir)]
  {
    hide LayoutEntries, MapListEntry;
  }

  /** The map list stands at the offset in the header. */
  lemma MapListInFile(ir: Header, items: seq<MapItem>)
    requires |ir.prefix| == 32 && |items| == |MapEntries(ir)|
    ensures Holds(FileBytes(ir, items), MapOffset(ir), MapListBytes(items))
  {
    hide *;
    var padded := Extend(Body(ir, ALL, KINDS), MapOffset(ir));
    UnheadedIs(ir, items);
    HoldsAtEnd(padded, MapListBytes(items));
    HoldsInPrefix(padded + MapListBytes(items), DataEnd(ir), ir.linkData, MapOffset(ir), MapListBytes(items));
    InFile(ir, items, MapOffset(ir), MapListBytes(items));
  }

  /** An entry leads to the section's first item: its offset, rounded up to the section's alignment. */
  lemma EntryLeadsToItems(ir: Header, k: Kind)
    requires Count(ir, k) > 0 && SectionBytes(ir, k) != []
    ensures AlignUp(FinalSectionOff(ir, k), SectionAlignment(k)) == ItemStart(ir, k, 0)
  {
    hide *;
    var list, start, a := ItemList(ir, FinalOffsets(ir), k), StartOf(ir, k), SectionAlignment(k);
    ItemStartIs(ir, k, 0);
    StartIs(a, start, list, 0);
    NothingPacked(a, start, list);
    SectionOffsetsStep(ir, k);
    FinalOffIs(ir, k);
    if k == Hiddenapi {
      HiddenapiOffsets(ir);
      HiddenapiList(ir, FinalOffsets(ir));
      AlignTwice(start);
    }
  }

  lemma FinalOffIs(ir: Header, k: Kind)
    ensures SectionBytes(ir, k) != [] ==> FinalSectionOff(ir, k) == RecordedStart(ir, k)
    ensures SectionBytes(ir, k) == [] ==> FinalSectionOff(ir, k) == SecOff(ir.sectionOffsets, k)
  {
    hide SectionBytes, RecordedStart, SecOff;
  }

  lemma AlignTwice(p: nat)
    ensures AlignUp(AlignUp(p, 4), 4) == AlignUp(p, 4)
  {
  }

  // ------------------------------------------------------------------ the header

  /** Every field of the header is read back from the file, cut to 32 bits. */
  lemma HeaderWordInFile(ir: Header, items: seq<MapItem>, j: nat)
    requires |ir.prefix| == 32 && |items| == |MapEntries(ir)| && j < 20
    ensures Word(FileBytes(ir, items), 32 + 4 * j) == ToU32(HeaderWords(ir)[j])
  {
    hide *;
    FileParts(ir, items);
    HeaderIs(ir);
    var file := FileBytes(ir, items);
    var rest := Unheaded(ir, items)[HEADER_SIZE..];
    assert file == ir.prefix + U32s(HeaderWords(ir)) + rest;
    HoldsMiddle(ir.prefix, U32s(HeaderWords(ir)), rest);
    WordOfRun(file, 32, HeaderWords(ir), j);
  }

  lemma EmptySection(ir: Header, k: Kind)
    requires Count(ir, k) == 0
    ensures SectionBytes(ir, k) == []
  {
    hide *;
    SectionIs(ir, k);
    NothingPacked(SectionAlignment(k), StartOf(ir, k), ItemList(ir, FinalOffsets(ir), k));
  }

  lemma ItemTakesRoom(ir: Header, o: Offsets, k: Kind, i: nat)
    requires i < Count(ir, k) && k != DebugInfos
    ensures |ItemBytes(ir, o, k, i)| > 0
  {
    hide U32s, U16s, Ulebs, EncodeArray, EncodeAnnotation, ClassDefWords, HiddenapiHeader, FlagStreams, MemberWords, ClassDataWords,
         PostInstructionBytes, CodeHeaderBytes;
    ClassDataTakesRoom(o, if k == ClassDatas then ir.classDatas[i] else ClassData([], [], [], []));
    if k == EncodedArrays { ArrayTakesRoom(ir.encodedArrays[i]); }
  }

  lemma ClassDataTakesRoom(o: Offsets, c: ClassData)
    ensures |Ulebs(ClassDataWords(o, c))| > 0
  {
    hide *;
    ClassDataParts(o, c);
  }

  lemma ArrayTakesRoom(values: seq<EncodedValue>)
    ensures |EncodeArray(values)| > 0
  {
  }

  lemma TableTakesRoom(ir: Header, k: Kind)
    requires Count(ir, k) > 0 && k != DebugInfos
    ensures SectionBytes(ir, k) != []
  {
    hide *;
    ItemTakesRoom(ir, FinalOffsets(ir), k, 0);
    ItemInside(ir, k, 0);
    ItemEndIs(ir, k, 0);
    EmptyOrNot(SectionBytes(ir, k));
  }

  /** The one way to take no room is a list of debug infos that are all empty. */
  lemma RoomIffDebugInfo(ir: Header)
    ensures SectionsTakeRoom(ir) <==> (ir.debugInfos == [] || exists i | 0 <= i < |ir.debugInfos| :: ir.debugInfos[i] != [])
  {
    hide SectionBytes;
    forall k: Kind | k != DebugInfos && Count(ir, k) > 0 ensures SectionBytes(ir, k) != [] { TableTakesRoom(ir, k); }
    if i :| 0 <= i < |ir.debugInfos| && ir.debugInfos[i] != [] {
      ItemInside(ir, DebugInfos, i);
      DebugBytes(ir, i);
      assert SectionBytes(ir, DebugInfos) != [];
    } else if ir.debugInfos != [] {
      AllDebugEmpty(ir, |ir.debugInfos|);
      assert Count(ir, DebugInfos) > 0 && SectionBytes(ir, DebugInfos) == [];
    }
  }

  lemma DebugBytes(ir: Header, i: nat)
    requires i < |ir.debugInfos|
    ensures i < Count(ir, DebugInfos) && ItemEnd(ir, DebugInfos, i) == ItemStart(ir, DebugInfos, i) + |ir.debugInfos[i]|
  {
    hide ItemStart;
  }

  lemma {:induction false} AllDebugEmpty(ir: Header, n: nat)
    requires n <= |ir.debugInfos| && forall i | 0 <= i < |ir.debugInfos| :: ir.debugInfos[i] == []
    ensures EndAt(1, StartOf(ir, DebugInfos), ItemList(ir, FinalOffsets(ir), DebugInfos), n) == StartOf(ir, DebugInfos)
    ensures n == |ir.debugInfos| ==> SectionBytes(ir, DebugInfos) == []
  {
    hide StartOf, FinalOffsets, SectionBytes;
    SectionIs(ir, DebugInfos);
    if n > 0 {
      AllDebugEmpty(ir, n - 1);
      assert ItemList(ir, FinalOffsets(ir), DebugInfos)[n - 1] == [];
    }
  }
}
