/** The header, the data section and the map list of a written file, as its bytes show them. */
module FileHeader {
  import opened Bytes
  import opened Streams
  import opened Packing
  import opened DexIr
  import opened Items
  import opened Layout
  import opened LayoutFacts
  import opened FileBody
  import opened SectionWriter
  import opened FileSections
  import opened MapList
  import opened DexFileWriter
  import opened FileTheorems
  import opened Reading
  import opened ItemDecoding
  import opened FileRoundTrip
  import opened FileTables
  import opened WholeFile

  /** A file the writer produces, below 4 GiB, so that its offsets fit their fields. */
  ghost predicate IsSmallFile(ir: Header, items: seq<MapItem>, f: seq<Byte>) {
    |ir.prefix| == 32 && |items| == |MapEntries(ir)| && f == FileBytes(ir, items) && |f| < 0x1_0000_0000
  }

  lemma SmallGives(ir: Header, items: seq<MapItem>, f: seq<Byte>)
    requires IsSmallFile(ir, items, f)
    ensures |ir.prefix| == 32 && |items| == |MapEntries(ir)| && f == FileBytes(ir, items) && |f| == FileSize(ir) < LIMIT
    ensures HEADER_SIZE == 0x70 <= DataOffset(ir) < DataEnd(ir) && |f| == DataEnd(ir) + |ir.linkData|
  {
    hide MapEntries, FileBytes, DataOffset, DataEnd;
    DataNotEmpty(ir);
    LimitIs();
  }

  lemma OtherFieldsAt(ir: Header)
    requires |ir.prefix| == 32
    ensures var h := HeaderWords(ir);
            && h[0] == FileSize(ir) && h[1] == HEADER_SIZE && h[2] == ir.endianTag && h[3] == |ir.linkData| && h[4] == LinkOffset(ir)
            && h[18] == DataEnd(ir) - DataOffset(ir) && h[19] == DataOffset(ir)
  {
    hide *;
    DexFileWriter.HeaderIs(ir);
    FieldsAt(ir, SectionOffsets(ir, KINDS), FileSize(ir), LinkOffset(ir), MapOffset(ir), DataEnd(ir) - DataOffset(ir), DataOffset(ir));
  }

  // ------------------------------------------------------------------ magic, sizes, link data

  lemma PrefixStands(p: seq<Byte>, w: seq<Byte>, rest: seq<Byte>)
    ensures (p + w + rest)[..|p|] == p
  {
  }

  lemma LinkDataInFile(ir: Header, items: seq<MapItem>)
    requires |ir.prefix| == 32 && |items| == |MapEntries(ir)|
    ensures Holds(FileBytes(ir, items), DataEnd(ir), ir.linkData)
  {
    hide *;
    UnheadedIs(ir, items);
    MapOffsetIs(ir);
    DataNotEmpty(ir);
    HoldsAtEnd(Extend(Extend(Body(ir, ALL, KINDS), MapOffset(ir)) + MapListBytes(items), DataEnd(ir)), ir.linkData);
    InFile(ir, items, DataEnd(ir), ir.linkData);
  }

  /**
    * The header of a file: magic, checksum and signature are those of the IR, the size is the
    * file's own, and the link data, if there is any, stands at its offset and ends the file.
    */
  lemma HeaderOfFile(ir: Header, items: seq<MapItem>, f: seq<Byte>)
    requires IsSmallFile(ir, items, f)
    ensures 32 <= |f| && f[..32] == ir.prefix
    ensures Word(f, 32) == |f| && Word(f, 36) == 0x70 && Word(f, 40) == ir.endianTag && Word(f, 44) == |ir.linkData|
    ensures ir.linkData == [] ==> Word(f, 48) == ir.linkOffset
    ensures ir.linkData != [] ==> Holds(f, Word(f, 48), ir.linkData) && Word(f, 48) + |ir.linkData| == |f|
  {
    hide *;
    SmallGives(ir, items, f);
    FileParts(ir, items);
    HeaderIs(ir);
    PrefixStands(ir.prefix, U32s(HeaderWords(ir)), Unheaded(ir, items)[HEADER_SIZE..]);
    OtherFieldsAt(ir);
    HeaderWordInFile(ir, items, 0);
    HeaderWordInFile(ir, items, 1);
    HeaderWordInFile(ir, items, 2);
    HeaderWordInFile(ir, items, 3);
    HeaderWordInFile(ir, items, 4);
    LimitIs();
    FitsWord(|f|);
    FitsWord(0x70);
    FitsWord(ir.endianTag);
    FitsWord(|ir.linkData|);
    LinkOffsetIs(ir);
    FitsWord(LinkOffset(ir));
    LinkDataInFile(ir, items);
  }

  // ------------------------------------------------------------------ the data section

  lemma DataWords(ir: Header, items: seq<MapItem>, f: seq<Byte>)
    requires IsSmallFile(ir, items, f)
    ensures Word(f, 104) == DataEnd(ir) - DataOffset(ir) && Word(f, 108) == DataOffset(ir)
  {
    hide *;
    SmallGives(ir, items, f);
    OtherFieldsAt(ir);
    HeaderWordInFile(ir, items, 18);
    HeaderWordInFile(ir, items, 19);
    FitsWord(DataEnd(ir) - DataOffset(ir));
    FitsWord(DataOffset(ir));
  }

  lemma MultiplesOfEight(x: nat, y: nat)
    requires x <= y && x % 8 == 0 && y % 8 == 0
    ensures (y - x) % 8 == 0
  {
  }

  /** The data section starts behind the header, is aligned at both ends, and only the link data follows. */
  lemma DataSectionOfFile(ir: Header, items: seq<MapItem>, f: seq<Byte>)
    requires IsSmallFile(ir, items, f)
    ensures 0x70 <= Word(f, 108) && Word(f, 108) % 8 == 0
    ensures Word(f, 104) > 0 && Word(f, 104) % 8 == 0
    ensures Word(f, 108) + Word(f, 104) + |ir.linkData| == |f|
  {
    hide *;
    SmallGives(ir, items, f);
    DataWords(ir, items, f);
    Constants();
    DataOffsetIs(ir);
    StartOfOther(ir, CodeItems);
    AlignUpAligns(Placed(ir, IndexOf(CodeItems)).pos, 8);
    MapOffsetIs(ir);
    AlignUpAligns(MapOffset(ir) + 4 + 12 * |MapEntries(ir)|, 8);
    MultiplesOfEight(DataOffset(ir), DataEnd(ir));
  }

  /** The tables: strings, types, prototypes, fields, methods, classes, call sites, method handles. */
  predicate IsTable(k: Kind) {
    k == StringIds || k == TypeIds || k == ProtoIds || k == FieldIds || k == MethodIds || k == ClassDefs || k == CallSiteIds || k == MethodHandles
  }

  lemma TableOrder(k: Kind)
    ensures IndexOf(CodeItems) == 8 && KINDS == 19
    ensures IsTable(k) ==> IndexOf(k) < 8
    ensures !IsTable(k) ==> 8 <= IndexOf(k) < 19
  {
  }

  /** Every row of a table lies between the header and the data section. */
  lemma RowsInFront(ir: Header, items: seq<MapItem>, f: seq<Byte>, k: Kind, i: nat)
    requires IsSmallFile(ir, items, f) && i < Count(ir, k) && IsTable(k)
    ensures 0x70 <= ItemStart(ir, k, i) && ItemEnd(ir, k, i) <= Word(f, 108)
  {
    hide *;
    DataWords(ir, items, f);
    DataOffsetIs(ir);
    Constants();
    TableOrder(k);
    ItemInside(ir, k, i);
    SectionInside(ir, k, 8);
    StartBehind(ir, CodeItems);
  }

  /** Every other item lies in the data section, in front of the map list. */
  lemma DataInside(ir: Header, items: seq<MapItem>, f: seq<Byte>, k: Kind, i: nat)
    requires IsSmallFile(ir, items, f) && i < Count(ir, k) && !IsTable(k)
    ensures Word(f, 108) <= ItemStart(ir, k, i) && ItemEnd(ir, k, i) <= Word(f, 52) <= Word(f, 108) + Word(f, 104)
  {
    hide *;
    DataWords(ir, items, f);
    DataOffsetIs(ir);
    TableOrder(k);
    ItemInside(ir, k, i);
    StartOrdered(ir, k);
    SectionInside(ir, k, 19);
    MapOffsetIs(ir);
    MapWord(ir, items, f);
  }

  /** A section that is not a table begins no earlier than the code items. */
  lemma StartOrdered(ir: Header, k: Kind)
    requires !IsTable(k)
    ensures StartOf(ir, CodeItems) <= StartOf(ir, k)
  {
    TableOrder(k);
    if IndexOf(k) == 8 {
      KindAtIndex(8);
    } else {
      hide *;
      TableOrder(k);
      SectionInside(ir, CodeItems, IndexOf(k));
      StartBehind(ir, k);
    }
  }

  lemma MapWord(ir: Header, items: seq<MapItem>, f: seq<Byte>)
    requires IsSmallFile(ir, items, f)
    ensures Word(f, 52) == MapOffset(ir)
  {
    hide *;
    SmallGives(ir, items, f);
    MapFits(ir);
    HeaderFieldsAt(ir);
    HeaderWordInFile(ir, items, 5);
    FitsWord(MapOffset(ir));
  }

  /** The map list closes the data section, but for padding. */
  lemma MapListInside(ir: Header, items: seq<MapItem>, f: seq<Byte>)
    requires IsSmallFile(ir, items, f)
    ensures var at := Word(f, 52); var end := at + 4 + 12 * Word(f, at);
            && Word(f, at) == |items| && at % 4 == 0 && Word(f, 108) <= at
            && end <= Word(f, 108) + Word(f, 104) < end + 8
  {
    hide *;
    SmallGives(ir, items, f);
    DataWords(ir, items, f);
    MapWord(ir, items, f);
    MapFits(ir);
    MapLength(ir, items, f);
    MapOffsetIs(ir);
    AlignUpAligns(Placed(ir, KINDS).pos, 4);
    AlignUpBound(MapOffset(ir) + 4 + 12 * |MapEntries(ir)|);
    Constants();
    DataOffsetIs(ir);
    SectionInside(ir, CodeItems, KINDS);
  }

  lemma AlignUpBound(p: nat)
    ensures p <= AlignUp(p, 8) < p + 8
  {
  }

  lemma MapLength(ir: Header, items: seq<MapItem>, f: seq<Byte>)
    requires IsSmallFile(ir, items, f) && Word(f, 52) == MapOffset(ir)
    ensures Word(f, MapOffset(ir)) == |items|
    ensures Holds(f, MapOffset(ir) + 4, MapItemsBytes(items))
  {
    hide *;
    SmallGives(ir, items, f);
    MapFits(ir);
    MapListInFile(ir, items);
    MapListIs(items);
    HoldsConcat(f, MapOffset(ir), U32s([|items|]), MapItemsBytes(items));
    WordAt(f, MapOffset(ir), [|items|], 0);
  }

  // ------------------------------------------------------------------ the entries of the map list

  /** An entry behind the first is that of a section with items. */
  lemma {:induction false} EntryOfSection(ir: Header, n: nat, i: nat)
    requires n <= KINDS && i < |LayoutEntries(ir, n)|
    ensures i == 0 ==> LayoutEntries(ir, n)[i] == MapItem(0, 1, 0)
    ensures i > 0 ==> var m := LayoutEntries(ir, n)[i]; var k := KindOfType(m.type_);
                      k.Some? && Count(ir, k.value) > 0 && m == Entry(ir, k.value)
  {
    hide *;
    EntriesStep(ir, n);
    if n == 0 {
      HeaderEntryIs();
    } else {
      var k := KindAt(n - 1);
      LayoutNotEmpty(ir, n - 1);
      if i < |LayoutEntries(ir, n - 1)| {
        EntryOfSection(ir, n - 1, i);
      } else {
        EntryIs(ir, k);
        TypesDiffer(k);
      }
    }
  }

  lemma HeaderEntryIs()
    ensures HEADER_ENTRY == MapItem(0, 1, 0)
  {
  }

  lemma {:induction false} LayoutNotEmpty(ir: Header, n: nat)
    requires n <= KINDS
    ensures |LayoutEntries(ir, n)| > 0
  {
    hide *;
    EntriesStep(ir, n);
    if n > 0 { LayoutNotEmpty(ir, n - 1); }
  }

  lemma SmallFile(ir: Header, items: seq<MapItem>, f: seq<Byte>)
    requires IsFileOf(ir, items, f)
    ensures IsSmallFile(ir, items, f)
  {
    hide Readable, FileBytes, MapEntries, WellFormed;
    FileGives(ir, items, f);
    LimitIs();
  }

  /** The type, the unused half, the size and the offset of the entry at `p`. */
  function EntryAt(f: seq<Byte>, p: nat): (nat, nat, nat, nat) {
    (Half(f, p), Half(f, p + 2), Word(f, p + 4), Word(f, p + 8))
  }

  lemma EntryDecodes(f: seq<Byte>, p: nat, m: MapItem)
    requires Holds(f, p, MapItemBytes(m))
    ensures EntryAt(f, p) == (m.type_, 0, ToU32(m.size), ToU32(m.offset))
  {
    hide Holds, U16s, U32s, Half, Word, ToU32;
    MapItemDecode(f, p, m);
    HoldsConcat(f, p, U16s([m.type_, 0]), U32s([m.size, m.offset]));
    HalfOfRun(f, p, [m.type_, 0], 1);
    FitsHalf(0);
  }

  lemma EntryInFile(ir: Header, items: seq<MapItem>, f: seq<Byte>, i: nat)
    requires IsSmallFile(ir, items, f) && i < |items|
    ensures Word(f, 52) == MapOffset(ir)
    ensures EntryAt(f, Word(f, 52) + 4 + 12 * i) == (items[i].type_, 0, ToU32(items[i].size), ToU32(items[i].offset))
  {
    hide *;
    MapWord(ir, items, f);
    MapLength(ir, items, f);
    MapItemStands(items, i);
    HoldsPart(f, MapOffset(ir) + 4, MapItemsBytes(items), 12 * i, MapItemBytes(items[i]));
    EntryDecodes(f, Word(f, 52) + 4 + 12 * i, items[i]);
  }

  lemma SectionBelow(ir: Header, items: seq<MapItem>, f: seq<Byte>, k: Kind)
    requires IsFileOf(ir, items, f) && Count(ir, k) > 0
    ensures FinalSectionOff(ir, k) < LIMIT && AlignUp(FinalSectionOff(ir, k), SectionAlignment(k)) == ItemStart(ir, k, 0)
  {
    hide *;
    FileGives(ir, items, f);
    TakesRoom(ir, k);
    RecordedBetween(ir, k);
    SectionInside(ir, k, KINDS);
    IndexBelow(k);
    MapOffsetIs(ir);
    EntryLeadsToItems(ir, k);
  }

  /**
    * The map list as its bytes show it. The first entry is the header's, the last is the list's
    * own, the others are of sections with items: the number of items, and an offset that leads to
    * the first of them. The unused halves are zero.
    */
  lemma MapListOfFile(ir: Header, items: seq<MapItem>, f: seq<Byte>, i: nat)
    requires IsFileOf(ir, items, f) && i < Word(f, Word(f, 52))
    ensures var e, last := EntryAt(f, Word(f, 52) + 4 + 12 * i), Word(f, Word(f, 52)) - 1;
            && e.1 == 0
            && (i == 0 ==> e == (0, 0, 1, 0))
            && (i == last ==> e == (0x1000, 0, 1, Word(f, 52)))
            && (0 < i < last ==> var k := KindOfType(e.0);
                                 && k.Some? && Count(ir, k.value) > 0 && e.2 == ToU32(Count(ir, k.value))
                                 && AlignUp(e.3, SectionAlignment(k.value)) == ItemStart(ir, k.value, 0))
  {
    hide *;
    FileGives(ir, items, f);
    SmallFile(ir, items, f);
    MapListInside(ir, items, f);
    MapListInOrder(ir, items);
    MapEntriesAre(ir);
    LayoutNotEmpty(ir, KINDS);
    EntryInFile(ir, items, f, i);
    LimitIs();
    FitsWord(1);
    FitsWord(0);
    var n := |LayoutEntries(ir, KINDS)|;
    if i < n {
      EntryOfSection(ir, KINDS, i);
      if i > 0 {
        var k := KindOfType(items[i].type_).value;
        EntryIs(ir, k);
        SectionBelow(ir, items, f, k);
        FitsWord(FinalSectionOff(ir, k));
      }
    } else {
      OwnEntryIs(ir);
      MapFits(ir);
      FitsWord(MapOffset(ir));
    }
  }

  lemma OwnEntryIs(ir: Header)
    ensures MapListEntry(ir) == MapItem(0x1000, 1, MapOffset(ir))
  {
    hide MapOffset;
  }

  /** The offsets in the map list increase strictly. */
  lemma MapListIncreases(ir: Header, items: seq<MapItem>, f: seq<Byte>, i: nat, j: nat)
    requires IsFileOf(ir, items, f) && i < j < Word(f, Word(f, 52))
    ensures EntryAt(f, Word(f, 52) + 4 + 12 * i).3 < EntryAt(f, Word(f, 52) + 4 + 12 * j).3
  {
    hide *;
    FileGives(ir, items, f);
    SmallFile(ir, items, f);
    MapListInside(ir, items, f);
    MapListInOrder(ir, items);
    StrictlyIs(items, i, j);
    EntryInFile(ir, items, f, i);
    EntryInFile(ir, items, f, j);
    EntryBelow(ir, items, f, i);
    EntryBelow(ir, items, f, j);
    FitsWord(items[i].offset);
    FitsWord(items[j].offset);
  }

  lemma StrictlyIs(ms: seq<MapItem>, i: nat, j: nat)
    requires StrictlySorted(ms) && i < j < |ms|
    ensures ms[i].offset < ms[j].offset
  {
  }

  lemma EntryBelow(ir: Header, items: seq<MapItem>, f: seq<Byte>, i: nat)
    requires IsFileOf(ir, items, f) && i < |items|
    ensures items[i].offset < LIMIT
  {
    hide *;
    FileGives(ir, items, f);
    MapListInOrder(ir, items);
    MapEntriesAre(ir);
    LimitIs();
    if i < |LayoutEntries(ir, KINDS)| {
      EntryOfSection(ir, KINDS, i);
      if i > 0 {
        var k := KindOfType(items[i].type_).value;
        EntryIs(ir, k);
        SectionBelow(ir, items, f, k);
      }
    } else {
      OwnEntryIs(ir);
      MapFits(ir);
    }
  }

  // ------------------------------------------------------------------ the order of the sections

  /** The section in front of another; the header is in front of the strings. */
  function InFrontOf(k: Kind): Option<Kind> {
    match k
    case StringIds => None
    case TypeIds => Some(StringIds)
    case ProtoIds => Some(TypeIds)
    case FieldIds => Some(ProtoIds)
    case MethodIds => Some(FieldIds)
    case ClassDefs => Some(MethodIds)
    case CallSiteIds => Some(ClassDefs)
    case MethodHandles => Some(CallSiteIds)
    case CodeItems => Some(MethodHandles)
    case DebugInfos => Some(CodeItems)
    case EncodedArrays => Some(DebugInfos)
    case Annotations => Some(EncodedArrays)
    case AnnotationSets => Some(Annotations)
    case AnnotationSetRefs => Some(AnnotationSets)
    case AnnotationDirs => Some(AnnotationSetRefs)
    case TypeLists => Some(AnnotationDirs)
    case ClassDatas => Some(TypeLists)
    case StringDatas => Some(ClassDatas)
    case Hiddenapi => Some(StringDatas)
  }

  lemma InFrontIs(k: Kind)
    ensures InFrontOf(k).None? ==> IndexOf(k) == 0
    ensures InFrontOf(k).Some? ==> IndexOf(k) == IndexOf(InFrontOf(k).value) + 1
  {
  }

  /** Where the section in front of `k` ends. */
  function EndInFront(ir: Header, k: Kind): nat {
    match InFrontOf(k)
    case None => 0x70
    case Some(p) => StartOf(ir, p) + |SectionBytes(ir, p)|
  }

  /**
    * The sections adjoin: each begins where the one in front ends, and only the code items begin
    * on the next multiple of eight.
    */
  lemma SectionsAdjoin(ir: Header, k: Kind)
    ensures k != CodeItems ==> StartOf(ir, k) == EndInFront(ir, k)
    ensures k == CodeItems ==> StartOf(ir, k) == AlignUp(EndInFront(ir, k), 8)
  {
    hide StartOf, SectionBytes, AlignUp, Placed, IndexOf;
    InFrontIs(k);
    StartOfOther(ir, k);
    Constants();
    PlacedStart(ir);
    if InFrontOf(k).Some? { PlacedAfter(ir, InFrontOf(k).value); }
  }

  /** The kinds whose items follow each other without a gap. */
  predicate IsByteAligned(k: Kind) {
    k == ClassDatas || k == StringDatas || k == DebugInfos || k == Annotations || k == EncodedArrays
  }

  lemma AlignmentIs(k: Kind)
    ensures SectionAlignment(k) == if IsByteAligned(k) then 1 else 4
  {
  }

  /**
    * An item begins behind the one in front of it in its section, or at the section's start: at
    * once, or at the next multiple of four.
    */
  lemma ItemsAligned(ir: Header, k: Kind, i: nat)
    requires i < Count(ir, k)
    ensures var p, front := ItemStart(ir, k, i), if i == 0 then StartOf(ir, k) else ItemEnd(ir, k, i - 1);
            if IsByteAligned(k) then p == front else p % 4 == 0 && front <= p < front + 4
  {
    hide *;
    var list, start, a := ItemList(ir, FinalOffsets(ir), k), StartOf(ir, k), SectionAlignment(k);
    AlignmentIs(k);
    ItemStartIs(ir, k, i);
    StartIs(a, start, list, i);
    NothingPacked(a, start, list);
    if i > 0 {
      StartIs(a, start, list, i - 1);
      ItemStartIs(ir, k, i - 1);
      ItemEndIs(ir, k, i - 1);
      ListElement(ir, FinalOffsets(ir), k, i - 1);
    }
    AlignUpAligns(EndAt(a, start, list, i), a);
    AlignUpBytes(EndAt(a, start, list, i));
  }

  lemma AlignUpBytes(p: nat)
    ensures AlignUp(p, 1) == p
  {
  }
}
