/** The map list of a written file, and the file as a whole, read back. */
module WholeFile {
  import opened Bytes
  import opened Streams
  import opened DexIr
  import opened Items
  import opened HiddenApi
  import opened Layout
  import opened SectionWriter
  import opened FileSections
  import opened MapList
  import opened DexFileWriter
  import opened FileTheorems
  import opened Reading
  import opened FileReader
  import opened ItemDecoding
  import opened FileMeaning
  import opened FileRoundTrip
  import opened FileTables

  // ------------------------------------------------------------------ looking an entry up

  function FindIn(ms: seq<MapItem>, t: nat): Option<MapItem> {
    if ms == [] then None else if ms[0].type_ == t then Some(ms[0]) else FindIn(ms[1..], t)
  }

  lemma {:induction false} FindInConcat(a: seq<MapItem>, b: seq<MapItem>, t: nat)
    ensures FindIn(a + b, t) == if FindIn(a, t).Some? then FindIn(a, t) else FindIn(b, t)
  {
    if a == [] {
      assert a + b == b;
    } else {
      assert (a + b)[1..] == a[1..] + b;
      FindInConcat(a[1..], b, t);
    }
  }

  /** The section a map type stands for. */
  function KindOfType(t: nat): Option<Kind> {
    match t
    case 0x0001 => Some(StringIds)
    case 0x0002 => Some(TypeIds)
    case 0x0003 => Some(ProtoIds)
    case 0x0004 => Some(FieldIds)
    case 0x0005 => Some(MethodIds)
    case 0x0006 => Some(ClassDefs)
    case 0x0007 => Some(CallSiteIds)
    case 0x0008 => Some(MethodHandles)
    case 0x1001 => Some(TypeLists)
    case 0x1002 => Some(AnnotationSetRefs)
    case 0x1003 => Some(AnnotationSets)
    case 0x2000 => Some(ClassDatas)
    case 0x2001 => Some(CodeItems)
    case 0x2002 => Some(StringDatas)
    case 0x2003 => Some(DebugInfos)
    case 0x2004 => Some(Annotations)
    case 0x2005 => Some(EncodedArrays)
    case 0x2006 => Some(AnnotationDirs)
    case 0xF000 => Some(Hiddenapi)
    case _ => None
  }

  lemma TypesDiffer(k: Kind)
    ensures KindOfType(MapType(k)) == Some(k) && MapType(k) != TYPE_HEADER && MapType(k) != TYPE_MAP_LIST
  {
  }

  lemma OneEntry(m: MapItem, t: nat)
    ensures FindIn([m], t) == if m.type_ == t then Some(m) else None
    ensures FindIn([], t) == None
  {
  }

  lemma {:induction false} FindInLayout(ir: Header, n: nat, k: Kind)
    requires n <= KINDS
    ensures FindIn(LayoutEntries(ir, n), MapType(k)) == if IndexOf(k) < n && Count(ir, k) > 0 then Some(Entry(ir, k)) else None
  {
    hide *;
    var t := MapType(k);
    EntriesStep(ir, n);
    TypesDiffer(k);
    if n == 0 {
      Constants();
      OneEntry(HEADER_ENTRY, t);
    } else {
      var k' := KindAt(n - 1);
      KindAtIndex(n - 1);
      TypesDiffer(k');
      FindInLayout(ir, n - 1, k);
      EntryIs(ir, k');
      OneEntry(Entry(ir, k'), t);
      FindInConcat(LayoutEntries(ir, n - 1), if Count(ir, k') == 0 then [] else [Entry(ir, k')], t);
    }
  }

  /** Each section with items has one entry, found by its type. */
  lemma FindInMap(ir: Header, k: Kind)
    ensures FindIn(MapEntries(ir), MapType(k)) == if Count(ir, k) > 0 then Some(Entry(ir, k)) else None
  {
    hide *;
    FindInLayout(ir, KINDS, k);
    IndexBelow(k);
    MapEntriesAre(ir);
    MapListEntryIs(ir);
    TypesDiffer(k);
    OneEntry(MapListEntry(ir), MapType(k));
    FindInConcat(LayoutEntries(ir, KINDS), [MapListEntry(ir)], MapType(k));
  }

  lemma {:induction false} MapItemStands(ms: seq<MapItem>, i: nat)
    requires i < |ms|
    ensures Holds(MapItemsBytes(ms), 12 * i, MapItemBytes(ms[i]))
  {
    hide *;
    var n := |ms| - 1;
    assert ms == ms[..n] + [ms[n]];
    MapItemsNext(ms[..n], ms[n]);
    var a, b := MapItemsBytes(ms[..n]), MapItemBytes(ms[n]);
    if i < n {
      MapItemStands(ms[..n], i);
      HoldsInFront(a, b, 12 * i, MapItemBytes(ms[i]));
    } else {
      assert a + b == a + b + [];
      HoldsMiddle(a, b, []);
    }
  }

  lemma MapItemDecode(f: seq<Byte>, p: nat, m: MapItem)
    requires Holds(f, p, MapItemBytes(m))
    ensures Half(f, p) == m.type_ && Word(f, p + 4) == ToU32(m.size) && Word(f, p + 8) == ToU32(m.offset)
  {
    hide Holds, U16s, U32s, Half, Word, ToU32;
    HoldsConcat(f, p, U16s([m.type_, 0]), U32s([m.size, m.offset]));
    HalfOfRun(f, p, [m.type_, 0], 0);
    FitsHalf(m.type_);
    WordOfRun(f, p + 4, [m.size, m.offset], 0);
    WordOfRun(f, p + 4, [m.size, m.offset], 1);
  }

  lemma {:induction false} FindDecodes(f: seq<Byte>, p: nat, ms: seq<MapItem>, t: nat, i: nat)
    requires Holds(f, p, MapItemsBytes(ms)) && i <= |ms|
    ensures FindEntry(f, p + 12 * i, |ms| - i, t)
         == match FindIn(ms[i..], t) case None => None case Some(m) => Some((ToU32(m.size), ToU32(m.offset)))
    decreases |ms| - i
  {
    hide Holds, MapItemsBytes, MapItemBytes, Half, Word, ToU32;
    if i < |ms| {
      MapItemStands(ms, i);
      HoldsPart(f, p, MapItemsBytes(ms), 12 * i, MapItemBytes(ms[i]));
      MapItemDecode(f, p + 12 * i, ms[i]);
      FindDecodes(f, p, ms, t, i + 1);
      assert ms[i..][0] == ms[i] && ms[i..][1..] == ms[i + 1..];
    }
  }

  lemma MapFits(ir: Header)
    ensures MapOffset(ir) + 4 + 12 * |MapEntries(ir)| <= FileSize(ir)
  {
    hide *;
    MapOffsetIs(ir);
  }

  /** The map list of the file, asked for a section. */
  lemma MapEntryOf(ir: Header, items: seq<MapItem>, f: seq<Byte>, k: Kind)
    requires IsFileOf(ir, items, f)
    ensures MapEntry(f, MapType(k)) == if Count(ir, k) > 0 then Some((ToU32(Count(ir, k)), ToU32(FinalSectionOff(ir, k)))) else None
  {
    hide *;
    FileGives(ir, items, f);
    MapFits(ir);
    MapListInOrder(ir, items);
    MapListInFile(ir, items);
    HeaderFieldsAt(ir);
    HeaderWordInFile(ir, items, 5);
    FitsWord(MapOffset(ir));
    MapListIs(items);
    HoldsConcat(f, MapOffset(ir), U32s([|items|]), MapItemsBytes(items));
    WordAt(f, MapOffset(ir), [|items|], 0);
    assert items[0..] == items;
    FindDecodes(f, MapOffset(ir) + 4, items, MapType(k), 0);
    FindInMap(ir, k);
    EntryIs(ir, k);
    MapEntryIs(f, MapType(k));
  }

  lemma MapEntryIs(f: seq<Byte>, t: nat)
    ensures MapEntry(f, t) == FindEntry(f, Word(f, 52) + 4, Word(f, Word(f, 52)), t)
  {
    hide Word, FindEntry;
  }

  // ------------------------------------------------------------------ hidden-API flags

  lemma HiddenItem(ir: Header, items: seq<MapItem>, f: seq<Byte>)
    requires IsFileOf(ir, items, f) && ir.hiddenapi != []
    ensures FinalSectionOff(ir, Hiddenapi) < LIMIT && |HiddenapiBytes(ir.hiddenapi)| < LIMIT
    ensures Holds(f, FinalSectionOff(ir, Hiddenapi), HiddenapiBytes(ir.hiddenapi))
  {
    hide *;
    FileGives(ir, items, f);
    TableCounts(ir);
    TableTakesRoom(ir, Hiddenapi);
    EntryLeadsToItems(ir, Hiddenapi);
    FinalOffIs(ir, Hiddenapi);
    HiddenapiOffsets(ir);
    AlignTwice(StartOf(ir, Hiddenapi));
    HiddenapiList(ir, FinalOffsets(ir));
    ListElement(ir, FinalOffsets(ir), Hiddenapi, 0);
    ItemInFile(ir, items, Hiddenapi, 0);
    HoldsInside(f, ItemStart(ir, Hiddenapi, 0), HiddenapiBytes(ir.hiddenapi));
    HiddenapiNotEmpty(ir.hiddenapi);
  }

  lemma FlagsTotal(fs: seq<HiddenapiFlags>)
    ensures FlagsEnd(fs, |fs|) == |HiddenapiBytes(fs)|
  {
    hide *;
    HiddenapiParts(fs);
    StreamEnds(fs, |fs|);
  }

  lemma {:induction false} ViewMethodsSize(ir: Header, ms: seq<MethodItem>)
    ensures |ViewMethods(ir, ms)| == |ms|
  {
    hide ViewCodeOf;
    if ms != [] { ViewMethodsSize(ir, ms[1..]); }
  }

  lemma MembersOfClass(ir: Header, c: ClassDef)
    requires c.classData.Some? && c.classData.value < |ir.classDatas|
    ensures Members(ViewClass(ir, c)) == MemberCount(ir.classDatas[c.classData.value])
  {
    hide ViewMethods, ViewDirectory, ViewTypeList, ViewArray;
    var d := ir.classDatas[c.classData.value];
    ViewMethodsSize(ir, d.directMethods);
    ViewMethodsSize(ir, d.virtualMethods);
  }

  lemma FlagsMatchClass(ir: Header, i: nat)
    requires WellFormed(ir) && i < |ir.hiddenapi|
    ensures |ir.hiddenapi| == |ir.classDefs|
    ensures ir.hiddenapi[i].Some? ==> |ir.hiddenapi[i].value| == Members(ViewClass(ir, ir.classDefs[i]))
  {
    HiddenIsGood(ir);
    if ir.hiddenapi[i].Some? {
      assert GoodFlags(ir, i);
      hide ViewClass, Members, MemberCount;
      MembersOfClass(ir, ir.classDefs[i]);
    }
  }

  lemma HiddenIsGood(ir: Header)
    requires WellFormed(ir)
    ensures GoodHiddenapi(ir)
  {
  }

  lemma HiddenRow(ir: Header, items: seq<MapItem>, f: seq<Byte>, i: nat)
    requires IsFileOf(ir, items, f) && i < |ir.hiddenapi|
    ensures |ir.hiddenapi| == |ir.classDefs|
    ensures ReadFlags(From(f, FinalSectionOff(ir, Hiddenapi)), i, Members(ViewClass(ir, ir.classDefs[i]))) == ViewHidden(ir.hiddenapi[i])
  {
    hide *;
    FileGives(ir, items, f);
    FlagsMatchClass(ir, i);
    HiddenItem(ir, items, f);
    FlagsTotal(ir.hiddenapi);
    LimitIs();
    var fs, off := ir.hiddenapi, FinalSectionOff(ir, Hiddenapi);
    FromRest(f, off, HiddenapiBytes(fs));
    HiddenapiRoundTrip(fs, i, Members(ViewClass(ir, ir.classDefs[i])), From(f, off + |HiddenapiBytes(fs)|));
    ViewHiddenIs(fs[i]);
  }

  lemma ViewHiddenIs(h: HiddenapiFlags)
    ensures ViewHidden(h) == if FlagsSize(h) == 0 then None else h
  {
    hide FlagsSize;
  }

  // ------------------------------------------------------------------ the whole file

  lemma ReadFileIs(f: seq<Byte>)
    ensures var r := ReadFile(f);
            && r.strings == ReadStrings(f, Word(f, 60), Word(f, 56)) && r.types == ReadTypes(f, Word(f, 68), Word(f, 64))
            && r.protos == ReadProtos(f, Word(f, 76), Word(f, 72)) && r.fields == ReadIds(f, Word(f, 84), Word(f, 80))
            && r.methods == ReadIds(f, Word(f, 92), Word(f, 88)) && r.classes == ReadClasses(f, Word(f, 100), Word(f, 96))
            && r.callSites == ReadCallSites(f, MapEntry(f, 0x0007)) && r.methodHandles == ReadHandles(f, MapEntry(f, 0x0008))
            && r.hidden == ReadHidden(f, MapEntry(f, 0xF000), r.classes)
  {
    hide Word, ReadStrings, ReadTypes, ReadProtos, ReadIds, ReadClasses, ReadCallSites, ReadHandles, ReadHidden, MapEntry;
  }

  lemma ViewFileIs(ir: Header)
    ensures var v := ViewFile(ir);
            && |v.strings| == |ir.stringIds| && (forall i | 0 <= i < |v.strings| :: v.strings[i] == ViewString(ir, ir.stringIds[i]))
            && v.types == ir.typeIds
            && |v.protos| == |ir.protoIds| && (forall i | 0 <= i < |v.protos| :: v.protos[i] == ViewProto(ir, ir.protoIds[i]))
            && |v.fields| == |ir.fieldIds|
            && (forall i | 0 <= i < |v.fields| :: v.fields[i] == IdView(ir.fieldIds[i].classIdx, ir.fieldIds[i].typeIdx, ir.fieldIds[i].name))
            && |v.methods| == |ir.methodIds|
            && (forall i | 0 <= i < |v.methods| :: v.methods[i] == IdView(ir.methodIds[i].classIdx, ir.methodIds[i].proto, ir.methodIds[i].name))
            && |v.classes| == |ir.classDefs| && (forall i | 0 <= i < |v.classes| :: v.classes[i] == ViewClass(ir, ir.classDefs[i]))
  {
    hide ViewString, ViewProto, ViewClass, ViewHidden;
  }

  lemma ViewFileRest(ir: Header)
    ensures var v := ViewFile(ir);
            && |v.callSites| == |ir.callSiteIds|
            && (forall i | 0 <= i < |v.callSites| :: ir.callSiteIds[i] < |ir.encodedArrays| ==> v.callSites[i] == ir.encodedArrays[ir.callSiteIds[i]])
            && |v.methodHandles| == |ir.methodHandles|
            && (forall i | 0 <= i < |v.methodHandles| :: v.methodHandles[i] == (ir.methodHandles[i].handleType, ir.methodHandles[i].fieldOrMethod))
            && |v.hidden| == |ir.hiddenapi| && (forall i | 0 <= i < |v.hidden| :: v.hidden[i] == ViewHidden(ir.hiddenapi[i]))
  {
    hide ViewString, ViewProto, ViewClass, ViewHidden;
  }

  lemma TypesAre()
    ensures MapType(CallSiteIds) == 0x0007 && MapType(MethodHandles) == 0x0008 && MapType(Hiddenapi) == 0xF000
  {
  }

  lemma StringsRoundTrip(ir: Header, items: seq<MapItem>, f: seq<Byte>)
    requires IsFileOf(ir, items, f)
    ensures ReadFile(f).strings == ViewFile(ir).strings && ReadFile(f).types == ViewFile(ir).types
  {
    hide *;
    FileGives(ir, items, f);
    ReadFileIs(f);
    ViewFileIs(ir);
    HeaderFieldsAt(ir);
    StridesAre();
    TableCounts(ir);
    HeaderTable(ir, items, f, StringIds, 6);
    HeaderTable(ir, items, f, TypeIds, 8);
    forall i | 0 <= i < |ir.stringIds| ensures ReadFile(f).strings[i] == ViewFile(ir).strings[i] { StringRow(ir, items, f, i); }
    forall i | 0 <= i < |ir.typeIds| ensures ReadFile(f).types[i] == ViewFile(ir).types[i] { TypeRow(ir, items, f, i); }
  }

  lemma IdsRoundTrip(ir: Header, items: seq<MapItem>, f: seq<Byte>)
    requires IsFileOf(ir, items, f)
    ensures ReadFile(f).fields == ViewFile(ir).fields && ReadFile(f).methods == ViewFile(ir).methods && ReadFile(f).protos == ViewFile(ir).protos
  {
    hide *;
    FileGives(ir, items, f);
    ReadFileIs(f);
    ViewFileIs(ir);
    HeaderFieldsAt(ir);
    StridesAre();
    TableCounts(ir);
    HeaderTable(ir, items, f, ProtoIds, 10);
    HeaderTable(ir, items, f, FieldIds, 12);
    HeaderTable(ir, items, f, MethodIds, 14);
    forall i | 0 <= i < |ir.protoIds| ensures ReadFile(f).protos[i] == ViewFile(ir).protos[i] { ProtoRow(ir, items, f, i); }
    forall i | 0 <= i < |ir.fieldIds| ensures ReadFile(f).fields[i] == ViewFile(ir).fields[i] { FieldRow(ir, items, f, i); }
    forall i | 0 <= i < |ir.methodIds| ensures ReadFile(f).methods[i] == ViewFile(ir).methods[i] { MethodRow(ir, items, f, i); }
  }

  lemma ClassesRoundTrip(ir: Header, items: seq<MapItem>, f: seq<Byte>)
    requires IsFileOf(ir, items, f)
    ensures ReadFile(f).classes == ViewFile(ir).classes
  {
    hide *;
    FileGives(ir, items, f);
    ReadFileIs(f);
    ViewFileIs(ir);
    HeaderFieldsAt(ir);
    StridesAre();
    TableCounts(ir);
    HeaderTable(ir, items, f, ClassDefs, 16);
    forall i | 0 <= i < |ir.classDefs| ensures ReadFile(f).classes[i] == ViewFile(ir).classes[i] { ClassRow(ir, items, f, i); }
  }

  lemma HandlesRoundTrip(ir: Header, items: seq<MapItem>, f: seq<Byte>)
    requires IsFileOf(ir, items, f)
    ensures ReadFile(f).callSites == ViewFile(ir).callSites && ReadFile(f).methodHandles == ViewFile(ir).methodHandles
  {
    hide *;
    ReadFileIs(f);
    ViewFileRest(ir);
    StridesAre();
    TableCounts(ir);
    TypesAre();
    MapEntryOf(ir, items, f, CallSiteIds);
    MapEntryOf(ir, items, f, MethodHandles);
    if |ir.callSiteIds| > 0 {
      RowInFile(ir, items, f, CallSiteIds, 0);
      FitsWord(|ir.callSiteIds|);
      FitsWord(FinalSectionOff(ir, CallSiteIds));
    }
    if |ir.methodHandles| > 0 {
      RowInFile(ir, items, f, MethodHandles, 0);
      FitsWord(|ir.methodHandles|);
      FitsWord(FinalSectionOff(ir, MethodHandles));
    }
    forall i | 0 <= i < |ir.callSiteIds| ensures ReadFile(f).callSites[i] == ViewFile(ir).callSites[i] { CallSiteRow(ir, items, f, i); }
    forall i | 0 <= i < |ir.methodHandles| ensures ReadFile(f).methodHandles[i] == ViewFile(ir).methodHandles[i] { HandleRow(ir, items, f, i); }
  }

  lemma HiddenRoundTrip(ir: Header, items: seq<MapItem>, f: seq<Byte>)
    requires IsFileOf(ir, items, f)
    ensures ReadFile(f).hidden == ViewFile(ir).hidden
  {
    hide *;
    ReadFileIs(f);
    ViewFileIs(ir);
    ViewFileRest(ir);
    TableCounts(ir);
    TypesAre();
    MapEntryOf(ir, items, f, Hiddenapi);
    ClassesRoundTrip(ir, items, f);
    if ir.hiddenapi != [] {
      HiddenItem(ir, items, f);
      FitsWord(FinalSectionOff(ir, Hiddenapi));
      HiddenRow(ir, items, f, 0);
      forall i | 0 <= i < |ir.hiddenapi| ensures ReadFile(f).hidden[i] == ViewFile(ir).hidden[i] { HiddenRow(ir, items, f, i); }
    }
  }

  /**
    * A reader that starts from the header and the map list and follows every offset finds, in the
    * file written for an IR, exactly what the IR says.
    */
  lemma ReadBack(ir: Header, items: seq<MapItem>, f: seq<Byte>)
    requires IsFileOf(ir, items, f)
    ensures ReadFile(f) == ViewFile(ir)
  {
    hide *;
    StringsRoundTrip(ir, items, f);
    IdsRoundTrip(ir, items, f);
    ClassesRoundTrip(ir, items, f);
    HandlesRoundTrip(ir, items, f);
    HiddenRoundTrip(ir, items, f);
  }

  /** Writing an IR and reading the file. */
  method WriteAndRead(ir: Header) returns (view: FileView)
    requires Readable(ir)
    ensures view == ViewFile(ir)
  {
    hide *;
    ReadableIsWellFormed(ir);
    var output := new VectorSection();
    var items := Write(ir, output);
    view := ReadFile(output.data);
    PrefixSize(ir);
    IsItsFile(ir, items);
    ReadBack(ir, items, output.data);
  }

  lemma ReadableIsWellFormed(ir: Header)
    requires Readable(ir)
    ensures WellFormed(ir)
  {
    hide WellFormed, FileSize, IsDebugInfo, ReadableCode;
  }

  lemma IsItsFile(ir: Header, items: seq<MapItem>)
    requires Readable(ir) && |ir.prefix| == 32 && |items| == |MapEntries(ir)|
    requires multiset(items) == multiset(MapEntries(ir)) && Sorted(items)
    ensures IsFileOf(ir, items, FileBytes(ir, items))
  {
    hide Readable, FileBytes, MapEntries, Sorted;
  }
}
