/** Fields of the tables and items that a reader can do without, as the bytes of a written file show them. */
module FileFields {
  import opened Bytes
  import opened Leb128
  import opened DexIr
  import opened Items
  import opened HiddenApi
  import opened Layout
  import opened SectionWriter
  import opened FileSections
  import opened MapList
  import opened DexFileWriter
  import opened FileTheorems
  import opened Reading
  import opened FileReader
  import opened ItemDecoding
  import opened FileRoundTrip
  import opened FileTables
  import opened WholeFile
  import opened Utf8

  /** A method handle is two numbers, each followed by an unused half that is zero. */
  lemma HandleFields(ir: Header, items: seq<MapItem>, f: seq<Byte>, i: nat)
    requires IsFileOf(ir, items, f) && i < |ir.methodHandles|
    ensures var p := FinalSectionOff(ir, MethodHandles) + 8 * i;
            && Half(f, p) == ir.methodHandles[i].handleType && Half(f, p + 2) == 0
            && Half(f, p + 4) == ir.methodHandles[i].fieldOrMethod && Half(f, p + 6) == 0
  {
    hide *;
    TableCounts(ir);
    StridesAre();
    RowInFile(ir, items, f, MethodHandles, i);
    RowBytes(ir, FinalOffsets(ir), MethodHandles, i);
    var row, h := FinalSectionOff(ir, MethodHandles) + 8 * i, ir.methodHandles[i];
    var xs := [h.handleType, 0, h.fieldOrMethod, 0];
    HalfOfRun(f, row, xs, 0);
    HalfOfRun(f, row, xs, 1);
    HalfOfRun(f, row, xs, 2);
    HalfOfRun(f, row, xs, 3);
    FitsHalf(h.handleType);
    FitsHalf(h.fieldOrMethod);
    FitsHalf(0);
  }

  lemma CountInFront(f: seq<Byte>, off: nat, s: seq<Byte>)
    requires Holds(f, off, StringDataBytes(s))
    ensures ReadUleb(From(f, off)).Some? && ReadUleb(From(f, off)).value.value == ToU32(CountUtf8Chars(s))
  {
    hide ReadUleb, Holds, From, Uleb, CountUtf8Chars;
    var rest := From(f, off + |StringDataBytes(s)|);
    FromRest(f, off, StringDataBytes(s));
    var count := ToU32(CountUtf8Chars(s));
    assert From(f, off) == Uleb(count) + (s + ([0] + rest));
    UlebRoundTrip(count, s + ([0] + rest));
  }

  /** In front of a string, where its id points, stands the number of its UTF-16 units. */
  lemma StringCount(ir: Header, items: seq<MapItem>, f: seq<Byte>, i: nat, text: seq<CodePoint>)
    requires IsFileOf(ir, items, f) && i < |ir.stringIds|
    requires ir.stringIds[i] < |ir.stringDatas| && ir.stringDatas[ir.stringIds[i]] == Utf8Text(text)
    ensures var count := ReadUleb(From(f, Word(f, FinalSectionOff(ir, StringIds) + 4 * i)));
            count.Some? && count.value.value == ToU32(|Utf16Text(text)|)
  {
    hide *;
    FileGives(ir, items, f);
    TableCounts(ir);
    StridesAre();
    RowInFile(ir, items, f, StringIds, i);
    RowBytes(ir, FinalOffsets(ir), StringIds, i);
    PointersBelow(ir, i);
    var s, off := ir.stringIds[i], Off(FinalOffsets(ir), StringDatas, ir.stringIds[i]);
    MoreFacts(ir, FinalOffsets(ir), StringDatas, s);
    Pointed(ir, items, f, StringDatas, s);
    GoodIs(FinalOffsets(ir), StringDatas, s);
    WordAt(f, FinalSectionOff(ir, StringIds) + 4 * i, [off], 0);
    ReadableItems(ir, items, f, s);
    CountInFront(f, off, ir.stringDatas[s]);
    CountsUnits(text);
  }

  /** A class has a stream of flags if one of its flags is set. */
  predicate HasFlag(h: HiddenapiFlags) {
    h.Some? && exists i | 0 <= i < |h.value| :: h.value[i] != 0
  }

  lemma SizeIff(h: HiddenapiFlags)
    ensures FlagsSize(h) == 0 <==> !HasFlag(h)
  {
    if HasFlag(h) { FlagTakesRoom(h.value); }
  }

  lemma FlagTakesRoom(xs: seq<UInt32>)
    requires xs != []
    ensures |Ulebs(xs)| > 0
  {
    hide Uleb;
  }

  /** The hidden-API section begins with its own size; then, for each class, where its flags are, or zero if none is set. */
  lemma HiddenFields(ir: Header, items: seq<MapItem>, f: seq<Byte>, i: nat)
    requires IsFileOf(ir, items, f) && i < |ir.hiddenapi|
    ensures 0 < Count(ir, Hiddenapi)
    ensures var p := FinalSectionOff(ir, Hiddenapi);
            && p == ItemStart(ir, Hiddenapi, 0) && Word(f, p) == ItemEnd(ir, Hiddenapi, 0) - p
            && (Word(f, p + 4 * (i + 1)) == 0 <==> !HasFlag(ir.hiddenapi[i]))
            && (HasFlag(ir.hiddenapi[i]) ==> 4 * (|ir.hiddenapi| + 1) <= Word(f, p + 4 * (i + 1)) < Word(f, p))
  {
    hide *;
    var fs, p := ir.hiddenapi, FinalSectionOff(ir, Hiddenapi);
    FileGives(ir, items, f);
    TableCounts(ir);
    HiddenItem(ir, items, f);
    HiddenPlace(ir, items, f);
    FlagsTotal(fs);
    HiddenapiParts(fs);
    HoldsConcat(f, p, U32s(HiddenapiHeader(fs)), FlagStreams(fs, |fs|));
    HeaderAt(fs, i);
    SizeIff(fs[i]);
    LimitIs();
    WordAt(f, p, HiddenapiHeader(fs), 0);
    StreamStep(fs, i);
    StreamEnds(fs, i);
    StreamEnds(fs, i + 1);
    StreamEnds(fs, |fs|);
    StreamsInside(fs, i + 1);
    WordAt(f, p, HiddenapiHeader(fs), i + 1);
  }

  lemma HiddenPlace(ir: Header, items: seq<MapItem>, f: seq<Byte>)
    requires IsFileOf(ir, items, f) && ir.hiddenapi != []
    ensures 0 < Count(ir, Hiddenapi) && FinalSectionOff(ir, Hiddenapi) == ItemStart(ir, Hiddenapi, 0)
    ensures ItemEnd(ir, Hiddenapi, 0) == ItemStart(ir, Hiddenapi, 0) + |HiddenapiBytes(ir.hiddenapi)|
  {
    hide *;
    FileGives(ir, items, f);
    TableCounts(ir);
    TableTakesRoom(ir, Hiddenapi);
    EntryLeadsToItems(ir, Hiddenapi);
    FinalOffIs(ir, Hiddenapi);
    HiddenapiOffsets(ir);
    AlignTwice(StartOf(ir, Hiddenapi));
    HiddenAligned();
    HiddenapiList(ir, FinalOffsets(ir));
    ListElement(ir, FinalOffsets(ir), Hiddenapi, 0);
    ItemEndIs(ir, Hiddenapi, 0);
  }

  lemma HiddenAligned()
    ensures SectionAlignment(Hiddenapi) == 4
  {
  }
}
