/** Writing the items of a section, one after the other, and recording where they end up. */
module SectionWriter {
  import opened Bytes
  import opened Streams
  import opened Packing
  import opened EncodedValues
  import opened EncodedValueWriter
  import opened DexIr
  import opened Items
  import opened ItemWriters
  import opened ListWriters
  import opened Layout
  import opened LayoutFacts

  // ------------------------------------------------------------------ the checks of `GetOffset`

  predicate IsAssigned(o: Offsets, k: Kind, i: nat) {
    Ref(k, i) in o && o[Ref(k, i)] != 0
  }

  predicate NullOrAssigned(o: Offsets, k: Kind, i: Option<nat>) {
    i.None? || IsAssigned(o, k, i.value)
  }

  predicate MembersAssigned(o: Offsets, k: Kind, ms: Option<seq<MemberAnnotation>>) {
    ms.None? || forall j | 0 <= j < |ms.value| :: IsAssigned(o, k, ms.value[j].set_)
  }

  predicate MethodsAssigned(o: Offsets, ms: seq<MethodItem>) {
    forall j | 0 <= j < |ms| :: NullOrAssigned(o, CodeItems, ms[j].code)
  }

  /** Every offset the item holds has been assigned: `GetOffset` checks this on each of them. */
  predicate PointersAssigned(ir: Header, o: Offsets, k: Kind, i: nat)
    requires i < Count(ir, k)
  {
    match k
    case StringIds => IsAssigned(o, StringDatas, ir.stringIds[i])
    case ProtoIds => NullOrAssigned(o, TypeLists, ir.protoIds[i].parameters)
    case ClassDefs =>
      && NullOrAssigned(o, TypeLists, ir.classDefs[i].interfaces)
      && NullOrAssigned(o, AnnotationDirs, ir.classDefs[i].annotations)
      && NullOrAssigned(o, ClassDatas, ir.classDefs[i].classData)
      && NullOrAssigned(o, EncodedArrays, ir.classDefs[i].staticValues)
    case CallSiteIds => IsAssigned(o, EncodedArrays, ir.callSiteIds[i])
    case CodeItems => NullOrAssigned(o, DebugInfos, ir.codeItems[i].debugInfo)
    case AnnotationSets => forall j | 0 <= j < |ir.annotationSets[i]| :: IsAssigned(o, Annotations, ir.annotationSets[i][j])
    case AnnotationSetRefs =>
      forall j | 0 <= j < |ir.annotationSetRefs[i]| :: NullOrAssigned(o, AnnotationSets, ir.annotationSetRefs[i][j])
    case AnnotationDirs =>
      && NullOrAssigned(o, AnnotationSets, ir.annotationDirs[i].classAnnotation)
      && MembersAssigned(o, AnnotationSets, ir.annotationDirs[i].fields)
      && MembersAssigned(o, AnnotationSets, ir.annotationDirs[i].methods)
      && MembersAssigned(o, AnnotationSetRefs, ir.annotationDirs[i].parameters)
    case ClassDatas =>
      MethodsAssigned(o, ir.classDatas[i].directMethods) && MethodsAssigned(o, ir.classDatas[i].virtualMethods)
    case _ => true
  }

  predicate AllAssigned(ir: Header, o: Offsets, ks: set<Kind>) {
    forall d | d in ks :: Assigned(ir, o, d)
  }

  lemma Lookup(ir: Header, o: Offsets, d: Kind, i: nat)
    requires Assigned(ir, o, d) && i < Count(ir, d)
    ensures IsAssigned(o, d, i)
  {
    hide Count;
  }

  lemma LookupOption(ir: Header, o: Offsets, d: Kind, i: Option<nat>)
    requires Assigned(ir, o, d) && OptionBelow(i, Count(ir, d))
    ensures NullOrAssigned(o, d, i)
  {
    hide Count, Assigned;
    if i.Some? { Lookup(ir, o, d, i.value); }
  }

  lemma LookupMembers(ir: Header, o: Offsets, d: Kind, ms: Option<seq<MemberAnnotation>>)
    requires Assigned(ir, o, d) && MembersBelow(ms, Count(ir, d))
    ensures MembersAssigned(o, d, ms)
  {
    hide Count, Assigned, IsAssigned;
    if ms.Some? {
      forall j | 0 <= j < |ms.value| ensures IsAssigned(o, d, ms.value[j].set_) { Lookup(ir, o, d, ms.value[j].set_); }
    }
  }

  lemma LookupMethods(ir: Header, o: Offsets, ms: seq<MethodItem>)
    requires Assigned(ir, o, CodeItems) && GoodMethods(ir, ms)
    ensures MethodsAssigned(o, ms)
  {
    hide Assigned, NullOrAssigned;
    forall j | 0 <= j < |ms| ensures NullOrAssigned(o, CodeItems, ms[j].code) { LookupOption(ir, o, CodeItems, ms[j].code); }
  }

  lemma SetChecksPass(ir: Header, o: Offsets, k: Kind, i: nat)
    requires (k == AnnotationSets || k == AnnotationSetRefs) && WellFormed(ir) && i < Count(ir, k)
    requires AllAssigned(ir, o, Needs(k))
    ensures PointersAssigned(ir, o, k, i)
  {
    hide Assigned, IsAssigned, NullOrAssigned;
    if k == AnnotationSets {
      assert Assigned(ir, o, Annotations) && GoodSet(ir, ir.annotationSets[i]);
      forall j | 0 <= j < |ir.annotationSets[i]| ensures IsAssigned(o, Annotations, ir.annotationSets[i][j]) {
        Lookup(ir, o, Annotations, ir.annotationSets[i][j]);
      }
    } else {
      assert Assigned(ir, o, AnnotationSets) && GoodSetRefs(ir, ir.annotationSetRefs[i]);
      forall j | 0 <= j < |ir.annotationSetRefs[i]| ensures NullOrAssigned(o, AnnotationSets, ir.annotationSetRefs[i][j]) {
        LookupOption(ir, o, AnnotationSets, ir.annotationSetRefs[i][j]);
      }
    }
  }

  lemma DirectoryChecksPass(ir: Header, o: Offsets, i: nat)
    requires WellFormed(ir) && i < Count(ir, AnnotationDirs) && AllAssigned(ir, o, Needs(AnnotationDirs))
    ensures PointersAssigned(ir, o, AnnotationDirs, i)
  {
    hide Assigned, NullOrAssigned, MembersAssigned, MembersBelow, OptionBelow;
    var d := ir.annotationDirs[i];
    assert Assigned(ir, o, AnnotationSets) && Assigned(ir, o, AnnotationSetRefs) && GoodDirectory(ir, d);
    LookupOption(ir, o, AnnotationSets, d.classAnnotation);
    LookupMembers(ir, o, AnnotationSets, d.fields);
    LookupMembers(ir, o, AnnotationSets, d.methods);
    LookupMembers(ir, o, AnnotationSetRefs, d.parameters);
  }

  lemma ClassChecksPass(ir: Header, o: Offsets, i: nat)
    requires WellFormed(ir) && i < Count(ir, ClassDefs) && AllAssigned(ir, o, Needs(ClassDefs))
    ensures PointersAssigned(ir, o, ClassDefs, i)
  {
    hide Assigned, NullOrAssigned, OptionBelow;
    var c := ir.classDefs[i];
    assert Assigned(ir, o, TypeLists) && Assigned(ir, o, AnnotationDirs) && GoodClassDef(ir, c);
    assert Assigned(ir, o, ClassDatas) && Assigned(ir, o, EncodedArrays);
    LookupOption(ir, o, TypeLists, c.interfaces);
    LookupOption(ir, o, AnnotationDirs, c.annotations);
    LookupOption(ir, o, ClassDatas, c.classData);
    LookupOption(ir, o, EncodedArrays, c.staticValues);
  }

  lemma MethodChecksPass(ir: Header, o: Offsets, i: nat)
    requires WellFormed(ir) && i < Count(ir, ClassDatas) && AllAssigned(ir, o, Needs(ClassDatas))
    ensures PointersAssigned(ir, o, ClassDatas, i)
  {
    hide Assigned, MethodsAssigned, GoodMethods;
    assert Assigned(ir, o, CodeItems) && GoodClassData(ir, ir.classDatas[i]);
    LookupMethods(ir, o, ir.classDatas[i].directMethods);
    LookupMethods(ir, o, ir.classDatas[i].virtualMethods);
  }

  lemma SingleChecksPass(ir: Header, o: Offsets, k: Kind, i: nat)
    requires k == StringIds || k == ProtoIds || k == CallSiteIds || k == CodeItems
    requires WellFormed(ir) && i < Count(ir, k) && AllAssigned(ir, o, Needs(k))
    ensures PointersAssigned(ir, o, k, i)
  {
    hide Assigned, IsAssigned, NullOrAssigned;
    if k == StringIds {
      assert Assigned(ir, o, StringDatas);
      Lookup(ir, o, StringDatas, ir.stringIds[i]);
    } else if k == ProtoIds {
      assert Assigned(ir, o, TypeLists);
      LookupOption(ir, o, TypeLists, ir.protoIds[i].parameters);
    } else if k == CallSiteIds {
      assert Assigned(ir, o, EncodedArrays);
      Lookup(ir, o, EncodedArrays, ir.callSiteIds[i]);
    } else {
      assert Assigned(ir, o, DebugInfos) && GoodCodeItem(ir, ir.codeItems[i]);
      LookupOption(ir, o, DebugInfos, ir.codeItems[i].debugInfo);
    }
  }

  /** Once the kinds an item points at are assigned, no check fails. */
  lemma ChecksPass(ir: Header, o: Offsets, k: Kind, i: nat)
    requires WellFormed(ir) && i < Count(ir, k) && AllAssigned(ir, o, Needs(k))
    ensures PointersAssigned(ir, o, k, i)
  {
    hide WellFormed, Count, AllAssigned, IsAssigned, NullOrAssigned, MembersAssigned, MethodsAssigned;
    if k == AnnotationSets || k == AnnotationSetRefs {
      SetChecksPass(ir, o, k, i);
    } else if k == AnnotationDirs {
      DirectoryChecksPass(ir, o, i);
    } else if k == ClassDefs {
      ClassChecksPass(ir, o, i);
    } else if k == ClassDatas {
      MethodChecksPass(ir, o, i);
    } else if k == StringIds || k == ProtoIds || k == CallSiteIds || k == CodeItems {
      SingleChecksPass(ir, o, k, i);
    }
  }

  // ------------------------------------------------------------------ one item

  lemma SpecialBytes(ir: Header, o: Offsets, k: Kind, i: nat)
    requires i < Count(ir, k)
    ensures k == EncodedArrays ==> ItemBytes(ir, o, k, i) == EncodeArray(ir.encodedArrays[i])
    ensures k == Annotations ==>
              ItemBytes(ir, o, k, i) == [ir.annotations[i].visibility] + EncodeAnnotation(ir.annotations[i].annotation)
    ensures k == ClassDatas ==> ItemBytes(ir, o, k, i) == Ulebs(ClassDataWords(o, ir.classDatas[i]))
    ensures k == StringDatas ==> ItemBytes(ir, o, k, i) == StringDataBytes(ir.stringDatas[i])
    ensures k == CodeItems ==> ItemBytes(ir, o, k, i) == CodeItemBytes(o, ir.codeItems[i])
    ensures k == AnnotationSets ==> ItemBytes(ir, o, k, i) == AnnotationSetBytes(o, ir.annotationSets[i])
    ensures k == AnnotationSetRefs ==> ItemBytes(ir, o, k, i) == AnnotationSetRefBytes(o, ir.annotationSetRefs[i])
    ensures k == AnnotationDirs ==> ItemBytes(ir, o, k, i) == U32s(DirectoryWords(o, ir.annotationDirs[i]))
    ensures k == TypeLists ==> ItemBytes(ir, o, k, i) == TypeListBytes(ir.typeLists[i])
    ensures k == DebugInfos ==> ItemBytes(ir, o, k, i) == ir.debugInfos[i]
    ensures k == StringIds || k == CallSiteIds ==> |ItemBytes(ir, o, k, i)| == 4
    ensures k == ProtoIds ==> |ItemBytes(ir, o, k, i)| == 12
    ensures k == ClassDefs ==> |ItemBytes(ir, o, k, i)| == 32
  {
    hide EncodeArray, EncodeAnnotation, Ulebs, ClassDataWords, StringDataBytes, CodeItemBytes, U32s, ProtoIdBytes, ClassDefWords,
         AnnotationSetBytes, AnnotationSetRefBytes, DirectoryWords, TypeListBytes;
  }

  method WriteAnnotation(stream: Stream, a: AnnotationItem)
    requires stream.Valid() && ZeroAt(stream.image, stream.position, |[a.visibility] + EncodeAnnotation(a.annotation)|)
    modifies stream, stream.section
    ensures stream.Valid() && stream.position == old(stream.position) + |[a.visibility] + EncodeAnnotation(a.annotation)|
    ensures stream.image == Splice(old(stream.image), old(stream.position), [a.visibility] + EncodeAnnotation(a.annotation))
  {
    hide *;
    ghost var img, pos := stream.image, stream.position;
    ZeroAfterSplice(img, pos, [a.visibility], |EncodeAnnotation(a.annotation)|);
    stream.Write([a.visibility]);
    WriteEncodedAnnotation(stream, a.annotation);
    SpliceSplice(img, pos, [a.visibility], EncodeAnnotation(a.annotation));
  }

  /** An item that is not code, at its aligned start. */
  method WriteItem(stream: Stream, ir: Header, o: Offsets, k: Kind, i: nat)
    requires i < Count(ir, k) && k != CodeItems && k != Hiddenapi && PointersAssigned(ir, o, k, i)
    requires stream.Valid() && ZeroAt(stream.image, stream.position, |ItemBytes(ir, o, k, i)|)
    modifies stream, stream.section
    ensures stream.Valid() && stream.position == old(stream.position) + |ItemBytes(ir, o, k, i)|
    ensures stream.image == Splice(old(stream.image), old(stream.position), ItemBytes(ir, o, k, i))
  {
    hide *;
    SpecialBytes(ir, o, k, i);
    CountIs(ir, k);
    RowKinds(k);
    if k == EncodedArrays {
      WriteEncodedArray(stream, ir.encodedArrays[i]);
    } else if k == Annotations {
      WriteAnnotation(stream, ir.annotations[i]);
    } else if k == AnnotationSets {
      WriteAnnotationSet(stream, o, ir.annotationSets[i]);
    } else if k == AnnotationSetRefs {
      WriteAnnotationSetRefs(stream, o, ir.annotationSetRefs[i]);
    } else if k == AnnotationDirs {
      WriteDirectory(stream, o, ir.annotationDirs[i]);
    } else if k == TypeLists {
      WriteTypeList(stream, ir.typeLists[i]);
    } else if k == ClassDatas {
      WriteClassData(stream, o, ir.classDatas[i]);
    } else if k == StringDatas {
      WriteStringData(stream, ir.stringDatas[i]);
    } else if k == DebugInfos {
      stream.Write(ir.debugInfos[i]);
    } else {
      var buffer := RowBuffer(ir, o, k, i);
      stream.Write(buffer);
    }
  }

  lemma RowKinds(k: Kind)
    ensures IsRow(k) <==> k !in {EncodedArrays, Annotations, AnnotationSets, AnnotationSetRefs, AnnotationDirs, TypeLists, ClassDatas, StringDatas,
                                 DebugInfos, CodeItems, Hiddenapi}
  {
  }

  lemma CountIs(ir: Header, k: Kind)
    ensures k == EncodedArrays ==> Count(ir, k) == |ir.encodedArrays|
    ensures k == Annotations ==> Count(ir, k) == |ir.annotations|
    ensures k == AnnotationSets ==> Count(ir, k) == |ir.annotationSets|
    ensures k == AnnotationSetRefs ==> Count(ir, k) == |ir.annotationSetRefs|
    ensures k == AnnotationDirs ==> Count(ir, k) == |ir.annotationDirs|
    ensures k == TypeLists ==> Count(ir, k) == |ir.typeLists|
    ensures k == ClassDatas ==> Count(ir, k) == |ir.classDatas|
    ensures k == StringDatas ==> Count(ir, k) == |ir.stringDatas|
    ensures k == DebugInfos ==> Count(ir, k) == |ir.debugInfos|
    ensures k == CodeItems ==> Count(ir, k) == |ir.codeItems|
  {
  }

  /** `GetSize` of the id items that are reserved. */
  function IdSize(k: Kind): nat {
    match k
    case ProtoIds => 12
    case ClassDefs => 32
    case _ => 4
  }

  lemma IdSizeIs(ir: Header, o: Offsets, k: Kind, i: nat)
    requires i < Count(ir, k) && Reserved(k) && k != CodeItems
    ensures |ItemBytes(ir, o, k, i)| == IdSize(k)
  {
    hide ItemBytes;
    SpecialBytes(ir, o, k, i);
  }

  // ------------------------------------------------------------------ one section

  /** The image once `bytes` has been placed, or only reserved, at `at`. */
  function Placing(img: seq<Byte>, at: nat, bytes: seq<Byte>, reserve: bool): seq<Byte> {
    if reserve then Extend(img, at + |bytes|) else Splice(img, at, bytes)
  }

  function Recorded(o: Offsets, k: Kind, i: nat, at: nat): Offsets {
    if HasOffset(k) then o[Ref(k, i) := at] else o
  }

  lemma PlacingIs(img: seq<Byte>, at: nat, bytes: seq<Byte>)
    ensures Placing(img, at, bytes, true) == Extend(img, at + |bytes|)
    ensures Placing(img, at, bytes, false) == Splice(img, at, bytes)
  {
    hide Extend, Splice;
  }

  lemma ZeroBehind(img: seq<Byte>, p: nat, q: nat, n: nat)
    requires p <= q && ZeroAt(img, p, q - p + n)
    ensures ZeroAt(img, q, n) && ZeroAt(Extend(img, q), q, n)
  {
  }

  lemma ExtendTwice(img: seq<Byte>, p: nat, q: nat)
    requires p <= q
    ensures Extend(Extend(img, p), q) == Extend(img, q)
  {
  }

  class DexWriter {
    const ir: Header
    const stream: Stream
    /** The offset fields of the items. */
    var offs: Offsets
    /** The offset fields of the collections; a collection without an entry has offset zero. */
    var sectionOffs: map<Kind, nat>

    constructor (ir: Header, stream: Stream)
      ensures this.ir == ir && this.stream == stream && offs == map[] && sectionOffs == ir.sectionOffsets
    {
      this.ir := ir;
      this.stream := stream;
      this.offs := map[];
      this.sectionOffs := ir.sectionOffsets;
    }

    /** `ProcessOffset`: the item's offset is the stream's position. */
    method ProcessOffset(k: Kind, i: nat)
      modifies this`offs
      ensures offs == old(offs)[Ref(k, i) := stream.position]
    {
      offs := offs[Ref(k, i) := stream.position];
    }

    /**
      * `WriteCodeItem`. A reserving pass writes the item with whatever its structures hold and then
      * clears everything from where it began.
      */
    method WriteCodeItem(i: nat, reserveOnly: bool)
      requires WellFormed(ir) && i < Count(ir, CodeItems)
      requires reserveOnly || PointersAssigned(ir, offs, CodeItems, i)
      requires stream.Valid()
      requires ZeroAt(stream.image, stream.position, AlignUp(stream.position, 4) - stream.position + |ItemBytes(ir, offs, CodeItems, i)|)
      modifies this`offs, stream, stream.section
      ensures stream.Valid()
      ensures stream.position == AlignUp(old(stream.position), 4) + |ItemBytes(ir, old(offs), CodeItems, i)|
      ensures stream.image
           == Placing(old(stream.image), AlignUp(old(stream.position), 4), ItemBytes(ir, old(offs), CodeItems, i), reserveOnly)
      ensures offs == Recorded(old(offs), CodeItems, i, AlignUp(old(stream.position), 4))
    {
      hide *;
      SpecialBytes(ir, offs, CodeItems, i);
      GoodTries(ir, i);
      var startOffset := stream.position;
      ghost var img, o, at := stream.image, offs, AlignUp(stream.position, 4);
      AlignUpAligns(stream.position, 4);
      stream.AlignTo(4);
      ProcessOffset(CodeItems, i);
      RecordedIs(o, CodeItems, i, at);
      SameCode(ir, o, offs, i, at);
      ZeroBehind(img, startOffset, at, |CodeItemBytes(offs, ir.codeItems[i])|);
      ghost var written := WriteCodeAt(stream, offs, ir.codeItems[i], reserveOnly);
      SpliceExtend(img, at, written);
      PlacingIs(img, at, CodeItemBytes(o, ir.codeItems[i]));
      if reserveOnly {
        ClearAll(img, startOffset, at, written);
        stream.Clear(startOffset, stream.position - startOffset);
      }
    }

    /** An item of any other section: align, record the offset, and write or skip. */
    method PlaceItem(k: Kind, i: nat, reserveOnly: bool)
      requires WellFormed(ir) && i < Count(ir, k) && k != CodeItems && k != Hiddenapi
      requires if reserveOnly then Reserved(k) else PointersAssigned(ir, offs, k, i)
      requires stream.Valid()
      requires var a := AlignUp(stream.position, SectionAlignment(k));
               ZeroAt(stream.image, stream.position, a - stream.position + |ItemBytes(ir, offs, k, i)|)
      modifies this`offs, stream, stream.section
      ensures stream.Valid()
      ensures stream.position == AlignUp(old(stream.position), SectionAlignment(k)) + |ItemBytes(ir, old(offs), k, i)|
      ensures stream.image
           == Placing(old(stream.image), AlignUp(old(stream.position), SectionAlignment(k)), ItemBytes(ir, old(offs), k, i), reserveOnly)
      ensures offs == Recorded(old(offs), k, i, AlignUp(old(stream.position), SectionAlignment(k)))
    {
      hide *;
      ghost var img, o, at := stream.image, offs, AlignUp(stream.position, SectionAlignment(k));
      ghost var pos, bytes := stream.position, ItemBytes(ir, offs, k, i);
      RecordedIs(o, k, i, at);
      PlacingIs(img, at, bytes);
      ZeroBehind(img, pos, at, |bytes|);
      SpliceExtend(img, at, bytes);
      stream.AlignTo(SectionAlignment(k));
      if HasOffset(k) {
        ProcessOffset(k, i);
        OwnOffsetUnused(ir, o, k, i, i, at);
        OwnCheckUnused(ir, o, k, i, i, at);
      }
      if reserveOnly {
        IdSizeIs(ir, o, k, i);
        ExtendTwice(img, at, at + |bytes|);
        stream.Skip(IdSize(k));
      } else {
        WriteItem(stream, ir, offs, k, i);
      }
    }

    /**
      * The writers of the sections, which differ only in their items. The collection's offset is
      * where the section begins, before any padding, and is left alone if nothing was written.
      */
    method WriteSection(k: Kind, reserveOnly: bool)
      requires WellFormed(ir) && k != Hiddenapi
      requires if reserveOnly then Reserved(k) else AllAssigned(ir, offs, Needs(k))
      requires stream.Valid()
      requires ZeroAt(stream.image, stream.position, |PackedList(ir, offs, k, stream.position)|)
      modifies this, stream, stream.section
      ensures stream.Valid()
      ensures stream.position == old(stream.position) + |PackedList(ir, old(offs), k, old(stream.position))|
      ensures stream.image
           == Placing(old(stream.image), old(stream.position), PackedList(ir, old(offs), k, old(stream.position)), reserveOnly)
      ensures offs == PlaceOffsets(old(offs), k, old(stream.position), ItemList(ir, old(offs), k), Count(ir, k))
      ensures sectionOffs
           == if stream.position == old(stream.position) then old(sectionOffs) else old(sectionOffs)[k := old(stream.position)]
    {
      hide *;
      ghost var img, o, list, a := stream.image, offs, ItemList(ir, offs, k), SectionAlignment(k);
      var start := stream.position;
      stream.Reached();
      NothingYet(o, k, start, list, img, reserveOnly);
      PackedIs(ir, o, k, start);
      for i := 0 to Count(ir, k)
        invariant stream.Valid() && stream.position == EndAt(a, start, list, i)
        invariant stream.image == Placing(img, start, Pack(a, start, list, i), reserveOnly)
        invariant offs == PlaceOffsets(o, k, start, list, i)
        invariant sectionOffs == old(sectionOffs)
      {
        NextItem(ir, o, k, start, i, reserveOnly);
        NextPlace(img, a, start, list, i, reserveOnly);
        NextOffset(o, k, start, list, i);
        if k == CodeItems {
          CodeAlignment();
          WriteCodeItem(i, reserveOnly);
        } else {
          PlaceItem(k, i, reserveOnly);
        }
      }
      if start != stream.position {
        sectionOffs := sectionOffs[k := start];
      }
    }
  }

  /** A section's items, packed from `start`. */
  function PackedList(ir: Header, o: Offsets, k: Kind, start: nat): seq<Byte> {
    Pack(SectionAlignment(k), start, ItemList(ir, o, k), Count(ir, k))
  }

  lemma PackedIs(ir: Header, o: Offsets, k: Kind, start: nat)
    ensures PackedList(ir, o, k, start) == Pack(SectionAlignment(k), start, ItemList(ir, o, k), Count(ir, k))
  {
    hide Pack, ItemList, Count;
  }

  lemma CodeAlignment()
    ensures SectionAlignment(CodeItems) == 4
  {
  }

  lemma NothingYet(o: Offsets, k: Kind, start: nat, list: seq<seq<Byte>>, img: seq<Byte>, reserve: bool)
    requires start <= |img|
    ensures PlaceOffsets(o, k, start, list, 0) == o
    ensures EndAt(SectionAlignment(k), start, list, 0) == start
    ensures Placing(img, start, Pack(SectionAlignment(k), start, list, 0), reserve) == img
  {
    hide SectionAlignment;
    SpliceNothing(img, start);
  }

  lemma NextOffset(o: Offsets, k: Kind, start: nat, list: seq<seq<Byte>>, i: nat)
    requires i < |list|
    ensures PlaceOffsets(o, k, start, list, i + 1)
         == Recorded(PlaceOffsets(o, k, start, list, i), k, i, AlignUp(EndAt(SectionAlignment(k), start, list, i), SectionAlignment(k)))
  {
    hide AlignUp, SectionAlignment, EndAt;
    if !HasOffset(k) {
      NoOffsets(o, k, start, list, i);
      NoOffsets(o, k, start, list, i + 1);
    }
  }

  lemma NoOffsets(o: Offsets, k: Kind, start: nat, list: seq<seq<Byte>>, i: nat)
    requires i <= |list| && !HasOffset(k)
    ensures PlaceOffsets(o, k, start, list, i) == o
  {
  }

  /** While a section is written, its items, and what they may point at, stay what they were. */
  lemma NextItem(ir: Header, o: Offsets, k: Kind, start: nat, i: nat, reserve: bool)
    requires WellFormed(ir) && i < Count(ir, k)
    ensures var o' := PlaceOffsets(o, k, start, ItemList(ir, o, k), i);
            && ItemBytes(ir, o', k, i) == ItemList(ir, o, k)[i]
            && (AllAssigned(ir, o, Needs(k)) ==> PointersAssigned(ir, o', k, i))
  {
    hide *;
    ListElement(ir, o, k, i);
    var o' := PlaceOffsets(o, k, start, ItemList(ir, o, k), i);
    OthersSame(ir, o, k, start, i);
    ItemBytesAgree(ir, o', o, k, i);
    if AllAssigned(ir, o, Needs(k)) {
      OthersAssigned(ir, o, k, start, i);
      ChecksPass(ir, o', k, i);
    }
  }

  lemma ListElement(ir: Header, o: Offsets, k: Kind, i: nat)
    requires i < Count(ir, k)
    ensures ItemList(ir, o, k)[i] == ItemBytes(ir, o, k, i)
  {
    hide ItemBytes;
  }

  lemma NotOwn(k: Kind)
    ensures k !in Needs(k)
  {
  }

  lemma OthersSame(ir: Header, o: Offsets, k: Kind, start: nat, n: nat)
    requires n <= Count(ir, k)
    ensures SameForAll(PlaceOffsets(o, k, start, ItemList(ir, o, k), n), o, Needs(k))
  {
    hide PlaceOffsets, ItemList, Needs, Off;
    NotOwn(k);
    forall d | d in Needs(k) ensures SameFor(PlaceOffsets(o, k, start, ItemList(ir, o, k), n), o, d) {
      forall i: nat ensures Off(PlaceOffsets(o, k, start, ItemList(ir, o, k), n), d, i) == Off(o, d, i) {
        OtherKindsKept(o, k, start, ItemList(ir, o, k), n, d, i);
      }
    }
  }

  lemma OthersAssigned(ir: Header, o: Offsets, k: Kind, start: nat, n: nat)
    requires n <= Count(ir, k) && AllAssigned(ir, o, Needs(k))
    ensures AllAssigned(ir, PlaceOffsets(o, k, start, ItemList(ir, o, k), n), Needs(k))
  {
    hide PlaceOffsets, ItemList, Needs, Count;
    NotOwn(k);
    var o' := PlaceOffsets(o, k, start, ItemList(ir, o, k), n);
    forall d, i | d in Needs(k) && 0 <= i < Count(ir, d) ensures Ref(d, i) in o' && o'[Ref(d, i)] != 0 {
      OtherKindsKept(o, k, start, ItemList(ir, o, k), n, d, i);
      assert Assigned(ir, o, d);
    }
  }

  lemma PackBySplice(a: Alignment, start: nat, list: seq<seq<Byte>>, i: nat)
    requires i < |list|
    ensures Splice(Pack(a, start, list, i), StartAt(a, start, list, i) - start, list[i]) == Pack(a, start, list, i + 1)
  {
    hide *;
    PackStep(a, start, list, i + 1);
    SpliceBehind(Pack(a, start, list, i), StartAt(a, start, list, i) - EndAt(a, start, list, i), list[i]);
  }

  lemma SpliceBehind(b: seq<Byte>, gap: nat, e: seq<Byte>)
    ensures Splice(b, |b| + gap, e) == b + (Zeros(gap) + e)
  {
    var x := Extend(b, |b| + gap + |e|);
    assert x[..|b| + gap] == b + Zeros(gap);
  }

  lemma {:induction false} PackMonotone(a: Alignment, start: nat, list: seq<seq<Byte>>, m: nat, n: nat)
    requires m <= n <= |list|
    ensures EndAt(a, start, list, m) <= EndAt(a, start, list, n)
    decreases n
  {
    hide AlignUp;
    if m < n { PackMonotone(a, start, list, m, n - 1); }
  }

  lemma StartIs(a: Alignment, start: nat, list: seq<seq<Byte>>, i: nat)
    requires i < |list|
    ensures StartAt(a, start, list, i) == AlignUp(EndAt(a, start, list, i), a)
    ensures EndAt(a, start, list, i + 1) == StartAt(a, start, list, i) + |list[i]|
  {
    hide AlignUp;
  }

  lemma ZeroInPlacing(img: seq<Byte>, p: nat, block: seq<Byte>, reserve: bool, n: nat)
    requires ZeroAt(img, p, |block| + n)
    ensures ZeroAt(Placing(img, p, block, reserve), p + |block|, n)
  {
    hide Splice;
    if !reserve { ZeroAfterSplice(img, p, block, n); }
  }

  /** Placing one more item behind those packed so far is packing one more. */
  lemma NextPlace(img: seq<Byte>, a: Alignment, start: nat, list: seq<seq<Byte>>, i: nat, reserve: bool)
    requires i < |list| && ZeroAt(img, start, |Pack(a, start, list, |list|)|)
    ensures var e, at := EndAt(a, start, list, i), StartAt(a, start, list, i);
            var now := Placing(img, start, Pack(a, start, list, i), reserve);
            && at == AlignUp(e, a)
            && EndAt(a, start, list, i + 1) == at + |list[i]|
            && ZeroAt(now, e, at - e + |list[i]|)
            && Placing(now, at, list[i], reserve) == Placing(img, start, Pack(a, start, list, i + 1), reserve)
  {
    hide *;
    var e, at, b := EndAt(a, start, list, i), StartAt(a, start, list, i), Pack(a, start, list, i);
    StartIs(a, start, list, i);
    PackMonotone(a, start, list, i + 1, |list|);
    ZeroLess(img, start, |b| + (at - e + |list[i]|), |Pack(a, start, list, |list|)|);
    ZeroLess(img, start, |Pack(a, start, list, i + 1)|, |Pack(a, start, list, |list|)|);
    ZeroInPlacing(img, start, b, reserve, at - e + |list[i]|);
    PackBySplice(a, start, list, i);
    PlacingIs(img, start, b);
    PlacingIs(Placing(img, start, b, reserve), at, list[i]);
    PlacingIs(img, start, Pack(a, start, list, i + 1));
    if reserve {
      ExtendTwice(img, start + |b|, at + |list[i]|);
    } else {
      SpliceInside(img, start, b, at - start, list[i]);
    }
  }

  lemma RecordedIs(o: Offsets, k: Kind, i: nat, at: nat)
    ensures Recorded(o, k, i, at) == if HasOffset(k) then o[Ref(k, i) := at] else o
    ensures HasOffset(CodeItems)
  {
  }

  lemma GoodTries(ir: Header, i: nat)
    requires WellFormed(ir) && i < Count(ir, CodeItems)
    ensures i < |ir.codeItems|
    ensures forall t | 0 <= t < |ir.codeItems[i].tries| :: ir.codeItems[i].tries[t].handler < |ir.codeItems[i].handlers|
  {
    assert GoodCodeItem(ir, ir.codeItems[i]);
  }

  /** An item never holds an offset of its own kind. */
  lemma OwnOffsetUnused(ir: Header, o: Offsets, k: Kind, i: nat, j: nat, at: nat)
    requires i < Count(ir, k)
    ensures ItemBytes(ir, o[Ref(k, j) := at], k, i) == ItemBytes(ir, o, k, i)
  {
    hide ItemBytes;
    assert k !in Needs(k);
    forall d | d in Needs(k) ensures SameFor(o[Ref(k, j) := at], o, d) {
    }
    ItemBytesAgree(ir, o[Ref(k, j) := at], o, k, i);
  }

  lemma OwnCheckUnused(ir: Header, o: Offsets, k: Kind, i: nat, j: nat, at: nat)
    requires i < Count(ir, k)
    ensures PointersAssigned(ir, o, k, i) ==> PointersAssigned(ir, o[Ref(k, j) := at], k, i)
  {
  }

  lemma SameCode(ir: Header, o1: Offsets, o2: Offsets, i: nat, at: nat)
    requires i < Count(ir, CodeItems) && o2 == o1[Ref(CodeItems, i) := at]
    ensures CodeItemBytes(o1, ir.codeItems[i]) == CodeItemBytes(o2, ir.codeItems[i])
  {
    hide ItemBytes, CodeItemBytes;
    OwnOffsetUnused(ir, o1, CodeItems, i, i, at);
    SpecialBytes(ir, o1, CodeItems, i);
    SpecialBytes(ir, o2, CodeItems, i);
  }
}
