/** The two passes agree: what was reserved is what is filled, and offsets are item positions. */
module LayoutFacts {
  import opened Bytes
  import opened Packing
  import opened DexIr
  import opened Items
  import opened Layout
  import opened EncodedValues

  // ------------------------------------------------------------------ bytes depend on the needed offsets only

  lemma {:induction false} MemberWordsAgree(o1: Offsets, o2: Offsets, k: Kind, ms: seq<MemberAnnotation>)
    requires SameFor(o1, o2, k)
    ensures MemberWords(o1, k, ms) == MemberWords(o2, k, ms)
  {
    if ms != [] { MemberWordsAgree(o1, o2, k, ms[1..]); }
  }

  lemma {:induction false} MethodWordsAgree(o1: Offsets, o2: Offsets, ms: seq<MethodItem>, prev: UInt32)
    requires SameFor(o1, o2, CodeItems)
    ensures MethodWords(o1, ms, prev) == MethodWords(o2, ms, prev)
  {
    if ms != [] { MethodWordsAgree(o1, o2, ms[1..], ms[0].method_); }
  }

  lemma DirectoryWordsAgree(o1: Offsets, o2: Offsets, d: AnnotationsDirectory)
    requires SameFor(o1, o2, AnnotationSets) && SameFor(o1, o2, AnnotationSetRefs)
    ensures DirectoryWords(o1, d) == DirectoryWords(o2, d)
  {
    hide MemberWords;
    MemberWordsAgree(o1, o2, AnnotationSets, MembersOf(d.fields));
    MemberWordsAgree(o1, o2, AnnotationSets, MembersOf(d.methods));
    MemberWordsAgree(o1, o2, AnnotationSetRefs, MembersOf(d.parameters));
  }

  lemma ClassDataWordsAgree(o1: Offsets, o2: Offsets, c: ClassData)
    requires SameFor(o1, o2, CodeItems)
    ensures ClassDataWords(o1, c) == ClassDataWords(o2, c)
  {
    hide MethodWords, FieldWords;
    MethodWordsAgree(o1, o2, c.directMethods, 0);
    MethodWordsAgree(o1, o2, c.virtualMethods, 0);
  }

  lemma SetWordsAgree(o1: Offsets, o2: Offsets, set_: seq<nat>, refs: seq<Option<nat>>)
    ensures SameFor(o1, o2, Annotations) ==> OffsOf(o1, Annotations, set_) == OffsOf(o2, Annotations, set_)
    ensures SameFor(o1, o2, AnnotationSets) ==> OffsOrZero(o1, AnnotationSets, refs) == OffsOrZero(o2, AnnotationSets, refs)
  {
  }

  ghost predicate SameForAll(o1: Offsets, o2: Offsets, ks: set<Kind>) {
    forall d | d in ks :: SameFor(o1, o2, d)
  }


  /** An item's bytes are decided by the offsets of the kinds it needs. */
  lemma {:induction false} ItemBytesAgree(ir: Header, o1: Offsets, o2: Offsets, k: Kind, i: nat)
    requires i < Count(ir, k) && SameForAll(o1, o2, Needs(k))
    ensures ItemBytes(ir, o1, k, i) == ItemBytes(ir, o2, k, i)
  {
    hide U16s, U32s, Ulebs, EncodeArray, EncodeAnnotation, ProtoIdBytes, ClassDefWords, CodeItemBytes, DirectoryWords,
      ClassDataWords, OffsOf, OffsOrZero, FieldIdBytes, MethodIdBytes, MethodHandleBytes, TypeListBytes,
      StringDataBytes, HiddenapiBytes;
    match k
    case ProtoIds => ProtoBytesAgree(o1, o2, ir.protoIds[i]);
    case ClassDefs => ClassBytesAgree(o1, o2, ir.classDefs[i]);
    case CodeItems => CodeBytesAgree(o1, o2, ir.codeItems[i]);
    case AnnotationSets => SetWordsAgree(o1, o2, ir.annotationSets[i], []);
    case AnnotationSetRefs => SetWordsAgree(o1, o2, [], ir.annotationSetRefs[i]);
    case AnnotationDirs => DirectoryWordsAgree(o1, o2, ir.annotationDirs[i]);
    case ClassDatas => ClassDataWordsAgree(o1, o2, ir.classDatas[i]);
    case _ =>
  }

  lemma ProtoBytesAgree(o1: Offsets, o2: Offsets, p: ProtoId)
    requires SameForAll(o1, o2, Needs(ProtoIds))
    ensures ProtoIdBytes(o1, p) == ProtoIdBytes(o2, p)
  {
    hide U32s;
    assert SameFor(o1, o2, TypeLists);
  }

  lemma ClassBytesAgree(o1: Offsets, o2: Offsets, c: ClassDef)
    requires SameForAll(o1, o2, Needs(ClassDefs))
    ensures ClassDefWords(o1, c) == ClassDefWords(o2, c)
  {
    assert SameFor(o1, o2, TypeLists) && SameFor(o1, o2, AnnotationDirs);
    assert SameFor(o1, o2, ClassDatas) && SameFor(o1, o2, EncodedArrays);
  }

  lemma CodeBytesAgree(o1: Offsets, o2: Offsets, c: CodeItem)
    requires SameForAll(o1, o2, Needs(CodeItems))
    ensures CodeItemBytes(o1, c) == CodeItemBytes(o2, c)
  {
    hide U16s, U32s, PostInstructionBytes;
    assert SameFor(o1, o2, DebugInfos);
  }

  /** The size of a reserved item does not depend on any offset. */
  lemma {:induction false} ReservedShape(ir: Header, o1: Offsets, o2: Offsets, k: Kind, i: nat)
    requires i < Count(ir, k) && Reserved(k)
    ensures |ItemBytes(ir, o1, k, i)| == |ItemBytes(ir, o2, k, i)|
  {
    hide U16s, U32s, PostInstructionBytes;
  }

  // ------------------------------------------------------------------ the first pass already finds the final positions

  lemma {:induction false} ListAgree(ir: Header, o1: Offsets, o2: Offsets, k: Kind)
    requires SameForAll(o1, o2, Needs(k))
    ensures ItemList(ir, o1, k) == ItemList(ir, o2, k)
  {
    hide ItemBytes;
    forall i | 0 <= i < Count(ir, k) ensures ItemBytes(ir, o1, k, i) == ItemBytes(ir, o2, k, i) {
      ItemBytesAgree(ir, o1, o2, k, i);
    }
  }

  lemma {:induction false} ListShape(ir: Header, o1: Offsets, o2: Offsets, k: Kind)
    requires Reserved(k)
    ensures SameShape(ItemList(ir, o1, k), ItemList(ir, o2, k))
  {
    hide ItemBytes;
    forall i | 0 <= i < Count(ir, k) ensures |ItemBytes(ir, o1, k, i)| == |ItemBytes(ir, o2, k, i)| {
      ReservedShape(ir, o1, o2, k, i);
    }
  }

  /** A section that is written in one go needs only sections that lie before it. */
  lemma NeedsComeFirst(k: Kind, d: Kind)
    requires !Reserved(k) && d in Needs(k)
    ensures IndexOf(d) < IndexOf(k)
  {
  }

  /** When its turn comes, a section's list has the final shape, and the final bytes unless it is reserved. */
  lemma {:induction false} ListAtItsTurn(ir: Header, k: Kind)
    ensures SameShape(ItemList(ir, Placed(ir, IndexOf(k)).offs, k), ItemList(ir, FinalOffsets(ir), k))
    ensures !Reserved(k) ==> ItemList(ir, Placed(ir, IndexOf(k)).offs, k) == ItemList(ir, FinalOffsets(ir), k)
  {
    hide ItemList, Placed, IndexOf, Needs;
    var n := IndexOf(k);
    if Reserved(k) {
      ListShape(ir, Placed(ir, n).offs, FinalOffsets(ir), k);
    } else {
      forall d | d in Needs(k) ensures SameFor(Placed(ir, n).offs, FinalOffsets(ir), d) {
        NeedsComeFirst(k, d);
        OffsetsStable(ir, n, KINDS, d);
      }
      ListAgree(ir, Placed(ir, n).offs, FinalOffsets(ir), k);
    }
  }

  /** The layout after section `k`, in terms of the finished section. */
  lemma {:induction false} PlacedAfter(ir: Header, k: Kind)
    ensures Placed(ir, IndexOf(k) + 1).pos == StartOf(ir, k) + |SectionBytes(ir, k)|
  {
    hide ItemList, EndAt, StartAt, AlignUp, IndexOf;
    var n := IndexOf(k);
    var list, final := ItemList(ir, Placed(ir, n).offs, k), ItemList(ir, FinalOffsets(ir), k);
    ListAtItsTurn(ir, k);
    ShapeDecides(SectionAlignment(k), StartOf(ir, k), list, final, |list|);
  }

  /** The offset of an item is its position in the file, and never the unassigned value 0. */
  lemma {:induction false} OffsetIsPosition(ir: Header, k: Kind, i: nat)
    requires HasOffset(k) && i < Count(ir, k)
    ensures Off(FinalOffsets(ir), k, i) == ItemStart(ir, k, i) >= HEADER_SIZE
    ensures Ref(k, i) in FinalOffsets(ir)
  {
    hide ItemList, EndAt, StartAt, AlignUp, IndexOf, PlaceOffsets;
    var n := IndexOf(k);
    var list, final := ItemList(ir, Placed(ir, n).offs, k), ItemList(ir, FinalOffsets(ir), k);
    ListAtItsTurn(ir, k);
    ShapeDecides(SectionAlignment(k), StartOf(ir, k), list, final, i);
    ItemsPlaced(Placed(ir, n).offs, k, StartOf(ir, k), list, |list|, i);
    OffsetsStable(ir, n + 1, KINDS, k);
    assert Off(Placed(ir, n + 1).offs, k, i) == Off(FinalOffsets(ir), k, i);
  }

  /** Offsets are assigned for every kind laid out so far. */
  lemma {:induction false} AssignedSoFar(ir: Header, n: nat, k: Kind)
    requires HasOffset(k) && IndexOf(k) < n <= KINDS
    ensures Assigned(ir, Placed(ir, n).offs, k)
  {
    hide Placed, IndexOf, ItemStart;
    forall i | 0 <= i < Count(ir, k) ensures Ref(k, i) in Placed(ir, n).offs && Placed(ir, n).offs[Ref(k, i)] != 0 {
      OffsetIsPosition(ir, k, i);
      OffsetsStable(ir, n, KINDS, k);
      assert Off(Placed(ir, n).offs, k, i) == Off(FinalOffsets(ir), k, i);
    }
  }
}
