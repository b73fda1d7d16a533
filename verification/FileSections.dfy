/** The order in which sections are reserved, written and filled in, and what the file holds after each step. */
module FileSections {
  import opened Bytes
  import opened Streams
  import opened Packing
  import opened DexIr
  import opened Items
  import opened ItemWriters
  import opened HiddenApi
  import opened Layout
  import opened LayoutFacts
  import opened FileBody
  import opened SectionWriter

  /** What the collection of section `k` records as its offset. */
  function RecordedStart(ir: Header, k: Kind): nat {
    if k == Hiddenapi then AlignUp(StartOf(ir, k), 4) else StartOf(ir, k)
  }

  /** The offsets of the collections, the first `n` sections having been laid out. */
  function SectionOffsets(ir: Header, n: nat): map<Kind, nat>
    requires n <= KINDS
  {
    if n == 0 then ir.sectionOffsets
    else
      var k := KindAt(n - 1);
      if SectionBytes(ir, k) == [] then SectionOffsets(ir, n - 1)
      else SectionOffsets(ir, n - 1)[k := RecordedStart(ir, k)]
  }

  lemma SectionOffsetsStep(ir: Header, k: Kind)
    ensures SectionOffsets(ir, IndexOf(k) + 1)
         == if SectionBytes(ir, k) == [] then SectionOffsets(ir, IndexOf(k))
            else SectionOffsets(ir, IndexOf(k))[k := RecordedStart(ir, k)]
    ensures SectionOffsets(ir, 0) == ir.sectionOffsets
    ensures k != Hiddenapi ==> RecordedStart(ir, k) == StartOf(ir, k)
  {
    hide SectionBytes, StartOf;
  }

  lemma {:induction false} SectionOffsetIs(ir: Header, n: nat, k: Kind)
    requires IndexOf(k) < n <= KINDS && SectionBytes(ir, k) != []
    ensures k in SectionOffsets(ir, n) && SectionOffsets(ir, n)[k] == RecordedStart(ir, k)
    decreases n
  {
    hide *;
    KindAtIndex(n - 1);
    SectionOffsetsStep(ir, KindAt(n - 1));
    if KindAt(n - 1) != k { SectionOffsetIs(ir, n - 1, k); }
  }

  function SecOff(m: map<Kind, nat>, k: Kind): nat {
    if k in m then m[k] else 0
  }

  /** The offset recorded for a section; an empty section keeps the one it had. */
  function FinalSectionOff(ir: Header, k: Kind): nat {
    if SectionBytes(ir, k) == [] then SecOff(ir.sectionOffsets, k) else RecordedStart(ir, k)
  }

  lemma SecOffUpdate(m: map<Kind, nat>, k: Kind, k': Kind, v: nat)
    ensures SecOff(m[k' := v], k) == if k == k' then v else SecOff(m, k)
  {
  }

  lemma {:induction false} EmptyKeepsOffset(ir: Header, n: nat, k: Kind)
    requires n <= KINDS && (SectionBytes(ir, k) == [] || n <= IndexOf(k))
    ensures SecOff(SectionOffsets(ir, n), k) == SecOff(ir.sectionOffsets, k)
  {
    hide *;
    SectionOffsetsStep(ir, k);
    if n > 0 {
      var k' := KindAt(n - 1);
      KindAtIndex(n - 1);
      SectionOffsetsStep(ir, k');
      SecOffUpdate(SectionOffsets(ir, n - 1), k, k', RecordedStart(ir, k'));
      EmptyKeepsOffset(ir, n - 1, k);
    }
  }

  /** What the collections record once every section has been laid out. */
  lemma FinalSectionOffset(ir: Header, k: Kind)
    ensures SecOff(SectionOffsets(ir, KINDS), k) == FinalSectionOff(ir, k)
  {
    hide SectionOffsets, IndexOf, SectionBytes, RecordedStart;
    if SectionBytes(ir, k) == [] {
      EmptyKeepsOffset(ir, KINDS, k);
    } else {
      SectionOffsetIs(ir, KINDS, k);
    }
  }

  // ------------------------------------------------------------------ states of the writer

  /** The first `n` sections are laid out, those in `done` written, and the stream is behind them. */
  ghost predicate At(w: DexWriter, done: set<Kind>, n: nat)
    requires n <= KINDS
    reads w, w.stream, w.stream.section
  {
    && w.stream.Valid()
    && w.stream.image == Body(w.ir, done, n)
    && w.stream.position == Placed(w.ir, n).pos
    && w.offs == Placed(w.ir, n).offs
    && w.sectionOffs == SectionOffsets(w.ir, n)
  }

  /** The stream is where section `k`, the next one, begins. */
  ghost predicate Before(w: DexWriter, done: set<Kind>, k: Kind)
    reads w, w.stream, w.stream.section
  {
    && w.stream.Valid()
    && w.stream.image == Extend(Body(w.ir, done, IndexOf(k)), StartOf(w.ir, k))
    && w.stream.position == StartOf(w.ir, k)
    && w.offs == Placed(w.ir, IndexOf(k)).offs
    && w.sectionOffs == SectionOffsets(w.ir, IndexOf(k))
  }

  lemma NextSection(w: DexWriter, done: set<Kind>, k: Kind)
    requires k != CodeItems && At(w, done, IndexOf(k))
    ensures Before(w, done, k)
  {
    hide Body, Placed, IndexOf, SectionOffsets;
    ExtendShort(Body(w.ir, done, IndexOf(k)), StartOf(w.ir, k));
  }

  lemma AtGives(w: DexWriter, done: set<Kind>, n: nat)
    requires n <= KINDS && At(w, done, n)
    ensures w.stream.Valid() && w.stream.image == Body(w.ir, done, n) && w.stream.position == Placed(w.ir, n).pos
    ensures w.offs == Placed(w.ir, n).offs && w.sectionOffs == SectionOffsets(w.ir, n)
  {
    hide Body, Placed, SectionOffsets;
  }

  lemma BeforeGives(w: DexWriter, done: set<Kind>, k: Kind)
    requires Before(w, done, k)
    ensures w.stream.Valid() && w.stream.position == StartOf(w.ir, k)
    ensures w.stream.image == Extend(Body(w.ir, done, IndexOf(k)), StartOf(w.ir, k))
    ensures w.offs == Placed(w.ir, IndexOf(k)).offs && w.sectionOffs == SectionOffsets(w.ir, IndexOf(k))
  {
    hide Body, Placed, SectionOffsets, IndexOf, StartOf, Extend;
  }

  // ------------------------------------------------------------------ facts about a section's turn

  /** The bytes written at the section's turn, or the room reserved for them. */
  lemma {:induction false} TurnBytes(ir: Header, k: Kind)
    ensures var p := PackedList(ir, Placed(ir, IndexOf(k)).offs, k, StartOf(ir, k));
            && |p| == |SectionBytes(ir, k)|
            && (!Reserved(k) ==> p == SectionBytes(ir, k))
  {
    hide *;
    var l1, l2 := ItemList(ir, Placed(ir, IndexOf(k)).offs, k), ItemList(ir, FinalOffsets(ir), k);
    ListAtItsTurn(ir, k);
    PackedIs(ir, Placed(ir, IndexOf(k)).offs, k, StartOf(ir, k));
    SectionIs(ir, k);
    ShapeDecides(SectionAlignment(k), StartOf(ir, k), l1, l2, Count(ir, k));
  }

  lemma SectionIs(ir: Header, k: Kind)
    ensures SectionBytes(ir, k) == Pack(SectionAlignment(k), StartOf(ir, k), ItemList(ir, FinalOffsets(ir), k), Count(ir, k))
    ensures SectionBytes(ir, k) == PackedList(ir, FinalOffsets(ir), k, StartOf(ir, k))
  {
    hide Pack, ItemList, Count, StartOf, FinalOffsets;
  }

  lemma TurnOffsets(ir: Header, k: Kind)
    ensures Placed(ir, IndexOf(k) + 1).offs
         == PlaceOffsets(Placed(ir, IndexOf(k)).offs, k, StartOf(ir, k), ItemList(ir, Placed(ir, IndexOf(k)).offs, k), Count(ir, k))
  {
    hide PlaceOffsets, ItemList, Count, AlignUp;
  }

  lemma NeededHaveOffsets(k: Kind)
    ensures forall d | d in Needs(k) :: HasOffset(d)
  {
  }

  lemma {:induction false} NeedsAssigned(ir: Header, k: Kind, n: nat)
    requires n <= KINDS && forall d | d in Needs(k) :: IndexOf(d) < n
    ensures AllAssigned(ir, Placed(ir, n).offs, Needs(k))
  {
    hide *;
    NeededHaveOffsets(k);
    forall d | d in Needs(k) ensures Assigned(ir, Placed(ir, n).offs, d) { AssignedSoFar(ir, n, d); }
    AllAssignedIs(ir, Placed(ir, n).offs, k);
  }

  lemma AllAssignedIs(ir: Header, o: Offsets, k: Kind)
    requires forall d | d in Needs(k) :: Assigned(ir, o, d)
    ensures AllAssigned(ir, o, Needs(k))
  {
    hide Assigned, Needs;
  }

  lemma TurnAssigned(ir: Header, k: Kind)
    requires !Reserved(k)
    ensures AllAssigned(ir, Placed(ir, IndexOf(k)).offs, Needs(k))
  {
    hide *;
    forall d | d in Needs(k) ensures IndexOf(d) < IndexOf(k) { NeedsComeFirst(k, d); }
    NeedsAssigned(ir, k, IndexOf(k));
  }

  lemma NothingBeyond(img: seq<Byte>, p: nat, n: nat)
    requires |img| <= p
    ensures ZeroAt(img, p, n)
  {
  }

  lemma EmptyOrNot(s: seq<Byte>)
    ensures |s| == 0 <==> s == []
  {
  }

  // ------------------------------------------------------------------ the steps

  /** A section whose items can be written at once. */
  method AppendSection(w: DexWriter, k: Kind, ghost done: set<Kind>)
    requires WellFormed(w.ir) && !Reserved(k) && k != Hiddenapi
    requires Before(w, done, k)
    modifies w, w.stream, w.stream.section
    ensures At(w, done + {k}, IndexOf(k) + 1)
  {
    hide *;
    BeforeGives(w, done, k);
    ghost var ir, body := w.ir, Extend(Body(w.ir, done, IndexOf(k)), StartOf(w.ir, k));
    ghost var bytes := SectionBytes(ir, k);
    TurnBytes(ir, k);
    TurnAssigned(ir, k);
    BodyStep(ir, done, k);
    BodyStep(ir, done + {k}, k);
    BodyAgree(ir, done, k, IndexOf(k));
    ImageDone(ir, done + {k}, k);
    PlacedAfter(ir, k);
    TurnOffsets(ir, k);
    SectionOffsetsStep(ir, k);
    NothingBeyond(body, w.stream.position, |bytes|);
    PlacingIs(body, w.stream.position, bytes);
    SpliceAtEnd(body, bytes);
    EmptyOrNot(bytes);
    w.WriteSection(k, false);
    AtIs(w, done + {k}, IndexOf(k) + 1);
  }

  lemma AtIs(w: DexWriter, done: set<Kind>, n: nat)
    requires n <= KINDS && w.stream.Valid()
    requires w.stream.image == Body(w.ir, done, n) && w.stream.position == Placed(w.ir, n).pos
    requires w.offs == Placed(w.ir, n).offs && w.sectionOffs == SectionOffsets(w.ir, n)
    ensures At(w, done, n)
  {
    hide Body, Placed, SectionOffsets;
  }

  lemma ExtendEnd(img: seq<Byte>, n: nat)
    ensures Extend(img, |img| + n) == img + Zeros(n)
  {
  }

  /** A section whose items hold offsets not known yet. */
  method ReserveSection(w: DexWriter, k: Kind, ghost done: set<Kind>)
    requires WellFormed(w.ir) && Reserved(k) && k !in done && k != Hiddenapi
    requires Before(w, done, k)
    modifies w, w.stream, w.stream.section
    ensures At(w, done, IndexOf(k) + 1)
  {
    hide *;
    BeforeGives(w, done, k);
    ghost var ir, body := w.ir, Extend(Body(w.ir, done, IndexOf(k)), StartOf(w.ir, k));
    ghost var room := PackedList(ir, Placed(ir, IndexOf(k)).offs, k, StartOf(ir, k));
    TurnBytes(ir, k);
    BodyStep(ir, done, k);
    ImageDone(ir, done, k);
    PlacedAfter(ir, k);
    TurnOffsets(ir, k);
    SectionOffsetsStep(ir, k);
    NothingBeyond(body, w.stream.position, |room|);
    PlacingIs(body, w.stream.position, room);
    ExtendEnd(body, |room|);
    EmptyOrNot(SectionBytes(ir, k));
    w.WriteSection(k, true);
    AtIs(w, done, IndexOf(k) + 1);
  }

  lemma {:induction false} FillBytes(ir: Header, k: Kind, n: nat)
    requires n <= KINDS && forall d | d in Needs(k) :: IndexOf(d) < n
    ensures ItemList(ir, Placed(ir, n).offs, k) == ItemList(ir, FinalOffsets(ir), k)
    ensures PackedList(ir, Placed(ir, n).offs, k, StartOf(ir, k)) == SectionBytes(ir, k)
  {
    hide *;
    FinalIs(ir);
    forall d | d in Needs(k) ensures SameFor(Placed(ir, n).offs, FinalOffsets(ir), d) { OffsetsStable(ir, n, KINDS, d); }
    SameForAllIs(Placed(ir, n).offs, FinalOffsets(ir), k);
    ListAgree(ir, Placed(ir, n).offs, FinalOffsets(ir), k);
    SectionIs(ir, k);
    PackedIs(ir, Placed(ir, n).offs, k, StartOf(ir, k));
  }

  lemma FinalIs(ir: Header)
    ensures FinalOffsets(ir) == Placed(ir, KINDS).offs
  {
    hide Placed;
  }

  lemma SameForAllIs(o1: Offsets, o2: Offsets, k: Kind)
    requires forall d | d in Needs(k) :: SameFor(o1, o2, d)
    ensures SameForAll(o1, o2, Needs(k))
  {
    hide SameFor, Needs;
  }

  /** Placing items again where they are assigns nothing new. */
  lemma {:induction false} PlacedAgain(o: Offsets, k: Kind, start: nat, list: seq<seq<Byte>>, n: nat)
    requires n <= |list|
    requires HasOffset(k) ==> forall i | 0 <= i < n :: Ref(k, i) in o && o[Ref(k, i)] == StartAt(SectionAlignment(k), start, list, i)
    ensures PlaceOffsets(o, k, start, list, n) == o
  {
    hide StartAt, SectionAlignment;
    if n > 0 && HasOffset(k) {
      PlacedAgain(o, k, start, list, n - 1);
      assert Ref(k, n - 1) in o;
    }
  }

  lemma {:induction false} FillOffsets(ir: Header, k: Kind, n: nat)
    requires IndexOf(k) < n <= KINDS && forall d | d in Needs(k) :: IndexOf(d) < n
    ensures PlaceOffsets(Placed(ir, n).offs, k, StartOf(ir, k), ItemList(ir, Placed(ir, n).offs, k), Count(ir, k)) == Placed(ir, n).offs
  {
    hide *;
    var o, list := Placed(ir, n).offs, ItemList(ir, FinalOffsets(ir), k);
    FillBytes(ir, k, n);
    if HasOffset(k) {
      AssignedSoFar(ir, n, k);
      forall i | 0 <= i < Count(ir, k)
        ensures Ref(k, i) in o && o[Ref(k, i)] == StartAt(SectionAlignment(k), StartOf(ir, k), list, i)
      {
        OffsetIsPosition(ir, k, i);
        ItemStartIs(ir, k, i);
        OffsetNow(ir, k, n, i);
      }
    }
    PlacedAgain(o, k, StartOf(ir, k), list, Count(ir, k));
  }

  lemma ItemStartIs(ir: Header, k: Kind, i: nat)
    requires i < Count(ir, k)
    ensures ItemStart(ir, k, i) == StartAt(SectionAlignment(k), StartOf(ir, k), ItemList(ir, FinalOffsets(ir), k), i)
  {
    hide StartAt, ItemList, StartOf, FinalOffsets;
  }

  lemma OffsetNow(ir: Header, k: Kind, n: nat, i: nat)
    requires IndexOf(k) < n <= KINDS && i < Count(ir, k) && Assigned(ir, Placed(ir, n).offs, k)
    ensures Ref(k, i) in Placed(ir, n).offs && Placed(ir, n).offs[Ref(k, i)] == Off(FinalOffsets(ir), k, i)
  {
    hide Placed, Count, IndexOf;
    OffsetsStable(ir, n, KINDS, k);
  }

  /** A reserved section, filled in at the position where it was reserved; then the stream goes back. */
  method FillSection(w: DexWriter, k: Kind, offset: nat, ghost done: set<Kind>, ghost n: nat)
    requires WellFormed(w.ir) && Reserved(k) && k !in done && k != Hiddenapi
    requires IndexOf(k) < n <= KINDS && forall d | d in Needs(k) :: IndexOf(d) < n
    requires At(w, done, n) && offset == StartOf(w.ir, k)
    modifies w, w.stream, w.stream.section
    ensures At(w, done + {k}, n)
  {
    hide *;
    AtGives(w, done, n);
    ghost var ir, body, bytes := w.ir, Body(w.ir, done, n), SectionBytes(w.ir, k);
    FillBytes(ir, k, n);
    FillOffsets(ir, k, n);
    NeedsAssigned(ir, k, n);
    BodyPending(ir, done, k, n);
    BodyFill(ir, done, k, n);
    SectionInside(ir, k, n);
    EmptyOrNot(bytes);
    SectionOffsetsStep(ir, k);
    if bytes != [] { SectionOffsetIs(ir, n, k); }
    PlacingIs(body, offset, bytes);
    ExtendShort(body, offset);
    ExtendShort(Body(ir, done + {k}, n), Placed(ir, n).pos);
    var here := w.stream.position;
    w.stream.Seek(offset);
    w.WriteSection(k, false);
    w.stream.Seek(here);
    AtIs(w, done + {k}, n);
  }

  lemma StartOfOther(ir: Header, k: Kind)
    ensures k != CodeItems ==> StartOf(ir, k) == Placed(ir, IndexOf(k)).pos
    ensures k == CodeItems ==> StartOf(ir, k) == AlignUp(Placed(ir, IndexOf(k)).pos, DATA_ALIGNMENT)
  {
    hide Placed, IndexOf, AlignUp;
  }

  lemma HiddenapiList(ir: Header, o: Offsets)
    ensures SectionAlignment(Hiddenapi) == 4
    ensures ir.hiddenapi == [] ==> Count(ir, Hiddenapi) == 0
    ensures ir.hiddenapi != [] ==> Count(ir, Hiddenapi) == 1 && ItemList(ir, o, Hiddenapi)[0] == HiddenapiBytes(ir.hiddenapi)
  {
    hide HiddenapiBytes;
  }

  lemma HiddenapiSection(ir: Header)
    ensures ir.hiddenapi == [] ==> SectionBytes(ir, Hiddenapi) == []
    ensures ir.hiddenapi != [] ==>
              SectionBytes(ir, Hiddenapi)
              == Zeros(AlignUp(StartOf(ir, Hiddenapi), 4) - StartOf(ir, Hiddenapi)) + HiddenapiBytes(ir.hiddenapi)
  {
    hide *;
    var start, list := StartOf(ir, Hiddenapi), ItemList(ir, FinalOffsets(ir), Hiddenapi);
    SectionIs(ir, Hiddenapi);
    HiddenapiList(ir, FinalOffsets(ir));
    NothingPacked(4, start, list);
    if ir.hiddenapi != [] {
      StartIs(4, start, list, 0);
      PackStep(4, start, list, 1);
    }
  }

  lemma HiddenapiNotEmpty(fs: seq<HiddenapiFlags>)
    ensures HiddenapiBytes(fs) != []
  {
    hide *;
    HiddenapiParts(fs);
  }

  /** The hidden-API section, the last one, which is aligned before its offset is recorded. */
  method WriteHiddenapi(w: DexWriter, ghost done: set<Kind>)
    requires WellFormed(w.ir) && At(w, done, IndexOf(Hiddenapi))
    modifies w, w.stream, w.stream.section
    ensures At(w, done + {Hiddenapi}, IndexOf(Hiddenapi) + 1)
  {
    hide *;
    AtGives(w, done, IndexOf(Hiddenapi));
    StartOfOther(w.ir, Hiddenapi);
    ghost var ir, body := w.ir, Body(w.ir, done, IndexOf(Hiddenapi));
    ghost var pos, bytes := StartOf(ir, Hiddenapi), HiddenapiBytes(ir.hiddenapi);
    HiddenapiSection(ir);
    BodyStep(ir, done + {Hiddenapi}, Hiddenapi);
    BodyAgree(ir, done, Hiddenapi, IndexOf(Hiddenapi));
    ImageDone(ir, done + {Hiddenapi}, Hiddenapi);
    PlacedAfter(ir, Hiddenapi);
    HiddenapiOffsets(ir);
    SectionOffsetsStep(ir, Hiddenapi);
    HiddenapiNotEmpty(ir.hiddenapi);
    ExtendShort(body, pos);
    if w.ir.hiddenapi == [] {
      assert body + [] == body;
    } else {
      ghost var gap := AlignUp(pos, 4) - pos;
      w.stream.AlignTo(4);
      var start := w.stream.position;
      ExtendEnd(body, gap);
      NothingBeyond(w.stream.image, start, |bytes|);
      WriteHiddenapiClassData(w.stream, w.ir.hiddenapi);
      SpliceAtEnd(body + Zeros(gap), bytes);
      assert body + Zeros(gap) + bytes == body + (Zeros(gap) + bytes);
      w.sectionOffs := w.sectionOffs[Hiddenapi := start];
    }
    AtIs(w, done + {Hiddenapi}, IndexOf(Hiddenapi) + 1);
  }

  lemma HiddenapiOffsets(ir: Header)
    ensures Placed(ir, IndexOf(Hiddenapi) + 1).offs == Placed(ir, IndexOf(Hiddenapi)).offs
    ensures RecordedStart(ir, Hiddenapi) == AlignUp(StartOf(ir, Hiddenapi), 4)
  {
    hide ItemList, AlignUp;
    TurnOffsets(ir, Hiddenapi);
    NoOffsets(Placed(ir, IndexOf(Hiddenapi)).offs, Hiddenapi, StartOf(ir, Hiddenapi),
              ItemList(ir, Placed(ir, IndexOf(Hiddenapi)).offs, Hiddenapi), Count(ir, Hiddenapi));
  }
}
