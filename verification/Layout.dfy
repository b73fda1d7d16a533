/** Where everything goes: the positions and offsets the writer computes, as a function of the IR. */
module Layout {
  import opened Bytes
  import opened Packing
  import opened DexIr
  import opened Items

  const KINDS: nat := 19

  function KindAt(n: nat): Kind
    requires n < KINDS
  {
    match n
    case 0 => StringIds
    case 1 => TypeIds
    case 2 => ProtoIds
    case 3 => FieldIds
    case 4 => MethodIds
    case 5 => ClassDefs
    case 6 => CallSiteIds
    case 7 => MethodHandles
    case 8 => CodeItems
    case 9 => DebugInfos
    case 10 => EncodedArrays
    case 11 => Annotations
    case 12 => AnnotationSets
    case 13 => AnnotationSetRefs
    case 14 => AnnotationDirs
    case 15 => TypeLists
    case 16 => ClassDatas
    case 17 => StringDatas
    case 18 => Hiddenapi
  }

  function IndexOf(k: Kind): (n: nat)
    ensures n < KINDS && KindAt(n) == k
  {
    match k
    case StringIds => 0
    case TypeIds => 1
    case ProtoIds => 2
    case FieldIds => 3
    case MethodIds => 4
    case ClassDefs => 5
    case CallSiteIds => 6
    case MethodHandles => 7
    case CodeItems => 8
    case DebugInfos => 9
    case EncodedArrays => 10
    case Annotations => 11
    case AnnotationSets => 12
    case AnnotationSetRefs => 13
    case AnnotationDirs => 14
    case TypeLists => 15
    case ClassDatas => 16
    case StringDatas => 17
    case Hiddenapi => 18
  }

  lemma KindAtIndex(n: nat)
    requires n < KINDS
    ensures IndexOf(KindAt(n)) == n
  {
  }

  /** The kinds whose writers call `ProcessOffset` for each item. */
  predicate HasOffset(k: Kind) {
    k != StringIds && k != ClassDefs && k != CallSiteIds && k != MethodHandles && k != Hiddenapi
  }

  /** The kinds that are reserved first and filled once the offsets they hold are known. */
  predicate Reserved(k: Kind) {
    k == StringIds || k == ProtoIds || k == ClassDefs || k == CallSiteIds || k == CodeItems
  }

  function ItemList(ir: Header, o: Offsets, k: Kind): (s: seq<seq<Byte>>)
    ensures |s| == Count(ir, k)
  {
    seq(Count(ir, k), i requires 0 <= i < Count(ir, k) => ItemBytes(ir, o, k, i))
  }

  /** The offsets after the first `n` strings of a section have been placed. */
  function PlaceOffsets(o: Offsets, k: Kind, start: nat, list: seq<seq<Byte>>, n: nat): Offsets
    requires n <= |list|
  {
    if n == 0 || !HasOffset(k) then o
    else PlaceOffsets(o, k, start, list, n - 1)[Ref(k, n - 1) := StartAt(SectionAlignment(k), start, list, n - 1)]
  }

  const HEADER_SIZE: nat := 0x70
  const DATA_ALIGNMENT: Alignment := 8

  datatype Placement = Placement(pos: nat, offs: Offsets)

  /** The data section, which the code items open, starts on its own alignment. */
  function SectionStart(k: Kind, pos: nat): (r: nat)
    ensures r >= pos
  {
    if k == CodeItems then AlignUp(pos, DATA_ALIGNMENT) else pos
  }

  /** The position and the offsets when the first `n` sections have been laid out. */
  function Placed(ir: Header, n: nat): (p: Placement)
    requires n <= KINDS
    ensures p.pos >= HEADER_SIZE
  {
    if n == 0 then Placement(HEADER_SIZE, map[])
    else
      var prev, k := Placed(ir, n - 1), KindAt(n - 1);
      var start, list := SectionStart(k, prev.pos), ItemList(ir, prev.offs, k);
      Placement(EndAt(SectionAlignment(k), start, list, |list|),
                PlaceOffsets(prev.offs, k, start, list, |list|))
  }

  /** Where section `k` begins. */
  function StartOf(ir: Header, k: Kind): (r: nat)
    ensures r >= HEADER_SIZE
  {
    SectionStart(k, Placed(ir, IndexOf(k)).pos)
  }

  /** All the offsets. */
  function FinalOffsets(ir: Header): Offsets {
    Placed(ir, KINDS).offs
  }

  /** The bytes of section `k`, from its start, in the finished file. */
  function SectionBytes(ir: Header, k: Kind): seq<Byte> {
    var list := ItemList(ir, FinalOffsets(ir), k);
    Pack(SectionAlignment(k), StartOf(ir, k), list, |list|)
  }

  /** The position of item `i` of kind `k`. */
  function ItemStart(ir: Header, k: Kind, i: nat): nat
    requires i < Count(ir, k)
  {
    StartAt(SectionAlignment(k), StartOf(ir, k), ItemList(ir, FinalOffsets(ir), k), i)
  }

  // ------------------------------------------------------------------ offsets

  lemma PlaceStep(o: Offsets, k: Kind, start: nat, list: seq<seq<Byte>>, n: nat)
    requires n <= |list|
    ensures n == 0 || !HasOffset(k) ==> PlaceOffsets(o, k, start, list, n) == o
    ensures n > 0 && HasOffset(k) ==>
              PlaceOffsets(o, k, start, list, n)
              == PlaceOffsets(o, k, start, list, n - 1)[Ref(k, n - 1) := StartAt(SectionAlignment(k), start, list, n - 1)]
  {
    hide StartAt, EndAt, AlignUp, SectionAlignment;
  }

  lemma OffUpdate(o: Offsets, r: Ref, v: nat, d: Kind, i: nat)
    ensures Off(o[r := v], d, i) == if r == Ref(d, i) then v else Off(o, d, i)
  {
  }

  lemma {:induction false} OtherKindsKept(o: Offsets, k: Kind, start: nat, list: seq<seq<Byte>>, n: nat, d: Kind, i: nat)
    requires n <= |list| && d != k
    ensures Off(PlaceOffsets(o, k, start, list, n), d, i) == Off(o, d, i)
  {
    hide *;
    PlaceStep(o, k, start, list, n);
    if n > 0 && HasOffset(k) {
      OtherKindsKept(o, k, start, list, n - 1, d, i);
      OffUpdate(PlaceOffsets(o, k, start, list, n - 1), Ref(k, n - 1), StartAt(SectionAlignment(k), start, list, n - 1), d, i);
    }
  }

  lemma {:induction false} ItemsPlaced(o: Offsets, k: Kind, start: nat, list: seq<seq<Byte>>, n: nat, i: nat)
    requires i < n <= |list| && HasOffset(k)
    ensures Ref(k, i) in PlaceOffsets(o, k, start, list, n)
    ensures PlaceOffsets(o, k, start, list, n)[Ref(k, i)] == StartAt(SectionAlignment(k), start, list, i)
  {
    hide *;
    PlaceStep(o, k, start, list, n);
    if i < n - 1 { ItemsPlaced(o, k, start, list, n - 1, i); }
  }

  /** Offsets of the kinds laid out so far never change again. */
  ghost predicate SameFor(o1: Offsets, o2: Offsets, k: Kind) {
    forall i: nat :: Off(o1, k, i) == Off(o2, k, i)
  }

  lemma {:induction false} StepKeeps(ir: Header, n: nat, k: Kind)
    requires n < KINDS && IndexOf(k) < n
    ensures SameFor(Placed(ir, n).offs, Placed(ir, n + 1).offs, k)
  {
    hide StartAt, EndAt, ItemList;
    KindAtIndex(n);
    var prev, k' := Placed(ir, n), KindAt(n);
    forall i: nat ensures Off(Placed(ir, n).offs, k, i) == Off(Placed(ir, n + 1).offs, k, i) {
      OtherKindsKept(prev.offs, k', SectionStart(k', prev.pos), ItemList(ir, prev.offs, k'), Count(ir, k'), k, i);
    }
  }

  lemma {:induction false} OffsetsStable(ir: Header, n: nat, m: nat, k: Kind)
    requires IndexOf(k) < n <= m <= KINDS
    ensures SameFor(Placed(ir, n).offs, Placed(ir, m).offs, k)
    decreases m
  {
    hide Placed;
    if n < m {
      OffsetsStable(ir, n, m - 1, k);
      StepKeeps(ir, m - 1, k);
    }
  }
}
