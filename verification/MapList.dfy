/** The map list: one entry per section that is not empty, written in the order of the offsets. */
module MapList {
  import opened Bytes
  import opened Streams
  import opened DexIr
  import opened Items
  import opened ItemWriters

  datatype MapItem = MapItem(type_: UInt16, size: nat, offset: nat)

  const TYPE_HEADER: UInt16 := 0x0000
  const TYPE_MAP_LIST: UInt16 := 0x1000

  /** `DexFile::MapItemType`. */
  function MapType(k: Kind): UInt16 {
    match k
    case StringIds => 0x0001
    case TypeIds => 0x0002
    case ProtoIds => 0x0003
    case FieldIds => 0x0004
    case MethodIds => 0x0005
    case ClassDefs => 0x0006
    case CallSiteIds => 0x0007
    case MethodHandles => 0x0008
    case TypeLists => 0x1001
    case AnnotationSetRefs => 0x1002
    case AnnotationSets => 0x1003
    case ClassDatas => 0x2000
    case CodeItems => 0x2001
    case StringDatas => 0x2002
    case DebugInfos => 0x2003
    case Annotations => 0x2004
    case EncodedArrays => 0x2005
    case AnnotationDirs => 0x2006
    case Hiddenapi => 0xF000
  }

  function MapItemBytes(m: MapItem): (s: seq<Byte>)
    ensures |s| == 12
  {
    U16s([m.type_, 0]) + U32s([m.size, m.offset])
  }

  function MapItemsBytes(ms: seq<MapItem>): (s: seq<Byte>)
    ensures |s| == 12 * |ms|
  {
    if ms == [] then [] else MapItemsBytes(ms[..|ms| - 1]) + MapItemBytes(ms[|ms| - 1])
  }

  function MapListBytes(ms: seq<MapItem>): (s: seq<Byte>)
    ensures |s| == 4 + 12 * |ms|
  {
    U32s([|ms|]) + MapItemsBytes(ms)
  }

  lemma MapItemsNext(ms: seq<MapItem>, m: MapItem)
    ensures MapItemsBytes(ms + [m]) == MapItemsBytes(ms) + MapItemBytes(m)
  {
    hide MapItemBytes;
    assert (ms + [m])[..|ms|] == ms;
  }

  predicate Sorted(ms: seq<MapItem>) {
    forall i, j | 0 <= i < j < |ms| :: ms[i].offset <= ms[j].offset
  }

  predicate StrictlySorted(ms: seq<MapItem>) {
    forall i, j | 0 <= i < j < |ms| :: ms[i].offset < ms[j].offset
  }

  /** The entry, unless it is empty. */
  function NonEmpty(m: MapItem): multiset<MapItem> {
    if m.size == 0 then multiset{} else multiset{m}
  }

  /** `MapItemQueue`: a priority queue whose top is an entry with the smallest offset. */
  class MapItemQueue {
    var items: seq<MapItem>

    constructor ()
      ensures items == []
    {
      items := [];
    }

    method AddIfNotEmpty(m: MapItem)
      modifies this
      ensures multiset(items) == multiset(old(items)) + NonEmpty(m)
    {
      if m.size != 0 {
        items := items + [m];
      }
    }

    /** `top` and `pop`. */
    method Pop() returns (m: MapItem)
      requires items != []
      modifies this
      ensures multiset(old(items)) == multiset(items) + multiset{m}
      ensures |items| == |old(items)| - 1
      ensures forall x | x in items :: m.offset <= x.offset
    {
      var best := 0;
      for i := 1 to |items|
        invariant best < i
        invariant forall j | 0 <= j < i :: items[best].offset <= items[j].offset
      {
        if items[i].offset < items[best].offset {
          best := i;
        }
      }
      m := items[best];
      assert items == items[..best] + [m] + items[best + 1..];
      items := items[..best] + items[best + 1..];
    }
  }

  /** Everything written so far comes before everything still queued. */
  predicate NotAfter(ms: seq<MapItem>, queued: seq<MapItem>) {
    forall x, y | x in ms && y in queued :: x.offset <= y.offset
  }

  lemma NextSmallest(ms: seq<MapItem>, before: seq<MapItem>, after: seq<MapItem>, m: MapItem)
    requires Sorted(ms) && NotAfter(ms, before) && multiset(before) == multiset(after) + multiset{m}
    requires forall x | x in after :: m.offset <= x.offset
    ensures Sorted(ms + [m]) && NotAfter(ms + [m], after)
    ensures multiset(ms + [m]) + multiset(after) == multiset(ms) + multiset(before)
  {
    assert m in multiset(before);
    forall x | x in after ensures x in before { assert x in multiset(before); }
  }

  /** `WriteMapItems`: what is written is the queue's entries, sorted by offset. */
  method WriteMapItems(stream: Stream, queue: MapItemQueue) returns (written: seq<MapItem>)
    requires stream.Valid() && ZeroAt(stream.image, stream.position, 4 + 12 * |queue.items|)
    modifies queue, stream, stream.section
    ensures multiset(written) == multiset(old(queue.items)) && Sorted(written)
    ensures stream.Valid() && stream.position == old(stream.position) + |MapListBytes(written)|
    ensures stream.image == Splice(old(stream.image), old(stream.position), MapListBytes(written))
  {
    hide *;
    var n := |queue.items|;
    ghost var img, pos := stream.image, stream.position;
    ZeroLess(img, pos, 4, 4 + 12 * n);
    ZeroAfterSplice(img, pos, U32s([n]), 12 * n);
    stream.Write(U32s([n]));
    ghost var img1, pos1 := stream.image, stream.position;
    written := [];
    NoMapItems(queue.items);
    SpliceNothing(img1, pos1);
    while queue.items != []
      invariant stream.Valid() && |written| + |queue.items| == n
      invariant multiset(written) + multiset(queue.items) == multiset(old(queue.items))
      invariant Sorted(written) && NotAfter(written, queue.items)
      invariant stream.position == pos1 + 12 * |written|
      invariant stream.image == Splice(img1, pos1, MapItemsBytes(written))
      decreases |queue.items|
    {
      ghost var before := queue.items;
      var m := queue.Pop();
      NextSmallest(written, before, queue.items, m);
      ZeroLess(img1, pos1, 12 * |written| + 12, 12 * n);
      ZeroAfterSplice(img1, pos1, MapItemsBytes(written), 12);
      stream.Write(MapItemBytes(m));
      SpliceSplice(img1, pos1, MapItemsBytes(written), MapItemBytes(m));
      MapItemsNext(written, m);
      written := written + [m];
    }
    SpliceSplice(img, pos, U32s([n]), MapItemsBytes(written));
    MapListIs(written);
  }

  lemma NoMapItems(queued: seq<MapItem>)
    ensures MapItemsBytes([]) == [] && Sorted([]) && NotAfter([], queued)
  {
  }

  lemma MapListIs(ms: seq<MapItem>)
    ensures MapListBytes(ms) == U32s([|ms|]) + MapItemsBytes(ms)
  {
    hide U32s, MapItemsBytes;
  }

  lemma SameHead(a: seq<MapItem>, b: seq<MapItem>)
    requires a != [] && b != [] && StrictlySorted(a) && Sorted(b) && multiset(a) == multiset(b)
    ensures a[0] == b[0]
  {
    assert a[0] in multiset(b) && b[0] in multiset(a);
  }

  lemma TailSorted(a: seq<MapItem>)
    requires a != []
    ensures StrictlySorted(a) ==> StrictlySorted(a[1..])
    ensures Sorted(a) ==> Sorted(a[1..])
  {
    assert forall i | 0 <= i < |a[1..]| :: a[1..][i] == a[i + 1];
  }

  lemma TailOf(a: seq<MapItem>)
    requires a != []
    ensures multiset(a[1..]) == multiset(a) - multiset{a[0]}
  {
    hide *;
    assert a == [a[0]] + a[1..];
  }

  /** There is one way only to sort entries with different offsets. */
  lemma {:induction false} SortedUnique(a: seq<MapItem>, b: seq<MapItem>)
    requires StrictlySorted(a) && Sorted(b) && multiset(a) == multiset(b)
    ensures a == b
  {
    hide *;
    assert |a| == |multiset(a)| == |multiset(b)| == |b|;
    if a != [] {
      SameHead(a, b);
      TailOf(a);
      TailOf(b);
      TailSorted(a);
      TailSorted(b);
      SortedUnique(a[1..], b[1..]);
      assert a == [a[0]] + a[1..] && b == [b[0]] + b[1..];
    }
  }
}
