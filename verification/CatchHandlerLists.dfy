/** Catch handler lists: how the builder collects them and how the writer lays them out again. */
module CatchHandlerLists {
  import opened Bytes
  import opened Leb128
  import opened Streams
  import opened DexIr
  import opened CatchHandlers
  import opened ItemWriters
  import opened Reading

  const NO_INDEX_16: nat := 0xffff

  // ------------------------------------------------------------------ canonical lists

  /** Typed clauses, and one clause without a type at the end exactly if there is a catch-all. */
  predicate GoodEntry(e: CatchHandler) {
    && (e.catchAll || |e.handlers| > 0)
    && |e.handlers| < 0x8000_0000
    && (e.catchAll ==> |e.handlers| > 0 && e.handlers[|e.handlers| - 1].typeIdx.None?)
    && forall i | 0 <= i < Typed(e) :: e.handlers[i].typeIdx.Some? && e.handlers[i].typeIdx.value != NO_INDEX_16
  }

  /** The number of typed clauses. */
  function Typed(e: CatchHandler): nat {
    if e.catchAll && |e.handlers| > 0 then |e.handlers| - 1 else |e.handlers|
  }

  function Entries(es: seq<CatchHandler>, n: nat): seq<Byte>
    requires n <= |es|
  {
    if n == 0 then [] else Entries(es, n - 1) + EncodeHandler(es[n - 1])
  }

  /** The list as it is on disk: the number of entries and the entries. */
  function HandlerList(es: seq<CatchHandler>): seq<Byte> {
    Uleb(ToU32(|es|)) + Entries(es, |es|)
  }

  function EntryOffset(es: seq<CatchHandler>, i: nat): nat
    requires i <= |es|
  {
    |Uleb(ToU32(|es|))| + |Entries(es, i)|
  }

  /** Contiguous entries, each knowing its own offset. */
  predicate Canonical(es: seq<CatchHandler>) {
    && |es| < 0x1_0000_0000
    && forall i | 0 <= i < |es| :: GoodEntry(es[i]) && es[i].listOffset == EntryOffset(es, i)
  }

  lemma CanonicalAt(es: seq<CatchHandler>, i: nat)
    requires Canonical(es) && i < |es|
    ensures GoodEntry(es[i]) && es[i].listOffset == EntryOffset(es, i) && |es| < 0x1_0000_0000
  {
    hide GoodEntry, EntryOffset;
  }

  lemma EntriesStep(es: seq<CatchHandler>, i: nat)
    requires i < |es|
    ensures Entries(es, i + 1) == Entries(es, i) + EncodeHandler(es[i])
    ensures EntryOffset(es, i + 1) == EntryOffset(es, i) + |EncodeHandler(es[i])| > EntryOffset(es, i)
    ensures EntryOffset(es, 0) == |Uleb(ToU32(|es|))|
    ensures |HandlerList(es)| == EntryOffset(es, |es|)
  {
    hide EncodeHandler, Uleb;
  }

  lemma {:induction false} OffsetsIncrease(es: seq<CatchHandler>, i: nat, j: nat)
    requires i < j <= |es|
    ensures EntryOffset(es, i) + |EncodeHandler(es[i])| <= EntryOffset(es, j)
    decreases j
  {
    hide *;
    EntriesStep(es, i);
    if i < j - 1 {
      OffsetsIncrease(es, i, j - 1);
      EntriesStep(es, j - 1);
    }
  }

  lemma {:induction false} EntriesPrefix(es: seq<CatchHandler>, i: nat, n: nat)
    requires i <= n <= |es|
    ensures Entries(es, i) <= Entries(es, n)
    decreases n
  {
    hide *;
    if i < n {
      EntriesPrefix(es, i, n - 1);
      EntriesStep(es, n - 1);
    }
  }

  lemma ListParts(es: seq<CatchHandler>)
    ensures HandlerList(es) == Uleb(ToU32(|es|)) + Entries(es, |es|)
    ensures EntryOffset(es, |es|) == |HandlerList(es)|
  {
    hide Uleb, Entries;
  }

  lemma OffsetIs(es: seq<CatchHandler>, i: nat)
    requires i <= |es|
    ensures EntryOffset(es, i) == |Uleb(ToU32(|es|))| + |Entries(es, i)|
  {
    hide Uleb, Entries;
  }

  /** An entry stands at its offset. */
  lemma EntryInList(es: seq<CatchHandler>, i: nat)
    requires i < |es|
    ensures Holds(HandlerList(es), EntryOffset(es, i), EncodeHandler(es[i]))
    ensures Holds(HandlerList(es), 0, Uleb(ToU32(|es|)))
  {
    hide *;
    ListParts(es);
    OffsetIs(es, i);
    EntriesStep(es, i);
    EntriesPrefix(es, i + 1, |es|);
    var head, all, e := Uleb(ToU32(|es|)), Entries(es, |es|), EncodeHandler(es[i]);
    var tail := all[|Entries(es, i + 1)|..];
    assert HandlerList(es) == (head + Entries(es, i)) + e + tail;
    HoldsMiddle(head + Entries(es, i), e, tail);
    assert HandlerList(es) == [] + head + all;
    HoldsMiddle([], head, all);
  }

  // ------------------------------------------------------------------ what the writer lays out

  /** `hs` is the entries of `es`, each once, in the order `order`. */
  predicate IsReordering(es: seq<CatchHandler>, hs: seq<CatchHandler>, order: seq<nat>) {
    && |hs| == |order| == |es|
    && (forall j | 0 <= j < |hs| :: order[j] < |es| && hs[j] == es[order[j]])
    && (forall i, j | 0 <= i < j < |order| :: order[i] != order[j])
  }

  lemma SpliceKeeps(s: seq<Byte>, p: nat, e: seq<Byte>, q: nat, part: seq<Byte>)
    requires Holds(s, q, part) && (p + |e| <= q || q + |part| <= p)
    ensures Holds(Splice(s, p, e), q, part)
  {
    SpliceBytes(s, p, e);
    var r := Splice(s, p, e);
    hide Splice;
    forall i | 0 <= i < |part| ensures r[q..q + |part|][i] == part[i] { assert s[q..q + |part|][i] == part[i]; }
  }

  lemma SpliceHolds(s: seq<Byte>, p: nat, e: seq<Byte>)
    ensures Holds(Splice(s, p, e), p, e)
  {
    SpliceBytes(s, p, e);
  }

  /** After `n` handlers: the count and those handlers stand in their places, nothing lies beyond the list. */
  lemma {:induction false} PlacedSoFar(es: seq<CatchHandler>, hs: seq<CatchHandler>, order: seq<nat>, n: nat, j: nat)
    requires Canonical(es) && IsReordering(es, hs, order) && n <= |hs| && j < n
    ensures Holds(PlacedHandlers(hs, n), hs[j].listOffset, EncodeHandler(hs[j]))
    decreases n
  {
    hide *;
    SameSize(es, hs, order);
    ReorderingAt(es, hs, order, n - 1, j);
    PlacedStep(hs, n - 1);
    if j < n - 1 {
      PlacedSoFar(es, hs, order, n - 1, j);
      EntriesApart(es, order[j], order[n - 1]);
      SpliceKeeps(PlacedHandlers(hs, n - 1), hs[n - 1].listOffset, EncodeHandler(hs[n - 1]), hs[j].listOffset, EncodeHandler(hs[j]));
    } else {
      SpliceHolds(PlacedHandlers(hs, n - 1), hs[j].listOffset, EncodeHandler(hs[j]));
    }
  }

  lemma ReorderingAt(es: seq<CatchHandler>, hs: seq<CatchHandler>, order: seq<nat>, i: nat, j: nat)
    requires IsReordering(es, hs, order) && i < |hs| && j < |hs|
    ensures order[i] < |es| && hs[i] == es[order[i]] && order[j] < |es| && hs[j] == es[order[j]]
    ensures i != j ==> order[i] != order[j]
    ensures |hs| == |es|
  {
  }

  lemma EntriesApart(es: seq<CatchHandler>, i: nat, j: nat)
    requires Canonical(es) && i < |es| && j < |es| && i != j
    ensures var p, q := es[i].listOffset, es[j].listOffset;
            p + |EncodeHandler(es[i])| <= q || q + |EncodeHandler(es[j])| <= p
  {
    hide *;
    CanonicalAt(es, i);
    CanonicalAt(es, j);
    if i < j { OffsetsIncrease(es, i, j); } else { OffsetsIncrease(es, j, i); }
  }

  lemma {:induction false} HeadSoFar(es: seq<CatchHandler>, hs: seq<CatchHandler>, order: seq<nat>, n: nat)
    requires Canonical(es) && IsReordering(es, hs, order) && n <= |hs|
    ensures Holds(PlacedHandlers(hs, n), 0, Uleb(ToU32(|es|))) && |PlacedHandlers(hs, n)| <= |HandlerList(es)|
  {
    hide *;
    SameSize(es, hs, order);
    PlacedFirst(hs);
    if n == 0 {
      HoldsAll(Uleb(ToU32(|es|)));
      ListParts(es);
    } else {
      HeadSoFar(es, hs, order, n - 1);
      PlacedStep(hs, n - 1);
      ReorderingAt(es, hs, order, n - 1, n - 1);
      var i := order[n - 1];
      CanonicalAt(es, i);
      OffsetIs(es, i);
      SpliceKeeps(PlacedHandlers(hs, n - 1), hs[n - 1].listOffset, EncodeHandler(hs[n - 1]), 0, Uleb(ToU32(|es|)));
      OffsetsIncrease(es, i, |es|);
      ListParts(es);
    }
  }

  lemma SameSize(es: seq<CatchHandler>, hs: seq<CatchHandler>, order: seq<nat>)
    requires IsReordering(es, hs, order)
    ensures |hs| == |es| == |order|
  {
  }

  lemma HoldsAll(s: seq<Byte>)
    ensures Holds(s, 0, s)
  {
  }

  /** A reordering leaves nothing out. */
  lemma {:induction false} EveryEntryPlaced(es: seq<CatchHandler>, hs: seq<CatchHandler>, order: seq<nat>, i: nat) returns (j: nat)
    requires IsReordering(es, hs, order) && i < |es|
    ensures j < |hs| && order[j] == i && hs[j] == es[i]
  {
    AllIndices(order, |es|, i);
    j :| 0 <= j < |order| && order[j] == i;
  }

  /** As many different numbers below `n` as `n` are all of them. */
  lemma {:induction false} AllIndices(order: seq<nat>, n: nat, i: nat)
    requires |order| == n && (forall j | 0 <= j < n :: order[j] < n) && (forall j, k | 0 <= j < k < n :: order[j] != order[k])
    requires i < n
    ensures i in order
  {
    if i !in order {
      var below := Below(n);
      var seen := Seen(order, n);
      assert order[..n] == order;
      CountSeen(order, n);
      assert seen <= below - {i};
      SubsetSize(seen, below - {i});
    }
  }

  lemma SubsetSize(a: set<nat>, b: set<nat>)
    requires a <= b
    ensures |a| <= |b|
  {
    if a != {} {
      var x :| x in a;
      SubsetSize(a - {x}, b - {x});
    }
  }

  function Below(n: nat): (s: set<nat>)
    ensures |s| == n && forall x: nat :: x in s <==> x < n
  {
    if n == 0 then {} else Below(n - 1) + {n - 1}
  }

  function Seen(order: seq<nat>, n: nat): (s: set<nat>)
    requires n <= |order|
    ensures forall x: nat :: x in s <==> x in order[..n]
  {
    if n == 0 then {}
    else
      assert order[..n] == order[..n - 1] + [order[n - 1]];
      Seen(order, n - 1) + {order[n - 1]}
  }

  lemma LastIsNew(order: seq<nat>, n: nat)
    requires 0 < n <= |order| && forall j, k | 0 <= j < k < n :: order[j] != order[k]
    ensures order[n - 1] !in Seen(order, n - 1)
  {
    hide Seen;
    assert forall j | 0 <= j < n - 1 :: order[..n - 1][j] == order[j] != order[n - 1];
  }

  lemma AddedOne(a: set<nat>, x: nat)
    requires x !in a
    ensures |a + {x}| == |a| + 1
  {
  }

  lemma SeenStep(order: seq<nat>, n: nat)
    requires n <= |order|
    ensures n == 0 ==> Seen(order, n) == {}
    ensures n > 0 ==> Seen(order, n) == Seen(order, n - 1) + {order[n - 1]}
  {
  }

  predicate AllDifferent(order: seq<nat>, n: nat)
    requires n <= |order|
  {
    forall j, k | 0 <= j < k < n :: order[j] != order[k]
  }

  lemma FewerDifferent(order: seq<nat>, n: nat)
    requires 0 < n <= |order| && AllDifferent(order, n)
    ensures AllDifferent(order, n - 1) && order[n - 1] !in Seen(order, n - 1)
  {
    LastIsNew(order, n);
  }

  lemma {:induction false} CountDifferent(order: seq<nat>, n: nat)
    requires n <= |order| && AllDifferent(order, n)
    ensures |Seen(order, n)| == n
  {
    hide *;
    SeenStep(order, n);
    if n > 0 {
      FewerDifferent(order, n);
      CountDifferent(order, n - 1);
      AddedOne(Seen(order, n - 1), order[n - 1]);
    }
  }

  lemma CountSeen(order: seq<nat>, n: nat)
    requires n <= |order| && forall j, k | 0 <= j < k < n :: order[j] != order[k]
    ensures |Seen(order, n)| == n
  {
    hide Seen;
    CountDifferent(order, n);
  }

  lemma {:induction false} PrefixAgrees(es: seq<CatchHandler>, s: seq<Byte>, i: nat)
    requires i <= |es| && Holds(s, 0, Uleb(ToU32(|es|)))
    requires forall k | 0 <= k < i :: Holds(s, EntryOffset(es, k), EncodeHandler(es[k]))
    ensures EntryOffset(es, i) <= |s| && s[..EntryOffset(es, i)] == Uleb(ToU32(|es|)) + Entries(es, i)
  {
    hide EncodeHandler, Uleb, EntryOffset;
    OffsetIs(es, i);
    if i == 0 {
      assert s[..|Uleb(ToU32(|es|))|] == Uleb(ToU32(|es|));
    } else {
      PrefixAgrees(es, s, i - 1);
      EntriesStep(es, i - 1);
      var p, e := EntryOffset(es, i - 1), EncodeHandler(es[i - 1]);
      assert Holds(s, p, e);
      assert s[..p + |e|] == s[..p] + s[p..p + |e|];
    }
  }

  /**
    * The writer, placing each handler at its own offset in whatever order they were collected,
    * reproduces the list and ends at its end.
    */
  lemma WriterReproducesList(es: seq<CatchHandler>, hs: seq<CatchHandler>, order: seq<nat>)
    requires Canonical(es) && IsReordering(es, hs, order)
    ensures HandlerBlock(hs) == HandlerList(es)
  {
    hide *;
    SameSize(es, hs, order);
    PlacedFirst(hs);
    var s := HandlerBlock(hs);
    HeadSoFar(es, hs, order, |hs|);
    forall i | 0 <= i < |es| ensures Holds(s, EntryOffset(es, i), EncodeHandler(es[i])) {
      var j := EveryEntryPlaced(es, hs, order, i);
      PlacedSoFar(es, hs, order, |hs|, j);
      CanonicalAt(es, i);
    }
    PrefixAgrees(es, s, |es|);
    ListParts(es);
    assert s[..|s|] == s;
  }

  // ------------------------------------------------------------------ reading an entry

  lemma PairsFrom(ps: seq<TypeAddrPair>, i: nat, rest: seq<Byte>)
    requires i < |ps|
    ensures EncodePairs(ps[i..]) + rest == EncodePair(ps[i]) + (EncodePairs(ps[i + 1..]) + rest)
  {
    hide *;
    assert ps[i..] == [ps[i]] + ps[i + 1..];
    PairsCons(ps[i], ps[i + 1..]);
  }

  lemma PairsDone(ps: seq<TypeAddrPair>, rest: seq<Byte>)
    ensures EncodePairs(ps[|ps|..]) + rest == rest && ps[0..] == ps
  {
    assert ps[|ps|..] == [];
  }

  lemma TypedPair(p: TypeAddrPair, rest: seq<Byte>)
    ensures p.typeIdx.Some? ==> EncodePair(p) + rest == Uleb(p.typeIdx.value) + (Uleb(p.address) + rest)
    ensures p.typeIdx.None? ==> EncodePair(p) + rest == Uleb(p.address) + rest
  {
    hide Uleb;
  }

  lemma SizeOfEntry(e: CatchHandler)
    requires GoodEntry(e)
    ensures HandlerSize(e) == if e.catchAll then -(Typed(e) as int) else Typed(e)
    ensures e.catchAll <==> HandlerSize(e) <= 0
  {
  }

  lemma EntryTyped(e: CatchHandler, i: nat)
    requires GoodEntry(e) && i < |e.handlers|
    ensures i < Typed(e) ==> e.handlers[i].typeIdx.Some? && e.handlers[i].typeIdx.value != NO_INDEX_16
    ensures i >= Typed(e) ==> e.catchAll && e.handlers[i].typeIdx.None?
    ensures Typed(e) == if e.catchAll then |e.handlers| - 1 else |e.handlers|
  {
  }

  /** `GetTypeIdOrNullPtr` on the 16 bits it takes. */
  function TypeOrNull(index: UInt32): Option<UInt16> {
    if ToU16(index) == NO_INDEX_16 then None else Some(ToU16(index))
  }

  lemma TypeRead(t: UInt16)
    requires t != NO_INDEX_16
    ensures TypeOrNull(t) == Some(t)
  {
  }

  /**
    * Reads one entry: the size, that many typed clauses, and the catch-all if the size is not
    * positive. Stops exactly behind the entry.
    */
  method ReadEntry(data: seq<Byte>, offset: UInt16, ghost e: CatchHandler, ghost rest: seq<Byte>) returns (h: CatchHandler, after: seq<Byte>)
    requires GoodEntry(e) && offset == e.listOffset && data == EncodeHandler(e) + rest
    ensures h == e && after == rest
  {
    hide *;
    ghost var ps := e.handlers;
    HandlerParts(e);
    SizeOfEntry(e);
    assert data == Sleb(HandlerSize(e)) + (EncodePairs(ps) + rest);
    SlebRoundTrip(HandlerSize(e), EncodePairs(ps) + rest);
    var d := ReadSleb(data).value;
    var size: int, s := d.value, d.rest;
    var hasCatchAll := size <= 0;
    if hasCatchAll {
      size := -size;
    }
    var pairs: seq<TypeAddrPair> := [];
    EntryKind(e);
    PairsDone(ps, rest);
    for i := 0 to size
      invariant pairs == ps[..i] && s == EncodePairs(ps[i..]) + rest
    {
      PairsFrom(ps, i, rest);
      EntryTyped(e, i);
      ghost var more := EncodePairs(ps[i + 1..]) + rest;
      TypedPair(ps[i], more);
      UlebRoundTrip(ps[i].typeIdx.value, Uleb(ps[i].address) + more);
      TypeRead(ps[i].typeIdx.value);
      var t := ReadUleb(s).value;
      UlebRoundTrip(ps[i].address, more);
      var a := ReadUleb(t.rest).value;
      pairs := pairs + [TypeAddrPair(TypeOrNull(t.value), a.value)];
      s := a.rest;
    }
    if hasCatchAll {
      ghost var n := |ps| - 1;
      EntryTyped(e, n);
      PairsFrom(ps, n, rest);
      TypedPair(ps[n], EncodePairs(ps[n + 1..]) + rest);
      UlebRoundTrip(ps[n].address, EncodePairs(ps[n + 1..]) + rest);
      var a := ReadUleb(s).value;
      pairs := pairs + [TypeAddrPair(None, a.value)];
      s := a.rest;
    }
    h := CatchHandler(hasCatchAll, offset, pairs);
    after := s;
  }

  lemma EntryKind(e: CatchHandler)
    requires GoodEntry(e)
    ensures Typed(e) <= |e.handlers| && (e.catchAll ==> |e.handlers| > 0 && Typed(e) == |e.handlers| - 1)
    ensures !e.catchAll ==> Typed(e) == |e.handlers|
  {
  }

  // ------------------------------------------------------------------ the builder

  /** `hs` is some of the entries, none twice: `order` says which. */
  predicate Collected(es: seq<CatchHandler>, hs: seq<CatchHandler>, order: seq<nat>) {
    && |hs| == |order|
    && (forall j | 0 <= j < |hs| :: order[j] < |es| && hs[j] == es[order[j]])
    && (forall i, j | 0 <= i < j < |order| :: order[i] != order[j])
  }

  /** Whether a handler with this offset is already in the list, and where. */
  method FindHandler(hs: seq<CatchHandler>, offset: UInt16) returns (found: Option<nat>)
    ensures found.Some? ==> found.value < |hs| && hs[found.value].listOffset == offset
    ensures found.None? ==> forall j | 0 <= j < |hs| :: hs[j].listOffset != offset
  {
    found := None;
    for i := 0 to |hs|
      invariant forall j | 0 <= j < i :: hs[j].listOffset != offset
    {
      if hs[i].listOffset == offset {
        found := Some(i);
        return;
      }
    }
  }

  /** An entry's offset is found exactly if the entry has been collected. */
  lemma FoundIffCollected(es: seq<CatchHandler>, hs: seq<CatchHandler>, order: seq<nat>, k: nat)
    requires Canonical(es) && Collected(es, hs, order) && k < |es|
    ensures (exists j | 0 <= j < |hs| :: hs[j].listOffset == es[k].listOffset) <==> k in order
  {
    hide Canonical;
    if k in order {
      var j :| 0 <= j < |order| && order[j] == k;
      assert hs[j].listOffset == es[k].listOffset;
    }
    forall j | 0 <= j < |hs| && hs[j].listOffset == es[k].listOffset ensures order[j] == k { SameOffset(es, order[j], k); }
  }

  lemma SameOffset(es: seq<CatchHandler>, i: nat, k: nat)
    requires Canonical(es) && i < |es| && k < |es| && es[i].listOffset == es[k].listOffset
    ensures i == k
  {
    hide *;
    if i != k { EntriesApart(es, i, k); }
  }

  lemma CollectedMore(es: seq<CatchHandler>, hs: seq<CatchHandler>, order: seq<nat>, k: nat)
    requires Collected(es, hs, order) && k < |es| && k !in order
    ensures Collected(es, hs + [es[k]], order + [k])
  {
  }

  lemma NoneCollected(es: seq<CatchHandler>)
    ensures Collected(es, [], [])
  {
  }

  /** No more handlers than entries, and with all of them the list is a reordering. */
  lemma CollectedSize(es: seq<CatchHandler>, hs: seq<CatchHandler>, order: seq<nat>)
    requires Collected(es, hs, order)
    ensures |hs| <= |es| && |hs| == |order|
    ensures |hs| == |es| ==> IsReordering(es, hs, order)
    ensures (forall k | 0 <= k < |es| :: k in order) ==> |hs| == |es|
  {
    var seen := Seen(order, |order|);
    assert order[..|order|] == order;
    CountSeen(order, |order|);
    SubsetSize(seen, Below(|es|));
    if forall k | 0 <= k < |es| :: k in order {
      forall k: nat | k < |es| ensures k in seen {
        assert k in order;
        var j :| 0 <= j < |order| && order[j] == k;
      }
      SubsetSize(Below(|es|), seen);
    }
  }

  /** An entry, from its offset to whatever follows. */
  lemma EntryAt(es: seq<CatchHandler>, rest: seq<Byte>, k: nat)
    requires Canonical(es) && k < |es|
    ensures var data, p, q := HandlerList(es) + rest, EntryOffset(es, k), EntryOffset(es, k + 1);
            && p == es[k].listOffset && GoodEntry(es[k])
            && p <= q <= |data| && data[p..] == EncodeHandler(es[k]) + data[q..]
  {
    hide *;
    CanonicalAt(es, k);
    EntryInList(es, k);
    EntriesStep(es, k);
    OffsetsIncrease(es, k, |es|);
    ListParts(es);
    var data := HandlerList(es) + rest;
    HoldsAll(HandlerList(es));
    HoldsInFront(HandlerList(es), rest, EntryOffset(es, k), EncodeHandler(es[k]));
    HoldsRest(data, EntryOffset(es, k), EncodeHandler(es[k]));
  }

  /** Handlers named by try items, in the order of the try items. */
  method CollectFromTries(data: seq<Byte>, offsets: seq<UInt16>, ghost es: seq<CatchHandler>, ghost rest: seq<Byte>, ghost entryOf: seq<nat>)
    returns (hs: seq<CatchHandler>, tries: seq<nat>, ghost order: seq<nat>)
    requires Canonical(es) && data == HandlerList(es) + rest
    requires |entryOf| == |offsets| && forall t | 0 <= t < |offsets| :: entryOf[t] < |es| && offsets[t] == es[entryOf[t]].listOffset
    ensures Collected(es, hs, order)
    ensures |tries| == |offsets| && forall t | 0 <= t < |tries| :: tries[t] < |hs| && hs[tries[t]].listOffset == offsets[t]
  {
    hide *;
    hs, tries, order := [], [], [];
    NoneCollected(es);
    for t := 0 to |offsets|
      invariant Collected(es, hs, order)
      invariant |tries| == t && forall u | 0 <= u < t :: tries[u] < |hs| && hs[tries[u]].listOffset == offsets[u]
    {
      ghost var k := entryOf[t];
      var found := FindHandler(hs, offsets[t]);
      FoundIffCollected(es, hs, order, k);
      if found.Some? {
        tries := tries + [found.value];
      } else {
        EntryAt(es, rest, k);
        var h, _ := ReadEntry(data[offsets[t]..], offsets[t], es[k], data[EntryOffset(es, k + 1)..]);
        CollectedMore(es, hs, order, k);
        tries := tries + [|hs|];
        hs, order := hs + [h], order + [k];
      }
    }
  }

  /** The walk over the list that adds the handlers no try item names; it takes at most as many steps as there are entries. */
  method CollectRest(data: seq<Byte>, before: seq<CatchHandler>, ghost es: seq<CatchHandler>, ghost rest: seq<Byte>, ghost order0: seq<nat>)
    returns (hs: seq<CatchHandler>, steps: nat, ghost order: seq<nat>)
    requires Canonical(es) && data == HandlerList(es) + rest && Collected(es, before, order0)
    ensures IsReordering(es, hs, order) && before <= hs && steps <= |es|
  {
    hide *;
    hs, order, steps := before, order0, 0;
    ListParts(es);
    CanonicalSize(es);
    assert data == Uleb(ToU32(|es|)) + (Entries(es, |es|) + rest);
    UlebRoundTrip(ToU32(|es|), Entries(es, |es|) + rest);
    var d := ReadUleb(data).value;
    var handlersSize, s := d.value, d.rest;
    NoEntriesYet(es, data);
    CollectedSize(es, hs, order);
    while handlersSize > |hs|
      invariant steps <= |es| && EntryOffset(es, steps) <= |data| && s == data[EntryOffset(es, steps)..]
      invariant Collected(es, hs, order) && before <= hs
      invariant forall k | 0 <= k < steps :: k in order
      decreases |es| - steps
    {
      CollectedSize(es, hs, order);
      ghost var k := steps;
      EntryAt(es, rest, k);
      var offset := ToU16(|data| - |s|);
      SmallOffset(es[k].listOffset);
      var found := FindHandler(hs, offset);
      FoundIffCollected(es, hs, order, k);
      var h, after := ReadEntry(s, offset, es[k], data[EntryOffset(es, k + 1)..]);
      s := after;
      steps := steps + 1;
      if found.Some? {
        continue;
      }
      CollectedMore(es, hs, order, k);
      hs, order := hs + [h], order + [k];
    }
    CollectedSize(es, hs, order);
  }

  lemma CanonicalSize(es: seq<CatchHandler>)
    requires Canonical(es)
    ensures ToU32(|es|) == |es|
  {
    hide GoodEntry, EntryOffset;
  }

  lemma NoEntriesYet(es: seq<CatchHandler>, data: seq<Byte>)
    ensures EntryOffset(es, 0) == |Uleb(ToU32(|es|))|
  {
    hide Uleb;
  }

  lemma SmallOffset(x: UInt16)
    ensures ToU16(x) == x
  {
  }

  /**
    * `DedupeOrCreateCodeItem`'s handler list: one handler per entry, each try item pointing at the
    * one at its offset.
    */
  method BuildHandlers(data: seq<Byte>, offsets: seq<UInt16>, ghost es: seq<CatchHandler>, ghost rest: seq<Byte>, ghost entryOf: seq<nat>)
    returns (hs: seq<CatchHandler>, tries: seq<nat>, steps: nat, ghost order: seq<nat>)
    requires Canonical(es) && data == HandlerList(es) + rest
    requires |entryOf| == |offsets| && forall t | 0 <= t < |offsets| :: entryOf[t] < |es| && offsets[t] == es[entryOf[t]].listOffset
    ensures IsReordering(es, hs, order) && steps <= |es|
    ensures |tries| == |offsets| && forall t | 0 <= t < |tries| :: tries[t] < |hs| && hs[tries[t]].listOffset == offsets[t]
    ensures HandlerBlock(hs) == HandlerList(es)
  {
    hide *;
    var named;
    ghost var order0;
    named, tries, order0 := CollectFromTries(data, offsets, es, rest, entryOf);
    hs, steps, order := CollectRest(data, named, es, rest, order0);
    WriterReproducesList(es, hs, order);
  }
}
