/** The reader, on the bytes of each kind of item: it gives back what was encoded. */
module ItemDecoding {
  import opened Bytes
  import opened Leb128
  import opened EncodedValues
  import opened EncodedValueRoundTrip
  import opened DexIr
  import opened CatchHandlers
  import opened CatchHandlerLists
  import opened Items
  import opened ItemWriters
  import opened Reading
  import opened FileReader
  import Debug = DebugInfo

  const LIMIT: nat := 0x1_0000_0000

  lemma FromRest(f: seq<Byte>, p: nat, part: seq<Byte>)
    requires Holds(f, p, part)
    ensures From(f, p) == part + From(f, p + |part|)
  {
    HoldsRest(f, p, part);
  }

  lemma LimitIs()
    ensures LIMIT == 0x1_0000_0000
  {
  }

  lemma FitsWord(x: nat)
    requires x < LIMIT
    ensures ToU32(x) == x
  {
  }

  lemma FitsHalf(x: UInt16)
    ensures ToU16(x) == x
  {
  }

  /** Words of a run whose values fit. */
  lemma WordAt(f: seq<Byte>, p: nat, xs: seq<int>, i: nat)
    requires i < |xs| && Holds(f, p, U32s(xs)) && 0 <= xs[i] < LIMIT
    ensures Word(f, p + 4 * i) == xs[i]
  {
    hide *;
    WordOfRun(f, p, xs, i);
    FitsWord(xs[i]);
  }

  lemma {:induction false} HalvesDecode(f: seq<Byte>, p: nat, xs: seq<UInt16>)
    requires Holds(f, p, U16s(xs))
    ensures Halves(f, p, |xs|) == xs
    decreases |xs|
  {
    hide U16s, Holds, Half;
    if xs != [] {
      assert xs == [xs[0]] + xs[1..];
      U16sCons(xs[0], xs[1..]);
      HoldsConcat(f, p, Le(2, xs[0]), U16s(xs[1..]));
      HoldsWord(f, p, xs[0]);
      FitsHalf(xs[0]);
      HalvesDecode(f, p + 2, xs[1..]);
    }
  }

  // ------------------------------------------------------------------ simple items

  lemma TypeListDecode(f: seq<Byte>, off: nat, ts: seq<UInt16>)
    requires Holds(f, off, TypeListBytes(ts)) && |ts| < LIMIT
    ensures ReadTypeList(f, off) == ts
  {
    hide Halves, Word, Holds, U32s, U16s;
    HoldsConcat(f, off, U32s([|ts|]), U16s(ts));
    WordAt(f, off, [|ts|], 0);
    HalvesDecode(f, off + 4, ts);
  }

  lemma {:induction false} CStringDecode(s: seq<Byte>, rest: seq<Byte>)
    requires 0 !in s
    ensures CString(s + ([0] + rest)) == s
  {
    if s == [] {
      assert s + ([0] + rest) == [0] + rest;
    } else {
      assert (s + ([0] + rest))[1..] == s[1..] + ([0] + rest) && s == [s[0]] + s[1..];
      CStringDecode(s[1..], rest);
    }
  }

  lemma StringDecode(f: seq<Byte>, off: nat, s: seq<Byte>)
    requires Holds(f, off, StringDataBytes(s)) && 0 !in s
    ensures ReadStringData(f, off) == s
  {
    hide CString, ReadUleb, Holds, From, Uleb, CountUtf8Chars;
    var rest := From(f, off + |StringDataBytes(s)|);
    FromRest(f, off, StringDataBytes(s));
    var count := ToU32(CountUtf8Chars(s));
    assert From(f, off) == Uleb(count) + (s + ([0] + rest));
    UlebRoundTrip(count, s + ([0] + rest));
    CStringDecode(s, rest);
  }

  lemma ArrayDecode(f: seq<Byte>, off: nat, values: seq<EncodedValue>)
    requires Holds(f, off, EncodeArray(values)) && |values| < LIMIT && AllRepresentable(values)
    ensures ReadEncodedArray(f, off) == values
  {
    hide ReadArray, Holds, From, EncodeArray, AllRepresentable;
    FromRest(f, off, EncodeArray(values));
    ArrayRoundTrip(values, From(f, off + |EncodeArray(values)|));
  }

  lemma AnnotationDecode(f: seq<Byte>, off: nat, a: AnnotationItem)
    requires Holds(f, off, [a.visibility] + EncodeAnnotation(a.annotation)) && RepresentableAnnotation(a.annotation)
    ensures ReadAnnotationItem(f, off) == a
  {
    hide ReadAnnotation, From, EncodeAnnotation, RepresentableAnnotation;
    HoldsConcat(f, off, [a.visibility], EncodeAnnotation(a.annotation));
    assert f[off] == f[off..off + 1][0];
    hide Holds;
    FromRest(f, off + 1, EncodeAnnotation(a.annotation));
    AnnotationRoundTrip(a.annotation, From(f, off + 1 + |EncodeAnnotation(a.annotation)|));
  }

  lemma DebugDecode(f: seq<Byte>, off: nat, d: Debug.DebugItem)
    requires Debug.GoodItem(d) && Holds(f, off, Debug.ItemBytes(d))
    ensures ReadDebugInfo(f, off) == Debug.ItemBytes(d)
  {
    hide Debug.DebugRest, Debug.ItemBytes, Debug.GoodItem, Holds, From;
    var b := Debug.ItemBytes(d);
    var rest := From(f, off + |b|);
    FromRest(f, off, b);
    Debug.ItemSkipped(d, rest);
    assert (b + rest)[..|b|] == b;
  }

  // ------------------------------------------------------------------ code

  lemma {:induction false} TypedDecode(ps: seq<TypeAddrPair>, rest: seq<Byte>)
    requires forall i | 0 <= i < |ps| :: ps[i].typeIdx.Some? && ps[i].typeIdx.value != NO_INDEX_16
    ensures ReadTyped(EncodePairs(ps) + rest, |ps|) == Some(Decoded(ps, rest))
  {
    hide ReadUleb, Uleb, EncodePairs, EncodePair, TypeOrNull;
    if ps == [] {
      NoPairs();
      assert EncodePairs(ps) + rest == rest;
    } else {
      var p, more := ps[0], EncodePairs(ps[1..]) + rest;
      assert ps == [p] + ps[1..];
      PairsCons(p, ps[1..]);
      assert EncodePairs(ps) + rest == EncodePair(p) + more;
      TypedPair(p, more);
      UlebRoundTrip(p.typeIdx.value, Uleb(p.address) + more);
      UlebRoundTrip(p.address, more);
      TypeRead(p.typeIdx.value);
      TypedDecode(ps[1..], rest);
    }
  }

  lemma ClausesDecode(e: CatchHandler, rest: seq<Byte>)
    requires GoodEntry(e)
    ensures ReadClauses(EncodeHandler(e) + rest) == e.handlers
  {
    hide ReadTyped, ReadSleb, Sleb, EncodePairs, EncodePair, GoodEntry, ReadUleb, Uleb, EncodeHandler, HandlerSize, Typed;
    var n, ps := Typed(e), e.handlers;
    HandlerParts(e);
    SizeOfEntry(e);
    EntryKind(e);
    assert EncodeHandler(e) + rest == Sleb(HandlerSize(e)) + (EncodePairs(ps) + rest);
    SlebRoundTrip(HandlerSize(e), EncodePairs(ps) + rest);
    forall i | 0 <= i < |ps[..n]| ensures ps[..n][i].typeIdx.Some? && ps[..n][i].typeIdx.value != NO_INDEX_16 { EntryTyped(e, i); }
    if e.catchAll {
      var last := ps[n];
      EntryTyped(e, n);
      assert ps == ps[..n] + [last] && ps[n..] == [last] && [last] == [last] + [];
      PairsConcat(ps[..n], [last]);
      PairsCons(last, []);
      TypedPair(last, rest);
      assert EncodePairs(ps) + rest == EncodePairs(ps[..n]) + (Uleb(last.address) + rest);
      TypedDecode(ps[..n], Uleb(last.address) + rest);
      UlebRoundTrip(last.address, rest);
    } else {
      assert ps[..n] == ps;
      TypedDecode(ps, rest);
    }
  }

  function Clauses(c: CodeItem, t: TryItem): seq<TypeAddrPair> {
    if t.handler < |c.handlers| then c.handlers[t.handler].handlers else []
  }

  function TriesFrom(c: CodeItem, i: nat): seq<TryView>
    requires i <= |c.tries|
    decreases |c.tries| - i
  {
    if i == |c.tries| then []
    else [TryView(c.tries[i].startAddr, c.tries[i].insnCount, Clauses(c, c.tries[i]))] + TriesFrom(c, i + 1)
  }

  /** What the code's own bytes say: everything but the debug info, which is elsewhere. */
  ghost predicate ReadableCode(c: CodeItem) {
    && |c.tries| < 0x1_0000 && |c.insns| < LIMIT
    && (forall t | 0 <= t < |c.tries| :: c.tries[t].handler < |c.handlers|)
    && (c.tries != [] ==> exists es: seq<CatchHandler>, order: seq<nat> :: Canonical(es) && IsReordering(es, c.handlers, order))
  }

  lemma {:induction false} TriesStand(c: CodeItem, n: nat, i: nat)
    requires i < n <= |c.tries|
    ensures Holds(TryItemsBytes(c, n), 8 * i, TryItemBytes(c, c.tries[i]))
    decreases n
  {
    hide *;
    TriesStep(c, n - 1);
    if i < n - 1 {
      TriesStand(c, n - 1, i);
      HoldsInFront(TryItemsBytes(c, n - 1), TryItemBytes(c, c.tries[n - 1]), 8 * i, TryItemBytes(c, c.tries[i]));
    } else {
      var a, b := TryItemsBytes(c, n - 1), TryItemBytes(c, c.tries[n - 1]);
      assert a + b == a + b + [];
      HoldsMiddle(a, b, []);
    }
  }

  lemma TryDecode(f: seq<Byte>, p: nat, startAddr: UInt32, insnCount: UInt16, handlerOff: UInt16)
    requires Holds(f, p, TryBytes(startAddr, insnCount, handlerOff))
    ensures Word(f, p) == startAddr && Half(f, p + 4) == insnCount && Half(f, p + 6) == handlerOff
  {
    hide Holds, Word, Half, U32s, U16s;
    HoldsConcat(f, p, U32s([startAddr]), U16s([insnCount, handlerOff]));
    WordAt(f, p, [startAddr], 0);
    HalfOfRun(f, p + 4, [insnCount, handlerOff], 0);
    HalfOfRun(f, p + 4, [insnCount, handlerOff], 1);
    FitsHalf(insnCount);
    FitsHalf(handlerOff);
  }

  /** A handler of the code item is read at its offset in the handler list. */
  lemma HandlerDecode(f: seq<Byte>, base: nat, c: CodeItem, h: nat)
    requires ReadableCode(c) && c.tries != [] && h < |c.handlers| && Holds(f, base, HandlerBlock(c.handlers))
    ensures ReadClauses(From(f, base + c.handlers[h].listOffset)) == c.handlers[h].handlers
  {
    hide ReadClauses, From, Holds, Canonical, IsReordering, HandlerBlock, EncodeHandler, PlacedHandlers;
    var es, order :| Canonical(es) && IsReordering(es, c.handlers, order);
    var e := c.handlers[h];
    PlacedFirst(c.handlers);
    PlacedSoFar(es, c.handlers, order, |c.handlers|, h);
    HoldsPart(f, base, HandlerBlock(c.handlers), e.listOffset, EncodeHandler(e));
    SameSize(es, c.handlers, order);
    ReorderingAt(es, c.handlers, order, h, h);
    CanonicalAt(es, order[h]);
    FromRest(f, base + e.listOffset, EncodeHandler(e));
    ClausesDecode(e, From(f, base + e.listOffset + |EncodeHandler(e)|));
  }

  lemma {:induction false} TriesDecode(f: seq<Byte>, p: nat, base: nat, c: CodeItem, i: nat)
    requires ReadableCode(c) && c.tries != [] && i <= |c.tries|
    requires Holds(f, p, TryItemsBytes(c, |c.tries|)) && Holds(f, base, HandlerBlock(c.handlers))
    ensures ReadTries(f, p + 8 * i, |c.tries| - i, base) == TriesFrom(c, i)
    decreases |c.tries| - i
  {
    hide *;
    TriesFromIs(c, i);
    ReadTriesIs(f, p + 8 * i, |c.tries| - i, base);
    if i < |c.tries| {
      var t := c.tries[i];
      TryHasHandler(c, i);
      TriesStand(c, |c.tries|, i);
      HoldsPart(f, p, TryItemsBytes(c, |c.tries|), 8 * i, TryItemBytes(c, t));
      SameTry(c, t);
      TryDecode(f, p + 8 * i, t.startAddr, t.insnCount, c.handlers[t.handler].listOffset);
      HandlerDecode(f, base, c, t.handler);
      TriesDecode(f, p, base, c, i + 1);
    }
  }

  lemma TriesFromIs(c: CodeItem, i: nat)
    requires i <= |c.tries|
    ensures i == |c.tries| ==> TriesFrom(c, i) == []
    ensures i < |c.tries| ==>
              TriesFrom(c, i) == [TryView(c.tries[i].startAddr, c.tries[i].insnCount, Clauses(c, c.tries[i]))] + TriesFrom(c, i + 1)
  {
    hide Clauses;
  }

  lemma ReadTriesIs(f: seq<Byte>, p: nat, n: nat, base: nat)
    ensures n == 0 ==> ReadTries(f, p, n, base) == []
    ensures n > 0 ==> ReadTries(f, p, n, base)
                      == [TryView(Word(f, p), Half(f, p + 4), ReadClauses(From(f, base + Half(f, p + 6))))] + ReadTries(f, p + 8, n - 1, base)
  {
    hide Word, Half, ReadClauses, From;
  }

  lemma TryHasHandler(c: CodeItem, i: nat)
    requires ReadableCode(c) && i < |c.tries|
    ensures c.tries[i].handler < |c.handlers| && Clauses(c, c.tries[i]) == c.handlers[c.tries[i].handler].handlers
  {
    hide Canonical, IsReordering;
  }

  lemma CodeHeaderDecode(f: seq<Byte>, p: nat, registers: UInt16, ins: UInt16, outs: UInt16, tries: UInt16, debugOff: nat, insns: nat)
    requires Holds(f, p, CodeHeader(registers, ins, outs, tries, debugOff, insns)) && debugOff < LIMIT && insns < LIMIT
    ensures Half(f, p) == registers && Half(f, p + 2) == ins && Half(f, p + 4) == outs && Half(f, p + 6) == tries
    ensures Word(f, p + 8) == debugOff && Word(f, p + 12) == insns
  {
    hide Holds, Word, Half, U32s, U16s;
    var xs := [registers, ins, outs, tries];
    HoldsConcat(f, p, U16s(xs), U32s([debugOff, insns]));
    HalfOfRun(f, p, xs, 0);
    HalfOfRun(f, p, xs, 1);
    HalfOfRun(f, p, xs, 2);
    HalfOfRun(f, p, xs, 3);
    FitsHalf(registers);
    FitsHalf(ins);
    FitsHalf(outs);
    FitsHalf(tries);
    WordAt(f, p + 8, [debugOff, insns], 0);
    WordAt(f, p + 8, [debugOff, insns], 1);
  }

  lemma TriesFit(c: CodeItem)
    requires ReadableCode(c)
    ensures TriesSize(c) == |c.tries| && |c.insns| < LIMIT
  {
    hide Canonical, IsReordering;
  }

  /** A code item at a word, its debug-info offset aside. */
  lemma CodeDecode(f: seq<Byte>, p: nat, o: Offsets, c: CodeItem)
    requires ReadableCode(c) && p % 4 == 0 && Holds(f, p, CodeItemBytes(o, c))
    requires OffOrZero(o, DebugInfos, c.debugInfo) < LIMIT
    ensures var r, d := ReadCode(f, p), OffOrZero(o, DebugInfos, c.debugInfo);
            r == CodeView(c.registersSize, c.insSize, c.outsSize, if d == 0 then None else Some(ReadDebugInfo(f, d)), c.insns, TriesFrom(c, 0))
  {
    hide *;
    CodeParts(o, c);
    ItemWriters.HeaderParts(o, c);
    TriesFit(c);
    var d, n := OffOrZero(o, DebugInfos, c.debugInfo), |c.insns|;
    HoldsConcat(f, p, CodeHeaderBytes(o, c) + U16s(c.insns), PostInstructionBytes(c));
    HoldsConcat(f, p, CodeHeaderBytes(o, c), U16s(c.insns));
    CodeHeaderDecode(f, p, c.registersSize, c.insSize, c.outsSize, TriesSize(c), d, n);
    HalvesDecode(f, p + 16, c.insns);
    PostDecode(f, p, c);
    ReadCodeIs(f, p);
  }

  lemma ReadCodeIs(f: seq<Byte>, p: nat)
    ensures var n, tries := Word(f, p + 12), Half(f, p + 6);
            var at := AlignUp(p + 16 + 2 * n, 4);
            ReadCode(f, p) == CodeView(Half(f, p), Half(f, p + 2), Half(f, p + 4),
                                       if Word(f, p + 8) == 0 then None else Some(ReadDebugInfo(f, Word(f, p + 8))),
                                       Halves(f, p + 16, n), ReadTries(f, at, tries, at + 8 * tries))
  {
    hide Word, Half, Halves, ReadTries, ReadDebugInfo, AlignUp;
  }

  lemma NoTriesFrom(c: CodeItem, f: seq<Byte>, p: nat, base: nat)
    ensures c.tries == [] ==> TriesFrom(c, 0) == []
    ensures ReadTries(f, p, 0, base) == []
  {
  }

  lemma PostDecode(f: seq<Byte>, p: nat, c: CodeItem)
    requires ReadableCode(c) && p % 4 == 0 && Holds(f, p + 16 + 2 * |c.insns|, PostInstructionBytes(c))
    ensures var at := AlignUp(p + 16 + 2 * |c.insns|, 4);
            ReadTries(f, at, |c.tries|, at + 8 * |c.tries|) == TriesFrom(c, 0)
  {
    hide *;
    TriesFit(c);
    PostParts(c);
    var q, at := p + 16 + 2 * |c.insns|, AlignUp(p + 16 + 2 * |c.insns|, 4);
    NoTriesFrom(c, f, at, at);
    if c.tries != [] {
      PaddingAligns(c, p);
      var pad, ts, hs := Zeros(CodePadding(c)), TryItemsBytes(c, |c.tries|), HandlerBlock(c.handlers);
      HoldsConcat(f, q, pad + ts, hs);
      HoldsConcat(f, q, pad, ts);
      TriesDecode(f, at, at + 8 * |c.tries|, c, 0);
    }
  }
}
