/** Writing the items that are more than a run of words: code, class data, strings, hidden-API flags. */
module ItemWriters {
  import opened Bytes
  import opened Leb128
  import opened Streams
  import opened DexIr
  import opened CatchHandlers
  import opened Items

  // ------------------------------------------------------------------ runs of words

  lemma UlebsCons(x: UInt32, xs: seq<UInt32>)
    ensures Ulebs([x] + xs) == Uleb(x) + Ulebs(xs) && Ulebs([]) == []
  {
    hide Uleb;
    assert ([x] + xs)[1..] == xs;
  }

  lemma {:induction false} UlebsConcat(a: seq<UInt32>, b: seq<UInt32>)
    ensures Ulebs(a + b) == Ulebs(a) + Ulebs(b)
  {
    hide *;
    if a == [] {
      UlebsCons(0, []);
      assert a + b == b;
    } else {
      UlebsConcat(a[1..], b);
      UlebsCons(a[0], a[1..]);
      UlebsCons(a[0], a[1..] + b);
      assert a == [a[0]] + a[1..] && a + b == [a[0]] + (a[1..] + b);
    }
  }

  lemma {:induction false} UlebsNext(xs: seq<UInt32>, i: nat)
    requires i < |xs|
    ensures Ulebs(xs[..i + 1]) == Ulebs(xs[..i]) + Uleb(xs[i])
  {
    hide *;
    assert xs[..i + 1] == xs[..i] + [xs[i]] && [xs[i]] == [xs[i]] + [];
    UlebsConcat(xs[..i], [xs[i]]);
    UlebsCons(xs[i], []);
  }

  lemma U32sCons(x: int, xs: seq<int>)
    ensures U32s([x] + xs) == Le(4, x) + U32s(xs) && U32s([]) == []
  {
    hide Le;
    assert ([x] + xs)[1..] == xs;
  }

  lemma {:induction false} U32sConcat(a: seq<int>, b: seq<int>)
    ensures U32s(a + b) == U32s(a) + U32s(b)
  {
    hide *;
    if a == [] {
      U32sCons(0, []);
      assert a + b == b;
    } else {
      U32sConcat(a[1..], b);
      U32sCons(a[0], a[1..]);
      U32sCons(a[0], a[1..] + b);
      assert a == [a[0]] + a[1..] && a + b == [a[0]] + (a[1..] + b);
    }
  }

  lemma U16sCons(x: int, xs: seq<int>)
    ensures U16s([x] + xs) == Le(2, x) + U16s(xs) && U16s([]) == []
  {
    hide Le;
    assert ([x] + xs)[1..] == xs;
  }

  lemma {:induction false} U16sConcat(a: seq<int>, b: seq<int>)
    ensures U16s(a + b) == U16s(a) + U16s(b)
  {
    hide *;
    if a == [] {
      U16sCons(0, []);
      assert a + b == b;
    } else {
      U16sConcat(a[1..], b);
      U16sCons(a[0], a[1..]);
      U16sCons(a[0], a[1..] + b);
      assert a == [a[0]] + a[1..] && a + b == [a[0]] + (a[1..] + b);
    }
  }

  method WriteUlebs(stream: Stream, xs: seq<UInt32>)
    requires stream.Valid()
    modifies stream, stream.section
    ensures stream.Valid() && stream.position == old(stream.position) + |Ulebs(xs)|
    ensures stream.image == Splice(old(stream.image), old(stream.position), Ulebs(xs))
  {
    hide *;
    stream.Reached();
    ghost var img, pos := stream.image, stream.position;
    NoUlebs();
    SpliceNothing(img, pos);
    assert xs[..0] == [];
    for i := 0 to |xs|
      invariant stream.Valid() && stream.position == pos + |Ulebs(xs[..i])|
      invariant stream.image == Splice(img, pos, Ulebs(xs[..i]))
    {
      UlebsNext(xs, i);
      var _ := stream.WriteUleb128(xs[i]);
      SpliceSplice(img, pos, Ulebs(xs[..i]), Uleb(xs[i]));
    }
    assert xs[..|xs|] == xs;
  }

  lemma NoUlebs()
    ensures Ulebs([]) == []
  {
  }

  // ------------------------------------------------------------------ class data

  lemma {:induction false} FieldWordsAt(fs: seq<FieldItem>, prev: UInt32, i: nat)
    requires i < |fs|
    ensures FieldWords(fs, prev)[2 * i] == ToU32(fs[i].field - (if i == 0 then prev else fs[i - 1].field))
    ensures FieldWords(fs, prev)[2 * i + 1] == fs[i].accessFlags
  {
    hide ToU32;
    if i > 0 {
      FieldWordsAt(fs[1..], fs[0].field, i - 1);
      var t := FieldWords(fs[1..], fs[0].field);
      assert FieldWords(fs, prev) == [ToU32(fs[0].field - prev), fs[0].accessFlags] + t;
      assert FieldWords(fs, prev)[2 * i] == t[2 * (i - 1)] && FieldWords(fs, prev)[2 * i + 1] == t[2 * (i - 1) + 1];
    }
  }

  lemma {:induction false} MethodWordsAt(o: Offsets, ms: seq<MethodItem>, prev: UInt32, i: nat)
    requires i < |ms|
    ensures MethodWords(o, ms, prev)[3 * i] == ToU32(ms[i].method_ - (if i == 0 then prev else ms[i - 1].method_))
    ensures MethodWords(o, ms, prev)[3 * i + 1] == ms[i].accessFlags
    ensures MethodWords(o, ms, prev)[3 * i + 2] == ToU32(OffOrZero(o, CodeItems, ms[i].code))
  {
    hide ToU32, OffOrZero;
    if i > 0 {
      MethodWordsAt(o, ms[1..], ms[0].method_, i - 1);
      var t := MethodWords(o, ms[1..], ms[0].method_);
      assert MethodWords(o, ms, prev)
          == [ToU32(ms[0].method_ - prev), ms[0].accessFlags, ToU32(OffOrZero(o, CodeItems, ms[0].code))] + t;
      assert MethodWords(o, ms, prev)[3 * i] == t[3 * (i - 1)];
      assert MethodWords(o, ms, prev)[3 * i + 1] == t[3 * (i - 1) + 1];
      assert MethodWords(o, ms, prev)[3 * i + 2] == t[3 * (i - 1) + 2];
    }
  }

  /** Two, or three, more words of a run. */
  lemma UlebsNext2(ws: seq<UInt32>, i: nat)
    requires 2 * i + 2 <= |ws|
    ensures Ulebs(ws[..2 * (i + 1)]) == Ulebs(ws[..2 * i]) + Uleb(ws[2 * i]) + Uleb(ws[2 * i + 1])
  {
    hide *;
    UlebsNext(ws, 2 * i);
    UlebsNext(ws, 2 * i + 1);
  }

  lemma UlebsNext3(ws: seq<UInt32>, i: nat)
    requires 3 * i + 3 <= |ws|
    ensures Ulebs(ws[..3 * (i + 1)]) == Ulebs(ws[..3 * i]) + Uleb(ws[3 * i]) + Uleb(ws[3 * i + 1]) + Uleb(ws[3 * i + 2])
  {
    hide *;
    UlebsNext(ws, 3 * i);
    UlebsNext(ws, 3 * i + 1);
    UlebsNext(ws, 3 * i + 2);
  }

  method WriteEncodedFields(stream: Stream, fields: seq<FieldItem>)
    requires stream.Valid()
    modifies stream, stream.section
    ensures stream.Valid() && stream.position == old(stream.position) + |Ulebs(FieldWords(fields, 0))|
    ensures stream.image == Splice(old(stream.image), old(stream.position), Ulebs(FieldWords(fields, 0)))
  {
    hide *;
    stream.Reached();
    ghost var img, pos, ws := stream.image, stream.position, FieldWords(fields, 0);
    NoUlebs();
    SpliceNothing(img, pos);
    assert ws[..0] == [];
    var prevIndex: int := 0;
    for i := 0 to |fields|
      invariant prevIndex == if i == 0 then 0 else fields[i - 1].field
      invariant stream.Valid() && stream.position == pos + |Ulebs(ws[..2 * i])|
      invariant stream.image == Splice(img, pos, Ulebs(ws[..2 * i]))
    {
      FieldWordsAt(fields, 0, i);
      UlebsNext2(ws, i);
      var index: int := fields[i].field;
      var _ := stream.WriteUleb128(ToU32(index - prevIndex));
      var _ := stream.WriteUleb128(fields[i].accessFlags);
      prevIndex := index;
      SpliceSplice(img, pos, Ulebs(ws[..2 * i]), Uleb(ws[2 * i]));
      SpliceSplice(img, pos, Ulebs(ws[..2 * i]) + Uleb(ws[2 * i]), Uleb(ws[2 * i + 1]));
    }
    assert ws[..2 * |fields|] == ws;
  }

  method WriteEncodedMethods(stream: Stream, o: Offsets, methods: seq<MethodItem>)
    requires stream.Valid()
    modifies stream, stream.section
    ensures stream.Valid() && stream.position == old(stream.position) + |Ulebs(MethodWords(o, methods, 0))|
    ensures stream.image == Splice(old(stream.image), old(stream.position), Ulebs(MethodWords(o, methods, 0)))
  {
    hide *;
    stream.Reached();
    ghost var img, pos, ws := stream.image, stream.position, MethodWords(o, methods, 0);
    NoUlebs();
    SpliceNothing(img, pos);
    assert ws[..0] == [];
    var prevIndex: int := 0;
    for i := 0 to |methods|
      invariant prevIndex == if i == 0 then 0 else methods[i - 1].method_
      invariant stream.Valid() && stream.position == pos + |Ulebs(ws[..3 * i])|
      invariant stream.image == Splice(img, pos, Ulebs(ws[..3 * i]))
    {
      MethodWordsAt(o, methods, 0, i);
      UlebsNext3(ws, i);
      var index: int := methods[i].method_;
      var codeOff := ToU32(OffOrZero(o, CodeItems, methods[i].code));
      var _ := stream.WriteUleb128(ToU32(index - prevIndex));
      var _ := stream.WriteUleb128(methods[i].accessFlags);
      var _ := stream.WriteUleb128(codeOff);
      prevIndex := index;
      ghost var a, b, c, d := Ulebs(ws[..3 * i]), Uleb(ws[3 * i]), Uleb(ws[3 * i + 1]), Uleb(ws[3 * i + 2]);
      SpliceSplice(img, pos, a, b);
      SpliceSplice(img, pos, a + b, c);
      SpliceSplice(img, pos, a + b + c, d);
    }
    assert ws[..3 * |methods|] == ws;
  }

  lemma ClassDataParts(o: Offsets, c: ClassData)
    ensures Ulebs(ClassDataWords(o, c))
         == Ulebs(ClassDataCounts(c)) + Ulebs(FieldWords(c.staticFields, 0)) + Ulebs(FieldWords(c.instanceFields, 0))
            + Ulebs(MethodWords(o, c.directMethods, 0)) + Ulebs(MethodWords(o, c.virtualMethods, 0))
  {
    hide Ulebs, FieldWords, MethodWords, ClassDataCounts;
    var w0 := ClassDataCounts(c);
    var w1, w2 := FieldWords(c.staticFields, 0), FieldWords(c.instanceFields, 0);
    var w3, w4 := MethodWords(o, c.directMethods, 0), MethodWords(o, c.virtualMethods, 0);
    UlebsConcat(w0, w1);
    UlebsConcat(w0 + w1, w2);
    UlebsConcat(w0 + w1 + w2, w3);
    UlebsConcat(w0 + w1 + w2 + w3, w4);
  }

  method WriteClassData(stream: Stream, o: Offsets, c: ClassData)
    requires stream.Valid()
    modifies stream, stream.section
    ensures stream.Valid() && stream.position == old(stream.position) + |Ulebs(ClassDataWords(o, c))|
    ensures stream.image == Splice(old(stream.image), old(stream.position), Ulebs(ClassDataWords(o, c)))
  {
    hide *;
    ClassDataParts(o, c);
    ghost var img, pos := stream.image, stream.position;
    WriteUlebs(stream, ClassDataCounts(c));
    WriteEncodedFields(stream, c.staticFields);
    WriteEncodedFields(stream, c.instanceFields);
    WriteEncodedMethods(stream, o, c.directMethods);
    WriteEncodedMethods(stream, o, c.virtualMethods);
    ghost var w0, w1 := Ulebs(ClassDataCounts(c)), Ulebs(FieldWords(c.staticFields, 0));
    ghost var w2, w3 := Ulebs(FieldWords(c.instanceFields, 0)), Ulebs(MethodWords(o, c.directMethods, 0));
    SpliceSplice(img, pos, w0, w1);
    SpliceSplice(img, pos, w0 + w1, w2);
    SpliceSplice(img, pos, w0 + w1 + w2, w3);
    SpliceSplice(img, pos, w0 + w1 + w2 + w3, Ulebs(MethodWords(o, c.virtualMethods, 0)));
  }

  // ------------------------------------------------------------------ strings

  lemma CountStep(s: seq<Byte>, i: nat)
    requires i < |s|
    ensures var ic, rest := s[i], CountUtf8Chars(Drop(s, i));
            && (ic < 0x80 ==> rest == 1 + CountUtf8Chars(Drop(s, i + 1)))
            && (ic >= 0x80 && ic / 0x20 % 2 == 0 ==> rest == 1 + CountUtf8Chars(Drop(s, i + 2)))
            && (ic >= 0x80 && ic / 0x20 % 2 == 1 && ic / 0x10 % 2 == 0 ==> rest == 1 + CountUtf8Chars(Drop(s, i + 3)))
            && (ic >= 0x80 && ic / 0x20 % 2 == 1 && ic / 0x10 % 2 == 1 ==> rest == 2 + CountUtf8Chars(Drop(s, i + 4)))
  {
    var t := Drop(s, i);
    assert t[1..] == Drop(s, i + 1) && Drop(t, 2) == Drop(s, i + 2) && Drop(t, 3) == Drop(s, i + 3) && Drop(t, 4) == Drop(s, i + 4);
  }

  lemma CountEnds(s: seq<Byte>, i: nat)
    ensures i >= |s| ==> CountUtf8Chars(Drop(s, i)) == 0
    ensures Drop(s, 0) == s
  {
  }

  /** `CountModifiedUtf8Chars`: a character cut off by the end counts as if it were whole. */
  method CountModifiedUtf8Chars(s: seq<Byte>) returns (len: nat)
    ensures len == CountUtf8Chars(s)
  {
    hide CountUtf8Chars, Drop;
    len := 0;
    var i := 0;
    CountEnds(s, 0);
    while i < |s|
      invariant len + CountUtf8Chars(Drop(s, i)) == CountUtf8Chars(s)
    {
      CountStep(s, i);
      var ic := s[i];
      i, len := i + 1, len + 1;
      if ic < 0x80 {
        continue;
      }
      i := i + 1;
      if ic / 0x20 % 2 == 0 {
        continue;
      }
      i := i + 1;
      if ic / 0x10 % 2 == 0 {
        continue;
      }
      i, len := i + 1, len + 1;
    }
    CountEnds(s, i);
  }

  /** The terminating zero is skipped, not written. */
  method WriteStringData(stream: Stream, data: seq<Byte>)
    requires stream.Valid() && ZeroAt(stream.image, stream.position, |StringDataBytes(data)|)
    modifies stream, stream.section
    ensures stream.Valid() && stream.position == old(stream.position) + |StringDataBytes(data)|
    ensures stream.image == Splice(old(stream.image), old(stream.position), StringDataBytes(data))
  {
    hide *;
    var chars := CountModifiedUtf8Chars(data);
    var count := ToU32(chars);
    StringDataParts(data);
    ghost var img, pos := stream.image, stream.position;
    ZeroAfterSplice(img, pos, Uleb(count), |data| + 1);
    ZeroAfterSplice(Splice(img, pos, Uleb(count)), pos + |Uleb(count)|, data, 1);
    var _ := stream.WriteUleb128(count);
    stream.Write(data);
    SpliceSplice(img, pos, Uleb(count), data);
    SpliceZeros(stream.image, stream.position, 1);
    SpliceSplice(img, pos, Uleb(count) + data, Zeros(1));
    stream.Skip(1);
  }

  lemma StringDataParts(data: seq<Byte>)
    ensures StringDataBytes(data) == Uleb(ToU32(CountUtf8Chars(data))) + data + Zeros(1)
  {
    hide Uleb;
  }

  // ------------------------------------------------------------------ catch handlers

  lemma PairsCons(x: TypeAddrPair, xs: seq<TypeAddrPair>)
    ensures EncodePairs([x] + xs) == EncodePair(x) + EncodePairs(xs) && EncodePairs([]) == []
  {
    hide EncodePair;
    assert ([x] + xs)[1..] == xs;
  }

  lemma {:induction false} PairsConcat(a: seq<TypeAddrPair>, b: seq<TypeAddrPair>)
    ensures EncodePairs(a + b) == EncodePairs(a) + EncodePairs(b)
  {
    hide *;
    if a == [] {
      NoPairs();
      assert a + b == b;
    } else {
      PairsConcat(a[1..], b);
      PairsCons(a[0], a[1..]);
      PairsCons(a[0], a[1..] + b);
      assert a == [a[0]] + a[1..] && a + b == [a[0]] + (a[1..] + b);
    }
  }

  lemma {:induction false} PairsNext(ps: seq<TypeAddrPair>, i: nat)
    requires i < |ps|
    ensures EncodePairs(ps[..i + 1]) == EncodePairs(ps[..i]) + EncodePair(ps[i])
  {
    hide *;
    assert ps[..i + 1] == ps[..i] + [ps[i]] && [ps[i]] == [ps[i]] + [];
    PairsConcat(ps[..i], [ps[i]]);
    PairsCons(ps[i], []);
  }

  lemma NoPairs()
    ensures EncodePairs([]) == []
  {
  }

  method WritePair(stream: Stream, p: TypeAddrPair)
    requires stream.Valid()
    modifies stream, stream.section
    ensures stream.Valid() && stream.position == old(stream.position) + |EncodePair(p)|
    ensures stream.image == Splice(old(stream.image), old(stream.position), EncodePair(p))
  {
    hide Uleb, Splice;
    ghost var img, pos := stream.image, stream.position;
    SpliceNothing(img, pos);
    ghost var head := [];
    if p.typeIdx.Some? {
      head := Uleb(p.typeIdx.value);
      var _ := stream.WriteUleb128(p.typeIdx.value);
    }
    var _ := stream.WriteUleb128(p.address);
    SpliceSplice(img, pos, head, Uleb(p.address));
  }

  lemma HandlerParts(h: CatchHandler)
    ensures EncodeHandler(h) == Sleb(HandlerSize(h)) + EncodePairs(h.handlers)
  {
  }

  method WriteHandler(stream: Stream, h: CatchHandler)
    requires stream.Valid()
    modifies stream, stream.section
    ensures stream.Valid() && stream.position == old(stream.position) + |EncodeHandler(h)|
    ensures stream.image == Splice(old(stream.image), old(stream.position), EncodeHandler(h))
  {
    hide *;
    HandlerParts(h);
    ghost var size := Sleb(HandlerSize(h));
    var _ := stream.WriteSleb128(HandlerSize(h));
    ghost var img, pos := stream.image, stream.position;
    NoPairs();
    SpliceNothing(img, pos);
    assert h.handlers[..0] == [];
    for i := 0 to |h.handlers|
      invariant stream.Valid() && stream.position == pos + |EncodePairs(h.handlers[..i])|
      invariant stream.image == Splice(img, pos, EncodePairs(h.handlers[..i]))
    {
      PairsNext(h.handlers, i);
      WritePair(stream, h.handlers[i]);
      SpliceSplice(img, pos, EncodePairs(h.handlers[..i]), EncodePair(h.handlers[i]));
    }
    assert h.handlers[..|h.handlers|] == h.handlers;
    SpliceSplice(old(stream.image), old(stream.position), size, EncodePairs(h.handlers));
  }

  lemma PlacedStep(hs: seq<CatchHandler>, n: nat)
    requires n < |hs|
    ensures PlacedHandlers(hs, n + 1) == Splice(PlacedHandlers(hs, n), hs[n].listOffset, EncodeHandler(hs[n]))
  {
    hide EncodeHandler;
  }

  lemma PlacedFirst(hs: seq<CatchHandler>)
    ensures PlacedHandlers(hs, 0) == Uleb(ToU32(|hs|)) && HandlerBlock(hs) == PlacedHandlers(hs, |hs|)
  {
    hide EncodeHandler;
  }

  lemma {:induction false} PlacedGrows(hs: seq<CatchHandler>, m: nat, n: nat)
    requires m <= n <= |hs|
    ensures |PlacedHandlers(hs, m)| <= |PlacedHandlers(hs, n)|
    decreases n
  {
    hide *;
    if m < n {
      PlacedGrows(hs, m, n - 1);
      PlacedStep(hs, n - 1);
    }
  }

  lemma ExtendShort(img: seq<Byte>, n: nat)
    requires n <= |img|
    ensures Extend(img, n) == img
  {
  }

  lemma ZeroLess(img: seq<Byte>, p: nat, m: nat, n: nat)
    requires m <= n && ZeroAt(img, p, n)
    ensures ZeroAt(img, p, m)
  {
  }

  /** Each handler is written at its own list offset; the stream ends behind the furthest one. */
  method WriteHandlers(stream: Stream, hs: seq<CatchHandler>)
    requires stream.Valid() && ZeroAt(stream.image, stream.position, |HandlerBlock(hs)|)
    modifies stream, stream.section
    ensures stream.Valid() && stream.position == old(stream.position) + |HandlerBlock(hs)|
    ensures stream.image == Splice(old(stream.image), old(stream.position), HandlerBlock(hs))
  {
    hide *;
    PlacedFirst(hs);
    ghost var img := stream.image;
    var offset := stream.position;
    var length := stream.WriteUleb128(ToU32(|hs|));
    var maxOffset := offset + length;
    for i := 0 to |hs|
      invariant stream.Valid() && maxOffset == offset + |PlacedHandlers(hs, i)|
      invariant stream.image == Splice(img, offset, PlacedHandlers(hs, i))
    {
      PlacedStep(hs, i);
      PlacedGrows(hs, i + 1, |hs|);
      ZeroLess(img, offset, |PlacedHandlers(hs, i + 1)|, |HandlerBlock(hs)|);
      stream.Seek(offset + hs[i].listOffset);
      SpliceExtend(Splice(img, offset, PlacedHandlers(hs, i)), stream.position, EncodeHandler(hs[i]));
      SpliceInside(img, offset, PlacedHandlers(hs, i), hs[i].listOffset, EncodeHandler(hs[i]));
      WriteHandler(stream, hs[i]);
      maxOffset := if maxOffset < stream.position then stream.position else maxOffset;
    }
    ExtendShort(stream.image, maxOffset);
    stream.Seek(maxOffset);
  }

  // ------------------------------------------------------------------ code items

  lemma TriesStep(c: CodeItem, n: nat)
    requires n < |c.tries|
    ensures TryItemsBytes(c, n + 1) == TryItemsBytes(c, n) + TryItemBytes(c, c.tries[n])
  {
    hide TryItemBytes;
  }

  lemma NoTries(c: CodeItem)
    ensures TryItemsBytes(c, 0) == []
  {
  }

  /** The try items; a reserving pass writes whatever the uninitialised structure holds. */
  method WriteTryItems(stream: Stream, c: CodeItem, reserveOnly: bool) returns (ghost written: seq<Byte>)
    requires forall t | 0 <= t < |c.tries| :: c.tries[t].handler < |c.handlers|
    requires stream.Valid() && ZeroAt(stream.image, stream.position, 8 * |c.tries|)
    modifies stream, stream.section
    ensures stream.Valid() && stream.position == old(stream.position) + |written|
    ensures |written| == 8 * |c.tries|
    ensures !reserveOnly ==> written == TryItemsBytes(c, |c.tries|)
    ensures stream.image == Splice(old(stream.image), old(stream.position), written)
  {
    hide *;
    stream.Reached();
    ghost var img, pos := stream.image, stream.position;
    written := [];
    SpliceNothing(img, pos);
    NoTries(c);
    for i := 0 to |c.tries|
      invariant |written| == 8 * i
      invariant !reserveOnly ==> written == TryItemsBytes(c, i)
      invariant stream.Valid() && stream.position == pos + |written|
      invariant stream.image == Splice(img, pos, written)
    {
      var startAddr: UInt32, insnCount: UInt16, handlerOff: UInt16 := *, *, *;
      if !reserveOnly {
        startAddr := c.tries[i].startAddr;
        insnCount := c.tries[i].insnCount;
        handlerOff := c.handlers[c.tries[i].handler].listOffset;
      }
      var disk := TryBytes(startAddr, insnCount, handlerOff);
      TriesStep(c, i);
      SameTry(c, c.tries[i]);
      ZeroLess(img, pos, |written| + 8, 8 * |c.tries|);
      ZeroAfterSplice(img, pos, written, 8);
      stream.Write(disk);
      SpliceSplice(img, pos, written, disk);
      written := written + disk;
    }
  }

  lemma SameTry(c: CodeItem, t: TryItem)
    requires t.handler < |c.handlers|
    ensures TryItemBytes(c, t) == TryBytes(t.startAddr, t.insnCount, c.handlers[t.handler].listOffset)
  {
  }

  lemma PostParts(c: CodeItem)
    ensures TriesSize(c) == 0 ==> PostInstructionBytes(c) == []
    ensures TriesSize(c) != 0 ==>
              PostInstructionBytes(c) == Zeros(CodePadding(c)) + TryItemsBytes(c, |c.tries|) + HandlerBlock(c.handlers)
  {
    hide TryItemsBytes, HandlerBlock;
  }

  lemma PaddingAligns(c: CodeItem, p: nat)
    requires p % 4 == 0
    ensures AlignUp(p + 16 + 2 * |c.insns|, 4) == p + 16 + 2 * |c.insns| + CodePadding(c)
  {
    var n: int := 2 * |c.insns|;
    assert (p + 16 + n) % 4 == n % 4 && (n % 4 == 0 || n % 4 == 2);
  }

  /** `WriteCodeItemPostInstructionData`, for a code item at `start`. */
  method WritePostInstructionData(stream: Stream, c: CodeItem, ghost start: nat, reserveOnly: bool) returns (ghost written: seq<Byte>)
    requires forall t | 0 <= t < |c.tries| :: c.tries[t].handler < |c.handlers|
    requires start % 4 == 0 && stream.position == start + 16 + 2 * |c.insns|
    requires stream.Valid() && ZeroAt(stream.image, stream.position, |PostInstructionBytes(c)|)
    modifies stream, stream.section
    ensures stream.Valid() && stream.position == old(stream.position) + |written|
    ensures |written| == |PostInstructionBytes(c)|
    ensures !reserveOnly ==> written == PostInstructionBytes(c)
    ensures stream.image == Splice(old(stream.image), old(stream.position), written)
  {
    hide *;
    PostParts(c);
    stream.Reached();
    ghost var img, pos, block := stream.image, stream.position, HandlerBlock(c.handlers);
    written := [];
    SpliceNothing(img, pos);
    if TriesSize(c) != 0 {
      ghost var pad := Zeros(CodePadding(c));
      PaddingAligns(c, start);
      SpliceZeros(img, pos, |pad|) by { ZeroLess(img, pos, |pad|, |PostInstructionBytes(c)|); }
      ZeroAfterSplice(img, pos, pad, 8 * |c.tries| + |block|);
      stream.AlignTo(4);
      ghost var img1, pos1 := stream.image, stream.position;
      ZeroLess(img1, pos1, 8 * |c.tries|, 8 * |c.tries| + |block|);
      ghost var tries := WriteTryItems(stream, c, reserveOnly);
      ZeroAfterSplice(img1, pos1, tries, |block|);
      WriteHandlers(stream, c.handlers);
      SpliceSplice(img, pos, pad, tries);
      SpliceSplice(img, pos, pad + tries, block);
      written := pad + tries + block;
    }
  }

  lemma CodeParts(o: Offsets, c: CodeItem)
    ensures CodeItemBytes(o, c) == CodeHeaderBytes(o, c) + U16s(c.insns) + PostInstructionBytes(c)
  {
    hide CodeHeaderBytes, U16s, PostInstructionBytes;
  }

  lemma HeaderParts(o: Offsets, c: CodeItem)
    ensures CodeHeaderBytes(o, c)
         == CodeHeader(c.registersSize, c.insSize, c.outsSize, TriesSize(c), OffOrZero(o, DebugInfos, c.debugInfo), |c.insns|)
  {
    hide CodeHeader;
  }

  /** A code item from its aligned start; a reserving pass writes an uninitialised header. */
  method WriteCodeAt(stream: Stream, o: Offsets, c: CodeItem, reserveOnly: bool) returns (ghost written: seq<Byte>)
    requires forall t | 0 <= t < |c.tries| :: c.tries[t].handler < |c.handlers|
    requires stream.position % 4 == 0
    requires stream.Valid() && ZeroAt(stream.image, stream.position, |CodeItemBytes(o, c)|)
    modifies stream, stream.section
    ensures stream.Valid() && stream.position == old(stream.position) + |written|
    ensures |written| == |CodeItemBytes(o, c)|
    ensures !reserveOnly ==> written == CodeItemBytes(o, c)
    ensures stream.image == Splice(old(stream.image), old(stream.position), written)
  {
    hide *;
    CodeParts(o, c);
    HeaderParts(o, c);
    ghost var img, pos, insns, post := stream.image, stream.position, U16s(c.insns), |PostInstructionBytes(c)|;
    var registers: UInt16, ins: UInt16, outs: UInt16, tries: UInt16, debugOff: nat, size: nat := *, *, *, *, *, *;
    if !reserveOnly {
      registers, ins, outs, tries := c.registersSize, c.insSize, c.outsSize, TriesSize(c);
      debugOff := OffOrZero(o, DebugInfos, c.debugInfo);
      size := |c.insns|;
    }
    var disk := CodeHeader(registers, ins, outs, tries, debugOff, size);
    ZeroAfterSplice(img, pos, disk, |insns| + post);
    stream.Write(disk);
    ZeroAfterSplice(stream.image, stream.position, insns, post);
    stream.Write(U16s(c.insns));
    SpliceSplice(img, pos, disk, insns);
    ghost var tail := WritePostInstructionData(stream, c, pos, reserveOnly);
    SpliceSplice(img, pos, disk + insns, tail);
    written := disk + insns + tail;
  }
}
