/** The hidden-API section: a table of offsets followed by one stream of flags per class that has any. */
module HiddenApi {
  import opened Bytes
  import opened Leb128
  import opened Streams
  import opened DexIr
  import opened Items
  import opened ItemWriters
  import opened Reading

  lemma HiddenapiParts(fs: seq<HiddenapiFlags>)
    ensures HiddenapiBytes(fs) == U32s(HiddenapiHeader(fs)) + FlagStreams(fs, |fs|)
    ensures FlagStreams(fs, 0) == [] && FlagsEnd(fs, 0) == 4 * (|fs| + 1)
  {
    hide U32s, Ulebs;
  }

  lemma HeaderIs(fs: seq<HiddenapiFlags>, h: seq<int>)
    requires |h| == |fs| + 1 && h[0] == FlagsEnd(fs, |fs|)
    requires forall i | 0 <= i < |fs| :: h[i + 1] == if FlagsSize(fs[i]) == 0 then 0 else FlagsEnd(fs, i)
    ensures h == HiddenapiHeader(fs)
  {
    hide FlagsEnd, FlagsSize;
    forall i | 0 <= i < |h| ensures h[i] == HiddenapiHeader(fs)[i] {
      assert i > 0 ==> h[i - 1 + 1] == HiddenapiHeader(fs)[i];
    }
  }

  lemma HeaderAt(fs: seq<HiddenapiFlags>, i: nat)
    requires i < |fs|
    ensures HiddenapiHeader(fs)[i + 1] == if FlagsSize(fs[i]) == 0 then 0 else FlagsEnd(fs, i)
    ensures HiddenapiHeader(fs)[0] == FlagsEnd(fs, |fs|)
  {
    hide FlagsEnd, FlagsSize;
  }

  /** The bytes of one class. */
  function FlagBytes(f: HiddenapiFlags): (s: seq<Byte>)
    ensures |s| == FlagsSize(f)
  {
    if FlagsSize(f) == 0 then [] else Ulebs(f.value)
  }

  lemma StreamStep(fs: seq<HiddenapiFlags>, n: nat)
    requires n < |fs|
    ensures FlagStreams(fs, n + 1) == FlagStreams(fs, n) + FlagBytes(fs[n])
    ensures FlagsEnd(fs, n + 1) == FlagsEnd(fs, n) + FlagsSize(fs[n])
  {
    hide Ulebs, FlagsSize;
  }

  /** The offsets in the table are the places where the streams end up. */
  lemma {:induction false} StreamEnds(fs: seq<HiddenapiFlags>, n: nat)
    requires n <= |fs|
    ensures FlagsEnd(fs, n) == 4 * (|fs| + 1) + |FlagStreams(fs, n)|
  {
    hide *;
    HiddenapiParts(fs);
    if n > 0 {
      StreamEnds(fs, n - 1);
      StreamStep(fs, n - 1);
    }
  }

  lemma {:induction false} StreamsInside(fs: seq<HiddenapiFlags>, n: nat)
    requires n <= |fs|
    ensures FlagStreams(fs, n) <= FlagStreams(fs, |fs|)
    decreases |fs| - n
  {
    hide *;
    if n < |fs| {
      StreamStep(fs, n);
      StreamsInside(fs, n + 1);
    }
  }

  lemma SizeOrFlags(f: HiddenapiFlags)
    ensures FlagsSize(f) != 0 ==> f.Some? && FlagBytes(f) == Ulebs(f.value)
    ensures FlagsSize(f) == 0 ==> FlagBytes(f) == []
  {
    hide Ulebs;
  }

  /** `ItemSize`: the length of the encoded flags, counted as nothing when every flag is zero. */
  method ItemSize(f: HiddenapiFlags) returns (size: nat)
    ensures size == FlagsSize(f)
  {
    hide Uleb;
    size := 0;
    var hasNonZero := false;
    if f.Some? {
      assert f.value[..0] == [];
      for i := 0 to |f.value|
        invariant size == |Ulebs(f.value[..i])|
        invariant hasNonZero <==> exists j | 0 <= j < i :: f.value[j] != 0
      {
        UlebsNext(f.value, i);
        size := size + |Uleb(f.value[i])|;
        hasNonZero := hasNonZero || f.value[i] != 0;
      }
      assert f.value[..|f.value|] == f.value;
    }
    size := if hasNonZero then size else 0;
  }

  /** The table of the section: its total size and each class's offset. */
  method FillHeader(fs: seq<HiddenapiFlags>) returns (dataHeader: seq<int>)
    ensures dataHeader == HiddenapiHeader(fs)
  {
    hide *;
    HiddenapiParts(fs);
    dataHeader := [4 * (|fs| + 1)] + seq(|fs|, _ => 0);
    for i := 0 to |fs|
      invariant |dataHeader| == |fs| + 1 && dataHeader[0] == FlagsEnd(fs, i)
      invariant forall j | 0 <= j < i :: dataHeader[j + 1] == if FlagsSize(fs[j]) == 0 then 0 else FlagsEnd(fs, j)
    {
      StreamStep(fs, i);
      var size := ItemSize(fs[i]);
      dataHeader := dataHeader[i + 1 := if size == 0 then 0 else dataHeader[0]];
      dataHeader := dataHeader[0 := dataHeader[0] + size];
    }
    HeaderIs(fs, dataHeader);
  }

  /**
    * `WriteHiddenapiClassData` from the aligned start of the section. The assertions are the
    * source's checks that each stream begins at the offset announced for it and that the section
    * ends where its size says.
    */
  method WriteHiddenapiClassData(stream: Stream, fs: seq<HiddenapiFlags>)
    requires stream.Valid() && ZeroAt(stream.image, stream.position, |HiddenapiBytes(fs)|)
    modifies stream, stream.section
    ensures stream.Valid() && stream.position == old(stream.position) + |HiddenapiBytes(fs)|
    ensures stream.image == Splice(old(stream.image), old(stream.position), HiddenapiBytes(fs))
  {
    hide *;
    HiddenapiParts(fs);
    var start := stream.position;
    ghost var img := stream.image;
    var dataHeader := FillHeader(fs);
    ghost var table := U32s(dataHeader);
    ZeroLess(img, start, |table|, |HiddenapiBytes(fs)|);
    stream.Write(U32s(dataHeader));
    ghost var img1, pos1 := stream.image, stream.position;
    SpliceNothing(img1, pos1);
    for i := 0 to |fs|
      invariant stream.Valid() && stream.position == pos1 + |FlagStreams(fs, i)|
      invariant stream.image == Splice(img1, pos1, FlagStreams(fs, i))
    {
      StreamStep(fs, i);
      StreamEnds(fs, i);
      HeaderAt(fs, i);
      SizeOrFlags(fs[i]);
      EndNotZero(fs, i);
      assert FlagStreams(fs, i) + [] == FlagStreams(fs, i);
      if dataHeader[i + 1] != 0 {
        assert dataHeader[i + 1] == stream.position - start;
        WriteUlebs(stream, fs[i].value);
        SpliceSplice(img1, pos1, FlagStreams(fs, i), Ulebs(fs[i].value));
      }
    }
    StreamEnds(fs, |fs|);
    HeaderIsTotal(fs);
    assert stream.position - start == dataHeader[0];
    SpliceSplice(img, start, table, FlagStreams(fs, |fs|));
  }

  lemma HeaderIsTotal(fs: seq<HiddenapiFlags>)
    ensures HiddenapiHeader(fs)[0] == FlagsEnd(fs, |fs|)
  {
    hide FlagsEnd, FlagsSize;
  }

  // ------------------------------------------------------------------ reading the section back

  /** The builder's view of class `i`, which has `members` members: no offset, no flags. */
  function ReadFlags(section: seq<Byte>, i: nat, members: nat): Option<seq<UInt32>> {
    var off := Word(section, 4 * (i + 1));
    if off == 0 || off > |section| then None
    else
      var d := ReadUlebs(section[off..], members);
      if d.None? then None else Some(d.value.value)
  }

  /** `GetFlags` for member `j`. */
  function FlagOf(f: HiddenapiFlags, j: nat): UInt32 {
    if f.Some? && j < |f.value| then f.value[j] else 0
  }

  lemma {:induction false} FlagsStandAt(fs: seq<HiddenapiFlags>, i: nat, tail: seq<Byte>)
    requires i < |fs|
    ensures Holds(HiddenapiBytes(fs) + tail, FlagsEnd(fs, i), FlagBytes(fs[i]))
    ensures FlagsEnd(fs, i) <= FlagsEnd(fs, |fs|)
  {
    hide *;
    HiddenapiParts(fs);
    StreamStep(fs, i);
    StreamEnds(fs, i);
    StreamEnds(fs, |fs|);
    StreamsInside(fs, i);
    StreamsInside(fs, i + 1);
    var table, before, all := U32s(HiddenapiHeader(fs)), FlagStreams(fs, i), FlagStreams(fs, |fs|);
    var after := all[|FlagStreams(fs, i + 1)|..] + tail;
    assert HiddenapiBytes(fs) + tail == (table + before) + FlagBytes(fs[i]) + after;
    HoldsMiddle(table + before, FlagBytes(fs[i]), after);
  }

  lemma TableWord(fs: seq<HiddenapiFlags>, i: nat, tail: seq<Byte>)
    requires i < |fs| && FlagsEnd(fs, |fs|) < 0x1_0000_0000
    ensures Word(HiddenapiBytes(fs) + tail, 4 * (i + 1)) == if FlagsSize(fs[i]) == 0 then 0 else FlagsEnd(fs, i)
  {
    hide *;
    HiddenapiParts(fs);
    FlagsStandAt(fs, i, tail);
    HeaderAt(fs, i);
    var h := HiddenapiHeader(fs);
    HoldsFirst(U32s(h), FlagStreams(fs, |fs|) + tail);
    assert HiddenapiBytes(fs) + tail == U32s(h) + (FlagStreams(fs, |fs|) + tail);
    WordOfRun(HiddenapiBytes(fs) + tail, 0, h, i + 1);
    SmallWord(h[i + 1]);
  }

  lemma HoldsFirst(a: seq<Byte>, b: seq<Byte>)
    ensures Holds(a + b, 0, a)
  {
  }

  lemma SmallWord(x: int)
    requires 0 <= x < 0x1_0000_0000
    ensures ToU32(x) == x
  {
  }

  lemma AllZero(f: HiddenapiFlags, j: nat)
    requires FlagsSize(f) == 0
    ensures FlagOf(f, j) == 0
  {
    hide Ulebs;
    assert f.Some? && j < |f.value| && f.value[j] != 0 ==> |Ulebs(f.value)| >= |f.value|;
  }

  /**
    * What the builder reads back: the flags of a class that has a non-zero one, nothing for the
    * others. Either way every member has the flags it had.
    */
  lemma HiddenapiRoundTrip(fs: seq<HiddenapiFlags>, i: nat, members: nat, tail: seq<Byte>)
    requires i < |fs| && FlagsEnd(fs, |fs|) < 0x1_0000_0000
    requires fs[i].Some? ==> |fs[i].value| == members
    ensures ReadFlags(HiddenapiBytes(fs) + tail, i, members) == if FlagsSize(fs[i]) == 0 then None else fs[i]
    ensures forall j | 0 <= j < members :: FlagOf(ReadFlags(HiddenapiBytes(fs) + tail, i, members), j) == FlagOf(fs[i], j)
  {
    hide Word, HiddenapiBytes, FlagsSize, FlagsEnd, ReadUlebs, FlagBytes, Ulebs;
    var s := HiddenapiBytes(fs) + tail;
    TableWord(fs, i, tail);
    FlagsStandAt(fs, i, tail);
    SizeOrFlags(fs[i]);
    EndNotZero(fs, i);
    if FlagsSize(fs[i]) != 0 {
      HoldsRest(s, FlagsEnd(fs, i), FlagBytes(fs[i]));
      UlebsRoundTrip(fs[i].value, s[FlagsEnd(fs, i) + |FlagBytes(fs[i])|..]);
    } else {
      forall j | 0 <= j < members ensures FlagOf(fs[i], j) == 0 { AllZero(fs[i], j); }
    }
  }

  lemma EndNotZero(fs: seq<HiddenapiFlags>, i: nat)
    requires i <= |fs|
    ensures FlagsEnd(fs, i) >= 4
  {
    hide *;
    StreamEnds(fs, i);
  }
}
