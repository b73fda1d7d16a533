/** Writing the rows of the id tables and the items that are lists of words: one write a row, one write an element. */
module ListWriters {
  import opened Bytes
  import opened Streams
  import opened DexIr
  import opened Items
  import opened ItemWriters

  // ------------------------------------------------------------------ one more piece

  /** One more write behind `done`, which was written at `pos`. */
  method More(stream: Stream, part: seq<Byte>, ghost img: seq<Byte>, ghost pos: nat, ghost done: seq<Byte>, ghost room: nat)
    requires stream.Valid() && ZeroAt(img, pos, room) && |done| + |part| <= room
    requires stream.position == pos + |done| && stream.image == Splice(img, pos, done)
    modifies stream, stream.section
    ensures stream.Valid() && stream.position == pos + |done + part|
    ensures stream.image == Splice(img, pos, done + part)
  {
    hide *;
    ZeroLess(img, pos, |done| + |part|, room);
    ZeroAfterSplice(img, pos, done, |part|);
    stream.Write(part);
    SpliceSplice(img, pos, done, part);
  }

  lemma {:induction false} U32sNext(xs: seq<int>, i: nat)
    requires i < |xs|
    ensures U32s(xs[..i + 1]) == U32s(xs[..i]) + U32s([xs[i]])
  {
    hide *;
    assert xs[..i + 1] == xs[..i] + [xs[i]];
    U32sConcat(xs[..i], [xs[i]]);
  }

  lemma {:induction false} U16sNext(xs: seq<int>, i: nat)
    requires i < |xs|
    ensures U16s(xs[..i + 1]) == U16s(xs[..i]) + U16s([xs[i]])
  {
    hide *;
    assert xs[..i + 1] == xs[..i] + [xs[i]];
    U16sConcat(xs[..i], [xs[i]]);
  }

  // ------------------------------------------------------------------ the id tables

  /** A name's index, as the two halves in which the buffer holds it. */
  lemma NameHalves(a: UInt16, b: UInt16, name: UInt32)
    ensures U16s([a, b, ToU16(name), ToU16(name / 0x1_0000)]) == U16s([a, b]) + U32s([name])
  {
    hide Le;
    HalvesOfWord(name);
    assert [a, b, ToU16(name), ToU16(name / 0x1_0000)] == [a, b] + [ToU16(name), ToU16(name / 0x1_0000)];
    U16sConcat([a, b], [ToU16(name), ToU16(name / 0x1_0000)]);
    U16sCons(ToU16(name), [ToU16(name / 0x1_0000)]);
    U16sCons(ToU16(name / 0x1_0000), []);
    U32sCons(name, []);
    assert [ToU16(name)] + [ToU16(name / 0x1_0000)] == [ToU16(name), ToU16(name / 0x1_0000)];
    assert [ToU16(name / 0x1_0000)] + [] == [ToU16(name / 0x1_0000)] && [name] + [] == [name];
  }

  lemma LowHalf(x: UInt32)
    ensures ToU16(x) % 256 == x % 256 && ToU16(x) / 256 == x / 256 % 256
  {
    var q, r := x / 0x1_0000, x % 0x1_0000;
    DivUnique(x, 256, 256 * q + r / 256, r % 256);
    DivUnique(x / 256, 256, q, r / 256);
  }

  lemma HighHalf(x: UInt32)
    ensures ToU16(x / 0x1_0000) == x / 0x1_0000 && x / 0x1_0000 / 256 == x / 0x100_0000
  {
  }

  lemma HalvesOfWord(x: UInt32)
    ensures Le(2, ToU16(x)) + Le(2, ToU16(x / 0x1_0000)) == Le(4, x)
  {
    hide *;
    LowHalf(x);
    HighHalf(x);
    LeTwo(ToU16(x));
    LeTwo(ToU16(x / 0x1_0000));
    LeFour(x);
  }

  lemma LeFour(x: UInt32)
    ensures Le(4, x) == [x % 256, x / 256 % 256, x / 0x1_0000 % 256, x / 0x100_0000]
  {
    assert Le(4, x) == [x % 256] + Le(3, x / 256);
    assert Le(3, x / 256) == [x / 256 % 256] + Le(2, x / 256 / 256);
    assert x / 256 / 256 == x / 0x1_0000 && x / 0x1_0000 / 256 == x / 0x100_0000;
    LeTwo(x / 0x1_0000);
  }

  /** The kinds whose items are rows of fixed size. */
  predicate IsRow(k: Kind) {
    k == StringIds || k == TypeIds || k == ProtoIds || k == FieldIds || k == MethodIds || k == ClassDefs || k == CallSiteIds || k == MethodHandles
  }

  /** The buffer that is filled for a row. */
  method RowBuffer(ir: Header, o: Offsets, k: Kind, i: nat) returns (buffer: seq<Byte>)
    requires i < Count(ir, k) && IsRow(k)
    ensures buffer == ItemBytes(ir, o, k, i)
  {
    hide U16s, U32s, Off, OffOrZero;
    if k == StringIds {
      buffer := U32s([Off(o, StringDatas, ir.stringIds[i])]);
    } else if k == TypeIds {
      buffer := U32s([ir.typeIds[i]]);
    } else if k == ProtoIds {
      var p := ir.protoIds[i];
      buffer := U32s([p.shorty, p.returnType, OffOrZero(o, TypeLists, p.parameters)]);
    } else if k == FieldIds {
      var f := ir.fieldIds[i];
      NameHalves(f.classIdx, f.typeIdx, f.name);
      buffer := U16s([f.classIdx, f.typeIdx, ToU16(f.name), ToU16(f.name / 0x1_0000)]);
    } else if k == MethodIds {
      var m := ir.methodIds[i];
      NameHalves(m.classIdx, m.proto, m.name);
      buffer := U16s([m.classIdx, m.proto, ToU16(m.name), ToU16(m.name / 0x1_0000)]);
    } else if k == ClassDefs {
      buffer := U32s(ClassDefWords(o, ir.classDefs[i]));
    } else if k == CallSiteIds {
      buffer := U32s([Off(o, EncodedArrays, ir.callSiteIds[i])]);
    } else {
      var h := ir.methodHandles[i];
      buffer := U16s([h.handleType, 0, h.fieldOrMethod, 0]);
    }
  }

  // ------------------------------------------------------------------ lists

  method WriteTypeList(stream: Stream, ts: seq<UInt16>)
    requires stream.Valid() && ZeroAt(stream.image, stream.position, |TypeListBytes(ts)|)
    modifies stream, stream.section
    ensures stream.Valid() && stream.position == old(stream.position) + |TypeListBytes(ts)|
    ensures stream.image == Splice(old(stream.image), old(stream.position), TypeListBytes(ts))
  {
    hide *;
    stream.Reached();
    ghost var img, pos, room := stream.image, stream.position, |TypeListBytes(ts)|;
    TypeListParts(ts);
    SpliceNothing(img, pos);
    ghost var done := U32s([|ts|]);
    assert [] + done == done;
    More(stream, U32s([|ts|]), img, pos, [], room);
    for i := 0 to |ts|
      invariant stream.Valid() && done == U32s([|ts|]) + U16s(ts[..i]) && stream.position == pos + |done|
      invariant stream.image == Splice(img, pos, done)
    {
      U16sNext(ts, i);
      More(stream, U16s([ts[i]]), img, pos, done, room);
      done := done + U16s([ts[i]]);
      assert done == U32s([|ts|]) + U16s(ts[..i + 1]);
    }
    assert ts[..|ts|] == ts;
  }

  lemma TypeListParts(ts: seq<UInt16>)
    ensures TypeListBytes(ts) == U32s([|ts|]) + U16s(ts) && ts[..0] == [] && U16s(ts[..0]) == [] && U32s([|ts|]) + [] == U32s([|ts|])
  {
    hide U32s;
  }

  lemma SetParts(o: Offsets, set_: seq<nat>)
    ensures var ws := [|set_|] + OffsOf(o, Annotations, set_);
            && AnnotationSetBytes(o, set_) == U32s(ws) && |ws| == |set_| + 1 && ws[..1] == [|set_|]
            && forall i | 0 <= i < |set_| :: ws[i + 1] == Off(o, Annotations, set_[i])
  {
    hide U32s, Off;
  }

  method WriteAnnotationSet(stream: Stream, o: Offsets, set_: seq<nat>)
    requires stream.Valid() && ZeroAt(stream.image, stream.position, |AnnotationSetBytes(o, set_)|)
    modifies stream, stream.section
    ensures stream.Valid() && stream.position == old(stream.position) + |AnnotationSetBytes(o, set_)|
    ensures stream.image == Splice(old(stream.image), old(stream.position), AnnotationSetBytes(o, set_))
  {
    hide *;
    stream.Reached();
    ghost var img, pos, room := stream.image, stream.position, |AnnotationSetBytes(o, set_)|;
    ghost var ws := [|set_|] + OffsOf(o, Annotations, set_);
    SetParts(o, set_);
    SpliceNothing(img, pos);
    More(stream, U32s([|set_|]), img, pos, [], room);
    assert [] + U32s([|set_|]) == U32s(ws[..1]);
    for i := 0 to |set_|
      invariant stream.Valid() && stream.position == pos + |U32s(ws[..i + 1])|
      invariant stream.image == Splice(img, pos, U32s(ws[..i + 1]))
    {
      U32sNext(ws, i + 1);
      More(stream, U32s([Off(o, Annotations, set_[i])]), img, pos, U32s(ws[..i + 1]), room);
    }
    assert ws[..|ws|] == ws;
  }

  lemma RefParts(o: Offsets, refs: seq<Option<nat>>)
    ensures var ws := [|refs|] + OffsOrZero(o, AnnotationSets, refs);
            && AnnotationSetRefBytes(o, refs) == U32s(ws) && |ws| == |refs| + 1 && ws[..1] == [|refs|]
            && forall i | 0 <= i < |refs| :: ws[i + 1] == OffOrZero(o, AnnotationSets, refs[i])
  {
    hide U32s, OffOrZero;
  }

  method WriteAnnotationSetRefs(stream: Stream, o: Offsets, refs: seq<Option<nat>>)
    requires stream.Valid() && ZeroAt(stream.image, stream.position, |AnnotationSetRefBytes(o, refs)|)
    modifies stream, stream.section
    ensures stream.Valid() && stream.position == old(stream.position) + |AnnotationSetRefBytes(o, refs)|
    ensures stream.image == Splice(old(stream.image), old(stream.position), AnnotationSetRefBytes(o, refs))
  {
    hide *;
    stream.Reached();
    ghost var img, pos, room := stream.image, stream.position, |AnnotationSetRefBytes(o, refs)|;
    ghost var ws := [|refs|] + OffsOrZero(o, AnnotationSets, refs);
    RefParts(o, refs);
    SpliceNothing(img, pos);
    More(stream, U32s([|refs|]), img, pos, [], room);
    assert [] + U32s([|refs|]) == U32s(ws[..1]);
    for i := 0 to |refs|
      invariant stream.Valid() && stream.position == pos + |U32s(ws[..i + 1])|
      invariant stream.image == Splice(img, pos, U32s(ws[..i + 1]))
    {
      U32sNext(ws, i + 1);
      More(stream, U32s([OffOrZero(o, AnnotationSets, refs[i])]), img, pos, U32s(ws[..i + 1]), room);
    }
    assert ws[..|ws|] == ws;
  }

  // ------------------------------------------------------------------ directories

  lemma MembersCons(o: Offsets, k: Kind, m: MemberAnnotation, ms: seq<MemberAnnotation>)
    ensures MemberWords(o, k, [m] + ms) == [m.member, Off(o, k, m.set_)] + MemberWords(o, k, ms) && MemberWords(o, k, []) == []
  {
    hide Off;
    assert ([m] + ms)[1..] == ms;
  }

  lemma {:induction false} MembersNext(o: Offsets, k: Kind, ms: seq<MemberAnnotation>, i: nat)
    requires i < |ms|
    ensures MemberWords(o, k, ms[..i + 1]) == MemberWords(o, k, ms[..i]) + [ms[i].member, Off(o, k, ms[i].set_)]
  {
    hide *;
    assert ms[..i + 1] == [ms[0]] + ms[1..][..i];
    MembersCons(o, k, ms[0], ms[1..][..i]);
    if i == 0 {
      MembersCons(o, k, ms[0], []);
      assert ms[..0] == [] && ms[1..][..0] == [];
    } else {
      assert ms[..i] == [ms[0]] + ms[1..][..i - 1];
      MembersCons(o, k, ms[0], ms[1..][..i - 1]);
      MembersNext(o, k, ms[1..], i - 1);
    }
  }

  lemma MemberBytesNext(o: Offsets, k: Kind, ms: seq<MemberAnnotation>, i: nat)
    requires i < |ms|
    ensures U32s(MemberWords(o, k, ms[..i + 1])) == U32s(MemberWords(o, k, ms[..i])) + U32s([ms[i].member, Off(o, k, ms[i].set_)])
  {
    hide *;
    MembersNext(o, k, ms, i);
    U32sConcat(MemberWords(o, k, ms[..i]), [ms[i].member, Off(o, k, ms[i].set_)]);
  }

  lemma NoMembers(o: Offsets, k: Kind)
    ensures U32s(MemberWords(o, k, [])) == []
  {
  }

  lemma {:induction false} MembersShorter(o: Offsets, k: Kind, ms: seq<MemberAnnotation>, n: nat)
    requires n <= |ms|
    ensures |U32s(MemberWords(o, k, ms[..n]))| <= |U32s(MemberWords(o, k, ms))|
  {
    hide MemberWords, U32s;
  }

  /** The annotated members of one sort, each a pair of words, behind `done`. */
  method WriteMembers(stream: Stream, o: Offsets, k: Kind, members: Option<seq<MemberAnnotation>>,
                      ghost img: seq<Byte>, ghost pos: nat, ghost done: seq<Byte>, ghost room: nat)
    requires stream.Valid() && ZeroAt(img, pos, room) && |done| + |U32s(MemberWords(o, k, MembersOf(members)))| <= room
    requires stream.position == pos + |done| && stream.image == Splice(img, pos, done)
    modifies stream, stream.section
    ensures stream.Valid() && stream.position == pos + |done + U32s(MemberWords(o, k, MembersOf(members)))|
    ensures stream.image == Splice(img, pos, done + U32s(MemberWords(o, k, MembersOf(members))))
  {
    hide *;
    NoMembers(o, k);
    MembersAre(members);
    assert done + [] == done;
    if members.Some? {
      var ms := members.value;
      assert ms[..0] == [];
      for i := 0 to |ms|
        invariant stream.Valid() && stream.position == pos + |done + U32s(MemberWords(o, k, ms[..i]))|
        invariant stream.image == Splice(img, pos, done + U32s(MemberWords(o, k, ms[..i])))
      {
        ghost var before := U32s(MemberWords(o, k, ms[..i]));
        MemberBytesNext(o, k, ms, i);
        MembersShorter(o, k, ms, i + 1);
        var pair := U32s([ms[i].member, Off(o, k, ms[i].set_)]);
        More(stream, pair, img, pos, done + before, room);
        assert done + before + pair == done + (before + pair);
      }
      assert ms[..|ms|] == ms;
    }
  }

  lemma MembersAre(members: Option<seq<MemberAnnotation>>)
    ensures MembersOf(members) == if members.None? then [] else members.value
  {
  }

  function DirectoryHead(o: Offsets, d: AnnotationsDirectory): seq<int> {
    [OffOrZero(o, AnnotationSets, d.classAnnotation), |MembersOf(d.fields)|, |MembersOf(d.methods)|, |MembersOf(d.parameters)|]
  }

  lemma DirectoryParts(o: Offsets, d: AnnotationsDirectory)
    ensures U32s(DirectoryWords(o, d))
         == U32s(DirectoryHead(o, d)) + U32s(MemberWords(o, AnnotationSets, MembersOf(d.fields)))
            + U32s(MemberWords(o, AnnotationSets, MembersOf(d.methods))) + U32s(MemberWords(o, AnnotationSetRefs, MembersOf(d.parameters)))
  {
    hide U32s, MemberWords, OffOrZero;
    var h, f, m := DirectoryHead(o, d), MemberWords(o, AnnotationSets, MembersOf(d.fields)), MemberWords(o, AnnotationSets, MembersOf(d.methods));
    U32sConcat(h, f);
    U32sConcat(h + f, m);
    U32sConcat(h + f + m, MemberWords(o, AnnotationSetRefs, MembersOf(d.parameters)));
  }

  method WriteDirectory(stream: Stream, o: Offsets, d: AnnotationsDirectory)
    requires stream.Valid() && ZeroAt(stream.image, stream.position, |U32s(DirectoryWords(o, d))|)
    modifies stream, stream.section
    ensures stream.Valid() && stream.position == old(stream.position) + |U32s(DirectoryWords(o, d))|
    ensures stream.image == Splice(old(stream.image), old(stream.position), U32s(DirectoryWords(o, d)))
  {
    hide *;
    stream.Reached();
    ghost var img, pos, room := stream.image, stream.position, |U32s(DirectoryWords(o, d))|;
    DirectoryParts(o, d);
    SpliceNothing(img, pos);
    var head := U32s(DirectoryHead(o, d));
    assert [] + head == head;
    More(stream, head, img, pos, [], room);
    ghost var f := U32s(MemberWords(o, AnnotationSets, MembersOf(d.fields)));
    ghost var m := U32s(MemberWords(o, AnnotationSets, MembersOf(d.methods)));
    WriteMembers(stream, o, AnnotationSets, d.fields, img, pos, head, room);
    WriteMembers(stream, o, AnnotationSets, d.methods, img, pos, head + f, room);
    WriteMembers(stream, o, AnnotationSetRefs, d.parameters, img, pos, head + f + m, room);
  }
}
