/** The shared data section of compact dex files: items written once, and found again by content. */
module CompactData {
  import opened Bytes
  import opened Streams
  import opened Reading
  import opened ItemWriters

  // ------------------------------------------------------------------ as values

  /** A range of the section that was written for an item, and the offset given to the item. */
  datatype Range = Range(start: nat, length: nat, offset: nat)

  /** The data section as far as it has been reached, the stream's position, and the dedupe map. */
  datatype Store = Store(image: seq<Byte>, pos: nat, ranges: seq<Range>)

  datatype Added = Added(store: Store, offset: nat)

  predicate SameContent(image: seq<Byte>, r: Range, start: nat, length: nat) {
    && r.length == length && r.start + length <= |image| && start + length <= |image|
    && image[r.start..r.start + length] == image[start..start + length]
  }

  /** The place in the map of a range with the same content, or the map's size. */
  function FindRange(image: seq<Byte>, ranges: seq<Range>, start: nat, length: nat): (i: nat)
    ensures i <= |ranges|
    ensures i < |ranges| ==> SameContent(image, ranges[i], start, length)
    ensures forall j | 0 <= j < i :: !SameContent(image, ranges[j], start, length)
  {
    if ranges == [] || SameContent(image, ranges[0], start, length) then 0
    else
      var i := FindRange(image, ranges[1..], start, length);
      assert forall j | 0 < j < i + 1 :: ranges[j] == ranges[1..][j - 1];
      i + 1
  }

  /**
    * An item written at the position, aligned to `a`. If the same bytes, padding included, were
    * written before, the item gets that item's offset, if aligned, and its bytes are cleared again.
    */
  function Add(st: Store, a: Alignment, content: seq<Byte>): Added {
    var at := AlignUp(st.pos, a);
    var image, length := Splice(st.image, at, content), at + |content| - st.pos;
    Decide(st, a, image, at, length, FindRange(image, st.ranges, st.pos, length))
  }

  /** With the item written, and the same content found at place `i` of the map, or not at all. */
  function Decide(st: Store, a: Alignment, image: seq<Byte>, at: nat, length: nat, i: nat): Added
    requires i <= |st.ranges|
  {
    if i == |st.ranges| then Added(Store(image, st.pos + length, st.ranges + [Range(st.pos, length, at)]), at)
    else if st.ranges[i].offset != 0 && st.ranges[i].offset % a == 0 then
      Added(Store(Splice(image, st.pos, Zeros(length)), st.pos, st.ranges), st.ranges[i].offset)
    else Added(Store(image, st.pos + length, st.ranges), at)
  }

  /** The three ways an item can end. */
  lemma AddCases(st: Store, a: Alignment, content: seq<Byte>)
    ensures var start, at := st.pos, AlignUp(st.pos, a);
            var end, image := at + |content|, Splice(st.image, at, content);
            var i := FindRange(image, st.ranges, start, end - start);
            var r := Add(st, a, content);
            && (i == |st.ranges| ==> r == Added(Store(image, end, st.ranges + [Range(start, end - start, at)]), at))
            && (i < |st.ranges| && st.ranges[i].offset != 0 && st.ranges[i].offset % a == 0 ==>
                  r == Added(Store(Splice(image, start, Zeros(end - start)), start, st.ranges), st.ranges[i].offset))
            && (i < |st.ranges| && !(st.ranges[i].offset != 0 && st.ranges[i].offset % a == 0) ==>
                  r == Added(Store(image, end, st.ranges), at))
  {
    hide *;
    var at := AlignUp(st.pos, a);
    var image, length := Splice(st.image, at, content), at + |content| - st.pos;
    AddIs(st, a, content);
    DecideIs(st, a, image, at, length, FindRange(image, st.ranges, st.pos, length));
  }

  lemma AddIs(st: Store, a: Alignment, content: seq<Byte>)
    ensures var at := AlignUp(st.pos, a);
            var image, length := Splice(st.image, at, content), at + |content| - st.pos;
            Add(st, a, content) == Decide(st, a, image, at, length, FindRange(image, st.ranges, st.pos, length))
  {
    hide AlignUp, Splice, FindRange, Decide;
  }

  lemma DecideIs(st: Store, a: Alignment, image: seq<Byte>, at: nat, length: nat, i: nat)
    requires i <= |st.ranges|
    ensures i == |st.ranges| ==>
              Decide(st, a, image, at, length, i) == Added(Store(image, st.pos + length, st.ranges + [Range(st.pos, length, at)]), at)
    ensures i < |st.ranges| && st.ranges[i].offset != 0 && st.ranges[i].offset % a == 0 ==>
              Decide(st, a, image, at, length, i) == Added(Store(Splice(image, st.pos, Zeros(length)), st.pos, st.ranges), st.ranges[i].offset)
    ensures i < |st.ranges| && !(st.ranges[i].offset != 0 && st.ranges[i].offset % a == 0) ==>
              Decide(st, a, image, at, length, i) == Added(Store(image, st.pos + length, st.ranges), at)
  {
    hide Splice;
  }

  /** Anything else in the data section: aligned and written, and not entered in the map. */
  function AddOther(st: Store, a: Alignment, content: seq<Byte>): Added {
    var at := AlignUp(st.pos, a);
    Added(Store(Splice(st.image, at, content), at + |content|, st.ranges), at)
  }

  /** The next dex file of the container: the section is cut to size, and offset 0 stays unused. */
  function NextFile(st: Store): Store {
    var pos := if st.pos < 8 then 8 else st.pos;
    Store(Extend(if st.pos <= |st.image| then st.image[..st.pos] else st.image, pos), pos, st.ranges)
  }

  // ------------------------------------------------------------------ the classes

  /** The dedupe map: keys are ranges compared by the bytes they span in the section. */
  class Deduper {
    const section: VectorSection
    var ranges: seq<Range>

    constructor (section: VectorSection)
      ensures this.section == section && ranges == []
    {
      this.section := section;
      ranges := [];
    }

    /** `emplace`: a new range is entered; for one with the content of another, the other's offset is returned. */
    method Dedupe(dataStart: nat, dataEnd: nat, itemOffset: nat) returns (offset: nat)
      requires dataStart <= dataEnd <= |section.data|
      requires forall i | 0 <= i < |ranges| :: ranges[i].start + ranges[i].length <= |section.data|
      modifies this
      ensures var i := FindRange(section.data, old(ranges), dataStart, dataEnd - dataStart);
              && (i == |old(ranges)| ==> offset == 0 && ranges == old(ranges) + [Range(dataStart, dataEnd - dataStart, itemOffset)])
              && (i < |old(ranges)| ==> offset == old(ranges)[i].offset && ranges == old(ranges))
    {
      var length := dataEnd - dataStart;
      for i := 0 to |ranges|
        invariant ranges == old(ranges)
        invariant forall j | 0 <= j < i :: !SameContent(section.data, ranges[j], dataStart, length)
      {
        var r := ranges[i];
        if r.length == length && section.data[r.start..r.start + length] == section.data[dataStart..dataEnd] {
          FoundAt(section.data, ranges, dataStart, length, i);
          return r.offset;
        }
      }
      ranges := ranges + [Range(dataStart, length, itemOffset)];
      offset := 0;
    }
  }

  lemma FoundAt(image: seq<Byte>, ranges: seq<Range>, start: nat, length: nat, i: nat)
    requires i < |ranges| && SameContent(image, ranges[i], start, length)
    requires forall j | 0 <= j < i :: !SameContent(image, ranges[j], start, length)
    ensures FindRange(image, ranges, start, length) == i
  {
  }

  /** The ranges lie in the written part of the section, before the position. */
  predicate RangesInside(st: Store) {
    forall i | 0 <= i < |st.ranges| :: st.ranges[i].start + st.ranges[i].length <= st.pos
  }

  /** Everything from the position on is zero. */
  predicate ZeroBeyond(st: Store) {
    st.pos <= |st.image| && forall i | st.pos <= i < |st.image| :: st.image[i] == 0
  }

  lemma SlicePrefix(data: seq<Byte>, image: seq<Byte>, p: nat, q: nat)
    requires |image| <= |data| && data[..|image|] == image && p <= q <= |image|
    ensures data[p..q] == image[p..q]
  {
    forall i | p <= i < q ensures data[i] == image[i] { assert data[..|image|][i] == image[i]; }
  }

  /** Comparing in the section is comparing in the part reached. */
  lemma SameInSection(image: seq<Byte>, data: seq<Byte>, ranges: seq<Range>, start: nat, length: nat)
    requires |image| <= |data| && data[..|image|] == image && start + length <= |image|
    requires forall i | 0 <= i < |ranges| :: ranges[i].start + ranges[i].length <= |image|
    ensures FindRange(data, ranges, start, length) == FindRange(image, ranges, start, length)
  {
    hide FindRange, SameContent;
    forall i | 0 <= i < |ranges|
      ensures SameContent(data, ranges[i], start, length) == SameContent(image, ranges[i], start, length)
    {
      SameRange(image, data, ranges[i], start, length);
    }
    var i := FindRange(image, ranges, start, length);
    if i < |ranges| {
      FoundAt(data, ranges, start, length, i);
    } else {
      NotFound(data, ranges, start, length);
    }
  }

  lemma SameRange(image: seq<Byte>, data: seq<Byte>, r: Range, start: nat, length: nat)
    requires |image| <= |data| && data[..|image|] == image && start + length <= |image| && r.start + r.length <= |image|
    ensures SameContent(data, r, start, length) == SameContent(image, r, start, length)
  {
    if r.length == length {
      SlicePrefix(data, image, r.start, r.start + length);
      SlicePrefix(data, image, start, start + length);
    }
  }

  class DataSection {
    const section: VectorSection
    const deduper: Deduper
    var stream: Stream

    ghost predicate Valid()
      reads this, stream, section, deduper
    {
      && deduper.section == section && stream.section == section
      && stream.Valid()
      && RangesInside(View()) && ZeroBeyond(View())
    }

    ghost function View(): Store
      reads this, stream, deduper
    {
      Store(stream.image, stream.position, deduper.ranges)
    }

    constructor ()
      ensures Valid() && View() == NextFile(Store([], 0, [])) && fresh(section) && fresh(deduper) && fresh(stream)
    {
      var s := new VectorSection();
      var d := new Deduper(s);
      var t := new Stream(s);
      t.Seek(8);
      section, deduper, stream := s, d, t;
    }

    /** A new dex file in the same container: the section trimmed, a new stream behind what is there. */
    method StartNextFile()
      requires Valid()
      modifies this, section
      ensures Valid() && fresh(stream) && View() == NextFile(old(View()))
    {
      ghost var st := View();
      var end := stream.position;
      stream.Storage();
      ghost var before := section.data;
      section.Resize(end);
      TrimmedTo(before, st.image, end, section.data);
      var t := new Stream(section);
      t.Seek(if |section.data| < 8 then 8 else |section.data|);
      stream := t;
      NextFileKeeps(st);
    }

    /** An item that is not deduplicated. */
    method WriteOther(a: Alignment, content: seq<Byte>) returns (offset: nat)
      requires Valid()
      modifies stream, section
      ensures Valid() && stream == old(stream)
      ensures Added(View(), offset) == AddOther(old(View()), a, content)
    {
      hide Splice, Extend, AlignUp;
      ghost var st := View();
      stream.AlignTo(a);
      offset := stream.position;
      AddReady(st, a, content);
      SpliceExtend(st.image, offset, content);
      stream.Write(content);
      AddOtherKeeps(st, a, content);
    }

    /** An item through `ScopedDataSectionItem`; returns its final offset. */
    method WriteItem(a: Alignment, content: seq<Byte>) returns (offset: nat)
      requires Valid()
      modifies stream, section, deduper
      ensures Valid() && stream == old(stream)
      ensures Added(View(), offset) == Add(old(View()), a, content)
    {
      hide *;
      ValidGives();
      ghost var st := Store(stream.image, stream.position, deduper.ranges);
      var startOffset := stream.position;
      AddCases(st, a, content);
      AddReady(st, a, content);
      SpliceExtend(st.image, AlignUp(st.pos, a), content);
      stream.AlignTo(a);
      offset := stream.position;
      ghost var image := Splice(st.image, offset, content);
      stream.Write(content);
      stream.Storage();
      SameInSection(image, section.data, deduper.ranges, startOffset, stream.position - startOffset);
      var deduped := deduper.Dedupe(startOffset, stream.position, offset);
      if deduped != 0 && deduped % a == 0 {
        offset := deduped;
        stream.Clear(startOffset, stream.position - startOffset);
        ExtendShort(stream.image, startOffset);
        stream.Seek(startOffset);
      }
      AddKeeps(st, a, content);
      BecomesValid(Add(st, a, content).store);
    }

    lemma ValidGives()
      requires Valid()
      ensures deduper.section == section && stream.section == section && stream.Valid()
      ensures View() == Store(stream.image, stream.position, deduper.ranges) && RangesInside(View()) && ZeroBeyond(View())
    {
      hide RangesInside, ZeroBeyond, Stream.Valid;
    }

    lemma BecomesValid(st: Store)
      requires deduper.section == section && stream.section == section && stream.Valid()
      requires st == Store(stream.image, stream.position, deduper.ranges) && RangesInside(st) && ZeroBeyond(st)
      ensures Valid() && View() == st
    {
      hide RangesInside, ZeroBeyond, Stream.Valid;
    }
  }

  /** What the write needs: zeros ahead, and the ranges inside what is there. */
  lemma AddReady(st: Store, a: Alignment, content: seq<Byte>)
    requires RangesInside(st) && ZeroBeyond(st)
    ensures var at := AlignUp(st.pos, a);
            && ZeroAt(Extend(st.image, at), at, |content|)
            && at + |content| <= |Splice(st.image, at, content)|
            && forall i | 0 <= i < |st.ranges| :: st.ranges[i].start + st.ranges[i].length <= |Splice(st.image, at, content)|
  {
    hide AlignUp, Splice;
  }

  lemma AddKeeps(st: Store, a: Alignment, content: seq<Byte>)
    requires RangesInside(st) && ZeroBeyond(st)
    ensures RangesInside(Add(st, a, content).store) && ZeroBeyond(Add(st, a, content).store)
  {
    hide AlignUp, Splice, FindRange;
    var start, at := st.pos, AlignUp(st.pos, a);
    var end, image := at + |content|, Splice(st.image, at, content);
    SpliceBytes(st.image, at, content);
    SpliceBytes(image, start, Zeros(end - start));
  }

  lemma AddOtherKeeps(st: Store, a: Alignment, content: seq<Byte>)
    requires RangesInside(st) && ZeroBeyond(st)
    ensures RangesInside(AddOther(st, a, content).store) && ZeroBeyond(AddOther(st, a, content).store)
  {
    hide AlignUp, Splice;
    SpliceBytes(st.image, AlignUp(st.pos, a), content);
  }

  lemma NextFileKeeps(st: Store)
    requires RangesInside(st) && ZeroBeyond(st)
    ensures RangesInside(NextFile(st)) && ZeroBeyond(NextFile(st))
  {
  }

  lemma TrimmedTo(data: seq<Byte>, image: seq<Byte>, end: nat, after: seq<Byte>)
    requires |image| <= |data| && data[..|image|] == image && end <= |image| && |after| == end
    requires forall i | 0 <= i < end :: after[i] == if i < |data| then data[i] else 0
    ensures after == image[..end]
  {
    forall i | 0 <= i < end ensures after[i] == image[i] { assert image[i] == data[..|image|][i]; }
  }

  // ------------------------------------------------------------------ what holds over whole runs

  /** Ranges begin behind the unused start, are named by their own start, lie one behind the other, and differ in content. */
  predicate RangesGood(st: Store) {
    && (forall i | 0 <= i < |st.ranges| :: 8 <= st.ranges[i].start == st.ranges[i].offset)
    && (forall i, j | 0 <= i < j < |st.ranges| :: st.ranges[i].start + st.ranges[i].length <= st.ranges[j].start)
    && (forall i, j | 0 <= i < j < |st.ranges| :: !SameContent(st.image, st.ranges[i], st.ranges[j].start, st.ranges[j].length))
  }

  predicate Good(st: Store) {
    st.pos >= 8 && RangesInside(st) && ZeroBeyond(st) && RangesGood(st)
  }

  /** The written part of `before` is still there in `after`. */
  predicate KeepsWritten(before: Store, after: Store) {
    before.pos <= after.pos && before.pos <= |before.image| && after.pos <= |after.image|
    && after.image[..before.pos] == before.image[..before.pos]
  }

  /** With the same written bytes, ranges inside them compare the same. */
  lemma RangesStayGood(before: Store, after: Store)
    requires Good(before) && KeepsWritten(before, after) && after.ranges == before.ranges
    ensures RangesGood(after)
  {
    forall i, j | 0 <= i < j < |after.ranges|
      ensures !SameContent(after.image, after.ranges[i], after.ranges[j].start, after.ranges[j].length)
    {
      var r, q := before.ranges[i], before.ranges[j];
      assert !SameContent(before.image, r, q.start, q.length);
      if r.length == q.length {
        SliceKept(before, after, r.start, r.start + r.length);
        SliceKept(before, after, q.start, q.start + q.length);
      }
    }
  }

  lemma SliceKept(before: Store, after: Store, p: nat, q: nat)
    requires KeepsWritten(before, after) && p <= q <= before.pos
    ensures after.image[p..q] == before.image[p..q]
  {
    assert after.image[p..q] == after.image[..before.pos][p..q];
    assert before.image[p..q] == before.image[..before.pos][p..q];
  }

  lemma SpliceKeepsFront(image: seq<Byte>, pos: nat, p: nat, buf: seq<Byte>)
    requires pos <= p && pos <= |image|
    ensures pos <= |Splice(image, p, buf)| && Splice(image, p, buf)[..pos] == image[..pos]
  {
    SpliceBytes(image, p, buf);
  }

  /** Entering a range whose content is new. */
  lemma NewRangeGood(st: Store, image: seq<Byte>, end: nat)
    requires Good(st) && st.pos <= end <= |image| && image[..st.pos] == st.image[..st.pos]
    requires FindRange(image, st.ranges, st.pos, end - st.pos) == |st.ranges|
    ensures RangesGood(Store(image, end, st.ranges + [Range(st.pos, end - st.pos, st.pos)]))
  {
    hide FindRange;
    var r := Range(st.pos, end - st.pos, st.pos);
    RangesStayGood(st, Store(image, end, st.ranges));
    FindRangeNone(image, st.ranges, st.pos, end - st.pos);
  }

  lemma FindRangeNone(image: seq<Byte>, ranges: seq<Range>, start: nat, length: nat)
    requires FindRange(image, ranges, start, length) == |ranges|
    ensures forall j | 0 <= j < |ranges| :: !SameContent(image, ranges[j], start, length)
  {
    var i := FindRange(image, ranges, start, length);
  }

  lemma Unaligned(p: nat)
    ensures AlignUp(p, 1) == p
  {
  }

  /**
    * One unaligned item: the store stays good, what was written stays, the offset is never the
    * sentinel 0, and it addresses the item's bytes.
    */
  lemma AddIsRight(st: Store, content: seq<Byte>)
    requires Good(st)
    ensures var r := Add(st, 1, content);
            && Good(r.store) && KeepsWritten(st, r.store) && r.offset >= 8 && r.offset + |content| <= r.store.pos
            && Holds(r.store.image, r.offset, content)
            && Range(r.offset, |content|, r.offset) in r.store.ranges && (forall x | x in st.ranges :: x in r.store.ranges)
            && ((r.store.pos == st.pos && r.store.ranges == st.ranges) || (r.offset == st.pos && r.store.pos == st.pos + |content|))
  {
    hide AlignUp, Splice, FindRange, RangesGood, Add;
    Unaligned(st.pos);
    AddCases(st, 1, content);
    AddKeeps(st, 1, content);
    var start, end := st.pos, st.pos + |content|;
    var image := Splice(st.image, start, content);
    SpliceKeepsFront(st.image, start, start, content);
    SpliceSlice(st.image, start, content);
    var i := FindRange(image, st.ranges, start, |content|);
    if i == |st.ranges| {
      NewRangeGood(st, image, end);
    } else {
      RangeAt(st, i);
      var cleared := Splice(image, start, Zeros(|content|));
      SpliceKeepsFront(image, start, start, Zeros(|content|));
      RangesStayGood(st, Store(cleared, start, st.ranges));
      var q := st.ranges[i].start;
      SliceKept(st, Store(image, end, st.ranges), q, q + |content|);
      SliceKept(st, Store(cleared, start, st.ranges), q, q + |content|);
    }
  }

  lemma RangeAt(st: Store, i: nat)
    requires Good(st) && i < |st.ranges|
    ensures 8 <= st.ranges[i].start == st.ranges[i].offset && st.ranges[i].start + st.ranges[i].length <= st.pos
  {
  }

  lemma AddOtherIsRight(st: Store, a: Alignment, content: seq<Byte>)
    requires Good(st)
    ensures var r := AddOther(st, a, content);
            Good(r.store) && KeepsWritten(st, r.store) && r.offset >= 8 && r.offset + |content| <= r.store.pos
            && Holds(r.store.image, r.offset, content)
    ensures AddOther(st, a, content).store.ranges == st.ranges
  {
    hide AlignUp, Splice, RangesGood;
    var at := AlignUp(st.pos, a);
    AddOtherKeeps(st, a, content);
    SpliceKeepsFront(st.image, st.pos, at, content);
    SpliceBytes(st.image, at, content);
    RangesStayGood(st, AddOther(st, a, content).store);
  }

  lemma NextFileIsGood(st: Store)
    requires Good(st)
    ensures Good(NextFile(st)) && KeepsWritten(st, NextFile(st)) && NextFile(st).ranges == st.ranges
  {
    hide RangesGood;
    NextFileKeeps(st);
    RangesStayGood(st, NextFile(st));
  }

  /** An empty container, its first file begun. */
  const EMPTY: Store := NextFile(Store([], 0, []))

  lemma StartIsGood()
    ensures Good(EMPTY)
  {
  }

  /** What the writers of one container do, file after file. */
  datatype Op = Item(a: Alignment, content: seq<Byte>) | Other(a: Alignment, content: seq<Byte>) | NewFile

  /** An item, its alignment and whether it goes through the deduper, and the offset it was given. */
  datatype Given = Given(offset: nat, content: seq<Byte>, a: Alignment, dedupes: bool)

  datatype Outcome = Outcome(store: Store, given: seq<Given>)

  /** One operation. */
  function Do(st: Store, op: Op, given: seq<Given>): Outcome {
    match op
    case Item(a, content) => var r := Add(st, a, content); Outcome(r.store, given + [Given(r.offset, content, a, true)])
    case Other(a, content) => var r := AddOther(st, a, content); Outcome(r.store, given + [Given(r.offset, content, a, false)])
    case NewFile => Outcome(NextFile(st), given)
  }

  function RunFrom(st: Store, ops: seq<Op>, given: seq<Given>): Outcome
    decreases |ops|
  {
    if ops == [] then Outcome(st, given)
    else var o := Do(st, ops[0], given); RunFrom(o.store, ops[1..], o.given)
  }

  /** Every deduplicated item of the run is aligned to `a`. */
  predicate ItemsAlignedTo(ops: seq<Op>, a: Alignment) {
    forall i | 0 <= i < |ops| :: ops[i].Item? ==> ops[i].a == a
  }

  /** Every item given an offset so far stands there. */
  predicate AllStand(st: Store, given: seq<Given>) {
    forall i | 0 <= i < |given| ::
      given[i].offset >= 8 && given[i].offset + |given[i].content| <= st.pos && Holds(st.image, given[i].offset, given[i].content)
  }

  /** Every deduplicated item so far has its range in the map. */
  predicate AllKnown(st: Store, given: seq<Given>) {
    forall i | 0 <= i < |given| && given[i].dedupes :: Range(given[i].offset, |given[i].content|, given[i].offset) in st.ranges
  }

  lemma AllStillStand(before: Store, after: Store, given: seq<Given>)
    requires AllStand(before, given) && KeepsWritten(before, after)
    ensures AllStand(after, given)
  {
    forall i | 0 <= i < |given|
      ensures given[i].offset >= 8 && given[i].offset + |given[i].content| <= after.pos && Holds(after.image, given[i].offset, given[i].content)
    {
      SliceKept(before, after, given[i].offset, given[i].offset + |given[i].content|);
    }
  }

  lemma DoIsRight(st: Store, op: Op, given: seq<Given>)
    requires Good(st) && AllStand(st, given) && AllKnown(st, given) && (op.Item? ==> op.a == 1)
    ensures var o := Do(st, op, given);
            Good(o.store) && KeepsWritten(st, o.store) && AllStand(o.store, o.given) && AllKnown(o.store, o.given) && given <= o.given
  {
    hide Good, Add, AddOther, NextFile, Holds, KeepsWritten;
    match op
    case Item(a, content) =>
      AddIsRight(st, content);
      AllStillStand(st, Add(st, 1, content).store, given);
    case Other(a, content) =>
      AddOtherIsRight(st, a, content);
      AllStillStand(st, AddOther(st, a, content).store, given);
    case NewFile =>
      NextFileIsGood(st);
      AllStillStand(st, NextFile(st), given);
  }

  /**
    * Over any run, across files sharing the container: every item's offset addresses bytes equal to
    * its encoding and is not the sentinel, the map's ranges differ in content, and everything from
    * the position on is zero.
    */
  lemma {:induction false} RunIsRight(st: Store, ops: seq<Op>, given: seq<Given>)
    requires Good(st) && AllStand(st, given) && AllKnown(st, given) && ItemsAlignedTo(ops, 1)
    ensures var o := RunFrom(st, ops, given);
            Good(o.store) && KeepsWritten(st, o.store) && AllStand(o.store, o.given) && AllKnown(o.store, o.given) && given <= o.given
    decreases |ops|
  {
    hide Good, AllStand, AllKnown, KeepsWritten, Do;
    if ops == [] {
      KeepsItself(st);
    } else {
      DoIsRight(st, ops[0], given);
      var o := Do(st, ops[0], given);
      RunIsRight(o.store, ops[1..], o.given);
      KeepsTransitive(st, o.store, RunFrom(st, ops, given).store);
    }
  }

  /** Every offset given so far is a multiple of the item's alignment. */
  predicate AllAligned(given: seq<Given>) {
    forall i | 0 <= i < |given| :: given[i].offset % given[i].a == 0
  }

  lemma AddIsAligned(st: Store, a: Alignment, content: seq<Byte>)
    ensures Add(st, a, content).offset % a == 0
  {
    hide *;
    AddCases(st, a, content);
    AlignUpAligns(st.pos, a);
  }

  lemma OtherIsAligned(st: Store, a: Alignment, content: seq<Byte>)
    ensures AddOther(st, a, content).offset % a == 0
  {
    hide AlignUp;
    AlignUpAligns(st.pos, a);
  }

  /** Over any run, whatever the alignments, every item's offset is a multiple of its alignment. */
  lemma {:induction false} RunIsAligned(st: Store, ops: seq<Op>, given: seq<Given>)
    requires AllAligned(given)
    ensures AllAligned(RunFrom(st, ops, given).given)
    decreases |ops|
  {
    hide Add, AddOther, NextFile;
    if ops != [] {
      match ops[0] {
        case Item(a, content) => AddIsAligned(st, a, content);
        case Other(a, content) => OtherIsAligned(st, a, content);
        case NewFile =>
      }
      var o := Do(st, ops[0], given);
      RunIsAligned(o.store, ops[1..], o.given);
    }
  }

  /**
    * Where an item that is not deduplicated goes: to the first multiple of its alignment behind
    * everything written, with zeros before it, and nothing written before changes.
    */
  lemma OtherGoesBehind(st: Store, a: Alignment, content: seq<Byte>)
    requires RangesInside(st) && ZeroBeyond(st)
    ensures var r := AddOther(st, a, content);
            && st.pos <= r.offset < st.pos + a && r.offset % a == 0 && r.store.pos == r.offset + |content| <= |r.store.image|
            && Holds(r.store.image, r.offset, content)
            && (forall i | st.pos <= i < r.offset :: r.store.image[i] == 0)
            && r.store.image[..st.pos] == st.image[..st.pos] && r.store.ranges == st.ranges
  {
    hide AlignUp, Splice;
    AlignUpAligns(st.pos, a);
    AddOtherKeeps(st, a, content);
    SpliceKeepsFront(st.image, st.pos, AlignUp(st.pos, a), content);
    SpliceSlice(st.image, AlignUp(st.pos, a), content);
    SpliceBytes(st.image, AlignUp(st.pos, a), content);
  }

  /** A deduplicated item takes no room and shares an offset of the map, or goes where any other would. */
  lemma ItemGoesBehind(st: Store, a: Alignment, content: seq<Byte>)
    requires RangesInside(st) && ZeroBeyond(st)
    ensures var r := Add(st, a, content);
            || (r.store.pos == st.pos && r.store.ranges == st.ranges && exists x | x in st.ranges :: x.offset == r.offset)
            || (&& st.pos <= r.offset < st.pos + a && r.store.pos == r.offset + |content| <= |r.store.image|
                && Holds(r.store.image, r.offset, content) && forall i | st.pos <= i < r.offset :: r.store.image[i] == 0)
  {
    hide AlignUp, Splice, FindRange, Add;
    AddCases(st, a, content);
    OtherGoesBehind(st, a, content);
    var image := Splice(st.image, AlignUp(st.pos, a), content);
    var i := FindRange(image, st.ranges, st.pos, AlignUp(st.pos, a) + |content| - st.pos);
    if i < |st.ranges| { assert st.ranges[i] in st.ranges; }
  }

  /** Deduplicated items have the same offset if they have the same content, and, unless empty, only then. */
  predicate OncePerContent(given: seq<Given>) {
    forall i, j | 0 <= i < j < |given| && given[i].dedupes && given[j].dedupes ::
      && (given[i].content == given[j].content ==> given[i].offset == given[j].offset)
      && (given[i].offset == given[j].offset && given[i].content != [] && given[j].content != [] ==> given[i].content == given[j].content)
  }

  lemma SameRangeOnce(st: Store, r: Range, q: Range)
    requires Good(st) && r in st.ranges && q in st.ranges
    ensures SameContent(st.image, r, q.start, q.length) ==> r == q
    ensures r.start == q.start && r.length > 0 && q.length > 0 ==> r == q
  {
    var i :| 0 <= i < |st.ranges| && st.ranges[i] == r;
    var j :| 0 <= j < |st.ranges| && st.ranges[j] == q;
    if i < j {
      assert !SameContent(st.image, st.ranges[i], st.ranges[j].start, st.ranges[j].length);
    } else if j < i {
      assert !SameContent(st.image, st.ranges[j], st.ranges[i].start, st.ranges[i].length);
    }
  }

  /** Items that stand, and whose ranges are known, share an offset exactly as they share a content. */
  lemma KnownOnce(st: Store, given: seq<Given>)
    requires Good(st) && AllStand(st, given) && AllKnown(st, given)
    ensures OncePerContent(given)
  {
    forall i, j | 0 <= i < j < |given| && given[i].dedupes && given[j].dedupes
      ensures given[i].content == given[j].content ==> given[i].offset == given[j].offset
      ensures given[i].offset == given[j].offset && given[i].content != [] && given[j].content != [] ==> given[i].content == given[j].content
    {
      var g, h := given[i], given[j];
      var r, q := Range(g.offset, |g.content|, g.offset), Range(h.offset, |h.content|, h.offset);
      hide RangesGood, RangesInside, ZeroBeyond;
      StandsInRange(st, g);
      StandsInRange(st, h);
      hide Good;
      SameRangeOnce(st, r, q);
    }
  }

  lemma StandsInRange(st: Store, g: Given)
    requires Good(st) && g.offset + |g.content| <= st.pos && Holds(st.image, g.offset, g.content)
    ensures st.pos <= |st.image| && st.image[g.offset..g.offset + |g.content|] == g.content
  {
    hide RangesGood, RangesInside;
  }

  /**
    * A container filled by a run of the writers. The items stand where their offsets say if the
    * deduplicated ones are unaligned, as debug infos and string data are.
    */
  method WriteAll(ops: seq<Op>) returns (d: DataSection, given: seq<Given>)
    ensures fresh(d) && d.Valid() && Outcome(d.View(), given) == RunFrom(EMPTY, ops, [])
    ensures AllAligned(given)
    ensures ItemsAlignedTo(ops, 1) ==> AllStand(d.View(), given) && OncePerContent(given)
  {
    hide Good, AllStand, AllKnown, Add, AddOther, NextFile, DataSection.Valid, ItemsAlignedTo, AllAligned, OncePerContent;
    d := new DataSection();
    given := [];
    assert ops[0..] == ops;
    for i := 0 to |ops|
      invariant fresh(d) && fresh(d.stream) && fresh(d.section) && fresh(d.deduper) && d.Valid()
      invariant RunFrom(d.View(), ops[i..], given) == RunFrom(EMPTY, ops, [])
    {
      ghost var st := d.View();
      assert ops[i..][0] == ops[i] && ops[i..][1..] == ops[i + 1..];
      match ops[i]
      case Item(a, content) =>
        var offset := d.WriteItem(a, content);
        given := given + [Given(offset, content, a, true)];
      case Other(a, content) =>
        var offset := d.WriteOther(a, content);
        given := given + [Given(offset, content, a, false)];
      case NewFile =>
        d.StartNextFile();
    }
    assert ops[|ops|..] == [];
    NothingGiven(EMPTY);
    RunIsAligned(EMPTY, ops, []);
    if ItemsAlignedTo(ops, 1) {
      StartIsGood();
      RunIsRight(EMPTY, ops, []);
      KnownOnce(d.View(), given);
    }
  }

  lemma NothingGiven(st: Store)
    ensures AllStand(st, []) && AllKnown(st, []) && AllAligned([])
  {
  }

  lemma KeepsItself(st: Store)
    requires Good(st)
    ensures KeepsWritten(st, st)
  {
  }

  lemma KeepsTransitive(a: Store, b: Store, c: Store)
    requires KeepsWritten(a, b) && KeepsWritten(b, c)
    ensures KeepsWritten(a, c)
  {
    assert c.image[..a.pos] == c.image[..b.pos][..a.pos];
    assert b.image[..a.pos] == b.image[..b.pos][..a.pos];
  }

  // ------------------------------------------------------------------ why the alignment matters

  lemma NotFound(image: seq<Byte>, ranges: seq<Range>, start: nat, length: nat)
    requires forall i | 0 <= i < |ranges| :: !SameContent(image, ranges[i], start, length)
    ensures FindRange(image, ranges, start, length) == |ranges|
  {
  }

  /**
    * Three items: the second leaves the position just behind a multiple of the alignment, so that
    * the padding of the third, and the third, spell the first.
    */
  function ConfusingRun(a: Alignment): seq<Op>
    requires a > 1
  {
    [Item(a, Zeros(a - 1) + [7]), Item(a, [1]), Item(a, [7])]
  }

  lemma FirstItem(a: Alignment, z: seq<Byte>)
    requires a > 1 && z == Zeros(8)
    ensures var c := Zeros(a - 1) + [7];
            Add(Store(z, 8, []), a, c) == Added(Store(z + c, 8 + a, [Range(8, a, 8)]), 8)
  {
    hide Splice;
    SpliceAtEnd(z, Zeros(a - 1) + [7]);
    Places(a);
  }

  lemma Places(a: Alignment)
    ensures AlignUp(8, a) == 8 && AlignUp(8 + a, a) == 8 + a
    ensures a > 1 ==> AlignUp(9 + a, a) == 8 + 2 * a && 8 % a == 0
  {
  }

  lemma SecondItem(a: Alignment, z: seq<Byte>)
    requires a > 1 && |z| == 8 + a
    ensures Add(Store(z, 8 + a, [Range(8, a, 8)]), a, [1])
         == Added(Store(z + [1], 9 + a, [Range(8, a, 8), Range(8 + a, 1, 8 + a)]), 8 + a)
  {
    hide Splice, FindRange, AlignUp;
    Places(a);
    SpliceAtEnd(z, [1]);
    NotFound(z + [1], [Range(8, a, 8)], 8 + a, 1);
    assert [Range(8, a, 8)] + [Range(8 + a, 1, 8 + a)] == [Range(8, a, 8), Range(8 + a, 1, 8 + a)];
  }

  lemma ThirdItem(a: Alignment, z: seq<Byte>)
    requires a > 1 && z == Zeros(8) + (Zeros(a - 1) + [7]) + [1]
    ensures var r := Add(Store(z, 9 + a, [Range(8, a, 8), Range(8 + a, 1, 8 + a)]), a, [7]);
            r.offset == 8 && !Holds(r.store.image, 8, [7])
  {
    hide Splice, FindRange, AlignUp;
    Places(a);
    var ranges := [Range(8, a, 8), Range(8 + a, 1, 8 + a)];
    var image := Splice(z, 8 + 2 * a, [7]);
    SpliceBytes(z, 8 + 2 * a, [7]);
    SpliceBytes(image, 9 + a, Zeros(a));
    assert image[8..8 + a] == Zeros(a - 1) + [7];
    assert image[9 + a..9 + a + a] == Zeros(a - 1) + [7];
    FoundAt(image, ranges, 9 + a, a, 0);
    var cleared := Splice(image, 9 + a, Zeros(a));
    assert cleared[8] == 0;
    assert cleared[8..9][0] == 0;
  }

  /**
    * The key of an item is everything from before its padding. With any alignment above 1 that
    * makes an item equal to another whose padding differs: the third item gets the offset of the
    * first, where its bytes do not stand.
    */
  lemma PaddingConfusesItems(a: Alignment)
    requires a > 1
    ensures ItemsAlignedTo(ConfusingRun(a), a)
    ensures var o := RunFrom(EMPTY, ConfusingRun(a), []); !AllStand(o.store, o.given)
  {
    hide Add, Holds;
    var z: seq<Byte>, c, ops := Zeros(8), Zeros(a - 1) + [7], ConfusingRun(a);
    assert EMPTY == Store(z, 8, []);
    FirstItem(a, z);
    SecondItem(a, z + c);
    ThirdItem(a, z + c + [1]);
    var s1, s2 := Add(EMPTY, a, c).store, Add(Add(EMPTY, a, c).store, a, [1]).store;
    var g1, g2 := [Given(8, c, a, true)], [Given(8, c, a, true), Given(8 + a, [1], a, true)];
    var r := Add(s2, a, [7]);
    assert ops[1..] == [Item(a, [1]), Item(a, [7])] && ops[1..][1..] == [Item(a, [7])] && ops[1..][1..][1..] == [];
    assert [] + [Given(8, c, a, true)] == g1 && g1 + [Given(8 + a, [1], a, true)] == g2;
    calc {
      RunFrom(EMPTY, ops, []);
      RunFrom(s1, ops[1..], g1);
      RunFrom(s2, ops[1..][1..], g2);
      RunFrom(r.store, [], g2 + [Given(8, [7], a, true)]);
    }
    assert (g2 + [Given(8, [7], a, true)])[2] == Given(8, [7], a, true);
  }

  /** Every run whose deduplicated items are aligned to `a` gives out offsets at which the items stand. */
  ghost predicate AlwaysRight(a: Alignment) {
    forall ops: seq<Op> | ItemsAlignedTo(ops, a) :: var o := RunFrom(EMPTY, ops, []); AllStand(o.store, o.given)
  }

  /** Deduplication is right for alignment 1, and for no other. */
  lemma RightIffUnaligned(a: Alignment)
    ensures AlwaysRight(a) <==> a == 1
  {
    hide RunFrom, AllStand, AllKnown, Good;
    if a == 1 {
      StartIsGood();
      NothingGiven(EMPTY);
      forall ops: seq<Op> | ItemsAlignedTo(ops, a) ensures var o := RunFrom(EMPTY, ops, []); AllStand(o.store, o.given) {
        RunIsRight(EMPTY, ops, []);
      }
    } else {
      PaddingConfusesItems(a);
    }
  }
}
