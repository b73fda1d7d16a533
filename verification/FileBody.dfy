/** The bytes of the file between the header and the map list, while its sections are being written. */
module FileBody {
  import opened Bytes
  import opened Streams
  import opened DexIr
  import opened Layout
  import opened LayoutFacts

  /** A section that has been written, or only reserved and still zero. */
  function SectionImage(ir: Header, done: set<Kind>, k: Kind): (s: seq<Byte>)
    ensures |s| == |SectionBytes(ir, k)|
  {
    if k in done then SectionBytes(ir, k) else Zeros(|SectionBytes(ir, k)|)
  }

  /** The first `n` sections, those in `done` written. */
  function Body(ir: Header, done: set<Kind>, n: nat): (s: seq<Byte>)
    requires n <= KINDS
    ensures |s| == Placed(ir, n).pos
  {
    if n == 0 then Zeros(HEADER_SIZE)
    else
      var k := KindAt(n - 1);
      KindAtIndex(n - 1);
      PlacedAfter(ir, k);
      Extend(Body(ir, done, n - 1), StartOf(ir, k)) + SectionImage(ir, done, k)
  }

  lemma BodyStep(ir: Header, done: set<Kind>, k: Kind)
    ensures Body(ir, done, IndexOf(k) + 1)
         == Extend(Body(ir, done, IndexOf(k)), StartOf(ir, k)) + SectionImage(ir, done, k)
    ensures |Extend(Body(ir, done, IndexOf(k)), StartOf(ir, k))| == StartOf(ir, k)
  {
    hide SectionBytes, AlignUp, Placed;
  }

  lemma BodyStart(ir: Header, done: set<Kind>)
    ensures Body(ir, done, 0) == Zeros(HEADER_SIZE) && Placed(ir, 0).offs == map[]
  {
  }

  lemma {:induction false} PlacedMonotone(ir: Header, m: nat, n: nat)
    requires m <= n <= KINDS
    ensures Placed(ir, m).pos <= Placed(ir, n).pos
    decreases n
  {
    hide *;
    if m < n {
      PlacedMonotone(ir, m, n - 1);
      var k := KindAt(n - 1);
      KindAtIndex(n - 1);
      PlacedAfter(ir, k);
      StartBehind(ir, k);
    }
  }

  lemma StartBehind(ir: Header, k: Kind)
    ensures Placed(ir, IndexOf(k)).pos <= StartOf(ir, k)
  {
    hide Placed;
  }

  /** Sections not among the first `n` do not show in them. */
  lemma {:induction false} BodyAgree(ir: Header, done: set<Kind>, k: Kind, n: nat)
    requires n <= IndexOf(k)
    ensures Body(ir, done + {k}, n) == Body(ir, done, n)
  {
    hide *;
    if n == 0 {
      BodyStart(ir, done);
      BodyStart(ir, done + {k});
    } else {
      var k' := KindAt(n - 1);
      KindAtIndex(n - 1);
      BodyAgree(ir, done, k, n - 1);
      BodyStep(ir, done, k');
      BodyStep(ir, done + {k}, k');
      ImageKept(ir, done, k, k');
    }
  }

  lemma ImageKept(ir: Header, done: set<Kind>, k: Kind, k': Kind)
    requires k' != k
    ensures SectionImage(ir, done + {k}, k') == SectionImage(ir, done, k')
  {
    hide SectionBytes;
  }

  lemma ImageDone(ir: Header, done: set<Kind>, k: Kind)
    ensures k in done ==> SectionImage(ir, done, k) == SectionBytes(ir, k)
    ensures k !in done ==> SectionImage(ir, done, k) == Zeros(|SectionBytes(ir, k)|)
  {
    hide SectionBytes;
  }

  lemma FillLast(e: seq<Byte>, z: seq<Byte>, s: seq<Byte>)
    requires |z| == |s|
    ensures Splice(e + z, |e|, s) == e + s
  {
  }

  lemma FillInner(b: seq<Byte>, st: nat, x: seq<Byte>, p: nat, s: seq<Byte>)
    requires p + |s| <= |b|
    ensures Splice(Extend(b, st) + x, p, s) == Extend(Splice(b, p, s), st) + x
  {
    hide Splice;
    var l, r := Splice(Extend(b, st) + x, p, s), Extend(Splice(b, p, s), st) + x;
    forall i: nat | i < |l| ensures ByteAt(l, i) == ByteAt(r, i) {
      SpliceByte(Extend(b, st) + x, p, s, i);
      SpliceByte(b, p, s, i);
    }
    SameBytes(l, r);
  }

  /** Writing a reserved section in place. */
  lemma {:induction false} BodyFill(ir: Header, done: set<Kind>, k: Kind, n: nat)
    requires IndexOf(k) < n <= KINDS
    ensures Splice(Body(ir, done, n), StartOf(ir, k), SectionBytes(ir, k)) == Body(ir, done + {k}, n)
    decreases n
  {
    hide *;
    var k' := KindAt(n - 1);
    KindAtIndex(n - 1);
    BodyStep(ir, done, k');
    BodyStep(ir, done + {k}, k');
    var s := SectionBytes(ir, k);
    if k == k' {
      BodyAgree(ir, done, k, n - 1);
      ImageDone(ir, done + {k}, k);
      FillLast(Extend(Body(ir, done, n - 1), StartOf(ir, k)), SectionImage(ir, done, k), s);
    } else {
      BodyFill(ir, done, k, n - 1);
      ImageKept(ir, done, k, k');
      SectionInside(ir, k, n - 1);
      FillInner(Body(ir, done, n - 1), StartOf(ir, k'), SectionImage(ir, done, k'), StartOf(ir, k), s);
    }
  }

  lemma SectionInside(ir: Header, k: Kind, n: nat)
    requires IndexOf(k) < n <= KINDS
    ensures StartOf(ir, k) + |SectionBytes(ir, k)| <= Placed(ir, n).pos
  {
    hide *;
    PlacedAfter(ir, k);
    PlacedMonotone(ir, IndexOf(k) + 1, n);
  }

  lemma SliceInside(b: seq<Byte>, st: nat, x: seq<Byte>, p: nat, q: nat)
    requires p <= q <= |b|
    ensures (Extend(b, st) + x)[p..q] == b[p..q]
  {
  }

  lemma SliceLast(e: seq<Byte>, x: seq<Byte>)
    ensures (e + x)[|e|..|e| + |x|] == x
  {
  }

  /** Each section stands where its start says. */
  lemma {:induction false} BodySection(ir: Header, done: set<Kind>, k: Kind, n: nat)
    requires IndexOf(k) < n <= KINDS
    ensures StartOf(ir, k) + |SectionBytes(ir, k)| <= |Body(ir, done, n)|
    ensures Body(ir, done, n)[StartOf(ir, k)..StartOf(ir, k) + |SectionBytes(ir, k)|] == SectionImage(ir, done, k)
    decreases n
  {
    hide *;
    var k' := KindAt(n - 1);
    KindAtIndex(n - 1);
    BodyStep(ir, done, k');
    SectionInside(ir, k, n);
    SliceLast(Extend(Body(ir, done, n - 1), StartOf(ir, k')), SectionImage(ir, done, k'));
    if k != k' {
      BodySection(ir, done, k, n - 1);
      SectionInside(ir, k, n - 1);
      SliceInside(Body(ir, done, n - 1), StartOf(ir, k'), SectionImage(ir, done, k'), StartOf(ir, k), StartOf(ir, k) + |SectionBytes(ir, k)|);
    }
  }

  /** What has only been reserved is zero. */
  lemma BodyPending(ir: Header, done: set<Kind>, k: Kind, n: nat)
    requires IndexOf(k) < n <= KINDS && k !in done
    ensures ZeroAt(Body(ir, done, n), StartOf(ir, k), |SectionBytes(ir, k)|)
  {
    hide *;
    BodySection(ir, done, k, n);
    ImageDone(ir, done, k);
    ZeroSlice(Body(ir, done, n), StartOf(ir, k), |SectionBytes(ir, k)|);
  }

  lemma ZeroSlice(img: seq<Byte>, p: nat, n: nat)
    requires p + n <= |img| && img[p..p + n] == Zeros(n)
    ensures ZeroAt(img, p, n)
  {
    forall i | p <= i < p + n ensures img[i] == 0 { assert img[p..p + n][i - p] == 0; }
  }
}
