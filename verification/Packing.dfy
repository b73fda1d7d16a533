/** Laying byte strings out one after the other, each at a given alignment, with zeros between them. */
module Packing {
  import opened Bytes

  /** Where the first `n` strings of `list`, laid out from `start`, end. */
  function EndAt(a: Alignment, start: nat, list: seq<seq<Byte>>, n: nat): (r: nat)
    requires n <= |list|
    ensures start <= r
  {
    if n == 0 then start else AlignUp(EndAt(a, start, list, n - 1), a) + |list[n - 1]|
  }

  /** Where the `i`-th string begins. */
  function StartAt(a: Alignment, start: nat, list: seq<seq<Byte>>, i: nat): (r: nat)
    requires i <= |list|
    ensures start <= EndAt(a, start, list, i) <= r
  {
    AlignUp(EndAt(a, start, list, i), a)
  }

  /** The bytes from `start` to the end of the first `n` strings. */
  function Pack(a: Alignment, start: nat, list: seq<seq<Byte>>, n: nat): (r: seq<Byte>)
    requires n <= |list|
    ensures |r| == EndAt(a, start, list, n) - start
  {
    if n == 0 then []
    else
      Pack(a, start, list, n - 1)
      + Zeros(StartAt(a, start, list, n - 1) - EndAt(a, start, list, n - 1))
      + list[n - 1]
  }

  /** Strings do not overlap and stay in order. */
  lemma {:induction false} PackOrdered(a: Alignment, start: nat, list: seq<seq<Byte>>, i: nat, j: nat)
    requires i < j <= |list|
    ensures StartAt(a, start, list, i) + |list[i]| <= EndAt(a, start, list, j)
    decreases j
  {
    hide AlignUp;
    if i < j - 1 { PackOrdered(a, start, list, i, j - 1); }
  }

  lemma {:induction false} PackStep(a: Alignment, start: nat, list: seq<seq<Byte>>, n: nat)
    requires 0 < n <= |list|
    ensures StartAt(a, start, list, n - 1) >= EndAt(a, start, list, n - 1)
    ensures Pack(a, start, list, n)
         == Pack(a, start, list, n - 1)
            + (Zeros(StartAt(a, start, list, n - 1) - EndAt(a, start, list, n - 1)) + list[n - 1])
  {
    hide AlignUp;
  }

  lemma {:induction false} SliceOfConcat(p: seq<Byte>, q: seq<Byte>, i: nat, n: nat)
    requires i + n <= |p|
    ensures (p + q)[i..i + n] == p[i..i + n]
  {
  }

  lemma {:induction false} SliceOfTail(p: seq<Byte>, z: seq<Byte>, q: seq<Byte>)
    ensures (p + (z + q))[|p| + |z|..|p| + |z| + |q|] == q
  {
  }

  /** Each string is found, whole, where it was placed. */
  lemma {:induction false} PackItem(a: Alignment, start: nat, list: seq<seq<Byte>>, n: nat, i: nat)
    requires i < n <= |list|
    ensures var at := StartAt(a, start, list, i) - start;
            && at + |list[i]| <= |Pack(a, start, list, n)|
            && Pack(a, start, list, n)[at..at + |list[i]|] == list[i]
    decreases n
  {
    hide *;
    var at := StartAt(a, start, list, i) - start;
    var p, z := Pack(a, start, list, n - 1), StartAt(a, start, list, n - 1) - EndAt(a, start, list, n - 1);
    PackStep(a, start, list, n);
    if i < n - 1 {
      PackItem(a, start, list, n - 1, i);
      SliceOfConcat(p, Zeros(z) + list[n - 1], at, |list[i]|);
    } else {
      SliceOfTail(p, Zeros(z), list[i]);
    }
  }

  /** Position `p` lies in none of the first `n` strings. */
  predicate Outside(a: Alignment, start: nat, list: seq<seq<Byte>>, n: nat, p: nat)
    requires n <= |list|
  {
    forall i | 0 <= i < n :: !(StartAt(a, start, list, i) <= p < StartAt(a, start, list, i) + |list[i]|)
  }

  /** A byte outside every string is padding, and zero. */
  lemma {:induction false} PackPadding(a: Alignment, start: nat, list: seq<seq<Byte>>, n: nat, p: nat)
    requires n <= |list| && start <= p < EndAt(a, start, list, n)
    requires Outside(a, start, list, n, p)
    ensures Pack(a, start, list, n)[p - start] == 0
    decreases n
  {
    hide *;
    NothingPacked(a, start, list);
    if n > 0 {
      var q, z := Pack(a, start, list, n - 1), StartAt(a, start, list, n - 1) - EndAt(a, start, list, n - 1);
      PackStep(a, start, list, n);
      OutsideLast(a, start, list, n, p);
      if p < EndAt(a, start, list, n - 1) {
        PackPadding(a, start, list, n - 1, p);
      } else {
        ZeroInside(q, z, list[n - 1], p - start);
      }
    }
  }

  lemma NothingPacked(a: Alignment, start: nat, list: seq<seq<Byte>>)
    ensures EndAt(a, start, list, 0) == start && Pack(a, start, list, 0) == []
  {
  }

  lemma {:induction false} OutsideLast(a: Alignment, start: nat, list: seq<seq<Byte>>, n: nat, p: nat)
    requires 0 < n <= |list| && Outside(a, start, list, n, p)
    ensures Outside(a, start, list, n - 1, p)
    ensures p < EndAt(a, start, list, n) ==> p < StartAt(a, start, list, n - 1)
  {
    hide AlignUp;
    assert !(StartAt(a, start, list, n - 1) <= p < StartAt(a, start, list, n - 1) + |list[n - 1]|);
  }

  lemma ZeroInside(q: seq<Byte>, z: nat, tail: seq<Byte>, i: nat)
    requires |q| <= i < |q| + z
    ensures (q + (Zeros(z) + tail))[i] == 0
  {
  }

  /** Two lists of strings of the same lengths. */
  predicate SameShape(l1: seq<seq<Byte>>, l2: seq<seq<Byte>>) {
    |l1| == |l2| && forall i | 0 <= i < |l1| :: |l1[i]| == |l2[i]|
  }

  /** The positions depend on the lengths alone. */
  lemma {:induction false} ShapeDecides(a: Alignment, start: nat, l1: seq<seq<Byte>>, l2: seq<seq<Byte>>, n: nat)
    requires SameShape(l1, l2) && n <= |l1|
    ensures EndAt(a, start, l1, n) == EndAt(a, start, l2, n)
    ensures StartAt(a, start, l1, n) == StartAt(a, start, l2, n)
  {
    hide AlignUp;
    if n > 0 { ShapeDecides(a, start, l1, l2, n - 1); }
  }

  /** A list packed strictly longer than nothing starts after it. */
  lemma {:induction false} PackGrows(a: Alignment, start: nat, list: seq<seq<Byte>>, n: nat)
    requires n <= |list| && forall i | 0 <= i < |list| :: |list[i]| > 0
    ensures EndAt(a, start, list, n) >= start + n
  {
    hide AlignUp;
    if n > 0 { PackGrows(a, start, list, n - 1); }
  }
}
