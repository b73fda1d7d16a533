/** Reading words and runs of words back out of a byte sequence. */
module Reading {
  import opened Bytes
  import opened Leb128
  import opened Items
  import opened ItemWriters

  /** `part` stands at `p`. */
  predicate Holds(s: seq<Byte>, p: nat, part: seq<Byte>) {
    p + |part| <= |s| && s[p..p + |part|] == part
  }

  function Half(s: seq<Byte>, p: nat): nat {
    if p + 2 <= |s| then FromLe(s[p..p + 2]) else 0
  }

  function Word(s: seq<Byte>, p: nat): nat {
    if p + 4 <= |s| then FromLe(s[p..p + 4]) else 0
  }

  lemma HoldsConcat(s: seq<Byte>, p: nat, a: seq<Byte>, b: seq<Byte>)
    requires Holds(s, p, a + b)
    ensures Holds(s, p, a) && Holds(s, p + |a|, b)
  {
    assert s[p..p + |a|] == (a + b)[..|a|];
    assert s[p + |a|..p + |a| + |b|] == (a + b)[|a|..];
  }

  lemma HoldsMiddle(a: seq<Byte>, b: seq<Byte>, c: seq<Byte>)
    ensures Holds(a + b + c, |a|, b)
  {
  }

  lemma HoldsPart(s: seq<Byte>, p: nat, part: seq<Byte>, q: nat, inner: seq<Byte>)
    requires Holds(s, p, part) && Holds(part, q, inner)
    ensures Holds(s, p + q, inner)
  {
    forall i | 0 <= i < |inner| ensures s[p + q..p + q + |inner|][i] == inner[i] {
      assert part[q..q + |inner|][i] == part[q + i] == s[p..p + |part|][q + i];
    }
  }

  lemma HoldsInFront(a: seq<Byte>, b: seq<Byte>, p: nat, part: seq<Byte>)
    requires Holds(a, p, part)
    ensures Holds(a + b, p, part)
  {
    assert (a + b)[p..p + |part|] == a[p..p + |part|];
  }

  /** What stands at `p` is what reading from `p` starts with. */
  lemma HoldsRest(s: seq<Byte>, p: nat, part: seq<Byte>)
    requires Holds(s, p, part)
    ensures s[p..] == part + s[p + |part|..]
  {
  }

  lemma {:induction false} LeWord(x: int)
    ensures FromLe(Le(4, x)) == ToU32(x) && FromLe(Le(2, x)) == ToU16(x)
  {
    Pow256Values();
    LeMod(4, x);
    LeMod(2, x);
    LeRoundTrip(4, ToU32(x));
    LeRoundTrip(2, ToU16(x));
  }

  /** The bytes of a value are those of its remainder. */
  lemma {:induction false} LeMod(n: nat, x: int)
    ensures Le(n, x) == Le(n, x % Pow256(n))
  {
    if n > 0 {
      var y := x % Pow256(n);
      ModParts(x, Pow256(n - 1));
      LeMod(n - 1, x / 256);
      assert Pow256(n) == 256 * Pow256(n - 1);
      assert y % 256 == x % 256 && y / 256 == (x / 256) % Pow256(n - 1);
      LeMod(n - 1, y / 256);
    }
  }

  lemma ModParts(x: int, m: nat)
    requires m > 0
    ensures (x % (256 * m)) % 256 == x % 256
    ensures (x % (256 * m)) / 256 == (x / 256) % m
  {
    var q, r := x / 256, x % 256;
    var q1, r1 := q / m, q % m;
    assert x == 256 * q + r && q == m * q1 + r1;
    var y := 256 * r1 + r;
    assert x == (256 * m) * q1 + y by { assert 256 * (m * q1) == (256 * m) * q1; }
    assert 0 <= y < 256 * m;
    DivUnique(x, 256 * m, q1, y);
  }

  lemma {:induction false} U32sHold(xs: seq<int>, i: nat)
    requires i < |xs|
    ensures Holds(U32s(xs), 4 * i, Le(4, xs[i]))
  {
    hide *;
    assert xs == xs[..i] + ([xs[i]] + xs[i + 1..]);
    U32sConcat(xs[..i], [xs[i]] + xs[i + 1..]);
    U32sCons(xs[i], xs[i + 1..]);
    assert U32s(xs) == U32s(xs[..i]) + Le(4, xs[i]) + U32s(xs[i + 1..]);
    HoldsMiddle(U32s(xs[..i]), Le(4, xs[i]), U32s(xs[i + 1..]));
  }

  lemma {:induction false} U16sHold(xs: seq<int>, i: nat)
    requires i < |xs|
    ensures Holds(U16s(xs), 2 * i, Le(2, xs[i]))
  {
    hide *;
    assert xs == xs[..i] + ([xs[i]] + xs[i + 1..]);
    U16sConcat(xs[..i], [xs[i]] + xs[i + 1..]);
    U16sCons(xs[i], xs[i + 1..]);
    assert U16s(xs) == U16s(xs[..i]) + Le(2, xs[i]) + U16s(xs[i + 1..]);
    HoldsMiddle(U16s(xs[..i]), Le(2, xs[i]), U16s(xs[i + 1..]));
  }

  lemma HoldsWord(s: seq<Byte>, p: nat, x: int)
    ensures Holds(s, p, Le(4, x)) ==> Word(s, p) == ToU32(x)
    ensures Holds(s, p, Le(2, x)) ==> Half(s, p) == ToU16(x)
  {
    hide Le, FromLe;
    LeWord(x);
  }

  /** The `i`-th word of a run is found, cut to its width. */
  lemma WordOfRun(s: seq<Byte>, p: nat, xs: seq<int>, i: nat)
    requires i < |xs| && Holds(s, p, U32s(xs))
    ensures Word(s, p + 4 * i) == ToU32(xs[i])
  {
    hide *;
    U32sHold(xs, i);
    HoldsPart(s, p, U32s(xs), 4 * i, Le(4, xs[i]));
    HoldsWord(s, p + 4 * i, xs[i]);
  }

  lemma HalfOfRun(s: seq<Byte>, p: nat, xs: seq<int>, i: nat)
    requires i < |xs| && Holds(s, p, U16s(xs))
    ensures Half(s, p + 2 * i) == ToU16(xs[i])
  {
    hide *;
    U16sHold(xs, i);
    HoldsPart(s, p, U16s(xs), 2 * i, Le(2, xs[i]));
    HoldsWord(s, p + 2 * i, xs[i]);
  }

  /** `n` unsigned LEB128 values. */
  function ReadUlebs(s: seq<Byte>, n: nat): (r: Option<Decoded<seq<UInt32>>>)
    ensures r.Some? ==> |r.value.value| == n
    decreases n
  {
    if n == 0 then Some(Decoded([], s))
    else
      var d := ReadUleb(s);
      if d.None? then None
      else
        var t := ReadUlebs(d.value.rest, n - 1);
        if t.None? then None else Some(Decoded([d.value.value] + t.value.value, t.value.rest))
  }

  lemma {:induction false} UlebsRoundTrip(xs: seq<UInt32>, rest: seq<Byte>)
    ensures ReadUlebs(Ulebs(xs) + rest, |xs|) == Some(Decoded(xs, rest))
  {
    hide Uleb, ReadUleb;
    if xs == [] {
      assert Ulebs(xs) + rest == rest;
    } else {
      assert Ulebs(xs) == Uleb(xs[0]) + Ulebs(xs[1..]);
      assert Ulebs(xs) + rest == Uleb(xs[0]) + (Ulebs(xs[1..]) + rest);
      UlebRoundTrip(xs[0], Ulebs(xs[1..]) + rest);
      UlebsRoundTrip(xs[1..], rest);
      assert xs == [xs[0]] + xs[1..];
    }
  }
}
