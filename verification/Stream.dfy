/** The growable sections of a dex container and the stream the writers write them with. */
module Streams {
  import opened Bytes
  import opened Leb128

  /** `img`, followed by zeros up to length `n`. */
  function Extend(img: seq<Byte>, n: nat): (r: seq<Byte>)
    ensures |r| == if n <= |img| then |img| else n
  {
    if n <= |img| then img else img + Zeros(n - |img|)
  }

  /** `img` with `buf` written at `p`, grown by zeros as needed. */
  function Splice(img: seq<Byte>, p: nat, buf: seq<Byte>): (r: seq<Byte>)
    ensures |r| == if p + |buf| <= |img| then |img| else p + |buf|
  {
    var e := Extend(img, p + |buf|);
    e[..p] + buf + e[p + |buf|..]
  }

  /** Every byte of `img` in `[p, p + n)` is zero; bytes beyond the end count as zero. */
  predicate ZeroAt(img: seq<Byte>, p: nat, n: nat) {
    forall i | p <= i < p + n && i < |img| :: img[i] == 0
  }

  lemma SpliceBytes(img: seq<Byte>, p: nat, buf: seq<Byte>)
    ensures forall i | p <= i < p + |buf| :: Splice(img, p, buf)[i] == buf[i - p]
    ensures forall i | 0 <= i < |img| && (i < p || p + |buf| <= i) :: Splice(img, p, buf)[i] == img[i]
    ensures forall i | |img| <= i < p :: Splice(img, p, buf)[i] == 0
  {
  }

  /** Writing at the end appends. */
  lemma SpliceAtEnd(img: seq<Byte>, buf: seq<Byte>)
    ensures Splice(img, |img|, buf) == img + buf
  {
    var e := Extend(img, |img| + |buf|);
    assert e[..|img|] == img;
  }

  /** Two writes, the second starting where the first ends, are one write. */
  lemma SpliceSplice(img: seq<Byte>, p: nat, a: seq<Byte>, b: seq<Byte>)
    ensures Splice(Splice(img, p, a), p + |a|, b) == Splice(img, p, a + b)
  {
  }

  lemma SpliceNothing(img: seq<Byte>, p: nat)
    requires p <= |img|
    ensures Splice(img, p, []) == img
  {
  }

  lemma SpliceSlice(img: seq<Byte>, p: nat, buf: seq<Byte>)
    ensures Splice(img, p, buf)[p..p + |buf|] == buf
  {
    SpliceBytes(img, p, buf);
  }

  lemma SpliceExtend(img: seq<Byte>, p: nat, buf: seq<Byte>)
    ensures Splice(Extend(img, p), p, buf) == Splice(img, p, buf)
  {
  }

  /** Writing zeros over zeros only grows the image. */
  lemma SpliceZeros(img: seq<Byte>, p: nat, n: nat)
    requires ZeroAt(img, p, n)
    ensures Splice(img, p, Zeros(n)) == Extend(img, p + n)
  {
  }

  /** The byte at `i` of an image after a write, bytes beyond the end counting as zero. */
  function ByteAt(img: seq<Byte>, i: nat): Byte {
    if i < |img| then img[i] else 0
  }

  lemma SpliceByte(img: seq<Byte>, p: nat, buf: seq<Byte>, i: nat)
    ensures ByteAt(Splice(img, p, buf), i) == if p <= i < p + |buf| then buf[i - p] else ByteAt(img, i)
  {
    SpliceBytes(img, p, buf);
  }

  lemma SameBytes(a: seq<Byte>, b: seq<Byte>)
    requires |a| == |b| && forall i: nat :: i < |a| ==> ByteAt(a, i) == ByteAt(b, i)
    ensures a == b
  {
    forall i: nat | i < |a| ensures a[i] == b[i] { assert ByteAt(a, i) == ByteAt(b, i); }
  }

  /** A write inside, or behind, an earlier write is a write to what was written. */
  lemma SpliceInside(img: seq<Byte>, off: nat, block: seq<Byte>, lo: nat, e: seq<Byte>)
    requires ZeroAt(img, off, |Splice(block, lo, e)|)
    ensures Splice(Splice(img, off, block), off + lo, e) == Splice(img, off, Splice(block, lo, e))
  {
    hide Splice;
    var l, r := Splice(Splice(img, off, block), off + lo, e), Splice(img, off, Splice(block, lo, e));
    forall i: nat | i < |l| ensures ByteAt(l, i) == ByteAt(r, i) {
      SpliceByte(Splice(img, off, block), off + lo, e, i);
      SpliceByte(img, off, block, i);
      SpliceByte(img, off, Splice(block, lo, e), i);
      if off <= i { SpliceByte(block, lo, e, i - off); }
    }
    SameBytes(l, r);
  }

  /** Clearing a write, and any zeros before it, leaves the image only grown. */
  lemma ClearAll(img: seq<Byte>, s: nat, p: nat, buf: seq<Byte>)
    requires s <= p && ZeroAt(img, s, p + |buf| - s)
    ensures Splice(Splice(img, p, buf), s, Zeros(p + |buf| - s)) == Extend(img, p + |buf|)
  {
  }

  /** What is still zero behind the first of two adjacent writes. */
  lemma ZeroAfterSplice(img: seq<Byte>, p: nat, a: seq<Byte>, n: nat)
    requires ZeroAt(img, p, |a| + n)
    ensures ZeroAt(img, p, |a|)
    ensures ZeroAt(Splice(img, p, a), p + |a|, n)
  {
    SpliceBytes(img, p, a);
  }

  /** `image` is the start of `data`, and the rest of `data` is zero. */
  predicate IsImage(data: seq<Byte>, image: seq<Byte>) {
    |image| <= |data| && data[..|image|] == image && forall i | |image| <= i < |data| :: data[i] == 0
  }

  lemma ImageByte(data: seq<Byte>, image: seq<Byte>, i: nat)
    requires IsImage(data, image) && i < |data|
    ensures data[i] == ByteAt(image, i)
  {
    assert i < |image| ==> data[..|image|][i] == image[i];
  }

  /** Writing into the storage is writing into the image. */
  lemma PutInStorage(data: seq<Byte>, image: seq<Byte>, p: nat, buf: seq<Byte>)
    requires IsImage(data, image) && p + |buf| <= |data|
    ensures IsImage(data[..p] + buf + data[p + |buf|..], Splice(image, p, buf))
  {
    var after, written := data[..p] + buf + data[p + |buf|..], Splice(image, p, buf);
    forall i: nat | i < |after| ensures after[i] == ByteAt(written, i) {
      SpliceByte(image, p, buf, i);
      ImageByte(data, image, i);
    }
    hide Splice, IsImage;
    ImageFromBytes(after, written);
  }

  lemma ImageFromBytes(data: seq<Byte>, image: seq<Byte>)
    requires |image| <= |data| && forall i: nat | i < |data| :: data[i] == ByteAt(image, i)
    ensures IsImage(data, image)
  {
  }

  /** `VectorSection`: a byte vector whose `Resize` fills with zeros. */
  class VectorSection {
    var data: seq<Byte>

    constructor ()
      ensures data == []
    {
      data := [];
    }

    method Resize(size: nat)
      modifies this
      ensures |data| == size
      ensures forall i | 0 <= i < size :: data[i] == if i < |old(data)| then old(data)[i] else 0
    {
      data := if size <= |data| then data[..size] else data + Zeros(size - |data|);
    }
  }

  /**
    * The random-access stream. `image` is the part of the section that has been reached; the
    * storage behind it is `image` followed by zeros, however far it has been grown.
    */
  class Stream {
    const section: VectorSection
    var position: nat
    var dataSize: nat
    ghost var image: seq<Byte>

    ghost predicate Valid()
      reads this, section
    {
      dataSize == |section.data| && position <= |image| && IsImage(section.data, image)
    }

    /** A stream over a section that may already hold data; it starts at position 0. */
    constructor (section: VectorSection)
      ensures Valid() && this.section == section
      ensures position == 0 && image == section.data
    {
      this.section := section;
      this.position := 0;
      this.dataSize := |section.data|;
      this.image := section.data;
    }

    lemma Storage()
      requires Valid()
      ensures |image| <= |section.data| && section.data[..|image|] == image
    {
    }

    lemma Reached()
      requires Valid()
      ensures position <= |image|
    {
    }

    /** Grows the section by half until `length` bytes fit after the position. */
    method EnsureStorage(length: nat)
      requires dataSize == |section.data| && IsImage(section.data, image)
      modifies this`dataSize, section
      ensures dataSize == |section.data| && position + length <= dataSize && IsImage(section.data, image)
    {
      var end := position + length;
      while end > dataSize
        invariant dataSize == |section.data| && IsImage(section.data, image)
        decreases end - dataSize
      {
        section.Resize(dataSize * 3 / 2 + 1);
        dataSize := |section.data|;
      }
    }

    method Seek(p: nat)
      requires Valid()
      modifies this, section
      ensures Valid()
      ensures position == p && image == Extend(old(image), p)
    {
      position := p;
      EnsureStorage(0);
      image := Extend(image, p);
    }

    /** `memcpy` to the position: the storage must already be there. */
    method Put(buffer: seq<Byte>)
      requires Valid()
      requires position + |buffer| <= dataSize
      modifies this, section
      ensures Valid()
      ensures position == old(position) + |buffer|
      ensures image == Splice(old(image), old(position), buffer)
    {
      hide Splice, IsImage;
      PutInStorage(section.data, image, position, buffer);
      section.data := section.data[..position] + buffer + section.data[position + |buffer|..];
      image := Splice(image, position, buffer);
      position := position + |buffer|;
    }

    method Overwrite(buffer: seq<Byte>)
      requires Valid()
      modifies this, section
      ensures Valid()
      ensures position == old(position) + |buffer|
      ensures image == Splice(old(image), old(position), buffer)
    {
      EnsureStorage(|buffer|);
      Put(buffer);
    }

    /** Does not allow overwriting: every byte written over must be zero. */
    method Write(buffer: seq<Byte>)
      requires Valid()
      requires ZeroAt(image, position, |buffer|)
      modifies this, section
      ensures Valid()
      ensures position == old(position) + |buffer|
      ensures image == Splice(old(image), old(position), buffer)
    {
      EnsureStorage(|buffer|);
      for i := 0 to |buffer| {
        assert section.data[position + i] == 0;
      }
      Put(buffer);
    }

    /** Zeroes `length` bytes at `p` without moving. */
    method Clear(p: nat, length: nat)
      requires Valid()
      requires p <= position
      modifies this, section
      ensures Valid()
      ensures position == old(position)
      ensures image == Splice(old(image), p, Zeros(length))
    {
      hide Splice, IsImage;
      EnsureStorage(length);
      PutInStorage(section.data, image, p, Zeros(length));
      section.data := section.data[..p] + Zeros(length) + section.data[p + length..];
      image := Splice(image, p, Zeros(length));
    }

    method WriteUleb128(value: UInt32) returns (length: nat)
      requires Valid()
      modifies this, section
      ensures Valid()
      ensures length == |Uleb(value)|
      ensures position == old(position) + length
      ensures image == Splice(old(image), old(position), Uleb(value))
    {
      EnsureStorage(8);
      UlebSize(value);
      var encoded := EncodeUnsignedLeb128(value);
      Put(encoded);
      length := |encoded|;
    }

    method WriteSleb128(value: Int32) returns (length: nat)
      requires Valid()
      modifies this, section
      ensures Valid()
      ensures length == |Sleb(value)|
      ensures position == old(position) + length
      ensures image == Splice(old(image), old(position), Sleb(value))
    {
      EnsureStorage(8);
      SlebSize(value);
      var encoded := EncodeSignedLeb128(value);
      Put(encoded);
      length := |encoded|;
    }

    method AlignTo(alignment: Alignment)
      requires Valid()
      modifies this, section
      ensures Valid()
      ensures position == AlignUp(old(position), alignment)
      ensures image == Extend(old(image), position)
    {
      Seek(AlignUp(position, alignment));
    }

    method Skip(count: nat)
      requires Valid()
      modifies this, section
      ensures Valid()
      ensures position == old(position) + count
      ensures image == Extend(old(image), position)
    {
      Seek(position + count);
    }
  }
}
