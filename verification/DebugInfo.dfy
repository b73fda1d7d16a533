/** Finding the end of a debug_info_item by running over its operations. */
module DebugInfo {
  import opened Bytes
  import opened Leb128

  // ------------------------------------------------------------------ items

  /** Any LEB128 encoding, shortest or padded: a fifth byte always ends it. */
  predicate IsLeb(b: seq<Byte>) {
    && 1 <= |b| <= 5
    && (forall i | 0 <= i < |b| - 1 :: b[i] >= 128)
    && (|b| < 5 ==> b[|b| - 1] < 128)
  }

  predicate AllLeb(bs: seq<seq<Byte>>) {
    forall i | 0 <= i < |bs| :: IsLeb(bs[i])
  }

  datatype DebugOp = DebugOp(code: Byte, operands: seq<seq<Byte>>)

  datatype DebugItem = DebugItem(lineStart: seq<Byte>, count: seq<Byte>, names: seq<seq<Byte>>, ops: seq<DebugOp>)

  /** The operands of an opcode; opcodes without any include all the special ones. */
  function OperandCount(code: Byte): nat {
    match code
    case 1 => 1
    case 2 => 1
    case 3 => 3
    case 4 => 4
    case 5 => 1
    case 6 => 1
    case 9 => 1
    case _ => 0
  }

  predicate GoodOp(op: DebugOp) {
    op.code != 0 && |op.operands| == OperandCount(op.code) && AllLeb(op.operands)
  }

  predicate GoodItem(d: DebugItem) {
    && IsLeb(d.lineStart) && IsLeb(d.count) && AllLeb(d.names)
    && LebValue(d.count) == |d.names|
    && forall i | 0 <= i < |d.ops| :: GoodOp(d.ops[i])
  }

  /** The value of an encoding. */
  function LebValue(b: seq<Byte>): nat {
    match ReadUleb(b)
    case None => 0
    case Some(d) => d.value
  }

  function Concat(bs: seq<seq<Byte>>): seq<Byte> {
    if bs == [] then [] else bs[0] + Concat(bs[1..])
  }

  function OpBytes(op: DebugOp): seq<Byte> {
    [op.code] + Concat(op.operands)
  }

  function OpsBytes(ops: seq<DebugOp>): seq<Byte> {
    if ops == [] then [] else OpBytes(ops[0]) + OpsBytes(ops[1..])
  }

  /** The item, up to and with its end marker. */
  function ItemBytes(d: DebugItem): seq<Byte> {
    d.lineStart + d.count + Concat(d.names) + OpsBytes(d.ops) + [0]
  }

  // ------------------------------------------------------------------ decoding one LEB128 value

  lemma {:induction false} LebFrom(b: seq<Byte>, k: nat, rest: seq<Byte>)
    requires k <= 4 && 1 <= |b| <= 5 - k && (forall i | 0 <= i < |b| - 1 :: b[i] >= 128) && (|b| < 5 - k ==> b[|b| - 1] < 128)
    ensures UlebFrom(b + rest, k).Some? && UlebFrom(b + rest, k).value.rest == rest
    ensures UlebFrom(b, k).Some? && UlebFrom(b + rest, k).value.value == UlebFrom(b, k).value.value
    ensures SlebFrom(b + rest, k).Some? && SlebFrom(b + rest, k).value.rest == rest
    decreases |b|
  {
    assert (b + rest)[1..] == b[1..] + rest && (b + rest)[0] == b[0];
    if |b| == 1 {
      assert b[1..] + rest == rest;
    } else {
      LebFrom(b[1..], k + 1, rest);
    }
  }

  /** Decoding skips exactly the encoding, whatever follows, and its value does not depend on what follows. */
  lemma LebSkipped(b: seq<Byte>, rest: seq<Byte>)
    requires IsLeb(b)
    ensures ReadUleb(b + rest) == Some(Decoded(LebValue(b), rest))
    ensures ReadSleb(b + rest).Some? && ReadSleb(b + rest).value.rest == rest
  {
    hide UlebFrom, SlebFrom;
    LebFrom(b, 0, rest);
  }

  /** `DecodeUnsignedLeb128`, moving the stream. */
  method DecodeUnsigned(stream: seq<Byte>, ghost b: seq<Byte>, ghost rest: seq<Byte>) returns (value: nat, after: seq<Byte>)
    requires IsLeb(b) && stream == b + rest
    ensures value == LebValue(b) && after == rest
  {
    hide *;
    LebSkipped(b, rest);
    var d := ReadUleb(stream).value;
    value, after := d.value, d.rest;
  }

  method DecodeSigned(stream: seq<Byte>, ghost b: seq<Byte>, ghost rest: seq<Byte>) returns (value: int, after: seq<Byte>)
    requires IsLeb(b) && stream == b + rest
    ensures after == rest
  {
    hide *;
    LebSkipped(b, rest);
    var d := ReadSleb(stream).value;
    value, after := d.value, d.rest;
  }

  // ------------------------------------------------------------------ running over the item

  lemma ConcatStep(bs: seq<seq<Byte>>, i: nat, rest: seq<Byte>)
    requires i < |bs|
    ensures Concat(bs[i..]) + rest == bs[i] + (Concat(bs[i + 1..]) + rest)
    ensures AllLeb(bs) ==> IsLeb(bs[i])
  {
    hide IsLeb;
    assert bs[i..][0] == bs[i] && bs[i..][1..] == bs[i + 1..];
  }

  lemma ConcatEnd(bs: seq<seq<Byte>>, rest: seq<Byte>)
    ensures Concat(bs[|bs|..]) + rest == rest && bs[0..] == bs
  {
    assert bs[|bs|..] == [];
  }

  /** `DecodeUnsignedLeb128`, for the operand `i` of an operation. */
  method SkipUnsigned(stream: seq<Byte>, ghost bs: seq<seq<Byte>>, ghost i: nat, ghost rest: seq<Byte>) returns (after: seq<Byte>)
    requires AllLeb(bs) && i < |bs| && stream == Concat(bs[i..]) + rest
    ensures after == Concat(bs[i + 1..]) + rest
  {
    hide *;
    ConcatStep(bs, i, rest);
    var _, s := DecodeUnsigned(stream, bs[i], Concat(bs[i + 1..]) + rest);
    after := s;
  }

  method SkipSigned(stream: seq<Byte>, ghost bs: seq<seq<Byte>>, ghost i: nat, ghost rest: seq<Byte>) returns (after: seq<Byte>)
    requires AllLeb(bs) && i < |bs| && stream == Concat(bs[i..]) + rest
    ensures after == Concat(bs[i + 1..]) + rest
  {
    hide *;
    ConcatStep(bs, i, rest);
    var _, s := DecodeSigned(stream, bs[i], Concat(bs[i + 1..]) + rest);
    after := s;
  }

  /** The switch over the opcodes: each decodes its own operands, one call after the other. */
  method SkipOperands(stream: seq<Byte>, code: Byte, ghost bs: seq<seq<Byte>>, ghost rest: seq<Byte>) returns (after: seq<Byte>)
    requires AllLeb(bs) && |bs| == OperandCount(code) && stream == Concat(bs) + rest
    ensures after == rest
  {
    hide Concat, IsLeb, AllLeb;
    ConcatEnd(bs, rest);
    after := stream;
    match code
    case 1 =>
      after := SkipUnsigned(after, bs, 0, rest); // address difference
    case 2 =>
      after := SkipSigned(after, bs, 0, rest); // line difference
    case 3 =>
      after := SkipUnsigned(after, bs, 0, rest); // register
      after := SkipUnsigned(after, bs, 1, rest); // name
      after := SkipUnsigned(after, bs, 2, rest); // type
    case 4 =>
      after := SkipUnsigned(after, bs, 0, rest); // register
      after := SkipUnsigned(after, bs, 1, rest); // name
      after := SkipUnsigned(after, bs, 2, rest); // type
      after := SkipUnsigned(after, bs, 3, rest); // signature
    case 5 =>
      after := SkipUnsigned(after, bs, 0, rest); // register
    case 6 =>
      after := SkipUnsigned(after, bs, 0, rest); // register
    case 9 =>
      after := SkipUnsigned(after, bs, 0, rest); // file name
    case _ =>
  }

  lemma OpsStep(ops: seq<DebugOp>, i: nat, rest: seq<Byte>)
    requires i < |ops|
    ensures var s := OpsBytes(ops[i..]) + rest;
            s != [] && s[0] == ops[i].code && s[1..] == Concat(ops[i].operands) + (OpsBytes(ops[i + 1..]) + rest)
  {
    hide Concat;
    assert ops[i..][0] == ops[i] && ops[i..][1..] == ops[i + 1..];
    assert OpsBytes(ops[i..]) + rest == [ops[i].code] + (Concat(ops[i].operands) + (OpsBytes(ops[i + 1..]) + rest));
  }

  lemma OpsEnd(ops: seq<DebugOp>, rest: seq<Byte>)
    ensures OpsBytes(ops[|ops|..]) + rest == rest && ops[0..] == ops
  {
    assert ops[|ops|..] == [];
  }

  lemma GoodItemOps(d: DebugItem, i: nat)
    requires GoodItem(d) && i < |d.ops|
    ensures GoodOp(d.ops[i])
  {
    hide GoodOp;
  }

  lemma GoodOpIs(op: DebugOp)
    requires GoodOp(op)
    ensures op.code != 0 && |op.operands| == OperandCount(op.code) && AllLeb(op.operands)
  {
    hide OperandCount, AllLeb;
  }

  lemma GoodItemIs(d: DebugItem)
    requires GoodItem(d)
    ensures IsLeb(d.lineStart) && IsLeb(d.count) && AllLeb(d.names) && LebValue(d.count) == |d.names|
  {
    hide IsLeb, LebValue, GoodOp;
  }

  lemma ItemParts(d: DebugItem, rest: seq<Byte>)
    ensures ItemBytes(d) + rest == d.lineStart + (d.count + (Concat(d.names) + (OpsBytes(d.ops) + ([0] + rest))))
  {
    hide Concat, OpsBytes;
  }

  /**
    * `GetDebugInfoStreamSize`: on any well-formed item, followed by anything, it stops, and returns
    * the item's length. Zero bytes inside operands do not end it.
    */
  method GetDebugInfoStreamSize(stream: seq<Byte>, ghost d: DebugItem, ghost rest: seq<Byte>) returns (size: nat)
    requires GoodItem(d) && stream == ItemBytes(d) + rest
    ensures size == |ItemBytes(d)|
  {
    hide *;
    ItemParts(d, rest);
    GoodItemIs(d);
    ghost var behind := [0] + rest;
    var _, s := DecodeUnsigned(stream, d.lineStart, d.count + (Concat(d.names) + (OpsBytes(d.ops) + behind)));
    var parametersSize, s1 := DecodeUnsigned(s, d.count, Concat(d.names) + (OpsBytes(d.ops) + behind));
    s := s1;
    ConcatEnd(d.names, OpsBytes(d.ops) + behind);
    for i := 0 to parametersSize
      invariant s == Concat(d.names[i..]) + (OpsBytes(d.ops) + behind)
    {
      ConcatStep(d.names, i, OpsBytes(d.ops) + behind);
      var _, s2 := DecodeUnsigned(s, d.names[i], Concat(d.names[i + 1..]) + (OpsBytes(d.ops) + behind));
      s := s2;
    }
    OpsEnd(d.ops, behind);
    ghost var i := 0;
    while true
      invariant i <= |d.ops| && s == OpsBytes(d.ops[i..]) + behind
      decreases |d.ops| - i
    {
      if i < |d.ops| {
        OpsStep(d.ops, i, behind);
        GoodItemOps(d, i);
        GoodOpIs(d.ops[i]);
      }
      var opcode := s[0];
      s := s[1..];
      if opcode == 0 {
        size := |stream| - |s|;
        break;
      }
      s := SkipOperands(s, opcode, d.ops[i].operands, OpsBytes(d.ops[i + 1..]) + behind);
      i := i + 1;
    }
  }

  // ------------------------------------------------------------------ the same, as a function

  function SkipLebs(s: seq<Byte>, n: nat): (r: Option<seq<Byte>>)
    ensures r.Some? ==> |r.value| <= |s|
    decreases n
  {
    if n == 0 then Some(s)
    else
      match ReadUleb(s)
      case None => None
      case Some(d) => SkipLebs(d.rest, n - 1)
  }

  /** What follows the operations, which end with a zero opcode. */
  function OpsRest(s: seq<Byte>): Option<seq<Byte>>
    decreases |s|
  {
    if s == [] then None
    else if s[0] == 0 then Some(s[1..])
    else
      match SkipLebs(s[1..], OperandCount(s[0]))
      case None => None
      case Some(rest) => OpsRest(rest)
  }

  /** What follows a debug_info_item. */
  function DebugRest(s: seq<Byte>): Option<seq<Byte>> {
    match ReadUleb(s)
    case None => None
    case Some(line) =>
      match ReadUleb(line.rest)
      case None => None
      case Some(count) =>
        match SkipLebs(count.rest, count.value)
        case None => None
        case Some(rest) => OpsRest(rest)
  }

  lemma {:induction false} LebsSkipped(bs: seq<seq<Byte>>, rest: seq<Byte>)
    requires AllLeb(bs)
    ensures SkipLebs(Concat(bs) + rest, |bs|) == Some(rest)
  {
    hide IsLeb, ReadUleb;
    if bs == [] {
      assert Concat(bs) + rest == rest;
    } else {
      assert Concat(bs) + rest == bs[0] + (Concat(bs[1..]) + rest);
      LebSkipped(bs[0], Concat(bs[1..]) + rest);
      LebsSkipped(bs[1..], rest);
    }
  }

  lemma {:induction false} OpsSkipped(ops: seq<DebugOp>, rest: seq<Byte>)
    requires forall i | 0 <= i < |ops| :: GoodOp(ops[i])
    ensures OpsRest(OpsBytes(ops) + ([0] + rest)) == Some(rest)
  {
    hide GoodOp, SkipLebs, OperandCount, Concat;
    if ops == [] {
      assert OpsBytes(ops) + ([0] + rest) == [0] + rest;
    } else {
      var more := OpsBytes(ops[1..]) + ([0] + rest);
      var s := OpsBytes(ops) + ([0] + rest);
      assert s == [ops[0].code] + (Concat(ops[0].operands) + more);
      assert s[1..] == Concat(ops[0].operands) + more;
      GoodOpIs(ops[0]);
      LebsSkipped(ops[0].operands, more);
      OpsSkipped(ops[1..], rest);
    }
  }

  /** A well-formed item is skipped exactly, whatever follows it. */
  lemma ItemSkipped(d: DebugItem, rest: seq<Byte>)
    requires GoodItem(d)
    ensures DebugRest(ItemBytes(d) + rest) == Some(rest)
  {
    hide GoodItem, ItemBytes, OpsRest, SkipLebs, ReadUleb, OpsBytes, Concat;
    ItemParts(d, rest);
    GoodItemIs(d);
    forall i | 0 <= i < |d.ops| ensures GoodOp(d.ops[i]) { GoodItemOps(d, i); }
    var behind := OpsBytes(d.ops) + ([0] + rest);
    LebSkipped(d.lineStart, d.count + (Concat(d.names) + behind));
    LebSkipped(d.count, Concat(d.names) + behind);
    LebsSkipped(d.names, behind);
    OpsSkipped(d.ops, rest);
  }
}
