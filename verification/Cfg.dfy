/** The control-flow graph that dexdump prints for a method: blocks, and edges between them. */
module Cfg {
  /**
    * An instruction: its size in code units, its role in the control flow, the absolute targets of
    * a branch or switch, and the addresses of the catch handlers that cover it, in search order.
    */
  datatype Insn = Insn(
    size: nat,
    isBranch: bool,
    isUnconditional: bool,
    isSwitch: bool,
    isReturn: bool,
    isThrow: bool,
    isBasicBlockEnd: bool,
    targets: seq<nat>,
    handlers: seq<nat>)

  /** Branches, returns and throws end a block, a branch has one target, and a branch is not a switch. */
  predicate GoodInsn(x: Insn) {
    && x.size > 0
    && (x.isBranch || x.isReturn || x.isThrow ==> x.isBasicBlockEnd)
    && (x.isBranch ==> |x.targets| == 1)
    && (x.isSwitch ==> !x.isBranch)
  }

  predicate GoodCode(code: seq<Insn>) {
    forall i | 0 <= i < |code| :: GoodInsn(code[i])
  }

  // ------------------------------------------------------------------ positions

  /** The dex pc of the `i`-th instruction. */
  function Pc(code: seq<Insn>, i: nat): nat
    requires i <= |code|
  {
    if i == 0 then 0 else Pc(code, i - 1) + code[i - 1].size
  }

  lemma {:induction false} PcIncreases(code: seq<Insn>, i: nat, j: nat)
    requires GoodCode(code) && i < j <= |code|
    ensures Pc(code, i) < Pc(code, j)
    decreases j
  {
    assert GoodInsn(code[j - 1]);
    if i < j - 1 { PcIncreases(code, i, j - 1); }
  }

  lemma PcInjective(code: seq<Insn>, i: nat, j: nat)
    requires GoodCode(code) && i <= |code| && j <= |code| && Pc(code, i) == Pc(code, j)
    ensures i == j
  {
    hide *;
    if i < j { PcIncreases(code, i, j); }
    if j < i { PcIncreases(code, j, i); }
  }

  lemma PcZero(code: seq<Insn>, i: nat)
    requires GoodCode(code) && i <= |code|
    ensures Pc(code, i) == 0 <==> i == 0
  {
    hide GoodCode;
    PcInjectiveZero(code, i);
  }

  lemma PcInjectiveZero(code: seq<Insn>, i: nat)
    requires GoodCode(code) && i <= |code|
    ensures i > 0 ==> Pc(code, i) > Pc(code, 0) == 0
  {
    if i > 0 { PcIncreases(code, 0, i); }
  }

  // ------------------------------------------------------------------ blocks

  predicate Jumps(x: Insn) {
    x.isBranch || x.isSwitch
  }

  /** Some branch or switch among the first `n` instructions goes to `pc`. */
  predicate IsTarget(code: seq<Insn>, n: nat, pc: nat)
    requires n <= |code|
  {
    exists i | 0 <= i < n :: Jumps(code[i]) && pc in code[i].targets
  }

  predicate StartsBlock(code: seq<Insn>, i: nat)
    requires i < |code|
  {
    i == 0 || IsTarget(code, |code|, Pc(code, i)) || code[i - 1].isSwitch || code[i - 1].isBasicBlockEnd
  }

  /** How many blocks start among the first `n` instructions. */
  function Starts(code: seq<Insn>, n: nat): nat
    requires n <= |code|
  {
    if n == 0 then 0 else Starts(code, n - 1) + (if StartsBlock(code, n - 1) then 1 else 0)
  }

  lemma {:induction false} StartsPositive(code: seq<Insn>, n: nat)
    requires 0 < n <= |code|
    ensures Starts(code, n) > 0
  {
    hide IsTarget;
    if n > 1 { StartsPositive(code, n - 1); }
  }

  /** The id of the block that holds instruction `i`. */
  function BlockOf(code: seq<Insn>, i: nat): nat
    requires i < |code|
  {
    StartsPositive(code, i + 1);
    Starts(code, i + 1) - 1
  }

  /** Ids are dense and follow the code: a block has one more than the last, an instruction inside a block the same. */
  lemma BlockStep(code: seq<Insn>, i: nat)
    requires i < |code|
    ensures i == 0 ==> BlockOf(code, i) == 0
    ensures i > 0 ==> BlockOf(code, i) == BlockOf(code, i - 1) + (if StartsBlock(code, i) then 1 else 0)
  {
    hide IsTarget;
    assert Starts(code, 0) == 0 && StartsBlock(code, 0);
    assert Starts(code, i + 1) == Starts(code, i) + (if StartsBlock(code, i) then 1 else 0);
  }

  /** The first instruction of the block that holds instruction `i`. */
  function BlockStart(code: seq<Insn>, i: nat): (b: nat)
    requires i < |code|
    ensures b <= i && StartsBlock(code, b)
  {
    if StartsBlock(code, i) then i else BlockStart(code, i - 1)
  }

  lemma {:induction false} SameBlock(code: seq<Insn>, i: nat)
    requires i < |code|
    ensures BlockOf(code, BlockStart(code, i)) == BlockOf(code, i)
  {
    hide StartsBlock;
    BlockStep(code, i);
    if !StartsBlock(code, i) {
      FirstStarts(code);
      SameBlock(code, i - 1);
    }
  }

  lemma FirstStarts(code: seq<Insn>)
    requires code != []
    ensures StartsBlock(code, 0)
  {
  }

  /** Blocks partition the instructions: two share an id exactly when no block starts between them. */
  lemma {:induction false} SameIdIffSameStart(code: seq<Insn>, i: nat, j: nat)
    requires i <= j < |code|
    ensures BlockOf(code, i) <= BlockOf(code, j)
    ensures BlockOf(code, i) == BlockOf(code, j) <==> BlockStart(code, i) == BlockStart(code, j)
    ensures BlockOf(code, i) == BlockOf(code, j) <==> forall k | i < k <= j :: !StartsBlock(code, k)
    decreases j
  {
    hide StartsBlock, BlockOf;
    BlockStep(code, j);
    if i < j {
      SameIdIffSameStart(code, i, j - 1);
      if StartsBlock(code, j) {
        assert BlockStart(code, j) == j && BlockStart(code, i) <= i;
      } else {
        FirstStarts(code);
        assert BlockStart(code, j) == BlockStart(code, j - 1);
      }
    }
  }

  // ------------------------------------------------------------------ finding branch targets

  /** The first loop: everything a branch or a switch may go to. */
  method CollectTargets(code: seq<Insn>) returns (targets: set<nat>)
    requires GoodCode(code)
    ensures forall pc :: pc in targets <==> IsTarget(code, |code|, pc)
  {
    targets := {};
    for i := 0 to |code|
      invariant forall pc :: pc in targets <==> IsTarget(code, i, pc)
    {
      var inst := code[i];
      ghost var before := targets;
      if inst.isBranch {
        assert GoodInsn(inst);
        targets := targets + {inst.targets[0]};
        assert forall pc :: pc in inst.targets <==> pc == inst.targets[0];
      } else if inst.isSwitch {
        for j := 0 to |inst.targets|
          invariant forall pc :: pc in targets <==> pc in before || pc in inst.targets[..j]
        {
          assert inst.targets[..j + 1] == inst.targets[..j] + [inst.targets[j]];
          targets := targets + {inst.targets[j]};
        }
        assert inst.targets[..|inst.targets|] == inst.targets;
      }
      assert forall pc :: pc in targets <==> pc in before || (Jumps(inst) && pc in inst.targets);
      forall pc ensures pc in targets <==> IsTarget(code, i + 1, pc) {
        TargetStep(code, i, pc);
      }
    }
  }

  lemma TargetStep(code: seq<Insn>, i: nat, pc: nat)
    requires i < |code|
    ensures IsTarget(code, i + 1, pc) <==> IsTarget(code, i, pc) || (Jumps(code[i]) && pc in code[i].targets)
  {
  }

  // ------------------------------------------------------------------ numbering the blocks

  /** The ids of block starts, and of all instructions, by dex pc. */
  datatype Numbering = Numbering(nodeId: map<nat, nat>, inclId: map<nat, nat>)

  /** Every one of the first `n` instructions has the id of its block. */
  predicate InclUpTo(code: seq<Insn>, n: nat, inclId: map<nat, nat>)
    requires n <= |code|
  {
    && (forall i | 0 <= i < n :: Pc(code, i) in inclId && inclId[Pc(code, i)] == BlockOf(code, i))
    && (forall pc | pc in inclId :: exists i | 0 <= i < n :: Pc(code, i) == pc)
  }

  /** Every block start among them, and nothing else, has an id. */
  predicate NodesUpTo(code: seq<Insn>, n: nat, nodeId: map<nat, nat>)
    requires n <= |code|
  {
    && (forall i | 0 <= i < n && StartsBlock(code, i) :: Pc(code, i) in nodeId && nodeId[Pc(code, i)] == BlockOf(code, i))
    && (forall pc | pc in nodeId :: exists i | 0 <= i < n && StartsBlock(code, i) :: Pc(code, i) == pc)
    && |nodeId| == Starts(code, n)
  }

  predicate NumberedUpTo(code: seq<Insn>, n: nat, m: Numbering)
    requires n <= |code|
  {
    InclUpTo(code, n, m.inclId) && NodesUpTo(code, n, m.nodeId)
  }

  /** The loop that prints the nodes. */
  method NumberBlocks(code: seq<Insn>, targets: set<nat>) returns (m: Numbering)
    requires GoodCode(code) && forall pc :: pc in targets <==> IsTarget(code, |code|, pc)
    ensures NumberedUpTo(code, |code|, m)
  {
    hide *;
    var nodeId: map<nat, nat>, inclId: map<nat, nat> := map[], map[];
    var dexPc := 0;
    var forceNewBlock := false;
    NothingNumbered(code);
    for i := 0 to |code|
      invariant dexPc == Pc(code, i)
      invariant i > 0 ==> forceNewBlock == (code[i - 1].isSwitch || code[i - 1].isBasicBlockEnd)
      invariant InclUpTo(code, i, inclId) && NodesUpTo(code, i, nodeId)
    {
      var inst := code[i];
      ghost var nodes, incl := nodeId, inclId;
      StartsIff(code, i);
      NumberingGrows(code, i, nodes);
      if dexPc == 0 || dexPc in targets || forceNewBlock {
        var id := |nodeId|;
        nodeId := nodeId[dexPc := id];
        forceNewBlock := false;
      }
      NodesStep(code, i, nodes, nodeId);
      inclId := inclId[dexPc := |nodeId| - 1];
      InclStep(code, i, incl, inclId);
      forceNewBlock := inst.isSwitch || inst.isBasicBlockEnd;
      dexPc := dexPc + inst.size;
    }
    m := Numbering(nodeId, inclId);
    NumberedIs(code, m);
  }

  lemma NumberedIs(code: seq<Insn>, m: Numbering)
    ensures NumberedUpTo(code, |code|, m) <==> InclUpTo(code, |code|, m.inclId) && NodesUpTo(code, |code|, m.nodeId)
  {
    hide InclUpTo, NodesUpTo;
  }

  lemma NothingNumbered(code: seq<Insn>)
    ensures InclUpTo(code, 0, map[]) && NodesUpTo(code, 0, map[]) && Pc(code, 0) == 0
  {
  }

  /** The loop's test for a new block. */
  lemma StartsIff(code: seq<Insn>, i: nat)
    requires GoodCode(code) && i < |code|
    ensures StartsBlock(code, i)
         <==> Pc(code, i) == 0 || IsTarget(code, |code|, Pc(code, i)) || (i > 0 && (code[i - 1].isSwitch || code[i - 1].isBasicBlockEnd))
    ensures Pc(code, i) == 0 <==> i == 0
    ensures Pc(code, i + 1) == Pc(code, i) + code[i].size
  {
    hide IsTarget, GoodCode;
    PcZero(code, i);
  }

  /** The next pc is not numbered yet, so a new block gets the number of blocks so far. */
  lemma NumberingGrows(code: seq<Insn>, i: nat, nodes: map<nat, nat>)
    requires GoodCode(code) && i < |code| && NodesUpTo(code, i, nodes)
    ensures Pc(code, i) !in nodes
    ensures |nodes| + (if StartsBlock(code, i) then 1 else 0) - 1 == BlockOf(code, i)
    ensures |nodes| == Starts(code, i)
  {
    hide StartsBlock, IsTarget, GoodCode, Pc;
    if Pc(code, i) in nodes {
      var j :| 0 <= j < i && StartsBlock(code, j) && Pc(code, j) == Pc(code, i);
      PcInjective(code, i, j);
    }
  }

  lemma StartsStep(code: seq<Insn>, i: nat)
    requires i < |code|
    ensures Starts(code, i + 1) == Starts(code, i) + (if StartsBlock(code, i) then 1 else 0)
  {
    hide StartsBlock;
  }

  lemma NodesStep(code: seq<Insn>, i: nat, before: map<nat, nat>, after: map<nat, nat>)
    requires GoodCode(code) && i < |code| && NodesUpTo(code, i, before) && Pc(code, i) !in before
    requires |before| + (if StartsBlock(code, i) then 1 else 0) - 1 == BlockOf(code, i) && |before| == Starts(code, i)
    requires after == if StartsBlock(code, i) then before[Pc(code, i) := |before|] else before
    ensures NodesUpTo(code, i + 1, after) && |after| - 1 == BlockOf(code, i)
  {
    hide StartsBlock, Pc, GoodCode, BlockOf, Starts;
    StartsStep(code, i);
    forall j | 0 <= j < i && StartsBlock(code, j) ensures Pc(code, j) in after && after[Pc(code, j)] == BlockOf(code, j) {
      assert Pc(code, j) in before;
    }
    forall pc | pc in after ensures exists j | 0 <= j < i + 1 && StartsBlock(code, j) :: Pc(code, j) == pc {
      if pc in before {
        var j :| 0 <= j < i && StartsBlock(code, j) && Pc(code, j) == pc;
      }
    }
  }

  lemma InclStep(code: seq<Insn>, i: nat, before: map<nat, nat>, after: map<nat, nat>)
    requires GoodCode(code) && i < |code| && InclUpTo(code, i, before)
    requires after == before[Pc(code, i) := BlockOf(code, i)]
    ensures InclUpTo(code, i + 1, after)
  {
    hide BlockOf, Pc, GoodCode;
    forall pc | pc in after ensures exists j | 0 <= j < i + 1 :: Pc(code, j) == pc {
      if pc != Pc(code, i) {
        var j :| 0 <= j < i && Pc(code, j) == pc;
      }
    }
    forall j | 0 <= j < i ensures Pc(code, j) != Pc(code, i) {
      if Pc(code, j) == Pc(code, i) { PcInjective(code, i, j); }
    }
  }

  /** The numbering, read at a pc. */
  lemma NodeIdAt(code: seq<Insn>, m: Numbering, pc: nat)
    requires NumberedUpTo(code, |code|, m)
    ensures pc in m.nodeId ==> exists i | 0 <= i < |code| && StartsBlock(code, i) :: Pc(code, i) == pc
    ensures pc in m.inclId ==> exists i | 0 <= i < |code| :: Pc(code, i) == pc
  {
    hide Starts, StartsBlock, BlockOf, Pc;
  }

  lemma NodeIdOf(code: seq<Insn>, m: Numbering, i: nat)
    requires GoodCode(code) && NumberedUpTo(code, |code|, m) && i < |code|
    ensures Pc(code, i) in m.inclId && m.inclId[Pc(code, i)] == BlockOf(code, i)
    ensures Pc(code, i) in m.nodeId <==> StartsBlock(code, i)
    ensures StartsBlock(code, i) ==> m.nodeId[Pc(code, i)] == BlockOf(code, i)
  {
    hide Starts, StartsBlock, BlockOf, Pc, GoodCode;
    if Pc(code, i) in m.nodeId {
      var j :| 0 <= j < |code| && StartsBlock(code, j) && Pc(code, j) == Pc(code, i);
      PcInjective(code, i, j);
    }
  }
}
