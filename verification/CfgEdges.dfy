/** The edges of the graph: fall-through, taken and exception edges, as the two passes emit them. */
module CfgEdges {
  import opened Bytes
  import opened Cfg

  /** An edge from a block, or from one of its instructions, to an instruction of a block. */
  datatype Edge = Edge(fromNode: nat, fromPort: Option<nat>, toNode: nat, toPort: nat)

  // ------------------------------------------------------------------ regular edges

  predicate NoRepeats(edges: seq<Edge>) {
    forall i, j | 0 <= i < j < |edges| :: edges[i] != edges[j]
  }

  lemma RepeatsNot(edges: seq<Edge>, e: Edge)
    requires NoRepeats(edges) && e !in edges
    ensures NoRepeats(edges + [e])
  {
    forall i, j | 0 <= i < j < |edges + [e]| ensures (edges + [e])[i] != (edges + [e])[j] {
      assert i < |edges| && (edges + [e])[i] == edges[i] && edges[i] in edges;
    }
  }

  predicate FallsThrough(x: Insn) {
    !(x.isReturn || x.isThrow || (x.isBranch && x.isUnconditional))
  }

  function RegularAt(code: seq<Insn>, i: nat): Edge
    requires 0 < i < |code|
  {
    Edge(BlockOf(code, i - 1), Some(Pc(code, i - 1)), BlockOf(code, i), Pc(code, i))
  }

  /** Consecutive instructions, the second one starting a block and the first one going on to it. */
  predicate Joined(code: seq<Insn>, i: nat)
    requires i < |code|
  {
    i > 0 && StartsBlock(code, i) && FallsThrough(code[i - 1])
  }

  predicate IsRegular(code: seq<Insn>, n: nat, e: Edge)
    requires n <= |code|
  {
    exists i | 0 <= i < n && Joined(code, i) :: e == RegularAt(code, i)
  }

  lemma RegularStep(code: seq<Insn>, i: nat, e: Edge)
    requires i < |code|
    ensures IsRegular(code, i + 1, e) <==> IsRegular(code, i, e) || (Joined(code, i) && e == RegularAt(code, i))
  {
    hide Joined, RegularAt;
  }

  // ------------------------------------------------------------------ taken edges

  /** A target of instruction `i`, if it is the start of an instruction `j`. */
  predicate IsTakenBy(code: seq<Insn>, m: Numbering, i: nat, e: Edge)
    requires i < |code|
  {
    && Jumps(code[i]) && e.toPort in code[i].targets && e.toPort in m.nodeId
    && e == Edge(BlockOf(code, i), Some(Pc(code, i)), m.nodeId[e.toPort], e.toPort)
  }

  predicate IsTaken(code: seq<Insn>, m: Numbering, n: nat, e: Edge)
    requires n <= |code|
  {
    exists i | 0 <= i < n :: IsTakenBy(code, m, i, e)
  }

  lemma TakenStep(code: seq<Insn>, m: Numbering, i: nat, e: Edge)
    requires i < |code|
    ensures IsTaken(code, m, i + 1, e) <==> IsTaken(code, m, i, e) || IsTakenBy(code, m, i, e)
  {
    hide IsTakenBy;
  }

  /** An edge from an instruction to one of some targets. */
  predicate TargetEdge(e: Edge, node: nat, dexPc: nat, targets: seq<nat>, nodeId: map<nat, nat>) {
    e.toPort in targets && e.toPort in nodeId && e == Edge(node, Some(dexPc), nodeId[e.toPort], e.toPort)
  }

  /** The edges of a branch or a switch, one target after the other. */
  method AddTaken(taken: seq<Edge>, node: nat, dexPc: nat, targets: seq<nat>, nodeId: map<nat, nat>) returns (r: seq<Edge>)
    ensures forall e :: e in r <==> e in taken || TargetEdge(e, node, dexPc, targets, nodeId)
  {
    r := taken;
    for j := 0 to |targets|
      invariant forall e :: e in r <==> e in taken || TargetEdge(e, node, dexPc, targets[..j], nodeId)
    {
      assert targets[..j + 1] == targets[..j] + [targets[j]];
      if targets[j] in nodeId {
        r := r + [Edge(node, Some(dexPc), nodeId[targets[j]], targets[j])];
      }
    }
    assert targets[..|targets|] == targets;
  }

  // ------------------------------------------------------------------ exception edges

  function HandlerSet(x: Insn): set<nat> {
    set h | h in x.handlers
  }

  /** The handlers of an instruction, as the iterator gives them. */
  method CollectHandlers(targets: set<nat>, x: Insn) returns (r: set<nat>)
    ensures r == targets + HandlerSet(x)
  {
    r := targets;
    for j := 0 to |x.handlers|
      invariant r == targets + set h | h in x.handlers[..j]
    {
      assert x.handlers[..j + 1] == x.handlers[..j] + [x.handlers[j]];
      r := r + {x.handlers[j]};
    }
    assert x.handlers[..|x.handlers|] == x.handlers;
  }

  /**
    * The common set behind instruction `i`: its own handlers, or nothing if the set before it held
    * one that is not among them.
    */
  function Common(code: seq<Insn>, i: nat): set<nat>
    requires i < |code|
  {
    if StartsBlock(code, i) || Common(code, i - 1) <= HandlerSet(code[i]) then HandlerSet(code[i]) else {}
  }

  /** Instruction `i` does not have all of the common set, which is then given up. */
  predicate GivesUp(code: seq<Insn>, i: nat)
    requires i < |code|
  {
    !StartsBlock(code, i) && !(Common(code, i - 1) <= HandlerSet(code[i]))
  }

  lemma CommonStep(code: seq<Insn>, i: nat)
    requires i < |code|
    ensures StartsBlock(code, i) ==> Common(code, i) == HandlerSet(code[i]) && !GivesUp(code, i)
    ensures !StartsBlock(code, i) ==> i > 0 && (GivesUp(code, i) <==> HandlerSet(code[i]) != Common(code, i - 1) + HandlerSet(code[i]))
    ensures !StartsBlock(code, i) ==> Common(code, i) == if GivesUp(code, i) then {} else HandlerSet(code[i])
  {
    hide StartsBlock, HandlerSet;
    FirstStarts(code);
  }

  /** An edge from a block to one of a set of handlers. */
  predicate CommonEdge(e: Edge, node: nat, targets: set<nat>, inclId: map<nat, nat>) {
    e.toPort in targets && e.toPort in inclId && e == Edge(node, None, inclId[e.toPort], e.toPort)
  }

  /** The edges from a block to a common set of handlers. */
  method AddCommon(edges: seq<Edge>, node: nat, targets: set<nat>, inclId: map<nat, nat>) returns (r: seq<Edge>)
    requires NoRepeats(edges) && forall e | e in edges :: e.fromNode != node
    ensures forall e :: e in r <==> e in edges || CommonEdge(e, node, targets, inclId)
    ensures NoRepeats(r)
  {
    hide NoRepeats;
    r := edges;
    var todo := targets;
    while todo != {}
      invariant todo <= targets && NoRepeats(r)
      invariant forall e :: e in r <==> e in edges || CommonEdge(e, node, targets - todo, inclId)
      decreases |todo|
    {
      var h :| h in todo;
      if h in inclId {
        RepeatsNot(r, Edge(node, None, inclId[h], h));
        r := r + [Edge(node, None, inclId[h], h)];
      }
      todo := todo - {h};
    }
  }

  /** The end of a block: the next instruction is not there, or starts another one. */
  predicate EndsBlock(code: seq<Insn>, n: nat)
    requires n <= |code|
  {
    n == |code| || StartsBlock(code, n)
  }

  lemma EndsBlockIs(code: seq<Insn>, n: nat)
    requires n <= |code|
    ensures EndsBlock(code, n) <==> n == |code| || StartsBlock(code, n)
  {
    hide StartsBlock;
  }

  /** An edge from a block that ended before instruction `n` to the common set behind its last instruction. */
  predicate IsLevel(code: seq<Insn>, m: Numbering, n: nat, e: Edge)
    requires n <= |code|
  {
    exists k | 0 <= k < n && EndsBlock(code, k + 1) :: CommonEdge(e, BlockOf(code, k), Common(code, k), m.inclId)
  }

  lemma LevelStep(code: seq<Insn>, m: Numbering, i: nat, e: Edge)
    requires i < |code|
    ensures IsLevel(code, m, i + 1, e)
            <==> IsLevel(code, m, i, e) || (EndsBlock(code, i + 1) && CommonEdge(e, BlockOf(code, i), Common(code, i), m.inclId))
  {
    hide EndsBlock, CommonEdge, BlockOf, Common;
  }

  lemma LevelIsEarlier(code: seq<Insn>, m: Numbering, i: nat, e: Edge)
    requires i < |code| && IsLevel(code, m, i, e)
    ensures e.fromNode < BlockOf(code, i) && e.fromPort == None
  {
    hide StartsBlock, BlockOf, Common, BlockStart;
    var k :| 0 <= k < i && EndsBlock(code, k + 1) && CommonEdge(e, BlockOf(code, k), Common(code, k), m.inclId);
    SameIdIffSameStart(code, k, i);
    assert StartsBlock(code, k + 1);
  }

  /** A block whose common set was given up among the first `n` instructions, by its first pc. */
  predicate IsMarked(code: seq<Insn>, n: nat, p: nat)
    requires n <= |code|
  {
    exists i | 0 <= i < n && GivesUp(code, i) :: p == Pc(code, BlockStart(code, i))
  }

  lemma MarkedStep(code: seq<Insn>, i: nat, p: nat)
    requires i < |code|
    ensures IsMarked(code, i + 1, p) <==> IsMarked(code, i, p) || (GivesUp(code, i) && p == Pc(code, BlockStart(code, i)))
  {
    hide GivesUp, Pc, BlockStart;
  }

  // ------------------------------------------------------------------ the first pass

  /** Where the pass is: `last` is the node to fall through from, `start` the pc of the block's first instruction. */
  predicate Position(code: seq<Insn>, i: nat, dexPc: nat, oldDexPc: nat, last: Option<nat>, start: Option<nat>)
    requires i <= |code|
  {
    && dexPc == Pc(code, i)
    && (i == 0 ==> last == None && start == None)
    && (i > 0 ==> oldDexPc == Pc(code, i - 1) && start == Some(Pc(code, BlockStart(code, i - 1))))
    && (i > 0 ==> last == if FallsThrough(code[i - 1]) then Some(BlockOf(code, i - 1)) else None)
  }

  /** The node and the block's first pc while instruction `i` is handled. */
  lemma PositionInside(code: seq<Insn>, i: nat, dexPc: nat, oldDexPc: nat, last: Option<nat>, start: Option<nat>)
    requires GoodCode(code) && i < |code| && Position(code, i, dexPc, oldDexPc, last, start) && !StartsBlock(code, i)
    ensures i > 0 && last == Some(BlockOf(code, i)) && start == Some(Pc(code, BlockStart(code, i)))
    ensures BlockStart(code, i) == BlockStart(code, i - 1) && Pc(code, BlockStart(code, i)) != dexPc
  {
    hide IsTarget;
    FirstStarts(code);
    BlockStep(code, i);
    assert GoodInsn(code[i - 1]);
    hide StartsBlock, BlockOf, Pc;
    PcIncreases(code, BlockStart(code, i), i);
  }

  lemma PositionNext(code: seq<Insn>, i: nat, last: Option<nat>)
    requires i < |code| && last == (if FallsThrough(code[i]) then Some(BlockOf(code, i)) else None)
    ensures Position(code, i + 1, Pc(code, i) + code[i].size, Pc(code, i), last, Some(Pc(code, BlockStart(code, i))))
  {
    hide BlockOf, BlockStart;
  }

  /** What the first pass has emitted for the first `n` instructions. */
  ghost predicate Emitted(code: seq<Insn>, m: Numbering, n: nat, regular: seq<Edge>, taken: seq<Edge>)
    requires n <= |code|
  {
    && (forall e :: e in regular <==> IsRegular(code, n, e))
    && (forall e :: e in taken <==> IsTaken(code, m, n, e))
    && NoRepeats(regular)
  }

  /** Each regular edge was emitted once: they go to ever later instructions. */
  lemma {:induction false} EmittedOnceStep(code: seq<Insn>, m: Numbering, i: nat, regular: seq<Edge>, taken: seq<Edge>)
    requires GoodCode(code) && i < |code| && Emitted(code, m, i, regular, taken) && Joined(code, i)
    ensures RegularAt(code, i) !in regular
  {
    hide Pc, BlockOf, GoodCode, IsTaken, StartsBlock, FallsThrough;
    if RegularAt(code, i) in regular {
      assert IsRegular(code, i, RegularAt(code, i));
      var j :| 0 <= j < i && Joined(code, j) && RegularAt(code, i) == RegularAt(code, j);
      PcInjective(code, i, j);
    }
  }

  lemma EmittedStep(code: seq<Insn>, m: Numbering, i: nat, regular: seq<Edge>, taken: seq<Edge>, regular': seq<Edge>, taken': seq<Edge>)
    requires GoodCode(code) && i < |code| && Emitted(code, m, i, regular, taken)
    requires regular' == if Joined(code, i) then regular + [RegularAt(code, i)] else regular
    requires forall e :: e in taken' <==> e in taken || IsTakenBy(code, m, i, e)
    ensures Emitted(code, m, i + 1, regular', taken')
  {
    hide Joined, RegularAt, IsRegular, IsTaken, IsTakenBy, NoRepeats, GoodCode;
    if Joined(code, i) {
      JoinedIs(code, i);
      EmittedOnceStep(code, m, i, regular, taken);
      RepeatsNot(regular, RegularAt(code, i));
    }
    forall e ensures e in regular' <==> IsRegular(code, i + 1, e) { RegularStep(code, i, e); }
    forall e ensures e in taken' <==> IsTaken(code, m, i + 1, e) { TakenStep(code, m, i, e); }
  }

  lemma TakenByIs(code: seq<Insn>, m: Numbering, i: nat, e: Edge)
    requires i < |code|
    ensures Jumps(code[i]) ==>
              (IsTakenBy(code, m, i, e) <==> TargetEdge(e, BlockOf(code, i), Pc(code, i), code[i].targets, m.nodeId))
    ensures !Jumps(code[i]) ==> !IsTakenBy(code, m, i, e)
  {
    hide BlockOf, Pc;
  }

  /** The edges of instruction `i` itself. */
  method HandleJump(code: seq<Insn>, m: Numbering, i: nat, taken: seq<Edge>, node: nat, dexPc: nat) returns (r: seq<Edge>)
    requires i < |code| && GoodCode(code) && node == BlockOf(code, i) && dexPc == Pc(code, i)
    ensures forall e :: e in r <==> e in taken || IsTakenBy(code, m, i, e)
  {
    hide *;
    var inst := code[i];
    forall e ensures (Jumps(inst) ==> (IsTakenBy(code, m, i, e) <==> TargetEdge(e, node, dexPc, inst.targets, m.nodeId)))
      ensures !Jumps(inst) ==> !IsTakenBy(code, m, i, e)
    {
      TakenByIs(code, m, i, e);
    }
    JumpsIs(inst);
    BranchTarget(code, i);
    if inst.isBranch {
      r := AddTaken(taken, node, dexPc, [inst.targets[0]], m.nodeId);
    } else if inst.isSwitch {
      r := AddTaken(taken, node, dexPc, inst.targets, m.nodeId);
    } else {
      r := taken;
    }
  }

  lemma JumpsIs(x: Insn)
    ensures Jumps(x) <==> x.isBranch || x.isSwitch
  {
  }

  lemma BranchTarget(code: seq<Insn>, i: nat)
    requires i < |code| && GoodCode(code)
    ensures code[i].isBranch ==> code[i].targets == [code[i].targets[0]]
  {
    assert GoodInsn(code[i]);
  }

  lemma FallsThroughIs(x: Insn)
    ensures FallsThrough(x) <==> !(x.isReturn || x.isThrow || (x.isBranch && x.isUnconditional))
  {
  }

  /** The state of the exception bookkeeping before instruction `i`: the edges of the blocks that have ended are out. */
  ghost predicate Bookkeeping(code: seq<Insn>, i: nat, m: Numbering, edges: seq<Edge>, detailed: set<nat>, common: set<nat>)
    requires i <= |code|
  {
    && common == (if i == 0 then {} else Common(code, i - 1))
    && (forall e :: e in edges <==> IsLevel(code, m, if i == 0 then 0 else i - 1, e))
    && (forall p :: p in detailed <==> IsMarked(code, i, p))
    && NoRepeats(edges)
  }

  lemma NothingBooked(code: seq<Insn>, m: Numbering)
    ensures Bookkeeping(code, 0, m, [], {}, {})
  {
  }

  lemma BookkeepingIs(code: seq<Insn>, i: nat, m: Numbering, edges: seq<Edge>, detailed: set<nat>, common: set<nat>)
    requires i <= |code|
    ensures Bookkeeping(code, i, m, edges, detailed, common)
            <==> common == (if i == 0 then {} else Common(code, i - 1))
                 && (forall e :: e in edges <==> IsLevel(code, m, if i == 0 then 0 else i - 1, e))
                 && (forall p :: p in detailed <==> IsMarked(code, i, p)) && NoRepeats(edges)
  {
    hide Common, IsLevel, IsMarked, NoRepeats;
  }

  /** The edges of all blocks that end before instruction `i`. */
  ghost predicate Flushed(code: seq<Insn>, i: nat, m: Numbering, edges: seq<Edge>)
    requires i <= |code|
  {
    (forall e :: e in edges <==> IsLevel(code, m, i, e)) && NoRepeats(edges)
  }

  /** A block is over: its common set becomes edges. */
  method Flush(code: seq<Insn>, m: Numbering, i: nat, edges: seq<Edge>, ghost detailed: set<nat>, common: set<nat>, start: Option<nat>)
    returns (r: seq<Edge>)
    requires GoodCode(code) && NumberedUpTo(code, |code|, m) && i <= |code| && EndsBlock(code, i)
    requires Bookkeeping(code, i, m, edges, detailed, common)
    requires i > 0 ==> start == Some(Pc(code, BlockStart(code, i - 1)))
    ensures Flushed(code, i, m, r)
  {
    hide *;
    BookkeepingIs(code, i, m, edges, detailed, common);
    r := edges;
    if i > 0 {
      forall e ensures IsLevel(code, m, i, e) <==> IsLevel(code, m, i - 1, e) || CommonEdge(e, BlockOf(code, i - 1), common, m.inclId) {
        LevelStep(code, m, i - 1, e);
      }
    }
    if common != {} {
      var b := BlockStart(code, i - 1);
      SameBlock(code, i - 1);
      NodeIdOf(code, m, b);
      var nodeId := m.nodeId[start.value];
      forall e | e in edges ensures e.fromNode != nodeId { LevelIsEarlier(code, m, i - 1, e); }
      r := AddCommon(edges, nodeId, common, m.inclId);
    } else {
      forall e: Edge, node: nat ensures !CommonEdge(e, node, common, m.inclId) { NoCommon(e, node, m.inclId); }
    }
    FlushedIs(code, i, m, r);
  }

  lemma FlushedIs(code: seq<Insn>, i: nat, m: Numbering, edges: seq<Edge>)
    requires i <= |code|
    ensures Flushed(code, i, m, edges) <==> (forall e :: e in edges <==> IsLevel(code, m, i, e)) && NoRepeats(edges)
  {
    hide IsLevel, NoRepeats;
  }

  lemma NoCommon(e: Edge, node: nat, inclId: map<nat, nat>)
    ensures !CommonEdge(e, node, {}, inclId)
  {
  }

  /** Inside a block no edges are due. */
  lemma NoneDue(code: seq<Insn>, m: Numbering, i: nat, edges: seq<Edge>, detailed: set<nat>, common: set<nat>)
    requires 0 < i < |code| && !StartsBlock(code, i) && Bookkeeping(code, i, m, edges, detailed, common)
    ensures Flushed(code, i, m, edges)
  {
    hide *;
    BookkeepingIs(code, i, m, edges, detailed, common);
    EndsBlockIs(code, i);
    forall e ensures IsLevel(code, m, i, e) <==> IsLevel(code, m, i - 1, e) { LevelStep(code, m, i - 1, e); }
    FlushedIs(code, i, m, edges);
  }

  lemma BookkeepingNext(code: seq<Insn>, i: nat, m: Numbering, edges: seq<Edge>, before: set<nat>, detailed: set<nat>, common: set<nat>)
    requires i < |code| && Flushed(code, i, m, edges) && common == Common(code, i)
    requires forall p :: p in before <==> IsMarked(code, i, p)
    requires detailed == if GivesUp(code, i) then before + {Pc(code, BlockStart(code, i))} else before
    ensures Bookkeeping(code, i + 1, m, edges, detailed, common)
  {
    hide *;
    FlushedIs(code, i, m, edges);
    forall p ensures p in detailed <==> IsMarked(code, i + 1, p) { MarkedStep(code, i, p); }
    BookkeepingIs(code, i + 1, m, edges, detailed, common);
  }

  /** The first pass over the instructions. */
  method FirstPass(code: seq<Insn>, m: Numbering) returns (regular: seq<Edge>, taken: seq<Edge>, edges: seq<Edge>, detailed: set<nat>)
    requires GoodCode(code) && NumberedUpTo(code, |code|, m)
    ensures Emitted(code, m, |code|, regular, taken)
    ensures Flushed(code, |code|, m, edges) && forall p :: p in detailed <==> IsMarked(code, |code|, p)
  {
    hide *;
    regular, taken, edges, detailed := [], [], [], {};
    var common: set<nat> := {};
    var last: Option<nat>, start: Option<nat> := None, None;
    var dexPc: nat, oldDexPc: nat := 0, 0;
    NothingBooked(code, m);
    FirstPosition(code, m);
    for i := 0 to |code|
      invariant Position(code, i, dexPc, oldDexPc, last, start)
      invariant Emitted(code, m, i, regular, taken)
      invariant Bookkeeping(code, i, m, edges, detailed, common)
    {
      var inst := code[i];
      ghost var regular0, taken0, detailed0 := regular, taken, detailed;
      PositionIs(code, i, dexPc, oldDexPc, last, start);
      NodeIdOf(code, m, i);
      BookkeepingIs(code, i, m, edges, detailed, common);
      CommonStep(code, i);
      EndsBlockIs(code, i);
      if dexPc in m.nodeId {
        edges := Flush(code, m, i, edges, detailed, common, start);
        common := {};
        start := Some(dexPc);
        var oldLast := last;
        last := Some(m.nodeId[dexPc]);
        if oldLast.Some? {
          regular := regular + [Edge(oldLast.value, Some(oldDexPc), last.value, dexPc)];
        }
        StartIsOwn(code, i);
      } else {
        PositionInside(code, i, dexPc, oldDexPc, last, start);
        NoneDue(code, m, i, edges, detailed, common);
      }
      common := CollectHandlers(common, inst);
      JoinedIs(code, i);
      taken := HandleJump(code, m, i, taken, last.value, dexPc);
      EmittedStep(code, m, i, regular0, taken0, regular, taken);
      if start != Some(dexPc) {
        var current := CollectHandlers({}, inst);
        if current != common {
          common := {};
          detailed := detailed + {start.value};
        }
      }
      BookkeepingNext(code, i, m, edges, detailed0, detailed, common);
      FallsThroughIs(inst);
      if inst.isReturn || inst.isThrow || (inst.isBranch && inst.isUnconditional) {
        last := None;
      }
      PositionNext(code, i, last);
      oldDexPc := dexPc;
      dexPc := dexPc + inst.size;
    }
    PositionIs(code, |code|, dexPc, oldDexPc, last, start);
    BookkeepingIs(code, |code|, m, edges, detailed, common);
    EndsBlockIs(code, |code|);
    edges := Flush(code, m, |code|, edges, detailed, common, start);
  }

  lemma FirstPosition(code: seq<Insn>, m: Numbering)
    ensures Position(code, 0, 0, 0, None, None) && Emitted(code, m, 0, [], [])
  {
  }

  lemma PositionIs(code: seq<Insn>, i: nat, dexPc: nat, oldDexPc: nat, last: Option<nat>, start: Option<nat>)
    requires i <= |code| && Position(code, i, dexPc, oldDexPc, last, start)
    ensures dexPc == Pc(code, i) && (i == 0 ==> last == None && start == None)
    ensures i > 0 ==> oldDexPc == Pc(code, i - 1) && start == Some(Pc(code, BlockStart(code, i - 1)))
    ensures i > 0 ==> last == if FallsThrough(code[i - 1]) then Some(BlockOf(code, i - 1)) else None
  {
    hide Pc, BlockStart, BlockOf;
  }

  lemma StartIsOwn(code: seq<Insn>, i: nat)
    requires i < |code| && StartsBlock(code, i)
    ensures BlockStart(code, i) == i
  {
    hide StartsBlock;
  }

  lemma JoinedIs(code: seq<Insn>, i: nat)
    requires i < |code|
    ensures Joined(code, i) <==> i > 0 && StartsBlock(code, i) && FallsThrough(code[i - 1])
    ensures i > 0 ==> RegularAt(code, i) == Edge(BlockOf(code, i - 1), Some(Pc(code, i - 1)), BlockOf(code, i), Pc(code, i))
  {
    hide StartsBlock, FallsThrough, BlockOf, Pc;
  }

  // ------------------------------------------------------------------ the second pass

  /** The edges from one instruction to its handlers, each handler once. */
  method AddPorts(edges: seq<Edge>, node: nat, dexPc: nat, handlers: seq<nat>, inclId: map<nat, nat>) returns (r: seq<Edge>)
    requires NoRepeats(edges) && forall e | e in edges :: e.fromPort != Some(dexPc)
    ensures forall e :: e in r <==> e in edges || TargetEdge(e, node, dexPc, handlers, inclId)
    ensures NoRepeats(r)
  {
    hide NoRepeats;
    r := edges;
    var handled: set<nat> := {};
    for j := 0 to |handlers|
      invariant NoRepeats(r) && forall h :: h in handled <==> h in handlers[..j]
      invariant forall e :: e in r <==> e in edges || TargetEdge(e, node, dexPc, handlers[..j], inclId)
    {
      assert handlers[..j + 1] == handlers[..j] + [handlers[j]];
      var h := handlers[j];
      if h !in handled {
        if h in inclId {
          RepeatsNot(r, Edge(node, Some(dexPc), inclId[h], h));
          r := r + [Edge(node, Some(dexPc), inclId[h], h)];
        }
        handled := handled + {h};
      }
    }
    assert handlers[..|handlers|] == handlers;
  }

  /** `InstructionAt`. */
  method FindInstruction(code: seq<Insn>, dexPc: nat) returns (i: nat)
    requires exists k | 0 <= k < |code| :: Pc(code, k) == dexPc
    ensures i < |code| && Pc(code, i) == dexPc
  {
    var pc: nat := 0;
    i := 0;
    while pc != dexPc
      invariant i <= |code| && pc == Pc(code, i)
      invariant forall k | 0 <= k < i :: Pc(code, k) != dexPc
      decreases |code| - i
    {
      pc := pc + code[i].size;
      i := i + 1;
    }
  }

  lemma BlockEndEnds(code: seq<Insn>, i: nat)
    requires i < |code| && code[i].isBasicBlockEnd
    ensures EndsBlock(code, i + 1)
  {
    hide IsTarget;
  }

  lemma BeyondEnd(code: seq<Insn>, i: nat)
    requires GoodCode(code) && i < |code|
    ensures Pc(code, i + 1) == Pc(code, i) + code[i].size
    ensures Pc(code, i + 1) >= Pc(code, |code|) <==> i + 1 == |code|
  {
    if i + 1 < |code| { PcIncreases(code, i + 1, |code|); }
  }

  /** An edge from the port of instruction `k` to one of its handlers. */
  predicate PortEdge(code: seq<Insn>, m: Numbering, k: nat, e: Edge)
    requires k < |code|
  {
    TargetEdge(e, BlockOf(code, k), Pc(code, k), code[k].handlers, m.inclId)
  }

  /** A port edge of one of the instructions from `b` to before `n`. */
  predicate IsPortBetween(code: seq<Insn>, m: Numbering, b: nat, n: nat, e: Edge)
    requires b <= n <= |code|
  {
    exists k | b <= k < n :: PortEdge(code, m, k, e)
  }

  lemma PortBetweenStep(code: seq<Insn>, m: Numbering, b: nat, n: nat, e: Edge)
    requires b <= n < |code|
    ensures IsPortBetween(code, m, b, n + 1, e) <==> IsPortBetween(code, m, b, n, e) || PortEdge(code, m, n, e)
    ensures !IsPortBetween(code, m, b, b, e)
  {
    hide PortEdge;
  }

  lemma PortEdgeIs(code: seq<Insn>, m: Numbering, k: nat, e: Edge)
    requires k < |code|
    ensures PortEdge(code, m, k, e) <==> TargetEdge(e, BlockOf(code, k), Pc(code, k), code[k].handlers, m.inclId)
    ensures PortEdge(code, m, k, e) ==> e.fromPort == Some(Pc(code, k))
  {
    hide BlockOf, Pc;
  }

  /** Instructions from `b` to before `n` are one block. */
  predicate OneBlock(code: seq<Insn>, b: nat, n: nat)
    requires b <= n <= |code|
  {
    forall k | b <= k < n :: BlockStart(code, k) == b
  }

  /** No edge of `edges` leaves a port of instruction `b` or a later one of its block. */
  predicate PortsFree(code: seq<Insn>, edges: seq<Edge>, b: nat)
    requires b < |code|
  {
    forall k | 0 <= k < |code| && BlockStart(code, k) == b :: forall e | e in edges :: e.fromPort != Some(Pc(code, k))
  }

  lemma PortIsFree(code: seq<Insn>, m: Numbering, edges: seq<Edge>, r: seq<Edge>, b: nat, i: nat)
    requires GoodCode(code) && b <= i < |code| && PortsFree(code, edges, b) && OneBlock(code, b, i + 1)
    requires forall e :: e in r <==> e in edges || IsPortBetween(code, m, b, i, e)
    ensures forall e | e in r :: e.fromPort != Some(Pc(code, i))
  {
    hide PortEdge, Pc, BlockStart, GoodCode;
    forall e | e in r ensures e.fromPort != Some(Pc(code, i)) {
      if e !in edges {
        var k :| b <= k < i && PortEdge(code, m, k, e);
        PortEdgeIs(code, m, k, e);
        if Pc(code, k) == Pc(code, i) { PcInjective(code, k, i); }
      }
    }
  }

  /** The instructions of one block, from its first pc on. */
  method WalkBlock(code: seq<Insn>, m: Numbering, start: nat, edges: seq<Edge>, ghost b: nat) returns (r: seq<Edge>, ghost end: nat)
    requires GoodCode(code) && NumberedUpTo(code, |code|, m) && NoRepeats(edges)
    requires b < |code| && StartsBlock(code, b) && start == Pc(code, b) && PortsFree(code, edges, b)
    ensures b < end <= |code| && EndsBlock(code, end) && OneBlock(code, b, end) && NoRepeats(r)
    ensures forall e :: e in r <==> e in edges || IsPortBetween(code, m, b, end, e)
  {
    hide *;
    var i := FindInstruction(code, start);
    PcInjective(code, i, b);
    var dexPc: nat := start;
    NodeIdOf(code, m, b);
    var node := m.inclId[dexPc];
    StartIsOwn(code, b);
    r := edges;
    FirstOfBlock(code, b);
    forall e ensures !IsPortBetween(code, m, b, b, e) { PortBetweenStep(code, m, b, b, e); }
    while true
      invariant b <= i < |code| && dexPc == Pc(code, i) && OneBlock(code, b, i + 1) && node == BlockOf(code, b) && NoRepeats(r)
      invariant forall e :: e in r <==> e in edges || IsPortBetween(code, m, b, i, e)
      decreases |code| - i
    {
      ghost var before := r;
      SameNode(code, b, i);
      PortIsFree(code, m, edges, before, b, i);
      r := AddPorts(r, node, dexPc, code[i].handlers, m.inclId);
      forall e ensures e in r <==> e in edges || IsPortBetween(code, m, b, i + 1, e) {
        PortEdgeIs(code, m, i, e);
        PortBetweenStep(code, m, b, i, e);
      }
      end := i + 1;
      if code[i].isBasicBlockEnd {
        BlockEndEnds(code, i);
        break;
      }
      BeyondEnd(code, i);
      EndsBlockIs(code, i + 1);
      dexPc := dexPc + code[i].size;
      if dexPc >= Pc(code, |code|) {
        break;
      }
      NodeIdOf(code, m, i + 1);
      if dexPc in m.nodeId {
        break;
      }
      BlockExtends(code, b, i + 1);
      i := i + 1;
    }
  }

  lemma FirstOfBlock(code: seq<Insn>, b: nat)
    requires b < |code| && BlockStart(code, b) == b
    ensures OneBlock(code, b, b + 1)
  {
    hide BlockStart;
  }

  lemma SameNode(code: seq<Insn>, b: nat, i: nat)
    requires b <= i < |code| && OneBlock(code, b, i + 1)
    ensures BlockOf(code, i) == BlockOf(code, b)
  {
    hide BlockOf, BlockStart;
    assert BlockStart(code, i) == b;
    SameBlock(code, i);
  }

  lemma BlockExtends(code: seq<Insn>, b: nat, i: nat)
    requires b < i < |code| && OneBlock(code, b, i) && !StartsBlock(code, i)
    ensures OneBlock(code, b, i + 1)
  {
    hide StartsBlock;
    assert BlockStart(code, i) == BlockStart(code, i - 1);
  }

  /** A block that ends at `end` holds exactly the instructions before it. */
  lemma {:induction false} BlockIsRange(code: seq<Insn>, b: nat, end: nat, k: nat)
    requires b < end <= |code| && OneBlock(code, b, end) && EndsBlock(code, end) && k < |code| && BlockStart(code, k) == b
    ensures b <= k < end
  {
    hide StartsBlock;
    if end <= k { BeyondBlock(code, end, k); }
  }

  lemma {:induction false} BeyondBlock(code: seq<Insn>, end: nat, k: nat)
    requires end <= k < |code| && StartsBlock(code, end)
    ensures BlockStart(code, k) >= end
  {
    hide StartsBlock;
    if k > end { BeyondBlock(code, end, k - 1); }
  }

  /** A port edge of an instruction whose block is marked. */
  predicate IsPort(code: seq<Insn>, m: Numbering, marked: set<nat>, e: Edge) {
    exists k | 0 <= k < |code| && Pc(code, BlockStart(code, k)) in marked :: PortEdge(code, m, k, e)
  }

  /** The ports of one more block. */
  lemma PortsMore(code: seq<Insn>, m: Numbering, done: set<nat>, b: nat, end: nat, e: Edge)
    requires GoodCode(code) && b < end <= |code| && EndsBlock(code, end) && OneBlock(code, b, end)
    ensures IsPort(code, m, done + {Pc(code, b)}, e) <==> IsPort(code, m, done, e) || IsPortBetween(code, m, b, end, e)
  {
    hide Pc, PortEdge, StartsBlock, GoodCode, EndsBlock, BlockStart;
    if IsPort(code, m, done + {Pc(code, b)}, e) && !IsPort(code, m, done, e) {
      var k :| 0 <= k < |code| && Pc(code, BlockStart(code, k)) in done + {Pc(code, b)} && PortEdge(code, m, k, e);
      PcInjective(code, BlockStart(code, k), b);
      BlockIsRange(code, b, end, k);
    }
    if IsPortBetween(code, m, b, end, e) {
      var k :| b <= k < end && PortEdge(code, m, k, e);
      assert BlockStart(code, k) == b;
    }
  }

  /** A marked block that has not been walked has no port edges yet. */
  lemma NotYetWalked(code: seq<Insn>, m: Numbering, edges: seq<Edge>, done: set<nat>, r: seq<Edge>, b: nat)
    requires GoodCode(code) && b < |code| && StartsBlock(code, b) && Pc(code, b) !in done
    requires forall e | e in edges :: e.fromPort == None
    requires forall e :: e in r <==> e in edges || IsPort(code, m, done, e)
    ensures PortsFree(code, r, b)
  {
    hide Pc, PortEdge, StartsBlock, GoodCode, BlockStart;
    forall k, e | 0 <= k < |code| && BlockStart(code, k) == b && e in r ensures e.fromPort != Some(Pc(code, k)) {
      if e !in edges {
        var j :| 0 <= j < |code| && Pc(code, BlockStart(code, j)) in done && PortEdge(code, m, j, e);
        PortEdgeIs(code, m, j, e);
        if Pc(code, j) == Pc(code, k) { PcInjective(code, j, k); }
      }
    }
  }

  /** Blocks whose common set was given up get their edges instruction by instruction. */
  method SecondPass(code: seq<Insn>, m: Numbering, edges: seq<Edge>, detailed: set<nat>) returns (r: seq<Edge>)
    requires GoodCode(code) && NumberedUpTo(code, |code|, m) && NoRepeats(edges)
    requires (forall p :: p in detailed <==> IsMarked(code, |code|, p)) && forall e | e in edges :: e.fromPort == None
    ensures (forall e :: e in r <==> e in edges || IsPort(code, m, detailed, e)) && NoRepeats(r)
  {
    hide *;
    r := edges;
    var todo := detailed;
    assert detailed - todo == {};
    forall e ensures !IsPort(code, m, {}, e) { NothingWalked(code, m, e); }
    while todo != {}
      invariant todo <= detailed && NoRepeats(r)
      invariant forall e :: e in r <==> e in edges || IsPort(code, m, detailed - todo, e)
      decreases |todo|
    {
      var dexPc :| dexPc in todo;
      ghost var b := MarkedStart(code, dexPc);
      ghost var before, done := r, detailed - todo;
      ghost var end: nat;
      NotYetWalked(code, m, edges, done, r, b);
      r, end := WalkBlock(code, m, dexPc, r, b);
      assert detailed - (todo - {dexPc}) == done + {dexPc};
      forall e ensures IsPort(code, m, done + {dexPc}, e) <==> IsPort(code, m, done, e) || IsPortBetween(code, m, b, end, e) {
        PortsMore(code, m, done, b, end, e);
      }
      todo := todo - {dexPc};
    }
    assert detailed - {} == detailed;
  }

  lemma NothingWalked(code: seq<Insn>, m: Numbering, e: Edge)
    ensures !IsPort(code, m, {}, e)
  {
  }

  lemma MarkedStart(code: seq<Insn>, pc: nat) returns (b: nat)
    requires IsMarked(code, |code|, pc)
    ensures b < |code| && StartsBlock(code, b) && Pc(code, b) == pc
  {
    hide StartsBlock, Pc, GivesUp;
    var i :| 0 <= i < |code| && GivesUp(code, i) && pc == Pc(code, BlockStart(code, i));
    b := BlockStart(code, i);
  }

  // ------------------------------------------------------------------ the whole graph

  datatype Graph = Graph(numbering: Numbering, regular: seq<Edge>, taken: seq<Edge>, exceptions: seq<Edge>)

  /** An exception edge: from a block to its common set, or from a port of a block that has given it up. */
  predicate IsException(code: seq<Insn>, m: Numbering, e: Edge) {
    || IsLevel(code, m, |code|, e)
    || exists k | 0 <= k < |code| && IsMarked(code, |code|, Pc(code, BlockStart(code, k))) :: PortEdge(code, m, k, e)
  }

  /** What the graph has to be. */
  ghost predicate IsGraphOf(code: seq<Insn>, g: Graph) {
    && NumberedUpTo(code, |code|, g.numbering)
    && Emitted(code, g.numbering, |code|, g.regular, g.taken)
    && (forall e :: e in g.exceptions <==> IsException(code, g.numbering, e))
    && NoRepeats(g.regular) && NoRepeats(g.exceptions)
  }

  /** `DumpMethodCFG`, up to its text. */
  method DumpMethodCFG(code: seq<Insn>) returns (g: Graph)
    requires GoodCode(code)
    ensures IsGraphOf(code, g)
  {
    hide *;
    var targets := CollectTargets(code);
    var m := NumberBlocks(code, targets);
    var regular, taken, edges, detailed := FirstPass(code, m);
    FlushedIs(code, |code|, m, edges);
    forall e | e in edges ensures e.fromPort == None { LevelHasNoPort(code, m, e); }
    var exceptions := SecondPass(code, m, edges, detailed);
    g := Graph(m, regular, taken, exceptions);
    forall e ensures e in exceptions <==> IsException(code, m, e) { ExceptionIs(code, m, detailed, e); }
    EmittedOnce(code, m, |code|, regular, taken);
    GraphIs(code, g);
  }

  lemma EmittedOnce(code: seq<Insn>, m: Numbering, n: nat, regular: seq<Edge>, taken: seq<Edge>)
    requires n <= |code| && Emitted(code, m, n, regular, taken)
    ensures NoRepeats(regular)
  {
    hide IsRegular, IsTaken, NoRepeats;
  }

  lemma LevelHasNoPort(code: seq<Insn>, m: Numbering, e: Edge)
    requires IsLevel(code, m, |code|, e)
    ensures e.fromPort == None
  {
    hide EndsBlock, BlockOf, Common;
  }

  lemma ExceptionIs(code: seq<Insn>, m: Numbering, detailed: set<nat>, e: Edge)
    requires forall p :: p in detailed <==> IsMarked(code, |code|, p)
    ensures IsException(code, m, e) <==> IsLevel(code, m, |code|, e) || IsPort(code, m, detailed, e)
  {
    hide IsLevel, IsMarked, PortEdge, Pc, BlockStart;
  }

  lemma GraphIs(code: seq<Insn>, g: Graph)
    ensures IsGraphOf(code, g)
            <==> NumberedUpTo(code, |code|, g.numbering) && Emitted(code, g.numbering, |code|, g.regular, g.taken)
                 && (forall e :: e in g.exceptions <==> IsException(code, g.numbering, e)) && NoRepeats(g.regular) && NoRepeats(g.exceptions)
  {
    hide NumberedUpTo, Emitted, IsException, NoRepeats;
  }

  // ------------------------------------------------------------------ what that means, without the passes

  /** Instruction `i`, inside a block, lacks a handler of the instruction before it. */
  predicate Loses(code: seq<Insn>, i: nat)
    requires i < |code|
  {
    !StartsBlock(code, i) && exists h | h in code[i - 1].handlers :: h !in code[i].handlers
  }

  /** How many instructions in a row, up to and with `i`, each lack a handler of the one before. */
  function Losses(code: seq<Insn>, i: nat): nat
    requires i < |code|
  {
    if Loses(code, i) then Losses(code, i - 1) + 1 else 0
  }

  lemma LosesIs(code: seq<Insn>, i: nat)
    requires i < |code|
    ensures StartsBlock(code, i) ==> !Loses(code, i)
    ensures !StartsBlock(code, i) ==> i > 0 && (Loses(code, i) <==> !(HandlerSet(code[i - 1]) <= HandlerSet(code[i])))
    ensures Losses(code, i) == if Loses(code, i) then Losses(code, i - 1) + 1 else 0
  {
    hide StartsBlock;
    FirstStarts(code);
    if i > 0 && Loses(code, i) {
      var h :| h in code[i - 1].handlers && h !in code[i].handlers;
      assert h in HandlerSet(code[i - 1]);
    }
  }

  /** The set is given up at every other loss in a row. */
  lemma {:induction false} CommonIs(code: seq<Insn>, i: nat)
    requires i < |code|
    ensures Common(code, i) == if Losses(code, i) % 2 == 0 then HandlerSet(code[i]) else {}
    ensures GivesUp(code, i) <==> Losses(code, i) % 2 == 1
  {
    hide StartsBlock, HandlerSet, Loses, Losses;
    CommonStep(code, i);
    LosesIs(code, i);
    if !StartsBlock(code, i) { CommonIs(code, i - 1); }
  }

  lemma {:induction false} FirstLoss(code: seq<Insn>, i: nat) returns (j: nat)
    requires i < |code| && Loses(code, i)
    ensures j <= i && BlockStart(code, j) == BlockStart(code, i) && GivesUp(code, j)
  {
    hide StartsBlock, Loses, Losses, GivesUp;
    LosesIs(code, i);
    CommonIs(code, i);
    if Losses(code, i) % 2 == 1 {
      j := i;
    } else {
      BlockGoesBack(code, i);
      LosesIs(code, i - 1);
      j := FirstLoss(code, i - 1);
    }
  }

  lemma BlockGoesBack(code: seq<Insn>, i: nat)
    requires i < |code| && !StartsBlock(code, i)
    ensures i > 0 && BlockStart(code, i) == BlockStart(code, i - 1)
  {
    hide StartsBlock;
    FirstStarts(code);
  }

  /** A block is marked exactly if one of its instructions loses a handler. */
  lemma MarkedIffLoss(code: seq<Insn>, k: nat)
    requires GoodCode(code) && k < |code|
    ensures IsMarked(code, |code|, Pc(code, BlockStart(code, k)))
            <==> exists i | 0 <= i < |code| :: BlockStart(code, i) == BlockStart(code, k) && Loses(code, i)
  {
    hide StartsBlock, Loses, Losses, GivesUp, Pc, GoodCode, BlockStart;
    var p := Pc(code, BlockStart(code, k));
    if IsMarked(code, |code|, p) {
      var i :| 0 <= i < |code| && GivesUp(code, i) && p == Pc(code, BlockStart(code, i));
      PcInjective(code, BlockStart(code, i), BlockStart(code, k));
      CommonIs(code, i);
      LosesIs(code, i);
    }
    if i :| 0 <= i < |code| && BlockStart(code, i) == BlockStart(code, k) && Loses(code, i) {
      var j := FirstLoss(code, i);
      assert GivesUp(code, j) && p == Pc(code, BlockStart(code, j));
    }
  }

  /** Instruction `k` is the last of its block. */
  predicate IsLast(code: seq<Insn>, k: nat)
    requires k < |code|
  {
    k + 1 == |code| || StartsBlock(code, k + 1)
  }

  lemma LastsDiffer(code: seq<Insn>, k: nat, l: nat)
    requires k < |code| && l < |code| && IsLast(code, k) && IsLast(code, l) && BlockOf(code, k) == BlockOf(code, l)
    ensures k == l
  {
    hide StartsBlock, BlockOf, BlockStart;
    if k < l {
      SameIdIffSameStart(code, k, l);
    } else if l < k {
      SameIdIffSameStart(code, l, k);
    }
  }

  /**
    * The edges that leave a block as a whole: to the handlers of its last instruction, all of them
    * or none. There are none exactly if the instructions up to it have lost handlers an odd number
    * of times in a row.
    */
  lemma BlockLevelEdges(code: seq<Insn>, g: Graph, k: nat, j: nat)
    requires GoodCode(code) && IsGraphOf(code, g) && k < |code| && j < |code| && IsLast(code, k)
    ensures Edge(BlockOf(code, k), None, BlockOf(code, j), Pc(code, j)) in g.exceptions
            <==> Pc(code, j) in code[k].handlers && Losses(code, k) % 2 == 0
  {
    hide *;
    GraphIs(code, g);
    NodeIdOf(code, g.numbering, j);
    CommonIs(code, k);
    EndsBlockIs(code, k + 1);
    LastIs(code, k);
    LevelAt(code, g.numbering, k, j);
  }

  lemma LastIs(code: seq<Insn>, k: nat)
    requires k < |code|
    ensures IsLast(code, k) <==> EndsBlock(code, k + 1)
    ensures forall h :: h in HandlerSet(code[k]) <==> h in code[k].handlers
  {
    hide StartsBlock;
  }

  lemma LevelAt(code: seq<Insn>, m: Numbering, k: nat, j: nat)
    requires GoodCode(code) && k < |code| && j < |code| && EndsBlock(code, k + 1)
    requires Pc(code, j) in m.inclId && m.inclId[Pc(code, j)] == BlockOf(code, j)
    ensures IsException(code, m, Edge(BlockOf(code, k), None, BlockOf(code, j), Pc(code, j))) <==> Pc(code, j) in Common(code, k)
  {
    hide StartsBlock, BlockOf, Common, Pc, GoodCode, BlockStart, IsMarked, EndsBlock;
    var e := Edge(BlockOf(code, k), None, BlockOf(code, j), Pc(code, j));
    forall i | 0 <= i < |code| ensures !PortEdge(code, m, i, e) { PortEdgeIs(code, m, i, e); }
    if IsLevel(code, m, |code|, e) {
      var l :| 0 <= l < |code| && EndsBlock(code, l + 1) && CommonEdge(e, BlockOf(code, l), Common(code, l), m.inclId);
      LastIs(code, k);
      LastIs(code, l);
      LastsDiffer(code, k, l);
    }
    if Pc(code, j) in Common(code, k) {
      assert CommonEdge(e, BlockOf(code, k), Common(code, k), m.inclId);
    }
  }

  /** The edges that leave an instruction: to each of its handlers, if some instruction of its block loses one. */
  lemma PortEdges(code: seq<Insn>, g: Graph, k: nat, j: nat)
    requires GoodCode(code) && IsGraphOf(code, g) && k < |code| && j < |code|
    ensures Edge(BlockOf(code, k), Some(Pc(code, k)), BlockOf(code, j), Pc(code, j)) in g.exceptions
            <==> Pc(code, j) in code[k].handlers && exists i | 0 <= i < |code| :: BlockStart(code, i) == BlockStart(code, k) && Loses(code, i)
  {
    hide *;
    GraphIs(code, g);
    NodeIdOf(code, g.numbering, j);
    MarkedIffLoss(code, k);
    PortAt(code, g.numbering, k, j);
  }

  lemma PortAt(code: seq<Insn>, m: Numbering, k: nat, j: nat)
    requires GoodCode(code) && k < |code| && j < |code|
    requires Pc(code, j) in m.inclId && m.inclId[Pc(code, j)] == BlockOf(code, j)
    ensures IsException(code, m, Edge(BlockOf(code, k), Some(Pc(code, k)), BlockOf(code, j), Pc(code, j)))
            <==> Pc(code, j) in code[k].handlers && IsMarked(code, |code|, Pc(code, BlockStart(code, k)))
  {
    hide StartsBlock, BlockOf, Common, Pc, GoodCode, BlockStart, IsMarked, IsLevel;
    var e := Edge(BlockOf(code, k), Some(Pc(code, k)), BlockOf(code, j), Pc(code, j));
    if IsLevel(code, m, |code|, e) { LevelHasNoPort(code, m, e); }
    forall i | 0 <= i < |code| && PortEdge(code, m, i, e) ensures i == k {
      PortEdgeIs(code, m, i, e);
      PcInjective(code, i, k);
    }
  }

  /** Every exception edge is one of these two. */
  lemma EveryEdgeIsAHandler(code: seq<Insn>, g: Graph, e: Edge) returns (k: nat, j: nat)
    requires GoodCode(code) && IsGraphOf(code, g) && e in g.exceptions
    ensures k < |code| && j < |code| && Pc(code, j) in code[k].handlers
    ensures (IsLast(code, k) && e == Edge(BlockOf(code, k), None, BlockOf(code, j), Pc(code, j)))
            || e == Edge(BlockOf(code, k), Some(Pc(code, k)), BlockOf(code, j), Pc(code, j))
  {
    hide Pc, BlockOf, NumberedUpTo, Emitted, GoodCode, Common, HandlerSet, EndsBlock, BlockStart, IsMarked, NoRepeats, IsLast;
    assert IsException(code, g.numbering, e);
    if IsLevel(code, g.numbering, |code|, e) {
      k :| 0 <= k < |code| && EndsBlock(code, k + 1) && CommonEdge(e, BlockOf(code, k), Common(code, k), g.numbering.inclId);
      LastIs(code, k);
      CommonIs(code, k);
    } else {
      k :| 0 <= k < |code| && IsMarked(code, |code|, Pc(code, BlockStart(code, k))) && PortEdge(code, g.numbering, k, e);
    }
    NodeIdAt(code, g.numbering, e.toPort);
    j :| 0 <= j < |code| && Pc(code, j) == e.toPort;
    NodeIdOf(code, g.numbering, j);
  }

  lemma {:induction false} LastOfBlock(code: seq<Insn>, k: nat) returns (l: nat)
    requires k < |code|
    ensures k <= l < |code| && IsLast(code, l) && BlockStart(code, l) == BlockStart(code, k)
    decreases |code| - k
  {
    hide StartsBlock;
    if k + 1 == |code| || StartsBlock(code, k + 1) {
      l := k;
    } else {
      BlockGoesBack(code, k + 1);
      l := LastOfBlock(code, k + 1);
    }
  }

  lemma {:induction false} NothingLost(code: seq<Insn>, k: nat, l: nat)
    requires k <= l < |code| && BlockStart(code, l) == BlockStart(code, k)
    requires forall i | 0 <= i < |code| && BlockStart(code, i) == BlockStart(code, k) :: !Loses(code, i)
    ensures HandlerSet(code[k]) <= HandlerSet(code[l]) && Losses(code, l) == 0
    decreases l
  {
    hide StartsBlock, HandlerSet, Loses, Losses, BlockStart;
    LosesIs(code, l);
    if k < l {
      Between(code, k, l);
      NothingLost(code, k, l - 1);
    }
  }

  lemma Between(code: seq<Insn>, k: nat, l: nat)
    requires k < l < |code| && BlockStart(code, l) == BlockStart(code, k)
    ensures !StartsBlock(code, l) && BlockStart(code, l - 1) == BlockStart(code, k)
  {
    hide StartsBlock;
  }

  /** Every handler of every instruction, if it is the start of an instruction, has an edge from the block or from the instruction. */
  lemma EveryHandlerHasAnEdge(code: seq<Insn>, g: Graph, k: nat, j: nat)
    requires GoodCode(code) && IsGraphOf(code, g) && k < |code| && j < |code| && Pc(code, j) in code[k].handlers
    ensures Edge(BlockOf(code, k), None, BlockOf(code, j), Pc(code, j)) in g.exceptions
            || Edge(BlockOf(code, k), Some(Pc(code, k)), BlockOf(code, j), Pc(code, j)) in g.exceptions
  {
    hide *;
    PortEdges(code, g, k, j);
    if forall i | 0 <= i < |code| && BlockStart(code, i) == BlockStart(code, k) :: !Loses(code, i) {
      var l := LastOfBlock(code, k);
      NothingLost(code, k, l);
      LastIs(code, k);
      LastIs(code, l);
      SameBlock(code, k);
      SameBlock(code, l);
      BlockLevelEdges(code, g, l, j);
    }
  }

  /** A block whose instructions all have the same handlers has the edges to them from the block, and none from a port. */
  lemma UniformBlock(code: seq<Insn>, g: Graph, k: nat, j: nat)
    requires GoodCode(code) && IsGraphOf(code, g) && k < |code| && j < |code|
    requires forall i | 0 <= i < |code| && BlockStart(code, i) == BlockStart(code, k) :: HandlerSet(code[i]) == HandlerSet(code[k])
    ensures Edge(BlockOf(code, k), None, BlockOf(code, j), Pc(code, j)) in g.exceptions <==> Pc(code, j) in code[k].handlers
    ensures Edge(BlockOf(code, k), Some(Pc(code, k)), BlockOf(code, j), Pc(code, j)) !in g.exceptions
  {
    hide *;
    forall i | 0 <= i < |code| && BlockStart(code, i) == BlockStart(code, k) ensures !Loses(code, i) {
      LosesIs(code, i);
      if !StartsBlock(code, i) { BlockGoesBack(code, i); }
    }
    PortEdges(code, g, k, j);
    var l := LastOfBlock(code, k);
    NothingLost(code, k, l);
    LastIs(code, k);
    LastIs(code, l);
    SameBlock(code, k);
    SameBlock(code, l);
    BlockLevelEdges(code, g, l, j);
  }

  /**
    * A regular edge joins consecutive instructions exactly when the second starts a block and the
    * first is not a return, a throw or an unconditional branch.
    */
  lemma RegularEdges(code: seq<Insn>, g: Graph, i: nat)
    requires GoodCode(code) && IsGraphOf(code, g) && 0 < i < |code|
    ensures Edge(BlockOf(code, i - 1), Some(Pc(code, i - 1)), BlockOf(code, i), Pc(code, i)) in g.regular
            <==> StartsBlock(code, i) && !code[i - 1].isReturn && !code[i - 1].isThrow && !(code[i - 1].isBranch && code[i - 1].isUnconditional)
    ensures forall e | e in g.regular ::
              exists j | 0 < j < |code| :: e == Edge(BlockOf(code, j - 1), Some(Pc(code, j - 1)), BlockOf(code, j), Pc(code, j))
    ensures NoRepeats(g.regular) && NoRepeats(g.exceptions)
  {
    hide Pc, BlockOf, NumberedUpTo, StartsBlock, IsException, GoodCode, NoRepeats;
    if RegularAt(code, i) in g.regular {
      assert IsRegular(code, |code|, RegularAt(code, i));
      var j :| 0 <= j < |code| && Joined(code, j) && RegularAt(code, i) == RegularAt(code, j);
      PcInjective(code, i, j);
    } else {
      assert !IsRegular(code, |code|, RegularAt(code, i));
      assert !Joined(code, i);
    }
    forall e | e in g.regular
      ensures exists j | 0 < j < |code| :: e == Edge(BlockOf(code, j - 1), Some(Pc(code, j - 1)), BlockOf(code, j), Pc(code, j))
    {
      assert IsRegular(code, |code|, e);
      var j :| 0 <= j < |code| && Joined(code, j) && e == RegularAt(code, j);
    }
  }

  /** A branch or switch target at an instruction start begins a block and has a taken edge from the jump. */
  lemma TargetsBeginBlocks(code: seq<Insn>, g: Graph, i: nat, j: nat)
    requires GoodCode(code) && IsGraphOf(code, g) && i < |code| && j < |code| && (code[i].isBranch || code[i].isSwitch) && Pc(code, j) in code[i].targets
    ensures StartsBlock(code, j)
    ensures Edge(BlockOf(code, i), Some(Pc(code, i)), BlockOf(code, j), Pc(code, j)) in g.taken
  {
    TargetStarts(code, i, j);
    hide Pc, BlockOf, NumberedUpTo, StartsBlock, IsException, GoodCode, NoRepeats;
    NodeIdOf(code, g.numbering, j);
    var e := Edge(BlockOf(code, i), Some(Pc(code, i)), BlockOf(code, j), Pc(code, j));
    assert IsTakenBy(code, g.numbering, i, e);
    assert IsTaken(code, g.numbering, |code|, e);
  }

  lemma TargetStarts(code: seq<Insn>, i: nat, j: nat)
    requires i < |code| && j < |code| && (code[i].isBranch || code[i].isSwitch) && Pc(code, j) in code[i].targets
    ensures StartsBlock(code, j)
  {
    assert IsTarget(code, |code|, Pc(code, j));
  }

  /** And nothing else is taken. */
  lemma TakenAreTargets(code: seq<Insn>, g: Graph, e: Edge) returns (i: nat, j: nat)
    requires GoodCode(code) && IsGraphOf(code, g) && e in g.taken
    ensures i < |code| && j < |code| && (code[i].isBranch || code[i].isSwitch) && Pc(code, j) in code[i].targets
    ensures e == Edge(BlockOf(code, i), Some(Pc(code, i)), BlockOf(code, j), Pc(code, j))
  {
    hide Pc, BlockOf, NumberedUpTo, StartsBlock, IsException, GoodCode, NoRepeats;
    assert IsTaken(code, g.numbering, |code|, e);
    i :| 0 <= i < |code| && IsTakenBy(code, g.numbering, i, e);
    NodeIdAt(code, g.numbering, e.toPort);
    j :| 0 <= j < |code| && StartsBlock(code, j) && Pc(code, j) == e.toPort;
    NodeIdOf(code, g.numbering, j);
  }
}
