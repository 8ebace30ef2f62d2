/** The MirrorTree object: tree.ts step by step, each method tied to Mirror's functions. */
module Tree {
  import opened Field
  import opened Merkle
  import opened Imt
  import M = Mirror

  datatype PathAnswer =
    | Path(siblings: seq<Felt>, pathIndices: seq<int>, root: Felt)
    | BatchLeaf // the sentinel: opaque
    | Diverged  // the throw of the self-check

  /** Math.ceil(n / B). */
  function CeilBlocks(n: nat): nat {
    if n == Start(Block(n)) then Block(n) else Block(n) + 1
  }

  lemma CeilBlocksCovers(n: nat, k: nat)
    ensures k >= CeilBlocks(n) <==> Start(k) >= n
  {
    BlockBounds(n);
    StartOrder(k, Block(n));
    StartOrder(Block(n), k);
    StartOrder(k, Block(n) + 1);
  }

  /** The leftmost node `down` levels below node `i`. */
  function Leftmost(i: nat, down: nat): nat {
    if down == 0 then i else 2 * Leftmost(i, down - 1)
  }

  lemma {:induction false} LeftmostIsMul(i: nat, down: nat)
    ensures Leftmost(i, down) == i * Pow2(down)
  {
    if down > 0 {
      LeftmostIsMul(i, down - 1);
      SplitHalf(2 * i, Pow2(down - 1), i, 0);
      MulTwo(i, Pow2(down - 1));
    }
  }

  lemma StartIsLeftmost(block: nat)
    ensures Start(block) == Leftmost(block, LOG_B)
  {
    StartIsMul(block);
    LeftmostIsMul(block, LOG_B);
  }

  lemma MulTwo(i: nat, p: nat)
    ensures 2 * (i * p) == i * (2 * p)
  {
  }

  /** Inside its block, a leaf's ancestors are numbered from the block's leftmost node. */
  lemma {:induction false} AncInsideBlock(i: nat, j: nat)
    requires j <= LOG_B
    ensures Anc(i, j) == Leftmost(Block(i), LOG_B - j) + Anc(Offset(i), j)
    ensures Anc(Offset(i), j) < Pow2(LOG_B - j)
  {
    BlockBounds(i);
    if j == 0 {
      StartIsLeftmost(Block(i));
    } else {
      AncInsideBlock(i, j - 1);
    }
  }

  /** `run` is level `level` of the picture from node `base` on. */
  ghost predicate IsLevel(t: Picture, level: nat, base: nat, run: seq<Felt>) {
    forall m {:trigger run[m]} :: 0 <= m < |run| ==> run[m] == Node(t, level, base + m)
  }

  lemma PairUpIsNextLevel(t: Picture, level: nat, base: nat, run: seq<Felt>)
    requires IsLevel(t, level, 2 * base, run)
    requires level + 1 == LOG_B ==> forall m :: base <= m < base + |run| / 2 ==> m !in t.batches
    ensures IsLevel(t, level + 1, base, PairUp(run))
  {
    hide Node;
    var up := PairUp(run);
    forall m {:trigger up[m]} | 0 <= m < |up|
      ensures up[m] == Node(t, level + 1, base + m)
    {
      NodeOfPair(t, level, base + m);
      assert run[2 * m] == Node(t, level, 2 * (base + m)) && run[2 * m + 1] == Node(t, level, 2 * (base + m) + 1);
    }
  }

  lemma NodeOfPair(t: Picture, level: nat, i: nat)
    requires level + 1 == LOG_B ==> i !in t.batches
    ensures Node(t, level + 1, i) == Poseidon2(Node(t, level, 2 * i), Node(t, level, 2 * i + 1))
  {
  }

  /** The source's idx at level j points at the leaf's ancestor, and its neighbour is the sibling. */
  lemma OwnBlockSibling(m: M.State, i: nat, j: nat, level: seq<Felt>)
    requires j < LOG_B && |level| == Pow2(LOG_B - j)
    requires IsLevel(M.Recorded(m), j, Leftmost(Block(i), LOG_B - j), level)
    ensures var idx := Anc(Offset(i), j);
            && Sibling(idx) < |level|
            && idx % 2 == M.BitsOf(i)[j]
            && level[Sibling(idx)] == M.SiblingsOf(m, i)[j]
  {
    AncInsideBlock(i, j);
    OddEven(Leftmost(Block(i), LOG_B - j - 1), Pow2(LOG_B - j - 1), Anc(Offset(i), j), Anc(i, j));
  }

  lemma OddEven(half: nat, size: nat, idx: nat, node: nat)
    requires node == 2 * half + idx && idx < 2 * size
    ensures idx % 2 == node % 2
    ensures Sibling(idx) < 2 * size && Sibling(node) == 2 * half + Sibling(idx)
  {
  }

  lemma OwnBlockUp(t: Picture, i: nat, j: nat, level: seq<Felt>)
    requires j < LOG_B && |level| == Pow2(LOG_B - j) && IsLevel(t, j, Leftmost(Block(i), LOG_B - j), level)
    requires Block(i) !in t.batches
    ensures |PairUp(level)| == Pow2(LOG_B - (j + 1))
    ensures IsLevel(t, j + 1, Leftmost(Block(i), LOG_B - (j + 1)), PairUp(level))
  {
    PairUpIsNextLevel(t, j, Leftmost(Block(i), LOG_B - j - 1), level);
  }

  /** The block-level round: a missing right neighbour is a zero subtree. */
  function PairUpPadded(run: seq<Felt>, zero: Felt): (up: seq<Felt>)
    ensures |up| == (|run| + 1) / 2
  {
    seq((|run| + 1) / 2, m requires 0 <= m < (|run| + 1) / 2 =>
      Poseidon2(run[2 * m], if 2 * m + 1 < |run| then run[2 * m + 1] else zero))
  }

  /** `run` is the whole of level `level`: past its end every node is zero. */
  ghost predicate IsWholeLevel(t: Picture, level: nat, run: seq<Felt>) {
    && IsLevel(t, level, 0, run)
    && forall m: nat {:trigger Node(t, level, m)} :: m >= |run| ==> Node(t, level, m) == Zero(level)
  }

  lemma PairUpPaddedIsNextLevel(t: Picture, level: nat, run: seq<Felt>)
    requires level >= LOG_B && IsWholeLevel(t, level, run)
    ensures IsWholeLevel(t, level + 1, PairUpPadded(run, Zero(level)))
  {
    var up := PairUpPadded(run, Zero(level));
    forall m {:trigger up[m]} | 0 <= m < |up|
      ensures up[m] == Node(t, level + 1, m)
    {
      assert run[2 * m] == Node(t, level, 2 * m);
      assert 2 * m + 1 < |run| ==> run[2 * m + 1] == Node(t, level, 2 * m + 1);
    }
    forall m: nat {:trigger Node(t, level + 1, m)} | m >= |up|
      ensures Node(t, level + 1, m) == Zero(level + 1)
    {
      assert Node(t, level, 2 * m) == Zero(level) && Node(t, level, 2 * m + 1) == Zero(level);
    }
  }

  /** Above the blocks, the neighbour in the array (or a zero) is the sibling. */
  lemma BlockSibling(m: M.State, i: nat, j: nat, arr: seq<Felt>)
    requires j < TOP_LEVELS && IsWholeLevel(M.Recorded(m), LOG_B + j, arr) && Anc(Block(i), j) < |arr|
    ensures Anc(Block(i), j + 1) < |PairUpPadded(arr, Zero(LOG_B + j))|
    ensures var bidx := Anc(Block(i), j);
            && bidx % 2 == M.BitsOf(i)[LOG_B + j]
            && M.SiblingsOf(m, i)[LOG_B + j] == (if Sibling(bidx) < |arr| then arr[Sibling(bidx)] else Zero(LOG_B + j))
  {
    AncAdd(i, LOG_B, j);
  }

  /** Past the frontier the records are empty, so those block nodes are zero. */
  lemma BlocksPastFrontier(m: M.State, k: nat)
    requires M.Coherent(m) && k >= CeilBlocks(NextOf(m.rows))
    ensures Node(M.Recorded(m), LOG_B, k) == Zero(LOG_B)
  {
    CeilBlocksCovers(NextOf(m.rows), k);
    RowsLieBelowFrontier(m.rows);
    forall j: nat | Anc(j, LOG_B) == k
      ensures j !in m.leaves
    {
      BlockBounds(j);
    }
    UntouchedNode(M.Recorded(m), LOG_B, k);
  }

  class MirrorTree {
    const tree: ImtTree
    var leaves: map<nat, Felt> // an absent key is undefined
    var batchRoots: map<nat, Felt>
    var filled: set<nat>
    var publicFilled: set<nat>
    var pendingLeaves: seq<Row>

    ghost function View(): M.State
      reads this, tree
    {
      M.State(tree.rows, leaves, batchRoots, filled, publicFilled, pendingLeaves)
    }

    ghost predicate Valid()
      reads this, tree, tree.filledSubtrees
    {
      tree.Valid()
    }

    constructor ()
      ensures Valid() && View() == M.EMPTY && fresh(tree) && fresh(tree.filledSubtrees)
    {
      tree := new ImtTree();
      leaves, batchRoots, filled, publicFilled, pendingLeaves := map[], map[], {}, {}, [];
    }

    /** Drive an Appended event. False is the throw. */
    method ApplyAppend(leafIndex: nat, leaf: Felt, root: Felt) returns (ok: bool)
      requires Valid()
      modifies tree, tree.filledSubtrees
      ensures Valid() && (View(), ok) == M.ApplyAppend(old(View()), leafIndex, leaf, root)
    {
      if leafIndex < tree.nextLeafIndex {
        return true;
      }
      OneMore(tree.rows, Single(tree.nextLeafIndex, leaf));
      var inserted := tree.AppendLeaf(leaf);
      if !inserted || tree.nextLeafIndex - 1 != leafIndex {
        return false;
      }
      return tree.root == root;
    }

    /** Drive a SubtreeAppended event. A full tree is left padded by its throw, hence not Valid if its last
        block was part full. */
    method ApplyAttach(startLeafIndex: nat, subtreeRoot: Felt, root: Felt) returns (ok: bool)
      requires Valid()
      modifies this, tree, tree.filledSubtrees
      ensures (View(), ok) == M.ApplyAttach(old(View()), startLeafIndex, subtreeRoot, root)
      ensures ok || Padded(NextOf(old(tree.rows))) < Pow2(H) ==> Valid()
      ensures startLeafIndex >= NextOf(old(tree.rows)) && Padded(NextOf(old(tree.rows))) >= Pow2(H) ==>
                && !ok && tree.nextLeafIndex == Pow2(H)
                && (Valid() <==> NextOf(old(tree.rows)) == Pow2(H))
    {
      if startLeafIndex >= tree.nextLeafIndex {
        PaddedFits(tree.nextLeafIndex);
        OneMore(tree.rows, Batch(Padded(tree.nextLeafIndex), subtreeRoot));
        var attached := tree.AttachSubtree(subtreeRoot);
        if !attached || tree.nextLeafIndex != startLeafIndex + B {
          return false;
        }
        if tree.root != root {
          return false;
        }
      }
      var block := Block(startLeafIndex);
      if block !in batchRoots {
        pendingLeaves := pendingLeaves + [Batch(startLeafIndex, subtreeRoot)];
      }
      if block !in filled {
        leaves := M.Wipe(leaves, startLeafIndex);
      }
      batchRoots := batchRoots[block := subtreeRoot];
      return true;
    }

    /** Drive one op's appends, then record its leaves. A throw part-way leaves what was appended. */
    method ApplyOpAppend(startLeafIndex: nat, run: seq<Felt>, resultingRoot: Felt) returns (ok: bool)
      requires Valid()
      modifies this, tree, tree.filledSubtrees
      ensures Valid() && (View(), ok) == M.ApplyOpAppend(old(View()), startLeafIndex, run, resultingRoot)
    {
      hide M.RecordRun, Root;
      var next := tree.nextLeafIndex;
      if startLeafIndex + |run| > next {
        if startLeafIndex > next {
          return false;
        }
        ok := AppendAll(run[next - startLeafIndex..]);
        AppendRunEnds(old(tree.rows), run[next - startLeafIndex..]);
        if !ok || tree.nextLeafIndex != startLeafIndex + |run| || tree.root != resultingRoot {
          return false;
        }
      }
      RecordAll(startLeafIndex, run);
      ok := true;
    }

    method AppendAll(run: seq<Felt>) returns (ok: bool)
      requires Valid()
      modifies tree, tree.filledSubtrees
      ensures Valid() && (tree.rows, ok) == M.AppendRun(old(tree.rows), run)
    {
      var k := 0;
      assert run[0..] == run;
      while k < |run|
        invariant k <= |run| && Valid() && M.AppendRun(old(tree.rows), run) == M.AppendRun(tree.rows, run[k..])
      {
        assert run[k..][1..] == run[k + 1..];
        var inserted := tree.AppendLeaf(run[k]);
        if !inserted {
          return false;
        }
        k := k + 1;
      }
      ok := true;
    }

    method RecordAll(startLeafIndex: nat, run: seq<Felt>)
      modifies this
      ensures View() == M.RecordRun(old(View()), startLeafIndex, run)
    {
      var k := 0;
      assert run[..0] == [];
      while k < |run|
        invariant k <= |run| && View() == M.RecordRun(old(View()), startLeafIndex, run[..k])
      {
        assert run[..k + 1][..k] == run[..k];
        RecordLeaf(startLeafIndex + k, run[k]);
        k := k + 1;
      }
      assert run[..|run|] == run;
    }

    /** Record a real single-append leaf value (pass 2). */
    method RecordLeaf(leafIndex: nat, leaf: Felt)
      modifies this
      ensures View() == M.RecordLeaf(old(View()), leafIndex, leaf)
    {
      if leafIndex !in leaves {
        pendingLeaves := pendingLeaves + [Single(leafIndex, leaf)];
      }
      leaves := leaves[leafIndex := leaf];
    }

    /** Record a batch's underlying leaves and mark the block filled. */
    method FillBatch(startLeafIndex: nat, run: seq<Felt>, source: M.Source)
      modifies this
      ensures View() == M.FillBatch(old(View()), startLeafIndex, run, source)
    {
      for k := 0 to |run|
        invariant tree.rows == old(tree.rows)
        invariant leaves == M.Overlay(old(leaves), startLeafIndex, run[..k])
        invariant batchRoots == old(batchRoots) && filled == old(filled)
        invariant publicFilled == old(publicFilled) && pendingLeaves == old(pendingLeaves)
      {
        assert run[..k + 1][..k] == run[..k];
        leaves := leaves[startLeafIndex + k := run[k]];
      }
      assert run[..|run|] == run;
      filled := filled + {Block(startLeafIndex)};
      if source.Public? {
        publicFilled := publicFilled + {Block(startLeafIndex)};
      }
    }

    /** Rebuild from a persisted snapshot: it is accepted exactly when every row sits where the
        frontier would put it and the tree has room. */
    method RebuildFromLeaves(rs: seq<Row>) returns (ok: bool)
      requires Valid()
      modifies this, tree, tree.filledSubtrees
      ensures ok <==> Grown(old(tree.rows) + rs) && NextOf(old(tree.rows) + rs) <= Pow2(H)
      ensures ok ==> Valid() && View() == M.Replay(old(View()), rs)
    {
      hide Grown, NextOf, M.ReplayRow, M.Replay, FrontierOf, PictureOf, Root;
      ghost var was := old(tree.rows);
      assert was + [] == was && rs[..0] == [];
      ReplaySteps(View(), rs, 0);
      var k := 0;
      while k < |rs|
        invariant 0 <= k <= |rs|
        invariant Valid() && View() == M.Replay(old(View()), rs[..k])
        invariant tree.rows == was + rs[..k]
      {
        assert was + rs[..k + 1] == tree.rows + [rs[k]];
        ReplaySteps(old(View()), rs, k);
        if Grown(was + rs) {
          RebuildPrefix(was, rs, k + 1);
        }
        ok := RebuildRow(rs[k]);
        if !ok {
          return false;
        }
        k := k + 1;
      }
      assert rs[..|rs|] == rs;
      return true;
    }

    method RebuildRow(r: Row) returns (ok: bool)
      requires Valid()
      modifies this, tree, tree.filledSubtrees
      ensures ok <==> Grown(old(tree.rows) + [r]) && NextOf(old(tree.rows) + [r]) <= Pow2(H)
      ensures ok ==> Valid() && View() == M.ReplayRow(old(View()), r)
    {
      OneMore(tree.rows, r);
      PaddedFits(tree.nextLeafIndex);
      match r {
        case Batch(leafIndex, batchRoot) =>
          OneMore(tree.rows, Batch(Padded(tree.nextLeafIndex), batchRoot));
          var attached := tree.AttachSubtree(batchRoot);
          if !attached || tree.nextLeafIndex - B != leafIndex {
            return false;
          }
          leaves := M.Wipe(leaves, leafIndex);
          batchRoots := batchRoots[Block(leafIndex) := batchRoot];
        case Single(leafIndex, commitment) =>
          OneMore(tree.rows, Single(tree.nextLeafIndex, commitment));
          var inserted := tree.AppendLeaf(commitment);
          if !inserted || tree.nextLeafIndex - 1 != leafIndex {
            return false;
          }
          leaves := leaves[leafIndex := commitment];
      }
      return true;
    }

    /** The delta buffer is dropped only after the indexer's COMMIT. */
    method ClearPendingLeaves()
      modifies this`pendingLeaves
      ensures View() == old(View()).(pending := [])
    {
      pendingLeaves := [];
    }

    /** Block-level node: the unfilled batch root, else the fold of the block's slots. */
    method BlockNode(k: nat) returns (node: Felt)
      ensures node == Node(M.Recorded(View()), LOG_B, k)
    {
      if k in batchRoots && k !in filled {
        return batchRoots[k];
      }
      StartIsMul(k);
      NodeIsFoldOfSlots(M.Recorded(View()), LOG_B, k);
      node := FoldBlock(SlotValues(leaves, Start(k), B));
    }

    /** Phase A of path(): levels 0..LOG_B-1, inside the leaf's own block. */
    method FoldOwnBlock(leafIndex: nat, siblings: array<Felt>, pathIndices: array<int>)
      requires siblings != pathIndices && siblings.Length == pathIndices.Length == H
      requires Block(leafIndex) !in M.Opaque(View())
      modifies siblings, pathIndices
      ensures Written(siblings, pathIndices, M.SiblingsOf(View(), leafIndex), M.BitsOf(leafIndex), LOG_B)
    {
      ghost var m := View();
      var block := Block(leafIndex);
      var level := SlotValues(leaves, Start(block), B);
      StartIsLeftmost(block);
      var j := 0;
      while j < LOG_B
        invariant 0 <= j <= LOG_B
        invariant |level| == Pow2(LOG_B - j)
        invariant IsLevel(M.Recorded(m), j, Leftmost(block, LOG_B - j), level)
        invariant Written(siblings, pathIndices, M.SiblingsOf(m, leafIndex), M.BitsOf(leafIndex), j)
      {
        OwnBlockSibling(m, leafIndex, j, level);
        OwnBlockUp(M.Recorded(m), leafIndex, j, level);
        var idx := Anc(Offset(leafIndex), j);
        Write(siblings, pathIndices, j, level[Sibling(idx)], idx % 2, M.SiblingsOf(m, leafIndex), M.BitsOf(leafIndex));
        level, j := PairUp(level), j + 1;
      }
    }

    /** The block-node array of path(). */
    method BlockNodes() returns (arr: seq<Felt>)
      requires Valid() && M.Coherent(View())
      ensures |arr| == CeilBlocks(tree.nextLeafIndex) && IsWholeLevel(M.Recorded(View()), LOG_B, arr)
    {
      arr := [];
      var numBlocks := CeilBlocks(tree.nextLeafIndex);
      while |arr| < numBlocks
        invariant |arr| <= numBlocks && IsLevel(M.Recorded(View()), LOG_B, 0, arr)
      {
        var node := BlockNode(|arr|);
        arr := arr + [node];
      }
      forall k | k >= |arr|
        ensures Node(M.Recorded(View()), LOG_B, k) == Zero(LOG_B)
      {
        BlocksPastFrontier(View(), k);
      }
    }

    /** The authentication path of a leaf already in the tree. */
    method Path(leafIndex: nat) returns (r: PathAnswer)
      requires Valid() && M.Coherent(View()) && leafIndex < tree.nextLeafIndex
      ensures r.BatchLeaf? <==> Block(leafIndex) in M.Opaque(View())
      ensures r.Diverged? <==> Block(leafIndex) !in M.Opaque(View()) && Node(M.Recorded(View()), H, 0) != tree.root
      ensures r.Path? ==> r == PathAnswer.Path(M.SiblingsOf(View(), leafIndex), M.BitsOf(leafIndex), tree.root)
      ensures M.AllRecorded(View()) ==> !r.Diverged?
    {
      hide M.Coherent, M.AllRecorded, M.SiblingsOf, M.BitsOf, IsWholeLevel, Anc, CeilBlocks;
      var block := Block(leafIndex);
      if block in batchRoots && block !in filled {
        return BatchLeaf;
      }
      var siblings, pathIndices := new Felt[H](_ => 0), new int[H](_ => 0);
      FoldOwnBlock(leafIndex, siblings, pathIndices);
      var arr := BlockNodes();
      CeilBlocksCovers(tree.nextLeafIndex, block);
      BlockBounds(leafIndex);
      var top := FoldBlocks(View(), leafIndex, arr, tree.zeros, siblings, pathIndices);
      if M.AllRecorded(View()) {
        M.RecordsFoldToRoot(View());
      }
      if top != tree.root {
        return Diverged;
      }
      return PathAnswer.Path(siblings[..], pathIndices[..], top);
    }
  }

  lemma {:induction false} AppendRunEnds(rows: seq<Row>, run: seq<Felt>)
    ensures M.AppendRun(rows, run).1 ==> NextOf(M.AppendRun(rows, run).0) == NextOf(rows) + |run|
    decreases |run|
  {
    if run != [] && NextOf(rows) < Pow2(H) {
      OneMore(rows, Single(NextOf(rows), run[0]));
      AppendRunEnds(Append(rows, run[0]), run[1..]);
    }
  }

  /** The first `n` entries of both arrays are what the path should hold. */
  ghost predicate Written(siblings: array<Felt>, pathIndices: array<int>, sib: seq<Felt>, bits: seq<int>, n: nat)
    reads siblings, pathIndices
  {
    && n <= siblings.Length == pathIndices.Length == |sib| == |bits|
    && siblings[..n] == sib[..n]
    && pathIndices[..n] == bits[..n]
  }

  method Write(siblings: array<Felt>, pathIndices: array<int>, j: nat, sibling: Felt, bit: int,
               ghost sib: seq<Felt>, ghost bits: seq<int>)
    requires siblings != pathIndices && Written(siblings, pathIndices, sib, bits, j)
    requires j < |sib| && sibling == sib[j] && bit == bits[j]
    modifies siblings, pathIndices
    ensures Written(siblings, pathIndices, sib, bits, j + 1)
  {
    pathIndices[j] := bit;
    siblings[j] := sibling;
    assert siblings[..j + 1] == siblings[..j] + [sibling] && sib[..j + 1] == sib[..j] + [sibling];
    assert pathIndices[..j + 1] == pathIndices[..j] + [bit] && bits[..j + 1] == bits[..j] + [bit];
  }

  /** Phase B of path(): levels LOG_B..H-1, over the block-node array. */
  method FoldBlocks(ghost m: M.State, leafIndex: nat, blockNodes: seq<Felt>, zeros: seq<Felt>,
                    siblings: array<Felt>, pathIndices: array<int>) returns (top: Felt)
    requires siblings != pathIndices
    requires IsWholeLevel(M.Recorded(m), LOG_B, blockNodes) && Block(leafIndex) < |blockNodes|
    requires |zeros| == H + 1 && forall k :: 0 <= k <= H ==> zeros[k] == Zero(k)
    requires Written(siblings, pathIndices, M.SiblingsOf(m, leafIndex), M.BitsOf(leafIndex), LOG_B)
    modifies siblings, pathIndices
    ensures Written(siblings, pathIndices, M.SiblingsOf(m, leafIndex), M.BitsOf(leafIndex), H)
    ensures top == Node(M.Recorded(m), H, 0)
  {
    hide IsWholeLevel, Anc, PairUpPadded, M.SiblingsOf, M.BitsOf, Written;
    var block, arr, j := Block(leafIndex), blockNodes, 0;
    LevelZero(block);
    while j < TOP_LEVELS
      invariant 0 <= j <= TOP_LEVELS
      invariant IsWholeLevel(M.Recorded(m), LOG_B + j, arr) && Anc(block, j) < |arr|
      invariant Written(siblings, pathIndices, M.SiblingsOf(m, leafIndex), M.BitsOf(leafIndex), LOG_B + j)
    {
      BlockSibling(m, leafIndex, j, arr);
      PairUpPaddedIsNextLevel(M.Recorded(m), LOG_B + j, arr);
      var zero, bidx := zeros[LOG_B + j], Anc(block, j);
      var sibling := if Sibling(bidx) < |arr| then arr[Sibling(bidx)] else zero;
      Write(siblings, pathIndices, LOG_B + j, sibling, bidx % 2, M.SiblingsOf(m, leafIndex), M.BitsOf(leafIndex));
      arr, j := PairUpPadded(arr, zero), j + 1;
    }
    TopOfLevel(M.Recorded(m), H, arr);
    return arr[0];
  }

  lemma ReplaySteps(m: M.State, rs: seq<Row>, k: nat)
    requires k <= |rs|
    ensures k == 0 ==> M.Replay(m, rs[..k]) == m
    ensures k < |rs| ==> M.Replay(m, rs[..k + 1]) == M.ReplayRow(M.Replay(m, rs[..k]), rs[k])
    ensures k < |rs| ==> M.Replay(m, rs[..k + 1]).rows == M.Replay(m, rs[..k]).rows + [rs[k]]
  {
    if k < |rs| {
      assert rs[..k + 1][..k] == rs[..k];
    }
  }

  lemma RebuildPrefix(was: seq<Row>, rs: seq<Row>, k: nat)
    requires k <= |rs| && Grown(was + rs)
    ensures Grown(was + rs[..k]) && NextOf(was + rs[..k]) <= NextOf(was + rs)
  {
    GrownPrefix(was + rs, |was| + k);
    assert (was + rs)[..|was| + k] == was + rs[..k];
  }

  lemma LevelZero(i: nat)
    ensures Anc(i, 0) == i
  {
  }

  lemma TopOfLevel(t: Picture, level: nat, arr: seq<Felt>)
    requires IsWholeLevel(t, level, arr) && |arr| > 0
    ensures arr[0] == Node(t, level, 0)
  {
  }
}
