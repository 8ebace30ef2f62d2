/** The tree as mathematics: what a node's value is, given the known leaves and the subtree
    roots of the opaque blocks. Everything the indexer computes is measured against Node. */
module Merkle {
  import opened Field

  /** A slot never given a value folds as 0: a pad, or a slot past the frontier. */
  function LeafAt(leaves: map<nat, Felt>, i: nat): Felt {
    if i in leaves then leaves[i] else 0
  }

  /** What is known of a tree: single leaves by index, opaque blocks by block number. */
  datatype Picture = Picture(leaves: map<nat, Felt>, batches: map<nat, Felt>)

  /** The full zero-padded fold. A block in `batches` is opaque: its node is the given root. */
  function Node(t: Picture, level: nat, i: nat): Felt
    decreases level
  {
    if level == LOG_B && i in t.batches then t.batches[i]
    else if level == 0 then LeafAt(t.leaves, i)
    else Poseidon2(Node(t, level - 1, 2 * i), Node(t, level - 1, 2 * i + 1))
  }

  /** The value of an all-empty subtree. */
  function Zero(level: nat): Felt {
    if level == 0 then 0 else Poseidon2(Zero(level - 1), Zero(level - 1))
  }

  /** Two pictures agree on what lies below node (level, i). */
  ghost predicate AgreeBelow(t: Picture, t': Picture, level: nat, i: nat) {
    && (forall j: nat :: Anc(j, level) == i ==> LeafAt(t.leaves, j) == LeafAt(t'.leaves, j))
    && (level >= LOG_B ==>
          forall k: nat :: Anc(k, level - LOG_B) == i ==>
            && (k in t.batches <==> k in t'.batches)
            && (k in t.batches ==> t.batches[k] == t'.batches[k]))
  }

  lemma AgreeBelowChild(t: Picture, t': Picture, level: nat, i: nat, child: nat)
    requires level > 0 && child / 2 == i
    requires AgreeBelow(t, t', level, i)
    ensures AgreeBelow(t, t', level - 1, child)
  {
    forall j: nat | Anc(j, level - 1) == child
      ensures LeafAt(t.leaves, j) == LeafAt(t'.leaves, j)
    {
      assert Anc(j, level) == i;
    }
    if level - 1 >= LOG_B {
      var up := level - LOG_B;
      forall k: nat | Anc(k, up - 1) == child
        ensures (k in t.batches <==> k in t'.batches) && (k in t.batches ==> t.batches[k] == t'.batches[k])
      {
        assert Anc(k, up) == i;
      }
    }
  }

  lemma {:induction false} NodeDependsOnlyBelow(t: Picture, t': Picture, level: nat, i: nat)
    requires AgreeBelow(t, t', level, i)
    ensures Node(t, level, i) == Node(t', level, i)
    decreases level
  {
    if level == LOG_B {
      assert Anc(i, 0) == i;
    }
    if level == 0 {
      assert Anc(i, 0) == i;
    } else {
      AgreeBelowChild(t, t', level, i, 2 * i);
      AgreeBelowChild(t, t', level, i, 2 * i + 1);
      NodeDependsOnlyBelow(t, t', level - 1, 2 * i);
      NodeDependsOnlyBelow(t, t', level - 1, 2 * i + 1);
    }
  }

  /** Above the blocks only the block nodes matter. */
  lemma {:induction false} NodeDependsOnBlocks(t: Picture, t': Picture, up: nat, i: nat)
    requires forall k: nat :: Anc(k, up) == i ==>
               Node(t, LOG_B, k) == Node(t', LOG_B, k)
    ensures Node(t, LOG_B + up, i) == Node(t', LOG_B + up, i)
    decreases up
  {
    if up == 0 {
      assert Anc(i, 0) == i;
    } else {
      assert forall k: nat :: Anc(k, up) == Anc(k, up - 1) / 2;
      NodeDependsOnBlocks(t, t', up - 1, 2 * i);
      NodeDependsOnBlocks(t, t', up - 1, 2 * i + 1);
    }
  }

  lemma {:induction false} EmptyNode(level: nat, i: nat)
    ensures Node(Picture(map[], map[]), level, i) == Zero(level)
    decreases level
  {
    if level > 0 {
      EmptyNode(level - 1, 2 * i);
      EmptyNode(level - 1, 2 * i + 1);
    }
  }

  /** A node with nothing below it is the zero of its level. */
  lemma UntouchedNode(t: Picture, level: nat, i: nat)
    requires forall j: nat :: Anc(j, level) == i ==> j !in t.leaves
    requires level >= LOG_B ==> forall k: nat :: Anc(k, level - LOG_B) == i ==> k !in t.batches
    ensures Node(t, level, i) == Zero(level)
  {
    NodeDependsOnlyBelow(t, Picture(map[], map[]), level, i);
    EmptyNode(level, i);
  }

  // ---- folding a run of values -------------------------------------------------------

  /** The reference fold of a run of 2^level values: split in half, fold each half, hash. */
  function FoldRun(level: nat, run: seq<Felt>): Felt
    requires |run| == Pow2(level)
  {
    if level == 0 then run[0]
    else
      var half := Pow2(level - 1);
      Poseidon2(FoldRun(level - 1, run[..half]), FoldRun(level - 1, run[half..]))
  }

  /** One level of the source's list fold: hash neighbours. */
  function PairUp(run: seq<Felt>): (up: seq<Felt>)
    ensures |up| == |run| / 2
  {
    seq(|run| / 2, m requires 0 <= m < |run| / 2 => Poseidon2(run[2 * m], run[2 * m + 1]))
  }

  lemma PairUpSplits(run: seq<Felt>, quarter: nat)
    requires |run| == 4 * quarter
    ensures PairUp(run)[..quarter] == PairUp(run[..2 * quarter])
    ensures PairUp(run)[quarter..] == PairUp(run[2 * quarter..])
  {
  }

  lemma PairUpFoldSplits(level: nat, run: seq<Felt>)
    requires level >= 2 && |run| == Pow2(level)
    ensures FoldRun(level - 1, PairUp(run))
         == Poseidon2(FoldRun(level - 2, PairUp(run[..Pow2(level - 1)])),
                      FoldRun(level - 2, PairUp(run[Pow2(level - 1)..])))
  {
    PairUpSplits(run, Pow2(level - 2));
  }

  /** The level-by-level list fold computes the halving fold. */
  lemma {:induction false} PairUpKeepsFold(level: nat, run: seq<Felt>)
    requires level > 0 && |run| == Pow2(level)
    ensures FoldRun(level - 1, PairUp(run)) == FoldRun(level, run)
  {
    if level > 1 {
      PairUpFoldSplits(level, run);
      PairUpKeepsFold(level - 1, run[..Pow2(level - 1)]);
      PairUpKeepsFold(level - 1, run[Pow2(level - 1)..]);
    }
  }

  /** The values of the 2^level slots below node (level, i). */
  function SlotValues(leaves: map<nat, Felt>, start: nat, n: nat): (run: seq<Felt>)
    ensures |run| == n
    ensures forall r {:trigger run[r]} :: 0 <= r < n ==> run[r] == LeafAt(leaves, start + r)
  {
    seq(n, r requires 0 <= r < n => LeafAt(leaves, start + r))
  }

  lemma SlotValuesSplit(leaves: map<nat, Felt>, start: nat, half: nat)
    ensures SlotValues(leaves, start, 2 * half)[..half] == SlotValues(leaves, start, half)
    ensures SlotValues(leaves, start, 2 * half)[half..] == SlotValues(leaves, start + half, half)
  {
  }

  /** With nothing opaque below it, a node is the fold of its slots. */
  lemma {:induction false} NodeIsFoldOfSlots(t: Picture, level: nat, i: nat)
    requires level <= LOG_B && (level == LOG_B ==> i !in t.batches)
    ensures Node(t, level, i) == FoldRun(level, SlotValues(t.leaves, i * Pow2(level), Pow2(level)))
    decreases level
  {
    if level > 0 {
      var half := Pow2(level - 1);
      NodeIsFoldOfSlots(t, level - 1, 2 * i);
      NodeIsFoldOfSlots(t, level - 1, 2 * i + 1);
      var start, lo, hi := i * Pow2(level), 2 * i * half, (2 * i + 1) * half;
      SlotValuesSplit(t.leaves, start, half);
      assert start == lo && hi == lo + half by { SplitHalf(2 * i + 1, half, i, 1); SplitHalf(2 * i, half, i, 0); }
    }
  }

  /** The LOG_B rounds of pairing that computeSubtreeRoot and blockNode both run. */
  method FoldBlock(base: seq<Felt>) returns (top: Felt)
    requires |base| == B
    ensures top == FoldRun(LOG_B, base)
  {
    var run := base;
    for j := 0 to LOG_B
      invariant |run| == Pow2(LOG_B - j)
      invariant FoldRun(LOG_B - j, run) == FoldRun(LOG_B, base)
    {
      PairUpKeepsFold(LOG_B - j, run);
      run := PairUp(run);
    }
    return run[0];
  }

  // ---- authentication paths ----------------------------------------------------------

  /** packages/core foldToRoot over the first `n` siblings: bit j of the index says whether
      sibling j is the left one. */
  function FoldToRoot(leaf: Felt, siblings: seq<Felt>, leafIndex: nat, n: nat): Felt
    requires n <= |siblings|
  {
    if n == 0 then leaf
    else
      var cur := FoldToRoot(leaf, siblings, leafIndex, n - 1);
      if Anc(leafIndex, n - 1) % 2 == 1 then Poseidon2(siblings[n - 1], cur) else Poseidon2(cur, siblings[n - 1])
  }

  /** The other child of the same parent. */
  function Sibling(i: nat): nat {
    if i % 2 == 1 then i - 1 else i + 1
  }

  lemma ParentOf(t: Picture, level: nat, i: nat)
    requires level > 0 && (level == LOG_B ==> i / 2 !in t.batches)
    ensures Node(t, level, i / 2)
         == if i % 2 == 1 then Poseidon2(Node(t, level - 1, Sibling(i)), Node(t, level - 1, i))
            else Poseidon2(Node(t, level - 1, i), Node(t, level - 1, Sibling(i)))
  {
  }

  /** Siblings read off the picture fold a leaf to the node above it. */
  lemma {:induction false} PathFolds(t: Picture, siblings: seq<Felt>, i: nat, n: nat)
    requires n <= |siblings|
    requires forall j {:trigger siblings[j]} :: 0 <= j < n ==> siblings[j] == Node(t, j, Sibling(Anc(i, j)))
    requires LOG_B <= n ==> Anc(i, LOG_B) !in t.batches
    ensures FoldToRoot(LeafAt(t.leaves, i), siblings, i, n) == Node(t, n, Anc(i, n))
  {
    if n == 0 {
      assert Anc(i, 0) == i;
    } else {
      var below := Anc(i, n - 1);
      var cur := FoldToRoot(LeafAt(t.leaves, i), siblings, i, n - 1);
      assert cur == Node(t, n - 1, below) by {
        PathFolds(t, siblings, i, n - 1);
      }
      ParentOf(t, n, below);
      assert siblings[n - 1] == Node(t, n - 1, Sibling(below));
      assert Anc(i, n) == below / 2;
    }
  }

  /** The hash is fed left then right: at the bottom of a fold, of a pairing, of a path and of the tree. */
  lemma LeftThenRight(a: Felt, b: Felt, i: nat)
    ensures FoldRun(1, [a, b]) == Poseidon2(a, b) && PairUp([a, b]) == [Poseidon2(a, b)]
    ensures FoldToRoot(a, [b], i, 1) == if i % 2 == 0 then Poseidon2(a, b) else Poseidon2(b, a)
    ensures LOG_B > 1 ==> Node(Picture(map[2 * i := a, 2 * i + 1 := b], map[]), 1, i) == Poseidon2(a, b)
  {
    assert Anc(i, 0) == i;
  }
}
