/** packages/core/src/imt.ts: the single-frontier incremental Merkle tree. `rows` is the abstract
    tree, the ordered list of inserts; the frontier class is proved to carry exactly its fold. */
module Imt {
  import opened Field
  import opened Merkle
  import opened Tables

  /** One insert. Also the indexer's persisted LeafRow: exactly one of the two columns is set. */
  datatype Row = Single(leafIndex: nat, commitment: Felt) | Batch(leafIndex: nat, batchRoot: Felt)

  function NextOf(rows: seq<Row>): nat {
    if rows == [] then 0
    else
      match rows[|rows| - 1]
      case Single(i, _) => i + 1
      case Batch(i, _) => i + B
  }

  function Append(rows: seq<Row>, leaf: Felt): seq<Row> {
    rows + [Single(NextOf(rows), leaf)]
  }

  function Attach(rows: seq<Row>, subtreeRoot: Felt): seq<Row> {
    rows + [Batch(Padded(NextOf(rows)), subtreeRoot)]
  }

  /** Every row sits where the frontier put it. */
  ghost predicate Grown(rows: seq<Row>) {
    rows == [] ||
    var init, last := rows[..|rows| - 1], rows[|rows| - 1];
    && Grown(init)
    && last.leafIndex == (if last.Single? then NextOf(init) else Padded(NextOf(init)))
  }

  function Leaves(rows: seq<Row>): map<nat, Felt> {
    if rows == [] then map[]
    else
      var init, last := rows[..|rows| - 1], rows[|rows| - 1];
      if last.Single? then Leaves(init)[last.leafIndex := last.commitment] else Leaves(init)
  }

  function Batches(rows: seq<Row>): map<nat, Felt> {
    if rows == [] then map[]
    else
      var init, last := rows[..|rows| - 1], rows[|rows| - 1];
      if last.Batch? then Batches(init)[Block(last.leafIndex) := last.batchRoot] else Batches(init)
  }

  function PictureOf(rows: seq<Row>): Picture {
    Picture(Leaves(rows), Batches(rows))
  }

  function Root(rows: seq<Row>): Felt {
    Node(PictureOf(rows), H, 0)
  }

  lemma OneMore(rows: seq<Row>, r: Row)
    ensures (rows + [r])[..|rows|] == rows
    ensures NextOf(rows + [r]) == if r.Single? then r.leafIndex + 1 else r.leafIndex + B
    ensures Leaves(rows + [r]) == if r.Single? then Leaves(rows)[r.leafIndex := r.commitment] else Leaves(rows)
    ensures Batches(rows + [r]) == if r.Batch? then Batches(rows)[Block(r.leafIndex) := r.batchRoot] else Batches(rows)
    ensures Grown(rows + [r]) <==>
              Grown(rows) && r.leafIndex == (if r.Single? then NextOf(rows) else Padded(NextOf(rows)))
  {
    assert (rows + [r])[..|rows|] == rows;
  }

  /** Nothing lies at or past `n`. */
  ghost predicate EmptyFrom(t: Picture, n: nat) {
    && (forall j :: j in t.leaves ==> j < n)
    && (forall k :: k in t.batches ==> Start(k) + B <= n)
  }

  /** A block is either one batch or single appends and pads, never mixed. */
  lemma {:induction false} RowsLieBelowFrontier(rows: seq<Row>)
    requires Grown(rows)
    ensures EmptyFrom(PictureOf(rows), NextOf(rows))
    ensures forall i :: i in Leaves(rows) ==> Block(i) !in Batches(rows)
  {
    if rows != [] {
      var init, last := rows[..|rows| - 1], rows[|rows| - 1];
      RowsLieBelowFrontier(init);
      assert rows == init + [last];
      OneMore(init, last);
      if last.Batch? {
        PaddedIsBoundary(NextOf(init));
        forall i | i in Leaves(init)
          ensures Block(i) != Block(last.leafIndex)
        {
          BlockBounds(i);
        }
      } else {
        BlockBounds(last.leafIndex);
      }
    }
  }

  /** The primary-key table of the rows. */
  function RowTable(rows: seq<Row>): map<nat, Row> {
    if rows == [] then map[]
    else
      var init, last := rows[..|rows| - 1], rows[|rows| - 1];
      RowTable(init)[last.leafIndex := last]
  }

  lemma {:induction false} RowTableBelow(rows: seq<Row>)
    requires Grown(rows)
    ensures forall i :: i in RowTable(rows) ==> i < NextOf(rows)
  {
    if rows != [] {
      var init, last := rows[..|rows| - 1], rows[|rows| - 1];
      RowTableBelow(init);
      PaddedIsBoundary(NextOf(init));
    }
  }

  /** ORDER BY leaf_index gives the inserts back in the order they happened. */
  lemma {:induction false} OrderedRowsAreTheRun(rows: seq<Row>)
    requires Grown(rows)
    ensures OrderBy(RowTable(rows), NextOf(rows)) == rows
  {
    if rows != [] {
      var init, last := rows[..|rows| - 1], rows[|rows| - 1];
      OrderedRowsAreTheRun(init);
      RowTableBelow(init);
      PaddedIsBoundary(NextOf(init));
      OrderByAgree(RowTable(rows), RowTable(init), last.leafIndex);
      OrderByGap(RowTable(init), NextOf(init), last.leafIndex);
      OrderByGap(RowTable(rows), last.leafIndex + 1, NextOf(rows));
      assert rows == init + [last];
    }
  }

  /** What the table holds: one row per single leaf, one per block, at its start. */
  lemma {:induction false} RowTableOf(rows: seq<Row>, i: nat)
    requires Grown(rows)
    ensures i in RowTable(rows) <==> i in Leaves(rows) || (i == Start(Block(i)) && Block(i) in Batches(rows))
    ensures i in RowTable(rows) ==>
              RowTable(rows)[i] == if Block(i) in Batches(rows) then Batch(i, Batches(rows)[Block(i)])
                else Single(i, Leaves(rows)[i])
  {
    if rows != [] {
      var init, last := rows[..|rows| - 1], rows[|rows| - 1];
      RowTableOf(init, i);
      RowsLieBelowFrontier(rows);
      RowsLieBelowFrontier(init);
      PaddedIsBoundary(NextOf(init));
    }
  }

  lemma {:induction false} GrownPrefix(rows: seq<Row>, k: nat)
    requires Grown(rows) && k <= |rows|
    ensures Grown(rows[..k]) && NextOf(rows[..k]) <= NextOf(rows)
  {
    if k < |rows| {
      var init := rows[..|rows| - 1];
      GrownPrefix(init, k);
      assert init[..k] == rows[..k];
      PaddedIsBoundary(NextOf(init));
    } else {
      assert rows[..k] == rows;
    }
  }

  // ---- the frontier ------------------------------------------------------------------

  /** filledSubtrees: at every level where the insertion path goes right, the left neighbour. */
  ghost predicate FrontierOf(t: Picture, n: nat, filled: seq<Felt>) {
    && |filled| == H
    && forall l :: 0 <= l < H && Anc(n, l) % 2 == 1 ==> filled[l] == Node(t, l, Anc(n, l) - 1)
  }

  /** t' is t with the empty node (s, p), the next one, given a value; s is 0 or LOG_B. */
  ghost predicate GrewAt(t: Picture, t': Picture, n: nat, s: nat, p: nat) {
    && (s == 0 || s == LOG_B)
    && n == p * Pow2(s)
    && EmptyFrom(t', n + Pow2(s))
    && (forall j: nat :: Anc(j, s) != p ==> LeafAt(t.leaves, j) == LeafAt(t'.leaves, j))
    && (forall k :: (s == LOG_B && k == p) || ((k in t.batches <==> k in t'.batches)
                                              && (k in t.batches ==> t.batches[k] == t'.batches[k])))
    && (s < LOG_B ==> Block(n) !in t'.batches)
  }

  /** The whole tree to the left of the insertion path is untouched by the insert. */
  lemma LeftOfPathKept(t: Picture, t': Picture, n: nat, s: nat, p: nat, level: nat)
    requires GrewAt(t, t', n, s, p) && level >= s && Anc(n, level) > 0
    ensures Node(t, level, Anc(n, level) - 1) == Node(t', level, Anc(n, level) - 1)
  {
    assert n == p * Pow2(s) && (s == 0 || s == LOG_B);
    forall j: nat | Anc(j, level) == Anc(n, level) - 1
      ensures LeafAt(t.leaves, j) == LeafAt(t'.leaves, j)
    {
      OffPath(n, s, p, level, j);
    }
    if s == LOG_B {
      AncOfOffset(p, s, 0);
      AncAdd(n, s, level - s);
    }
    NodeDependsOnlyBelow(t, t', level, Anc(n, level) - 1);
  }

  lemma OffPath(n: nat, s: nat, p: nat, level: nat, j: nat)
    requires n == p * Pow2(s) && level >= s && Anc(j, level) != Anc(n, level)
    ensures Anc(j, s) != p
  {
    AncOfOffset(p, s, 0);
    AncAdd(n, s, level - s);
    AncAdd(j, s, level - s);
  }

  lemma BeyondPath(n: nat, s: nat, p: nat, level: nat, j: nat)
    requires n == p * Pow2(s) && level >= s && Anc(j, level) > Anc(n, level)
    ensures j >= n + Pow2(s)
  {
    AncOfOffset(p, s, 0);
    AncAdd(n, s, level - s);
    AncAdd(j, s, level - s);
    AncOrder(p, Anc(j, s), level - s);
    BeyondSubtree(p, s, j);
  }

  /** The right neighbour on the insertion path is still empty. */
  lemma RightOfPathEmpty(t: Picture, t': Picture, n: nat, s: nat, p: nat, level: nat)
    requires GrewAt(t, t', n, s, p) && level >= s
    ensures Node(t', level, Anc(n, level) + 1) == Zero(level)
  {
    assert n == p * Pow2(s) && EmptyFrom(t', n + Pow2(s));
    hide GrewAt;
    forall j: nat | Anc(j, level) == Anc(n, level) + 1
      ensures j !in t'.leaves
    {
      BeyondPath(n, s, p, level, j);
    }
    if level >= LOG_B {
      forall k: nat | Anc(k, level - LOG_B) == Anc(n, level) + 1
        ensures k !in t'.batches
      {
        BlockOfOffset(k, 0);
        AncAdd(Start(k), LOG_B, level - LOG_B);
        BeyondPath(n, s, p, level, Start(k));
      }
    }
    UntouchedNode(t', level, Anc(n, level) + 1);
  }

  lemma BeyondSubtree(p: nat, s: nat, j: nat)
    requires Anc(j, s) > p
    ensures j >= p * Pow2(s) + Pow2(s)
  {
    if j < p * Pow2(s) + Pow2(s) {
      assert (p + 1) * Pow2(s) == p * Pow2(s) + Pow2(s);
      AncBelowBound(j, s, p + 1);
    }
  }

  /** What one level of the insertion fold does. */
  lemma InsertLevel(t: Picture, t': Picture, n: nat, s: nat, p: nat, level: nat, filled: seq<Felt>)
    requires GrewAt(t, t', n, s, p) && s <= level < H && FrontierOf(t, n, filled)
    ensures Node(t', level + 1, Anc(n, level + 1)) ==
            if Anc(n, level) % 2 == 0 then Poseidon2(Node(t', level, Anc(n, level)), Zero(level))
            else Poseidon2(filled[level], Node(t', level, Anc(n, level)))
  {
    assert level + 1 == LOG_B ==> Anc(n, level) / 2 !in t'.batches;
    assert Anc(n, level) % 2 == 1 ==> filled[level] == Node(t, level, Anc(n, level) - 1);
    hide GrewAt, FrontierOf;
    ParentOf(t', level + 1, Anc(n, level));
    if Anc(n, level) % 2 == 0 {
      RightOfPathEmpty(t, t', n, s, p, level);
    } else {
      LeftOfPathKept(t, t', n, s, p, level);
    }
  }

  /** How the insertion path moves when the frontier advances by one subtree. */
  lemma PathAdvances(n: nat, s: nat, p: nat, level: nat)
    requires n == p * Pow2(s)
    ensures level < s ==> Anc(n + Pow2(s), level) % 2 == 0
    ensures level >= s ==> Anc(n + Pow2(s), level) == Anc(n, level) || Anc(n + Pow2(s), level) == Anc(n, level) + 1
  {
    var n' := n + Pow2(s);
    assert n' == (p + 1) * Pow2(s);
    if level < s {
      AncOfAligned(p + 1, s, level);
    } else {
      AncOfOffset(p, s, 0);
      AncOfOffset(p + 1, s, 0);
      AncAdd(n, s, level - s);
      AncAdd(n', s, level - s);
      AncSucc(p, level - s);
    }
  }

  lemma FrontierAfterLevel(t: Picture, t': Picture, n: nat, s: nat, p: nat, level: nat, was: Felt, now: Felt)
    requires GrewAt(t, t', n, s, p) && level >= s && Anc(n + Pow2(s), level) % 2 == 1
    requires Anc(n, level) % 2 == 1 ==> was == Node(t, level, Anc(n, level) - 1)
    requires now == if Anc(n, level) % 2 == 0 then Node(t', level, Anc(n, level)) else was
    ensures now == Node(t', level, Anc(n + Pow2(s), level) - 1)
  {
    assert n == p * Pow2(s);
    hide GrewAt, Node;
    PathAdvances(n, s, p, level);
    if Anc(n, level) % 2 == 1 {
      LeftOfPathKept(t, t', n, s, p, level);
    }
  }

  /** The fold has rewritten the left turns of levels [s, i) and nothing else. */
  ghost predicate Refilled(t': Picture, n: nat, s: nat, i: nat, was: seq<Felt>, now: seq<Felt>) {
    && |now| == |was|
    && forall l {:trigger now[l]} :: 0 <= l < |now| ==>
         now[l] == if s <= l < i && Anc(n, l) % 2 == 0 then Node(t', l, Anc(n, l)) else was[l]
  }

  lemma RefillLevel(t': Picture, n: nat, s: nat, i: nat, was: seq<Felt>, now: seq<Felt>)
    requires Refilled(t', n, s, i, was, now) && s <= i < |now|
    ensures Refilled(t', n, s, i + 1, was, if Anc(n, i) % 2 == 0 then now[i := Node(t', i, Anc(n, i))] else now)
    ensures now[i] == was[i]
  {
  }

  /** The frontier after the insert is the frontier of the grown tree. */
  lemma FrontierAfter(t: Picture, t': Picture, n: nat, s: nat, p: nat, filled: seq<Felt>, filled': seq<Felt>)
    requires GrewAt(t, t', n, s, p) && FrontierOf(t, n, filled) && |filled'| == H
    requires Refilled(t', n, s, H, filled, filled')
    ensures FrontierOf(t', n + Pow2(s), filled')
  {
    assert n == p * Pow2(s);
    hide GrewAt, Node;
    forall l | 0 <= l < H && Anc(n + Pow2(s), l) % 2 == 1
      ensures filled'[l] == Node(t', l, Anc(n + Pow2(s), l) - 1)
    {
      if l < s {
        PathAdvances(n, s, p, l);
      } else {
        FrontierAfterLevel(t, t', n, s, p, l, filled[l], filled'[l]);
      }
    }
  }

  class ImtTree {
    const zeros: seq<Felt>
    const filledSubtrees: array<Felt>
    var nextLeafIndex: nat
    var root: Felt
    var leaves: map<nat, Felt> // an absent key is a hole
    ghost var rows: seq<Row>

    ghost predicate Shape()
      reads this, filledSubtrees
    {
      && |zeros| == H + 1
      && (forall k :: 0 <= k <= H ==> zeros[k] == Zero(k))
      && filledSubtrees.Length == H
      && nextLeafIndex <= Pow2(H)
    }

    /** The fast tree carries the fold of its rows. */
    ghost predicate Valid()
      reads this, filledSubtrees
    {
      && Shape()
      && Grown(rows)
      && nextLeafIndex == NextOf(rows)
      && root == Root(rows)
      && FrontierOf(PictureOf(rows), nextLeafIndex, filledSubtrees[..])
    }

    constructor ()
      ensures Valid() && rows == [] && fresh(filledSubtrees)
    {
      zeros := seq(H + 1, k requires 0 <= k <= H => Zero(k));
      filledSubtrees := new Felt[H](k requires 0 <= k < H => Zero(k));
      nextLeafIndex := 0;
      root := Zero(H);
      leaves := map[];
      rows := [];
      new;
      EmptyNode(H, 0);
      forall l | 0 <= l < H
        ensures Anc(0, l) == 0
      {
        AncMonotone(0, 0, l);
        AncOfZero(l);
      }
    }

    /** _insertNode: fold `node` up from (startLevel, p). False is the "tree is full" throw. */
    method InsertNode(node: Felt, startLevel: nat, ghost t: Picture, ghost t': Picture, ghost p: nat) returns (ok: bool)
      requires Shape() && FrontierOf(t, nextLeafIndex, filledSubtrees[..])
      requires GrewAt(t, t', nextLeafIndex, startLevel, p) && Node(t', startLevel, p) == node
      modifies this`nextLeafIndex, this`root, filledSubtrees
      ensures Shape()
      ensures ok == (old(nextLeafIndex) + Pow2(startLevel) <= Pow2(H))
      ensures ok ==> nextLeafIndex == old(nextLeafIndex) + Pow2(startLevel)
      ensures ok ==> root == Node(t', H, 0) && FrontierOf(t', nextLeafIndex, filledSubtrees[..])
      ensures !ok ==> nextLeafIndex == old(nextLeafIndex) && root == old(root)
      ensures !ok ==> filledSubtrees[..] == old(filledSubtrees[..])
    {
      var stride := Pow2(startLevel);
      if nextLeafIndex + stride > Pow2(H) {
        return false;
      }
      var cur := FoldUp(node, startLevel, t, t', p);
      AncOfOffset(0, H, 0);
      AncBelowBound(nextLeafIndex, H, 1);
      root := cur;
      nextLeafIndex := nextLeafIndex + stride;
      return true;
    }

    /** The reduce inside _insertNode. */
    method FoldUp(node: Felt, startLevel: nat, ghost t: Picture, ghost t': Picture, ghost p: nat) returns (cur: Felt)
      requires Shape() && FrontierOf(t, nextLeafIndex, filledSubtrees[..])
      requires GrewAt(t, t', nextLeafIndex, startLevel, p) && Node(t', startLevel, p) == node
      modifies filledSubtrees
      ensures cur == Node(t', H, Anc(nextLeafIndex, H))
      ensures FrontierOf(t', nextLeafIndex + Pow2(startLevel), filledSubtrees[..])
    {
      ghost var n, filled := nextLeafIndex, filledSubtrees[..];
      var index := nextLeafIndex / Pow2(startLevel);
      cur := node;
      AncIsShift(n, startLevel);
      AncOfOffset(p, startLevel, 0);
      for i := startLevel to H
        invariant index == Anc(n, i) && cur == Node(t', i, index)
        invariant Refilled(t', n, startLevel, i, filled, filledSubtrees[..])
      {
        InsertLevel(t, t', n, startLevel, p, i, filled);
        RefillLevel(t', n, startLevel, i, filled, filledSubtrees[..]);
        if index % 2 == 0 {
          ghost var now := filledSubtrees[..];
          filledSubtrees[i] := cur;
          assert filledSubtrees[..] == now[i := cur];
          cur := Poseidon2(cur, zeros[i]);
        } else {
          cur := Poseidon2(filledSubtrees[i], cur);
        }
        index := index / 2;
      }
      FrontierAfter(t, t', n, startLevel, p, filled, filledSubtrees[..]);
    }

    /** appendLeaf. */
    method AppendLeaf(leaf: Felt) returns (ok: bool)
      requires Valid()
      modifies this, filledSubtrees
      ensures Valid()
      ensures ok == (old(nextLeafIndex) < Pow2(H))
      ensures rows == if ok then Append(old(rows), leaf) else old(rows)
    {
      ghost var t, rows' := PictureOf(rows), Append(rows, leaf);
      OneMore(rows, Single(nextLeafIndex, leaf));
      AppendGrows(rows, leaf);
      leaves := leaves[nextLeafIndex := leaf];
      ok := InsertNode(leaf, 0, t, PictureOf(rows'), nextLeafIndex);
      if ok {
        rows := rows';
      }
    }

    /** _padToBlockBoundary: the dead zero leaves change neither the fold nor the frontier's meaning. */
    method PadToBlockBoundary()
      requires Valid()
      modifies this, filledSubtrees
      ensures Shape() && rows == old(rows) && root == old(root)
      ensures nextLeafIndex == Padded(old(nextLeafIndex))
      ensures FrontierOf(PictureOf(rows), nextLeafIndex, filledSubtrees[..])
    {
      var pad := (B - nextLeafIndex % B) % B;
      ghost var t, n := PictureOf(rows), nextLeafIndex;
      PaddedIsCode(n);
      PaddedFits(n);
      RowsLieBelowFrontier(rows);
      for k := 0 to pad
        invariant Shape() && rows == old(rows) && root == old(root)
        invariant nextLeafIndex == n + k
        invariant FrontierOf(t, nextLeafIndex, filledSubtrees[..])
      {
        PadGrows(t, n, nextLeafIndex);
        leaves := leaves[nextLeafIndex := zeros[0]];
        var ok := InsertNode(zeros[0], 0, t, t, nextLeafIndex);
      }
    }

    /** attachSubtree without leaves. A full tree is noticed only after the padding was inserted. */
    method AttachSubtree(subtreeRoot: Felt) returns (ok: bool)
      requires Valid()
      modifies this, filledSubtrees
      ensures ok == (Padded(old(nextLeafIndex)) < Pow2(H))
      ensures ok ==> Valid() && rows == Attach(old(rows), subtreeRoot)
      ensures !ok ==> nextLeafIndex == Padded(old(nextLeafIndex)) == Pow2(H) && rows == old(rows) && root == old(root)
      ensures !ok ==> (Valid() <==> Padded(old(nextLeafIndex)) == old(nextLeafIndex))
    {
      ghost var n := nextLeafIndex;
      PaddedFits(n);
      PaddedIsBoundary(n);
      PadToBlockBoundary();
      ghost var t, rows', k := PictureOf(rows), Attach(rows, subtreeRoot), Block(nextLeafIndex);
      OneMore(rows, Batch(nextLeafIndex, subtreeRoot));
      AttachGrows(rows, subtreeRoot);
      leaves := leaves - set i | i in leaves && nextLeafIndex <= i < nextLeafIndex + B;
      ok := InsertNode(subtreeRoot, LOG_B, t, PictureOf(rows'), k);
      if ok {
        rows := rows';
      }
    }
  }

  /** `n` single appends of one leaf. */
  function Singles(leaf: Felt, n: nat): (rows: seq<Row>)
    ensures |rows| == n && NextOf(rows) == n && Grown(rows)
  {
    if n == 0 then []
    else
      var init := Singles(leaf, n - 1);
      OneMore(init, Single(n - 1, leaf));
      Append(init, leaf)
  }

  /** The room an attach needs, told from the frontier: it is refused exactly when the last block has
      begun, and the refusal has then moved the frontier exactly when that block is not full. */
  lemma RefusedAttachMovesIff(n: nat)
    requires n <= Pow2(H)
    ensures Padded(n) < Pow2(H) <==> n + B <= Pow2(H)
    ensures n + B > Pow2(H) ==> Padded(n) == Pow2(H)
    ensures n + B > Pow2(H) ==> (Padded(n) != n <==> n < Pow2(H))
  {
    PaddedIsBoundary(n);
    PaddedFits(n);
  }

  /** A tree with one slot left: the attach is refused, and the slot is gone. */
  lemma OneSlotLeft(leaf: Felt)
    requires B > 1
    ensures var rows := Singles(leaf, Pow2(H) - 1);
            && Grown(rows) && NextOf(rows) < Pow2(H)
            && Padded(NextOf(rows)) == Pow2(H) && NextOf(rows) != Padded(NextOf(rows))
  {
    RefusedAttachMovesIff(Pow2(H) - 1);
  }

  /** A disburse's commitments, filled up to a whole block. */
  function PaddedRun(commitments: seq<Felt>): (run: seq<Felt>)
    requires |commitments| <= B
    ensures |run| == B
  {
    commitments + seq(B - |commitments|, _ => 0)
  }

  /** computeSubtreeRoot; more than B commitments is its throw. */
  method ComputeSubtreeRoot(commitments: seq<Felt>) returns (r: Option<Felt>)
    ensures r == if |commitments| > B then None else Some(FoldRun(LOG_B, PaddedRun(commitments)))
  {
    if |commitments| > B {
      return None;
    }
    var top := FoldBlock(PaddedRun(commitments));
    return Some(top);
  }

  /** A dead zero leaf changes nothing. */
  lemma PadGrows(t: Picture, frontier: nat, n: nat)
    requires EmptyFrom(t, frontier) && frontier <= n
    ensures GrewAt(t, t, n, 0, n) && Node(t, 0, n) == 0
  {
    BlockBounds(n);
  }

  lemma AppendGrows(rows: seq<Row>, leaf: Felt)
    requires Grown(rows)
    ensures GrewAt(PictureOf(rows), PictureOf(Append(rows, leaf)), NextOf(rows), 0, NextOf(rows))
    ensures Node(PictureOf(Append(rows, leaf)), 0, NextOf(rows)) == leaf
  {
    OneMore(rows, Single(NextOf(rows), leaf));
    RowsLieBelowFrontier(Append(rows, leaf));
    hide Grown, Leaves, Batches, NextOf;
  }

  lemma AttachGrows(rows: seq<Row>, subtreeRoot: Felt)
    requires Grown(rows)
    ensures var n := Padded(NextOf(rows)); var rows' := Attach(rows, subtreeRoot);
            && GrewAt(PictureOf(rows), PictureOf(rows'), n, LOG_B, Block(n))
            && Node(PictureOf(rows'), LOG_B, Block(n)) == subtreeRoot
  {
    var n := Padded(NextOf(rows));
    PaddedIsBoundary(NextOf(rows));
    OneMore(rows, Batch(n, subtreeRoot));
    RowsLieBelowFrontier(rows + [Batch(n, subtreeRoot)]);
    StartIsMul(Block(n));
  }

  lemma {:induction false} AncOfZero(level: nat)
    ensures Anc(0, level) == 0
  {
    if level > 0 {
      AncOfZero(level - 1);
    }
  }
}
