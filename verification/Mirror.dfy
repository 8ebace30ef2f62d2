/** apps/indexer/src/tree.ts: the frontier mirror, the per-leaf records a path is folded from, and
    the per-block batch roots, kept mutually consistent. */
module Mirror {
  import opened Field
  import opened Merkle
  import opened Imt
  import opened Tables

  /** What a MirrorTree holds. `rows` is the wrapped ImtTree. */
  datatype State = State(
    rows: seq<Row>,
    leaves: map<nat, Felt>,
    batchRoots: map<nat, Felt>,
    filled: set<nat>,
    publicFilled: set<nat>,
    pending: seq<Row>)

  const EMPTY := State([], map[], map[], {}, {}, [])

  datatype Source = Arbiter | Public

  // ---- the operations as functions ---------------------------------------------------

  /** The B slots from `start` become holes. */
  function Wipe(leaves: map<nat, Felt>, start: nat): map<nat, Felt> {
    map i | i in leaves && !(start <= i < start + B) :: leaves[i]
  }

  /** The second half of applyAttach: buffer the row on first sight, wipe, tag. */
  function Tag(m: State, start: nat, subtreeRoot: Felt): State {
    var block := Block(start);
    m.(pending := if block in m.batchRoots then m.pending else m.pending + [Batch(start, subtreeRoot)],
       leaves := if block in m.filled then m.leaves else Wipe(m.leaves, start),
       batchRoots := m.batchRoots[block := subtreeRoot])
  }

  /** The flag is false for a throw, after which the returned state is what is left behind. */
  function ApplyAppend(m: State, leafIndex: nat, leaf: Felt, root: Felt): (State, bool) {
    if leafIndex < NextOf(m.rows) then (m, true)
    else if NextOf(m.rows) >= Pow2(H) then (m, false)
    else
      var rows := Append(m.rows, leaf);
      (m.(rows := rows), NextOf(m.rows) == leafIndex && Root(rows) == root)
  }

  function ApplyAttach(m: State, start: nat, subtreeRoot: Felt, root: Felt): (State, bool) {
    if start < NextOf(m.rows) then (Tag(m, start, subtreeRoot), true)
    else if Padded(NextOf(m.rows)) >= Pow2(H) then (m, false)
    else
      var rows := Attach(m.rows, subtreeRoot);
      if Padded(NextOf(m.rows)) != start || Root(rows) != root then (m.(rows := rows), false)
      else (Tag(m.(rows := rows), start, subtreeRoot), true)
  }

  function RecordLeaf(m: State, leafIndex: nat, leaf: Felt): State {
    m.(pending := if leafIndex in m.leaves then m.pending else m.pending + [Single(leafIndex, leaf)],
       leaves := m.leaves[leafIndex := leaf])
  }

  /** Append one leaf after another; false is the "tree is full" throw, part-way. */
  function AppendRun(rows: seq<Row>, run: seq<Felt>): (seq<Row>, bool)
    decreases |run|
  {
    if run == [] then (rows, true)
    else if NextOf(rows) >= Pow2(H) then (rows, false)
    else AppendRun(Append(rows, run[0]), run[1..])
  }

  function RecordRun(m: State, start: nat, run: seq<Felt>): State {
    if run == [] then m
    else
      var last := |run| - 1;
      RecordLeaf(RecordRun(m, start, run[..last]), start + last, run[last])
  }

  /** One op's leaves at once, with the root after the last of them. */
  function ApplyOpAppend(m: State, start: nat, run: seq<Felt>, root: Felt): (State, bool) {
    var next := NextOf(m.rows);
    if start + |run| <= next then (RecordRun(m, start, run), true)
    else if start > next then (m, false)
    else
      var (rows, ok) := AppendRun(m.rows, run[next - start..]);
      if !ok || Root(rows) != root then (m.(rows := rows), false)
      else (RecordRun(m.(rows := rows), start, run), true)
  }

  /** `leaves` overwritten by the run starting at `start`. */
  function Overlay(leaves: map<nat, Felt>, start: nat, run: seq<Felt>): (r: map<nat, Felt>)
    ensures forall i: nat :: i in r <==> i in leaves || start <= i < start + |run|
    ensures forall i :: i in r ==> r[i] == if start <= i < start + |run| then run[i - start] else leaves[i]
  {
    if run == [] then leaves
    else
      var last := |run| - 1;
      Overlay(leaves, start, run[..last])[start + last := run[last]]
  }

  function FillBatch(m: State, start: nat, run: seq<Felt>, source: Source): State {
    m.(leaves := Overlay(m.leaves, start, run),
       filled := m.filled + {Block(start)},
       publicFilled := if source.Public? then m.publicFilled + {Block(start)} else m.publicFilled)
  }

  // ---- consistency -------------------------------------------------------------------

  /** An unfilled batch is opaque. */
  function Opaque(m: State): map<nat, Felt> {
    m.batchRoots - m.filled
  }

  /** The tree as the leaf records show it, independently of the frontier. */
  function Recorded(m: State): Picture {
    Picture(m.leaves, Opaque(m))
  }

  function Interior(m: State, block: nat): seq<Felt> {
    SlotValues(m.leaves, Start(block), B)
  }

  ghost predicate Coherent(m: State) {
    && Grown(m.rows)
    && m.batchRoots == Batches(m.rows)
    && (forall i :: i in m.leaves && Block(i) !in m.batchRoots ==>
          i in Leaves(m.rows) && m.leaves[i] == Leaves(m.rows)[i])
    && (forall i :: i in m.leaves && Block(i) in m.batchRoots ==> Block(i) in m.filled)
    && m.publicFilled <= m.filled <= m.batchRoots.Keys
    && forall k :: k in m.filled ==> FoldRun(LOG_B, Interior(m, k)) == m.batchRoots[k]
  }

  /** Every appended leaf has been recorded by its family event. */
  ghost predicate AllRecorded(m: State) {
    forall i :: i in Leaves(m.rows) ==> i in m.leaves
  }

  /** A coherent block node: the batch root, filled or not, else the fold of its slots. */
  lemma BlockNodeOf(m: State, k: nat)
    requires Coherent(m)
    ensures Node(Recorded(m), LOG_B, k)
         == if k in m.batchRoots then m.batchRoots[k] else FoldRun(LOG_B, Interior(m, k))
  {
    if k !in Opaque(m) {
      NodeIsFoldOfSlots(Recorded(m), LOG_B, k);
      StartIsMul(k);
    }
  }

  lemma BlockNodesAgree(m: State, k: nat)
    requires Coherent(m) && AllRecorded(m)
    ensures Node(Recorded(m), LOG_B, k) == Node(PictureOf(m.rows), LOG_B, k)
  {
    if k in m.batchRoots {
      BlockNodeOf(m, k);
    } else {
      RowsLieBelowFrontier(m.rows);
      NodeDependsOnlyBelow(Recorded(m), PictureOf(m.rows), LOG_B, k);
    }
  }

  /** The records, folded independently, give the frontier's root. */
  lemma RecordsFoldToRoot(m: State)
    requires Coherent(m) && AllRecorded(m)
    ensures Node(Recorded(m), H, 0) == Root(m.rows)
  {
    forall k
      ensures Node(Recorded(m), LOG_B, k) == Node(PictureOf(m.rows), LOG_B, k)
    {
      BlockNodesAgree(m, k);
    }
    NodeDependsOnBlocks(Recorded(m), PictureOf(m.rows), TOP_LEVELS, 0);
  }

  // ---- what every operation does and refuses -----------------------------------------

  /** An append below the frontier is a replay. Any other throws unless it is for the next slot and the
      grown tree has the event's root, and then it is that tree. */
  lemma AppendExact(m: State, leafIndex: nat, leaf: Felt, root: Felt)
    ensures var (m', ok) := ApplyAppend(m, leafIndex, leaf, root);
            var next := NextOf(m.rows);
            && (leafIndex < next ==> ok && m' == m)
            && (leafIndex >= next ==>
                  (ok <==> leafIndex == next && next < Pow2(H) && Root(m.rows + [Single(next, leaf)]) == root))
            && (ok && leafIndex >= next ==>
                  && Leaves(m'.rows) == Leaves(m.rows)[leafIndex := leaf] && Batches(m'.rows) == Batches(m.rows)
                  && NextOf(m'.rows) == leafIndex + 1 && Root(m'.rows) == root)
            && m' == m.(rows := m'.rows)
  {
    OneMore(m.rows, Single(NextOf(m.rows), leaf));
  }

  /** An attach below the frontier is a replay, which tags its block again. Any other throws, and tags
      nothing, unless it is for the next block boundary and the grown tree has the event's root. */
  lemma AttachExact(m: State, start: nat, subtreeRoot: Felt, root: Felt)
    ensures var (m', ok) := ApplyAttach(m, start, subtreeRoot, root);
            var next, at := NextOf(m.rows), Padded(NextOf(m.rows));
            && (start < next ==> ok && m'.rows == m.rows)
            && (start >= next ==>
                  (ok <==> start == at < Pow2(H) && Root(m.rows + [Batch(at, subtreeRoot)]) == root))
            && (ok && start >= next ==>
                  && Batches(m'.rows) == Batches(m.rows)[Block(start) := subtreeRoot]
                  && Leaves(m'.rows) == Leaves(m.rows)
                  && NextOf(m'.rows) == start + B && Root(m'.rows) == root)
            && (ok ==>
                  && m'.batchRoots == m.batchRoots[Block(start) := subtreeRoot]
                  && (forall i :: i in m'.leaves <==>
                        i in m.leaves && (Block(start) in m.filled || !(start <= i < start + B)))
                  && (forall i :: i in m'.leaves ==> m'.leaves[i] == m.leaves[i]))
            && (!ok ==> m' == m.(rows := m'.rows))
            && m'.filled == m.filled && m'.publicFilled == m.publicFilled
  {
    OneMore(m.rows, Batch(Padded(NextOf(m.rows)), subtreeRoot));
  }

  /** A fill writes the run over the block's slots and marks the block, as public too if it is. */
  lemma FillExact(m: State, start: nat, run: seq<Felt>, source: Source)
    ensures var m' := FillBatch(m, start, run, source);
            && (forall i: nat :: i in m'.leaves <==> i in m.leaves || start <= i < start + |run|)
            && (forall i :: i in m'.leaves ==>
                  m'.leaves[i] == if start <= i < start + |run| then run[i - start] else m.leaves[i])
            && (forall k :: k in m'.filled <==> k in m.filled || k == Block(start))
            && (forall k :: k in m'.publicFilled <==>
                  k in m.publicFilled || (k == Block(start) && source == Public))
            && m'.rows == m.rows && m'.batchRoots == m.batchRoots && m'.pending == m.pending
  {
  }

  lemma {:induction false} AppendRunFitsIff(rows: seq<Row>, run: seq<Felt>)
    requires NextOf(rows) <= Pow2(H)
    ensures AppendRun(rows, run).1 <==> NextOf(rows) + |run| <= Pow2(H)
    decreases |run|
  {
    if run != [] && NextOf(rows) < Pow2(H) {
      AppendRunFitsIff(Append(rows, run[0]), run[1..]);
    }
  }

  /** One op's appends go through exactly if the frontier has all of them already, or if they leave no gap,
      fit, and give the event's root; otherwise nothing is recorded. */
  lemma OpAppendExact(m: State, start: nat, run: seq<Felt>, root: Felt)
    requires NextOf(m.rows) <= Pow2(H)
    ensures var (m', ok) := ApplyOpAppend(m, start, run, root);
            var next, end := NextOf(m.rows), start + |run|;
            && (ok <==>
                  || end <= next
                  || (start <= next && end <= Pow2(H) && Root(AppendRun(m.rows, run[next - start..]).0) == root))
            && (!ok ==> m' == m.(rows := m'.rows))
  {
    hide AppendRun, Root, RecordRun;
    var next := NextOf(m.rows);
    if start <= next < start + |run| {
      AppendRunFitsIff(m.rows, run[next - start..]);
    }
  }

  // ---- what every operation keeps ----------------------------------------------------

  lemma EmptyIsCoherent()
    ensures Coherent(EMPTY) && AllRecorded(EMPTY)
  {
  }

  lemma AppendKeeps(m: State, leafIndex: nat, leaf: Felt, root: Felt)
    requires Coherent(m)
    ensures Coherent(ApplyAppend(m, leafIndex, leaf, root).0)
  {
    var next := NextOf(m.rows);
    OneMore(m.rows, Single(next, leaf));
    RowsLieBelowFrontier(m.rows);
  }

  /** A first attach, or the replay of one already in the tree. */
  ghost predicate AttachOk(m: State, start: nat, subtreeRoot: Felt, root: Felt) {
    if start < NextOf(m.rows) then
      Start(Block(start)) == start && Block(start) in m.batchRoots && m.batchRoots[Block(start)] == subtreeRoot
    else ApplyAttach(m, start, subtreeRoot, root).1
  }

  /** Nothing was recorded in the slots an attach wipes, unless the block was filled. */
  lemma WipeIsIdle(m: State, start: nat)
    requires Coherent(m) && Start(Block(start)) == start && Block(start) !in m.filled
    requires Block(start) in m.batchRoots || start >= NextOf(m.rows)
    ensures Wipe(m.leaves, start) == m.leaves
  {
    RowsLieBelowFrontier(m.rows);
    forall i | i in m.leaves
      ensures !(start <= i < start + B)
    {
      NotInRun(start, i);
    }
  }

  /** The block of a first attach lies wholly past every record. */
  lemma FreshBlock(m: State, start: nat)
    requires Coherent(m) && start == Padded(NextOf(m.rows))
    ensures Start(Block(start)) == start
    ensures Block(start) !in m.batchRoots
    ensures forall i :: i in m.leaves || i in Leaves(m.rows) ==> Block(i) != Block(start)
  {
    PaddedIsBoundary(NextOf(m.rows));
    RowsLieBelowFrontier(m.rows);
    forall i | i in m.leaves || i in Leaves(m.rows)
      ensures Block(i) != Block(start)
    {
      BlockBounds(i);
    }
  }

  lemma AttachKeeps(m: State, start: nat, subtreeRoot: Felt, root: Felt)
    requires Coherent(m) && AttachOk(m, start, subtreeRoot, root)
    ensures Coherent(ApplyAttach(m, start, subtreeRoot, root).0)
  {
    if start >= NextOf(m.rows) {
      FreshBlock(m, start);
      OneMore(m.rows, Batch(start, subtreeRoot));
    }
    if Block(start) !in m.filled {
      WipeIsIdle(m, start);
    }
    var m' := ApplyAttach(m, start, subtreeRoot, root).0;
    assert forall k :: Interior(m', k) == Interior(m, k);
  }

  lemma InteriorsAgree(m: State, m': State, k: nat)
    requires forall i: nat :: Block(i) == k ==> LeafAt(m.leaves, i) == LeafAt(m'.leaves, i)
    ensures Interior(m, k) == Interior(m', k)
  {
    forall r | 0 <= r < B
      ensures Interior(m, k)[r] == Interior(m', k)[r]
    {
      BlockOfOffset(k, r);
    }
  }

  lemma RecordKeeps(m: State, leafIndex: nat, leaf: Felt)
    requires Coherent(m) && leafIndex in Leaves(m.rows) && Leaves(m.rows)[leafIndex] == leaf
    ensures Coherent(RecordLeaf(m, leafIndex, leaf))
  {
    RowsLieBelowFrontier(m.rows);
    var m' := RecordLeaf(m, leafIndex, leaf);
    forall k | k in m'.filled
      ensures Interior(m', k) == Interior(m, k)
    {
      InteriorsAgree(m', m, k);
    }
  }

  /** `leaves` holds the run from `start` on. */
  ghost predicate RunIn(leaves: map<nat, Felt>, start: nat, run: seq<Felt>) {
    forall i: nat :: start <= i < start + |run| ==> i in leaves && leaves[i] == run[i - start]
  }

  ghost predicate Extends(now: map<nat, Felt>, was: map<nat, Felt>) {
    forall i :: i in was ==> i in now && now[i] == was[i]
  }

  lemma RunFromTail(now: map<nat, Felt>, mid: map<nat, Felt>, was: map<nat, Felt>, start: nat, run: seq<Felt>)
    requires run != [] && Extends(now, mid) && mid == was[start := run[0]] && start !in was
    ensures Extends(now, was) && (RunIn(now, start + 1, run[1..]) ==> RunIn(now, start, run))
  {
    assert start in mid;
  }

  lemma {:induction false} AppendRunLands(m: State, run: seq<Felt>)
    requires Coherent(m)
    ensures var (rows, ok) := AppendRun(m.rows, run);
            && Coherent(m.(rows := rows)) && Batches(rows) == Batches(m.rows)
            && Extends(Leaves(rows), Leaves(m.rows))
            && (ok ==> NextOf(rows) == NextOf(m.rows) + |run| && RunIn(Leaves(rows), NextOf(m.rows), run))
    decreases |run|
  {
    hide Coherent, RunIn, Extends, NextOf, Leaves, Batches, Append;
    if run == [] {
      NothingToAppend(m);
    } else if NextOf(m.rows) < Pow2(H) {
      var m1 := m.(rows := Append(m.rows, run[0]));
      AppendsOne(m, run[0]);
      AppendRunLands(m1, run[1..]);
      RunFromTail(Leaves(AppendRun(m.rows, run).0), Leaves(m1.rows), Leaves(m.rows), NextOf(m.rows), run);
    } else {
      NothingToAppend(m);
    }
  }

  lemma NothingToAppend(m: State)
    ensures Extends(Leaves(m.rows), Leaves(m.rows)) && RunIn(Leaves(m.rows), NextOf(m.rows), [])
  {
  }

  lemma AppendsOne(m: State, leaf: Felt)
    requires Coherent(m)
    ensures var rows := Append(m.rows, leaf);
            && Coherent(m.(rows := rows)) && NextOf(rows) == NextOf(m.rows) + 1 && Batches(rows) == Batches(m.rows)
            && Leaves(rows) == Leaves(m.rows)[NextOf(m.rows) := leaf] && NextOf(m.rows) !in Leaves(m.rows)
  {
    OneMore(m.rows, Single(NextOf(m.rows), leaf));
    RowsLieBelowFrontier(m.rows);
  }

  lemma RunPrefix(leaves: map<nat, Felt>, start: nat, run: seq<Felt>)
    requires run != [] && RunIn(leaves, start, run)
    ensures RunIn(leaves, start, run[..|run| - 1])
    ensures start + |run| - 1 in leaves && leaves[start + |run| - 1] == run[|run| - 1]
  {
  }

  lemma RunSuffix(leaves: map<nat, Felt>, start: nat, run: seq<Felt>)
    requires run != [] && RunIn(leaves, start, run[..|run| - 1])
    ensures RunIn(leaves[start + |run| - 1 := run[|run| - 1]], start, run)
  {
  }

  lemma {:induction false} RecordRunKeeps(m: State, start: nat, run: seq<Felt>)
    requires Coherent(m) && RunIn(Leaves(m.rows), start, run)
    ensures var m' := RecordRun(m, start, run);
            Coherent(m') && m'.rows == m.rows && m.leaves.Keys <= m'.leaves.Keys && RunIn(m'.leaves, start, run)
  {
    hide Coherent, RunIn, Leaves;
    if run == [] {
      NothingRecorded(m, start);
    } else {
      RunPrefix(Leaves(m.rows), start, run);
      RecordRunKeeps(m, start, run[..|run| - 1]);
      RecordKeeps(RecordRun(m, start, run[..|run| - 1]), start + |run| - 1, run[|run| - 1]);
      RunSuffix(RecordRun(m, start, run[..|run| - 1]).leaves, start, run);
    }
  }

  lemma NothingRecorded(m: State, start: nat)
    ensures RunIn(m.leaves, start, [])
  {
  }

  /** Leaves already in the tree followed by leaves just appended are the whole run. */
  lemma RunJoins(was: map<nat, Felt>, now: map<nat, Felt>, start: nat, next: nat, run: seq<Felt>)
    requires start <= next <= start + |run| && Extends(now, was) && RunIn(was, start, run[..next - start])
    requires RunIn(now, next, run[next - start..])
    ensures RunIn(now, start, run)
  {
    forall i: nat | start <= i < start + |run|
      ensures i in now && now[i] == run[i - start]
    {
      if i < next {
        assert i in was;
      }
    }
  }

  /** What of an op's run the frontier already has is the op's. */
  ghost predicate ReplaysTruly(m: State, start: nat, run: seq<Felt>) {
    var have := if start + |run| <= NextOf(m.rows) then |run|
      else if start <= NextOf(m.rows) then NextOf(m.rows) - start else 0;
    RunIn(Leaves(m.rows), start, run[..have])
  }

  /** An op's append, first or replayed in part, lands or throws. Landed, the mirror is coherent, the
      frontier has the op's last root, every leaf of the op is recorded, and no appended leaf is left
      without its record. */
  lemma OpAppendLands(m: State, start: nat, run: seq<Felt>, root: Felt)
    requires Coherent(m) && ReplaysTruly(m, start, run)
    ensures var (m', ok) := ApplyOpAppend(m, start, run, root);
            && (start > NextOf(m.rows) && run != [] ==> !ok)
            && (ok ==>
                  && Coherent(m') && RunIn(m'.leaves, start, run)
                  && (start + |run| > NextOf(m.rows) ==> NextOf(m'.rows) == start + |run| && Root(m'.rows) == root)
                  && (AllRecorded(m) ==> AllRecorded(m')))
  {
    hide Coherent, Root, RunIn, Extends, NextOf, Leaves;
    var next := NextOf(m.rows);
    if start + |run| <= next {
      assert run[..|run|] == run;
      RecordRunKeeps(m, start, run);
    } else if start <= next {
      var more := run[next - start..];
      AppendRunLands(m, more);
      var (rows, ok) := AppendRun(m.rows, more);
      if ok && Root(rows) == root {
        RunJoins(Leaves(m.rows), Leaves(rows), start, next, run);
        RecordRunKeeps(m.(rows := rows), start, run);
        if AllRecorded(m) {
          OnlyTheseAreNew(m.rows, more);
          AllNowRecorded(m, RecordRun(m.(rows := rows), start, run), start, run, next);
        }
      }
    }
  }

  lemma AllNowRecorded(m: State, m': State, start: nat, run: seq<Felt>, next: nat)
    requires AllRecorded(m) && m.leaves.Keys <= m'.leaves.Keys && RunIn(m'.leaves, start, run) && start <= next
    requires forall i :: i in Leaves(m'.rows) ==> i in Leaves(m.rows) || next <= i < start + |run|
    ensures AllRecorded(m')
  {
  }

  lemma {:induction false} OnlyTheseAreNew(rows: seq<Row>, run: seq<Felt>)
    ensures var (rows', ok) := AppendRun(rows, run);
            ok ==> forall i :: i in Leaves(rows') ==> i in Leaves(rows) || NextOf(rows) <= i < NextOf(rows) + |run|
    decreases |run|
  {
    if run != [] && NextOf(rows) < Pow2(H) {
      OneMore(rows, Single(NextOf(rows), run[0]));
      OnlyTheseAreNew(Append(rows, run[0]), run[1..]);
    }
  }

  /** A run that folds to an attached block's root. */
  ghost predicate FillOk(m: State, start: nat, run: seq<Felt>) {
    && Start(Block(start)) == start
    && Block(start) in m.batchRoots
    && |run| == B
    && FoldRun(LOG_B, run) == m.batchRoots[Block(start)]
  }

  lemma FillInteriors(m: State, start: nat, run: seq<Felt>, source: Source, k: nat)
    requires FillOk(m, start, run)
    ensures Interior(FillBatch(m, start, run, source), k) == if k == Block(start) then run else Interior(m, k)
  {
    var m' := FillBatch(m, start, run, source);
    if k == Block(start) {
      assert forall r {:trigger run[r]} :: 0 <= r < B ==> Interior(m', k)[r] == run[r];
    } else {
      forall i: nat | Block(i) == k
        ensures LeafAt(m.leaves, i) == LeafAt(m'.leaves, i)
      {
        NotInRun(start, i);
      }
      InteriorsAgree(m, m', k);
    }
  }

  lemma NotInRun(start: nat, i: nat)
    requires Start(Block(start)) == start
    ensures start <= i < start + B <==> Block(i) == Block(start)
  {
    BlockBounds(i);
    if start <= i < start + B {
      BlockOfOffset(Block(start), i - start);
    }
  }

  lemma FillKeeps(m: State, start: nat, run: seq<Felt>, source: Source)
    requires Coherent(m) && FillOk(m, start, run)
    ensures Coherent(FillBatch(m, start, run, source))
  {
    var m' := FillBatch(m, start, run, source);
    forall i | i in m'.leaves
      ensures Block(i) != Block(start) ==> i in m.leaves && m'.leaves[i] == m.leaves[i]
    {
      NotInRun(start, i);
    }
    forall k | k in m'.filled
      ensures FoldRun(LOG_B, Interior(m', k)) == m'.batchRoots[k]
    {
      FillInteriors(m, start, run, source, k);
    }
  }

  // ---- what path() serves ------------------------------------------------------------

  /** The first `n` siblings on the way up from a leaf. */
  function SiblingsBelow(m: State, leafIndex: nat, n: nat): (s: seq<Felt>)
    ensures |s| == n
    ensures forall j {:trigger s[j]} :: 0 <= j < n ==> s[j] == Node(Recorded(m), j, Sibling(Anc(leafIndex, j)))
  {
    if n == 0 then []
    else SiblingsBelow(m, leafIndex, n - 1) + [Node(Recorded(m), n - 1, Sibling(Anc(leafIndex, n - 1)))]
  }

  function SiblingsOf(m: State, leafIndex: nat): (s: seq<Felt>)
    ensures |s| == H
  {
    SiblingsBelow(m, leafIndex, H)
  }

  function BitsBelow(leafIndex: nat, n: nat): (s: seq<int>)
    ensures |s| == n
    ensures forall j {:trigger s[j]} :: 0 <= j < n ==> s[j] == Anc(leafIndex, j) % 2
  {
    if n == 0 then [] else BitsBelow(leafIndex, n - 1) + [Anc(leafIndex, n - 1) % 2]
  }

  function BitsOf(leafIndex: nat): (s: seq<int>)
    ensures |s| == H
  {
    BitsBelow(leafIndex, H)
  }

  /** The served path folds the served leaf to exactly the frontier root. */
  lemma ServedPathFolds(m: State, leafIndex: nat)
    requires Coherent(m) && AllRecorded(m)
    requires leafIndex < Pow2(H) && Block(leafIndex) !in Opaque(m)
    ensures FoldToRoot(LeafAt(m.leaves, leafIndex), SiblingsOf(m, leafIndex), leafIndex, H) == Root(m.rows)
  {
    var r, s := Recorded(m), SiblingsOf(m, leafIndex);
    assert Anc(leafIndex, H) == 0 by { AncBelowBound(leafIndex, H, 1); }
    assert FoldToRoot(LeafAt(m.leaves, leafIndex), s, leafIndex, H) == Node(r, H, Anc(leafIndex, H)) by {
      PathFolds(r, s, leafIndex, H);
    }
    RecordsFoldToRoot(m);
  }

  /** Filling a block with a run that folds to its root moves no node at or above the blocks,
      and no path outside the block. */
  lemma FillMovesNothingElse(m: State, start: nat, run: seq<Felt>, source: Source, leafIndex: nat)
    requires Coherent(m) && FillOk(m, start, run)
    ensures forall k :: Node(Recorded(FillBatch(m, start, run, source)), LOG_B, k) == Node(Recorded(m), LOG_B, k)
    ensures Block(leafIndex) != Block(start) ==>
              SiblingsOf(FillBatch(m, start, run, source), leafIndex) == SiblingsOf(m, leafIndex)
  {
    var m' := FillBatch(m, start, run, source);
    forall k
      ensures Node(Recorded(m'), LOG_B, k) == Node(Recorded(m), LOG_B, k)
    {
      FillKeepsBlockNode(m, start, run, source, k);
    }
    if Block(leafIndex) != Block(start) {
      forall j: nat | j < H
        ensures Node(Recorded(m'), j, Sibling(Anc(leafIndex, j))) == Node(Recorded(m), j, Sibling(Anc(leafIndex, j)))
      {
        if j >= LOG_B {
          NodeDependsOnBlocks(Recorded(m'), Recorded(m), j - LOG_B, Sibling(Anc(leafIndex, j)));
        } else {
          FillKeepsLowNode(m, start, run, source, leafIndex, j);
        }
      }
    }
  }

  lemma FillKeepsBlockNode(m: State, start: nat, run: seq<Felt>, source: Source, k: nat)
    requires Coherent(m) && FillOk(m, start, run)
    ensures Node(Recorded(FillBatch(m, start, run, source)), LOG_B, k) == Node(Recorded(m), LOG_B, k)
  {
    FillKeeps(m, start, run, source);
    BlockNodeOf(m, k);
    BlockNodeOf(FillBatch(m, start, run, source), k);
    FillInteriors(m, start, run, source, k);
  }

  lemma SiblingInBlock(i: nat, j: nat, leaf: nat)
    requires j < LOG_B && Anc(leaf, j) == Sibling(Anc(i, j))
    ensures Block(leaf) == Block(i)
  {
    AncUp(leaf, i, j + 1, LOG_B);
  }

  lemma FillKeepsLowNode(m: State, start: nat, run: seq<Felt>, source: Source, leafIndex: nat, j: nat)
    requires FillOk(m, start, run) && Block(leafIndex) != Block(start) && j < LOG_B
    ensures Node(Recorded(FillBatch(m, start, run, source)), j, Sibling(Anc(leafIndex, j)))
         == Node(Recorded(m), j, Sibling(Anc(leafIndex, j)))
  {
    var m' := FillBatch(m, start, run, source);
    forall leaf: nat | Anc(leaf, j) == Sibling(Anc(leafIndex, j))
      ensures LeafAt(m'.leaves, leaf) == LeafAt(m.leaves, leaf)
    {
      SiblingInBlock(leafIndex, j, leaf);
      NotInRun(start, leaf);
    }
    NodeDependsOnlyBelow(Recorded(m'), Recorded(m), j, Sibling(Anc(leafIndex, j)));
  }

  // ---- persistence of the leaves, and the boot that replays them ---------------------

  /** The slot has a row of its own: a block start of a batch, or a recorded single leaf. */
  predicate HasRow(m: State, i: nat) {
    if Block(i) in m.batchRoots then i == Start(Block(i)) else i in m.leaves
  }

  /** The leaves table of a state whose every row is durable. */
  function LeafTable(m: State): map<nat, Row> {
    map i | 0 <= i < NextOf(m.rows) && HasRow(m, i) ::
      if Block(i) in m.batchRoots then Batch(i, m.batchRoots[Block(i)]) else Single(i, m.leaves[i])
  }

  lemma LeafTableIsRowTable(m: State)
    requires Coherent(m) && AllRecorded(m)
    ensures LeafTable(m) == RowTable(m.rows)
  {
    RowsLieBelowFrontier(m.rows);
    RowTableBelow(m.rows);
    forall i: nat
      ensures i in LeafTable(m) <==> i in RowTable(m.rows)
      ensures i in LeafTable(m) ==> LeafTable(m)[i] == RowTable(m.rows)[i]
    {
      RowTableOf(m.rows, i);
    }
  }

  function ReplayRow(m: State, r: Row): State {
    var block := Block(r.leafIndex);
    match r
    case Single(i, c) => m.(rows := m.rows + [r], leaves := m.leaves[i := c])
    case Batch(i, root) =>
      m.(rows := m.rows + [r], leaves := Wipe(m.leaves, i), batchRoots := m.batchRoots[block := root])
  }

  /** rebuildFromLeaves over rows the frontier accepts. */
  function Replay(m: State, rs: seq<Row>): State {
    if rs == [] then m else ReplayRow(Replay(m, rs[..|rs| - 1]), rs[|rs| - 1])
  }

  /** The state a replay of `rs` from nothing reaches. */
  function Rebuilt(rs: seq<Row>): State {
    State(rs, Leaves(rs), Batches(rs), {}, {}, [])
  }

  lemma RebuiltIsCoherent(rs: seq<Row>)
    requires Grown(rs)
    ensures Coherent(Rebuilt(rs)) && AllRecorded(Rebuilt(rs))
  {
    RowsLieBelowFrontier(rs);
  }

  lemma {:induction false} ReplayFromEmpty(rs: seq<Row>)
    requires Grown(rs)
    ensures Replay(EMPTY, rs) == Rebuilt(rs)
  {
    if rs != [] {
      var init, last := rs[..|rs| - 1], rs[|rs| - 1];
      ReplayFromEmpty(init);
      assert rs == init + [last];
      if last.Batch? {
        PaddedIsBoundary(NextOf(init));
        RebuiltIsCoherent(init);
        WipeIsIdle(Rebuilt(init), last.leafIndex);
      }
    }
  }

  /** What a boot brings back of a mirror: everything but the recovered batch interiors. */
  function Unfilled(m: State): State {
    State(m.rows, map i | i in m.leaves && Block(i) !in m.batchRoots :: m.leaves[i], m.batchRoots, {}, {}, [])
  }

  /** Replaying the durable rows in index order rebuilds the run's tree, pads included. */
  lemma RebuildRefinesRun(m: State)
    requires Coherent(m) && AllRecorded(m)
    ensures Grown(SelectOrdered(LeafTable(m)))
    ensures Replay(EMPTY, SelectOrdered(LeafTable(m))) == Unfilled(m)
  {
    LeafTableIsRowTable(m);
    RowTableBelow(m.rows);
    SelectIsOrderBy(LeafTable(m), NextOf(m.rows));
    OrderedRowsAreTheRun(m.rows);
    ReplayFromEmpty(m.rows);
    RowsLieBelowFrontier(m.rows);
  }
}
