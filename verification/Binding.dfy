/** What a root proves if the hash has no collisions: the leaf a path leads to, and every leaf of a run. */
module Binding {
  import opened Field
  import opened Merkle
  import opened Disclosure

  lemma PathIsCanonical(leaf: Felt, siblings: seq<Felt>, leafIndex: nat, n: nat)
    requires n <= |siblings| && CollisionFree() && Canonical([leaf])
    ensures Canonical([FoldToRoot(leaf, siblings, leafIndex, n)])
  {
    hide CollisionFree, Canonical;
    if n > 0 {
      var cur := FoldToRoot(leaf, siblings, leafIndex, n - 1);
      HashIsCanonical(siblings[n - 1], cur);
      HashIsCanonical(cur, siblings[n - 1]);
    }
  }

  /** One step of a path, on whichever side. */
  lemma StepBinds(odd: bool, cur: Felt, sibling: Felt, cur': Felt, sibling': Felt)
    requires CollisionFree() && Canonical([cur]) && Canonical([cur']) && Canonical([sibling]) && Canonical([sibling'])
    requires (if odd then Poseidon2(sibling, cur) else Poseidon2(cur, sibling))
          == if odd then Poseidon2(sibling', cur') else Poseidon2(cur', sibling')
    ensures cur == cur' && sibling == sibling'
  {
    hide CollisionFree, Canonical;
    if odd {
      HashBinds(sibling, cur, sibling', cur');
    } else {
      HashBinds(cur, sibling, cur', sibling');
    }
  }

  /** Two paths of one length for one index that reach one root start at one leaf and have the same
      siblings: no other leaf can be proved in its place. */
  lemma {:induction false} PathBindsLeaf(a: Felt, siblings: seq<Felt>, b: Felt, siblings': seq<Felt>, leafIndex: nat,
                                         n: nat)
    requires CollisionFree() && Canonical([a]) && Canonical([b]) && |siblings| == |siblings'| && n <= |siblings|
    requires Canonical(siblings) && Canonical(siblings')
    requires FoldToRoot(a, siblings, leafIndex, n) == FoldToRoot(b, siblings', leafIndex, n)
    ensures a == b && siblings[..n] == siblings'[..n]
  {
    hide CollisionFree, Canonical;
    if n > 0 {
      CanonicalParts(siblings, n - 1);
      CanonicalParts(siblings', n - 1);
      PathIsCanonical(a, siblings, leafIndex, n - 1);
      PathIsCanonical(b, siblings', leafIndex, n - 1);
      StepBinds(Anc(leafIndex, n - 1) % 2 == 1, FoldToRoot(a, siblings, leafIndex, n - 1), siblings[n - 1],
                FoldToRoot(b, siblings', leafIndex, n - 1), siblings'[n - 1]);
      PathBindsLeaf(a, siblings, b, siblings', leafIndex, n - 1);
      assert siblings[..n] == siblings[..n - 1] + [siblings[n - 1]];
      assert siblings'[..n] == siblings'[..n - 1] + [siblings'[n - 1]];
    }
  }

  lemma {:induction false} RunIsCanonical(level: nat, run: seq<Felt>)
    requires CollisionFree() && |run| == Pow2(level) && Canonical(run)
    ensures Canonical([FoldRun(level, run)])
  {
    if level > 0 {
      var half := Pow2(level - 1);
      HashIsCanonical(FoldRun(level - 1, run[..half]), FoldRun(level - 1, run[half..]));
    } else {
      CanonicalParts(run, 0);
    }
  }

  /** Two runs of a block's length with one fold are the same run: a block can be filled in one way only. */
  lemma {:induction false} FoldBindsRun(level: nat, a: seq<Felt>, b: seq<Felt>)
    requires CollisionFree() && |a| == |b| == Pow2(level) && Canonical(a) && Canonical(b)
    requires FoldRun(level, a) == FoldRun(level, b)
    ensures a == b
  {
    hide CollisionFree, Canonical;
    if level > 0 {
      var half := Pow2(level - 1);
      CanonicalParts(a, half);
      CanonicalParts(b, half);
      RunIsCanonical(level - 1, a[..half]);
      RunIsCanonical(level - 1, a[half..]);
      RunIsCanonical(level - 1, b[..half]);
      RunIsCanonical(level - 1, b[half..]);
      HashBinds(FoldRun(level - 1, a[..half]), FoldRun(level - 1, a[half..]), FoldRun(level - 1, b[..half]),
                FoldRun(level - 1, b[half..]));
      FoldBindsRun(level - 1, a[..half], b[..half]);
      FoldBindsRun(level - 1, a[half..], b[half..]);
      assert a == a[..half] + a[half..] && b == b[..half] + b[half..];
    }
  }
}
