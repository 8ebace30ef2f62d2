/** apps/indexer/src/disclosure.ts: is the published ciphertext the one the proof committed to,
    and is a published commitment run safe to fill a batch with? */
module Disclosure {
  import opened Field
  import opened Merkle
  import opened Imt
  import M = Mirror

  /** The BN254 scalar field modulus. */
  const FIELD_PRIME: int := 21888242871839275222246405745257275088548364400416034343698204186575808495617

  /** packages/core disclosureChain: the Poseidon fold seeded at 0. */
  function DisclosureChain(elements: seq<Felt>): Felt {
    if elements == [] then 0
    else Poseidon2(DisclosureChain(elements[..|elements| - 1]), elements[|elements| - 1])
  }

  datatype Status = Verified | Mismatch | Unverifiable | Withheld

  datatype Result = Result(
    status: Status,
    txHash: nat,
    startLeafIndex: nat,
    emittedCount: nat,
    receiverCount: nat,
    recomputed: Felt,
    expected: Felt)

  function VerifyDisclosure(emitted: seq<Felt>, onchainDH: Felt, txHash: nat, start: nat): Result {
    var receiverCount := B * 4;
    var recomputed := DisclosureChain(emitted);
    var status :=
      if |emitted| == 0 then Withheld
      else if recomputed == onchainDH then Verified
      else if |emitted| == receiverCount then Unverifiable
      else Mismatch;
    Result(status, txHash, start, |emitted|, receiverCount, recomputed, onchainDH)
  }

  predicate Canonical(elements: seq<Felt>) {
    forall i :: 0 <= i < |elements| ==> 0 <= elements[i] < FIELD_PRIME
  }

  function VerifyServedDisclosure(elements: seq<Felt>, onchainDH: Felt, txHash: nat, start: nat): Result {
    if !Canonical(elements) then
      Result(Mismatch, txHash, start, |elements|, B * 4, 0, onchainDH)
    else VerifyDisclosure(elements, onchainDH, txHash, start)
  }

  datatype ConsumerVerdict = ConsumerVerdict(result: Result, leaves: Option<seq<Felt>>)

  /** The consumer check's own fold: pair up until one node is left. */
  function FoldPairs(run: seq<Felt>): Felt
    requires |run| >= 1
    decreases |run|
  {
    if |run| == 1 then run[0] else FoldPairs(PairUp(run))
  }

  function VerifyConsumerDisclosure(disclosure: seq<Felt>, onchainDH: Felt, subtreeRoot: Felt, txHash: nat,
                                    start: nat): ConsumerVerdict {
    var Fail := (status: Status, recomputed: Felt, expected: Felt) =>
      ConsumerVerdict(Result(status, txHash, start, |disclosure|, 4 * B, recomputed, expected), None);
    if |disclosure| == 0 then Fail(Withheld, 0, onchainDH)
    else if |disclosure| != 6 * B then Fail(Unverifiable, 0, onchainDH)
    else if !Canonical(disclosure) then Fail(Mismatch, 0, onchainDH)
    else
      var recomputed := DisclosureChain(disclosure);
      if recomputed != onchainDH then Fail(Mismatch, recomputed, onchainDH)
      else
        var leaves := disclosure[5 * B..6 * B];
        var fold := FoldPairs(leaves);
        if fold != subtreeRoot then Fail(Mismatch, fold, subtreeRoot)
        else ConsumerVerdict(Result(Verified, txHash, start, |disclosure|, 4 * B, recomputed, onchainDH), Some(leaves))
  }

  // ---- what the verdicts mean --------------------------------------------------------

  /** The classes of a pool publish, each on what was published: silence, a full match, the
      receiver-only length without one, and a tamper for everything else. */
  lemma ClassesExact(emitted: seq<Felt>, onchainDH: Felt, txHash: nat, start: nat)
    ensures var r := VerifyDisclosure(emitted, onchainDH, txHash, start);
            && (r.status.Withheld? <==> emitted == [])
            && (r.status.Verified? <==> emitted != [] && DisclosureChain(emitted) == onchainDH)
            && (r.status.Unverifiable? <==> |emitted| == 4 * B && DisclosureChain(emitted) != onchainDH)
            && (r.status.Mismatch? <==> |emitted| !in {0, 4 * B} && DisclosureChain(emitted) != onchainDH)
            && r.txHash == txHash && r.startLeafIndex == start && r.expected == onchainDH
            && r.emittedCount == |emitted| && r.receiverCount == 4 * B && r.recomputed == DisclosureChain(emitted)
  {
  }

  /** The classes of a served blob: as above, but an element outside the field is a tamper whatever the
      length and the fold, and nothing is folded then. */
  lemma ServedClassesExact(elements: seq<Felt>, onchainDH: Felt, txHash: nat, start: nat)
    ensures var r := VerifyServedDisclosure(elements, onchainDH, txHash, start);
            var inField := forall i :: 0 <= i < |elements| ==> 0 <= elements[i] < FIELD_PRIME;
            var folds := DisclosureChain(elements) == onchainDH;
            && (r.status.Withheld? <==> elements == [])
            && (r.status.Verified? <==> elements != [] && inField && folds)
            && (r.status.Unverifiable? <==> |elements| == 4 * B && inField && !folds)
            && (r.status.Mismatch? <==> !inField || (|elements| !in {0, 4 * B} && !folds))
            && r.txHash == txHash && r.startLeafIndex == start && r.expected == onchainDH
            && r.emittedCount == |elements| && r.receiverCount == 4 * B
            && r.recomputed == (if inField then DisclosureChain(elements) else 0)
  {
    ClassesExact(elements, onchainDH, txHash, start);
  }

  /** The classes of a consumer publish, and what its alarm shows: the folded chain against the committed
      hash, or, when only the run is wrong, its fold against the batch root. */
  lemma ConsumerClassesExact(disclosure: seq<Felt>, onchainDH: Felt, subtreeRoot: Felt, txHash: nat, start: nat)
    ensures var r := VerifyConsumerDisclosure(disclosure, onchainDH, subtreeRoot, txHash, start).result;
            var inField := forall i :: 0 <= i < |disclosure| ==> 0 <= disclosure[i] < FIELD_PRIME;
            var chain := DisclosureChain(disclosure);
            && (r.status.Withheld? <==> disclosure == [])
            && (r.status.Unverifiable? <==> |disclosure| !in {0, 6 * B})
            && (r.status.Verified? || r.status.Mismatch? ==> |disclosure| == 6 * B)
            && (|disclosure| == 6 * B ==>
                  var fold := FoldRun(LOG_B, disclosure[5 * B..6 * B]);
                  && (r.status.Verified? <==> inField && chain == onchainDH && fold == subtreeRoot)
                  && (r.recomputed, r.expected)
                     == (if !inField then (0, onchainDH)
                         else if chain == onchainDH && fold != subtreeRoot then (fold, subtreeRoot)
                         else (chain, onchainDH)))
            && (|disclosure| != 6 * B ==> r.recomputed == 0 && r.expected == onchainDH)
            && r.txHash == txHash && r.startLeafIndex == start
            && r.emittedCount == |disclosure| && r.receiverCount == 4 * B
  {
    if |disclosure| == 6 * B {
      FoldPairsIsFoldRun(LOG_B, disclosure[5 * B..6 * B]);
    }
  }

  /** The hash maps into the field, and pairs of field elements to different values. */
  ghost predicate CollisionFree() {
    && (forall p, q :: Canonical([Poseidon2(p, q)]))
    && forall p, q, r, s :: Canonical([p, q]) && Canonical([r, s]) && Poseidon2(p, q) == Poseidon2(r, s) ==>
         p == r && q == s
  }

  lemma HashBinds(p: Felt, q: Felt, r: Felt, s: Felt)
    requires CollisionFree() && Canonical([p]) && Canonical([q]) && Canonical([r]) && Canonical([s])
    requires Poseidon2(p, q) == Poseidon2(r, s)
    ensures p == r && q == s
  {
    assert [p][0] == p && [q][0] == q && [r][0] == r && [s][0] == s;
    assert Canonical([p, q]) && Canonical([r, s]);
  }

  lemma HashIsCanonical(p: Felt, q: Felt)
    requires CollisionFree()
    ensures Canonical([Poseidon2(p, q)])
  {
  }

  lemma CanonicalParts(s: seq<Felt>, k: nat)
    requires Canonical(s) && k <= |s|
    ensures Canonical(s[..k]) && Canonical(s[k..]) && (k < |s| ==> Canonical([s[k]]))
  {
  }

  lemma ChainIsCanonical(elements: seq<Felt>)
    requires CollisionFree()
    ensures Canonical([DisclosureChain(elements)])
  {
    hide CollisionFree;
    if elements != [] {
      HashIsCanonical(DisclosureChain(elements[..|elements| - 1]), elements[|elements| - 1]);
    }
  }

  lemma SeedIsZero(x: Felt)
    ensures DisclosureChain([x]) == Poseidon2(0, x)
  {
    assert [x][..0] == [];
  }

  /** The chain of one element is seeded at zero, and if the hash has no collisions the chain binds every
      element: two canonical runs of one length with one chain are the same run. */
  lemma {:induction false} ChainBindsEveryElement(a: seq<Felt>, b: seq<Felt>, x: Felt)
    requires CollisionFree() && Canonical(a) && Canonical(b)
    ensures DisclosureChain([x]) == Poseidon2(0, x)
    ensures |a| == |b| && DisclosureChain(a) == DisclosureChain(b) ==> a == b
  {
    hide CollisionFree, Canonical;
    SeedIsZero(x);
    if a != [] && |a| == |b| && DisclosureChain(a) == DisclosureChain(b) {
      var n := |a| - 1;
      CanonicalParts(a, n);
      CanonicalParts(b, n);
      ChainIsCanonical(a[..n]);
      ChainIsCanonical(b[..n]);
      HashBinds(DisclosureChain(a[..n]), a[n], DisclosureChain(b[..n]), b[n]);
      ChainBindsEveryElement(a[..n], b[..n], x);
      assert a == a[..n] + [a[n]] && b == b[..n] + [b[n]];
    }
  }

  /** Pairing until one node is left is the LOG_B-level block fold. */
  lemma {:induction false} FoldPairsIsFoldRun(level: nat, run: seq<Felt>)
    requires |run| == Pow2(level)
    ensures FoldPairs(run) == FoldRun(level, run)
  {
    if level > 0 {
      PairUpKeepsFold(level, run);
      FoldPairsIsFoldRun(level - 1, PairUp(run));
    }
  }

  /** A consumer run is handed over exactly when all three checks hold, and is then safe to fill. */
  lemma ConsumerVerdictExact(disclosure: seq<Felt>, onchainDH: Felt, subtreeRoot: Felt, txHash: nat, start: nat)
    ensures var v := VerifyConsumerDisclosure(disclosure, onchainDH, subtreeRoot, txHash, start);
            && (v.leaves.Some? <==> v.result.status == Verified)
            && (v.leaves.Some? <==>
                  && |disclosure| == 6 * B && Canonical(disclosure)
                  && DisclosureChain(disclosure) == onchainDH
                  && FoldRun(LOG_B, disclosure[5 * B..6 * B]) == subtreeRoot)
            && (v.leaves.Some? ==> v.leaves.value == disclosure[5 * B..6 * B])
  {
    if |disclosure| == 6 * B {
      FoldPairsIsFoldRun(LOG_B, disclosure[5 * B..6 * B]);
    }
  }

  /** The public fill of an attached block: no other node or path moves, and afterwards every path
      into the block folds to the root. */
  lemma PublicFillIsSafe(m: M.State, disclosure: seq<Felt>, onchainDH: Felt, subtreeRoot: Felt, txHash: nat, start: nat,
                         leafIndex: nat)
    requires M.Coherent(m) && M.AllRecorded(m) && leafIndex < Pow2(H)
    requires Start(Block(start)) == start && Block(start) in m.batchRoots && m.batchRoots[Block(start)] == subtreeRoot
    requires VerifyConsumerDisclosure(disclosure, onchainDH, subtreeRoot, txHash, start).leaves.Some?
    ensures var run := VerifyConsumerDisclosure(disclosure, onchainDH, subtreeRoot, txHash, start).leaves.value;
            var m' := M.FillBatch(m, start, run, M.Public);
            && M.Coherent(m')
            && (Block(leafIndex) == Block(start) ==>
                  FoldToRoot(LeafAt(m'.leaves, leafIndex), M.SiblingsOf(m', leafIndex), leafIndex, H) == Root(m.rows))
            && (Block(leafIndex) != Block(start) ==> M.SiblingsOf(m', leafIndex) == M.SiblingsOf(m, leafIndex))
  {
    ConsumerVerdictExact(disclosure, onchainDH, subtreeRoot, txHash, start);
    FillServesPaths(m, start, disclosure[5 * B..6 * B], M.Public, leafIndex);
  }

  lemma FillServesPaths(m: M.State, start: nat, run: seq<Felt>, source: M.Source, leafIndex: nat)
    requires M.Coherent(m) && M.AllRecorded(m) && M.FillOk(m, start, run) && leafIndex < Pow2(H)
    ensures var m' := M.FillBatch(m, start, run, source);
            && M.Coherent(m') && M.AllRecorded(m')
            && (Block(leafIndex) == Block(start) ==>
                  FoldToRoot(LeafAt(m'.leaves, leafIndex), M.SiblingsOf(m', leafIndex), leafIndex, H) == Root(m.rows))
            && (Block(leafIndex) != Block(start) ==> M.SiblingsOf(m', leafIndex) == M.SiblingsOf(m, leafIndex))
  {
    var m' := M.FillBatch(m, start, run, source);
    M.FillKeeps(m, start, run, source);
    M.FillMovesNothingElse(m, start, run, source, leafIndex);
    if Block(leafIndex) == Block(start) {
      M.ServedPathFolds(m', leafIndex);
    }
  }

  /** Poseidon reduces its inputs mod p, so adding p to any one element leaves the chain alone... */
  lemma {:induction false} ChainIgnoresAlias(elements: seq<Felt>, i: nat)
    requires i < |elements|
    requires forall a, b :: Poseidon2(a, b + FIELD_PRIME) == Poseidon2(a, b)
    ensures DisclosureChain(elements[i := elements[i] + FIELD_PRIME]) == DisclosureChain(elements)
  {
    var last := |elements| - 1;
    var aliased := elements[i := elements[i] + FIELD_PRIME];
    if i < last {
      ChainIgnoresAlias(elements[..last], i);
      assert aliased[..last] == elements[..last][i := elements[i] + FIELD_PRIME];
    } else {
      assert aliased[..last] == elements[..last];
    }
  }

  /** ...which is why the served-blob verifier checks canonical form first: the plain classifier
      accepts the alias, the served one never does. */
  lemma AliasIsCaughtOnlyByCanonicalCheck(elements: seq<Felt>, i: nat, onchainDH: Felt, txHash: nat, start: nat)
    requires i < |elements|
    requires forall a, b :: Poseidon2(a, b + FIELD_PRIME) == Poseidon2(a, b)
    requires VerifyServedDisclosure(elements, onchainDH, txHash, start).status == Verified
    ensures var aliased := elements[i := elements[i] + FIELD_PRIME];
            && VerifyDisclosure(aliased, onchainDH, txHash, start).status == Verified
            && VerifyServedDisclosure(aliased, onchainDH, txHash, start).status == Mismatch
  {
    ChainIgnoresAlias(elements, i);
    assert elements[i := elements[i] + FIELD_PRIME][i] >= FIELD_PRIME;
  }
}
