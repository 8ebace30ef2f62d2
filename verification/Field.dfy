/** Field elements, the Poseidon hash and the tree geometry every other module shares. */
module Field {

  /** A bigint: a BN254 scalar when it is canonical. */
  type Felt = int

  /** The two-to-one hash of packages/core. Nothing is assumed about it, so every theorem
      below holds for every binary function. */
  const POSEIDON2: (Felt, Felt) -> Felt

  function Poseidon2(left: Felt, right: Felt): Felt {
    POSEIDON2(left, right)
  }

  /** Level at which a batch subtree is attached: B == 2^LOG_B. Arbitrary. */
  const LOG_B: nat

  /** Levels above the blocks. Arbitrary. */
  const TOP_LEVELS: nat

  /** Tree height. LOG_B <= H is the constructor check of ImtTree. */
  const H: nat := LOG_B + TOP_LEVELS

  /** Leaves per batch block. */
  const B: nat := Pow2(LOG_B)

  function Pow2(n: nat): (r: nat)
    ensures r >= 1
  {
    if n == 0 then 1 else 2 * Pow2(n - 1)
  }

  datatype Option<+T> = None | Some(value: T)

  /** The index of the level-`level` node above node `i`: `i` halved `level` times. */
  function Anc(i: nat, level: nat): nat {
    if level == 0 then i else Anc(i, level - 1) / 2
  }

  /** Halving commutes, so Anc may be unfolded from either end. */
  lemma {:induction false} AncFromBelow(i: nat, level: nat)
    requires level > 0
    ensures Anc(i, level) == Anc(i / 2, level - 1)
  {
    if level > 1 {
      AncFromBelow(i, level - 1);
    }
  }

  /** `i` is its ancestor's subtree plus an offset inside it. */
  lemma {:induction false} AncDecomposes(i: nat, level: nat) returns (r: nat)
    ensures r < Pow2(level) && i == Anc(i, level) * Pow2(level) + r
  {
    if level == 0 {
      r := 0;
    } else {
      var s := AncDecomposes(i, level - 1);
      var a, p := Anc(i, level - 1), Pow2(level - 1);
      SplitHalf(a, p, a / 2, a % 2);
      r := (a % 2) * p + s;
    }
  }

  lemma SplitHalf(a: nat, p: nat, up: nat, bit: nat)
    requires a == 2 * up + bit && bit < 2
    ensures a * p == up * (2 * p) + bit * p
    ensures bit * p <= p
  {
  }

  /** The source writes floor(i / 2^level). */
  lemma AncIsShift(i: nat, level: nat)
    ensures Anc(i, level) == i / Pow2(level)
  {
    var r := AncDecomposes(i, level);
    DivUnique(i, Pow2(level), Anc(i, level), r);
  }

  lemma DivUnique(i: nat, p: nat, q: nat, r: nat)
    requires 0 <= r < p && i == q * p + r
    ensures i / p == q && i % p == r
  {
    var k := i / p - q;
    assert k * p == (i / p) * p - q * p;
    MulBounds(k, p);
  }

  lemma MulBounds(k: int, p: int)
    requires p >= 0
    ensures k >= 1 ==> k * p >= p
    ensures k <= -1 ==> k * p <= -p
  {
    if k >= 1 {
      assert (k - 1) * p >= 0;
    } else if k <= -1 {
      assert (-k - 1) * p >= 0;
    }
  }

  lemma {:induction false} AncMonotone(i: nat, j: nat, level: nat)
    requires i <= j
    ensures Anc(i, level) <= Anc(j, level)
  {
    if level > 0 {
      AncMonotone(i, j, level - 1);
    }
  }

  lemma {:induction false} AncAdd(i: nat, a: nat, b: nat)
    ensures Anc(i, a + b) == Anc(Anc(i, a), b)
  {
    if b > 0 {
      AncAdd(i, a, b - 1);
    }
  }

  lemma {:induction false} AncUp(i: nat, i': nat, level: nat, above: nat)
    requires level <= above && Anc(i, level) == Anc(i', level)
    ensures Anc(i, above) == Anc(i', above)
  {
    if level < above {
      AncUp(i, i', level, above - 1);
    }
  }

  /** The `r`-th leaf of the level-`level` subtree number `a`. */
  lemma {:induction false} AncOfOffset(a: nat, level: nat, r: nat)
    requires r < Pow2(level)
    ensures Anc(a * Pow2(level) + r, level) == a
  {
    AncIsShift(a * Pow2(level) + r, level);
    DivUnique(a * Pow2(level) + r, Pow2(level), a, r);
  }

  lemma {:induction false} AncBelowBound(i: nat, level: nat, bound: nat)
    requires i < bound * Pow2(level)
    ensures Anc(i, level) < bound
  {
    var r := AncDecomposes(i, level);
    MulBounds(Anc(i, level) - bound, Pow2(level));
    assert Anc(i, level) * Pow2(level) == bound * Pow2(level) + (Anc(i, level) - bound) * Pow2(level);
  }

  lemma {:induction false} Pow2Add(a: nat, b: nat)
    ensures Pow2(a + b) == Pow2(a) * Pow2(b)
  {
    if a > 0 {
      Pow2Add(a - 1, b);
      assert Pow2(a + b) == 2 * (Pow2(a - 1) * Pow2(b));
    }
  }

  /** Left of an ancestor, or right of it, is left or right of the subtree below. */
  lemma AncOrder(i: nat, j: nat, level: nat)
    requires Anc(i, level) < Anc(j, level)
    ensures i < j
  {
    if j <= i {
      AncMonotone(j, i, level);
    }
  }

  lemma {:induction false} AncSucc(p: nat, level: nat)
    ensures Anc(p + 1, level) == Anc(p, level) || Anc(p + 1, level) == Anc(p, level) + 1
    ensures Anc(p + 1, level) != Anc(p, level) ==> level == 0 || Anc(p, level - 1) % 2 == 1
  {
    if level > 0 {
      AncSucc(p, level - 1);
    }
  }

  /** Below the alignment of `p` * 2^level every ancestor is a left child. */
  lemma AncOfAligned(p: nat, level: nat, below: nat)
    requires below < level
    ensures Anc(p * Pow2(level), below) % 2 == 0
  {
    var q := p * Pow2(level - below - 1);
    Pow2Add(level - below - 1, below + 1);
    assert p * Pow2(level) == q * Pow2(below + 1) by { MulAssoc(p, Pow2(level - below - 1), Pow2(below + 1)); }
    assert q * Pow2(below + 1) == (2 * q) * Pow2(below) + 0 by { SplitHalf(2 * q, Pow2(below), q, 0); }
    AncOfOffset(2 * q, below, 0);
  }

  lemma MulAssoc(a: nat, b: nat, c: nat)
    ensures a * (b * c) == (a * b) * c
  {
  }

  // ---- blocks: the source's i / B, k * B and i % B, kept linear for the solver -------

  /** The block leaf `i` lies in. */
  function Block(i: nat): nat {
    Anc(i, LOG_B)
  }

  /** The first leaf of block `k`. */
  function Start(k: nat): nat {
    if k == 0 then 0 else Start(k - 1) + B
  }

  lemma {:induction false} StartIsMul(k: nat)
    ensures Start(k) == k * B
  {
    if k > 0 {
      StartIsMul(k - 1);
      assert k * B == (k - 1) * B + B;
    }
  }

  lemma BlockBounds(i: nat)
    ensures Start(Block(i)) <= i < Start(Block(i)) + B
  {
    var r := AncDecomposes(i, LOG_B);
    StartIsMul(Block(i));
  }

  /** The leaf's place in its block: the source's i % B. */
  function Offset(i: nat): nat {
    BlockBounds(i);
    i - Start(Block(i))
  }

  lemma BlockOfOffset(k: nat, r: nat)
    requires r < B
    ensures Block(Start(k) + r) == k
  {
    StartIsMul(k);
    AncOfOffset(k, LOG_B, r);
  }

  lemma {:induction false} StartMonotone(a: nat, b: nat)
    requires a < b
    ensures Start(a) + B <= Start(b)
  {
    if a < b - 1 {
      StartMonotone(a, b - 1);
    }
  }

  /** The next block boundary at or after `n`. */
  function Padded(n: nat): nat {
    if n == Start(Block(n)) then n else Start(Block(n)) + B
  }

  lemma PaddedIsBoundary(n: nat)
    ensures n <= Padded(n) < n + B
    ensures Start(Block(Padded(n))) == Padded(n)
  {
    BlockBounds(n);
    BlockOfOffset(Block(n), 0);
    BlockOfOffset(Block(n) + 1, 0);
  }

  /** The source's pad count. */
  lemma PaddedIsCode(n: nat)
    ensures Padded(n) == n + (B - n % B) % B
  {
    var k := Block(n);
    BlockBounds(n);
    StartIsMul(k);
    DivUnique(n, B, k, n - Start(k));
    if n != Start(k) {
      SmallMod(B - (n - Start(k)), B);
    } else {
      SelfMod(B);
    }
  }

  lemma SmallMod(r: nat, p: nat)
    requires r < p
    ensures r % p == r
  {
  }

  lemma SelfMod(p: nat)
    requires p > 0
    ensures p % p == 0
  {
    DivUnique(p, p, 1, 0);
  }

  lemma CapacityIsWholeBlocks()
    ensures Pow2(H) == Start(Pow2(TOP_LEVELS))
  {
    Pow2Add(TOP_LEVELS, LOG_B);
    StartIsMul(Pow2(TOP_LEVELS));
  }

  lemma StartOrder(a: nat, b: nat)
    ensures a < b <==> Start(a) < Start(b)
    ensures a < b <==> Start(a) + B <= Start(b)
  {
    if a < b {
      StartMonotone(a, b);
    } else if b < a {
      StartMonotone(b, a);
    }
  }

  /** The tree holds a whole number of blocks, so padding never overruns it. */
  lemma PaddedFits(n: nat)
    requires n <= Pow2(H)
    ensures Padded(n) <= Pow2(H)
    ensures Padded(n) + B <= Pow2(H) <==> Padded(n) < Pow2(H)
  {
    var top := Pow2(TOP_LEVELS);
    CapacityIsWholeBlocks();
    hide Pow2;
    BlockBounds(n);
    StartOrder(Block(n), top);
    StartOrder(Block(n) + 1, top);
  }
}
