/** One poll: applyLogs behind its gate, cut anywhere, and what repeating it comes to. */
module Poll {
  import opened Field
  import opened Imt
  import opened Chain
  import opened Ingest
  import opened Correlation
  import opened Effects
  import opened Replay
  import opened Views
  import opened Durable
  import opened Runs
  import opened Watch
  import opened Machine
  import opened Gated
  import F = Feed
  import K = Kem
  import LS = LedgerSync
  import M = Mirror
  import R = Registry
  import T = LeafTables

  // ---- premises ----------------------------------------------------------------------

  /** The chain is one on which every handler succeeds, modules emit only what they are entitled to,
      and the ops of one transaction can be told apart. */
  ghost predicate Honest(gs: seq<Group>) {
    ChainOk(gs) && AllEntitled(gs) && Distinguishable(gs)
  }

  lemma HonestParts(gs: seq<Group>)
    requires AllWellFormed(gs) && Honest(gs)
    ensures ChainOk(gs) && AllEntitled(gs) && Distinguishable(gs) && FromModules(gs) && DistinctBatches(gs)
    ensures Truthful([], Flatten(gs)) && AllDated(gs, Announcing(gs))
  {
    hide WellFormed, Truthful, GroupOk, Announcing, Distinguishable, AllDated;
    forall i | 0 <= i < |gs| && (AnchorOf(gs[i]).Some? || gs[i].AcceptGroup?)
      ensures gs[i].emitter != POOL
    {
      assert Entitled(Clean(gs, i), gs[i]);
    }
    forall i, j | 0 <= i < j < |gs| && IsBatch(gs[i]) && IsBatch(gs[j])
      ensures gs[i].s.start != gs[j].s.start
    {
      GroupsApart(gs, i, j);
    }
  }

  // ---- who gets in -------------------------------------------------------------------

  lemma ViewWatched(a: Mem, b: Mem)
    requires View(a) == View(b)
    ensures Watched(a) == Watched(b)
  {
    assert a.kem.batches == b.kem.batches && a.modules.byAddress == b.modules.byAddress;
  }

  lemma SliceWellFormed(gs: seq<Group>, c: nat, n: nat, q: nat)
    requires AllWellFormed(gs) && c <= n <= |gs| && q <= n - c
    ensures AllWellFormed(gs[c..n]) && AllWellFormed(gs[c..c + q]) && AllWellFormed(gs[c + q..n])
    ensures gs[c..n][..q] == gs[c..c + q]
    ensures Range(gs, c, n) == Range(gs, c, c + q) + Range(gs, c + q, n)
  {
    hide WellFormed, LogsOf;
    assert gs[c..n] == gs[c..c + q] + gs[c + q..n];
    FlattenAdds(gs[c..c + q], gs[c + q..n]);
  }

  /** From a read model that has handled `d` groups only ops below `d` can be dropped. */
  lemma LateGetsIn(gs: seq<Group>, m: Mem, c: nat, d: nat, i: nat)
    requires AllWellFormed(gs) && c <= d <= i < |gs|
    requires Honest(gs) && View(m) == View(Clean(gs, d))
    ensures GetsIn(gs, Watched(m), c, i)
  {
    hide WellFormed, LogsOf, Gate, Registered, EmitterOf, View, Clean, Covers, Entitled, Watched, ChainOk;
    var w := Watched(m);
    ViewWatched(m, Clean(gs, d));
    EverybodyEntitledGetsIn(gs, d, i);
    assert Entitled(Clean(gs, i), gs[i]);
    EntitledIsWatched(w + Registered(Range(gs, d, i)), Clean(gs, i), gs[i]);
    SliceWellFormed(gs, c, i, d - c);
    RegisteredAdds(Range(gs, c, d), Range(gs, d, i));
  }

  lemma AllLateGetIn(gs: seq<Group>, m: Mem, c: nat, d: nat, n: nat)
    requires AllWellFormed(gs) && c <= d && c <= n <= |gs| && d <= |gs|
    requires Honest(gs) && View(m) == View(Clean(gs, d))
    ensures forall i :: d <= i < n ==> GetsIn(gs, Watched(m), c, i)
  {
    hide WellFormed, GetsIn, View, Clean, Watched, Honest;
    forall i | d <= i < n
      ensures GetsIn(gs, Watched(m), c, i)
    {
      LateGetsIn(gs, m, c, d, i);
    }
  }

  // ---- pass 2 over what gets in ------------------------------------------------------

  /** The groups from `c` to `n`, each with its own effect. */
  function RunOn(m: Mem, gs: seq<Group>, c: nat, n: nat): (r: Mem)
    requires K.Valid(m.kem) && AllWellFormed(gs) && c <= n <= |gs|
    ensures K.Valid(r.kem)
  {
    if n == c then m else GroupEffect(RunOn(m, gs, c, n - 1), gs[n - 1]).0
  }

  /** No op let in is blocked by a dropped one. */
  ghost predicate NobodyBlocked(gs: seq<Group>, w: set<Address>, c: nat, n: nat)
    requires AllWellFormed(gs) && c <= n <= |gs|
  {
    forall j :: c <= j < n && GetsIn(gs, w, c, j) ==> !Blocked(gs, w, c, j)
  }

  /** One more group of the range: dropped or done, it does nothing; blocked, it throws; the next one
      lands. */
  lemma OneKept(db: Db, r: Mem, gs: seq<Group>, p: nat, w: set<Address>, c: nat, d: nat, j: nat) returns (d': nat)
    requires AllWellFormed(gs) && c <= j < |gs| && c <= d <= |gs| && j <= d && |RowsUpTo(gs, j + 1)| <= p
    requires K.Valid(r.kem)
    requires ChainOk(gs) && AtPoint(db, r, gs, p, d) && DoneBetween(r, gs, c, d)
    requires GetsIn(gs, w, c, j) && !Blocked(gs, w, c, j)
    ensures Attributed(r, gs[j])
    ensures var (r', ok) := GroupEffect(r, gs[j]);
            && ok && AtPoint(db, r', gs, p, d') && DoneBetween(r', gs, c, d') && r'.feed.lastBlock == r.feed.lastBlock
            && d' == Max(d, j + 1) && r' == RunOn(r, gs, d, d')
  {
    hide GroupEffect, WellFormed, LogsOf, AtPoint, Done, Truthful, GroupOk, Attributed, GetsIn, Blocked, RowsUpTo;
    ParamsOk(gs);
    d' := Max(d, j + 1);
    if j < d {
      DoneIsIdle(r, gs[j]);
      StillAttributed(db, r, gs, p, d, j);
    } else {
      GroupLands(db, r, gs, p, d);
      DoneBeforeStays(r, gs, c, d);
      EffectKeepsCursor(r, gs[j]);
    }
  }

  lemma IsAttributed(db: Db, r: Mem, gs: seq<Group>, p: nat, d: nat, j: nat)
    requires AllWellFormed(gs) && j < |gs| && d <= |gs| && j <= d && |RowsUpTo(gs, j + 1)| <= p && K.Valid(r.kem)
    requires ChainOk(gs) && AtPoint(db, r, gs, p, d)
    ensures Attributed(r, gs[j])
  {
    hide GroupEffect, WellFormed, LogsOf, AtPoint, Done, Truthful, GroupOk, Attributed, RowsUpTo;
    if j < d {
      StillAttributed(db, r, gs, p, d, j);
    } else {
      GroupLands(db, r, gs, p, d);
    }
  }

  lemma RunOnNothing(m: Mem, gs: seq<Group>, c: nat)
    requires K.Valid(m.kem) && AllWellFormed(gs) && c <= |gs|
    ensures RunOn(m, gs, c, c) == m
  {
  }

  lemma {:induction false} RunOnJoins(m: Mem, gs: seq<Group>, a: nat, b: nat, c: nat)
    requires K.Valid(m.kem) && AllWellFormed(gs) && a <= b <= c <= |gs|
    ensures RunOn(RunOn(m, gs, a, b), gs, b, c) == RunOn(m, gs, a, c)
  {
    hide GroupEffect, WellFormed;
    if b < c {
      RunOnJoins(m, gs, a, b, c - 1);
    }
  }

  lemma KnownSoFar(m: Mem, gs: seq<Group>, w: set<Address>, c: nat, n: nat)
    requires K.Valid(m.kem) && AllWellFormed(gs) && c <= n <= |gs|
    requires n > c ==> AllKnown(m, gs, w, c, n - 1)
    requires n > c && RunKept(m, gs, w, c, n - 1).1 && GetsIn(gs, w, c, n - 1) ==>
               Attributed(RunKept(m, gs, w, c, n - 1).0, gs[n - 1])
    ensures AllKnown(m, gs, w, c, n)
  {
    hide WellFormed, RunKept, GetsIn, Attributed;
  }

  lemma BlockedSoFar(gs: seq<Group>, w: set<Address>, c: nat, n: nat)
    requires AllWellFormed(gs) && c < n <= |gs|
    ensures NobodyBlocked(gs, w, c, n)
       <==> NobodyBlocked(gs, w, c, n - 1) && (GetsIn(gs, w, c, n - 1) ==> !Blocked(gs, w, c, n - 1))
  {
    hide WellFormed, GetsIn, Blocked;
  }

  /** Pass 2 over what the gate keeps: it goes through exactly when nobody is blocked, and, thrown or
      not, the read model is exactly that of the groups handled so far. */
  lemma {:induction false} KeptLands(db: Db, m: Mem, gs: seq<Group>, p: nat, w: set<Address>, c: nat, d: nat,
                                     n: nat) returns (d': nat)
    requires AllWellFormed(gs) && c <= n <= |gs| && c <= d <= |gs| && |RowsUpTo(gs, n)| <= p && K.Valid(m.kem)
    requires ChainOk(gs) && AtPoint(db, m, gs, p, d) && DoneBetween(m, gs, c, d)
    requires forall i :: d <= i < n ==> GetsIn(gs, w, c, i)
    ensures d <= d' <= Max(d, n)
    ensures var (r, ok) := RunKept(m, gs, w, c, n);
            && AtPoint(db, r, gs, p, d') && DoneBetween(r, gs, c, d') && r == RunOn(m, gs, d, d')
            && r.feed.lastBlock == m.feed.lastBlock
            && (ok <==> NobodyBlocked(gs, w, c, n)) && (ok ==> d' == Max(d, n))
    ensures Stuck(gs, w, c, d) ==> d' == d
    ensures AllKnown(m, gs, w, c, n)
    decreases n
  {
    hide GroupEffect, WellFormed, AtPoint, DoneBetween, Attributed, GetsIn, Blocked, RowsUpTo, RunOn, ChainOk, AllKnown,
      NobodyBlocked, Stuck;
    if n == c {
      d' := d;
      RunOnNothing(m, gs, d);
      KnownSoFar(m, gs, w, c, n);
      NoneBlocked(gs, w, c);
    } else {
      RowsArePrefix(gs, n - 1, n);
      d' := KeptLands(db, m, gs, p, w, c, d, n - 1);
      var (r, ok) := RunKept(m, gs, w, c, n - 1);
      BlockedSoFar(gs, w, c, n);
      StuckBlocks(gs, w, c, d, n - 1);
      if ok && GetsIn(gs, w, c, n - 1) {
        IsAttributed(db, r, gs, p, d', n - 1);
        if !Blocked(gs, w, c, n - 1) {
          var was := d';
          d' := OneKept(db, r, gs, p, w, c, was, n - 1);
          RunOnJoins(m, gs, d, was, d');
        }
      }
      KnownSoFar(m, gs, w, c, n);
    }
  }

  /** Among the groups handled already, one that gets in is blocked by one that does not. */
  ghost predicate Stuck(gs: seq<Group>, w: set<Address>, c: nat, d: nat)
    requires AllWellFormed(gs) && c <= d <= |gs|
  {
    exists j :: c <= j < d && GetsIn(gs, w, c, j) && Blocked(gs, w, c, j)
  }

  lemma StuckBlocks(gs: seq<Group>, w: set<Address>, c: nat, d: nat, n: nat)
    requires AllWellFormed(gs) && c <= d <= |gs| && c <= n <= |gs|
    ensures Stuck(gs, w, c, d) && d <= n ==> !NobodyBlocked(gs, w, c, n)
  {
    hide WellFormed, GetsIn, Blocked;
  }

  lemma NoneBlocked(gs: seq<Group>, w: set<Address>, c: nat)
    requires AllWellFormed(gs) && c <= |gs|
    ensures NobodyBlocked(gs, w, c, c)
  {
  }

  // ---- one poll, cut anywhere --------------------------------------------------------

  function Min(a: nat, b: nat): nat {
    if a < b then a else b
  }

  lemma RangeKeptParsed(gs: seq<Group>, w: set<Address>, c: nat, n: nat)
    requires AllWellFormed(gs) && c <= n <= |gs|
    ensures AllParsed(Kept(gs, w, c, n))
  {
    hide WellFormed, Parsed, Gate, Range;
    RangeParsed(gs, c, n);
    GateParsed(w, Range(gs, c, n));
  }

  /** Pass 2 over the kept logs of the first `q` groups, with the queues of the whole kept range. */
  function Handled(m: Mem, gs: seq<Group>, w: set<Address>, c: nat, n: nat, q: nat): (r: (Mem, bool))
    requires K.Valid(m.kem) && AllWellFormed(gs) && c <= n <= |gs| && q <= n - c
    ensures K.Valid(r.0.kem)
  {
    hide WellFormed, Parsed, Kept, Pass2, QueuesOf, K.Valid;
    RangeKeptParsed(gs, w, c, n);
    RangeKeptParsed(gs, w, c, c + q);
    var kept := Kept(gs, w, c, n);
    var r := Pass2(m, QueuesOf(kept), kept, Kept(gs, w, c, c + q));
    (r.0, r.2)
  }

  /** applyLogs over the groups from `c` to `n`, through the gate as the watch-set stands, aborted
      after `k` logs of pass 1 or after `q` groups of pass 2, if it gets that far. Also whether it
      went through to the end. */
  function Attempt(m: Mem, gs: seq<Group>, c: nat, n: nat, k: nat, q: nat): (r: (Mem, bool))
    requires K.Valid(m.kem) && AllWellFormed(gs) && c <= n <= |gs|
    ensures K.Valid(r.0.kem)
  {
    hide WellFormed, Kept, Pass1, Handled, K.Valid;
    var w := Watched(m);
    var kept := Kept(gs, w, c, n);
    var (tree, ok) := Pass1(m.tree, kept[..Min(k, |kept|)]);
    if !ok || k < |kept| then (m.(tree := tree), false)
    else
      var r := Handled(m.(tree := tree), gs, w, c, n, Min(q, n - c));
      (r.0, r.1 && q >= n - c)
  }

  /** An attempt nobody cuts is applyLogs over what the gate keeps. */
  lemma UncutIsApplyLogs(m: Mem, gs: seq<Group>, c: nat, n: nat, k: nat, q: nat)
    requires K.Valid(m.kem) && AllWellFormed(gs) && c <= n <= |gs|
    requires k >= |Gate(Watched(m), Range(gs, c, n))| && q >= n - c
    ensures var kept := Gate(Watched(m), Range(gs, c, n));
            && AllParsed(kept)
            && Attempt(m, gs, c, n, k, q) == (ApplyKept(m, kept).0, ApplyKept(m, kept).2)
  {
    hide WellFormed, Parsed, Gate, Pass1, Pass2, QueuesOf, Range, Watched;
    var kept := Gate(Watched(m), Range(gs, c, n));
    RangeKeptParsed(gs, Watched(m), c, n);
    assert kept[..|kept|] == kept;
  }

  // ---- pass 1 of a poll --------------------------------------------------------------

  lemma Prefixes(base: seq<Row>, all: seq<Row>, p: nat, p': nat)
    requires base <= all && |base| <= p <= |all| && |base| <= p' <= |all|
    ensures all[..p] == base + all[|base|..][..p - |base|]
    ensures base + all[|base|..][..Max(p - |base|, p' - |base|)] == all[..Max(p, p')]
  {
  }

  /** How far the first `k` kept logs of the range take the frontier. */
  function Reached(gs: seq<Group>, w: set<Address>, c: nat, n: nat, k: nat): nat
    requires AllWellFormed(gs) && c <= n <= |gs| && k <= |Kept(gs, w, c, n)|
  {
    |RowsUpTo(gs, c)| + |TreeRows(Kept(gs, w, c, n)[..k])|
  }

  lemma ReachedWithin(gs: seq<Group>, w: set<Address>, c: nat, n: nat, k: nat)
    requires AllWellFormed(gs) && c <= n <= |gs| && k <= |Kept(gs, w, c, n)|
    requires FromModules(gs) && Truthful([], Flatten(gs))
    ensures Reached(gs, w, c, n, k) <= |RowsUpTo(gs, n)| <= |RowsUpTo(gs, |gs|)|
    ensures k == |Kept(gs, w, c, n)| ==> Reached(gs, w, c, n, k) == |RowsUpTo(gs, n)|
    ensures RowsUpTo(gs, c) + TreeRows(Kept(gs, w, c, n)[..k]) <= RowsUpTo(gs, |gs|)
    ensures Truthful(RowsUpTo(gs, c), Kept(gs, w, c, n)[..k])
  {
    hide Flatten, WellFormed, RowsUpTo, TreeRows, Kept, Truthful, FromModules;
    var logs := Kept(gs, w, c, n);
    KeptRows(gs, w, c, n);
    RowsArePrefix(gs, n, |gs|);
    assert logs == logs[..k] + logs[k..];
    TreeRowsAdd(logs[..k], logs[k..]);
    TruthfulAdds(RowsUpTo(gs, c), logs[..k], logs[k..]);
    if k == |logs| {
      assert logs[..k] == logs;
    }
    StillPrefix(RowsUpTo(gs, c), TreeRows(logs[..k]), TreeRows(logs[k..]), RowsUpTo(gs, |gs|));
  }

  lemma StillPrefix(a: seq<Row>, b: seq<Row>, c: seq<Row>, all: seq<Row>)
    requires a + (b + c) <= all
    ensures a + b <= all
  {
    assert a + (b + c) == (a + b) + c;
  }

  /** Pass 1, cut after `k` logs, from a tree that may be behind or ahead of the cut. */
  lemma TreeLands(table: map<nat, Row>, t: M.State, gs: seq<Group>, w: set<Address>, p: nat, c: nat, n: nat, k: nat)
    requires AllWellFormed(gs) && c <= n <= |gs| && k <= |Kept(gs, w, c, n)|
    requires FromModules(gs) && Truthful([], Flatten(gs))
    requires T.Synced(table, t) && |RowsUpTo(gs, c)| <= p <= |RowsUpTo(gs, |gs|)| && t.rows == RowsUpTo(gs, |gs|)[..p]
    ensures var (t', ok) := Pass1(t, Kept(gs, w, c, n)[..k]);
            && ok && T.Synced(table, t')
            && Max(p, Reached(gs, w, c, n, k)) <= |RowsUpTo(gs, |gs|)|
            && t'.rows == RowsUpTo(gs, |gs|)[..Max(p, Reached(gs, w, c, n, k))]
            && t'.leaves == t.leaves && t'.filled == t.filled && t'.publicFilled == t.publicFilled
  {
    hide Kept, WellFormed, RowsUpTo, TreeRows, Truthful, T.Synced, Pass1, FromModules, Flatten;
    var base, all, logs := RowsUpTo(gs, c), RowsUpTo(gs, |gs|), Kept(gs, w, c, n)[..k];
    RowsArePrefix(gs, c, |gs|);
    ReachedWithin(gs, w, c, n, k);
    Prefixes(base, all, p, Reached(gs, w, c, n, k));
    AfterBase(base, TreeRows(logs), all);
    Pass1Advances(table, t, base, logs, all[|base|..], p - |base|);
  }

  lemma AfterBase(a: seq<Row>, b: seq<Row>, all: seq<Row>)
    requires a + b <= all
    ensures a <= all && b <= all[|a|..]
  {
    assert all[..|a + b|] == a + b;
    assert all[|a|..][..|b|] == b;
  }

  lemma PointAfterTree(db: Db, m: Mem, gs: seq<Group>, w: set<Address>, p: nat, c: nat, q: nat, n: nat, k: nat)
    requires AllWellFormed(gs) && c <= n <= |gs| && k <= |Kept(gs, w, c, n)|
    requires ChainOk(gs) && FromModules(gs) && AtPoint(db, m, gs, p, q) && c <= q <= |gs|
    ensures var (t, ok) := Pass1(m.tree, Kept(gs, w, c, n)[..k]);
            && ok && AtPoint(db, m.(tree := t), gs, Max(p, Reached(gs, w, c, n, k)), q)
            && (DoneBetween(m, gs, c, q) ==> DoneBetween(m.(tree := t), gs, c, q))
  {
    hide Kept, WellFormed, RowsUpTo, TreeRows, Truthful, T.Synced, F.Synced, LS.Synced, Retained, R.Synced, Pass1,
      GroupOk, Reached, FromModules, Flatten, LogsOf;
    ParamsOk(gs);
    RowsArePrefix(gs, c, q);
    TreeLands(db.leaves, m.tree, gs, w, p, c, n, k);
    var m' := m.(tree := Pass1(m.tree, Kept(gs, w, c, n)[..k]).0);
    RetainedSame(m, m');
    SeenSame(m', m, gs, q);
    ReachedWithin(gs, w, c, n, k);
    if DoneBetween(m, gs, c, q) {
      DoneSame(m, m', gs, c, q);
    }
  }

  lemma DoneSame(m: Mem, m': Mem, gs: seq<Group>, c: nat, q: nat)
    requires AllWellFormed(gs) && q <= |gs| && DoneBetween(m, gs, c, q)
    requires m' == m.(tree := m'.tree) && m'.tree.leaves == m.tree.leaves
    ensures DoneBetween(m', gs, c, q)
  {
    hide WellFormed, GroupKey;
    forall j | c <= j < q
      ensures Done(m', gs[j])
    {
      assert Done(m, gs[j]);
    }
  }

  // ---- pass 2 of a poll --------------------------------------------------------------

  lemma RangeIndexed(gs: seq<Group>, w: set<Address>, c: nat, n: nat, b: nat)
    requires AllWellFormed(gs) && c <= b <= n <= |gs|
    requires FromModules(gs) && DistinctBatches(gs)
    ensures KeptIndexed(Kept(gs, w, c, n), gs, w, c, b)
  {
    hide WellFormed, GetsIn, Kept, FromModules, DistinctBatches;
    forall i | c <= i < b && GetsIn(gs, w, c, i)
      ensures Indexed(Kept(gs, w, c, n), gs[i])
    {
      if IsBatch(gs[i]) {
        KeptPublishes(gs, w, c, n, i);
      }
    }
  }

  lemma {:induction false} KeptSplits(gs: seq<Group>, w: set<Address>, c: nat, b: nat, n: nat) returns (rest: seq<Log>)
    requires AllWellFormed(gs) && c <= b <= n <= |gs|
    requires FromModules(gs)
    ensures Kept(gs, w, c, n) == Kept(gs, w, c, b) + rest
    decreases n
  {
    hide WellFormed, GetsIn, Kept, FromModules, LogsOf, Remains;
    if n == b {
      rest := [];
    } else {
      rest := KeptSplits(gs, w, c, b, n - 1);
      KeptStep(gs, w, c, n);
      var part := if GetsIn(gs, w, c, n - 1) then LogsOf(gs[n - 1]) else Remains(gs[n - 1]);
      assert Kept(gs, w, c, b) + rest + part == Kept(gs, w, c, b) + (rest + part);
      rest := rest + part;
    }
  }

  /** Pass 2 as the code runs it is RunKept. */
  lemma HandledIsRunKept(m: Mem, gs: seq<Group>, w: set<Address>, c: nat, n: nat, q: nat)
    requires K.Valid(m.kem) && AllWellFormed(gs) && c <= n <= |gs| && q <= n - c
    requires Honest(gs) && AllKnown(m, gs, w, c, c + q)
    ensures Handled(m, gs, w, c, n, q) == RunKept(m, gs, w, c, c + q)
  {
    hide WellFormed, Parsed, Kept, Pass2, QueuesOf, K.Valid, RunKept, Honest, AllKnown, Truthful, Distinguishable,
      FromModules, AllDated, KeptIndexed, Owes, NobodyWaits, Announcing, ChainOk, Flatten;
    var kept, txs := Kept(gs, w, c, n), Announcing(gs);
    HonestParts(gs);
    RangeKeptParsed(gs, w, c, n);
    RangeKeptParsed(gs, w, c, c + q);
    RangeIndexed(gs, w, c, n, c + q);
    StartsOwing(kept, txs);
    var rest := KeptSplits(gs, w, c, c + q, n);
    KeptPass(m, QueuesOf(kept), kept, gs, w, c, c + q, rest, txs);
  }

  // ---- where a poll lands ------------------------------------------------------------

  /** A poll cut in pass 1 only moves the frontier. */
  lemma CutInPass1(db: Db, m: Mem, gs: seq<Group>, p: nat, c: nat, n: nat, k: nat, q: nat, d: nat)
    requires AllWellFormed(gs) && c <= n <= |gs| && c <= d <= |gs| && K.Valid(m.kem) && k < |Kept(gs, Watched(m), c, n)|
    requires Honest(gs) && AtPoint(db, m, gs, p, d) && DoneBetween(m, gs, c, d)
    ensures var (m', through) := Attempt(m, gs, c, n, k, q);
            && !through && m' == m.(tree := Pass1(m.tree, Kept(gs, Watched(m), c, n)[..k]).0)
            && AtPoint(db, m', gs, Max(p, Reached(gs, Watched(m), c, n, k)), d) && DoneBetween(m', gs, c, d)
            && m'.feed.lastBlock == m.feed.lastBlock
  {
    hide AtPoint, DoneBetween, Kept, Reached, Pass1, Handled, ChainOk, WellFormed, Honest, FromModules, Watched;
    HonestParts(gs);
    PointAfterTree(db, m, gs, Watched(m), p, c, d, n, k);
  }

  lemma HandledLands(db: Db, m: Mem, gs: seq<Group>, w: set<Address>, p: nat, c: nat, n: nat, q: nat,
                     d: nat) returns (d': nat)
    requires AllWellFormed(gs) && c <= n <= |gs| && c <= d <= |gs| && q <= n - c && K.Valid(m.kem)
    requires |RowsUpTo(gs, n)| <= p
    requires Honest(gs) && AtPoint(db, m, gs, p, d) && DoneBetween(m, gs, c, d)
    requires forall i :: d <= i < c + q ==> GetsIn(gs, w, c, i)
    ensures d <= d' <= Max(d, c + q)
    ensures var (m', ok) := Handled(m, gs, w, c, n, q);
            && AtPoint(db, m', gs, p, d') && DoneBetween(m', gs, c, d') && m' == RunOn(m, gs, d, d')
            && m'.feed.lastBlock == m.feed.lastBlock
            && (ok <==> NobodyBlocked(gs, w, c, c + q)) && (ok ==> d' == Max(d, c + q))
    ensures Stuck(gs, w, c, d) ==> d' == d
  {
    hide AtPoint, DoneBetween, Handled, RowsUpTo, WellFormed, Honest, RunKept, AllKnown, GetsIn, NobodyBlocked, RunOn,
      Stuck;
    HonestParts(gs);
    RowsArePrefix(gs, c + q, n);
    d' := KeptLands(db, m, gs, p, w, c, d, c + q);
    HandledIsRunKept(m, gs, w, c, n, q);
  }

  /** The read model once pass 1 is through. */
  function Grown1(m: Mem, gs: seq<Group>, c: nat, n: nat): Mem
    requires AllWellFormed(gs) && c <= n <= |gs|
  {
    m.(tree := Pass1(m.tree, Kept(gs, Watched(m), c, n)).0)
  }

  lemma GrownLands(db: Db, m: Mem, gs: seq<Group>, p: nat, c: nat, n: nat, d: nat)
    requires AllWellFormed(gs) && c <= n <= |gs| && c <= d <= |gs| && K.Valid(m.kem)
    requires Honest(gs) && AtPoint(db, m, gs, p, d) && DoneBetween(m, gs, c, d)
    ensures Pass1(m.tree, Kept(gs, Watched(m), c, n)).1
    ensures Grown1(m, gs, c, n).kem == m.kem && Grown1(m, gs, c, n).feed == m.feed
    ensures AtPoint(db, Grown1(m, gs, c, n), gs, Max(p, |RowsUpTo(gs, n)|), d)
    ensures DoneBetween(Grown1(m, gs, c, n), gs, c, d)
  {
    hide AtPoint, DoneBetween, Kept, Reached, Pass1, RowsUpTo, WellFormed, Honest, FromModules, Watched;
    var w := Watched(m);
    HonestParts(gs);
    PointAfterTree(db, m, gs, w, p, c, d, n, |Kept(gs, w, c, n)|);
    ReachedWithin(gs, w, c, n, |Kept(gs, w, c, n)|);
    assert Kept(gs, w, c, n)[..|Kept(gs, w, c, n)|] == Kept(gs, w, c, n);
  }

  lemma PastPass1(m: Mem, gs: seq<Group>, c: nat, n: nat, k: nat, q: nat)
    requires K.Valid(m.kem) && AllWellFormed(gs) && c <= n <= |gs| && k >= |Kept(gs, Watched(m), c, n)|
    requires Pass1(m.tree, Kept(gs, Watched(m), c, n)).1
    ensures var r := Handled(Grown1(m, gs, c, n), gs, Watched(m), c, n, Min(q, n - c));
            Attempt(m, gs, c, n, k, q) == (r.0, r.1 && q >= n - c)
  {
    hide Kept, Pass1, Handled, WellFormed, Watched;
    var kept := Kept(gs, Watched(m), c, n);
    assert kept[..|kept|] == kept;
  }

  /** A poll that gets to pass 2 has the frontier at the end of the range. It goes through exactly when
      it is not cut and no op let in is blocked by a dropped one; thrown or not, it stands exactly at
      the groups it has handled, or those handled before if they are more. */
  lemma CutInPass2(db: Db, m: Mem, gs: seq<Group>, p: nat, c: nat, n: nat, k: nat, q: nat, d: nat) returns (d': nat)
    requires AllWellFormed(gs) && c <= n <= |gs| && c <= d <= |gs| && K.Valid(m.kem)
    requires k >= |Kept(gs, Watched(m), c, n)|
    requires Honest(gs) && AtPoint(db, m, gs, p, d) && DoneBetween(m, gs, c, d)
    ensures d <= d' <= Max(d, c + Min(q, n - c))
    ensures var (m', through) := Attempt(m, gs, c, n, k, q);
            && AtPoint(db, m', gs, Max(p, |RowsUpTo(gs, n)|), d') && DoneBetween(m', gs, c, d')
            && m'.feed.lastBlock == m.feed.lastBlock && m' == RunOn(Grown1(m, gs, c, n), gs, d, d')
            && (through <==> q >= n - c && NobodyBlocked(gs, Watched(m), c, n)) && (through ==> d' == Max(d, n))
            && (NobodyBlocked(gs, Watched(m), c, c + Min(q, n - c)) ==> d' == Max(d, c + Min(q, n - c)))
            && (Stuck(gs, Watched(m), c, d) ==> d' == d)
  {
    hide AtPoint, DoneBetween, Kept, Pass1, Handled, RowsUpTo, WellFormed, Honest, Watched, GetsIn, NobodyBlocked,
      RunOn, Attempt, View, Clean, Grown1, K.Valid, Stuck;
    GrownLands(db, m, gs, p, c, n, d);
    PastPass1(m, gs, c, n, k, q);
    ViewOf(db, m, gs, p, d);
    AllLateGetIn(gs, m, c, d, c + Min(q, n - c));
    d' := HandledLands(db, Grown1(m, gs, c, n), gs, Watched(m), Max(p, |RowsUpTo(gs, n)|), c, n, Min(q, n - c), d);
  }

  lemma ViewOf(db: Db, m: Mem, gs: seq<Group>, p: nat, d: nat)
    requires AllWellFormed(gs) && AtPoint(db, m, gs, p, d)
    ensures d <= |gs| && View(m) == View(Clean(gs, d))
  {
  }

  /** When a retry of a range goes through: applyLogs over what the gate keeps, from a read model that
      has handled the range up to `d`, throws exactly when an op let in comes after a dropped one of its
      transaction that draws from the same queue. */
  lemma RetryGoesThroughIff(db: Db, m: Mem, gs: seq<Group>, p: nat, c: nat, d: nat, n: nat)
    requires AllWellFormed(gs) && c <= n <= |gs| && c <= d <= |gs| && K.Valid(m.kem)
    requires Honest(gs) && AtPoint(db, m, gs, p, d) && DoneBetween(m, gs, c, d)
    ensures var kept := Gate(Watched(m), Range(gs, c, n));
            AllParsed(kept) && (ApplyKept(m, kept).2 <==> NobodyBlocked(gs, Watched(m), c, n))
  {
    hide AtPoint, DoneBetween, RowsUpTo, WellFormed, Honest, Watched, NobodyBlocked, Attempt, Gate, Range, ApplyKept,
      Parsed, RunOn, Grown1;
    var d' := CutInPass2(db, m, gs, p, c, n, |Gate(Watched(m), Range(gs, c, n))|, n - c, d);
    UncutIsApplyLogs(m, gs, c, n, |Gate(Watched(m), Range(gs, c, n))|, n - c);
  }

  // ---- replay convergence ------------------------------------------------------------

  /** An attempt nobody cuts. */
  function Whole(m: Mem, gs: seq<Group>, c: nat, n: nat): (r: (Mem, bool))
    requires K.Valid(m.kem) && AllWellFormed(gs) && c <= n <= |gs|
    ensures K.Valid(r.0.kem)
  {
    Attempt(m, gs, c, n, |Kept(gs, Watched(m), c, n)|, n - c)
  }

  datatype Try = Try(k: nat, q: nat)

  /** The same range again and again, each time cut somewhere. */
  function AfterTries(m: Mem, gs: seq<Group>, c: nat, n: nat, tries: seq<Try>): (m': Mem)
    requires K.Valid(m.kem) && AllWellFormed(gs) && c <= n <= |gs|
    ensures K.Valid(m'.kem)
  {
    if tries == [] then m
    else
      var last := tries[|tries| - 1];
      Attempt(AfterTries(m, gs, c, n, tries[..|tries| - 1]), gs, c, n, last.k, last.q).0
  }

  /** The tree after `k` logs of the whole range. */
  function TreeAfter(t: M.State, gs: seq<Group>, c: nat, n: nat, k: nat): M.State
    requires AllWellFormed(gs) && c <= n <= |gs| && k <= |Range(gs, c, n)|
  {
    Pass1(t, Range(gs, c, n)[..k]).0
  }

  /** Somewhere inside the range, down to the last buffer and replay key: `k` logs of pass 1 on top of
      `m0`, and, pass 1 being through, the groups up to `d`. */
  ghost predicate Partway(db: Db, m0: Mem, m: Mem, gs: seq<Group>, c: nat, n: nat, k: nat, d: nat)
    requires K.Valid(m0.kem) && AllWellFormed(gs) && c <= n <= |gs|
  {
    && k <= |Range(gs, c, n)| && c <= d <= n && (d > c ==> k == |Range(gs, c, n)|) && K.Valid(m.kem)
    && m == RunOn(m0.(tree := TreeAfter(m0.tree, gs, c, n, k)), gs, c, d)
    && AtPoint(db, m, gs, |RowsUpTo(gs, c)| + |TreeRows(Range(gs, c, n)[..k])|, d)
    && DoneBetween(m, gs, c, d)
  }

  lemma TreeAgain(table: map<nat, Row>, t: M.State, gs: seq<Group>, c: nat, n: nat, k: nat, k': nat)
    requires AllWellFormed(gs) && c <= n <= |gs| && k <= |Range(gs, c, n)| && k' <= |Range(gs, c, n)|
    requires Truthful([], Flatten(gs)) && T.Synced(table, t) && t.rows == RowsUpTo(gs, c)
    ensures Pass1(TreeAfter(t, gs, c, n, k), Range(gs, c, n)[..k']) == (TreeAfter(t, gs, c, n, Max(k, k')), true)
  {
    hide Range, WellFormed, RowsUpTo, Truthful, T.Synced, Pass1, Flatten, TreeRows;
    var logs := Range(gs, c, n);
    TreeAt(table, t, gs, c, n, k);
    TreeAt(table, t, gs, c, n, k');
    var tk := TreeAfter(t, gs, c, n, k);
    if k' <= k {
      assert logs[..k] == logs[..k'] + logs[k'..k];
      TreeRowsAdd(logs[..k'], logs[k'..k]);
      Pass1Again(table, tk, RowsUpTo(gs, c), logs[..k']);
    } else {
      assert logs[..k'] == logs[..k] + logs[k..k'];
      Pass1Again(table, tk, RowsUpTo(gs, c), logs[..k]);
      Pass1Adds(t, logs[..k], logs[k..k']);
      Pass1Adds(tk, logs[..k], logs[k..k']);
    }
  }

  lemma TreeAt(table: map<nat, Row>, t: M.State, gs: seq<Group>, c: nat, n: nat, k: nat)
    requires AllWellFormed(gs) && c <= n <= |gs| && k <= |Range(gs, c, n)|
    requires Truthful([], Flatten(gs)) && T.Synced(table, t) && t.rows == RowsUpTo(gs, c)
    ensures var (t', ok) := Pass1(t, Range(gs, c, n)[..k]);
            ok && T.Synced(table, t') && t'.rows == RowsUpTo(gs, c) + TreeRows(Range(gs, c, n)[..k])
  {
    hide Range, WellFormed, RowsUpTo, Truthful, T.Synced, Pass1, Flatten, TreeRows;
    var logs, rows := Range(gs, c, n), TreeRows(Range(gs, c, n)[..k]);
    TruthfulBetween(gs, c, n);
    assert Range(gs, c, n) == Flatten(gs[c..n]) by { RangeIs(gs, c, n); }
    assert logs == logs[..k] + logs[k..];
    TruthfulAdds(RowsUpTo(gs, c), logs[..k], logs[k..]);
    assert t.rows == RowsUpTo(gs, c) + rows[..0] && rows[..|rows|] == rows;
    Pass1Advances(table, t, RowsUpTo(gs, c), logs[..k], rows, 0);
  }

  lemma RangeIs(gs: seq<Group>, c: nat, n: nat)
    requires AllWellFormed(gs) && c <= n <= |gs|
    ensures Range(gs, c, n) == Flatten(gs[c..n])
  {
  }

  /** Before the first group of pass 2 nobody has left the watch-set. */
  lemma NothingDropped(gs: seq<Group>, m: Mem, c: nat, n: nat)
    requires AllWellFormed(gs) && c <= n <= |gs|
    requires Honest(gs) && View(m) == View(Clean(gs, c))
    ensures Kept(gs, Watched(m), c, n) == Range(gs, c, n)
  {
    hide WellFormed, View, Clean, Watched, Gate, Range, ChainOk, Distinguishable, Covers;
    ViewWatched(m, Clean(gs, c));
    EverybodyEntitledGetsIn(gs, c, n);
  }

  /** Pass 1 once more, when the tree has the whole range already. */
  lemma GrownAgain(db: Db, m: Mem, gs: seq<Group>, c: nat, n: nat, d: nat, k: nat)
    requires AllWellFormed(gs) && c <= n <= |gs| && d <= |gs| && k <= |Kept(gs, Watched(m), c, n)|
    requires Honest(gs) && AtPoint(db, m, gs, |RowsUpTo(gs, n)|, d)
    ensures Pass1(m.tree, Kept(gs, Watched(m), c, n)[..k]) == (m.tree, true)
  {
    hide Kept, WellFormed, RowsUpTo, Truthful, T.Synced, Pass1, Flatten, TreeRows, View, SeenWithin, Watched, Honest,
      F.Synced, LS.Synced, R.Synced, Retained, FromModules;
    var logs := Kept(gs, Watched(m), c, n);
    HonestParts(gs);
    KeptRows(gs, Watched(m), c, n);
    RowsArePrefix(gs, n, |gs|);
    assert logs == logs[..k] + logs[k..];
    TreeRowsAdd(logs[..k], logs[k..]);
    Pass1Again(db.leaves, m.tree, RowsUpTo(gs, c), logs[..k]);
  }

  lemma RowsSoFar(gs: seq<Group>, c: nat, n: nat, k: nat, k': nat)
    requires AllWellFormed(gs) && c <= n <= |gs| && k <= |Range(gs, c, n)| && k' <= |Range(gs, c, n)|
    ensures Max(|TreeRows(Range(gs, c, n)[..k])|, |TreeRows(Range(gs, c, n)[..k'])|)
              == |TreeRows(Range(gs, c, n)[..Max(k, k')])|
    ensures |RowsUpTo(gs, c)| + |TreeRows(Range(gs, c, n)[..|Range(gs, c, n)|])| == |RowsUpTo(gs, n)|
    ensures |RowsUpTo(gs, c)| + |TreeRows(Range(gs, c, n)[..k])| <= |RowsUpTo(gs, n)|
  {
    hide Range, WellFormed, RowsUpTo, Flatten, TreeRows;
    var logs := Range(gs, c, n);
    RowsBetween(gs, c, n);
    RangeIs(gs, c, n);
    assert logs[..|logs|] == logs;
    assert logs == logs[..k] + logs[k..];
    TreeRowsAdd(logs[..k], logs[k..]);
    if k <= k' {
      assert logs[..k'] == logs[..k] + logs[k..k'];
      TreeRowsAdd(logs[..k], logs[k..k']);
    } else {
      assert logs[..k] == logs[..k'] + logs[k'..k];
      TreeRowsAdd(logs[..k'], logs[k'..k]);
    }
  }

  lemma EarlyIs(db: Db, m0: Mem, m: Mem, gs: seq<Group>, c: nat, n: nat, k: nat)
    requires K.Valid(m0.kem) && AllWellFormed(gs) && c <= n <= |gs|
    requires Honest(gs) && AtPoint(db, m0, gs, |RowsUpTo(gs, c)|, c) && Partway(db, m0, m, gs, c, n, k, c)
    ensures K.Valid(m.kem) && k <= |Range(gs, c, n)| && m == m0.(tree := TreeAfter(m0.tree, gs, c, n, k))
    ensures AtPoint(db, m, gs, |RowsUpTo(gs, c)| + |TreeRows(Range(gs, c, n)[..k])|, c) && DoneBetween(m, gs, c, c)
    ensures T.Synced(db.leaves, m0.tree) && m0.tree.rows == RowsUpTo(gs, c) && Truthful([], Flatten(gs))
    ensures Kept(gs, Watched(m), c, n) == Range(gs, c, n)
  {
    hide AtPoint, DoneBetween, Kept, Pass1, RowsUpTo, WellFormed, Honest, Watched, Range, TreeRows, View, Clean,
      T.Synced, Flatten, RunOn, K.Valid, TreeAfter, Truthful, ChainOk, AllEntitled, FromModules, DistinctBatches,
      AllDated, Distinguishable;
    HonestParts(gs);
    PointParts(db, m0, gs, |RowsUpTo(gs, c)|, c);
    PointParts(db, m, gs, |RowsUpTo(gs, c)| + |TreeRows(Range(gs, c, n)[..k])|, c);
    NothingDropped(gs, m, c, n);
    RunOnNothing(m0.(tree := TreeAfter(m0.tree, gs, c, n, k)), gs, c);
  }

  /** One more attempt while pass 2 has not begun, cut in pass 1. */
  lemma EarlyTryCut(db: Db, m0: Mem, m: Mem, gs: seq<Group>, c: nat, n: nat, k: nat, t: Try)
    requires K.Valid(m0.kem) && AllWellFormed(gs) && c <= n <= |gs| && t.k < |Range(gs, c, n)|
    requires Honest(gs) && AtPoint(db, m0, gs, |RowsUpTo(gs, c)|, c) && Partway(db, m0, m, gs, c, n, k, c)
    ensures Kept(gs, Watched(m), c, n) == Range(gs, c, n) && !Attempt(m, gs, c, n, t.k, t.q).1
    ensures Partway(db, m0, Attempt(m, gs, c, n, t.k, t.q).0, gs, c, n, Max(k, t.k), c)
  {
    hide AtPoint, DoneBetween, Kept, Pass1, Handled, RowsUpTo, WellFormed, Honest, Watched, GetsIn, NobodyBlocked,
      Attempt, Range, TreeRows, View, Clean, T.Synced, Flatten, RunOn, K.Valid, Truthful, Reached;
    var p := |RowsUpTo(gs, c)| + |TreeRows(Range(gs, c, n)[..k])|;
    EarlyIs(db, m0, m, gs, c, n, k);
    CutInPass1(db, m, gs, p, c, n, t.k, t.q, c);
    TreeAgain(db.leaves, m0.tree, gs, c, n, k, t.k);
    RowsSoFar(gs, c, n, k, t.k);
    ReachedIs(gs, Watched(m), c, n, t.k);
    RunOnNothing(m0.(tree := TreeAfter(m0.tree, gs, c, n, Max(k, t.k))), gs, c);
  }

  /** One more attempt while pass 2 has not begun, not cut in pass 1. */
  lemma EarlyTryThrough(db: Db, m0: Mem, m: Mem, gs: seq<Group>, c: nat, n: nat, k: nat, t: Try) returns (d2: nat)
    requires K.Valid(m0.kem) && AllWellFormed(gs) && c <= n <= |gs| && t.k >= |Range(gs, c, n)|
    requires Honest(gs) && AtPoint(db, m0, gs, |RowsUpTo(gs, c)|, c) && Partway(db, m0, m, gs, c, n, k, c)
    ensures Kept(gs, Watched(m), c, n) == Range(gs, c, n)
    ensures Partway(db, m0, Attempt(m, gs, c, n, t.k, t.q).0, gs, c, n, |Range(gs, c, n)|, d2)
    ensures Attempt(m, gs, c, n, t.k, t.q).1 <==> t.q >= n - c && NobodyBlocked(gs, Watched(m), c, n)
    ensures Attempt(m, gs, c, n, t.k, t.q).1 ==> d2 == n
  {
    hide AtPoint, DoneBetween, Kept, Pass1, Handled, RowsUpTo, WellFormed, Honest, Watched, GetsIn, NobodyBlocked,
      Attempt, Range, TreeRows, View, Clean, T.Synced, Flatten, RunOn, K.Valid, Truthful;
    var p, whole := |RowsUpTo(gs, c)| + |TreeRows(Range(gs, c, n)[..k])|, |Range(gs, c, n)|;
    EarlyIs(db, m0, m, gs, c, n, k);
    d2 := CutInPass2(db, m, gs, p, c, n, t.k, t.q, c);
    TreeAgain(db.leaves, m0.tree, gs, c, n, k, whole);
    RowsSoFar(gs, c, n, k, whole);
    assert Range(gs, c, n)[..whole] == Range(gs, c, n);
  }

  lemma PointParts(db: Db, m: Mem, gs: seq<Group>, p: nat, d: nat)
    requires AllWellFormed(gs) && AtPoint(db, m, gs, p, d)
    ensures T.Synced(db.leaves, m.tree) && d <= |gs| && View(m) == View(Clean(gs, d))
    ensures p <= |RowsUpTo(gs, |gs|)| && m.tree.rows == RowsUpTo(gs, |gs|)[..p]
    ensures p == |RowsUpTo(gs, d)| ==> m.tree.rows == RowsUpTo(gs, d)
  {
    hide T.Synced, F.Synced, LS.Synced, R.Synced, Retained, View, SeenWithin, WellFormed, RowsUpTo;
    RowsArePrefix(gs, d, |gs|);
  }

  lemma ReachedIs(gs: seq<Group>, w: set<Address>, c: nat, n: nat, k: nat)
    requires AllWellFormed(gs) && c <= n <= |gs| && Kept(gs, w, c, n) == Range(gs, c, n) && k <= |Kept(gs, w, c, n)|
    ensures Reached(gs, w, c, n, k) == |RowsUpTo(gs, c)| + |TreeRows(Range(gs, c, n)[..k])|
  {
  }

  /** One more attempt once pass 2 has begun: pass 1 has nothing left to do. */
  lemma LateTry(db: Db, m0: Mem, m: Mem, gs: seq<Group>, c: nat, n: nat, d: nat, t: Try) returns (d2: nat)
    requires K.Valid(m0.kem) && AllWellFormed(gs) && c < d && c <= n <= |gs|
    requires Honest(gs) && Partway(db, m0, m, gs, c, n, |Range(gs, c, n)|, d)
    ensures Partway(db, m0, Attempt(m, gs, c, n, t.k, t.q).0, gs, c, n, |Range(gs, c, n)|, d2)
    ensures Attempt(m, gs, c, n, t.k, t.q).1
       <==> t.k >= |Kept(gs, Watched(m), c, n)| && t.q >= n - c && NobodyBlocked(gs, Watched(m), c, n)
    ensures Attempt(m, gs, c, n, t.k, t.q).1 ==> d2 == n
  {
    hide AtPoint, DoneBetween, Kept, Pass1, Handled, RowsUpTo, WellFormed, Honest, Watched, GetsIn, NobodyBlocked,
      Attempt, Range, TreeRows, View, Clean, TreeAfter, T.Synced, Flatten, RunOn, K.Valid, Reached;
    var k, kept := |Range(gs, c, n)|, Kept(gs, Watched(m), c, n);
    var base := m0.(tree := TreeAfter(m0.tree, gs, c, n, k));
    RowsSoFar(gs, c, n, k, k);
    if t.k < |kept| {
      CutInPass1(db, m, gs, |RowsUpTo(gs, n)|, c, n, t.k, t.q, d);
      GrownAgain(db, m, gs, c, n, d, t.k);
      assert m.(tree := m.tree) == m;
      d2 := d;
      HonestParts(gs);
    } else {
      d2 := CutInPass2(db, m, gs, |RowsUpTo(gs, n)|, c, n, t.k, t.q, d);
      GrownAgain(db, m, gs, c, n, d, |kept|);
      assert kept[..|kept|] == kept && m.(tree := m.tree) == m;
      RunOnJoins(base, gs, c, d, d2);
    }
  }

  lemma {:induction false} TriesStayPartway(db: Db, m: Mem, gs: seq<Group>, c: nat, n: nat,
                                            tries: seq<Try>) returns (k: nat, d: nat)
    requires AllWellFormed(gs) && c <= n <= |gs| && K.Valid(m.kem)
    requires Honest(gs) && AtPoint(db, m, gs, |RowsUpTo(gs, c)|, c)
    ensures Partway(db, m, AfterTries(m, gs, c, n, tries), gs, c, n, k, d)
    decreases |tries|
  {
    hide AtPoint, Range, Attempt, RowsUpTo, Honest, Partway, WellFormed;
    if tries == [] {
      k, d := 0, c;
      StartsPartway(db, m, gs, c, n);
    } else {
      k, d := TriesStayPartway(db, m, gs, c, n, tries[..|tries| - 1]);
      k, d := TryStaysPartway(db, m, AfterTries(m, gs, c, n, tries[..|tries| - 1]), gs, c, n, k, d, tries[|tries| - 1]);
    }
  }

  lemma StartsPartway(db: Db, m: Mem, gs: seq<Group>, c: nat, n: nat)
    requires AllWellFormed(gs) && c <= n <= |gs| && K.Valid(m.kem)
    requires AtPoint(db, m, gs, |RowsUpTo(gs, c)|, c)
    ensures Partway(db, m, m, gs, c, n, 0, c)
  {
    hide AtPoint, Range, RowsUpTo, WellFormed;
    assert Range(gs, c, n)[..0] == [];
    assert m.(tree := m.tree) == m;
  }

  lemma TryStaysPartway(db: Db, m0: Mem, m: Mem, gs: seq<Group>, c: nat, n: nat, k: nat, d: nat,
                        t: Try) returns (k2: nat, d2: nat)
    requires K.Valid(m0.kem) && AllWellFormed(gs) && c <= n <= |gs|
    requires Honest(gs) && AtPoint(db, m0, gs, |RowsUpTo(gs, c)|, c) && Partway(db, m0, m, gs, c, n, k, d)
    ensures Partway(db, m0, Attempt(m, gs, c, n, t.k, t.q).0, gs, c, n, k2, d2)
    ensures Attempt(m, gs, c, n, t.k, t.q).1
       <==> t.k >= |Kept(gs, Watched(m), c, n)| && t.q >= n - c && NobodyBlocked(gs, Watched(m), c, n)
    ensures Attempt(m, gs, c, n, t.k, t.q).1 ==> k2 == |Range(gs, c, n)| && d2 == n
  {
    hide AtPoint, DoneBetween, Kept, RowsUpTo, WellFormed, Honest, Watched, NobodyBlocked, Attempt, Range, TreeAfter,
      RunOn, TreeRows;
    if d == c {
      if t.k < |Range(gs, c, n)| {
        EarlyTryCut(db, m0, m, gs, c, n, k, t);
        k2, d2 := Max(k, t.k), c;
      } else {
        k2 := |Range(gs, c, n)|;
        d2 := EarlyTryThrough(db, m0, m, gs, c, n, k, t);
      }
    } else {
      k2 := k;
      d2 := LateTry(db, m0, m, gs, c, n, d, t);
    }
  }

  /** Replay convergence. However often a range was tried and cut, one poll that goes through ends
      exactly where a single uncut poll ends, down to the last buffer and replay key; and it goes
      through exactly when no op it lets in is blocked by one its gate drops. */
  lemma ReplayConverges(db: Db, m: Mem, gs: seq<Group>, c: nat, n: nat, tries: seq<Try>)
    requires AllWellFormed(gs) && c <= n <= |gs| && K.Valid(m.kem)
    requires Honest(gs) && AtPoint(db, m, gs, |RowsUpTo(gs, c)|, c)
    ensures var last := AfterTries(m, gs, c, n, tries);
            && (Whole(last, gs, c, n).1 <==> NobodyBlocked(gs, Watched(last), c, n))
            && Whole(m, gs, c, n).1
            && (Whole(last, gs, c, n).1 ==> Whole(last, gs, c, n) == Whole(m, gs, c, n))
  {
    hide AtPoint, DoneBetween, Kept, RowsUpTo, WellFormed, Honest, Watched, Attempt, Range, TreeAfter, RunOn, TreeRows,
      AfterTries, GetsIn;
    var last := AfterTries(m, gs, c, n, tries);
    StartsPartway(db, m, gs, c, n);
    var k1, d1 := TryStaysPartway(db, m, m, gs, c, n, 0, c, Try(|Kept(gs, Watched(m), c, n)|, n - c));
    EverybodyGetsInFirst(db, m, gs, c, n);
    var k, d := TriesStayPartway(db, m, gs, c, n, tries);
    var k2, d2 := TryStaysPartway(db, m, last, gs, c, n, k, d, Try(|Kept(gs, Watched(last), c, n)|, n - c));
  }

  lemma EverybodyGetsInFirst(db: Db, m: Mem, gs: seq<Group>, c: nat, n: nat)
    requires AllWellFormed(gs) && c <= n <= |gs|
    requires Honest(gs) && AtPoint(db, m, gs, |RowsUpTo(gs, c)|, c)
    ensures NobodyBlocked(gs, Watched(m), c, n)
  {
    hide AtPoint, WellFormed, Honest, Watched, GetsIn;
    ViewOf(db, m, gs, |RowsUpTo(gs, c)|, c);
    AllLateGetIn(gs, m, c, c, n);
  }
}
