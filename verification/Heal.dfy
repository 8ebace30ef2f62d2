/** After a commit at an old head and a reboot: the polls that read on past the groups committed early,
    and the commit that makes the rows clean again. */
module Heal {
  import opened Field
  import opened Imt
  import opened Chain
  import opened Ingest
  import opened Correlation
  import opened Effects
  import opened Replay
  import opened Views
  import opened Durable
  import opened Runs
  import opened Watch
  import opened Machine
  import opened Gated
  import opened Poll
  import opened Stale
  import opened Boot
  import opened Reboot
  import opened Crash
  import opened Wedge
  import F = Feed
  import K = Kem
  import LS = LedgerSync
  import M = Mirror
  import R = Registry
  import T = LeafTables

  // ---- who gets in while the flags are halfway ---------------------------------------

  lemma {:induction false} TransitionsGrow(gs: seq<Group>, h: nat, j: nat, d: nat, a: Address)
    requires h <= j <= d <= |gs|
    ensures Transitions(gs, h, j, a) <= Transitions(gs, h, d, a)
  {
    if j < d {
      TransitionsGrow(gs, h, j, d - 1, a);
    }
  }

  /** A module registered at the end and moved in between was registered in between. */
  lemma {:induction false} LastIsRegistration(gs: seq<Group>, h: nat, d: nat, a: Address) returns (j: nat)
    requires AllWellFormed(gs) && h <= d <= |gs|
    requires ChainOk(gs) && Leafless(gs, h, d) && R.IsRegistered(Clean(gs, d).modules, a)
    requires Transitions(gs, h, d, a) > 0
    ensures h <= j < d && gs[j].RegistryGroup? && gs[j].moduleAddr == a && gs[j].registered
    decreases d
  {
    hide WellFormed, ChainOk, Clean, K.AcceptChunk;
    LeaflessStep(gs, d - 1);
    if gs[d - 1].RegistryGroup? && gs[d - 1].moduleAddr == a {
      j := d - 1;
    } else {
      j := LastIsRegistration(gs, h, d - 1, a);
    }
  }

  lemma {:induction false} RegisteredBy(gs: seq<Group>, h: nat, d: nat, j: nat)
    requires AllWellFormed(gs) && h <= j < d <= |gs| && gs[j].RegistryGroup? && gs[j].registered
    requires FromModules(gs)
    ensures gs[j].moduleAddr in Registered(Range(gs, h, d))
    decreases d
  {
    hide WellFormed, LogsOf, Registered, Range, Gate;
    OneMoreGroup(gs, h, d);
    RegisteredAdds(Range(gs, h, d - 1), LogsOf(gs[d - 1]));
    if j == d - 1 {
      GroupAtGate({}, gs[j]);
    } else {
      RegisteredBy(gs, h, d - 1, j);
    }
  }

  /** The watch-set of a half re-read registry, with what the range registers, covers who may emit. */
  lemma MidCovers(gs: seq<Group>, m: Mem, r: Mem, h: nat, d: nat, j: nat)
    requires AllWellFormed(gs) && h <= j <= d <= |gs|
    requires ChainOk(gs) && AllEntitled(gs) && FromModules(gs) && Leafless(gs, h, d)
    requires Reread(gs, m, r, h, d, j) && View(m) == View(Clean(gs, d))
    ensures Covers(Watched(r) + Registered(Range(gs, h, d)), Clean(gs, d))
  {
    hide WellFormed, Clean, View, Range, Registered, ChainOk, AllEntitled, Leafless, SeenWithin, K.Incomplete;
    var clean := Clean(gs, d);
    SameStoresOf(m, clean);
    CleanOwnersKnown(gs, d);
    forall a | R.IsRegistered(clean.modules, a)
      ensures a in Watched(r) + Registered(Range(gs, h, d))
    {
      if Transitions(gs, h, d, a) > 0 {
        var i := LastIsRegistration(gs, h, d, a);
        RegisteredBy(gs, h, d, i);
      } else {
        TransitionsGrow(gs, h, j, d, a);
        assert R.IsRegistered(r.modules, a);
      }
    }
    forall id | id in clean.kem.batches && K.Incomplete(clean.kem.batches[id])
      ensures clean.kem.batches[id].moduleAddr in Watched(r)
    {
      assert R.IsKnown(clean.modules, clean.kem.batches[id].moduleAddr);
      assert clean.kem.batches[id].moduleAddr in r.modules.byAddress.Keys;
    }
  }

  lemma MidGetIn(gs: seq<Group>, m: Mem, r: Mem, h: nat, d: nat, j: nat, n: nat)
    requires AllWellFormed(gs) && h <= j <= d <= n <= |gs|
    requires Honest(gs) && Leafless(gs, h, d) && Reread(gs, m, r, h, d, j) && View(m) == View(Clean(gs, d))
    ensures forall i :: d <= i < n ==> GetsIn(gs, Watched(r), h, i)
  {
    hide WellFormed, Clean, View, Range, Registered, ChainOk, Leafless, Reread, Watched, Covers, Entitled, Honest, Gate,
      EmitterOf, Distinguishable, FromModules, DistinctBatches, AllDated, Truthful;
    HonestParts(gs);
    MidCovers(gs, m, r, h, d, j);
    var w := Watched(r) + Registered(Range(gs, h, d));
    forall i | d <= i < n
      ensures GetsIn(gs, Watched(r), h, i)
    {
      CoveredGetIn(gs, w, d, i);
      assert Entitled(Clean(gs, i), gs[i]);
      EntitledIsWatched(w + Registered(Range(gs, d, i)), Clean(gs, i), gs[i]);
      SliceWellFormed(gs, h, i, d - h);
      RegisteredAdds(Range(gs, h, d), Range(gs, d, i));
    }
  }

  // ---- pass 2 past the groups re-read ------------------------------------------------

  lemma LeaflessStaysSynced(db: Db, m: Mem, g: Group)
    requires Synced(db, m) && K.Valid(m.kem) && WellFormed(g) && !HasLeaves(g)
    ensures Synced(db, GroupEffect(m, g).0)
  {
    hide Synced, GroupEffect;
    EffectStaysSynced(db, m, g);
  }

  lemma {:induction false} SyncAlong(db: Db, m: Mem, gs: seq<Group>, w: set<Address>, h: nat, d: nat, n: nat)
    requires AllWellFormed(gs) && h <= n <= d <= |gs| && K.Valid(m.kem) && Leafless(gs, h, d) && Synced(db, m)
    ensures Synced(db, RunKept(m, gs, w, h, n).0) && RunKept(m, gs, w, h, n).0.feed.lastBlock == m.feed.lastBlock
    ensures AllKnown(m, gs, w, h, n)
    decreases n
  {
    hide WellFormed, GroupEffect, Synced, GetsIn, Blocked;
    if n > h {
      SyncAlong(db, m, gs, w, h, d, n - 1);
      var r := RunKept(m, gs, w, h, n - 1);
      LeaflessStaysSynced(db, r.0, gs[n - 1]);
      EffectKeepsCursor(r.0, gs[n - 1]);
      NoAnchor(gs[n - 1], r.0);
    }
    KnownSoFar(m, gs, w, h, n);
  }

  lemma NoAnchor(g: Group, m: Mem)
    requires WellFormed(g) && !HasLeaves(g)
    ensures Attributed(m, g)
  {
  }

  lemma {:induction false} RunKeptStops(m: Mem, gs: seq<Group>, w: set<Address>, h: nat, d: nat, n: nat)
    requires AllWellFormed(gs) && h <= d <= n <= |gs| && K.Valid(m.kem) && !RunKept(m, gs, w, h, d).1
    requires AllKnown(m, gs, w, h, d)
    ensures RunKept(m, gs, w, h, n) == RunKept(m, gs, w, h, d) && AllKnown(m, gs, w, h, n)
    decreases n
  {
    hide WellFormed, GroupEffect, GetsIn, Blocked, Attributed, AllKnown;
    if n > d {
      RunKeptStops(m, gs, w, h, d, n - 1);
      KnownSoFar(m, gs, w, h, n);
    }
  }

  /** Only leafless groups were dropped, so nobody is blocked. */
  lemma NobodyBehind(gs: seq<Group>, w: set<Address>, h: nat, d: nat, j: nat)
    requires AllWellFormed(gs) && h <= d <= j < |gs| && Leafless(gs, h, d)
    requires forall i :: d <= i < j ==> GetsIn(gs, w, h, i)
    ensures !Blocked(gs, w, h, j)
  {
    hide GetsIn;
  }

  /** Past the groups re-read every group is new, and lands. */
  lemma {:induction false} FreshLands(db: Db, m: Mem, gs: seq<Group>, p: nat, w: set<Address>, h: nat, d: nat, n: nat)
    requires AllWellFormed(gs) && h <= d <= n <= |gs| && K.Valid(m.kem) && |RowsUpTo(gs, n)| <= p
    requires ChainOk(gs) && Leafless(gs, h, d) && RunKept(m, gs, w, h, d).1 && AllKnown(m, gs, w, h, d)
    requires AtPoint(db, RunKept(m, gs, w, h, d).0, gs, p, d) && forall i :: d <= i < n ==> GetsIn(gs, w, h, i)
    ensures var r := RunKept(m, gs, w, h, n);
            && r.1 && AtPoint(db, r.0, gs, p, n)
            && r.0.feed.lastBlock == RunKept(m, gs, w, h, d).0.feed.lastBlock
    ensures AllKnown(m, gs, w, h, n)
    decreases n
  {
    hide WellFormed, GroupEffect, GetsIn, Blocked, Attributed, AllKnown, AtPoint, RowsUpTo, ChainOk, Leafless, Done;
    if n > d {
      RowsArePrefix(gs, n - 1, n);
      FreshLands(db, m, gs, p, w, h, d, n - 1);
      var r := RunKept(m, gs, w, h, n - 1);
      NobodyBehind(gs, w, h, d, n - 1);
      GroupLands(db, r.0, gs, p, n - 1);
      EffectKeepsCursor(r.0, gs[n - 1]);
      KnownSoFar(m, gs, w, h, n);
    }
  }

  // ---- whole polls -------------------------------------------------------------------

  /** A process between the reboot and the first poll that goes through: `j` says how far the re-reading
      has come, `p` how many inserts the frontier has. */
  ghost predicate Healing(gs: seq<Group>, db: Db, r: Mem, h: nat, d: nat, j: nat, p: nat)
    requires AllWellFormed(gs) && h <= j <= d <= |gs|
  {
    && K.Valid(r.kem) && Synced(db, r)
    && |RowsUpTo(gs, d)| <= p <= |RowsUpTo(gs, |gs|)| && r.tree.rows == RowsUpTo(gs, |gs|)[..p]
    && exists m: Mem :: View(m) == View(Clean(gs, d)) && Along(gs, m, r, h, d, j)
  }

  /** Pass 1 moves the frontier and nothing else. */
  lemma HealPass1(gs: seq<Group>, db: Db, r: Mem, m: Mem, h: nat, d: nat, j: nat, p: nat, n: nat)
    returns (r1: Mem, m1: Mem)
    requires AllWellFormed(gs) && h <= j <= d <= n <= |gs|
    requires Honest(gs) && K.Valid(r.kem) && Synced(db, r)
    requires |RowsUpTo(gs, d)| <= p <= |RowsUpTo(gs, |gs|)| && r.tree.rows == RowsUpTo(gs, |gs|)[..p]
    requires View(m) == View(Clean(gs, d)) && Along(gs, m, r, h, d, j)
    ensures Pass1(r.tree, Kept(gs, Watched(r), h, n)).1 && r1 == Grown1(r, gs, h, n)
    ensures K.Valid(r1.kem) && Synced(db, r1) && r1.feed == r.feed
    ensures Max(p, |RowsUpTo(gs, n)|) <= |RowsUpTo(gs, |gs|)|
    ensures r1.tree.rows == RowsUpTo(gs, |gs|)[..Max(p, |RowsUpTo(gs, n)|)]
    ensures View(m1) == View(Clean(gs, d)) && Along(gs, m1, r1, h, d, j)
  {
    hide Kept, WellFormed, RowsUpTo, TreeRows, Truthful, T.Synced, F.Synced, LS.Synced, Retained, R.Synced, Pass1,
      Reached, FromModules, Flatten, LogsOf, Honest, Watched, Clean, Distinguishable, DistinctBatches, AllDated,
      AllEntitled, ChainOk;
    var w := Watched(r);
    var kept := Kept(gs, w, h, n);
    HonestParts(gs);
    RowsArePrefix(gs, h, d);
    assert kept[..|kept|] == kept;
    TreeLands(db.leaves, r.tree, gs, w, p, h, n, |kept|);
    ReachedWithin(gs, w, h, n, |kept|);
    r1, m1 := Grown1(r, gs, h, n), m.(tree := Pass1(r.tree, kept).0);
    RetainedSame(r, r1);
    SameWithin(gs, r, r1, j);
    AlongTree(gs, m, r, m1, r1, h, d, j);
  }

  lemma AlongTree(gs: seq<Group>, m: Mem, r: Mem, m1: Mem, r1: Mem, h: nat, d: nat, j: nat)
    requires AllWellFormed(gs) && h <= j <= d <= |gs| && Along(gs, m, r, h, d, j)
    requires r1 == r.(tree := r1.tree) && m1 == m.(tree := r1.tree)
    ensures Along(gs, m1, r1, h, d, j)
  {
    hide WellFormed, GroupKey, Clean;
    SameWithin(gs, r, r1, j);
  }

  /** One uncut poll past the groups re-read: it throws further on than the one before, or it goes
      through and stands exactly at the end of its range. */
  lemma HealPoll(gs: seq<Group>, db: Db, r: Mem, h: nat, d: nat, j: nat, p: nat, n: nat) returns (j': nat)
    requires AllWellFormed(gs) && h <= j <= d <= n <= |gs|
    requires Honest(gs) && Leafless(gs, h, d) && Healing(gs, db, r, h, d, j, p)
    ensures K.Valid(r.kem)
    ensures var (r', through) := Whole(r, gs, h, n); var p' := Max(p, |RowsUpTo(gs, n)|);
            && r'.feed.lastBlock == r.feed.lastBlock
            && (!through ==> j < j' <= d && Healing(gs, db, r', h, d, j', p'))
            && (through ==> AtPoint(db, r', gs, p', n))
  {
    hide WellFormed, Clean, GroupEffect, View, ChainOk, GetsIn, Along, Blocked, Leafless, Synced, RowsUpTo, Pass1, Kept,
      Watched, Honest, RunKept, Handled, Whole, AllKnown, Grown1, Reread, AtPoint, FromModules, Distinguishable,
      DistinctBatches, AllDated, AllEntitled, Truthful;
    var m :| View(m) == View(Clean(gs, d)) && Along(gs, m, r, h, d, j);
    var w := Watched(r);
    HonestParts(gs);
    AlongIs(gs, m, r, h, d, j);
    var r1, m1 := HealPass1(gs, db, r, m, h, d, j, p, n);
    WholeIs(r, gs, h, n);
    MidGetIn(gs, m, r, h, d, j, n);
    j' := AlongPoll(gs, m1, r1, w, h, d, j, d);
    SyncAlong(db, r1, gs, w, h, d, d);
    KeepsRows(gs, m1, r1, RunKept(r1, gs, w, h, d).0, h, d, j, j');
    if RunKept(r1, gs, w, h, d).1 {
      ThroughLands(gs, db, m1, r1, w, h, d, j', Max(p, |RowsUpTo(gs, n)|), n);
    } else {
      RunKeptStops(r1, gs, w, h, d, n);
    }
    HandledIsRunKept(r1, gs, w, h, n, n - h);
  }

  lemma AlongIs(gs: seq<Group>, m: Mem, r: Mem, h: nat, d: nat, j: nat)
    requires AllWellFormed(gs) && h <= j <= d <= |gs| && Along(gs, m, r, h, d, j)
    ensures K.Valid(r.kem) && Reread(gs, m, r, h, d, j)
  {
  }

  lemma KeepsRows(gs: seq<Group>, m: Mem, a: Mem, b: Mem, h: nat, d: nat, i: nat, j: nat)
    requires AllWellFormed(gs) && h <= i <= d <= |gs| && h <= j <= d
    requires Along(gs, m, a, h, d, i) && Along(gs, m, b, h, d, j)
    ensures K.Valid(b.kem) && b.tree == a.tree == m.tree
  {
    hide WellFormed, Clean;
  }

  lemma WholeIs(m: Mem, gs: seq<Group>, c: nat, n: nat)
    requires K.Valid(m.kem) && AllWellFormed(gs) && c <= n <= |gs| && Pass1(m.tree, Kept(gs, Watched(m), c, n)).1
    ensures K.Valid(Grown1(m, gs, c, n).kem)
    ensures Whole(m, gs, c, n) == Handled(Grown1(m, gs, c, n), gs, Watched(m), c, n, n - c)
  {
    hide WellFormed, Pass1, Kept, Watched, Handled, Attempt;
    PastPass1(m, gs, c, n, |Kept(gs, Watched(m), c, n)|, n - c);
  }

  lemma ThroughLands(gs: seq<Group>, db: Db, m: Mem, r: Mem, w: set<Address>, h: nat, d: nat, j: nat, p: nat, n: nat)
    requires AllWellFormed(gs) && h <= j <= d <= n <= |gs| && K.Valid(r.kem)
    requires ChainOk(gs) && Leafless(gs, h, d) && View(m) == View(Clean(gs, d))
    requires RunKept(r, gs, w, h, d).1 && j == d && Along(gs, m, RunKept(r, gs, w, h, d).0, h, d, j)
    requires Synced(db, RunKept(r, gs, w, h, d).0) && AllKnown(r, gs, w, h, d)
    requires |RowsUpTo(gs, n)| <= p <= |RowsUpTo(gs, |gs|)| && m.tree.rows == RowsUpTo(gs, |gs|)[..p]
    requires forall i :: d <= i < n ==> GetsIn(gs, w, h, i)
    ensures var s := RunKept(r, gs, w, h, n);
            && s.1 && AtPoint(db, s.0, gs, p, n)
            && s.0.feed.lastBlock == RunKept(r, gs, w, h, d).0.feed.lastBlock
    ensures AllKnown(r, gs, w, h, n)
  {
    hide WellFormed, Clean, View, ChainOk, GetsIn, Leafless, Synced, RowsUpTo, RunKept, AllKnown;
    var s := RunKept(r, gs, w, h, d).0;
    AlongIs(gs, m, s, h, d, d);
    RereadEnds(gs, m, s, h, d);
    RowsArePrefix(gs, d, n);
    FreshLands(db, r, gs, p, w, h, d, n);
  }

  // ---- from the reboot to clean rows -------------------------------------------------

  /** Every head is past the groups committed early, and none is older than the one before. */
  ghost predicate Onward(gs: seq<Group>, d: nat, heads: seq<nat>) {
    && (forall k :: 0 <= k < |heads| ==> d <= Cut(gs, heads[k]))
    && forall i, k :: 0 <= i <= k < |heads| ==> heads[i] <= heads[k]
  }

  /** The read model after uncut polls to these heads, none of them followed by a persist. */
  ghost function AfterPolls(m: Mem, gs: seq<Group>, h: nat, d: nat, heads: seq<nat>): (r: Mem)
    requires K.Valid(m.kem) && AllWellFormed(gs) && h <= d && Onward(gs, d, heads)
    ensures K.Valid(r.kem)
  {
    if heads == [] then m
    else Whole(AfterPolls(m, gs, h, d, heads[..|heads| - 1]), gs, h, Cut(gs, heads[|heads| - 1])).0
  }

  /** Poll number `k` goes through. */
  ghost predicate Through(m: Mem, gs: seq<Group>, h: nat, d: nat, heads: seq<nat>, k: nat)
    requires K.Valid(m.kem) && AllWellFormed(gs) && h <= d && Onward(gs, d, heads) && k < |heads|
  {
    Whole(AfterPolls(m, gs, h, d, heads[..k]), gs, h, Cut(gs, heads[k])).1
  }

  /** How far the frontier is after these polls. */
  function Frontier(gs: seq<Group>, d: nat, heads: seq<nat>): nat
    requires AllWellFormed(gs) && d <= |gs|
  {
    |RowsUpTo(gs, if heads == [] then d else Cut(gs, heads[|heads| - 1]))|
  }

  lemma FrontierGrows(gs: seq<Group>, d: nat, heads: seq<nat>)
    requires AllWellFormed(gs) && d <= |gs| && heads != [] && Onward(gs, d, heads)
    ensures Frontier(gs, d, heads)
         == Max(Frontier(gs, d, heads[..|heads| - 1]), |RowsUpTo(gs, Cut(gs, heads[|heads| - 1]))|)
  {
    hide WellFormed, RowsUpTo, Cut;
    var n := |heads| - 1;
    if n == 0 {
      RowsArePrefix(gs, d, Cut(gs, heads[n]));
    } else {
      assert heads[..n][n - 1] == heads[n - 1];
      CutGrows(gs, heads[n - 1], heads[n]);
      RowsArePrefix(gs, Cut(gs, heads[n - 1]), Cut(gs, heads[n]));
    }
  }

  /** None of the polls so far has gone through. */
  ghost predicate NoneThrough(m: Mem, gs: seq<Group>, h: nat, d: nat, heads: seq<nat>)
    requires K.Valid(m.kem) && AllWellFormed(gs) && h <= d && Onward(gs, d, heads)
  {
    forall k :: 0 <= k < |heads| ==> !Through(m, gs, h, d, heads, k)
  }

  lemma NoneBefore(m: Mem, gs: seq<Group>, h: nat, d: nat, heads: seq<nat>, n: nat)
    requires K.Valid(m.kem) && AllWellFormed(gs) && h <= d && Onward(gs, d, heads) && n <= |heads|
    requires forall k :: 0 <= k < n ==> !Through(m, gs, h, d, heads, k)
    ensures Onward(gs, d, heads[..n]) && NoneThrough(m, gs, h, d, heads[..n])
  {
    hide WellFormed, Whole, AfterPolls, Cut;
    forall k | 0 <= k < n
      ensures !Through(m, gs, h, d, heads[..n], k)
    {
      assert heads[..k] == heads[..n][..k] && !Through(m, gs, h, d, heads, k);
    }
  }

  lemma {:induction false} PollsHeal(gs: seq<Group>, db: Db, m: Mem, h: nat, d: nat, heads: seq<nat>) returns (j: nat)
    requires AllWellFormed(gs) && h <= d <= |gs| && K.Valid(m.kem) && Onward(gs, d, heads)
    requires Honest(gs) && Leafless(gs, h, d) && Healing(gs, db, m, h, d, h, |RowsUpTo(gs, d)|)
    requires NoneThrough(m, gs, h, d, heads)
    ensures h + |heads| <= j <= d
    ensures Healing(gs, db, AfterPolls(m, gs, h, d, heads), h, d, j, Frontier(gs, d, heads))
    decreases |heads|
  {
    hide WellFormed, Healing, Honest, Leafless, Whole, RowsUpTo, Cut, Onward, K.Valid, Frontier;
    if heads == [] {
      j := h;
      NoFrontier(gs, d);
    } else {
      var n := |heads| - 1;
      NoneBefore(m, gs, h, d, heads, n);
      LastFails(m, gs, h, d, heads);
      OnwardAt(gs, d, heads, n);
      var j0 := PollsHeal(gs, db, m, h, d, heads[..n]);
      var before := AfterPolls(m, gs, h, d, heads[..n]);
      j := HealPoll(gs, db, before, h, d, j0, Frontier(gs, d, heads[..n]), Cut(gs, heads[n]));
      FrontierGrows(gs, d, heads);
    }
  }

  lemma NoFrontier(gs: seq<Group>, d: nat)
    requires AllWellFormed(gs) && d <= |gs|
    ensures Frontier(gs, d, []) == |RowsUpTo(gs, d)|
  {
  }

  lemma OnwardAt(gs: seq<Group>, d: nat, heads: seq<nat>, k: nat)
    requires Onward(gs, d, heads) && k < |heads|
    ensures d <= Cut(gs, heads[k]) <= |gs|
  {
  }

  lemma LastFails(m: Mem, gs: seq<Group>, h: nat, d: nat, heads: seq<nat>)
    requires K.Valid(m.kem) && AllWellFormed(gs) && h <= d && Onward(gs, d, heads) && heads != []
    requires NoneThrough(m, gs, h, d, heads)
    ensures var n := |heads| - 1;
            && Onward(gs, d, heads[..n]) && h <= Cut(gs, heads[n])
            && !Whole(AfterPolls(m, gs, h, d, heads[..n]), gs, h, Cut(gs, heads[n])).1
  {
    hide WellFormed, Whole, AfterPolls, Cut;
    OnwardPrefix(gs, d, heads, |heads| - 1);
    assert !Through(m, gs, h, d, heads, |heads| - 1);
  }

  lemma BootHeals(gs: seq<Group>, head: int, d: nat)
    requires AllWellFormed(gs) && Cut(gs, head) <= d <= |gs|
    requires ChainOk(gs)
    ensures var db := Dump(Clean(gs, d), head); var m := Booted(db);
            && K.Valid(m.kem) && m.feed.lastBlock == head
            && Healing(gs, db, m, Cut(gs, head), d, Cut(gs, head), |RowsUpTo(gs, d)|)
  {
    hide ChainOk, WellFormed, Clean, Dump, Booted, Cut, RowsUpTo, View, Synced, SeenWithin, Reread;
    var db := Dump(Clean(gs, d), head);
    var m := Booted(db);
    BootLands(gs, d, head);
    BootForgets(gs, d, head);
    PointIs(gs, db, m, |RowsUpTo(gs, d)|, d);
    NothingReread(gs, m, Cut(gs, head), d);
    assert Along(gs, m, m, Cut(gs, head), d, Cut(gs, head));
  }

  lemma PointIs(gs: seq<Group>, db: Db, m: Mem, p: nat, d: nat)
    requires AllWellFormed(gs) && AtPoint(db, m, gs, p, d)
    ensures d <= |gs| && |RowsUpTo(gs, d)| <= p <= |RowsUpTo(gs, |gs|)| && m.tree.rows == RowsUpTo(gs, |gs|)[..p]
    ensures Synced(db, m) && View(m) == View(Clean(gs, d)) && SeenWithin(m, gs, d)
  {
    hide WellFormed, Clean, View, Synced, SeenWithin, RowsUpTo;
  }

  /** A poll that went through to a head that is the newest: the head check passes, and the commit
      leaves the rows of the run that never failed and a process with nothing handled past its cursor. */
  lemma ThroughCommits(gs: seq<Group>, db: Db, m: Mem, head: nat)
    requires AllWellFormed(gs) && K.Valid(m.kem)
    requires ChainOk(gs) && AtPoint(db, m, gs, |RowsUpTo(gs, Cut(gs, head))|, Cut(gs, head))
    ensures CommitsClean(gs, db, m, head)
  {
    hide ChainOk, WellFormed, Clean, Dump, Stage, Flushed, Cut, RowsUpTo, View, Synced, SeenWithin, HeadMatches,
      K.Valid;
    var n := Cut(gs, head);
    PointIs(gs, db, m, |RowsUpTo(gs, n)|, n);
    HeadTells(gs, db, m, |RowsUpTo(gs, n)|, n, n);
    FlushLands(db, m, head);
    DumpIsClean(gs, db, m, n, head);
    DumpCursor(m, head);
    FlushedIsSynced(db, m, head);
    FlushedShape(m, head, gs, n);
  }

  /** The read model poll number `k` leaves. */
  ghost function PolledBy(m: Mem, gs: seq<Group>, h: nat, d: nat, heads: seq<nat>, k: nat): (r: Mem)
    requires K.Valid(m.kem) && AllWellFormed(gs) && h <= d && Onward(gs, d, heads) && k < |heads|
    ensures K.Valid(r.kem)
  {
    Whole(AfterPolls(m, gs, h, d, heads[..k]), gs, h, Cut(gs, heads[k])).0
  }

  /** It is the first that does. */
  ghost predicate FirstThrough(m: Mem, gs: seq<Group>, h: nat, d: nat, heads: seq<nat>, k: nat)
    requires K.Valid(m.kem) && AllWellFormed(gs) && h <= d && Onward(gs, d, heads) && k < |heads|
  {
    Through(m, gs, h, d, heads, k) && forall i :: 0 <= i < k ==> !Through(m, gs, h, d, heads, i)
  }

  /** What `r` leaves when it is committed at `head`: the head check passes, the rows are those of the run
      that never failed, and nothing is handled past the cursor. */
  ghost predicate CommitsClean(gs: seq<Group>, db: Db, r: Mem, head: nat)
    requires AllWellFormed(gs)
  {
    && HeadMatches(gs, r, Cut(gs, head)) && DurableIsClean(gs, Stage(db, r, head))
    && Rested(gs, Stage(db, r, head), Flushed(r, head), head)
  }

  lemma OnwardPrefix(gs: seq<Group>, d: nat, heads: seq<nat>, k: nat)
    requires Onward(gs, d, heads) && k <= |heads|
    ensures Onward(gs, d, heads[..k])
  {
  }

  lemma FirstCommits(gs: seq<Group>, db: Db, m: Mem, h: nat, d: nat, heads: seq<nat>, k: nat)
    requires AllWellFormed(gs) && h <= d <= |gs| && K.Valid(m.kem) && Onward(gs, d, heads) && k < |heads|
    requires Honest(gs) && Leafless(gs, h, d) && Healing(gs, db, m, h, d, h, |RowsUpTo(gs, d)|)
    requires FirstThrough(m, gs, h, d, heads, k)
    ensures CommitsClean(gs, db, PolledBy(m, gs, h, d, heads, k), heads[k])
  {
    hide WellFormed, Healing, Honest, Leafless, Whole, RowsUpTo, Cut, AtPoint, CommitsClean, K.Valid, ChainOk,
      AllEntitled, Distinguishable, FromModules, DistinctBatches, AllDated, Truthful;
    var init := heads[..k];
    NoneBefore(m, gs, h, d, heads, k);
    HonestParts(gs);
    var j := PollsHeal(gs, db, m, h, d, init);
    var j' := HealPoll(gs, db, AfterPolls(m, gs, h, d, init), h, d, j, Frontier(gs, d, init), Cut(gs, heads[k]));
    OnwardPrefix(gs, d, heads, k + 1);
    assert heads[..k + 1][..k] == init;
    FrontierGrows(gs, d, heads[..k + 1]);
    ThroughCommits(gs, db, Whole(AfterPolls(m, gs, h, d, init), gs, h, Cut(gs, heads[k])).0, heads[k]);
  }

  /** An old head heals. After a commit at an old head and a reboot, one of any d - h + 1 uncut polls to
      heads past the groups committed early goes through; the first that does passes the head check, and
      its commit leaves the rows of the run that never failed. */
  lemma OldHeadHeals(gs: seq<Group>, head: int, d: nat, heads: seq<nat>) returns (m: Mem)
    requires AllWellFormed(gs) && Cut(gs, head) <= d <= |gs| && Onward(gs, d, heads)
    requires Honest(gs) && Leafless(gs, Cut(gs, head), d)
    ensures m == Booted(Dump(Clean(gs, d), head)) && K.Valid(m.kem)
    ensures |heads| > d - Cut(gs, head) ==> exists k :: 0 <= k < |heads| && Through(m, gs, Cut(gs, head), d, heads, k)
    ensures forall k :: 0 <= k < |heads| && FirstThrough(m, gs, Cut(gs, head), d, heads, k) ==>
              CommitsClean(gs, Dump(Clean(gs, d), head), PolledBy(m, gs, Cut(gs, head), d, heads, k), heads[k])
  {
    hide ChainOk, WellFormed, Clean, Dump, Booted, Cut, RowsUpTo, Healing, Honest, Leafless, Through, CommitsClean,
      K.Valid, FirstThrough, PolledBy, AllEntitled, Distinguishable, FromModules, DistinctBatches, AllDated, Truthful;
    var h, db := Cut(gs, head), Dump(Clean(gs, d), head);
    m := Booted(db);
    HonestParts(gs);
    BootHeals(gs, head, d);
    if |heads| > d - h && forall k :: 0 <= k < |heads| ==> !Through(m, gs, h, d, heads, k) {
      assert NoneThrough(m, gs, h, d, heads);
      var j := PollsHeal(gs, db, m, h, d, heads);
      assert false;
    }
    forall k | 0 <= k < |heads| && FirstThrough(m, gs, h, d, heads, k)
      ensures CommitsClean(gs, db, PolledBy(m, gs, h, d, heads, k), heads[k])
    {
      FirstCommits(gs, db, m, h, d, heads, k);
    }
  }
}
